/**
 * The services and workers as they run: each reads the intent's rows, checks, and rewrites them one
 * after another. Every method leaves the rows exactly as the step of `Lifecycle` it implements.
 */
module IntentStore {
  import opened Prelude
  import opened IntentStates
  import opened Lifecycle
  import Engine = PolicyEngine
  import Staging = ApprovalStages
  import Ledger = ApprovalLedger

  /** How a call ends: it returns, or it throws one of the service errors. */
  datatype Answer = Done | Refused | Conflict | InvalidTransition

  class Store {
    // the intent row and its audited changes
    var status: Status
    var trail: seq<Change>
    // simulation, policy and approval rows
    var review: Review
    // the execution job, its queue message, the connector's calls and the usage counter
    var execution: Execution
    // rollback attempts, their queue messages and calls
    var rollback: Rollback
    var receipts: seq<Receipt>

    ghost function State(): World
      reads this
    {
      World(status, trail, review, execution, rollback, receipts)
    }

    constructor ()
      ensures State() == FRESH
    {
      status, trail, receipts := Draft, [], [];
      review := Review(0, [], None);
      execution := Execution(None, None, 0, None, 0);
      rollback := Rollback([], map[], 0);
    }

    method TransitionIntent(target: Status) returns (ok: bool)
      modifies this`status, this`trail
      ensures State() == Move(old(State()), target)
      ensures ok == IsValidTransition(old(status), target)
      ensures ok ==> status == target && trail == old(trail) + [Change(old(status), target)]
      ensures !ok ==> status == old(status) && trail == old(trail)
    {
      var current := status;
      if !IsValidTransition(current, target) {
        return false;
      }
      status := target;
      trail := trail + [Change(current, target)];
      return true;
    }

    method ProposeIntent() returns (answer: Answer)
      modifies this
      ensures State() == Propose(old(State()))
      ensures answer == Done <==> old(status) == Draft
    {
      var ok := TransitionIntent(Proposed);
      answer := if ok then Done else InvalidTransition;
    }

    method SimulateIntent(accepted: bool) returns (answer: Answer)
      modifies this
      ensures State() == Simulate(old(State()), accepted)
      ensures answer == Done <==> old(status) == Proposed && accepted
    {
      if status != Proposed {
        return Refused;
      }
      if !accepted {
        return Refused;
      }
      review := review.(simulations := review.simulations + 1);
      var ok := TransitionIntent(Simulated);
      assert ok;
      return Done;
    }

    method StoreDecisions(results: seq<Engine.Decision>)
      modifies this`review
      ensures review == old(review).(decisions := old(review).decisions + results)
    {
      var i := 0;
      while i < |results|
        invariant 0 <= i <= |results|
        invariant review == old(review).(decisions := old(review).decisions + results[..i])
      {
        assert results[..i + 1] == results[..i] + [results[i]];
        review := review.(decisions := review.decisions + [results[i]]);
        i := i + 1;
      }
    }

    /** `verdict` is the policy result reported to the caller, when the call gets that far. */
    method SubmitForApproval(f: Filing) returns (answer: Answer, verdict: Option<Engine.Verdict>)
      modifies this
      ensures State() == Submit(old(State()), f)
      ensures verdict.Some? ==> verdict.value == Engine.Aggregate(f.policies, f.intent, f.context)
      ensures answer == Done && verdict == Some(Engine.Deny) ==> status == Rejected
      ensures answer == Done && verdict != Some(Engine.Deny) ==> status == PendingApproval
    {
      var accepted := Staging.ParseSubmission(f.sub);
      if accepted.None? {
        return Refused, None;
      }
      var stages := Staging.NormalizeStages(accepted.value);
      if !f.planAllows {
        return Refused, None;
      }
      if status != Simulated {
        return Refused, None;
      }
      var overall, results := Engine.EvaluatePolicies(f.policies, f.intent, f.context);
      StoreDecisions(results);
      if overall == Engine.Deny {
        var ok := TransitionIntent(Rejected);
        assert ok;
        return Done, Some(overall);
      }
      if review.request.Some? {
        return Conflict, Some(overall);
      }
      review := review.(request := Some(Ledger.OpenRequest(stages)));
      var ok := TransitionIntent(PendingApproval);
      assert ok;
      return Done, Some(overall);
    }

    method ProcessApprovalDecision(user: int, verdict: Ledger.Verdict, role: Option<Staging.Role>)
      returns (answer: Answer)
      modifies this
      ensures State() == Decide(old(State()), user, verdict, role)
      ensures answer == Done || answer == InvalidTransition
              <==> && old(review).request.Some?
                   && Ledger.Decide(old(review).request.value, user, verdict, role).outcome == Ledger.Recorded
    {
      if review.request.None? {
        return Refused;
      }
      var snapshot := review.request.value;
      if snapshot.status != Ledger.Pending {
        return Conflict;
      }
      var stages := Ledger.Stages(snapshot);
      var active := Ledger.ActiveIndex(stages, snapshot);
      var stage := stages[active];
      if Ledger.HasDecided(snapshot.decisions, user) {
        return Conflict;
      }
      if !Staging.MayReview(role, stage.reviewerRoles) {
        return Refused;
      }
      var next, move := Ledger.RecordDecision(stages, snapshot, user, verdict);
      assert Ledger.Refusal(stages, snapshot, user, role).None?;
      review := review.(request := Some(next));
      var ok := true;
      match move {
        case Stay =>
        case MoveToApproved => ok := TransitionIntent(Approved);
        case MoveToRejected => ok := TransitionIntent(Rejected);
      }
      return if ok then Done else InvalidTransition;
    }

    method QueueForExecution(planAllows: bool, enqueued: bool) returns (answer: Answer)
      modifies this
      ensures State() == QueueExecution(old(State()), planAllows, enqueued)
      ensures answer == Done ==>
                status == Queued && execution.message == Some(0) && execution.units == old(execution).units + 1
    {
      if status != Approved {
        return Refused;
      }
      if execution.job.Some? && execution.job.value.status != JobFailed {
        return Conflict;
      }
      if !planAllows {
        return Refused;
      }
      if execution.job.Some? {
        return Conflict;                       // the job's intent id is unique
      }
      execution := execution.(job := Some(Job(JobQueued, 0, None)));
      var ok := TransitionIntent(Queued);
      assert ok;
      if !enqueued {
        return Refused;
      }
      execution := execution.(message := Some(0));
      execution := execution.(units := execution.units + 1);
      return Done;
    }

    /** One delivery of the queued execution; a delivery that throws goes back to the queue while it may. */
    method ProcessExecution(reply: Reply) returns (threw: bool)
      modifies this
      ensures State() == DeliverExecution(old(State()), reply)
      ensures !threw && Deliverable(old(execution)) ==> reply.Returns? && status == Succeeded
    {
      if execution.message.None? || execution.job.None? {
        return false;
      }
      var attemptsMade := execution.message.value;
      SetJob(execution.job.value.(status := JobProcessing, attempts := attemptsMade + 1));
      var ok := TransitionIntent(Executing);
      if !ok || reply.Missing? {
        execution := execution.(message := Redeliver(attemptsMade));
        return true;
      }
      threw := CallConnector(reply, attemptsMade);
    }

    method SetJob(job: Job)
      modifies this`execution
      ensures execution == old(execution).(job := Some(job))
    {
      execution := execution.(job := Some(job));
    }

    /** The connector's call and what is written after it. */
    method CallConnector(reply: Reply, attemptsMade: nat) returns (threw: bool)
      requires status == Executing && execution.job.Some? && !reply.Missing?
      modifies this`status, this`trail, this`receipts, this`execution
      ensures var e, j := old(execution), old(execution).job.value;
              execution == if reply.Returns?
                then Execution(Some(j.(status := JobCompleted, result := Some(reply.data))), None, e.calls + 1, Some(reply.data), e.units)
                else e.(job := Some(j.(status := JobFailed)), message := Redeliver(attemptsMade), calls := e.calls + 1)
      ensures status == (if reply.Returns? then Succeeded else Failed) && trail == old(trail) + [Change(Executing, status)]
      ensures receipts == old(receipts) + (if reply.Returns? then [ExecutionReceipt(reply.data)] else [])
      ensures threw <==> !reply.Returns?
    {
      execution := execution.(calls := execution.calls + 1);
      if reply.Returns? {
        execution := execution.(returned := Some(reply.data));
        SetJob(execution.job.value.(status := JobCompleted, result := Some(reply.data)));
        var ok := TransitionIntent(Succeeded);
        assert ok;
        receipts := receipts + [ExecutionReceipt(reply.data)];
        execution := execution.(message := None);
        return false;
      }
      SetJob(execution.job.value.(status := JobFailed));
      var ok := TransitionIntent(Failed);
      assert ok;
      execution := execution.(message := Redeliver(attemptsMade));
      return true;
    }

    method SetAttempt(a: nat, status: AttemptStatus)
      requires a < |rollback.attempts|
      modifies this`rollback
      ensures rollback == old(rollback).(attempts := old(rollback).attempts[a := status])
    {
      rollback := rollback.(attempts := rollback.attempts[a := status]);
    }

    method AskForRollback(supported: bool, enqueued: bool) returns (answer: Answer)
      modifies this
      ensures State() == RequestRollback(old(State()), supported, enqueued)
      ensures answer == Done ==> status == RollbackPending && |rollback.attempts| == |old(rollback).attempts| + 1
    {
      if status != Succeeded && status != RollbackFailed {
        return Refused;
      }
      if !supported {
        return Refused;
      }
      var a := |rollback.attempts|;
      rollback := rollback.(attempts := rollback.attempts + [AttemptPending]);
      var ok := TransitionIntent(RollbackPending);
      assert ok;
      if !enqueued {
        SetAttempt(a, AttemptFailed);
        assert rollback.attempts == old(rollback).attempts + [AttemptFailed];
        ok := TransitionIntent(RollbackFailed);
        assert ok;
        return Refused;
      }
      rollback := rollback.(messages := rollback.messages[a := 0]);
      return Done;
    }

    /** One delivery of a queued rollback attempt. */
    method ProcessRollback(a: nat, reply: Reply) returns (threw: bool)
      modifies this
      ensures State() == DeliverRollback(old(State()), a, reply)
    {
      if a !in rollback.messages || a >= |rollback.attempts| {
        return false;
      }
      var attemptNumber := rollback.messages[a] + 1;
      SetAttempt(a, AttemptInProgress);
      if reply.Missing? {
        rollback := rollback.(messages := AfterThrow(rollback.messages, a, attemptNumber - 1));
        return true;
      }
      rollback := rollback.(calls := rollback.calls + 1);
      if reply.Returns? {
        SetAttempt(a, AttemptCompleted);
        assert rollback.attempts == old(rollback).attempts[a := AttemptCompleted];
        var ok := TransitionIntent(RolledBack);
        if ok {
          receipts := receipts + [RollbackReceipt(a, reply.data)];
          rollback := rollback.(messages := rollback.messages - {a});
          return false;
        }
      }
      if attemptNumber >= MAX_ATTEMPTS {
        SetAttempt(a, AttemptFailed);
        var _ := TransitionIntent(RollbackFailed);
      }
      rollback := rollback.(messages := AfterThrow(rollback.messages, a, attemptNumber - 1));
      return true;
    }
  }
}
