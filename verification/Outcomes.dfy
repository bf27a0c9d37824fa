/**
 * What each call and each delivery makes of an intent, read from its rows and from what the
 * environment does, for every state that the lifecycle invariant allows.
 */
module Outcomes {
  import opened Prelude
  import opened IntentStates
  import opened Lifecycle
  import Engine = PolicyEngine
  import Staging = ApprovalStages
  import Ledger = ApprovalLedger

  /** Nothing else of the intent has changed, and the change of status is on the trail. */
  predicate MovedTo(w: World, t: World, status: Status) {
    t.status == status && t.trail == w.trail + [Change(w.status, status)]
  }

  lemma {:induction false} SimulationOutcome(w: World, accepted: bool)
    requires Sound(w)
    ensures var t := Simulate(w, accepted);
            if w.status == Proposed && accepted
            then MovedTo(w, t, Simulated) && t.review == Review(1, w.review.decisions, None)
                 && (t.execution, t.rollback, t.receipts) == (w.execution, w.rollback, w.receipts)
            else t == w
  {
  }

  /** Some enabled policy denies the intent. */
  predicate SomeDenies(f: Filing) {
    exists p :: p in f.policies && p.enabled && Engine.EvaluatePolicy(p, f.intent, f.context).verdict == Engine.Deny
  }

  /** A pending request on the stages a submission asks for, with nothing decided. */
  predicate JustOpened(r: Ledger.Request, sub: Staging.Submission)
    requires Staging.ParseSubmission(sub).Some?
  {
    && Ledger.Stages(r) == Staging.NormalizeStages(Staging.ParseSubmission(sub).value)
    && r.status == Ledger.Pending && r.decisions == [] && r.currentCount == 0 && r.currentStageIndex == 0
    && r.requiredCount == Staging.Total(Ledger.Stages(r))
  }

  lemma {:induction false} OpenedForTheSubmission(sub: Staging.Submission)
    requires Staging.ParseSubmission(sub).Some?
    ensures JustOpened(Ledger.OpenRequest(Staging.NormalizeStages(Staging.ParseSubmission(sub).value)), sub)
  {
    Ledger.NewRequestHasLedger(sub);
  }

  lemma {:induction false} DeniedExactlyWhenSomeDenies(f: Filing)
    ensures Engine.Aggregate(f.policies, f.intent, f.context) == Engine.Deny <==> SomeDenies(f)
  {
  }

  lemma {:induction false} SubmissionStops(w: World, f: Filing)
    requires w.status != Simulated || !f.planAllows || Staging.ParseSubmission(f.sub).None?
    ensures Submit(w, f) == w
  {
  }

  /** What a submission that counts leaves behind, whether it is denied or opens `request`. */
  predicate Submitted(w: World, t: World, denies: bool, decisions: seq<Engine.Decision>, request: Ledger.Request) {
    && MovedTo(w, t, if denies then Rejected else PendingApproval)
    && t.review == Review(w.review.simulations, decisions, if denies then None else Some(request))
    && (t.execution, t.rollback, t.receipts) == (w.execution, w.rollback, w.receipts)
  }

  lemma {:induction false} SubmissionLeaves(w: World, denies: bool, decisions: seq<Engine.Decision>, request: Ledger.Request)
    requires w.status == Simulated && w.review.request.None?
    ensures Submitted(w, if denies then Move(w.(review := w.review.(decisions := decisions)), Rejected)
                         else Move(w.(review := w.review.(decisions := decisions, request := Some(request))), PendingApproval),
                      denies, decisions, request)
  {
  }

  lemma {:induction false} NothingReviewedYet(w: World)
    requires Sound(w) && w.status == Simulated
    ensures w.review.decisions == [] && w.review.request.None?
  {
  }

  lemma {:induction false} SubmissionCounts(w: World, f: Filing)
    requires Counts(w, f) && w.review.decisions == [] && w.review.request.None?
    ensures Submitted(w, Submit(w, f), SomeDenies(f), Engine.Decisions(f.policies, f.intent, f.context), RequestFor(f.sub))
  {
    var decisions := Engine.Decisions(f.policies, f.intent, f.context);
    assert w.review.decisions + decisions == decisions;
    DeniedExactlyWhenSomeDenies(f);
    SubmissionLeaves(w, SomeDenies(f), decisions, RequestFor(f.sub));
  }

  /** The request that a submission opens. */
  function RequestFor(sub: Staging.Submission): Ledger.Request
    requires Staging.ParseSubmission(sub).Some?
  {
    Ledger.OpenRequest(Staging.NormalizeStages(Staging.ParseSubmission(sub).value))
  }

  predicate Counts(w: World, f: Filing) {
    w.status == Simulated && f.planAllows && Staging.ParseSubmission(f.sub).Some?
  }

  /**
   * A submission counts exactly when the intent is simulated, the plan allows it and the schema accepts
   * it. It then records every enabled policy's decision, and rejects the intent if one of them denies;
   * otherwise it opens a request with no decisions on the stages asked for.
   */
  lemma {:induction false} SubmissionOutcome(w: World, f: Filing)
    requires Sound(w)
    ensures !Counts(w, f) ==> Submit(w, f) == w
    ensures Counts(w, f) ==>
              && JustOpened(RequestFor(f.sub), f.sub)
              && Submitted(w, Submit(w, f), SomeDenies(f), Engine.Decisions(f.policies, f.intent, f.context), RequestFor(f.sub))
  {
    if Counts(w, f) {
      OpenedForTheSubmission(f.sub);
      NothingReviewedYet(w);
      SubmissionCounts(w, f);
    } else {
      SubmissionStops(w, f);
    }
  }

  lemma {:induction false} DecisionMoves(w: World, user: int, verdict: Ledger.Verdict, role: Option<Staging.Role>)
    requires w.review.request.Some? && w.status == PendingApproval
    ensures var t, s := Decide(w, user, verdict, role), Ledger.Decide(w.review.request.value, user, verdict, role);
            && t.review == w.review.(request := Some(s.request))
            && (match s.move
                case Stay => t.status == w.status && t.trail == w.trail
                case MoveToApproved => MovedTo(w, t, Approved)
                case MoveToRejected => MovedTo(w, t, Rejected))
            && (t.execution, t.rollback, t.receipts) == (w.execution, w.rollback, w.receipts)
  {
  }

  lemma {:induction false} DecisionStays(w: World, user: int, verdict: Ledger.Verdict, role: Option<Staging.Role>)
    requires w.review.request.Some?
    requires var s := Ledger.Decide(w.review.request.value, user, verdict, role);
             s.request == w.review.request.value && s.move == Ledger.Stay
    ensures Decide(w, user, verdict, role) == w
  {
  }

  /**
   * A decision moves the intent exactly when it is recorded and settles the request: a rejection
   * rejects it, and the approval that brings the count to the required one approves it.
   */
  lemma {:induction false} DecisionOutcome(w: World, user: int, verdict: Ledger.Verdict, role: Option<Staging.Role>)
    requires Sound(w)
    ensures var t := Decide(w, user, verdict, role);
            match w.review.request
            case None => t == w
            case Some(r) =>
              var s := Ledger.Decide(r, user, verdict, role);
              && t.review == w.review.(request := Some(s.request))
              && (if s.outcome != Ledger.Recorded then t == w
                  else if verdict == Ledger.Reject then MovedTo(w, t, Rejected)
                  else if r.currentCount + 1 == r.requiredCount then MovedTo(w, t, Approved)
                  else t.status == w.status && t.trail == w.trail)
              && (t.execution, t.rollback, t.receipts) == (w.execution, w.rollback, w.receipts)
  {
    if w.review.request.Some? {
      ReviewHasLedger(w.status, w.review);
      DecisionSettles(Ledger.Stages(w.review.request.value), w.review.request.value, user, verdict, role);
      if Ledger.Decide(w.review.request.value, user, verdict, role).outcome == Ledger.Recorded {
        DecisionMoves(w, user, verdict, role);
      } else {
        DecisionStays(w, user, verdict, role);
      }
    }
  }

  /** The request of an intent keeps its ledger, and is pending exactly while the intent waits for it. */
  lemma {:induction false} ReviewHasLedger(status: Status, v: Review)
    requires ReviewMatches(status, v) && v.request.Some?
    ensures Ledger.LedgerOn(Ledger.Stages(v.request.value), v.request.value)
    ensures v.request.value.status == Ledger.Pending <==> status == PendingApproval
  {
    assert Ledger.LedgerOn(Ledger.Stages(v.request.value), v.request.value);
  }

  lemma {:induction false} DecisionSettles(stages: seq<Staging.Stage>, r: Ledger.Request, user: int, verdict: Ledger.Verdict, role: Option<Staging.Role>)
    requires Ledger.LedgerOn(stages, r)
    ensures var s := Ledger.DecideOn(stages, r, user, verdict, role);
            && (s.outcome != Ledger.Recorded ==> s.request == r && s.move == Ledger.Stay)
            && (s.outcome == Ledger.Recorded ==>
                  && r.status == Ledger.Pending
                  && s.move == (if verdict == Ledger.Reject then Ledger.MoveToRejected
                                else if r.currentCount + 1 == r.requiredCount then Ledger.MoveToApproved
                                else Ledger.Stay))
  {
    var s := Ledger.DecideOn(stages, r, user, verdict, role);
    Ledger.RecordedExactlyWhen(stages, r, user, verdict, role);
    Ledger.DecideKeepsLedger(stages, r, user, verdict, role);
    Ledger.LedgerTotals(stages, r);
    Ledger.LedgerTotals(stages, s.request);
    if s.outcome == Ledger.Recorded {
      Ledger.CountsAfter(r.decisions, s.request.decisions[|r.decisions|], 0);
    }
  }

  /**
   * A request to execute counts exactly on an approved intent whose plan allows it. It then creates the
   * job and queues the intent; the message and the unit of usage follow only if the queue accepts.
   */
  lemma {:induction false} QueueOutcome(w: World, planAllows: bool, enqueued: bool)
    requires Sound(w)
    ensures var t := QueueExecution(w, planAllows, enqueued);
            if w.status == Approved && planAllows then
              && MovedTo(w, t, Queued)
              && t.execution == Execution(Some(Job(JobQueued, 0, None)), if enqueued then Some(0) else None, 0, None,
                                          if enqueued then w.execution.units + 1 else w.execution.units)
              && (t.review, t.rollback, t.receipts) == (w.review, w.rollback, w.receipts)
            else t == w
  {
  }

  /** The state a queued intent is in. */
  lemma {:induction false} NothingDeliveredYet(w: World)
    requires Sound(w) && w.status == Queued && w.execution.message.Some?
    ensures var e := w.execution;
            e.job.Some? && e.message == Some(0) && e.calls == 0 && e.returned.None? && w.receipts == []
  {
  }

  /**
   * The first delivery takes a queued intent to `Succeeded` with a completed job and a receipt when the
   * call returns, to `Failed` with a failed job when it throws, and leaves it `Executing` when there is
   * no connector.
   */
  lemma {:induction false} FirstDeliveryOutcome(w: World, reply: Reply)
    requires Sound(w) && w.status == Queued && w.execution.message.Some?
    ensures var t, e := DeliverExecution(w, reply), w.execution;
            && e.job.Some?
            && t.status == (match reply case Missing => Executing case Throws => Failed case Returns(_) => Succeeded)
            && t.execution.job == Some(match reply
                 case Missing => Job(JobProcessing, 1, e.job.value.result)
                 case Throws => Job(JobFailed, 1, e.job.value.result)
                 case Returns(data) => Job(JobCompleted, 1, Some(data)))
            && t.execution.calls == (if reply.Missing? then 0 else 1)
            && t.execution.message == (if reply.Returns? then None else Some(1))
            && t.execution.returned == (if reply.Returns? then Some(reply.data) else None)
            && t.receipts == (if reply.Returns? then [ExecutionReceipt(reply.data)] else [])
            && (t.review, t.rollback, t.execution.units) == (w.review, w.rollback, e.units)
  {
    NothingDeliveredYet(w);
  }

  /** Later deliveries call nothing and only mark the job. The queue makes three at most, and none of a message it refused. */
  lemma {:induction false} RedeliveryOutcome(w: World, reply: Reply)
    requires Sound(w) && (w.status != Queued || w.execution.message.None?)
    ensures var t, e := DeliverExecution(w, reply), w.execution;
            if e.message.None? then t == w
            else
              && e.job.Some? && t == w.(execution := t.execution)
              && t.execution == e.(job := Some(Job(JobProcessing, e.message.value + 1, e.job.value.result)),
                                   message := if e.message.value + 1 < 3 then Some(e.message.value + 1) else None)
  {
  }

  /**
   * A rollback request counts exactly on a succeeded intent, or one whose rollback failed, with a
   * connector that supports it. The attempt waits for its delivery, or has failed when the queue refused.
   */
  lemma {:induction false} RollbackRequestOutcome(w: World, supported: bool, enqueued: bool)
    requires Sound(w)
    ensures var t, n := RequestRollback(w, supported, enqueued), |w.rollback.attempts|;
            if (w.status == Succeeded || w.status == RollbackFailed) && supported then
              && t.status == (if enqueued then RollbackPending else RollbackFailed)
              && t.rollback == Rollback(w.rollback.attempts + [if enqueued then AttemptPending else AttemptFailed],
                                        if enqueued then map[n := 0] else map[], w.rollback.calls)
              && (t.review, t.execution, t.receipts) == (w.review, w.execution, w.receipts)
            else t == w
  {
    var n := |w.rollback.attempts|;
    if (w.status == Succeeded || w.status == RollbackFailed) && supported {
      assert w.rollback.messages == map[];
      assert w.rollback.messages[n := 0] == map[n := 0];
    }
  }

  /** A rollback delivery calls the connector once unless there is none, and leaves a receipt of what returned. */
  lemma {:induction false} RollbackDeliveryOutcome(w: World, a: nat, reply: Reply)
    requires Sound(w)
    ensures var t := DeliverRollback(w, a, reply);
            if a !in w.rollback.messages then t == w
            else
              && t.rollback.calls == w.rollback.calls + (if reply.Missing? then 0 else 1)
              && t.receipts == w.receipts + (if reply.Returns? then [RollbackReceipt(a, reply.data)] else [])
              && (t.review, t.execution) == (w.review, w.execution)
  {
  }
}
