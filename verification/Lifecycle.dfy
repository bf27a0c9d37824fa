/**
 * One intent's life as the services and the two queue workers drive it, each call and each
 * queue delivery being one step. The rows that belong to the intent are the parts of `World`.
 */
module Lifecycle {
  import opened Prelude
  import opened IntentStates
  import Engine = PolicyEngine
  import Staging = ApprovalStages
  import Ledger = ApprovalLedger

  // ----- Rows -----

  /** What a connector hands back; only an object can serve as context for a later rollback. */
  datatype Payload = Object(id: int) | Scalar(id: int)

  /** One audited status change. */
  datatype Change = Change(from: Status, to: Status)

  /** What was recorded on the way to the queue. */
  datatype Review = Review(simulations: nat, decisions: seq<Engine.Decision>, request: Option<Ledger.Request>)

  datatype Job = Job(status: JobStatus, attempts: nat, result: Option<Payload>)

  /**
   * The execution: its job row; the deliveries already made, while the queue still holds the job;
   * the calls made to the connector and what a call returned; the usage units charged.
   */
  datatype Execution = Execution(job: Option<Job>, message: Option<nat>, calls: nat, returned: Option<Payload>, units: nat)

  datatype AttemptStatus = AttemptPending | AttemptInProgress | AttemptCompleted | AttemptFailed

  /** The rollback attempts, and for each one still queued the deliveries already made. */
  datatype Rollback = Rollback(attempts: seq<AttemptStatus>, messages: map<nat, nat>, calls: nat)

  datatype Receipt = ExecutionReceipt(result: Payload) | RollbackReceipt(attempt: nat, result: Payload)

  datatype World = World(
    status: Status,
    trail: seq<Change>,
    review: Review,
    execution: Execution,
    rollback: Rollback,
    receipts: seq<Receipt>)

  const FRESH := World(Draft, [], Review(0, [], None), Execution(None, None, 0, None, 0), Rollback([], map[], 0), [])

  /** Deliveries a queue makes of one job before giving up. */
  const MAX_ATTEMPTS: nat := 3

  /** The environment's part in a delivery. */
  datatype Reply = Missing | Throws | Returns(data: Payload)

  // ----- Steps -----

  /** The guarded status write; an illegal one leaves the row as it is. */
  function Move(w: World, to: Status): World {
    if IsValidTransition(w.status, to) then w.(status := to, trail := w.trail + [Change(w.status, to)]) else w
  }

  function Propose(w: World): World {
    Move(w, Proposed)
  }

  /** `accepted`: the connector is registered, validates the action and produces a simulation. */
  function Simulate(w: World, accepted: bool): World {
    if w.status != Proposed || !accepted then w
    else Move(w.(review := w.review.(simulations := w.review.simulations + 1)), Simulated)
  }

  /** Everything a submission can depend on besides the intent's rows. */
  datatype Filing = Filing(sub: Staging.Submission, planAllows: bool, policies: seq<Engine.Policy>,
                           intent: Engine.Intent, context: Engine.Context)

  function Submit(w: World, f: Filing): World {
    var accepted := Staging.ParseSubmission(f.sub);
    if accepted.None? || !f.planAllows || w.status != Simulated then w
    else
      var decided := w.review.(decisions := w.review.decisions + Engine.Decisions(f.policies, f.intent, f.context));
      if Engine.Aggregate(f.policies, f.intent, f.context) == Engine.Deny then Move(w.(review := decided), Rejected)
      else if decided.request.Some? then w.(review := decided)
      else
        var stages := Staging.NormalizeStages(accepted.value);
        Move(w.(review := decided.(request := Some(Ledger.OpenRequest(stages)))), PendingApproval)
  }

  function Decide(w: World, user: int, verdict: Ledger.Verdict, role: Option<Staging.Role>): World {
    if w.review.request.None? then w
    else
      var step := Ledger.Decide(w.review.request.value, user, verdict, role);
      var written := w.(review := w.review.(request := Some(step.request)));
      match step.move
      case Stay => written
      case MoveToApproved => Move(written, Approved)
      case MoveToRejected => Move(written, Rejected)
  }

  /** `enqueued`: the queue accepts the message. */
  function QueueExecution(w: World, planAllows: bool, enqueued: bool): World {
    if w.status != Approved || w.execution.job.Some? || !planAllows then w
    else
      var created := w.execution.(job := Some(Job(JobQueued, 0, None)));
      Move(w.(execution := if enqueued then created.(message := Some(0), units := created.units + 1) else created), Queued)
  }

  /** The message after a delivery threw. */
  function Redeliver(made: nat): Option<nat> {
    if made + 1 < MAX_ATTEMPTS then Some(made + 1) else None
  }

  /** A queued delivery: the job row and the message are both there. */
  predicate Deliverable(e: Execution) {
    e.message.Some? && e.job.Some?
  }

  /** A delivery that threw without calling the connector: the job row was marked all the same. */
  function Marked(e: Execution): Execution
    requires Deliverable(e)
  {
    e.(job := Some(e.job.value.(status := JobProcessing, attempts := e.message.value + 1)), message := Redeliver(e.message.value))
  }

  /** A delivery whose call to the connector threw. */
  function CallThrew(e: Execution): Execution
    requires Deliverable(e)
  {
    Marked(e).(calls := e.calls + 1, job := Some(Marked(e).job.value.(status := JobFailed)))
  }

  /** A delivery whose call to the connector returned. */
  function CallReturned(e: Execution, data: Payload): Execution
    requires Deliverable(e)
  {
    Execution(Some(Marked(e).job.value.(status := JobCompleted, result := Some(data))), None, e.calls + 1, Some(data), e.units)
  }

  function DeliverExecution(w: World, reply: Reply): World {
    var e := w.execution;
    if !Deliverable(e) then w
    else if !IsValidTransition(w.status, Executing) then w.(execution := Marked(e))
    else
      match reply
      case Missing => Move(w.(execution := Marked(e)), Executing)
      case Throws => Move(Move(w.(execution := CallThrew(e)), Executing), Failed)
      case Returns(data) =>
        var receipts := w.receipts + [ExecutionReceipt(data)];
        Move(Move(w.(execution := CallReturned(e, data), receipts := receipts), Executing), Succeeded)
  }

  /** `supported`: the connector is not marked as unable to roll back. */
  function RequestRollback(w: World, supported: bool, enqueued: bool): World {
    if (w.status != Succeeded && w.status != RollbackFailed) || !supported then w
    else
      var r := w.rollback;
      if enqueued then
        Move(w.(rollback := r.(attempts := r.attempts + [AttemptPending], messages := r.messages[|r.attempts| := 0])), RollbackPending)
      else
        Move(Move(w.(rollback := r.(attempts := r.attempts + [AttemptFailed])), RollbackPending), RollbackFailed)
  }

  /** The queue's side of a delivery that threw: one more delivery, or none when they are used up. */
  function AfterThrow(messages: map<nat, nat>, a: nat, made: nat): map<nat, nat> {
    if made + 1 < MAX_ATTEMPTS then messages[a := made + 1] else messages - {a}
  }

  /** The catch branch of a rollback delivery: only the last permitted delivery settles the attempt. */
  function RollbackCaught(w: World, a: nat, made: nat): World
    requires a < |w.rollback.attempts|
  {
    var r := w.rollback.(messages := AfterThrow(w.rollback.messages, a, made));
    if made + 1 < MAX_ATTEMPTS then w.(rollback := r)
    else Move(w.(rollback := r.(attempts := r.attempts[a := AttemptFailed])), RollbackFailed)
  }

  function DeliverRollback(w: World, a: nat, reply: Reply): World {
    var r := w.rollback;
    if a !in r.messages || a >= |r.attempts| then w
    else
      var made := r.messages[a];
      var marked := r.(attempts := r.attempts[a := AttemptInProgress]);
      match reply
      case Missing => w.(rollback := marked.(messages := AfterThrow(r.messages, a, made)))
      case Throws => RollbackCaught(w.(rollback := marked.(calls := r.calls + 1)), a, made)
      case Returns(data) =>
        var done := r.(attempts := r.attempts[a := AttemptCompleted], calls := r.calls + 1);
        if !IsValidTransition(w.status, RolledBack) then RollbackCaught(w.(rollback := done), a, made)
        else
          Move(w.(rollback := done.(messages := r.messages - {a}), receipts := w.receipts + [RollbackReceipt(a, data)]), RolledBack)
  }

  datatype Action =
    | DoPropose
    | DoSimulate(accepted: bool)
    | DoSubmit(filing: Filing)
    | DoDecide(user: int, verdict: Ledger.Verdict, role: Option<Staging.Role>)
    | DoQueue(planAllows: bool, enqueued: bool)
    | DoDeliverExecution(reply: Reply)
    | DoRequestRollback(supported: bool, enqueued: bool)
    | DoDeliverRollback(attempt: nat, reply: Reply)

  function Apply(w: World, action: Action): World {
    match action
    case DoPropose => Propose(w)
    case DoSimulate(accepted) => Simulate(w, accepted)
    case DoSubmit(filing) => Submit(w, filing)
    case DoDecide(user, verdict, role) => Decide(w, user, verdict, role)
    case DoQueue(planAllows, enqueued) => QueueExecution(w, planAllows, enqueued)
    case DoDeliverExecution(reply) => DeliverExecution(w, reply)
    case DoRequestRollback(supported, enqueued) => RequestRollback(w, supported, enqueued)
    case DoDeliverRollback(a, reply) => DeliverRollback(w, a, reply)
  }

  function Run(w: World, actions: seq<Action>): World {
    if actions == [] then w else Apply(Run(w, actions[..|actions| - 1]), actions[|actions| - 1])
  }

  // ----- The invariant, part by part -----

  /** The changes chain from `Draft` to `s`, each a legal move and none a requeue of a failed execution. */
  predicate Replays(trail: seq<Change>, s: Status) {
    if trail == [] then s == Draft
    else
      var last := trail[|trail| - 1];
      && last.to == s
      && IsValidTransition(last.from, last.to)
      && !(last.from == Failed && last.to == Queued)
      && Replays(trail[..|trail| - 1], last.from)
  }

  function RollbacksIn(trail: seq<Change>): nat {
    if trail == [] then 0
    else RollbacksIn(trail[..|trail| - 1]) + (if trail[|trail| - 1].to == RollbackPending then 1 else 0)
  }

  predicate TrailMatches(trail: seq<Change>, status: Status, attempts: nat) {
    Replays(trail, status) && RollbacksIn(trail) == attempts
  }

  predicate NoDenial(decisions: seq<Engine.Decision>) {
    forall d :: d in decisions ==> d.verdict != Engine.Deny
  }

  ghost predicate ReviewMatches(status: Status, v: Review) {
    && v.simulations == (if status.Draft? || status.Proposed? then 0 else 1)
    && match v.request
       case None =>
         && (status.Draft? || status.Proposed? || status.Simulated? || status.Rejected?)
         && (status != Rejected ==> v.decisions == [])
         && (status == Rejected ==> !NoDenial(v.decisions))
       case Some(r) =>
         && Ledger.Ledger(r)
         && NoDenial(v.decisions)
         && match r.status
            case Pending => status == PendingApproval
            case Rejected => status == Rejected
            case Approved => Cleared(status)
  }

  /** The connector's call has come back, one way or the other. */
  predicate CalledBack(s: Status) {
    Started(s) && s != Executing
  }

  predicate ExecutionMatches(status: Status, e: Execution) {
    && (e.job.Some? <==> status == Queued || Started(status))
    && e.calls == (if CalledBack(status) then 1 else 0)
    && e.units <= (if e.job.Some? then 1 else 0)
    && (e.returned.Some? <==> CalledBack(status) && status != Failed)
    && (e.returned.Some? ==> e.job.value.status == JobCompleted && e.job.value.result == e.returned)
    && (e.message.Some? ==>
          && e.message.value < MAX_ATTEMPTS
          && (status.Queued? || status.Executing? || status.Failed?)
          && (status == Queued <==> e.message.value == 0))
  }

  predicate ReceiptsMatch(status: Status, returned: Option<Payload>, receipts: seq<Receipt>, attempts: nat) {
    if returned.None? then receipts == []
    else if status != RolledBack then receipts == [ExecutionReceipt(returned.value)]
    else
      && |receipts| == 2
      && receipts[0] == ExecutionReceipt(returned.value)
      && receipts[1].RollbackReceipt? && receipts[1].attempt == attempts - 1
  }

  predicate Live(s: AttemptStatus) {
    s.AttemptPending? || s.AttemptInProgress?
  }

  predicate AllFailed(attempts: seq<AttemptStatus>) {
    forall i :: 0 <= i < |attempts| ==> attempts[i] == AttemptFailed
  }

  /** All attempts but the last have failed, and the last one says where the intent stands. */
  predicate AttemptsMatch(status: Status, r: Rollback) {
    if r.attempts == [] then
      r.messages == map[] && !status.RollbackPending? && !status.RolledBack? && !status.RollbackFailed?
    else
      var last := |r.attempts| - 1;
      && AllFailed(r.attempts[..last])
      && (status == RollbackPending <==> Live(r.attempts[last]))
      && (status == RolledBack <==> r.attempts[last] == AttemptCompleted)
      && (status == RollbackFailed <==> r.attempts[last] == AttemptFailed)
      && (r.messages == map[] || (status == RollbackPending && exists k: nat :: k < MAX_ATTEMPTS && r.messages == map[last := k]))
      && (r.attempts[last] == AttemptPending ==> r.messages != map[])
  }

  /** Everything that holds of an intent between steps. */
  ghost predicate Sound(w: World) {
    && TrailMatches(w.trail, w.status, |w.rollback.attempts|)
    && ReviewMatches(w.status, w.review)
    && ExecutionMatches(w.status, w.execution)
    && ReceiptsMatch(w.status, w.execution.returned, w.receipts, |w.rollback.attempts|)
    && AttemptsMatch(w.status, w.rollback)
  }

  // ----- Every step keeps it -----

  lemma {:induction false} MoveReplays(trail: seq<Change>, from: Status, to: Status)
    requires Replays(trail, from) && IsValidTransition(from, to)
    requires !(from == Failed && to == Queued)
    ensures Replays(trail + [Change(from, to)], to)
    ensures RollbacksIn(trail + [Change(from, to)]) == RollbacksIn(trail) + (if to == RollbackPending then 1 else 0)
  {
    assert (trail + [Change(from, to)])[..|trail|] == trail;
  }

  lemma {:induction false} DecisionsReportDenial(f: Filing)
    ensures NoDenial(Engine.Decisions(f.policies, f.intent, f.context))
            <==> Engine.Aggregate(f.policies, f.intent, f.context) != Engine.Deny
  {
    var ds := Engine.Decisions(f.policies, f.intent, f.context);
    if !NoDenial(ds) {
      var i :| 0 <= i < |ds| && ds[i].verdict == Engine.Deny;
      var p := Engine.DecisionHasPolicy(f.policies, f.intent, f.context, i);
    }
    if Engine.Aggregate(f.policies, f.intent, f.context) == Engine.Deny {
      var p :| p in f.policies && p.enabled && Engine.EvaluatePolicy(p, f.intent, f.context).verdict == Engine.Deny;
      var i := Engine.PolicyIsDecided(f.policies, f.intent, f.context, p);
      assert ds[i] in ds;
    }
  }

  /** Before the queue only the review changes, so a move there keeps the other parts. */
  lemma {:induction false} EarlyMove(w: World, review: Review, to: Status)
    requires Sound(w) && IsValidTransition(w.status, to) && ReviewMatches(to, review)
    requires !Started(w.status) && !Started(to) && w.status != Queued && to != Queued
    ensures Sound(Move(w.(review := review), to))
  {
    MoveReplays(w.trail, w.status, to);
  }

  lemma {:induction false} SimulateKeepsSound(w: World, accepted: bool)
    requires Sound(w)
    ensures Sound(Simulate(w, accepted))
  {
    if w.status == Proposed && accepted {
      EarlyMove(w, w.review.(simulations := w.review.simulations + 1), Simulated);
    }
  }

  lemma {:induction false} OpenedIsRecorded(v: Review, sub: Staging.Submission)
    requires v.simulations == 1 && NoDenial(v.decisions) && Staging.ParseSubmission(sub).Some?
    ensures var stages := Staging.NormalizeStages(Staging.ParseSubmission(sub).value);
            ReviewMatches(PendingApproval, v.(request := Some(Ledger.OpenRequest(stages))))
  {
    Ledger.NewRequestHasLedger(sub);
  }

  lemma {:induction false} FilingRecorded(v: Review, f: Filing)
    requires ReviewMatches(Simulated, v) && Staging.ParseSubmission(f.sub).Some?
    ensures var decided := v.(decisions := v.decisions + Engine.Decisions(f.policies, f.intent, f.context));
            var stages := Staging.NormalizeStages(Staging.ParseSubmission(f.sub).value);
            if Engine.Aggregate(f.policies, f.intent, f.context) == Engine.Deny then ReviewMatches(Rejected, decided)
            else v.request.None? && ReviewMatches(PendingApproval, decided.(request := Some(Ledger.OpenRequest(stages))))
  {
    var ds := Engine.Decisions(f.policies, f.intent, f.context);
    DecisionsReportDenial(f);
    assert v.decisions + ds == ds;
    if NoDenial(ds) {
      OpenedIsRecorded(v.(decisions := ds), f.sub);
    }
  }

  lemma {:induction false} SubmitKeepsSound(w: World, f: Filing)
    requires Sound(w)
    ensures Sound(Submit(w, f))
  {
    var accepted := Staging.ParseSubmission(f.sub);
    if accepted.Some? && f.planAllows && w.status == Simulated {
      FilingRecorded(w.review, f);
      var decided := w.review.(decisions := w.review.decisions + Engine.Decisions(f.policies, f.intent, f.context));
      if Engine.Aggregate(f.policies, f.intent, f.context) == Engine.Deny {
        EarlyMove(w, decided, Rejected);
      } else {
        EarlyMove(w, decided.(request := Some(Ledger.OpenRequest(Staging.NormalizeStages(accepted.value)))), PendingApproval);
      }
    }
  }

  lemma {:induction false} DecisionRecorded(status: Status, v: Review, user: int, verdict: Ledger.Verdict, role: Option<Staging.Role>)
    requires ReviewMatches(status, v) && v.request.Some?
    ensures var step := Ledger.Decide(v.request.value, user, verdict, role);
            var after := v.(request := Some(step.request));
            match step.move
            case Stay => ReviewMatches(status, after)
            case MoveToApproved => status == PendingApproval && ReviewMatches(Approved, after)
            case MoveToRejected => status == PendingApproval && ReviewMatches(Rejected, after)
  {
    var r := v.request.value;
    assert Ledger.LedgerOn(Ledger.Stages(r), r);
    Ledger.DecideKeepsLedger(Ledger.Stages(r), r, user, verdict, role);
  }

  lemma {:induction false} DecideKeepsSound(w: World, user: int, verdict: Ledger.Verdict, role: Option<Staging.Role>)
    requires Sound(w)
    ensures Sound(Decide(w, user, verdict, role))
  {
    if w.review.request.Some? {
      DecisionRecorded(w.status, w.review, user, verdict, role);
      var step := Ledger.Decide(w.review.request.value, user, verdict, role);
      var after := w.review.(request := Some(step.request));
      match step.move
      case Stay =>
      case MoveToApproved => EarlyMove(w, after, Approved);
      case MoveToRejected => EarlyMove(w, after, Rejected);
    }
  }

  lemma {:induction false} QueueKeepsSound(w: World, planAllows: bool, enqueued: bool)
    requires Sound(w)
    ensures Sound(QueueExecution(w, planAllows, enqueued))
  {
    if w.status == Approved && planAllows {
      MoveReplays(w.trail, w.status, Queued);
      ClearedKeepsReview(Approved, Queued, w.review);
    }
  }

  /** Once the intent is cleared its review stays as it is whatever the connector does. */
  lemma {:induction false} ClearedKeepsReview(from: Status, to: Status, v: Review)
    requires ReviewMatches(from, v) && Cleared(from) && Cleared(to)
    ensures ReviewMatches(to, v)
  {
  }

  lemma {:induction false} ConnectorAnswered(w: World, e: Execution, receipts: seq<Receipt>, to: Status)
    requires Sound(w) && w.status == Queued
    requires to == Succeeded || to == Failed
    requires ExecutionMatches(to, e) && ReceiptsMatch(to, e.returned, receipts, 0)
    ensures Sound(Move(Move(w.(execution := e, receipts := receipts), Executing), to))
  {
    MoveReplays(w.trail, Queued, Executing);
    MoveReplays(w.trail + [Change(Queued, Executing)], Executing, to);
    ClearedKeepsReview(Queued, to, w.review);
  }

  lemma {:induction false} DeliveryRecorded(status: Status, e: Execution)
    requires ExecutionMatches(status, e) && Deliverable(e)
    ensures if status != Queued then ExecutionMatches(status, Marked(e)) && !IsValidTransition(status, Executing)
            else && ExecutionMatches(Executing, Marked(e)) && Marked(e).returned == None
                 && ExecutionMatches(Failed, CallThrew(e)) && CallThrew(e).returned == None
                 && forall data :: ExecutionMatches(Succeeded, CallReturned(e, data))
    ensures Marked(e).returned == e.returned
  {
  }

  lemma {:induction false} DeliverExecutionKeepsSound(w: World, reply: Reply)
    requires Sound(w)
    ensures Sound(DeliverExecution(w, reply))
  {
    if Deliverable(w.execution) {
      DeliveryRecorded(w.status, w.execution);
      if w.status == Queued {
        match reply
        case Missing =>
          MoveReplays(w.trail, Queued, Executing);
          ClearedKeepsReview(Queued, Executing, w.review);
        case Throws => ConnectorAnswered(w, CallThrew(w.execution), w.receipts, Failed);
        case Returns(data) =>
          ConnectorAnswered(w, CallReturned(w.execution, data), w.receipts + [ExecutionReceipt(data)], Succeeded);
      }
    }
  }

  lemma {:induction false} AttemptAsked(status: Status, r: Rollback)
    requires AttemptsMatch(status, r) && (status == Succeeded || status == RollbackFailed)
    ensures AttemptsMatch(RollbackPending, r.(attempts := r.attempts + [AttemptPending], messages := r.messages[|r.attempts| := 0]))
    ensures AttemptsMatch(RollbackFailed, r.(attempts := r.attempts + [AttemptFailed]))
  {
    var n := |r.attempts|;
    assert r.messages == map[];
    assert r.messages[n := 0] == map[n := 0];
    assert n in map[n := 0];
    assert (r.attempts + [AttemptPending])[..n] == r.attempts == (r.attempts + [AttemptFailed])[..n];
    assert n > 0 ==> r.attempts == r.attempts[..n - 1] + [AttemptFailed];
  }

  /** An execution that has succeeded stays recorded through every later rollback state. */
  lemma {:induction false} SuccessIsKept(w: World, rollback: Rollback, to: Status)
    requires Sound(w) && IsValidTransition(w.status, to)
    requires CalledBack(w.status) && w.status != Failed && CalledBack(to)
    requires to != RolledBack
    requires |rollback.attempts| == |w.rollback.attempts| + (if to == RollbackPending then 1 else 0)
    requires AttemptsMatch(to, rollback)
    ensures Sound(Move(w.(rollback := rollback), to))
  {
    MoveReplays(w.trail, w.status, to);
    ClearedKeepsReview(w.status, to, w.review);
  }

  lemma {:induction false} NeverEnqueued(w: World, rollback: Rollback)
    requires Sound(w) && (w.status == Succeeded || w.status == RollbackFailed)
    requires |rollback.attempts| == |w.rollback.attempts| + 1
    requires AttemptsMatch(RollbackFailed, rollback)
    ensures Sound(Move(Move(w.(rollback := rollback), RollbackPending), RollbackFailed))
  {
    MoveReplays(w.trail, w.status, RollbackPending);
    MoveReplays(w.trail + [Change(w.status, RollbackPending)], RollbackPending, RollbackFailed);
    ClearedKeepsReview(w.status, RollbackFailed, w.review);
  }

  lemma {:induction false} RequestRollbackKeepsSound(w: World, supported: bool, enqueued: bool)
    requires Sound(w)
    ensures Sound(RequestRollback(w, supported, enqueued))
  {
    if (w.status == Succeeded || w.status == RollbackFailed) && supported {
      var r := w.rollback;
      AttemptAsked(w.status, r);
      if enqueued {
        SuccessIsKept(w, r.(attempts := r.attempts + [AttemptPending], messages := r.messages[|r.attempts| := 0]), RollbackPending);
      } else {
        NeverEnqueued(w, r.(attempts := r.attempts + [AttemptFailed]));
      }
    }
  }

  lemma {:induction false} AttemptDelivered(r: Rollback, a: nat, calls: nat)
    requires AttemptsMatch(RollbackPending, r) && a in r.messages
    ensures a == |r.attempts| - 1 && r.messages == map[a := r.messages[a]] && r.messages[a] < MAX_ATTEMPTS
    ensures var messages := AfterThrow(r.messages, a, r.messages[a]);
            && AttemptsMatch(RollbackPending, Rollback(r.attempts[a := AttemptInProgress], messages, calls))
            && (messages == map[] <==> r.messages[a] + 1 == MAX_ATTEMPTS)
    ensures r.messages - {a} == map[]
    ensures AttemptsMatch(RollbackFailed, Rollback(r.attempts[a := AttemptInProgress][a := AttemptFailed], map[], calls))
    ensures AttemptsMatch(RolledBack, Rollback(r.attempts[a := AttemptCompleted], map[], calls))
  {
    var k: nat :| k < MAX_ATTEMPTS && r.messages == map[|r.attempts| - 1 := k];
    assert r.messages[a := k + 1] == map[a := k + 1];
    assert r.messages - {a} == map[];
    assert r.attempts[a := AttemptInProgress][..a] == r.attempts[..a];
    assert r.attempts[a := AttemptInProgress][a := AttemptFailed][..a] == r.attempts[..a];
    assert r.attempts[a := AttemptCompleted][..a] == r.attempts[..a];
  }

  lemma {:induction false} DeliverRollbackKeepsSound(w: World, a: nat, reply: Reply)
    requires Sound(w)
    ensures Sound(DeliverRollback(w, a, reply))
  {
    var r := w.rollback;
    if a in r.messages {
      assert w.status == RollbackPending;
      var messages := AfterThrow(r.messages, a, r.messages[a]);
      match reply
      case Missing =>
        AttemptDelivered(r, a, r.calls);
        AttemptRetried(w, Rollback(r.attempts[a := AttemptInProgress], messages, r.calls));
      case Throws =>
        AttemptDelivered(r, a, r.calls + 1);
        if r.messages[a] + 1 == MAX_ATTEMPTS {
          SuccessIsKept(w, Rollback(r.attempts[a := AttemptInProgress][a := AttemptFailed], map[], r.calls + 1), RollbackFailed);
        } else {
          AttemptRetried(w, Rollback(r.attempts[a := AttemptInProgress], messages, r.calls + 1));
        }
      case Returns(data) =>
        AttemptDelivered(r, a, r.calls + 1);
        AttemptDone(w, a, data);
    }
  }

  lemma {:induction false} AttemptRetried(w: World, rollback: Rollback)
    requires Sound(w) && AttemptsMatch(w.status, rollback) && |rollback.attempts| == |w.rollback.attempts|
    ensures Sound(w.(rollback := rollback))
  {
  }

  lemma {:induction false} AttemptDone(w: World, a: nat, data: Payload)
    requires Sound(w) && w.status == RollbackPending && a + 1 == |w.rollback.attempts|
    requires AttemptsMatch(RolledBack, Rollback(w.rollback.attempts[a := AttemptCompleted], map[], w.rollback.calls + 1))
    ensures Sound(Move(w.(rollback := Rollback(w.rollback.attempts[a := AttemptCompleted], map[], w.rollback.calls + 1),
                          receipts := w.receipts + [RollbackReceipt(a, data)]), RolledBack))
  {
    MoveReplays(w.trail, RollbackPending, RolledBack);
    ClearedKeepsReview(RollbackPending, RolledBack, w.review);
  }

  lemma {:induction false} ApplyKeepsSound(w: World, action: Action)
    requires Sound(w)
    ensures Sound(Apply(w, action))
  {
    match action
    case DoPropose =>
      if w.status == Draft {
        EarlyMove(w, w.review, Proposed);
      }
    case DoSimulate(accepted) => SimulateKeepsSound(w, accepted);
    case DoSubmit(filing) => SubmitKeepsSound(w, filing);
    case DoDecide(user, verdict, role) => DecideKeepsSound(w, user, verdict, role);
    case DoQueue(planAllows, enqueued) => QueueKeepsSound(w, planAllows, enqueued);
    case DoDeliverExecution(reply) => DeliverExecutionKeepsSound(w, reply);
    case DoRequestRollback(supported, enqueued) => RequestRollbackKeepsSound(w, supported, enqueued);
    case DoDeliverRollback(a, reply) => DeliverRollbackKeepsSound(w, a, reply);
  }

  lemma {:induction false} RunKeepsSound(w: World, actions: seq<Action>)
    requires Sound(w)
    ensures Sound(Run(w, actions))
  {
    if actions != [] {
      RunKeepsSound(w, actions[..|actions| - 1]);
      ApplyKeepsSound(Run(w, actions[..|actions| - 1]), actions[|actions| - 1]);
    }
  }

  lemma {:induction false} FreshIsSound()
    ensures Sound(FRESH)
  {
  }
}
