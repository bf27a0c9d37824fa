/**
 * The two granularities of the protocol agree: a service call or a delivery whose single reads and
 * writes run with nothing in between leaves the rows as the one step of `Lifecycle` does, and so
 * every life made of whole calls is a run of the interleaved protocol.
 */
module WholeCalls {
  import opened Prelude
  import opened IntentStates
  import opened Interleaving
  import opened Walks
  import Staging = ApprovalStages
  import Engine = PolicyEngine
  import Ledger = ApprovalLedger
  import Whole = Lifecycle
  import Outcomes

  // ----- What the two have in common -----

  ghost predicate ShowsRequest(request: Option<Ledger.Request>, s: State) {
    match request
    case None => s.row.None? && s.decisions == []
    case Some(r) =>
      && s.row == Some(Row(r.status, r.currentCount, r.currentStageIndex))
      && s.stages == Ledger.Stages(r) && s.decisions == r.decisions
  }

  /** The rows are the same as far as both granularities have them. */
  ghost predicate Shows(w: Whole.World, s: State) {
    && s.status == w.status
    && s.simulations == w.review.simulations
    && (s.denied <==> !Whole.NoDenial(w.review.decisions))
    && ShowsRequest(w.review.request, s)
    && (match w.execution.job case None => s.job.None? case Some(job) => s.job == Some(job.status))
    && s.calls == w.execution.calls
    && (w.execution.message.Some? ==> s.enqueued)
  }

  // ----- Running alone -----

  /** A process begins and makes `n` steps with nothing in between; `flag` is what the environment decides for it. */
  function Alone(s: State, first: Action, flag: bool, n: nat): seq<Action> {
    [first] + seq(n, k requires 0 <= k < n => Act(|s.procs|, flag))
  }

  /** Names a run so that it is followed step by step; a run that is not named stays one whole. */
  predicate Followed(more: seq<Action>) {
    true
  }

  /** A process that has begun with `first` and made `n` steps alone leaves the state `t`. */
  ghost predicate After(s: State, first: Action, flag: bool, n: nat, t: State) {
    WellFormed(s) && forall more {:trigger Followed(more)} :: Followed(more) && more == Alone(s, first, flag, n) ==> Run(s, more) == t
  }

  lemma {:induction false} AfterIsRun(s: State, first: Action, flag: bool, n: nat, t: State)
    requires After(s, first, flag, n, t)
    ensures Run(s, Alone(s, first, flag, n)) == t
  {
    assert Followed(Alone(s, first, flag, n));
  }

  lemma {:induction false} Starts(s: State, first: Action, flag: bool, t: State)
    requires WellFormed(s) && Step(s, first) == t
    ensures After(s, first, flag, 0, t)
  {
    assert Alone(s, first, flag, 0) == [] + [first];
    RunOneMore(s, [], first);
  }

  lemma {:induction false} GoesOn(s: State, first: Action, flag: bool, n: nat, u: State, t: State)
    requires After(s, first, flag, n, u) && WellFormed(u) && Step(u, Act(|s.procs|, flag)) == t
    ensures After(s, first, flag, n + 1, t)
  {
    var more := Alone(s, first, flag, n);
    assert Followed(more);
    assert Alone(s, first, flag, n + 1) == more + [Act(|s.procs|, flag)];
    RunOneMore(s, more, Act(|s.procs|, flag));
  }

  /** One step of the process that has just joined: it takes another place in its program, and rows change. */
  predicate Makes(u: State, p: Proc, v: State, q: Proc, after: State) {
    u.procs == v.procs && after == With(Joined(v, p), |u.procs|, q)
  }

  lemma {:induction false} MakesJoined(u: State, p: Proc, v: State, q: Proc, after: State)
    requires Makes(u, p, v, q, after)
    ensures after == Joined(v, q)
  {
  }

  lemma {:induction false} DeliveryGoesOn(s: State, flag: bool, n: nat, u: State, at: DeliveryAt, v: State, next: DeliveryAt)
    requires After(s, SpawnDelivery, flag, n, Joined(u, Delivery(at))) && u.procs == s.procs && WellFormed(u)
    requires Makes(u, Delivery(at), v, Delivery(next), DeliveryStep(Joined(u, Delivery(at)), |u.procs|, at, flag))
    ensures After(s, SpawnDelivery, flag, n + 1, Joined(v, Delivery(next)))
  {
    MakesJoined(u, Delivery(at), v, Delivery(next), DeliveryStep(Joined(u, Delivery(at)), |u.procs|, at, flag));
    GoesOn(s, SpawnDelivery, flag, n, Joined(u, Delivery(at)), Joined(v, Delivery(next)));
  }

  lemma {:induction false} DeliveryIsDone(s: State, flag: bool, n: nat, more: nat, u: State)
    requires After(s, SpawnDelivery, flag, n, Joined(u, Delivery(DDone))) && u.procs == s.procs && WellFormed(u)
    ensures After(s, SpawnDelivery, flag, n + more, Joined(u, Delivery(DDone)))
  {
    if more > 0 {
      DeliveryIsDone(s, flag, n, more - 1, u);
      assert With(Joined(u, Delivery(DDone)), |u.procs|, Delivery(DDone)) == Joined(u, Delivery(DDone));
      DeliveryGoesOn(s, flag, n + more - 1, u, DDone, u, DDone);
    }
  }

  lemma {:induction false} DeliveryMarks(s: State, flag: bool)
    requires WellFormed(s) && s.enqueued
    ensures After(s, SpawnDelivery, flag, 1, Joined(s.(job := Some(JobProcessing)), Delivery(DMarked)))
  {
    Starts(s, SpawnDelivery, flag, Joined(s, Delivery(DStart)));
    DeliveryGoesOn(s, flag, 0, s, DStart, s.(job := Some(JobProcessing)), DMarked);
  }

  /** A delivery of a queued intent up to the connector's call. */
  lemma {:induction false} DeliveryClaims(s: State, flag: bool)
    requires WellFormed(s) && s.enqueued && s.status == Queued
    ensures After(s, SpawnDelivery, flag, 3, Joined(s.(status := Executing, job := Some(JobProcessing)), Delivery(DReady)))
  {
    var marked := s.(job := Some(JobProcessing));
    DeliveryMarks(s, flag);
    DeliveryGoesOn(s, flag, 1, marked, DMarked, marked, DWriting);
    DeliveryGoesOn(s, flag, 2, marked, DWriting, marked.(status := Executing), DReady);
  }

  /** A delivery up to the write of the job row. */
  lemma {:induction false} DeliveryReturns(s: State, flag: bool)
    requires WellFormed(s) && s.enqueued && s.status == Queued
    ensures After(s, SpawnDelivery, flag, 5,
                  Joined(s.(status := Executing, job := Some(if flag then JobCompleted else JobFailed), calls := s.calls + 1),
                         Delivery(DSettling(if flag then Succeeded else Failed))))
  {
    var claimed := s.(status := Executing, job := Some(JobProcessing));
    var called := claimed.(calls := s.calls + 1);
    DeliveryClaims(s, flag);
    DeliveryGoesOn(s, flag, 3, claimed, DReady, called, DReturned(flag));
    DeliveryGoesOn(s, flag, 4, called, DReturned(flag), called.(job := Some(if flag then JobCompleted else JobFailed)),
                   DSettling(if flag then Succeeded else Failed));
  }

  lemma {:induction false} DeliveryWrites(s: State, flag: bool, u: State, target: Status)
    requires After(s, SpawnDelivery, flag, 5, Joined(u, Delivery(DSettling(target)))) && u.procs == s.procs && WellFormed(u)
    requires IsValidTransition(u.status, target)
    ensures After(s, SpawnDelivery, flag, 7, Joined(u.(status := target), Delivery(DDone)))
  {
    DeliveryGoesOn(s, flag, 5, u, DSettling(target), u, DSettleWriting(target));
    DeliveryGoesOn(s, flag, 6, u, DSettleWriting(target), u.(status := target), DDone);
  }

  /** A call that returns completes the job and the intent succeeds; one that throws fails both. */
  lemma {:induction false} DeliverySettles(s: State, flag: bool)
    requires WellFormed(s) && s.enqueued && s.status == Queued
    ensures After(s, SpawnDelivery, flag, 7,
                  Joined(s.(status := if flag then Succeeded else Failed, job := Some(if flag then JobCompleted else JobFailed),
                            calls := s.calls + 1), Delivery(DDone)))
  {
    DeliveryReturns(s, flag);
    if flag {
      DeliveryWrites(s, flag, s.(status := Executing, job := Some(JobCompleted), calls := s.calls + 1), Succeeded);
    } else {
      DeliveryWrites(s, flag, s.(status := Executing, job := Some(JobFailed), calls := s.calls + 1), Failed);
    }
  }

  /** A delivery that does not find the intent queued marks the job and stops. */
  lemma {:induction false} DeliveryStops(s: State, flag: bool, n: nat)
    requires WellFormed(s) && s.enqueued && s.status != Queued && n >= 2
    ensures After(s, SpawnDelivery, flag, n, Joined(s.(job := Some(JobProcessing)), Delivery(DDone)))
  {
    var marked := s.(job := Some(JobProcessing));
    DeliveryMarks(s, flag);
    DeliveryGoesOn(s, flag, 1, marked, DMarked, marked, DDone);
    DeliveryIsDone(s, flag, 2, n - 2, marked);
  }

  lemma {:induction false} StoppedShows(w: Whole.World, s: State, reply: Whole.Reply, p: Proc)
    requires Whole.Sound(w) && Shows(w, s) && w.execution.message.Some? && s.status != Queued
    ensures Shows(Whole.DeliverExecution(w, reply), Joined(s.(job := Some(JobProcessing)), p))
  {
  }

  lemma {:induction false} ClaimedShows(w: Whole.World, s: State, p: Proc)
    requires Whole.Sound(w) && Shows(w, s) && w.execution.message.Some? && s.status == Queued
    ensures Shows(Whole.DeliverExecution(w, Whole.Missing), Joined(s.(status := Executing, job := Some(JobProcessing)), p))
  {
  }

  lemma {:induction false} SettledShows(w: Whole.World, s: State, reply: Whole.Reply, p: Proc)
    requires Whole.Sound(w) && Shows(w, s) && w.execution.message.Some? && s.status == Queued && !reply.Missing?
    ensures Shows(Whole.DeliverExecution(w, reply),
                  Joined(s.(status := if reply.Returns? then Succeeded else Failed,
                            job := Some(if reply.Returns? then JobCompleted else JobFailed), calls := s.calls + 1), p))
  {
  }

  lemma {:induction false} DeliveryIsItsStep(w: Whole.World, s: State, reply: Whole.Reply)
    requires Whole.Sound(w) && Shows(w, s) && WellFormed(s) && w.execution.message.Some?
    ensures Shows(Whole.DeliverExecution(w, reply), Run(s, Alone(s, SpawnDelivery, reply.Returns?, if reply.Missing? then 3 else 7)))
  {
    if s.status != Queued {
      DeliveryStops(s, reply.Returns?, if reply.Missing? then 3 else 7);
      AfterIsRun(s, SpawnDelivery, reply.Returns?, if reply.Missing? then 3 else 7, Joined(s.(job := Some(JobProcessing)), Delivery(DDone)));
      StoppedShows(w, s, reply, Delivery(DDone));
    } else if reply.Missing? {
      DeliveryClaims(s, false);
      AfterIsRun(s, SpawnDelivery, false, 3, Joined(s.(status := Executing, job := Some(JobProcessing)), Delivery(DReady)));
      ClaimedShows(w, s, Delivery(DReady));
    } else {
      DeliverySettles(s, reply.Returns?);
      AfterIsRun(s, SpawnDelivery, reply.Returns?, 7,
                 Joined(s.(status := if reply.Returns? then Succeeded else Failed,
                           job := Some(if reply.Returns? then JobCompleted else JobFailed), calls := s.calls + 1), Delivery(DDone)));
      SettledShows(w, s, reply, Delivery(DDone));
    }
  }

  // ----- Reviews -----

  lemma {:induction false} ReviewerGoesOn(
    s: State, user: int, verdict: Ledger.Verdict, flag: bool, n: nat, u: State, at: ReviewerAt, v: State, next: ReviewerAt)
    requires After(s, SpawnReviewer(user, verdict), flag, n, Joined(u, Reviewer(user, verdict, at))) && u.procs == s.procs
    requires WellFormed(u)
    requires Makes(u, Reviewer(user, verdict, at), v, Reviewer(user, verdict, next),
                   ReviewerStep(Joined(u, Reviewer(user, verdict, at)), |u.procs|, user, verdict, at, flag))
    ensures After(s, SpawnReviewer(user, verdict), flag, n + 1, Joined(v, Reviewer(user, verdict, next)))
  {
    MakesJoined(u, Reviewer(user, verdict, at), v, Reviewer(user, verdict, next),
                ReviewerStep(Joined(u, Reviewer(user, verdict, at)), |u.procs|, user, verdict, at, flag));
    GoesOn(s, SpawnReviewer(user, verdict), flag, n, Joined(u, Reviewer(user, verdict, at)), Joined(v, Reviewer(user, verdict, next)));
  }

  lemma {:induction false} ReviewerIsDone(s: State, user: int, verdict: Ledger.Verdict, flag: bool, n: nat, more: nat, u: State)
    requires After(s, SpawnReviewer(user, verdict), flag, n, Joined(u, Reviewer(user, verdict, RDone))) && u.procs == s.procs
    requires WellFormed(u)
    ensures After(s, SpawnReviewer(user, verdict), flag, n + more, Joined(u, Reviewer(user, verdict, RDone)))
  {
    if more > 0 {
      ReviewerIsDone(s, user, verdict, flag, n, more - 1, u);
      assert With(Joined(u, Reviewer(user, verdict, RDone)), |u.procs|, Reviewer(user, verdict, RDone)) == Joined(u, Reviewer(user, verdict, RDone));
      ReviewerGoesOn(s, user, verdict, flag, n + more - 1, u, RDone, u, RDone);
    }
  }

  /** A request that is refused reads, and writes nothing. */
  lemma {:induction false} RefusedReview(s: State, user: int, verdict: Ledger.Verdict, flag: bool)
    requires WellFormed(s)
    requires s.row.None? || s.row.value.status != Ledger.Pending || Ledger.HasDecided(s.decisions, user) || !flag
    ensures After(s, SpawnReviewer(user, verdict), flag, 6, Joined(s, Reviewer(user, verdict, RDone)))
  {
    Starts(s, SpawnReviewer(user, verdict), flag, Joined(s, Reviewer(user, verdict, RStart)));
    if s.row.None? || s.row.value.status != Ledger.Pending {
      ReviewerGoesOn(s, user, verdict, flag, 0, s, RStart, s, RDone);
      ReviewerIsDone(s, user, verdict, flag, 1, 5, s);
    } else {
      ReviewerGoesOn(s, user, verdict, flag, 0, s, RStart, s, RSeen(SeenBy(s)));
      ReviewerGoesOn(s, user, verdict, flag, 1, s, RSeen(SeenBy(s)), s, RDone);
      ReviewerIsDone(s, user, verdict, flag, 2, 4, s);
    }
  }

  /** A request that is let through inserts its decision at the stage it has read. */
  lemma {:induction false} ReviewIsRecorded(s: State, user: int, verdict: Ledger.Verdict)
    requires WellFormed(s) && s.row.Some? && s.row.value.status == Ledger.Pending && !Ledger.HasDecided(s.decisions, user)
    ensures var k := SeenBy(s).stageIndex;
            After(s, SpawnReviewer(user, verdict), true, 3,
                  Joined(s.(decisions := s.decisions + [Ledger.Decision(user, verdict, Some(k), s.stages[k].name)]),
                         Reviewer(user, verdict, RRecorded(SeenBy(s)))))
  {
    var snap := SeenBy(s);
    Starts(s, SpawnReviewer(user, verdict), true, Joined(s, Reviewer(user, verdict, RStart)));
    ReviewerGoesOn(s, user, verdict, true, 0, s, RStart, s, RSeen(snap));
    ReviewerGoesOn(s, user, verdict, true, 1, s, RSeen(snap), s, RCleared(snap));
    ReviewerGoesOn(s, user, verdict, true, 2, s, RCleared(snap),
                   s.(decisions := s.decisions + [Ledger.Decision(user, verdict, Some(snap.stageIndex), s.stages[snap.stageIndex].name)]),
                   RRecorded(snap));
  }

  /** The row after the decision, and where the request goes on. */
  lemma {:induction false} ReviewIsWritten(
    s: State, user: int, verdict: Ledger.Verdict, snap: Snapshot, u: State, row: Row, next: ReviewerAt)
    requires WellFormed(u) && u.procs == s.procs && u.row.Some? && u.status == PendingApproval
    requires After(s, SpawnReviewer(user, verdict), true, 3, Joined(u, Reviewer(user, verdict, RRecorded(snap))))
    requires Makes(u, Reviewer(user, verdict, RRecorded(snap)), u.(row := Some(row)), Reviewer(user, verdict, next),
                   ReviewerStep(Joined(u, Reviewer(user, verdict, RRecorded(snap))), |u.procs|, user, verdict, RRecorded(snap), true))
    requires next == RDone || next == RMoving(Approved) || next == RMoving(Rejected)
    ensures After(s, SpawnReviewer(user, verdict), true, 6,
                  Joined(u.(row := Some(row), status := if next.RMoving? then next.target else u.status), Reviewer(user, verdict, RDone)))
  {
    var v := u.(row := Some(row));
    ReviewerGoesOn(s, user, verdict, true, 3, u, RRecorded(snap), v, next);
    if next.RMoving? {
      ReviewerGoesOn(s, user, verdict, true, 4, v, next, v, RWriting(next.target));
      ReviewerGoesOn(s, user, verdict, true, 5, v, RWriting(next.target), v.(status := next.target), RDone);
    } else {
      ReviewerIsDone(s, user, verdict, true, 4, 2, v);
    }
  }

  function RowOf(r: Ledger.Request): Row {
    Row(r.status, r.currentCount, r.currentStageIndex)
  }

  lemma {:induction false} DecisionRow(stages: seq<Staging.Stage>, r: Ledger.Request, user: int, verdict: Ledger.Verdict, role: Option<Staging.Role>)
    requires Ledger.LedgerOn(stages, r) && Ledger.Refusal(stages, r, user, role).None?
    ensures var q, c := Ledger.DecideOn(stages, r, user, verdict, role), r.currentStageIndex;
            var complete := Ledger.Approvals(r.decisions, c) + 1 >= stages[c].requiredCount;
            && q.request.decisions == r.decisions + [Ledger.Decision(user, verdict, Some(c), stages[c].name)]
            && (RowOf(q.request), q.move)
               == (if verdict == Ledger.Reject then (Row(Ledger.Rejected, r.currentCount, c), Ledger.MoveToRejected)
                   else if complete && c == |stages| - 1 then (Row(Ledger.Approved, Ledger.ApprovedCount(r.decisions) + 1, c), Ledger.MoveToApproved)
                   else (Row(Ledger.Pending, Ledger.ApprovedCount(r.decisions) + 1, if complete then c + 1 else c), Ledger.Stay))
  {
  }

  lemma {:induction false} RejectionMakes(u: State, user: int, snap: Snapshot)
    requires u.row.Some? && WellFormed(u) && snap.stageIndex < |u.stages|
    ensures Makes(u, Reviewer(user, Ledger.Reject, RRecorded(snap)),
                  u.(row := Some(Row(Ledger.Rejected, snap.currentCount, u.row.value.currentStageIndex))),
                  Reviewer(user, Ledger.Reject, RMoving(Rejected)),
                  ReviewerStep(Joined(u, Reviewer(user, Ledger.Reject, RRecorded(snap))), |u.procs|, user, Ledger.Reject, RRecorded(snap), true))
  {
  }

  predicate Settles(u: State, snap: Snapshot)
    requires snap.stageIndex < |u.stages|
  {
    Fills(u, snap) && snap.stageIndex == |u.stages| - 1
  }

  lemma {:induction false} ApprovalMakes(u: State, user: int, snap: Snapshot)
    requires u.row.Some? && WellFormed(u) && snap.stageIndex < |u.stages|
    ensures Makes(u, Reviewer(user, Ledger.Approve, RRecorded(snap)), u.(row := Some(RowWritten(u, snap))),
                  Reviewer(user, Ledger.Approve, if Settles(u, snap) then RMoving(Approved) else RDone),
                  ReviewerStep(Joined(u, Reviewer(user, Ledger.Approve, RRecorded(snap))), |u.procs|, user, Ledger.Approve, RRecorded(snap), true))
  {
  }

  /** The rest of a rejection. */
  lemma {:induction false} RejectedReview(s: State, user: int, u: State)
    requires WellFormed(u) && u.procs == s.procs && u.row.Some? && u.status == PendingApproval
    requires WellFormed(s) && s.row.Some? && SeenBy(s).stageIndex < |u.stages|
    requires After(s, SpawnReviewer(user, Ledger.Reject), true, 3, Joined(u, Reviewer(user, Ledger.Reject, RRecorded(SeenBy(s)))))
    ensures After(s, SpawnReviewer(user, Ledger.Reject), true, 6,
                  Joined(u.(row := Some(Row(Ledger.Rejected, s.row.value.currentCount, u.row.value.currentStageIndex)), status := Rejected),
                         Reviewer(user, Ledger.Reject, RDone)))
  {
    var row := Row(Ledger.Rejected, s.row.value.currentCount, u.row.value.currentStageIndex);
    RejectionMakes(u, user, SeenBy(s));
    ReviewIsWritten(s, user, Ledger.Reject, SeenBy(s), u, row, RMoving(Rejected));
  }

  /** The rest of an approval. */
  lemma {:induction false} ApprovedReview(s: State, user: int, u: State)
    requires WellFormed(u) && u.procs == s.procs && u.row.Some? && u.status == PendingApproval
    requires WellFormed(s) && s.row.Some? && SeenBy(s).stageIndex < |u.stages|
    requires After(s, SpawnReviewer(user, Ledger.Approve), true, 3, Joined(u, Reviewer(user, Ledger.Approve, RRecorded(SeenBy(s)))))
    ensures After(s, SpawnReviewer(user, Ledger.Approve), true, 6,
                  Joined(u.(row := Some(RowWritten(u, SeenBy(s))), status := if Settles(u, SeenBy(s)) then Approved else u.status),
                         Reviewer(user, Ledger.Approve, RDone)))
  {
    ApprovalMakes(u, user, SeenBy(s));
    ReviewIsWritten(s, user, Ledger.Approve, SeenBy(s), u, RowWritten(u, SeenBy(s)), if Settles(u, SeenBy(s)) then RMoving(Approved) else RDone);
  }

  function RolesNow(r: Ledger.Request): seq<Staging.Role> {
    Ledger.Stages(r)[Ledger.ActiveIndex(Ledger.Stages(r), r)].reviewerRoles
  }

  /** The rows once a decision has been recorded as one step. */
  function DecidedState(s: State, q: Ledger.Step): State {
    s.(decisions := q.request.decisions, row := Some(RowOf(q.request)),
       status := match q.move case Stay => s.status case MoveToApproved => Approved case MoveToRejected => Rejected)
  }

  function WithDecision(s: State, user: int, verdict: Ledger.Verdict, k: nat): State
    requires k < |s.stages|
  {
    s.(decisions := s.decisions + [Ledger.Decision(user, verdict, Some(k), s.stages[k].name)])
  }

  /** A request that lets this user decide, as both granularities have it. */
  ghost predicate LetsDecide(s: State, r: Ledger.Request, user: int, role: Option<Staging.Role>) {
    && ShowsRequest(Some(r), s) && Ledger.LedgerOn(Ledger.Stages(r), r)
    && Ledger.Refusal(Ledger.Stages(r), r, user, role).None?
    && s.status == PendingApproval
  }

  lemma {:induction false} RejectedState(s: State, r: Ledger.Request, user: int, role: Option<Staging.Role>)
    requires LetsDecide(s, r, user, role)
    ensures DecidedState(s, Ledger.Decide(r, user, Ledger.Reject, role))
         == WithDecision(s, user, Ledger.Reject, r.currentStageIndex).(
              row := Some(Row(Ledger.Rejected, r.currentCount, r.currentStageIndex)), status := Rejected)
  {
    DecisionRow(Ledger.Stages(r), r, user, Ledger.Reject, role);
  }

  lemma {:induction false} ApprovedRow(s: State, r: Ledger.Request, user: int, role: Option<Staging.Role>)
    requires LetsDecide(s, r, user, role)
    ensures WellFormed(s)
    ensures var u, q := WithDecision(s, user, Ledger.Approve, r.currentStageIndex), Ledger.Decide(r, user, Ledger.Approve, role);
            && RowOf(q.request) == RowWritten(u, SeenBy(s))
            && q.move == (if Settles(u, SeenBy(s)) then Ledger.MoveToApproved else Ledger.Stay)
            && q.request.decisions == u.decisions
  {
    DecisionRow(Ledger.Stages(r), r, user, Ledger.Approve, role);
  }

  lemma {:induction false} ApprovedState(s: State, r: Ledger.Request, user: int, role: Option<Staging.Role>)
    requires LetsDecide(s, r, user, role)
    ensures WellFormed(s)
    ensures var u := WithDecision(s, user, Ledger.Approve, r.currentStageIndex);
            DecidedState(s, Ledger.Decide(r, user, Ledger.Approve, role))
            == u.(row := Some(RowWritten(u, SeenBy(s))), status := if Settles(u, SeenBy(s)) then Approved else u.status)
  {
    ApprovedRow(s, r, user, role);
  }

  lemma {:induction false} ReviewStarts(s: State, r: Ledger.Request, user: int, verdict: Ledger.Verdict, role: Option<Staging.Role>)
    requires LetsDecide(s, r, user, role)
    ensures WellFormed(s) && SeenBy(s).stageIndex == r.currentStageIndex
    ensures After(s, SpawnReviewer(user, verdict), true, 3,
                  Joined(WithDecision(s, user, verdict, r.currentStageIndex), Reviewer(user, verdict, RRecorded(SeenBy(s)))))
  {
    ReviewIsRecorded(s, user, verdict);
  }

  lemma {:induction false} RecordedRejection(s: State, r: Ledger.Request, user: int, role: Option<Staging.Role>)
    requires LetsDecide(s, r, user, role)
    ensures After(s, SpawnReviewer(user, Ledger.Reject), true, 6,
                  Joined(DecidedState(s, Ledger.Decide(r, user, Ledger.Reject, role)), Reviewer(user, Ledger.Reject, RDone)))
  {
    ReviewStarts(s, r, user, Ledger.Reject, role);
    RejectedState(s, r, user, role);
    RejectedReview(s, user, WithDecision(s, user, Ledger.Reject, r.currentStageIndex));
  }

  lemma {:induction false} RecordedApproval(s: State, r: Ledger.Request, user: int, role: Option<Staging.Role>)
    requires LetsDecide(s, r, user, role)
    ensures After(s, SpawnReviewer(user, Ledger.Approve), true, 6,
                  Joined(DecidedState(s, Ledger.Decide(r, user, Ledger.Approve, role)), Reviewer(user, Ledger.Approve, RDone)))
  {
    ReviewStarts(s, r, user, Ledger.Approve, role);
    ApprovedState(s, r, user, role);
    ApprovedReview(s, user, WithDecision(s, user, Ledger.Approve, r.currentStageIndex));
  }

  lemma {:induction false} RecordedReview(s: State, r: Ledger.Request, user: int, verdict: Ledger.Verdict, role: Option<Staging.Role>)
    requires LetsDecide(s, r, user, role)
    ensures After(s, SpawnReviewer(user, verdict), true, 6,
                  Joined(DecidedState(s, Ledger.Decide(r, user, verdict, role)), Reviewer(user, verdict, RDone)))
  {
    if verdict == Ledger.Reject {
      RecordedRejection(s, r, user, role);
    } else {
      RecordedApproval(s, r, user, role);
    }
  }

  lemma {:induction false} ReviewLetsDecide(w: Whole.World, s: State, user: int, role: Option<Staging.Role>)
    requires Whole.Sound(w) && Shows(w, s) && w.review.request.Some?
    requires Ledger.Refusal(Ledger.Stages(w.review.request.value), w.review.request.value, user, role).None?
    ensures LetsDecide(s, w.review.request.value, user, role)
  {
    Outcomes.ReviewHasLedger(w.status, w.review);
  }

  lemma {:induction false} RecordedShows(w: Whole.World, s: State, user: int, verdict: Ledger.Verdict, role: Option<Staging.Role>, p: Proc)
    requires Shows(w, s) && w.review.request.Some? && s.status == PendingApproval
    requires Ledger.Refusal(Ledger.Stages(w.review.request.value), w.review.request.value, user, role).None?
    ensures Shows(Whole.Decide(w, user, verdict, role),
                  Joined(DecidedState(s, Ledger.Decide(w.review.request.value, user, verdict, role)), p))
  {
  }

  lemma {:induction false} ReviewIsItsStep(w: Whole.World, s: State, user: int, verdict: Ledger.Verdict, role: Option<Staging.Role>)
    requires Whole.Sound(w) && Shows(w, s) && WellFormed(s) && w.review.request.Some?
    ensures Shows(Whole.Decide(w, user, verdict, role),
                  Run(s, Alone(s, SpawnReviewer(user, verdict), Staging.MayReview(role, RolesNow(w.review.request.value)), 6)))
  {
    var r, flag := w.review.request.value, Staging.MayReview(role, RolesNow(w.review.request.value));
    if Ledger.Refusal(Ledger.Stages(r), r, user, role).None? {
      ReviewLetsDecide(w, s, user, role);
      RecordedShows(w, s, user, verdict, role, Reviewer(user, verdict, RDone));
      RecordedReview(s, r, user, verdict, role);
      AfterIsRun(s, SpawnReviewer(user, verdict), true, 6,
                 Joined(DecidedState(s, Ledger.Decide(r, user, verdict, role)), Reviewer(user, verdict, RDone)));
    } else {
      RefusedReview(s, user, verdict, flag);
      AfterIsRun(s, SpawnReviewer(user, verdict), flag, 6, Joined(s, Reviewer(user, verdict, RDone)));
    }
  }

  // ----- Requests to execute -----

  lemma {:induction false} RequesterGoesOn(s: State, n: nat, u: State, at: RequesterAt, v: State, next: RequesterAt)
    requires After(s, SpawnRequester, true, n, Joined(u, Requester(at))) && u.procs == s.procs && WellFormed(u)
    requires Makes(u, Requester(at), v, Requester(next), RequesterStep(Joined(u, Requester(at)), |u.procs|, at))
    ensures After(s, SpawnRequester, true, n + 1, Joined(v, Requester(next)))
  {
    MakesJoined(u, Requester(at), v, Requester(next), RequesterStep(Joined(u, Requester(at)), |u.procs|, at));
    GoesOn(s, SpawnRequester, true, n, Joined(u, Requester(at)), Joined(v, Requester(next)));
  }

  lemma {:induction false} RequesterIsDone(s: State, n: nat, more: nat, u: State)
    requires After(s, SpawnRequester, true, n, Joined(u, Requester(QDone))) && u.procs == s.procs && WellFormed(u)
    ensures After(s, SpawnRequester, true, n + more, Joined(u, Requester(QDone)))
  {
    if more > 0 {
      RequesterIsDone(s, n, more - 1, u);
      assert With(Joined(u, Requester(QDone)), |u.procs|, Requester(QDone)) == Joined(u, Requester(QDone));
      RequesterGoesOn(s, n + more - 1, u, QDone, u, QDone);
    }
  }

  /** A request that does not find the intent approved writes nothing. */
  lemma {:induction false} RequestStops(s: State, n: nat)
    requires WellFormed(s) && s.status != Approved && n >= 1
    ensures After(s, SpawnRequester, true, n, Joined(s, Requester(QDone)))
  {
    Starts(s, SpawnRequester, true, Joined(s, Requester(QStart)));
    RequesterGoesOn(s, 0, s, QStart, s, QDone);
    RequesterIsDone(s, 1, n - 1, s);
  }

  /** Nor does one that finds a job there, whatever became of that job. */
  lemma {:induction false} RequestFindsAJob(s: State)
    requires WellFormed(s) && s.status == Approved && s.job.Some?
    ensures After(s, SpawnRequester, true, 3, Joined(s, Requester(QDone)))
  {
    Starts(s, SpawnRequester, true, Joined(s, Requester(QStart)));
    RequesterGoesOn(s, 0, s, QStart, s, QSawApproved);
    if s.job.value == JobFailed {
      RequesterGoesOn(s, 1, s, QSawApproved, s, QSawNoJob);
      RequesterGoesOn(s, 2, s, QSawNoJob, s, QDone);
    } else {
      RequesterGoesOn(s, 1, s, QSawApproved, s, QDone);
      RequesterIsDone(s, 2, 1, s);
    }
  }

  /** One that does has checked everything after two steps. */
  lemma {:induction false} RequestChecks(s: State)
    requires WellFormed(s) && s.status == Approved && s.job.None?
    ensures After(s, SpawnRequester, true, 2, Joined(s, Requester(QSawNoJob)))
  {
    Starts(s, SpawnRequester, true, Joined(s, Requester(QStart)));
    RequesterGoesOn(s, 0, s, QStart, s, QSawApproved);
    RequesterGoesOn(s, 1, s, QSawApproved, s, QSawNoJob);
  }

  lemma {:induction false} RequestQueues(s: State)
    requires WellFormed(s) && s.status == Approved && s.job.None?
    ensures After(s, SpawnRequester, true, 5, Joined(s.(job := Some(JobQueued), status := Queued), Requester(QMoved)))
    ensures After(s, SpawnRequester, true, 6, Joined(s.(job := Some(JobQueued), status := Queued, enqueued := true), Requester(QDone)))
  {
    var made := s.(job := Some(JobQueued));
    var moved := made.(status := Queued);
    RequestChecks(s);
    RequesterGoesOn(s, 2, s, QSawNoJob, made, QCreated);
    RequesterGoesOn(s, 3, made, QCreated, made, QWriting);
    RequesterGoesOn(s, 4, made, QWriting, moved, QMoved);
    RequesterGoesOn(s, 5, moved, QMoved, moved.(enqueued := true), QDone);
  }

  lemma {:induction false} QueuedShows(w: Whole.World, s: State, enqueued: bool, p: Proc)
    requires Whole.Sound(w) && Shows(w, s) && w.status == Approved
    ensures s.job.None?
    ensures Shows(Whole.QueueExecution(w, true, enqueued),
                  Joined(s.(job := Some(JobQueued), status := Queued, enqueued := enqueued || s.enqueued), p))
  {
  }

  /** The steps a request to execute gets to make: the plan's refusal stops it before it writes, the queue's just before the end. */
  function RequestSteps(planAllows: bool, enqueued: bool): nat {
    if !planAllows then 2 else if enqueued then 6 else 5
  }

  lemma {:induction false} RequestIsItsStep(w: Whole.World, s: State, planAllows: bool, enqueued: bool)
    requires Whole.Sound(w) && Shows(w, s) && WellFormed(s)
    ensures Shows(Whole.QueueExecution(w, planAllows, enqueued), Run(s, Alone(s, SpawnRequester, true, RequestSteps(planAllows, enqueued))))
  {
    var n := RequestSteps(planAllows, enqueued);
    if s.status != Approved {
      RequestStops(s, n);
      AfterIsRun(s, SpawnRequester, true, n, Joined(s, Requester(QDone)));
    } else {
      QueuedShows(w, s, enqueued, if enqueued then Requester(QDone) else Requester(QMoved));
      if !planAllows {
        RequestChecks(s);
        AfterIsRun(s, SpawnRequester, true, 2, Joined(s, Requester(QSawNoJob)));
      } else {
        RequestQueues(s);
        AfterIsRun(s, SpawnRequester, true, n,
                   if enqueued then Joined(s.(job := Some(JobQueued), status := Queued, enqueued := true), Requester(QDone))
                   else Joined(s.(job := Some(JobQueued), status := Queued), Requester(QMoved)));
      }
    }
  }

  // ----- Simulations, submissions and status changes -----

  lemma {:induction false} OtherGoesOn(s: State, first: Action, flag: bool, n: nat, u: State, target: Status, at: OtherAt, v: State, next: OtherAt)
    requires After(s, first, flag, n, Joined(u, Other(target, at))) && u.procs == s.procs && WellFormed(u)
    requires Makes(u, Other(target, at), v, Other(target, next), OtherStep(Joined(u, Other(target, at)), |u.procs|, target, at))
    ensures After(s, first, flag, n + 1, Joined(v, Other(target, next)))
  {
    MakesJoined(u, Other(target, at), v, Other(target, next), OtherStep(Joined(u, Other(target, at)), |u.procs|, target, at));
    GoesOn(s, first, flag, n, Joined(u, Other(target, at)), Joined(v, Other(target, next)));
  }

  /** Two steps change the status, or leave it when the table does not allow the change. */
  lemma {:induction false} StatusChanges(s: State, first: Action, flag: bool, n: nat, u: State, target: Status)
    requires After(s, first, flag, n, Joined(u, Other(target, OStart))) && u.procs == s.procs && WellFormed(u)
    ensures After(s, first, flag, n + 2,
                  Joined(u.(status := if IsValidTransition(u.status, target) then target else u.status), Other(target, ODone)))
  {
    if IsValidTransition(u.status, target) {
      OtherGoesOn(s, first, flag, n, u, target, OStart, u, OWriting);
      OtherGoesOn(s, first, flag, n + 1, u, target, OWriting, u.(status := target), ODone);
    } else {
      OtherGoesOn(s, first, flag, n, u, target, OStart, u, ODone);
      assert With(Joined(u, Other(target, ODone)), |u.procs|, Other(target, ODone)) == Joined(u, Other(target, ODone));
      OtherGoesOn(s, first, flag, n + 1, u, target, ODone, u, ODone);
    }
  }

  /** A service that changes nothing but the status. */
  lemma {:induction false} ChangeAlone(s: State, target: Status)
    requires WellFormed(s) && ChangedAlone(target)
    ensures Run(s, Alone(s, SpawnOther(target), true, 2))
         == Joined(s.(status := if IsValidTransition(s.status, target) then target else s.status), Other(target, ODone))
  {
    Starts(s, SpawnOther(target), true, Joined(s, Other(target, OStart)));
    StatusChanges(s, SpawnOther(target), true, 0, s, target);
    AfterIsRun(s, SpawnOther(target), true, 2,
               Joined(s.(status := if IsValidTransition(s.status, target) then target else s.status), Other(target, ODone)));
  }

  lemma {:induction false} SimulatorGoesOn(s: State, flag: bool, n: nat, u: State, at: SimulatorAt, v: State, q: Proc)
    requires After(s, SpawnSimulator, flag, n, Joined(u, Simulator(at))) && u.procs == s.procs && WellFormed(u)
    requires Makes(u, Simulator(at), v, q, SimulatorStep(Joined(u, Simulator(at)), |u.procs|, at, flag))
    ensures After(s, SpawnSimulator, flag, n + 1, Joined(v, q))
  {
    MakesJoined(u, Simulator(at), v, q, SimulatorStep(Joined(u, Simulator(at)), |u.procs|, at, flag));
    GoesOn(s, SpawnSimulator, flag, n, Joined(u, Simulator(at)), Joined(v, q));
  }

  lemma {:induction false} SimulatorIsDone(s: State, flag: bool, n: nat, more: nat, u: State)
    requires After(s, SpawnSimulator, flag, n, Joined(u, Simulator(MDone))) && u.procs == s.procs && WellFormed(u)
    ensures After(s, SpawnSimulator, flag, n + more, Joined(u, Simulator(MDone)))
  {
    if more > 0 {
      SimulatorIsDone(s, flag, n, more - 1, u);
      assert With(Joined(u, Simulator(MDone)), |u.procs|, Simulator(MDone)) == Joined(u, Simulator(MDone));
      SimulatorGoesOn(s, flag, n + more - 1, u, MDone, u, Simulator(MDone));
    }
  }

  lemma {:induction false} SimulationIsRecorded(s: State, flag: bool)
    requires WellFormed(s) && s.status == Proposed && s.simulations == 0
    ensures After(s, SpawnSimulator, flag, 4,
                  if flag then Joined(s.(simulations := 1, status := Simulated), Other(Simulated, ODone)) else Joined(s, Simulator(MDone)))
  {
    Starts(s, SpawnSimulator, flag, Joined(s, Simulator(MStart)));
    SimulatorGoesOn(s, flag, 0, s, MStart, s, Simulator(MSeen));
    if flag {
      SimulatorGoesOn(s, flag, 1, s, MSeen, s.(simulations := 1), Other(Simulated, OStart));
      StatusChanges(s, SpawnSimulator, flag, 2, s.(simulations := 1), Simulated);
    } else {
      SimulatorGoesOn(s, flag, 1, s, MSeen, s, Simulator(MDone));
      SimulatorIsDone(s, flag, 2, 2, s);
    }
  }

  /** A second simulation is refused by the database. */
  lemma {:induction false} SimulationFindsAnother(s: State, flag: bool)
    requires WellFormed(s) && s.status == Proposed && s.simulations > 0
    ensures After(s, SpawnSimulator, flag, 2, Joined(s, Simulator(MDone)))
  {
    Starts(s, SpawnSimulator, flag, Joined(s, Simulator(MStart)));
    SimulatorGoesOn(s, flag, 0, s, MStart, s, Simulator(MSeen));
    SimulatorGoesOn(s, flag, 1, s, MSeen, s, Simulator(MDone));
  }

  lemma {:induction false} SimulationStops(s: State, flag: bool)
    requires WellFormed(s) && s.status != Proposed
    ensures After(s, SpawnSimulator, flag, 4, Joined(s, Simulator(MDone)))
  {
    Starts(s, SpawnSimulator, flag, Joined(s, Simulator(MStart)));
    SimulatorGoesOn(s, flag, 0, s, MStart, s, Simulator(MDone));
    SimulatorIsDone(s, flag, 1, 3, s);
  }

  lemma {:induction false} SimulationIsItsStep(w: Whole.World, s: State, accepted: bool)
    requires Whole.Sound(w) && Shows(w, s) && WellFormed(s)
    ensures Shows(Whole.Simulate(w, accepted), Run(s, Alone(s, SpawnSimulator, accepted, 4)))
  {
    if s.status != Proposed {
      SimulationStops(s, accepted);
      AfterIsRun(s, SpawnSimulator, accepted, 4, Joined(s, Simulator(MDone)));
    } else {
      SimulationIsRecorded(s, accepted);
      AfterIsRun(s, SpawnSimulator, accepted, 4,
                 if accepted then Joined(s.(simulations := 1, status := Simulated), Other(Simulated, ODone)) else Joined(s, Simulator(MDone)));
    }
  }

  lemma {:induction false} SubmitterGoesOn(s: State, chain: seq<Staging.Stage>, flag: bool, n: nat, u: State, at: SubmitterAt, v: State, q: Proc)
    requires After(s, SpawnSubmitter(chain), flag, n, Joined(u, Submitter(chain, at))) && u.procs == s.procs && WellFormed(u)
    requires Makes(u, Submitter(chain, at), v, q, SubmitterStep(Joined(u, Submitter(chain, at)), |u.procs|, chain, at, flag))
    ensures After(s, SpawnSubmitter(chain), flag, n + 1, Joined(v, q))
  {
    MakesJoined(u, Submitter(chain, at), v, q, SubmitterStep(Joined(u, Submitter(chain, at)), |u.procs|, chain, at, flag));
    GoesOn(s, SpawnSubmitter(chain), flag, n, Joined(u, Submitter(chain, at)), Joined(v, q));
  }

  lemma {:induction false} SubmitterIsDone(s: State, chain: seq<Staging.Stage>, flag: bool, n: nat, more: nat, u: State)
    requires After(s, SpawnSubmitter(chain), flag, n, Joined(u, Submitter(chain, UDone))) && u.procs == s.procs && WellFormed(u)
    ensures After(s, SpawnSubmitter(chain), flag, n + more, Joined(u, Submitter(chain, UDone)))
  {
    if more > 0 {
      SubmitterIsDone(s, chain, flag, n, more - 1, u);
      assert With(Joined(u, Submitter(chain, UDone)), |u.procs|, Submitter(chain, UDone)) == Joined(u, Submitter(chain, UDone));
      SubmitterGoesOn(s, chain, flag, n + more - 1, u, UDone, u, Submitter(chain, UDone));
    }
  }

  lemma {:induction false} SubmissionStops(s: State, chain: seq<Staging.Stage>, flag: bool, n: nat)
    requires WellFormed(s) && s.status != Simulated && n >= 1
    ensures After(s, SpawnSubmitter(chain), flag, n, Joined(s, Submitter(chain, UDone)))
  {
    Starts(s, SpawnSubmitter(chain), flag, Joined(s, Submitter(chain, UStart)));
    SubmitterGoesOn(s, chain, flag, 0, s, UStart, s, Submitter(chain, UDone));
    SubmitterIsDone(s, chain, flag, 1, n - 1, s);
  }

  lemma {:induction false} SubmissionIsSeen(s: State, chain: seq<Staging.Stage>, flag: bool)
    requires WellFormed(s) && s.status == Simulated && Staging.ValidChain(chain)
    ensures After(s, SpawnSubmitter(chain), flag, 1, Joined(s, Submitter(chain, USeen)))
  {
    Starts(s, SpawnSubmitter(chain), flag, Joined(s, Submitter(chain, UStart)));
    SubmitterGoesOn(s, chain, flag, 0, s, UStart, s, Submitter(chain, USeen));
  }

  lemma {:induction false} SubmissionIsDenied(s: State, chain: seq<Staging.Stage>)
    requires WellFormed(s) && s.status == Simulated && Staging.ValidChain(chain)
    ensures After(s, SpawnSubmitter(chain), true, 4, Joined(s.(denied := true, status := Rejected), Other(Rejected, ODone)))
  {
    SubmissionIsSeen(s, chain, true);
    SubmitterGoesOn(s, chain, true, 1, s, USeen, s.(denied := true), Other(Rejected, OStart));
    StatusChanges(s, SpawnSubmitter(chain), true, 2, s.(denied := true), Rejected);
  }

  lemma {:induction false} SubmissionOpens(s: State, chain: seq<Staging.Stage>)
    requires WellFormed(s) && s.status == Simulated && Staging.ValidChain(chain) && s.row.None?
    ensures After(s, SpawnSubmitter(chain), false, 5,
                  Joined(s.(passes := s.passes + 1, stages := chain, row := Some(Row(Ledger.Pending, 0, 0)), status := PendingApproval),
                         Other(PendingApproval, ODone)))
  {
    var passed := s.(passes := s.passes + 1);
    var pending := passed.(stages := chain, row := Some(Row(Ledger.Pending, 0, 0)));
    SubmissionIsSeen(s, chain, false);
    SubmitterGoesOn(s, chain, false, 1, s, USeen, passed, Submitter(chain, UOpening));
    SubmitterGoesOn(s, chain, false, 2, passed, UOpening, pending, Other(PendingApproval, OStart));
    StatusChanges(s, SpawnSubmitter(chain), false, 3, pending, PendingApproval);
  }

  /** A submission that is not denied but finds a request there records its evaluation and no more. */
  lemma {:induction false} SubmissionFindsARequest(s: State, chain: seq<Staging.Stage>)
    requires WellFormed(s) && s.status == Simulated && Staging.ValidChain(chain) && s.row.Some?
    ensures After(s, SpawnSubmitter(chain), false, 3, Joined(s.(passes := s.passes + 1), Submitter(chain, UDone)))
  {
    var passed := s.(passes := s.passes + 1);
    SubmissionIsSeen(s, chain, false);
    SubmitterGoesOn(s, chain, false, 1, s, USeen, passed, Submitter(chain, UOpening));
    SubmitterGoesOn(s, chain, false, 2, passed, UOpening, passed, Submitter(chain, UDone));
  }

  /** The process of a submission that the schema and the plan let through. */
  function SubmissionOf(f: Whole.Filing): Action
    requires Staging.ParseSubmission(f.sub).Some?
  {
    SpawnSubmitter(Staging.NormalizeStages(Staging.ParseSubmission(f.sub).value))
  }

  lemma {:induction false} DeniedShows(w: Whole.World, s: State, f: Whole.Filing, p: Proc)
    requires Whole.Sound(w) && Shows(w, s) && w.status == Simulated && f.planAllows && Staging.ParseSubmission(f.sub).Some?
    requires Outcomes.SomeDenies(f)
    ensures Shows(Whole.Submit(w, f), Joined(s.(denied := true, status := Rejected), p))
  {
    Outcomes.SubmissionOutcome(w, f);
    Outcomes.DeniedExactlyWhenSomeDenies(f);
    Whole.DecisionsReportDenial(f);
  }

  lemma {:induction false} OpenedShows(w: Whole.World, s: State, f: Whole.Filing, p: Proc)
    requires Whole.Sound(w) && Shows(w, s) && w.status == Simulated && f.planAllows && Staging.ParseSubmission(f.sub).Some?
    requires !Outcomes.SomeDenies(f)
    ensures var chain := Staging.NormalizeStages(Staging.ParseSubmission(f.sub).value);
            && s.row.None? && Staging.ValidChain(chain)
            && Shows(Whole.Submit(w, f),
                     Joined(s.(passes := s.passes + 1, stages := chain, row := Some(Row(Ledger.Pending, 0, 0)), status := PendingApproval), p))
  {
    Outcomes.SubmissionOutcome(w, f);
    Outcomes.DeniedExactlyWhenSomeDenies(f);
    Whole.DecisionsReportDenial(f);
    Staging.StageRoundTrip(f.sub);
  }

  lemma {:induction false} SubmissionIsItsStep(w: Whole.World, s: State, f: Whole.Filing)
    requires Whole.Sound(w) && Shows(w, s) && WellFormed(s) && f.planAllows && Staging.ParseSubmission(f.sub).Some?
    ensures Shows(Whole.Submit(w, f), Run(s, Alone(s, SubmissionOf(f), Outcomes.SomeDenies(f), if Outcomes.SomeDenies(f) then 4 else 5)))
  {
    var chain, denies := Staging.NormalizeStages(Staging.ParseSubmission(f.sub).value), Outcomes.SomeDenies(f);
    Staging.StageRoundTrip(f.sub);
    if s.status != Simulated {
      SubmissionStops(s, chain, denies, if denies then 4 else 5);
      AfterIsRun(s, SubmissionOf(f), denies, if denies then 4 else 5, Joined(s, Submitter(chain, UDone)));
    } else if denies {
      DeniedShows(w, s, f, Other(Rejected, ODone));
      SubmissionIsDenied(s, chain);
      AfterIsRun(s, SubmissionOf(f), true, 4, Joined(s.(denied := true, status := Rejected), Other(Rejected, ODone)));
    } else {
      OpenedShows(w, s, f, Other(PendingApproval, ODone));
      SubmissionOpens(s, chain);
      AfterIsRun(s, SubmissionOf(f), false, 5,
                 Joined(s.(passes := s.passes + 1, stages := chain, row := Some(Row(Ledger.Pending, 0, 0)), status := PendingApproval),
                        Other(PendingApproval, ODone)));
    }
  }

  lemma {:induction false} ChangeShows(w: Whole.World, v: Whole.World, s: State, target: Status)
    requires Shows(w, s) && WellFormed(s) && ChangedAlone(target)
    requires v.status == (if IsValidTransition(w.status, target) then target else w.status)
    requires v.review == w.review && v.execution == w.execution
    ensures Shows(v, Run(s, Alone(s, SpawnOther(target), true, 2)))
  {
    ChangeAlone(s, target);
  }

  // ----- Every call, and every life -----

  /** The steps of the interleaved protocol that a whole call or delivery is made of, one after another. */
  function Schedule(w: Whole.World, s: State, a: Whole.Action): seq<Action>
    requires WellFormed(s)
  {
    match a
    case DoPropose => Alone(s, SpawnOther(Proposed), true, 2)
    case DoSimulate(accepted) => Alone(s, SpawnSimulator, accepted, 4)
    case DoSubmit(f) =>
      if !f.planAllows || Staging.ParseSubmission(f.sub).None? then []
      else Alone(s, SubmissionOf(f), Outcomes.SomeDenies(f), if Outcomes.SomeDenies(f) then 4 else 5)
    case DoDecide(user, verdict, role) =>
      if w.review.request.None? then []
      else Alone(s, SpawnReviewer(user, verdict), Staging.MayReview(role, RolesNow(w.review.request.value)), 6)
    case DoQueue(planAllows, enqueued) => Alone(s, SpawnRequester, true, RequestSteps(planAllows, enqueued))
    case DoDeliverExecution(reply) =>
      if w.execution.message.None? then [] else Alone(s, SpawnDelivery, reply.Returns?, if reply.Missing? then 3 else 7)
    case DoRequestRollback(supported, enqueued) =>
      if (w.status != Succeeded && w.status != RollbackFailed) || !supported then []
      else
        var asked := Alone(s, SpawnOther(RollbackPending), true, 2);
        if enqueued then asked else asked + Alone(Run(s, asked), SpawnOther(RollbackFailed), true, 2)
    case DoDeliverRollback(attempt, reply) =>
      if attempt !in w.rollback.messages then [] else RollbackSteps(s, reply, w.rollback.messages[attempt] + 1 == Whole.MAX_ATTEMPTS)
  }

  /** Only a rollback that returned, or threw for the last time, changes the status. */
  function RollbackSteps(s: State, reply: Whole.Reply, spent: bool): seq<Action> {
    if reply.Returns? then Alone(s, SpawnOther(RolledBack), true, 2)
    else if reply.Throws? && spent then Alone(s, SpawnOther(RollbackFailed), true, 2)
    else []
  }

  lemma {:induction false} RollbackRequestIsItsStep(w: Whole.World, s: State, supported: bool, enqueued: bool)
    requires Whole.Sound(w) && Shows(w, s) && WellFormed(s)
    ensures Shows(Whole.RequestRollback(w, supported, enqueued), Run(s, Schedule(w, s, Whole.DoRequestRollback(supported, enqueued))))
  {
    var v := Whole.RequestRollback(w, supported, enqueued);
    Outcomes.RollbackRequestOutcome(w, supported, enqueued);
    if v != w {
      var asked := Alone(s, SpawnOther(RollbackPending), true, 2);
      var half := w.(status := RollbackPending);
      ChangeShows(w, half, s, RollbackPending);
      if !enqueued {
        ChangeShows(half, v, Run(s, asked), RollbackFailed);
        RunConcat(s, asked, Alone(Run(s, asked), SpawnOther(RollbackFailed), true, 2));
      }
    }
  }

  lemma {:induction false} RollbackDeliveryIsItsStep(w: Whole.World, s: State, a: nat, reply: Whole.Reply)
    requires Whole.Sound(w) && Shows(w, s) && WellFormed(s)
    requires a in w.rollback.messages
    ensures Shows(Whole.DeliverRollback(w, a, reply), Run(s, RollbackSteps(s, reply, w.rollback.messages[a] + 1 == Whole.MAX_ATTEMPTS)))
  {
    var v := Whole.DeliverRollback(w, a, reply);
    Outcomes.RollbackDeliveryOutcome(w, a, reply);
    RollbackDeliveryStatus(w, a, reply);
    if reply.Returns? {
      ChangeShows(w, v, s, RolledBack);
    } else if reply.Throws? && w.rollback.messages[a] + 1 == Whole.MAX_ATTEMPTS {
      ChangeShows(w, v, s, RollbackFailed);
    }
  }

  lemma {:induction false} RollbackDeliveryStatus(w: Whole.World, a: nat, reply: Whole.Reply)
    requires Whole.Sound(w) && a in w.rollback.messages
    ensures w.status == RollbackPending
    ensures Whole.DeliverRollback(w, a, reply).status
         == if reply.Returns? then RolledBack
            else if reply.Throws? && w.rollback.messages[a] + 1 == Whole.MAX_ATTEMPTS then RollbackFailed
            else w.status
  {
  }

  lemma {:induction false} EarlyCallIsItsStep(w: Whole.World, s: State, a: Whole.Action)
    requires Whole.Sound(w) && Shows(w, s) && WellFormed(s)
    requires a.DoPropose? || a.DoSimulate? || a.DoSubmit? || a.DoDecide?
    ensures Shows(Whole.Apply(w, a), Run(s, Schedule(w, s, a)))
  {
    match a
    case DoPropose => ChangeShows(w, Whole.Propose(w), s, Proposed);
    case DoSimulate(accepted) => SimulationIsItsStep(w, s, accepted);
    case DoSubmit(f) =>
      if f.planAllows && Staging.ParseSubmission(f.sub).Some? {
        SubmissionIsItsStep(w, s, f);
      }
    case DoDecide(user, verdict, role) =>
      if w.review.request.Some? {
        ReviewIsItsStep(w, s, user, verdict, role);
      }
  }

  lemma {:induction false} LateCallIsItsStep(w: Whole.World, s: State, a: Whole.Action)
    requires Whole.Sound(w) && Shows(w, s) && WellFormed(s)
    requires a.DoQueue? || a.DoDeliverExecution? || a.DoRequestRollback? || a.DoDeliverRollback?
    ensures Shows(Whole.Apply(w, a), Run(s, Schedule(w, s, a)))
  {
    match a
    case DoQueue(planAllows, enqueued) => RequestIsItsStep(w, s, planAllows, enqueued);
    case DoDeliverExecution(reply) =>
      if w.execution.message.Some? {
        DeliveryIsItsStep(w, s, reply);
      }
    case DoRequestRollback(supported, enqueued) => RollbackRequestIsItsStep(w, s, supported, enqueued);
    case DoDeliverRollback(attempt, reply) =>
      if attempt in w.rollback.messages {
        RollbackDeliveryIsItsStep(w, s, attempt, reply);
      } else {
        Outcomes.RollbackDeliveryOutcome(w, attempt, reply);
      }
  }

  /**
   * Atomicity is only a matter of what comes in between: each whole call or delivery, with its single
   * reads and writes running alone and the environment deciding as it did, leaves the same rows.
   */
  lemma {:induction false} CallAloneIsItsStep(w: Whole.World, s: State, a: Whole.Action)
    requires Whole.Sound(w) && Shows(w, s) && WellFormed(s)
    ensures Shows(Whole.Apply(w, a), Run(s, Schedule(w, s, a)))
  {
    if a.DoPropose? || a.DoSimulate? || a.DoSubmit? || a.DoDecide? {
      EarlyCallIsItsStep(w, s, a);
    } else {
      LateCallIsItsStep(w, s, a);
    }
  }

  /** The steps of a whole life. */
  function ScheduleAll(actions: seq<Whole.Action>): seq<Action> {
    if actions == [] then []
    else
      var before := ScheduleAll(actions[..|actions| - 1]);
      before + Schedule(Whole.Run(Whole.FRESH, actions[..|actions| - 1]), Run(INIT, before), actions[|actions| - 1])
  }

  /** Every life made of whole calls and deliveries is a run of the interleaved protocol. */
  lemma {:induction false} EveryLifeIsARun(actions: seq<Whole.Action>)
    ensures Shows(Whole.Run(Whole.FRESH, actions), Run(INIT, ScheduleAll(actions)))
  {
    if actions != [] {
      var before, last := actions[..|actions| - 1], actions[|actions| - 1];
      EveryLifeIsARun(before);
      Whole.FreshIsSound();
      Whole.RunKeepsSound(Whole.FRESH, before);
      var w, s := Whole.Run(Whole.FRESH, before), Run(INIT, ScheduleAll(before));
      CallAloneIsItsStep(w, s, last);
      RunConcat(INIT, ScheduleAll(before), Schedule(w, s, last));
    }
  }
}
