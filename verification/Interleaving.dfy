/**
 * The same protocol with nothing atomic but a single database call: one query with the rows it
 * includes, or the write of one row. Reviewer requests, execute requests, worker deliveries and
 * every other service run as processes with their own program counter and their own stale reads;
 * even `transitionIntent` reads the status in one step and overwrites it in another.
 */
module Interleaving {
  import opened Prelude
  import opened IntentStates
  import opened ApprovalStages
  import Ledger = ApprovalLedger

  // ----- Rows and processes -----

  /** The columns of the approval request that decisions overwrite. */
  datatype Row = Row(status: Ledger.RequestStatus, currentCount: int, currentStageIndex: int)

  /** What a reviewer's request read before it began to write. */
  datatype Snapshot = Snapshot(currentCount: int, stageIndex: nat, decisions: seq<Ledger.Decision>)

  datatype ReviewerAt =
    | RStart
    | RSeen(snap: Snapshot)
    | RCleared(snap: Snapshot)
    | RRecorded(snap: Snapshot)
    | RMoving(target: Status)
    | RWriting(target: Status)
    | RDone

  datatype RequesterAt = QStart | QSawApproved | QSawNoJob | QCreated | QWriting | QMoved | QDone

  datatype DeliveryAt =
    | DStart
    | DMarked
    | DWriting
    | DReady
    | DReturned(returned: bool)
    | DSettling(target: Status)
    | DSettleWriting(target: Status)
    | DDone

  datatype SimulatorAt = MStart | MSeen | MDone

  datatype SubmitterAt = UStart | USeen | UOpening | UDone

  datatype OtherAt = OStart | OWriting | ODone

  /** `Other` is a status change by any service but the first three, from its first read on. */
  datatype Proc =
    | Reviewer(user: int, verdict: Ledger.Verdict, r: ReviewerAt)
    | Requester(q: RequesterAt)
    | Delivery(d: DeliveryAt)
    | Simulator(m: SimulatorAt)
    | Submitter(chain: seq<Stage>, u: SubmitterAt)
    | Other(target: Status, o: OtherAt)

  /**
   * The rows of one intent: its simulations, of which there is one at most, the policy evaluations
   * recorded for it that denied nothing, whether any recorded one denied, and then as in the columns' names.
   */
  datatype State = State(
    status: Status,
    simulations: nat,
    passes: nat,
    denied: bool,
    stages: seq<Stage>,
    row: Option<Row>,
    decisions: seq<Ledger.Decision>,
    job: Option<JobStatus>,
    enqueued: bool,
    calls: nat,
    procs: seq<Proc>)

  const INIT := State(Draft, 0, 0, false, [], None, [], None, false, 0, [])

  // ----- Steps -----

  /** Statuses written by services other than the reviewers', the execute requests' and the execution worker's. */
  predicate WrittenElsewhere(s: Status) {
    s.Proposed? || s.Simulated? || s.PendingApproval? || s.Rejected? || s.RollbackPending? || s.RolledBack? || s.RollbackFailed?
  }

  function With(s: State, i: nat, p: Proc): State
    requires i < |s.procs|
  {
    s.(procs := s.procs[i := p])
  }

  /** `flag` resolves what the environment decides: a reviewer's permission. */
  function ReviewerStep(s: State, i: nat, user: int, verdict: Ledger.Verdict, at: ReviewerAt, flag: bool): State
    requires i < |s.procs| && (s.row.Some? ==> |s.stages| > 0)
  {
    match at
    case RStart =>
      if s.row.None? || s.row.value.status != Ledger.Pending then With(s, i, Reviewer(user, verdict, RDone))
      else
        var row := s.row.value;
        With(s, i, Reviewer(user, verdict, RSeen(Snapshot(row.currentCount, Ledger.Clamp(row.currentStageIndex, |s.stages|), s.decisions))))
    case RSeen(snap) =>
      if Ledger.HasDecided(s.decisions, user) || !flag then With(s, i, Reviewer(user, verdict, RDone))
      else With(s, i, Reviewer(user, verdict, RCleared(snap)))
    case RCleared(snap) =>
      if snap.stageIndex >= |s.stages| then s
      else
        var d := Ledger.Decision(user, verdict, Some(snap.stageIndex), s.stages[snap.stageIndex].name);
        With(s.(decisions := s.decisions + [d]), i, Reviewer(user, verdict, RRecorded(snap)))
    case RRecorded(snap) =>
      if s.row.None? || snap.stageIndex >= |s.stages| then s
      else if verdict == Ledger.Reject then
        var row := s.row.value.(status := Ledger.Rejected, currentCount := snap.currentCount);
        With(s.(row := Some(row)), i, Reviewer(user, verdict, RMoving(Rejected)))
      else
        var complete := Ledger.Approvals(snap.decisions, snap.stageIndex) + 1 >= s.stages[snap.stageIndex].requiredCount;
        var last := snap.stageIndex >= |s.stages| - 1;
        var row := Row(if complete && last then Ledger.Approved else Ledger.Pending,
                       Ledger.ApprovedCount(snap.decisions) + 1,
                       if complete && !last then snap.stageIndex + 1 else snap.stageIndex);
        With(s.(row := Some(row)), i, Reviewer(user, verdict, if complete && last then RMoving(Approved) else RDone))
    case RMoving(target) =>
      With(s, i, Reviewer(user, verdict, if IsValidTransition(s.status, target) then RWriting(target) else RDone))
    case RWriting(target) => With(s.(status := target), i, Reviewer(user, verdict, RDone))
    case RDone => s
  }

  function RequesterStep(s: State, i: nat, at: RequesterAt): State
    requires i < |s.procs|
  {
    match at
    case QStart => With(s, i, Requester(if s.status == Approved then QSawApproved else QDone))
    case QSawApproved =>
      With(s, i, Requester(if s.job.Some? && s.job.value != JobFailed then QDone else QSawNoJob))
    case QSawNoJob =>
      if s.job.Some? then With(s, i, Requester(QDone))
      else With(s.(job := Some(JobQueued)), i, Requester(QCreated))
    case QCreated => With(s, i, Requester(if IsValidTransition(s.status, Queued) then QWriting else QDone))
    case QWriting => With(s.(status := Queued), i, Requester(QMoved))
    case QMoved => With(s.(enqueued := true), i, Requester(QDone))
    case QDone => s
  }

  /** `flag` resolves what the environment decides: whether the connector's call returns. */
  function DeliveryStep(s: State, i: nat, at: DeliveryAt, flag: bool): State
    requires i < |s.procs|
  {
    match at
    case DStart => With(s.(job := Some(JobProcessing)), i, Delivery(DMarked))
    case DMarked => With(s, i, Delivery(if IsValidTransition(s.status, Executing) then DWriting else DDone))
    case DWriting => With(s.(status := Executing), i, Delivery(DReady))
    case DReady => With(s.(calls := s.calls + 1), i, Delivery(DReturned(flag)))
    case DReturned(returned) =>
      With(s.(job := Some(if returned then JobCompleted else JobFailed)), i,
           Delivery(DSettling(if returned then Succeeded else Failed)))
    case DSettling(target) =>
      if IsValidTransition(s.status, target) then With(s, i, Delivery(DSettleWriting(target)))
      else With(s, i, Delivery(if target == Succeeded then DReturned(false) else DDone))
    case DSettleWriting(target) => With(s.(status := target), i, Delivery(DDone))
    case DDone => s
  }

  function OtherStep(s: State, i: nat, target: Status, at: OtherAt): State
    requires i < |s.procs|
  {
    match at
    case OStart => With(s, i, Other(target, if IsValidTransition(s.status, target) then OWriting else ODone))
    case OWriting => With(s.(status := target), i, Other(target, ODone))
    case ODone => s
  }

  /** `flag` resolves what the environment decides: whether the connector validates and simulates. */
  function SimulatorStep(s: State, i: nat, at: SimulatorAt, flag: bool): State
    requires i < |s.procs|
  {
    match at
    case MStart => With(s, i, Simulator(if s.status == Proposed then MSeen else MDone))
    case MSeen =>
      if flag && s.simulations == 0 then With(s.(simulations := 1), i, Other(Simulated, OStart)) else With(s, i, Simulator(MDone))
    case MDone => s
  }

  /** `flag` resolves what the environment decides: whether the policies found at this moment deny. */
  function SubmitterStep(s: State, i: nat, chain: seq<Stage>, at: SubmitterAt, flag: bool): State
    requires i < |s.procs|
  {
    match at
    case UStart => With(s, i, Submitter(chain, if s.status == Simulated && ValidChain(chain) then USeen else UDone))
    case USeen =>
      if flag then With(s.(denied := true), i, Other(Rejected, OStart))
      else With(s.(passes := s.passes + 1), i, Submitter(chain, UOpening))
    case UOpening =>
      if s.row.Some? || !ValidChain(chain) then With(s, i, Submitter(chain, UDone))
      else With(s.(stages := chain, row := Some(Row(Ledger.Pending, 0, 0))), i, Other(PendingApproval, OStart))
    case UDone => s
  }

  /** Statuses that a call changes with no other row of the intent. */
  predicate ChangedAlone(s: Status) {
    s.Proposed? || s.RollbackPending? || s.RolledBack? || s.RollbackFailed?
  }

  datatype Action =
    | SpawnSimulator
    | SpawnSubmitter(chain: seq<Stage>)
    | SpawnReviewer(user: int, verdict: Ledger.Verdict)
    | SpawnRequester
    | SpawnDelivery
    | SpawnOther(target: Status)
    | Act(proc: nat, flag: bool)

  predicate WellFormed(s: State) {
    s.row.Some? ==> |s.stages| > 0
  }

  function Step(s: State, a: Action): (t: State)
    requires WellFormed(s)
    ensures WellFormed(t)
  {
    match a
    case SpawnSimulator => s.(procs := s.procs + [Simulator(MStart)])
    case SpawnSubmitter(chain) => s.(procs := s.procs + [Submitter(chain, UStart)])
    case SpawnReviewer(user, verdict) => s.(procs := s.procs + [Reviewer(user, verdict, RStart)])
    case SpawnRequester => s.(procs := s.procs + [Requester(QStart)])
    case SpawnDelivery => if !s.enqueued then s else s.(procs := s.procs + [Delivery(DStart)])
    case SpawnOther(target) =>
      if !ChangedAlone(target) then s else s.(procs := s.procs + [Other(target, OStart)])
    case Act(i, flag) =>
      if i >= |s.procs| then s
      else match s.procs[i]
        case Reviewer(user, verdict, at) => ReviewerStep(s, i, user, verdict, at, flag)
        case Requester(at) => RequesterStep(s, i, at)
        case Delivery(at) => DeliveryStep(s, i, at, flag)
        case Simulator(at) => SimulatorStep(s, i, at, flag)
        case Submitter(chain, at) => SubmitterStep(s, i, chain, at, flag)
        case Other(target, at) => OtherStep(s, i, target, at)
  }

  function Run(s: State, actions: seq<Action>): (t: State)
    requires WellFormed(s)
    ensures WellFormed(t)
  {
    if actions == [] then s else Step(Run(s, actions[..|actions| - 1]), actions[|actions| - 1])
  }

  lemma {:induction false} RunOneMore(s: State, before: seq<Action>, a: Action)
    requires WellFormed(s)
    ensures Run(s, before + [a]) == Step(Run(s, before), a)
  {
    assert (before + [a])[..|before|] == before;
  }

  lemma {:induction false} RunConcat(s: State, a: seq<Action>, b: seq<Action>)
    requires WellFormed(s)
    ensures Run(s, a + b) == Run(Run(s, a), b)
  {
    if b == [] {
      assert a + b == a;
    } else {
      var rest := b[..|b| - 1];
      assert (a + b)[..|a + b| - 1] == a + rest;
      RunConcat(s, a, rest);
    }
  }

  // ----- No clearance without approvals -----

  /** The first `k` stages hold at least the approvals they ask for. */
  ghost predicate Satisfied(stages: seq<Stage>, ds: seq<Ledger.Decision>, k: nat) {
    forall j :: 0 <= j < k && j < |stages| ==> Ledger.Approvals(ds, j) >= stages[j].requiredCount
  }

  /** There is a request and every stage of its chain holds its approvals. */
  ghost predicate AllStages(s: State) {
    s.row.Some? && Satisfied(s.stages, s.decisions, |s.stages|)
  }

  /** `few` records no more approvals for any stage than `many`. */
  ghost predicate AtMostAs(few: seq<Ledger.Decision>, many: seq<Ledger.Decision>) {
    forall j :: Ledger.Approvals(few, j) <= Ledger.Approvals(many, j)
  }

  /** What a reviewer's request may rely on, however stale its reads. */
  ghost predicate ReviewerOk(s: State, verdict: Ledger.Verdict, at: ReviewerAt) {
    match at
    case RSeen(snap) => SnapshotOk(s, snap)
    case RCleared(snap) => SnapshotOk(s, snap)
    case RRecorded(snap) => SnapshotOk(s, snap) && (verdict == Ledger.Approve ==> OwnCounted(s, snap))
    case RMoving(target) => s.row.Some? && (Cleared(target) ==> AllStages(s))
    case RWriting(target) => s.row.Some? && (Cleared(target) ==> AllStages(s))
    case _ => true
  }

  ghost predicate SnapshotOk(s: State, snap: Snapshot) {
    && s.row.Some?
    && snap.stageIndex < |s.stages|
    && Satisfied(s.stages, s.decisions, snap.stageIndex)
    && AtMostAs(snap.decisions, s.decisions)
  }

  ghost predicate OwnCounted(s: State, snap: Snapshot) {
    Ledger.Approvals(snap.decisions, snap.stageIndex) + 1 <= Ledger.Approvals(s.decisions, snap.stageIndex)
  }

  ghost predicate ProcOk(s: State, p: Proc) {
    match p
    case Reviewer(_, verdict, at) => ReviewerOk(s, verdict, at)
    case Requester(at) => at == QWriting ==> AllStages(s)
    case Delivery(at) => !(at.DStart? || at.DMarked? || at.DDone?) ==> AllStages(s)
    case Simulator(_) => true
    case Submitter(_, at) => (at.USeen? || at.UOpening? ==> s.simulations > 0) && (at.UOpening? ==> s.passes > 0)
    case Other(target, at) =>
      && WrittenElsewhere(target)
      && (!ChangedAlone(target) ==> s.simulations > 0)
      && (at == OWriting ==> (target.Proposed? || s.simulations > 0) && (Cleared(target) ==> AllStages(s)))
  }

  /** Before any simulation can have been recorded. */
  predicate Unsimulated(s: Status) {
    s.Draft? || s.Proposed?
  }

  /** A status has the rows behind it that it needs. */
  ghost predicate StatusOk(s: State, status: Status) {
    (Unsimulated(status) || s.simulations > 0) && (Cleared(status) ==> AllStages(s))
  }

  ghost predicate RowOk(s: State) {
    s.row.Some? ==>
      && |s.stages| > 0
      && s.simulations > 0
      && s.passes > 0
      && Satisfied(s.stages, s.decisions, Ledger.Clamp(s.row.value.currentStageIndex, |s.stages|))
  }

  ghost predicate Approvable(s: State) {
    && RowOk(s)
    && StatusOk(s, s.status)
    && (s.calls > 0 ==> AllStages(s))
    && forall i :: 0 <= i < |s.procs| ==> ProcOk(s, s.procs[i])
  }

  /** Recorded approvals only grow and the chain is fixed once opened: what was satisfied stays so. */
  ghost predicate Grows(s: State, t: State) {
    && (s.row.Some? ==> t.row.Some? && t.stages == s.stages)
    && AtMostAs(s.decisions, t.decisions)
    && s.simulations <= t.simulations
    && s.passes <= t.passes
  }

  lemma {:induction false} GrowthKeepsProcs(s: State, t: State, p: Proc)
    requires Grows(s, t) && ProcOk(s, p)
    ensures ProcOk(t, p)
    ensures AllStages(s) ==> AllStages(t)
  {
  }

  lemma {:induction false} AppendGrows(ds: seq<Ledger.Decision>, d: Ledger.Decision)
    ensures AtMostAs(ds, ds) && AtMostAs(ds, ds + [d])
    ensures forall j :: Ledger.Approvals(ds + [d], j)
              == Ledger.Approvals(ds, j) + (if d.verdict == Ledger.Approve && Ledger.StageOf(d) == j then 1 else 0)
  {
    forall j ensures Ledger.Approvals(ds + [d], j)
              == Ledger.Approvals(ds, j) + (if d.verdict == Ledger.Approve && Ledger.StageOf(d) == j then 1 else 0)
    {
      Ledger.CountsAfter(ds, d, j);
    }
  }

  /** One process moved and the others kept still: enough to look at the one. */
  lemma {:induction false} OneMoved(s: State, t: State, i: nat, p: Proc)
    requires Approvable(s) && Grows(s, t) && i < |s.procs| && t.procs == s.procs[i := p]
    requires ProcOk(t, p) && RowOk(t)
    requires StatusOk(t, t.status)
    requires t.calls > 0 ==> AllStages(t)
    ensures Approvable(t)
  {
    forall k | 0 <= k < |t.procs| ensures ProcOk(t, t.procs[k]) {
      if k != i {
        GrowthKeepsProcs(s, t, s.procs[k]);
      }
    }
  }

  /** Inserting the decision: what the snapshot held plus this approval is now on record. */
  lemma {:induction false} InsertKeepsApprovable(s: State, i: nat, user: int, verdict: Ledger.Verdict, snap: Snapshot, flag: bool)
    requires Approvable(s) && i < |s.procs| && s.procs[i] == Reviewer(user, verdict, RCleared(snap))
    ensures Approvable(ReviewerStep(s, i, user, verdict, RCleared(snap), flag))
  {
    var t := ReviewerStep(s, i, user, verdict, RCleared(snap), flag);
    assert ProcOk(s, s.procs[i]);
    AppendGrows(s.decisions, Ledger.Decision(user, verdict, Some(snap.stageIndex), s.stages[snap.stageIndex].name));
    assert Grows(s, t);
    GrowthKeepsProcs(s, t, s.procs[i]);
    assert Ledger.Approvals(snap.decisions, snap.stageIndex) <= Ledger.Approvals(s.decisions, snap.stageIndex);
    OneMoved(s, t, i, t.procs[i]);
  }

  lemma {:induction false} SatisfiedNext(stages: seq<Stage>, ds: seq<Ledger.Decision>, k: nat)
    requires Satisfied(stages, ds, k) && k < |stages|
    requires Ledger.Approvals(ds, k) >= stages[k].requiredCount
    ensures Satisfied(stages, ds, k + 1)
  {
  }

  /** Overwriting the row from a stale snapshot: the index written has only satisfied stages before it. */
  lemma {:induction false} OverwriteKeepsApprovable(s: State, i: nat, user: int, verdict: Ledger.Verdict, snap: Snapshot, flag: bool)
    requires Approvable(s) && i < |s.procs| && s.procs[i] == Reviewer(user, verdict, RRecorded(snap))
    ensures Approvable(ReviewerStep(s, i, user, verdict, RRecorded(snap), flag))
  {
    var t := ReviewerStep(s, i, user, verdict, RRecorded(snap), flag);
    assert ProcOk(s, s.procs[i]);
    NothingRecorded(s.decisions);
    if verdict == Ledger.Approve
       && Ledger.Approvals(snap.decisions, snap.stageIndex) + 1 >= s.stages[snap.stageIndex].requiredCount {
      SatisfiedNext(s.stages, s.decisions, snap.stageIndex);
    }
    OneMoved(s, t, i, t.procs[i]);
  }

  lemma {:induction false} NothingRecorded(ds: seq<Ledger.Decision>)
    ensures AtMostAs(ds, ds)
  {
  }

  /** A process that writes no more than the status. */
  lemma {:induction false} StatusWritten(s: State, i: nat, p: Proc, status: Status)
    requires Approvable(s) && i < |s.procs| && ProcOk(s, p)
    requires StatusOk(s, status)
    ensures Approvable(With(s.(status := status), i, p))
  {
    var t := With(s.(status := status), i, p);
    NothingRecorded(s.decisions);
    GrowthKeepsProcs(s, t, p);
    OneMoved(s, t, i, p);
  }

  lemma {:induction false} ReadKeepsApprovable(s: State, i: nat, user: int, verdict: Ledger.Verdict, at: ReviewerAt, flag: bool)
    requires Approvable(s) && i < |s.procs| && s.procs[i] == Reviewer(user, verdict, at)
    requires at.RStart? || at.RSeen?
    ensures Approvable(ReviewerStep(s, i, user, verdict, at, flag))
  {
    assert ProcOk(s, s.procs[i]);
    NothingRecorded(s.decisions);
    var p := ReviewerStep(s, i, user, verdict, at, flag).procs[i];
    StatusWritten(s, i, p, s.status);
  }

  lemma {:induction false} MoveKeepsApprovable(s: State, i: nat, user: int, verdict: Ledger.Verdict, target: Status, flag: bool)
    requires Approvable(s) && i < |s.procs| && s.procs[i] == Reviewer(user, verdict, RMoving(target))
    ensures Approvable(ReviewerStep(s, i, user, verdict, RMoving(target), flag))
  {
    assert ProcOk(s, s.procs[i]);
    StatusWritten(s, i, Reviewer(user, verdict, if IsValidTransition(s.status, target) then RWriting(target) else RDone), s.status);
  }

  lemma {:induction false} WriteKeepsApprovable(s: State, i: nat, user: int, verdict: Ledger.Verdict, target: Status, flag: bool)
    requires Approvable(s) && i < |s.procs| && s.procs[i] == Reviewer(user, verdict, RWriting(target))
    ensures Approvable(ReviewerStep(s, i, user, verdict, RWriting(target), flag))
  {
    assert ProcOk(s, s.procs[i]);
    StatusWritten(s, i, Reviewer(user, verdict, RDone), target);
  }

  lemma {:induction false} ReviewerKeepsApprovable(s: State, i: nat, user: int, verdict: Ledger.Verdict, at: ReviewerAt, flag: bool)
    requires Approvable(s) && i < |s.procs| && s.procs[i] == Reviewer(user, verdict, at)
    ensures Approvable(ReviewerStep(s, i, user, verdict, at, flag))
  {
    match at
    case RCleared(snap) => InsertKeepsApprovable(s, i, user, verdict, snap, flag);
    case RRecorded(snap) => OverwriteKeepsApprovable(s, i, user, verdict, snap, flag);
    case RStart => ReadKeepsApprovable(s, i, user, verdict, at, flag);
    case RSeen(_) => ReadKeepsApprovable(s, i, user, verdict, at, flag);
    case RMoving(target) => MoveKeepsApprovable(s, i, user, verdict, target, flag);
    case RWriting(target) => WriteKeepsApprovable(s, i, user, verdict, target, flag);
    case RDone =>
  }

  lemma {:induction false} RequesterKeepsApprovable(s: State, i: nat, at: RequesterAt)
    requires Approvable(s) && i < |s.procs| && s.procs[i] == Requester(at)
    ensures Approvable(RequesterStep(s, i, at))
  {
    assert ProcOk(s, s.procs[i]);
    match at
    case QSawNoJob => JobWritten(s, i, Requester(if s.job.Some? then QDone else QCreated), if s.job.Some? then s.job else Some(JobQueued), s.calls);
    case QWriting => StatusWritten(s, i, Requester(QMoved), Queued);
    case QMoved =>
      JobWritten(s, i, Requester(QDone), s.job, s.calls);
      EnqueueKeepsApprovable(With(s, i, Requester(QDone)));
    case QDone =>
    case _ => StatusWritten(s, i, RequesterStep(s, i, at).procs[i], s.status);
  }

  /** A process that writes no more than the job row, or calls the connector. */
  lemma {:induction false} JobWritten(s: State, i: nat, p: Proc, job: Option<JobStatus>, calls: nat)
    requires Approvable(s) && i < |s.procs| && ProcOk(s, p)
    requires calls > 0 ==> AllStages(s)
    ensures Approvable(With(s.(job := job, calls := calls), i, p))
  {
    var t := With(s.(job := job, calls := calls), i, p);
    NothingRecorded(s.decisions);
    GrowthKeepsProcs(s, t, p);
    OneMoved(s, t, i, p);
  }

  lemma {:induction false} EnqueueKeepsApprovable(s: State)
    requires Approvable(s)
    ensures Approvable(s.(enqueued := true))
  {
    var t := s.(enqueued := true);
    NothingRecorded(s.decisions);
    forall k | 0 <= k < |t.procs| ensures ProcOk(t, t.procs[k]) {
      GrowthKeepsProcs(s, t, s.procs[k]);
    }
  }

  lemma {:induction false} DeliveryKeepsApprovable(s: State, i: nat, at: DeliveryAt, flag: bool)
    requires Approvable(s) && i < |s.procs| && s.procs[i] == Delivery(at)
    ensures Approvable(DeliveryStep(s, i, at, flag))
  {
    assert ProcOk(s, s.procs[i]);
    match at
    case DStart => JobWritten(s, i, Delivery(DMarked), Some(JobProcessing), s.calls);
    case DWriting => StatusWritten(s, i, Delivery(DReady), Executing);
    case DReady => JobWritten(s, i, Delivery(DReturned(flag)), s.job, s.calls + 1);
    case DReturned(returned) =>
      JobWritten(s, i, Delivery(DSettling(if returned then Succeeded else Failed)),
                 Some(if returned then JobCompleted else JobFailed), s.calls);
    case DSettleWriting(target) => StatusWritten(s, i, Delivery(DDone), target);
    case DMarked => StatusWritten(s, i, Delivery(if IsValidTransition(s.status, Executing) then DWriting else DDone), s.status);
    case DSettling(target) =>
      StatusWritten(s, i, Delivery(if IsValidTransition(s.status, target) then DSettleWriting(target)
                                   else if target == Succeeded then DReturned(false) else DDone), s.status);
    case DDone =>
  }

  lemma {:induction false} OtherKeepsApprovable(s: State, i: nat, target: Status, at: OtherAt)
    requires Approvable(s) && i < |s.procs| && s.procs[i] == Other(target, at)
    ensures Approvable(OtherStep(s, i, target, at))
  {
    assert ProcOk(s, s.procs[i]);
    match at
    case OStart => StatusWritten(s, i, Other(target, if IsValidTransition(s.status, target) then OWriting else ODone), s.status);
    case OWriting => StatusWritten(s, i, Other(target, ODone), target);
    case ODone =>
  }

  lemma {:induction false} SimulatorKeepsApprovable(s: State, i: nat, at: SimulatorAt, flag: bool)
    requires Approvable(s) && i < |s.procs| && s.procs[i] == Simulator(at)
    ensures Approvable(SimulatorStep(s, i, at, flag))
  {
    NothingRecorded(s.decisions);
    if at != MDone {
      var t := SimulatorStep(s, i, at, flag);
      OneMoved(s, t, i, t.procs[i]);
    }
  }

  lemma {:induction false} SubmitterKeepsApprovable(s: State, i: nat, chain: seq<Stage>, at: SubmitterAt, flag: bool)
    requires Approvable(s) && i < |s.procs| && s.procs[i] == Submitter(chain, at)
    ensures Approvable(SubmitterStep(s, i, chain, at, flag))
  {
    assert ProcOk(s, s.procs[i]);
    NothingRecorded(s.decisions);
    if at != UDone {
      var t := SubmitterStep(s, i, chain, at, flag);
      OneMoved(s, t, i, t.procs[i]);
    }
  }

  lemma {:induction false} SpawnKeepsApprovable(s: State, p: Proc)
    requires Approvable(s)
    requires forall t {:trigger ProcOk(t, p)} :: ProcOk(t, p)
    ensures Approvable(s.(procs := s.procs + [p]))
  {
    var t := s.(procs := s.procs + [p]);
    NothingRecorded(s.decisions);
    forall k | 0 <= k < |t.procs| ensures ProcOk(t, t.procs[k]) {
      if k < |s.procs| {
        GrowthKeepsProcs(s, t, s.procs[k]);
      }
    }
  }

  lemma {:induction false} StepKeepsApprovable(s: State, a: Action)
    requires Approvable(s)
    ensures Approvable(Step(s, a))
  {
    match a
    case Act(i, flag) =>
      if i < |s.procs| {
        match s.procs[i]
        case Reviewer(user, verdict, at) => ReviewerKeepsApprovable(s, i, user, verdict, at, flag);
        case Requester(at) => RequesterKeepsApprovable(s, i, at);
        case Delivery(at) => DeliveryKeepsApprovable(s, i, at, flag);
        case Simulator(at) => SimulatorKeepsApprovable(s, i, at, flag);
        case Submitter(chain, at) => SubmitterKeepsApprovable(s, i, chain, at, flag);
        case Other(target, at) => OtherKeepsApprovable(s, i, target, at);
      }
    case SpawnSimulator => SpawnKeepsApprovable(s, Simulator(MStart));
    case SpawnSubmitter(chain) => SpawnKeepsApprovable(s, Submitter(chain, UStart));
    case SpawnReviewer(user, verdict) => SpawnKeepsApprovable(s, Reviewer(user, verdict, RStart));
    case SpawnRequester => SpawnKeepsApprovable(s, Requester(QStart));
    case SpawnDelivery => SpawnKeepsApprovable(s, Delivery(DStart));
    case SpawnOther(target) =>
      if ChangedAlone(target) {
        SpawnKeepsApprovable(s, Other(target, OStart));
      }
  }

  lemma {:induction false} RunKeepsApprovable(actions: seq<Action>)
    ensures Approvable(Run(INIT, actions))
  {
    if actions != [] {
      RunKeepsApprovable(actions[..|actions| - 1]);
      StepKeepsApprovable(Run(INIT, actions[..|actions| - 1]), actions[|actions| - 1]);
    }
  }

  /**
   * Under every interleaving, with no atomicity between a service's reads and writes: an intent
   * is approved, or anything beyond, and its connector has been called, only when it has been
   * simulated, some evaluation of the policies that denied nothing is on record, and every stage of
   * its chain already holds at least the approvals it asks for.
   */
  lemma {:induction false} NoClearanceWithoutApprovals(actions: seq<Action>)
    ensures var s := Run(INIT, actions);
            (Cleared(s.status) || s.calls > 0 ==>
              && s.simulations > 0 && s.passes > 0
              && s.row.Some?
              && forall j :: 0 <= j < |s.stages| ==> Ledger.Approvals(s.decisions, j) >= s.stages[j].requiredCount)
  {
    RunKeepsApprovable(actions);
  }
}
