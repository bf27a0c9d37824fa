/** Stretches of the interleaved protocol in which one process runs on alone, from any state. */
module Walks {
  import opened Prelude
  import opened IntentStates
  import opened ApprovalStages
  import opened Interleaving
  import Ledger = ApprovalLedger

  // ----- Reaching -----

  ghost predicate Leads(o: State, more: seq<Action>, s: State) {
    WellFormed(o) && Run(o, more) == s
  }

  /** Some continuation of the run that is in state `o` comes to be in state `s`. */
  ghost predicate Reaches(o: State, s: State) {
    WellFormed(o) && WellFormed(s) && exists more {:trigger Leads(o, more, s)} :: Leads(o, more, s)
  }

  lemma {:induction false} ReachesItself(o: State)
    requires WellFormed(o)
    ensures Reaches(o, o)
  {
    assert Leads(o, [], o);
  }

  lemma {:induction false} Go(o: State, s: State, a: Action, t: State)
    requires Reaches(o, s) && Step(s, a) == t
    ensures Reaches(o, t)
  {
    var more :| Leads(o, more, s);
    RunOneMore(o, more, a);
    assert Leads(o, more + [a], t);
  }

  lemma {:induction false} ReachesOn(o: State, s: State, t: State)
    requires Reaches(o, s) && Reaches(s, t)
    ensures Reaches(o, t)
  {
    var a :| Leads(o, a, s);
    var b :| Leads(s, b, t);
    RunConcat(o, a, b);
    assert Leads(o, a + b, t);
  }

  lemma {:induction false} RunStaysApprovable(o: State, more: seq<Action>)
    requires WellFormed(o) && Approvable(o)
    ensures Approvable(Run(o, more))
  {
    if more != [] {
      RunStaysApprovable(o, more[..|more| - 1]);
      StepKeepsApprovable(Run(o, more[..|more| - 1]), more[|more| - 1]);
    }
  }

  lemma {:induction false} ReachesApprovable(o: State, s: State)
    requires Approvable(o) && Reaches(o, s)
    ensures Approvable(s)
  {
    var more :| Leads(o, more, s);
    RunStaysApprovable(o, more);
  }

  // ----- One step of one process -----

  lemma {:induction false} ReviewerGoes(o: State, s: State, i: nat, user: int, verdict: Ledger.Verdict, at: ReviewerAt, t: State)
    requires Reaches(o, s) && i < |s.procs| && s.procs[i] == Reviewer(user, verdict, at)
    requires ReviewerStep(s, i, user, verdict, at, true) == t
    ensures Reaches(o, t)
  {
    Go(o, s, Act(i, true), t);
  }

  lemma {:induction false} RequesterGoes(o: State, s: State, i: nat, at: RequesterAt, t: State)
    requires Reaches(o, s) && i < |s.procs| && s.procs[i] == Requester(at) && RequesterStep(s, i, at) == t
    ensures Reaches(o, t)
  {
    Go(o, s, Act(i, true), t);
  }

  lemma {:induction false} DeliveryGoes(o: State, s: State, i: nat, at: DeliveryAt, t: State)
    requires Reaches(o, s) && i < |s.procs| && s.procs[i] == Delivery(at) && DeliveryStep(s, i, at, true) == t
    ensures Reaches(o, t)
  {
    Go(o, s, Act(i, true), t);
  }

  lemma {:induction false} SimulatorGoes(o: State, s: State, i: nat, at: SimulatorAt, t: State)
    requires Reaches(o, s) && i < |s.procs| && s.procs[i] == Simulator(at) && SimulatorStep(s, i, at, true) == t
    ensures Reaches(o, t)
  {
    Go(o, s, Act(i, true), t);
  }

  lemma {:induction false} SubmitterGoes(o: State, s: State, i: nat, chain: seq<Stage>, at: SubmitterAt, denies: bool, t: State)
    requires Reaches(o, s) && i < |s.procs| && s.procs[i] == Submitter(chain, at) && SubmitterStep(s, i, chain, at, denies) == t
    ensures Reaches(o, t)
  {
    Go(o, s, Act(i, denies), t);
  }

  lemma {:induction false} OtherGoes(o: State, s: State, i: nat, target: Status, at: OtherAt, t: State)
    requires Reaches(o, s) && i < |s.procs| && s.procs[i] == Other(target, at) && OtherStep(s, i, target, at) == t
    ensures Reaches(o, t)
  {
    Go(o, s, Act(i, true), t);
  }

  function Joined(s: State, p: Proc): State {
    s.(procs := s.procs + [p])
  }

  predicate Begins(s: State, p: Proc) {
    match p
    case Reviewer(_, _, at) => at.RStart?
    case Requester(at) => at.QStart?
    case Delivery(at) => at.DStart? && s.enqueued
    case Simulator(at) => at.MStart?
    case Submitter(_, at) => at.UStart?
    case Other(target, at) => at.OStart? && ChangedAlone(target)
  }

  lemma {:induction false} Joins(o: State, s: State, p: Proc)
    requires Reaches(o, s) && Begins(s, p)
    ensures Reaches(o, Joined(s, p))
  {
    match p
    case Reviewer(user, verdict, _) => Go(o, s, SpawnReviewer(user, verdict), Joined(s, p));
    case Requester(_) => Go(o, s, SpawnRequester, Joined(s, p));
    case Delivery(_) => Go(o, s, SpawnDelivery, Joined(s, p));
    case Simulator(_) => Go(o, s, SpawnSimulator, Joined(s, p));
    case Submitter(chain, _) => Go(o, s, SpawnSubmitter(chain), Joined(s, p));
    case Other(target, _) => Go(o, s, SpawnOther(target), Joined(s, p));
  }

  // ----- Status changes, simulations, submissions -----

  /** The two steps of a status change with nothing in between. */
  lemma {:induction false} Changes(o: State, s: State, i: nat, target: Status)
    requires Reaches(o, s) && i < |s.procs| && s.procs[i] == Other(target, OStart) && IsValidTransition(s.status, target)
    ensures Reaches(o, With(s, i, Other(target, ODone)).(status := target))
  {
    var s1 := With(s, i, Other(target, OWriting));
    OtherGoes(o, s, i, target, OStart, s1);
    assert With(s1.(status := target), i, Other(target, ODone)) == With(s, i, Other(target, ODone)).(status := target);
    OtherGoes(o, s1, i, target, OWriting, With(s, i, Other(target, ODone)).(status := target));
  }

  lemma {:induction false} Proposes(o: State, s: State)
    requires Reaches(o, s) && s.status == Draft
    ensures Reaches(o, Joined(s, Other(Proposed, ODone)).(status := Proposed))
  {
    var s1 := Joined(s, Other(Proposed, OStart));
    Joins(o, s, Other(Proposed, OStart));
    Changes(o, s1, |s.procs|, Proposed);
    assert With(s1, |s.procs|, Other(Proposed, ODone)) == Joined(s, Other(Proposed, ODone));
  }

  lemma {:induction false} SimulationRecorded(o: State, s: State)
    requires Reaches(o, s) && s.status == Proposed && s.simulations == 0
    ensures Reaches(o, Joined(s, Other(Simulated, OStart)).(simulations := 1))
  {
    var i := |s.procs|;
    var s1, s2 := Joined(s, Simulator(MStart)), Joined(s, Simulator(MSeen));
    Joins(o, s, Simulator(MStart));
    assert With(s1, i, Simulator(MSeen)) == s2;
    SimulatorGoes(o, s1, i, MStart, s2);
    var s3 := Joined(s, Other(Simulated, OStart)).(simulations := 1);
    assert With(s2.(simulations := 1), i, Other(Simulated, OStart)) == s3;
    SimulatorGoes(o, s2, i, MSeen, s3);
  }

  lemma {:induction false} Simulates(o: State, s: State)
    requires Reaches(o, s) && s.status == Proposed && s.simulations == 0
    ensures Reaches(o, Joined(s, Other(Simulated, ODone)).(status := Simulated, simulations := 1))
  {
    SimulationRecorded(o, s);
    var t := Joined(s, Other(Simulated, OStart)).(simulations := 1);
    Changes(o, t, |s.procs|, Simulated);
    assert With(t, |s.procs|, Other(Simulated, ODone)) == Joined(s, Other(Simulated, ODone)).(simulations := 1);
  }

  /** A submission that has read the status. */
  lemma {:induction false} Submits(o: State, s: State, chain: seq<Stage>)
    requires Reaches(o, s) && s.status == Simulated && ValidChain(chain)
    ensures Reaches(o, Joined(s, Submitter(chain, USeen)))
  {
    var s1 := Joined(s, Submitter(chain, UStart));
    Joins(o, s, Submitter(chain, UStart));
    assert With(s1, |s.procs|, Submitter(chain, USeen)) == Joined(s, Submitter(chain, USeen));
    SubmitterGoes(o, s1, |s.procs|, chain, UStart, true, Joined(s, Submitter(chain, USeen)));
  }

  /** What a submission that is not denied leaves before it changes the status. */
  function Opened(s: State, i: nat, chain: seq<Stage>): State
    requires i < |s.procs|
  {
    With(s.(passes := s.passes + 1, stages := chain, row := Some(Row(Ledger.Pending, 0, 0))), i, Other(PendingApproval, OStart))
  }

  lemma {:induction false} Opens(o: State, s: State, i: nat, chain: seq<Stage>)
    requires Reaches(o, s) && i < |s.procs| && s.procs[i] == Submitter(chain, USeen) && ValidChain(chain) && s.row.None?
    ensures Reaches(o, Opened(s, i, chain))
  {
    var s1 := With(s.(passes := s.passes + 1), i, Submitter(chain, UOpening));
    SubmitterGoes(o, s, i, chain, USeen, false, s1);
    assert s1.procs[i := Other(PendingApproval, OStart)] == s.procs[i := Other(PendingApproval, OStart)];
    SubmitterGoes(o, s1, i, chain, UOpening, false, Opened(s, i, chain));
  }

  // ----- Reviews -----

  function SeenBy(s: State): Snapshot
    requires s.row.Some? && |s.stages| > 0
  {
    Snapshot(s.row.value.currentCount, Ledger.Clamp(s.row.value.currentStageIndex, |s.stages|), s.decisions)
  }

  /** A reviewer's request up to the point where it has read everything it bases its writes on. */
  lemma {:induction false} Reads(o: State, s: State, user: int, verdict: Ledger.Verdict)
    requires Reaches(o, s) && s.row.Some? && s.row.value.status == Ledger.Pending
    requires !Ledger.HasDecided(s.decisions, user)
    ensures Reaches(o, Joined(s, Reviewer(user, verdict, RCleared(SeenBy(s)))))
  {
    var i := |s.procs|;
    var s1, s2 := Joined(s, Reviewer(user, verdict, RStart)), Joined(s, Reviewer(user, verdict, RSeen(SeenBy(s))));
    Joins(o, s, Reviewer(user, verdict, RStart));
    assert With(s1, i, Reviewer(user, verdict, RSeen(SeenBy(s)))) == s2;
    ReviewerGoes(o, s1, i, user, verdict, RStart, s2);
    var s3 := Joined(s, Reviewer(user, verdict, RCleared(SeenBy(s))));
    assert With(s2, i, Reviewer(user, verdict, RCleared(SeenBy(s)))) == s3;
    ReviewerGoes(o, s2, i, user, verdict, RSeen(SeenBy(s)), s3);
  }

  /** An approval counted for the stage that was read, and whether it fills that stage. */
  function Vote(s: State, user: int, k: nat): Ledger.Decision
    requires k < |s.stages|
  {
    Ledger.Decision(user, Ledger.Approve, Some(k), s.stages[k].name)
  }

  predicate Fills(s: State, snap: Snapshot)
    requires snap.stageIndex < |s.stages|
  {
    Ledger.Approvals(snap.decisions, snap.stageIndex) + 1 >= s.stages[snap.stageIndex].requiredCount
  }

  function RowWritten(s: State, snap: Snapshot): Row
    requires snap.stageIndex < |s.stages|
  {
    var last := snap.stageIndex == |s.stages| - 1;
    Row(if Fills(s, snap) && last then Ledger.Approved else Ledger.Pending,
        Ledger.ApprovedCount(snap.decisions) + 1,
        if Fills(s, snap) && !last then snap.stageIndex + 1 else snap.stageIndex)
  }

  function AfterWrite(s: State, user: int, snap: Snapshot): Proc
    requires snap.stageIndex < |s.stages|
  {
    Reviewer(user, Ledger.Approve, if Fills(s, snap) && snap.stageIndex == |s.stages| - 1 then RMoving(Approved) else RDone)
  }

  function Overwritten(s: State, i: nat, user: int, snap: Snapshot): State
    requires i < |s.procs| && snap.stageIndex < |s.stages|
  {
    With(s.(row := Some(RowWritten(s, snap))), i, AfterWrite(s, user, snap))
  }

  lemma {:induction false} OverwritesAlone(s: State, i: nat, user: int, snap: Snapshot)
    requires s.row.Some? && snap.stageIndex < |s.stages| && i < |s.procs|
    ensures ReviewerStep(s, i, user, Ledger.Approve, RRecorded(snap), true) == Overwritten(s, i, user, snap)
  {
  }

  lemma {:induction false} Overwrites(o: State, s: State, i: nat, user: int, snap: Snapshot)
    requires Reaches(o, s) && s.row.Some? && snap.stageIndex < |s.stages|
    requires i < |s.procs| && s.procs[i] == Reviewer(user, Ledger.Approve, RRecorded(snap))
    ensures Reaches(o, Overwritten(s, i, user, snap))
  {
    OverwritesAlone(s, i, user, snap);
    ReviewerGoes(o, s, i, user, Ledger.Approve, RRecorded(snap), Overwritten(s, i, user, snap));
  }

  function Inserted(s: State, i: nat, user: int, snap: Snapshot): State
    requires i < |s.procs| && snap.stageIndex < |s.stages|
  {
    With(s.(decisions := s.decisions + [Vote(s, user, snap.stageIndex)]), i, Reviewer(user, Ledger.Approve, RRecorded(snap)))
  }

  lemma {:induction false} Inserts(o: State, s: State, i: nat, user: int, snap: Snapshot)
    requires Reaches(o, s) && snap.stageIndex < |s.stages|
    requires i < |s.procs| && s.procs[i] == Reviewer(user, Ledger.Approve, RCleared(snap))
    ensures Reaches(o, Inserted(s, i, user, snap))
  {
    ReviewerGoes(o, s, i, user, Ledger.Approve, RCleared(snap), Inserted(s, i, user, snap));
  }

  /** The rest of an approving request: the decision is inserted and the row overwritten from what was read. */
  function Wrote(s: State, i: nat, user: int, snap: Snapshot): State
    requires i < |s.procs| && snap.stageIndex < |s.stages|
  {
    With(s.(decisions := s.decisions + [Vote(s, user, snap.stageIndex)], row := Some(RowWritten(s, snap))), i, AfterWrite(s, user, snap))
  }

  lemma {:induction false} Writes(o: State, s: State, i: nat, user: int, snap: Snapshot)
    requires Reaches(o, s) && s.row.Some? && snap.stageIndex < |s.stages|
    requires i < |s.procs| && s.procs[i] == Reviewer(user, Ledger.Approve, RCleared(snap))
    ensures Reaches(o, Wrote(s, i, user, snap))
  {
    var t := Inserted(s, i, user, snap);
    Inserts(o, s, i, user, snap);
    Overwrites(o, t, i, user, snap);
    assert Fills(t, snap) == Fills(s, snap);
    assert t.procs[i := AfterWrite(s, user, snap)] == s.procs[i := AfterWrite(s, user, snap)];
    assert Overwritten(t, i, user, snap) == Wrote(s, i, user, snap);
  }

  lemma {:induction false} Approves(o: State, s: State, i: nat, user: int, verdict: Ledger.Verdict)
    requires Reaches(o, s) && s.status == PendingApproval
    requires i < |s.procs| && s.procs[i] == Reviewer(user, verdict, RMoving(Approved))
    ensures Reaches(o, With(s, i, Reviewer(user, verdict, RDone)).(status := Approved))
  {
    var s1 := With(s, i, Reviewer(user, verdict, RWriting(Approved)));
    ReviewerGoes(o, s, i, user, verdict, RMoving(Approved), s1);
    assert s1.procs[i := Reviewer(user, verdict, RDone)] == s.procs[i := Reviewer(user, verdict, RDone)];
    ReviewerGoes(o, s1, i, user, verdict, RWriting(Approved), With(s, i, Reviewer(user, verdict, RDone)).(status := Approved));
  }

  // ----- The queue -----

  /** The creator of the job queues the intent and hands the job to the queue. */
  lemma {:induction false} CreatorQueues(o: State, s: State, i: nat)
    requires Reaches(o, s) && i < |s.procs| && s.procs[i] == Requester(QWriting)
    ensures Reaches(o, With(s, i, Requester(QDone)).(status := Queued, enqueued := true))
  {
    var s1 := With(s, i, Requester(QMoved)).(status := Queued);
    RequesterGoes(o, s, i, QWriting, s1);
    assert s1.procs[i := Requester(QDone)] == s.procs[i := Requester(QDone)];
    RequesterGoes(o, s1, i, QMoved, With(s, i, Requester(QDone)).(status := Queued, enqueued := true));
  }

  lemma {:induction false} CreatorMoves(o: State, s: State, i: nat)
    requires Reaches(o, s) && i < |s.procs| && s.procs[i] == Requester(QCreated) && s.status == Approved
    ensures Reaches(o, With(s, i, Requester(QDone)).(status := Queued, enqueued := true))
  {
    var s1 := With(s, i, Requester(QWriting));
    RequesterGoes(o, s, i, QCreated, s1);
    CreatorQueues(o, s1, i);
    assert s1.procs[i := Requester(QDone)] == s.procs[i := Requester(QDone)];
  }

  lemma {:induction false} JobCreated(o: State, s: State)
    requires Reaches(o, s) && s.status == Approved && s.job.None?
    ensures Reaches(o, Joined(s, Requester(QCreated)).(job := Some(JobQueued)))
  {
    var i := |s.procs|;
    var s1, s2, s3 := Joined(s, Requester(QStart)), Joined(s, Requester(QSawApproved)), Joined(s, Requester(QSawNoJob));
    Joins(o, s, Requester(QStart));
    assert With(s1, i, Requester(QSawApproved)) == s2 && With(s2, i, Requester(QSawNoJob)) == s3;
    RequesterGoes(o, s1, i, QStart, s2);
    RequesterGoes(o, s2, i, QSawApproved, s3);
    var s4 := Joined(s, Requester(QCreated)).(job := Some(JobQueued));
    assert With(s3.(job := Some(JobQueued)), i, Requester(QCreated)) == s4;
    RequesterGoes(o, s3, i, QSawNoJob, s4);
  }

  lemma {:induction false} Queues(o: State, s: State)
    requires Reaches(o, s) && s.status == Approved && s.job.None?
    ensures Reaches(o, Joined(s, Requester(QDone)).(status := Queued, job := Some(JobQueued), enqueued := true))
  {
    var t := Joined(s, Requester(QCreated)).(job := Some(JobQueued));
    JobCreated(o, s);
    CreatorMoves(o, t, |s.procs|);
    assert With(t, |s.procs|, Requester(QDone)) == Joined(s, Requester(QDone)).(job := Some(JobQueued));
  }

  /** A delivery up to the point where it has read `Queued`. */
  lemma {:induction false} Claims(o: State, s: State)
    requires Reaches(o, s) && s.status == Queued && s.enqueued
    ensures Reaches(o, Joined(s, Delivery(DWriting)).(job := Some(JobProcessing)))
  {
    var i := |s.procs|;
    var s1, s2 := Joined(s, Delivery(DStart)), Joined(s, Delivery(DMarked)).(job := Some(JobProcessing));
    Joins(o, s, Delivery(DStart));
    assert With(s1.(job := Some(JobProcessing)), i, Delivery(DMarked)) == s2;
    DeliveryGoes(o, s1, i, DStart, s2);
    var s3 := Joined(s, Delivery(DWriting)).(job := Some(JobProcessing));
    assert With(s2, i, Delivery(DWriting)) == s3;
    DeliveryGoes(o, s2, i, DMarked, s3);
  }

  /** A claiming delivery overwrites the status, and then asks the connector. */
  lemma {:induction false} Calls(o: State, s: State, i: nat)
    requires Reaches(o, s) && i < |s.procs| && s.procs[i] == Delivery(DReady)
    ensures Reaches(o, With(s, i, Delivery(DReturned(true))).(calls := s.calls + 1))
  {
    DeliveryGoes(o, s, i, DReady, With(s, i, Delivery(DReturned(true))).(calls := s.calls + 1));
  }

  lemma {:induction false} ClaimCalls(o: State, s: State, i: nat)
    requires Reaches(o, s) && i < |s.procs| && s.procs[i] == Delivery(DWriting)
    ensures Reaches(o, With(s, i, Delivery(DReturned(true))).(status := Executing, calls := s.calls + 1))
  {
    var s1 := With(s, i, Delivery(DReady)).(status := Executing);
    DeliveryGoes(o, s, i, DWriting, s1);
    Calls(o, s1, i);
    assert s1.procs[i := Delivery(DReturned(true))] == s.procs[i := Delivery(DReturned(true))];
  }
}
