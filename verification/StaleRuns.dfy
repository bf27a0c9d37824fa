/** Runs that show what the interleaved protocol does not promise. */
module StaleRuns {
  import opened Prelude
  import opened IntentStates
  import opened ApprovalStages
  import opened Interleaving
  import opened Walks
  import opened Settlement
  import Ledger = ApprovalLedger

  ghost predicate Reachable(s: State) {
    Reaches(INIT, s)
  }

  /** A reachable state lies at the end of a run. */
  lemma {:induction false} RunTo(s: State) returns (run: seq<Action>)
    requires Reachable(s)
    ensures Run(INIT, run) == s
  {
    run :| Leads(INIT, run, s);
  }

  /** Simulated, and not submitted yet. */
  function Ready(): State {
    State(Simulated, 1, 0, false, [], None, [], None, false, 0, [Other(Proposed, ODone), Other(Simulated, ODone)])
  }

  /** One stage that asks for `n` approvals, submitted and waiting for reviewers. */
  function Waiting(n: nat): State {
    State(PendingApproval, 1, 1, false, [FallbackStage(n)], Some(Row(Ledger.Pending, 0, 0)), [], None, false, 0,
          [Other(Proposed, ODone), Other(Simulated, ODone), Other(PendingApproval, ODone)])
  }

  lemma {:induction false} ReadyIsReachable()
    ensures Reachable(Ready())
  {
    ReachesItself(INIT);
    Proposes(INIT, INIT);
    var proposed := Joined(INIT, Other(Proposed, ODone)).(status := Proposed);
    Simulates(INIT, proposed);
    assert Joined(proposed, Other(Simulated, ODone)).(status := Simulated, simulations := 1) == Ready();
  }

  lemma {:induction false} Submitted(n: nat)
    requires n >= 1
    ensures Reachable(Waiting(n))
  {
    var chain := [FallbackStage(n)];
    ReadyIsReachable();
    Submits(INIT, Ready(), chain);
    var seen := Joined(Ready(), Submitter(chain, USeen));
    Opens(INIT, seen, 2, chain);
    Changes(INIT, Opened(seen, 2, chain), 2, PendingApproval);
    assert With(Opened(seen, 2, chain), 2, Other(PendingApproval, ODone)).(status := PendingApproval) == Waiting(n);
  }

  function Ballot(user: int): Ledger.Decision {
    Ledger.Decision(user, Ledger.Approve, Some(0), "Final approval")
  }

  lemma {:induction false} BallotsCount(u: int)
    ensures Ledger.Approvals([Ballot(u)], 0) == 1 && Ledger.ApprovedCount([Ballot(u)]) == 1
    ensures Ledger.Approvals([], 0) == 0 && Ledger.ApprovedCount([]) == 0
  {
    assert [Ballot(u)][..0] == [];
  }

  /** A reviewer whose request has read everything it bases its writes on. */
  function Reader(user: int, count: int, seen: seq<Ledger.Decision>): Proc {
    Reviewer(user, Ledger.Approve, RCleared(Snapshot(count, 0, seen)))
  }

  /** Two reviewers have read the same empty ledger, the first of them now slow. */
  lemma {:induction false} BothHaveRead(u: int, v: int, n: nat) returns (s: State)
    requires n >= 1
    ensures Reachable(s) && s == Joined(Joined(Waiting(n), Reader(u, 0, [])), Reader(v, 0, []))
  {
    Submitted(n);
    Reads(INIT, Waiting(n), u, Ledger.Approve);
    s := Joined(Waiting(n), Reader(u, 0, []));
    Reads(INIT, s, v, Ledger.Approve);
    s := Joined(s, Reader(v, 0, []));
  }

  /** One of two approvals is written from an empty ledger. */
  lemma {:induction false} FirstOfTwo(s: State, i: nat, user: int) returns (t: State)
    requires Reachable(s) && s.stages == [FallbackStage(2)] && s.row.Some?
    requires i < |s.procs| && s.procs[i] == Reader(user, 0, [])
    ensures Reachable(t)
    ensures t == s.(decisions := s.decisions + [Ballot(user)], row := Some(Row(Ledger.Pending, 1, 0)),
                    procs := s.procs[i := Reviewer(user, Ledger.Approve, RDone)])
  {
    BallotsCount(user);
    Writes(INIT, s, i, user, Snapshot(0, 0, []));
    t := Wrote(s, i, user, Snapshot(0, 0, []));
  }

  /** The reviewer whose approval completes the stage of two. */
  lemma {:induction false} LastApproves(s: State, v: int, x: int) returns (t: State)
    requires Reachable(s) && s.status == PendingApproval && s.stages == [FallbackStage(2)] && s.row.Some?
    requires |s.procs| == 6 && s.procs[5] == Reader(x, 1, [Ballot(v)])
    ensures Reachable(t) && t.status == Approved && t.stages == s.stages && t.row.Some?
    ensures |t.procs| == 6 && t.procs[3] == s.procs[3]
  {
    BallotsCount(v);
    Writes(INIT, s, 5, x, Snapshot(1, 0, [Ballot(v)]));
    t := Wrote(s, 5, x, Snapshot(1, 0, [Ballot(v)]));
    Approves(INIT, t, 5, x, Ledger.Approve);
    t := With(t, 5, Reviewer(x, Ledger.Approve, RDone)).(status := Approved);
  }

  /** The second and a third reviewer approve, and the intent with them. */
  lemma {:induction false} TwoApprove(u: int, v: int, x: int) returns (s: State)
    requires v != x
    ensures Reachable(s) && s.status == Approved && s.stages == [FallbackStage(2)] && s.row.Some?
    ensures |s.procs| == 6 && s.procs[3] == Reader(u, 0, [])
  {
    s := BothHaveRead(u, v, 2);
    s := FirstOfTwo(s, 4, v);
    assert s.decisions == [Ballot(v)];
    Reads(INIT, s, x, Ledger.Approve);
    s := LastApproves(Joined(s, Reader(x, 1, [Ballot(v)])), v, x);
  }

  /**
   * The request row is no evidence: a reviewer whose reads went stale puts it back to pending
   * after the intent has been approved. Only the decisions stay.
   */
  lemma {:induction false} RowFallsBack()
    ensures exists run :: var s := Run(INIT, run);
              s.status == Approved && s.row.Some? && s.row.value.status == Ledger.Pending
  {
    var s := TwoApprove(1, 2, 3);
    s := FirstOfTwo(s, 3, 1);
    var run := RunTo(s);
  }

  /** Nor are reviewers distinct: one user's two requests can both be recorded. */
  lemma {:induction false} OneUserDecidesTwice()
    ensures exists run :: !Ledger.DistinctUsers(Run(INIT, run).decisions)
  {
    var s := BothHaveRead(1, 1, 2);
    s := FirstOfTwo(s, 3, 1);
    s := FirstOfTwo(s, 4, 1);
    assert s.decisions == [Ballot(1), Ballot(1)];
    assert s.decisions[0].user == s.decisions[1].user;
    var run := RunTo(s);
  }

  /** A request that asks for one approval gets it, and the intent is queued. */
  lemma {:induction false} OnceQueued(w: State) returns (s: State)
    requires Reachable(w) && w.status == PendingApproval && w.stages == [FallbackStage(1)] && w.decisions == []
    requires w.row == Some(Row(Ledger.Pending, 0, 0)) && w.job.None?
    ensures Reachable(s) && s.status == Queued && s.enqueued && s.calls == w.calls
    ensures |s.procs| == |w.procs| + 2 && s.procs[..|w.procs|] == w.procs
  {
    var i := |w.procs|;
    BallotsCount(1);
    Reads(INIT, w, 1, Ledger.Approve);
    s := Joined(w, Reader(1, 0, []));
    Writes(INIT, s, i, 1, Snapshot(0, 0, []));
    s := Wrote(s, i, 1, Snapshot(0, 0, []));
    Approves(INIT, s, i, 1, Ledger.Approve);
    s := With(s, i, Reviewer(1, Ledger.Approve, RDone)).(status := Approved);
    Queues(INIT, s);
    s := Joined(s, Requester(QDone)).(status := Queued, job := Some(JobQueued), enqueued := true);
  }

  /** Two deliveries of one job that overlap in their transition do call the connector twice. */
  lemma {:induction false} TwoCallsHappen()
    ensures exists run :: Run(INIT, run).calls == 2
  {
    Submitted(1);
    var s := OnceQueued(Waiting(1));
    Claims(INIT, s);
    s := Joined(s, Delivery(DWriting)).(job := Some(JobProcessing));
    Claims(INIT, s);
    s := Joined(s, Delivery(DWriting)).(job := Some(JobProcessing));
    ClaimCalls(INIT, s, 5);
    s := With(s, 5, Delivery(DReturned(true))).(status := Executing, calls := 1);
    ClaimCalls(INIT, s, 6);
    var run := RunTo(With(s, 6, Delivery(DReturned(true))).(status := Executing, calls := 2));
  }

  /** Two submissions have read the status; one opens the request while the other is still evaluating. */
  lemma {:induction false} SecondSubmissionWaits() returns (s: State)
    ensures Reachable(s) && s.status == PendingApproval && s.stages == [FallbackStage(1)] && s.decisions == []
    ensures s.row == Some(Row(Ledger.Pending, 0, 0)) && s.job.None? && s.calls == 0
    ensures |s.procs| == 4 && s.procs[2] == Submitter([FallbackStage(1)], USeen)
  {
    var chain := [FallbackStage(1)];
    ReadyIsReachable();
    Submits(INIT, Ready(), chain);
    s := Joined(Ready(), Submitter(chain, USeen));
    Submits(INIT, s, chain);
    s := Joined(s, Submitter(chain, USeen));
    Opens(INIT, s, 3, chain);
    s := Opened(s, 3, chain);
    Changes(INIT, s, 3, PendingApproval);
    s := With(s, 3, Other(PendingApproval, ODone)).(status := PendingApproval);
  }

  /** A stale submission records a denial behind an intent whose connector has been asked to execute. */
  lemma {:induction false} DenialBehindExecution()
    ensures exists run :: var s := Run(INIT, run); s.status == Executing && s.calls == 1 && s.denied
  {
    var s := SecondSubmissionWaits();
    s := OnceQueued(s);
    Claims(INIT, s);
    s := Joined(s, Delivery(DWriting)).(job := Some(JobProcessing));
    ClaimCalls(INIT, s, 6);
    s := With(s, 6, Delivery(DReturned(true))).(status := Executing, calls := 1);
    var t := With(s.(denied := true), 2, Other(Rejected, OStart));
    SubmitterGoes(INIT, s, 2, [FallbackStage(1)], USeen, true, t);
    var run := RunTo(t);
  }

  /** A rejection about to move the intent, and then the approval of another reviewer, who had read the same request. */
  lemma {:induction false} RejectionIsHeld(w: State) returns (s: State)
    requires Reachable(w) && w == Waiting(1)
    ensures Reachable(s) && s.status == Approved && s.job.None? && s.calls == 0
    ensures |s.procs| == 5 && s.procs[3] == Reviewer(1, Ledger.Reject, RWriting(Rejected))
  {
    var snap := Snapshot(0, 0, []);
    Reads(INIT, w, 1, Ledger.Reject);
    s := Joined(w, Reviewer(1, Ledger.Reject, RCleared(snap)));
    Reads(INIT, s, 2, Ledger.Approve);
    s := Joined(s, Reader(2, 0, []));
    s := Rejects(s, 3, 1, snap);
    BallotsCount(2);
    Writes(INIT, s, 4, 2, snap);
    s := Wrote(s, 4, 2, snap);
    Approves(INIT, s, 4, 2, Ledger.Approve);
    s := With(s, 4, Reviewer(2, Ledger.Approve, RDone)).(status := Approved);
  }

  /** A rejection up to the point where it has checked that it may move the intent. */
  lemma {:induction false} Rejects(s: State, i: nat, user: int, snap: Snapshot) returns (t: State)
    requires Reachable(s) && s.status == PendingApproval && s.row.Some? && snap.stageIndex < |s.stages|
    requires i < |s.procs| && s.procs[i] == Reviewer(user, Ledger.Reject, RCleared(snap))
    ensures Reachable(t) && t.row.Some?
    ensures t == s.(decisions := t.decisions, row := t.row, procs := s.procs[i := Reviewer(user, Ledger.Reject, RWriting(Rejected))])
  {
    var d := Ledger.Decision(user, Ledger.Reject, Some(snap.stageIndex), s.stages[snap.stageIndex].name);
    var s1 := With(s.(decisions := s.decisions + [d]), i, Reviewer(user, Ledger.Reject, RRecorded(snap)));
    ReviewerGoes(INIT, s, i, user, Ledger.Reject, RCleared(snap), s1);
    var row := s.row.value.(status := Ledger.Rejected, currentCount := snap.currentCount);
    var s2 := With(s1.(row := Some(row)), i, Reviewer(user, Ledger.Reject, RMoving(Rejected)));
    ReviewerGoes(INIT, s1, i, user, Ledger.Reject, RRecorded(snap), s2);
    t := With(s2, i, Reviewer(user, Ledger.Reject, RWriting(Rejected)));
    ReviewerGoes(INIT, s2, i, user, Ledger.Reject, RMoving(Rejected), t);
  }

  /** The intent is queued and claimed, and the call returns. */
  lemma {:induction false} CallIsMade(w: State) returns (s: State)
    requires Reachable(w) && w.status == Approved && w.job.None? && w.calls == 0
    ensures Reachable(s) && s.status == Executing && s.job == Some(JobCompleted) && s.calls == 1
    ensures |s.procs| == |w.procs| + 2 && s.procs[..|w.procs|] == w.procs
    ensures s.procs[|w.procs| + 1] == Delivery(DSettling(Succeeded))
  {
    var i := |w.procs| + 1;
    Queues(INIT, w);
    s := Joined(w, Requester(QDone)).(status := Queued, job := Some(JobQueued), enqueued := true);
    Claims(INIT, s);
    s := Joined(s, Delivery(DWriting)).(job := Some(JobProcessing));
    ClaimCalls(INIT, s, i);
    s := With(s, i, Delivery(DReturned(true))).(status := Executing, calls := 1);
    var t := With(s.(job := Some(JobCompleted)), i, Delivery(DSettling(Succeeded)));
    DeliveryGoes(INIT, s, i, DReturned(true), t);
    s := t;
  }

  /** The rejection is written, and then the delivery finds the intent moved away. */
  lemma {:induction false} LateRejection(s: State) returns (more: seq<Action>)
    requires WellFormed(s) && |s.procs| == 7 && s.procs[3] == Reviewer(1, Ledger.Reject, RWriting(Rejected))
    requires s.procs[6] == Delivery(DSettling(Succeeded))
    ensures var t := Run(s, more);
            t.status == Rejected && t.job == Some(JobFailed) && t.calls == s.calls
  {
    var t := With(s.(status := Rejected), 3, Reviewer(1, Ledger.Reject, RDone));
    var first, last := [Act(3, true)], [Act(6, true), Act(6, true), Act(6, true)];
    assert Step(s, Act(3, true)) == t by {
      assert ReviewerStep(s, 3, 1, Ledger.Reject, RWriting(Rejected), true) == t;
    }
    assert first == [] + [Act(3, true)];
    RunOneMore(s, [], Act(3, true));
    ReturnedCallIsMarkedFailed(t, 6);
    RunConcat(s, first, last);
    more := first + last;
  }

  /**
   * A reviewer's stale rejection can overwrite the status of an executing intent. The connector's call
   * has returned and the job is completed, but the intent ends rejected and the job failed.
   */
  lemma {:induction false} RejectedWhileExecuting()
    ensures exists run, more ::
              var s, t := Run(INIT, run), Run(INIT, run + more);
              && s.status == Executing && s.job == Some(JobCompleted) && s.calls == 1
              && t.status == Rejected && t.job == Some(JobFailed) && t.calls == 1
  {
    Submitted(1);
    var s := RejectionIsHeld(Waiting(1));
    s := CallIsMade(s);
    var run := RunTo(s);
    var more := LateRejection(s);
    RunConcat(INIT, run, more);
  }
}
