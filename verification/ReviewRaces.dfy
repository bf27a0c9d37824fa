/**
 * Reviewers' requests that overlap: exactly when one user comes to be recorded twice, and exactly
 * when an approved request row can still be lost.
 */
module ReviewRaces {
  import opened Prelude
  import opened IntentStates
  import opened ApprovalStages
  import opened Interleaving
  import Ledger = ApprovalLedger

  // ----- One user, two decisions -----

  /** The check for an earlier decision is behind the request and its insert ahead. */
  predicate Poised(p: Proc) {
    p.Reviewer? && p.r.RCleared?
  }

  /** Two requests of one user have both passed the check and neither has inserted. */
  predicate DoubleVote(s: State) {
    exists i, j :: 0 <= i < j < |s.procs| && Poised(s.procs[i]) && Poised(s.procs[j]) && s.procs[i].user == s.procs[j].user
  }

  predicate UsersKeptApart(s: State) {
    && Ledger.DistinctUsers(s.decisions)
    && forall i :: 0 <= i < |s.procs| && Poised(s.procs[i]) ==> !Ledger.HasDecided(s.decisions, s.procs[i].user)
  }

  lemma {:induction false} InsertKeepsApart(s: State, i: nat, user: int, verdict: Ledger.Verdict, snap: Snapshot)
    requires UsersKeptApart(s) && !DoubleVote(s)
    requires i < |s.procs| && s.procs[i] == Reviewer(user, verdict, RCleared(snap)) && snap.stageIndex < |s.stages|
    ensures var d := Ledger.Decision(user, verdict, Some(snap.stageIndex), s.stages[snap.stageIndex].name);
            UsersKeptApart(With(s.(decisions := s.decisions + [d]), i, Reviewer(user, verdict, RRecorded(snap))))
  {
    assert Poised(s.procs[i]);
    Ledger.NewUserStaysDistinct(s.decisions, Ledger.Decision(user, verdict, Some(snap.stageIndex), s.stages[snap.stageIndex].name));
    forall k | 0 <= k < |s.procs| && k != i && Poised(s.procs[k]) ensures s.procs[k].user != user {
      assert !(s.procs[k].user == s.procs[i].user);
    }
  }

  /** A request that records nothing and is poised afterwards only when its user has not decided. */
  lemma {:induction false} QuietKeepsApart(s: State, t: State, i: nat, p: Proc)
    requires UsersKeptApart(s) && i < |s.procs| && t.procs == s.procs[i := p] && t.decisions == s.decisions
    requires Poised(p) ==> !Ledger.HasDecided(s.decisions, p.user)
    ensures UsersKeptApart(t)
  {
  }

  lemma {:induction false} ReviewerKeepsApart(s: State, i: nat, user: int, verdict: Ledger.Verdict, at: ReviewerAt, flag: bool)
    requires WellFormed(s) && UsersKeptApart(s) && !DoubleVote(s)
    requires i < |s.procs| && s.procs[i] == Reviewer(user, verdict, at)
    ensures UsersKeptApart(ReviewerStep(s, i, user, verdict, at, flag))
  {
    var t := ReviewerStep(s, i, user, verdict, at, flag);
    if t != s {
      if at.RCleared? {
        InsertKeepsApart(s, i, user, verdict, at.snap);
      } else {
        QuietKeepsApart(s, t, i, t.procs[i]);
      }
    }
  }

  lemma {:induction false} StepKeepsApart(s: State, a: Action)
    requires WellFormed(s) && UsersKeptApart(s) && !DoubleVote(s)
    ensures UsersKeptApart(Step(s, a))
  {
    if a.Act? && a.proc < |s.procs| {
      var i := a.proc;
      if s.procs[i].Reviewer? {
        ReviewerKeepsApart(s, i, s.procs[i].user, s.procs[i].verdict, s.procs[i].r, a.flag);
      } else {
        OthersRecordNothing(s, i, a.flag);
        QuietKeepsApart(s, Step(s, a), i, Step(s, a).procs[i]);
      }
    }
  }

  /** What every step of a process but a reviewer's does to the rows that reviewers use. */
  predicate LeavesReviews(s: State, t: State, i: nat)
    requires i < |s.procs|
  {
    && |t.procs| == |s.procs| && t.procs == s.procs[i := t.procs[i]] && !t.procs[i].Reviewer?
    && t.decisions == s.decisions
    && (s.row.Some? ==> t.row == s.row && t.stages == s.stages)
    && (t.row == s.row ==> t.stages == s.stages)
    && (t.row == s.row || t.row == Some(Row(Ledger.Pending, 0, 0)))
  }

  lemma {:induction false} RequesterLeavesReviews(s: State, i: nat, at: RequesterAt)
    requires i < |s.procs| && s.procs[i] == Requester(at)
    ensures LeavesReviews(s, RequesterStep(s, i, at), i)
  {
  }

  lemma {:induction false} DeliveryLeavesReviews(s: State, i: nat, at: DeliveryAt, flag: bool)
    requires i < |s.procs| && s.procs[i] == Delivery(at)
    ensures LeavesReviews(s, DeliveryStep(s, i, at, flag), i)
  {
  }

  lemma {:induction false} SubmitterLeavesReviews(s: State, i: nat, chain: seq<Stage>, at: SubmitterAt, flag: bool)
    requires i < |s.procs| && s.procs[i] == Submitter(chain, at)
    ensures LeavesReviews(s, SubmitterStep(s, i, chain, at, flag), i)
  {
  }

  lemma {:induction false} ServiceLeavesReviews(s: State, i: nat, flag: bool)
    requires i < |s.procs|
    ensures s.procs[i].Simulator? ==> LeavesReviews(s, SimulatorStep(s, i, s.procs[i].m, flag), i)
    ensures s.procs[i].Other? ==> LeavesReviews(s, OtherStep(s, i, s.procs[i].target, s.procs[i].o), i)
  {
  }

  lemma {:induction false} OthersRecordNothing(s: State, i: nat, flag: bool)
    requires WellFormed(s) && i < |s.procs| && !s.procs[i].Reviewer?
    ensures LeavesReviews(s, Step(s, Act(i, flag)), i)
  {
    match s.procs[i]
    case Requester(at) => RequesterLeavesReviews(s, i, at);
    case Delivery(at) => DeliveryLeavesReviews(s, i, at, flag);
    case Submitter(chain, at) => SubmitterLeavesReviews(s, i, chain, at, flag);
    case _ => ServiceLeavesReviews(s, i, flag);
  }

  predicate DoubleVoteAt(actions: seq<Action>, k: int)
    requires 0 <= k <= |actions|
  {
    DoubleVote(Run(INIT, actions[..k]))
  }

  predicate NeverDoubleVotes(actions: seq<Action>) {
    forall k {:trigger DoubleVoteAt(actions, k)} :: 0 <= k <= |actions| ==> !DoubleVoteAt(actions, k)
  }

  lemma {:induction false} RunKeepsApart(actions: seq<Action>)
    requires NeverDoubleVotes(actions)
    ensures UsersKeptApart(Run(INIT, actions))
  {
    if actions != [] {
      var before := actions[..|actions| - 1];
      forall k | 0 <= k <= |before| ensures !DoubleVoteAt(before, k) {
        assert before[..k] == actions[..k];
        assert !DoubleVoteAt(actions, k);
      }
      RunKeepsApart(before);
      assert !DoubleVoteAt(actions, |before|);
      StepKeepsApart(Run(INIT, before), actions[|actions| - 1]);
    }
  }

  /** As long as no two requests of one user are between check and insert, nobody is recorded twice. */
  lemma {:induction false} UsersStayDistinct(actions: seq<Action>)
    requires NeverDoubleVotes(actions)
    ensures Ledger.DistinctUsers(Run(INIT, actions).decisions)
  {
    RunKeepsApart(actions);
  }

  /** And as soon as two are, both inserts can go through. */
  lemma {:induction false} DoubleVoteRepeats(s: State, i: nat, j: nat)
    requires Approvable(s) && i < j < |s.procs|
    requires Poised(s.procs[i]) && Poised(s.procs[j]) && s.procs[i].user == s.procs[j].user
    ensures !Ledger.DistinctUsers(Run(s, [Act(i, true), Act(j, true)]).decisions)
  {
    var p, q := s.procs[i], s.procs[j];
    assert ProcOk(s, p) && ProcOk(s, q);
    var t := ReviewerStep(s, i, p.user, p.verdict, p.r, true);
    assert Step(s, Act(i, true)) == t && t.procs[j] == q && t.stages == s.stages;
    var u := ReviewerStep(t, j, q.user, q.verdict, q.r, true);
    assert Step(t, Act(j, true)) == u;
    var n := |s.decisions|;
    assert u.decisions[n].user == u.decisions[n + 1].user;
    RunTwo(s, Act(i, true), Act(j, true));
  }

  lemma {:induction false} RunTwo(s: State, a: Action, b: Action)
    requires WellFormed(s)
    ensures Run(s, [a]) == Step(s, a)
    ensures Run(s, [a, b]) == Step(Step(s, a), b)
  {
    assert [] + [a] == [a] && [a] + [b] == [a, b];
    RunOneMore(s, [], a);
    RunOneMore(s, [a], b);
  }

  /** Some continuation of the run records one user twice. */
  ghost predicate MayRepeatAUser(actions: seq<Action>) {
    exists more {:trigger RepeatsAfter(actions, more)} :: RepeatsAfter(actions, more)
  }

  ghost predicate RepeatsAfter(actions: seq<Action>, more: seq<Action>) {
    !Ledger.DistinctUsers(Run(INIT, actions + more).decisions)
  }

  /** Some continuation of the run lets two requests of one user past the check. */
  ghost predicate MayDoubleVote(actions: seq<Action>) {
    exists more {:trigger DoubleVoteAfter(actions, more)} :: DoubleVoteAfter(actions, more)
  }

  ghost predicate DoubleVoteAfter(actions: seq<Action>, more: seq<Action>) {
    DoubleVote(Run(INIT, actions + more))
  }

  lemma {:induction false} RepeatNeedsDoubleVote(actions: seq<Action>) returns (k: nat)
    requires !Ledger.DistinctUsers(Run(INIT, actions).decisions)
    ensures k <= |actions| && DoubleVoteAt(actions, k)
  {
    if NeverDoubleVotes(actions) {
      UsersStayDistinct(actions);
      assert false;
    }
    k :| 0 <= k <= |actions| && DoubleVoteAt(actions, k);
  }

  lemma {:induction false} PastDoubleVote(actions: seq<Action>, more: seq<Action>, k: nat)
    requires k <= |actions| && DoubleVoteAt(actions + more, k)
    ensures DoubleVoteAt(actions, k)
  {
    assert (actions + more)[..k] == actions[..k];
  }

  lemma {:induction false} DoubleVoteIsAhead(actions: seq<Action>, more: seq<Action>, k: nat)
    requires NeverDoubleVotes(actions) && k <= |actions + more| && DoubleVoteAt(actions + more, k)
    ensures MayDoubleVote(actions)
  {
    if k <= |actions| {
      PastDoubleVote(actions, more, k);
      assert false;
    }
    var next := more[..k - |actions|];
    assert (actions + more)[..k] == actions + next;
    assert DoubleVoteAfter(actions, next);
  }

  lemma {:induction false} DoubleVoteLeadsToRepeat(actions: seq<Action>) returns (two: seq<Action>)
    requires DoubleVote(Run(INIT, actions))
    ensures !Ledger.DistinctUsers(Run(INIT, actions + two).decisions)
  {
    var s := Run(INIT, actions);
    RunKeepsApprovable(actions);
    var i, j :| 0 <= i < j < |s.procs| && Poised(s.procs[i]) && Poised(s.procs[j]) && s.procs[i].user == s.procs[j].user;
    two := [Act(i, true), Act(j, true)];
    DoubleVoteRepeats(s, i, j);
    RunConcat(INIT, actions, two);
  }

  /**
   * The exact condition: from a run without such a pair so far, one user can come to be recorded
   * twice if and only if two requests of one user can come to stand between check and insert.
   */
  lemma {:induction false} RepeatsExactlyWithDoubleVote(actions: seq<Action>)
    requires NeverDoubleVotes(actions)
    ensures MayRepeatAUser(actions) <==> MayDoubleVote(actions)
  {
    if MayRepeatAUser(actions) {
      var more :| RepeatsAfter(actions, more);
      var k := RepeatNeedsDoubleVote(actions + more);
      DoubleVoteIsAhead(actions, more, k);
    }
    if MayDoubleVote(actions) {
      var more :| DoubleVoteAfter(actions, more);
      RepeatIsAhead(actions, more);
    }
  }

  lemma {:induction false} RepeatIsAhead(actions: seq<Action>, more: seq<Action>)
    requires DoubleVoteAfter(actions, more)
    ensures MayRepeatAUser(actions)
  {
    var two := DoubleVoteLeadsToRepeat(actions + more);
    assert actions + more + two == actions + (more + two);
    assert RepeatsAfter(actions, more + two);
  }

  // ----- The approved row -----

  predicate RowApproved(s: State) {
    s.row.Some? && s.row.value.status == Ledger.Approved
  }

  /** The write based on this snapshot is an approval that completes the last stage. */
  predicate Completes(stages: seq<Stage>, verdict: Ledger.Verdict, snap: Snapshot) {
    && verdict == Ledger.Approve
    && snap.stageIndex == |stages| - 1
    && Ledger.Approvals(snap.decisions, snap.stageIndex) + 1 >= stages[snap.stageIndex].requiredCount
  }

  /** A request in flight that can still overwrite an approved row with another status. */
  predicate Undoes(s: State, p: Proc) {
    && p.Reviewer?
    && match p.r
       case RSeen(snap) => !Ledger.HasDecided(s.decisions, p.user) && !Completes(s.stages, p.verdict, snap)
       case RCleared(snap) => !Completes(s.stages, p.verdict, snap)
       case RRecorded(snap) => !Completes(s.stages, p.verdict, snap)
       case _ => false
  }

  predicate NobodyUndoes(s: State) {
    forall i :: 0 <= i < |s.procs| ==> !Undoes(s, s.procs[i])
  }

  predicate Extends(few: seq<Ledger.Decision>, many: seq<Ledger.Decision>) {
    few <= many
  }

  lemma {:induction false} DecidedStays(s: State, t: State, p: Proc)
    requires !Undoes(s, p) && t.stages == s.stages && Extends(s.decisions, t.decisions)
    ensures !Undoes(t, p)
  {
    if p.Reviewer? && Ledger.HasDecided(s.decisions, p.user) {
      var d :| d in s.decisions && d.user == p.user;
      assert d in t.decisions;
    }
  }

  lemma {:induction false} OneMovedUndoesNothing(s: State, t: State, i: nat, p: Proc)
    requires NobodyUndoes(s) && i < |s.procs| && t.procs == s.procs[i := p]
    requires t.stages == s.stages && Extends(s.decisions, t.decisions) && !Undoes(t, p)
    ensures NobodyUndoes(t)
  {
    forall k | 0 <= k < |t.procs| ensures !Undoes(t, t.procs[k]) {
      if k != i {
        DecidedStays(s, t, s.procs[k]);
      }
    }
  }

  lemma {:induction false} ReviewerKeepsRow(s: State, i: nat, user: int, verdict: Ledger.Verdict, at: ReviewerAt, flag: bool)
    requires WellFormed(s) && RowApproved(s) && NobodyUndoes(s)
    requires i < |s.procs| && s.procs[i] == Reviewer(user, verdict, at)
    ensures var t := ReviewerStep(s, i, user, verdict, at, flag);
            RowApproved(t) && NobodyUndoes(t)
  {
    var t := ReviewerStep(s, i, user, verdict, at, flag);
    assert !Undoes(s, s.procs[i]);
    if t != s {
      OneMovedUndoesNothing(s, t, i, t.procs[i]);
    }
  }

  lemma {:induction false} StepKeepsRow(s: State, a: Action)
    requires WellFormed(s) && RowApproved(s) && NobodyUndoes(s)
    ensures RowApproved(Step(s, a)) && NobodyUndoes(Step(s, a))
  {
    if a.Act? && a.proc < |s.procs| {
      var i := a.proc;
      if s.procs[i].Reviewer? {
        ReviewerKeepsRow(s, i, s.procs[i].user, s.procs[i].verdict, s.procs[i].r, a.flag);
      } else {
        OthersRecordNothing(s, i, a.flag);
        OneMovedUndoesNothing(s, Step(s, a), i, Step(s, a).procs[i]);
      }
    }
  }

  /** The row is approved now and after whatever happens next. */
  ghost predicate StaysApproved(s: State)
    requires WellFormed(s)
  {
    forall more {:trigger Run(s, more)} :: RowApproved(Run(s, more))
  }

  lemma {:induction false} RunKeepsRow(s: State, more: seq<Action>)
    requires WellFormed(s) && RowApproved(s) && NobodyUndoes(s)
    ensures RowApproved(Run(s, more)) && NobodyUndoes(Run(s, more))
  {
    if more != [] {
      RunKeepsRow(s, more[..|more| - 1]);
      StepKeepsRow(Run(s, more[..|more| - 1]), more[|more| - 1]);
    }
  }

  /** The last step of a request that undoes the approval. */
  lemma {:induction false} OverwriteUndoes(s: State, i: nat, user: int, verdict: Ledger.Verdict, snap: Snapshot)
    requires WellFormed(s) && s.row.Some? && snap.stageIndex < |s.stages| && !Completes(s.stages, verdict, snap)
    requires i < |s.procs| && s.procs[i] == Reviewer(user, verdict, RRecorded(snap))
    ensures !RowApproved(Step(s, Act(i, true)))
  {
    assert Step(s, Act(i, true)) == ReviewerStep(s, i, user, verdict, RRecorded(snap), true);
  }

  lemma {:induction false} InsertLeadsToUndo(s: State, i: nat, user: int, verdict: Ledger.Verdict, snap: Snapshot)
    requires WellFormed(s) && s.row.Some? && snap.stageIndex < |s.stages| && !Completes(s.stages, verdict, snap)
    requires i < |s.procs| && s.procs[i] == Reviewer(user, verdict, RCleared(snap))
    ensures !RowApproved(Step(Step(s, Act(i, true)), Act(i, true)))
  {
    var t := ReviewerStep(s, i, user, verdict, RCleared(snap), true);
    assert Step(s, Act(i, true)) == t;
    OverwriteUndoes(t, i, user, verdict, snap);
  }

  lemma {:induction false} CheckLeadsToUndo(s: State, i: nat, user: int, verdict: Ledger.Verdict, snap: Snapshot)
    requires WellFormed(s) && s.row.Some? && snap.stageIndex < |s.stages| && !Completes(s.stages, verdict, snap)
    requires !Ledger.HasDecided(s.decisions, user)
    requires i < |s.procs| && s.procs[i] == Reviewer(user, verdict, RSeen(snap))
    ensures !RowApproved(Step(Step(Step(s, Act(i, true)), Act(i, true)), Act(i, true)))
  {
    var t := ReviewerStep(s, i, user, verdict, RSeen(snap), true);
    assert Step(s, Act(i, true)) == t;
    InsertLeadsToUndo(t, i, user, verdict, snap);
  }

  lemma {:induction false} UndoHappens(s: State, i: nat) returns (more: seq<Action>)
    requires Approvable(s) && s.row.Some? && i < |s.procs| && Undoes(s, s.procs[i])
    ensures !RowApproved(Run(s, more))
  {
    var p, a := s.procs[i], Act(i, true);
    assert ProcOk(s, p);
    RunTwo(s, a, a);
    match p.r
    case RSeen(snap) =>
      CheckLeadsToUndo(s, i, p.user, p.verdict, snap);
      RunOneMore(s, [a, a], a);
      more := [a, a] + [a];
    case RCleared(snap) =>
      InsertLeadsToUndo(s, i, p.user, p.verdict, snap);
      more := [a, a];
    case RRecorded(snap) =>
      OverwriteUndoes(s, i, p.user, p.verdict, snap);
      more := [a];
  }

  lemma {:induction false} RowStaysUnlessUndone(s: State)
    requires Approvable(s) && RowApproved(s)
    ensures StaysApproved(s) <==> NobodyUndoes(s)
  {
    if NobodyUndoes(s) {
      forall more ensures RowApproved(Run(s, more)) {
        RunKeepsRow(s, more);
      }
    } else {
      var i :| 0 <= i < |s.procs| && Undoes(s, s.procs[i]);
      var more := UndoHappens(s, i);
    }
  }

  /**
   * The exact condition: an approved row stays approved under every continuation if and only if no
   * request in flight, past the check or still able to pass it, is about to write a rejection or
   * an approval that its own stale reads do not count as the last.
   */
  lemma {:induction false} RowStaysExactlyWhen(actions: seq<Action>)
    requires RowApproved(Run(INIT, actions))
    ensures StaysApproved(Run(INIT, actions)) <==> NobodyUndoes(Run(INIT, actions))
  {
    RunKeepsApprovable(actions);
    RowStaysUnlessUndone(Run(INIT, actions));
  }

  // ----- Reviews one at a time -----

  /** Between the first read and the write of the request row. */
  predicate InFlight(p: Proc) {
    p.Reviewer? && (p.r.RSeen? || p.r.RCleared? || p.r.RRecorded?)
  }

  predicate AtMostOneInFlight(s: State) {
    forall i, j :: 0 <= i < j < |s.procs| ==> !(InFlight(s.procs[i]) && InFlight(s.procs[j]))
  }

  predicate ApprovedIsQuiet(s: State) {
    RowApproved(s) ==> forall i :: 0 <= i < |s.procs| ==> !InFlight(s.procs[i])
  }

  lemma {:induction false} OthersAreNot(s: State, i: nat, k: nat)
    requires AtMostOneInFlight(s) && i < |s.procs| && k < |s.procs| && k != i && InFlight(s.procs[i])
    ensures !InFlight(s.procs[k])
  {
  }

  lemma {:induction false} ReviewerTakesTurn(s: State, i: nat, user: int, verdict: Ledger.Verdict, at: ReviewerAt, flag: bool)
    requires WellFormed(s) && AtMostOneInFlight(s) && ApprovedIsQuiet(s)
    requires i < |s.procs| && s.procs[i] == Reviewer(user, verdict, at)
    ensures var t := ReviewerStep(s, i, user, verdict, at, flag);
            ApprovedIsQuiet(t) && (RowApproved(s) ==> RowApproved(t))
  {
    var t := ReviewerStep(s, i, user, verdict, at, flag);
    assert RowApproved(s) ==> !InFlight(s.procs[i]);
    if at.RRecorded? && t != s {
      assert InFlight(s.procs[i]) && !InFlight(t.procs[i]);
      forall k | 0 <= k < |t.procs| ensures !InFlight(t.procs[k]) {
        if k != i {
          OthersAreNot(s, i, k);
        }
      }
    }
  }

  lemma {:induction false} StepTakesTurn(s: State, a: Action)
    requires WellFormed(s) && AtMostOneInFlight(s) && ApprovedIsQuiet(s)
    ensures ApprovedIsQuiet(Step(s, a)) && (RowApproved(s) ==> RowApproved(Step(s, a)))
  {
    if a.Act? && a.proc < |s.procs| {
      var p := s.procs[a.proc];
      if p.Reviewer? {
        ReviewerTakesTurn(s, a.proc, p.user, p.verdict, p.r, a.flag);
      } else {
        OthersRecordNothing(s, a.proc, a.flag);
        OthersKeepQuiet(s, Step(s, a), a.proc);
      }
    }
  }

  lemma {:induction false} OthersKeepQuiet(s: State, t: State, i: nat)
    requires ApprovedIsQuiet(s) && i < |s.procs| && LeavesReviews(s, t, i)
    ensures ApprovedIsQuiet(t) && (RowApproved(s) ==> RowApproved(t))
  {
  }

  predicate OneInFlightAt(actions: seq<Action>, k: int)
    requires 0 <= k <= |actions|
  {
    AtMostOneInFlight(Run(INIT, actions[..k]))
  }

  predicate ReviewsTakeTurns(actions: seq<Action>) {
    forall k {:trigger OneInFlightAt(actions, k)} :: 0 <= k <= |actions| ==> OneInFlightAt(actions, k)
  }

  /** A run whose reviews take turns never loses an approved row. */
  lemma {:induction false} TurnsKeepTheRow(actions: seq<Action>, from: nat, to: nat)
    requires ReviewsTakeTurns(actions) && from <= to <= |actions|
    ensures ApprovedIsQuiet(Run(INIT, actions[..to]))
    ensures RowApproved(Run(INIT, actions[..from])) ==> RowApproved(Run(INIT, actions[..to]))
  {
    if to > 0 {
      TurnsKeepTheRow(actions, if from < to then from else to - 1, to - 1);
      assert OneInFlightAt(actions, to - 1);
      NextTakesTurn(actions, to - 1);
    }
  }

  lemma {:induction false} NextTakesTurn(actions: seq<Action>, k: nat)
    requires k < |actions| && OneInFlightAt(actions, k) && ApprovedIsQuiet(Run(INIT, actions[..k]))
    ensures ApprovedIsQuiet(Run(INIT, actions[..k + 1]))
    ensures RowApproved(Run(INIT, actions[..k])) ==> RowApproved(Run(INIT, actions[..k + 1]))
  {
    assert actions[..k + 1] == actions[..k] + [actions[k]];
    RunOneMore(INIT, actions[..k], actions[k]);
    StepTakesTurn(Run(INIT, actions[..k]), actions[k]);
  }

  /** Nor does it record a user twice. */
  lemma {:induction false} TurnsKeepUsersDistinct(actions: seq<Action>)
    requires ReviewsTakeTurns(actions)
    ensures Ledger.DistinctUsers(Run(INIT, actions).decisions)
  {
    forall k | 0 <= k <= |actions| ensures !DoubleVoteAt(actions, k) {
      assert OneInFlightAt(actions, k);
      PoisedIsInFlight(Run(INIT, actions[..k]));
    }
    UsersStayDistinct(actions);
  }

  lemma {:induction false} PoisedIsInFlight(s: State)
    requires AtMostOneInFlight(s)
    ensures !DoubleVote(s)
  {
    forall i, j | 0 <= i < j < |s.procs| ensures !(Poised(s.procs[i]) && Poised(s.procs[j])) {
      assert !(InFlight(s.procs[i]) && InFlight(s.procs[j]));
    }
  }
}
