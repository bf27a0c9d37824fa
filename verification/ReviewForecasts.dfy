/**
 * The exact condition, read from the present rows and the requests in flight, for one user to come
 * to be recorded twice.
 */
module ReviewForecasts {
  import opened Prelude
  import opened IntentStates
  import opened ApprovalStages
  import opened Interleaving
  import opened AtMostOnce
  import opened Orderliness
  import opened ReviewRaces
  import opened Prospects
  import opened Outlook
  import opened Forecasts
  import opened Walks
  import Ledger = ApprovalLedger

  // ----- The condition -----

  predicate Pending(s: State) {
    s.row.Some? && s.row.value.status == Ledger.Pending
  }

  predicate SomeSubmitting(s: State) {
    exists i :: 0 <= i < |s.procs| && s.procs[i].Submitter? && (s.procs[i].u.USeen? || s.procs[i].u.UOpening?)
  }

  /** There is no request, and a submission under way or still to come can open one. */
  predicate RequestAhead(s: State) {
    s.row.None? && (SomeSubmitting(s) || SimulationAhead(s))
  }

  /** An approving request in flight whose write, based on what it has read, leaves the row pending. */
  predicate Reopens(s: State, p: Proc) {
    && p.Reviewer? && p.verdict == Ledger.Approve
    && (CanInsert(s, p) || p.r.RRecorded?)
    && !Completes(s.stages, p.verdict, p.r.snap)
  }

  predicate SomeReopening(s: State) {
    exists i :: 0 <= i < |s.procs| && Reopens(s, s.procs[i])
  }

  /** Past the check, with a decision of its user on record. */
  predicate Repeats(s: State, p: Proc) {
    Poised(p) && Ledger.HasDecided(s.decisions, p.user)
  }

  predicate SomeRepeating(s: State) {
    exists i :: 0 <= i < |s.procs| && Repeats(s, s.procs[i])
  }

  /** Two requests of one user can both insert. */
  predicate Paired(s: State) {
    exists i, j :: 0 <= i < j < |s.procs| && CanInsert(s, s.procs[i]) && CanInsert(s, s.procs[j]) && s.procs[i].user == s.procs[j].user
  }

  predicate RepeatAhead(s: State) {
    || !Ledger.DistinctUsers(s.decisions)
    || Pending(s) || RequestAhead(s)
    || SomeReopening(s) || SomeRepeating(s) || Paired(s)
  }

  /** Some continuation records one user twice. */
  ghost predicate MayRepeat(s: State)
    requires WellFormed(s)
  {
    exists more {:trigger Run(s, more)} :: !Ledger.DistinctUsers(Run(s, more).decisions)
  }

  // ----- What cannot come any more does not come -----

  /** A request that inserts nothing now and could insert afterwards could do so before. */
  lemma {:induction false} LaterDecisions(s: State, t: State, p: Proc)
    requires Extends(s.decisions, t.decisions)
    ensures CanInsert(t, p) ==> CanInsert(s, p)
  {
    if p.Reviewer? && Ledger.HasDecided(s.decisions, p.user) {
      var d :| d in s.decisions && d.user == p.user;
      assert d in t.decisions;
    }
  }

  /** What a reviewer's step does when the row is settled: it may insert, and it opens nothing. */
  predicate ReviewEffect(s: State, t: State, i: nat)
    requires i < |s.procs|
  {
    && |t.procs| == |s.procs| && t.procs == s.procs[i := t.procs[i]] && t.stages == s.stages
    && Extends(s.decisions, t.decisions)
    && (Poised(t.procs[i]) ==> !Ledger.HasDecided(t.decisions, t.procs[i].user) || t.procs[i] == s.procs[i])
    && (CanInsert(t, t.procs[i]) ==> CanInsert(s, s.procs[i]) && t.procs[i].user == s.procs[i].user)
    && (Reopens(t, t.procs[i]) ==> Reopens(s, s.procs[i]))
    && !Pending(t) && (t.row.None? ==> s.row.None?)
  }

  lemma {:induction false} ReviewerEffectOnReviews(s: State, i: nat, user: int, verdict: Ledger.Verdict, at: ReviewerAt, flag: bool)
    requires WellFormed(s) && i < |s.procs| && s.procs[i] == Reviewer(user, verdict, at)
    requires !Pending(s) && !Reopens(s, s.procs[i])
    ensures ReviewEffect(s, ReviewerStep(s, i, user, verdict, at, flag), i)
  {
  }

  predicate Quiet(s: State) {
    !SomeReopening(s) && !SomeRepeating(s) && !Paired(s) && Ledger.DistinctUsers(s.decisions)
  }

  /** What a step that inserts nothing leaves of these conditions. */
  lemma {:induction false} NoInsertKeepsQuiet(s: State, t: State, i: nat)
    requires Quiet(s) && i < |s.procs| && ReviewEffect(s, t, i) && t.decisions == s.decisions
    ensures Quiet(t)
  {
    assert !Repeats(s, s.procs[i]);
    forall k | 0 <= k < |t.procs| ensures !Reopens(t, t.procs[k]) && !Repeats(t, t.procs[k]) {
      assert !Reopens(s, s.procs[k]) && !Repeats(s, s.procs[k]);
    }
    forall j, k | 0 <= j < k < |t.procs| ensures !(CanInsert(t, t.procs[j]) && CanInsert(t, t.procs[k]) && t.procs[j].user == t.procs[k].user) {
      assert !(CanInsert(s, s.procs[j]) && CanInsert(s, s.procs[k]) && s.procs[j].user == s.procs[k].user);
    }
  }

  lemma {:induction false} DecidedGrows(ds: seq<Ledger.Decision>, d: Ledger.Decision, user: int)
    ensures Ledger.HasDecided(ds + [d], user) <==> Ledger.HasDecided(ds, user) || d.user == user
  {
    assert (ds + [d])[|ds|] == d;
    if Ledger.HasDecided(ds, user) {
      var e :| e in ds && e.user == user;
      assert e in ds + [d];
    }
  }

  lemma {:induction false} InsertKeepsQuiet(s: State, i: nat, user: int, verdict: Ledger.Verdict, snap: Snapshot, d: Ledger.Decision)
    requires Quiet(s) && i < |s.procs| && s.procs[i] == Reviewer(user, verdict, RCleared(snap)) && d.user == user
    ensures Quiet(With(s.(decisions := s.decisions + [d]), i, Reviewer(user, verdict, RRecorded(snap))))
  {
    var t := With(s.(decisions := s.decisions + [d]), i, Reviewer(user, verdict, RRecorded(snap)));
    assert CanInsert(s, s.procs[i]) && !Repeats(s, s.procs[i]) && !Reopens(s, s.procs[i]);
    Ledger.NewUserStaysDistinct(s.decisions, d);
    forall k | 0 <= k < |t.procs| ensures !Reopens(t, t.procs[k]) && !Repeats(t, t.procs[k]) {
      if k != i {
        OtherStaysQuiet(s, t, i, k, d);
      }
    }
    forall j, k | 0 <= j < k < |t.procs| ensures !(CanInsert(t, t.procs[j]) && CanInsert(t, t.procs[k]) && t.procs[j].user == t.procs[k].user) {
      LaterDecisions(s, t, s.procs[j]);
      LaterDecisions(s, t, s.procs[k]);
    }
  }

  lemma {:induction false} OtherStaysQuiet(s: State, t: State, i: nat, k: nat, d: Ledger.Decision)
    requires Quiet(s) && i < |s.procs| && k < |s.procs| && k != i && |t.procs| == |s.procs| && t.procs[k] == s.procs[k]
    requires t.decisions == s.decisions + [d] && t.stages == s.stages
    requires CanInsert(s, s.procs[i]) && s.procs[i].user == d.user
    ensures !Reopens(t, t.procs[k]) && !Repeats(t, t.procs[k])
  {
    var p := s.procs[k];
    assert !Reopens(s, p) && !Repeats(s, p);
    LaterDecisions(s, t, p);
    if Poised(p) {
      DecidedGrows(s.decisions, d, p.user);
      assert CanInsert(s, p);
      assert p.user != d.user by {
        assert i < k ==> !(CanInsert(s, s.procs[i]) && CanInsert(s, s.procs[k]) && s.procs[i].user == s.procs[k].user);
      }
    }
  }

  lemma {:induction false} ReviewerLeavesQuiet(s: State, i: nat, user: int, verdict: Ledger.Verdict, at: ReviewerAt, flag: bool)
    requires WellFormed(s) && Quiet(s) && !Pending(s) && i < |s.procs| && s.procs[i] == Reviewer(user, verdict, at)
    ensures Quiet(ReviewerStep(s, i, user, verdict, at, flag)) && !Pending(ReviewerStep(s, i, user, verdict, at, flag))
  {
    var t := ReviewerStep(s, i, user, verdict, at, flag);
    assert !Reopens(s, s.procs[i]);
    ReviewerEffectOnReviews(s, i, user, verdict, at, flag);
    if at.RCleared? && t != s {
      InsertKeepsQuiet(s, i, user, verdict, at.snap, t.decisions[|s.decisions|]);
    } else {
      NoInsertKeepsQuiet(s, t, i);
    }
  }

  lemma {:induction false} ActLeavesUnrequested(s: State, i: nat, flag: bool)
    requires Sound(s) && !RequestAhead(s) && i < |s.procs|
    ensures !RequestAhead(Step(s, Act(i, flag)))
    ensures s.row.None? ==> Step(s, Act(i, flag)).row.None?
  {
    var t := Step(s, Act(i, flag));
    assert Shaped(s.procs[i]);
    ActEffect(s, i, flag);
    ActRowEffect(s, i, flag);
    if s.row.None? {
      NeverDraftAgain(s, t, i);
      SimulationStaysBehind(s, t, i);
      ActSubmissionEffect(s, i, flag);
    }
  }

  lemma {:induction false} OthersLeaveQuiet(s: State, t: State, i: nat)
    requires Quiet(s) && i < |s.procs| && LeavesReviews(s, t, i) && t.row == s.row
    ensures Quiet(t)
  {
    forall k | 0 <= k < |t.procs| ensures !Reopens(t, t.procs[k]) && !Repeats(t, t.procs[k]) {
      assert !Reopens(s, s.procs[k]) && !Repeats(s, s.procs[k]);
    }
    forall j, k | 0 <= j < k < |t.procs| ensures !(CanInsert(t, t.procs[j]) && CanInsert(t, t.procs[k]) && t.procs[j].user == t.procs[k].user) {
      assert j != i && k != i ==> !(CanInsert(s, s.procs[j]) && CanInsert(s, s.procs[k]) && s.procs[j].user == s.procs[k].user);
    }
  }

  lemma {:induction false} ActLeavesUnrepeated(s: State, i: nat, flag: bool)
    requires Sound(s) && !RepeatAhead(s) && i < |s.procs|
    ensures !RepeatAhead(Step(s, Act(i, flag)))
  {
    ActLeavesUnrequested(s, i, flag);
    if s.procs[i].Reviewer? {
      ReviewerLeavesQuiet(s, i, s.procs[i].user, s.procs[i].verdict, s.procs[i].r, flag);
    } else {
      OthersRecordNothing(s, i, flag);
      OthersLeaveQuiet(s, Step(s, Act(i, flag)), i);
    }
  }

  lemma {:induction false} SpawnLeavesUnrepeated(s: State, p: Proc)
    requires !RepeatAhead(s) && Begins(s, p)
    ensures !RepeatAhead(Joined(s, p))
  {
    var t := Joined(s, p);
    SpawnSimulatesNothing(s, p);
    forall k | 0 <= k < |t.procs| ensures !Reopens(t, t.procs[k]) && !Repeats(t, t.procs[k]) {
      assert k < |s.procs| ==> !Reopens(s, s.procs[k]) && !Repeats(s, s.procs[k]);
    }
    forall j, k | 0 <= j < k < |t.procs| ensures !(CanInsert(t, t.procs[j]) && CanInsert(t, t.procs[k]) && t.procs[j].user == t.procs[k].user) {
      assert k < |s.procs| ==> !(CanInsert(s, s.procs[j]) && CanInsert(s, s.procs[k]) && s.procs[j].user == s.procs[k].user);
    }
  }

  lemma {:induction false} StepLeavesUnrepeated(s: State, a: Action)
    requires Sound(s) && !RepeatAhead(s)
    ensures !RepeatAhead(Step(s, a))
  {
    if !a.Act? {
      var p := StepBegins(s, a);
      if Step(s, a) != s {
        SpawnLeavesUnrepeated(s, p);
      }
    } else if a.proc < |s.procs| {
      ActLeavesUnrepeated(s, a.proc, a.flag);
    }
  }

  lemma {:induction false} RunLeavesUnrepeated(s: State, more: seq<Action>)
    requires Sound(s) && !RepeatAhead(s)
    ensures !RepeatAhead(Run(s, more))
  {
    if more != [] {
      OneStepBack(s, more);
      RunLeavesUnrepeated(s, more[..|more| - 1]);
      StepLeavesUnrepeated(Run(s, more[..|more| - 1]), more[|more| - 1]);
    }
  }

  // ----- What can come does -----

  /** Two requests of one user stand between check and insert: both insert. */
  lemma {:induction false} BothInsert(o: State, s: State, i: nat, j: nat) returns (t: State)
    requires Sound(s) && Reaches(o, s) && i < j < |s.procs|
    requires Poised(s.procs[i]) && Poised(s.procs[j]) && s.procs[i].user == s.procs[j].user
    ensures Reaches(o, t) && !Ledger.DistinctUsers(t.decisions)
  {
    var two := [Act(i, true), Act(j, true)];
    DoubleVoteRepeats(s, i, j);
    t := Run(s, two);
    assert Leads(s, two, t);
    ReachesOn(o, s, t);
  }

  /** A request that can insert passes the check. */
  lemma {:induction false} ChecksPass(o: State, s: State, i: nat) returns (t: State)
    requires Reaches(o, s) && i < |s.procs| && CanInsert(s, s.procs[i])
    ensures Reaches(o, t) && |t.procs| == |s.procs| && t.procs == s.procs[i := t.procs[i]] && t.decisions == s.decisions
    ensures Poised(t.procs[i]) && t.procs[i].user == s.procs[i].user
  {
    t := s;
    if s.procs[i].r.RSeen? {
      var p := s.procs[i];
      t := With(s, i, Reviewer(p.user, p.verdict, RCleared(p.r.snap)));
      ReviewerGoes(o, s, i, p.user, p.verdict, p.r, t);
    }
  }

  lemma {:induction false} ReachesSound(o: State, s: State)
    requires Sound(o) && Reaches(o, s)
    ensures Sound(s)
  {
    ReachesApprovable(o, s);
    ReachesOrderly(o, s);
  }

  lemma {:induction false} PairRepeats(o: State, s: State) returns (t: State)
    requires Sound(o) && Reaches(o, s) && Paired(s)
    ensures Reaches(o, t) && !Ledger.DistinctUsers(t.decisions)
  {
    var i, j :| 0 <= i < j < |s.procs| && CanInsert(s, s.procs[i]) && CanInsert(s, s.procs[j]) && s.procs[i].user == s.procs[j].user;
    var u := ChecksPass(o, s, i);
    var v := ChecksPass(o, u, j);
    ReachesSound(o, v);
    t := BothInsert(o, v, i, j);
  }

  /** While the row is pending a new user can send two requests at once. */
  lemma {:induction false} PendingRepeats(o: State, s: State) returns (t: State)
    requires Sound(o) && Reaches(o, s) && Pending(s)
    ensures Reaches(o, t) && !Ledger.DistinctUsers(t.decisions)
  {
    var user, n := Ledger.FreshUser(s.decisions), |s.procs|;
    Reads(o, s, user, Ledger.Approve);
    var u := Joined(s, Reviewer(user, Ledger.Approve, RCleared(SeenBy(s))));
    Reads(o, u, user, Ledger.Approve);
    var v := Joined(u, Reviewer(user, Ledger.Approve, RCleared(SeenBy(u))));
    ReachesSound(o, v);
    t := BothInsert(o, v, n, n + 1);
  }

  lemma {:induction false} SubmissionOpens(o: State, s: State) returns (t: State)
    requires Orderly(s) && Reaches(o, s) && SomeSubmitting(s) && s.row.None?
    ensures Reaches(o, t) && Pending(t)
  {
    var i :| 0 <= i < |s.procs| && s.procs[i].Submitter? && (s.procs[i].u.USeen? || s.procs[i].u.UOpening?);
    var chain := s.procs[i].chain;
    assert Shaped(s.procs[i]);
    if s.procs[i].u.USeen? {
      Opens(o, s, i, chain);
      t := Opened(s, i, chain);
    } else {
      t := With(s.(stages := chain, row := Some(Row(Ledger.Pending, 0, 0))), i, Other(PendingApproval, OStart));
      SubmitterGoes(o, s, i, chain, UOpening, true, t);
    }
  }

  lemma {:induction false} RequestRepeats(o: State, s: State) returns (t: State)
    requires Sound(o) && Reaches(o, s) && RequestAhead(s)
    ensures Reaches(o, t) && !Ledger.DistinctUsers(t.decisions)
  {
    ReachesOrderly(o, s);
    var u: State;
    if SimulationAhead(s) {
      u := RequestComes(o, s);
    } else {
      u := SubmissionOpens(o, s);
    }
    t := PendingRepeats(o, u);
  }

  lemma {:induction false} ReopeningRepeats(o: State, s: State, i: nat) returns (t: State)
    requires Sound(o) && Reaches(o, s) && i < |s.procs| && Reopens(s, s.procs[i])
    ensures Reaches(o, t) && !Ledger.DistinctUsers(t.decisions)
  {
    ReachesApprovable(o, s);
    assert ProcOk(s, s.procs[i]);
    var u := ApprovingIsWritten(o, s, i);
    t := PendingRepeats(o, u);
  }

  lemma {:induction false} RepeatingRepeats(o: State, s: State, i: nat) returns (t: State)
    requires Sound(o) && Reaches(o, s) && i < |s.procs| && Repeats(s, s.procs[i])
    ensures Reaches(o, t) && !Ledger.DistinctUsers(t.decisions)
  {
    ReachesApprovable(o, s);
    var p := s.procs[i];
    assert ProcOk(s, p);
    t := ReviewerStep(s, i, p.user, p.verdict, p.r, true);
    ReviewerGoes(o, s, i, p.user, p.verdict, p.r, t);
    var n := |s.decisions|;
    var d :| d in s.decisions && d.user == p.user;
    var k :| 0 <= k < n && s.decisions[k] == d;
    assert t.decisions[k].user == t.decisions[n].user;
  }

  lemma {:induction false} RepeatComes(o: State, s: State) returns (t: State)
    requires Sound(o) && Reaches(o, s) && RepeatAhead(s)
    ensures Reaches(o, t) && !Ledger.DistinctUsers(t.decisions)
  {
    if !Ledger.DistinctUsers(s.decisions) {
      t := s;
    } else if Pending(s) {
      t := PendingRepeats(o, s);
    } else if RequestAhead(s) {
      t := RequestRepeats(o, s);
    } else if SomeReopening(s) {
      var i :| 0 <= i < |s.procs| && Reopens(s, s.procs[i]);
      t := ReopeningRepeats(o, s, i);
    } else if SomeRepeating(s) {
      var i :| 0 <= i < |s.procs| && Repeats(s, s.procs[i]);
      t := RepeatingRepeats(o, s, i);
    } else {
      t := PairRepeats(o, s);
    }
  }

  /**
   * The exact condition: one user can come to be recorded twice if and only if one has been, the
   * request is pending or can still be opened or reopened by an approval in flight, a request past
   * the check belongs to a user already recorded, or two requests of one user can both insert.
   */
  lemma {:induction false} RepeatsExactlyWhen(actions: seq<Action>)
    ensures MayRepeat(Run(INIT, actions)) <==> RepeatAhead(Run(INIT, actions))
  {
    var s := Run(INIT, actions);
    RunsAreSound(actions);
    if RepeatAhead(s) {
      ReachesItself(s);
      var t := RepeatComes(s, s);
      var more :| Leads(s, more, t);
      assert !Ledger.DistinctUsers(Run(s, more).decisions);
    } else {
      forall more ensures Ledger.DistinctUsers(Run(s, more).decisions) {
        RunLeavesUnrepeated(s, more);
      }
    }
  }
}
