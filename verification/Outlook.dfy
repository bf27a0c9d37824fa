/**
 * The other half of `Prospects`: whatever its conditions leave open does come about, in a continuation
 * that leaves the job, the queue and the processes beyond the reviews alone.
 */
module Outlook {
  import opened Prelude
  import opened IntentStates
  import opened ApprovalStages
  import opened Interleaving
  import opened AtMostOnce
  import opened Orderliness
  import opened ReviewRaces
  import opened Prospects
  import opened Walks
  import Ledger = ApprovalLedger

  // ----- Bringing the status to review -----

  /** Only the status, simulation and evaluations, and processes that change the status, have moved on. */
  predicate Beside(s: State, t: State) {
    && (t.row, t.stages, t.decisions) == (s.row, s.stages, s.decisions)
    && (t.job, t.enqueued, t.calls, t.denied) == (s.job, s.enqueued, s.calls, s.denied)
    && |s.procs| <= |t.procs|
    && forall k :: 0 <= k < |s.procs| ==> t.procs[k] == s.procs[k] || (s.procs[k].Other? && s.procs[k] != Other(PendingApproval, OStart))
  }

  lemma {:induction false} EarlyHolder(p: Proc, status: Status)
    requires Shaped(p) && Holding(p) == Some(status)
    requires status.Proposed? || status.Simulated? || status.PendingApproval?
    ensures p == Other(status, OWriting)
  {
  }

  /** A process writes the status it holds. */
  lemma {:induction false} HeldIsWritten(o: State, s: State, status: Status) returns (t: State)
    requires Reaches(o, s) && Orderly(s) && Held(s, status)
    requires status.Proposed? || status.Simulated? || status.PendingApproval?
    ensures Reaches(o, t) && t.status == status && Beside(s, t) && t.simulations == s.simulations && |t.procs| == |s.procs|
    ensures forall k :: 0 <= k < |s.procs| ==> t.procs[k] == s.procs[k] || (s.procs[k].Other? && s.procs[k].o.OWriting?)
  {
    var i :| 0 <= i < |s.procs| && Holding(s.procs[i]) == Some(status);
    assert Shaped(s.procs[i]);
    EarlyHolder(s.procs[i], status);
    t := With(s.(status := status), i, Other(status, ODone));
    OtherGoes(o, s, i, status, OWriting, t);
  }

  lemma {:induction false} ProposalComes(o: State, s: State) returns (t: State)
    requires Reaches(o, s) && Orderly(s) && ProposalAhead(s)
    ensures Reaches(o, t) && t.status == Proposed && Beside(s, t)
    ensures t.simulations == s.simulations && (SomeArriving(s) ==> SomeArriving(t))
  {
    if s.status == Proposed {
      t := s;
    } else if s.status == Draft {
      Proposes(o, s);
      t := Joined(s, Other(Proposed, ODone)).(status := Proposed);
      ArrivingStays(s, t);
    } else {
      t := HeldIsWritten(o, s, Proposed);
      ArrivingStays(s, t);
    }
  }

  lemma {:induction false} ArrivingStays(s: State, t: State)
    requires |s.procs| <= |t.procs|
    requires forall k :: 0 <= k < |s.procs| && s.procs[k].Other? && s.procs[k].o.OStart? ==> t.procs[k] == s.procs[k]
    ensures SomeArriving(s) ==> SomeArriving(t)
  {
    if SomeArriving(s) {
      var k :| 0 <= k < |s.procs| && s.procs[k] == Other(Simulated, OStart);
      assert t.procs[k] == Other(Simulated, OStart);
    }
  }

  /** A new simulation, or one already recorded, moves the intent on. */
  lemma {:induction false} ProposedIsSimulated(o: State, s: State) returns (t: State)
    requires Reaches(o, s) && s.status == Proposed && (s.simulations == 0 || SomeArriving(s))
    ensures Reaches(o, t) && t.status == Simulated && Beside(s, t)
  {
    if s.simulations > 0 {
      var i :| 0 <= i < |s.procs| && s.procs[i] == Other(Simulated, OStart);
      Changes(o, s, i, Simulated);
      t := With(s, i, Other(Simulated, ODone)).(status := Simulated);
    } else {
      Simulates(o, s);
      t := Joined(s, Other(Simulated, ODone)).(status := Simulated, simulations := 1);
    }
  }

  lemma {:induction false} SimulationComes(o: State, s: State) returns (t: State)
    requires Reaches(o, s) && Orderly(s) && SimulationAhead(s)
    ensures Reaches(o, t) && t.status == Simulated && Beside(s, t)
  {
    if s.status == Simulated {
      t := s;
    } else if Held(s, Simulated) {
      t := HeldIsWritten(o, s, Simulated);
    } else {
      var u := ProposalComes(o, s);
      t := ProposedIsSimulated(o, u);
    }
  }

  /** Nothing that the queue, the connector or a creator relies on has moved. */
  predicate Keeps(s: State, t: State) {
    && (t.job, t.enqueued, t.calls, t.denied) == (s.job, s.enqueued, s.calls, s.denied)
    && |s.procs| <= |t.procs|
    && forall k :: 0 <= k < |s.procs| && (s.procs[k].Requester? || s.procs[k].Delivery?) ==> t.procs[k] == s.procs[k]
  }

  lemma {:induction false} KeepsOn(s: State, t: State, u: State)
    requires Keeps(s, t) && Keeps(t, u)
    ensures Keeps(s, u)
  {
  }

  /** With a request there, the intent comes to wait for review; the reviewers' side stays as it is. */
  predicate BesideReviews(s: State, t: State) {
    && Keeps(s, t)
    && (t.row, t.stages, t.decisions) == (s.row, s.stages, s.decisions)
    && forall k :: 0 <= k < |s.procs| && s.procs[k].Reviewer? ==> t.procs[k] == s.procs[k]
  }

  lemma {:induction false} ReviewComes(o: State, s: State) returns (t: State)
    requires Reaches(o, s) && Orderly(s) && ReviewAhead(s) && s.row.Some?
    ensures Reaches(o, t) && t.status == PendingApproval && BesideReviews(s, t)
  {
    if s.status == PendingApproval {
      t := s;
    } else if Held(s, PendingApproval) {
      t := HeldIsWritten(o, s, PendingApproval);
    } else {
      var i :| 0 <= i < |s.procs| && s.procs[i] == Other(PendingApproval, OStart);
      var u := SimulationComes(o, s);
      Changes(o, u, i, PendingApproval);
      t := With(u, i, Other(PendingApproval, ODone)).(status := PendingApproval);
    }
  }

  /** Without a request, a new submission opens one. */
  lemma {:induction false} RequestComes(o: State, s: State) returns (t: State)
    requires Reaches(o, s) && Orderly(s) && SimulationAhead(s) && s.row.None?
    ensures Reaches(o, t) && t.status == PendingApproval && Keeps(s, t)
    ensures t.row.Some? && t.row.value.status == Ledger.Pending
  {
    var u := SimulationComes(o, s);
    var chain, i := [FallbackStage(1)], |u.procs|;
    Submits(o, u, chain);
    var v := Joined(u, Submitter(chain, USeen));
    Opens(o, v, i, chain);
    var w := Opened(v, i, chain);
    Changes(o, w, i, PendingApproval);
    t := With(w, i, Other(PendingApproval, ODone)).(status := PendingApproval);
  }

  // ----- Bringing the reviews to approval -----

  /** Only the reviews have moved on. */
  predicate ReviewsOnly(s: State, t: State) {
    && Keeps(s, t)
    && t.status == s.status && t.simulations == s.simulations && t.row.Some?
    && forall k :: 0 <= k < |s.procs| && !s.procs[k].Reviewer? ==> t.procs[k] == s.procs[k]
  }

  lemma {:induction false} ReviewsOnlyOn(s: State, t: State, u: State)
    requires ReviewsOnly(s, t) && ReviewsOnly(t, u)
    ensures ReviewsOnly(s, u)
  {
    KeepsOn(s, t, u);
  }

  predicate AboutToApprove(p: Proc) {
    p.Reviewer? && p.r == RMoving(Approved)
  }

  function OpenIndex(s: State): nat
    requires s.row.Some? && |s.stages| > 0
  {
    Ledger.Clamp(s.row.value.currentStageIndex, |s.stages|)
  }

  /** Approvals that the current stage still lacks. */
  function Lacking(s: State): nat
    requires s.row.Some? && |s.stages| > 0
  {
    Max(s.stages[OpenIndex(s)].requiredCount - Ledger.Approvals(s.decisions, OpenIndex(s)), 0)
  }

  /** An approval for the stage that was read fills it, or leaves it lacking less. */
  predicate Nearer(s: State, t: State)
    requires s.row.Some? && |s.stages| > 0
  {
    && t.row.Some? && t.row.value.status == Ledger.Pending && t.stages == s.stages
    && (OpenIndex(t) == OpenIndex(s) + 1 || (OpenIndex(t) == OpenIndex(s) && Lacking(t) < Lacking(s)))
  }

  lemma {:induction false} WriteComesNearer(s: State, i: nat, user: int)
    requires i < |s.procs| && s.row.Some? && |s.stages| > 0
    ensures var t := Wrote(s, i, user, SeenBy(s));
            AboutToApprove(t.procs[i]) || Nearer(s, t)
  {
    Ledger.CountsAfter(s.decisions, Vote(s, user, OpenIndex(s)), OpenIndex(s));
  }

  /** One more reviewer, from first read to row write. */
  lemma {:induction false} OneMoreApproves(o: State, s: State) returns (t: State)
    requires Reaches(o, s) && s.row.Some? && s.row.value.status == Ledger.Pending && |s.stages| > 0
    ensures Reaches(o, t) && ReviewsOnly(s, t) && |t.procs| == |s.procs| + 1
    ensures AboutToApprove(t.procs[|s.procs|]) || Nearer(s, t)
  {
    var user, k := Ledger.FreshUser(s.decisions), |s.procs|;
    var u := Joined(s, Reviewer(user, Ledger.Approve, RCleared(SeenBy(s))));
    Reads(o, s, user, Ledger.Approve);
    Writes(o, u, k, user, SeenBy(s));
    t := Wrote(u, k, user, SeenBy(s));
    WriteComesNearer(u, k, user);
  }

  /** A pending request can always be carried to approval by new reviewers. */
  lemma {:induction false} PendingIsApproved(o: State, s: State) returns (t: State, k: nat)
    requires Reaches(o, s) && s.row.Some? && s.row.value.status == Ledger.Pending && |s.stages| > 0
    ensures Reaches(o, t) && ReviewsOnly(s, t) && k < |t.procs| && AboutToApprove(t.procs[k])
    decreases |s.stages| - OpenIndex(s), Lacking(s)
  {
    t := OneMoreApproves(o, s);
    k := |s.procs|;
    if !AboutToApprove(t.procs[k]) {
      var next := t;
      t, k := PendingIsApproved(o, next);
      ReviewsOnlyOn(s, next, t);
    }
  }

  /** An approving request in flight writes the row. */
  lemma {:induction false} ApprovingIsWritten(o: State, s: State, i: nat) returns (t: State)
    requires Approvable(s) && Reaches(o, s) && s.row.Some? && i < |s.procs|
    requires s.procs[i].Reviewer? && s.procs[i].verdict == Ledger.Approve
    requires CanInsert(s, s.procs[i]) || s.procs[i].r.RRecorded?
    ensures Reaches(o, t) && ReviewsOnly(s, t) && |t.stages| > 0 && i < |t.procs|
    ensures if Completes(s.stages, Ledger.Approve, s.procs[i].r.snap) then AboutToApprove(t.procs[i]) else t.row.value.status == Ledger.Pending
  {
    var p := s.procs[i];
    var snap := p.r.snap;
    assert ProcOk(s, p);
    if p.r.RRecorded? {
      Overwrites(o, s, i, p.user, snap);
      t := Overwritten(s, i, p.user, snap);
    } else if p.r.RCleared? {
      Writes(o, s, i, p.user, snap);
      t := Wrote(s, i, p.user, snap);
    } else {
      var u := With(s, i, Reviewer(p.user, p.verdict, RCleared(snap)));
      ReviewerGoes(o, s, i, p.user, p.verdict, p.r, u);
      Writes(o, u, i, p.user, snap);
      t := Wrote(u, i, p.user, snap);
    }
  }

  lemma {:induction false} ApprovalComes(o: State, s: State) returns (t: State, k: nat)
    requires Approvable(s) && Reaches(o, s) && s.row.Some? && ApprovalAhead(s)
    ensures Reaches(o, t) && ReviewsOnly(s, t) && k < |t.procs| && AboutToApprove(t.procs[k])
  {
    if s.row.value.status == Ledger.Pending {
      t, k := PendingIsApproved(o, s);
    } else {
      var i :| 0 <= i < |s.procs| && Approving(s, s.procs[i]);
      if AboutToApprove(s.procs[i]) {
        return s, i;
      }
      var u := ApprovingIsWritten(o, s, i);
      if AboutToApprove(u.procs[i]) {
        return u, i;
      }
      t, k := PendingIsApproved(o, u);
      ReviewsOnlyOn(s, u, t);
    }
  }

  lemma {:induction false} ReviewStaysAhead(s: State, t: State)
    requires ReviewAhead(s) && ReviewsOnly(s, t) && s.row.Some? && Orderly(s)
    ensures ReviewAhead(t)
  {
    forall status: Status | (status.Proposed? || status.Simulated? || status.PendingApproval?) && Held(s, status) ensures Held(t, status) {
      var i :| 0 <= i < |s.procs| && Holding(s.procs[i]) == Some(status);
      assert Shaped(s.procs[i]);
      EarlyHolder(s.procs[i], status);
      assert Holding(t.procs[i]) == Some(status);
    }
    ArrivingStays(s, t);
    if SomeEntering(s) {
      var i :| 0 <= i < |s.procs| && s.procs[i] == Other(PendingApproval, OStart);
      assert t.procs[i] == Other(PendingApproval, OStart);
    }
  }

  lemma {:induction false} ReviewEnds(o: State, s: State) returns (t: State)
    requires Approvable(o) && Orderly(o) && Reaches(o, s) && s.row.Some? && ReviewAhead(s) && ApprovalAhead(s)
    ensures Reaches(o, t) && t.status == Approved && Keeps(s, t)
  {
    ReachesApprovable(o, s);
    ReachesOrderly(o, s);
    var u, k := ApprovalComes(o, s);
    ReviewStaysAhead(s, u);
    ReachesOrderly(o, u);
    var v := ReviewComes(o, u);
    KeepsOn(s, u, v);
    Approves(o, v, k, v.procs[k].user, v.procs[k].verdict);
    t := With(v, k, Reviewer(v.procs[k].user, v.procs[k].verdict, RDone)).(status := Approved);
    KeepsOn(s, v, t);
  }

  lemma {:induction false} ApprovedHolder(p: Proc)
    requires Shaped(p) && Holding(p) == Some(Approved)
    ensures p.Reviewer? && p.r == RWriting(Approved)
  {
  }

  /** Whatever `ApprovalPossible` says can come about does. */
  lemma {:induction false} ApprovedComes(o: State, s: State) returns (t: State)
    requires Approvable(o) && Orderly(o) && Reaches(o, s) && ApprovalPossible(s)
    ensures Reaches(o, t) && t.status == Approved && Keeps(s, t)
  {
    ReachesOrderly(o, s);
    if s.status == Approved {
      t := s;
    } else if Held(s, Approved) {
      var i :| 0 <= i < |s.procs| && Holding(s.procs[i]) == Some(Approved);
      assert Shaped(s.procs[i]);
      ApprovedHolder(s.procs[i]);
      var p := s.procs[i];
      t := With(s.(status := Approved), i, Reviewer(p.user, p.verdict, RDone));
      ReviewerGoes(o, s, i, p.user, p.verdict, RWriting(Approved), t);
    } else if s.row.Some? {
      t := ReviewEnds(o, s);
    } else {
      var u := RequestComes(o, s);
      t := ReviewEnds(o, u);
      KeepsOn(s, u, t);
    }
  }
}
