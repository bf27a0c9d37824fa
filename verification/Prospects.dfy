/**
 * What can still happen to an intent, read from its present rows and the requests in flight. Nothing
 * but a single database call is atomic; each condition is exact.
 */
module Prospects {
  import opened Prelude
  import opened IntentStates
  import opened ApprovalStages
  import opened Interleaving
  import opened AtMostOnce
  import opened Orderliness
  import opened ReviewRaces
  import opened Walks
  import Ledger = ApprovalLedger

  // ----- What a step does to the status -----

  /** The status stays or becomes what the process held, and a process comes to hold only legal moves. */
  predicate StatusEffect(s: State, t: State, i: nat)
    requires i < |s.procs|
  {
    && |t.procs| == |s.procs| && t.procs == s.procs[i := t.procs[i]]
    && (t.status == s.status || Holding(s.procs[i]) == Some(t.status))
    && (Holding(t.procs[i]).Some? && t.procs[i] != s.procs[i] ==>
          var target := Holding(t.procs[i]).value;
          IsValidTransition(s.status, target) && Checking(s.procs[i], target))
  }

  /** The process that can be about to check whether it may write this status. */
  predicate Checking(p: Proc, target: Status) {
    match target
    case Approved => p.Reviewer? && p.r == RMoving(Approved)
    case PendingApproval => p == Other(PendingApproval, OStart)
    case Simulated => p == Other(Simulated, OStart)
    case Queued => p == Requester(QCreated)
    case Executing => p == Delivery(DMarked)
    case _ => true
  }

  lemma {:induction false} ReviewerEffect(s: State, i: nat, user: int, verdict: Ledger.Verdict, at: ReviewerAt, flag: bool)
    requires WellFormed(s) && i < |s.procs| && s.procs[i] == Reviewer(user, verdict, at)
    requires Shaped(s.procs[i])
    ensures StatusEffect(s, ReviewerStep(s, i, user, verdict, at, flag), i)
  {
  }

  lemma {:induction false} RequesterEffect(s: State, i: nat, at: RequesterAt)
    requires i < |s.procs| && s.procs[i] == Requester(at)
    ensures StatusEffect(s, RequesterStep(s, i, at), i)
  {
  }

  lemma {:induction false} DeliveryEffect(s: State, i: nat, at: DeliveryAt, flag: bool)
    requires i < |s.procs| && s.procs[i] == Delivery(at)
    requires Shaped(s.procs[i])
    ensures StatusEffect(s, DeliveryStep(s, i, at, flag), i)
  {
  }

  lemma {:induction false} SimulatorEffect(s: State, i: nat, at: SimulatorAt, flag: bool)
    requires i < |s.procs| && s.procs[i] == Simulator(at)
    ensures StatusEffect(s, SimulatorStep(s, i, at, flag), i)
  {
  }

  lemma {:induction false} SubmitterEffect(s: State, i: nat, chain: seq<Stage>, at: SubmitterAt, flag: bool)
    requires i < |s.procs| && s.procs[i] == Submitter(chain, at)
    ensures StatusEffect(s, SubmitterStep(s, i, chain, at, flag), i)
  {
  }

  lemma {:induction false} OtherEffect(s: State, i: nat, target: Status, at: OtherAt)
    requires i < |s.procs| && s.procs[i] == Other(target, at)
    requires Shaped(s.procs[i])
    ensures StatusEffect(s, OtherStep(s, i, target, at), i)
  {
  }

  lemma {:induction false} ActEffect(s: State, i: nat, flag: bool)
    requires WellFormed(s) && i < |s.procs| && Shaped(s.procs[i])
    ensures StatusEffect(s, Step(s, Act(i, flag)), i)
  {
    match s.procs[i]
    case Reviewer(user, verdict, at) => ReviewerEffect(s, i, user, verdict, at, flag);
    case Requester(at) => RequesterEffect(s, i, at);
    case Delivery(at) => DeliveryEffect(s, i, at, flag);
    case Simulator(at) => SimulatorEffect(s, i, at, flag);
    case Submitter(chain, at) => SubmitterEffect(s, i, chain, at, flag);
    case Other(target, at) => OtherEffect(s, i, target, at);
  }

  // ----- Whether the intent can still come to be approved -----

  predicate Held(s: State, status: Status) {
    exists i :: 0 <= i < |s.procs| && Holding(s.procs[i]) == Some(status)
  }

  /** The status can still come to be `Proposed`. */
  predicate ProposalAhead(s: State) {
    s.status.Draft? || s.status.Proposed? || Held(s, Proposed)
  }

  predicate SomeArriving(s: State) {
    exists i :: 0 <= i < |s.procs| && s.procs[i] == Other(Simulated, OStart)
  }

  /** The status can still come to be `Simulated`: a simulation is recorded only once. */
  predicate SimulationAhead(s: State) {
    || s.status.Simulated?
    || Held(s, Simulated)
    || (ProposalAhead(s) && (s.simulations == 0 || SomeArriving(s)))
  }

  predicate SomeEntering(s: State) {
    exists i :: 0 <= i < |s.procs| && s.procs[i] == Other(PendingApproval, OStart)
  }

  /** The status can still come to be `PendingApproval`. */
  predicate ReviewAhead(s: State) {
    || s.status.PendingApproval?
    || Held(s, PendingApproval)
    || (SimulationAhead(s) && (s.row.None? || SomeEntering(s)))
  }

  /** Past the first read and not refused for an earlier decision. */
  predicate CanInsert(s: State, p: Proc) {
    p.Reviewer? && (p.r.RCleared? || (p.r.RSeen? && !Ledger.HasDecided(s.decisions, p.user)))
  }

  /** An approving request that can still write the row, or that is about to move the intent. */
  predicate Approving(s: State, p: Proc) {
    && p.Reviewer?
    && (p.r == RMoving(Approved) || (p.verdict == Ledger.Approve && (CanInsert(s, p) || p.r.RRecorded?)))
  }

  predicate SomeApproving(s: State) {
    exists i :: 0 <= i < |s.procs| && Approving(s, s.procs[i])
  }

  /** The row is not settled, or a request in flight approves. */
  predicate ApprovalAhead(s: State) {
    s.row.None? || s.row.value.status == Ledger.Pending || SomeApproving(s)
  }

  predicate ApprovalPossible(s: State) {
    s.status.Approved? || Held(s, Approved) || (ReviewAhead(s) && ApprovalAhead(s))
  }

  /** A status that nobody holds and that cannot be entered from here is not held next. */
  lemma {:induction false} HeldNext(s: State, t: State, i: nat, status: Status)
    requires i < |s.procs| && StatusEffect(s, t, i) && !Held(s, status)
    ensures t.status == status ==> s.status == status
    ensures Held(t, status) ==> IsValidTransition(s.status, status) && Holding(t.procs[i]) == Some(status)
  {
    if Held(t, status) {
      var k :| 0 <= k < |t.procs| && Holding(t.procs[k]) == Some(status);
      assert k != i ==> Holding(s.procs[k]) == Some(status);
    }
  }

  lemma {:induction false} ProposalStaysBehind(s: State, t: State, i: nat)
    requires i < |s.procs| && StatusEffect(s, t, i) && !ProposalAhead(s)
    requires t.status == s.status || t.status != Draft
    ensures !ProposalAhead(t)
  {
    HeldNext(s, t, i, Proposed);
  }

  lemma {:induction false} SimulationStaysBehind(s: State, t: State, i: nat)
    requires i < |s.procs| && StatusEffect(s, t, i) && RowEffect(s, t, i) && !SimulationAhead(s)
    requires t.status == s.status || t.status != Draft
    ensures !SimulationAhead(t)
  {
    HeldNext(s, t, i, Simulated);
    assert s.procs[i] == Other(Simulated, OStart) ==> SomeArriving(s);
    if !ProposalAhead(s) {
      ProposalStaysBehind(s, t, i);
    }
  }

  /** What a step does to the simulation, the row, and processes that have just recorded either. */
  predicate RowEffect(s: State, t: State, i: nat)
    requires i < |s.procs| && |t.procs| == |s.procs|
  {
    && s.simulations <= t.simulations
    && (t.procs[i] == Other(Simulated, OStart) ==> t.procs[i] == s.procs[i] || s.simulations == 0)
    && (s.row.Some? ==> t.row.Some?)
    && (t.procs[i] == Other(PendingApproval, OStart) ==> t.procs[i] == s.procs[i] || s.row.None?)
  }

  lemma {:induction false} ActRowEffect(s: State, i: nat, flag: bool)
    requires WellFormed(s) && i < |s.procs|
    ensures |Step(s, Act(i, flag)).procs| == |s.procs| && RowEffect(s, Step(s, Act(i, flag)), i)
  {
    match s.procs[i]
    case Reviewer(user, verdict, at) => ReviewerRowEffect(s, i, user, verdict, at, flag);
    case Submitter(chain, at) => SubmitterRowEffect(s, i, chain, at, flag);
    case Requester(at) => RequesterRowEffect(s, i, at);
    case Delivery(at) => DeliveryRowEffect(s, i, at, flag);
    case Simulator(_) =>
    case Other(_, _) =>
  }

  lemma {:induction false} RequesterRowEffect(s: State, i: nat, at: RequesterAt)
    requires i < |s.procs| && s.procs[i] == Requester(at)
    ensures var t := RequesterStep(s, i, at);
            |t.procs| == |s.procs| && RowEffect(s, t, i)
  {
  }

  lemma {:induction false} DeliveryRowEffect(s: State, i: nat, at: DeliveryAt, flag: bool)
    requires i < |s.procs| && s.procs[i] == Delivery(at)
    ensures var t := DeliveryStep(s, i, at, flag);
            |t.procs| == |s.procs| && RowEffect(s, t, i)
  {
  }

  lemma {:induction false} ReviewerRowEffect(s: State, i: nat, user: int, verdict: Ledger.Verdict, at: ReviewerAt, flag: bool)
    requires WellFormed(s) && i < |s.procs| && s.procs[i] == Reviewer(user, verdict, at)
    ensures var t := ReviewerStep(s, i, user, verdict, at, flag);
            |t.procs| == |s.procs| && RowEffect(s, t, i)
  {
  }

  lemma {:induction false} SubmitterRowEffect(s: State, i: nat, chain: seq<Stage>, at: SubmitterAt, flag: bool)
    requires i < |s.procs| && s.procs[i] == Submitter(chain, at)
    ensures var t := SubmitterStep(s, i, chain, at, flag);
            |t.procs| == |s.procs| && RowEffect(s, t, i)
  {
  }

  lemma {:induction false} ReviewStaysBehind(s: State, t: State, i: nat)
    requires i < |s.procs| && StatusEffect(s, t, i) && RowEffect(s, t, i) && !ReviewAhead(s)
    requires t.status == s.status || t.status != Draft
    ensures !ReviewAhead(t)
  {
    HeldNext(s, t, i, PendingApproval);
    if !SimulationAhead(s) {
      SimulationStaysBehind(s, t, i);
    }
    if SomeEntering(t) {
      var k :| 0 <= k < |t.procs| && t.procs[k] == Other(PendingApproval, OStart);
      assert k != i ==> s.procs[k] == Other(PendingApproval, OStart);
    }
    assert s.procs[i] == Other(PendingApproval, OStart) ==> SomeEntering(s);
  }

  lemma {:induction false} ReviewerLeavesUnapproved(s: State, i: nat, user: int, verdict: Ledger.Verdict, at: ReviewerAt, flag: bool)
    requires WellFormed(s) && !ApprovalAhead(s) && i < |s.procs| && s.procs[i] == Reviewer(user, verdict, at)
    ensures !ApprovalAhead(ReviewerStep(s, i, user, verdict, at, flag))
  {
    var t := ReviewerStep(s, i, user, verdict, at, flag);
    assert !Approving(s, s.procs[i]);
    forall k | 0 <= k < |t.procs| ensures !Approving(t, t.procs[k]) {
      if k != i {
        NotApprovingStays(s, t, s.procs[k]);
      }
    }
  }

  lemma {:induction false} NotApprovingStays(s: State, t: State, p: Proc)
    requires !Approving(s, p) && Extends(s.decisions, t.decisions)
    ensures !Approving(t, p)
  {
    if p.Reviewer? && Ledger.HasDecided(s.decisions, p.user) {
      var d :| d in s.decisions && d.user == p.user;
      assert d in t.decisions;
    }
  }

  lemma {:induction false} OthersLeaveUnapproved(s: State, t: State, i: nat)
    requires !ApprovalAhead(s) && i < |s.procs| && LeavesReviews(s, t, i)
    ensures !ApprovalAhead(t)
  {
    forall k | 0 <= k < |t.procs| ensures !Approving(t, t.procs[k]) {
      if k != i {
        NotApprovingStays(s, t, s.procs[k]);
      }
    }
  }

  lemma {:induction false} ActLeavesUnapproved(s: State, i: nat, flag: bool)
    requires WellFormed(s) && !ApprovalAhead(s) && i < |s.procs|
    ensures !ApprovalAhead(Step(s, Act(i, flag)))
  {
    if s.procs[i].Reviewer? {
      ReviewerLeavesUnapproved(s, i, s.procs[i].user, s.procs[i].verdict, s.procs[i].r, flag);
    } else {
      OthersRecordNothing(s, i, flag);
      OthersLeaveUnapproved(s, Step(s, Act(i, flag)), i);
    }
  }

  /** The status never goes back to `Draft`. */
  lemma {:induction false} NeverDraftAgain(s: State, t: State, i: nat)
    requires i < |s.procs| && StatusEffect(s, t, i) && Shaped(s.procs[i])
    ensures t.status == s.status || t.status != Draft
  {
  }

  lemma {:induction false} ActLeavesImpossible(s: State, i: nat, flag: bool)
    requires WellFormed(s) && Orderly(s) && !ApprovalPossible(s) && i < |s.procs|
    ensures !ApprovalPossible(Step(s, Act(i, flag)))
  {
    var t := Step(s, Act(i, flag));
    assert Shaped(s.procs[i]);
    ActEffect(s, i, flag);
    ActRowEffect(s, i, flag);
    NeverDraftAgain(s, t, i);
    HeldNext(s, t, i, Approved);
    assert Approving(s, s.procs[i]) ==> SomeApproving(s);
    if !ReviewAhead(s) {
      ReviewStaysBehind(s, t, i);
    } else {
      ActLeavesUnapproved(s, i, flag);
    }
  }

  lemma {:induction false} SpawnLeavesImpossible(s: State, p: Proc)
    requires !ApprovalPossible(s) && Begins(s, p)
    ensures !ApprovalPossible(Joined(s, p))
  {
    var t := Joined(s, p);
    forall status ensures Held(t, status) ==> Held(s, status) {
      SpawnHoldsNothing(s, p, status);
    }
    SpawnSimulatesNothing(s, p);
    if SomeEntering(t) {
      var k :| 0 <= k < |t.procs| && t.procs[k] == Other(PendingApproval, OStart);
      assert k < |s.procs| && s.procs[k] == Other(PendingApproval, OStart);
    }
    if SomeApproving(t) {
      var k :| 0 <= k < |t.procs| && Approving(t, t.procs[k]);
      assert k < |s.procs| && Approving(s, s.procs[k]);
    }
  }

  lemma {:induction false} SpawnSimulatesNothing(s: State, p: Proc)
    requires Begins(s, p)
    ensures SimulationAhead(Joined(s, p)) ==> SimulationAhead(s)
  {
    var t := Joined(s, p);
    SpawnHoldsNothing(s, p, Proposed);
    SpawnHoldsNothing(s, p, Simulated);
    if SomeArriving(t) {
      var k :| 0 <= k < |t.procs| && t.procs[k] == Other(Simulated, OStart);
      assert k < |s.procs| && s.procs[k] == Other(Simulated, OStart);
    }
  }

  lemma {:induction false} SpawnHoldsNothing(s: State, p: Proc, status: Status)
    requires Begins(s, p)
    ensures Held(Joined(s, p), status) ==> Held(s, status)
  {
    var t := Joined(s, p);
    if Held(t, status) {
      var k :| 0 <= k < |t.procs| && Holding(t.procs[k]) == Some(status);
      assert k < |s.procs| && Holding(s.procs[k]) == Some(status);
    }
  }
}
