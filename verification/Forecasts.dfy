/**
 * The exact conditions, read from the present rows and the processes under way: when an intent can
 * still come to be cleared, when a denial can come to stand behind a cleared intent, and when the
 * connector can come to be asked a second time.
 */
module Forecasts {
  import opened Prelude
  import opened IntentStates
  import opened ApprovalStages
  import opened Interleaving
  import opened AtMostOnce
  import opened Orderliness
  import opened Prospects
  import opened Outlook
  import opened Walks
  import Ledger = ApprovalLedger

  /** What every reachable state satisfies. */
  ghost predicate Sound(s: State) {
    Approvable(s) && Orderly(s)
  }

  lemma {:induction false} RunsAreSound(actions: seq<Action>)
    ensures Sound(Run(INIT, actions))
  {
    RunKeepsApprovable(actions);
    RunKeepsOrderly(INIT, actions);
  }

  lemma {:induction false} OneStepBack(s: State, more: seq<Action>)
    requires Sound(s) && more != []
    ensures Sound(Run(s, more[..|more| - 1]))
    ensures Run(s, more) == Step(Run(s, more[..|more| - 1]), more[|more| - 1])
  {
    RunStaysApprovable(s, more[..|more| - 1]);
    RunKeepsOrderly(s, more[..|more| - 1]);
  }

  // ----- Clearance -----

  predicate HeldCleared(s: State) {
    exists i :: 0 <= i < |s.procs| && Holding(s.procs[i]).Some? && Cleared(Holding(s.procs[i]).value)
  }

  /** The intent is cleared, or about to be made so, or can still be approved. */
  predicate ClearAhead(s: State) {
    Cleared(s.status) || HeldCleared(s) || ApprovalPossible(s)
  }

  /** Some continuation clears the intent. */
  ghost predicate MayClear(s: State)
    requires WellFormed(s)
  {
    exists more {:trigger Run(s, more)} :: Cleared(Run(s, more).status)
  }

  lemma {:induction false} ActLeavesUncleared(s: State, i: nat, flag: bool)
    requires Sound(s) && !ClearAhead(s) && i < |s.procs|
    ensures !ClearAhead(Step(s, Act(i, flag)))
  {
    var t := Step(s, Act(i, flag));
    assert Shaped(s.procs[i]);
    ActEffect(s, i, flag);
    ActLeavesImpossible(s, i, flag);
    assert Approving(s, s.procs[i]) ==> SomeApproving(s);
  }

  lemma {:induction false} SpawnLeavesUncleared(s: State, p: Proc)
    requires !ClearAhead(s) && Begins(s, p)
    ensures !ClearAhead(Joined(s, p))
  {
    var t := Joined(s, p);
    SpawnLeavesImpossible(s, p);
  }

  /** A step is a process's, or lets one begin, or does nothing. */
  predicate BeginsOne(s: State, t: State, p: Proc) {
    Begins(s, p) && t == Joined(s, p)
  }

  lemma {:induction false} StepBegins(s: State, a: Action) returns (p: Proc)
    requires WellFormed(s) && !a.Act?
    ensures Step(s, a) == s || BeginsOne(s, Step(s, a), p)
  {
    match a
    case SpawnSimulator => p := Simulator(MStart);
    case SpawnSubmitter(chain) => p := Submitter(chain, UStart);
    case SpawnReviewer(user, verdict) => p := Reviewer(user, verdict, RStart);
    case SpawnRequester => p := Requester(QStart);
    case SpawnDelivery => p := Delivery(DStart);
    case SpawnOther(target) => p := Other(target, OStart);
  }

  lemma {:induction false} StepLeavesUncleared(s: State, a: Action)
    requires Sound(s) && !ClearAhead(s)
    ensures !ClearAhead(Step(s, a))
  {
    if !a.Act? {
      var p := StepBegins(s, a);
      if Step(s, a) != s {
        SpawnLeavesUncleared(s, p);
      }
    } else if a.proc < |s.procs| {
      ActLeavesUncleared(s, a.proc, a.flag);
    }
  }

  lemma {:induction false} RunLeavesUncleared(s: State, more: seq<Action>)
    requires Sound(s) && !ClearAhead(s)
    ensures !ClearAhead(Run(s, more))
  {
    if more != [] {
      OneStepBack(s, more);
      RunLeavesUncleared(s, more[..|more| - 1]);
      StepLeavesUncleared(Run(s, more[..|more| - 1]), more[|more| - 1]);
    }
  }

  /** A process writes the status it holds, and nothing else. */
  lemma {:induction false} HolderWrites(o: State, s: State, i: nat) returns (t: State)
    requires Reaches(o, s) && i < |s.procs| && Holding(s.procs[i]).Some?
    ensures Reaches(o, t) && t.status == Holding(s.procs[i]).value && t.denied == s.denied
  {
    var p, status := s.procs[i], Holding(s.procs[i]).value;
    match p
    case Reviewer(user, verdict, at) =>
      t := With(s.(status := status), i, Reviewer(user, verdict, RDone));
      ReviewerGoes(o, s, i, user, verdict, at, t);
    case Requester(at) =>
      t := With(s.(status := Queued), i, Requester(QMoved));
      RequesterGoes(o, s, i, at, t);
    case Delivery(at) =>
      t := With(s.(status := status), i, Delivery(if at.DWriting? then DReady else DDone));
      DeliveryGoes(o, s, i, at, t);
    case Other(target, at) =>
      t := With(s.(status := target), i, Other(target, ODone));
      OtherGoes(o, s, i, target, at, t);
  }

  lemma {:induction false} ClearanceComes(o: State, s: State) returns (t: State)
    requires Sound(o) && Reaches(o, s) && ClearAhead(s)
    ensures Reaches(o, t) && Cleared(t.status) && t.denied == s.denied
  {
    if Cleared(s.status) {
      t := s;
    } else if HeldCleared(s) {
      var i :| 0 <= i < |s.procs| && Holding(s.procs[i]).Some? && Cleared(Holding(s.procs[i]).value);
      t := HolderWrites(o, s, i);
    } else {
      t := ApprovedComes(o, s);
    }
  }

  /**
   * The exact condition: an intent can come to be cleared if and only if it is, some process is
   * about to make it so, or it can still reach review with its request unsettled or an approval of
   * it under way.
   */
  lemma {:induction false} ClearsExactlyWhen(actions: seq<Action>)
    ensures MayClear(Run(INIT, actions)) <==> ClearAhead(Run(INIT, actions))
  {
    var s := Run(INIT, actions);
    RunsAreSound(actions);
    if ClearAhead(s) {
      ReachesItself(s);
      var t := ClearanceComes(s, s);
      var more :| Leads(s, more, t);
      assert Cleared(Run(s, more).status);
    } else {
      forall more ensures !Cleared(Run(s, more).status) {
        RunLeavesUncleared(s, more);
      }
    }
  }

  // ----- A denial behind a cleared intent -----

  predicate SomeEvaluating(s: State) {
    exists i :: 0 <= i < |s.procs| && s.procs[i].Submitter? && s.procs[i].u.USeen?
  }

  /** Some continuation has the intent cleared with a denial on record. */
  ghost predicate MayClearDenied(s: State)
    requires WellFormed(s)
  {
    exists more {:trigger Run(s, more)} :: Cleared(Run(s, more).status) && Run(s, more).denied
  }

  /** A submission's denial changes nothing that clearance depends on. */
  lemma {:induction false} DenialLeavesClearance(s: State, i: nat, chain: seq<Stage>)
    requires i < |s.procs| && s.procs[i] == Submitter(chain, USeen) && ClearAhead(s)
    ensures ClearAhead(With(s.(denied := true), i, Other(Rejected, OStart)))
  {
    var t := With(s.(denied := true), i, Other(Rejected, OStart));
    if HeldCleared(s) {
      var k :| 0 <= k < |s.procs| && Holding(s.procs[k]).Some? && Cleared(Holding(s.procs[k]).value);
      assert t.procs[k] == s.procs[k];
    }
    forall status ensures Held(s, status) ==> Held(t, status) {
      StillHeld(s, t, i, status);
    }
    ArrivingStays(s, t);
    if SomeEntering(s) {
      var k :| 0 <= k < |s.procs| && s.procs[k] == Other(PendingApproval, OStart);
      assert t.procs[k] == s.procs[k];
    }
    if SomeApproving(s) {
      var k :| 0 <= k < |s.procs| && Approving(s, s.procs[k]);
      assert t.procs[k] == s.procs[k] && Approving(t, t.procs[k]);
    }
  }

  lemma {:induction false} StillHeld(s: State, t: State, i: nat, status: Status)
    requires i < |s.procs| && |t.procs| == |s.procs| && t.procs == s.procs[i := t.procs[i]] && Holding(s.procs[i]).None?
    ensures Held(s, status) ==> Held(t, status)
  {
    if Held(s, status) {
      var k :| 0 <= k < |s.procs| && Holding(s.procs[k]) == Some(status);
      assert t.procs[k] == s.procs[k];
    }
  }

  lemma {:induction false} DenialComes(o: State, s: State) returns (t: State)
    requires Sound(o) && Reaches(o, s) && ClearAhead(s) && (s.denied || SomeEvaluating(s))
    ensures Reaches(o, t) && t.denied && ClearAhead(t)
  {
    t := s;
    if !s.denied {
      var i :| 0 <= i < |s.procs| && s.procs[i].Submitter? && s.procs[i].u.USeen?;
      var chain := s.procs[i].chain;
      t := With(s.(denied := true), i, Other(Rejected, OStart));
      SubmitterGoes(o, s, i, chain, USeen, true, t);
      DenialLeavesClearance(s, i, chain);
    }
  }

  /**
   * The exact condition once a denial is on record or a submission is still evaluating: nothing
   * about the denial matters. It can come to stand behind a cleared intent if and only if the
   * intent can come to be cleared at all.
   */
  lemma {:induction false} DenialIsNoBar(actions: seq<Action>)
    requires Run(INIT, actions).denied || SomeEvaluating(Run(INIT, actions))
    ensures MayClearDenied(Run(INIT, actions)) <==> ClearAhead(Run(INIT, actions))
  {
    var s := Run(INIT, actions);
    RunsAreSound(actions);
    if ClearAhead(s) {
      ReachesItself(s);
      var u := DenialComes(s, s);
      var t := ClearanceComes(s, u);
      var more :| Leads(s, more, t);
      assert Cleared(Run(s, more).status) && Run(s, more).denied;
    } else {
      forall more ensures !Cleared(Run(s, more).status) {
        RunLeavesUncleared(s, more);
      }
    }
  }

  /** A denial is on record, is being evaluated, or a submission can still find the intent simulated. */
  predicate DenialAhead(s: State) {
    s.denied || SomeEvaluating(s) || SimulationAhead(s)
  }

  /** Some continuation puts a denial on record. */
  ghost predicate MayDeny(s: State)
    requires WellFormed(s)
  {
    exists more {:trigger Run(s, more)} :: Run(s, more).denied
  }

  /** What a step of any process but an evaluating submission does to submissions, denials and the request. */
  predicate SubmissionEffect(s: State, t: State, i: nat)
    requires i < |s.procs|
  {
    && |t.procs| == |s.procs|
    && t.denied == s.denied
    && (t.procs[i].Submitter? && t.procs[i].u.USeen? ==> s.status == Simulated)
    && !(t.procs[i].Submitter? && t.procs[i].u.UOpening?)
    && (s.row.None? && t.row.Some? ==> s.procs[i].Submitter? && s.procs[i].u.UOpening?)
  }

  lemma {:induction false} SubmitterSubmissionEffect(s: State, i: nat, chain: seq<Stage>, at: SubmitterAt, flag: bool)
    requires i < |s.procs| && s.procs[i] == Submitter(chain, at) && !at.USeen?
    ensures SubmissionEffect(s, SubmitterStep(s, i, chain, at, flag), i)
  {
  }

  lemma {:induction false} ReviewerSubmissionEffect(s: State, i: nat, user: int, verdict: Ledger.Verdict, at: ReviewerAt, flag: bool)
    requires WellFormed(s) && i < |s.procs| && s.procs[i] == Reviewer(user, verdict, at)
    ensures SubmissionEffect(s, ReviewerStep(s, i, user, verdict, at, flag), i)
  {
  }

  lemma {:induction false} RequesterSubmissionEffect(s: State, i: nat, at: RequesterAt)
    requires i < |s.procs| && s.procs[i] == Requester(at)
    ensures SubmissionEffect(s, RequesterStep(s, i, at), i)
  {
  }

  lemma {:induction false} DeliverySubmissionEffect(s: State, i: nat, at: DeliveryAt, flag: bool)
    requires i < |s.procs| && s.procs[i] == Delivery(at)
    ensures SubmissionEffect(s, DeliveryStep(s, i, at, flag), i)
  {
  }

  lemma {:induction false} ActSubmissionEffect(s: State, i: nat, flag: bool)
    requires WellFormed(s) && i < |s.procs| && !(s.procs[i].Submitter? && s.procs[i].u.USeen?)
    ensures SubmissionEffect(s, Step(s, Act(i, flag)), i)
  {
    match s.procs[i]
    case Reviewer(user, verdict, at) => ReviewerSubmissionEffect(s, i, user, verdict, at, flag);
    case Requester(at) => RequesterSubmissionEffect(s, i, at);
    case Delivery(at) => DeliverySubmissionEffect(s, i, at, flag);
    case Submitter(chain, at) => SubmitterSubmissionEffect(s, i, chain, at, flag);
    case Simulator(_) =>
    case Other(_, _) =>
  }

  lemma {:induction false} ActLeavesUndenied(s: State, i: nat, flag: bool)
    requires Sound(s) && !DenialAhead(s) && i < |s.procs|
    ensures !DenialAhead(Step(s, Act(i, flag)))
  {
    var t := Step(s, Act(i, flag));
    assert Shaped(s.procs[i]);
    assert !(s.procs[i].Submitter? && s.procs[i].u.USeen?);
    ActEffect(s, i, flag);
    ActRowEffect(s, i, flag);
    NeverDraftAgain(s, t, i);
    SimulationStaysBehind(s, t, i);
    ActSubmissionEffect(s, i, flag);
  }

  lemma {:induction false} SpawnLeavesUndenied(s: State, p: Proc)
    requires !DenialAhead(s) && Begins(s, p)
    ensures !DenialAhead(Joined(s, p))
  {
    var t := Joined(s, p);
    SpawnSimulatesNothing(s, p);
  }

  lemma {:induction false} RunLeavesUndenied(s: State, more: seq<Action>)
    requires Sound(s) && !DenialAhead(s)
    ensures !DenialAhead(Run(s, more))
  {
    if more != [] {
      OneStepBack(s, more);
      RunLeavesUndenied(s, more[..|more| - 1]);
      StepLeavesUndenied(Run(s, more[..|more| - 1]), more[|more| - 1]);
    }
  }

  lemma {:induction false} StepLeavesUndenied(s: State, a: Action)
    requires Sound(s) && !DenialAhead(s)
    ensures !DenialAhead(Step(s, a))
  {
    if !a.Act? {
      var p := StepBegins(s, a);
      if Step(s, a) != s {
        SpawnLeavesUndenied(s, p);
      }
    } else if a.proc < |s.procs| {
      ActLeavesUndenied(s, a.proc, a.flag);
    }
  }

  /** A new submission denies the intent once it is simulated. */
  lemma {:induction false} NewDenialComes(o: State, s: State) returns (t: State)
    requires Sound(o) && Reaches(o, s) && SimulationAhead(s)
    ensures Reaches(o, t) && t.denied
  {
    ReachesOrderly(o, s);
    var u := SimulationComes(o, s);
    var chain := [FallbackStage(1)];
    Submits(o, u, chain);
    var v, i := Joined(u, Submitter(chain, USeen)), |u.procs|;
    t := With(v.(denied := true), i, Other(Rejected, OStart));
    SubmitterGoes(o, v, i, chain, USeen, true, t);
  }

  lemma {:induction false} EvaluationDenies(o: State, s: State) returns (t: State)
    requires Reaches(o, s) && SomeEvaluating(s)
    ensures Reaches(o, t) && t.denied
  {
    var i :| 0 <= i < |s.procs| && s.procs[i].Submitter? && s.procs[i].u.USeen?;
    t := With(s.(denied := true), i, Other(Rejected, OStart));
    SubmitterGoes(o, s, i, s.procs[i].chain, USeen, true, t);
  }

  /**
   * When a denial can still come on record: it is there, a submission is evaluating, or the intent
   * can come to be simulated again.
   */
  lemma {:induction false} DeniesExactlyWhen(actions: seq<Action>)
    ensures MayDeny(Run(INIT, actions)) <==> DenialAhead(Run(INIT, actions))
  {
    var s := Run(INIT, actions);
    RunsAreSound(actions);
    ReachesItself(s);
    if DenialAhead(s) {
      var t := s;
      if SimulationAhead(s) && !s.denied {
        t := NewDenialComes(s, s);
      } else if !s.denied {
        t := EvaluationDenies(s, s);
      }
      var more :| Leads(s, more, t);
      assert Run(s, more).denied;
    } else {
      forall more ensures !Run(s, more).denied {
        RunLeavesUndenied(s, more);
      }
    }
  }
}
