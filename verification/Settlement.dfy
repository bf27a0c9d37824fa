/** Where an execution settles when nothing is atomic: by what the connector's call did. */
module Settlement {
  import opened Prelude
  import opened IntentStates
  import opened Interleaving
  import opened AtMostOnce
  import ApprovalStages
  import Ledger = ApprovalLedger

  // ----- Calls that returned -----

  /** This step is a call to the connector, and the call returns. */
  predicate CallReturns(s: State, a: Action) {
    a.Act? && a.proc < |s.procs| && s.procs[a.proc] == Delivery(DReady) && a.flag
  }

  /** How many of a run's calls to the connector returned; the others threw. */
  function Returns(actions: seq<Action>): nat {
    if actions == [] then 0
    else
      var before := actions[..|actions| - 1];
      Returns(before) + (if CallReturns(Run(INIT, before), actions[|actions| - 1]) then 1 else 0)
  }

  /** What a delivery relies on: what it will write is what some call did, or is refused. */
  predicate Honest(s: State, returned: nat, p: Proc) {
    match p
    case Delivery(DReturned(ok)) => s.calls > 0 && (if ok then returned > 0 else returned < s.calls || s.status != Executing)
    case Delivery(DSettling(target)) =>
      && s.calls > 0
      && (target == Succeeded ==> returned > 0)
      && (target == Failed ==> returned < s.calls || s.status != Executing)
    case Delivery(DSettleWriting(target)) =>
      && s.calls > 0 && (target == Succeeded ==> returned > 0) && (target == Failed ==> returned < s.calls)
    case Other(target, _) => !target.Succeeded? && !target.Failed?
    case Reviewer(_, _, RMoving(target)) => !target.Succeeded? && !target.Failed?
    case Reviewer(_, _, RWriting(target)) => !target.Succeeded? && !target.Failed?
    case _ => true
  }

  predicate AllHonest(s: State, returned: nat) {
    forall i :: 0 <= i < |s.procs| ==> Honest(s, returned, s.procs[i])
  }

  /** The rows tell what the calls did. */
  predicate Told(s: State, returned: nat) {
    && returned <= s.calls
    && (s.status == Succeeded ==> returned > 0)
    && (s.status == Failed ==> returned < s.calls)
    && (s.job == Some(JobCompleted) ==> returned > 0)
    && AllHonest(s, returned)
  }

  /** A step after which the other processes can rely on what they relied on before. */
  lemma {:induction false} OneMovesHonestly(s: State, t: State, i: nat, p: Proc, returned: nat, more: nat)
    requires Told(s, returned) && i < |s.procs| && t.procs == s.procs[i := p]
    requires Honest(t, more, p)
    requires returned <= more <= t.calls && s.calls <= t.calls && t.calls - more >= s.calls - returned
    requires t.status == Executing ==> s.status == Executing || s.calls == 0
    requires t.status == Succeeded ==> more > 0
    requires t.status == Failed ==> more < t.calls
    requires t.job == Some(JobCompleted) ==> more > 0
    ensures Told(t, more)
  {
  }

  lemma {:induction false} ReviewerTells(s: State, i: nat, user: int, verdict: Ledger.Verdict, at: ReviewerAt, flag: bool, returned: nat)
    requires WellFormed(s) && Told(s, returned) && i < |s.procs| && s.procs[i] == Reviewer(user, verdict, at) && Shaped(s.procs[i])
    ensures Told(ReviewerStep(s, i, user, verdict, at, flag), returned)
  {
    var t := ReviewerStep(s, i, user, verdict, at, flag);
    assert Honest(s, returned, s.procs[i]);
    if t != s {
      OneMovesHonestly(s, t, i, t.procs[i], returned, returned);
    }
  }

  lemma {:induction false} RequesterTells(s: State, i: nat, at: RequesterAt, returned: nat)
    requires Told(s, returned) && i < |s.procs| && s.procs[i] == Requester(at)
    ensures Told(RequesterStep(s, i, at), returned)
  {
    var t := RequesterStep(s, i, at);
    if t != s {
      OneMovesHonestly(s, t, i, t.procs[i], returned, returned);
    }
  }

  lemma {:induction false} OthersTell(s: State, i: nat, target: Status, at: OtherAt, returned: nat)
    requires Told(s, returned) && i < |s.procs| && s.procs[i] == Other(target, at) && Shaped(s.procs[i])
    ensures Told(OtherStep(s, i, target, at), returned)
  {
    var t := OtherStep(s, i, target, at);
    assert Honest(s, returned, s.procs[i]);
    if t != s {
      OneMovesHonestly(s, t, i, t.procs[i], returned, returned);
    }
  }

  lemma {:induction false} SimulatorTells(s: State, i: nat, at: SimulatorAt, flag: bool, returned: nat)
    requires Told(s, returned) && i < |s.procs| && s.procs[i] == Simulator(at)
    ensures Told(SimulatorStep(s, i, at, flag), returned)
  {
    var t := SimulatorStep(s, i, at, flag);
    if t != s {
      OneMovesHonestly(s, t, i, t.procs[i], returned, returned);
    }
  }

  lemma {:induction false} SubmitterTells(s: State, i: nat, chain: seq<ApprovalStages.Stage>, at: SubmitterAt, flag: bool, returned: nat)
    requires Told(s, returned) && i < |s.procs| && s.procs[i] == Submitter(chain, at)
    ensures Told(SubmitterStep(s, i, chain, at, flag), returned)
  {
    var t := SubmitterStep(s, i, chain, at, flag);
    if t != s {
      OneMovesHonestly(s, t, i, t.procs[i], returned, returned);
    }
  }

  /** A delivery that has claimed the intent comes before any call, unless two overlap. */
  lemma {:induction false} DeliveryTells(s: State, i: nat, at: DeliveryAt, flag: bool, returned: nat)
    requires Told(s, returned) && Once(s) && i < |s.procs| && s.procs[i] == Delivery(at)
    ensures Told(DeliveryStep(s, i, at, flag), returned + (if at.DReady? && flag then 1 else 0))
  {
    var t := DeliveryStep(s, i, at, flag);
    assert Honest(s, returned, s.procs[i]) && Shaped(s.procs[i]);
    assert at.DWriting? ==> Claiming(s.procs[i]);
    if t != s {
      OneMovesHonestly(s, t, i, t.procs[i], returned, returned + (if at.DReady? && flag then 1 else 0));
    }
  }

  lemma {:induction false} ActTells(s: State, i: nat, flag: bool, returned: nat)
    requires WellFormed(s) && Told(s, returned) && Once(s) && i < |s.procs|
    ensures Told(Step(s, Act(i, flag)), returned + (if CallReturns(s, Act(i, flag)) then 1 else 0))
  {
    assert Shaped(s.procs[i]);
    match s.procs[i]
    case Reviewer(user, verdict, at) => ReviewerTells(s, i, user, verdict, at, flag, returned);
    case Requester(at) => RequesterTells(s, i, at, returned);
    case Delivery(at) => DeliveryTells(s, i, at, flag, returned);
    case Simulator(at) => SimulatorTells(s, i, at, flag, returned);
    case Submitter(chain, at) => SubmitterTells(s, i, chain, at, flag, returned);
    case Other(target, at) => OthersTell(s, i, target, at, returned);
  }

  lemma {:induction false} StepTells(s: State, a: Action, returned: nat)
    requires WellFormed(s) && Told(s, returned) && Once(s)
    ensures Told(Step(s, a), returned + (if CallReturns(s, a) then 1 else 0))
  {
    if a.Act? && a.proc < |s.procs| {
      ActTells(s, a.proc, a.flag, returned);
    }
  }

  lemma {:induction false} BeforeNeverOverlaps(actions: seq<Action>, n: nat)
    requires NeverOverlaps(actions) && n <= |actions|
    ensures NeverOverlaps(actions[..n])
  {
    forall k | 0 <= k <= n ensures !OverlapsAt(actions[..n], k) {
      assert actions[..n][..k] == actions[..k];
      assert !OverlapsAt(actions, k);
    }
  }

  lemma {:induction false} RunTells(actions: seq<Action>)
    requires NeverOverlaps(actions)
    ensures Told(Run(INIT, actions), Returns(actions))
  {
    if actions != [] {
      var n := |actions| - 1;
      BeforeNeverOverlaps(actions, n);
      RunTells(actions[..n]);
      RunKeepsOnce(actions[..n]);
      StepTells(Run(INIT, actions[..n]), actions[n], Returns(actions[..n]));
    }
  }

  /**
   * On every run without overlapping claims, whatever else is interleaved: an intent stands at
   * `Succeeded` or `Failed` only after its one call to the connector, at `Succeeded` exactly when the
   * call returned; and a job stands at `JobCompleted` only when it did.
   */
  lemma {:induction false} SettledByTheCall(actions: seq<Action>)
    requires NeverOverlaps(actions)
    ensures var s := Run(INIT, actions);
            && (s.status == Succeeded || s.status == Failed ==> s.calls == 1 && (s.status == Succeeded <==> Returns(actions) == 1))
            && (s.job == Some(JobCompleted) ==> s.calls == 1 && Returns(actions) == 1)
  {
    RunTells(actions);
    AtMostOneCall(actions);
  }

  // ----- When the intent has been moved away -----

  lemma {:induction false} ThreeSteps(s: State, a: Action)
    requires WellFormed(s)
    ensures Run(s, [a, a, a]) == Step(Step(Step(s, a), a), a)
  {
    assert [] + [a] == [a] && [a] + [a] == [a, a] && [a, a] + [a] == [a, a, a];
    RunOneMore(s, [], a);
    RunOneMore(s, [a], a);
    RunOneMore(s, [a, a], a);
  }

  /** A delivery about to settle its intent, which is still executing, does. */
  lemma {:induction false} SettlesWhatItFinds(s: State, i: nat, target: Status)
    requires WellFormed(s) && i < |s.procs| && s.procs[i] == Delivery(DSettling(target)) && s.status == Executing
    requires target == Succeeded || target == Failed
    ensures Run(s, [Act(i, true), Act(i, true), Act(i, true)]) == With(s.(status := target), i, Delivery(DDone))
  {
    var s1 := With(s, i, Delivery(DSettleWriting(target)));
    var s2 := With(s1.(status := target), i, Delivery(DDone));
    assert DeliveryStep(s, i, DSettling(target), true) == s1;
    assert DeliveryStep(s1, i, DSettleWriting(target), true) == s2;
    assert DeliveryStep(s2, i, DDone, true) == s2;
    assert s1.procs[i := Delivery(DDone)] == s.procs[i := Delivery(DDone)];
    ThreeSteps(s, Act(i, true));
  }

  /**
   * One that finds its intent moved away leaves it there and marks the job failed, even though the
   * connector's call returned: the error is caught where the connector's own errors are.
   */
  lemma {:induction false} ReturnedCallIsMarkedFailed(s: State, i: nat)
    requires WellFormed(s) && i < |s.procs| && s.procs[i] == Delivery(DSettling(Succeeded)) && s.status != Executing
    ensures Run(s, [Act(i, true), Act(i, true), Act(i, true)]) == With(s.(job := Some(JobFailed)), i, Delivery(DDone))
  {
    var s1 := With(s, i, Delivery(DReturned(false)));
    var s2 := With(s1.(job := Some(JobFailed)), i, Delivery(DSettling(Failed)));
    var s3 := With(s2, i, Delivery(DDone));
    assert DeliveryStep(s, i, DSettling(Succeeded), true) == s1;
    assert DeliveryStep(s1, i, DReturned(false), true) == s2;
    assert DeliveryStep(s2, i, DSettling(Failed), true) == s3;
    assert s3.procs == s.procs[i := Delivery(DDone)];
    ThreeSteps(s, Act(i, true));
  }
}
