/**
 * How often the connector is asked to execute when nothing is atomic: the exact condition under
 * which it is asked at most once.
 */
module AtMostOnce {
  import opened Prelude
  import opened IntentStates
  import opened ApprovalStages
  import opened Interleaving
  import Ledger = ApprovalLedger

  // ----- Who may still write `Queued` -----

  predicate Creating(p: Proc) {
    p.Requester? && (p.q.QCreated? || p.q.QWriting?)
  }

  predicate Claiming(p: Proc) {
    p.Delivery? && p.d.DWriting?
  }

  predicate Claimed(p: Proc) {
    p.Delivery? && p.d.DReady?
  }

  /** Two deliveries have both read `Queued` and neither has overwritten it yet. */
  predicate Overlap(s: State) {
    exists i, j :: 0 <= i < j < |s.procs| && Claiming(s.procs[i]) && Claiming(s.procs[j])
  }

  /** The intent has never been queued. */
  predicate NeverQueued(s: State) {
    && s.status != Queued && !s.enqueued && s.calls == 0
    && forall i :: 0 <= i < |s.procs| ==> !s.procs[i].Delivery? && s.procs[i] != Requester(QMoved)
  }

  /** A process writes only the statuses that are its business. */
  predicate Shaped(p: Proc) {
    match p
    case Reviewer(_, _, RMoving(target)) => target == Approved || target == Rejected
    case Reviewer(_, _, RWriting(target)) => target == Approved || target == Rejected
    case Delivery(DSettling(target)) => target == Succeeded || target == Failed
    case Delivery(DSettleWriting(target)) => target == Succeeded || target == Failed
    case Other(target, _) => WrittenElsewhere(target)
    case Submitter(chain, at) => at.USeen? || at.UOpening? ==> ValidChain(chain)
    case _ => true
  }

  /** The connector has been called or some delivery is about to. */
  predicate Consumed(s: State) {
    s.calls > 0 || exists i :: 0 <= i < |s.procs| && Claimed(s.procs[i])
  }

  /** Only the one process that created the job can still queue the intent. */
  predicate CreatorIsAlone(s: State) {
    && (s.job.None? ==> NeverQueued(s))
    && (forall i :: 0 <= i < |s.procs| && Creating(s.procs[i]) ==> s.job.Some? && NeverQueued(s))
    && (forall i, j :: 0 <= i < j < |s.procs| ==> !(Creating(s.procs[i]) && Creating(s.procs[j])))
  }

  /** Only one process has the call, and only until it is made. */
  predicate CallIsTakenOnce(s: State) {
    && s.calls <= 1
    && (s.calls == 1 ==> forall i :: 0 <= i < |s.procs| ==> !Claimed(s.procs[i]))
    && (forall i, j :: 0 <= i < j < |s.procs| ==> !(Claimed(s.procs[i]) && Claimed(s.procs[j])))
  }

  predicate Once(s: State) {
    && (forall i :: 0 <= i < |s.procs| ==> Shaped(s.procs[i]))
    && CreatorIsAlone(s)
    && (Consumed(s) ==> s.status != Queued && forall i :: 0 <= i < |s.procs| ==> !Claiming(s.procs[i]))
    && CallIsTakenOnce(s)
  }

  /** A step that neither creates, claims nor calls, and does not write `Queued`, changes nothing here. */
  lemma {:induction false} BystanderKeepsOnce(s: State, t: State, i: nat, p: Proc)
    requires Once(s) && i < |s.procs| && t.procs == s.procs[i := p]
    requires Shaped(p) && !Creating(p) && !Claiming(p) && !Claimed(p) && p != Requester(QMoved)
    requires !Claimed(s.procs[i])
    requires p.Delivery? ==> s.procs[i].Delivery?
    requires t.calls == s.calls && t.enqueued == s.enqueued && (t.job.Some? <==> s.job.Some?)
    requires t.status == s.status || t.status != Queued
    ensures Once(t)
  {
  }

  lemma {:induction false} ReviewerKeepsOnce(s: State, i: nat, user: int, verdict: Ledger.Verdict, at: ReviewerAt, flag: bool)
    requires Once(s) && WellFormed(s) && i < |s.procs| && s.procs[i] == Reviewer(user, verdict, at)
    ensures Once(ReviewerStep(s, i, user, verdict, at, flag))
  {
    var t := ReviewerStep(s, i, user, verdict, at, flag);
    assert Shaped(s.procs[i]);
    if t != s {
      BystanderKeepsOnce(s, t, i, t.procs[i]);
    }
  }

  lemma {:induction false} OtherKeepsOnce(s: State, i: nat, target: Status, at: OtherAt)
    requires Once(s) && i < |s.procs| && s.procs[i] == Other(target, at)
    ensures Once(OtherStep(s, i, target, at))
  {
    var t := OtherStep(s, i, target, at);
    assert Shaped(s.procs[i]);
    if t != s {
      BystanderKeepsOnce(s, t, i, t.procs[i]);
    }
  }

  /** The job row is unique, so whoever creates it is alone. */
  lemma {:induction false} CreateKeepsOnce(s: State, i: nat)
    requires Once(s) && i < |s.procs| && s.procs[i] == Requester(QSawNoJob) && s.job.None?
    ensures Once(With(s.(job := Some(JobQueued)), i, Requester(QCreated)))
  {
    assert forall k :: 0 <= k < |s.procs| ==> !Creating(s.procs[k]);
  }

  /** The creator queues the intent, and nobody else can any more. */
  lemma {:induction false} QueueKeepsOnce(s: State, i: nat, at: RequesterAt)
    requires Once(s) && i < |s.procs| && s.procs[i] == Requester(at) && (at.QCreated? || at.QWriting?)
    ensures Once(RequesterStep(s, i, at))
  {
    assert Creating(s.procs[i]);
  }

  lemma {:induction false} EnqueueKeepsOnce(s: State, i: nat)
    requires Once(s) && i < |s.procs| && s.procs[i] == Requester(QMoved)
    ensures Once(RequesterStep(s, i, QMoved))
  {
  }

  lemma {:induction false} RequesterKeepsOnce(s: State, i: nat, at: RequesterAt)
    requires Once(s) && i < |s.procs| && s.procs[i] == Requester(at)
    ensures Once(RequesterStep(s, i, at))
  {
    var t := RequesterStep(s, i, at);
    match at
    case QSawNoJob =>
      if s.job.None? {
        CreateKeepsOnce(s, i);
      } else {
        BystanderKeepsOnce(s, t, i, Requester(QDone));
      }
    case QCreated => QueueKeepsOnce(s, i, at);
    case QWriting => QueueKeepsOnce(s, i, at);
    case QMoved => EnqueueKeepsOnce(s, i);
    case QDone =>
    case _ => BystanderKeepsOnce(s, t, i, t.procs[i]);
  }

  /** A delivery that reads `Queued` claims the call, unless someone already has it. */
  lemma {:induction false} ClaimKeepsOnce(s: State, i: nat)
    requires Once(s) && i < |s.procs| && s.procs[i] == Delivery(DMarked) && s.status == Queued
    ensures Once(With(s, i, Delivery(DWriting)))
  {
    assert !Consumed(s);
  }

  lemma {:induction false} ClaimedKeepsOnce(s: State, i: nat)
    requires Once(s) && i < |s.procs| && s.procs[i] == Delivery(DWriting)
    requires !Overlap(s)
    ensures Once(With(s.(status := Executing), i, Delivery(DReady)))
  {
    assert Claiming(s.procs[i]);
    forall j | 0 <= j < |s.procs| && j != i ensures !Claiming(s.procs[j]) {
    }
  }

  lemma {:induction false} CallKeepsOnce(s: State, i: nat, flag: bool)
    requires Once(s) && i < |s.procs| && s.procs[i] == Delivery(DReady)
    ensures Once(With(s.(calls := s.calls + 1), i, Delivery(DReturned(flag))))
  {
    assert Claimed(s.procs[i]);
  }

  lemma {:induction false} SettlingKeepsOnce(s: State, i: nat, at: DeliveryAt, flag: bool)
    requires Once(s) && i < |s.procs| && s.procs[i] == Delivery(at)
    requires at.DStart? || at.DReturned? || at.DSettling? || at.DSettleWriting?
    ensures Once(DeliveryStep(s, i, at, flag))
  {
    var t := DeliveryStep(s, i, at, flag);
    assert Shaped(s.procs[i]);
    assert s.job.Some?;
    BystanderKeepsOnce(s, t, i, t.procs[i]);
  }

  lemma {:induction false} DeliveryKeepsOnce(s: State, i: nat, at: DeliveryAt, flag: bool)
    requires Once(s) && i < |s.procs| && s.procs[i] == Delivery(at)
    requires !Overlap(s)
    ensures Once(DeliveryStep(s, i, at, flag))
  {
    match at
    case DMarked =>
      if s.status == Queued {
        ClaimKeepsOnce(s, i);
      } else {
        BystanderKeepsOnce(s, With(s, i, Delivery(DDone)), i, Delivery(DDone));
      }
    case DWriting => ClaimedKeepsOnce(s, i);
    case DReady => CallKeepsOnce(s, i, flag);
    case DDone =>
    case _ => SettlingKeepsOnce(s, i, at, flag);
  }

  lemma {:induction false} SpawnKeepsOnce(s: State, p: Proc)
    requires Once(s) && Shaped(p) && !Creating(p) && !Claiming(p) && !Claimed(p) && p != Requester(QMoved)
    requires p.Delivery? ==> s.enqueued
    ensures Once(s.(procs := s.procs + [p]))
  {
    var t := s.(procs := s.procs + [p]);
    SpawnKeepsCreator(s, p);
    SpawnKeepsCall(s, p);
    assert Consumed(t) ==> Consumed(s);
  }

  lemma {:induction false} SpawnKeepsCreator(s: State, p: Proc)
    requires CreatorIsAlone(s) && !Creating(p) && p != Requester(QMoved)
    requires p.Delivery? ==> s.enqueued
    ensures CreatorIsAlone(s.(procs := s.procs + [p]))
  {
  }

  lemma {:induction false} SpawnKeepsCall(s: State, p: Proc)
    requires CallIsTakenOnce(s) && !Claimed(p)
    ensures CallIsTakenOnce(s.(procs := s.procs + [p]))
  {
  }

  lemma {:induction false} SimulatorKeepsOnce(s: State, i: nat, at: SimulatorAt, flag: bool)
    requires Once(s) && i < |s.procs| && s.procs[i] == Simulator(at)
    ensures Once(SimulatorStep(s, i, at, flag))
  {
    var t := SimulatorStep(s, i, at, flag);
    if t != s {
      BystanderKeepsOnce(s, t, i, t.procs[i]);
    }
  }

  lemma {:induction false} SubmitterKeepsOnce(s: State, i: nat, chain: seq<Stage>, at: SubmitterAt, flag: bool)
    requires Once(s) && i < |s.procs| && s.procs[i] == Submitter(chain, at)
    ensures Once(SubmitterStep(s, i, chain, at, flag))
  {
    var t := SubmitterStep(s, i, chain, at, flag);
    assert Shaped(s.procs[i]);
    if t != s {
      BystanderKeepsOnce(s, t, i, t.procs[i]);
    }
  }

  lemma {:induction false} StepKeepsOnce(s: State, a: Action)
    requires Once(s) && WellFormed(s) && !Overlap(s)
    ensures Once(Step(s, a))
  {
    match a
    case SpawnSimulator => SpawnKeepsOnce(s, Simulator(MStart));
    case SpawnSubmitter(chain) => SpawnKeepsOnce(s, Submitter(chain, UStart));
    case SpawnReviewer(user, verdict) => SpawnKeepsOnce(s, Reviewer(user, verdict, RStart));
    case SpawnRequester => SpawnKeepsOnce(s, Requester(QStart));
    case SpawnDelivery =>
      if s.enqueued {
        SpawnKeepsOnce(s, Delivery(DStart));
      }
    case SpawnOther(target) =>
      if ChangedAlone(target) {
        SpawnKeepsOnce(s, Other(target, OStart));
      }
    case Act(i, flag) =>
      if i < |s.procs| {
        match s.procs[i]
        case Reviewer(user, verdict, at) => ReviewerKeepsOnce(s, i, user, verdict, at, flag);
        case Requester(at) => RequesterKeepsOnce(s, i, at);
        case Delivery(at) => DeliveryKeepsOnce(s, i, at, flag);
        case Simulator(at) => SimulatorKeepsOnce(s, i, at, flag);
        case Submitter(chain, at) => SubmitterKeepsOnce(s, i, chain, at, flag);
        case Other(target, at) => OtherKeepsOnce(s, i, target, at);
      }
  }

  // ----- The two directions -----

  /** No state along the run has two deliveries between reading `Queued` and overwriting it. */
  predicate NeverOverlaps(actions: seq<Action>) {
    forall k {:trigger OverlapsAt(actions, k)} :: 0 <= k <= |actions| ==> !OverlapsAt(actions, k)
  }

  predicate OverlapsAt(actions: seq<Action>, k: int)
    requires 0 <= k <= |actions|
  {
    Overlap(Run(INIT, actions[..k]))
  }

  lemma {:induction false} RunKeepsOnce(actions: seq<Action>)
    requires NeverOverlaps(actions)
    ensures Once(Run(INIT, actions))
  {
    if actions != [] {
      var before := actions[..|actions| - 1];
      forall k | 0 <= k <= |before| ensures !OverlapsAt(before, k) {
        assert before[..k] == actions[..k];
        assert !OverlapsAt(actions, k);
      }
      RunKeepsOnce(before);
      assert !OverlapsAt(actions, |before|);
      StepKeepsOnce(Run(INIT, before), actions[|actions| - 1]);
    }
  }

  /**
   * Whatever else is interleaved, requests to execute repeated, jobs redelivered, statuses
   * overwritten from stale reads: as long as no two deliveries overlap in their transition to
   * `executing`, the connector is asked to execute at most once.
   */
  lemma {:induction false} AtMostOneCall(actions: seq<Action>)
    requires NeverOverlaps(actions)
    ensures Run(INIT, actions).calls <= 1
  {
    RunKeepsOnce(actions);
  }

  /** And as soon as two do overlap, nothing keeps the connector from being asked twice more. */
  lemma {:induction false} OverlapAllowsTwoCalls(s: State, i: nat, j: nat)
    requires WellFormed(s) && i < j < |s.procs| && Claiming(s.procs[i]) && Claiming(s.procs[j])
    ensures Run(s, [Act(i, true), Act(j, true), Act(i, true), Act(j, true)]).calls == s.calls + 2
  {
    var s1 := With(s.(status := Executing), i, Delivery(DReady));
    var s2 := With(s1, j, Delivery(DReady));
    var s3 := With(s2.(calls := s.calls + 1), i, Delivery(DReturned(true)));
    assert DeliveryStep(s, i, DWriting, true) == s1;
    assert DeliveryStep(s1, j, DWriting, true) == s2;
    assert DeliveryStep(s2, i, DReady, true) == s3;
    assert DeliveryStep(s3, j, DReady, true).calls == s.calls + 2;
    RunFour(s, Act(i, true), Act(j, true), Act(i, true), Act(j, true));
  }

  lemma {:induction false} RunFour(s: State, a: Action, b: Action, c: Action, d: Action)
    requires WellFormed(s)
    ensures Run(s, [a, b, c, d]) == Step(Step(Step(Step(s, a), b), c), d)
  {
    assert [] + [a] == [a] && [a] + [b] == [a, b] && [a, b] + [c] == [a, b, c] && [a, b, c] + [d] == [a, b, c, d];
    RunOneMore(s, [], a);
    RunOneMore(s, [a], b);
    RunOneMore(s, [a, b], c);
    RunOneMore(s, [a, b, c], d);
  }

  /** Some continuation of the run asks the connector to execute a second time. */
  ghost predicate MayCallTwice(actions: seq<Action>) {
    exists more :: Run(INIT, actions + more).calls >= 2
  }

  /** Some continuation of the run leads two deliveries into the window. */
  ghost predicate MayOverlap(actions: seq<Action>) {
    exists more :: Overlap(Run(INIT, actions + more))
  }

  lemma {:induction false} OverlapLeadsToTwoCalls(actions: seq<Action>) returns (more: seq<Action>)
    requires Overlap(Run(INIT, actions))
    ensures |more| == 4 && Run(INIT, actions + more).calls >= 2
  {
    var s := Run(INIT, actions);
    var i, j :| 0 <= i < j < |s.procs| && Claiming(s.procs[i]) && Claiming(s.procs[j]);
    more := [Act(i, true), Act(j, true), Act(i, true), Act(j, true)];
    OverlapAllowsTwoCalls(s, i, j);
    RunConcat(INIT, actions, more);
  }

  lemma {:induction false} SecondCallNeedsOverlap(actions: seq<Action>) returns (k: nat)
    requires Run(INIT, actions).calls >= 2
    ensures k <= |actions| && OverlapsAt(actions, k)
  {
    if NeverOverlaps(actions) {
      AtMostOneCall(actions);
      assert false;
    }
    k :| 0 <= k <= |actions| && OverlapsAt(actions, k);
  }

  lemma {:induction false} PastOverlaps(actions: seq<Action>, more: seq<Action>, k: nat)
    requires k <= |actions| && OverlapsAt(actions + more, k)
    ensures OverlapsAt(actions, k)
  {
    assert (actions + more)[..k] == actions[..k];
  }

  lemma {:induction false} OverlapIsAhead(actions: seq<Action>, more: seq<Action>, k: nat)
    requires NeverOverlaps(actions) && k <= |actions + more| && OverlapsAt(actions + more, k)
    ensures MayOverlap(actions)
  {
    if k <= |actions| {
      PastOverlaps(actions, more, k);
      assert false;
    }
    var next := more[..k - |actions|];
    assert (actions + more)[..k] == actions + next;
  }

  lemma {:induction false} TwoCallsAreAhead(actions: seq<Action>, more: seq<Action>)
    requires Overlap(Run(INIT, actions + more))
    ensures MayCallTwice(actions)
  {
    var four := OverlapLeadsToTwoCalls(actions + more);
    assert actions + more + four == actions + (more + four);
  }

  /**
   * The exact condition: from a run that has not overlapped yet, the connector can come to be asked
   * twice if and only if two deliveries can come to overlap.
   */
  lemma {:induction false} TwiceExactlyWithOverlap(actions: seq<Action>)
    requires NeverOverlaps(actions)
    ensures MayCallTwice(actions) <==> MayOverlap(actions)
  {
    if MayCallTwice(actions) {
      var more :| Run(INIT, actions + more).calls >= 2;
      var k := SecondCallNeedsOverlap(actions + more);
      OverlapIsAhead(actions, more, k);
    }
    if MayOverlap(actions) {
      var more :| Overlap(Run(INIT, actions + more));
      TwoCallsAreAhead(actions, more);
    }
  }

  // ----- Two ways to rule the overlap out -----

  /** Every delivery overwrites the status in the step right after it has read it. */
  predicate TransitionsAtomic(actions: seq<Action>) {
    forall k :: 0 <= k < |actions| ==>
      forall i :: 0 <= i < |Run(INIT, actions[..k]).procs| && Claiming(Run(INIT, actions[..k]).procs[i]) ==>
        actions[k].Act? && actions[k].proc == i
  }

  predicate OneClaimAtMost(s: State) {
    forall i, j :: 0 <= i < j < |s.procs| ==> !(Claiming(s.procs[i]) && Claiming(s.procs[j]))
  }

  lemma {:induction false} OnlyOneMoves(s: State, i: nat, flag: bool)
    requires WellFormed(s) && i < |s.procs|
    ensures var t := Step(s, Act(i, flag));
            && |t.procs| == |s.procs|
            && (forall k :: 0 <= k < |s.procs| && k != i ==> t.procs[k] == s.procs[k])
            && (Claiming(s.procs[i]) ==> !Claiming(t.procs[i]))
  {
    match s.procs[i]
    case Reviewer(user, verdict, at) => ReviewerMovesAlone(s, i, user, verdict, at, flag);
    case _ =>
  }

  lemma {:induction false} ReviewerMovesAlone(s: State, i: nat, user: int, verdict: Ledger.Verdict, at: ReviewerAt, flag: bool)
    requires WellFormed(s) && i < |s.procs| && s.procs[i] == Reviewer(user, verdict, at)
    ensures var t := ReviewerStep(s, i, user, verdict, at, flag);
            |t.procs| == |s.procs| && forall k :: 0 <= k < |s.procs| && k != i ==> t.procs[k] == s.procs[k]
  {
  }

  lemma {:induction false} AtomicStepKeepsOneClaim(s: State, a: Action)
    requires WellFormed(s) && OneClaimAtMost(s)
    requires forall i :: 0 <= i < |s.procs| && Claiming(s.procs[i]) ==> a.Act? && a.proc == i
    ensures OneClaimAtMost(Step(s, a))
  {
    if a.Act? && a.proc < |s.procs| {
      OnlyOneMoves(s, a.proc, a.flag);
    }
  }

  /** With the worker's status transition atomic, any queue schedule calls the connector at most once. */
  lemma {:induction false} AtomicTransitionsSuffice(actions: seq<Action>)
    requires TransitionsAtomic(actions)
    ensures NeverOverlaps(actions) && Run(INIT, actions).calls <= 1
  {
    forall k | 0 <= k <= |actions| ensures !OverlapsAt(actions, k) {
      AtomicNeverOverlaps(actions, k);
    }
    AtMostOneCall(actions);
  }

  lemma {:induction false} AtomicNeverOverlaps(actions: seq<Action>, k: nat)
    requires TransitionsAtomic(actions) && k <= |actions|
    ensures OneClaimAtMost(Run(INIT, actions[..k]))
  {
    if k > 0 {
      AtomicNeverOverlaps(actions, k - 1);
      assert actions[..k][..k - 1] == actions[..k - 1];
      AtomicStepKeepsOneClaim(Run(INIT, actions[..k - 1]), actions[k - 1]);
    }
  }

  predicate Busy(p: Proc) {
    p.Delivery? && !p.d.DDone?
  }

  /** The queue has at most one delivery of the job under way at any time. */
  predicate OneAtATime(actions: seq<Action>) {
    forall k :: 0 <= k <= |actions| ==>
      var s := Run(INIT, actions[..k]);
      forall i, j :: 0 <= i < j < |s.procs| ==> !(Busy(s.procs[i]) && Busy(s.procs[j]))
  }

  /** Or with no atomicity at all, if the queue never hands the job to two workers at once. */
  lemma {:induction false} ExclusiveDeliverySuffices(actions: seq<Action>)
    requires OneAtATime(actions)
    ensures NeverOverlaps(actions) && Run(INIT, actions).calls <= 1
  {
    forall k | 0 <= k <= |actions| ensures !OverlapsAt(actions, k) {
      var s := Run(INIT, actions[..k]);
      forall i, j | 0 <= i < j < |s.procs| ensures !(Claiming(s.procs[i]) && Claiming(s.procs[j])) {
        assert !(Busy(s.procs[i]) && Busy(s.procs[j]));
      }
    }
    AtMostOneCall(actions);
  }
}
