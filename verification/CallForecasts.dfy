/**
 * The exact condition, read from the present rows and the processes under way, for the connector to
 * come to be asked to execute, and for it to come to be asked a second time.
 */
module CallForecasts {
  import opened Prelude
  import opened IntentStates
  import opened ApprovalStages
  import opened Interleaving
  import opened AtMostOnce
  import opened Orderliness
  import opened Prospects
  import opened Outlook
  import opened Forecasts
  import opened Walks
  import Ledger = ApprovalLedger

  // ----- The conditions -----

  /** A delivery that will ask the connector, whatever happens to the rows. */
  predicate Caller(p: Proc) {
    Claiming(p) || Claimed(p)
  }

  predicate SomeCaller(s: State) {
    exists i :: 0 <= i < |s.procs| && Caller(s.procs[i])
  }

  predicate TwoCallers(s: State) {
    exists i, j :: 0 <= i < j < |s.procs| && Caller(s.procs[i]) && Caller(s.procs[j])
  }

  predicate SomeCreated(s: State) {
    exists i :: 0 <= i < |s.procs| && s.procs[i] == Requester(QCreated)
  }

  /** The intent is queued, about to be, or its only creator is still to come or still to move it. */
  predicate QueueAhead(s: State) {
    || s.status == Queued
    || Held(s, Queued)
    || ((s.job.None? || SomeCreated(s)) && ApprovalPossible(s))
  }

  predicate CallAhead(s: State) {
    s.calls >= 1 || SomeCaller(s) || QueueAhead(s)
  }

  predicate SecondCallAhead(s: State) {
    s.calls >= 2 || (s.calls >= 1 && SomeCaller(s)) || TwoCallers(s) || QueueAhead(s)
  }

  /** Some continuation has the connector asked at least `n` times in all. */
  ghost predicate MayCall(s: State, n: nat)
    requires WellFormed(s)
  {
    exists more {:trigger Run(s, more)} :: Run(s, more).calls >= n
  }

  // ----- What a step does to the job and the calls -----

  predicate CallEffect(s: State, t: State, i: nat)
    requires i < |s.procs|
  {
    && |t.procs| == |s.procs|
    && (t.calls == s.calls || (t.calls == s.calls + 1 && Caller(s.procs[i]) && !Caller(t.procs[i])))
    && (Caller(t.procs[i]) ==> Caller(s.procs[i]) || s.status == Queued)
    && (t.job.None? ==> s.job.None?)
    && (t.procs[i] == Requester(QCreated) ==> s.job.None?)
  }

  lemma {:induction false} ReviewerCallEffect(s: State, i: nat, user: int, verdict: Ledger.Verdict, at: ReviewerAt, flag: bool)
    requires WellFormed(s) && i < |s.procs| && s.procs[i] == Reviewer(user, verdict, at)
    ensures CallEffect(s, ReviewerStep(s, i, user, verdict, at, flag), i)
  {
  }

  lemma {:induction false} RequesterCallEffect(s: State, i: nat, at: RequesterAt)
    requires i < |s.procs| && s.procs[i] == Requester(at)
    ensures CallEffect(s, RequesterStep(s, i, at), i)
  {
  }

  lemma {:induction false} DeliveryCallEffect(s: State, i: nat, at: DeliveryAt, flag: bool)
    requires i < |s.procs| && s.procs[i] == Delivery(at)
    ensures CallEffect(s, DeliveryStep(s, i, at, flag), i)
  {
  }

  lemma {:induction false} SubmitterCallEffect(s: State, i: nat, chain: seq<Stage>, at: SubmitterAt, flag: bool)
    requires i < |s.procs| && s.procs[i] == Submitter(chain, at)
    ensures CallEffect(s, SubmitterStep(s, i, chain, at, flag), i)
  {
  }

  lemma {:induction false} ActCallEffect(s: State, i: nat, flag: bool)
    requires WellFormed(s) && i < |s.procs|
    ensures CallEffect(s, Step(s, Act(i, flag)), i)
  {
    match s.procs[i]
    case Reviewer(user, verdict, at) => ReviewerCallEffect(s, i, user, verdict, at, flag);
    case Requester(at) => RequesterCallEffect(s, i, at);
    case Delivery(at) => DeliveryCallEffect(s, i, at, flag);
    case Submitter(chain, at) => SubmitterCallEffect(s, i, chain, at, flag);
    case Simulator(_) =>
    case Other(_, _) =>
  }

  // ----- What cannot come any more does not come -----

  lemma {:induction false} ActLeavesUnqueued(s: State, i: nat, flag: bool)
    requires Sound(s) && !QueueAhead(s) && i < |s.procs|
    ensures !QueueAhead(Step(s, Act(i, flag)))
  {
    var t := Step(s, Act(i, flag));
    assert Shaped(s.procs[i]);
    ActEffect(s, i, flag);
    ActCallEffect(s, i, flag);
    HeldNext(s, t, i, Queued);
    assert s.procs[i] == Requester(QCreated) ==> SomeCreated(s);
    if s.job.None? || SomeCreated(s) {
      ActLeavesImpossible(s, i, flag);
    }
  }

  lemma {:induction false} CallersNext(s: State, t: State, i: nat)
    requires i < |s.procs| && CallEffect(s, t, i) && t.procs == s.procs[i := t.procs[i]] && s.status != Queued
    ensures SomeCaller(t) ==> SomeCaller(s)
    ensures TwoCallers(t) ==> TwoCallers(s)
    ensures t.calls > s.calls ==> SomeCaller(s) && (SomeCaller(t) ==> TwoCallers(s))
  {
    if SomeCaller(t) {
      var k :| 0 <= k < |t.procs| && Caller(t.procs[k]);
      assert Caller(s.procs[k]);
    }
    if TwoCallers(t) {
      var j, k :| 0 <= j < k < |t.procs| && Caller(t.procs[j]) && Caller(t.procs[k]);
      assert Caller(s.procs[j]) && Caller(s.procs[k]);
    }
  }

  lemma {:induction false} ActLeavesUncalled(s: State, i: nat, flag: bool)
    requires Sound(s) && !QueueAhead(s) && i < |s.procs|
    ensures !CallAhead(s) ==> !CallAhead(Step(s, Act(i, flag)))
    ensures !SecondCallAhead(s) ==> !SecondCallAhead(Step(s, Act(i, flag)))
  {
    var t := Step(s, Act(i, flag));
    assert Shaped(s.procs[i]);
    ActEffect(s, i, flag);
    ActCallEffect(s, i, flag);
    ActLeavesUnqueued(s, i, flag);
    CallersNext(s, t, i);
  }

  lemma {:induction false} SpawnLeavesUncalled(s: State, p: Proc)
    requires !QueueAhead(s) && Begins(s, p)
    ensures !CallAhead(s) ==> !CallAhead(Joined(s, p))
    ensures !SecondCallAhead(s) ==> !SecondCallAhead(Joined(s, p))
  {
    var t := Joined(s, p);
    SpawnHoldsNothing(s, p, Queued);
    if !ApprovalPossible(s) {
      SpawnLeavesImpossible(s, p);
    }
    SpawnCallsNothing(s, p);
  }

  lemma {:induction false} SpawnCallsNothing(s: State, p: Proc)
    requires Begins(s, p)
    ensures SomeCaller(Joined(s, p)) ==> SomeCaller(s)
    ensures TwoCallers(Joined(s, p)) ==> TwoCallers(s)
    ensures SomeCreated(Joined(s, p)) ==> SomeCreated(s)
  {
    var t := Joined(s, p);
    if SomeCaller(t) {
      var k :| 0 <= k < |t.procs| && Caller(t.procs[k]);
      assert Caller(s.procs[k]);
    }
    if TwoCallers(t) {
      var j, k :| 0 <= j < k < |t.procs| && Caller(t.procs[j]) && Caller(t.procs[k]);
      assert Caller(s.procs[j]) && Caller(s.procs[k]);
    }
    if SomeCreated(t) {
      var k :| 0 <= k < |t.procs| && t.procs[k] == Requester(QCreated);
      assert s.procs[k] == Requester(QCreated);
    }
  }

  lemma {:induction false} StepLeavesUncalled(s: State, a: Action)
    requires Sound(s) && !QueueAhead(s)
    ensures !CallAhead(s) ==> !CallAhead(Step(s, a))
    ensures !SecondCallAhead(s) ==> !SecondCallAhead(Step(s, a))
  {
    if !a.Act? {
      var p := StepBegins(s, a);
      if Step(s, a) != s {
        SpawnLeavesUncalled(s, p);
      }
    } else if a.proc < |s.procs| {
      ActLeavesUncalled(s, a.proc, a.flag);
    }
  }

  lemma {:induction false} RunLeavesUncalled(s: State, more: seq<Action>)
    requires Sound(s)
    ensures !CallAhead(s) ==> !CallAhead(Run(s, more))
    ensures !SecondCallAhead(s) ==> !SecondCallAhead(Run(s, more))
  {
    if more != [] && !SecondCallAhead(s) {
      OneStepBack(s, more);
      RunLeavesUncalled(s, more[..|more| - 1]);
      StepLeavesUncalled(Run(s, more[..|more| - 1]), more[|more| - 1]);
    }
  }

  // ----- What can come does -----

  lemma {:induction false} QueuedHolder(p: Proc)
    requires Shaped(p) && Holding(p) == Some(Queued)
    ensures p == Requester(QWriting)
  {
  }

  lemma {:induction false} QueuedIsEnqueued(o: State, s: State) returns (t: State)
    requires Reaches(o, s) && Orderly(s) && s.status == Queued
    ensures Reaches(o, t) && t.status == Queued && t.enqueued && t.calls == s.calls
  {
    t := s;
    if !s.enqueued {
      var i :| 0 <= i < |s.procs| && s.procs[i] == Requester(QMoved);
      t := With(s.(enqueued := true), i, Requester(QDone));
      RequesterGoes(o, s, i, QMoved, t);
    }
  }

  lemma {:induction false} HeldIsQueued(o: State, s: State) returns (t: State)
    requires Reaches(o, s) && Orderly(s) && Held(s, Queued)
    ensures Reaches(o, t) && t.status == Queued && t.enqueued && t.calls == s.calls
  {
    var i :| 0 <= i < |s.procs| && Holding(s.procs[i]) == Some(Queued);
    assert Shaped(s.procs[i]);
    QueuedHolder(s.procs[i]);
    CreatorQueues(o, s, i);
    t := With(s, i, Requester(QDone)).(status := Queued, enqueued := true);
  }

  lemma {:induction false} ApprovedIsQueued(o: State, s: State) returns (t: State)
    requires Sound(o) && Reaches(o, s) && (s.job.None? || SomeCreated(s)) && ApprovalPossible(s)
    ensures Reaches(o, t) && t.status == Queued && t.enqueued && t.calls == s.calls
  {
    var u := ApprovedComes(o, s);
    if SomeCreated(s) {
      var i :| 0 <= i < |s.procs| && s.procs[i] == Requester(QCreated);
      CreatorMoves(o, u, i);
      t := With(u, i, Requester(QDone)).(status := Queued, enqueued := true);
    } else {
      Queues(o, u);
      t := Joined(u, Requester(QDone)).(status := Queued, job := Some(JobQueued), enqueued := true);
    }
  }

  lemma {:induction false} QueueComes(o: State, s: State) returns (t: State)
    requires Sound(o) && Reaches(o, s) && QueueAhead(s)
    ensures Reaches(o, t) && t.status == Queued && t.enqueued && t.calls == s.calls
  {
    ReachesOrderly(o, s);
    if s.status == Queued {
      t := QueuedIsEnqueued(o, s);
    } else if Held(s, Queued) {
      t := HeldIsQueued(o, s);
    } else {
      t := ApprovedIsQueued(o, s);
    }
  }

  /** A caller asks the connector, and the other processes stand where they were. */
  lemma {:induction false} CallerCalls(o: State, s: State, i: nat) returns (t: State)
    requires Reaches(o, s) && i < |s.procs| && Caller(s.procs[i])
    ensures Reaches(o, t) && t.calls == s.calls + 1 && |t.procs| == |s.procs|
    ensures forall k :: 0 <= k < |s.procs| && k != i ==> t.procs[k] == s.procs[k]
  {
    if Claimed(s.procs[i]) {
      Calls(o, s, i);
      t := With(s, i, Delivery(DReturned(true))).(calls := s.calls + 1);
    } else {
      ClaimCalls(o, s, i);
      t := With(s, i, Delivery(DReturned(true))).(status := Executing, calls := s.calls + 1);
    }
  }

  lemma {:induction false} TwoCallersCall(o: State, s: State) returns (t: State)
    requires Reaches(o, s) && TwoCallers(s)
    ensures Reaches(o, t) && t.calls >= 2
  {
    var i, j :| 0 <= i < j < |s.procs| && Caller(s.procs[i]) && Caller(s.procs[j]);
    t := CallerCalls(o, s, i);
    t := CallerCalls(o, t, j);
  }

  /** Two deliveries both read `Queued` before either overwrites it. */
  lemma {:induction false} QueuedHasTwoCallers(o: State, s: State) returns (t: State)
    requires Reaches(o, s) && s.status == Queued && s.enqueued
    ensures Reaches(o, t) && TwoCallers(t)
  {
    var n := |s.procs|;
    Claims(o, s);
    var u := Joined(s, Delivery(DWriting)).(job := Some(JobProcessing));
    Claims(o, u);
    t := Joined(u, Delivery(DWriting)).(job := Some(JobProcessing));
    assert t.procs[n] == Delivery(DWriting) && t.procs[n + 1] == Delivery(DWriting);
  }

  lemma {:induction false} SecondCallComes(o: State, s: State) returns (t: State)
    requires Sound(o) && Reaches(o, s) && SecondCallAhead(s)
    ensures Reaches(o, t) && t.calls >= 2
  {
    if s.calls >= 2 {
      t := s;
    } else if s.calls >= 1 && SomeCaller(s) {
      var i :| 0 <= i < |s.procs| && Caller(s.procs[i]);
      t := CallerCalls(o, s, i);
    } else if TwoCallers(s) {
      t := TwoCallersCall(o, s);
    } else {
      t := QueueComes(o, s);
      t := QueuedHasTwoCallers(o, t);
      t := TwoCallersCall(o, t);
    }
  }

  lemma {:induction false} CallComes(o: State, s: State) returns (t: State)
    requires Sound(o) && Reaches(o, s) && CallAhead(s)
    ensures Reaches(o, t) && t.calls >= 1
  {
    if s.calls >= 1 {
      t := s;
    } else if SomeCaller(s) {
      var i :| 0 <= i < |s.procs| && Caller(s.procs[i]);
      t := CallerCalls(o, s, i);
    } else {
      t := SecondCallComes(o, s);
    }
  }

  // ----- The exact conditions -----

  /**
   * The connector can come to be asked if and only if it has been, a delivery has claimed the
   * intent, or the intent can still come to be queued.
   */
  lemma {:induction false} CalledExactlyWhen(actions: seq<Action>)
    ensures MayCall(Run(INIT, actions), 1) <==> CallAhead(Run(INIT, actions))
  {
    var s := Run(INIT, actions);
    RunsAreSound(actions);
    if CallAhead(s) {
      ReachesItself(s);
      var t := CallComes(s, s);
      var more :| Leads(s, more, t);
      assert Run(s, more).calls >= 1;
    } else {
      forall more ensures Run(s, more).calls < 1 {
        RunLeavesUncalled(s, more);
      }
    }
  }

  /**
   * The connector can come to be asked a second time if and only if it has been, a delivery stands
   * beside the call already made, two stand before theirs, or the intent can still come to be
   * queued. Past the queue, a single delivery and no call made is safe for good.
   */
  lemma {:induction false} CalledTwiceExactlyWhen(actions: seq<Action>)
    ensures MayCall(Run(INIT, actions), 2) <==> SecondCallAhead(Run(INIT, actions))
  {
    var s := Run(INIT, actions);
    RunsAreSound(actions);
    if SecondCallAhead(s) {
      ReachesItself(s);
      var t := SecondCallComes(s, s);
      var more :| Leads(s, more, t);
      assert Run(s, more).calls >= 2;
    } else {
      forall more ensures Run(s, more).calls < 2 {
        RunLeavesUncalled(s, more);
      }
    }
  }
}
