/** Runs of whole calls and deliveries that leave an intent stranded: nothing moves it on any more. */
module StrandedRuns {
  import opened Prelude
  import opened IntentStates
  import opened Lifecycle
  import opened LifecycleGuarantees
  import Engine = PolicyEngine
  import Staging = ApprovalStages
  import Ledger = ApprovalLedger

  ghost predicate Leads(actions: seq<Action>, w: World) {
    Run(FRESH, actions) == w
  }

  ghost predicate Reachable(w: World) {
    exists actions {:trigger Leads(actions, w)} :: Leads(actions, w)
  }

  lemma {:induction false} Go(w: World, a: Action, v: World)
    requires Reachable(w) && v == Apply(w, a)
    ensures Reachable(v)
  {
    var actions :| Leads(actions, w);
    assert (actions + [a])[..|actions|] == actions;
    assert Leads(actions + [a], v);
  }

  lemma {:induction false} Known(w: World)
    requires Reachable(w)
    ensures Sound(w)
  {
    var actions :| Leads(actions, w);
    ReachableIsSound(actions);
  }

  /** A fresh request of one stage that asks for one approval. */
  predicate WaitsForOne(r: Ledger.Request) {
    && r.status == Ledger.Pending && r.currentStageIndex == 0 && r.decisions == []
    && |Ledger.Stages(r)| == 1 && Ledger.Stages(r)[0].requiredCount == 1
  }

  /** A submission without stages or policies. */
  lemma {:induction false} SimpleFilingIs()
    ensures Staging.ParseSubmission(SIMPLE_FILING.sub).Some? && SIMPLE_FILING.planAllows
    ensures Staging.NormalizeStages(Staging.ParseSubmission(SIMPLE_FILING.sub).value) == [Staging.FallbackStage(1)]
    ensures Engine.Aggregate(SIMPLE_FILING.policies, SIMPLE_FILING.intent, SIMPLE_FILING.context) == Engine.Allow
  {
  }

  lemma {:induction false} SimpleRequestWaitsForOne()
    ensures WaitsForOne(Ledger.OpenRequest([Staging.FallbackStage(1)]))
  {
    SimpleFilingIs();
    Ledger.NewRequestHasLedger(SIMPLE_FILING.sub);
  }

  lemma {:induction false} SimpleSubmissionWaits(w: World)
    requires Sound(w) && w.status == Simulated
    ensures var v := Apply(w, DoSubmit(SIMPLE_FILING));
            v.status == PendingApproval && v.review.request == Some(Ledger.OpenRequest([Staging.FallbackStage(1)]))
  {
    SimpleFilingIs();
  }

  lemma {:induction false} OneOwnerApproves(r: Ledger.Request)
    requires WaitsForOne(r)
    ensures Ledger.Decide(r, 0, Ledger.Approve, Some(Staging.Owner)).move == Ledger.MoveToApproved
  {
  }

  lemma {:induction false} ApprovalMoves(w: World)
    requires w.status == PendingApproval && w.review.request.Some? && WaitsForOne(w.review.request.value)
    ensures Apply(w, DoDecide(0, Ledger.Approve, Some(Staging.Owner))).status == Approved
  {
    OneOwnerApproves(w.review.request.value);
  }

  lemma {:induction false} SimulatedIsReachable() returns (w: World)
    ensures Reachable(w) && w.status == Simulated
  {
    assert Leads([], FRESH);
    Go(FRESH, DoPropose, Propose(FRESH));
    w := Simulate(Propose(FRESH), true);
    Go(Propose(FRESH), DoSimulate(true), w);
  }

  lemma {:induction false} ApprovedIsReachable() returns (w: World)
    ensures Reachable(w) && w.status == Approved
  {
    var simulated := SimulatedIsReachable();
    Known(simulated);
    SimpleSubmissionWaits(simulated);
    SimpleRequestWaitsForOne();
    var pending := Apply(simulated, DoSubmit(SIMPLE_FILING));
    Go(simulated, DoSubmit(SIMPLE_FILING), pending);
    ApprovalMoves(pending);
    w := Apply(pending, DoDecide(0, Ledger.Approve, Some(Staging.Owner)));
    Go(pending, DoDecide(0, Ledger.Approve, Some(Staging.Owner)), w);
  }

  lemma {:induction false} QueueingQueues(w: World, enqueued: bool)
    requires Sound(w) && w.status == Approved
    ensures var v := QueueExecution(w, true, enqueued);
            v.status == Queued && v.execution.message == if enqueued then Some(0) else None
  {
  }

  lemma {:induction false} QueuedIsReachable(enqueued: bool) returns (w: World)
    ensures Reachable(w) && w.status == Queued
    ensures w.execution.message == if enqueued then Some(0) else None
  {
    var approved := ApprovedIsReachable();
    Known(approved);
    QueueingQueues(approved, enqueued);
    w := QueueExecution(approved, true, enqueued);
    Go(approved, DoQueue(true, enqueued), w);
  }

  lemma {:induction false} StrandedStays(w: World) returns (actions: seq<Action>)
    requires Reachable(w) && Stranded(w)
    ensures Run(FRESH, actions) == w && StaysForever(Run(FRESH, actions))
  {
    actions :| Leads(actions, w);
    RestExactlyWhen(actions);
  }

  /** A queue that refuses the message leaves the intent queued for good. */
  lemma {:induction false} QueueCanStrand()
    ensures exists actions :: Run(FRESH, actions).status == Queued && StaysForever(Run(FRESH, actions))
  {
    var w := QueuedIsReachable(false);
    var actions := StrandedStays(w);
  }

  /** A delivery that finds no connector leaves the intent executing for good. */
  lemma {:induction false} ExecutionCanStrand()
    ensures exists actions :: Run(FRESH, actions).status == Executing && StaysForever(Run(FRESH, actions))
  {
    var queued := QueuedIsReachable(true);
    Known(queued);
    var w := DeliverExecution(queued, Missing);
    Go(queued, DoDeliverExecution(Missing), w);
    var actions := StrandedStays(w);
  }

  lemma {:induction false} FirstRollback(w: World)
    requires Sound(w) && w.status == Queued && w.execution.message == Some(0)
    ensures var v := RequestRollback(DeliverExecution(w, Returns(Object(0))), true, true);
            && v.status == RollbackPending && |v.rollback.attempts| == 1 && v.rollback.messages == map[0 := 0]
  {
    assert w.rollback.attempts == [] && w.rollback.messages == map[];
  }

  lemma {:induction false} RollbackIsReachable() returns (w: World)
    ensures Reachable(w) && w.status == RollbackPending && |w.rollback.attempts| == 1 && w.rollback.messages == map[0 := 0]
  {
    var queued := QueuedIsReachable(true);
    Known(queued);
    FirstRollback(queued);
    var done := DeliverExecution(queued, Returns(Object(0)));
    Go(queued, DoDeliverExecution(Returns(Object(0))), done);
    w := RequestRollback(done, true, true);
    Go(done, DoRequestRollback(true, true), w);
  }

  lemma {:induction false} DeliveriesAreReachable(w: World, a: nat, replies: seq<Reply>)
    requires Reachable(w)
    ensures Reachable(DeliverRollbacks(w, a, replies))
    decreases |replies|
  {
    if replies != [] {
      var v := DeliverRollback(w, a, replies[0]);
      Go(w, DoDeliverRollback(a, replies[0]), v);
      DeliveriesAreReachable(v, a, replies[1..]);
    }
  }

  /** Three deliveries that find no connector able to roll back leave the rollback pending for good. */
  lemma {:induction false} RollbackCanStrand()
    ensures exists actions :: Run(FRESH, actions).status == RollbackPending && StaysForever(Run(FRESH, actions))
  {
    var pending := RollbackIsReachable();
    Known(pending);
    var replies := [Missing, Missing, Missing];
    assert 0 in pending.rollback.messages && pending.rollback.messages[0] == 0;
    assert !SomeReturns(replies);
    RollbackSettles(pending, 0, replies);
    DeliveriesAreReachable(pending, 0, replies);
    var actions := StrandedStays(DeliverRollbacks(pending, 0, replies));
  }
}
