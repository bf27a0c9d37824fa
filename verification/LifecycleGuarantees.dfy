/** What the lifecycle invariant gives: evidence, rollback discipline, bounds, and where an intent comes to rest. */
module LifecycleGuarantees {
  import opened Prelude
  import opened IntentStates
  import opened Lifecycle
  import Engine = PolicyEngine
  import Staging = ApprovalStages
  import Ledger = ApprovalLedger
  import Outcomes

  lemma {:induction false} ReachableIsSound(actions: seq<Action>)
    ensures Sound(Run(FRESH, actions))
  {
    FreshIsSound();
    RunKeepsSound(FRESH, actions);
  }

  // ----- Evidence -----

  /** A request whose every stage holds exactly the approvals it asks for, from different users. */
  predicate FullyApproved(r: Ledger.Request) {
    && r.status == Ledger.Approved
    && r.currentCount == r.requiredCount
    && Ledger.DistinctUsers(r.decisions)
    && forall i :: 0 <= i < |Ledger.Stages(r)| ==> Ledger.Approvals(r.decisions, i) == Ledger.Stages(r)[i].requiredCount
  }

  /**
   * After any sequence of service calls and deliveries: an intent that is queued or beyond has its
   * simulation, a policy evaluation with no denial, a fully approved request and its execution
   * job; one that is approved or earlier, or rejected, has no job; and the connector was asked to
   * execute, and the usage charged, at most once.
   */
  lemma {:induction false} ExecutionNeedsEvidence(actions: seq<Action>)
    ensures var w := Run(FRESH, actions);
            && (w.status == Queued || Started(w.status) ==>
                  && w.review.simulations == 1
                  && NoDenial(w.review.decisions)
                  && w.review.request.Some? && FullyApproved(w.review.request.value)
                  && w.execution.job.Some?)
            && (w.status != Queued && !Started(w.status) ==> w.execution.job.None? && w.execution.calls == 0)
            && w.execution.calls <= 1 && w.execution.units <= 1
  {
    var w := Run(FRESH, actions);
    ReachableIsSound(actions);
    if Cleared(w.status) {
      ClearedIsFullyApproved(w.review.request.value);
    }
  }

  lemma {:induction false} ClearedIsFullyApproved(r: Ledger.Request)
    requires Ledger.Ledger(r) && r.status == Ledger.Approved
    ensures FullyApproved(r)
  {
    var stages := Ledger.Stages(r);
    assert Ledger.LedgerOn(stages, r);
    Ledger.LedgerTotals(stages, r);
    forall i | 0 <= i < |stages| ensures Ledger.Approvals(r.decisions, i) == stages[i].requiredCount {
      Ledger.ApprovedIsFilled(stages, r, i);
    }
  }

  // ----- Rollback discipline -----

  /**
   * The intent is waiting for a rollback exactly while one attempt is live, it is rolled back
   * exactly when one attempt completed, every other attempt has failed, and there is at most one
   * receipt of each kind, a rollback receipt only behind the execution receipt.
   */
  lemma {:induction false} RollbackDiscipline(actions: seq<Action>)
    ensures var w := Run(FRESH, actions);
            var n := |w.rollback.attempts|;
            && (w.status == RollbackPending <==> n > 0 && Live(w.rollback.attempts[n - 1]))
            && (w.status == RolledBack <==> n > 0 && w.rollback.attempts[n - 1] == AttemptCompleted)
            && (forall i :: 0 <= i < n - 1 ==> w.rollback.attempts[i] == AttemptFailed)
            && (forall a :: a in w.rollback.messages ==> a == n - 1 && w.status == RollbackPending)
    ensures var w := Run(FRESH, actions);
            && |w.receipts| <= 2
            && (|w.receipts| > 0 ==> w.receipts[0].ExecutionReceipt? && w.execution.returned == Some(w.receipts[0].result))
            && (|w.receipts| > 1 <==> w.status == RolledBack)
            && (|w.receipts| > 1 ==> w.receipts[1].RollbackReceipt?)
  {
    ReachableIsSound(actions);
    AttemptsAreDisciplined(Run(FRESH, actions).status, Run(FRESH, actions).rollback);
  }

  lemma {:induction false} AttemptsAreDisciplined(status: Status, r: Rollback)
    requires AttemptsMatch(status, r)
    ensures var n := |r.attempts|;
            && (status == RollbackPending <==> n > 0 && Live(r.attempts[n - 1]))
            && (status == RolledBack <==> n > 0 && r.attempts[n - 1] == AttemptCompleted)
            && (forall i :: 0 <= i < n - 1 ==> r.attempts[i] == AttemptFailed)
            && (forall a :: a in r.messages ==> a == n - 1 && status == RollbackPending)
  {
    var n := |r.attempts|;
    assert forall i :: 0 <= i < n - 1 ==> r.attempts[i] == r.attempts[..n - 1][i];
  }

  // ----- The audited path -----

  function PathOf(trail: seq<Change>): (p: seq<Status>)
    ensures |p| == |trail| + 1
  {
    if trail == [] then [Draft] else PathOf(trail[..|trail| - 1]) + [trail[|trail| - 1].to]
  }

  lemma {:induction false} TrailIsLegalPath(trail: seq<Change>, s: Status)
    requires Replays(trail, s)
    ensures LegalPath(PathOf(trail)) && PathOf(trail)[|trail|] == s
    ensures RollbackRequests(PathOf(trail)) == RollbacksIn(trail)
    ensures Requeues(PathOf(trail)) == 0
  {
    if trail != [] {
      var before, last := trail[..|trail| - 1], trail[|trail| - 1];
      TrailIsLegalPath(before, last.from);
      var p, q := PathOf(before), PathOf(trail);
      assert q == p + [last.to];
      assert q[..|q| - 1] == p;
      forall i | 0 < i < |q| ensures LegalAt(q, i) {
        if i < |p| {
          assert LegalAt(p, i);
        }
      }
    } else {
      assert [Draft][..0] == [];
    }
  }

  /**
   * Replaying an intent's audited changes is a legal path from `Draft` to its present status; it
   * has at most seven changes plus two for every accepted rollback request; and whenever the
   * connector was asked, it went through simulation, approval and the queue first.
   */
  lemma {:induction false} AuditReplaysTheLife(actions: seq<Action>)
    ensures var w := Run(FRESH, actions);
            && LegalPath(PathOf(w.trail))
            && PathOf(w.trail)[|w.trail|] == w.status
            && |w.trail| <= 7 + 2 * |w.rollback.attempts|
            && (Started(w.status) ==> |w.trail| >= 6 && PathOf(w.trail)[..7] == SPINE)
  {
    var w := Run(FRESH, actions);
    ReachableIsSound(actions);
    TrailIsLegalPath(w.trail, w.status);
    PathLengthBound(PathOf(w.trail));
    StartedNeedsTheSpine(PathOf(w.trail));
  }

  // ----- How a rollback ends -----

  function DeliverRollbacks(w: World, a: nat, replies: seq<Reply>): World
    decreases |replies|
  {
    if replies == [] then w else DeliverRollbacks(DeliverRollback(w, a, replies[0]), a, replies[1..])
  }

  predicate SomeReturns(replies: seq<Reply>) {
    exists r :: r in replies && r.Returns?
  }

  lemma {:induction false} SettledStays(w: World, a: nat, replies: seq<Reply>)
    requires a !in w.rollback.messages
    ensures DeliverRollbacks(w, a, replies) == w
    decreases |replies|
  {
    if replies != [] {
      SettledStays(w, a, replies[1..]);
    }
  }

  /** What one delivery of a live attempt does to the intent, the attempt and the queue. */
  lemma {:induction false} RollbackStep(w: World, a: nat, reply: Reply)
    requires Sound(w) && a in w.rollback.messages
    ensures var v := DeliverRollback(w, a, reply);
            var spent := w.rollback.messages[a] + 1 == MAX_ATTEMPTS;
            && Sound(v)
            && |v.rollback.attempts| == |w.rollback.attempts| == a + 1
            && (v.status, v.rollback.attempts[a])
               == (if reply.Returns? then (RolledBack, AttemptCompleted)
                   else if reply.Throws? && spent then (RollbackFailed, AttemptFailed)
                   else (RollbackPending, AttemptInProgress))
            && v.rollback.messages == (if reply.Returns? || spent then map[] else map[a := w.rollback.messages[a] + 1])
  {
    DeliverRollbackKeepsSound(w, a, reply);
    AttemptDelivered(w.rollback, a, 0);
    assert w.rollback.messages[a := w.rollback.messages[a] + 1] == map[a := w.rollback.messages[a] + 1];
  }

  /**
   * Once the queue has made all its deliveries the attempt is settled: completed, with the intent
   * rolled back, when some delivery's rollback returned; failed, with the intent `RollbackFailed`,
   * when none did and the last one threw. In the one remaining case, a last delivery that found
   * no connector able to roll back, nothing is settled and no delivery is left.
   */
  lemma {:induction false} RollbackSettles(w: World, a: nat, replies: seq<Reply>)
    requires Sound(w) && a in w.rollback.messages
    requires |replies| == MAX_ATTEMPTS - w.rollback.messages[a] && |replies| > 0
    ensures var v := DeliverRollbacks(w, a, replies);
            && v.rollback.messages == map[]
            && |v.rollback.attempts| == |w.rollback.attempts| == a + 1
            && (v.status, v.rollback.attempts[a])
               == (if SomeReturns(replies) then (RolledBack, AttemptCompleted)
                   else if replies[|replies| - 1].Throws? then (RollbackFailed, AttemptFailed)
                   else (RollbackPending, AttemptInProgress))
    decreases |replies|
  {
    RollbackStep(w, a, replies[0]);
    var v := DeliverRollback(w, a, replies[0]);
    var rest := replies[1..];
    assert SomeReturns(replies) <==> replies[0].Returns? || SomeReturns(rest) by {
      assert forall r :: r in replies <==> r == replies[0] || r in rest;
    }
    if replies[0].Returns? {
      SettledStays(v, a, rest);
    } else if rest == [] {
      assert DeliverRollbacks(v, a, rest) == v;
    } else {
      RollbackSettles(v, a, rest);
    }
  }

  /** The deliveries that the queue has made of rollback attempts, were each settled one delivered three times. */
  function DeliveriesMade(r: Rollback): int {
    var last := |r.attempts| - 1;
    if last in r.messages then 3 * last + r.messages[last] else 3 * |r.attempts|
  }

  lemma {:induction false} RequestCallsNothing(w: World, supported: bool, enqueued: bool)
    requires Sound(w) && w.rollback.calls <= DeliveriesMade(w.rollback)
    ensures var r := RequestRollback(w, supported, enqueued).rollback;
            r.calls <= DeliveriesMade(r)
  {
    Outcomes.RollbackRequestOutcome(w, supported, enqueued);
  }

  lemma {:induction false} DeliveryCallsOnce(w: World, a: nat, reply: Reply)
    requires Sound(w) && w.rollback.calls <= DeliveriesMade(w.rollback)
    ensures var r := DeliverRollback(w, a, reply).rollback;
            r.calls <= DeliveriesMade(r)
  {
    Outcomes.RollbackDeliveryOutcome(w, a, reply);
    if a in w.rollback.messages {
      RollbackStep(w, a, reply);
    }
  }

  lemma {:induction false} RollbackCallsAreDeliveries(w: World, action: Action)
    requires Sound(w) && w.rollback.calls <= DeliveriesMade(w.rollback)
    ensures Apply(w, action).rollback.calls <= DeliveriesMade(Apply(w, action).rollback)
  {
    match action
    case DoRequestRollback(supported, enqueued) => RequestCallsNothing(w, supported, enqueued);
    case DoDeliverRollback(a, reply) => DeliveryCallsOnce(w, a, reply);
    case _ =>
  }

  /** The connector is asked to roll back at most three times for each attempt. */
  lemma {:induction false} RollbackCallsAreBounded(actions: seq<Action>)
    ensures var r := Run(FRESH, actions).rollback;
            r.calls <= DeliveriesMade(r) <= 3 * |r.attempts|
  {
    ReachableIsSound(actions);
    if actions != [] {
      RollbackCallsAreBounded(actions[..|actions| - 1]);
      ReachableIsSound(actions[..|actions| - 1]);
      RollbackCallsAreDeliveries(Run(FRESH, actions[..|actions| - 1]), actions[|actions| - 1]);
    }
  }

  /**
   * What a rollback is told of the execution it undoes: the result itself, the receipt's object that
   * holds the result under a key of its own, or an empty object.
   */
  datatype RollbackContext = Whole(result: Payload) | Wrapped(result: Payload) | NoContext

  function FirstExecutionReceipt(receipts: seq<Receipt>): Option<Receipt> {
    if receipts == [] then None
    else if receipts[0].ExecutionReceipt? then Some(receipts[0])
    else FirstExecutionReceipt(receipts[1..])
  }

  function ExecutionContext(w: World): RollbackContext {
    var e := w.execution;
    if e.job.Some? && e.job.value.result.Some? && e.job.value.result.value.Object? then Whole(e.job.value.result.value)
    else match FirstExecutionReceipt(w.receipts)
      case Some(receipt) => Wrapped(receipt.result)
      case None => NoContext
  }

  lemma {:induction false} RollbackKnowsTheExecution(actions: seq<Action>)
    ensures var w := Run(FRESH, actions);
            w.status == RollbackPending ==>
              && w.execution.returned.Some?
              && ExecutionContext(w) == if w.execution.returned.value.Object? then Whole(w.execution.returned.value)
                                        else Wrapped(w.execution.returned.value)
  {
    ReachableIsSound(actions);
  }

  // ----- Where an intent comes to rest -----

  /** Nothing will ever move the intent on: its message was never queued, or its deliveries are spent. */
  predicate Stranded(w: World) {
    || (w.status == Queued && w.execution.message.None?)
    || w.status == Executing
    || (w.status == RollbackPending && w.rollback.messages == map[])
  }

  predicate AtRest(w: World) {
    w.status == Rejected || w.status == RolledBack || w.status == Failed || Stranded(w)
  }

  lemma {:induction false} RestIsKeptByOne(w: World, action: Action)
    requires Sound(w) && AtRest(w)
    ensures Apply(w, action).status == w.status && AtRest(Apply(w, action))
  {
    match action
    case DoDecide(user, verdict, role) =>
      if w.review.request.Some? {
        DecisionRecorded(w.status, w.review, user, verdict, role);
      }
    case _ =>
  }

  lemma {:induction false} RestIsKept(w: World, actions: seq<Action>)
    requires Sound(w) && AtRest(w)
    ensures Run(w, actions).status == w.status && AtRest(Run(w, actions)) && Sound(Run(w, actions))
  {
    RunKeepsSound(w, actions);
    if actions != [] {
      RestIsKept(w, actions[..|actions| - 1]);
      RestIsKeptByOne(Run(w, actions[..|actions| - 1]), actions[|actions| - 1]);
    }
  }

  const SIMPLE_FILING := Filing(Staging.Submission(None, None), true, [], Engine.Intent("", "", map[]), Engine.Context(None, None))

  /** A call or delivery that moves an intent that is not at rest. */
  function NextAction(w: World): Action {
    match w.status
    case Draft => DoPropose
    case Proposed => DoSimulate(true)
    case Simulated => DoSubmit(SIMPLE_FILING)
    case PendingApproval =>
      DoDecide(if w.review.request.Some? then Ledger.FreshUser(w.review.request.value.decisions) else 0, Ledger.Reject, Some(Staging.Owner))
    case Approved => DoQueue(true, true)
    case Queued => DoDeliverExecution(Returns(Object(0)))
    case RollbackPending => DoDeliverRollback(if |w.rollback.attempts| > 0 then |w.rollback.attempts| - 1 else 0, Returns(Object(0)))
    case _ => DoRequestRollback(true, true)
  }

  lemma {:induction false} FreshOwnerCanReject(r: Ledger.Request)
    requires r.status == Ledger.Pending
    ensures Ledger.Decide(r, Ledger.FreshUser(r.decisions), Ledger.Reject, Some(Staging.Owner)).move == Ledger.MoveToRejected
  {
    assert !Ledger.HasDecided(r.decisions, Ledger.FreshUser(r.decisions));
  }

  lemma {:induction false} AReviewCanEnd(w: World)
    requires w.status == PendingApproval && w.review.request.Some? && w.review.request.value.status == Ledger.Pending
    ensures Apply(w, NextAction(w)).status == Rejected
  {
    FreshOwnerCanReject(w.review.request.value);
  }

  lemma {:induction false} SubmissionMoves(w: World)
    requires Sound(w) && w.status == Simulated
    ensures Apply(w, NextAction(w)).status != Simulated
  {
  }

  lemma {:induction false} QueueMoves(w: World)
    requires Sound(w) && !AtRest(w) && (w.status == Approved || w.status == Queued)
    ensures Apply(w, NextAction(w)).status == if w.status == Approved then Queued else Succeeded
  {
  }

  lemma {:induction false} RollbackMoves(w: World)
    requires Sound(w) && w.status == RollbackPending && w.rollback.messages != map[]
    ensures Apply(w, NextAction(w)).status == RolledBack
  {
    assert |w.rollback.attempts| - 1 in w.rollback.messages;
  }

  lemma {:induction false} DraftMoves(w: World)
    requires w.status == Draft || w.status == Proposed
    ensures Apply(w, NextAction(w)).status == if w.status == Draft then Proposed else Simulated
  {
  }

  lemma {:induction false} SuccessMoves(w: World)
    requires w.status == Succeeded || w.status == RollbackFailed
    ensures Apply(w, NextAction(w)).status == RollbackPending
  {
  }

  lemma {:induction false} OtherwiseItMoves(w: World)
    requires Sound(w) && !AtRest(w)
    ensures Apply(w, NextAction(w)).status != w.status
  {
    match w.status
    case Draft => DraftMoves(w);
    case Proposed => DraftMoves(w);
    case Simulated => SubmissionMoves(w);
    case PendingApproval => AReviewCanEnd(w);
    case Approved => QueueMoves(w);
    case Queued => QueueMoves(w);
    case RollbackPending => RollbackMoves(w);
    case Succeeded => SuccessMoves(w);
    case RollbackFailed => SuccessMoves(w);
    case _ =>
  }

  /** Whatever is called and delivered from here on, the status stays. */
  ghost predicate StaysForever(w: World) {
    forall more {:trigger Run(w, more)} :: Run(w, more).status == w.status
  }

  lemma {:induction false} AtRestStaysForever(w: World)
    requires Sound(w) && AtRest(w)
    ensures StaysForever(w)
  {
    forall more ensures Run(w, more).status == w.status {
      RestIsKept(w, more);
    }
  }

  lemma {:induction false} OneStepRun(w: World, a: Action)
    ensures Run(w, [a]) == Apply(w, a)
  {
    assert [a][..0] == [];
  }

  lemma {:induction false} OtherwiseNotForever(w: World)
    requires Sound(w) && !AtRest(w)
    ensures !StaysForever(w)
  {
    OtherwiseItMoves(w);
    OneStepRun(w, NextAction(w));
  }

  /**
   * Exactly where a life can end: a reachable intent keeps its status under every continuation if
   * and only if it is rejected, rolled back, failed, or stranded. The table's edges out of
   * `Failed` are taken by no service, and a delivery that finds no connector strands the intent.
   */
  lemma {:induction false} RestExactlyWhen(actions: seq<Action>)
    ensures AtRest(Run(FRESH, actions)) <==> StaysForever(Run(FRESH, actions))
  {
    ReachableIsSound(actions);
    if AtRest(Run(FRESH, actions)) {
      AtRestStaysForever(Run(FRESH, actions));
    } else {
      OtherwiseNotForever(Run(FRESH, actions));
    }
  }
}
