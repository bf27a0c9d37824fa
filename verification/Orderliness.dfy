/**
 * An invariant of every run of the interleaved protocol: which processes there can be at which status,
 * and who alone can still queue the intent.
 */
module Orderliness {
  import opened Prelude
  import opened IntentStates
  import opened ApprovalStages
  import opened Interleaving
  import opened AtMostOnce
  import opened Walks
  import Ledger = ApprovalLedger

  /** The status a process will write when it next runs, having checked that it may. */
  function Holding(p: Proc): Option<Status> {
    match p
    case Reviewer(_, _, RWriting(target)) => Some(target)
    case Requester(QWriting) => Some(Queued)
    case Delivery(DWriting) => Some(Executing)
    case Delivery(DSettleWriting(target)) => Some(target)
    case Other(target, OWriting) => Some(target)
    case _ => None
  }

  /** No delivery has claimed the intent, nor is any service about to write a later status. */
  predicate NotStarted(s: State) {
    && !Started(s.status)
    && forall i :: 0 <= i < |s.procs| ==> !(s.procs[i].Other? && s.procs[i].o.OWriting? && Started(s.procs[i].target))
  }

  predicate SomeCreating(s: State) {
    exists i :: 0 <= i < |s.procs| && Creating(s.procs[i])
  }

  predicate SomeQueued(s: State) {
    exists i :: 0 <= i < |s.procs| && s.procs[i] == Requester(QMoved)
  }

  /** A submission that has opened the request and not yet moved the intent. */
  predicate Entering(p: Proc) {
    p.Other? && p.target.PendingApproval? && !p.o.ODone?
  }

  predicate Orderly(s: State) {
    && (forall i :: 0 <= i < |s.procs| ==> Shaped(s.procs[i]))
    && CreatorIsAlone(s)
    && (s.job.None? || SomeCreating(s) ==> NotStarted(s))
    && (s.status == Queued ==> s.enqueued || SomeQueued(s))
    && (s.status == PendingApproval ==> s.row.Some?)
    && (forall i :: 0 <= i < |s.procs| && Entering(s.procs[i]) ==> s.row.Some?)
  }

  /** A step of a process that is not the creator, a delivery or a status change to a later state. */
  lemma {:induction false} QuietKeepsOrderly(s: State, t: State, i: nat, p: Proc)
    requires Orderly(s) && i < |s.procs| && t.procs == s.procs[i := p]
    requires Shaped(p) && !Creating(p) && !p.Delivery? && p != Requester(QMoved) && s.procs[i] != Requester(QMoved)
    requires Entering(p) ==> t.row.Some?
    requires p.Other? && p.o.OWriting? ==> !Started(p.target) || Started(s.status)
    requires (t.calls, t.enqueued, t.job) == (s.calls, s.enqueued, s.job) && (s.row.Some? ==> t.row.Some?)
    requires t.status == s.status || (t.status != Queued && (Started(t.status) ==> Holding(s.procs[i]) == Some(t.status) && s.procs[i].Other?))
    requires t.status == PendingApproval ==> t.row.Some?
    ensures Orderly(t)
  {
    assert SomeCreating(t) ==> SomeCreating(s);
    assert SomeQueued(s) ==> SomeQueued(t) by {
      if SomeQueued(s) {
        var k :| 0 <= k < |s.procs| && s.procs[k] == Requester(QMoved);
        assert t.procs[k] == Requester(QMoved);
      }
    }
  }

  lemma {:induction false} ReviewerKeepsOrderly(s: State, i: nat, user: int, verdict: Ledger.Verdict, at: ReviewerAt, flag: bool)
    requires Orderly(s) && WellFormed(s) && i < |s.procs| && s.procs[i] == Reviewer(user, verdict, at)
    ensures Orderly(ReviewerStep(s, i, user, verdict, at, flag))
  {
    var t := ReviewerStep(s, i, user, verdict, at, flag);
    assert Shaped(s.procs[i]);
    if t != s {
      QuietKeepsOrderly(s, t, i, t.procs[i]);
    }
  }

  lemma {:induction false} OtherKeepsOrderly(s: State, i: nat, target: Status, at: OtherAt)
    requires Orderly(s) && i < |s.procs| && s.procs[i] == Other(target, at)
    ensures Orderly(OtherStep(s, i, target, at))
  {
    var t := OtherStep(s, i, target, at);
    assert Shaped(s.procs[i]) && (Entering(s.procs[i]) ==> s.row.Some?);
    if t != s {
      QuietKeepsOrderly(s, t, i, t.procs[i]);
    }
  }

  lemma {:induction false} SimulatorKeepsOrderly(s: State, i: nat, at: SimulatorAt, flag: bool)
    requires Orderly(s) && i < |s.procs| && s.procs[i] == Simulator(at)
    ensures Orderly(SimulatorStep(s, i, at, flag))
  {
    var t := SimulatorStep(s, i, at, flag);
    if t != s {
      QuietKeepsOrderly(s, t, i, t.procs[i]);
    }
  }

  lemma {:induction false} SubmitterKeepsOrderly(s: State, i: nat, chain: seq<Stage>, at: SubmitterAt, flag: bool)
    requires Orderly(s) && i < |s.procs| && s.procs[i] == Submitter(chain, at)
    ensures Orderly(SubmitterStep(s, i, chain, at, flag))
  {
    var t := SubmitterStep(s, i, chain, at, flag);
    assert Shaped(s.procs[i]);
    if t != s {
      QuietKeepsOrderly(s, t, i, t.procs[i]);
    }
  }

  lemma {:induction false} CreateKeepsOrderly(s: State, i: nat)
    requires Orderly(s) && i < |s.procs| && s.procs[i] == Requester(QSawNoJob) && s.job.None?
    ensures Orderly(With(s.(job := Some(JobQueued)), i, Requester(QCreated)))
  {
  }

  lemma {:induction false} CheckKeepsOrderly(s: State, i: nat, p: Proc)
    requires Orderly(s) && i < |s.procs| && s.procs[i] == Requester(QCreated)
    requires p == Requester(QWriting) || p == Requester(QDone)
    ensures Orderly(With(s, i, p))
  {
    assert Creating(s.procs[i]);
    assert SomeCreating(s);
  }

  lemma {:induction false} QueueKeepsOrderly(s: State, i: nat)
    requires Orderly(s) && i < |s.procs| && s.procs[i] == Requester(QWriting)
    ensures Orderly(With(s.(status := Queued), i, Requester(QMoved)))
  {
    var t := With(s.(status := Queued), i, Requester(QMoved));
    assert Creating(s.procs[i]);
    assert t.procs[i] == Requester(QMoved);
    assert !SomeCreating(t);
  }

  lemma {:induction false} EnqueueKeepsOrderly(s: State, i: nat)
    requires Orderly(s) && i < |s.procs| && s.procs[i] == Requester(QMoved)
    ensures Orderly(With(s.(enqueued := true), i, Requester(QDone)))
  {
    assert !NeverQueued(s);
    assert !SomeCreating(With(s.(enqueued := true), i, Requester(QDone)));
  }

  lemma {:induction false} RequesterKeepsOrderly(s: State, i: nat, at: RequesterAt)
    requires Orderly(s) && i < |s.procs| && s.procs[i] == Requester(at)
    ensures Orderly(RequesterStep(s, i, at))
  {
    var t := RequesterStep(s, i, at);
    match at
    case QSawNoJob =>
      if s.job.None? {
        CreateKeepsOrderly(s, i);
      } else {
        QuietKeepsOrderly(s, t, i, Requester(QDone));
      }
    case QCreated => CheckKeepsOrderly(s, i, t.procs[i]);
    case QWriting => QueueKeepsOrderly(s, i);
    case QMoved => EnqueueKeepsOrderly(s, i);
    case QDone =>
    case _ => QuietKeepsOrderly(s, t, i, t.procs[i]);
  }

  lemma {:induction false} DeliveryKeepsOrderly(s: State, i: nat, at: DeliveryAt, flag: bool)
    requires Orderly(s) && i < |s.procs| && s.procs[i] == Delivery(at)
    ensures Orderly(DeliveryStep(s, i, at, flag))
  {
    var t := DeliveryStep(s, i, at, flag);
    assert Shaped(s.procs[i]) && !NeverQueued(s);
    assert !SomeCreating(s) && s.job.Some?;
    assert t != s ==> t.procs == s.procs[i := t.procs[i]] && t.procs[i].Delivery? && t.job.Some?;
    assert !SomeCreating(t);
    if SomeQueued(s) {
      var k :| 0 <= k < |s.procs| && s.procs[k] == Requester(QMoved);
      assert t.procs[k] == Requester(QMoved);
    }
  }

  lemma {:induction false} SpawnKeepsOrderly(s: State, p: Proc)
    requires Orderly(s) && Shaped(p) && !Creating(p) && !Entering(p) && p != Requester(QMoved)
    requires p.Delivery? ==> s.enqueued
    requires !(p.Other? && p.o.OWriting?)
    ensures Orderly(Joined(s, p))
  {
    var t := Joined(s, p);
    SpawnKeepsCreator(s, p);
    if SomeCreating(t) {
      var k :| 0 <= k < |t.procs| && Creating(t.procs[k]);
      assert k < |s.procs| && Creating(s.procs[k]);
    }
    if SomeQueued(s) {
      var k :| 0 <= k < |s.procs| && s.procs[k] == Requester(QMoved);
      assert t.procs[k] == Requester(QMoved);
    }
  }

  lemma {:induction false} ActKeepsOrderly(s: State, i: nat, flag: bool)
    requires Orderly(s) && WellFormed(s) && i < |s.procs|
    ensures Orderly(Step(s, Act(i, flag)))
  {
    match s.procs[i]
    case Reviewer(user, verdict, at) => ReviewerKeepsOrderly(s, i, user, verdict, at, flag);
    case Requester(at) => RequesterKeepsOrderly(s, i, at);
    case Delivery(at) => DeliveryKeepsOrderly(s, i, at, flag);
    case Simulator(at) => SimulatorKeepsOrderly(s, i, at, flag);
    case Submitter(chain, at) => SubmitterKeepsOrderly(s, i, chain, at, flag);
    case Other(target, at) => OtherKeepsOrderly(s, i, target, at);
  }

  lemma {:induction false} StepKeepsOrderly(s: State, a: Action)
    requires Orderly(s) && WellFormed(s)
    ensures Orderly(Step(s, a))
  {
    match a
    case SpawnSimulator => SpawnKeepsOrderly(s, Simulator(MStart));
    case SpawnSubmitter(chain) => SpawnKeepsOrderly(s, Submitter(chain, UStart));
    case SpawnReviewer(user, verdict) => SpawnKeepsOrderly(s, Reviewer(user, verdict, RStart));
    case SpawnRequester => SpawnKeepsOrderly(s, Requester(QStart));
    case SpawnDelivery =>
      if s.enqueued {
        SpawnKeepsOrderly(s, Delivery(DStart));
      }
    case SpawnOther(target) =>
      if ChangedAlone(target) {
        SpawnKeepsOrderly(s, Other(target, OStart));
      }
    case Act(i, flag) =>
      if i < |s.procs| {
        ActKeepsOrderly(s, i, flag);
      }
  }

  lemma {:induction false} RunKeepsOrderly(o: State, more: seq<Action>)
    requires WellFormed(o) && Orderly(o)
    ensures Orderly(Run(o, more))
  {
    if more != [] {
      RunKeepsOrderly(o, more[..|more| - 1]);
      StepKeepsOrderly(Run(o, more[..|more| - 1]), more[|more| - 1]);
    }
  }

  lemma {:induction false} ReachesOrderly(o: State, s: State)
    requires Orderly(o) && Reaches(o, s)
    ensures Orderly(s)
  {
    var more :| Leads(o, more, s);
    RunKeepsOrderly(o, more);
  }
}
