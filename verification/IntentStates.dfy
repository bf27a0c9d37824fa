/** The thirteen intent states and the table of legal moves between them. */
module IntentStates {

  datatype Status =
    | Draft
    | Proposed
    | Simulated
    | PendingApproval
    | Approved
    | Rejected
    | Queued
    | Executing
    | Succeeded
    | Failed
    | RollbackPending
    | RolledBack
    | RollbackFailed

  /** The status of the execution job, which an intent gets when it is queued. */
  datatype JobStatus = JobQueued | JobProcessing | JobCompleted | JobFailed

  function NextStates(s: Status): seq<Status> {
    match s
    case Draft => [Proposed]
    case Proposed => [Simulated, Rejected]
    case Simulated => [PendingApproval, Rejected]
    case PendingApproval => [Approved, Rejected]
    case Approved => [Queued, Rejected]
    case Rejected => []
    case Queued => [Executing]
    case Executing => [Succeeded, Failed]
    case Succeeded => [RollbackPending]
    case Failed => [RollbackPending, Queued]
    case RollbackPending => [RolledBack, RollbackFailed]
    case RolledBack => []
    case RollbackFailed => [RollbackPending]
  }

  /** Membership in the table, spelled out by the state that is left. */
  predicate IsValidTransition(from: Status, to: Status) {
    match from
    case Draft => to.Proposed?
    case Proposed => to.Simulated? || to.Rejected?
    case Simulated => to.PendingApproval? || to.Rejected?
    case PendingApproval => to.Approved? || to.Rejected?
    case Approved => to.Queued? || to.Rejected?
    case Queued => to.Executing?
    case Executing => to.Succeeded? || to.Failed?
    case Succeeded => to.RollbackPending?
    case Failed => to.RollbackPending? || to.Queued?
    case RollbackPending => to.RolledBack? || to.RollbackFailed?
    case RollbackFailed => to.RollbackPending?
    case _ => false
  }

  /** The guard agrees with the table, and a state is terminal exactly when no move leaves it. */
  lemma {:induction false} GuardReadsTheTable(from: Status)
    ensures forall to :: IsValidTransition(from, to) <==> to in NextStates(from)
    ensures IsTerminal(from) <==> forall to :: !IsValidTransition(from, to)
  {
    if !IsTerminal(from) {
      assert IsValidTransition(from, NextStates(from)[0]);
    }
  }

  predicate IsTerminal(s: Status) {
    |NextStates(s)| == 0
  }

  /** A delivery has claimed the intent, whether or not the connector has been asked yet. */
  predicate Started(s: Status) {
    s.Executing? || s.Succeeded? || s.Failed? || s.RollbackPending? || s.RolledBack? || s.RollbackFailed?
  }

  /** The reviewers' approval has been granted and has not been withdrawn. */
  predicate Cleared(s: Status) {
    s.Approved? || s.Queued? || Started(s)
  }

  // ----- Paths through the table -----

  /** A history of statuses: it begins at `Draft` and every move is in the table. */
  predicate LegalPath(p: seq<Status>) {
    && |p| > 0
    && p[0] == Draft
    && forall i {:trigger LegalAt(p, i)} :: 0 < i < |p| ==> LegalAt(p, i)
  }

  predicate LegalAt(p: seq<Status>, i: int)
    requires 0 < i < |p|
  {
    IsValidTransition(p[i - 1], p[i])
  }

  /** A history without its last status is one, and the last move was in the table. */
  lemma {:induction false} PathBefore(p: seq<Status>)
    requires LegalPath(p) && |p| > 1
    ensures LegalPath(p[..|p| - 1]) && IsValidTransition(p[|p| - 2], p[|p| - 1])
  {
    var q := p[..|p| - 1];
    forall i | 0 < i < |q| ensures LegalAt(q, i) {
      assert LegalAt(p, i);
    }
    assert LegalAt(p, |p| - 1);
  }

  const SPINE := [Draft, Proposed, Simulated, PendingApproval, Approved, Queued, Executing]

  /** Every history follows the spine step by step until it leaves it by rejection. */
  lemma {:induction false} PathFollowsSpine(p: seq<Status>)
    requires LegalPath(p)
    ensures || p[|p| - 1] == Rejected
            || (|p| <= 7 && p == SPINE[..|p|])
            || (|p| >= 7 && p[..7] == SPINE)
  {
    if |p| > 1 {
      var q := p[..|p| - 1];
      PathBefore(p);
      PathFollowsSpine(q);
      assert q[|q| - 1] == p[|p| - 2];
      assert p == q + [p[|p| - 1]];
      if |q| >= 7 && q[..7] == SPINE {
        assert p[..7] == q[..7];
      } else {
        assert q == SPINE[..|q|];
        assert p[|p| - 2] == SPINE[|p| - 2];
      }
    }
  }

  /**
   * No history reaches the connector without passing through simulation, approval and the
   * queue, in that order and each for the first time.
   */
  lemma {:induction false} StartedNeedsTheSpine(p: seq<Status>)
    requires LegalPath(p)
    ensures Started(p[|p| - 1]) ==> |p| >= 7 && p[..7] == SPINE
    ensures p[|p| - 1] == Queued ==> |p| >= 6 && p[..6] == SPINE[..6]
    ensures p[|p| - 1] == Approved ==> p == SPINE[..5]
  {
    PathFollowsSpine(p);
    if |p| >= 7 && p[..7] == SPINE {
      assert p[..6] == p[..7][..6];
      if p[|p| - 1] == Approved {
        NeverBackBeforeQueue(p, |p| - 1);
      }
    }
  }

  /** Past the sixth move a history never returns to a state that precedes the queue. */
  lemma {:induction false} NeverBackBeforeQueue(p: seq<Status>, i: nat)
    requires LegalPath(p) && |p| >= 7 && p[..7] == SPINE
    requires 6 <= i < |p|
    ensures Started(p[i]) || p[i] == Queued
  {
    if i == 6 {
      assert p[6] == p[..7][6];
    } else {
      NeverBackBeforeQueue(p, i - 1);
      assert LegalAt(p, i);
    }
  }

  // ----- How long a history can be -----

  function RollbackRequests(p: seq<Status>): nat {
    if p == [] then 0 else RollbackRequests(p[..|p| - 1]) + (if p[|p| - 1] == RollbackPending then 1 else 0)
  }

  function Requeues(p: seq<Status>): nat {
    if |p| < 2 then 0
    else Requeues(p[..|p| - 1]) + (if p[|p| - 2] == Failed && p[|p| - 1] == Queued then 1 else 0)
  }

  /** The largest number of moves that can lead to `s` with no rollback and no requeue. */
  function Depth(s: Status): nat {
    match s
    case Draft => 0
    case Proposed => 1
    case Simulated => 2
    case PendingApproval => 3
    case Approved => 4
    case Rejected => 5
    case Queued => 5
    case Executing => 6
    case RollbackPending => 6
    case _ => 7
  }

  lemma {:induction false} StepDeepens(a: Status, b: Status)
    requires IsValidTransition(a, b)
    ensures Depth(a) + 1 <= Depth(b) + (if b == RollbackPending then 2 else 0) + (if a == Failed && b == Queued then 3 else 0)
  {
  }

  /**
   * A history has at most seven moves, plus two for each rollback it enters and three for
   * each time a failed execution is queued again.
   */
  lemma {:induction false} PathLengthBound(p: seq<Status>)
    requires LegalPath(p)
    ensures |p| - 1 <= Depth(p[|p| - 1]) + 2 * RollbackRequests(p) + 3 * Requeues(p)
    ensures |p| - 1 <= 7 + 2 * RollbackRequests(p) + 3 * Requeues(p)
  {
    if |p| > 1 {
      var q := p[..|p| - 1];
      PathBefore(p);
      PathLengthBound(q);
      StepDeepens(q[|q| - 1], p[|p| - 1]);
    }
  }

  lemma {:induction false} OneMoreMove(p: seq<Status>, s: Status)
    requires LegalPath(p) && IsValidTransition(p[|p| - 1], s)
    ensures LegalPath(p + [s])
    ensures RollbackRequests(p + [s]) == RollbackRequests(p) + (if s == RollbackPending then 1 else 0)
    ensures Requeues(p + [s]) == Requeues(p) + (if p[|p| - 1] == Failed && s == Queued then 1 else 0)
  {
    var q := p + [s];
    assert q[..|q| - 1] == p;
    forall i | 0 < i < |q| ensures LegalAt(q, i) {
      assert i < |p| ==> LegalAt(p, i);
    }
  }

  /** The spine to a failed execution, queued again `requeues` times, and rolled back in vain `rollbacks` times. */
  function LongPath(rollbacks: nat, requeues: nat): seq<Status> {
    if rollbacks > 0 then LongPath(rollbacks - 1, requeues) + [RollbackPending] + [RollbackFailed]
    else if requeues > 0 then LongPath(0, requeues - 1) + [Queued] + [Executing] + [Failed]
    else SPINE + [Failed]
  }

  lemma {:induction false} SpineMoves(n: nat)
    requires 1 <= n < 7
    ensures IsValidTransition(SPINE[n - 1], SPINE[n]) && SPINE[n] != RollbackPending && SPINE[n - 1] != Failed
  {
  }

  lemma {:induction false} FreshPath()
    ensures LegalPath([Draft]) && RollbackRequests([Draft]) == 0 && Requeues([Draft]) == 0
  {
    assert [Draft][..0] == [];
  }

  lemma {:induction false} SpineIsLegal(n: nat)
    requires 1 <= n <= 7
    ensures LegalPath(SPINE[..n]) && RollbackRequests(SPINE[..n]) == 0 && Requeues(SPINE[..n]) == 0
  {
    if n == 1 {
      FreshPath();
      assert SPINE[..1] == [Draft];
    } else {
      var p, s := SPINE[..n - 1], SPINE[n - 1];
      SpineIsLegal(n - 1);
      SpineMoves(n - 1);
      assert p[|p| - 1] == SPINE[n - 2];
      OneMoreMove(p, s);
      assert SPINE[..n] == p + [s];
    }
  }

  lemma {:induction false} RolledBackInVain(p: seq<Status>)
    requires LegalPath(p) && (p[|p| - 1] == Failed || p[|p| - 1] == RollbackFailed)
    ensures var q := p + [RollbackPending] + [RollbackFailed];
            LegalPath(q) && RollbackRequests(q) == RollbackRequests(p) + 1 && Requeues(q) == Requeues(p)
  {
    OneMoreMove(p, RollbackPending);
    OneMoreMove(p + [RollbackPending], RollbackFailed);
  }

  lemma {:induction false} QueuedAgain(p: seq<Status>)
    requires LegalPath(p) && p[|p| - 1] == Failed
    ensures var q := p + [Queued] + [Executing] + [Failed];
            LegalPath(q) && RollbackRequests(q) == RollbackRequests(p) && Requeues(q) == Requeues(p) + 1
  {
    OneMoreMove(p, Queued);
    OneMoreMove(p + [Queued], Executing);
    OneMoreMove(p + [Queued] + [Executing], Failed);
  }

  /** The bound is attained, for every number of rollbacks and requeues. */
  lemma {:induction false} BoundIsAttained(rollbacks: nat, requeues: nat)
    ensures var p := LongPath(rollbacks, requeues);
            && LegalPath(p) && RollbackRequests(p) == rollbacks && Requeues(p) == requeues
            && |p| - 1 == 7 + 2 * rollbacks + 3 * requeues
            && p[|p| - 1] == (if rollbacks > 0 then RollbackFailed else Failed)
  {
    if rollbacks > 0 {
      BoundIsAttained(rollbacks - 1, requeues);
      RolledBackInVain(LongPath(rollbacks - 1, requeues));
    } else if requeues > 0 {
      BoundIsAttained(0, requeues - 1);
      QueuedAgain(LongPath(0, requeues - 1));
    } else {
      SpineIsLegal(7);
      assert SPINE[..7] == SPINE;
      OneMoreMove(SPINE, Failed);
    }
  }

  /** An intent can be rejected from the moment it is proposed until it is queued, and at no other time. */
  lemma {:induction false} RejectedExactlyBeforeTheQueue(s: Status)
    ensures IsValidTransition(s, Rejected) <==> s in SPINE[1..5]
  {
    assert SPINE[1..5] == [Proposed, Simulated, PendingApproval, Approved];
  }
}
