/**
 * The multi-stage approval request: one decision at a time, the ledger it keeps, and the view
 * that is derived from the recorded decisions for display.
 */
module ApprovalLedger {
  import opened Prelude
  import opened ApprovalStages

  datatype Verdict = Approve | Reject

  /** `stageIndex` is absent on rows written before stages existed. */
  datatype Decision = Decision(user: int, verdict: Verdict, stageIndex: Option<int>, stageName: string)

  datatype RequestStatus = Pending | Approved | Rejected

  datatype Request = Request(
    status: RequestStatus,
    requiredCount: int,
    currentCount: int,
    currentStageIndex: int,
    definitions: RawStages,
    decisions: seq<Decision>)

  function StageOf(d: Decision): int {
    d.stageIndex.GetOr(0)
  }

  /** The stages of a request, read back from its row. */
  function Stages(r: Request): (stages: seq<Stage>)
    ensures |stages| >= 1
  {
    ParseStages(r.definitions, r.requiredCount)
  }

  /** The stored stage index, clamped into the chain. */
  function ActiveIndex(stages: seq<Stage>, r: Request): (i: int)
    requires |stages| >= 1
    ensures 0 <= i < |stages|
    ensures 0 <= r.currentStageIndex < |stages| ==> i == r.currentStageIndex
  {
    Clamp(r.currentStageIndex, |stages|)
  }

  /** The nearest index of a chain of `n` stages. */
  function Clamp(i: int, n: nat): (c: nat)
    requires n > 0
    ensures c < n
    ensures 0 <= i < n ==> c == i
  {
    Min(Max(i, 0), Max(n - 1, 0))
  }

  // ----- Counting decisions -----

  /** Approvals recorded for stage `i`. */
  function Approvals(ds: seq<Decision>, i: int): nat {
    if ds == [] then 0
    else
      var d := ds[|ds| - 1];
      Approvals(ds[..|ds| - 1], i) + (if d.verdict == Approve && StageOf(d) == i then 1 else 0)
  }

  /** Approvals recorded for any stage. */
  function ApprovedCount(ds: seq<Decision>): nat {
    if ds == [] then 0
    else ApprovedCount(ds[..|ds| - 1]) + (if ds[|ds| - 1].verdict == Approve then 1 else 0)
  }

  /** Approvals recorded for the first `n` stages. */
  function ApprovalsBelow(ds: seq<Decision>, n: nat): nat {
    if n == 0 then 0 else ApprovalsBelow(ds, n - 1) + Approvals(ds, n - 1)
  }

  predicate HasDecided(ds: seq<Decision>, user: int) {
    exists d :: d in ds && d.user == user
  }

  /** A user who has not decided. */
  function FreshUser(ds: seq<Decision>): (u: int)
    ensures forall d :: d in ds ==> d.user < u
  {
    if ds == [] then 0
    else
      var u := FreshUser(ds[..|ds| - 1]);
      if ds[|ds| - 1].user < u then u else ds[|ds| - 1].user + 1
  }

  predicate HasRejection(ds: seq<Decision>, i: int) {
    exists d :: d in ds && d.verdict == Reject && StageOf(d) == i
  }

  /** A decision written before stages existed counts for the first one. */
  lemma {:induction false} OldDecisionsCountFirst(ds: seq<Decision>, i: int)
    requires forall d :: d in ds ==> d.stageIndex.None?
    ensures Approvals(ds, i) == if i == 0 then ApprovedCount(ds) else 0
  {
    if ds != [] {
      assert ds[|ds| - 1] in ds;
      OldDecisionsCountFirst(ds[..|ds| - 1], i);
    }
  }

  lemma {:induction false} CountsAfter(ds: seq<Decision>, d: Decision, i: int)
    ensures Approvals(ds + [d], i) == Approvals(ds, i) + (if d.verdict == Approve && StageOf(d) == i then 1 else 0)
    ensures ApprovedCount(ds + [d]) == ApprovedCount(ds) + (if d.verdict == Approve then 1 else 0)
  {
    assert (ds + [d])[..|ds + [d]| - 1] == ds;
  }

  // ----- One decision -----

  datatype Outcome = Recorded | NotPending | DuplicateReviewer | NotPermitted

  /** What the caller must do to the intent after the request row is written. */
  datatype IntentMove = Stay | MoveToApproved | MoveToRejected

  datatype Step = Step(request: Request, outcome: Outcome, move: IntentMove)

  function OpenRequest(stages: seq<Stage>): Request {
    Request(Pending, Total(stages), 0, 0, Store(stages), [])
  }

  function Refusal(stages: seq<Stage>, r: Request, user: int, role: Option<Role>): Option<Outcome>
    requires |stages| >= 1
  {
    if r.status != Pending then Some(NotPending)
    else if HasDecided(r.decisions, user) then Some(DuplicateReviewer)
    else if !MayReview(role, stages[ActiveIndex(stages, r)].reviewerRoles) then Some(NotPermitted)
    else None
  }

  /** One reviewer's decision on a request whose chain is `stages`. */
  function DecideOn(stages: seq<Stage>, r: Request, user: int, verdict: Verdict, role: Option<Role>): (s: Step)
    requires |stages| >= 1
    ensures s.request.definitions == r.definitions && s.request.requiredCount == r.requiredCount
  {
    var refusal := Refusal(stages, r, user, role);
    if refusal.Some? then Step(r, refusal.value, Stay)
    else
      var i := ActiveIndex(stages, r);
      var decided := r.(decisions := r.decisions + [Decision(user, verdict, Some(i), stages[i].name)]);
      if verdict == Reject then Step(decided.(status := Rejected), Recorded, MoveToRejected)
      else
        var counted := decided.(currentCount := ApprovedCount(r.decisions) + 1);
        if Approvals(r.decisions, i) + 1 < stages[i].requiredCount then
          Step(counted.(currentStageIndex := i), Recorded, Stay)
        else if i >= |stages| - 1 then
          Step(counted.(currentStageIndex := i, status := Approved), Recorded, MoveToApproved)
        else
          Step(counted.(currentStageIndex := i + 1), Recorded, Stay)
  }

  /** The writes after a decision has been let through, one after another. */
  method RecordDecision(stages: seq<Stage>, r: Request, user: int, verdict: Verdict) returns (next: Request, move: IntentMove)
    requires |stages| >= 1
    ensures forall role :: Refusal(stages, r, user, role).None? ==>
              DecideOn(stages, r, user, verdict, role) == Step(next, Recorded, move)
  {
    var active := ActiveIndex(stages, r);
    var decision := Decision(user, verdict, Some(active), stages[active].name);
    next := r.(decisions := r.decisions + [decision]);
    if verdict == Reject {
      next := next.(status := Rejected);
      return next, MoveToRejected;
    }
    CountsAfter(r.decisions, decision, active);
    var complete := Approvals(next.decisions, active) >= stages[active].requiredCount;
    var last := active >= |stages| - 1;
    next := next.(currentCount := ApprovedCount(next.decisions),
                  currentStageIndex := if complete && !last then active + 1 else active,
                  status := if complete && last then Approved else Pending);
    move := if complete && last then MoveToApproved else Stay;
  }

  /**
   * An approval brings the row back in line with the decisions, whatever stood in it: count, stage
   * index and status are counted anew, the new decision included.
   */
  lemma {:induction false} ApprovalRecounts(stages: seq<Stage>, r: Request, user: int, role: Option<Role>)
    requires |stages| >= 1 && DecideOn(stages, r, user, Approve, role).outcome == Recorded
    ensures var s, c := DecideOn(stages, r, user, Approve, role), ActiveIndex(stages, r);
            var full := Approvals(s.request.decisions, c) >= stages[c].requiredCount;
            && s.request.currentCount == ApprovedCount(s.request.decisions)
            && s.request.currentStageIndex == (if full && c < |stages| - 1 then c + 1 else c)
            && s.request.status == (if full && c == |stages| - 1 then Approved else Pending)
            && (s.move == MoveToApproved <==> s.request.status == Approved)
  {
    var c := ActiveIndex(stages, r);
    CountsAfter(r.decisions, Decision(user, Approve, Some(c), stages[c].name), c);
  }

  function Decide(r: Request, user: int, verdict: Verdict, role: Option<Role>): (s: Step)
    ensures Stages(s.request) == Stages(r)
  {
    DecideOn(Stages(r), r, user, verdict, role)
  }

  // ----- The ledger -----

  predicate DistinctUsers(ds: seq<Decision>) {
    forall i, j :: 0 <= i < j < |ds| ==> ds[i].user != ds[j].user
  }

  /** No decision but possibly the last is a rejection. */
  predicate RejectionsAre(ds: seq<Decision>, lastRejected: bool) {
    && (lastRejected ==> |ds| > 0)
    && forall k :: 0 <= k < |ds| ==> (ds[k].verdict == Reject <==> lastRejected && k == |ds| - 1)
  }

  /** Every stage before `c` has exactly the approvals it asks for and every later one has none. */
  predicate FilledUpTo(ds: seq<Decision>, stages: seq<Stage>, c: int) {
    && (forall i :: 0 <= i < c && i < |stages| ==> Approvals(ds, i) == stages[i].requiredCount)
    && (forall i :: c < i < |stages| ==> Approvals(ds, i) == 0)
  }

  predicate LedgerOn(stages: seq<Stage>, r: Request) {
    var c := r.currentStageIndex;
    && ValidChain(stages)
    && r.requiredCount == Total(stages)
    && 0 <= c < |stages|
    && r.currentCount == ApprovedCount(r.decisions)
    && DistinctUsers(r.decisions)
    && (forall d :: d in r.decisions ==> 0 <= StageOf(d) <= c)
    && FilledUpTo(r.decisions, stages, c)
    && RejectionsAre(r.decisions, r.status == Rejected)
    && (r.status == Rejected ==> StageOf(r.decisions[|r.decisions| - 1]) == c)
    && (if r.status == Approved
        then c == |stages| - 1 && Approvals(r.decisions, c) == stages[c].requiredCount
        else Approvals(r.decisions, c) < stages[c].requiredCount)
  }

  /** The ledger for the chain that the row itself reads back to. */
  ghost predicate Ledger(r: Request) {
    forall stages {:trigger LedgerOn(stages, r)} :: stages == Stages(r) ==> LedgerOn(stages, r)
  }

  lemma {:induction false} EmptyLedger(stages: seq<Stage>)
    requires ValidChain(stages)
    ensures LedgerOn(stages, OpenRequest(stages))
  {
    assert stages[0] in stages;
  }

  lemma {:induction false} NewRequestHasLedger(sub: Submission)
    requires ParseSubmission(sub).Some?
    ensures var stages := NormalizeStages(ParseSubmission(sub).value);
            LedgerOn(stages, OpenRequest(stages)) && Stages(OpenRequest(stages)) == stages
  {
    StageRoundTrip(sub);
    EmptyLedger(NormalizeStages(ParseSubmission(sub).value));
  }

  lemma {:induction false} NoneBeyond(ds: seq<Decision>, c: int)
    requires forall d :: d in ds ==> StageOf(d) <= c
    ensures forall i :: i > c ==> Approvals(ds, i) == 0
  {
    if ds != [] {
      assert ds[|ds| - 1] in ds;
      NoneBeyond(ds[..|ds| - 1], c);
    }
  }

  lemma {:induction false} NewUserStaysDistinct(ds: seq<Decision>, d: Decision)
    requires DistinctUsers(ds) && !HasDecided(ds, d.user)
    ensures DistinctUsers(ds + [d])
  {
    forall a | 0 <= a < |ds| ensures ds[a].user != d.user {
      assert ds[a] in ds;
    }
  }

  lemma {:induction false} ApprovalsAfter(ds: seq<Decision>, d: Decision)
    ensures forall j :: Approvals(ds + [d], j) == Approvals(ds, j) + (if d.verdict == Approve && StageOf(d) == j then 1 else 0)
  {
    forall j ensures Approvals(ds + [d], j) == Approvals(ds, j) + (if d.verdict == Approve && StageOf(d) == j then 1 else 0) {
      CountsAfter(ds, d, j);
    }
  }

  /** A decision that a reviewer may take now, at the stage that is open. */
  predicate Acceptable(r: Request, d: Decision) {
    r.status == Pending && !HasDecided(r.decisions, d.user) && StageOf(d) == r.currentStageIndex
  }

  lemma {:induction false} RejectKeepsLedger(stages: seq<Stage>, r: Request, d: Decision)
    requires LedgerOn(stages, r) && Acceptable(r, d) && d.verdict == Reject
    ensures LedgerOn(stages, r.(decisions := r.decisions + [d], status := Rejected))
  {
    ApprovalsAfter(r.decisions, d);
    CountsAfter(r.decisions, d, 0);
    NewUserStaysDistinct(r.decisions, d);
  }

  /** The row after an approval: the next stage when this one is full, approved when it was the last. */
  function AfterApproval(stages: seq<Stage>, r: Request, d: Decision): Request
    requires 0 <= r.currentStageIndex < |stages|
  {
    var c := r.currentStageIndex;
    var full := Approvals(r.decisions, c) + 1 >= stages[c].requiredCount;
    var last := c == |stages| - 1;
    r.(decisions := r.decisions + [d],
       currentCount := r.currentCount + 1,
       currentStageIndex := if full && !last then c + 1 else c,
       status := if full && last then Approved else Pending)
  }

  lemma {:induction false} ApproveKeepsLedger(stages: seq<Stage>, r: Request, d: Decision)
    requires LedgerOn(stages, r) && Acceptable(r, d) && d.verdict == Approve
    ensures LedgerOn(stages, AfterApproval(stages, r, d))
  {
    var s := AfterApproval(stages, r, d);
    ApprovalsAfter(r.decisions, d);
    CountsAfter(r.decisions, d, 0);
    NoneBeyond(r.decisions, r.currentStageIndex);
    NewUserStaysDistinct(r.decisions, d);
    assert stages[s.currentStageIndex] in stages;
  }

  lemma {:induction false} AcceptedDecisionIs(stages: seq<Stage>, r: Request, user: int, verdict: Verdict, role: Option<Role>)
    requires |stages| >= 1 && Refusal(stages, r, user, role).None?
    requires 0 <= r.currentStageIndex < |stages| && r.currentCount == ApprovedCount(r.decisions)
    ensures var c := r.currentStageIndex;
            var d := Decision(user, verdict, Some(c), stages[c].name);
            var s := DecideOn(stages, r, user, verdict, role);
            && Acceptable(r, d)
            && s.outcome == Recorded
            && s.request == (if verdict == Reject then r.(decisions := r.decisions + [d], status := Rejected) else AfterApproval(stages, r, d))
            && (s.move == MoveToRejected <==> s.request.status == Rejected)
            && (s.move == MoveToApproved <==> s.request.status == Approved)
  {
  }

  lemma {:induction false} DecideKeepsLedger(stages: seq<Stage>, r: Request, user: int, verdict: Verdict, role: Option<Role>)
    requires |stages| >= 1 && LedgerOn(stages, r)
    ensures var s := DecideOn(stages, r, user, verdict, role);
            && LedgerOn(stages, s.request)
            && (s.move == MoveToApproved <==> r.status != Approved && s.request.status == Approved)
            && (s.move == MoveToRejected <==> r.status != Rejected && s.request.status == Rejected)
            && (s.outcome == Recorded <==> |s.request.decisions| == |r.decisions| + 1)
            && (s.outcome != Recorded ==> s.request == r)
  {
    if Refusal(stages, r, user, role).None? {
      var d := Decision(user, verdict, Some(r.currentStageIndex), stages[r.currentStageIndex].name);
      AcceptedDecisionIs(stages, r, user, verdict, role);
      if verdict == Reject {
        RejectKeepsLedger(stages, r, d);
      } else {
        ApproveKeepsLedger(stages, r, d);
      }
    }
  }

  /**
   * Who is recorded, and what: a user whose role the current stage's own list admits, on a pending
   * request that the user has not decided yet. Otherwise the answer names the first of the three
   * that fails and the request stays as it is.
   */
  lemma {:induction false} RecordedExactlyWhen(stages: seq<Stage>, r: Request, user: int, verdict: Verdict, role: Option<Role>)
    requires LedgerOn(stages, r)
    ensures var c := r.currentStageIndex;
            var s := DecideOn(stages, r, user, verdict, role);
            && (s.outcome == Recorded <==>
                  r.status == Pending && (forall d :: d in r.decisions ==> d.user != user) && Admits(stages[c].reviewerRoles, role))
            && (s.outcome == NotPending <==> r.status != Pending)
            && (s.outcome == DuplicateReviewer <==> r.status == Pending && exists d :: d in r.decisions && d.user == user)
            && s.request.decisions == (if s.outcome == Recorded then r.decisions + [Decision(user, verdict, Some(c), stages[c].name)]
                                       else r.decisions)
            && (s.outcome != Recorded ==> s.request == r && s.move == Stay)
  {
    MayReviewExactlyWhen(role, stages[r.currentStageIndex].reviewerRoles);
  }

  // ----- What the ledger says -----

  lemma {:induction false} ApprovalsAddUp(ds: seq<Decision>, n: nat)
    requires forall d :: d in ds ==> 0 <= StageOf(d) < n
    ensures ApprovalsBelow(ds, n) == ApprovedCount(ds)
  {
    if ds == [] {
      NoApprovals(n);
    } else {
      var last := ds[|ds| - 1];
      var rest := ds[..|ds| - 1];
      assert last in ds && ds == rest + [last];
      ApprovalsAddUp(rest, n);
      ApprovalsBelowAfter(rest, last, n);
    }
  }

  lemma {:induction false} NoApprovals(n: nat)
    ensures ApprovalsBelow([], n) == 0
  {
    if n > 0 {
      NoApprovals(n - 1);
    }
  }

  lemma {:induction false} ApprovalsBelowAfter(ds: seq<Decision>, d: Decision, n: nat)
    requires 0 <= StageOf(d)
    ensures ApprovalsBelow(ds + [d], n)
         == ApprovalsBelow(ds, n) + (if d.verdict == Approve && StageOf(d) < n then 1 else 0)
  {
    if n > 0 {
      ApprovalsBelowAfter(ds, d, n - 1);
      CountsAfter(ds, d, n - 1);
    }
  }

  lemma {:induction false} FilledSum(ds: seq<Decision>, stages: seq<Stage>, c: nat)
    requires c <= |stages|
    requires forall i :: 0 <= i < c ==> Approvals(ds, i) == stages[i].requiredCount
    ensures ApprovalsBelow(ds, c) == Total(stages[..c])
  {
    if c > 0 {
      FilledSum(ds, stages, c - 1);
      assert stages[..c] == stages[..c - 1] + [stages[c - 1]];
      TotalConcat(stages[..c - 1], [stages[c - 1]]);
    }
  }

  lemma {:induction false} TotalConcat(a: seq<Stage>, b: seq<Stage>)
    ensures Total(a + b) == Total(a) + Total(b)
  {
    if a == [] {
      assert a + b == b;
    } else {
      assert (a + b)[1..] == a[1..] + b;
      TotalConcat(a[1..], b);
    }
  }

  /** The stages after the current one still ask for at least one approval each. */
  lemma {:induction false} TotalAround(stages: seq<Stage>, c: nat)
    requires ValidChain(stages) && c < |stages|
    ensures Total(stages) >= Total(stages[..c]) + stages[c].requiredCount + (|stages| - c - 1)
    ensures c == |stages| - 1 ==> Total(stages) == Total(stages[..c]) + stages[c].requiredCount
  {
    var rest := stages[c + 1..];
    assert stages == stages[..c] + ([stages[c]] + rest);
    TotalConcat(stages[..c], [stages[c]] + rest);
    assert ([stages[c]] + rest)[1..] == rest;
    forall s | s in rest ensures s.requiredCount >= 1 {
      assert s in stages;
    }
    TotalIsPositive(rest);
  }

  lemma {:induction false} DecisionsAreApprovals(ds: seq<Decision>, lastRejected: bool)
    requires RejectionsAre(ds, lastRejected)
    ensures |ds| == ApprovedCount(ds) + (if lastRejected then 1 else 0)
  {
    if ds != [] {
      var rest := ds[..|ds| - 1];
      assert RejectionsAre(rest, false);
      DecisionsAreApprovals(rest, false);
    }
  }

  /**
   * The totals of the ledger: the count shown is the sum of the stages' approvals, it reaches
   * the required count exactly when the request is approved, and no more than the required
   * number of decisions is ever recorded.
   */
  lemma {:induction false} LedgerTotals(stages: seq<Stage>, r: Request)
    requires LedgerOn(stages, r)
    ensures r.currentCount == ApprovalsBelow(r.decisions, |stages|)
    ensures 0 <= r.currentCount <= r.requiredCount
    ensures r.status == Approved <==> r.currentCount == r.requiredCount
    ensures |r.decisions| == r.currentCount + (if r.status == Rejected then 1 else 0)
    ensures |r.decisions| <= r.requiredCount
  {
    var c := r.currentStageIndex;
    ApprovalsAddUp(r.decisions, c + 1);
    ApprovalsAddUp(r.decisions, |stages|);
    FilledSum(r.decisions, stages, c);
    TotalAround(stages, c);
    DecisionsAreApprovals(r.decisions, r.status == Rejected);
  }

  /** On an approved request every stage holds exactly the approvals it asks for. */
  lemma {:induction false} ApprovedIsFilled(stages: seq<Stage>, r: Request, i: nat)
    requires LedgerOn(stages, r) && r.status == Approved && i < |stages|
    ensures Approvals(r.decisions, i) == stages[i].requiredCount
  {
  }

  // ----- The stored row as a function of the decisions -----

  /** The first stage from `i` on that lacks approvals, or the last stage. */
  function OpenStage(ds: seq<Decision>, stages: seq<Stage>, i: nat): nat
    requires i < |stages|
    decreases |stages| - i
  {
    if i == |stages| - 1 || Approvals(ds, i) < stages[i].requiredCount then i else OpenStage(ds, stages, i + 1)
  }

  lemma {:induction false} OpenStageIs(ds: seq<Decision>, stages: seq<Stage>, i: nat, c: nat)
    requires i <= c < |stages|
    requires forall j :: i <= j < c ==> Approvals(ds, j) >= stages[j].requiredCount
    requires c == |stages| - 1 || Approvals(ds, c) < stages[c].requiredCount
    ensures OpenStage(ds, stages, i) == c
    decreases c - i
  {
    if i < c {
      OpenStageIs(ds, stages, i + 1, c);
    }
  }

  /**
   * The request row carries nothing of its own: its stage index, count and status can all be
   * recomputed from the recorded decisions and the stage chain.
   */
  lemma {:induction false} RowIsDerivedFromDecisions(stages: seq<Stage>, r: Request)
    requires LedgerOn(stages, r)
    ensures r.currentStageIndex == OpenStage(r.decisions, stages, 0)
    ensures r.currentCount == ApprovedCount(r.decisions)
    ensures r.status == if exists d :: d in r.decisions && d.verdict == Reject then Rejected
                        else if ApprovedCount(r.decisions) >= Total(stages) then Approved
                        else Pending
  {
    OpenStageIs(r.decisions, stages, 0, r.currentStageIndex);
    LedgerTotals(stages, r);
    if r.status == Rejected {
      assert r.decisions[|r.decisions| - 1] in r.decisions;
    }
  }

  // ----- The derived view -----

  datatype StageStatus = StagePending | StageActive | StageApproved | StageRejected

  datatype StageView = StageView(index: int, stage: Stage, currentCount: nat, status: StageStatus)

  function ViewStatus(requestStatus: RequestStatus, current: int, index: int, stage: Stage, ds: seq<Decision>): StageStatus {
    if HasRejection(ds, index) || (requestStatus == Rejected && index == current) then StageRejected
    else if Approvals(ds, index) >= stage.requiredCount then StageApproved
    else if requestStatus == Approved && index == current then StageApproved
    else if index == current then StageActive
    else if index < current then StageApproved
    else StagePending
  }

  function ViewOn(stages: seq<Stage>, r: Request): (v: seq<StageView>)
    requires |stages| >= 1
    ensures |v| == |stages|
    ensures forall i :: 0 <= i < |stages| ==>
      v[i] == StageView(i, stages[i], Approvals(r.decisions, i),
                        ViewStatus(r.status, ActiveIndex(stages, r), i, stages[i], r.decisions))
  {
    seq(|stages|, i requires 0 <= i < |stages| =>
      StageView(i, stages[i], Approvals(r.decisions, i),
                ViewStatus(r.status, ActiveIndex(stages, r), i, stages[i], r.decisions)))
  }

  function View(r: Request): seq<StageView> {
    ViewOn(Stages(r), r)
  }

  /**
   * What a stage shows for any stored row and decisions, those of overlapping reviews included: a
   * rejection of its own, or the request's while it is current; else approval when it is full, already
   * passed, or current on an approved request; else that it is active when it is current; else nothing yet.
   */
  lemma {:induction false} StageShowsExactlyWhen(stages: seq<Stage>, r: Request, i: nat)
    requires i < |stages|
    ensures var v, current := ViewOn(stages, r)[i], ActiveIndex(stages, r);
            var rejected := (exists d :: d in r.decisions && d.verdict == Reject && d.stageIndex.GetOr(0) == i) || (r.status == Rejected && i == current);
            var approved := Approvals(r.decisions, i) >= stages[i].requiredCount || i < current || (r.status == Approved && i == current);
            && v.index == i && v.stage == stages[i] && v.currentCount == Approvals(r.decisions, i)
            && (v.status == StageRejected <==> rejected)
            && (v.status == StageApproved <==> !rejected && approved)
            && (v.status == StageActive <==> !rejected && !approved && i == current)
            && (v.status == StagePending <==> !rejected && !approved && i != current)
  {
  }

  function CountsOf(v: seq<StageView>): nat {
    if v == [] then 0 else CountsOf(v[..|v| - 1]) + v[|v| - 1].currentCount
  }

  /** How the protocol's own state says a stage stands. */
  function ProtocolStatus(r: Request, i: int): StageStatus {
    if i < r.currentStageIndex then StageApproved
    else if i > r.currentStageIndex then StagePending
    else match r.status
      case Pending => StageActive
      case Approved => StageApproved
      case Rejected => StageRejected
  }

  lemma {:induction false} RejectionOnlyAtCurrentStage(stages: seq<Stage>, r: Request, i: int)
    requires LedgerOn(stages, r)
    ensures HasRejection(r.decisions, i) <==> r.status == Rejected && i == r.currentStageIndex
  {
    if HasRejection(r.decisions, i) {
      var d :| d in r.decisions && d.verdict == Reject && StageOf(d) == i;
      var k :| 0 <= k < |r.decisions| && r.decisions[k] == d;
    }
    if r.status == Rejected {
      assert r.decisions[|r.decisions| - 1] in r.decisions;
    }
  }

  /**
   * The view agrees with the protocol: approved stages up to the current one, the current one
   * showing the request's own state, pending stages after it; exactly one stage is active when
   * the request is pending and none otherwise; and the counts shown add up.
   */
  lemma {:induction false} ViewAgreesWithLedger(stages: seq<Stage>, r: Request)
    requires LedgerOn(stages, r)
    ensures forall i :: 0 <= i < |stages| ==> ViewOn(stages, r)[i].status == ProtocolStatus(r, i)
    ensures forall i :: 0 <= i < |stages| ==>
              (ViewOn(stages, r)[i].status == StageActive <==> r.status == Pending && i == r.currentStageIndex)
    ensures 0 <= r.currentStageIndex < |stages|
    ensures CountsOf(ViewOn(stages, r)) == r.currentCount
  {
    var v := ViewOn(stages, r);
    forall i | 0 <= i < |stages| ensures v[i].status == ProtocolStatus(r, i) {
      assert stages[i] in stages;
      RejectionOnlyAtCurrentStage(stages, r, i);
    }
    LedgerTotals(stages, r);
    ViewCounts(stages, r, |v|);
    assert v[..|v|] == v;
  }

  lemma {:induction false} ViewCounts(stages: seq<Stage>, r: Request, n: nat)
    requires 1 <= |stages| && n <= |stages|
    ensures CountsOf(ViewOn(stages, r)[..n]) == ApprovalsBelow(r.decisions, n)
  {
    if n > 0 {
      ViewCounts(stages, r, n - 1);
      assert ViewOn(stages, r)[..n][..n - 1] == ViewOn(stages, r)[..n - 1];
    }
  }

  // ----- Runs of decisions -----

  datatype Vote = Vote(user: int, verdict: Verdict, role: Option<Role>)

  /** Each decision reads the stages back from the row it finds. */
  function DecideAll(r: Request, votes: seq<Vote>): (s: Request)
    ensures Stages(s) == Stages(r) && s.requiredCount == r.requiredCount
  {
    if votes == [] then r
    else
      var v := votes[|votes| - 1];
      Decide(DecideAll(r, votes[..|votes| - 1]), v.user, v.verdict, v.role).request
  }

  function DecideAllOn(stages: seq<Stage>, r: Request, votes: seq<Vote>): (s: Request)
    requires |stages| >= 1
    ensures s.requiredCount == r.requiredCount
  {
    if votes == [] then r
    else
      var v := votes[|votes| - 1];
      DecideOn(stages, DecideAllOn(stages, r, votes[..|votes| - 1]), v.user, v.verdict, v.role).request
  }

  lemma {:induction false} StagesStayPut(r: Request, votes: seq<Vote>)
    ensures DecideAll(r, votes) == DecideAllOn(Stages(r), r, votes)
  {
    if votes != [] {
      StagesStayPut(r, votes[..|votes| - 1]);
    }
  }

  /** Whatever reviewers send in, in whatever order, the ledger stands. */
  lemma {:induction false} RunsKeepLedger(stages: seq<Stage>, r: Request, votes: seq<Vote>)
    requires LedgerOn(stages, r)
    ensures LedgerOn(stages, DecideAllOn(stages, r, votes))
  {
    if votes != [] {
      var v := votes[|votes| - 1];
      RunsKeepLedger(stages, r, votes[..|votes| - 1]);
      DecideKeepsLedger(stages, DecideAllOn(stages, r, votes[..|votes| - 1]), v.user, v.verdict, v.role);
    }
  }

  /**
   * Every request a submission can open, after any sequence of votes: the stored row is
   * the one the decisions imply, the totals agree, and the view shows the protocol's state.
   */
  lemma {:induction false} EveryRunIsConsistent(sub: Submission, votes: seq<Vote>)
    requires ParseSubmission(sub).Some?
    ensures var stages := NormalizeStages(ParseSubmission(sub).value);
            var r := DecideAll(OpenRequest(stages), votes);
            && Stages(r) == stages
            && r.requiredCount == Total(stages)
            && LedgerOn(stages, r)
            && |r.decisions| <= r.requiredCount
            && (r.status == Approved <==> r.currentCount == r.requiredCount)
            && r.currentStageIndex == OpenStage(r.decisions, stages, 0)
            && (forall i :: 0 <= i < |stages| ==> View(r)[i].status == ProtocolStatus(r, i))
            && CountsOf(View(r)) == r.currentCount
  {
    var stages := NormalizeStages(ParseSubmission(sub).value);
    var r := DecideAll(OpenRequest(stages), votes);
    NewRequestHasLedger(sub);
    StagesStayPut(OpenRequest(stages), votes);
    RunsKeepLedger(stages, OpenRequest(stages), votes);
    LedgerTotals(stages, r);
    RowIsDerivedFromDecisions(stages, r);
    ViewAgreesWithLedger(stages, r);
  }

  /** A decision is some vote's, at a stage whose own list admits the voter's role. */
  predicate CastBy(stages: seq<Stage>, d: Decision, v: Vote) {
    && v.user == d.user && v.verdict == d.verdict
    && d.stageIndex.Some? && 0 <= d.stageIndex.value < |stages|
    && d.stageName == stages[d.stageIndex.value].name
    && Admits(stages[d.stageIndex.value].reviewerRoles, v.role)
  }

  predicate WasCast(stages: seq<Stage>, d: Decision, votes: seq<Vote>) {
    exists k :: 0 <= k < |votes| && CastBy(stages, d, votes[k])
  }

  lemma {:induction false} VotesWereCast(stages: seq<Stage>, r: Request, votes: seq<Vote>)
    requires LedgerOn(stages, r) && r.decisions == []
    ensures forall d :: d in DecideAllOn(stages, r, votes).decisions ==> WasCast(stages, d, votes)
  {
    if votes != [] {
      var before, v := votes[..|votes| - 1], votes[|votes| - 1];
      var s := DecideAllOn(stages, r, before);
      VotesWereCast(stages, r, before);
      RunsKeepLedger(stages, r, before);
      RecordedExactlyWhen(stages, s, v.user, v.verdict, v.role);
      forall d | d in DecideAllOn(stages, r, votes).decisions ensures WasCast(stages, d, votes) {
        if d in s.decisions {
          var k :| 0 <= k < |before| && CastBy(stages, d, before[k]);
          assert CastBy(stages, d, votes[k]);
        } else {
          assert CastBy(stages, d, votes[|votes| - 1]);
        }
      }
    }
  }

  /**
   * Whatever reviewers send in, every recorded decision is the verdict of a user whose role may
   * review that decision's own stage.
   */
  lemma {:induction false} EveryDecisionWasAdmitted(sub: Submission, votes: seq<Vote>)
    requires ParseSubmission(sub).Some?
    ensures var stages := NormalizeStages(ParseSubmission(sub).value);
            forall d :: d in DecideAll(OpenRequest(stages), votes).decisions ==> WasCast(stages, d, votes)
  {
    var stages := NormalizeStages(ParseSubmission(sub).value);
    NewRequestHasLedger(sub);
    StagesStayPut(OpenRequest(stages), votes);
    VotesWereCast(stages, OpenRequest(stages), votes);
  }

  /** Votes of pairwise different owners, all in favour. */
  predicate OwnersInFavour(votes: seq<Vote>) {
    && (forall k :: 0 <= k < |votes| ==> votes[k].verdict == Approve && votes[k].role == Some(Owner))
    && (forall i, j :: 0 <= i < j < |votes| ==> votes[i].user != votes[j].user)
  }

  predicate CameFrom(ds: seq<Decision>, votes: seq<Vote>) {
    forall d :: d in ds ==> exists k :: 0 <= k < |votes| && votes[k].user == d.user
  }

  lemma {:induction false} CameFromExtends(ds: seq<Decision>, before: seq<Vote>, d: Decision, v: Vote)
    requires CameFrom(ds, before) && d.user == v.user
    ensures CameFrom(ds, before + [v]) && CameFrom(ds + [d], before + [v])
  {
    forall e | e in ds ensures exists k :: 0 <= k < |before + [v]| && (before + [v])[k].user == e.user {
      var k :| 0 <= k < |before| && before[k].user == e.user;
      assert (before + [v])[k].user == e.user;
    }
    assert (before + [v])[|before|].user == d.user;
  }

  lemma {:induction false} FreshUserHasNotDecided(ds: seq<Decision>, votes: seq<Vote>)
    requires OwnersInFavour(votes) && votes != []
    requires CameFrom(ds, votes[..|votes| - 1])
    ensures !HasDecided(ds, votes[|votes| - 1].user)
  {
    var before := votes[..|votes| - 1];
    forall d | d in ds ensures d.user != votes[|votes| - 1].user {
      var k :| 0 <= k < |before| && before[k].user == d.user;
      assert votes[k].user == d.user;
    }
  }

  /** One more owner in favour is recorded as long as approvals are missing. */
  lemma {:induction false} OwnerIsRecorded(stages: seq<Stage>, r: Request, user: int)
    requires LedgerOn(stages, r) && r.status == Pending && !HasDecided(r.decisions, user)
    ensures var s := DecideOn(stages, r, user, Approve, Some(Owner)).request;
            && LedgerOn(stages, s) && s.status != Rejected
            && s.currentCount == r.currentCount + 1
            && |s.decisions| == |r.decisions| + 1
            && s.decisions == r.decisions + [s.decisions[|r.decisions|]]
            && s.decisions[|r.decisions|].user == user
  {
    DecideKeepsLedger(stages, r, user, Approve, Some(Owner));
  }

  predicate Carried(stages: seq<Stage>, r: Request, votes: seq<Vote>) {
    LedgerOn(stages, r) && r.currentCount == |votes| && r.status != Rejected && CameFrom(r.decisions, votes)
  }

  lemma {:induction false} CarriedOn(stages: seq<Stage>, r: Request, s: Request, before: seq<Vote>, v: Vote)
    requires Carried(stages, r, before) && LedgerOn(stages, s) && s.status != Rejected
    requires s.currentCount == r.currentCount + 1
    requires |s.decisions| == |r.decisions| + 1 && s.decisions == r.decisions + [s.decisions[|r.decisions|]]
    requires s.decisions[|r.decisions|].user == v.user
    ensures Carried(stages, s, before + [v])
  {
    CameFromExtends(r.decisions, before, s.decisions[|r.decisions|], v);
  }

  lemma {:induction false} OwnersCarryOn(stages: seq<Stage>, r: Request, votes: seq<Vote>)
    requires votes != [] && OwnersInFavour(votes)
    requires Carried(stages, r, votes[..|votes| - 1]) && |votes| <= r.requiredCount
    ensures Carried(stages, DecideOn(stages, r, votes[|votes| - 1].user, Approve, Some(Owner)).request, votes)
  {
    var before, v := votes[..|votes| - 1], votes[|votes| - 1];
    LedgerTotals(stages, r);
    FreshUserHasNotDecided(r.decisions, votes);
    OwnerIsRecorded(stages, r, v.user);
    var s := DecideOn(stages, r, v.user, Approve, Some(Owner)).request;
    CarriedOn(stages, r, s, before, v);
    assert votes == before + [v];
  }

  lemma {:induction false} OwnersCarry(stages: seq<Stage>, r: Request, votes: seq<Vote>)
    requires LedgerOn(stages, r) && r.status == Pending && r.decisions == []
    requires OwnersInFavour(votes) && |votes| <= r.requiredCount
    ensures Carried(stages, DecideAllOn(stages, r, votes), votes)
  {
    if votes != [] {
      var before := votes[..|votes| - 1];
      OwnersCarry(stages, r, before);
      assert votes[|votes| - 1].verdict == Approve && votes[|votes| - 1].role == Some(Owner);
      OwnersCarryOn(stages, DecideAllOn(stages, r, before), votes);
    }
  }

  /**
   * A chain can always be completed: as many owners in favour as approvals are required, and
   * not one fewer, carry the request to approval.
   */
  lemma {:induction false} OwnersCarryTheRequest(sub: Submission, votes: seq<Vote>)
    requires ParseSubmission(sub).Some?
    requires OwnersInFavour(votes)
    requires |votes| <= Total(NormalizeStages(ParseSubmission(sub).value))
    ensures var stages := NormalizeStages(ParseSubmission(sub).value);
            DecideAll(OpenRequest(stages), votes).status == if |votes| == Total(stages) then Approved else Pending
  {
    var stages := NormalizeStages(ParseSubmission(sub).value);
    NewRequestHasLedger(sub);
    StagesStayPut(OpenRequest(stages), votes);
    OwnersCarry(stages, OpenRequest(stages), votes);
    LedgerTotals(stages, DecideAllOn(stages, OpenRequest(stages), votes));
  }
}
