/** The policy engine: one policy's first-match evaluation and the aggregate over all of them. */
module PolicyEngine {
  import opened Prelude

  datatype Verdict = Allow | RequireApproval | Deny

  function Severity(v: Verdict): nat {
    match v
    case Allow => 0
    case RequireApproval => 1
    case Deny => 2
  }

  datatype Rules = Rules(
    maxAmount: Option<real>,
    amountField: Option<string>,
    allowedActions: Option<seq<string>>,
    blockedActions: Option<seq<string>>,
    allowedConnectors: Option<seq<string>>,
    blockedConnectors: Option<seq<string>>,
    allowedEnvironments: Option<seq<string>>,
    blockedEnvironments: Option<seq<string>>,
    requiredRoles: Option<seq<string>>,
    requireApprovalAbove: Option<real>)

  const NO_RULES := Rules(None, None, None, None, None, None, None, None, None, None)

  datatype Policy = Policy(id: int, name: string, priority: int, enabled: bool, rules: Rules)

  /** `numbers` holds the parameters that convert to a number; the others convert to NaN. */
  datatype Intent = Intent(action: string, environment: string, numbers: map<string, real>)

  datatype Context = Context(userRole: Option<string>, connectorType: Option<string>)

  /** Which check decided, standing for the text the engine writes. */
  datatype Reason =
    | AmountExceedsMaximum
    | AmountExceedsApprovalThreshold
    | ActionBlocked
    | ActionNotAllowed
    | ConnectorBlocked
    | ConnectorNotAllowed
    | EnvironmentBlocked
    | EnvironmentNotAllowed
    | RoleMissing
    | AllChecksPassed

  datatype Decision = Decision(policyId: int, policyName: string, verdict: Verdict, reason: Reason)

  // ----- One policy -----

  predicate Includes(list: Option<seq<string>>, x: string) {
    list.Some? && x in list.value
  }

  predicate Excludes(list: Option<seq<string>>, x: string) {
    list.Some? && x !in list.value
  }

  predicate Exceeds(intent: Intent, field: Option<string>, limit: Option<real>) {
    var f := field.GetOr("amount");
    limit.Some? && f in intent.numbers && intent.numbers[f] > limit.value
  }

  /** A context string counts only when it is present and not empty. */
  predicate Given(s: Option<string>) {
    s.Some? && s.value != ""
  }

  function EvaluatePolicy(policy: Policy, intent: Intent, context: Context): Decision {
    var rules := policy.rules;
    if Exceeds(intent, rules.amountField, rules.maxAmount) then
      Decision(policy.id, policy.name, Deny, AmountExceedsMaximum)
    else if Exceeds(intent, rules.amountField, rules.requireApprovalAbove) then
      Decision(policy.id, policy.name, RequireApproval, AmountExceedsApprovalThreshold)
    else if Includes(rules.blockedActions, intent.action) then
      Decision(policy.id, policy.name, Deny, ActionBlocked)
    else if Excludes(rules.allowedActions, intent.action) then
      Decision(policy.id, policy.name, Deny, ActionNotAllowed)
    else if Given(context.connectorType) && Includes(rules.blockedConnectors, context.connectorType.value) then
      Decision(policy.id, policy.name, Deny, ConnectorBlocked)
    else if Given(context.connectorType) && Excludes(rules.allowedConnectors, context.connectorType.value) then
      Decision(policy.id, policy.name, Deny, ConnectorNotAllowed)
    else if Includes(rules.blockedEnvironments, intent.environment) then
      Decision(policy.id, policy.name, Deny, EnvironmentBlocked)
    else if Excludes(rules.allowedEnvironments, intent.environment) then
      Decision(policy.id, policy.name, Deny, EnvironmentNotAllowed)
    else if Given(context.userRole) && Excludes(rules.requiredRoles, context.userRole.value) then
      Decision(policy.id, policy.name, Deny, RoleMissing)
    else
      Decision(policy.id, policy.name, Allow, AllChecksPassed)
  }

  // ----- What the rules of a policy say -----

  /**
   * A policy allows an intent exactly when every rule present is met: the amount, where it is a
   * number, is at most both limits; action and environment are on no block list and on every allow
   * list; and so are the connector and the role, where they are known.
   */
  lemma {:induction false} AllowedExactlyWhen(p: Policy, intent: Intent, context: Context)
    ensures var r := p.rules;
            var field := if r.amountField.Some? then r.amountField.value else "amount";
            EvaluatePolicy(p, intent, context).verdict == Allow <==>
              && (field in intent.numbers && r.maxAmount.Some? ==> intent.numbers[field] <= r.maxAmount.value)
              && (field in intent.numbers && r.requireApprovalAbove.Some? ==> intent.numbers[field] <= r.requireApprovalAbove.value)
              && (r.blockedActions.Some? ==> intent.action !in r.blockedActions.value)
              && (r.allowedActions.Some? ==> intent.action in r.allowedActions.value)
              && (r.blockedEnvironments.Some? ==> intent.environment !in r.blockedEnvironments.value)
              && (r.allowedEnvironments.Some? ==> intent.environment in r.allowedEnvironments.value)
              && (context.connectorType.Some? && context.connectorType.value != "" ==>
                    && (r.blockedConnectors.Some? ==> context.connectorType.value !in r.blockedConnectors.value)
                    && (r.allowedConnectors.Some? ==> context.connectorType.value in r.allowedConnectors.value))
              && (context.userRole.Some? && context.userRole.value != "" ==>
                    (r.requiredRoles.Some? ==> context.userRole.value in r.requiredRoles.value))
  {
  }

  /** It sends the intent for approval exactly when the amount is above the threshold and not above the maximum. */
  lemma {:induction false} SentForApprovalExactlyWhen(p: Policy, intent: Intent, context: Context)
    ensures var r := p.rules;
            var field := if r.amountField.Some? then r.amountField.value else "amount";
            EvaluatePolicy(p, intent, context).verdict == RequireApproval <==>
              && field in intent.numbers
              && r.requireApprovalAbove.Some? && intent.numbers[field] > r.requireApprovalAbove.value
              && (r.maxAmount.Some? ==> intent.numbers[field] <= r.maxAmount.value)
  {
  }

  /**
   * And it denies exactly when the amount is above the maximum, or not above the threshold while some
   * list is violated.
   */
  lemma {:induction false} DeniedExactlyWhen(p: Policy, intent: Intent, context: Context)
    ensures var r := p.rules;
            var field := if r.amountField.Some? then r.amountField.value else "amount";
            EvaluatePolicy(p, intent, context).verdict == Deny <==>
              || (field in intent.numbers && r.maxAmount.Some? && intent.numbers[field] > r.maxAmount.value)
              || (&& !(field in intent.numbers && r.requireApprovalAbove.Some? && intent.numbers[field] > r.requireApprovalAbove.value)
                  && (|| (r.blockedActions.Some? && intent.action in r.blockedActions.value)
                      || (r.allowedActions.Some? && intent.action !in r.allowedActions.value)
                      || (r.blockedEnvironments.Some? && intent.environment in r.blockedEnvironments.value)
                      || (r.allowedEnvironments.Some? && intent.environment !in r.allowedEnvironments.value)
                      || (&& context.connectorType.Some? && context.connectorType.value != ""
                          && (|| (r.blockedConnectors.Some? && context.connectorType.value in r.blockedConnectors.value)
                              || (r.allowedConnectors.Some? && context.connectorType.value !in r.allowedConnectors.value)))
                      || (&& context.userRole.Some? && context.userRole.value != ""
                          && r.requiredRoles.Some? && context.userRole.value !in r.requiredRoles.value)))
  {
    AllowedExactlyWhen(p, intent, context);
    SentForApprovalExactlyWhen(p, intent, context);
  }

  // ----- Splitting a policy into one-rule policies -----

  /** The part of a rule set that is the `i`-th of its nine rules, in the order the engine looks at them. */
  function SplitRule(r: Rules, i: nat): Rules
    requires i < 9
  {
    match i
    case 0 => NO_RULES.(amountField := r.amountField, maxAmount := r.maxAmount)
    case 1 => NO_RULES.(amountField := r.amountField, requireApprovalAbove := r.requireApprovalAbove)
    case 2 => NO_RULES.(blockedActions := r.blockedActions)
    case 3 => NO_RULES.(allowedActions := r.allowedActions)
    case 4 => NO_RULES.(blockedConnectors := r.blockedConnectors)
    case 5 => NO_RULES.(allowedConnectors := r.allowedConnectors)
    case 6 => NO_RULES.(blockedEnvironments := r.blockedEnvironments)
    case 7 => NO_RULES.(allowedEnvironments := r.allowedEnvironments)
    case 8 => NO_RULES.(requiredRoles := r.requiredRoles)
  }

  function SplitPolicy(p: Policy): seq<Policy> {
    seq(9, i requires 0 <= i < 9 => p.(rules := SplitRule(p.rules, i)))
  }

  function SplitVerdict(p: Policy, i: nat, intent: Intent, context: Context): Verdict
    requires i < 9
  {
    EvaluatePolicy(p.(rules := SplitRule(p.rules, i)), intent, context).verdict
  }

  /** Whether the `i`-th rule objects to the intent. */
  predicate Objects(r: Rules, i: nat, intent: Intent, context: Context)
    requires i < 9
  {
    match i
    case 0 => Exceeds(intent, r.amountField, r.maxAmount)
    case 1 => Exceeds(intent, r.amountField, r.requireApprovalAbove)
    case 2 => Includes(r.blockedActions, intent.action)
    case 3 => Excludes(r.allowedActions, intent.action)
    case 4 => Given(context.connectorType) && Includes(r.blockedConnectors, context.connectorType.value)
    case 5 => Given(context.connectorType) && Excludes(r.allowedConnectors, context.connectorType.value)
    case 6 => Includes(r.blockedEnvironments, intent.environment)
    case 7 => Excludes(r.allowedEnvironments, intent.environment)
    case 8 => Given(context.userRole) && Excludes(r.requiredRoles, context.userRole.value)
  }

  lemma {:induction false} SplitVerdictIs(p: Policy, i: nat, intent: Intent, context: Context)
    requires i < 9
    ensures SplitVerdict(p, i, intent, context)
         == if !Objects(p.rules, i, intent, context) then Allow else if i == 1 then RequireApproval else Deny
  {
    match i {
      case 0 => case 1 => case 2 => case 3 => case 4 => case 5 => case 6 => case 7 => case 8 =>
    }
  }

  /** The reason that stands for each of the nine rules, and for none of them. */
  const REASONS := [AmountExceedsMaximum, AmountExceedsApprovalThreshold, ActionBlocked, ActionNotAllowed, ConnectorBlocked,
                    ConnectorNotAllowed, EnvironmentBlocked, EnvironmentNotAllowed, RoleMissing, AllChecksPassed]

  /** `v` is the greatest severity that `policies` reach when each is evaluated, `Allow` when there are none. */
  ghost predicate IsMostRestrictive(v: Verdict, policies: seq<Policy>, intent: Intent, context: Context) {
    && (forall p :: p in policies ==> Severity(EvaluatePolicy(p, intent, context).verdict) <= Severity(v))
    && (v == Allow || exists p :: p in policies && EvaluatePolicy(p, intent, context).verdict == v)
  }

  /** The first of the nine rules from `i` on that objects, or nine when none does. */
  function FirstObjection(r: Rules, i: nat, intent: Intent, context: Context): (k: nat)
    requires i <= 9
    ensures i <= k <= 9
    ensures forall j :: i <= j < k ==> !Objects(r, j, intent, context)
    ensures k < 9 ==> Objects(r, k, intent, context)
    decreases 9 - i
  {
    if i == 9 || Objects(r, i, intent, context) then i else FirstObjection(r, i + 1, intent, context)
  }

  /**
   * A policy's own verdict is that of the first of its nine one-rule policies that objects,
   * whatever the later ones say; it allows exactly when they all allow.
   */
  lemma {:induction false} EvaluationIsFirstMatch(p: Policy, intent: Intent, context: Context)
    ensures var k := FirstObjection(p.rules, 0, intent, context);
            && EvaluatePolicy(p, intent, context).verdict
               == (if k == 9 then Allow else SplitVerdict(p, k, intent, context))
            && (forall j :: 0 <= j < k ==> SplitVerdict(p, j, intent, context) == Allow)
    ensures var d := EvaluatePolicy(p, intent, context);
            && d.reason == REASONS[FirstObjection(p.rules, 0, intent, context)]
            && d.policyId == p.id && d.policyName == p.name
  {
    var k := FirstObjection(p.rules, 0, intent, context);
    forall j | 0 <= j < 9
      ensures SplitVerdict(p, j, intent, context)
           == if !Objects(p.rules, j, intent, context) then Allow else if j == 1 then RequireApproval else Deny
    {
      SplitVerdictIs(p, j, intent, context);
    }
    VerdictOfFirstObjection(p, intent, context);
    NamesItsPolicy(p, intent, context);
  }

  lemma {:induction false} NamesItsPolicy(p: Policy, intent: Intent, context: Context)
    ensures var d := EvaluatePolicy(p, intent, context);
            d.policyId == p.id && d.policyName == p.name
  {
  }

  lemma {:induction false} VerdictOfFirstObjection(p: Policy, intent: Intent, context: Context)
    ensures var k := FirstObjection(p.rules, 0, intent, context);
            && EvaluatePolicy(p, intent, context).verdict == (if k == 9 then Allow else if k == 1 then RequireApproval else Deny)
            && EvaluatePolicy(p, intent, context).reason == REASONS[k]
  {
    var k := FirstObjection(p.rules, 0, intent, context);
    var o0 := Objects(p.rules, 0, intent, context);
    var o1 := Objects(p.rules, 1, intent, context);
    var o2 := Objects(p.rules, 2, intent, context);
    var o3 := Objects(p.rules, 3, intent, context);
    var o4 := Objects(p.rules, 4, intent, context);
    var o5 := Objects(p.rules, 5, intent, context);
    var o6 := Objects(p.rules, 6, intent, context);
    var o7 := Objects(p.rules, 7, intent, context);
    var o8 := Objects(p.rules, 8, intent, context);
  }

  lemma {:induction false} SplitBounds(p: Policy, intent: Intent, context: Context, v: Verdict, i: nat)
    requires IsMostRestrictive(v, SplitPolicy(p), intent, context) && i < 9 && Objects(p.rules, i, intent, context)
    ensures Severity(if i == 1 then RequireApproval else Deny) <= Severity(v)
  {
    assert SplitPolicy(p)[i] in SplitPolicy(p);
    SplitVerdictIs(p, i, intent, context);
  }

  lemma {:induction false} SplitAttains(p: Policy, intent: Intent, context: Context, v: Verdict) returns (i: nat)
    requires IsMostRestrictive(v, SplitPolicy(p), intent, context) && v != Allow
    ensures i < 9 && Objects(p.rules, i, intent, context) && v == (if i == 1 then RequireApproval else Deny)
  {
    var q :| q in SplitPolicy(p) && EvaluatePolicy(q, intent, context).verdict == v;
    i :| 0 <= i < 9 && SplitPolicy(p)[i] == q;
    SplitVerdictIs(p, i, intent, context);
  }

  /**
   * Splitting a policy into its one-rule policies never relaxes the verdict, and tightens it
   * exactly when the amount only asked for approval while a later rule of the same policy denies.
   */
  lemma {:induction false} SplittingNeverRelaxes(p: Policy, intent: Intent, context: Context, v: Verdict)
    requires IsMostRestrictive(v, SplitPolicy(p), intent, context)
    ensures Severity(EvaluatePolicy(p, intent, context).verdict) <= Severity(v)
    ensures v != EvaluatePolicy(p, intent, context).verdict <==>
            && Objects(p.rules, 1, intent, context) && !Objects(p.rules, 0, intent, context)
            && exists i :: 2 <= i < 9 && Objects(p.rules, i, intent, context)
  {
    VerdictOfFirstObjection(p, intent, context);
    forall i | 0 <= i < 9 && Objects(p.rules, i, intent, context)
      ensures Severity(if i == 1 then RequireApproval else Deny) <= Severity(v)
    {
      SplitBounds(p, intent, context, v, i);
    }
    if v != Allow {
      var i := SplitAttains(p, intent, context, v);
    }
  }

  /** The same intent asking for another amount under the policy's amount field. */
  function WithAmount(intent: Intent, r: Rules, amount: real): Intent {
    intent.(numbers := intent.numbers[r.amountField.GetOr("amount") := amount])
  }

  /**
   * Raising the amount relaxes a policy's verdict exactly when it crosses the approval threshold,
   * stays within the hard maximum, and hides a later rule that denies.
   */
  lemma {:induction false} RaisingTheAmountRelaxes(p: Policy, intent: Intent, context: Context, low: real, high: real)
    requires low <= high
    ensures var a := WithAmount(intent, p.rules, low);
            var b := WithAmount(intent, p.rules, high);
            Severity(EvaluatePolicy(p, b, context).verdict) < Severity(EvaluatePolicy(p, a, context).verdict)
            <==>
            && Objects(p.rules, 1, b, context) && !Objects(p.rules, 0, b, context)
            && !Objects(p.rules, 1, a, context)
            && exists i :: 2 <= i < 9 && Objects(p.rules, i, intent, context)
  {
    var a := WithAmount(intent, p.rules, low);
    var b := WithAmount(intent, p.rules, high);
    VerdictOfFirstObjection(p, a, context);
    VerdictOfFirstObjection(p, b, context);
    forall i | 2 <= i < 9
      ensures Objects(p.rules, i, a, context) == Objects(p.rules, i, intent, context) == Objects(p.rules, i, b, context)
    {
    }
    var k := FirstObjection(p.rules, 0, a, context);
    assert 2 <= k < 9 ==> Objects(p.rules, k, intent, context);
  }

  /** A blocked action passes the policy for review once its amount is large enough. */
  lemma {:induction false} AmountHidesADenial()
    ensures exists p: Policy, intent: Intent, context: Context, low: real, high: real ::
              && low < high
              && EvaluatePolicy(p, WithAmount(intent, p.rules, low), context).verdict == Deny
              && EvaluatePolicy(p, WithAmount(intent, p.rules, high), context).verdict == RequireApproval
  {
    var p := Policy(0, "payments", 0, true, NO_RULES.(requireApprovalAbove := Some(10.0), blockedActions := Some(["payout"])));
    var intent, context := Intent("payout", "production", map[]), Context(None, None);
    assert "payout" in ["payout"];
    assert EvaluatePolicy(p, WithAmount(intent, p.rules, 5.0), context).verdict == Deny;
    assert EvaluatePolicy(p, WithAmount(intent, p.rules, 20.0), context).verdict == RequireApproval;
  }

  // ----- Stable sort by descending priority -----

  function InsertByPriority(p: Policy, s: seq<Policy>): seq<Policy> {
    if s == [] || s[0].priority <= p.priority then [p] + s
    else [s[0]] + InsertByPriority(p, s[1..])
  }

  function SortByPriority(s: seq<Policy>): seq<Policy> {
    if s == [] then [] else InsertByPriority(s[0], SortByPriority(s[1..]))
  }

  predicate Descending(s: seq<Policy>) {
    forall i, j :: 0 <= i < j < |s| ==> s[i].priority >= s[j].priority
  }

  /** The policies of one priority, in the order they come. */
  function WithPriority(s: seq<Policy>, k: int): seq<Policy> {
    if s == [] then []
    else (if s[0].priority == k then [s[0]] else []) + WithPriority(s[1..], k)
  }

  lemma {:induction false} WithPriorityMembers(s: seq<Policy>, k: int, p: Policy)
    ensures p in WithPriority(s, k) <==> p in s && p.priority == k
  {
    if s != [] {
      WithPriorityMembers(s[1..], k, p);
      assert p in s <==> p == s[0] || p in s[1..];
    }
  }

  lemma {:induction false} PrependToPriority(p: Policy, s: seq<Policy>, k: int)
    ensures WithPriority([p] + s, k) == (if p.priority == k then [p] else []) + WithPriority(s, k)
  {
    assert ([p] + s)[1..] == s;
  }

  lemma {:induction false} InsertKeepsMembers(p: Policy, s: seq<Policy>)
    ensures multiset(InsertByPriority(p, s)) == multiset(s) + multiset{p}
  {
    if s == [] || s[0].priority <= p.priority {
    } else {
      InsertKeepsMembers(p, s[1..]);
      assert s == [s[0]] + s[1..];
    }
  }

  lemma {:induction false} InsertKeepsOrder(p: Policy, s: seq<Policy>)
    requires Descending(s)
    ensures Descending(InsertByPriority(p, s))
  {
    if s == [] || s[0].priority <= p.priority {
    } else {
      InsertKeepsOrder(p, s[1..]);
      InsertKeepsMembers(p, s[1..]);
      var rest := InsertByPriority(p, s[1..]);
      forall j | 0 <= j < |rest| ensures s[0].priority >= rest[j].priority {
        assert rest[j] in multiset(rest);
        assert rest[j] in s[1..] || rest[j] == p;
      }
    }
  }

  lemma {:induction false} InsertIsStable(p: Policy, s: seq<Policy>, k: int)
    requires Descending(s)
    ensures WithPriority(InsertByPriority(p, s), k) == (if p.priority == k then [p] else []) + WithPriority(s, k)
  {
    if s == [] || s[0].priority <= p.priority {
      PrependToPriority(p, s, k);
    } else {
      InsertIsStable(p, s[1..], k);
      PrependToPriority(s[0], InsertByPriority(p, s[1..]), k);
      PrependToPriority(s[0], s[1..], k);
      assert s == [s[0]] + s[1..];
    }
  }

  /**
   * The sort's result is in descending priority, holds the same policies as often, and keeps
   * policies of equal priority in the order they came.
   */
  lemma {:induction false} SortIsStablePermutation(s: seq<Policy>)
    ensures Descending(SortByPriority(s))
    ensures multiset(SortByPriority(s)) == multiset(s)
    ensures forall k :: WithPriority(SortByPriority(s), k) == WithPriority(s, k)
  {
    if s != [] {
      SortIsStablePermutation(s[1..]);
      assert s == [s[0]] + s[1..];
      InsertKeepsOrder(s[0], SortByPriority(s[1..]));
      InsertKeepsMembers(s[0], SortByPriority(s[1..]));
      forall k ensures WithPriority(SortByPriority(s), k) == WithPriority(s, k) {
        InsertIsStable(s[0], SortByPriority(s[1..]), k);
      }
    }
  }

  lemma {:induction false} SamePrioritiesSameMembers(a: seq<Policy>, b: seq<Policy>)
    requires forall k :: WithPriority(a, k) == WithPriority(b, k)
    ensures forall p :: p in a <==> p in b
  {
    forall p ensures p in a <==> p in b {
      WithPriorityMembers(a, p.priority, p);
      WithPriorityMembers(b, p.priority, p);
    }
  }

  lemma {:induction false} HeadOfPriority(s: seq<Policy>, j: int)
    requires s != []
    ensures WithPriority(s, j)
         == if s[0].priority == j then [s[0]] + WithPriority(s[1..], j) else WithPriority(s[1..], j)
  {
  }

  /** Descending priority and the order inside each priority leave no freedom. */
  lemma {:induction false} StableOrderIsUnique(a: seq<Policy>, b: seq<Policy>)
    requires Descending(a) && Descending(b)
    requires forall k :: WithPriority(a, k) == WithPriority(b, k)
    ensures a == b
  {
    SamePrioritiesSameMembers(a, b);
    if b != [] {
      assert b[0] in a;
    }
    if a != [] {
      assert a[0] in b;
      HeadOfPriority(a, a[0].priority);
      HeadOfPriority(b, a[0].priority);
      assert WithPriority(a, a[0].priority)[0] == WithPriority(b, a[0].priority)[0];
      forall j ensures WithPriority(a[1..], j) == WithPriority(b[1..], j) {
        HeadOfPriority(a, j);
        HeadOfPriority(b, j);
        if a[0].priority == j {
          assert WithPriority(a, j)[1..] == WithPriority(b, j)[1..];
        }
      }
      StableOrderIsUnique(a[1..], b[1..]);
      assert a == [a[0]] + a[1..] && b == [b[0]] + b[1..];
    }
  }

  // ----- The aggregate -----

  function EnabledOnly(policies: seq<Policy>): (r: seq<Policy>)
    ensures forall p :: p in r <==> p in policies && p.enabled
  {
    if policies == [] then []
    else (if policies[0].enabled then [policies[0]] else []) + EnabledOnly(policies[1..])
  }

  function Evaluations(policies: seq<Policy>, intent: Intent, context: Context): (ds: seq<Decision>)
    ensures |ds| == |policies|
    ensures forall i :: 0 <= i < |ds| ==> ds[i] == EvaluatePolicy(policies[i], intent, context)
  {
    seq(|policies|, i requires 0 <= i < |policies| => EvaluatePolicy(policies[i], intent, context))
  }

  function Decisions(policies: seq<Policy>, intent: Intent, context: Context): seq<Decision> {
    Evaluations(SortByPriority(EnabledOnly(policies)), intent, context)
  }

  /** The most restrictive verdict among the enabled policies, by membership alone. */
  function Aggregate(policies: seq<Policy>, intent: Intent, context: Context): (v: Verdict)
    ensures IsMostRestrictive(v, EnabledOnly(policies), intent, context)
  {
    if exists p :: p in policies && p.enabled && EvaluatePolicy(p, intent, context).verdict == Deny then Deny
    else if exists p :: p in policies && p.enabled && EvaluatePolicy(p, intent, context).verdict == RequireApproval
    then RequireApproval
    else Allow
  }

  method EvaluatePolicies(policies: seq<Policy>, intent: Intent, context: Context)
    returns (overall: Verdict, decisions: seq<Decision>)
    ensures decisions == Decisions(policies, intent, context)
    ensures overall == Aggregate(policies, intent, context)
  {
    decisions := Evaluations(SortByPriority(EnabledOnly(policies)), intent, context);
    overall := Allow;
    var i := 0;
    while i < |decisions|
      invariant 0 <= i <= |decisions|
      invariant overall != Deny
      invariant forall j :: 0 <= j < i ==> Severity(decisions[j].verdict) <= Severity(overall)
      invariant overall == Allow || exists j :: 0 <= j < i && decisions[j].verdict == overall
    {
      if decisions[i].verdict == Deny {
        overall := Deny;
        break;
      }
      if decisions[i].verdict == RequireApproval {
        overall := RequireApproval;
      }
      i := i + 1;
    }
    AggregateFromDecisions(policies, intent, context, overall, i);
  }

  lemma {:induction false} PolicyIsDecided(policies: seq<Policy>, intent: Intent, context: Context, p: Policy) returns (j: nat)
    requires p in EnabledOnly(policies)
    ensures j < |Decisions(policies, intent, context)|
    ensures Decisions(policies, intent, context)[j] == EvaluatePolicy(p, intent, context)
  {
    var sorted := SortByPriority(EnabledOnly(policies));
    SortIsStablePermutation(EnabledOnly(policies));
    assert p in multiset(sorted);
    j :| 0 <= j < |sorted| && sorted[j] == p;
  }

  lemma {:induction false} DecisionHasPolicy(policies: seq<Policy>, intent: Intent, context: Context, j: nat) returns (p: Policy)
    requires j < |Decisions(policies, intent, context)|
    ensures p in EnabledOnly(policies)
    ensures Decisions(policies, intent, context)[j] == EvaluatePolicy(p, intent, context)
  {
    var sorted := SortByPriority(EnabledOnly(policies));
    SortIsStablePermutation(EnabledOnly(policies));
    p := sorted[j];
    assert p in multiset(sorted);
  }

  lemma {:induction false} MostRestrictiveIsUnique(v: Verdict, w: Verdict, policies: seq<Policy>, intent: Intent, context: Context)
    requires IsMostRestrictive(v, policies, intent, context) && IsMostRestrictive(w, policies, intent, context)
    ensures v == w
  {
  }

  lemma {:induction false} AggregateFromDecisions(policies: seq<Policy>, intent: Intent, context: Context, v: Verdict, i: nat)
    requires i <= |Decisions(policies, intent, context)|
    requires forall j :: 0 <= j < i ==> Severity(Decisions(policies, intent, context)[j].verdict) <= Severity(v)
    requires i == |Decisions(policies, intent, context)| || v == Deny
    requires v == Allow || exists j :: 0 <= j < |Decisions(policies, intent, context)|
                                       && Decisions(policies, intent, context)[j].verdict == v
    ensures v == Aggregate(policies, intent, context)
  {
    var enabled := EnabledOnly(policies);
    forall p | p in enabled
      ensures Severity(EvaluatePolicy(p, intent, context).verdict) <= Severity(v)
    {
      var j := PolicyIsDecided(policies, intent, context, p);
    }
    if v != Allow {
      var j :| 0 <= j < |Decisions(policies, intent, context)| && Decisions(policies, intent, context)[j].verdict == v;
      var p := DecisionHasPolicy(policies, intent, context, j);
    }
    MostRestrictiveIsUnique(v, Aggregate(policies, intent, context), enabled, intent, context);
  }

  /** The aggregate depends on which policies there are, not on the order they are listed in. */
  lemma {:induction false} AggregateIgnoresOrder(a: seq<Policy>, b: seq<Policy>, intent: Intent, context: Context)
    requires multiset(a) == multiset(b)
    ensures Aggregate(a, intent, context) == Aggregate(b, intent, context)
  {
    forall p ensures p in a <==> p in b {
      assert p in a <==> p in multiset(a);
      assert p in b <==> p in multiset(b);
    }
  }

  /** Adding policies, anywhere in the list, can only make the aggregate more restrictive. */
  lemma {:induction false} AggregateIsMonotone(a: seq<Policy>, more: seq<Policy>, b: seq<Policy>, intent: Intent, context: Context)
    ensures Severity(Aggregate(a + b, intent, context)) <= Severity(Aggregate(a + more + b, intent, context))
  {
    forall p | p in a + b ensures p in a + more + b {
    }
  }

  /**
   * The decisions list one evaluation per enabled policy: in the one stable
   * priority-descending order of the enabled policies that there is.
   */
  lemma {:induction false} DecisionsAreTheStableOrder(policies: seq<Policy>, intent: Intent, context: Context, order: seq<Policy>)
    ensures && Descending(order)
            && (forall k :: WithPriority(order, k) == WithPriority(EnabledOnly(policies), k))
            ==> Decisions(policies, intent, context) == Evaluations(order, intent, context)
    ensures multiset(SortByPriority(EnabledOnly(policies))) == multiset(EnabledOnly(policies))
    ensures |Decisions(policies, intent, context)| == |EnabledOnly(policies)|
  {
    var sorted := SortByPriority(EnabledOnly(policies));
    SortIsStablePermutation(EnabledOnly(policies));
    assert |sorted| == |multiset(sorted)| == |multiset(EnabledOnly(policies))|;
    if Descending(order) && forall k :: WithPriority(order, k) == WithPriority(EnabledOnly(policies), k) {
      StableOrderIsUnique(order, sorted);
    }
  }
}
