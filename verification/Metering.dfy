/** Monthly usage: what is counted, what is refused at the limit, and what becomes overage. */
module Metering {
  import opened Prelude
  import opened Rounding
  import opened Proration
  import opened Invoices

  // ----- Entitlements -----

  datatype Plan = Plan(intents: Option<nat>, actions: Option<nat>, intentsUnit: Option<int>, actionsUnit: Option<int>) {
    function Limit(metric: Metric): Option<nat> {
      match metric
      case Intents => intents
      case ExecutedActions => actions
    }

    function UnitAmount(metric: Metric): Option<int> {
      match metric
      case Intents => intentsUnit
      case ExecutedActions => actionsUnit
    }
  }

  datatype Subscription = Subscription(plan: Option<Plan>, active: bool)

  datatype Trial = TrialActive | TrialExpired | TrialConverted

  /** What a workspace may do; `overage` is the plan's automatic overage billing. */
  datatype Account = Account(plan: Plan, readOnly: bool, overage: bool)

  function ResolveEntitlements(subscription: Option<Subscription>, trial: Trial, trialPlan: Plan, noPlan: Plan): Account {
    if subscription.Some? && subscription.value.plan.Some? then
      var plan := subscription.value.plan.value;
      if subscription.value.active then Account(plan, false, plan.intentsUnit.Some? || plan.actionsUnit.Some?)
      else Account(plan, true, false)
    else if trial.TrialActive? then Account(trialPlan, false, false)
    else Account(noPlan, true, false)
  }

  /**
   * A workspace is read-only exactly when its subscription has a plan and is not active, or when there
   * is no such subscription and no running trial; it bills overage exactly under an active plan that
   * prices a metric; and its limits are the subscribed plan's, else the trial's, else none at all.
   */
  lemma {:induction false} EntitledExactlyWhen(subscription: Option<Subscription>, trial: Trial, trialPlan: Plan, noPlan: Plan)
    ensures var account := ResolveEntitlements(subscription, trial, trialPlan, noPlan);
            var subscribed := subscription.Some? && subscription.value.plan.Some?;
            && (account.readOnly <==> if subscribed then !subscription.value.active else trial == TrialExpired || trial == TrialConverted)
            && (account.overage <==>
                  && subscribed && subscription.value.active
                  && (subscription.value.plan.value.intentsUnit.Some? || subscription.value.plan.value.actionsUnit.Some?))
            && (subscribed ==> account.plan == subscription.value.plan.value)
            && (!subscribed && trial == TrialActive ==> account.plan == trialPlan)
            && (!subscribed && trial != TrialActive ==> account.plan == noPlan)
  {
  }

  // ----- Counters -----

  datatype Counter = Counter(count: nat, warnedAt: Option<int>, limitAt: Option<int>)

  const ZERO := Counter(0, None, None)

  type Counters = map<Metric, Counter>

  function At(counters: Counters, metric: Metric): Counter {
    if metric in counters then counters[metric] else ZERO
  }

  /** Four fifths of the limit, rounded up. */
  function WarningLevel(limit: nat): nat {
    (4 * limit + 4) / 5
  }

  function Stamped(stamp: Option<int>, reached: bool, now: int): Option<int> {
    if stamp.None? && reached then Some(now) else stamp
  }

  function Incremented(c: Counter, amount: nat, limit: Option<nat>, now: int): Counter {
    var count := c.count + amount;
    Counter(count,
            Stamped(c.warnedAt, limit.Some? && count >= WarningLevel(limit.value), now),
            Stamped(c.limitAt, limit.Some? && count >= limit.value, now))
  }

  datatype Status = Ok | Warning | Blocked | Over

  function MetricStatus(used: nat, limit: Option<nat>, overageAllowed: bool): Status {
    if limit.Some? && used > limit.value && overageAllowed then Over
    else if limit.Some? && used >= limit.value then Blocked
    else if limit.Some? && limit.value != 0 && 5 * used >= 4 * limit.value then Warning
    else Ok
  }

  /**
   * What is shown of a metric: over when overage is allowed and the limit exceeded, blocked from the
   * limit on otherwise, a warning from four fifths of it on, and that all is well below that or without a limit.
   */
  lemma {:induction false} ShownExactlyWhen(used: nat, limit: Option<nat>, overageAllowed: bool)
    ensures var status := MetricStatus(used, limit, overageAllowed);
            && (limit.None? ==> status == Ok)
            && (limit.Some? ==>
                  && (status == Over <==> used > limit.value && overageAllowed)
                  && (status == Blocked <==> used == limit.value || (used > limit.value && !overageAllowed))
                  && (status == Warning <==> 4 * limit.value <= 5 * used < 5 * limit.value)
                  && (status == Ok <==> 5 * used < 4 * limit.value))
  {
  }

  /** The counter is stamped with a warning exactly when its status stops being fine. */
  lemma {:induction false} WarningAgreesWithStatus(c: Counter, limit: nat, now: int, overageAllowed: bool)
    requires c.warnedAt.None?
    ensures Incremented(c, 1, Some(limit), now).warnedAt.Some?
            <==> MetricStatus(c.count + 1, Some(limit), overageAllowed) != Ok
  {
    DivBounds(4 * limit + 4, 5);
  }

  predicate Refused(account: Account, metric: Metric, used: nat) {
    || account.readOnly
    || (MetricStatus(used, account.plan.Limit(metric), account.overage) == Blocked && !account.overage)
  }

  // ----- A month of one workspace -----

  datatype Month = Month(counters: Counters, lines: seq<Line>)

  const EMPTY := Month(map[], [])

  function Track(account: Account, m: Month, metric: Metric, now: int): Month {
    var c := Incremented(At(m.counters, metric), 1, account.plan.Limit(metric), now);
    Month(m.counters[metric := c],
          if account.overage
          then WithOverage(m.lines, metric, c.count, account.plan.Limit(metric), account.plan.UnitAmount(metric))
          else m.lines)
  }

  datatype Event = Use(metric: Metric, now: int) | Prorate(preview: Option<Preview>)

  function Apply(account: Account, m: Month, e: Event): Month {
    match e
    case Use(metric, now) => if Refused(account, metric, At(m.counters, metric).count) then m else Track(account, m, metric, now)
    case Prorate(preview) => m.(lines := WithProration(m.lines, preview))
  }

  function RunFrom(account: Account, m: Month, events: seq<Event>): Month {
    if events == [] then m
    else Apply(account, RunFrom(account, m, events[..|events| - 1]), events[|events| - 1])
  }

  function Run(account: Account, events: seq<Event>): Month {
    RunFrom(account, EMPTY, events)
  }

  /** When a unit of the metric was asked for. */
  function Times(events: seq<Event>, metric: Metric): seq<int> {
    if events == [] then []
    else
      var last := events[|events| - 1];
      Times(events[..|events| - 1], metric) + (if last.Use? && last.metric == metric then [last.now] else [])
  }

  // ----- The month in closed form -----

  /** How many of `n` units are granted. */
  function Granted(account: Account, metric: Metric, n: nat): nat {
    var limit := account.plan.Limit(metric);
    if account.readOnly then 0
    else if limit.None? || account.overage then n
    else Min(n, limit.value)
  }

  /** The time of the first granted unit that brought the count to the level. */
  function FirstAt(times: seq<int>, granted: nat, level: nat): Option<int>
    requires granted <= |times|
  {
    if granted >= Max(level, 1) then Some(times[Max(level, 1) - 1]) else None
  }

  function OverageOf(account: Account, metric: Metric, count: nat): Option<Line> {
    var limit, unit := account.plan.Limit(metric), account.plan.UnitAmount(metric);
    if account.overage && limit.Some? && count > limit.value && unit.GetOr(0) != 0
    then Some(OverageLine(metric, count - limit.value, unit.value))
    else None
  }

  function CounterOf(account: Account, metric: Metric, times: seq<int>): Counter {
    var limit, granted := account.plan.Limit(metric), Granted(account, metric, |times|);
    Counter(granted,
            if limit.None? then None else FirstAt(times, granted, WarningLevel(limit.value)),
            if limit.None? then None else FirstAt(times, granted, limit.value))
  }

  ghost predicate Accounted(account: Account, m: Month, metric: Metric, times: seq<int>) {
    && At(m.counters, metric) == CounterOf(account, metric, times)
    && Lookup(m.lines, Overage(metric)) == OverageOf(account, metric, Granted(account, metric, |times|))
  }

  lemma {:induction false} RefusedExactlyWhen(account: Account, metric: Metric, used: nat)
    ensures Refused(account, metric, used) <==>
            || account.readOnly
            || (account.plan.Limit(metric).Some? && !account.overage && used >= account.plan.Limit(metric).value)
  {
  }

  lemma {:induction false} StampIsFirst(times: seq<int>, now: int, level: nat)
    ensures Stamped(FirstAt(times, |times|, level), |times| + 1 >= level, now) == FirstAt(times + [now], |times| + 1, level)
  {
  }

  /** One more granted unit, counter and line apart. */
  lemma {:induction false} GrantKeepsCounter(account: Account, metric: Metric, times: seq<int>, now: int)
    requires Granted(account, metric, |times|) == |times| && Granted(account, metric, |times| + 1) == |times| + 1
    ensures Incremented(CounterOf(account, metric, times), 1, account.plan.Limit(metric), now)
         == CounterOf(account, metric, times + [now])
  {
    var limit := account.plan.Limit(metric);
    if limit.Some? {
      StampIsFirst(times, now, WarningLevel(limit.value));
      StampIsFirst(times, now, limit.value);
    }
  }

  lemma {:induction false} RefusalKeepsCounter(account: Account, metric: Metric, times: seq<int>, now: int)
    requires Granted(account, metric, |times| + 1) == Granted(account, metric, |times|)
    ensures CounterOf(account, metric, times + [now]) == CounterOf(account, metric, times)
  {
  }

  lemma {:induction false} OverageLooksUp(lines: seq<Line>, metric: Metric, used: nat, limit: Option<nat>, unit: Option<int>, other: Kind)
    requires OnePerKind(lines)
    ensures var after := WithOverage(lines, metric, used, limit, unit);
            && OnePerKind(after)
            && Lookup(after, other) == if Recorded(used, limit, unit) && other == Overage(metric)
                                       then Some(OverageLine(metric, used - limit.value, unit.value))
                                       else Lookup(lines, other)
  {
    if Recorded(used, limit, unit) {
      PutLooksUp(lines, OverageLine(metric, used - limit.value, unit.value), other);
    }
  }

  lemma {:induction false} GrantKeepsLine(account: Account, m: Month, metric: Metric, n: nat)
    requires OnePerKind(m.lines) && Lookup(m.lines, Overage(metric)) == OverageOf(account, metric, n)
    requires !account.overage ==> n == 0 || account.plan.Limit(metric).None? || n <= account.plan.Limit(metric).value
    ensures var lines := if account.overage
                         then WithOverage(m.lines, metric, n + 1, account.plan.Limit(metric), account.plan.UnitAmount(metric))
                         else m.lines;
            OnePerKind(lines) && Lookup(lines, Overage(metric)) == OverageOf(account, metric, n + 1)
  {
    OverageLooksUp(m.lines, metric, n + 1, account.plan.Limit(metric), account.plan.UnitAmount(metric), Overage(metric));
  }

  /** One more unit of a metric keeps its closed form. */
  lemma {:induction false} UseKeepsAccounted(account: Account, m: Month, metric: Metric, times: seq<int>, now: int)
    requires OnePerKind(m.lines) && Accounted(account, m, metric, times)
    ensures var after := Apply(account, m, Use(metric, now));
            OnePerKind(after.lines) && Accounted(account, after, metric, times + [now])
  {
    var granted := Granted(account, metric, |times|);
    RefusedExactlyWhen(account, metric, granted);
    if Refused(account, metric, granted) {
      RefusalKeepsCounter(account, metric, times, now);
    } else {
      GrantKeepsCounter(account, metric, times, now);
      GrantKeepsLine(account, m, metric, granted);
    }
  }

  /** The other metric and recorded prorations do not touch it. */
  lemma {:induction false} OthersKeepAccounted(account: Account, m: Month, metric: Metric, times: seq<int>, e: Event)
    requires OnePerKind(m.lines) && Accounted(account, m, metric, times)
    requires e.Use? ==> e.metric != metric
    ensures OnePerKind(Apply(account, m, e).lines) && Accounted(account, Apply(account, m, e), metric, times)
  {
    var after := Apply(account, m, e);
    assert At(after.counters, metric) == At(m.counters, metric);
    match e
    case Use(other, now) =>
      OverageLooksUp(m.lines, other, At(m.counters, other).count + 1,
                     account.plan.Limit(other), account.plan.UnitAmount(other), Overage(metric));
    case Prorate(preview) =>
      if preview.Some? {
        ProrationLooksUp(m.lines, preview.value, Overage(metric));
      }
  }

  /**
   * One plan, one month: however the two meters and recorded prorations interleave, each metric's
   * count, its two timestamps and its overage line depend on that metric's requests alone.
   */
  lemma {:induction false} MonthInClosedForm(account: Account, events: seq<Event>, metric: Metric)
    ensures OnePerKind(Run(account, events).lines)
    ensures Accounted(account, Run(account, events), metric, Times(events, metric))
  {
    if events != [] {
      var before, last := events[..|events| - 1], events[|events| - 1];
      MonthInClosedForm(account, before, metric);
      if last.Use? && last.metric == metric {
        UseKeepsAccounted(account, Run(account, before), metric, Times(before, metric), last.now);
      } else {
        OthersKeepAccounted(account, Run(account, before), metric, Times(before, metric), last);
        assert Times(events, metric) == Times(before, metric);
      }
    }
  }

  /**
   * With overage off the limit is never exceeded and nothing is billed; with overage on no unit is
   * refused, and the units above the limit stand on one line.
   */
  lemma {:induction false} LimitOrOverage(account: Account, events: seq<Event>, metric: Metric)
    requires !account.readOnly && account.plan.Limit(metric).Some?
    ensures var limit, m, n := account.plan.Limit(metric).value, Run(account, events), |Times(events, metric)|;
            if account.overage
            then At(m.counters, metric).count == n
            else At(m.counters, metric).count == Min(n, limit) && Lookup(m.lines, Overage(metric)) == None
    ensures var limit, m, n := account.plan.Limit(metric).value, Run(account, events), |Times(events, metric)|;
            var unit := account.plan.UnitAmount(metric);
            account.overage && unit.GetOr(0) != 0 ==>
              Lookup(m.lines, Overage(metric)) ==
              if n > limit then Some(Line(Overage(metric), n - limit, unit.value, (n - limit) * unit.value)) else None
  {
    MonthInClosedForm(account, events, metric);
  }

  /** The line of a metric with its own limit and unit price, after `n` units. */
  predicate Billed(line: Option<Line>, metric: Metric, n: nat, limit: nat, unit: int) {
    line == if n > limit then Some(Line(Overage(metric), n - limit, unit, (n - limit) * unit)) else None
  }

  /** Each metric is limited and billed on its own terms, side by side in one month. */
  lemma {:induction false} EachMetricOnItsOwnTerms(account: Account, events: seq<Event>)
    requires !account.readOnly
    ensures account.overage && account.plan.intents.Some? && account.plan.intentsUnit.GetOr(0) != 0 ==>
              Billed(Lookup(Run(account, events).lines, Overage(Intents)), Intents, |Times(events, Intents)|,
                     account.plan.intents.value, account.plan.intentsUnit.value)
    ensures account.overage && account.plan.actions.Some? && account.plan.actionsUnit.GetOr(0) != 0 ==>
              Billed(Lookup(Run(account, events).lines, Overage(ExecutedActions)), ExecutedActions, |Times(events, ExecutedActions)|,
                     account.plan.actions.value, account.plan.actionsUnit.value)
    ensures !account.overage && account.plan.intents.Some? ==>
              At(Run(account, events).counters, Intents).count == Min(|Times(events, Intents)|, account.plan.intents.value)
    ensures !account.overage && account.plan.actions.Some? ==>
              At(Run(account, events).counters, ExecutedActions).count == Min(|Times(events, ExecutedActions)|, account.plan.actions.value)
  {
    if account.plan.intents.Some? {
      LimitOrOverage(account, events, Intents);
    }
    if account.plan.actions.Some? {
      LimitOrOverage(account, events, ExecutedActions);
    }
  }

  /**
   * Units above the limit stay off the invoice exactly when the plan prices only the other metric, or
   * prices this one at nothing: overage is allowed for both metrics as soon as either has a price.
   */
  lemma {:induction false} UnbilledExactlyWhen(subscription: Subscription, trial: Trial, plans: (Plan, Plan), events: seq<Event>, metric: Metric)
    requires subscription.plan.Some? && subscription.plan.value.Limit(metric).Some?
    ensures var account := ResolveEntitlements(Some(subscription), trial, plans.0, plans.1);
            var plan, m, n := subscription.plan.value, Run(account, events), |Times(events, metric)|;
            (At(m.counters, metric).count > plan.Limit(metric).value && Lookup(m.lines, Overage(metric)).None?)
            <==> (&& subscription.active && n > plan.Limit(metric).value
                  && plan.UnitAmount(metric).GetOr(0) == 0 && (plan.intentsUnit.Some? || plan.actionsUnit.Some?))
  {
    MonthInClosedForm(ResolveEntitlements(Some(subscription), trial, plans.0, plans.1), events, metric);
  }

  /** A metric that has a unit price leaves nothing above its limit off the invoice. */
  lemma {:induction false} PricedMetricIsBilled(subscription: Subscription, trial: Trial, plans: (Plan, Plan), events: seq<Event>, metric: Metric)
    requires subscription.plan.Some? && subscription.plan.value.Limit(metric).Some?
    requires subscription.plan.value.UnitAmount(metric).GetOr(0) != 0
    ensures var account := ResolveEntitlements(Some(subscription), trial, plans.0, plans.1);
            var plan, m := subscription.plan.value, Run(account, events);
            var above := At(m.counters, metric).count - plan.Limit(metric).value;
            above > 0 ==> Lookup(m.lines, Overage(metric)) == Some(OverageLine(metric, above, plan.UnitAmount(metric).value))
  {
    MonthInClosedForm(ResolveEntitlements(Some(subscription), trial, plans.0, plans.1), events, metric);
  }

  const LAUNCH := Plan(Some(2000), Some(300), Some(5), Some(250))
  const PRO := Plan(Some(15000), Some(3000), Some(4), Some(200))
  const BUSINESS := Plan(Some(100000), Some(20000), Some(3), Some(150))
  const ENTERPRISE := Plan(None, None, None, None)
  const NO_PLAN := Plan(Some(0), Some(0), None, None)

  /** The plans there are to subscribe to. */
  predicate InCatalogue(plan: Plan) {
    plan == LAUNCH || plan == PRO || plan == BUSINESS || plan == ENTERPRISE
  }

  /** With the catalogue as it is, in no state of a subscription or trial does a unit above a limit go unbilled. */
  lemma {:induction false} CatalogueBillsEverything(subscription: Option<Subscription>, trial: Trial, events: seq<Event>, metric: Metric)
    requires subscription.Some? && subscription.value.plan.Some? ==> InCatalogue(subscription.value.plan.value)
    ensures var account := ResolveEntitlements(subscription, trial, PRO, NO_PLAN);
            var limit, m := account.plan.Limit(metric), Run(account, events);
            var count := At(m.counters, metric).count;
            limit.Some? && count > limit.value ==>
              var line := Lookup(m.lines, Overage(metric));
              line.Some? && line.value.quantity == count - limit.value && line.value.subtotal > 0
  {
    var account := ResolveEntitlements(subscription, trial, PRO, NO_PLAN);
    MonthInClosedForm(account, events, metric);
    var limit, unit := account.plan.Limit(metric), account.plan.UnitAmount(metric);
    var count := Granted(account, metric, |Times(events, metric)|);
    if limit.Some? && count > limit.value {
      assert unit.Some? && unit.value > 0;
      MulMonotone(unit.value, 1, count - limit.value);
    }
  }

  // ----- A change of plan within the month -----

  /** How one event moves a metric's count and line. */
  lemma {:induction false} EventMovesLine(account: Account, m: Month, e: Event, metric: Metric)
    requires OnePerKind(m.lines)
    ensures var after := Apply(account, m, e);
            var n, k := At(m.counters, metric).count, At(after.counters, metric).count;
            && OnePerKind(after.lines)
            && (k == n || k == n + 1)
            && Lookup(after.lines, Overage(metric))
               == if k > n && OverageOf(account, metric, k).Some? then OverageOf(account, metric, k)
                  else Lookup(m.lines, Overage(metric))
  {
    match e
    case Use(used, now) =>
      OverageLooksUp(m.lines, used, At(m.counters, used).count + 1,
                     account.plan.Limit(used), account.plan.UnitAmount(used), Overage(metric));
    case Prorate(preview) =>
      if preview.Some? {
        ProrationLooksUp(m.lines, preview.value, Overage(metric));
      }
  }

  lemma {:induction false} OverageStarts(account: Account, metric: Metric, n: nat, k: nat)
    requires n <= k && OverageOf(account, metric, n).Some?
    ensures OverageOf(account, metric, k).Some?
  {
  }

  /** From any month on: the line is the account's own once a granted unit exceeds its limit, and the earlier one until then. */
  lemma {:induction false} LineFromHere(account: Account, m: Month, events: seq<Event>, metric: Metric)
    requires OnePerKind(m.lines)
    ensures var after := RunFrom(account, m, events);
            var n, k := At(m.counters, metric).count, At(after.counters, metric).count;
            && OnePerKind(after.lines)
            && n <= k
            && Lookup(after.lines, Overage(metric))
               == if k > n && OverageOf(account, metric, k).Some? then OverageOf(account, metric, k)
                  else Lookup(m.lines, Overage(metric))
  {
    if events != [] {
      var before := RunFrom(account, m, events[..|events| - 1]);
      LineFromHere(account, m, events[..|events| - 1], metric);
      EventMovesLine(account, before, events[|events| - 1], metric);
      var j, k := At(before.counters, metric).count, At(Apply(account, before, events[|events| - 1]).counters, metric).count;
      if OverageOf(account, metric, j).Some? {
        OverageStarts(account, metric, j, k);
      }
    }
  }

  /**
   * After a change of plan in the middle of a month, with at least one unit granted since, the line
   * is the new plan's if and only if the count is above the new plan's limit or the old plan had
   * left no line. Otherwise the old plan's line stays.
   */
  lemma {:induction false} PlanChangeKeepsTheOldLine(earlier: Account, later: Account, first: seq<Event>, second: seq<Event>, metric: Metric)
    requires At(RunFrom(later, Run(earlier, first), second).counters, metric).count > At(Run(earlier, first).counters, metric).count
    ensures var m := Run(earlier, first);
            var after := RunFrom(later, m, second);
            var n, k := At(m.counters, metric).count, At(after.counters, metric).count;
            && (Lookup(after.lines, Overage(metric)) == OverageOf(later, metric, k)
                <==> OverageOf(later, metric, k).Some? || OverageOf(earlier, metric, n).None?)
            && (OverageOf(later, metric, k).None? ==> Lookup(after.lines, Overage(metric)) == OverageOf(earlier, metric, n))
  {
    MonthInClosedForm(earlier, first, metric);
    LineFromHere(later, Run(earlier, first), second, metric);
  }

  /** The events of `n` units of a metric. */
  function Uses(metric: Metric, n: nat): (events: seq<Event>) {
    if n == 0 then [] else Uses(metric, n - 1) + [Use(metric, n)]
  }

  lemma {:induction false} UsesAreCounted(metric: Metric, n: nat)
    ensures |Times(Uses(metric, n), metric)| == n
  {
    if n > 0 {
      UsesAreCounted(metric, n - 1);
      assert Uses(metric, n)[..|Uses(metric, n)| - 1] == Uses(metric, n - 1);
    }
  }

  /**
   * Units used before a change of plan are billed against the new limit only with the next unit: a
   * trial that has used up its limit and then takes the smallest plan stands above that plan's limit
   * with nothing on the invoice, and the first unit after it bills everything above.
   */
  lemma {:induction false} UnitsBeforeAChangeWait(now: int)
    ensures var trial := ResolveEntitlements(None, TrialActive, PRO, NO_PLAN);
            var launch := ResolveEntitlements(Some(Subscription(Some(LAUNCH), true)), TrialConverted, PRO, NO_PLAN);
            var m := Run(trial, Uses(Intents, 15000));
            && At(m.counters, Intents).count == 15000 > LAUNCH.intents.value
            && Lookup(m.lines, Overage(Intents)) == None
            && Lookup(Apply(launch, m, Use(Intents, now)).lines, Overage(Intents)) == Some(OverageLine(Intents, 13001, 5))
  {
    var trial := ResolveEntitlements(None, TrialActive, PRO, NO_PLAN);
    var launch := ResolveEntitlements(Some(Subscription(Some(LAUNCH), true)), TrialConverted, PRO, NO_PLAN);
    UsesAreCounted(Intents, 15000);
    MonthInClosedForm(trial, Uses(Intents, 15000), Intents);
    EventMovesLine(launch, Run(trial, Uses(Intents, 15000)), Use(Intents, now), Intents);
  }

  // ----- Creating intents -----

  type Key = Option<string>

  datatype Outcome = Existing(id: nat) | Created(id: nat) | PaymentRequired | DuplicateKey

  /** What an intent's row says about where it came from. Keys are looked up across workspaces. */
  datatype Origin = Origin(key: Key, workspace: int)

  /** The intents of all workspaces, and the month each workspace's are counted in. */
  datatype Desk = Desk(rows: seq<Origin>, months: map<int, Month>)

  function MonthOf(d: Desk, workspace: int): Month {
    if workspace in d.months then d.months[workspace] else EMPTY
  }

  function IndexOf(rows: seq<Origin>, key: Key): (i: nat)
    ensures i <= |rows|
    ensures i < |rows| ==> rows[i].key == key
    ensures forall k :: 0 <= k < i ==> rows[k].key != key
  {
    if rows == [] || rows[0].key == key then 0 else 1 + IndexOf(rows[1..], key)
  }

  /** The service looks for an earlier intent only when the key is a non-empty string. */
  predicate Looked(key: Key) {
    key.Some? && key.value != ""
  }

  function CreateOutcome(account: Account, rows: seq<Origin>, month: Month, key: Key): Outcome {
    var i := IndexOf(rows, key);
    if Looked(key) && i < |rows| then Existing(i)
    else if Refused(account, Intents, At(month.counters, Intents).count) then PaymentRequired
    else if key.Some? && i < |rows| then DuplicateKey
    else Created(|rows|)
  }

  function Create(account: Account, d: Desk, workspace: int, key: Key, now: int): Desk {
    var month := MonthOf(d, workspace);
    if CreateOutcome(account, d.rows, month, key).Created?
    then Desk(d.rows + [Origin(key, workspace)], d.months[workspace := Track(account, month, Intents, now)])
    else d
  }

  /**
   * What happens over the months; the account may differ from one call to the next. A new month
   * starts every counter and every invoice afresh, while the intents and their keys stay.
   */
  datatype Call =
    | CreateCall(account: Account, workspace: int, key: Key, now: int)
    | OtherCall(account: Account, workspace: int, event: Event)
    | NewMonth

  function Serve(d: Desk, c: Call): Desk {
    match c
    case CreateCall(account, workspace, key, now) => Create(account, d, workspace, key, now)
    case OtherCall(account, workspace, event) =>
      if event.Use? && event.metric == Intents then d
      else d.(months := d.months[workspace := Apply(account, MonthOf(d, workspace), event)])
    case NewMonth => d.(months := map[])
  }

  function ServeAll(d: Desk, calls: seq<Call>): Desk
    decreases |calls|
  {
    if calls == [] then d else ServeAll(Serve(d, calls[0]), calls[1..])
  }

  ghost predicate KeysAreUnique(rows: seq<Origin>) {
    forall i, j :: 0 <= i < j < |rows| && rows[i].key.Some? ==> rows[i].key != rows[j].key
  }

  function CountIn(rows: seq<Origin>, workspace: int): nat {
    if rows == [] then 0
    else CountIn(rows[..|rows| - 1], workspace) + (if rows[|rows| - 1].workspace == workspace then 1 else 0)
  }

  /** What a workspace has counted this month. */
  function Counted(d: Desk, workspace: int): nat {
    At(MonthOf(d, workspace).counters, Intents).count
  }

  lemma {:induction false} NewRowKeepsKeys(rows: seq<Origin>, row: Origin)
    requires KeysAreUnique(rows) && (row.key.Some? ==> IndexOf(rows, row.key) == |rows|)
    ensures KeysAreUnique(rows + [row])
  {
  }

  lemma {:induction false} NewRowIsCounted(rows: seq<Origin>, row: Origin, workspace: int)
    ensures CountIn(rows + [row], workspace) == CountIn(rows, workspace) + (if row.workspace == workspace then 1 else 0)
  {
    assert (rows + [row])[..|rows|] == rows;
  }

  lemma {:induction false} ServeKeepsKeys(d: Desk, c: Call)
    requires KeysAreUnique(d.rows)
    ensures KeysAreUnique(Serve(d, c).rows) && d.rows <= Serve(d, c).rows
  {
    if c.CreateCall? && Serve(d, c) != d {
      NewRowKeepsKeys(d.rows, Origin(c.key, c.workspace));
    }
  }

  /** A call within a month moves a workspace's count by the intents it adds there. */
  lemma {:induction false} ServeCounts(d: Desk, c: Call, workspace: int)
    requires !c.NewMonth?
    ensures Counted(Serve(d, c), workspace) - Counted(d, workspace)
         == CountIn(Serve(d, c).rows, workspace) - CountIn(d.rows, workspace)
  {
    if c.CreateCall? {
      NewRowIsCounted(d.rows, Origin(c.key, c.workspace), workspace);
    }
  }

  predicate WithinMonth(calls: seq<Call>) {
    forall i :: 0 <= i < |calls| ==> !calls[i].NewMonth?
  }

  lemma {:induction false} KeysStayUnique(d: Desk, calls: seq<Call>)
    requires KeysAreUnique(d.rows)
    ensures KeysAreUnique(ServeAll(d, calls).rows) && d.rows <= ServeAll(d, calls).rows
    decreases |calls|
  {
    if calls != [] {
      ServeKeepsKeys(d, calls[0]);
      KeysStayUnique(Serve(d, calls[0]), calls[1..]);
    }
  }

  /**
   * From any desk on, over any calls within a month: in every workspace each new intent is one unit
   * and each new unit an intent, whatever is replayed, refused or changed meanwhile.
   */
  lemma {:induction false} UnitsAreIntents(d: Desk, calls: seq<Call>, workspace: int)
    requires WithinMonth(calls)
    ensures var after := ServeAll(d, calls);
            Counted(after, workspace) - Counted(d, workspace) == CountIn(after.rows, workspace) - CountIn(d.rows, workspace)
    decreases |calls|
  {
    if calls != [] {
      ServeCounts(d, calls[0], workspace);
      UnitsAreIntents(Serve(d, calls[0]), calls[1..], workspace);
    }
  }

  /** In every month after the first, the count is the number of intents created since the month began. */
  lemma {:induction false} EveryMonthCountsItsOwn(d: Desk, earlier: seq<Call>, month: seq<Call>, workspace: int)
    requires WithinMonth(month)
    ensures var turn := Serve(ServeAll(d, earlier), NewMonth);
            var after := ServeAll(turn, month);
            Counted(after, workspace) == CountIn(after.rows, workspace) - CountIn(turn.rows, workspace)
  {
    UnitsAreIntents(Serve(ServeAll(d, earlier), NewMonth), month, workspace);
  }

  // ----- The limit at the desk -----

  predicate Known(rows: seq<Origin>, key: Key) {
    key.Some? && exists i :: 0 <= i < |rows| && rows[i].key == key
  }

  /**
   * What a request to create an intent is answered: a known key that is not empty with its intent; any
   * other in read-only mode, or at the limit with overage off, with a demand for payment; an empty key
   * used before with a database error; and everything else with a new intent.
   */
  lemma {:induction false} AnsweredExactlyWhen(account: Account, rows: seq<Origin>, month: Month, key: Key)
    ensures var outcome, count := CreateOutcome(account, rows, month, key), At(month.counters, Intents).count;
            var owing := account.readOnly || (!account.overage && account.plan.intents.Some? && count >= account.plan.intents.value);
            && (outcome.Existing? <==> Known(rows, key) && key != Some(""))
            && (outcome.Existing? ==> outcome.id < |rows| && rows[outcome.id].key == key)
            && (outcome == PaymentRequired <==> owing && !(Known(rows, key) && key != Some("")))
            && (outcome == DuplicateKey <==> !owing && key == Some("") && Known(rows, key))
            && (outcome == Created(|rows|) <==> !owing && !Known(rows, key))
  {
    RefusedExactlyWhen(account, Intents, At(month.counters, Intents).count);
  }

  /** What a call asks of a workspace's meters: a replayed key asks for nothing. */
  function EventsOf(rows: seq<Origin>, c: Call, workspace: int): seq<Event> {
    match c
    case CreateCall(_, at, key, now) => if at == workspace && !Known(rows, key) then [Use(Intents, now)] else []
    case OtherCall(_, at, event) => if at == workspace && event != Use(Intents, Now(event)) then [event] else []
    case NewMonth => []
  }

  function Now(e: Event): int {
    if e.Use? then e.now else 0
  }

  function AllEventsOf(d: Desk, calls: seq<Call>, workspace: int): seq<Event>
    decreases |calls|
  {
    if calls == [] then [] else EventsOf(d.rows, calls[0], workspace) + AllEventsOf(Serve(d, calls[0]), calls[1..], workspace)
  }

  /** Every call of the workspace comes under the account. */
  predicate Under(account: Account, calls: seq<Call>, workspace: int) {
    forall i :: 0 <= i < |calls| ==>
      match calls[i]
      case CreateCall(a, at, _, _) => at == workspace ==> a == account
      case OtherCall(a, at, _) => at == workspace ==> a == account
      case NewMonth => true
  }

  lemma {:induction false} RunsJoin(account: Account, m: Month, first: seq<Event>, second: seq<Event>)
    ensures RunFrom(account, m, first + second) == RunFrom(account, RunFrom(account, m, first), second)
  {
    if second == [] {
      assert first + second == first;
    } else {
      var rest := second[..|second| - 1];
      assert (first + second)[..|first + second| - 1] == first + rest;
      RunsJoin(account, m, first, rest);
    }
  }

  lemma {:induction false} CallMovesTheMonth(account: Account, d: Desk, c: Call, workspace: int)
    requires !c.NewMonth?
    requires c.workspace == workspace ==> c.account == account
    ensures MonthOf(Serve(d, c), workspace) == RunFrom(account, MonthOf(d, workspace), EventsOf(d.rows, c, workspace))
  {
    var events := EventsOf(d.rows, c, workspace);
    if events != [] {
      assert events[..0] == [];
    }
    if c.CreateCall? {
      AnsweredExactlyWhen(c.account, d.rows, MonthOf(d, c.workspace), c.key);
      RefusedExactlyWhen(c.account, Intents, At(MonthOf(d, c.workspace).counters, Intents).count);
    }
  }

  /** The desk is the meters: under one account its calls leave a month as the requests among them would. */
  lemma {:induction false} DeskRunsTheMeters(account: Account, d: Desk, calls: seq<Call>, workspace: int)
    requires WithinMonth(calls) && Under(account, calls, workspace)
    ensures MonthOf(ServeAll(d, calls), workspace) == RunFrom(account, MonthOf(d, workspace), AllEventsOf(d, calls, workspace))
    decreases |calls|
  {
    if calls != [] {
      var next := Serve(d, calls[0]);
      CallMovesTheMonth(account, d, calls[0], workspace);
      assert Under(account, calls[1..], workspace);
      DeskRunsTheMeters(account, next, calls[1..], workspace);
      RunsJoin(account, MonthOf(d, workspace), EventsOf(d.rows, calls[0], workspace), AllEventsOf(next, calls[1..], workspace));
    }
  }

  /** How far a metric's count comes from any month on: all that is asked for, or up to the limit, or nowhere. */
  lemma {:induction false} CountFromHere(account: Account, m: Month, events: seq<Event>, metric: Metric)
    ensures var n, asked, limit := At(m.counters, metric).count, |Times(events, metric)|, account.plan.Limit(metric);
            At(RunFrom(account, m, events).counters, metric).count ==
            if account.readOnly then n
            else if account.overage || limit.None? || n + asked <= limit.value then n + asked
            else if n <= limit.value then limit.value
            else n
  {
    if events != [] {
      var before, last := events[..|events| - 1], events[|events| - 1];
      CountFromHere(account, m, before, metric);
      if last.Use? {
        RefusedExactlyWhen(account, last.metric, At(RunFrom(account, m, before).counters, last.metric).count);
      }
    }
  }

  /**
   * The limit at the desk, from any desk on and over any calls within a month under one account: a
   * read-only workspace creates nothing; with overage on, or without a limit, nothing is refused; and
   * otherwise the count stops at the limit, or stays where it was if that was higher already.
   */
  lemma {:induction false} DeskObeysTheLimit(account: Account, d: Desk, calls: seq<Call>, workspace: int)
    requires WithinMonth(calls) && Under(account, calls, workspace)
    ensures var n, after := Counted(d, workspace), Counted(ServeAll(d, calls), workspace);
            var asked, limit := |Times(AllEventsOf(d, calls, workspace), Intents)|, account.plan.intents;
            after == if account.readOnly then n
                     else if account.overage || limit.None? || n + asked <= limit.value then n + asked
                     else if n <= limit.value then limit.value
                     else n
  {
    DeskRunsTheMeters(account, d, calls, workspace);
    CountFromHere(account, MonthOf(d, workspace), AllEventsOf(d, calls, workspace), Intents);
  }

  lemma {:induction false} IndexIs(rows: seq<Origin>, i: nat)
    requires KeysAreUnique(rows) && i < |rows| && rows[i].key.Some?
    ensures IndexOf(rows, rows[i].key) == i
  {
    if IndexOf(rows, rows[i].key) < i {
      assert false;
    }
  }

  /**
   * Asking again with a created intent's key, however many months later, under whatever account and
   * from whatever workspace, changes nothing. It answers with that intent exactly when the key is
   * not the empty string, even when the intent is another workspace's.
   */
  lemma {:induction false} ReplayAddsNothing(d: Desk, first: Call, calls: seq<Call>, again: Call)
    requires KeysAreUnique(d.rows)
    requires first.CreateCall? && again.CreateCall? && again.key == first.key && first.key.Some?
    requires CreateOutcome(first.account, d.rows, MonthOf(d, first.workspace), first.key).Created?
    ensures var id, end := |d.rows|, ServeAll(Serve(d, first), calls);
            && id < |end.rows| && end.rows[id] == Origin(first.key, first.workspace)
            && Serve(end, again) == end
            && (CreateOutcome(again.account, end.rows, MonthOf(end, again.workspace), again.key) == Existing(id)
                <==> first.key.value != "")
  {
    var made := Serve(d, first);
    var end := ServeAll(made, calls);
    ServeKeepsKeys(d, first);
    KeysStayUnique(made, calls);
    assert end.rows[|d.rows|] == Origin(first.key, first.workspace);
    IndexIs(end.rows, |d.rows|);
  }

  // ----- The services -----

  /** The intent rows that all workspaces share. */
  class IntentTable {
    var rows: seq<Origin>

    constructor ()
      ensures rows == []
    {
      rows := [];
    }
  }

  class Workspace {
    const id: int
    const table: IntentTable
    const invoice: OpenInvoice
    var counters: Counters

    ghost function CurrentMonth(): Month
      reads this, invoice
    {
      Month(counters, invoice.lines)
    }

    constructor (id: int, table: IntentTable, open: OpenInvoice)
      requires open.Valid() && open.lines == []
      ensures CurrentMonth() == EMPTY && this.id == id && this.table == table && invoice == open
    {
      this.id, this.table, invoice := id, table, open;
      counters := map[];
    }

    method IncrementMonthlyUsageCounter(metric: Metric, amount: nat, limit: Option<nat>, now: int) returns (c: Counter)
      modifies this`counters
      ensures c == Incremented(old(At(counters, metric)), amount, limit, now)
      ensures counters == old(counters)[metric := c]
    {
      if metric !in counters {
        counters := counters[metric := ZERO];
      }
      counters := counters[metric := counters[metric].(count := counters[metric].count + amount)];
      c := counters[metric];
      if limit.Some? && c.count >= WarningLevel(limit.value) && c.warnedAt.None? {
        counters := counters[metric := counters[metric].(warnedAt := Some(now))];
      }
      if limit.Some? && c.count >= limit.value && c.limitAt.None? {
        counters := counters[metric := counters[metric].(limitAt := Some(now))];
      }
      c := counters[metric];
    }

    method AssertCanUse(metric: Metric, account: Account) returns (ok: bool)
      ensures !ok <==> Refused(account, metric, At(counters, metric).count)
    {
      if account.readOnly {
        return false;
      }
      var status := MetricStatus(At(counters, metric).count, account.plan.Limit(metric), account.overage);
      return !(status == Blocked && !account.overage);
    }

    method TrackUse(metric: Metric, account: Account, now: int, payer: Payer, reachable: bool) returns (ok: bool)
      requires invoice.Valid()
      modifies this`counters, invoice
      ensures invoice.Valid() && CurrentMonth() == Track(account, old(CurrentMonth()), metric, now)
    {
      var limit := account.plan.Limit(metric);
      var counter := IncrementMonthlyUsageCounter(metric, 1, limit, now);
      ok := true;
      if account.overage {
        ok := invoice.RecordOverage(metric, counter.count, limit, account.plan.UnitAmount(metric), payer, reachable);
      }
    }

    /** `tracked` is false when the payment provider fails after the intent has been stored and counted. */
    method CreateIntent(key: Key, account: Account, now: int, payer: Payer, reachable: bool)
      returns (outcome: Outcome, tracked: bool)
      requires invoice.Valid()
      modifies this`counters, table, invoice
      ensures invoice.Valid()
      ensures outcome == CreateOutcome(account, old(table.rows), old(CurrentMonth()), key)
      ensures table.rows == old(table.rows) + (if outcome.Created? then [Origin(key, id)] else [])
      ensures CurrentMonth() == if outcome.Created? then Track(account, old(CurrentMonth()), Intents, now) else old(CurrentMonth())
    {
      tracked := true;
      var i := IndexOf(table.rows, key);
      if key.Some? && key.value != "" {
        if i < |table.rows| {
          return Existing(i), true;
        }
      }
      var allowed := AssertCanUse(Intents, account);
      if !allowed {
        return PaymentRequired, true;
      }
      if key.Some? && i < |table.rows| {
        return DuplicateKey, true;
      }
      outcome := Created(|table.rows|);
      table.rows := table.rows + [Origin(key, id)];
      tracked := TrackUse(Intents, account, now, payer, reachable);
    }
  }
}
