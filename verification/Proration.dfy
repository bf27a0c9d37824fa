/** The price of changing plan in the middle of a period. */
module Proration {
  import opened Prelude
  import opened Rounding

  datatype Cycle = Monthly | Yearly

  /** A plan and a cycle with the catalogue's price in whole reais, if it has one. */
  datatype Terms = Terms(plan: int, cycle: Cycle, price: Option<nat>)

  datatype Period = Period(start: int, end: int)

  /** `ratio` is in ten-thousandths; the amounts are in cents. */
  datatype Preview = Preview(ratio: int, credit: int, charge: int, net: int)

  /** The remaining part of the period, rounded to four decimals. */
  function RemainingRatio(period: Period, now: int): int {
    Round(Max(period.end - now, 0) * 10000, Max(period.end - period.start, 1))
  }

  function Prorated(cents: int, ratio: int): int {
    Round(cents * ratio, 10000)
  }

  function CalculatePreview(source: Option<Terms>, target: Terms, period: Option<Period>, now: int): Option<Preview> {
    if source.None? || period.None? then None
    else if source.value.plan == target.plan && source.value.cycle == target.cycle then None
    else if source.value.price.None? || target.price.None? then None
    else
      var ratio := RemainingRatio(period.value, now);
      var credit := Prorated(source.value.price.value * 100, ratio);
      var charge := Prorated(target.price.value * 100, ratio);
      Some(Preview(ratio, credit, charge, charge - credit))
  }

  predicate Inside(period: Period, now: int) {
    period.start < period.end && period.start <= now <= period.end
  }

  lemma {:induction false} RatioInRange(period: Period, now: int)
    requires Inside(period, now)
    ensures 0 <= RemainingRatio(period, now) <= 10000
  {
    var length, remaining := period.end - period.start, period.end - now;
    RoundMonotone(0 * length, remaining * 10000, length);
    RoundMonotone(remaining * 10000, 10000 * length, length);
    RoundWhole(0, length);
    RoundWhole(10000, length);
  }

  lemma {:induction false} ProratedInRange(cents: nat, ratio: int)
    requires 0 <= ratio <= 10000
    ensures 0 <= Prorated(cents, ratio) <= cents
  {
    MulMonotone(cents, 0, ratio);
    MulMonotone(cents, ratio, 10000);
    RoundMonotone(0 * 10000, cents * ratio, 10000);
    RoundMonotone(cents * ratio, cents * 10000, 10000);
    RoundWhole(0, 10000);
    RoundWhole(cents, 10000);
  }

  /** Inside the period the credit and the charge lie between nothing and the full prices. */
  lemma {:induction false} AmountsWithinPrices(source: Terms, target: Terms, period: Period, now: int)
    requires Inside(period, now)
    ensures var p := CalculatePreview(Some(source), target, Some(period), now);
            p.Some? ==>
              && 0 <= p.value.credit <= source.price.value * 100
              && 0 <= p.value.charge <= target.price.value * 100
              && p.value.net == p.value.charge - p.value.credit
  {
    RatioInRange(period, now);
    if source.price.Some? && target.price.Some? {
      ProratedInRange(source.price.value * 100, RemainingRatio(period, now));
      ProratedInRange(target.price.value * 100, RemainingRatio(period, now));
    }
  }

  /**
   * A change has a price exactly when there is a plan and a period to leave, plan or cycle differ, and
   * the catalogue prices both.
   */
  lemma {:induction false} PricedExactlyWhen(source: Option<Terms>, target: Terms, period: Option<Period>, now: int)
    ensures CalculatePreview(source, target, period, now).Some? <==>
              && source.Some? && period.Some?
              && !(source.value.plan == target.plan && source.value.cycle == target.cycle)
              && source.value.price.Some? && target.price.Some?
  {
  }

  /** The remaining part of the period to half a ten-thousandth. */
  lemma {:induction false} RatioIsAccurate(period: Period, now: int)
    ensures var length := if period.end > period.start then period.end - period.start else 1;
            var remaining := if period.end > now then period.end - now else 0;
            -length <= 20000 * remaining - 2 * (length * RemainingRatio(period, now)) < length
  {
    RoundBounds(Max(period.end - now, 0) * 10000, Max(period.end - period.start, 1));
  }

  /** Both amounts of a preview are the remaining part of the full prices, and the net is what is still to pay. */
  lemma {:induction false} PreviewIsAccurate(source: Terms, target: Terms, period: Period, now: int)
    requires CalculatePreview(Some(source), target, Some(period), now).Some?
    ensures var p := CalculatePreview(Some(source), target, Some(period), now).value;
            var length := if period.end > period.start then period.end - period.start else 1;
            var remaining := if period.end > now then period.end - now else 0;
            && p.ratio == RemainingRatio(period, now)
            && CloseTo(p.credit, 100 * source.price.value, remaining, length)
            && CloseTo(p.charge, 100 * target.price.value, remaining, length)
            && p.net == p.charge - p.credit
  {
    AmountIsAccurate(source.price.value * 100, period, now);
    AmountIsAccurate(target.price.value * 100, period, now);
  }

  /** `amount` differs from `cents * remaining / length` by at most `cents / 20000 + 1 / 2`. */
  predicate CloseTo(amount: int, cents: int, remaining: int, length: int) {
    -(cents + 10000) * length <= 20000 * length * amount - 20000 * cents * remaining <= (cents + 10000) * length
  }

  lemma {:induction false} RatioFalls(period: Period, now: int, later: int)
    requires now <= later
    ensures RemainingRatio(period, later) <= RemainingRatio(period, now)
  {
    RoundMonotone(Max(period.end - later, 0) * 10000, Max(period.end - now, 0) * 10000, Max(period.end - period.start, 1));
  }

  /** Waiting never raises either amount. */
  lemma {:induction false} AmountsFallOverTime(source: Terms, target: Terms, period: Period, now: int, later: int)
    requires now <= later
    ensures var p := CalculatePreview(Some(source), target, Some(period), now);
            var q := CalculatePreview(Some(source), target, Some(period), later);
            && (p.Some? <==> q.Some?)
            && (p.Some? ==> q.value.credit <= p.value.credit && q.value.charge <= p.value.charge)
  {
    RatioFalls(period, now, later);
    if source.price.Some? && target.price.Some? {
      var r, s := RemainingRatio(period, later), RemainingRatio(period, now);
      MulMonotone(source.price.value * 100, r, s);
      MulMonotone(target.price.value * 100, r, s);
      RoundMonotone(source.price.value * 100 * r, source.price.value * 100 * s, 10000);
      RoundMonotone(target.price.value * 100 * r, target.price.value * 100 * s, 10000);
    }
  }

  /**
   * Each amount is close to its part of the price: of the whole period, or of one millisecond when
   * the period has no length, and of nothing once it is over.
   */
  lemma {:induction false} AmountIsAccurate(cents: nat, period: Period, now: int)
    ensures CloseTo(Prorated(cents, RemainingRatio(period, now)), cents, Max(period.end - now, 0), Max(period.end - period.start, 1))
  {
    var length, remaining := Max(period.end - period.start, 1), Max(period.end - now, 0);
    var r := RemainingRatio(period, now);
    var amount := Prorated(cents, r);
    RoundBounds(remaining * 10000, length);
    RoundBounds(cents * r, 10000);
    var e1 := 2 * (remaining * 10000) - 2 * (length * r);
    var e2 := 2 * (cents * r) - 2 * (10000 * amount);
    ErrorsAddUp(cents, length, remaining, r, amount, e1, e2);
    ErrorsAreBounded(cents, length, e1, e2);
  }

  lemma {:induction false} ErrorsAreBounded(cents: nat, length: int, e1: int, e2: int)
    requires 0 <= length && -length <= e1 <= length && -10000 <= e2 <= 10000
    ensures -(cents + 10000) * length <= -(length * e2) - cents * e1 <= (cents + 10000) * length
  {
    MulMonotone(length, e2, 10000);
    MulMonotone(length, -10000, e2);
    MulMonotone(cents, e1, length);
    MulMonotone(cents, -length, e1);
    assert (cents + 10000) * length == cents * length + 10000 * length;
    assert -(cents + 10000) * length == -(cents * length) - 10000 * length;
  }

  /** The error of the amount is that of the last rounding, plus the price times that of the ratio. */
  lemma {:induction false} ErrorsAddUp(cents: int, length: int, remaining: int, r: int, amount: int, e1: int, e2: int)
    requires e1 == 20000 * remaining - 2 * (length * r)
    requires e2 == 2 * (cents * r) - 20000 * amount
    ensures 20000 * length * amount - 20000 * cents * remaining == -(length * e2) - cents * e1
  {
    assert length * e2 == 2 * (length * (cents * r)) - 20000 * (length * amount);
    assert cents * e1 == 20000 * (cents * remaining) - 2 * (cents * (length * r));
    assert length * (cents * r) == cents * (length * r);
  }

  /** A dearer target never yields money back, and swapping the two plans negates the net. */
  lemma {:induction false} NetFollowsThePrices(source: Terms, target: Terms, period: Period, now: int)
    ensures var p := CalculatePreview(Some(source), target, Some(period), now);
            var q := CalculatePreview(Some(target), source, Some(period), now);
            && (p.Some? <==> q.Some?)
            && (p.Some? ==> q.value.net == -p.value.net)
            && (p.Some? && source.price.value <= target.price.value ==> p.value.net >= 0)
  {
    if source.price.Some? && target.price.Some? && source.price.value <= target.price.value {
      var r := RemainingRatio(period, now);
      RatioIsNatural(period, now);
      MulMonotone(r, source.price.value * 100, target.price.value * 100);
      RoundMonotone(source.price.value * 100 * r, target.price.value * 100 * r, 10000);
    }
  }

  lemma {:induction false} RatioIsNatural(period: Period, now: int)
    ensures RemainingRatio(period, now) >= 0
  {
    var length := Max(period.end - period.start, 1);
    RoundMonotone(0 * length, Max(period.end - now, 0) * 10000, length);
    RoundWhole(0, length);
  }
}
