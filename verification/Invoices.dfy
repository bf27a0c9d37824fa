/** The open invoice of a month: its line items, its totals and its payment request. */
module Invoices {
  import opened Prelude
  import opened Rounding
  import opened Proration

  // ----- Discount, tax and total -----

  datatype Coupon = Fixed(amountOff: Option<int>) | Percent(bps: Option<int>)

  /** `subtotal` is what is left after the discount, as the invoice row stores it. */
  datatype Totals = Totals(discount: int, subtotal: int, tax: int, total: int)

  function Discount(coupon: Option<Coupon>, amount: int): int {
    if coupon.None? || amount <= 0 then 0
    else
      match coupon.value
      case Fixed(off) => Min(off.GetOr(0), amount)
      case Percent(bps) => Min(Round(amount * bps.GetOr(0), 10000), amount)
  }

  function TotalsOf(sum: int, coupon: Option<Coupon>, rate: int): Totals {
    var discount := Discount(coupon, sum);
    var subtotal := Max(sum - discount, 0);
    var tax := if subtotal > 0 then Round(subtotal * rate, 10000) else 0;
    Totals(discount, subtotal, tax, subtotal + tax)
  }

  /** Amounts that the coupon catalogue is meant to hold; its JSON is not checked for them. */
  predicate TakesOff(c: Coupon) {
    match c
    case Fixed(off) => off.GetOr(0) >= 0
    case Percent(bps) => bps.GetOr(0) >= 0
  }

  lemma {:induction false} ShareIsNatural(amount: int, bps: int)
    requires amount >= 0 && bps >= 0
    ensures Round(amount * bps, 10000) >= 0
  {
    MulMonotone(amount, 0, bps);
    RoundMonotone(0 * 10000, amount * bps, 10000);
    RoundWhole(0, 10000);
  }

  /** A discount stays between nothing and the amount, for every amount, exactly when the coupon takes off. */
  lemma {:induction false} DiscountWithinAmountExactlyWhen(c: Coupon)
    ensures TakesOff(c) <==> forall amount :: 0 <= Discount(Some(c), amount) <= Max(amount, 0)
  {
    if TakesOff(c) {
      forall amount ensures 0 <= Discount(Some(c), amount) <= Max(amount, 0) {
        if amount > 0 && c.Percent? {
          ShareIsNatural(amount, c.bps.GetOr(0));
        }
      }
    } else {
      if c.Percent? {
        RoundWhole(c.bps.GetOr(0), 10000);
      }
      assert Discount(Some(c), 10000) < 0;
    }
  }

  /** Within the amount, a fixed coupon takes off its figure and a percentage its share to half a cent. */
  lemma {:induction false} DiscountIsAccurate(amount: nat, figure: nat)
    requires amount > 0
    ensures figure <= amount ==> Discount(Some(Fixed(Some(figure))), amount) == figure
    ensures figure <= 10000 ==>
              var d := Discount(Some(Percent(Some(figure))), amount);
              -5000 < 10000 * d - amount * figure <= 5000
    ensures figure >= 10000 ==> Discount(Some(Percent(Some(figure))), amount) == amount
  {
    RoundBounds(amount * figure, 10000);
    if figure >= 10000 {
      AllIsDiscounted(amount, figure);
    } else {
      MulMonotone(amount, figure, 10000);
      RoundMonotone(amount * figure, amount * 10000, 10000);
      RoundWhole(amount, 10000);
    }
  }

  /** Whatever the coupon does, nothing on the invoice is negative, and the total is the net with its tax. */
  lemma {:induction false} TotalsAreNatural(sum: int, coupon: Option<Coupon>, rate: nat)
    ensures var t := TotalsOf(sum, coupon, rate);
            && 0 <= t.subtotal && 0 <= t.tax
            && t.total == Round(t.subtotal * (10000 + rate), 10000)
    ensures coupon.None? || TakesOff(coupon.value) ==>
              var t := TotalsOf(sum, coupon, rate);
              t.discount + t.subtotal == Max(sum, 0)
  {
    var t := TotalsOf(sum, coupon, rate);
    if t.subtotal > 0 {
      ShareIsNatural(t.subtotal, rate);
    }
    assert t.subtotal * (10000 + rate) == t.subtotal * rate + t.subtotal * 10000;
    RoundShift(t.subtotal * rate, t.subtotal, 10000);
    if t.subtotal == 0 {
      RoundWhole(0, 10000);
    }
    if coupon.Some? && TakesOff(coupon.value) {
      DiscountWithinAmountExactlyWhen(coupon.value);
    }
  }

  /**
   * What an invoice comes to, for every sum of lines, figure and rate. A fixed coupon leaves the sum
   * less its figure, or nothing; a percentage leaves its complement to half a cent, and nothing from
   * 100 percent on; without a coupon the sum stands. The tax is the rate's share of what is left, to
   * half a cent, and the total is the two together.
   */
  lemma {:induction false} CouponsComeOffTheTotal(sum: int, figure: nat, rate: nat)
    ensures TotalsOf(sum, None, rate).subtotal == (if sum > 0 then sum else 0)
    ensures TotalsOf(sum, Some(Fixed(Some(figure))), rate).subtotal == (if sum > figure then sum - figure else 0)
    ensures figure >= 10000 ==> TotalsOf(sum, Some(Percent(Some(figure))), rate).subtotal == 0
    ensures sum > 0 && figure < 10000 ==>
              -5000 <= 10000 * TotalsOf(sum, Some(Percent(Some(figure))), rate).subtotal - sum * (10000 - figure) < 5000
    ensures forall c :: c == Fixed(None) || c == Percent(None) ==> TotalsOf(sum, Some(c), rate) == TotalsOf(sum, None, rate)
    ensures sum <= 0 ==> forall coupon :: TotalsOf(sum, coupon, rate) == Totals(0, 0, 0, 0)
  {
    if sum > 0 {
      DiscountIsAccurate(sum, figure);
      RoundWhole(0, 10000);
      ShareIsNatural(sum, figure);
      assert sum * (10000 - figure) == sum * 10000 - sum * figure;
    }
  }

  lemma {:induction false} TaxIsItsShare(sum: int, coupon: Option<Coupon>, rate: nat)
    ensures var t := TotalsOf(sum, coupon, rate);
            && -5000 < 10000 * t.tax - t.subtotal * rate <= 5000
            && t.total == t.subtotal + t.tax
            && t.discount == Discount(coupon, sum)
  {
    var t := TotalsOf(sum, coupon, rate);
    RoundBounds(t.subtotal * rate, 10000);
  }

  /** More to discount never leaves less to pay, not even with a coupon that adds. */
  lemma {:induction false} NetRises(a: int, b: int, coupon: Option<Coupon>)
    requires a <= b
    ensures Max(a - Discount(coupon, a), 0) <= Max(b - Discount(coupon, b), 0)
  {
    if coupon.Some? && coupon.value.Percent? && 0 < a {
      var bps := coupon.value.bps.GetOr(0);
      if bps >= 10000 {
        AllIsDiscounted(a, bps);
        AllIsDiscounted(b, bps);
      } else {
        MulMonotone(b - a, bps, 10000);
        assert b * bps == a * bps + (b - a) * bps;
        RoundMonotone(b * bps, a * bps + (b - a) * 10000, 10000);
        RoundShift(a * bps, b - a, 10000);
      }
    }
  }

  lemma {:induction false} AllIsDiscounted(amount: int, bps: int)
    requires amount > 0 && bps >= 10000
    ensures Discount(Some(Percent(Some(bps))), amount) == amount
  {
    MulMonotone(amount, 10000, bps);
    RoundMonotone(amount * 10000, amount * bps, 10000);
    RoundWhole(amount, 10000);
  }

  /** Under a fixed coupon and rate, a larger line-item sum never lowers the total. */
  lemma {:induction false} TotalRisesWithTheLines(a: int, b: int, coupon: Option<Coupon>, rate: nat)
    requires a <= b
    ensures TotalsOf(a, coupon, rate).total <= TotalsOf(b, coupon, rate).total
  {
    NetRises(a, b, coupon);
    TotalsAreNatural(a, coupon, rate);
    TotalsAreNatural(b, coupon, rate);
    var m, n := TotalsOf(a, coupon, rate).subtotal, TotalsOf(b, coupon, rate).subtotal;
    MulMonotone(10000 + rate, m, n);
    RoundMonotone(m * (10000 + rate), n * (10000 + rate), 10000);
  }

  // ----- The payment request -----

  datatype Item = Item(quantity: int, price: int)

  function Charged(items: seq<Item>): int {
    if items == [] then 0 else items[0].quantity * items[0].price + Charged(items[1..])
  }

  function Billable(items: seq<Item>): seq<Item> {
    if items == [] then []
    else (if items[0].quantity > 0 && items[0].price > 0 then [items[0]] else []) + Billable(items[1..])
  }

  /** The items sent to the payment provider: the billable ones, and the tax. */
  function CheckoutItems(items: seq<Item>, tax: int): Option<seq<Item>> {
    var all := Billable(items) + (if tax > 0 then [Item(1, tax)] else []);
    if all == [] then None else Some(all)
  }

  lemma {:induction false} ChargedJoins(a: seq<Item>, b: seq<Item>)
    ensures Charged(a + b) == Charged(a) + Charged(b)
  {
    if a == [] {
      assert a + b == b;
    } else {
      assert (a + b)[1..] == a[1..] + b;
      ChargedJoins(a[1..], b);
    }
  }

  predicate NonNegative(items: seq<Item>) {
    forall i :: 0 <= i < |items| ==> items[i].quantity >= 0 && items[i].price >= 0
  }

  lemma {:induction false} BillableKeepsTheCharge(items: seq<Item>)
    requires NonNegative(items)
    ensures Charged(Billable(items)) == Charged(items) >= 0
    ensures Billable(items) == [] <==> Charged(items) == 0
  {
    if items != [] {
      BillableKeepsTheCharge(items[1..]);
      var i := items[0];
      var kept := if i.quantity > 0 && i.price > 0 then [i] else [];
      ChargedJoins(kept, Billable(items[1..]));
      assert Charged(kept) == i.quantity * i.price by {
        if kept == [i] { assert [i][1..] == []; }
      }
      if kept == [i] { MulMonotone(i.quantity, 1, i.price); }
    }
  }

  /** The provider is asked for the items and the tax to the cent; the request fails only when that is nothing. */
  lemma {:induction false} CheckoutCollectsEverything(items: seq<Item>, tax: nat)
    requires NonNegative(items)
    ensures CheckoutItems(items, tax).None? <==> Charged(items) + tax == 0
    ensures CheckoutItems(items, tax).Some? ==> Charged(CheckoutItems(items, tax).value) == Charged(items) + tax
  {
    BillableKeepsTheCharge(items);
    var extra := if tax > 0 then [Item(1, tax)] else [];
    ChargedJoins(Billable(items), extra);
    assert Charged(extra) == tax by {
      if tax > 0 { assert extra[1..] == []; }
    }
  }

  lemma {:induction false} BillableSplits(items: seq<Item>, i: nat)
    requires i < |items|
    ensures Billable(items[i..])
         == (if items[i].quantity > 0 && items[i].price > 0 then [items[i]] else []) + Billable(items[i + 1..])
  {
    assert items[i..][0] == items[i] && items[i..][1..] == items[i + 1..];
  }

  method StartInvoicePayment(items: seq<Item>, tax: int) returns (request: Option<seq<Item>>)
    ensures request == CheckoutItems(items, tax)
  {
    var sent: seq<Item> := [];
    var i := 0;
    while i < |items|
      invariant 0 <= i <= |items|
      invariant sent + Billable(items[i..]) == Billable(items)
    {
      ghost var kept := if items[i].quantity > 0 && items[i].price > 0 then [items[i]] else [];
      BillableSplits(items, i);
      assert sent + Billable(items[i..]) == sent + kept + Billable(items[i + 1..]);
      if items[i].quantity > 0 && items[i].price > 0 {
        sent := sent + [items[i]];
      }
      i := i + 1;
    }
    assert sent == Billable(items);
    if tax > 0 {
      sent := sent + [Item(1, tax)];
    }
    return if sent == [] then None else Some(sent);
  }

  /** A request for an invoice carries its total, and one with something to pay always goes through. */
  lemma {:induction false} PaymentAsksForTheTotal(sum: int, coupon: Option<Coupon>, rate: nat)
    ensures var t := TotalsOf(sum, coupon, rate);
            var request := CheckoutItems([Item(1, t.subtotal)], t.tax);
            if t.total > 0 then request.Some? && Charged(request.value) == t.total else request.None?
  {
    var t := TotalsOf(sum, coupon, rate);
    TotalsAreNatural(sum, coupon, rate);
    var items := [Item(1, t.subtotal)];
    CheckoutCollectsEverything(items, t.tax);
    assert items[1..] == [];
  }

  // ----- Line items -----

  datatype Metric = Intents | ExecutedActions

  datatype Kind = Overage(metric: Metric) | ProrationCharge | ProrationCredit

  datatype Line = Line(kind: Kind, quantity: int, unit: int, subtotal: int)

  /** The database's unique key, which the services keep for the metric-less kinds too. */
  ghost predicate OnePerKind(lines: seq<Line>) {
    forall i, j :: 0 <= i < j < |lines| ==> lines[i].kind != lines[j].kind
  }

  /** The position of the first line of a kind, or the number of lines. */
  function Find(lines: seq<Line>, kind: Kind): (i: nat)
    ensures i <= |lines|
    ensures i < |lines| ==> lines[i].kind == kind
    ensures forall k :: 0 <= k < i ==> lines[k].kind != kind
  {
    if lines == [] || lines[0].kind == kind then 0 else 1 + Find(lines[1..], kind)
  }

  function Lookup(lines: seq<Line>, kind: Kind): Option<Line> {
    var i := Find(lines, kind);
    if i < |lines| then Some(lines[i]) else None
  }

  /** Updates the line of that kind, or creates it. */
  function Put(lines: seq<Line>, line: Line): seq<Line> {
    var i := Find(lines, line.kind);
    if i < |lines| then lines[i := line] else lines + [line]
  }

  function Drop(lines: seq<Line>, kind: Kind): seq<Line> {
    var i := Find(lines, kind);
    if i < |lines| then lines[..i] + lines[i + 1..] else lines
  }

  function Subtotals(lines: seq<Line>): int {
    if lines == [] then 0 else lines[0].subtotal + Subtotals(lines[1..])
  }

  /** What stands on the invoice under a kind. */
  function Standing(lines: seq<Line>, kind: Kind): int {
    match Lookup(lines, kind)
    case Some(line) => line.subtotal
    case None => 0
  }

  lemma {:induction false} LookupIs(lines: seq<Line>, i: nat)
    requires OnePerKind(lines) && i < |lines|
    ensures Find(lines, lines[i].kind) == i && Lookup(lines, lines[i].kind) == Some(lines[i])
  {
    if Find(lines, lines[i].kind) < i {
      assert false;
    }
  }

  lemma {:induction false} LookupIsNone(lines: seq<Line>, kind: Kind)
    requires forall i :: 0 <= i < |lines| ==> lines[i].kind != kind
    ensures Lookup(lines, kind) == None
  {
  }

  lemma {:induction false} PutLooksUp(lines: seq<Line>, line: Line, kind: Kind)
    requires OnePerKind(lines)
    ensures OnePerKind(Put(lines, line))
    ensures Lookup(Put(lines, line), kind) == if kind == line.kind then Some(line) else Lookup(lines, kind)
  {
    var after, i, f := Put(lines, line), Find(lines, line.kind), Find(lines, kind);
    assert forall k :: 0 <= k < |lines| && k != i ==> after[k] == lines[k] && lines[k].kind != line.kind by {
      forall k | 0 <= k < |lines| && k != i ensures after[k] == lines[k] && lines[k].kind != line.kind {
        LookupIs(lines, k);
      }
    }
    assert OnePerKind(after);
    if kind == line.kind {
      assert after[i] == line;
      LookupIs(after, i);
    } else if f < |lines| {
      LookupIs(after, f);
    } else {
      assert forall k :: 0 <= k < |after| ==> after[k].kind != kind;
      LookupIsNone(after, kind);
    }
  }

  /** The lines after a drop are the others, in order. */
  lemma {:induction false} DroppedAt(lines: seq<Line>, gone: Kind, k: nat)
    requires k < |Drop(lines, gone)|
    ensures var from := if k < Find(lines, gone) then k else k + 1;
            from < |lines| && Drop(lines, gone)[k] == lines[from]
  {
  }

  lemma {:induction false} DropKeepsOnePerKind(lines: seq<Line>, gone: Kind)
    requires OnePerKind(lines)
    ensures OnePerKind(Drop(lines, gone))
    ensures forall k :: 0 <= k < |Drop(lines, gone)| ==> Drop(lines, gone)[k].kind != gone
  {
    var after, i := Drop(lines, gone), Find(lines, gone);
    forall k | 0 <= k < |after| ensures after[k] == lines[if k < i then k else k + 1] && after[k].kind != gone {
      DroppedAt(lines, gone, k);
      LookupIs(lines, if k < i then k else k + 1);
    }
  }

  lemma {:induction false} DropLooksUp(lines: seq<Line>, gone: Kind, kind: Kind)
    requires OnePerKind(lines)
    ensures OnePerKind(Drop(lines, gone))
    ensures Lookup(Drop(lines, gone), kind) == if kind == gone then None else Lookup(lines, kind)
  {
    var after, i, f := Drop(lines, gone), Find(lines, gone), Find(lines, kind);
    DropKeepsOnePerKind(lines, gone);
    if kind == gone {
      LookupIsNone(after, kind);
    } else if f < |lines| {
      var k := if f < i then f else f - 1;
      DroppedAt(lines, gone, k);
      LookupIs(after, k);
    } else {
      forall k | 0 <= k < |after| ensures after[k].kind != kind {
        DroppedAt(lines, gone, k);
      }
      LookupIsNone(after, kind);
    }
  }

  lemma {:induction false} SubtotalsJoin(a: seq<Line>, b: seq<Line>)
    ensures Subtotals(a + b) == Subtotals(a) + Subtotals(b)
  {
    if a == [] {
      assert a + b == b;
    } else {
      assert (a + b)[1..] == a[1..] + b;
      SubtotalsJoin(a[1..], b);
    }
  }

  lemma {:induction false} SubtotalsSplit(lines: seq<Line>, i: nat)
    requires i < |lines|
    ensures Subtotals(lines) == Subtotals(lines[..i]) + lines[i].subtotal + Subtotals(lines[i + 1..])
  {
    assert lines == lines[..i] + lines[i..];
    SubtotalsJoin(lines[..i], lines[i..]);
    assert lines[i..][1..] == lines[i + 1..];
  }

  lemma {:induction false} PutChangesTheSum(lines: seq<Line>, line: Line)
    ensures Subtotals(Put(lines, line)) == Subtotals(lines) - Standing(lines, line.kind) + line.subtotal
  {
    var after, i := Put(lines, line), Find(lines, line.kind);
    if i < |lines| {
      SubtotalsSplit(lines, i);
      SubtotalsSplit(after, i);
      assert after[..i] == lines[..i] && after[i + 1..] == lines[i + 1..];
    } else {
      SubtotalsJoin(lines, [line]);
      assert [line][1..] == [];
    }
  }

  lemma {:induction false} DropChangesTheSum(lines: seq<Line>, kind: Kind)
    ensures Subtotals(Drop(lines, kind)) == Subtotals(lines) - Standing(lines, kind)
  {
    var i := Find(lines, kind);
    if i < |lines| {
      SubtotalsSplit(lines, i);
      SubtotalsJoin(lines[..i], lines[i + 1..]);
    }
  }

  // ----- Overage -----

  predicate Recorded(used: int, limit: Option<int>, unit: Option<int>) {
    limit.Some? && used > limit.value && unit.GetOr(0) != 0
  }

  function OverageLine(metric: Metric, units: int, unit: int): Line {
    Line(Overage(metric), units, unit, units * unit)
  }

  function WithOverage(lines: seq<Line>, metric: Metric, used: int, limit: Option<int>, unit: Option<int>): seq<Line> {
    if Recorded(used, limit, unit) then Put(lines, OverageLine(metric, used - limit.value, unit.value)) else lines
  }

  // ----- Proration -----

  /** One line of the amount, signed; none when there is nothing to record. */
  function WithAmount(lines: seq<Line>, kind: Kind, amount: int, sign: int): seq<Line> {
    if amount > 0 then Put(lines, Line(kind, 1, sign * amount, sign * amount)) else Drop(lines, kind)
  }

  function WithProration(lines: seq<Line>, preview: Option<Preview>): seq<Line> {
    match preview
    case None => lines
    case Some(p) => WithAmount(WithAmount(lines, ProrationCharge, p.charge, 1), ProrationCredit, p.credit, -1)
  }

  function AmountLine(kind: Kind, amount: int, sign: int): Option<Line> {
    if amount > 0 then Some(Line(kind, 1, sign * amount, sign * amount)) else None
  }

  lemma {:induction false} AmountLooksUp(lines: seq<Line>, kind: Kind, amount: int, sign: int, other: Kind)
    requires OnePerKind(lines)
    ensures var after := WithAmount(lines, kind, amount, sign);
            && OnePerKind(after)
            && Lookup(after, other) == if other == kind then AmountLine(kind, amount, sign) else Lookup(lines, other)
  {
    if amount > 0 {
      PutLooksUp(lines, Line(kind, 1, sign * amount, sign * amount), other);
    } else {
      DropLooksUp(lines, kind, other);
    }
  }

  lemma {:induction false} AmountIsStable(lines: seq<Line>, kind: Kind, amount: int, sign: int)
    requires Lookup(lines, kind) == AmountLine(kind, amount, sign)
    ensures WithAmount(lines, kind, amount, sign) == lines
  {
  }

  lemma {:induction false} AmountChangesTheSum(lines: seq<Line>, kind: Kind, amount: int, sign: int)
    ensures Subtotals(WithAmount(lines, kind, amount, sign))
         == Subtotals(lines) - Standing(lines, kind) + sign * Max(amount, 0)
  {
    if amount > 0 {
      PutChangesTheSum(lines, Line(kind, 1, sign * amount, sign * amount));
    } else {
      DropChangesTheSum(lines, kind);
    }
  }

  /** What a recorded proration leaves under each kind. */
  lemma {:induction false} ProrationLooksUp(lines: seq<Line>, p: Preview, kind: Kind)
    requires OnePerKind(lines)
    ensures var after := WithProration(lines, Some(p));
            && OnePerKind(after)
            && Lookup(after, kind) ==
               match kind {
                 case ProrationCharge => AmountLine(ProrationCharge, p.charge, 1)
                 case ProrationCredit => AmountLine(ProrationCredit, p.credit, -1)
                 case Overage(_) => Lookup(lines, kind)
               }
  {
    AmountLooksUp(lines, ProrationCharge, p.charge, 1, kind);
    AmountLooksUp(WithAmount(lines, ProrationCharge, p.charge, 1), ProrationCredit, p.credit, -1, kind);
  }

  /** Recording a proration again changes nothing. */
  lemma {:induction false} ProrationIsRecordedOnce(lines: seq<Line>, preview: Option<Preview>)
    requires OnePerKind(lines)
    ensures WithProration(WithProration(lines, preview), preview) == WithProration(lines, preview)
  {
    if preview.Some? {
      var p := preview.value;
      var after := WithProration(lines, preview);
      ProrationLooksUp(lines, p, ProrationCharge);
      ProrationLooksUp(lines, p, ProrationCredit);
      AmountIsStable(after, ProrationCharge, p.charge, 1);
      AmountIsStable(after, ProrationCredit, p.credit, -1);
    }
  }

  lemma {:induction false} RecordedNet(lines: seq<Line>, p: Preview)
    requires OnePerKind(lines)
    requires p.charge >= 0 && p.credit >= 0 && p.net == p.charge - p.credit
    ensures var after := WithProration(lines, Some(p));
            && Standing(after, ProrationCharge) + Standing(after, ProrationCredit) == p.net
            && Subtotals(after) == Subtotals(lines) - Standing(lines, ProrationCharge) - Standing(lines, ProrationCredit) + p.net
  {
    ProrationLooksUp(lines, p, ProrationCharge);
    ProrationLooksUp(lines, p, ProrationCredit);
    var charged := WithAmount(lines, ProrationCharge, p.charge, 1);
    AmountLooksUp(lines, ProrationCharge, p.charge, 1, ProrationCredit);
    AmountChangesTheSum(lines, ProrationCharge, p.charge, 1);
    AmountChangesTheSum(charged, ProrationCredit, p.credit, -1);
  }

  lemma {:induction false} PreviewsAreNatural(source: Option<Terms>, target: Terms, period: Option<Period>, now: int)
    ensures var p := CalculatePreview(source, target, period, now);
            p.Some? ==> p.value.charge >= 0 && p.value.credit >= 0 && p.value.net == p.value.charge - p.value.credit
  {
    var p := CalculatePreview(source, target, period, now);
    if p.Some? {
      RatioIsNatural(period.value, now);
      var r := RemainingRatio(period.value, now);
      ShareIsNatural(source.value.price.value * 100, r);
      ShareIsNatural(target.price.value * 100, r);
    }
  }

  /**
   * The latest proration replaces the earlier ones: whatever is calculated, and whenever, the two
   * lines together are its net, and the line-item sum moves by that net less what stood before.
   */
  lemma {:induction false} ProrationReplacesTheNet(
    lines: seq<Line>, source: Option<Terms>, target: Terms, period: Option<Period>, now: int)
    requires OnePerKind(lines)
    ensures var p := CalculatePreview(source, target, period, now);
            var after := WithProration(lines, p);
            p.Some? ==>
              && Standing(after, ProrationCharge) + Standing(after, ProrationCredit) == p.value.net
              && Subtotals(after)
                 == Subtotals(lines) - Standing(lines, ProrationCharge) - Standing(lines, ProrationCredit) + p.value.net
  {
    var p := CalculatePreview(source, target, period, now);
    PreviewsAreNatural(source, target, period, now);
    if p.Some? {
      RecordedNet(lines, p.value);
    }
  }

  // ----- The invoice row -----

  /** Who pays: the coupon and rate in force, and whether a payment can be asked for. */
  datatype Payer = Payer(coupon: Option<Coupon>, rate: nat, hasEmail: bool, checkoutEnabled: bool)

  /** The open invoice of one workspace and one month, once something has been recorded on it. */
  class OpenInvoice {
    var issued: bool
    var lines: seq<Line>
    var totals: Totals
    var rate: int
    var request: Option<seq<Item>>

    ghost predicate Valid()
      reads this
    {
      && OnePerKind(lines)
      && (!issued ==> lines == [])
    }

    /** The stored totals are those of the stored lines, and the payment asked for is their total. */
    ghost predicate Synced(payer: Payer)
      reads this
    {
      && totals == TotalsOf(Subtotals(lines), payer.coupon, payer.rate)
      && rate == payer.rate
      && (request.Some? <==> totals.total > 0 && payer.hasEmail && payer.checkoutEnabled)
      && (request.Some? ==> Charged(request.value) == totals.total)
    }

    constructor (defaultRate: nat)
      ensures Valid() && !issued
    {
      issued, lines := false, [];
      totals, rate, request := Totals(0, 0, 0, 0), defaultRate, None;
    }

    method LineSum() returns (sum: int)
      ensures sum == Subtotals(lines)
    {
      sum := 0;
      var i := 0;
      while i < |lines|
        invariant 0 <= i <= |lines|
        invariant sum + Subtotals(lines[i..]) == Subtotals(lines)
      {
        assert lines[i..][1..] == lines[i + 1..];
        sum := sum + lines[i].subtotal;
        i := i + 1;
      }
    }

    /** Recomputes the totals; when the provider cannot be reached the row keeps the earlier ones. */
    method SyncTotals(payer: Payer, reachable: bool) returns (ok: bool)
      modifies this`totals, this`rate, this`request
      ensures ok ==> Synced(payer)
      ensures !ok ==> totals == old(totals) && rate == old(rate) && request == old(request)
      ensures !ok <==>
                && TotalsOf(Subtotals(lines), payer.coupon, payer.rate).total > 0
                && payer.hasEmail && payer.checkoutEnabled
                && !reachable
    {
      var sum := LineSum();
      var t := TotalsOf(sum, payer.coupon, payer.rate);
      PaymentAsksForTheTotal(sum, payer.coupon, payer.rate);
      var payment := None;
      if t.total > 0 && payer.hasEmail && payer.checkoutEnabled {
        payment := StartInvoicePayment([Item(1, t.subtotal)], t.tax);
        if !reachable {
          return false;
        }
      }
      totals, rate, request := t, payer.rate, payment;
      return true;
    }

    method Upsert(line: Line)
      requires Valid() && issued
      modifies this`lines
      ensures Valid() && lines == Put(old(lines), line)
    {
      PutLooksUp(lines, line, line.kind);
      var i := Find(lines, line.kind);
      if i < |lines| {
        lines := lines[i := line];
      } else {
        lines := lines + [line];
      }
    }

    method RecordOverage(metric: Metric, used: int, limit: Option<int>, unit: Option<int>, payer: Payer, reachable: bool)
      returns (ok: bool)
      requires Valid()
      modifies this
      ensures Valid() && lines == WithOverage(old(lines), metric, used, limit, unit)
      ensures issued == (old(issued) || Recorded(used, limit, unit))
      ensures Recorded(used, limit, unit) && ok ==> Synced(payer)
      ensures !Recorded(used, limit, unit) ==> ok && totals == old(totals) && request == old(request)
    {
      if limit.None? || used <= limit.value {
        return true;
      }
      if unit.GetOr(0) == 0 {
        return true;
      }
      issued := true;
      var units := used - limit.value;
      Upsert(Line(Overage(metric), units, unit.value, units * unit.value));
      ok := SyncTotals(payer, reachable);
    }

    method SetAmount(kind: Kind, amount: int, sign: int)
      requires Valid() && issued
      modifies this`lines
      ensures Valid() && lines == WithAmount(old(lines), kind, amount, sign)
    {
      AmountLooksUp(lines, kind, amount, sign, kind);
      var i := Find(lines, kind);
      if amount > 0 {
        Upsert(Line(kind, 1, sign * amount, sign * amount));
      } else if i < |lines| {
        lines := lines[..i] + lines[i + 1..];
      }
    }

    method RecordProration(preview: Option<Preview>, payer: Payer, reachable: bool) returns (ok: bool)
      requires Valid()
      modifies this
      ensures Valid() && lines == WithProration(old(lines), preview)
      ensures issued == (old(issued) || preview.Some?)
      ensures preview.Some? && ok ==> Synced(payer)
      ensures preview.None? ==> ok && totals == old(totals) && request == old(request)
    {
      if preview.None? {
        return true;
      }
      issued := true;
      SetAmount(ProrationCharge, preview.value.charge, 1);
      SetAmount(ProrationCredit, preview.value.credit, -1);
      ok := SyncTotals(payer, reachable);
    }
  }
}
