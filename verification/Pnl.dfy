/** Realized profit of a hedge group from its fills: weighted prices per leg, entry and close spreads, and fees. */
module Pnl {
  import opened Common
  import opened Orders
  import opened Lifecycle

  datatype Side = LegA | LegB

  datatype Direction = LongALegShortB | LongBLegShortA

  datatype Action = Opens | Closes | Compensates

  /** A venue order of the group, or a fill of the older ledger: what was filled on which leg, and at what price. */
  datatype Execution = Execution(leg: Side, action: Action, quantity: real,
    price: Option<real>, commission: real, mt5: bool)

  /** The venue orders of a group, and its rows in the older ledger, which are used where no order priced a leg. */
  datatype Facts = Facts(orders: seq<Execution>, ledger: seq<Execution>)

  datatype Group = Group(
    status: GroupStatus, direction: Direction, legAQuantity: real, quantity: real,
    entrySpread: real, fees: real, realized: real, unrealized: real)

  // ------------------------------------------------------------------ weighted prices

  predicate Counts(e: Execution, leg: Side, closing: bool) {
    e.leg == leg && e.action == (if closing then Closes else Opens) && e.quantity > 0.0
      && e.price.Some? && e.price.value > 0.0
  }

  function Quantity(leg: Side, closing: bool): Execution -> real {
    (e: Execution) => if Counts(e, leg, closing) then e.quantity else 0.0
  }

  function Notional(leg: Side, closing: bool): Execution -> real {
    (e: Execution) => if Counts(e, leg, closing) then Value(e) else 0.0
  }

  function Value(e: Execution): real
    requires e.price.Some?
  {
    e.quantity * e.price.value
  }

  function WeightedPrice(rows: seq<Execution>, leg: Side, closing: bool): Option<real> {
    var quantity := Sum(rows, Quantity(leg, closing));
    if quantity <= 0.0 then None else Some(Sum(rows, Notional(leg, closing)) / quantity)
  }

  lemma {:induction false} OneMoreRow(rows: seq<Execution>, k: nat, f: Execution -> real)
    requires k < |rows|
    ensures Sum(rows[..k + 1], f) == Sum(rows[..k], f) + f(rows[k])
  {
    assert rows[..k + 1] == rows[..k] + [rows[k]];
    SumAppend(rows[..k], rows[k], f);
  }

  method WeightedExecutionPrice(rows: seq<Execution>, leg: Side, closing: bool) returns (price: Option<real>)
    ensures price == WeightedPrice(rows, leg, closing)
  {
    var quantity, notional := 0.0, 0.0;
    for k := 0 to |rows|
      invariant quantity == Sum(rows[..k], Quantity(leg, closing))
      invariant notional == Sum(rows[..k], Notional(leg, closing))
    {
      OneMoreRow(rows, k, Quantity(leg, closing));
      OneMoreRow(rows, k, Notional(leg, closing));
      if Counts(rows[k], leg, closing) {
        quantity := quantity + rows[k].quantity;
        notional := notional + Value(rows[k]);
      }
    }
    assert rows[..|rows|] == rows;
    price := if quantity <= 0.0 then None else Some(notional / quantity);
  }

  lemma {:induction false} NotionalBounds(rows: seq<Execution>, leg: Side, closing: bool, lo: real, hi: real)
    requires forall k | 0 <= k < |rows| && Counts(rows[k], leg, closing) :: lo <= rows[k].price.value <= hi
    ensures lo * Sum(rows, Quantity(leg, closing))
            <= Sum(rows, Notional(leg, closing)) <= hi * Sum(rows, Quantity(leg, closing))
  {
    RowsBounds(rows, leg, closing, lo, hi);
    ScaledBelow(rows, Quantity(leg, closing), Notional(leg, closing), lo);
    ScaledAbove(rows, Quantity(leg, closing), Notional(leg, closing), hi);
  }

  lemma {:induction false} RowsBounds(rows: seq<Execution>, leg: Side, closing: bool, lo: real, hi: real)
    requires forall k | 0 <= k < |rows| && Counts(rows[k], leg, closing) :: lo <= rows[k].price.value <= hi
    ensures forall k | 0 <= k < |rows| :: Scaled(Quantity(leg, closing), lo)(rows[k]) <= Notional(leg, closing)(rows[k])
    ensures forall k | 0 <= k < |rows| :: Notional(leg, closing)(rows[k]) <= Scaled(Quantity(leg, closing), hi)(rows[k])
  {
    forall k | 0 <= k < |rows|
      ensures Scaled(Quantity(leg, closing), lo)(rows[k]) <= Notional(leg, closing)(rows[k])
      ensures Notional(leg, closing)(rows[k]) <= Scaled(Quantity(leg, closing), hi)(rows[k])
    {
      RowBounds(rows[k], leg, closing, lo, hi);
    }
  }

  lemma {:induction false} ScaledBelow(rows: seq<Execution>, f: Execution -> real, g: Execution -> real, a: real)
    requires forall k | 0 <= k < |rows| :: Scaled(f, a)(rows[k]) <= g(rows[k])
    ensures a * Sum(rows, f) <= Sum(rows, g)
  {
    SumScaled(rows, f, a);
    SumAtMost(rows, Scaled(f, a), g);
  }

  lemma {:induction false} ScaledAbove(rows: seq<Execution>, f: Execution -> real, g: Execution -> real, a: real)
    requires forall k | 0 <= k < |rows| :: g(rows[k]) <= Scaled(f, a)(rows[k])
    ensures Sum(rows, g) <= a * Sum(rows, f)
  {
    SumScaled(rows, f, a);
    SumAtMost(rows, g, Scaled(f, a));
  }

  function Scaled(f: Execution -> real, a: real): Execution -> real {
    (e: Execution) => a * f(e)
  }

  lemma {:induction false} SumScaled(rows: seq<Execution>, f: Execution -> real, a: real)
    ensures Sum(rows, Scaled(f, a)) == a * Sum(rows, f)
  {
    if rows != [] {
      var n := |rows| - 1;
      SumScaled(rows[..n], f, a);
      Distribute(a, Sum(rows[..n], f), f(rows[n]));
    }
  }

  lemma RowBounds(e: Execution, leg: Side, closing: bool, lo: real, hi: real)
    requires Counts(e, leg, closing) ==> lo <= e.price.value <= hi
    ensures Scaled(Quantity(leg, closing), lo)(e) <= Notional(leg, closing)(e) <= Scaled(Quantity(leg, closing), hi)(e)
  {
  }

  lemma Distribute(a: real, x: real, y: real)
    ensures a * (x + y) == a * x + a * y
  {
  }

  /** A leg has a weighted price exactly when it has a priced fill, and it lies between its lowest and highest price. */
  lemma {:induction false} WeightedPriceBounds(rows: seq<Execution>, leg: Side, closing: bool, lo: real, hi: real)
    requires forall k | 0 <= k < |rows| && Counts(rows[k], leg, closing) :: lo <= rows[k].price.value <= hi
    ensures WeightedPrice(rows, leg, closing).Some? <==> exists k :: 0 <= k < |rows| && Counts(rows[k], leg, closing)
    ensures WeightedPrice(rows, leg, closing).Some? ==> lo <= WeightedPrice(rows, leg, closing).value <= hi
  {
    SomeQuantity(rows, leg, closing);
    NotionalBounds(rows, leg, closing, lo, hi);
    var quantity, notional := Sum(rows, Quantity(leg, closing)), Sum(rows, Notional(leg, closing));
    if quantity > 0.0 {
      QuotientBounds(notional, quantity, lo, hi);
    }
  }

  lemma QuotientBounds(n: real, q: real, lo: real, hi: real)
    requires q > 0.0 && lo * q <= n <= hi * q
    ensures lo <= n / q <= hi
  {
    var v := n / q;
    assert v * q == n;
    StrictProduct(v, lo, q);
    StrictProduct(hi, v, q);
  }

  lemma StrictProduct(a: real, b: real, q: real)
    requires q > 0.0
    ensures a < b <==> a * q < b * q
  {
  }

  lemma {:induction false} SomeQuantity(rows: seq<Execution>, leg: Side, closing: bool)
    ensures Sum(rows, Quantity(leg, closing)) >= 0.0
    ensures Sum(rows, Quantity(leg, closing)) > 0.0 <==> exists k :: 0 <= k < |rows| && Counts(rows[k], leg, closing)
  {
    if rows != [] {
      var n := |rows| - 1;
      SomeQuantity(rows[..n], leg, closing);
      if exists k :: 0 <= k < n && Counts(rows[..n][k], leg, closing) {
        var k :| 0 <= k < n && Counts(rows[..n][k], leg, closing);
        assert Counts(rows[k], leg, closing);
      }
      if exists k :: 0 <= k < |rows| && Counts(rows[k], leg, closing) {
        var k :| 0 <= k < |rows| && Counts(rows[k], leg, closing);
        assert k < n ==> Counts(rows[..n][k], leg, closing);
      }
    }
  }

  // ------------------------------------------------------------------ spreads and profit

  function LegPrice(f: Facts, leg: Side, closing: bool): Option<real> {
    var price := WeightedPrice(f.orders, leg, closing);
    if price.Some? then price else WeightedPrice(f.ledger, leg, closing)
  }

  /** The rows that priced a leg. */
  function PricingRows(f: Facts, leg: Side, closing: bool): seq<Execution> {
    if WeightedPrice(f.orders, leg, closing).Some? then f.orders else f.ledger
  }

  function Spread(f: Facts, direction: Direction, closing: bool): Option<real> {
    var a, b := LegPrice(f, LegA, closing), LegPrice(f, LegB, closing);
    if a.None? || b.None? then None
    else Some(if direction.LongALegShortB? then b.value - a.value else a.value - b.value)
  }

  function Fees(f: Facts): real {
    if f.orders != [] then Sum(f.orders, OrderFee) else Sum(f.ledger, LedgerFee)
  }

  function OrderFee(e: Execution): real {
    Max(e.commission, 0.0)
  }

  function LedgerFee(e: Execution): real {
    CommissionCost(e.mt5, e.commission)
  }

  function GroupQuantity(g: Group): real {
    Max(if g.legAQuantity != 0.0 then g.legAQuantity else g.quantity, 0.0)
  }

  function Gross(entry: real, close: real, quantity: real): real {
    (entry - close) * quantity
  }

  /** `projected_pnl` */
  function Projected(entry: real, close: real, quantity: real, fees: real): real {
    Gross(entry, close, Max(quantity, 0.0)) - Max(fees, 0.0)
  }

  function Realized(g: Group, f: Facts): Option<real> {
    var entry, close := Spread(f, g.direction, false), Spread(f, g.direction, true);
    if entry.None? || close.None? then None
    else Some(Projected(entry.value, close.value, GroupQuantity(g), Fees(f)))
  }

  /** The long leg pays when it opens and receives when it closes, the short leg the other way. */
  function Signed(direction: Direction, leg: Side, closing: bool, amount: real): real {
    if (leg.LegA? == direction.LongALegShortB?) == closing then amount else -amount
  }

  function Filled(f: Facts, leg: Side, closing: bool): real {
    Sum(PricingRows(f, leg, closing), Quantity(leg, closing))
  }

  function Paid(f: Facts, leg: Side, closing: bool): real {
    Sum(PricingRows(f, leg, closing), Notional(leg, closing))
  }

  /** The signs of four amounts, leg by leg. */
  function SignedSum(direction: Direction, ao: real, bo: real, ac: real, bc: real): (sum: real)
    ensures sum == if direction.LongALegShortB? then bo - ao - bc + ac else ao - bo - ac + bc
  {
    Signed(direction, LegA, false, ao) + Signed(direction, LegB, false, bo)
    + Signed(direction, LegA, true, ac) + Signed(direction, LegB, true, bc)
  }

  /** The signed cash flow of every fill that priced a leg. */
  function CashFlow(f: Facts, direction: Direction): real {
    SignedSum(direction, Paid(f, LegA, false), Paid(f, LegB, false), Paid(f, LegA, true), Paid(f, LegB, true))
  }

  /** The quantity that a leg's fills lack to the group quantity, at the leg's weighted price. */
  function Lacking(f: Facts, leg: Side, closing: bool, quantity: real): real {
    LegPrice(f, leg, closing).Extract(0.0) * (quantity - Filled(f, leg, closing))
  }

  /** What valuing all legs at the group quantity adds to the cash flow. */
  function Mismatch(f: Facts, direction: Direction, quantity: real): real {
    SignedSum(direction, Lacking(f, LegA, false, quantity), Lacking(f, LegB, false, quantity),
              Lacking(f, LegA, true, quantity), Lacking(f, LegB, true, quantity))
  }

  lemma {:induction false} FeesNonNegative(f: Facts)
    ensures Fees(f) >= 0.0
  {
    SumNonNegative(f.orders, OrderFee);
    SumNonNegative(f.ledger, LedgerFee);
  }

  lemma {:induction false} PaidIsPriceTimesFilled(f: Facts, leg: Side, closing: bool)
    requires LegPrice(f, leg, closing).Some?
    ensures LegPrice(f, leg, closing).value * Filled(f, leg, closing) == Paid(f, leg, closing)
  {
  }

  /** One leg valued at the group quantity is what its fills paid, plus what they lack. */
  lemma {:induction false} LegValue(f: Facts, leg: Side, closing: bool, quantity: real)
    requires LegPrice(f, leg, closing).Some?
    ensures Worth(f, leg, closing, quantity) == Paid(f, leg, closing) + Lacking(f, leg, closing, quantity)
  {
    PaidIsPriceTimesFilled(f, leg, closing);
    Distribute(LegPrice(f, leg, closing).value, Filled(f, leg, closing), quantity - Filled(f, leg, closing));
  }

  /**
   For all fills in either direction: the realized profit is the signed cash flow of every fill, minus the
   fees, plus what the legs' quantities lack to the group quantity at their weighted prices.
   */
  lemma {:induction false} ProfitIsCashFlow(g: Group, f: Facts)
    requires Realized(g, f).Some?
    ensures Realized(g, f).value == CashFlow(f, g.direction) - Fees(f) + Mismatch(f, g.direction, GroupQuantity(g))
  {
    var q := GroupQuantity(g);
    FeesNonNegative(f);
    SpreadsAreCashFlow(f, g.direction, q);
  }

  lemma Minus(a: real, b: real, q: real, x: real, y: real) returns (d: real)
    requires a * q == x && b * q == y
    ensures d == a - b && d * q == x - y
  {
    d := a - b;
  }

  /** A leg at its weighted price and the group quantity. */
  function Worth(f: Facts, leg: Side, closing: bool, quantity: real): real {
    LegPrice(f, leg, closing).Extract(0.0) * quantity
  }

  lemma {:induction false} SpreadWorth(f: Facts, direction: Direction, closing: bool, q: real)
      returns (spread: real, a: real, b: real)
    requires Spread(f, direction, closing).Some?
    ensures Spread(f, direction, closing) == Some(spread)
    ensures a == Worth(f, LegA, closing, q) && b == Worth(f, LegB, closing, q)
    ensures spread * q == if direction.LongALegShortB? then b - a else a - b
  {
    a, b := Worth(f, LegA, closing, q), Worth(f, LegB, closing, q);
    var pa, pb := LegPrice(f, LegA, closing).value, LegPrice(f, LegB, closing).value;
    if direction.LongALegShortB? {
      spread := Minus(pb, pa, q, b, a);
    } else {
      spread := Minus(pa, pb, q, a, b);
    }
  }

  lemma {:induction false} SpreadsAreCashFlow(f: Facts, direction: Direction, q: real)
    requires Spread(f, direction, false).Some? && Spread(f, direction, true).Some?
    ensures Gross(Spread(f, direction, false).value, Spread(f, direction, true).value, q)
            == CashFlow(f, direction) + Mismatch(f, direction, q)
  {
    var entry, a, b := SpreadWorth(f, direction, false, q);
    var close, c, d := SpreadWorth(f, direction, true, q);
    GrossOf(entry, close, q,
      if direction.LongALegShortB? then b - a else a - b, if direction.LongALegShortB? then d - c else c - d);
    WorthIsCashFlow(f, direction, q, a, b, c, d);
  }

  lemma {:induction false} WorthIsCashFlow(f: Facts, direction: Direction, q: real, a: real, b: real, c: real, d: real)
    requires Spread(f, direction, false).Some? && Spread(f, direction, true).Some?
    requires a == Worth(f, LegA, false, q) && b == Worth(f, LegB, false, q)
    requires c == Worth(f, LegA, true, q) && d == Worth(f, LegB, true, q)
    ensures SignedSum(direction, a, b, c, d) == CashFlow(f, direction) + Mismatch(f, direction, q)
  {
    LegValue(f, LegA, false, q);
    LegValue(f, LegB, false, q);
    LegValue(f, LegA, true, q);
    LegValue(f, LegB, true, q);
  }

  lemma GrossOf(entry: real, close: real, q: real, x: real, y: real)
    requires entry * q == x && close * q == y
    ensures Gross(entry, close, q) == x - y
  {
  }

  /** When both legs opened and closed exactly the group quantity, the profit is the cash flow minus the fees. */
  lemma {:induction false} MatchedProfitIsCashFlow(g: Group, f: Facts)
    requires Realized(g, f).Some?
    requires forall leg, closing :: Filled(f, leg, closing) == GroupQuantity(g)
    ensures Realized(g, f).value == CashFlow(f, g.direction) - Fees(f)
  {
    ProfitIsCashFlow(g, f);
    NothingLacking(f, LegA, false, GroupQuantity(g));
    NothingLacking(f, LegB, false, GroupQuantity(g));
    NothingLacking(f, LegA, true, GroupQuantity(g));
    NothingLacking(f, LegB, true, GroupQuantity(g));
    NoMismatch(f, g.direction, GroupQuantity(g));
  }

  lemma {:induction false} NothingLacking(f: Facts, leg: Side, closing: bool, q: real)
    requires Filled(f, leg, closing) == q
    ensures Lacking(f, leg, closing, q) == 0.0
  {
  }

  lemma {:induction false} NoMismatch(f: Facts, direction: Direction, q: real)
    requires Lacking(f, LegA, false, q) == Lacking(f, LegB, false, q)
        == Lacking(f, LegA, true, q) == Lacking(f, LegB, true, q) == 0.0
    ensures Mismatch(f, direction, q) == 0.0
  {
  }

  /**
   A compensating order is not priced: whatever it filled and at whatever price, it changes neither spread, and
   the realized profit only by its own fee.
   */
  lemma {:induction false} CompensationIsNotPriced(g: Group, f: Facts, e: Execution)
    requires e.action.Compensates? && f.orders != []
    ensures var more := f.(orders := f.orders + [e]);
            && Spread(more, g.direction, false) == Spread(f, g.direction, false)
            && Spread(more, g.direction, true) == Spread(f, g.direction, true)
            && (Realized(g, more).Some? <==> Realized(g, f).Some?)
            && (Realized(g, f).Some? ==> Realized(g, more).value == Realized(g, f).value - Max(e.commission, 0.0))
  {
    var more := f.(orders := f.orders + [e]);
    SamePrice(f.orders, e, LegA, false);
    SamePrice(f.orders, e, LegA, true);
    SamePrice(f.orders, e, LegB, false);
    SamePrice(f.orders, e, LegB, true);
    SumAppend(f.orders, e, OrderFee);
    FeesNonNegative(f);
    FeesNonNegative(more);
    OneFeeMore(g, f, more, Max(e.commission, 0.0));
  }

  lemma {:induction false} SamePrice(rows: seq<Execution>, e: Execution, leg: Side, closing: bool)
    requires e.action.Compensates?
    ensures WeightedPrice(rows + [e], leg, closing) == WeightedPrice(rows, leg, closing)
  {
    SumAppend(rows, e, Quantity(leg, closing));
    SumAppend(rows, e, Notional(leg, closing));
  }

  lemma {:induction false} OneFeeMore(g: Group, f: Facts, more: Facts, fee: real)
    requires Spread(more, g.direction, false) == Spread(f, g.direction, false)
    requires Spread(more, g.direction, true) == Spread(f, g.direction, true)
    requires Fees(more) == Fees(f) + fee && Fees(f) >= 0.0 && fee >= 0.0
    ensures Realized(g, more).Some? <==> Realized(g, f).Some?
    ensures Realized(g, f).Some? ==> Realized(g, more).value == Realized(g, f).value - fee
  {
  }

  /** Swapping the direction of a group negates its spreads and its cash flow. */
  lemma {:induction false} DirectionsAreOpposite(f: Facts, closing: bool)
    ensures Spread(f, LongALegShortB, closing).Some? <==> Spread(f, LongBLegShortA, closing).Some?
    ensures Spread(f, LongALegShortB, closing).Some? ==>
              Spread(f, LongALegShortB, closing).value == -Spread(f, LongBLegShortA, closing).value
    ensures CashFlow(f, LongALegShortB) == -CashFlow(f, LongBLegShortA)
  {
  }

  // ------------------------------------------------------------------ refreshing a closed group

  function Refreshed(g: Group, f: Facts): Group {
    if !g.status.GroupClosed? || Realized(g, f).None? then g
    else
      g.(entrySpread := Spread(f, g.direction, false).value, fees := Fees(f),
         realized := Realized(g, f).value, unrealized := 0.0)
  }

  predicate Differs(a: real, b: real) {
    Abs(a - b) > EPSILON
  }

  class HedgeGroup {
    const direction: Direction
    const legAQuantity: real
    const quantity: real
    var status: GroupStatus
    var entrySpread: real
    var fees: real
    var realized: real
    var unrealized: real

    function View(): Group
      reads this
    {
      Group(status, direction, legAQuantity, quantity, entrySpread, fees, realized, unrealized)
    }

    constructor (g: Group)
      ensures View() == g
    {
      direction, legAQuantity, quantity := g.direction, g.legAQuantity, g.quantity;
      status, entrySpread, fees, realized, unrealized := g.status, g.entrySpread, g.fees, g.realized, g.unrealized;
    }

    /** `refresh_closed_group_financials` */
    method Refresh(f: Facts) returns (changed: bool)
      modifies this`entrySpread, this`fees, this`realized, this`unrealized
      ensures View() == Refreshed(old(View()), f)
      ensures changed <==>
                Differs(old(entrySpread), entrySpread) || Differs(old(fees), fees) || Differs(old(realized), realized)
                || Differs(old(unrealized), unrealized)
    {
      if !status.GroupClosed? {
        return false;
      }
      var entry, close := Spread(f, direction, false), Spread(f, direction, true);
      if entry.None? || close.None? {
        return false;
      }
      var total := Fees(f);
      var profit := Projected(entry.value, close.value, if legAQuantity != 0.0 then legAQuantity else quantity, total);
      changed := Differs(entrySpread, entry.value) || Differs(fees, total) || Differs(realized, profit)
              || Abs(unrealized) > EPSILON;
      entrySpread, fees, realized, unrealized := entry.value, total, profit, 0.0;
    }
  }

  /** A second refresh from the same facts changes nothing, so it reports no change. */
  lemma {:induction false} RefreshIsIdempotent(g: Group, f: Facts)
    ensures Refreshed(Refreshed(g, f), f) == Refreshed(g, f)
    ensures g.status.GroupClosed? && Realized(g, f).Some? ==> Realized(Refreshed(g, f), f) == Realized(g, f)
  {
  }
}
