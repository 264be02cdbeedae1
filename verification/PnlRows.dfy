/**
 Realized profit as a sum over the rows of a group: what each execution brought in or cost, by what it did, on
 which leg, in which direction.
 */
module PnlRows {
  import opened Common
  import opened Lifecycle
  import opened Pnl

  /** The leg that the group bought to open. */
  function LongLeg(direction: Direction): Side {
    match direction
    case LongALegShortB => LegA
    case LongBLegShortA => LegB
  }

  predicate Priced(e: Execution) {
    e.quantity > 0.0 && e.price.Some? && e.price.value > 0.0
  }

  function Turnover(e: Execution): real {
    if Priced(e) then e.quantity * e.price.value else 0.0
  }

  /**
   What a row brought in: opening the long leg and closing the short one is bought, the rest is sold; a
   compensation is not counted.
   */
  function Amount(direction: Direction, e: Execution): real {
    match e.action
    case Opens => if e.leg == LongLeg(direction) then -Turnover(e) else Turnover(e)
    case Closes => if e.leg == LongLeg(direction) then Turnover(e) else -Turnover(e)
    case Compensates => 0.0
  }

  /** The amounts of the rows that did one thing on one leg. */
  function AmountOf(direction: Direction, leg: Side, action: Action): Execution -> real {
    (e: Execution) => if e.leg == leg && e.action == action then Amount(direction, e) else 0.0
  }

  function QuantityOf(leg: Side, action: Action): Execution -> real {
    (e: Execution) => if e.leg == leg && e.action == action && Priced(e) then e.quantity else 0.0
  }

  /** Some row priced what was done on a leg. */
  ghost predicate HasPrice(rows: seq<Execution>, leg: Side, action: Action) {
    exists k :: 0 <= k < |rows| && rows[k].leg == leg && rows[k].action == action && Priced(rows[k])
  }

  /** The rows that count: the orders if one of them has a price, else the older ledger. */
  ghost function RowsFor(f: Facts, leg: Side, action: Action): seq<Execution> {
    if HasPrice(f.orders, leg, action) then f.orders else f.ledger
  }

  function ActionOf(closing: bool): (a: Action)
    ensures a.Compensates? <==> false
  {
    if closing then Closes else Opens
  }

  // ------------------------------------------------------------------ the priced quantities, row by row

  lemma {:induction false} SameSums(rows: seq<Execution>, f: Execution -> real, g: Execution -> real)
    requires forall k | 0 <= k < |rows| :: f(rows[k]) == g(rows[k])
    ensures Sum(rows, f) == Sum(rows, g)
  {
    if rows != [] {
      SameSums(rows[..|rows| - 1], f, g);
    }
  }

  lemma {:induction false} PricedIff(rows: seq<Execution>, leg: Side, closing: bool)
    ensures WeightedPrice(rows, leg, closing).Some? <==> HasPrice(rows, leg, ActionOf(closing))
  {
    SomeQuantity(rows, leg, closing);
    if HasPrice(rows, leg, ActionOf(closing)) {
      var k :| 0 <= k < |rows| && rows[k].leg == leg && rows[k].action == ActionOf(closing) && Priced(rows[k]);
      assert Counts(rows[k], leg, closing);
    }
  }

  lemma {:induction false} RowSums(rows: seq<Execution>, leg: Side, closing: bool, direction: Direction)
    ensures Sum(rows, Quantity(leg, closing)) == Sum(rows, QuantityOf(leg, ActionOf(closing)))
    ensures Sum(rows, AmountOf(direction, leg, ActionOf(closing)))
            == if (leg == LongLeg(direction)) == closing then Sum(rows, Notional(leg, closing))
               else -Sum(rows, Notional(leg, closing))
  {
    if rows != [] {
      RowSums(rows[..|rows| - 1], leg, closing, direction);
      RowAmount(rows[|rows| - 1], leg, closing, direction);
    }
  }

  lemma TurnoverIs(e: Execution)
    ensures Priced(e) ==> Value(e) == Turnover(e)
  {
  }

  lemma RowAmount(e: Execution, leg: Side, closing: bool, direction: Direction)
    ensures Quantity(leg, closing)(e) == QuantityOf(leg, ActionOf(closing))(e)
    ensures AmountOf(direction, leg, ActionOf(closing))(e)
            == if (leg == LongLeg(direction)) == closing then Notional(leg, closing)(e) else -Notional(leg, closing)(e)
  {
    TurnoverIs(e);
    assert Counts(e, leg, closing) <==> e.leg == leg && e.action == ActionOf(closing) && Priced(e);
    assert LongLeg(direction) == LegA <==> direction == LongALegShortB;
  }

  lemma {:induction false} PricingRowsAre(f: Facts, leg: Side, closing: bool)
    ensures PricingRows(f, leg, closing) == RowsFor(f, leg, ActionOf(closing))
    ensures LegPrice(f, leg, closing).Some? <==>
              HasPrice(f.orders, leg, ActionOf(closing)) || HasPrice(f.ledger, leg, ActionOf(closing))
  {
    PricedIff(f.orders, leg, closing);
    PricedIff(f.ledger, leg, closing);
  }

  /** There is an entry spread exactly when both legs have a priced opening row, and a close spread from
      closing rows. */
  lemma {:induction false} SpreadIff(f: Facts, direction: Direction)
    ensures Spread(f, direction, false).Some? <==>
              && (HasPrice(f.orders, LegA, Opens) || HasPrice(f.ledger, LegA, Opens))
              && (HasPrice(f.orders, LegB, Opens) || HasPrice(f.ledger, LegB, Opens))
    ensures Spread(f, direction, true).Some? <==>
              && (HasPrice(f.orders, LegA, Closes) || HasPrice(f.ledger, LegA, Closes))
              && (HasPrice(f.orders, LegB, Closes) || HasPrice(f.ledger, LegB, Closes))
  {
    PricingRowsAre(f, LegA, false);
    PricingRowsAre(f, LegB, false);
    PricingRowsAre(f, LegA, true);
    PricingRowsAre(f, LegB, true);
  }

  // ------------------------------------------------------------------ profit

  /** The amounts of all priced rows that count. */
  ghost function Total(f: Facts, direction: Direction): real {
    Sum(RowsFor(f, LegA, Opens), AmountOf(direction, LegA, Opens))
    + Sum(RowsFor(f, LegB, Opens), AmountOf(direction, LegB, Opens))
    + Sum(RowsFor(f, LegA, Closes), AmountOf(direction, LegA, Closes))
    + Sum(RowsFor(f, LegB, Closes), AmountOf(direction, LegB, Closes))
  }

  /** Both legs opened and closed this quantity. */
  ghost predicate Matched(f: Facts, q: real) {
    forall leg, action :: action != Compensates ==> Sum(RowsFor(f, leg, action), QuantityOf(leg, action)) == q
  }

  /** The quantity a group is valued at: that of its first leg, or its own. */
  predicate ValuedAt(g: Group, q: real) {
    q > 0.0 && (if g.legAQuantity != 0.0 then q == g.legAQuantity else q == g.quantity)
  }

  lemma {:induction false} LegAmount(f: Facts, direction: Direction, leg: Side, closing: bool, q: real)
    requires Matched(f, q)
    ensures Pnl.Filled(f, leg, closing) == q
    ensures Signed(direction, leg, closing, Paid(f, leg, closing))
            == Sum(RowsFor(f, leg, ActionOf(closing)), AmountOf(direction, leg, ActionOf(closing)))
  {
    PricingRowsAre(f, leg, closing);
    RowSums(RowsFor(f, leg, ActionOf(closing)), leg, closing, direction);
  }

  lemma {:induction false} TotalIsCashFlow(f: Facts, direction: Direction, q: real)
    requires Matched(f, q)
    ensures Total(f, direction) == CashFlow(f, direction)
    ensures forall leg, closing :: Pnl.Filled(f, leg, closing) == q
  {
    forall leg, closing
      ensures Pnl.Filled(f, leg, closing) == q
    {
      LegAmount(f, direction, leg, closing, q);
    }
    LegAmount(f, direction, LegA, false, q);
    LegAmount(f, direction, LegB, false, q);
    LegAmount(f, direction, LegA, true, q);
    LegAmount(f, direction, LegB, true, q);
  }

  lemma {:induction false} HasPriceIfQuantity(rows: seq<Execution>, leg: Side, action: Action)
    ensures Sum(rows, QuantityOf(leg, action)) > 0.0 ==> HasPrice(rows, leg, action)
  {
    if rows != [] {
      var n := |rows| - 1;
      HasPriceIfQuantity(rows[..n], leg, action);
      if HasPrice(rows[..n], leg, action) {
        var k :| 0 <= k < n && rows[..n][k].leg == leg && rows[..n][k].action == action && Priced(rows[..n][k]);
        assert rows[k] == rows[..n][k];
      }
    }
  }

  /** What the fees of a group are: charges of the orders, and only without orders the costs in the ledger. */
  function Charge(e: Execution): real {
    if e.commission > 0.0 then e.commission else 0.0
  }

  function LedgerCharge(e: Execution): real {
    if e.mt5 && e.commission < 0.0 then -e.commission else Charge(e)
  }

  function Charges(f: Facts): real {
    if f.orders != [] then Sum(f.orders, Charge) else Sum(f.ledger, LedgerCharge)
  }

  lemma {:induction false} FeesAreCharges(f: Facts)
    ensures Fees(f) == Charges(f) >= 0.0
  {
    FeesNonNegative(f);
    SameSums(f.orders, OrderFee, Charge);
    SameSums(f.ledger, LedgerFee, LedgerCharge);
  }

  /** When both legs opened and closed the group quantity, the profit is what all rows brought in, less the charges. */
  lemma {:induction false} ProfitIsSumOfRows(g: Group, f: Facts, q: real)
    requires ValuedAt(g, q) && Matched(f, q)
    ensures Realized(g, f) == Some(Total(f, g.direction) - Charges(f))
  {
    TotalIsCashFlow(f, g.direction, q);
    MatchedHasPrices(f, q);
    SpreadIff(f, g.direction);
    FeesAreCharges(f);
    MatchedProfitIsCashFlow(g, f);
  }

  lemma {:induction false} MatchedHasPrices(f: Facts, q: real)
    requires Matched(f, q) && q > 0.0
    ensures forall leg, action | action != Compensates ::
              HasPrice(f.orders, leg, action) || HasPrice(f.ledger, leg, action)
  {
    forall leg, action | action != Compensates
      ensures HasPrice(f.orders, leg, action) || HasPrice(f.ledger, leg, action)
    {
      HasPriceIfQuantity(RowsFor(f, leg, action), leg, action);
    }
  }

  // ------------------------------------------------------------------ groups priced by their orders alone

  /** What an order brought in, less its charge. */
  function Net(direction: Direction): Execution -> real {
    (e: Execution) => Amount(direction, e) - Charge(e)
  }

  lemma NetOf(e: Execution, direction: Direction)
    ensures Net(direction)(e) ==
              AmountOf(direction, LegA, Opens)(e) + AmountOf(direction, LegB, Opens)(e)
              + AmountOf(direction, LegA, Closes)(e) + AmountOf(direction, LegB, Closes)(e) - Charge(e)
  {
  }

  lemma {:induction false} NetSum(rows: seq<Execution>, direction: Direction)
    ensures Sum(rows, Net(direction)) ==
              Sum(rows, AmountOf(direction, LegA, Opens)) + Sum(rows, AmountOf(direction, LegB, Opens))
              + Sum(rows, AmountOf(direction, LegA, Closes)) + Sum(rows, AmountOf(direction, LegB, Closes))
              - Sum(rows, Charge)
  {
    if rows != [] {
      NetSum(rows[..|rows| - 1], direction);
      NetOf(rows[|rows| - 1], direction);
    }
  }

  /** When the orders alone opened and closed the group quantity on both legs, the profit is their net sum. */
  lemma {:induction false} OrdersNetProfit(g: Group, f: Facts, q: real)
    requires ValuedAt(g, q)
    requires forall leg, action :: action != Compensates ==> Sum(f.orders, QuantityOf(leg, action)) == q
    ensures Realized(g, f) == Some(Sum(f.orders, Net(g.direction)))
  {
    forall leg, action | action != Compensates
      ensures HasPrice(f.orders, leg, action)
    {
      HasPriceIfQuantity(f.orders, leg, action);
    }
    assert HasPrice(f.orders, LegA, Opens);
    ProfitIsSumOfRows(g, f, q);
    NetSum(f.orders, g.direction);
  }

  // ------------------------------------------------------------------ what a refresh stores

  /**
   A refresh of a closed group that opened and closed its quantity stores the profit of its rows and their
   charges, no unrealized profit, and the entry spread that gives the opening rows' amounts; nothing else changes.
   A group that is not closed keeps everything.
   */
  lemma {:induction false} RefreshStoresRows(g: Group, f: Facts, q: real) returns (entry: real)
    requires ValuedAt(g, q) && Matched(f, q)
    ensures entry * q == Sum(RowsFor(f, LegA, Opens), AmountOf(g.direction, LegA, Opens))
                         + Sum(RowsFor(f, LegB, Opens), AmountOf(g.direction, LegB, Opens))
    ensures Refreshed(g, f) ==
              if g.status != GroupClosed then g
              else g.(entrySpread := entry, fees := Charges(f), unrealized := 0.0,
                      realized := Total(f, g.direction) - Charges(f))
  {
    ProfitIsSumOfRows(g, f, q);
    FeesAreCharges(f);
    entry := EntryAmounts(f, g.direction, q);
  }

  lemma {:induction false} EntryAmounts(f: Facts, direction: Direction, q: real) returns (entry: real)
    requires Matched(f, q) && Spread(f, direction, false).Some?
    ensures Spread(f, direction, false) == Some(entry)
    ensures entry * q == Sum(RowsFor(f, LegA, Opens), AmountOf(direction, LegA, Opens))
                         + Sum(RowsFor(f, LegB, Opens), AmountOf(direction, LegB, Opens))
  {
    var a, b;
    entry, a, b := SpreadWorth(f, direction, false, q);
    SignedWorth(f, direction, LegA, q, a);
    SignedWorth(f, direction, LegB, q, b);
    EntrySigns(direction, a, b);
  }

  lemma EntrySigns(direction: Direction, a: real, b: real)
    ensures Signed(direction, LegA, false, a) + Signed(direction, LegB, false, b)
            == if direction == LongALegShortB then b - a else a - b
  {
  }

  lemma {:induction false} SignedWorth(f: Facts, direction: Direction, leg: Side, q: real, worth: real)
    requires Matched(f, q) && LegPrice(f, leg, false).Some? && worth == Worth(f, leg, false, q)
    ensures Signed(direction, leg, false, worth) == Sum(RowsFor(f, leg, Opens), AmountOf(direction, leg, Opens))
  {
    LegAmount(f, direction, leg, false, q);
    WorthIsPaid(f, leg, false, q);
  }

  lemma {:induction false} WorthIsPaid(f: Facts, leg: Side, closing: bool, q: real)
    requires LegPrice(f, leg, closing).Some? && Pnl.Filled(f, leg, closing) == q
    ensures Worth(f, leg, closing, q) == Paid(f, leg, closing)
  {
    PaidIsPriceTimesFilled(f, leg, closing);
  }

  /** Without prices on both sides nothing is refreshed. */
  lemma {:induction false} UnpricedIsKept(g: Group, f: Facts, leg: Side, action: Action)
    requires action != Compensates && !HasPrice(f.orders, leg, action) && !HasPrice(f.ledger, leg, action)
    ensures Refreshed(g, f) == g
  {
    SpreadIff(f, g.direction);
  }
}
