/** Runs of the venue event projector that store one event at a time. */
module VenueEventRuns {
  import opened Common
  import opened Orders
  import opened VenueEvents
  import opened VenueEventProperties

  datatype Action = One(event: Event) | Answered(order: nat, id: string, report: Report)

  predicate Enabled(s: State, a: Action) {
    a.Answered? ==> a.order < |s.orders|
  }

  function Step(s: State, a: Action): (t: State)
    requires Enabled(s, a)
    ensures |t.orders| == |s.orders|
  {
    match a
    case One(e) => Batch(s, [e])
    case Answered(o, id, r) => WorkerReport(s, o, id, r)
  }

  /**
   What identifies an event: fills have a quantity that is not negative, and an answer whose id is known
   was stored with the same content for the same order, because the id is a hash of the content.
   */
  ghost predicate Sound(s: State, a: Action) {
    match a
    case One(e) => e.body.FillBody? ==> e.body.quantity >= 0.0
    case Answered(o, id, r) =>
      Known(s.table, id) ==>
        exists k | 0 <= k < |s.table| ::
          s.table[k].event.id == id && s.table[k].order == Some(o) && s.table[k].event.body == ReportBody(r)
  }

  ghost predicate Possible(s: State, actions: seq<Action>)
    decreases |actions|
  {
    actions == [] ||
    (Enabled(s, actions[0]) && Sound(s, actions[0]) && Possible(Step(s, actions[0]), actions[1..]))
  }

  ghost function Run(s: State, actions: seq<Action>): State
    requires Possible(s, actions)
    decreases |actions|
  {
    if actions == [] then s else Run(Step(s, actions[0]), actions[1..])
  }

  ghost predicate Fresh(s: State) {
    s.table == [] && forall o | 0 <= o < |s.orders| :: s.orders[o].order.filled == 0.0
  }

  ghost predicate AllExact(s: State) {
    forall o | 0 <= o < |s.orders| :: Exact(s, o)
  }

  // ------------------------------------------------------------------ the projected quantity over a run

  lemma {:induction false} OneKeepsExact(s: State, e: Event)
    requires AllExact(s) && Sound(s, One(e))
    ensures AllExact(Batch(s, [e]))
  {
    assert [e][..0] == [];
    forall o | 0 <= o < |s.orders|
      ensures Exact(Batch(s, [e]), o)
    {
      BatchIsExact(s, [e], o);
    }
  }

  lemma {:induction false} ReportedIsCounted(table: seq<Row>, k: nat, o: nat)
    requires k < |table|
    ensures Reported(table[k], o) <= MaxReported(table, o)
  {
    if k < |table| - 1 {
      ReportedIsCounted(table[..|table| - 1], k, o);
    }
  }

  lemma {:induction false} AnswerKeepsExact(s: State, o: nat, id: string, r: Report)
    requires AllExact(s) && o < |s.orders| && Sound(s, Answered(o, id, r))
    ensures AllExact(WorkerReport(s, o, id, r))
  {
    var t := WorkerReport(s, o, id, r);
    var row := Row(Event(id, s.orders[o].clientId, s.orders[o].venueId, ReportBody(r)), Some(o));
    forall p | 0 <= p < |s.orders|
      ensures Exact(t, p)
    {
      assert Exact(s, p);
      if Known(s.table, id) {
        var k :| 0 <= k < |s.table| && s.table[k].event.id == id
          && s.table[k].order == Some(o) && s.table[k].event.body == ReportBody(r);
        ReportedIsCounted(s.table, k, p);
      } else {
        MaxReportedAppend(s.table, row, p);
        SumAppend(s.table, row, FillQuantity(p));
      }
    }
  }

  lemma {:induction false} RunKeepsExact(s: State, actions: seq<Action>)
    requires AllExact(s) && Possible(s, actions)
    ensures AllExact(Run(s, actions)) && |Run(s, actions).orders| == |s.orders|
    decreases |actions|
  {
    if actions != [] {
      match actions[0] {
        case One(e) => OneKeepsExact(s, e);
        case Answered(o, id, r) => AnswerKeepsExact(s, o, id, r);
      }
      RunKeepsExact(Step(s, actions[0]), actions[1..]);
    }
  }

  /**
   With one event at a time, in any order, with any repetition, and with the worker's own answers in
   between, an order's filled quantity is the larger of the largest reported quantity and the sum of the
   distinct fills.
   */
  lemma {:induction false} FilledIsMaxOfReportsAndFills(s: State, actions: seq<Action>, o: nat)
    requires Fresh(s) && Possible(s, actions) && o < |s.orders|
    ensures var t := Run(s, actions);
            |t.orders| == |s.orders|
            && t.orders[o].order.filled == Max(MaxReported(t.table, o), FillSum(t.table, o))
  {
    RunKeepsExact(s, actions);
    assert Exact(Run(s, actions), o);
  }

  lemma {:induction false} AverageOf(
    order: VenueOrder, mt5: bool, before: Totals, quantity: real, price: real,
    commission: real, notional: real, total: real)
    requires notional == before.notional + quantity * price && total == before.quantity + quantity && total > 0.0
    ensures FillEvent(order, mt5, before, quantity, price, commission).0.averagePrice == Some(notional / total)
  {
  }

  /** After a new fill, the average price and the commission are those of all the fills stored for the order. */
  lemma {:induction false} FillAverage(s: State, e: Event, o: nat)
    requires e.body.FillBody? && e.body.quantity > 0.0 && !Known(s.table, e.id)
    requires Find(s.orders, e.clientId, e.venueId) == Some(o)
    ensures var t := Batch(s, [e]);
            && o < |t.orders|
            && Sum(t.table, FillQuantity(o)) > 0.0
            && t.orders[o].order.averagePrice == Some(Sum(t.table, FillNotional(o)) / Sum(t.table, FillQuantity(o)))
            && t.orders[o].order.commission == Sum(t.table, FillCost(o, s.orders[o].mt5))
  {
    OneEvent(s, e);
    TotalsOneMore(s.table, e, o, s.orders[o].mt5);
    AverageOf(s.orders[o].order, s.orders[o].mt5, StoredTotals(s.table, o, s.orders[o].mt5),
              e.body.quantity, e.body.price, e.body.commission,
              Sum(s.table + [Row(e, Some(o))], FillNotional(o)), Sum(s.table + [Row(e, Some(o))], FillQuantity(o)));
  }

  /** What the row of a fill counts. */
  lemma RowCounts(e: Event, o: nat, mt5: bool)
    requires e.body.FillBody? && e.body.quantity > 0.0
    ensures FillQuantity(o)(Row(e, Some(o))) == e.body.quantity
    ensures FillNotional(o)(Row(e, Some(o))) == e.body.quantity * e.body.price
    ensures FillCost(o, mt5)(Row(e, Some(o))) == CommissionCost(mt5, e.body.commission)
  {
    assert Abs(e.body.quantity) == e.body.quantity;
  }

  lemma {:induction false} FillSumNotNegative(table: seq<Row>, o: nat)
    ensures Sum(table, FillQuantity(o)) >= 0.0
  {
    SumNonNegative(table, FillQuantity(o));
  }

  lemma {:induction false} TotalsOneMore(table: seq<Row>, e: Event, o: nat, mt5: bool)
    requires e.body.FillBody? && e.body.quantity > 0.0
    ensures var before, after := StoredTotals(table, o, mt5), StoredTotals(table + [Row(e, Some(o))], o, mt5);
            && after.quantity == before.quantity + e.body.quantity > 0.0
            && after.notional == before.notional + e.body.quantity * e.body.price
            && after.commission == before.commission + CommissionCost(mt5, e.body.commission)
  {
    FillSumNotNegative(table, o);
    RowCounts(e, o, mt5);
    SumAppend(table, Row(e, Some(o)), FillQuantity(o));
    SumAppend(table, Row(e, Some(o)), FillNotional(o));
    SumAppend(table, Row(e, Some(o)), FillCost(o, mt5));
  }

  // ------------------------------------------------------------------ arrival order does not matter

  /** Every event names the client id of a stored order, and its id determines it. */
  predicate Addressed(orders: seq<OrderState>, events: seq<Event>) {
    && (forall k | 0 <= k < |events| ::
          events[k].clientId != "" && LastIndex(ClientIds(orders), events[k].clientId).Some?)
    && (forall j, k | 0 <= j < |events| && 0 <= k < |events| && events[j].id == events[k].id :: events[j] == events[k])
  }

  function RowOf(orders: seq<OrderState>, e: Event): Row {
    Row(e, LastIndex(ClientIds(orders), e.clientId))
  }

  function OneByOne(s: State, events: seq<Event>): State {
    if events == [] then s else Batch(OneByOne(s, events[..|events| - 1]), [events[|events| - 1]])
  }

  /** The table holds exactly the rows of these events, each once. */
  ghost predicate Holds(table: seq<Row>, orders: seq<OrderState>, events: seq<Event>) {
    && (forall j, k | 0 <= j < k < |table| :: table[j].event.id != table[k].event.id)
    && (forall r :: r in table <==> r.event in events && r == RowOf(orders, r.event))
  }

  lemma {:induction false} OneKeepsClients(s: State, e: Event)
    ensures ClientIds(Batch(s, [e]).orders) == ClientIds(s.orders)
    ensures Batch(s, [e]).table ==
              if Known(s.table, e.id) then s.table else s.table + [Row(e, Find(s.orders, e.clientId, e.venueId))]
  {
    OneEvent(s, e);
  }

  lemma {:induction false} HoldsKnown(table: seq<Row>, orders: seq<OrderState>, events: seq<Event>, e: Event)
    requires Holds(table, orders, events) && Addressed(orders, events + [e]) && Known(table, e.id)
    ensures Holds(table, orders, events + [e])
  {
    var all := events + [e];
    var k :| 0 <= k < |table| && table[k].event.id == e.id;
    assert table[k] in table;
    var j :| 0 <= j < |events| && events[j] == table[k].event;
    assert all[j] == events[j] && all[|events|] == e;
    assert forall x :: x in all <==> x in events;
  }

  lemma {:induction false} HoldsNew(table: seq<Row>, orders: seq<OrderState>, events: seq<Event>, e: Event)
    requires Holds(table, orders, events) && !Known(table, e.id)
    ensures Holds(table + [RowOf(orders, e)], orders, events + [e])
  {
    var all, row := events + [e], RowOf(orders, e);
    var rows := table + [row];
    forall r
      ensures r in rows <==> r.event in all && r == RowOf(orders, r.event)
    {
      assert r in rows <==> r in table || r == row;
      assert r.event in all <==> r.event in events || r.event == e;
    }
    forall k | 0 <= k < |table|
      ensures table[k].event.id != row.event.id
    {
    }
  }

  /** The table holds each event once, however often and in whatever order it arrived. */
  lemma {:induction false} TableOfEvents(s: State, events: seq<Event>)
    requires s.table == [] && Addressed(s.orders, events)
    ensures ClientIds(OneByOne(s, events).orders) == ClientIds(s.orders)
    ensures Holds(OneByOne(s, events).table, s.orders, events)
  {
    if events != [] {
      var n := |events| - 1;
      AddressedPrefix(s.orders, events, n);
      TableOfEvents(s, events[..n]);
      LastHolds(s, events, OneByOne(s, events[..n]));
    }
  }

  lemma {:induction false} AddressedPrefix(orders: seq<OrderState>, events: seq<Event>, n: nat)
    requires Addressed(orders, events) && n <= |events|
    ensures Addressed(orders, events[..n])
  {
  }

  lemma {:induction false} LastHolds(s: State, events: seq<Event>, before: State)
    requires events != [] && Addressed(s.orders, events) && before == OneByOne(s, events[..|events| - 1])
    requires ClientIds(before.orders) == ClientIds(s.orders)
    requires Holds(before.table, s.orders, events[..|events| - 1])
    ensures ClientIds(OneByOne(s, events).orders) == ClientIds(s.orders)
    ensures Holds(OneByOne(s, events).table, s.orders, events)
  {
    var n := |events| - 1;
    assert events == events[..n] + [events[n]];
    OneMoreHolds(before, s.orders, events[..n], events[n]);
  }

  lemma {:induction false} OneMoreHolds(before: State, orders: seq<OrderState>, events: seq<Event>, e: Event)
    requires ClientIds(before.orders) == ClientIds(orders) && Addressed(orders, events + [e])
    requires Holds(before.table, orders, events)
    ensures ClientIds(Batch(before, [e]).orders) == ClientIds(orders)
    ensures Holds(Batch(before, [e]).table, orders, events + [e])
  {
    OneKeepsClients(before, e);
    if Known(before.table, e.id) {
      HoldsKnown(before.table, orders, events, e);
    } else {
      HoldsNew(before.table, orders, events, e);
      assert (events + [e])[|events|] == e;
      assert Row(e, Find(before.orders, e.clientId, e.venueId)) == RowOf(orders, e);
    }
  }

  lemma {:induction false} MaxReportedSubset(a: seq<Row>, b: seq<Row>, o: nat)
    requires forall r | r in a :: r in b
    ensures MaxReported(a, o) <= MaxReported(b, o)
  {
    if a != [] {
      var n := |a| - 1;
      assert a[n] in b;
      var k :| 0 <= k < |b| && b[k] == a[n];
      ReportedIsCounted(b, k, o);
      forall r | r in a[..n]
        ensures r in b
      {
        assert r in a;
      }
      MaxReportedSubset(a[..n], b, o);
    }
  }

  /** The same events in another order and with other repetitions give every order the same filled quantity. */
  lemma {:induction false} ArrivalOrderDoesNotMatter(s: State, xs: seq<Event>, ys: seq<Event>, o: nat)
    requires Fresh(s) && o < |s.orders| && Addressed(s.orders, xs) && Addressed(s.orders, ys)
    requires NonNegativeFills(xs) && NonNegativeFills(ys)
    requires forall e :: e in xs <==> e in ys
    ensures |OneByOne(s, xs).orders| == |OneByOne(s, ys).orders| == |s.orders|
    ensures OneByOne(s, xs).orders[o].order.filled == OneByOne(s, ys).orders[o].order.filled
  {
    var a, b := OneByOne(s, xs), OneByOne(s, ys);
    OneByOneExact(s, xs);
    OneByOneExact(s, ys);
    assert Exact(a, o) && Exact(b, o);
    TableOfEvents(s, xs);
    TableOfEvents(s, ys);
    assert forall r :: r in a.table <==> r in b.table;
    MaxReportedSubset(a.table, b.table, o);
    MaxReportedSubset(b.table, a.table, o);
    DistinctPermutation(a.table, b.table);
    SumPermutation(a.table, b.table, FillQuantity(o));
  }

  lemma {:induction false} OneByOneExact(s: State, events: seq<Event>)
    requires Fresh(s) && NonNegativeFills(events)
    ensures AllExact(OneByOne(s, events)) && |OneByOne(s, events).orders| == |s.orders|
  {
    if events != [] {
      OneByOneExact(s, events[..|events| - 1]);
      OneKeepsExact(OneByOne(s, events[..|events| - 1]), events[|events| - 1]);
    }
  }

  // ------------------------------------------------------------------ every event is stored once

  ghost predicate IdsDistinct(table: seq<Row>) {
    forall j, k | 0 <= j < k < |table| :: table[j].event.id != table[k].event.id
  }

  /** The id of the event that an action brings. */
  function IdOf(a: Action): string {
    if a.One? then a.event.id else a.id
  }

  ghost predicate Extends(longer: seq<Row>, table: seq<Row>) {
    |table| <= |longer| && longer[..|table|] == table
  }

  lemma {:induction false} StepKeepsIds(s: State, a: Action)
    requires Enabled(s, a) && IdsDistinct(s.table)
    ensures IdsDistinct(Step(s, a).table) && Extends(Step(s, a).table, s.table) && Known(Step(s, a).table, IdOf(a))
  {
    var row := StepRow(s, a);
    OneRowMore(s.table, row, Step(s, a).table);
  }

  /** An action stores one row with its id, unless the id is known. */
  lemma {:induction false} StepRow(s: State, a: Action) returns (row: Row)
    requires Enabled(s, a)
    ensures row.event.id == IdOf(a)
    ensures Step(s, a).table == if Known(s.table, IdOf(a)) then s.table else s.table + [row]
  {
    match a {
      case One(e) =>
        OneEvent(s, e);
        row := Row(e, Find(s.orders, e.clientId, e.venueId));
      case Answered(o, id, r) =>
        row := Row(Event(id, s.orders[o].clientId, s.orders[o].venueId, ReportBody(r)), Some(o));
    }
  }

  lemma {:induction false} OneRowMore(table: seq<Row>, row: Row, longer: seq<Row>)
    requires IdsDistinct(table) && longer == if Known(table, row.event.id) then table else table + [row]
    ensures IdsDistinct(longer) && Extends(longer, table) && Known(longer, row.event.id)
  {
    if !Known(table, row.event.id) {
      assert longer[|table|] == row;
    }
  }

  /**
   Whatever events and answers arrive, however often and in whatever order: the table never loses a row, and holds
   every id that arrived exactly once.
   */
  lemma {:induction false} EveryEventIsStoredOnce(s: State, actions: seq<Action>)
    requires Possible(s, actions) && IdsDistinct(s.table)
    ensures IdsDistinct(Run(s, actions).table) && Extends(Run(s, actions).table, s.table)
    ensures forall k | 0 <= k < |actions| :: Known(Run(s, actions).table, IdOf(actions[k]))
    decreases |actions|
  {
    if actions != [] {
      var t := Step(s, actions[0]);
      StepKeepsIds(s, actions[0]);
      EveryEventIsStoredOnce(t, actions[1..]);
      ExtendsAgain(s.table, t.table, Run(t, actions[1..]).table, IdOf(actions[0]));
      KnownOfAll(actions, Run(t, actions[1..]).table);
    }
  }

  lemma {:induction false} ExtendsAgain(a: seq<Row>, b: seq<Row>, c: seq<Row>, id: string)
    requires Extends(b, a) && Extends(c, b)
    ensures Extends(c, a) && (Known(b, id) ==> Known(c, id))
  {
    assert c[..|a|] == c[..|b|][..|a|];
    if Known(b, id) {
      var k :| 0 <= k < |b| && b[k].event.id == id;
      assert c[k] == c[..|b|][k];
    }
  }

  lemma {:induction false} KnownOfAll(actions: seq<Action>, table: seq<Row>)
    requires actions != [] && Known(table, IdOf(actions[0]))
    requires forall k | 0 <= k < |actions[1..]| :: Known(table, IdOf(actions[1..][k]))
    ensures forall k | 0 <= k < |actions| :: Known(table, IdOf(actions[k]))
  {
    forall k | 0 < k < |actions|
      ensures Known(table, IdOf(actions[k]))
    {
      assert actions[1..][k - 1] == actions[k];
    }
  }
}
