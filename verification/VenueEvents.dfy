/**
 The venue event projector: events are drained from a queue in batches, deduplicated by event id, stored,
 and folded into the order they concern. A batch is flushed only at its end, so the fills of one batch do
 not see each other, and an event that occurs twice in one batch makes the flush fail.
 */
module VenueEvents {
  import opened Common
  import opened Orders

  /** `ReportBody` is an answer of the gateway that the worker stored as an event of its own. */
  datatype Body =
    | SnapshotBody(snapshot: Snapshot)
    | FillBody(quantity: real, price: real, commission: real)
    | ReportBody(report: Report)

  datatype Event = Event(id: string, clientId: string, venueId: string, body: Body)

  /** A row of the event table, with the order it was matched to. */
  datatype Row = Row(event: Event, order: Option<nat>)

  datatype OrderState = OrderState(clientId: string, venueId: string, mt5: bool, order: VenueOrder, leg: LegStatus)

  datatype State = State(table: seq<Row>, orders: seq<OrderState>)

  // ------------------------------------------------------------------ finding the order

  /** The last position of an id. */
  function LastIndex(ids: seq<string>, id: string): (r: Option<nat>)
    ensures r.Some? ==> r.value < |ids| && ids[r.value] == id && id !in ids[r.value + 1..]
    ensures r.None? ==> id !in ids
  {
    if ids == [] then None
    else if ids[|ids| - 1] == id then Some(|ids| - 1)
    else
      assert ids == ids[..|ids| - 1] + [ids[|ids| - 1]];
      LastIndex(ids[..|ids| - 1], id)
  }

  function ClientIds(orders: seq<OrderState>): (ids: seq<string>)
    ensures |ids| == |orders| && forall i | 0 <= i < |ids| :: ids[i] == orders[i].clientId
  {
    seq(|orders|, i requires 0 <= i < |orders| => orders[i].clientId)
  }

  function VenueIds(orders: seq<OrderState>): (ids: seq<string>)
    ensures |ids| == |orders| && forall i | 0 <= i < |ids| :: ids[i] == orders[i].venueId
  {
    seq(|orders|, i requires 0 <= i < |orders| => orders[i].venueId)
  }

  /** `_find_venue_order`: by client id, else the newest order with the venue's id. */
  function Find(orders: seq<OrderState>, clientId: string, venueId: string): (r: Option<nat>)
    ensures r.Some? ==> r.value < |orders|
  {
    var byClient := if clientId == "" then None else LastIndex(ClientIds(orders), clientId);
    if byClient.Some? then byClient
    else if venueId == "" then None
    else LastIndex(VenueIds(orders), venueId)
  }

  predicate Known(table: seq<Row>, id: string) {
    exists k | 0 <= k < |table| :: table[k].event.id == id
  }

  // ------------------------------------------------------------------ totals of the stored fills

  function FillQuantity(o: nat): Row -> real {
    (r: Row) => if r.order == Some(o) && r.event.body.FillBody? then Abs(r.event.body.quantity) else 0.0
  }

  function FillNotional(o: nat): Row -> real {
    (r: Row) =>
      if r.order == Some(o) && r.event.body.FillBody? then Abs(r.event.body.quantity) * r.event.body.price else 0.0
  }

  function FillCost(o: nat, mt5: bool): Row -> real {
    (r: Row) =>
      if r.order == Some(o) && r.event.body.FillBody? then CommissionCost(mt5, r.event.body.commission) else 0.0
  }

  function StoredTotals(table: seq<Row>, o: nat, mt5: bool): Totals {
    Totals(Sum(table, FillQuantity(o)), Sum(table, FillNotional(o)), Sum(table, FillCost(o, mt5)))
  }

  // ------------------------------------------------------------------ projecting events

  /** The order of an event after it; `table` holds the events of earlier batches only. */
  function Applied(table: seq<Row>, o: nat, row: OrderState, e: Event): OrderState {
    match e.body
    case SnapshotBody(s) =>
      var (order, leg) := OrderEvent(row.order, row.mt5, s);
      row.(venueId := if e.venueId != "" then e.venueId else row.venueId, order := order, leg := leg)
    case FillBody(q, p, c) =>
      var (order, leg) := FillEvent(row.order, row.mt5, StoredTotals(table, o, row.mt5), q, p, c);
      row.(order := order, leg := leg)
    case ReportBody(r) =>
      var (order, leg) := GatewayResult(row.order, row.order.requested, row.mt5, r);
      row.(venueId := if e.venueId != "" then e.venueId else row.venueId, order := order, leg := leg)
  }

  /**
   The orders and the rows to store after some events of a batch. An order is looked up among the stored rows:
   an id that an earlier event of the batch brought is not found yet.
   */
  function Projected(table: seq<Row>, orders: seq<OrderState>, events: seq<Event>): (r: (seq<OrderState>, seq<Row>))
    ensures |r.0| == |orders|
  {
    if events == [] then (orders, [])
    else
      var (before, pending) := Projected(table, orders, events[..|events| - 1]);
      var e := events[|events| - 1];
      if Known(table, e.id) then (before, pending)
      else
        var o := Find(orders, e.clientId, e.venueId);
        (if o.None? then before else before[o.value := Applied(table, o.value, before[o.value], e)],
         pending + [Row(e, o)])
  }

  predicate Distinct(pending: seq<Row>) {
    forall j, k | 0 <= j < k < |pending| :: pending[j].event.id != pending[k].event.id
  }

  /** One batch: stored as a whole, or lost as a whole when two of its new events share an id. */
  function Batch(s: State, events: seq<Event>): State {
    var (orders, pending) := Projected(s.table, s.orders, events);
    if Distinct(pending) then State(s.table + pending, orders) else s
  }

  /** The worker applies an answer in any case, and stores it as an event unless it is known. */
  function WorkerReport(s: State, o: nat, id: string, r: Report): State
    requires o < |s.orders|
  {
    var e := Event(id, s.orders[o].clientId, s.orders[o].venueId, ReportBody(r));
    State(if Known(s.table, id) then s.table else s.table + [Row(e, Some(o))],
          s.orders[o := Applied(s.table, o, s.orders[o], e)])
  }

  function BatchSize(waiting: nat, limit: nat): nat {
    var cap := if limit == 0 then 1 else limit;
    if waiting <= cap then waiting else cap
  }

  /** The batches that successive calls drain from a queue, and what still waits after them. */
  function Drained(queue: seq<Event>, limits: seq<nat>): (seq<seq<Event>>, seq<Event>) {
    if limits == [] then ([], queue)
    else
      var (batches, rest) := Drained(queue, limits[..|limits| - 1]);
      var n := BatchSize(|rest|, limits[|limits| - 1]);
      (batches + [rest[..n]], rest[n..])
  }

  function Flattened(batches: seq<seq<Event>>): seq<Event> {
    if batches == [] then [] else Flattened(batches[..|batches| - 1]) + batches[|batches| - 1]
  }

  /**
   Draining keeps the order of arrival and loses or repeats nothing: the batches one after another, and then
   what still waits, are the queue; each call takes at least one event if there is one, so as many calls as
   events empty the queue.
   */
  lemma {:induction false} QueueIsDrainedInOrder(queue: seq<Event>, limits: seq<nat>)
    ensures var (batches, rest) := Drained(queue, limits);
            && Flattened(batches) + rest == queue
            && |batches| == |limits|
            && (forall k | 0 <= k < |batches| :: |batches[k]| <= if limits[k] == 0 then 1 else limits[k])
            && (rest != [] ==> |rest| + |limits| <= |queue|)
  {
    if limits != [] {
      var n := |limits| - 1;
      QueueIsDrainedInOrder(queue, limits[..n]);
      var (batches, rest) := Drained(queue, limits[..n]);
      var size := BatchSize(|rest|, limits[n]);
      DrainedOnce(queue, limits, batches, rest);
      BatchSizeBounds(|rest|, limits[n]);
      FlattenedOneMore(batches, rest, size);
      var more := batches + [rest[..size]];
      forall k | 0 <= k < |more|
        ensures |more[k]| <= if limits[k] == 0 then 1 else limits[k]
      {
        assert k < n ==> more[k] == batches[k] && limits[..n][k] == limits[k];
      }
    }
  }

  lemma {:induction false} DrainedOnce(
    queue: seq<Event>, limits: seq<nat>, batches: seq<seq<Event>>, rest: seq<Event>)
    requires limits != [] && Drained(queue, limits[..|limits| - 1]) == (batches, rest)
    ensures var size := BatchSize(|rest|, limits[|limits| - 1]);
            Drained(queue, limits) == (batches + [rest[..size]], rest[size..])
  {
  }

  lemma BatchSizeBounds(waiting: nat, limit: nat)
    ensures BatchSize(waiting, limit) <= waiting
    ensures BatchSize(waiting, limit) <= if limit == 0 then 1 else limit
    ensures waiting > 0 ==> BatchSize(waiting, limit) > 0
  {
  }

  lemma {:induction false} FlattenedOneMore(batches: seq<seq<Event>>, rest: seq<Event>, size: nat)
    requires size <= |rest|
    ensures Flattened(batches + [rest[..size]]) + rest[size..] == Flattened(batches) + rest
  {
    assert (batches + [rest[..size]])[..|batches|] == batches;
    assert rest == rest[..size] + rest[size..];
  }

  // ------------------------------------------------------------------ the projector

  class EventProjector {
    var queue: seq<Event>
    var reconciliationRequested: bool
    var table: seq<Row>
    var orders: seq<OrderState>

    function View(): State
      reads this
    {
      State(table, orders)
    }

    constructor (orders: seq<OrderState>)
      ensures View() == State([], orders) && queue == []
    {
      this.queue, this.reconciliationRequested, this.table, this.orders := [], false, [], orders;
    }

    /** Queues an event; one that asks for reconciliation also raises the request. */
    method EnqueueVenueEvent(e: Event, reconciliation: bool)
      modifies this`queue, this`reconciliationRequested
      ensures queue == old(queue) + [e]
      ensures reconciliationRequested <==> old(reconciliationRequested) || reconciliation
    {
      if reconciliation {
        reconciliationRequested := true;
      }
      queue := queue + [e];
    }

    /** Answers a request once. */
    method ConsumeReconciliationRequest() returns (requested: bool)
      modifies this`reconciliationRequested
      ensures requested == old(reconciliationRequested) && !reconciliationRequested
    {
      requested := reconciliationRequested;
      reconciliationRequested := false;
    }

    /** `_projected_fill_totals` */
    method ProjectedFillTotals(o: nat, mt5: bool) returns (t: Totals)
      ensures t == StoredTotals(table, o, mt5)
    {
      var quantity, notional, commission := 0.0, 0.0, 0.0;
      for k := 0 to |table|
        invariant quantity == Sum(table[..k], FillQuantity(o))
        invariant notional == Sum(table[..k], FillNotional(o))
        invariant commission == Sum(table[..k], FillCost(o, mt5))
      {
        assert table[..k + 1] == table[..k] + [table[k]];
        SumAppend(table[..k], table[k], FillQuantity(o));
        SumAppend(table[..k], table[k], FillNotional(o));
        SumAppend(table[..k], table[k], FillCost(o, mt5));
        if table[k].order == Some(o) && table[k].event.body.FillBody? {
          var fill := Abs(table[k].event.body.quantity);
          quantity := quantity + fill;
          notional := notional + fill * table[k].event.body.price;
          commission := commission + CommissionCost(mt5, table[k].event.body.commission);
        }
      }
      assert table[..|table|] == table;
      t := Totals(quantity, notional, commission);
    }

    /** `_project_event`; the rows of the batch wait in `pending` until the flush, `stored` are the flushed orders. */
    method ProjectEvent(e: Event, stored: seq<OrderState>, pending: seq<Row>) returns (pending': seq<Row>)
      requires |stored| == |orders|
      modifies this`orders
      ensures |orders| == old(|orders|)
      ensures var o := Find(stored, e.clientId, e.venueId);
              if Known(table, e.id) then (orders, pending') == (old(orders), pending)
              else
                (orders, pending') ==
                  (if o.None? then old(orders) else old(orders[o.value := Applied(table, o.value, orders[o.value], e)]),
                   pending + [Row(e, o)])
    {
      pending' := pending;
      if !Known(table, e.id) {
        var o := Find(stored, e.clientId, e.venueId);
        pending' := pending + [Row(e, o)];
        if o.Some? {
          var row := orders[o.value];
          match e.body {
            case SnapshotBody(s) =>
              var (order, leg) := OrderEvent(row.order, row.mt5, s);
              row := row.(venueId := if e.venueId != "" then e.venueId else row.venueId, order := order, leg := leg);
            case FillBody(q, p, c) =>
              var before := ProjectedFillTotals(o.value, row.mt5);
              var (order, leg) := FillEvent(row.order, row.mt5, before, q, p, c);
              row := row.(order := order, leg := leg);
            case ReportBody(r) =>
              row := Applied(table, o.value, row, e);
          }
          orders := orders[o.value := row];
        }
      }
    }

    /** `project_venue_events_once`: the drained events leave the queue even when the flush fails. */
    method ProjectOnce(limit: nat) returns (inserted: nat)
      modifies this
      ensures var n := BatchSize(|old(queue)|, limit);
              && queue == old(queue)[n..]
              && View() == Batch(old(View()), old(queue)[..n])
              && inserted == |table| - |old(table)|
    {
      var n := BatchSize(|queue|, limit);
      var events, before := queue[..n], orders;
      queue := queue[n..];
      var pending := [];
      for k := 0 to n
        invariant |orders| == |before|
        invariant table == old(table) && queue == old(queue)[n..]
        invariant (orders, pending) == Projected(table, before, events[..k])
      {
        assert events[..k + 1][..k] == events[..k];
        pending := ProjectEvent(events[k], before, pending);
      }
      assert events[..n] == events;
      if Distinct(pending) {
        table := table + pending;
      } else {
        orders := before;
        pending := [];
      }
      inserted := |pending|;
    }
  }
}
