/** What one venue event does to the order it finds: which order that is, and when it ends the order's leg. */
module VenueEventRows {
  import opened Common
  import opened Orders
  import opened OrderEnds
  import opened VenueEvents
  import opened VenueEventProperties

  /** Some order has this id of its own. */
  predicate HasClient(orders: seq<OrderState>, clientId: string) {
    clientId != "" && exists k :: 0 <= k < |orders| && orders[k].clientId == clientId
  }

  predicate HasVenue(orders: seq<OrderState>, venueId: string) {
    venueId != "" && exists k :: 0 <= k < |orders| && orders[k].venueId == venueId
  }

  /**
   An event is matched to the newest order with its client id, and only if no order has it to the newest with the
   venue's id; an id that is not given matches none.
   */
  lemma {:induction false} FoundIs(orders: seq<OrderState>, clientId: string, venueId: string)
    ensures Find(orders, clientId, venueId).Some? <==> HasClient(orders, clientId) || HasVenue(orders, venueId)
    ensures HasClient(orders, clientId) ==>
              var o := Find(orders, clientId, venueId);
              o.Some? && orders[o.value].clientId == clientId
              && forall k | o.value < k < |orders| :: orders[k].clientId != clientId
    ensures !HasClient(orders, clientId) && HasVenue(orders, venueId) ==>
              var o := Find(orders, clientId, venueId);
              o.Some? && orders[o.value].venueId == venueId
              && forall k | o.value < k < |orders| :: orders[k].venueId != venueId
  {
    LastOf(ClientIds(orders), clientId);
    LastOf(VenueIds(orders), venueId);
    if HasClient(orders, clientId) {
      var k :| 0 <= k < |orders| && orders[k].clientId == clientId;
      assert ClientIds(orders)[k] == clientId;
    }
    if HasVenue(orders, venueId) {
      var k :| 0 <= k < |orders| && orders[k].venueId == venueId;
      assert VenueIds(orders)[k] == venueId;
    }
  }

  lemma {:induction false} LastOf(ids: seq<string>, id: string)
    ensures LastIndex(ids, id).Some? <==> id in ids
    ensures LastIndex(ids, id).Some? ==> forall k | LastIndex(ids, id).value < k < |ids| :: ids[k] != id
  {
    var r := LastIndex(ids, id);
    if r.Some? {
      forall k | r.value < k < |ids|
        ensures ids[k] != id
      {
        assert ids[k] in ids[r.value + 1..];
      }
    }
  }

  /**
   A new event about an order, alone in its batch: the order's leg is over if and only if the event says filled, or
   canceled, expired or rejected with nothing filled, or is a fill that reaches the requested quantity; the order
   learns the venue's id; and no other order changes.
   */
  lemma {:induction false} NewEventRows(s: State, e: Event, o: nat)
    requires !Known(s.table, e.id) && Find(s.orders, e.clientId, e.venueId) == Some(o) && !e.body.ReportBody?
    ensures var t := Batch(s, [e]);
            && |t.orders| == |s.orders| && t.table == s.table + [Row(e, Some(o))]
            && (forall p | 0 <= p < |s.orders| && p != o :: t.orders[p] == s.orders[p])
            && t.orders[o].clientId == s.orders[o].clientId && t.orders[o].mt5 == s.orders[o].mt5
            && (e.body.SnapshotBody? ==>
                  && t.orders[o].venueId == (if e.venueId != "" then e.venueId else s.orders[o].venueId)
                  && (!IsActive(t.orders[o].leg) <==>
                        e.body.snapshot.status == Filled
                        || (SaysEnded(e.body.snapshot.status)
                            && s.orders[o].order.filled <= 0.0 && e.body.snapshot.filled <= 0.0)))
            && (e.body.FillBody? ==>
                  && t.orders[o].venueId == s.orders[o].venueId
                  && (!IsActive(t.orders[o].leg) <==>
                        s.orders[o].order.filled >= s.orders[o].order.requested - EPSILON
                        || Sum(s.table, FillQuantity(o)) + e.body.quantity >= s.orders[o].order.requested - EPSILON))
  {
    OneEvent(s, e);
    var row := s.orders[o];
    match e.body {
      case SnapshotBody(snapshot) => EventEndsLegIff(row.order, row.mt5, snapshot);
      case FillBody(q, p, c) => FillEndsLegIff(row.order, row.mt5, StoredTotals(s.table, o, row.mt5), q, p, c);
      case ReportBody(_) =>
    }
  }

  /** An event that matches no order is stored, and changes none; one that is known does nothing. */
  lemma {:induction false} OtherEventRows(s: State, e: Event)
    ensures Known(s.table, e.id) ==> Batch(s, [e]) == s
    ensures !Known(s.table, e.id) && Find(s.orders, e.clientId, e.venueId) == None ==>
              Batch(s, [e]) == State(s.table + [Row(e, None)], s.orders)
  {
    OneEvent(s, e);
  }
}
