/** What the projected filled quantity of an order is, over batches and over runs. */
module VenueEventProperties {
  import opened Common
  import opened VenueEvents

  // ------------------------------------------------------------------ what was reported

  /** The cumulative quantity a row reports for an order. */
  function Reported(r: Row, o: nat): real {
    if r.order != Some(o) then 0.0
    else match r.event.body
      case SnapshotBody(s) => s.filled
      case ReportBody(rep) => rep.filled
      case FillBody(_, _, _) => 0.0
  }

  /** The largest cumulative quantity reported for an order, and zero. */
  function MaxReported(table: seq<Row>, o: nat): (m: real)
    ensures m >= 0.0
  {
    if table == [] then 0.0 else Max(MaxReported(table[..|table| - 1], o), Reported(table[|table| - 1], o))
  }

  /** The quantity of all the stored fills of an order. */
  function FillSum(table: seq<Row>, o: nat): real {
    Sum(table, FillQuantity(o))
  }

  /** The largest total a single fill of a batch arrives at, when the batch starts from `base`. */
  function PeakFill(base: real, pending: seq<Row>, o: nat): real {
    if pending == [] then 0.0
    else
      var r := pending[|pending| - 1];
      var rest := PeakFill(base, pending[..|pending| - 1], o);
      if r.order == Some(o) && r.event.body.FillBody? then Max(rest, base + r.event.body.quantity) else rest
  }

  predicate NonNegativeFills(events: seq<Event>) {
    forall k | 0 <= k < |events| && events[k].body.FillBody? :: events[k].body.quantity >= 0.0
  }

  predicate NonNegativeRows(rows: seq<Row>) {
    forall k | 0 <= k < |rows| && rows[k].event.body.FillBody? :: rows[k].event.body.quantity >= 0.0
  }

  lemma {:induction false} MaxReportedAppend(table: seq<Row>, r: Row, o: nat)
    ensures MaxReported(table + [r], o) == Max(MaxReported(table, o), Reported(r, o))
  {
    assert (table + [r])[..|table|] == table;
  }

  lemma {:induction false} MaxReportedConcat(a: seq<Row>, b: seq<Row>, o: nat)
    ensures MaxReported(a + b, o) == Max(MaxReported(a, o), MaxReported(b, o))
  {
    if b == [] {
      assert a + b == a;
    } else {
      var n := |b| - 1;
      assert a + b == (a + b[..n]) + [b[n]];
      MaxReportedAppend(a + b[..n], b[n], o);
      MaxReportedConcat(a, b[..n], o);
    }
  }

  lemma {:induction false} PeakFillAppend(base: real, pending: seq<Row>, r: Row, o: nat)
    ensures PeakFill(base, pending + [r], o) ==
              if r.order == Some(o) && r.event.body.FillBody?
                then Max(PeakFill(base, pending, o), base + r.event.body.quantity)
              else PeakFill(base, pending, o)
  {
    assert (pending + [r])[..|pending|] == pending;
  }

  lemma {:induction false} ProjectedAppend(table: seq<Row>, orders: seq<OrderState>, events: seq<Event>, e: Event)
    ensures var (before, pending) := Projected(table, orders, events);
            var o := Find(orders, e.clientId, e.venueId);
            Projected(table, orders, events + [e]) ==
              if Known(table, e.id) then (before, pending)
              else (if o.None? then before else before[o.value := Applied(table, o.value, before[o.value], e)],
                    pending + [Row(e, o)])
  {
    assert (events + [e])[..|events|] == events;
  }

  /** A batch of one event never fails. */
  lemma {:induction false} OneEvent(s: State, e: Event)
    ensures var o := Find(s.orders, e.clientId, e.venueId);
            Batch(s, [e]) ==
              if Known(s.table, e.id) then s
              else State(s.table + [Row(e, o)],
                         if o.None? then s.orders
                           else s.orders[o.value := Applied(s.table, o.value, s.orders[o.value], e)])
  {
    assert [e] == [] + [e];
    ProjectedAppend(s.table, s.orders, [], e);
    var pending := Projected(s.table, s.orders, [e]).1;
    assert |pending| <= 1;
    assert s.table + [] == s.table;
  }

  // ------------------------------------------------------------------ one batch, exactly

  /**
   After any events of a batch, an order's filled quantity is the largest of what it was, every cumulative
   quantity the batch reports, and every single fill of the batch on top of the fills stored before it.
   */
  lemma {:induction false} BatchFilled(table: seq<Row>, orders: seq<OrderState>, events: seq<Event>, o: nat)
    requires o < |orders| && orders[o].order.filled >= 0.0
    ensures var (after, pending) := Projected(table, orders, events);
            && after[o].order.filled ==
                 Max(orders[o].order.filled, Max(MaxReported(pending, o), PeakFill(FillSum(table, o), pending, o)))
            && after[o].clientId == orders[o].clientId && after[o].order.requested == orders[o].order.requested
            && (NonNegativeFills(events) ==> NonNegativeRows(pending))
  {
    if events != [] {
      var n := |events| - 1;
      var e := events[n];
      var (before, pending) := Projected(table, orders, events[..n]);
      BatchFilled(table, orders, events[..n], o);
      assert events == events[..n] + [e];
      ProjectedAppend(table, orders, events[..n], e);
      if !Known(table, e.id) {
        OneMoreFilled(table, orders[o], before, pending, e, Find(orders, e.clientId, e.venueId), o);
      }
    }
  }

  /** What one more new event of a batch makes of the order. */
  lemma {:induction false} OneMoreFilled(
    table: seq<Row>, was: OrderState, before: seq<OrderState>, pending: seq<Row>, e: Event, found: Option<nat>, o: nat)
    requires o < |before| && was.order.filled >= 0.0 && (found.Some? ==> found.value < |before|)
    requires before[o].order.filled ==
               Max(was.order.filled, Max(MaxReported(pending, o), PeakFill(FillSum(table, o), pending, o)))
    ensures var after := if found.None? then before
                         else before[found.value := Applied(table, found.value, before[found.value], e)];
            var rows := pending + [Row(e, found)];
            && after[o].order.filled ==
                 Max(was.order.filled, Max(MaxReported(rows, o), PeakFill(FillSum(table, o), rows, o)))
            && after[o].clientId == before[o].clientId && after[o].order.requested == before[o].order.requested
  {
    MaxReportedAppend(pending, Row(e, found), o);
    PeakFillAppend(FillSum(table, o), pending, Row(e, found), o);
    if found.Some? {
      AppliedFilled(table, found.value, before[found.value], e);
    }
  }

  /** One event raises the filled quantity of its order to what it reports, or to its fill on top of the stored ones. */
  lemma AppliedFilled(table: seq<Row>, o: nat, row: OrderState, e: Event)
    ensures var after := Applied(table, o, row, e);
            && after.clientId == row.clientId && after.order.requested == row.order.requested
            && (row.order.filled >= 0.0 ==>
                  after.order.filled ==
                    match e.body
                    case SnapshotBody(s) => Max(row.order.filled, s.filled)
                    case ReportBody(r) => Max(row.order.filled, r.filled)
                    case FillBody(q, _, _) => Max(row.order.filled, FillSum(table, o) + q))
  {
  }

  /** No batch ever lowers the filled quantity of an order. */
  lemma {:induction false} FilledNeverDecreases(s: State, events: seq<Event>, o: nat)
    requires o < |s.orders| && s.orders[o].order.filled >= 0.0
    ensures |Batch(s, events).orders| == |s.orders|
    ensures Batch(s, events).orders[o].order.filled >= s.orders[o].order.filled
  {
    BatchFilled(s.table, s.orders, events, o);
  }

  /** The filled quantity is the largest reported quantity or the sum of the distinct fills, whichever is larger. */
  ghost predicate Exact(s: State, o: nat)
    requires o < |s.orders|
  {
    s.orders[o].order.filled == Max(MaxReported(s.table, o), FillSum(s.table, o))
  }

  /** At most one fill of the order in these rows has a quantity. */
  ghost predicate AtMostOneFill(pending: seq<Row>, o: nat) {
    forall j, k | 0 <= j < k < |pending| :: FillQuantity(o)(pending[j]) == 0.0 || FillQuantity(o)(pending[k]) == 0.0
  }

  /** The largest single fill of some rows equals their sum exactly when at most one of them has a quantity. */
  lemma {:induction false} PeakIsSum(base: real, pending: seq<Row>, o: nat)
    requires base >= 0.0 && NonNegativeRows(pending)
    ensures Sum(pending, FillQuantity(o)) >= 0.0
    ensures 0.0 <= PeakFill(base, pending, o) <= base + Sum(pending, FillQuantity(o))
    ensures Max(base, PeakFill(base, pending, o)) == base + Sum(pending, FillQuantity(o)) <==> AtMostOneFill(pending, o)
    ensures Sum(pending, FillQuantity(o)) == 0.0 <==> forall k | 0 <= k < |pending| ::
        FillQuantity(o)(pending[k]) == 0.0
  {
    if pending != [] {
      var n := |pending| - 1;
      PeakIsSum(base, pending[..n], o);
      PeakStep(base, pending[..n], pending[n], o);
      assert pending == pending[..n] + [pending[n]];
    }
  }

  lemma {:induction false} PeakStep(base: real, before: seq<Row>, r: Row, o: nat)
    requires base >= 0.0 && FillQuantity(o)(r) >= 0.0 && NonNegativeRows(before)
    requires r.order == Some(o) && r.event.body.FillBody? ==> r.event.body.quantity >= 0.0
    requires Sum(before, FillQuantity(o)) >= 0.0
    requires 0.0 <= PeakFill(base, before, o) <= base + Sum(before, FillQuantity(o))
    requires Max(base, PeakFill(base, before, o)) == base + Sum(before, FillQuantity(o)) <==> AtMostOneFill(before, o)
    requires Sum(before, FillQuantity(o)) == 0.0 <==> forall k | 0 <= k < |before| :: FillQuantity(o)(before[k]) == 0.0
    ensures var rows := before + [r];
            && Sum(rows, FillQuantity(o)) >= 0.0
            && 0.0 <= PeakFill(base, rows, o) <= base + Sum(rows, FillQuantity(o))
            && (Max(base, PeakFill(base, rows, o)) == base + Sum(rows, FillQuantity(o)) <==> AtMostOneFill(rows, o))
            && (Sum(rows, FillQuantity(o)) == 0.0 <==> forall k | 0 <= k < |rows| :: FillQuantity(o)(rows[k]) == 0.0)
  {
    var rows, q := before + [r], FillQuantity(o)(r);
    SumAppend(before, r, FillQuantity(o));
    PeakFillAppend(base, before, r, o);
    forall k | 0 <= k < |before|
      ensures rows[k] == before[k]
    {
    }
    assert rows[|before|] == r;
    assert AtMostOneFill(rows, o) <==>
        AtMostOneFill(before, o) && (q == 0.0 || forall k | 0 <= k < |before| :: FillQuantity(o)(before[k]) == 0.0) by {
      if AtMostOneFill(before, o) && (q == 0.0 || forall k | 0 <= k < |before| :: FillQuantity(o)(before[k]) == 0.0) {
        forall j, k | 0 <= j < k < |rows|
          ensures FillQuantity(o)(rows[j]) == 0.0 || FillQuantity(o)(rows[k]) == 0.0
        {
          assert rows[j] == before[j];
          assert k < |before| ==> rows[k] == before[k];
        }
      }
      if AtMostOneFill(rows, o) {
        forall j, k | 0 <= j < k < |before|
          ensures FillQuantity(o)(before[j]) == 0.0 || FillQuantity(o)(before[k]) == 0.0
        {
          assert rows[j] == before[j] && rows[k] == before[k];
        }
        if q != 0.0 {
          forall k | 0 <= k < |before|
            ensures FillQuantity(o)(before[k]) == 0.0
          {
            assert rows[k] == before[k];
          }
        }
      }
    }
    if AtMostOneFill(before, o) && q > 0.0 && Sum(before, FillQuantity(o)) == 0.0 {
      assert PeakFill(base, rows, o) >= base + q;
    }
  }

  /**
   From an exact state, a stored batch leads to an exact state if and only if its reports (with earlier
   ones) reach the sum of all fills, or at most one of its new fills of the order has a quantity.
   */
  lemma {:induction false} BatchIsExact(s: State, events: seq<Event>, o: nat)
    requires o < |s.orders| && Exact(s, o) && NonNegativeFills(events)
    requires Distinct(Projected(s.table, s.orders, events).1)
    ensures var t := Batch(s, events);
            && Exact(t, o) <==> MaxReported(t.table, o) >= FillSum(t.table, o)
                                || AtMostOneFill(Projected(s.table, s.orders, events).1, o)
    ensures var t := Batch(s, events);
            MaxReported(t.table, o) <= t.orders[o].order.filled <= Max(MaxReported(t.table, o), FillSum(t.table, o))
  {
    var pending := Projected(s.table, s.orders, events).1;
    BatchFilled(s.table, s.orders, events, o);
    FillSumNonNegative(s.table, o);
    MaxReportedConcat(s.table, pending, o);
    SumConcat(s.table, pending, FillQuantity(o));
    PeakIsSum(FillSum(s.table, o), pending, o);
  }

  lemma {:induction false} FillSumNonNegative(table: seq<Row>, o: nat)
    ensures FillSum(table, o) >= 0.0
  {
    SumNonNegative(table, FillQuantity(o));
  }

  /** Two fills of one order in one batch, where fills lead the reports: only the larger one is counted. */
  lemma {:induction false} FillsOfOneBatchAreLost(s: State, a: Event, b: Event, o: nat)
    requires o < |s.orders| && Exact(s, o) && MaxReported(s.table, o) <= FillSum(s.table, o)
    requires a.body.FillBody? && b.body.FillBody? && a.body.quantity > 0.0 && b.body.quantity > 0.0
    requires a.id != b.id && !Known(s.table, a.id) && !Known(s.table, b.id)
    requires a.clientId == b.clientId != "" && LastIndex(ClientIds(s.orders), a.clientId) == Some(o)
    ensures var t := Batch(s, [a, b]);
            && o < |t.orders|
            && t.orders[o].order.filled == FillSum(s.table, o) + Max(a.body.quantity, b.body.quantity)
            && FillSum(t.table, o) == FillSum(s.table, o) + a.body.quantity + b.body.quantity
  {
    var rows := [Row(a, Some(o)), Row(b, Some(o))];
    TwoPending(s, a, b, o);
    BatchFilled(s.table, s.orders, [a, b], o);
    assert rows == ([] + [rows[0]]) + [rows[1]];
    MaxReportedAppend([], rows[0], o);
    MaxReportedAppend([] + [rows[0]], rows[1], o);
    PeakFillAppend(FillSum(s.table, o), [], rows[0], o);
    PeakFillAppend(FillSum(s.table, o), [] + [rows[0]], rows[1], o);
    TwoRows(s.table, rows[0], rows[1], o);
    FillSumNonNegative(s.table, o);
  }

  lemma {:induction false} TwoRows(table: seq<Row>, a: Row, b: Row, o: nat)
    ensures FillSum(table + [a, b], o) == FillSum(table, o) + FillQuantity(o)(a) + FillQuantity(o)(b)
  {
    assert table + [a, b] == (table + [a]) + [b];
    SumAppend(table, a, FillQuantity(o));
    SumAppend(table + [a], b, FillQuantity(o));
  }

  lemma {:induction false} FoundByClient(orders: seq<OrderState>, e: Event, o: nat)
    requires e.clientId != "" && LastIndex(ClientIds(orders), e.clientId) == Some(o)
    ensures o < |orders| && Find(orders, e.clientId, e.venueId) == Some(o)
  {
  }

  lemma {:induction false} TwoPending(s: State, a: Event, b: Event, o: nat)
    requires a.id != b.id && !Known(s.table, a.id) && !Known(s.table, b.id)
    requires a.clientId == b.clientId != "" && LastIndex(ClientIds(s.orders), a.clientId) == Some(o)
    ensures Projected(s.table, s.orders, [a, b]).1 == [Row(a, Some(o)), Row(b, Some(o))]
    ensures Batch(s, [a, b]).table == s.table + [Row(a, Some(o)), Row(b, Some(o))]
    ensures Batch(s, [a, b]).orders == Projected(s.table, s.orders, [a, b]).0
  {
    FoundByClient(s.orders, a, o);
    FoundByClient(s.orders, b, o);
    ProjectedAppend(s.table, s.orders, [], a);
    ProjectedAppend(s.table, s.orders, [a], b);
    assert [a] == [] + [a] && [a, b] == [a] + [b];
    assert Projected(s.table, s.orders, [a]).1 == [] + [Row(a, Some(o))] == [Row(a, Some(o))];
    assert Distinct([Row(a, Some(o)), Row(b, Some(o))]);
  }

  /** An event id that is new to the table occurs twice among the events. */
  predicate RepeatsNew(table: seq<Row>, events: seq<Event>) {
    exists j, k :: 0 <= j < k < |events| && events[j].id == events[k].id && !Known(table, events[j].id)
  }

  /**
   A batch is stored if and only if no event id that is new to the table occurs twice in it: then all its rows
   are added and all its orders change; otherwise everything stays as before the batch, for all orders.
   */
  lemma {:induction false} BatchIsStoredIff(s: State, events: seq<Event>)
    ensures Distinct(Projected(s.table, s.orders, events).1) <==> !RepeatsNew(s.table, events)
    ensures RepeatsNew(s.table, events) ==> Batch(s, events) == s
    ensures !RepeatsNew(s.table, events) ==>
              && Batch(s, events).table == s.table + Projected(s.table, s.orders, events).1
              && Batch(s, events).orders == Projected(s.table, s.orders, events).0
              && forall e | e in events :: Known(Batch(s, events).table, e.id)
  {
    if RepeatsNew(s.table, events) {
      var j, k :| 0 <= j < k < |events| && events[j].id == events[k].id && !Known(s.table, events[j].id);
      PendingOrder(s.table, s.orders, events, j, k);
    } else {
      PendingDistinct(s.table, s.orders, events);
      StoredAll(s, events);
    }
  }

  lemma {:induction false} StoredAll(s: State, events: seq<Event>)
    requires Distinct(Projected(s.table, s.orders, events).1)
    ensures forall e | e in events :: Known(Batch(s, events).table, e.id)
  {
    var pending, all := Projected(s.table, s.orders, events).1, Batch(s, events).table;
    forall e | e in events
      ensures Known(all, e.id)
    {
      if Known(s.table, e.id) {
        var k :| 0 <= k < |s.table| && s.table[k].event.id == e.id;
        assert all[k].event.id == e.id;
      } else {
        var j :| 0 <= j < |events| && events[j] == e;
        PendingHas(s.table, s.orders, events, j);
        var p :| 0 <= p < |pending| && pending[p].event == e;
        assert all[|s.table| + p].event.id == e.id;
      }
    }
  }

  lemma {:induction false} PendingDistinct(table: seq<Row>, orders: seq<OrderState>, events: seq<Event>)
    requires !RepeatsNew(table, events)
    ensures Distinct(Projected(table, orders, events).1)
    ensures forall r | r in Projected(table, orders, events).1 :: r.event in events && !Known(table, r.event.id)
  {
    if events != [] {
      var n := |events| - 1;
      assert events == events[..n] + [events[n]];
      if RepeatsNew(table, events[..n]) {
        PrefixRepeats(table, events);
      }
      PendingDistinct(table, orders, events[..n]);
      ProjectedAppend(table, orders, events[..n], events[n]);
      LastIsNew(table, events, Projected(table, orders, events[..n]).1);
    }
  }

  lemma {:induction false} PrefixRepeats(table: seq<Row>, events: seq<Event>)
    requires events != [] && RepeatsNew(table, events[..|events| - 1])
    ensures RepeatsNew(table, events)
  {
    var before := events[..|events| - 1];
    var j, k :| 0 <= j < k < |before| && before[j].id == before[k].id && !Known(table, before[j].id);
    assert events[j].id == events[k].id;
  }

  lemma {:induction false} LastIsNew(table: seq<Row>, events: seq<Event>, pending: seq<Row>)
    requires events != [] && !RepeatsNew(table, events)
    requires forall r | r in pending :: r.event in events[..|events| - 1] && !Known(table, r.event.id)
    ensures forall k | 0 <= k < |pending| :: pending[k].event.id != events[|events| - 1].id
  {
    var n := |events| - 1;
    forall k | 0 <= k < |pending|
      ensures pending[k].event.id != events[n].id
    {
      assert pending[k] in pending;
      var j :| 0 <= j < n && events[..n][j] == pending[k].event;
      assert events[j].id == pending[k].event.id;
    }
  }

  lemma {:induction false} PendingHas(table: seq<Row>, orders: seq<OrderState>, events: seq<Event>, j: nat)
    requires j < |events| && !Known(table, events[j].id)
    ensures exists p ::
        0 <= p < |Projected(table, orders, events).1| && Projected(table, orders, events).1[p].event == events[j]
  {
    var n := |events| - 1;
    var before := Projected(table, orders, events[..n]).1;
    var after := Projected(table, orders, events).1;
    if j == n {
      assert after[|after| - 1].event == events[j];
    } else {
      PendingHas(table, orders, events[..n], j);
      var p :| 0 <= p < |before| && before[p].event == events[j];
      assert after[p].event == events[j];
    }
  }

  lemma {:induction false} PendingOrder(table: seq<Row>, orders: seq<OrderState>, events: seq<Event>, j: nat, k: nat)
    requires j < k < |events| && !Known(table, events[j].id) && !Known(table, events[k].id)
    ensures exists p, q :: 0 <= p < q < |Projected(table, orders, events).1|
                           && Projected(table, orders, events).1[p].event == events[j]
                           && Projected(table, orders, events).1[q].event == events[k]
  {
    var n := |events| - 1;
    var before := Projected(table, orders, events[..n]).1;
    var after := Projected(table, orders, events).1;
    if k == n {
      PendingHas(table, orders, events[..n], j);
      var p :| 0 <= p < |before| && before[p].event == events[j];
      assert after[p].event == events[j] && after[|before|].event == events[k];
    } else {
      PendingOrder(table, orders, events[..n], j, k);
      var p, q :| 0 <= p < q < |before| && before[p].event == events[j] && before[q].event == events[k];
      assert after[p].event == events[j] && after[q].event == events[k];
    }
  }
}
