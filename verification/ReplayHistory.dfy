/**
 Replaying a mixed history: the event table holds the worker's answers and the events of the venue stream, and
 only the former carry a quantity that replay can read.
 */
module ReplayHistory {
  import opened Common
  import opened Orders
  import VenueEvents
  import VenueEventProperties
  import VenueEventRuns
  import Replay

  /**
   The status that replay derives from the type of a venue event, by parts of its name: a partial fill counts as
   filled and a pending cancel as canceled.
   */
  function TypeStatus(body: VenueEvents.Body): OrderStatus {
    if !body.SnapshotBody? then Unknown
    else
      match body.snapshot.status
      case Filled => Filled
      case PartiallyFilled => Filled
      case Rejected => Rejected
      case Canceled => Canceled
      case PendingCancel => Canceled
      case Expired => Expired
      case Accepted => Accepted
      case Submitted => Submitted
      case _ => Unknown
  }

  /** What replay sees of a row: an answer of the worker in full, of a venue event only its type. */
  function PayloadOf(body: VenueEvents.Body): Replay.Payload {
    if body.ReportBody? then
      Replay.WorkerPayload(body.report.status, body.report.filled, body.report.averagePrice, body.report.commission)
    else Replay.VenuePayload(TypeStatus(body))
  }

  /** The rows that were matched to an order, as stored events of the intent. */
  function StoredEvents(table: seq<VenueEvents.Row>): seq<Replay.StoredEvent> {
    if table == [] then []
    else
      var r := table[|table| - 1];
      StoredEvents(table[..|table| - 1])
      + if r.order.None? then [] else [Replay.StoredEvent(r.order, r.event.clientId, PayloadOf(r.event.body))]
  }

  /** The largest magnitude that the worker's own answers report for an order, and zero. */
  function WorkerMagnitude(table: seq<VenueEvents.Row>, o: nat): real {
    if table == [] then 0.0
    else
      var r := table[|table| - 1];
      var rest := WorkerMagnitude(table[..|table| - 1], o);
      if r.order == Some(o) && r.event.body.ReportBody? then Max(rest, Abs(r.event.body.report.filled)) else rest
  }

  lemma {:induction false} PayloadsOneMore(orders: seq<Replay.OrderRow>,
      events: seq<Replay.StoredEvent>, e: Replay.StoredEvent, o: nat)
    ensures Replay.PayloadsOf(orders, events + [e], o) ==
              Replay.PayloadsOf(orders, events, o) + if Replay.FindOrder(orders, e) == Some(o) then [e.payload] else []
  {
    assert (events + [e])[..|events|] == events;
  }

  lemma {:induction false} MaxPayloadOneMore(payloads: seq<Replay.Payload>, p: Replay.Payload)
    ensures Replay.MaxPayload(payloads + [p]) == Max(Replay.MaxPayload(payloads), Replay.FillOf(p))
  {
    assert (payloads + [p])[..|payloads|] == payloads;
  }

  ghost predicate Matched(table: seq<VenueEvents.Row>, n: nat) {
    forall k | 0 <= k < |table| && table[k].order.Some? :: table[k].order.value < n
  }

  /** What replay makes of the rows of an order: the largest magnitude among the worker's answers. */
  lemma {:induction false} ReplayedMagnitude(table: seq<VenueEvents.Row>, orders: seq<Replay.OrderRow>, o: nat)
    requires Matched(table, |orders|)
    ensures Agree(Replay.PayloadsOf(orders, StoredEvents(table), o), table, o)
  {
    if table != [] {
      var n := |table| - 1;
      ReplayedMagnitude(table[..n], orders, o);
      RowPayloads(table, orders, o);
      RowMagnitude(table, Replay.PayloadsOf(orders, StoredEvents(table[..n]), o), o);
    }
  }

  /** The payloads have no legacy fill, and their largest magnitude is that of the worker's answers. */
  ghost predicate Agree(payloads: seq<Replay.Payload>, table: seq<VenueEvents.Row>, o: nat) {
    && (forall k | 0 <= k < |payloads| :: !payloads[k].LegacyFill?)
    && Replay.MaxPayload(payloads) == WorkerMagnitude(table, o) >= 0.0
  }

  /** What the last row adds to the largest magnitude on both sides. */
  lemma {:induction false} RowMagnitude(table: seq<VenueEvents.Row>, before: seq<Replay.Payload>, o: nat)
    requires table != [] && Agree(before, table[..|table| - 1], o)
    ensures var r := table[|table| - 1];
            Agree(if r.order == Some(o) then before + [PayloadOf(r.event.body)] else before, table, o)
  {
    MaxPayloadOneMore(before, PayloadOf(table[|table| - 1].event.body));
  }

  /** The last row adds its payload to its own order. */
  lemma {:induction false} RowPayloads(table: seq<VenueEvents.Row>, orders: seq<Replay.OrderRow>, o: nat)
    requires table != [] && Matched(table, |orders|)
    ensures var n := |table| - 1;
            var before := Replay.PayloadsOf(orders, StoredEvents(table[..n]), o);
            Replay.PayloadsOf(orders, StoredEvents(table), o) ==
              if table[n].order == Some(o) then before + [PayloadOf(table[n].event.body)] else before
  {
    var r := table[|table| - 1];
    var events := StoredEvents(table[..|table| - 1]);
    var before := Replay.PayloadsOf(orders, events, o);
    assert events + [] == events && before + [] == before;
    if r.order.Some? {
      PayloadsOneMore(orders, events, Replay.StoredEvent(r.order, r.event.clientId, PayloadOf(r.event.body)), o);
    }
  }

  /**
   For every history of single venue events and worker answers, in any order and with any repetition: rebuilding
   an order from the stored events gives the largest magnitude that the worker's answers report, so it equals the
   live filled quantity if and only if that magnitude equals the larger of the largest reported quantity and the
   sum of the distinct fills.
   */
  lemma {:induction false} RebuiltEqualsLiveIff(
    s: VenueEvents.State, actions: seq<VenueEventRuns.Action>, before: Replay.State, o: nat)
    requires VenueEventRuns.Fresh(s) && VenueEventRuns.Possible(s, actions) && o < |s.orders|
    requires Replay.Valid(before) && |before.orders| == |s.orders| && before.orders[o].order.requested > 0.0
    ensures var t := VenueEventRuns.Run(s, actions);
            var rebuilt := Replay.Rebuild(before, StoredEvents(t.table));
            && |t.orders| == |s.orders| == |rebuilt.orders|
            && rebuilt.orders[o].order.filled == WorkerMagnitude(t.table, o)
            && (rebuilt.orders[o].order.filled == t.orders[o].order.filled <==>
                  WorkerMagnitude(t.table, o) ==
                    Max(VenueEventProperties.MaxReported(t.table, o), VenueEventProperties.FillSum(t.table, o)))
  {
    var t := VenueEventRuns.Run(s, actions);
    VenueEventRuns.FilledIsMaxOfReportsAndFills(s, actions, o);
    RunMatched(s, actions);
    RebuiltMagnitude(t.table, before, o);
  }

  lemma {:induction false} RebuiltMagnitude(table: seq<VenueEvents.Row>, before: Replay.State, o: nat)
    requires Matched(table, |before.orders|)
    requires Replay.Valid(before) && o < |before.orders| && before.orders[o].order.requested > 0.0
    ensures |Replay.Rebuild(before, StoredEvents(table)).orders| == |before.orders|
    ensures Replay.Rebuild(before, StoredEvents(table)).orders[o].order.filled == WorkerMagnitude(table, o)
  {
    Replay.RebuildIsPerOrder(before, StoredEvents(table), o);
    ReplayedMagnitude(table, before.orders, o);
    Replay.ReplayFilled(Replay.Reset(before.orders[o].order), Replay.PayloadsOf(before.orders, StoredEvents(table), o));
  }

  // ------------------------------------------------------------------ rows name orders that exist

  lemma {:induction false} ProjectedMatched(
    table: seq<VenueEvents.Row>, orders: seq<VenueEvents.OrderState>, events: seq<VenueEvents.Event>)
    ensures Matched(VenueEvents.Projected(table, orders, events).1, |orders|)
  {
    if events != [] {
      ProjectedMatched(table, orders, events[..|events| - 1]);
    }
  }

  lemma {:induction false} StepMatched(s: VenueEvents.State, a: VenueEventRuns.Action)
    requires VenueEventRuns.Enabled(s, a) && Matched(s.table, |s.orders|)
    ensures Matched(VenueEventRuns.Step(s, a).table, |s.orders|)
  {
    if a.One? {
      ProjectedMatched(s.table, s.orders, [a.event]);
    }
  }

  lemma {:induction false} RunMatchedFrom(s: VenueEvents.State, actions: seq<VenueEventRuns.Action>)
    requires VenueEventRuns.Possible(s, actions) && Matched(s.table, |s.orders|)
    ensures var t := VenueEventRuns.Run(s, actions); |t.orders| == |s.orders| && Matched(t.table, |s.orders|)
    decreases |actions|
  {
    if actions != [] {
      StepMatched(s, actions[0]);
      RunMatchedFrom(VenueEventRuns.Step(s, actions[0]), actions[1..]);
    }
  }

  lemma {:induction false} RunMatched(s: VenueEvents.State, actions: seq<VenueEventRuns.Action>)
    requires VenueEventRuns.Fresh(s) && VenueEventRuns.Possible(s, actions)
    ensures Matched(VenueEventRuns.Run(s, actions).table, |s.orders|)
  {
    RunMatchedFrom(s, actions);
  }

  // ------------------------------------------------------------------ when a replayed event ends a leg

  /**
   On an order without a fill, replaying a snapshot of the venue stream ends the leg if and only if the snapshot says
   rejected, canceled, expired or that a cancel is pending; the live stream ends it if and only if it says filled,
   canceled, expired or rejected. So the two differ exactly on filled and on a pending cancel.
   */
  lemma {:induction false} StreamLegsDiffer(order: VenueOrder, mt5: bool, s: Snapshot)
    requires order.filled == 0.0 && order.requested > EPSILON && s.filled <= 0.0
    ensures var replayed, live :=
        Replay.ApplyEvent(order, PayloadOf(VenueEvents.SnapshotBody(s))), OrderEvent(order, mt5, s);
            && (!IsActive(replayed.1) <==> s.status in {Rejected, Canceled, Expired, PendingCancel})
            && (!IsActive(live.1) <==> s.status in {Filled, Rejected, Canceled, Expired})
            && (IsActive(replayed.1) != IsActive(live.1) <==> s.status in {Filled, PendingCancel})
            && replayed.0.filled == 0.0
            && (replayed.0.status == Filled <==> s.status in {Filled, PartiallyFilled})
  {
  }
}
