/**
 Rebuilding the order, leg and intent projections of an ordinary intent from its stored events: everything
 mutable is reset, the events are applied in order, the intent status is derived from its legs.
 */
module Replay {
  import opened Common
  import opened Orders
  import opened Lifecycle
  import Outbox
  import VenueEvents

  /**
   What an event's payload says at its top level: a worker's answer; a fill of the legacy type, relative to
   the order; or an event of the venue stream, whose order and fill are nested and therefore not seen, so
   that only a status derived from the event type is left.
   */
  datatype Payload =
    | WorkerPayload(status: OrderStatus, filled: real, averagePrice: real, commission: real)
    | LegacyFill(status: OrderStatus, quantity: real, price: real, commission: real)
    | VenuePayload(status: OrderStatus)

  datatype StoredEvent = StoredEvent(order: Option<nat>, clientId: string, payload: Payload)

  datatype OrderRow = OrderRow(leg: nat, clientId: string, order: VenueOrder)

  /** An ordinary intent: what it is, the group status its command remembers, its group's status, legs and orders. */
  datatype State = State(
    kind: Outbox.IntentKind, previous: Option<GroupStatus>, intent: IntentStatus, group: Option<GroupStatus>,
    legs: seq<LegStatus>, orders: seq<OrderRow>)

  predicate Valid(s: State) {
    forall o | 0 <= o < |s.orders| :: s.orders[o].leg < |s.legs|
  }

  function Reset(order: VenueOrder): VenueOrder {
    VenueOrder(order.requested, 0.0, order.requested, Initialized, None, 0.0)
  }

  function OrSome(amount: real, fallback: Option<real>): Option<real> {
    if amount > 0.0 then Some(amount) else fallback
  }

  /** The price of a quantity of which a part had another price. */
  function Average(known: real, part: real, price: real, filled: real): real
    requires filled > 0.0
  {
    (known * part + price * (filled - part)) / filled
  }

  /** The quantity, price and commission part of `_apply_event`. */
  function Amounts(order: VenueOrder, p: Payload): VenueOrder {
    match p
    case WorkerPayload(_, f, price, fee) =>
      var filled := Max(order.filled, Abs(f));
      VenueOrder(order.requested, filled, Max(order.requested - filled, 0.0), order.status,
                 OrSome(price, order.averagePrice), Max(order.commission, fee))
    case LegacyFill(_, q, price, fee) =>
      var filled := Max(order.filled, order.filled + Abs(q));
      var known := order.averagePrice.Extract(0.0);
      var average :=
        if price <= 0.0 then order.averagePrice
        else if known != 0.0 && filled > 0.0 then
          var previous := Max(filled - Abs(q), 0.0);
          Some(Average(known, previous, price, filled))
        else Some(price);
      VenueOrder(order.requested, filled, Max(order.requested - filled, 0.0),
        order.status, average, order.commission + fee)
    case VenuePayload(_) =>
      order.(remaining := Max(order.requested - order.filled, 0.0), commission := Max(order.commission, 0.0))
  }

  /** `_apply_event` */
  function ApplyEvent(order: VenueOrder, p: Payload): (VenueOrder, LegStatus) {
    var row := Amounts(order, p);
    if row.remaining <= EPSILON && row.filled > 0.0 then (row.(status := Filled), LegFilled)
    else if IsFailure(p.status)
      then (row.(status := p.status), if row.filled > 0.0 then LegPartiallyFilled else LegFailed)
    else if row.filled > 0.0 then (row.(status := PartiallyFilled), LegPartiallyFilled)
    else (row.(status := p.status),
          if p.status.Initialized? then LegPlanned else if p.status.Unknown? then LegUnknown else LegSubmitted)
  }

  function ClientIds(orders: seq<OrderRow>): (ids: seq<string>)
    ensures |ids| == |orders| && forall i | 0 <= i < |ids| :: ids[i] == orders[i].clientId
  {
    seq(|orders|, i requires 0 <= i < |orders| => orders[i].clientId)
  }

  function FindOrder(orders: seq<OrderRow>, e: StoredEvent): (r: Option<nat>)
    ensures r.Some? ==> r.value < |orders|
  {
    if e.order.Some? && e.order.value < |orders| then e.order
    else VenueEvents.LastIndex(ClientIds(orders), e.clientId)
  }

  function Cleared(s: State): State {
    s.(legs := seq(|s.legs|, _ => LegPlanned),
       orders := seq(|s.orders|, o requires 0 <= o < |s.orders| => s.orders[o].(order := Reset(s.orders[o].order))))
  }

  function Apply(s: State, e: StoredEvent): (t: State)
    requires Valid(s)
    ensures Valid(t) && |t.orders| == |s.orders| && |t.legs| == |s.legs|
  {
    var found := FindOrder(s.orders, e);
    if found.None? then s
    else
      var o := found.value;
      var (order, leg) := ApplyEvent(s.orders[o].order, e.payload);
      s.(orders := s.orders[o := s.orders[o].(order := order)], legs := s.legs[s.orders[o].leg := leg])
  }

  function Replayed(s: State, events: seq<StoredEvent>): (t: State)
    requires Valid(s)
    ensures Valid(t) && |t.orders| == |s.orders| && |t.legs| == |s.legs|
  {
    if events == [] then s else Apply(Replayed(s, events[..|events| - 1]), events[|events| - 1])
  }

  function IntentStatusOf(legs: seq<LegStatus>): IntentStatus {
    if legs != [] && forall k | 0 <= k < |legs| :: legs[k].LegFilled? then Completed
    else if exists k | 0 <= k < |legs| :: legs[k].LegFailed? then
      (if exists k | 0 <= k < |legs| :: IsActive(legs[k]) then RecoveryRequired else FailedIntent)
    else Running
  }

  /** The group status that legs and fills imply. */
  function GroupStatusOf(
    legs: seq<LegStatus>, orders: seq<OrderRow>, kind: Outbox.IntentKind, previous: Option<GroupStatus>): GroupStatus
  {
    if legs != [] && forall k | 0 <= k < |legs| :: legs[k].LegFilled? then
      (if kind.OpenIntent? then GroupOpen else GroupClosed)
    else if exists k | 0 <= k < |legs| :: legs[k].LegFailed? then
      if (exists o | 0 <= o < |orders| :: orders[o].order.filled > 0.0)
         || (exists k | 0 <= k < |legs| :: IsActive(legs[k])) then GroupManual
      else if kind.OpenIntent? then GroupFailed
      else if previous.Some? && previous.value.GroupOpenPartial? then GroupOpenPartial
      else GroupOpen
    else if kind.OpenIntent? then GroupOpening
    else GroupClosing
  }

  /** `rebuild_intent_projection` for an intent that is not driven by a state machine. */
  function Rebuild(s: State, events: seq<StoredEvent>): State
    requires Valid(s)
  {
    var t := Replayed(Cleared(s), events);
    t.(intent := IntentStatusOf(t.legs),
       group := if t.group.None? then None else Some(GroupStatusOf(t.legs, t.orders, t.kind, t.previous)))
  }

  datatype Refusal = DrivenIntent | NoLegs

  datatype Outcome = Rebuilt(eventCount: nat, orderCount: nat, status: IntentStatus) | Refused(reason: Refusal)

  // ------------------------------------------------------------------ the rebuild

  class Projection {
    const driven: bool
    const kind: Outbox.IntentKind
    const previous: Option<GroupStatus>
    var intent: IntentStatus
    var group: Option<GroupStatus>
    var legs: seq<LegStatus>
    var orders: seq<OrderRow>

    function View(): State
      reads this
    {
      State(kind, previous, intent, group, legs, orders)
    }

    constructor (driven: bool, s: State)
      ensures View() == s && this.driven == driven
    {
      this.driven, kind, previous := driven, s.kind, s.previous;
      intent, group, legs, orders := s.intent, s.group, s.legs, s.orders;
    }

    method ApplyStored(e: StoredEvent)
      requires Valid(View())
      modifies this`orders, this`legs
      ensures View() == Apply(old(View()), e)
    {
      var found := FindOrder(orders, e);
      if found.Some? {
        var o := found.value;
        var (order, status) := ApplyEvent(orders[o].order, e.payload);
        legs := legs[orders[o].leg := status];
        orders := orders[o := orders[o].(order := order)];
      }
    }

    method Clear()
      requires Valid(View())
      modifies this`orders, this`legs
      ensures View() == Cleared(old(View()))
    {
      for l := 0 to |legs|
        invariant |legs| == |old(legs)| && orders == old(orders)
        invariant forall k | 0 <= k < |legs| :: legs[k] == if k < l then LegPlanned else old(legs)[k]
      {
        legs := legs[l := LegPlanned];
      }
      assert legs == Cleared(old(View())).legs;
      for o := 0 to |orders|
        invariant |orders| == |old(orders)| && legs == Cleared(old(View())).legs
        invariant forall k | 0 <= k < |orders| ::
            orders[k] == if k < o then Cleared(old(View())).orders[k] else old(orders)[k]
      {
        orders := orders[o := orders[o].(order := Reset(orders[o].order))];
      }
      assert orders == Cleared(old(View())).orders;
    }

    /** Refuses a driven intent and one without legs before it changes anything. */
    method RebuildProjection(events: seq<StoredEvent>) returns (outcome: Outcome)
      requires Valid(View())
      modifies this`intent, this`group, this`orders, this`legs
      ensures outcome ==
              if driven then Refused(DrivenIntent)
              else if |old(legs)| == 0 then Refused(NoLegs)
              else Rebuilt(|events|, |orders|, intent)
      ensures View() == if outcome.Refused? then old(View()) else Rebuild(old(View()), events)
    {
      if driven {
        return Refused(DrivenIntent);
      }
      if |legs| == 0 {
        return Refused(NoLegs);
      }
      Clear();
      for k := 0 to |events|
        invariant Valid(View())
        invariant View() == Replayed(Cleared(old(View())), events[..k])
      {
        assert events[..k + 1][..k] == events[..k];
        ApplyStored(events[k]);
      }
      assert events[..|events|] == events;
      intent := IntentStatusOf(legs);
      if group.Some? {
        group := Some(GroupStatusOf(legs, orders, kind, previous));
      }
      outcome := Rebuilt(|events|, |orders|, intent);
    }
  }

  // ------------------------------------------------------------------ independence of the prior projection

  /** The same intent with the same links, whatever its mutable projection is. */
  ghost predicate SameFacts(s: State, t: State) {
    && |s.legs| == |t.legs| && |s.orders| == |t.orders|
    && s.kind == t.kind && s.previous == t.previous && (s.group.Some? <==> t.group.Some?)
    && forall o | 0 <= o < |s.orders| ::
         s.orders[o].leg == t.orders[o].leg && s.orders[o].clientId == t.orders[o].clientId
         && s.orders[o].order.requested == t.orders[o].order.requested
  }

  lemma {:induction false} ReplayedKeepsFacts(s: State, events: seq<StoredEvent>)
    requires Valid(s)
    ensures SameFacts(s, Replayed(s, events))
    ensures Replayed(s, events).intent == s.intent && Replayed(s, events).group == s.group
  {
    if events != [] {
      ReplayedKeepsFacts(s, events[..|events| - 1]);
    }
  }

  lemma {:induction false} ReplayedIgnoresIntent(s: State, t: State, events: seq<StoredEvent>)
    requires Valid(s) && t == s.(intent := t.intent, group := t.group)
    ensures Valid(t) && Replayed(t, events) == Replayed(s, events).(intent := t.intent, group := t.group)
  {
    if events != [] {
      ReplayedIgnoresIntent(s, t, events[..|events| - 1]);
    }
  }

  /** The rebuilt projection does not depend on the projection before it; so a second rebuild changes nothing. */
  lemma {:induction false} RebuildIsIndependent(s: State, t: State, events: seq<StoredEvent>)
    requires Valid(s) && Valid(t) && SameFacts(s, t)
    ensures Rebuild(s, events) == Rebuild(t, events)
    ensures Valid(Rebuild(s, events)) && Rebuild(Rebuild(s, events), events) == Rebuild(s, events)
  {
    ClearedIsIndependent(s, t, events);
    ReplayedKeepsFacts(Cleared(s), events);
    ClearedIsIndependent(s, Rebuild(s, events), events);
  }

  lemma {:induction false} ClearedIsIndependent(s: State, t: State, events: seq<StoredEvent>)
    requires Valid(s) && Valid(t) && SameFacts(s, t)
    ensures Rebuild(s, events) == Rebuild(t, events)
  {
    assert Cleared(s).orders == Cleared(t).orders;
    assert Cleared(s).legs == Cleared(t).legs;
    ReplayedIgnoresIntent(Cleared(s), Cleared(t), events);
    ReplayedKeepsFacts(Cleared(s), events);
    ReplayedKeepsFacts(Cleared(t), events);
  }

  // ------------------------------------------------------------------ one order at a time

  /** The payloads of the events that an order receives. */
  function PayloadsOf(orders: seq<OrderRow>, events: seq<StoredEvent>, o: nat): seq<Payload> {
    if events == [] then []
    else
      var e := events[|events| - 1];
      PayloadsOf(orders, events[..|events| - 1], o) + if FindOrder(orders, e) == Some(o) then [e.payload] else []
  }

  function ReplayFold(order: VenueOrder, payloads: seq<Payload>): VenueOrder {
    if payloads == [] then order
    else ApplyEvent(ReplayFold(order, payloads[..|payloads| - 1]), payloads[|payloads| - 1]).0
  }

  /** Each order is the fold of its own events over the reset order. */
  lemma {:induction false} RebuildIsPerOrder(s: State, events: seq<StoredEvent>, o: nat)
    requires Valid(s) && o < |s.orders|
    ensures |Rebuild(s, events).orders| == |s.orders|
    ensures Rebuild(s, events).orders[o].order ==
              ReplayFold(Reset(s.orders[o].order), PayloadsOf(s.orders, events, o))
  {
    ReplayedPerOrder(Cleared(s), events, o);
    SamePayloads(Cleared(s).orders, s.orders, events, o);
  }

  lemma {:induction false} SamePayloads(a: seq<OrderRow>, b: seq<OrderRow>, events: seq<StoredEvent>, o: nat)
    requires |a| == |b| && ClientIds(a) == ClientIds(b)
    ensures PayloadsOf(a, events, o) == PayloadsOf(b, events, o)
  {
    if events != [] {
      SamePayloads(a, b, events[..|events| - 1], o);
    }
  }

  lemma {:induction false} PayloadsOneMore(orders: seq<OrderRow>, events: seq<StoredEvent>, o: nat)
    requires events != []
    ensures var before := PayloadsOf(orders, events[..|events| - 1], o);
            var e := events[|events| - 1];
            PayloadsOf(orders, events, o) == if FindOrder(orders, e) == Some(o) then before + [e.payload] else before
  {
  }

  lemma {:induction false} FoldOneMore(order: VenueOrder, payloads: seq<Payload>, p: Payload)
    ensures ReplayFold(order, payloads + [p]) == ApplyEvent(ReplayFold(order, payloads), p).0
  {
    assert (payloads + [p])[..|payloads|] == payloads;
  }

  lemma {:induction false} AppliedOrder(s: State, e: StoredEvent, o: nat)
    requires Valid(s) && o < |s.orders|
    ensures Apply(s, e).orders[o].order ==
              if FindOrder(s.orders, e) == Some(o) then ApplyEvent(s.orders[o].order, e.payload).0
                else s.orders[o].order
    ensures ClientIds(Apply(s, e).orders) == ClientIds(s.orders)
  {
  }

  lemma {:induction false} ReplayedPerOrder(s: State, events: seq<StoredEvent>, o: nat)
    requires Valid(s) && o < |s.orders|
    ensures Replayed(s, events).orders[o].order == ReplayFold(s.orders[o].order, PayloadsOf(s.orders, events, o))
    ensures ClientIds(Replayed(s, events).orders) == ClientIds(s.orders)
  {
    if events != [] {
      var n := |events| - 1;
      var before, e := Replayed(s, events[..n]), events[n];
      ReplayedPerOrder(s, events[..n], o);
      assert FindOrder(before.orders, e) == FindOrder(s.orders, e);
      AppliedOrder(before, e, o);
      PayloadsOneMore(s.orders, events, o);
      FoldOneMore(s.orders[o].order, PayloadsOf(s.orders, events[..n], o), e.payload);
    }
  }

  // ------------------------------------------------------------------ replay against the live worker

  /** The answers the worker applied: results of the gateway, and submissions that raised. */
  datatype Applied = Result(report: Report) | Raised(outcomeUnknown: bool)

  function PayloadOf(a: Applied): Payload {
    match a
    case Result(r) => WorkerPayload(r.status, r.filled, r.averagePrice, r.commission)
    case Raised(unknown) => WorkerPayload(if unknown then Unknown else Rejected, 0.0, 0.0, 0.0)
  }

  /** The worker's projection of an order after some answers. */
  function Live(order: VenueOrder, mt5: bool, answers: seq<Applied>): VenueOrder {
    if answers == [] then order
    else
      var before := Live(order, mt5, answers[..|answers| - 1]);
      match answers[|answers| - 1]
      case Result(r) => GatewayResult(before, before.requested, mt5, r).0
      case Raised(unknown) => DispatchException(before, unknown).0
  }

  /** The stored events: an answer whose content is already stored adds none. */
  function StoredPayloads(answers: seq<Applied>): seq<Payload> {
    if answers == [] then []
    else
      var before := StoredPayloads(answers[..|answers| - 1]);
      var p := PayloadOf(answers[|answers| - 1]);
      if p in before then before else before + [p]
  }

  function ReportedFill(a: Applied): real {
    if a.Result? then a.report.filled else 0.0
  }

  /** The largest reported quantity, and zero; the largest magnitude of a reported quantity. */
  function MaxFill(answers: seq<Applied>): real {
    if answers == [] then 0.0 else Max(MaxFill(answers[..|answers| - 1]), ReportedFill(answers[|answers| - 1]))
  }

  function MaxMagnitude(answers: seq<Applied>): real {
    if answers == [] then 0.0
      else Max(MaxMagnitude(answers[..|answers| - 1]), Abs(ReportedFill(answers[|answers| - 1])))
  }

  lemma {:induction false} LiveFilled(order: VenueOrder, mt5: bool, answers: seq<Applied>)
    requires order.filled == 0.0 && order.requested > 0.0 && order.remaining == order.requested
    ensures var live := Live(order, mt5, answers);
            live.requested == order.requested && live.filled == MaxFill(answers) && MaxFill(answers) >= 0.0
            && live.remaining == Max(order.requested - live.filled, 0.0)
  {
    if answers != [] {
      LiveFilled(order, mt5, answers[..|answers| - 1]);
    }
  }

  function FillOf(p: Payload): real {
    match p
    case WorkerPayload(_, f, _, _) => Abs(f)
    case LegacyFill(_, _, _, _) => 0.0
    case VenuePayload(_) => 0.0
  }

  function MaxPayload(payloads: seq<Payload>): real {
    if payloads == [] then 0.0 else Max(MaxPayload(payloads[..|payloads| - 1]), FillOf(payloads[|payloads| - 1]))
  }

  lemma {:induction false} ReplayFilled(order: VenueOrder, payloads: seq<Payload>)
    requires order.filled == 0.0 && order.requested > 0.0 && order.remaining == order.requested
    requires forall k | 0 <= k < |payloads| :: !payloads[k].LegacyFill?
    ensures var replayed := ReplayFold(order, payloads);
            replayed.requested == order.requested && replayed.filled == MaxPayload(payloads)
            && replayed.remaining == Max(order.requested - replayed.filled, 0.0)
  {
    if payloads != [] {
      ReplayFilled(order, payloads[..|payloads| - 1]);
    }
  }

  lemma {:induction false} PayloadIsCounted(payloads: seq<Payload>, p: Payload)
    requires p in payloads
    ensures FillOf(p) <= MaxPayload(payloads)
  {
    var n := |payloads| - 1;
    assert payloads == payloads[..n] + [payloads[n]];
    if p in payloads[..n] {
      PayloadIsCounted(payloads[..n], p);
    }
  }

  lemma {:induction false} StoredMagnitude(answers: seq<Applied>)
    ensures MaxPayload(StoredPayloads(answers)) == MaxMagnitude(answers)
    ensures forall k | 0 <= k < |StoredPayloads(answers)| :: StoredPayloads(answers)[k].WorkerPayload?
    ensures MaxMagnitude(answers) >= MaxFill(answers)
  {
    if answers != [] {
      var n := |answers| - 1;
      StoredMagnitude(answers[..n]);
      var before, p := StoredPayloads(answers[..n]), PayloadOf(answers[n]);
      if p in before {
        PayloadIsCounted(before, p);
      } else {
        assert (before + [p])[..|before|] == before;
      }
    }
  }

  /** Some answer reports a negative quantity whose magnitude exceeds every reported quantity. */
  ghost predicate NegativeDominates(answers: seq<Applied>) {
    exists k :: 0 <= k < |answers| && -ReportedFill(answers[k]) > MaxFill(answers)
  }

  lemma {:induction false} MagnitudeIsFill(answers: seq<Applied>)
    ensures MaxFill(answers) >= 0.0
    ensures forall k | 0 <= k < |answers| ::
        ReportedFill(answers[k]) <= MaxFill(answers) && Abs(ReportedFill(answers[k])) <= MaxMagnitude(answers)
    ensures MaxMagnitude(answers) == 0.0 || exists k ::
        0 <= k < |answers| && Abs(ReportedFill(answers[k])) == MaxMagnitude(answers)
  {
    if answers != [] {
      var n := |answers| - 1;
      MagnitudeIsFill(answers[..n]);
      if MaxMagnitude(answers) != 0.0 && MaxMagnitude(answers) != Abs(ReportedFill(answers[n])) {
        var k :| 0 <= k < n && Abs(ReportedFill(answers[..n][k])) == MaxMagnitude(answers[..n]);
        assert answers[k] == answers[..n][k];
      }
      forall k | 0 <= k < n
        ensures ReportedFill(answers[k]) <= MaxFill(answers) && Abs(ReportedFill(answers[k])) <= MaxMagnitude(answers)
      {
        assert answers[k] == answers[..n][k];
      }
    }
  }

  /**
   Replaying the stored events of an order gives the quantities the worker had, for any answers and any
   repetition of them, if and only if no negative reported quantity dominates: replay takes magnitudes
   where the worker clamps at zero.
   */
  lemma {:induction false} ReplayRefinesLive(requested: real, mt5: bool, answers: seq<Applied>)
    requires requested > 0.0
    ensures var live := Live(NewOrder(requested), mt5, answers);
            var replayed := ReplayFold(Reset(live), StoredPayloads(answers));
            && (replayed.filled == live.filled <==> !NegativeDominates(answers))
            && (replayed.filled == live.filled ==> replayed.remaining == live.remaining)
  {
    LiveFilled(NewOrder(requested), mt5, answers);
    StoredMagnitude(answers);
    ReplayFilled(NewOrder(requested), StoredPayloads(answers));
    MagnitudeIsFill(answers);
    assert Reset(Live(NewOrder(requested), mt5, answers)) == NewOrder(requested);
    if MaxMagnitude(answers) != MaxFill(answers) {
      var k :| 0 <= k < |answers| && Abs(ReportedFill(answers[k])) == MaxMagnitude(answers);
      assert -ReportedFill(answers[k]) > MaxFill(answers);
    }
  }

  /**
   When the order's events came from the venue stream, replay forgets all of its fills: their payloads are
   nested, and the rebuilt order has none.
   */
  lemma {:induction false} VenueFillsAreForgotten(s: State, events: seq<StoredEvent>, o: nat)
    requires Valid(s) && o < |s.orders| && s.orders[o].order.requested > 0.0
    requires forall k | 0 <= k < |events| && FindOrder(s.orders, events[k]) == Some(o) ::
        events[k].payload.VenuePayload?
    ensures |Rebuild(s, events).orders| == |s.orders|
    ensures Rebuild(s, events).orders[o].order.filled == 0.0
    ensures Rebuild(s, events).orders[o].order.remaining == s.orders[o].order.requested
  {
    RebuildIsPerOrder(s, events, o);
    VenuePayloadsOnly(s.orders, events, o);
    ReplayFilled(Reset(s.orders[o].order), PayloadsOf(s.orders, events, o));
    NoPayloadFills(PayloadsOf(s.orders, events, o));
  }

  lemma {:induction false} VenuePayloadsOnly(orders: seq<OrderRow>, events: seq<StoredEvent>, o: nat)
    requires forall k | 0 <= k < |events| && FindOrder(orders, events[k]) == Some(o) :: events[k].payload.VenuePayload?
    ensures forall k | 0 <= k < |PayloadsOf(orders, events, o)| :: PayloadsOf(orders, events, o)[k].VenuePayload?
  {
    if events != [] {
      VenuePayloadsOnly(orders, events[..|events| - 1], o);
    }
  }

  lemma {:induction false} NoPayloadFills(payloads: seq<Payload>)
    requires forall k | 0 <= k < |payloads| :: payloads[k].VenuePayload?
    ensures MaxPayload(payloads) == 0.0
  {
    if payloads != [] {
      NoPayloadFills(payloads[..|payloads| - 1]);
    }
  }

  /**
   On a new answer, replay and the worker give the leg the same status exactly when the order is complete,
   or the answer neither claims completeness nor is a failure of a partly filled order nor leaves the order
   unknown or initialized without fills.
   */
  lemma LegStatusesAgree(live: VenueOrder, replayed: VenueOrder, mt5: bool, r: Report)
    requires live.requested == replayed.requested > 0.0 && live.filled == replayed.filled >= 0.0 && r.filled >= 0.0
    ensures var filled := Max(live.filled, r.filled);
            var complete := live.requested - filled <= EPSILON;
            GatewayResult(live, live.requested, mt5, r).1 ==
              ApplyEvent(replayed, PayloadOf(Result(r))).1
            <==> (complete && filled > 0.0)
                 || (!complete && !r.status.Filled?
                     && (if filled > 0.0 then !IsFailure(r.status) else !r.status.Unknown? && !r.status.Initialized?))
  {
  }

  /** The legs and orders that the tables hold for an intent, whatever their order. */
  ghost predicate SameRows(db: Outbox.Db, i: nat, s: State) {
    && (forall l | l in Outbox.LegsOf(db, i) :: db.legs[l].status in s.legs)
    && (forall k | 0 <= k < |s.legs| :: exists l :: l in Outbox.LegsOf(db, i) && db.legs[l].status == s.legs[k])
    && (Outbox.SomeFill(db, i) <==> exists o :: 0 <= o < |s.orders| && s.orders[o].order.filled > 0.0)
  }

  lemma {:induction false} SameLegFacts(db: Outbox.Db, i: nat, s: State)
    requires SameRows(db, i, s)
    ensures Outbox.SomeFailed(db, i) <==> exists k :: 0 <= k < |s.legs| && s.legs[k].LegFailed?
    ensures Outbox.SomeActive(db, i) <==> exists k :: 0 <= k < |s.legs| && IsActive(s.legs[k])
    ensures Outbox.AllFilled(db, i) <==> s.legs != [] && forall k | 0 <= k < |s.legs| :: s.legs[k].LegFilled?
  {
    if s.legs != [] {
      assert s.legs[0] == s.legs[0];
    }
    forall k | 0 <= k < |s.legs|
      ensures exists l :: l in Outbox.LegsOf(db, i) && db.legs[l].status == s.legs[k]
    {
    }
  }

  /** The rebuilt intent and group statuses are those that the worker derives from the same legs and orders. */
  lemma {:induction false} RebuiltStatusIsWorkers(db: Outbox.Db, i: nat, s: State)
    requires SameRows(db, i, s)
    ensures IntentStatusOf(s.legs) == Outbox.FinishedStatus(db, i)
    ensures GroupStatusOf(s.legs, s.orders, s.kind, s.previous) == Outbox.ProjectedGroup(db, i, s.kind, s.previous)
  {
    SameLegFacts(db, i, s);
  }
}
