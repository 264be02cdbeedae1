/** Prices, charges and statuses of a replayed order: what the worker's answers, and fills of the legacy type,
    add up to. */
module ReplayAmounts {
  import opened Common
  import opened Orders
  import opened Replay

  // ------------------------------------------------------------------ answers

  /** The last price that an answer reports. */
  function LastPrice(payloads: seq<Payload>): Option<real> {
    if payloads == [] then None
    else
      var p := payloads[|payloads| - 1];
      if p.WorkerPayload? && p.averagePrice > 0.0 then Some(p.averagePrice) else LastPrice(payloads[..|payloads| - 1])
  }

  /** The largest charge that an answer reports, and zero. */
  function LargestCharge(payloads: seq<Payload>): real {
    if payloads == [] then 0.0
    else
      var p, rest := payloads[|payloads| - 1], LargestCharge(payloads[..|payloads| - 1]);
      if p.WorkerPayload? && p.commission > rest then p.commission else rest
  }

  /** A rebuilt order has the last reported price and the largest reported charge. */
  lemma {:induction false} RebuiltPriceAndCharge(order: VenueOrder, payloads: seq<Payload>)
    requires order.averagePrice == None && order.commission == 0.0
    requires forall k | 0 <= k < |payloads| :: !payloads[k].LegacyFill?
    ensures ReplayFold(order, payloads).averagePrice == LastPrice(payloads)
    ensures ReplayFold(order, payloads).commission == LargestCharge(payloads) >= 0.0
  {
    if payloads != [] {
      RebuiltPriceAndCharge(order, payloads[..|payloads| - 1]);
    }
  }

  // ------------------------------------------------------------------ fills of the legacy type

  function FillOfLegacy(p: Payload): real {
    if p.LegacyFill? then Abs(p.quantity) else 0.0
  }

  function ValueOfLegacy(p: Payload): real {
    if p.LegacyFill? then Abs(p.quantity) * p.price else 0.0
  }

  function ChargeOfLegacy(p: Payload): real {
    if p.LegacyFill? then p.commission else 0.0
  }

  /** Price times filled quantity. */
  function Paid(order: VenueOrder): real {
    order.filled * order.averagePrice.Extract(0.0)
  }

  lemma {:induction false} OneLegacyFill(order: VenueOrder, p: Payload)
    requires p.LegacyFill? && p.price > 0.0 && order.filled >= 0.0
    requires order.filled > 0.0 ==> order.averagePrice.Some? && order.averagePrice.value > 0.0
    ensures var t := ApplyEvent(order, p).0;
            && t.filled == order.filled + Abs(p.quantity) && t.commission == order.commission + p.commission
            && Paid(t) == Paid(order) + Abs(p.quantity) * p.price
            && (t.filled > 0.0 ==> t.averagePrice.Some? && t.averagePrice.value > 0.0)
  {
    var t, q := ApplyEvent(order, p).0, Abs(p.quantity);
    if order.filled > 0.0 {
      var previous := Max(t.filled - q, 0.0);
      assert previous == order.filled && t.filled - previous == q;
      assert t.averagePrice == Some(Average(order.averagePrice.value, previous, p.price, t.filled));
      LegacyAverage(order.averagePrice.value, order.filled, p.price, q, t.filled);
    }
  }

  lemma LegacyAverage(known: real, part: real, price: real, q: real, filled: real)
    requires part > 0.0 && q >= 0.0 && price > 0.0 && known > 0.0 && filled == part + q
    ensures filled * Average(known, part, price, filled) == part * known + q * price
    ensures Average(known, part, price, filled) > 0.0
  {
    assert known * part > 0.0 && price * q >= 0.0;
    assert filled - part == q;
    Quotient(known * part + price * q, filled);
  }

  lemma Quotient(a: real, b: real)
    requires a > 0.0 && b > 0.0
    ensures b * (a / b) == a && a / b > 0.0
  {
  }

  /** The amounts of an order after fills of the legacy type. */
  ghost predicate HasAmounts(t: VenueOrder, filled: real, paid: real, charge: real) {
    && t.filled == filled >= 0.0 && t.commission == charge && Paid(t) == paid
    && (filled > 0.0 ==> t.averagePrice.Some? && t.averagePrice.value > 0.0)
  }

  lemma {:induction false} NextAmounts(order: VenueOrder, p: Payload, filled: real, paid: real, charge: real)
    requires p.LegacyFill? && p.price > 0.0 && HasAmounts(order, filled, paid, charge)
    ensures HasAmounts(ApplyEvent(order, p).0, filled + FillOfLegacy(p),
        paid + ValueOfLegacy(p), charge + ChargeOfLegacy(p))
  {
    OneLegacyFill(order, p);
  }

  /**
   An order whose events are fills of the legacy type, all with a price: its filled quantity and its charges are their
   sums, and its price is the average weighted by quantity.
   */
  lemma {:induction false} LegacyFillsAddUp(order: VenueOrder, payloads: seq<Payload>)
    requires order.filled == 0.0 && order.averagePrice == None && order.commission == 0.0
    requires forall k | 0 <= k < |payloads| :: payloads[k].LegacyFill? && payloads[k].price > 0.0
    ensures HasAmounts(ReplayFold(order, payloads), Sum(payloads, FillOfLegacy), Sum(payloads, ValueOfLegacy),
                       Sum(payloads, ChargeOfLegacy))
  {
    if payloads != [] {
      var n := |payloads| - 1;
      var before := payloads[..n];
      LegacyFillsAddUp(order, before);
      NextAmounts(ReplayFold(order, before), payloads[n],
        Sum(before, FillOfLegacy), Sum(before, ValueOfLegacy), Sum(before, ChargeOfLegacy));
    }
  }

  // ------------------------------------------------------------------ statuses

  /**
   The statuses of an order and its leg after a replayed event go together: both are filled exactly when nothing
   remains of a fill; a reported failure stays the order's status; with a fill the leg is filled in part, whether the
   order failed or not; and without any the event's own status is kept.
   */
  lemma {:induction false} ReplayedStatuses(order: VenueOrder, p: Payload)
    ensures var (row, leg) := ApplyEvent(order, p);
            var done := row.remaining <= EPSILON && row.filled > 0.0;
            && (leg == LegFilled <==> done) && (done ==> row.status == Filled)
            && (!done && IsFailure(p.status) ==>
                  row.status == p.status && leg == if row.filled > 0.0 then LegPartiallyFilled else LegFailed)
            && (!done && !IsFailure(p.status) && row.filled > 0.0 ==>
                  row.status == PartiallyFilled && leg == LegPartiallyFilled)
            && (!done && !IsFailure(p.status) && row.filled <= 0.0 ==>
                  row.status == p.status && leg in {LegPlanned, LegUnknown, LegSubmitted})
  {
  }

  /** A leg without an order is planned after a rebuild. */
  lemma {:induction false} UntouchedIsPlanned(s: State, events: seq<StoredEvent>, l: nat)
    requires Valid(s) && l < |s.legs| && forall o | 0 <= o < |s.orders| :: s.orders[o].leg != l
    ensures |Rebuild(s, events).legs| == |s.legs| && Rebuild(s, events).legs[l] == LegPlanned
  {
    ReplayedLeavesLeg(Cleared(s), events, l);
  }

  lemma {:induction false} ReplayedLeavesLeg(s: State, events: seq<StoredEvent>, l: nat)
    requires Valid(s) && l < |s.legs| && forall o | 0 <= o < |s.orders| :: s.orders[o].leg != l
    ensures Replayed(s, events).legs[l] == s.legs[l]
  {
    if events != [] {
      ReplayedKeepsFacts(s, events[..|events| - 1]);
      ReplayedLeavesLeg(s, events[..|events| - 1], l);
    }
  }
}
