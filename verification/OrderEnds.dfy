/** When a report ends a leg: the projections of the worker and of the event stream, for every order and report. */
module OrderEnds {
  import opened Common
  import opened Orders

  /** Every status of the list ends an order, keeps it open, or fills it, and none does two of these. */
  lemma StatusesArePartitioned(s: OrderStatus)
    ensures !s.Other? ==> IsNonTerminal(s) || IsFailure(s) || s.Filled?
    ensures !(IsNonTerminal(s) && IsFailure(s)) && !(s.Filled? && (IsNonTerminal(s) || IsFailure(s)))
    ensures s.Other? ==> !IsNonTerminal(s) && !IsFailure(s)
  {
  }

  /** What the venue says when an order is over without being filled. */
  predicate SaysEnded(s: OrderStatus) {
    s in {Canceled, Expired, Rejected}
  }

  /**
   An event ends its leg if and only if it says filled, or says canceled, expired or rejected while nothing was
   filled before or by it; the leg is filled if and only if it says filled.
   */
  lemma {:induction false} EventEndsLegIff(order: VenueOrder, mt5: bool, s: Snapshot)
    ensures var (row, leg) := OrderEvent(order, mt5, s);
            && (!IsActive(leg) <==>
                  s.status == Filled || (SaysEnded(s.status) && order.filled <= 0.0 && s.filled <= 0.0))
            && (leg == LegFilled <==> s.status == Filled)
            && (leg == LegPartiallyFilled <==> s.status != Filled && (order.filled > 0.0 || s.filled > 0.0))
            && row.status == s.status && row.filled >= order.filled && row.filled >= s.filled
            && row.filled in {order.filled, s.filled}
            && row.remaining >= 0.0 && (row.remaining > 0.0 ==> row.remaining == s.remaining)
  {
  }

  /**
   A fill ends its leg if and only if the stored fills and this one, or an earlier report, reach the requested
   quantity; otherwise the leg is filled in part.
   */
  lemma {:induction false} FillEndsLegIff(
    order: VenueOrder, mt5: bool, before: Totals, quantity: real, price: real, commission: real)
    ensures var (row, leg) := FillEvent(order, mt5, before, quantity, price, commission);
            var reached := order.filled >= order.requested - EPSILON
                           || before.quantity + quantity >= order.requested - EPSILON;
            && (leg == LegFilled <==> reached) && (leg == LegPartiallyFilled <==> !reached)
            && (row.status == Filled <==> reached) && (row.status == PartiallyFilled <==> !reached)
            && row.remaining >= 0.0 && (row.remaining > 0.0 ==> row.filled + row.remaining == order.requested)
  {
  }

  /**
   An answer of the gateway ends its leg if and only if it says filled, the fills reach the requested quantity, or
   it reports a failure; of these only the last fails the leg.
   */
  lemma {:induction false} AnswerEndsLegIff(order: VenueOrder, quantity: real, mt5: bool, r: Report)
    requires order.requested > 0.0
    ensures var (row, leg) := GatewayResult(order, quantity, mt5, r);
            var reached := r.status == Filled || order.filled >= order.requested - EPSILON
                           || r.filled >= order.requested - EPSILON || order.requested <= EPSILON;
            && (leg == LegFilled <==> reached)
            && (leg == LegFailed <==>
                  (!reached && r.status in {Failed, Rejected, Denied, Canceled, Cancelled, Expired, Unfilled}))
            && (leg == LegSubmitted <==> IsActive(leg) && order.filled <= 0.0 && r.filled <= 0.0)
            && (leg == LegPartiallyFilled <==> IsActive(leg) && (order.filled > 0.0 || r.filled > 0.0))
            && row.status == (if reached then Filled else r.status)
            && row.filled >= order.filled && row.filled >= r.filled && row.filled in {order.filled, r.filled, 0.0}
            && row.remaining >= 0.0 && (row.remaining > 0.0 ==> row.filled + row.remaining == order.requested)
  {
  }

  /** A submission that raised keeps its leg active exactly when its outcome is unknown, and takes no fill. */
  lemma {:induction false} RaisedEndsLegIff(order: VenueOrder, unknown: bool)
    ensures var (row, leg) := DispatchException(order, unknown);
            && (IsActive(leg) <==> unknown)
            && (IsNonTerminal(row.status) <==> unknown) && (IsFailure(row.status) <==> !unknown)
            && row == order.(status := row.status)
  {
  }

  /**
   What a report says about money: a price or a charge that it does not report leaves the stored one, and charges
   are counted as costs.
   */
  lemma {:induction false} PricesAndCosts(order: VenueOrder, quantity: real, mt5: bool, r: Report, s: Snapshot)
    requires order.commission >= 0.0
    ensures var row := GatewayResult(order, quantity, mt5, r).0;
            && row.averagePrice == (if r.averagePrice > 0.0 then Some(r.averagePrice) else order.averagePrice)
            && row.commission >= 0.0
            && (r.commission > 0.0 || (mt5 && r.commission < 0.0) ==> row.commission == Abs(r.commission))
            && (r.commission == 0.0 || (!mt5 && r.commission < 0.0) ==> row.commission == order.commission)
    ensures var row := OrderEvent(order, mt5, s).0;
            && row.averagePrice == (if s.averagePrice > 0.0 then Some(s.averagePrice) else order.averagePrice)
            && row.commission >= order.commission
            && row.commission in {order.commission, s.commission, -s.commission}
            && (s.commission > 0.0 || mt5 ==> row.commission >= Abs(s.commission))
            && (s.commission < 0.0 && !mt5 ==> row.commission == order.commission)
  {
  }
}
