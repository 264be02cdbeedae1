/**
 The order and leg projections shared by the outbox worker and the venue event stream:
 how one report of a trading venue changes the stored order and the status of its leg.
 */
module Orders {
  import opened Common

  /** Statuses an order row can carry; `Other` is any further text a venue reports. */
  datatype OrderStatus =
    | Initialized | New | Submitted | Accepted | Pending | Open | PartiallyFilled
    | PendingUpdate | PendingCancel | NotReady | Unknown
    | Filled
    | Failed | Rejected | Denied | Canceled | Cancelled | Expired | Unfilled
    | Other(text: string)

  datatype LegStatus =
    | LegPlanned | LegSubmitted | LegPartiallyFilled | LegUnknown | LegFilled | LegFailed

  /** The venue-side record of one execution leg. */
  datatype VenueOrder = VenueOrder(
    requested: real,
    filled: real,
    remaining: real,
    status: OrderStatus,
    averagePrice: Option<real>,
    commission: real)

  /** What the gateway returns for a submission or a query. */
  datatype Report = Report(status: OrderStatus, filled: real, averagePrice: real, commission: real)

  /** What the venue event stream carries for an order. */
  datatype Snapshot = Snapshot(
    status: OrderStatus, filled: real, remaining: real, averagePrice: real, commission: real)

  const EPSILON := 0.000000000001

  predicate IsNonTerminal(s: OrderStatus) {
    s.Initialized? || s.New? || s.Submitted? || s.Accepted? || s.Pending? || s.Open? || s.PartiallyFilled?
    || s.PendingUpdate? || s.PendingCancel? || s.NotReady? || s.Unknown?
  }

  predicate IsFailure(s: OrderStatus) {
    s.Failed? || s.Rejected? || s.Denied? || s.Canceled? || s.Cancelled? || s.Expired? || s.Unfilled?
  }

  predicate IsActive(s: LegStatus) {
    s.LegPlanned? || s.LegSubmitted? || s.LegPartiallyFilled? || s.LegUnknown?
  }

  /** Commission as a cost: one venue reports charges with either sign, the others only count positive amounts. */
  function CommissionCost(mt5: bool, amount: real): real {
    if mt5 then Abs(amount) else Max(amount, 0.0)
  }

  function NewOrder(quantity: real): VenueOrder {
    VenueOrder(quantity, 0.0, quantity, Initialized, None, 0.0)
  }

  /** The worker's projection of a gateway reply. */
  function GatewayResult(order: VenueOrder, legQuantity: real, mt5: bool, r: Report): (VenueOrder, LegStatus) {
    var requested := if order.requested != 0.0 then order.requested else legQuantity;
    var filled := Max(order.filled, Max(r.filled, 0.0));
    var remaining := Max(requested - filled, 0.0);
    var price := if r.averagePrice > 0.0 then Some(r.averagePrice) else order.averagePrice;
    var cost := CommissionCost(mt5, r.commission);
    var commission := if cost > 0.0 || order.commission == 0.0 then cost else order.commission;
    var done := r.status.Filled? || remaining <= EPSILON;
    var row := VenueOrder(order.requested, filled, remaining, if done then Filled else r.status, price, commission);
    (row,
     if done then LegFilled
     else if IsFailure(r.status) then LegFailed
     else if filled > 0.0 then LegPartiallyFilled
     else LegSubmitted)
  }

  /** A submission that raised: rejected for certain, or with an unknown outcome. */
  function DispatchException(order: VenueOrder, outcomeUnknown: bool): (VenueOrder, LegStatus) {
    (order.(status := if outcomeUnknown then Unknown else Rejected),
     if outcomeUnknown then LegUnknown else LegFailed)
  }

  /** Leg status that the venue event stream derives from an order status. */
  function EventLegStatus(status: OrderStatus, filled: real): LegStatus {
    if status.Filled? then LegFilled
    else if status.Canceled? || status.Expired? || status.Rejected? then
      (if filled > 0.0 then LegPartiallyFilled else LegFailed)
    else if filled > 0.0 then LegPartiallyFilled
    else LegSubmitted
  }

  /** The event stream's projection of an order snapshot. */
  function OrderEvent(order: VenueOrder, mt5: bool, s: Snapshot): (VenueOrder, LegStatus) {
    var filled := Max(order.filled, s.filled);
    var price := if s.averagePrice > 0.0 then Some(s.averagePrice) else order.averagePrice;
    var row := VenueOrder(order.requested, filled, Max(s.remaining, 0.0), s.status, price,
                          Max(order.commission, CommissionCost(mt5, s.commission)));
    (row, EventLegStatus(s.status, filled))
  }

  /** Quantity, notional and commission of the fills already stored for an order. */
  datatype Totals = Totals(quantity: real, notional: real, commission: real)

  /** The event stream's projection of one fill, given the totals of the fills stored before it. */
  function FillEvent(order: VenueOrder, mt5: bool, before: Totals, quantity: real, price: real, commission: real)
    : (VenueOrder, LegStatus)
  {
    var total := before.quantity + quantity;
    var filled := Max(order.filled, total);
    var remaining := Max(order.requested - filled, 0.0);
    var average := if total > 0.0 then Some((before.notional + quantity * price) / total) else order.averagePrice;
    var done := remaining <= EPSILON;
    var row := VenueOrder(order.requested, filled, remaining, if done then Filled else PartiallyFilled, average,
                          before.commission + CommissionCost(mt5, commission));
    (row, if done then LegFilled else LegPartiallyFilled)
  }

  /**
   The two projections disagree on a canceled order exactly when it was filled in part: the worker
   calls its leg failed, the event stream keeps it partially filled, which later logic treats as live.
   */
  lemma CancelProjectionsDiffer(order: VenueOrder, mt5: bool, r: Report, s: Snapshot)
    requires order.requested > 0.0
    requires r.status.Canceled? && s.status.Canceled? && r.filled == s.filled
    requires 0.0 <= order.filled && order.requested - Max(order.filled, r.filled) > EPSILON
    ensures GatewayResult(order, order.requested, mt5, r).1 == LegFailed
    ensures GatewayResult(order, order.requested, mt5, r).0.filled == OrderEvent(order, mt5, s).0.filled
    ensures OrderEvent(order, mt5, s).1 != LegFailed <==> Max(order.filled, r.filled) > 0.0
    ensures IsActive(OrderEvent(order, mt5, s).1) <==> Max(order.filled, r.filled) > 0.0
  {
  }
}
