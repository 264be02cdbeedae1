/** Honest runs of the maker machine that end badly, for all quantities beyond the tolerances. */
module MakerWitnesses {
  import opened Common
  import opened Orders
  import opened Lifecycle
  import opened Maker
  import opened MakerRuns
  import opened MakerProperties
  import opened MakerDecisions
  import opened MakerBooking

  // ------------------------------------------------------------------ one venue event as one transaction

  /**
   A venue event is stored and the intent advanced in one transaction: when the advance is refused, the event
   itself is rolled back.
   */
  function EventBatch(cfg: Config, s: State, i: nat, report: Snapshot, current: nat, elapsed: int): State {
    var o := Advance(cfg, Step(cfg, s, OrderReported(i, report)), current, elapsed);
    if o.Raised? then s else o.state
  }

  /** The transaction is two steps of a run, or no step at all. */
  lemma {:induction false} EventBatchIsTwoSteps(
    cfg: Config, s: State, i: nat, report: Snapshot, current: nat, elapsed: int)
    ensures var t := EventBatch(cfg, s, i, report, current, elapsed);
            t == s || t == Step(cfg, Step(cfg, s, OrderReported(i, report)), AdvancedAt(current, elapsed))
  {
    var d, marked, o := AdvanceIsStep(cfg, Step(cfg, s, OrderReported(i, report)), current, elapsed);
  }

  // ------------------------------------------------------------------ building runs step by step

  /** What is fixed during a run. */
  datatype Scene = Scene(cfg: Config, primary: Plan, group: Option<Group>, truth: Truth)

  /** The state after a good run in which nobody but the machine ended the intent. */
  ghost predicate At(c: Scene, actions: seq<Action>, s: State) {
    Reached(c.cfg, c.primary, c.group, actions, c.truth, s) && NeverClosed(actions)
  }

  lemma {:induction false} Longer(c: Scene, actions: seq<Action>, s: State, a: Action, t: State)
    returns (more: seq<Action>)
    requires Reached(c.cfg, c.primary, c.group, actions, c.truth, s) && Honest(s, a, c.truth)
    requires t == Step(c.cfg, s, a) && Within(t.legs, c.truth)
    ensures more == actions + [a] && Reached(c.cfg, c.primary, c.group, more, c.truth, t)
  {
    more := actions + [a];
    assert more[..|actions|] == actions;
  }

  lemma {:induction false} Next(c: Scene, actions: seq<Action>, s: State, a: Action, t: State)
    returns (more: seq<Action>)
    requires At(c, actions, s) && Honest(s, a, c.truth) && t == Step(c.cfg, s, a) && Within(t.legs, c.truth)
    requires NeverClosed([a])
    ensures At(c, more, t)
  {
    assert [a][0] == a;
    more := Longer(c, actions, s, a, t);
  }

  function Row(requested: real, filled: real, status: OrderStatus): VenueOrder {
    VenueOrder(requested, filled, requested - filled, status, None, 0.0)
  }

  function Ordered(plan: Plan, filled: real, status: LegStatus, order: OrderStatus): Leg {
    Leg(plan, status, Some(Row(plan.quantity, filled, order)))
  }

  function Planned(plan: Plan): Leg {
    Leg(plan, LegPlanned, None)
  }

  function Event(plan: Plan, status: OrderStatus, filled: real): Snapshot {
    Snapshot(status, filled, plan.quantity - filled, 0.0, 0.0)
  }

  /** The worker stores an order for a planned leg. */
  lemma {:induction false} Dispatch(c: Scene, actions: seq<Action>, s: State, i: nat, t: State)
    returns (more: seq<Action>)
    requires At(c, actions, s) && i < |s.legs| && s.legs[i] == Planned(s.legs[i].plan)
    requires t == s.(legs := s.legs[i := Ordered(s.legs[i].plan, 0.0, LegPlanned, Initialized)])
    requires Within(t.legs, c.truth)
    ensures At(c, more, t)
  {
    assert NeverClosed([Dispatched(i)]);
    more := Next(c, actions, s, Dispatched(i), t);
  }

  lemma EventStored(order: VenueOrder, mt5: bool, requested: real, filled: real,
      before: real, was: OrderStatus, status: OrderStatus)
    requires order == Row(requested, before, was) && 0.0 <= before <= filled <= requested
    ensures OrderEvent(order, mt5, Snapshot(status, filled, requested - filled, 0.0, 0.0))
         == (Row(requested, filled, status), EventLegStatus(status, filled))
  {
  }

  /** A venue event of an order is stored. */
  lemma {:induction false} Report(
    c: Scene, actions: seq<Action>, s: State, i: nat, before: real, status: OrderStatus, filled: real, t: State)
    returns (more: seq<Action>)
    requires At(c, actions, s) && i < |s.legs| && s.legs[i].order.Some?
    requires s.legs[i].order.value == Row(s.legs[i].plan.quantity, before, s.legs[i].order.value.status)
    requires 0.0 <= before <= filled <= s.legs[i].plan.quantity && filled <= c.truth(i)
    requires status.Filled? || IsFailure(status) ==> filled == c.truth(i)
    requires t == s.(legs := s.legs[i := Ordered(s.legs[i].plan, filled, EventLegStatus(status, filled), status)])
    requires Within(t.legs, c.truth)
    ensures At(c, more, t)
    ensures t == Step(c.cfg, s, OrderReported(i, Event(s.legs[i].plan, status, filled)))
  {
    var a := OrderReported(i, Event(s.legs[i].plan, status, filled));
    ReportStep(c.cfg, s, i, before, status, filled);
    assert Honest(s, a, c.truth) && NeverClosed([a]);
    more := Next(c, actions, s, a, t);
  }

  lemma {:induction false} ReportStep(cfg: Config, s: State, i: nat, before: real, status: OrderStatus, filled: real)
    requires i < |s.legs| && s.legs[i].order.Some?
    requires s.legs[i].order.value == Row(s.legs[i].plan.quantity, before, s.legs[i].order.value.status)
    requires 0.0 <= before <= filled <= s.legs[i].plan.quantity
    ensures Step(cfg, s, OrderReported(i, Event(s.legs[i].plan, status, filled)))
         == s.(legs := s.legs[i := Ordered(s.legs[i].plan, filled, EventLegStatus(status, filled), status)])
  {
    var leg := s.legs[i];
    var o := leg.order.value;
    EventStored(o, leg.plan.venue == "mt5", leg.plan.quantity, filled, before, o.status, status);
  }

  /** An advance enqueues a leg. */
  lemma {:induction false} Enqueues(c: Scene, actions: seq<Action>, s: State, d: Decision, plan: Plan, t: State)
    returns (more: seq<Action>)
    requires At(c, actions, s) && IsLive(s.status) && d == Decide(c.cfg, s.legs, 0) && IsEnqueue(d)
    requires Enqueued(c.cfg, s.legs, d) == Some(plan)
    requires t == EnqueuedState(s, plan) && Within(t.legs, c.truth)
    ensures At(c, more, t)
  {
    ReachedInv(c.cfg, c.primary, c.group, actions, c.truth, s);
    EnqueueStep(c, s, d, plan, t);
    assert NeverClosed([AdvancedAt(|s.commands|, 0)]);
    more := Next(c, actions, s, AdvancedAt(|s.commands|, 0), t);
  }

  function EnqueuedState(s: State, plan: Plan): State {
    s.(legs := s.legs + [Planned(plan)], commands := s.commands + [Command(SubmitLeg(|s.legs|), OutboxPending)],
       status := Running)
  }

  lemma {:induction false} EnqueueStep(c: Scene, s: State, d: Decision, plan: Plan, t: State)
    requires Inv(c.cfg, s.legs, c.truth) && IsLive(s.status) && d == Decide(c.cfg, s.legs, 0) && IsEnqueue(d)
    requires Enqueued(c.cfg, s.legs, d) == Some(plan) && t == EnqueuedState(s, plan)
    ensures t == Step(c.cfg, s, AdvancedAt(|s.commands|, 0))
  {
    var d', marked, o := AdvanceIsStep(c.cfg, s, |s.commands|, 0);
    AdvanceShape(c.cfg, s, |s.commands|, 0, c.truth);
    EnqueueRest(c.cfg, s, d, o);
  }

  lemma {:induction false} EnqueueRest(cfg: Config, s: State, d: Decision, o: Outcome)
    requires Applicable(cfg, s.legs, d) && IsEnqueue(d) && o == Perform(cfg, s, d) && o.Advanced?
    ensures o.state == s.(legs := o.state.legs, commands := o.state.commands, status := Running)
  {
  }

  // ------------------------------------------------------------------ sums over few legs

  lemma {:induction false} Sums<T(!new)>(a: T, b: T, c: T, f: T -> real)
    ensures Sum([a], f) == f(a) && Sum([a, b], f) == f(a) + f(b) && Sum([a, b, c], f) == f(a) + f(b) + f(c)
  {
    assert [a][..0] == [] && [a, b][..1] == [a] && [a, b, c][..2] == [a, b];
  }

  lemma {:induction false} Counts(a: Plan, b: Plan, c: Plan, r: Role)
    ensures Count([a], r) == (if a.role == r then 1 else 0)
    ensures Count([a, b], r) == (if a.role == r then 1 else 0) + (if b.role == r then 1 else 0)
    ensures Count([a, b, c], r)
            == (if a.role == r then 1 else 0) + (if b.role == r then 1 else 0) + (if c.role == r then 1 else 0)
  {
    assert [a][..0] == [] && [a, b][..1] == [a] && [a, b, c][..2] == [a, b];
  }

  /** The measures of one, two or three legs, of which only the first is the maker and the second a hedge. */
  lemma {:induction false} Measures(a: Leg, b: Leg, c: Leg)
    requires a.plan.role.MakerRole? && b.plan.role.HedgeRole? && !c.plan.role.MakerRole? && !c.plan.role.HedgeRole?
    ensures Plans([a]) == [a.plan] && Plans([a, b]) == [a.plan, b.plan] && Plans([a, b, c]) == [a.plan, b.plan, c.plan]
    ensures Sum([a], MakerFill) == Sum([a, b], MakerFill) == Fill(a)
    ensures Sum([a], HedgeFill) == 0.0 && Sum([a, b], HedgeFill) == Sum([a, b, c], HedgeFill) == Fill(b)
    ensures Sum([a, b, c], MakerFill) == Fill(a) + MakerFill(c)
    ensures Sum([a, b, c], CompensationFill) == CompensationFill(c)
    ensures Sum(Plans([a]), HedgeQuantity) == 0.0
    ensures Sum(Plans([a, b]), HedgeQuantity) == Sum(Plans([a, b, c]), HedgeQuantity) == b.plan.quantity
    ensures Sum(Plans([a]), FallbackQuantity) == Sum(Plans([a, b]), FallbackQuantity) == 0.0
    ensures Count(Plans([a]), HedgeRole) == 0 && Count(Plans([a, b]), CompensationRole) == 0
    ensures Count(Plans([a, b, c]), CompensationRole) == if c.plan.role.CompensationRole? then 1 else 0
    ensures Count(Plans([a, b]), MakerRole) == 1 && Count(Plans([a, b]), FallbackRole) == 0
  {
    var legs, plans := [a, b, c], [a.plan, b.plan, c.plan];
    assert Plans([a]) == [a.plan] && Plans([a, b]) == [a.plan, b.plan] && Plans([a, b, c]) == plans;
    Sums(a, b, c, MakerFill);
    Sums(a, b, c, HedgeFill);
    Sums(a, b, c, CompensationFill);
    Sums(a.plan, b.plan, c.plan, HedgeQuantity);
    Sums(a.plan, b.plan, c.plan, FallbackQuantity);
    Counts(a.plan, b.plan, c.plan, HedgeRole);
    Counts(a.plan, b.plan, c.plan, CompensationRole);
    Counts(a.plan, b.plan, c.plan, MakerRole);
    Counts(a.plan, b.plan, c.plan, FallbackRole);
  }

  // ------------------------------------------------------------------ a maker fill and its hedge

  ghost predicate SceneOk(c: Scene) {
    SoundConfig(c.cfg) && SoundPrimary(c.cfg.params.value, c.primary) && c.cfg.params.value.ttlSeconds <= 0
    && 0.0 <= c.truth(0) <= c.primary.quantity
  }

  function FirstHedge(p: Params, filled: real): Plan
    requires p.makerTarget > 0.0 && p.hedgeTarget > 0.0
  {
    HedgePlan(p, 0, Desired(p, filled))
  }

  lemma {:induction false} NotCanceled(p: Params, legs: seq<Leg>)
    requires |legs| > 0 && p.ttlSeconds <= 0
    requires legs[0].order.Some? ==> !legs[0].order.value.status.PendingCancel?
    ensures !CancelFirst(p, legs, 0)
  {
  }

  lemma {:induction false} FirstFillFacts(p: Params, legs: seq<Leg>, filled: real)
    requires p.makerTarget > 0.0 && p.hedgeTarget > 0.0 && p.ttlSeconds <= 0 && |legs| == 1
    requires legs[0].plan.role.MakerRole? && legs[0].plan.quantity == p.makerTarget
    requires legs[0].order.Some? && !legs[0].order.value.status.PendingCancel? && Fill(legs[0]) == filled
    requires IsActive(legs[0].status) || filled == p.makerTarget
    requires Desired(p, filled) > Tol(p.hedgeTarget)
    ensures !CancelFirst(p, legs, 0) && !FallbackOwed(p, legs) && HedgeOwed(p, legs)
    ensures HedgeDelta(p, legs) == Desired(p, filled) && Count(Plans(legs), HedgeRole) == 0
  {
    assert legs == [legs[0]];
    var other := Planned(FirstHedge(p, filled));
    Measures(legs[0], other, Planned(other.plan.(role := CompensationRole)));
    assert IsMaker(legs[0].plan);
    assert IsActive(legs[0].status) ==> AnyActive(legs, true);
  }

  lemma {:induction false} FillIsHedged(c: Scene, actions: seq<Action>, s: State, filled: real) returns (d: Decision)
    requires SceneOk(c) && At(c, actions, s) && |s.legs| == 1 && s.legs[0].plan == c.primary
    requires s.legs[0].order.Some? && !s.legs[0].order.value.status.PendingCancel? && Fill(s.legs[0]) == filled
    requires IsActive(s.legs[0].status) || filled == c.primary.quantity
    requires Desired(c.cfg.params.value, filled) > Tol(c.cfg.params.value.hedgeTarget)
    ensures d == Decide(c.cfg, s.legs, 0) && IsEnqueue(d)
    ensures Enqueued(c.cfg, s.legs, d) == Some(FirstHedge(c.cfg.params.value, filled))
  {
    ReachedInv(c.cfg, c.primary, c.group, actions, c.truth, s);
    d := HedgeOfFill(c.cfg, s.legs, filled, c.truth);
  }

  lemma {:induction false} HedgeOfFill(cfg: Config, legs: seq<Leg>, filled: real, truth: Truth) returns (d: Decision)
    requires Inv(cfg, legs, truth) && Within(legs, truth) && |legs| == 1 && cfg.params.value.ttlSeconds <= 0
    requires legs[0].plan.role.MakerRole? && legs[0].plan.quantity == cfg.params.value.makerTarget
    requires legs[0].order.Some? && !legs[0].order.value.status.PendingCancel? && Fill(legs[0]) == filled
    requires IsActive(legs[0].status) || filled == legs[0].plan.quantity
    requires Desired(cfg.params.value, filled) > Tol(cfg.params.value.hedgeTarget)
    ensures d == Decide(cfg, legs, 0) && IsEnqueue(d)
    ensures Enqueued(cfg, legs, d) == Some(FirstHedge(cfg.params.value, filled))
  {
    FirstFillFacts(cfg.params.value, legs, filled);
    DecisionIs(cfg, legs, 0, truth);
    d := Decide(cfg, legs, 0);
    HedgeDecision(cfg, legs, 0, d.quantity);
  }

  lemma {:induction false} Started(c: Scene)
    requires SceneOk(c)
    ensures At(c, [], Initial(c.primary, c.group))
  {
  }

  /** The maker order is stored and fills for the first time. */
  lemma {:induction false} MakerFills(c: Scene, filled: real, status: OrderStatus)
      returns (actions: seq<Action>, s: State)
    requires SceneOk(c) && 0.0 < filled <= c.truth(0)
    requires status.PartiallyFilled? || (status.Filled? && filled == c.truth(0) == c.primary.quantity)
    ensures At(c, actions, s)
    ensures s.legs == [Ordered(c.primary, filled, EventLegStatus(status, filled), status)]
    ensures s.status == Created && s.group == c.group && s.bookings == []
  {
    var s0 := Initial(c.primary, c.group);
    Started(c);
    var s1 := s0.(legs := s0.legs[0 := Ordered(c.primary, 0.0, LegPlanned, Initialized)]);
    actions := Dispatch(c, [], s0, 0, s1);
    s := s1.(legs := s1.legs[0 := Ordered(c.primary, filled, EventLegStatus(status, filled), status)]);
    actions := Report(c, actions, s1, 0, 0.0, status, filled, s);
  }

  lemma {:induction false} WithinAppended(legs: seq<Leg>, plan: Plan, truth: Truth)
    requires Within(legs, truth) && 0.0 <= truth(|legs|) <= plan.quantity
    ensures Within(legs + [Planned(plan)], truth)
  {
  }

  /** The machine enqueues the hedge of that fill. */
  lemma {:induction false} HedgeEnqueued(c: Scene, actions: seq<Action>, s: State, filled: real)
    returns (more: seq<Action>, t: State)
    requires SceneOk(c) && At(c, actions, s) && |s.legs| == 1 && s.legs[0].plan == c.primary && IsLive(s.status)
    requires s.legs[0].order.Some? && !s.legs[0].order.value.status.PendingCancel? && Fill(s.legs[0]) == filled
    requires IsActive(s.legs[0].status) || filled == c.primary.quantity
    requires Desired(c.cfg.params.value, filled) > Tol(c.cfg.params.value.hedgeTarget)
    requires 0.0 <= c.truth(1) <= Desired(c.cfg.params.value, filled)
    ensures At(c, more, t) && t == EnqueuedState(s, FirstHedge(c.cfg.params.value, filled))
  {
    var d := FillIsHedged(c, actions, s, filled);
    t := EnqueuedState(s, FirstHedge(c.cfg.params.value, filled));
    WithinAppended(s.legs, FirstHedge(c.cfg.params.value, filled), c.truth);
    more := Enqueues(c, actions, s, d, FirstHedge(c.cfg.params.value, filled), t);
  }

  lemma {:induction false} FillAndHedge(c: Scene, filled: real, status: OrderStatus)
      returns (actions: seq<Action>, s: State)
    requires SceneOk(c) && 0.0 < filled <= c.truth(0)
    requires status.PartiallyFilled? || (status.Filled? && filled == c.truth(0) == c.primary.quantity)
    requires Desired(c.cfg.params.value, filled) > Tol(c.cfg.params.value.hedgeTarget)
    requires 0.0 <= c.truth(1) <= Desired(c.cfg.params.value, filled)
    ensures At(c, actions, s)
    ensures s.legs == [Ordered(c.primary, filled, EventLegStatus(status, filled), status),
                       Planned(FirstHedge(c.cfg.params.value, filled))]
    ensures s.status == Running && s.group == c.group && s.bookings == []
  {
    actions, s := MakerFills(c, filled, status);
    actions, s := HedgeEnqueued(c, actions, s, filled);
  }

  /** That hedge is dispatched, and a venue event ends it with a final fill. */
  lemma {:induction false} HedgeEnds(c: Scene, filled: real, maker: OrderStatus, status: OrderStatus)
    returns (actions: seq<Action>, s: State)
    requires SceneOk(c) && 0.0 < filled <= c.truth(0)
    requires maker.PartiallyFilled? || (maker.Filled? && filled == c.truth(0) == c.primary.quantity)
    requires Desired(c.cfg.params.value, filled) > Tol(c.cfg.params.value.hedgeTarget)
    requires 0.0 <= c.truth(1) <= Desired(c.cfg.params.value, filled)
    ensures At(c, actions, s)
    ensures s.legs == [Ordered(c.primary, filled, EventLegStatus(maker, filled), maker),
                       Ordered(FirstHedge(c.cfg.params.value, filled), c.truth(1),
                               EventLegStatus(status, c.truth(1)), status)]
    ensures s.status == Running && s.group == c.group && s.bookings == []
  {
    var hedge := FirstHedge(c.cfg.params.value, filled);
    actions, s := FillAndHedge(c, filled, maker);
    var s1 := s.(legs := s.legs[1 := Ordered(hedge, 0.0, LegPlanned, Initialized)]);
    actions := Dispatch(c, actions, s, 1, s1);
    var s2 := s1.(legs := s1.legs[1 := Ordered(hedge, c.truth(1), EventLegStatus(status, c.truth(1)), status)]);
    actions := Report(c, actions, s1, 1, 0.0, status, c.truth(1), s2);
    s := s2;
  }

  // ------------------------------------------------------------------ flattened, then filled

  /** The maker fills `first`, its hedge is rejected, a compensation of `first` fills, the maker fills up to `all`. */
  ghost predicate Flattening(c: Scene, first: real, all: real) {
    && SceneOk(c) && c.cfg.params.value.autoFlatten
    && 0.0 < first < all <= c.primary.quantity
      && c.truth == ((i: nat) => if i == 0 then all else if i == 1 then 0.0 else first)
    && first > Tol(c.cfg.params.value.makerTarget)
    && Desired(c.cfg.params.value, first) > Tol(c.cfg.params.value.hedgeTarget)
    && Desired(c.cfg.params.value, all) - Desired(c.cfg.params.value, first) > Tol(c.cfg.params.value.hedgeTarget)
  }

  function Undo(c: Scene, first: real): Plan
    requires SoundConfig(c.cfg)
  {
    CompensationPlan(c.cfg.params.value, c.primary, first)
  }

  function Resting(c: Scene, filled: real): Leg {
    Ordered(c.primary, filled, LegPartiallyFilled, PartiallyFilled)
  }

  function Rejection(c: Scene, first: real): Leg
    requires SoundConfig(c.cfg)
  {
    Ordered(FirstHedge(c.cfg.params.value, first), 0.0, LegFailed, Rejected)
  }

  lemma {:induction false} NothingMatched(p: Params, legs: seq<Leg>, filled: real)
    requires p.makerTarget > 0.0 && p.hedgeTarget > 0.0 && filled >= 0.0
    requires Sum(legs, MakerFill) == filled && Sum(legs, HedgeFill) == 0.0
    ensures Unmatched(p, legs) == filled
    ensures Min(Max(MatchedRatio(p, legs), 0.0), 1.0) == 0.0
  {
    assert filled / p.makerTarget >= 0.0;
  }

  lemma {:induction false} RejectionIsUndone(c: Scene, actions: seq<Action>, s: State, first: real, all: real)
    returns (d: Decision)
    requires Flattening(c, first, all) && At(c, actions, s) && s.legs == [Resting(c, first), Rejection(c, first)]
    ensures d == Decide(c.cfg, s.legs, 0) && IsEnqueue(d)
    ensures Enqueued(c.cfg, s.legs, d) == Some(Undo(c, first))
  {
    var p, legs := c.cfg.params.value, s.legs;
    Measures(legs[0], legs[1], Planned(Undo(c, first)));
    assert IsMaker(legs[0].plan) && IsActive(legs[0].status) && legs[1].status.LegFailed?;
    assert AnyActive(legs, true) && AnyFailed(legs, HedgeRole);
    NothingMatched(p, legs, first);
    ReachedInv(c.cfg, c.primary, c.group, actions, c.truth, s);
    NotCanceled(p, legs);
    DecisionIs(c.cfg, legs, 0, c.truth);
    d := Decide(c.cfg, legs, 0);
    assert Flattens(p, legs) && !HedgeOwed(p, legs) && !FallbackOwed(p, legs);
    CompensationDecision(c.cfg, legs, 0, d.quantity);
    PrimaryIsFirst(legs);
  }

  lemma {:induction false} CompensationEnqueued(c: Scene, first: real, all: real)
      returns (actions: seq<Action>, s: State)
    requires Flattening(c, first, all)
    ensures At(c, actions, s) && s.status == Running && s.group == c.group && s.bookings == []
    ensures s.legs == [Resting(c, first), Rejection(c, first), Planned(Undo(c, first))]
  {
    var s0: State;
    actions, s0 := HedgeEnds(c, first, PartiallyFilled, Rejected);
    var d := RejectionIsUndone(c, actions, s0, first, all);
    s := EnqueuedState(s0, Undo(c, first));
    actions := Enqueues(c, actions, s0, d, Undo(c, first), s);
  }

  lemma {:induction false} CompensationFills(c: Scene, first: real, all: real) returns (actions: seq<Action>, s: State)
    requires Flattening(c, first, all)
    ensures At(c, actions, s) && s.status == Running && s.group == c.group && s.bookings == []
    ensures s.legs == [Resting(c, first), Rejection(c, first), Ordered(Undo(c, first), first, LegFilled, Filled)]
  {
    var s1: State;
    actions, s1 := CompensationEnqueued(c, first, all);
    var s2 := s1.(legs := s1.legs[2 := Ordered(Undo(c, first), 0.0, LegPlanned, Initialized)]);
    actions := Dispatch(c, actions, s1, 2, s2);
    s := s2.(legs := s2.legs[2 := Ordered(Undo(c, first), first, LegFilled, Filled)]);
    actions := Report(c, actions, s2, 2, 0.0, Filled, first, s);
  }

  lemma {:induction false} FlattenedFacts(p: Params, legs: seq<Leg>, first: real)
    requires p.makerTarget > 0.0 && p.hedgeTarget > 0.0 && p.ttlSeconds <= 0 && p.autoFlatten && |legs| == 3
    requires legs[0].plan.role.MakerRole? && legs[1].plan.role.HedgeRole? && legs[2].plan.role.CompensationRole?
    requires IsActive(legs[0].status) && legs[1].status.LegFailed? && legs[2].status.LegFilled?
    requires Fill(legs[0]) == first && Fill(legs[1]) == 0.0 && Fill(legs[2]) == first > Tol(p.makerTarget)
    requires legs[0].order.Some? && !legs[0].order.value.status.PendingCancel?
    requires legs[1].plan.quantity == Desired(p, first) > Tol(p.hedgeTarget)
    ensures !CancelFirst(p, legs, 0) && !Owed(p, legs) && Compensated(p, legs)
    ensures Min(Max(MatchedRatio(p, legs), 0.0), 1.0) == 0.0
  {
    assert legs == [legs[0], legs[1], legs[2]];
    Measures(legs[0], legs[1], legs[2]);
    assert IsMaker(legs[0].plan);
    assert AnyActive(legs, true) && AnyFailed(legs, HedgeRole) && !AnyFailed(legs, CompensationRole);
    NothingMatched(p, legs, first);
  }

  lemma {:induction false} CompensationEnds(c: Scene, actions: seq<Action>, s: State, first: real, all: real)
    returns (more: seq<Action>, t: State)
    requires Flattening(c, first, all) && At(c, actions, s) && s.group == c.group && s.bookings == []
    requires s.legs == [Resting(c, first), Rejection(c, first), Ordered(Undo(c, first), first, LegFilled, Filled)]
    ensures At(c, more, t) && t.legs == s.legs && t.status == FailedIntent
  {
    ReachedInv(c.cfg, c.primary, c.group, actions, c.truth, s);
    t := Step(c.cfg, s, AdvancedAt(|s.commands|, 0));
    CompensatedStep(c.cfg, s, first, c.truth);
    assert NeverClosed([AdvancedAt(|s.commands|, 0)]);
    more := Next(c, actions, s, AdvancedAt(|s.commands|, 0), t);
  }

  lemma {:induction false} CompensatedStep(cfg: Config, s: State, first: real, truth: Truth)
    requires Inv(cfg, s.legs, truth) && Within(s.legs, truth) && |s.legs| == 3 && s.bookings == []
    requires cfg.params.value.autoFlatten && cfg.params.value.ttlSeconds <= 0
    requires s.legs[1].plan.role.HedgeRole? && s.legs[2].plan.role.CompensationRole?
    requires IsActive(s.legs[0].status) && s.legs[1].status.LegFailed? && s.legs[2].status.LegFilled?
    requires Fill(s.legs[0]) == first && Fill(s.legs[1]) == 0.0
    requires Fill(s.legs[2]) == first > Tol(cfg.params.value.makerTarget)
    requires s.legs[0].order.Some? && !s.legs[0].order.value.status.PendingCancel?
    requires s.legs[1].plan.quantity == Desired(cfg.params.value, first) > Tol(cfg.params.value.hedgeTarget)
    ensures var t := Step(cfg, s, AdvancedAt(|s.commands|, 0)); t.legs == s.legs && t.status == FailedIntent
  {
    assert Plans(s.legs)[0] == s.legs[0].plan;
    FlattenedFacts(cfg.params.value, s.legs, first);
    DecisionIs(cfg, s.legs, 0, truth);
    var d := Decide(cfg, s.legs, 0);
    NothingBooked(cfg, s, d, Perform(cfg, s, d));
  }

  lemma {:induction false} NothingBooked(cfg: Config, s: State, d: Decision, o: Outcome)
    requires Applicable(cfg, s.legs, d) && d.CompleteCompensated?
        && Min(Max(d.ratio, 0.0), 1.0) == 0.0 && s.bookings == []
    requires o == Perform(cfg, s, d)
    ensures o.Advanced? && o.state.status == FailedIntent && o.state.legs == s.legs
  {
  }

  /**
   With automatic flattening, for all quantities beyond the tolerances: there is an honest run after which the
   intent has failed, and the venue event of the rest of the maker's fill calls for a hedge that is refused, so
   the event is lost with it and the stored fill stays behind the true one.
   */
  lemma {:induction false} FlattenedIntentRefusesHedge(c: Scene, first: real, all: real)
    returns (actions: seq<Action>, s: State, report: Snapshot)
    requires Flattening(c, first, all)
    ensures Reached(c.cfg, c.primary, c.group, actions, c.truth, s) && NeverClosed(actions)
    ensures s.status == FailedIntent && HasOrder(s, 0) && Fill(s.legs[0]) == first < all == c.truth(0)
    ensures Honest(s, OrderReported(0, report), c.truth) && report.filled == all
    ensures Advance(c.cfg, Step(c.cfg, s, OrderReported(0, report)), |s.commands|, 0).Raised?
    ensures EventBatch(c.cfg, s, 0, report, |s.commands|, 0) == s
  {
    actions, s := CompensationFills(c, first, all);
    actions, s := CompensationEnds(c, actions, s, first, all);
    report := LateFill(c, actions, s, first, all);
  }

  lemma {:induction false} LateFill(c: Scene, actions: seq<Action>, s: State, first: real, all: real)
    returns (report: Snapshot)
    requires Flattening(c, first, all) && At(c, actions, s) && s.status == FailedIntent
    requires s.legs == [Resting(c, first), Rejection(c, first), Ordered(Undo(c, first), first, LegFilled, Filled)]
    ensures Honest(s, OrderReported(0, report), c.truth) && report.filled == all
    ensures Advance(c.cfg, Step(c.cfg, s, OrderReported(0, report)), |s.commands|, 0).Raised?
  {
    report := Event(c.primary, PartiallyFilled, all);
    var t := s.(legs := s.legs[0 := Resting(c, all)]);
    var more := Report(c, actions, s, 0, first, PartiallyFilled, all, t);
    LateFillIsRefused(c, more, t, first, all);
  }

  /** The hedge that was rejected covers a smaller fill than the maker has now. */
  lemma {:induction false} MoreIsOwed(p: Params, legs: seq<Leg>, first: real, all: real)
    requires p.makerTarget > 0.0 && p.hedgeTarget > 0.0 && |legs| == 3
    requires legs[0].plan.role.MakerRole? && legs[1].plan.role.HedgeRole?
    requires !legs[2].plan.role.MakerRole? && !legs[2].plan.role.HedgeRole?
    requires Fill(legs[0]) == all && MakerFill(legs[2]) == 0.0 && legs[1].plan.quantity == Desired(p, first)
    requires Desired(p, all) - Desired(p, first) > Tol(p.hedgeTarget)
    ensures HedgeOwed(p, legs)
  {
    assert legs == [legs[0], legs[1], legs[2]];
    Measures(legs[0], legs[1], legs[2]);
  }

  lemma {:induction false} LateFillIsRefused(c: Scene, actions: seq<Action>, s: State, first: real, all: real)
    requires Flattening(c, first, all) && At(c, actions, s) && s.status == FailedIntent
    requires s.legs == [Resting(c, all), Rejection(c, first), Ordered(Undo(c, first), first, LegFilled, Filled)]
    ensures Advance(c.cfg, s, |s.commands|, 0).Raised?
  {
    MoreIsOwed(c.cfg.params.value, s.legs, first, all);
    NotCanceled(c.cfg.params.value, s.legs);
    RefusedExactlyWhenOwed(c.cfg, c.primary, c.group, actions, c.truth, s, |s.commands|, 0);
  }

  // ------------------------------------------------------------------ superseded, then called for

  /**
   No automatic flattening, but a market fallback: the maker fills `first`, its hedge is rejected, the maker ends
   canceled at `all`, below its target.
   */
  ghost predicate Superseding(c: Scene, first: real, all: real) {
    && SceneOk(c) && !c.cfg.params.value.autoFlatten && c.cfg.params.value.marketFallback && c.group.Some?
    && EPSILON < first < all && c.truth == ((i: nat) => if i == 0 then all else 0.0)
    && c.primary.quantity - all > Tol(c.cfg.params.value.makerTarget)
    && Desired(c.cfg.params.value, first) > Tol(c.cfg.params.value.hedgeTarget)
    && Desired(c.cfg.params.value, all) - Desired(c.cfg.params.value, first) > Tol(c.cfg.params.value.hedgeTarget)
  }

  function Ended(c: Scene, all: real): Leg {
    Ordered(c.primary, all, LegFailed, Canceled)
  }

  lemma {:induction false} ShortFacts(p: Params, legs: seq<Leg>, first: real)
    requires p.makerTarget > 0.0 && p.hedgeTarget > 0.0 && p.ttlSeconds <= 0 && !p.autoFlatten && |legs| == 2
    requires legs[0].plan.role.MakerRole? && legs[1].plan.role.HedgeRole?
    requires IsActive(legs[0].status) && legs[1].status.LegFailed?
    requires Fill(legs[0]) == first && Fill(legs[1]) == 0.0
    requires legs[0].order.Some? && !legs[0].order.value.status.PendingCancel?
    requires legs[1].plan.quantity == Desired(p, first) > Tol(p.hedgeTarget)
    ensures !CancelFirst(p, legs, 0) && !Owed(p, legs) && HedgeShort(p, legs) && !Compensated(p, legs)
  {
    assert legs == [legs[0], legs[1]];
    Measures(legs[0], legs[1], Planned(legs[1].plan.(role := CompensationRole)));
    assert IsMaker(legs[0].plan);
    assert AnyActive(legs, true) && AnyFailed(legs, HedgeRole);
  }

  lemma {:induction false} RecoversStep(cfg: Config, s: State, first: real, truth: Truth)
    requires Inv(cfg, s.legs, truth) && Within(s.legs, truth) && |s.legs| == 2 && s.group.Some?
    requires cfg.params.value.ttlSeconds <= 0 && !cfg.params.value.autoFlatten
    requires s.legs[1].plan.role.HedgeRole? && IsActive(s.legs[0].status) && s.legs[1].status.LegFailed?
    requires Fill(s.legs[0]) == first && Fill(s.legs[1]) == 0.0
    requires s.legs[0].order.Some? && !s.legs[0].order.value.status.PendingCancel?
    requires s.legs[1].plan.quantity == Desired(cfg.params.value, first) > Tol(cfg.params.value.hedgeTarget)
    ensures var t := Step(cfg, s, AdvancedAt(|s.commands|, 0));
            t.legs == s.legs && t.status == RecoveryRequired && t.group.Some? && t.group.value.status.GroupManual?
  {
    assert Plans(s.legs)[0] == s.legs[0].plan;
    ShortFacts(cfg.params.value, s.legs, first);
    DecisionIs(cfg, s.legs, 0, truth);
    var d, marked, o := AdvanceIsStep(cfg, s, |s.commands|, 0);
  }

  /** The rejected hedge needs recovery and the group manual intervention; then the worker learns that the
      maker was canceled. */
  lemma {:induction false} MakerEnds(c: Scene, first: real, all: real) returns (actions: seq<Action>, s: State)
    requires Superseding(c, first, all)
    ensures At(c, actions, s) && s.status == RecoveryRequired && s.group.Some? && s.group.value.status.GroupManual?
    ensures s.legs == [Ended(c, all), Rejection(c, first)]
  {
    var s0: State;
    actions, s0 := HedgeEnds(c, first, PartiallyFilled, Rejected);
    ReachedInv(c.cfg, c.primary, c.group, actions, c.truth, s0);
    RecoversStep(c.cfg, s0, first, c.truth);
    var s1 := Step(c.cfg, s0, AdvancedAt(|s0.commands|, 0));
    assert NeverClosed([AdvancedAt(|s0.commands|, 0)]);
    actions := Next(c, actions, s0, AdvancedAt(|s0.commands|, 0), s1);
    s := s1.(legs := s1.legs[0 := Ended(c, all)]);
    actions := MakerCanceled(c, actions, s1, first, all, s);
  }

  lemma {:induction false} MakerCanceled(c: Scene, actions: seq<Action>, s: State, first: real, all: real, t: State)
    returns (more: seq<Action>)
    requires Superseding(c, first, all) && At(c, actions, s) && |s.legs| == 2 && s.legs[0] == Resting(c, first)
    requires t == s.(legs := s.legs[0 := Ended(c, all)])
    ensures At(c, more, t)
  {
    var a := Answered(0, Orders.Report(Canceled, all, 0.0, 0.0));
    CanceledRow(c.primary.quantity, first, all, c.primary.venue == "mt5");
    assert Within(t.legs, c.truth) && Honest(s, a, c.truth) && NeverClosed([a]);
    more := Next(c, actions, s, a, t);
  }

  lemma CanceledRow(requested: real, first: real, all: real, mt5: bool)
    requires 0.0 < first < all && requested - all > EPSILON
    ensures GatewayResult(Row(requested, first, PartiallyFilled), requested,
        mt5, Orders.Report(Canceled, all, 0.0, 0.0))
         == (Row(requested, all, Canceled), LegFailed)
  {
  }

  lemma {:induction false} RestFacts(p: Params, legs: seq<Leg>, all: real)
    requires p.makerTarget > 0.0 && p.hedgeTarget > 0.0 && p.ttlSeconds <= 0 && p.marketFallback && |legs| == 2
    requires legs[0].plan.role.MakerRole? && legs[1].plan.role.HedgeRole? && legs[0].status.LegFailed?
    requires Fill(legs[0]) == all && p.makerTarget - all > Tol(p.makerTarget)
    requires legs[0].order.Some? && !legs[0].order.value.status.PendingCancel?
    ensures !CancelFirst(p, legs, 0) && FallbackOwed(p, legs)
    ensures Count(Plans(legs), MakerRole) + Count(Plans(legs), FallbackRole) == 1
  {
    assert legs == [legs[0], legs[1]];
    Measures(legs[0], legs[1], Planned(legs[1].plan.(role := CompensationRole)));
    assert !AnyActive(legs, true);
  }

  lemma {:induction false} RestIsAsked(c: Scene, actions: seq<Action>, s: State, all: real)
      returns (d: Decision, plan: Plan)
    requires At(c, actions, s) && SoundConfig(c.cfg) && |s.legs| == 2 && s.legs[1].plan.role.HedgeRole?
    requires c.cfg.params.value.ttlSeconds <= 0 && c.cfg.params.value.marketFallback
    requires s.legs[0].status.LegFailed? && Fill(s.legs[0]) == all
    requires s.legs[0].order.Some? && !s.legs[0].order.value.status.PendingCancel?
    requires c.cfg.params.value.makerTarget - all > Tol(c.cfg.params.value.makerTarget)
    ensures d == Decide(c.cfg, s.legs, 0) && IsEnqueue(d) && Enqueued(c.cfg, s.legs, d) == Some(plan)
    ensures plan.role.FallbackRole? && plan.quantity == c.cfg.params.value.makerTarget - all
  {
    ReachedInv(c.cfg, c.primary, c.group, actions, c.truth, s);
    d, plan := RestOfTarget(c.cfg, s.legs, all, c.truth);
  }

  lemma {:induction false} RestOfTarget(cfg: Config, legs: seq<Leg>, all: real, truth: Truth)
      returns (d: Decision, plan: Plan)
    requires Inv(cfg, legs, truth) && Within(legs, truth) && |legs| == 2
    requires cfg.params.value.ttlSeconds <= 0 && cfg.params.value.marketFallback
    requires legs[1].plan.role.HedgeRole? && legs[0].status.LegFailed? && Fill(legs[0]) == all
    requires legs[0].order.Some? && !legs[0].order.value.status.PendingCancel?
    requires cfg.params.value.makerTarget - all > Tol(cfg.params.value.makerTarget)
    ensures d == Decide(cfg, legs, 0) && IsEnqueue(d) && Enqueued(cfg, legs, d) == Some(plan)
    ensures plan.role.FallbackRole? && plan.quantity == cfg.params.value.makerTarget - all
  {
    assert Plans(legs)[0] == legs[0].plan;
    RestFacts(cfg.params.value, legs, all);
    DecisionIs(cfg, legs, 0, truth);
    d := Decide(cfg, legs, 0);
    FallbackAsksForTheRest(cfg, legs, 0, d.quantity, truth);
    PrimaryIsFirst(legs);
    plan := Enqueued(cfg, legs, d).value;
  }

  /** The fallback is enqueued, a crash loses its claim, and the operator supersedes the intent. */
  lemma {:induction false} OperatorSupersedes(c: Scene, first: real, all: real)
    returns (actions: seq<Action>, s: State, plan: Plan)
    requires Superseding(c, first, all)
    ensures Reached(c.cfg, c.primary, c.group, actions, c.truth, s) && s.status == IntentStatus.Superseded
    ensures s.legs == [Ended(c, all), Rejection(c, first), Planned(plan)] && plan.role.FallbackRole?
  {
    var s0: State;
    var d: Decision;
    actions, s0 := MakerEnds(c, first, all);
    d, plan := RestIsAsked(c, actions, s0, all);
    var s1 := EnqueuedState(s0, plan);
    WithinAppended(s0.legs, plan, c.truth);
    actions := Enqueues(c, actions, s0, d, plan, s1);
    actions, s := Supersedes(c, actions, s1, first, all, plan);
  }

  lemma {:induction false} Supersedes(c: Scene, actions: seq<Action>, s: State, first: real, all: real, plan: Plan)
    returns (more: seq<Action>, t: State)
    requires Superseding(c, first, all) && At(c, actions, s) && s.group.Some? && s.group.value.status.GroupManual?
    requires s.legs == [Ended(c, all), Rejection(c, first), Planned(plan)]
    ensures Reached(c.cfg, c.primary, c.group, more, c.truth, t)
        && t.status == IntentStatus.Superseded && t.legs == s.legs
  {
    var marked := s.(status := RecoveryRequired);
    more := Longer(c, actions, s, IntentMarked(RecoveryRequired), marked);
    NothingPending(marked, c, first, all, plan);
    t := Step(c.cfg, marked, MakerRuns.Superseded);
    more := Longer(c, more, marked, MakerRuns.Superseded, t);
  }

  lemma {:induction false} NothingPending(s: State, c: Scene, first: real, all: real, plan: Plan)
    requires Superseding(c, first, all) && s.status.RecoveryRequired? && s.group.Some?
        && s.group.value.status.GroupManual?
    requires s.legs == [Ended(c, all), Rejection(c, first), Planned(plan)]
    ensures CanSupersede(s)
  {
    assert Fill(s.legs[0]) > EPSILON;
  }

  /**
   Without automatic flattening, for all quantities beyond the tolerances: there is an honest run in which the
   operator supersedes the intent, and any late event of its rejected hedge calls for a hedge that is refused,
   so the event is lost.
   */
  lemma {:induction false} SupersededIntentRefusesHedge(c: Scene, first: real, all: real)
    returns (actions: seq<Action>, s: State, report: Snapshot)
    requires Superseding(c, first, all)
    ensures Reached(c.cfg, c.primary, c.group, actions, c.truth, s) && s.status == IntentStatus.Superseded
    ensures HasOrder(s, 1) && s.legs[1].plan.role.HedgeRole? && Honest(s, OrderReported(1, report), c.truth)
    ensures Advance(c.cfg, Step(c.cfg, s, OrderReported(1, report)), |s.commands|, 0).Raised?
    ensures EventBatch(c.cfg, s, 1, report, |s.commands|, 0) == s
  {
    var plan;
    actions, s, plan := OperatorSupersedes(c, first, all);
    report := Event(s.legs[1].plan, Rejected, 0.0);
    ReportStep(c.cfg, s, 1, 0.0, Rejected, 0.0);
    assert Step(c.cfg, s, OrderReported(1, report)) == s;
    MoreIsOwed(c.cfg.params.value, s.legs, first, all);
    RefusedExactlyWhenOwed(c.cfg, c.primary, c.group, actions, c.truth, s, |s.commands|, 0);
  }

  // ------------------------------------------------------------------ booked, then reopened

  /** An opening intent whose maker and hedge fill completely. */
  ghost predicate Completing(c: Scene) {
    && SceneOk(c) && c.cfg.opening && c.group.Some?
    && c.truth == ((i: nat) => if i == 0 then c.primary.quantity else Desired(c.cfg.params.value, c.primary.quantity))
    && Desired(c.cfg.params.value, c.primary.quantity) > Tol(c.cfg.params.value.hedgeTarget)
  }

  lemma FullIsDesired(p: Params)
    requires p.makerTarget > 0.0 && p.hedgeTarget > 0.0
    ensures Desired(p, p.makerTarget) == p.hedgeTarget && p.hedgeTarget / p.hedgeTarget == 1.0
        && p.makerTarget / p.makerTarget == 1.0
  {
  }

  lemma {:induction false} CompleteFacts(p: Params, legs: seq<Leg>)
    requires p.makerTarget > 0.0 && p.hedgeTarget > 0.0 && p.ttlSeconds <= 0 && |legs| == 2
    requires legs[0].plan.role.MakerRole? && legs[1].plan.role.HedgeRole?
    requires legs[0].status.LegFilled? && legs[1].status.LegFilled?
    requires Fill(legs[0]) == p.makerTarget && Fill(legs[1]) == legs[1].plan.quantity == Desired(p, p.makerTarget)
    requires legs[0].order.Some? && !legs[0].order.value.status.PendingCancel?
    ensures !CancelFirst(p, legs, 0) && !Owed(p, legs) && Matched(p, legs) && MatchedRatio(p, legs) == 1.0
  {
    assert legs == [legs[0], legs[1]];
    Measures(legs[0], legs[1], Planned(legs[1].plan.(role := CompensationRole)));
    FullIsDesired(p);
    assert !AnyActive(legs, true) && !AnyActive(legs, false);
  }

  lemma {:induction false} BooksStep(cfg: Config, s: State, truth: Truth)
    requires Inv(cfg, s.legs, truth) && Within(s.legs, truth) && |s.legs| == 2 && s.group.Some? && s.bookings == []
    requires cfg.opening && cfg.params.value.ttlSeconds <= 0
    requires s.legs[1].plan.role.HedgeRole? && s.legs[0].status.LegFilled? && s.legs[1].status.LegFilled?
    requires var p := cfg.params.value;
             Fill(s.legs[0]) == p.makerTarget && Fill(s.legs[1]) == s.legs[1].plan.quantity == Desired(p, p.makerTarget)
    requires s.legs[0].order.Some? && !s.legs[0].order.value.status.PendingCancel?
    ensures var t := Step(cfg, s, AdvancedAt(|s.commands|, 0));
            && t.legs == s.legs && t.status == Completed && t.group.Some? && t.bookings == [1.0]
            && Matched(cfg.params.value, t.legs) && !Owed(cfg.params.value, t.legs)
  {
    assert Plans(s.legs)[0] == s.legs[0].plan;
    CompleteFacts(cfg.params.value, s.legs);
    DecisionIs(cfg, s.legs, 0, truth);
    var d, marked, o := AdvanceIsStep(cfg, s, |s.commands|, 0);
    BookedWhole(cfg, s, d, o);
  }

  lemma {:induction false} BookedWhole(cfg: Config, s: State, d: Decision, o: Outcome)
    requires Applicable(cfg, s.legs, d) && d == CompleteMatched(1.0) && s.bookings == [] && s.group.Some? && cfg.opening
    requires o == Perform(cfg, s, d)
    ensures o.Advanced? && o.state.legs == s.legs && o.state.status == Completed && o.state.group.Some?
    ensures o.state.bookings == [1.0]
  {
  }

  /**
   There is an honest run that books the whole opening and completes the intent; a stale report that the maker
   order is accepted makes it run again, and by `BookedIntentNeverFinishesAgain` it is never completed again.
   */
  lemma {:induction false} CompletedIntentReopens(c: Scene) returns (actions: seq<Action>, s: State, report: Snapshot)
    requires Completing(c)
    ensures Reached(c.cfg, c.primary, c.group, actions, c.truth, s) && NeverClosed(actions)
    ensures s.status == Completed && s.group.Some? && s.bookings == [1.0]
    ensures HasOrder(s, 0) && Honest(s, OrderReported(0, report), c.truth)
    ensures Step(c.cfg, Step(c.cfg, s, OrderReported(0, report)), AdvancedAt(|s.commands|, 0)).status != Completed
  {
    actions, s := WholeBooked(c);
    report := Event(c.primary, Accepted, c.primary.quantity);
    ReachedInv(c.cfg, c.primary, c.group, actions, c.truth, s);
    StaleReportReopensIff(c.cfg, s, 0, report, |s.commands|, 0, c.truth);
  }

  lemma {:induction false} WholeBooked(c: Scene) returns (actions: seq<Action>, s: State)
    requires Completing(c)
    ensures At(c, actions, s) && s.status == Completed && s.group.Some? && s.bookings == [1.0]
    ensures |s.legs| == 2 && s.legs[0] == Ordered(c.primary, c.primary.quantity, LegFilled, Filled)
    ensures Matched(c.cfg.params.value, s.legs) && !Owed(c.cfg.params.value, s.legs)
  {
    var s0: State;
    actions, s0 := HedgeEnds(c, c.primary.quantity, Filled, Filled);
    ReachedInv(c.cfg, c.primary, c.group, actions, c.truth, s0);
    BooksStep(c.cfg, s0, c.truth);
    s := Step(c.cfg, s0, AdvancedAt(|s0.commands|, 0));
    assert NeverClosed([AdvancedAt(|s0.commands|, 0)]);
    actions := Next(c, actions, s0, AdvancedAt(|s0.commands|, 0), s);
  }
}
