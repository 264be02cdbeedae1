/**
 Runs of one maker intent: advances of the state machine interleaved in any order with dispatches,
 gateway replies, venue events, cancel answers and status changes made by the worker.
 The venue is assumed honest: see `Honest`.
 */
module MakerRuns {
  import opened Common
  import opened Orders
  import opened Lifecycle
  import opened Maker

  /** The quantity that each leg finally fills at its venue, by leg index. */
  type Truth = nat -> real

  datatype Action =
    | Dispatched(leg: nat)
    | Answered(leg: nat, report: Report)
    | SubmitRaised(leg: nat, outcomeUnknown: bool)
    | OrderReported(leg: nat, snapshot: Snapshot)
    | FillReported(leg: nat, before: Totals, quantity: real, price: real, commission: real)
    | CancelAccepted(leg: nat)
    | IntentMarked(status: IntentStatus)
    | CommandMarked(index: nat, mark: OutboxStatus)
    | Superseded
    | AdvancedAt(current: nat, elapsed: int)

  function Store(s: State, i: nat, row: (VenueOrder, LegStatus)): State
    requires i < |s.legs|
  {
    s.(legs := s.legs[i := s.legs[i].(status := row.1, order := Some(row.0))])
  }

  predicate HasOrder(s: State, i: nat) {
    i < |s.legs| && s.legs[i].order.Some?
  }

  /**
   When an operator may replace an intent by a recovery intent: it needs recovery, its group is in manual
   intervention or failed, no order is pending, and something was filled.
   */
  predicate CanSupersede(s: State) {
    && s.status.RecoveryRequired? && s.group.Some?
    && (s.group.value.status.GroupManual? || s.group.value.status.GroupFailed?)
    && (forall i | 0 <= i < |s.legs| && s.legs[i].order.Some? :: !IsNonTerminal(s.legs[i].order.value.status))
    && (exists i | 0 <= i < |s.legs| :: Fill(s.legs[i]) > EPSILON)
  }

  /** The effect of one action; an action on a row that does not exist does nothing. */
  function Step(cfg: Config, s: State, a: Action): State {
    match a
    case Dispatched(i) =>
      if i < |s.legs| && s.legs[i].order.None? then
        Store(s, i, (NewOrder(s.legs[i].plan.quantity), s.legs[i].status))
      else s
    case Answered(i, r) =>
      if HasOrder(s, i) then
        Store(s, i, GatewayResult(s.legs[i].order.value, s.legs[i].plan.quantity, s.legs[i].plan.venue == "mt5", r))
      else s
    case SubmitRaised(i, unknown) =>
      if HasOrder(s, i) then Store(s, i, DispatchException(s.legs[i].order.value, unknown)) else s
    case OrderReported(i, snapshot) =>
      if HasOrder(s, i) then
        Store(s, i, OrderEvent(s.legs[i].order.value, s.legs[i].plan.venue == "mt5", snapshot))
      else s
    case FillReported(i, before, q, price, fee) =>
      if HasOrder(s, i) then
        Store(s, i, FillEvent(s.legs[i].order.value, s.legs[i].plan.venue == "mt5", before, q, price, fee))
      else s
    case CancelAccepted(i) =>
      if HasOrder(s, i) then
        Store(s, i, (s.legs[i].order.value.(status := PendingCancel), s.legs[i].status)).(status := Running)
      else s
    case IntentMarked(status) => s.(status := status)
    case Superseded =>
      if CanSupersede(s) then
        s.(status := IntentStatus.Superseded, group := Some(s.group.value.(status := GroupClosing)))
      else s
    case CommandMarked(j, mark) =>
      if j < |s.commands| then s.(commands := s.commands[j := s.commands[j].(status := mark)]) else s
    case AdvancedAt(current, elapsed) =>
      var o := Advance(cfg, s, current, elapsed);
      if o.Raised? then s else o.state
  }

  function Run(cfg: Config, s: State, actions: seq<Action>): State {
    if actions == [] then s else Step(cfg, Run(cfg, s, actions[..|actions| - 1]), actions[|actions| - 1])
  }

  /** A reported total never passes the final one, and one within the epsilon of the request is the final one. */
  ghost predicate HonestFill(filled: real, requested: real, final: real) {
    filled <= final && (requested - filled <= EPSILON ==> filled == final)
  }

  /**
   What is assumed of the environment at each action: fills as in `HonestFill`; a report that ends an
   order carries its final fill; and a submission refused for certain fills no more. The intent may be
   marked with any status at any time, and may be superseded.
   */
  ghost predicate Honest(s: State, a: Action, truth: Truth) {
    match a
    case Answered(i, r) =>
      HasOrder(s, i) ==>
        var filled := Max(s.legs[i].order.value.filled, Max(r.filled, 0.0));
        HonestFill(filled, s.legs[i].plan.quantity, truth(i))
        && (r.status.Filled? || IsFailure(r.status) ==> filled == truth(i))
    case SubmitRaised(i, unknown) => HasOrder(s, i) && !unknown ==> s.legs[i].order.value.filled == truth(i)
    case OrderReported(i, snapshot) =>
      HasOrder(s, i) ==>
        var filled := Max(s.legs[i].order.value.filled, snapshot.filled);
        filled <= truth(i)
        && (snapshot.status.Filled? || IsFailure(snapshot.status) ==> filled == truth(i))
    case FillReported(i, before, q, _, _) =>
      HasOrder(s, i) ==>
        HonestFill(Max(s.legs[i].order.value.filled, before.quantity + q), s.legs[i].plan.quantity, truth(i))
    case _ => true
  }

  /** The action stores a report, an answer or an order of one leg. */
  predicate OnLeg(a: Action) {
    !a.IntentMarked? && !a.CommandMarked? && !a.Superseded? && !a.AdvancedAt?
  }

  /** Nobody but the state machine itself ends the intent: it is not superseded, rolled back or voided. */
  predicate NeverClosed(actions: seq<Action>) {
    forall n | 0 <= n < |actions| :: !actions[n].Superseded? && (actions[n].IntentMarked? ==> IsLive(actions[n].status))
  }

  ghost predicate HonestRun(cfg: Config, s: State, actions: seq<Action>, truth: Truth) {
    actions == [] ||
    (HonestRun(cfg, s, actions[..|actions| - 1], truth)
     && Honest(Run(cfg, s, actions[..|actions| - 1]), actions[|actions| - 1], truth))
  }

  /** No venue fills more than was requested. */
  ghost predicate Within(legs: seq<Leg>, truth: Truth) {
    forall i: nat | i < |legs| :: 0.0 <= truth(i) <= legs[i].plan.quantity
  }

  // ------------------------------------------------------------------ the invariant

  ghost predicate SoundConfig(cfg: Config) {
    cfg.params.Some? && cfg.params.value.makerTarget > 0.0 && cfg.params.value.hedgeTarget > 0.0
    && cfg.params.value.template.strategyQuantity > 0.0
  }

  /** The plan that the coordinator stores first: a maker leg for the whole maker target. */
  ghost predicate SoundPrimary(p: Params, plan: Plan) {
    plan.role.MakerRole? && plan.quantity == p.makerTarget && plan.strategyQuantity > 0.0
    && plan.key in {"leg_a", "leg_b"}
  }

  ghost predicate LegOk(leg: Leg, final: real) {
    (leg.order.Some? ==>
       leg.order.value.requested == leg.plan.quantity && 0.0 <= leg.order.value.filled <= final)
    && (!IsActive(leg.status) ==> leg.order.Some? && leg.order.value.filled == final)
  }

  ghost predicate KeyOk(plans: seq<Plan>, j: nat)
    requires j < |plans|
  {
    plans[j].key ==
    match plans[j].role
    case MakerRole => plans[0].key
    case FallbackRole => "maker_fallback_1"
    case HedgeRole => "hedge_" + NatToString(Count(plans[..j], HedgeRole))
    case CompensationRole => "compensation_0"
  }

  ghost predicate PlansOk(p: Params, plans: seq<Plan>) {
    && |plans| > 0 && SoundPrimary(p, plans[0])
    && (forall j | 0 < j < |plans| :: !plans[j].role.MakerRole?)
    && KeysOk(plans)
    && (forall j | 0 <= j < |plans| :: plans[j].role.HedgeRole? ==> plans[j].quantity > Tol(p.hedgeTarget))
    && Count(plans, FallbackRole) <= 1
    && Count(plans, CompensationRole) <= 1
    && InProportion(p, plans)
  }

  ghost predicate KeysOk(plans: seq<Plan>) {
    forall j | 0 <= j < |plans| :: KeyOk(plans, j)
  }

  /** The hedge legs carry the template's strategy quantity in proportion to their order quantity. */
  ghost predicate InProportion(p: Params, plans: seq<Plan>) {
    Sum(plans, HedgeStrategy) * p.hedgeTarget == p.template.strategyQuantity * Sum(plans, HedgeQuantity)
  }

  /** Once there is a fallback leg, the primary is final and the fallback asks for exactly the rest. */
  ghost predicate FallbackOk(p: Params, legs: seq<Leg>, truth: Truth)
    requires |legs| > 0
  {
    if Count(Plans(legs), FallbackRole) == 0 then Sum(Plans(legs), FallbackQuantity) == 0.0
    else Sum(Plans(legs), FallbackQuantity) == p.makerTarget - truth(0) && Fill(legs[0]) == truth(0)
  }

  ghost predicate Inv(cfg: Config, legs: seq<Leg>, truth: Truth) {
    && SoundConfig(cfg)
    && PlansOk(cfg.params.value, Plans(legs))
    && (forall i: nat | i < |legs| :: LegOk(legs[i], truth(i)))
    && FallbackOk(cfg.params.value, legs, truth)
    && Sum(Plans(legs), HedgeQuantity) <= Desired(cfg.params.value, Sum(legs, MakerFill))
    && Sum(Plans(legs), CompensationQuantity) <= Sum(legs, MakerFill)
  }

  // ------------------------------------------------------------------ facts about the measures

  lemma {:induction false} DesiredMonotone(p: Params, a: real, b: real)
    requires p.makerTarget > 0.0 && p.hedgeTarget > 0.0 && a <= b
    ensures Desired(p, a) <= Desired(p, b)
    ensures 0.0 <= Desired(p, a) <= p.hedgeTarget
  {
    Quotients(a, b, p.makerTarget);
    ShareMonotone(p.hedgeTarget, a / p.makerTarget, b / p.makerTarget);
  }

  lemma {:induction false} Quotients(a: real, b: real, d: real)
    requires d > 0.0 && a <= b
    ensures a / d <= b / d
  {
  }

  lemma {:induction false} ShareMonotone(k: real, x: real, y: real)
    requires k > 0.0 && x <= y
    ensures Share(k, x) <= Share(k, y) && 0.0 <= Share(k, x) <= k
  {
    var u, v := Min(Max(x, 0.0), 1.0), Min(Max(y, 0.0), 1.0);
    assert Share(k, x) == k * u && Share(k, y) == k * v && k * 1.0 == k;
    Scaled(k, u, v);
    Scaled(k, u, 1.0);
  }

  lemma {:induction false} Scaled(k: real, a: real, b: real)
    requires k >= 0.0 && 0.0 <= a <= b
    ensures 0.0 <= k * a <= k * b
  {
  }

  lemma {:induction false} PlansUpdate(legs: seq<Leg>, i: nat, leg: Leg)
    requires i < |legs| && leg.plan == legs[i].plan
    ensures Plans(legs[i := leg]) == Plans(legs)
  {
  }

  lemma {:induction false} PlansAppend(legs: seq<Leg>, leg: Leg)
    ensures Plans(legs + [leg]) == Plans(legs) + [leg.plan]
  {
  }

  lemma {:induction false} CountAppend(plans: seq<Plan>, plan: Plan, role: Role)
    ensures Count(plans + [plan], role) == Count(plans, role) + if plan.role == role then 1 else 0
  {
    assert (plans + [plan])[..|plans|] == plans;
  }

  lemma {:induction false} CountBefore(plans: seq<Plan>, j: nat, role: Role)
    requires j < |plans| && plans[j].role == role
    ensures Count(plans[..j], role) < Count(plans, role)
  {
    var n := |plans| - 1;
    if j < n {
      assert plans[..n][..j] == plans[..j];
      CountBefore(plans[..n], j, role);
    }
  }

  lemma {:induction false} SumWithoutCompensation(plans: seq<Plan>)
    requires Count(plans, CompensationRole) == 0
    ensures Sum(plans, CompensationQuantity) == 0.0
  {
    if plans != [] {
      SumWithoutCompensation(plans[..|plans| - 1]);
    }
  }

  lemma {:induction false} OneMaker(plans: seq<Plan>)
    requires |plans| > 0 && plans[0].role.MakerRole?
    requires forall j | 0 < j < |plans| :: !plans[j].role.MakerRole?
    ensures Count(plans, MakerRole) == 1
  {
    if |plans| > 1 {
      OneMaker(plans[..|plans| - 1]);
    } else {
      assert plans[..0] == [];
    }
  }

  lemma {:induction false} PrimaryIsFirst(legs: seq<Leg>)
    requires |legs| > 0 && legs[0].plan.role.MakerRole?
    ensures Primary(legs) == 0
  {
  }

  // ------------------------------------------------------------------ reports keep the invariant

  lemma {:induction false} ReportKeeps(cfg: Config, legs: seq<Leg>, i: nat, leg: Leg, truth: Truth)
    requires Inv(cfg, legs, truth) && i < |legs|
    requires leg.plan == legs[i].plan && LegOk(leg, truth(i)) && Fill(leg) >= Fill(legs[i])
    ensures Inv(cfg, legs[i := leg], truth)
  {
    var p := cfg.params.value;
    PlansUpdate(legs, i, leg);
    SumUpdate(legs, i, leg, MakerFill);
    DesiredMonotone(p, Sum(legs, MakerFill), Sum(legs[i := leg], MakerFill));
  }

  /** The row that an action stores for a leg. */
  predicate StoresRow(s: State, a: Action, i: nat, row: (VenueOrder, LegStatus))
    requires i < |s.legs|
  {
    || (a == Dispatched(i) && s.legs[i].order.None? && row == (NewOrder(s.legs[i].plan.quantity), s.legs[i].status))
    || (s.legs[i].order.Some?
        && var o, mt5 := s.legs[i].order.value, s.legs[i].plan.venue == "mt5";
           || (a.Answered? && a.leg == i && row == GatewayResult(o, s.legs[i].plan.quantity, mt5, a.report))
           || (a.SubmitRaised? && a.leg == i && row == DispatchException(o, a.outcomeUnknown))
           || (a.OrderReported? && a.leg == i && row == OrderEvent(o, mt5, a.snapshot))
           || (a.FillReported? && a.leg == i
               && row == FillEvent(o, mt5, a.before, a.quantity, a.price, a.commission))
           || (a == CancelAccepted(i) && row == (o.(status := PendingCancel), s.legs[i].status)))
  }

  lemma {:induction false} StoredRowOk(s: State, a: Action, i: nat, row: (VenueOrder, LegStatus), truth: Truth)
    requires i < |s.legs| && LegOk(s.legs[i], truth(i)) && truth(i) <= s.legs[i].plan.quantity && truth(i) >= 0.0
    requires Honest(s, a, truth) && StoresRow(s, a, i, row)
    ensures LegOk(s.legs[i].(status := row.1, order := Some(row.0)), truth(i))
    ensures Fill(s.legs[i].(status := row.1, order := Some(row.0))) >= Fill(s.legs[i])
  {
  }

  /** An action other than an advance stores one row, or changes no leg; it books nothing. */
  lemma {:induction false} ActionRow(cfg: Config, s: State, a: Action)
    requires !a.AdvancedAt?
    ensures var t := Step(cfg, s, a);
            && t.bookings == s.bookings
            && (a.Superseded? || a.IntentMarked? || t.status == s.status || IsLive(t.status))
            && (t.legs == s.legs
                || (OnLeg(a) && a.leg < |s.legs| && a.leg < |t.legs| && t.legs[a.leg].order.Some?
                    && var i, leg := a.leg, t.legs[a.leg];
                       && t.legs == s.legs[i := s.legs[i].(status := leg.status, order := leg.order)]
                       && StoresRow(s, a, i, (leg.order.value, leg.status))))
  {
  }

  /** What an action other than an advance does: at most one leg's row changes, in a way that its truth allows. */
  lemma {:induction false} ActionLegs(cfg: Config, s: State, a: Action, truth: Truth) returns (i: nat, leg: Leg)
    requires Inv(cfg, s.legs, truth) && Within(s.legs, truth) && Honest(s, a, truth) && !a.AdvancedAt?
    ensures i < |s.legs| && Step(cfg, s, a).legs == s.legs[i := leg] && Step(cfg, s, a).bookings == s.bookings
    ensures leg.plan == s.legs[i].plan && LegOk(leg, truth(i)) && Fill(leg) >= Fill(s.legs[i])
    ensures leg == s.legs[i] || leg.order.Some?
    ensures a.Superseded? || a.IntentMarked? || Step(cfg, s, a).status == s.status || IsLive(Step(cfg, s, a).status)
  {
    i, leg := 0, s.legs[0];
    ActionRow(cfg, s, a);
    if Step(cfg, s, a).legs != s.legs {
      i, leg := a.leg, Step(cfg, s, a).legs[a.leg];
      StoredRowOk(s, a, i, (leg.order.value, leg.status), truth);
    }
  }

  lemma {:induction false} ActionKeeps(cfg: Config, s: State, a: Action, truth: Truth)
    requires Inv(cfg, s.legs, truth) && Within(s.legs, truth) && Honest(s, a, truth) && !a.AdvancedAt?
    ensures Inv(cfg, Step(cfg, s, a).legs, truth)
    ensures Plans(Step(cfg, s, a).legs) == Plans(s.legs)
  {
    var i, leg := ActionLegs(cfg, s, a, truth);
    ReportKeeps(cfg, s.legs, i, leg, truth);
    PlansUpdate(s.legs, i, leg);
  }

  // ------------------------------------------------------------------ enqueuing keeps the invariant

  lemma {:induction false} FreshKey(p: Params, plans: seq<Plan>, role: Role, key: string)
    requires PlansOk(p, plans)
    requires
      || (role.FallbackRole? && Count(plans, role) == 0 && key == "maker_fallback_1")
      || (role.HedgeRole? && key == "hedge_" + NatToString(Count(plans, role)))
      || (role.CompensationRole? && Count(plans, role) == 0 && key == "compensation_0")
    ensures forall j | 0 <= j < |plans| :: plans[j].key != key
  {
    forall j | 0 <= j < |plans|
      ensures plans[j].key != key
    {
      assert KeyOk(plans, j);
      if plans[j].role == role {
        CountBefore(plans, j, role);
        if plans[j].key == key {
          assert role.HedgeRole?;
          var m, n := Count(plans[..j], role), Count(plans, role);
          assert NatToString(m) == plans[j].key[6..] == key[6..] == NatToString(n);
          NatToStringInjective(m, n);
        }
      } else {
        assert plans[j].key[0] != key[0];
      }
    }
  }

  lemma {:induction false} AppendKeeps(p: Params, plans: seq<Plan>, plan: Plan)
    requires PlansOk(p, plans) && !plan.role.MakerRole?
    requires KeyOk(plans + [plan], |plans|)
    requires plan.role.HedgeRole? ==> plan.quantity > Tol(p.hedgeTarget)
    requires plan.role.HedgeRole? ==>
        plan.strategyQuantity * p.hedgeTarget == p.template.strategyQuantity * plan.quantity
    requires !plan.role.HedgeRole? ==> Count(plans, plan.role) == 0
    ensures PlansOk(p, plans + [plan])
  {
    KeysAppend(plans, plan);
    CountAppend(plans, plan, FallbackRole);
    CountAppend(plans, plan, CompensationRole);
    ProportionAppend(p, plans, plan);
  }

  lemma {:induction false} KeysAppend(plans: seq<Plan>, plan: Plan)
    requires |plans| > 0 && KeysOk(plans) && KeyOk(plans + [plan], |plans|)
    ensures KeysOk(plans + [plan])
  {
    var more := plans + [plan];
    forall j | 0 <= j < |more|
      ensures KeyOk(more, j)
    {
      if j < |plans| {
        assert more[..j] == plans[..j];
        assert KeyOk(plans, j);
      }
    }
  }

  lemma {:induction false} ProportionAppend(p: Params, plans: seq<Plan>, plan: Plan)
    requires InProportion(p, plans)
    requires plan.role.HedgeRole? ==>
        plan.strategyQuantity * p.hedgeTarget == p.template.strategyQuantity * plan.quantity
    ensures InProportion(p, plans + [plan])
  {
    SumAppend(plans, plan, HedgeStrategy);
    SumAppend(plans, plan, HedgeQuantity);
    Distribute(Sum(plans, HedgeStrategy), HedgeStrategy(plan), p.hedgeTarget);
    Distribute(Sum(plans, HedgeQuantity), HedgeQuantity(plan), p.template.strategyQuantity);
  }

  lemma {:induction false} Distribute(a: real, b: real, k: real)
    ensures (a + b) * k == a * k + b * k
    ensures k * (a + b) == k * a + k * b
  {
  }

  lemma {:induction false} Proportion(whole: real, q: real, target: real)
    requires target != 0.0
    ensures whole * q / target * target == whole * q
    ensures whole > 0.0 && q > 0.0 && target > 0.0 ==> whole * q / target > 0.0
  {
  }

  lemma {:induction false} OnlyPrimaryFills(legs: seq<Leg>)
    requires |legs| > 0 && legs[0].plan.role.MakerRole?
    requires forall j | 0 < j < |legs| :: !legs[j].plan.role.MakerRole?
    requires Count(Plans(legs), FallbackRole) == 0
    ensures Sum(legs, MakerFill) == Fill(legs[0])
  {
    var n := |legs| - 1;
    if n > 0 {
      assert Plans(legs)[..n] == Plans(legs[..n]);
      OnlyPrimaryFills(legs[..n]);
    } else {
      assert legs[..0] == [];
    }
  }

  lemma {:induction false} PrimaryFillBelowSum(cfg: Config, legs: seq<Leg>, truth: Truth)
    requires Inv(cfg, legs, truth)
    ensures 0.0 <= Fill(legs[0]) <= Sum(legs, MakerFill)
  {
    forall i: nat | i < |legs|
      ensures MakerFill(legs[i]) >= 0.0
    {
      assert LegOk(legs[i], truth(i));
    }
    SumNonNegative(legs, MakerFill);
    assert Plans(legs)[0] == legs[0].plan;
    assert MakerFill(legs[0]) == Fill(legs[0]);
  }

  lemma {:induction false} NoFallbackYet(cfg: Config, legs: seq<Leg>, truth: Truth)
    requires Inv(cfg, legs, truth) && FallbackRemaining(cfg.params.value, legs) > 0.0
    ensures Count(Plans(legs), FallbackRole) == 0
  {
    PrimaryFillBelowSum(cfg, legs, truth);
  }

  /**
   A fallback leg is enqueued only when no maker leg is active and there is none yet, and it asks for
   exactly what the primary leaves of the maker target.
   */
  lemma {:induction false} FallbackAsksForTheRest(cfg: Config, legs: seq<Leg>, elapsed: int, q: real, truth: Truth)
    requires Inv(cfg, legs, truth) && Decide(cfg, legs, elapsed) == EnqueueFallback(q)
    ensures q == cfg.params.value.makerTarget - Fill(legs[0]) && q > Tol(cfg.params.value.makerTarget)
    ensures Count(Plans(legs), FallbackRole) == 0 && !AnyActive(legs, true)
    ensures Fill(legs[0]) == truth(0) && Sum(legs, MakerFill) == truth(0)
    ensures Sum(Plans(legs), FallbackQuantity) == 0.0
  {
    NoFallbackYet(cfg, legs, truth);
    assert forall j | 0 <= j < |legs| :: Plans(legs)[j] == legs[j].plan;
    OnlyPrimaryFills(legs);
    assert LegOk(legs[0], truth(0)) && IsMaker(legs[0].plan);
  }

  /** The plan that an advance enqueues, if it enqueues one. */
  function Enqueued(cfg: Config, legs: seq<Leg>, d: Decision): Option<Plan>
    requires Applicable(cfg, legs, d)
  {
    match d
    case EnqueueFallback(q) =>
      if legs[Primary(legs)].plan.quantity == 0.0 then None
      else Some(FallbackPlan(legs[Primary(legs)].plan,
                             Count(Plans(legs), MakerRole) + Count(Plans(legs), FallbackRole), q))
    case EnqueueHedge(q) => Some(HedgePlan(cfg.params.value, Count(Plans(legs), HedgeRole), q))
    case EnqueueCompensation(q) => Some(CompensationPlan(cfg.params.value, legs[Primary(legs)].plan, q))
    case _ => None
  }

  predicate IsEnqueue(d: Decision) {
    d.EnqueueFallback? || d.EnqueueHedge? || d.EnqueueCompensation?
  }

  /** A plan that can be stored behind the others: new key, positive quantities, order kept. */
  ghost predicate Fresh(p: Params, plans: seq<Plan>, plan: Plan) {
    && (forall j | 0 <= j < |plans| :: plans[j].key != plan.key)
    && plan.strategyQuantity > 0.0 && plan.quantity > 0.0
    && PlansOk(p, plans + [plan])
  }

  lemma {:induction false} FallbackPlanFresh(p: Params, plans: seq<Plan>, q: real)
    requires PlansOk(p, plans) && p.makerTarget > 0.0 && q > 0.0 && Count(plans, FallbackRole) == 0
    ensures Fresh(p, plans, FallbackPlan(plans[0], Count(plans, MakerRole) + Count(plans, FallbackRole), q))
  {
    OneMaker(plans);
    assert NatToString(1) == "1";
    var plan := FallbackPlan(plans[0], 1, q);
    Proportion(plans[0].strategyQuantity, q, plans[0].quantity);
    AppendedIsFresh(p, plans, plan);
  }

  /** A new fallback or compensation plan with positive quantities is fresh. */
  lemma {:induction false} AppendedIsFresh(p: Params, plans: seq<Plan>, plan: Plan)
    requires PlansOk(p, plans) && Count(plans, plan.role) == 0 && plan.strategyQuantity > 0.0 && plan.quantity > 0.0
    requires (plan.role.FallbackRole? && plan.key == "maker_fallback_1")
             || (plan.role.CompensationRole? && plan.key == "compensation_0")
    ensures Fresh(p, plans, plan)
  {
    FreshKey(p, plans, plan.role, plan.key);
    assert (plans + [plan])[..|plans|] == plans;
    AppendKeeps(p, plans, plan);
  }

  lemma {:induction false} HedgePlanFresh(p: Params, plans: seq<Plan>, q: real)
    requires PlansOk(p, plans) && p.hedgeTarget > 0.0 && p.template.strategyQuantity > 0.0 && q > Tol(p.hedgeTarget)
    ensures Fresh(p, plans, HedgePlan(p, Count(plans, HedgeRole), q))
  {
    var plan := HedgePlan(p, Count(plans, HedgeRole), q);
    Proportion(p.template.strategyQuantity, q, p.hedgeTarget);
    FreshKey(p, plans, HedgeRole, plan.key);
    assert (plans + [plan])[..|plans|] == plans;
    AppendKeeps(p, plans, plan);
  }

  lemma {:induction false} CompensationPlanFresh(p: Params, plans: seq<Plan>, q: real)
    requires PlansOk(p, plans) && p.makerTarget > 0.0 && q > 0.0 && Count(plans, CompensationRole) == 0
    ensures Fresh(p, plans, CompensationPlan(p, plans[0], q))
  {
    Proportion(plans[0].strategyQuantity, q, p.makerTarget);
    AppendedIsFresh(p, plans, CompensationPlan(p, plans[0], q));
  }

  lemma {:induction false} HedgeDecision(cfg: Config, legs: seq<Leg>, elapsed: int, q: real)
    requires SoundConfig(cfg) && Decide(cfg, legs, elapsed) == EnqueueHedge(q)
    ensures q == HedgeDelta(cfg.params.value, legs) && q > Tol(cfg.params.value.hedgeTarget)
  {
  }

  lemma {:induction false} CompensationDecision(cfg: Config, legs: seq<Leg>, elapsed: int, q: real)
    requires SoundConfig(cfg) && Decide(cfg, legs, elapsed) == EnqueueCompensation(q)
    ensures q == Unmatched(cfg.params.value, legs) && q > Tol(cfg.params.value.makerTarget)
    ensures cfg.params.value.autoFlatten && Count(Plans(legs), CompensationRole) == 0
  {
  }

  /** Every leg an advance enqueues has a new key and positive quantities, and keeps the plans in order. */
  lemma {:induction false} EnqueuedPlanIsFresh(cfg: Config, legs: seq<Leg>, elapsed: int, truth: Truth)
    requires Inv(cfg, legs, truth) && IsEnqueue(Decide(cfg, legs, elapsed))
    ensures Enqueued(cfg, legs, Decide(cfg, legs, elapsed)).Some?
    ensures Fresh(cfg.params.value, Plans(legs), Enqueued(cfg, legs, Decide(cfg, legs, elapsed)).value)
  {
    var p, plans, d := cfg.params.value, Plans(legs), Decide(cfg, legs, elapsed);
    PrimaryIsFirst(legs);
    assert plans[0] == legs[0].plan;
    if d.EnqueueFallback? {
      FallbackAsksForTheRest(cfg, legs, elapsed, d.quantity, truth);
      FallbackPlanFresh(p, plans, d.quantity);
    } else if d.EnqueueHedge? {
      HedgeDecision(cfg, legs, elapsed, d.quantity);
      HedgePlanFresh(p, plans, d.quantity);
    } else {
      CompensationDecision(cfg, legs, elapsed, d.quantity);
      CompensationPlanFresh(p, plans, d.quantity);
    }
  }

  lemma {:induction false} EnqueueKeeps(cfg: Config, legs: seq<Leg>, plan: Plan, truth: Truth)
    requires Inv(cfg, legs, truth) && Fresh(cfg.params.value, Plans(legs), plan)
    requires plan.role.FallbackRole? ==>
      Sum(Plans(legs), FallbackQuantity) == 0.0 && Fill(legs[0]) == truth(0)
      && plan.quantity == cfg.params.value.makerTarget - truth(0)
    requires plan.role.HedgeRole? ==> plan.quantity == HedgeDelta(cfg.params.value, legs)
    requires plan.role.CompensationRole? ==>
      Sum(Plans(legs), CompensationQuantity) == 0.0 && plan.quantity <= Sum(legs, MakerFill)
    ensures Inv(cfg, legs + [Leg(plan, LegPlanned, None)], truth)
  {
    var plans, leg := Plans(legs), Leg(plan, LegPlanned, None);
    PlansAppend(legs, leg);
    CountAppend(plans, plan, FallbackRole);
    SumAppend(plans, plan, FallbackQuantity);
    SumAppend(plans, plan, HedgeQuantity);
    SumAppend(plans, plan, CompensationQuantity);
    SumAppend(legs, leg, MakerFill);
  }

  lemma {:induction false} NoKey(legs: seq<Leg>, key: string)
    requires forall j | 0 <= j < |legs| :: Plans(legs)[j].key != key
    ensures !HasKey(legs, key)
  {
    forall j | 0 <= j < |legs|
      ensures legs[j].plan.key != key
    {
      assert Plans(legs)[j].key != key;
    }
  }

  /** What a decision does to the rows: nothing to the legs, a cancel mark on the primary, or one leg more. */
  ghost predicate Shape(cfg: Config, s: State, d: Decision, o: Outcome)
    requires Applicable(cfg, s.legs, d)
  {
    if IsEnqueue(d) then
      Enqueued(cfg, s.legs, d).Some?
      && if IsLive(s.status) then
           o.Advanced? && o.state.legs == s.legs + [Leg(Enqueued(cfg, s.legs, d).value, LegPlanned, None)]
           && o.state.commands == s.commands + [Command(SubmitLeg(|s.legs|), OutboxPending)]
         else o.Raised?
    else if d.RequestCancel? then
      o.Advanced? && |s.legs| > 0 && s.legs[0].order.Some? && o.state.legs == CancelPrimary(s, 0).legs
      && o.state.commands == s.commands + [Command(CancelLeg(0), OutboxPending)]
    else o.Advanced? && o.state.legs == s.legs && o.state.commands == s.commands
  }

  lemma {:induction false} PerformShape(cfg: Config, s: State, d: Decision)
    requires Applicable(cfg, s.legs, d) && |s.legs| > 0 && Primary(s.legs) == 0
    requires IsEnqueue(d) ==>
      && Enqueued(cfg, s.legs, d).Some?
      && var plan := Enqueued(cfg, s.legs, d).value;
         !HasKey(s.legs, plan.key) && plan.strategyQuantity > 0.0 && plan.quantity > 0.0
    ensures Shape(cfg, s, d, Perform(cfg, s, d))
  {
  }

  lemma {:induction false} AdvanceShape(cfg: Config, s: State, current: nat, elapsed: int, truth: Truth)
    requires Inv(cfg, s.legs, truth)
    ensures Shape(cfg, MarkSent(s, current), Decide(cfg, s.legs, elapsed), Advance(cfg, s, current, elapsed))
  {
    var d := Decide(cfg, s.legs, elapsed);
    assert Plans(s.legs)[0] == s.legs[0].plan;
    PrimaryIsFirst(s.legs);
    if IsEnqueue(d) {
      EnqueuedPlanIsFresh(cfg, s.legs, elapsed, truth);
      NoKey(s.legs, Enqueued(cfg, s.legs, d).value.key);
    }
    ParametersPresent(cfg, s.legs, elapsed);
    PerformShape(cfg, MarkSent(s, current), d);
  }

  lemma {:induction false} ParametersPresent(cfg: Config, legs: seq<Leg>, elapsed: int)
    requires SoundConfig(cfg) && Primary(legs) < |legs|
    ensures !Decide(cfg, legs, elapsed).MissingParameters?
    ensures !Decide(cfg, legs, elapsed).NoMakerLeg? && !Decide(cfg, legs, elapsed).BadTargets?
  {
  }

  lemma {:induction false} UnmatchedBound(p: Params, legs: seq<Leg>)
    requires p.makerTarget > 0.0 && p.hedgeTarget > 0.0 && Sum(legs, MakerFill) >= 0.0
    ensures Unmatched(p, legs) <= Sum(legs, MakerFill)
  {
    var share := Min(Max(Sum(legs, HedgeFill) / p.hedgeTarget, 0.0), 1.0);
    Scaled(p.makerTarget, 0.0, share);
  }

  lemma {:induction false} EnqueueDecisionKeeps(cfg: Config, legs: seq<Leg>, elapsed: int, truth: Truth)
    requires Inv(cfg, legs, truth) && IsEnqueue(Decide(cfg, legs, elapsed))
    requires Enqueued(cfg, legs, Decide(cfg, legs, elapsed)).Some?
    ensures Inv(cfg, legs + [Leg(Enqueued(cfg, legs, Decide(cfg, legs, elapsed)).value, LegPlanned, None)], truth)
  {
    var d := Decide(cfg, legs, elapsed);
    var plan := Enqueued(cfg, legs, d).value;
    EnqueuedPlanIsFresh(cfg, legs, elapsed, truth);
    if d.EnqueueFallback? {
      FallbackAsksForTheRest(cfg, legs, elapsed, d.quantity, truth);
      assert plan.role.FallbackRole? && plan.quantity == d.quantity;
    } else if d.EnqueueHedge? {
      HedgeDecision(cfg, legs, elapsed, d.quantity);
      assert plan.role.HedgeRole? && plan.quantity == d.quantity;
    } else {
      CompensationDecision(cfg, legs, elapsed, d.quantity);
      SumWithoutCompensation(Plans(legs));
      PrimaryFillBelowSum(cfg, legs, truth);
      UnmatchedBound(cfg.params.value, legs);
      assert plan.role.CompensationRole? && plan.quantity == d.quantity;
    }
    EnqueueKeeps(cfg, legs, plan, truth);
  }

  lemma {:induction false} CancelKeeps(cfg: Config, s: State, truth: Truth)
    requires Inv(cfg, s.legs, truth) && s.legs[0].order.Some?
    ensures Inv(cfg, CancelPrimary(s, 0).legs, truth)
  {
    ReportKeeps(cfg, s.legs, 0, CancelPrimary(s, 0).legs[0], truth);
  }

  lemma {:induction false} AdvanceKeeps(cfg: Config, s: State, current: nat, elapsed: int, truth: Truth)
    requires Inv(cfg, s.legs, truth)
    ensures Inv(cfg, Step(cfg, s, AdvancedAt(current, elapsed)).legs, truth)
  {
    var d, marked, o := AdvanceIsStep(cfg, s, current, elapsed);
    AdvanceShape(cfg, s, current, elapsed, truth);
    assert Plans(s.legs)[0] == s.legs[0].plan;
    PrimaryIsFirst(s.legs);
    ParametersPresent(cfg, s.legs, elapsed);
    LegsAfter(cfg, marked, elapsed, o, truth);
  }

  lemma {:induction false} LegsAfter(cfg: Config, s: State, elapsed: int, o: Outcome, truth: Truth)
    requires Inv(cfg, s.legs, truth) && Shape(cfg, s, Decide(cfg, s.legs, elapsed), o)
    ensures o.Advanced? ==> Inv(cfg, o.state.legs, truth)
  {
    var d := Decide(cfg, s.legs, elapsed);
    if IsEnqueue(d) {
      EnqueueDecisionKeeps(cfg, s.legs, elapsed, truth);
    } else if d.RequestCancel? {
      CancelKeeps(cfg, s, truth);
    }
  }

  // ------------------------------------------------------------------ every run

  /** What a decision does to the legs: nothing, a cancel mark on the primary, or one leg more without an order. */
  lemma {:induction false} PerformLegs(cfg: Config, s: State, d: Decision)
    requires Applicable(cfg, s.legs, d)
    ensures var o := Perform(cfg, s, d);
            o.Advanced? ==>
              || o.state.legs == s.legs
              || (d.RequestCancel? && o.state.legs == CancelPrimary(s, Primary(s.legs)).legs)
              || (|o.state.legs| == |s.legs| + 1 && o.state.legs[..|s.legs|] == s.legs
                  && o.state.legs[|s.legs|].order.None?)
  {
  }

  lemma {:induction false} PerformExtends(cfg: Config, s: State, d: Decision)
    requires Applicable(cfg, s.legs, d)
    ensures var o := Perform(cfg, s, d); o.Advanced? ==> Plans(s.legs) <= Plans(o.state.legs)
  {
    var o := Perform(cfg, s, d);
    PerformLegs(cfg, s, d);
    if o.Advanced? {
      LongerPlans(s, d, o.state.legs);
    }
  }

  lemma {:induction false} LongerPlans(s: State, d: Decision, legs: seq<Leg>)
    requires d.RequestCancel? ==> Primary(s.legs) < |s.legs| && s.legs[Primary(s.legs)].order.Some?
    requires legs == s.legs || (d.RequestCancel? && legs == CancelPrimary(s, Primary(s.legs)).legs)
             || (|legs| == |s.legs| + 1 && legs[..|s.legs|] == s.legs)
    ensures Plans(s.legs) <= Plans(legs)
  {
    if |legs| == |s.legs| + 1 {
      assert legs == s.legs + [legs[|s.legs|]];
      PlansAppend(s.legs, legs[|s.legs|]);
    } else {
      assert Plans(legs) == Plans(s.legs);
    }
  }

  /** An advance as the decision that it takes, what performing it gives, and the state that results. */
  lemma {:induction false} AdvanceIsStep(cfg: Config, s: State, current: nat, elapsed: int)
    returns (d: Decision, marked: State, o: Outcome)
    ensures d == Decide(cfg, s.legs, elapsed)
    ensures marked == (if d.MissingParameters? then s else MarkSent(s, current))
    ensures marked.legs == s.legs && marked.status == s.status && marked.group == s.group
    ensures marked.bookings == s.bookings
    ensures o == Perform(cfg, marked, d) == Advance(cfg, s, current, elapsed)
    ensures Step(cfg, s, AdvancedAt(current, elapsed)) == if o.Raised? then s else o.state
  {
    d := Decide(cfg, s.legs, elapsed);
    marked := if d.MissingParameters? then s else MarkSent(s, current);
    o := Perform(cfg, marked, d);
  }

  lemma {:induction false} AdvanceExtends(cfg: Config, s: State, current: nat, elapsed: int)
    ensures Plans(s.legs) <= Plans(Step(cfg, s, AdvancedAt(current, elapsed)).legs)
  {
    var d, marked, o := AdvanceIsStep(cfg, s, current, elapsed);
    PerformExtends(cfg, marked, d);
  }

  lemma {:induction false} WithinEarlier(before: seq<Leg>, after: seq<Leg>, truth: Truth)
    requires Plans(before) <= Plans(after) && Within(after, truth)
    ensures Within(before, truth)
  {
    forall i: nat | i < |before|
      ensures 0.0 <= truth(i) <= before[i].plan.quantity
    {
      assert Plans(before)[i] == Plans(after)[i];
    }
  }

  lemma {:induction false} ActionExtends(cfg: Config, s: State, a: Action)
    requires !a.AdvancedAt?
    ensures Plans(s.legs) == Plans(Step(cfg, s, a).legs)
  {
    if OnLeg(a) && Step(cfg, s, a).legs != s.legs {
      PlansUpdate(s.legs, a.leg, Step(cfg, s, a).legs[a.leg]);
    }
  }

  lemma {:induction false} StepKeeps(cfg: Config, s: State, a: Action, truth: Truth)
    requires Inv(cfg, s.legs, truth) && Honest(s, a, truth) && Within(Step(cfg, s, a).legs, truth)
    ensures Inv(cfg, Step(cfg, s, a).legs, truth)
  {
    if a.AdvancedAt? {
      AdvanceKeeps(cfg, s, a.current, a.elapsed, truth);
    } else {
      ActionExtends(cfg, s, a);
      WithinEarlier(s.legs, Step(cfg, s, a).legs, truth);
      ActionKeeps(cfg, s, a, truth);
    }
  }

  lemma {:induction false} StepExtends(cfg: Config, s: State, a: Action)
    ensures Plans(s.legs) <= Plans(Step(cfg, s, a).legs)
  {
    if a.AdvancedAt? {
      AdvanceExtends(cfg, s, a.current, a.elapsed);
    } else {
      ActionExtends(cfg, s, a);
    }
  }

  lemma {:induction false} HonestPrefix(cfg: Config, s: State, actions: seq<Action>, truth: Truth)
    requires |actions| > 0 && HonestRun(cfg, s, actions, truth)
    ensures HonestRun(cfg, s, actions[..|actions| - 1], truth)
    ensures Honest(Run(cfg, s, actions[..|actions| - 1]), actions[|actions| - 1], truth)
  {
  }

  lemma {:induction false} SingleSums(primary: Plan)
    ensures Sum([primary], HedgeQuantity) == HedgeQuantity(primary)
        && Sum([primary], HedgeStrategy) == HedgeStrategy(primary)
    ensures Sum([primary], FallbackQuantity) == FallbackQuantity(primary)
    ensures Sum([primary], CompensationQuantity) == CompensationQuantity(primary)
    ensures Sum([Leg(primary, LegPlanned, None)], MakerFill) == 0.0
  {
    assert [] + [primary] == [primary] && [] + [Leg(primary, LegPlanned, None)] == [Leg(primary, LegPlanned, None)];
    SumAppend([], primary, HedgeQuantity);
    SumAppend([], primary, HedgeStrategy);
    SumAppend([], primary, FallbackQuantity);
    SumAppend([], primary, CompensationQuantity);
    SumAppend([], Leg(primary, LegPlanned, None), MakerFill);
  }

  lemma {:induction false} InitialPlans(p: Params, primary: Plan)
    requires p.makerTarget > 0.0 && p.hedgeTarget > 0.0 && SoundPrimary(p, primary)
    ensures PlansOk(p, [primary]) && Count([primary], FallbackRole) == 0
  {
    assert [] + [primary] == [primary] && [primary][..0] == [];
    CountAppend([], primary, FallbackRole);
    CountAppend([], primary, CompensationRole);
    SingleSums(primary);
    assert KeyOk([primary], 0);
  }

  lemma {:induction false} InitialInv(cfg: Config, primary: Plan, group: Option<Group>, truth: Truth)
    requires SoundConfig(cfg) && SoundPrimary(cfg.params.value, primary)
    ensures Inv(cfg, Initial(primary, group).legs, truth)
  {
    var legs := Initial(primary, group).legs;
    assert Plans(legs) == [primary];
    InitialPlans(cfg.params.value, primary);
    SingleSums(primary);
    DesiredMonotone(cfg.params.value, 0.0, 0.0);
  }

  /** The invariant holds after every honest run. */
  lemma {:induction false} RunKeeps(cfg: Config, primary: Plan, group: Option<Group>,
      actions: seq<Action>, truth: Truth)
    requires SoundConfig(cfg) && SoundPrimary(cfg.params.value, primary)
    requires HonestRun(cfg, Initial(primary, group), actions, truth)
    requires Within(Run(cfg, Initial(primary, group), actions).legs, truth)
    ensures Inv(cfg, Run(cfg, Initial(primary, group), actions).legs, truth)
    decreases |actions|
  {
    var s0 := Initial(primary, group);
    if actions == [] {
      InitialInv(cfg, primary, group, truth);
    } else {
      var n := |actions| - 1;
      var before := Run(cfg, s0, actions[..n]);
      StepExtends(cfg, before, actions[n]);
      WithinEarlier(before.legs, Run(cfg, s0, actions).legs, truth);
      HonestPrefix(cfg, s0, actions, truth);
      RunKeeps(cfg, primary, group, actions[..n], truth);
      StepKeeps(cfg, before, actions[n], truth);
    }
  }
}
