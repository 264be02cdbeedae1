/** The terms of the legs that the machine adds, over all runs: venue, side, kind, size; and what follows for
    the exposure. */
module MakerLegs {
  import opened Common
  import opened Orders
  import opened Lifecycle
  import opened Maker
  import opened MakerRuns
  import opened MakerProperties
  import opened MakerDecisions
  import opened OrderEnds

  // ------------------------------------------------------------------ terms

  predicate Market(plan: Plan) {
    plan.market && !plan.postOnly
  }

  /** Strategy quantity in the proportion of the primary. */
  predicate Proportional(plan: Plan, primary: Plan) {
    plan.strategyQuantity * primary.quantity == primary.strategyQuantity * plan.quantity
  }

  /** What an added leg has to be, by its role. */
  predicate TermsOk(p: Params, primary: Plan, plan: Plan) {
    match plan.role
    case MakerRole => plan == primary
    case FallbackRole =>
      && Market(plan) && plan.venue == primary.venue && plan.side == primary.side
      && plan.reduceOnly == primary.reduceOnly && plan.compensates == primary.compensates
      && Proportional(plan, primary)
    case HedgeRole =>
      && Market(plan) && plan.venue == p.template.venue && plan.side == p.template.side
      && plan.reduceOnly == p.template.reduceOnly && !plan.compensates
    case CompensationRole =>
      && Market(plan) && plan.venue == primary.venue && plan.side != primary.side && plan.compensates
      && (plan.reduceOnly <==> primary.venue != "binance")
      && Proportional(plan, primary)
  }

  ghost predicate AllTerms(p: Params, legs: seq<Leg>) {
    |legs| > 0 && forall j | 0 <= j < |legs| :: TermsOk(p, legs[0].plan, legs[j].plan)
  }

  lemma {:induction false} Quotient(s: real, q: real, w: real)
    requires w != 0.0
    ensures s * q / w * w == s * q
  {
  }

  /** The plan of every decision has the terms of its role. */
  lemma {:induction false} EnqueuedTerms(cfg: Config, legs: seq<Leg>, d: Decision)
    requires SoundConfig(cfg) && |legs| > 0 && legs[0].plan.role.MakerRole? && Primary(legs) == 0
    requires legs[0].plan.quantity == cfg.params.value.makerTarget
    requires IsEnqueue(d) && Enqueued(cfg, legs, d).Some?
    ensures TermsOk(cfg.params.value, legs[0].plan, Enqueued(cfg, legs, d).value)
  {
    Quotient(legs[0].plan.strategyQuantity, d.quantity, legs[0].plan.quantity);
  }

  lemma {:induction false} TermsAppend(p: Params, legs: seq<Leg>, leg: Leg)
    requires AllTerms(p, legs) && TermsOk(p, legs[0].plan, leg.plan)
    ensures AllTerms(p, legs + [leg])
  {
  }

  lemma {:induction false} SamePlansSameTerms(p: Params, legs: seq<Leg>, after: seq<Leg>)
    requires AllTerms(p, legs) && Plans(after) == Plans(legs)
    ensures AllTerms(p, after)
  {
    forall j | 0 <= j < |after|
      ensures after[j].plan == legs[j].plan
    {
      assert Plans(after)[j] == Plans(legs)[j];
    }
  }

  lemma {:induction false} AdvanceTerms(cfg: Config, s: State, current: nat, elapsed: int, truth: Truth)
    requires Inv(cfg, s.legs, truth) && AllTerms(cfg.params.value, s.legs)
    ensures AllTerms(cfg.params.value, Step(cfg, s, AdvancedAt(current, elapsed)).legs)
  {
    var d, marked, o := AdvanceIsStep(cfg, s, current, elapsed);
    assert Plans(s.legs)[0] == s.legs[0].plan;
    PrimaryIsFirst(s.legs);
    AdvanceShape(cfg, s, current, elapsed, truth);
    ParametersPresent(cfg, s.legs, elapsed);
    if o.Advanced? {
      ShapedTerms(cfg, marked, d, o);
    }
  }

  lemma {:induction false} ShapedTerms(cfg: Config, s: State, d: Decision, o: Outcome)
    requires SoundConfig(cfg) && AllTerms(cfg.params.value, s.legs) && s.legs[0].plan.role.MakerRole?
    requires s.legs[0].plan.quantity == cfg.params.value.makerTarget && Primary(s.legs) == 0
    requires Applicable(cfg, s.legs, d) && Shape(cfg, s, d, o) && o.Advanced?
    ensures AllTerms(cfg.params.value, o.state.legs)
  {
    if IsEnqueue(d) {
      EnqueuedTerms(cfg, s.legs, d);
      TermsAppend(cfg.params.value, s.legs, Leg(Enqueued(cfg, s.legs, d).value, LegPlanned, None));
    } else if d.RequestCancel? {
      SamePlansSameTerms(cfg.params.value, s.legs, o.state.legs);
    }
  }

  lemma {:induction false} RunTerms(cfg: Config, primary: Plan, group: Option<Group>,
      actions: seq<Action>, truth: Truth)
    requires GoodRun(cfg, primary, group, actions, truth)
    ensures AllTerms(cfg.params.value, Run(cfg, Initial(primary, group), actions).legs)
    ensures Run(cfg, Initial(primary, group), actions).legs[0].plan == primary
    decreases |actions|
  {
    var s0 := Initial(primary, group);
    if actions != [] {
      var n := |actions| - 1;
      var before := Run(cfg, s0, actions[..n]);
      StepExtends(cfg, before, actions[n]);
      WithinEarlier(before.legs, Run(cfg, s0, actions).legs, truth);
      HonestPrefix(cfg, s0, actions, truth);
      RunKeeps(cfg, primary, group, actions[..n], truth);
      RunTerms(cfg, primary, group, actions[..n], truth);
      StepTerms(cfg, before, actions[n], truth);
      FirstPlanStays(before.legs, Run(cfg, s0, actions).legs);
    }
  }

  lemma {:induction false} FirstPlanStays(before: seq<Leg>, after: seq<Leg>)
    requires |before| > 0 && Plans(before) <= Plans(after)
    ensures |after| > 0 && after[0].plan == before[0].plan
  {
    assert Plans(before)[0] == Plans(after)[0];
  }

  lemma {:induction false} StepTerms(cfg: Config, s: State, a: Action, truth: Truth)
    requires Inv(cfg, s.legs, truth) && AllTerms(cfg.params.value, s.legs)
    ensures AllTerms(cfg.params.value, Step(cfg, s, a).legs)
  {
    if a.AdvancedAt? {
      AdvanceTerms(cfg, s, a.current, a.elapsed, truth);
    } else {
      ActionExtends(cfg, s, a);
      SamePlansSameTerms(cfg.params.value, s.legs, Step(cfg, s, a).legs);
    }
  }

  /**
   After every honest run: a fallback has the venue and the side of the primary, a compensation its venue and the
   other side, a hedge the venue and the side of the template; all three are market orders that may take, and
   carry their share of the strategy quantity.
   */
  lemma {:induction false} AddedLegsFollowTerms(
    cfg: Config, primary: Plan, group: Option<Group>, actions: seq<Action>, truth: Truth, s: State, j: nat)
    requires Reached(cfg, primary, group, actions, truth, s) && 0 < j < |s.legs|
    ensures cfg.params.Some?
    ensures var p, plan := cfg.params.value, s.legs[j].plan;
            && plan.market && !plan.postOnly
            && (plan.role.FallbackRole? ==> plan.venue == primary.venue && plan.side == primary.side)
            && (plan.role.CompensationRole? ==> plan.venue == primary.venue && plan.side != primary.side)
            && (plan.role.HedgeRole? ==> plan.venue == p.template.venue && plan.side == p.template.side)
            && (plan.compensates && !primary.compensates ==> plan.role.CompensationRole?)
            && (plan.role.CompensationRole? ==> plan.compensates && (plan.reduceOnly <==> plan.venue != "binance"))
            && (!plan.role.HedgeRole? ==> Proportional(plan, primary))
  {
    ReachedInv(cfg, primary, group, actions, truth, s);
    RunTerms(cfg, primary, group, actions, truth);
    assert Plans(s.legs)[j] == s.legs[j].plan;
  }

  // ------------------------------------------------------------------ exposure

  /** What a leg that is no hedge bought on a side: its fill, or minus its fill on the other side. */
  function Bought(side: Side): Leg -> real {
    (leg: Leg) => if leg.plan.role.HedgeRole? then 0.0 else if leg.plan.side == side then Fill(leg) else -Fill(leg)
  }

  lemma {:induction false} BoughtIs(p: Params, legs: seq<Leg>, primary: Plan)
    requires forall j | 0 <= j < |legs| :: TermsOk(p, primary, legs[j].plan)
    ensures Sum(legs, Bought(primary.side)) == Sum(legs, MakerFill) - Sum(legs, CompensationFill)
  {
    if legs != [] {
      BoughtIs(p, legs[..|legs| - 1], primary);
    }
  }

  lemma {:induction false} CompensationFillsWithin(legs: seq<Leg>, truth: Truth)
    requires Within(legs, truth) && forall i: nat | i < |legs| :: LegOk(legs[i], truth(i))
    ensures 0.0 <= Sum(legs, CompensationFill) <= Sum(Plans(legs), CompensationQuantity)
  {
    if legs != [] {
      var n := |legs| - 1;
      assert Plans(legs)[..n] == Plans(legs[..n]);
      forall i: nat | i < n
        ensures LegOk(legs[..n][i], truth(i))
      {
        assert LegOk(legs[i], truth(i));
      }
      CompensationFillsWithin(legs[..n], truth);
      assert LegOk(legs[n], truth(n));
    }
  }

  /**
   After every honest run, what maker, fallback and compensation together bought on the primary's side lies
   between nothing and what the maker legs filled: a compensation only ever undoes.
   */
  lemma {:induction false} ExposureIsBounded(
    cfg: Config, primary: Plan, group: Option<Group>, actions: seq<Action>, truth: Truth, s: State)
    requires Reached(cfg, primary, group, actions, truth, s)
    ensures 0.0 <= Sum(s.legs, Bought(primary.side)) <= Sum(s.legs, MakerFill)
    ensures Sum(s.legs, Bought(primary.side)) == Sum(s.legs, MakerFill) - Sum(s.legs, CompensationFill)
  {
    ReachedInv(cfg, primary, group, actions, truth, s);
    RunTerms(cfg, primary, group, actions, truth);
    BoughtIs(cfg.params.value, s.legs, primary);
    CompensationFillsWithin(s.legs, truth);
  }

  // ------------------------------------------------------------------ an order that ends without a fill

  /** The event of an order that ended without a fill fails its leg and changes no other. */
  lemma {:induction false} UnfilledEndFailsLeg(cfg: Config, s: State, i: nat, report: Snapshot)
    requires HasOrder(s, i) && Fill(s.legs[i]) == 0.0 && report.filled <= 0.0 && SaysEnded(report.status)
    ensures var t := Step(cfg, s, OrderReported(i, report));
            && t == s.(legs := t.legs) && |t.legs| == |s.legs|
            && t.legs[i].status == LegFailed && t.legs[i].plan == s.legs[i].plan && Fill(t.legs[i]) == 0.0
            && forall j | 0 <= j < |s.legs| && j != i :: t.legs[j] == s.legs[j]
  {
    EventEndsLegIff(s.legs[i].order.value, s.legs[i].plan.venue == "mt5", report);
  }

  /**
   After every honest run with no fallback yet: the event that the maker order ended without a fill leaves no
   maker leg active, so that a fallback is owed exactly by quantity and permission; and if the intent is live, the
   next advance asks the market for the whole target.
   */
  lemma {:induction false} UnfilledMakerFallsBack(
    cfg: Config, primary: Plan, group: Option<Group>, actions: seq<Action>, truth: Truth, s: State,
    report: Snapshot, current: nat, elapsed: int)
    requires Reached(cfg, primary, group, actions, truth, s) && Count(Plans(s.legs), FallbackRole) == 0
    requires HasOrder(s, 0) && Fill(s.legs[0]) == 0.0 && report.filled <= 0.0 && SaysEnded(report.status)
    requires Honest(s, OrderReported(0, report), truth)
    ensures cfg.params.Some?
    ensures var p, t := cfg.params.value, Step(cfg, s, OrderReported(0, report));
            && !AnyActive(t.legs, true)
            && (FallbackOwed(p, t.legs) <==> p.marketFallback && p.makerTarget > Tol(p.makerTarget))
            && (FallbackOwed(p, t.legs) && IsLive(s.status) ==>
                  var o := Advance(cfg, t, current, elapsed);
                  o.Advanced? && |o.state.legs| == |s.legs| + 1
                  && var plan := o.state.legs[|s.legs|].plan;
                     plan.role.FallbackRole? && plan.quantity == p.makerTarget && plan.side == primary.side)
  {
    ReachedInv(cfg, primary, group, actions, truth, s);
    RunTerms(cfg, primary, group, actions, truth);
    UnfilledEndFailsLeg(cfg, s, 0, report);
    ActionKeeps(cfg, s, OrderReported(0, report), truth);
    var p, t := cfg.params.value, Step(cfg, s, OrderReported(0, report));
    SamePlansSameTerms(p, s.legs, t.legs);
    OnlyFailedMaker(cfg, t.legs, truth);
    if FallbackOwed(p, t.legs) && IsLive(s.status) {
      FallbackFollows(cfg, t, current, elapsed, truth);
    }
  }

  lemma {:induction false} OnlyFailedMaker(cfg: Config, legs: seq<Leg>, truth: Truth)
    requires Inv(cfg, legs, truth) && Count(Plans(legs), FallbackRole) == 0
    requires legs[0].status == LegFailed && Fill(legs[0]) == 0.0
    ensures !AnyActive(legs, true) && Sum(legs, MakerFill) == 0.0 && Sum(Plans(legs), FallbackQuantity) == 0.0
  {
    forall i | 0 < i < |legs|
      ensures !IsMaker(legs[i].plan)
    {
      assert Plans(legs)[i] == legs[i].plan;
      if legs[i].plan.role.FallbackRole? {
        CountBefore(Plans(legs), i, FallbackRole);
      }
    }
    OnlyPrimaryFills(legs);
  }

  lemma {:induction false} FallbackFollows(cfg: Config, s: State, current: nat, elapsed: int, truth: Truth)
    requires Inv(cfg, s.legs, truth) && Within(s.legs, truth) && IsLive(s.status)
    requires AllTerms(cfg.params.value, s.legs) && FallbackOwed(cfg.params.value, s.legs)
    requires s.legs[0].status == LegFailed && Sum(s.legs, MakerFill) == 0.0 == Sum(Plans(s.legs), FallbackQuantity)
    ensures var o := Advance(cfg, s, current, elapsed);
            o.Advanced? && |o.state.legs| == |s.legs| + 1
            && var plan := o.state.legs[|s.legs|].plan;
               plan.role.FallbackRole? && plan.quantity == cfg.params.value.makerTarget
               && plan.side == s.legs[0].plan.side
  {
    var d, marked, o := AdvanceIsStep(cfg, s, current, elapsed);
    assert Plans(s.legs)[0] == s.legs[0].plan;
    PrimaryIsFirst(s.legs);
    DecisionIs(cfg, s.legs, elapsed, truth);
    AdvanceShape(cfg, s, current, elapsed, truth);
  }
}
