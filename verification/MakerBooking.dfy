/** Booking on the hedge group, refused advances, and what a late report does to a finished maker intent. */
module MakerBooking {
  import opened Common
  import opened Orders
  import opened Lifecycle
  import opened Maker
  import opened MakerRuns
  import opened MakerProperties
  import opened MakerDecisions

  // ------------------------------------------------------------------ booked exactly once

  /** Quantity of one group leg after a booking at `ratio`, from its quantity before. */
  function BookedQuantity(opening: bool, before: real, strategy: real, ratio: real): real {
    if opening then (if ratio <= EPSILON then before else strategy * ratio)
    else if EPSILON < ratio < 1.0 - 0.000000001 then Max(before - strategy * ratio, 0.0)
    else before
  }

  ghost predicate SoundTemplate(cfg: Config, primary: Plan) {
    cfg.params.Some? ==>
      primary.key in {"leg_a", "leg_b"} && cfg.params.value.template.key in {"leg_a", "leg_b"}
      && primary.key != cfg.params.value.template.key
  }

  /**
   Either nothing is booked and both group legs hold their first quantities, or exactly one ratio is
   booked and both legs hold what that one ratio makes of their first quantities.
   */
  ghost predicate BookedOnce(cfg: Config, primary: Plan, g0: Option<Group>, s: State) {
    && (s.group.Some? <==> g0.Some?)
    && |s.bookings| <= 1
    && (g0.None? ==> s.bookings == [])
    && (g0.Some? ==>
          if s.bookings == [] then s.group.value.legA == g0.value.legA && s.group.value.legB == g0.value.legB
          else
            cfg.params.Some? && 0.0 <= s.bookings[0] <= 1.0
            && var t := cfg.params.value.template;
               LegQuantity(s.group.value, primary.key)
               == BookedQuantity(cfg.opening, LegQuantity(g0.value, primary.key),
                                 primary.strategyQuantity, s.bookings[0])
               && LegQuantity(s.group.value, t.key)
                  == BookedQuantity(cfg.opening, LegQuantity(g0.value, t.key), t.strategyQuantity, s.bookings[0]))
  }

  lemma {:induction false} CompleteBooks(cfg: Config, primary: Plan, g0: Option<Group>, s: State, matched: real)
    requires cfg.params.Some? && SoundTemplate(cfg, primary) && BookedOnce(cfg, primary, g0, s)
    ensures BookedOnce(cfg, primary, g0, Complete(cfg, cfg.params.value, primary, s, matched))
  {
  }

  lemma {:induction false} PerformBooks(cfg: Config, primary: Plan, g0: Option<Group>, s: State, d: Decision)
    requires Applicable(cfg, s.legs, d) && SoundTemplate(cfg, primary) && BookedOnce(cfg, primary, g0, s)
    requires |s.legs| > 0 && s.legs[0].plan == primary && Primary(s.legs) == 0
    ensures var o := Perform(cfg, s, d); o.Advanced? ==> BookedOnce(cfg, primary, g0, o.state)
  {
    if d.CompleteMatched? || d.CompleteCompensated? {
      CompleteBooks(cfg, primary, g0, s, d.ratio);
    }
  }

  lemma {:induction false} StepBooks(cfg: Config, primary: Plan, g0: Option<Group>, s: State, a: Action)
    requires SoundTemplate(cfg, primary) && BookedOnce(cfg, primary, g0, s)
    requires |s.legs| > 0 && s.legs[0].plan == primary && primary.role.MakerRole?
    ensures BookedOnce(cfg, primary, g0, Step(cfg, s, a))
  {
    if a.AdvancedAt? {
      PrimaryIsFirst(s.legs);
      var d := Decide(cfg, s.legs, a.elapsed);
      PerformBooks(cfg, primary, g0, if d.MissingParameters? then s else MarkSent(s, a.current), d);
    }
  }

  /**
   Over any sequence of advances and other events the completion changes the quantities of the group
   once: an opening stores both legs at the same ratio, a partial closing takes the same ratio from both.
   */
  lemma {:induction false} EveryRunBooksOnce(
    cfg: Config, primary: Plan, g0: Option<Group>, actions: seq<Action>)
    requires SoundTemplate(cfg, primary) && primary.role.MakerRole?
    ensures BookedOnce(cfg, primary, g0, Run(cfg, Initial(primary, g0), actions))
    ensures var legs := Run(cfg, Initial(primary, g0), actions).legs; |legs| > 0 && legs[0].plan == primary
    decreases |actions|
  {
    if actions != [] {
      var n := |actions| - 1;
      var before := Run(cfg, Initial(primary, g0), actions[..n]);
      EveryRunBooksOnce(cfg, primary, g0, actions[..n]);
      StepBooks(cfg, primary, g0, before, actions[n]);
      StepExtends(cfg, before, actions[n]);
      assert Plans(before.legs)[0] == Plans(Step(cfg, before, actions[n]).legs)[0];
    }
  }

  // ------------------------------------------------------------------ refused advances

  /** All maker fills are final and nothing more is owed for them. */
  ghost predicate Settled(cfg: Config, legs: seq<Leg>, truth: Truth)
    requires SoundConfig(cfg)
  {
    && (forall i: nat | i < |legs| :: IsMaker(legs[i].plan) ==> legs[i].order.Some? && Fill(legs[i]) == truth(i))
    && HedgeDelta(cfg.params.value, legs) <= Tol(cfg.params.value.hedgeTarget)
    && (cfg.params.value.marketFallback ==>
          FallbackRemaining(cfg.params.value, legs) <= Tol(cfg.params.value.makerTarget))
  }

  lemma {:induction false} CompletionSettles(cfg: Config, legs: seq<Leg>, elapsed: int, r: real, truth: Truth)
    requires Inv(cfg, legs, truth) && Decide(cfg, legs, elapsed) == CompleteMatched(r)
    ensures Settled(cfg, legs, truth)
  {
    forall i: nat | i < |legs| && IsMaker(legs[i].plan)
      ensures legs[i].order.Some? && Fill(legs[i]) == truth(i)
    {
      assert LegOk(legs[i], truth(i));
      assert !IsActive(legs[i].status);
    }
  }

  lemma {:induction false} SettledStaysUnder(cfg: Config, legs: seq<Leg>, i: nat, leg: Leg, truth: Truth)
    requires Inv(cfg, legs, truth) && Settled(cfg, legs, truth) && i < |legs|
    requires leg.plan == legs[i].plan && LegOk(leg, truth(i)) && leg.order.Some? && Fill(leg) >= Fill(legs[i])
    ensures Settled(cfg, legs[i := leg], truth)
  {
    PlansUpdate(legs, i, leg);
    SumUpdate(legs, i, leg, MakerFill);
    assert IsMaker(leg.plan) ==> Fill(leg) == Fill(legs[i]);
  }

  lemma {:induction false} SettledDecision(cfg: Config, legs: seq<Leg>, elapsed: int, truth: Truth)
    requires SoundConfig(cfg) && !cfg.params.value.autoFlatten && Settled(cfg, legs, truth)
    ensures !IsEnqueue(Decide(cfg, legs, elapsed))
  {
  }

  lemma {:induction false} NeverCompensated(cfg: Config, legs: seq<Leg>, elapsed: int)
    requires SoundConfig(cfg) && !cfg.params.value.autoFlatten
    ensures !Decide(cfg, legs, elapsed).CompleteCompensated? && !Decide(cfg, legs, elapsed).EnqueueCompensation?
  {
  }

  ghost predicate FinalMeansSettled(cfg: Config, s: State, truth: Truth)
    requires SoundConfig(cfg)
  {
    IsLive(s.status) || Settled(cfg, s.legs, truth)
  }

  lemma {:induction false} PerformSettles(cfg: Config, s: State, d: Decision, truth: Truth)
    requires SoundConfig(cfg) && Applicable(cfg, s.legs, d) && FinalMeansSettled(cfg, s, truth)
    requires !d.CompleteCompensated? && (d.CompleteMatched? ==> Settled(cfg, s.legs, truth))
    ensures var o := Perform(cfg, s, d); o.Advanced? ==> FinalMeansSettled(cfg, o.state, truth)
  {
    if d.CompleteMatched? {
      assert Perform(cfg, s, d).state.legs == s.legs;
    } else {
      assert Perform(cfg, s, d).Advanced? ==> IsLive(Perform(cfg, s, d).state.status);
    }
  }

  lemma {:induction false} ActionSettles(cfg: Config, s: State, a: Action, truth: Truth)
    requires Inv(cfg, s.legs, truth) && Within(s.legs, truth) && Honest(s, a, truth) && !a.AdvancedAt?
    requires FinalMeansSettled(cfg, s, truth) && NeverClosed([a])
    ensures FinalMeansSettled(cfg, Step(cfg, s, a), truth)
  {
    assert [a][0] == a;
    var i, leg := ActionLegs(cfg, s, a, truth);
    if Settled(cfg, s.legs, truth) {
      SettledAfter(cfg, s.legs, i, leg, truth);
    }
  }

  lemma {:induction false} SettledAfter(cfg: Config, legs: seq<Leg>, i: nat, leg: Leg, truth: Truth)
    requires Inv(cfg, legs, truth) && Settled(cfg, legs, truth) && i < |legs| && (leg == legs[i] || leg.order.Some?)
    requires leg.plan == legs[i].plan && LegOk(leg, truth(i)) && Fill(leg) >= Fill(legs[i])
    ensures Settled(cfg, legs[i := leg], truth)
  {
    if leg == legs[i] {
      assert legs[i := leg] == legs;
    } else {
      SettledStaysUnder(cfg, legs, i, leg, truth);
    }
  }

  lemma {:induction false} AdvanceSettles(cfg: Config, s: State, a: Action, truth: Truth)
    requires Inv(cfg, s.legs, truth) && !cfg.params.value.autoFlatten && a.AdvancedAt?
    requires FinalMeansSettled(cfg, s, truth)
    ensures FinalMeansSettled(cfg, Step(cfg, s, a), truth)
  {
    var d, marked, o := AdvanceIsStep(cfg, s, a.current, a.elapsed);
    NeverCompensated(cfg, s.legs, a.elapsed);
    if d.CompleteMatched? {
      CompletionSettles(cfg, s.legs, a.elapsed, d.ratio, truth);
    }
    PerformSettles(cfg, marked, d, truth);
  }

  lemma {:induction false} RunSettles(cfg: Config, primary: Plan, group: Option<Group>,
      actions: seq<Action>, truth: Truth)
    requires GoodRun(cfg, primary, group, actions, truth) && !cfg.params.value.autoFlatten && NeverClosed(actions)
    ensures FinalMeansSettled(cfg, Run(cfg, Initial(primary, group), actions), truth)
    decreases |actions|
  {
    var s0 := Initial(primary, group);
    if actions != [] {
      var n := |actions| - 1;
      var before := Run(cfg, s0, actions[..n]);
      StepExtends(cfg, before, actions[n]);
      WithinEarlier(before.legs, Run(cfg, s0, actions).legs, truth);
      HonestPrefix(cfg, s0, actions, truth);
      RunKeeps(cfg, primary, group, actions[..n], truth);
      RunSettles(cfg, primary, group, actions[..n], truth);
      if actions[n].AdvancedAt? {
        AdvanceSettles(cfg, before, actions[n], truth);
      } else {
        assert NeverClosed([actions[n]]);
        ActionSettles(cfg, before, actions[n], truth);
      }
    }
  }

  /**
   An intent that never flattens on its own and that nobody else ends never has an advance refused: every leg
   it wants is stored. Both conditions matter: `FlattenedIntentRefusesHedge`, `SupersededIntentRefusesHedge`.
   */
  lemma {:induction false} NoAdvanceIsRefused(
    cfg: Config, primary: Plan, group: Option<Group>, actions: seq<Action>, truth: Truth, current: nat, elapsed: int)
    requires GoodRun(cfg, primary, group, actions, truth) && !cfg.params.value.autoFlatten && NeverClosed(actions)
    ensures Advance(cfg, Run(cfg, Initial(primary, group), actions), current, elapsed).Advanced?
  {
    var s := Run(cfg, Initial(primary, group), actions);
    RunKeeps(cfg, primary, group, actions, truth);
    RunSettles(cfg, primary, group, actions, truth);
    AtMostOneCommand(cfg, s, current, elapsed, truth);
    if !IsLive(s.status) {
      SettledDecision(cfg, s.legs, elapsed, truth);
    }
  }

  // ------------------------------------------------------------------ the booked ratio over a run

  /** The booked ratio exceeds neither side's filled ratio. */
  ghost predicate NotOverbooked(cfg: Config, s: State)
    requires SoundConfig(cfg)
  {
    s.bookings != [] ==>
      s.bookings[0] <= Sum(s.legs, MakerFill) / cfg.params.value.makerTarget
      && s.bookings[0] <= Sum(s.legs, HedgeFill) / cfg.params.value.hedgeTarget
  }

  lemma {:induction false} QuotientForward(a: real, b: real, d: real)
    requires d > 0.0 && a <= b
    ensures a / d <= b / d
  {
  }

  lemma {:induction false} FillsForward(legs: seq<Leg>, i: nat, leg: Leg)
    requires i < |legs| && leg.plan == legs[i].plan && Fill(leg) >= Fill(legs[i])
    ensures Sum(legs[i := leg], MakerFill) >= Sum(legs, MakerFill)
    ensures Sum(legs[i := leg], HedgeFill) >= Sum(legs, HedgeFill)
  {
    SumUpdate(legs, i, leg, MakerFill);
    SumUpdate(legs, i, leg, HedgeFill);
  }

  /** Reports and answers never take a fill back. */
  lemma {:induction false} ActionFills(cfg: Config, s: State, a: Action, truth: Truth)
    requires Inv(cfg, s.legs, truth) && Within(s.legs, truth) && Honest(s, a, truth) && !a.AdvancedAt?
    ensures Sum(Step(cfg, s, a).legs, MakerFill) >= Sum(s.legs, MakerFill)
    ensures Sum(Step(cfg, s, a).legs, HedgeFill) >= Sum(s.legs, HedgeFill)
    ensures Step(cfg, s, a).bookings == s.bookings
  {
    var i, leg := ActionLegs(cfg, s, a, truth);
    FillsForward(s.legs, i, leg);
  }

  /** An advance changes no fill. */
  lemma {:induction false} PerformFills(cfg: Config, s: State, d: Decision, o: Outcome)
    requires Applicable(cfg, s.legs, d) && o == Perform(cfg, s, d) && o.Advanced?
    ensures Sum(o.state.legs, MakerFill) == Sum(s.legs, MakerFill)
    ensures Sum(o.state.legs, HedgeFill) == Sum(s.legs, HedgeFill)
  {
    PerformLegs(cfg, s, d);
    SameOrCanceledOrLonger(s, d, o.state.legs);
  }

  lemma {:induction false} SameOrCanceledOrLonger(s: State, d: Decision, legs: seq<Leg>)
    requires d.RequestCancel? ==> Primary(s.legs) < |s.legs| && s.legs[Primary(s.legs)].order.Some?
    requires legs == s.legs || (d.RequestCancel? && legs == CancelPrimary(s, Primary(s.legs)).legs)
             || (|legs| == |s.legs| + 1 && legs[..|s.legs|] == s.legs && legs[|s.legs|].order.None?)
    ensures Sum(legs, MakerFill) == Sum(s.legs, MakerFill) && Sum(legs, HedgeFill) == Sum(s.legs, HedgeFill)
  {
    if |legs| == |s.legs| + 1 {
      assert legs == s.legs + [legs[|s.legs|]];
      SumAppend(s.legs, legs[|s.legs|], MakerFill);
      SumAppend(s.legs, legs[|s.legs|], HedgeFill);
    } else if legs != s.legs {
      var i := Primary(s.legs);
      SumUpdate(s.legs, i, legs[i], MakerFill);
      SumUpdate(s.legs, i, legs[i], HedgeFill);
    }
  }

  /** What an advance books: nothing new, or the matched ratio of the fills, once. */
  lemma {:induction false} PerformBooking(cfg: Config, s: State, d: Decision)
    requires Applicable(cfg, s.legs, d)
    ensures var o := Perform(cfg, s, d);
            o.Advanced? ==>
              || o.state.bookings == s.bookings
              || ((d.CompleteMatched? || d.CompleteCompensated?) && s.bookings == []
                  && o.state.bookings == [Min(Max(d.ratio, 0.0), 1.0)])
  {
  }

  lemma {:induction false} AdvanceBooking(cfg: Config, s: State, a: Action, truth: Truth)
    requires Inv(cfg, s.legs, truth) && Within(s.legs, truth) && a.AdvancedAt?
    ensures var t := Step(cfg, s, a);
            && Sum(t.legs, MakerFill) == Sum(s.legs, MakerFill) && Sum(t.legs, HedgeFill) == Sum(s.legs, HedgeFill)
            && (t.bookings == s.bookings
                || (s.bookings == [] && t.bookings == [Min(Max(MatchedRatio(cfg.params.value, s.legs), 0.0), 1.0)]
                    && (Decide(cfg, s.legs, a.elapsed).CompleteMatched? || cfg.params.value.autoFlatten)))
  {
    var d, marked, o := AdvanceIsStep(cfg, s, a.current, a.elapsed);
    if o.Advanced? {
      PerformFills(cfg, marked, d, o);
    }
    PerformBooking(cfg, marked, d);
    CompletionRatio(cfg, s.legs, a.elapsed, truth);
  }

  lemma {:induction false} CompletionRatio(cfg: Config, legs: seq<Leg>, elapsed: int, truth: Truth)
    requires Inv(cfg, legs, truth) && Within(legs, truth)
    ensures var d := Decide(cfg, legs, elapsed);
            && (d.CompleteMatched? || d.CompleteCompensated? ==> d.ratio == MatchedRatio(cfg.params.value, legs))
            && (d.CompleteCompensated? ==> cfg.params.value.autoFlatten)
  {
    DecisionIs(cfg, legs, elapsed, truth);
  }

  lemma {:induction false} RatioIsBelow(p: Params, legs: seq<Leg>)
    requires p.makerTarget > 0.0 && p.hedgeTarget > 0.0
    requires Sum(legs, MakerFill) >= 0.0 && Sum(legs, HedgeFill) >= 0.0
    ensures var r := Min(Max(MatchedRatio(p, legs), 0.0), 1.0);
            r <= Sum(legs, MakerFill) / p.makerTarget && r <= Sum(legs, HedgeFill) / p.hedgeTarget
  {
    QuotientForward(0.0, Sum(legs, MakerFill), p.makerTarget);
    QuotientForward(0.0, Sum(legs, HedgeFill), p.hedgeTarget);
  }

  lemma {:induction false} StepNotOverbooked(cfg: Config, s: State, a: Action, truth: Truth)
    requires Inv(cfg, s.legs, truth) && Within(s.legs, truth) && Honest(s, a, truth) && NotOverbooked(cfg, s)
    ensures NotOverbooked(cfg, Step(cfg, s, a))
  {
    var p, t := cfg.params.value, Step(cfg, s, a);
    if a.AdvancedAt? {
      AdvanceBooking(cfg, s, a, truth);
      HedgeFillsWithinQuantity(s.legs, truth);
      MakerFillsAtMostTarget(cfg, s.legs, truth);
      RatioIsBelow(p, s.legs);
    } else {
      ActionFills(cfg, s, a, truth);
      QuotientForward(Sum(s.legs, MakerFill), Sum(t.legs, MakerFill), p.makerTarget);
      QuotientForward(Sum(s.legs, HedgeFill), Sum(t.legs, HedgeFill), p.hedgeTarget);
    }
  }

  /** In every state of every good run, the ratio that was booked exceeds neither side's filled ratio. */
  lemma {:induction false} NeverOverbooked(
    cfg: Config, primary: Plan, group: Option<Group>, actions: seq<Action>, truth: Truth)
    requires GoodRun(cfg, primary, group, actions, truth)
    ensures NotOverbooked(cfg, Run(cfg, Initial(primary, group), actions))
    decreases |actions|
  {
    var s0 := Initial(primary, group);
    if actions != [] {
      var n := |actions| - 1;
      var before := Run(cfg, s0, actions[..n]);
      StepExtends(cfg, before, actions[n]);
      WithinEarlier(before.legs, Run(cfg, s0, actions).legs, truth);
      HonestPrefix(cfg, s0, actions, truth);
      RunKeeps(cfg, primary, group, actions[..n], truth);
      NeverOverbooked(cfg, primary, group, actions[..n], truth);
      StepNotOverbooked(cfg, before, actions[n], truth);
    }
  }

  /** All maker and hedge fills are final, and the ratio is what they match within the tolerance. */
  ghost predicate BookedExactly(cfg: Config, s: State, truth: Truth)
    requires SoundConfig(cfg)
  {
    s.bookings != [] ==>
      && Settled(cfg, s.legs, truth)
      && HedgesSettled(s.legs, truth)
      && RatioFits(cfg.params.value, Sum(s.legs, MakerFill), Sum(s.legs, HedgeFill), s.bookings[0])
  }

  predicate RatioFits(p: Params, maker: real, hedge: real, ratio: real)
    requires p.makerTarget > 0.0 && p.hedgeTarget > 0.0
  {
    && Desired(p, maker) - Tol(p.hedgeTarget) <= hedge <= Desired(p, maker)
    && ratio <= maker / p.makerTarget && ratio <= hedge / p.hedgeTarget && 0.0 <= ratio <= 1.0
    && maker / p.makerTarget - ratio <= Tol(p.hedgeTarget) / p.hedgeTarget
  }

  ghost predicate HedgesSettled(legs: seq<Leg>, truth: Truth) {
    forall i: nat | i < |legs| :: legs[i].plan.role.HedgeRole? ==> legs[i].order.Some? && Fill(legs[i]) == truth(i)
  }

  lemma {:induction false} ReportAfterBooking(cfg: Config, legs: seq<Leg>, i: nat, leg: Leg, truth: Truth)
    requires Inv(cfg, legs, truth) && Settled(cfg, legs, truth) && HedgesSettled(legs, truth) && i < |legs|
    requires leg.plan == legs[i].plan && LegOk(leg, truth(i)) && leg.order.Some? && Fill(leg) >= Fill(legs[i])
    ensures Settled(cfg, legs[i := leg], truth) && HedgesSettled(legs[i := leg], truth)
    ensures Sum(legs[i := leg], MakerFill) == Sum(legs, MakerFill)
    ensures Sum(legs[i := leg], HedgeFill) == Sum(legs, HedgeFill)
  {
    SettledStaysUnder(cfg, legs, i, leg, truth);
    assert MakerFill(leg) == MakerFill(legs[i]) && HedgeFill(leg) == HedgeFill(legs[i]);
    SumUpdate(legs, i, leg, MakerFill);
    SumUpdate(legs, i, leg, HedgeFill);
  }

  lemma {:induction false} ActionBookedExactly(cfg: Config, s: State, a: Action, truth: Truth)
    requires Inv(cfg, s.legs, truth) && Within(s.legs, truth) && Honest(s, a, truth) && !a.AdvancedAt?
    requires BookedExactly(cfg, s, truth)
    ensures BookedExactly(cfg, Step(cfg, s, a), truth)
  {
    var i, leg := ActionLegs(cfg, s, a, truth);
    if leg == s.legs[i] {
      assert s.legs[i := leg] == s.legs;
    } else if s.bookings != [] {
      ReportAfterBooking(cfg, s.legs, i, leg, truth);
    }
  }

  lemma {:induction false} HedgesFinal(cfg: Config, legs: seq<Leg>, truth: Truth)
    requires Inv(cfg, legs, truth) && !AnyActive(legs, false)
    ensures forall i: nat | i < |legs| ::
              legs[i].plan.role.HedgeRole? ==> legs[i].order.Some? && Fill(legs[i]) == truth(i)
  {
    forall i: nat | i < |legs| && legs[i].plan.role.HedgeRole?
      ensures legs[i].order.Some? && Fill(legs[i]) == truth(i)
    {
      assert LegOk(legs[i], truth(i));
      assert !IsActive(legs[i].status);
    }
  }

  /** Once all is settled and nothing flattens, an advance leaves the legs' plans, orders and fills as they are. */
  lemma {:induction false} SettledAdvance(cfg: Config, s: State, a: Action, truth: Truth)
    requires Inv(cfg, s.legs, truth) && a.AdvancedAt? && !cfg.params.value.autoFlatten && Settled(cfg, s.legs, truth)
    ensures var t := Step(cfg, s, a);
            && |t.legs| == |s.legs|
            && forall i: nat | i < |s.legs| ::
                 t.legs[i].plan == s.legs[i].plan && (t.legs[i].order.Some? <==> s.legs[i].order.Some?)
                 && Fill(t.legs[i]) == Fill(s.legs[i])
  {
    SettledDecision(cfg, s.legs, a.elapsed, truth);
    AdvanceShape(cfg, s, a.current, a.elapsed, truth);
  }

  lemma {:induction false} SameFillsSettled(cfg: Config, legs: seq<Leg>, after: seq<Leg>, truth: Truth)
    requires SoundConfig(cfg) && Settled(cfg, legs, truth) && |after| == |legs|
    requires forall i: nat | i < |legs| ::
               after[i].plan == legs[i].plan && (after[i].order.Some? <==> legs[i].order.Some?)
               && Fill(after[i]) == Fill(legs[i])
    ensures Settled(cfg, after, truth)
    ensures Sum(after, MakerFill) == Sum(legs, MakerFill) && Sum(after, HedgeFill) == Sum(legs, HedgeFill)
  {
    assert Plans(after) == Plans(legs);
    SumsEqual(legs, after, MakerFill);
    SumsEqual(legs, after, HedgeFill);
  }

  lemma {:induction false} SumsEqual(a: seq<Leg>, b: seq<Leg>, f: Leg -> real)
    requires |a| == |b| && forall i | 0 <= i < |a| :: f(a[i]) == f(b[i])
    ensures Sum(a, f) == Sum(b, f)
  {
    if a != [] {
      SumsEqual(a[..|a| - 1], b[..|b| - 1], f);
    }
  }

  lemma {:induction false} AdvanceBookedExactly(cfg: Config, s: State, a: Action, truth: Truth)
    requires Inv(cfg, s.legs, truth) && Within(s.legs, truth) && a.AdvancedAt? && !cfg.params.value.autoFlatten
    requires BookedExactly(cfg, s, truth)
    ensures BookedExactly(cfg, Step(cfg, s, a), truth)
  {
    var t := Step(cfg, s, a);
    AdvanceBooking(cfg, s, a, truth);
    if t.bookings != [] {
      if s.bookings == [] {
        var d := Decide(cfg, s.legs, a.elapsed);
        DecisionIs(cfg, s.legs, a.elapsed, truth);
        CompletionSettles(cfg, s.legs, a.elapsed, d.ratio, truth);
        HedgesFinal(cfg, s.legs, truth);
        MatchedCompletion(cfg, s.legs, a.elapsed, d.ratio, truth);
      }
      SettledAdvance(cfg, s, a, truth);
      SameFillsSettled(cfg, s.legs, t.legs, truth);
    }
  }

  /**
   In every good run without automatic flattening, a booked ratio fits the fills for ever: they are final, the
   hedge is within the tolerance of its target, and the ratio misses the maker's by at most tolerance / target.
   */
  lemma {:induction false} BookedRatioFits(
    cfg: Config, primary: Plan, group: Option<Group>, actions: seq<Action>, truth: Truth)
    requires GoodRun(cfg, primary, group, actions, truth) && !cfg.params.value.autoFlatten
    ensures BookedExactly(cfg, Run(cfg, Initial(primary, group), actions), truth)
    decreases |actions|
  {
    var s0 := Initial(primary, group);
    if actions != [] {
      var n := |actions| - 1;
      var before := Run(cfg, s0, actions[..n]);
      StepExtends(cfg, before, actions[n]);
      WithinEarlier(before.legs, Run(cfg, s0, actions).legs, truth);
      HonestPrefix(cfg, s0, actions, truth);
      RunKeeps(cfg, primary, group, actions[..n], truth);
      BookedRatioFits(cfg, primary, group, actions[..n], truth);
      if actions[n].AdvancedAt? {
        AdvanceBookedExactly(cfg, before, actions[n], truth);
      } else {
        ActionBookedExactly(cfg, before, actions[n], truth);
      }
    }
  }

  // ------------------------------------------------------------------ a reopened intent

  /**
   Once an intent is booked on its group, a status that is live again stays live in every further run in which
   nobody else ends the intent: completing it a second time leaves the status as it is.
   */
  lemma {:induction false} BookedIntentNeverFinishesAgain(cfg: Config, s: State, actions: seq<Action>)
    requires s.group.Some? && s.bookings != [] && IsLive(s.status) && NeverClosed(actions)
    ensures var s' := Run(cfg, s, actions); s'.group.Some? && s'.bookings == s.bookings && IsLive(s'.status)
    decreases |actions|
  {
    if actions != [] {
      var n := |actions| - 1;
      BookedIntentNeverFinishesAgain(cfg, s, actions[..n]);
      assert NeverClosed([actions[n]]);
      StepStaysLive(cfg, Run(cfg, s, actions[..n]), actions[n]);
    }
  }

  lemma {:induction false} StepStaysLive(cfg: Config, s: State, a: Action)
    requires s.group.Some? && s.bookings != [] && IsLive(s.status) && NeverClosed([a])
    ensures var s' := Step(cfg, s, a); s'.group.Some? && s'.bookings == s.bookings && IsLive(s'.status)
  {
    assert [a][0] == a;
    if a.AdvancedAt? {
      var d := Decide(cfg, s.legs, a.elapsed);
      PerformStaysLive(cfg, if d.MissingParameters? then s else MarkSent(s, a.current), d);
    }
  }

  lemma {:induction false} PerformStaysLive(cfg: Config, s: State, d: Decision)
    requires Applicable(cfg, s.legs, d) && s.group.Some? && s.bookings != [] && IsLive(s.status)
    ensures var o := Perform(cfg, s, d);
            o.Advanced? ==> o.state.group.Some? && o.state.bookings == s.bookings && IsLive(o.state.status)
  {
  }

  /** A report that brings no new fill leaves the plans and the fills as they are. */
  lemma {:induction false} StaleLegs(cfg: Config, s: State, i: nat, report: Snapshot, s1: State)
    requires HasOrder(s, i) && report.filled <= Fill(s.legs[i]) && s1 == Step(cfg, s, OrderReported(i, report))
    ensures |s1.legs| == |s.legs| && s1 == s.(legs := s1.legs)
    ensures forall j: nat | j < |s.legs| ::
              s1.legs[j].plan == s.legs[j].plan && (s1.legs[j].order.Some? <==> s.legs[j].order.Some?)
              && Fill(s1.legs[j]) == Fill(s.legs[j]) && (j != i ==> s1.legs[j] == s.legs[j])
    ensures s1.legs[i].status == EventLegStatus(report.status, Fill(s.legs[i]))
  {
  }

  predicate CountsForDone(plan: Plan) {
    IsMaker(plan) || plan.role.HedgeRole?
  }

  /** When one leg changed and now some leg is active, it is that one. */
  lemma {:induction false} ActiveOnlyThere(legs: seq<Leg>, i: nat, after: seq<Leg>, maker: bool)
    requires i < |legs| && |after| == |legs| && forall j: nat | j < |legs| && j != i :: after[j] == legs[j]
    requires AnyActive(after, maker) && !AnyActive(legs, maker)
    ensures IsActive(after[i].status)
    ensures if maker then IsMaker(after[i].plan) else after[i].plan.role.HedgeRole?
  {
  }

  lemma {:induction false} StaleFacts(cfg: Config, legs: seq<Leg>, i: nat, after: seq<Leg>, elapsed: int)
    requires SoundConfig(cfg) && i < |legs| && |after| == |legs| && Matched(cfg.params.value, legs)
    requires !Owed(cfg.params.value, legs) && legs[0].plan.role.MakerRole?
    requires forall j: nat | j < |legs| ::
               after[j].plan == legs[j].plan && Fill(after[j]) == Fill(legs[j]) && (j != i ==> after[j] == legs[j])
    ensures var p := cfg.params.value;
            && !Owed(p, after) && !Flattens(p, after)
            && (Matched(p, after) <==> !(CountsForDone(legs[i].plan) && IsActive(after[i].status)))
            && (Matched(p, after) ==> !CancelFirst(p, after, elapsed))
  {
    assert Plans(after) == Plans(legs);
    SumsEqual(legs, after, MakerFill);
    SumsEqual(legs, after, HedgeFill);
    if CountsForDone(legs[i].plan) && IsActive(after[i].status) {
      assert AnyActive(after, IsMaker(legs[i].plan));
    }
    if AnyActive(after, true) {
      ActiveOnlyThere(legs, i, after, true);
    }
    if AnyActive(after, false) {
      ActiveOnlyThere(legs, i, after, false);
    }
  }

  /**
   A booked intent with a final status, matched fills and nothing owed is reopened by a stale report of one of
   its orders if and only if the report makes a maker or hedge leg active again.
   */
  lemma {:induction false} StaleReportReopensIff(
    cfg: Config, s: State, i: nat, report: Snapshot, current: nat, elapsed: int, truth: Truth)
    requires Inv(cfg, s.legs, truth) && Within(s.legs, truth) && HasOrder(s, i) && report.filled <= Fill(s.legs[i])
    requires Honest(s, OrderReported(i, report), truth)
    requires !IsLive(s.status) && s.group.Some? && s.bookings != []
    requires Matched(cfg.params.value, s.legs) && !Owed(cfg.params.value, s.legs)
    ensures Step(cfg, Step(cfg, s, OrderReported(i, report)), AdvancedAt(current, elapsed)).status != s.status
            <==> CountsForDone(s.legs[i].plan) && IsActive(EventLegStatus(report.status, Fill(s.legs[i])))
  {
    var s1 := Step(cfg, s, OrderReported(i, report));
    StaleLegs(cfg, s, i, report, s1);
    ActionKeeps(cfg, s, OrderReported(i, report), truth);
    assert Plans(s.legs)[0] == s.legs[0].plan;
    StaleFacts(cfg, s.legs, i, s1.legs, elapsed);
    FinalStatusStaysIff(cfg, s1, current, elapsed, truth);
  }
}
