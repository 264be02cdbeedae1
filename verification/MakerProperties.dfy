/** What holds of a maker intent after every honest run. */
module MakerProperties {
  import opened Common
  import opened Lifecycle
  import opened Maker
  import opened MakerRuns

  /** A run that starts as the coordinator creates the intent, in an honest environment. */
  ghost predicate GoodRun(cfg: Config, primary: Plan, group: Option<Group>, actions: seq<Action>, truth: Truth) {
    && SoundConfig(cfg) && SoundPrimary(cfg.params.value, primary)
    && HonestRun(cfg, Initial(primary, group), actions, truth)
    && Within(Run(cfg, Initial(primary, group), actions).legs, truth)
  }

  /** The state an intent reaches after a good run. */
  ghost predicate Reached(
    cfg: Config, primary: Plan, group: Option<Group>, actions: seq<Action>, truth: Truth, s: State)
  {
    GoodRun(cfg, primary, group, actions, truth) && s == Run(cfg, Initial(primary, group), actions)
  }

  /** The invariant holds in every reached state. */
  lemma {:induction false} ReachedInv(
    cfg: Config, primary: Plan, group: Option<Group>, actions: seq<Action>, truth: Truth, s: State)
    requires Reached(cfg, primary, group, actions, truth, s)
    ensures Inv(cfg, s.legs, truth) && Within(s.legs, truth)
  {
    RunKeeps(cfg, primary, group, actions, truth);
  }

  // ------------------------------------------------------------------ quantities

  lemma {:induction false} HedgeFillsWithinQuantity(legs: seq<Leg>, truth: Truth)
    requires Within(legs, truth) && forall i: nat | i < |legs| :: LegOk(legs[i], truth(i))
    ensures 0.0 <= Sum(legs, HedgeFill) <= Sum(Plans(legs), HedgeQuantity)
  {
    if legs != [] {
      var n := |legs| - 1;
      assert Plans(legs)[..n] == Plans(legs[..n]);
      forall i: nat | i < n
        ensures LegOk(legs[..n][i], truth(i))
      {
        assert LegOk(legs[i], truth(i));
      }
      HedgeFillsWithinQuantity(legs[..n], truth);
      assert LegOk(legs[n], truth(n));
    }
  }

  lemma {:induction false} MakerFillsWithin(legs: seq<Leg>, truth: Truth)
    requires |legs| > 0 && legs[0].plan.role.MakerRole?
    requires forall j | 0 < j < |legs| :: !legs[j].plan.role.MakerRole?
    requires Within(legs, truth) && forall i: nat | i < |legs| :: LegOk(legs[i], truth(i))
    ensures Sum(legs, MakerFill) <= Fill(legs[0]) + Sum(Plans(legs), FallbackQuantity)
  {
    var n := |legs| - 1;
    assert Plans(legs)[..n] == Plans(legs[..n]);
    assert LegOk(legs[n], truth(n));
    if n > 0 {
      forall i: nat | i < n
        ensures LegOk(legs[..n][i], truth(i))
      {
        assert LegOk(legs[i], truth(i));
      }
      MakerFillsWithin(legs[..n], truth);
    } else {
      assert legs[..0] == [] && Plans(legs)[..0] == [];
    }
  }

  lemma {:induction false} MakerFillsAtMostTarget(cfg: Config, legs: seq<Leg>, truth: Truth)
    requires Inv(cfg, legs, truth) && Within(legs, truth)
    ensures 0.0 <= Sum(legs, MakerFill) <= cfg.params.value.makerTarget
  {
    assert forall j | 0 <= j < |legs| :: Plans(legs)[j] == legs[j].plan;
    MakerFillsWithin(legs, truth);
    PrimaryFillBelowSum(cfg, legs, truth);
    assert LegOk(legs[0], truth(0));
  }

  /**
   Fallback and primary together never fill more than the maker target; there is at most one fallback
   and at most one compensation leg, and the compensation never undoes more than the maker filled.
   */
  lemma {:induction false} MakerNeverOverfills(
    cfg: Config, primary: Plan, group: Option<Group>, actions: seq<Action>, truth: Truth, s: State)
    requires Reached(cfg, primary, group, actions, truth, s)
    ensures SoundConfig(cfg) && Sum(s.legs, MakerFill) <= cfg.params.value.makerTarget
    ensures Count(Plans(s.legs), FallbackRole) <= 1 && Count(Plans(s.legs), CompensationRole) <= 1
    ensures Sum(Plans(s.legs), CompensationQuantity) <= Sum(s.legs, MakerFill)
  {
    ReachedInv(cfg, primary, group, actions, truth, s);
    MakerFillsAtMostTarget(cfg, s.legs, truth);
  }

  lemma {:induction false} HedgeQuantityAtMostTarget(cfg: Config, legs: seq<Leg>, truth: Truth)
    requires Inv(cfg, legs, truth)
    ensures Sum(Plans(legs), HedgeQuantity) <= cfg.params.value.hedgeTarget
  {
    DesiredMonotone(cfg.params.value, Sum(legs, MakerFill), Sum(legs, MakerFill));
  }

  /**
   All hedge legs ever enqueued, failed ones included, stay within the proportional target, carry the
   strategy quantity in the same proportion, and never fill more than that.
   */
  lemma {:induction false} HedgesStayProportional(
    cfg: Config, primary: Plan, group: Option<Group>, actions: seq<Action>, truth: Truth, s: State)
    requires Reached(cfg, primary, group, actions, truth, s)
    ensures SoundConfig(cfg)
    ensures Sum(Plans(s.legs), HedgeQuantity) <= Desired(cfg.params.value, Sum(s.legs, MakerFill))
    ensures 0.0 <= Sum(s.legs, HedgeFill) <= Sum(Plans(s.legs), HedgeQuantity) <= cfg.params.value.hedgeTarget
    ensures InProportion(cfg.params.value, Plans(s.legs))
  {
    ReachedInv(cfg, primary, group, actions, truth, s);
    HedgeFillsWithinQuantity(s.legs, truth);
    HedgeQuantityAtMostTarget(cfg, s.legs, truth);
  }

  lemma {:induction false} HedgeQuantitiesAboveTol(plans: seq<Plan>, tol: real)
    requires tol > 0.0
    requires forall j | 0 <= j < |plans| :: plans[j].role.HedgeRole? ==> plans[j].quantity > tol
    ensures Sum(plans, HedgeQuantity) >= Count(plans, HedgeRole) as real * tol
    ensures Count(plans, HedgeRole) > 0 ==> Sum(plans, HedgeQuantity) > Count(plans, HedgeRole) as real * tol
  {
    if plans != [] {
      var n := |plans| - 1;
      HedgeQuantitiesAboveTol(plans[..n], tol);
      var k := Count(plans[..n], HedgeRole) as real;
      assert (k + 1.0) * tol == k * tol + tol;
    }
  }

  lemma {:induction false} ABillionTolerances(k: real, target: real)
    requires k > 0.0 && target > 0.0 && k * Tol(target) < target
    ensures k < 1000000000.0
  {
    var unit := target * 0.000000001;
    Product(k, unit, Tol(target));
    if k >= 1000000000.0 {
      Product(unit, 1000000000.0, k);
      assert false;
    }
  }

  lemma {:induction false} Product(k: real, a: real, b: real)
    requires k >= 0.0 && a <= b
    ensures k * a <= k * b
  {
  }

  lemma {:induction false} HedgeCountBound(plans: seq<Plan>, target: real)
    requires target > 0.0 && Sum(plans, HedgeQuantity) <= target
    requires forall j | 0 <= j < |plans| :: plans[j].role.HedgeRole? ==> plans[j].quantity > Tol(target)
    ensures Count(plans, HedgeRole) < 1_000_000_000
  {
    HedgeQuantitiesAboveTol(plans, Tol(target));
    if Count(plans, HedgeRole) > 0 {
      ABillionTolerances(Count(plans, HedgeRole) as real, target);
    }
  }

  /** The machine cannot create hedge legs forever. */
  lemma {:induction false} FewerThanABillionHedges(
    cfg: Config, primary: Plan, group: Option<Group>, actions: seq<Action>, truth: Truth, s: State)
    requires Reached(cfg, primary, group, actions, truth, s)
    ensures Count(Plans(s.legs), HedgeRole) < 1_000_000_000
  {
    ReachedInv(cfg, primary, group, actions, truth, s);
    HedgeQuantityAtMostTarget(cfg, s.legs, truth);
    HedgeCountBound(Plans(s.legs), cfg.params.value.hedgeTarget);
  }

  // ------------------------------------------------------------------ one advance

  /** Legs keep distinct keys in every run, so a key is never refused as a duplicate. */
  lemma {:induction false} KeysAreDistinct(
    cfg: Config, primary: Plan, group: Option<Group>, actions: seq<Action>, truth: Truth, s: State)
    requires Reached(cfg, primary, group, actions, truth, s)
    ensures var legs := s.legs;
            forall i, j | 0 <= i < j < |legs| :: legs[i].plan.key != legs[j].plan.key
  {
    var legs := s.legs;
    ReachedInv(cfg, primary, group, actions, truth, s);
    assert forall j | 0 <= j < |legs| :: Plans(legs)[j] == legs[j].plan;
    forall i, j | 0 <= i < j < |legs|
      ensures legs[i].plan.key != legs[j].plan.key
    {
      DistinctKeys(cfg.params.value, Plans(legs), i, j);
    }
  }

  lemma {:induction false} DistinctKeys(p: Params, plans: seq<Plan>, i: nat, j: nat)
    requires PlansOk(p, plans) && i < j < |plans|
    ensures plans[i].key != plans[j].key
  {
    assert KeyOk(plans, i) && KeyOk(plans, j);
    if plans[i].role == plans[j].role {
      assert plans[..j][..i] == plans[..i];
      CountBefore(plans[..j], i, plans[i].role);
      CountBefore(plans, j, plans[j].role);
      if plans[i].key == plans[j].key {
        var m, n := Count(plans[..i], HedgeRole), Count(plans[..j], HedgeRole);
        assert NatToString(m) == plans[i].key[6..] == plans[j].key[6..] == NatToString(n);
        NatToStringInjective(m, n);
      }
    } else {
      assert plans[i].key[0] != plans[j].key[0];
    }
  }

  /** At most one command and one leg more; the command of a new leg submits it. */
  predicate AddsAtMostOne(s: State, t: State) {
    && |s.commands| <= |t.commands| <= |s.commands| + 1
    && |s.legs| <= |t.legs| <= |s.legs| + 1
    && (|t.legs| == |s.legs| + 1 ==>
          |t.commands| > 0 && t.commands[|t.commands| - 1] == Command(SubmitLeg(|s.legs|), OutboxPending))
  }

  /**
   Each advance issues at most one command and creates at most one leg; a command is either a new leg
   or a cancel of the primary, never both; and it raises exactly when it wants a leg for an intent
   whose status is final.
   */
  lemma {:induction false} AtMostOneCommand(cfg: Config, s: State, current: nat, elapsed: int, truth: Truth)
    requires Inv(cfg, s.legs, truth)
    ensures var o := Advance(cfg, s, current, elapsed);
            && (o.Raised? <==> IsEnqueue(Decide(cfg, s.legs, elapsed)) && !IsLive(s.status))
            && (o.Advanced? ==> AddsAtMostOne(s, o.state))
  {
    AdvanceShape(cfg, s, current, elapsed, truth);
  }

  // ------------------------------------------------------------------ completion

  lemma {:induction false} RatioBounds(p: Params, m: real, h: real)
    requires p.makerTarget > 0.0 && p.hedgeTarget > 0.0 && 0.0 <= m && 0.0 <= h
    requires h >= Desired(p, m) - Tol(p.hedgeTarget)
    ensures var r := Min(Min(m / p.makerTarget, h / p.hedgeTarget), 1.0);
            && r <= m / p.makerTarget && r <= h / p.hedgeTarget && 0.0 <= r <= 1.0
            && Min(m / p.makerTarget, 1.0) - r <= Tol(p.hedgeTarget) / p.hedgeTarget
  {
    var x, y, t := m / p.makerTarget, h / p.hedgeTarget, Tol(p.hedgeTarget) / p.hedgeTarget;
    assert x >= 0.0 && y >= 0.0 && t >= 0.0;
    var u := Min(x, 1.0);
    assert Desired(p, m) == p.hedgeTarget * u;
    assert y * p.hedgeTarget == h && t * p.hedgeTarget == Tol(p.hedgeTarget);
    assert (y - u + t) * p.hedgeTarget >= 0.0;
    NonNegativeFactor(y - u + t, p.hedgeTarget);
  }

  lemma {:induction false} NonNegativeFactor(a: real, k: real)
    requires k > 0.0 && a * k >= 0.0
    ensures a >= 0.0
  {
    assert a < 0.0 ==> a * k < 0.0;
  }

  /**
   When an intent completes without compensation, nothing is active, the hedge is filled within the
   tolerance of its proportional target, and the booked ratio exceeds neither side's filled ratio and
   falls short of the maker's by at most the tolerance.
   */
  lemma {:induction false} MatchedCompletion(cfg: Config, legs: seq<Leg>, elapsed: int, r: real, truth: Truth)
    requires Inv(cfg, legs, truth) && Within(legs, truth)
    requires Decide(cfg, legs, elapsed) == CompleteMatched(r)
    ensures var p := cfg.params.value;
            var m, h := Sum(legs, MakerFill), Sum(legs, HedgeFill);
            && !AnyActive(legs, true) && !AnyActive(legs, false)
            && Desired(p, m) - Tol(p.hedgeTarget) <= h <= Desired(p, m)
            && r <= m / p.makerTarget && r <= h / p.hedgeTarget && 0.0 <= r <= 1.0
            && m / p.makerTarget - r <= Tol(p.hedgeTarget) / p.hedgeTarget
  {
    var p, m := cfg.params.value, Sum(legs, MakerFill);
    HedgeFillsWithinQuantity(legs, truth);
    MakerFillsAtMostTarget(cfg, legs, truth);
    AtMostOne(m, p.makerTarget);
    RatioBounds(p, m, Sum(legs, HedgeFill));
  }

  lemma {:induction false} AtMostOne(a: real, b: real)
    requires 0.0 <= a <= b && b > 0.0
    ensures a / b <= 1.0
  {
  }
}
