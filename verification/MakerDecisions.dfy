/** Which decision an advance takes, when it is refused, and when a final status stays, in facts about the legs. */
module MakerDecisions {
  import opened Common
  import opened Lifecycle
  import opened Maker
  import opened MakerRuns
  import opened MakerProperties

  // ------------------------------------------------------------------ what the legs call for

  /** The resting maker is canceled before anything else: its cancel is pending, or its time is over. */
  predicate CancelFirst(p: Params, legs: seq<Leg>, elapsed: int)
    requires |legs| > 0
  {
    legs[0].order.Some? && CancelDue(legs[0], legs[0].order.value, p, elapsed)
  }

  predicate FallbackOwed(p: Params, legs: seq<Leg>) {
    p.marketFallback && !AnyActive(legs, true)
    && p.makerTarget - Sum(legs, MakerFill) - Sum(Plans(legs), FallbackQuantity) > Tol(p.makerTarget)
  }

  predicate HedgeOwed(p: Params, legs: seq<Leg>)
    requires p.makerTarget > 0.0
  {
    Desired(p, Sum(legs, MakerFill)) - Sum(Plans(legs), HedgeQuantity) > Tol(p.hedgeTarget)
  }

  /** A hedge failed and the others do not reach the quantity that the maker fills call for. */
  predicate HedgeShort(p: Params, legs: seq<Leg>)
    requires p.makerTarget > 0.0
  {
    AnyFailed(legs, HedgeRole) && Sum(legs, HedgeFill) < Desired(p, Sum(legs, MakerFill)) - Tol(p.hedgeTarget)
  }

  /** The maker quantity that no hedge covers has to be undone by the machine itself. */
  predicate Flattens(p: Params, legs: seq<Leg>)
    requires p.makerTarget > 0.0 && p.hedgeTarget > 0.0
  {
    HedgeShort(p, legs) && p.autoFlatten && Unmatched(p, legs) > Tol(p.makerTarget)
  }

  predicate HasCompensation(legs: seq<Leg>) {
    Count(Plans(legs), CompensationRole) > 0
  }

  /** A leg is owed: a fallback, a hedge or a compensation. */
  predicate Owed(p: Params, legs: seq<Leg>)
    requires p.makerTarget > 0.0 && p.hedgeTarget > 0.0
  {
    FallbackOwed(p, legs) || HedgeOwed(p, legs) || (Flattens(p, legs) && !HasCompensation(legs))
  }

  /** No maker or hedge leg is active, and the hedge is filled within the tolerance of what the maker fills call for. */
  predicate Matched(p: Params, legs: seq<Leg>)
    requires p.makerTarget > 0.0
  {
    !AnyActive(legs, true) && !AnyActive(legs, false)
    && Sum(legs, HedgeFill) >= Desired(p, Sum(legs, MakerFill)) - Tol(p.hedgeTarget)
  }

  /** The compensation did not fail and is filled within the tolerance of the uncovered maker quantity. */
  predicate Compensated(p: Params, legs: seq<Leg>)
    requires p.makerTarget > 0.0 && p.hedgeTarget > 0.0
  {
    Flattens(p, legs) && HasCompensation(legs) && !AnyFailed(legs, CompensationRole)
    && Sum(legs, CompensationFill) >= Unmatched(p, legs) - Tol(p.makerTarget)
  }

  // ------------------------------------------------------------------ the decision

  lemma {:induction false} MakerQuantities(plans: seq<Plan>)
    requires |plans| > 0 && plans[0].role.MakerRole?
    requires forall j | 0 < j < |plans| :: !plans[j].role.MakerRole?
    ensures Sum(plans, MakerQuantity) == plans[0].quantity + Sum(plans, FallbackQuantity)
  {
    if |plans| > 1 {
      MakerQuantities(plans[..|plans| - 1]);
    } else {
      assert plans == [] + [plans[0]];
      SumAppend([], plans[0], MakerQuantity);
      SumAppend([], plans[0], FallbackQuantity);
    }
  }

  /** The maker legs together asked for at least the maker target, the primary alone for all of it. */
  lemma {:induction false} AskedForTarget(cfg: Config, legs: seq<Leg>, truth: Truth)
    requires Inv(cfg, legs, truth) && Within(legs, truth)
    ensures Sum(Plans(legs), MakerQuantity) >= cfg.params.value.makerTarget
  {
    MakerQuantities(Plans(legs));
    assert Plans(legs)[0] == legs[0].plan;
    assert truth(0) <= legs[0].plan.quantity;
  }

  /** Which decision is taken, for any parameters with positive targets and a maker leg first. */
  lemma {:induction false} DecisionByFacts(cfg: Config, legs: seq<Leg>, elapsed: int)
    requires SoundConfig(cfg) && |legs| > 0 && Primary(legs) == 0
    requires Sum(Plans(legs), MakerQuantity) >= cfg.params.value.makerTarget
    ensures var p, d := cfg.params.value, Decide(cfg, legs, elapsed);
            && (d.RequestCancel? || d.AwaitCancel? <==> CancelFirst(p, legs, elapsed))
            && (d.EnqueueFallback? <==> !CancelFirst(p, legs, elapsed) && FallbackOwed(p, legs))
            && (d.EnqueueHedge? <==> !CancelFirst(p, legs, elapsed) && !FallbackOwed(p, legs) && HedgeOwed(p, legs))
            && (IsEnqueue(d) <==> !CancelFirst(p, legs, elapsed) && Owed(p, legs))
            && (d.CompleteMatched? <==> !CancelFirst(p, legs, elapsed) && !Owed(p, legs) && Matched(p, legs))
            && (d.CompleteCompensated? <==> !CancelFirst(p, legs, elapsed) && !Owed(p, legs) && Compensated(p, legs))
            && (d.RecoverHedge? || d.RecoverCompensation? <==>
                  !CancelFirst(p, legs, elapsed) && !Owed(p, legs) && HedgeShort(p, legs) && !Compensated(p, legs))
            && (d.Wait? <==>
                  !CancelFirst(p, legs, elapsed) && !Owed(p, legs) && !HedgeShort(p, legs) && !Matched(p, legs))
            && (d.CompleteMatched? || d.CompleteCompensated? ==> d.ratio == MatchedRatio(p, legs))
  {
  }

  /**
   The decision of an advance in every state of the invariant: a due cancel comes first, then whatever is
   owed, then completion, recovery of an uncovered hedge, or waiting.
   */
  lemma {:induction false} DecisionIs(cfg: Config, legs: seq<Leg>, elapsed: int, truth: Truth)
    requires Inv(cfg, legs, truth) && Within(legs, truth)
    ensures var p, d := cfg.params.value, Decide(cfg, legs, elapsed);
            && (d.RequestCancel? || d.AwaitCancel? <==> CancelFirst(p, legs, elapsed))
            && (d.EnqueueFallback? <==> !CancelFirst(p, legs, elapsed) && FallbackOwed(p, legs))
            && (d.EnqueueHedge? <==> !CancelFirst(p, legs, elapsed) && !FallbackOwed(p, legs) && HedgeOwed(p, legs))
            && (IsEnqueue(d) <==> !CancelFirst(p, legs, elapsed) && Owed(p, legs))
            && (d.CompleteMatched? <==> !CancelFirst(p, legs, elapsed) && !Owed(p, legs) && Matched(p, legs))
            && (d.CompleteCompensated? <==> !CancelFirst(p, legs, elapsed) && !Owed(p, legs) && Compensated(p, legs))
            && (d.RecoverHedge? || d.RecoverCompensation? <==>
                  !CancelFirst(p, legs, elapsed) && !Owed(p, legs) && HedgeShort(p, legs) && !Compensated(p, legs))
            && (d.Wait? <==>
                  !CancelFirst(p, legs, elapsed) && !Owed(p, legs) && !HedgeShort(p, legs) && !Matched(p, legs))
            && (d.CompleteMatched? || d.CompleteCompensated? ==> d.ratio == MatchedRatio(p, legs))
  {
    AskedForTarget(cfg, legs, truth);
    assert Plans(legs)[0] == legs[0].plan;
    PrimaryIsFirst(legs);
    DecisionByFacts(cfg, legs, elapsed);
  }

  // ------------------------------------------------------------------ refused advances

  /**
   After every honest run, whatever marked or superseded the intent, an advance is refused if and only if the
   status is final, a leg is owed, and no cancel comes first.
   */
  lemma {:induction false} RefusedExactlyWhenOwed(
    cfg: Config, primary: Plan, group: Option<Group>, actions: seq<Action>, truth: Truth, s: State,
    current: nat, elapsed: int)
    requires Reached(cfg, primary, group, actions, truth, s)
    ensures SoundConfig(cfg) && |s.legs| > 0
    ensures Advance(cfg, s, current, elapsed).Raised? <==>
              !IsLive(s.status) && Owed(cfg.params.value, s.legs) && !CancelFirst(cfg.params.value, s.legs, elapsed)
  {
    ReachedInv(cfg, primary, group, actions, truth, s);
    AtMostOneCommand(cfg, s, current, elapsed, truth);
    DecisionIs(cfg, s.legs, elapsed, truth);
  }

  // ------------------------------------------------------------------ a final status

  /** A completion leaves the status as it is: the booking was made before, or it gives the same status. */
  predicate CompletionKeeps(cfg: Config, s: State)
    requires SoundConfig(cfg)
  {
    (s.group.Some? && s.bookings != [])
    || s.status == BookedStatus(cfg, s.group.Some?, Min(Max(MatchedRatio(cfg.params.value, s.legs), 0.0), 1.0))
  }

  /** What each kind of decision leaves as the status. */
  lemma {:induction false} StatusAfter(cfg: Config, s: State, d: Decision)
    requires SoundConfig(cfg) && Applicable(cfg, s.legs, d)
    ensures var o := Perform(cfg, s, d);
            && (o.Advanced? && IsEnqueue(d) ==> o.state.status == Running)
            && (d.RequestCancel? || d.AwaitCancel? || d.Wait? ==> o.Advanced? && o.state.status == Running)
            && (d.RecoverHedge? || d.RecoverCompensation? ==> o.Advanced? && o.state.status == RecoveryRequired)
            && ((d.CompleteMatched? || d.CompleteCompensated?) && d.ratio == MatchedRatio(cfg.params.value, s.legs) ==>
                  o.Advanced? && (o.state.status == s.status <==> CompletionKeeps(cfg, s)))
  {
  }

  /**
   In every state of the invariant with a final status, an advance leaves that status if and only if no cancel
   is due and either a leg is owed, so the advance is refused, or the intent is complete, by matched or by
   compensated fills, and completing it changes nothing.
   */
  lemma {:induction false} FinalStatusStaysIff(cfg: Config, s: State, current: nat, elapsed: int, truth: Truth)
    requires Inv(cfg, s.legs, truth) && Within(s.legs, truth) && !IsLive(s.status)
    ensures var p := cfg.params.value;
            Step(cfg, s, AdvancedAt(current, elapsed)).status == s.status <==>
              !CancelFirst(p, s.legs, elapsed)
              && (Owed(p, s.legs)
                  || ((Matched(p, s.legs) || Compensated(p, s.legs)) && CompletionKeeps(cfg, s)))
  {
    var d, marked, o := AdvanceIsStep(cfg, s, current, elapsed);
    DecisionIs(cfg, s.legs, elapsed, truth);
    AtMostOneCommand(cfg, s, current, elapsed, truth);
    assert Plans(s.legs)[0] == s.legs[0].plan;
    PrimaryIsFirst(s.legs);
    ParametersPresent(cfg, s.legs, elapsed);
    StatusAfter(cfg, marked, d);
  }
}
