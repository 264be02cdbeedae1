/** What an advance of the maker machine does besides adding legs: cancels, the commands it marks, and the group. */
module MakerEffects {
  import opened Common
  import opened Orders
  import opened Lifecycle
  import opened Maker
  import opened MakerRuns
  import opened MakerProperties
  import opened MakerDecisions
  import opened MakerLegs
  import opened MakerBooking

  // ------------------------------------------------------------------ canceling the resting maker

  /** The primary is a resting order whose time is over: post-only, still active, as old as its time to live. */
  predicate Overdue(p: Params, leg: Leg, elapsed: int) {
    leg.plan.role == MakerRole && leg.plan.postOnly && IsActive(leg.status)
      && p.ttlSeconds > 0 && p.ttlSeconds <= elapsed
  }

  predicate CancelPending(leg: Leg) {
    leg.order.Some? && leg.order.value.status == PendingCancel
  }

  /**
   After every honest run, an advance asks to cancel if and only if the primary has an order, is overdue and no
   cancel is pending; it then adds exactly that command. While a cancel of an active post-only primary is pending
   it adds nothing.
   */
  lemma {:induction false} CancelIsAskedIff(
    cfg: Config, primary: Plan, group: Option<Group>, actions: seq<Action>, truth: Truth, s: State,
    current: nat, elapsed: int)
    requires Reached(cfg, primary, group, actions, truth, s)
    ensures SoundConfig(cfg) && |s.legs| > 0
    ensures Decide(cfg, s.legs, elapsed).RequestCancel? <==>
              s.legs[0].order.Some? && Overdue(cfg.params.value, s.legs[0], elapsed) && !CancelPending(s.legs[0])
    ensures Decide(cfg, s.legs, elapsed).RequestCancel? ==>
              var o := Advance(cfg, s, current, elapsed);
              && o.Advanced? && o.state.status == Running && o.state.group == s.group
              && |o.state.legs| == |s.legs| && Plans(o.state.legs) == Plans(s.legs)
              && CancelPending(o.state.legs[0]) && IsActive(o.state.legs[0].status)
              && Fill(o.state.legs[0]) == Fill(s.legs[0])
              && |o.state.commands| == |s.commands| + 1
              && o.state.commands[|s.commands|] == Command(CancelLeg(0), OutboxPending)
    ensures s.legs[0].plan.postOnly && IsActive(s.legs[0].status) && CancelPending(s.legs[0]) ==>
              var o := Advance(cfg, s, current, elapsed);
              o.Advanced? && o.state.legs == s.legs && |o.state.commands| == |s.commands| && o.state.status == Running
  {
    ReachedInv(cfg, primary, group, actions, truth, s);
    var d, marked, o := AdvanceIsStep(cfg, s, current, elapsed);
    assert Plans(s.legs)[0] == s.legs[0].plan;
    PrimaryIsFirst(s.legs);
    DecisionIs(cfg, s.legs, elapsed, truth);
    ParametersPresent(cfg, s.legs, elapsed);
    AdvanceShape(cfg, s, current, elapsed, truth);
    StatusAfter(cfg, marked, d);
    if d.RequestCancel? {
      assert Plans(o.state.legs) == Plans(s.legs);
    }
  }

  /** So a resting order is asked to be canceled once: the next advance finds the cancel pending. */
  lemma {:induction false} CancelIsAskedOnce(
    cfg: Config, primary: Plan, group: Option<Group>, actions: seq<Action>, truth: Truth, s: State,
    current: nat, elapsed: int, later: nat, older: int)
    requires Reached(cfg, primary, group, actions, truth, s) && Decide(cfg, s.legs, elapsed).RequestCancel?
    ensures var t := Step(cfg, s, AdvancedAt(current, elapsed));
            var o := Advance(cfg, t, later, older);
            o.Advanced? && o.state.legs == t.legs && |o.state.commands| == |t.commands|
  {
    CancelIsAskedIff(cfg, primary, group, actions, truth, s, current, elapsed);
    ReachedInv(cfg, primary, group, actions, truth, s);
    var d, marked, o := AdvanceIsStep(cfg, s, current, elapsed);
    var t := Step(cfg, s, AdvancedAt(current, elapsed));
    assert Plans(t.legs)[0] == Plans(s.legs)[0];
    AdvanceKeeps(cfg, s, current, elapsed, truth);
    AwaitsCancel(cfg, t, later, older, truth);
  }

  lemma {:induction false} AwaitsCancel(cfg: Config, s: State, current: nat, elapsed: int, truth: Truth)
    requires Inv(cfg, s.legs, truth) && s.legs[0].plan.postOnly && IsActive(s.legs[0].status)
    requires CancelPending(s.legs[0])
    ensures var o := Advance(cfg, s, current, elapsed);
            o.Advanced? && o.state.legs == s.legs && |o.state.commands| == |s.commands|
  {
    var d, marked, o := AdvanceIsStep(cfg, s, current, elapsed);
    assert Plans(s.legs)[0] == s.legs[0].plan;
    PrimaryIsFirst(s.legs);
    ParametersPresent(cfg, s.legs, elapsed);
    AdvanceShape(cfg, s, current, elapsed, truth);
  }

  // ------------------------------------------------------------------ the commands that are marked

  /**
   After every honest run, an advance marks the current command sent exactly when it was being processed, and
   leaves every other command as it is: a waiting command is never taken for a sent one.
   */
  lemma {:induction false} OnlyCurrentIsMarked(
    cfg: Config, primary: Plan, group: Option<Group>, actions: seq<Action>, truth: Truth, s: State,
    current: nat, elapsed: int, j: nat)
    requires Reached(cfg, primary, group, actions, truth, s) && j < |s.commands|
    requires Advance(cfg, s, current, elapsed).Advanced?
    ensures var t := Advance(cfg, s, current, elapsed).state;
            && j < |t.commands|
            && t.commands[j] == if j == current && s.commands[j].status == OutboxProcessing
                                then Command(s.commands[j].kind, OutboxSent) else s.commands[j]
  {
    ReachedInv(cfg, primary, group, actions, truth, s);
    var d, marked, o := AdvanceIsStep(cfg, s, current, elapsed);
    assert Plans(s.legs)[0] == s.legs[0].plan;
    PrimaryIsFirst(s.legs);
    ParametersPresent(cfg, s.legs, elapsed);
    AdvanceShape(cfg, s, current, elapsed, truth);
  }

  // ------------------------------------------------------------------ what a compensation leaves

  /**
   When an intent completes by compensation, what its maker legs still hold on the primary's side exceeds what its
   hedge covers by no more than the tolerance.
   */
  lemma {:induction false} CompensatedIsCovered(
    cfg: Config, primary: Plan, group: Option<Group>, actions: seq<Action>, truth: Truth, s: State, elapsed: int)
    requires Reached(cfg, primary, group, actions, truth, s)
    requires Decide(cfg, s.legs, elapsed).CompleteCompensated?
    ensures SoundConfig(cfg) && cfg.params.value.autoFlatten && AnyFailed(s.legs, HedgeRole)
    ensures WithinCovered(cfg.params.value, Sum(s.legs, Bought(primary.side)), Sum(s.legs, HedgeFill))
  {
    ReachedCompensated(cfg, primary, group, actions, truth, s, elapsed);
    ExposureIsBounded(cfg, primary, group, actions, truth, s);
    CompensatedBound(cfg.params.value, s.legs, Sum(s.legs, Bought(primary.side)));
  }

  /** A net purchase exceeds the covered part of the maker target by no more than the tolerance. */
  predicate WithinCovered(p: Params, net: real, hedge: real)
    requires p.hedgeTarget > 0.0
  {
    net <= p.makerTarget * CoveredPart(p, hedge) + Tol(p.makerTarget)
  }

  lemma {:induction false} ReachedCompensated(
    cfg: Config, primary: Plan, group: Option<Group>, actions: seq<Action>, truth: Truth, s: State, elapsed: int)
    requires Reached(cfg, primary, group, actions, truth, s)
    requires Decide(cfg, s.legs, elapsed).CompleteCompensated?
    ensures SoundConfig(cfg) && Sum(s.legs, HedgeFill) >= 0.0
    ensures Compensated(cfg.params.value, s.legs)
  {
    ReachedInv(cfg, primary, group, actions, truth, s);
    HedgeFillsWithinQuantity(s.legs, truth);
    IsCompensated(cfg, s.legs, elapsed, truth);
  }

  lemma {:induction false} IsCompensated(cfg: Config, legs: seq<Leg>, elapsed: int, truth: Truth)
    requires Inv(cfg, legs, truth) && Within(legs, truth) && Decide(cfg, legs, elapsed).CompleteCompensated?
    ensures Compensated(cfg.params.value, legs)
  {
    DecisionIs(cfg, legs, elapsed, truth);
  }

  lemma {:induction false} CompensatedBound(p: Params, legs: seq<Leg>, net: real)
    requires p.makerTarget > 0.0 && p.hedgeTarget > 0.0 && Sum(legs, HedgeFill) >= 0.0 && Compensated(p, legs)
    requires net == Sum(legs, MakerFill) - Sum(legs, CompensationFill)
    ensures WithinCovered(p, net, Sum(legs, HedgeFill))
  {
    UnmatchedAtLeast(p, legs);
    Covered(p, Sum(legs, HedgeFill));
  }

  lemma {:induction false} UnmatchedAtLeast(p: Params, legs: seq<Leg>)
    requires p.hedgeTarget > 0.0
    ensures Unmatched(p, legs)
            >= Sum(legs, MakerFill) - p.makerTarget * Min(Max(Sum(legs, HedgeFill) / p.hedgeTarget, 0.0), 1.0)
  {
  }

  /** The part of the hedge target that is filled, at most all of it. */
  function CoveredPart(p: Params, hedge: real): real
    requires p.hedgeTarget > 0.0
  {
    if hedge < p.hedgeTarget then hedge / p.hedgeTarget else 1.0
  }

  lemma {:induction false} Covered(p: Params, hedge: real)
    requires p.makerTarget > 0.0 && p.hedgeTarget > 0.0 && hedge >= 0.0
    ensures Min(Max(hedge / p.hedgeTarget, 0.0), 1.0) == CoveredPart(p, hedge)
  {
    if hedge < p.hedgeTarget {
      assert hedge / p.hedgeTarget < 1.0;
    } else {
      assert hedge / p.hedgeTarget >= 1.0;
    }
    assert hedge / p.hedgeTarget >= 0.0;
  }

  // ------------------------------------------------------------------ the group after a booking

  /** What a booking at a ratio makes of the group's status. */
  predicate BookedAs(cfg: Config, p: Params, ratio: real, status: GroupStatus) {
    if cfg.opening then
      && (status == GroupOpen <==> ratio >= 0.999999999)
      && (status == GroupOpenPartial <==> EPSILON < ratio < 0.999999999)
      && (status == GroupFailed <==> ratio <= EPSILON)
    else
      && (ratio >= 0.999999999 ==> status == GroupClosed)
      && (EPSILON < ratio < 0.999999999 ==> status == GroupOpenPartial)
      && (ratio <= EPSILON ==> status == p.previousStatus)
  }

  /**
   After every honest run, an advance that books does so at a ratio between 0 and 1, and the group and the intent
   get the statuses of that ratio: whole, partly, or not at all.
   */
  lemma {:induction false} BookingSetsStatuses(
    cfg: Config, primary: Plan, group: Option<Group>, actions: seq<Action>, truth: Truth, s: State,
    current: nat, elapsed: int)
    requires Reached(cfg, primary, group, actions, truth, s) && s.bookings == []
    requires Advance(cfg, s, current, elapsed).Advanced?
    requires Advance(cfg, s, current, elapsed).state.bookings != []
    ensures cfg.params.Some?
    ensures var t := Advance(cfg, s, current, elapsed).state;
            && t.group.Some? && |t.bookings| == 1 && 0.0 <= t.bookings[0] <= 1.0
            && BookedAs(cfg, cfg.params.value, t.bookings[0], t.group.value.status)
            && t.status == if t.bookings[0] > (if cfg.opening then EPSILON else 0.0) then Completed else FailedIntent
  {
    ReachedInv(cfg, primary, group, actions, truth, s);
    var d, marked, o := AdvanceIsStep(cfg, s, current, elapsed);
    BooksAs(cfg, marked, d);
  }

  lemma {:induction false} BooksAs(cfg: Config, s: State, d: Decision)
    requires SoundConfig(cfg) && Applicable(cfg, s.legs, d) && s.bookings == []
    requires Perform(cfg, s, d).Advanced? && Perform(cfg, s, d).state.bookings != []
    ensures var t := Perform(cfg, s, d).state;
            && t.group.Some? && |t.bookings| == 1 && 0.0 <= t.bookings[0] <= 1.0
            && BookedAs(cfg, cfg.params.value, t.bookings[0], t.group.value.status)
            && t.status == if t.bookings[0] > (if cfg.opening then EPSILON else 0.0) then Completed else FailedIntent
  {
  }

  /** A recovery asks for an operator: the intent needs recovery, its group manual intervention, and nothing is
      added. */
  lemma {:induction false} RecoveryAsksForHelp(
    cfg: Config, primary: Plan, group: Option<Group>, actions: seq<Action>, truth: Truth, s: State,
    current: nat, elapsed: int)
    requires Reached(cfg, primary, group, actions, truth, s)
    ensures SoundConfig(cfg) && |s.legs| > 0
    ensures var p := cfg.params.value;
            !CancelFirst(p, s.legs, elapsed) && !Owed(p, s.legs) && HedgeShort(p, s.legs) && !Compensated(p, s.legs) ==>
              var o := Advance(cfg, s, current, elapsed);
              && o.Advanced? && o.state.status == RecoveryRequired
              && (s.group.Some? ==>
                o.state.group == Some(s.group.value.(status := GroupManual)) && o.state.recoveryNoted)
              && o.state.legs == s.legs && |o.state.commands| == |s.commands| && o.state.bookings == s.bookings
  {
    ReachedInv(cfg, primary, group, actions, truth, s);
    var d, marked, o := AdvanceIsStep(cfg, s, current, elapsed);
    assert Plans(s.legs)[0] == s.legs[0].plan;
    PrimaryIsFirst(s.legs);
    ParametersPresent(cfg, s.legs, elapsed);
    DecisionIs(cfg, s.legs, elapsed, truth);
  }

  /**
   After every honest run without automatic flattening, and with a hedge target of at least a thousandth: the booked
   ratio misses the filled part of the maker target by no more than a billionth.
   */
  lemma {:induction false} BookedRatioIsTight(
    cfg: Config, primary: Plan, group: Option<Group>, actions: seq<Action>, truth: Truth, s: State)
    requires Reached(cfg, primary, group, actions, truth, s) && s.bookings != []
    requires !cfg.params.value.autoFlatten && cfg.params.value.hedgeTarget >= 0.001
    ensures var part := Sum(s.legs, MakerFill) / cfg.params.value.makerTarget;
            part - 0.000000001 <= s.bookings[0] <= part
  {
    BookedRatioFits(cfg, primary, group, actions, truth);
    TolPart(cfg.params.value.hedgeTarget);
  }

  lemma TolPart(target: real)
    requires target >= 0.001
    ensures Tol(target) / target == 0.000000001
  {
  }
}
