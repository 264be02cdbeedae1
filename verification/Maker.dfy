/**
 The maker-then-market state machine of one intent: a resting maker order, market hedges that follow
 its fills, at most one market fallback, at most one compensation, and the booking of the result on
 the hedge group. Rows of the database are records; `MakerIntent` updates them in place.
 */
module Maker {
  import opened Common
  import opened Orders
  import opened Lifecycle

  datatype Role = MakerRole | FallbackRole | HedgeRole | CompensationRole

  datatype Side = Buy | Sell

  /** What an enqueued leg asks for; never changed once stored. */
  datatype Plan = Plan(
    key: string, role: Role, venue: string, side: Side, compensates: bool,
    strategyQuantity: real, quantity: real, market: bool, postOnly: bool, reduceOnly: bool)

  datatype Leg = Leg(plan: Plan, status: LegStatus, order: Option<VenueOrder>)

  datatype CommandKind = SubmitLeg(leg: nat) | CancelLeg(leg: nat)

  datatype Command = Command(kind: CommandKind, status: OutboxStatus)

  datatype Group = Group(status: GroupStatus, legA: real, legB: real)

  datatype Template = Template(key: string, venue: string, side: Side, strategyQuantity: real, reduceOnly: bool)

  /** The parameters stored with the root command. */
  datatype Params = Params(
    makerTarget: real, hedgeTarget: real, template: Template, ttlSeconds: int,
    marketFallback: bool, autoFlatten: bool, previousStatus: GroupStatus)

  /** What never changes during the life of an intent: its type and its stored parameters. */
  datatype Config = Config(opening: bool, params: Option<Params>)

  /** `bookings` holds the matched ratio of every completion event recorded for this intent. */
  datatype State = State(
    status: IntentStatus, legs: seq<Leg>, commands: seq<Command>,
    group: Option<Group>, bookings: seq<real>, recoveryNoted: bool)

  datatype Outcome = Advanced(state: State) | Raised

  function Tol(quantity: real): real {
    Max(Abs(quantity) * 0.000000001, 0.000000000001)
  }

  // ------------------------------------------------------------------ measures over the legs

  function Fill(leg: Leg): real {
    if leg.order.Some? then leg.order.value.filled else 0.0
  }

  predicate IsMaker(plan: Plan) {
    plan.role.MakerRole? || plan.role.FallbackRole?
  }

  function MakerFill(leg: Leg): real { if IsMaker(leg.plan) then Fill(leg) else 0.0 }
  function HedgeFill(leg: Leg): real { if leg.plan.role.HedgeRole? then Fill(leg) else 0.0 }
  function CompensationFill(leg: Leg): real { if leg.plan.role.CompensationRole? then Fill(leg) else 0.0 }
  function MakerQuantity(plan: Plan): real { if IsMaker(plan) then plan.quantity else 0.0 }
  function FallbackQuantity(plan: Plan): real { if plan.role.FallbackRole? then plan.quantity else 0.0 }
  function HedgeQuantity(plan: Plan): real { if plan.role.HedgeRole? then plan.quantity else 0.0 }
  function CompensationQuantity(plan: Plan): real { if plan.role.CompensationRole? then plan.quantity else 0.0 }
  function HedgeStrategy(plan: Plan): real { if plan.role.HedgeRole? then plan.strategyQuantity else 0.0 }

  function Plans(legs: seq<Leg>): (plans: seq<Plan>)
    ensures |plans| == |legs| && forall i | 0 <= i < |legs| :: plans[i] == legs[i].plan
  {
    seq(|legs|, i requires 0 <= i < |legs| => legs[i].plan)
  }

  /** How many plans have the role, as the length of the filtered list. */
  function Count(plans: seq<Plan>, role: Role): nat {
    if plans == [] then 0
    else Count(plans[..|plans| - 1], role) + if plans[|plans| - 1].role == role then 1 else 0
  }

  predicate AnyActive(legs: seq<Leg>, maker: bool) {
    exists i | 0 <= i < |legs| ::
      (if maker then IsMaker(legs[i].plan) else legs[i].plan.role.HedgeRole?) && IsActive(legs[i].status)
  }

  predicate AnyFailed(legs: seq<Leg>, role: Role) {
    exists i | 0 <= i < |legs| :: legs[i].plan.role == role && legs[i].status.LegFailed?
  }

  /** Index of the first leg with the role, or the number of legs. */
  function FirstOf(legs: seq<Leg>, role: Role): (i: nat)
    ensures i <= |legs|
    ensures i < |legs| ==> legs[i].plan.role == role
    ensures forall j | 0 <= j < i :: legs[j].plan.role != role
  {
    if legs == [] then 0 else if legs[0].plan.role == role then 0 else 1 + FirstOf(legs[1..], role)
  }

  /** The leg the source calls primary: the maker leg if there is one, else the first fallback leg. */
  function Primary(legs: seq<Leg>): (i: nat)
    ensures i <= |legs|
    ensures i < |legs| ==> IsMaker(legs[i].plan) && forall j | 0 <= j < i :: legs[j].plan.role != legs[i].plan.role
    ensures (exists j :: 0 <= j < |legs| && legs[j].plan.role.MakerRole?) ==> i < |legs| && legs[i].plan.role.MakerRole?
    ensures (exists j :: 0 <= j < |legs| && IsMaker(legs[j].plan)) <==> i < |legs|
  {
    if FirstOf(legs, MakerRole) < |legs| then FirstOf(legs, MakerRole) else FirstOf(legs, FallbackRole)
  }

  // ------------------------------------------------------------------ the decision

  datatype Decision =
    | MissingParameters
    | NoMakerLeg
    | BadTargets
    | AwaitCancel
    | RequestCancel
    | EnqueueFallback(quantity: real)
    | EnqueueHedge(quantity: real)
    | RecoverHedge
    | EnqueueCompensation(quantity: real)
    | RecoverCompensation
    | CompleteCompensated(ratio: real)
    | CompleteMatched(ratio: real)
    | Wait

  predicate CancelDue(leg: Leg, order: VenueOrder, p: Params, elapsed: int) {
    leg.plan.role.MakerRole? && leg.plan.postOnly && IsActive(leg.status)
    && (order.status.PendingCancel? || (p.ttlSeconds > 0 && elapsed >= p.ttlSeconds))
  }

  /** Hedge quantity that belongs to a maker fill. */
  function Desired(p: Params, makerFilled: real): real
    requires p.makerTarget > 0.0
  {
    Share(p.hedgeTarget, makerFilled / p.makerTarget)
  }

  /** The part of a target that a ratio between 0 and 1 stands for. */
  function Share(target: real, ratio: real): real {
    target * Min(Max(ratio, 0.0), 1.0)
  }

  function FallbackRemaining(p: Params, legs: seq<Leg>): real {
    Max(p.makerTarget - Sum(legs, MakerFill) - Sum(Plans(legs), FallbackQuantity), 0.0)
  }

  function HedgeDelta(p: Params, legs: seq<Leg>): real
    requires p.makerTarget > 0.0
  {
    Max(Desired(p, Sum(legs, MakerFill)) - Sum(Plans(legs), HedgeQuantity), 0.0)
  }

  /** Maker quantity that no hedge fill covers. */
  function Unmatched(p: Params, legs: seq<Leg>): real
    requires p.hedgeTarget > 0.0
  {
    var matched := p.makerTarget * Min(Max(Sum(legs, HedgeFill) / p.hedgeTarget, 0.0), 1.0);
    Max(Sum(legs, MakerFill) - matched, 0.0)
  }

  function MatchedRatio(p: Params, legs: seq<Leg>): real
    requires p.makerTarget > 0.0 && p.hedgeTarget > 0.0
  {
    Min(Min(Sum(legs, MakerFill) / p.makerTarget, Sum(legs, HedgeFill) / p.hedgeTarget), 1.0)
  }

  function DecideFailedHedge(p: Params, legs: seq<Leg>): Decision
    requires p.makerTarget > 0.0 && p.hedgeTarget > 0.0
  {
    var unmatched := Unmatched(p, legs);
    if !p.autoFlatten || unmatched <= Tol(p.makerTarget) then RecoverHedge
    else if Count(Plans(legs), CompensationRole) == 0 then EnqueueCompensation(unmatched)
    else if AnyFailed(legs, CompensationRole) || Sum(legs, CompensationFill) < unmatched - Tol(p.makerTarget) then
      RecoverCompensation
    else CompleteCompensated(MatchedRatio(p, legs))
  }

  function DecideFilled(p: Params, legs: seq<Leg>): Decision
    requires p.makerTarget > 0.0 && p.hedgeTarget > 0.0
  {
    var makerFilled := Sum(legs, MakerFill);
    var hedgeFilled := Sum(legs, HedgeFill);
    var desired := Desired(p, makerFilled);
    if AnyFailed(legs, HedgeRole) && hedgeFilled < desired - Tol(p.hedgeTarget) then DecideFailedHedge(p, legs)
    else
      var makerDone := !AnyActive(legs, true)
        && (makerFilled >= p.makerTarget - Tol(p.makerTarget) || !p.marketFallback
            || Sum(Plans(legs), MakerQuantity) >= p.makerTarget - Tol(p.makerTarget));
      var hedgeDone := !AnyActive(legs, false) && hedgeFilled >= desired - Tol(p.hedgeTarget);
      if makerDone && hedgeDone then CompleteMatched(MatchedRatio(p, legs)) else Wait
  }

  /** What a decision presupposes of the rows it is applied to. */
  predicate Applicable(cfg: Config, legs: seq<Leg>, d: Decision) {
    d.MissingParameters? || d.NoMakerLeg? || d.BadTargets?
    || (&& cfg.params.Some? && cfg.params.value.makerTarget > 0.0 && cfg.params.value.hedgeTarget > 0.0
        && Primary(legs) < |legs|
        && (d.RequestCancel? ==> legs[Primary(legs)].order.Some?))
  }

  /** What one advance does, read from the stored facts alone. `elapsed` is the age of the primary leg. */
  function Decide(cfg: Config, legs: seq<Leg>, elapsed: int): (d: Decision)
    ensures Applicable(cfg, legs, d)
  {
    var i := Primary(legs);
    if cfg.params.None? then MissingParameters
    else if i == |legs| then NoMakerLeg
    else if cfg.params.value.makerTarget <= 0.0 || cfg.params.value.hedgeTarget <= 0.0 then BadTargets
    else
      var p := cfg.params.value;
      if legs[i].order.Some? && CancelDue(legs[i], legs[i].order.value, p, elapsed) then
        if legs[i].order.value.status.PendingCancel? then AwaitCancel else RequestCancel
      else if !AnyActive(legs, true) && FallbackRemaining(p, legs) > Tol(p.makerTarget) && p.marketFallback then
        EnqueueFallback(FallbackRemaining(p, legs))
      else if HedgeDelta(p, legs) > Tol(p.hedgeTarget) then EnqueueHedge(HedgeDelta(p, legs))
      else DecideFilled(p, legs)
  }

  // ------------------------------------------------------------------ the effects

  predicate HasKey(legs: seq<Leg>, key: string) {
    exists i | 0 <= i < |legs| :: legs[i].plan.key == key
  }

  /** `enqueue_execution_leg`: refused for an intent that is over, for a key in use, for a quantity not positive. */
  function Enqueue(s: State, plan: Plan): Outcome {
    if !IsLive(s.status) || HasKey(s.legs, plan.key) || plan.strategyQuantity <= 0.0 || plan.quantity <= 0.0 then
      Raised
    else
      Advanced(s.(legs := s.legs + [Leg(plan, LegPlanned, None)],
                  commands := s.commands + [Command(SubmitLeg(|s.legs|), OutboxPending)],
                  status := Running))
  }

  function FallbackPlan(primary: Plan, sequence: nat, quantity: real): Plan
    requires primary.quantity != 0.0
  {
    primary.(key := "maker_fallback_" + NatToString(sequence), role := FallbackRole,
             strategyQuantity := primary.strategyQuantity * quantity / primary.quantity, quantity := quantity,
             market := true, postOnly := false)
  }

  function HedgePlan(p: Params, sequence: nat, quantity: real): Plan
    requires p.hedgeTarget != 0.0
  {
    var whole := if p.template.strategyQuantity != 0.0 then p.template.strategyQuantity else p.hedgeTarget;
    Plan("hedge_" + NatToString(sequence), HedgeRole, p.template.venue, p.template.side, false,
         whole * quantity / p.hedgeTarget, quantity, true, false, p.template.reduceOnly)
  }

  function CompensationPlan(p: Params, primary: Plan, quantity: real): Plan
    requires p.makerTarget != 0.0
  {
    primary.(key := "compensation_0", role := CompensationRole,
             side := if primary.side.Buy? then Sell else Buy, compensates := true,
             strategyQuantity := primary.strategyQuantity * quantity / p.makerTarget, quantity := quantity,
             market := true, postOnly := false, reduceOnly := primary.venue != "binance")
  }

  function SetLegQuantity(g: Group, key: string, quantity: real): Group {
    if key == "leg_a" then g.(legA := quantity) else if key == "leg_b" then g.(legB := quantity) else g
  }

  function LegQuantity(g: Group, key: string): real {
    if key == "leg_a" then g.legA else if key == "leg_b" then g.legB else 0.0
  }

  function Recover(s: State): State {
    if s.group.None? then s.(status := RecoveryRequired)
    else s.(status := RecoveryRequired, group := Some(s.group.value.(status := GroupManual)), recoveryNoted := true)
  }

  /** The group after a booking at `ratio`: an opening stores both legs, a partial closing takes from both. */
  function BookGroup(cfg: Config, p: Params, primary: Plan, g: Group, ratio: real): Group {
    if cfg.opening then
      if ratio <= EPSILON then g.(status := GroupFailed)
      else
        var booked := SetLegQuantity(SetLegQuantity(g, primary.key, primary.strategyQuantity * ratio),
                                     p.template.key, p.template.strategyQuantity * ratio);
        booked.(status := if ratio >= 1.0 - 0.000000001 then GroupOpen else GroupOpenPartial)
    else if ratio >= 1.0 - 0.000000001 then g.(status := GroupClosed)
    else if ratio > EPSILON then
      var first :=
        SetLegQuantity(g, primary.key, Max(LegQuantity(g, primary.key) - primary.strategyQuantity * ratio, 0.0));
      var both := SetLegQuantity(first, p.template.key,
                                 Max(LegQuantity(first, p.template.key) - p.template.strategyQuantity * ratio, 0.0));
      both.(status := GroupOpenPartial)
    else g.(status := p.previousStatus)
  }

  /** Final status of the intent: an opening needs a ratio above the epsilon, the other cases one above zero. */
  function BookedStatus(cfg: Config, grouped: bool, ratio: real): IntentStatus {
    if (if grouped && cfg.opening then ratio > EPSILON else ratio > 0.0) then Completed else FailedIntent
  }

  function Complete(cfg: Config, p: Params, primary: Plan, s: State, matched: real): State {
    var ratio := Min(Max(matched, 0.0), 1.0);
    if s.group.None? then s.(status := BookedStatus(cfg, false, ratio))
    else if s.bookings != [] then s
    else s.(group := Some(BookGroup(cfg, p, primary, s.group.value, ratio)),
            status := BookedStatus(cfg, true, ratio), bookings := [ratio])
  }

  function MarkSent(s: State, current: nat): State {
    if current < |s.commands| && s.commands[current].status.OutboxProcessing? then
      s.(commands := s.commands[current := s.commands[current].(status := OutboxSent)])
    else s
  }

  function CancelPrimary(s: State, i: nat): State
    requires i < |s.legs| && s.legs[i].order.Some?
  {
    var leg := s.legs[i];
    s.(legs := s.legs[i := leg.(status := LegSubmitted, order := Some(leg.order.value.(status := PendingCancel)))],
       commands := s.commands + [Command(CancelLeg(i), OutboxPending)],
       status := Running)
  }

  /** The effect of one decision on the rows. */
  function Perform(cfg: Config, s: State, d: Decision): Outcome
    requires Applicable(cfg, s.legs, d)
  {
    var i := Primary(s.legs);
    match d
    case MissingParameters => Advanced(Recover(s))
    case NoMakerLeg => Advanced(Recover(s))
    case BadTargets => Advanced(Recover(s))
    case AwaitCancel => Advanced(s.(status := Running))
    case RequestCancel => Advanced(CancelPrimary(s, i))
    case EnqueueFallback(q) =>
      if s.legs[i].plan.quantity == 0.0 then Raised
      else Enqueue(s, FallbackPlan(s.legs[i].plan,
                                   Count(Plans(s.legs), MakerRole) + Count(Plans(s.legs), FallbackRole), q))
    case EnqueueHedge(q) => Enqueue(s, HedgePlan(cfg.params.value, Count(Plans(s.legs), HedgeRole), q))
    case RecoverHedge => Advanced(Recover(s))
    case EnqueueCompensation(q) => Enqueue(s, CompensationPlan(cfg.params.value, s.legs[i].plan, q))
    case RecoverCompensation => Advanced(Recover(s))
    case CompleteCompensated(r) => Advanced(Complete(cfg, cfg.params.value, s.legs[i].plan, s, r))
    case CompleteMatched(r) => Advanced(Complete(cfg, cfg.params.value, s.legs[i].plan, s, r))
    case Wait => Advanced(s.(status := Running))
  }

  /** One advance as a function of the stored facts. A raised error rolls the transaction back. */
  function Advance(cfg: Config, s: State, current: nat, elapsed: int): Outcome {
    var d := Decide(cfg, s.legs, elapsed);
    Perform(cfg, if d.MissingParameters? then s else MarkSent(s, current), d)
  }

  // ------------------------------------------------------------------ the intent as an object

  /** The stored rows of one maker intent, updated in place. */
  class MakerIntent {
    const cfg: Config
    var status: IntentStatus
    var legs: seq<Leg>
    var commands: seq<Command>
    var group: Option<Group>
    var bookings: seq<real>
    var recoveryNoted: bool

    function View(): State
      reads this
    {
      State(status, legs, commands, group, bookings, recoveryNoted)
    }

    constructor (cfg: Config, primary: Plan, group: Option<Group>)
      ensures this.cfg == cfg && View() == Initial(primary, group)
    {
      this.cfg := cfg;
      this.status := Created;
      this.legs := [Leg(primary, LegPlanned, None)];
      this.commands := [Command(SubmitLeg(0), OutboxPending)];
      this.group := group;
      this.bookings := [];
      this.recoveryNoted := false;
    }

    /** Advances the intent by one decision; when it raises, nothing is stored. */
    method AdvanceIntent(current: nat, elapsed: int) returns (raised: bool)
      modifies this
      ensures raised <==> Advance(cfg, old(View()), current, elapsed).Raised?
      ensures View() == if raised then old(View()) else Advance(cfg, old(View()), current, elapsed).state
    {
      var before := commands;
      var d := Decide(cfg, legs, elapsed);
      if !d.MissingParameters? && current < |commands| && commands[current].status.OutboxProcessing? {
        commands := commands[current := commands[current].(status := OutboxSent)];
      }
      raised := PerformDecision(d);
      if raised {
        commands := before;
      }
    }

    method PerformDecision(d: Decision) returns (raised: bool)
      requires Applicable(cfg, legs, d)
      modifies this
      ensures raised <==> Perform(cfg, old(View()), d).Raised?
      ensures View() == if raised then old(View()) else Perform(cfg, old(View()), d).state
    {
      raised := false;
      var i := Primary(legs);
      match d {
        case AwaitCancel => status := Running;
        case Wait => status := Running;
        case RequestCancel =>
          commands := commands + [Command(CancelLeg(i), OutboxPending)];
          legs := legs[i := legs[i].(status := LegSubmitted,
                                     order := Some(legs[i].order.value.(status := PendingCancel)))];
          status := Running;
        case EnqueueFallback(q) =>
          if legs[i].plan.quantity == 0.0 {
            raised := true;
          } else {
            var n := Count(Plans(legs), MakerRole) + Count(Plans(legs), FallbackRole);
            raised := EnqueueLeg(FallbackPlan(legs[i].plan, n, q));
          }
        case EnqueueHedge(q) =>
          raised := EnqueueLeg(HedgePlan(cfg.params.value, Count(Plans(legs), HedgeRole), q));
        case EnqueueCompensation(q) =>
          raised := EnqueueLeg(CompensationPlan(cfg.params.value, legs[i].plan, q));
        case CompleteCompensated(r) => CompleteIntent(legs[i].plan, r);
        case CompleteMatched(r) => CompleteIntent(legs[i].plan, r);
        case _ => ProjectRecovery();
      }
    }

    method EnqueueLeg(plan: Plan) returns (raised: bool)
      modifies this
      ensures raised <==> Enqueue(old(View()), plan).Raised?
      ensures View() == if raised then old(View()) else Enqueue(old(View()), plan).state
    {
      if !IsLive(status) {
        return true;
      }
      for j := 0 to |legs|
        invariant forall k | 0 <= k < j :: legs[k].plan.key != plan.key
      {
        if legs[j].plan.key == plan.key {
          return true;
        }
      }
      if plan.strategyQuantity <= 0.0 || plan.quantity <= 0.0 {
        return true;
      }
      commands := commands + [Command(SubmitLeg(|legs|), OutboxPending)];
      legs := legs + [Leg(plan, LegPlanned, None)];
      status := Running;
      raised := false;
    }

    method ProjectRecovery()
      modifies this
      ensures View() == Recover(old(View()))
    {
      status := RecoveryRequired;
      if group.Some? {
        group := Some(group.value.(status := GroupManual));
        recoveryNoted := true;
      }
    }

    method CompleteIntent(primary: Plan, matched: real)
      requires cfg.params.Some?
      modifies this
      ensures View() == Complete(cfg, cfg.params.value, primary, old(View()), matched)
    {
      var ratio := Min(Max(matched, 0.0), 1.0);
      if group.None? {
        status := if ratio > 0.0 then Completed else FailedIntent;
        return;
      }
      if bookings != [] {
        return;
      }
      var p := cfg.params.value;
      var g := group.value;
      if cfg.opening {
        if ratio <= EPSILON {
          g := g.(status := GroupFailed);
          status := FailedIntent;
        } else {
          g := SetLegQuantity(g, primary.key, primary.strategyQuantity * ratio);
          g := SetLegQuantity(g, p.template.key, p.template.strategyQuantity * ratio);
          g := g.(status := if ratio >= 1.0 - 0.000000001 then GroupOpen else GroupOpenPartial);
          status := Completed;
        }
      } else {
        if ratio >= 1.0 - 0.000000001 {
          g := g.(status := GroupClosed);
        } else if ratio > EPSILON {
          g := SetLegQuantity(g, primary.key, Max(LegQuantity(g, primary.key) - primary.strategyQuantity * ratio, 0.0));
          g := SetLegQuantity(g, p.template.key,
                              Max(LegQuantity(g, p.template.key) - p.template.strategyQuantity * ratio, 0.0));
          g := g.(status := GroupOpenPartial);
        } else {
          g := g.(status := p.previousStatus);
        }
        status := if ratio > 0.0 then Completed else FailedIntent;
      }
      assert g == BookGroup(cfg, p, primary, group.value, ratio);
      group := Some(g);
      bookings := [ratio];
    }
  }

  function Initial(primary: Plan, group: Option<Group>): State {
    State(Created, [Leg(primary, LegPlanned, None)], [Command(SubmitLeg(0), OutboxPending)], group, [], false)
  }
}
