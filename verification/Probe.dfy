/**
 A connectivity probe: one entry order, then one exit order sized to what the entry filled, and flat only when
 the exit is filled and the account is back at its baseline.
 */
module Probe {
  import opened Common
  import opened Orders
  import opened Lifecycle

  datatype ProbeStatus = Opening | Flattening | Flat | FailedNoExposure | NeedsRecovery

  /** The one order of a stage, once its leg has one. */
  datatype Stage = Stage(requested: real, order: Option<real>, leg: LegStatus, intent: IntentStatus)

  datatype State = State(
    quantity: real, baseline: real, status: ProbeStatus, residual: real, entry: Stage, exit: Option<Stage>,
    final: Option<real>)

  /** The account's position: not asked, not available, or known. */
  datatype Account = NoAdapter | Unavailable | Position(quantity: real)

  function Tol(q: real): (t: real)
    ensures t > 0.0
  {
    Max(Abs(q) * 0.000001, EPSILON)
  }

  predicate Terminal(leg: LegStatus) {
    leg.LegFilled? || leg.LegFailed?
  }

  /** The probe just after its entry intent was created. */
  function Fresh(quantity: real, baseline: real): State {
    State(quantity, baseline, Opening, 0.0, Stage(quantity, None, LegPlanned, Created), None, None)
  }

  function AdvancedEntry(s: State): State {
    if s.entry.order.None? then s.(entry := s.entry.(intent := Running))
    else
      var filled := s.entry.order.value;
      var t := s.(residual := filled);
      if !Terminal(s.entry.leg) then t.(status := Opening, entry := t.entry.(intent := Running))
      else if filled <= EPSILON then t.(status := FailedNoExposure, entry := t.entry.(intent := FailedIntent))
      else
        var done := t.(entry := t.entry.(intent := Completed));
        if s.exit.Some? then done
        else done.(exit := Some(Stage(filled, None, LegPlanned, Created)), status := Flattening)
  }

  function AdvancedExit(s: State, account: Account): State
    requires s.exit.Some?
  {
    var x := s.exit.value;
    if x.order.None? then s.(exit := Some(x.(intent := Running)))
    else
      var t := s.(residual := Max(s.quantity - x.order.value, 0.0));
      if !Terminal(x.leg) then t.(status := Flattening, exit := Some(x.(intent := Running)))
      else if t.residual > Tol(s.quantity) then
        t.(status := NeedsRecovery, exit := Some(x.(intent := RecoveryRequired)))
      else
        match account
        case NoAdapter => t.(status := Flattening, exit := Some(x.(intent := Running)))
        case Unavailable => t.(status := Flattening, exit := Some(x.(intent := Running)))
        case Position(p) =>
          if Abs(p - s.baseline) > Tol(s.quantity) then
            t.(status := NeedsRecovery, exit := Some(x.(intent := RecoveryRequired)), final := Some(p))
          else t.(status := Flat, residual := 0.0, exit := Some(x.(intent := Completed)), final := Some(p))
  }

  // ------------------------------------------------------------------ the probe run

  class ProbeRun {
    const quantity: real
    const baseline: real
    var status: ProbeStatus
    var residual: real
    var entry: Stage
    var exit: Option<Stage>
    var final: Option<real>

    function View(): State
      reads this
    {
      State(quantity, baseline, status, residual, entry, exit, final)
    }

    constructor (quantity: real, baseline: real)
      ensures View() == Fresh(quantity, baseline)
    {
      this.quantity, this.baseline := quantity, baseline;
      status, residual, exit, final := Opening, 0.0, None, None;
      entry := Stage(quantity, None, LegPlanned, Created);
    }

    method CreateExitIntent(filled: real)
      modifies this`exit, this`status
      ensures exit == Some(Stage(filled, None, LegPlanned, Created)) && status == Flattening
    {
      exit := Some(Stage(filled, None, LegPlanned, Created));
      status := Flattening;
    }

    method AdvanceEntry()
      modifies this`status, this`residual, this`entry, this`exit
      ensures View() == AdvancedEntry(old(View()))
    {
      if entry.order.None? {
        entry := entry.(intent := Running);
        return;
      }
      var filled := entry.order.value;
      residual := filled;
      if !Terminal(entry.leg) {
        status := Opening;
        entry := entry.(intent := Running);
        return;
      }
      if filled <= EPSILON {
        status := FailedNoExposure;
        entry := entry.(intent := FailedIntent);
        return;
      }
      entry := entry.(intent := Completed);
      if exit.None? {
        CreateExitIntent(filled);
      }
    }

    method AdvanceExit(account: Account)
      requires exit.Some?
      modifies this`status, this`residual, this`exit, this`final
      ensures View() == AdvancedExit(old(View()), account)
    {
      var x := exit.value;
      if x.order.None? {
        exit := Some(x.(intent := Running));
        return;
      }
      residual := Max(quantity - x.order.value, 0.0);
      if !Terminal(x.leg) {
        status, exit := Flattening, Some(x.(intent := Running));
        return;
      }
      if residual > Tol(quantity) {
        status, exit := NeedsRecovery, Some(x.(intent := RecoveryRequired));
        return;
      }
      if !account.Position? {
        status, exit := Flattening, Some(x.(intent := Running));
        return;
      }
      final := Some(account.quantity);
      if Abs(account.quantity - baseline) > Tol(quantity) {
        status, exit := NeedsRecovery, Some(x.(intent := RecoveryRequired));
        return;
      }
      status, residual, exit := Flat, 0.0, Some(x.(intent := Completed));
    }
  }

  // ------------------------------------------------------------------ runs

  datatype Action =
    | EntryReport(filled: real, leg: LegStatus)
    | ExitReport(filled: real, leg: LegStatus)
    | AdvanceEntry
    | AdvanceExit(account: Account)

  predicate Enabled(s: State, a: Action) {
    match a
    case EntryReport(_, _) => true
    case ExitReport(_, _) => s.exit.Some?
    case AdvanceEntry => true
    case AdvanceExit(_) => s.exit.Some?
  }

  function Step(s: State, a: Action): State
    requires Enabled(s, a)
  {
    match a
    case EntryReport(filled, leg) => s.(entry := s.entry.(order := Some(filled), leg := leg))
    case ExitReport(filled, leg) => s.(exit := Some(s.exit.value.(order := Some(filled), leg := leg)))
    case AdvanceEntry => AdvancedEntry(s)
    case AdvanceExit(account) => AdvancedExit(s, account)
  }

  /** What each stage finally fills at its venue. */
  datatype Truth = Truth(entry: real, exit: real)

  /**
   A venue never fills more than requested, never takes fills back, and a terminal report has the final quantity;
   the leg's status itself may change in any way, also back from a terminal one.
   */
  predicate FairReport(stage: Stage, filled: real, leg: LegStatus, final: real) {
    && 0.0 <= filled <= final <= stage.requested
    && (stage.order.Some? ==> filled >= stage.order.value)
    && (Terminal(leg) ==> filled == final)
  }

  predicate Fair(s: State, a: Action, truth: Truth) {
    match a
    case EntryReport(filled, leg) => FairReport(s.entry, filled, leg, truth.entry)
    case ExitReport(filled, leg) => s.exit.Some? ==> FairReport(s.exit.value, filled, leg, truth.exit)
    case AdvanceEntry => true
    case AdvanceExit(_) => true
  }

  predicate Possible(s: State, actions: seq<Action>, truth: Truth)
    decreases |actions|
  {
    actions == [] ||
    (Enabled(s, actions[0]) && Fair(s, actions[0], truth) && Possible(Step(s, actions[0]), actions[1..], truth))
  }

  function Run(s: State, actions: seq<Action>, truth: Truth): State
    requires Possible(s, actions, truth)
    decreases |actions|
  {
    if actions == [] then s else Run(Step(s, actions[0]), actions[1..], truth)
  }

  ghost predicate StageOk(stage: Stage, final: real) {
    && (stage.order.Some? ==> 0.0 <= stage.order.value <= final <= stage.requested)
    && (Terminal(stage.leg) ==> stage.order == Some(final))
  }

  /** The exit exists only after the entry's final fill is stored, and is sized to exactly that fill. */
  ghost predicate Inv(s: State, truth: Truth) {
    && s.entry.requested == s.quantity && StageOk(s.entry, truth.entry)
    && (s.exit.Some? ==>
          && StageOk(s.exit.value, truth.exit)
          && s.entry.order == Some(truth.entry) && s.exit.value.requested == truth.entry > EPSILON)
    && (s.status.Flat? || s.status.Flattening? || s.status.NeedsRecovery? ==> s.exit.Some?)
  }

  lemma {:induction false} StepKeeps(s: State, a: Action, truth: Truth)
    requires Inv(s, truth) && Enabled(s, a) && Fair(s, a, truth)
    ensures Inv(Step(s, a), truth)
    ensures Step(s, a).quantity == s.quantity && Step(s, a).baseline == s.baseline
    ensures s.exit.Some? ==> Step(s, a).exit.Some? && Step(s, a).exit.value.requested == s.exit.value.requested
  {
  }

  lemma {:induction false} RunKeeps(s: State, actions: seq<Action>, truth: Truth)
    requires Inv(s, truth) && Possible(s, actions, truth)
    ensures Inv(Run(s, actions, truth), truth)
    ensures Run(s, actions, truth).quantity == s.quantity && Run(s, actions, truth).baseline == s.baseline
    ensures s.exit.Some? ==>
              Run(s, actions, truth).exit.Some? && Run(s, actions, truth).exit.value.requested == s.exit.value.requested
    decreases |actions|
  {
    if actions != [] {
      StepKeeps(s, actions[0], truth);
      RunKeeps(Step(s, actions[0]), actions[1..], truth);
    }
  }

  /**
   Over every run there is at most one exit: once created it keeps its size, which is the entry's final fill,
   whatever the entry's status becomes later.
   */
  lemma {:induction false} OneExitSizedToEntry(
    quantity: real, baseline: real, before: seq<Action>, after: seq<Action>, truth: Truth)
    requires quantity > 0.0 && Possible(Fresh(quantity, baseline), before, truth)
    requires Possible(Run(Fresh(quantity, baseline), before, truth), after, truth)
    ensures var s := Run(Fresh(quantity, baseline), before, truth);
            var t := Run(s, after, truth);
            s.exit.Some? ==>
              && t.exit.Some? && t.exit.value.requested == s.exit.value.requested == truth.entry
              && t.entry.order == Some(truth.entry) && EPSILON < truth.entry <= quantity
  {
    RunKeeps(Fresh(quantity, baseline), before, truth);
    RunKeeps(Run(Fresh(quantity, baseline), before, truth), after, truth);
  }

  /**
   The step that marks a probe flat: what the entry bought and the exit did not sell is within the tolerance
   and not negative, and so is the account's distance to its baseline.
   */
  lemma {:induction false} FlatMeansFlat(
    quantity: real, baseline: real, actions: seq<Action>, account: Account, truth: Truth)
    requires quantity > 0.0 && Possible(Fresh(quantity, baseline), actions, truth)
    requires Run(Fresh(quantity, baseline), actions, truth).exit.Some?
    ensures var s := Run(Fresh(quantity, baseline), actions, truth);
            var t := AdvancedExit(s, account);
            t.status.Flat? && s.exit.value.order.Some? ==>
              && t.entry.order.Some? && t.exit.value.order.Some?
              && 0.0 <= t.entry.order.value - t.exit.value.order.value <= Tol(quantity)
              && account.Position? && t.final == Some(account.quantity)
              && Abs(account.quantity - baseline) <= Tol(quantity) && t.residual == 0.0
  {
    RunKeeps(Fresh(quantity, baseline), actions, truth);
  }

  /**
   A complete exit with the account at its baseline is marked flat if and only if the entry was filled to
   within the tolerance of the probe quantity: the residual is measured against the probe, not the entry.
   */
  lemma {:induction false} CompleteExitIsFlatIff(
    quantity: real, baseline: real, actions: seq<Action>, p: real, truth: Truth)
    requires quantity > 0.0 && Possible(Fresh(quantity, baseline), actions, truth)
    requires var s := Run(Fresh(quantity, baseline), actions, truth);
             s.exit.Some? && Terminal(s.exit.value.leg) && s.exit.value.order == Some(s.exit.value.requested)
    requires Abs(p - baseline) <= Tol(quantity)
    ensures var s := Run(Fresh(quantity, baseline), actions, truth);
            AdvancedExit(s, Position(p)).status ==
              if quantity - s.entry.order.Extract(0.0) <= Tol(quantity) then Flat else NeedsRecovery
  {
    RunKeeps(Fresh(quantity, baseline), actions, truth);
  }

  /** A probe whose entry was filled only in part, beyond the tolerance, is never marked flat in any run. */
  lemma {:induction false} PartialEntryIsNeverFlat(
    quantity: real, baseline: real, actions: seq<Action>, truth: Truth)
    requires quantity > 0.0 && Possible(Fresh(quantity, baseline), actions, truth)
    requires quantity - truth.entry > Tol(quantity)
    ensures !Run(Fresh(quantity, baseline), actions, truth).status.Flat?
  {
    StaysUnflat(Fresh(quantity, baseline), actions, truth);
  }

  lemma {:induction false} StaysUnflat(s: State, actions: seq<Action>, truth: Truth)
    requires Inv(s, truth) && Possible(s, actions, truth) && !s.status.Flat?
    requires s.quantity - truth.entry > Tol(s.quantity)
    ensures !Run(s, actions, truth).status.Flat?
    decreases |actions|
  {
    if actions != [] {
      StepKeeps(s, actions[0], truth);
      StaysUnflat(Step(s, actions[0]), actions[1..], truth);
    }
  }

  /**
   An entry event that arrives after the probe is flat rewrites the residual with the entry's fill, although
   nothing is left; and if it says that the entry is no longer terminal, the probe is opening again.
   */
  lemma {:induction false} LateReportReopens(s: State, leg: LegStatus, truth: Truth)
    requires Inv(s, truth) && s.status.Flat?
    ensures Fair(s, EntryReport(truth.entry, leg), truth)
    ensures var t := AdvancedEntry(Step(s, EntryReport(truth.entry, leg)));
            t.residual == truth.entry > EPSILON
            && t.status == if Terminal(leg) then Flat else Opening
  {
  }

  // ------------------------------------------------------------------ what each stage decides

  /**
   In every run, once the entry is over: the probe failed without exposure if and only if the entry filled nothing,
   and otherwise there is an exit, asked for exactly what the entry filled.
   */
  lemma {:induction false} EntryDecides(quantity: real, baseline: real, actions: seq<Action>, truth: Truth)
    requires quantity > 0.0 && Possible(Fresh(quantity, baseline), actions, truth)
    requires Terminal(Run(Fresh(quantity, baseline), actions, truth).entry.leg)
    ensures var s := Run(Fresh(quantity, baseline), actions, truth);
            var t := AdvancedEntry(s);
            && (truth.entry <= EPSILON ==>
              t.status == FailedNoExposure && t.exit == None && t.entry.intent == FailedIntent)
            && (truth.entry > EPSILON ==>
                  && t.exit.Some? && t.exit.value.requested == truth.entry && t.entry.intent == Completed
                  && t.residual == truth.entry
                  && (s.exit == None ==> t.status == Flattening && t.exit.value.order == None)
                  && (s.exit.Some? ==> t.exit == s.exit && t.status == s.status))
  {
    RunKeeps(Fresh(quantity, baseline), actions, truth);
  }

  /** While the entry is not over, the probe is opening and asks for no exit. */
  lemma {:induction false} EntryGoesOn(s: State)
    requires !Terminal(s.entry.leg) || s.entry.order == None
    ensures AdvancedEntry(s).exit == s.exit && AdvancedEntry(s).entry.intent == Running
    ensures AdvancedEntry(s).status == if s.entry.order.Some? then Opening else s.status
  {
  }

  /** The amount exceeds a millionth of the quantity, and the smallest quantity that counts. */
  predicate Exceeds(amount: real, quantity: real) {
    amount > quantity / 1000000.0 && amount > 0.000000000001
  }

  /**
   In every run, after an advance of an exit that has an order: the probe is flat if and only if the exit is over and
   filled up to the tolerance of the probe, and the account is known to be back; it needs recovery if and only if
   the exit is over and falls short, or the account is known to be away; and otherwise it goes on.
   */
  lemma {:induction false} ExitDecides(
    quantity: real, baseline: real, actions: seq<Action>, account: Account, truth: Truth)
    requires quantity > 0.0 && Possible(Fresh(quantity, baseline), actions, truth)
    requires var s := Run(Fresh(quantity, baseline), actions, truth); s.exit.Some? && s.exit.value.order.Some?
    ensures var s := Run(Fresh(quantity, baseline), actions, truth);
            var t, filled := AdvancedExit(s, account), s.exit.value.order.value;
            var over, short := s.exit.value.leg in {LegFilled, LegFailed}, Exceeds(quantity - filled, quantity);
            var away := account.Position? && (Exceeds(account.quantity - baseline, quantity)
                                              || Exceeds(baseline - account.quantity, quantity));
            && (t.status == Flat <==> over && !short && account.Position? && !away)
            && (t.status == NeedsRecovery <==> over && (short || away))
            && (t.status == Flattening <==> !over || (!short && !account.Position?))
            && t.exit.Some? && t.exit.value.order == s.exit.value.order && t.entry == s.entry
            && (t.status == Flat <==> t.exit.value.intent == Completed)
            && (t.status == NeedsRecovery <==> t.exit.value.intent == RecoveryRequired)
  {
    RunKeeps(Fresh(quantity, baseline), actions, truth);
  }
}
