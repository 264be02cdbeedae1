/**
 The execution database and the outbox worker: claiming commands, the market gate, storing the venue
 order before submitting, recording the answers, recovery by query, cancels, and the two repairs of
 stale rows. Tables are maps from row id to record; `ExecutionWorker` updates them in place.
 */
module Outbox {
  import opened Common
  import opened Orders
  import opened Lifecycle

  datatype IntentKind = OpenIntent | CloseIntent | RecoverIntent | ProbeIntent

  datatype Intent = Intent(kind: IntentKind, maker: bool, status: IntentStatus, group: Option<nat>, createdAt: int)

  datatype Leg = Leg(intent: nat, quantity: real, mt5: bool, status: LegStatus)

  datatype Command = Submit(legs: set<nat>) | CancelOrder(leg: nat)

  datatype Outbox = Outbox(
    intent: nat, command: Command, previous: Option<GroupStatus>, status: OutboxStatus,
    availableAt: int, lockedAt: Option<int>, attempts: nat, createdAt: int)

  /** The stored venue order of a leg, under its stable client order id. */
  datatype OrderRow = OrderRow(clientId: string, order: VenueOrder)

  /** The tables. `orders` is keyed by leg; `events` holds the legs that have an execution event. */
  datatype Db = Db(
    intents: map<nat, Intent>, legs: map<nat, Leg>, outboxes: map<nat, Outbox>, orders: map<nat, OrderRow>,
    events: set<nat>, groups: map<nat, GroupStatus>, keys: map<string, nat>,
    nextIntent: nat, nextLeg: nat, nextOutbox: nat)

  datatype Claim = Claim(outbox: nat, recoveryOnly: bool)

  /** The commands of one claim whose orders are stored; `waiting` are the legs not yet submitted. */
  datatype Dispatch = Dispatch(outbox: nat, legs: set<nat>, waiting: set<nat>)

  /** What a crash loses. */
  datatype Memory = Memory(claims: seq<Claim>, dispatch: Option<Dispatch>)

  /** One call of `submit_order`. */
  datatype Submission = Submission(leg: nat, clientId: string)

  datatype State = State(db: Db, memory: Memory, submitted: seq<Submission>, rolledBack: set<nat>)

  const STALE_AFTER := 300

  function ClientId(intent: nat, leg: nat): string {
    "CH-" + NatToString(intent) + "-" + NatToString(leg)
  }

  // ------------------------------------------------------------------ reading the tables

  function LegsOf(db: Db, i: nat): set<nat> {
    set l | l in db.legs && db.legs[l].intent == i
  }

  /** The legs a command owns, restricted to its intent. */
  function CommandLegs(db: Db, o: Outbox): set<nat> {
    if o.command.Submit? then set l | l in o.command.legs && l in db.legs && db.legs[l].intent == o.intent else {}
  }

  function Ids(command: Command): set<nat> {
    if command.Submit? then command.legs else {command.leg}
  }

  /** Every leg in the set is stored, still planned, and has neither an order nor an event. */
  predicate Untouched(db: Db, legs: set<nat>) {
    forall l | l in legs :: l in db.legs && db.legs[l].status.LegPlanned? && l !in db.orders && l !in db.events
  }

  // ------------------------------------------------------------------ creating rows

  datatype Plan = Plan(quantity: real, mt5: bool)

  /** One leg row per plan, with the ids from `first` on. */
  function NewLegs(first: nat, i: nat, plans: seq<Plan>): (legs: map<nat, Leg>)
    ensures forall l: nat :: l in legs <==> first <= l < first + |plans|
    ensures forall l | l in legs :: legs[l] == Leg(i, plans[l - first].quantity, plans[l - first].mt5, LegPlanned)
  {
    if plans == [] then map[]
    else
      var n := |plans| - 1;
      NewLegs(first, i, plans[..n])[first + n := Leg(i, plans[n].quantity, plans[n].mt5, LegPlanned)]
  }

  /** Leg rows of one intent together with the pending command that owns them. */
  function AddCommand(db: Db, i: nat, plans: seq<Plan>, previous: Option<GroupStatus>, now: int): Db {
    var rows := NewLegs(db.nextLeg, i, plans);
    db.(legs := db.legs + rows,
        outboxes :=
          db.outboxes[db.nextOutbox := Outbox(i, Submit(rows.Keys), previous, OutboxPending, now, None, 0, now)],
        nextLeg := db.nextLeg + |plans|, nextOutbox := db.nextOutbox + 1)
  }

  function AddIntentRow(db: Db, key: string, intent: Intent): Db {
    db.(intents := db.intents[db.nextIntent := intent],
        groups := if intent.group.None? then db.groups
                  else db.groups[intent.group.value := if intent.kind.OpenIntent? then GroupOpening else GroupClosing],
        keys := db.keys[key := db.nextIntent],
        nextIntent := db.nextIntent + 1)
  }

  /** Intent, legs and first command in one transaction; a known idempotency key changes nothing. */
  function CreateIntent(
    db: Db, key: string, kind: IntentKind, maker: bool, group: Option<nat>, previous: Option<GroupStatus>,
    plans: seq<Plan>, now: int): Db
  {
    if key in db.keys || plans == [] then db
    else AddCommand(AddIntentRow(db, key, Intent(kind, maker, Created, group, now)),
      db.nextIntent, plans, previous, now)
  }

  /**
   One dynamic leg with a command of its own. For an intent that is over the source raises, which rolls
   the transaction back; here nothing is added.
   */
  function EnqueueLeg(db: Db, i: nat, plan: Plan, now: int): Db
    requires i in db.intents
  {
    if IsLive(db.intents[i].status) then AddCommand(db, i, [plan], None, now) else db
  }

  /** A cancel is a command too; it is asked only for a leg that has an order. */
  function EnqueueCancel(db: Db, i: nat, l: nat, now: int): Db
    requires i in db.intents
  {
    if l !in db.orders || l !in db.legs then db
    else
      db.(orders := db.orders[l := db.orders[l].(order := db.orders[l].order.(status := PendingCancel))],
          legs := db.legs[l := db.legs[l].(status := LegSubmitted)],
          outboxes := db.outboxes[db.nextOutbox :=
            Outbox(i, CancelOrder(l), None, OutboxPending, now, None, 0, now)],
          nextOutbox := db.nextOutbox + 1)
  }

  // ------------------------------------------------------------------ repairs

  predicate RollbackDue(db: Db, i: nat, now: int) {
    i in db.intents && db.intents[i].kind.CloseIntent? && IsLive(db.intents[i].status)
    && db.intents[i].createdAt <= now - STALE_AFTER
    && LegsOf(db, i) != {} && Untouched(db, LegsOf(db, i))
  }

  /** The group status to restore: the last open status that a command of the intent remembers. */
  function PreviousStatus(db: Db, i: nat, n: nat): (g: GroupStatus)
    ensures g.GroupOpen? || g.GroupOpenPartial?
  {
    if n == 0 then GroupOpen
    else if n - 1 in db.outboxes && db.outboxes[n - 1].intent == i then
      (match db.outboxes[n - 1].previous
       case None => GroupOpen
       case Some(g) => if g.GroupOpen? || g.GroupOpenPartial? then g else PreviousStatus(db, i, n - 1))
    else PreviousStatus(db, i, n - 1)
  }

  function CancelCommands(outboxes: map<nat, Outbox>, i: nat): map<nat, Outbox> {
    map o | o in outboxes ::
      if outboxes[o].intent == i then outboxes[o].(status := OutboxCanceled, lockedAt := None) else outboxes[o]
  }

  function Rollback(db: Db, i: nat): Db
    requires i in db.intents
  {
    var group := db.intents[i].group;
    db.(outboxes := CancelCommands(db.outboxes, i),
        intents := db.intents[i := db.intents[i].(status := FailedIntent)],
        groups := if group.Some? && group.value in db.groups && db.groups[group.value].GroupClosing? then
                    db.groups[group.value := PreviousStatus(db, i, db.nextOutbox)]
                  else db.groups)
  }

  /** `repair_stale_predispatch_intents_once` over the intents with an id below `n`. */
  function RollbackStale(db: Db, now: int, n: nat): Db {
    if n == 0 then db
    else
      var before := RollbackStale(db, now, n - 1);
      if RollbackDue(before, n - 1, now) then Rollback(before, n - 1) else before
  }

  /** The intents that `RollbackStale` rolls back. */
  function RolledBack(db: Db, now: int, n: nat): set<nat> {
    if n == 0 then {}
    else
      RolledBack(db, now, n - 1) + if RollbackDue(RollbackStale(db, now, n - 1), n - 1, now) then {n - 1} else {}
  }

  predicate RequeueDue(db: Db, o: nat, now: int) {
    o in db.outboxes && db.outboxes[o].status.OutboxSent? && db.outboxes[o].createdAt <= now - STALE_AFTER
    && db.outboxes[o].intent in db.intents
    && (db.intents[db.outboxes[o].intent].status.Running? || db.intents[db.outboxes[o].intent].status.RecoveryRequired?)
    && Ids(db.outboxes[o].command) != {} && Untouched(db, Ids(db.outboxes[o].command))
  }

  function Requeue(db: Db, o: nat, now: int): Db
    requires o in db.outboxes && db.outboxes[o].intent in db.intents
  {
    var i := db.outboxes[o].intent;
    db.(outboxes := db.outboxes[o := db.outboxes[o].(status := OutboxPending, availableAt := now, lockedAt := None)],
        intents := db.intents[i := db.intents[i].(status := Running)])
  }

  /** `repair_stale_unsent_outboxes_once` over the outbox rows with an id below `n`. */
  function RequeueUnsent(db: Db, now: int, n: nat): Db {
    if n == 0 then db
    else
      var before := RequeueUnsent(db, now, n - 1);
      if RequeueDue(before, n - 1, now) then Requeue(before, n - 1, now) else before
  }

  // ------------------------------------------------------------------ claiming

  predicate Claimable(o: Outbox, now: int, timeout: int) {
    o.availableAt <= now
    && (o.status.OutboxPending?
        || (o.status.OutboxProcessing? && o.lockedAt.Some? && o.lockedAt.value <= now - timeout))
  }

  function Claimed(o: Outbox, now: int): Outbox {
    o.(status := OutboxProcessing, lockedAt := Some(now), attempts := o.attempts + 1)
  }

  /** The claims of one batch, and the tables after them. */
  datatype Batch = Batch(db: Db, claims: seq<Claim>)

  function ClaimNext(b: Batch, o: nat, now: int, timeout: int, limit: nat): Batch {
    if |b.claims| < limit && o in b.db.outboxes && Claimable(b.db.outboxes[o], now, timeout) then
      Batch(b.db.(outboxes := b.db.outboxes[o := Claimed(b.db.outboxes[o], now)]),
            b.claims + [Claim(o, b.db.outboxes[o].status.OutboxProcessing?)])
    else b
  }

  /** Claims the first `limit` claimable rows with an id below `n`. */
  function ClaimBelow(db: Db, now: int, timeout: int, limit: nat, n: nat): Batch {
    if n == 0 then Batch(db, []) else ClaimNext(ClaimBelow(db, now, timeout, limit, n - 1), n - 1, now, timeout, limit)
  }

  // ------------------------------------------------------------------ finishing a command

  /** What the maker and probe state machines may add while they advance an intent. */
  datatype Extra = Nothing | AddLeg(plan: Plan) | AskCancel(leg: nat) | AddIntent(key: string, plan: Plan)

  /** The outcome of an advance: whether the command is marked sent, and the statuses it leaves. */
  datatype Advance = Advance(markSent: bool, status: IntentStatus, groupStatus: Option<GroupStatus>, extra: Extra)

  predicate AllFilled(db: Db, i: nat) {
    LegsOf(db, i) != {} && forall l | l in LegsOf(db, i) :: db.legs[l].status.LegFilled?
  }

  predicate SomeFailed(db: Db, i: nat) {
    exists l | l in LegsOf(db, i) :: db.legs[l].status.LegFailed?
  }

  predicate SomeActive(db: Db, i: nat) {
    exists l | l in LegsOf(db, i) :: IsActive(db.legs[l].status)
  }

  predicate SomeFill(db: Db, i: nat) {
    exists l | l in LegsOf(db, i) :: l in db.orders && db.orders[l].order.filled > 0.0
  }

  function FinishedStatus(db: Db, i: nat): IntentStatus {
    if AllFilled(db, i) then Completed
    else if SomeFailed(db, i) then (if SomeActive(db, i) then RecoveryRequired else FailedIntent)
    else Running
  }

  /** `_project_hedge_group_state`: the group status that the facts of an intent imply. */
  function ProjectedGroup(db: Db, i: nat, kind: IntentKind, previous: Option<GroupStatus>): GroupStatus {
    if AllFilled(db, i) then (if kind.OpenIntent? then GroupOpen else GroupClosed)
    else if SomeFailed(db, i) then
      if SomeFill(db, i) || SomeActive(db, i) then GroupManual
      else if kind.OpenIntent? then GroupFailed
      else if previous.Some? && previous.value.GroupOpenPartial? then GroupOpenPartial
      else GroupOpen
    else if kind.OpenIntent? then GroupOpening
    else GroupClosing
  }

  function WithIntentStatus(db: Db, i: nat, status: IntentStatus): Db
    requires i in db.intents
  {
    db.(intents := db.intents[i := db.intents[i].(status := status)])
  }

  function WithOutboxStatus(db: Db, o: nat, status: OutboxStatus, lockedAt: Option<int>): Db
    requires o in db.outboxes
  {
    db.(outboxes := db.outboxes[o := db.outboxes[o].(status := status, lockedAt := lockedAt)])
  }

  function WithGroup(db: Db, group: Option<nat>, status: GroupStatus): Db {
    if group.Some? && group.value in db.groups then db.(groups := db.groups[group.value := status]) else db
  }

  /** `_finish_command` for an intent whose legs are all sent at once. */
  function FinishPlain(db: Db, o: nat): Db
    requires o in db.outboxes && db.outboxes[o].intent in db.intents
  {
    var i := db.outboxes[o].intent;
    var done := WithIntentStatus(WithOutboxStatus(db, o, OutboxSent, None), i, FinishedStatus(db, i));
    WithGroup(done, db.intents[i].group, ProjectedGroup(db, i, db.intents[i].kind, db.outboxes[o].previous))
  }

  function MarkedSent(db: Db, o: nat, a: Advance): Db
    requires o in db.outboxes
  {
    if a.markSent && db.outboxes[o].status.OutboxProcessing? then WithOutboxStatus(db, o, OutboxSent, None) else db
  }

  function Extended(db: Db, i: nat, extra: Extra, now: int): (db': Db)
    requires i in db.intents
    ensures i in db'.intents
  {
    match extra
    case Nothing => db
    case AddLeg(plan) => EnqueueLeg(db, i, plan, now)
    case AskCancel(l) => EnqueueCancel(db, i, l, now)
    case AddIntent(key, plan) => CreateIntent(db, key, ProbeIntent, false, None, None, [plan], now)
  }

  /** `_finish_command` for an intent that a state machine drives: its advance decides. */
  function FinishAdvanced(db: Db, o: nat, a: Advance, now: int): Db
    requires o in db.outboxes && db.outboxes[o].intent in db.intents
  {
    var i := db.outboxes[o].intent;
    var extended := Extended(MarkedSent(db, o, a), i, a.extra, now);
    var marked := WithIntentStatus(extended, i, a.status);
    if a.groupStatus.Some? then WithGroup(marked, db.intents[i].group, a.groupStatus.value) else marked
  }

  predicate IsDriven(intent: Intent) {
    intent.maker || intent.kind.ProbeIntent?
  }

  function Finish(db: Db, o: nat, a: Advance, now: int): Db
    requires o in db.outboxes && db.outboxes[o].intent in db.intents
  {
    if IsDriven(db.intents[db.outboxes[o].intent]) then FinishAdvanced(db, o, a, now) else FinishPlain(db, o)
  }

  function Fail(db: Db, o: nat, status: IntentStatus): Db
    requires o in db.outboxes
  {
    var failed := WithOutboxStatus(db, o, OutboxFailed, None);
    if db.outboxes[o].intent in db.intents then WithIntentStatus(failed, db.outboxes[o].intent, status) else failed
  }

  // ------------------------------------------------------------------ recording answers

  /** An answer about one order: from the gateway, from the event stream, or a submission that raised. */
  datatype Answer =
    | Reported(report: Report)
    | Snapped(snapshot: Snapshot)
    | Filling(before: Totals, quantity: real, price: real, commission: real)
    | Raised(outcomeUnknown: bool)

  function Projected(order: VenueOrder, leg: Leg, a: Answer): (VenueOrder, LegStatus) {
    match a
    case Reported(r) => GatewayResult(order, leg.quantity, leg.mt5, r)
    case Snapped(s) => OrderEvent(order, leg.mt5, s)
    case Filling(before, q, p, c) => FillEvent(order, leg.mt5, before, q, p, c)
    case Raised(unknown) => DispatchException(order, unknown)
  }

  /** Stores an answer for a leg that has an order, with its execution event. */
  function Record(db: Db, l: nat, a: Answer): Db {
    if l !in db.orders || l !in db.legs then db
    else
      var row := Projected(db.orders[l].order, db.legs[l], a);
      db.(orders := db.orders[l := db.orders[l].(order := row.0)],
          legs := db.legs[l := db.legs[l].(status := row.1)],
          events := db.events + {l})
  }

  /** Stores the answers for the legs of a set, each on its own row. */
  function RecordAll(db: Db, legs: set<nat>, answers: map<nat, Answer>): Db {
    var hit := set l | l in legs && l in answers && l in db.orders && l in db.legs;
    db.(orders := map l | l in db.orders ::
          if l in hit then db.orders[l].(order := Projected(db.orders[l].order, db.legs[l], answers[l]).0)
          else db.orders[l],
        legs := map l | l in db.legs ::
          if l in hit then db.legs[l].(status := Projected(db.orders[l].order, db.legs[l], answers[l]).1)
          else db.legs[l],
        events := db.events + hit)
  }

  // ------------------------------------------------------------------ processing a claim

  datatype CancelReply = CancelRaised | CancelRefused | CancelTaken

  /**
   What the outside world decides while one claim is processed: the market gate (with its retry delay),
   the answers to order queries (a leg without one is unresolved), the reply to a cancel, the advance of
   the state machine, and the time.
   */
  datatype Input = Input(
    blockedFor: Option<int>, answers: map<nat, Answer>, cancel: CancelReply, advance: Advance, now: int)

  /** `_ensure_venue_order` for each leg: a stored order is kept, a missing one is created. */
  function EnsureOrders(db: Db, i: nat, legs: set<nat>): map<nat, OrderRow> {
    map l | l in db.orders.Keys + legs ::
      if l in db.orders then db.orders[l]
      else OrderRow(ClientId(i, l), NewOrder(if l in db.legs then db.legs[l].quantity else 0.0))
  }

  /**
   A query settles an order when it returns a known status; `Raised(false)` stands for the rejection that
   an earlier version had stored as unknown.
   */
  predicate Resolves(answers: map<nat, Answer>, l: nat) {
    l in answers
    && (answers[l] == Raised(false) || (answers[l].Reported? && !IsUnresolved(answers[l].report.status)))
  }

  predicate IsUnresolved(s: OrderStatus) {
    s.NotReady? || s.Unknown? || s == Other("NOT_SUPPORTED") || s == Other("")
  }

  /** The legs whose order the venue is asked about: it is stored and not yet final. */
  function Asked(db: Db, legs: set<nat>): set<nat> {
    set l | l in legs && l in db.orders && IsNonTerminal(db.orders[l].order.status)
  }

  function Settled(asked: set<nat>, answers: map<nat, Answer>): set<nat> {
    set l | l in asked && Resolves(answers, l)
  }

  /** `_recover_without_resubmit`: only queries, never a submission. */
  function Recover(db: Db, o: nat, legs: set<nat>, input: Input): Db
    requires o in db.outboxes && db.outboxes[o].intent in db.intents
  {
    var asked := Asked(db, legs);
    var recorded := RecordAll(db, Settled(asked, input.answers), input.answers);
    if !(legs <= db.orders.Keys) || Settled(asked, input.answers) != asked then
      Fail(recorded, o, RecoveryRequired)
    else Finish(recorded, o, input.advance, input.now)
  }

  function ProcessCancel(db: Db, o: nat, l: nat, recoveryOnly: bool, input: Input): Db
    requires o in db.outboxes && db.outboxes[o].intent in db.intents
  {
    var i := db.outboxes[o].intent;
    if l !in db.legs || l !in db.orders then Fail(db, o, FailedIntent)
    else if recoveryOnly then
      if l in input.answers && input.answers[l].Reported? && !IsOpenReport(input.answers[l].report.status) then
        Finish(WithOutboxStatus(Record(db, l, input.answers[l]), o, OutboxSent, None), o, input.advance, input.now)
      else WithIntentStatus(db, i, RecoveryRequired)
    else
      match input.cancel
      case CancelRaised => WithIntentStatus(db, i, RecoveryRequired)
      case CancelRefused => Fail(db, o, RecoveryRequired)
      case CancelTaken =>
        var marked :=
          db.(orders := db.orders[l := db.orders[l].(order := db.orders[l].order.(status := PendingCancel))]);
        WithIntentStatus(WithOutboxStatus(marked, o, OutboxSent, None), i, Running)
  }

  /** Statuses that do not yet confirm a cancel. */
  predicate IsOpenReport(s: OrderStatus) {
    IsUnresolved(s) || s.New? || s.Open? || s.Accepted? || s.Submitted? || s.PartiallyFilled?
  }

  /** A command that the market gate sends back. */
  function Gated(db: Db, o: nat, until: int): Db
    requires o in db.outboxes
  {
    db.(outboxes := db.outboxes[o := db.outboxes[o].(status := OutboxPending, lockedAt := None, availableAt := until)])
  }

  /** The orders of a command's legs are stored. */
  function Stored(db: Db, o: nat): (stored: Db)
    requires o in db.outboxes
    ensures stored.intents == db.intents && stored.outboxes == db.outboxes
  {
    db.(orders := EnsureOrders(db, db.outboxes[o].intent, CommandLegs(db, db.outboxes[o])))
  }

  /** The first transaction of `_process_claim`; it ends with a dispatch only for a fresh, ungated claim. */
  function ProcessClaim(db: Db, c: Claim, input: Input): (Db, Option<Dispatch>) {
    if c.outbox !in db.outboxes || !db.outboxes[c.outbox].status.OutboxProcessing? then (db, None)
    else
      var o := db.outboxes[c.outbox];
      if o.intent !in db.intents then (Fail(db, c.outbox, FailedIntent), None)
      else if o.command.CancelOrder? then
        (ProcessCancel(db, c.outbox, o.command.leg, c.recoveryOnly, input), None)
      else
        var legs := CommandLegs(db, o);
        if legs == {} then (Fail(db, c.outbox, FailedIntent), None)
        else if c.recoveryOnly then (Recover(db, c.outbox, legs, input), None)
        else if input.blockedFor.Some? then (Gated(db, c.outbox, input.now + input.blockedFor.value), None)
        else (WithIntentStatus(Stored(db, c.outbox), o.intent, Running), Some(Dispatch(c.outbox, legs, legs)))
  }

  /** The second transaction of `_process_claim`, after every leg of the dispatch was submitted. */
  function Conclude(db: Db, d: Dispatch, answers: map<nat, Answer>, a: Advance, now: int): Db {
    if d.outbox !in db.outboxes || db.outboxes[d.outbox].intent !in db.intents then db
    else
      var recorded := RecordAll(db, d.legs, answers);
      if exists l | l in d.legs :: l in answers && answers[l] == Raised(true) then
        WithIntentStatus(WithOutboxStatus(recorded, d.outbox, OutboxProcessing, Some(now)),
                         db.outboxes[d.outbox].intent, RecoveryRequired)
      else Finish(recorded, d.outbox, a, now)
  }
}
