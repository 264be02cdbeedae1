/**
 Runs of the outbox worker: the API creates intents at any time, the single worker repairs, observes,
 advances, claims, processes, submits leg by leg and records, and it can crash between any two steps.
 */
module OutboxRuns {
  import opened Common
  import opened Orders
  import opened Lifecycle
  import opened Outbox

  datatype Action =
    | Create(key: string, kind: IntentKind, maker: bool, group: Option<nat>, previous: Option<GroupStatus>,
             plans: seq<Plan>, now: int)
    | Supersede(intent: nat)
    | RepairRollback(now: int)
    | RepairRequeue(now: int)
    | Observe(leg: nat, answer: Answer)
    | AdvanceStored(outbox: nat, advance: Advance, now: int)
    | ClaimBatch(now: int, timeout: int, limit: nat)
    | Process(input: Input)
    | SubmitOne(leg: nat)
    | ConcludeDispatch(answers: map<nat, Answer>, advance: Advance, now: int)
    | Crash

  predicate Idle(m: Memory) {
    m.claims == [] && m.dispatch.None?
  }

  predicate HasAnOrder(db: Db, i: nat) {
    exists l | l in LegsOf(db, i) :: l in db.orders
  }

  /** A state machine asks to cancel only an order of its own intent. */
  predicate SoundAdvance(db: Db, o: nat, a: Advance) {
    a.extra.AskCancel? && o in db.outboxes && a.extra.leg in db.legs ==>
      db.legs[a.extra.leg].intent == db.outboxes[o].intent
  }

  /**
   When the single worker takes a step: rounds start with nothing in memory, claims are processed one by
   one, a dispatch is finished before the next claim. Stored intents are advanced when an event of one of
   their orders arrived, or by the timer when they are running under the maker machine.
   */
  predicate Enabled(s: State, a: Action) {
    match a
    case Create(_, _, _, _, _, _, _) => true
    case Crash => true
    case Supersede(i) => i in s.db.intents && s.db.intents[i].status.RecoveryRequired?
    case RepairRollback(_) => Idle(s.memory)
    case RepairRequeue(_) => Idle(s.memory)
    case Observe(_, _) => Idle(s.memory)
    case AdvanceStored(o, advance, _) =>
      Idle(s.memory) && o in s.db.outboxes && s.db.outboxes[o].intent in s.db.intents && SoundAdvance(s.db, o, advance)
      && (HasAnOrder(s.db, s.db.outboxes[o].intent)
          || (s.db.intents[s.db.outboxes[o].intent].maker && s.db.intents[s.db.outboxes[o].intent].status.Running?))
    case ClaimBatch(_, _, _) => Idle(s.memory)
    case Process(input) =>
      s.memory.dispatch.None? && s.memory.claims != [] && SoundAdvance(s.db, s.memory.claims[0].outbox, input.advance)
    case SubmitOne(l) => s.memory.dispatch.Some? && l in s.memory.dispatch.value.waiting && l in s.db.orders
    case ConcludeDispatch(_, advance, _) =>
      s.memory.dispatch.Some? && s.memory.dispatch.value.waiting == {}
      && SoundAdvance(s.db, s.memory.dispatch.value.outbox, advance)
  }

  function AfterBatch(s: State, b: Batch): State {
    s.(db := b.db, memory := Memory(b.claims, None))
  }

  function Step(s: State, a: Action): State
    requires Enabled(s, a)
  {
    match a
    case Create(key, kind, maker, group, previous, plans, now) =>
      s.(db := CreateIntent(s.db, key, kind, maker, group, previous, plans, now))
    case Crash => s.(memory := Memory([], None))
    case Supersede(i) => s.(db := WithIntentStatus(s.db, i, Superseded))
    case RepairRollback(now) =>
      s.(db := RollbackStale(s.db, now, s.db.nextIntent),
         rolledBack := s.rolledBack + RolledBack(s.db, now, s.db.nextIntent))
    case RepairRequeue(now) => s.(db := RequeueUnsent(s.db, now, s.db.nextOutbox))
    case Observe(l, answer) => s.(db := Record(s.db, l, answer))
    case AdvanceStored(o, advance, now) => s.(db := Finish(s.db, o, advance, now))
    case ClaimBatch(now, timeout, limit) =>
      AfterBatch(s, ClaimBelow(s.db, now, timeout, limit, s.db.nextOutbox))
    case Process(input) =>
      var (db, dispatch) := ProcessClaim(s.db, s.memory.claims[0], input);
      s.(db := db, memory := Memory(s.memory.claims[1..], dispatch))
    case SubmitOne(l) =>
      var d := s.memory.dispatch.value;
      s.(memory := s.memory.(dispatch := Some(d.(waiting := d.waiting - {l}))),
         submitted := s.submitted + [Submission(l, s.db.orders[l].clientId)])
    case ConcludeDispatch(answers, advance, now) =>
      s.(db := Conclude(s.db, s.memory.dispatch.value, answers, advance, now),
         memory := s.memory.(dispatch := None))
  }

  const EMPTY_DB := Db(map[], map[], map[], map[], {}, map[], map[], 0, 0, 0)

  const START := State(EMPTY_DB, Memory([], None), [], {})

  /** Every action is enabled when its turn comes. */
  predicate Possible(s: State, actions: seq<Action>)
    decreases |actions|
  {
    actions == [] || (Enabled(s, actions[0]) && Possible(Step(s, actions[0]), actions[1..]))
  }

  function Run(s: State, actions: seq<Action>): State
    requires Possible(s, actions)
    decreases |actions|
  {
    if actions == [] then s else Run(Step(s, actions[0]), actions[1..])
  }

  // ------------------------------------------------------------------ the invariant

  ghost predicate WellFormed(db: Db) {
    && (forall i | i in db.intents :: i < db.nextIntent)
    && (forall l | l in db.legs :: l < db.nextLeg && db.legs[l].intent in db.intents)
    && (forall o | o in db.outboxes :: o < db.nextOutbox && db.outboxes[o].intent in db.intents)
    && (forall k | k in db.keys :: db.keys[k] in db.intents)
    && (forall k, k' | k in db.keys && k' in db.keys && db.keys[k] == db.keys[k'] :: k == k')
  }

  ghost predicate Owned(db: Db) {
    forall o | o in db.outboxes ::
      Ids(db.outboxes[o].command) != {}
      && (forall l | l in Ids(db.outboxes[o].command) :: l in db.legs && db.legs[l].intent == db.outboxes[o].intent)
      && (db.outboxes[o].command.CancelOrder? ==> db.outboxes[o].command.leg in db.orders)
  }

  /** A leg is submitted by one command only. */
  ghost predicate Disjoint(db: Db) {
    forall o, o', l | o in db.outboxes && o' in db.outboxes
                      && db.outboxes[o].command.Submit? && db.outboxes[o'].command.Submit?
                      && l in db.outboxes[o].command.legs && l in db.outboxes[o'].command.legs ::
      o == o'
  }

  ghost predicate OrdersOk(db: Db) {
    && (forall l | l in db.orders :: l in db.legs && db.orders[l].clientId == ClientId(db.legs[l].intent, l))
    && (forall l | l in db.events :: l in db.orders)
  }

  /** No leg of the command has a stored order. */
  ghost predicate Unsent(db: Db, o: nat)
    requires o in db.outboxes
  {
    forall l | l in Ids(db.outboxes[o].command) :: l !in db.orders
  }

  ghost predicate PendingUnsent(db: Db) {
    forall o | o in db.outboxes && db.outboxes[o].command.Submit? && db.outboxes[o].status.OutboxPending? ::
      Unsent(db, o)
  }

  /** The claims in memory are for different commands, and a fresh one still owns only legs without orders. */
  ghost predicate ClaimsOk(db: Db, claims: seq<Claim>) {
    && (forall j, k | 0 <= j < k < |claims| :: claims[j].outbox != claims[k].outbox)
    && (forall j | 0 <= j < |claims| :: FreshOk(db, claims[j]))
  }

  ghost predicate FreshOk(db: Db, c: Claim) {
    c.outbox in db.outboxes
    && (!c.recoveryOnly && db.outboxes[c.outbox].command.Submit? ==> Unsent(db, c.outbox))
  }

  predicate WasSubmitted(submitted: seq<Submission>, l: nat) {
    exists k | 0 <= k < |submitted| :: submitted[k].leg == l
  }

  ghost predicate SubmittedOk(db: Db, submitted: seq<Submission>) {
    && (forall j, k | 0 <= j < k < |submitted| :: submitted[j].leg != submitted[k].leg)
    && (forall k | 0 <= k < |submitted| ::
          submitted[k].leg in db.orders && db.orders[submitted[k].leg].clientId == submitted[k].clientId)
  }

  ghost predicate DispatchOk(db: Db, m: Memory, submitted: seq<Submission>) {
    m.dispatch.Some? ==>
      var d := m.dispatch.value;
      && d.outbox in db.outboxes && db.outboxes[d.outbox].command.Submit?
      && (forall l | l in d.legs :: l in db.legs && db.legs[l].intent == db.outboxes[d.outbox].intent && l in db.orders)
      && d.waiting <= d.legs && d.legs <= db.outboxes[d.outbox].command.legs
      && (forall l | l in d.waiting :: !WasSubmitted(submitted, l))
      && (forall k | 0 <= k < |m.claims| :: m.claims[k].outbox != d.outbox)
  }

  /** A rolled-back intent is over: failed, without orders, all its commands canceled. */
  ghost predicate RolledBackOk(db: Db, m: Memory, rolledBack: set<nat>) {
    forall i | i in rolledBack ::
      && i in db.intents && db.intents[i].status.FailedIntent?
      && (forall l | l in LegsOf(db, i) :: l !in db.orders)
      && (forall o | o in db.outboxes && db.outboxes[o].intent == i :: db.outboxes[o].status.OutboxCanceled?)
      && (m.dispatch.Some? && m.dispatch.value.outbox in db.outboxes ==>
        db.outboxes[m.dispatch.value.outbox].intent != i)
  }

  ghost predicate DbInv(db: Db) {
    WellFormed(db) && Owned(db) && Disjoint(db) && OrdersOk(db) && PendingUnsent(db)
  }

  ghost predicate Inv(s: State) {
    && DbInv(s.db)
    && ClaimsOk(s.db, s.memory.claims)
    && SubmittedOk(s.db, s.submitted)
    && DispatchOk(s.db, s.memory, s.submitted)
    && RolledBackOk(s.db, s.memory, s.rolledBack)
  }

  // ------------------------------------------------------------------ changes of one intent's rows

  /** A change that adds no row and no order, keeps all links and makes no command pending. */
  ghost predicate Linked(db: Db, db': Db) {
    && db'.intents.Keys == db.intents.Keys
    && db'.legs.Keys == db.legs.Keys
    && (forall l | l in db.legs :: db'.legs[l].intent == db.legs[l].intent)
    && db'.outboxes.Keys == db.outboxes.Keys
    && (forall o | o in db.outboxes ::
          && db'.outboxes[o].intent == db.outboxes[o].intent && db'.outboxes[o].command == db.outboxes[o].command
          && (db'.outboxes[o].status.OutboxPending? ==> db.outboxes[o].status.OutboxPending?))
    && db'.orders.Keys == db.orders.Keys
    && (forall l | l in db.orders :: db'.orders[l].clientId == db.orders[l].clientId)
    && db'.events <= db.events + db.orders.Keys
    && db'.keys == db.keys
    && db'.nextIntent == db.nextIntent && db'.nextLeg == db.nextLeg && db'.nextOutbox == db.nextOutbox
  }

  /** Such a change that touches only rows of one intent, or of none when `i` is not an intent. */
  ghost predicate Quiet(db: Db, db': Db, i: nat) {
    && Linked(db, db')
    && (forall j | j in db.intents && j != i :: db'.intents[j] == db.intents[j])
    && (forall o | o in db.outboxes && db.outboxes[o].intent != i :: db'.outboxes[o] == db.outboxes[o])
  }

  lemma {:induction false} QuietTrans(a: Db, b: Db, c: Db, i: nat)
    requires Quiet(a, b, i) && Quiet(b, c, i)
    ensures Quiet(a, c, i)
  {
  }

  lemma {:induction false} LinkedRows(db: Db, db': Db)
    requires Linked(db, db') && WellFormed(db) && Owned(db) && OrdersOk(db)
    ensures WellFormed(db') && Owned(db') && OrdersOk(db')
  {
  }

  lemma {:induction false} LinkedDisjoint(db: Db, db': Db)
    requires Linked(db, db') && Disjoint(db)
    ensures Disjoint(db')
  {
  }

  lemma {:induction false} LinkedPending(db: Db, db': Db)
    requires Linked(db, db') && PendingUnsent(db)
    ensures PendingUnsent(db')
  {
    forall o | o in db'.outboxes && db'.outboxes[o].command.Submit? && db'.outboxes[o].status.OutboxPending?
      ensures Unsent(db', o)
    {
      assert Unsent(db, o);
    }
  }

  lemma {:induction false} LinkedDbInv(db: Db, db': Db)
    requires Linked(db, db') && DbInv(db)
    ensures DbInv(db')
  {
    LinkedRows(db, db');
    LinkedDisjoint(db, db');
    LinkedPending(db, db');
  }

  lemma {:induction false} QuietDbInv(db: Db, db': Db, i: nat)
    requires Quiet(db, db', i) && DbInv(db)
    ensures DbInv(db')
    ensures LegsOf(db', i) == LegsOf(db, i)
  {
    LinkedDbInv(db, db');
  }

  lemma {:induction false} QuietKeeps(s: State, db': Db, i: nat)
    requires Inv(s) && Quiet(s.db, db', i) && i !in s.rolledBack
    ensures Inv(s.(db := db'))
  {
    QuietDbInv(s.db, db', i);
    forall j | 0 <= j < |s.memory.claims|
      ensures FreshOk(db', s.memory.claims[j])
    {
      assert FreshOk(s.db, s.memory.claims[j]);
    }
    forall j | j in s.rolledBack
      ensures LegsOf(db', j) == LegsOf(s.db, j)
    {
    }
  }

  lemma {:induction false} QuietStatus(db: Db, i: nat, status: IntentStatus)
    requires i in db.intents && OrdersOk(db)
    ensures Quiet(db, WithIntentStatus(db, i, status), i)
  {
  }

  lemma {:induction false} QuietOutbox(db: Db, o: nat, status: OutboxStatus, lockedAt: Option<int>)
    requires o in db.outboxes && !status.OutboxPending? && OrdersOk(db)
    ensures Quiet(db, WithOutboxStatus(db, o, status, lockedAt), db.outboxes[o].intent)
  {
  }

  lemma {:induction false} QuietGroup(db: Db, group: Option<nat>, status: GroupStatus, i: nat)
    requires OrdersOk(db)
    ensures Quiet(db, WithGroup(db, group, status), i)
  {
  }

  lemma {:induction false} QuietRow(db: Db, l: nat, order: VenueOrder, leg: LegStatus, i: nat)
    requires OrdersOk(db) && l in db.orders && l in db.legs
    ensures Quiet(db, db.(orders := db.orders[l := db.orders[l].(order := order)],
                          legs := db.legs[l := db.legs[l].(status := leg)], events := db.events + {l}), i)
  {
  }

  lemma {:induction false} QuietRecord(db: Db, l: nat, a: Answer, i: nat)
    requires OrdersOk(db)
    ensures Quiet(db, Record(db, l, a), i)
  {
    if l in db.orders && l in db.legs {
      var row := Projected(db.orders[l].order, db.legs[l], a);
      QuietRow(db, l, row.0, row.1, i);
    }
  }

  lemma {:induction false} QuietRecordAll(db: Db, legs: set<nat>, answers: map<nat, Answer>, i: nat)
    requires OrdersOk(db)
    ensures Quiet(db, RecordAll(db, legs, answers), i)
  {
  }

  lemma {:induction false} QuietFail(db: Db, o: nat, status: IntentStatus)
    requires o in db.outboxes && DbInv(db)
    ensures Quiet(db, Fail(db, o, status), db.outboxes[o].intent)
  {
    var failed := WithOutboxStatus(db, o, OutboxFailed, None);
    QuietOutbox(db, o, OutboxFailed, None);
    QuietDbInv(db, failed, db.outboxes[o].intent);
    QuietStatus(failed, db.outboxes[o].intent, status);
    QuietTrans(db, failed, Fail(db, o, status), db.outboxes[o].intent);
  }

  lemma {:induction false} QuietPlain(db: Db, o: nat)
    requires o in db.outboxes && DbInv(db)
    ensures Quiet(db, FinishPlain(db, o), db.outboxes[o].intent)
  {
    var i := db.outboxes[o].intent;
    var sent := WithOutboxStatus(db, o, OutboxSent, None);
    var done := WithIntentStatus(sent, i, FinishedStatus(db, i));
    QuietOutbox(db, o, OutboxSent, None);
    QuietDbInv(db, sent, i);
    QuietStatus(sent, i, FinishedStatus(db, i));
    QuietDbInv(sent, done, i);
    QuietGroup(done, db.intents[i].group, ProjectedGroup(db, i, db.intents[i].kind, db.outboxes[o].previous), i);
    QuietTrans(db, sent, done, i);
    QuietTrans(db, done, FinishPlain(db, o), i);
  }

  // ------------------------------------------------------------------ changes that keep every stored link

  /**
   Stored rows keep their links and orders, and the rows of the intents in `over` do not change at all.
   */
  ghost predicate Frame(db: Db, db': Db, over: set<nat>) {
    && (forall o | o in db.outboxes ::
          o in db'.outboxes && db'.outboxes[o].intent == db.outboxes[o].intent
          && db'.outboxes[o].command == db.outboxes[o].command)
    && (forall l | l in db.legs :: l in db'.legs && db'.legs[l].intent == db.legs[l].intent)
    && db'.orders.Keys == db.orders.Keys
    && (forall l | l in db.orders :: db'.orders[l].clientId == db.orders[l].clientId)
    && (forall i | i in over && i in db.intents :: i in db'.intents && db'.intents[i].status == db.intents[i].status)
    && (forall l | l in db'.legs && db'.legs[l].intent in over :: l in db.legs)
    && (forall o | o in db'.outboxes && db'.outboxes[o].intent in over ::
          o in db.outboxes && db'.outboxes[o].status == db.outboxes[o].status)
  }

  lemma {:induction false} FrameClaims(db: Db, db': Db, claims: seq<Claim>, over: set<nat>)
    requires Frame(db, db', over) && ClaimsOk(db, claims)
    ensures ClaimsOk(db', claims)
  {
    forall j | 0 <= j < |claims|
      ensures FreshOk(db', claims[j])
    {
      assert FreshOk(db, claims[j]);
    }
  }

  lemma {:induction false} FrameRolledBack(db: Db, db': Db, m: Memory, over: set<nat>)
    requires Frame(db, db', over) && RolledBackOk(db, m, over) && DispatchOk(db, m, [])
    ensures RolledBackOk(db', m, over)
  {
    forall i | i in over
      ensures LegsOf(db', i) <= LegsOf(db, i)
    {
    }
  }

  lemma {:induction false} FrameDispatch(db: Db, db': Db, m: Memory, submitted: seq<Submission>, over: set<nat>)
    requires Frame(db, db', over) && DispatchOk(db, m, submitted)
    ensures DispatchOk(db', m, submitted)
    ensures DispatchOk(db, m, [])
  {
  }

  lemma {:induction false} FrameKeeps(s: State, db': Db)
    requires Inv(s) && DbInv(db') && Frame(s.db, db', s.rolledBack)
    ensures Inv(s.(db := db'))
  {
    FrameClaims(s.db, db', s.memory.claims, s.rolledBack);
    FrameDispatch(s.db, db', s.memory, s.submitted, s.rolledBack);
    FrameRolledBack(s.db, db', s.memory, s.rolledBack);
  }

  // ------------------------------------------------------------------ new rows

  lemma {:induction false} CreateKeeps(
    s: State, key: string, kind: IntentKind, maker: bool, group: Option<nat>, previous: Option<GroupStatus>,
    plans: seq<Plan>, now: int)
    requires Inv(s)
    ensures Inv(s.(db := CreateIntent(s.db, key, kind, maker, group, previous, plans, now)))
  {
    var db, db' := s.db, CreateIntent(s.db, key, kind, maker, group, previous, plans, now);
    if db' != db {
      CreateDbInv(db, key, kind, maker, group, previous, plans, now);
      NewRowsKeep(s, db');
    }
  }

  /** Rows were added, with new ids, and no stored row changed but that of an intent's status. */
  ghost predicate RowsAdded(db: Db, db': Db) {
    && db'.orders == db.orders
    && (forall i | i in db.intents :: i in db'.intents && db'.intents[i] == db.intents[i])
    && (forall l | l in db.legs :: l in db'.legs && db'.legs[l] == db.legs[l])
    && (forall l | l in db'.legs && l !in db.legs ::
      db'.legs[l].intent !in db.intents || IsLive(db.intents[db'.legs[l].intent].status))
    && (forall o | o in db.outboxes :: o in db'.outboxes && db'.outboxes[o] == db.outboxes[o])
    && (forall o | o in db'.outboxes && o !in db.outboxes ::
          db'.outboxes[o].intent !in db.intents || IsLive(db.intents[db'.outboxes[o].intent].status))
  }

  lemma {:induction false} NewRowsKeep(s: State, db': Db)
    requires Inv(s) && DbInv(db') && RowsAdded(s.db, db')
    ensures Inv(s.(db := db'))
  {
    FrameKeeps(s, db');
  }

  lemma {:induction false} AddCommandDbInv(
    db: Db, i: nat, plans: seq<Plan>, previous: Option<GroupStatus>, now: int)
    requires DbInv(db) && i in db.intents && plans != []
    ensures DbInv(AddCommand(db, i, plans, previous, now))
  {
    var db' := AddCommand(db, i, plans, previous, now);
    assert WellFormed(db') && OrdersOk(db');
    AddCommandOwned(db, i, plans, previous, now);
    AddCommandDisjoint(db, i, plans, previous, now);
    forall p | p in db'.outboxes && db'.outboxes[p].command.Submit? && db'.outboxes[p].status.OutboxPending?
      ensures Unsent(db', p)
    {
      if p in db.outboxes {
        assert Unsent(db, p);
      }
    }
  }

  lemma {:induction false} AddCommandOwned(
    db: Db, i: nat, plans: seq<Plan>, previous: Option<GroupStatus>, now: int)
    requires WellFormed(db) && Owned(db) && i in db.intents && plans != []
    ensures Owned(AddCommand(db, i, plans, previous, now))
  {
    var db' := AddCommand(db, i, plans, previous, now);
    assert db.nextLeg in Ids(db'.outboxes[db.nextOutbox].command);
    forall o | o in db'.outboxes
      ensures Ids(db'.outboxes[o].command) != {}
      ensures forall l | l in Ids(db'.outboxes[o].command) ::
          l in db'.legs && db'.legs[l].intent == db'.outboxes[o].intent
    {
      if o in db.outboxes {
        assert db'.outboxes[o] == db.outboxes[o];
      }
    }
  }

  lemma {:induction false} AddCommandDisjoint(
    db: Db, i: nat, plans: seq<Plan>, previous: Option<GroupStatus>, now: int)
    requires WellFormed(db) && Owned(db) && Disjoint(db)
    ensures Disjoint(AddCommand(db, i, plans, previous, now))
  {
    var db' := AddCommand(db, i, plans, previous, now);
    assert forall o, l | o in db.outboxes && l in Ids(db.outboxes[o].command) :: l < db.nextLeg;
    forall o, o', l | o in db'.outboxes && o' in db'.outboxes
                      && db'.outboxes[o].command.Submit? && db'.outboxes[o'].command.Submit?
                      && l in db'.outboxes[o].command.legs && l in db'.outboxes[o'].command.legs
      ensures o == o'
    {
      if o in db.outboxes && o' in db.outboxes {
        assert db'.outboxes[o] == db.outboxes[o] && db'.outboxes[o'] == db.outboxes[o'];
      }
    }
  }

  lemma {:induction false} IntentRowDbInv(db: Db, key: string, intent: Intent)
    requires DbInv(db) && key !in db.keys
    ensures DbInv(AddIntentRow(db, key, intent))
  {
    var row := AddIntentRow(db, key, intent);
    assert WellFormed(row) && Owned(row);
    assert Disjoint(row) && OrdersOk(row);
    forall p | p in row.outboxes && row.outboxes[p].command.Submit? && row.outboxes[p].status.OutboxPending?
      ensures Unsent(row, p)
    {
      assert Unsent(db, p);
    }
  }

  lemma {:induction false} IntentRowsAdded(
    db: Db, key: string, intent: Intent, plans: seq<Plan>, previous: Option<GroupStatus>, now: int)
    requires WellFormed(db)
    ensures RowsAdded(db, AddCommand(AddIntentRow(db, key, intent), db.nextIntent, plans, previous, now))
  {
  }

  lemma {:induction false} CreateDbInv(
    db: Db, key: string, kind: IntentKind, maker: bool, group: Option<nat>, previous: Option<GroupStatus>,
    plans: seq<Plan>, now: int)
    requires DbInv(db)
    ensures DbInv(CreateIntent(db, key, kind, maker, group, previous, plans, now))
    ensures RowsAdded(db, CreateIntent(db, key, kind, maker, group, previous, plans, now))
  {
    if key !in db.keys && plans != [] {
      var intent := Intent(kind, maker, Created, group, now);
      IntentRowDbInv(db, key, intent);
      AddCommandDbInv(AddIntentRow(db, key, intent), db.nextIntent, plans, previous, now);
      IntentRowsAdded(db, key, intent, plans, previous, now);
    }
  }

  lemma {:induction false} EnqueueDbInv(db: Db, i: nat, plan: Plan, now: int)
    requires DbInv(db) && i in db.intents
    ensures DbInv(EnqueueLeg(db, i, plan, now))
    ensures RowsAdded(db, EnqueueLeg(db, i, plan, now))
  {
    if IsLive(db.intents[i].status) {
      AddCommandDbInv(db, i, [plan], None, now);
    }
  }

  // ------------------------------------------------------------------ finishing

  /** Adding the cancel command of a leg that has an order. */
  lemma {:induction false} CancelDbInv(db: Db, i: nat, l: nat, now: int)
    requires DbInv(db) && i in db.intents && (l in db.legs ==> db.legs[l].intent == i)
    ensures DbInv(EnqueueCancel(db, i, l, now))
  {
    var db' := EnqueueCancel(db, i, l, now);
    if db' != db {
      assert WellFormed(db') && OrdersOk(db') && Disjoint(db');
      forall p | p in db'.outboxes && db'.outboxes[p].command.Submit? && db'.outboxes[p].status.OutboxPending?
        ensures Unsent(db', p)
      {
        assert Unsent(db, p);
      }
      forall o | o in db'.outboxes
        ensures Ids(db'.outboxes[o].command) != {}
      {
        if o == db.nextOutbox {
          assert l in Ids(db'.outboxes[o].command);
        }
      }
    }
  }

  lemma {:induction false} CancelFrame(db: Db, i: nat, l: nat, now: int, over: set<nat>)
    requires WellFormed(db) && i in db.intents && i !in over
    ensures Frame(db, EnqueueCancel(db, i, l, now), over)
  {
  }

  lemma {:induction false} CancelKeeps(s: State, i: nat, l: nat, now: int)
    requires Inv(s) && i in s.db.intents && i !in s.rolledBack && (l in s.db.legs ==> s.db.legs[l].intent == i)
    ensures Inv(s.(db := EnqueueCancel(s.db, i, l, now)))
  {
    CancelDbInv(s.db, i, l, now);
    CancelFrame(s.db, i, l, now, s.rolledBack);
    FrameKeeps(s, EnqueueCancel(s.db, i, l, now));
  }

  lemma {:induction false} ExtraKeeps(s: State, i: nat, extra: Extra, now: int)
    requires Inv(s) && i in s.db.intents && i !in s.rolledBack
    requires extra.AskCancel? && extra.leg in s.db.legs ==> s.db.legs[extra.leg].intent == i
    ensures Inv(s.(db := Extended(s.db, i, extra, now)))
    ensures i in Extended(s.db, i, extra, now).intents
  {
    match extra {
      case Nothing =>
      case AddLeg(plan) =>
        EnqueueDbInv(s.db, i, plan, now);
        NewRowsKeep(s, EnqueueLeg(s.db, i, plan, now));
      case AskCancel(l) => CancelKeeps(s, i, l, now);
      case AddIntent(key, plan) => CreateKeeps(s, key, ProbeIntent, false, None, None, [plan], now);
    }
  }

  lemma {:induction false} AdvancedKeeps(s: State, o: nat, a: Advance, now: int)
    requires Inv(s) && o in s.db.outboxes && s.db.outboxes[o].intent !in s.rolledBack && SoundAdvance(s.db, o, a)
    ensures Inv(s.(db := FinishAdvanced(s.db, o, a, now)))
  {
    var i := s.db.outboxes[o].intent;
    var sent := MarkedSent(s.db, o, a);
    if sent != s.db {
      QuietOutbox(s.db, o, OutboxSent, None);
      QuietKeeps(s, sent, i);
    }
    var s1 := s.(db := sent);
    ExtraKeeps(s1, i, a.extra, now);
    var s2 := s1.(db := Extended(sent, i, a.extra, now));
    QuietStatus(s2.db, i, a.status);
    QuietKeeps(s2, WithIntentStatus(s2.db, i, a.status), i);
    var s3 := s2.(db := WithIntentStatus(s2.db, i, a.status));
    if a.groupStatus.Some? {
      QuietGroup(s3.db, s.db.intents[i].group, a.groupStatus.value, i);
      QuietKeeps(s3, WithGroup(s3.db, s.db.intents[i].group, a.groupStatus.value), i);
    }
  }

  lemma {:induction false} FinishKeeps(s: State, o: nat, a: Advance, now: int)
    requires Inv(s) && o in s.db.outboxes && s.db.outboxes[o].intent !in s.rolledBack && SoundAdvance(s.db, o, a)
    ensures Inv(s.(db := Finish(s.db, o, a, now)))
  {
    if IsDriven(s.db.intents[s.db.outboxes[o].intent]) {
      AdvancedKeeps(s, o, a, now);
    } else {
      QuietPlain(s.db, o);
      QuietKeeps(s, FinishPlain(s.db, o), s.db.outboxes[o].intent);
    }
  }

  // ------------------------------------------------------------------ repairs

  /** What the rollback repair does: the intents in `r` fail, exactly their commands are canceled, groups aside. */
  ghost predicate RolledFrom(db: Db, db': Db, r: set<nat>, n: nat) {
    && Linked(db, db') && db'.legs == db.legs && db'.orders == db.orders && db'.events == db.events
    && (forall i | i in r :: i < n && i in db.intents && IsLive(db.intents[i].status) && Untouched(db, LegsOf(db, i)))
    && (forall i | i in db.intents ::
          db'.intents[i] == if i in r then db.intents[i].(status := FailedIntent) else db.intents[i])
    && (forall o | o in db.outboxes ::
          db'.outboxes[o] == if db.outboxes[o].intent in r
            then db.outboxes[o].(status := OutboxCanceled, lockedAt := None)
                             else db.outboxes[o])
  }

  lemma {:induction false} RolledNext(db: Db, db': Db, r: set<nat>, i: nat, now: int)
    requires RolledFrom(db, db', r, i) && RollbackDue(db', i, now)
    ensures RolledFrom(db, Rollback(db', i), r + {i}, i + 1)
  {
    assert LegsOf(db', i) == LegsOf(db, i);
  }

  lemma {:induction false} RollbackStaleIs(db: Db, now: int, n: nat)
    ensures RolledFrom(db, RollbackStale(db, now, n), RolledBack(db, now, n), n)
    ensures forall i: nat :: i in RolledBack(db, now, n) <==> i < n && RollbackDue(db, i, now)
  {
    if n != 0 {
      RollbackStaleIs(db, now, n - 1);
      var before, r := RollbackStale(db, now, n - 1), RolledBack(db, now, n - 1);
      StillDue(db, before, r, n - 1, now);
      if RollbackDue(before, n - 1, now) {
        RolledNext(db, before, r, n - 1, now);
      } else {
        assert r + {} == r;
      }
    }
  }

  /** Rolling back earlier intents leaves the next one due or not, as it was. */
  lemma {:induction false} StillDue(db: Db, db': Db, r: set<nat>, i: nat, now: int)
    requires RolledFrom(db, db', r, i)
    ensures RollbackDue(db', i, now) <==> RollbackDue(db, i, now)
  {
    assert LegsOf(db', i) == LegsOf(db, i);
  }

  lemma {:induction false} RolledFrame(db: Db, db': Db, m: Memory, r: set<nat>, n: nat, over: set<nat>)
    requires WellFormed(db) && RolledFrom(db, db', r, n) && RolledBackOk(db, m, over)
    ensures Frame(db, db', over)
  {
    assert over !! r;
  }

  lemma {:induction false} RolledMore(db: Db, db': Db, m: Memory, r: set<nat>, n: nat, over: set<nat>)
    requires RolledFrom(db, db', r, n) && RolledBackOk(db', m, over) && m.dispatch.None?
    ensures RolledBackOk(db', m, over + r)
  {
    forall i | i in r
      ensures LegsOf(db', i) == LegsOf(db, i)
    {
    }
  }

  lemma {:induction false} MoreRolledBack(s: State, r: set<nat>)
    requires Inv(s) && RolledBackOk(s.db, s.memory, r)
    ensures Inv(s.(rolledBack := r))
  {
  }

  lemma {:induction false} RollbackStaleKeeps(s: State, now: int, n: nat)
    requires Inv(s) && Idle(s.memory)
    ensures Inv(s.(db := RollbackStale(s.db, now, n), rolledBack := s.rolledBack + RolledBack(s.db, now, n)))
  {
    var db', r := RollbackStale(s.db, now, n), RolledBack(s.db, now, n);
    RollbackStaleIs(s.db, now, n);
    LinkedDbInv(s.db, db');
    RolledFrame(s.db, db', s.memory, r, n, s.rolledBack);
    FrameKeeps(s, db');
    RolledMore(s.db, db', s.memory, r, n, s.rolledBack);
    MoreRolledBack(s.(db := db'), s.rolledBack + r);
  }

  lemma {:induction false} RequeueDbInv(db: Db, o: nat, now: int)
    requires DbInv(db) && RequeueDue(db, o, now)
    ensures DbInv(Requeue(db, o, now))
  {
    var db' := Requeue(db, o, now);
    assert WellFormed(db') && Owned(db') && OrdersOk(db');
    assert Disjoint(db');
    forall p | p in db'.outboxes && db'.outboxes[p].command.Submit? && db'.outboxes[p].status.OutboxPending?
      ensures Unsent(db', p)
    {
      if p != o {
        assert Unsent(db, p);
      }
    }
  }

  lemma {:induction false} RequeueKeeps(s: State, o: nat, now: int)
    requires Inv(s) && RequeueDue(s.db, o, now)
    ensures Inv(s.(db := Requeue(s.db, o, now)))
  {
    RequeueDbInv(s.db, o, now);
    assert s.db.outboxes[o].intent !in s.rolledBack;
    FrameKeeps(s, Requeue(s.db, o, now));
  }

  lemma {:induction false} RequeueNextKeeps(s: State, o: nat, now: int, t: State)
    requires Inv(s) && t == if RequeueDue(s.db, o, now) then s.(db := Requeue(s.db, o, now)) else s
    ensures Inv(t)
  {
    if RequeueDue(s.db, o, now) {
      RequeueKeeps(s, o, now);
    }
  }

  lemma {:induction false} RequeueUnsentKeeps(s: State, now: int, n: nat, t: State)
    requires Inv(s) && t == s.(db := RequeueUnsent(s.db, now, n))
    ensures Inv(t)
  {
    if n == 0 {
      assert t == s;
    } else {
      var before := s.(db := RequeueUnsent(s.db, now, n - 1));
      RequeueUnsentKeeps(s, now, n - 1, before);
      RequeueNextKeeps(before, n - 1, now, t);
    }
  }
}
