/**
 What the worker's transactions leave in the rows, in facts about legs, orders and answers: creating, claiming,
 dispatching, canceling, recovering, finishing and repairing.
 */
module OutboxRows {
  import opened Common
  import opened Orders
  import opened Lifecycle
  import opened Outbox
  import opened OutboxRuns
  import opened OutboxSteps
  import opened OutboxGrowth
  import opened OutboxSafety
  import opened OutboxEnded

  // ------------------------------------------------------------------ creating and claiming

  /**
   A new intent is created as asked, with one waiting command that owns exactly its legs; its group is opening, or
   closing, from then on. No order and no other row changes.
   */
  lemma {:induction false} CreatedRows(
    db: Db, key: string, kind: IntentKind, maker: bool, group: Option<nat>, previous: Option<GroupStatus>,
    plans: seq<Plan>, now: int)
    requires WellFormed(db) && key !in db.keys && plans != []
    ensures var db', i, o :=
        CreateIntent(db, key, kind, maker, group, previous, plans, now), db.nextIntent, db.nextOutbox;
            && db'.keys == db.keys[key := i]
            && db'.intents == db.intents[i := Intent(kind, maker, Created, group, now)]
            && db'.outboxes.Keys == db.outboxes.Keys + {o} && Waits(db'.outboxes, i, o)
            && db'.outboxes[o].availableAt == now == db'.outboxes[o].createdAt && db'.outboxes[o].previous == previous
            && (forall p | p in db.outboxes :: db'.outboxes[p] == db.outboxes[p])
            && db'.orders == db.orders && db'.events == db.events
            && db'.groups == (if group.None? then db.groups
                              else db.groups[group.value := if kind == OpenIntent then GroupOpening else GroupClosing])
  {
  }

  /** The legs of the new intent: one planned leg per plan, with its quantity, and all of them in its command. */
  lemma {:induction false} CreatedLegs(
    db: Db, key: string, kind: IntentKind, maker: bool, group: Option<nat>, previous: Option<GroupStatus>,
    plans: seq<Plan>, now: int)
    requires WellFormed(db) && key !in db.keys && plans != []
    ensures var db', i := CreateIntent(db, key, kind, maker, group, previous, plans, now), db.nextIntent;
            && (forall l :: l in LegsOf(db', i) <==> db.nextLeg <= l < db.nextLeg + |plans|)
            && (forall l | l in LegsOf(db', i) ::
                  db'.legs[l] == Leg(i, plans[l - db.nextLeg].quantity, plans[l - db.nextLeg].mt5, LegPlanned))
            && (forall l | l in db.legs :: l in db'.legs && db'.legs[l] == db.legs[l])
            && db.nextOutbox in db'.outboxes && db'.outboxes[db.nextOutbox].command == Submit(LegsOf(db', i))
  {
    var rows := NewLegs(db.nextLeg, db.nextIntent, plans);
    var db' := CreateIntent(db, key, kind, maker, group, previous, plans, now);
    assert db'.legs == db.legs + rows;
    assert LegsOf(db', db.nextIntent) == rows.Keys;
  }

  /** A claimed row is leased: locked at that time, and claimable again exactly when the lock is as old as a timeout. */
  lemma {:induction false} ClaimIsLeased(db: Db, now: int, timeout: int, limit: nat, k: nat, later: int, lease: int)
    requires WellFormed(db) && k < |ClaimBelow(db, now, timeout, limit, db.nextOutbox).claims|
    ensures var b := ClaimBelow(db, now, timeout, limit, db.nextOutbox);
            var o := b.claims[k].outbox;
            && o in db.outboxes && o in b.db.outboxes
            && b.db.outboxes[o].status == OutboxProcessing && b.db.outboxes[o].lockedAt == Some(now)
            && b.db.outboxes[o].attempts == db.outboxes[o].attempts + 1
            && (Claimable(b.db.outboxes[o], later, lease)
              <==> b.db.outboxes[o].availableAt <= later && now + lease <= later)
            && (b.claims[k].recoveryOnly <==> db.outboxes[o].status == OutboxProcessing)
  {
    ClaimedRow(db, now, timeout, limit, db.nextOutbox, k);
    ClaimBelowIs(db, now, timeout, limit, db.nextOutbox);
  }

  lemma {:induction false} ClaimedRow(db: Db, now: int, timeout: int, limit: nat, n: nat, k: nat)
    requires k < |ClaimBelow(db, now, timeout, limit, n).claims|
    ensures var b := ClaimBelow(db, now, timeout, limit, n);
            var o := b.claims[k].outbox;
            && o < n && o in db.outboxes && o in b.db.outboxes
            && b.db.outboxes[o] == db.outboxes[o].(status := OutboxProcessing, lockedAt := Some(now),
                                                  attempts := db.outboxes[o].attempts + 1)
  {
    if n != 0 {
      ClaimBelowIs(db, now, timeout, limit, n - 1);
      var before := ClaimBelow(db, now, timeout, limit, n - 1);
      if k < |before.claims| {
        ClaimedRow(db, now, timeout, limit, n - 1, k);
      }
    }
  }

  // ------------------------------------------------------------------ dispatching

  /** Every stored order asks for the quantity of its leg. */
  ghost predicate OrdersAsk(db: Db) {
    forall l | l in db.orders :: l in db.legs && db.orders[l].order.requested == db.legs[l].quantity
  }

  lemma {:induction false} OrdersAskStep(s: State, a: Action)
    requires Inv(s) && Enabled(s, a) && OrdersAsk(s.db)
    ensures OrdersAsk(Step(s, a).db)
  {
    StepKeeps(s, a);
    StepGrows(s, a);
    NewOrdersAsk(s, a);
    forall l | l in Step(s, a).db.orders && l in s.db.orders
      ensures l in Step(s, a).db.legs && Step(s, a).db.orders[l].order.requested == Step(s, a).db.legs[l].quantity
    {
    }
  }

  predicate FreshDispatch(db: Db, c: Claim, input: Input) {
    c.outbox in db.outboxes && FreshFor(db, c, db.outboxes[c.outbox].intent)
    && db.outboxes[c.outbox].status.OutboxProcessing? && input.blockedFor.None?
  }

  lemma {:induction false} NoNewOrder(db: Db, c: Claim, input: Input)
    requires DbInv(db) && !FreshDispatch(db, c, input)
    ensures ProcessClaim(db, c, input).0.orders.Keys == db.orders.Keys
  {
    if c.outbox in db.outboxes && db.outboxes[c.outbox].status.OutboxProcessing? {
      if db.outboxes[c.outbox].command.Submit? {
        CommandHasLegs(db, c.outbox);
        SubmitBranches(db, c, input);
        if c.recoveryOnly {
          RecoverAddsNoOrder(db, c.outbox, CommandLegs(db, db.outboxes[c.outbox]), input);
        }
      } else {
        CancelAddsNoOrder(db, c.outbox, db.outboxes[c.outbox].command.leg, input);
      }
    }
  }

  /** A new order asks for the quantity of its leg. */
  lemma {:induction false} NewOrdersAsk(s: State, a: Action)
    requires Inv(s) && Enabled(s, a)
    ensures var t := Step(s, a);
            forall l | l in t.db.orders && l !in s.db.orders ::
              l in t.db.legs && t.db.orders[l].order.requested == t.db.legs[l].quantity
  {
    if a.Process? {
      if FreshDispatch(s.db, s.memory.claims[0], a.input) {
        DispatchRows(s.db, s.memory.claims[0], a.input);
      } else {
        NoNewOrder(s.db, s.memory.claims[0], a.input);
      }
    } else {
      OnlyProcessingAddsOrders(s, a);
    }
  }

  lemma {:induction false} OnlyProcessingAddsOrders(s: State, a: Action)
    requires Inv(s) && Enabled(s, a) && !a.Process?
    ensures Step(s, a).db.orders.Keys == s.db.orders.Keys
  {
    match a {
      case RepairRollback(now) => RollbackStaleIs(s.db, now, s.db.nextIntent);
      case RepairRequeue(now) => RequeueKeepsOrders(s.db, now, s.db.nextOutbox);
      case AdvanceStored(o, advance, now) => FinishAddsNoOrder(s.db, o, advance, now);
      case ClaimBatch(now, timeout, limit) => ClaimBelowIs(s.db, now, timeout, limit, s.db.nextOutbox);
      case ConcludeDispatch(answers, advance, now) =>
        ConcludeAddsNoOrder(s.db, s.memory.dispatch.value, answers, advance, now);
      case _ =>
    }
  }

  lemma {:induction false} ConcludeAddsNoOrder(db: Db, d: Dispatch, answers: map<nat, Answer>, a: Advance, now: int)
    ensures Conclude(db, d, answers, a, now).orders.Keys == db.orders.Keys
  {
    if d.outbox in db.outboxes && db.outboxes[d.outbox].intent in db.intents {
      FinishAddsNoOrder(RecordAll(db, d.legs, answers), d.outbox, a, now);
    }
  }

  /**
   A fresh claim that the gate lets through: the intent runs, every leg of the command has an order under its client
   id, a new one being initialized for the leg's quantity; and no other row changes.
   */
  lemma {:induction false} DispatchRows(db: Db, c: Claim, input: Input)
    requires DbInv(db) && FreshDispatch(db, c, input)
    ensures var (db', d) := ProcessClaim(db, c, input);
            var i, legs := db.outboxes[c.outbox].intent, CommandLegs(db, db.outboxes[c.outbox]);
            && d == Some(Dispatch(c.outbox, legs, legs)) && legs != {}
            && db' == db.(orders := db'.orders, intents := db.intents[i := db.intents[i].(status := Running)])
            && db'.orders.Keys == db.orders.Keys + legs
            && (forall l | l in db.orders :: db'.orders[l] == db.orders[l])
            && (forall l | l in legs && l !in db.orders ::
                  && db'.orders[l].clientId == ClientId(i, l) && db'.orders[l].order.status == Initialized
                  && db'.orders[l].order.requested == db.legs[l].quantity == db'.orders[l].order.remaining
                  && db'.orders[l].order.filled == 0.0 == db'.orders[l].order.commission
                  && db'.orders[l].order.averagePrice == None)
  {
    CommandHasLegs(db, c.outbox);
    SubmitBranches(db, c, input);
  }

  lemma {:induction false} RunOrdersAsk(s: State, actions: seq<Action>)
    requires Inv(s) && OrdersAsk(s.db) && Possible(s, actions)
    ensures OrdersAsk(Run(s, actions).db)
    decreases |actions|
  {
    if actions != [] {
      StepKeeps(s, actions[0]);
      OrdersAskStep(s, actions[0]);
      RunOrdersAsk(Step(s, actions[0]), actions[1..]);
    }
  }

  /** In every reachable state each stored order asks for the quantity of its leg. */
  lemma {:induction false} OrdersAskForTheirLegs(actions: seq<Action>)
    requires Possible(START, actions)
    ensures OrdersAsk(Run(START, actions).db)
  {
    StartInv();
    RunOrdersAsk(START, actions);
  }

  // ------------------------------------------------------------------ which answers settle what

  /** An answered query settles an order unless it says that nothing is known. */
  lemma SettlingAnswers(answers: map<nat, Answer>, l: nat)
    ensures Resolves(answers, l) <==>
              l in answers
              && (answers[l] == Raised(false)
                  || (answers[l].Reported?
                      && answers[l].report.status !in {NotReady, Unknown, Other("NOT_SUPPORTED"), Other("")}))
  {
  }

  /** What a query has to say for a cancel to be over: that the order is neither open nor unknown. */
  predicate SaysClosed(answers: map<nat, Answer>, l: nat) {
    l in answers && answers[l].Reported?
    && answers[l].report.status !in
       {NotReady, Unknown, Other("NOT_SUPPORTED"), Other(""), New, Open, Accepted, Submitted, PartiallyFilled}
  }

  // ------------------------------------------------------------------ canceling

  /**
   A cancel that was not tried before, on an existing order: taken by the venue, it is sent, the order awaits its
   end and the intent runs; refused, it fails and the intent needs recovery; without an answer it stays in
   processing, to be queried, and the intent needs recovery. Nothing else changes.
   */
  lemma {:induction false} FreshCancelRows(db: Db, c: Claim, input: Input)
    requires DbInv(db) && c.outbox in db.outboxes && db.outboxes[c.outbox].status == OutboxProcessing
    requires db.outboxes[c.outbox].command.CancelOrder? && !c.recoveryOnly
    ensures var (db', d) := ProcessClaim(db, c, input);
            var o, i, l := c.outbox, db.outboxes[c.outbox].intent, db.outboxes[c.outbox].command.leg;
            && d == None && l in db.orders && i in db.intents
            && db' == db.(outboxes := db'.outboxes, orders := db'.orders, intents := db'.intents)
            && db'.outboxes == (match input.cancel
                                case CancelTaken =>
                                  db.outboxes[o := db.outboxes[o].(status := OutboxSent, lockedAt := None)]
                                case CancelRefused =>
                                  db.outboxes[o := db.outboxes[o].(status := OutboxFailed, lockedAt := None)]
                                case CancelRaised => db.outboxes)
            && db'.intents == db.intents[i := db.intents[i].(
                 status := if input.cancel == CancelTaken then Running else RecoveryRequired)]
            && db'.orders == if input.cancel == CancelTaken
                             then db.orders[l := db.orders[l].(order := db.orders[l].order.(status := PendingCancel))]
                             else db.orders
  {
  }

  /**
   A cancel that may have been tried before is only queried: when the venue says that the order is over, this is
   recorded, and the command is sent; otherwise no order and no command changes, and the intent needs recovery.
   */
  lemma {:induction false} QueriedCancelRows(db: Db, c: Claim, input: Input)
    requires DbInv(db) && c.outbox in db.outboxes && db.outboxes[c.outbox].status == OutboxProcessing
    requires db.outboxes[c.outbox].command.CancelOrder? && c.recoveryOnly
    ensures var (db', d) := ProcessClaim(db, c, input);
            var o, i, l := c.outbox, db.outboxes[c.outbox].intent, db.outboxes[c.outbox].command.leg;
            && d == None && l in db.orders && l in db.legs && i in db.intents && l in db'.orders && o in db'.outboxes
            && (db'.outboxes[o].status == OutboxSent <==> SaysClosed(input.answers, l))
            && (!SaysClosed(input.answers, l) ==>
                  db' == db.(intents := db.intents[i := db.intents[i].(status := RecoveryRequired)]))
            && (SaysClosed(input.answers, l) ==>
                  l in db'.events
                  && db'.orders[l].order.filled
                     == GatewayResult(db.orders[l].order, db.legs[l].quantity,
                       db.legs[l].mt5, input.answers[l].report).0.filled)
  {
    var l := db.outboxes[c.outbox].command.leg;
    QueriedCancelIs(db, c, input);
    if SaysClosed(input.answers, l) {
      ConfirmedRows(db, c.outbox, l, input);
    }
  }

  lemma {:induction false} QueriedCancelIs(db: Db, c: Claim, input: Input)
    requires DbInv(db) && c.outbox in db.outboxes && db.outboxes[c.outbox].status == OutboxProcessing
    requires db.outboxes[c.outbox].command.CancelOrder? && c.recoveryOnly
    ensures var o, i, l := c.outbox, db.outboxes[c.outbox].intent, db.outboxes[c.outbox].command.leg;
            && l in db.orders && l in db.legs && i in db.intents
            && ProcessClaim(db, c, input) ==
                 if SaysClosed(input.answers, l) then (Confirmed(db, o, l, input), None)
                 else (db.(intents := db.intents[i := db.intents[i].(status := RecoveryRequired)]), None)
  {
  }

  /** Finishing takes no fill and no event back, whatever the machine adds. */
  lemma {:induction false} FinishKeepsFacts(db: Db, o: nat, a: Advance, now: int, l: nat)
    requires o in db.outboxes && db.outboxes[o].intent in db.intents && l in db.orders
    ensures var db' := Finish(db, o, a, now);
            l in db'.orders && db'.orders[l].order == db.orders[l].order.(status := db'.orders[l].order.status)
            && db'.events == db.events
  {
    if IsDriven(db.intents[db.outboxes[o].intent]) {
      ExtendedKeepsFacts(MarkedSent(db, o, a), db.outboxes[o].intent, a.extra, now, l);
      AdvancedFacts(db, o, a, now);
    }
  }

  lemma {:induction false} ExtendedKeepsFacts(db: Db, i: nat, extra: Extra, now: int, l: nat)
    requires i in db.intents && l in db.orders
    ensures var db' := Extended(db, i, extra, now);
            l in db'.orders && db'.orders[l].order == db.orders[l].order.(status := db'.orders[l].order.status)
            && db'.events == db.events
  {
  }

  lemma {:induction false} AdvancedFacts(db: Db, o: nat, a: Advance, now: int)
    requires o in db.outboxes && db.outboxes[o].intent in db.intents
    ensures var e, t :=
        Extended(MarkedSent(db, o, a), db.outboxes[o].intent, a.extra, now), FinishAdvanced(db, o, a, now);
            t.orders == e.orders && t.events == e.events && t.legs == e.legs && t.outboxes == e.outboxes
  {
  }

  lemma {:induction false} ConfirmedRows(db: Db, o: nat, l: nat, input: Input)
    requires DbInv(db) && o in db.outboxes && l in db.orders && l in db.legs && l in input.answers
    requires input.answers[l].Reported?
    ensures var db' := Confirmed(db, o, l, input);
            && o in db'.outboxes && db'.outboxes[o].status == OutboxSent && l in db'.events && l in db'.orders
            && db'.orders[l].order.filled
               == GatewayResult(db.orders[l].order, db.legs[l].quantity,
                 db.legs[l].mt5, input.answers[l].report).0.filled
  {
    var sent := WithOutboxStatus(Record(db, l, input.answers[l]), o, OutboxSent, None);
    FinishKeepsFacts(sent, o, input.advance, input.now, l);
    FinishStaysSent(sent, o, input.advance, input.now);
  }

  lemma {:induction false} FinishStaysSent(db: Db, o: nat, a: Advance, now: int)
    requires o in db.outboxes && db.outboxes[o].intent in db.intents && o < db.nextOutbox
    requires db.outboxes[o].status == OutboxSent
    ensures o in Finish(db, o, a, now).outboxes && Finish(db, o, a, now).outboxes[o].status == OutboxSent
  {
    if IsDriven(db.intents[db.outboxes[o].intent]) {
      ExtendedKeepsRow(MarkedSent(db, o, a), db.outboxes[o].intent, a.extra, now, o);
    }
  }

  // ------------------------------------------------------------------ recovering

  /** The venue is asked about the leg's order, and its answer settles it. */
  predicate AskedAndSettled(db: Db, l: nat, answers: map<nat, Answer>) {
    l in db.orders && l in db.legs && IsNonTerminal(db.orders[l].order.status) && Resolves(answers, l)
  }

  /**
   A recovery of a command records exactly the settling answers about its open orders: each of these has an event
   and the amounts that its answer gives, and no other order changes its amounts.
   */
  lemma {:induction false} RecoveryRecords(db: Db, c: Claim, input: Input, l: nat)
    requires DbInv(db) && c.outbox in db.outboxes && db.outboxes[c.outbox].status == OutboxProcessing
    requires db.outboxes[c.outbox].command.Submit? && c.recoveryOnly && l in db.orders
    ensures var db' := ProcessClaim(db, c, input).0;
            l in db'.orders
            && if l in CommandLegs(db, db.outboxes[c.outbox]) && AskedAndSettled(db, l, input.answers) then
                 && l in db'.events
                 && db'.orders[l].order == Projected(db.orders[l].order, db.legs[l], input.answers[l]).0.(
                      status := db'.orders[l].order.status)
               else
                 && (l in db'.events <==> l in db.events)
                 && db'.orders[l].order == db.orders[l].order.(status := db'.orders[l].order.status)
  {
    var legs := CommandLegs(db, db.outboxes[c.outbox]);
    CommandHasLegs(db, c.outbox);
    SubmitBranches(db, c, input);
    var settled := Settled(Asked(db, legs), input.answers);
    var recorded := RecordAll(db, settled, input.answers);
    QuietRecordAll(db, settled, input.answers, db.outboxes[c.outbox].intent);
    RecordedRow(db, settled, input.answers, l);
    FinishKeepsFacts(recorded, c.outbox, input.advance, input.now, l);
  }

  lemma {:induction false} RecordedRow(db: Db, legs: set<nat>, answers: map<nat, Answer>, l: nat)
    requires l in db.orders && l in db.legs
    ensures var db' := RecordAll(db, legs, answers);
            l in db'.orders && l in db'.legs
            && if l in legs && l in answers then
                 l in db'.events && db'.orders[l].order == Projected(db.orders[l].order, db.legs[l], answers[l]).0
                 && db'.legs[l].status == Projected(db.orders[l].order, db.legs[l], answers[l]).1
               else (l in db'.events <==> l in db.events) && db'.orders[l] == db.orders[l] && db'.legs[l] == db.legs[l]
  {
  }

  // ------------------------------------------------------------------ finishing

  ghost predicate EveryLeg(db: Db, i: nat, status: LegStatus) {
    LegsOf(db, i) != {} && forall l | l in LegsOf(db, i) :: db.legs[l].status == status
  }

  ghost predicate SomeLeg(db: Db, i: nat, status: LegStatus) {
    exists l | l in LegsOf(db, i) :: db.legs[l].status == status
  }

  /** A leg that is neither filled nor failed. */
  ghost predicate SomePending(db: Db, i: nat) {
    exists l | l in LegsOf(db, i) :: db.legs[l].status !in {LegFilled, LegFailed}
  }

  ghost predicate SomethingFilled(db: Db, i: nat) {
    exists l | l in LegsOf(db, i) :: l in db.orders && db.orders[l].order.filled > 0.0
  }

  /**
   Finishing a command of a plain intent: the command is sent, and the statuses of intent and group go together.
   The intent is completed exactly when all legs are filled, and the group is then open, or closed; it needs recovery
   or has failed exactly when a leg failed, and the group asks for an operator exactly if anything is filled or
   pending; otherwise both go on. A close that failed without a trace gives the group its previous open status.
   */
  lemma {:induction false} PlainFinishRows(db: Db, o: nat, a: Advance, now: int, g: nat)
    requires o in db.outboxes && db.outboxes[o].intent in db.intents
    requires !db.intents[db.outboxes[o].intent].maker && db.intents[db.outboxes[o].intent].kind != ProbeIntent
    requires db.intents[db.outboxes[o].intent].group == Some(g) && g in db.groups
    ensures var db', i := Finish(db, o, a, now), db.outboxes[o].intent;
            && g in db'.groups && i in db'.intents
            && db' == db.(outboxes := db.outboxes[o := db.outboxes[o].(status := OutboxSent, lockedAt := None)],
                          intents := db.intents[i := db.intents[i].(status := db'.intents[i].status)],
                          groups := db.groups[g := db'.groups[g]])
            && var opening, st, gs := db.intents[i].kind == OpenIntent, db'.intents[i].status, db'.groups[g];
               && (st == Completed <==> EveryLeg(db, i, LegFilled))
               && (st == Completed
                 <==> gs == (if opening then GroupOpen else GroupClosed) && EveryLeg(db, i, LegFilled))
               && (st == RecoveryRequired <==> SomeLeg(db, i, LegFailed) && SomePending(db, i))
               && (st == FailedIntent <==> SomeLeg(db, i, LegFailed) && !SomePending(db, i))
               && (gs == GroupManual <==>
                     SomeLeg(db, i, LegFailed) && (SomePending(db, i) || SomethingFilled(db, i)))
               && (st == Running <==> gs == if opening then GroupOpening else GroupClosing)
               && (st == FailedIntent && gs != GroupManual ==>
                     gs == if opening then GroupFailed
                           else if db.outboxes[o].previous == Some(GroupOpenPartial) then GroupOpenPartial
                             else GroupOpen)
  {
  }

  /**
   Finishing a command of a driven intent: only this command may become sent, and only from processing; a waiting
   one waits on. Intent and group get what the machine says.
   */
  lemma {:induction false} DrivenFinishRows(db: Db, o: nat, a: Advance, now: int)
    requires WellFormed(db) && o in db.outboxes
    requires db.intents[db.outboxes[o].intent].maker || db.intents[db.outboxes[o].intent].kind == ProbeIntent
    ensures var db', i := Finish(db, o, a, now), db.outboxes[o].intent;
            && o in db'.outboxes && i in db'.intents
            && db'.outboxes[o] == (if a.markSent && db.outboxes[o].status == OutboxProcessing
                                   then db.outboxes[o].(status := OutboxSent, lockedAt := None) else db.outboxes[o])
            && (forall p | p in db.outboxes && p != o :: p in db'.outboxes && db'.outboxes[p] == db.outboxes[p])
            && db'.intents[i].status == a.status
            && (a.groupStatus.Some? && db.intents[i].group.Some? && db.intents[i].group.value in db'.groups ==>
                  db'.groups[db.intents[i].group.value] == a.groupStatus.value)
  {
    DrivenRow(db, o, a, now, o);
    forall p | p in db.outboxes && p != o
      ensures p in Finish(db, o, a, now).outboxes && Finish(db, o, a, now).outboxes[p] == db.outboxes[p]
    {
      DrivenRow(db, o, a, now, p);
    }
  }

  lemma {:induction false} DrivenRow(db: Db, o: nat, a: Advance, now: int, p: nat)
    requires WellFormed(db) && o in db.outboxes && p in db.outboxes && IsDriven(db.intents[db.outboxes[o].intent])
    ensures var db' := Finish(db, o, a, now);
            p in db'.outboxes && db'.outboxes[p] == MarkedSent(db, o, a).outboxes[p]
  {
    ExtendedKeepsRow(MarkedSent(db, o, a), db.outboxes[o].intent, a.extra, now, p);
    AdvancedFacts(db, o, a, now);
  }

  /**
   What the machine may add: a leg comes with its own waiting command, unless the intent is over; a cancel comes with
   its own waiting command and marks the order, and no order means no command.
   */
  lemma {:induction false} AddedRows(db: Db, i: nat, extra: Extra, now: int)
    requires WellFormed(db) && i in db.intents
    ensures var db', o := Extended(db, i, extra, now), db.nextOutbox;
            && (extra.Nothing? ==> db' == db)
            && (extra.AddLeg? && !IsLive(db.intents[i].status) ==> db' == db)
            && (extra.AddLeg? && IsLive(db.intents[i].status) ==>
                  var l := db.nextLeg;
                  && db'.legs == db.legs[l := Leg(i, extra.plan.quantity, extra.plan.mt5, LegPlanned)]
                  && db'.outboxes == db.outboxes[o := Outbox(i, Submit({l}), None, OutboxPending, now, None, 0, now)]
                  && db'.orders == db.orders && db'.intents == db.intents)
            && (extra.AskCancel? && (extra.leg !in db.orders || extra.leg !in db.legs) ==> db' == db)
            && (extra.AskCancel? && extra.leg in db.orders && extra.leg in db.legs ==>
                  var l := extra.leg;
                  && db'.outboxes == db.outboxes[o := Outbox(i, CancelOrder(l), None, OutboxPending, now, None, 0, now)]
                  && db'.orders == db.orders[l := db.orders[l].(order := db.orders[l].order.(status := PendingCancel))]
                  && db'.legs == db.legs[l := db.legs[l].(status := LegSubmitted)] && db'.intents == db.intents)
  {
    if extra.AddLeg? {
      assert NewLegs(db.nextLeg, i, [extra.plan]).Keys == {db.nextLeg};
    }
  }

  // ------------------------------------------------------------------ repairing

  /** No trace of the leg at any venue: it is planned and has neither an order nor an event. */
  predicate NoTrace(db: Db, l: nat) {
    l in db.legs && db.legs[l].status == LegPlanned && l !in db.orders && l !in db.events
  }

  /** Which intents the rollback repair takes: old live closes whose legs, at least one, have no trace. */
  lemma {:induction false} RollbackTakes(db: Db, now: int, i: nat)
    requires WellFormed(db)
    ensures i in RolledBack(db, now, db.nextIntent) <==>
              && i in db.intents && db.intents[i].kind == CloseIntent
              && db.intents[i].status in {Created, Running, RecoveryRequired}
              && db.intents[i].createdAt + 300 <= now
              && (exists l :: l in LegsOf(db, i)) && forall l | l in LegsOf(db, i) :: NoTrace(db, l)
  {
    RollbackStaleIs(db, now, db.nextIntent);
  }

  /** Which commands the other repair takes: old sent ones of an intent that runs or needs recovery, without a trace. */
  lemma {:induction false} RequeueTakes(db: Db, now: int, o: nat)
    requires WellFormed(db) && Owned(db) && o in db.outboxes
    ensures o in RequeueUnsent(db, now, db.nextOutbox).outboxes
    ensures RequeueUnsent(db, now, db.nextOutbox).outboxes[o] != db.outboxes[o] <==>
              && db.outboxes[o].status == OutboxSent && db.outboxes[o].createdAt + 300 <= now
              && db.intents[db.outboxes[o].intent].status in {Running, RecoveryRequired}
              && forall l | l in Ids(db.outboxes[o].command) :: NoTrace(db, l)
  {
    RequeueIsExact(db, now, db.nextOutbox, o);
  }

  /** An intent that was requeued runs again; all others keep their status. */
  lemma {:induction false} RequeueRunsIntents(db: Db, now: int, n: nat, i: nat)
    requires i in db.intents
    ensures i in RequeueUnsent(db, now, n).intents
    ensures RequeueUnsent(db, now, n).intents[i] ==
              if exists o: nat :: o < n && RequeueDue(db, o, now) && db.outboxes[o].intent == i
              then db.intents[i].(status := Running) else db.intents[i]
  {
    if n != 0 {
      RequeueRunsIntents(db, now, n - 1, i);
      if n - 1 in db.outboxes {
        RequeueIsExact(db, now, n - 1, n - 1);
      }
      RequeueKeepsOrders(db, now, n - 1);
      RequeueKeepsDue(db, now, n - 1, n - 1);
      RequeueKeepsRepairable(db, now, n - 1);
    }
  }
}
