/** What no step of the outbox worker takes back: links, idempotency keys, client ids, filled quantities,
    submissions. */
module OutboxGrowth {
  import opened Common
  import opened Orders
  import opened Lifecycle
  import opened Outbox
  import opened OutboxRuns
  import opened OutboxSteps

  /** Nothing stored is lost or re-linked, and no filled quantity shrinks. */
  ghost predicate DbGrows(db: Db, db': Db) {
    && (forall k | k in db.keys :: k in db'.keys && db'.keys[k] == db.keys[k])
    && (forall i | i in db.intents :: i in db'.intents && db'.intents[i].kind == db.intents[i].kind)
    && (forall l | l in db.legs ::
          l in db'.legs && db'.legs[l].intent == db.legs[l].intent && db'.legs[l].quantity == db.legs[l].quantity)
    && (forall o | o in db.outboxes ::
          o in db'.outboxes && db'.outboxes[o].intent == db.outboxes[o].intent
          && db'.outboxes[o].command == db.outboxes[o].command)
    && (forall l | l in db.orders ::
          l in db'.orders && db'.orders[l].clientId == db.orders[l].clientId
          && db'.orders[l].order.requested == db.orders[l].order.requested
          && db'.orders[l].order.filled >= db.orders[l].order.filled)
  }

  ghost predicate Grows(s: State, t: State) {
    && DbGrows(s.db, t.db)
    && |s.submitted| <= |t.submitted| && t.submitted[..|s.submitted|] == s.submitted
    && s.rolledBack <= t.rolledBack
  }

  lemma {:induction false} DbGrowsTrans(a: Db, b: Db, c: Db)
    requires DbGrows(a, b) && DbGrows(b, c)
    ensures DbGrows(a, c)
  {
  }

  lemma {:induction false} RowGrows(db: Db, l: nat, order: VenueOrder, leg: LegStatus)
    requires l in db.orders && l in db.legs
    requires order.requested == db.orders[l].order.requested && order.filled >= db.orders[l].order.filled
    ensures DbGrows(db, db.(orders := db.orders[l := db.orders[l].(order := order)],
                            legs := db.legs[l := db.legs[l].(status := leg)], events := db.events + {l}))
  {
  }

  lemma ProjectedGrows(order: VenueOrder, leg: Leg, a: Answer)
    ensures Projected(order, leg, a).0.requested == order.requested
    ensures Projected(order, leg, a).0.filled >= order.filled
  {
  }

  lemma {:induction false} RecordGrows(db: Db, l: nat, a: Answer)
    ensures DbGrows(db, Record(db, l, a))
  {
    if l in db.orders && l in db.legs {
      var row := Projected(db.orders[l].order, db.legs[l], a);
      ProjectedGrows(db.orders[l].order, db.legs[l], a);
      RowGrows(db, l, row.0, row.1);
    }
  }

  lemma {:induction false} RecordAllGrows(db: Db, legs: set<nat>, answers: map<nat, Answer>)
    ensures DbGrows(db, RecordAll(db, legs, answers))
  {
  }

  lemma {:induction false} AddCommandGrows(db: Db, i: nat, plans: seq<Plan>, previous: Option<GroupStatus>, now: int)
    requires WellFormed(db)
    ensures DbGrows(db, AddCommand(db, i, plans, previous, now))
  {
  }

  lemma {:induction false} CreateGrows(
    db: Db, key: string, kind: IntentKind, maker: bool, group: Option<nat>, previous: Option<GroupStatus>,
    plans: seq<Plan>, now: int)
    requires WellFormed(db)
    ensures DbGrows(db, CreateIntent(db, key, kind, maker, group, previous, plans, now))
  {
    if key !in db.keys && plans != [] {
      var added := AddIntentRow(db, key, Intent(kind, maker, Created, group, now));
      assert DbGrows(db, added);
      AddCommandGrows(added, db.nextIntent, plans, previous, now);
      DbGrowsTrans(db, added, CreateIntent(db, key, kind, maker, group, previous, plans, now));
    }
  }

  lemma {:induction false} ExtendedGrows(db: Db, i: nat, extra: Extra, now: int)
    requires WellFormed(db) && i in db.intents
    ensures DbGrows(db, Extended(db, i, extra, now))
  {
    match extra {
      case Nothing =>
      case AddLeg(plan) => AddCommandGrows(db, i, [plan], None, now);
      case AskCancel(l) =>
      case AddIntent(key, plan) => CreateGrows(db, key, ProbeIntent, false, None, None, [plan], now);
    }
  }

  lemma {:induction false} AdvancedGrows(db: Db, o: nat, a: Advance, now: int)
    requires WellFormed(db) && o in db.outboxes
    ensures DbGrows(db, FinishAdvanced(db, o, a, now))
  {
    var i := db.outboxes[o].intent;
    var sent := MarkedSent(db, o, a);
    var extended := Extended(sent, i, a.extra, now);
    assert DbGrows(db, sent) && WellFormed(sent);
    ExtendedGrows(sent, i, a.extra, now);
    DbGrowsTrans(db, sent, extended);
    MarkedGrows(extended, i, a.status, db.intents[i].group, a.groupStatus);
    DbGrowsTrans(db, extended, FinishAdvanced(db, o, a, now));
  }

  lemma {:induction false} MarkedGrows(db: Db, i: nat, status: IntentStatus,
      group: Option<nat>, groupStatus: Option<GroupStatus>)
    requires i in db.intents
    ensures var marked := WithIntentStatus(db, i, status);
            DbGrows(db, if groupStatus.Some? then WithGroup(marked, group, groupStatus.value) else marked)
  {
  }

  lemma {:induction false} PlainGrows(db: Db, o: nat)
    requires WellFormed(db) && o in db.outboxes
    ensures DbGrows(db, FinishPlain(db, o))
  {
  }

  lemma {:induction false} FinishGrows(db: Db, o: nat, a: Advance, now: int)
    requires WellFormed(db) && o in db.outboxes
    ensures DbGrows(db, Finish(db, o, a, now))
  {
    if IsDriven(db.intents[db.outboxes[o].intent]) {
      AdvancedGrows(db, o, a, now);
    } else {
      PlainGrows(db, o);
    }
  }

  lemma {:induction false} OutboxStatusGrows(db: Db, o: nat, status: OutboxStatus, lockedAt: Option<int>)
    requires o in db.outboxes
    ensures DbGrows(db, WithOutboxStatus(db, o, status, lockedAt))
  {
  }

  lemma {:induction false} FailGrows(db: Db, o: nat, status: IntentStatus)
    requires o in db.outboxes
    ensures DbGrows(db, Fail(db, o, status))
  {
    var failed := WithOutboxStatus(db, o, OutboxFailed, None);
    OutboxStatusGrows(db, o, OutboxFailed, None);
    if db.outboxes[o].intent in db.intents {
      StatusGrows(failed, db.outboxes[o].intent, status);
      DbGrowsTrans(db, failed, Fail(db, o, status));
    }
  }

  lemma {:induction false} EndGrows(db: Db, db1: Db, o: nat, a: Advance, now: int, end: Db)
    requires WellFormed(db1) && DbGrows(db, db1) && o in db1.outboxes
    requires end == Finish(db1, o, a, now) || end == Fail(db1, o, RecoveryRequired)
    ensures DbGrows(db, end)
  {
    FinishGrows(db1, o, a, now);
    FailGrows(db1, o, RecoveryRequired);
    DbGrowsTrans(db, db1, end);
  }

  lemma {:induction false} RollbackStaleGrows(db: Db, now: int, n: nat)
    ensures DbGrows(db, RollbackStale(db, now, n))
  {
    if n != 0 {
      RollbackStaleGrows(db, now, n - 1);
      DbGrowsTrans(db, RollbackStale(db, now, n - 1), RollbackStale(db, now, n));
    }
  }

  lemma {:induction false} RequeueUnsentGrows(db: Db, now: int, n: nat)
    ensures DbGrows(db, RequeueUnsent(db, now, n))
  {
    if n != 0 {
      RequeueUnsentGrows(db, now, n - 1);
      DbGrowsTrans(db, RequeueUnsent(db, now, n - 1), RequeueUnsent(db, now, n));
    }
  }

  lemma {:induction false} ClaimNextGrows(b: Batch, o: nat, now: int, timeout: int, limit: nat)
    ensures DbGrows(b.db, ClaimNext(b, o, now, timeout, limit).db)
  {
  }

  lemma {:induction false} ClaimBelowGrows(db: Db, now: int, timeout: int, limit: nat, n: nat)
    ensures DbGrows(db, ClaimBelow(db, now, timeout, limit, n).db)
  {
    if n != 0 {
      var before := ClaimBelow(db, now, timeout, limit, n - 1);
      ClaimBelowGrows(db, now, timeout, limit, n - 1);
      ClaimNextGrows(before, n - 1, now, timeout, limit);
      DbGrowsTrans(db, before.db, ClaimNext(before, n - 1, now, timeout, limit).db);
    }
  }

  lemma {:induction false} RecoverGrows(db: Db, o: nat, legs: set<nat>, input: Input)
    requires WellFormed(db) && o in db.outboxes
    ensures DbGrows(db, Recover(db, o, legs, input))
  {
    var settled := Settled(Asked(db, legs), input.answers);
    RecordAllGrows(db, settled, input.answers);
    EndGrows(db, RecordAll(db, settled, input.answers), o, input.advance, input.now, Recover(db, o, legs, input));
  }

  lemma {:induction false} SentGrows(db: Db, o: nat)
    requires o in db.outboxes
    ensures DbGrows(db, WithOutboxStatus(db, o, OutboxSent, None))
    ensures WellFormed(db) ==> WellFormed(WithOutboxStatus(db, o, OutboxSent, None))
  {
  }

  lemma {:induction false} RecordWellFormed(db: Db, l: nat, a: Answer)
    requires WellFormed(db)
    ensures WellFormed(Record(db, l, a))
  {
  }

  lemma {:induction false} CancelConfirmedGrows(db: Db, o: nat, l: nat, answer: Answer, a: Advance, now: int)
    requires WellFormed(db) && o in db.outboxes
    ensures var sent := WithOutboxStatus(Record(db, l, answer), o, OutboxSent, None);
            DbGrows(db, Finish(sent, o, a, now))
  {
    var recorded := Record(db, l, answer);
    RecordGrows(db, l, answer);
    RecordWellFormed(db, l, answer);
    SentGrows(recorded, o);
    var sent := WithOutboxStatus(recorded, o, OutboxSent, None);
    DbGrowsTrans(db, recorded, sent);
    EndGrows(db, sent, o, a, now, Finish(sent, o, a, now));
  }

  lemma {:induction false} MarkedCancelGrows(db: Db, l: nat)
    requires l in db.orders
    ensures DbGrows(db,
        db.(orders := db.orders[l := db.orders[l].(order := db.orders[l].order.(status := PendingCancel))]))
  {
  }

  lemma {:induction false} StatusGrows(db: Db, i: nat, status: IntentStatus)
    requires i in db.intents
    ensures DbGrows(db, WithIntentStatus(db, i, status))
  {
  }

  lemma {:induction false} TakenGrows(db: Db, o: nat, l: nat)
    requires o in db.outboxes && db.outboxes[o].intent in db.intents && l in db.orders
    ensures var marked :=
        db.(orders := db.orders[l := db.orders[l].(order := db.orders[l].order.(status := PendingCancel))]);
            DbGrows(db, WithIntentStatus(WithOutboxStatus(marked, o, OutboxSent, None), db.outboxes[o].intent, Running))
  {
    var marked := db.(orders := db.orders[l := db.orders[l].(order := db.orders[l].order.(status := PendingCancel))]);
    MarkedCancelGrows(db, l);
    SentGrows(marked, o);
    var sent := WithOutboxStatus(marked, o, OutboxSent, None);
    DbGrowsTrans(db, marked, sent);
    StatusGrows(sent, db.outboxes[o].intent, Running);
    DbGrowsTrans(db, sent, WithIntentStatus(sent, db.outboxes[o].intent, Running));
  }

  lemma {:induction false} CancelAskedGrows(db: Db, o: nat, l: nat, input: Input)
    requires WellFormed(db) && o in db.outboxes
    ensures DbGrows(db, ProcessCancel(db, o, l, false, input))
  {
    if l !in db.legs || l !in db.orders {
      FailGrows(db, o, FailedIntent);
    } else {
      match input.cancel {
        case CancelRaised =>
        case CancelRefused => FailGrows(db, o, RecoveryRequired);
        case CancelTaken => TakenGrows(db, o, l);
      }
    }
  }

  lemma {:induction false} ProcessCancelGrows(db: Db, o: nat, l: nat, recoveryOnly: bool, input: Input)
    requires WellFormed(db) && o in db.outboxes
    ensures DbGrows(db, ProcessCancel(db, o, l, recoveryOnly, input))
  {
    if !recoveryOnly {
      CancelAskedGrows(db, o, l, input);
    } else if l !in db.legs || l !in db.orders {
      FailGrows(db, o, FailedIntent);
    } else if l in input.answers {
      CancelConfirmedGrows(db, o, l, input.answers[l], input.advance, input.now);
    }
  }

  lemma {:induction false} SubmitClaimGrows(db: Db, c: Claim, input: Input, outcome: (Db, Option<Dispatch>))
    requires WellFormed(db) && c.outbox in db.outboxes && db.outboxes[c.outbox].status.OutboxProcessing?
    requires db.outboxes[c.outbox].command.Submit? && outcome == ProcessClaim(db, c, input)
    ensures DbGrows(db, outcome.0)
  {
    SubmitBranches(db, c, input);
    var legs := CommandLegs(db, db.outboxes[c.outbox]);
    if legs == {} {
      FailGrows(db, c.outbox, FailedIntent);
    } else if c.recoveryOnly {
      RecoverGrows(db, c.outbox, legs, input);
    }
  }

  lemma {:induction false} ProcessGrows(db: Db, c: Claim, input: Input)
    requires WellFormed(db)
    ensures DbGrows(db, ProcessClaim(db, c, input).0)
  {
    if c.outbox in db.outboxes && db.outboxes[c.outbox].status.OutboxProcessing? {
      var o := db.outboxes[c.outbox];
      if o.command.CancelOrder? {
        ProcessCancelGrows(db, c.outbox, o.command.leg, c.recoveryOnly, input);
      } else {
        SubmitClaimGrows(db, c, input, ProcessClaim(db, c, input));
      }
    }
  }

  lemma {:induction false} UnknownGrows(db: Db, o: nat, now: int)
    requires o in db.outboxes && db.outboxes[o].intent in db.intents
    ensures DbGrows(db, WithIntentStatus(WithOutboxStatus(db, o, OutboxProcessing, Some(now)),
        db.outboxes[o].intent, RecoveryRequired))
  {
    var locked := WithOutboxStatus(db, o, OutboxProcessing, Some(now));
    OutboxStatusGrows(db, o, OutboxProcessing, Some(now));
    StatusGrows(locked, db.outboxes[o].intent, RecoveryRequired);
    DbGrowsTrans(db, locked, WithIntentStatus(locked, db.outboxes[o].intent, RecoveryRequired));
  }

  lemma {:induction false} ConcludedGrows(db: Db, d: Dispatch,
      answers: map<nat, Answer>, a: Advance, now: int, recorded: Db)
    requires WellFormed(db) && d.outbox in db.outboxes && recorded == RecordAll(db, d.legs, answers)
    ensures DbGrows(recorded, Conclude(db, d, answers, a, now))
  {
    if exists l | l in d.legs :: l in answers && answers[l] == Raised(true) {
      UnknownGrows(recorded, d.outbox, now);
    } else {
      FinishGrows(recorded, d.outbox, a, now);
    }
  }

  lemma {:induction false} ConcludeGrows(db: Db, d: Dispatch, answers: map<nat, Answer>, a: Advance, now: int)
    requires WellFormed(db)
    ensures DbGrows(db, Conclude(db, d, answers, a, now))
  {
    if d.outbox in db.outboxes {
      var recorded := RecordAll(db, d.legs, answers);
      RecordAllGrows(db, d.legs, answers);
      ConcludedGrows(db, d, answers, a, now, recorded);
      DbGrowsTrans(db, recorded, Conclude(db, d, answers, a, now));
    }
  }

  lemma {:induction false} StepGrows(s: State, a: Action)
    requires Inv(s) && Enabled(s, a)
    ensures Grows(s, Step(s, a))
  {
    match a {
      case Create(key, kind, maker, group, previous, plans, now) =>
        CreateGrows(s.db, key, kind, maker, group, previous, plans, now);
      case Crash =>
      case Supersede(i) =>
      case RepairRollback(now) => RollbackStaleGrows(s.db, now, s.db.nextIntent);
      case RepairRequeue(now) => RequeueUnsentGrows(s.db, now, s.db.nextOutbox);
      case Observe(l, answer) => RecordGrows(s.db, l, answer);
      case AdvanceStored(o, advance, now) => FinishGrows(s.db, o, advance, now);
      case ClaimBatch(now, timeout, limit) => ClaimBelowGrows(s.db, now, timeout, limit, s.db.nextOutbox);
      case Process(input) => ProcessGrows(s.db, s.memory.claims[0], input);
      case SubmitOne(l) =>
      case ConcludeDispatch(answers, advance, now) =>
        ConcludeGrows(s.db, s.memory.dispatch.value, answers, advance, now);
    }
  }

  lemma {:induction false} GrowsTrans(s: State, t: State, u: State)
    requires Grows(s, t) && Grows(t, u)
    ensures Grows(s, u)
  {
    DbGrowsTrans(s.db, t.db, u.db);
    assert u.submitted[..|s.submitted|] == t.submitted[..|s.submitted|];
  }

  lemma {:induction false} RunGrows(s: State, actions: seq<Action>)
    requires Inv(s) && Possible(s, actions)
    ensures Grows(s, Run(s, actions))
    decreases |actions|
  {
    if actions != [] {
      var t := Step(s, actions[0]);
      StepKeeps(s, actions[0]);
      StepGrows(s, actions[0]);
      RunGrows(t, actions[1..]);
      GrowsTrans(s, t, Run(t, actions[1..]));
    }
  }
}
