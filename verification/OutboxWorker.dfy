/**
 The worker as the object it is: the tables are fields that its methods update row by row. Every method is
 proved against the specification in `Outbox` and `OutboxRuns`, so the theorems about runs hold of it.
 */
module OutboxWorker {
  import opened Common
  import opened Orders
  import opened Lifecycle
  import opened Outbox
  import opened OutboxRuns

  predicate IsHit(db: Db, legs: set<nat>, answers: map<nat, Answer>, l: nat) {
    l in legs && l in answers && l in db.orders && l in db.legs
  }

  /** Row by row, what recording a set of answers leaves. */
  ghost predicate Recorded(db: Db, legs: set<nat>, answers: map<nat, Answer>, after: Db) {
    && after == db.(orders := after.orders, legs := after.legs, events := after.events)
    && after.orders.Keys == db.orders.Keys && after.legs.Keys == db.legs.Keys
    && (forall l | l in db.orders :: after.orders[l] ==
          if IsHit(db, legs, answers, l)
          then db.orders[l].(order := Projected(db.orders[l].order, db.legs[l], answers[l]).0) else db.orders[l])
    && (forall l | l in db.legs :: after.legs[l] ==
          if IsHit(db, legs, answers, l)
          then db.legs[l].(status := Projected(db.orders[l].order, db.legs[l], answers[l]).1) else db.legs[l])
    && (forall l :: l in after.events <==> l in db.events || IsHit(db, legs, answers, l))
  }

  lemma {:induction false} RecordAllRows(db: Db, legs: set<nat>, answers: map<nat, Answer>)
    ensures Recorded(db, legs, answers, RecordAll(db, legs, answers))
  {
  }

  lemma {:induction false} RecordedOnce(db: Db, legs: set<nat>, answers: map<nat, Answer>, a: Db, b: Db)
    requires Recorded(db, legs, answers, a) && Recorded(db, legs, answers, b)
    ensures a == b
  {
    assert a.orders == b.orders && a.legs == b.legs && a.events == b.events;
  }

  lemma {:induction false} RecordedOneMore(db: Db, done: set<nat>, l: nat, answers: map<nat, Answer>, before: Db)
    requires Recorded(db, done, answers, before) && l !in done
    ensures Recorded(db, done + {l}, answers, if l in answers then Record(before, l, answers[l]) else before)
  {
    assert forall m | m != l :: IsHit(db, done + {l}, answers, m) <==> IsHit(db, done, answers, m);
    assert !IsHit(db, done, answers, l);
    if IsHit(db, done + {l}, answers, l) {
      assert before.orders[l] == db.orders[l] && before.legs[l] == db.legs[l];
      RecordedHit(db, done, l, answers, before, Projected(db.orders[l].order, db.legs[l], answers[l]));
    }
  }

  lemma {:induction false} RecordedHit(
    db: Db, done: set<nat>, l: nat, answers: map<nat, Answer>, before: Db, row: (VenueOrder, LegStatus))
    requires Recorded(db, done, answers, before) && l !in done && IsHit(db, done + {l}, answers, l)
    requires row == Projected(db.orders[l].order, db.legs[l], answers[l])
    ensures Recorded(db, done + {l}, answers,
                     before.(orders := before.orders[l := before.orders[l].(order := row.0)],
                             legs := before.legs[l := before.legs[l].(status := row.1)],
                             events := before.events + {l}))
  {
    assert forall m | m != l :: IsHit(db, done + {l}, answers, m) <==> IsHit(db, done, answers, m);
    assert before.orders[l] == db.orders[l] && before.legs[l] == db.legs[l];
  }

  /** Recording one more answer after a set of answers. */
  lemma {:induction false} RecordOneMore(db: Db, done: set<nat>, l: nat, answers: map<nat, Answer>)
    requires l !in done
    ensures RecordAll(db, done + {l}, answers) ==
              if l in answers then Record(RecordAll(db, done, answers), l, answers[l]) else RecordAll(db, done, answers)
  {
    var before := RecordAll(db, done, answers);
    RecordAllRows(db, done, answers);
    RecordAllRows(db, done + {l}, answers);
    RecordedOneMore(db, done, l, answers, before);
    RecordedOnce(db, done + {l}, answers, RecordAll(db, done + {l}, answers),
                 if l in answers then Record(before, l, answers[l]) else before);
  }

  lemma {:induction false} RecordNone(db: Db, answers: map<nat, Answer>)
    ensures RecordAll(db, {}, answers) == db
  {
    assert RecordAll(db, {}, answers).orders == db.orders;
    assert RecordAll(db, {}, answers).legs == db.legs;
  }

  lemma {:induction false} NewLegsOneMore(first: nat, i: nat, plans: seq<Plan>, n: nat)
    requires n < |plans|
    ensures NewLegs(first, i, plans[..n + 1])
        == NewLegs(first, i, plans[..n])[first + n := Leg(i, plans[n].quantity, plans[n].mt5, LegPlanned)]
  {
    assert plans[..n + 1][..n] == plans[..n];
  }

  class ExecutionWorker {
    var intents: map<nat, Intent>
    var legs: map<nat, Leg>
    var outboxes: map<nat, Outbox>
    var orders: map<nat, OrderRow>
    var events: set<nat>
    var groups: map<nat, GroupStatus>
    var keys: map<string, nat>
    var nextIntent: nat
    var nextLeg: nat
    var nextOutbox: nat
    var claims: seq<Claim>
    var dispatch: Option<Dispatch>
    /** The calls of `submit_order` so far, and the intents that were rolled back. */
    ghost var submitted: seq<Submission>
    ghost var rolledBack: set<nat>

    function Tables(): Db
      reads this
    {
      Db(intents, legs, outboxes, orders, events, groups, keys, nextIntent, nextLeg, nextOutbox)
    }

    ghost function View(): State
      reads this
    {
      State(Tables(), Memory(claims, dispatch), submitted, rolledBack)
    }

    constructor ()
      ensures View() == START
    {
      intents, legs, outboxes, orders, events, groups, keys := map[], map[], map[], map[], {}, map[], map[];
      nextIntent, nextLeg, nextOutbox := 0, 0, 0;
      claims, dispatch, submitted, rolledBack := [], None, [], {};
    }

    // ---------------------------------------------------------------- creating rows

    method AddLegs(i: nat, plans: seq<Plan>, previous: Option<GroupStatus>, now: int)
      modifies this`legs, this`outboxes, this`nextLeg, this`nextOutbox
      ensures Tables() == AddCommand(old(Tables()), i, plans, previous, now)
    {
      var rows: map<nat, Leg> := map[];
      for n := 0 to |plans|
        invariant Tables() == old(Tables())
        invariant rows == NewLegs(nextLeg, i, plans[..n])
      {
        NewLegsOneMore(nextLeg, i, plans, n);
        rows := rows[nextLeg + n := Leg(i, plans[n].quantity, plans[n].mt5, LegPlanned)];
      }
      assert plans[..|plans|] == plans;
      assert rows == NewLegs(nextLeg, i, plans);
      legs := legs + rows;
      nextLeg := nextLeg + |plans|;
      outboxes := outboxes[nextOutbox := Outbox(i, Submit(rows.Keys), previous, OutboxPending, now, None, 0, now)];
      nextOutbox := nextOutbox + 1;
    }

    /** `create_execution_intent`: a known key returns the stored intent. */
    method CreateExecutionIntent(
      key: string, kind: IntentKind, maker: bool, group: Option<nat>, previous: Option<GroupStatus>,
      plans: seq<Plan>, now: int) returns (id: Option<nat>)
      modifies this`intents, this`legs, this`outboxes, this`groups, this`keys,
          this`nextIntent, this`nextLeg, this`nextOutbox
      ensures Tables() == CreateIntent(old(Tables()), key, kind, maker, group, previous, plans, now)
      ensures id == if key in keys then Some(keys[key]) else None
    {
      if key in keys {
        return Some(keys[key]);
      }
      if plans == [] {
        return None;
      }
      id := Some(nextIntent);
      intents := intents[nextIntent := Intent(kind, maker, Created, group, now)];
      keys := keys[key := nextIntent];
      if group.Some? {
        groups := groups[group.value := if kind.OpenIntent? then GroupOpening else GroupClosing];
      }
      nextIntent := nextIntent + 1;
      assert Tables() == AddIntentRow(old(Tables()), key, Intent(kind, maker, Created, group, now));
      AddLegs(nextIntent - 1, plans, previous, now);
    }

    // ---------------------------------------------------------------- repairs

    method CancelCommandsOf(i: nat) returns (previous: GroupStatus)
      requires forall o | o in outboxes :: o < nextOutbox
      modifies this`outboxes
      ensures outboxes == CancelCommands(old(outboxes), i)
      ensures previous == PreviousStatus(old(Tables()), i, nextOutbox)
    {
      previous := GroupOpen;
      for o := 0 to nextOutbox
        invariant outboxes.Keys == old(outboxes).Keys
        invariant forall p | p in outboxes ::
            outboxes[p] == if p < o then CancelCommands(old(outboxes), i)[p] else old(outboxes)[p]
        invariant previous == PreviousStatus(old(Tables()), i, o)
      {
        if o in outboxes && outboxes[o].intent == i {
          var candidate := if outboxes[o].previous.None? then GroupOpen else outboxes[o].previous.value;
          if candidate.GroupOpen? || candidate.GroupOpenPartial? {
            previous := candidate;
          }
          outboxes := outboxes[o := outboxes[o].(status := OutboxCanceled, lockedAt := None)];
        }
      }
    }

    method RollbackIntent(i: nat)
      requires i in intents && forall o | o in outboxes :: o < nextOutbox
      modifies this`intents, this`outboxes, this`groups
      ensures Tables() == Rollback(old(Tables()), i)
      ensures forall o | o in outboxes :: o < nextOutbox
    {
      var previous := CancelCommandsOf(i);
      intents := intents[i := intents[i].(status := FailedIntent)];
      var group := intents[i].group;
      if group.Some? && group.value in groups && groups[group.value].GroupClosing? {
        groups := groups[group.value := previous];
      }
    }

    method RepairStalePredispatchIntents(now: int)
      requires Idle(View().memory)
      requires forall o | o in outboxes :: o < nextOutbox
      modifies this`intents, this`outboxes, this`groups, this`rolledBack
      ensures Tables() == RollbackStale(old(Tables()), now, nextIntent)
      ensures rolledBack == old(rolledBack) + RolledBack(old(Tables()), now, nextIntent)
    {
      for i := 0 to nextIntent
        invariant forall o | o in outboxes :: o < nextOutbox
        invariant Tables() == RollbackStale(old(Tables()), now, i)
        invariant rolledBack == old(rolledBack) + RolledBack(old(Tables()), now, i)
      {
        if RollbackDue(Tables(), i, now) {
          RollbackIntent(i);
          rolledBack := rolledBack + {i};
        }
      }
    }

    method RepairStaleUnsentOutboxes(now: int)
      requires Idle(View().memory)
      modifies this`intents, this`outboxes
      ensures View() == Step(old(View()), RepairRequeue(now))
    {
      for o := 0 to nextOutbox
        invariant Tables() == RequeueUnsent(old(Tables()), now, o)
      {
        if RequeueDue(Tables(), o, now) {
          var i := outboxes[o].intent;
          outboxes := outboxes[o := outboxes[o].(status := OutboxPending, availableAt := now, lockedAt := None)];
          intents := intents[i := intents[i].(status := Running)];
        }
      }
    }

    // ---------------------------------------------------------------- claiming

    method ClaimOutboxes(now: int, timeout: int, limit: nat)
      requires Idle(Memory(claims, dispatch))
      modifies this`outboxes, this`claims
      ensures View() == Step(old(View()), ClaimBatch(now, timeout, limit))
    {
      claims := [];
      for o := 0 to nextOutbox
        invariant Batch(Tables(), claims) == ClaimBelow(old(Tables()), now, timeout, limit, o)
      {
        if |claims| < limit && o in outboxes && Claimable(outboxes[o], now, timeout) {
          claims := claims + [Claim(o, outboxes[o].status.OutboxProcessing?)];
          outboxes := outboxes[o := Claimed(outboxes[o], now)];
        }
      }
    }

    // ---------------------------------------------------------------- recording and finishing

    /** Applies one answer to the order and the leg, and stores its event. */
    method ApplyAnswer(l: nat, a: Answer)
      modifies this`orders, this`legs, this`events
      ensures Tables() == Record(old(Tables()), l, a)
    {
      if l in orders && l in legs {
        var (order, status) := Projected(orders[l].order, legs[l], a);
        orders := orders[l := orders[l].(order := order)];
        legs := legs[l := legs[l].(status := status)];
        events := events + {l};
      }
    }

    method ApplyAnswers(ids: set<nat>, answers: map<nat, Answer>)
      modifies this`orders, this`legs, this`events
      ensures Tables() == RecordAll(old(Tables()), ids, answers)
    {
      var left := ids;
      ghost var done: set<nat> := {};
      RecordNone(Tables(), answers);
      while left != {}
        invariant done + left == ids && done !! left
        invariant Tables() == RecordAll(old(Tables()), done, answers)
      {
        var l :| l in left;
        RecordOneMore(old(Tables()), done, l, answers);
        if l in answers {
          ApplyAnswer(l, answers[l]);
        }
        left, done := left - {l}, done + {l};
      }
      assert done == ids;
    }

    method FailOutbox(o: nat, status: IntentStatus)
      requires o in outboxes
      modifies this`outboxes, this`intents
      ensures Tables() == Fail(old(Tables()), o, status)
    {
      var i := outboxes[o].intent;
      outboxes := outboxes[o := outboxes[o].(status := OutboxFailed, lockedAt := None)];
      if i in intents {
        intents := intents[i := intents[i].(status := status)];
      }
    }

    method EnqueueExtra(i: nat, extra: Extra, now: int)
      requires i in intents
      modifies this`intents, this`legs, this`outboxes, this`orders, this`groups,
          this`keys, this`nextIntent, this`nextLeg, this`nextOutbox
      ensures Tables() == Extended(old(Tables()), i, extra, now)
    {
      match extra
      case Nothing =>
      case AddLeg(plan) =>
        if IsLive(intents[i].status) {
          AddLegs(i, [plan], None, now);
        }
      case AskCancel(l) =>
        if l in orders && l in legs {
          orders := orders[l := orders[l].(order := orders[l].order.(status := PendingCancel))];
          legs := legs[l := legs[l].(status := LegSubmitted)];
          outboxes := outboxes[nextOutbox := Outbox(i, CancelOrder(l), None, OutboxPending, now, None, 0, now)];
          nextOutbox := nextOutbox + 1;
        }
      case AddIntent(key, plan) =>
        var _ := CreateExecutionIntent(key, ProbeIntent, false, None, None, [plan], now);
    }

    /** `_finish_command`: the state machine decides for a driven intent, the legs decide otherwise. */
    method FinishCommand(o: nat, a: Advance, now: int)
      requires o in outboxes && outboxes[o].intent in intents
      modifies this`intents, this`legs, this`outboxes, this`orders, this`groups,
          this`keys, this`nextIntent, this`nextLeg, this`nextOutbox
      ensures Tables() == Finish(old(Tables()), o, a, now)
    {
      var i := outboxes[o].intent;
      var group, status := intents[i].group, a.groupStatus;
      if IsDriven(intents[i]) {
        if a.markSent && outboxes[o].status.OutboxProcessing? {
          outboxes := outboxes[o := outboxes[o].(status := OutboxSent, lockedAt := None)];
        }
        EnqueueExtra(i, a.extra, now);
        intents := intents[i := intents[i].(status := a.status)];
      } else {
        status := Some(ProjectedGroup(Tables(), i, intents[i].kind, outboxes[o].previous));
        var finished := FinishedStatus(Tables(), i);
        outboxes := outboxes[o := outboxes[o].(status := OutboxSent, lockedAt := None)];
        intents := intents[i := intents[i].(status := finished)];
      }
      if status.Some? && group.Some? && group.value in groups {
        groups := groups[group.value := status.value];
      }
    }

    // ---------------------------------------------------------------- processing a claim

    /** `_recover_without_resubmit`: only queries. */
    method RecoverWithoutResubmit(o: nat, ids: set<nat>, input: Input)
      requires o in outboxes && outboxes[o].intent in intents
      modifies this`intents, this`legs, this`outboxes, this`orders, this`events,
          this`groups, this`keys, this`nextIntent, this`nextLeg, this`nextOutbox
      ensures Tables() == Recover(old(Tables()), o, ids, input)
    {
      var missing := !(ids <= orders.Keys);
      var asked := Asked(Tables(), ids);
      var settled := Settled(asked, input.answers);
      ApplyAnswers(settled, input.answers);
      if missing || settled != asked {
        FailOutbox(o, RecoveryRequired);
      } else {
        FinishCommand(o, input.advance, input.now);
      }
    }

    method ProcessCancelClaim(o: nat, l: nat, recoveryOnly: bool, input: Input)
      requires o in outboxes && outboxes[o].intent in intents
      modifies this`intents, this`legs, this`outboxes, this`orders, this`events,
          this`groups, this`keys, this`nextIntent, this`nextLeg, this`nextOutbox
      ensures Tables() == ProcessCancel(old(Tables()), o, l, recoveryOnly, input)
    {
      var i := outboxes[o].intent;
      if l !in legs || l !in orders {
        FailOutbox(o, FailedIntent);
      } else if recoveryOnly {
        if l in input.answers && input.answers[l].Reported? && !IsOpenReport(input.answers[l].report.status) {
          ApplyAnswer(l, input.answers[l]);
          outboxes := outboxes[o := outboxes[o].(status := OutboxSent, lockedAt := None)];
          FinishCommand(o, input.advance, input.now);
        } else {
          intents := intents[i := intents[i].(status := RecoveryRequired)];
        }
      } else {
        match input.cancel {
          case CancelRaised => intents := intents[i := intents[i].(status := RecoveryRequired)];
          case CancelRefused => FailOutbox(o, RecoveryRequired);
          case CancelTaken =>
            orders := orders[l := orders[l].(order := orders[l].order.(status := PendingCancel))];
            outboxes := outboxes[o := outboxes[o].(status := OutboxSent, lockedAt := None)];
            intents := intents[i := intents[i].(status := Running)];
        }
      }
    }

    /** Stores an order for each leg that has none, each under its own client id. */
    method EnsureVenueOrders(i: nat, ids: set<nat>)
      modifies this`orders
      ensures orders == EnsureOrders(old(Tables()), i, ids)
    {
      var left := ids;
      ghost var done: set<nat> := {};
      assert orders == EnsureOrders(Tables(), i, {});
      while left != {}
        invariant done + left == ids && done !! left
        invariant orders == EnsureOrders(old(Tables()), i, done)
      {
        var l :| l in left;
        if l !in orders {
          orders := orders[l := OrderRow(ClientId(i, l), NewOrder(if l in legs then legs[l].quantity else 0.0))];
        }
        left, done := left - {l}, done + {l};
      }
      assert done == ids;
    }

    method StartDispatch(o: nat, i: nat, ids: set<nat>)
      requires i in intents
      modifies this`orders, this`intents, this`dispatch
      ensures Tables() == WithIntentStatus(old(Tables()).(orders := EnsureOrders(old(Tables()), i, ids)), i, Running)
      ensures dispatch == Some(Dispatch(o, ids, ids))
    {
      EnsureVenueOrders(i, ids);
      intents := intents[i := intents[i].(status := Running)];
      dispatch := Some(Dispatch(o, ids, ids));
    }

    /** The first transaction of `_process_claim` for the claim at the head of the batch. */
    method ProcessHead(input: Input)
      requires dispatch.None? && claims != []
      modifies this
      ensures (Tables(), dispatch) == ProcessClaim(old(Tables()), old(claims[0]), input)
      ensures claims == old(claims[1..]) && submitted == old(submitted) && rolledBack == old(rolledBack)
    {
      var c := claims[0];
      claims := claims[1..];
      if c.outbox !in outboxes || !outboxes[c.outbox].status.OutboxProcessing? {
        return;
      }
      var o := outboxes[c.outbox];
      if o.intent !in intents {
        FailOutbox(c.outbox, FailedIntent);
      } else if o.command.CancelOrder? {
        ProcessCancelClaim(c.outbox, o.command.leg, c.recoveryOnly, input);
      } else {
        var ids := CommandLegs(Tables(), o);
        if ids == {} {
          FailOutbox(c.outbox, FailedIntent);
        } else if c.recoveryOnly {
          RecoverWithoutResubmit(c.outbox, ids, input);
        } else if input.blockedFor.Some? {
          outboxes := outboxes[c.outbox :=
            o.(status := OutboxPending, lockedAt := None, availableAt := input.now + input.blockedFor.value)];
        } else {
          StartDispatch(c.outbox, o.intent, ids);
        }
      }
    }

    /** One call of `submit_order`, under the stored client id. */
    method SubmitNext(l: nat) returns (clientId: string)
      requires Enabled(View(), SubmitOne(l))
      modifies this`dispatch, this`submitted
      ensures View() == Step(old(View()), SubmitOne(l))
      ensures clientId == orders[l].clientId
    {
      clientId := orders[l].clientId;
      dispatch := Some(dispatch.value.(waiting := dispatch.value.waiting - {l}));
      submitted := submitted + [Submission(l, clientId)];
    }

    /** The second transaction of `_process_claim`. */
    method ConcludeClaim(answers: map<nat, Answer>, a: Advance, now: int)
      requires dispatch.Some?
      modifies this`intents, this`legs, this`outboxes, this`orders, this`events,
          this`groups, this`keys, this`nextIntent, this`nextLeg, this`nextOutbox, this`dispatch
      ensures Tables() == Conclude(old(Tables()), old(dispatch.value), answers, a, now) && dispatch.None?
    {
      var d := dispatch.value;
      dispatch := None;
      if d.outbox in outboxes && outboxes[d.outbox].intent in intents {
        ApplyAnswers(d.legs, answers);
        if exists l | l in d.legs :: l in answers && answers[l] == Raised(true) {
          outboxes := outboxes[d.outbox := outboxes[d.outbox].(status := OutboxProcessing, lockedAt := Some(now))];
          var i := outboxes[d.outbox].intent;
          intents := intents[i := intents[i].(status := RecoveryRequired)];
        } else {
          FinishCommand(d.outbox, a, now);
        }
      }
    }

    method Restart()
      modifies this`claims, this`dispatch
      ensures View() == Step(old(View()), Crash)
    {
      claims, dispatch := [], None;
    }
  }
}
