/** What holds over every run of the outbox worker, with crashes at any point. */
module OutboxSafety {
  import opened Common
  import opened Orders
  import opened Lifecycle
  import opened Outbox
  import opened OutboxRuns
  import opened OutboxSteps
  import opened OutboxGrowth

  // ------------------------------------------------------------------ client ids

  predicate NoDash(s: string) {
    forall k | 0 <= k < |s| :: s[k] != '-'
  }

  lemma {:induction false} DigitsHaveNoDash(n: nat)
    ensures NoDash(NatToString(n))
  {
    if n >= 10 {
      DigitsHaveNoDash(n / 10);
    }
  }

  function FirstDash(s: string): nat {
    if s == "" || s[0] == '-' then 0 else 1 + FirstDash(s[1..])
  }

  lemma {:induction false} FirstDashAfter(a: string, b: string)
    requires NoDash(a)
    ensures FirstDash(a + "-" + b) == |a|
  {
    if a != "" {
      assert (a + "-" + b)[1..] == a[1..] + "-" + b;
      FirstDashAfter(a[1..], b);
    }
  }

  lemma {:induction false} SplitIsUnique(a: string, b: string, c: string, d: string)
    requires NoDash(a) && NoDash(c) && a + "-" + b == c + "-" + d
    ensures a == c && b == d
  {
    var s, t := a + "-" + b, c + "-" + d;
    FirstDashAfter(a, b);
    FirstDashAfter(c, d);
    assert a == s[..|a|] == t[..|c|] == c;
    assert b == s[|a| + 1..] == t[|c| + 1..] == d;
  }

  /** The client order id determines the intent and the leg. */
  lemma {:induction false} ClientIdInjective(i: nat, l: nat, j: nat, m: nat)
    requires ClientId(i, l) == ClientId(j, m)
    ensures i == j && l == m
  {
    DigitsHaveNoDash(i);
    DigitsHaveNoDash(j);
    var a := NatToString(i) + "-" + NatToString(l);
    var b := NatToString(j) + "-" + NatToString(m);
    assert ClientId(i, l) == "CH-" + a && ClientId(j, m) == "CH-" + b;
    assert a == ClientId(i, l)[3..] == ClientId(j, m)[3..] == b;
    SplitIsUnique(NatToString(i), NatToString(l), NatToString(j), NatToString(m));
    NatToStringInjective(i, j);
    NatToStringInjective(l, m);
  }

  // ------------------------------------------------------------------ submissions

  /**
   Over every run, no leg is submitted twice, each submission carries the client id stored for its leg,
   and different submissions carry different client ids.
   */
  lemma {:induction false} NeverSubmitTwice(actions: seq<Action>)
    requires Possible(START, actions)
    ensures var t := Run(START, actions);
            && (forall j, k | 0 <= j < k < |t.submitted| ::
                  t.submitted[j].leg != t.submitted[k].leg && t.submitted[j].clientId != t.submitted[k].clientId)
            && (forall k | 0 <= k < |t.submitted| ::
                  var l := t.submitted[k].leg;
                  l in t.db.legs && l in t.db.orders && t.db.orders[l].clientId == t.submitted[k].clientId
                  && t.submitted[k].clientId == ClientId(t.db.legs[l].intent, l))
  {
    StartInv();
    RunKeeps(START, actions);
    SubmissionsDiffer(Run(START, actions));
  }

  lemma {:induction false} SubmissionsDiffer(t: State)
    requires Inv(t)
    ensures forall j, k | 0 <= j < k < |t.submitted| ::
              t.submitted[j].leg != t.submitted[k].leg && t.submitted[j].clientId != t.submitted[k].clientId
    ensures forall k | 0 <= k < |t.submitted| ::
              var l := t.submitted[k].leg;
              l in t.db.legs && l in t.db.orders && t.db.orders[l].clientId == t.submitted[k].clientId
              && t.submitted[k].clientId == ClientId(t.db.legs[l].intent, l)
  {
    forall j, k | 0 <= j < k < |t.submitted|
      ensures t.submitted[j].leg != t.submitted[k].leg && t.submitted[j].clientId != t.submitted[k].clientId
    {
      var l, m := t.submitted[j].leg, t.submitted[k].leg;
      if t.submitted[j].clientId == t.submitted[k].clientId {
        ClientIdInjective(t.db.legs[l].intent, l, t.db.legs[m].intent, m);
      }
    }
  }

  /** The order a submission needs is always stored before it: the worker never waits on a leg without one. */
  lemma {:induction false} StoredBeforeSubmitted(actions: seq<Action>, l: nat)
    requires Possible(START, actions)
    requires var t := Run(START, actions); t.memory.dispatch.Some? && l in t.memory.dispatch.value.waiting
    ensures var t := Run(START, actions);
            l in t.db.orders && !WasSubmitted(t.submitted, l) && Enabled(t, SubmitOne(l))
  {
    StartInv();
    RunKeeps(START, actions);
  }

  // ------------------------------------------------------------------ whole runs in two parts

  lemma {:induction false} RunSplit(s: State, before: seq<Action>, after: seq<Action>)
    requires Possible(s, before + after)
    ensures Possible(s, before) && Possible(Run(s, before), after)
    ensures Run(s, before + after) == Run(Run(s, before), after)
    decreases |before|
  {
    if before == [] {
      assert before + after == after;
    } else {
      assert (before + after)[0] == before[0] && (before + after)[1..] == before[1..] + after;
      RunSplit(Step(s, before[0]), before[1..], after);
    }
  }

  lemma {:induction false} RunInvGrows(before: seq<Action>, after: seq<Action>)
    requires Possible(START, before + after)
    ensures Possible(START, before) && Inv(Run(START, before)) && Inv(Run(START, before + after))
    ensures Grows(Run(START, before), Run(START, before + after))
  {
    StartInv();
    RunSplit(START, before, after);
    RunKeeps(START, before);
    RunKeeps(START, before + after);
    RunGrows(Run(START, before), after);
  }

  /**
   What later steps never take back: an idempotency key keeps its intent, a stored order keeps its client id
   and requested quantity, and its filled quantity never decreases.
   */
  lemma {:induction false} NothingIsTakenBack(before: seq<Action>, after: seq<Action>)
    requires Possible(START, before + after)
    ensures Possible(START, before)
    ensures var s, t := Run(START, before), Run(START, before + after);
            && (forall k | k in s.db.keys :: k in t.db.keys && t.db.keys[k] == s.db.keys[k])
            && (forall l | l in s.db.orders ::
                  l in t.db.orders && t.db.orders[l].clientId == s.db.orders[l].clientId
                  && t.db.orders[l].order.filled >= s.db.orders[l].order.filled)
            && |s.submitted| <= |t.submitted| && t.submitted[..|s.submitted|] == s.submitted
  {
    RunInvGrows(before, after);
  }

  /** Two idempotency keys never share an intent, and repeating a key creates nothing. */
  lemma {:induction false} KeysAreIdempotent(actions: seq<Action>, key: string, kind: IntentKind, maker: bool,
    group: Option<nat>, previous: Option<GroupStatus>, plans: seq<Plan>, now: int)
    requires Possible(START, actions)
    ensures var db := Run(START, actions).db;
            && (forall k, k' | k in db.keys && k' in db.keys && db.keys[k] == db.keys[k'] :: k == k')
            && (key in db.keys ==> CreateIntent(db, key, kind, maker, group, previous, plans, now) == db)
            && (key !in db.keys && plans != [] ==>
                  var db' := CreateIntent(db, key, kind, maker, group, previous, plans, now);
                  key in db'.keys && db'.keys[key] in db'.intents && db'.keys[key] !in db.intents)
  {
    StartInv();
    RunKeeps(START, actions);
  }

  // ------------------------------------------------------------------ the repairs

  /** A command goes from sent back to pending only if none of its legs was ever submitted. */
  lemma {:induction false} RequeuedWasNeverSubmitted(actions: seq<Action>, now: int, o: nat, l: nat)
    requires Possible(START, actions + [RepairRequeue(now)])
    ensures Possible(START, actions)
    ensures var s, t := Run(START, actions), Run(START, actions + [RepairRequeue(now)]);
            o in s.db.outboxes && o in t.db.outboxes && s.db.outboxes[o].status.OutboxSent?
            && t.db.outboxes[o].status.OutboxPending? && l in Ids(s.db.outboxes[o].command)
            ==> !WasSubmitted(t.submitted, l) && l !in t.db.orders
  {
    RunInvGrows(actions, [RepairRequeue(now)]);
    RunSplit(START, actions, [RepairRequeue(now)]);
    var s := Run(START, actions);
    var t := Step(s, RepairRequeue(now));
    assert Run(s, [RepairRequeue(now)]) == t by {
      assert Run(t, []) == t;
      assert [RepairRequeue(now)][1..] == [];
    }
    if o in s.db.outboxes {
      RequeueIsExact(s.db, now, s.db.nextOutbox, o);
    }
    RequeueKeepsOrders(s.db, now, s.db.nextOutbox);
  }

  lemma {:induction false} RequeueKeepsOrders(db: Db, now: int, n: nat)
    ensures RequeueUnsent(db, now, n).orders == db.orders
    ensures RequeueUnsent(db, now, n).legs == db.legs
    ensures RequeueUnsent(db, now, n).events == db.events
    ensures RequeueUnsent(db, now, n).outboxes.Keys == db.outboxes.Keys
    ensures forall o | o in db.outboxes ::
              var p, q := db.outboxes[o], RequeueUnsent(db, now, n).outboxes[o];
              p == q || (q.command == p.command && q.intent == p.intent
                && q.createdAt == p.createdAt && q.status.OutboxPending?)
  {
    if n != 0 {
      RequeueKeepsOrders(db, now, n - 1);
    }
  }

  /** The repair changes a command only when all its legs are untouched, and then makes it pending. */
  lemma {:induction false} RequeueIsExact(db: Db, now: int, n: nat, o: nat)
    requires o in db.outboxes
    ensures o in RequeueUnsent(db, now, n).outboxes
    ensures RequeueUnsent(db, now, n).outboxes[o] ==
              if o < n && RequeueDue(db, o, now)
              then db.outboxes[o].(status := OutboxPending, availableAt := now, lockedAt := None)
              else db.outboxes[o]
    ensures RequeueUnsent(db, now, n).outboxes[o] != db.outboxes[o] <==> o < n && RequeueDue(db, o, now)
    ensures RequeueUnsent(db, now, n).outboxes[o] != db.outboxes[o] ==>
              db.outboxes[o].status.OutboxSent? && Untouched(db, Ids(db.outboxes[o].command))
              && RequeueUnsent(db, now, n).outboxes[o].status.OutboxPending?
  {
    if n != 0 {
      RequeueIsExact(db, now, n - 1, o);
      if n - 1 in db.outboxes {
        RequeueIsExact(db, now, n - 1, n - 1);
      }
      RequeueKeepsOrders(db, now, n - 1);
      RequeueKeepsDue(db, now, n - 1, n - 1);
    }
  }

  /** Requeuing earlier rows leaves a later row due or not, as it was. */
  lemma {:induction false} RequeueKeepsDue(db: Db, now: int, n: nat, o: nat)
    requires o in db.outboxes ==> o in RequeueUnsent(db, now, n).outboxes
                                  && RequeueUnsent(db, now, n).outboxes[o] == db.outboxes[o]
    ensures RequeueDue(RequeueUnsent(db, now, n), o, now) <==> RequeueDue(db, o, now)
  {
    RequeueKeepsOrders(db, now, n);
    RequeueKeepsRepairable(db, now, n);
    if o in db.outboxes {
      assert Untouched(RequeueUnsent(db, now, n), Ids(db.outboxes[o].command)) <==>
          Untouched(db, Ids(db.outboxes[o].command));
    }
  }

  /** The repair leaves every intent running, if it was running or in recovery, and otherwise as it was. */
  lemma {:induction false} RequeueKeepsRepairable(db: Db, now: int, n: nat)
    ensures RequeueUnsent(db, now, n).intents.Keys == db.intents.Keys
    ensures forall i | i in db.intents ::
              var was, now' := db.intents[i].status, RequeueUnsent(db, now, n).intents[i].status;
              now' == was || (now'.Running? && (was.Running? || was.RecoveryRequired?))
  {
    if n != 0 {
      RequeueKeepsRepairable(db, now, n - 1);
    }
  }

  /**
   A rolled-back intent was never submitted and never will be, whatever happens after the rollback;
   it stays failed and all its commands stay canceled.
   */
  lemma {:induction false} RolledBackIsNeverSubmitted(before: seq<Action>, after: seq<Action>, i: nat)
    requires Possible(START, before + after)
    ensures Possible(START, before)
    ensures i in Run(START, before).rolledBack ==>
              var t := Run(START, before + after);
              && i in t.db.intents && t.db.intents[i].status.FailedIntent?
              && (forall o | o in t.db.outboxes && t.db.outboxes[o].intent == i ::
                t.db.outboxes[o].status.OutboxCanceled?)
              && (forall k | 0 <= k < |t.submitted| ::
                    t.submitted[k].leg in t.db.legs && t.db.legs[t.submitted[k].leg].intent != i)
  {
    RunInvGrows(before, after);
    var t := Run(START, before + after);
    if i in Run(START, before).rolledBack {
      assert i in t.rolledBack;
      NoSubmissionOf(t, i);
    }
  }

  lemma {:induction false} NoSubmissionOf(t: State, i: nat)
    requires Inv(t) && i in t.rolledBack
    ensures forall k | 0 <= k < |t.submitted| ::
              t.submitted[k].leg in t.db.legs && t.db.legs[t.submitted[k].leg].intent != i
  {
    forall k | 0 <= k < |t.submitted|
      ensures t.submitted[k].leg in t.db.legs && t.db.legs[t.submitted[k].leg].intent != i
    {
      var l := t.submitted[k].leg;
      assert t.db.legs[l].intent == i ==> l in LegsOf(t.db, i);
    }
  }

  /**
   The rollback repair settles every group: the group of a rolled-back intent is no longer closing, and a
   group that changed was closing and is now open or partly open.
   */
  lemma {:induction false} RollbackRestoresGroups(db: Db, now: int, n: nat)
    ensures var db' := RollbackStale(db, now, n);
            && db'.groups.Keys == db.groups.Keys
            && (forall g | g in db.groups && db'.groups[g] != db.groups[g] ::
                  db.groups[g].GroupClosing? && (db'.groups[g].GroupOpen? || db'.groups[g].GroupOpenPartial?))
            && (forall i | i in RolledBack(db, now, n) && i in db'.intents && db'.intents[i].group.Some?
                           && db'.intents[i].group.value in db.groups ::
                  !db'.groups[db'.intents[i].group.value].GroupClosing?)
  {
    if n != 0 {
      RollbackRestoresGroups(db, now, n - 1);
      RolledBackBelow(db, now, n - 1);
    }
  }

  lemma {:induction false} RolledBackBelow(db: Db, now: int, n: nat)
    ensures forall i | i in RolledBack(db, now, n) :: i < n
  {
    if n != 0 {
      RolledBackBelow(db, now, n - 1);
    }
  }

  /**
   Rolling back undoes the request to close: the group gets back the status it had, the intent is failed,
   and only the command that was created with it is canceled.
   */
  lemma {:induction false} RollbackUndoesClose(db: Db, key: string, g: nat, maker: bool, plans: seq<Plan>, now: int)
    requires DbInv(db) && key !in db.keys && plans != []
    requires g in db.groups && (db.groups[g].GroupOpen? || db.groups[g].GroupOpenPartial?)
    ensures var i, closing := db.nextIntent,
              CreateIntent(db, key, CloseIntent, maker, Some(g), Some(db.groups[g]), plans, now);
            && i in closing.intents && closing.groups[g].GroupClosing?
            && (forall later | now + STALE_AFTER <= later :: RollbackDue(closing, i, later))
            && Rollback(closing, i).groups == db.groups
            && Rollback(closing, i).intents[i].status.FailedIntent?
            && (forall o | o in db.outboxes :: Rollback(closing, i).outboxes[o] == db.outboxes[o])
  {
    CloseRestored(db, key, g, maker, plans, now);
    CloseIsDue(db, key, g, maker, plans, now);
  }

  lemma {:induction false} CloseRestored(db: Db, key: string, g: nat, maker: bool, plans: seq<Plan>, now: int)
    requires WellFormed(db) && key !in db.keys && plans != []
    requires g in db.groups && (db.groups[g].GroupOpen? || db.groups[g].GroupOpenPartial?)
    ensures var i, closing := db.nextIntent,
              CreateIntent(db, key, CloseIntent, maker, Some(g), Some(db.groups[g]), plans, now);
            && i in closing.intents && closing.groups[g].GroupClosing?
            && Rollback(closing, i).groups == db.groups
            && Rollback(closing, i).intents[i].status.FailedIntent?
            && (forall o | o in db.outboxes :: Rollback(closing, i).outboxes[o] == db.outboxes[o])
  {
    var i := db.nextIntent;
    var closing := CreateIntent(db, key, CloseIntent, maker, Some(g), Some(db.groups[g]), plans, now);
    assert closing.groups == db.groups[g := GroupClosing];
    assert PreviousStatus(closing, i, closing.nextOutbox) == db.groups[g] by {
      assert closing.outboxes[closing.nextOutbox - 1].previous == Some(db.groups[g]);
    }
    assert Rollback(closing, i).groups == db.groups;
  }

  lemma {:induction false} CloseIsDue(db: Db, key: string, g: nat, maker: bool, plans: seq<Plan>, now: int)
    requires WellFormed(db) && OrdersOk(db) && key !in db.keys && plans != [] && g in db.groups
    ensures var i, closing := db.nextIntent,
              CreateIntent(db, key, CloseIntent, maker, Some(g), Some(db.groups[g]), plans, now);
            forall later | now + STALE_AFTER <= later :: RollbackDue(closing, i, later)
  {
    var closing := CreateIntent(db, key, CloseIntent, maker, Some(g), Some(db.groups[g]), plans, now);
    assert db.nextLeg in LegsOf(closing, db.nextIntent);
    assert Untouched(closing, LegsOf(closing, db.nextIntent));
  }

  // ------------------------------------------------------------------ the market gate

  /**
   In every run, when the market gate sends the next command back, none of its legs was ever submitted or has an
   order, before or after; nothing else changes; and it can be claimed again, as fresh, exactly when the delay is
   over.
   */
  lemma {:induction false} GateOnlyPostpones(actions: seq<Action>, input: Input, now: int, timeout: int)
    requires Possible(START, actions)
    requires var s := Run(START, actions);
             && s.memory.dispatch.None? && s.memory.claims != [] && input.blockedFor.Some?
             && var c := s.memory.claims[0];
                c.outbox in s.db.outboxes && !c.recoveryOnly && s.db.outboxes[c.outbox].command.Submit?
                && s.db.outboxes[c.outbox].status.OutboxProcessing?
    ensures var s := Run(START, actions);
            var o := s.memory.claims[0].outbox;
            var (db', dispatch) := ProcessClaim(s.db, s.memory.claims[0], input);
            && dispatch.None? && db' == s.db.(outboxes := db'.outboxes)
            && (forall p | p in s.db.outboxes && p != o :: p in db'.outboxes && db'.outboxes[p] == s.db.outboxes[p])
            && (forall l | l in s.db.outboxes[o].command.legs :: l !in db'.orders && !WasSubmitted(s.submitted, l))
            && o in db'.outboxes && db'.outboxes[o].status.OutboxPending?
            && (Claimable(db'.outboxes[o], now, timeout) <==> input.now + input.blockedFor.value <= now)
  {
    StartInv();
    RunKeeps(START, actions);
    var s := Run(START, actions);
    assert FreshOk(s.db, s.memory.claims[0]);
    GatedUnsent(s, s.memory.claims[0], input);
  }

  lemma {:induction false} GatedUnsent(s: State, c: Claim, input: Input)
    requires Inv(s) && FreshOk(s.db, c) && !c.recoveryOnly && input.blockedFor.Some?
    requires s.db.outboxes[c.outbox].status.OutboxProcessing? && s.db.outboxes[c.outbox].command.Submit?
    ensures ProcessClaim(s.db, c, input) == (Gated(s.db, c.outbox, input.now + input.blockedFor.value), None)
    ensures forall l | l in s.db.outboxes[c.outbox].command.legs :: l !in s.db.orders && !WasSubmitted(s.submitted, l)
  {
    GatedOutcome(s.db, c, input);
    assert Unsent(s.db, c.outbox);
  }

  /** A command that is claimed again after a crash only asks the venue: it never starts a dispatch. */
  lemma {:induction false} ReclaimOnlyQueries(db: Db, c: Claim, input: Input)
    requires DbInv(db) && c.recoveryOnly
    ensures ProcessClaim(db, c, input).1.None?
    ensures forall l | l in ProcessClaim(db, c, input).0.orders :: l in db.orders
  {
    if c.outbox in db.outboxes && db.outboxes[c.outbox].status.OutboxProcessing?
      && db.outboxes[c.outbox].command.Submit? {
      SubmitBranches(db, c, input);
      RecoverAddsNoOrder(db, c.outbox, CommandLegs(db, db.outboxes[c.outbox]), input);
    } else if c.outbox in db.outboxes && db.outboxes[c.outbox].status.OutboxProcessing? {
      CancelAddsNoOrder(db, c.outbox, db.outboxes[c.outbox].command.leg, input);
    }
  }

  /** A leg that recovery cannot settle: it has no order, or its open order has no usable answer. */
  predicate Unsettled(db: Db, l: nat, answers: map<nat, Answer>) {
    l !in db.orders || (IsNonTerminal(db.orders[l].order.status) && !Resolves(answers, l))
  }

  /**
   A submit command that is claimed again after a crash ends failed, with its intent in recovery, if and only if
   some leg has no stored order or an open order without a usable answer. So a claim that was lost before its
   orders were stored is failed, not submitted.
   */
  lemma {:induction false} RecoveredClaimFailsIff(db: Db, c: Claim, input: Input)
    requires DbInv(db) && c.recoveryOnly && c.outbox in db.outboxes && db.outboxes[c.outbox].status.OutboxProcessing?
    requires db.outboxes[c.outbox].command.Submit?
    ensures var db', i := ProcessClaim(db, c, input).0, db.outboxes[c.outbox].intent;
            var unsettled := exists l :: l in CommandLegs(db, db.outboxes[c.outbox]) && Unsettled(db, l, input.answers);
            && c.outbox in db'.outboxes && i in db'.intents
            && (db'.outboxes[c.outbox].status.OutboxFailed? <==> unsettled)
            && (unsettled ==> db'.intents[i].status.RecoveryRequired?)
  {
    var legs := CommandLegs(db, db.outboxes[c.outbox]);
    CommandHasLegs(db, c.outbox);
    SubmitBranches(db, c, input);
    var asked := Asked(db, legs);
    var recorded := RecordAll(db, Settled(asked, input.answers), input.answers);
    SettledAll(db, legs, input.answers);
    QuietRecordAll(db, Settled(asked, input.answers), input.answers, db.outboxes[c.outbox].intent);
    FinishNotFailed(recorded, c.outbox, input.advance, input.now);
  }

  lemma {:induction false} SettledAll(db: Db, legs: set<nat>, answers: map<nat, Answer>)
    ensures !(legs <= db.orders.Keys) || Settled(Asked(db, legs), answers) != Asked(db, legs)
            <==> exists l :: l in legs && Unsettled(db, l, answers)
  {
    if legs <= db.orders.Keys && Settled(Asked(db, legs), answers) == Asked(db, legs) {
      forall l | l in legs
        ensures !Unsettled(db, l, answers)
      {
        assert IsNonTerminal(db.orders[l].order.status) ==> l in Asked(db, legs);
      }
    }
  }

  /** Finishing a command that is being processed never fails it. */
  lemma {:induction false} FinishNotFailed(db: Db, o: nat, a: Advance, now: int)
    requires o in db.outboxes && db.outboxes[o].intent in db.intents && o < db.nextOutbox
    requires db.outboxes[o].status.OutboxProcessing?
    ensures o in Finish(db, o, a, now).outboxes && !Finish(db, o, a, now).outboxes[o].status.OutboxFailed?
    ensures db.outboxes[o].intent in Finish(db, o, a, now).intents
  {
    ExtendedKeepsRow(MarkedSent(db, o, a), db.outboxes[o].intent, a.extra, now, o);
  }

  lemma {:induction false} ExtendedKeepsRow(db: Db, i: nat, extra: Extra, now: int, o: nat)
    requires i in db.intents && o in db.outboxes && o < db.nextOutbox
    ensures o in Extended(db, i, extra, now).outboxes && Extended(db, i, extra, now).outboxes[o] == db.outboxes[o]
  {
  }

  lemma {:induction false} ExtendedAddsNoOrder(db: Db, i: nat, extra: Extra, now: int)
    requires i in db.intents
    ensures Extended(db, i, extra, now).orders.Keys == db.orders.Keys
  {
  }

  lemma {:induction false} FinishAddsNoOrder(db: Db, o: nat, a: Advance, now: int)
    requires o in db.outboxes && db.outboxes[o].intent in db.intents
    ensures Finish(db, o, a, now).orders.Keys == db.orders.Keys
  {
    ExtendedAddsNoOrder(MarkedSent(db, o, a), db.outboxes[o].intent, a.extra, now);
  }

  lemma {:induction false} RecoverAddsNoOrder(db: Db, o: nat, legs: set<nat>, input: Input)
    requires o in db.outboxes && db.outboxes[o].intent in db.intents
    ensures Recover(db, o, legs, input).orders.Keys == db.orders.Keys
  {
    FinishAddsNoOrder(RecordAll(db, Settled(Asked(db, legs), input.answers), input.answers),
      o, input.advance, input.now);
  }

  lemma {:induction false} CancelAddsNoOrder(db: Db, o: nat, l: nat, input: Input)
    requires o in db.outboxes && db.outboxes[o].intent in db.intents
    ensures ProcessCancel(db, o, l, true, input).orders.Keys == db.orders.Keys
  {
    if l in db.legs && l in db.orders && l in input.answers && input.answers[l].Reported? {
      var sent := WithOutboxStatus(Record(db, l, input.answers[l]), o, OutboxSent, None);
      FinishAddsNoOrder(sent, o, input.advance, input.now);
    }
  }
}
