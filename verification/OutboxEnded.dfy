/**
 Commands of intents that are over: the worker does not look at an intent's status before it submits, and
 nothing cancels the commands of a superseded intent.
 */
module OutboxEnded {
  import opened Common
  import opened Lifecycle
  import opened Outbox
  import opened OutboxRuns
  import opened OutboxSteps
  import opened OutboxGrowth
  import opened OutboxSafety

  predicate Ended(db: Db, i: nat) {
    i in db.intents && !IsLive(db.intents[i].status)
  }

  /** The intent is over in every state of the run, from its start to its end. */
  predicate EndedThroughout(s: State, actions: seq<Action>, i: nat)
    requires Possible(s, actions)
    decreases |actions|
  {
    Ended(s.db, i) && (actions == [] || EndedThroughout(Step(s, actions[0]), actions[1..], i))
  }

  /** A submit command of the intent that is not claimed yet. */
  predicate Waits(rows: map<nat, Outbox>, i: nat, o: nat) {
    o in rows && rows[o].intent == i && rows[o].command.Submit? && rows[o].status.OutboxPending?
  }

  /** The worker processes its next claim and goes on to submit a leg of the intent. */
  predicate Submits(s: State, i: nat, input: Input, l: nat) {
    && Enabled(s, Process(input)) && Enabled(Step(s, Process(input)), SubmitOne(l))
    && l in s.db.legs && s.db.legs[l].intent == i
  }

  // ------------------------------------------------------------------ one claim

  /** The claim is for a submit command of the intent, and no recovery. */
  predicate FreshFor(db: Db, c: Claim, i: nat) {
    c.outbox in db.outboxes && db.outboxes[c.outbox].intent == i && db.outboxes[c.outbox].command.Submit?
    && !c.recoveryOnly
  }

  lemma {:induction false} DispatchIff(db: Db, c: Claim, input: Input)
    requires DbInv(db)
    ensures var d := ProcessClaim(db, c, input).1;
            && (d.Some? <==>
                  c.outbox in db.outboxes && FreshFor(db, c, db.outboxes[c.outbox].intent)
                  && db.outboxes[c.outbox].status.OutboxProcessing? && input.blockedFor.None?)
            && (d.Some? ==>
                  var legs := CommandLegs(db, db.outboxes[c.outbox]);
                  legs != {} && d == Some(Dispatch(c.outbox, legs, legs))
                  && legs <= ProcessClaim(db, c, input).0.orders.Keys)
  {
    if c.outbox in db.outboxes && db.outboxes[c.outbox].command.Submit? {
      CommandHasLegs(db, c.outbox);
    }
  }

  /**
   In every reachable state the next claim leads to a submission for an intent if and only if it is a fresh
   claim of a submit command of that intent, still being processed, and the market gate lets it through. The
   status of the intent, superseded or not, plays no part.
   */
  lemma {:induction false} ClaimSubmitsIff(s: State, i: nat, input: Input)
    requires Inv(s) && Enabled(s, Process(input))
    ensures (exists l :: Submits(s, i, input, l)) <==>
              var c := s.memory.claims[0];
              && FreshFor(s.db, c, i) && s.db.outboxes[c.outbox].status.OutboxProcessing? && input.blockedFor.None?
  {
    var c := s.memory.claims[0];
    DispatchIff(s.db, c, input);
    if FreshFor(s.db, c, i) && s.db.outboxes[c.outbox].status.OutboxProcessing? && input.blockedFor.None? {
      DispatchSubmits(s, i, input);
    }
  }

  lemma {:induction false} DispatchSubmits(s: State, i: nat, input: Input)
    requires Enabled(s, Process(input)) && FreshFor(s.db, s.memory.claims[0], i)
    requires var legs := CommandLegs(s.db, s.db.outboxes[s.memory.claims[0].outbox]);
             && legs != {} && legs <= ProcessClaim(s.db, s.memory.claims[0], input).0.orders.Keys
             && ProcessClaim(s.db, s.memory.claims[0], input).1 == Some(Dispatch(s.memory.claims[0].outbox, legs, legs))
    ensures exists l :: Submits(s, i, input, l)
  {
    var l :| l in CommandLegs(s.db, s.db.outboxes[s.memory.claims[0].outbox]);
    assert Submits(s, i, input, l);
  }

  // ------------------------------------------------------------------ no submission without a waiting command

  ghost predicate NoMoreWaiting(rows: map<nat, Outbox>, rows': map<nat, Outbox>, i: nat) {
    forall o | Waits(rows', i, o) :: Waits(rows, i, o)
  }

  lemma {:induction false} FinishWaits(db: Db, o: nat, a: Advance, now: int, i: nat)
    requires WellFormed(db) && o in db.outboxes && Ended(db, i)
    ensures NoMoreWaiting(db.outboxes, Finish(db, o, a, now).outboxes, i)
  {
    var j := db.outboxes[o].intent;
    if IsDriven(db.intents[j]) {
      ExtraWaits(MarkedSent(db, o, a), j, a.extra, now, i);
      AdvancedRows(db, o, a, now);
    }
  }

  lemma {:induction false} AdvancedRows(db: Db, o: nat, a: Advance, now: int)
    requires o in db.outboxes && db.outboxes[o].intent in db.intents
    ensures FinishAdvanced(db, o, a, now).outboxes
            == Extended(MarkedSent(db, o, a), db.outboxes[o].intent, a.extra, now).outboxes
  {
  }

  lemma {:induction false} ExtraWaits(db: Db, j: nat, extra: Extra, now: int, i: nat)
    requires j in db.intents && Ended(db, i) && i < db.nextIntent
    ensures NoMoreWaiting(db.outboxes, Extended(db, j, extra, now).outboxes, i)
  {
  }

  /** Processing a claim that is not a fresh submit of the intent leaves it no new waiting command. */
  lemma {:induction false} ProcessWaits(s: State, input: Input, i: nat)
    requires Inv(s) && Enabled(s, Process(input)) && Ended(s.db, i) && !FreshFor(s.db, s.memory.claims[0], i)
    ensures NoMoreWaiting(s.db.outboxes, ProcessClaim(s.db, s.memory.claims[0], input).0.outboxes, i)
  {
    var db, c := s.db, s.memory.claims[0];
    if c.outbox in db.outboxes && db.outboxes[c.outbox].status.OutboxProcessing? {
      if db.outboxes[c.outbox].command.CancelOrder? {
        CancelWaits(db, c, input, i);
      } else {
        CommandHasLegs(db, c.outbox);
        SubmitBranches(db, c, input);
        if c.recoveryOnly {
          RecoverWaits(db, c.outbox, CommandLegs(db, db.outboxes[c.outbox]), input, i);
        }
      }
    }
  }

  lemma {:induction false} RecoverWaits(db: Db, o: nat, legs: set<nat>, input: Input, i: nat)
    requires DbInv(db) && o in db.outboxes && Ended(db, i)
    ensures NoMoreWaiting(db.outboxes, Recover(db, o, legs, input).outboxes, i)
  {
    var settled := Settled(Asked(db, legs), input.answers);
    var recorded := RecordAll(db, settled, input.answers);
    QuietRecordAll(db, settled, input.answers, db.outboxes[o].intent);
    LinkedRows(db, recorded);
    FinishWaits(recorded, o, input.advance, input.now, i);
  }

  lemma {:induction false} CancelWaits(db: Db, c: Claim, input: Input, i: nat)
    requires DbInv(db) && c.outbox in db.outboxes && db.outboxes[c.outbox].command.CancelOrder? && Ended(db, i)
    ensures NoMoreWaiting(
              db.outboxes,
              ProcessCancel(db, c.outbox, db.outboxes[c.outbox].command.leg, c.recoveryOnly, input).outboxes, i)
  {
    var o, l := c.outbox, db.outboxes[c.outbox].command.leg;
    if l in input.answers {
      ConfirmedWaits(db, o, l, input, i);
    }
    CancelRows(db, o, l, c.recoveryOnly, input);
  }

  /** A cancel marks its own command, or its query is answered and the command finished. */
  lemma {:induction false} CancelRows(db: Db, o: nat, l: nat, recoveryOnly: bool, input: Input)
    requires o in db.outboxes && db.outboxes[o].intent in db.intents
    ensures var rows := ProcessCancel(db, o, l, recoveryOnly, input).outboxes;
            || rows == db.outboxes
            || rows == WithOutboxStatus(db, o, OutboxFailed, None).outboxes
            || rows == WithOutboxStatus(db, o, OutboxSent, None).outboxes
            || (l in input.answers && rows == Confirmed(db, o, l, input).outboxes)
  {
    if l in db.legs && l in db.orders && recoveryOnly {
      var confirmed := l in input.answers && input.answers[l].Reported?
                       && !IsOpenReport(input.answers[l].report.status);
      assert confirmed ==> ProcessCancel(db, o, l, recoveryOnly, input) == Confirmed(db, o, l, input);
      assert !confirmed ==> ProcessCancel(db, o, l, recoveryOnly, input).outboxes == db.outboxes;
    }
  }

  function Confirmed(db: Db, o: nat, l: nat, input: Input): Db
    requires o in db.outboxes && db.outboxes[o].intent in db.intents && l in input.answers
  {
    Finish(WithOutboxStatus(Record(db, l, input.answers[l]), o, OutboxSent, None), o, input.advance, input.now)
  }

  lemma {:induction false} ConfirmedWaits(db: Db, o: nat, l: nat, input: Input, i: nat)
    requires DbInv(db) && o in db.outboxes && Ended(db, i) && l in input.answers
    ensures NoMoreWaiting(db.outboxes, Confirmed(db, o, l, input).outboxes, i)
  {
    var j, recorded := db.outboxes[o].intent, Record(db, l, input.answers[l]);
    QuietRecord(db, l, input.answers[l], j);
    LinkedRows(db, recorded);
    QuietOutbox(recorded, o, OutboxSent, None);
    var sent := WithOutboxStatus(recorded, o, OutboxSent, None);
    LinkedRows(recorded, sent);
    FinishWaits(sent, o, input.advance, input.now, i);
  }

  lemma {:induction false} ConcludeWaits(db: Db, d: Dispatch, answers: map<nat, Answer>, a: Advance, now: int, i: nat)
    requires DbInv(db) && Ended(db, i)
    ensures NoMoreWaiting(db.outboxes, Conclude(db, d, answers, a, now).outboxes, i)
  {
    if d.outbox in db.outboxes {
      var recorded := RecordAll(db, d.legs, answers);
      QuietRecordAll(db, d.legs, answers, db.outboxes[d.outbox].intent);
      LinkedRows(db, recorded);
      FinishWaits(recorded, d.outbox, a, now, i);
      ConcludedRows(db, d, answers, a, now);
    }
  }

  /** The command is finished, or kept for recovery. */
  lemma {:induction false} ConcludedRows(db: Db, d: Dispatch, answers: map<nat, Answer>, a: Advance, now: int)
    requires d.outbox in db.outboxes && db.outboxes[d.outbox].intent in db.intents
    ensures var rows := Conclude(db, d, answers, a, now).outboxes;
            || rows == Finish(RecordAll(db, d.legs, answers), d.outbox, a, now).outboxes
            || rows == WithOutboxStatus(db, d.outbox, OutboxProcessing, Some(now)).outboxes
  {
  }

  lemma {:induction false} RepairWaits(db: Db, now: int, i: nat)
    requires Ended(db, i)
    ensures NoMoreWaiting(db.outboxes, RollbackStale(db, now, db.nextIntent).outboxes, i)
    ensures NoMoreWaiting(db.outboxes, RequeueUnsent(db, now, db.nextOutbox).outboxes, i)
  {
    RollbackStaleIs(db, now, db.nextIntent);
    RequeueKeepsOrders(db, now, db.nextOutbox);
    forall o | Waits(RequeueUnsent(db, now, db.nextOutbox).outboxes, i, o)
      ensures Waits(db.outboxes, i, o)
    {
      RequeueIsExact(db, now, db.nextOutbox, o);
    }
  }

  /** Nothing that the worker holds leads to a submission for the intent. */
  ghost predicate HoldsNone(s: State, i: nat) {
    && (forall k | 0 <= k < |s.memory.claims| :: !FreshFor(s.db, s.memory.claims[k], i))
    && (s.memory.dispatch.Some? ==>
          s.memory.dispatch.value.outbox in s.db.outboxes
          && s.db.outboxes[s.memory.dispatch.value.outbox].intent != i)
  }

  ghost predicate NoneWaits(db: Db, i: nat) {
    forall o :: !Waits(db.outboxes, i, o)
  }

  lemma {:induction false} StepWaits(s: State, a: Action, i: nat)
    requires Inv(s) && Enabled(s, a) && Ended(s.db, i) && HoldsNone(s, i)
    ensures NoMoreWaiting(s.db.outboxes, Step(s, a).db.outboxes, i)
  {
    match a {
      case Create(_, _, _, _, _, _, _) =>
      case Supersede(_) =>
      case RepairRollback(now) => RepairWaits(s.db, now, i);
      case RepairRequeue(now) => RepairWaits(s.db, now, i);
      case Observe(_, _) =>
      case AdvanceStored(o, advance, now) => FinishWaits(s.db, o, advance, now, i);
      case ClaimBatch(now, timeout, limit) => ClaimBelowIs(s.db, now, timeout, limit, s.db.nextOutbox);
      case Process(input) => ProcessWaits(s, input, i);
      case SubmitOne(_) =>
      case ConcludeDispatch(answers, advance, now) =>
        ConcludeWaits(s.db, s.memory.dispatch.value, answers, advance, now, i);
      case Crash =>
    }
  }

  lemma {:induction false} StepHolds(s: State, a: Action, i: nat)
    requires Inv(s) && Enabled(s, a) && HoldsNone(s, i) && NoneWaits(s.db, i)
    ensures HoldsNone(Step(s, a), i)
  {
    StepGrows(s, a);
    match a {
      case ClaimBatch(now, timeout, limit) => BatchHolds(s, now, timeout, limit, i);
      case Process(input) => DispatchIff(s.db, s.memory.claims[0], input);
      case _ =>
    }
  }

  lemma {:induction false} BatchHolds(s: State, now: int, timeout: int, limit: nat, i: nat)
    requires Inv(s) && Enabled(s, ClaimBatch(now, timeout, limit)) && NoneWaits(s.db, i)
    ensures HoldsNone(Step(s, ClaimBatch(now, timeout, limit)), i)
  {
    ClaimBelowIs(s.db, now, timeout, limit, s.db.nextOutbox);
    ClaimedNone(s.db, ClaimBelow(s.db, now, timeout, limit, s.db.nextOutbox), now, timeout, s.db.nextOutbox, i);
  }

  lemma {:induction false} ClaimedNone(db: Db, b: Batch, now: int, timeout: int, n: nat, i: nat)
    requires ClaimedFrom(db, b, now, timeout, n) && NoneWaits(db, i)
    ensures forall k | 0 <= k < |b.claims| :: !FreshFor(b.db, b.claims[k], i)
  {
    forall k | 0 <= k < |b.claims|
      ensures !FreshFor(b.db, b.claims[k], i)
    {
      assert !Waits(db.outboxes, i, b.claims[k].outbox);
    }
  }

  /** As long as the intent is over, nothing of it is claimed, and nothing becomes waiting. */
  lemma {:induction false} RunHoldsNone(s: State, actions: seq<Action>, i: nat)
    requires Inv(s) && Possible(s, actions) && EndedThroughout(s, actions, i)
    requires HoldsNone(s, i) && NoneWaits(s.db, i)
    ensures Inv(Run(s, actions)) && HoldsNone(Run(s, actions), i)
    decreases |actions|
  {
    if actions != [] {
      StepKeeps(s, actions[0]);
      StepWaits(s, actions[0], i);
      StepHolds(s, actions[0], i);
      RunHoldsNone(Step(s, actions[0]), actions[1..], i);
    }
  }

  // ------------------------------------------------------------------ a waiting command is submitted

  /** With a limit of one, the first claimable row is claimed. */
  lemma {:induction false} FirstClaim(db: Db, now: int, timeout: int, m: nat, n: nat)
    requires m in db.outboxes && Claimable(db.outboxes[m], now, timeout)
    requires forall o | o in db.outboxes && o < m :: !Claimable(db.outboxes[o], now, timeout)
    ensures ClaimBelow(db, now, timeout, 1, n) ==
              if n <= m then Batch(db, [])
              else Batch(db.(outboxes := db.outboxes[m := Claimed(db.outboxes[m], now)]),
                         [Claim(m, db.outboxes[m].status.OutboxProcessing?)])
  {
    if n != 0 {
      FirstClaim(db, now, timeout, m, n - 1);
    }
  }

  ghost predicate NothingClaimable(db: Db, now: int, timeout: int, n: nat) {
    forall o | o in db.outboxes && o < n :: !Claimable(db.outboxes[o], now, timeout)
  }

  /** What the worker needs to hear to go on: the gate is open. */
  function Open(now: int): Input {
    Input(None, map[], CancelRaised, Advance(false, Running, None, Nothing), now)
  }

  /** The intent is over in all states of some run that leads to a submission of one of its legs. */
  ghost predicate CanSubmit(s: State, i: nat) {
    exists wait, input, l ::
      Possible(s, wait) && EndedThroughout(s, wait, i) && Submits(Run(s, wait), i, input, l)
  }

  lemma {:induction false} CanSubmitAfter(s: State, a: Action, i: nat)
    requires Enabled(s, a) && Ended(s.db, i) && CanSubmit(Step(s, a), i)
    ensures CanSubmit(s, i)
  {
    var wait, input, l :| Possible(Step(s, a), wait) && EndedThroughout(Step(s, a), wait, i)
      && Submits(Run(Step(s, a), wait), i, input, l);
    var longer := [a] + wait;
    assert longer[0] == a && longer[1..] == wait;
    assert Submits(Run(s, longer), i, input, l);
  }

  lemma {:induction false} CanSubmitNow(s: State, i: nat, input: Input, l: nat)
    requires Ended(s.db, i) && Submits(s, i, input, l)
    ensures CanSubmit(s, i)
  {
    assert Run(s, []) == s && EndedThroughout(s, [], i);
  }

  /** The waiting command is the first claimable row: a round claims it and submits. */
  lemma {:induction false} FirstIsSubmitted(s: State, i: nat, o: nat, now: int)
    requires Inv(s) && Idle(s.memory) && Ended(s.db, i) && Waits(s.db.outboxes, i, o)
    requires s.db.outboxes[o].availableAt <= now && NothingClaimable(s.db, now, 1, o)
    ensures CanSubmit(s, i)
  {
    var a := ClaimBatch(now, 1, 1);
    FirstClaim(s.db, now, 1, o, s.db.nextOutbox);
    StepKeeps(s, a);
    HeadIsSubmitted(Step(s, a), i, o, now);
    CanSubmitAfter(s, a, i);
  }

  lemma {:induction false} HeadIsSubmitted(t: State, i: nat, o: nat, now: int)
    requires Inv(t) && t.memory == Memory([Claim(o, false)], None) && Ended(t.db, i)
    requires FreshFor(t.db, Claim(o, false), i) && t.db.outboxes[o].status.OutboxProcessing?
    ensures CanSubmit(t, i)
  {
    ClaimSubmitsIff(t, i, Open(now));
    var l :| Submits(t, i, Open(now), l);
    CanSubmitNow(t, i, Open(now), l);
  }

  /** Another row comes first: a round claims it, and is lost in a crash. */
  lemma {:induction false} OthersAreClaimed(s: State, m: nat, now: int) returns (t: State)
    requires Inv(s) && Idle(s.memory) && m in s.db.outboxes && Claimable(s.db.outboxes[m], now, 1)
    requires NothingClaimable(s.db, now, 1, m)
    ensures Enabled(s, ClaimBatch(now, 1, 1)) && Enabled(Step(s, ClaimBatch(now, 1, 1)), Crash)
    ensures t == Step(Step(s, ClaimBatch(now, 1, 1)), Crash)
    ensures Inv(t) && Idle(t.memory) && t.db.intents == s.db.intents
    ensures Step(s, ClaimBatch(now, 1, 1)).db.intents == s.db.intents
    ensures t.db.outboxes == s.db.outboxes[m := Claimed(s.db.outboxes[m], now)]
  {
    FirstClaim(s.db, now, 1, m, s.db.nextOutbox);
    StepKeeps(s, ClaimBatch(now, 1, 1));
    t := Step(Step(s, ClaimBatch(now, 1, 1)), Crash);
    StepKeeps(Step(s, ClaimBatch(now, 1, 1)), Crash);
  }

  lemma {:induction false} WaitingIsSubmitted(s: State, i: nat, o: nat, now: int, m: nat)
    requires Inv(s) && Idle(s.memory) && Ended(s.db, i) && Waits(s.db.outboxes, i, o)
    requires s.db.outboxes[o].availableAt <= now && m <= o && NothingClaimable(s.db, now, 1, m)
    ensures CanSubmit(s, i)
    decreases o - m
  {
    if m == o {
      FirstIsSubmitted(s, i, o, now);
    } else if m in s.db.outboxes && Claimable(s.db.outboxes[m], now, 1) {
      var t := OthersAreClaimed(s, m, now);
      MoreClaimed(s, t, i, o, now, m);
      WaitingIsSubmitted(t, i, o, now, m + 1);
      CanSubmitAfter(Step(s, ClaimBatch(now, 1, 1)), Crash, i);
      CanSubmitAfter(s, ClaimBatch(now, 1, 1), i);
    } else {
      WaitingIsSubmitted(s, i, o, now, m + 1);
    }
  }

  lemma {:induction false} MoreClaimed(s: State, t: State, i: nat, o: nat, now: int, m: nat)
    requires m < o && m in s.db.outboxes && t.db.intents == s.db.intents
    requires t.db.outboxes == s.db.outboxes[m := Claimed(s.db.outboxes[m], now)]
    requires NothingClaimable(s.db, now, 1, m) && Ended(s.db, i) && Waits(s.db.outboxes, i, o)
    ensures NothingClaimable(t.db, now, 1, m + 1) && Ended(t.db, i) && Waits(t.db.outboxes, i, o)
    ensures t.db.outboxes[o] == s.db.outboxes[o]
  {
  }

  // ------------------------------------------------------------------ the exact condition

  /**
   After every run, at the start of a round: an intent that is over can still be submitted, staying over until
   then, if and only if it owns a submit command that waits. By `ClaimSubmitsIff` the gate has to let it through.
   */
  lemma {:induction false} EndedIntentSubmitsIff(actions: seq<Action>, i: nat)
    requires Possible(START, actions)
    requires Idle(Run(START, actions).memory) && Ended(Run(START, actions).db, i)
    ensures var s := Run(START, actions);
            CanSubmit(s, i) <==> exists o :: Waits(s.db.outboxes, i, o)
  {
    var s := Run(START, actions);
    StartInv();
    RunKeeps(START, actions);
    if o :| Waits(s.db.outboxes, i, o) {
      WaitingIsSubmitted(s, i, o, s.db.outboxes[o].availableAt, 0);
    } else if CanSubmit(s, i) {
      var wait, input, l :| Possible(s, wait) && EndedThroughout(s, wait, i) && Submits(Run(s, wait), i, input, l);
      RunHoldsNone(s, wait, i);
      ClaimSubmitsIff(Run(s, wait), i, input);
      assert false;
    }
  }

  // ------------------------------------------------------------------ a superseded intent that is submitted

  lemma {:induction false} RunOneMore(s: State, actions: seq<Action>, a: Action)
    requires Possible(s, actions) && Enabled(Run(s, actions), a)
    ensures Possible(s, actions + [a]) && Run(s, actions + [a]) == Step(Run(s, actions), a)
    decreases |actions|
  {
    if actions == [] {
      assert [a][1..] == [] && actions + [a] == [a];
    } else {
      var longer := actions + [a];
      assert longer[0] == actions[0] && longer[1..] == actions[1..] + [a];
      RunOneMore(Step(s, actions[0]), actions[1..], a);
    }
  }

  /** A maker intent whose first leg was claimed and lost in a crash after its order was stored. */
  ghost predicate Lost(s: State) {
    && Idle(s.memory) && s.db.intents.Keys == {0} && s.db.intents[0].maker && s.db.intents[0].status.Running?
    && s.db.outboxes.Keys == {0} && s.db.outboxes[0].intent == 0 && s.db.nextOutbox == 1
    && s.db.outboxes[0].status.OutboxProcessing?
  }

  /** The only intent, of the maker machine, and its only command, which waits. */
  ghost predicate Alone(s: State) {
    && Idle(s.memory) && s.db.intents.Keys == {0} && s.db.intents[0].maker
    && s.db.outboxes.Keys == {0} && s.db.nextOutbox == 1
    && Waits(s.db.outboxes, 0, 0) && s.db.outboxes[0].availableAt == 0
  }

  /** The worker claims the command, stores its orders and crashes. */
  lemma {:induction false} ClaimIsLost(s: State, claim: Action, process: Action)
    requires Inv(s) && Alone(s) && claim == ClaimBatch(0, 1, 1) && process == Process(Open(0))
    ensures Enabled(s, claim) && Enabled(Step(s, claim), process) && Enabled(Step(Step(s, claim), process), Crash)
    ensures Lost(Step(Step(Step(s, claim), process), Crash))
  {
    StepKeeps(s, claim);
    AloneClaimed(s, Step(s, claim));
    ClaimedIsLost(Step(s, claim), process);
  }

  /** Its command is claimed, and nothing else is in memory. */
  ghost predicate AloneClaim(s: State) {
    && s.memory == Memory([Claim(0, false)], None) && s.db.intents.Keys == {0} && s.db.intents[0].maker
    && s.db.outboxes.Keys == {0} && s.db.nextOutbox == 1 && s.db.outboxes[0].intent == 0
    && s.db.outboxes[0].command.Submit? && s.db.outboxes[0].status.OutboxProcessing?
  }

  lemma {:induction false} AloneClaimed(s: State, t: State)
    requires Alone(s) && t == Step(s, ClaimBatch(0, 1, 1))
    ensures AloneClaim(t)
  {
    FirstClaim(s.db, 0, 1, 0, 1);
  }

  lemma {:induction false} ClaimedIsLost(s: State, process: Action)
    requires DbInv(s.db) && AloneClaim(s) && process == Process(Open(0))
    ensures Enabled(s, process) && Lost(Step(Step(s, process), Crash))
  {
    ProcessedRows(s, process);
    CrashedIsLost(s, Step(s, process));
  }

  lemma {:induction false} CrashedIsLost(s: State, u: State)
    requires AloneClaim(s) && u.db.outboxes == s.db.outboxes && u.db.nextOutbox == s.db.nextOutbox
    requires u.db.intents == s.db.intents[0 := s.db.intents[0].(status := Running)]
    ensures Lost(Step(u, Crash))
  {
  }

  lemma {:induction false} ProcessedRows(t: State, process: Action)
    requires DbInv(t.db) && t.memory == Memory([Claim(0, false)], None) && process == Process(Open(0))
    requires 0 in t.db.outboxes && t.db.outboxes[0].command.Submit? && t.db.outboxes[0].status.OutboxProcessing?
    ensures Enabled(t, process)
    ensures var u, i := Step(t, process), t.db.outboxes[0].intent;
            && u.memory.claims == [] && u.db.outboxes == t.db.outboxes && u.db.nextOutbox == t.db.nextOutbox
            && i in t.db.intents && u.db.intents == t.db.intents[i := t.db.intents[i].(status := Running)]
  {
    CommandHasLegs(t.db, 0);
    SubmitBranches(t.db, Claim(0, false), Open(0));
  }

  lemma {:induction false} CreatedAlone(plan: Plan)
    ensures Alone(Step(START, Create("key", OpenIntent, true, None, None, [plan], 0)))
  {
  }

  lemma {:induction false} FirstClaimIsLost(plan: Plan) returns (actions: seq<Action>)
    ensures Possible(START, actions) && Lost(Run(START, actions))
  {
    var create := Create("key", OpenIntent, true, None, None, [plan], 0);
    StartInv();
    CreatedAlone(plan);
    StepKeeps(START, create);
    RunOneMore(START, [], create);
    actions := ThreeMore([] + [create]);
  }

  lemma {:induction false} ThreeMore(before: seq<Action>) returns (actions: seq<Action>)
    requires Possible(START, before) && Inv(Run(START, before)) && Alone(Run(START, before))
    ensures Possible(START, actions) && Lost(Run(START, actions))
  {
    var claim, process := ClaimBatch(0, 1, 1), Process(Open(0));
    ClaimIsLost(Run(START, before), claim, process);
    RunOneMore(START, before, claim);
    RunOneMore(START, before + [claim], process);
    RunOneMore(START, before + [claim] + [process], Crash);
    actions := before + [claim] + [process] + [Crash];
  }

  /** The machine adds a leg, then the intent needs recovery, and the operator supersedes it. */
  lemma {:induction false} SupersededWithLeg(s: State, plan: Plan, now: int)
    requires Lost(s)
    ensures var add := AdvanceStored(0, Advance(false, Running, None, AddLeg(plan)), now);
            var recover := AdvanceStored(0, Advance(false, RecoveryRequired, None, Nothing), now);
            && Enabled(s, add) && Enabled(Step(s, add), recover)
            && Enabled(Step(Step(s, add), recover), Supersede(0))
            && var t := Step(Step(Step(s, add), recover), Supersede(0));
               Idle(t.memory) && t.db.intents[0].status.Superseded? && Waits(t.db.outboxes, 0, 1)
  {
  }

  /** There is a run in which the operator supersedes an intent, and a leg of it is submitted afterwards. */
  lemma {:induction false} SupersededIntentIsSubmitted(plan: Plan) returns (actions: seq<Action>)
    ensures Possible(START, actions)
    ensures var s := Run(START, actions);
            0 in s.db.intents && s.db.intents[0].status.Superseded? && CanSubmit(s, 0)
  {
    actions := FirstClaimIsLost(plan);
    SupersededWithLeg(Run(START, actions), plan, 0);
    var add := AdvanceStored(0, Advance(false, Running, None, AddLeg(plan)), 0);
    var recover := AdvanceStored(0, Advance(false, RecoveryRequired, None, Nothing), 0);
    RunOneMore(START, actions, add);
    RunOneMore(START, actions + [add], recover);
    RunOneMore(START, actions + [add] + [recover], Supersede(0));
    actions := actions + [add] + [recover] + [Supersede(0)];
    EndedIntentSubmitsIff(actions, 0);
  }
}
