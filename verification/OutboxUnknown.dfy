/**
 Unknown outcomes: what recording the answers of a dispatch leaves behind, and how a command with an unknown
 outcome stops being processed.
 */
module OutboxUnknown {
  import opened Common
  import opened Orders
  import opened Lifecycle
  import opened Outbox
  import opened OutboxRuns
  import opened OutboxSteps
  import opened OutboxGrowth
  import opened OutboxSafety
  import opened OutboxEnded

  // ------------------------------------------------------------------ recording the answers

  /** The submission of a leg of the dispatch raised without saying what became of it. */
  ghost predicate SomeUnknown(d: Dispatch, answers: map<nat, Answer>) {
    exists l | l in d.legs :: l in answers && answers[l] == Raised(true)
  }

  /** Every answered leg has its row and an event; the others are as before. */
  ghost predicate Recorded(db: Db, db': Db, legs: set<nat>, answers: map<nat, Answer>) {
    forall l | l in db.orders && l in db.legs ::
      l in db'.orders && l in db'.legs
      && if l in legs && l in answers then
           (db'.orders[l].order, db'.legs[l].status) == Projected(db.orders[l].order, db.legs[l], answers[l])
           && l in db'.events
         else db'.orders[l] == db.orders[l] && (l in db'.events <==> l in db.events)
  }

  /**
   In every run, after the step that records the answers of a dispatch with an unknown one: its command is being
   processed and locked at that time, and its intent is in recovery; the order is unknown with its fill kept and
   its leg still active; and all other answers are recorded too.
   */
  lemma {:induction false} UnknownKeepsProcessing(
    actions: seq<Action>, answers: map<nat, Answer>, advance: Advance, now: int)
    requires Possible(START, actions)
    requires Enabled(Run(START, actions), ConcludeDispatch(answers, advance, now))
    requires SomeUnknown(Run(START, actions).memory.dispatch.value, answers)
    ensures var s := Run(START, actions);
            var t, d := Step(s, ConcludeDispatch(answers, advance, now)), s.memory.dispatch.value;
            && d.outbox in t.db.outboxes && t.db.outboxes[d.outbox].intent in t.db.intents
            && t.db.outboxes[d.outbox] == s.db.outboxes[d.outbox].(status := OutboxProcessing, lockedAt := Some(now))
            && t.db.intents[t.db.outboxes[d.outbox].intent].status == RecoveryRequired
            && Recorded(s.db, t.db, d.legs, answers)
            && forall l | l in d.legs && l in answers && answers[l] == Raised(true) ::
                 l in s.db.orders && l in t.db.orders && l in t.db.legs
                 && t.db.orders[l].order == s.db.orders[l].order.(status := Unknown)
                 && t.db.legs[l].status == LegUnknown
  {
    StartInv();
    RunKeeps(START, actions);
    var s := Run(START, actions);
    ConcludeUnknown(s.db, s.memory.dispatch.value, answers, advance, now);
  }

  lemma {:induction false} ConcludeUnknown(db: Db, d: Dispatch, answers: map<nat, Answer>, a: Advance, now: int)
    requires d.outbox in db.outboxes && db.outboxes[d.outbox].intent in db.intents && SomeUnknown(d, answers)
    requires forall l | l in d.legs :: l in db.legs && l in db.orders
    ensures var db', o := Conclude(db, d, answers, a, now), d.outbox;
            && o in db'.outboxes && db'.outboxes[o].intent in db'.intents
            && db'.outboxes[o] == db.outboxes[o].(status := OutboxProcessing, lockedAt := Some(now))
            && db'.intents[db'.outboxes[o].intent].status == RecoveryRequired
            && Recorded(db, db', d.legs, answers)
            && forall l | l in d.legs && l in answers && answers[l] == Raised(true) ::
                 l in db'.orders && l in db'.legs
                 && db'.orders[l].order == db.orders[l].order.(status := Unknown)
                 && db'.legs[l].status == LegUnknown
  {
  }

  /** A plain intent's command is sent by that step if and only if no outcome is unknown. */
  lemma {:induction false} SentUnlessUnknown(
    actions: seq<Action>, answers: map<nat, Answer>, advance: Advance, now: int)
    requires Possible(START, actions)
    requires Enabled(Run(START, actions), ConcludeDispatch(answers, advance, now))
    ensures var s := Run(START, actions);
            var t, d := Step(s, ConcludeDispatch(answers, advance, now)), s.memory.dispatch.value;
            d.outbox in s.db.outboxes && s.db.outboxes[d.outbox].intent in s.db.intents
            && (!IsDriven(s.db.intents[s.db.outboxes[d.outbox].intent]) ==>
                  d.outbox in t.db.outboxes
                  && (t.db.outboxes[d.outbox].status == OutboxSent <==> !SomeUnknown(d, answers)))
  {
    StartInv();
    RunKeeps(START, actions);
    var s := Run(START, actions);
    if !IsDriven(s.db.intents[s.db.outboxes[s.memory.dispatch.value.outbox].intent]) {
      ConcludePlain(s.db, s.memory.dispatch.value, answers, advance, now);
    }
  }

  lemma {:induction false} ConcludePlain(db: Db, d: Dispatch, answers: map<nat, Answer>, a: Advance, now: int)
    requires d.outbox in db.outboxes && db.outboxes[d.outbox].intent in db.intents
    requires !IsDriven(db.intents[db.outboxes[d.outbox].intent])
    ensures var db' := Conclude(db, d, answers, a, now);
            d.outbox in db'.outboxes && (db'.outboxes[d.outbox].status == OutboxSent <==> !SomeUnknown(d, answers))
  {
  }

  /**
   Such a command can be claimed exactly when its lock is as old as the timeout, and then only to be queried.
   */
  lemma {:induction false} UnknownIsReclaimed(db: Db, o: nat, locked: int, now: int, timeout: int, limit: nat)
    requires o in db.outboxes && db.outboxes[o].status == OutboxProcessing && db.outboxes[o].lockedAt == Some(locked)
    ensures Claimable(db.outboxes[o], now, timeout) <==>
              db.outboxes[o].availableAt <= now && locked + timeout <= now
    ensures var b := ClaimBelow(db, now, timeout, limit, db.nextOutbox);
            && (forall k | 0 <= k < |b.claims| && b.claims[k].outbox == o :: b.claims[k].recoveryOnly)
            && ((exists k :: 0 <= k < |b.claims| && b.claims[k].outbox == o) ==> locked + timeout <= now)
  {
    ClaimBelowIs(db, now, timeout, limit, db.nextOutbox);
  }

  // ------------------------------------------------------------------ how a command stops being processed

  /** A submit command with a stored order that is not in the hands of the worker's dispatch. */
  ghost predicate Started(s: State, o: nat) {
    && o in s.db.outboxes && s.db.outboxes[o].command.Submit?
    && (exists l | l in s.db.outboxes[o].command.legs :: l in s.db.orders)
    && (s.memory.dispatch.Some? ==> s.memory.dispatch.value.outbox != o)
  }

  /** The worker processes a claim of the command. */
  predicate Processes(s: State, a: Action, o: nat) {
    a.Process? && s.memory.claims != [] && s.memory.claims[0].outbox == o
  }

  /** An advance of the command's intent, after a stored event or by the timer, that takes this command for its own. */
  predicate AdvancesAs(a: Action, o: nat) {
    a.AdvanceStored? && a.outbox == o
  }

  /** Every leg of the command has an order that is final, or whose query was answered. */
  ghost predicate AllSettled(db: Db, o: nat, answers: map<nat, Answer>)
    requires o in db.outboxes
  {
    forall l | l in CommandLegs(db, db.outboxes[o]) :: !Unsettled(db, l, answers)
  }

  lemma {:induction false} FinishOther(db: Db, p: nat, a: Advance, now: int, o: nat)
    requires WellFormed(db) && p in db.outboxes && o in db.outboxes && o != p
    ensures o in Finish(db, p, a, now).outboxes && Finish(db, p, a, now).outboxes[o] == db.outboxes[o]
  {
    if IsDriven(db.intents[db.outboxes[p].intent]) {
      ExtendedKeepsRow(MarkedSent(db, p, a), db.outboxes[p].intent, a.extra, now, o);
    }
  }

  lemma {:induction false} RecoverOther(db: Db, p: nat, legs: set<nat>, input: Input, o: nat)
    requires DbInv(db) && p in db.outboxes && o in db.outboxes && o != p
    ensures var db' := Recover(db, p, legs, input); o in db'.outboxes && db'.outboxes[o] == db.outboxes[o]
  {
    var settled := Settled(Asked(db, legs), input.answers);
    QuietRecordAll(db, settled, input.answers, db.outboxes[p].intent);
    LinkedRows(db, RecordAll(db, settled, input.answers));
    FinishOther(RecordAll(db, settled, input.answers), p, input.advance, input.now, o);
  }

  lemma {:induction false} CancelOther(db: Db, p: nat, l: nat, recoveryOnly: bool, input: Input, o: nat)
    requires DbInv(db) && p in db.outboxes && o in db.outboxes && o != p
    ensures var db' := ProcessCancel(db, p, l, recoveryOnly, input);
            o in db'.outboxes && db'.outboxes[o] == db.outboxes[o]
  {
    CancelRows(db, p, l, recoveryOnly, input);
    if l in input.answers {
      var recorded := Record(db, l, input.answers[l]);
      QuietRecord(db, l, input.answers[l], db.outboxes[p].intent);
      LinkedRows(db, recorded);
      QuietOutbox(recorded, p, OutboxSent, None);
      LinkedRows(recorded, WithOutboxStatus(recorded, p, OutboxSent, None));
      FinishOther(WithOutboxStatus(recorded, p, OutboxSent, None), p, input.advance, input.now, o);
    }
  }

  /** Processing a claim leaves the rows of all other commands. */
  lemma {:induction false} ProcessOther(db: Db, c: Claim, input: Input, o: nat)
    requires DbInv(db) && o in db.outboxes && o != c.outbox
    ensures var db' := ProcessClaim(db, c, input).0; o in db'.outboxes && db'.outboxes[o] == db.outboxes[o]
  {
    if c.outbox in db.outboxes && db.outboxes[c.outbox].status.OutboxProcessing? {
      if db.outboxes[c.outbox].command.CancelOrder? {
        CancelOther(db, c.outbox, db.outboxes[c.outbox].command.leg, c.recoveryOnly, input, o);
      } else {
        SubmitBranches(db, c, input);
        RecoverOther(db, c.outbox, CommandLegs(db, db.outboxes[c.outbox]), input, o);
      }
    }
  }

  lemma {:induction false} ConcludeOther(db: Db, d: Dispatch, answers: map<nat, Answer>, a: Advance, now: int, o: nat)
    requires DbInv(db) && o in db.outboxes && o != d.outbox
    ensures var db' := Conclude(db, d, answers, a, now); o in db'.outboxes && db'.outboxes[o] == db.outboxes[o]
  {
    if d.outbox in db.outboxes {
      QuietRecordAll(db, d.legs, answers, db.outboxes[d.outbox].intent);
      LinkedRows(db, RecordAll(db, d.legs, answers));
      ConcludedRows(db, d, answers, a, now);
      FinishOther(RecordAll(db, d.legs, answers), d.outbox, a, now, o);
    }
  }

  /** The repairs leave a command with a stored order. */
  lemma {:induction false} RepairsLeave(s: State, now: int, o: nat)
    requires Inv(s) && Started(s, o)
    ensures o in RollbackStale(s.db, now, s.db.nextIntent).outboxes
    ensures RollbackStale(s.db, now, s.db.nextIntent).outboxes[o] == s.db.outboxes[o]
    ensures o in RequeueUnsent(s.db, now, s.db.nextOutbox).outboxes
    ensures RequeueUnsent(s.db, now, s.db.nextOutbox).outboxes[o] == s.db.outboxes[o]
  {
    RollbackStaleIs(s.db, now, s.db.nextIntent);
    var l :| l in s.db.outboxes[o].command.legs && l in s.db.orders;
    assert l in LegsOf(s.db, s.db.outboxes[o].intent);
    RequeueIsExact(s.db, now, s.db.nextOutbox, o);
    assert l in Ids(s.db.outboxes[o].command);
  }

  /** Same status, unless the worker claims it. */
  ghost predicate SameUnlessClaimed(s: State, t: State, o: nat)
    requires o in s.db.outboxes
  {
    o in t.db.outboxes
    && (t.db.outboxes[o] == s.db.outboxes[o]
        || (t.db.outboxes[o].status.OutboxProcessing?
            && (s.db.outboxes[o].status.OutboxProcessing? || s.db.outboxes[o].status.OutboxPending?)))
  }

  /** Only an advance or a claim of its own changes a started command in another way. */
  lemma {:induction false} OthersLeave(s: State, a: Action, o: nat)
    requires Inv(s) && Enabled(s, a) && Started(s, o) && !AdvancesAs(a, o) && !Processes(s, a, o)
    ensures SameUnlessClaimed(s, Step(s, a), o)
  {
    match a {
      case Create(_, _, _, _, _, _, _) =>
      case Supersede(_) =>
      case RepairRollback(now) => RepairsLeave(s, now, o);
      case RepairRequeue(now) => RepairsLeave(s, now, o);
      case Observe(_, _) =>
      case AdvanceStored(p, advance, now) => FinishOther(s.db, p, advance, now, o);
      case ClaimBatch(now, timeout, limit) => ClaimBelowIs(s.db, now, timeout, limit, s.db.nextOutbox);
      case Process(input) => ProcessOther(s.db, s.memory.claims[0], input, o);
      case SubmitOne(_) =>
      case ConcludeDispatch(answers, advance, now) =>
        ConcludeOther(s.db, s.memory.dispatch.value, answers, advance, now, o);
      case Crash =>
    }
  }

  /** A claim of a started command is a recovery, and so are its effects. */
  lemma {:induction false} OwnClaim(s: State, input: Input, o: nat)
    requires Inv(s) && Enabled(s, Process(input)) && Started(s, o) && Processes(s, Process(input), o)
    ensures var t := Step(s, Process(input));
            && t.memory.dispatch.None? && o in t.db.outboxes
            && (!s.db.outboxes[o].status.OutboxProcessing? ==> t.db.outboxes[o] == s.db.outboxes[o])
            && (s.db.outboxes[o].status.OutboxProcessing? ==>
                  (t.db.outboxes[o].status.OutboxFailed? <==> !AllSettled(s.db, o, input.answers)))
  {
    var c := s.memory.claims[0];
    assert FreshOk(s.db, c);
    assert c.recoveryOnly;
    DispatchIff(s.db, c, input);
    if s.db.outboxes[o].status.OutboxProcessing? {
      RecoveredClaimFailsIff(s.db, c, input);
    }
  }

  lemma {:induction false} StaysStarted(s: State, a: Action, o: nat)
    requires Inv(s) && Enabled(s, a) && Started(s, o)
    ensures Started(Step(s, a), o)
  {
    StepGrows(s, a);
    var l :| l in s.db.outboxes[o].command.legs && l in s.db.orders;
    assert l in Step(s, a).db.orders;
    if a.Process? {
      DispatchIff(s.db, s.memory.claims[0], a.input);
      assert FreshOk(s.db, s.memory.claims[0]);
    }
  }

  /**
   A started command that is not sent becomes sent in a step only if an advance takes it for its own, or a recovery
   claim of it finds all its orders final or answered; a recovery that does not fails it.
   */
  lemma {:induction false} BecomesSent(s: State, a: Action, o: nat)
    requires Inv(s) && Enabled(s, a) && Started(s, o) && !s.db.outboxes[o].status.OutboxSent?
    ensures var t := Step(s, a);
            && o in t.db.outboxes
            && (t.db.outboxes[o].status.OutboxSent? ==>
                  AdvancesAs(a, o) || (Processes(s, a, o) && AllSettled(s.db, o, a.input.answers)))
            && (s.db.outboxes[o].status.OutboxProcessing? && !t.db.outboxes[o].status.OutboxProcessing? ==>
                  AdvancesAs(a, o)
                  || (Processes(s, a, o)
                      && (t.db.outboxes[o].status.OutboxFailed? <==> !AllSettled(s.db, o, a.input.answers))))
  {
    StaysStarted(s, a, o);
    if Processes(s, a, o) {
      OwnClaim(s, a.input, o);
    } else if !AdvancesAs(a, o) {
      OthersLeave(s, a, o);
    }
  }

  /** At this point of the run the command is advanced, or recovered with all its orders settled. */
  ghost predicate SettledAt(s: State, more: seq<Action>, o: nat, k: nat)
    requires Possible(s, more)
  {
    k < |more| && Possible(s, more[..k])
    && var u := Run(s, more[..k]);
       o in u.db.outboxes
       && (AdvancesAs(more[k], o) || (Processes(u, more[k], o) && AllSettled(u.db, o, more[k].input.answers)))
  }

  lemma {:induction false} SettledLater(s: State, more: seq<Action>, o: nat, k: nat)
    requires more != [] && Possible(s, more) && SettledAt(Step(s, more[0]), more[1..], o, k)
    ensures SettledAt(s, more, o, k + 1)
  {
    assert more[..k + 1][0] == more[0] && more[..k + 1][1..] == more[1..][..k];
  }

  lemma {:induction false} SettledNow(s: State, more: seq<Action>, o: nat)
    requires more != [] && Possible(s, more) && o in s.db.outboxes
    requires AdvancesAs(more[0], o) || (Processes(s, more[0], o) && AllSettled(s.db, o, more[0].input.answers))
    ensures SettledAt(s, more, o, 0)
  {
    assert more[..0] == [];
  }

  lemma {:induction false} SentOnlyFrom(s: State, more: seq<Action>, o: nat)
    requires Inv(s) && Possible(s, more) && Started(s, o) && !s.db.outboxes[o].status.OutboxSent?
    ensures var t := Run(s, more);
            o in t.db.outboxes && (t.db.outboxes[o].status.OutboxSent? ==> exists k: nat :: SettledAt(s, more, o, k))
    decreases |more|
  {
    if more != [] {
      var t := Step(s, more[0]);
      StepKeeps(s, more[0]);
      BecomesSent(s, more[0], o);
      StaysStarted(s, more[0], o);
      if t.db.outboxes[o].status.OutboxSent? {
        SettledNow(s, more, o);
        SentStays(t, more[1..], o);
      } else {
        SentOnlyFrom(t, more[1..], o);
        if k: nat :| SettledAt(t, more[1..], o, k) {
          SettledLater(s, more, o, k);
        }
      }
    }
  }

  /** A sent command with a stored order stays sent in every further run: nobody ever asks the venue about it. */
  lemma {:induction false} SentStays(s: State, more: seq<Action>, o: nat)
    requires Inv(s) && Possible(s, more) && Started(s, o) && s.db.outboxes[o].status.OutboxSent?
    ensures o in Run(s, more).db.outboxes && Run(s, more).db.outboxes[o].status.OutboxSent?
    decreases |more|
  {
    if more != [] {
      StepKeeps(s, more[0]);
      SentStep(s, more[0], o);
      StaysStarted(s, more[0], o);
      SentStays(Step(s, more[0]), more[1..], o);
    }
  }

  lemma {:induction false} SentStep(s: State, a: Action, o: nat)
    requires Inv(s) && Enabled(s, a) && Started(s, o) && s.db.outboxes[o].status.OutboxSent?
    ensures o in Step(s, a).db.outboxes && Step(s, a).db.outboxes[o].status.OutboxSent?
  {
    if Processes(s, a, o) {
      OwnClaim(s, a.input, o);
    } else if AdvancesAs(a, o) {
      SentAdvance(s.db, o, a.advance, a.now);
    } else {
      OthersLeave(s, a, o);
    }
  }

  lemma {:induction false} SentAdvance(db: Db, o: nat, a: Advance, now: int)
    requires WellFormed(db) && o in db.outboxes && db.outboxes[o].status.OutboxSent?
    ensures o in Finish(db, o, a, now).outboxes && Finish(db, o, a, now).outboxes[o].status.OutboxSent?
  {
    if IsDriven(db.intents[db.outboxes[o].intent]) {
      ExtendedKeepsRow(MarkedSent(db, o, a), db.outboxes[o].intent, a.extra, now, o);
    }
  }

  // ------------------------------------------------------------------ the theorems over runs

  /**
   After the step that records an unknown outcome, in every further run: the command is sent only if at some point
   an advance took it for its own, or a recovery claim of it found every one of its orders final or answered.
   */
  lemma {:induction false} UnknownIsSentOnlyWhenSettled(
    actions: seq<Action>, answers: map<nat, Answer>, advance: Advance, now: int, more: seq<Action>)
    requires Possible(START, actions)
    requires Enabled(Run(START, actions), ConcludeDispatch(answers, advance, now))
    requires SomeUnknown(Run(START, actions).memory.dispatch.value, answers)
    requires Possible(Step(Run(START, actions), ConcludeDispatch(answers, advance, now)), more)
    ensures var s := Run(START, actions);
            var t, o := Step(s, ConcludeDispatch(answers, advance, now)), s.memory.dispatch.value.outbox;
            o in Run(t, more).db.outboxes
            && (Run(t, more).db.outboxes[o].status.OutboxSent? ==> exists k: nat :: SettledAt(t, more, o, k))
  {
    UnknownIsStarted(actions, answers, advance, now);
    var s := Run(START, actions);
    SentOnlyFrom(Step(s, ConcludeDispatch(answers, advance, now)), more, s.memory.dispatch.value.outbox);
  }

  lemma {:induction false} UnknownIsStarted(actions: seq<Action>, answers: map<nat, Answer>, advance: Advance, now: int)
    requires Possible(START, actions)
    requires Enabled(Run(START, actions), ConcludeDispatch(answers, advance, now))
    requires SomeUnknown(Run(START, actions).memory.dispatch.value, answers)
    ensures var s := Run(START, actions);
            var t, o := Step(s, ConcludeDispatch(answers, advance, now)), s.memory.dispatch.value.outbox;
            Inv(t) && Started(t, o) && t.db.outboxes[o].status.OutboxProcessing?
  {
    UnknownKeepsProcessing(actions, answers, advance, now);
    StartInv();
    RunKeeps(START, actions);
    var s := Run(START, actions);
    var a := ConcludeDispatch(answers, advance, now);
    StepKeeps(s, a);
    StepGrows(s, a);
    DispatchedIsStarted(s, Step(s, a), answers);
  }

  lemma {:induction false} DispatchedIsStarted(s: State, t: State, answers: map<nat, Answer>)
    requires Inv(s) && Inv(t) && s.memory.dispatch.Some? && t.memory.dispatch.None? && DbGrows(s.db, t.db)
    requires SomeUnknown(s.memory.dispatch.value, answers)
    ensures Started(t, s.memory.dispatch.value.outbox)
  {
    var d := s.memory.dispatch.value;
    var l :| l in d.legs && l in answers && answers[l] == Raised(true);
    assert l in t.db.orders;
  }

  /**
   The other way, which loses the question: an event of any stored order of a plain intent advances it, marks the
   command sent, whatever is unknown about its other orders, and in every further run it stays sent.
   */
  lemma {:induction false} EventHidesUnknown(s: State, o: nat, now: int, more: seq<Action>)
    requires Inv(s) && Idle(s.memory) && Started(s, o) && s.db.outboxes[o].status.OutboxProcessing?
    requires !IsDriven(s.db.intents[s.db.outboxes[o].intent])
    ensures Enabled(s, Sending(o, now))
    ensures Possible(Step(s, Sending(o, now)), more) ==>
              var t := Run(Step(s, Sending(o, now)), more);
              o in t.db.outboxes && t.db.outboxes[o].status.OutboxSent?
  {
    EventSends(s, o, now);
    if Possible(Step(s, Sending(o, now)), more) {
      SentStays(Step(s, Sending(o, now)), more, o);
    }
  }

  lemma {:induction false} EventSends(s: State, o: nat, now: int)
    requires Inv(s) && Idle(s.memory) && Started(s, o) && !IsDriven(s.db.intents[s.db.outboxes[o].intent])
    ensures Enabled(s, Sending(o, now))
    ensures Inv(Step(s, Sending(o, now))) && Started(Step(s, Sending(o, now)), o)
    ensures Step(s, Sending(o, now)).db.outboxes[o].status.OutboxSent?
  {
    EventIsEnabled(s, o, now);
    StepKeeps(s, Sending(o, now));
    StaysStarted(s, Sending(o, now), o);
    PlainSends(s.db, o, Sending(o, now).advance, now);
  }

  lemma {:induction false} EventIsEnabled(s: State, o: nat, now: int)
    requires WellFormed(s.db) && Owned(s.db) && Idle(s.memory) && Started(s, o)
    ensures Enabled(s, Sending(o, now))
  {
    var l :| l in s.db.outboxes[o].command.legs && l in s.db.orders;
    assert l in Ids(s.db.outboxes[o].command);
    assert l in LegsOf(s.db, s.db.outboxes[o].intent);
  }

  lemma {:induction false} PlainSends(db: Db, o: nat, a: Advance, now: int)
    requires o in db.outboxes && db.outboxes[o].intent in db.intents && !IsDriven(db.intents[db.outboxes[o].intent])
    ensures o in Finish(db, o, a, now).outboxes && Finish(db, o, a, now).outboxes[o].status.OutboxSent?
  {
  }

  function Sending(o: nat, now: int): Action {
    AdvanceStored(o, Advance(false, Running, None, Nothing), now)
  }
}
