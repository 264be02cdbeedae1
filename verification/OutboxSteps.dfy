/** Every step of the outbox worker keeps the invariant. */
module OutboxSteps {
  import opened Common
  import opened Orders
  import opened Lifecycle
  import opened Outbox
  import opened OutboxRuns

  // ------------------------------------------------------------------ claiming

  /** The claims of a batch in order: each row was claimable, and is recovered only if it was being processed. */
  predicate ClaimsFrom(db: Db, claims: seq<Claim>, now: int, timeout: int, n: nat) {
    && (forall j, k | 0 <= j < k < |claims| :: claims[j].outbox < claims[k].outbox)
    && (forall k | 0 <= k < |claims| ::
          claims[k].outbox < n && claims[k].outbox in db.outboxes
          && Claimable(db.outboxes[claims[k].outbox], now, timeout)
          && claims[k].recoveryOnly == db.outboxes[claims[k].outbox].status.OutboxProcessing?)
  }

  /** The rows after a batch: only claimable ones changed, and are now being processed. */
  ghost predicate RowsFrom(db: Db, db': Db, now: int, timeout: int, n: nat) {
    && Linked(db, db') && db'.intents == db.intents
    && (forall o | o in db.outboxes ::
          db'.outboxes[o] == db.outboxes[o]
          || (o < n && Claimable(db.outboxes[o], now, timeout) && db'.outboxes[o] == Claimed(db.outboxes[o], now)))
  }

  ghost predicate ClaimedFrom(db: Db, b: Batch, now: int, timeout: int, n: nat) {
    RowsFrom(db, b.db, now, timeout, n) && ClaimsFrom(db, b.claims, now, timeout, n)
  }

  lemma {:induction false} RowsNext(db: Db, b: Batch, n: nat, now: int, timeout: int, limit: nat)
    requires n > 0 && RowsFrom(db, b.db, now, timeout, n - 1)
    ensures RowsFrom(db, ClaimNext(b, n - 1, now, timeout, limit).db, now, timeout, n)
  {
    if |b.claims| < limit && n - 1 in b.db.outboxes && Claimable(b.db.outboxes[n - 1], now, timeout) {
      RowClaimed(db, b.db, n, now, timeout);
    }
  }

  lemma {:induction false} RowClaimed(db: Db, db': Db, n: nat, now: int, timeout: int)
    requires n > 0 && RowsFrom(db, db', now, timeout, n - 1)
    requires n - 1 in db.outboxes && Claimable(db'.outboxes[n - 1], now, timeout)
    ensures RowsFrom(db, db'.(outboxes := db'.outboxes[n - 1 := Claimed(db'.outboxes[n - 1], now)]), now, timeout, n)
  {
  }

  lemma {:induction false} ClaimsNext(db: Db, b: Batch, n: nat, now: int, timeout: int, limit: nat)
    requires n > 0 && ClaimedFrom(db, b, now, timeout, n - 1)
    ensures ClaimsFrom(db, ClaimNext(b, n - 1, now, timeout, limit).claims, now, timeout, n)
  {
  }

  lemma {:induction false} ClaimBelowIs(db: Db, now: int, timeout: int, limit: nat, n: nat)
    ensures ClaimedFrom(db, ClaimBelow(db, now, timeout, limit, n), now, timeout, n)
  {
    if n != 0 {
      ClaimBelowIs(db, now, timeout, limit, n - 1);
      RowsNext(db, ClaimBelow(db, now, timeout, limit, n - 1), n, now, timeout, limit);
      ClaimsNext(db, ClaimBelow(db, now, timeout, limit, n - 1), n, now, timeout, limit);
    }
  }

  lemma {:induction false} ClaimedClaims(db: Db, b: Batch, now: int, timeout: int, n: nat)
    requires PendingUnsent(db) && ClaimedFrom(db, b, now, timeout, n)
    ensures ClaimsOk(b.db, b.claims)
  {
    forall k | 0 <= k < |b.claims|
      ensures FreshOk(b.db, b.claims[k])
    {
      var o := b.claims[k].outbox;
      assert db.outboxes[o].status.OutboxPending? && db.outboxes[o].command.Submit? ==> Unsent(db, o);
    }
  }

  lemma {:induction false} ClaimedFrame(db: Db, m: Memory, b: Batch, now: int, timeout: int, n: nat, over: set<nat>)
    requires ClaimedFrom(db, b, now, timeout, n) && RolledBackOk(db, m, over)
    ensures Frame(db, b.db, over)
  {
  }

  /** Without a dispatch, the claims in memory can be exchanged for others that are in order. */
  lemma {:induction false} MemoryKeeps(s: State, claims: seq<Claim>)
    requires Inv(s) && s.memory.dispatch.None? && ClaimsOk(s.db, claims)
    ensures Inv(s.(memory := Memory(claims, None)))
  {
  }

  lemma {:induction false} ClaimBatchKeeps(s: State, now: int, timeout: int, limit: nat, n: nat)
    requires Inv(s) && Idle(s.memory)
    ensures Inv(AfterBatch(s, ClaimBelow(s.db, now, timeout, limit, n)))
  {
    var b := ClaimBelow(s.db, now, timeout, limit, n);
    ClaimBelowIs(s.db, now, timeout, limit, n);
    LinkedDbInv(s.db, b.db);
    ClaimedClaims(s.db, b, now, timeout, n);
    ClaimedFrame(s.db, s.memory, b, now, timeout, n, s.rolledBack);
    FrameKeeps(s, b.db);
    MemoryKeeps(s.(db := b.db), b.claims);
  }

  // ------------------------------------------------------------------ processing a claim

  /** Forgetting the first claim, or a dispatch, keeps the invariant. */
  lemma {:induction false} ForgetKeeps(s: State, m: Memory)
    requires Inv(s) && m.dispatch.None?
    requires m.claims == s.memory.claims || m.claims == []
        || (s.memory.claims != [] && m.claims == s.memory.claims[1..])
    ensures Inv(s.(memory := m))
  {
    forall j | 0 <= j < |m.claims|
      ensures FreshOk(s.db, m.claims[j])
    {
      assert m.claims[j] == s.memory.claims[j] || m.claims[j] == s.memory.claims[j + 1];
    }
  }

  lemma {:induction false} FailKeeps(s: State, o: nat, status: IntentStatus)
    requires Inv(s) && o in s.db.outboxes && s.db.outboxes[o].intent !in s.rolledBack
    ensures Inv(s.(db := Fail(s.db, o, status)))
  {
    QuietFail(s.db, o, status);
    QuietKeeps(s, Fail(s.db, o, status), s.db.outboxes[o].intent);
  }

  lemma {:induction false} RecordKeeps(s: State, l: nat, a: Answer, i: nat)
    requires Inv(s) && i !in s.rolledBack
    ensures Inv(s.(db := Record(s.db, l, a)))
    ensures Quiet(s.db, Record(s.db, l, a), i)
  {
    QuietRecord(s.db, l, a, i);
    QuietKeeps(s, Record(s.db, l, a), i);
  }

  lemma {:induction false} MarkKeeps(s: State, o: nat, outbox: OutboxStatus,
      lockedAt: Option<int>, intent: IntentStatus)
    requires Inv(s) && o in s.db.outboxes && s.db.outboxes[o].intent !in s.rolledBack && !outbox.OutboxPending?
    ensures Inv(s.(db := WithIntentStatus(WithOutboxStatus(s.db, o, outbox, lockedAt),
        s.db.outboxes[o].intent, intent)))
  {
    var i := s.db.outboxes[o].intent;
    QuietOutbox(s.db, o, outbox, lockedAt);
    var marked := WithOutboxStatus(s.db, o, outbox, lockedAt);
    QuietKeeps(s, marked, i);
    QuietStatus(marked, i, intent);
    QuietKeeps(s.(db := marked), WithIntentStatus(marked, i, intent), i);
  }

  /** After a change of the command's own rows, failing it or finishing it keeps the invariant. */
  lemma {:induction false} EndKeeps(s: State, db: Db, o: nat, a: Advance, now: int)
    requires Inv(s) && o in s.db.outboxes && s.db.outboxes[o].intent !in s.rolledBack && SoundAdvance(s.db, o, a)
    requires Quiet(s.db, db, s.db.outboxes[o].intent)
    ensures o in db.outboxes && db.outboxes[o].intent == s.db.outboxes[o].intent && db.outboxes[o].intent in db.intents
    ensures Inv(s.(db := db))
    ensures Inv(s.(db := Finish(db, o, a, now)))
    ensures Inv(s.(db := Fail(db, o, RecoveryRequired)))
  {
    QuietKeeps(s, db, s.db.outboxes[o].intent);
    FinishKeeps(s.(db := db), o, a, now);
    FailKeeps(s.(db := db), o, RecoveryRequired);
  }

  lemma {:induction false} RecoverKeeps(s: State, o: nat, legs: set<nat>, input: Input)
    requires Inv(s) && o in s.db.outboxes && s.db.outboxes[o].intent !in s.rolledBack
    requires SoundAdvance(s.db, o, input.advance)
    ensures Inv(s.(db := Recover(s.db, o, legs, input)))
  {
    var settled := Settled(Asked(s.db, legs), input.answers);
    QuietRecordAll(s.db, settled, input.answers, s.db.outboxes[o].intent);
    EndKeeps(s, RecordAll(s.db, settled, input.answers), o, input.advance, input.now);
  }

  lemma {:induction false} TakenKeeps(s: State, o: nat, l: nat)
    requires Inv(s) && o in s.db.outboxes && s.db.outboxes[o].intent !in s.rolledBack && l in s.db.orders
    ensures
      var marked :=
        s.db.(orders := s.db.orders[l := s.db.orders[l].(order := s.db.orders[l].order.(status := PendingCancel))]);
      Inv(s.(db := WithIntentStatus(WithOutboxStatus(marked, o, OutboxSent, None), s.db.outboxes[o].intent, Running)))
  {
    var i := s.db.outboxes[o].intent;
    var marked :=
      s.db.(orders := s.db.orders[l := s.db.orders[l].(order := s.db.orders[l].order.(status := PendingCancel))]);
    assert Quiet(s.db, marked, i);
    QuietKeeps(s, marked, i);
    MarkKeeps(s.(db := marked), o, OutboxSent, None, Running);
  }

  lemma {:induction false} CancelConfirmedKeeps(s: State, o: nat, l: nat, answer: Answer, a: Advance, now: int)
    requires Inv(s) && o in s.db.outboxes && s.db.outboxes[o].intent !in s.rolledBack && SoundAdvance(s.db, o, a)
    ensures Inv(s.(db := Finish(WithOutboxStatus(Record(s.db, l, answer), o, OutboxSent, None), o, a, now)))
  {
    var i := s.db.outboxes[o].intent;
    var recorded := Record(s.db, l, answer);
    QuietRecord(s.db, l, answer, i);
    QuietDbInv(s.db, recorded, i);
    QuietOutbox(recorded, o, OutboxSent, None);
    QuietTrans(s.db, recorded, WithOutboxStatus(recorded, o, OutboxSent, None), i);
    EndKeeps(s, WithOutboxStatus(recorded, o, OutboxSent, None), o, a, now);
  }

  lemma {:induction false} CancelPendingKeeps(s: State, i: nat)
    requires Inv(s) && i in s.db.intents && i !in s.rolledBack
    ensures Inv(s.(db := WithIntentStatus(s.db, i, RecoveryRequired)))
  {
    QuietStatus(s.db, i, RecoveryRequired);
    QuietKeeps(s, WithIntentStatus(s.db, i, RecoveryRequired), i);
  }

  lemma {:induction false} ProcessCancelKeeps(s: State, o: nat, l: nat, recoveryOnly: bool, input: Input)
    requires Inv(s) && o in s.db.outboxes && s.db.outboxes[o].intent !in s.rolledBack
    requires SoundAdvance(s.db, o, input.advance)
    ensures Inv(s.(db := ProcessCancel(s.db, o, l, recoveryOnly, input)))
  {
    if l !in s.db.legs || l !in s.db.orders {
      FailKeeps(s, o, FailedIntent);
    } else if recoveryOnly {
      if l in input.answers && input.answers[l].Reported? && !IsOpenReport(input.answers[l].report.status) {
        CancelConfirmedKeeps(s, o, l, input.answers[l], input.advance, input.now);
      } else {
        CancelPendingKeeps(s, s.db.outboxes[o].intent);
      }
    } else {
      match input.cancel {
        case CancelRaised => CancelPendingKeeps(s, s.db.outboxes[o].intent);
        case CancelRefused => FailKeeps(s, o, RecoveryRequired);
        case CancelTaken => TakenKeeps(s, o, l);
      }
    }
  }

  lemma {:induction false} GatedDbInv(db: Db, o: nat, until: int)
    requires DbInv(db) && o in db.outboxes && Unsent(db, o)
    ensures DbInv(Gated(db, o, until))
  {
    var db' := Gated(db, o, until);
    assert WellFormed(db') && Owned(db') && OrdersOk(db');
    assert Disjoint(db');
    forall p | p in db'.outboxes && db'.outboxes[p].command.Submit? && db'.outboxes[p].status.OutboxPending?
      ensures Unsent(db', p)
    {
      if p != o {
        assert Unsent(db, p);
      }
    }
  }

  lemma {:induction false} GatedFrame(db: Db, o: nat, until: int, over: set<nat>)
    requires o in db.outboxes && db.outboxes[o].intent !in over
    ensures Frame(db, Gated(db, o, until), over)
  {
  }

  lemma {:induction false} GatedKeeps(s: State, o: nat, until: int)
    requires Inv(s) && o in s.db.outboxes && s.db.outboxes[o].intent !in s.rolledBack && Unsent(s.db, o)
    ensures Inv(s.(db := Gated(s.db, o, until)))
  {
    GatedDbInv(s.db, o, until);
    GatedFrame(s.db, o, until, s.rolledBack);
    FrameKeeps(s, Gated(s.db, o, until));
  }

  // ------------------------------------------------------------------ storing the orders of a dispatch

  lemma {:induction false} StoredDbInv(db: Db, o: nat)
    requires DbInv(db) && o in db.outboxes && db.outboxes[o].command.Submit? && !db.outboxes[o].status.OutboxPending?
    ensures DbInv(Stored(db, o))
  {
    var db' := Stored(db, o);
    assert WellFormed(db') && Owned(db') && OrdersOk(db');
    assert Disjoint(db');
    forall p | p in db'.outboxes && db'.outboxes[p].command.Submit? && db'.outboxes[p].status.OutboxPending?
      ensures Unsent(db', p)
    {
      assert Unsent(db, p);
    }
  }

  lemma {:induction false} StoredClaims(db: Db, o: nat, claims: seq<Claim>)
    requires DbInv(db) && o in db.outboxes && db.outboxes[o].command.Submit? && ClaimsOk(db, claims)
    requires forall k | 0 <= k < |claims| :: claims[k].outbox != o
    ensures ClaimsOk(Stored(db, o), claims)
  {
    forall j | 0 <= j < |claims|
      ensures FreshOk(Stored(db, o), claims[j])
    {
      assert FreshOk(db, claims[j]);
    }
  }

  lemma {:induction false} StoredRolledBack(db: Db, o: nat, m: Memory, rolledBack: set<nat>)
    requires DbInv(db) && o in db.outboxes && db.outboxes[o].intent !in rolledBack && RolledBackOk(db, m, rolledBack)
    ensures RolledBackOk(Stored(db, o), m, rolledBack)
  {
    forall i | i in rolledBack
      ensures LegsOf(Stored(db, o), i) == LegsOf(db, i)
    {
    }
  }

  lemma {:induction false} StoredDispatch(db: Db, o: nat, claims: seq<Claim>, submitted: seq<Submission>)
    requires o in db.outboxes && db.outboxes[o].command.Submit? && Unsent(db, o) && SubmittedOk(db, submitted)
    requires forall k | 0 <= k < |claims| :: claims[k].outbox != o
    ensures var legs := CommandLegs(db, db.outboxes[o]);
            DispatchOk(Stored(db, o), Memory(claims, Some(Dispatch(o, legs, legs))), submitted)
    ensures SubmittedOk(Stored(db, o), submitted)
  {
  }

  lemma {:induction false} DispatchKeeps(s: State, o: nat)
    requires Inv(s) && o in s.db.outboxes && s.db.outboxes[o].intent !in s.rolledBack
    requires s.memory.dispatch.None? && s.db.outboxes[o].command.Submit? && s.db.outboxes[o].status.OutboxProcessing?
    requires Unsent(s.db, o) && forall k | 0 <= k < |s.memory.claims| :: s.memory.claims[k].outbox != o
    ensures var legs := CommandLegs(s.db, s.db.outboxes[o]);
            Inv(s.(db := Stored(s.db, o), memory := s.memory.(dispatch := Some(Dispatch(o, legs, legs)))))
  {
    StoredDbInv(s.db, o);
    StoredClaims(s.db, o, s.memory.claims);
    StoredRolledBack(s.db, o, s.memory, s.rolledBack);
    StoredDispatch(s.db, o, s.memory.claims, s.submitted);
  }

  lemma {:induction false} DispatchRunningKeeps(s: State, o: nat)
    requires Inv(s) && o in s.db.outboxes && s.db.outboxes[o].intent !in s.rolledBack
    requires s.memory.dispatch.None? && s.db.outboxes[o].command.Submit? && s.db.outboxes[o].status.OutboxProcessing?
    requires Unsent(s.db, o) && forall k | 0 <= k < |s.memory.claims| :: s.memory.claims[k].outbox != o
    ensures var legs := CommandLegs(s.db, s.db.outboxes[o]);
            Inv(s.(db := WithIntentStatus(Stored(s.db, o), s.db.outboxes[o].intent, Running),
                   memory := s.memory.(dispatch := Some(Dispatch(o, legs, legs)))))
  {
    var legs := CommandLegs(s.db, s.db.outboxes[o]);
    var i := s.db.outboxes[o].intent;
    DispatchKeeps(s, o);
    var s1 := s.(db := Stored(s.db, o), memory := s.memory.(dispatch := Some(Dispatch(o, legs, legs))));
    QuietStatus(s1.db, i, Running);
    QuietKeeps(s1, WithIntentStatus(s1.db, i, Running), i);
  }

  /** How the first transaction of a submit claim ends, by its branches. */
  lemma {:induction false} SubmitBranches(db: Db, c: Claim, input: Input)
    requires c.outbox in db.outboxes && db.outboxes[c.outbox].intent in db.intents
    requires db.outboxes[c.outbox].status.OutboxProcessing? && db.outboxes[c.outbox].command.Submit?
    ensures var legs := CommandLegs(db, db.outboxes[c.outbox]);
            ProcessClaim(db, c, input) ==
              if legs == {} then (Fail(db, c.outbox, FailedIntent), None)
              else if c.recoveryOnly then (Recover(db, c.outbox, legs, input), None)
              else if input.blockedFor.Some? then (Gated(db, c.outbox, input.now + input.blockedFor.value), None)
              else (WithIntentStatus(Stored(db, c.outbox), db.outboxes[c.outbox].intent, Running),
                    Some(Dispatch(c.outbox, legs, legs)))
  {
  }

  /** By its ownership, a submit command always has legs. */
  lemma {:induction false} CommandHasLegs(db: Db, o: nat)
    requires Owned(db) && o in db.outboxes && db.outboxes[o].command.Submit?
    ensures CommandLegs(db, db.outboxes[o]) != {}
  {
    var l :| l in Ids(db.outboxes[o].command);
    assert l in CommandLegs(db, db.outboxes[o]);
  }

  lemma {:induction false} RecoveryClaimKeeps(s: State, c: Claim, input: Input)
    requires Inv(s) && FreshOk(s.db, c) && c.recoveryOnly && SoundAdvance(s.db, c.outbox, input.advance)
    requires s.db.outboxes[c.outbox].status.OutboxProcessing? && s.db.outboxes[c.outbox].command.Submit?
    requires s.db.outboxes[c.outbox].intent !in s.rolledBack
    ensures Inv(s.(db := ProcessClaim(s.db, c, input).0))
  {
    CommandHasLegs(s.db, c.outbox);
    RecoverKeeps(s, c.outbox, CommandLegs(s.db, s.db.outboxes[c.outbox]), input);
  }

  lemma {:induction false} GatedOutcome(db: Db, c: Claim, input: Input)
    requires DbInv(db) && FreshOk(db, c) && !c.recoveryOnly && input.blockedFor.Some?
    requires db.outboxes[c.outbox].status.OutboxProcessing? && db.outboxes[c.outbox].command.Submit?
    ensures ProcessClaim(db, c, input).0 == Gated(db, c.outbox, input.now + input.blockedFor.value)
    ensures ProcessClaim(db, c, input).1.None?
  {
    CommandHasLegs(db, c.outbox);
  }

  lemma {:induction false} GatedClaimKeeps(s: State, o: nat, until: int, db: Db)
    requires Inv(s) && o in s.db.outboxes && s.db.outboxes[o].intent !in s.rolledBack && Unsent(s.db, o)
    requires s.memory.dispatch.None? && db == Gated(s.db, o, until)
    ensures Inv(s.(db := db, memory := s.memory.(dispatch := None)))
  {
    GatedKeeps(s, o, until);
    NoDispatch(s, db);
  }

  lemma {:induction false} FreshClaimKeeps(s: State, c: Claim, input: Input)
    requires Inv(s) && FreshOk(s.db, c) && !c.recoveryOnly && input.blockedFor.None?
    requires s.db.outboxes[c.outbox].status.OutboxProcessing? && s.db.outboxes[c.outbox].command.Submit?
    requires s.db.outboxes[c.outbox].intent !in s.rolledBack && s.memory.dispatch.None?
    requires forall k | 0 <= k < |s.memory.claims| :: s.memory.claims[k].outbox != c.outbox
    ensures Inv(s.(db := ProcessClaim(s.db, c, input).0,
        memory := s.memory.(dispatch := ProcessClaim(s.db, c, input).1)))
  {
    CommandHasLegs(s.db, c.outbox);
    DispatchRunningKeeps(s, c.outbox);
  }

  /** The tables after the first transaction of a claim. */
  lemma {:induction false} ProcessKeeps(s: State, input: Input)
    requires Inv(s) && s.memory.dispatch.None? && s.memory.claims != []
    requires SoundAdvance(s.db, s.memory.claims[0].outbox, input.advance)
    ensures Inv(s.(db := ProcessClaim(s.db, s.memory.claims[0], input).0,
                   memory := Memory(s.memory.claims[1..], ProcessClaim(s.db, s.memory.claims[0], input).1)))
  {
    var c := s.memory.claims[0];
    var s1 := s.(memory := Memory(s.memory.claims[1..], None));
    ForgetKeeps(s, s1.memory);
    assert FreshOk(s.db, c);
    TakenClaimKeeps(s1, c, input);
  }

  lemma {:induction false} SubmitClaimKeeps(s: State, c: Claim, input: Input)
    requires Inv(s) && FreshOk(s.db, c) && SoundAdvance(s.db, c.outbox, input.advance)
    requires s.memory.dispatch.None? && forall k | 0 <= k < |s.memory.claims| :: s.memory.claims[k].outbox != c.outbox
    requires s.db.outboxes[c.outbox].status.OutboxProcessing? && s.db.outboxes[c.outbox].command.Submit?
    requires s.db.outboxes[c.outbox].intent !in s.rolledBack
    ensures Inv(s.(db := ProcessClaim(s.db, c, input).0,
        memory := s.memory.(dispatch := ProcessClaim(s.db, c, input).1)))
  {
    if c.recoveryOnly {
      CommandHasLegs(s.db, c.outbox);
      RecoveryClaimKeeps(s, c, input);
      NoDispatch(s, ProcessClaim(s.db, c, input).0);
    } else if input.blockedFor.Some? {
      GatedOutcome(s.db, c, input);
      GatedClaimKeeps(s, c.outbox, input.now + input.blockedFor.value, ProcessClaim(s.db, c, input).0);
    } else {
      FreshClaimKeeps(s, c, input);
    }
  }

  /** The branches for a claim that was taken from memory. */
  lemma {:induction false} TakenClaimKeeps(s: State, c: Claim, input: Input)
    requires Inv(s) && FreshOk(s.db, c) && SoundAdvance(s.db, c.outbox, input.advance)
    requires s.memory.dispatch.None? && forall k | 0 <= k < |s.memory.claims| :: s.memory.claims[k].outbox != c.outbox
    ensures Inv(s.(db := ProcessClaim(s.db, c, input).0,
        memory := s.memory.(dispatch := ProcessClaim(s.db, c, input).1)))
  {
    var o := s.db.outboxes[c.outbox];
    if !o.status.OutboxProcessing? {
      NoDispatch(s, s.db);
    } else {
      assert o.intent in s.db.intents && o.intent !in s.rolledBack;
      if o.command.CancelOrder? {
        ProcessCancelKeeps(s, c.outbox, o.command.leg, c.recoveryOnly, input);
        NoDispatch(s, ProcessClaim(s.db, c, input).0);
      } else {
        SubmitClaimKeeps(s, c, input);
      }
    }
  }

  lemma {:induction false} NoDispatch(s: State, db: Db)
    requires Inv(s.(db := db)) && s.memory.dispatch.None?
    ensures Inv(s.(db := db, memory := s.memory.(dispatch := None)))
  {
  }

  lemma {:induction false} SubmitKeeps(s: State, l: nat)
    requires Inv(s) && s.memory.dispatch.Some? && l in s.memory.dispatch.value.waiting && l in s.db.orders
    ensures var d := s.memory.dispatch.value;
            Inv(s.(memory := s.memory.(dispatch := Some(d.(waiting := d.waiting - {l}))),
                   submitted := s.submitted + [Submission(l, s.db.orders[l].clientId)]))
  {
    var d := s.memory.dispatch.value;
    var m := s.memory.(dispatch := Some(d.(waiting := d.waiting - {l})));
    var submitted := s.submitted + [Submission(l, s.db.orders[l].clientId)];
    forall k, j | 0 <= j < k < |submitted|
      ensures submitted[j].leg != submitted[k].leg
    {
      if k == |s.submitted| {
        assert !WasSubmitted(s.submitted, l);
      }
    }
    assert SubmittedOk(s.db, submitted);
    forall p | p in d.waiting - {l}
      ensures !WasSubmitted(submitted, p)
    {
      assert !WasSubmitted(s.submitted, p);
    }
    assert DispatchOk(s.db, m, submitted);
    assert RolledBackOk(s.db, m, s.rolledBack);
  }

  lemma {:induction false} ConcludeKeeps(s: State, answers: map<nat, Answer>, a: Advance, now: int)
    requires Inv(s) && s.memory.dispatch.Some? && SoundAdvance(s.db, s.memory.dispatch.value.outbox, a)
    ensures Inv(s.(db := Conclude(s.db, s.memory.dispatch.value, answers, a, now),
                   memory := s.memory.(dispatch := None)))
  {
    var d := s.memory.dispatch.value;
    var s0 := s.(memory := s.memory.(dispatch := None));
    assert s.db.outboxes[d.outbox].intent !in s.rolledBack;
    ForgetKeeps(s, s0.memory);
    QuietRecordAll(s.db, d.legs, answers, s.db.outboxes[d.outbox].intent);
    EndKeeps(s0, RecordAll(s.db, d.legs, answers), d.outbox, a, now);
    MarkKeeps(s0.(db := RecordAll(s.db, d.legs, answers)), d.outbox, OutboxProcessing, Some(now), RecoveryRequired);
  }

  lemma {:induction false} SupersedeKeeps(s: State, i: nat)
    requires Inv(s) && i in s.db.intents && s.db.intents[i].status.RecoveryRequired?
    ensures Inv(s.(db := WithIntentStatus(s.db, i, Superseded)))
  {
    QuietStatus(s.db, i, Superseded);
    QuietKeeps(s, WithIntentStatus(s.db, i, Superseded), i);
  }

  lemma {:induction false} AdvanceStoredKeeps(s: State, o: nat, a: Advance, now: int)
    requires Inv(s) && Enabled(s, AdvanceStored(o, a, now))
    ensures Inv(s.(db := Finish(s.db, o, a, now)))
  {
    assert s.db.outboxes[o].intent !in s.rolledBack;
    FinishKeeps(s, o, a, now);
  }

  lemma {:induction false} ObserveKeeps(s: State, l: nat, a: Answer)
    requires Inv(s)
    ensures Inv(s.(db := Record(s.db, l, a)))
  {
    if l in s.db.orders && l in s.db.legs {
      var i := s.db.legs[l].intent;
      assert i !in s.rolledBack by {
        assert l in LegsOf(s.db, i);
      }
      RecordKeeps(s, l, a, i);
    }
  }

  lemma {:induction false} StepKeeps(s: State, a: Action)
    requires Inv(s) && Enabled(s, a)
    ensures Inv(Step(s, a))
  {
    match a {
      case Create(key, kind, maker, group, previous, plans, now) =>
        CreateKeeps(s, key, kind, maker, group, previous, plans, now);
      case Crash => ForgetKeeps(s, Memory([], None));
      case Supersede(i) => SupersedeKeeps(s, i);
      case RepairRollback(now) => RollbackStaleKeeps(s, now, s.db.nextIntent);
      case RepairRequeue(now) => RequeueUnsentKeeps(s, now, s.db.nextOutbox, Step(s, a));
      case Observe(l, answer) => ObserveKeeps(s, l, answer);
      case AdvanceStored(o, advance, now) => AdvanceStoredKeeps(s, o, advance, now);
      case ClaimBatch(now, timeout, limit) => ClaimBatchKeeps(s, now, timeout, limit, s.db.nextOutbox);
      case Process(input) => ProcessKeeps(s, input);
      case SubmitOne(l) => SubmitKeeps(s, l);
      case ConcludeDispatch(answers, advance, now) => ConcludeKeeps(s, answers, advance, now);
    }
  }

  lemma {:induction false} RunKeeps(s: State, actions: seq<Action>)
    requires Inv(s) && Possible(s, actions)
    ensures Inv(Run(s, actions))
    decreases |actions|
  {
    if actions != [] {
      StepKeeps(s, actions[0]);
      RunKeeps(Step(s, actions[0]), actions[1..]);
    }
  }

  lemma {:induction false} StartInv()
    ensures Inv(START)
  {
  }
}
