/** Runs of one sequential gateway handler: any message at any time, again and again, with expiring results. */
module GatewayRuns {
  import opened Common
  import opened Gateway

  datatype Handler = Handler(message: Message, pc: Pc)

  datatype State = State(store: Store, handler: Option<Handler>)

  datatype Action = Deliver(message: Message) | Advance(choice: Choice) | Expire(key: Key)

  predicate Enabled(s: State, a: Action) {
    match a
    case Deliver(_) => s.handler.None?
    case Advance(_) => s.handler.Some?
    case Expire(k) => k in s.store.results
  }

  function Step(s: State, a: Action): State
    requires Enabled(s, a)
  {
    match a
    case Deliver(m) => s.(handler := Some(Handler(m, Read)))
    case Advance(c) =>
      var h := s.handler.value;
      var (store, then') := Next(s.store, h.message, h.pc, c);
      State(store, if then'.Stop? then None else Some(h.(pc := then'.pc)))
    case Expire(k) => s.(store := Logged(s.store.(results := s.store.results - {k}), Expired(k)))
  }

  predicate Possible(s: State, actions: seq<Action>)
    decreases |actions|
  {
    actions == [] || (Enabled(s, actions[0]) && Possible(Step(s, actions[0]), actions[1..]))
  }

  function Run(s: State, actions: seq<Action>): State
    requires Possible(s, actions)
    decreases |actions|
  {
    if actions == [] then s else Run(Step(s, actions[0]), actions[1..])
  }

  const START := State(Store(map[], {}, {}, []), None)

  // ------------------------------------------------------------------ reading the log

  /** Dispatches of a key since its result last expired. */
  function Since(log: seq<Event>, k: Key): nat {
    if log == [] then 0
    else
      var e, rest := log[|log| - 1], log[..|log| - 1];
      if e == Expired(k) then 0
      else Since(rest, k) + if e.Dispatched? && e.key == k then 1 else 0
  }

  /** What the latest dispatch of a key answered. */
  function Latest(log: seq<Event>, k: Key): Option<Data> {
    if log == [] then None
    else
      var e, rest := log[|log| - 1], log[..|log| - 1];
      if e.Dispatched? && e.key == k then e.answer else Latest(rest, k)
  }

  predicate Answered(log: seq<Event>, message: nat) {
    exists p | 0 <= p < |log| :: log[p] == Refused(message) || (log[p].Replied? && log[p].message == message)
  }

  lemma {:induction false} LogOneMore(log: seq<Event>, e: Event)
    ensures forall k :: Since(log + [e], k) ==
              if e == Expired(k) then 0 else Since(log, k) + if e.Dispatched? && e.key == k then 1 else 0
    ensures forall k :: Latest(log + [e], k) == if e.Dispatched? && e.key == k then e.answer else Latest(log, k)
    ensures forall m | Answered(log, m) :: Answered(log + [e], m)
    ensures forall m | e == Refused(m) || (e.Replied? && e.message == m) :: Answered(log + [e], m)
  {
    assert (log + [e])[..|log|] == log;
    forall m | Answered(log, m)
      ensures Answered(log + [e], m)
    {
      var p :| 0 <= p < |log| && (log[p] == Refused(m) || (log[p].Replied? && log[p].message == m));
      assert (log + [e])[p] == log[p];
    }
    forall m | e == Refused(m) || (e.Replied? && e.message == m)
      ensures Answered(log + [e], m)
    {
      assert (log + [e])[|log|] == e;
    }
  }

  // ------------------------------------------------------------------ the invariant

  /** A reply with a key carries the answer of the latest dispatch of that key before it. */
  ghost predicate RepliesOk(log: seq<Event>) {
    forall p | 0 <= p < |log| && log[p].Replied? && HasKey(log[p].key) ::
      Latest(log[..p], log[p].key) == Some(log[p].data)
  }

  /** Two dispatches of a key have an expiry of its result between them. */
  ghost predicate DispatchesOk(log: seq<Event>) {
    forall p | 0 <= p < |log| && log[p].Dispatched? && HasKey(log[p].key) :: Since(log[..p], log[p].key) == 0
  }

  ghost predicate StoreOk(s: Store) {
    && RepliesOk(s.log) && DispatchesOk(s.log)
    && (forall k | k in s.results :: HasKey(k) && Latest(s.log, k) == Some(s.results[k]))
    && (forall m | m in s.acked :: Answered(s.log, m))
  }

  /** A key was dispatched since its last expiry only if its result or its lock is still there. */
  ghost predicate Guarded(s: Store, k: Key) {
    k in s.results || k in s.locks || Since(s.log, k) == 0
  }

  ghost predicate HandlerOk(s: Store, h: Handler) {
    var k := h.message.key;
    match h.pc
    case Read => true
    case Lock => HasKey(k) && k !in s.results
    case Dispatching => HasKey(k) ==> k in s.locks && k !in s.results && Since(s.log, k) == 0
    case Save(data) => HasKey(k) && k in s.locks && Latest(s.log, k) == Some(data)
    case Unlock(data) => HasKey(k) && Latest(s.log, k) == Some(data) && (k in s.results || Since(s.log, k) == 0)
    case ReplyOk(data) => HasKey(k) ==> Latest(s.log, k) == Some(data)
    case AckOk => Answered(s.log, h.message.id)
    case ReplyError => true
    case AckError => Answered(s.log, h.message.id)
  }

  ghost predicate Inv(s: State) {
    && StoreOk(s.store)
    && (forall k | HasKey(k) :: Guarded(s.store, k))
    && (s.handler.Some? ==> HandlerOk(s.store, s.handler.value))
  }

  /** Appending one event keeps what the log says, if the event itself is in order. */
  lemma {:induction false} LogKeepsOk(log: seq<Event>, e: Event)
    requires RepliesOk(log) && DispatchesOk(log)
    requires e.Replied? && HasKey(e.key) ==> Latest(log, e.key) == Some(e.data)
    requires e.Dispatched? && HasKey(e.key) ==> Since(log, e.key) == 0
    ensures RepliesOk(log + [e]) && DispatchesOk(log + [e])
  {
    var longer := log + [e];
    assert longer[..|log|] == log;
    forall p | 0 <= p < |log|
      ensures longer[p] == log[p] && longer[..p] == log[..p]
    {
    }
  }

  ghost predicate AdvanceOk(s: Store, m: Message, pc: Pc, c: Choice) {
    var (t, then') := Next(s, m, pc, c);
    Inv(State(t, if then'.Stop? then None else Some(Handler(m, then'.pc))))
  }

  lemma {:induction false} SilentAdvance(s: Store, m: Message, pc: Pc, c: Choice)
    requires Inv(State(s, Some(Handler(m, pc)))) && (pc.Read? || pc.Lock? || pc.AckOk? || pc.AckError?)
    ensures AdvanceOk(s, m, pc, c)
  {
  }

  lemma {:induction false} SavingAdvance(s: Store, m: Message, pc: Pc, c: Choice)
    requires Inv(State(s, Some(Handler(m, pc)))) && (pc.Save? || pc.Unlock?)
    ensures AdvanceOk(s, m, pc, c)
  {
  }

  lemma {:induction false} DispatchingAdvance(s: Store, m: Message, c: Choice)
    requires Inv(State(s, Some(Handler(m, Dispatching))))
    ensures AdvanceOk(s, m, Dispatching, c)
  {
    var e := Dispatched(m.key, if c.Fine? then Some(c.data) else None);
    if !c.Dies? {
      LogOneMore(s.log, e);
      LogKeepsOk(s.log, e);
      var t := Logged(s, e);
      assert StoreOk(t);
      forall k | HasKey(k)
        ensures Guarded(t, k)
      {
        assert Guarded(s, k);
      }
    }
  }

  lemma {:induction false} ReplyingAdvance(s: Store, m: Message, pc: Pc, c: Choice)
    requires Inv(State(s, Some(Handler(m, pc)))) && (pc.ReplyOk? || pc.ReplyError?)
    ensures AdvanceOk(s, m, pc, c)
  {
    if !c.Dies? && !c.FailsBefore? {
      var e := if pc.ReplyOk? then Replied(m.id, m.key, pc.data) else Refused(m.id);
      LogOneMore(s.log, e);
      LogKeepsOk(s.log, e);
      var t := Logged(s, e);
      assert StoreOk(t);
      forall k | HasKey(k)
        ensures Guarded(t, k)
      {
        assert Guarded(s, k);
      }
    }
  }

  lemma {:induction false} AdvanceKeeps(s: Store, m: Message, pc: Pc, c: Choice)
    requires Inv(State(s, Some(Handler(m, pc))))
    ensures AdvanceOk(s, m, pc, c)
  {
    match pc {
      case Dispatching => DispatchingAdvance(s, m, c);
      case Save(_) => SavingAdvance(s, m, pc, c);
      case Unlock(_) => SavingAdvance(s, m, pc, c);
      case ReplyOk(_) => ReplyingAdvance(s, m, pc, c);
      case ReplyError => ReplyingAdvance(s, m, pc, c);
      case _ => SilentAdvance(s, m, pc, c);
    }
  }

  lemma {:induction false} StepKeeps(s: State, a: Action)
    requires Inv(s) && Enabled(s, a)
    ensures Inv(Step(s, a))
  {
    match a {
      case Deliver(_) =>
      case Advance(c) => AdvanceKeeps(s.store, s.handler.value.message, s.handler.value.pc, c);
      case Expire(k) =>
        LogOneMore(s.store.log, Expired(k));
        LogKeepsOk(s.store.log, Expired(k));
    }
  }

  lemma {:induction false} RunKeeps(s: State, actions: seq<Action>)
    requires Inv(s) && Possible(s, actions)
    ensures Inv(Run(s, actions))
    decreases |actions|
  {
    if actions != [] {
      StepKeeps(s, actions[0]);
      RunKeeps(Step(s, actions[0]), actions[1..]);
    }
  }

  // ------------------------------------------------------------------ at most once

  predicate ExpiredBetween(log: seq<Event>, k: Key, p: nat, q: nat)
    requires q <= |log|
  {
    exists r | p < r < q :: log[r] == Expired(k)
  }

  lemma {:induction false} NoneSince(log: seq<Event>, k: Key, p: nat)
    requires p < |log| && log[p].Dispatched? && log[p].key == k && Since(log, k) == 0
    ensures exists r :: p < r < |log| && log[r] == Expired(k)
  {
    var n := |log| - 1;
    if log[n] != Expired(k) {
      NoneSince(log[..n], k, p);
      var r :| p < r < n && log[..n][r] == Expired(k);
      assert log[r] == Expired(k);
    }
  }

  /**
   Over every run, with failures and deaths at any operation and any redelivery: two dispatches of a
   non-empty key have an expiry of its cached result between them, and every successful reply for it carries
   the answer of the latest dispatch; an acknowledged message was answered.
   */
  lemma {:induction false} AtMostOnceUntilExpiry(actions: seq<Action>)
    requires Possible(START, actions)
    ensures var s := Run(START, actions).store;
            && (forall p, q | 0 <= p < q < |s.log| && s.log[p].Dispatched? && s.log[q].Dispatched?
                              && s.log[p].key == s.log[q].key && HasKey(s.log[p].key) ::
                  ExpiredBetween(s.log, s.log[p].key, p, q))
            && RepliesOk(s.log)
            && (forall m | m in s.acked :: Answered(s.log, m))
  {
    assert Inv(START);
    RunKeeps(START, actions);
    SpacedDispatches(Run(START, actions).store.log);
  }

  lemma {:induction false} SpacedDispatches(log: seq<Event>)
    requires DispatchesOk(log)
    ensures forall p, q | 0 <= p < q < |log| && log[p].Dispatched? && log[q].Dispatched?
                          && log[p].key == log[q].key && HasKey(log[p].key) ::
              ExpiredBetween(log, log[p].key, p, q)
  {
    forall p, q | 0 <= p < q < |log| && log[p].Dispatched? && log[q].Dispatched?
                  && log[p].key == log[q].key && HasKey(log[p].key)
      ensures ExpiredBetween(log, log[p].key, p, q)
    {
      NoneSince(log[..q], log[p].key, p);
      var r :| p < r < q && log[..q][r] == Expired(log[p].key);
      assert log[r] == Expired(log[p].key);
    }
  }

  lemma {:induction false} LatestIsDispatched(log: seq<Event>, k: Key)
    requires Latest(log, k).Some?
    ensures exists p :: 0 <= p < |log| && log[p] == Dispatched(k, Latest(log, k))
  {
    var n := |log| - 1;
    if log[n].Dispatched? && log[n].key == k {
      assert log[n] == Dispatched(k, Latest(log, k));
    } else {
      LatestIsDispatched(log[..n], k);
      var p :| 0 <= p < n && log[..n][p] == Dispatched(k, Latest(log, k));
      assert log[p] == Dispatched(k, Latest(log, k));
    }
  }

  /** While a key's result never expired, the key was dispatched at most once and all its replies are the same. */
  lemma {:induction false} OneDispatchOneAnswer(actions: seq<Action>, k: Key)
    requires Possible(START, actions) && HasKey(k)
    requires Expired(k) !in Run(START, actions).store.log
    ensures var log := Run(START, actions).store.log;
            && (forall p, q | 0 <= p < |log| && 0 <= q < |log| && log[p].Dispatched? && log[q].Dispatched?
                              && log[p].key == k && log[q].key == k :: p == q)
            && (forall p, q | 0 <= p < |log| && 0 <= q < |log| && log[p].Replied? && log[q].Replied?
                              && log[p].key == k && log[q].key == k :: log[p].data == log[q].data)
  {
    AtMostOnceUntilExpiry(actions);
    var log := Run(START, actions).store.log;
    OneDispatch(log, k);
    forall p, q | 0 <= p < |log| && 0 <= q < |log| && log[p].Replied?
      && log[q].Replied? && log[p].key == k && log[q].key == k
      ensures log[p].data == log[q].data
    {
      LatestIsDispatched(log[..p], k);
      LatestIsDispatched(log[..q], k);
      var i :| 0 <= i < p && log[..p][i] == Dispatched(k, Some(log[p].data));
      var j :| 0 <= j < q && log[..q][j] == Dispatched(k, Some(log[q].data));
      assert log[i] == log[..p][i] && log[j] == log[..q][j];
      assert i == j;
    }
  }

  lemma {:induction false} OneDispatch(log: seq<Event>, k: Key)
    requires HasKey(k) && Expired(k) !in log
    requires forall p, q | 0 <= p < q < |log| && log[p].Dispatched? && log[q].Dispatched?
                           && log[p].key == log[q].key && HasKey(log[p].key) ::
               ExpiredBetween(log, log[p].key, p, q)
    ensures forall p, q | 0 <= p < |log| && 0 <= q < |log| && log[p].Dispatched? && log[q].Dispatched?
                          && log[p].key == k && log[q].key == k :: p == q
  {
    forall p, q | 0 <= p < |log| && 0 <= q < |log|
      ensures !ExpiredBetween(log, k, p, q)
    {
    }
  }

  // ------------------------------------------------------------------ keys that are blocked

  /** The state key of an execution that never finished is there, no result is, and no handler works on it. */
  ghost predicate Blocked(s: State, k: Key) {
    && HasKey(k) && k in s.store.locks && k !in s.store.results
    && (s.handler.Some? && s.handler.value.message.key == k ==>
          var pc := s.handler.value.pc;
          pc.Read? || pc.Lock? || pc.ReplyError? || pc.AckError?)
  }

  function Dispatches(log: seq<Event>, k: Key): nat {
    if log == [] then 0
    else
      var e := log[|log| - 1];
      Dispatches(log[..|log| - 1], k) + if e.Dispatched? && e.key == k then 1 else 0
  }

  lemma {:induction false} SameDispatches(log: seq<Event>, e: Event, k: Key)
    requires !(e.Dispatched? && e.key == k)
    ensures Dispatches(log + [e], k) == Dispatches(log, k)
  {
    assert (log + [e])[..|log|] == log;
  }

  /** A step on a blocked key logs nothing, or an event that is no dispatch of the key. */
  lemma {:induction false} BlockedLog(s: State, a: Action, k: Key)
    requires Blocked(s, k) && Enabled(s, a)
    ensures Blocked(Step(s, a), k)
    ensures var before, after := s.store.log, Step(s, a).store.log;
            || after == before
            || exists e: Event :: after == before + [e] && !(e.Dispatched? && e.key == k)
  {
    var before, after := s.store.log, Step(s, a).store.log;
    if after != before {
      assert after == before + [after[|before|]];
    }
  }

  lemma {:induction false} StepStaysBlocked(s: State, a: Action, k: Key)
    requires Blocked(s, k) && Enabled(s, a)
    ensures Blocked(Step(s, a), k)
    ensures Dispatches(Step(s, a).store.log, k) == Dispatches(s.store.log, k)
  {
    BlockedLog(s, a, k);
    var before, after := s.store.log, Step(s, a).store.log;
    if after != before {
      var e :| after == before + [e] && !(e.Dispatched? && e.key == k);
      SameDispatches(before, e, k);
    }
  }

  /**
   A key whose execution ended without a stored result is never dispatched again, whatever is delivered:
   the outcome has to be reconciled by hand.
   */
  lemma {:induction false} BlockedForever(s: State, actions: seq<Action>, k: Key)
    requires Blocked(s, k) && Possible(s, actions)
    ensures Blocked(Run(s, actions), k)
    ensures Dispatches(Run(s, actions).store.log, k) == Dispatches(s.store.log, k)
    decreases |actions|
  {
    if actions != [] {
      StepStaysBlocked(s, actions[0], k);
      BlockedForever(Step(s, actions[0]), actions[1..], k);
    }
  }

  // ------------------------------------------------------------------ whole handlers

  /** A whole call of the handler keeps the invariant, and it dispatches only a key with neither result nor lock. */
  lemma {:induction false} HandleKeeps(s: Store, m: Message, pc: Pc, c: Choices)
    requires Inv(State(s, Some(Handler(m, pc))))
    ensures Inv(State(Drive(s, m, pc, c), None))
    decreases Rank(pc)
  {
    AdvanceKeeps(s, m, pc, c.At(pc));
    var (t, then') := Next(s, m, pc, c.At(pc));
    if then'.Go? {
      HandleKeeps(t, m, then'.pc, c);
    }
  }

  predicate AllFine(c: Choices) {
    && c.read.Fine? && c.lock.Fine? && c.dispatch.Fine? && c.save.Fine? && c.unlock.Fine?
    && c.replyOk.Fine? && c.ackOk.Fine? && c.replyError.Fine? && c.ackError.Fine?
  }

  /**
   When every operation succeeds, one call answers and acknowledges its message: a key with a result gets it
   again, a locked one is refused, and any other is dispatched, and its answer kept under a non-empty key.
   */
  lemma {:induction false} HandleWhenFine(s: Store, m: Message, c: Choices)
    requires AllFine(c)
    ensures var t, k, d := Drive(s, m, Read, c), m.key, c.dispatch.data;
            && t.acked == s.acked + {m.id}
            && t.log == s.log + (if HasKey(k) && k in s.results then [Replied(m.id, k, s.results[k])]
                                 else if HasKey(k) && k in s.locks then [Refused(m.id)]
                                 else [Dispatched(k, Some(d)), Replied(m.id, k, d)])
            && t.results == (if HasKey(k) && k !in s.results && k !in s.locks then s.results[k := d] else s.results)
            && t.locks == s.locks
  {
    var k, d := m.key, c.dispatch.data;
    if HasKey(k) && k in s.results {
      assert Drive(s, m, Read, c) == Drive(s, m, ReplyOk(s.results[k]), c);
    } else if HasKey(k) && k in s.locks {
      var t := s.(locks := s.locks + {k});
      assert Drive(s, m, Read, c) == Drive(s, m, Lock, c) == Drive(t, m, ReplyError, c);
      assert t.locks == s.locks;
    } else if HasKey(k) {
      var s1 := s.(locks := s.locks + {k});
      var s2 := Logged(s1, Dispatched(k, Some(d)));
      var s3 := s2.(results := s2.results[k := d]);
      var s4 := s3.(locks := s3.locks - {k});
      assert Drive(s, m, Read, c) == Drive(s, m, Lock, c) == Drive(s1, m, Dispatching, c) == Drive(s2, m, Save(d), c);
      assert Drive(s2, m, Save(d), c) == Drive(s3, m, Unlock(d), c) == Drive(s4, m, ReplyOk(d), c);
      assert Drive(s4, m, ReplyOk(d), c) == Drive(Logged(s4, Replied(m.id, k, d)), m, AckOk, c);
      assert s4.locks == s.locks;
    } else {
      var s2 := Logged(s, Dispatched(k, Some(d)));
      assert Drive(s, m, Read, c) == Drive(s, m, Dispatching, c) == Drive(s2, m, ReplyOk(d), c);
    }
  }

  // ------------------------------------------------------------------ where the guarantee ends

  function Twice(s: Store, m: Message, n: Message, d: Data): Store {
    var (a1, p1) := Next(s, m, Read, Fine(d));
    var (a2, q1) := Next(a1, n, Read, Fine(d));
    var (a3, _) := Next(a2, m, Lock, Fine(d));
    var (a4, _) := Next(a3, m, Dispatching, Fine(d));
    var (a5, _) := Next(a4, m, Save(d), Fine(d));
    var (a6, _) := Next(a5, m, Unlock(d), Fine(d));
    var (a7, _) := Next(a6, n, Lock, Fine(d));
    Next(a7, n, Dispatching, Fine(d)).0
  }

  /**
   Two interleaved handlers break the guarantee: both read before either locks, and the second lock succeeds
   after the first handler has released its own. A sequential handler is therefore needed.
   */
  lemma {:induction false} InterleavedHandlersDispatchTwice(s: Store, m: Message, n: Message, d: Data)
    requires HasKey(m.key) && m.key == n.key && m.key !in s.results && m.key !in s.locks
    ensures Next(s, m, Read, Fine(d)).1 == Go(Lock) && Next(s, n, Read, Fine(d)).1 == Go(Lock)
    ensures Twice(s, m, n, d).log == s.log + [Dispatched(m.key, Some(d)), Dispatched(m.key, Some(d))]
  {
  }

  /** Without a key nothing is remembered: handling the same message twice dispatches it twice. */
  lemma {:induction false} NoKeyNoGuarantee(s: Store, m: Message, c: Choices)
    requires !HasKey(m.key) && AllFine(c)
    ensures Drive(Drive(s, m, Read, c), m, Read, c).log ==
              s.log + [Dispatched(m.key, Some(c.dispatch.data)), Replied(m.id, m.key, c.dispatch.data),
                       Dispatched(m.key, Some(c.dispatch.data)), Replied(m.id, m.key, c.dispatch.data)]
  {
    HandleWhenFine(s, m, c);
    HandleWhenFine(Drive(s, m, Read, c), m, c);
  }

  // ------------------------------------------------------------------ failures

  /** The operations before the error reply. */
  predicate Normal(pc: Pc) {
    pc != ReplyError && pc != AckError
  }

  /**
   An operation that fails: before its effect it leaves the store as it is, after it leaves it as if it had not
   failed; a dispatch counts as made either way, with no answer. In the normal path the error reply comes next and
   nothing else; a failed error reply or acknowledgement ends the handler, so that the message comes again unless
   it was acknowledged.
   */
  lemma {:induction false} FailuresAreContained(s: Store, m: Message, pc: Pc, data: Data)
    ensures Next(s, m, pc, Dies) == (s, Stop)
    ensures Normal(pc) ==> Next(s, m, pc, FailsBefore).1 == Go(ReplyError) == Next(s, m, pc, FailsAfter).1
    ensures !Normal(pc) ==> Next(s, m, pc, FailsBefore).1 == Stop == Next(s, m, pc, FailsAfter).1
    ensures pc != Dispatching ==>
              Next(s, m, pc, FailsBefore).0 == s && Next(s, m, pc, FailsAfter).0 == Next(s, m, pc, Fine(data)).0
    ensures pc == Dispatching ==>
              Next(s, m, pc, FailsBefore) == Next(s, m, pc, FailsAfter)
              && Next(s, m, pc, FailsAfter).0 == s.(log := s.log + [Dispatched(m.key, None)])
              && Next(s, m, pc, Fine(data)).0 == s.(log := s.log + [Dispatched(m.key, Some(data))])
  {
  }
}
