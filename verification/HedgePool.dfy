/**
 The shared pool of hedge group snapshots: one Redis hash that many clients change by optimistic updates
 (WATCH, read, compute, MULTI/EXEC, at most five attempts) and by blind writes.
 */
module HedgePool {
  import opened Common
  import opened Lifecycle

  /** `updatedAt` is the version; an old entry has none. `terms` stands for the fields no update changes. */
  datatype Snapshot = Snapshot(
    id: nat, status: GroupStatus, updatedAt: Option<int>, unrealized: real, realized: real, fees: real,
    closedAt: Option<int>, reason: string, terms: string)

  type Pool = map<nat, Snapshot>

  predicate InPool(s: GroupStatus) {
    s.GroupOpening? || s.GroupOpen? || s.GroupOpenPartial? || s.GroupClosing? || s.GroupManual?
  }

  predicate AutoClose(s: GroupStatus) {
    s.GroupOpen? || s.GroupOpenPartial?
  }

  /** `_not_newer_than`: no version counts as older than any. */
  predicate NotNewer(value: Option<int>, reference: Option<int>) {
    value.None? || (reference.Some? && value.value <= reference.value)
  }

  datatype Op =
    | MarkClosing(id: nat, reason: string, estimated: Option<real>)
    | MarkClosed(id: nat, realizedPnl: Option<real>, feesDelta: real, reason: string, status: GroupStatus)
    | MarkManual(id: nat, reason: string)
    | Merge(incoming: Snapshot)
    | Remove(id: nat, cutoff: int)
    | Upsert(snapshot: Snapshot)

  function Target(op: Op): nat {
    match op
    case Merge(incoming) => incoming.id
    case Upsert(snapshot) => snapshot.id
    case _ => op.id
  }

  /** What an update decides from the entry it read. */
  datatype Verdict = Leave | Write(snapshot: Snapshot) | Delete

  function OrText(text: string, fallback: string): string {
    if text == "" then fallback else text
  }

  function Decide(op: Op, now: int, current: Option<Snapshot>): Verdict {
    match op
    case MarkClosing(_, reason, estimated) =>
      if current.None? || !AutoClose(current.value.status) then Leave
      else
        var c := current.value;
        Write(c.(status := GroupClosing, reason := OrText(reason, c.reason),
                 unrealized := estimated.Extract(c.unrealized), updatedAt := Some(now)))
    case MarkClosed(_, realized, delta, reason, status) =>
      if current.None? then Leave
      else
        var c := current.value;
        Write(c.(status := status, closedAt := if status.GroupClosed? then Some(now) else c.closedAt,
                 realized := realized.Extract(c.realized),
                 unrealized := if status.GroupClosed? then 0.0 else c.unrealized,
                 fees := c.fees + delta, reason := OrText(reason, c.reason), updatedAt := Some(now)))
    case MarkManual(_, reason) =>
      if current.None? then Leave
      else
        var c := current.value;
        Write(c.(status := GroupManual, reason := OrText(reason, c.reason), updatedAt := Some(now)))
    case Merge(incoming) =>
      if current.Some? && !NotNewer(current.value.updatedAt, incoming.updatedAt) then Write(current.value)
      else if current.Some? && AutoClose(incoming.status) && AutoClose(current.value.status) then
        Write(incoming.(unrealized := current.value.unrealized))
      else Write(incoming)
    case Remove(_, cutoff) =>
      if current.None? || !NotNewer(current.value.updatedAt, Some(cutoff)) then Leave else Delete
    case Upsert(snapshot) => Write(snapshot)
  }

  function Get(pool: Pool, id: nat): Option<Snapshot> {
    if id in pool then Some(pool[id]) else None
  }

  /** Only entries with a pool status are kept. */
  function Commit(pool: Pool, id: nat, v: Verdict): Pool {
    match v
    case Leave => pool
    case Write(s) => if InPool(s.status) then pool[id := s] else pool - {id}
    case Delete => pool - {id}
  }

  /** Redis counts a set as a write, and a delete only if the field is there. */
  predicate Writes(pool: Pool, id: nat, v: Verdict) {
    match v
    case Leave => false
    case Write(s) => InPool(s.status) || id in pool
    case Delete => id in pool
  }

  lemma {:induction false} NoWriteNoChange(pool: Pool, id: nat, v: Verdict)
    requires !Writes(pool, id, v)
    ensures Commit(pool, id, v) == pool
  {
  }

  /** An operation that took effect, at the time its decision was made. */
  datatype Entry = Entry(client: nat, op: Op, now: int)

  function Effect(pool: Pool, e: Entry): Pool {
    Commit(pool, Target(e.op), Decide(e.op, e.now, Get(pool, Target(e.op))))
  }

  predicate EffectWrites(pool: Pool, e: Entry) {
    Writes(pool, Target(e.op), Decide(e.op, e.now, Get(pool, Target(e.op))))
  }

  /** The operations one after another. */
  function Sequential(pool: Pool, log: seq<Entry>): Pool {
    if log == [] then pool else Effect(Sequential(pool, log[..|log| - 1]), log[|log| - 1])
  }

  lemma {:induction false} SequentialOneMore(pool: Pool, log: seq<Entry>, e: Entry)
    ensures Sequential(pool, log + [e]) == Effect(Sequential(pool, log), e)
  {
    assert (log + [e])[..|log|] == log;
  }

  lemma {:induction false} SequentialSplit(pool: Pool, a: seq<Entry>, b: seq<Entry>)
    ensures Sequential(pool, a + b) == Sequential(Sequential(pool, a), b)
  {
    if b == [] {
      assert a + b == a;
    } else {
      assert (a + b)[..|a + b| - 1] == a + b[..|b| - 1];
      SequentialSplit(pool, a, b[..|b| - 1]);
    }
  }

  // ------------------------------------------------------------------ the store, seen by one client

  /** One attempt of an update: the time it reads, and what others commit between its read and its EXEC. */
  datatype Attempt = Attempt(now: int, others: seq<Entry>)

  datatype Outcome = Done(verdict: Verdict) | TooManyConflicts

  const ATTEMPTS := 5

  class HedgePoolStore {
    const me: nat
    var pool: Pool
    /** Redis bumps it with every effective write to the hash; WATCH compares it. */
    var writes: nat
    ghost var log: seq<Entry>

    constructor (me: nat, pool: Pool)
      ensures this.me == me && this.pool == pool && log == []
    {
      this.me, this.pool, writes, log := me, pool, 0, [];
    }

    /** Other clients commit. */
    method Interfere(others: seq<Entry>)
      modifies this`pool, this`writes, this`log
      ensures pool == Sequential(old(pool), others) && log == old(log) + others
      ensures writes >= old(writes) && (writes == old(writes) ==> pool == old(pool))
      ensures others == [] ==> writes == old(writes)
    {
      for k := 0 to |others|
        invariant pool == Sequential(old(pool), others[..k]) && log == old(log) + others[..k]
        invariant writes >= old(writes) && (writes == old(writes) ==> pool == old(pool))
        invariant k == 0 ==> writes == old(writes)
      {
        assert others[..k + 1][..k] == others[..k];
        assert old(log) + others[..k + 1] == (old(log) + others[..k]) + [others[k]];
        if EffectWrites(pool, others[k]) {
          writes := writes + 1;
        } else {
          NoWriteNoChange(pool, Target(others[k].op),
            Decide(others[k].op, others[k].now, Get(pool, Target(others[k].op))));
        }
        pool := Effect(pool, others[k]);
        log := log + [others[k]];
      }
      assert others[..|others|] == others;
    }

    /** What happens during an attempt is done by other clients. */
    predicate OthersOnly(attempts: seq<Attempt>) {
      forall k, j | 0 <= k < |attempts| && 0 <= j < |attempts[k].others| :: attempts[k].others[j].client != me
    }

    /**
     One attempt between WATCH and EXEC. It takes effect at once when there is nothing to write, or after what
     others did in between when none of that was a write.
     */
    method TryUpdate(op: Op, attempt: Attempt) returns (verdict: Option<Verdict>, ghost between: seq<Entry>)
      modifies this`pool, this`writes, this`log
      ensures between == [] || between == attempt.others
      ensures verdict.None? ==>
                between == attempt.others != [] && log == old(log) + between && pool == Sequential(old(pool), between)
      ensures verdict.Some? ==>
                && log == old(log) + between + [Entry(me, op, attempt.now)]
                && pool == Effect(Sequential(old(pool), between), Entry(me, op, attempt.now))
                && verdict.value == Decide(op, attempt.now, Get(Sequential(old(pool), between), Target(op)))
    {
      between := [];
      var watched := writes;
      var decided := Decide(op, attempt.now, Get(pool, Target(op)));
      if decided.Leave? {
        log := log + [Entry(me, op, attempt.now)];
        return Some(decided), between;
      }
      Interfere(attempt.others);
      between := attempt.others;
      if writes != watched {
        return None, between;
      }
      writes := writes + if Writes(pool, Target(op), decided) then 1 else 0;
      pool := Commit(pool, Target(op), decided);
      log := log + [Entry(me, op, attempt.now)];
      verdict := Some(decided);
    }

    /** The update took effect after these operations of the others, and its verdict is the one at that point. */
    ghost predicate TookEffect(
      start: Pool, earlier: seq<Entry>, before: seq<Entry>, op: Op, verdict: Verdict, after: seq<Entry>)
    {
      exists now ::
        after == earlier + before + [Entry(me, op, now)]
        && verdict == Decide(op, now, Get(Sequential(start, before), Target(op)))
    }

    lemma {:induction false} Attempted(
      start: Pool, earlier: seq<Entry>, before: seq<Entry>, op: Op, now: int, after: seq<Entry>)
      requires after == earlier + before + [Entry(me, op, now)]
      ensures earlier <= after && after[|earlier|..] == before + [Entry(me, op, now)]
      ensures Sequential(start, after[|earlier|..]) == Effect(Sequential(start, before), Entry(me, op, now))
      ensures TookEffect(
                start, earlier, before, op, Decide(op, now, Get(Sequential(start, before), Target(op))), after)
    {
      SequentialOneMore(start, before, Entry(me, op, now));
    }

    /** One attempt more, with what it let happen in between. */
    lemma {:induction false} Continued(start: Pool, earlier: seq<Entry>, before: seq<Entry>, between: seq<Entry>)
      requires forall j | 0 <= j < |before| :: before[j].client != me
      requires forall j | 0 <= j < |between| :: between[j].client != me
      ensures Sequential(start, before + between) == Sequential(Sequential(start, before), between)
      ensures earlier + before + between == earlier + (before + between)
      ensures forall j | 0 <= j < |before + between| :: (before + between)[j].client != me
    {
      SequentialSplit(start, before, between);
    }

    /**
     `_atomic_update`, and `_remove_if_not_newer`, which has the same loop. The update takes effect at one
     point between the operations of the others, or not at all after five attempts that others cut short.
     */
    method AtomicUpdate(op: Op, attempts: seq<Attempt>) returns (outcome: Outcome, ghost before: seq<Entry>)
      requires |attempts| == ATTEMPTS && OthersOnly(attempts)
      modifies this`pool, this`writes, this`log
      ensures old(log) <= log
      ensures pool == Sequential(old(pool), log[|old(log)|..])
      ensures forall k | 0 <= k < |before| :: before[k].client != me
      ensures outcome.Done? ==> TookEffect(old(pool), old(log), before, op, outcome.verdict, log)
      ensures outcome.TooManyConflicts? ==>
                log == old(log) + before && forall k | 0 <= k < ATTEMPTS :: attempts[k].others != []
    {
      before := [];
      ghost var p0, l0 := pool, log;
      for k := 0 to ATTEMPTS
        invariant log == l0 + before && pool == Sequential(p0, before)
        invariant forall j | 0 <= j < k :: attempts[j].others != []
        invariant forall j | 0 <= j < |before| :: before[j].client != me
      {
        var verdict: Option<Verdict>;
        ghost var between;
        verdict, between := TryUpdate(op, attempts[k]);
        Continued(p0, l0, before, between);
        before := before + between;
        if verdict.Some? {
          Attempted(p0, l0, before, op, attempts[k].now, log);
          return Done(verdict.value), before;
        }
      }
      assert log[|l0|..] == before;
      outcome := TooManyConflicts;
    }

    /** `upsert_group`: a blind write. */
    method UpsertGroup(s: Snapshot)
      modifies this`pool, this`writes, this`log
      ensures pool == Effect(old(pool), Entry(me, Upsert(s), 0)) && log == old(log) + [Entry(me, Upsert(s), 0)]
    {
      writes := writes + if Writes(pool, s.id, Write(s)) then 1 else 0;
      pool := if InPool(s.status) then pool[s.id := s] else pool - {s.id};
      log := log + [Entry(me, Upsert(s), 0)];
    }

    /** The load's own operations: merges of the rows it read, and removals up to the time it started. */
    ghost predicate LoadEntries(entries: seq<Entry>, rows: seq<Snapshot>, startedAt: int) {
      forall k | 0 <= k < |entries| && entries[k].client == me ::
        (entries[k].op.Merge? && entries[k].op.incoming in rows)
        || (entries[k].op.Remove? && entries[k].op.cutoff == startedAt && entries[k].op.id !in RowIds(rows))
    }

    /**
     `load_from_db`: merges every row of an active group, then removes the entries of other groups that are
     not newer than the start of the load. Others may commit during each of its updates; they are not `me`.
     */
    method LoadFromDb(rows: seq<Snapshot>, startedAt: int, env: nat -> seq<Attempt>) returns (completed: bool)
      requires forall n :: |env(n)| == ATTEMPTS && OthersOnly(env(n))
      modifies this`pool, this`writes, this`log
      ensures old(log) <= log
      ensures pool == Sequential(old(pool), log[|old(log)|..])
      ensures LoadEntries(log[|old(log)|..], rows, startedAt)
    {
      var n := 0;
      ghost var start, base := log, pool;
      for k := 0 to |rows|
        invariant start <= log && pool == Sequential(base, log[|start|..])
        invariant LoadEntries(log[|start|..], rows, startedAt)
      {
        completed := LoadStep(Merge(rows[k]), rows, startedAt, env(n), start, base);
        if !completed {
          return;
        }
        n := n + 1;
      }
      var seen, left := pool, pool.Keys;
      while left != {}
        invariant left <= seen.Keys
        invariant start <= log && pool == Sequential(base, log[|start|..])
        invariant LoadEntries(log[|start|..], rows, startedAt)
      {
        var id :| id in left;
        if id !in RowIds(rows) && NotNewer(seen[id].updatedAt, Some(startedAt)) {
          completed := LoadStep(Remove(id, startedAt), rows, startedAt, env(n), start, base);
          if !completed {
            return;
          }
          n := n + 1;
        }
        left := left - {id};
      }
      completed := true;
    }

    lemma {:induction false} LoadEntriesAppend(was: seq<Entry>, added: seq<Entry>,
        rows: seq<Snapshot>, startedAt: int, op: Op)
      requires LoadEntries(was, rows, startedAt) && LoadEntries([Entry(me, op, 0)], rows, startedAt)
      requires forall k | 0 <= k < |added| && added[k].client == me :: added[k].op == op
      ensures LoadEntries(was + added, rows, startedAt)
    {
      assert [Entry(me, op, 0)][0].op == op && [Entry(me, op, 0)][0].client == me;
    }

    /** The load's part of the log grows by one update of its own. */
    lemma {:induction false} LoadLogGrows(
      start: seq<Entry>, was: seq<Entry>, now: seq<Entry>, base: Pool, middle: Pool,
      rows: seq<Snapshot>, startedAt: int, op: Op)
      requires start <= was <= now && middle == Sequential(base, was[|start|..])
      requires LoadEntries(was[|start|..], rows, startedAt) && LoadEntries([Entry(me, op, 0)], rows, startedAt)
      requires forall k | |was| <= k < |now| && now[k].client == me :: now[k].op == op
      ensures start <= now && Sequential(middle, now[|was|..]) == Sequential(base, now[|start|..])
      ensures LoadEntries(now[|start|..], rows, startedAt)
    {
      assert now[|start|..] == was[|start|..] + now[|was|..];
      SequentialSplit(base, was[|start|..], now[|was|..]);
      LoadEntriesAppend(was[|start|..], now[|was|..], rows, startedAt, op);
    }

    method LoadStep(
      op: Op, rows: seq<Snapshot>, startedAt: int, attempts: seq<Attempt>, ghost start: seq<Entry>, ghost base: Pool)
      returns (completed: bool)
      requires |attempts| == ATTEMPTS && OthersOnly(attempts)
      requires start <= log && pool == Sequential(base, log[|start|..])
      requires LoadEntries(log[|start|..], rows, startedAt)
      requires LoadEntries([Entry(me, op, 0)], rows, startedAt)
      modifies this`pool, this`writes, this`log
      ensures start <= log && pool == Sequential(base, log[|start|..])
      ensures LoadEntries(log[|start|..], rows, startedAt)
    {
      var outcome: Outcome;
      ghost var before;
      outcome, before := AtomicUpdate(op, attempts);
      completed := outcome.Done?;
      LoadLogGrows(start, old(log), log, base, old(pool), rows, startedAt, op);
    }
  }

  function RowIds(rows: seq<Snapshot>): set<nat> {
    set k | 0 <= k < |rows| :: rows[k].id
  }
}
