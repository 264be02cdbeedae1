/** Any number of clients on one hedge pool: their optimistic updates are linearizable, and what follows from it. */
module HedgePoolRuns {
  import opened Common
  import opened Lifecycle
  import opened HedgePool

  /**
   A client between its operations; after WATCH, which noted the number of writes; or after it read its entry
   and decided, before EXEC. `left` counts the remaining attempts, `begun` the writes when it started.
   */
  datatype Client =
    | Resting
    | Watching(op: Op, left: nat, version: nat, begun: nat)
    | Deciding(op: Op, left: nat, version: nat, begun: nat, now: int, verdict: Verdict)

  datatype State = State(pool: Pool, writes: nat, clients: seq<Client>, log: seq<Entry>, verdicts: seq<Verdict>)

  datatype Action =
    | Begin(client: nat, op: Op)
    | Look(client: nat, now: int)
    | Execute(client: nat)
    | Blind(client: nat, snapshot: Snapshot, now: int)

  predicate Enabled(s: State, a: Action) {
    a.client < |s.clients| &&
    match a
    case Begin(c, op) => s.clients[c].Resting? && !op.Upsert?
    case Look(c, _) => s.clients[c].Watching?
    case Execute(c) => s.clients[c].Deciding?
    case Blind(c, _, _) => s.clients[c].Resting?
  }

  function Took(s: State, e: Entry, v: Verdict): State {
    s.(pool := Commit(s.pool, Target(e.op), v), writes := s.writes + if Writes(s.pool, Target(e.op), v) then 1 else 0,
       log := s.log + [e], verdicts := s.verdicts + [v])
  }

  function Step(s: State, a: Action): State
    requires Enabled(s, a)
  {
    match a
    case Begin(c, op) => s.(clients := s.clients[c := Watching(op, ATTEMPTS, s.writes, s.writes)])
    case Look(c, now) =>
      var w := s.clients[c];
      var v := Decide(w.op, now, Get(s.pool, Target(w.op)));
      if v.Leave? then Took(s, Entry(c, w.op, now), Leave).(clients := s.clients[c := Resting])
      else s.(clients := s.clients[c := Deciding(w.op, w.left, w.version, w.begun, now, v)])
    case Execute(c) =>
      var d := s.clients[c];
      if d.version == s.writes then Took(s, Entry(c, d.op, d.now), d.verdict).(clients := s.clients[c := Resting])
      else if d.left <= 1 then s.(clients := s.clients[c := Resting])
      else s.(clients := s.clients[c := Watching(d.op, d.left - 1, s.writes, d.begun)])
    case Blind(c, snapshot, now) => Took(s, Entry(c, Upsert(snapshot), now), Write(snapshot))
  }

  predicate Possible(s: State, actions: seq<Action>)
    decreases |actions|
  {
    actions == [] || (Enabled(s, actions[0]) && Possible(Step(s, actions[0]), actions[1..]))
  }

  function Run(s: State, actions: seq<Action>): State
    requires Possible(s, actions)
    decreases |actions|
  {
    if actions == [] then s else Run(Step(s, actions[0]), actions[1..])
  }

  function Start(pool: Pool, clients: nat): State {
    State(pool, 0, seq(clients, _ => Resting), [], [])
  }

  // ------------------------------------------------------------------ linearizability

  /** The pool and every verdict are those of the logged operations one after another. */
  ghost predicate Linear(initial: Pool, s: State) {
    && s.pool == Sequential(initial, s.log)
    && |s.verdicts| == |s.log|
    && forall k | 0 <= k < |s.log| ::
         s.verdicts[k] == Decide(s.log[k].op, s.log[k].now, Get(Sequential(initial, s.log[..k]), Target(s.log[k].op)))
  }

  /** What a client noted was true when it noted it; unless others wrote, it still is. */
  ghost predicate ClientOk(s: State, c: Client) {
    match c
    case Resting => true
    case Watching(_, left, version, begun) =>
      left <= ATTEMPTS && version <= s.writes && begun + (ATTEMPTS - left) <= version
    case Deciding(op, left, version, begun, now, v) =>
      left <= ATTEMPTS && version <= s.writes && begun + (ATTEMPTS - left) <= version && !v.Leave?
      && (version == s.writes ==> v == Decide(op, now, Get(s.pool, Target(op))))
  }

  ghost predicate Inv(initial: Pool, s: State) {
    Linear(initial, s) && forall c | 0 <= c < |s.clients| :: ClientOk(s, s.clients[c])
  }

  lemma {:induction false} TookLinear(initial: Pool, s: State, e: Entry, v: Verdict)
    requires Linear(initial, s) && v == Decide(e.op, e.now, Get(s.pool, Target(e.op)))
    ensures Linear(initial, Took(s, e, v))
  {
    var t := Took(s, e, v);
    SequentialOneMore(initial, s.log, e);
    forall k | 0 <= k < |t.log|
      ensures t.verdicts[k]
          == Decide(t.log[k].op, t.log[k].now, Get(Sequential(initial, t.log[..k]), Target(t.log[k].op)))
    {
      if k < |s.log| {
        assert t.log[..k] == s.log[..k];
      } else {
        assert t.log[..k] == s.log;
      }
    }
  }

  /** An operation that takes effect keeps what every client noted: a write makes all earlier notes stale. */
  lemma {:induction false} TookClients(s: State, e: Entry, v: Verdict)
    requires forall c | 0 <= c < |s.clients| :: ClientOk(s, s.clients[c])
    ensures forall c | 0 <= c < |s.clients| :: ClientOk(Took(s, e, v), s.clients[c])
  {
    if !Writes(s.pool, Target(e.op), v) {
      NoWriteNoChange(s.pool, Target(e.op), v);
    }
    forall c | 0 <= c < |s.clients|
      ensures ClientOk(Took(s, e, v), s.clients[c])
    {
      assert ClientOk(s, s.clients[c]);
    }
  }

  /** Changing one client's note. */
  lemma {:induction false} NoteKeeps(initial: Pool, s: State, c: nat, note: Client)
    requires Inv(initial, s) && c < |s.clients| && ClientOk(s, note)
    ensures Inv(initial, s.(clients := s.clients[c := note]))
  {
    var t := s.(clients := s.clients[c := note]);
    forall d | 0 <= d < |t.clients|
      ensures ClientOk(t, t.clients[d])
    {
      assert ClientOk(s, s.clients[d]);
    }
  }

  lemma {:induction false} TookKeeps(initial: Pool, s: State, e: Entry, v: Verdict)
    requires Inv(initial, s) && v == Decide(e.op, e.now, Get(s.pool, Target(e.op)))
    ensures Inv(initial, Took(s, e, v))
  {
    TookLinear(initial, s, e, v);
    TookClients(s, e, v);
  }

  lemma {:induction false} StepKeeps(initial: Pool, s: State, a: Action)
    requires Inv(initial, s) && Enabled(s, a)
    ensures Inv(initial, Step(s, a))
  {
    match a {
      case Begin(c, op) => NoteKeeps(initial, s, c, Watching(op, ATTEMPTS, s.writes, s.writes));
      case Look(c, now) => LookKeeps(initial, s, c, now);
      case Execute(c) => ExecuteKeeps(initial, s, c);
      case Blind(c, snapshot, now) => TookKeeps(initial, s, Entry(c, Upsert(snapshot), now), Write(snapshot));
    }
  }

  lemma {:induction false} LookKeeps(initial: Pool, s: State, c: nat, now: int)
    requires Inv(initial, s) && Enabled(s, Look(c, now))
    ensures Inv(initial, Step(s, Look(c, now)))
  {
    var w := s.clients[c];
    assert ClientOk(s, w);
    var v := Decide(w.op, now, Get(s.pool, Target(w.op)));
    if v.Leave? {
      TookKeeps(initial, s, Entry(c, w.op, now), Leave);
      NoteKeeps(initial, Took(s, Entry(c, w.op, now), Leave), c, Resting);
    } else {
      NoteKeeps(initial, s, c, Deciding(w.op, w.left, w.version, w.begun, now, v));
    }
  }

  lemma {:induction false} ExecuteKeeps(initial: Pool, s: State, c: nat)
    requires Inv(initial, s) && Enabled(s, Execute(c))
    ensures Inv(initial, Step(s, Execute(c)))
  {
    var d := s.clients[c];
    assert ClientOk(s, d);
    if d.version == s.writes {
      TookKeeps(initial, s, Entry(c, d.op, d.now), d.verdict);
      NoteKeeps(initial, Took(s, Entry(c, d.op, d.now), d.verdict), c, Resting);
    } else if d.left <= 1 {
      NoteKeeps(initial, s, c, Resting);
    } else {
      NoteKeeps(initial, s, c, Watching(d.op, d.left - 1, s.writes, d.begun));
    }
  }

  lemma {:induction false} RunKeeps(initial: Pool, s: State, actions: seq<Action>)
    requires Inv(initial, s) && Possible(s, actions)
    ensures Inv(initial, Run(s, actions))
    decreases |actions|
  {
    if actions != [] {
      StepKeeps(initial, s, actions[0]);
      RunKeeps(initial, Step(s, actions[0]), actions[1..]);
    }
  }

  /**
   Under every interleaving of any number of clients, the pool and all the results are those of some
   sequential order of the operations that took effect.
   */
  lemma {:induction false} Linearizable(initial: Pool, clients: nat, actions: seq<Action>)
    requires Possible(Start(initial, clients), actions)
    ensures Linear(initial, Run(Start(initial, clients), actions))
  {
    RunKeeps(initial, Start(initial, clients), actions);
  }

  /** An operation gives up only if others wrote to the hash at least five times since it began. */
  lemma {:induction false} GivingUpNeedsFiveWrites(initial: Pool, clients: nat, actions: seq<Action>, c: nat)
    requires Possible(Start(initial, clients), actions)
    requires var s := Run(Start(initial, clients), actions);
             c < |s.clients| && s.clients[c].Deciding? && s.clients[c].left <= 1 && s.clients[c].version != s.writes
    ensures var s := Run(Start(initial, clients), actions);
            s.writes >= s.clients[c].begun + 5
  {
    RunKeeps(initial, Start(initial, clients), actions);
    var s := Run(Start(initial, clients), actions);
    assert ClientOk(s, s.clients[c]);
  }

  // ------------------------------------------------------------------ each operation takes effect once

  /** What the log holds of one client. */
  function EntriesOf(log: seq<Entry>, c: nat): seq<Entry> {
    if log == [] then []
    else
      var e := log[|log| - 1];
      EntriesOf(log[..|log| - 1], c) + if e.client == c then [e] else []
  }

  /** The step ends an operation without effect: its last attempt was cut short. */
  predicate GivesUp(s: State, a: Action)
    requires Enabled(s, a)
  {
    a.Execute? && s.clients[a.client].version != s.writes && s.clients[a.client].left <= 1
  }

  /** The client is busy in every state of the run, from its start to its end. */
  predicate StaysBusy(s: State, actions: seq<Action>, c: nat)
    requires Possible(s, actions) && c < |s.clients|
    decreases |actions|
  {
    !s.clients[c].Resting? && (actions == [] || (|Step(s, actions[0]).clients| == |s.clients|
                                                 && StaysBusy(Step(s, actions[0]), actions[1..], c)))
  }

  lemma {:induction false} EntriesOneMore(log: seq<Entry>, e: Entry, c: nat)
    ensures EntriesOf(log + [e], c) == EntriesOf(log, c) + if e.client == c then [e] else []
  {
    assert (log + [e])[..|log|] == log;
  }

  /** While a client is busy with an operation, each step logs nothing of it until the step that ends it. */
  lemma {:induction false} BusyStep(s: State, a: Action, c: nat)
    requires Enabled(s, a) && c < |s.clients| && !s.clients[c].Resting?
    ensures var t, op := Step(s, a), s.clients[c].op;
            && |t.clients| == |s.clients| && s.log <= t.log
            && (!t.clients[c].Resting? ==> t.clients[c].op == op && EntriesOf(t.log, c) == EntriesOf(s.log, c))
            && (t.clients[c].Resting? ==>
                  && a.client == c
                  && if GivesUp(s, a) then t.log == s.log else exists now :: t.log == s.log + [Entry(c, op, now)])
  {
    var t := Step(s, a);
    if |t.log| > |s.log| {
      assert t.log == s.log + [t.log[|s.log|]];
      EntriesOneMore(s.log, t.log[|s.log|], c);
      if t.clients[c].Resting? {
        assert t.log[|s.log|] == Entry(c, s.clients[c].op, t.log[|s.log|].now);
      }
    }
  }

  lemma {:induction false} BusyRun(s: State, actions: seq<Action>, c: nat)
    requires Possible(s, actions) && c < |s.clients| && StaysBusy(s, actions, c)
    ensures var t := Run(s, actions);
            && |t.clients| == |s.clients| && !t.clients[c].Resting? && t.clients[c].op == s.clients[c].op
            && s.log <= t.log && EntriesOf(t.log, c) == EntriesOf(s.log, c)
    decreases |actions|
  {
    if actions != [] {
      BusyStep(s, actions[0], c);
      BusyRun(Step(s, actions[0]), actions[1..], c);
    }
  }

  /**
   An operation that began, ran for any number of steps while others did anything, and ended: if it gave up it
   is not in the log; otherwise the log has it exactly once, at the step that ended it, so after everything that
   was logged before it began.
   */
  lemma {:induction false} CompletedIsLoggedOnce(s: State, c: nat, op: Op, during: seq<Action>, last: Action)
    requires Enabled(s, Begin(c, op)) && Possible(Step(s, Begin(c, op)), during)
    requires StaysBusy(Step(s, Begin(c, op)), during, c)
    requires var u := Run(Step(s, Begin(c, op)), during);
             Enabled(u, last) && c < |u.clients| && Step(u, last).clients[c].Resting?
    ensures var u := Run(Step(s, Begin(c, op)), during);
            var t := Step(u, last);
            && s.log <= u.log <= t.log
            && if GivesUp(u, last) then t.log == u.log && EntriesOf(t.log, c) == EntriesOf(s.log, c)
               else exists now ::
                 t.log == u.log + [Entry(c, op, now)]
                 && EntriesOf(t.log, c) == EntriesOf(s.log, c) + [Entry(c, op, now)]
  {
    var b := Step(s, Begin(c, op));
    BusyRun(b, during, c);
    var u := Run(b, during);
    BusyStep(u, last, c);
    if !GivesUp(u, last) {
      var now :| Step(u, last).log == u.log + [Entry(c, op, now)];
      EntriesOneMore(u.log, Entry(c, op, now), c);
    }
  }

  // ------------------------------------------------------------------ consequences for the pool

  ghost predicate PoolOk(pool: Pool) {
    forall id | id in pool :: InPool(pool[id].status) && pool[id].id == id
  }

  lemma {:induction false} SequentialKeepsPoolOk(initial: Pool, log: seq<Entry>)
    requires PoolOk(initial)
    ensures PoolOk(Sequential(initial, log))
  {
    if log != [] {
      SequentialKeepsPoolOk(initial, log[..|log| - 1]);
    }
  }

  /** Every stored entry has a pool status, under its own id, in every reachable state; so none is ever closed. */
  lemma {:induction false} StoredEntriesHavePoolStatus(initial: Pool, clients: nat, actions: seq<Action>)
    requires PoolOk(initial) && Possible(Start(initial, clients), actions)
    ensures PoolOk(Run(Start(initial, clients), actions).pool)
  {
    Linearizable(initial, clients, actions);
    SequentialKeepsPoolOk(initial, Run(Start(initial, clients), actions).log);
  }

  function AtLeast(a: Option<int>, b: Option<int>): bool {
    NotNewer(b, a)
  }

  /** A database merge of an active group leaves an entry, and its version is not older than both versions. */
  lemma {:induction false} MergeNeverLowersVersion(pool: Pool, client: nat, incoming: Snapshot, now: int)
    requires PoolOk(pool) && InPool(incoming.status)
    ensures var after := Effect(pool, Entry(client, Merge(incoming), now));
            && incoming.id in after
            && AtLeast(after[incoming.id].updatedAt, incoming.updatedAt)
            && (incoming.id in pool ==> AtLeast(after[incoming.id].updatedAt, pool[incoming.id].updatedAt))
            && (after[incoming.id].updatedAt == incoming.updatedAt
                || (incoming.id in pool && after == pool))
            && (forall id | id != incoming.id :: Get(after, id) == Get(pool, id))
  {
    assert pool == pool[incoming.id := if incoming.id in pool then pool[incoming.id] else incoming]
      || incoming.id !in pool;
  }

  /** The newest of some versions. */
  function Newest(base: Option<int>, log: seq<Entry>): Option<int> {
    if log == [] then base
    else
      var rest := Newest(base, log[..|log| - 1]);
      var op := log[|log| - 1].op;
      if op.Merge? && NotNewer(rest, op.incoming.updatedAt) then op.incoming.updatedAt else rest
  }

  /** Merges converge: after any merges of one group, in any order, its entry has the newest of their versions. */
  lemma {:induction false} MergesConverge(pool: Pool, log: seq<Entry>, id: nat)
    requires PoolOk(pool) && id in pool
    requires forall k | 0 <= k < |log| ::
        log[k].op.Merge? && log[k].op.incoming.id == id && InPool(log[k].op.incoming.status)
    ensures PoolOk(Sequential(pool, log)) && id in Sequential(pool, log)
    ensures Sequential(pool, log)[id].updatedAt == Newest(pool[id].updatedAt, log)
    ensures forall k | 0 <= k < |log| :: AtLeast(Newest(pool[id].updatedAt, log), log[k].op.incoming.updatedAt)
  {
    if log != [] {
      var n := |log| - 1;
      MergesConverge(pool, log[..n], id);
      forall k | 0 <= k < n
        ensures AtLeast(Newest(pool[id].updatedAt, log), log[k].op.incoming.updatedAt)
      {
        assert log[..n][k] == log[k];
      }
    }
  }

  /** A removal never deletes an entry that is newer than its cutoff, in any run. */
  lemma {:induction false} RemovalsAreNeverNewer(initial: Pool, clients: nat, actions: seq<Action>, k: nat)
    requires Possible(Start(initial, clients), actions)
    requires k < |Run(Start(initial, clients), actions).log| && Run(Start(initial, clients), actions).log[k].op.Remove?
    ensures var log := Run(Start(initial, clients), actions).log;
            var before, after, id := Sequential(initial, log[..k]), Sequential(initial, log[..k + 1]), log[k].op.id;
            && (id in before && id !in after ==> NotNewer(before[id].updatedAt, Some(log[k].op.cutoff)))
            && (forall j | j != id :: Get(before, j) == Get(after, j))
  {
    var log := Run(Start(initial, clients), actions).log;
    assert log[..k + 1] == log[..k] + [log[k]];
    SequentialOneMore(initial, log[..k], log[k]);
  }

  // ------------------------------------------------------------------ marking a group as closing

  function Status(pool: Pool, id: nat): Option<GroupStatus> {
    if id in pool then Some(pool[id].status) else None
  }

  ghost predicate IsOpenIn(pool: Pool, id: nat) {
    id in pool && AutoClose(pool[id].status)
  }

  /** The operation at position `k` took a group for closing. */
  ghost predicate TookForClosing(initial: Pool, log: seq<Entry>, k: nat, id: nat)
    requires k < |log|
  {
    log[k].op.MarkClosing? && log[k].op.id == id && IsOpenIn(Sequential(initial, log[..k]), id)
  }

  /** The operation at position `k` opened the group again: it is another kind of operation. */
  ghost predicate Reopened(initial: Pool, log: seq<Entry>, k: nat, id: nat)
    requires k < |log|
  {
    && Target(log[k].op) == id && (log[k].op.Upsert? || log[k].op.Merge? || log[k].op.MarkClosed?)
    && !IsOpenIn(Sequential(initial, log[..k]), id) && IsOpenIn(Sequential(initial, log[..k + 1]), id)
  }

  lemma {:induction false} OpensOnlyByReopening(initial: Pool, log: seq<Entry>, k: nat, id: nat)
    requires PoolOk(initial) && k < |log|
    requires !IsOpenIn(Sequential(initial, log[..k]), id) && IsOpenIn(Sequential(initial, log[..k + 1]), id)
    ensures Reopened(initial, log, k, id)
  {
    assert log[..k + 1] == log[..k] + [log[k]];
    SequentialOneMore(initial, log[..k], log[k]);
    SequentialKeepsPoolOk(initial, log[..k]);
  }

  lemma {:induction false} SomeReopening(initial: Pool, log: seq<Entry>, p: nat, q: nat, id: nat)
    requires PoolOk(initial) && p <= q <= |log|
    requires !IsOpenIn(Sequential(initial, log[..p]), id) && IsOpenIn(Sequential(initial, log[..q]), id)
    ensures exists r :: p <= r < q && Reopened(initial, log, r, id)
    decreases q - p
  {
    if p < q {
      if IsOpenIn(Sequential(initial, log[..p + 1]), id) {
        OpensOnlyByReopening(initial, log, p, id);
      } else {
        SomeReopening(initial, log, p + 1, q, id);
      }
    }
  }

  /** A group is taken for closing twice only if, in between, an upsert, a merge or a late update opened it again. */
  lemma {:induction false} ClosingIsTakenOnce(initial: Pool, clients: nat,
      actions: seq<Action>, p: nat, q: nat, id: nat)
    requires PoolOk(initial) && Possible(Start(initial, clients), actions)
    requires p < q < |Run(Start(initial, clients), actions).log|
    requires TookForClosing(initial, Run(Start(initial, clients), actions).log, p, id)
    requires TookForClosing(initial, Run(Start(initial, clients), actions).log, q, id)
    ensures exists r :: p < r < q && Reopened(initial, Run(Start(initial, clients), actions).log, r, id)
  {
    var log := Run(Start(initial, clients), actions).log;
    assert log[..p + 1] == log[..p] + [log[p]];
    SequentialOneMore(initial, log[..p], log[p]);
    assert !IsOpenIn(Sequential(initial, log[..p + 1]), id);
    SomeReopening(initial, log, p + 1, q, id);
  }

  /** When all operations are attempts to close, at most one of them succeeds for a group. */
  lemma {:induction false} OneWinner(initial: Pool, clients: nat, actions: seq<Action>, p: nat, q: nat, id: nat)
    requires PoolOk(initial) && Possible(Start(initial, clients), actions)
    requires forall k | 0 <= k < |Run(Start(initial, clients), actions).log| ::
               Run(Start(initial, clients), actions).log[k].op.MarkClosing?
    requires p < |Run(Start(initial, clients), actions).log| && q < |Run(Start(initial, clients), actions).log|
    requires TookForClosing(initial, Run(Start(initial, clients), actions).log, p, id)
    requires TookForClosing(initial, Run(Start(initial, clients), actions).log, q, id)
    ensures p == q
  {
    if p < q {
      ClosingIsTakenOnce(initial, clients, actions, p, q, id);
    } else if q < p {
      ClosingIsTakenOnce(initial, clients, actions, q, p, id);
    }
  }

  // ------------------------------------------------------------------ where the merge is not protected

  /** A merge stores the row it brings (with the live unrealized result) exactly when the entry is missing or
      not newer. */
  lemma {:induction false} MergeStoresWhenNotNewer(pool: Pool, row: Snapshot, client: nat, now: int)
    requires InPool(row.status) && PoolOk(pool)
    ensures var after := Effect(pool, Entry(client, Merge(row), now));
            row.id in after
            && (after[row.id].(unrealized := row.unrealized) == row
                <==> row.id !in pool || NotNewer(pool[row.id].updatedAt, row.updatedAt))
  {
  }

  /**
   So a row that was read before the group was closed and its entry deleted brings the group back as it
   was, however old the row is, and an open one can then be taken for closing again.
   */
  lemma {:induction false} MergeResurrects(pool: Pool, row: Snapshot, client: nat, other: nat, now: int, later: int)
    requires row.id in pool && InPool(row.status)
    ensures var closed := Effect(pool, Entry(other, MarkClosed(row.id, None, 0.0, "", GroupClosed), now));
            var merged := Effect(closed, Entry(client, Merge(row), later));
            row.id !in closed && row.id in merged && merged[row.id] == row
    ensures AutoClose(row.status) ==>
              var closed := Effect(pool, Entry(other, MarkClosed(row.id, None, 0.0, "", GroupClosed), now));
              var merged := Effect(closed, Entry(client, Merge(row), later));
              Decide(MarkClosing(row.id, "", None), later, Get(merged, row.id)).Write?
  {
  }
}
