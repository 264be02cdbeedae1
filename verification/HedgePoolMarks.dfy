/** What the marks, merges and removals of the hedge pool do to the fields of an entry. */
module HedgePoolMarks {
  import opened Common
  import opened Lifecycle
  import opened HedgePool
  import opened HedgePoolRuns

  // ------------------------------------------------------------------ marks

  /** The operation marks this group and leaves its entry in the pool. */
  predicate Marks(op: Op, id: nat) {
    match op
    case MarkClosing(i, _, _) => i == id
    case MarkManual(i, _) => i == id
    case MarkClosed(i, _, _, _, status) =>
      i == id && status in {GroupOpening, GroupOpen, GroupOpenPartial, GroupClosing, GroupManual}
    case _ => false
  }

  /** The fees that the marks of a group add. */
  function FeesOf(log: seq<Entry>, id: nat): real {
    if log == [] then 0.0
    else
      var op := log[|log| - 1].op;
      FeesOf(log[..|log| - 1], id) + if op.MarkClosed? && op.id == id then op.feesDelta else 0.0
  }

  /** The last realized result that a mark of the group brings. */
  function RealizedOf(log: seq<Entry>, id: nat, before: real): real {
    if log == [] then before
    else
      var op := log[|log| - 1].op;
      if op.MarkClosed? && op.id == id && op.realizedPnl.Some? then op.realizedPnl.value
      else RealizedOf(log[..|log| - 1], id, before)
  }

  /**
   However often a group is marked, in any order and with anything done to other groups in between: its entry stays,
   its fees are the sum of all that was added, its realized result is the last one given, and its terms and the time
   it was closed do not change.
   */
  lemma {:induction false} MarksAccumulate(pool: Pool, log: seq<Entry>, id: nat)
    requires id in pool
    requires forall k | 0 <= k < |log| && Target(log[k].op) == id :: Marks(log[k].op, id)
    ensures id in Sequential(pool, log)
    ensures var s, t := pool[id], Sequential(pool, log)[id];
            && t.fees == s.fees + FeesOf(log, id) && t.realized == RealizedOf(log, id, s.realized)
            && t.terms == s.terms && t.id == s.id && t.closedAt == s.closedAt
  {
    if log != [] {
      MarksAccumulate(pool, log[..|log| - 1], id);
    }
  }

  /**
   The status and the texts after one mark: an open group is taken for closing, any other is left alone by that; a
   group is sent to an operator whatever it was; a text or a result that is not given stays.
   */
  lemma {:induction false} MarkIs(pool: Pool, e: Entry, id: nat)
    requires id in pool && Marks(e.op, id)
    ensures id in Effect(pool, e)
    ensures var s, t := pool[id], Effect(pool, e)[id];
            && (e.op.MarkClosing? && s.status !in {GroupOpen, GroupOpenPartial} ==> t == s)
            && (e.op.MarkClosing? && s.status in {GroupOpen, GroupOpenPartial} ==>
                  t.status == GroupClosing && t.updatedAt == Some(e.now)
                  && t.unrealized == (if e.op.estimated.Some? then e.op.estimated.value else s.unrealized))
            && (e.op.MarkManual? ==>
              t.status == GroupManual && t.updatedAt == Some(e.now) && t.unrealized == s.unrealized)
            && (e.op.MarkClosed? ==>
                  t.status == e.op.status && t.updatedAt == Some(e.now) && t.unrealized == s.unrealized)
            && (t != s ==> t.reason == if e.op.reason != "" then e.op.reason else s.reason)
    ensures forall j | j != id :: Get(Effect(pool, e), j) == Get(pool, j)
  {
  }

  /** A group that is marked closed, or failed, leaves the pool, and one that is not there is not marked. */
  lemma {:induction false} ClosedLeaves(pool: Pool, e: Entry)
    requires e.op.MarkClosed? && e.op.status in {GroupClosed, GroupFailed}
    ensures Effect(pool, e) == pool - {e.op.id}
  {
  }

  lemma {:induction false} AbsentIsNotMarked(pool: Pool, e: Entry, id: nat)
    requires id !in pool && (e.op.MarkClosing? || e.op.MarkClosed? || e.op.MarkManual?) && e.op.id == id
    ensures Effect(pool, e) == pool
  {
  }

  // ------------------------------------------------------------------ versions

  /** An entry without a version is older than all; a version is not older than itself. */
  lemma VersionOrder(a: Option<int>, b: Option<int>)
    ensures NotNewer(a, b) <==> (a == None || (b != None && a.value <= b.value))
    ensures NotNewer(a, b) || NotNewer(b, a)
  {
  }

  /** A removal deletes an entry if and only if it is there and not newer than the cutoff. */
  lemma {:induction false} RemovesIff(pool: Pool, client: nat, id: nat, cutoff: int, now: int)
    ensures var after := Effect(pool, Entry(client, Remove(id, cutoff), now));
            && (id !in after <==> id !in pool || pool[id].updatedAt == None || pool[id].updatedAt.value <= cutoff)
            && (forall j | j != id :: Get(after, j) == Get(pool, j)) && (id in after ==> after == pool)
  {
  }

  /**
   A merge replaces an entry that is not newer, and keeps its live result exactly when the group is open before and
   after; a newer entry stays as it is.
   */
  lemma {:induction false} MergeIs(pool: Pool, row: Snapshot, client: nat, now: int)
    requires PoolOk(pool) && row.status in {GroupOpening, GroupOpen, GroupOpenPartial, GroupClosing, GroupManual}
    ensures var after := Effect(pool, Entry(client, Merge(row), now));
            && row.id in after && (forall j | j != row.id :: Get(after, j) == Get(pool, j))
            && (row.id !in pool ==> after[row.id] == row)
            && (row.id in pool ==>
                  var s := pool[row.id];
                  var open := s.status in {GroupOpen, GroupOpenPartial} && row.status in {GroupOpen, GroupOpenPartial};
                  after[row.id] ==
                    if s.updatedAt != None && (row.updatedAt == None || s.updatedAt.value > row.updatedAt.value) then s
                    else if open then row.(unrealized := s.unrealized) else row)
  {
  }
}
