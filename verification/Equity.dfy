/** The portfolio equity curve: the last snapshot of every time bucket, within a range. Times are microseconds. */
module Equity {
  import opened Common

  datatype Row = Row(id: nat, at: int, equity: Option<real>)

  /** The range of a request; any unknown name counts as a day. */
  datatype Range = Day | Week | Month | All

  const SECOND := 1000000
  const TARGET := 1200
  const BUCKETS: seq<nat> := [60, 300, 900, 1800, 3600, 14400, 86400, 604800, 2592000]
  const LARGEST := 2592000

  function Duration(r: Range): Option<int> {
    match r
    case Day => Some(86400 * SECOND)
    case Week => Some(7 * 86400 * SECOND)
    case Month => Some(30 * 86400 * SECOND)
    case All => None
  }

  /** Whole seconds since the epoch, cut off toward zero. */
  function Seconds(at: int): int {
    if at >= 0 then at / SECOND else -((-at) / SECOND)
  }

  /** Seconds before the epoch are cut off like those after it. */
  lemma SecondsAreSymmetric(at: int)
    ensures Seconds(-at) == -Seconds(at)
    ensures at >= 0 ==> Seconds(at) * SECOND <= at < (Seconds(at) + 1) * SECOND
  {
  }

  function Bucket(row: Row, size: nat): int
    requires size > 0
  {
    Seconds(row.at) / size
  }

  /** The order of the query: by time, then by id. */
  predicate Before(a: Row, b: Row) {
    a.at < b.at || (a.at == b.at && a.id < b.id)
  }

  predicate Ordered(rows: seq<Row>) {
    forall j, k | 0 <= j < k < |rows| :: Before(rows[j], rows[k])
  }

  function CeilDiv(a: int, b: int): int
    requires b > 0
  {
    -((-a) / b)
  }

  /** The seconds a bucket needs so that the span fits the target number of buckets. */
  function Required(span: int): int {
    var needed := CeilDiv(if span > SECOND then span else SECOND, TARGET * SECOND);
    if needed > 60 then needed else 60
  }

  /** The first size in the list that is large enough, else the largest. */
  function FirstAtLeast(sizes: seq<nat>, required: int): nat {
    if sizes == [] then LARGEST else if sizes[0] >= required then sizes[0] else FirstAtLeast(sizes[1..], required)
  }

  function AllRangeBucket(span: int): nat {
    FirstAtLeast(BUCKETS, Required(span))
  }

  function BucketSeconds(r: Range, span: int): nat {
    match r
    case Day => 60
    case Week => 300
    case Month => 1800
    case All => AllRangeBucket(span)
  }

  lemma {:induction false} BucketIsPositive(sizes: seq<nat>, required: int)
    requires forall k | 0 <= k < |sizes| :: sizes[k] > 0
    ensures FirstAtLeast(sizes, required) > 0
    ensures (exists k :: 0 <= k < |sizes| && sizes[k] >= required) || LARGEST >= required ==>
        FirstAtLeast(sizes, required) >= required
  {
    if sizes != [] && sizes[0] < required {
      BucketIsPositive(sizes[1..], required);
      if exists k :: 0 <= k < |sizes| && sizes[k] >= required {
        var k :| 0 <= k < |sizes| && sizes[k] >= required;
        assert sizes[1..][k - 1] == sizes[k];
      }
    }
  }

  // ------------------------------------------------------------------ the last row of each bucket

  /** The row at `k` is the last of its bucket. */
  predicate IsLast(rows: seq<Row>, k: nat, size: nat)
    requires k < |rows| && size > 0
  {
    k == |rows| - 1 || Bucket(rows[k + 1], size) != Bucket(rows[k], size)
  }

  function Select(rows: seq<Row>, n: nat, size: nat): seq<Row>
    requires n <= |rows| && size > 0
  {
    if n == 0 then []
    else Select(rows, n - 1, size) + if IsLast(rows, n - 1, size) then [rows[n - 1]] else []
  }

  lemma SecondsForward(a: int, b: int)
    requires a <= b
    ensures Seconds(a) <= Seconds(b)
  {
  }

  lemma {:induction false} BucketsForward(rows: seq<Row>, j: nat, k: nat, size: nat)
    requires Ordered(rows) && j <= k < |rows| && size > 0
    ensures Bucket(rows[j], size) <= Bucket(rows[k], size)
  {
    SecondsForward(rows[j].at, rows[k].at);
    DivForward(Seconds(rows[j].at), Seconds(rows[k].at), size);
  }

  lemma DivForward(a: int, b: int, d: nat)
    requires a <= b && d > 0
    ensures a / d <= b / d
  {
    assert a >= (a / d) * d && b < (b / d + 1) * d;
    ProductForward(b / d + 1, a / d, d);
  }

  lemma ProductForward(x: int, y: int, d: nat)
    ensures x <= y ==> x * d <= y * d
  {
  }

  /** The row is one of the first `n`, and the last of its bucket. */
  ghost predicate IsEnd(rows: seq<Row>, n: nat, size: nat, r: Row)
    requires n <= |rows| && size > 0
  {
    exists k: nat :: k < n && rows[k] == r && IsLast(rows, k, size)
  }

  /** In order, exactly the rows that no later row of the same bucket follows. */
  lemma {:induction false} SelectIs(rows: seq<Row>, n: nat, size: nat)
    requires Ordered(rows) && n <= |rows| && size > 0
    ensures forall r :: r in Select(rows, n, size) <==> IsEnd(rows, n, size, r)
    ensures forall j, k | 0 <= j < k < |Select(rows, n, size)| ::
              Bucket(Select(rows, n, size)[j], size) < Bucket(Select(rows, n, size)[k], size)
  {
    if n != 0 {
      SelectIs(rows, n - 1, size);
      forall r
        ensures IsEnd(rows, n, size, r) <==>
            IsEnd(rows, n - 1, size, r) || (r == rows[n - 1] && IsLast(rows, n - 1, size))
      {
      }
      forall r | r in Select(rows, n - 1, size)
        ensures Bucket(r, size) < Bucket(rows[n - 1], size)
      {
        EndsBefore(rows, n - 1, size, r);
      }
    }
  }

  lemma {:induction false} EndsBefore(rows: seq<Row>, n: nat, size: nat, r: Row)
    requires Ordered(rows) && n < |rows| && size > 0 && IsEnd(rows, n, size, r)
    ensures Bucket(r, size) < Bucket(rows[n], size)
  {
    var k: nat :| k < n && rows[k] == r && IsLast(rows, k, size);
    BucketsForward(rows, k, k + 1, size);
    BucketsForward(rows, k + 1, n, size);
  }

  /** The row is the latest of all rows of its bucket. */
  ghost predicate IsLatest(rows: seq<Row>, r: Row, size: nat)
    requires size > 0
  {
    r in rows && forall s | s in rows && Bucket(s, size) == Bucket(r, size) :: s == r || Before(s, r)
  }

  ghost predicate HasBucket(points: seq<Row>, size: nat, bucket: int)
    requires size > 0
  {
    exists p :: p in points && Bucket(p, size) == bucket
  }

  /** The curve is the latest row of every non-empty bucket, in the order of the buckets. */
  lemma {:induction false} LatestRowOfEveryBucket(rows: seq<Row>, size: nat)
    requires Ordered(rows) && size > 0
    ensures forall r :: r in Select(rows, |rows|, size) <==> IsLatest(rows, r, size)
    ensures forall r | r in rows :: HasBucket(Select(rows, |rows|, size), size, Bucket(r, size))
    ensures forall j, k | 0 <= j < k < |Select(rows, |rows|, size)| ::
              Bucket(Select(rows, |rows|, size)[j], size) < Bucket(Select(rows, |rows|, size)[k], size)
  {
    var points := Select(rows, |rows|, size);
    SelectIs(rows, |rows|, size);
    forall r
      ensures IsEnd(rows, |rows|, size, r) <==> IsLatest(rows, r, size)
    {
      EndIsLatest(rows, size, r);
    }
    forall r | r in rows
      ensures HasBucket(points, size, Bucket(r, size))
    {
      var k :| 0 <= k < |rows| && rows[k] == r;
      var l := LastOfBucket(rows, k, size);
      assert IsEnd(rows, |rows|, size, rows[l]);
    }
  }

  lemma {:induction false} EndIsLatest(rows: seq<Row>, size: nat, r: Row)
    requires Ordered(rows) && size > 0
    ensures IsEnd(rows, |rows|, size, r) <==> IsLatest(rows, r, size)
  {
    if IsEnd(rows, |rows|, size, r) {
      var k: nat :| k < |rows| && rows[k] == r && IsLast(rows, k, size);
      LastIsLatest(rows, k, size);
    }
    if IsLatest(rows, r, size) {
      var k :| 0 <= k < |rows| && rows[k] == r;
      LastIsLatest(rows, k, size);
    }
  }

  lemma {:induction false} LastOfBucket(rows: seq<Row>, k: nat, size: nat) returns (l: nat)
    requires k < |rows| && size > 0
    ensures k <= l < |rows| && IsLast(rows, l, size) && Bucket(rows[l], size) == Bucket(rows[k], size)
    decreases |rows| - k
  {
    if IsLast(rows, k, size) {
      l := k;
    } else {
      l := LastOfBucket(rows, k + 1, size);
    }
  }

  lemma {:induction false} LastIsLatest(rows: seq<Row>, k: nat, size: nat)
    requires Ordered(rows) && k < |rows| && size > 0
    ensures IsLast(rows, k, size) <==> IsLatest(rows, rows[k], size)
  {
    if IsLast(rows, k, size) {
      forall s | s in rows && Bucket(s, size) == Bucket(rows[k], size)
        ensures s == rows[k] || Before(s, rows[k])
      {
        var j :| 0 <= j < |rows| && rows[j] == s;
        NotAfterLast(rows, k, j, size);
      }
    } else {
      assert rows[k + 1] in rows && Before(rows[k], rows[k + 1]);
    }
  }

  lemma {:induction false} NotAfterLast(rows: seq<Row>, k: nat, j: nat, size: nat)
    requires Ordered(rows) && k < |rows| && j < |rows| && size > 0 && IsLast(rows, k, size)
    requires Bucket(rows[j], size) == Bucket(rows[k], size)
    ensures j <= k
  {
    if j > k {
      BucketsForward(rows, k, k + 1, size);
      BucketsForward(rows, k + 1, j, size);
    }
  }

  // ------------------------------------------------------------------ how many points

  /** Increasing whole numbers between two bounds are at most as many as the bounds allow. */
  lemma {:induction false} IncreasingCount(points: seq<Row>, size: nat, lo: int, hi: int)
    requires size > 0 && forall j, k | 0 <= j < k < |points| :: Bucket(points[j], size) < Bucket(points[k], size)
    requires forall k | 0 <= k < |points| :: lo <= Bucket(points[k], size) <= hi
    ensures points != [] ==> |points| <= Bucket(points[|points| - 1], size) - lo + 1
    ensures |points| <= if hi >= lo then hi - lo + 1 else 0
  {
    if points != [] {
      var n := |points| - 1;
      IncreasingCount(points[..n], size, lo, hi);
      if n > 0 {
        assert Bucket(points[n - 1], size) < Bucket(points[n], size);
      }
    }
  }

  lemma DivSpan(a: int, b: int, d: nat, n: nat)
    requires d > 0 && b - a <= n * d
    ensures b / d - a / d <= n
  {
    assert b >= (b / d) * d && a < (a / d + 1) * d;
    ProductForward(a / d + 1 + n, b / d, d);
    assert (a / d + 1 + n) * d == (a / d + 1) * d + n * d;
  }

  /** Up to a span of 1200 of the largest buckets, the chosen bucket divides the span into at most 1200 parts. */
  lemma {:induction false} AllRangeFits(span: int)
    requires 0 <= span <= TARGET * LARGEST * SECOND
    ensures AllRangeBucket(span) > 0 && span <= TARGET * AllRangeBucket(span) * SECOND
  {
    BucketIsPositive(BUCKETS, Required(span));
    var needed := CeilDiv(if span > SECOND then span else SECOND, TARGET * SECOND);
    assert needed * (TARGET * SECOND) >= span;
    assert needed <= LARGEST;
    assert AllRangeBucket(span) >= needed;
  }

  lemma SecondsSpan(a: int, b: int, n: nat)
    requires a <= b && b - a <= n * SECOND
    ensures Seconds(b) - Seconds(a) <= n
  {
  }

  /** Rows whose span is at most some buckets give at most one point more. */
  lemma {:induction false} FewPoints(rows: seq<Row>, size: nat, n: nat)
    requires Ordered(rows) && rows != [] && size > 0
    requires rows[|rows| - 1].at - rows[0].at <= n * size * SECOND
    ensures |Select(rows, |rows|, size)| <= n + 1
  {
    var first, last := rows[0], rows[|rows| - 1];
    SecondsSpan(first.at, last.at, n * size);
    DivSpan(Seconds(first.at), Seconds(last.at), size, n);
    var points := Select(rows, |rows|, size);
    SelectIs(rows, |rows|, size);
    forall k | 0 <= k < |points|
      ensures Bucket(first, size) <= Bucket(points[k], size) <= Bucket(last, size)
    {
      assert points[k] in points;
      var j: nat :| j < |rows| && rows[j] == points[k] && IsLast(rows, j, size);
      BucketsForward(rows, 0, j, size);
      BucketsForward(rows, j, |rows| - 1, size);
    }
    LatestRowOfEveryBucket(rows, size);
    IncreasingCount(points, size, Bucket(first, size), Bucket(last, size));
  }

  /** The whole history has at most 1202 points, for any span up to 1200 of the largest buckets. */
  lemma {:induction false} AllRangeHasFewPoints(rows: seq<Row>)
    requires Ordered(rows) && rows != []
    requires rows[|rows| - 1].at - rows[0].at <= TARGET * LARGEST * SECOND
    ensures AllRangeBucket(rows[|rows| - 1].at - rows[0].at) > 0
    ensures |Select(rows, |rows|, AllRangeBucket(rows[|rows| - 1].at - rows[0].at))| <= TARGET + 1
  {
    var span := rows[|rows| - 1].at - rows[0].at;
    AllRangeFits(span);
    FewPoints(rows, AllRangeBucket(span), TARGET);
  }

  // ------------------------------------------------------------------ the curve

  function InRange(rows: seq<Row>, start: Option<int>): seq<Row> {
    if rows == [] then []
    else
      var r := rows[|rows| - 1];
      InRange(rows[..|rows| - 1], start) + if start.None? || r.at >= start.value then [r] else []
  }

  lemma {:induction false} InRangeOrdered(rows: seq<Row>, start: Option<int>)
    requires Ordered(rows)
    ensures Ordered(InRange(rows, start))
    ensures forall r :: r in InRange(rows, start) <==> r in rows && (start.None? || r.at >= start.value)
  {
    if rows != [] {
      var n := |rows| - 1;
      InRangeOrdered(rows[..n], start);
      assert rows == rows[..n] + [rows[n]];
      forall r | r in InRange(rows[..n], start)
        ensures Before(r, rows[n])
      {
        assert r in rows[..n];
        var k :| 0 <= k < n && rows[..n][k] == r;
        assert Before(rows[k], rows[n]);
      }
    }
  }

  function Span(rows: seq<Row>): int {
    if rows == [] then 0 else rows[|rows| - 1].at - rows[0].at
  }

  lemma PositiveBucket(r: Range, span: int)
    ensures BucketSeconds(r, span) > 0
  {
    BucketIsPositive(BUCKETS, Required(span));
  }

  /** The rows of the curve; the whole history also keeps its first row. */
  function Curve(rows: seq<Row>, r: Range): seq<Row> {
    PositiveBucket(r, Span(rows));
    var points := Select(rows, |rows|, BucketSeconds(r, Span(rows)));
    if r.All? && rows != [] && points != [] && points[0].id != rows[0].id then [rows[0]] + points else points
  }

  /** `equity_curve_points`: one pass over the rows of the range, which the query orders. */
  method EquityCurvePoints(table: seq<Row>, r: Range, now: int) returns (points: seq<Row>, size: nat)
    requires Ordered(table)
    ensures var rows := InRange(table, if Duration(r).None? then None else Some(now - Duration(r).value));
            points == Curve(rows, r) && size == BucketSeconds(r, Span(rows))
  {
    var rows := InRange(table, if Duration(r).None? then None else Some(now - Duration(r).value));
    size := BucketSeconds(r, Span(rows));
    PositiveBucket(r, Span(rows));
    points := [];
    var current: Option<int> := None;
    var selected: Option<Row> := None;
    for k := 0 to |rows|
      invariant k == 0 ==> current.None? && selected.None? && points == []
      invariant k > 0 ==> current == Some(Bucket(rows[k - 1], size)) && selected == Some(rows[k - 1])
      invariant k > 0 ==> points == Select(rows, k - 1, size)
    {
      var bucket := Bucket(rows[k], size);
      if current.Some? && bucket != current.value {
        points := points + [selected.value];
      }
      current, selected := Some(bucket), Some(rows[k]);
    }
    if selected.Some? {
      points := points + [selected.value];
    }
    if r.All? && rows != [] && points != [] && points[0].id != rows[0].id {
      points := [rows[0]] + points;
    }
  }

  /**
   The curve of a range, exactly: the rows of the range that are the latest of their bucket and, for the whole
   history, also its first row; in the order of the query, each once.
   */
  lemma {:induction false} CurveIs(table: seq<Row>, start: Option<int>, r: Range)
    requires Ordered(table) && forall j, k | 0 <= j < k < |table| :: table[j].id != table[k].id
    ensures var rows := InRange(table, start);
            var size := BucketSeconds(r, Span(rows));
            && size > 0
            && (forall x :: x in rows <==> x in table && (start.None? || x.at >= start.value))
            && (forall x :: x in Curve(rows, r) <==>
                  IsLatest(rows, x, size) || (r.All? && rows != [] && x == rows[0]))
            && Ordered(Curve(rows, r))
  {
    var rows := InRange(table, start);
    InRangeOrdered(table, start);
    PositiveBucket(r, Span(rows));
    CurveOf(rows, table, r, BucketSeconds(r, Span(rows)));
  }

  lemma {:induction false} CurveOf(rows: seq<Row>, table: seq<Row>, r: Range, size: nat)
    requires Ordered(rows) && size == BucketSeconds(r, Span(rows)) > 0 && forall x | x in rows :: x in table
    requires forall j, k | 0 <= j < k < |table| :: table[j].id != table[k].id
    ensures forall x :: x in Curve(rows, r) <==> IsLatest(rows, x, size) || (r.All? && rows != [] && x == rows[0])
    ensures Ordered(Curve(rows, r))
  {
    var points := Select(rows, |rows|, size);
    LatestRowOfEveryBucket(rows, size);
    SelectOrdered(rows, |rows|, size);
    if rows != [] {
      assert HasBucket(points, size, Bucket(rows[0], size));
      assert points[0] in points && points[0] in rows && rows[0] in table;
      SameIdSameRow(table, points[0], rows[0]);
      FirstIsBefore(rows, points[0]);
      if points[0] != rows[0] {
        Prepended(rows[0], points);
      }
    }
  }

  lemma {:induction false} SameIdSameRow(table: seq<Row>, a: Row, b: Row)
    requires forall j, k | 0 <= j < k < |table| :: table[j].id != table[k].id
    requires a in table && b in table
    ensures a.id == b.id ==> a == b
  {
  }

  lemma {:induction false} FirstIsBefore(rows: seq<Row>, r: Row)
    requires Ordered(rows) && r in rows
    ensures r == rows[0] || Before(rows[0], r)
  {
  }

  lemma {:induction false} Prepended(first: Row, points: seq<Row>)
    requires Ordered(points) && points != [] && Before(first, points[0])
    ensures Ordered([first] + points)
  {
    assert forall k | 0 <= k < |points| :: k == 0 || Before(points[0], points[k]);
  }

  /** What is selected keeps the order of the rows. */
  lemma {:induction false} SelectOrdered(rows: seq<Row>, n: nat, size: nat)
    requires Ordered(rows) && n <= |rows| && size > 0
    ensures Ordered(Select(rows, n, size))
    ensures forall p | p in Select(rows, n, size) :: n > 0 && (p == rows[n - 1] || Before(p, rows[n - 1]))
  {
    if n > 0 {
      var before := Select(rows, n - 1, size);
      SelectOrdered(rows, n - 1, size);
      assert n > 1 ==> Before(rows[n - 2], rows[n - 1]);
      forall j | 0 <= j < |before|
        ensures Before(before[j], rows[n - 1])
      {
        assert before[j] in before;
      }
    }
  }

  /** The whole history's curve starts with its first row, ends with its last, and has at most 1202 points. */
  lemma {:induction false} WholeHistory(rows: seq<Row>)
    requires Ordered(rows) && rows != [] && Span(rows) <= TARGET * LARGEST * SECOND
    requires forall j, k | 0 <= j < k < |rows| :: rows[j].id != rows[k].id
    ensures var points := Curve(rows, All);
            && 1 <= |points| <= TARGET + 2 && points[0] == rows[0] && points[|points| - 1] == rows[|rows| - 1]
  {
    AllRangeHasFewPoints(rows);
    var size := AllRangeBucket(Span(rows));
    var points := Select(rows, |rows|, size);
    assert points[|points| - 1] == rows[|rows| - 1];
    SelectIs(rows, |rows|, size);
    assert points[0] in points;
    var k: nat :| k < |rows| && rows[k] == points[0] && IsLast(rows, k, size);
    assert k > 0 ==> rows[0].id != rows[k].id;
  }

  /** No smaller bucket of the list would do: it would divide the span into more than 1200 parts. */
  lemma {:induction false} SmallestBucket(span: int, size: nat)
    requires size in BUCKETS && size < AllRangeBucket(span)
    ensures size * TARGET * SECOND < span
    ensures AllRangeBucket(span) in BUCKETS
  {
    FirstIsSmallest(BUCKETS, Required(span), size);
    FirstIsListed(BUCKETS, Required(span));
  }

  lemma {:induction false} FirstIsSmallest(sizes: seq<nat>, required: int, size: nat)
    requires size in sizes && forall j, k | 0 <= j < k < |sizes| :: sizes[j] < sizes[k]
    ensures size < FirstAtLeast(sizes, required) ==> size < required
  {
    if sizes[0] < required && size != sizes[0] {
      assert size in sizes[1..];
      FirstIsSmallest(sizes[1..], required, size);
    }
  }

  lemma {:induction false} FirstIsListed(sizes: seq<nat>, required: int)
    ensures FirstAtLeast(sizes, required) in sizes || FirstAtLeast(sizes, required) == LARGEST
  {
    if sizes != [] && sizes[0] < required {
      FirstIsListed(sizes[1..], required);
    }
  }

  /** How many points a range with a fixed length may have. */
  function MostPoints(r: Range): nat {
    match r
    case Day => 1441
    case Week => 2017
    case Month => 1441
    case All => 1202
  }

  /** The curve of a day, a week or a month that ends now has a bounded number of points. */
  lemma {:induction false} FixedRangeFits(table: seq<Row>, r: Range, now: int)
    requires Ordered(table) && r != All && forall x | x in table :: x.at <= now
    ensures Duration(r).Some?
    ensures |Curve(InRange(table, Some(now - Duration(r).value)), r)| <= MostPoints(r)
  {
    var rows := InRange(table, Some(now - Duration(r).value));
    InRangeOrdered(table, Some(now - Duration(r).value));
    if rows != [] {
      assert rows[0] in rows && rows[|rows| - 1] in rows;
      FewPoints(rows, BucketSeconds(r, Span(rows)), MostPoints(r) - 1);
    }
  }
}
