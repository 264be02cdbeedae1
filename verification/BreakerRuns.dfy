/**
 What a circuit breaker's ratio, baseline and threshold are after a run, told from the samples alone: the largest
 ratio over the directions, the last ratios, and their 75th percentile.
 */
module BreakerRuns {
  import opened Common
  import opened CircuitBreaker

  // ------------------------------------------------------------------ the largest ratio

  lemma {:induction false} MaxIsLargest(trackers: seq<Tracker>)
    requires trackers != [] && forall k | 0 <= k < |trackers| :: trackers[k].jitter >= 0.0
    ensures forall k | 0 <= k < |trackers| :: trackers[k].jitter <= MaxJitter(trackers)
    ensures exists k :: 0 <= k < |trackers| && trackers[k].jitter == MaxJitter(trackers)
  {
    var n := |trackers| - 1;
    if n > 0 {
      MaxIsLargest(trackers[..n]);
      var k :| 0 <= k < n && trackers[..n][k].jitter == MaxJitter(trackers[..n]);
      assert trackers[k].jitter == MaxJitter(trackers) || trackers[n].jitter == MaxJitter(trackers);
    } else {
      assert trackers[..0] == [] && trackers[0].jitter == MaxJitter(trackers);
    }
  }

  /**
   After every run, the ratio that an update stores is the largest of all directions' ratios, and a closed breaker
   opens if and only if some direction's ratio exceeds the threshold.
   */
  lemma {:induction false} UpdateTakesLargest(
    c: Config, actions: seq<Action>, direction: string, spread: real, now: real)
    ensures var s := After(c, actions);
            var t := Updated(c, s, direction, spread, now);
            && (forall k | 0 <= k < |t.trackers| :: t.trackers[k].jitter <= t.jitter)
            && (exists k :: 0 <= k < |t.trackers| && t.trackers[k].jitter == t.jitter)
            && (!s.open ==> (t.open <==> exists k :: 0 <= k < |t.trackers| && t.trackers[k].jitter > t.threshold))
  {
    var s := After(c, actions);
    RunRatios(c, actions);
    MaxJitterBounds(Fed(c, s.trackers, direction, spread, now), direction, c, s, spread, now);
    MaxIsLargest(Fed(c, s.trackers, direction, spread, now));
  }

  /** The ratio of a direction, from all its samples. */
  function RatioOf(c: Config, actions: seq<Action>, direction: string): real {
    Jitter(Expected(c, History(actions, direction)))
  }

  lemma {:induction false} TrackerFor(c: Config, trackers: seq<Tracker>, actions: seq<Action>, direction: string)
      returns (k: nat)
    requires WindowsOk(c, trackers, actions) && History(actions, direction) != []
    ensures k < |trackers| && trackers[k].direction == direction
    ensures trackers[k].jitter == RatioOf(c, actions, direction)
  {
    k := Find(trackers, direction);
    assert TrackerOk(c, trackers[k], actions);
  }

  /**
   In every run with time going forward that ends with an update: the stored ratio is the largest ratio of any
   direction that ever had a sample, each taken over the samples within the detection time before its last one; and
   a breaker that was closed is open now if and only if one of these exceeds the threshold.
   */
  lemma {:induction false} TripsOnAnyDirection(c: Config, before: seq<Action>, a: Action)
    requires a.Feed? && TimeForward(before + [a])
    ensures var all := before + [a];
            var t := After(c, all);
            && (forall d | History(all, d) != [] :: RatioOf(c, all, d) <= t.jitter)
            && (exists d :: History(all, d) != [] && RatioOf(c, all, d) == t.jitter)
            && (!After(c, before).open ==>
                  (t.open <==> exists d :: History(all, d) != [] && RatioOf(c, all, d) > t.threshold))
  {
    var all := before + [a];
    assert all[..|before|] == before && all[|before|] == a;
    UpdateTakesLargest(c, before, a.direction, a.spread, a.now);
    WindowIsFilter(c, all);
    LargestOverDirections(c, After(c, all).trackers, all, After(c, all).jitter);
  }

  lemma {:induction false} LargestOverDirections(c: Config, trackers: seq<Tracker>, all: seq<Action>, largest: real)
    requires WindowsOk(c, trackers, all)
    requires forall k | 0 <= k < |trackers| :: trackers[k].jitter <= largest
    requires exists k :: 0 <= k < |trackers| && trackers[k].jitter == largest
    ensures forall d | History(all, d) != [] :: RatioOf(c, all, d) <= largest
    ensures exists d :: History(all, d) != [] && RatioOf(c, all, d) == largest
  {
    forall d | History(all, d) != []
      ensures RatioOf(c, all, d) <= largest
    {
      var k := TrackerFor(c, trackers, all, d);
    }
    var k :| 0 <= k < |trackers| && trackers[k].jitter == largest;
    assert TrackerOk(c, trackers[k], all);
    assert RatioOf(c, all, trackers[k].direction) == largest;
  }

  // ------------------------------------------------------------------ the ratio of a window

  /** The change from one sample to the next is a move. */
  predicate IsMove(window: seq<Sample>, k: int) {
    1 <= k < |window| && Abs(window[k].spread - window[k - 1].spread) > 0.000000001
  }

  /** The moves are exactly the changes that are not flat, in order. */
  lemma {:induction false} MovesAre(window: seq<Sample>) returns (at: seq<nat>)
    ensures AreMoves(window, at) && |at| == |Moves(window)|
    ensures forall j | 0 <= j < |at| :: Moves(window)[j] == Change(window, at[j])
  {
    at := [];
    if |window| >= 2 {
      var n := |window| - 1;
      var earlier := MovesAre(window[..n]);
      at := earlier + if IsMove(window, n) then [n] else [];
      OneMoreSample(window, earlier, at);
      OneMoreMove(window, Moves(window[..n]), earlier, at);
    }
  }

  lemma {:induction false} OneMoreMove(window: seq<Sample>, moves: seq<real>, earlier: seq<nat>, at: seq<nat>)
    requires |window| >= 2 && moves == Moves(window[..|window| - 1]) && |moves| == |earlier|
    requires AreMoves(window[..|window| - 1], earlier)
    requires forall j | 0 <= j < |earlier| :: moves[j] == Change(window[..|window| - 1], earlier[j])
    requires at == earlier + if IsMove(window, |window| - 1) then [|window| - 1] else []
    ensures |at| == |Moves(window)| && forall j | 0 <= j < |at| :: Moves(window)[j] == Change(window, at[j])
  {
    var n := |window| - 1;
    assert Moves(window) == moves + if IsMove(window, n) then [Change(window, n)] else [];
    forall j | 0 <= j < |earlier|
      ensures Change(window, earlier[j]) == moves[j]
    {
      assert IsMove(window[..n], earlier[j]);
    }
  }

  function Change(window: seq<Sample>, k: int): real {
    if 1 <= k < |window| then window[k].spread - window[k - 1].spread else 0.0
  }

  /** The places of all moves, in order. */
  ghost predicate AreMoves(window: seq<Sample>, at: seq<nat>) {
    && (forall j | 0 <= j < |at| :: IsMove(window, at[j]))
    && (forall i, j | 0 <= i < j < |at| :: at[i] < at[j])
    && (forall k: nat | IsMove(window, k) :: k in at)
  }

  lemma {:induction false} OneMoreSample(window: seq<Sample>, earlier: seq<nat>, at: seq<nat>)
    requires |window| >= 2 && AreMoves(window[..|window| - 1], earlier)
    requires at == earlier + if IsMove(window, |window| - 1) then [|window| - 1] else []
    ensures AreMoves(window, at)
  {
    var n := |window| - 1;
    forall j | 0 <= j < |earlier|
      ensures IsMove(window, earlier[j]) && earlier[j] < n
    {
      assert IsMove(window[..n], earlier[j]);
    }
    forall k: nat | IsMove(window, k)
      ensures k in at
    {
      assert k < n ==> IsMove(window[..n], k);
    }
  }

  /** The alternations are the places where neighbouring moves have opposite directions, each counted once. */
  lemma {:induction false} AlternationsAre(moves: seq<real>)
    ensures Alternations(moves) == |Turns(moves)|
  {
    if |moves| >= 2 {
      var n := |moves| - 1;
      AlternationsAre(moves[..n]);
      forall k | k < n
        ensures TurnsAt(moves[..n], k) <==> TurnsAt(moves, k)
      {
      }
      assert Turns(moves) == Turns(moves[..n]) + if TurnsAt(moves, n) then {n} else {};
    } else {
      assert Turns(moves) == {};
    }
  }

  /** The places where a move has the opposite direction of the one before. */
  function Turns(moves: seq<real>): set<nat> {
    set k: nat | k < |moves| && TurnsAt(moves, k)
  }

  /** The ratio is the share of the moves after the first that turn; with fewer than two moves it is zero. */
  lemma {:induction false} RatioIsShareOfTurns(window: seq<Sample>, moves: seq<real>, turns: nat)
    requires moves == Moves(window) && turns == |Turns(moves)|
    ensures |moves| < 2 ==> Jitter(window) == 0.0
    ensures |moves| >= 2 ==> Jitter(window) == turns as real / (|moves| - 1) as real
  {
    if |moves| >= 2 {
      JitterOf(window, moves, turns);
    } else {
      NoRatio(window);
    }
  }

  lemma {:induction false} NoRatio(window: seq<Sample>)
    requires |Moves(window)| < 2
    ensures Jitter(window) == 0.0
  {
  }

  lemma {:induction false} JitterOf(window: seq<Sample>, moves: seq<real>, turns: nat)
    requires moves == Moves(window) && |moves| >= 2 && turns == |Turns(moves)|
    ensures Jitter(window) == turns as real / (|moves| - 1) as real
  {
    AlternationsAre(moves);
  }

  /** The move at `k` has the opposite direction of the one before. */
  predicate TurnsAt(moves: seq<real>, k: int) {
    1 <= k < |moves| && Opposite(moves[k - 1], moves[k])
  }

  // ------------------------------------------------------------------ baseline and threshold

  /** The ratio that each update of a run stored. */
  function Ratios(c: Config, actions: seq<Action>): seq<real> {
    if actions == [] then []
    else
      var n := |actions| - 1;
      Ratios(c, actions[..n]) + if actions[n].Feed? then [After(c, actions).jitter] else []
  }

  function LastOf(xs: seq<real>): seq<real> {
    if |xs| <= 2000 then xs else xs[|xs| - 2000..]
  }

  /** Counts the samples that are at most a value. */
  function AtMost(v: real): real -> real {
    (x: real) => if x <= v then 1.0 else 0.0
  }

  /** Three quarters of the samples, rounded down, are a bound of those below the value, and fewer than those
      up to it. */
  ghost predicate IsPercentile(samples: seq<real>, v: real) {
    && v in samples
    && Sum(samples, Below(v)) <= (|samples| * 3 / 4) as real < Sum(samples, AtMost(v))
  }

  lemma {:induction false} CountBounds(xs: seq<real>, v: real, n: nat)
    requires n < |xs|
    requires forall k | 0 <= k <= n :: xs[k] <= v
    requires forall k | n <= k < |xs| :: v <= xs[k]
    ensures Sum(xs, Below(v)) <= n as real < Sum(xs, AtMost(v))
  {
    BelowBound(xs, v, n);
    AtMostBound(xs, v, n + 1);
  }

  lemma {:induction false} BelowBound(xs: seq<real>, v: real, n: nat)
    requires forall k | n <= k < |xs| :: v <= xs[k]
    ensures Sum(xs, Below(v)) <= n as real
  {
    if xs != [] {
      var m := |xs| - 1;
      BelowBound(xs[..m], v, if n <= m then n else m);
    }
  }

  lemma {:induction false} AtMostBound(xs: seq<real>, v: real, n: nat)
    requires n <= |xs| && forall k | 0 <= k < n :: xs[k] <= v
    ensures Sum(xs, AtMost(v)) >= n as real
  {
    if xs != [] {
      var m := |xs| - 1;
      AtMostBound(xs[..m], v, if n <= m then n else m);
    }
  }

  lemma {:induction false} P75IsPercentile(samples: seq<real>)
    requires samples != []
    ensures IsPercentile(samples, P75(samples))
  {
    var sorted, index, v := Sorted(samples), |samples| * 3 / 4, P75(samples);
    SortedAscending(samples);
    CountBounds(sorted, v, index);
    SumPermutation(sorted, samples, Below(v));
    SumPermutation(sorted, samples, AtMost(v));
    assert v in multiset(sorted);
    assert v in multiset(samples);
  }

  lemma {:induction false} LastOfOneMore(xs: seq<real>, x: real)
    ensures LastOf(xs + [x]) == Appended(LastOf(xs), x)
  {
  }

  /** The threshold that the last ratios give: the configured one until there are enough, then a multiple of
      the percentile. */
  ghost predicate ThresholdFits(c: Config, samples: seq<real>, threshold: real) {
    if samples == [] || |samples| < c.minSamples then threshold == c.initial
    else exists v :: IsPercentile(samples, v) && threshold == Times(v, c.multiplier)
  }

  function Times(a: real, b: real): real {
    a * b
  }

  /**
   In every run: the baseline holds the last 2000 ratios, oldest first; and the threshold is the configured one as
   long as they are too few, and their 75th percentile times the multiplier from then on.
   */
  lemma {:induction false} ThresholdIsPercentile(c: Config, actions: seq<Action>)
    ensures After(c, actions).baseline == LastOf(Ratios(c, actions))
    ensures ThresholdFits(c, After(c, actions).baseline, After(c, actions).threshold)
  {
    if actions != [] {
      var n := |actions| - 1;
      ThresholdIsPercentile(c, actions[..n]);
      if actions[n].Feed? {
        FeedThreshold(c, After(c, actions[..n]), actions[n], Ratios(c, actions[..n]));
      }
    }
  }

  lemma {:induction false} FeedThreshold(c: Config, s: State, a: Action, ratios: seq<real>)
    requires a.Feed? && s.baseline == LastOf(ratios) && ThresholdFits(c, s.baseline, s.threshold)
    ensures var t := Updated(c, s, a.direction, a.spread, a.now);
            t.baseline == LastOf(ratios + [t.jitter]) && ThresholdFits(c, t.baseline, t.threshold)
  {
    var t := Updated(c, s, a.direction, a.spread, a.now);
    LastOfOneMore(ratios, t.jitter);
    NextThreshold(c, s.baseline, s.threshold, t.jitter);
  }

  lemma {:induction false} NextThreshold(c: Config, samples: seq<real>, previous: real, x: real)
    requires |samples| <= CAPACITY && ThresholdFits(c, samples, previous)
    ensures ThresholdFits(c, Appended(samples, x), Threshold(c, Appended(samples, x), previous))
  {
    var more := Appended(samples, x);
    if |more| >= c.minSamples {
      PercentileFits(c, more, previous);
    } else {
      assert |samples| < c.minSamples;
    }
  }

  lemma {:induction false} PercentileFits(c: Config, samples: seq<real>, previous: real)
    requires samples != [] && |samples| >= c.minSamples
    ensures ThresholdFits(c, samples, Threshold(c, samples, previous))
  {
    P75IsPercentile(samples);
    SameProduct(P75(samples), c.multiplier);
  }

  lemma SameProduct(a: real, b: real)
    ensures Scaled(a, b) == Times(a, b)
  {
  }
}
