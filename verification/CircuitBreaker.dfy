/**
 The circuit breaker of a symbol: a sliding window of spreads per direction, a jitter ratio, an adaptive
 threshold from the 75th percentile of past ratios, and a cooldown. Times are seconds.
 */
module CircuitBreaker {
  import opened Common

  datatype Sample = Sample(time: real, spread: real)

  datatype Tracker = Tracker(direction: string, window: seq<Sample>, jitter: real)

  datatype Config = Config(cooldown: real, initial: real, multiplier: real, minSamples: int, detection: real)

  datatype State = State(
    open: bool, lastTrip: Option<real>, trackers: seq<Tracker>, baseline: seq<real>, jitter: real, threshold: real)

  const CAPACITY := 2000
  const FLAT := 0.000000001

  // ------------------------------------------------------------------ jitter

  /** The changes between neighbouring spreads that are not flat. */
  function Moves(window: seq<Sample>): (moves: seq<real>)
    ensures |moves| <= if window == [] then 0 else |window| - 1
    ensures forall k | 0 <= k < |moves| :: Abs(moves[k]) > FLAT
  {
    if |window| < 2 then []
    else
      var n := |window| - 1;
      var change := window[n].spread - window[n - 1].spread;
      Moves(window[..n]) + if Abs(change) > FLAT then [change] else []
  }

  /** Neighbouring moves of opposite direction. */
  function Alternations(moves: seq<real>): (n: nat)
    ensures n <= if moves == [] then 0 else |moves| - 1
  {
    if |moves| < 2 then 0
    else
      var n := |moves| - 1;
      Alternations(moves[..n]) + if (moves[n - 1] > 0.0) != (moves[n] > 0.0) then 1 else 0
  }

  function Jitter(window: seq<Sample>): real {
    var moves := Moves(window);
    if |window| < 3 || |moves| < 2 then 0.0 else Alternations(moves) as real / (|moves| - 1) as real
  }

  predicate Opposite(a: real, b: real) {
    (a > 0.0) != (b > 0.0)
  }

  lemma {:induction false} AlternationExtremes(moves: seq<real>)
    ensures Alternations(moves) == 0 <==> forall k | 1 <= k < |moves| :: !Opposite(moves[k - 1], moves[k])
    ensures |moves| > 0 ==>
              (Alternations(moves) == |moves| - 1 <==> forall k | 1 <= k < |moves| :: Opposite(moves[k - 1], moves[k]))
  {
    if |moves| >= 2 {
      AlternationExtremes(moves[..|moves| - 1]);
    }
  }

  /** The ratio is between 0 and 1; it is 1 exactly when every two neighbouring moves are opposite, of at least two. */
  lemma {:induction false} JitterBounds(window: seq<Sample>)
    ensures 0.0 <= Jitter(window) <= 1.0
    ensures var moves := Moves(window);
            Jitter(window) == 1.0 <==> |moves| >= 2 && forall k | 1 <= k < |moves| :: Opposite(moves[k - 1], moves[k])
    ensures var moves := Moves(window);
            Jitter(window) == 0.0 <==> |moves| < 2 || forall k | 1 <= k < |moves| :: !Opposite(moves[k - 1], moves[k])
  {
    var moves := Moves(window);
    AlternationExtremes(moves);
    if |moves| >= 2 {
      RatioBounds(Alternations(moves), |moves| - 1);
    }
  }

  lemma RatioBounds(a: nat, n: nat)
    requires a <= n && n > 0
    ensures 0.0 <= a as real / n as real <= 1.0
    ensures a as real / n as real == 1.0 <==> a == n
    ensures a as real / n as real == 0.0 <==> a == 0
  {
    var r := a as real / n as real;
    assert r * n as real == a as real;
  }

  // ------------------------------------------------------------------ the sliding window

  /** `_prune_window`: drops samples from the front while they are too old. */
  function Pruned(window: seq<Sample>, cutoff: real): seq<Sample> {
    if window != [] && window[0].time < cutoff then Pruned(window[1..], cutoff) else window
  }

  /** All samples that are recent enough. */
  function Recent(history: seq<Sample>, cutoff: real): seq<Sample> {
    if history == [] then []
    else
      var n := |history| - 1;
      Recent(history[..n], cutoff) + if history[n].time >= cutoff then [history[n]] else []
  }

  predicate Ordered(history: seq<Sample>) {
    forall j, k | 0 <= j < k < |history| :: history[j].time <= history[k].time
  }

  lemma {:induction false} RecentSplit(a: seq<Sample>, b: seq<Sample>, cutoff: real)
    ensures Recent(a + b, cutoff) == Recent(a, cutoff) + Recent(b, cutoff)
  {
    if b == [] {
      assert a + b == a;
    } else {
      assert (a + b)[..|a + b| - 1] == a + b[..|b| - 1];
      RecentSplit(a, b[..|b| - 1], cutoff);
    }
  }

  lemma {:induction false} RecentAll(window: seq<Sample>, cutoff: real)
    requires forall k | 0 <= k < |window| :: window[k].time >= cutoff
    ensures Recent(window, cutoff) == window
  {
    if window != [] {
      RecentAll(window[..|window| - 1], cutoff);
    }
  }

  /** On ordered samples, dropping from the front keeps exactly the recent ones. */
  lemma {:induction false} PrunedIsRecent(window: seq<Sample>, cutoff: real)
    requires Ordered(window)
    ensures Pruned(window, cutoff) == Recent(window, cutoff)
  {
    if window != [] && window[0].time < cutoff {
      PrunedIsRecent(window[1..], cutoff);
      assert window == [window[0]] + window[1..];
      RecentSplit([window[0]], window[1..], cutoff);
      assert Recent([window[0]], cutoff) == [] by {
        assert [window[0]][..0] == [];
      }
    } else {
      RecentAll(window, cutoff);
    }
  }

  lemma {:induction false} RecentOrdered(history: seq<Sample>, cutoff: real)
    requires Ordered(history)
    ensures Ordered(Recent(history, cutoff))
    ensures forall s :: s in Recent(history, cutoff) <==> s in history && s.time >= cutoff
  {
    if history != [] {
      var n := |history| - 1;
      RecentOrdered(history[..n], cutoff);
      assert history == history[..n] + [history[n]];
      forall s | s in Recent(history[..n], cutoff)
        ensures s.time <= history[n].time
      {
        assert s in history[..n];
      }
    }
  }

  /** Pruning in steps loses nothing: what an earlier, lower cutoff dropped is too old for a later one as well. */
  lemma {:induction false} RecentAgain(history: seq<Sample>, early: real, late: real)
    requires early <= late
    ensures Recent(Recent(history, early), late) == Recent(history, late)
  {
    if history != [] {
      var n := |history| - 1;
      var before := Recent(history[..n], early);
      RecentAgain(history[..n], early, late);
      if history[n].time >= early {
        assert (before + [history[n]])[..|before|] == before;
      } else {
        assert before + [] == before;
      }
    }
  }

  // ------------------------------------------------------------------ the adaptive threshold

  function Insert(xs: seq<real>, x: real): (ys: seq<real>)
    ensures multiset(ys) == multiset(xs) + multiset{x}
  {
    if xs == [] || x <= xs[0] then [x] + xs
    else
      assert xs == [xs[0]] + xs[1..];
      [xs[0]] + Insert(xs[1..], x)
  }

  function Sorted(xs: seq<real>): (ys: seq<real>)
    ensures multiset(ys) == multiset(xs) && |ys| == |xs|
  {
    if xs == [] then []
    else
      assert xs == xs[..|xs| - 1] + [xs[|xs| - 1]];
      var ys := Insert(Sorted(xs[..|xs| - 1]), xs[|xs| - 1]);
      assert |ys| == |multiset(ys)| == |multiset(xs)| == |xs|;
      ys
  }

  predicate Ascending(xs: seq<real>) {
    forall j, k | 0 <= j < k < |xs| :: xs[j] <= xs[k]
  }

  lemma {:induction false} InsertAscending(xs: seq<real>, x: real)
    requires Ascending(xs)
    ensures Ascending(Insert(xs, x))
  {
    if xs != [] && x > xs[0] {
      var rest := Insert(xs[1..], x);
      InsertAscending(xs[1..], x);
      forall k | 0 <= k < |rest|
        ensures xs[0] <= rest[k]
      {
        assert rest[k] in multiset(rest);
        assert rest[k] in multiset(xs[1..]) || rest[k] == x;
      }
    }
  }

  lemma {:induction false} SortedAscending(xs: seq<real>)
    ensures Ascending(Sorted(xs))
  {
    if xs != [] {
      SortedAscending(xs[..|xs| - 1]);
      InsertAscending(Sorted(xs[..|xs| - 1]), xs[|xs| - 1]);
    }
  }

  /** The 75th percentile, as the source picks it. */
  function P75(samples: seq<real>): real
    requires samples != []
  {
    Sorted(samples)[|samples| * 3 / 4]
  }

  function Appended(baseline: seq<real>, x: real): (b: seq<real>)
    ensures 1 <= |b| && (|baseline| <= CAPACITY ==> |b| <= CAPACITY)
  {
    if |baseline| >= CAPACITY then baseline[1..] + [x] else baseline + [x]
  }

  function Scaled(ratio: real, multiplier: real): real {
    ratio * multiplier
  }

  function Threshold(c: Config, baseline: seq<real>, previous: real): real
    requires baseline != []
  {
    if |baseline| >= c.minSamples then Scaled(P75(baseline), c.multiplier) else previous
  }

  // ------------------------------------------------------------------ updates and queries

  function Find(trackers: seq<Tracker>, direction: string): (k: nat)
    ensures k <= |trackers|
    ensures k < |trackers| ==> trackers[k].direction == direction
    ensures forall j | 0 <= j < k :: trackers[j].direction != direction
  {
    if trackers == [] || trackers[0].direction == direction then 0 else 1 + Find(trackers[1..], direction)
  }

  function MaxJitter(trackers: seq<Tracker>): real {
    if trackers == [] then 0.0 else Max(MaxJitter(trackers[..|trackers| - 1]), trackers[|trackers| - 1].jitter)
  }

  /** The trackers after one sample of a direction. */
  function Fed(c: Config, trackers: seq<Tracker>, direction: string, spread: real, now: real): seq<Tracker> {
    var k := Find(trackers, direction);
    var window :=
      Pruned((if k < |trackers| then trackers[k].window else []) + [Sample(now, spread)], now - c.detection);
    var fed := Tracker(direction, window, Jitter(window));
    if k < |trackers| then trackers[k := fed] else trackers + [fed]
  }

  function Updated(c: Config, s: State, direction: string, spread: real, now: real): State {
    Judged(c, s, Fed(c, s.trackers, direction, spread, now), now)
  }

  /** The part of an update after the windows: the largest ratio, the baseline, the threshold, the trip. */
  function Judged(c: Config, s: State, trackers: seq<Tracker>, now: real): State {
    var jitter := MaxJitter(trackers);
    var baseline := Appended(s.baseline, jitter);
    var threshold := Threshold(c, baseline, s.threshold);
    var trips := !s.open && jitter > threshold;
    State(s.open || trips, if trips then Some(now) else s.lastTrip, trackers, baseline, jitter, threshold)
  }

  /** The state after a query, which closes a breaker whose cooldown is over. */
  function Queried(c: Config, s: State, now: real): State {
    if s.open && s.lastTrip.Some? && now - s.lastTrip.value >= c.cooldown then s.(open := false) else s
  }

  /** A new breaker starts with the configured threshold. */
  function Initial(c: Config): State {
    State(false, None, [], [], 0.0, c.initial)
  }

  class SymbolBreaker {
    const config: Config
    var open: bool
    var lastTrip: Option<real>
    var trackers: seq<Tracker>
    var baseline: seq<real>
    var jitter: real
    var threshold: real

    function View(): State
      reads this
    {
      State(open, lastTrip, trackers, baseline, jitter, threshold)
    }

    constructor (config: Config)
      ensures this.config == config && View() == Initial(config)
    {
      this.config := config;
      open, lastTrip, trackers, baseline, jitter, threshold := false, None, [], [], 0.0, config.initial;
    }

    static method CollectMoves(window: seq<Sample>) returns (moves: seq<real>)
      requires window != []
      ensures moves == Moves(window)
    {
      moves := [];
      for k := 1 to |window|
        invariant moves == Moves(window[..k])
      {
        assert window[..k + 1][..k] == window[..k];
        var change := window[k].spread - window[k - 1].spread;
        if Abs(change) > FLAT {
          moves := moves + [change];
        }
      }
      assert window[..|window|] == window;
    }

    static method CountAlternations(moves: seq<real>) returns (alternations: nat)
      requires moves != []
      ensures alternations == Alternations(moves)
    {
      alternations := 0;
      for k := 1 to |moves|
        invariant alternations == Alternations(moves[..k])
      {
        assert moves[..k + 1][..k] == moves[..k];
        if (moves[k - 1] > 0.0) != (moves[k] > 0.0) {
          alternations := alternations + 1;
        }
      }
      assert moves[..|moves|] == moves;
    }

    /** `_calculate_jitter` */
    static method CalculateJitter(window: seq<Sample>) returns (j: real)
      ensures j == Jitter(window)
    {
      if |window| < 3 {
        return 0.0;
      }
      var moves := CollectMoves(window);
      if |moves| < 2 {
        return 0.0;
      }
      var alternations := CountAlternations(moves);
      j := alternations as real / (|moves| - 1) as real;
    }

    static method PruneWindow(window: seq<Sample>, cutoff: real) returns (kept: seq<Sample>)
      ensures kept == Pruned(window, cutoff)
    {
      kept := window;
      while kept != [] && kept[0].time < cutoff
        invariant Pruned(kept, cutoff) == Pruned(window, cutoff)
        decreases |kept|
      {
        kept := kept[1..];
      }
    }

    method UpdateBaseline()
      modifies this`baseline, this`threshold
      ensures baseline == Appended(old(baseline), jitter)
      ensures threshold == Threshold(config, baseline, old(threshold))
    {
      baseline := if |baseline| >= CAPACITY then baseline[1..] + [jitter] else baseline + [jitter];
      if |baseline| >= config.minSamples {
        var sorted := Sorted(baseline);
        var index := |sorted| * 3 / 4;
        var p75 := sorted[if index <= |sorted| - 1 then index else |sorted| - 1];
        assert p75 == P75(baseline);
        threshold := Scaled(p75, config.multiplier);
      }
    }

    method FeedTracker(direction: string, spread: real, now: real)
      modifies this`trackers
      ensures trackers == Fed(config, old(trackers), direction, spread, now)
    {
      var k := Find(trackers, direction);
      var window := (if k < |trackers| then trackers[k].window else []) + [Sample(now, spread)];
      window := PruneWindow(window, now - config.detection);
      var ratio := CalculateJitter(window);
      var fed := Tracker(direction, window, ratio);
      trackers := if k < |trackers| then trackers[k := fed] else trackers + [fed];
    }

    method Update(direction: string, spread: real, now: real)
      modifies this
      ensures View() == Updated(config, old(View()), direction, spread, now)
    {
      FeedTracker(direction, spread, now);
      jitter := MaxJitter(trackers);
      UpdateBaseline();
      if !open && jitter > threshold {
        open, lastTrip := true, Some(now);
      }
    }

    method IsBlocked(now: real) returns (blocked: bool)
      modifies this`open
      ensures View() == Queried(config, old(View()), now)
      ensures blocked == open
    {
      if !open {
        return false;
      }
      if lastTrip.Some? && now - lastTrip.value >= config.cooldown {
        open := false;
        return false;
      }
      blocked := true;
    }
  }

  // ------------------------------------------------------------------ when it trips

  /** Counts the samples below a value. */
  function Below(v: real): real -> real {
    (x: real) => if x < v then 1.0 else 0.0
  }

  lemma {:induction false} PrefixCount(xs: seq<real>, v: real, n: nat)
    requires n <= |xs| && forall k | 0 <= k < n :: xs[k] < v
    ensures Sum(xs, Below(v)) >= n as real
  {
    if xs != [] {
      var m := |xs| - 1;
      PrefixCount(xs[..m], v, if n <= m then n else m);
    }
  }

  /** A value above the 75th percentile is above more than three quarters of the samples. */
  lemma {:induction false} AbovePercentile(samples: seq<real>, v: real)
    requires samples != [] && P75(samples) < v
    ensures 4.0 * Sum(samples, Below(v)) > 3.0 * |samples| as real
  {
    var sorted, index := Sorted(samples), |samples| * 3 / 4;
    SortedAscending(samples);
    PrefixCount(sorted, v, index + 1);
    SumPermutation(sorted, samples, Below(v));
    assert 4 * (index + 1) > 3 * |samples|;
  }

  /** A multiplier of at least 1 keeps the threshold at or above the percentile. */
  lemma {:induction false} PercentileBelowThreshold(c: Config, samples: seq<real>, previous: real)
    requires samples != [] && |samples| >= c.minSamples && c.multiplier >= 1.0
    requires forall k | 0 <= k < |samples| :: samples[k] >= 0.0
    ensures P75(samples) <= Threshold(c, samples, previous)
  {
    var p := P75(samples);
    assert p in multiset(Sorted(samples));
    assert p in samples;
    ScaledAbove(p, c.multiplier);
  }

  lemma ScaledAbove(ratio: real, multiplier: real)
    requires ratio >= 0.0 && multiplier >= 1.0
    ensures Scaled(ratio, multiplier) >= ratio
  {
  }

  /**
   A trip with a multiplier of at least 1 and enough samples: the ratio is larger than more than three
   quarters of the samples in the baseline, its own among them.
   */
  lemma {:induction false} TripIsExceptional(c: Config, s: State, direction: string, spread: real, now: real)
    requires RatiosOk(s)
    requires c.multiplier >= 1.0 && !s.open && Updated(c, s, direction, spread, now).open
    requires |Updated(c, s, direction, spread, now).baseline| >= c.minSamples
    ensures var t := Updated(c, s, direction, spread, now);
            4.0 * Sum(t.baseline, Below(t.jitter)) > 3.0 * |t.baseline| as real
            && t.lastTrip == Some(now)
  {
    var t := Updated(c, s, direction, spread, now);
    MaxJitterBounds(t.trackers, direction, c, s, spread, now);
    PercentileBelowThreshold(c, t.baseline, s.threshold);
    AbovePercentile(t.baseline, t.jitter);
  }

  lemma {:induction false} MaxJitterRange(trackers: seq<Tracker>)
    requires forall k | 0 <= k < |trackers| :: 0.0 <= trackers[k].jitter <= 1.0
    ensures 0.0 <= MaxJitter(trackers) <= 1.0
  {
    if trackers != [] {
      MaxJitterRange(trackers[..|trackers| - 1]);
    }
  }

  lemma {:induction false} MaxJitterBounds(
    trackers: seq<Tracker>, direction: string, c: Config, s: State, spread: real, now: real)
    requires forall k | 0 <= k < |s.trackers| :: 0.0 <= s.trackers[k].jitter <= 1.0
    requires trackers == Fed(c, s.trackers, direction, spread, now)
    ensures forall k | 0 <= k < |trackers| :: 0.0 <= trackers[k].jitter <= 1.0
    ensures 0.0 <= MaxJitter(trackers) <= 1.0
  {
    var k := Find(s.trackers, direction);
    JitterBounds(
      Pruned((if k < |s.trackers| then s.trackers[k].window else []) + [Sample(now, spread)], now - c.detection));
    MaxJitterRange(trackers);
  }

  /** With enough samples, no update trips while the percentile times the multiplier is at least 1. */
  lemma {:induction false} NoTripAboveOne(c: Config, s: State, direction: string,
      spread: real, now: real, samples: seq<real>)
    requires RatiosOk(s) && samples == Updated(c, s, direction, spread, now).baseline
    requires |samples| >= c.minSamples && Scaled(P75(samples), c.multiplier) >= 1.0
    ensures Updated(c, s, direction, spread, now).open == s.open
    ensures Updated(c, s, direction, spread, now).lastTrip == s.lastTrip
  {
    var trackers := Fed(c, s.trackers, direction, spread, now);
    ThresholdAboveOne(c, samples, s.threshold);
    MaxJitterBounds(trackers, direction, c, s, spread, now);
    JudgedStays(c, s, trackers, now, Threshold(c, samples, s.threshold));
  }

  lemma {:induction false} ThresholdAboveOne(c: Config, samples: seq<real>, previous: real)
    requires samples != [] && |samples| >= c.minSamples && Scaled(P75(samples), c.multiplier) >= 1.0
    ensures Threshold(c, samples, previous) >= 1.0
  {
  }

  lemma {:induction false} JudgedStays(c: Config, s: State, trackers: seq<Tracker>, now: real, threshold: real)
    requires threshold == Threshold(c, Appended(s.baseline, MaxJitter(trackers)), s.threshold)
        && MaxJitter(trackers) <= threshold
    ensures Judged(c, s, trackers, now).open == s.open && Judged(c, s, trackers, now).lastTrip == s.lastTrip
  {
  }

  // ------------------------------------------------------------------ runs

  datatype Action = Feed(direction: string, spread: real, now: real) | Query(now: real)

  function After(c: Config, actions: seq<Action>): State {
    if actions == [] then Initial(c)
    else
      var s := After(c, actions[..|actions| - 1]);
      match actions[|actions| - 1]
      case Feed(direction, spread, now) => Updated(c, s, direction, spread, now)
      case Query(now) => Queried(c, s, now)
  }

  predicate TimeForward(actions: seq<Action>) {
    forall j, k | 0 <= j < k < |actions| :: actions[j].now <= actions[k].now
  }

  /** Every sample of a direction so far. */
  function History(actions: seq<Action>, direction: string): seq<Sample> {
    if actions == [] then []
    else
      var a := actions[|actions| - 1];
      History(actions[..|actions| - 1], direction)
      + if a.Feed? && a.direction == direction then [Sample(a.now, a.spread)] else []
  }

  lemma {:induction false} HistoryOrdered(actions: seq<Action>, direction: string)
    requires TimeForward(actions)
    ensures Ordered(History(actions, direction))
    ensures forall k | 0 <= k < |History(actions, direction)| && actions != [] ::
              History(actions, direction)[k].time <= actions[|actions| - 1].now
  {
    if actions != [] {
      HistoryOrdered(actions[..|actions| - 1], direction);
    }
  }

  /** The window a direction should have: its whole history, filtered to the detection time before its last sample. */
  function Expected(c: Config, history: seq<Sample>): seq<Sample> {
    if history == [] then [] else Recent(history, history[|history| - 1].time - c.detection)
  }

  ghost predicate TrackerOk(c: Config, t: Tracker, actions: seq<Action>) {
    t.window == Expected(c, History(actions, t.direction)) && t.jitter == Jitter(t.window)
      && History(actions, t.direction) != []
  }

  ghost predicate AllTrackersOk(c: Config, trackers: seq<Tracker>, actions: seq<Action>) {
    forall k | 0 <= k < |trackers| :: TrackerOk(c, trackers[k], actions)
  }

  predicate OnePerDirection(trackers: seq<Tracker>) {
    forall j, k | 0 <= j < k < |trackers| :: trackers[j].direction != trackers[k].direction
  }

  ghost predicate Complete(trackers: seq<Tracker>, actions: seq<Action>) {
    forall d | History(actions, d) != [] :: Find(trackers, d) < |trackers|
  }

  ghost predicate WindowsOk(c: Config, trackers: seq<Tracker>, actions: seq<Action>) {
    AllTrackersOk(c, trackers, actions) && OnePerDirection(trackers) && Complete(trackers, actions)
  }

  lemma {:induction false} OrderedPrefix(history: seq<Sample>, x: Sample)
    requires Ordered(history + [x])
    ensures Ordered(history)
    ensures forall k | 0 <= k < |history| :: history[k].time <= x.time
  {
    var longer := history + [x];
    assert longer[|history|] == x;
    assert forall k | 0 <= k < |history| :: longer[k] == history[k];
  }

  /** The expected window, and one sample after it, are ordered. */
  lemma {:induction false} ExpectedOrdered(c: Config, history: seq<Sample>, x: Sample)
    requires Ordered(history + [x])
    ensures Ordered(Expected(c, history) + [x])
  {
    OrderedPrefix(history, x);
    if history != [] {
      var window := Expected(c, history);
      RecentOrdered(history, history[|history| - 1].time - c.detection);
      forall k | 0 <= k < |window|
        ensures window[k].time <= x.time
      {
        assert window[k] in window;
        assert window[k] in history;
      }
    }
  }

  lemma {:induction false} ExpectedRecent(c: Config, history: seq<Sample>, x: Sample)
    requires Ordered(history + [x])
    ensures Recent(Expected(c, history), x.time - c.detection) == Recent(history, x.time - c.detection)
  {
    OrderedPrefix(history, x);
    if history != [] {
      RecentAgain(history, history[|history| - 1].time - c.detection, x.time - c.detection);
    }
  }

  lemma {:induction false} FeedWindow(c: Config, history: seq<Sample>, x: Sample)
    requires Ordered(history + [x])
    ensures Pruned(Expected(c, history) + [x], x.time - c.detection) == Expected(c, history + [x])
  {
    ExpectedOrdered(c, history, x);
    ExpectedRecent(c, history, x);
    PrunedAfter(Expected(c, history), history, x, x.time - c.detection);
    ExpectedAfter(c, history, x);
  }

  lemma {:induction false} PrunedAfter(window: seq<Sample>, history: seq<Sample>, x: Sample, cutoff: real)
    requires Ordered(window + [x]) && Recent(window, cutoff) == Recent(history, cutoff)
    ensures Pruned(window + [x], cutoff) == Recent(history + [x], cutoff)
  {
    PrunedIsRecent(window + [x], cutoff);
    RecentOfBoth(window, history, x, cutoff);
  }

  lemma {:induction false} RecentOfBoth(a: seq<Sample>, b: seq<Sample>, x: Sample, cutoff: real)
    requires Recent(a, cutoff) == Recent(b, cutoff)
    ensures Recent(a + [x], cutoff) == Recent(b + [x], cutoff)
  {
    RecentSplit(a, [x], cutoff);
    RecentSplit(b, [x], cutoff);
  }

  lemma {:induction false} ExpectedAfter(c: Config, history: seq<Sample>, x: Sample)
    ensures Expected(c, history + [x]) == Recent(history + [x], x.time - c.detection)
  {
    assert (history + [x])[|history|] == x;
  }

  /** In every run with time going forward, each direction's window is its history filtered to the detection time. */
  lemma {:induction false} WindowIsFilter(c: Config, actions: seq<Action>)
    requires TimeForward(actions)
    ensures WindowsOk(c, After(c, actions).trackers, actions)
  {
    if actions != [] {
      var n := |actions| - 1;
      var before, a := actions[..n], actions[n];
      WindowIsFilter(c, before);
      assert actions == before + [a];
      if a.Feed? {
        HistoryOrdered(actions, a.direction);
        FeedKeepsWindows(c, After(c, before).trackers, before, a);
      } else {
        QueryKeepsWindows(c, After(c, before).trackers, before, a);
      }
    }
  }

  lemma {:induction false} QueryKeepsWindows(c: Config, trackers: seq<Tracker>, before: seq<Action>, a: Action)
    requires a.Query? && WindowsOk(c, trackers, before)
    ensures WindowsOk(c, trackers, before + [a])
  {
    forall k | 0 <= k < |trackers|
      ensures TrackerOk(c, trackers[k], before + [a])
    {
      HistoryOf(before, a, trackers[k].direction);
      assert TrackerOk(c, trackers[k], before);
    }
    forall d | History(before + [a], d) != []
      ensures Find(trackers, d) < |trackers|
    {
      HistoryOf(before, a, d);
    }
  }

  /** The history of a fed direction grows by the sample, the others stay. */
  lemma {:induction false} HistoryOf(before: seq<Action>, a: Action, d: string)
    ensures History(before + [a], d) ==
              if a.Feed? && d == a.direction then History(before, d) + [Sample(a.now, a.spread)] else History(before, d)
  {
    assert (before + [a])[..|before|] == before;
  }

  function WindowOf(trackers: seq<Tracker>, direction: string): seq<Sample> {
    var k := Find(trackers, direction);
    if k < |trackers| then trackers[k].window else []
  }

  lemma {:induction false} StoredWindow(c: Config, trackers: seq<Tracker>, before: seq<Action>, direction: string)
    requires WindowsOk(c, trackers, before)
    ensures WindowOf(trackers, direction) == Expected(c, History(before, direction))
  {
    var k := Find(trackers, direction);
    if k == |trackers| {
      assert History(before, direction) == [];
    }
  }

  lemma {:induction false} FedTracker(c: Config, trackers: seq<Tracker>, a: Action, history: seq<Sample>)
    requires a.Feed? && Ordered(history + [Sample(a.now, a.spread)])
    requires WindowOf(trackers, a.direction) == Expected(c, history)
    ensures var window := Expected(c, history + [Sample(a.now, a.spread)]);
            var fed := Tracker(a.direction, window, Jitter(window));
            Fed(c, trackers, a.direction, a.spread, a.now) == Replaced(trackers, fed)
  {
    FeedWindow(c, history, Sample(a.now, a.spread));
  }

  lemma {:induction false} FeedKeepsWindows(c: Config, trackers: seq<Tracker>, before: seq<Action>, a: Action)
    requires a.Feed? && WindowsOk(c, trackers, before) && Ordered(History(before + [a], a.direction))
    ensures WindowsOk(c, Fed(c, trackers, a.direction, a.spread, a.now), before + [a])
  {
    HistoryOf(before, a, a.direction);
    StoredWindow(c, trackers, before, a.direction);
    FedTracker(c, trackers, a, History(before, a.direction));
    var window := Expected(c, History(before + [a], a.direction));
    var fed := Tracker(a.direction, window, Jitter(window));
    ReplacedOnce(trackers, fed);
    ReplacedAll(c, trackers, before, a, fed);
    ReplacedComplete(trackers, before, a, fed);
  }

  lemma {:induction false} ReplacedTracker(c: Config, t: Tracker, before: seq<Action>, a: Action)
    requires a.Feed? && TrackerOk(c, t, before) && t.direction != a.direction
    ensures TrackerOk(c, t, before + [a])
  {
    HistoryOf(before, a, t.direction);
  }

  /** The tracker of the fed direction is replaced, or added at the end. */
  function Replaced(trackers: seq<Tracker>, fed: Tracker): (all: seq<Tracker>)
    ensures |trackers| <= |all|
    ensures Find(trackers, fed.direction) < |all| && all[Find(trackers, fed.direction)] == fed
    ensures forall j | 0 <= j < |all| && j != Find(trackers, fed.direction) :: j < |trackers| && all[j] == trackers[j]
  {
    var k := Find(trackers, fed.direction);
    if k < |trackers| then trackers[k := fed] else trackers + [fed]
  }

  lemma {:induction false} ReplacedOnce(trackers: seq<Tracker>, fed: Tracker)
    requires OnePerDirection(trackers)
    ensures OnePerDirection(Replaced(trackers, fed))
  {
  }

  lemma {:induction false} ReplacedAll(c: Config, trackers: seq<Tracker>, before: seq<Action>, a: Action, fed: Tracker)
    requires a.Feed? && AllTrackersOk(c, trackers, before) && OnePerDirection(trackers)
    requires fed.direction == a.direction && TrackerOk(c, fed, before + [a])
    ensures AllTrackersOk(c, Replaced(trackers, fed), before + [a])
  {
    var k, all := Find(trackers, fed.direction), Replaced(trackers, fed);
    forall j | 0 <= j < |all|
      ensures TrackerOk(c, all[j], before + [a])
    {
      if j != k {
        ReplacedTracker(c, trackers[j], before, a);
      }
    }
  }

  lemma {:induction false} ReplacedComplete(trackers: seq<Tracker>, before: seq<Action>, a: Action, fed: Tracker)
    requires a.Feed? && Complete(trackers, before) && fed.direction == a.direction
    ensures Complete(Replaced(trackers, fed), before + [a])
  {
    var k, all := Find(trackers, fed.direction), Replaced(trackers, fed);
    forall d | History(before + [a], d) != []
      ensures Find(all, d) < |all|
    {
      HistoryOf(before, a, d);
      var j := if d == a.direction then k else Find(trackers, d);
      assert all[j].direction == d;
    }
  }

  /** All jitter values of a run are ratios. */
  ghost predicate RatiosOk(s: State) {
    && (forall k | 0 <= k < |s.trackers| :: 0.0 <= s.trackers[k].jitter <= 1.0)
    && (forall k | 0 <= k < |s.baseline| :: 0.0 <= s.baseline[k] <= 1.0)
    && 0.0 <= s.jitter <= 1.0 && |s.baseline| <= CAPACITY
  }

  lemma {:induction false} RunRatios(c: Config, actions: seq<Action>)
    ensures RatiosOk(After(c, actions))
  {
    if actions != [] {
      var n := |actions| - 1;
      var s := After(c, actions[..n]);
      RunRatios(c, actions[..n]);
      match actions[n] {
        case Feed(direction, spread, now) =>
          MaxJitterBounds(Fed(c, s.trackers, direction, spread, now), direction, c, s, spread, now);
        case Query(_) =>
      }
    }
  }

  /** The last trip is not in the future, and a closed breaker has none or one whose cooldown is over. */
  ghost predicate TripOk(c: Config, s: State, now: real) {
    && (s.lastTrip.Some? ==> s.lastTrip.value <= now)
    && (s.open ==> s.lastTrip.Some?)
    && (!s.open && s.lastTrip.Some? ==> now - s.lastTrip.value >= c.cooldown)
  }

  lemma {:induction false} RunTrips(c: Config, actions: seq<Action>, now: real)
    requires TimeForward(actions) && (actions != [] ==> actions[|actions| - 1].now <= now)
    ensures TripOk(c, After(c, actions), now)
  {
    if actions != [] {
      RunTrips(c, actions[..|actions| - 1], actions[|actions| - 1].now);
    }
  }

  /**
   In every run with time going forward, the answer to a query depends only on the last trip: blocked exactly
   until the cooldown after it is over, whatever updates and queries came in between.
   */
  lemma {:induction false} BlockedDuringCooldown(c: Config, actions: seq<Action>, now: real)
    requires TimeForward(actions) && (actions != [] ==> actions[|actions| - 1].now <= now)
    ensures var s := After(c, actions);
            Queried(c, s, now).open <==> s.lastTrip.Some? && now - s.lastTrip.value < c.cooldown
  {
    RunTrips(c, actions, now);
  }

  /** During the cooldown nothing moves the last trip, so the breaker stays blocked to its end. */
  lemma {:induction false} CooldownIsKept(c: Config, actions: seq<Action>, more: seq<Action>, now: real)
    requires TimeForward(actions + more) && (actions + more != [] ==> (actions + more)[|actions + more| - 1].now <= now)
    requires After(c, actions).open && After(c, actions).lastTrip.Some?
    requires now - After(c, actions).lastTrip.value < c.cooldown
    ensures After(c, actions + more).open && After(c, actions + more).lastTrip == After(c, actions).lastTrip
    ensures Queried(c, After(c, actions + more), now).open
    decreases |more|
  {
    if more == [] {
      assert actions + more == actions;
    } else {
      var n := |more| - 1;
      assert (actions + more)[..|actions + more| - 1] == actions + more[..n];
      assert (actions + more)[|actions + more| - 1] == more[n];
      CooldownIsKept(c, actions, more[..n], more[n].now);
    }
  }

  /** An update trips exactly when the breaker is closed and the ratio exceeds the threshold. */
  lemma {:induction false} TripsIff(c: Config, s: State, direction: string, spread: real, now: real)
    ensures var t := Updated(c, s, direction, spread, now);
            && (t.open && !s.open <==> !s.open && t.jitter > t.threshold)
            && t.lastTrip == (if t.open && !s.open then Some(now) else s.lastTrip)
            && (s.open ==> t.open)
  {
  }

  /** In every run an open breaker has tripped. */
  lemma {:induction false} OpenHasTripped(c: Config, actions: seq<Action>)
    ensures After(c, actions).open ==> After(c, actions).lastTrip.Some?
  {
    if actions != [] {
      var n := |actions| - 1;
      OpenHasTripped(c, actions[..n]);
      if actions[n].Feed? {
        TripsIff(c, After(c, actions[..n]), actions[n].direction, actions[n].spread, actions[n].now);
      }
    }
  }

  /**
   An open breaker that nobody queries ignores every burst, for however long: any number of further updates leave
   it open with its old trip, so the next query after the cooldown lets trading through whatever came before it.
   */
  lemma {:induction false} UnqueriedBreakerMissesBursts(c: Config, actions: seq<Action>, feeds: seq<Action>, now: real)
    requires After(c, actions).open && forall k | 0 <= k < |feeds| :: feeds[k].Feed?
    ensures After(c, actions + feeds).open && After(c, actions + feeds).lastTrip == After(c, actions).lastTrip
    ensures After(c, actions).lastTrip.Some?
    ensures Queried(c, After(c, actions + feeds), now).open <==> now - After(c, actions).lastTrip.value < c.cooldown
    decreases |feeds|
  {
    OpenHasTripped(c, actions);
    if feeds == [] {
      assert actions + feeds == actions;
    } else {
      var n := |feeds| - 1;
      assert (actions + feeds)[..|actions + feeds| - 1] == actions + feeds[..n];
      UnqueriedBreakerMissesBursts(c, actions, feeds[..n], now);
      TripsIff(c, After(c, actions + feeds[..n]), feeds[n].direction, feeds[n].spread, feeds[n].now);
    }
  }
}
