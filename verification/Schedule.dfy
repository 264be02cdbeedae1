/**
 Weekly trading sessions: which window an instant lies in, and how long until the next one. Instants are
 microseconds of wall-clock time counted from a Monday at midnight; windows may cross midnight or end at 24:00.
 */
module Schedule {
  import opened Common

  const SECOND := 1000000
  const DAY := 86400 * SECOND
  const WEEK := 7 * DAY

  /** A day name of the configuration; any other text matches no day. */
  datatype Day = Mon | Tue | Wed | Thu | Fri | Sat | Sun | NoDay(text: string)

  /** A time of day; `EndOfDay` is the text 24:00. */
  datatype Clock = At(seconds: nat) | EndOfDay

  /** A session in the configuration; no days means every day. */
  datatype Item = Item(days: seq<Day>, start: Clock, end: Clock)

  predicate ValidItem(item: Item) {
    (item.start.At? ==> item.start.seconds < 86400) && (item.end.At? ==> item.end.seconds < 86400)
  }

  predicate ValidItems(items: seq<Item>) {
    forall k | 0 <= k < |items| :: ValidItem(items[k])
  }

  function DayOf(t: int): int {
    t / DAY
  }

  /** The name of the `d`-th day. */
  function DayName(d: int): Day {
    var w := d % 7;
    if w == 0 then Mon else if w == 1 then Tue else if w == 2 then Wed else if w == 3 then Thu
    else if w == 4 then Fri else if w == 5 then Sat else Sun
  }

  predicate OnDay(item: Item, d: int) {
    item.days == [] || DayName(d) in item.days
  }

  function Offset(c: Clock): int {
    if c.EndOfDay? then DAY else c.seconds * SECOND
  }

  /** The start and the end of the session of a day; an end that is not after the start is on the next day. */
  function Start(item: Item, d: int): int {
    d * DAY + Offset(item.start)
  }

  function End(item: Item, d: int): int {
    var end := d * DAY + Offset(item.end);
    if end <= Start(item, d) then end + DAY else end
  }

  // ------------------------------------------------------------------ the infinite weekly schedule

  /** The instant lies in the session of day `d`. */
  predicate Occurs(item: Item, d: int, t: int) {
    OnDay(item, d) && Start(item, d) <= t < End(item, d)
  }

  ghost predicate InSession(item: Item, t: int) {
    exists d: int :: Occurs(item, d, t)
  }

  ghost predicate InSchedule(items: seq<Item>, t: int) {
    exists k :: 0 <= k < |items| && InSession(items[k], t)
  }

  /** A session of some day starts at `t`. */
  ghost predicate StartsAt(items: seq<Item>, t: int) {
    exists k, d: int :: 0 <= k < |items| && OnDay(items[k], d) && Start(items[k], d) == t
  }

  predicate HasDay(item: Item) {
    item.days == [] || exists day :: day in item.days && !day.NoDay?
  }

  // ------------------------------------------------------------------ the expansion over three days

  datatype Window = Window(start: int, end: int)

  /** `_window_datetimes`: the sessions of the day before, the day and the day after an instant. */
  function Windows(item: Item, t: int, n: nat): seq<Window>
    requires n <= 3
  {
    if n == 0 then []
    else
      var d := DayOf(t) + n - 2;
      Windows(item, t, n - 1) + if OnDay(item, d) then [Window(Start(item, d), End(item, d))] else []
  }

  method WindowDatetimes(item: Item, t: int) returns (windows: seq<Window>)
    ensures windows == Windows(item, t, 3)
  {
    windows := [];
    for delta := 0 to 3
      invariant windows == Windows(item, t, delta)
    {
      var d := DayOf(t) + delta - 1;
      if item.days == [] || DayName(d) in item.days {
        var start := d * DAY + Offset(item.start);
        var end := d * DAY + Offset(item.end);
        if end <= start {
          end := end + DAY;
        }
        windows := windows + [Window(start, end)];
      }
    }
  }

  lemma {:induction false} WindowsAre(item: Item, t: int, n: nat)
    requires n <= 3
    ensures forall w :: w in Windows(item, t, n) <==>
              exists d ::
                DayOf(t) - 1 <= d < DayOf(t) - 1 + n && OnDay(item, d) && w == Window(Start(item, d), End(item, d))
  {
    if n != 0 {
      WindowsAre(item, t, n - 1);
    }
  }

  /**
   A session starts on its day, or at the end of it, and lasts at most a day; equal times mean a whole day,
   and the only empty session is the one from 24:00 to 00:00.
   */
  lemma SessionBounds(item: Item, d: int)
    requires ValidItem(item)
    ensures d * DAY <= Start(item, d) <= (d + 1) * DAY
    ensures Start(item, d) <= End(item, d) <= Start(item, d) + DAY
    ensures Start(item, d) == End(item, d) <==> item.start.EndOfDay? && item.end == At(0)
    ensures item.start == item.end ==> End(item, d) == Start(item, d) + DAY
  {
  }

  lemma DayBounds(t: int)
    ensures DayOf(t) * DAY <= t < (DayOf(t) + 1) * DAY
  {
  }

  /** Only the day before and the day itself can have a session with the instant. */
  lemma {:induction false} OccursOnlyNearby(item: Item, d: int, t: int)
    requires ValidItem(item) && Occurs(item, d, t)
    ensures DayOf(t) - 1 <= d <= DayOf(t)
  {
    SessionBounds(item, d);
    DayBounds(t);
    assert d * DAY < (DayOf(t) + 1) * DAY;
    assert DayOf(t) * DAY < (d + 2) * DAY;
  }

  // ------------------------------------------------------------------ the matching window

  /** The item that matched, and the whole seconds until the end of its session. */
  datatype Match = Match(item: nat, secondsToEnd: int)

  /** The first item in session, and the whole seconds until its earliest session at the instant ends. */
  ghost predicate EndsIn(items: seq<Item>, t: int, item: nat, seconds: int) {
    && item < |items|
    && (forall k | 0 <= k < item :: !InSession(items[k], t))
    && (exists d ::
          Occurs(items[item], d, t) && seconds == (End(items[item], d) - t) / SECOND
          && forall e: int | Occurs(items[item], e, t) :: d <= e)
  }

  /** `_matching_window`: the first item, in the configuration's order, with a session at the instant. */
  method MatchingWindow(items: seq<Item>, t: int) returns (m: Option<Match>)
    requires ValidItems(items)
    ensures m.Some? <==> InSchedule(items, t)
    ensures m.Some? ==> EndsIn(items, t, m.value.item, m.value.secondsToEnd)
  {
    for k := 0 to |items|
      invariant forall j | 0 <= j < k :: !InSession(items[j], t)
    {
      var windows := WindowDatetimes(items[k], t);
      WindowsAre(items[k], t, 3);
      for j := 0 to |windows|
        invariant forall i | 0 <= i < j :: !(windows[i].start <= t < windows[i].end)
      {
        if windows[j].start <= t < windows[j].end {
          m := Some(Match(k, (windows[j].end - t) / SECOND));
          FirstSession(items[k], t, windows, j);
          return;
        }
      }
      NoSession(items[k], t, windows);
    }
    m := None;
  }

  lemma {:induction false} OccursIsListed(item: Item, d: int, t: int)
    requires ValidItem(item) && Occurs(item, d, t)
    ensures exists i :: 0 <= i < |Windows(item, t, 3)| && Windows(item, t, 3)[i] == Window(Start(item, d), End(item, d))
  {
    OccursOnlyNearby(item, d, t);
    WindowsAre(item, t, 3);
    assert Window(Start(item, d), End(item, d)) in Windows(item, t, 3);
  }

  lemma {:induction false} NoSession(item: Item, t: int, windows: seq<Window>)
    requires ValidItem(item) && windows == Windows(item, t, 3)
    requires forall i | 0 <= i < |windows| :: !(windows[i].start <= t < windows[i].end)
    ensures !InSession(item, t)
  {
    if InSession(item, t) {
      var d :| Occurs(item, d, t);
      OccursIsListed(item, d, t);
    }
  }

  lemma {:induction false} FirstSession(item: Item, t: int, windows: seq<Window>, j: nat)
    requires ValidItem(item) && windows == Windows(item, t, 3) && j < |windows|
    requires windows[j].start <= t < windows[j].end
    requires forall i | 0 <= i < j :: !(windows[i].start <= t < windows[i].end)
    ensures exists d :: Occurs(item, d, t) && windows[j].end == End(item, d)
                        && forall e: int | Occurs(item, e, t) :: d <= e
    ensures InSession(item, t)
  {
    var before := DayOf(t) - 1;
    if Occurs(item, before, t) {
      DayBeforeIsFirst(item, t);
      assert j == 0;
      forall e: int | Occurs(item, e, t)
        ensures before <= e
      {
        OccursOnlyNearby(item, e, t);
      }
    } else {
      WindowsAre(item, t, 3);
      assert windows[j] in windows;
      var d :| before <= d < before + 3 && OnDay(item, d) && windows[j] == Window(Start(item, d), End(item, d));
      assert Occurs(item, d, t);
      forall e: int | Occurs(item, e, t)
        ensures d <= e
      {
        OccursOnlyNearby(item, e, t);
        OccursOnlyNearby(item, d, t);
      }
    }
  }

  lemma {:induction false} DayBeforeIsFirst(item: Item, t: int)
    requires OnDay(item, DayOf(t) - 1)
    ensures |Windows(item, t, 3)| > 0
    ensures var d := DayOf(t) - 1; Windows(item, t, 3)[0] == Window(Start(item, d), End(item, d))
  {
    assert Windows(item, t, 0) == [];
    var one := Windows(item, t, 1);
    assert one == [] + [Window(Start(item, DayOf(t) - 1), End(item, DayOf(t) - 1))];
    var two := Windows(item, t, 2);
    assert two[0] == one[0];
  }

  // ------------------------------------------------------------------ the next session

  /** The whole seconds until the first later start, at most a week away; none exactly when no item has a valid day. */
  ghost predicate StartsIn(items: seq<Item>, t: int, seconds: Option<int>) {
    && (seconds.None? <==> forall k | 0 <= k < |items| :: !HasDay(items[k]))
    && (seconds.Some? ==>
          exists s: int ::
            t < s <= t + WEEK && StartsAt(items, s) && seconds.value == (s - t) / SECOND
            && forall u: int | t < u < s :: !StartsAt(items, u))
  }

  /** `_seconds_to_next`: candidates from eight pivots, each expanded over three days. */
  method SecondsToNext(items: seq<Item>, t: int) returns (seconds: Option<int>)
    requires ValidItems(items)
    ensures StartsIn(items, t, seconds)
  {
    var best: Option<int> := None;
    for offset := 0 to 8
      invariant Best(items, t, best, offset, 0)
    {
      var pivot := t + offset * DAY;
      PivotDay(t, offset);
      for k := 0 to |items|
        invariant Best(items, t, best, offset, k)
      {
        var windows := WindowDatetimes(items[k], pivot);
        ghost var before := best;
        for j := 0 to |windows|
          invariant BestIn(before, best, windows[..j], t)
        {
          assert windows[..j + 1] == windows[..j] + [windows[j]];
          if windows[j].start > t && (best.None? || windows[j].start < best.value) {
            best := Some(windows[j].start);
          }
        }
        assert windows[..|windows|] == windows;
        WindowsAre(items[k], pivot, 3);
        BestOneMore(items, t, before, best, offset, k, windows);
      }
      BestNextPivot(items, t, best, offset);
    }
    NextWithinWeek(items, t, best);
    seconds := if best.None? then None else Some((best.value - t) / SECOND);
  }

  lemma PivotDay(t: int, offset: int)
    ensures DayOf(t + offset * DAY) == DayOf(t) + offset
  {
  }

  /** The days an item was expanded over: by all pivots below `offset`, and by this one for items below `k`. */
  predicate Expanded(t: int, offset: int, k: int, item: int, d: int) {
    || (offset > 0 && DayOf(t) - 1 <= d < DayOf(t) + offset + 1)
    || (item < k && DayOf(t) + offset - 1 <= d <= DayOf(t) + offset + 1)
  }

  /** The earliest start after `t` among the sessions expanded so far. */
  ghost predicate Best(items: seq<Item>, t: int, best: Option<int>, offset: int, k: int) {
    && (best.Some? ==> t < best.value && StartsAt(items, best.value))
    && (forall i, d: int | 0 <= i < |items| && Expanded(t, offset, k, i, d)
      && OnDay(items[i], d) && Start(items[i], d) > t ::
          best.Some? && best.value <= Start(items[i], d))
  }

  ghost predicate BestIn(before: Option<int>, best: Option<int>, windows: seq<Window>, t: int) {
    && (before.Some? ==> best.Some? && best.value <= before.value)
    && (best.Some? ==>
      best == before || (best.value > t && exists j :: 0 <= j < |windows| && windows[j].start == best.value))
    && (forall j | 0 <= j < |windows| && windows[j].start > t :: best.Some? && best.value <= windows[j].start)
  }

  lemma {:induction false} BestOneMore(
    items: seq<Item>, t: int, before: Option<int>, best: Option<int>, offset: int, k: nat, windows: seq<Window>)
    requires 0 <= offset && k < |items| && Best(items, t, before, offset, k) && BestIn(before, best, windows, t)
    requires forall w :: w in windows <==>
               exists d :: DayOf(t) + offset - 1 <= d < DayOf(t) + offset + 2 && OnDay(items[k], d)
                           && w == Window(Start(items[k], d), End(items[k], d))
    ensures Best(items, t, best, offset, k + 1)
  {
    if best.Some? && best != before {
      var j :| 0 <= j < |windows| && windows[j].start == best.value;
      assert windows[j] in windows;
      var d :| OnDay(items[k], d) && windows[j] == Window(Start(items[k], d), End(items[k], d));
      assert OnDay(items[k], d) && Start(items[k], d) == best.value;
    }
    forall i, d: int | 0 <= i < |items| && Expanded(t, offset, k + 1, i, d)
      && OnDay(items[i], d) && Start(items[i], d) > t
      ensures best.Some? && best.value <= Start(items[i], d)
    {
      if !Expanded(t, offset, k, i, d) {
        assert i == k;
        assert Window(Start(items[k], d), End(items[k], d)) in windows;
      }
    }
  }

  lemma {:induction false} BestNextPivot(items: seq<Item>, t: int, best: Option<int>, offset: int)
    requires 0 <= offset && Best(items, t, best, offset, |items|)
    ensures Best(items, t, best, offset + 1, 0)
  {
    forall i, d: int | 0 <= i < |items| && Expanded(t, offset + 1, 0, i, d)
      && OnDay(items[i], d) && Start(items[i], d) > t
      ensures best.Some? && best.value <= Start(items[i], d)
    {
      assert Expanded(t, offset, |items|, i, d);
    }
  }

  /** A start after `t` recurs weekly, so the first one is at most a week away, within the expanded days. */
  lemma {:induction false} NextWithinWeek(items: seq<Item>, t: int, best: Option<int>)
    requires ValidItems(items) && Best(items, t, best, 8, 0)
    ensures best.None? <==> forall k | 0 <= k < |items| :: !HasDay(items[k])
    ensures best.Some? ==> t < best.value <= t + WEEK && StartsAt(items, best.value)
                           && forall u: int | t < u < best.value :: !StartsAt(items, u)
  {
    forall k | 0 <= k < |items| && HasDay(items[k])
      ensures best.Some? && best.value <= t + WEEK
    {
      var d := StartThisWeek(items[k], t);
      BestIsLeast(items, t, best, k, d);
    }
    if best.Some? {
      var k, d :| 0 <= k < |items| && OnDay(items[k], d) && Start(items[k], d) == best.value;
      HasDayIfOn(items[k], d);
      forall u: int | t < u < best.value
        ensures !StartsAt(items, u)
      {
        if StartsAt(items, u) {
          var i, e: int :| 0 <= i < |items| && OnDay(items[i], e) && Start(items[i], e) == u;
          BestIsLeast(items, t, best, i, e);
        }
      }
    }
  }

  lemma {:induction false} BestIsLeast(items: seq<Item>, t: int, best: Option<int>, i: nat, d: int)
    requires ValidItems(items) && Best(items, t, best, 8, 0)
    requires i < |items| && OnDay(items[i], d) && t < Start(items[i], d) <= t + WEEK
    ensures best.Some? && best.value <= Start(items[i], d)
  {
    NearStart(items[i], t, d);
    assert Expanded(t, 8, 0, i, d);
  }

  lemma {:induction false} HasDayIfOn(item: Item, d: int)
    requires OnDay(item, d)
    ensures HasDay(item)
  {
    if item.days != [] {
      assert DayName(d) in item.days && !DayName(d).NoDay?;
    }
  }

  lemma {:induction false} NearStart(item: Item, t: int, d: int)
    requires ValidItem(item) && t < Start(item, d) <= t + WEEK
    ensures DayOf(t) <= d <= DayOf(t) + 7
  {
    SessionBounds(item, d);
    DayBounds(t);
  }

  /** Some day of the coming week has a start of the item. */
  lemma {:induction false} StartThisWeek(item: Item, t: int) returns (d: int)
    requires ValidItem(item) && HasDay(item)
    ensures OnDay(item, d) && t < Start(item, d) <= t + WEEK && DayOf(t) <= d <= DayOf(t) + 7
  {
    var w := 0;
    if item.days != [] {
      var day :| day in item.days && !day.NoDay?;
      w := match day case Mon => 0 case Tue => 1 case Wed => 2 case Thu => 3 case Fri => 4 case Sat => 5 case _ => 6;
      assert DayName(w) == day;
    }
    // the last day with this weekday on which the item starts at or before t
    var base := DayOf(t - Offset(item.start));
    var back := (base - w) % 7;
    d := base - back + 7;
    assert (base - back) % 7 == w;
    assert d % 7 == w;
    assert base * DAY <= t - Offset(item.start) < (base + 1) * DAY;
    assert Start(item, d) == d * DAY + Offset(item.start);
    NearStart(item, t, d);
  }

  // ------------------------------------------------------------------ the trading state

  datatype Status = NormalTrade | ReduceOnly | QuoteOnly | ClosedMarket

  datatype ScheduleState = ScheduleState(
    status: Status, canQuote: bool, canOpen: bool, canClose: bool, toOpen: Option<int>, toClose: Option<int>)

  datatype Lists = Lists(regular: seq<Item>, closeOnly: seq<Item>, quoteOnly: seq<Item>)

  /** A named template brings default lists; `Auto` without lists leaves the symbol alone. */
  datatype Template = Auto | ManualCustom | Named(defaults: Lists)

  datatype Mapping = Mapping(
    enabled: bool, template: Template, regular: seq<Item>, closeOnly: seq<Item>, quoteOnly: seq<Item>)

  predicate Unconfigured(m: Mapping) {
    m.regular == [] && m.closeOnly == [] && m.quoteOnly == []
  }

  /** The lists that decide: the configured ones, or the template's when none is configured. */
  function ListsOf(m: Mapping): Lists {
    if m.template.Named? && Unconfigured(m) then m.template.defaults
    else Lists(m.regular, m.closeOnly, m.quoteOnly)
  }

  predicate ValidLists(l: Lists) {
    ValidItems(l.regular) && ValidItems(l.closeOnly) && ValidItems(l.quoteOnly)
  }

  /** The status at an instant of the infinite weekly schedule: close-only before quote-only before regular. */
  ghost function StatusAt(l: Lists, t: int): Status {
    if InSchedule(l.closeOnly, t) then ReduceOnly
    else if InSchedule(l.quoteOnly, t) then QuoteOnly
    else if InSchedule(l.regular, t) then NormalTrade
    else ClosedMarket
  }

  function ListFor(l: Lists, status: Status): seq<Item> {
    match status
    case ReduceOnly => l.closeOnly
    case QuoteOnly => l.quoteOnly
    case NormalTrade => l.regular
    case ClosedMarket => []
  }

  /** The time to the end of the session that decides the status; a closed market has none. */
  ghost predicate ToCloseIs(l: Lists, t: int, status: Status, seconds: Option<int>) {
    if status.ClosedMarket? then seconds.None?
    else seconds.Some? && exists item: nat :: EndsIn(ListFor(l, status), t, item, seconds.value)
  }

  /** The time to the next regular session when only quoting, to the next session of any kind when closed. */
  ghost predicate ToOpenIs(l: Lists, t: int, status: Status, seconds: Option<int>) {
    if status.QuoteOnly? then StartsIn(l.regular, t, seconds)
    else if status.ClosedMarket? then StartsIn(l.regular + l.closeOnly + l.quoteOnly, t, seconds)
    else seconds.None?
  }

  /**
   `local_schedule_state`: no answer for a disabled symbol or one without sessions; otherwise the status of
   the infinite schedule, where opening is allowed only in regular trading and closing also in close-only.
   */
  method LocalScheduleState(m: Mapping, t: int) returns (state: Option<ScheduleState>)
    requires ValidLists(ListsOf(m))
    ensures state.None? <==> !m.enabled || ListsOf(m) == Lists([], [], [])
    ensures state.Some? ==>
              && state.value.status == StatusAt(ListsOf(m), t)
              && (state.value.canOpen <==> state.value.status.NormalTrade?)
              && (state.value.canClose <==> state.value.status.NormalTrade? || state.value.status.ReduceOnly?)
              && (state.value.canQuote <==> !state.value.status.ClosedMarket?)
              && ToCloseIs(ListsOf(m), t, state.value.status, state.value.toClose)
              && ToOpenIs(ListsOf(m), t, state.value.status, state.value.toOpen)
    ensures state.Some? && state.value.toClose.Some? ==> 0 <= state.value.toClose.value <= 86400
  {
    if !m.enabled || (m.template.Auto? && Unconfigured(m)) {
      return None;
    }
    var l := ListsOf(m);
    var close := MatchingWindow(l.closeOnly, t);
    if close.Some? {
      RemainingSeconds(l.closeOnly, t, close.value);
      assert EndsIn(ListFor(l, ReduceOnly), t, close.value.item, close.value.secondsToEnd);
      return Some(ScheduleState(ReduceOnly, true, false, true, None, Some(close.value.secondsToEnd)));
    }
    var quote := MatchingWindow(l.quoteOnly, t);
    if quote.Some? {
      RemainingSeconds(l.quoteOnly, t, quote.value);
      assert EndsIn(ListFor(l, QuoteOnly), t, quote.value.item, quote.value.secondsToEnd);
      var next := SecondsToNext(l.regular, t);
      return Some(ScheduleState(QuoteOnly, true, false, false, next, Some(quote.value.secondsToEnd)));
    }
    var regular := MatchingWindow(l.regular, t);
    if regular.Some? {
      RemainingSeconds(l.regular, t, regular.value);
      assert EndsIn(ListFor(l, NormalTrade), t, regular.value.item, regular.value.secondsToEnd);
      return Some(ScheduleState(NormalTrade, true, true, true, None, Some(regular.value.secondsToEnd)));
    }
    if l != Lists([], [], []) {
      var next := SecondsToNext(l.regular + l.closeOnly + l.quoteOnly, t);
      return Some(ScheduleState(ClosedMarket, false, false, false, next, None));
    }
    state := None;
  }

  lemma {:induction false} RemainingSeconds(items: seq<Item>, t: int, m: Match)
    requires ValidItems(items) && m.item < |items|
    requires EndsIn(items, t, m.item, m.secondsToEnd)
    ensures 0 <= m.secondsToEnd <= 86400
  {
    var d :| Occurs(items[m.item], d, t) && m.secondsToEnd == (End(items[m.item], d) - t) / SECOND;
    SessionBounds(items[m.item], d);
  }

  /** The schedule repeats every week. */
  lemma {:induction false} WeeksRepeat(items: seq<Item>, t: int)
    ensures InSchedule(items, t) <==> InSchedule(items, t + WEEK)
  {
    forall item, d: int
      ensures Occurs(item, d, t) <==> Occurs(item, d + 7, t + WEEK)
    {
      assert (d + 7) % 7 == d % 7;
    }
    if InSchedule(items, t) {
      var k :| 0 <= k < |items| && InSession(items[k], t);
      var d :| Occurs(items[k], d, t);
      assert Occurs(items[k], d + 7, t + WEEK);
    }
    if InSchedule(items, t + WEEK) {
      var k :| 0 <= k < |items| && InSession(items[k], t + WEEK);
      var d :| Occurs(items[k], d, t + WEEK);
      assert Occurs(items[k], (d - 7) + 7, t + WEEK);
      assert Occurs(items[k], d - 7, t);
    }
  }

  /** The day that follows another in the week. */
  function NextDay(day: Day): Day {
    match day
    case Mon => Tue
    case Tue => Wed
    case Wed => Thu
    case Thu => Fri
    case Fri => Sat
    case Sat => Sun
    case Sun => Mon
    case NoDay(text) => NoDay(text)
  }

  /** Days are counted from a Monday and named in the order of the week. */
  lemma {:induction false} DaysFollow(d: int)
    ensures DayName(0) == Mon && DayName(d + 1) == NextDay(DayName(d)) && !DayName(d).NoDay?
  {
  }

  /** A symbol's own lists decide as soon as one of them is given; only without any does a named template. */
  lemma {:induction false} OwnListsComeFirst(m: Mapping)
    ensures (m.regular + m.closeOnly + m.quoteOnly != [] || !m.template.Named? ==>
               ListsOf(m) == Lists(m.regular, m.closeOnly, m.quoteOnly))
    ensures m.regular + m.closeOnly + m.quoteOnly == [] && m.template.Named? ==> ListsOf(m) == m.template.defaults
  {
  }
}
