// Open slot starts (app/services/scheduling.py). Instants are microseconds since the epoch, days
// are counted from it, and the zone is a fixed UTC offset.
module Scheduling {
  import opened Prelude
  import opened QuietHours

  // hours maps a weekday, Monday = 0, to its configured ranges.
  datatype BookingCfg = BookingCfg(hours: map<int, seq<RawRange>>, closed: set<int>, horizonDays: int,
                                   slotMinutes: int, stepMinutes: int, leadMinutes: int, maxSlots: int,
                                   bufferMinutes: int) {
    function Step(): int { Max(stepMinutes, 5) * MINUTE }
    function Length(): int { Max(slotMinutes, 5) * MINUTE }
  }

  // An open window, as instants; the end is not part of it.
  datatype Window = Window(start: int, end: int)

  // Malformed and inverted ranges are dropped.
  function OpenRange(item: RawRange): seq<Range> {
    match item
    case Malformed => []
    case Times(ah, am, bh, bm) =>
      if IsTime(ah, am) && IsTime(bh, bm) && TimeOf(ah, am) < TimeOf(bh, bm) then
        [Range(TimeOf(ah, am), TimeOf(bh, bm))]
      else []
  }

  function OpenRanges(spec: seq<RawRange>, n: nat): (r: seq<Range>)
    requires n <= |spec|
    ensures forall i :: 0 <= i < |r| ==> 0 <= r[i].start < r[i].end < DAY
  {
    if n == 0 then [] else OpenRanges(spec, n - 1) + OpenRange(spec[n - 1])
  }

  method ParseRanges(spec: seq<RawRange>) returns (out: seq<Range>)
    ensures out == OpenRanges(spec, |spec|)
  {
    out := [];
    for i := 0 to |spec|
      invariant out == OpenRanges(spec, i)
    {
      match spec[i]
      case Malformed =>
      case Times(ah, am, bh, bm) =>
        if IsTime(ah, am) && IsTime(bh, bm) {
          var start, end := TimeOf(ah, am), TimeOf(bh, bm);
          if start < end {
            out := out + [Range(start, end)];
          }
        }
    }
  }

  // Day 0, the first of January 1970, was a Thursday.
  function Weekday(day: int): int {
    (day + 3) % 7
  }

  function Midnight(day: int, offset: int): int {
    day * DAY - offset
  }

  function Ranges(cfg: BookingCfg, day: int): seq<Range> {
    var spec := if Weekday(day) in cfg.hours then cfg.hours[Weekday(day)] else [];
    OpenRanges(spec, |spec|)
  }

  function DayWindows(cfg: BookingCfg, day: int, offset: int): (w: seq<Window>)
    ensures |w| == |Ranges(cfg, day)|
    ensures forall i :: 0 <= i < |w| ==> Midnight(day, offset) <= w[i].start < w[i].end < Midnight(day, offset) + DAY
  {
    var r := Ranges(cfg, day);
    seq(|r|, i requires 0 <= i < |r| =>
          Window(Midnight(day, offset) + r[i].start, Midnight(day, offset) + r[i].end))
  }

  // ---------------------------------------------------------------- the full enumeration

  // Starts in one window from `cursor` on, no earlier than `earliest`.
  function WindowStarts(cfg: BookingCfg, cursor: int, end: int, earliest: int): seq<int>
    decreases end - cursor
  {
    if cursor + cfg.Length() > end then []
    else
      var rest := WindowStarts(cfg, cursor + cfg.Step(), end, earliest);
      if cursor >= earliest then [cursor] + rest else rest
  }

  // Starts in the windows from the j-th on.
  function StartsFrom(cfg: BookingCfg, windows: seq<Window>, j: nat, earliest: int): seq<int>
    requires j <= |windows|
    decreases |windows| - j
  {
    if j == |windows| then []
    else WindowStarts(cfg, windows[j].start, windows[j].end, earliest) + StartsFrom(cfg, windows, j + 1, earliest)
  }

  function DayStarts(cfg: BookingCfg, day: int, offset: int, earliest: int): seq<int> {
    if day in cfg.closed then [] else StartsFrom(cfg, DayWindows(cfg, day, offset), 0, earliest)
  }

  // Starts on the days today + d, d + 1, ... of the horizon.
  function DaysFrom(cfg: BookingCfg, today: int, d: nat, offset: int, earliest: int): seq<int>
    decreases cfg.horizonDays - d
  {
    if d >= cfg.horizonDays then []
    else DayStarts(cfg, today + d, offset, earliest) + DaysFrom(cfg, today, d + 1, offset, earliest)
  }

  function Today(now: int, offset: int): int {
    (now + offset) / DAY
  }

  // Every open start of the horizon that respects the lead time.
  function AllStarts(cfg: BookingCfg, now: int, offset: int): seq<int> {
    DaysFrom(cfg, Today(now, offset), 0, offset, now + cfg.leadMinutes * MINUTE)
  }

  lemma TakeFull<T>(a: seq<T>, b: seq<T>, n: nat)
    ensures Take(a + b, n) == if |Take(a, n)| == n then Take(a, n) else a + Take(b, n - |a|)
  {}

  lemma TakeShort<T>(a: seq<T>, n: nat)
    requires |a| <= n
    ensures Take(a, n) == a && Take(a + [], n) == a
  {
    assert a + [] == a;
  }

  lemma TakeNotFull<T>(a: seq<T>, n: nat)
    ensures |Take(a, n)| < n ==> Take(a, n) == a
  {}

  // The innermost loop: one window, until k starts are in hand.
  method FillFromWindow(cfg: BookingCfg, w: Window, earliest: int, k: nat, soFar: seq<int>) returns (out: seq<int>)
    requires |soFar| < k
    ensures out == Take(soFar + WindowStarts(cfg, w.start, w.end, earliest), k)
  {
    out := soFar;
    var cursor := w.start;
    while cursor + cfg.Length() <= w.end
      invariant |out| < k
      invariant soFar + WindowStarts(cfg, w.start, w.end, earliest) == out + WindowStarts(cfg, cursor, w.end, earliest)
      decreases w.end - cursor
    {
      if cursor >= earliest {
        ghost var tail := WindowStarts(cfg, cursor + cfg.Step(), w.end, earliest);
        assert out + ([cursor] + tail) == (out + [cursor]) + tail;
        out := out + [cursor];
        if |out| >= k {
          TakeFull(out, tail, k);
          return;
        }
      }
      cursor := cursor + cfg.Step();
    }
  }

  // The loop over the windows of one day.
  method FillFromDay(cfg: BookingCfg, windows: seq<Window>, earliest: int, k: nat,
                     soFar: seq<int>) returns (out: seq<int>)
    requires |soFar| < k
    ensures out == Take(soFar + StartsFrom(cfg, windows, 0, earliest), k)
  {
    hide WindowStarts;
    out := soFar;
    for j := 0 to |windows|
      invariant |out| < k
      invariant soFar + StartsFrom(cfg, windows, 0, earliest) == out + StartsFrom(cfg, windows, j, earliest)
    {
      ghost var here := WindowStarts(cfg, windows[j].start, windows[j].end, earliest);
      ghost var tail := StartsFrom(cfg, windows, j + 1, earliest);
      assert out + (here + tail) == (out + here) + tail;
      TakeFull(out + here, tail, k);
      out := FillFromWindow(cfg, windows[j], earliest, k, out);
      if |out| >= k {
        return;
      }
    }
  }

  // One more day of the horizon, and the end of it.
  lemma DaysStep(cfg: BookingCfg, today: int, d: nat, offset: int, earliest: int)
    ensures d < cfg.horizonDays ==>
              DaysFrom(cfg, today, d, offset, earliest)
              == DayStarts(cfg, today + d, offset, earliest) + DaysFrom(cfg, today, d + 1, offset, earliest)
    ensures d >= cfg.horizonDays ==> DaysFrom(cfg, today, d, offset, earliest) == []
  {
    hide DayStarts;
  }

  lemma OneDay(cfg: BookingCfg, day: int, offset: int, earliest: int)
    ensures DayStarts(cfg, day, offset, earliest)
            == if day in cfg.closed then [] else StartsFrom(cfg, DayWindows(cfg, day, offset), 0, earliest)
  {
    hide DayWindows, StartsFrom;
  }

  // The loop over the days: the first max_slots open starts (one, if max_slots is below one).
  method CandidateStarts(cfg: BookingCfg, now: int, offset: int, maxSlots: int) returns (out: seq<int>)
    ensures out == Take(AllStarts(cfg, now, offset), Max(maxSlots, 1))
  {
    hide DayWindows, Today, StartsFrom, Take, DaysFrom, DayStarts;
    var earliest := now + cfg.leadMinutes * MINUTE;
    var today := Today(now, offset);
    var k := Max(maxSlots, 1);
    out := [];
    for d := 0 to Max(cfg.horizonDays, 0)
      invariant |out| < k
      invariant AllStarts(cfg, now, offset) == out + DaysFrom(cfg, today, d, offset, earliest)
    {
      var day := today + d;
      ghost var here, tail := DayStarts(cfg, day, offset, earliest), DaysFrom(cfg, today, d + 1, offset, earliest);
      DaysStep(cfg, today, d, offset, earliest);
      OneDay(cfg, day, offset, earliest);
      assert out + (here + tail) == (out + here) + tail;
      if day !in cfg.closed {
        TakeFull(out + here, tail, k);
        TakeNotFull(out + here, k);
        out := FillFromDay(cfg, DayWindows(cfg, day, offset), earliest, k, out);
        if |out| >= k {
          return;
        }
      }
    }
    DaysStep(cfg, today, Max(cfg.horizonDays, 0), offset, earliest);
    TakeShort(out, k);
  }

  // ---------------------------------------------------------------- what the enumeration means

  // t is window_start + n * step for some n, and a whole slot from t on fits in the window.
  ghost predicate Fits(cfg: BookingCfg, start: int, end: int, t: int) {
    t + cfg.Length() <= end && exists n: nat :: t == Nth(start, n, cfg.Step())
  }

  function Nth(start: int, n: nat, step: int): int {
    start + n * step
  }

  // t is an open start: in a window of a day of the horizon that is not closed.
  ghost predicate IsOpen(cfg: BookingCfg, now: int, offset: int, t: int) {
    && t >= now + cfg.leadMinutes * MINUTE
    && exists day :: Today(now, offset) <= day < Today(now, offset) + cfg.horizonDays && OpenOnDay(cfg, day, offset, t)
  }

  ghost predicate OpenOnDay(cfg: BookingCfg, day: int, offset: int, t: int) {
    day !in cfg.closed && exists w :: w in DayWindows(cfg, day, offset) && Fits(cfg, w.start, w.end, t)
  }

  lemma FitsFromNext(cfg: BookingCfg, cursor: int, end: int, t: int)
    ensures Fits(cfg, cursor, end, t) <==>
              t + cfg.Length() <= end && (t == cursor || Fits(cfg, cursor + cfg.Step(), end, t))
  {
    var step := cfg.Step();
    if Fits(cfg, cursor, end, t) && t != cursor {
      var n: nat :| t == Nth(cursor, n, step);
      assert n > 0 && t == Nth(cursor + step, n - 1, step);
    }
    if t + cfg.Length() <= end && t == cursor {
      assert t == Nth(cursor, 0, step);
    }
    if Fits(cfg, cursor + step, end, t) {
      var n: nat :| t == Nth(cursor + step, n, step);
      assert t == Nth(cursor, n + 1, step);
    }
  }

  lemma FitsIsLate(cfg: BookingCfg, cursor: int, end: int, t: int)
    requires Fits(cfg, cursor, end, t)
    ensures cursor <= t
  {
    var n: nat :| t == Nth(cursor, n, cfg.Step());
    assert n * cfg.Step() >= 0;
  }

  lemma {:induction false} WindowStartsMeaning(cfg: BookingCfg, cursor: int, end: int, earliest: int, t: int)
    ensures t in WindowStarts(cfg, cursor, end, earliest) <==> t >= earliest && Fits(cfg, cursor, end, t)
    decreases end - cursor
  {
    FitsFromNext(cfg, cursor, end, t);
    if cursor + cfg.Length() > end {
      if Fits(cfg, cursor, end, t) {
        FitsIsLate(cfg, cursor, end, t);
      }
    } else {
      WindowStartsMeaning(cfg, cursor + cfg.Step(), end, earliest, t);
    }
  }

  lemma {:induction false} StartsFromMeaning(cfg: BookingCfg, windows: seq<Window>, j: nat, earliest: int, t: int)
    requires j <= |windows|
    ensures t in StartsFrom(cfg, windows, j, earliest) <==>
              t >= earliest && exists i :: j <= i < |windows| && Fits(cfg, windows[i].start, windows[i].end, t)
    decreases |windows| - j
  {
    hide Fits;
    if j < |windows| {
      WindowStartsMeaning(cfg, windows[j].start, windows[j].end, earliest, t);
      StartsFromMeaning(cfg, windows, j + 1, earliest, t);
    }
  }

  lemma DayStartsMeaning(cfg: BookingCfg, day: int, offset: int, earliest: int, t: int)
    ensures t in DayStarts(cfg, day, offset, earliest) <==> t >= earliest && OpenOnDay(cfg, day, offset, t)
  {
    hide Fits;
    StartsFromMeaning(cfg, DayWindows(cfg, day, offset), 0, earliest, t);
  }

  lemma {:induction false} DaysFromMeaning(cfg: BookingCfg, today: int, d: nat, offset: int, earliest: int, t: int)
    ensures t in DaysFrom(cfg, today, d, offset, earliest) <==>
              t >= earliest
              && exists day :: today + d <= day < today + cfg.horizonDays && OpenOnDay(cfg, day, offset, t)
    decreases cfg.horizonDays - d
  {
    hide OpenOnDay, DayStarts;
    if d < cfg.horizonDays {
      DayStartsMeaning(cfg, today + d, offset, earliest, t);
      DaysFromMeaning(cfg, today, d + 1, offset, earliest, t);
    }
  }

  // The enumeration holds exactly the open starts.
  lemma AllStartsMeaning(cfg: BookingCfg, now: int, offset: int, t: int)
    ensures t in AllStarts(cfg, now, offset) <==> IsOpen(cfg, now, offset, t)
  {
    hide OpenOnDay, DaysFrom;
    DaysFromMeaning(cfg, Today(now, offset), 0, offset, now + cfg.leadMinutes * MINUTE, t);
  }

  // ---------------------------------------------------------------- order

  ghost predicate Ascending(s: seq<int>) {
    forall i, j :: 0 <= i < j < |s| ==> s[i] < s[j]
  }

  // Each weekday's ranges are configured in order and do not overlap.
  ghost predicate OrderedHours(cfg: BookingCfg) {
    forall day, i, j :: 0 <= i < j < |Ranges(cfg, day)| ==> Ranges(cfg, day)[i].end <= Ranges(cfg, day)[j].start
  }

  // All of s lies in [lo, hi).
  ghost predicate Within(s: seq<int>, lo: int, hi: int) {
    forall t :: t in s ==> lo <= t < hi
  }

  lemma AscendingConcat(a: seq<int>, b: seq<int>, lo: int, mid: int, hi: int)
    requires Ascending(a) && Ascending(b) && Within(a, lo, mid) && Within(b, mid, hi) && lo <= mid <= hi
    ensures Ascending(a + b) && Within(a + b, lo, hi)
  {
    forall i, j | 0 <= i < j < |a + b| ensures (a + b)[i] < (a + b)[j] {
      if i < |a| <= j {
        assert a[i] in a && b[j - |a|] in b;
      }
    }
  }

  lemma {:induction false} WindowAscends(cfg: BookingCfg, cursor: int, end: int, earliest: int)
    ensures Ascending(WindowStarts(cfg, cursor, end, earliest))
    ensures Within(WindowStarts(cfg, cursor, end, earliest), cursor, end)
    decreases end - cursor
  {
    if cursor + cfg.Length() <= end {
      WindowAscends(cfg, cursor + cfg.Step(), end, earliest);
      var rest := WindowStarts(cfg, cursor + cfg.Step(), end, earliest);
      forall i | 0 <= i < |rest| ensures cursor < rest[i] {
        assert rest[i] in rest;
      }
    }
  }

  lemma {:induction false} StartsAscend(cfg: BookingCfg, windows: seq<Window>, j: nat, earliest: int, lo: int, hi: int)
    requires j <= |windows| && lo <= hi
    requires forall i :: j <= i < |windows| ==> lo <= windows[i].start < windows[i].end <= hi
    requires forall i, k :: j <= i < k < |windows| ==> windows[i].end <= windows[k].start
    ensures Ascending(StartsFrom(cfg, windows, j, earliest)) && Within(StartsFrom(cfg, windows, j, earliest), lo, hi)
    decreases |windows| - j
  {
    hide WindowStarts, Ascending, Within;
    if j == |windows| {
      NothingAscends(lo, hi);
    } else {
      var w := windows[j];
      WindowAscends(cfg, w.start, w.end, earliest);
      StartsAscend(cfg, windows, j + 1, earliest, w.end, hi);
      WithinMore(WindowStarts(cfg, w.start, w.end, earliest), w.start, w.end, lo, w.end);
      AscendingConcat(WindowStarts(cfg, w.start, w.end, earliest), StartsFrom(cfg, windows, j + 1, earliest), lo,
          w.end, hi);
    }
  }

  lemma NothingAscends(lo: int, hi: int)
    ensures Ascending([]) && Within([], lo, hi)
  {}

  lemma WithinMore(s: seq<int>, a: int, b: int, lo: int, hi: int)
    requires Within(s, a, b) && lo <= a && b <= hi
    ensures Within(s, lo, hi)
  {}

  lemma DayAscends(cfg: BookingCfg, day: int, offset: int, earliest: int)
    requires OrderedHours(cfg)
    ensures Ascending(DayStarts(cfg, day, offset, earliest))
    ensures Within(DayStarts(cfg, day, offset, earliest), Midnight(day, offset), Midnight(day + 1, offset))
  {
    hide Ascending, Within, Ranges, StartsFrom;
    NothingAscends(Midnight(day, offset), Midnight(day + 1, offset));
    var w := DayWindows(cfg, day, offset);
    StartsAscend(cfg, w, 0, earliest, Midnight(day, offset), Midnight(day + 1, offset));
  }

  lemma {:induction false} DaysAscend(cfg: BookingCfg, today: int, d: nat, offset: int, earliest: int)
    requires OrderedHours(cfg)
    ensures Ascending(DaysFrom(cfg, today, d, offset, earliest))
    ensures Within(DaysFrom(cfg, today, d, offset, earliest), Midnight(today + d, offset),
                   Midnight(today + Max(d, cfg.horizonDays), offset))
    decreases cfg.horizonDays - d
  {
    hide Ascending, Within, OrderedHours, DayStarts;
    var hi := Midnight(today + Max(d, cfg.horizonDays), offset);
    if d >= cfg.horizonDays {
      NothingAscends(Midnight(today + d, offset), hi);
    } else {
      DayAscends(cfg, today + d, offset, earliest);
      DaysAscend(cfg, today, d + 1, offset, earliest);
      AscendingConcat(DayStarts(cfg, today + d, offset, earliest), DaysFrom(cfg, today, d + 1, offset, earliest),
                      Midnight(today + d, offset), Midnight(today + d + 1, offset), hi);
    }
  }

  // With each day's ranges in order, the candidates ascend strictly across windows and days.
  lemma CandidatesAscend(cfg: BookingCfg, now: int, offset: int, n: nat)
    requires OrderedHours(cfg)
    ensures Ascending(Take(AllStarts(cfg, now, offset), n))
  {
    hide OrderedHours, DaysFrom;
    DaysAscend(cfg, Today(now, offset), 0, offset, now + cfg.leadMinutes * MINUTE);
  }
}
