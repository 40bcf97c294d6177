// Quiet hours (app/services/reminders.py): ranges of local time that may wrap midnight, and the
// nudge of a send time out of them. Times are microseconds; the zone is a fixed UTC offset.
module QuietHours {
  import opened Prelude

  const MINUTE := 60_000_000
  const HOUR := 60 * MINUTE
  const DAY := 24 * HOUR

  // One configured item after splitting: not of the form h:m-h:m, or the four numbers read.
  datatype RawRange = Malformed | Times(ah: int, am: int, bh: int, bm: int)

  // Times of day, end not included.
  datatype Range = Range(start: int, end: int)

  predicate IsTime(h: int, m: int) {
    0 <= h < 24 && 0 <= m < 60
  }

  function TimeOf(h: int, m: int): int {
    h * HOUR + m * MINUTE
  }

  function Parsed(item: RawRange): seq<Range> {
    match item
    case Malformed => []
    case Times(ah, am, bh, bm) =>
      if IsTime(ah, am) && IsTime(bh, bm) then [Range(TimeOf(ah, am), TimeOf(bh, bm))] else []
  }

  function ParsedAll(spec: seq<RawRange>, n: nat): seq<Range>
    requires n <= |spec|
  {
    if n == 0 then [] else ParsedAll(spec, n - 1) + Parsed(spec[n - 1])
  }

  // Malformed items are dropped; inverted ranges are kept.
  method ParseRangesWrapping(spec: seq<RawRange>) returns (out: seq<Range>)
    ensures out == ParsedAll(spec, |spec|)
  {
    out := [];
    for i := 0 to |spec|
      invariant out == ParsedAll(spec, i)
    {
      match spec[i]
      case Malformed =>
      case Times(ah, am, bh, bm) =>
        if IsTime(ah, am) && IsTime(bh, bm) {
          out := out + [Range(TimeOf(ah, am), TimeOf(bh, bm))];
        }
    }
  }

  function LocalTime(when: int, offset: int): int {
    (when + offset) % DAY
  }

  predicate Inside(r: Range, t: int) {
    if r.start <= r.end then r.start <= t < r.end else t >= r.start || t < r.end
  }

  // A time of day within some range.
  predicate IsQuiet(ranges: seq<Range>, t: int) {
    exists r :: r in ranges && Inside(r, t)
  }

  predicate QuietAt(when: int, quiet: seq<RawRange>, offset: int) {
    IsQuiet(ParsedAll(quiet, |quiet|), LocalTime(when, offset))
  }

  method InQuietHours(when: int, quiet: seq<RawRange>, offset: int) returns (b: bool)
    ensures b == QuietAt(when, quiet, offset)
  {
    var local := LocalTime(when, offset);
    var ranges := ParseRangesWrapping(quiet);
    for i := 0 to |ranges|
      invariant forall j :: 0 <= j < i ==> !Inside(ranges[j], local)
    {
      if ranges[i].start <= ranges[i].end {
        if ranges[i].start <= local < ranges[i].end {
          assert Inside(ranges[i], local);
          return true;
        }
      } else if local >= ranges[i].start || local < ranges[i].end {
        assert Inside(ranges[i], local);
        return true;
      }
    }
    return false;
  }

  // The least of n whole-hour shifts, from `when` on, that is not quiet.
  function FirstOpen(when: int, quiet: seq<RawRange>, offset: int, n: nat): Option<int>
    decreases n
  {
    if n == 0 then None
    else if !QuietAt(when, quiet, offset) then Some(when)
    else FirstOpen(when + HOUR, quiet, offset, n - 1)
  }

  function Shifted(when: int, quiet: seq<RawRange>, offset: int): int {
    match FirstOpen(when, quiet, offset, 24)
    case Some(t) => t
    case None => when
  }

  method ShiftOutOfQuiet(when: int, quiet: seq<RawRange>, offset: int) returns (r: int)
    ensures r == Shifted(when, quiet, offset)
  {
    var candidate := when;
    for i := 0 to 24
      invariant FirstOpen(when, quiet, offset, 24) == FirstOpen(candidate, quiet, offset, 24 - i)
    {
      var b := InQuietHours(candidate, quiet, offset);
      if !b {
        return candidate;
      }
      candidate := candidate + HOUR;
    }
    return when;
  }

  // ---------------------------------------------------------------- what quiet means on the clock

  // The time of day m lies in a configured range: from its start to before its end, over midnight when
  // it ends earlier than it starts. Anything but two times of day is no range.
  predicate OnTheClock(item: RawRange, m: int) {
    && item.Times?
    && 0 <= item.ah <= 23 && 0 <= item.am <= 59 && 0 <= item.bh <= 23 && 0 <= item.bm <= 59
    && var a, b := (item.ah * 60 + item.am) * 60_000_000, (item.bh * 60 + item.bm) * 60_000_000;
    if a <= b then a <= m && m < b else m >= a || m < b
  }

  lemma {:induction false} ParsedIff(quiet: seq<RawRange>, n: nat, m: int)
    requires n <= |quiet|
    ensures IsQuiet(ParsedAll(quiet, n), m) <==> exists i :: 0 <= i < n && OnTheClock(quiet[i], m)
  {
    hide OnTheClock, Inside;
    if n > 0 {
      ParsedIff(quiet, n - 1, m);
      OneParsed(quiet[n - 1], m);
      QuietInEither(ParsedAll(quiet, n - 1), Parsed(quiet[n - 1]), m);
    }
  }

  lemma OneParsed(item: RawRange, m: int)
    ensures IsQuiet(Parsed(item), m) <==> OnTheClock(item, m)
  {
    if item.Times? && IsTime(item.ah, item.am) && IsTime(item.bh, item.bm) {
      var r := Range(TimeOf(item.ah, item.am), TimeOf(item.bh, item.bm));
      assert Parsed(item) == [r] && r in [r];
    }
  }

  lemma QuietInEither(a: seq<Range>, b: seq<Range>, m: int)
    ensures IsQuiet(a + b, m) <==> IsQuiet(a, m) || IsQuiet(b, m)
  {
    hide Inside;
    if IsQuiet(a, m) {
      var r :| r in a && Inside(r, m);
      assert r in a + b;
    }
    if IsQuiet(b, m) {
      var r :| r in b && Inside(r, m);
      assert r in a + b;
    }
  }

  // A moment is quiet exactly when its local time of day m lies in some range: m is the time since the
  // last midnight of a clock that runs `offset` ahead of UTC.
  lemma QuietIff(when: int, quiet: seq<RawRange>, offset: int, m: int, days: int)
    requires when + offset == days * 86_400_000_000 + m && 0 <= m < 86_400_000_000
    ensures QuietAt(when, quiet, offset) <==> exists i :: 0 <= i < |quiet| && OnTheClock(quiet[i], m)
  {
    hide IsQuiet, OnTheClock;
    ParsedIff(quiet, |quiet|, m);
    SameTimeOfDay(m, days);
  }

  // ---------------------------------------------------------------- what the shift promises

  // The first n hourly points are all quiet.
  ghost predicate QuietFor(when: int, quiet: seq<RawRange>, offset: int, n: nat) {
    forall g: nat :: g < n ==> QuietAt(when + g * HOUR, quiet, offset)
  }

  lemma QuietForNext(when: int, quiet: seq<RawRange>, offset: int, n: nat)
    requires QuietAt(when, quiet, offset)
    ensures QuietFor(when + HOUR, quiet, offset, n) <==> QuietFor(when, quiet, offset, n + 1)
  {
    hide QuietAt;
    if QuietFor(when + HOUR, quiet, offset, n) {
      forall g: nat | g < n + 1 ensures QuietAt(when + g * HOUR, quiet, offset) {
        if g > 0 {
          assert QuietAt(when + HOUR + (g - 1) * HOUR, quiet, offset);
        }
      }
    }
    if QuietFor(when, quiet, offset, n + 1) {
      forall g: nat | g < n ensures QuietAt(when + HOUR + g * HOUR, quiet, offset) {
        assert QuietAt(when + (g + 1) * HOUR, quiet, offset);
      }
    }
  }

  // The first open point is h hours on, and everything before it is quiet.
  ghost predicate IsFirst(when: int, quiet: seq<RawRange>, offset: int, h: nat, t: int) {
    t == when + h * HOUR && !QuietAt(t, quiet, offset) && QuietFor(when, quiet, offset, h)
  }

  lemma {:induction false} FirstOpenIsLeast(when: int, quiet: seq<RawRange>, offset: int, n: nat) returns (h: nat)
    ensures match FirstOpen(when, quiet, offset, n)
            case Some(t) => h < n && IsFirst(when, quiet, offset, h, t)
            case None => QuietFor(when, quiet, offset, n)
    decreases n
  {
    hide QuietAt, QuietFor;
    h := 0;
    NothingBefore(when, quiet, offset);
    if n > 0 && QuietAt(when, quiet, offset) {
      h := FirstOpenIsLeast(when + HOUR, quiet, offset, n - 1);
      QuietForNext(when, quiet, offset, h);
      QuietForNext(when, quiet, offset, n - 1);
      h := h + 1;
    }
  }

  lemma NothingBefore(when: int, quiet: seq<RawRange>, offset: int)
    ensures QuietFor(when, quiet, offset, 0)
  {
  }

  // The result is the least whole-hour shift below 24 that is not quiet; it is quiet, and then
  // the input itself, exactly when all 24 hourly points are.
  lemma ShiftIsLeast(when: int, quiet: seq<RawRange>, offset: int)
    ensures var r := Shifted(when, quiet, offset);
            && (QuietAt(r, quiet, offset) <==> QuietFor(when, quiet, offset, 24))
            && (QuietAt(r, quiet, offset) ==> r == when)
            && exists h: nat :: h < 24 && r == when + h * HOUR && QuietFor(when, quiet, offset, h)
  {
    hide QuietAt, FirstOpen;
    var h := FirstOpenIsLeast(when, quiet, offset, 24);
    assert when == when + 0 * HOUR;
    NothingBefore(when, quiet, offset);
    assert QuietFor(when, quiet, offset, 24) ==> forall h: nat :: h < 24 ==> QuietAt(when + h * HOUR, quiet, offset);
  }

  // An hour on the 24-hour circle, from local time `a` on, that no range touches.
  ghost predicate OpenHour(quiet: seq<RawRange>, a: int) {
    forall t :: a <= t < a + HOUR ==> !QuietAt(t, quiet, 0)
  }

  // Hourly points are an hour apart, so one of any 24 in a row falls in an open hour.
  lemma HourlyPointHits(t: int, a: int) returns (h: nat, d: int)
    ensures h < 24 && 0 <= d < HOUR && (t + h * HOUR) % DAY == (a + d) % DAY
  {
    var gap := (a - t) % DAY;
    var up := (gap + HOUR - 1) / HOUR;
    d := up * HOUR - gap;
    h := if up == 24 then 0 else up;
    var q := (a - t) / DAY;
    assert a - t == q * DAY + gap;
    assert t + up * HOUR == a + d - q * DAY;
    SameTimeOfDay(a + d, -q);
    SameTimeOfDay(t, 1);
  }

  lemma SameTimeOfDay(x: int, k: int)
    ensures (x + k * DAY) % DAY == x % DAY
  {
    var q, r := x / DAY, x % DAY;
    assert x + k * DAY == (q + k) * DAY + r;
  }

  // Main result: if the ranges, wrapping ones included, leave one open hour anywhere on the
  // clock, no input is left in quiet hours.
  lemma OpenHourIsEnough(when: int, quiet: seq<RawRange>, offset: int, a: int)
    requires OpenHour(quiet, a)
    ensures !QuietAt(Shifted(when, quiet, offset), quiet, offset)
  {
    ShiftIsLeast(when, quiet, offset);
    var h, d := HourlyPointHits(when + offset, a);
    assert when + h * HOUR + offset == when + offset + h * HOUR;
    assert !QuietAt(a + d, quiet, 0);
    assert !QuietAt(when + h * HOUR, quiet, offset);
  }

  // An hour is needed: 01:00-00:01 leaves 59 minutes open, and a send time on the hour stays quiet.
  lemma FiftyNineMinutesAreNotEnough()
    ensures var quiet := [Times(1, 0, 0, 1)];
            && (forall t :: MINUTE <= t < HOUR ==> !QuietAt(t, quiet, 0))
            && QuietAt(Shifted(0, quiet, 0), quiet, 0)
  {
    hide QuietAt, Shifted;
    var quiet := [Times(1, 0, 0, 1)];
    forall t: int | MINUTE <= t < HOUR ensures !QuietAt(t, quiet, 0) {
      OneWrappingRange(t);
    }
    forall h: nat | h < 24 ensures QuietAt(0 + h * HOUR, quiet, 0) {
      OnTheHourIsQuiet(h);
    }
    ShiftIsLeast(0, quiet, 0);
  }

  lemma OnTheHourIsQuiet(h: nat)
    requires h < 24
    ensures QuietAt(0 + h * HOUR, [Times(1, 0, 0, 1)], 0)
  {
    hide QuietAt;
    OneWrappingRange(h * HOUR);
    assert h * HOUR % DAY == h * HOUR;
  }

  lemma OneWrappingRange(t: int)
    ensures QuietAt(t, [Times(1, 0, 0, 1)], 0) <==> Inside(Range(HOUR, MINUTE), t % DAY)
  {
    var quiet := [Times(1, 0, 0, 1)];
    assert ParsedAll(quiet, 0) == [];
    assert ParsedAll(quiet, 1) == [Range(HOUR, MINUTE)];
  }
}
