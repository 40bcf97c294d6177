// Open slots by the calendar and the clock on the wall (app/services/scheduling.py:23-92): which moments
// the enumeration of starts holds, in local days, weekdays and times of day.
module OpenHours {
  import opened Prelude
  import opened QuietHours
  import opened Scheduling
  import opened Booking

  // A day of the week, Monday = 0, and a day counted from Thursday the first of January 1970.
  ghost predicate FallsOn(day: int, weekday: int) {
    0 <= weekday <= 6 && exists weeks :: day == DayOf(weekday, weeks)
  }

  function DayOf(weekday: int, weeks: int): int {
    weekday - 3 + 7 * weeks
  }

  lemma WeekdayIff(day: int, weekday: int)
    ensures Weekday(day) == weekday <==> FallsOn(day, weekday)
  {
    var weeks := (day + 3) / 7;
    if Weekday(day) == weekday {
      assert day == DayOf(weekday, weeks);
    }
  }

  // Day and time of day of a moment, on a clock that runs `offset` ahead of UTC.
  ghost predicate IsLocal(moment: int, offset: int, day: int, time: int) {
    moment + offset == day * 86_400_000_000 + time && 0 <= time < 86_400_000_000
  }

  // A slot of this length at this time of day fits in the configured range, whole steps from its start.
  ghost predicate FitsRange(item: RawRange, time: int, step: int, length: int) {
    && item.Times?
    && 0 <= item.ah <= 23 && 0 <= item.am <= 59 && 0 <= item.bh <= 23 && 0 <= item.bm <= 59
    && var a, b := (item.ah * 60 + item.am) * 60_000_000, (item.bh * 60 + item.bm) * 60_000_000;
    a < b && time + length <= b && exists n: nat :: time == a + Steps(n, step)
  }

  function Steps(n: nat, step: int): int {
    n * step
  }

  lemma {:induction false} OpenRangesIff(spec: seq<RawRange>, n: nat, r: Range)
    requires n <= |spec|
    ensures r in OpenRanges(spec, n) <==> exists i :: 0 <= i < n && r in OpenRange(spec[i])
  {
    hide OpenRange;
    if n > 0 {
      OpenRangesIff(spec, n - 1, r);
    }
  }

  lemma StepsIff(start: int, t: int, a: int, time: int, step: int)
    requires t - start == time - a
    ensures (exists n: nat :: t == Nth(start, n, step)) <==> (exists n: nat :: time == a + Steps(n, step))
  {
    if n: nat :| t == Nth(start, n, step) {
      assert time == a + Steps(n, step);
    }
    if n: nat :| time == a + Steps(n, step) {
      assert t == Nth(start, n, step);
    }
  }

  ghost predicate FitsFrom(cfg: BookingCfg, r: Range, day: int, offset: int, t: int) {
    Fits(cfg, Midnight(day, offset) + r.start, Midnight(day, offset) + r.end, t)
  }

  lemma RangeFits(cfg: BookingCfg, item: RawRange, day: int, offset: int, t: int, time: int)
    requires t == day * DAY - offset + time
    ensures (exists r :: r in OpenRange(item) && FitsFrom(cfg, r, day, offset, t))
            <==> FitsRange(item, time, Max(cfg.stepMinutes, 5) * 60_000_000, Max(cfg.slotMinutes, 5) * 60_000_000)
  {
    hide Nth, Steps;
    if item.Times? && IsTime(item.ah, item.am) && IsTime(item.bh, item.bm) {
      var r := Range(TimeOf(item.ah, item.am), TimeOf(item.bh, item.bm));
      assert r.start == (item.ah * 60 + item.am) * 60_000_000 && r.end == (item.bh * 60 + item.bm) * 60_000_000;
      FitsFromIff(cfg, r, day, offset, t, time);
      if r.start < r.end {
        assert OpenRange(item) == [r] && r in [r];
      } else {
        assert OpenRange(item) == [];
      }
    }
  }

  lemma FitsFromIff(cfg: BookingCfg, r: Range, day: int, offset: int, t: int, time: int)
    requires t == day * DAY - offset + time
    ensures FitsFrom(cfg, r, day, offset, t)
            <==> time + Max(cfg.slotMinutes, 5) * 60_000_000 <= r.end
                 && exists n: nat :: time == r.start + Steps(n, Max(cfg.stepMinutes, 5) * 60_000_000)
  {
    hide Nth, Steps;
    assert cfg.Step() == Max(cfg.stepMinutes, 5) * 60_000_000;
    assert cfg.Length() == Max(cfg.slotMinutes, 5) * 60_000_000;
    StepsIff(Midnight(day, offset) + r.start, t, r.start, time, cfg.Step());
  }

  lemma OpenOnDayIff(cfg: BookingCfg, day: int, offset: int, t: int, time: int)
    requires t == day * DAY - offset + time
    ensures OpenOnDay(cfg, day, offset, t)
            <==> && day !in cfg.closed && Weekday(day) in cfg.hours
                 && exists i :: 0 <= i < |cfg.hours[Weekday(day)]|
                      && FitsRange(cfg.hours[Weekday(day)][i], time, Max(cfg.stepMinutes, 5) * 60_000_000,
                                   Max(cfg.slotMinutes, 5) * 60_000_000)
  {
    hide Fits, FitsRange, OpenRange, Midnight, Weekday, OpenRanges;
    var windows, ranges := DayWindows(cfg, day, offset), Ranges(cfg, day);
    if Weekday(day) in cfg.hours {
      var spec := cfg.hours[Weekday(day)];
      forall i | 0 <= i < |spec|
        ensures (exists r :: r in OpenRange(spec[i]) && FitsFrom(cfg, r, day, offset, t))
                <==> FitsRange(spec[i], time, Max(cfg.stepMinutes, 5) * 60_000_000,
                               Max(cfg.slotMinutes, 5) * 60_000_000)
      {
        RangeFits(cfg, spec[i], day, offset, t, time);
      }
      if w :| w in windows && Fits(cfg, w.start, w.end, t) {
        var k :| 0 <= k < |windows| && windows[k] == w;
        OpenRangesIff(spec, |spec|, ranges[k]);
        assert FitsFrom(cfg, ranges[k], day, offset, t);
      }
      if i, r :| 0 <= i < |spec| && r in OpenRange(spec[i]) && FitsFrom(cfg, r, day, offset, t) {
        OpenRangesIff(spec, |spec|, r);
        var k :| 0 <= k < |ranges| && ranges[k] == r;
        assert windows[k] in windows;
      }
    } else {
      NoRanges();
    }
  }

  lemma NoRanges()
    ensures OpenRanges([], 0) == []
  {
  }

  // Open on no day but its own.
  lemma OpenOnOwnDay(cfg: BookingCfg, day: int, offset: int, t: int, own: int, time: int)
    requires IsLocal(t, offset, own, time) && OpenOnDay(cfg, day, offset, t)
    ensures day == own
  {
    hide Weekday, Ranges;
    var w :| w in DayWindows(cfg, day, offset) && Fits(cfg, w.start, w.end, t);
    FitsIsLate(cfg, w.start, w.end, t);
    hide Fits;
  }

  // Main result: a moment, at this time of this local day, is an open start exactly when it respects the
  // lead time, its day lies within the horizon from the local today and is not closed, and a range
  // configured for its weekday has room for a slot there, whole steps from its start.
  lemma OpenIff(cfg: BookingCfg, now: int, offset: int, t: int, today: int, timeNow: int, day: int, time: int,
                weekday: int)
    requires IsLocal(now, offset, today, timeNow) && IsLocal(t, offset, day, time) && FallsOn(day, weekday)
    ensures t in AllStarts(cfg, now, offset)
            <==> && t >= now + cfg.leadMinutes * 60_000_000
                 && today <= day < today + cfg.horizonDays && day !in cfg.closed && weekday in cfg.hours
                 && exists i :: 0 <= i < |cfg.hours[weekday]|
                      && FitsRange(cfg.hours[weekday][i], time, Max(cfg.stepMinutes, 5) * 60_000_000,
                                   Max(cfg.slotMinutes, 5) * 60_000_000)
  {
    hide OpenOnDay, AllStarts, FitsRange;
    AllStartsMeaning(cfg, now, offset, t);
    WeekdayIff(day, weekday);
    TodayIs(now, offset, today, timeNow);
    OpenOnDayIff(cfg, day, offset, t, time);
    forall d | OpenOnDay(cfg, d, offset, t) ensures d == day {
      OpenOnOwnDay(cfg, d, offset, t, day, time);
    }
  }

  lemma TodayIs(now: int, offset: int, today: int, timeNow: int)
    requires IsLocal(now, offset, today, timeNow)
    ensures Today(now, offset) == today
  {
  }

  // The search takes six times as many starts as it may offer, at most 150 and at least one, from the
  // front of the enumeration.
  lemma CandidatesMeaning(cfg: BookingCfg, now: int, offset: int)
    ensures Candidates(cfg, now, offset) <= AllStarts(cfg, now, offset)
    ensures |Candidates(cfg, now, offset)|
            == Min(|AllStarts(cfg, now, offset)|, Max(Min(cfg.maxSlots * 6, 150), 1))
  {
    hide AllStarts;
  }
}
