// Availability search (app/tools/booking.py): over-fetch candidate starts, subtract the busy
// blocks of the calendar, then trim.
module Booking {
  import opened Prelude
  import opened QuietHours
  import opened Scheduling

  // A busy block or a calendar event, from b0 to b1.
  datatype Block = Block(b0: int, b1: int)

  predicate Overlaps(a0: int, a1: int, b0: int, b1: int) {
    a0 < b1 && b0 < a1
  }

  // The slot from c, widened by `pad` on both sides, meets one of the blocks.
  predicate Collides(c: int, length: int, pad: int, busy: seq<Block>) {
    exists b :: b in busy && Overlaps(c - pad, c + length + pad, b.b0, b.b1)
  }

  function SubtractBusy(candidates: seq<int>, busy: seq<Block>, slotMinutes: int, bufferMinutes: int): seq<int> {
    if busy == [] then candidates
    else Uncollided(candidates, |candidates|, busy, slotMinutes * MINUTE, bufferMinutes * MINUTE)
  }

  // Those of the first n candidates that collide with no block, in order.
  function Uncollided(candidates: seq<int>, n: nat, busy: seq<Block>, length: int, pad: int): seq<int>
    requires n <= |candidates|
  {
    if n == 0 then []
    else
      var rest := Uncollided(candidates, n - 1, busy, length, pad);
      if Collides(candidates[n - 1], length, pad, busy) then rest else rest + [candidates[n - 1]]
  }

  lemma {:induction false} UncollidedMeaning(candidates: seq<int>, n: nat, busy: seq<Block>, length: int, pad: int,
                                             c: int)
    requires n <= |candidates|
    ensures c in Uncollided(candidates, n, busy, length, pad) <==>
              c in candidates[..n] && !Collides(c, length, pad, busy)
  {
    hide Collides;
    if n > 0 {
      UncollidedMeaning(candidates, n - 1, busy, length, pad, c);
      assert candidates[..n] == candidates[..n - 1] + [candidates[n - 1]];
    }
  }

  // What is left are exactly the candidates that, buffer included, meet no busy block.
  lemma FreeMeaning(candidates: seq<int>, busy: seq<Block>, slotMinutes: int, bufferMinutes: int, c: int)
    ensures c in SubtractBusy(candidates, busy, slotMinutes, bufferMinutes) <==>
              c in candidates && !Collides(c, slotMinutes * MINUTE, bufferMinutes * MINUTE, busy)
  {
    if busy != [] {
      hide Collides;
      UncollidedMeaning(candidates, |candidates|, busy, slotMinutes * MINUTE, bufferMinutes * MINUTE, c);
      assert candidates[..|candidates|] == candidates;
    }
  }

  // ---------------------------------------------------------------- the search

  datatype Source = Hours | Google

  datatype Found = Found(slots: seq<int>, source: Source, degraded: bool)

  function Overfetch(cfg: BookingCfg): int {
    Min(cfg.maxSlots * 6, 150)
  }

  function Candidates(cfg: BookingCfg, now: int, offset: int): seq<int> {
    Take(AllStarts(cfg, now, offset), Max(Overfetch(cfg), 1))
  }

  // The end of the queried calendar window; it begins at the first candidate.
  function QueryEnd(cfg: BookingCfg, candidates: seq<int>): int
    requires candidates != []
  {
    candidates[|candidates| - 1] + cfg.slotMinutes * MINUTE
  }

  // creds: whether a calendar is connected. freeBusy: its answer to a queried window, None on an error.
  method SearchReal(cfg: BookingCfg, now: int, offset: int, creds: bool, freeBusy: (int, int) -> Option<seq<Block>>)
    returns (r: Found)
    requires cfg.maxSlots >= 1
    ensures var candidates := Candidates(cfg, now, offset);
            if candidates == [] then r == Found([], Hours, false)
            else
              var answer := freeBusy(candidates[0], QueryEnd(cfg, candidates));
              if !creds || answer.None? then r == Found(Take(candidates, cfg.maxSlots), Hours, true)
              else
                var free := SubtractBusy(candidates, answer.value, cfg.slotMinutes, cfg.bufferMinutes);
                r == Found(Take(free, cfg.maxSlots), Google, false)
  {
    hide SubtractBusy;
    var candidates := CandidateStarts(cfg, now, offset, Overfetch(cfg));
    if candidates == [] {
      return Found([], Hours, false);
    }
    if !creds {
      return Found(Take(candidates, cfg.maxSlots), Hours, true);
    }
    var busy := freeBusy(candidates[0], candidates[|candidates| - 1] + cfg.slotMinutes * MINUTE);
    if busy.None? {
      return Found(Take(candidates, cfg.maxSlots), Hours, true);
    }
    var free := SubtractBusy(candidates, busy.value, cfg.slotMinutes, cfg.bufferMinutes);
    return Found(Take(free, cfg.maxSlots), Google, false);
  }

  // ---------------------------------------------------------------- no double offer

  // The answer covers every event that meets the queried window [from, to): some block holds all of
  // the event that lies inside. (A calendar may merge events, and may cut them off at the edges.)
  ghost predicate Covers(busy: seq<Block>, events: set<Block>, from: int, to: int) {
    forall e :: e in events && Overlaps(from, to, e.b0, e.b1) ==> Covered(busy, Max(e.b0, from), Min(e.b1, to))
  }

  ghost predicate Covered(busy: seq<Block>, lo: int, hi: int) {
    exists b :: b in busy && b.b0 <= lo && hi <= b.b1
  }

  lemma AscendingBounds(s: seq<int>, c: int)
    requires Ascending(s) && c in s
    ensures s[0] <= c <= s[|s| - 1]
  {}

  // A slot that survives the subtraction keeps the buffer to every event that meets the queried
  // window.
  lemma BufferIsKept(cfg: BookingCfg, candidates: seq<int>, busy: seq<Block>, events: set<Block>, c: int, e: Block)
    requires Ascending(candidates) && cfg.slotMinutes > 0 && cfg.bufferMinutes >= 0
    requires c in SubtractBusy(candidates, busy, cfg.slotMinutes, cfg.bufferMinutes)
    requires Covers(busy, events, candidates[0], QueryEnd(cfg, candidates))
    requires e in events && Overlaps(candidates[0], QueryEnd(cfg, candidates), e.b0, e.b1)
    ensures !Overlaps(c - cfg.bufferMinutes * MINUTE, c + (cfg.slotMinutes + cfg.bufferMinutes) * MINUTE, e.b0, e.b1)
  {
    var from, to := candidates[0], QueryEnd(cfg, candidates);
    FreeMeaning(candidates, busy, cfg.slotMinutes, cfg.bufferMinutes, c);
    AscendingBounds(candidates, c);
    assert Covered(busy, Max(e.b0, from), Min(e.b1, to));
    var b :| b in busy && b.b0 <= Max(e.b0, from) && Min(e.b1, to) <= b.b1;
    assert !Overlaps(c - cfg.bufferMinutes * MINUTE, c + cfg.slotMinutes * MINUTE + cfg.bufferMinutes * MINUTE, b.b0,
        b.b1);
  }

  // Main result: no offered slot overlaps any event of the calendar, whether or not it is in the
  // answer.
  lemma NoDoubleOffer(cfg: BookingCfg, now: int, offset: int, busy: seq<Block>, events: set<Block>, c: int, e: Block)
    requires OrderedHours(cfg) && cfg.slotMinutes > 0 && cfg.bufferMinutes >= 0
    requires var candidates := Candidates(cfg, now, offset);
             && candidates != []
             && Covers(busy, events, candidates[0], QueryEnd(cfg, candidates))
             && c in Take(SubtractBusy(candidates, busy, cfg.slotMinutes, cfg.bufferMinutes), Max(cfg.maxSlots, 0))
    requires e in events
    ensures !Overlaps(c, c + cfg.slotMinutes * MINUTE, e.b0, e.b1)
  {
    hide OrderedHours, AllStarts, SubtractBusy;
    var candidates := Candidates(cfg, now, offset);
    CandidatesAscend(cfg, now, offset, Max(Overfetch(cfg), 1));
    FreeMeaning(candidates, busy, cfg.slotMinutes, cfg.bufferMinutes, c);
    AscendingBounds(candidates, c);
    if Overlaps(candidates[0], QueryEnd(cfg, candidates), e.b0, e.b1) {
      BufferIsKept(cfg, candidates, busy, events, c, e);
    }
  }

  // Nothing open is held back: when fewer than max_slots slots come back and the over-fetch was
  // not exhausted, every open start of the horizon is offered or collides with a busy block.
  lemma NothingIsHeldBack(cfg: BookingCfg, now: int, offset: int, busy: seq<Block>, t: int)
    requires cfg.maxSlots >= 1 && IsOpen(cfg, now, offset, t)
    requires var candidates := Candidates(cfg, now, offset);
             && |candidates| < Overfetch(cfg)
             && |Take(SubtractBusy(candidates, busy, cfg.slotMinutes, cfg.bufferMinutes), cfg.maxSlots)| < cfg.maxSlots
    ensures t in Take(SubtractBusy(Candidates(cfg, now, offset), busy, cfg.slotMinutes, cfg.bufferMinutes),
        cfg.maxSlots)
            <==> !Collides(t, cfg.slotMinutes * MINUTE, cfg.bufferMinutes * MINUTE, busy)
  {
    hide IsOpen, AllStarts, SubtractBusy, Collides;
    AllStartsMeaning(cfg, now, offset, t);
    var candidates := Candidates(cfg, now, offset);
    FreeMeaning(candidates, busy, cfg.slotMinutes, cfg.bufferMinutes, t);
  }

  // The slots are offered in order, the earliest free ones first.
  lemma EarliestFreeFirst(cfg: BookingCfg, now: int, offset: int, busy: seq<Block>, c: int, t: int)
    requires OrderedHours(cfg) && cfg.maxSlots >= 1
    requires var candidates := Candidates(cfg, now, offset);
             var offered := Take(SubtractBusy(candidates, busy, cfg.slotMinutes, cfg.bufferMinutes), cfg.maxSlots);
             c in offered && t < c && IsOpen(cfg, now, offset, t)
             && !Collides(t, cfg.slotMinutes * MINUTE, cfg.bufferMinutes * MINUTE, busy)
    ensures t in Take(SubtractBusy(Candidates(cfg, now, offset), busy, cfg.slotMinutes, cfg.bufferMinutes),
        cfg.maxSlots)
  {
    hide IsOpen, OrderedHours, AllStarts, SubtractBusy, Collides;
    var all, candidates := AllStarts(cfg, now, offset), Candidates(cfg, now, offset);
    AllStartsMeaning(cfg, now, offset, t);
    CandidatesAscend(cfg, now, offset, |all|);
    CandidatesAscend(cfg, now, offset, Max(Overfetch(cfg), 1));
    FreeMeaning(candidates, busy, cfg.slotMinutes, cfg.bufferMinutes, c);
    FreeMeaning(candidates, busy, cfg.slotMinutes, cfg.bufferMinutes, t);
    EarlierIsTaken(all, Max(Overfetch(cfg), 1), c, t);
    FreeAscends(candidates, busy, cfg.slotMinutes, cfg.bufferMinutes);
    EarlierIsTaken(SubtractBusy(candidates, busy, cfg.slotMinutes, cfg.bufferMinutes), cfg.maxSlots, c, t);
  }

  lemma EarlierIsTaken(s: seq<int>, n: nat, c: int, t: int)
    requires Ascending(s) && c in Take(s, n) && t in s && t < c
    ensures t in Take(s, n)
  {}

  lemma {:induction false} UncollidedAscends(candidates: seq<int>, n: nat, busy: seq<Block>, length: int, pad: int)
    requires n <= |candidates| && Ascending(candidates)
    ensures Ascending(Uncollided(candidates, n, busy, length, pad))
    ensures forall c :: c in Uncollided(candidates, n, busy, length, pad) ==> n > 0 && c <= candidates[n - 1]
  {
    hide Collides;
    if n > 0 {
      UncollidedAscends(candidates, n - 1, busy, length, pad);
      var rest := Uncollided(candidates, n - 1, busy, length, pad);
      forall i | 0 <= i < |rest| ensures rest[i] < candidates[n - 1] {
        assert rest[i] in rest;
      }
    }
  }

  lemma FreeAscends(candidates: seq<int>, busy: seq<Block>, slotMinutes: int, bufferMinutes: int)
    requires Ascending(candidates)
    ensures Ascending(SubtractBusy(candidates, busy, slotMinutes, bufferMinutes))
  {
    hide Collides;
    if busy != [] {
      UncollidedAscends(candidates, |candidates|, busy, slotMinutes * MINUTE, bufferMinutes * MINUTE);
    }
  }

  // ---------------------------------------------------------------- the buffer at the edges

  // The slots offered, given the calendar's answer.
  function Offered(cfg: BookingCfg, candidates: seq<int>, busy: seq<Block>): seq<int> {
    Take(SubtractBusy(candidates, busy, cfg.slotMinutes, cfg.bufferMinutes), Max(cfg.maxSlots, 0))
  }

  // Whatever the calendar holds, if its answer covers the queried window and the search offers c, the
  // slot from c keeps the buffer to every event.
  ghost predicate BufferAlwaysKept(cfg: BookingCfg, candidates: seq<int>, c: int)
    requires candidates != []
  {
    forall busy, events, e ::
      Covers(busy, events, candidates[0], QueryEnd(cfg, candidates)) && c in Offered(cfg, candidates, busy)
      && e in events ==>
        !MeetsPadded(cfg, c, e)
  }

  predicate MeetsPadded(cfg: BookingCfg, c: int, e: Block) {
    Overlaps(c - cfg.bufferMinutes * MINUTE, c + (cfg.slotMinutes + cfg.bufferMinutes) * MINUTE, e.b0, e.b1)
  }

  // The queried window, which is not widened by the buffer, holds the slot with its buffer.
  predicate InsideQuery(cfg: BookingCfg, candidates: seq<int>, c: int)
    requires candidates != []
  {
    && candidates[0] <= c - cfg.bufferMinutes * MINUTE
    && c + (cfg.slotMinutes + cfg.bufferMinutes) * MINUTE <= QueryEnd(cfg, candidates)
  }

  // A calendar that is busy up to c, buffer observed, makes c the first slot offered.
  function BusyUntil(cfg: BookingCfg, candidates: seq<int>, c: int): seq<Block>
    requires candidates != []
  {
    if c == candidates[0] then []
    else [Block(candidates[0] - cfg.bufferMinutes * MINUTE, c - cfg.bufferMinutes * MINUTE)]
  }

  lemma FirstOffered(cfg: BookingCfg, candidates: seq<int>, c: int)
    requires Ascending(candidates) && c in candidates && cfg.slotMinutes > 0 && cfg.bufferMinutes >= 0
    requires cfg.maxSlots >= 1
    ensures c in Offered(cfg, candidates, BusyUntil(cfg, candidates, c))
  {
    hide SubtractBusy;
    var busy := BusyUntil(cfg, candidates, c);
    var free := SubtractBusy(candidates, busy, cfg.slotMinutes, cfg.bufferMinutes);
    forall x | x in candidates
      ensures Collides(x, cfg.slotMinutes * MINUTE, cfg.bufferMinutes * MINUTE, busy) <==> x < c
    {
      CollidesUntil(cfg, candidates, c, x);
    }
    forall x ensures x in free <==> x in candidates && x >= c {
      FreeMeaning(candidates, busy, cfg.slotMinutes, cfg.bufferMinutes, x);
    }
    FreeAscends(candidates, busy, cfg.slotMinutes, cfg.bufferMinutes);
    assert free[0] in free;
  }

  lemma CollidesUntil(cfg: BookingCfg, candidates: seq<int>, c: int, x: int)
    requires Ascending(candidates) && c in candidates && x in candidates
    requires cfg.slotMinutes > 0 && cfg.bufferMinutes >= 0
    ensures Collides(x, cfg.slotMinutes * MINUTE, cfg.bufferMinutes * MINUTE, BusyUntil(cfg, candidates, c)) <==> x < c
  {
    AscendingBounds(candidates, c);
    AscendingBounds(candidates, x);
    if c != candidates[0] {
      assert BusyUntil(cfg, candidates, c)[0] in BusyUntil(cfg, candidates, c);
    }
  }

  // An event that touches the queried window from outside is not asked for.
  lemma EdgeEvent(cfg: BookingCfg, candidates: seq<int>, c: int) returns (events: set<Block>, e: Block)
    requires Ascending(candidates) && c in candidates && cfg.slotMinutes > 0 && cfg.bufferMinutes > 0
    requires !InsideQuery(cfg, candidates, c)
    ensures Covers(BusyUntil(cfg, candidates, c), events, candidates[0], QueryEnd(cfg, candidates))
    ensures e in events && MeetsPadded(cfg, c, e)
    ensures events == {e} + set b | b in BusyUntil(cfg, candidates, c)
  {
    var from, to := candidates[0], QueryEnd(cfg, candidates);
    var busy := BusyUntil(cfg, candidates, c);
    AscendingBounds(candidates, c);
    e := if from > c - cfg.bufferMinutes * MINUTE then Block(from - 1, from) else Block(to, to + 1);
    events := {e} + set b | b in busy;
    forall f | f in events && Overlaps(from, to, f.b0, f.b1) ensures Covered(busy, Max(f.b0, from), Min(f.b1, to)) {
      assert f in busy;
    }
  }

  // Main result: the buffer of a slot, whenever it is offered, is safe from every event exactly when
  // there is none to keep, or the queried window holds all of it.
  lemma BufferIff(cfg: BookingCfg, candidates: seq<int>, c: int)
    requires Ascending(candidates) && c in candidates && cfg.slotMinutes > 0 && cfg.bufferMinutes >= 0
    requires cfg.maxSlots >= 1
    ensures BufferAlwaysKept(cfg, candidates, c) <==> cfg.bufferMinutes == 0 || InsideQuery(cfg, candidates, c)
  {
    hide SubtractBusy, Covers;
    if cfg.bufferMinutes == 0 || InsideQuery(cfg, candidates, c) {
      AscendingBounds(candidates, c);
      forall busy, events, e |
        Covers(busy, events, candidates[0], QueryEnd(cfg, candidates)) && c in Offered(cfg, candidates, busy)
        && e in events
        ensures !MeetsPadded(cfg, c, e)
      {
        if Overlaps(candidates[0], QueryEnd(cfg, candidates), e.b0, e.b1) {
          BufferIsKept(cfg, candidates, busy, events, c, e);
        }
      }
    } else {
      var events, e := EdgeEvent(cfg, candidates, c);
      FirstOffered(cfg, candidates, c);
      assert e in events;
    }
  }

  // So over a whole candidate list the buffer is only ever safe when it is 0: the first and the
  // last candidate stick out of the window.
  lemma BufferOfAllIff(cfg: BookingCfg, candidates: seq<int>)
    requires Ascending(candidates) && candidates != [] && cfg.slotMinutes > 0 && cfg.bufferMinutes >= 0
    requires cfg.maxSlots >= 1
    ensures (forall c :: c in candidates ==> BufferAlwaysKept(cfg, candidates, c)) <==> cfg.bufferMinutes == 0
  {
    hide BufferAlwaysKept;
    forall c | c in candidates
      ensures BufferAlwaysKept(cfg, candidates, c) <==> cfg.bufferMinutes == 0 || InsideQuery(cfg, candidates, c)
    {
      BufferIff(cfg, candidates, c);
    }
    assert candidates[0] in candidates;
  }

  // Open on Thursdays from 9:00 to 9:30, one slot of half an hour, ten minutes of buffer.
  const HALF_HOUR_A_WEEK := BookingCfg(map[3 := [Times(9, 0, 9, 30)]], {}, 1, 30, 30, 0, 1, 10)

  // On Thursday the first of January 1970, with an event that ends at 9:00 and one that starts at
  // 9:30, the search offers 9:00.
  lemma BufferIsNotKeptAtTheEdge()
    ensures var cfg := HALF_HOUR_A_WEEK;
            var candidates := Candidates(cfg, 0, 0);
            var before, after := Block(8 * HOUR, 9 * HOUR), Block(9 * HOUR + 30 * MINUTE, 10 * HOUR);
            && OrderedHours(cfg) && candidates == [9 * HOUR]
            && Covers([], {before, after}, candidates[0], QueryEnd(cfg, candidates))
            && Offered(cfg, candidates, []) == [9 * HOUR]
            && MeetsPadded(cfg, 9 * HOUR, before) && MeetsPadded(cfg, 9 * HOUR, after)
  {
    OneCandidate();
  }

  lemma OneCandidate()
    ensures AllStarts(HALF_HOUR_A_WEEK, 0, 0) == [9 * HOUR] && OrderedHours(HALF_HOUR_A_WEEK)
  {
    hide DayWindows;
    var cfg := HALF_HOUR_A_WEEK;
    var w := Window(9 * HOUR, 9 * HOUR + 30 * MINUTE);
    OneWindow();
    assert WindowStarts(cfg, w.end, w.end, 0) == [];
    assert WindowStarts(cfg, w.start, w.end, 0) == [9 * HOUR];
    assert StartsFrom(cfg, [w], 1, 0) == [];
    assert StartsFrom(cfg, [w], 0, 0) == [9 * HOUR];
    assert DaysFrom(cfg, 0, 1, 0, 0) == [];
    assert DaysFrom(cfg, 0, 0, 0, 0) == [9 * HOUR];
  }

  lemma OneWindow()
    ensures DayWindows(HALF_HOUR_A_WEEK, 0, 0) == [Window(9 * HOUR, 9 * HOUR + 30 * MINUTE)]
    ensures OrderedHours(HALF_HOUR_A_WEEK)
  {
    hide Ranges;
    RangesOf(0);
    assert Weekday(0) == 3;
    forall day ensures |Ranges(HALF_HOUR_A_WEEK, day)| <= 1 {
      RangesOf(day);
    }
  }

  lemma RangesOf(day: int)
    ensures Ranges(HALF_HOUR_A_WEEK, day)
            == if Weekday(day) == 3 then [Range(9 * HOUR, 9 * HOUR + 30 * MINUTE)] else []
  {
    hide OpenRanges, Weekday;
    OneRange();
  }

  lemma OneRange()
    ensures OpenRanges([Times(9, 0, 9, 30)], 1) == [Range(9 * HOUR, 9 * HOUR + 30 * MINUTE)]
    ensures OpenRanges([], 0) == []
  {
    assert OpenRanges([Times(9, 0, 9, 30)], 0) == [];
  }
}
