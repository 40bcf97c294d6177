// The token-bucket limiter (app/services/ratelimit.py), with floats as reals and the clock as
// an argument that never runs backwards.
module RateLimit {
  type Key = string

  datatype Entry = Entry(tokens: real, updated: real)

  datatype Limiter = Limiter(rate: real, burst: real, buckets: map<Key, Entry>, lastSweep: real) {
    // The tokens a bucket holds at `now`, capped at the burst.
    function Refilled(e: Entry, now: real): real {
      MinReal(burst, e.tokens + Gain(now - e.updated, rate))
    }
  }

  // Tokens that trickle in over dt seconds.
  function Gain(dt: real, rate: real): real {
    dt * rate
  }

  function MinReal(a: real, b: real): real {
    if b < a then b else a
  }

  function MaxReal(a: real, b: real): real {
    if a < b then b else a
  }

  // RateLimiter(rate_per_min, burst), created at time `now`.
  function New(ratePerMin: real, burst: int, now: real): Limiter {
    Limiter(ratePerMin / 60.0, burst as real, map[], now)
  }

  function Sweep(l: Limiter, now: real): Limiter {
    if now - l.lastSweep < 300.0 then l
    else l.(lastSweep := now,
            buckets := map k | k in l.buckets && !(l.buckets[k].updated < now - 900.0) :: l.buckets[k])
  }

  // One call of allow(). With `sweeping` off this is the limiter that never forgets a bucket.
  function AllowStep(sweeping: bool, l: Limiter, key: Key, now: real): (Limiter, bool) {
    if key !in l.buckets then
      var l1 := l.(buckets := l.buckets[key := Entry(l.burst - 1.0, now)]);
      (if sweeping then Sweep(l1, now) else l1, true)
    else
      var tokens := l.Refilled(l.buckets[key], now);
      if tokens < 1.0 then (l.(buckets := l.buckets[key := Entry(tokens, now)]), false)
      else (l.(buckets := l.buckets[key := Entry(tokens - 1.0, now)]), true)
  }

  // ---------------------------------------------------------------- the program

  class Bucket {
    var tokens: real
    var updated: real

    constructor (tokens: real, updated: real)
      ensures this.tokens == tokens && this.updated == updated
    {
      this.tokens, this.updated := tokens, updated;
    }
  }

  class RateLimiter {
    const rate: real
    const burst: real
    var buckets: map<Key, Bucket>
    var lastSweep: real

    // No two keys share a bucket object.
    ghost predicate Valid()
      reads this
    {
      forall k, k' :: k in buckets && k' in buckets && k != k' ==> buckets[k] != buckets[k']
    }

    ghost function View(): Limiter
      reads this, buckets.Values
    {
      Limiter(rate, burst, map k | k in buckets :: Entry(buckets[k].tokens, buckets[k].updated), lastSweep)
    }

    constructor (ratePerMin: real, burst: int, now: real)
      ensures Valid() && View() == New(ratePerMin, burst, now)
    {
      this.rate := ratePerMin / 60.0;
      this.burst := burst as real;
      this.buckets := map[];
      this.lastSweep := now;
    }

    method Allow(key: Key, now: real) returns (ok: bool)
      requires Valid()
      modifies this, buckets.Values
      ensures Valid() && fresh(buckets.Values - old(buckets.Values))
      ensures (View(), ok) == AllowStep(true, old(View()), key, now)
    {
      if key !in buckets {
        var bucket := new Bucket(burst - 1.0, now);
        buckets := buckets[key := bucket];
        assert View() == old(View()).(buckets := old(View()).buckets[key := Entry(burst - 1.0, now)]) by {
          assert View().buckets == old(View()).buckets[key := Entry(burst - 1.0, now)];
        }
        SweepIdle(now);
        return true;
      }
      var bucket := buckets[key];
      bucket.tokens := MinReal(burst, bucket.tokens + Gain(now - bucket.updated, rate));
      bucket.updated := now;
      if bucket.tokens < 1.0 {
        assert View().buckets == old(View()).buckets[key := Entry(bucket.tokens, now)];
        return false;
      }
      bucket.tokens := bucket.tokens - 1.0;
      assert View().buckets == old(View()).buckets[key := Entry(bucket.tokens, now)];
      return true;
    }

    method SweepIdle(now: real)
      requires Valid()
      modifies this
      ensures Valid() && buckets.Values <= old(buckets.Values)
      ensures View() == Sweep(old(View()), now)
    {
      if now - lastSweep < 300.0 {
        return;
      }
      lastSweep := now;
      var cutoff := now - 900.0;
      var stale := set k | k in buckets && buckets[k].updated < cutoff;
      buckets := map k | k in buckets && k !in stale :: buckets[k];
    }
  }

  // ---------------------------------------------------------------- traces

  datatype Call = Call(key: Key, at: real)

  // The clock never runs backwards from `clock` on.
  ghost predicate Ordered(calls: seq<Call>, clock: real) {
    calls != [] ==> clock <= calls[0].at && Ordered(calls[1..], calls[0].at)
  }

  function Run(sweeping: bool, l: Limiter, calls: seq<Call>): (r: seq<bool>)
    ensures |r| == |calls|
    decreases |calls|
  {
    if calls == [] then []
    else
      var (l', ok) := AllowStep(sweeping, l, calls[0].key, calls[0].at);
      [ok] + Run(sweeping, l', calls[1..])
  }

  // Every bucket holds between 0 and `burst` tokens and was touched no later than `clock`.
  ghost predicate Valid(l: Limiter, clock: real) {
    && l.rate >= 0.0 && l.burst >= 1.0
    && forall k :: k in l.buckets ==> 0.0 <= l.buckets[k].tokens <= l.burst && l.buckets[k].updated <= clock
  }

  lemma GainGrows(a: real, b: real, rate: real)
    requires a <= b && rate >= 0.0
    ensures Gain(a, rate) <= Gain(b, rate) && Gain(0.0, rate) == 0.0
  {
    assert (b - a) * rate >= 0.0;
  }

  lemma GainAdds(a: real, b: real, rate: real)
    ensures Gain(a, rate) + Gain(b, rate) == Gain(a + b, rate)
  {}

  lemma AllowKeepsValid(sweeping: bool, l: Limiter, key: Key, now: real, clock: real)
    requires Valid(l, clock) && clock <= now
    ensures Valid(AllowStep(sweeping, l, key, now).0, now)
  {
    hide Gain;
    if key in l.buckets {
      GainGrows(0.0, now - l.buckets[key].updated, l.rate);
    }
  }

  // ---------------------------------------------------------------- sweeping is unobservable

  // The sweeping limiter s against the one that never forgets, p: shared buckets agree, and a
  // bucket only p still has would be full again by now.
  ghost predicate Sim(s: Limiter, p: Limiter, clock: real) {
    && Valid(s, clock) && Valid(p, clock)
    && s.rate == p.rate && s.burst == p.burst
    && (forall k :: k in s.buckets ==> k in p.buckets && p.buckets[k] == s.buckets[k])
    && (forall k :: k in p.buckets && k !in s.buckets ==> IsFull(p, p.buckets[k], clock))
  }

  ghost predicate IsFull(l: Limiter, e: Entry, now: real) {
    e.tokens + Gain(now - e.updated, l.rate) >= l.burst
  }

  lemma FullStaysFull(l: Limiter, e: Entry, clock: real, now: real)
    requires l.rate >= 0.0 && clock <= now && IsFull(l, e, clock)
    ensures IsFull(l, e, now)
  {
    GainGrows(clock - e.updated, now - e.updated, l.rate);
  }

  // A bucket idle for 900 seconds is full.
  lemma IdleIsFull(l: Limiter, e: Entry, now: real)
    requires l.rate >= 0.0 && Gain(900.0, l.rate) >= l.burst
    requires e.tokens >= 0.0 && e.updated < now - 900.0
    ensures IsFull(l, e, now)
  {
    GainGrows(900.0, now - e.updated, l.rate);
  }

  lemma AllowSimulates(s: Limiter, p: Limiter, key: Key, now: real, clock: real)
    requires Sim(s, p, clock) && clock <= now && Gain(900.0, s.rate) >= s.burst
    ensures AllowStep(true, s, key, now).1 == AllowStep(false, p, key, now).1
    ensures Sim(AllowStep(true, s, key, now).0, AllowStep(false, p, key, now).0, now)
  {
    hide AllowStep, Sim, Gain, Sweep;
    if key !in s.buckets {
      UnknownIsGranted(s, p, key, now, clock);
      UpdatedIsSim(s, p, key, clock, now, Entry(s.burst - 1.0, now));
      SweepKeepsSim(s.(buckets := s.buckets[key := Entry(s.burst - 1.0, now)]),
                    p.(buckets := p.buckets[key := Entry(p.burst - 1.0, now)]), now);
    } else {
      var e := KnownIsUpdated(s, p, key, now, clock);
      UpdatedIsSim(s, p, key, clock, now, e);
    }
  }

  // A key the sweeping limiter does not know: both grant it and start it afresh.
  lemma UnknownIsGranted(s: Limiter, p: Limiter, key: Key, now: real, clock: real)
    requires Sim(s, p, clock) && clock <= now && key !in s.buckets
    ensures s.burst == p.burst >= 1.0 && s.rate == p.rate
    ensures AllowStep(true, s, key, now)
        == (Sweep(s.(buckets := s.buckets[key := Entry(s.burst - 1.0, now)]), now), true)
    ensures AllowStep(false, p, key, now) == (p.(buckets := p.buckets[key := Entry(p.burst - 1.0, now)]), true)
  {
    hide Gain, Sweep;
    if key in p.buckets {
      FullStaysFull(p, p.buckets[key], clock, now);
    }
  }

  // A key both know: both refill and answer alike.
  lemma KnownIsUpdated(s: Limiter, p: Limiter, key: Key, now: real, clock: real) returns (e: Entry)
    requires Sim(s, p, clock) && clock <= now && key in s.buckets
    ensures 0.0 <= e.tokens <= s.burst && e.updated == now
    ensures AllowStep(true, s, key, now).1 == AllowStep(false, p, key, now).1
    ensures AllowStep(true, s, key, now).0 == s.(buckets := s.buckets[key := e])
    ensures AllowStep(false, p, key, now).0 == p.(buckets := p.buckets[key := e])
  {
    hide Gain, Sweep;
    GainGrows(0.0, now - s.buckets[key].updated, s.rate);
    e := AllowStep(false, p, key, now).0.buckets[key];
  }

  lemma UpdatedIsSim(s: Limiter, p: Limiter, key: Key, clock: real, now: real, e: Entry)
    requires Sim(s, p, clock) && clock <= now && 0.0 <= e.tokens <= s.burst && e.updated == now
    ensures Sim(s.(buckets := s.buckets[key := e]), p.(buckets := p.buckets[key := e]), now)
  {
    hide Gain;
    var p' := p.(buckets := p.buckets[key := e]);
    forall k | k in p.buckets && k !in s.buckets && k != key ensures IsFull(p', p'.buckets[k], now) {
      FullStaysFull(p, p.buckets[k], clock, now);
    }
  }

  // Dropping idle buckets keeps the two limiters in step.
  lemma SweepKeepsSim(s: Limiter, p: Limiter, now: real)
    requires Sim(s, p, now) && Gain(900.0, s.rate) >= s.burst
    ensures Sim(Sweep(s, now), p, now)
  {
    hide Gain;
    forall k | k in p.buckets && k !in Sweep(s, now).buckets ensures IsFull(p, p.buckets[k], now) {
      if k in s.buckets {
        IdleIsFull(p, p.buckets[k], now);
      }
    }
  }

  lemma {:induction false} RunsAgree(s: Limiter, p: Limiter, calls: seq<Call>, clock: real)
    requires Sim(s, p, clock) && Ordered(calls, clock) && Gain(900.0, s.rate) >= s.burst
    ensures Run(true, s, calls) == Run(false, p, calls)
    decreases |calls|
  {
    if calls != [] {
      var c := calls[0];
      AllowSimulates(s, p, c.key, c.at, clock);
      RunsAgree(AllowStep(true, s, c.key, c.at).0, AllowStep(false, p, c.key, c.at).0, calls[1..], c.at);
    }
  }

  // ---------------------------------------------------------------- and when it is not

  function Repeat(key: Key, at: real, n: nat): (calls: seq<Call>)
    ensures |calls| == n
  {
    if n == 0 then [] else [Call(key, at)] + Repeat(key, at, n - 1)
  }

  function After(sweeping: bool, l: Limiter, calls: seq<Call>): Limiter
    decreases |calls|
  {
    if calls == [] then l
    else After(sweeping, AllowStep(sweeping, l, calls[0].key, calls[0].at).0, calls[1..])
  }

  lemma {:induction false} RunConcat(sweeping: bool, l: Limiter, a: seq<Call>, b: seq<Call>)
    ensures Run(sweeping, l, a + b) == Run(sweeping, l, a) + Run(sweeping, After(sweeping, l, a), b)
    decreases |a|
  {
    if a == [] {
      assert a + b == b;
    } else {
      assert (a + b)[1..] == a[1..] + b;
      RunConcat(sweeping, AllowStep(sweeping, l, a[0].key, a[0].at).0, a[1..], b);
    }
  }

  lemma {:induction false} OrderedConcat(a: seq<Call>, b: seq<Call>, clock: real, mid: real)
    requires Ordered(a, clock) && Ordered(b, mid) && clock <= mid && forall c :: c in a ==> c.at <= mid
    ensures Ordered(a + b, clock)
  {
    if a == [] {
      assert a + b == b;
    } else {
      assert (a + b)[1..] == a[1..] + b;
      OrderedConcat(a[1..], b, a[0].at, mid);
    }
  }

  lemma {:induction false} RepeatIsOrdered(key: Key, at: real, n: nat)
    ensures Ordered(Repeat(key, at, n), at) && forall c :: c in Repeat(key, at, n) ==> c == Call(key, at)
  {
    if n > 0 {
      RepeatIsOrdered(key, at, n - 1);
    }
  }

  // n calls at one instant drain a bucket of n tokens to nothing.
  lemma {:induction false} Drains(sweeping: bool, l: Limiter, key: Key, at: real, n: nat)
    requires key in l.buckets && l.buckets[key] == Entry(n as real, at) && n as real <= l.burst && l.rate >= 0.0
    ensures After(sweeping, l, Repeat(key, at, n)) == l.(buckets := l.buckets[key := Entry(0.0, at)])
    decreases n
  {
    GainGrows(0.0, 0.0, l.rate);
    hide Gain;
    if n > 0 {
      var l' := AllowStep(sweeping, l, key, at).0;
      assert l'.buckets[key] == Entry((n - 1) as real, at);
      Drains(sweeping, l', key, at, n - 1);
      assert Repeat(key, at, n)[1..] == Repeat(key, at, n - 1);
    } else {
      assert l.buckets == l.buckets[key := Entry(0.0, at)];
    }
  }

  // Of n calls at one instant the last is granted just when the bucket started with n tokens.
  lemma {:induction false} LastOfMany(sweeping: bool, l: Limiter, key: Key, at: real, n: nat)
    requires n >= 1 && key in l.buckets && l.rate >= 0.0
    ensures Run(sweeping, l, Repeat(key, at, n))[n - 1] <==> l.Refilled(l.buckets[key], at) >= n as real
    decreases n
  {
    GainGrows(0.0, 0.0, l.rate);
    hide Gain;
    var (l', ok) := AllowStep(sweeping, l, key, at);
    assert Repeat(key, at, n)[1..] == Repeat(key, at, n - 1);
    if n > 1 {
      LastOfMany(sweeping, l', key, at, n - 1);
    }
  }

  const KEY_A: Key := "a"
  const KEY_B: Key := "b"

  // Use up a bucket, leave it idle for d > 900 seconds, let a new key trigger the sweep, and
  // ask again `burst` times.
  function Probe(burst: nat, d: real): seq<Call> {
    Repeat(KEY_A, 0.0, burst) + [Call(KEY_B, d)] + Repeat(KEY_A, d, burst)
  }

  lemma ProbeIsOrdered(burst: nat, d: real)
    requires d > 900.0
    ensures Ordered(Probe(burst, d), 0.0)
  {
    RepeatIsOrdered(KEY_A, 0.0, burst);
    RepeatIsOrdered(KEY_A, d, burst);
    assert Ordered([Call(KEY_B, d)], 0.0);
    OrderedConcat(Repeat(KEY_A, 0.0, burst), [Call(KEY_B, d)], 0.0, d);
    OrderedConcat(Repeat(KEY_A, 0.0, burst) + [Call(KEY_B, d)], Repeat(KEY_A, d, burst), 0.0, d);
  }

  // The state of either limiter just before the last `burst` calls of the probe.
  lemma ProbeState(sweeping: bool, l: Limiter, burst: nat, d: real)
    requires burst >= 1 && l.burst == burst as real && l.buckets == map[] && l.lastSweep == 0.0 && d > 900.0
        && l.rate >= 0.0
    ensures var calls := Repeat(KEY_A, 0.0, burst) + [Call(KEY_B, d)];
            After(sweeping, l, calls).burst == l.burst && After(sweeping, l, calls).rate == l.rate
            && (sweeping ==> KEY_A !in After(sweeping, l, calls).buckets)
            && (!sweeping ==> KEY_A in After(sweeping, l, calls).buckets
                              && After(sweeping, l, calls).buckets[KEY_A] == Entry(0.0, 0.0))
  {
    var first := Repeat(KEY_A, 0.0, burst);
    var l1 := AllowStep(sweeping, l, KEY_A, 0.0).0;
    assert l1.buckets == map[KEY_A := Entry((burst - 1) as real, 0.0)];
    Drains(sweeping, l1, KEY_A, 0.0, burst - 1);
    assert first[1..] == Repeat(KEY_A, 0.0, burst - 1);
    AfterConcat(sweeping, l, first, [Call(KEY_B, d)]);
  }

  lemma {:induction false} AfterConcat(sweeping: bool, l: Limiter, a: seq<Call>, b: seq<Call>)
    ensures After(sweeping, l, a + b) == After(sweeping, After(sweeping, l, a), b)
    decreases |a|
  {
    if a == [] {
      assert a + b == b;
    } else {
      assert (a + b)[1..] == a[1..] + b;
      AfterConcat(sweeping, AllowStep(sweeping, l, a[0].key, a[0].at).0, a[1..], b);
    }
  }

  lemma ProbeTellsThemApart(l: Limiter, burst: nat, d: real)
    requires burst >= 1 && l.burst == burst as real && l.buckets == map[] && l.lastSweep == 0.0 && l.rate >= 0.0
    requires d > 900.0 && Gain(d, l.rate) < l.burst
    ensures Run(true, l, Probe(burst, d)) != Run(false, l, Probe(burst, d))
  {
    var start, again := Repeat(KEY_A, 0.0, burst) + [Call(KEY_B, d)], Repeat(KEY_A, d, burst);
    ProbeState(true, l, burst, d);
    ProbeState(false, l, burst, d);
    RunConcat(true, l, start, again);
    RunConcat(false, l, start, again);
    hide Run, After, Repeat, AllowStep;
    LastOfMany(false, After(false, l, start), KEY_A, d, burst);
    AfreshGetsTheBurst(After(true, l, start), KEY_A, d, burst);
    assert Run(true, l, start + again)[|start| + burst - 1] != Run(false, l, start + again)[|start| + burst - 1];
  }

  // A key the sweeping limiter has forgotten starts afresh, with a full burst.
  lemma AfreshGetsTheBurst(l: Limiter, key: Key, at: real, n: nat)
    requires 1 <= n && l.burst == n as real && l.rate >= 0.0 && key !in l.buckets
    ensures Run(true, l, Repeat(key, at, n))[n - 1]
  {
    var l' := AllowStep(true, l, key, at).0;
    assert key in l'.buckets && l'.buckets[key] == Entry(l.burst - 1.0, at);
    assert Repeat(key, at, n)[1..] == Repeat(key, at, n - 1);
    GainGrows(0.0, 0.0, l.rate);
    hide Gain;
    if n > 1 {
      LastOfMany(true, l', key, at, n - 1);
    }
  }

  // With a burst below 1 a known key is never granted again, a forgotten one always is.
  lemma NoBurstTellsThemApart(l: Limiter)
    requires l.burst < 1.0 && l.buckets == map[] && l.lastSweep == 0.0
    ensures var calls := [Call(KEY_A, 0.0), Call(KEY_B, 901.0), Call(KEY_A, 901.0)];
            Ordered(calls, 0.0) && Run(true, l, calls) != Run(false, l, calls)
  {
    var calls := [Call(KEY_A, 0.0), Call(KEY_B, 901.0), Call(KEY_A, 901.0)];
    assert calls[1..] == [Call(KEY_B, 901.0), Call(KEY_A, 901.0)];
    assert calls[1..][1..] == [Call(KEY_A, 901.0)];
    assert Ordered(calls[1..][1..], 901.0) && Ordered(calls[1..], 0.0);
    var s1, p1 := AllowStep(true, l, KEY_A, 0.0).0, AllowStep(false, l, KEY_A, 0.0).0;
    var s2, p2 := AllowStep(true, s1, KEY_B, 901.0).0, AllowStep(false, p1, KEY_B, 901.0).0;
    assert KEY_A !in s2.buckets && KEY_A in p2.buckets;
    assert Run(true, l, calls)[2] == Run(true, s1, calls[1..])[1] == Run(true, s2, calls[1..][1..])[0];
    assert Run(false, l, calls)[2] == Run(false, p1, calls[1..])[1] == Run(false, p2, calls[1..][1..])[0];
  }

  // Main result: sweeping changes no answer on any trace exactly when a bucket refills within
  // the 900 idle seconds after which it may be dropped.
  lemma SweepingIsUnobservableIff(ratePerMin: real, burst: int)
    requires ratePerMin >= 0.0
    ensures (forall calls :: Ordered(calls, 0.0) ==>
               Run(true, New(ratePerMin, burst, 0.0), calls) == Run(false, New(ratePerMin, burst, 0.0), calls))
            <==> burst >= 1 && 15.0 * ratePerMin >= burst as real
  {
    var l := New(ratePerMin, burst, 0.0);
    assert Gain(900.0, l.rate) == 15.0 * ratePerMin;
    if burst < 1 {
      NoBurstTellsThemApart(l);
    } else if Gain(900.0, l.rate) >= l.burst {
      forall calls | Ordered(calls, 0.0) ensures Run(true, l, calls) == Run(false, l, calls) {
        RunsAgree(l, l, calls, 0.0);
      }
    } else {
      var d := JustTooShort(l.rate, l.burst);
      ProbeIsOrdered(burst, d);
      ProbeTellsThemApart(l, burst, d);
    }
  }

  // A pause beyond 900 seconds that does not refill the bucket, when 900 seconds do not.
  lemma JustTooShort(rate: real, burst: real) returns (d: real)
    requires rate >= 0.0 && burst > 0.0 && Gain(900.0, rate) < burst
    ensures d > 900.0 && Gain(d, rate) < burst
  {
    if rate == 0.0 {
      d := 901.0;
    } else {
      var slack := (burst - 900.0 * rate) / 2.0;
      d := 900.0 + slack / rate;
      assert slack / rate * rate == slack;
      assert slack / rate > 0.0;
      assert d * rate == 900.0 * rate + slack / rate * rate;
    }
  }

  // ---------------------------------------------------------------- the rate bound

  // Grants to `key` among the calls made in [from, to].
  function Granted(key: Key, from: real, to: real, calls: seq<Call>, answers: seq<bool>): nat
    requires |calls| == |answers|
  {
    if calls == [] then 0
    else (if answers[0] && calls[0].key == key && from <= calls[0].at <= to then 1 else 0)
         + Granted(key, from, to, calls[1..], answers[1..])
  }

  // What `key` could spend at `now`; an unknown key has a full burst.
  function Available(l: Limiter, key: Key, now: real): real {
    if key in l.buckets then l.Refilled(l.buckets[key], now) else l.burst
  }

  lemma AvailableGrows(l: Limiter, key: Key, clock: real, a: real, b: real)
    requires Valid(l, clock) && clock <= a <= b
    ensures 0.0 <= Available(l, key, a) <= Available(l, key, b) <= Available(l, key, a) + Gain(b - a, l.rate)
  {
    hide Gain;
    GainGrows(0.0, b - a, l.rate);
    if key in l.buckets {
      var u := l.buckets[key].updated;
      GainGrows(0.0, a - u, l.rate);
      GainAdds(a - u, b - a, l.rate);
    }
  }

  // A grant to `key` costs it one token, then and ever after.
  lemma AllowSpends(l: Limiter, c: Call, key: Key, clock: real, later: real)
    requires Valid(l, clock) && clock <= c.at <= later
    ensures var (l', ok) := AllowStep(false, l, c.key, c.at);
            && Available(l', key, later) <= Available(l, key, later)
            && Available(l', key, c.at) == Available(l, key, c.at) - (if ok && c.key == key then 1.0 else 0.0)
  {
    hide Gain;
    GainGrows(0.0, later - c.at, l.rate);
    if c.key == key && key in l.buckets {
      var e := l.buckets[key];
      GainGrows(0.0, c.at - e.updated, l.rate);
      GainAdds(c.at - e.updated, later - c.at, l.rate);
    }
  }

  lemma {:induction false} LateCallsDoNotCount(key: Key, from: real, to: real, calls: seq<Call>, answers: seq<bool>,
                                               clock: real)
    requires |calls| == |answers| && Ordered(calls, clock) && to < clock
    ensures Granted(key, from, to, calls, answers) == 0
  {
    if calls != [] {
      LateCallsDoNotCount(key, from, to, calls[1..], answers[1..], calls[0].at);
    }
  }

  lemma AllowKeepsRate(l: Limiter, key: Key, now: real)
    ensures AllowStep(false, l, key, now).0.rate == l.rate
  {}

  lemma {:induction false} GrantsAreBounded(l: Limiter, key: Key, from: real, to: real, calls: seq<Call>, clock: real)
    requires Valid(l, clock) && Ordered(calls, clock) && MaxReal(from, clock) <= to
    ensures Granted(key, from, to, calls, Run(false, l, calls)) as real
            <= Available(l, key, MaxReal(from, clock)) + Gain(to - MaxReal(from, clock), l.rate)
    decreases |calls|
  {
    hide Gain, Available, AllowStep;
    var at := MaxReal(from, clock);
    AvailableGrows(l, key, clock, at, to);
    GainGrows(0.0, to - at, l.rate);
    if calls != [] {
      var c := calls[0];
      var l' := AllowStep(false, l, c.key, c.at).0;
      var answers := Run(false, l, calls);
      assert answers[1..] == Run(false, l', calls[1..]);
      AllowKeepsValid(false, l, c.key, c.at, clock);
      if to < c.at {
        LateCallsDoNotCount(key, from, to, calls[1..], answers[1..], c.at);
      } else {
        assert l'.rate == l.rate by { AllowKeepsRate(l, c.key, c.at); }
        GrantsAreBounded(l', key, from, to, calls[1..], c.at);
        if c.at < from {
          AllowSpends(l, c, key, clock, from);
        } else {
          assert answers[0] == AllowStep(false, l, c.key, c.at).1;
          AllowSpends(l, c, key, clock, c.at);
          AvailableGrows(l, key, clock, at, c.at);
          GainAdds(c.at - at, to - c.at, l.rate);
        }
      }
    }
  }

  // Main result: the program's limiter grants a key at most burst + rate * (to - from) calls in
  // any interval, sweeps and re-created buckets included.
  lemma RateBound(ratePerMin: real, burst: int, start: real, calls: seq<Call>, key: Key, from: real, to: real)
    requires ratePerMin >= 0.0 && burst >= 1 && 15.0 * ratePerMin >= burst as real
    requires Ordered(calls, start) && from <= to
    ensures Granted(key, from, to, calls, Run(true, New(ratePerMin, burst, start), calls)) as real
            <= burst as real + Gain(to - from, ratePerMin / 60.0)
  {
    var l := New(ratePerMin, burst, start);
    assert Gain(900.0, l.rate) == 15.0 * ratePerMin;
    hide Gain;
    RunsAgree(l, l, calls, start);
    var at := MaxReal(from, start);
    GainGrows(0.0, to - from, l.rate);
    if to < at {
      LateCallsDoNotCount(key, from, to, calls, Run(true, l, calls), start);
    } else {
      GrantsAreBounded(l, key, from, to, calls, start);
      GainGrows(to - at, to - from, l.rate);
    }
  }

  // n calls at one instant by a key that can afford them are all granted.
  lemma {:induction false} AffordedAreGranted(l: Limiter, key: Key, from: real, to: real, at: real, n: nat)
    requires l.rate >= 0.0 && from <= at <= to && Available(l, key, at) >= n as real
    ensures Granted(key, from, to, Repeat(key, at, n), Run(true, l, Repeat(key, at, n))) == n
    decreases n
  {
    hide Gain;
    GainGrows(0.0, 0.0, l.rate);
    if n > 0 {
      var calls := Repeat(key, at, n);
      var l' := AllowStep(true, l, key, at).0;
      assert calls[1..] == Repeat(key, at, n - 1);
      assert Run(true, l, calls)[1..] == Run(true, l', calls[1..]);
      AffordedAreGranted(l', key, from, to, at, n - 1);
    }
  }

  lemma {:induction false} GrantedConcat(key: Key, from: real, to: real, a: seq<Call>, x: seq<bool>, b: seq<Call>,
                                         y: seq<bool>)
    requires |a| == |x| && |b| == |y|
    ensures Granted(key, from, to, a + b, x + y) == Granted(key, from, to, a, x) + Granted(key, from, to, b, y)
    decreases |a|
  {
    if a == [] {
      assert a + b == b && x + y == y;
    } else {
      assert (a + b)[1..] == a[1..] + b && (x + y)[1..] == x[1..] + y;
      GrantedConcat(key, from, to, a[1..], x[1..], b, y);
    }
  }

  // The probe gets the burst twice.
  lemma ProbeIsGrantedTwice(l: Limiter, burst: nat, d: real)
    requires burst >= 1 && l.burst == burst as real && l.buckets == map[] && l.lastSweep == 0.0 && l.rate >= 0.0
        && d > 900.0
    ensures Granted(KEY_A, 0.0, d, Probe(burst, d), Run(true, l, Probe(burst, d))) >= 2 * burst
  {
    hide Run, After, AllowStep, Granted, Repeat, Gain;
    var first, other, again := Repeat(KEY_A, 0.0, burst), [Call(KEY_B, d)], Repeat(KEY_A, d, burst);
    ProbeState(true, l, burst, d);
    RunConcat(true, l, first + other, again);
    RunConcat(true, l, first, other);
    AffordedAreGranted(l, KEY_A, 0.0, d, 0.0, burst);
    AffordedAreGranted(After(true, l, first + other), KEY_A, 0.0, d, d, burst);
    var x, y := Run(true, l, first), Run(true, After(true, l, first), other);
    var z := Run(true, After(true, l, first + other), again);
    GrantedConcat(KEY_A, 0.0, d, first, x, other, y);
    GrantedConcat(KEY_A, 0.0, d, first + other, x + y, again, z);
  }

  ghost predicate RateIsBounded(ratePerMin: real, burst: int) {
    forall calls, key, from, to :: Ordered(calls, 0.0) && from <= to ==>
      Granted(key, from, to, calls, Run(true, New(ratePerMin, burst, 0.0), calls)) as real
      <= burst as real + Gain(to - from, ratePerMin / 60.0)
  }

  // And it is the condition under which sweeping goes unnoticed that the bound rests on: without it
  // some trace gets more than burst + rate * (to - from).
  lemma RateBoundIff(ratePerMin: real, burst: int)
    requires ratePerMin >= 0.0
    ensures RateIsBounded(ratePerMin, burst) <==> burst >= 1 && 15.0 * ratePerMin >= burst as real
  {
    hide Granted, Run;
    var l := New(ratePerMin, burst, 0.0);
    assert Gain(900.0, l.rate) == 15.0 * ratePerMin;
    if burst < 1 {
      FirstIsGranted(l);
      GainGrows(0.0, 0.0, l.rate);
      assert !RateIsBounded(ratePerMin, burst);
    } else if Gain(900.0, l.rate) >= l.burst {
      forall calls, key, from, to | Ordered(calls, 0.0) && from <= to
        ensures Granted(key, from, to, calls, Run(true, New(ratePerMin, burst, 0.0), calls)) as real
                <= burst as real + Gain(to - from, ratePerMin / 60.0)
      {
        RateBound(ratePerMin, burst, 0.0, calls, key, from, to);
      }
    } else {
      var d := JustTooShort(l.rate, l.burst);
      ProbeIsOrdered(burst, d);
      ProbeIsGrantedTwice(l, burst, d);
      assert !RateIsBounded(ratePerMin, burst);
    }
  }

  // A key that is new is granted whatever the burst.
  lemma FirstIsGranted(l: Limiter)
    requires l.buckets == map[]
    ensures var calls := [Call(KEY_A, 0.0)];
            Ordered(calls, 0.0) && Granted(KEY_A, 0.0, 0.0, calls, Run(true, l, calls)) == 1
  {
    assert [Call(KEY_A, 0.0)][1..] == [];
    assert Granted(KEY_A, 0.0, 0.0, [], []) == 0;
  }

  datatype Setting = Setting(ratePerMin: real, burst: int)

  const PER_SESSION := Setting(12.0, 6)
  const PER_IP := Setting(30.0, 15)
  const PER_TENANT := Setting(300.0, 100)

  // The three limiters the service runs all meet the condition.
  lemma ConfiguredLimitersForgetSafely(s: Setting, calls: seq<Call>)
    requires s in {PER_SESSION, PER_IP, PER_TENANT} && Ordered(calls, 0.0)
    ensures Run(true, New(s.ratePerMin, s.burst, 0.0), calls) == Run(false, New(s.ratePerMin, s.burst, 0.0), calls)
  {
    SweepingIsUnobservableIff(s.ratePerMin, s.burst);
  }
}
