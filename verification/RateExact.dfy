// The limiter's answers, exactly (app/services/ratelimit.py:32-64): a call is granted if and only if it
// keeps every interval that ends with it within the burst and the rate.
module RateExact {
  import opened RateLimit

  // Calls in the order of time, none before `start`.
  ghost predicate InOrder(calls: seq<Call>, start: real) {
    && (forall i, j :: 0 <= i <= j < |calls| ==> calls[i].at <= calls[j].at)
    && (forall i :: 0 <= i < |calls| ==> start <= calls[i].at)
  }

  lemma {:induction false} InOrderIsOrdered(calls: seq<Call>, start: real)
    requires InOrder(calls, start)
    ensures Ordered(calls, start)
  {
    if calls != [] {
      InOrderIsOrdered(calls[1..], calls[0].at);
    }
  }

  // The state before call i, and the answer to it.
  function StateAt(l: Limiter, calls: seq<Call>, i: nat): Limiter
    requires i <= |calls|
  {
    if i == 0 then l else AllowStep(false, StateAt(l, calls, i - 1), calls[i - 1].key, calls[i - 1].at).0
  }

  function AnswerAt(l: Limiter, calls: seq<Call>, i: nat): bool
    requires i < |calls|
  {
    AllowStep(false, StateAt(l, calls, i), calls[i].key, calls[i].at).1
  }

  lemma {:induction false} StateAtTail(l: Limiter, calls: seq<Call>, i: nat)
    requires calls != [] && 1 <= i <= |calls|
    ensures StateAt(l, calls, i) == StateAt(AllowStep(false, l, calls[0].key, calls[0].at).0, calls[1..], i - 1)
  {
    hide AllowStep;
    if i == 1 {
      assert StateAt(l, calls, 0) == l;
    } else {
      StateAtTail(l, calls, i - 1);
    }
  }

  lemma {:induction false} RunAt(l: Limiter, calls: seq<Call>, i: nat)
    requires i < |calls|
    ensures Run(false, l, calls)[i] == AnswerAt(l, calls, i)
    decreases i
  {
    hide AllowStep;
    if i > 0 {
      RunAt(AllowStep(false, l, calls[0].key, calls[0].at).0, calls[1..], i - 1);
      StateAtTail(l, calls, i);
    } else {
      assert StateAt(l, calls, 0) == l;
    }
  }

  // The calls of `key` from j on and before i that are granted.
  function Grants(answers: seq<bool>, calls: seq<Call>, key: Key, j: nat, i: nat): nat
    requires j <= i <= |calls| == |answers|
  {
    if i == j then 0
    else Grants(answers, calls, key, j, i - 1) + (if calls[i - 1].key == key && answers[i - 1] then 1 else 0)
  }

  // What the interval from call j to time t still has room for, before call i.
  function Room(l: Limiter, answers: seq<bool>, calls: seq<Call>, key: Key, j: nat, i: nat, t: real): real
    requires j < i <= |calls| == |answers|
  {
    l.burst + Gain(t - calls[j].at, l.rate) - Grants(answers, calls, key, j, i) as real
  }

  // The tokens of `key` before call i, at time t, are the least of these rooms, or the burst.
  ghost predicate IsLeastRoom(l: Limiter, answers: seq<bool>, calls: seq<Call>, key: Key, i: nat, t: real, tokens: real)
    requires i <= |calls| == |answers|
  {
    && tokens <= l.burst
    && (forall j: nat :: j < i && calls[j].key == key ==> tokens <= Room(l, answers, calls, key, j, i, t))
    && (tokens == l.burst
        || exists j: nat :: j < i && calls[j].key == key && tokens == Room(l, answers, calls, key, j, i, t))
  }

  lemma RoomLater(l: Limiter, answers: seq<bool>, calls: seq<Call>, key: Key, j: nat, i: nat, t: real)
    requires j < i < |calls| == |answers|
    ensures Room(l, answers, calls, key, j, i + 1, t)
            == Room(l, answers, calls, key, j, i, calls[i].at) + Gain(t - calls[i].at, l.rate)
               - (if calls[i].key == key && answers[i] then 1.0 else 0.0)
  {
    GainAdds(calls[i].at - calls[j].at, t - calls[i].at, l.rate);
    hide Gain;
  }

  lemma RoomOfOne(l: Limiter, answers: seq<bool>, calls: seq<Call>, key: Key, i: nat, t: real)
    requires i < |calls| == |answers|
    ensures Room(l, answers, calls, key, i, i + 1, t)
            == l.burst + Gain(t - calls[i].at, l.rate) - (if calls[i].key == key && answers[i] then 1.0 else 0.0)
  {
    hide Gain;
    assert Grants(answers, calls, key, i, i) == 0;
  }

  // A call of `key`: what it leaves of the tokens, at any later time.
  lemma OwnCall(l: Limiter, answers: seq<bool>, calls: seq<Call>, key: Key, i: nat, t: real, before: real, after: real)
    requires i < |calls| == |answers| && calls[i].key == key
    requires IsLeastRoom(l, answers, calls, key, i, calls[i].at, before)
    requires after == MinReal(l.burst, before - (if answers[i] then 1.0 else 0.0) + Gain(t - calls[i].at, l.rate))
    ensures IsLeastRoom(l, answers, calls, key, i + 1, t, after)
  {
    hide Room, Gain;
    RoomOfOne(l, answers, calls, key, i, t);
    forall j: nat | j < i ensures Room(l, answers, calls, key, j, i + 1, t)
        == Room(l, answers, calls, key, j, i, calls[i].at) + Gain(t - calls[i].at, l.rate)
           - (if calls[i].key == key && answers[i] then 1.0 else 0.0)
    {
      RoomLater(l, answers, calls, key, j, i, t);
    }
    if after != l.burst && before != l.burst {
      var j: nat :| j < i && calls[j].key == key && before == Room(l, answers, calls, key, j, i, calls[i].at);
      assert after == Room(l, answers, calls, key, j, i + 1, t);
    }
  }

  lemma OtherCall(l: Limiter, answers: seq<bool>, calls: seq<Call>, key: Key, i: nat, t: real, tokens: real)
    requires i < |calls| == |answers| && calls[i].key != key
    requires IsLeastRoom(l, answers, calls, key, i, t, tokens)
    ensures IsLeastRoom(l, answers, calls, key, i + 1, t, tokens)
  {
    forall j: nat | j < i
      ensures Room(l, answers, calls, key, j, i + 1, t) == Room(l, answers, calls, key, j, i, t)
    {
    }
    hide Room;
  }

  // What one step does to the tokens of a key.
  lemma StepTokens(l: Limiter, c: Call, key: Key, t: real)
    requires l.burst >= 1.0 && l.rate >= 0.0 && c.at <= t
    ensures var (l', ok) := AllowStep(false, l, c.key, c.at);
            && l'.rate == l.rate && l'.burst == l.burst
            && (c.key != key ==> Available(l', key, t) == Available(l, key, t))
            && (c.key == key ==>
                  && (ok <==> Available(l, key, c.at) >= 1.0)
                  && Available(l', key, t)
                     == MinReal(l.burst, Available(l, key, c.at) - (if ok then 1.0 else 0.0) + Gain(t - c.at, l.rate)))
  {
    hide Gain;
  }

  lemma {:induction false} TokensAreLeastRoom(l: Limiter, calls: seq<Call>, answers: seq<bool>, key: Key, i: nat,
                                              t: real, start: real)
    requires l.burst >= 1.0 && l.rate >= 0.0 && l.buckets == map[] && InOrder(calls, start) && i <= |calls|
    requires |answers| == |calls| && forall j: nat :: j < |calls| ==> answers[j] == AnswerAt(l, calls, j)
    requires i > 0 ==> calls[i - 1].at <= t
    ensures StateAt(l, calls, i).rate == l.rate && StateAt(l, calls, i).burst == l.burst
    ensures IsLeastRoom(l, answers, calls, key, i, t, Available(StateAt(l, calls, i), key, t))
    decreases i
  {
    hide AllowStep, Available, IsLeastRoom, Gain;
    if i == 0 {
      AllRoom(l, answers, calls, key, t);
    } else {
      var c, m := calls[i - 1], i - 1;
      var was := StateAt(l, calls, m);
      TokensAreLeastRoom(l, calls, answers, key, m, if c.key == key then c.at else t, start);
      StepTokens(was, c, key, t);
      if c.key == key {
        OwnCall(l, answers, calls, key, m, t, Available(was, key, c.at), Available(StateAt(l, calls, i), key, t));
      } else {
        OtherCall(l, answers, calls, key, m, t, Available(was, key, t));
      }
    }
  }

  lemma AllRoom(l: Limiter, answers: seq<bool>, calls: seq<Call>, key: Key, t: real)
    requires l.buckets == map[] && |calls| == |answers|
    ensures IsLeastRoom(l, answers, calls, key, 0, t, Available(StateAt(l, calls, 0), key, t))
  {
  }

  // With call i granted, the calls of its key granted since call j are within the burst and the rate.
  ghost predicate KeepsWithin(answers: seq<bool>, calls: seq<Call>, burst: real, rate: real, j: nat, i: nat)
    requires j <= i < |calls| == |answers|
  {
    Grants(answers, calls, calls[i].key, j, i) as real + 1.0 <= burst + (calls[i].at - calls[j].at) * rate
  }

  // Main result: whatever is asked when, a call is granted exactly if, with it, every interval that begins
  // with a call of its key and ends with it stays within burst + rate * length.
  lemma GrantedIff(ratePerMin: real, burst: int, start: real, calls: seq<Call>, i: nat)
    requires ratePerMin >= 0.0 && burst >= 1 && 15.0 * ratePerMin >= burst as real
    requires InOrder(calls, start) && i < |calls|
    ensures var answers := Run(true, New(ratePerMin, burst, start), calls);
            answers[i] <==> forall j: nat :: j <= i && calls[j].key == calls[i].key ==>
                              KeepsWithin(answers, calls, burst as real, ratePerMin / 60.0, j, i)
  {
    hide Run, AllowStep;
    var l := New(ratePerMin, burst, start);
    var answers, key := Run(true, l, calls), calls[i].key;
    InOrderIsOrdered(calls, start);
    assert Gain(900.0, l.rate) == 15.0 * ratePerMin;
    RunsAgree(l, l, calls, start);
    forall j: nat | j < |calls| ensures answers[j] == AnswerAt(l, calls, j) {
      RunAt(l, calls, j);
    }
    TokensAreLeastRoom(l, calls, answers, key, i, calls[i].at, start);
    StepTokens(StateAt(l, calls, i), calls[i], key, calls[i].at);
    RoomDecides(l, answers, calls, i, Available(StateAt(l, calls, i), key, calls[i].at));
  }

  lemma RoomDecides(l: Limiter, answers: seq<bool>, calls: seq<Call>, i: nat, tokens: real)
    requires i < |calls| == |answers| && l.burst >= 1.0
    requires IsLeastRoom(l, answers, calls, calls[i].key, i, calls[i].at, tokens)
    ensures tokens >= 1.0 <==> forall j: nat :: j <= i && calls[j].key == calls[i].key ==>
                                 KeepsWithin(answers, calls, l.burst, l.rate, j, i)
  {
    var key, t := calls[i].key, calls[i].at;
    assert KeepsWithin(answers, calls, l.burst, l.rate, i, i) by {
      assert Grants(answers, calls, key, i, i) == 0;
    }
    forall j: nat | j < i && calls[j].key == key
      ensures KeepsWithin(answers, calls, l.burst, l.rate, j, i) <==> Room(l, answers, calls, key, j, i, t) >= 1.0
    {
    }
    hide Room, KeepsWithin;
  }

  // The three limiters of the service, in their own numbers: 6 calls and one more every 5 seconds for a
  // session, 15 and one every 2 seconds for an address, 100 and 5 a second for a tenant.
  lemma ConfiguredLimits(calls: seq<Call>, i: nat, start: real)
    requires InOrder(calls, start) && i < |calls|
    ensures var answers := Run(true, New(PER_SESSION.ratePerMin, PER_SESSION.burst, start), calls);
            answers[i] <==> forall j: nat :: j <= i && calls[j].key == calls[i].key ==>
                              KeepsWithin(answers, calls, 6.0, 0.2, j, i)
    ensures var answers := Run(true, New(PER_IP.ratePerMin, PER_IP.burst, start), calls);
            answers[i] <==> forall j: nat :: j <= i && calls[j].key == calls[i].key ==>
                              KeepsWithin(answers, calls, 15.0, 0.5, j, i)
    ensures var answers := Run(true, New(PER_TENANT.ratePerMin, PER_TENANT.burst, start), calls);
            answers[i] <==> forall j: nat :: j <= i && calls[j].key == calls[i].key ==>
                              KeepsWithin(answers, calls, 100.0, 5.0, j, i)
  {
    hide Run, KeepsWithin, InOrder;
    GrantedIff(12.0, 6, start, calls, i);
    GrantedIff(30.0, 15, start, calls, i);
    GrantedIff(300.0, 100, start, calls, i);
    assert 12.0 / 60.0 == 0.2 && 30.0 / 60.0 == 0.5 && 300.0 / 60.0 == 5.0;
  }

  // What a sweep forgets, five minutes after the last at the earliest: the buckets not touched for a
  // quarter of an hour. So just after one, every bucket was touched in that time.
  lemma SweepForgets(l: Limiter, now: real)
    ensures var swept := Sweep(l, now);
            && swept.rate == l.rate && swept.burst == l.burst
            && swept.lastSweep == (if now - l.lastSweep < 300.0 then l.lastSweep else now)
            && forall k :: (k in swept.buckets
                            <==> k in l.buckets && (now - l.lastSweep < 300.0 || now - l.buckets[k].updated <= 900.0))
                           && (k in swept.buckets ==> swept.buckets[k] == l.buckets[k])
  {
  }
}
