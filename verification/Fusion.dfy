// Reciprocal rank fusion (app/rag/fusion.py), over exact reals. Ids are opaque; numbers stand for
// them here.
module Fusion {
  import opened Prelude

  type Id = nat

  datatype Scored = Scored(id: Id, score: real)

  function Weight(k: nat, rank: nat): (w: real)
    requires k + rank > 0
    ensures w > 0.0
  {
    1.0 / (k + rank) as real
  }

  // A dict of scores: the values, and the keys in the order they were first set.
  datatype Scores = Scores(order: seq<Id>, of: map<Id, real>) {
    ghost predicate Valid() {
      && (forall id :: id in order <==> id in of)
      && (forall i, j :: 0 <= i < j < |order| ==> order[i] != order[j])
    }
  }

  function Bump(s: Scores, e: Scored): Scores {
    if e.id in s.of then s.(of := s.of[e.id := s.of[e.id] + e.score])
    else Scores(s.order + [e.id], s.of[e.id := 0.0 + e.score])
  }

  // Every (id, 1/(k+rank)) that is added up, in the order the two loops meet them.
  function Entries(ranking: seq<Id>, k: nat, n: nat): (r: seq<Scored>)
    requires n <= |ranking|
    ensures |r| == n
  {
    if n == 0 then [] else Entries(ranking, k, n - 1) + [Scored(ranking[n - 1], Weight(k, n))]
  }

  function Flat(rankings: seq<seq<Id>>, k: nat, m: nat): seq<Scored>
    requires m <= |rankings|
  {
    if m == 0 then [] else Flat(rankings, k, m - 1) + Entries(rankings[m - 1], k, |rankings[m - 1]|)
  }

  function Tally(flat: seq<Scored>, n: nat): Scores
    requires n <= |flat|
  {
    if n == 0 then Scores([], map[]) else Bump(Tally(flat, n - 1), flat[n - 1])
  }

  // ---------------------------------------------------------------- the stable sort

  // Where index x goes among indices already arranged: after everything scored at least as high.
  function Spot(scores: seq<real>, at: seq<nat>, x: nat, n: nat): (p: nat)
    requires n <= |at| && x < |scores| && forall i :: 0 <= i < |at| ==> at[i] < |scores|
    ensures p <= n
    ensures p > 0 ==> scores[at[p - 1]] >= scores[x]
    ensures forall i :: p <= i < n ==> scores[at[i]] < scores[x]
  {
    if n == 0 || scores[at[n - 1]] >= scores[x] then n else Spot(scores, at, x, n - 1)
  }

  function Insert<T>(xs: seq<T>, p: nat, x: T): (r: seq<T>)
    requires p <= |xs|
    ensures |r| == |xs| + 1 && r[p] == x
    ensures forall i :: 0 <= i < p ==> r[i] == xs[i]
    ensures forall i :: p < i < |r| ==> r[i] == xs[i - 1]
  {
    xs[..p] + [x] + xs[p..]
  }

  // The positions of the first n scores, highest score first, ties in their own order.
  function Arranged(scores: seq<real>, n: nat): (at: seq<nat>)
    requires n <= |scores|
    ensures |at| == n && forall i :: 0 <= i < |at| ==> at[i] < n
  {
    if n == 0 then []
    else
      var at := Arranged(scores, n - 1);
      Insert<nat>(at, Spot(scores, at, n - 1, n - 1), n - 1)
  }

  ghost predicate Leads(scores: seq<real>, x: nat, y: nat)
    requires x < |scores| && y < |scores|
  {
    scores[x] > scores[y] || (scores[x] == scores[y] && x < y)
  }

  ghost predicate Has(at: seq<nat>, x: nat) {
    exists i :: 0 <= i < |at| && at[i] == x
  }

  ghost predicate HasAll(at: seq<nat>, n: nat) {
    forall x: nat :: x < n ==> Has(at, x)
  }

  ghost predicate Ordered(scores: seq<real>, at: seq<nat>) {
    && (forall i :: 0 <= i < |at| ==> at[i] < |scores|)
    && (forall i, j :: 0 <= i < j < |at| ==> Leads(scores, at[i], at[j]))
  }

  // A stable descending arrangement of all positions.
  ghost predicate StableDescending(scores: seq<real>, at: seq<nat>) {
    |at| == |scores| && Ordered(scores, at) && HasAll(at, |scores|)
  }

  lemma InsertKeepsOrder(scores: seq<real>, was: seq<nat>, x: nat)
    requires x < |scores| && Ordered(scores, was)
    requires forall i :: 0 <= i < |was| ==> was[i] < x
    ensures Ordered(scores, Insert<nat>(was, Spot(scores, was, x, |was|), x))
  {
    hide Insert, Spot, Leads;
    var p := Spot(scores, was, x, |was|);
    var at := Insert<nat>(was, p, x);
    forall i, j | 0 <= i < j < |at| ensures Leads(scores, at[i], at[j]) {
      if i == p || j == p {
        SpotLeads(scores, was, x, if i == p then j - 1 else i);
      }
    }
  }

  // Everything before the spot leads the newcomer, and the newcomer leads everything after.
  lemma SpotLeads(scores: seq<real>, was: seq<nat>, x: nat, i: nat)
    requires x < |scores| && Ordered(scores, was) && i < |was|
    requires forall i :: 0 <= i < |was| ==> was[i] < x
    ensures i < Spot(scores, was, x, |was|) ==> Leads(scores, was[i], x)
    ensures i >= Spot(scores, was, x, |was|) ==> Leads(scores, x, was[i])
  {
    hide Spot;
    var p := Spot(scores, was, x, |was|);
    if i + 1 < p {
      assert Leads(scores, was[i], was[p - 1]);
    }
  }

  lemma InsertKeeps(was: seq<nat>, p: nat, x: nat, y: nat)
    requires p <= |was|
    ensures Has(Insert<nat>(was, p, x), y) <==> x == y || Has(was, y)
  {
    hide Insert;
    var at := Insert<nat>(was, p, x);
    assert at[p] == x;
    if Has(was, y) {
      var i :| 0 <= i < |was| && was[i] == y;
      assert at[if i < p then i else i + 1] == y;
    }
  }

  lemma InsertKeepsAll(was: seq<nat>, p: nat, n: nat)
    requires p <= |was| && HasAll(was, n)
    ensures HasAll(Insert<nat>(was, p, n), n + 1)
  {
    hide Insert, Has;
    var at := Insert<nat>(was, p, n);
    forall x: nat | x < n + 1 ensures Has(at, x) {
      InsertKeeps(was, p, n, x);
    }
  }

  lemma {:induction false} ArrangedLeads(scores: seq<real>, n: nat)
    requires n <= |scores|
    ensures Ordered(scores, Arranged(scores, n))
    ensures HasAll(Arranged(scores, n), n)
  {
    hide *;
    ArrangedNext(scores, n);
    if n == 0 {
      NoneOrdered(scores);
    } else {
      var was := Arranged(scores, n - 1);
      ArrangedLeads(scores, n - 1);
      InsertKeepsOrder(scores, was, n - 1);
      InsertKeepsAll(was, Spot(scores, was, n - 1, n - 1), n - 1);
    }
  }

  lemma ArrangedNext(scores: seq<real>, n: nat)
    requires n <= |scores|
    ensures n == 0 ==> Arranged(scores, n) == []
    ensures n > 0 ==> var was := Arranged(scores, n - 1);
                      Arranged(scores, n) == Insert<nat>(was, Spot(scores, was, n - 1, n - 1), n - 1)
  {
    hide Insert, Spot;
  }

  lemma NoneOrdered(scores: seq<real>)
    ensures Ordered(scores, []) && HasAll([], 0)
  {
  }

  lemma ArrangedIsStable(scores: seq<real>)
    ensures StableDescending(scores, Arranged(scores, |scores|))
  {
    hide Arranged, Ordered, HasAll;
    ArrangedLeads(scores, |scores|);
  }

  lemma {:induction false} ArrangementsAgree(scores: seq<real>, a: seq<nat>, b: seq<nat>, n: nat)
    requires StableDescending(scores, a) && StableDescending(scores, b) && n <= |scores|
    ensures a[..n] == b[..n]
  {
    hide Leads;
    if n > 0 {
      var i := n - 1;
      ArrangementsAgree(scores, a, b, i);
      assert forall l :: 0 <= l < i ==> a[..i][l] == b[..i][l];
      assert Has(b, a[i]) && Has(a, b[i]);
      var j :| 0 <= j < |b| && b[j] == a[i];
      var l :| 0 <= l < |a| && a[l] == b[i];
      LeadsIsStrict(scores, a[i], b[i]);
      assert j < i ==> Leads(scores, a[j], a[i]);
      assert l < i ==> Leads(scores, b[l], b[i]);
      LeadsIsStrict(scores, a[i], a[i]);
      LeadsIsStrict(scores, b[i], b[i]);
      assert a[..n] == a[..i] + [a[i]] && b[..n] == b[..i] + [b[i]];
    }
  }

  lemma LeadsIsStrict(scores: seq<real>, x: nat, y: nat)
    requires x < |scores| && y < |scores|
    ensures !(Leads(scores, x, y) && Leads(scores, y, x))
  {
  }

  // So a stable sort has no choice: whichever algorithm it uses, it returns this.
  lemma StableSortIsUnique(scores: seq<real>, at: seq<nat>)
    requires StableDescending(scores, at)
    ensures at == Arranged(scores, |scores|)
  {
    ArrangedIsStable(scores);
    ArrangementsAgree(scores, at, Arranged(scores, |scores|), |scores|);
    assert at[..|scores|] == at;
  }

  method FindSpot(scores: seq<real>, at: seq<nat>, x: nat) returns (p: nat)
    requires x < |scores| && forall i :: 0 <= i < |at| ==> at[i] < |scores|
    ensures p <= |at| && p == Spot(scores, at, x, |at|)
  {
    p := |at|;
    while p > 0 && scores[at[p - 1]] < scores[x]
      invariant 0 <= p <= |at|
      invariant Spot(scores, at, x, |at|) == Spot(scores, at, x, p)
    {
      p := p - 1;
    }
  }

  // sorted(..., reverse=True): the next element goes after everything at least as high.
  method SortDescending(scores: seq<real>) returns (at: seq<nat>)
    ensures at == Arranged(scores, |scores|)
    ensures StableDescending(scores, at)
  {
    hide Spot, StableDescending, Insert;
    at := [];
    for n := 0 to |scores|
      invariant at == Arranged(scores, n)
    {
      var p := FindSpot(scores, at, n);
      at := Insert<nat>(at, p, n);
    }
    ArrangedIsStable(scores);
  }

  // ---------------------------------------------------------------- fusing

  function Values(s: Scores): (r: seq<real>)
    requires s.Valid()
    ensures |r| == |s.order|
  {
    seq(|s.order|, i requires 0 <= i < |s.order| => s.of[s.order[i]])
  }

  function Pick(s: Scores, at: seq<nat>): (r: seq<Scored>)
    requires s.Valid() && forall i :: 0 <= i < |at| ==> at[i] < |s.order|
    ensures |r| == |at|
  {
    seq(|at|, i requires 0 <= i < |at| => Scored(s.order[at[i]], s.of[s.order[at[i]]]))
  }

  function Total(rankings: seq<seq<Id>>, k: nat): Scores {
    var flat := Flat(rankings, k, |rankings|);
    Tally(flat, |flat|)
  }

  // rrf_fuse; None is the ValueError for k <= 0.
  function Fuse(rankings: seq<seq<Id>>, k: int): (fused: Option<seq<Scored>>)
    ensures fused.Some? <==> k > 0
  {
    if k <= 0 then None
    else
      var s := Total(rankings, k);
      TallyIsValid(Flat(rankings, k, |rankings|), |Flat(rankings, k, |rankings|)|);
      Some(Pick(s, Arranged(Values(s), |s.order|)))
  }

  lemma {:induction false} TallyIsValid(flat: seq<Scored>, n: nat)
    requires n <= |flat|
    ensures Tally(flat, n).Valid()
  {
    if n > 0 {
      TallyIsValid(flat, n - 1);
    }
  }

  lemma {:induction false} TallyOfPrefix(flat: seq<Scored>, more: seq<Scored>, n: nat)
    requires n <= |flat|
    ensures Tally(flat + more, n) == Tally(flat, n)
  {
    if n > 0 {
      TallyOfPrefix(flat, more, n - 1);
    }
  }

  lemma TallyNext(flat: seq<Scored>, e: Scored)
    ensures Tally(flat + [e], |flat| + 1) == Bump(Tally(flat, |flat|), e)
  {
    TallyOfPrefix(flat, [e], |flat|);
  }

  method RrfFuse(rankings: seq<seq<Id>>, k: int) returns (fused: Option<seq<Scored>>)
    ensures fused == Fuse(rankings, k)
  {
    hide Bump, Arranged, StableDescending, Insert, Spot;
    if k <= 0 {
      return None;
    }
    var scores := Scores([], map[]);
    ghost var flat: seq<Scored> := [];
    for m := 0 to |rankings|
      invariant flat == Flat(rankings, k, m)
      invariant scores == Tally(flat, |flat|)
    {
      var ranking := rankings[m];
      assert flat + Entries(ranking, k, 0) == flat;
      for rank := 0 to |ranking|
        invariant flat == Flat(rankings, k, m) + Entries(ranking, k, rank)
        invariant scores == Tally(flat, |flat|)
      {
        var e := Scored(ranking[rank], Weight(k, rank + 1));
        scores := Bump(scores, e);
        TallyNext(flat, e);
        assert flat + [e] == Flat(rankings, k, m) + Entries(ranking, k, rank + 1);
        flat := flat + [e];
      }
    }
    TallyIsValid(flat, |flat|);
    var at := SortDescending(Values(scores));
    fused := Some(Pick(scores, at));
  }

  // ---------------------------------------------------------------- what a score is

  // What one ranking gives an id, over its first n places.
  function Share(ranking: seq<Id>, k: nat, id: Id, n: nat): (r: real)
    requires n <= |ranking|
    ensures r >= 0.0
  {
    if n == 0 then 0.0
    else Share(ranking, k, id, n - 1) + (if ranking[n - 1] == id then Weight(k, n) else 0.0)
  }

  // The sum over the first m rankings of 1/(k+rank).
  function Score(rankings: seq<seq<Id>>, k: nat, id: Id, m: nat): real
    requires m <= |rankings|
  {
    if m == 0 then 0.0 else Score(rankings, k, id, m - 1) + Share(rankings[m - 1], k, id, |rankings[m - 1]|)
  }

  function SumFor(flat: seq<Scored>, id: Id, n: nat): real
    requires n <= |flat|
  {
    if n == 0 then 0.0 else SumFor(flat, id, n - 1) + (if flat[n - 1].id == id then flat[n - 1].score else 0.0)
  }

  lemma {:induction false} TallySums(flat: seq<Scored>, id: Id, n: nat)
    requires n <= |flat|
    ensures id in Tally(flat, n).of ==> Tally(flat, n).of[id] == SumFor(flat, id, n)
    ensures id !in Tally(flat, n).of ==> SumFor(flat, id, n) == 0.0
    ensures id in Tally(flat, n).of <==> exists p :: 0 <= p < n && flat[p].id == id
  {
    if n > 0 {
      TallySums(flat, id, n - 1);
    }
  }

  lemma {:induction false} SumForEntries(flat: seq<Scored>, ranking: seq<Id>, k: nat, id: Id, n: nat)
    requires n <= |ranking|
    ensures SumFor(flat + Entries(ranking, k, n), id, |flat| + n)
            == SumFor(flat, id, |flat|) + Share(ranking, k, id, n)
  {
    var e := flat + Entries(ranking, k, n);
    if n == 0 {
      assert e == flat;
    } else {
      SumForEntries(flat, ranking, k, id, n - 1);
      assert e == (flat + Entries(ranking, k, n - 1)) + [Scored(ranking[n - 1], Weight(k, n))];
      SumForPrefix(flat + Entries(ranking, k, n - 1), [Scored(ranking[n - 1], Weight(k, n))], id, |flat| + n - 1);
    }
  }

  lemma {:induction false} SumForPrefix(flat: seq<Scored>, more: seq<Scored>, id: Id, n: nat)
    requires n <= |flat|
    ensures SumFor(flat + more, id, n) == SumFor(flat, id, n)
  {
    if n > 0 {
      SumForPrefix(flat, more, id, n - 1);
    }
  }

  lemma {:induction false} SumForFlat(rankings: seq<seq<Id>>, k: nat, id: Id, m: nat)
    requires m <= |rankings|
    ensures SumFor(Flat(rankings, k, m), id, |Flat(rankings, k, m)|) == Score(rankings, k, id, m)
  {
    if m > 0 {
      SumForFlat(rankings, k, id, m - 1);
      SumForEntries(Flat(rankings, k, m - 1), rankings[m - 1], k, id, |rankings[m - 1]|);
    }
  }

  ghost predicate Occurs(rankings: seq<seq<Id>>, id: Id) {
    exists r :: r in rankings && id in r
  }

  lemma {:induction false} ShareIsPositive(ranking: seq<Id>, k: nat, id: Id, n: nat)
    requires n <= |ranking|
    ensures Share(ranking, k, id, n) > 0.0 <==> id in ranking[..n]
  {
    if n > 0 {
      ShareIsPositive(ranking, k, id, n - 1);
      assert ranking[..n] == ranking[..n - 1] + [ranking[n - 1]];
    }
  }

  lemma {:induction false} ScoreIsPositive(rankings: seq<seq<Id>>, k: nat, id: Id, m: nat)
    requires m <= |rankings|
    ensures Score(rankings, k, id, m) >= 0.0
    ensures Score(rankings, k, id, m) > 0.0 <==> Occurs(rankings[..m], id)
  {
    if m > 0 {
      var r := rankings[m - 1];
      ScoreIsPositive(rankings, k, id, m - 1);
      ShareIsPositive(r, k, id, |r|);
      assert r[..|r|] == r;
      assert rankings[..m] == rankings[..m - 1] + [r];
    }
  }

  lemma {:induction false} SumForIsPositive(flat: seq<Scored>, id: Id, n: nat)
    requires n <= |flat| && forall p :: 0 <= p < |flat| ==> flat[p].score > 0.0
    ensures SumFor(flat, id, n) >= 0.0
    ensures SumFor(flat, id, n) > 0.0 <==> exists p :: 0 <= p < n && flat[p].id == id
  {
    if n > 0 {
      SumForIsPositive(flat, id, n - 1);
    }
  }

  lemma {:induction false} EntriesArePositive(ranking: seq<Id>, k: nat, n: nat)
    requires n <= |ranking|
    ensures forall p :: 0 <= p < n ==> Entries(ranking, k, n)[p].score > 0.0
  {
    if n > 0 {
      EntriesArePositive(ranking, k, n - 1);
    }
  }

  lemma {:induction false} FlatIsPositive(rankings: seq<seq<Id>>, k: nat, m: nat)
    requires m <= |rankings|
    ensures forall p :: 0 <= p < |Flat(rankings, k, m)| ==> Flat(rankings, k, m)[p].score > 0.0
  {
    if m > 0 {
      FlatIsPositive(rankings, k, m - 1);
      EntriesArePositive(rankings[m - 1], k, |rankings[m - 1]|);
    }
  }

  // a is met before b.
  ghost predicate SeenFirst(flat: seq<Scored>, a: Id, b: Id) {
    exists p :: 0 <= p < |flat| && flat[p].id == a && forall q :: 0 <= q <= p ==> flat[q].id != b
  }

  lemma {:induction false} OrderIsFirstSeen(flat: seq<Scored>, n: nat, i: nat, j: nat)
    requires n <= |flat| && i < j < |Tally(flat, n).order|
    ensures SeenFirst(flat, Tally(flat, n).order[i], Tally(flat, n).order[j])
  {
    var was := Tally(flat, n - 1);
    if j < |was.order| {
      OrderIsFirstSeen(flat, n - 1, i, j);
    } else {
      TallyIsValid(flat, n - 1);
      TallySums(flat, was.order[i], n - 1);
      TallySums(flat, flat[n - 1].id, n - 1);
      assert was.order[i] in was.of;
      var p :| 0 <= p < n - 1 && flat[p].id == was.order[i];
      assert forall q :: 0 <= q <= p ==> flat[q].id != flat[n - 1].id;
    }
  }

  // rrf_fuse lists each id that occurs once, with its sum of 1/(k+rank), highest first, and ids of
  // equal score in the order they were first met.
  lemma FusedMeaning(rankings: seq<seq<Id>>, k: nat)
    requires k > 0
    ensures var fused := Fuse(rankings, k).value;
            && (forall i :: 0 <= i < |fused| ==> fused[i].score == Score(rankings, k, fused[i].id, |rankings|))
            && (forall id :: Occurs(rankings, id) <==> exists i :: 0 <= i < |fused| && fused[i].id == id)
            && (forall i, j :: 0 <= i < j < |fused| ==>
                  && fused[i].id != fused[j].id
                  && (fused[i].score > fused[j].score
                      || (fused[i].score == fused[j].score
                          && SeenFirst(Flat(rankings, k, |rankings|), fused[i].id, fused[j].id))))
  {
    hide Tally, Flat, Arranged, SeenFirst, Score, Occurs, Bump;
    var flat := Flat(rankings, k, |rankings|);
    var s, fused := Total(rankings, k), Fuse(rankings, k).value;
    TallyIsValid(flat, |flat|);
    ArrangedIsStable(Values(s));
    var at := Arranged(Values(s), |s.order|);
    forall i | 0 <= i < |fused| ensures fused[i].score == Score(rankings, k, fused[i].id, |rankings|) {
      TallySums(flat, fused[i].id, |flat|);
      SumForFlat(rankings, k, fused[i].id, |rankings|);
    }
    forall id ensures Occurs(rankings, id) <==> exists i :: 0 <= i < |fused| && fused[i].id == id {
      OccursIsTallied(rankings, k, id);
      if id in s.of {
        assert id in s.order;
        var x :| 0 <= x < |s.order| && s.order[x] == id;
        assert Has(at, x);
        var i :| 0 <= i < |at| && at[i] == x;
        assert fused[i].id == id;
      }
    }
    forall i, j | 0 <= i < j < |fused|
      ensures fused[i].id != fused[j].id
      ensures fused[i].score > fused[j].score
              || (fused[i].score == fused[j].score && SeenFirst(flat, fused[i].id, fused[j].id))
    {
      if fused[i].score == fused[j].score {
        OrderIsFirstSeen(flat, |flat|, at[i], at[j]);
      }
    }
  }

  lemma OccursIsTallied(rankings: seq<seq<Id>>, k: nat, id: Id)
    requires k > 0
    ensures Occurs(rankings, id) <==> id in Total(rankings, k).of
  {
    hide Occurs, Tally, Flat, Score, SumFor;
    var flat := Flat(rankings, k, |rankings|);
    TallySums(flat, id, |flat|);
    FlatIsPositive(rankings, k, |rankings|);
    SumForIsPositive(flat, id, |flat|);
    SumForFlat(rankings, k, id, |rankings|);
    ScoreIsPositive(rankings, k, id, |rankings|);
    assert rankings[..|rankings|] == rankings;
  }

  // ---------------------------------------------------------------- conservation of mass

  function Sum(xs: seq<Scored>, n: nat): real
    requires n <= |xs|
  {
    if n == 0 then 0.0 else Sum(xs, n - 1) + xs[n - 1].score
  }

  // The scores of the first n keys added up.
  function Mass(s: Scores, n: nat): real
    requires s.Valid() && n <= |s.order|
  {
    if n == 0 then 0.0 else Mass(s, n - 1) + s.of[s.order[n - 1]]
  }

  lemma {:induction false} BumpAddsMass(s: Scores, e: Scored, n: nat)
    requires s.Valid() && Bump(s, e).Valid() && n <= |s.order|
    ensures Mass(Bump(s, e), n) == Mass(s, n) + (if e.id in s.order[..n] then e.score else 0.0)
  {
    if n > 0 {
      BumpAddsMass(s, e, n - 1);
      assert s.order[..n] == s.order[..n - 1] + [s.order[n - 1]];
    }
  }

  lemma BumpAddsOnce(s: Scores, e: Scored)
    requires s.Valid() && Bump(s, e).Valid()
    ensures Mass(Bump(s, e), |Bump(s, e).order|) == Mass(s, |s.order|) + e.score
  {
    BumpAddsMass(s, e, |s.order|);
    assert s.order[..|s.order|] == s.order;
  }

  lemma {:induction false} TallyMass(flat: seq<Scored>, n: nat)
    requires n <= |flat|
    ensures Tally(flat, n).Valid()
    ensures Mass(Tally(flat, n), |Tally(flat, n).order|) == Sum(flat, n)
  {
    hide Bump, Scores.Valid;
    TallyIsValid(flat, n);
    if n > 0 {
      TallyIsValid(flat, n - 1);
      TallyMass(flat, n - 1);
      BumpAddsOnce(Tally(flat, n - 1), flat[n - 1]);
    }
  }

  lemma PickInsert(s: Scores, at: seq<nat>, p: nat, x: nat)
    requires s.Valid() && p <= |at| && x < |s.order| && forall i :: 0 <= i < |at| ==> at[i] < |s.order|
    ensures Pick(s, Insert<nat>(at, p, x)) == Insert<Scored>(Pick(s, at), p, Scored(s.order[x], s.of[s.order[x]]))
  {
    hide Insert;
  }

  lemma {:induction false} SumOfInsertion(xs: seq<Scored>, e: Scored, p: nat, n: nat)
    requires p <= |xs| && n <= |xs| + 1
    ensures Sum(Insert<Scored>(xs, p, e), n) == if n <= p then Sum(xs, n) else Sum(xs, n - 1) + e.score
  {
    hide Insert;
    if n > 0 {
      SumOfInsertion(xs, e, p, n - 1);
    }
  }

  // The scores a stable sort of the keys lists, added up.
  lemma {:induction false} PickedMass(s: Scores, n: nat)
    requires s.Valid() && n <= |s.order|
    ensures Sum(Pick(s, Arranged(Values(s), n)), n) == Mass(s, n)
  {
    hide Insert, Spot, Pick, Values;
    if n == 0 {
      assert Mass(s, 0) == 0.0;
    } else {
      var was := Arranged(Values(s), n - 1);
      var p := Spot(Values(s), was, n - 1, n - 1);
      var e := Scored(s.order[n - 1], s.of[s.order[n - 1]]);
      PickedMass(s, n - 1);
      PickInsert(s, was, p, n - 1);
      SumOfInsertion(Pick(s, was), e, p, n);
    }
  }

  // Fusing neither loses nor invents score: the scores listed add up to all the weights handed out.
  lemma MassIsConserved(rankings: seq<seq<Id>>, k: nat)
    requires k > 0
    ensures var flat := Flat(rankings, k, |rankings|);
            var fused := Fuse(rankings, k).value;
            Sum(fused, |fused|) == Sum(flat, |flat|)
  {
    var flat := Flat(rankings, k, |rankings|);
    TallyMass(flat, |flat|);
    PickedMass(Total(rankings, k), |Total(rankings, k).order|);
  }

  // ---------------------------------------------------------------- dominance

  ghost predicate Distinct(r: seq<Id>) {
    forall i, j :: 0 <= i < j < |r| ==> r[i] != r[j]
  }

  // The place of an id in a list that has it, counted from 1.
  function Rank(r: seq<Id>, id: Id, n: nat): (rank: nat)
    requires n <= |r| && id in r[..n]
    ensures 1 <= rank <= n && r[rank - 1] == id
  {
    if r[n - 1] == id then n
    else
      assert r[..n] == r[..n - 1] + [r[n - 1]];
      Rank(r, id, n - 1)
  }

  function RankOf(r: seq<Id>, id: Id): (rank: nat)
    requires id in r
    ensures 1 <= rank <= |r| && r[rank - 1] == id
  {
    assert r[..|r|] == r;
    Rank(r, id, |r|)
  }

  lemma {:induction false} ShareOfOne(r: seq<Id>, k: nat, id: Id, n: nat)
    requires Distinct(r) && n <= |r|
    ensures Share(r, k, id, n) == if id in r && RankOf(r, id) <= n then Weight(k, RankOf(r, id)) else 0.0
  {
    if n > 0 {
      ShareOfOne(r, k, id, n - 1);
    }
  }

  lemma WeightsDescend(k: nat, a: nat, b: nat)
    requires k + a > 0 && a <= b
    ensures Weight(k, a) >= Weight(k, b)
    ensures a < b ==> Weight(k, a) > Weight(k, b)
  {
    var x, y := (k + a) as real, (k + b) as real;
    assert 0.0 < x <= y;
    Reciprocals(x, y);
  }

  lemma Reciprocals(x: real, y: real)
    requires 0.0 < x <= y
    ensures 1.0 / x >= 1.0 / y
    ensures x < y ==> 1.0 / x > 1.0 / y
  {
    assert 1.0 / x - 1.0 / y == (y - x) / (x * y);
    assert x * y > 0.0;
  }

  ghost predicate NoWorse(r: seq<Id>, a: Id, b: Id) {
    b in r ==> a in r && RankOf(r, a) <= RankOf(r, b)
  }

  ghost predicate Better(r: seq<Id>, a: Id, b: Id) {
    a in r && (b in r ==> RankOf(r, a) < RankOf(r, b))
  }

  lemma BetterShare(r: seq<Id>, k: nat, a: Id, b: Id)
    requires Distinct(r) && NoWorse(r, a, b)
    ensures Share(r, k, a, |r|) >= Share(r, k, b, |r|)
    ensures Better(r, a, b) ==> Share(r, k, a, |r|) > Share(r, k, b, |r|)
  {
    hide Share, RankOf, Weight;
    ShareOfOne(r, k, a, |r|);
    ShareOfOne(r, k, b, |r|);
    if b in r {
      WeightsDescend(k, RankOf(r, a), RankOf(r, b));
    }
  }

  lemma {:induction false} BetterScore(rankings: seq<seq<Id>>, k: nat, a: Id, b: Id, m: nat)
    requires m <= |rankings|
    requires forall i :: 0 <= i < |rankings| ==> Distinct(rankings[i]) && NoWorse(rankings[i], a, b)
    ensures Score(rankings, k, a, m) >= Score(rankings, k, b, m)
    ensures (exists i :: 0 <= i < m && Better(rankings[i], a, b))
        ==> Score(rankings, k, a, m) > Score(rankings, k, b, m)
  {
    hide Share, Distinct, NoWorse, Better;
    if m > 0 {
      BetterScore(rankings, k, a, b, m - 1);
      BetterShare(rankings[m - 1], k, a, b);
    }
  }

  // An id ranked no worse in every list, and better in one, is listed before the other.
  lemma DominantComesFirst(rankings: seq<seq<Id>>, k: nat, i: nat, j: nat)
    requires k > 0 && i < |Fuse(rankings, k).value| && j < |Fuse(rankings, k).value|
    requires var a, b := Fuse(rankings, k).value[i].id, Fuse(rankings, k).value[j].id;
             && (forall l :: 0 <= l < |rankings| ==> Distinct(rankings[l]) && NoWorse(rankings[l], a, b))
             && (exists l :: 0 <= l < |rankings| && Better(rankings[l], a, b))
    ensures i < j
  {
    hide Distinct, NoWorse, Better, Fuse, Score, SeenFirst;
    var fused := Fuse(rankings, k).value;
    BetterScore(rankings, k, fused[i].id, fused[j].id, |rankings|);
    FusedMeaning(rankings, k);
  }

  // ---------------------------------------------------------------- two lists

  lemma ScoreOfTwo(a: seq<Id>, b: seq<Id>, k: nat, id: Id)
    ensures Score([a, b], k, id, 2) == Share(a, k, id, |a|) + Share(b, k, id, |b|)
  {
    hide Share;
    assert Score([a, b], k, id, 2) == Score([a, b], k, id, 1) + Share(b, k, id, |b|);
    assert Score([a, b], k, id, 1) == Score([a, b], k, id, 0) + Share(a, k, id, |a|);
  }

  // Two of the weight at rank k+2 make exactly the weight at rank 1.
  lemma TwiceAtTheEdge(k: nat)
    ensures Weight(k, k + 2) + Weight(k, k + 2) == Weight(k, 1)
  {
    var x := (k + 1) as real;
    assert (k + (k + 2)) as real == 2.0 * x;
    assert 1.0 / (2.0 * x) + 1.0 / (2.0 * x) == 1.0 / x;
  }

  lemma BothBeatsOne(a: seq<Id>, b: seq<Id>, k: nat, x: Id, y: Id)
    requires Distinct(a) && Distinct(b) && |a| <= k + 1 && |b| <= k + 1
    requires x in a && x in b && !(y in a && y in b)
    ensures Score([a, b], k, x, 2) > Score([a, b], k, y, 2)
  {
    hide Share, Score, Weight, RankOf;
    ScoreOfTwo(a, b, k, x);
    ScoreOfTwo(a, b, k, y);
    ShareOfOne(a, k, x, |a|);
    ShareOfOne(b, k, x, |b|);
    ShareOfOne(a, k, y, |a|);
    ShareOfOne(b, k, y, |b|);
    WeightsDescend(k, RankOf(a, x), k + 2);
    WeightsDescend(k, RankOf(b, x), k + 2);
    TwiceAtTheEdge(k);
    if y in a {
      WeightsDescend(k, 1, RankOf(a, y));
    }
    if y in b {
      WeightsDescend(k, 1, RankOf(b, y));
    }
  }

  // Every id listed before one that both lists have is itself one that both have.
  ghost predicate BothFirst(a: seq<Id>, b: seq<Id>, k: nat)
    requires k > 0
  {
    var fused := Fuse([a, b], k).value;
    forall i, j :: 0 <= i < j < |fused| && fused[j].id in a && fused[j].id in b ==> fused[i].id in a && fused[i].id in b
  }

  lemma ShortListsPutBothFirst(a: seq<Id>, b: seq<Id>, k: nat)
    requires k > 0 && Distinct(a) && Distinct(b) && |a| <= k + 1 && |b| <= k + 1
    ensures BothFirst(a, b, k)
  {
    hide Fuse, Score, SeenFirst, Distinct;
    FusedMeaning([a, b], k);
    var fused := Fuse([a, b], k).value;
    forall i, j | 0 <= i < j < |fused| && fused[j].id in a && fused[j].id in b
      ensures fused[i].id in a && fused[i].id in b
    {
      if !(fused[i].id in a && fused[i].id in b) {
        BothBeatsOne(a, b, k, fused[j].id, fused[i].id);
        assert false;
      }
    }
  }

  // Lists of k+2: the last of both ties with the first of one, which was met first.
  lemma AtTheEdge(k: nat) returns (a: seq<Id>, b: seq<Id>)
    requires k > 0
    ensures Distinct(a) && Distinct(b) && |a| == |b| == k + 2 && !BothFirst(a, b, k)
  {
    hide Fuse, Score, Flat, Share, Weight, RankOf;
    var n := k + 2;
    a, b := seq(n, i requires 0 <= i => i), seq(n, i requires 0 <= i => if i == k + 1 then i else i + n);
    var fused := Fuse([a, b], k).value;
    FusedMeaning([a, b], k);
    ScoreOfTwo(a, b, k, 0);
    ScoreOfTwo(a, b, k, k + 1);
    assert a[0] == 0 && a[k + 1] == k + 1 && b[k + 1] == k + 1 && 0 !in b;
    ShareOfOne(a, k, 0, n);
    ShareOfOne(b, k, 0, n);
    ShareOfOne(a, k, k + 1, n);
    ShareOfOne(b, k, k + 1, n);
    TwiceAtTheEdge(k);
    assert Occurs([a, b], 0) && Occurs([a, b], k + 1) by { assert a in [a, b] && 0 in a && k + 1 in a; }
    var i :| 0 <= i < |fused| && fused[i].id == 0;
    var j :| 0 <= j < |fused| && fused[j].id == k + 1;
    assert fused[i].score == fused[j].score;
    FlatStarts(a, b, k);
    assert !SeenFirst(Flat([a, b], k, 2), k + 1, 0);
    assert i < j;
    assert fused[j].id in a && fused[j].id in b && fused[i].id !in b;
  }

  lemma FlatStarts(a: seq<Id>, b: seq<Id>, k: nat)
    requires |a| > 0
    ensures |Flat([a, b], k, 2)| > 0 && Flat([a, b], k, 2)[0].id == a[0]
  {
    assert Flat([a, b], k, 2) == Flat([a, b], k, 1) + Entries(b, k, |b|);
    assert Flat([a, b], k, 1) == Flat([a, b], k, 0) + Entries(a, k, |a|);
    EntryIds(a, k, |a|);
  }

  lemma {:induction false} EntryIds(ranking: seq<Id>, k: nat, n: nat)
    requires n <= |ranking|
    ensures forall p :: 0 <= p < n ==> Entries(ranking, k, n)[p].id == ranking[p]
  {
    if n > 0 {
      EntryIds(ranking, k, n - 1);
    }
  }

  ghost predicate BothAlwaysFirst(k: nat, n: nat)
    requires k > 0
  {
    forall a, b :: Distinct(a) && Distinct(b) && |a| <= n && |b| <= n ==> BothFirst(a, b, k)
  }

  // Being in both lists always beats being in one exactly while the lists have at most k+1 places.
  lemma BothFirstIff(k: nat, n: nat)
    requires k > 0
    ensures BothAlwaysFirst(k, n) <==> n <= k + 1
  {
    hide Distinct, BothFirst;
    if n <= k + 1 {
      forall a, b | Distinct(a) && Distinct(b) && |a| <= n && |b| <= n ensures BothFirst(a, b, k) {
        ShortListsPutBothFirst(a, b, k);
      }
    } else {
      var a, b := AtTheEdge(k);
      assert !BothFirst(a, b, k);
    }
  }
}
