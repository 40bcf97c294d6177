// Which chunks an answer of retrieval holds, in which order and with which score (app/rag/retriever.py:84-134):
// with the reranker on, without it, and with one leg only.
module RetrieverAnswer {
  import opened Prelude
  import opened Fusion
  import opened Retriever

  // ---------------------------------------------------------------- the front of a list

  // The hits are the first of the list: at most top of them, as many as the characters allow.
  ghost predicate IsFront(hits: seq<Hit>, all: seq<Hit>, top: nat, chars: int) {
    && hits <= all && |hits| <= top
    && (hits != [] ==> Characters(hits) <= chars)
    && (|hits| == top || |hits| == |all| || Characters(all[..|hits| + 1]) > chars)
  }

  function Characters(hits: seq<Hit>): nat {
    if hits == [] then 0 else Characters(hits[..|hits| - 1]) + |hits[|hits| - 1].row.content|
  }

  lemma {:induction false} CharactersAre(hits: seq<Hit>, n: nat)
    requires n <= |hits|
    ensures Characters(hits[..n]) == Length(hits, n)
  {
    if n > 0 {
      CharactersAre(hits, n - 1);
      assert hits[..n][..n - 1] == hits[..n - 1];
    }
  }

  lemma BudgetIsFront(all: seq<Hit>, top: nat, chars: int)
    ensures IsFront(Budgeted(Head(all, top), chars), all, top, chars)
  {
    hide Length, Characters;
    var head := Head(all, top);
    var n := CutFrom(head, chars, 0);
    CharactersAre(head, n);
    if n < |head| {
      CharactersAre(head, n + 1);
      assert all[..n + 1] == head[..n + 1];
    }
  }

  // ---------------------------------------------------------------- with the reranker

  // A permutation's front: no position twice, and each before every position behind it or left out -
  // by a higher score, or by coming first.
  ghost predicate BestFirst(scores: seq<real>, at: seq<nat>) {
    && (forall i :: 0 <= i < |at| ==> at[i] < |scores|)
    && (forall i, j :: 0 <= i < j < |at| ==> at[i] != at[j] && Before(scores, at[i], at[j]))
    && (forall i, x: nat :: 0 <= i < |at| && x < |scores| && x !in at ==> Before(scores, at[i], x))
  }

  ghost predicate Before(scores: seq<real>, x: nat, y: nat)
    requires x < |scores| && y < |scores|
  {
    scores[x] > scores[y] || (scores[x] == scores[y] && x < y)
  }

  lemma FrontIsBest(scores: seq<real>, n: nat)
    requires n <= |scores|
    ensures BestFirst(scores, Arranged(scores, |scores|)[..n])
  {
    hide Arranged;
    ArrangedIsStable(scores);
    var all := Arranged(scores, |scores|);
    var at := all[..n];
    forall i, j | 0 <= i < j < |all| ensures all[i] != all[j] && Before(scores, all[i], all[j]) {
      assert Leads(scores, all[i], all[j]);
    }
    forall i, x: nat | 0 <= i < |at| && x < |scores| && x !in at ensures Before(scores, at[i], x) {
      assert Has(all, x);
      var j :| 0 <= j < |all| && all[j] == x;
      assert forall l :: 0 <= l < n ==> at[l] == all[l];
    }
  }

  // Hit h is candidate c with the score the ranker gave it.
  ghost predicate IsRescored(h: Hit, c: Hit, score: real) {
    && h.row.id == c.row.id && h.row.content == c.row.content && h.row.url == c.row.url && h.via == c.via
    && h.row.score == score
  }

  lemma ReorderedMeaning(hits: seq<Hit>, scores: seq<real>)
    requires |scores| == |hits|
    ensures var at := Arranged(scores, |scores|);
            |at| == |hits|
            && forall i :: 0 <= i < |at| ==>
                 at[i] < |hits| && IsRescored(Reordered(hits, scores)[i], hits[at[i]], scores[at[i]])
  {
    hide Arranged;
  }

  // The window as the two legs and the fusion make it.
  function WindowOf(denseRows: seq<Row>, sparseRows: seq<Row>, cfg: Config): seq<Hit>
    requires cfg.rrfK > 0
  {
    Window(DenseLeg(denseRows, cfg), Head(sparseRows, cfg.candidates), cfg)
  }

  // Main result with the reranker on: the answer is the front of the candidates in the order of the
  // ranker's scores, ties in fused order. Each hit is a candidate, once, with the score the ranker gave
  // to that candidate's own content, and whatever is left out does not score higher.
  lemma RerankedAnswer(query: string, denseRows: seq<Row>, sparseRows: seq<Row>, ranker: seq<string> -> seq<real>,
                       cfg: Config) returns (at: seq<nat>)
    requires Strip(query) != "" && cfg.hybrid && cfg.rerank && cfg.rrfK > 0 && cfg.topK >= 0 && cfg.candidates >= 0
    requires WindowOf(denseRows, sparseRows, cfg) != []
    ensures var window := WindowOf(denseRows, sparseRows, cfg);
            var contents := seq(|window|, i requires 0 <= i < |window| => window[i].row.content);
            var scores := ranker(contents);
            var r := Retrieved(query, denseRows, sparseRows, ranker, cfg);
            && (r.Hits? <==> |scores| == |window|) && (!r.Hits? ==> r == LengthMismatch)
            && (r.Hits? ==>
                  && |at| == |r.hits| && BestFirst(scores, at)
                  && (forall i :: 0 <= i < |at| ==> IsRescored(r.hits[i], window[at[i]], scores[at[i]]))
                  && |r.hits| <= cfg.topK && (r.hits != [] ==> Characters(r.hits) <= cfg.maxChars)
                  && exists all :: Reranked(all, window, scores) && IsFront(r.hits, all, cfg.topK, cfg.maxChars))
  {
    hide Window, DenseLeg, Arranged, Reordered, Budgeted, Characters, IsRescored, BestFirst, Strip, Head, IsFront;
    var window := WindowOf(denseRows, sparseRows, cfg);
    var scores := ranker(Contents(window));
    assert Contents(window) == seq(|window|, i requires 0 <= i < |window| => window[i].row.content);
    at := [];
    if |scores| == |window| {
      var all := Reordered(window, scores);
      ReorderedMeaning(window, scores);
      BudgetIsFront(all, cfg.topK, cfg.maxChars);
      var hits := Budgeted(Head(all, cfg.topK), cfg.maxChars);
      FrontLength(hits, all, cfg.topK, cfg.maxChars);
      at := Arranged(scores, |scores|)[..|hits|];
      FrontIsBest(scores, |hits|);
      WholeIsReranked(window, scores);
    }
  }

  lemma FrontLength(hits: seq<Hit>, all: seq<Hit>, top: nat, chars: int)
    requires IsFront(hits, all, top, chars)
    ensures |hits| <= |all| && |hits| <= top && (hits != [] ==> Characters(hits) <= chars)
    ensures forall i :: 0 <= i < |hits| ==> hits[i] == all[i]
  {
  }

  // All the candidates, rescored and best first.
  ghost predicate Reranked(all: seq<Hit>, window: seq<Hit>, scores: seq<real>)
    requires |scores| == |window|
  {
    |all| == |window| && exists at: seq<nat> :: RerankedBy(all, window, scores, at)
  }

  ghost predicate RerankedBy(all: seq<Hit>, window: seq<Hit>, scores: seq<real>, at: seq<nat>)
    requires |scores| == |window| == |all|
  {
    |at| == |all| && BestFirst(scores, at)
    && forall i :: 0 <= i < |at| ==> at[i] < |window| && IsRescored(all[i], window[at[i]], scores[at[i]])
  }

  lemma WholeIsReranked(window: seq<Hit>, scores: seq<real>)
    requires |scores| == |window|
    ensures Reranked(Reordered(window, scores), window, scores)
  {
    hide Arranged, Reordered, BestFirst, IsRescored;
    ReorderedMeaning(window, scores);
    FrontIsBest(scores, |scores|);
    var at := Arranged(scores, |scores|);
    assert at[..|scores|] == at;
    assert RerankedBy(Reordered(window, scores), window, scores, at);
  }

  // ---------------------------------------------------------------- without it

  // With the reranker off, or nothing to rank, the answer is the front of the window itself.
  lemma FusedAnswer(query: string, denseRows: seq<Row>, sparseRows: seq<Row>, ranker: seq<string> -> seq<real>,
                    cfg: Config)
    requires Strip(query) != "" && cfg.hybrid && cfg.rrfK > 0 && cfg.topK >= 0 && cfg.candidates >= 0
    requires !cfg.rerank || WindowOf(denseRows, sparseRows, cfg) == []
    ensures var r := Retrieved(query, denseRows, sparseRows, ranker, cfg);
            r.Hits? && IsFront(r.hits, WindowOf(denseRows, sparseRows, cfg), cfg.topK, cfg.maxChars)
  {
    hide Window, DenseLeg, Budgeted, Characters, Strip, Head, IsFront, Reordered;
    BudgetIsFront(WindowOf(denseRows, sparseRows, cfg), cfg.topK, cfg.maxChars);
  }

  // ---------------------------------------------------------------- the legs

  ghost function PassedBefore(rows: seq<Row>, minScore: real, n: nat): set<nat>
    requires n <= |rows|
  {
    set i: nat | i < n && rows[i].score >= minScore
  }

  // The rows that pass the threshold, all of them, in order.
  ghost predicate IsPassing(out: seq<Row>, rows: seq<Row>, minScore: real) {
    && |out| == |PassedBefore(rows, minScore, |rows|)|
    && forall i: nat :: i < |rows| && rows[i].score >= minScore ==>
         |PassedBefore(rows, minScore, i)| < |out| && out[|PassedBefore(rows, minScore, i)|] == rows[i]
  }

  lemma PassedNext(rows: seq<Row>, minScore: real, n: nat)
    requires n < |rows|
    ensures |PassedBefore(rows, minScore, n + 1)|
            == |PassedBefore(rows, minScore, n)| + (if rows[n].score >= minScore then 1 else 0)
  {
    assert PassedBefore(rows, minScore, n + 1)
        == PassedBefore(rows, minScore, n) + (if rows[n].score >= minScore then {n} else {});
  }

  lemma {:induction false} PassingMeaning(rows: seq<Row>, minScore: real, n: nat)
    requires n <= |rows|
    ensures |Passing(rows, minScore, n)| == |PassedBefore(rows, minScore, n)|
    ensures forall i: nat :: i < n && rows[i].score >= minScore ==>
              |PassedBefore(rows, minScore, i)| < |Passing(rows, minScore, n)|
              && Passing(rows, minScore, n)[|PassedBefore(rows, minScore, i)|] == rows[i]
  {
    hide PassedBefore;
    if n == 0 {
      NonePassed(rows, minScore);
    } else {
      PassingMeaning(rows, minScore, n - 1);
      PassedNext(rows, minScore, n - 1);
    }
  }

  lemma NonePassed(rows: seq<Row>, minScore: real)
    ensures PassedBefore(rows, minScore, 0) == {}
  {
  }

  // The dense leg: of the first candidates (hybrid) or top_k rows, those that reach the threshold.
  lemma DenseLegMeaning(rows: seq<Row>, cfg: Config)
    requires if cfg.hybrid then cfg.candidates >= 0 else cfg.topK >= 0
    ensures var n := Min(|rows|, if cfg.hybrid then cfg.candidates else cfg.topK);
            IsPassing(DenseLeg(rows, cfg), rows[..n], cfg.minScore)
  {
    hide Passing, PassedBefore;
    var n := Min(|rows|, Limit(cfg));
    PassingMeaning(rows[..n], cfg.minScore, n);
  }

  // With one leg only, the answer is the front of that leg, with its own scores and no label.
  lemma PlainAnswer(query: string, denseRows: seq<Row>, sparseRows: seq<Row>, ranker: seq<string> -> seq<real>,
                    cfg: Config)
    requires Strip(query) != "" && !cfg.hybrid && cfg.topK >= 0
    ensures var r := Retrieved(query, denseRows, sparseRows, ranker, cfg);
            var leg := DenseLeg(denseRows, cfg);
            var all := seq(|leg|, i requires 0 <= i < |leg| => Hit(leg[i], Unset));
            r.Hits? && IsFront(r.hits, all, |leg|, cfg.maxChars)
  {
    hide DenseLeg, Budgeted, Characters, Strip, Head, IsFront;
    var leg := DenseLeg(denseRows, cfg);
    BudgetIsFront(Plain(leg), |leg|, cfg.maxChars);
    WholeHead(Plain(leg));
  }

  lemma WholeHead(hits: seq<Hit>)
    ensures Head(hits, |hits|) == hits
  {
  }

  // ---------------------------------------------------------------- the candidates

  // A candidate is a row of a leg, the dense one if it has it, under its own id, with its content and
  // link, and the fused score.
  ghost predicate FromLeg(h: Hit, dense: seq<Row>, sparse: seq<Row>, e: Scored) {
    && h.row.id == e.id && h.row.score == e.score
    && exists row :: (if e.id in Ids(dense) then row in dense else row in sparse) && SameChunk(row, h.row)
  }

  predicate SameChunk(a: Row, b: Row) {
    a.id == b.id && a.content == b.content && a.url == b.url
  }

  lemma {:induction false} DenseRowsKept(rows: seq<Row>, n: nat, id: Id)
    requires n <= |rows| && id in WithDense(rows, n)
    ensures WithDense(rows, n)[id].row in rows && WithDense(rows, n)[id].row.id == id
  {
    if rows[n - 1].id != id {
      DenseRowsKept(rows, n - 1, id);
    }
  }

  lemma {:induction false} MergedRowsKept(dense: seq<Row>, sparse: seq<Row>, n: nat, id: Id)
    requires n <= |sparse| && id in WithSparse(WithDense(dense, |dense|), sparse, n)
    ensures var row := WithSparse(WithDense(dense, |dense|), sparse, n)[id].row;
            row.id == id && (if id in WithDense(dense, |dense|) then row in dense else row in sparse)
  {
    hide WithDense;
    if n == 0 {
      DenseRowsKept(dense, |dense|, id);
    } else if id in WithSparse(WithDense(dense, |dense|), sparse, n - 1) {
      MergedRowsKept(dense, sparse, n - 1, id);
    } else {
      MergedKeys(WithDense(dense, |dense|), sparse, n - 1);
    }
  }

  // The window is the fused list, cut to the candidates, each entry with the chunk it stands for.
  lemma WindowMeaning(dense: seq<Row>, sparse: seq<Row>, cfg: Config)
    requires cfg.rrfK > 0 && cfg.candidates >= 0
    ensures var fused := Fuse([Ids(dense), Ids(sparse)], cfg.rrfK).value;
            var window := Window(dense, sparse, cfg);
            && |window| == Min(|fused|, cfg.candidates)
            && forall i :: 0 <= i < |window| ==> FromLeg(window[i], dense, sparse, fused[i])
  {
    hide Fuse, WithSparse, WithDense;
    FusedAreMerged(dense, sparse, cfg.rrfK);
    var fused := Fuse([Ids(dense), Ids(sparse)], cfg.rrfK).value;
    var window := Window(dense, sparse, cfg);
    forall i | 0 <= i < |window| ensures FromLeg(window[i], dense, sparse, fused[i]) {
      MergedRowsKept(dense, sparse, |sparse|, fused[i].id);
      DenseKeys(dense, |dense|);
      assert Ids(dense)[..|dense|] == Ids(dense);
      assert SameChunk(Merged(dense, sparse)[fused[i].id].row, window[i].row);
    }
  }
}
