// Hybrid retrieval (app/rag/retriever.py) after the two SQL legs: threshold, fusion, rerank, cut and
// character budget. What the legs would return without a LIMIT, and the cross-encoder, are inputs.
module Retriever {
  import opened Prelude
  import opened Fusion

  datatype Row = Row(id: Id, content: string, url: string, score: real)

  datatype Via = Unset | Dense | Sparse | Both

  datatype Hit = Hit(row: Row, via: Via)

  datatype Config = Config(topK: int, minScore: real, maxChars: int, hybrid: bool,
                           rerank: bool, candidates: int, rrfK: int)

  datatype Result = Hits(hits: seq<Hit>) | NegativeLimit | BadK | LengthMismatch

  // xs[:n] for any n: a negative one counts from the end.
  function Head<T>(xs: seq<T>, n: int): (r: seq<T>)
    ensures r <= xs
    ensures n >= 0 ==> |r| == Min(|xs|, n)
  {
    xs[..if n >= 0 then Min(|xs|, n) else Max(0, |xs| + n)]
  }

  // Rows of the dense leg that pass the cosine threshold, among the first n.
  function Passing(rows: seq<Row>, minScore: real, n: nat): seq<Row>
    requires n <= |rows|
  {
    if n == 0 then []
    else Passing(rows, minScore, n - 1) + (if rows[n - 1].score >= minScore then [rows[n - 1]] else [])
  }

  function Ids(rows: seq<Row>): (r: seq<Id>)
    ensures |r| == |rows| && forall i :: 0 <= i < |r| ==> r[i] == rows[i].id
  {
    seq(|rows|, i requires 0 <= i < |rows| => rows[i].id)
  }

  type ById = map<Id, Hit>

  function WithDense(rows: seq<Row>, n: nat): ById
    requires n <= |rows|
  {
    if n == 0 then map[] else WithDense(rows, n - 1)[rows[n - 1].id := Hit(rows[n - 1], Dense)]
  }

  function PutSparse(m: ById, row: Row): ById {
    if row.id in m then m[row.id := m[row.id].(via := Both)] else m[row.id := Hit(row, Sparse)]
  }

  function WithSparse(m: ById, rows: seq<Row>, n: nat): ById
    requires n <= |rows|
  {
    if n == 0 then m else PutSparse(WithSparse(m, rows, n - 1), rows[n - 1])
  }

  function Merged(dense: seq<Row>, sparse: seq<Row>): ById {
    WithSparse(WithDense(dense, |dense|), sparse, |sparse|)
  }

  function Rescored(hit: Hit, score: real): Hit {
    hit.(row := hit.row.(score := score))
  }

  // The fused ids as hits, each with its fused score.
  function Candidates(m: ById, fused: seq<Scored>): (r: seq<Hit>)
    requires forall i :: 0 <= i < |fused| ==> fused[i].id in m
    ensures |r| == |fused|
  {
    seq(|fused|, i requires 0 <= i < |fused| => Rescored(m[fused[i].id], fused[i].score))
  }

  function Contents(hits: seq<Hit>): (r: seq<string>)
    ensures |r| == |hits|
  {
    seq(|hits|, i requires 0 <= i < |hits| => hits[i].row.content)
  }

  function Reordered(hits: seq<Hit>, scores: seq<real>): (r: seq<Hit>)
    requires |scores| == |hits|
    ensures |r| == |hits|
  {
    var at := Arranged(scores, |scores|);
    seq(|at|, i requires 0 <= i < |at| => Rescored(hits[at[i]], scores[at[i]]))
  }

  // ---------------------------------------------------------------- the character budget

  function Length(hits: seq<Hit>, n: nat): nat
    requires n <= |hits|
  {
    if n == 0 then 0 else Length(hits, n - 1) + |hits[n - 1].row.content|
  }

  // n is where the budget ends: the first n hits fit, and one more would not.
  ghost predicate IsBudgetCut(hits: seq<Hit>, chars: int, n: nat) {
    && n <= |hits|
    && (n > 0 ==> Length(hits, n) <= chars)
    && (n < |hits| ==> Length(hits, n + 1) > chars)
  }

  function CutFrom(hits: seq<Hit>, chars: int, n: nat): (cut: nat)
    requires n <= |hits| && (n > 0 ==> Length(hits, n) <= chars)
    ensures IsBudgetCut(hits, chars, cut)
    decreases |hits| - n
  {
    if n < |hits| && Length(hits, n + 1) <= chars then CutFrom(hits, chars, n + 1) else n
  }

  function Budgeted(hits: seq<Hit>, chars: int): seq<Hit> {
    hits[..CutFrom(hits, chars, 0)]
  }

  // The budget fixes the cut: there is exactly one such n.
  lemma {:induction false} LengthGrows(hits: seq<Hit>, m: nat, n: nat)
    requires m <= n <= |hits|
    ensures Length(hits, m) <= Length(hits, n)
  {
    if m < n {
      LengthGrows(hits, m, n - 1);
    }
  }

  lemma BudgetCutIsUnique(hits: seq<Hit>, chars: int, n: nat)
    requires IsBudgetCut(hits, chars, n)
    ensures Budgeted(hits, chars) == hits[..n]
  {
    hide Length;
    var m := CutFrom(hits, chars, 0);
    if m < n {
      LengthGrows(hits, m + 1, n);
    } else if n < m {
      LengthGrows(hits, n + 1, m);
    }
  }

  // _budget
  method Budget(hits: seq<Hit>, maxChars: int) returns (out: seq<Hit>)
    ensures out == Budgeted(hits, maxChars)
  {
    out := [];
    var budget := maxChars;
    for n := 0 to |hits|
      invariant out == hits[..n] && budget == maxChars - Length(hits, n)
      invariant n > 0 ==> Length(hits, n) <= maxChars
    {
      var content := hits[n].row.content;
      if budget - |content| < 0 {
        BudgetCutIsUnique(hits, maxChars, n);
        return;
      }
      budget := budget - |content|;
      out := out + [hits[n]];
    }
    BudgetCutIsUnique(hits, maxChars, |hits|);
  }

  // ---------------------------------------------------------------- retrieve

  function Limit(cfg: Config): int {
    if cfg.hybrid then cfg.candidates else cfg.topK
  }

  function DenseLeg(dense: seq<Row>, cfg: Config): seq<Row> {
    var rows := Head(dense, Limit(cfg));
    Passing(rows, cfg.minScore, |rows|)
  }

  function Plain(rows: seq<Row>): (r: seq<Hit>)
    ensures |r| == |rows|
  {
    seq(|rows|, i requires 0 <= i < |rows| => Hit(rows[i], Unset))
  }

  lemma {:induction false} DenseKeys(rows: seq<Row>, n: nat)
    requires n <= |rows|
    ensures forall id :: id in WithDense(rows, n) <==> id in Ids(rows)[..n]
    ensures forall id :: id in WithDense(rows, n) ==>
                           WithDense(rows, n)[id].via == Dense && WithDense(rows, n)[id].row.id == id
  {
    if n > 0 {
      DenseKeys(rows, n - 1);
      assert Ids(rows)[..n] == Ids(rows)[..n - 1] + [rows[n - 1].id];
    }
  }

  // Which legs found an id is what its hit says.
  ghost predicate SaysWhere(m: ById, dense: seq<Id>, sparse: seq<Id>) {
    forall id ::
      && (id in m <==> id in dense || id in sparse)
      && (id in m ==>
            && m[id].row.id == id
            && (m[id].via == Both <==> id in dense && id in sparse)
            && (m[id].via == Dense <==> id in dense && id !in sparse)
            && (m[id].via == Sparse <==> id !in dense && id in sparse))
  }

  lemma {:induction false} MergedSaysWhere(dense: seq<Row>, sparse: seq<Row>, n: nat)
    requires n <= |sparse|
    requires Distinct(Ids(sparse))
    ensures SaysWhere(WithSparse(WithDense(dense, |dense|), sparse, n), Ids(dense), Ids(sparse)[..n])
  {
    if n == 0 {
      DenseKeys(dense, |dense|);
      assert Ids(dense)[..|dense|] == Ids(dense);
    } else {
      MergedSaysWhere(dense, sparse, n - 1);
      assert Ids(sparse)[..n] == Ids(sparse)[..n - 1] + [sparse[n - 1].id];
      assert sparse[n - 1].id !in Ids(sparse)[..n - 1];
    }
  }

  // The ids that are in the map, whether or not a leg repeats one.
  lemma {:induction false} MergedKeys(m: ById, sparse: seq<Row>, n: nat)
    requires n <= |sparse|
    ensures forall id :: id in WithSparse(m, sparse, n) <==> id in m || id in Ids(sparse)[..n]
  {
    if n > 0 {
      MergedKeys(m, sparse, n - 1);
      assert Ids(sparse)[..n] == Ids(sparse)[..n - 1] + [sparse[n - 1].id];
    }
  }

  // Every fused id has a hit.
  lemma FusedAreMerged(dense: seq<Row>, sparse: seq<Row>, k: nat)
    requires k > 0
    ensures forall i :: 0 <= i < |Fuse([Ids(dense), Ids(sparse)], k).value| ==>
              Fuse([Ids(dense), Ids(sparse)], k).value[i].id in Merged(dense, sparse)
  {
    hide Fuse, Score, SeenFirst;
    var a, b := Ids(dense), Ids(sparse);
    FusedMeaning([a, b], k);
    DenseKeys(dense, |dense|);
    MergedKeys(WithDense(dense, |dense|), sparse, |sparse|);
    assert a[..|dense|] == a && b[..|sparse|] == b;
    var fused := Fuse([a, b], k).value;
    forall i | 0 <= i < |fused| ensures fused[i].id in Merged(dense, sparse) {
      assert Occurs([a, b], fused[i].id);
    }
  }

  // The candidates before reranking: the fused list, cut to the window.
  function Window(dense: seq<Row>, sparse: seq<Row>, cfg: Config): seq<Hit>
    requires cfg.rrfK > 0
  {
    FusedAreMerged(dense, sparse, cfg.rrfK);
    Candidates(Merged(dense, sparse), Head(Fuse([Ids(dense), Ids(sparse)], cfg.rrfK).value, cfg.candidates))
  }

  function Retrieved(query: string, denseRows: seq<Row>, sparseRows: seq<Row>,
                     ranker: seq<string> -> seq<real>, cfg: Config): Result
  {
    if Strip(query) == "" then Hits([])
    else if Limit(cfg) < 0 then NegativeLimit
    else
      var dense := DenseLeg(denseRows, cfg);
      if !cfg.hybrid then Hits(Budgeted(Plain(dense), cfg.maxChars))
      else if cfg.rrfK <= 0 then BadK
      else
        var window := Window(dense, Head(sparseRows, Limit(cfg)), cfg);
        var scores := ranker(Contents(window));
        if !cfg.rerank || window == [] then Hits(Budgeted(Head(window, cfg.topK), cfg.maxChars))
        else if |scores| != |window| then LengthMismatch
        else Hits(Budgeted(Head(Reordered(window, scores), cfg.topK), cfg.maxChars))
  }

  method MergeLegs(dense: seq<Row>, sparse: seq<Row>) returns (byId: ById)
    ensures byId == Merged(dense, sparse)
  {
    byId := map[];
    for n := 0 to |dense|
      invariant byId == WithDense(dense, n)
    {
      byId := byId[dense[n].id := Hit(dense[n], Dense)];
    }
    for n := 0 to |sparse|
      invariant byId == WithSparse(WithDense(dense, |dense|), sparse, n)
    {
      var h := sparse[n];
      if h.id in byId {
        byId := byId[h.id := byId[h.id].(via := Both)];
      } else {
        byId := byId[h.id := Hit(h, Sparse)];
      }
    }
  }

  method Filter(rows: seq<Row>, minScore: real) returns (out: seq<Row>)
    ensures out == Passing(rows, minScore, |rows|)
  {
    out := [];
    for n := 0 to |rows|
      invariant out == Passing(rows, minScore, n)
    {
      if rows[n].score >= minScore {
        out := out + [rows[n]];
      }
    }
  }

  method Retrieve(query: string, denseRows: seq<Row>, sparseRows: seq<Row>,
                  ranker: seq<string> -> seq<real>, cfg: Config) returns (r: Result)
    ensures r == Retrieved(query, denseRows, sparseRows, ranker, cfg)
  {
    hide Fuse, Merged, Arranged, Strip, StableDescending, Head, Candidates, Ids, Budgeted;
    if Strip(query) == "" {
      return Hits([]);
    }
    var n := if cfg.hybrid then cfg.candidates else cfg.topK;
    if n < 0 {
      return NegativeLimit;
    }
    var dense := Filter(Head(denseRows, n), cfg.minScore);
    if !cfg.hybrid {
      var out := Budget(Plain(dense), cfg.maxChars);
      return Hits(out);
    }
    var sparse := Head(sparseRows, n);
    var byId := MergeLegs(dense, sparse);
    var fused := RrfFuse([Ids(dense), Ids(sparse)], cfg.rrfK);
    if fused.None? {
      return BadK;
    }
    FusedAreMerged(dense, sparse, cfg.rrfK);
    var candidates := Candidates(byId, Head(fused.value, cfg.candidates));
    if cfg.rerank && candidates != [] {
      var scores := ranker(Contents(candidates));
      if |scores| != |candidates| {
        return LengthMismatch;
      }
      var at := SortDescending(scores);
      candidates := seq(|at|, i requires 0 <= i < |at| => Rescored(candidates[at[i]], scores[at[i]]));
    }
    var out := Budget(Head(candidates, cfg.topK), cfg.maxChars);
    r := Hits(out);
  }

  // ---------------------------------------------------------------- what retrieval returns

  lemma {:induction false} PassingIds(rows: seq<Row>, minScore: real, n: nat)
    requires n <= |rows| && Distinct(Ids(rows))
    ensures |Passing(rows, minScore, n)| <= n
    ensures Distinct(Ids(Passing(rows, minScore, n)))
    ensures forall row :: row in Passing(rows, minScore, n) <==> row in rows[..n] && row.score >= minScore
  {
    if n > 0 {
      PassingIds(rows, minScore, n - 1);
      assert rows[..n] == rows[..n - 1] + [rows[n - 1]];
      var was := Passing(rows, minScore, n - 1);
      forall i | 0 <= i < |was| ensures was[i].id != rows[n - 1].id {
        assert was[i] in rows[..n - 1];
      }
    }
  }

  // Hits that both legs found come before hits that one leg found.
  ghost predicate BothLead(hits: seq<Hit>) {
    forall i, j :: 0 <= i < j < |hits| && hits[j].via == Both ==> hits[i].via == Both
  }

  lemma WindowLeads(dense: seq<Row>, sparse: seq<Row>, cfg: Config)
    requires Distinct(Ids(dense)) && Distinct(Ids(sparse)) && cfg.rrfK > 0
    requires |dense| <= cfg.rrfK + 1 && |sparse| <= cfg.rrfK + 1
    ensures BothLead(Window(dense, sparse, cfg))
    ensures forall i, j :: 0 <= i < j < |Window(dense, sparse, cfg)| ==>
              Window(dense, sparse, cfg)[i].row.id != Window(dense, sparse, cfg)[j].row.id
  {
    hide Fuse, Distinct, Score, SeenFirst, WithSparse, WithDense;
    var a, b := Ids(dense), Ids(sparse);
    var fused := Fuse([a, b], cfg.rrfK).value;
    FusedMeaning([a, b], cfg.rrfK);
    FusedAreMerged(dense, sparse, cfg.rrfK);
    ShortListsPutBothFirst(a, b, cfg.rrfK);
    MergedSaysWhere(dense, sparse, |sparse|);
    assert b[..|sparse|] == b;
    var window := Window(dense, sparse, cfg);
    forall i | 0 <= i < |window| ensures window[i].row.id == fused[i].id {
    }
  }

  // With reranking off and a window of at most rrf_k + 1, hybrid retrieval returns what both legs
  // found before what one found, each chunk once, within top_k and the character budget.
  lemma BothLegsComeFirst(query: string, denseRows: seq<Row>, sparseRows: seq<Row>,
                          ranker: seq<string> -> seq<real>, cfg: Config)
    requires Strip(query) != "" && cfg.hybrid && !cfg.rerank && cfg.topK >= 0
    requires 0 <= cfg.candidates <= cfg.rrfK + 1 && cfg.rrfK > 0
    requires Distinct(Ids(denseRows)) && Distinct(Ids(sparseRows))
    ensures var r := Retrieved(query, denseRows, sparseRows, ranker, cfg);
            && r.Hits? && BothLead(r.hits)
            && (forall i, j :: 0 <= i < j < |r.hits| ==> r.hits[i].row.id != r.hits[j].row.id)
            && |r.hits| <= cfg.topK && (r.hits != [] ==> Length(r.hits, |r.hits|) <= cfg.maxChars)
  {
    hide Window, Distinct, CutFrom, Strip, Passing;
    var head := Head(denseRows, Limit(cfg));
    var dense, sparse := DenseLeg(denseRows, cfg), Head(sparseRows, Limit(cfg));
    DistinctHead(denseRows, Limit(cfg));
    DistinctHead(sparseRows, Limit(cfg));
    PassingIds(head, cfg.minScore, |head|);
    WindowLeads(dense, sparse, cfg);
    var top := Head(Window(dense, sparse, cfg), cfg.topK);
    var n := CutFrom(top, cfg.maxChars, 0);
    LengthOfPrefix(top, n, n);
  }

  lemma DistinctHead(rows: seq<Row>, n: int)
    requires Distinct(Ids(rows))
    ensures Distinct(Ids(Head(rows, n)))
  {
    var head := Head(rows, n);
    forall i, j | 0 <= i < j < |head| ensures Ids(head)[i] != Ids(head)[j] {
      assert Ids(head)[i] == Ids(rows)[i] && Ids(head)[j] == Ids(rows)[j];
    }
  }

  lemma {:induction false} LengthOfPrefix(hits: seq<Hit>, n: nat, m: nat)
    requires m <= n <= |hits|
    ensures Length(hits[..n], m) == Length(hits, m)
  {
    if m > 0 {
      LengthOfPrefix(hits, n, m - 1);
    }
  }

  ghost predicate Falling(hits: seq<Hit>) {
    forall i, j :: 0 <= i < j < |hits| ==> hits[i].row.score >= hits[j].row.score
  }

  lemma WindowFalls(dense: seq<Row>, sparse: seq<Row>, cfg: Config)
    requires cfg.rrfK > 0
    ensures Falling(Window(dense, sparse, cfg))
  {
    hide Fuse, Score, SeenFirst, Merged, Occurs;
    FusedAreMerged(dense, sparse, cfg.rrfK);
    FusedMeaning([Ids(dense), Ids(sparse)], cfg.rrfK);
  }

  lemma ReorderedFalls(hits: seq<Hit>, scores: seq<real>)
    requires |scores| == |hits|
    ensures Falling(Reordered(hits, scores))
  {
    hide Arranged;
    ArrangedIsStable(scores);
    var at := Arranged(scores, |scores|);
    forall i, j | 0 <= i < j < |at| ensures scores[at[i]] >= scores[at[j]] {
      assert Leads(scores, at[i], at[j]);
    }
  }

  // Hybrid retrieval answers best first, by the scores it hands out: the reranker's when it ran,
  // the fused ones otherwise.
  lemma HybridIsBestFirst(query: string, denseRows: seq<Row>, sparseRows: seq<Row>,
                          ranker: seq<string> -> seq<real>, cfg: Config)
    requires cfg.hybrid && Retrieved(query, denseRows, sparseRows, ranker, cfg).Hits?
    ensures Falling(Retrieved(query, denseRows, sparseRows, ranker, cfg).hits)
  {
    hide Window, Reordered, CutFrom, Strip, DenseLeg, Contents;
    if Strip(query) != "" && cfg.rrfK > 0 && Limit(cfg) >= 0 {
      var dense, sparse := DenseLeg(denseRows, cfg), Head(sparseRows, Limit(cfg));
      var window := Window(dense, sparse, cfg);
      WindowFalls(dense, sparse, cfg);
      if |ranker(Contents(window))| == |window| {
        ReorderedFalls(window, ranker(Contents(window)));
      }
    }
  }
}
