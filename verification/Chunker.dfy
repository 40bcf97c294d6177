// Sentence-aware chunking with overlap (app/rag/chunker.py). The normalised text and the raw output
// of the sentence regex are inputs; everything after them is modelled character by character.
module Chunker {
  import opened Prelude

  const MIN_CHUNK := 40
  const TARGET := 900
  const OVERLAP := 150

  // [p.strip() for p in split if p and p.strip()], over the first n entries.
  function Pieces(split: seq<string>, n: nat): seq<string>
    requires n <= |split|
  {
    if n == 0 then []
    else Pieces(split, n - 1) + (if Strip(split[n - 1]) != "" then [Strip(split[n - 1])] else [])
  }

  ghost predicate Clean(pieces: seq<string>) {
    forall i :: 0 <= i < |pieces| ==> pieces[i] != "" && Stripped(pieces[i])
  }

  lemma {:induction false} PiecesAreClean(split: seq<string>, n: nat)
    requires n <= |split|
    ensures Clean(Pieces(split, n))
  {
    hide Strip, Stripped;
    if n > 0 {
      PiecesAreClean(split, n - 1);
    }
  }

  // current[-overlap:], which is the whole of current when overlap is 0.
  function Tail(current: string, overlap: nat): (r: string)
    ensures |r| <= |current| && r == current[|current| - |r|..]
    ensures |r| == if overlap == 0 then |current| else Min(overlap, |current|)
  {
    if overlap == 0 || |current| <= overlap then current else current[|current| - overlap..]
  }

  // The slices an oversize piece is cut into, from position i on. A range with a negative step is empty.
  function Cuts(piece: string, i: nat, target: nat, overlap: nat): seq<string>
    decreases |piece| - i
  {
    if i < |piece| && overlap < target
    then [piece[i..Min(i + target, |piece|)]] + Cuts(piece, i + target - overlap, target, overlap)
    else []
  }

  datatype Draft = Draft(chunks: seq<string>, current: string)

  function Join(current: string, piece: string): string {
    Strip(current + " " + piece)
  }

  function Flush(d: Draft): seq<string> {
    if d.current != "" then d.chunks + [d.current] else d.chunks
  }

  function Add(d: Draft, piece: string, target: nat, overlap: nat): Draft {
    if |d.current| + |piece| + 1 <= target then d.(current := Join(d.current, piece))
    else if |piece| > target then Draft(Flush(d) + Cuts(piece, 0, target, overlap), "")
    else Draft(Flush(d), Join(Tail(d.current, overlap), piece))
  }

  // The state of the loop after n pieces.
  function Drafted(pieces: seq<string>, n: nat, target: nat, overlap: nat): Draft
    requires n <= |pieces|
  {
    if n == 0 then Draft([], "") else Add(Drafted(pieces, n - 1, target, overlap), pieces[n - 1], target, overlap)
  }

  // Every chunk before the final filter.
  function Chunks(pieces: seq<string>, target: nat, overlap: nat): seq<string> {
    Flush(Drafted(pieces, |pieces|, target, overlap))
  }

  function Kept(chunks: seq<string>, n: nat): seq<string>
    requires n <= |chunks|
  {
    if n == 0 then []
    else if |chunks[n - 1]| > MIN_CHUNK then Kept(chunks, n - 1) + [chunks[n - 1]]
    else Kept(chunks, n - 1)
  }

  function Long(chunks: seq<string>): seq<string> {
    Kept(chunks, |chunks|)
  }

  predicate Oversize(pieces: seq<string>, n: nat, target: nat)
    requires n <= |pieces|
  {
    exists i :: 0 <= i < n && |pieces[i]| > target
  }

  // chunk_text; None is the ValueError of a range with step 0, which needs an oversize piece.
  function ChunkText(text: string, pieces: seq<string>, target: nat, overlap: nat): Option<seq<string>> {
    if text == "" then Some([])
    else if |text| <= target then Some([text])
    else if overlap == target && Oversize(pieces, |pieces|, target) then None
    else Some(Long(Chunks(pieces, target, overlap)))
  }

  method Chunk(text: string, split: seq<string>, target: nat, overlap: nat) returns (r: Option<seq<string>>)
    ensures r == ChunkText(text, Pieces(split, |split|), target, overlap)
  {
    hide Strip, Join, Tail;
    if text == "" {
      return Some([]);
    }
    if |text| <= target {
      return Some([text]);
    }
    var pieces := [];
    for i := 0 to |split|
      invariant pieces == Pieces(split, i)
    {
      var p := Strip(split[i]);
      if p != "" {
        pieces := pieces + [p];
      }
    }
    var chunks: seq<string>, current := [], "";
    for n := 0 to |pieces|
      invariant Draft(chunks, current) == Drafted(pieces, n, target, overlap)
      invariant overlap == target ==> !Oversize(pieces, n, target)
    {
      var piece := pieces[n];
      if |current| + |piece| + 1 <= target {
        current := Join(current, piece);
        continue;
      }
      if current != "" {
        chunks := chunks + [current];
      }
      if |piece| > target {
        if target == overlap {
          assert Oversize(pieces, |pieces|, target);
          return None;
        }
        var cuts := CutUp(piece, target, overlap);
        chunks := chunks + cuts;
        current := "";
      } else {
        current := Join(Tail(current, overlap), piece);
      }
    }
    if current != "" {
      chunks := chunks + [current];
    }
    var kept := [];
    for n := 0 to |chunks|
      invariant kept == Kept(chunks, n)
    {
      if |chunks[n]| > MIN_CHUNK {
        kept := kept + [chunks[n]];
      }
    }
    r := Some(kept);
  }

  method CutUp(piece: string, target: nat, overlap: nat) returns (cuts: seq<string>)
    requires target != overlap
    ensures cuts == Cuts(piece, 0, target, overlap)
  {
    cuts := [];
    if target < overlap {
      return;
    }
    var i := 0;
    while i < |piece|
      invariant 0 <= i
      invariant cuts + Cuts(piece, i, target, overlap) == Cuts(piece, 0, target, overlap)
    {
      cuts := cuts + [piece[i..Min(i + target, |piece|)]];
      i := i + target - overlap;
    }
  }

  // ---------------------------------------------------------------- stripping a join

  lemma {:induction false} LeadingKeeps(s: string, piece: string, n: nat)
    requires n <= |s| && piece != "" && !IsSpace(piece[0])
    ensures Leading(s + piece, n) == Leading(s, n)
    decreases |s| - n
  {
    hide IsSpace;
    if n < |s| && IsSpace(s[n]) {
      LeadingKeeps(s, piece, n + 1);
    }
  }

  // What is left of the carried text when a clean piece is joined on.
  function Carry(current: string): (r: string)
    ensures |r| <= |current| + 1
    ensures r != "" ==> !IsSpace(r[0])
  {
    (current + " ")[Leading(current + " ", 0)..]
  }

  lemma CarryOf(current: string)
    ensures Stripped(current) && current != "" ==> Carry(current) == current + " "
    ensures current == "" ==> Carry(current) == ""
  {
    if current == "" {
      assert current + " " == " " && Leading(" ", 1) == 1;
    }
  }

  // Joining never touches the piece: it is the end of the new current, after what is carried.
  lemma JoinEnds(current: string, piece: string)
    requires piece != "" && Stripped(piece)
    ensures Join(current, piece) == Carry(current) + piece
    ensures Stripped(Join(current, piece))
  {
    hide IsSpace;
    var carried := current + " ";
    var joined := carried + piece;
    assert current + " " + piece == joined;
    LeadingKeeps(carried, piece, 0);
    assert joined[|joined| - 1] == piece[|piece| - 1];
    assert joined[Leading(carried, 0)..|joined|] == carried[Leading(carried, 0)..] + piece;
  }

  // The three branches of the loop body.
  lemma AddFits(d: Draft, piece: string, target: nat, overlap: nat)
    requires piece != "" && Stripped(piece) && Stripped(d.current) && |d.current| + |piece| + 1 <= target
    ensures Add(d, piece, target, overlap)
            == Draft(d.chunks, (if d.current == "" then "" else d.current + " ") + piece)
  {
    hide Join, Stripped, Carry, IsSpace, Strip;
    JoinEnds(d.current, piece);
    CarryOf(d.current);
  }

  lemma AddFlushes(d: Draft, piece: string, target: nat, overlap: nat)
    requires piece != "" && Stripped(piece) && target < |d.current| + |piece| + 1 && |piece| <= target
    ensures Add(d, piece, target, overlap) == Draft(Flush(d), Carry(Tail(d.current, overlap)) + piece)
  {
    hide Join, Stripped, Carry, IsSpace, Strip, Tail;
    JoinEnds(Tail(d.current, overlap), piece);
  }

  lemma AddCuts(d: Draft, piece: string, target: nat, overlap: nat)
    requires target < |piece|
    ensures Add(d, piece, target, overlap) == Draft(Flush(d) + Cuts(piece, 0, target, overlap), "")
  {
    hide Join, Cuts, Tail;
  }

  // ---------------------------------------------------------------- what the loop keeps

  lemma {:induction false} CutsAreShort(piece: string, i: nat, target: nat, overlap: nat)
    ensures forall c :: c in Cuts(piece, i, target, overlap) ==> 0 < |c| <= target
    decreases |piece| - i
  {
    if i < |piece| && overlap < target {
      CutsAreShort(piece, i + target - overlap, target, overlap);
    }
  }

  lemma {:induction false} CurrentIsStripped(pieces: seq<string>, n: nat, target: nat, overlap: nat)
    requires Clean(pieces) && n <= |pieces|
    ensures Stripped(Drafted(pieces, n, target, overlap).current)
  {
    hide Stripped, Join, Cuts, Flush, Tail;
    EmptyIsStripped();
    if n > 0 {
      var d := Drafted(pieces, n - 1, target, overlap);
      CurrentIsStripped(pieces, n - 1, target, overlap);
      JoinEnds(d.current, pieces[n - 1]);
      JoinEnds(Tail(d.current, overlap), pieces[n - 1]);
    }
  }

  lemma EmptyIsStripped()
    ensures Stripped("")
  {
  }

  ghost predicate Bounded(chunks: seq<string>, limit: nat) {
    forall i :: 0 <= i < |chunks| ==> |chunks[i]| <= limit
  }

  ghost predicate DraftBounded(d: Draft, limit: nat) {
    Bounded(d.chunks, limit) && |d.current| <= limit
  }

  lemma AddKeepsBound(d: Draft, piece: string, target: nat, overlap: nat)
    requires piece != "" && Stripped(piece) && Stripped(d.current) && overlap > 0
    requires DraftBounded(d, target + overlap + 1)
    ensures DraftBounded(Add(d, piece, target, overlap), target + overlap + 1)
  {
    hide Add, Stripped, IsSpace, Cuts, Carry;
    if |d.current| + |piece| + 1 <= target {
      AddFits(d, piece, target, overlap);
    } else if |piece| > target {
      AddCuts(d, piece, target, overlap);
      CutsAreShort(piece, 0, target, overlap);
    } else {
      AddFlushes(d, piece, target, overlap);
    }
  }

  lemma {:induction false} DraftIsBounded(pieces: seq<string>, n: nat, target: nat, overlap: nat)
    requires Clean(pieces) && n <= |pieces| && overlap > 0
    ensures DraftBounded(Drafted(pieces, n, target, overlap), target + overlap + 1)
  {
    hide Add, Stripped;
    if n > 0 {
      DraftIsBounded(pieces, n - 1, target, overlap);
      CurrentIsStripped(pieces, n - 1, target, overlap);
      AddKeepsBound(Drafted(pieces, n - 1, target, overlap), pieces[n - 1], target, overlap);
    }
  }

  lemma BoundHolds(pieces: seq<string>, target: nat, overlap: nat)
    requires Clean(pieces) && overlap > 0
    ensures Bounded(Chunks(pieces, target, overlap), target + overlap + 1)
  {
    hide Add, Drafted;
    DraftIsBounded(pieces, |pieces|, target, overlap);
  }

  // With overlap 0 the carried tail is everything, and two pieces of the target length make a chunk
  // of twice that and a space.
  lemma BoundFailsWithoutOverlap(p: string, q: string, target: nat)
    requires target > 0 && |p| == |q| == target && Stripped(p) && Stripped(q)
    ensures Chunks([p, q], target, 0) == [p, p + " " + q]
  {
    hide Add, Stripped, Carry, IsSpace;
    var pieces := [p, q];
    var d0, d1, d2 := Drafted(pieces, 0, target, 0), Drafted(pieces, 1, target, 0), Drafted(pieces, 2, target, 0);
    AddFlushes(d0, p, target, 0);
    CarryOf("");
    assert d1 == Draft([], p) by { assert Tail("", 0) == "" && "" + p == p; }
    AddFlushes(d1, q, target, 0);
    CarryOf(p);
    assert d2 == Draft([p], p + " " + q) by { assert Tail(p, 0) == p && [] + [p] == [p]; }
  }

  ghost predicate AlwaysBounded(target: nat, overlap: nat) {
    forall pieces :: Clean(pieces) ==> Bounded(Chunks(pieces, target, overlap), target + overlap + 1)
  }

  // The length bound holds of every chunk of every text exactly when there is an overlap.
  lemma BoundIff(target: nat, overlap: nat)
    requires target > 0
    ensures AlwaysBounded(target, overlap) <==> overlap > 0
  {
    hide Chunks, IsSpace;
    if overlap > 0 {
      forall pieces | Clean(pieces) ensures Bounded(Chunks(pieces, target, overlap), target + overlap + 1) {
        BoundHolds(pieces, target, overlap);
      }
    } else {
      UnboundedWithoutOverlap(target);
    }
  }

  lemma UnboundedWithoutOverlap(target: nat)
    requires target > 0
    ensures !AlwaysBounded(target, 0)
  {
    hide Chunks;
    var p := seq(target, _ => 'x');
    BoundFailsWithoutOverlap(p, p, target);
    var pieces := [p, p];
    assert Clean(pieces);
    assert Chunks(pieces, target, 0)[1] == p + " " + p;
  }

  // ---------------------------------------------------------------- no sentence is cut

  // s is a contiguous part of c, starting at the given offset.
  predicate Within(s: string, c: string, at: int) {
    0 <= at && at + |s| <= |c| && c[at..at + |s|] == s
  }

  ghost predicate Starts(s: string, c: string) {
    |s| <= |c| && s == c[..|s|]
  }

  ghost predicate ChunksStart(a: seq<string>, b: seq<string>) {
    |a| <= |b| && a == b[..|a|]
  }

  // What adding a piece does to the chunks so far and to the current text.
  lemma AddExtends(d: Draft, piece: string, target: nat, overlap: nat)
    requires piece != "" && Stripped(piece) && Stripped(d.current)
    ensures var e := Add(d, piece, target, overlap);
            && ChunksStart(d.chunks, e.chunks)
            && (d.current != "" ==>
                  || (e.chunks == d.chunks && Starts(d.current, e.current) && |d.current| < |e.current|)
                  || (|d.chunks| < |e.chunks| && e.chunks[|d.chunks|] == d.current))
            && (|piece| <= target ==> Within(piece, e.current, |e.current| - |piece|))
  {
    hide Add, Stripped, IsSpace, Cuts, Carry;
    if |d.current| + |piece| + 1 <= target {
      AddFits(d, piece, target, overlap);
    } else if |piece| > target {
      AddCuts(d, piece, target, overlap);
    } else {
      AddFlushes(d, piece, target, overlap);
    }
  }

  // Once written, a chunk stays where it is; and the current text, growing only at its end, becomes
  // the next chunk.
  lemma {:induction false} CurrentLands(pieces: seq<string>, m: nat, n: nat, target: nat, overlap: nat)
    requires Clean(pieces) && m <= n <= |pieces|
    requires Drafted(pieces, m, target, overlap).current != ""
    ensures var d := Drafted(pieces, m, target, overlap);
            var e := Drafted(pieces, n, target, overlap);
            || (e.chunks == d.chunks && Starts(d.current, e.current) && (m < n ==> |d.current| < |e.current|))
            || (|d.chunks| < |e.chunks| && Starts(d.current, e.chunks[|d.chunks|]))
    decreases n - m
  {
    hide Add, Stripped;
    if m < n {
      CurrentLands(pieces, m, n - 1, target, overlap);
      CurrentIsStripped(pieces, n - 1, target, overlap);
      AddExtends(Drafted(pieces, n - 1, target, overlap), pieces[n - 1], target, overlap);
    }
  }

  // Where a small piece lands: the number of the chunk, and the offset in it.
  function Home(pieces: seq<string>, i: nat, target: nat, overlap: nat): (nat, int)
    requires i < |pieces|
  {
    var d := Drafted(pieces, i + 1, target, overlap);
    (|d.chunks|, |d.current| - |pieces[i]|)
  }

  // A piece of at most the target length is a contiguous part of the chunk it lands in.
  lemma SmallPieceIsWhole(pieces: seq<string>, i: nat, target: nat, overlap: nat)
    requires Clean(pieces) && i < |pieces| && |pieces[i]| <= target
    ensures var (k, at) := Home(pieces, i, target, overlap);
            && k < |Chunks(pieces, target, overlap)|
            && Within(pieces[i], Chunks(pieces, target, overlap)[k], at)
  {
    hide Add, Stripped;
    CurrentIsStripped(pieces, i, target, overlap);
    AddExtends(Drafted(pieces, i, target, overlap), pieces[i], target, overlap);
    CurrentLands(pieces, i + 1, |pieces|, target, overlap);
    var d := Drafted(pieces, i + 1, target, overlap);
    var c := Chunks(pieces, target, overlap)[|d.chunks|];
    assert Starts(d.current, c);
  }

  lemma {:induction false} ChunksGrow(pieces: seq<string>, m: nat, n: nat, target: nat, overlap: nat)
    requires m <= n <= |pieces|
    ensures |Drafted(pieces, m, target, overlap).chunks| <= |Drafted(pieces, n, target, overlap).chunks|
    decreases n - m
  {
    hide Join, Cuts;
    if m < n {
      ChunksGrow(pieces, m, n - 1, target, overlap);
    }
  }

  // Small pieces land in document order: never in an earlier chunk, and after each other in one chunk.
  lemma SmallPiecesInOrder(pieces: seq<string>, i: nat, j: nat, target: nat, overlap: nat)
    requires Clean(pieces) && i < j < |pieces| && |pieces[i]| <= target && |pieces[j]| <= target
    ensures var (ki, ati) := Home(pieces, i, target, overlap);
            var (kj, atj) := Home(pieces, j, target, overlap);
            ki < kj || (ki == kj && ati + |pieces[i]| < atj)
  {
    hide Add, Stripped;
    var di, dj := Drafted(pieces, i + 1, target, overlap), Drafted(pieces, j, target, overlap);
    var d := Drafted(pieces, j + 1, target, overlap);
    ChunksGrow(pieces, i + 1, j, target, overlap);
    ChunksGrow(pieces, j, j + 1, target, overlap);
    CurrentIsStripped(pieces, i, target, overlap);
    AddExtends(Drafted(pieces, i, target, overlap), pieces[i], target, overlap);
    CurrentLands(pieces, i + 1, j, target, overlap);
    CurrentIsStripped(pieces, j, target, overlap);
    if |di.chunks| == |d.chunks| {
      AddLeavesRoom(dj, pieces[j], target, overlap);
    }
  }

  lemma AddLeavesRoom(d: Draft, piece: string, target: nat, overlap: nat)
    requires piece != "" && Stripped(piece) && Stripped(d.current) && d.current != "" && |piece| <= target
    requires |Add(d, piece, target, overlap).chunks| == |d.chunks|
    ensures |Add(d, piece, target, overlap).current| == |d.current| + 1 + |piece|
  {
    hide Add, Stripped, Carry;
    if |d.current| + |piece| + 1 <= target {
      AddFits(d, piece, target, overlap);
    } else {
      AddFlushes(d, piece, target, overlap);
    }
  }

  // ---------------------------------------------------------------- the final filter

  lemma {:induction false} KeptAt(chunks: seq<string>, k: nat, n: nat)
    requires k < n <= |chunks| && |chunks[k]| > MIN_CHUNK
    ensures |Kept(chunks, k)| < |Kept(chunks, n)| && Kept(chunks, n)[|Kept(chunks, k)|] == chunks[k]
    decreases n
  {
    if k + 1 < n {
      KeptAt(chunks, k, n - 1);
    }
  }

  lemma {:induction false} KeptIsLong(chunks: seq<string>, n: nat)
    requires n <= |chunks|
    ensures forall c :: c in Kept(chunks, n) <==> (c in chunks[..n] && |c| > MIN_CHUNK)
  {
    if n > 0 {
      KeptIsLong(chunks, n - 1);
      assert chunks[..n] == chunks[..n - 1] + [chunks[n - 1]];
    }
  }

  // A sentence of more than 40 characters, and no longer than the target, is returned whole.
  lemma LongSentencesAreReturned(text: string, pieces: seq<string>, i: nat, target: nat, overlap: nat)
    requires Clean(pieces) && i < |pieces| && MIN_CHUNK < |pieces[i]| <= target < |text|
    requires ChunkText(text, pieces, target, overlap).Some?
    ensures var (k, at) := Home(pieces, i, target, overlap);
            var chunks := Chunks(pieces, target, overlap);
            var returned := ChunkText(text, pieces, target, overlap).value;
            && k < |chunks| && |Kept(chunks, k)| < |returned|
            && Within(pieces[i], returned[|Kept(chunks, k)|], at)
  {
    hide Drafted, Flush;
    SmallPieceIsWhole(pieces, i, target, overlap);
    KeptAt(Chunks(pieces, target, overlap), Home(pieces, i, target, overlap).0, |Chunks(pieces, target, overlap)|);
  }

  // ---------------------------------------------------------------- oversize pieces

  // The character at x of the piece lies in one of the chunks, which is a part of the piece.
  ghost predicate Covered(piece: string, x: nat, chunks: seq<string>) {
    exists c, j :: Covers(piece, x, chunks, c, j)
  }

  ghost predicate Covers(piece: string, x: nat, chunks: seq<string>, c: string, j: int) {
    c in chunks && Within(c, piece, j) && j <= x < j + |c|
  }

  // Some cut at or after position i reaches x and is long enough to be kept.
  lemma {:induction false} LongCutCovers(piece: string, i: nat, x: nat, target: nat, overlap: nat) returns (c: string,
                                         j: nat)
    requires MIN_CHUNK <= overlap < target && i <= x < |piece| && |piece| - i > MIN_CHUNK
    ensures Covers(piece, x, Cuts(piece, i, target, overlap), c, j) && |c| > MIN_CHUNK
    decreases |piece| - i
  {
    var step := target - overlap;
    if i + step <= x && |piece| - (i + step) > MIN_CHUNK {
      c, j := LongCutCovers(piece, i + step, x, target, overlap);
    } else {
      c, j := piece[i..Min(i + target, |piece|)], i;
    }
  }

  lemma {:induction false} DraftKeepsChunk(pieces: seq<string>, m: nat, n: nat, c: string, target: nat, overlap: nat)
    requires m <= n <= |pieces| && c in Drafted(pieces, m, target, overlap).chunks
    ensures c in Drafted(pieces, n, target, overlap).chunks
    decreases n - m
  {
    hide Join, Cuts;
    if m < n {
      DraftKeepsChunk(pieces, m, n - 1, c, target, overlap);
    }
  }

  // With an overlap of at least 40, no character of an oversize piece is lost to the filter.
  lemma OversizeIsCovered(pieces: seq<string>, i: nat, x: nat, target: nat, overlap: nat)
    requires i < |pieces| && |pieces[i]| > target && x < |pieces[i]| && MIN_CHUNK <= overlap < target
    ensures Covered(pieces[i], x, Long(Chunks(pieces, target, overlap)))
  {
    hide Join, Cuts, Kept;
    var d := Drafted(pieces, i, target, overlap);
    var chunks := Chunks(pieces, target, overlap);
    var c, j := LongCutCovers(pieces[i], 0, x, target, overlap);
    assert c in Drafted(pieces, i + 1, target, overlap).chunks;
    DraftKeepsChunk(pieces, i + 1, |pieces|, c, target, overlap);
    KeptIsLong(chunks, |chunks|);
    assert chunks[..|chunks|] == chunks;
    assert Covers(pieces[i], x, Long(chunks), c, j);
  }

  // Past the first cut of such a piece, no cut is long.
  lemma {:induction false} LaterCutsAreDropped(piece: string, i: nat, target: nat, overlap: nat)
    requires overlap < target && |piece| <= i + MIN_CHUNK
    ensures forall c :: c in Cuts(piece, i, target, overlap) ==> |c| <= MIN_CHUNK
    decreases |piece| - i
  {
    if i < |piece| {
      LaterCutsAreDropped(piece, i + target - overlap, target, overlap);
    }
  }

  // Below that, the end of a piece that runs 40 characters past the first step is lost.
  lemma LastCharacterIsLost(piece: string, target: nat, overlap: nat)
    requires overlap < MIN_CHUNK && overlap < target && |piece| == target - overlap + MIN_CHUNK
    requires forall k :: 0 <= k < |piece| - 1 ==> piece[k] != piece[|piece| - 1]
    ensures !Covered(piece, |piece| - 1, Long(Chunks([piece], target, overlap)))
  {
    hide Join, Cuts, Kept;
    var d0, d := Drafted([piece], 0, target, overlap), Drafted([piece], 1, target, overlap);
    var chunks := Chunks([piece], target, overlap);
    assert d == Add(d0, piece, target, overlap);
    assert chunks == Cuts(piece, 0, target, overlap);
    FirstCut(piece, target, overlap);
    LaterCutsAreDropped(piece, target - overlap, target, overlap);
    KeptIsLong(chunks, |chunks|);
    assert chunks[..|chunks|] == chunks;
    forall c, j {:trigger Within(c, piece, j)} | c in Long(chunks)
      ensures !Covers(piece, |piece| - 1, Long(chunks), c, j)
    {
      assert c == piece[..target];
      NotTheEnd(piece, target, j);
    }
  }

  lemma NotTheEnd(piece: string, n: nat, j: int)
    requires 0 < n < |piece| && piece[n - 1] != piece[|piece| - 1]
    ensures Within(piece[..n], piece, j) ==> j + n != |piece|
  {
    assert 0 <= j && j + n <= |piece| ==> piece[j..j + n][n - 1] == piece[j + n - 1];
  }

  lemma FirstCut(piece: string, target: nat, overlap: nat)
    requires overlap < target < |piece|
    ensures Cuts(piece, 0, target, overlap) == [piece[..target]] + Cuts(piece, target - overlap, target, overlap)
  {
  }

  ghost predicate AlwaysCovered(target: nat, overlap: nat) {
    forall pieces: seq<string>, i: nat, x: nat {:trigger pieces[i][x]} ::
      i < |pieces| && |pieces[i]| > target && x < |pieces[i]| ==>
        Covered(pieces[i], x, Long(Chunks(pieces, target, overlap)))
  }

  // No character of any oversize piece is lost exactly when the overlap is at least the 40
  // characters below which a chunk is dropped.
  lemma CoverageIff(target: nat, overlap: nat)
    requires overlap < target
    ensures AlwaysCovered(target, overlap) <==> overlap >= MIN_CHUNK
  {
    hide Covered, Chunks, Kept;
    if overlap >= MIN_CHUNK {
      forall pieces: seq<string>, i: nat, x: nat | i < |pieces| && |pieces[i]| > target && x < |pieces[i]|
        ensures Covered(pieces[i], x, Long(Chunks(pieces, target, overlap)))
      {
        OversizeIsCovered(pieces, i, x, target, overlap);
      }
    } else {
      var piece := seq(target - overlap + MIN_CHUNK - 1, _ => 'x') + ['y'];
      LastCharacterIsLost(piece, target, overlap);
      var pieces := [piece];
      assert pieces[0][|piece| - 1] == 'y';
    }
  }

  // The sizes the program uses have both properties.
  lemma DefaultSizes(pieces: seq<string>)
    requires Clean(pieces)
    ensures Bounded(Chunks(pieces, TARGET, OVERLAP), 1051)
    ensures AlwaysCovered(TARGET, OVERLAP)
  {
    hide AlwaysCovered, Chunks;
    BoundHolds(pieces, TARGET, OVERLAP);
    CoverageIff(TARGET, OVERLAP);
  }

  // ---------------------------------------------------------------- in plain terms

  // The pieces that are not blank, among the first n of the split.
  ghost function FilledBefore(split: seq<string>, n: nat): set<nat>
    requires n <= |split|
  {
    set i: nat | i < n && Strip(split[i]) != ""
  }

  lemma FilledNext(split: seq<string>, n: nat)
    requires n < |split|
    ensures |FilledBefore(split, n + 1)| == |FilledBefore(split, n)| + (if Strip(split[n]) != "" then 1 else 0)
  {
    hide Strip;
    assert FilledBefore(split, n + 1) == FilledBefore(split, n) + (if Strip(split[n]) != "" then {n} else {});
  }

  lemma NoneFilled(split: seq<string>)
    ensures FilledBefore(split, 0) == {}
  {
  }

  // The pieces are the parts of the split that are not blank, stripped, all of them and in order.
  lemma {:induction false} PiecesMeaning(split: seq<string>, n: nat)
    requires n <= |split|
    ensures |Pieces(split, n)| == |FilledBefore(split, n)|
    ensures forall i: nat :: i < n && Strip(split[i]) != "" ==>
              |FilledBefore(split, i)| < |Pieces(split, n)|
              && Pieces(split, n)[|FilledBefore(split, i)|] == Strip(split[i])
  {
    hide Strip, FilledBefore;
    if n == 0 {
      NoneFilled(split);
    } else {
      PiecesMeaning(split, n - 1);
      FilledNext(split, n - 1);
    }
  }

  // No text has no chunk, a text within the target is its own only chunk, whatever its length; and of a
  // longer one every chunk returned has more than 40 characters. The only error is an overlap equal to the
  // target when some piece is longer than that.
  lemma ChunkTextMeaning(text: string, pieces: seq<string>, target: nat, overlap: nat)
    ensures text == "" ==> ChunkText(text, pieces, target, overlap) == Some([])
    ensures 0 < |text| <= target ==> ChunkText(text, pieces, target, overlap) == Some([text])
    ensures |text| > target ==>
              && (ChunkText(text, pieces, target, overlap).None?
                  <==> overlap == target && exists i :: 0 <= i < |pieces| && |pieces[i]| > target)
              && (ChunkText(text, pieces, target, overlap).Some? ==>
                    forall c :: c in ChunkText(text, pieces, target, overlap).value ==> |c| > 40)
  {
    hide Chunks;
    var chunks := Chunks(pieces, target, overlap);
    KeptIsLong(chunks, |chunks|);
  }

  // What is carried into the next chunk: the last characters of the one before and a blank, without the
  // white space they begin with.
  ghost predicate IsCarried(carried: string, before: string, overlap: nat, m: nat) {
    var k := if overlap == 0 then |before| else Min(overlap, |before|);
    var tail := before[|before| - k..] + " ";
    && m <= |tail| && carried == tail[m..]
    && (forall i :: 0 <= i < m ==> IsSpace(tail[i])) && (carried != "" ==> !IsSpace(carried[0]))
  }

  // When a piece no longer fits, the current text becomes a chunk, and the next begins with the end of it,
  // as long as the overlap, and the piece.
  lemma OverlapIsCarried(pieces: seq<string>, i: nat, target: nat, overlap: nat) returns (carried: string, m: nat)
    requires Clean(pieces) && i < |pieces| && |pieces[i]| <= target
    requires |Drafted(pieces, i, target, overlap).current| + |pieces[i]| + 1 > target
    requires Drafted(pieces, i, target, overlap).current != ""
    ensures var d, e := Drafted(pieces, i, target, overlap), Drafted(pieces, i + 1, target, overlap);
            && e.chunks == d.chunks + [d.current] && e.current == carried + pieces[i]
            && IsCarried(carried, d.current, overlap, m)
  {
    hide Add, Stripped, IsSpace;
    var d := Drafted(pieces, i, target, overlap);
    CurrentIsStripped(pieces, i, target, overlap);
    AddFlushes(d, pieces[i], target, overlap);
    var tail := Tail(d.current, overlap);
    carried := Carry(tail);
    m := Leading(tail + " ", 0);
    LeadingSkipsSpace(tail + " ", 0);
  }
}
