// What the rows of the index say about the pages they come from (app/rag/ingest.py:19-86): tenant, link,
// location, title and hash, and what an ingest reports.
module IngestRows {
  import opened Prelude
  import opened Ingest
  import Chunker

  // Every chunk row of a document carries the document's tenant and link.
  ghost predicate Labelled(db: Db) {
    forall row, k :: row in db.chunks && k in db.documents && db.documents[k].id == row.document ==>
      row.tenant == k.tenant && row.url == k.url
  }

  ghost predicate OldOrNew(w: World, db: Db, tenant: Id, location: Option<Id>, page: Page, document: Id,
                           row: ChunkRow)
  {
    || row in db.chunks
    || (row.tenant == tenant && row.location == location && row.document == document && row.url == page.url
        && row.content in ChunksFor(w, page.text))
  }

  lemma RowsOfReplaced(w: World, db: Db, tenant: Id, location: Option<Id>, page: Page, row: ChunkRow)
    requires row in Replaced(w, db, tenant, location, page).chunks
    ensures var key := Key(tenant, page.url);
            && OldOrNew(w, db, tenant, location, page,
                        if key in db.documents then db.documents[key].id else db.next, row)
            && (key in db.documents && row.document == db.documents[key].id ==>
                  row.tenant == tenant && row.location == location && row.url == page.url)
  {
    hide ChunksFor;
    var key := Key(tenant, page.url);
    if key in db.documents {
      OthersHaveNone(db.chunks, db.documents[key].id, |db.chunks|);
    }
  }

  lemma {:induction false} OthersHaveNone(chunks: seq<ChunkRow>, gone: Id, n: nat)
    requires n <= |chunks|
    ensures forall row :: row in Others(chunks, gone, n) <==> row in chunks[..n] && row.document != gone
  {
    if n > 0 {
      OthersHaveNone(chunks, gone, n - 1);
      assert chunks[..n] == chunks[..n - 1] + [chunks[n - 1]];
    }
  }

  // Main result on one page, changed or new: its document has the page's title and the hash of its text - the
  // location only if it is new - and all its rows carry tenant, location and link of this ingest.
  lemma ReplacedSays(w: World, db: Db, tenant: Id, location: Option<Id>, page: Page)
    requires Keyed(db)
    ensures var after := Replaced(w, db, tenant, location, page);
            var key := Key(tenant, page.url);
            && key in after.documents
            && after.documents[key].title == page.title && after.documents[key].hash == w.hash(page.text)
            && after.documents[key].location == (if key in db.documents then db.documents[key].location else location)
            && after.documents[key].id == (if key in db.documents then db.documents[key].id else db.next)
            && forall row :: row in after.chunks && row.document == after.documents[key].id ==>
                 row.tenant == tenant && row.location == location && row.url == page.url
  {
    hide ChunksFor, NewRows;
    var after := Replaced(w, db, tenant, location, page);
    var key := Key(tenant, page.url);
    forall row | row in after.chunks && row.document == after.documents[key].id
      ensures row.tenant == tenant && row.location == location && row.url == page.url
    {
      RowsOfReplaced(w, db, tenant, location, page, row);
    }
  }

  // The labels are right after any ingest, if they were before.
  lemma {:induction false} IngestKeepsLabels(w: World, db: Db, tenant: Id, location: Option<Id>, pages: seq<Page>,
                                             n: nat)
    requires Coherent(w, db) && Labelled(db) && n <= |pages|
    ensures Labelled(After(w, db, tenant, location, pages, n))
  {
    hide ChunksFor, Coherent, Labelled, Replaced, Known;
    if n > 0 {
      var was := After(w, db, tenant, location, pages, n - 1);
      IngestKeepsLabels(w, db, tenant, location, pages, n - 1);
      IngestKeepsCoherent(w, db, tenant, location, pages, n - 1);
      if !Known(w, was, tenant, pages[n - 1]) {
        ReplacedKeepsLabels(w, was, tenant, location, pages[n - 1]);
      }
    }
  }

  lemma ReplacedKeepsLabels(w: World, db: Db, tenant: Id, location: Option<Id>, page: Page)
    requires Coherent(w, db) && Labelled(db)
    ensures Labelled(Replaced(w, db, tenant, location, page))
  {
    hide ChunksFor, NewRows;
    var key := Key(tenant, page.url);
    var after := Replaced(w, db, tenant, location, page);
    ReplacedSays(w, db, tenant, location, page);
    ReplacedIndexes(w, db, tenant, location, page);
    hide Replaced;
    forall row, k | row in after.chunks && k in after.documents && after.documents[k].id == row.document
      ensures row.tenant == k.tenant && row.url == k.url
    {
      RowsOfReplaced(w, db, tenant, location, page, row);
    }
  }

  // ---------------------------------------------------------------- what is reported

  // The pages, among the first n, that were new or had changed when their turn came.
  ghost function ChangedPages(w: World, db: Db, tenant: Id, location: Option<Id>, pages: seq<Page>, n: nat): set<nat>
    requires n <= |pages|
  {
    set i: nat | i < n && !Unchanged(w, After(w, db, tenant, location, pages, i), tenant, pages[i])
  }

  // The page is stored under its link with the hash of its text.
  predicate Unchanged(w: World, db: Db, tenant: Id, page: Page) {
    Key(tenant, page.url) in db.documents && db.documents[Key(tenant, page.url)].hash == w.hash(page.text)
  }

  ghost function WithText(w: World, pages: seq<Page>, changed: set<nat>): set<nat>
    requires forall i :: i in changed ==> i < |pages|
  {
    set i | i in changed && ChunksFor(w, pages[i].text) != []
  }

  lemma ChangedNext(w: World, db: Db, tenant: Id, location: Option<Id>, pages: seq<Page>, n: nat)
    requires n < |pages|
    ensures ChangedPages(w, db, tenant, location, pages, n + 1)
            == ChangedPages(w, db, tenant, location, pages, n)
               + (if Unchanged(w, After(w, db, tenant, location, pages, n), tenant, pages[n]) then {} else {n})
    ensures n !in ChangedPages(w, db, tenant, location, pages, n)
  {
    hide After, Unchanged;
  }

  lemma CountedNext(w: World, db: Db, tenant: Id, location: Option<Id>, pages: seq<Page>, n: nat)
    requires n < |pages|
    ensures var t, u := Counted(w, db, tenant, location, pages, n), Counted(w, db, tenant, location, pages, n + 1);
            var pieces := ChunksFor(w, pages[n].text);
            var same := Unchanged(w, After(w, db, tenant, location, pages, n), tenant, pages[n]);
            u == if same then t.(skipped := t.skipped + 1)
                 else if pieces == [] then t
                 else Tally(t.documents + 1, t.chunks + |pieces|, t.skipped)
  {
    hide After, ChunksFor;
  }

  lemma WithTextNext(w: World, pages: seq<Page>, changed: set<nat>, n: nat)
    requires n < |pages| && forall i :: i in changed ==> i < n
    ensures |changed + {n}| == |changed| + 1
    ensures |WithText(w, pages, changed + {n})|
            == |WithText(w, pages, changed)| + (if ChunksFor(w, pages[n].text) != [] then 1 else 0)
  {
    hide ChunksFor;
    assert n !in changed;
    assert WithText(w, pages, changed + {n})
        == WithText(w, pages, changed) + (if ChunksFor(w, pages[n].text) != [] then {n} else {});
  }

  // Main result on the report: it counts the pages that had not changed; of the others, those that have
  // chunks; and the chunks of these.
  lemma {:induction false} ReportMeaning(w: World, db: Db, tenant: Id, location: Option<Id>, pages: seq<Page>, n: nat)
    requires n <= |pages|
    ensures var t := Counted(w, db, tenant, location, pages, n);
            var changed := ChangedPages(w, db, tenant, location, pages, n);
            && t.skipped == n - |changed| && t.documents == |WithText(w, pages, changed)|
            && t.chunks == ChunkSum(w, pages, changed, n)
  {
    hide After, ChunksFor, Unchanged, WithText, Counted, ChangedPages;
    if n == 0 {
      NoPages(w, db, tenant, location, pages);
    } else {
      var was := ChangedPages(w, db, tenant, location, pages, n - 1);
      ReportMeaning(w, db, tenant, location, pages, n - 1);
      ChangedNext(w, db, tenant, location, pages, n - 1);
      ChangedAreBefore(w, db, tenant, location, pages, n - 1);
      CountedNext(w, db, tenant, location, pages, n - 1);
      WithTextNext(w, pages, was, n - 1);
      SumIgnoresLater(w, pages, was, n - 1, n - 1);
    }
  }

  // The number of chunks of the changed pages among the first n.
  ghost function ChunkSum(w: World, pages: seq<Page>, changed: set<nat>, n: nat): nat
    requires n <= |pages|
  {
    if n == 0 then 0
    else ChunkSum(w, pages, changed, n - 1) + (if n - 1 in changed then |ChunksFor(w, pages[n - 1].text)| else 0)
  }

  lemma {:induction false} SumIgnoresLater(w: World, pages: seq<Page>, changed: set<nat>, later: nat, n: nat)
    requires n <= later < |pages|
    ensures ChunkSum(w, pages, changed + {later}, n) == ChunkSum(w, pages, changed, n)
  {
    hide ChunksFor;
    if n > 0 {
      SumIgnoresLater(w, pages, changed, later, n - 1);
    }
  }

  lemma ChangedAreBefore(w: World, db: Db, tenant: Id, location: Option<Id>, pages: seq<Page>, n: nat)
    requires n <= |pages|
    ensures forall i :: i in ChangedPages(w, db, tenant, location, pages, n) ==> i < n
  {
    hide After, Unchanged;
  }

  lemma NoPages(w: World, db: Db, tenant: Id, location: Option<Id>, pages: seq<Page>)
    ensures ChangedPages(w, db, tenant, location, pages, 0) == {} && WithText(w, pages, {}) == {}
    ensures Counted(w, db, tenant, location, pages, 0) == Tally(0, 0, 0)
  {
    hide After, Unchanged;
  }

  // ---------------------------------------------------------------- which chunks

  // An empty text has none, a short one is its own only chunk, and of a long one all chunks are longer
  // than 40 characters.
  lemma ChunksOf(w: World, text: string)
    ensures w.normal(text) == "" ==> ChunksFor(w, text) == []
    ensures 0 < |w.normal(text)| <= 900 ==> ChunksFor(w, text) == [w.normal(text)]
    ensures |w.normal(text)| > 900 ==> forall c :: c in ChunksFor(w, text) ==> 40 < |c| <= 1051
    ensures var split := w.split(w.normal(text));
            Chunker.ChunkText(w.normal(text), Chunker.Pieces(split, |split|), 900, 150) == Some(ChunksFor(w, text))
  {
    hide Chunker.Drafted, Chunker.Oversize, Chunker.Pieces, Stripped;
    var normal := w.normal(text);
    var split := w.split(normal);
    var pieces := Chunker.Pieces(split, |split|);
    if |normal| > 900 {
      var chunks := Chunker.Chunks(pieces, Chunker.TARGET, Chunker.OVERLAP);
      Chunker.KeptIsLong(chunks, |chunks|);
      assert chunks[..|chunks|] == chunks;
      Chunker.PiecesAreClean(split, |split|);
      Chunker.BoundHolds(pieces, Chunker.TARGET, Chunker.OVERLAP);
    }
  }
}
