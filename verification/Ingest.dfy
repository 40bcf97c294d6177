// Incremental indexing (app/rag/ingest.py): documents and chunk rows, kept in step with the crawled
// pages by content hash. The hash and the sentence regex are functions of the world.
module Ingest {
  import opened Prelude
  import Chunker
  import LinkSearch

  type Id = nat

  datatype World = World(hash: string -> string, normal: string -> string, split: string -> seq<string>)

  datatype Page = Page(url: string, title: string, text: string)

  datatype Key = Key(tenant: Id, url: string)

  datatype Document = Document(id: Id, title: string, hash: string, location: Option<Id>)

  datatype ChunkRow = ChunkRow(tenant: Id, location: Option<Id>, document: Id, content: string, url: string)

  // The two tables, and the next document id.
  datatype Db = Db(documents: map<Key, Document>, chunks: seq<ChunkRow>, next: Id)

  // chunk_text of a text, with the default sizes.
  function ChunksFor(w: World, text: string): seq<string> {
    var normal := w.normal(text);
    var split := w.split(normal);
    Chunker.ChunkText(normal, Chunker.Pieces(split, |split|), Chunker.TARGET, Chunker.OVERLAP).value
  }

  // ---------------------------------------------------------------- the chunk table

  // The contents stored for a document, among the first n rows.
  function Stored(chunks: seq<ChunkRow>, document: Id, n: nat): seq<string>
    requires n <= |chunks|
  {
    if n == 0 then []
    else if chunks[n - 1].document == document then Stored(chunks, document, n - 1) + [chunks[n - 1].content]
    else Stored(chunks, document, n - 1)
  }

  function ContentsOf(chunks: seq<ChunkRow>, document: Id): seq<string> {
    Stored(chunks, document, |chunks|)
  }

  // DELETE FROM chunks WHERE document_id = document, over the first n rows.
  function Others(chunks: seq<ChunkRow>, document: Id, n: nat): seq<ChunkRow>
    requires n <= |chunks|
  {
    if n == 0 then []
    else if chunks[n - 1].document == document then Others(chunks, document, n - 1)
    else Others(chunks, document, n - 1) + [chunks[n - 1]]
  }

  function NewRows(tenant: Id, location: Option<Id>, document: Id, url: string, pieces: seq<string>): (r: seq<ChunkRow>)
    ensures |r| == |pieces|
  {
    seq(|pieces|, i requires 0 <= i < |pieces| => ChunkRow(tenant, location, document, pieces[i], url))
  }

  lemma {:induction false} StoredPrefix(a: seq<ChunkRow>, b: seq<ChunkRow>, document: Id, n: nat)
    requires n <= |a|
    ensures Stored(a + b, document, n) == Stored(a, document, n)
  {
    if n > 0 {
      StoredPrefix(a, b, document, n - 1);
    }
  }

  lemma StoredNext(a: seq<ChunkRow>, row: ChunkRow, document: Id)
    ensures ContentsOf(a + [row], document)
            == ContentsOf(a, document) + (if row.document == document then [row.content] else [])
  {
    StoredPrefix(a, [row], document, |a|);
  }

  lemma {:induction false} OthersStored(chunks: seq<ChunkRow>, gone: Id, document: Id, n: nat)
    requires n <= |chunks|
    ensures ContentsOf(Others(chunks, gone, n), document)
            == if document == gone then [] else Stored(chunks, document, n)
    ensures forall row :: row in Others(chunks, gone, n) ==> row in chunks
  {
    if n == 0 {
      assert ContentsOf([], document) == [];
    } else {
      OthersStored(chunks, gone, document, n - 1);
      StoredNext(Others(chunks, gone, n - 1), chunks[n - 1], document);
    }
  }

  lemma {:induction false} AddedStored(chunks: seq<ChunkRow>, tenant: Id, location: Option<Id>, added: Id, url: string,
                                       pieces: seq<string>, document: Id)
    ensures ContentsOf(chunks + NewRows(tenant, location, added, url, pieces), document)
            == ContentsOf(chunks, document) + (if document == added then pieces else [])
    decreases |pieces|
  {
    var n := |pieces|;
    if n == 0 {
      assert chunks + NewRows(tenant, location, added, url, pieces) == chunks;
    } else {
      var init := pieces[..n - 1];
      var row := ChunkRow(tenant, location, added, pieces[n - 1], url);
      var before := chunks + NewRows(tenant, location, added, url, init);
      AddedStored(chunks, tenant, location, added, url, init, document);
      StoredNext(before, row, document);
      assert chunks + NewRows(tenant, location, added, url, pieces) == before + [row];
      assert pieces == init + [pieces[n - 1]];
    }
  }

  lemma {:induction false} NothingStored(chunks: seq<ChunkRow>, document: Id, n: nat)
    requires n <= |chunks| && forall row :: row in chunks ==> row.document != document
    ensures Stored(chunks, document, n) == []
  {
    if n > 0 {
      NothingStored(chunks, document, n - 1);
      assert chunks[n - 1] in chunks;
    }
  }

  // ---------------------------------------------------------------- ingesting a page

  datatype Tally = Tally(documents: nat, chunks: nat, skipped: nat)

  predicate Known(w: World, db: Db, tenant: Id, page: Page) {
    var key := Key(tenant, page.url);
    key in db.documents && db.documents[key].hash == w.hash(page.text)
  }

  // The document row after a changed or new page, and the chunk rows that are not its old ones.
  function DocumentFor(w: World, db: Db, tenant: Id, location: Option<Id>, page: Page): Document {
    var key := Key(tenant, page.url);
    if key in db.documents then db.documents[key].(hash := w.hash(page.text), title := page.title)
    else Document(db.next, page.title, w.hash(page.text), location)
  }

  function Cleared(db: Db, key: Key): seq<ChunkRow> {
    if key in db.documents then Others(db.chunks, db.documents[key].id, |db.chunks|) else db.chunks
  }

  function Replaced(w: World, db: Db, tenant: Id, location: Option<Id>, page: Page): Db {
    var key := Key(tenant, page.url);
    var document := DocumentFor(w, db, tenant, location, page);
    Db(db.documents[key := document],
       Cleared(db, key) + NewRows(tenant, location, document.id, page.url, ChunksFor(w, page.text)),
       if key in db.documents then db.next else db.next + 1)
  }

  // The state after n pages.
  function After(w: World, db: Db, tenant: Id, location: Option<Id>, pages: seq<Page>, n: nat): Db
    requires n <= |pages|
  {
    if n == 0 then db
    else
      var was := After(w, db, tenant, location, pages, n - 1);
      if Known(w, was, tenant, pages[n - 1]) then was else Replaced(w, was, tenant, location, pages[n - 1])
  }

  function Counted(w: World, db: Db, tenant: Id, location: Option<Id>, pages: seq<Page>, n: nat): Tally
    requires n <= |pages|
  {
    if n == 0 then Tally(0, 0, 0)
    else
      var t := Counted(w, db, tenant, location, pages, n - 1);
      var pieces := ChunksFor(w, pages[n - 1].text);
      if Known(w, After(w, db, tenant, location, pages, n - 1), tenant, pages[n - 1]) then t.(skipped := t.skipped + 1)
      else if pieces == [] then t
      else Tally(t.documents + 1, t.chunks + |pieces|, t.skipped)
  }

  class Index {
    var db: Db

    constructor (db: Db)
      ensures this.db == db
    {
      this.db := db;
    }

    method DeleteChunks(document: Id)
      modifies this
      ensures db == old(db).(chunks := Others(old(db).chunks, document, |old(db).chunks|))
    {
      var rows := db.chunks;
      var kept: seq<ChunkRow> := [];
      for n := 0 to |rows|
        invariant kept == Others(rows, document, n)
        invariant db == old(db)
      {
        if rows[n].document != document {
          kept := kept + [rows[n]];
        }
      }
      db := db.(chunks := kept);
    }

    method IngestSite(w: World, tenant: Id, location: Option<Id>, pages: seq<Page>) returns (t: Tally)
      modifies this
      ensures db == After(w, old(db), tenant, location, pages, |pages|)
      ensures t == Counted(w, old(db), tenant, location, pages, |pages|)
    {
      hide Others, ChunksFor, NewRows;
      t := Tally(0, 0, 0);
      for n := 0 to |pages|
        invariant db == After(w, old(db), tenant, location, pages, n)
        invariant t == Counted(w, old(db), tenant, location, pages, n)
      {
        var page := pages[n];
        var digest := w.hash(page.text);
        var key := Key(tenant, page.url);
        if key in db.documents && db.documents[key].hash == digest {
          t := t.(skipped := t.skipped + 1);
          continue;
        }
        ghost var was := db;
        var document;
        if key in db.documents {
          DeleteChunks(db.documents[key].id);
          document := db.documents[key].(hash := digest, title := page.title);
        } else {
          document := Document(db.next, page.title, digest, location);
          db := db.(next := db.next + 1);
        }
        db := db.(documents := db.documents[key := document]);
        var pieces := ChunksFor(w, page.text);
        AddNone(tenant, location, document.id, page.url, db.chunks);
        if pieces == [] {
          assert db == Replaced(w, was, tenant, location, page);
          continue;
        }
        db := db.(chunks := db.chunks + NewRows(tenant, location, document.id, page.url, pieces));
        assert db == Replaced(w, was, tenant, location, page);
        t := Tally(t.documents + 1, t.chunks + |pieces|, t.skipped);
      }
    }
  }

  lemma AddNone(tenant: Id, location: Option<Id>, document: Id, url: string, chunks: seq<ChunkRow>)
    ensures chunks + NewRows(tenant, location, document, url, []) == chunks
  {
  }

  // ---------------------------------------------------------------- coherence

  // Ids are unique and every chunk row has a document id that was handed out.
  ghost predicate Keyed(db: Db) {
    && (forall k :: k in db.documents ==> db.documents[k].id < db.next)
    && (forall j, k :: j in db.documents && k in db.documents && db.documents[j].id == db.documents[k].id ==> j == k)
    && (forall row :: row in db.chunks ==> row.document < db.next)
  }

  // The stored chunks are those of a text that has the stored hash.
  ghost predicate InStep(w: World, db: Db, document: Document) {
    exists text :: Indexes(w, db, document, text)
  }

  ghost predicate Indexes(w: World, db: Db, document: Document, text: string) {
    w.hash(text) == document.hash && ContentsOf(db.chunks, document.id) == ChunksFor(w, text)
  }

  ghost predicate Coherent(w: World, db: Db) {
    Keyed(db) && forall k :: k in db.documents ==> InStep(w, db, db.documents[k])
  }

  ghost predicate Injective(w: World) {
    forall s, t :: w.hash(s) == w.hash(t) ==> s == t
  }

  // Replacing a page leaves it indexed, and every other document, with its chunks, as it was.
  lemma ReplacedIndexes(w: World, db: Db, tenant: Id, location: Option<Id>, page: Page)
    requires Keyed(db)
    ensures var after := Replaced(w, db, tenant, location, page);
            var key := Key(tenant, page.url);
            && key in after.documents && Indexes(w, after, after.documents[key], page.text)
            && (forall k :: k != key ==> (k in after.documents <==> k in db.documents))
            && (forall k :: k in db.documents && k != key ==>
                  && after.documents[k] == db.documents[k]
                  && ContentsOf(after.chunks, db.documents[k].id) == ContentsOf(db.chunks, db.documents[k].id))
  {
    hide ChunksFor, NewRows, Stored, Others;
    var key := Key(tenant, page.url);
    var document := DocumentFor(w, db, tenant, location, page);
    var pieces := ChunksFor(w, page.text);
    ClearedStored(db, key, document.id);
    AddedStored(Cleared(db, key), tenant, location, document.id, page.url, pieces, document.id);
    forall k | k in db.documents && k != key
      ensures ContentsOf(Replaced(w, db, tenant, location, page).chunks, db.documents[k].id)
              == ContentsOf(db.chunks, db.documents[k].id)
    {
      ClearedStored(db, key, db.documents[k].id);
      AddedStored(Cleared(db, key), tenant, location, document.id, page.url, pieces, db.documents[k].id);
    }
  }

  lemma ClearedStored(db: Db, key: Key, document: Id)
    requires Keyed(db)
    ensures key in db.documents && document == db.documents[key].id ==> ContentsOf(Cleared(db, key), document) == []
    ensures key !in db.documents && document == db.next ==> ContentsOf(Cleared(db, key), document) == []
    ensures (exists k :: k in db.documents && k != key && db.documents[k].id == document)
            ==> ContentsOf(Cleared(db, key), document) == ContentsOf(db.chunks, document)
  {
    if key in db.documents {
      OthersStored(db.chunks, db.documents[key].id, document, |db.chunks|);
    } else if document == db.next {
      NothingStored(db.chunks, document, |db.chunks|);
    }
  }

  lemma ReplacedIsKeyed(w: World, db: Db, tenant: Id, location: Option<Id>, page: Page)
    requires Keyed(db)
    ensures Keyed(Replaced(w, db, tenant, location, page))
  {
    hide ChunksFor, Stored, Others;
    var key := Key(tenant, page.url);
    var after := Replaced(w, db, tenant, location, page);
    var document := DocumentFor(w, db, tenant, location, page);
    if key in db.documents {
      OthersStored(db.chunks, db.documents[key].id, 0, |db.chunks|);
    }
    forall row | row in after.chunks ensures row.document < after.next {
      if row !in Cleared(db, key) {
        assert row.document == document.id;
      }
    }
  }

  // The invariant every ingest keeps, whatever the hash does.
  lemma {:induction false} IngestKeepsCoherent(w: World, db: Db, tenant: Id, location: Option<Id>, pages: seq<Page>,
                                               n: nat)
    requires Coherent(w, db) && n <= |pages|
    ensures Coherent(w, After(w, db, tenant, location, pages, n))
  {
    hide ChunksFor, ContentsOf, Keyed, Replaced;
    if n > 0 {
      var was := After(w, db, tenant, location, pages, n - 1);
      IngestKeepsCoherent(w, db, tenant, location, pages, n - 1);
      if !Known(w, was, tenant, pages[n - 1]) {
        ReplacedKeepsCoherent(w, was, tenant, location, pages[n - 1]);
      }
    }
  }

  lemma ReplacedKeepsCoherent(w: World, db: Db, tenant: Id, location: Option<Id>, page: Page)
    requires Coherent(w, db)
    ensures Coherent(w, Replaced(w, db, tenant, location, page))
  {
    hide ChunksFor, ContentsOf, Keyed, Replaced;
    var after := Replaced(w, db, tenant, location, page);
    ReplacedIsKeyed(w, db, tenant, location, page);
    ReplacedIndexes(w, db, tenant, location, page);
    forall k | k in after.documents ensures InStep(w, after, after.documents[k]) {
      if k != Key(tenant, page.url) {
        var text :| Indexes(w, db, db.documents[k], text);
        assert Indexes(w, after, after.documents[k], text);
      }
    }
  }

  // No later page has the URL of page i.
  ghost predicate IsLast(pages: seq<Page>, i: nat, n: nat)
    requires n <= |pages|
  {
    i < n && forall j :: i < j < n ==> pages[j].url != pages[i].url
  }

  // After an ingest the document of each crawled page has the hash of its text, for the last page
  // of a URL; and, if no two texts share a hash, exactly the chunks of its text.
  lemma {:induction false} CrawledPagesAreIndexed(w: World, db: Db, tenant: Id, location: Option<Id>, pages: seq<Page>,
                                                  i: nat, n: nat)
    requires Coherent(w, db) && n <= |pages| && IsLast(pages, i, n)
    ensures var after := After(w, db, tenant, location, pages, n);
            var key := Key(tenant, pages[i].url);
            && key in after.documents
            && after.documents[key].hash == w.hash(pages[i].text)
            && (Injective(w) ==> ContentsOf(after.chunks, after.documents[key].id) == ChunksFor(w, pages[i].text))
    decreases n
  {
    hide ChunksFor, ContentsOf, Keyed, Replaced;
    var was := After(w, db, tenant, location, pages, n - 1);
    IngestKeepsCoherent(w, db, tenant, location, pages, n - 1);
    if i < n - 1 {
      CrawledPagesAreIndexed(w, db, tenant, location, pages, i, n - 1);
    }
    if !Known(w, was, tenant, pages[n - 1]) {
      ReplacedIndexes(w, was, tenant, location, pages[n - 1]);
    } else if i == n - 1 {
      assert InStep(w, was, was.documents[Key(tenant, pages[i].url)]);
    }
  }

  // What the crawl did not see is as it was, and so are the documents of every other tenant.
  lemma {:induction false} UnseenDocumentsStay(w: World, db: Db, tenant: Id, location: Option<Id>, pages: seq<Page>,
                                               key: Key, n: nat)
    requires Coherent(w, db) && n <= |pages|
    requires forall j :: 0 <= j < n ==> Key(tenant, pages[j].url) != key
    ensures var after := After(w, db, tenant, location, pages, n);
            && (key in after.documents <==> key in db.documents)
            && (key in db.documents ==>
                  && after.documents[key] == db.documents[key]
                  && ContentsOf(after.chunks, db.documents[key].id) == ContentsOf(db.chunks, db.documents[key].id))
  {
    hide ChunksFor, ContentsOf, Keyed, Replaced;
    if n > 0 {
      var was := After(w, db, tenant, location, pages, n - 1);
      UnseenDocumentsStay(w, db, tenant, location, pages, key, n - 1);
      IngestKeepsCoherent(w, db, tenant, location, pages, n - 1);
      if !Known(w, was, tenant, pages[n - 1]) {
        ReplacedIndexes(w, was, tenant, location, pages[n - 1]);
      }
    }
  }

  ghost predicate DistinctUrls(pages: seq<Page>) {
    forall i, j :: 0 <= i < j < |pages| ==> pages[i].url != pages[j].url
  }

  lemma {:induction false} AllKnownIsIdle(w: World, db: Db, tenant: Id, location: Option<Id>, pages: seq<Page>, n: nat)
    requires n <= |pages| && forall i :: 0 <= i < |pages| ==> Known(w, db, tenant, pages[i])
    ensures After(w, db, tenant, location, pages, n) == db
    ensures Counted(w, db, tenant, location, pages, n) == Tally(0, 0, n)
  {
    hide Replaced, ChunksFor, Known;
    if n > 0 {
      AllKnownIsIdle(w, db, tenant, location, pages, n - 1);
    }
  }

  // Ingesting the same pages again changes no row and counts every page as unchanged.
  lemma ReingestIsIdle(w: World, db: Db, tenant: Id, location: Option<Id>, location2: Option<Id>, pages: seq<Page>)
    requires Coherent(w, db) && DistinctUrls(pages)
    ensures var once := After(w, db, tenant, location, pages, |pages|);
            && After(w, once, tenant, location2, pages, |pages|) == once
            && Counted(w, once, tenant, location2, pages, |pages|) == Tally(0, 0, |pages|)
  {
    hide Coherent, ChunksFor, ContentsOf, After, Counted;
    var once := After(w, db, tenant, location, pages, |pages|);
    forall i | 0 <= i < |pages| ensures Known(w, once, tenant, pages[i]) {
      CrawledPagesAreIndexed(w, db, tenant, location, pages, i, |pages|);
    }
    AllKnownIsIdle(w, once, tenant, location2, pages, |pages|);
  }

  // Injectivity is needed: a page whose new text collides with the old one is skipped, and keeps
  // the old chunks.
  lemma CollisionIsSkipped(w: World, tenant: Id, location: Option<Id>, old0: Page, new0: Page)
    requires old0.url == new0.url && w.hash(old0.text) == w.hash(new0.text)
    ensures var empty := Db(map[], [], 0);
            var once := After(w, empty, tenant, location, [old0], 1);
            var after := After(w, once, tenant, location, [new0], 1);
            && after == once
            && ContentsOf(after.chunks, after.documents[Key(tenant, new0.url)].id) == ChunksFor(w, old0.text)
  {
    hide ChunksFor, ContentsOf;
    var empty := Db(map[], [], 0);
    ReplacedIndexes(w, empty, tenant, location, old0);
  }

  // ---------------------------------------------------------------- crawl and ingest together

  function Crawled(pages: seq<LinkSearch.Page>): (r: seq<Page>)
    ensures |r| == |pages|
    ensures forall i :: 0 <= i < |r| ==>
              r[i].url == pages[i].url && r[i].title == pages[i].body.title && r[i].text == pages[i].body.text
  {
    seq(|pages|, i requires 0 <= i < |pages| => Page(pages[i].url, pages[i].body.title, pages[i].body.text))
  }

  // A crawl hands over each URL once, so after it every page it returned is indexed under its URL
  // by the chunks of the text the site served, and running it again on the same site is idle.
  lemma CrawledSiteIsIndexed(w: World, db: Db, tenant: Id, location: Option<Id>, site: LinkSearch.Site,
                             lim: LinkSearch.Limits)
    requires Coherent(w, db) && Injective(w)
    ensures var found := LinkSearch.Returned(LinkSearch.Search(site, lim), lim);
            var pages := Crawled(found);
            var after := After(w, db, tenant, location, pages, |pages|);
            && (forall p :: p in found ==>
                  && site.body(p.url) == Some(p.body)
                  && Key(tenant, p.url) in after.documents
                  && ContentsOf(after.chunks, after.documents[Key(tenant, p.url)].id) == ChunksFor(w, p.body.text))
            && After(w, after, tenant, location, pages, |pages|) == after
            && Counted(w, after, tenant, location, pages, |pages|) == Tally(0, 0, |pages|)
  {
    hide ChunksFor, ContentsOf, Coherent, After, Counted, LinkSearch.Search, LinkSearch.Returned, LinkSearch.Exhausted;
    var found := LinkSearch.Returned(LinkSearch.Search(site, lim), lim);
    var pages := Crawled(found);
    LinkSearch.SearchExhausts(site, lim);
    LinkSearch.CrawlIsSound(site, lim, LinkSearch.Search(site, lim));
    assert DistinctUrls(pages);
    ReingestIsIdle(w, db, tenant, location, location, pages);
    forall i | 0 <= i < |found|
      ensures var after := After(w, db, tenant, location, pages, |pages|);
              Key(tenant, found[i].url) in after.documents
              && ContentsOf(after.chunks, after.documents[Key(tenant, found[i].url)].id)
                  == ChunksFor(w, found[i].body.text)
    {
      CrawledPagesAreIndexed(w, db, tenant, location, pages, i, |pages|);
    }
  }
}
