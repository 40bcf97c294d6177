// The site crawler (app/rag/crawler.py): which links it follows, and the batched loop.
module Crawler {
  import opened Prelude
  import opened LinkSearch

  // What the HTML libraries read off one response: the href attributes in document order,
  // the title element if there is one, and the text trafilatura extracts.
  datatype Html = Html(hrefs: seq<string>, title: Option<string>, text: Option<string>)

  // The outside world. `get` is None for a URL that robots.txt disallows, that raises, that
  // answers other than 200, or that is not HTML; the rest is urllib's parsing.
  datatype Web = Web(get: Url -> Option<Html>, join: (Url, string) -> string, defrag: string -> string,
                     scheme: string -> string, netloc: string -> string, lower: string -> string)

  function Title(html: Html): string {
    if html.title.None? then "" else Take(Strip(html.title.value), 300)
  }

  // What _links filters by.
  const SKIP_PREFIXES := ["mailto:", "tel:", "javascript:", "#"]
  const SKIP_SUFFIXES := [".pdf", ".jpg", ".jpeg", ".png", ".gif", ".svg", ".webp", ".ico",
                          ".zip", ".mp4", ".mp3", ".css", ".js", ".xml", ".woff", ".woff2"]

  predicate IsHttp(scheme: string) {
    scheme == "http" || scheme == "https"
  }

  predicate StartsWithAny(s: string, prefixes: seq<string>) {
    exists p :: p in prefixes && p <= s
  }

  predicate EndsWithAny(s: string, suffixes: seq<string>) {
    exists x :: x in suffixes && |x| <= |s| && s[|s| - |x|..] == x
  }

  function DropSlashes(s: string): string {
    if s != "" && s[|s| - 1] == '/' then DropSlashes(s[..|s| - 1]) else s
  }

  function Normalise(web: Web, url: string): Url {
    var u := web.defrag(url);
    if DropSlashes(u) != "" then DropSlashes(u) else u
  }

  // The link one href leads to, if it is followed at all.
  function Followed(web: Web, rawHref: string, base: Url, host: string): seq<Url> {
    var href := Strip(rawHref);
    if href == "" || StartsWithAny(href, SKIP_PREFIXES) then []
    else
      var absolute := Normalise(web, web.join(base, href));
      if !IsHttp(web.scheme(absolute)) || web.netloc(absolute) != host then []
      else if EndsWithAny(web.lower(absolute), SKIP_SUFFIXES) then []
      else [absolute]
  }

  // The accepted links among the first n hrefs, in document order.
  function Links(web: Web, hrefs: seq<string>, n: nat, base: Url, host: string): seq<Url>
    requires n <= |hrefs|
  {
    if n == 0 then []
    else Links(web, hrefs, n - 1, base, host) + Followed(web, hrefs[n - 1], base, host)
  }

  method CollectLinks(web: Web, hrefs: seq<string>, base: Url, host: string) returns (out: seq<Url>)
    ensures out == Links(web, hrefs, |hrefs|, base, host)
  {
    hide Followed;
    out := [];
    for i := 0 to |hrefs|
      invariant out == Links(web, hrefs, i, base, host)
    {
      out := out + Followed(web, hrefs[i], base, host);
    }
  }

  // The accepted links of a URL, none when it cannot be fetched.
  function LinksOf(web: Web, host: string, u: Url): seq<Url> {
    match web.get(u)
    case None => []
    case Some(html) => Links(web, html.hrefs, |html.hrefs|, u, host)
  }

  // The page a URL contributes: it must be fetchable and hold more than 120 characters of text.
  function BodyOf(web: Web, u: Url): Option<Body> {
    match web.get(u)
    case None => None
    case Some(html) =>
      if html.text.Some? && |Strip(html.text.value)| > 120 then
        Some(Body(Title(html), Strip(html.text.value)))
      else None
  }

  function SiteOf(web: Web, startUrl: string): Site {
    var start := Normalise(web, startUrl);
    var host := web.netloc(start);
    Site(start, u => LinksOf(web, host, u), u => BodyOf(web, u))
  }

  lemma FollowedStaysOnHost(web: Web, rawHref: string, base: Url, host: string, u: Url)
    requires u in Followed(web, rawHref, base, host)
    ensures web.netloc(u) == host && IsHttp(web.scheme(u))
  {
    hide Strip, StartsWithAny, EndsWithAny, Normalise, IsHttp;
  }

  lemma {:induction false} LinksStayOnHost(web: Web, hrefs: seq<string>, n: nat, base: Url, host: string, u: Url)
    requires n <= |hrefs| && u in Links(web, hrefs, n, base, host)
    ensures web.netloc(u) == host && IsHttp(web.scheme(u))
  {
    hide Followed, IsHttp;
    if u in Followed(web, hrefs[n - 1], base, host) {
      FollowedStaysOnHost(web, hrefs[n - 1], base, host, u);
    } else {
      LinksStayOnHost(web, hrefs, n - 1, base, host, u);
    }
  }

  // No accepted link is an asset by its suffix.
  lemma {:induction false} LinksAreNoAssets(web: Web, hrefs: seq<string>, n: nat, base: Url, host: string, u: Url)
    requires n <= |hrefs| && u in Links(web, hrefs, n, base, host)
    ensures !EndsWithAny(web.lower(u), SKIP_SUFFIXES)
  {
    hide Strip, StartsWithAny, EndsWithAny, Normalise, IsHttp;
    if u !in Followed(web, hrefs[n - 1], base, host) {
      LinksAreNoAssets(web, hrefs, n - 1, base, host, u);
    }
  }

  // The crawl never leaves the start page's host, and every page it reaches by a link is http(s).
  lemma ReachableIsOnHost(web: Web, startUrl: string, u: Url, n: nat)
    requires Reach(SiteOf(web, startUrl), u, n)
    ensures web.netloc(u) == web.netloc(Normalise(web, startUrl))
    ensures n > 0 ==> IsHttp(web.scheme(u))
  {
    hide Links, Normalise, IsHttp;
    if n > 0 {
      var site := SiteOf(web, startUrl);
      var v :| Reach(site, v, n - 1) && u in site.links(v);
      var hrefs := web.get(v).value.hrefs;
      LinksStayOnHost(web, hrefs, |hrefs|, v, web.netloc(site.start), u);
    }
  }

  // ---------------------------------------------------------------- the program

  // The program's three variables against a state of the simple form. `ahead` is what is left of
  // the batch, which stands before the frontier in the simple form's one queue.
  ghost predicate Matches(s: State, ahead: seq<(Url, nat)>, seen: set<Url>, frontier: seq<(Url, nat)>) {
    s.queue == ahead + frontier && s.dist.Keys == seen
  }

  lemma EnlistOneMatches(link: Url, depth: nat, lim: Limits, s: State,
                         ahead: seq<(Url, nat)>, seen: set<Url>, frontier: seq<(Url, nat)>)
    requires Matches(s, ahead, seen, frontier)
    ensures var r := EnlistOne(link, depth, lim, s);
            if link !in seen && |seen| < lim.maxPages * 4
            then Matches(r, ahead, seen + {link}, frontier + [(link, depth)])
            else Matches(r, ahead, seen, frontier)
  {
    assert ahead + (frontier + [(link, depth)]) == s.queue + [(link, depth)];
  }

  // The innermost loop: queue the links not seen before, while the seen set has room.
  method QueueLinks(links: seq<Url>, depth: nat, lim: Limits, seen: set<Url>, frontier: seq<(Url, nat)>,
                    ghost ahead: seq<(Url, nat)>, ghost s: State)
    returns (seen': set<Url>, frontier': seq<(Url, nat)>)
    requires Matches(s, ahead, seen, frontier)
    ensures Matches(Enlist(links, |links|, depth, lim, s), ahead, seen', frontier')
  {
    hide Matches, EnlistOne;
    seen', frontier' := seen, frontier;
    for j := 0 to |links|
      invariant Matches(Enlist(links, j, depth, lim, s), ahead, seen', frontier')
    {
      EnlistOneMatches(links[j], depth, lim, Enlist(links, j, depth, lim, s), ahead, seen', frontier');
      if links[j] !in seen' && |seen'| < lim.maxPages * 4 {
        seen' := seen' + {links[j]};
        frontier' := frontier' + [(links[j], depth)];
      }
    }
  }

  lemma VisitMatches(site: Site, lim: Limits, s: State, item: (Url, nat), ahead: seq<(Url, nat)>,
                     seen: set<Url>, frontier: seq<(Url, nat)>)
    requires s.queue != [] && s.queue[0] == item
    requires Matches(Expand(site, lim, s), [item] + ahead, seen, frontier)
    ensures Matches(Visit(site, lim, s), ahead, seen, frontier)
    ensures Visit(site, lim, s).pages == s.pages + PageList(site, item.0)
  {
    VisitExtendsPages(site, lim, s);
    assert ([item] + ahead + frontier)[1..] == ahead + frontier;
  }

  ghost predicate IsSite(site: Site, web: Web, host: string) {
    forall u :: site.links(u) == LinksOf(web, host, u) && site.body(u) == BodyOf(web, u)
  }

  // One result of a batch: keep its page, then queue its links.
  method HandleResult(web: Web, host: string, lim: Limits, item: (Url, nat), seen: set<Url>,
                      frontier: seq<(Url, nat)>, pages: seq<Page>, ghost site: Site,
                      ghost ahead: seq<(Url, nat)>, ghost s: State)
    returns (seen': set<Url>, frontier': seq<(Url, nat)>, pages': seq<Page>)
    requires IsSite(site, web, host)
    requires s.queue != [] && s.queue[0] == item
    requires Matches(s, [item] + ahead, seen, frontier) && s.pages == pages
    ensures Matches(Visit(site, lim, s), ahead, seen', frontier')
    ensures Visit(site, lim, s).pages == pages'
  {
    hide Matches, Visit, Enlist, BodyOf, Links;
    var (url, depth) := item;
    seen', frontier', pages' := seen, frontier, pages;
    var body := BodyOf(web, url);
    if body.Some? {
      pages' := pages' + [Page(url, body.value)];
    }
    assert pages' == pages + PageList(site, url);
    if depth < lim.maxDepth {
      var links := [];
      var fetched := web.get(url);
      if fetched.Some? {
        links := CollectLinks(web, fetched.value.hrefs, url, host);
      }
      seen', frontier' := QueueLinks(links, depth + 1, lim, seen, frontier, [item] + ahead, s);
    }
    VisitMatches(site, lim, s, item, ahead, seen', frontier');
  }

  // One round of the loop: the batch, item by item.
  method HandleBatch(web: Web, host: string, lim: Limits, batch: seq<(Url, nat)>, seen: set<Url>,
                     frontier: seq<(Url, nat)>, pages: seq<Page>, ghost site: Site, ghost s: State)
    returns (seen': set<Url>, frontier': seq<(Url, nat)>, pages': seq<Page>, ghost s': State)
    requires IsSite(site, web, host)
    requires Matches(s, batch, seen, frontier) && s.pages == pages
    ensures Matches(s', [], seen', frontier') && s'.pages == pages'
    ensures Drain(site, lim, s') == Drain(site, lim, s)
    ensures |s'.queue| + Slack(lim, s') + |batch| <= |s.queue| + Slack(lim, s)
  {
    hide IsSite, Visit, Slack;
    seen', frontier', pages', s' := seen, frontier, pages, s;
    for i := 0 to |batch|
      invariant Matches(s', batch[i..], seen', frontier') && s'.pages == pages'
      invariant Drain(site, lim, s') == Drain(site, lim, s)
      invariant |s'.queue| + Slack(lim, s') + i <= |s.queue| + Slack(lim, s)
    {
      assert batch[i..] == [batch[i]] + batch[i + 1..];
      seen', frontier', pages' :=
        HandleResult(web, host, lim, batch[i], seen', frontier', pages', site, batch[i + 1..], s');
      s' := Visit(site, lim, s');
    }
    assert batch[|batch|..] == [];
  }

  // The program's loop. Whatever the batch size, the pages are those of the simple form cut
  // at max_pages. The loop stops with what is left of the frontier: with nothing, and then it has
  // seen what the simple form sees, or else with max_pages pages.
  method Crawl(web: Web, startUrl: string, lim: Limits, concurrency: int)
    returns (result: seq<Page>, ghost visited: set<Url>, ghost left: seq<(Url, nat)>)
    requires concurrency >= 1
    ensures result == Returned(Search(SiteOf(web, startUrl), lim), lim)
    ensures left == [] ==> visited == Search(SiteOf(web, startUrl), lim).dist.Keys
    ensures left != [] ==> |result| == Max(lim.maxPages, 0)
  {
    hide LinksOf, BodyOf, Normalise, Drain, Search;
    var start := Normalise(web, startUrl);
    var host := web.netloc(start);
    var seen: set<Url> := {start};
    var pages: seq<Page> := [];
    var frontier: seq<(Url, nat)> := [(start, 0)];
    ghost var site := SiteOf(web, startUrl);
    ghost var s := Start(site);

    assert Drain(site, lim, s) == Search(site, lim) by { SearchStartsHere(site, lim); }
    while frontier != [] && |pages| < lim.maxPages
      invariant Matches(s, [], seen, frontier) && s.pages == pages
      invariant Drain(site, lim, s) == Search(site, lim)
      invariant lim.maxPages <= 0 ==> pages == []
      decreases |s.queue| + Slack(lim, s)
    {
      var n := Min(concurrency, |frontier|);
      var batch := frontier[..n];
      frontier := frontier[n..];
      assert s.queue == batch + frontier;
      seen, frontier, pages, s := HandleBatch(web, host, lim, batch, seen, frontier, pages, site, s);
    }
    DrainExtendsPages(site, lim, s);
    if frontier == [] {
      DrainStopsWhenEmpty(site, lim, s);
    }
    result := Take(pages, Max(lim.maxPages, 0));
    visited, left := seen, frontier;
  }
}
