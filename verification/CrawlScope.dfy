// What a crawl reaches, read off the site alone (app/rag/crawler.py:47-77 and 117-145): which hrefs are
// links, in what order they are met, which pages come back, and with what title and text.
module CrawlScope {
  import opened Prelude
  import opened LinkSearch
  import opened Crawler

  // ---------------------------------------------------------------- one URL

  predicate AllSlashes(s: string) {
    forall i :: 0 <= i < |s| ==> s[i] == '/'
  }

  lemma {:induction false} SlashesDropped(s: string)
    ensures DropSlashes(s) <= s && AllSlashes(s[|DropSlashes(s)|..])
    ensures DropSlashes(s) != "" ==> DropSlashes(s)[|DropSlashes(s)| - 1] != '/'
  {
    if s != "" && s[|s| - 1] == '/' {
      var n := |s| - 1;
      SlashesDropped(s[..n]);
      assert s == s[..n] + ['/'];
    }
  }

  // u is the URL without its fragment and without the slashes that end it - unless it is nothing else.
  ghost predicate IsNormal(web: Web, url: string, u: Url) {
    var d := web.defrag(url);
    if AllSlashes(d) then u == d
    else u <= d && u != "" && u[|u| - 1] != '/' && AllSlashes(d[|u|..])
  }

  lemma NormaliseIff(web: Web, url: string, u: Url)
    ensures u == Normalise(web, url) <==> IsNormal(web, url, u)
  {
    hide DropSlashes;
    var d := web.defrag(url);
    SlashesDropped(d);
    var r := DropSlashes(d);
    assert r == "" ==> d[|r|..] == d;
    if IsNormal(web, url, u) && !AllSlashes(d) {
      SameStem(d, r, u);
    }
  }

  lemma SameStem(d: string, r: string, u: string)
    requires r <= d && u <= d && AllSlashes(d[|r|..]) && AllSlashes(d[|u|..])
    requires r != "" ==> r[|r| - 1] != '/'
    requires u != "" ==> u[|u| - 1] != '/'
    ensures r == u
  {
  }

  // ---------------------------------------------------------------- the links of a page

  function Target(web: Web, rawHref: string, base: Url): Url {
    Normalise(web, web.join(base, Strip(rawHref)))
  }

  predicate EndsIn(s: string, x: string) {
    |x| <= |s| && s[|s| - |x|..] == x
  }

  // An href is followed when it is not empty, not one of four special kinds, and leads by http or
  // https to the same host and to nothing that looks like an asset.
  ghost predicate Accepted(web: Web, rawHref: string, base: Url, host: string) {
    var href := Strip(rawHref);
    var u := Target(web, rawHref, base);
    var low := web.lower(u);
    && href != ""
    && !("mailto:" <= href) && !("tel:" <= href) && !("javascript:" <= href) && !("#" <= href)
    && (web.scheme(u) == "http" || web.scheme(u) == "https") && web.netloc(u) == host
    && !EndsIn(low, ".pdf") && !EndsIn(low, ".jpg") && !EndsIn(low, ".jpeg") && !EndsIn(low, ".png")
    && !EndsIn(low, ".gif") && !EndsIn(low, ".svg") && !EndsIn(low, ".webp") && !EndsIn(low, ".ico")
    && !EndsIn(low, ".zip") && !EndsIn(low, ".mp4") && !EndsIn(low, ".mp3") && !EndsIn(low, ".css")
    && !EndsIn(low, ".js") && !EndsIn(low, ".xml") && !EndsIn(low, ".woff") && !EndsIn(low, ".woff2")
  }

  lemma PrefixIff(href: string)
    ensures StartsWithAny(href, SKIP_PREFIXES)
            <==> "mailto:" <= href || "tel:" <= href || "javascript:" <= href || "#" <= href
  {
    hide StartsWithAny;
    PrefixIn(href, SKIP_PREFIXES);
    var p := SKIP_PREFIXES;
    assert |p| == 4;
    assert p[0] == "mailto:" && p[1] == "tel:" && p[2] == "javascript:" && p[3] == "#";
  }

  lemma PrefixIn(s: string, prefixes: seq<string>)
    ensures StartsWithAny(s, prefixes) <==> exists i :: 0 <= i < |prefixes| && prefixes[i] <= s
  {
    if p :| p in prefixes && p <= s {
      var i :| 0 <= i < |prefixes| && prefixes[i] == p;
      assert prefixes[i] <= s;
    }
    if i :| 0 <= i < |prefixes| && prefixes[i] <= s {
      assert prefixes[i] in prefixes;
    }
  }

  lemma SuffixIn(s: string, suffixes: seq<string>)
    ensures EndsWithAny(s, suffixes) <==> exists i :: 0 <= i < |suffixes| && EndsIn(s, suffixes[i])
  {
  }

  lemma SuffixIff(low: string)
    ensures EndsWithAny(low, SKIP_SUFFIXES)
            <==> || EndsIn(low, ".pdf") || EndsIn(low, ".jpg") || EndsIn(low, ".jpeg") || EndsIn(low, ".png")
                 || EndsIn(low, ".gif") || EndsIn(low, ".svg") || EndsIn(low, ".webp") || EndsIn(low, ".ico")
                 || EndsIn(low, ".zip") || EndsIn(low, ".mp4") || EndsIn(low, ".mp3") || EndsIn(low, ".css")
                 || EndsIn(low, ".js") || EndsIn(low, ".xml") || EndsIn(low, ".woff") || EndsIn(low, ".woff2")
  {
    hide EndsWithAny, EndsIn;
    SuffixIn(low, SKIP_SUFFIXES);
    var x := SKIP_SUFFIXES;
    assert |x| == 16;
    assert x[0] == ".pdf" && x[1] == ".jpg" && x[2] == ".jpeg" && x[3] == ".png";
    assert x[4] == ".gif" && x[5] == ".svg" && x[6] == ".webp" && x[7] == ".ico";
    assert x[8] == ".zip" && x[9] == ".mp4" && x[10] == ".mp3" && x[11] == ".css";
    assert x[12] == ".js" && x[13] == ".xml" && x[14] == ".woff" && x[15] == ".woff2";
  }

  lemma FollowedIff(web: Web, rawHref: string, base: Url, host: string)
    ensures Followed(web, rawHref, base, host)
            == if Accepted(web, rawHref, base, host) then [Target(web, rawHref, base)] else []
  {
    hide Strip, StartsWithAny, EndsWithAny, EndsIn, Normalise;
    PrefixIff(Strip(rawHref));
    SuffixIff(web.lower(Target(web, rawHref, base)));
  }

  // The accepted ones among the first n hrefs.
  ghost function AcceptedBefore(web: Web, hrefs: seq<string>, n: nat, base: Url, host: string): set<nat>
    requires n <= |hrefs|
  {
    set i: nat | i < n && Accepted(web, hrefs[i], base, host)
  }

  lemma AcceptedNext(web: Web, hrefs: seq<string>, n: nat, base: Url, host: string)
    requires n < |hrefs|
    ensures |AcceptedBefore(web, hrefs, n + 1, base, host)|
            == |AcceptedBefore(web, hrefs, n, base, host)| + (if Accepted(web, hrefs[n], base, host) then 1 else 0)
  {
    hide Accepted;
    assert AcceptedBefore(web, hrefs, n + 1, base, host)
        == AcceptedBefore(web, hrefs, n, base, host) + (if Accepted(web, hrefs[n], base, host) then {n} else {});
  }

  // Main result: the links of a page are the targets of its accepted hrefs, all of them and nothing
  // else, each at the place that the accepted hrefs before it give it.
  lemma {:induction false} LinksMeaning(web: Web, hrefs: seq<string>, n: nat, base: Url, host: string)
    requires n <= |hrefs|
    ensures |Links(web, hrefs, n, base, host)| == |AcceptedBefore(web, hrefs, n, base, host)|
    ensures forall i: nat :: i < n && Accepted(web, hrefs[i], base, host) ==>
              var at := |AcceptedBefore(web, hrefs, i, base, host)|;
              at < |Links(web, hrefs, n, base, host)|
              && Links(web, hrefs, n, base, host)[at] == Target(web, hrefs[i], base)
  {
    hide Accepted, Followed, Target, AcceptedBefore;
    if n == 0 {
      NoneBefore(web, hrefs, base, host);
    } else {
      LinksMeaning(web, hrefs, n - 1, base, host);
      FollowedIff(web, hrefs[n - 1], base, host);
      AcceptedNext(web, hrefs, n - 1, base, host);
    }
  }

  lemma NoneBefore(web: Web, hrefs: seq<string>, base: Url, host: string)
    ensures AcceptedBefore(web, hrefs, 0, base, host) == {}
  {
  }

  ghost predicate IsLinkAt(web: Web, hrefs: seq<string>, i: nat, base: Url, host: string, u: Url)
    requires i < |hrefs|
  {
    Accepted(web, hrefs[i], base, host) && u == Target(web, hrefs[i], base)
  }

  lemma {:induction false} LinkHasHref(web: Web, hrefs: seq<string>, n: nat, base: Url, host: string, u: Url)
    returns (i: nat)
    requires n <= |hrefs| && u in Links(web, hrefs, n, base, host)
    ensures i < n && IsLinkAt(web, hrefs, i, base, host, u)
  {
    hide Accepted, Followed, Target;
    FollowedIff(web, hrefs[n - 1], base, host);
    if u in Followed(web, hrefs[n - 1], base, host) {
      i := n - 1;
    } else {
      i := LinkHasHref(web, hrefs, n - 1, base, host, u);
    }
  }

  // u is a link of page v.
  ghost predicate LinksTo(web: Web, host: string, v: Url, u: Url) {
    web.get(v).Some?
    && var hrefs := web.get(v).value.hrefs;
    exists i: nat :: i < |hrefs| && IsLinkAt(web, hrefs, i, v, host, u)
  }

  lemma LinksToIff(web: Web, host: string, v: Url, u: Url)
    ensures u in LinksOf(web, host, v) <==> LinksTo(web, host, v, u)
  {
    hide Links, Accepted, Target, AcceptedBefore;
    if web.get(v).Some? {
      var hrefs := web.get(v).value.hrefs;
      var links := Links(web, hrefs, |hrefs|, v, host);
      LinksMeaning(web, hrefs, |hrefs|, v, host);
      if u in links {
        var i := LinkHasHref(web, hrefs, |hrefs|, v, host, u);
      }
      if i: nat :| i < |hrefs| && IsLinkAt(web, hrefs, i, v, host, u) {
        assert links[|AcceptedBefore(web, hrefs, i, v, host)|] == u;
      }
    }
  }

  // ---------------------------------------------------------------- what the crawl reaches

  // u is n links away from the start page.
  ghost predicate LinkedFrom(web: Web, startUrl: string, u: Url, n: nat)
    decreases n
  {
    var start := Normalise(web, startUrl);
    if n == 0 then u == start
    else exists v :: LinkedFrom(web, startUrl, v, n - 1) && LinksTo(web, web.netloc(start), v, u)
  }

  lemma {:induction false} ReachIff(web: Web, startUrl: string, u: Url, n: nat)
    ensures Reach(SiteOf(web, startUrl), u, n) <==> LinkedFrom(web, startUrl, u, n)
    decreases n
  {
    hide LinksOf, LinksTo, Normalise, BodyOf;
    if n > 0 {
      var site := SiteOf(web, startUrl);
      var host := web.netloc(site.start);
      var m: nat := n - 1;
      forall v ensures Reach(site, v, m) <==> LinkedFrom(web, startUrl, v, m) {
        ReachIff(web, startUrl, v, m);
      }
      forall v ensures u in site.links(v) <==> LinksTo(web, host, v, u) {
        LinksToIff(web, host, v, u);
      }
    }
  }

  ghost predicate LinkedWithin(web: Web, startUrl: string, u: Url, depth: int) {
    exists n: nat :: n <= Max(depth, 0) && LinkedFrom(web, startUrl, u, n)
  }

  // Main result: on a site in range of the seen cap, the crawl sees exactly the start page and what is
  // at most max_depth accepted links away from it.
  lemma VisitedIff(web: Web, startUrl: string, lim: Limits, urls: set<Url>, u: Url)
    requires |urls| <= 4 * lim.maxPages && forall v :: LinkedWithin(web, startUrl, v, lim.maxDepth) ==> v in urls
    ensures u in Search(SiteOf(web, startUrl), lim).dist <==> LinkedWithin(web, startUrl, u, lim.maxDepth)
  {
    hide SiteOf, Search, SearchInv, PagesInv, LinkedFrom, Reach;
    var site := SiteOf(web, startUrl);
    var s := Search(site, lim);
    SearchExhausts(site, lim);
    forall v ensures InRange(site, lim, v) <==> LinkedWithin(web, startUrl, v, lim.maxDepth) {
      InRangeIff(web, startUrl, lim, v);
    }
    CapIsHarmlessOnSmallSites(site, lim, s, urls);
    SeenIsTheBall(site, lim, s, u);
  }

  lemma InRangeIff(web: Web, startUrl: string, lim: Limits, u: Url)
    ensures InRange(SiteOf(web, startUrl), lim, u) <==> LinkedWithin(web, startUrl, u, lim.maxDepth)
  {
    hide SiteOf, LinkedFrom, Reach;
    forall n: nat ensures Reach(SiteOf(web, startUrl), u, n) <==> LinkedFrom(web, startUrl, u, n) {
      ReachIff(web, startUrl, u, n);
    }
  }

  // ---------------------------------------------------------------- and what it brings back

  // The page at u: its URL, the first 300 characters of its title without the white space around it,
  // and its text, likewise bare, of more than 120 characters.
  ghost predicate IsPageOf(web: Web, u: Url, p: Page) {
    && p.url == u && web.get(u).Some? && web.get(u).value.text.Some?
    && var html := web.get(u).value;
    && p.body.text == Strip(html.text.value) && |p.body.text| > 120
    && |p.body.title| <= 300
    && (html.title.None? ==> p.body.title == "")
    && (html.title.Some? ==> p.body.title <= Strip(html.title.value)
                             && (|p.body.title| < 300 ==> p.body.title == Strip(html.title.value)))
  }

  lemma BodyIff(web: Web, u: Url, body: Body)
    ensures BodyOf(web, u) == Some(body) <==> IsPageOf(web, u, Page(u, body))
  {
    hide Strip;
    if web.get(u).Some? && web.get(u).value.title.Some? {
      TitleIff(Strip(web.get(u).value.title.value), body.title);
    }
  }

  lemma TitleIff(full: string, title: string)
    ensures title == Take(full, 300) <==> |title| <= 300 && title <= full && (|title| < 300 ==> title == full)
  {
  }

  // Every page the crawl returns is the page at its URL, in range; and on a site in range of the seen
  // cap, a page in range is returned unless max_pages others are.
  lemma LinkedPagesAreReturned(web: Web, startUrl: string, lim: Limits, urls: set<Url>, p: Page)
    requires |urls| <= 4 * lim.maxPages && forall v :: LinkedWithin(web, startUrl, v, lim.maxDepth) ==> v in urls
    ensures var pages := Returned(Search(SiteOf(web, startUrl), lim), lim);
            && (p in pages ==> IsPageOf(web, p.url, p) && LinkedWithin(web, startUrl, p.url, lim.maxDepth))
            && (IsPageOf(web, p.url, p) && LinkedWithin(web, startUrl, p.url, lim.maxDepth) ==>
                  p in pages || |pages| == lim.maxPages)
  {
    hide Search, IsPageOf, BodyOf, LinksOf, SearchInv, PagesInv, LinkedFrom, Reach, InRange, LinkedWithin, Returned;
    var site := SiteOf(web, startUrl);
    var s := Search(site, lim);
    SearchExhausts(site, lim);
    CrawlIsSound(site, lim, s);
    InRangeIff(web, startUrl, lim, p.url);
    BodyIff(web, p.url, p.body);
    assert Page(p.url, p.body) == p;
    if IsPageOf(web, p.url, p) && LinkedWithin(web, startUrl, p.url, lim.maxDepth) {
      VisitedIff(web, startUrl, lim, urls, p.url);
      SeenAtShortestDistance(site, lim, p.url);
      forall v | InRange(site, lim, v) ensures v in urls {
        InRangeIff(web, startUrl, lim, v);
      }
      CrawlIsComplete(site, lim, s, urls, p.url, s.dist[p.url]);
      var pages := Returned(s, lim);
      if HasPage(pages, p.url) {
        var i :| 0 <= i < |pages| && pages[i].url == p.url;
        assert pages[i] in pages;
        assert pages[i] == p;
      }
    }
  }
}
