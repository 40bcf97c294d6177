// Bounded breadth-first search over a link graph, as app/rag/crawler.py performs it.
//
// Drain is the simple form: one queue, one URL at a time, no page cap. The program's batched
// loop is Crawler.Crawl, proved to return the same pages.
module LinkSearch {
  import opened Prelude

  type Url = string

  datatype Body = Body(title: string, text: string)
  datatype Page = Page(url: Url, body: Body)

  datatype Limits = Limits(maxPages: int, maxDepth: int) {
    function SeenCap(): int { maxPages * 4 }
    function Deepest(): nat { Max(maxDepth, 0) }
  }

  // A site as the search sees it: the links it accepts from a URL, and what it keeps of the
  // URL's text (None when it cannot be fetched or has too little of it).
  datatype Site = Site(start: Url, links: Url -> seq<Url>, body: Url -> Option<Body>)

  // ---------------------------------------------------------------- distance

  // u is n link steps away from the start page.
  ghost predicate Reach(site: Site, u: Url, n: nat)
    decreases n
  {
    if n == 0 then u == site.start
    else exists v :: Reach(site, v, n - 1) && u in site.links(v)
  }

  ghost predicate IsDistance(site: Site, u: Url, n: nat) {
    Reach(site, u, n) && forall m: nat :: Reach(site, u, m) ==> n <= m
  }

  // ---------------------------------------------------------------- the simple form

  // dist is the seen set, each URL with the depth it was queued at. `lost` is a link the
  // seen cap turned away.
  datatype State = State(queue: seq<(Url, nat)>, dist: map<Url, nat>, done: set<Url>, pages: seq<Page>,
                         lost: Option<Url>)

  function Start(site: Site): State {
    State([(site.start, 0)], map[site.start := 0], {}, [], None)
  }

  function Slack(lim: Limits, s: State): nat {
    Max(lim.SeenCap() - |s.dist.Keys|, 0)
  }

  function EnlistOne(link: Url, depth: nat, lim: Limits, s: State): (r: State)
    ensures |r.queue| + Slack(lim, r) <= |s.queue| + Slack(lim, s)
    ensures s.queue != [] ==> r.queue != [] && r.queue[0] == s.queue[0]
  {
    if link in s.dist then s
    else if |s.dist.Keys| < lim.SeenCap() then
      s.(queue := s.queue + [(link, depth)], dist := s.dist[link := depth])
    else s.(lost := Some(link))
  }

  // The first n of the links, one after the other.
  function Enlist(links: seq<Url>, n: nat, depth: nat, lim: Limits, s: State): (r: State)
    requires n <= |links|
    ensures |r.queue| + Slack(lim, r) <= |s.queue| + Slack(lim, s)
    ensures s.queue != [] ==> r.queue != [] && r.queue[0] == s.queue[0]
  {
    if n == 0 then s
    else EnlistOne(links[n - 1], depth, lim, Enlist(links, n - 1, depth, lim, s))
  }

  function PageList(site: Site, u: Url): seq<Page> {
    if site.body(u).Some? then [Page(u, site.body(u).value)] else []
  }

  lemma GrowsNothing(m: map<Url, nat>)
    ensures Grows(m, m)
  {}

  lemma GrowsTwice(m: map<Url, nat>, m': map<Url, nat>, m'': map<Url, nat>)
    requires Grows(m, m') && Grows(m', m'')
    ensures Grows(m, m'') && forall u :: u in m' ==> u in m''
  {}

  // The head of the queue with its links enlisted, before it is taken off.
  function Expand(site: Site, lim: Limits, s: State): (r: State)
    requires s.queue != []
    ensures |r.queue| + Slack(lim, r) <= |s.queue| + Slack(lim, s)
    ensures r.queue != [] && r.queue[0] == s.queue[0]
  {
    var (url, depth) := s.queue[0];
    if depth < lim.maxDepth then Enlist(site.links(url), |site.links(url)|, depth + 1, lim, s) else s
  }

  function Visit(site: Site, lim: Limits, s: State): (r: State)
    requires s.queue != []
    ensures |r.queue| + Slack(lim, r) < |s.queue| + Slack(lim, s)
  {
    var x := Expand(site, lim, s);
    var url := s.queue[0].0;
    x.(queue := x.queue[1..], done := x.done + {url}, pages := x.pages + PageList(site, url))
  }

  function Drain(site: Site, lim: Limits, s: State): (r: State)
    ensures r.queue == []
    decreases |s.queue| + Slack(lim, s)
  {
    if s.queue == [] then s else Drain(site, lim, Visit(site, lim, s))
  }

  // ---------------------------------------------------------------- the invariant of the search

  ghost predicate QueueInv(s: State) {
    && Recorded(s.queue, s.dist)
    && Ordered(s.queue)
    && Accounted(s)
    && (forall u, i :: u in s.done && 0 <= i < |s.queue| ==> s.dist[u] <= s.queue[i].1)
  }

  // Each queued URL is recorded at its depth, and none is queued twice.
  ghost predicate Recorded(queue: seq<(Url, nat)>, dist: map<Url, nat>) {
    && (forall i :: 0 <= i < |queue| ==> queue[i].0 in dist && dist[queue[i].0] == queue[i].1)
    && (forall i, j :: 0 <= i < j < |queue| ==> queue[i].0 != queue[j].0)
  }

  // Depths never decrease along the queue and differ by at most one.
  ghost predicate Ordered(queue: seq<(Url, nat)>) {
    && (forall i, j :: 0 <= i < j < |queue| ==> queue[i].1 <= queue[j].1)
    && (forall i :: 0 <= i < |queue| ==> queue[i].1 <= queue[0].1 + 1)
  }

  ghost predicate Queued(queue: seq<(Url, nat)>, u: Url) {
    exists i :: 0 <= i < |queue| && queue[i].0 == u
  }

  // What has been seen is either finished or queued, and not both.
  ghost predicate Accounted(s: State) {
    && s.done <= s.dist.Keys
    && (forall u :: u in s.dist ==> (u in s.done <==> !Queued(s.queue, u)))
  }

  ghost predicate SearchInv(site: Site, lim: Limits, s: State) {
    && QueueInv(s)
    && site.start in s.dist
    && Shortest(site, lim, s.dist)
    && Capped(lim, s.dist)
    && (s.lost.None? ==> Expanded(site, lim, s.done, s.dist))
    && (s.lost.Some? ==> |s.dist.Keys| >= lim.SeenCap() && s.lost.value !in s.dist && InRange(site, lim, s.lost.value))
  }

  ghost predicate Shortest(site: Site, lim: Limits, dist: map<Url, nat>) {
    forall u :: u in dist ==> IsDistance(site, u, dist[u]) && dist[u] <= lim.Deepest()
  }

  // The start page apart, only the cap limits what is seen.
  ghost predicate Capped(lim: Limits, dist: map<Url, nat>) {
    |dist.Keys| <= Max(lim.SeenCap(), 1)
  }

  // The links of every finished URL short of the depth cap have been seen.
  ghost predicate Expanded(site: Site, lim: Limits, done: set<Url>, dist: map<Url, nat>)
    requires done <= dist.Keys
  {
    forall u, v :: u in done && dist[u] < lim.maxDepth && v in site.links(u) ==> v in dist
  }

  ghost predicate InRange(site: Site, lim: Limits, u: Url) {
    exists k: nat :: k <= lim.Deepest() && Reach(site, u, k)
  }

  // While nothing was turned away, every URL within h steps is already seen, for any h not
  // above the depth of an unfinished URL.
  lemma {:induction false} NearIsSeen(site: Site, lim: Limits, s: State, u: Url, k: nat, h: nat)
    requires SearchInv(site, lim, s) && s.lost.None?
    requires forall v :: v in s.dist && v !in s.done ==> h <= s.dist[v]
    requires Reach(site, u, k) && k <= h && k <= lim.Deepest()
    ensures u in s.dist && s.dist[u] <= k
    decreases k
  {
    if k > 0 {
      var w :| Reach(site, w, k - 1) && u in site.links(w);
      NearIsSeen(site, lim, s, w, k - 1, h);
    }
  }

  lemma UnfinishedIsDeep(s: State)
    requires QueueInv(s) && s.queue != []
    ensures forall v :: v in s.dist && v !in s.done ==> s.queue[0].1 <= s.dist[v]
  {
    forall v | v in s.dist && v !in s.done ensures s.queue[0].1 <= s.dist[v] {
      var i :| 0 <= i < |s.queue| && s.queue[i].0 == v;
      assert s.queue[0].1 <= s.queue[i].1;
    }
  }

  // A link not yet seen is exactly one step farther than the URL that holds it.
  lemma NewLinkDistance(site: Site, lim: Limits, s: State, link: Url)
    requires SearchInv(site, lim, s) && s.queue != [] && s.lost.None?
    requires s.queue[0].1 < lim.maxDepth
    requires link in site.links(s.queue[0].0) && link !in s.dist
    ensures IsDistance(site, link, s.queue[0].1 + 1)
  {
    var d := s.queue[0].1;
    assert Reach(site, s.queue[0].0, d);
    assert Reach(site, link, d + 1);
    UnfinishedIsDeep(s);
    forall m: nat | Reach(site, link, m) ensures d + 1 <= m {
      if m <= d {
        NearIsSeen(site, lim, s, link, m, d);
      }
    }
  }

  lemma AppendKeepsAccount(s: State, link: Url, d: nat)
    requires Accounted(s) && link !in s.dist
    ensures Accounted(s.(queue := s.queue + [(link, d)], dist := s.dist[link := d]))
  {
    var queue := s.queue + [(link, d)];
    forall u | u in s.dist || u == link
      ensures Queued(queue, u) <==> Queued(s.queue, u) || u == link
    {
      if u == link {
        assert queue[|s.queue|].0 == link;
      } else if Queued(s.queue, u) {
        var i :| 0 <= i < |s.queue| && s.queue[i].0 == u;
        assert queue[i].0 == u;
      }
    }
  }

  lemma AppendKeepsQueue(s: State, link: Url)
    requires QueueInv(s) && s.queue != [] && link !in s.dist
    ensures var d := s.queue[0].1 + 1;
            QueueInv(s.(queue := s.queue + [(link, d)], dist := s.dist[link := d]))
  {
    hide Accounted, Queued, Recorded, Ordered;
    var d := s.queue[0].1 + 1;
    DoneIsSeen(s);
    AppendKeepsAccount(s, link, d);
    AppendKeepsRecorded(s.queue, s.dist, link, d);
    AppendKeepsOrdered(s.queue, link);
  }

  lemma AppendKeepsRecorded(queue: seq<(Url, nat)>, dist: map<Url, nat>, link: Url, d: nat)
    requires Recorded(queue, dist) && link !in dist
    ensures Recorded(queue + [(link, d)], dist[link := d])
  {
  }

  lemma AppendKeepsOrdered(queue: seq<(Url, nat)>, link: Url)
    requires Ordered(queue) && queue != []
    ensures Ordered(queue + [(link, queue[0].1 + 1)])
  {
  }

  lemma PopKeepsAccount(s: State)
    requires Accounted(s) && Recorded(s.queue, s.dist) && s.queue != []
    ensures Accounted(s.(queue := s.queue[1..], done := s.done + {s.queue[0].0}))
  {
    var queue := s.queue[1..];
    forall u | u in s.dist
      ensures Queued(queue, u) <==> Queued(s.queue, u) && u != s.queue[0].0
    {
      if Queued(s.queue, u) && u != s.queue[0].0 {
        var i :| 0 <= i < |s.queue| && s.queue[i].0 == u;
        assert queue[i - 1].0 == u;
      }
      if Queued(queue, u) {
        var i :| 0 <= i < |queue| && queue[i].0 == u;
        assert s.queue[i + 1].0 == u;
      }
    }
  }

  lemma PopKeepsQueue(s: State)
    requires QueueInv(s) && s.queue != []
    ensures QueueInv(s.(queue := s.queue[1..], done := s.done + {s.queue[0].0}))
  {
    PopKeepsAccount(s);
    hide Accounted, Queued;
    assert forall i :: 0 <= i < |s.queue| - 1 ==> s.queue[1..][i] == s.queue[i + 1];
  }

  lemma AppendKeepsShortest(site: Site, lim: Limits, s: State, link: Url)
    requires Shortest(site, lim, s.dist) && s.queue != [] && s.queue[0].1 < lim.maxDepth
    requires IsDistance(site, link, s.queue[0].1 + 1)
    ensures Shortest(site, lim, s.dist[link := s.queue[0].1 + 1])
  {
    hide IsDistance;
  }

  lemma AppendKeepsExpanded(site: Site, lim: Limits, done: set<Url>, dist: map<Url, nat>, link: Url, d: nat)
    requires done <= dist.Keys && link !in dist && Expanded(site, lim, done, dist)
    ensures done <= dist[link := d].Keys && Expanded(site, lim, done, dist[link := d])
  {
  }

  lemma DoneIsSeen(s: State)
    requires QueueInv(s)
    ensures s.done <= s.dist.Keys
  {
  }

  lemma AppendKeepsCapped(lim: Limits, dist: map<Url, nat>, link: Url, d: nat)
    requires link !in dist && |dist.Keys| < lim.SeenCap()
    ensures Capped(lim, dist[link := d])
  {
    assert dist[link := d].Keys == dist.Keys + {link};
  }

  lemma AppendKeepsInv(site: Site, lim: Limits, s: State, link: Url)
    requires SearchInv(site, lim, s) && s.queue != [] && s.queue[0].1 < lim.maxDepth
    requires link in site.links(s.queue[0].0) && link !in s.dist && |s.dist.Keys| < lim.SeenCap()
    ensures SearchInv(site, lim, EnlistOne(link, s.queue[0].1 + 1, lim, s))
  {
    hide QueueInv, Shortest, Expanded, Capped, IsDistance;
    DoneIsSeen(s);
    NewLinkDistance(site, lim, s, link);
    AppendKeepsShortest(site, lim, s, link);
    AppendKeepsExpanded(site, lim, s.done, s.dist, link, s.queue[0].1 + 1);
    AppendKeepsCapped(lim, s.dist, link, s.queue[0].1 + 1);
    AppendKeepsQueue(s, link);
  }

  lemma EnlistOneKeepsInv(site: Site, lim: Limits, s: State, link: Url)
    requires SearchInv(site, lim, s) && s.queue != [] && s.queue[0].1 < lim.maxDepth
    requires link in site.links(s.queue[0].0)
    ensures SearchInv(site, lim, EnlistOne(link, s.queue[0].1 + 1, lim, s))
  {
    if link !in s.dist {
      if |s.dist.Keys| < lim.SeenCap() {
        AppendKeepsInv(site, lim, s, link);
      } else {
        LinkIsInRange(site, lim, s, link);
        assert QueueInv(s.(lost := Some(link)));
      }
    }
  }

  lemma LinkIsInRange(site: Site, lim: Limits, s: State, link: Url)
    requires s.queue != [] && Recorded(s.queue, s.dist) && Shortest(site, lim, s.dist)
    requires s.queue[0].1 < lim.maxDepth && link in site.links(s.queue[0].0)
    ensures InRange(site, lim, link)
  {
    assert Reach(site, s.queue[0].0, s.queue[0].1);
    assert Reach(site, link, s.queue[0].1 + 1);
  }

  lemma EnlistOneGrows(link: Url, depth: nat, lim: Limits, s: State)
    ensures var r := EnlistOne(link, depth, lim, s);
            && Grows(s.dist, r.dist) && r.done == s.done && r.pages == s.pages
            && (r.lost.None? ==> link in r.dist && s.lost.None?)
  {}

  // Enlisting only adds.
  lemma {:induction false} EnlistGrows(links: seq<Url>, n: nat, depth: nat, lim: Limits, s: State)
    requires n <= |links|
    ensures var r := Enlist(links, n, depth, lim, s);
            Grows(s.dist, r.dist) && r.done == s.done && r.pages == s.pages
  {
    hide EnlistOne, Grows;
    if n == 0 {
      GrowsNothing(s.dist);
    } else {
      EnlistGrows(links, n - 1, depth, lim, s);
      var mid := Enlist(links, n - 1, depth, lim, s);
      EnlistOneGrows(links[n - 1], depth, lim, mid);
      GrowsTwice(s.dist, mid.dist, EnlistOne(links[n - 1], depth, lim, mid).dist);
    }
  }

  // Without a refusal, every link ends up seen.
  lemma {:induction false} EnlistSees(links: seq<Url>, n: nat, depth: nat, lim: Limits, s: State, j: nat)
    requires j < n <= |links| && Enlist(links, n, depth, lim, s).lost.None?
    ensures links[j] in Enlist(links, n, depth, lim, s).dist
  {
    hide EnlistOne;
    EnlistOneGrows(links[n - 1], depth, lim, Enlist(links, n - 1, depth, lim, s));
    if j < n - 1 {
      EnlistSees(links, n - 1, depth, lim, s, j);
    }
  }

  // a is met before b among the first n links.
  ghost predicate MetBefore(links: seq<Url>, n: nat, a: Url, b: Url)
    requires n <= |links|
  {
    exists i, j :: 0 <= i < j < n && links[i] == a && links[j] == b && b !in links[..j]
  }

  // What stands in the queue from `base` on are links of the first n, at this depth, as they are met.
  ghost predicate InOrder(links: seq<Url>, n: nat, depth: nat, base: nat, queue: seq<(Url, nat)>)
    requires n <= |links|
  {
    && (forall p :: base <= p < |queue| ==> queue[p].1 == depth && queue[p].0 in links[..n])
    && (forall p, q :: base <= p < q < |queue| ==> MetBefore(links, n, queue[p].0, queue[q].0))
  }

  // Every one of the first n links has been seen, unless there is no room.
  ghost predicate SeenOrFull(links: seq<Url>, n: nat, lim: Limits, s: State)
    requires n <= |links|
  {
    forall u :: u in links[..n] ==> u in s.dist || |s.dist.Keys| >= lim.SeenCap()
  }

  lemma OneMoreInOrder(links: seq<Url>, m: nat, depth: nat, lim: Limits, base: nat, mid: State)
    requires m < |links| && base <= |mid.queue| && InOrder(links, m, depth, base, mid.queue)
    requires SeenOrFull(links, m, lim, mid)
    ensures InOrder(links, m + 1, depth, base, EnlistOne(links[m], depth, lim, mid).queue)
  {
    hide MetBefore;
    var r := EnlistOne(links[m], depth, lim, mid);
    assert links[..m + 1] == links[..m] + [links[m]];
    forall p, q | base <= p < q < |r.queue| ensures MetBefore(links, m + 1, r.queue[p].0, r.queue[q].0) {
      if q < |mid.queue| {
        MetStill(links, m, mid.queue[p].0, mid.queue[q].0);
      } else {
        MetLast(links, m, r.queue[p].0);
      }
    }
  }

  lemma OneMoreSeen(links: seq<Url>, m: nat, depth: nat, lim: Limits, mid: State)
    requires m < |links| && SeenOrFull(links, m, lim, mid)
    ensures SeenOrFull(links, m + 1, lim, EnlistOne(links[m], depth, lim, mid))
  {
    var r := EnlistOne(links[m], depth, lim, mid);
    assert links[..m + 1] == links[..m] + [links[m]];
    SubsetSize(mid.dist.Keys, r.dist.Keys);
  }

  // The links not seen before join the end of the queue, one step deeper, in the order they are met.
  lemma {:induction false} EnlistInOrder(links: seq<Url>, n: nat, depth: nat, lim: Limits, s: State)
    requires n <= |links|
    ensures s.queue <= Enlist(links, n, depth, lim, s).queue
    ensures InOrder(links, n, depth, |s.queue|, Enlist(links, n, depth, lim, s).queue)
    ensures SeenOrFull(links, n, lim, Enlist(links, n, depth, lim, s))
  {
    hide InOrder, SeenOrFull, EnlistOne, MetBefore;
    if n == 0 {
      NoneInOrder(links, depth, lim, s);
    } else {
      var mid := Enlist(links, n - 1, depth, lim, s);
      EnlistInOrder(links, n - 1, depth, lim, s);
      OneMoreInOrder(links, n - 1, depth, lim, |s.queue|, mid);
      OneMoreSeen(links, n - 1, depth, lim, mid);
      EnlistOneAppends(links[n - 1], depth, lim, mid);
    }
  }

  lemma EnlistOneAppends(link: Url, depth: nat, lim: Limits, s: State)
    ensures s.queue <= EnlistOne(link, depth, lim, s).queue
  {
  }

  lemma NoneInOrder(links: seq<Url>, depth: nat, lim: Limits, s: State)
    ensures InOrder(links, 0, depth, |s.queue|, s.queue) && SeenOrFull(links, 0, lim, s)
  {
  }

  lemma MetStill(links: seq<Url>, m: nat, a: Url, b: Url)
    requires m < |links| && MetBefore(links, m, a, b)
    ensures MetBefore(links, m + 1, a, b)
  {
  }

  lemma MetLast(links: seq<Url>, m: nat, a: Url)
    requires m < |links| && a in links[..m] && links[m] !in links[..m]
    ensures MetBefore(links, m + 1, a, links[m])
  {
    var i :| 0 <= i < m && links[..m][i] == a;
    assert links[i] == a;
  }

  lemma {:induction false} EnlistKeepsInv(site: Site, lim: Limits, s: State, links: seq<Url>, n: nat)
    requires SearchInv(site, lim, s) && s.queue != [] && s.queue[0].1 < lim.maxDepth
    requires n <= |links| && links == site.links(s.queue[0].0)
    ensures SearchInv(site, lim, Enlist(links, n, s.queue[0].1 + 1, lim, s))
  {
    hide SearchInv;
    if n > 0 {
      EnlistKeepsInv(site, lim, s, links, n - 1);
      EnlistOneKeepsInv(site, lim, Enlist(links, n - 1, s.queue[0].1 + 1, lim, s), links[n - 1]);
    }
  }

  ghost predicate Grows(m: map<Url, nat>, m': map<Url, nat>) {
    forall u :: u in m ==> u in m' && m'[u] == m[u]
  }

  lemma ExpandKeepsInv(site: Site, lim: Limits, s: State)
    requires SearchInv(site, lim, s) && s.queue != []
    ensures SearchInv(site, lim, Expand(site, lim, s))
  {
    hide Enlist, Shortest, Accounted, Ordered, Expanded;
    if s.queue[0].1 < lim.maxDepth {
      var links := site.links(s.queue[0].0);
      EnlistKeepsInv(site, lim, s, links, |links|);
    }
  }

  lemma ExpandGrows(site: Site, lim: Limits, s: State)
    requires s.queue != []
    ensures var r := Expand(site, lim, s);
            && Grows(s.dist, r.dist) && r.done == s.done && r.pages == s.pages
            && (r.lost.None? && s.queue[0].1 < lim.maxDepth ==>
                  forall l :: l in site.links(s.queue[0].0) ==> l in r.dist)
  {
    hide Enlist, Grows;
    GrowsNothing(s.dist);
    var links := site.links(s.queue[0].0);
    EnlistGrows(links, |links|, s.queue[0].1 + 1, lim, s);
    forall l | l in links && Expand(site, lim, s).lost.None? && s.queue[0].1 < lim.maxDepth
      ensures l in Expand(site, lim, s).dist
    {
      var j :| 0 <= j < |links| && links[j] == l;
      EnlistSees(links, |links|, s.queue[0].1 + 1, lim, s, j);
    }
  }

  lemma PagesDoNotMatter(s: State, pages: seq<Page>)
    requires QueueInv(s)
    ensures QueueInv(s.(pages := pages))
  {}

  lemma PopKeepsExpanded(site: Site, lim: Limits, s: State)
    requires s.queue != [] && Recorded(s.queue, s.dist) && s.done <= s.dist.Keys
    requires Expanded(site, lim, s.done, s.dist)
    requires s.queue[0].1 < lim.maxDepth ==> forall l :: l in site.links(s.queue[0].0) ==> l in s.dist
    ensures Expanded(site, lim, s.done + {s.queue[0].0}, s.dist)
  {}

  lemma PopKeepsInv(site: Site, lim: Limits, s: State, pages: seq<Page>)
    requires SearchInv(site, lim, s) && s.queue != []
    requires s.lost.None? && s.queue[0].1 < lim.maxDepth ==>
               forall l :: l in site.links(s.queue[0].0) ==> l in s.dist
    ensures SearchInv(site, lim, s.(queue := s.queue[1..], done := s.done + {s.queue[0].0}, pages := pages))
  {
    PopKeepsQueue(s);
    hide Ordered, Accounted, Shortest, InRange;
    var r := s.(queue := s.queue[1..], done := s.done + {s.queue[0].0}, pages := pages);
    assert QueueInv(r) by {
      var r0 := s.(queue := s.queue[1..], done := s.done + {s.queue[0].0});
      assert QueueInv(r0) && r0.queue == r.queue && r0.dist == r.dist && r0.done == r.done;
      PagesDoNotMatter(r0, pages);
    }
    if s.lost.None? {
      PopKeepsExpanded(site, lim, s);
    }
  }

  // One visit: see the links of the head of the queue, then finish it.
  lemma VisitKeepsInv(site: Site, lim: Limits, s: State)
    requires SearchInv(site, lim, s) && s.queue != []
    ensures SearchInv(site, lim, Visit(site, lim, s))
  {
    hide SearchInv, Expand, Grows;
    ExpandKeepsInv(site, lim, s);
    ExpandGrows(site, lim, s);
    PopKeepsInv(site, lim, Expand(site, lim, s), Visit(site, lim, s).pages);
  }

  // ---------------------------------------------------------------- the pages

  ghost predicate HasPage(pages: seq<Page>, u: Url) {
    exists i :: 0 <= i < |pages| && pages[i].url == u
  }

  ghost predicate PagesInv(site: Site, s: State) {
    && s.done <= s.dist.Keys
    && (forall i :: 0 <= i < |s.pages| ==>
          s.pages[i].url in s.done && site.body(s.pages[i].url) == Some(s.pages[i].body))
    && (forall i, j :: 0 <= i < j < |s.pages| ==>
          s.pages[i].url != s.pages[j].url && s.dist[s.pages[i].url] <= s.dist[s.pages[j].url])
    && (forall u :: u in s.done && site.body(u).Some? ==> HasPage(s.pages, u))
  }

  lemma AppendKeepsPages(site: Site, s: State, dist: map<Url, nat>, url: Url)
    requires PagesInv(site, s) && Grows(s.dist, dist)
    requires url in s.dist && url !in s.done && forall u :: u in s.done ==> s.dist[u] <= s.dist[url]
    ensures PagesInv(site, s.(dist := dist, done := s.done + {url}, pages := s.pages + PageList(site, url)))
  {
    var pages := s.pages + PageList(site, url);
    assert forall i :: 0 <= i < |s.pages| ==> pages[i] == s.pages[i];
    forall u | u in s.done + {url} && site.body(u).Some? ensures HasPage(pages, u) {
      if u == url {
        assert pages[|s.pages|].url == url;
      } else {
        var i :| 0 <= i < |s.pages| && s.pages[i].url == u;
        assert pages[i].url == u;
      }
    }
  }

  lemma VisitKeepsPages(site: Site, lim: Limits, s: State)
    requires SearchInv(site, lim, s) && PagesInv(site, s) && s.queue != []
    ensures PagesInv(site, Visit(site, lim, s))
  {
    ExpandGrows(site, lim, s);
    var r := Visit(site, lim, s);
    assert Queued(s.queue, s.queue[0].0);
    AppendKeepsPages(site, s, r.dist, s.queue[0].0);
    assert PagesInv(site, s.(dist := r.dist, done := r.done, pages := r.pages));
  }

  lemma {:induction false} DrainKeepsInv(site: Site, lim: Limits, s: State)
    requires SearchInv(site, lim, s) && PagesInv(site, s)
    ensures SearchInv(site, lim, Drain(site, lim, s)) && PagesInv(site, Drain(site, lim, s))
    decreases |s.queue| + Slack(lim, s)
  {
    if s.queue != [] {
      VisitKeepsInv(site, lim, s);
      VisitKeepsPages(site, lim, s);
      DrainKeepsInv(site, lim, Visit(site, lim, s));
    }
  }

  function Search(site: Site, lim: Limits): State {
    Drain(site, lim, Start(site))
  }

  lemma SearchStartsHere(site: Site, lim: Limits)
    ensures Search(site, lim) == Drain(site, lim, Start(site))
  {}

  lemma DrainStopsWhenEmpty(site: Site, lim: Limits, s: State)
    requires s.queue == []
    ensures Drain(site, lim, s) == s
  {}

  // A state in which the search has run dry.
  ghost predicate Exhausted(site: Site, lim: Limits, s: State) {
    SearchInv(site, lim, s) && PagesInv(site, s) && s.queue == []
  }

  lemma SearchExhausts(site: Site, lim: Limits)
    ensures Exhausted(site, lim, Search(site, lim))
  {
    var s := Start(site);
    assert IsDistance(site, site.start, 0) by { assert Reach(site, site.start, 0); }
    assert Queued(s.queue, site.start) by { assert s.queue[0].0 == site.start; }
    DrainKeepsInv(site, lim, s);
  }

  // ---------------------------------------------------------------- main results

  // Every URL the search sees carries its shortest link distance, cap or no cap.
  lemma SeenAtShortestDistance(site: Site, lim: Limits, u: Url)
    requires u in Search(site, lim).dist
    ensures IsDistance(site, u, Search(site, lim).dist[u]) && Search(site, lim).dist[u] <= lim.Deepest()
  {
    SearchExhausts(site, lim);
  }

  // With no link turned away, the seen URLs are exactly those within max_depth steps.
  lemma SeenIsTheBall(site: Site, lim: Limits, s: State, u: Url)
    requires Exhausted(site, lim, s) && s.lost.None?
    ensures u in s.done <==> InRange(site, lim, u)
    ensures s.done == s.dist.Keys
  {
    assert forall v :: v in s.dist ==> v in s.done || Queued(s.queue, v);
    if InRange(site, lim, u) {
      var k: nat :| k <= lim.Deepest() && Reach(site, u, k);
      NearIsSeen(site, lim, s, u, k, k);
    }
    if u in s.done {
      assert Reach(site, u, s.dist[u]);
    }
  }

  ghost predicate Covers(site: Site, lim: Limits, urls: set<Url>) {
    forall u :: InRange(site, lim, u) ==> u in urls
  }

  // The seen cap turns a link away only on a site with more than 4 * max_pages URLs in range.
  lemma CapIsHarmlessOnSmallSites(site: Site, lim: Limits, s: State, urls: set<Url>)
    requires Exhausted(site, lim, s)
    requires Covers(site, lim, urls) && |urls| <= lim.SeenCap()
    ensures s.lost.None?
  {
    assert s.dist.Keys <= urls by {
      forall u | u in s.dist ensures InRange(site, lim, u) {
        assert Reach(site, u, s.dist[u]);
      }
    }
    if s.lost.Some? {
      SubsetSize(s.dist.Keys + {s.lost.value}, urls);
    }
  }

  // Exactly: with `ball` the URLs in range, a link is turned away just when they outnumber the cap.
  // (The start page is seen whatever the cap.)
  lemma CapIff(site: Site, lim: Limits, s: State, ball: set<Url>)
    requires Exhausted(site, lim, s)
    requires forall u :: u in ball <==> InRange(site, lim, u)
    ensures s.lost.None? <==> |ball| <= Max(lim.SeenCap(), 1)
  {
    hide InRange, QueueInv, Expanded;
    if s.lost.None? {
      forall u ensures u in ball <==> u in s.dist {
        SeenIsTheBall(site, lim, s, u);
      }
      assert ball == s.dist.Keys;
    } else {
      forall u | u in s.dist ensures u in ball {
        SeenIsInRange(site, lim, s, u);
      }
      SubsetSize(s.dist.Keys + {s.lost.value}, ball);
      SubsetSize({site.start}, s.dist.Keys);
    }
  }

  lemma SeenIsInRange(site: Site, lim: Limits, s: State, u: Url)
    requires Shortest(site, lim, s.dist) && u in s.dist
    ensures InRange(site, lim, u)
  {
    assert Reach(site, u, s.dist[u]);
  }

  // What the crawl hands back: the pages cut at max_pages.
  function Returned(s: State, lim: Limits): seq<Page> {
    Take(s.pages, Max(lim.maxPages, 0))
  }

  // Read off the site alone: at most max_pages distinct pages, each what its URL serves and in
  // range of the depth cap, in order of link distance.
  lemma CrawlIsSound(site: Site, lim: Limits, s: State)
    requires Exhausted(site, lim, s)
    ensures |Returned(s, lim)| <= Max(lim.maxPages, 0)
    ensures forall p :: p in Returned(s, lim) ==> site.body(p.url) == Some(p.body) && InRange(site, lim, p.url)
    ensures forall i, j :: 0 <= i < j < |Returned(s, lim)| ==> Returned(s, lim)[i].url != Returned(s, lim)[j].url
    ensures forall i, j, a: nat, b: nat ::
              (0 <= i < j < |Returned(s, lim)| && IsDistance(site, Returned(s, lim)[i].url, a)
               && IsDistance(site, Returned(s, lim)[j].url, b)) ==> a <= b
  {
    var pages := Returned(s, lim);
    forall i | 0 <= i < |pages|
      ensures pages[i] == s.pages[i] && IsDistance(site, pages[i].url, s.dist[pages[i].url])
      ensures InRange(site, lim, pages[i].url)
    {
      assert Reach(site, pages[i].url, s.dist[pages[i].url]);
    }
    forall i, j, a: nat, b: nat
      | 0 <= i < j < |pages| && IsDistance(site, pages[i].url, a) && IsDistance(site, pages[j].url, b)
      ensures a <= b
    {
      assert a == s.dist[pages[i].url] && b == s.dist[pages[j].url];
    }
  }

  // On a site in range of the seen cap, a page the crawl leaves out is no nearer than any page
  // it returns, and it leaves one out only when it returns max_pages of them.
  lemma CrawlIsComplete(site: Site, lim: Limits, s: State, urls: set<Url>, u: Url, k: nat)
    requires Exhausted(site, lim, s)
    requires Covers(site, lim, urls) && |urls| <= lim.SeenCap()
    requires k <= lim.Deepest() && IsDistance(site, u, k) && site.body(u).Some?
    ensures HasPage(Returned(s, lim), u)
            || (|Returned(s, lim)| == lim.maxPages
                && forall p, d: nat :: p in Returned(s, lim) && IsDistance(site, p.url, d) ==> d <= k)
  {
    CapIsHarmlessOnSmallSites(site, lim, s, urls);
    SeenIsTheBall(site, lim, s, u);
    assert lim.maxPages > 0 by {
      assert s.dist.Keys <= urls by {
        forall v | v in s.dist ensures v in urls { SeenIsTheBall(site, lim, s, v); }
      }
      SubsetSize({site.start}, urls);
    }
    var pages := Returned(s, lim);
    var j :| 0 <= j < |s.pages| && s.pages[j].url == u;
    if j < |pages| {
      assert pages[j].url == u;
    } else {
      forall p, d: nat | p in pages && IsDistance(site, p.url, d) ensures d <= k {
        var i :| 0 <= i < |pages| && pages[i] == p;
        assert s.pages[i] == p && d == s.dist[p.url] && k == s.dist[u];
      }
    }
  }

  lemma {:induction false} DrainExtendsPages(site: Site, lim: Limits, s: State)
    ensures s.pages <= Drain(site, lim, s).pages
    decreases |s.queue| + Slack(lim, s)
  {
    if s.queue != [] {
      VisitExtendsPages(site, lim, s);
      DrainExtendsPages(site, lim, Visit(site, lim, s));
    }
  }

  lemma VisitExtendsPages(site: Site, lim: Limits, s: State)
    requires s.queue != []
    ensures Visit(site, lim, s).pages == s.pages + PageList(site, s.queue[0].0)
  {
    ExpandGrows(site, lim, s);
  }
}
