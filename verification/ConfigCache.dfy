// Resolved configs and their in-process cache (app/config/resolver.py, app/services/tenants.py), with
// the admin operations that change what a config is resolved from (app/api/admin.py).
//
// The specification is a step function over rows and cache; the cacheless step function beside it
// says what the cache must not change. The classes are proved against the first.
module ConfigCache {
  import opened Prelude
  import opened Resolver

  const TTL := 60.0

  // ---------------------------------------------------------------- the cache key

  function Decimal(n: nat): string {
    if n < 10 then ['0' + n as char] else Decimal(n / 10) + ['0' + (n % 10) as char]
  }

  lemma {:induction false} DecimalInjective(m: nat, n: nat)
    requires Decimal(m) == Decimal(n)
    ensures m == n
  {
    var dm, dn := Decimal(m), Decimal(n);
    if m >= 10 && n >= 10 {
      assert dm[..|dm| - 1] == Decimal(m / 10) && dn[..|dn| - 1] == Decimal(n / 10);
      assert dm[|dm| - 1] == '0' + (m % 10) as char && dn[|dn| - 1] == '0' + (n % 10) as char;
      DecimalInjective(m / 10, n / 10);
    } else {
      DecimalLength(m);
      DecimalLength(n);
    }
  }

  lemma {:induction false} DecimalLength(n: nat)
    ensures ':' !in Decimal(n)
    ensures n < 10 <==> |Decimal(n)| == 1
  {
    if n >= 10 {
      DecimalLength(n / 10);
      assert |Decimal(n)| == |Decimal(n / 10)| + 1;
      if n / 10 >= 10 {
        assert |Decimal(n / 10)| != 0;
      }
    }
  }

  function Part(location: string): string {
    if location == "" then "-" else location
  }

  // cache_key; None and "" both stand for no location.
  function KeyOf(tenant: string, location: string, channel: string, version: nat): string {
    tenant + ":" + Part(location) + ":" + channel + ":" + Decimal(version)
  }

  lemma LastColon(a: string, b: string)
    requires ':' !in b
    ensures (a + ":" + b)[|a|] == ':'
    ensures forall i :: |a| < i < |a + ":" + b| ==> (a + ":" + b)[i] != ':'
  {
    forall i | |a| < i < |a + ":" + b| ensures (a + ":" + b)[i] != ':' {
      assert (a + ":" + b)[i] == b[i - |a| - 1];
    }
  }

  // A string splits at its last colon in one way only.
  lemma SplitLast(a: string, b: string, c: string, d: string)
    requires ':' !in b && ':' !in d
    ensures a + ":" + b == c + ":" + d <==> a == c && b == d
  {
    LastColon(a, b);
    LastColon(c, d);
    if a + ":" + b == c + ":" + d {
      var s := a + ":" + b;
      assert |a| == |c|;
      assert a == s[..|a|] && b == s[|a| + 1..];
      assert c == s[..|c|] && d == s[|c| + 1..];
    }
  }

  // Two keys are one exactly when channel and version agree and tenant and location read the same.
  lemma KeysMeet(t1: string, l1: string, c1: string, v1: nat, t2: string, l2: string, c2: string, v2: nat)
    requires ':' !in c1 && ':' !in c2
    ensures KeyOf(t1, l1, c1, v1) == KeyOf(t2, l2, c2, v2)
            <==> c1 == c2 && v1 == v2 && t1 + ":" + Part(l1) == t2 + ":" + Part(l2)
  {
    DecimalLength(v1);
    DecimalLength(v2);
    SplitLast(t1 + ":" + Part(l1) + ":" + c1, Decimal(v1), t2 + ":" + Part(l2) + ":" + c2, Decimal(v2));
    SplitLast(t1 + ":" + Part(l1), c1, t2 + ":" + Part(l2), c2);
    if Decimal(v1) == Decimal(v2) {
      DecimalInjective(v1, v2);
    }
  }

  // One tenant key runs on from another after a colon.
  predicate Extends(t: string, u: string) {
    u + ":" <= t
  }

  lemma Runs(t: string, u: string, p: string, q: string)
    requires t + ":" + p == u + ":" + q
    requires |u| < |t|
    ensures Extends(t, u)
  {
    var s := t + ":" + p;
    assert s[..|u| + 1] == u + ":";
    assert s[..|u| + 1] == t[..|u| + 1];
  }

  // Two tenants can be given one cache key exactly when they are one tenant, or one key extends
  // the other: tenant "a" asked for location "b:x" reads like tenant "a:b" asked for "x".
  lemma TenantsMeet(t: string, u: string)
    ensures (exists l, m :: t + ":" + Part(l) == u + ":" + Part(m)) <==> t == u || Extends(t, u) || Extends(u, t)
  {
    forall l, m | t + ":" + Part(l) == u + ":" + Part(m) ensures t == u || Extends(t, u) || Extends(u, t) {
      if |u| < |t| {
        Runs(t, u, Part(l), Part(m));
      } else if |t| < |u| {
        Runs(u, t, Part(m), Part(l));
      } else {
        var s := t + ":" + Part(l);
        assert t == s[..|t|] && u == s[..|t|];
      }
    }
    if t == u {
      assert t + ":" + Part("x") == u + ":" + Part("x");
    }
    if Extends(t, u) {
      var r := t[|u| + 1..] + ":" + "x";
      assert t + ":" + Part("x") == u + ":" + Part(r);
    }
    if Extends(u, t) {
      var r := u[|t| + 1..] + ":" + "x";
      assert t + ":" + Part(r) == u + ":" + Part("x");
    }
  }

  // ---------------------------------------------------------------- rows and fresh resolution

  datatype World = World(packs: map<string, Layer>, profiles: map<string, Layer>) {
    ghost predicate Valid() { "generic" in packs }
  }

  datatype Tenant = Tenant(name: string, publicKey: string, pack: string, paused: bool,
                           overrides: Layer, version: nat, locations: map<string, Layer>)

  type Rows = map<string, Tenant>

  datatype Entry = Entry(at: real, cfg: Layer)

  type Cache = map<string, Entry>

  function PackOf(w: World, t: Tenant): Layer
    requires w.Valid()
  {
    if t.pack in w.packs then w.packs[t.pack] else w.packs["generic"]
  }

  function TenantLayer(t: Tenant): Layer {
    Dict(map["business_name" := Atom(t.name)] + t.overrides.m)
  }

  function LocationLayer(t: Tenant, location: string): Option<Layer> {
    if location != "" && location in t.locations then Some(t.locations[location]) else None
  }

  function Profile(w: World, channel: string): Layer {
    if channel in w.profiles then w.profiles[channel] else NOTHING
  }

  function Fresh(w: World, t: Tenant, location: string, channel: string): Layer
    requires w.Valid()
  {
    Fold(Stack(Some(PackOf(w, t)), Some(TenantLayer(t)), LocationLayer(t, location), Profile(w, channel)))
  }

  // ---------------------------------------------------------------- operations

  datatype Op =
    | Create(key: string, row: Tenant)
    | Patch(key: string, changes: Layer)
    | AddLocation(key: string, location: string, overrides: Layer)
    | Erase(key: string, confirm: string)
    | Request(publicKey: string, originOk: bool, channel: string, location: string)

  datatype Reply = Refused(code: nat) | Done | Config(cfg: Layer)

  ghost predicate Unique(rows: Rows) {
    forall t, u :: t in rows && u in rows && rows[t].publicKey == rows[u].publicKey ==> t == u
  }

  ghost function Holder(rows: Rows, publicKey: string): (r: Option<string>)
    ensures r.Some? ==> r.value in rows && rows[r.value].publicKey == publicKey
    ensures r.None? ==> forall t :: t in rows ==> rows[t].publicKey != publicKey
  {
    if t :| t in rows && rows[t].publicKey == publicKey then Some(t) else None
  }

  // A new row as create_tenant makes it: version 1, no locations, not paused.
  predicate NewRow(row: Tenant) {
    row.version == 1 && row.locations == map[] && !row.paused
  }

  // What an admin operation does to the rows; None when the request is refused.
  ghost function Changed(w: World, rows: Rows, op: Op): (r: (Rows, Reply))
    requires !op.Request?
  {
    match op
    case Create(key, row) =>
      if row.pack !in w.packs then (rows, Refused(400))
      else if key in rows then (rows, Refused(409))
      else if Holder(rows, row.publicKey).Some? then (rows, Refused(500))
      else (rows[key := row], Done)
    case Patch(key, changes) =>
      if key !in rows then (rows, Refused(404))
      else var t := rows[key];
           (rows[key := t.(overrides := Dict(t.overrides.m + changes.m), version := t.version + 1)], Done)
    case AddLocation(key, location, overrides) =>
      if key !in rows then (rows, Refused(404))
      else if location in rows[key].locations then (rows, Refused(500))
      else (rows[key := rows[key].(locations := rows[key].locations[location := overrides])], Done)
    case Erase(key, confirm) =>
      if confirm != key then (rows, Refused(400))
      else if key !in rows then (rows, Refused(404))
      else (rows - {key}, Done)
  }

  // What a request is answered before any config is looked at.
  ghost function Barred(rows: Rows, op: Op): Option<nat>
    requires op.Request?
  {
    var holder := Holder(rows, op.publicKey);
    if holder.None? then Some(404)
    else if rows[holder.value].paused then Some(403)
    else if op.channel == "web" && !op.originOk then Some(403)
    else None
  }

  // Resolving with no cache at all.
  ghost function CachelessStep(w: World, rows: Rows, op: Op): (Rows, Reply)
    requires w.Valid()
  {
    if op.Request? then
      if Barred(rows, op).Some? then (rows, Refused(Barred(rows, op).value))
      else (rows, Config(Fresh(w, rows[Holder(rows, op.publicKey).value], op.location, op.channel)))
    else Changed(w, rows, op)
  }

  // ---------------------------------------------------------------- the cache

  // get_cached: an entry older than the limit is dropped and not served.
  predicate Stale(cache: Cache, key: string, now: real) {
    key in cache && now - cache[key].at > TTL
  }

  function Hit(cache: Cache, key: string, now: real): Option<Layer> {
    if key in cache && !Stale(cache, key, now) then Some(cache[key].cfg) else None
  }

  function AfterGet(cache: Cache, key: string, now: real): Cache {
    if Stale(cache, key, now) then cache - {key} else cache
  }

  function Without(cache: Cache, prefix: string): Cache {
    map k | k in cache && !(prefix <= k) :: cache[k]
  }

  datatype State = State(rows: Rows, cache: Cache)

  ghost function Answer(w: World, s: State, t: string, location: string, channel: string, now: real): (State, Reply)
    requires w.Valid() && t in s.rows
  {
    var key := KeyOf(t, location, channel, s.rows[t].version);
    var hit := Hit(s.cache, key, now);
    var cache := AfterGet(s.cache, key, now);
    if hit.Some? then (State(s.rows, cache), Config(hit.value))
    else
      var cfg := Fresh(w, s.rows[t], location, channel);
      (State(s.rows, cache[key := Entry(now, cfg)]), Config(cfg))
  }

  ghost function Step(w: World, s: State, op: Op, now: real): (State, Reply)
    requires w.Valid()
  {
    if op.Request? then
      if Barred(s.rows, op).Some? then (s, Refused(Barred(s.rows, op).value))
      else Answer(w, s, Holder(s.rows, op.publicKey).value, op.location, op.channel, now)
    else
      var (rows, reply) := Changed(w, s.rows, op);
      (State(rows, if reply.Done? && !op.Create? then Without(s.cache, op.key + ":") else s.cache), reply)
  }

  // ---------------------------------------------------------------- the invariant

  ghost predicate NoKeyExtends(rows: Rows) {
    forall t, u :: t in rows && u in rows ==> !Extends(t, u)
  }

  ghost predicate NoDashLocation(rows: Rows) {
    forall t :: t in rows ==> "-" !in rows[t].locations
  }

  // An entry belongs to a live tenant at its current version and holds what resolving gives now.
  ghost predicate Current(w: World, rows: Rows, key: string, cfg: Layer, t: string, location: string, channel: string)
    requires w.Valid()
  {
    && t in rows && !rows[t].paused && ':' !in channel
    && key == KeyOf(t, location, channel, rows[t].version)
    && cfg == Fresh(w, rows[t], location, channel)
  }

  ghost predicate Coherent(w: World, s: State)
    requires w.Valid()
  {
    forall key :: key in s.cache ==>
      exists t, l, c :: Current(w, s.rows, key, s.cache[key].cfg, t, l, c)
  }

  // No two requests that can be served share a key and want different configs.
  ghost predicate Clear(w: World, rows: Rows)
    requires w.Valid()
  {
    forall t, l, u, m, c :: Served(rows, t, c) && Served(rows, u, c) && SameKey(rows, t, l, u, m, c) ==>
      Fresh(w, rows[t], l, c) == Fresh(w, rows[u], m, c)
  }

  ghost predicate Served(rows: Rows, t: string, c: string) {
    t in rows && !rows[t].paused && ':' !in c
  }

  ghost predicate SameKey(rows: Rows, t: string, l: string, u: string, m: string, c: string)
    requires t in rows && u in rows
  {
    KeyOf(t, l, c, rows[t].version) == KeyOf(u, m, c, rows[u].version)
  }

  ghost predicate Sound(w: World, s: State)
    requires w.Valid()
  {
    NoKeyExtends(s.rows) && NoDashLocation(s.rows) && Coherent(w, s)
  }

  // The naming rules: no created key extends, or is extended by, a key in use; no location that is
  // added is called "-"; channel names have no colon.
  ghost predicate WellNamed(rows: Rows, op: Op) {
    match op
    case Create(key, row) => NewRow(row) && forall t :: t in rows ==> !Extends(t, key) && !Extends(key, t)
    case AddLocation(key, location, _) => key in rows ==> location != "-"
    case Request(_, _, channel, _) => ':' !in channel
    case _ => true
  }

  lemma ColonFreeKeysAreWellNamed(rows: Rows, key: string, row: Tenant)
    requires NewRow(row) && ':' !in key && forall t :: t in rows ==> ':' !in t
    ensures WellNamed(rows, Create(key, row))
  {
    forall t | t in rows ensures !Extends(t, key) && !Extends(key, t) {
      ColonInside(t, key);
      ColonInside(key, t);
    }
  }

  lemma ColonInside(t: string, u: string)
    ensures Extends(t, u) ==> ':' in t
  {
    assert Extends(t, u) ==> t[|u|] == (u + ":")[|u|];
  }

  lemma NotSelf(t: string)
    ensures !Extends(t, t)
  {
  }

  lemma OwnEntriesStart(t: string, location: string, channel: string, version: nat)
    ensures t + ":" <= KeyOf(t, location, channel, version)
  {
    var k := KeyOf(t, location, channel, version);
    assert k == (t + ":") + (Part(location) + ":" + channel + ":" + Decimal(version));
  }

  // Two requests that share a key while nothing extends and nothing is called "-" want one config.
  lemma OneKeyOneConfig(w: World, rows: Rows, t: string, l: string, u: string, m: string, c: string, d: string)
    requires w.Valid() && NoKeyExtends(rows) && NoDashLocation(rows)
    requires t in rows && u in rows && ':' !in c && ':' !in d
    requires KeyOf(t, l, c, rows[t].version) == KeyOf(u, m, d, rows[u].version)
    ensures Fresh(w, rows[t], l, c) == Fresh(w, rows[u], m, d)
  {
    KeysMeet(t, l, c, rows[t].version, u, m, d, rows[u].version);
    assert exists l, m :: t + ":" + Part(l) == u + ":" + Part(m);
    TenantsMeet(t, u);
    assert t == u;
    var s := t + ":" + Part(l);
    assert Part(l) == s[|t| + 1..] && Part(m) == s[|t| + 1..];
    assert LocationLayer(rows[t], l) == LocationLayer(rows[t], m);
  }

  lemma NamesAreClear(w: World, rows: Rows)
    requires w.Valid() && NoKeyExtends(rows) && NoDashLocation(rows)
    ensures Clear(w, rows)
  {
    hide Fresh, KeyOf, NoKeyExtends, NoDashLocation;
    forall t, l, u, m, c | Served(rows, t, c) && Served(rows, u, c) && SameKey(rows, t, l, u, m, c)
      ensures Fresh(w, rows[t], l, c) == Fresh(w, rows[u], m, c)
    {
      OneKeyOneConfig(w, rows, t, l, u, m, c, c);
    }
  }

  lemma AnswerIsFresh(w: World, s: State, t: string, location: string, channel: string, now: real)
    requires w.Valid() && Clear(w, s.rows) && Coherent(w, s) && Served(s.rows, t, channel)
    ensures Answer(w, s, t, location, channel, now).1 == Config(Fresh(w, s.rows[t], location, channel))
    ensures Coherent(w, Answer(w, s, t, location, channel, now).0)
  {
    hide Fresh, KeyOf, Clear;
    var key := KeyOf(t, location, channel, s.rows[t].version);
    var next := Answer(w, s, t, location, channel, now).0;
    if key in s.cache {
      var u, m, d :| Current(w, s.rows, key, s.cache[key].cfg, u, m, d);
      KeysMeet(t, location, channel, s.rows[t].version, u, m, d, s.rows[u].version);
      ClearMeans(w, s.rows, t, location, u, m, channel);
    }
    assert Current(w, s.rows, key, Fresh(w, s.rows[t], location, channel), t, location, channel);
    forall k | k in next.cache ensures exists u, m, d :: Current(w, next.rows, k, next.cache[k].cfg, u, m, d) {
      if k in s.cache && next.cache[k] == s.cache[k] {
        var u, m, d :| Current(w, s.rows, k, s.cache[k].cfg, u, m, d);
        assert Current(w, next.rows, k, next.cache[k].cfg, u, m, d);
      } else {
        assert k == key && next.cache[k].cfg == Fresh(w, s.rows[t], location, channel);
      }
    }
  }

  lemma ClearMeans(w: World, rows: Rows, t: string, l: string, u: string, m: string, c: string)
    requires w.Valid() && Clear(w, rows) && Served(rows, t, c) && Served(rows, u, c) && SameKey(rows, t, l, u, m, c)
    ensures Fresh(w, rows[t], l, c) == Fresh(w, rows[u], m, c)
  {
  }

  // Entries that survive an admin operation belong to tenants it did not touch.
  lemma ChangeKeepsCoherent(w: World, s: State, op: Op, now: real)
    requires w.Valid() && Sound(w, s) && WellNamed(s.rows, op) && !op.Request?
    ensures Coherent(w, Step(w, s, op, now).0)
  {
    hide Fresh, KeyOf, Extends;
    var next := Step(w, s, op, now).0;
    forall k | k in next.cache ensures exists u, m, d :: Current(w, next.rows, k, next.cache[k].cfg, u, m, d) {
      var u, m, d :| Current(w, s.rows, k, s.cache[k].cfg, u, m, d);
      OwnEntriesStart(u, m, d, s.rows[u].version);
      assert Current(w, next.rows, k, next.cache[k].cfg, u, m, d);
    }
  }

  lemma ChangeKeepsNames(w: World, s: State, op: Op, now: real)
    requires w.Valid() && Sound(w, s) && WellNamed(s.rows, op) && !op.Request?
    ensures NoKeyExtends(Step(w, s, op, now).0.rows) && NoDashLocation(Step(w, s, op, now).0.rows)
  {
    if op.Create? {
      NotSelf(op.key);
    }
  }

  // One step keeps the invariant, answers as the cacheless step does, and leaves the same rows.
  lemma StepIsInvisible(w: World, s: State, op: Op, now: real)
    requires w.Valid() && Sound(w, s) && WellNamed(s.rows, op)
    ensures Sound(w, Step(w, s, op, now).0)
    ensures (Step(w, s, op, now).0.rows, Step(w, s, op, now).1) == CachelessStep(w, s.rows, op)
  {
    hide Fresh, KeyOf, Extends, Coherent, NoKeyExtends, NoDashLocation;
    if op.Request? {
      NamesAreClear(w, s.rows);
      if Barred(s.rows, op).None? {
        AnswerIsFresh(w, s, Holder(s.rows, op.publicKey).value, op.location, op.channel, now);
      }
    } else {
      ChangeKeepsCoherent(w, s, op, now);
      ChangeKeepsNames(w, s, op, now);
    }
  }

  // ---------------------------------------------------------------- whole runs

  datatype Event = Event(op: Op, now: real)

  ghost function Replies(w: World, s: State, events: seq<Event>): seq<Reply>
    requires w.Valid()
    decreases |events|
  {
    if events == [] then []
    else
      var (next, reply) := Step(w, s, events[0].op, events[0].now);
      [reply] + Replies(w, next, events[1..])
  }

  ghost function CachelessReplies(w: World, rows: Rows, events: seq<Event>): seq<Reply>
    requires w.Valid()
    decreases |events|
  {
    if events == [] then []
    else
      var (next, reply) := CachelessStep(w, rows, events[0].op);
      [reply] + CachelessReplies(w, next, events[1..])
  }

  ghost predicate AllWellNamed(w: World, rows: Rows, events: seq<Event>)
    requires w.Valid()
    decreases |events|
  {
    events != [] ==>
      WellNamed(rows, events[0].op) && AllWellNamed(w, CachelessStep(w, rows, events[0].op).0, events[1..])
  }

  lemma {:induction false} RunIsInvisible(w: World, s: State, events: seq<Event>)
    requires w.Valid() && Sound(w, s) && AllWellNamed(w, s.rows, events)
    ensures Replies(w, s, events) == CachelessReplies(w, s.rows, events)
    decreases |events|
  {
    hide Sound, Step, CachelessStep, WellNamed;
    if events != [] {
      StepIsInvisible(w, s, events[0].op, events[0].now);
      RunIsInvisible(w, Step(w, s, events[0].op, events[0].now).0, events[1..]);
    }
  }

  // From any well-named rows and an empty cache, no run can tell that there is a cache, whatever
  // the clock does.
  lemma CacheIsInvisible(w: World, rows: Rows, events: seq<Event>)
    requires w.Valid() && NoKeyExtends(rows) && NoDashLocation(rows) && AllWellNamed(w, rows, events)
    ensures Replies(w, State(rows, map[]), events) == CachelessReplies(w, rows, events)
  {
    RunIsInvisible(w, State(rows, map[]), events);
  }

  // ---------------------------------------------------------------- and it rests on the names

  ghost predicate AllRequests(events: seq<Event>) {
    forall e :: e in events ==> e.op.Request? && ':' !in e.op.channel
  }

  // Over fixed rows, no sequence of requests can tell that there is a cache.
  ghost predicate Invisible(w: World, rows: Rows)
    requires w.Valid()
  {
    forall events :: AllRequests(events) ==>
      Replies(w, State(rows, map[]), events) == CachelessReplies(w, rows, events)
  }

  lemma {:induction false} RequestsAreFresh(w: World, s: State, events: seq<Event>)
    requires w.Valid() && Clear(w, s.rows) && Coherent(w, s) && AllRequests(events)
    ensures Replies(w, s, events) == CachelessReplies(w, s.rows, events)
    decreases |events|
  {
    hide Clear, Coherent, Answer, Fresh;
    if events != [] {
      var op := events[0].op;
      assert events[0] in events;
      if Barred(s.rows, op).None? {
        AnswerIsFresh(w, s, Holder(s.rows, op.publicKey).value, op.location, op.channel, events[0].now);
        AnswerKeepsRows(w, s, Holder(s.rows, op.publicKey).value, op.location, op.channel, events[0].now);
      }
      RequestsAreFresh(w, Step(w, s, op, events[0].now).0, events[1..]);
    }
  }

  lemma AnswerKeepsRows(w: World, s: State, t: string, location: string, channel: string, now: real)
    requires w.Valid() && t in s.rows
    ensures Answer(w, s, t, location, channel, now).0.rows == s.rows
  {
    hide Fresh, KeyOf;
  }

  // Two requests that share a key: the second is served the first one's config.
  lemma SharedKeyIsServed(w: World, rows: Rows, t: string, l: string, u: string, m: string, c: string, now: real)
    requires w.Valid() && t in rows && u in rows && SameKey(rows, t, l, u, m, c)
    ensures var first := Answer(w, State(rows, map[]), t, l, c, now).0;
            && first.rows == rows
            && Answer(w, first, u, m, c, now).1 == Config(Fresh(w, rows[t], l, c))
  {
    hide Fresh, KeyOf;
  }

  function Ask(publicKey: string, channel: string, location: string): Event {
    Event(Request(publicKey, true, channel, location), 0.0)
  }

  lemma Asked(w: World, s: State, t: string, location: string, channel: string)
    requires w.Valid() && Unique(s.rows) && Served(s.rows, t, channel)
    ensures var e := Ask(s.rows[t].publicKey, channel, location);
            && Step(w, s, e.op, e.now) == Answer(w, s, t, location, channel, 0.0)
            && CachelessStep(w, s.rows, e.op) == (s.rows, Config(Fresh(w, s.rows[t], location, channel)))
  {
    hide Fresh, Answer;
    assert Holder(s.rows, s.rows[t].publicKey) == Some(t);
  }

  // What both requests are answered, with and without the cache.
  lemma AskedTwice(w: World, rows: Rows, t: string, l: string, u: string, m: string, c: string)
    requires w.Valid() && Unique(rows) && Served(rows, t, c) && Served(rows, u, c) && SameKey(rows, t, l, u, m, c)
    ensures var events := [Ask(rows[t].publicKey, c, l), Ask(rows[u].publicKey, c, m)];
            && Replies(w, State(rows, map[]), events)
                == [Config(Fresh(w, rows[t], l, c)), Config(Fresh(w, rows[t], l, c))]
            && CachelessReplies(w, rows, events) == [Config(Fresh(w, rows[t], l, c)), Config(Fresh(w, rows[u], m, c))]
  {
    hide Fresh, Answer, Step, CachelessStep, SameKey, Unique;
    var e, f := Ask(rows[t].publicKey, c, l), Ask(rows[u].publicKey, c, m);
    var s := State(rows, map[]);
    Asked(w, s, t, l, c);
    SharedKeyIsServed(w, rows, t, l, u, m, c, 0.0);
    FirstAnswer(w, rows, t, l, c);
    var s1 := Answer(w, s, t, l, c, 0.0).0;
    Asked(w, s1, u, m, c);
    TwoReplies(w, s, e, f);
  }

  lemma FirstAnswer(w: World, rows: Rows, t: string, l: string, c: string)
    requires w.Valid() && t in rows
    ensures Answer(w, State(rows, map[]), t, l, c, 0.0).1 == Config(Fresh(w, rows[t], l, c))
  {
    hide Fresh, KeyOf;
  }

  lemma TwoReplies(w: World, s: State, e: Event, f: Event)
    requires w.Valid()
    ensures var r, q := Step(w, s, e.op, e.now), CachelessStep(w, s.rows, e.op);
            && Replies(w, s, [e, f]) == [r.1, Step(w, r.0, f.op, f.now).1]
            && CachelessReplies(w, s.rows, [e, f]) == [q.1, CachelessStep(w, q.0, f.op).1]
  {
    hide Step, CachelessStep;
    assert [e, f][1..] == [f] && [f][1..] == [];
    assert Replies(w, Step(w, Step(w, s, e.op, e.now).0, f.op, f.now).0, []) == [];
    assert CachelessReplies(w, CachelessStep(w, CachelessStep(w, s.rows, e.op).0, f.op).0, []) == [];
  }

  // Exactly when it is so: no two requests that share a key want different configs.
  lemma InvisibleIff(w: World, rows: Rows)
    requires w.Valid() && Unique(rows)
    ensures Invisible(w, rows) <==> Clear(w, rows)
  {
    hide Fresh, KeyOf, Replies, CachelessReplies, Unique, SameKey;
    if Clear(w, rows) {
      forall events | AllRequests(events)
        ensures Replies(w, State(rows, map[]), events) == CachelessReplies(w, rows, events)
      {
        RequestsAreFresh(w, State(rows, map[]), events);
      }
    }
    if Invisible(w, rows) {
      forall t, l, u, m, c | Served(rows, t, c) && Served(rows, u, c) && SameKey(rows, t, l, u, m, c)
        ensures Fresh(w, rows[t], l, c) == Fresh(w, rows[u], m, c)
      {
        var events := [Ask(rows[t].publicKey, c, l), Ask(rows[u].publicKey, c, m)];
        AskedTwice(w, rows, t, l, u, m, c);
        assert AllRequests(events);
        assert Replies(w, State(rows, map[]), events)[1] == CachelessReplies(w, rows, events)[1];
      }
    }
  }

  // ---------------------------------------------------------------- and on the names alone

  // Of the tenants that can be served, none's key extends another's at the same version, and none
  // has a location called "-".
  ghost predicate NamesOk(rows: Rows) {
    && (forall t, u :: t in rows && u in rows && Meet(rows, t, u) ==> !Extends(t, u))
    && (forall t :: t in rows && !rows[t].paused ==> "-" !in rows[t].locations)
  }

  predicate Meet(rows: Rows, t: string, u: string)
    requires t in rows && u in rows
  {
    !rows[t].paused && !rows[u].paused && rows[t].version == rows[u].version
  }

  // The same tenants with the same keys, versions, location names and states; what is configured
  // for them is free.
  ghost predicate SameNames(rows: Rows, rows': Rows) {
    && rows.Keys == rows'.Keys
    && forall t :: t in rows ==>
         && rows'[t].publicKey == rows[t].publicKey && rows'[t].paused == rows[t].paused
         && rows'[t].version == rows[t].version && rows'[t].locations.Keys == rows[t].locations.Keys
  }

  lemma OkNamesAreClear(w: World, rows: Rows)
    requires w.Valid() && NamesOk(rows)
    ensures Clear(w, rows)
  {
    hide Fresh, KeyOf, Extends;
    forall t, l, u, m, c | Served(rows, t, c) && Served(rows, u, c) && SameKey(rows, t, l, u, m, c)
      ensures Fresh(w, rows[t], l, c) == Fresh(w, rows[u], m, c)
    {
      KeysMeet(t, l, c, rows[t].version, u, m, c, rows[u].version);
      assert exists l, m :: t + ":" + Part(l) == u + ":" + Part(m);
      TenantsMeet(t, u);
      assert Meet(rows, t, u) && Meet(rows, u, t);
      assert t == u;
      SameLocation(w, rows, t, l, m, c);
    }
  }

  lemma SameLocation(w: World, rows: Rows, t: string, l: string, m: string, c: string)
    requires w.Valid() && t in rows && "-" !in rows[t].locations && t + ":" + Part(l) == t + ":" + Part(m)
    ensures Fresh(w, rows[t], l, c) == Fresh(w, rows[t], m, c)
  {
    var s := t + ":" + Part(l);
    assert Part(l) == s[|t| + 1..] && Part(m) == s[|t| + 1..];
    assert LocationLayer(rows[t], l) == LocationLayer(rows[t], m);
  }

  const BUSINESS_NAME: seq<string> := ["business_name"]

  // The resolved business name: the location's, if it sets one, else the tenant's.
  lemma BusinessName(w: World, t: Tenant, location: string, c: string)
    requires w.Valid() && "business_name" !in t.overrides.m
    ensures var layer := OrEmpty(LocationLayer(t, location));
            LeafAt(Fresh(w, t, location, c), BUSINESS_NAME)
            == if Says(layer, BUSINESS_NAME).Untouched? then Some(t.name) else Obey(Says(layer, BUSINESS_NAME), None)
  {
    hide Fold, PackOf;
    var stack := Stack(Some(PackOf(w, t)), Some(TenantLayer(t)), LocationLayer(t, location), Profile(w, c));
    LastLayerDecides(stack, BUSINESS_NAME);
    assert Says(stack[3], BUSINESS_NAME) == Untouched;
    assert BUSINESS_NAME[1..] == [];
    assert Says(stack[1], BUSINESS_NAME) == Sets(t.name);
    assert LastToSpeak(stack, BUSINESS_NAME, if Says(stack[2], BUSINESS_NAME).Untouched? then 1 else 2);
  }

  // Every tenant called by its key, and a location "-" by a name of its own.
  function Named(t: string, row: Tenant): Tenant {
    row.(name := t, overrides := NOTHING, locations := map l | l in row.locations :: NamedLocation(t, l))
  }

  function NamedLocation(t: string, l: string): Layer {
    if l == "-" then Dict(map["business_name" := Atom(t + "-")]) else NOTHING
  }

  function AllNamed(rows: Rows): (rows': Rows)
    ensures SameNames(rows, rows')
  {
    map t | t in rows :: Named(t, rows[t])
  }

  lemma NameOf(w: World, rows: Rows, t: string, location: string, c: string)
    requires w.Valid() && t in rows
    ensures LeafAt(Fresh(w, AllNamed(rows)[t], location, c), BUSINESS_NAME)
            == Some(if location == "-" && "-" in rows[t].locations then t + "-" else t)
  {
    hide Fresh;
    BusinessName(w, AllNamed(rows)[t], location, c);
    assert BUSINESS_NAME[1..] == [];
  }

  // Bad names let some contents be mixed up.
  lemma BadNamesAreNotClear(w: World, rows: Rows)
    requires w.Valid() && !NamesOk(rows)
    ensures !Clear(w, AllNamed(rows))
  {
    if t :| t in rows && !rows[t].paused && "-" in rows[t].locations {
      DashIsNotClear(w, rows, t);
    } else {
      var t, u :| t in rows && u in rows && Meet(rows, t, u) && Extends(t, u);
      ExtendedIsNotClear(w, rows, t, u);
    }
  }

  lemma DashIsNotClear(w: World, rows: Rows, t: string)
    requires w.Valid() && t in rows && !rows[t].paused && "-" in rows[t].locations
    ensures !Clear(w, AllNamed(rows))
  {
    hide Fresh, KeyOf, Clear, Says, LeafAt;
    NameOf(w, rows, t, "", "web");
    NameOf(w, rows, t, "-", "web");
    KeysMeet(t, "", "web", rows[t].version, t, "-", "web", rows[t].version);
    NotClear(w, AllNamed(rows), t, "", t, "-", "web");
  }

  lemma ExtendedIsNotClear(w: World, rows: Rows, t: string, u: string)
    requires w.Valid() && t in rows && u in rows && Meet(rows, t, u) && Extends(t, u)
    ensures !Clear(w, AllNamed(rows))
  {
    hide Fresh, KeyOf, Clear, Says, LeafAt;
    var l := t[|u| + 1..] + ":x";
    assert t + ":" + Part("x") == u + ":" + Part(l);
    NameOf(w, rows, t, "x", "web");
    NameOf(w, rows, u, l, "web");
    KeysMeet(t, "x", "web", rows[t].version, u, l, "web", rows[u].version);
    NotClear(w, AllNamed(rows), t, "x", u, l, "web");
  }

  lemma NotClear(w: World, rows: Rows, t: string, l: string, u: string, m: string, c: string)
    requires w.Valid() && Served(rows, t, c) && Served(rows, u, c) && SameKey(rows, t, l, u, m, c)
    requires Fresh(w, rows[t], l, c) != Fresh(w, rows[u], m, c)
    ensures !Clear(w, rows)
  {
    hide Fresh, KeyOf;
  }

  // Main result, over fixed rows: the cache is invisible whatever is configured for the tenants
  // and locations exactly when their names are in order.
  lemma NamesDecide(w: World, rows: Rows)
    requires w.Valid() && Unique(rows)
    ensures (forall rows' :: SameNames(rows, rows') ==> Invisible(w, rows')) <==> NamesOk(rows)
  {
    hide Invisible, Clear, Extends;
    forall rows' | SameNames(rows, rows') ensures Invisible(w, rows') <==> Clear(w, rows') {
      InvisibleIff(w, rows');
    }
    if NamesOk(rows) {
      forall rows' | SameNames(rows, rows') ensures Clear(w, rows') {
        SameNamesAreOk(rows, rows');
        OkNamesAreClear(w, rows');
      }
    } else {
      BadNamesAreNotClear(w, rows);
      assert SameNames(rows, AllNamed(rows));
    }
  }

  lemma SameNamesAreOk(rows: Rows, rows': Rows)
    requires SameNames(rows, rows') && NamesOk(rows)
    ensures NamesOk(rows')
  {
    hide Extends;
    forall t, u | t in rows' && u in rows' && Meet(rows', t, u) ensures !Extends(t, u) {
      assert Meet(rows, t, u);
    }
  }

  // ---------------------------------------------------------------- and on the names in use

  // The operation creates tenants under these keys only, and locations under these names.
  ghost predicate Within(keys: iset<string>, names: iset<string>, op: Op) {
    match op
    case Create(key, row) => key in keys && NewRow(row)
    case AddLocation(_, location, _) => location in names
    case Request(_, _, channel, _) => ':' !in channel
    case _ => true
  }

  ghost predicate AllWithin(keys: iset<string>, names: iset<string>, events: seq<Event>) {
    forall e :: e in events ==> Within(keys, names, e.op)
  }

  // No sequence of creates, patches, locations, erasures and requests within these names can tell,
  // from the start, that there is a cache.
  ghost predicate NeverTold(w: World, keys: iset<string>, names: iset<string>)
    requires w.Valid()
  {
    forall events :: AllWithin(keys, names, events) ==>
      Replies(w, State(map[], map[]), events) == CachelessReplies(w, map[], events)
  }

  ghost predicate SafeNames(keys: iset<string>, names: iset<string>) {
    (forall t, u :: t in keys && u in keys ==> !Extends(t, u)) && (keys == iset{} || "-" !in names)
  }

  lemma {:induction false} WithinIsWellNamed(w: World, keys: iset<string>, names: iset<string>, rows: Rows,
                                             events: seq<Event>)
    requires w.Valid() && SafeNames(keys, names) && AllWithin(keys, names, events)
    requires forall t :: t in rows ==> t in keys
    ensures AllWellNamed(w, rows, events)
    decreases |events|
  {
    hide Fresh, Extends;
    if events != [] {
      assert events[0] in events;
      WithinIsWellNamed(w, keys, names, CachelessStep(w, rows, events[0].op).0, events[1..]);
    }
  }

  // An operation that both answer alike, and that leaves the cache empty, may go before.
  lemma ToldAfter(w: World, rows: Rows, e: Event, next: Rows, rest: seq<Event>)
    requires w.Valid() && !e.op.Request? && Changed(w, rows, e.op) == (next, Done)
    requires Replies(w, State(next, map[]), rest) != CachelessReplies(w, next, rest)
    ensures Replies(w, State(rows, map[]), [e] + rest) != CachelessReplies(w, rows, [e] + rest)
  {
    hide Changed, Fresh;
    var s := State(rows, map[]);
    assert ([e] + rest)[1..] == rest;
    assert Without(map[], e.op.key + ":") == map[];
    assert Step(w, s, e.op, e.now) == (State(next, map[]), Done);
    assert Replies(w, s, [e] + rest)[1..] == Replies(w, State(next, map[]), rest);
    assert CachelessReplies(w, rows, [e] + rest)[1..] == CachelessReplies(w, next, rest);
  }

  function Newcomer(t: string): Tenant {
    Tenant(t, t, "generic", false, NOTHING, 1, map[])
  }

  function Creation(t: string): Event {
    Event(Create(t, Newcomer(t)), 0.0)
  }

  lemma NewcomerName(w: World, t: string, location: string)
    requires w.Valid()
    ensures LeafAt(Fresh(w, Newcomer(t), location, "web"), BUSINESS_NAME) == Some(t)
  {
    hide Fresh, LeafAt;
    BusinessName(w, Newcomer(t), location, "web");
  }

  // Create u, then t, whose key extends u's, and ask for both.
  lemma ExtendedIsTold(w: World, t: string, u: string) returns (events: seq<Event>)
    requires w.Valid() && Extends(t, u)
    ensures forall keys, names :: t in keys && u in keys ==> AllWithin(keys, names, events)
    ensures Replies(w, State(map[], map[]), events) != CachelessReplies(w, map[], events)
  {
    hide Fresh, KeyOf, Replies, CachelessReplies, Changed, LeafAt, Says;
    var l := t[|u| + 1..] + ":x";
    var asks := [Ask(t, "web", "x"), Ask(u, "web", l)];
    var one: Rows := map[u := Newcomer(u)];
    var both: Rows := one[t := Newcomer(t)];
    events := [Creation(u)] + ([Creation(t)] + asks);
    assert SameKey(both, t, "x", u, l, "web") by {
      assert t + ":" + Part("x") == u + ":" + Part(l);
      KeysMeet(t, "x", "web", 1, u, l, "web", 1);
    }
    AskedTwice(w, both, t, "x", u, l, "web");
    NewcomerName(w, t, "x");
    NewcomerName(w, u, l);
    assert Replies(w, State(both, map[]), asks)[1] != CachelessReplies(w, both, asks)[1];
    Created(w, map[], u);
    NotSelf(t);
    Created(w, one, t);
    ToldAfter(w, one, Creation(t), both, asks);
    ToldAfter(w, map[], Creation(u), one, [Creation(t)] + asks);
  }

  // Create t, give it a location "-" with a business name of its own, and ask for both.
  lemma DashIsTold(w: World, t: string) returns (events: seq<Event>)
    requires w.Valid()
    ensures forall keys, names :: t in keys && "-" in names ==> AllWithin(keys, names, events)
    ensures Replies(w, State(map[], map[]), events) != CachelessReplies(w, map[], events)
  {
    hide Fresh, KeyOf, Replies, CachelessReplies, Changed, Extends, LeafAt, Says;
    var own := Dict(map["business_name" := Atom(t + "-")]);
    var row := Newcomer(t).(locations := map["-" := own]);
    var add := Event(Op.AddLocation(t, "-", own), 0.0);
    var asks := [Ask(t, "web", ""), Ask(t, "web", "-")];
    var one: Rows := map[t := Newcomer(t)];
    var rows: Rows := map[t := row];
    events := [Creation(t)] + ([add] + asks);
    assert SameKey(rows, t, "", t, "-", "web") by {
      KeysMeet(t, "", "web", 1, t, "-", "web", 1);
    }
    AskedTwice(w, rows, t, "", t, "-", "web");
    DashName(w, t, row, own);
    assert Replies(w, State(rows, map[]), asks)[1] != CachelessReplies(w, rows, asks)[1];
    DashAdded(w, t, own);
    ToldAfter(w, one, add, rows, asks);
    Created(w, map[], t);
    ToldAfter(w, map[], Creation(t), one, [add] + asks);
  }

  lemma Created(w: World, rows: Rows, t: string)
    requires w.Valid() && t !in rows && forall u :: u in rows ==> rows[u].publicKey != t
    ensures Changed(w, rows, Creation(t).op) == (rows[t := Newcomer(t)], Done)
  {
  }

  lemma DashAdded(w: World, t: string, own: Layer)
    ensures var add := Op.AddLocation(t, "-", own);
            Changed(w, map[t := Newcomer(t)], add) == (map[t := Newcomer(t).(locations := map["-" := own])], Done)
  {
    var one: Rows := map[t := Newcomer(t)];
    var row := Newcomer(t).(locations := map["-" := own]);
    assert one[t].locations["-" := own] == row.locations;
    assert one[t := row] == map[t := row];
  }

  lemma DashName(w: World, t: string, row: Tenant, own: Layer)
    requires w.Valid() && own == Dict(map["business_name" := Atom(t + "-")])
    requires row == Newcomer(t).(locations := map["-" := own])
    ensures Fresh(w, row, "", "web") != Fresh(w, row, "-", "web")
  {
    hide Fresh, LeafAt;
    BusinessName(w, row, "", "web");
    BusinessName(w, row, "-", "web");
    assert BUSINESS_NAME[1..] == [];
  }

  // Main result, over all operations: nobody can tell the cache, whatever is done within these names,
  // exactly when no key extends another and no location may be called "-".
  lemma NeverToldIff(w: World, keys: iset<string>, names: iset<string>)
    requires w.Valid()
    ensures NeverTold(w, keys, names) <==> SafeNames(keys, names)
  {
    hide Replies, CachelessReplies, AllWithin, Extends;
    if SafeNames(keys, names) {
      forall events | AllWithin(keys, names, events)
        ensures Replies(w, State(map[], map[]), events) == CachelessReplies(w, map[], events)
      {
        WithinIsWellNamed(w, keys, names, map[], events);
        CacheIsInvisible(w, map[], events);
      }
    } else if t, u :| t in keys && u in keys && Extends(t, u) {
      var events := ExtendedIsTold(w, t, u);
      assert AllWithin(keys, names, events);
    } else {
      var t :| t in keys;
      var events := DashIsTold(w, t);
      assert AllWithin(keys, names, events);
    }
  }

  // ---------------------------------------------------------------- two mix-ups

  const SHOP := Tenant("Shop", "pk_shop", "generic", false, NOTHING, 1,
                       map["-" := Dict(map["business_name" := Atom("Harbour")])])

  // A tenant with a location called "-": asked for no location and then for "-", the cache answers
  // twice with the first config, whose business name is not the location's.
  lemma DashLocationIsMixedUp(w: World)
    requires w.Valid()
    ensures var rows := map["shop" := SHOP];
            var events := [Ask("pk_shop", "web", ""), Ask("pk_shop", "web", "-")];
            var cached, fresh_ := Replies(w, State(rows, map[]), events), CachelessReplies(w, rows, events);
            && cached != fresh_ && |cached| == |fresh_| == 2
            && cached[1].Config? && LeafAt(cached[1].cfg, BUSINESS_NAME) == Some("Shop")
            && fresh_[1].Config? && LeafAt(fresh_[1].cfg, BUSINESS_NAME) == Some("Harbour")
  {
    hide Fresh, KeyOf, Replies, CachelessReplies, Says;
    var rows: Rows := map["shop" := SHOP];
    assert SameKey(rows, "shop", "", "shop", "-", "web") by {
      KeysMeet("shop", "", "web", 1, "shop", "-", "web", 1);
    }
    AskedTwice(w, rows, "shop", "", "shop", "-", "web");
    ShopNames(w);
  }

  lemma ShopNames(w: World)
    requires w.Valid()
    ensures LeafAt(Fresh(w, SHOP, "", "web"), BUSINESS_NAME) == Some("Shop")
    ensures LeafAt(Fresh(w, SHOP, "-", "web"), BUSINESS_NAME) == Some("Harbour")
  {
    hide Fresh, LeafAt;
    BusinessName(w, SHOP, "", "web");
    BusinessName(w, SHOP, "-", "web");
    assert BUSINESS_NAME[1..] == [];
  }

  const ACME := Tenant("Acme", "pk_acme", "generic", false, NOTHING, 1, map[])
  const EAST := Tenant("Acme East", "pk_east", "generic", false, NOTHING, 1, map[])

  // Tenants "acme" and "acme:east": a request to the first for the unknown location "east:-" leaves
  // its config behind for the second.
  lemma ExtendedKeyIsMixedUp(w: World)
    requires w.Valid()
    ensures var rows := map["acme" := ACME, "acme:east" := EAST];
            var events := [Ask("pk_acme", "web", "east:-"), Ask("pk_east", "web", "")];
            var cached, fresh_ := Replies(w, State(rows, map[]), events), CachelessReplies(w, rows, events);
            && cached != fresh_ && |cached| == |fresh_| == 2
            && cached[1].Config? && LeafAt(cached[1].cfg, BUSINESS_NAME) == Some("Acme")
            && fresh_[1].Config? && LeafAt(fresh_[1].cfg, BUSINESS_NAME) == Some("Acme East")
  {
    hide Fresh, KeyOf, Replies, CachelessReplies, Says;
    var rows: Rows := map["acme" := ACME, "acme:east" := EAST];
    assert SameKey(rows, "acme", "east:-", "acme:east", "", "web") by {
      assert "acme" + ":" + Part("east:-") == "acme:east" + ":" + Part("");
      KeysMeet("acme", "east:-", "web", 1, "acme:east", "", "web", 1);
    }
    AskedTwice(w, rows, "acme", "east:-", "acme:east", "", "web");
    AcmeNames(w);
  }

  lemma AcmeNames(w: World)
    requires w.Valid()
    ensures LeafAt(Fresh(w, ACME, "east:-", "web"), BUSINESS_NAME) == Some("Acme")
    ensures LeafAt(Fresh(w, EAST, "", "web"), BUSINESS_NAME) == Some("Acme East")
  {
    hide Fresh, LeafAt;
    BusinessName(w, ACME, "east:-", "web");
    BusinessName(w, EAST, "", "web");
  }

  // ---------------------------------------------------------------- the module dict and the service

  class ConfigCache {
    var entries: Cache

    constructor ()
      ensures entries == map[]
    {
      entries := map[];
    }

    method GetCached(key: string, now: real) returns (cfg: Option<Layer>)
      modifies this
      ensures cfg == Hit(old(entries), key, now)
      ensures entries == AfterGet(old(entries), key, now)
    {
      if key !in entries {
        return None;
      }
      var hit := entries[key];
      if now - hit.at > TTL {
        entries := entries - {key};
        return None;
      }
      return Some(hit.cfg);
    }

    method PutCached(key: string, cfg: Layer, now: real)
      modifies this
      ensures entries == old(entries)[key := Entry(now, cfg)]
    {
      entries := entries[key := Entry(now, cfg)];
    }

    // Exactly the entries whose key starts with the prefix are gone.
    method Invalidate(prefix: string)
      modifies this
      ensures entries == Without(old(entries), prefix)
    {
      var keys := set k | k in entries && prefix <= k;
      while keys != {}
        invariant forall k :: k in keys ==> prefix <= k && k in old(entries)
        invariant forall k :: k in entries <==> k in old(entries) && (prefix <= k ==> k in keys)
        invariant forall k :: k in entries ==> entries[k] == old(entries)[k]
        decreases keys
      {
        var k :| k in keys;
        keys := keys - {k};
        entries := entries - {k};
      }
    }
  }

  class Service {
    const world: World
    const cache: ConfigCache
    var rows: Rows

    ghost function Now(): State
      reads this, cache
    {
      State(rows, cache.entries)
    }

    ghost predicate Valid()
      reads this, cache
    {
      world.Valid() && Unique(rows)
    }

    constructor (world: World)
      requires world.Valid()
      ensures Valid() && fresh(cache) && this.world == world
      ensures Now() == State(map[], map[])
    {
      this.world := world;
      rows := map[];
      cache := new ConfigCache();
    }

    method CreateTenant(key: string, row: Tenant, now: real) returns (reply: Reply)
      requires Valid() && NewRow(row)
      modifies this
      ensures Valid() && (Now(), reply) == Step(world, old(Now()), Create(key, row), now)
    {
      if row.pack !in world.packs {
        return Refused(400);
      }
      if key in rows {
        return Refused(409);
      }
      if exists t :: t in rows && rows[t].publicKey == row.publicKey {
        return Refused(500);
      }
      rows := rows[key := row];
      reply := Done;
    }

    method UpdateTenant(key: string, overrides: Layer, now: real) returns (reply: Reply)
      requires Valid()
      modifies this, cache
      ensures Valid() && (Now(), reply) == Step(world, old(Now()), Patch(key, overrides), now)
    {
      if key !in rows {
        return Refused(404);
      }
      var t := rows[key];
      rows := rows[key := t.(overrides := Dict(t.overrides.m + overrides.m), version := t.version + 1)];
      cache.Invalidate(key + ":");
      reply := Done;
    }

    method AddLocation(key: string, location: string, overrides: Layer, now: real) returns (reply: Reply)
      requires Valid()
      modifies this, cache
      ensures Valid() && (Now(), reply) == Step(world, old(Now()), Op.AddLocation(key, location, overrides), now)
    {
      if key !in rows {
        return Refused(404);
      }
      if location in rows[key].locations {
        return Refused(500);
      }
      rows := rows[key := rows[key].(locations := rows[key].locations[location := overrides])];
      cache.Invalidate(key + ":");
      reply := Done;
    }

    method EraseTenant(key: string, confirm: string, now: real) returns (reply: Reply)
      requires Valid()
      modifies this, cache
      ensures Valid() && (Now(), reply) == Step(world, old(Now()), Erase(key, confirm), now)
    {
      if confirm != key {
        return Refused(400);
      }
      if key !in rows {
        return Refused(404);
      }
      rows := rows - {key};
      cache.Invalidate(key + ":");
      reply := Done;
    }

    method ResolveTenant(publicKey: string, originOk: bool, channel: string, location: string, now: real)
      returns (reply: Reply)
      requires Valid()
      modifies cache
      ensures Valid() && (Now(), reply) == Step(world, old(Now()), Request(publicKey, originOk, channel, location), now)
    {
      hide Fold, KeyOf;
      if !exists t :: t in rows && rows[t].publicKey == publicKey {
        return Refused(404);
      }
      var key :| key in rows && rows[key].publicKey == publicKey;
      assert Holder(rows, publicKey) == Some(key);
      var t := rows[key];
      if t.paused {
        return Refused(403);
      }
      if channel == "web" && !originOk {
        return Refused(403);
      }
      var found: Option<Layer> := None;
      if location != "" && location in t.locations {
        found := Some(t.locations[location]);
      }
      var name := KeyOf(key, location, channel, t.version);
      var hit := cache.GetCached(name, now);
      if hit.Some? {
        return Config(hit.value);
      }
      var cfg := Resolve(Some(if t.pack in world.packs then world.packs[t.pack] else world.packs["generic"]),
                         Some(Dict(map["business_name" := Atom(t.name)] + t.overrides.m)),
                         found,
                         if channel in world.profiles then world.profiles[channel] else NOTHING);
      cache.PutCached(name, cfg, now);
      reply := Config(cfg);
    }
  }
}
