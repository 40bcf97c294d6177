// What the admin operations and a request do, field by field, and what a resolved config says
// (app/api/admin.py:80-176 and 298-316, app/services/tenants.py:71-111, app/config/resolver.py:18-67).
module ConfigAdmin {
  import opened Prelude
  import opened Resolver
  import opened ConfigCache

  // ---------------------------------------------------------------- the operations

  // The tenants other than `key` are as they were.
  ghost predicate OthersStay(rows: Rows, rows': Rows, key: string) {
    forall t :: t != key ==> (t in rows' <==> t in rows) && (t in rows ==> rows'[t] == rows[t])
  }

  // The cache has lost exactly the entries whose key starts with this tenant's.
  ghost predicate OwnEntriesGone(cache: Cache, cache': Cache, key: string) {
    forall k :: (k in cache' <==> k in cache && !(key + ":" <= k)) && (k in cache' ==> cache'[k] == cache[k])
  }

  // Every key of the patch has the patch's value, every other one its own.
  ghost predicate Overridden(old_: Layer, changes: Layer, new_: Layer) {
    forall k ::
      && (k in changes.m ==> k in new_.m && new_.m[k] == changes.m[k])
      && (k !in changes.m ==> (k in new_.m <==> k in old_.m) && (k in old_.m ==> new_.m[k] == old_.m[k]))
  }

  lemma PatchMeaning(w: World, s: State, key: string, changes: Layer, now: real)
    requires w.Valid()
    ensures var (t, reply) := Step(w, s, Patch(key, changes), now);
            if key !in s.rows then reply == Refused(404) && t == s
            else
              && reply == Done && key in t.rows && OthersStay(s.rows, t.rows, key)
              && Overridden(s.rows[key].overrides, changes, t.rows[key].overrides)
              && t.rows[key].version == s.rows[key].version + 1
              && t.rows[key].name == s.rows[key].name && t.rows[key].publicKey == s.rows[key].publicKey
              && t.rows[key].pack == s.rows[key].pack && t.rows[key].paused == s.rows[key].paused
              && t.rows[key].locations == s.rows[key].locations
              && OwnEntriesGone(s.cache, t.cache, key)
  {
  }

  lemma AddLocationMeaning(w: World, s: State, key: string, location: string, overrides: Layer, now: real)
    requires w.Valid()
    ensures var (t, reply) := Step(w, s, Op.AddLocation(key, location, overrides), now);
            if key !in s.rows then reply == Refused(404) && t == s
            else if location in s.rows[key].locations then reply == Refused(500) && t == s
            else
              && reply == Done && key in t.rows && OthersStay(s.rows, t.rows, key)
              && t.rows[key] == s.rows[key].(locations := t.rows[key].locations)
              && (forall l :: l in t.rows[key].locations <==> l == location || l in s.rows[key].locations)
              && t.rows[key].locations[location] == overrides
              && (forall l :: l in s.rows[key].locations ==> t.rows[key].locations[l] == s.rows[key].locations[l])
              && OwnEntriesGone(s.cache, t.cache, key)
  {
  }

  lemma CreateMeaning(w: World, s: State, key: string, row: Tenant, now: real)
    requires w.Valid()
    ensures var (t, reply) := Step(w, s, Create(key, row), now);
            if row.pack !in w.packs then reply == Refused(400) && t == s
            else if key in s.rows then reply == Refused(409) && t == s
            else if exists u :: u in s.rows && s.rows[u].publicKey == row.publicKey then reply == Refused(500) && t == s
            else reply == Done && key in t.rows && t.rows[key] == row && OthersStay(s.rows, t.rows, key)
                 && t.cache == s.cache
  {
  }

  lemma EraseMeaning(w: World, s: State, key: string, confirm: string, now: real)
    requires w.Valid()
    ensures var (t, reply) := Step(w, s, Erase(key, confirm), now);
            if confirm != key then reply == Refused(400) && t == s
            else if key !in s.rows then reply == Refused(404) && t == s
            else reply == Done && key !in t.rows && OthersStay(s.rows, t.rows, key)
                 && OwnEntriesGone(s.cache, t.cache, key)
  {
  }

  // Who is refused: an unknown key, a paused tenant, and on the web an origin that is not allowed.
  lemma RequestMeaning(w: World, s: State, publicKey: string, originOk: bool, channel: string, location: string,
                       now: real, key: string)
    requires w.Valid() && Unique(s.rows)
    ensures var (t, reply) := Step(w, s, Request(publicKey, originOk, channel, location), now);
            && t.rows == s.rows
            && ((forall u :: u in s.rows ==> s.rows[u].publicKey != publicKey) ==> reply == Refused(404) && t == s)
            && (key in s.rows && s.rows[key].publicKey == publicKey ==>
                  if s.rows[key].paused || (channel == "web" && !originOk) then reply == Refused(403) && t == s
                  else reply.Config?)
  {
    hide Fresh, KeyOf;
  }

  // ---------------------------------------------------------------- what a config says

  // What the tenant itself says at a path: its overrides, and under them its name.
  function TenantSays(t: Tenant, path: seq<string>): Word
    requires path != []
  {
    if path[0] in t.overrides.m then Says(t.overrides.m[path[0]], path[1..])
    else if path[0] == "business_name" then (if path == ["business_name"] then Sets(t.name) else Shadows)
    else Untouched
  }

  function LocationSays(t: Tenant, location: string, path: seq<string>): Word {
    if location != "" && location in t.locations then Says(t.locations[location], path) else Untouched
  }

  // The channel profile speaks below "channel" only; a channel without one hides what is there.
  function ChannelSays(w: World, channel: string, path: seq<string>): Word
    requires path != []
  {
    if path[0] != "channel" then Untouched
    else if channel in w.profiles then Says(w.profiles[channel], path[1..])
    else if path == ["channel"] then Shadows
    else Untouched
  }

  function PackSays(w: World, t: Tenant, path: seq<string>): Word
    requires w.Valid()
  {
    Says(if t.pack in w.packs then w.packs[t.pack] else w.packs["generic"], path)
  }

  lemma LayersSay(w: World, t: Tenant, location: string, channel: string, path: seq<string>)
    requires w.Valid() && path != []
    ensures var profile := Profile(w, channel);
            var stack := Stack(Some(PackOf(w, t)), Some(TenantLayer(t)), LocationLayer(t, location), profile);
            && Says(stack[0], path) == PackSays(w, t, path) && Says(stack[1], path) == TenantSays(t, path)
            && Says(stack[2], path) == LocationSays(t, location, path)
            && Says(stack[3], path) == ChannelSays(w, channel, path)
  {
    if path[0] == "business_name" && path[0] !in t.overrides.m {
      assert path[1..] == [] <==> path == ["business_name"];
    }
    assert path[0] == "channel" ==> (path[1..] == [] <==> path == ["channel"]);
  }

  // The first of these to say anything.
  function Prefer(a: Word, b: Word): Word {
    if a.Untouched? then b else a
  }

  // Main result: each leaf of a resolved config is what the channel profile says there, or else the
  // location, or else the tenant, or else its pack.
  lemma ResolvedLeaf(w: World, t: Tenant, location: string, channel: string, path: seq<string>)
    requires w.Valid() && path != []
    ensures LeafAt(Fresh(w, t, location, channel), path)
            == Obey(Prefer(ChannelSays(w, channel, path),
                           Prefer(LocationSays(t, location, path),
                                  Prefer(TenantSays(t, path), PackSays(w, t, path)))), None)
  {
    hide Fold, Says, TenantSays, LocationSays, ChannelSays, PackSays, LeafAt, Obey;
    LayersSay(w, t, location, channel, path);
    var stack := Stack(Some(PackOf(w, t)), Some(TenantLayer(t)), LocationLayer(t, location), Profile(w, channel));
    hide PackOf, TenantLayer, LocationLayer, Profile;
    LastLayerDecides(stack, path);
    ObeyNothing();
    if !Says(stack[3], path).Untouched? {
      assert LastToSpeak(stack, path, 3);
    } else if !Says(stack[2], path).Untouched? {
      assert LastToSpeak(stack, path, 2);
    } else if !Says(stack[1], path).Untouched? {
      assert LastToSpeak(stack, path, 1);
    } else if !Says(stack[0], path).Untouched? {
      assert LastToSpeak(stack, path, 0);
    }
  }

  lemma ObeyNothing()
    ensures Obey(Untouched, None) == None
  {
  }

  // ---------------------------------------------------------------- a patch and the request after it

  lemma PatchedTenantSays(old_: Tenant, new_: Tenant, changes: Layer, path: seq<string>)
    requires path != [] && Overridden(old_.overrides, changes, new_.overrides)
    requires !Says(changes, path).Untouched?
    ensures TenantSays(new_, path) == Says(changes, path)
  {
  }

  // Main result: a request right after a patch is answered with the patch's own value at every path
  // it sets, unless the location or the channel profile speaks there. (From well-named rows and a
  // coherent cache, for a tenant that is served.)
  lemma PatchIsServed(w: World, s: State, key: string, changes: Layer, originOk: bool, channel: string,
                      location: string, at: real, now: real, path: seq<string>)
    requires w.Valid() && Sound(w, s) && Unique(s.rows) && key in s.rows && !s.rows[key].paused
    requires ':' !in channel && (channel == "web" ==> originOk)
    requires path != [] && !Says(changes, path).Untouched?
    requires LocationSays(s.rows[key], location, path).Untouched? && ChannelSays(w, channel, path).Untouched?
    ensures var t := Step(w, s, Patch(key, changes), at).0;
            var reply := Step(w, t, Request(s.rows[key].publicKey, originOk, channel, location), now).1;
            reply.Config? && LeafAt(reply.cfg, path) == Obey(Says(changes, path), None)
  {
    hide Sound, Step, Overridden, OwnEntriesGone, OthersStay, Says, LeafAt, Obey, TenantSays, PackSays, Fresh, Unique,
         CachelessStep;
    var op := Request(s.rows[key].publicKey, originOk, channel, location);
    var t := Step(w, s, Patch(key, changes), at).0;
    PatchMeaning(w, s, key, changes, at);
    StepIsInvisible(w, s, Patch(key, changes), at);
    StepIsInvisible(w, t, op, now);
    PatchKeepsUnique(s.rows, t.rows, key);
    ServedFresh(w, t.rows, key, op);
    PatchedTenantSays(s.rows[key], t.rows[key], changes, path);
    ResolvedLeaf(w, t.rows[key], location, channel, path);
  }

  lemma PatchKeepsUnique(rows: Rows, rows': Rows, key: string)
    requires Unique(rows) && key in rows && key in rows' && OthersStay(rows, rows', key)
    requires rows'[key].publicKey == rows[key].publicKey
    ensures Unique(rows')
  {
  }

  lemma ServedFresh(w: World, rows: Rows, key: string, op: Op)
    requires w.Valid() && Unique(rows) && key in rows && op.Request? && op.publicKey == rows[key].publicKey
    requires !rows[key].paused && (op.channel == "web" ==> op.originOk)
    ensures CachelessStep(w, rows, op).1 == Config(Fresh(w, rows[key], op.location, op.channel))
  {
    hide Fresh;
    assert Holder(rows, op.publicKey) == Some(key);
  }

  // ---------------------------------------------------------------- the age of an entry

  // An entry is served for sixty seconds, its own second included; older than that it is dropped.
  lemma AgeDecides(cache: Cache, key: string, now: real)
    ensures (key in cache && now - cache[key].at <= 60.0 ==>
               Hit(cache, key, now) == Some(cache[key].cfg) && AfterGet(cache, key, now) == cache)
    ensures (key in cache && now - cache[key].at > 60.0 ==>
               Hit(cache, key, now) == None && AfterGet(cache, key, now) == cache - {key})
    ensures key !in cache ==> Hit(cache, key, now) == None && AfterGet(cache, key, now) == cache
  {
  }
}
