// Config layering (app/config/resolver.py): the recursive merge, its algebra, and what resolving
// a stack of layers means for a single leaf. Scalars and lists are atoms; None is Null.
module Resolver {
  import opened Prelude

  datatype Value = Null | Atom(a: string) | Dict(m: map<string, Value>)

  type Layer = v: Value | v.Dict? witness Dict(map[])

  const NOTHING: Layer := Dict(map[])

  // The value a merged dict holds under k; None when it has no such key.
  function MergedAt(base: Layer, over: Layer, k: string): Option<Value>
    decreases over, 0
  {
    if k !in over.m || over.m[k].Null? then (if k in base.m then Some(base.m[k]) else None)
    else if over.m[k].Dict? && k in base.m && base.m[k].Dict? then Some(Merge(base.m[k], over.m[k]))
    else Some(over.m[k])
  }

  function Merge(base: Layer, over: Layer): (r: Layer)
    decreases over, 1
  {
    Dict(map k | k in base.m.Keys + over.m.Keys && MergedAt(base, over, k).Some? :: MergedAt(base, over, k).value)
  }

  // deep_merge as written: a copy of base, changed key by key.
  method DeepMerge(base: Layer, override: Layer) returns (out: Layer)
    ensures out == Merge(base, override)
    decreases override
  {
    var result := base.m;
    var todo := override.m.Keys;
    while todo != {}
      invariant todo <= override.m.Keys
      invariant forall k :: k in todo || k !in override.m ==> (k in result <==> k in base.m)
      invariant forall k :: (k in todo || k !in override.m) && k in base.m ==> result[k] == base.m[k]
      invariant forall k :: k in override.m && k !in todo ==> (k in result <==> MergedAt(base, override, k).Some?)
      invariant forall k :: k in override.m && k !in todo && k in result ==>
                              Some(result[k]) == MergedAt(base, override, k)
      decreases todo
    {
      var key :| key in todo;
      todo := todo - {key};
      var value := override.m[key];
      if value.Null? {
        continue;
      }
      if value.Dict? && key in result && result[key].Dict? {
        var sub := DeepMerge(result[key], value);
        result := result[key := sub];
      } else {
        result := result[key := value];
      }
    }
    out := Dict(result);
    assert out.m == Merge(base, override).m;
  }

  // ---------------------------------------------------------------- algebra

  lemma {:induction false} SelfMerge(v: Layer)
    ensures Merge(v, v) == v
  {
    forall k | k in v.m && v.m[k].Dict? ensures MergedAt(v, v, k) == Some(v.m[k]) {
      SelfMerge(v.m[k]);
    }
    assert Merge(v, v).m == v.m;
  }

  // {} is a right identity.
  lemma RightIdentity(base: Layer)
    ensures Merge(base, NOTHING) == base
  {
    assert Merge(base, NOTHING).m == base.m;
  }

  // Merging the same override again changes nothing.
  lemma {:induction false} Idempotent(base: Layer, over: Layer)
    ensures Merge(Merge(base, over), over) == Merge(base, over)
    decreases over
  {
    var once := Merge(base, over);
    forall k ensures MergedAt(once, over, k) == MergedAt(base, over, k) {
      if k in over.m && over.m[k].Dict? {
        if k in base.m && base.m[k].Dict? {
          Idempotent(base.m[k], over.m[k]);
        } else {
          SelfMerge(over.m[k]);
        }
      }
    }
    assert Merge(once, over).m == once.m;
  }

  // Merging x under z leaves z as it is: z has every key of x, and decides each of them itself.
  ghost predicate Absorbs(z: Layer, x: Layer)
    decreases z
  {
    forall k :: k in x.m ==>
      && k in z.m
      && (z.m[k].Null? ==> x.m[k].Null?)
      && (z.m[k].Dict? && x.m[k].Dict? ==> Absorbs(z.m[k], x.m[k]))
  }

  // And z has no Null under a key that x lacks, which a merge would drop.
  ghost predicate NoLooseNull(z: Layer, x: Layer)
    decreases z
  {
    forall k :: k in z.m ==>
      && (z.m[k].Null? ==> k in x.m)
      && (z.m[k].Dict? && k in x.m && x.m[k].Dict? ==> NoLooseNull(z.m[k], x.m[k]))
  }

  lemma {:induction false} MergeAbsorbed(x: Layer, z: Layer)
    ensures Merge(x, z) == z <==> Absorbs(z, x) && NoLooseNull(z, x)
    decreases z
  {
    forall k | k in x.m && k in z.m && x.m[k].Dict? && z.m[k].Dict?
      ensures MergedAt(x, z, k) == Some(z.m[k]) <==> Absorbs(z.m[k], x.m[k]) && NoLooseNull(z.m[k], x.m[k])
    {
      MergeAbsorbed(x.m[k], z.m[k]);
    }
    if Merge(x, z) == z {
      forall k | k in x.m ensures k in z.m && MergedAt(x, z, k) == Some(z.m[k]) {
        assert k in Merge(x, z).m;
      }
      forall k | k in z.m ensures MergedAt(x, z, k) == Some(z.m[k]) {
        assert k in Merge(x, z).m;
      }
    }
    if Absorbs(z, x) && NoLooseNull(z, x) {
      assert Merge(x, z).m == z.m;
    }
  }

  // A path at which the outer two layers hold dicts and the middle one a scalar or list, and the
  // last layer's dict does not absorb the first one's.
  ghost predicate Clash(a: Layer, b: Layer, c: Layer)
    decreases c
  {
    exists k :: ClashAt(a, b, c, k)
  }

  ghost predicate ClashAt(a: Layer, b: Layer, c: Layer, k: string)
    decreases c, 0
  {
    && k in a.m && k in b.m && k in c.m && a.m[k].Dict? && c.m[k].Dict?
    && match b.m[k]
       case Null => false
       case Atom(_) => !(Absorbs(c.m[k], a.m[k]) && NoLooseNull(c.m[k], a.m[k]))
       case Dict(_) => Clash(a.m[k], b.m[k], c.m[k])
  }

  lemma {:induction false} AssociativeAt(a: Layer, b: Layer, c: Layer, k: string)
    ensures MergedAt(Merge(a, b), c, k) == MergedAt(a, Merge(b, c), k) <==> !ClashAt(a, b, c, k)
    decreases c, 0
  {
    if k in a.m && k in b.m && k in c.m && a.m[k].Dict? && c.m[k].Dict? {
      match b.m[k]
      case Null =>
      case Atom(_) =>
        MergeAbsorbed(a.m[k], c.m[k]);
      case Dict(_) =>
        Associative(a.m[k], b.m[k], c.m[k]);
    }
  }

  // deep_merge is associative exactly where no path clashes.
  lemma {:induction false} Associative(a: Layer, b: Layer, c: Layer)
    ensures Merge(Merge(a, b), c) == Merge(a, Merge(b, c)) <==> !Clash(a, b, c)
    decreases c, 1
  {
    var left, right := Merge(Merge(a, b), c), Merge(a, Merge(b, c));
    forall k ensures MergedAt(Merge(a, b), c, k) == MergedAt(a, Merge(b, c), k) <==> !ClashAt(a, b, c, k) {
      if k in c.m {
        AssociativeAt(a, b, c, k);
      }
    }
    if !Clash(a, b, c) {
      forall k ensures k in left.m <==> k in right.m {
        assert !ClashAt(a, b, c, k);
      }
      forall k | k in left.m ensures left.m[k] == right.m[k] {
        assert !ClashAt(a, b, c, k);
      }
      assert left.m == right.m;
    }
    if left == right {
      forall k ensures !ClashAt(a, b, c, k) {
        assert k in left.m ==> left.m[k] == MergedAt(Merge(a, b), c, k).value;
        assert k in right.m ==> right.m[k] == MergedAt(a, Merge(b, c), k).value;
      }
    }
  }

  // The failing family is not empty: a scalar between two dicts is forgotten on one side only.
  lemma ScalarBetweenDictsClashes(k: string, x: string, y: string, z: string)
    requires x != y
    ensures var a := Dict(map[k := Dict(map[x := Atom(z)])]);
            var b := Dict(map[k := Atom(z)]);
            var c := Dict(map[k := Dict(map[y := Atom(z)])]);
            && Clash(a, b, c)
            && Merge(Merge(a, b), c) == c
            && Merge(a, Merge(b, c)) == Dict(map[k := Dict(map[x := Atom(z), y := Atom(z)])])
  {
    var ax, cy := Dict(map[x := Atom(z)]), Dict(map[y := Atom(z)]);
    var a, b, c := Dict(map[k := ax]), Dict(map[k := Atom(z)]), Dict(map[k := cy]);
    assert !Absorbs(cy, ax) by { assert x in ax.m && x !in cy.m; }
    assert ClashAt(a, b, c, k);
    assert Merge(a, b).m == b.m;
    assert Merge(b, c).m == c.m;
    assert Merge(ax, cy).m == map[x := Atom(z), y := Atom(z)];
    assert Merge(a, c).m == map[k := Merge(ax, cy)];
  }

  // ---------------------------------------------------------------- resolving a stack of layers

  // The scalar or list that v holds at a path of keys, if it holds one.
  function LeafAt(v: Value, path: seq<string>): Option<string> {
    if path == [] then (if v.Atom? then Some(v.a) else None)
    else if v.Dict? && path[0] in v.m then LeafAt(v.m[path[0]], path[1..])
    else None
  }

  // What one layer says about a path: nothing, a value for it, or something that hides it
  // (a scalar above it, or a dict in its place).
  datatype Word = Untouched | Sets(a: string) | Shadows

  function Says(v: Value, path: seq<string>): Word {
    match v
    case Null => Untouched
    case Atom(a) => if path == [] then Sets(a) else Shadows
    case Dict(m) =>
      if path == [] then Shadows
      else if path[0] in m then Says(m[path[0]], path[1..])
      else Untouched
  }

  function Obey(word: Word, before: Option<string>): Option<string> {
    match word
    case Untouched => before
    case Sets(a) => Some(a)
    case Shadows => None
  }

  lemma {:induction false} LeafOfOne(v: Value, path: seq<string>)
    ensures LeafAt(v, path) == Obey(Says(v, path), None)
  {
    if path != [] && v.Dict? && path[0] in v.m {
      LeafOfOne(v.m[path[0]], path[1..]);
    }
  }

  lemma {:induction false} LeafOfMerge(base: Layer, over: Layer, path: seq<string>)
    ensures LeafAt(Merge(base, over), path) == Obey(Says(over, path), LeafAt(base, path))
    decreases path
  {
    if path != [] {
      var k := path[0];
      assert MergedAt(base, over, k).Some? <==> k in Merge(base, over).m;
      if k in over.m && over.m[k].Dict? && k in base.m && base.m[k].Dict? {
        LeafOfMerge(base.m[k], over.m[k], path[1..]);
      } else if k in over.m && !over.m[k].Null? {
        LeafOfOne(over.m[k], path[1..]);
      }
    }
  }

  function Fold(layers: seq<Layer>): Layer {
    if layers == [] then NOTHING else Merge(Fold(layers[..|layers| - 1]), layers[|layers| - 1])
  }

  // Layer i is the last of the stack that says anything about the path.
  ghost predicate LastToSpeak(layers: seq<Layer>, path: seq<string>, i: int) {
    && 0 <= i < |layers|
    && !Says(layers[i], path).Untouched?
    && forall j :: i < j < |layers| ==> Says(layers[j], path).Untouched?
  }

  // A leaf of the resolved config is the word of the last layer that has one, and there is no
  // leaf where no layer has one.
  lemma {:induction false} LastLayerDecides(layers: seq<Layer>, path: seq<string>)
    requires path != []
    ensures forall i :: LastToSpeak(layers, path, i) ==> LeafAt(Fold(layers), path) == Obey(Says(layers[i], path), None)
    ensures (forall j :: 0 <= j < |layers| ==> Says(layers[j], path).Untouched?) ==> LeafAt(Fold(layers), path) == None
  {
    if layers != [] {
      var n := |layers| - 1;
      var init := layers[..n];
      LastLayerDecides(init, path);
      LeafOfMerge(Fold(init), layers[n], path);
      forall i | LastToSpeak(layers, path, i)
        ensures LeafAt(Fold(layers), path) == Obey(Says(layers[i], path), None)
      {
        if i < n {
          assert LastToSpeak(init, path, i);
        }
      }
    }
  }

  function OrEmpty(layer: Option<Layer>): Layer {
    if layer.Some? then layer.value else NOTHING
  }

  // The four layers in the order resolve applies them; profile is CHANNEL_PROFILES.get(channel, {}).
  function Stack(pack: Option<Layer>, tenant: Option<Layer>, location: Option<Layer>, profile: Layer): seq<Layer> {
    [OrEmpty(pack), OrEmpty(tenant), OrEmpty(location), Dict(map["channel" := profile])]
  }

  // resolve, up to the schema validation of its result.
  method Resolve(pack: Option<Layer>, tenant: Option<Layer>, location: Option<Layer>, profile: Layer)
    returns (merged: Layer)
    ensures merged == Fold(Stack(pack, tenant, location, profile))
  {
    var layers: seq<Layer> := [OrEmpty(pack), OrEmpty(tenant), OrEmpty(location)];
    ghost var stack := Stack(pack, tenant, location, profile);
    merged := Dict(map[]);
    for i := 0 to 3
      invariant merged == Fold(stack[..i])
    {
      assert stack[..i + 1][..i] == stack[..i];
      merged := DeepMerge(merged, layers[i]);
    }
    assert stack[..3] == stack[..|stack| - 1];
    merged := DeepMerge(merged, Dict(map["channel" := profile]));
  }

  // Whatever the channel profile sets is what the resolved config has.
  lemma ChannelProfileWins(pack: Option<Layer>, tenant: Option<Layer>, location: Option<Layer>,
                           profile: Layer, path: seq<string>)
    ensures var merged := Fold(Stack(pack, tenant, location, profile));
            && (Says(profile, path).Sets? ==> LeafAt(merged, ["channel"] + path) == Some(Says(profile, path).a))
            && (Says(profile, path).Shadows? ==> LeafAt(merged, ["channel"] + path) == None)
  {
    var stack := Stack(pack, tenant, location, profile);
    var full := ["channel"] + path;
    assert full[1..] == path;
    assert Says(stack[3], full) == Says(profile, path);
    LastLayerDecides(stack, full);
    if !Says(profile, path).Untouched? {
      assert LastToSpeak(stack, full, 3);
    }
  }
}
