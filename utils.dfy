// app/core/utils.py: the payload walkers, first-wins deduplication, field removal,
// the numeric one-time code, and the boolean user-flag update.

module Utils {

  import opened Wrappers
  import opened Json
  import opened Text
  import opened Payload
  import opened Enums
  import opened Db

  /** No handle occurs twice. */
  predicate NoDup<T(==)>(s: seq<T>)
  {
    forall i, j :: 0 <= i < j < |s| ==> s[i] != s[j]
  }

  lemma NoDupAppend<T>(a: seq<T>, b: seq<T>)
    requires NoDup(a) && NoDup(b)
    requires forall x :: x in a ==> x !in b
    ensures NoDup(a + b)
  {
    forall i, j | 0 <= i < j < |a + b| ensures (a + b)[i] != (a + b)[j] {
      if j < |a| {
      } else if i >= |a| {
        assert (a + b)[i] == b[i - |a|] && (a + b)[j] == b[j - |a|];
      } else {
        assert (a + b)[i] in a && (a + b)[j] in b;
      }
    }
  }

  /** The first components of a sequence of pairs. */
  function Firsts<K, V>(s: seq<(K, V)>): (r: seq<K>)
    ensures |r| == |s| && forall i :: 0 <= i < |s| ==> r[i] == s[i].0
  {
    seq(|s|, i requires 0 <= i < |s| => s[i].0)
  }

  function First<K, V>(p: (K, V)): K
  {
    p.0
  }

  /** Distinct first components, stated with the key function. */
  lemma DistinctFirsts<K, V>(s: seq<(K, V)>)
    requires DistinctBy(s, First)
    ensures NoDup(Firsts(s))
  {
    forall i, j | 0 <= i < j < |s| ensures Firsts(s)[i] != Firsts(s)[j] {
      assert First(s[i]) != First(s[j]);
    }
  }

  /** The value of an option as a list of at most one element. */
  function Kept<B>(o: Option<B>): (r: seq<B>)
    ensures o.None? ==> r == []
    ensures o.Some? ==> r == [o.value]
  {
    match o
    case Some(b) => [b]
    case None => []
  }

  /** A filtering list comprehension: the images of the elements `f` keeps, in order. */
  function FilterMap<A, B(!new)>(xs: seq<A>, f: A -> Option<B>): (r: seq<B>)
    ensures forall b :: b in r <==> exists i :: 0 <= i < |xs| && f(xs[i]) == Some(b)
  {
    if xs == [] then []
    else
      var init := xs[..|xs| - 1];
      var tail := match f(xs[|xs| - 1]) case Some(b) => [b] case None => [];
      assert forall i :: 0 <= i < |init| ==> init[i] == xs[i];
      FilterMap(init, f) + tail
  }

  /** The comprehension over a concatenation is the concatenation of the comprehensions. */
  lemma {:induction false} FilterMapAppend<A, B(!new)>(xs: seq<A>, ys: seq<A>, f: A -> Option<B>)
    ensures FilterMap(xs + ys, f) == FilterMap(xs, f) + FilterMap(ys, f)
    decreases |ys|
  {
    if ys == [] {
      assert xs + ys == xs;
    } else {
      var init := ys[..|ys| - 1];
      assert (xs + ys)[..|xs + ys| - 1] == xs + init;
      assert (xs + ys)[|xs + ys| - 1] == ys[|ys| - 1];
      FilterMapAppend(xs, init, f);
    }
  }

  /** One more element contributes its image, if it has one, at the end. */
  lemma FilterMapSnoc<A, B(!new)>(xs: seq<A>, x: A, f: A -> Option<B>)
    ensures FilterMap(xs + [x], f) == FilterMap(xs, f) + Kept(f(x))
  {
    assert (xs + [x])[..|xs|] == xs;
  }

  /** Nothing kept, nothing produced. */
  lemma FilterMapNone<A, B(!new)>(xs: seq<A>, f: A -> Option<B>)
    requires forall i :: 0 <= i < |xs| ==> f(xs[i]).None?
    ensures FilterMap(xs, f) == []
  {
  }

  /** The comprehension over four parts, part by part. */
  lemma FilterMapFour<A, B(!new)>(a: seq<A>, b: seq<A>, c: seq<A>, d: seq<A>, f: A -> Option<B>)
    ensures FilterMap(a + b + c + d, f) == FilterMap(a, f) + FilterMap(b, f) + FilterMap(c, f) + FilterMap(d, f)
  {
    FilterMapAppend(a + b + c, d, f);
    FilterMapAppend(a + b, c, f);
    FilterMapAppend(a, b, f);
  }

  /** Only the first of four parts keeps anything. */
  lemma FilterMapFirstOfFour<A, B(!new)>(a: seq<A>, b: seq<A>, c: seq<A>, d: seq<A>, f: A -> Option<B>)
    requires forall i :: 0 <= i < |b| ==> f(b[i]).None?
    requires forall i :: 0 <= i < |c| ==> f(c[i]).None?
    requires forall i :: 0 <= i < |d| ==> f(d[i]).None?
    ensures FilterMap(a + b + c + d, f) == FilterMap(a, f)
  {
    FilterMapFour(a, b, c, d, f);
    FilterMapNone(b, f);
    FilterMapNone(c, f);
    FilterMapNone(d, f);
  }

  lemma FilterMapSecondOfFour<A, B(!new)>(a: seq<A>, b: seq<A>, c: seq<A>, d: seq<A>, f: A -> Option<B>)
    requires forall i :: 0 <= i < |a| ==> f(a[i]).None?
    requires forall i :: 0 <= i < |c| ==> f(c[i]).None?
    requires forall i :: 0 <= i < |d| ==> f(d[i]).None?
    ensures FilterMap(a + b + c + d, f) == FilterMap(b, f)
  {
    FilterMapFour(a, b, c, d, f);
    FilterMapNone(a, f);
    FilterMapNone(c, f);
    FilterMapNone(d, f);
  }

  lemma FilterMapThirdOfFour<A, B(!new)>(a: seq<A>, b: seq<A>, c: seq<A>, d: seq<A>, f: A -> Option<B>)
    requires forall i :: 0 <= i < |a| ==> f(a[i]).None?
    requires forall i :: 0 <= i < |b| ==> f(b[i]).None?
    requires forall i :: 0 <= i < |d| ==> f(d[i]).None?
    ensures FilterMap(a + b + c + d, f) == FilterMap(c, f)
  {
    FilterMapFour(a, b, c, d, f);
    FilterMapNone(a, f);
    FilterMapNone(b, f);
    FilterMapNone(d, f);
  }

  lemma FilterMapFourthOfFour<A, B(!new)>(a: seq<A>, b: seq<A>, c: seq<A>, d: seq<A>, f: A -> Option<B>)
    requires forall i :: 0 <= i < |a| ==> f(a[i]).None?
    requires forall i :: 0 <= i < |b| ==> f(b[i]).None?
    requires forall i :: 0 <= i < |c| ==> f(c[i]).None?
    ensures FilterMap(a + b + c + d, f) == FilterMap(d, f)
  {
    FilterMapFour(a, b, c, d, f);
    FilterMapNone(a, f);
    FilterMapNone(b, f);
    FilterMapNone(c, f);
  }

  function Id<T>(x: T): T
  {
    x
  }

  /** Distinct elements, stated with the identity key. */
  lemma DistinctIds<T>(s: seq<T>)
    requires DistinctBy(s, Id)
    ensures NoDup(s)
  {
    forall i, j | 0 <= i < j < |s| ensures s[i] != s[j] {
      assert Id(s[i]) != Id(s[j]);
    }
  }

  /** No two elements share a key. */
  predicate DistinctBy<B, K(==)>(s: seq<B>, key: B -> K)
  {
    forall i, j :: 0 <= i < j < |s| ==> key(s[i]) != key(s[j])
  }

  /**
   * When no two positions are kept under the same key, the kept images have distinct keys.
   */
  lemma {:induction false} FilterMapNoDup<A, B(!new), K>(xs: seq<A>, f: A -> Option<B>, key: B -> K)
    requires forall i, j :: (0 <= i < |xs| && 0 <= j < |xs| && f(xs[i]).Some? && f(xs[j]).Some?
      && key(f(xs[i]).value) == key(f(xs[j]).value)) ==> i == j
    ensures DistinctBy(FilterMap(xs, f), key)
  {
    if xs != [] {
      var init := xs[..|xs| - 1];
      var last := xs[|xs| - 1];
      assert forall i :: 0 <= i < |init| ==> init[i] == xs[i];
      FilterMapNoDup(init, f, key);
      var r := FilterMap(xs, f);
      var front := FilterMap(init, f);
      if f(last).Some? {
        forall i | 0 <= i < |front| ensures key(front[i]) != key(f(last).value) {
          var w :| 0 <= w < |init| && f(init[w]) == Some(front[i]);
          assert f(xs[w]) == Some(front[i]);
        }
        assert r == front + [f(last).value];
        forall i, j | 0 <= i < j < |r| ensures key(r[i]) != key(r[j]) {
          assert r[i] == front[i];
          if j == |front| {
            assert key(front[i]) != key(f(last).value);
          } else {
            assert r[j] == front[j];
          }
        }
      }
    }
  }

  // ---------------------------------------------------------------------------------
  // The walk shared by find_instances and find_objects_with_attributes
  // ---------------------------------------------------------------------------------

  /**
   * The walk from `h` with the identities in `seen` already taken: the nodes it keeps
   * (those satisfying `keep`, in visiting order) and the `seen` set it leaves behind.
   * A handle already seen yields nothing; otherwise the node is marked, kept when it
   * matches, and its children are walked one after another with the shared `seen`.
   */
  function Traverse(g: Graph, h: Handle, seen: set<Handle>, keep: Node -> bool): (r: (seq<Handle>, set<Handle>))
    requires Closed(g) && h in g
    ensures seen <= r.1 <= seen + g.Keys && h in r.1
    ensures h in seen ==> r == ([], seen)
    ensures forall x :: x in r.0 <==> x in r.1 && x !in seen && x in g && keep(g[x])
    ensures NoDup(r.0)
    ensures forall x, c :: x in r.1 && x !in seen && x in g && c in Children(g[x]) ==> c in r.1
    ensures h !in seen && keep(g[h]) ==> |r.0| >= 1 && r.0[0] == h
    decreases g.Keys - seen, 0
  {
    if h in seen then ([], seen)
    else
      var rest := TraverseAll(g, Children(g[h]), seen + {h}, keep);
      var own := if keep(g[h]) then [h] else [];
      NoDupAppend(own, rest.0);
      (own + rest.0, rest.1)
  }

  /** `for child in children: found.extend(walk(child, seen))` */
  function TraverseAll(g: Graph, hs: seq<Handle>, seen: set<Handle>, keep: Node -> bool): (r: (seq<Handle>, set<Handle>))
    requires Closed(g) && forall i :: 0 <= i < |hs| ==> hs[i] in g
    ensures seen <= r.1 <= seen + g.Keys
    ensures forall i :: 0 <= i < |hs| ==> hs[i] in r.1
    ensures forall x :: x in r.0 <==> x in r.1 && x !in seen && x in g && keep(g[x])
    ensures NoDup(r.0)
    ensures forall x, c :: x in r.1 && x !in seen && x in g && c in Children(g[x]) ==> c in r.1
    decreases g.Keys - seen, 1, |hs|
  {
    if hs == [] then ([], seen)
    else
      var first := Traverse(g, hs[0], seen, keep);
      assert g.Keys - first.1 <= g.Keys - seen;
      var rest := TraverseAll(g, hs[1..], first.1, keep);
      assert forall i :: 1 <= i < |hs| ==> hs[i] == hs[1..][i - 1];
      NoDupAppend(first.0, rest.0);
      (first.0 + rest.0, rest.1)
  }

  /** Every node reachable from the root is visited by a walk that starts with nothing seen. */
  lemma {:induction false} TraverseReachesAll(g: Graph, p: seq<Handle>, keep: Node -> bool)
    requires Closed(g) && IsPath(g, p)
    ensures p[|p| - 1] in Traverse(g, p[0], {}, keep).1
  {
    var visited := Traverse(g, p[0], {}, keep).1;
    var i := 0;
    while i < |p| - 1
      invariant 0 <= i <= |p| - 1
      invariant p[i] in visited
    {
      assert p[i + 1] in Children(g[p[i]]);
      i := i + 1;
    }
  }

  /** Hence every reachable node that matches is returned, and nothing is returned twice. */
  lemma FindsEveryReachableMatch(g: Graph, p: seq<Handle>, keep: Node -> bool)
    requires Closed(g) && IsPath(g, p) && keep(g[p[|p| - 1]])
    ensures p[|p| - 1] in Traverse(g, p[0], {}, keep).0
  {
    TraverseReachesAll(g, p, keep);
  }

  /**
   * The recursive walk, with the shared `seen` set passed in and handed back.
   * Its result is the one the walk specification describes.
   */
  method Walk(g: Graph, h: Handle, seen: set<Handle>, keep: Node -> bool)
      returns (found: seq<Handle>, seenAfter: set<Handle>)
    requires Closed(g) && h in g
    ensures (found, seenAfter) == Traverse(g, h, seen, keep)
    decreases g.Keys - seen, 0
  {
    if h in seen {
      return [], seen;
    }
    seenAfter := seen + {h};
    found := if keep(g[h]) then [h] else [];
    var children := Children(g[h]);
    assert forall j :: 0 <= j < |children| ==> children[j] in g;
    assert children[0..] == children;
    var i := 0;
    while i < |children|
      invariant 0 <= i <= |children|
      invariant seen + {h} <= seenAfter
      invariant OnTrack(g, children, i, found, seenAfter, Traverse(g, h, seen, keep), keep)
    {
      var sub, seenNext := Walk(g, children[i], seenAfter, keep);
      WalkStep(g, children, i, found, seenAfter, keep);
      found := found + sub;
      seenAfter := seenNext;
      i := i + 1;
    }
    assert children[i..] == [] && found + [] == found;
  }

  /** The loop of `Walk` after `i` children: what is left to walk completes the answer. */
  ghost predicate OnTrack(g: Graph, children: seq<Handle>, i: nat, found: seq<Handle>,
                          seenAfter: set<Handle>, answer: (seq<Handle>, set<Handle>), keep: Node -> bool)
  {
    Closed(g) && i <= |children| && (forall j :: 0 <= j < |children| ==> children[j] in g)
    && var t := TraverseAll(g, children[i..], seenAfter, keep);
       (found + t.0, t.1) == answer
  }

  lemma WalkStep(g: Graph, children: seq<Handle>, i: nat, found: seq<Handle>, seenAfter: set<Handle>, keep: Node -> bool)
    requires Closed(g) && i < |children| && forall j :: 0 <= j < |children| ==> children[j] in g
    ensures var sub := Traverse(g, children[i], seenAfter, keep);
      var t := TraverseAll(g, children[i..], seenAfter, keep);
      var t' := TraverseAll(g, children[i + 1..], sub.1, keep);
      (found + t.0, t.1) == ((found + sub.0) + t'.0, t'.1)
  {
    var hs := children[i..];
    assert hs[0] == children[i] && hs[1..] == children[i + 1..];
    var sub := Traverse(g, children[i], seenAfter, keep);
    var t' := TraverseAll(g, children[i + 1..], sub.1, keep);
    assert TraverseAll(g, hs, seenAfter, keep) == (sub.0 + t'.0, t'.1);
    assert found + (sub.0 + t'.0) == (found + sub.0) + t'.0;
  }

  /** `find_instances(obj, cls, seen)` */
  method FindInstances(g: Graph, h: Handle, cls: Cls, seen: set<Handle>)
      returns (found: seq<Handle>, seenAfter: set<Handle>)
    requires Closed(g) && h in g
    ensures (found, seenAfter) == Traverse(g, h, seen, InstanceOf(cls))
  {
    found, seenAfter := Walk(g, h, seen, InstanceOf(cls));
  }

  /** `find_objects_with_attributes(obj, names, seen)` */
  method FindObjectsWithAttributes(g: Graph, h: Handle, names: seq<string>, seen: set<Handle>)
      returns (found: seq<Handle>, seenAfter: set<Handle>)
    requires Closed(g) && h in g
    ensures (found, seenAfter) == Traverse(g, h, seen, WithAttrs(names))
  {
    found, seenAfter := Walk(g, h, seen, WithAttrs(names));
  }

  /** The match test of `find_instances`. */
  function InstanceOf(cls: Cls): Node -> bool
  {
    n => IsInstance(n, cls)
  }

  /** The match test of `find_objects_with_attributes`. */
  function WithAttrs(names: seq<string>): Node -> bool
  {
    n => HasAttrs(n, names)
  }

  /** Starting with nothing seen, the instances found are exactly the visited instances, each once. */
  lemma FindInstancesExact(g: Graph, h: Handle, cls: Cls, x: Handle)
    requires Closed(g) && h in g
    ensures var r := Traverse(g, h, {}, InstanceOf(cls));
      NoDup(r.0) && (x in r.0 <==> x in r.1 && IsInstance(g[x], cls))
    ensures IsInstance(g[h], cls) ==> Traverse(g, h, {}, InstanceOf(cls)).0[0] == h
  {
  }

  /** The objects found are exactly the visited nodes that have every required attribute. */
  lemma FindObjectsWithAttributesExact(g: Graph, h: Handle, names: seq<string>, x: Handle)
    requires Closed(g) && h in g
    ensures var r := Traverse(g, h, {}, WithAttrs(names));
      NoDup(r.0) && (x in r.0 <==> x in r.1 && HasAttrs(g[x], names))
  {
  }

  // ---------------------------------------------------------------------------------
  // deduplicate / deduplicate_compound
  // ---------------------------------------------------------------------------------

  /** A Python dict: its keys in insertion order and the value under each. */
  datatype OrderedMap<K, V> = OrderedMap(keys: seq<K>, values: map<K, V>)

  ghost predicate WellFormed<K(!new), V>(m: OrderedMap<K, V>)
  {
    NoDup(m.keys) && forall k :: k in m.values <==> k in m.keys
  }

  /**
   * The position of the first object whose key is `k` (a reference definition of "first
   * occurrence", independent of the dictionary built by deduplication).
   */
  function FirstIndex<T, K(==)>(objects: seq<T>, keyOf: T -> Option<K>, k: K): (r: Option<nat>)
    ensures r.Some? ==> (r.value < |objects| && keyOf(objects[r.value]) == Some(k)
      && forall j :: 0 <= j < r.value ==> keyOf(objects[j]) != Some(k))
    ensures r.None? ==> forall j :: 0 <= j < |objects| ==> keyOf(objects[j]) != Some(k)
  {
    if objects == [] then None
    else
      var init := objects[..|objects| - 1];
      match FirstIndex(init, keyOf, k)
      case Some(i) => Some(i)
      case None => if keyOf(objects[|objects| - 1]) == Some(k) then Some(|objects| - 1) else None
  }

  /**
   * Deduplication: objects without the key are skipped, the first object with a key wins,
   * and the keys are ordered by first occurrence.
   */
  function Dedup<T, K(==,!new)>(objects: seq<T>, keyOf: T -> Option<K>): (r: OrderedMap<K, T>)
    ensures WellFormed(r)
    ensures forall k :: k in r.values <==> FirstIndex(objects, keyOf, k).Some?
    ensures forall k :: k in r.values ==> r.values[k] == objects[FirstIndex(objects, keyOf, k).value]
    ensures forall i, j :: 0 <= i < j < |r.keys| ==>
      FirstIndex(objects, keyOf, r.keys[i]).value < FirstIndex(objects, keyOf, r.keys[j]).value
  {
    if objects == [] then OrderedMap([], map[])
    else
      var init := objects[..|objects| - 1];
      var d := Dedup(init, keyOf);
      var o := objects[|objects| - 1];
      match keyOf(o)
      case None => d
      case Some(k) =>
        if k in d.values then d
        else
          assert FirstIndex(objects, keyOf, k) == Some(|objects| - 1);
          NoDupAppend(d.keys, [k]);
          OrderedMap(d.keys + [k], d.values[k := o])
  }

  /** A key is present iff some object has it. */
  lemma DedupKeys<T, K(!new)>(objects: seq<T>, keyOf: T -> Option<K>, k: K)
    ensures k in Dedup(objects, keyOf).values <==> exists i :: 0 <= i < |objects| && keyOf(objects[i]) == Some(k)
  {
    if exists i :: 0 <= i < |objects| && keyOf(objects[i]) == Some(k) {
      var i :| 0 <= i < |objects| && keyOf(objects[i]) == Some(k);
      assert FirstIndex(objects, keyOf, k).Some?;
    }
  }

  /** The object kept under a present key is the first one that has it. */
  lemma DedupFirstWins<T, K(!new)>(objects: seq<T>, keyOf: T -> Option<K>, k: K)
    ensures k in Dedup(objects, keyOf).values <==> exists i :: 0 <= i < |objects| && keyOf(objects[i]) == Some(k)
    ensures k in Dedup(objects, keyOf).values ==> exists i :: (0 <= i < |objects| && keyOf(objects[i]) == Some(k)
      && Dedup(objects, keyOf).values[k] == objects[i]
      && forall j :: 0 <= j < i ==> keyOf(objects[j]) != Some(k))
  {
    DedupKeys(objects, keyOf, k);
    if k in Dedup(objects, keyOf).values {
      var i := FirstIndex(objects, keyOf, k).value;
      assert Dedup(objects, keyOf).values[k] == objects[i];
    }
  }

  /** `deduplicate` (and, with a compound key, `deduplicate_compound`): the loop that fills the dict. */
  method Deduplicate<T, K(==,!new)>(objects: seq<T>, keyOf: T -> Option<K>) returns (unique: OrderedMap<K, T>)
    ensures unique == Dedup(objects, keyOf)
  {
    unique := OrderedMap([], map[]);
    var i := 0;
    while i < |objects|
      invariant 0 <= i <= |objects|
      invariant unique == Dedup(objects[..i], keyOf)
    {
      assert objects[..i + 1][..i] == objects[..i];
      match keyOf(objects[i]) {
        case None =>
        case Some(k) =>
          if k !in unique.values {
            unique := OrderedMap(unique.keys + [k], unique.values[k := objects[i]]);
          }
      }
      i := i + 1;
    }
    assert objects[..i] == objects;
  }

  /**
   * `tuple(getattr(obj, f) for f in fields)`: the values of the fields in field order, or
   * None when the object lacks one of them.
   */
  function CompoundKey<T, V>(o: T, fields: seq<string>, attr: (T, string) -> Option<V>): (r: Option<seq<V>>)
    ensures r.Some? <==> forall i :: 0 <= i < |fields| ==> attr(o, fields[i]).Some?
    ensures r.Some? ==> (|r.value| == |fields|
      && forall i :: 0 <= i < |fields| ==> r.value[i] == attr(o, fields[i]).value)
  {
    if fields == [] then Some([])
    else
      match attr(o, fields[0])
      case None => None
      case Some(v) =>
        var rest := CompoundKey(o, fields[1..], attr);
        assert forall i :: 1 <= i < |fields| ==> fields[i] == fields[1..][i - 1];
        if rest.None? then None else Some([v] + rest.value)
  }

  /** The key extractor of `deduplicate_compound`. */
  function CompoundKeyOf<T, V>(fields: seq<string>, attr: (T, string) -> Option<V>): T -> Option<seq<V>>
  {
    o => CompoundKey(o, fields, attr)
  }

  method DeduplicateCompound<T, V(==,!new)>(objects: seq<T>, fields: seq<string>, attr: (T, string) -> Option<V>)
      returns (unique: OrderedMap<seq<V>, T>)
    ensures unique == Dedup(objects, CompoundKeyOf(fields, attr))
  {
    unique := Deduplicate(objects, CompoundKeyOf(fields, attr));
  }

  // ---------------------------------------------------------------------------------
  // remove_fields
  // ---------------------------------------------------------------------------------

  /** No object anywhere inside `v` has a key from `keys`. */
  predicate KeyFree(v: Json, keys: set<string>)
  {
    match v
    case JObj(m) => forall k :: k in m ==> k !in keys && KeyFree(m[k], keys)
    case JList(xs) => forall i :: 0 <= i < |xs| ==> KeyFree(xs[i], keys)
    case _ => true
  }

  /**
   * `w` is `v` with the keys of `keys` deleted from every object at every depth and
   * nothing else changed: other keys stay, lists keep their length and order, scalars stay.
   */
  predicate Pruned(v: Json, w: Json, keys: set<string>)
  {
    match v
    case JObj(m) =>
      w.JObj? && w.fields.Keys == m.Keys - keys
      && forall k :: k in w.fields ==> Pruned(m[k], w.fields[k], keys)
    case JList(xs) =>
      w.JList? && |w.items| == |xs|
      && forall i :: 0 <= i < |xs| ==> Pruned(xs[i], w.items[i], keys)
    case _ => w == v
  }

  /** The nested `recurse` of `remove_fields`. */
  function Scrub(v: Json, keys: set<string>): (r: Json)
    ensures Pruned(v, r, keys) && KeyFree(r, keys)
    decreases v
  {
    match v
    case JObj(m) => JObj(ScrubFields(m, keys))
    case JList(xs) => JList(seq(|xs|, i requires 0 <= i < |xs| => Scrub(xs[i], keys)))
    case _ => v
  }

  function ScrubFields(m: Dict, keys: set<string>): (r: Dict)
    ensures r.Keys == m.Keys - keys
    ensures forall k :: k in r ==> Pruned(m[k], r[k], keys) && KeyFree(r[k], keys)
    decreases JObj(m), 0
  {
    map k | k in m && k !in keys :: Scrub(m[k], keys)
  }

  /** The pruned form is unique, so `Scrub` is fully pinned down by `Pruned`. */
  lemma {:induction false} PrunedUnique(v: Json, w1: Json, w2: Json, keys: set<string>)
    requires Pruned(v, w1, keys) && Pruned(v, w2, keys)
    ensures w1 == w2
    decreases v
  {
    match v
    case JObj(m) =>
      forall k | k in w1.fields ensures w1.fields[k] == w2.fields[k] {
        PrunedUnique(m[k], w1.fields[k], w2.fields[k], keys);
      }
    case JList(xs) =>
      forall i | 0 <= i < |xs| ensures w1.items[i] == w2.items[i] {
        PrunedUnique(xs[i], w1.items[i], w2.items[i], keys);
      }
    case _ =>
  }

  /** A value with none of the keys anywhere is left as it is. */
  lemma {:induction false} ScrubKeyFree(v: Json, keys: set<string>)
    requires KeyFree(v, keys)
    ensures Scrub(v, keys) == v
    decreases v
  {
    match v
    case JObj(m) =>
      forall k | k in m ensures Scrub(m[k], keys) == m[k] {
        ScrubKeyFree(m[k], keys);
      }
      assert ScrubFields(m, keys) == m;
    case JList(xs) =>
      forall i | 0 <= i < |xs| ensures Scrub(xs[i], keys) == xs[i] {
        ScrubKeyFree(xs[i], keys);
      }
      assert Scrub(v, keys).items == xs;
    case _ =>
  }

  /** What `remove_fields(data, exclude, nested)` returns. */
  function RemovedFields(data: Dict, exclude: set<string>, nested: set<string>): (r: Dict)
    ensures r.Keys == data.Keys - exclude - nested
    ensures forall k :: k in r ==> r[k] == (if nested == {} then data[k] else Scrub(data[k], nested))
    ensures nested != {} ==> KeyFree(JObj(r), nested)
  {
    var top := data - exclude;
    if nested == {} then top else ScrubFields(top, nested)
  }

  /** Removing the same fields a second time changes nothing. */
  lemma RemovedFieldsIdempotent(data: Dict, exclude: set<string>, nested: set<string>)
    ensures RemovedFields(RemovedFields(data, exclude, nested), exclude, nested) == RemovedFields(data, exclude, nested)
  {
    var once := RemovedFields(data, exclude, nested);
    var twice := RemovedFields(once, exclude, nested);
    forall k | k in twice ensures twice[k] == once[k] {
      if nested != {} {
        ScrubKeyFree(once[k], nested);
      }
    }
  }

  /**
   * `remove_fields`: deletes the top-level keys of `exclude` one by one, then, when
   * `nested` is non-empty, deletes its keys at every depth.
   */
  method RemoveFields(data: Dict, exclude: set<string>, nested: set<string>) returns (r: Dict)
    ensures r == RemovedFields(data, exclude, nested)
  {
    r := data;
    var todo := exclude;
    while todo != {}
      invariant todo <= exclude
      invariant r == data - (exclude - todo)
      decreases todo
    {
      var item :| item in todo;
      if item in r {
        r := r - {item};
      }
      todo := todo - {item};
    }
    assert r == data - exclude;
    if nested != {} {
      r := ScrubFields(r, nested);
    }
  }

  // ---------------------------------------------------------------------------------
  // generate_numeric_otp
  // ---------------------------------------------------------------------------------

  function Pow10(n: nat): (r: nat)
    ensures r >= 1
  {
    if n == 0 then 1 else 10 * Pow10(n - 1)
  }

  /** `f"{code:0{n}d}"` for a code below 10^n: its n decimal digits, zero-padded. */
  function PadDigits(code: nat, n: nat): (r: string)
    ensures |r| == n && AllDigits(r)
  {
    if n == 0 then "" else PadDigits(code / 10, n - 1) + [DigitChar(code % 10)]
  }

  lemma {:induction false} PadDigitsValue(code: nat, n: nat)
    requires code < Pow10(n)
    ensures DecimalValue(PadDigits(code, n)) == code
  {
    if n > 0 {
      var r := PadDigits(code, n);
      assert code / 10 < Pow10(n - 1);
      PadDigitsValue(code / 10, n - 1);
      assert r[..|r| - 1] == PadDigits(code / 10, n - 1);
    }
  }

  /**
   * `generate_numeric_otp(n)`, with `draw` the value `secrets.randbelow(10**n)` returned.
   * ValueError for n <= 0; otherwise n digits that spell the drawn value.
   */
  function GenerateNumericOtp(n: int, draw: nat): (r: Result<string>)
    requires n > 0 ==> draw < Pow10(n)
    ensures r.Err? <==> n <= 0
    ensures r.Ok? ==> |r.value| == n && AllDigits(r.value) && DecimalValue(r.value) == draw
  {
    if n <= 0 then Err(Raised("ValueError"))
    else
      PadDigitsValue(draw, n);
      Ok(PadDigits(draw, n))
  }

  // ---------------------------------------------------------------------------------
  // update_user_bool_field
  // ---------------------------------------------------------------------------------

  /** The two boolean columns of an account the routes toggle. */
  datatype BoolField = BannedField | VerifiedField

  function FieldValue(a: Account, f: BoolField): bool
  {
    match f
    case BannedField => a.isBanned
    case VerifiedField => a.emailVerified
  }

  /** `setattr(user, field_name, value)`: the named column takes the value, every other column stays. */
  function WithField(a: Account, f: BoolField, v: bool): (r: Account)
    ensures FieldValue(r, f) == v
    ensures r.email == a.email && r.username == a.username && r.passwordHash == a.passwordHash && r.role == a.role
    ensures f == BannedField ==> r.emailVerified == a.emailVerified
    ensures f == VerifiedField ==> r.isBanned == a.isBanned
  {
    match f
    case BannedField => a.(isBanned := v)
    case VerifiedField => a.(emailVerified := v)
  }

  /**
   * `update_user_bool_field`: 404 for an unknown account, 403 when the target is an
   * administrator and the caller is not GOD, 409 (with the caller's message) when the
   * column already holds the value; otherwise the updated account.
   */
  function BoolFieldUpdate(accounts: map<int, Account>, caller: AuthorizedUser, userId: int, f: BoolField, v: bool,
                           errorMsg: string): (r: Result<Account>)
    ensures StatusOf(r) == 404 <==> userId !in accounts
    ensures StatusOf(r) == 403 <==> userId in accounts && IsAdminRole(accounts[userId].role) && caller.role != RoleGod
    ensures StatusOf(r) == 409 <==>
      (userId in accounts && (!IsAdminRole(accounts[userId].role) || caller.role == RoleGod) && FieldValue(accounts[userId], f) == v)
    ensures r.Err? ==> r.error.HttpError? && (r.error.status == 409 ==> r.error.detail == errorMsg)
    ensures r.Ok? ==> r.value == WithField(accounts[userId], f, v) && FieldValue(accounts[userId], f) != v
  {
    if userId !in accounts then Err(HttpError(404, "User not found"))
    else if IsAdminRole(accounts[userId].role) && caller.role != RoleGod then Err(HttpError(403, "Forbidden"))
    else if FieldValue(accounts[userId], f) == v then Err(HttpError(409, errorMsg))
    else Ok(WithField(accounts[userId], f, v))
  }

  /** A GOD caller may toggle anyone's column; a plain user only a plain user's. */
  lemma BoolFieldUpdatePermission(accounts: map<int, Account>, caller: AuthorizedUser, userId: int, f: BoolField, v: bool,
                                  errorMsg: string)
    requires userId in accounts && FieldValue(accounts[userId], f) != v
    ensures BoolFieldUpdate(accounts, caller, userId, f, v, errorMsg).Ok? <==>
      caller.role == RoleGod || !IsAdminRole(accounts[userId].role)
  {
  }

  /** Toggling twice with the opposite values restores the account. */
  lemma BoolFieldUpdateUndo(accounts: map<int, Account>, caller: AuthorizedUser, userId: int, f: BoolField, v: bool,
                            errorMsg: string)
    requires BoolFieldUpdate(accounts, caller, userId, f, v, errorMsg).Ok?
    ensures var a := BoolFieldUpdate(accounts, caller, userId, f, v, errorMsg).value;
      BoolFieldUpdate(accounts[userId := a], caller, userId, f, !v, errorMsg) == Ok(accounts[userId])
  {
  }

  method UpdateUserBoolField(db: Database, caller: AuthorizedUser, userId: int, f: BoolField, v: bool, errorMsg: string)
    returns (r: Result<Account>)
    modifies db`accounts
    ensures r == BoolFieldUpdate(old(db.accounts), caller, userId, f, v, errorMsg)
    ensures r.Ok? ==> db.accounts == old(db.accounts)[userId := r.value]
    ensures r.Err? ==> db.accounts == old(db.accounts)
  {
    if userId !in db.accounts {
      return Err(HttpError(404, "User not found"));
    }
    var user := db.accounts[userId];
    if (user.role == RoleAdmin || user.role == RoleGod) && caller.role != RoleGod {
      return Err(HttpError(403, "Forbidden"));
    }
    if FieldValue(user, f) == v {
      return Err(HttpError(409, errorMsg));
    }
    user := WithField(user, f, v);
    db.accounts := db.accounts[userId := user];
    r := Ok(user);
  }

  /** Some element of a non-empty set. */
  ghost function Elem<T>(s: set<T>): (x: T)
    requires s != {}
    ensures x in s
  {
    var x :| x in s; x
  }

  /** Picks some element of a non-empty set. */
  method Choose<T>(s: set<T>) returns (x: T)
    requires s != {}
    ensures x in s
  {
    x :| x in s;
  }

  /** A set of one element is that element alone. */
  lemma Singleton<T>(s: set<T>, x: T)
    requires |s| == 1 && x in s
    ensures s == {x}
  {
    assert |s - {x}| == 0;
  }

  /** `scalar_one_or_none` over the rows a query matches: none, the one row, or a raise for several. */
  ghost function OneOrNone<K>(found: set<K>): (r: Result<Option<K>>)
    ensures found == {} <==> r == Ok(None)
    ensures |found| > 1 <==> r == Err(Raised("MultipleResultsFound"))
    ensures r.Ok? && r.value.Some? ==> found == {r.value.value}
  {
    if found == {} then Ok(None)
    else if |found| > 1 then Err(Raised("MultipleResultsFound"))
    else
      var x := Elem(found);
      Singleton(found, x);
      Ok(Some(x))
  }

  method ScalarOneOrNone<K>(found: set<K>) returns (r: Result<Option<K>>)
    ensures r == OneOrNone(found)
  {
    if found == {} {
      return Ok(None);
    }
    if |found| > 1 {
      return Err(Raised("MultipleResultsFound"));
    }
    var x := Choose(found);
    Singleton(found, x);
    r := Ok(Some(x));
  }

  /** A subset is no larger than the set. */
  lemma {:induction false} SubsetSize<T>(a: set<T>, b: set<T>)
    requires a <= b
    ensures |a| <= |b|
  {
    if a != {} {
      var x :| x in a;
      SubsetSize(a - {x}, b - {x});
    }
  }
}
