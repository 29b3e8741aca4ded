/** Nested variables seen through their leaves, and building them up again from pairs of a
    reference and a value (vars/static_vars.go). */
module VarTrees {
  import opened Wrappers
  import opened Steps
  import opened References

  type Vars = map<string, Json>

  datatype KVPair = KVPair(ref: Reference, value: Json)

  // ---- trees, seen through their leaves ----

  /** Traverse: follow `path` through nested maps. */
  function At(j: Json, path: seq<string>): Option<Json> {
    if path == [] then Some(j)
    else if j.Obj? && path[0] in j.fields then At(j.fields[path[0]], path[1..])
    else None
  }

  ghost predicate LeafAt(j: Json, path: seq<string>, v: Json) {
    At(j, path) == Some(v) && !v.Obj?
  }

  /** No nested map is empty. */
  ghost predicate Full(j: Json) {
    j.Obj? ==> j.fields != map[] && forall k :: k in j.fields ==> Full(j.fields[k])
  }

  ghost predicate FullVars(m: Vars) {
    forall k :: k in m ==> Full(m[k])
  }

  lemma {:induction false} FullHasLeaf(j: Json) returns (path: seq<string>, v: Json)
    requires Full(j)
    ensures LeafAt(j, path, v)
  {
    if j.Obj? {
      var k :| k in j.fields;
      var p, w := FullHasLeaf(j.fields[k]);
      path, v := [k] + p, w;
      assert path[1..] == p;
    } else {
      path, v := [], j;
    }
  }

  ghost predicate SameLeaves(a: Json, b: Json) {
    forall p, v :: LeafAt(a, p, v) <==> LeafAt(b, p, v)
  }

  lemma LeafBelow(j: Json, k: string, p: seq<string>, v: Json)
    requires j.Obj? && k in j.fields
    ensures LeafAt(j, [k] + p, v) <==> LeafAt(j.fields[k], p, v)
  {
    assert ([k] + p)[1..] == p;
  }

  lemma SameLeavesKey(a: Vars, b: Vars, k: string)
    requires FullVars(a) && SameLeaves(Obj(a), Obj(b)) && k in a
    ensures k in b
  {
    var p, v := FullHasLeaf(a[k]);
    LeafBelow(Obj(a), k, p, v);
    assert LeafAt(Obj(b), [k] + p, v);
  }

  /** A tree without empty nested maps is determined by its leaves. */
  lemma {:induction false} LeavesDetermine(a: Json, b: Json)
    requires Full(a) && Full(b) && SameLeaves(a, b)
    ensures a == b
    decreases a, 1
  {
    if !a.Obj? {
      assert LeafAt(a, [], a);
    } else if !b.Obj? {
      assert LeafAt(b, [], b);
    } else {
      VarsDetermine(a.fields, b.fields);
    }
  }

  lemma {:induction false} VarsDetermine(a: Vars, b: Vars)
    requires FullVars(a) && FullVars(b) && SameLeaves(Obj(a), Obj(b))
    ensures a == b
    decreases Obj(a), 0
  {
    forall k
      ensures k in a <==> k in b
      ensures k in a && k in b ==> a[k] == b[k]
    {
      if k in a { SameLeavesKey(a, b, k); }
      if k in b { SameLeavesKey(b, a, k); }
      if k in a {
        forall p, v
          ensures LeafAt(a[k], p, v) <==> LeafAt(b[k], p, v)
        {
          LeafBelow(Obj(a), k, p, v);
          LeafBelow(Obj(b), k, p, v);
        }
        LeavesDetermine(Obj(a).fields[k], b[k]);
      }
    }
  }

  // ---- dropping empty nested maps ----

  predicate Vanishes(j: Json) {
    j.Obj? && forall k :: k in j.fields ==> Vanishes(j.fields[k])
  }

  function Prune(j: Json): Json {
    if j.Obj? then Obj(map k | k in j.fields && !Vanishes(j.fields[k]) :: Prune(j.fields[k])) else j
  }

  function PruneVars(m: Vars): Vars {
    map k | k in m && !Vanishes(m[k]) :: Prune(m[k])
  }

  lemma {:induction false} PruneFull(j: Json)
    requires !Vanishes(j)
    ensures Full(Prune(j))
  {
    if j.Obj? {
      var k :| k in j.fields && !Vanishes(j.fields[k]);
      assert k in Prune(j).fields;
      forall k | k in Prune(j).fields ensures Full(Prune(j).fields[k]) {
        PruneFull(j.fields[k]);
      }
    }
  }

  lemma {:induction false} VanishesHasNoLeaf(j: Json, p: seq<string>, v: Json)
    requires Vanishes(j)
    ensures !LeafAt(j, p, v)
    decreases p
  {
    if p != [] && p[0] in j.fields {
      VanishesHasNoLeaf(j.fields[p[0]], p[1..], v);
    }
  }

  lemma {:induction false} PruneKeepsLeaves(j: Json, p: seq<string>, v: Json)
    ensures LeafAt(Prune(j), p, v) <==> LeafAt(j, p, v)
    decreases p
  {
    if p != [] && j.Obj? && p[0] in j.fields {
      var sub := j.fields[p[0]];
      if Vanishes(sub) {
        VanishesHasNoLeaf(sub, p[1..], v);
      } else {
        PruneKeepsLeaves(sub, p[1..], v);
      }
    }
  }

  /** Pruning changes nothing exactly when there was nothing empty to drop. */
  lemma PruneIdentity(m: Vars)
    ensures PruneVars(m) == m <==> FullVars(m)
  {
    if FullVars(m) {
      forall k | k in m ensures !Vanishes(m[k]) && Prune(m[k]) == m[k] {
        FullStays(m[k]);
      }
    }
    if PruneVars(m) == m {
      forall k | k in m ensures Full(m[k]) {
        assert k in PruneVars(m);
        PruneFull(m[k]);
      }
    }
  }

  lemma {:induction false} FullStays(j: Json)
    requires Full(j)
    ensures !Vanishes(j) && Prune(j) == j
  {
    if j.Obj? {
      forall k | k in j.fields ensures !Vanishes(j.fields[k]) && Prune(j.fields[k]) == j.fields[k] {
        FullStays(j.fields[k]);
      }
      var k :| k in j.fields;
      assert Prune(j).fields == j.fields;
    }
  }

  // ---- Expand ----

  /** constructValue, which wraps from the last field outwards. */
  function ConstructValue(fields: seq<string>, value: Json): Json
    decreases |fields|
  {
    if fields == [] then value
    else ConstructValue(fields[..|fields| - 1], Obj(map[fields[|fields| - 1] := value]))
  }

  lemma {:induction false} ConstructFromFront(fields: seq<string>, value: Json)
    requires fields != []
    ensures ConstructValue(fields, value) == Obj(map[fields[0] := ConstructValue(fields[1..], value)])
    decreases |fields|
  {
    var n := |fields| - 1;
    if n > 0 {
      var inner := Obj(map[fields[n] := value]);
      ConstructFromFront(fields[..n], inner);
      assert fields[..n][1..] == fields[1..][..n - 1] && fields[1..][n - 1] == fields[n];
    } else {
      assert fields[..0] == [] && fields[1..] == [];
    }
  }

  lemma {:induction false} ConstructLeaf(fields: seq<string>, value: Json, p: seq<string>, v: Json)
    requires !value.Obj?
    ensures Full(ConstructValue(fields, value))
    ensures LeafAt(ConstructValue(fields, value), p, v) <==> p == fields && v == value
    decreases |fields|
  {
    if fields != [] {
      ConstructFromFront(fields, value);
      ConstructLeaf(fields[1..], value, if p == [] then [] else p[1..], v);
      assert fields[0] in ConstructValue(fields, value).fields;
      if p != [] && p[0] == fields[0] {
        assert p == [p[0]] + p[1..] && fields == [fields[0]] + fields[1..];
      }
    }
  }

  /** upsert, on the map it updates in place. */
  function Upsert(out: Vars, path: string, fields: seq<string>, value: Json): Vars
    decreases |fields|
  {
    if path !in out || !out[path].Obj? then out[path := ConstructValue(fields, value)]
    else if fields == [] then out[path := value]
    else out[path := Obj(Upsert(out[path].fields, fields[0], fields[1..], value))]
  }

  function Expand(pairs: seq<KVPair>): Vars {
    if pairs == [] then map[]
    else
      var kv := pairs[|pairs| - 1];
      Upsert(Expand(pairs[..|pairs| - 1]), kv.ref.path, kv.ref.fields, kv.value)
  }

  /** No leaf of the tree lies on the way to `p`, nor `p` on the way to a leaf. */
  ghost predicate Apart(j: Json, p: seq<string>) {
    forall q, v :: LeafAt(j, q, v) ==> !(q <= p) && !(p <= q)
  }

  lemma ApartBelow(j: Json, p: seq<string>)
    requires j.Obj? && Apart(j, p) && p != [] && p[0] in j.fields
    ensures Apart(j.fields[p[0]], p[1..])
  {
    forall q, v | LeafAt(j.fields[p[0]], q, v)
      ensures !(q <= p[1..]) && !(p[1..] <= q)
    {
      LeafBelow(j, p[0], q, v);
      assert p == [p[0]] + p[1..];
      assert !([p[0]] + q <= p) && !(p <= [p[0]] + q);
    }
  }

  /** Adding a leaf apart from all others adds that leaf and nothing else. */
  lemma {:induction false} UpsertAddsLeaf(out: Vars, path: string, fields: seq<string>, value: Json)
    requires FullVars(out) && !value.Obj? && Apart(Obj(out), [path] + fields)
    ensures FullVars(Upsert(out, path, fields, value))
    ensures forall q, v :: LeafAt(Obj(Upsert(out, path, fields, value)), q, v) <==>
                             LeafAt(Obj(out), q, v) || (q == [path] + fields && v == value)
    decreases |fields|
  {
    var p := [path] + fields;
    assert p[0] == path && p[1..] == fields;
    if path in out {
      NotBlocked(out, p);
      ApartBelow(Obj(out), p);
      assert fields == [fields[0]] + fields[1..];
      UpsertAddsLeaf(out[path].fields, fields[0], fields[1..], value);
      UpsertFull(out[path].fields, fields[0], fields[1..], value);
    } else {
      ConstructLeaf(fields, value, [], value);
    }
    forall q, v
      ensures LeafAt(Obj(Upsert(out, path, fields, value)), q, v) <==>
              LeafAt(Obj(out), q, v) || (q == p && v == value)
    {
      if q != [] && q[0] == path {
        assert q == [path] + q[1..];
        if path !in out {
          ConstructLeaf(fields, value, q[1..], v);
        } else {
          var sub, sub' := out[path].fields, Upsert(out[path].fields, fields[0], fields[1..], value);
          assert Upsert(out, path, fields, value)[path] == Obj(sub');
          assert LeafAt(Obj(sub'), q[1..], v) <==> LeafAt(Obj(sub), q[1..], v) || (q[1..] == fields && v == value);
          assert out[path] == Obj(sub);
        }
      }
    }
  }

  lemma NotBlocked(out: Vars, p: seq<string>)
    requires FullVars(out) && p != [] && p[0] in out && Apart(Obj(out), p)
    ensures out[p[0]].Obj? && p[1..] != []
  {
    var sub := out[p[0]];
    var q, v := FullHasLeaf(sub);
    LeafBelow(Obj(out), p[0], q, v);
    assert !(p <= [p[0]] + q) && !([p[0]] + q <= p);
  }

  lemma UpsertFull(out: Vars, path: string, fields: seq<string>, value: Json)
    ensures Upsert(out, path, fields, value) != map[]
  {
    assert path in Upsert(out, path, fields, value);
  }

  // ---- enumerating the leaves ----

  /** `kv` is one of the pairs Flatten lists for `m`. */
  ghost predicate IsPairOf(m: Vars, kv: KVPair) {
    kv.ref.source == "" && LeafAt(Obj(m), kv.ref.Segments(), kv.value)
  }

  /** `pairs` lists every leaf once, in some order. */
  ghost predicate Enumerates(pairs: seq<KVPair>, m: Vars) {
    Distinct(pairs) && forall kv :: kv in pairs <==> IsPairOf(m, kv)
  }

  /** One leaf is never on the way to another. */
  lemma {:induction false} LeavesApart(j: Json, p: seq<string>, v: Json, q: seq<string>, w: Json)
    requires LeafAt(j, p, v) && LeafAt(j, q, w) && p <= q
    ensures p == q && v == w
    decreases p
  {
    if p != [] {
      LeavesApart(j.fields[p[0]], p[1..], v, q[1..], w);
      assert p == [p[0]] + p[1..] && q == [q[0]] + q[1..];
    }
  }

  lemma SegmentsInjective(a: Reference, b: Reference)
    requires a.source == b.source && a.Segments() == b.Segments()
    ensures a == b
  {
    assert a.path == a.Segments()[0] == b.path;
    assert a.fields == a.Segments()[1..] == b.Segments()[1..] == b.fields;
  }

  /** Expanding the first `n` of the listed pairs gives exactly their leaves. */
  lemma {:induction false} ExpandLeaves(m: Vars, pairs: seq<KVPair>, n: nat)
    requires Enumerates(pairs, m) && n <= |pairs|
    ensures FullVars(Expand(pairs[..n]))
    ensures forall q, v :: LeafAt(Obj(Expand(pairs[..n])), q, v) <==>
              exists i :: 0 <= i < n && pairs[i].ref.Segments() == q && pairs[i].value == v
  {
    var out := Expand(pairs[..n]);
    if n == 0 {
      forall q, v ensures !LeafAt(Obj(out), q, v) { }
    } else {
      var before, kv := Expand(pairs[..n - 1]), pairs[n - 1];
      assert pairs[..n][..n - 1] == pairs[..n - 1];
      ExpandLeaves(m, pairs, n - 1);
      var p := kv.ref.Segments();
      assert IsPairOf(m, kv);
      forall q, v | LeafAt(Obj(before), q, v)
        ensures !(q <= p) && !(p <= q)
      {
        var i :| 0 <= i < n - 1 && pairs[i].ref.Segments() == q && pairs[i].value == v;
        assert IsPairOf(m, pairs[i]) && pairs[i] != kv;
        if q <= p { LeavesApart(Obj(m), q, v, p, kv.value); }
        if p <= q { LeavesApart(Obj(m), p, kv.value, q, v); }
        if p == q { SegmentsInjective(pairs[i].ref, kv.ref); }
      }
      UpsertAddsLeaf(before, kv.ref.path, kv.ref.fields, kv.value);
    }
  }

  /** Whatever order the pairs come in, expanding them rebuilds the tree, less its
      empty nested maps. */
  lemma ExpandUndoesFlatten(m: Vars, pairs: seq<KVPair>)
    requires Enumerates(pairs, m)
    ensures Expand(pairs) == PruneVars(m)
  {
    assert pairs[..|pairs|] == pairs;
    ExpandLeaves(m, pairs, |pairs|);
    forall k | k in PruneVars(m) ensures Full(PruneVars(m)[k]) { PruneFull(m[k]); }
    assert Prune(Obj(m)) == Obj(PruneVars(m));
    forall q, v
      ensures LeafAt(Obj(Expand(pairs)), q, v) <==> LeafAt(Obj(PruneVars(m)), q, v)
    {
      PruneKeepsLeaves(Obj(m), q, v);
      if LeafAt(Obj(m), q, v) {
        assert q != [];
        var kv := KVPair(Reference("", q[0], q[1..]), v);
        assert kv.ref.Segments() == q;
        assert IsPairOf(m, kv);
        var i :| 0 <= i < |pairs| && pairs[i] == kv;
      }
      if i :| 0 <= i < |pairs| && pairs[i].ref.Segments() == q && pairs[i].value == v {
        assert IsPairOf(m, pairs[i]);
      }
    }
    VarsDetermine(Expand(pairs), PruneVars(m));
  }

  /** Every leaf of what is built comes from a pair. */
  lemma {:induction false} ExpandOnly(pairs: seq<KVPair>, q: seq<string>, v: Json)
    requires (forall kv :: kv in pairs ==> !kv.value.Obj?) && LeafAt(Obj(Expand(pairs)), q, v)
    ensures exists kv :: kv in pairs && kv.ref.Segments() == q && kv.value == v
  {
    if pairs != [] {
      var kv := pairs[|pairs| - 1];
      UpsertExactly(Expand(pairs[..|pairs| - 1]), kv.ref.path, kv.ref.fields, kv.value, q, v);
      if LeafAt(Obj(Expand(pairs[..|pairs| - 1])), q, v) { ExpandOnly(pairs[..|pairs| - 1], q, v); }
    }
  }

  // ---- pairs below a prefix, and Expand as the source runs it ----

  /** The pairs of the leaves of `j`, each behind `prefix`. */
  ghost predicate IsPairUnder(prefix: seq<string>, j: Json, kv: KVPair) {
    && kv.ref.source == "" && prefix <= kv.ref.Segments()
    && LeafAt(j, kv.ref.Segments()[|prefix|..], kv.value)
  }

  ghost predicate EnumeratesUnder(pairs: seq<KVPair>, prefix: seq<string>, j: Json) {
    Distinct(pairs) && forall kv :: kv in pairs <==> IsPairUnder(prefix, j, kv)
  }

  lemma DistinctConcat(a: seq<KVPair>, b: seq<KVPair>)
    requires Distinct(a) && Distinct(b) && forall x :: x in a ==> x !in b
    ensures Distinct(a + b)
  {
    forall i, j | 0 <= i < j < |a + b| ensures (a + b)[i] != (a + b)[j] {
      if i < |a| <= j { assert a[i] in a && b[j - |a|] in b; }
    }
  }

  /** A pair lies under a map exactly when it lies under one of the map's keys. */
  lemma PairUnderKey(prefix: seq<string>, m: Vars, k: string, kv: KVPair)
    requires k in m
    ensures IsPairUnder(prefix + [k], m[k], kv) <==>
            IsPairUnder(prefix, Obj(m), kv) && |prefix| < |kv.ref.Segments()| && kv.ref.Segments()[|prefix|] == k
  {
    var segs, n := kv.ref.Segments(), |prefix|;
    if n < |segs| {
      assert segs[n..][1..] == segs[n + 1..];
      if prefix <= segs && segs[n] == k { assert prefix + [k] == segs[..n + 1]; }
      if prefix + [k] <= segs { assert segs[..n] == prefix && segs[n] == k; }
    }
  }

  method ExpandPairs(pairs: seq<KVPair>) returns (out: Vars)
    ensures out == Expand(pairs)
  {
    out := map[];
    for i := 0 to |pairs|
      invariant out == Expand(pairs[..i])
    {
      assert pairs[..i + 1][..i] == pairs[..i];
      out := Upsert(out, pairs[i].ref.path, pairs[i].ref.fields, pairs[i].value);
    }
    assert pairs[..|pairs|] == pairs;
  }

  // ---- upserts onto anything ----

  ghost predicate Apartness(p: seq<string>, q: seq<string>) { !(p <= q) && !(q <= p) }

  lemma ApartTails(p: seq<string>, q: seq<string>)
    requires p != [] && q != [] && p[0] == q[0]
    ensures Apartness(p, q) <==> Apartness(p[1..], q[1..])
    ensures p == q <==> p[1..] == q[1..]
  {
    assert p == [p[0]] + p[1..] && q == [q[0]] + q[1..];
  }

  /** Below its first field, an upsert is an upsert into the map there, or sets a fresh value. */
  lemma UpsertBelow(out: Vars, path: string, fields: seq<string>, value: Json, q: seq<string>, v: Json)
    requires q != [] && q[0] == path
    ensures LeafAt(Obj(Upsert(out, path, fields, value)), q, v) <==>
            LeafAt(if path !in out || !out[path].Obj? then ConstructValue(fields, value)
                   else if fields == [] then value
                   else Obj(Upsert(out[path].fields, fields[0], fields[1..], value)), q[1..], v)
    ensures LeafAt(Obj(out), q, v) <==> path in out && LeafAt(out[path], q[1..], v)
  {
  }

  lemma LeafOnly(value: Json, q: seq<string>, v: Json)
    requires !value.Obj?
    ensures LeafAt(value, q, v) <==> q == [] && v == value
  {
  }

  /** Whatever is there, an upsert sets its own leaf, drops the leaves on the way to it and
      below it, and keeps all others. */
  lemma {:induction false} UpsertExactly(out: Vars, path: string, fields: seq<string>, value: Json, q: seq<string>, v: Json)
    requires !value.Obj?
    ensures LeafAt(Obj(Upsert(out, path, fields, value)), q, v) <==>
            || (q == [path] + fields && v == value)
            || (LeafAt(Obj(out), q, v) && Apartness([path] + fields, q))
    decreases |fields|
  {
    var p := [path] + fields;
    assert p[0] == path && p[1..] == fields;
    if q != [] && q[0] == path {
      ApartTails(p, q);
      UpsertBelow(out, path, fields, value, q, v);
      if path !in out || !out[path].Obj? {
        ConstructLeaf(fields, value, q[1..], v);
        if path in out { LeafOnly(out[path], q[1..], v); }
      } else if fields == [] {
        LeafOnly(value, q[1..], v);
      } else {
        assert fields == [fields[0]] + fields[1..];
        UpsertExactly(out[path].fields, fields[0], fields[1..], value, q[1..], v);
      }
    } else {
      UpsertElsewhere(out, path, fields, value, q, v);
    }
  }

  lemma UpsertElsewhere(out: Vars, path: string, fields: seq<string>, value: Json, q: seq<string>, v: Json)
    requires q == [] || q[0] != path
    ensures LeafAt(Obj(Upsert(out, path, fields, value)), q, v) <==> LeafAt(Obj(out), q, v)
    ensures q != [] ==> Apartness([path] + fields, q)
  {
    if q != [] { assert ([path] + fields)[0] == path; }
  }
}
