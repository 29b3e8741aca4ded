/** Flattening nested variables into pairs of a reference and a value, with the slices of
    field names as they are: lengths over shared backing arrays (vars/static_vars.go).

    Appending to a slice with room to spare writes into the array it shares with others.
    Which references come out right is stated by `Spaced`. */
module Flattening {
  import opened Wrappers
  import opened Steps
  import opened References
  import opened VarTrees

  // ---- slices ----

  /** The backing arrays, by number; the length of each is its capacity. */
  type Memory = seq<seq<string>>

  datatype Slice = NilSlice | Slice(base: nat, len: nat)

  /** The capacity of the array that appending to a full slice of `n` elements allocates. */
  type Growth = nat -> nat

  ghost predicate Grows(g: Growth) {
    forall n :: g(n) > n
  }

  /** The capacity behind `n` elements appended one by one to nil. */
  function Cap(g: Growth, n: nat): nat {
    if n == 0 then 0
    else if n - 1 < Cap(g, n - 1) then Cap(g, n - 1)
    else g(n - 1)
  }

  lemma {:induction false} CapCovers(g: Growth, n: nat)
    requires Grows(g)
    ensures Cap(g, n) >= n
  {
    if n > 0 { CapCovers(g, n - 1); }
  }

  /** The capacity stays the same up to itself. */
  lemma {:induction false} CapSteady(g: Growth, n: nat, m: nat)
    requires Grows(g) && n <= m && m <= Cap(g, n)
    ensures n > 0 ==> Cap(g, m) == Cap(g, n)
  {
    if n < m {
      CapSteady(g, n, m - 1);
    }
  }

  function Len(s: Slice): nat { if s.NilSlice? then 0 else s.len }

  predicate InMemory(mem: Memory, s: Slice) {
    s.Slice? ==> s.base < |mem| && s.len <= |mem[s.base]|
  }

  function Content(mem: Memory, s: Slice): seq<string>
    requires InMemory(mem, s)
  {
    if s.NilSlice? then [] else mem[s.base][..s.len]
  }

  /** append(s, k).  The rest of a new array is not read before it is written. */
  function Append(g: Growth, mem: Memory, s: Slice, k: string): (r: (Memory, Slice))
    requires InMemory(mem, s)
  {
    if s.Slice? && s.len < |mem[s.base]| then
      (mem[s.base := mem[s.base][s.len := k]], Slice(s.base, s.len + 1))
    else
      var held := Content(mem, s);
      var size := if g(|held|) > |held| then g(|held|) else |held| + 1;
      (mem + [seq(size, i requires 0 <= i < size => if i < |held| then held[i] else k)], Slice(|mem|, |held| + 1))
  }

  /** What a computation on `s` may do to memory: add arrays, and write behind `s`. */
  ghost predicate Frame(mem: Memory, after: Memory, s: Slice) {
    && |mem| <= |after|
    && (forall a :: 0 <= a < |mem| ==> |after[a]| == |mem[a]|)
    && (forall a :: 0 <= a < |mem| && !(s.Slice? && a == s.base) ==> after[a] == mem[a])
    && (s.Slice? && s.base < |mem| ==> forall i :: 0 <= i < s.len && i < |mem[s.base]| ==> after[s.base][i] == mem[s.base][i])
  }

  lemma AppendFrame(g: Growth, mem: Memory, s: Slice, k: string)
    requires InMemory(mem, s)
    ensures var (after, t) := Append(g, mem, s, k);
            Frame(mem, after, s) && InMemory(after, t) && Content(after, t) == Content(mem, s) + [k] && t.Slice? && t.len == Len(s) + 1
  {
  }

  lemma FrameTrans(mem: Memory, mid: Memory, after: Memory, s: Slice, t: Slice)
    requires Frame(mem, mid, s) && Frame(mid, after, t)
    requires t.Slice? && (t.base >= |mem| || (s.Slice? && t.base == s.base && t.len >= s.len))
    ensures Frame(mem, after, s)
  {
  }

  // ---- flatten ----

  /** A pair whose reference still shares its fields. */
  datatype RawPair = RawPair(path: string, fields: Slice, value: Json)

  /** The order in which the keys of the map at a path are taken. */
  type Order = (seq<string>, set<string>) -> seq<string>

  ghost predicate Lists(order: Order) {
    forall p, keys :: Distinct(order(p, keys)) && forall k :: k in order(p, keys) <==> k in keys
  }

  datatype Flat = Flat(mem: Memory, pairs: seq<RawPair>)

  /** flatten */
  function FlatValue(g: Growth, order: Order, mem: Memory, path: string, s: Slice, value: Json): (r: Flat)
    requires InMemory(mem, s)
    ensures Frame(mem, r.mem, s)
    decreases value, 1
  {
    if value.Obj? then FlatKeys(g, order, mem, path, s, value, order([path] + Content(mem, s), value.fields.Keys))
    else Flat(mem, [RawPair(path, s, value)])
  }

  /** The loop over the keys of a map, as far as `keys`. */
  function FlatKeys(g: Growth, order: Order, mem: Memory, path: string, s: Slice, value: Json, keys: seq<string>): (r: Flat)
    requires InMemory(mem, s) && value.Obj?
    ensures Frame(mem, r.mem, s)
    decreases value, 0, |keys|
  {
    if keys == [] then Flat(mem, [])
    else
      var before := FlatKeys(g, order, mem, path, s, value, keys[..|keys| - 1]);
      var k := keys[|keys| - 1];
      if k !in value.fields then before
      else
        AppendFrame(g, before.mem, s, k);
        var (mid, t) := Append(g, before.mem, s, k);
        var sub := FlatValue(g, order, mid, path, t, value.fields[k]);
        FrameTrans(before.mem, mid, sub.mem, s, t);
        FrameThen(mem, before.mem, sub.mem, s);
        Flat(sub.mem, before.pairs + sub.pairs)
  }

  lemma FrameThen(mem: Memory, mid: Memory, after: Memory, s: Slice)
    requires InMemory(mem, s) && Frame(mem, mid, s) && Frame(mid, after, s)
    ensures Frame(mem, after, s)
  {
  }

  /** The loop over the variables. */
  function FlatVars(g: Growth, order: Order, m: Vars, keys: seq<string>): Flat {
    if keys == [] then Flat([], [])
    else
      var before := FlatVars(g, order, m, keys[..|keys| - 1]);
      var k := keys[|keys| - 1];
      if k !in m then before
      else
        var sub := FlatValue(g, order, before.mem, k, NilSlice, m[k]);
        Flat(sub.mem, before.pairs + sub.pairs)
  }

  /** The pair as it reads when everything has been written. */
  function Read(mem: Memory, x: RawPair): KVPair
    requires InMemory(mem, x.fields)
  {
    KVPair(Reference("", x.path, Content(mem, x.fields)), x.value)
  }

  // ---- where the references of a call lie ----

  /** A slice made by appending one by one: its array has the capacity of its length. */
  ghost predicate Held(g: Growth, mem: Memory, s: Slice) {
    InMemory(mem, s) && (s.Slice? ==> s.len > 0 && |mem[s.base]| == Cap(g, s.len))
  }

  predicate Shares(s: Slice, f: Slice) {
    f == s || (s.Slice? && f.Slice? && f.base == s.base)
  }

  /** The reference of a pair made in a call on `s`: behind `s` in its array, or in an
      array allocated since; either way it starts as `s` does. */
  ghost predicate Placed(mem: Memory, after: Memory, s: Slice, path: string, x: RawPair)
    requires InMemory(mem, s)
  {
    && x.path == path && InMemory(after, x.fields) && Content(mem, s) <= Content(after, x.fields)
    && (Shares(s, x.fields) || (x.fields.Slice? && x.fields.base >= |mem|))
  }

  lemma AppendHeld(g: Growth, mem: Memory, s: Slice, k: string)
    requires Grows(g) && Held(g, mem, s)
    ensures var (after, t) := Append(g, mem, s, k);
            && Held(g, after, t) && t.Slice? && t.len == Len(s) + 1
            && (if Len(s) < Cap(g, Len(s)) then s.Slice? && t.base == s.base && |after| == |mem|
                else t.base == |mem| && after[..|mem|] == mem)
  {
    CapCovers(g, Len(s));
  }

  lemma FrameKeepsHeld(g: Growth, mem: Memory, after: Memory, s: Slice)
    requires Held(g, mem, s) && Frame(mem, after, s)
    ensures Held(g, after, s) && Content(after, s) == Content(mem, s)
  {
  }

  lemma PlacedLater(mem: Memory, mid: Memory, after: Memory, s: Slice, path: string, x: RawPair)
    requires InMemory(mem, s) && Frame(mem, mid, s) && Placed(mem, mid, s, path, x) && Frame(mid, after, s)
    ensures Placed(mem, after, s, path, x)
  {
  }

  /** A pair of a nested call, seen from outside. */
  lemma PlacedUp(g: Growth, mem: Memory, before: Memory, after: Memory, s: Slice, k: string, path: string, x: RawPair)
    requires InMemory(mem, s) && Frame(mem, before, s) && InMemory(before, s)
    requires var (mid, t) := Append(g, before, s, k); InMemory(mid, t) && Placed(mid, after, t, path, x)
    ensures Placed(mem, after, s, path, x)
  {
    var (mid, t) := Append(g, before, s, k);
    AppendFrame(g, before, s, k);
    assert Content(mem, s) == Content(before, s);
    assert Content(mem, s) <= Content(mid, t);
  }

  lemma {:induction false} FlatPlaced(g: Growth, order: Order, mem: Memory, path: string, s: Slice, value: Json, x: RawPair)
    requires InMemory(mem, s) && x in FlatValue(g, order, mem, path, s, value).pairs
    ensures Placed(mem, FlatValue(g, order, mem, path, s, value).mem, s, path, x)
    decreases value, 1
  {
    if value.Obj? {
      FlatKeysPlaced(g, order, mem, path, s, value, order([path] + Content(mem, s), value.fields.Keys), x);
    }
  }

  lemma {:induction false} FlatKeysPlaced(g: Growth, order: Order, mem: Memory, path: string, s: Slice, value: Json,
                                          keys: seq<string>, x: RawPair)
    requires InMemory(mem, s) && value.Obj? && x in FlatKeys(g, order, mem, path, s, value, keys).pairs
    ensures Placed(mem, FlatKeys(g, order, mem, path, s, value, keys).mem, s, path, x)
    decreases value, 0, |keys|
  {
    var before := FlatKeys(g, order, mem, path, s, value, keys[..|keys| - 1]);
    var k := keys[|keys| - 1];
    if x in before.pairs { FlatKeysPlaced(g, order, mem, path, s, value, keys[..|keys| - 1], x); }
    if k in value.fields {
      AppendFrame(g, before.mem, s, k);
      var (mid, t) := Append(g, before.mem, s, k);
      var sub := FlatValue(g, order, mid, path, t, value.fields[k]);
      FrameTrans(before.mem, mid, sub.mem, s, t);
      if x in before.pairs {
        PlacedLater(mem, before.mem, sub.mem, s, path, x);
      } else {
        FlatPlaced(g, order, mid, path, t, value.fields[k], x);
        PlacedUp(g, mem, before.mem, sub.mem, s, k, path, x);
      }
    }
  }

  // ---- references that share an array belong to leaves near by ----

  /** There is a leaf exactly `d` fields down. */
  ghost predicate LeafDown(j: Json, d: int) {
    exists p, v :: LeafAt(j, p, v) && |p| == d
  }

  lemma LeafDownUp(j: Json, k: string, d: int)
    requires j.Obj? && k in j.fields && LeafDown(j.fields[k], d)
    ensures LeafDown(j, d + 1)
  {
    var p, v :| LeafAt(j.fields[k], p, v) && |p| == d;
    LeafBelow(j, k, p, v);
    assert |[k] + p| == d + 1;
  }

  lemma {:induction false} FlatShared(g: Growth, order: Order, mem: Memory, path: string, s: Slice, value: Json, x: RawPair)
    requires Grows(g) && Held(g, mem, s) && x in FlatValue(g, order, mem, path, s, value).pairs && Shares(s, x.fields)
    ensures LeafDown(value, Len(x.fields) - Len(s))
    decreases value, 1
  {
    if value.Obj? {
      FlatKeysShared(g, order, mem, path, s, value, order([path] + Content(mem, s), value.fields.Keys), x);
    } else {
      var here: seq<string> := [];
      assert LeafAt(value, here, value) && |here| == 0;
    }
  }

  lemma {:induction false} FlatKeysShared(g: Growth, order: Order, mem: Memory, path: string, s: Slice, value: Json,
                                          keys: seq<string>, x: RawPair)
    requires Grows(g) && Held(g, mem, s) && value.Obj?
    requires x in FlatKeys(g, order, mem, path, s, value, keys).pairs && Shares(s, x.fields)
    ensures LeafDown(value, Len(x.fields) - Len(s))
    ensures exists k :: k in keys && k in value.fields
    decreases value, 0, |keys|
  {
    var before := FlatKeys(g, order, mem, path, s, value, keys[..|keys| - 1]);
    var k := keys[|keys| - 1];
    if x in before.pairs {
      FlatKeysShared(g, order, mem, path, s, value, keys[..|keys| - 1], x);
    } else {
      FrameKeepsHeld(g, mem, before.mem, s);
      AppendFrame(g, before.mem, s, k);
      AppendHeld(g, before.mem, s, k);
      var (mid, t) := Append(g, before.mem, s, k);
      FlatPlaced(g, order, mid, path, t, value.fields[k], x);
      FlatShared(g, order, mid, path, t, value.fields[k], x);
      LeafDownUp(value, k, Len(x.fields) - Len(t));
    }
  }

  // ---- when the references come out right ----

  /** A map reached by `n` fields whose array has room, with two keys and a leaf within
      that array's capacity: a later key overwrites a field of that leaf's reference. */
  ghost predicate Crowded(g: Growth, j: Json, n: nat) {
    && j.Obj? && n < Cap(g, n)
    && (exists a, b :: a in j.fields && b in j.fields && a != b)
    && (exists d :: d <= Cap(g, n) - n && LeafDown(j, d))
  }

  /** No map in the tree is crowded. */
  ghost predicate Spaced(g: Growth, j: Json, n: nat)
    decreases j
  {
    !Crowded(g, j, n) && (j.Obj? ==> forall k :: k in j.fields ==> Spaced(g, j.fields[k], n + 1))
  }

  ghost predicate SpacedVars(g: Growth, m: Vars) {
    forall k :: k in m ==> Spaced(g, m[k], 0)
  }

  ghost predicate AllIn(mem: Memory, xs: seq<RawPair>) {
    forall x :: x in xs ==> InMemory(mem, x.fields)
  }

  function ReadAll(mem: Memory, xs: seq<RawPair>): seq<KVPair>
    requires AllIn(mem, xs)
  {
    seq(|xs|, i requires 0 <= i < |xs| => assert xs[i] in xs; Read(mem, xs[i]))
  }

  lemma FlatAllIn(g: Growth, order: Order, mem: Memory, path: string, s: Slice, value: Json)
    requires InMemory(mem, s)
    ensures var r := FlatValue(g, order, mem, path, s, value); AllIn(r.mem, r.pairs)
  {
    var r := FlatValue(g, order, mem, path, s, value);
    forall x | x in r.pairs ensures InMemory(r.mem, x.fields) { FlatPlaced(g, order, mem, path, s, value, x); }
  }

  lemma SharingIsCrowded(g: Growth, order: Order, mem: Memory, path: string, s: Slice, value: Json, keys: seq<string>,
                         k: string, x: RawPair)
    requires Grows(g) && Held(g, mem, s) && value.Obj? && Len(s) < Cap(g, Len(s)) && k in value.fields && k !in keys
    requires x in FlatKeys(g, order, mem, path, s, value, keys).pairs && Shares(s, x.fields)
    ensures Crowded(g, value, Len(s))
  {
    FlatKeysShared(g, order, mem, path, s, value, keys, x);
    FlatKeysPlaced(g, order, mem, path, s, value, keys, x);
    var a :| a in keys && a in value.fields;
    assert a != k;
    assert Len(x.fields) <= Cap(g, Len(s));
  }

  /** The pairs read so far stay as they are through the next key of a map that is not
      crowded: they lie in other arrays, or the next key gets one of its own. */
  lemma NextKeyKeeps(g: Growth, order: Order, mem: Memory, path: string, s: Slice, value: Json, keys: seq<string>,
                     after: Memory, x: RawPair)
    requires Grows(g) && Held(g, mem, s) && value.Obj? && !Crowded(g, value, Len(s))
    requires keys != [] && Distinct(keys) && keys[|keys| - 1] in value.fields
    requires var before := FlatKeys(g, order, mem, path, s, value, keys[..|keys| - 1]);
             var (mid, t) := Append(g, before.mem, s, keys[|keys| - 1]);
             x in before.pairs && Frame(mid, after, t)
    ensures var before := FlatKeys(g, order, mem, path, s, value, keys[..|keys| - 1]);
            InMemory(before.mem, x.fields) && InMemory(after, x.fields) && Read(after, x) == Read(before.mem, x)
  {
    var front, k, n := keys[..|keys| - 1], keys[|keys| - 1], Len(s);
    var before := FlatKeys(g, order, mem, path, s, value, front);
    var (mid, t) := Append(g, before.mem, s, k);
    FlatKeysPlaced(g, order, mem, path, s, value, front, x);
    FrameKeepsHeld(g, mem, before.mem, s);
    AppendHeld(g, before.mem, s, k);
    CapCovers(g, n);
    assert k !in front;
    if n < Cap(g, n) && Shares(s, x.fields) { SharingIsCrowded(g, order, mem, path, s, value, front, k, x); }
  }

  lemma NextKeyReads(g: Growth, order: Order, mem: Memory, path: string, s: Slice, value: Json, keys: seq<string>, after: Memory)
    requires Grows(g) && Held(g, mem, s) && value.Obj? && !Crowded(g, value, Len(s))
    requires keys != [] && Distinct(keys) && keys[|keys| - 1] in value.fields
    requires var before := FlatKeys(g, order, mem, path, s, value, keys[..|keys| - 1]);
             var (mid, t) := Append(g, before.mem, s, keys[|keys| - 1]);
             Frame(mid, after, t)
    ensures var before := FlatKeys(g, order, mem, path, s, value, keys[..|keys| - 1]);
            && AllIn(before.mem, before.pairs) && AllIn(after, before.pairs)
            && forall x :: x in before.pairs ==> Read(after, x) == Read(before.mem, x)
  {
    var before := FlatKeys(g, order, mem, path, s, value, keys[..|keys| - 1]);
    forall x | x in before.pairs
      ensures InMemory(after, x.fields) && InMemory(before.mem, x.fields) && Read(after, x) == Read(before.mem, x)
    {
      NextKeyKeeps(g, order, mem, path, s, value, keys, after, x);
    }
  }

  /** The pairs read are those below the given keys, each once. */
  ghost predicate EnumeratesKeys(pairs: seq<KVPair>, prefix: seq<string>, j: Json, keys: seq<string>) {
    && Distinct(pairs)
    && forall kv :: kv in pairs <==>
         IsPairUnder(prefix, j, kv) && |prefix| < |kv.ref.Segments()| && kv.ref.Segments()[|prefix|] in keys
  }

  lemma EnumeratesMore(a: seq<KVPair>, b: seq<KVPair>, prefix: seq<string>, j: Json, keys: seq<string>, k: string)
    requires j.Obj? && k in j.fields && k !in keys
    requires EnumeratesKeys(a, prefix, j, keys) && EnumeratesUnder(b, prefix + [k], j.fields[k])
    ensures EnumeratesKeys(a + b, prefix, j, keys + [k])
  {
    forall kv { PairUnderKey(prefix, j.fields, k, kv); }
    DistinctConcat(a, b);
  }

  lemma EnumeratesAll(pairs: seq<KVPair>, prefix: seq<string>, j: Json, keys: seq<string>)
    requires j.Obj? && EnumeratesKeys(pairs, prefix, j, keys) && forall k :: k in keys <==> k in j.fields
    ensures EnumeratesUnder(pairs, prefix, j)
  {
    forall kv | IsPairUnder(prefix, j, kv)
      ensures |prefix| < |kv.ref.Segments()| && kv.ref.Segments()[|prefix|] in keys
    {
      var rest := kv.ref.Segments()[|prefix|..];
      assert rest != [] && rest[0] == kv.ref.Segments()[|prefix|];
    }
  }

  lemma LeafEnumerates(path: string, fields: seq<string>, value: Json)
    requires !value.Obj?
    ensures EnumeratesUnder([KVPair(Reference("", path, fields), value)], [path] + fields, value)
  {
    var prefix, ref := [path] + fields, Reference("", path, fields);
    forall kv
      ensures kv in [KVPair(ref, value)] <==> IsPairUnder(prefix, value, kv)
    {
      assert ref.Segments()[|prefix|..] == [];
      if IsPairUnder(prefix, value, kv) {
        assert kv.ref.Segments() == prefix + kv.ref.Segments()[|prefix|..];
        assert kv.ref.Segments() == prefix + [];
        SegmentsInjective(kv.ref, ref);
      }
    }
  }

  lemma ReadAllConcat(mem: Memory, a: seq<RawPair>, b: seq<RawPair>)
    requires AllIn(mem, a + b) && AllIn(mem, a) && AllIn(mem, b)
    ensures ReadAll(mem, a + b) == ReadAll(mem, a) + ReadAll(mem, b)
  {
  }

  lemma ReadAllSame(mem: Memory, after: Memory, xs: seq<RawPair>)
    requires AllIn(mem, xs) && AllIn(after, xs) && forall x :: x in xs ==> Read(after, x) == Read(mem, x)
    ensures ReadAll(after, xs) == ReadAll(mem, xs)
  {
    forall i | 0 <= i < |xs| ensures ReadAll(after, xs)[i] == ReadAll(mem, xs)[i] { assert xs[i] in xs; }
  }

  /** What was flattened reads as the leaves below the given keys. */
  ghost predicate ListsKeys(r: Flat, prefix: seq<string>, j: Json, keys: seq<string>) {
    AllIn(r.mem, r.pairs) && EnumeratesKeys(ReadAll(r.mem, r.pairs), prefix, j, keys)
  }

  ghost predicate ListsUnder(r: Flat, prefix: seq<string>, j: Json) {
    AllIn(r.mem, r.pairs) && EnumeratesUnder(ReadAll(r.mem, r.pairs), prefix, j)
  }

  /** One more key of a map that is not crowded. */
  lemma NextKeyListed(g: Growth, order: Order, mem: Memory, path: string, s: Slice, value: Json, keys: seq<string>)
    requires Grows(g) && Held(g, mem, s) && value.Obj? && !Crowded(g, value, Len(s))
    requires keys != [] && Distinct(keys) && keys[|keys| - 1] in value.fields
    requires var front, k := keys[..|keys| - 1], keys[|keys| - 1];
             var before := FlatKeys(g, order, mem, path, s, value, front);
             var (mid, t) := Append(g, before.mem, s, k);
             && InMemory(mid, t) && ListsKeys(before, [path] + Content(mem, s), value, front)
             && ListsUnder(FlatValue(g, order, mid, path, t, value.fields[k]), [path] + Content(mid, t), value.fields[k])
    ensures ListsKeys(FlatKeys(g, order, mem, path, s, value, keys), [path] + Content(mem, s), value, keys)
  {
    var front, k, u := keys[..|keys| - 1], keys[|keys| - 1], Content(mem, s);
    assert keys == front + [k];
    DistinctSnoc(front, k);
    var before := FlatKeys(g, order, mem, path, s, value, front);
    FrameKeepsHeld(g, mem, before.mem, s);
    AppendFrame(g, before.mem, s, k);
    var (mid, t) := Append(g, before.mem, s, k);
    var sub := FlatValue(g, order, mid, path, t, value.fields[k]);
    NextKeyReads(g, order, mem, path, s, value, keys, sub.mem);
    assert [path] + (u + [k]) == [path] + u + [k];
    ReadsMore(before.mem, sub.mem, before.pairs, sub.pairs, [path] + u, value, front, k);
  }

  /** In a tree without crowded maps the pairs read at the end are exactly the leaves,
      whatever order the maps are walked in. */
  lemma {:induction false} FlatSpaced(g: Growth, order: Order, mem: Memory, path: string, s: Slice, value: Json)
    requires Grows(g) && Lists(order) && Held(g, mem, s) && Spaced(g, value, Len(s))
    ensures ListsUnder(FlatValue(g, order, mem, path, s, value), [path] + Content(mem, s), value)
    decreases value, 1
  {
    var r, u := FlatValue(g, order, mem, path, s, value), Content(mem, s);
    FlatAllIn(g, order, mem, path, s, value);
    if value.Obj? {
      var keys := order([path] + u, value.fields.Keys);
      FlatKeysSpaced(g, order, mem, path, s, value, keys);
      EnumeratesAll(ReadAll(r.mem, r.pairs), [path] + u, value, keys);
    } else {
      LeafEnumerates(path, u, value);
      assert ReadAll(r.mem, r.pairs) == [KVPair(Reference("", path, u), value)];
    }
  }

  lemma {:induction false} FlatKeysSpaced(g: Growth, order: Order, mem: Memory, path: string, s: Slice, value: Json,
                                          keys: seq<string>)
    requires Grows(g) && Lists(order) && Held(g, mem, s) && value.Obj? && Spaced(g, value, Len(s))
    requires Distinct(keys) && forall k :: k in keys ==> k in value.fields
    ensures ListsKeys(FlatKeys(g, order, mem, path, s, value, keys), [path] + Content(mem, s), value, keys)
    decreases value, 0, |keys|
  {
    if keys != [] {
      var front, k := keys[..|keys| - 1], keys[|keys| - 1];
      assert keys == front + [k];
      DistinctSnoc(front, k);
      FlatKeysSpaced(g, order, mem, path, s, value, front);
      var before := FlatKeys(g, order, mem, path, s, value, front);
      FrameKeepsHeld(g, mem, before.mem, s);
      AppendHeld(g, before.mem, s, k);
      var (mid, t) := Append(g, before.mem, s, k);
      FlatSpaced(g, order, mid, path, t, value.fields[k]);
      NextKeyListed(g, order, mem, path, s, value, keys);
    }
  }

  lemma ReadsMore(mem: Memory, after: Memory, a: seq<RawPair>, b: seq<RawPair>, prefix: seq<string>, j: Json,
                  keys: seq<string>, k: string)
    requires AllIn(mem, a) && AllIn(after, a) && AllIn(after, b) && forall x :: x in a ==> Read(after, x) == Read(mem, x)
    requires j.Obj? && k in j.fields && k !in keys
    requires EnumeratesKeys(ReadAll(mem, a), prefix, j, keys) && EnumeratesUnder(ReadAll(after, b), prefix + [k], j.fields[k])
    ensures AllIn(after, a + b) && EnumeratesKeys(ReadAll(after, a + b), prefix, j, keys + [k])
  {
    ReadAllSame(mem, after, a);
    ReadAllConcat(after, a, b);
    EnumeratesMore(ReadAll(after, a), ReadAll(after, b), prefix, j, keys, k);
  }

  // ---- when a reference is lost ----

  /** A crowded map at `p`, a key of it to be taken last, and a leaf at `q` below another of
      its keys, all under the variable `top`. */
  datatype Target = Target(top: string, p: seq<string>, last: string, q: seq<string>)

  ghost predicate Lossy(g: Growth, t: Target) {
    && |t.p| < |t.q| <= Cap(g, |t.p|) && t.p <= t.q && t.q[|t.p|] != t.last
  }

  /** On the way to `p` the key that leads there comes last, and at `p` the one chosen. */
  ghost predicate Steered(order: Order, t: Target) {
    forall u, keys :: u <= t.p ==>
      var k := if |u| < |t.p| then t.p[|u|] else t.last;
      var ks := order([t.top] + u, keys);
      k in keys ==> ks != [] && ks[|ks| - 1] == k
  }

  /** From a node on the way to `p`, the map at `p` can be reached and has the last key. */
  ghost predicate LeadsTo(j: Json, t: Target, u: seq<string>) {
    u <= t.p && At(j, t.p[|u|..]).Some? && var node := At(j, t.p[|u|..]).value; node.Obj? && t.last in node.fields
  }

  lemma LeadsOn(j: Json, t: Target, u: seq<string>)
    requires LeadsTo(j, t, u)
    ensures j.Obj?
    ensures |u| < |t.p| ==> t.p[|u|] in j.fields && LeadsTo(j.fields[t.p[|u|]], t, u + [t.p[|u|]])
    ensures |u| == |t.p| ==> t.last in j.fields
  {
    var rest := t.p[|u|..];
    if |u| < |t.p| {
      assert rest[0] == t.p[|u|] && rest[1..] == t.p[|u| + 1..];
      assert u + [t.p[|u|]] == t.p[..|u| + 1];
    } else {
      assert rest == [];
    }
  }

  /** A call in whose array `p` lies leaves the chosen key behind `p` there. */
  lemma {:induction false} LastWrites(g: Growth, order: Order, mem: Memory, t: Target, s: Slice, value: Json)
    requires Grows(g) && Steered(order, t) && Held(g, mem, s) && s.Slice? && |t.p| < |mem[s.base]|
    requires LeadsTo(value, t, Content(mem, s))
    ensures var r := FlatValue(g, order, mem, t.top, s, value); |t.p| < |r.mem[s.base]| && r.mem[s.base][|t.p|] == t.last
    decreases value
  {
    var u := Content(mem, s);
    LeadsOn(value, t, u);
    var keys := order([t.top] + u, value.fields.Keys);
    var k := if |u| < |t.p| then t.p[|u|] else t.last;
    assert keys != [] && keys[|keys| - 1] == k;
    var before := FlatKeys(g, order, mem, t.top, s, value, keys[..|keys| - 1]);
    FrameKeepsHeld(g, mem, before.mem, s);
    AppendHeld(g, before.mem, s, k);
    AppendFrame(g, before.mem, s, k);
    var (mid, x) := Append(g, before.mem, s, k);
    assert x == Slice(s.base, s.len + 1) && mid[s.base][s.len] == k;
    if |u| < |t.p| { LastWrites(g, order, mid, t, x, value.fields[k]); }
  }

  /** A node on the way to the leaf at `q`. */
  ghost predicate OnWay(j: Json, t: Target, u: seq<string>) {
    && u <= t.q && At(j, t.q[|u|..]).Some? && !At(j, t.q[|u|..]).value.Obj?
    && (u <= t.p ==> LeadsTo(j, t, u))
  }

  lemma OnWayOn(j: Json, t: Target, u: seq<string>)
    requires OnWay(j, t, u) && |u| < |t.q| && t.p <= t.q
    ensures j.Obj? && t.q[|u|] in j.fields && OnWay(j.fields[t.q[|u|]], t, u + [t.q[|u|]])
  {
    var rest := t.q[|u|..];
    assert rest[0] == t.q[|u|] && rest[1..] == t.q[|u| + 1..];
    assert u + [t.q[|u|]] == t.q[..|u| + 1];
    if |u| < |t.p| {
      assert u == t.p[..|u|];
      LeadsOn(j, t, u);
      assert t.p[|u|] == t.q[|u|];
    }
  }

  lemma EndOfWay(j: Json, t: Target, u: seq<string>)
    requires OnWay(j, t, u) && |u| == |t.q|
    ensures !j.Obj?
  {
    assert t.q[|u|..] == [];
  }

  /** A full slice on the way whose next array reaches as far as `q` lies before `p`. */
  lemma FullBefore(g: Growth, t: Target, u: seq<string>)
    requires Grows(g) && Lossy(g, t) && u <= t.q && |u| < |t.q| && Cap(g, |u|) == |u|
    ensures |u| < |t.p| && u + [t.q[|u|]] <= t.p
  {
    FullEarlier(g, |t.p|, |t.q|, |u|);
    PrefixGrows(u, t.p, t.q);
  }

  lemma FullEarlier(g: Growth, n: nat, end: nat, m: nat)
    requires Grows(g) && n < end <= Cap(g, n) && m < end && Cap(g, m) == m
    ensures m < n
  {
    if m >= n { CapSteady(g, n, m); }
  }

  lemma PrefixGrows(u: seq<string>, p: seq<string>, q: seq<string>)
    requires u <= q && p <= q && |u| < |p|
    ensures u + [q[|u|]] <= p
  {
    assert q[..|p|] == p;
    assert u + [q[|u|]] == q[..|u| + 1] == p[..|u| + 1];
  }

  /** None of the given pairs that lie in arrays allocated since reads as `q`. */
  ghost predicate NoneReads(mem: Memory, after: Memory, xs: seq<RawPair>, q: seq<string>) {
    forall x :: x in xs && x.fields.Slice? && x.fields.base >= |mem| ==>
      InMemory(after, x.fields) && Content(after, x.fields) != q
  }

  /** The pairs in the array of one key's own, when the leaf at `q` has its reference there. */
  lemma OwnArray(g: Growth, order: Order, mem: Memory, t: Target, s: Slice, value: Json, x: RawPair)
    requires Grows(g) && Steered(order, t) && Lossy(g, t) && Held(g, mem, s) && s.Slice? && LeadsTo(value, t, Content(mem, s))
    requires x in FlatValue(g, order, mem, t.top, s, value).pairs && Shares(s, x.fields)
    ensures var r := FlatValue(g, order, mem, t.top, s, value);
            InMemory(r.mem, x.fields) && Content(r.mem, x.fields) != t.q
  {
    var r := FlatValue(g, order, mem, t.top, s, value);
    FlatPlaced(g, order, mem, t.top, s, value, x);
    FrameKeepsHeld(g, mem, r.mem, s);
    if |t.q| <= |mem[s.base]| {
      LastWrites(g, order, mem, t, s, value);
      if Len(x.fields) == |t.q| { assert Content(r.mem, x.fields)[|t.p|] == t.last; }
    }
  }

  lemma {:induction false} NotRead(g: Growth, order: Order, mem: Memory, t: Target, s: Slice, value: Json)
    requires Grows(g) && Steered(order, t) && Lossy(g, t) && Held(g, mem, s) && OnWay(value, t, Content(mem, s))
    ensures var r := FlatValue(g, order, mem, t.top, s, value); NoneReads(mem, r.mem, r.pairs, t.q)
    decreases value, 1
  {
    if value.Obj? {
      var u := Content(mem, s);
      if |u| == |t.q| { EndOfWay(value, t, u); }
      NotReadKeys(g, order, mem, t, s, value, order([t.top] + u, value.fields.Keys));
    }
  }

  lemma {:induction false} NotReadKeys(g: Growth, order: Order, mem: Memory, t: Target, s: Slice, value: Json, keys: seq<string>)
    requires Grows(g) && Steered(order, t) && Lossy(g, t) && Held(g, mem, s) && value.Obj?
    requires OnWay(value, t, Content(mem, s)) && Len(s) < |t.q|
    ensures var r := FlatKeys(g, order, mem, t.top, s, value, keys); NoneReads(mem, r.mem, r.pairs, t.q)
    decreases value, 0, |keys|
  {
    if keys != [] {
      var k := keys[|keys| - 1];
      NotReadKeys(g, order, mem, t, s, value, keys[..|keys| - 1]);
      if k in value.fields {
        var before := FlatKeys(g, order, mem, t.top, s, value, keys[..|keys| - 1]);
        FrameKeepsHeld(g, mem, before.mem, s);
        AppendHeld(g, before.mem, s, k);
        AppendFrame(g, before.mem, s, k);
        var (mid, c) := Append(g, before.mem, s, k);
        var sub := FlatValue(g, order, mid, t.top, c, value.fields[k]);
        FrameTrans(before.mem, mid, sub.mem, s, c);
        OnWayOn(value, t, Content(mem, s));
        if k == t.q[Len(s)] { NotRead(g, order, mid, t, c, value.fields[k]); }
        forall x | x in sub.pairs && x.fields.Slice? && x.fields.base >= |mem|
          ensures InMemory(sub.mem, x.fields) && Content(sub.mem, x.fields) != t.q
        {
          NotReadBelow(g, order, mem, before.mem, t, s, value, k, x);
        }
      }
    }
  }

  /** One pair of one key. */
  lemma NotReadBelow(g: Growth, order: Order, mem: Memory, before: Memory, t: Target, s: Slice, value: Json, k: string, x: RawPair)
    requires Grows(g) && Steered(order, t) && Lossy(g, t) && Held(g, mem, s) && value.Obj? && k in value.fields
    requires OnWay(value, t, Content(mem, s)) && Len(s) < |t.q| && Frame(mem, before, s) && Held(g, before, s)
    requires var (mid, c) := Append(g, before, s, k);
             && InMemory(mid, c) && x in FlatValue(g, order, mid, t.top, c, value.fields[k]).pairs
             && (k == t.q[Len(s)] ==> var sub := FlatValue(g, order, mid, t.top, c, value.fields[k]);
                                      NoneReads(mid, sub.mem, sub.pairs, t.q))
    requires x.fields.Slice? && x.fields.base >= |mem|
    ensures var (mid, c) := Append(g, before, s, k);
            var sub := FlatValue(g, order, mid, t.top, c, value.fields[k]);
            InMemory(sub.mem, x.fields) && Content(sub.mem, x.fields) != t.q
  {
    var u, n := Content(mem, s), Len(s);
    AppendHeld(g, before, s, k);
    AppendFrame(g, before, s, k);
    CapCovers(g, n);
    var (mid, c) := Append(g, before, s, k);
    var sub := FlatValue(g, order, mid, t.top, c, value.fields[k]);
    FlatPlaced(g, order, mid, t.top, c, value.fields[k], x);
    assert Content(mid, c) == u + [k];
    if k != t.q[n] {
      assert Content(sub.mem, x.fields)[n] == k;
    } else if x.fields.base < |mid| {
      FullBefore(g, t, u);
      OnWayOn(value, t, u);
      OwnArray(g, order, mid, t, c, value.fields[k], x);
    }
  }

  // ---- all variables ----

  lemma ReadKept(mem: Memory, after: Memory, x: RawPair)
    requires InMemory(mem, x.fields) && Frame(mem, after, NilSlice)
    ensures InMemory(after, x.fields) && Read(after, x) == Read(mem, x)
  {
  }

  lemma {:induction false} FlatVarsIn(g: Growth, order: Order, m: Vars, keys: seq<string>)
    ensures var r := FlatVars(g, order, m, keys); AllIn(r.mem, r.pairs)
  {
    if keys != [] {
      FlatVarsIn(g, order, m, keys[..|keys| - 1]);
      var before := FlatVars(g, order, m, keys[..|keys| - 1]);
      var k := keys[|keys| - 1];
      if k in m {
        FlatAllIn(g, order, before.mem, k, NilSlice, m[k]);
        forall x | x in before.pairs
          ensures InMemory(FlatValue(g, order, before.mem, k, NilSlice, m[k]).mem, x.fields)
        {
          ReadKept(before.mem, FlatValue(g, order, before.mem, k, NilSlice, m[k]).mem, x);
        }
      }
    }
  }

  /** Flatten: the pairs as they read at the end. */
  function Flattened(g: Growth, order: Order, m: Vars): seq<KVPair> {
    var r := FlatVars(g, order, m, order([], m.Keys));
    FlatVarsIn(g, order, m, order([], m.Keys));
    ReadAll(r.mem, r.pairs)
  }

  lemma {:induction false} FlatVarsSpaced(g: Growth, order: Order, m: Vars, keys: seq<string>)
    requires Grows(g) && Lists(order) && SpacedVars(g, m) && Distinct(keys) && forall k :: k in keys ==> k in m
    ensures var r := FlatVars(g, order, m, keys);
            AllIn(r.mem, r.pairs) && EnumeratesKeys(ReadAll(r.mem, r.pairs), [], Obj(m), keys)
  {
    if keys != [] {
      var front, k := keys[..|keys| - 1], keys[|keys| - 1];
      assert keys == front + [k];
      DistinctSnoc(front, k);
      FlatVarsSpaced(g, order, m, front);
      var before := FlatVars(g, order, m, front);
      FlatSpaced(g, order, before.mem, k, NilSlice, m[k]);
      var sub := FlatValue(g, order, before.mem, k, NilSlice, m[k]);
      forall x | x in before.pairs ensures InMemory(sub.mem, x.fields) && Read(sub.mem, x) == Read(before.mem, x) {
        ReadKept(before.mem, sub.mem, x);
      }
      assert [k] + [] == [] + [k];
      ReadsMore(before.mem, sub.mem, before.pairs, sub.pairs, [], Obj(m), front, k);
    }
  }

  lemma SpacedEnumerates(g: Growth, order: Order, m: Vars)
    requires Grows(g) && Lists(order) && SpacedVars(g, m)
    ensures Enumerates(Flattened(g, order, m), m)
  {
    var keys := order([], m.Keys);
    FlatVarsSpaced(g, order, m, keys);
    EnumeratesAll(Flattened(g, order, m), [], Obj(m), keys);
    forall kv ensures IsPairUnder([], Obj(m), kv) <==> IsPairOf(m, kv) {
      assert kv.ref.Segments()[0..] == kv.ref.Segments();
    }
  }

  /** No pair reads as the leaf at `q`. */
  lemma {:induction false} FlatVarsLost(g: Growth, order: Order, m: Vars, t: Target, keys: seq<string>)
    requires Grows(g) && Steered(order, t) && Lossy(g, t) && t.top in m && OnWay(m[t.top], t, [])
    ensures var r := FlatVars(g, order, m, keys);
            AllIn(r.mem, r.pairs) && forall x :: x in r.pairs ==> x.path != t.top || Content(r.mem, x.fields) != t.q
  {
    FlatVarsIn(g, order, m, keys);
    if keys != [] {
      var k := keys[|keys| - 1];
      FlatVarsLost(g, order, m, t, keys[..|keys| - 1]);
      if k in m {
        var before := FlatVars(g, order, m, keys[..|keys| - 1]);
        var sub := FlatValue(g, order, before.mem, k, NilSlice, m[k]);
        if k == t.top { NotRead(g, order, before.mem, t, NilSlice, m[k]); }
        forall x | x in sub.pairs ensures x.path != t.top || Content(sub.mem, x.fields) != t.q {
          FlatPlaced(g, order, before.mem, k, NilSlice, m[k], x);
        }
        forall x | x in before.pairs ensures x.path != t.top || Content(sub.mem, x.fields) != t.q {
          ReadKept(before.mem, sub.mem, x);
        }
      }
    }
  }

  lemma LeafIsLost(g: Growth, order: Order, m: Vars, t: Target, v: Json)
    requires Grows(g) && Steered(order, t) && Lossy(g, t) && t.top in m && OnWay(m[t.top], t, [])
    ensures KVPair(Reference("", t.top, t.q), v) !in Flattened(g, order, m)
  {
    var keys := order([], m.Keys);
    var r := FlatVars(g, order, m, keys);
    FlatVarsLost(g, order, m, t, keys);
    forall i | 0 <= i < |r.pairs| ensures Flattened(g, order, m)[i] != KVPair(Reference("", t.top, t.q), v) {
      assert r.pairs[i] in r.pairs;
    }
  }

  // ---- an order for every crowded map ----

  ghost function AnyList(keys: set<string>): seq<string> {
    if keys == {} then [] else var k :| k in keys; [k] + AnyList(keys - {k})
  }

  lemma {:induction false} AnyListLists(keys: set<string>)
    ensures Distinct(AnyList(keys)) && forall k :: k in AnyList(keys) <==> k in keys
    decreases keys
  {
    if keys != {} {
      var k := AnyList(keys)[0];
      assert AnyList(keys) == [k] + AnyList(keys - {k}) && k in keys;
      AnyListLists(keys - {k});
    }
  }

  ghost function LastKey(t: Target, path: seq<string>): Option<string> {
    if path == [] || path[0] != t.top || !(path[1..] <= t.p) then None
    else if |path| - 1 < |t.p| then Some(t.p[|path| - 1])
    else Some(t.last)
  }

  ghost function Steer(t: Target, path: seq<string>, keys: set<string>): seq<string> {
    var last := LastKey(t, path);
    if last.Some? && last.value in keys then AnyList(keys - {last.value}) + [last.value] else AnyList(keys)
  }

  lemma SteerLists(t: Target, path: seq<string>, keys: set<string>)
    ensures Distinct(Steer(t, path, keys)) && forall k :: k in Steer(t, path, keys) <==> k in keys
  {
    var last := LastKey(t, path);
    AnyListLists(keys);
    if last.Some? && last.value in keys {
      AnyListLists(keys - {last.value});
      DistinctSnoc(AnyList(keys - {last.value}), last.value);
    }
  }

  lemma SteerSteers(t: Target) returns (order: Order)
    ensures Lists(order) && Steered(order, t)
  {
    order := (path, keys) => Steer(t, path, keys);
    forall p, keys ensures Distinct(order(p, keys)) && forall k :: k in order(p, keys) <==> k in keys {
      SteerLists(t, p, keys);
    }
    forall u, keys | u <= t.p
      ensures var k := if |u| < |t.p| then t.p[|u|] else t.last;
              var ks := order([t.top] + u, keys);
              k in keys ==> ks != [] && ks[|ks| - 1] == k
    {
      assert ([t.top] + u)[1..] == u;
    }
  }

  lemma {:induction false} CrowdedNode(g: Growth, j: Json, n: nat) returns (p: seq<string>, node: Json)
    requires !Spaced(g, j, n)
    ensures At(j, p) == Some(node) && Crowded(g, node, n + |p|)
    decreases j
  {
    p, node := [], j;
    if !Crowded(g, j, n) {
      var k :| k in j.fields && !Spaced(g, j.fields[k], n + 1);
      p, node := CrowdedNode(g, j.fields[k], n + 1);
      p := [k] + p;
      assert p[1..] == p[1..] && p[0] == k;
    }
  }

  lemma {:induction false} AtThrough(j: Json, p: seq<string>, r: seq<string>)
    requires At(j, p).Some?
    ensures At(j, p + r) == At(At(j, p).value, r)
    decreases |p|
  {
    if p == [] {
      assert p + r == r;
    } else {
      AtThrough(j.fields[p[0]], p[1..], r);
      assert (p + r)[1..] == p[1..] + r;
    }
  }

  /** A crowded map, the leaf to lose and the key to take last. */
  lemma FindTarget(g: Growth, m: Vars) returns (t: Target, v: Json)
    requires !SpacedVars(g, m)
    ensures Lossy(g, t) && t.top in m && OnWay(m[t.top], t, []) && LeafAt(m[t.top], t.q, v)
  {
    var top :| top in m && !Spaced(g, m[top], 0);
    var p, node := CrowdedNode(g, m[top], 0);
    var a, b :| a in node.fields && b in node.fields && a != b;
    var d :| d <= Cap(g, |p|) - |p| && LeafDown(node, d);
    var r, w :| LeafAt(node, r, w) && |r| == d;
    assert r != [];
    v := w;
    t := Target(top, p, if r[0] == a then b else a, p + r);
    AtThrough(m[top], p, r);
    assert t.p[0..] == t.p && t.q[0..] == t.q && t.q[|p|] == r[0];
  }

  /** The pairs read at the end are exactly the leaves in whatever order the maps are
      walked, if and only if no map is crowded. */
  lemma FlattenExact(g: Growth, m: Vars)
    requires Grows(g)
    ensures SpacedVars(g, m) <==> forall order :: Lists(order) ==> Enumerates(Flattened(g, order, m), m)
  {
    forall order | Lists(order) && SpacedVars(g, m) ensures Enumerates(Flattened(g, order, m), m) {
      SpacedEnumerates(g, order, m);
    }
    if !SpacedVars(g, m) {
      var order, kv := LosingOrder(g, m);
      assert !Enumerates(Flattened(g, order, m), m);
    }
  }

  lemma LosingOrder(g: Growth, m: Vars) returns (order: Order, kv: KVPair)
    requires Grows(g) && !SpacedVars(g, m)
    ensures Lists(order) && IsPairOf(m, kv) && kv !in Flattened(g, order, m)
  {
    var t, v := FindTarget(g, m);
    order := SteerSteers(t);
    LeafIsLost(g, order, m, t, v);
    kv := KVPair(Reference("", t.top, t.q), v);
    assert kv.ref.Segments() == [t.top] + t.q;
    LeafBelow(Obj(m), t.top, t.q, v);
  }

  // ---- a tree that does not survive ----

  /** How the runtime grows short slices. */
  function Doubling(n: nat): nat { if n == 0 then 1 else 2 * n }

  lemma FullOne(k: string, j: Json)
    requires Full(j)
    ensures Full(Obj(map[k := j]))
  {
    assert k in map[k := j];
  }

  /** `{"a": {"b": {"c": {"d": {"e": 1, "f": 2}}}}}` */
  function Siblings(): Vars {
    map["a" := Obj(map["b" := Obj(map["c" := Obj(map["d" := Obj(map["e" := Num(1), "f" := Num(2)])])])])]
  }

  lemma SiblingsFull()
    ensures FullVars(Siblings())
  {
    var pair := Obj(map["e" := Num(1), "f" := Num(2)]);
    assert "e" in pair.fields && Full(pair);
    FullOne("d", pair);
    FullOne("c", Obj(map["d" := pair]));
    FullOne("b", Obj(map["c" := Obj(map["d" := pair])]));
  }

  lemma SiblingsCrowded()
    ensures !SpacedVars(Doubling, Siblings())
  {
    var pair := Obj(map["e" := Num(1), "f" := Num(2)]);
    assert Cap(Doubling, 1) == 1 && Cap(Doubling, 2) == 2 && Cap(Doubling, 3) == 4;
    assert "e" in pair.fields && "f" in pair.fields && "e" != "f";
    LeafBelow(pair, "e", [], Num(1));
    assert LeafDown(pair, 1) by { assert |["e"] + []| == 1; }
    assert Crowded(Doubling, pair, 3);
    NotSpacedUp("d", pair, 2);
    NotSpacedUp("c", Obj(map["d" := pair]), 1);
    NotSpacedUp("b", Obj(map["c" := Obj(map["d" := pair])]), 0);
    assert "a" in Siblings();
  }

  lemma NotSpacedUp(k: string, j: Json, n: nat)
    requires !Spaced(Doubling, j, n + 1)
    ensures !Spaced(Doubling, Obj(map[k := j]), n)
  {
    assert k in map[k := j];
  }

  /** Two siblings four fields down write their names to the same cell, so a leaf is lost. */
  lemma SiblingsOverwrite() returns (order: Order, kv: KVPair)
    ensures FullVars(Siblings()) && Lists(order) && IsPairOf(Siblings(), kv)
    ensures kv !in Flattened(Doubling, order, Siblings())
  {
    SiblingsFull();
    SiblingsCrowded();
    order, kv := LosingOrder(Doubling, Siblings());
  }

  // ---- as many pairs as leaves ----

  lemma AppendSame(g: Growth, h: Growth, mem: Memory, a: Memory, other: Memory, b: Memory, s: Slice, t: Slice, k: string)
    requires InMemory(mem, s) && InMemory(other, t) && Content(mem, s) == Content(other, t)
    requires Frame(mem, a, s) && Frame(other, b, t)
    ensures InMemory(a, s) && InMemory(b, t)
    ensures var (x, u), (y, v) := Append(g, a, s, k), Append(h, b, t, k);
            InMemory(x, u) && InMemory(y, v) && Content(x, u) == Content(y, v)
  {
    AppendFrame(g, a, s, k);
    AppendFrame(h, b, t, k);
    assert Content(a, s) == Content(mem, s) && Content(b, t) == Content(other, t);
  }

  /** The number of pairs does not depend on how slices grow. */
  lemma {:induction false} FlatCount(g: Growth, h: Growth, order: Order, mem: Memory, other: Memory, path: string, s: Slice, t: Slice,
                                     value: Json)
    requires InMemory(mem, s) && InMemory(other, t) && Content(mem, s) == Content(other, t)
    ensures |FlatValue(g, order, mem, path, s, value).pairs| == |FlatValue(h, order, other, path, t, value).pairs|
    decreases value, 1
  {
    if value.Obj? {
      FlatKeysCount(g, h, order, mem, other, path, s, t, value, order([path] + Content(mem, s), value.fields.Keys));
    }
  }

  lemma {:induction false} FlatKeysCount(g: Growth, h: Growth, order: Order, mem: Memory, other: Memory, path: string, s: Slice, t: Slice,
                                         value: Json, keys: seq<string>)
    requires InMemory(mem, s) && InMemory(other, t) && Content(mem, s) == Content(other, t) && value.Obj?
    ensures |FlatKeys(g, order, mem, path, s, value, keys).pairs| == |FlatKeys(h, order, other, path, t, value, keys).pairs|
    decreases value, 0, |keys|
  {
    if keys != [] {
      var front, k := keys[..|keys| - 1], keys[|keys| - 1];
      FlatKeysCount(g, h, order, mem, other, path, s, t, value, front);
      if k in value.fields {
        var a, b := FlatKeys(g, order, mem, path, s, value, front), FlatKeys(h, order, other, path, t, value, front);
        AppendSame(g, h, mem, a.mem, other, b.mem, s, t, k);
        var (x, u) := Append(g, a.mem, s, k);
        var (y, v) := Append(h, b.mem, t, k);
        FlatCount(g, h, order, x, y, path, u, v, value.fields[k]);
      }
    }
  }

  lemma {:induction false} FlatVarsCount(g: Growth, h: Growth, order: Order, m: Vars, keys: seq<string>)
    ensures |FlatVars(g, order, m, keys).pairs| == |FlatVars(h, order, m, keys).pairs|
  {
    if keys != [] {
      var front, k := keys[..|keys| - 1], keys[|keys| - 1];
      FlatVarsCount(g, h, order, m, front);
      if k in m {
        FlatCount(g, h, order, FlatVars(g, order, m, front).mem, FlatVars(h, order, m, front).mem, k, NilSlice, NilSlice, m[k]);
      }
    }
  }

  /** Growing by one never leaves room to share. */
  function ByOne(n: nat): nat { n + 1 }

  lemma {:induction false} ByOneIsFull(n: nat)
    ensures Cap(ByOne, n) == n
  {
    if n > 0 { ByOneIsFull(n - 1); }
  }

  lemma {:induction false} ByOneSpaced(j: Json, n: nat)
    ensures Spaced(ByOne, j, n)
    decreases j
  {
    ByOneIsFull(n);
    if j.Obj? {
      forall k | k in j.fields ensures Spaced(ByOne, j.fields[k], n + 1) { ByOneSpaced(j.fields[k], n + 1); }
    }
  }

  /** Pairs that are not exactly the leaves lack one. */
  lemma SomeLeafIsLost(g: Growth, order: Order, m: Vars) returns (kv: KVPair)
    requires Lists(order) && !Enumerates(Flattened(g, order, m), m)
    ensures IsPairOf(m, kv) && kv !in Flattened(g, order, m)
  {
    var leaves, flat := Flattened(ByOne, order, m), Flattened(g, order, m);
    forall k | k in m ensures Spaced(ByOne, m[k], 0) { ByOneSpaced(m[k], 0); }
    SpacedEnumerates(ByOne, order, m);
    FlatVarsCount(g, ByOne, order, m, order([], m.Keys));
    if forall x :: x in leaves ==> x in flat {
      Pigeonhole(leaves, flat);
      Permuted(leaves, flat);
    }
    kv :| kv in leaves && kv !in flat;
  }

  lemma {:induction false} FlatValuesAreLeaves(g: Growth, order: Order, mem: Memory, path: string, s: Slice, value: Json, x: RawPair)
    requires InMemory(mem, s) && x in FlatValue(g, order, mem, path, s, value).pairs
    ensures !x.value.Obj?
    decreases value, 1
  {
    if value.Obj? {
      FlatKeysAreLeaves(g, order, mem, path, s, value, order([path] + Content(mem, s), value.fields.Keys), x);
    }
  }

  lemma {:induction false} FlatKeysAreLeaves(g: Growth, order: Order, mem: Memory, path: string, s: Slice, value: Json, keys: seq<string>,
                                             x: RawPair)
    requires InMemory(mem, s) && value.Obj? && x in FlatKeys(g, order, mem, path, s, value, keys).pairs
    ensures !x.value.Obj?
    decreases value, 0, |keys|
  {
    var before := FlatKeys(g, order, mem, path, s, value, keys[..|keys| - 1]);
    var k := keys[|keys| - 1];
    if x in before.pairs {
      FlatKeysAreLeaves(g, order, mem, path, s, value, keys[..|keys| - 1], x);
    } else {
      AppendFrame(g, before.mem, s, k);
      var (mid, t) := Append(g, before.mem, s, k);
      FlatValuesAreLeaves(g, order, mid, path, t, value.fields[k], x);
    }
  }

  lemma {:induction false} FlatVarsAreLeaves(g: Growth, order: Order, m: Vars, keys: seq<string>, x: RawPair)
    requires x in FlatVars(g, order, m, keys).pairs
    ensures !x.value.Obj?
  {
    var before := FlatVars(g, order, m, keys[..|keys| - 1]);
    var k := keys[|keys| - 1];
    if x in before.pairs {
      FlatVarsAreLeaves(g, order, m, keys[..|keys| - 1], x);
    } else {
      FlatValuesAreLeaves(g, order, before.mem, k, NilSlice, m[k], x);
    }
  }

  // ---- every field read is a key of the tree ----

  ghost predicate KeysAre(ok: string -> bool, j: Json) {
    j.Obj? ==> forall k :: k in j.fields ==> ok(k) && KeysAre(ok, j.fields[k])
  }

  ghost predicate CellsAre(ok: string -> bool, mem: Memory) {
    forall a, i :: 0 <= a < |mem| && 0 <= i < |mem[a]| ==> ok(mem[a][i])
  }

  lemma AppendCells(ok: string -> bool, g: Growth, mem: Memory, s: Slice, k: string)
    requires InMemory(mem, s) && CellsAre(ok, mem) && ok(k)
    ensures CellsAre(ok, Append(g, mem, s, k).0)
  {
  }

  lemma {:induction false} FlatCells(ok: string -> bool, g: Growth, order: Order, mem: Memory, path: string, s: Slice, value: Json)
    requires InMemory(mem, s) && CellsAre(ok, mem) && KeysAre(ok, value)
    ensures CellsAre(ok, FlatValue(g, order, mem, path, s, value).mem)
    decreases value, 1
  {
    if value.Obj? { FlatKeysCells(ok, g, order, mem, path, s, value, order([path] + Content(mem, s), value.fields.Keys)); }
  }

  lemma {:induction false} FlatKeysCells(ok: string -> bool, g: Growth, order: Order, mem: Memory, path: string, s: Slice,
                                         value: Json, keys: seq<string>)
    requires InMemory(mem, s) && CellsAre(ok, mem) && KeysAre(ok, value) && value.Obj?
    ensures CellsAre(ok, FlatKeys(g, order, mem, path, s, value, keys).mem)
    decreases value, 0, |keys|
  {
    if keys != [] {
      var k := keys[|keys| - 1];
      FlatKeysCells(ok, g, order, mem, path, s, value, keys[..|keys| - 1]);
      if k in value.fields {
        var before := FlatKeys(g, order, mem, path, s, value, keys[..|keys| - 1]);
        AppendFrame(g, before.mem, s, k);
        AppendCells(ok, g, before.mem, s, k);
        var (mid, t) := Append(g, before.mem, s, k);
        FlatCells(ok, g, order, mid, path, t, value.fields[k]);
      }
    }
  }

  lemma {:induction false} FlatVarsCells(ok: string -> bool, g: Growth, order: Order, m: Vars, keys: seq<string>)
    requires KeysAre(ok, Obj(m))
    ensures var r := FlatVars(g, order, m, keys); CellsAre(ok, r.mem) && forall x :: x in r.pairs ==> ok(x.path)
  {
    if keys != [] {
      FlatVarsCells(ok, g, order, m, keys[..|keys| - 1]);
      var before := FlatVars(g, order, m, keys[..|keys| - 1]);
      var k := keys[|keys| - 1];
      if k in m {
        FlatCells(ok, g, order, before.mem, k, NilSlice, m[k]);
        forall x | x in FlatValue(g, order, before.mem, k, NilSlice, m[k]).pairs ensures ok(x.path) {
          FlatPlaced(g, order, before.mem, k, NilSlice, m[k], x);
        }
      }
    }
  }

  /** Lost or not, a reference is made of keys of the tree, and its value is a leaf. */
  lemma FlattenedKeys(ok: string -> bool, g: Growth, order: Order, m: Vars, kv: KVPair)
    requires KeysAre(ok, Obj(m)) && kv in Flattened(g, order, m)
    ensures kv.ref.source == "" && !kv.value.Obj? && forall seg :: seg in kv.ref.Segments() ==> ok(seg)
  {
    var keys := order([], m.Keys);
    var r := FlatVars(g, order, m, keys);
    FlatVarsIn(g, order, m, keys);
    FlatVarsCells(ok, g, order, m, keys);
    var i :| 0 <= i < |r.pairs| && ReadAll(r.mem, r.pairs)[i] == kv;
    assert r.pairs[i] in r.pairs;
    FlatVarsAreLeaves(g, order, m, keys, r.pairs[i]);
  }

  // ---- as the source runs it ----

  /** The arrays behind the slices. */
  class Heap {
    var arrays: Memory

    constructor ()
      ensures arrays == []
    {
      arrays := [];
    }

    method AppendTo(g: Growth, s: Slice, k: string) returns (t: Slice)
      requires InMemory(arrays, s)
      modifies this
      ensures (arrays, t) == Append(g, old(arrays), s, k)
    {
      if s.Slice? && s.len < |arrays[s.base]| {
        arrays := arrays[s.base := arrays[s.base][s.len := k]];
        t := Slice(s.base, s.len + 1);
      } else {
        var held := if s.Slice? then arrays[s.base][..s.len] else [];
        var size := if g(|held|) > |held| then g(|held|) else |held| + 1;
        t := Slice(|arrays|, |held| + 1);
        arrays := arrays + [seq(size, i requires 0 <= i < size => if i < |held| then held[i] else k)];
      }
    }

    /** flatten; the slice of field names is passed on by value, its array is not. */
    method FlattenValue(g: Growth, order: Order, path: string, fields: Slice, value: Json) returns (flat: seq<RawPair>)
      requires InMemory(arrays, fields)
      modifies this
      ensures Flat(arrays, flat) == FlatValue(g, order, old(arrays), path, fields, value)
      decreases value
    {
      if !value.Obj? { return [RawPair(path, fields, value)]; }
      flat := [];
      var keys := order([path] + Content(arrays, fields), value.fields.Keys);
      for i := 0 to |keys|
        invariant InMemory(arrays, fields)
        invariant Flat(arrays, flat) == FlatKeys(g, order, old(arrays), path, fields, value, keys[..i])
      {
        assert keys[..i + 1][..i] == keys[..i];
        if keys[i] in value.fields {
          AppendFrame(g, arrays, fields, keys[i]);
          var longer := AppendTo(g, fields, keys[i]);
          var sub := FlattenValue(g, order, path, longer, value.fields[keys[i]]);
          flat := flat + sub;
        }
      }
      assert keys[..|keys|] == keys;
    }
  }

  method Flatten(g: Growth, order: Order, m: Vars) returns (flat: seq<KVPair>)
    ensures flat == Flattened(g, order, m)
  {
    var heap := new Heap();
    var raw: seq<RawPair> := [];
    var keys := order([], m.Keys);
    for i := 0 to |keys|
      invariant Flat(heap.arrays, raw) == FlatVars(g, order, m, keys[..i])
    {
      assert keys[..i + 1][..i] == keys[..i];
      if keys[i] in m {
        var sub := heap.FlattenValue(g, order, keys[i], NilSlice, m[keys[i]]);
        raw := raw + sub;
      }
    }
    assert keys[..|keys|] == keys;
    FlatVarsIn(g, order, m, keys);
    flat := ReadAll(heap.arrays, raw);
  }
}
