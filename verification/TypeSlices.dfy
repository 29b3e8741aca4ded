/** The resource types of a pipeline as stored, the slice of them a resource needs
    (Filter) and their conversion to plan types (Deserialize): atc/db/resource_type.go. */
module TypeSlices {
  import opened Wrappers
  import opened Steps
  import opened Plans
  import opened Images

  /** A stored resource type; `id` is its identity. */
  datatype DbType = DbType(
    id: int, pipelineID: int, name: string, parent: string, privileged: bool,
    source: Source, defaults: Source, params: Json, tags: Tags, checkEvery: Option<CheckEvery>)

  /** What is checked: a resource type itself, or anything else that has a type. */
  datatype Checkable = OfType(t: DbType) | Other(pipeline: int, kind: string) {
    function Pipeline(): int { if OfType? then t.pipelineID else pipeline }
    function Kind(): string { if OfType? then t.parent else kind }
  }

  function Parent(types: seq<DbType>, c: Checkable): Option<DbType> {
    if types == [] then None
    else if types[0].pipelineID == c.Pipeline() && OfType(types[0]) != c && types[0].name == c.Kind() then Some(types[0])
    else Parent(types[1..], c)
  }

  lemma {:induction false} ParentIs(types: seq<DbType>, c: Checkable)
    ensures match Parent(types, c)
            case None => forall t :: t in types ==> !(t.pipelineID == c.Pipeline() && OfType(t) != c && t.name == c.Kind())
            case Some(t) => t in types && t.pipelineID == c.Pipeline() && OfType(t) != c && t.name == c.Kind()
  {
    if types != [] {
      ParentIs(types[1..], c);
    }
  }

  ghost predicate IsParent(t: DbType, c: Checkable) {
    t.pipelineID == c.Pipeline() && OfType(t) != c && t.name == c.Kind()
  }

  /** It is the one at the first place that qualifies. */
  lemma {:induction false} ParentFirst(types: seq<DbType>, c: Checkable, i: nat)
    requires i <= |types| && (i < |types| ==> IsParent(types[i], c)) && forall k :: 0 <= k < i ==> !IsParent(types[k], c)
    ensures Parent(types, c) == if i < |types| then Some(types[i]) else None
  {
    if i > 0 { ParentFirst(types[1..], c, i - 1); }
  }

  /** The n-th ancestor. */
  function Ancestor(types: seq<DbType>, c: Checkable, n: nat): Option<DbType>
    decreases n
  {
    if n == 0 then (if c.OfType? then Some(c.t) else None)
    else match Parent(types, c)
      case None => None
      case Some(t) => if n == 1 then Some(t) else Ancestor(types, OfType(t), n - 1)
  }

  /** No ancestor of `c` is its own ancestor. */
  ghost predicate NoCycle(types: seq<DbType>, c: Checkable) {
    forall n, m, t :: n >= 1 && m >= 1 && Ancestor(types, c, n) == Some(t) ==> Ancestor(types, OfType(t), m) != Some(t)
  }

  /** `chain` is parent after parent, from `c` to a type without one. */
  ghost predicate IsChain(types: seq<DbType>, c: Checkable, chain: seq<DbType>) {
    && (forall i :: 0 <= i < |chain| ==> Ancestor(types, c, i + 1) == Some(chain[i]))
    && Ancestor(types, c, |chain| + 1) == None
  }

  lemma {:induction false} AncestorAdds(types: seq<DbType>, c: Checkable, n: nat, m: nat, t: DbType)
    requires n >= 1 && m >= 1 && Ancestor(types, c, n) == Some(t)
    ensures Ancestor(types, c, n + m) == Ancestor(types, OfType(t), m)
    decreases n
  {
    if n > 1 {
      AncestorAdds(types, OfType(Parent(types, c).value), n - 1, m, t);
    }
  }

  lemma {:induction false} NoneAbove(types: seq<DbType>, c: Checkable, n: nat, m: nat)
    requires n >= 1 && Ancestor(types, c, n) == None
    ensures Ancestor(types, c, n + m) == None
    decreases n
  {
    if n > 1 && Parent(types, c).Some? {
      NoneAbove(types, OfType(Parent(types, c).value), n - 1, m);
    }
  }

  /** The walk up the types ends only if there is no cycle above `c` ... */
  lemma ChainExcludesCycle(types: seq<DbType>, c: Checkable, chain: seq<DbType>)
    requires IsChain(types, c, chain)
    ensures NoCycle(types, c)
  {
    forall n, m, t | n >= 1 && m >= 1 && Ancestor(types, c, n) == Some(t)
      ensures Ancestor(types, OfType(t), m) != Some(t)
    {
      if Ancestor(types, OfType(t), m) == Some(t) {
        var k := |chain| + 1;
        GoesRound(types, c, n, m, t, k);
        assert k * m >= k;
        NoneAbove(types, c, k, n + k * m - k);
      }
    }
  }

  lemma {:induction false} GoesRound(types: seq<DbType>, c: Checkable, n: nat, m: nat, t: DbType, k: nat)
    requires n >= 1 && m >= 1 && Ancestor(types, c, n) == Some(t) && Ancestor(types, OfType(t), m) == Some(t)
    ensures Ancestor(types, c, n + k * m) == Some(t)
    decreases k
  {
    if k > 0 {
      AncestorAdds(types, c, n, m, t);
      GoesRound(types, c, n + m, m, t, k - 1);
      assert n + m + (k - 1) * m == n + k * m;
    }
  }

  lemma NoRepeat(types: seq<DbType>, c: Checkable, seen: seq<DbType>)
    requires NoCycle(types, c)
    requires forall i :: 0 <= i < |seen| ==> Ancestor(types, c, i + 1) == Some(seen[i])
    ensures Distinct(seen)
  {
    forall i, j | 0 <= i < j < |seen|
      ensures seen[i] != seen[j]
    {
      AncestorAdds(types, c, i + 1, j - i, seen[i]);
      assert i + 1 + (j - i) == j + 1;
    }
  }

  /** ... and if there is none, Filter ends with exactly that chain. */
  method Filter(types: seq<DbType>, c: Checkable) returns (result: seq<DbType>)
    requires NoCycle(types, c)
    ensures IsChain(types, c, result)
  {
    result := [];
    var cur := c;
    while true
      invariant forall i :: 0 <= i < |result| ==> Ancestor(types, c, i + 1) == Some(result[i]) && result[i] in types
      invariant if result == [] then cur == c else cur == OfType(result[|result| - 1])
      decreases |types| - |result|
    {
      if result != [] {
        AncestorAdds(types, c, |result|, 1, result[|result| - 1]);
      }
      var parent := Parent(types, cur);
      assert parent == Ancestor(types, c, |result| + 1);
      if parent.None? { return; }
      ParentIs(types, cur);
      result := result + [parent.value];
      NoRepeat(types, c, result);
      Fits(result, types);
      cur := OfType(parent.value);
    }
  }

  lemma Fits<T>(part: seq<T>, all: seq<T>)
    requires Distinct(part) && forall x :: x in part ==> x in all
    ensures |part| <= |all|
  {
    DistinctSize(part);
    SubsetSize(ToSet(part), ToSet(all));
    SetSize(all);
  }

  lemma {:induction false} SetSize<T>(s: seq<T>)
    ensures |ToSet(s)| <= |s|
  {
    if s != [] {
      SetSize(s[..|s| - 1]);
      assert ToSet(s) == ToSet(s[..|s| - 1]) + {s[|s| - 1]};
    }
  }

  // ---- Deserialize ----

  function DeserializeOne(types: seq<DbType>, baseDefaults: map<string, Source>, t: DbType): ResourceType {
    var source := match Parent(types, OfType(t))
                  case Some(p) => Merge(p.defaults, t.source)
                  case None => if t.parent in baseDefaults then Merge(baseDefaults[t.parent], t.source) else t.source;
    ResourceType(t.name, t.parent, source, t.defaults, t.privileged, t.checkEvery, t.tags, t.params)
  }

  function Deserialize(types: seq<DbType>, baseDefaults: map<string, Source>): Types {
    seq(|types|, i requires 0 <= i < |types| => DeserializeOne(types, baseDefaults, types[i]))
  }

  method DeserializeTypes(types: seq<DbType>, baseDefaults: map<string, Source>) returns (r: Types)
    ensures r == Deserialize(types, baseDefaults)
  {
    r := [];
    for i := 0 to |types|
      invariant r == Deserialize(types, baseDefaults)[..i]
    {
      var t, source := types[i], types[i].source;
      var parentType := Parent(types, OfType(t));
      if parentType.Some? {
        source := Merge(parentType.value.defaults, source);
      } else if t.parent in baseDefaults {
        source := Merge(baseDefaults[t.parent], source);
      }
      r := r + [ResourceType(t.name, t.parent, source, t.defaults, t.privileged, t.checkEvery, t.tags, t.params)];
    }
  }

  /** Each type keeps all it has, with its own source over the defaults of its parent type
      or else of its base type. */
  lemma DeserializedSource(types: seq<DbType>, baseDefaults: map<string, Source>, i: nat)
    requires i < |types|
    ensures var t, r := types[i], Deserialize(types, baseDefaults)[i];
            var defaults := match Parent(types, OfType(t))
                            case Some(p) => p.defaults
                            case None => if t.parent in baseDefaults then baseDefaults[t.parent] else map[];
            && IsOverlay(r.source, defaults, t.source)
            && r == ResourceType(t.name, t.parent, r.source, t.defaults, t.privileged, t.checkEvery, t.tags, t.params)
    ensures |Deserialize(types, baseDefaults)| == |types|
  {
    var t := types[i];
    match Parent(types, OfType(t))
    case Some(p) => MergeOverlays(p.defaults, t.source);
    case None => if t.parent in baseDefaults { MergeOverlays(baseDefaults[t.parent], t.source); }
  }

  // ---- the slice plans the same image ----

  /** Two lists lead to the same types from `name` upwards. */
  ghost predicate Agree(a: Types, b: Types, name: string)
    decreases |a|
  {
    && Lookup(a, name) == Lookup(b, name)
    && (Lookup(a, name).Some? ==>
          (WithoutShrinks(a, name); Agree(Without(a, name), Without(b, name), Lookup(a, name).value.parent)))
  }

  lemma {:induction false} AgreeSameImage(a: Types, b: Types, name: string, id: PlanID, tags: Tags, skip: bool)
    requires Agree(a, b, name)
    ensures ImageForType(a, id, name, tags, skip) == ImageForType(b, id, name, tags, skip)
    decreases |a|
  {
    if Lookup(a, name).Some? {
      LookupName(a, name);
      WithoutShrinks(a, name);
      var t := Lookup(a, name).value;
      var tags' := if |t.tags| == 0 then tags else t.tags;
      AgreeSameImage(Without(a, name), Without(b, name), t.parent, id + "/image-get", tags', skip);
      AgreeSameImage(Without(a, name), Without(b, name), t.parent, id + "/image-check", tags', skip);
    }
  }

  ghost predicate OnePipeline(types: seq<DbType>, c: Checkable) {
    forall t :: t in types ==> t.pipelineID == c.Pipeline()
  }

  ghost predicate UniqueNames(types: seq<DbType>) {
    forall i, j :: 0 <= i < j < |types| ==> types[i].name != types[j].name
  }

  lemma {:induction false} LookupUnique(types: Types, i: nat)
    requires i < |types| && forall k :: 0 <= k < |types| && k != i ==> types[k].name != types[i].name
    ensures Lookup(types, types[i].name) == Some(types[i])
  {
    if i > 0 {
      LookupUnique(types[1..], i - 1);
    }
  }

  lemma {:induction false} LookupMissing(types: Types, name: string)
    requires forall k :: 0 <= k < |types| ==> types[k].name != name
    ensures Lookup(types, name) == None
  {
    if types != [] {
      LookupMissing(types[1..], name);
    }
  }

  /** The parent of a chain element is the next one, in the full list and in the chain. */
  lemma ChainParents(types: seq<DbType>, c: Checkable, chain: seq<DbType>, i: nat)
    requires UniqueNames(types) && OnePipeline(types, c) && IsChain(types, c, chain) && i < |chain|
    ensures chain[i] in types
    ensures Parent(types, OfType(chain[i])) == if i + 1 < |chain| then Some(chain[i + 1]) else None
  {
    AncestorAdds(types, c, i + 1, 1, chain[i]);
    assert i + 1 + 1 == (i + 1) + 1;
    AncestorMember(types, c, i + 1);
  }

  lemma {:induction false} AncestorMember(types: seq<DbType>, c: Checkable, n: nat)
    requires n >= 1 && Ancestor(types, c, n).Some?
    ensures Ancestor(types, c, n).value in types
    decreases n
  {
    ParentIs(types, c);
    if n > 1 {
      AncestorMember(types, OfType(Parent(types, c).value), n - 1);
    }
  }

  function RemoveAll(types: Types, names: seq<string>): Types {
    if names == [] then types else Without(RemoveAll(types, names[..|names| - 1]), names[|names| - 1])
  }

  lemma {:induction false} LookupRemoveAll(types: Types, names: seq<string>, name: string)
    ensures Lookup(RemoveAll(types, names), name) == if name in names then None else Lookup(types, name)
  {
    if names != [] {
      var front, last := names[..|names| - 1], names[|names| - 1];
      assert names == front + [last];
      LookupRemoveAll(types, front, name);
      LookupWithout(RemoveAll(types, front), last, name);
    }
  }

  /** Everything the slicing argument assumes: one pipeline, names used once, and
      `chain` the result of Filter. */
  ghost predicate Sliced(types: seq<DbType>, c: Checkable, chain: seq<DbType>) {
    UniqueNames(types) && OnePipeline(types, c) && IsChain(types, c, chain)
  }

  lemma SameName(types: seq<DbType>, a: DbType, b: DbType)
    requires UniqueNames(types) && a in types && b in types && a.name == b.name
    ensures a == b
  {
  }

  lemma ChainNames(types: seq<DbType>, c: Checkable, chain: seq<DbType>, i: nat, j: nat)
    requires Sliced(types, c, chain) && i < j < |chain|
    ensures chain[i].name != chain[j].name
  {
    ChainExcludesCycle(types, c, chain);
    NoRepeat(types, c, chain);
    ChainParents(types, c, chain, i);
    ChainParents(types, c, chain, j);
    if chain[i].name == chain[j].name { SameName(types, chain[i], chain[j]); }
  }

  lemma ChainSameDefaults(types: seq<DbType>, c: Checkable, chain: seq<DbType>, i: nat)
    requires Sliced(types, c, chain) && i < |chain|
    ensures Parent(chain, OfType(chain[i])) == Parent(types, OfType(chain[i]))
  {
    ChainParents(types, c, chain, i);
    ParentIs(types, OfType(chain[i]));
    ParentIs(chain, OfType(chain[i]));
    var t := Parent(chain, OfType(chain[i]));
    assert i + 1 < |chain| ==> chain[i + 1] in chain;
    if t.Some? {
      var k :| 0 <= k < |chain| && chain[k] == t.value;
      ChainParents(types, c, chain, k);
      if i + 1 < |chain| { SameName(types, t.value, chain[i + 1]); }
    }
  }

  /** The type looked up in step `i` of the chain. */
  function Wanted(c: Checkable, chain: seq<DbType>, i: nat): string
    requires i <= |chain|
  {
    if i == 0 then c.Kind() else chain[i - 1].parent
  }

  lemma ChainLookup(types: seq<DbType>, base: map<string, Source>, c: Checkable, chain: seq<DbType>, i: nat)
    requires Sliced(types, c, chain) && i < |chain|
    ensures Wanted(c, chain, i) == chain[i].name
    ensures Lookup(Deserialize(types, base), chain[i].name) == Some(DeserializeOne(types, base, chain[i]))
    ensures Lookup(Deserialize(chain, base), chain[i].name) == Some(DeserializeOne(types, base, chain[i]))
  {
    ChainParents(types, c, chain, i);
    if i == 0 { ParentIs(types, c); } else { ChainParents(types, c, chain, i - 1); ParentIs(types, OfType(chain[i - 1])); }
    var k :| 0 <= k < |types| && types[k] == chain[i];
    LookupUnique(Deserialize(types, base), k);
    forall j | 0 <= j < |chain| && j != i ensures chain[j].name != chain[i].name {
      if j < i { ChainNames(types, c, chain, j, i); } else { ChainNames(types, c, chain, i, j); }
    }
    LookupUnique(Deserialize(chain, base), i);
    ChainSameDefaults(types, c, chain, i);
  }

  /** `c` is a resource type that overrides the type of its own name. */
  predicate SelfTyped(types: seq<DbType>, c: Checkable) {
    c.OfType? && c.t in types && c.t.name == c.t.parent
  }

  lemma ChainEnd(types: seq<DbType>, c: Checkable, chain: seq<DbType>, name: string)
    requires Sliced(types, c, chain) && !SelfTyped(types, c) && name == Wanted(c, chain, |chain|)
    ensures forall t :: t in types && t.name == name ==> t in chain
  {
    var last := if chain == [] then c else OfType(chain[|chain| - 1]);
    if chain != [] { ChainParents(types, c, chain, |chain| - 1); }
    ParentIs(types, last);
  }

  function NamesOf(chain: seq<DbType>): seq<string> {
    seq(|chain|, i requires 0 <= i < |chain| => chain[i].name)
  }

  lemma {:induction false} ChainAgrees(types: seq<DbType>, base: map<string, Source>, c: Checkable, chain: seq<DbType>, i: nat)
    requires Sliced(types, c, chain) && !SelfTyped(types, c) && i <= |chain|
    ensures var gone := NamesOf(chain)[..i];
            Agree(RemoveAll(Deserialize(types, base), gone), RemoveAll(Deserialize(chain, base), gone), Wanted(c, chain, i))
    decreases |chain| - i
  {
    var full, slice, gone := Deserialize(types, base), Deserialize(chain, base), NamesOf(chain)[..i];
    var name := Wanted(c, chain, i);
    LookupRemoveAll(full, gone, name);
    LookupRemoveAll(slice, gone, name);
    if i < |chain| {
      ChainLookup(types, base, c, chain, i);
      forall j | 0 <= j < i ensures gone[j] != name { ChainNames(types, c, chain, j, i); }
      ChainAgrees(types, base, c, chain, i + 1);
      var next := NamesOf(chain)[..i + 1];
      assert next[..|next| - 1] == gone && next[|next| - 1] == name;
    } else {
      ChainEnd(types, c, chain, name);
      if name !in gone {
        forall t | t in types ensures t.name != name {
          if t in chain { var k :| 0 <= k < |chain| && chain[k] == t; assert gone[k] == t.name; }
        }
        forall k | 0 <= k < |chain| ensures chain[k].name != name { ChainParents(types, c, chain, k); }
        LookupMissing(full, name);
        LookupMissing(slice, name);
      }
    }
  }

  /** The chain is enough: planning an image from it and from all the types of the
      pipeline gives the same plan, unless `c` is a type that overrides its own name. */
  lemma SlicePlansSameImage(types: seq<DbType>, base: map<string, Source>, c: Checkable, chain: seq<DbType>,
                            id: PlanID, tags: Tags, skip: bool)
    requires Sliced(types, c, chain)
    ensures ImageForType(Deserialize(chain, base), id, c.Kind(), tags, skip)
         == ImageForType(Deserialize(types, base), id, c.Kind(), tags, skip)
         <==> !SelfTyped(types, c)
  {
    var full, slice := Deserialize(types, base), Deserialize(chain, base);
    if SelfTyped(types, c) {
      SelfTypedEnds(types, c, chain);
      var k :| 0 <= k < |types| && types[k] == c.t;
      LookupUnique(full, k);
    } else {
      ChainAgrees(types, base, c, chain, 0);
      assert NamesOf(chain)[..0] == [];
      AgreeSameImage(full, slice, c.Kind(), id, tags, skip);
    }
  }

  lemma SelfTypedEnds(types: seq<DbType>, c: Checkable, chain: seq<DbType>)
    requires Sliced(types, c, chain) && SelfTyped(types, c)
    ensures chain == []
  {
    assert chain != [] ==> Ancestor(types, c, 0 + 1) == Some(chain[0]);
    ParentIs(types, c);
    if Parent(types, c).Some? { SameName(types, Parent(types, c).value, c.t); }
  }
}
