/** Instance vars as query parameters and back: flatten, print, sort; parse, sort, expand
    (atc/pipeline.go, vars/static_vars.go). */
module InstanceVars {
  import opened Wrappers
  import opened Steps
  import opened References
  import opened VarTrees
  import opened Flattening

  /** json.Marshal and json.Unmarshal of a value. */
  datatype Codec = Codec(marshal: Json -> string, unmarshal: string -> Option<Json>)

  ghost predicate LawfulCodec(c: Codec) {
    forall j :: c.unmarshal(c.marshal(j)) == Some(j)
  }

  /** sort.Slice over the printed references: all that matters is that it permutes. */
  type Sort = seq<KVPair> -> seq<KVPair>

  ghost predicate Permutes(sort: Sort) {
    forall s :: multiset(sort(s)) == multiset(s)
  }

  datatype QueryError = BadReference(e: ParseError) | BadValue

  function ParamKey(esc: Escape, r: Reference): string {
    "vars." + Print(esc, r)
  }

  /** Each pair has its key, and each key holds the value of a pair that has it. */
  ghost predicate IsParams(esc: Escape, c: Codec, pairs: seq<KVPair>, params: map<string, string>) {
    && (forall kv :: kv in pairs ==> ParamKey(esc, kv.ref) in params)
    && (forall key :: key in params ==>
          exists kv :: kv in pairs && key == ParamKey(esc, kv.ref) && params[key] == c.marshal(kv.value))
  }

  method QueryParams(g: Growth, order: Order, esc: Escape, c: Codec, sort: Sort, iv: Vars) returns (params: map<string, string>)
    requires Grows(g) && Lists(order) && Permutes(sort)
    ensures IsParams(esc, c, Flattened(g, order, iv), params)
    ensures SpacedVars(g, iv) ==>
              && (forall kv :: IsPairOf(iv, kv) ==> ParamKey(esc, kv.ref) in params)
              && (forall key :: key in params ==>
                    exists kv :: IsPairOf(iv, kv) && key == ParamKey(esc, kv.ref) && params[key] == c.marshal(kv.value))
  {
    params := map[];
    var flat := Flatten(g, order, iv);
    var sorted := sort(flat);
    for i := 0 to |sorted|
      invariant IsParams(esc, c, sorted[..i], params)
    {
      assert sorted[..i + 1] == sorted[..i] + [sorted[i]];
      ParamsNext(esc, c, sorted[..i], params, sorted[i]);
      params := params[ParamKey(esc, sorted[i].ref) := c.marshal(sorted[i].value)];
    }
    assert sorted[..|sorted|] == sorted;
    ParamsPermuted(esc, c, sorted, flat, params);
    if SpacedVars(g, iv) { SpacedEnumerates(g, order, iv); }
  }

  lemma ParamsNext(esc: Escape, c: Codec, pairs: seq<KVPair>, params: map<string, string>, kv: KVPair)
    requires IsParams(esc, c, pairs, params)
    ensures IsParams(esc, c, pairs + [kv], params[ParamKey(esc, kv.ref) := c.marshal(kv.value)])
  {
    var next := params[ParamKey(esc, kv.ref) := c.marshal(kv.value)];
    forall key | key in next
      ensures exists x :: x in pairs + [kv] && key == ParamKey(esc, x.ref) && next[key] == c.marshal(x.value)
    {
      if key == ParamKey(esc, kv.ref) {
        assert kv in pairs + [kv];
      } else {
        var x :| x in pairs && key == ParamKey(esc, x.ref) && params[key] == c.marshal(x.value);
        assert x in pairs + [kv];
      }
    }
  }

  lemma ParamsPermuted(esc: Escape, c: Codec, a: seq<KVPair>, b: seq<KVPair>, params: map<string, string>)
    requires multiset(a) == multiset(b) && IsParams(esc, c, a, params)
    ensures IsParams(esc, c, b, params)
  {
    assert forall kv :: kv in multiset(a) <==> kv in b;
    assert forall kv :: kv in a <==> kv in b;
  }

  predicate IsVarsKey(key: string) {
    key == "vars" || "vars." <= key
  }

  function DecodeParam(c: Codec, key: string, payload: string): Result<KVPair, QueryError> {
    match Parse(key)
    case Err(e) => Err(BadReference(e))
    case Ok(ref) =>
      match c.unmarshal(payload)
      case None => Err(BadValue)
      case Some(v) => Ok(KVPair(ref, v))
  }

  function FromPairs(pairs: seq<KVPair>): Vars {
    var all := Expand(pairs);
    if "vars" in all && all["vars"].Obj? then all["vars"].fields else map[]
  }

  /** `keys` lists the relevant parameters once each and `pairs` what they decode to. */
  ghost predicate Decodes(c: Codec, q: map<string, string>, keys: seq<string>, pairs: seq<KVPair>) {
    && Distinct(keys) && |pairs| == |keys|
    && (forall key :: key in keys <==> key in q && (key == "vars" || "vars." <= key))
    && (forall i :: 0 <= i < |keys| ==> keys[i] in q && DecodeParam(c, keys[i], q[keys[i]]) == Ok(pairs[i]))
  }

  /** The parameters are taken in any order; nil and the empty map are not told apart. */
  method InstanceVarsFromQueryParams(c: Codec, sort: Sort, q: map<string, string>)
    returns (r: Result<Vars, QueryError>, ghost keys: seq<string>, ghost pairs: seq<KVPair>)
    requires Permutes(sort)
    ensures r.Ok? ==> Decodes(c, q, keys, pairs) && r.value == FromPairs(sort(pairs))
    ensures r.Err? ==> exists key :: key in q && (key == "vars" || "vars." <= key) && DecodeParam(c, key, q[key]) == Err(r.error)
  {
    var kvPairs: seq<KVPair>, left := [], q.Keys;
    keys, pairs := [], [];
    while left != {}
      invariant left <= q.Keys && kvPairs == pairs && Distinct(keys) && |pairs| == |keys|
      invariant forall key :: key in keys <==> key in q.Keys - left && IsVarsKey(key)
      invariant forall i :: 0 <= i < |keys| ==> keys[i] in q && DecodeParam(c, keys[i], q[keys[i]]) == Ok(pairs[i])
    {
      var key :| key in left;
      left := left - {key};
      if IsVarsKey(key) {
        var kv := DecodeParam(c, key, q[key]);
        if kv.Err? {
          return Err(kv.error), keys, pairs;
        }
        DistinctSnoc(keys, key);
        kvPairs, keys, pairs := kvPairs + [kv.value], keys + [key], pairs + [kv.value];
      }
    }
    if |kvPairs| == 0 {
      EmptyPairs(sort);
      return Ok(map[]), keys, pairs;
    }
    var all := ExpandPairs(sort(kvPairs));
    r := Ok(if "vars" in all && all["vars"].Obj? then all["vars"].fields else map[]);
  }

  lemma EmptyPairs(sort: Sort)
    requires Permutes(sort)
    ensures FromPairs(sort([])) == map[]
  {
    var none: seq<KVPair> := [];
    assert |sort(none)| == |multiset(sort(none))| == |multiset(none)|;
  }

  /** Every key on the way to a leaf is one that printing and parsing keeps. */
  ghost predicate CanonicalKeys(esc: Escape, iv: Vars) {
    forall p, v, k :: LeafAt(Obj(iv), p, v) && k in p ==> CanonicalSegment(esc, k)
  }

  /** So is every key of the tree, on the way to a leaf or not. */
  ghost predicate CanonicalTree(esc: Escape, iv: Vars) {
    KeysAre(k => CanonicalSegment(esc, k), Obj(iv))
  }

  ghost predicate CanonicalPairs(esc: Escape, pairs: seq<KVPair>) {
    forall kv :: kv in pairs ==>
      kv.ref.source == "" && !kv.value.Obj? && forall seg :: seg in kv.ref.Segments() ==> CanonicalSegment(esc, seg)
  }

  lemma LeavesCanonical(esc: Escape, iv: Vars, pairs: seq<KVPair>)
    requires CanonicalKeys(esc, iv) && Enumerates(pairs, iv)
    ensures CanonicalPairs(esc, pairs)
  {
    forall kv | kv in pairs
      ensures kv.ref.source == "" && !kv.value.Obj? && forall seg :: seg in kv.ref.Segments() ==> CanonicalSegment(esc, seg)
    {
      assert IsPairOf(iv, kv);
    }
  }

  lemma TreeCanonical(g: Growth, order: Order, esc: Escape, iv: Vars)
    requires CanonicalTree(esc, iv)
    ensures CanonicalPairs(esc, Flattened(g, order, iv))
  {
    forall kv | kv in Flattened(g, order, iv)
      ensures kv.ref.source == "" && !kv.value.Obj? && forall seg :: seg in kv.ref.Segments() ==> CanonicalSegment(esc, seg)
    {
      FlattenedKeys(k => CanonicalSegment(esc, k), g, order, iv, kv);
    }
  }

  lemma VarsSegment(esc: Escape)
    ensures CanonicalSegment(esc, "vars") && PrintSegment(esc, "vars") == "vars"
  {
    assert forall c :: c in "vars" ==> c in {'v', 'a', 'r', 's'};
    assert "vars"[0] == 'v' && "vars"[3] == 's';
  }

  lemma VarsDot(s: string)
    ensures "vars" + ("." + s) == "vars." + s && "vars." <= "vars." + s
  {
    ConcatAssoc("vars", ".", s);
  }

  lemma ParamKeyIsPrint(esc: Escape, r: Reference)
    requires r.source == "" && PrintSegment(esc, "vars") == "vars"
    ensures Print(esc, Reference("", "vars", r.Segments())) == ParamKey(esc, r) && IsVarsKey(ParamKey(esc, r))
  {
    var segments, path := r.Segments(), PrintPath(esc, r);
    assert segments[0] == r.path && segments[1..] == r.fields;
    assert PrintFields(esc, segments) == "." + path;
    VarsDot(path);
  }

  /** The key of a pair parses to its reference with `vars` in front. */
  lemma ParamKeyParses(esc: Escape, pairs: seq<KVPair>, kv: KVPair)
    requires Lawful(esc) && CanonicalPairs(esc, pairs) && kv in pairs
    ensures IsVarsKey(ParamKey(esc, kv.ref))
    ensures Parse(ParamKey(esc, kv.ref)) == Ok(Reference("", "vars", kv.ref.Segments()))
  {
    var long := Reference("", "vars", kv.ref.Segments());
    VarsSegment(esc);
    forall seg | seg in long.Segments() ensures CanonicalSegment(esc, seg) {
      if seg != "vars" { assert seg in kv.ref.Segments(); }
    }
    RoundTrip(esc, long);
    ParamKeyIsPrint(esc, kv.ref);
  }

  function Lift(kv: KVPair): KVPair {
    KVPair(Reference("", "vars", kv.ref.Segments()), kv.value)
  }

  lemma LiftPair(iv: Vars, kv: KVPair)
    requires IsPairOf(iv, kv)
    ensures IsPairOf(map["vars" := Obj(iv)], Lift(kv))
  {
    assert Lift(kv).ref.Segments()[1..] == kv.ref.Segments();
  }

  lemma UnliftPair(iv: Vars, x: KVPair) returns (kv: KVPair)
    requires IsPairOf(map["vars" := Obj(iv)], x)
    ensures IsPairOf(iv, kv) && x == Lift(kv)
  {
    var segs := x.ref.Segments();
    assert segs[0] == "vars" && segs[1..] == x.ref.fields;
    assert At(Obj(iv), x.ref.fields) == Some(x.value);
    kv := KVPair(Reference("", x.ref.fields[0], x.ref.fields[1..]), x.value);
    assert kv.ref.Segments() == x.ref.fields;
  }

  lemma LiftInjective(a: KVPair, b: KVPair)
    requires a.ref.source == b.ref.source && Lift(a) == Lift(b)
    ensures a == b
  {
    SegmentsInjective(a.ref, b.ref);
  }

  lemma ParamDecodes(esc: Escape, c: Codec, pairs: seq<KVPair>, params: map<string, string>, key: string) returns (kv: KVPair)
    requires Lawful(esc) && LawfulCodec(c) && CanonicalPairs(esc, pairs)
    requires IsParams(esc, c, pairs, params) && key in params
    ensures kv in pairs && key == ParamKey(esc, kv.ref) && IsVarsKey(key)
    ensures DecodeParam(c, key, params[key]) == Ok(Lift(kv))
  {
    kv :| kv in pairs && key == ParamKey(esc, kv.ref) && params[key] == c.marshal(kv.value);
    ParamKeyParses(esc, pairs, kv);
  }

  /** What the parameters decode to lists the leaves of the tree put under `vars`. */
  lemma DecodedPairs(esc: Escape, c: Codec, iv: Vars, pairs: seq<KVPair>, params: map<string, string>,
                     keys: seq<string>, decoded: seq<KVPair>)
    requires Lawful(esc) && LawfulCodec(c) && CanonicalPairs(esc, pairs)
    requires Enumerates(pairs, iv) && IsParams(esc, c, pairs, params)
    requires Decodes(c, params, keys, decoded)
    ensures Enumerates(decoded, map["vars" := Obj(iv)])
  {
    var m := map["vars" := Obj(iv)];
    forall i, j | 0 <= i < j < |decoded|
      ensures decoded[i] != decoded[j]
    {
      var a := ParamDecodes(esc, c, pairs, params, keys[i]);
      var b := ParamDecodes(esc, c, pairs, params, keys[j]);
      if decoded[i] == decoded[j] { LiftInjective(a, b); }
    }
    forall x
      ensures x in decoded <==> IsPairOf(m, x)
    {
      if i :| 0 <= i < |decoded| && decoded[i] == x {
        var kv := ParamDecodes(esc, c, pairs, params, keys[i]);
        LiftPair(iv, kv);
      }
      if IsPairOf(m, x) {
        var kv := UnliftPair(iv, x);
        var key := ParamKey(esc, kv.ref);
        assert kv in pairs;
        var kv' := ParamDecodes(esc, c, pairs, params, key);
        ParamKeyParses(esc, pairs, kv);
        ParamKeyParses(esc, pairs, kv');
        LeavesApart(Obj(iv), kv.ref.Segments(), kv.value, kv'.ref.Segments(), kv'.value);
        var i :| 0 <= i < |keys| && keys[i] == key;
        assert decoded[i] == x;
      }
    }
  }

  /** A leaf that no pair holds is not in what the decoded pairs expand to. */
  lemma LostStaysLost(esc: Escape, c: Codec, pairs: seq<KVPair>, params: map<string, string>, keys: seq<string>,
                      decoded: seq<KVPair>, sorted: seq<KVPair>, lost: KVPair)
    requires Lawful(esc) && LawfulCodec(c) && CanonicalPairs(esc, pairs) && IsParams(esc, c, pairs, params)
    requires Decodes(c, params, keys, decoded) && multiset(sorted) == multiset(decoded)
    requires lost.ref.source == "" && lost !in pairs
    ensures !LeafAt(Obj(FromPairs(sorted)), lost.ref.Segments(), lost.value)
  {
    var all, segs := Expand(sorted), lost.ref.Segments();
    assert forall x :: x in sorted <==> x in multiset(decoded);
    forall x | x in sorted ensures !x.value.Obj? && x != Lift(lost) {
      var i :| 0 <= i < |decoded| && decoded[i] == x;
      var kv := ParamDecodes(esc, c, pairs, params, keys[i]);
      if x == Lift(lost) { LiftInjective(kv, lost); }
    }
    if LeafAt(Obj(FromPairs(sorted)), segs, lost.value) {
      assert "vars" in all;
      LeafBelow(Obj(all), "vars", segs, lost.value);
      ExpandOnly(sorted, ["vars"] + segs, lost.value);
      var x :| x in sorted && x.ref.Segments() == ["vars"] + segs && x.value == lost.value;
      var i :| 0 <= i < |decoded| && decoded[i] == x;
      var kv := ParamDecodes(esc, c, pairs, params, keys[i]);
      SegmentsInjective(x.ref, Lift(lost).ref);
    }
  }

  lemma UnderVars(iv: Vars, pairs: seq<KVPair>)
    requires Enumerates(pairs, map["vars" := Obj(iv)])
    ensures FromPairs(pairs) == PruneVars(iv)
  {
    var m := map["vars" := Obj(iv)];
    ExpandUndoesFlatten(m, pairs);
    assert Prune(Obj(iv)) == Obj(PruneVars(iv));
    if Vanishes(Obj(iv)) {
      assert "vars" !in PruneVars(m);
      assert PruneVars(iv) == map[];
    } else {
      assert "vars" in PruneVars(m);
    }
  }

  /** The round trip a browser makes.  The query parameters of an instanced pipeline give
      back its instance vars, less any empty nested maps, exactly when the flattened
      pairs are its leaves; by FlattenExact that is so for every order the maps may be
      walked in exactly when no map is crowded. */
  method QueryRoundTrip(g: Growth, order: Order, esc: Escape, c: Codec, sort: Sort, iv: Vars)
    returns (r: Result<Vars, QueryError>)
    requires Grows(g) && Lists(order) && Lawful(esc) && LawfulCodec(c) && Permutes(sort) && CanonicalKeys(esc, iv)
    ensures SpacedVars(g, iv) ==> r == Ok(PruneVars(iv)) && (r == Ok(iv) <==> FullVars(iv))
    ensures Enumerates(Flattened(g, order, iv), iv) ==> r == Ok(PruneVars(iv))
    ensures CanonicalTree(esc, iv) && !Enumerates(Flattened(g, order, iv), iv) ==> r.Ok? && r.value != PruneVars(iv)
  {
    var params := QueryParams(g, order, esc, c, sort, iv);
    ghost var keys, decoded;
    r, keys, decoded := InstanceVarsFromQueryParams(c, sort, params);
    ghost var pairs := Flattened(g, order, iv);
    if SpacedVars(g, iv) { SpacedEnumerates(g, order, iv); }
    if Enumerates(pairs, iv) {
      LeavesCanonical(esc, iv, pairs);
      AllDecode(esc, c, pairs, params);
      DecodedPairs(esc, c, iv, pairs, params, keys, decoded);
      Permuted(sort(decoded), decoded);
      UnderVars(iv, sort(decoded));
      PruneIdentity(iv);
    } else if CanonicalTree(esc, iv) {
      TreeCanonical(g, order, esc, iv);
      AllDecode(esc, c, pairs, params);
      ghost var lost := SomeLeafIsLost(g, order, iv);
      LostStaysLost(esc, c, pairs, params, keys, decoded, sort(decoded), lost);
      PruneKeepsLeaves(Obj(iv), lost.ref.Segments(), lost.value);
      assert Prune(Obj(iv)) == Obj(PruneVars(iv));
    }
  }

  lemma AllDecode(esc: Escape, c: Codec, pairs: seq<KVPair>, params: map<string, string>)
    requires Lawful(esc) && LawfulCodec(c) && CanonicalPairs(esc, pairs) && IsParams(esc, c, pairs, params)
    ensures forall key :: key in params ==> DecodeParam(c, key, params[key]).Ok?
  {
    forall key | key in params ensures DecodeParam(c, key, params[key]).Ok? {
      var _ := ParamDecodes(esc, c, pairs, params, key);
    }
  }
}
