/** The order of a resource's versions: check_order values in one resource config scope
    (atc/db/resource_config_scope.go, atc/db/build.go).

    A row is identified by its version, whose digest is unique in the scope. */
module VersionOrder {
  import opened Wrappers

  type Version = map<string, string>

  /** check_order of every saved version of the scope. */
  type Orders = map<Version, nat>

  /** In committed states the orders are positive and no two versions share one. */
  ghost predicate Ordered(m: Orders) {
    && (forall v :: v in m ==> m[v] > 0)
    && (forall v, w :: v in m && w in m && v != w ==> m[v] != m[w])
  }

  function MaxOrder(m: Orders): nat {
    if m.Values == {} then 0 else Max(m.Values)
  }

  lemma MaxOrderBounds(m: Orders)
    ensures forall v :: v in m ==> m[v] <= MaxOrder(m)
    ensures m != map[] ==> exists v :: v in m && m[v] == MaxOrder(m)
  {
    forall v | v in m ensures m[v] <= MaxOrder(m) { assert m[v] in m.Values; }
    if m != map[] {
      var v :| v in m;
      assert m[v] in m.Values;
    }
  }

  lemma MaxOrderIs(m: Orders, n: nat)
    requires (forall v :: v in m ==> m[v] <= n) && (n > 0 ==> exists v :: v in m && m[v] == n)
    ensures MaxOrder(m) == n
  {
    MaxOrderBounds(m);
    if n > 0 { var v :| v in m && m[v] == n; }
  }

  // ---- the two statements ----

  /** Saving a version that is not there yet gives it order 0. */
  function Upsert(m: Orders, v: Version): Orders {
    if v in m then m else m[v := 0]
  }

  function UpsertAll(m: Orders, vs: seq<Version>): Orders {
    if vs == [] then m else Upsert(UpsertAll(m, vs[..|vs| - 1]), vs[|vs| - 1])
  }

  function Bump(m: Orders, v: Version): Orders {
    if v in m && m[v] <= MaxOrder(m) then m[v := MaxOrder(m) + 1] else m
  }

  function BumpAll(m: Orders, vs: seq<Version>): Orders {
    if vs == [] then m else Bump(BumpAll(m, vs[..|vs| - 1]), vs[|vs| - 1])
  }

  ghost predicate HasNew(m: Orders, vs: seq<Version>) {
    exists v :: v in vs && v !in m
  }

  /** The table after a successful saveVersions. */
  ghost function Saved(m: Orders, vs: seq<Version>): Orders {
    if HasNew(m, vs) then BumpAll(UpsertAll(m, vs), vs) else m
  }

  /** The table after a successful SaveOutput of one version. */
  function SavedOutput(m: Orders, v: Version): Orders {
    if v in m then m else Bump(m[v := 0], v)
  }

  function LastIndex(vs: seq<Version>, v: Version): (i: nat)
    requires v in vs
    ensures i < |vs| && vs[i] == v && v !in vs[i + 1..]
  {
    if vs[|vs| - 1] == v then |vs| - 1 else LastIndex(vs[..|vs| - 1], v)
  }

  // ---- what they do ----

  lemma {:induction false} UpsertAllAt(m: Orders, vs: seq<Version>)
    ensures var n := UpsertAll(m, vs);
            && (forall v :: v in n <==> v in m || v in vs)
            && (forall v :: v in n ==> n[v] == if v in m then m[v] else 0)
  {
    if vs != [] {
      UpsertAllAt(m, vs[..|vs| - 1]);
      assert vs == vs[..|vs| - 1] + [vs[|vs| - 1]];
    }
  }

  lemma BumpAt(m: Orders, v: Version)
    requires v in m
    ensures Bump(m, v) == m[v := MaxOrder(m) + 1] && MaxOrder(Bump(m, v)) == MaxOrder(m) + 1
  {
    MaxOrderBounds(m);
    var n := Bump(m, v);
    assert n[v] == MaxOrder(m) + 1;
    MaxOrderIs(n, MaxOrder(m) + 1);
  }

  lemma LastIndexSnoc(vs: seq<Version>, x: Version, v: Version)
    requires v in vs + [x]
    ensures v == x ==> LastIndex(vs + [x], v) == |vs|
    ensures v != x ==> v in vs && LastIndex(vs + [x], v) == LastIndex(vs, v)
  {
    assert (vs + [x])[..|vs|] == vs;
  }

  /** Bumping a list raises each listed version above all that was there, to the place of
      its last occurrence. */
  lemma {:induction false} BumpAllAt(m: Orders, vs: seq<Version>)
    requires forall v :: v in vs ==> v in m
    ensures var n := BumpAll(m, vs);
            && n.Keys == m.Keys
            && (forall v :: v in m && v !in vs ==> n[v] == m[v])
            && (forall v :: v in vs ==> n[v] == MaxOrder(m) + 1 + LastIndex(vs, v))
            && MaxOrder(n) == MaxOrder(m) + |vs|
  {
    if vs != [] {
      var front, x := vs[..|vs| - 1], vs[|vs| - 1];
      assert vs == front + [x];
      BumpAllAt(m, front);
      BumpAt(BumpAll(m, front), x);
      forall v | v in vs
        ensures BumpAll(m, vs)[v] == MaxOrder(m) + 1 + LastIndex(vs, v)
      {
        LastIndexSnoc(front, x, v);
      }
    }
  }

  lemma UpsertKeepsMax(m: Orders, vs: seq<Version>)
    ensures MaxOrder(UpsertAll(m, vs)) == MaxOrder(m)
  {
    UpsertAllAt(m, vs);
    MaxOrderBounds(m);
    var n := UpsertAll(m, vs);
    if MaxOrder(m) > 0 {
      var v :| v in m && m[v] == MaxOrder(m);
      assert v in n && n[v] == MaxOrder(m);
    }
    MaxOrderIs(n, MaxOrder(m));
  }

  // ---- main results ----

  /** Every order after a save that saw a new version. */
  lemma SavedAt(m: Orders, vs: seq<Version>)
    requires HasNew(m, vs)
    ensures var n := Saved(m, vs);
            && (forall v :: v in n <==> v in m || v in vs)
            && (forall v :: v in m && v !in vs ==> n[v] == m[v])
            && (forall v :: v in vs ==> n[v] == MaxOrder(m) + 1 + LastIndex(vs, v))
  {
    UpsertAllAt(m, vs);
    UpsertKeepsMax(m, vs);
    BumpAllAt(UpsertAll(m, vs), vs);
  }

  /** A save that sees a new version puts the listed versions above all others, ordered by
      last occurrence in the list, and leaves the others in their order.  The latest
      version is then the last of the list. */
  lemma SaveOrders(m: Orders, vs: seq<Version>)
    requires HasNew(m, vs)
    ensures var n := Saved(m, vs);
            && (forall v :: v in n <==> v in m || v in vs)
            && (forall u, v :: u in n && u !in vs && v in vs ==> n[u] < n[v])
            && (forall v, w :: v in vs && w in vs ==> (n[v] < n[w] <==> LastIndex(vs, v) < LastIndex(vs, w)))
            && (forall u, w :: u in n && u !in vs && w in n && w !in vs ==> (n[u] < n[w] <==> m[u] < m[w]))
            && IsLatest(n, vs[|vs| - 1])
  {
    SavedAt(m, vs);
    MaxOrderBounds(m);
    var last := vs[|vs| - 1];
    var n := Saved(m, vs);
    forall v | v in n && v != last ensures n[v] < n[last] {
      if v in vs { assert LastIndex(vs, v) < |vs| - 1 == LastIndex(vs, last); }
    }
  }

  ghost predicate IsLatest(m: Orders, v: Version) {
    v in m && forall w :: w in m && w != v ==> m[w] < m[v]
  }

  /** A save that sees no new version changes nothing; so saving twice is saving once. */
  lemma SaveIdempotent(m: Orders, vs: seq<Version>)
    ensures !HasNew(m, vs) ==> Saved(m, vs) == m
    ensures Saved(Saved(m, vs), vs) == Saved(m, vs)
  {
    if HasNew(m, vs) { SavedAt(m, vs); }
  }

  lemma LastIndexDistinct(vs: seq<Version>, v: Version, w: Version)
    requires v in vs && w in vs && LastIndex(vs, v) == LastIndex(vs, w)
    ensures v == w
  {
  }

  lemma SaveKeepsOrdered(m: Orders, vs: seq<Version>)
    requires Ordered(m)
    ensures Ordered(Saved(m, vs))
  {
    if HasNew(m, vs) {
      SavedAt(m, vs);
      MaxOrderBounds(m);
      var n := Saved(m, vs);
      forall v, w | v in n && w in n && v != w ensures n[v] != n[w] {
        if v in vs && w in vs && n[v] == n[w] { LastIndexDistinct(vs, v, w); }
      }
    }
  }

  /** Saving a build's output puts a new version on top and leaves everything else. */
  lemma OutputOrders(m: Orders, v: Version)
    requires Ordered(m)
    ensures var n := SavedOutput(m, v);
            && Ordered(n) && n.Keys == m.Keys + {v}
            && (forall w :: w in m ==> n[w] == m[w])
            && (v !in m ==> IsLatest(n, v))
  {
    if v !in m {
      var added := m[v := 0];
      BumpAt(added, v);
      MaxOrderBounds(added);
      var n := SavedOutput(m, v);
      assert n == m[v := MaxOrder(added) + 1];
      forall w | w in m ensures m[w] < n[v] { assert added[w] == m[w]; }
    }
  }

  // ---- the scope ----

  class ResourceConfigScope {
    var versions: Orders

    ghost predicate Valid()
      reads this
    {
      Ordered(versions)
    }

    constructor ()
      ensures Valid() && versions == map[]
    {
      versions := map[];
    }

    method SaveResourceVersion(v: Version) returns (r: Result<bool, string>)
      modifies this
      ensures r.Err? <==> v == map[]
      ensures r.Err? ==> versions == old(versions)
      ensures r.Ok? ==> versions == Upsert(old(versions), v) && r.value == (versions[v] == 0)
    {
      if v == map[] { return Err("resource output version is empty"); }
      if v !in versions { versions := versions[v := 0]; }
      return Ok(versions[v] == 0);
    }

    method IncrementCheckOrder(v: Version)
      modifies this
      ensures versions == Bump(old(versions), v)
    {
      var co := MaxOrder(versions);
      if v in versions && versions[v] <= co { versions := versions[v := co + 1]; }
    }

    method UpsertVersions(vs: seq<Version>) returns (ok: bool, containsNewVersion: bool)
      requires Valid()
      modifies this
      ensures ok == (map[] !in vs)
      ensures ok ==> versions == UpsertAll(old(versions), vs) && (containsNewVersion <==> HasNew(old(versions), vs))
    {
      ghost var before := versions;
      containsNewVersion := false;
      for i := 0 to |vs|
        invariant versions == UpsertAll(before, vs[..i]) && map[] !in vs[..i]
        invariant containsNewVersion <==> HasNew(before, vs[..i])
      {
        UpsertAllAt(before, vs[..i + 1]);
        assert vs[..i + 1] == vs[..i] + [vs[i]];
        var isNew := SaveResourceVersion(vs[i]);
        if isNew.Err? { return false, false; }
        NewSnoc(before, vs[..i], vs[i]);
        containsNewVersion := containsNewVersion || isNew.value;
      }
      assert vs[..|vs|] == vs;
      ok := true;
    }

    method BumpVersions(vs: seq<Version>)
      modifies this
      ensures versions == BumpAll(old(versions), vs)
    {
      for i := 0 to |vs|
        invariant versions == BumpAll(old(versions), vs[..i])
      {
        assert vs[..i + 1][..i] == vs[..i];
        IncrementCheckOrder(vs[i]);
      }
      assert vs[..|vs|] == vs;
    }

    /** All or nothing: an empty version anywhere in the list leaves the scope as it was. */
    method SaveVersions(vs: seq<Version>) returns (ok: bool)
      requires Valid()
      modifies this
      ensures Valid() && ok == (map[] !in vs)
      ensures versions == if ok then Saved(old(versions), vs) else old(versions)
    {
      var before := versions;
      var containsNewVersion;
      ok, containsNewVersion := UpsertVersions(vs);
      if !ok {
        versions := before;
        return;
      }
      if containsNewVersion {
        BumpVersions(vs);
      } else {
        UpsertAllAt(before, vs);
      }
      SaveKeepsOrdered(before, vs);
    }

    method SaveOutput(v: Version) returns (ok: bool)
      requires Valid()
      modifies this
      ensures Valid() && ok == (v != map[])
      ensures versions == if ok then SavedOutput(old(versions), v) else old(versions)
    {
      var isNew := SaveResourceVersion(v);
      if isNew.Err? { return false; }
      if isNew.value { IncrementCheckOrder(v); }
      OutputOrders(old(versions), v);
      return true;
    }

    method ClearVersions()
      modifies this
      ensures Valid() && versions == map[]
    {
      versions := map[];
    }

    method LatestVersion() returns (latest: Option<Version>)
      requires Valid()
      ensures latest.None? <==> versions == map[]
      ensures latest.Some? ==> IsLatest(versions, latest.value)
    {
      latest := None;
      var rest := versions.Keys;
      while rest != {}
        invariant rest <= versions.Keys
        invariant latest.Some? ==> latest.value in versions
        invariant forall v :: v in versions && v !in rest ==> latest.Some? && versions[v] <= versions[latest.value]
        decreases |rest|
      {
        var v :| v in rest;
        if latest.None? || versions[v] >= versions[latest.value] { latest := Some(v); }
        rest := rest - {v};
      }
    }
  }

  lemma NewSnoc(m: Orders, vs: seq<Version>, v: Version)
    ensures HasNew(m, vs + [v]) <==> HasNew(m, vs) || v !in m
  {
    if v !in m { assert v in vs + [v]; }
    if HasNew(m, vs) {
      var w :| w in vs && w !in m;
      assert w in vs + [v];
    }
  }
}
