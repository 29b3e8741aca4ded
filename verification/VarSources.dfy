/** Ordering var sources so that each comes after the ones its config refers to
    (atc/config.go, OrderByDependency). */
module VarSources {
  import opened Wrappers

  /** `varNames` are the variables interpolated in the marshalled config, or None when
      the config cannot be marshalled. */
  datatype VarSource = VarSource(name: string, kind: string, varNames: Option<seq<string>>)

  datatype Error = MarshalFailed | Unresolved(names: seq<string>)

  /** The part of a variable name in front of its first ':'. */
  function SourceOf(varName: string): Option<string> {
    if varName == "" then None
    else if varName[0] == ':' then Some("")
    else match SourceOf(varName[1..])
      case None => None
      case Some(s) => Some([varName[0]] + s)
  }

  function DepsOf(varNames: seq<string>): seq<string> {
    if varNames == [] then []
    else (match SourceOf(varNames[0]) case None => [] case Some(s) => [s]) + DepsOf(varNames[1..])
  }

  function Deps(vs: VarSource): seq<string> {
    if vs.varNames.None? then [] else DepsOf(vs.varNames.value)
  }

  /** The source is what stands in front of the first colon, if there is one. */
  lemma {:induction false} SourceIs(varName: string, i: nat)
    requires i <= |varName| && (i < |varName| ==> varName[i] == ':') && ':' !in varName[..i]
    ensures SourceOf(varName) == if i < |varName| then Some(varName[..i]) else None
  {
    if i > 0 {
      assert varName[..i] == [varName[0]] + varName[1..][..i - 1];
      SourceIs(varName[1..], i - 1);
    }
  }

  /** A source depends on exactly the sources of the variables in its config. */
  lemma {:induction false} DepsAre(varNames: seq<string>, d: string)
    ensures d in DepsOf(varNames) <==> exists v :: v in varNames && SourceOf(v) == Some(d)
  {
    if varNames != [] {
      DepsAre(varNames[1..], d);
      assert varNames == [varNames[0]] + varNames[1..];
    }
  }

  function Names(s: seq<VarSource>): set<string> {
    set v | v in s :: v.name
  }

  predicate Ready(vs: VarSource, added: set<string>) {
    forall d :: d in Deps(vs) ==> d in added
  }

  // ---- what the loops compute ----

  datatype Progress = Progress(ordered: seq<VarSource>, pending: seq<VarSource>)

  /** One pass over the pending sources. */
  function Sweep(ordered: seq<VarSource>, pending: seq<VarSource>): Progress
    decreases |pending|
  {
    if pending == [] then Progress(ordered, [])
    else if Ready(pending[0], Names(ordered)) then Sweep(ordered + [pending[0]], pending[1..])
    else
      var rest := Sweep(ordered, pending[1..]);
      Progress(rest.ordered, [pending[0]] + rest.pending)
  }

  function Add(p: Progress, vs: VarSource): Progress {
    if Ready(vs, Names(p.ordered)) then Sweep(p.ordered + [vs], p.pending)
    else Progress(p.ordered, p.pending + [vs])
  }

  function AddAll(c: seq<VarSource>): Progress {
    if c == [] then Progress([], []) else Add(AddAll(c[..|c| - 1]), c[|c| - 1])
  }

  predicate Marshals(c: seq<VarSource>) {
    forall v :: v in c ==> v.varNames.Some?
  }

  function NameList(s: seq<VarSource>): seq<string> {
    seq(|s|, i requires 0 <= i < |s| => s[i].name)
  }

  function Order(c: seq<VarSource>): Result<seq<VarSource>, Error> {
    if !Marshals(c) then Err(MarshalFailed)
    else
      var p := AddAll(c);
      if p.pending == [] then Ok(p.ordered) else Err(Unresolved(NameList(p.pending)))
  }

  // ---- the source's loops ----

  method AnyMissing(deps: seq<string>, added: map<string, bool>) returns (miss: bool)
    ensures miss <==> exists d :: d in deps && d !in added
  {
    miss := false;
    for i := 0 to |deps|
      invariant !miss && forall k :: 0 <= k < i ==> deps[k] in added
    {
      if deps[i] !in added {
        miss := true;
        return;
      }
    }
  }

  lemma NamesSnoc(s: seq<VarSource>, v: VarSource)
    ensures Names(s + [v]) == Names(s) + {v.name}
  {
    assert forall w :: w in s + [v] <==> w in s || w == v;
  }

  method SweepPending(ordered0: seq<VarSource>, added0: map<string, bool>, pending: seq<VarSource>)
    returns (ordered: seq<VarSource>, added: map<string, bool>, left: seq<VarSource>)
    requires added0.Keys == Names(ordered0)
    ensures Progress(ordered, left) == Sweep(ordered0, pending) && added.Keys == Names(ordered)
  {
    ordered, added, left := ordered0, added0, [];
    for i := 0 to |pending|
      invariant added.Keys == Names(ordered)
      invariant var rest := Sweep(ordered, pending[i..]);
                Sweep(ordered0, pending) == Progress(rest.ordered, left + rest.pending)
    {
      assert pending[i..][0] == pending[i] && pending[i..][1..] == pending[i + 1..];
      var miss := AnyMissing(Deps(pending[i]), added);
      if !miss {
        NamesSnoc(ordered, pending[i]);
        ordered, added := ordered + [pending[i]], added[pending[i].name := true];
      } else {
        left := left + [pending[i]];
      }
    }
  }

  /** One round of the outer loop. */
  method AddOne(p: Progress, added0: map<string, bool>, vs: VarSource) returns (q: Progress, added: map<string, bool>)
    requires added0.Keys == Names(p.ordered)
    ensures q == Add(p, vs) && added.Keys == Names(q.ordered)
  {
    var miss := AnyMissing(Deps(vs), added0);
    if miss {
      q, added := Progress(p.ordered, p.pending + [vs]), added0;
    } else {
      NamesSnoc(p.ordered, vs);
      var ordered, pending;
      ordered, added, pending := SweepPending(p.ordered + [vs], added0[vs.name := true], p.pending);
      q := Progress(ordered, pending);
    }
  }

  lemma AddAllSnoc(c: seq<VarSource>, i: nat)
    requires i < |c|
    ensures AddAll(c[..i + 1]) == Add(AddAll(c[..i]), c[i])
    ensures Marshals(c[..i + 1]) <==> Marshals(c[..i]) && c[i].varNames.Some?
  {
    assert c[..i + 1][..i] == c[..i] && c[..i + 1] == c[..i] + [c[i]];
  }

  method OrderByDependency(c: seq<VarSource>) returns (r: Result<seq<VarSource>, Error>)
    ensures r == Order(c)
  {
    var progress, added: map<string, bool> := Progress([], []), map[];
    for i := 0 to |c|
      invariant Marshals(c[..i]) && added.Keys == Names(progress.ordered)
      invariant progress == AddAll(c[..i])
    {
      AddAllSnoc(c, i);
      if c[i].varNames.None? {
        assert c[i] in c;
        return Err(MarshalFailed);
      }
      progress, added := AddOne(progress, added, c[i]);
    }
    assert c[..|c|] == c;
    if |progress.pending| > 0 {
      return Err(Unresolved(NameList(progress.pending)));
    }
    return Ok(progress.ordered);
  }

  // ---- what the result means ----

  /** Every dependency names a source that stands strictly earlier. */
  ghost predicate WellOrdered(s: seq<VarSource>) {
    forall i :: 0 <= i < |s| ==> Ready(s[i], Names(s[..i]))
  }

  lemma WellOrderedSnoc(s: seq<VarSource>, v: VarSource)
    requires WellOrdered(s) && Ready(v, Names(s))
    ensures WellOrdered(s + [v])
  {
    forall i | 0 <= i < |s + [v]|
      ensures Ready((s + [v])[i], Names((s + [v])[..i]))
    {
      assert (s + [v])[..i] == s[..i];
      assert s[..|s|] == s;
    }
  }

  lemma {:induction false} SweepOrders(ordered: seq<VarSource>, pending: seq<VarSource>)
    requires WellOrdered(ordered)
    ensures WellOrdered(Sweep(ordered, pending).ordered)
    decreases |pending|
  {
    if pending != [] {
      if Ready(pending[0], Names(ordered)) {
        WellOrderedSnoc(ordered, pending[0]);
        SweepOrders(ordered + [pending[0]], pending[1..]);
      } else {
        SweepOrders(ordered, pending[1..]);
      }
    }
  }

  lemma {:induction false} SweepConserves(ordered: seq<VarSource>, pending: seq<VarSource>)
    ensures var p := Sweep(ordered, pending);
            multiset(p.ordered) + multiset(p.pending) == multiset(ordered) + multiset(pending)
    decreases |pending|
  {
    if pending != [] {
      var x, rest := pending[0], pending[1..];
      assert multiset(pending) == multiset{x} + multiset(rest) by { assert pending == [x] + rest; }
      if Ready(x, Names(ordered)) {
        SweepConserves(ordered + [x], rest);
        assert multiset(ordered + [x]) == multiset(ordered) + multiset{x};
      } else {
        SweepConserves(ordered, rest);
        var q := Sweep(ordered, rest);
        assert Sweep(ordered, pending) == Progress(q.ordered, [x] + q.pending);
        assert multiset([x] + q.pending) == multiset{x} + multiset(q.pending);
        assert multiset(q.ordered) + (multiset{x} + multiset(q.pending))
            == multiset{x} + (multiset(q.ordered) + multiset(q.pending));
        assert multiset(ordered) + (multiset{x} + multiset(rest)) == multiset{x} + (multiset(ordered) + multiset(rest));
      }
    }
  }

  lemma {:induction false} AddAllSound(c: seq<VarSource>)
    ensures var p := AddAll(c);
            WellOrdered(p.ordered) && multiset(p.ordered) + multiset(p.pending) == multiset(c)
  {
    if c != [] {
      var vs, p := c[|c| - 1], AddAll(c[..|c| - 1]);
      assert c == c[..|c| - 1] + [vs];
      AddAllSound(c[..|c| - 1]);
      if Ready(vs, Names(p.ordered)) {
        WellOrderedSnoc(p.ordered, vs);
        SweepOrders(p.ordered + [vs], p.pending);
        SweepConserves(p.ordered + [vs], p.pending);
      }
    }
  }

  /** A result is a permutation of the input with every dependency strictly earlier. */
  lemma OrderSound(c: seq<VarSource>)
    requires Order(c).Ok?
    ensures multiset(Order(c).value) == multiset(c) && WellOrdered(Order(c).value)
  {
    AddAllSound(c);
  }

  /** An input that is already in order comes back as it is. */
  lemma {:induction false} OrderedStays(c: seq<VarSource>)
    requires WellOrdered(c)
    ensures AddAll(c) == Progress(c, [])
    ensures Marshals(c) ==> Order(c) == Ok(c)
  {
    if c != [] {
      var front := c[..|c| - 1];
      forall i | 0 <= i < |front|
        ensures Ready(front[i], Names(front[..i]))
      {
        assert front[..i] == c[..i];
        assert Ready(c[i], Names(c[..i]));
      }
      OrderedStays(front);
      assert Ready(c[|c| - 1], Names(c[..|c| - 1]));
      assert c == front + [c[|c| - 1]];
    }
  }

  /** A dependency on a name no source has is always an error. */
  lemma UnmetIsError(c: seq<VarSource>, v: VarSource, d: string)
    requires v in c && d in Deps(v) && d !in Names(c)
    ensures Order(c).Err?
  {
    if Order(c).Ok? {
      OrderSound(c);
      var out := Order(c).value;
      assert v in multiset(out);
      var i :| 0 <= i < |out| && out[i] == v;
      assert Ready(out[i], Names(out[..i]));
      Permuted(out, c);
    }
  }

  ghost predicate DistinctNames(c: seq<VarSource>) {
    forall v, w :: v in c && w in c && v.name == w.name ==> v == w
  }

  /** `p` follows dependencies: each source refers to the next. */
  ghost predicate DependencyPath(c: seq<VarSource>, p: seq<VarSource>) {
    && (forall v :: v in p ==> v in c)
    && forall i :: 0 <= i < |p| - 1 ==> p[i + 1].name in Deps(p[i])
  }

  lemma {:induction false} PathMovesEarlier(out: seq<VarSource>, p: seq<VarSource>, i: nat) returns (k: nat)
    requires WellOrdered(out) && DistinctNames(out) && DependencyPath(out, p)
    requires p != [] && i < |out| && out[i] == p[0]
    ensures k <= i && out[k] == p[|p| - 1] && (|p| >= 2 ==> k < i)
    decreases |p|
  {
    k := i;
    if |p| >= 2 {
      assert p[1].name in Deps(p[0]) && Ready(out[i], Names(out[..i]));
      var w :| w in out[..i] && w.name == p[1].name;
      assert p[1] in out && w in out;
      var m :| 0 <= m < i && out[m] == w;
      forall x | 0 <= x < |p[1..]| - 1
        ensures p[1..][x + 1].name in Deps(p[1..][x])
      {
        assert p[x + 2].name in Deps(p[x + 1]);
      }
      k := PathMovesEarlier(out, p[1..], m);
    }
  }

  /** Sources that depend on each other in a circle are always an error, provided no
      name is given to two different sources. */
  lemma CycleIsError(c: seq<VarSource>, p: seq<VarSource>)
    requires DistinctNames(c) && Distinct(c)
    requires DependencyPath(c, p) && |p| >= 2 && p[0] == p[|p| - 1]
    ensures Order(c).Err?
  {
    if Order(c).Ok? {
      OrderSound(c);
      var out := Order(c).value;
      Permuted(out, c);
      var i :| 0 <= i < |out| && out[i] == p[0];
      var _ := PathMovesEarlier(out, p, i);
    }
  }

  // ---- how far the single pass reaches ----

  /** An error need not mean that no order exists: the pending sources get one pass per
      newly added source, and a chain a -> b -> c listed in that order needs two. */
  lemma OnePassIsNotEnough(a: VarSource, b: VarSource, c: VarSource)
    requires Marshals([a, b, c]) && a.name != b.name && b.name != c.name && a.name != c.name
    requires Deps(a) == [b.name] && Deps(b) == [c.name] && Deps(c) == []
    ensures Order([a, b, c]) == Err(Unresolved([a.name]))
    ensures WellOrdered([c, b, a]) && multiset([c, b, a]) == multiset([a, b, c])
  {
    ChainAddAll(a, b, c);
    assert NameList([a]) == [a.name];
    ChainReversed(a, b, c);
  }

  lemma ChainReversed(a: VarSource, b: VarSource, c: VarSource)
    requires Deps(a) == [b.name] && Deps(b) == [c.name] && Deps(c) == []
    ensures WellOrdered([c, b, a])
  {
    assert c in [c] && b in [c, b];
    WellOrderedSnoc([], c);
    assert [] + [c] == [c];
    WellOrderedSnoc([c], b);
    assert [c] + [b] == [c, b];
    WellOrderedSnoc([c, b], a);
    assert [c, b] + [a] == [c, b, a];
  }

  lemma ChainAddAll(a: VarSource, b: VarSource, c: VarSource)
    requires b.name != c.name && Deps(a) == [b.name] && Deps(b) == [c.name] && Deps(c) == []
    ensures AddAll([a, b, c]) == Progress([c, b], [a])
  {
    assert b.name in Deps(a) && c.name in Deps(b);
    assert [a][..0] == [] && AddAll([a]) == Progress([], [a]);
    assert [a, b][..1] == [a] && AddAll([a, b]) == Progress([], [a, b]);
    assert [a, b, c] == [a, b] + [c] && ([a, b] + [c])[..2] == [a, b] && [] + [c] == [c];
    ChainSweep(a, b, c);
  }

  lemma ChainSweep(a: VarSource, b: VarSource, c: VarSource)
    requires b.name != c.name && Deps(a) == [b.name] && Deps(b) == [c.name]
    ensures Sweep([c], [a, b]) == Progress([c, b], [a])
  {
    assert c in [c] && b.name in Deps(a);
    assert [b][1..] == [] && Sweep([c], [b]) == Sweep([c, b], []);
    assert [a, b][1..] == [b];
  }

  // ---- exactly when it succeeds ----

  /** `k` is in place when round `T[i]` comes to `i`: added in an earlier round, or in the
      same one because it opened it or stands before `i` in the list. */
  predicate Before(T: seq<nat>, k: nat, i: nat)
    requires k < |T| && i < |T|
  {
    T[k] < T[i] || (T[k] == T[i] && i != T[i] && (k == T[i] || k < i))
  }

  ghost predicate NamedBefore(c: seq<VarSource>, T: seq<nat>, i: nat, d: string)
    requires |T| == |c| && i < |c|
  {
    exists k: nat :: k < |c| && c[k].name == d && Before(T, k, i)
  }

  /** `T` assigns each source a round at or after its own position.  A round is named by
      the source that opens it, and every dependency is in place when its dependent's turn
      comes; the source that opens a round depends on earlier rounds only. */
  ghost predicate Rounds(c: seq<VarSource>, T: seq<nat>) {
    && |T| == |c|
    && (forall i :: 0 <= i < |c| ==> i <= T[i] < |c| && T[T[i]] == T[i])
    && (forall i, d :: 0 <= i < |c| && d in Deps(c[i]) ==> NamedBefore(c, T, i, d))
  }

  /** `s` holds the elements of `c` at the positions `at`, in that order. */
  ghost predicate Picks(c: seq<VarSource>, s: seq<VarSource>, at: seq<nat>) {
    && |at| == |s|
    && (forall i, j :: 0 <= i < j < |at| ==> at[i] < at[j])
    && (forall i :: 0 <= i < |at| ==> at[i] < |c| && s[i] == c[at[i]])
  }

  lemma PicksTail(c: seq<VarSource>, s: seq<VarSource>, at: seq<nat>)
    requires Picks(c, s, at) && s != []
    ensures Picks(c, s[1..], at[1..]) && s[0] == c[at[0]]
    ensures forall x :: x in at[1..] ==> x in at && at[0] < x
  {
  }

  lemma PicksCons(c: seq<VarSource>, s: seq<VarSource>, at: seq<nat>, x: nat)
    requires Picks(c, s, at) && x < |c| && forall y :: y in at ==> x < y
    ensures Picks(c, [c[x]] + s, [x] + at)
  {
    forall i, j | 0 <= i < j < |[x] + at| ensures ([x] + at)[i] < ([x] + at)[j] {
      assert at[j - 1] in at;
    }
  }

  lemma PicksSnoc(c: seq<VarSource>, s: seq<VarSource>, at: seq<nat>, x: nat)
    requires Picks(c, s, at) && x < |c| && forall y :: y in at ==> y < x
    ensures Picks(c, s + [c[x]], at + [x])
  {
    assert forall i :: 0 <= i < |at| ==> at[i] in at;
  }

  // ---- rounds give success ----

  /** Of the first `n` sources, all have their names added but those at `at` or skipped. */
  ghost predicate Caught(c: seq<VarSource>, n: nat, ordered: seq<VarSource>, at: seq<nat>, skipped: set<nat>) {
    forall i: nat :: i < n && i < |c| ==> i in at || i in skipped || c[i].name in Names(ordered)
  }

  /** When the pass of round `m` comes to a source of that round, it is ready. */
  lemma TurnComes(c: seq<VarSource>, T: seq<nat>, m: nat, ordered: seq<VarSource>, at: seq<nat>, skipped: set<nat>, x: nat)
    requires Rounds(c, T) && x < m < |c| && T[x] == m && Caught(c, m + 1, ordered, at, skipped)
    requires forall y :: y in at ==> y < m && T[y] >= m && x <= y
    requires forall y :: y in skipped ==> y < m && T[y] > m
    ensures Ready(c[x], Names(ordered))
  {
    forall d | d in Deps(c[x]) ensures d in Names(ordered) {
      assert NamedBefore(c, T, x, d);
      var k: nat :| k < |c| && c[k].name == d && Before(T, k, x);
      assert k !in at && k !in skipped;
    }
  }

  lemma CaughtAdds(c: seq<VarSource>, n: nat, ordered: seq<VarSource>, at: seq<nat>, skipped: set<nat>)
    requires Caught(c, n, ordered, at, skipped) && at != [] && at[0] < |c|
    ensures Caught(c, n, ordered + [c[at[0]]], at[1..], skipped)
    ensures Caught(c, n, ordered, at[1..], skipped + {at[0]})
  {
    NamesSnoc(ordered, c[at[0]]);
    assert forall y :: y in at ==> y == at[0] || y in at[1..];
  }

  lemma {:induction false} SweepCatches(c: seq<VarSource>, T: seq<nat>, m: nat, ordered: seq<VarSource>,
                                        pending: seq<VarSource>, at: seq<nat>, skipped: set<nat>) returns (left: seq<nat>)
    requires Rounds(c, T) && m < |c| && Picks(c, pending, at) && Caught(c, m + 1, ordered, at, skipped)
    requires forall y :: y in at ==> y < m && T[y] >= m
    requires forall y :: y in skipped ==> y < m && T[y] > m
    ensures var p := Sweep(ordered, pending);
            Picks(c, p.pending, left) && Caught(c, m + 1, p.ordered, left, skipped)
    ensures forall y :: y in left ==> y in at && T[y] > m
    decreases |pending|
  {
    left := at;
    if pending != [] {
      var x := at[0];
      PicksTail(c, pending, at);
      CaughtAdds(c, m + 1, ordered, at, skipped);
      assert x in at;
      if Ready(pending[0], Names(ordered)) {
        left := SweepCatches(c, T, m, ordered + [pending[0]], pending[1..], at[1..], skipped);
      } else {
        LaterRound(c, T, m, ordered, pending, at, skipped);
        var rest := SweepCatches(c, T, m, ordered, pending[1..], at[1..], skipped + {x});
        PicksCons(c, Sweep(ordered, pending[1..]).pending, rest, x);
        left := [x] + rest;
      }
    }
  }

  lemma LaterRound(c: seq<VarSource>, T: seq<nat>, m: nat, ordered: seq<VarSource>,
                   pending: seq<VarSource>, at: seq<nat>, skipped: set<nat>)
    requires Rounds(c, T) && m < |c| && Picks(c, pending, at) && Caught(c, m + 1, ordered, at, skipped)
    requires forall y :: y in at ==> y < m && T[y] >= m
    requires forall y :: y in skipped ==> y < m && T[y] > m
    requires pending != [] && !Ready(pending[0], Names(ordered))
    ensures T[at[0]] > m
  {
    var x := at[0];
    assert x in at;
    if T[x] == m { TurnComes(c, T, m, ordered, at, skipped, x); }
  }

  lemma CatchOne(c: seq<VarSource>, T: seq<nat>, m: nat, p: Progress, at: seq<nat>) returns (left: seq<nat>)
    requires Rounds(c, T) && m < |c| && Picks(c, p.pending, at) && Caught(c, m, p.ordered, at, {})
    requires forall y :: y in at ==> y < m && T[y] >= m
    ensures var q := Add(p, c[m]); Picks(c, q.pending, left) && Caught(c, m + 1, q.ordered, left, {})
    ensures forall y :: y in left ==> y < m + 1 && T[y] >= m + 1
  {
    NamesSnoc(p.ordered, c[m]);
    if Ready(c[m], Names(p.ordered)) {
      left := SweepCatches(c, T, m, p.ordered + [c[m]], p.pending, at, {});
    } else {
      NotThisRound(c, T, m, p.ordered, at);
      PicksSnoc(c, p.pending, at, m);
      left := at + [m];
    }
  }

  lemma {:induction false} RoundsCatch(c: seq<VarSource>, T: seq<nat>, n: nat) returns (at: seq<nat>)
    requires Rounds(c, T) && n <= |c|
    ensures var p := AddAll(c[..n]); Picks(c, p.pending, at) && Caught(c, n, p.ordered, at, {})
    ensures forall y :: y in at ==> y < n && T[y] >= n
  {
    at := [];
    if n > 0 {
      at := RoundsCatch(c, T, n - 1);
      AddAllSnoc(c, n - 1);
      at := CatchOne(c, T, n - 1, AddAll(c[..n - 1]), at);
    }
  }

  lemma NotThisRound(c: seq<VarSource>, T: seq<nat>, m: nat, ordered: seq<VarSource>, at: seq<nat>)
    requires Rounds(c, T) && m < |c| && Caught(c, m, ordered, at, {}) && !Ready(c[m], Names(ordered))
    requires forall y :: y in at ==> y < m && T[y] >= m
    ensures forall i :: 0 <= i < |c| ==> T[i] != m
  {
    if T[m] == m {
      forall d | d in Deps(c[m]) ensures d in Names(ordered) {
        assert NamedBefore(c, T, m, d);
        var k: nat :| k < |c| && c[k].name == d && Before(T, k, m);
        assert k !in at;
      }
    }
  }

  // ---- success gives rounds ----

  /** Of the first `n` sources, those not in `open` have been added in the rounds `T`. */
  ghost predicate Settled(c: seq<VarSource>, n: nat, T: seq<nat>, open: set<nat>) {
    && |T| == n <= |c|
    && (forall i: nat :: i < n && i !in open ==> i <= T[i] < n && T[i] !in open && T[T[i]] == T[i])
    && (forall i: nat, d :: i < n && i !in open && d in Deps(c[i]) ==> SettledBefore(c, T, open, i, d))
  }

  ghost predicate SettledBefore(c: seq<VarSource>, T: seq<nat>, open: set<nat>, i: nat, d: string)
    requires i < |T| <= |c|
  {
    exists k: nat :: k < |T| && k !in open && c[k].name == d && Before(T, k, i)
  }

  /** Every added name is that of a settled source; in the current round `m`, of its opener
      or of one listed before `x`. */
  ghost predicate Known(c: seq<VarSource>, T: seq<nat>, open: set<nat>, ordered: seq<VarSource>, m: nat, x: nat)
    requires |T| <= |c|
  {
    forall d :: d in Names(ordered) ==>
      exists k: nat :: k < |T| && k !in open && c[k].name == d && (T[k] < m || (T[k] == m && (k == m || k < x)))
  }

  /** Settling `x` in the current round. */
  lemma Settle(c: seq<VarSource>, m: nat, T: seq<nat>, open: set<nat>, ordered: seq<VarSource>, x: nat, y: nat)
    requires Settled(c, m + 1, T, open) && m !in open && T[m] == m && x in open && x < m && x < y
    requires Known(c, T, open, ordered, m, x) && Ready(c[x], Names(ordered))
    ensures Settled(c, m + 1, T[x := m], open - {x})
    ensures Known(c, T[x := m], open - {x}, ordered + [c[x]], m, y)
  {
    var U, rest := T[x := m], open - {x};
    forall i: nat, d | i < m + 1 && i !in rest && d in Deps(c[i]) ensures SettledBefore(c, U, rest, i, d) {
      if i == x {
        assert d in Names(ordered);
        var k: nat :| k < |T| && k !in open && c[k].name == d && (T[k] < m || (T[k] == m && (k == m || k < x)));
        assert Before(U, k, x);
      } else {
        assert SettledBefore(c, T, open, i, d);
        var k: nat :| k < |T| && k !in open && c[k].name == d && Before(T, k, i);
        assert Before(U, k, i);
      }
    }
    NamesSnoc(ordered, c[x]);
    forall d | d in Names(ordered + [c[x]])
      ensures exists k: nat :: k < |U| && k !in rest && c[k].name == d && (U[k] < m || (U[k] == m && (k == m || k < y)))
    {
      if d in Names(ordered) {
        var k: nat :| k < |T| && k !in open && c[k].name == d && (T[k] < m || (T[k] == m && (k == m || k < x)));
        assert U[k] == T[k];
      } else {
        assert U[x] == m;
      }
    }
  }

  lemma KnownLater(c: seq<VarSource>, T: seq<nat>, open: set<nat>, ordered: seq<VarSource>, m: nat, x: nat, y: nat)
    requires |T| <= |c| && Known(c, T, open, ordered, m, x) && x <= y
    ensures Known(c, T, open, ordered, m, y)
  {
    forall d | d in Names(ordered)
      ensures exists k: nat :: k < |T| && k !in open && c[k].name == d && (T[k] < m || (T[k] == m && (k == m || k < y)))
    {
      var k: nat :| k < |T| && k !in open && c[k].name == d && (T[k] < m || (T[k] == m && (k == m || k < x)));
      assert T[k] == m && k < x ==> k < y;
    }
  }

  /** The pass of round `m`: `left` stays open, the rest of `at` is settled. */
  lemma {:induction false} SweepSettles(c: seq<VarSource>, m: nat, T: seq<nat>, open: set<nat>,
                                        ordered: seq<VarSource>, pending: seq<VarSource>, at: seq<nat>)
    returns (U: seq<nat>, still: set<nat>, left: seq<nat>)
    requires Settled(c, m + 1, T, open) && m !in open && T[m] == m && Picks(c, pending, at)
    requires forall y :: y in at ==> y in open && y < m
    requires Known(c, T, open, ordered, m, if at == [] then m else at[0])
    ensures Settled(c, m + 1, U, still)
    ensures var p := Sweep(ordered, pending); Picks(c, p.pending, left) && Known(c, U, still, p.ordered, m, m)
    ensures forall y :: y in left ==> y in at
    ensures forall y :: y in still <==> y in left || (y in open && y !in at)
    decreases |pending|
  {
    U, still, left := T, open, at;
    if pending != [] {
      var x, next := at[0], if |at| == 1 then m else at[1];
      PicksTail(c, pending, at);
      assert x in at && x < next;
      assert forall y :: y in at <==> y == x || y in at[1..];
      if Ready(pending[0], Names(ordered)) {
        Settle(c, m, T, open, ordered, x, next);
        U, still, left := SweepSettles(c, m, T[x := m], open - {x}, ordered + [pending[0]], pending[1..], at[1..]);
      } else {
        KnownLater(c, T, open, ordered, m, x, next);
        U, still, left := SweepSettles(c, m, T, open, ordered, pending[1..], at[1..]);
        PicksCons(c, Sweep(ordered, pending[1..]).pending, left, x);
        left := [x] + left;
      }
    }
  }

  lemma Waits(c: seq<VarSource>, m: nat, T: seq<nat>, open: set<nat>, ordered: seq<VarSource>)
    requires m < |c| && Settled(c, m, T, open) && Known(c, T, open, ordered, m, m) && forall y :: y in open ==> y < m
    ensures Settled(c, m + 1, T + [m], open + {m}) && Known(c, T + [m], open + {m}, ordered, m + 1, m + 1)
  {
    var U, rest := T + [m], open + {m};
    forall i: nat, d | i < m + 1 && i !in rest && d in Deps(c[i]) ensures SettledBefore(c, U, rest, i, d) {
      assert SettledBefore(c, T, open, i, d);
      var k: nat :| k < |T| && k !in open && c[k].name == d && Before(T, k, i);
      assert Before(U, k, i);
    }
    forall d | d in Names(ordered)
      ensures exists k: nat :: k < |U| && k !in rest && c[k].name == d && (U[k] < m + 1 || (U[k] == m + 1 && (k == m + 1 || k < m + 1)))
    {
      var k: nat :| k < |T| && k !in open && c[k].name == d && (T[k] < m || (T[k] == m && (k == m || k < m)));
      assert U[k] == T[k];
    }
  }

  lemma Opens(c: seq<VarSource>, m: nat, T: seq<nat>, open: set<nat>, ordered: seq<VarSource>, x: nat)
    requires m < |c| && Settled(c, m, T, open) && Known(c, T, open, ordered, m, m) && forall y :: y in open ==> y < m
    requires Ready(c[m], Names(ordered)) && x <= m
    ensures Settled(c, m + 1, T + [m], open) && Known(c, T + [m], open, ordered + [c[m]], m, x)
  {
    var U := T + [m];
    forall i: nat, d | i < m + 1 && i !in open && d in Deps(c[i]) ensures SettledBefore(c, U, open, i, d) {
      if i == m {
        assert d in Names(ordered);
        var k: nat :| k < |T| && k !in open && c[k].name == d && (T[k] < m || (T[k] == m && (k == m || k < m)));
        assert Before(U, k, m);
      } else {
        assert SettledBefore(c, T, open, i, d);
        var k: nat :| k < |T| && k !in open && c[k].name == d && Before(T, k, i);
        assert Before(U, k, i);
      }
    }
    NamesSnoc(ordered, c[m]);
    forall d | d in Names(ordered + [c[m]])
      ensures exists k: nat :: k < |U| && k !in open && c[k].name == d && (U[k] < m || (U[k] == m && (k == m || k < x)))
    {
      if d in Names(ordered) {
        var k: nat :| k < |T| && k !in open && c[k].name == d && (T[k] < m || (T[k] == m && (k == m || k < m)));
        assert U[k] == T[k];
      } else {
        assert U[m] == m;
      }
    }
  }

  lemma KnownNext(c: seq<VarSource>, T: seq<nat>, open: set<nat>, ordered: seq<VarSource>, m: nat)
    requires |T| <= |c| && Known(c, T, open, ordered, m, m)
    ensures Known(c, T, open, ordered, m + 1, m + 1)
  {
    forall d | d in Names(ordered)
      ensures exists k: nat :: k < |T| && k !in open && c[k].name == d && (T[k] < m + 1 || (T[k] == m + 1 && (k == m + 1 || k < m + 1)))
    {
      var k: nat :| k < |T| && k !in open && c[k].name == d && (T[k] < m || (T[k] == m && (k == m || k < m)));
      assert T[k] < m + 1;
    }
  }

  ghost predicate Tracks(c: seq<VarSource>, n: nat, p: Progress, T: seq<nat>, open: set<nat>, at: seq<nat>) {
    && Settled(c, n, T, open) && Known(c, T, open, p.ordered, n, n) && Picks(c, p.pending, at)
    && (forall y :: y in open <==> y in at) && (forall y :: y in at ==> y < n)
  }

  lemma TrackOne(c: seq<VarSource>, m: nat, p: Progress, T: seq<nat>, open: set<nat>, at: seq<nat>)
    returns (U: seq<nat>, still: set<nat>, left: seq<nat>)
    requires m < |c| && Tracks(c, m, p, T, open, at)
    ensures Tracks(c, m + 1, Add(p, c[m]), U, still, left)
  {
    if Ready(c[m], Names(p.ordered)) {
      if at != [] { assert at[0] in at; }
      Opens(c, m, T, open, p.ordered, if at == [] then m else at[0]);
      U, still, left := SweepSettles(c, m, T + [m], open, p.ordered + [c[m]], p.pending, at);
      KnownNext(c, U, still, Add(p, c[m]).ordered, m);
    } else {
      Waits(c, m, T, open, p.ordered);
      PicksSnoc(c, p.pending, at, m);
      U, still, left := T + [m], open + {m}, at + [m];
    }
  }

  /** The rounds in which the loop adds the sources. */
  lemma {:induction false} RoundsOf(c: seq<VarSource>, n: nat) returns (T: seq<nat>, open: set<nat>, at: seq<nat>)
    requires n <= |c|
    ensures Tracks(c, n, AddAll(c[..n]), T, open, at)
  {
    T, open, at := [], {}, [];
    if n > 0 {
      T, open, at := RoundsOf(c, n - 1);
      AddAllSnoc(c, n - 1);
      T, open, at := TrackOne(c, n - 1, AddAll(c[..n - 1]), T, open, at);
    }
  }

  lemma HasMember(at: seq<nat>)
    ensures at == [] || exists y :: y in at
  {
    if at != [] { assert at[0] in at; }
  }

  /** The ordering succeeds exactly if the list admits rounds. */
  lemma SucceedsByRounds(c: seq<VarSource>)
    requires Marshals(c)
    ensures Order(c).Ok? <==> exists T :: Rounds(c, T)
  {
    assert c[..|c|] == c;
    if T :| Rounds(c, T) {
      var at := RoundsCatch(c, T, |c|);
      HasMember(at);
    }
    if Order(c).Ok? {
      var T, open, at := RoundsOf(c, |c|);
      forall i, d | 0 <= i < |c| && d in Deps(c[i]) ensures NamedBefore(c, T, i, d) {
        assert SettledBefore(c, T, open, i, d);
      }
      assert Rounds(c, T);
    }
  }
}
