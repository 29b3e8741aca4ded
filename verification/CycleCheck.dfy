/** Cycle detection over the `passed` constraints of a pipeline
    (atc/configvalidate/validate.go). */
module CycleCheck {
  import opened Wrappers
  import opened Steps

  /** path.Match, as (pattern, name) -> matched. */
  type Glob = (string, string) -> bool

  datatype JobState = Visiting | Visited

  /** Job `j` has, anywhere in its plan or hooks, a get whose `passed` matches `name`. */
  predicate Passes(glob: Glob, j: JobConfig, name: string) {
    exists g :: g in j.Inputs() && exists p :: p in g.passed && glob(p, name)
  }

  function Names(jobs: seq<JobConfig>): set<string> {
    set j | j in jobs :: j.name
  }

  ghost predicate DistinctNames(jobs: seq<JobConfig>) {
    forall i, j :: 0 <= i < j < |jobs| ==> jobs[i].name != jobs[j].name
  }

  // ---- the graph of a pipeline ----

  ghost predicate Edge(glob: Glob, jobs: seq<JobConfig>, a: string, b: string) {
    b in Names(jobs) && exists j :: j in jobs && j.name == a && Passes(glob, j, b)
  }

  ghost predicate IsCycle(glob: Glob, jobs: seq<JobConfig>, p: seq<string>) {
    |p| >= 2 && p[0] == p[|p| - 1] && forall i :: 0 <= i < |p| - 1 ==> Edge(glob, jobs, p[i], p[i + 1])
  }

  ghost predicate OnCycle(glob: Glob, jobs: seq<JobConfig>, name: string) {
    exists p :: IsCycle(glob, jobs, p) && p[0] == name
  }

  ghost predicate HasCycle(glob: Glob, jobs: seq<JobConfig>) {
    exists p :: IsCycle(glob, jobs, p)
  }

  // ---- the graph one traversal sees ----

  /** The traversal that starts from job number `root`. */
  datatype View = View(glob: Glob, jobs: seq<JobConfig>, root: nat) {
    predicate Valid() { root < |jobs| }
  }

  /** Job number `i` is the one of its name that the traversal visits: the root itself, or
      else the first of that name. */
  predicate Represents(v: View, i: nat)
    requires v.Valid()
  {
    && i < |v.jobs|
    && if v.jobs[i].name == v.jobs[v.root].name then i == v.root
       else forall m :: 0 <= m < i ==> v.jobs[m].name != v.jobs[i].name
  }

  ghost predicate Seen(v: View, a: string, b: string)
    requires v.Valid()
  {
    b in Names(v.jobs) && exists i: nat :: Represents(v, i) && v.jobs[i].name == a && Passes(v.glob, v.jobs[i], b)
  }

  ghost predicate IsPath(v: View, p: seq<string>)
    requires v.Valid()
  {
    forall i :: 0 <= i < |p| - 1 ==> Seen(v, p[i], p[i + 1])
  }

  /** A path from the root that comes back to itself. */
  ghost predicate IsLasso(v: View, p: seq<string>)
    requires v.Valid()
  {
    && |p| >= 2 && p[0] == v.jobs[v.root].name && IsPath(v, p)
    && exists i :: 0 <= i < |p| - 1 && p[i] == p[|p| - 1]
  }

  ghost predicate ReachesCycle(v: View)
    requires v.Valid()
  {
    exists p :: IsLasso(v, p)
  }

  lemma RepresentsOne(v: View, i: nat, k: nat)
    requires v.Valid() && Represents(v, i) && Represents(v, k) && v.jobs[i].name == v.jobs[k].name
    ensures i == k
  {
  }

  lemma SeenIsEdge(v: View, a: string, b: string)
    requires v.Valid() && Seen(v, a, b)
    ensures Edge(v.glob, v.jobs, a, b)
  {
    var i: nat :| Represents(v, i) && v.jobs[i].name == a && Passes(v.glob, v.jobs[i], b);
    assert v.jobs[i] in v.jobs;
  }

  // ---- a finishing order rules cycles out ----

  /** A finishing order: everything a finished job leads to finished before it. */
  ghost predicate Topological(v: View, order: seq<string>)
    requires v.Valid()
  {
    order == [] || (Topological(v, order[..|order| - 1]) && Below(v, order[|order| - 1], order[..|order| - 1]))
  }

  ghost predicate Below(v: View, name: string, order: seq<string>)
    requires v.Valid()
  {
    forall b :: Seen(v, name, b) ==> b in order
  }

  lemma {:induction false} TopologicalAt(v: View, order: seq<string>, i: nat)
    requires v.Valid() && Topological(v, order) && i < |order|
    ensures Below(v, order[i], order[..i])
    decreases |order|
  {
    if i < |order| - 1 {
      TopologicalAt(v, order[..|order| - 1], i);
      assert order[..|order| - 1][..i] == order[..i];
    }
  }

  /** A path out of a topologically ordered job stays in the order and moves down it. */
  lemma {:induction false} PathGoesDown(v: View, order: seq<string>, p: seq<string>, i: nat, n: nat) returns (k: nat)
    requires v.Valid() && Topological(v, order) && IsPath(v, p)
    requires n < |p| && i < |order| && p[0] == order[i]
    ensures k <= i && order[k] == p[n] && (n >= 1 ==> k < i)
    decreases n
  {
    k := i;
    if n > 0 {
      var m := PathGoesDown(v, order, p, i, n - 1);
      assert Seen(v, p[n - 1], p[n]);
      TopologicalAt(v, order, m);
      k :| 0 <= k < m && order[k] == p[n];
    }
  }

  lemma PathDrop(v: View, p: seq<string>, i: nat)
    requires v.Valid() && IsPath(v, p) && i <= |p|
    ensures IsPath(v, p[i..])
  {
    forall x | 0 <= x < |p[i..]| - 1 ensures Seen(v, p[i..][x], p[i..][x + 1]) {
      assert Seen(v, p[x + i], p[x + i + 1]);
    }
  }

  lemma PathTake(v: View, p: seq<string>, n: nat)
    requires v.Valid() && IsPath(v, p) && n <= |p|
    ensures IsPath(v, p[..n])
  {
    forall x | 0 <= x < n - 1 ensures Seen(v, p[..n][x], p[..n][x + 1]) {
      assert Seen(v, p[x], p[x + 1]);
    }
  }

  /** From a job of a topological order without repetition no cycle can be reached. */
  lemma OrderExcludesLasso(v: View, order: seq<string>, p: seq<string>)
    requires v.Valid() && Topological(v, order) && Distinct(order) && v.jobs[v.root].name in order
    ensures !IsLasso(v, p)
  {
    if IsLasso(v, p) {
      var i :| 0 <= i < |p| - 1 && p[i] == p[|p| - 1];
      var r :| 0 <= r < |order| && order[r] == p[0];
      NoReturn(v, order, p, r, i);
    }
  }

  lemma NoReturn(v: View, order: seq<string>, p: seq<string>, r: nat, i: nat)
    requires v.Valid() && Topological(v, order) && Distinct(order) && IsPath(v, p)
    requires r < |order| && i < |p| - 1 && p[0] == order[r]
    ensures p[i] != p[|p| - 1]
  {
    var k := PathGoesDown(v, order, p, r, i);
    PathDrop(v, p, i);
    var m := PathGoesDown(v, order, p[i..], k, |p| - 1 - i);
    assert order[m] != order[k];
  }

  /** The edge back to a job on the path from the root makes a lasso. */
  lemma PathClosesCycle(v: View, path: seq<string>, name: string)
    requires v.Valid() && IsPath(v, path) && name in path && Seen(v, path[|path| - 1], name)
    requires path[0] == v.jobs[v.root].name
    ensures ReachesCycle(v) && OnCycle(v.glob, v.jobs, name)
  {
    var i :| 0 <= i < |path| && path[i] == name;
    var p := path + [name];
    assert IsPath(v, p);
    assert p[i] == p[|p| - 1];
    assert IsLasso(v, p);
    LassoHasCycle(v, p, i);
  }

  lemma LassoHasCycle(v: View, p: seq<string>, i: nat)
    requires v.Valid() && IsPath(v, p) && i < |p| - 1 && p[i] == p[|p| - 1]
    ensures IsCycle(v.glob, v.jobs, p[i..])
  {
    var q := p[i..];
    forall x | 0 <= x < |q| - 1 ensures Edge(v.glob, v.jobs, q[x], q[x + 1]) {
      assert Seen(v, p[x + i], p[x + i + 1]);
      SeenIsEdge(v, q[x], q[x + 1]);
    }
  }

  lemma PathExtends(v: View, path: seq<string>, name: string)
    requires v.Valid() && IsPath(v, path)
    requires path != [] ==> Seen(v, path[|path| - 1], name)
    ensures IsPath(v, path + [name])
  {
  }

  lemma MatchIsSeen(v: View, j: nat, input: GetStep, pattern: string, b: string)
    requires v.Valid() && Represents(v, j) && b in Names(v.jobs)
    requires input in v.jobs[j].Inputs() && pattern in input.passed && v.glob(pattern, b)
    ensures Seen(v, v.jobs[j].name, b)
  {
    assert Passes(v.glob, v.jobs[j], b);
  }

  lemma AllMatched(v: View, pattern: string, done: set<string>)
    requires Met(v, pattern, |v.jobs|, done)
    ensures forall b :: b in Names(v.jobs) && v.glob(pattern, b) ==> b in done
  {
  }

  /** Finishing a job all of whose successors have finished. */
  lemma FinishKeepsOrder(v: View, order: seq<string>, j: nat)
    requires v.Valid() && Topological(v, order) && Represents(v, j)
    requires forall b :: b in Names(v.jobs) && Passes(v.glob, v.jobs[j], b) ==> b in order
    ensures Topological(v, order + [v.jobs[j].name])
  {
    var name := v.jobs[j].name;
    assert (order + [name])[..|order|] == order;
    forall b | Seen(v, name, b) ensures b in order {
      var i: nat :| Represents(v, i) && v.jobs[i].name == name && Passes(v.glob, v.jobs[i], b);
      RepresentsOne(v, i, j);
    }
  }

  /** The jobs the pattern matches among the first `i` are all in `done`. */
  ghost predicate Met(v: View, pattern: string, i: nat, done: set<string>)
    requires i <= |v.jobs|
  {
    forall m :: 0 <= m < i && v.glob(pattern, v.jobs[m].name) ==> v.jobs[m].name in done
  }

  lemma MetOne(v: View, pattern: string, i: nat, before: set<string>, done: set<string>)
    requires i < |v.jobs| && Met(v, pattern, i, before) && before <= done
    requires v.glob(pattern, v.jobs[i].name) ==> v.jobs[i].name in done
    ensures Met(v, pattern, i + 1, done)
  {
  }

  /** A job whose name has not been met while all earlier matches have is the first of its
      name, and it is not of the root's name. */
  lemma FirstOfName(v: View, pattern: string, i: nat, met: set<string>)
    requires v.Valid() && i < |v.jobs| && v.glob(pattern, v.jobs[i].name)
    requires v.jobs[v.root].name in met && v.jobs[i].name !in met
    requires Met(v, pattern, i, met)
    ensures Represents(v, i)
  {
  }

  // ---- the colours ----

  /** The colours agree with the jobs being visited and the jobs finished. */
  ghost predicate Coherent(visited: map<string, JobState>, stack: seq<string>, order: seq<string>) {
    && Distinct(stack) && Distinct(order)
    && (forall n :: n in stack <==> n in visited && visited[n].Visiting?)
    && (forall n :: n in order <==> n in visited && visited[n].Visited?)
  }

  ghost function DoneIn(visited: map<string, JobState>): set<string> {
    set n | n in visited && visited[n].Visited?
  }

  lemma Finished(visited: map<string, JobState>, n: string)
    ensures DoneIn(visited[n := Visited]) == DoneIn(visited) + {n}
  {
  }

  lemma EnterKeepsCoherent(visited: map<string, JobState>, stack: seq<string>, order: seq<string>, n: string)
    requires Coherent(visited, stack, order) && n !in visited
    ensures Coherent(visited[n := Visiting], stack + [n], order)
  {
  }

  lemma LeaveKeepsCoherent(visited: map<string, JobState>, stack: seq<string>, order: seq<string>, n: string)
    requires Coherent(visited, stack + [n], order)
    ensures Coherent(visited[n := Visited], stack, order + [n])
  {
    var visited', both := visited[n := Visited], stack + [n];
    assert both[|stack|] == n;
    assert n in both && n !in order;
    assert Distinct(stack) by {
      forall i, j | 0 <= i < j < |stack| ensures stack[i] != stack[j] {
        assert both[i] != both[j];
      }
    }
    forall m
      ensures m in stack <==> m in visited' && visited'[m].Visiting?
      ensures m in order + [n] <==> m in visited' && visited'[m].Visited?
    {
      assert m in both <==> m in stack || m == n;
      if m in stack {
        var i :| 0 <= i < |stack| && stack[i] == m;
        assert both[i] == m;
      }
    }
  }

  /** One traversal: the `visited` map shared by the recursive calls. */
  class Traversal {
    ghost const v: View
    var visited: map<string, JobState>
    /** The jobs being visited, outermost first, and those finished, earliest first. */
    ghost var stack: seq<string>
    ghost var order: seq<string>

    ghost predicate Valid()
      reads this
    {
      && v.Valid() && Coherent(visited, stack, order) && IsPath(v, stack) && Topological(v, order)
      && (stack != [] ==> stack[0] == v.jobs[v.root].name)
    }

    /** Job number `j` is the one being visited. */
    ghost predicate At(j: nat)
      reads this
    {
      Valid() && Represents(v, j) && stack != [] && stack[|stack| - 1] == v.jobs[j].name
    }

    ghost function Done(): set<string>
      reads this
    {
      DoneIn(visited)
    }

    twostate predicate Advanced()
      reads this
    {
      && Valid() && stack == old(stack)
      && old(Done()) <= Done() && old(visited.Keys) <= visited.Keys
    }

    constructor (ghost v: View)
      requires v.Valid()
      ensures this.v == v && Valid() && visited == map[] && stack == []
    {
      this.v := v;
      visited, stack, order := map[], [], [];
    }

    /** detectCycle: the result is the job an error is reported for. */
    method DetectCycle(glob: Glob, jobs: seq<JobConfig>, j: nat, ghost unseen: set<string>) returns (err: Option<string>)
      requires Valid() && v.glob == glob && v.jobs == jobs && j < |jobs|
      requires Represents(v, j) || jobs[j].name in visited
      requires if stack == [] then j == v.root else Seen(v, stack[|stack| - 1], jobs[j].name)
      requires Names(jobs) <= unseen + visited.Keys
      modifies this
      ensures err.Some? ==> ReachesCycle(v) && OnCycle(glob, jobs, err.value)
      ensures err.None? ==> Advanced() && jobs[j].name in Done()
      decreases unseen, 0
    {
      var name := jobs[j].name;
      if name in visited && visited[name].Visiting? {
        PathClosesCycle(v, stack, name);
        return Some(name);
      }
      if name in visited {
        return None;
      }
      PathExtends(v, stack, name);
      EnterKeepsCoherent(visited, stack, order, name);
      assert name in Names(jobs);
      visited := visited[name := Visiting];
      stack := stack + [name];
      err := VisitInputs(glob, jobs, j, unseen - {name});
      if err.None? {
        Finish(glob, jobs, j);
      }
    }

    method Finish(glob: Glob, jobs: seq<JobConfig>, j: nat)
      requires At(j) && v.glob == glob && v.jobs == jobs
      requires forall b :: b in Names(jobs) && Passes(glob, jobs[j], b) ==> b in Done()
      modifies this
      ensures Valid() && stack == old(stack)[..|old(stack)| - 1]
      ensures Done() == old(Done()) + {jobs[j].name} && visited.Keys == old(visited.Keys)
    {
      ghost var name := jobs[j].name;
      ghost var rest := stack[..|stack| - 1];
      assert stack == rest + [name];
      PathTake(v, stack, |rest|);
      LeaveKeepsCoherent(visited, rest, order, name);
      assert forall b :: b in Done() ==> b in order;
      FinishKeepsOrder(v, order, j);
      Finished(visited, name);
      visited, order, stack := visited[jobs[j].name := Visited], order + [name], rest;
    }

    /** The OnGet hook, called on every get of the job until one reports an error. */
    method VisitInputs(glob: Glob, jobs: seq<JobConfig>, j: nat, ghost unseen: set<string>) returns (err: Option<string>)
      requires At(j) && v.glob == glob && v.jobs == jobs
      requires Names(jobs) <= unseen + visited.Keys
      modifies this
      ensures err.Some? ==> ReachesCycle(v) && OnCycle(glob, jobs, err.value)
      ensures err.None? ==>
                && Advanced()
                && forall b :: b in Names(jobs) && Passes(glob, jobs[j], b) ==> b in Done()
      decreases unseen, 4
    {
      var inputs := jobs[j].Inputs();
      for i := 0 to |inputs|
        invariant Advanced()
        invariant forall m, p, b :: 0 <= m < i && p in inputs[m].passed && b in Names(jobs) && glob(p, b) ==> b in Done()
      {
        err := VisitPassed(glob, jobs, j, inputs[i], unseen);
        if err.Some? { return; }
      }
      err := None;
    }

    method VisitPassed(glob: Glob, jobs: seq<JobConfig>, j: nat, input: GetStep, ghost unseen: set<string>)
      returns (err: Option<string>)
      requires At(j) && v.glob == glob && v.jobs == jobs && input in jobs[j].Inputs()
      requires Names(jobs) <= unseen + visited.Keys
      modifies this
      ensures err.Some? ==> ReachesCycle(v) && OnCycle(glob, jobs, err.value)
      ensures err.None? ==>
                && Advanced()
                && forall p, b :: p in input.passed && b in Names(jobs) && glob(p, b) ==> b in Done()
      decreases unseen, 3
    {
      for i := 0 to |input.passed|
        invariant Advanced()
        invariant forall m, b :: 0 <= m < i && b in Names(jobs) && glob(input.passed[m], b) ==> b in Done()
      {
        forall b | b in Names(jobs) && glob(input.passed[i], b) ensures Seen(v, jobs[j].name, b) {
          MatchIsSeen(v, j, input, input.passed[i], b);
        }
        err := VisitMatches(glob, jobs, input.passed[i], unseen);
        if err.Some? { return; }
      }
      err := None;
    }

    ghost predicate Leads(pattern: string)
      reads this
    {
      && Valid() && stack != []
      && forall b :: b in Names(v.jobs) && v.glob(pattern, b) ==> Seen(v, stack[|stack| - 1], b)
    }

    method VisitMatches(glob: Glob, jobs: seq<JobConfig>, pattern: string, ghost unseen: set<string>)
      returns (err: Option<string>)
      requires Leads(pattern) && v.glob == glob && v.jobs == jobs
      requires Names(jobs) <= unseen + visited.Keys
      modifies this
      ensures err.Some? ==> ReachesCycle(v) && OnCycle(glob, jobs, err.value)
      ensures err.None? ==>
                && Advanced()
                && forall b :: b in Names(jobs) && glob(pattern, b) ==> b in Done()
      decreases unseen, 2
    {
      for i := 0 to |jobs|
        invariant Advanced() && Met(v, pattern, i, Done())
      {
        err := VisitMatch(glob, jobs, pattern, i, unseen);
        if err.Some? { return; }
      }
      AllMatched(v, pattern, Done());
      err := None;
    }

    /** One job of the list, visited if the pattern matches it. */
    method VisitMatch(glob: Glob, jobs: seq<JobConfig>, pattern: string, i: nat, ghost unseen: set<string>)
      returns (err: Option<string>)
      requires Leads(pattern) && v.glob == glob && v.jobs == jobs && i < |jobs| && Met(v, pattern, i, Done())
      requires Names(jobs) <= unseen + visited.Keys
      modifies this
      ensures err.Some? ==> ReachesCycle(v) && OnCycle(glob, jobs, err.value)
      ensures err.None? ==> Advanced() && Met(v, pattern, i + 1, Done())
      decreases unseen, 1
    {
      ghost var before := Done();
      if !glob(pattern, jobs[i].name) {
        MetOne(v, pattern, i, before, before);
        return None;
      }
      assert jobs[i] in jobs && stack[0] in stack;
      if jobs[i].name !in visited { FirstOfName(v, pattern, i, visited.Keys); }
      err := DetectCycle(glob, jobs, i, unseen);
      if err.None? { MetOne(v, pattern, i, before, Done()); }
    }
  }

  /** validateCycle: a fresh traversal from every job.  An error always names a job on a
      cycle.  There is one exactly if some traversal can reach a cycle of the graph it
      sees, in which a name stands for the root or else for the first job that has it. */
  method ValidateCycle(glob: Glob, jobs: seq<JobConfig>) returns (err: Option<string>)
    ensures err.Some? ==> OnCycle(glob, jobs, err.value)
    ensures err.Some? <==> exists r: nat :: r < |jobs| && ReachesCycle(View(glob, jobs, r))
  {
    for i := 0 to |jobs|
      invariant forall r: nat :: r < i ==> !ReachesCycle(View(glob, jobs, r))
    {
      var t := new Traversal(View(glob, jobs, i));
      err := t.DetectCycle(glob, jobs, i, Names(jobs));
      if err.Some? { return; }
      forall p ensures !IsLasso(t.v, p) {
        OrderExcludesLasso(t.v, t.order, p);
      }
    }
    err := None;
  }

  // ---- with and without distinct names ----

  /** With distinct names every traversal sees the whole graph. */
  lemma DistinctSeesEdges(v: View, a: string, b: string)
    requires v.Valid() && DistinctNames(v.jobs) && Edge(v.glob, v.jobs, a, b)
    ensures Seen(v, a, b)
  {
    var j :| j in v.jobs && j.name == a && Passes(v.glob, j, b);
    var i: nat :| i < |v.jobs| && v.jobs[i] == j;
    assert Represents(v, i);
  }

  /** With distinct names a cycle exists exactly if some traversal reaches one; so there is
      an error if and only if the graph has a cycle. */
  lemma DistinctMissesNothing(glob: Glob, jobs: seq<JobConfig>)
    requires DistinctNames(jobs)
    ensures HasCycle(glob, jobs) <==> exists r: nat :: r < |jobs| && ReachesCycle(View(glob, jobs, r))
  {
    if p :| IsCycle(glob, jobs, p) {
      assert Edge(glob, jobs, p[0], p[1]);
      var j :| j in jobs && j.name == p[0];
      var r: nat :| r < |jobs| && jobs[r] == j;
      var v := View(glob, jobs, r);
      forall i | 0 <= i < |p| - 1 ensures Seen(v, p[i], p[i + 1]) {
        assert Edge(glob, jobs, p[i], p[i + 1]);
        DistinctSeesEdges(v, p[i], p[i + 1]);
      }
      assert p[0] == p[|p| - 1];
      assert IsLasso(v, p);
    }
    if r: nat :| r < |jobs| && ReachesCycle(View(glob, jobs, r)) {
      var v := View(glob, jobs, r);
      var p :| IsLasso(v, p);
      var i: nat :| i < |p| - 1 && p[i] == p[|p| - 1];
      LassoHasCycle(v, p, i);
    }
  }

  /** Without distinct names a cycle can be missed: two jobs without gets hide two later
      ones of the same names that require each other. */
  lemma RepeatedNamesHideCycle(glob: Glob, a: JobConfig, b: JobConfig, a2: JobConfig, b2: JobConfig)
    requires a.name != b.name && a2.name == a.name && b2.name == b.name
    requires a.Inputs() == [] && b.Inputs() == []
    requires forall n :: Passes(glob, a2, n) <==> n == b.name
    requires forall n :: Passes(glob, b2, n) <==> n == a.name
    ensures var jobs := [a, b, a2, b2];
            HasCycle(glob, jobs) && forall r: nat :: r < |jobs| ==> !ReachesCycle(View(glob, jobs, r))
  {
    var jobs := [a, b, a2, b2];
    assert a2 in jobs && b2 in jobs && a in jobs && b in jobs;
    assert Edge(glob, jobs, a.name, b.name) && Edge(glob, jobs, b.name, a.name);
    assert IsCycle(glob, jobs, [a.name, b.name, a.name]);
    forall r: nat | r < |jobs| ensures !ReachesCycle(View(glob, jobs, r)) {
      HiddenFrom(glob, jobs, r);
    }
  }

  lemma LassoSteps(v: View, p: seq<string>)
    requires v.Valid() && IsLasso(v, p)
    ensures Seen(v, p[0], p[1]) && (|p| == 2 ==> p[0] == p[1]) && (|p| > 2 ==> Seen(v, p[1], p[2]))
  {
    assert IsPath(v, p) && p[0 + 1] == p[1];
  }

  /** Only the root's own gets are seen, and they lead to a job without any. */
  lemma HiddenFrom(glob: Glob, jobs: seq<JobConfig>, r: nat)
    requires |jobs| == 4 && r < 4
    requires jobs[0].name != jobs[1].name && jobs[2].name == jobs[0].name && jobs[3].name == jobs[1].name
    requires jobs[0].Inputs() == [] && jobs[1].Inputs() == []
    requires forall n :: Passes(glob, jobs[2], n) <==> n == jobs[1].name
    requires forall n :: Passes(glob, jobs[3], n) <==> n == jobs[0].name
    ensures !ReachesCycle(View(glob, jobs, r))
  {
    var v := View(glob, jobs, r);
    var own := jobs[r].name;
    forall x, y | Seen(v, x, y) ensures x == own && y != own {
      var i: nat :| Represents(v, i) && jobs[i].name == x && Passes(glob, jobs[i], y);
      assert i == 0 || i == 1 || i == 2 || i == 3;
      assert i != r ==> i < 2;
    }
    if p :| IsLasso(v, p) { LassoSteps(v, p); }
  }
}
