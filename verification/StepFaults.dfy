/** Which messages validation records, said of the step tree itself (atc/step_validator.go).

    `Noted` finds the faults of a step where they are, with no regard to how the tree is
    walked; a message is recorded exactly if its fault is there. */
module StepFaults {
  import opened Steps
  import opened Validator

  // ---- the names a step leaves behind ----

  function GetNames(leaves: seq<TypedLeaf>): set<string> {
    set l | l in leaves && l.Get? :: l.get.name
  }

  /** The local vars a step declares in the scope it is in: those of an across are gone after
      it. */
  function Declared(c: StepConfig): set<string>
    decreases c
  {
    match c
    case Leaf(l) => if l.LoadVar? then {l.loadVar.name} else {}
    case Try(s) => DeclaredIn(s)
    case Do(steps, _) => DeclaredOf(steps)
    case InParallel(steps, _, _, _) => DeclaredOf(steps)
    case Across(_, _, _) => {}
    case Retry(inner, _) => Declared(inner)
    case Timeout(inner, _) => Declared(inner)
    case Hook(_, inner, hook) => Declared(inner) + DeclaredIn(hook)
  }

  function DeclaredIn(s: Step<TypedLeaf>): set<string>
    decreases s
  {
    Declared(s.config)
  }

  function DeclaredOf(steps: seq<Step<TypedLeaf>>): set<string>
    decreases steps
  {
    if steps == [] then {} else DeclaredOf(steps[..|steps| - 1]) + DeclaredIn(steps[|steps| - 1])
  }

  /** What has been seen once these leaves have been visited and these vars declared. */
  function More(seen: Seen, leaves: seq<TypedLeaf>, vars: set<string>): Seen
    requires seen.scopes != []
  {
    var n := |seen.scopes| - 1;
    Seen(seen.gets + GetNames(leaves), seen.scopes[n := seen.scopes[n] + vars])
  }

  lemma SameScopes(seen: Seen, none: set<string>)
    requires seen.scopes != [] && none == {}
    ensures seen.scopes[|seen.scopes| - 1 := seen.scopes[|seen.scopes| - 1] + none] == seen.scopes
    ensures GetNames([]) == {} && More(seen, [], none) == seen
  {
    assert seen.scopes[|seen.scopes| - 1] + none == seen.scopes[|seen.scopes| - 1];
    assert seen.gets + GetNames([]) == seen.gets;
  }

  lemma MoreTwice(seen: Seen, a: seq<TypedLeaf>, x: set<string>, b: seq<TypedLeaf>, y: set<string>)
    requires seen.scopes != []
    ensures More(More(seen, a, x), b, y) == More(seen, a + b, x + y)
  {
    var n := |seen.scopes| - 1;
    assert GetNames(a + b) == GetNames(a) + GetNames(b);
    assert seen.scopes[n] + x + y == seen.scopes[n] + (x + y);
  }

  lemma {:induction false} AcrossVarsSeen(vars: seq<AcrossVar>, ctx: Context, seen: Seen)
    requires seen.scopes != []
    ensures CheckAcrossVars(vars, ctx, seen).seen == More(seen, [], NamesOf(vars))
  {
    var n := |seen.scopes| - 1;
    if vars == [] {
      SameScopes(seen, NamesOf(vars));
    } else {
      AcrossVarsSeen(vars[..|vars| - 1], ctx, seen);
      NamesSnoc(vars);
      var front := More(seen, [], NamesOf(vars[..|vars| - 1]));
      assert front.scopes[n] + {vars[|vars| - 1].name} == seen.scopes[n] + NamesOf(vars);
    }
  }

  function NamesOf(vars: seq<AcrossVar>): set<string> {
    set v | v in vars :: v.name
  }

  lemma NamesSnoc(vars: seq<AcrossVar>)
    requires vars != []
    ensures NamesOf(vars) == NamesOf(vars[..|vars| - 1]) + {vars[|vars| - 1].name}
  {
    assert vars == vars[..|vars| - 1] + [vars[|vars| - 1]];
  }

  /** Checking a step leaves behind the names it leaves behind. */
  lemma {:induction false} CheckSeen(pl: Pipeline, c: StepConfig, ctx: Context, seen: Seen)
    requires seen.scopes != []
    ensures Check(pl, c, ctx, seen).seen == More(seen, Leaves(c), Declared(c))
    decreases c, 1
  {
    match c
    case Leaf(l) => LeafSeen(pl, l, ctx, seen);
    case Try(s) => CheckSeenIn(pl, s, ctx + [Field(".try")], seen);
    case Do(steps, _) => CheckSeenOf(pl, steps, ctx + [Field(".do")], "", seen);
    case InParallel(steps, _, _, _) => CheckSeenOf(pl, steps, ctx + [Field(".in_parallel")], ".steps", seen);
    case Across(inner, vars, _) => AcrossSeen(pl, c, ctx, seen);
    case Retry(inner, _) => CheckSeen(pl, inner, ctx, seen);
    case Timeout(inner, _) => CheckSeen(pl, inner, ctx, seen);
    case Hook(kind, inner, hook) =>
      CheckSeen(pl, inner, ctx, seen);
      CheckSeenIn(pl, hook, ctx + [Field(HookField(kind))], Check(pl, inner, ctx, seen).seen);
      MoreTwice(seen, Leaves(inner), Declared(inner), LeavesIn(hook), DeclaredIn(hook));
  }

  lemma LeafSeen(pl: Pipeline, l: TypedLeaf, ctx: Context, seen: Seen)
    requires seen.scopes != []
    ensures CheckLeaf(pl, l, ctx, seen).seen == More(seen, [l], Declared(Leaf(l)))
  {
    SameScopes(seen, {});
    assert GetNames([l]) == if l.Get? then {l.get.name} else {};
  }

  lemma {:induction false} AcrossSeen(pl: Pipeline, c: StepConfig, ctx: Context, seen: Seen)
    requires seen.scopes != [] && c.Across?
    ensures Check(pl, c, ctx, seen).seen == More(seen, Leaves(c), {})
    decreases c, 0
  {
    var at, pushed := ctx + [Field(".across")], seen.(scopes := seen.scopes + [{}]);
    AcrossVarsSeen(c.vars, at, pushed);
    var inside := CheckVars(c.vars, at, pushed).seen;
    CheckSeen(pl, c.inner, at, inside);
    var n := |seen.scopes| - 1;
    assert More(inside, Leaves(c.inner), Declared(c.inner)).scopes[..n + 1] == seen.scopes;
    SameScopes(seen, {});
    SameScopes(pushed, {});
  }

  lemma {:induction false} CheckSeenIn(pl: Pipeline, s: Step<TypedLeaf>, ctx: Context, seen: Seen)
    requires seen.scopes != []
    ensures CheckStep(pl, s, ctx, seen).seen == More(seen, LeavesIn(s), DeclaredIn(s))
    decreases s
  {
    CheckSeen(pl, s.config, ctx, seen);
  }

  lemma {:induction false} CheckSeenOf(pl: Pipeline, steps: seq<Step<TypedLeaf>>, ctx: Context, prefix: string, seen: Seen)
    requires seen.scopes != []
    ensures CheckAll(pl, steps, ctx, prefix, seen).seen == More(seen, LeavesOf(steps), DeclaredOf(steps))
    decreases steps
  {
    if steps == [] {
      SameScopes(seen, {});
    } else {
      var n := |steps| - 1;
      CheckSeenOf(pl, steps[..n], ctx, prefix, seen);
      CheckSeenIn(pl, steps[n], ctx + [Item(prefix, n)], CheckAll(pl, steps[..n], ctx, prefix, seen).seen);
      LeavesSnoc(steps);
      MoreTwice(seen, LeavesOf(steps[..n]), DeclaredOf(steps[..n]), LeavesIn(steps[n]), DeclaredIn(steps[n]));
    }
  }

  // ---- faults, where they are; `asError` tells errors from warnings ----

  ghost predicate NameNoted(pl: Pipeline, name: string, at: Context, m: Message, asError: bool) {
    && m.context == at && m.problem.Identifier?
    && pl.checks.identifier(name, at) == if asError then Bad(m.problem.msg) else Warn(m.problem.msg)
  }

  ghost predicate TaskNoted(pl: Pipeline, t: TaskStep, at: Context, m: Message, asError: bool) {
    || NameNoted(pl, t.name, at, m, asError)
    || (if asError then
          || (m == Message(at, NoTaskConfig) && t.config.None? && t.configPath == "")
          || (m == Message(at, TwoTaskConfigs) && t.config.Some? && t.configPath != "")
          || (t.config.Some? && m.context == at + [Field(".config")]
              && (|| (m.problem == UnknownFields(t.config.value.unknown) && t.config.value.unknown != {})
                  || exists msg :: msg in pl.checks.taskConfig(t.config.value) && m.problem == TaskConfigInvalid(msg)))
        else
          || (m == Message(at, ImageTwice) && t.image != "" && t.config.Some?
              && (t.config.value.rootfsURI != "" || t.config.value.hasImageResource))
          || (m == Message(at, HermeticOnContainerd) && t.hermetic))
  }

  /** A pattern that no job matches, or a job it matches that neither gets nor puts the
      resource. */
  ghost predicate PassedNoted(pl: Pipeline, passed: seq<string>, resource: string, at: Context, m: Message) {
    exists pattern :: pattern in passed && PatternNoted(pl, pattern, resource, at, m)
  }

  ghost predicate PatternNoted(pl: Pipeline, pattern: string, resource: string, at: Context, m: Message) {
    || (m == Message(at, NoMatchingJob(pattern)) && forall j :: j in pl.jobs ==> !pl.checks.glob(pattern, j.name))
    || exists j :: j in pl.jobs && pl.checks.glob(pattern, j.name) && m == Message(at, JobIgnoresResource(j.name, resource))
                   && !Uses(j, resource)
  }

  ghost predicate Uses(j: JobConfig, resource: string) {
    || (exists g :: Get(g) in Leaves(j.StepConfig()) && (if g.resource != "" then g.resource else g.name) == resource)
    || (exists p :: Put(p) in Leaves(j.StepConfig()) && (if p.resource != "" then p.resource else p.name) == resource)
  }

  ghost predicate GetNoted(pl: Pipeline, g: GetStep, at: Context, seen: Seen, m: Message, asError: bool) {
    var resource := if g.resource != "" then g.resource else g.name;
    || NameNoted(pl, g.name, at, m, asError)
    || (asError &&
        (|| (m == Message(at, RepeatedName) && g.name in seen.gets)
         || (m == Message(at, UnknownResource(resource)) && resource !in pl.resources)
         || PassedNoted(pl, g.passed, resource, at + [Field(".passed")], m)))
  }

  /** A name declared again in its scope, or one that hides a name of an outer scope. */
  ghost predicate VarNoted(name: string, at: Context, seen: Seen, m: Message, asError: bool)
    requires seen.scopes != []
  {
    var n := |seen.scopes| - 1;
    if asError then m == Message(at, RepeatedVar) && name in seen.scopes[n]
    else m == Message(at, ShadowsVar(name)) && name !in seen.scopes[n] && exists k :: 0 <= k < n && name in seen.scopes[k]
  }

  ghost predicate LeafNoted(pl: Pipeline, l: TypedLeaf, ctx: Context, seen: Seen, m: Message, asError: bool)
    requires seen.scopes != []
  {
    match l
    case Task(t) => TaskNoted(pl, t, ctx + [Call(".task", t.name)], m, asError)
    case Get(g) => GetNoted(pl, g, ctx + [Call(".get", g.name)], seen, m, asError)
    case Put(p) =>
      var at, resource := ctx + [Call(".put", p.name)], if p.resource != "" then p.resource else p.name;
      NameNoted(pl, p.name, at, m, asError) || (asError && m == Message(at, UnknownResource(resource)) && resource !in pl.resources)
    case Run(r) =>
      var at := ctx + [Call(".run", r.prototype + "." + r.message)];
      asError &&
      (|| NameNoted(pl, r.message, at, m, true) || NameNoted(pl, r.message, at, m, false)
       || (m == Message(at, UnknownPrototype(r.prototype)) && r.prototype !in pl.prototypes))
    case SetPipeline(s) =>
      var at := ctx + [Call(".set_pipeline", s.name)];
      NameNoted(pl, s.name, at, m, asError) || (asError && m == Message(at, NoFile) && s.file == "")
    case LoadVar(v) =>
      var at := ctx + [Call(".load_var", v.name)];
      || NameNoted(pl, v.name, at, m, asError) || VarNoted(v.name, at, seen, m, asError)
      || (asError && m == Message(at, NoFile) && v.file == "")
  }

  ghost predicate AcrossNoted(vars: seq<AcrossVar>, at: Context, seen: Seen, m: Message, asError: bool) {
    || (asError && vars == [] && m == Message(at, NoVars))
    || SomeVarNoted(vars, at, seen, m, asError)
  }

  ghost predicate SomeVarNoted(vars: seq<AcrossVar>, at: Context, seen: Seen, m: Message, asError: bool) {
    exists i :: 0 <= i < |vars| && AcrossVarNoted(vars, i, at + [Item("", i)], seen, m, asError)
  }

  ghost predicate AcrossVarNoted(vars: seq<AcrossVar>, i: nat, at: Context, seen: Seen, m: Message, asError: bool)
    requires i < |vars|
  {
    var repeated := vars[i].name in NamesOf(vars[..i]);
    if asError then
      || (repeated && m == Message(at, RepeatedVar))
      || (vars[i].maxInFlight.Some? && vars[i].maxInFlight.value.Limit? && vars[i].maxInFlight.value.n <= 0
          && m == Message(at + [Field(".max_in_flight")], NotPositive))
    else
      !repeated && m == Message(at, ShadowsVar(vars[i].name)) && exists k :: 0 <= k < |seen.scopes| && vars[i].name in seen.scopes[k]
  }

  ghost predicate Noted(pl: Pipeline, c: StepConfig, ctx: Context, seen: Seen, m: Message, asError: bool)
    requires seen.scopes != []
    decreases c
  {
    match c
    case Leaf(l) => LeafNoted(pl, l, ctx, seen, m, asError)
    case Try(s) => NotedIn(pl, s, ctx + [Field(".try")], seen, m, asError)
    case Do(steps, _) => NotedOf(pl, steps, ctx + [Field(".do")], "", seen, m, asError)
    case InParallel(steps, _, _, _) => NotedOf(pl, steps, ctx + [Field(".in_parallel")], ".steps", seen, m, asError)
    case Across(inner, vars, _) =>
      var at := ctx + [Field(".across")];
      || AcrossNoted(vars, at, seen, m, asError)
      || Noted(pl, inner, at, Seen(seen.gets, seen.scopes + [NamesOf(vars)]), m, asError)
    case Retry(inner, attempts) =>
      || Noted(pl, inner, ctx, seen, m, asError)
      || (asError && attempts <= 0 && m == Message(ctx + [Field(".attempts")], NotPositive))
    case Timeout(inner, duration) =>
      || Noted(pl, inner, ctx, seen, m, asError)
      || (asError && !pl.checks.duration(duration) && m == Message(ctx + [Field(".timeout")], InvalidDuration(duration)))
    case Hook(kind, inner, hook) =>
      var field := match kind
                   case OnSuccess => ".on_success"
                   case OnFailure => ".on_failure"
                   case OnAbort => ".on_abort"
                   case OnError => ".on_error"
                   case Ensure => ".ensure";
      || Noted(pl, inner, ctx, seen, m, asError)
      || NotedIn(pl, hook, ctx + [Field(field)], More(seen, Leaves(inner), Declared(inner)), m, asError)
  }

  ghost predicate NotedIn(pl: Pipeline, s: Step<TypedLeaf>, ctx: Context, seen: Seen, m: Message, asError: bool)
    requires seen.scopes != []
    decreases s
  {
    || (asError && s.unknown != map[] && m == Message(ctx, UnknownFields(s.unknown.Keys)))
    || Noted(pl, s.config, ctx, seen, m, asError)
  }

  /** In one of the steps, after what those before it leave behind. */
  ghost predicate NotedOf(pl: Pipeline, steps: seq<Step<TypedLeaf>>, ctx: Context, prefix: string, seen: Seen, m: Message,
                          asError: bool)
    requires seen.scopes != []
    decreases steps
  {
    steps != [] &&
    var n := |steps| - 1;
    || NotedOf(pl, steps[..n], ctx, prefix, seen, m, asError)
    || NotedIn(pl, steps[n], ctx + [Item(prefix, n)], More(seen, LeavesOf(steps[..n]), DeclaredOf(steps[..n])), m, asError)
  }

  // ---- exactly those are recorded ----

  function Recorded(o: Out, asError: bool): seq<Message> {
    if asError then o.errors else o.warnings
  }

  lemma {:induction false} ConfigErrorsNoted(msgs: seq<string>, at: Context, m: Message)
    ensures m in TaskConfigErrors(msgs, at) <==>
            m.context == at && m.problem.TaskConfigInvalid? && m.problem.msg in msgs
  {
    if msgs != [] {
      ConfigErrorsNoted(msgs[..|msgs| - 1], at, m);
      assert msgs == msgs[..|msgs| - 1] + [msgs[|msgs| - 1]];
    }
  }

  lemma InteractsUses(j: JobConfig, resource: string)
    ensures Interacts(j, resource) <==> Uses(j, resource)
  {
    if Interacts(j, resource) {
      var l :| l in Leaves(j.StepConfig()) && Touches(l, resource);
      if l.Get? { assert Get(l.get) in Leaves(j.StepConfig()); } else { assert Put(l.put) in Leaves(j.StepConfig()); }
    }
    if g :| Get(g) in Leaves(j.StepConfig()) && (if g.resource != "" then g.resource else g.name) == resource {
      assert Touches(Get(g), resource);
    }
    if p :| Put(p) in Leaves(j.StepConfig()) && (if p.resource != "" then p.resource else p.name) == resource {
      assert Touches(Put(p), resource);
    }
  }

  lemma {:induction false} JobErrorsNoted(pl: Pipeline, jobs: seq<JobConfig>, pattern: string, resource: string, at: Context, m: Message)
    ensures m in JobErrors(pl, jobs, pattern, resource, at) <==>
            exists j :: j in jobs && pl.checks.glob(pattern, j.name) && m == Message(at, JobIgnoresResource(j.name, resource))
                        && !Uses(j, resource)
  {
    if jobs != [] {
      var n := |jobs| - 1;
      JobErrorsNoted(pl, jobs[..n], pattern, resource, at, m);
      InteractsUses(jobs[n], resource);
      assert jobs == jobs[..n] + [jobs[n]];
    }
  }

  lemma {:induction false} PassedErrorsNoted(pl: Pipeline, passed: seq<string>, resource: string, at: Context, m: Message)
    ensures m in PassedErrors(pl, passed, resource, at) <==> PassedNoted(pl, passed, resource, at, m)
  {
    if passed != [] {
      var n := |passed| - 1;
      PassedErrorsNoted(pl, passed[..n], resource, at, m);
      JobErrorsNoted(pl, pl.jobs, passed[n], resource, at, m);
      assert passed == passed[..n] + [passed[n]];
      assert PassedNoted(pl, passed, resource, at, m) <==>
             PassedNoted(pl, passed[..n], resource, at, m) || PatternNoted(pl, passed[n], resource, at, m);
    }
  }

  lemma TaskRecorded(pl: Pipeline, t: TaskStep, ctx: Context, seen: Seen, m: Message, asError: bool)
    ensures m in Recorded(CheckTask(pl, t, ctx, seen), asError) <==> TaskNoted(pl, t, ctx + [Call(".task", t.name)], m, asError)
  {
    if t.config.Some? {
      ConfigErrorsNoted(pl.checks.taskConfig(t.config.value), ctx + [Call(".task", t.name)] + [Field(".config")], m);
    }
  }

  lemma GetRecorded(pl: Pipeline, g: GetStep, ctx: Context, seen: Seen, m: Message, asError: bool)
    ensures m in Recorded(CheckGet(pl, g, ctx, seen), asError) <==> GetNoted(pl, g, ctx + [Call(".get", g.name)], seen, m, asError)
  {
    PassedErrorsNoted(pl, g.passed, g.ResourceName(), ctx + [Call(".get", g.name)] + [Field(".passed")], m);
  }

  lemma DeclareRecorded(name: string, at: Context, seen: Seen, m: Message, asError: bool)
    requires seen.scopes != []
    ensures m in Recorded(Declare(name, at, seen), asError) <==> VarNoted(name, at, seen, m, asError)
  {
  }

  lemma LoadVarRecorded(pl: Pipeline, v: LoadVarStep, ctx: Context, seen: Seen, m: Message, asError: bool)
    requires seen.scopes != []
    ensures m in Recorded(CheckLoadVar(pl, v, ctx, seen), asError) <==> LeafNoted(pl, LoadVar(v), ctx, seen, m, asError)
  {
    DeclareRecorded(v.name, ctx + [Call(".load_var", v.name)], seen, m, asError);
  }

  lemma RunRecorded(pl: Pipeline, r: RunStep, ctx: Context, seen: Seen, m: Message, asError: bool)
    requires seen.scopes != []
    ensures m in Recorded(CheckRun(pl, r, ctx, seen), asError) <==> LeafNoted(pl, Run(r), ctx, seen, m, asError)
  {
  }

  lemma LeafRecorded(pl: Pipeline, l: TypedLeaf, ctx: Context, seen: Seen, m: Message, asError: bool)
    requires seen.scopes != []
    ensures m in Recorded(CheckLeaf(pl, l, ctx, seen), asError) <==> LeafNoted(pl, l, ctx, seen, m, asError)
  {
    match l
    case Task(t) => TaskRecorded(pl, t, ctx, seen, m, asError);
    case Get(g) => GetRecorded(pl, g, ctx, seen, m, asError);
    case Run(r) => RunRecorded(pl, r, ctx, seen, m, asError);
    case LoadVar(v) => LoadVarRecorded(pl, v, ctx, seen, m, asError);
    case Put(_) =>
    case SetPipeline(_) =>
  }

  lemma SomeVarSnoc(vars: seq<AcrossVar>, at: Context, seen: Seen, m: Message, asError: bool)
    requires vars != []
    ensures var n := |vars| - 1;
            SomeVarNoted(vars, at, seen, m, asError) <==>
            SomeVarNoted(vars[..n], at, seen, m, asError) || AcrossVarNoted(vars, n, at + [Item("", n)], seen, m, asError)
  {
    var n := |vars| - 1;
    forall i | 0 <= i < n
      ensures AcrossVarNoted(vars, i, at + [Item("", i)], seen, m, asError) <==>
              AcrossVarNoted(vars[..n], i, at + [Item("", i)], seen, m, asError)
    {
      assert vars[..n][..i] == vars[..i];
    }
  }

  /** The vars of an across, in the scope pushed for them. */
  lemma {:induction false} AcrossVarsRecorded(vars: seq<AcrossVar>, at: Context, seen: Seen, m: Message, asError: bool)
    ensures var pushed := Seen(seen.gets, seen.scopes + [{}]);
            m in Recorded(CheckAcrossVars(vars, at, pushed), asError) <==> SomeVarNoted(vars, at, seen, m, asError)
  {
    if vars != [] {
      AcrossVarsRecorded(vars[..|vars| - 1], at, seen, m, asError);
      LastVarRecorded(vars, at, seen, m, asError);
      SomeVarSnoc(vars, at, seen, m, asError);
    }
  }

  lemma VarsSplit(vars: seq<AcrossVar>, at: Context, seen: Seen, m: Message, asError: bool)
    requires vars != [] && seen.scopes != []
    ensures var n := |vars| - 1;
            var before, here, limit := CheckAcrossVars(vars[..n], at, seen), at + [Item("", n)], vars[n].maxInFlight;
            m in Recorded(CheckAcrossVars(vars, at, seen), asError) <==>
            || m in Recorded(before, asError)
            || m in Recorded(Declare(vars[n].name, here, before.seen), asError)
            || (asError && limit.Some? && limit.value.Limit? && limit.value.n <= 0
                && m == Message(here + [Field(".max_in_flight")], NotPositive))
  {
  }

  lemma PushedNoted(name: string, at: Context, seen: Seen, names: set<string>, m: Message, asError: bool)
    ensures var before := More(Seen(seen.gets, seen.scopes + [{}]), [], names);
            VarNoted(name, at, before, m, asError) <==>
            if asError then name in names && m == Message(at, RepeatedVar)
            else name !in names && m == Message(at, ShadowsVar(name)) && exists k :: 0 <= k < |seen.scopes| && name in seen.scopes[k]
  {
    var before, n := More(Seen(seen.gets, seen.scopes + [{}]), [], names), |seen.scopes|;
    assert before.scopes[n] == names;
    assert forall k :: 0 <= k < n ==> before.scopes[k] == seen.scopes[k];
  }

  lemma LastVarRecorded(vars: seq<AcrossVar>, at: Context, seen: Seen, m: Message, asError: bool)
    requires vars != []
    ensures var pushed, n := Seen(seen.gets, seen.scopes + [{}]), |vars| - 1;
            m in Recorded(CheckAcrossVars(vars, at, pushed), asError) <==>
            m in Recorded(CheckAcrossVars(vars[..n], at, pushed), asError)
            || AcrossVarNoted(vars, n, at + [Item("", n)], seen, m, asError)
  {
    var pushed, n := Seen(seen.gets, seen.scopes + [{}]), |vars| - 1;
    AcrossVarsSeen(vars[..n], at, pushed);
    VarsSplit(vars, at, pushed, m, asError);
    DeclareRecorded(vars[n].name, at + [Item("", n)], More(pushed, [], NamesOf(vars[..n])), m, asError);
    PushedNoted(vars[n].name, at + [Item("", n)], seen, NamesOf(vars[..n]), m, asError);
  }

  /** A message is recorded, as an error or as a warning, exactly if the step has its fault. */
  lemma {:induction false} FaultsRecorded(pl: Pipeline, c: StepConfig, ctx: Context, seen: Seen, m: Message, asError: bool)
    requires seen.scopes != []
    ensures m in Recorded(Check(pl, c, ctx, seen), asError) <==> Noted(pl, c, ctx, seen, m, asError)
    decreases c, 1
  {
    match c
    case Leaf(l) => LeafRecorded(pl, l, ctx, seen, m, asError);
    case Try(s) => FaultsRecordedIn(pl, s, ctx + [Field(".try")], seen, m, asError);
    case Do(steps, _) => FaultsRecordedOf(pl, steps, ctx + [Field(".do")], "", seen, m, asError);
    case InParallel(steps, _, _, _) => FaultsRecordedOf(pl, steps, ctx + [Field(".in_parallel")], ".steps", seen, m, asError);
    case Across(_, _, _) => AcrossRecorded(pl, c, ctx, seen, m, asError);
    case Retry(_, _) => ModifierRecorded(pl, c, ctx, seen, m, asError);
    case Timeout(_, _) => ModifierRecorded(pl, c, ctx, seen, m, asError);
    case Hook(_, _, _) => HookRecorded(pl, c, ctx, seen, m, asError);
  }

  lemma {:induction false} ModifierRecorded(pl: Pipeline, c: StepConfig, ctx: Context, seen: Seen, m: Message, asError: bool)
    requires seen.scopes != [] && (c.Retry? || c.Timeout?)
    ensures m in Recorded(Check(pl, c, ctx, seen), asError) <==> Noted(pl, c, ctx, seen, m, asError)
    decreases c, 0
  {
    FaultsRecorded(pl, c.inner, ctx, seen, m, asError);
  }

  lemma HookSplits(pl: Pipeline, c: StepConfig, ctx: Context, seen: Seen, m: Message, asError: bool)
    requires seen.scopes != [] && c.Hook?
    ensures var first := Check(pl, c.inner, ctx, seen);
            m in Recorded(Check(pl, c, ctx, seen), asError) <==>
            || m in Recorded(first, asError)
            || m in Recorded(CheckStep(pl, c.hook, ctx + [Field(HookField(c.kind))], first.seen), asError)
  {
  }

  lemma HookNoted(pl: Pipeline, c: StepConfig, ctx: Context, seen: Seen, m: Message, asError: bool)
    requires seen.scopes != [] && c.Hook?
    ensures Noted(pl, c, ctx, seen, m, asError) <==>
            || Noted(pl, c.inner, ctx, seen, m, asError)
            || NotedIn(pl, c.hook, ctx + [Field(HookField(c.kind))], More(seen, Leaves(c.inner), Declared(c.inner)), m, asError)
  {
  }

  lemma {:induction false} HookRecorded(pl: Pipeline, c: StepConfig, ctx: Context, seen: Seen, m: Message, asError: bool)
    requires seen.scopes != [] && c.Hook?
    ensures m in Recorded(Check(pl, c, ctx, seen), asError) <==> Noted(pl, c, ctx, seen, m, asError)
    decreases c, 0
  {
    HookSplits(pl, c, ctx, seen, m, asError);
    HookNoted(pl, c, ctx, seen, m, asError);
    FaultsRecorded(pl, c.inner, ctx, seen, m, asError);
    CheckSeen(pl, c.inner, ctx, seen);
    FaultsRecordedIn(pl, c.hook, ctx + [Field(HookField(c.kind))], More(seen, Leaves(c.inner), Declared(c.inner)), m, asError);
  }

  lemma {:induction false} AcrossRecorded(pl: Pipeline, c: StepConfig, ctx: Context, seen: Seen, m: Message, asError: bool)
    requires seen.scopes != [] && c.Across?
    ensures m in Recorded(Check(pl, c, ctx, seen), asError) <==> Noted(pl, c, ctx, seen, m, asError)
    decreases c, 0
  {
    var at, pushed := ctx + [Field(".across")], Seen(seen.gets, seen.scopes + [{}]);
    AcrossVarsRecorded(c.vars, at, seen, m, asError);
    AcrossVarsSeen(c.vars, at, pushed);
    var inside := Seen(seen.gets, seen.scopes + [NamesOf(c.vars)]);
    SameScopes(pushed, {});
    assert {} + NamesOf(c.vars) == NamesOf(c.vars) && More(pushed, [], NamesOf(c.vars)).scopes == inside.scopes;
    FaultsRecorded(pl, c.inner, at, inside, m, asError);
  }

  lemma {:induction false} FaultsRecordedIn(pl: Pipeline, s: Step<TypedLeaf>, ctx: Context, seen: Seen, m: Message, asError: bool)
    requires seen.scopes != []
    ensures m in Recorded(CheckStep(pl, s, ctx, seen), asError) <==> NotedIn(pl, s, ctx, seen, m, asError)
    decreases s
  {
    FaultsRecorded(pl, s.config, ctx, seen, m, asError);
  }

  lemma {:induction false} FaultsRecordedOf(pl: Pipeline, steps: seq<Step<TypedLeaf>>, ctx: Context, prefix: string, seen: Seen,
                                            m: Message, asError: bool)
    requires seen.scopes != []
    ensures m in Recorded(CheckAll(pl, steps, ctx, prefix, seen), asError) <==> NotedOf(pl, steps, ctx, prefix, seen, m, asError)
    decreases steps
  {
    if steps != [] {
      var n := |steps| - 1;
      FaultsRecordedOf(pl, steps[..n], ctx, prefix, seen, m, asError);
      CheckSeenOf(pl, steps[..n], ctx, prefix, seen);
      FaultsRecordedIn(pl, steps[n], ctx + [Item(prefix, n)], CheckAll(pl, steps[..n], ctx, prefix, seen).seen, m, asError);
    }
  }
}
