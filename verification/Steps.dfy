/** The step language (atc/steps.go, atc/job_config.go) and the traversal of its base
    steps (atc/step_recursor.go).  The tree is generic in its leaves: the planner and
    the validator use the typed ones below, the JSON layer uses decoded field maps. */
module Steps {
  import opened Wrappers

  /** A decoded JSON or YAML value. */
  datatype Json =
    | Null
    | Bool(b: bool)
    | Num(n: int)
    | Frac(text: string)
    | Str(s: string)
    | Arr(elems: seq<Json>)
    | Obj(fields: map<string, Json>)

  type Tags = seq<string>

  datatype MaxInFlight = AllValues | Limit(n: int)

  datatype AcrossVar = AcrossVar(name: string, values: Json, maxInFlight: Option<MaxInFlight>)

  datatype HookKind = OnSuccess | OnFailure | OnAbort | OnError | Ensure

  /** The envelope: a configured step and the fields nobody claimed. */
  datatype Step<L> = Step(config: Config<L>, unknown: map<string, Json>)

  datatype Config<L> =
    | Leaf(leaf: L)
    | Try(step: Step<L>)
    | Do(steps: seq<Step<L>>, tags: Tags)
    | InParallel(branches: seq<Step<L>>, limit: int, failFast: bool, tags: Tags)
    | Across(inner: Config<L>, vars: seq<AcrossVar>, failFast: bool)
    | Retry(inner: Config<L>, attempts: int)
    | Timeout(inner: Config<L>, duration: string)
    | Hook(kind: HookKind, inner: Config<L>, hook: Step<L>)

  // ---- typed leaves ----

  datatype TaskConfig = TaskConfig(rootfsURI: string, hasImageResource: bool, unknown: set<string>, body: Json)

  datatype TaskStep = TaskStep(
    name: string, privileged: bool, hermetic: bool, configPath: string, limits: Json, config: Option<TaskConfig>,
    env: Json, taskVars: Json, tags: Tags, inputMapping: Json, outputMapping: Json, image: string, timeout: string)

  datatype GetStep = GetStep(
    name: string, resource: string, version: Json, params: Json, passed: seq<string>, trigger: bool,
    tags: Tags, timeout: string)
  {
    function ResourceName(): string { if resource != "" then resource else name }
  }

  datatype PutStep = PutStep(
    name: string, resource: string, params: Json, inputs: Json, tags: Tags, getParams: Json, timeout: string, noGet: bool)
  {
    function ResourceName(): string { if resource != "" then resource else name }
  }

  datatype RunStep = RunStep(
    message: string, prototype: string, params: map<string, Json>, privileged: bool, tags: Tags, limits: Json, timeout: string)

  datatype SetPipelineStep = SetPipelineStep(
    name: string, file: string, team: string, pipelineVars: Json, varFiles: seq<string>, instanceVars: Json)

  datatype LoadVarStep = LoadVarStep(name: string, file: string, format: string, revealed: bool)

  datatype TypedLeaf =
    | Task(task: TaskStep)
    | Get(get: GetStep)
    | Put(put: PutStep)
    | Run(run: RunStep)
    | SetPipeline(setPipeline: SetPipelineStep)
    | LoadVar(loadVar: LoadVarStep)

  type StepConfig = Config<TypedLeaf>

  // ---- StepRecursor ----

  /** The base steps, in the order StepRecursor calls its hooks on them. */
  function Leaves<L>(c: Config<L>): seq<L> {
    match c
    case Leaf(l) => [l]
    case Try(s) => Leaves(s.config)
    case Do(steps, _) => LeavesOf(steps)
    case InParallel(steps, _, _, _) => LeavesOf(steps)
    case Across(inner, _, _) => Leaves(inner)
    case Retry(inner, _) => Leaves(inner)
    case Timeout(inner, _) => Leaves(inner)
    case Hook(_, inner, hook) => Leaves(inner) + Leaves(hook.config)
  }

  function LeavesOf<L>(steps: seq<Step<L>>): seq<L> {
    if steps == [] then [] else LeavesIn(steps[0]) + LeavesOf(steps[1..])
  }

  function LeavesIn<L>(s: Step<L>): seq<L> {
    Leaves(s.config)
  }

  lemma {:induction false} LeavesSnoc<L>(steps: seq<Step<L>>)
    requires steps != []
    ensures LeavesOf(steps) == LeavesOf(steps[..|steps| - 1]) + LeavesIn(steps[|steps| - 1])
  {
    if |steps| > 1 {
      LeavesSnoc(steps[1..]);
      assert steps[1..][..|steps| - 2] == steps[..|steps| - 1][1..];
    }
  }

  /** `l` is a base step somewhere in the tree. */
  ghost predicate Occurs<L>(l: L, c: Config<L>)
    decreases c
  {
    match c
    case Leaf(x) => x == l
    case Try(s) => OccursIn(l, s)
    case Do(steps, _) => exists i :: 0 <= i < |steps| && OccursIn(l, steps[i])
    case InParallel(steps, _, _, _) => exists i :: 0 <= i < |steps| && OccursIn(l, steps[i])
    case Across(inner, _, _) => Occurs(l, inner)
    case Retry(inner, _) => Occurs(l, inner)
    case Timeout(inner, _) => Occurs(l, inner)
    case Hook(_, inner, hook) => Occurs(l, inner) || OccursIn(l, hook)
  }

  ghost predicate OccursIn<L>(l: L, s: Step<L>)
    decreases s
  {
    Occurs(l, s.config)
  }

  /** The recursor comes to every base step, and to nothing else. */
  lemma {:induction false} LeavesOccur<L>(l: L, c: Config<L>)
    ensures l in Leaves(c) <==> Occurs(l, c)
    decreases c
  {
    match c
    case Leaf(_) =>
    case Try(s) => LeavesOccur(l, s.config);
    case Do(steps, _) => LeavesOccurOf(l, steps);
    case InParallel(steps, _, _, _) => LeavesOccurOf(l, steps);
    case Across(inner, _, _) => LeavesOccur(l, inner);
    case Retry(inner, _) => LeavesOccur(l, inner);
    case Timeout(inner, _) => LeavesOccur(l, inner);
    case Hook(_, inner, hook) =>
      LeavesOccur(l, inner);
      LeavesOccurIn(l, hook);
  }

  lemma {:induction false} LeavesOccurIn<L>(l: L, s: Step<L>)
    ensures l in LeavesIn(s) <==> OccursIn(l, s)
    decreases s
  {
    LeavesOccur(l, s.config);
  }

  lemma {:induction false} LeavesOccurOf<L>(l: L, steps: seq<Step<L>>)
    ensures l in LeavesOf(steps) <==> exists i :: 0 <= i < |steps| && OccursIn(l, steps[i])
    decreases steps
  {
    if steps != [] {
      LeavesOccurIn(l, steps[0]);
      LeavesOccurOf(l, steps[1..]);
      assert forall i :: 0 < i < |steps| ==> steps[i] == steps[1..][i - 1];
      if i :| 0 <= i < |steps[1..]| && OccursIn(l, steps[1..][i]) { assert OccursIn(l, steps[i + 1]); }
    }
  }

  // ---- jobs ----

  datatype JobConfig = JobConfig(
    name: string,
    serial: bool, serialGroups: seq<string>, rawMaxInFlight: int, tags: Tags,
    onSuccess: Option<Step<TypedLeaf>>, onFailure: Option<Step<TypedLeaf>>, onAbort: Option<Step<TypedLeaf>>,
    onError: Option<Step<TypedLeaf>>, ensureStep: Option<Step<TypedLeaf>>,
    plan: seq<Step<TypedLeaf>>)
  {
    function StepConfig(): StepConfig {
      var c0 := Do(plan, []);
      var c1 := AddHook(OnSuccess, c0, onSuccess);
      var c2 := AddHook(OnFailure, c1, onFailure);
      var c3 := AddHook(OnAbort, c2, onAbort);
      var c4 := AddHook(OnError, c3, onError);
      AddHook(Ensure, c4, ensureStep)
    }

    function MaxInFlight(): int {
      if serial || |serialGroups| > 0 then 1 else rawMaxInFlight
    }

    /** The gets of the job, in visiting order: the inputs it asks for. */
    function Inputs(): seq<GetStep> {
      Gets(Leaves(StepConfig()))
    }
  }

  function AddHook(kind: HookKind, c: StepConfig, hook: Option<Step<TypedLeaf>>): StepConfig {
    match hook
    case None => c
    case Some(h) => Hook(kind, c, h)
  }

  function Gets(leaves: seq<TypedLeaf>): (gets: seq<GetStep>)
    ensures forall g :: g in gets <==> Get(g) in leaves
  {
    if leaves == [] then []
    else (if leaves[0].Get? then [leaves[0].get] else []) + Gets(leaves[1..])
  }

  ghost predicate OccursInHook(l: TypedLeaf, hook: Option<Step<TypedLeaf>>) {
    hook.Some? && OccursIn(l, hook.value)
  }

  lemma AddHookOccurs(l: TypedLeaf, kind: HookKind, c: StepConfig, hook: Option<Step<TypedLeaf>>)
    ensures Occurs(l, AddHook(kind, c, hook)) <==> Occurs(l, c) || OccursInHook(l, hook)
  {
  }

  /** A job's base steps are those of its plan and of its five hooks. */
  lemma JobLeaves(j: JobConfig, l: TypedLeaf)
    ensures l in Leaves(j.StepConfig()) <==>
            || (exists i :: 0 <= i < |j.plan| && OccursIn(l, j.plan[i]))
            || OccursInHook(l, j.onSuccess) || OccursInHook(l, j.onFailure) || OccursInHook(l, j.onAbort)
            || OccursInHook(l, j.onError) || OccursInHook(l, j.ensureStep)
  {
    LeavesOccur(l, j.StepConfig());
    var c0 := Do(j.plan, []);
    var c1 := AddHook(OnSuccess, c0, j.onSuccess);
    var c2 := AddHook(OnFailure, c1, j.onFailure);
    var c3 := AddHook(OnAbort, c2, j.onAbort);
    var c4 := AddHook(OnError, c3, j.onError);
    AddHookOccurs(l, OnSuccess, c0, j.onSuccess);
    AddHookOccurs(l, OnFailure, c1, j.onFailure);
    AddHookOccurs(l, OnAbort, c2, j.onAbort);
    AddHookOccurs(l, OnError, c3, j.onError);
    AddHookOccurs(l, Ensure, c4, j.ensureStep);
  }
}
