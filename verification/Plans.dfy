/** Build plans (atc/plan.go). */
module Plans {
  import opened Wrappers
  import opened Steps

  type PlanID = string
  /** A resource source; nil and the empty map are not told apart. */
  type Source = map<string, Json>
  type Version = map<string, string>

  /** Every key of `own` keeps its value, and the other keys of `defaults` theirs. */
  ghost predicate IsOverlay(r: Source, defaults: Source, own: Source) {
    && r.Keys == defaults.Keys + own.Keys
    && (forall k :: k in own ==> r[k] == own[k])
    && (forall k :: k in defaults && k !in own ==> r[k] == defaults[k])
  }

  /** Source.Merge */
  function Merge(defaults: Source, other: Source): Source {
    defaults + other
  }

  lemma MergeOverlays(defaults: Source, other: Source)
    ensures IsOverlay(Merge(defaults, other), defaults, other)
  {
  }

  datatype CheckEvery = CheckEvery(never: bool, interval: int)

  datatype ResourceType = ResourceType(
    name: string, parent: string, source: Source, defaults: Source, privileged: bool,
    checkEvery: Option<CheckEvery>, tags: Tags, params: Json)

  datatype Plan = Plan(id: PlanID, body: Body)

  /** The image a resource runs in: a base type, or a custom type to check and fetch. */
  datatype TypeImage = TypeImage(baseType: string, privileged: bool, check: Option<Plan>, get: Option<Plan>)

  datatype GetBody = GetBody(
    name: string, kind: string, source: Source, image: TypeImage, version: Option<Version>, versionFrom: Option<PlanID>,
    params: Json, resource: string, tags: Tags, timeout: string)

  datatype PutBody = PutBody(
    name: string, kind: string, source: Source, image: TypeImage, params: Json, inputs: Json, resource: string,
    tags: Tags, timeout: string, exposeBuildCreatedBy: bool)

  /** A check without an `interval` uses the configured default. */
  datatype CheckBody = CheckBody(
    name: string, kind: string, source: Source, image: TypeImage, resourceType: string,
    interval: Option<CheckEvery>, skipInterval: bool, tags: Tags)

  datatype Body =
    | GetPlan(get: GetBody)
    | PutPlan(put: PutBody)
    | CheckPlan(check: CheckBody)
    // a task, run, set_pipeline or load_var step carried over with its effective tags
    | TaskPlan(task: TaskStep, resourceTypes: seq<ResourceType>, checkSkipInterval: bool)
    | RunPlan(run: RunStep)
    | SetPipelinePlan(setPipeline: SetPipelineStep)
    | LoadVarPlan(loadVar: LoadVarStep)
    | DoPlan(steps: seq<Plan>)
    | InParallelPlan(steps: seq<Plan>, limit: int, failFast: bool)
    | AcrossPlan(vars: seq<AcrossVar>, template: Plan, failFast: bool)
    | HookPlan(hookKind: HookKind, main: Plan, next: Plan)
    | TryPlan(main: Plan)
    | TimeoutPlan(main: Plan, duration: string)
    | RetryPlan(steps: seq<Plan>)

  // ---- Plan.Each, extended into across templates ----

  function All(p: Plan): seq<Plan> {
    [p] + AllIn(p.body)
  }

  /** The plans strictly inside a body. */
  function AllIn(b: Body): seq<Plan> {
    match b
    case GetPlan(get) => AllInImage(get.image)
    case PutPlan(put) => AllInImage(put.image)
    case CheckPlan(check) => AllInImage(check.image)
    case TaskPlan(_, _, _) => []
    case RunPlan(_) => []
    case SetPipelinePlan(_) => []
    case LoadVarPlan(_) => []
    case DoPlan(steps) => AllOf(steps)
    case InParallelPlan(steps, _, _) => AllOf(steps)
    case AcrossPlan(_, template, _) => All(template)
    case HookPlan(_, main, next) => All(main) + All(next)
    case TryPlan(main) => All(main)
    case TimeoutPlan(main, _) => All(main)
    case RetryPlan(steps) => AllOf(steps)
  }

  function AllOf(ps: seq<Plan>): seq<Plan> {
    if ps == [] then [] else All(ps[0]) + AllOf(ps[1..])
  }

  /** TypeImage.EachPlan */
  function AllInImage(i: TypeImage): seq<Plan> {
    AllInOption(i.check) + AllInOption(i.get)
  }

  function AllInOption(o: Option<Plan>): seq<Plan> {
    match o
    case None => []
    case Some(p) => All(p)
  }
}
