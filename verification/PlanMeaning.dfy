/** A plan means what its step means (atc/builds/planner.go, atc/engine/builder.go,
    atc/exec).

    An interpretation gives a meaning to base plans and to each way of composing them.
    Steps and plans are read under it separately, and compiling keeps the meaning, whatever
    the interpretation.  `Execution` is the one the engine uses. */
module PlanMeaning {
  import opened Wrappers
  import opened Steps
  import opened Plans
  import opened Images
  import opened Planner

  /** `leaf` is told a base plan with its ids erased. */
  datatype Interpretation<!B> = Interpretation(
    leaf: Body -> B,
    missing: B,
    inOrder: seq<B> -> B,
    inParallel: (seq<B>, int, bool) -> B,
    across: (seq<AcrossVar>, B, bool) -> B,
    retry: seq<B> -> B,
    timeout: (B, string) -> B,
    attempt: B -> B,
    hook: (HookKind, B, B) -> B)

  // ---- plans without their ids ----

  function Anonymous(p: Plan): Plan {
    Plan("", AnonymousBody(p.body))
  }

  /** Only images hold plans here; whose version a get takes is told by its place. */
  function AnonymousBody(b: Body): Body {
    match b
    case GetPlan(g) =>
      GetPlan(g.(image := AnonymousImage(g.image), versionFrom := if g.versionFrom.Some? then Some("") else None))
    case PutPlan(p) => PutPlan(p.(image := AnonymousImage(p.image)))
    case CheckPlan(c) => CheckPlan(c.(image := AnonymousImage(c.image)))
    case _ => b
  }

  function AnonymousImage(i: TypeImage): TypeImage {
    TypeImage(i.baseType, i.privileged, if i.check.Some? then Some(Anonymous(i.check.value)) else None,
              if i.get.Some? then Some(Anonymous(i.get.value)) else None)
  }

  /** The image of a type, up to ids. */
  function ImageUpToIds(types: Types, kind: string, tags: Tags, skipInterval: bool): TypeImage {
    AnonymousImage(ImageForType(types, "", kind, tags, skipInterval))
  }

  lemma SameGet(g: GetBody, h: GetBody)
    requires g.versionFrom.Some? && h.versionFrom.Some? && AnonymousImage(g.image) == AnonymousImage(h.image)
    requires g.(image := h.image, versionFrom := h.versionFrom) == h
    ensures AnonymousBody(GetPlan(g)) == AnonymousBody(GetPlan(h))
  {
  }

  lemma SameCheck(c: CheckBody, d: CheckBody)
    requires AnonymousImage(c.image) == AnonymousImage(d.image) && c.(image := d.image) == d
    ensures AnonymousBody(CheckPlan(c)) == AnonymousBody(CheckPlan(d))
  {
  }

  lemma {:induction false} IdsDoNotMatter(types: Types, a: PlanID, b: PlanID, kind: string, tags: Tags, skip: bool)
    ensures AnonymousImage(ImageForType(types, a, kind, tags, skip)) == AnonymousImage(ImageForType(types, b, kind, tags, skip))
    decreases |types|
  {
    WithoutShrinks(types, kind);
    if Lookup(types, kind).Some? {
      var t := Lookup(types, kind).value;
      var rest, own := Without(types, kind), if |t.tags| == 0 then tags else t.tags;
      IdsDoNotMatter(rest, a + "/image-get", b + "/image-get", t.parent, own, skip);
      IdsDoNotMatter(rest, a + "/image-check", b + "/image-check", t.parent, own, skip);
      var g, c := ImagePlans(types, a, kind, tags, skip);
      var h, d := ImagePlans(types, b, kind, tags, skip);
      SameGet(g, h);
      SameCheck(c, d);
    }
  }

  // ---- the meaning of a plan ----

  function MeansPlan<B>(m: Interpretation<B>, p: Plan): B
    decreases p
  {
    match p.body
    case DoPlan(steps) => m.inOrder(MeansPlans(m, steps))
    case InParallelPlan(steps, limit, failFast) => m.inParallel(MeansPlans(m, steps), limit, failFast)
    case AcrossPlan(vars, template, failFast) => m.across(vars, MeansPlan(m, template), failFast)
    case HookPlan(kind, main, next) => m.hook(kind, MeansPlan(m, main), MeansPlan(m, next))
    case TryPlan(main) => m.attempt(MeansPlan(m, main))
    case TimeoutPlan(main, duration) => m.timeout(MeansPlan(m, main), duration)
    case RetryPlan(steps) => m.retry(MeansPlans(m, steps))
    case _ => m.leaf(AnonymousBody(p.body))
  }

  function MeansPlans<B>(m: Interpretation<B>, ps: seq<Plan>): seq<B>
    decreases ps
  {
    if ps == [] then [] else MeansPlans(m, ps[..|ps| - 1]) + [MeansPlan(m, ps[|ps| - 1])]
  }

  // ---- the meaning of a step ----

  function Or(own: Tags, inherited: Tags): Tags {
    if own == [] then inherited else own
  }

  function MeansLeaf<B>(m: Interpretation<B>, env: Env, l: TypedLeaf, inherited: Tags): B {
    match l
    case Task(t) => m.leaf(TaskPlan(t.(tags := Or(t.tags, inherited)), env.types, env.manuallyTriggered))
    case Get(g) => MeansGet(m, env, g, Or(g.tags, inherited))
    case Put(p) => MeansPut(m, env, p, Or(p.tags, inherited))
    case Run(r) =>
      (match FindPrototype(env.prototypes, r.prototype)
       case None => m.missing
       case Some(p) => m.leaf(RunPlan(r.(tags := Or(r.tags, inherited), params := Merge(p.defaults, r.params)))))
    case SetPipeline(s) => m.leaf(SetPipelinePlan(s))
    case LoadVar(v) => m.leaf(LoadVarPlan(v))
  }

  /** A get of the given version of its resource. */
  function MeansGet<B>(m: Interpretation<B>, env: Env, g: GetStep, tags: Tags): B {
    var r, v := FindResource(env.resources, g.ResourceName()), FindVersion(env.inputs, g.name);
    if r.None? || v.None? then m.missing
    else
      m.leaf(GetPlan(GetBody(g.name, r.value.kind, SourceWithDefaults(env, r.value), ImageUpToIds(env.types, r.value.kind, tags, false),
                             v, None, g.params, g.ResourceName(), tags, g.timeout)))
  }

  /** A put and, on success, a get of the version it made, unless told not to get. */
  function MeansPut<B>(m: Interpretation<B>, env: Env, p: PutStep, tags: Tags): B {
    match FindResource(env.resources, p.ResourceName())
    case None => m.missing
    case Some(r) =>
      var source, image := SourceWithDefaults(env, r), ImageUpToIds(env.types, r.kind, tags, env.manuallyTriggered);
      var put := m.leaf(PutPlan(PutBody(p.name, r.kind, source, image, p.params, p.inputs, p.ResourceName(), tags, p.timeout,
                                        r.exposeBuildCreatedBy)));
      if p.noGet then put
      else m.hook(OnSuccess, put, m.leaf(GetPlan(GetBody(p.name, r.kind, source, image, None, Some(""), p.getParams,
                                                         p.ResourceName(), tags, p.timeout))))
  }

  function MeansStep<B>(m: Interpretation<B>, env: Env, c: StepConfig, tags: Tags): B
    decreases c
  {
    match c
    case Leaf(l) => MeansLeaf(m, env, l, tags)
    case Try(s) => m.attempt(MeansStep(m, env, s.config, tags))
    case Do(steps, own) => m.inOrder(MeansSteps(m, env, steps, Or(own, tags)))
    case InParallel(steps, limit, failFast, own) => m.inParallel(MeansSteps(m, env, steps, Or(own, tags)), limit, failFast)
    case Across(inner, vars, failFast) => m.across(vars, MeansStep(m, env, inner, tags), failFast)
    case Retry(inner, attempts) => m.retry(Copies(MeansStep(m, env, inner, tags), attempts))
    case Timeout(inner, duration) => m.timeout(MeansStep(m, env, inner, tags), duration)
    case Hook(kind, inner, hook) => m.hook(kind, MeansStep(m, env, inner, tags), MeansStep(m, env, hook.config, tags))
  }

  function MeansSteps<B>(m: Interpretation<B>, env: Env, steps: seq<Step<TypedLeaf>>, tags: Tags): seq<B>
    decreases steps
  {
    if steps == [] then [] else MeansSteps(m, env, steps[..|steps| - 1], tags) + [MeansWhole(m, env, steps[|steps| - 1], tags)]
  }

  function MeansWhole<B>(m: Interpretation<B>, env: Env, s: Step<TypedLeaf>, tags: Tags): B
    decreases s
  {
    MeansStep(m, env, s.config, tags)
  }

  function Copies<B>(b: B, n: int): seq<B> {
    if n <= 0 then [] else Copies(b, n - 1) + [b]
  }

  // ---- compiling keeps the meaning ----

  lemma LeafMeans<B>(m: Interpretation<B>, env: Env, l: TypedLeaf, tags: Tags, n: nat)
    ensures var o := TranslateLeaf(env, l, tags, n); o.Built? ==> MeansPlan(m, o.plan) == MeansLeaf(m, env, l, tags)
  {
    match l
    case Get(g) => GetMeans(m, env, g, Or(g.tags, tags), n);
    case Put(p) => PutMeans(m, env, p, Or(p.tags, tags), n);
    case _ =>
  }

  lemma GetMeans<B>(m: Interpretation<B>, env: Env, g: GetStep, tags: Tags, n: nat)
    ensures var o := TranslateGet(env, g, tags, n); o.Built? ==> MeansPlan(m, o.plan) == MeansGet(m, env, g, tags)
  {
    var r := FindResource(env.resources, g.ResourceName());
    if r.Some? { IdsDoNotMatter(env.types, Hex(n + 1), "", r.value.kind, tags, false); }
  }

  lemma PutMeans<B>(m: Interpretation<B>, env: Env, p: PutStep, tags: Tags, n: nat)
    ensures var o := TranslatePut(env, p, tags, n); o.Built? ==> MeansPlan(m, o.plan) == MeansPut(m, env, p, tags)
  {
    var r := FindResource(env.resources, p.ResourceName());
    if r.Some? {
      IdsDoNotMatter(env.types, Hex(n + 1), "", r.value.kind, tags, env.manuallyTriggered);
      IdsDoNotMatter(env.types, Hex(n + 2), "", r.value.kind, tags, env.manuallyTriggered);
    }
  }

  /** Whatever the pieces mean, a step that compiles compiles to a plan that means the same:
      the same base plans composed the same way, in the same order, with the same hooks,
      limits, durations, variables and attempts. */
  lemma {:induction false} PlanMeansStep<B>(m: Interpretation<B>, env: Env, c: StepConfig, tags: Tags, n: nat)
    ensures var o := Translate(env, c, tags, n); o.Built? ==> MeansPlan(m, o.plan) == MeansStep(m, env, c, tags)
    decreases c, 1
  {
    match c
    case Leaf(l) => LeafMeans(m, env, l, tags, n);
    case Try(_) => WrappedMeansStep(m, env, c, tags, n);
    case Across(_, _, _) => WrappedMeansStep(m, env, c, tags, n);
    case Timeout(_, _) => WrappedMeansStep(m, env, c, tags, n);
    case Do(steps, own) => PlansMeanSteps(m, env, steps, Effective(own, tags), n);
    case InParallel(steps, _, _, own) => PlansMeanSteps(m, env, steps, Effective(own, tags), n);
    case Retry(inner, attempts) => RetryMeansStep(m, env, c, tags, n);
    case Hook(_, inner, hook) => HookMeansStep(m, env, c, tags, n);
  }

  lemma {:induction false} WrappedMeansStep<B>(m: Interpretation<B>, env: Env, c: StepConfig, tags: Tags, n: nat)
    requires c.Try? || c.Across? || c.Timeout?
    ensures var o := Translate(env, c, tags, n); o.Built? ==> MeansPlan(m, o.plan) == MeansStep(m, env, c, tags)
    decreases c, 0
  {
    match c
    case Try(s) => PlanMeansStep(m, env, s.config, tags, n);
    case Across(inner, _, _) => PlanMeansStep(m, env, inner, tags, n);
    case Timeout(inner, _) => PlanMeansStep(m, env, inner, tags, n);
  }

  lemma {:induction false} RetryMeansStep<B>(m: Interpretation<B>, env: Env, c: StepConfig, tags: Tags, n: nat)
    requires c.Retry?
    ensures var o := Translate(env, c, tags, n); o.Built? ==> MeansPlan(m, o.plan) == MeansStep(m, env, c, tags)
    decreases c, 0
  {
    if c.attempts >= 0 {
      CopiesMeanStep(m, env, c.inner, tags, n, c.attempts);
      var o := TranslateCopies(env, c.inner, tags, n, c.attempts);
      if o.BuiltAll? { RetryPlanMeans(m, Translate(env, c, tags, n).plan, o.plans); }
    }
  }

  lemma RetryPlanMeans<B>(m: Interpretation<B>, p: Plan, attempts: seq<Plan>)
    requires p.body == RetryPlan(attempts)
    ensures MeansPlan(m, p) == m.retry(MeansPlans(m, attempts))
  {
  }

  lemma {:induction false} HookMeansStep<B>(m: Interpretation<B>, env: Env, c: StepConfig, tags: Tags, n: nat)
    requires c.Hook?
    ensures var o := Translate(env, c, tags, n); o.Built? ==> MeansPlan(m, o.plan) == MeansStep(m, env, c, tags)
    decreases c, 0
  {
    PlanMeansStep(m, env, c.inner, tags, n);
    var main := Translate(env, c.inner, tags, n);
    if main.Built? { PlanMeansStep(m, env, c.hook.config, tags, main.next); }
  }

  lemma {:induction false} PlansMeanSteps<B>(m: Interpretation<B>, env: Env, steps: seq<Step<TypedLeaf>>, tags: Tags, n: nat)
    ensures var o := TranslateAll(env, steps, tags, n); o.BuiltAll? ==> MeansPlans(m, o.plans) == MeansSteps(m, env, steps, tags)
    decreases steps
  {
    if steps != [] {
      var front := TranslateAll(env, steps[..|steps| - 1], tags, n);
      PlansMeanSteps(m, env, steps[..|steps| - 1], tags, n);
      WholeMeansStep(m, env, steps[|steps| - 1], tags, front.next);
      var p := TranslateStep(env, steps[|steps| - 1], tags, front.next);
      if front.BuiltAll? && p.Built? { MeansSnoc(m, front.plans, p.plan); }
    }
  }

  lemma {:induction false} WholeMeansStep<B>(m: Interpretation<B>, env: Env, s: Step<TypedLeaf>, tags: Tags, n: nat)
    ensures var o := TranslateStep(env, s, tags, n); o.Built? ==> MeansPlan(m, o.plan) == MeansWhole(m, env, s, tags)
    decreases s
  {
    PlanMeansStep(m, env, s.config, tags, n);
  }

  lemma MeansSnoc<B>(m: Interpretation<B>, ps: seq<Plan>, p: Plan)
    ensures MeansPlans(m, ps + [p]) == MeansPlans(m, ps) + [MeansPlan(m, p)]
  {
    assert (ps + [p])[..|ps|] == ps;
  }

  lemma {:induction false} CopiesMeanStep<B>(m: Interpretation<B>, env: Env, c: StepConfig, tags: Tags, n: nat, copies: nat)
    ensures var o := TranslateCopies(env, c, tags, n, copies);
            o.BuiltAll? ==> MeansPlans(m, o.plans) == Copies(MeansStep(m, env, c, tags), copies)
    decreases c, 2, copies
  {
    if copies > 0 && TranslateCopies(env, c, tags, n, copies).BuiltAll? {
      var front, p := LastCopy(env, c, tags, n, copies);
      CopiesMeanStep(m, env, c, tags, n, copies - 1);
      PlanMeansStep(m, env, c, tags, front.next);
      OneMoreCopy(m, front.plans, p, MeansStep(m, env, c, tags), copies);
    }
  }

  lemma OneMoreCopy<B>(m: Interpretation<B>, front: seq<Plan>, p: Plan, b: B, copies: nat)
    requires copies > 0 && MeansPlans(m, front) == Copies(b, copies - 1) && MeansPlan(m, p) == b
    ensures MeansPlans(m, front + [p]) == Copies(b, copies)
  {
    MeansSnoc(m, front, p);
  }
}
