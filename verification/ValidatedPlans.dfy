/** What validation is for: a job the validator has nothing against can be planned. */
module ValidatedPlans {
  import opened Wrappers
  import opened Steps
  import opened Plans
  import opened Planner
  import V = Validator

  // ---- when planning succeeds ----

  ghost predicate Provided(env: Env, l: TypedLeaf) {
    match l
    case Get(g) => FindResource(env.resources, g.ResourceName()).Some? && FindVersion(env.inputs, g.name).Some?
    case Put(p) => FindResource(env.resources, p.ResourceName()).Some?
    case Run(r) => FindPrototype(env.prototypes, r.prototype).Some?
    case _ => true
  }

  /** Every leaf that is reached is provided for, and no retry is negative. */
  ghost predicate Buildable(env: Env, c: StepConfig)
    decreases c
  {
    match c
    case Leaf(l) => Provided(env, l)
    case Try(s) => BuildableStep(env, s)
    case Do(steps, _) => BuildableAll(env, steps)
    case InParallel(steps, _, _, _) => BuildableAll(env, steps)
    case Across(inner, _, _) => Buildable(env, inner)
    case Retry(inner, attempts) => attempts == 0 || (attempts > 0 && Buildable(env, inner))
    case Timeout(inner, _) => Buildable(env, inner)
    case Hook(_, inner, hook) => Buildable(env, inner) && BuildableStep(env, hook)
  }

  ghost predicate BuildableStep(env: Env, s: Step<TypedLeaf>)
    decreases s
  {
    Buildable(env, s.config)
  }

  ghost predicate BuildableAll(env: Env, steps: seq<Step<TypedLeaf>>)
    decreases steps
  {
    steps == [] || (BuildableAll(env, steps[..|steps| - 1]) && BuildableStep(env, steps[|steps| - 1]))
  }

  /** Planning succeeds exactly when the step is buildable, whatever the tags and ids. */
  lemma {:induction false} PlanningSucceeds(env: Env, c: StepConfig, tags: Tags, n: nat)
    ensures Translate(env, c, tags, n).Built? <==> Buildable(env, c)
    decreases c, 0
  {
    match c
    case Leaf(l) =>
    case Try(s) => PlanningSucceedsStep(env, s, tags, n);
    case Do(steps, own) => PlanningSucceedsAll(env, steps, Effective(own, tags), n);
    case InParallel(steps, _, _, own) => PlanningSucceedsAll(env, steps, Effective(own, tags), n);
    case Across(inner, _, _) => PlanningSucceeds(env, inner, tags, n);
    case Retry(inner, attempts) => if attempts >= 0 { PlanningSucceedsCopies(env, inner, tags, n, attempts); }
    case Timeout(inner, _) => PlanningSucceeds(env, inner, tags, n);
    case Hook(_, inner, hook) =>
      PlanningSucceeds(env, inner, tags, n);
      PlanningSucceedsStep(env, hook, tags, Translate(env, inner, tags, n).next);
  }

  lemma {:induction false} PlanningSucceedsStep(env: Env, s: Step<TypedLeaf>, tags: Tags, n: nat)
    ensures TranslateStep(env, s, tags, n).Built? <==> BuildableStep(env, s)
    decreases s
  {
    PlanningSucceeds(env, s.config, tags, n);
  }

  lemma {:induction false} PlanningSucceedsAll(env: Env, steps: seq<Step<TypedLeaf>>, tags: Tags, n: nat)
    ensures TranslateAll(env, steps, tags, n).BuiltAll? <==> BuildableAll(env, steps)
    decreases steps
  {
    if steps != [] {
      PlanningSucceedsAll(env, steps[..|steps| - 1], tags, n);
      PlanningSucceedsStep(env, steps[|steps| - 1], tags, TranslateAll(env, steps[..|steps| - 1], tags, n).next);
    }
  }

  lemma {:induction false} PlanningSucceedsCopies(env: Env, c: StepConfig, tags: Tags, n: nat, copies: nat)
    ensures var o := TranslateCopies(env, c, tags, n, copies);
            && (o.BuiltAll? <==> copies == 0 || Buildable(env, c))
            && (o.BuiltAll? ==> |o.plans| == copies)
    decreases c, copies
  {
    if copies > 0 {
      PlanningSucceedsCopies(env, c, tags, n, copies - 1);
      PlanningSucceeds(env, c, tags, TranslateCopies(env, c, tags, n, copies - 1).next);
    }
  }

  /** Every retry of a plan makes at least one attempt. */
  ghost predicate RetriesRun(p: Plan) {
    match p.body
    case DoPlan(steps) => forall q :: q in steps ==> RetriesRun(q)
    case InParallelPlan(steps, _, _) => forall q :: q in steps ==> RetriesRun(q)
    case AcrossPlan(_, template, _) => RetriesRun(template)
    case HookPlan(_, main, next) => RetriesRun(main) && RetriesRun(next)
    case TryPlan(main) => RetriesRun(main)
    case TimeoutPlan(main, _) => RetriesRun(main)
    case RetryPlan(steps) => steps != [] && forall q :: q in steps ==> RetriesRun(q)
    case _ => true
  }

  lemma {:induction false} PlannedRetriesRun(env: Env, c: StepConfig, tags: Tags, n: nat)
    requires PositiveAttempts(c)
    ensures var o := Translate(env, c, tags, n); o.Built? ==> RetriesRun(o.plan)
    decreases c, 0
  {
    match c
    case Leaf(l) =>
    case Try(s) => PlannedRetriesRunStep(env, s, tags, n);
    case Do(steps, own) => PlannedRetriesRunAll(env, steps, Effective(own, tags), n);
    case InParallel(steps, _, _, own) => PlannedRetriesRunAll(env, steps, Effective(own, tags), n);
    case Across(inner, _, _) => PlannedRetriesRun(env, inner, tags, n);
    case Retry(inner, attempts) =>
      PlannedRetriesRunCopies(env, inner, tags, n, attempts);
      PlanningSucceedsCopies(env, inner, tags, n, attempts);
    case Timeout(inner, _) => PlannedRetriesRun(env, inner, tags, n);
    case Hook(_, inner, hook) =>
      PlannedRetriesRun(env, inner, tags, n);
      PlannedRetriesRunStep(env, hook, tags, Translate(env, inner, tags, n).next);
  }

  lemma {:induction false} PlannedRetriesRunStep(env: Env, s: Step<TypedLeaf>, tags: Tags, n: nat)
    requires PositiveAttemptsStep(s)
    ensures var o := TranslateStep(env, s, tags, n); o.Built? ==> RetriesRun(o.plan)
    decreases s
  {
    PlannedRetriesRun(env, s.config, tags, n);
  }

  lemma {:induction false} PlannedRetriesRunAll(env: Env, steps: seq<Step<TypedLeaf>>, tags: Tags, n: nat)
    requires PositiveAttemptsAll(steps)
    ensures var o := TranslateAll(env, steps, tags, n); o.BuiltAll? ==> forall q :: q in o.plans ==> RetriesRun(q)
    decreases steps
  {
    if steps != [] {
      PlannedRetriesRunAll(env, steps[..|steps| - 1], tags, n);
      PlannedRetriesRunStep(env, steps[|steps| - 1], tags, TranslateAll(env, steps[..|steps| - 1], tags, n).next);
    }
  }

  lemma {:induction false} PlannedRetriesRunCopies(env: Env, c: StepConfig, tags: Tags, n: nat, copies: nat)
    requires PositiveAttempts(c)
    ensures var o := TranslateCopies(env, c, tags, n, copies); o.BuiltAll? ==> forall q :: q in o.plans ==> RetriesRun(q)
    decreases c, copies
  {
    if copies > 0 {
      PlannedRetriesRunCopies(env, c, tags, n, copies - 1);
      PlannedRetriesRun(env, c, tags, TranslateCopies(env, c, tags, n, copies - 1).next);
    }
  }

  // ---- what a clean validation gives ----

  ghost predicate Known(pl: V.Pipeline, l: TypedLeaf) {
    match l
    case Get(g) => g.ResourceName() in pl.resources
    case Put(p) => p.ResourceName() in pl.resources
    case Run(r) => r.prototype in pl.prototypes
    case _ => true
  }

  ghost predicate PositiveAttempts(c: StepConfig)
    decreases c
  {
    match c
    case Leaf(l) => true
    case Try(s) => PositiveAttemptsStep(s)
    case Do(steps, _) => PositiveAttemptsAll(steps)
    case InParallel(steps, _, _, _) => PositiveAttemptsAll(steps)
    case Across(inner, _, _) => PositiveAttempts(inner)
    case Retry(inner, attempts) => attempts > 0 && PositiveAttempts(inner)
    case Timeout(inner, _) => PositiveAttempts(inner)
    case Hook(_, inner, hook) => PositiveAttempts(inner) && PositiveAttemptsStep(hook)
  }

  ghost predicate PositiveAttemptsStep(s: Step<TypedLeaf>)
    decreases s
  {
    PositiveAttempts(s.config)
  }

  ghost predicate PositiveAttemptsAll(steps: seq<Step<TypedLeaf>>)
    decreases steps
  {
    steps == [] || (PositiveAttemptsAll(steps[..|steps| - 1]) && PositiveAttemptsStep(steps[|steps| - 1]))
  }

  /** The gets among the leaves have names not in `seen`, each used once, and `after`
      has them added. */
  ghost predicate FreshGets(leaves: seq<TypedLeaf>, seen: set<string>, after: set<string>) {
    && (forall l :: l in leaves && l.Get? ==> l.get.name !in seen && l.get.name in after)
    && (forall i, j :: 0 <= i < j < |leaves| && leaves[i].Get? && leaves[j].Get? ==> leaves[i].get.name != leaves[j].get.name)
    && seen <= after
  }

  lemma FreshGetsConcat(a: seq<TypedLeaf>, b: seq<TypedLeaf>, seen: set<string>, mid: set<string>, after: set<string>)
    requires FreshGets(a, seen, mid) && FreshGets(b, mid, after)
    ensures FreshGets(a + b, seen, after)
  {
    forall i, j | 0 <= i < j < |a + b| && (a + b)[i].Get? && (a + b)[j].Get?
      ensures (a + b)[i].get.name != (a + b)[j].get.name
    {
      if i < |a| <= j { assert a[i] in a && b[j - |a|] in b; }
    }
  }

  /** All that a validation without errors promises about a subtree. */
  ghost predicate Clean(pl: V.Pipeline, leaves: seq<TypedLeaf>, seen: V.Seen, after: V.Seen) {
    (forall l :: l in leaves ==> Known(pl, l)) && FreshGets(leaves, seen.gets, after.gets)
  }

  lemma CleanConcat(pl: V.Pipeline, a: seq<TypedLeaf>, b: seq<TypedLeaf>, seen: V.Seen, mid: V.Seen, after: V.Seen)
    requires Clean(pl, a, seen, mid) && Clean(pl, b, mid, after)
    ensures Clean(pl, a + b, seen, after)
  {
    FreshGetsConcat(a, b, seen.gets, mid.gets, after.gets);
  }

  lemma LeafClean(pl: V.Pipeline, l: TypedLeaf, ctx: V.Context, seen: V.Seen)
    requires seen.scopes != [] && V.CheckLeaf(pl, l, ctx, seen).errors == []
    ensures Clean(pl, [l], seen, V.CheckLeaf(pl, l, ctx, seen).seen)
  {
    match l
    case Get(g) =>
      var at := ctx + [V.Call(".get", g.name)];
      NoneRecorded(V.IdentifierErrors(pl, g.name, at), V.When(g.name in seen.gets, at, V.RepeatedName),
                   V.When(g.ResourceName() !in pl.resources, at, V.UnknownResource(g.ResourceName())),
                   V.PassedErrors(pl, g.passed, g.ResourceName(), at + [V.Field(".passed")]));
    case _ =>
  }

  lemma NoneRecorded(a: seq<V.Message>, b: seq<V.Message>, c: seq<V.Message>, d: seq<V.Message>)
    requires a + b + c + d == []
    ensures a == [] && b == [] && c == [] && d == []
  {
    assert |a + b + c + d| == |a| + |b| + |c| + |d|;
  }

  lemma AcrossVarsKeepGets(vars: seq<AcrossVar>, ctx: V.Context, seen: V.Seen)
    requires seen.scopes != []
    ensures V.CheckAcrossVars(vars, ctx, seen).seen.gets == seen.gets
  {
    if vars != [] {
      AcrossVarsKeepGets(vars[..|vars| - 1], ctx, seen);
    }
  }

  lemma {:induction false} ValidationClean(pl: V.Pipeline, c: StepConfig, ctx: V.Context, seen: V.Seen)
    requires seen.scopes != [] && V.Check(pl, c, ctx, seen).errors == []
    ensures Clean(pl, Leaves(c), seen, V.Check(pl, c, ctx, seen).seen) && PositiveAttempts(c)
    decreases c, 0
  {
    match c
    case Leaf(l) => LeafClean(pl, l, ctx, seen);
    case Try(s) => ValidationCleanStep(pl, s, ctx + [V.Field(".try")], seen);
    case Do(steps, _) => ValidationCleanAll(pl, steps, ctx + [V.Field(".do")], "", seen);
    case InParallel(steps, _, _, _) => ValidationCleanAll(pl, steps, ctx + [V.Field(".in_parallel")], ".steps", seen);
    case Across(inner, vars, _) =>
      var at, pushed := ctx + [V.Field(".across")], seen.(scopes := seen.scopes + [{}]);
      AcrossVarsKeepGets(vars, at, pushed);
      ValidationClean(pl, inner, at, V.CheckAcrossVars(vars, at, pushed).seen);
    case Retry(inner, _) => ValidationClean(pl, inner, ctx, seen);
    case Timeout(inner, _) => ValidationClean(pl, inner, ctx, seen);
    case Hook(kind, inner, hook) =>
      var first, at := V.Check(pl, inner, ctx, seen), ctx + [V.Field(V.HookField(kind))];
      ValidationClean(pl, inner, ctx, seen);
      ValidationCleanStep(pl, hook, at, first.seen);
      CleanConcat(pl, Leaves(inner), LeavesIn(hook), seen, first.seen, V.CheckStep(pl, hook, at, first.seen).seen);
  }

  lemma {:induction false} ValidationCleanStep(pl: V.Pipeline, s: Step<TypedLeaf>, ctx: V.Context, seen: V.Seen)
    requires seen.scopes != [] && V.CheckStep(pl, s, ctx, seen).errors == []
    ensures Clean(pl, LeavesIn(s), seen, V.CheckStep(pl, s, ctx, seen).seen) && PositiveAttemptsStep(s)
    decreases s
  {
    ValidationClean(pl, s.config, ctx, seen);
  }

  lemma {:induction false} ValidationCleanAll(pl: V.Pipeline, steps: seq<Step<TypedLeaf>>, ctx: V.Context, prefix: string, seen: V.Seen)
    requires seen.scopes != [] && V.CheckAll(pl, steps, ctx, prefix, seen).errors == []
    ensures Clean(pl, LeavesOf(steps), seen, V.CheckAll(pl, steps, ctx, prefix, seen).seen) && PositiveAttemptsAll(steps)
    decreases steps
  {
    if steps != [] {
      var n := |steps| - 1;
      var front, at := V.CheckAll(pl, steps[..n], ctx, prefix, seen), ctx + [V.Item(prefix, n)];
      ValidationCleanAll(pl, steps[..n], ctx, prefix, seen);
      ValidationCleanStep(pl, steps[n], at, front.seen);
      CleanConcat(pl, LeavesOf(steps[..n]), LeavesIn(steps[n]), seen, front.seen, V.CheckStep(pl, steps[n], at, front.seen).seen);
      LeavesSnoc(steps);
    }
  }

  // ---- the two together ----

  /** The scheduler hands the planner what the config names, and a version for every input. */
  ghost predicate Covers(env: Env, pl: V.Pipeline, job: JobConfig) {
    && (forall r :: r in pl.resources ==> FindResource(env.resources, r).Some?)
    && (forall p :: p in pl.prototypes ==> FindPrototype(env.prototypes, p).Some?)
    && (forall g :: g in job.Inputs() ==> FindVersion(env.inputs, g.name).Some?)
  }

  lemma {:induction false} LeavesBuildable(env: Env, c: StepConfig)
    requires (forall l :: l in Leaves(c) ==> Provided(env, l)) && PositiveAttempts(c)
    ensures Buildable(env, c)
    decreases c, 0
  {
    match c
    case Leaf(l) => assert l in Leaves(c);
    case Try(s) => LeavesBuildableStep(env, s);
    case Do(steps, _) => LeavesBuildableAll(env, steps);
    case InParallel(steps, _, _, _) => LeavesBuildableAll(env, steps);
    case Across(inner, _, _) => LeavesBuildable(env, inner);
    case Retry(inner, _) => LeavesBuildable(env, inner);
    case Timeout(inner, _) => LeavesBuildable(env, inner);
    case Hook(_, inner, hook) =>
      LeavesBuildable(env, inner);
      LeavesBuildableStep(env, hook);
  }

  lemma {:induction false} LeavesBuildableStep(env: Env, s: Step<TypedLeaf>)
    requires (forall l :: l in LeavesIn(s) ==> Provided(env, l)) && PositiveAttemptsStep(s)
    ensures BuildableStep(env, s)
    decreases s
  {
    LeavesBuildable(env, s.config);
  }

  lemma {:induction false} LeavesBuildableAll(env: Env, steps: seq<Step<TypedLeaf>>)
    requires (forall l :: l in LeavesOf(steps) ==> Provided(env, l)) && PositiveAttemptsAll(steps)
    ensures BuildableAll(env, steps)
    decreases steps
  {
    if steps != [] {
      LeavesSnoc(steps);
      LeavesBuildableAll(env, steps[..|steps| - 1]);
      LeavesBuildableStep(env, steps[|steps| - 1]);
    }
  }

  /** A job that validates without errors compiles: with distinct input names, and with
      whatever tags and counter the planner starts from. */
  lemma ValidJobCompiles(pl: V.Pipeline, job: JobConfig, ctx: V.Context, env: Env, tags: Tags, n: nat)
    requires V.CheckStep(pl, Step(job.StepConfig(), map[]), ctx, V.Seen({}, [{}])).errors == []
    requires Covers(env, pl, job)
    ensures Translate(env, job.StepConfig(), tags, n).Built?
    ensures RetriesRun(Translate(env, job.StepConfig(), tags, n).plan)
    ensures forall i, j :: 0 <= i < j < |job.Inputs()| ==> job.Inputs()[i].name != job.Inputs()[j].name
  {
    var c, seen := job.StepConfig(), V.Seen({}, [{}]);
    ValidationClean(pl, c, ctx, seen);
    forall l | l in Leaves(c) ensures Provided(env, l) {
      if l.Get? { assert l.get in job.Inputs(); }
    }
    LeavesBuildable(env, c);
    PlanningSucceeds(env, c, tags, n);
    PlannedRetriesRun(env, c, tags, n);
    GetsDistinct(Leaves(c), seen.gets, V.Check(pl, c, ctx, seen).seen.gets);
  }

  lemma {:induction false} GetsDistinct(leaves: seq<TypedLeaf>, seen: set<string>, after: set<string>)
    requires FreshGets(leaves, seen, after)
    ensures forall i, j :: 0 <= i < j < |Gets(leaves)| ==> Gets(leaves)[i].name != Gets(leaves)[j].name
  {
    if leaves != [] {
      var rest := leaves[1..];
      GetsDistinct(rest, seen, after);
      if leaves[0].Get? {
        forall g | g in Gets(rest) ensures g.name != leaves[0].get.name {
          var k :| 0 <= k < |rest| && rest[k] == Get(g);
          assert leaves[k + 1] == Get(g);
        }
      }
    }
  }

  /** validateJobs and then Planner.Create, as a pipeline goes from being set to running. */
  method ValidateThenPlan(pl: V.Pipeline, job: JobConfig, ctx: V.Context, factory: PlanFactory, env: Env)
    returns (valid: bool, plan: Result<Plan, Error>)
    requires Covers(env, pl, job)
    modifies factory
    ensures valid ==> plan.Ok?
  {
    var validator := new V.StepValidator(pl, ctx);
    var _ := validator.Validate(Step(job.StepConfig(), map[]));
    V.AlwaysNil(job.StepConfig());
    valid := validator.errors == [];
    if valid {
      ValidJobCompiles(pl, job, ctx, env, job.tags, factory.currentNum);
    }
    plan := Create(factory, env, job.StepConfig(), job.tags);
  }
}
