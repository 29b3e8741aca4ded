/** Compiling a step tree to a build plan (atc/builds/planner.go, atc/plan_factory.go).

    `Translate` is the compiler as a pure function of the inherited tags and the id
    counter; `PlanVisitor` is the source's visitor, which keeps both in fields it
    overwrites as it goes. */
module Planner {
  import opened Wrappers
  import opened Steps
  import opened Plans
  import opened Images

  datatype Resource = Resource(name: string, kind: string, source: Source, exposeBuildCreatedBy: bool)
  datatype Prototype = Prototype(name: string, defaults: Source)
  datatype BuildInput = BuildInput(name: string, version: Option<Version>)

  datatype Env = Env(
    resources: seq<Resource>, types: Types, prototypes: seq<Prototype>, inputs: seq<BuildInput>,
    manuallyTriggered: bool, baseDefaults: map<string, Source>)

  datatype Error =
    | UnknownResource(name: string)
    | UnknownPrototype(name: string)
    | VersionNotProvided(name: string)
    // make([]Plan, attempts) with a negative length
    | NegativeAttempts

  function FindResource(rs: seq<Resource>, name: string): Option<Resource> {
    if rs == [] then None else if rs[0].name == name then Some(rs[0]) else FindResource(rs[1..], name)
  }

  function FindPrototype(ps: seq<Prototype>, name: string): Option<Prototype> {
    if ps == [] then None else if ps[0].name == name then Some(ps[0]) else FindPrototype(ps[1..], name)
  }

  /** The version of the first input of that name. */
  function FindVersion(ins: seq<BuildInput>, name: string): Option<Version> {
    if ins == [] then None else if ins[0].name == name then ins[0].version else FindVersion(ins[1..], name)
  }

  /** The resource's own source over the defaults of its type, custom or base. */
  function SourceWithDefaults(env: Env, r: Resource): Source {
    match Lookup(env.types, r.kind)
    case Some(t) => Merge(t.defaults, r.source)
    case None => if r.kind in env.baseDefaults then Merge(env.baseDefaults[r.kind], r.source) else r.source
  }

  /** Its own source wins over the defaults, those of a custom type over those of a base
      type of the same name. */
  lemma OwnSourceWins(env: Env, r: Resource)
    ensures var source := SourceWithDefaults(env, r);
            match Lookup(env.types, r.kind)
            case Some(t) => IsOverlay(source, t.defaults, r.source)
            case None => IsOverlay(source, if r.kind in env.baseDefaults then env.baseDefaults[r.kind] else map[], r.source)
  {
    match Lookup(env.types, r.kind)
    case Some(t) => MergeOverlays(t.defaults, r.source);
    case None => if r.kind in env.baseDefaults { MergeOverlays(env.baseDefaults[r.kind], r.source); }
  }

  /** Each finds the one at the first place with that name, if there is one. */
  lemma {:induction false} FindResourceFirst(rs: seq<Resource>, name: string, i: nat)
    requires i <= |rs| && (i < |rs| ==> rs[i].name == name) && forall k :: 0 <= k < i ==> rs[k].name != name
    ensures FindResource(rs, name) == if i < |rs| then Some(rs[i]) else None
  {
    if i > 0 { FindResourceFirst(rs[1..], name, i - 1); }
  }

  lemma {:induction false} FindPrototypeFirst(ps: seq<Prototype>, name: string, i: nat)
    requires i <= |ps| && (i < |ps| ==> ps[i].name == name) && forall k :: 0 <= k < i ==> ps[k].name != name
    ensures FindPrototype(ps, name) == if i < |ps| then Some(ps[i]) else None
  {
    if i > 0 { FindPrototypeFirst(ps[1..], name, i - 1); }
  }

  lemma {:induction false} FindVersionFirst(ins: seq<BuildInput>, name: string, i: nat)
    requires i <= |ins| && (i < |ins| ==> ins[i].name == name) && forall k :: 0 <= k < i ==> ins[k].name != name
    ensures FindVersion(ins, name) == if i < |ins| then ins[i].version else None
  {
    if i > 0 { FindVersionFirst(ins[1..], name, i - 1); }
  }

  // ---- ids ----

  function HexDigit(d: nat): char
    requires d < 16
  {
    "0123456789abcdef"[d]
  }

  /** fmt %x */
  function Hex(n: nat): string {
    if n < 16 then [HexDigit(n)] else Hex(n / 16) + [HexDigit(n % 16)]
  }

  // ---- the translation ----

  /** A plan and the counter after it, or an error and the counter at that point. */
  datatype Outcome = Built(plan: Plan, next: nat) | Failed(error: Error, next: nat)
  datatype Outcomes = BuiltAll(plans: seq<Plan>, next: nat) | FailedAll(error: Error, next: nat)

  /** A new plan around `body`, numbered after `n`. */
  function NewPlan(body: Body, n: nat): Outcome {
    Built(Plan(Hex(n + 1), body), n + 1)
  }

  function Effective(own: Tags, inherited: Tags): Tags {
    if |own| > 0 then own else inherited
  }

  function TranslateGet(env: Env, g: GetStep, tags: Tags, n: nat): Outcome {
    match FindResource(env.resources, g.ResourceName())
    case None => Failed(UnknownResource(g.ResourceName()), n)
    case Some(r) =>
      match FindVersion(env.inputs, g.name)
      case None => Failed(VersionNotProvided(g.name), n)
      case Some(v) =>
        var image := ImageForType(env.types, Hex(n + 1), r.kind, tags, false);
        NewPlan(GetPlan(GetBody(g.name, r.kind, SourceWithDefaults(env, r), image, Some(v), None,
                                g.params, g.ResourceName(), tags, g.timeout)), n)
  }

  function TranslatePut(env: Env, p: PutStep, tags: Tags, n: nat): Outcome {
    match FindResource(env.resources, p.ResourceName())
    case None => Failed(UnknownResource(p.ResourceName()), n)
    case Some(r) =>
      var source := SourceWithDefaults(env, r);
      var putImage := ImageForType(env.types, Hex(n + 1), r.kind, tags, env.manuallyTriggered);
      var put := Plan(Hex(n + 1), PutPlan(PutBody(p.name, r.kind, source, putImage, p.params, p.inputs, p.ResourceName(),
                                                  tags, p.timeout, r.exposeBuildCreatedBy)));
      if p.noGet then Built(put, n + 1)
      else
        var getImage := ImageForType(env.types, Hex(n + 2), r.kind, tags, env.manuallyTriggered);
        var get := Plan(Hex(n + 2), GetPlan(GetBody(p.name, r.kind, source, getImage, None, Some(put.id),
                                                    p.getParams, p.ResourceName(), tags, p.timeout)));
        NewPlan(HookPlan(OnSuccess, put, get), n + 2)
  }

  function TranslateLeaf(env: Env, l: TypedLeaf, inherited: Tags, n: nat): Outcome {
    match l
    case Task(t) =>
      NewPlan(TaskPlan(t.(tags := Effective(t.tags, inherited)), env.types, env.manuallyTriggered), n)
    case Get(g) => TranslateGet(env, g, Effective(g.tags, inherited), n)
    case Put(p) => TranslatePut(env, p, Effective(p.tags, inherited), n)
    case Run(r) =>
      (match FindPrototype(env.prototypes, r.prototype)
       case None => Failed(UnknownPrototype(r.prototype), n)
       case Some(p) => NewPlan(RunPlan(r.(tags := Effective(r.tags, inherited), params := Merge(p.defaults, r.params))), n))
    case SetPipeline(s) => NewPlan(SetPipelinePlan(s), n)
    case LoadVar(v) => NewPlan(LoadVarPlan(v), n)
  }

  function Translate(env: Env, c: StepConfig, tags: Tags, n: nat): Outcome
    decreases c, 0
  {
    match c
    case Leaf(l) => TranslateLeaf(env, l, tags, n)
    case Try(s) =>
      (match TranslateStep(env, s, tags, n)
       case Failed(e, k) => Failed(e, k)
       case Built(p, k) => NewPlan(TryPlan(p), k))
    case Do(steps, own) =>
      (match TranslateAll(env, steps, Effective(own, tags), n)
       case FailedAll(e, k) => Failed(e, k)
       case BuiltAll(ps, k) => NewPlan(DoPlan(ps), k))
    case InParallel(steps, limit, failFast, own) =>
      (match TranslateAll(env, steps, Effective(own, tags), n)
       case FailedAll(e, k) => Failed(e, k)
       case BuiltAll(ps, k) => NewPlan(InParallelPlan(ps, limit, failFast), k))
    case Across(inner, vars, failFast) =>
      (match Translate(env, inner, tags, n)
       case Failed(e, k) => Failed(e, k)
       case Built(p, k) => NewPlan(AcrossPlan(vars, p, failFast), k))
    case Retry(inner, attempts) =>
      if attempts < 0 then Failed(NegativeAttempts, n)
      else
        (match TranslateCopies(env, inner, tags, n, attempts)
         case FailedAll(e, k) => Failed(e, k)
         case BuiltAll(ps, k) => NewPlan(RetryPlan(ps), k))
    case Timeout(inner, duration) =>
      (match Translate(env, inner, tags, n)
       case Failed(e, k) => Failed(e, k)
       case Built(p, k) => NewPlan(TimeoutPlan(p, duration), k))
    case Hook(kind, inner, hook) =>
      (match Translate(env, inner, tags, n)
       case Failed(e, k) => Failed(e, k)
       case Built(p, k) =>
         match TranslateStep(env, hook, tags, k)
         case Failed(e, j) => Failed(e, j)
         case Built(q, j) => NewPlan(HookPlan(kind, p, q), j))
  }

  function TranslateStep(env: Env, s: Step<TypedLeaf>, tags: Tags, n: nat): Outcome
    decreases s
  {
    Translate(env, s.config, tags, n)
  }

  /** The steps of a do or in_parallel, one after the other. */
  function TranslateAll(env: Env, steps: seq<Step<TypedLeaf>>, tags: Tags, n: nat): Outcomes
    decreases steps
  {
    if steps == [] then BuiltAll([], n)
    else
      match TranslateAll(env, steps[..|steps| - 1], tags, n)
      case FailedAll(e, k) => FailedAll(e, k)
      case BuiltAll(ps, k) =>
        match TranslateStep(env, steps[|steps| - 1], tags, k)
        case Failed(e, j) => FailedAll(e, j)
        case Built(p, j) => BuiltAll(ps + [p], j)
  }

  /** The attempts of a retry: the same step translated again and again. */
  function TranslateCopies(env: Env, c: StepConfig, tags: Tags, n: nat, copies: nat): Outcomes
    decreases c, copies
  {
    if copies == 0 then BuiltAll([], n)
    else
      match TranslateCopies(env, c, tags, n, copies - 1)
      case FailedAll(e, k) => FailedAll(e, k)
      case BuiltAll(ps, k) =>
        match Translate(env, c, tags, k)
        case Failed(e, j) => FailedAll(e, j)
        case Built(p, j) => BuiltAll(ps + [p], j)
  }

  lemma LastCopy(env: Env, c: StepConfig, tags: Tags, n: nat, copies: nat) returns (front: Outcomes, last: Plan)
    requires copies > 0 && TranslateCopies(env, c, tags, n, copies).BuiltAll?
    ensures front == TranslateCopies(env, c, tags, n, copies - 1) && front.BuiltAll?
    ensures var o, p := TranslateCopies(env, c, tags, n, copies), Translate(env, c, tags, front.next);
            p.Built? && p.plan == last && o.plans == front.plans + [last]
  {
    front := TranslateCopies(env, c, tags, n, copies - 1);
    last := Translate(env, c, tags, front.next).plan;
  }

  // ---- the visitor ----

  /** PlanFactory: the shared id counter. */
  class PlanFactory {
    var currentNum: nat

    constructor (startingNum: nat)
      ensures currentNum == startingNum
    {
      currentNum := startingNum;
    }

    method NewPlan(body: Body) returns (plan: Plan)
      modifies this
      ensures currentNum == old(currentNum) + 1 && plan == Plan(Hex(currentNum), body)
    {
      currentNum := currentNum + 1;
      plan := Plan(Hex(currentNum), body);
    }
  }

  /** planVisitor: `tags` are the inherited ones, `plan` is the last plan built. */
  class PlanVisitor {
    const env: Env
    const factory: PlanFactory
    var tags: Tags
    var plan: Plan

    constructor (env: Env, factory: PlanFactory, tags: Tags)
      ensures this.env == env && this.factory == factory && this.tags == tags
    {
      this.env, this.factory, this.tags := env, factory, tags;
      this.plan := Plan("", DoPlan([]));
    }

    /** The visitor did what the translation says and put the tags back. */
    twostate predicate Did(o: Outcome, new err: Option<Error>)
      reads this, factory
    {
      && tags == old(tags) && factory.currentNum == o.next
      && match o
         case Built(p, _) => err.None? && plan == p
         case Failed(e, _) => err == Some(e)
    }

    method EffectiveTags(own: Tags) returns (r: Tags)
      ensures r == Effective(own, tags)
    {
      if |own| > 0 { return own; }
      return tags;
    }

    method VisitTask(t: TaskStep) returns (err: Option<Error>)
      modifies this, factory
      ensures Did(TranslateLeaf(env, Task(t), old(tags), old(factory.currentNum)), err)
    {
      var effective := EffectiveTags(t.tags);
      plan := factory.NewPlan(TaskPlan(t.(tags := effective), env.types, env.manuallyTriggered));
      err := None;
    }

    method VisitRun(r: RunStep) returns (err: Option<Error>)
      modifies this, factory
      ensures Did(TranslateLeaf(env, Run(r), old(tags), old(factory.currentNum)), err)
    {
      var prototype := FindPrototype(env.prototypes, r.prototype);
      if prototype.None? { return Some(UnknownPrototype(r.prototype)); }
      var merged := Merge(prototype.value.defaults, r.params);
      var effective := EffectiveTags(r.tags);
      plan := factory.NewPlan(RunPlan(r.(tags := effective, params := merged)));
      err := None;
    }

    method VisitGet(g: GetStep) returns (err: Option<Error>)
      modifies this, factory
      ensures Did(TranslateLeaf(env, Get(g), old(tags), old(factory.currentNum)), err)
    {
      var resourceName := g.resource;
      if resourceName == "" { resourceName := g.name; }
      var resource := FindResource(env.resources, resourceName);
      if resource.None? { return Some(UnknownResource(resourceName)); }
      var version := FirstVersion(g.name);
      if version.None? { return Some(VersionNotProvided(g.name)); }
      var source := SourceWithDefaults(env, resource.value);
      var effective := EffectiveTags(g.tags);
      var body := GetBody(g.name, resource.value.kind, source, TypeImage("", false, None, None), version, None,
                          g.params, resourceName, effective, g.timeout);
      var p := factory.NewPlan(GetPlan(body));
      var image := ImageForType(env.types, p.id, resource.value.kind, effective, false);
      plan := Plan(p.id, GetPlan(body.(image := image)));
      err := None;
    }

    method FirstVersion(name: string) returns (version: Option<Version>)
      ensures version == FindVersion(env.inputs, name)
    {
      for i := 0 to |env.inputs|
        invariant FindVersion(env.inputs, name) == FindVersion(env.inputs[i..], name)
      {
        assert env.inputs[i..][1..] == env.inputs[i + 1..];
        if env.inputs[i].name == name { return env.inputs[i].version; }
      }
      return None;
    }

    method VisitPut(p: PutStep) returns (err: Option<Error>)
      modifies this, factory
      ensures Did(TranslateLeaf(env, Put(p), old(tags), old(factory.currentNum)), err)
    {
      var resourceName := p.resource;
      if resourceName == "" { resourceName := p.name; }
      var resource := FindResource(env.resources, resourceName);
      if resource.None? { return Some(UnknownResource(resourceName)); }
      var source := SourceWithDefaults(env, resource.value);
      var effective := EffectiveTags(p.tags);
      var body := PutBody(p.name, resource.value.kind, source, TypeImage("", false, None, None), p.params, p.inputs, resourceName,
                          effective, p.timeout, resource.value.exposeBuildCreatedBy);
      var put := NewPut(body, effective);
      err := None;
      if p.noGet {
        plan := put;
        return;
      }
      var get := NewDependentGet(p, body, put.id);
      plan := factory.NewPlan(HookPlan(OnSuccess, put, get));
    }

    /** A plan for the put, and then its image, named after the plan. */
    method NewPut(body: PutBody, effective: Tags) returns (put: Plan)
      modifies factory
      ensures factory.currentNum == old(factory.currentNum) + 1
      ensures put.id == Hex(factory.currentNum)
      ensures put.body == PutPlan(body.(image := ImageForType(env.types, put.id, body.kind, effective, env.manuallyTriggered)))
    {
      put := factory.NewPlan(PutPlan(body));
      var image := ImageForType(env.types, put.id, body.kind, effective, env.manuallyTriggered);
      put := Plan(put.id, PutPlan(body.(image := image)));
    }

    /** The get of what a put made. */
    method NewDependentGet(p: PutStep, put: PutBody, putID: PlanID) returns (get: Plan)
      modifies factory
      ensures factory.currentNum == old(factory.currentNum) + 1
      ensures get.id == Hex(factory.currentNum)
      ensures var image := ImageForType(env.types, get.id, put.kind, put.tags, env.manuallyTriggered);
              get.body == GetPlan(GetBody(p.name, put.kind, put.source, image, None, Some(putID), p.getParams, put.resource,
                                          put.tags, p.timeout))
    {
      var body := GetBody(p.name, put.kind, put.source, TypeImage("", false, None, None), None, Some(putID), p.getParams, put.resource,
                          put.tags, p.timeout);
      get := factory.NewPlan(GetPlan(body));
      var image := ImageForType(env.types, get.id, put.kind, put.tags, env.manuallyTriggered);
      get := Plan(get.id, GetPlan(body.(image := image)));
    }

    method VisitLeaf(l: TypedLeaf) returns (err: Option<Error>)
      modifies this, factory
      ensures Did(TranslateLeaf(env, l, old(tags), old(factory.currentNum)), err)
    {
      match l
      case Task(t) => err := VisitTask(t);
      case Get(g) => err := VisitGet(g);
      case Put(p) => err := VisitPut(p);
      case Run(r) => err := VisitRun(r);
      case SetPipeline(s) =>
        plan := factory.NewPlan(SetPipelinePlan(s));
        err := None;
      case LoadVar(v) =>
        plan := factory.NewPlan(LoadVarPlan(v));
        err := None;
    }

    method Visit(c: StepConfig) returns (err: Option<Error>)
      modifies this, factory
      ensures Did(Translate(env, c, old(tags), old(factory.currentNum)), err)
      decreases c, 2
    {
      match c
      case Leaf(l) => err := VisitLeaf(l);
      case Try(_) => err := VisitTry(c);
      case Do(_, _) => err := VisitDo(c);
      case InParallel(_, _, _, _) => err := VisitInParallel(c);
      case Across(_, _, _) => err := VisitAcross(c);
      case Retry(_, _) => err := VisitRetry(c);
      case Timeout(_, _) => err := VisitTimeout(c);
      case Hook(_, _, _) => err := VisitHook(c);
    }

    method VisitStep(s: Step<TypedLeaf>) returns (err: Option<Error>)
      modifies this, factory
      ensures Did(TranslateStep(env, s, old(tags), old(factory.currentNum)), err)
      decreases s, 0
    {
      err := Visit(s.config);
    }

    method VisitTry(c: StepConfig) returns (err: Option<Error>)
      requires c.Try?
      modifies this, factory
      ensures Did(Translate(env, c, old(tags), old(factory.currentNum)), err)
      decreases c, 1
    {
      err := VisitStep(c.step);
      if err.Some? { return; }
      plan := factory.NewPlan(TryPlan(plan));
    }

    method VisitAcross(c: StepConfig) returns (err: Option<Error>)
      requires c.Across?
      modifies this, factory
      ensures Did(Translate(env, c, old(tags), old(factory.currentNum)), err)
      decreases c, 1
    {
      err := Visit(c.inner);
      if err.Some? { return; }
      plan := factory.NewPlan(AcrossPlan(c.vars, plan, c.failFast));
    }

    method VisitTimeout(c: StepConfig) returns (err: Option<Error>)
      requires c.Timeout?
      modifies this, factory
      ensures Did(Translate(env, c, old(tags), old(factory.currentNum)), err)
      decreases c, 1
    {
      err := Visit(c.inner);
      if err.Some? { return; }
      plan := factory.NewPlan(TimeoutPlan(plan, c.duration));
    }

    /** VisitOnSuccess, VisitOnFailure, VisitOnAbort, VisitOnError and VisitEnsure. */
    method VisitHook(c: StepConfig) returns (err: Option<Error>)
      requires c.Hook?
      modifies this, factory
      ensures Did(Translate(env, c, old(tags), old(factory.currentNum)), err)
      decreases c, 1
    {
      err := Visit(c.inner);
      if err.Some? { return; }
      var main := plan;
      err := VisitStep(c.hook);
      if err.Some? { return; }
      plan := factory.NewPlan(HookPlan(c.kind, main, plan));
    }

    method VisitSteps(steps: seq<Step<TypedLeaf>>) returns (err: Option<Error>, plans: seq<Plan>)
      modifies this, factory
      ensures tags == old(tags)
      ensures match TranslateAll(env, steps, old(tags), old(factory.currentNum))
              case BuiltAll(ps, n) => err.None? && plans == ps && factory.currentNum == n
              case FailedAll(e, n) => err == Some(e) && factory.currentNum == n
      decreases steps, 0
    {
      plans := [];
      for i := 0 to |steps|
        invariant tags == old(tags)
        invariant TranslateAll(env, steps[..i], old(tags), old(factory.currentNum)) == BuiltAll(plans, factory.currentNum)
      {
        assert steps[..i + 1][..i] == steps[..i];
        err := VisitStep(steps[i]);
        if err.Some? {
          FailureSticks(env, steps, tags, old(factory.currentNum), i + 1);
          return;
        }
        plans := plans + [plan];
      }
      assert steps[..|steps|] == steps;
      err := None;
    }

    method VisitDo(c: StepConfig) returns (err: Option<Error>)
      requires c.Do?
      modifies this, factory
      ensures Did(Translate(env, c, old(tags), old(factory.currentNum)), err)
      decreases c, 1
    {
      var prev := tags;
      if |c.tags| > 0 { tags := c.tags; }
      var plans;
      err, plans := VisitSteps(c.steps);
      if err.None? {
        plan := factory.NewPlan(DoPlan(plans));
      }
      tags := prev;
    }

    method VisitInParallel(c: StepConfig) returns (err: Option<Error>)
      requires c.InParallel?
      modifies this, factory
      ensures Did(Translate(env, c, old(tags), old(factory.currentNum)), err)
      decreases c, 1
    {
      var prev := tags;
      if |c.tags| > 0 { tags := c.tags; }
      var plans;
      err, plans := VisitSteps(c.branches);
      if err.None? {
        plan := factory.NewPlan(InParallelPlan(plans, c.limit, c.failFast));
      }
      tags := prev;
    }

    method VisitRetry(c: StepConfig) returns (err: Option<Error>)
      requires c.Retry?
      modifies this, factory
      ensures Did(Translate(env, c, old(tags), old(factory.currentNum)), err)
      decreases c, 1
    {
      if c.attempts < 0 { return Some(NegativeAttempts); }
      var plans := [];
      for i := 0 to c.attempts
        invariant tags == old(tags)
        invariant TranslateCopies(env, c.inner, old(tags), old(factory.currentNum), i) == BuiltAll(plans, factory.currentNum)
      {
        err := Visit(c.inner);
        if err.Some? {
          CopyFailureSticks(env, c.inner, tags, old(factory.currentNum), i + 1, c.attempts);
          return;
        }
        plans := plans + [plan];
      }
      plan := factory.NewPlan(RetryPlan(plans));
      err := None;
    }
  }

  /** An error among the first steps is the result for all of them. */
  lemma {:induction false} FailureSticks(env: Env, steps: seq<Step<TypedLeaf>>, tags: Tags, n: nat, i: nat)
    requires i <= |steps| && TranslateAll(env, steps[..i], tags, n).FailedAll?
    ensures TranslateAll(env, steps, tags, n) == TranslateAll(env, steps[..i], tags, n)
    decreases |steps|
  {
    if i < |steps| {
      var front := steps[..|steps| - 1];
      assert front[..i] == steps[..i];
      FailureSticks(env, front, tags, n, i);
    } else {
      assert steps[..i] == steps;
    }
  }

  lemma {:induction false} CopyFailureSticks(env: Env, c: StepConfig, tags: Tags, n: nat, i: nat, copies: nat)
    requires i <= copies && TranslateCopies(env, c, tags, n, i).FailedAll?
    ensures TranslateCopies(env, c, tags, n, copies) == TranslateCopies(env, c, tags, n, i)
    decreases copies
  {
    if i < copies {
      CopyFailureSticks(env, c, tags, n, i, copies - 1);
    }
  }

  /** Planner.Create with a fresh visitor over the planner's factory. */
  method Create(factory: PlanFactory, env: Env, c: StepConfig, tags: Tags) returns (r: Result<Plan, Error>)
    modifies factory
    ensures match Translate(env, c, tags, old(factory.currentNum))
            case Built(p, n) => r == Ok(p) && factory.currentNum == n
            case Failed(e, n) => r == Err(e) && factory.currentNum == n
  {
    var visitor := new PlanVisitor(env, factory, tags);
    var err := visitor.Visit(c);
    if err.Some? { return Err(err.value); }
    return Ok(visitor.plan);
  }
}
