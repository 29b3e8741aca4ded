/** Validation of a step tree (atc/step_validator.go).

    `Check` is the validator as a pure function that passes the message context, the get
    names seen and the local var scopes along; `StepValidator` keeps them in stacks it
    pushes and pops. */
module Validator {
  import opened Wrappers
  import opened Steps

  /** A piece of the context in front of a message. */
  datatype Part = Field(text: string) | Item(prefix: string, index: nat) | Call(keyword: string, arg: string)
  type Context = seq<Part>

  datatype Problem =
    | UnknownFields(names: set<string>)
    | Identifier(msg: string)
    | NoTaskConfig | TwoTaskConfigs | TaskConfigInvalid(msg: string)
    | ImageTwice | HermeticOnContainerd
    | RepeatedName | UnknownResource(name: string) | UnknownPrototype(name: string)
    | JobIgnoresResource(job: string, resource: string) | NoMatchingJob(pattern: string)
    | NoFile | NoVars | RepeatedVar | ShadowsVar(name: string)
    | NotPositive | InvalidDuration(text: string)

  datatype Message = Message(context: Context, problem: Problem)

  /** ValidateIdentifier: nothing to say, a warning, or an error. */
  datatype Verdict = Fine | Warn(msg: string) | Bad(msg: string)

  /** The checks that are made elsewhere. */
  datatype Checks = Checks(
    identifier: (string, Context) -> Verdict,
    taskConfig: TaskConfig -> seq<string>,
    duration: string -> bool,
    glob: (string, string) -> bool)

  /** The parts of a pipeline config steps refer to, and those outside checks. */
  datatype Pipeline = Pipeline(resources: seq<string>, prototypes: seq<string>, jobs: seq<JobConfig>, checks: Checks)

  type Scopes = seq<set<string>>

  /** The names seen so far. */
  datatype Seen = Seen(gets: set<string>, scopes: Scopes)

  /** What a check adds, and what has been seen after it. */
  datatype Out = Out(errors: seq<Message>, warnings: seq<Message>, seen: Seen)

  function Then(a: Out, b: Out): Out {
    Out(a.errors + b.errors, a.warnings + b.warnings, b.seen)
  }

  function When(b: bool, ctx: Context, p: Problem): seq<Message> {
    if b then [Message(ctx, p)] else []
  }

  function IdentifierErrors(pl: Pipeline, name: string, ctx: Context): seq<Message> {
    match pl.checks.identifier(name, ctx) case Bad(m) => [Message(ctx, Identifier(m))] case _ => []
  }

  function IdentifierWarnings(pl: Pipeline, name: string, ctx: Context): seq<Message> {
    match pl.checks.identifier(name, ctx) case Warn(m) => [Message(ctx, Identifier(m))] case _ => []
  }

  // ---- leaves ----

  function TaskConfigErrors(msgs: seq<string>, ctx: Context): seq<Message> {
    if msgs == [] then [] else TaskConfigErrors(msgs[..|msgs| - 1], ctx) + [Message(ctx, TaskConfigInvalid(msgs[|msgs| - 1]))]
  }

  function CheckTask(pl: Pipeline, t: TaskStep, ctx0: Context, seen: Seen): Out {
    var ctx := ctx0 + [Call(".task", t.name)];
    var inner := ctx + [Field(".config")];
    Out(
      IdentifierErrors(pl, t.name, ctx)
      + When(t.config.None? && t.configPath == "", ctx, NoTaskConfig)
      + When(t.config.Some? && t.configPath != "", ctx, TwoTaskConfigs)
      + (if t.config.None? then []
         else When(|t.config.value.unknown| > 0, inner, UnknownFields(t.config.value.unknown))
              + TaskConfigErrors(pl.checks.taskConfig(t.config.value), inner)),
      IdentifierWarnings(pl, t.name, ctx)
      + When(t.config.Some? && (t.config.value.rootfsURI != "" || t.config.value.hasImageResource) && t.image != "", ctx, ImageTwice)
      + When(t.hermetic, ctx, HermeticOnContainerd),
      seen)
  }

  /** The job gets or puts the resource. */
  predicate Interacts(j: JobConfig, resource: string) {
    exists l :: l in Leaves(j.StepConfig()) && Touches(l, resource)
  }

  predicate Touches(l: TypedLeaf, resource: string) {
    || (l.Get? && l.get.ResourceName() == resource)
    || (l.Put? && l.put.ResourceName() == resource)
  }

  function JobErrors(pl: Pipeline, jobs: seq<JobConfig>, pattern: string, resource: string, ctx: Context): seq<Message> {
    if jobs == [] then []
    else
      var j := jobs[|jobs| - 1];
      JobErrors(pl, jobs[..|jobs| - 1], pattern, resource, ctx)
      + When(pl.checks.glob(pattern, j.name) && !Interacts(j, resource), ctx, JobIgnoresResource(j.name, resource))
  }

  predicate Matches(pl: Pipeline, pattern: string) {
    exists j :: j in pl.jobs && pl.checks.glob(pattern, j.name)
  }

  function PassedErrors(pl: Pipeline, passed: seq<string>, resource: string, ctx: Context): seq<Message> {
    if passed == [] then []
    else
      var pattern := passed[|passed| - 1];
      PassedErrors(pl, passed[..|passed| - 1], resource, ctx)
      + JobErrors(pl, pl.jobs, pattern, resource, ctx)
      + When(!Matches(pl, pattern), ctx, NoMatchingJob(pattern))
  }

  function CheckGet(pl: Pipeline, g: GetStep, ctx0: Context, seen: Seen): Out {
    var ctx := ctx0 + [Call(".get", g.name)];
    Out(
      IdentifierErrors(pl, g.name, ctx)
      + When(g.name in seen.gets, ctx, RepeatedName)
      + When(g.ResourceName() !in pl.resources, ctx, UnknownResource(g.ResourceName()))
      + PassedErrors(pl, g.passed, g.ResourceName(), ctx + [Field(".passed")]),
      IdentifierWarnings(pl, g.name, ctx),
      seen.(gets := seen.gets + {g.name}))
  }

  function CheckPut(pl: Pipeline, p: PutStep, ctx0: Context, seen: Seen): Out {
    var ctx := ctx0 + [Call(".put", p.name)];
    Out(
      IdentifierErrors(pl, p.name, ctx) + When(p.ResourceName() !in pl.resources, ctx, UnknownResource(p.ResourceName())),
      IdentifierWarnings(pl, p.name, ctx),
      seen)
  }

  /** An invalid message name is an error here even where it is only a warning elsewhere. */
  function CheckRun(pl: Pipeline, r: RunStep, ctx0: Context, seen: Seen): Out {
    var ctx := ctx0 + [Call(".run", r.prototype + "." + r.message)];
    Out(
      IdentifierErrors(pl, r.message, ctx) + IdentifierWarnings(pl, r.message, ctx)
      + When(r.prototype !in pl.prototypes, ctx, UnknownPrototype(r.prototype)),
      [],
      seen)
  }

  function CheckSetPipeline(pl: Pipeline, s: SetPipelineStep, ctx0: Context, seen: Seen): Out {
    var ctx := ctx0 + [Call(".set_pipeline", s.name)];
    Out(IdentifierErrors(pl, s.name, ctx) + When(s.file == "", ctx, NoFile), IdentifierWarnings(pl, s.name, ctx), seen)
  }

  /** declareLocalVar, in the innermost scope. */
  function Declare(name: string, ctx: Context, seen: Seen): Out
    requires seen.scopes != []
  {
    var n := |seen.scopes| - 1;
    var again := name in seen.scopes[n];
    Out(
      When(again, ctx, RepeatedVar),
      When(!again && (exists s :: s in seen.scopes && name in s), ctx, ShadowsVar(name)),
      seen.(scopes := seen.scopes[n := seen.scopes[n] + {name}]))
  }

  function CheckLoadVar(pl: Pipeline, v: LoadVarStep, ctx0: Context, seen: Seen): Out
    requires seen.scopes != []
  {
    var ctx := ctx0 + [Call(".load_var", v.name)];
    var declared := Declare(v.name, ctx, seen);
    Out(
      IdentifierErrors(pl, v.name, ctx) + declared.errors + When(v.file == "", ctx, NoFile),
      IdentifierWarnings(pl, v.name, ctx) + declared.warnings,
      declared.seen)
  }

  function CheckLeaf(pl: Pipeline, l: TypedLeaf, ctx: Context, seen: Seen): Out
    requires seen.scopes != []
  {
    match l
    case Task(t) => CheckTask(pl, t, ctx, seen)
    case Get(g) => CheckGet(pl, g, ctx, seen)
    case Put(p) => CheckPut(pl, p, ctx, seen)
    case Run(r) => CheckRun(pl, r, ctx, seen)
    case SetPipeline(s) => CheckSetPipeline(pl, s, ctx, seen)
    case LoadVar(v) => CheckLoadVar(pl, v, ctx, seen)
  }

  // ---- trees ----

  /** The scopes below the innermost stay as they are and none is added or dropped. */
  predicate SameStack(a: Scopes, b: Scopes) {
    |a| == |b| > 0 && a[..|a| - 1] == b[..|b| - 1]
  }

  function CheckAcrossVars(vars: seq<AcrossVar>, ctx: Context, seen: Seen): (o: Out)
    requires seen.scopes != []
    ensures SameStack(o.seen.scopes, seen.scopes)
  {
    if vars == [] then Out([], [], seen)
    else
      var n := |vars| - 1;
      var before := CheckAcrossVars(vars[..n], ctx, seen);
      var at := ctx + [Item("", n)];
      var limit := vars[n].maxInFlight;
      var bad := limit.Some? && limit.value.Limit? && limit.value.n <= 0;
      Then(Then(before, Declare(vars[n].name, at, before.seen)),
           Out(When(bad, at + [Field(".max_in_flight")], NotPositive), [], Declare(vars[n].name, at, before.seen).seen))
  }

  function HookField(k: HookKind): string {
    match k
    case OnSuccess => ".on_success"
    case OnFailure => ".on_failure"
    case OnAbort => ".on_abort"
    case OnError => ".on_error"
    case Ensure => ".ensure"
  }

  function CheckVars(vars: seq<AcrossVar>, ctx: Context, seen: Seen): (o: Out)
    requires seen.scopes != []
    ensures SameStack(o.seen.scopes, seen.scopes)
  {
    Then(Out(When(|vars| == 0, ctx, NoVars), [], seen), CheckAcrossVars(vars, ctx, seen))
  }

  function Check(pl: Pipeline, c: StepConfig, ctx: Context, seen: Seen): (o: Out)
    requires seen.scopes != []
    ensures SameStack(o.seen.scopes, seen.scopes)
    decreases c
  {
    match c
    case Leaf(l) => CheckLeaf(pl, l, ctx, seen)
    case Try(s) => CheckStep(pl, s, ctx + [Field(".try")], seen)
    case Do(steps, _) => CheckAll(pl, steps, ctx + [Field(".do")], "", seen)
    case InParallel(steps, _, _, _) => CheckAll(pl, steps, ctx + [Field(".in_parallel")], ".steps", seen)
    case Across(inner, vars, _) =>
      var at := ctx + [Field(".across")];
      var pushed := seen.(scopes := seen.scopes + [{}]);
      var before := CheckVars(vars, at, pushed);
      var all := Then(before, Check(pl, inner, at, before.seen));
      all.(seen := all.seen.(scopes := all.seen.scopes[..|all.seen.scopes| - 1]))
    case Retry(inner, attempts) =>
      var first := Check(pl, inner, ctx, seen);
      first.(errors := first.errors + When(attempts <= 0, ctx + [Field(".attempts")], NotPositive))
    case Timeout(inner, duration) =>
      var first := Check(pl, inner, ctx, seen);
      first.(errors := first.errors
                       + When(!pl.checks.duration(duration), ctx + [Field(".timeout")], InvalidDuration(duration)))
    case Hook(kind, inner, hook) =>
      var first := Check(pl, inner, ctx, seen);
      Then(first, CheckStep(pl, hook, ctx + [Field(HookField(kind))], first.seen))
  }

  /** Validate: the unclaimed fields of the envelope, then the step itself. */
  function CheckStep(pl: Pipeline, s: Step<TypedLeaf>, ctx: Context, seen: Seen): (o: Out)
    requires seen.scopes != []
    ensures SameStack(o.seen.scopes, seen.scopes)
    decreases s
  {
    Then(Out(When(|s.unknown| > 0, ctx, UnknownFields(s.unknown.Keys)), [], seen), Check(pl, s.config, ctx, seen))
  }

  function CheckAll(pl: Pipeline, steps: seq<Step<TypedLeaf>>, ctx: Context, prefix: string, seen: Seen): (o: Out)
    requires seen.scopes != []
    ensures SameStack(o.seen.scopes, seen.scopes)
    decreases steps
  {
    if steps == [] then Out([], [], seen)
    else
      var n := |steps| - 1;
      var before := CheckAll(pl, steps[..n], ctx, prefix, seen);
      Then(before, CheckStep(pl, steps[n], ctx + [Item(prefix, n)], before.seen))
  }

  // ---- the stateful validator ----

  lemma Assoc<T>(a: seq<T>, b: seq<T>, c: seq<T>)
    ensures (a + b) + c == a + (b + c)
  {
  }

  // ---- what the visits return ----

  /** Errors are recorded, not returned; a visit hands on what a nested visit returns. */
  type Error = string

  function Returned(c: StepConfig): Option<Error>
    decreases c, 0
  {
    match c
    case Leaf(_) => None
    case Try(s) => ReturnedStep(s)
    case Do(steps, _) => ReturnedAll(steps)
    case InParallel(steps, _, _, _) => ReturnedAll(steps)
    case Across(inner, _, _) => Returned(inner)
    case Retry(inner, _) => Returned(inner)
    case Timeout(inner, _) => Returned(inner)
    case Hook(_, inner, hook) => if Returned(inner).Some? then Returned(inner) else ReturnedStep(hook)
  }

  function ReturnedStep(s: Step<TypedLeaf>): Option<Error>
    decreases s
  {
    Returned(s.config)
  }

  /** The first error among the steps. */
  function ReturnedAll(steps: seq<Step<TypedLeaf>>): Option<Error>
    decreases steps
  {
    if steps == [] then None
    else
      var before := ReturnedAll(steps[..|steps| - 1]);
      if before.Some? then before else ReturnedStep(steps[|steps| - 1])
  }

  lemma {:induction false} ErrorSticks(steps: seq<Step<TypedLeaf>>, i: nat)
    requires i < |steps| && ReturnedAll(steps[..i]).None? && ReturnedStep(steps[i]).Some?
    ensures ReturnedAll(steps) == ReturnedStep(steps[i])
    decreases |steps|
  {
    var n := |steps| - 1;
    if i < n {
      assert steps[..n][..i] == steps[..i];
      ErrorSticks(steps[..n], i);
    }
  }

  /** No visit ever returns an error. */
  lemma {:induction false} AlwaysNil(c: StepConfig)
    ensures Returned(c).None?
    decreases c, 0
  {
    match c
    case Leaf(_) =>
    case Try(s) => AlwaysNilStep(s);
    case Do(steps, _) => AlwaysNilAll(steps);
    case InParallel(steps, _, _, _) => AlwaysNilAll(steps);
    case Across(inner, _, _) => AlwaysNil(inner);
    case Retry(inner, _) => AlwaysNil(inner);
    case Timeout(inner, _) => AlwaysNil(inner);
    case Hook(_, inner, hook) =>
      AlwaysNil(inner);
      AlwaysNilStep(hook);
  }

  lemma {:induction false} AlwaysNilStep(s: Step<TypedLeaf>)
    ensures ReturnedStep(s).None?
    decreases s
  {
    AlwaysNil(s.config);
  }

  lemma {:induction false} AlwaysNilAll(steps: seq<Step<TypedLeaf>>)
    ensures ReturnedAll(steps).None?
    decreases steps
  {
    if steps != [] {
      AlwaysNilAll(steps[..|steps| - 1]);
      AlwaysNilStep(steps[|steps| - 1]);
    }
  }

  /** Two stretches of work, one after the other. */
  lemma Both(errors: seq<Message>, warnings: seq<Message>, a: Out, b: Out)
    ensures errors + Then(a, b).errors == (errors + a.errors) + b.errors
    ensures warnings + Then(a, b).warnings == (warnings + a.warnings) + b.warnings
  {
    Assoc(errors, a.errors, b.errors);
    Assoc(warnings, a.warnings, b.warnings);
  }

  class StepValidator {
    const pl: Pipeline
    var warnings: seq<Message>
    var errors: seq<Message>
    var context: Context
    var seenGetName: set<string>
    var localVarScopes: Scopes

    constructor (pl: Pipeline, context: Context)
      ensures this.pl == pl && this.context == context
      ensures errors == [] && warnings == [] && Now() == Seen({}, [{}])
    {
      this.pl, this.context := pl, context;
      warnings, errors, seenGetName, localVarScopes := [], [], {}, [{}];
    }

    ghost function Now(): Seen
      reads this
    {
      Seen(seenGetName, localVarScopes)
    }

    /** The validator recorded what the check says, and put the context back. */
    twostate predicate Did(o: Out)
      reads this
    {
      && errors == old(errors) + o.errors && warnings == old(warnings) + o.warnings
      && context == old(context) && Now() == o.seen
    }

    /** What is certain after an error: nothing that was pushed before has been popped. */
    twostate predicate Left()
      reads this
    {
      old(context) <= context && |old(localVarScopes)| <= |localVarScopes|
    }

    method PushContext(p: Part)
      modifies this`context
      ensures context == old(context) + [p]
    {
      context := context + [p];
    }

    method PopContext()
      requires context != []
      modifies this`context
      ensures context == old(context)[..|old(context)| - 1]
    {
      context := context[..|context| - 1];
    }

    method RecordError(b: bool, p: Problem)
      modifies this`errors
      ensures errors == old(errors) + When(b, context, p)
    {
      if b { errors := errors + [Message(context, p)]; }
    }

    method RecordWarning(b: bool, p: Problem)
      modifies this`warnings
      ensures warnings == old(warnings) + When(b, context, p)
    {
      if b { warnings := warnings + [Message(context, p)]; }
    }

    method CheckName(name: string)
      modifies this`errors, this`warnings
      ensures errors == old(errors) + IdentifierErrors(pl, name, context)
      ensures warnings == old(warnings) + IdentifierWarnings(pl, name, context)
    {
      match pl.checks.identifier(name, context)
      case Bad(m) => errors := errors + [Message(context, Identifier(m))];
      case Warn(m) => warnings := warnings + [Message(context, Identifier(m))];
      case Fine =>
    }

    method VisitTask(t: TaskStep) returns (err: Option<Error>)
      modifies this
      ensures err.None? && Did(CheckTask(pl, t, old(context), old(Now())))
    {
      PushContext(Call(".task", t.name));
      CheckName(t.name);
      ghost var e1 := IdentifierErrors(pl, t.name, context);
      ghost var w1 := IdentifierWarnings(pl, t.name, context);
      ghost var e2 := When(t.config.None? && t.configPath == "", context, NoTaskConfig);
      ghost var e3 := When(t.config.Some? && t.configPath != "", context, TwoTaskConfigs);
      RecordError(t.config.None? && t.configPath == "", NoTaskConfig);
      RecordError(t.config.Some? && t.configPath != "", TwoTaskConfigs);
      Assoc(old(errors), e1, e2);
      Assoc(old(errors), e1 + e2, e3);
      var imageTwice := t.config.Some? && (t.config.value.rootfsURI != "" || t.config.value.hasImageResource) && t.image != "";
      RecordWarning(imageTwice, ImageTwice);
      RecordWarning(t.hermetic, HermeticOnContainerd);
      Assoc(old(warnings), w1, When(imageTwice, context, ImageTwice));
      Assoc(old(warnings), w1 + When(imageTwice, context, ImageTwice), When(t.hermetic, context, HermeticOnContainerd));
      if t.config.Some? {
        VisitTaskConfig(t.config.value);
        ghost var inner := context + [Field(".config")];
        Assoc(old(errors), e1 + e2 + e3,
              When(|t.config.value.unknown| > 0, inner, UnknownFields(t.config.value.unknown))
              + TaskConfigErrors(pl.checks.taskConfig(t.config.value), inner));
      }
      PopContext();
      err := None;
    }

    method VisitTaskConfig(config: TaskConfig)
      modifies this`errors, this`context
      ensures context == old(context)
      ensures var inner := context + [Field(".config")];
              errors == old(errors) + (When(|config.unknown| > 0, inner, UnknownFields(config.unknown))
                                       + TaskConfigErrors(pl.checks.taskConfig(config), inner))
    {
      PushContext(Field(".config"));
      RecordError(|config.unknown| > 0, UnknownFields(config.unknown));
      var msgs := pl.checks.taskConfig(config);
      ghost var unknown := When(|config.unknown| > 0, context, UnknownFields(config.unknown));
      for i := 0 to |msgs|
        invariant context == old(context) + [Field(".config")]
        invariant errors == old(errors) + (unknown + TaskConfigErrors(msgs[..i], context))
      {
        assert msgs[..i + 1][..i] == msgs[..i];
        RecordError(true, TaskConfigInvalid(msgs[i]));
      }
      assert msgs[..|msgs|] == msgs;
      PopContext();
    }

    method VisitGet(g: GetStep) returns (err: Option<Error>)
      modifies this
      ensures err.None? && Did(CheckGet(pl, g, old(context), old(Now())))
    {
      PushContext(Call(".get", g.name));
      CheckName(g.name);
      ghost var e1 := IdentifierErrors(pl, g.name, context);
      ghost var e2 := When(g.name in seenGetName, context, RepeatedName);
      RecordError(g.name in seenGetName, RepeatedName);
      seenGetName := seenGetName + {g.name};
      var resourceName := g.ResourceName();
      RecordError(resourceName !in pl.resources, UnknownResource(resourceName));
      ghost var e3 := When(resourceName !in pl.resources, context, UnknownResource(resourceName));
      Assoc(old(errors), e1, e2);
      Assoc(old(errors), e1 + e2, e3);
      PushContext(Field(".passed"));
      VisitPassed(g.passed, resourceName);
      Assoc(old(errors), e1 + e2 + e3, PassedErrors(pl, g.passed, resourceName, context));
      PopContext();
      PopContext();
      err := None;
    }

    method VisitPassed(passed: seq<string>, resourceName: string)
      modifies this`errors
      ensures errors == old(errors) + PassedErrors(pl, passed, resourceName, context)
    {
      for i := 0 to |passed|
        invariant errors == old(errors) + PassedErrors(pl, passed[..i], resourceName, context)
      {
        assert passed[..i + 1][..i] == passed[..i];
        ghost var before := errors;
        var foundJob := VisitPassedJobs(passed[i], resourceName);
        RecordError(!foundJob, NoMatchingJob(passed[i]));
        ghost var so, jobs := PassedErrors(pl, passed[..i], resourceName, context), JobErrors(pl, pl.jobs, passed[i], resourceName, context);
        Assoc(old(errors), so, jobs);
        Assoc(old(errors), so + jobs, When(!foundJob, context, NoMatchingJob(passed[i])));
      }
      assert passed[..|passed|] == passed;
    }

    method VisitPassedJobs(pattern: string, resourceName: string) returns (foundJob: bool)
      modifies this`errors
      ensures foundJob == Matches(pl, pattern)
      ensures errors == old(errors) + JobErrors(pl, pl.jobs, pattern, resourceName, context)
    {
      foundJob := false;
      for i := 0 to |pl.jobs|
        invariant foundJob <==> exists k :: 0 <= k < i && pl.checks.glob(pattern, pl.jobs[k].name)
        invariant errors == old(errors) + JobErrors(pl, pl.jobs[..i], pattern, resourceName, context)
      {
        assert pl.jobs[..i + 1][..i] == pl.jobs[..i];
        var matched := pl.checks.glob(pattern, pl.jobs[i].name);
        foundJob := foundJob || matched;
        var foundResource := FindsResource(Leaves(pl.jobs[i].StepConfig()), resourceName);
        RecordError(matched && !foundResource, JobIgnoresResource(pl.jobs[i].name, resourceName));
      }
      assert pl.jobs[..|pl.jobs|] == pl.jobs;
    }

    /** The recursor's OnGet and OnPut hooks. */
    method FindsResource(leaves: seq<TypedLeaf>, resourceName: string) returns (found: bool)
      ensures found <==> exists l :: l in leaves && Touches(l, resourceName)
    {
      found := false;
      for i := 0 to |leaves|
        invariant found <==> exists k :: 0 <= k < i && Touches(leaves[k], resourceName)
      {
        if Touches(leaves[i], resourceName) { found := true; }
      }
    }

    method VisitPut(p: PutStep) returns (err: Option<Error>)
      modifies this
      ensures err.None? && Did(CheckPut(pl, p, old(context), old(Now())))
    {
      PushContext(Call(".put", p.name));
      CheckName(p.name);
      RecordError(p.ResourceName() !in pl.resources, UnknownResource(p.ResourceName()));
      Assoc(old(errors), IdentifierErrors(pl, p.name, context),
            When(p.ResourceName() !in pl.resources, context, UnknownResource(p.ResourceName())));
      PopContext();
      err := None;
    }

    method VisitRun(r: RunStep) returns (err: Option<Error>)
      modifies this
      ensures err.None? && Did(CheckRun(pl, r, old(context), old(Now())))
    {
      PushContext(Call(".run", r.prototype + "." + r.message));
      match pl.checks.identifier(r.message, context) {
        case Bad(m) => errors := errors + [Message(context, Identifier(m))];
        case Warn(m) => errors := errors + [Message(context, Identifier(m))];
        case Fine =>
      }
      ghost var named := IdentifierErrors(pl, r.message, context) + IdentifierWarnings(pl, r.message, context);
      assert errors == old(errors) + named;
      RecordError(r.prototype !in pl.prototypes, UnknownPrototype(r.prototype));
      Assoc(old(errors), named, When(r.prototype !in pl.prototypes, context, UnknownPrototype(r.prototype)));
      PopContext();
      err := None;
    }

    method VisitSetPipeline(s: SetPipelineStep) returns (err: Option<Error>)
      modifies this
      ensures err.None? && Did(CheckSetPipeline(pl, s, old(context), old(Now())))
    {
      PushContext(Call(".set_pipeline", s.name));
      CheckName(s.name);
      RecordError(s.file == "", NoFile);
      Assoc(old(errors), IdentifierErrors(pl, s.name, context), When(s.file == "", context, NoFile));
      PopContext();
      err := None;
    }

    method DeclareLocalVar(name: string)
      requires localVarScopes != []
      modifies this
      ensures Did(Declare(name, old(context), old(Now())))
    {
      var n := |localVarScopes| - 1;
      if name in localVarScopes[n] {
        RecordError(true, RepeatedVar);
      } else {
        var declared := false;
        for i := 0 to |localVarScopes|
          invariant declared <==> exists k :: 0 <= k < i && name in localVarScopes[k]
        {
          if name in localVarScopes[i] { declared := true; }
        }
        RecordWarning(declared, ShadowsVar(name));
      }
      localVarScopes := localVarScopes[n := localVarScopes[n] + {name}];
    }

    method VisitLoadVar(v: LoadVarStep) returns (err: Option<Error>)
      requires localVarScopes != []
      modifies this
      ensures err.None? && Did(CheckLoadVar(pl, v, old(context), old(Now())))
    {
      PushContext(Call(".load_var", v.name));
      CheckName(v.name);
      ghost var e1, w1 := IdentifierErrors(pl, v.name, context), IdentifierWarnings(pl, v.name, context);
      ghost var d := Declare(v.name, context, Now());
      DeclareLocalVar(v.name);
      RecordError(v.file == "", NoFile);
      Assoc(old(errors), e1, d.errors);
      Assoc(old(errors), e1 + d.errors, When(v.file == "", context, NoFile));
      Assoc(old(warnings), w1, d.warnings);
      PopContext();
      err := None;
    }

    method VisitLeaf(l: TypedLeaf) returns (err: Option<Error>)
      requires localVarScopes != []
      modifies this
      ensures err.None? && Did(CheckLeaf(pl, l, old(context), old(Now())))
    {
      match l
      case Task(t) => err := VisitTask(t);
      case Get(g) => err := VisitGet(g);
      case Put(p) => err := VisitPut(p);
      case Run(r) => err := VisitRun(r);
      case SetPipeline(s) => err := VisitSetPipeline(s);
      case LoadVar(v) => err := VisitLoadVar(v);
    }

    method Validate(step: Step<TypedLeaf>) returns (err: Option<Error>)
      requires localVarScopes != []
      modifies this
      ensures err == ReturnedStep(step)
      ensures err.None? ==> Did(CheckStep(pl, step, old(context), old(Now())))
      ensures err.Some? ==> Left()
      decreases step, 0
    {
      RecordError(|step.unknown| > 0, UnknownFields(step.unknown.Keys));
      ghost var first := Out(When(|step.unknown| > 0, context, UnknownFields(step.unknown.Keys)), [], Now());
      err := Visit(step.config);
      Both(old(errors), old(warnings), first, Check(pl, step.config, old(context), old(Now())));
    }

    method Visit(c: StepConfig) returns (err: Option<Error>)
      requires localVarScopes != []
      modifies this
      ensures err == Returned(c)
      ensures err.None? ==> Did(Check(pl, c, old(context), old(Now())))
      ensures err.Some? ==> Left()
      decreases c, 1
    {
      match c
      case Leaf(l) => err := VisitLeaf(l);
      case Try(s) =>
        PushContext(Field(".try"));
        err := Validate(s);
        PopContext();
      case Do(steps, _) =>
        PushContext(Field(".do"));
        err := VisitSteps(steps, "");
        PopContext();
      case InParallel(steps, _, _, _) =>
        PushContext(Field(".in_parallel"));
        err := VisitSteps(steps, ".steps");
        PopContext();
      case Across(_, _, _) => err := VisitAcross(c);
      case Retry(_, _) => err := VisitRetry(c);
      case Timeout(_, _) => err := VisitTimeout(c);
      case Hook(_, _, _) => err := VisitHook(c);
    }

    method VisitRetry(c: StepConfig) returns (err: Option<Error>)
      requires c.Retry? && localVarScopes != []
      modifies this
      ensures err == Returned(c)
      ensures err.None? ==> Did(Check(pl, c, old(context), old(Now())))
      ensures err.Some? ==> Left()
      decreases c, 0
    {
      err := Visit(c.inner);
      if err.Some? { return; }
      PushContext(Field(".attempts"));
      RecordError(c.attempts <= 0, NotPositive);
      Assoc(old(errors), Check(pl, c.inner, old(context), old(Now())).errors, When(c.attempts <= 0, context, NotPositive));
      PopContext();
    }

    method VisitTimeout(c: StepConfig) returns (err: Option<Error>)
      requires c.Timeout? && localVarScopes != []
      modifies this
      ensures err == Returned(c)
      ensures err.None? ==> Did(Check(pl, c, old(context), old(Now())))
      ensures err.Some? ==> Left()
      decreases c, 0
    {
      err := Visit(c.inner);
      if err.Some? { return; }
      PushContext(Field(".timeout"));
      RecordError(!pl.checks.duration(c.duration), InvalidDuration(c.duration));
      Assoc(old(errors), Check(pl, c.inner, old(context), old(Now())).errors,
            When(!pl.checks.duration(c.duration), context, InvalidDuration(c.duration)));
      PopContext();
    }

    /** VisitOnSuccess, VisitOnFailure, VisitOnAbort, VisitOnError and VisitEnsure. */
    method VisitHook(c: StepConfig) returns (err: Option<Error>)
      requires c.Hook? && localVarScopes != []
      modifies this
      ensures err == Returned(c)
      ensures err.None? ==> Did(Check(pl, c, old(context), old(Now())))
      ensures err.Some? ==> Left()
      decreases c, 0
    {
      err := Visit(c.inner);
      if err.Some? { return; }
      ghost var first := Check(pl, c.inner, old(context), old(Now()));
      PushContext(Field(HookField(c.kind)));
      err := Validate(c.hook);
      PopContext();
      Both(old(errors), old(warnings), first, CheckStep(pl, c.hook, old(context) + [Field(HookField(c.kind))], first.seen));
    }

    /** An error would leave the context of its step pushed. */
    method VisitSteps(steps: seq<Step<TypedLeaf>>, prefix: string) returns (err: Option<Error>)
      requires localVarScopes != []
      modifies this
      ensures err == ReturnedAll(steps)
      ensures err.None? ==> Did(CheckAll(pl, steps, old(context), prefix, old(Now())))
      ensures err.Some? ==> Left()
      decreases steps, 0
    {
      for i := 0 to |steps|
        invariant ReturnedAll(steps[..i]).None?
        invariant Did(CheckAll(pl, steps[..i], old(context), prefix, old(Now())))
      {
        assert steps[..i + 1][..i] == steps[..i];
        ghost var first := CheckAll(pl, steps[..i], old(context), prefix, old(Now()));
        PushContext(Item(prefix, i));
        err := Validate(steps[i]);
        if err.Some? {
          ErrorSticks(steps, i);
          return;
        }
        PopContext();
        Both(old(errors), old(warnings), first, CheckStep(pl, steps[i], old(context) + [Item(prefix, i)], first.seen));
      }
      assert steps[..|steps|] == steps;
      err := None;
    }

    method VisitAcrossVars(vars: seq<AcrossVar>)
      requires localVarScopes != []
      modifies this
      ensures Did(CheckAcrossVars(vars, old(context), old(Now())))
    {
      for i := 0 to |vars|
        invariant Did(CheckAcrossVars(vars[..i], old(context), old(Now())))
      {
        assert vars[..i + 1][..i] == vars[..i];
        ghost var first := CheckAcrossVars(vars[..i], old(context), old(Now()));
        PushContext(Item("", i));
        ghost var at := context;
        DeclareLocalVar(vars[i].name);
        ghost var d := Declare(vars[i].name, at, first.seen);
        PushContext(Field(".max_in_flight"));
        var limit := vars[i].maxInFlight;
        var bad := limit.Some? && limit.value.Limit? && limit.value.n <= 0;
        RecordError(bad, NotPositive);
        PopContext();
        PopContext();
        ghost var last := Out(When(bad, at + [Field(".max_in_flight")], NotPositive), [], d.seen);
        Assoc(old(errors), first.errors, d.errors);
        Assoc(old(errors), first.errors + d.errors, last.errors);
        Assoc(old(warnings), first.warnings, d.warnings);
      }
      assert vars[..|vars|] == vars;
    }

    method VisitVars(vars: seq<AcrossVar>)
      requires localVarScopes != []
      modifies this
      ensures Did(CheckVars(vars, old(context), old(Now())))
    {
      RecordError(|vars| == 0, NoVars);
      VisitAcrossVars(vars);
      Both(old(errors), old(warnings), Out(When(|vars| == 0, context, NoVars), [], old(Now())),
           CheckAcrossVars(vars, context, old(Now())));
    }

    method VisitAcross(c: StepConfig) returns (err: Option<Error>)
      requires c.Across? && localVarScopes != []
      modifies this
      ensures err == Returned(c)
      ensures err.None? ==> Did(Check(pl, c, old(context), old(Now())))
      ensures err.Some? ==> Left()
      decreases c, 0
    {
      PushContext(Field(".across"));
      localVarScopes := localVarScopes + [{}];
      ghost var at := context;
      ghost var before := CheckVars(c.vars, at, Now());
      VisitVars(c.vars);
      err := Visit(c.inner);
      Both(old(errors), old(warnings), before, Check(pl, c.inner, at, before.seen));
      localVarScopes := localVarScopes[..|localVarScopes| - 1];
      PopContext();
    }
  }
}
