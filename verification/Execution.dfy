/** How a build runs: the engine's interpretation of steps and plans (atc/exec,
    atc/engine/builder.go).  With it, compiling a step changes neither which base steps run,
    in which order and under which context, nor how the whole ends. */
module Execution {
  import opened Steps
  import opened Plans
  import opened Planner
  import opened PlanMeaning

  /** What an error is found to be; a collected error is all that its parts are. */
  datatype Problem = Canceled | DeadlineExceeded | Retriable | Other(message: string)

  /** The result of a step and its error, none being the empty set. */
  datatype End = End(ok: bool, err: set<Problem>)

  datatype Context = Background | OfBuild | Within(parent: Context, duration: string)

  datatype Ran = Ran(body: Body, ctx: Context)

  /** The base steps run so far. */
  type World = seq<Ran>

  type Behaviour = (Context, World) -> (World, End)

  /** What is left open: how base steps end, when contexts are done, which durations parse, and
      how branches are run side by side. */
  datatype Engine = Engine(
    leaf: (Body, Context, World) -> End,
    ctxErr: (Context, World) -> set<Problem>,
    parses: string -> bool,
    inParallel: (seq<Behaviour>, int, bool) -> Behaviour,
    across: (seq<AcrossVar>, Behaviour, bool) -> Behaviour)

  function RunLeaf(e: Engine, body: Body): Behaviour {
    (ctx, w) => (w + [Ran(body, ctx)], e.leaf(body, ctx, w))
  }

  function RunHook(e: Engine, kind: HookKind, step: Behaviour, hook: Behaviour): Behaviour {
    match kind
    case OnSuccess => RunOnSuccess(step, hook)
    case OnFailure => RunOnFailure(step, hook)
    case OnAbort => RunOnAbort(step, hook)
    case OnError => RunOnError(step, hook)
    case Ensure => RunEnsure(e, step, hook)
  }

  function RunOnSuccess(step: Behaviour, hook: Behaviour): Behaviour {
    (ctx, w) =>
      var (w1, r) := step(ctx, w);
      if r.err != {} then (w1, End(false, r.err))
      else if !r.ok then (w1, End(false, {}))
      else hook(ctx, w1)
  }

  function RunOnFailure(step: Behaviour, hook: Behaviour): Behaviour {
    (ctx, w) =>
      var (w1, r) := step(ctx, w);
      if r.err != {} then (w1, End(false, r.err))
      else if r.ok then (w1, r)
      else
        var (w2, h) := hook(ctx, w1);
        (w2, End(false, h.err))
  }

  function RunOnAbort(step: Behaviour, hook: Behaviour): Behaviour {
    (ctx, w) =>
      var (w1, r) := step(ctx, w);
      if Canceled in r.err then (hook(Background, w1).0, r) else (w1, r)
  }

  function RunOnError(step: Behaviour, hook: Behaviour): Behaviour {
    (ctx, w) =>
      var (w1, r) := step(ctx, w);
      if r.err == {} || Canceled in r.err || Retriable in r.err then (w1, r)
      else
        var (w2, h) := hook(Background, w1);
        (w2, End(r.ok, r.err + h.err))
  }

  function RunEnsure(e: Engine, step: Behaviour, hook: Behaviour): Behaviour {
    (ctx, w) =>
      var (w1, r) := step(ctx, w);
      var (w2, h) := hook(if e.ctxErr(ctx, w1) != {} then Background else ctx, w1);
      if e.ctxErr(ctx, w2) != {} then (w2, End(false, e.ctxErr(ctx, w2)))
      else if r.err + h.err != {} then (w2, End(false, r.err + h.err))
      else (w2, End(r.ok && h.ok, {}))
  }

  /** A do is built from its end, each step with the rest as its success hook. */
  function RunInOrder(steps: seq<Behaviour>): Behaviour {
    if steps == [] then (ctx, w) => (w, End(true, {}))
    else RunOnSuccess(steps[0], RunInOrder(steps[1..]))
  }

  function RunRetry(e: Engine, attempts: seq<Behaviour>): Behaviour {
    (ctx, w) => RunAttempts(e, attempts, ctx, w, End(false, {}))
  }

  function RunAttempts(e: Engine, attempts: seq<Behaviour>, ctx: Context, w: World, last: End): (World, End) {
    if attempts == [] then (w, last)
    else
      var (w1, r) := attempts[0](ctx, w);
      if e.ctxErr(ctx, w1) != {} then (w1, End(false, e.ctxErr(ctx, w1)))
      else if r.err == {} && r.ok then (w1, r)
      else RunAttempts(e, attempts[1..], ctx, w1, r)
  }

  function RunTimeout(e: Engine, step: Behaviour, duration: string): Behaviour {
    (ctx, w) =>
      if !e.parses(duration) then (w, End(false, {Other(duration)}))
      else
        var (w1, r) := step(Within(ctx, duration), w);
        if DeadlineExceeded in r.err then (w1, End(false, {})) else (w1, r)
  }

  function RunTry(step: Behaviour): Behaviour {
    (ctx, w) =>
      var (w1, r) := step(ctx, w);
      (w1, if Canceled in r.err then End(false, r.err) else End(true, {}))
  }

  function Executed(e: Engine): Interpretation<Behaviour> {
    Interpretation(
      (body: Body) => RunLeaf(e, body),
      (ctx, w) => (w, End(false, {Other("missing")})),
      (steps: seq<Behaviour>) => RunInOrder(steps),
      e.inParallel,
      e.across,
      (attempts: seq<Behaviour>) => RunRetry(e, attempts),
      (step: Behaviour, duration: string) => RunTimeout(e, step, duration),
      (step: Behaviour) => RunTry(step),
      (kind: HookKind, step: Behaviour, hook: Behaviour) => RunHook(e, kind, step, hook))
  }

  function RunStep(e: Engine, env: Env, c: StepConfig, tags: Tags): Behaviour {
    MeansStep(Executed(e), env, c, tags)
  }

  function RunPlan(e: Engine, p: Plan): Behaviour {
    MeansPlan(Executed(e), p)
  }

  /** However base steps end and whenever the build is aborted, the plan runs the base steps
      the step asks for, in the same order, and ends the same way. */
  lemma PlanRunsStep(e: Engine, env: Env, c: StepConfig, tags: Tags, n: nat, ctx: Context, w: World)
    requires Translate(env, c, tags, n).Built?
    ensures RunPlan(e, Translate(env, c, tags, n).plan)(ctx, w) == RunStep(e, env, c, tags)(ctx, w)
  {
    PlanMeansStep(Executed(e), env, c, tags, n);
  }

  // ---- what the step asks for ----

  /** When a hook runs, by how its step ended. */
  predicate Fires(kind: HookKind, r: End) {
    match kind
    case OnSuccess => r.err == {} && r.ok
    case OnFailure => r.err == {} && !r.ok
    case OnAbort => Canceled in r.err
    case OnError => r.err != {} && Canceled !in r.err && Retriable !in r.err
    case Ensure => true
  }

  /** How step and hook end together: a success hook decides, a failure or error stays one, an
      error of either is an error, and an ensure needs both and the build not to be aborted. */
  function EndWith(kind: HookKind, r: End, h: End, aborted: set<Problem>): End {
    if kind.Ensure? then
      if aborted != {} then End(false, aborted) else End(r.err + h.err == {} && r.ok && h.ok, r.err + h.err)
    else if !Fires(kind, r) || kind.OnAbort? then (if r.err != {} && (kind.OnSuccess? || kind.OnFailure?) then End(false, r.err) else r)
    else if kind.OnSuccess? then h
    else if kind.OnFailure? then End(false, h.err)
    else End(r.ok, r.err + h.err)
  }

  /** A step and its hook, in a plan that was compiled from them: the step runs first, the
      hook after it exactly if it fires, and hooks on abort and error do not see the abort. */
  lemma HookFires(e: Engine, env: Env, c: StepConfig, tags: Tags, n: nat, ctx: Context, w: World)
    requires c.Hook? && Translate(env, c, tags, n).Built?
    ensures var (w1, r) := RunStep(e, env, c.inner, tags)(ctx, w);
            var hookCtx := if c.kind.OnAbort? || c.kind.OnError? || (c.kind.Ensure? && e.ctxErr(ctx, w1) != {})
                           then Background else ctx;
            var (w2, h) := RunStep(e, env, c.hook.config, tags)(hookCtx, w1);
            var (after, end) := RunPlan(e, Translate(env, c, tags, n).plan)(ctx, w);
            after == (if Fires(c.kind, r) then w2 else w1) && end == EndWith(c.kind, r, h, e.ctxErr(ctx, w2))
  {
    PlanRunsStep(e, env, c, tags, n, ctx, w);
  }

  /** A try succeeds unless it is aborted; a step that runs out of its time has failed. */
  lemma ModifiersEnd(e: Engine, env: Env, c: StepConfig, tags: Tags, ctx: Context, w: World)
    requires c.Try? || c.Timeout?
    ensures c.Try? ==>
              var (w1, r) := RunStep(e, env, c.step.config, tags)(ctx, w);
              RunStep(e, env, c, tags)(ctx, w) == (w1, if Canceled in r.err then End(false, r.err) else End(true, {}))
    ensures c.Timeout? && e.parses(c.duration) ==>
              var (w1, r) := RunStep(e, env, c.inner, tags)(Within(ctx, c.duration), w);
              RunStep(e, env, c, tags)(ctx, w) == (w1, if DeadlineExceeded in r.err then End(false, {}) else r)
  {
  }

  /** The world after the first `k` of some steps. */
  function After(steps: seq<Behaviour>, k: nat, ctx: Context, w: World): World
    requires k <= |steps|
  {
    if k == 0 then w else steps[k - 1](ctx, After(steps, k - 1, ctx, w)).0
  }

  lemma {:induction false} AfterShift(steps: seq<Behaviour>, k: nat, ctx: Context, w: World)
    requires 1 <= k <= |steps|
    ensures After(steps, k, ctx, w) == After(steps[1..], k - 1, ctx, steps[0](ctx, w).0)
  {
    if k > 1 { AfterShift(steps, k - 1, ctx, w); }
  }

  /** How the `k`-th step ends when those before it have run. */
  function EndOf(steps: seq<Behaviour>, k: nat, ctx: Context, w: World): End
    requires k < |steps|
  {
    steps[k](ctx, After(steps, k, ctx, w)).1
  }

  lemma EndShift(steps: seq<Behaviour>, ctx: Context, w: World)
    requires steps != []
    ensures forall i :: 0 <= i < |steps| - 1 ==> EndOf(steps[1..], i, ctx, steps[0](ctx, w).0) == EndOf(steps, i + 1, ctx, w)
  {
    forall i | 0 <= i < |steps| - 1
      ensures EndOf(steps[1..], i, ctx, steps[0](ctx, w).0) == EndOf(steps, i + 1, ctx, w)
    {
      AfterShift(steps, i + 1, ctx, w);
    }
  }

  /** A do runs its steps up to the first that does not succeed, and ends as that one. */
  lemma {:induction false} DoStopsAtFailure(steps: seq<Behaviour>, k: nat, ctx: Context, w: World)
    requires k <= |steps| && forall i :: 0 <= i < k ==> EndOf(steps, i, ctx, w) == End(true, {})
    requires k < |steps| ==> var r := EndOf(steps, k, ctx, w); r.err != {} || !r.ok
    ensures RunInOrder(steps)(ctx, w)
            == if k == |steps| then (After(steps, k, ctx, w), End(true, {}))
               else (After(steps, k + 1, ctx, w), End(false, EndOf(steps, k, ctx, w).err))
    decreases k
  {
    if steps != [] {
      var w1 := steps[0](ctx, w).0;
      assert EndOf(steps, 0, ctx, w) == steps[0](ctx, w).1;
      EndShift(steps, ctx, w);
      if k > 0 {
        DoStopsAtFailure(steps[1..], k - 1, ctx, w1);
        AfterShift(steps, k, ctx, w);
        if k < |steps| { AfterShift(steps, k + 1, ctx, w); }
      }
    }
  }

  /** The context is not done after any of the attempts. */
  ghost predicate Undisturbed(e: Engine, attempts: seq<Behaviour>, ctx: Context, w: World) {
    forall i :: 1 <= i <= |attempts| ==> e.ctxErr(ctx, After(attempts, i, ctx, w)) == {}
  }

  lemma UndisturbedRest(e: Engine, attempts: seq<Behaviour>, ctx: Context, w: World)
    requires attempts != [] && Undisturbed(e, attempts, ctx, w)
    ensures Undisturbed(e, attempts[1..], ctx, attempts[0](ctx, w).0) && e.ctxErr(ctx, attempts[0](ctx, w).0) == {}
  {
    assert After(attempts, 1, ctx, w) == attempts[0](ctx, w).0;
    forall i | 1 <= i <= |attempts| - 1
      ensures e.ctxErr(ctx, After(attempts[1..], i, ctx, attempts[0](ctx, w).0)) == {}
    {
      AfterShift(attempts, i + 1, ctx, w);
    }
  }

  /** Attempts run up to the first that succeeds, and end as the last that ran, unless the
      build is aborted. */
  lemma {:induction false} RetryStopsAtSuccess(e: Engine, attempts: seq<Behaviour>, k: nat, ctx: Context, w: World, last: End)
    requires k <= |attempts| && forall i :: 0 <= i < k ==> EndOf(attempts, i, ctx, w) != End(true, {})
    requires k < |attempts| ==> EndOf(attempts, k, ctx, w) == End(true, {})
    requires Undisturbed(e, attempts, ctx, w)
    ensures RunAttempts(e, attempts, ctx, w, last)
            == if k < |attempts| then (After(attempts, k + 1, ctx, w), End(true, {}))
               else (After(attempts, k, ctx, w), if k == 0 then last else EndOf(attempts, k - 1, ctx, w))
    decreases k
  {
    if attempts != [] {
      var (w1, r) := attempts[0](ctx, w);
      assert EndOf(attempts, 0, ctx, w) == r && After(attempts, 1, ctx, w) == w1;
      EndShift(attempts, ctx, w);
      UndisturbedRest(e, attempts, ctx, w);
      if k > 0 {
        RetryStopsAtSuccess(e, attempts[1..], k - 1, ctx, w1, r);
        AfterShift(attempts, k, ctx, w);
        if k < |attempts| { AfterShift(attempts, k + 1, ctx, w); }
      }
    }
  }
}
