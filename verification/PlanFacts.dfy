/** What every plan the planner builds has: distinct ids, one source for the version of
    each get, and every leaf step as often and with the tags it was asked for. */
module PlanFacts {
  import opened Wrappers
  import opened Steps
  import opened Plans
  import opened Images
  import opened Planner

  // ---- ids ----

  lemma {:induction false} HexNoSlash(n: nat)
    ensures '/' !in Hex(n) && Hex(n) != ""
  {
    if n >= 16 {
      HexNoSlash(n / 16);
    }
  }

  function DigitValue(c: char): nat {
    if '0' <= c <= '9' then c as nat - '0' as nat
    else if 'a' <= c <= 'f' then c as nat - 'a' as nat + 10
    else 0
  }

  /** The number a text is in base 16. */
  function HexValue(s: string): nat {
    if s == "" then 0 else 16 * HexValue(s[..|s| - 1]) + DigitValue(s[|s| - 1])
  }

  lemma DigitBack(d: nat)
    requires d < 16
    ensures DigitValue(HexDigit(d)) == d
  {
  }

  lemma {:induction false} HexBack(n: nat)
    ensures HexValue(Hex(n)) == n
  {
    if n < 16 {
      DigitBack(n);
      assert [HexDigit(n)][..0] == "";
    } else {
      HexBack(n / 16);
      DigitBack(n % 16);
      var s := Hex(n);
      assert s[..|s| - 1] == Hex(n / 16);
    }
  }

  lemma HexInjective(a: nat, b: nat)
    requires Hex(a) == Hex(b)
    ensures a == b
  {
    HexBack(a);
    HexBack(b);
  }

  /** The id is that of plan number `k`, or of an image plan made for it. */
  ghost predicate Rooted(id: PlanID, k: nat) {
    id == Hex(k) || Hex(k) + "/" <= id
  }

  lemma RootUnique(id: PlanID, j: nat, k: nat)
    requires Rooted(id, j) && Rooted(id, k)
    ensures j == k
  {
    HexNoSlash(j);
    HexNoSlash(k);
    var a, b := |Hex(j)|, |Hex(k)|;
    assert Hex(j) == id[..a] && Hex(k) == id[..b];
    assert (a < |id| ==> id[a] == '/') && (b < |id| ==> id[b] == '/');
    HexInjective(j, k);
  }

  ghost predicate DistinctIds(ps: seq<Plan>) {
    forall i, j :: 0 <= i < j < |ps| ==> ps[i].id != ps[j].id
  }

  ghost predicate NumberedIn(p: Plan, lo: nat, hi: nat) {
    exists k :: lo < k <= hi && Rooted(p.id, k)
  }

  /** The plans have distinct ids, all rooted at numbers handed out between lo and hi. */
  ghost predicate Numbered(ps: seq<Plan>, lo: nat, hi: nat) {
    lo <= hi && DistinctIds(ps) && forall p :: p in ps ==> NumberedIn(p, lo, hi)
  }

  lemma DistinctIdsConcat(a: seq<Plan>, b: seq<Plan>)
    requires DistinctIds(a) && DistinctIds(b)
    requires forall p, q :: p in a && q in b ==> p.id != q.id
    ensures DistinctIds(a + b)
  {
    forall i, j | 0 <= i < j < |a + b| ensures (a + b)[i].id != (a + b)[j].id {
      if i < |a| <= j { assert a[i] in a && b[j - |a|] in b; }
    }
  }

  lemma NumberedConcat(a: seq<Plan>, b: seq<Plan>, lo: nat, mid: nat, hi: nat)
    requires Numbered(a, lo, mid) && Numbered(b, mid, hi)
    ensures Numbered(a + b, lo, hi)
  {
    forall p, q | p in a && q in b ensures p.id != q.id {
      var j :| lo < j <= mid && Rooted(p.id, j);
      var k :| mid < k <= hi && Rooted(q.id, k);
      if p.id == q.id { RootUnique(p.id, j, k); }
    }
    DistinctIdsConcat(a, b);
    forall p | p in a + b ensures NumberedIn(p, lo, hi) {
      if p in a {
        var j :| lo < j <= mid && Rooted(p.id, j);
      } else {
        var k :| mid < k <= hi && Rooted(p.id, k);
      }
    }
  }

  lemma NumberedWrap(body: Body, lo: nat, hi: nat)
    requires Numbered(AllIn(body), lo, hi)
    ensures Numbered(All(Plan(Hex(hi + 1), body)), lo, hi + 1)
  {
    var top := Plan(Hex(hi + 1), body);
    assert Rooted(top.id, hi + 1);
    assert Numbered([top], hi, hi + 1);
    NumberedSwap([top], AllIn(body), lo, hi, hi + 1);
  }

  lemma NumberedSwap(b: seq<Plan>, a: seq<Plan>, lo: nat, mid: nat, hi: nat)
    requires Numbered(a, lo, mid) && Numbered(b, mid, hi)
    ensures Numbered(b + a, lo, hi)
  {
    NumberedConcat(a, b, lo, mid, hi);
    forall p, q | p in b && q in a ensures p.id != q.id {
      var j :| mid < j <= hi && Rooted(p.id, j);
      var k :| lo < k <= mid && Rooted(q.id, k);
      if p.id == q.id { RootUnique(p.id, j, k); }
    }
    DistinctIdsConcat(b, a);
    forall p | p in b + a ensures NumberedIn(p, lo, hi) {
      assert p in a + b;
    }
  }

  // ---- ids of image plans ----

  ghost predicate Below(ps: seq<Plan>, id: PlanID) {
    forall p :: p in ps ==> id + "/" <= p.id
  }

  lemma ImageBranch(p: Plan, image: TypeImage, id: PlanID, suffix: string)
    requires p.id == id + suffix && "/" <= suffix && All(p) == [p] + AllInImage(image)
    requires Below(AllInImage(image), p.id) && DistinctIds(AllInImage(image))
    ensures Below(All(p), id) && DistinctIds(All(p))
    ensures forall q :: q in All(p) ==> id + suffix <= q.id
  {
    assert DistinctIds([p]);
    DistinctIdsConcat([p], AllInImage(image));
    forall q | q in All(p) ensures id + suffix <= q.id && id + "/" <= q.id {
      if q != p { assert p.id + "/" <= q.id; }
    }
  }

  /** The plans of an image are named below the plan they are for, all differently. */
  lemma {:induction false} ImageIds(types: Types, id: PlanID, name: string, tags: Tags, skip: bool)
    ensures var ps := AllInImage(ImageForType(types, id, name, tags, skip)); Below(ps, id) && DistinctIds(ps)
    decreases |types|
  {
    WithoutShrinks(types, name);
    if Lookup(types, name).Some? {
      LookupName(types, name);
      var t := Lookup(types, name).value;
      var tags' := if |t.tags| == 0 then tags else t.tags;
      ImageIds(Without(types, name), id + "/image-check", t.parent, tags', skip);
      ImageIds(Without(types, name), id + "/image-get", t.parent, tags', skip);
      var image := ImageForType(types, id, name, tags, skip);
      var check, get := image.check.value, image.get.value;
      ImageBranch(check, check.body.check.image, id, "/image-check");
      ImageBranch(get, get.body.get.image, id, "/image-get");
      BranchesDiffer(id, All(check), All(get));
    }
  }

  lemma BranchesDiffer(id: PlanID, a: seq<Plan>, b: seq<Plan>)
    requires DistinctIds(a) && (forall p :: p in a ==> id + "/image-check" <= p.id)
    requires DistinctIds(b) && (forall q :: q in b ==> id + "/image-get" <= q.id)
    ensures DistinctIds(a + b)
  {
    forall p, q | p in a && q in b ensures p.id != q.id {
      assert p.id[|id| + 7] == (id + "/image-check")[|id| + 7] == 'c';
      assert q.id[|id| + 7] == (id + "/image-get")[|id| + 7] == 'g';
    }
    DistinctIdsConcat(a, b);
  }

  lemma ImageNumbered(types: Types, n: nat, name: string, tags: Tags, skip: bool, p: Plan)
    requires p.id == Hex(n + 1) && All(p) == [p] + AllInImage(ImageForType(types, p.id, name, tags, skip))
    ensures Numbered(All(p), n, n + 1)
  {
    var ps := AllInImage(ImageForType(types, p.id, name, tags, skip));
    ImageIds(types, p.id, name, tags, skip);
    assert DistinctIds([p]);
    forall q | q in ps ensures Rooted(q.id, n + 1) && p.id != q.id { }
    DistinctIdsConcat([p], ps);
    forall q | q in All(p) ensures NumberedIn(q, n, n + 1) {
      assert Rooted(q.id, n + 1);
    }
  }

  lemma LeafIds(env: Env, l: TypedLeaf, tags: Tags, n: nat)
    ensures var o := TranslateLeaf(env, l, tags, n); o.Built? ==> Numbered(All(o.plan), n, o.next)
  {
    var o := TranslateLeaf(env, l, tags, n);
    if o.Built? {
      match l
      case Get(g) =>
        var r := FindResource(env.resources, g.ResourceName()).value;
        ImageNumbered(env.types, n, r.kind, Effective(g.tags, tags), false, o.plan);
      case Put(p) => PutIds(env, p, Effective(p.tags, tags), n);
      case _ => NumberedWrap(o.plan.body, n, n);
    }
  }

  lemma PutIds(env: Env, p: PutStep, tags: Tags, n: nat)
    ensures var o := TranslatePut(env, p, tags, n); o.Built? ==> Numbered(All(o.plan), n, o.next)
  {
    var o := TranslatePut(env, p, tags, n);
    if o.Built? {
      var r := FindResource(env.resources, p.ResourceName()).value;
      var put := if p.noGet then o.plan else o.plan.body.main;
      ImageNumbered(env.types, n, r.kind, tags, env.manuallyTriggered, put);
      if !p.noGet {
        var get := o.plan.body.next;
        ImageNumbered(env.types, n + 1, r.kind, tags, env.manuallyTriggered, get);
        NumberedConcat(All(put), All(get), n, n + 1, n + 2);
        NumberedWrap(o.plan.body, n, n + 2);
      }
    }
  }

  lemma {:induction false} AllOfSnoc(ps: seq<Plan>, p: Plan)
    ensures AllOf(ps + [p]) == AllOf(ps) + All(p)
  {
    if ps == [] {
      assert AllOf([p]) == All(p) + AllOf([p][1..]);
      assert ps + [p] == [p];
    } else {
      assert (ps + [p])[1..] == ps[1..] + [p];
      AllOfSnoc(ps[1..], p);
    }
  }

  /** Every plan tree has pairwise distinct ids: its steps, the attempts of its retries,
      its across templates and all the image plans inside. */
  lemma {:induction false} PlanIds(env: Env, c: StepConfig, tags: Tags, n: nat)
    ensures var o := Translate(env, c, tags, n); o.Built? ==> Numbered(All(o.plan), n, o.next)
    decreases c, 1
  {
    match c
    case Leaf(l) => LeafIds(env, l, tags, n);
    case Retry(_, _) => PlanIdsRetry(env, c, tags, n);
    case Hook(_, _, _) => PlanIdsHook(env, c, tags, n);
    case Do(_, _) => PlanIdsMany(env, c, tags, n);
    case InParallel(_, _, _, _) => PlanIdsMany(env, c, tags, n);
    case Try(_) => PlanIdsOne(env, c, tags, n);
    case Across(_, _, _) => PlanIdsOne(env, c, tags, n);
    case Timeout(_, _) => PlanIdsOne(env, c, tags, n);
  }

  lemma {:induction false} PlanIdsOne(env: Env, c: StepConfig, tags: Tags, n: nat)
    requires c.Try? || c.Across? || c.Timeout?
    ensures var o := Translate(env, c, tags, n); o.Built? ==> Numbered(All(o.plan), n, o.next)
    decreases c, 0
  {
    if c.Try? { PlanIdsStep(env, c.step, tags, n); } else { PlanIds(env, c.inner, tags, n); }
    var o := Translate(env, c, tags, n);
    if o.Built? { NumberedWrap(o.plan.body, n, o.next - 1); }
  }

  lemma {:induction false} PlanIdsMany(env: Env, c: StepConfig, tags: Tags, n: nat)
    requires c.Do? || c.InParallel?
    ensures var o := Translate(env, c, tags, n); o.Built? ==> Numbered(All(o.plan), n, o.next)
    decreases c, 0
  {
    PlanIdsAll(env, if c.Do? then c.steps else c.branches, Effective(c.tags, tags), n);
    var o := Translate(env, c, tags, n);
    if o.Built? { NumberedWrap(o.plan.body, n, o.next - 1); }
  }

  lemma {:induction false} PlanIdsRetry(env: Env, c: StepConfig, tags: Tags, n: nat)
    requires c.Retry?
    ensures var o := Translate(env, c, tags, n); o.Built? ==> Numbered(All(o.plan), n, o.next)
    decreases c, 0
  {
    if c.attempts >= 0 { PlanIdsCopies(env, c.inner, tags, n, c.attempts); }
    var o := Translate(env, c, tags, n);
    if o.Built? { NumberedWrap(o.plan.body, n, o.next - 1); }
  }

  lemma HookIds(kind: HookKind, main: Plan, next: Plan, lo: nat, mid: nat, hi: nat)
    requires Numbered(All(main), lo, mid) && Numbered(All(next), mid, hi)
    ensures Numbered(All(Plan(Hex(hi + 1), HookPlan(kind, main, next))), lo, hi + 1)
  {
    NumberedConcat(All(main), All(next), lo, mid, hi);
    NumberedWrap(HookPlan(kind, main, next), lo, hi);
  }

  lemma {:induction false} PlanIdsHook(env: Env, c: StepConfig, tags: Tags, n: nat)
    requires c.Hook?
    ensures var o := Translate(env, c, tags, n); o.Built? ==> Numbered(All(o.plan), n, o.next)
    decreases c, 0
  {
    PlanIds(env, c.inner, tags, n);
    var first := Translate(env, c.inner, tags, n);
    if first.Built? {
      PlanIdsStep(env, c.hook, tags, first.next);
      var second := TranslateStep(env, c.hook, tags, first.next);
      if second.Built? { HookIds(c.kind, first.plan, second.plan, n, first.next, second.next); }
    }
  }

  lemma {:induction false} PlanIdsStep(env: Env, s: Step<TypedLeaf>, tags: Tags, n: nat)
    ensures var o := TranslateStep(env, s, tags, n); o.Built? ==> Numbered(All(o.plan), n, o.next)
    decreases s
  {
    PlanIds(env, s.config, tags, n);
  }

  lemma {:induction false} PlanIdsAll(env: Env, steps: seq<Step<TypedLeaf>>, tags: Tags, n: nat)
    ensures var o := TranslateAll(env, steps, tags, n); o.BuiltAll? ==> Numbered(AllOf(o.plans), n, o.next)
    decreases steps
  {
    var o := TranslateAll(env, steps, tags, n);
    if steps != [] && o.BuiltAll? {
      var front := TranslateAll(env, steps[..|steps| - 1], tags, n);
      PlanIdsAll(env, steps[..|steps| - 1], tags, n);
      PlanIdsStep(env, steps[|steps| - 1], tags, front.next);
      var p := TranslateStep(env, steps[|steps| - 1], tags, front.next).plan;
      AllOfSnoc(front.plans, p);
      NumberedConcat(AllOf(front.plans), All(p), n, front.next, o.next);
    }
  }

  lemma {:induction false} PlanIdsCopies(env: Env, c: StepConfig, tags: Tags, n: nat, copies: nat)
    ensures var o := TranslateCopies(env, c, tags, n, copies); o.BuiltAll? ==> Numbered(AllOf(o.plans), n, o.next)
    decreases c, 2, copies
  {
    var o := TranslateCopies(env, c, tags, n, copies);
    if copies > 0 && o.BuiltAll? {
      var front := TranslateCopies(env, c, tags, n, copies - 1);
      PlanIdsCopies(env, c, tags, n, copies - 1);
      PlanIds(env, c, tags, front.next);
      var p := Translate(env, c, tags, front.next).plan;
      AllOfSnoc(front.plans, p);
      NumberedConcat(AllOf(front.plans), All(p), n, front.next, o.next);
    }
  }

  // ---- versions ----

  /** Every get has either a version or the id of the plan to take it from, and that
      plan is `from`: the put it follows on success, or the check beside it. */
  ghost predicate Versioned(p: Plan, from: Option<PlanID>) {
    match p.body
    case GetPlan(g) =>
      && (g.version.Some? <==> g.versionFrom.None?)
      && (g.versionFrom.Some? ==> g.versionFrom == from)
      && VersionedImage(g.image)
    case PutPlan(put) => VersionedImage(put.image)
    case CheckPlan(check) => VersionedImage(check.image)
    case TaskPlan(_, _, _) => true
    case RunPlan(_) => true
    case SetPipelinePlan(_) => true
    case LoadVarPlan(_) => true
    case DoPlan(steps) => VersionedAll(steps)
    case InParallelPlan(steps, _, _) => VersionedAll(steps)
    case AcrossPlan(_, template, _) => Versioned(template, None)
    case HookPlan(kind, main, next) =>
      && Versioned(main, None)
      && Versioned(next, if kind.OnSuccess? && main.body.PutPlan? then Some(main.id) else None)
    case TryPlan(main) => Versioned(main, None)
    case TimeoutPlan(main, _) => Versioned(main, None)
    case RetryPlan(steps) => VersionedAll(steps)
  }

  ghost predicate VersionedAll(ps: seq<Plan>) {
    forall p :: p in ps ==> Versioned(p, None)
  }

  ghost predicate VersionedImage(i: TypeImage) {
    && (match i.check case None => true case Some(check) => Versioned(check, None))
    && (match i.get
        case None => true
        case Some(get) => Versioned(get, match i.check case None => None case Some(check) => Some(check.id)))
  }

  lemma {:induction false} ImageVersions(types: Types, id: PlanID, name: string, tags: Tags, skip: bool)
    ensures VersionedImage(ImageForType(types, id, name, tags, skip))
    decreases |types|
  {
    WithoutShrinks(types, name);
    if Lookup(types, name).Some? {
      LookupName(types, name);
      var t := Lookup(types, name).value;
      var tags' := if |t.tags| == 0 then tags else t.tags;
      ImageVersions(Without(types, name), id + "/image-check", t.parent, tags', skip);
      ImageVersions(Without(types, name), id + "/image-get", t.parent, tags', skip);
    }
  }

  lemma LeafVersions(env: Env, l: TypedLeaf, tags: Tags, n: nat)
    ensures var o := TranslateLeaf(env, l, tags, n); o.Built? ==> Versioned(o.plan, None)
  {
    match l
    case Get(g) =>
      var r := FindResource(env.resources, g.ResourceName());
      if r.Some? { ImageVersions(env.types, Hex(n + 1), r.value.kind, Effective(g.tags, tags), false); }
    case Put(p) =>
      var r := FindResource(env.resources, p.ResourceName());
      if r.Some? {
        ImageVersions(env.types, Hex(n + 1), r.value.kind, Effective(p.tags, tags), env.manuallyTriggered);
        ImageVersions(env.types, Hex(n + 2), r.value.kind, Effective(p.tags, tags), env.manuallyTriggered);
      }
    case _ =>
  }

  /** A plan that may stand anywhere may also follow a put. */
  lemma VersionedAnywhere(p: Plan, from: Option<PlanID>)
    requires Versioned(p, None)
    ensures Versioned(p, from)
  {
  }

  lemma {:induction false} PlanVersions(env: Env, c: StepConfig, tags: Tags, n: nat)
    ensures var o := Translate(env, c, tags, n); o.Built? ==> Versioned(o.plan, None)
    decreases c, 0
  {
    match c
    case Leaf(l) => LeafVersions(env, l, tags, n);
    case Try(s) => PlanVersionsStep(env, s, tags, n);
    case Do(steps, own) => PlanVersionsAll(env, steps, Effective(own, tags), n);
    case InParallel(steps, _, _, own) => PlanVersionsAll(env, steps, Effective(own, tags), n);
    case Across(inner, _, _) => PlanVersions(env, inner, tags, n);
    case Retry(inner, attempts) => if attempts >= 0 { PlanVersionsCopies(env, inner, tags, n, attempts); }
    case Timeout(inner, _) => PlanVersions(env, inner, tags, n);
    case Hook(kind, inner, hook) =>
      PlanVersions(env, inner, tags, n);
      var first := Translate(env, inner, tags, n);
      if first.Built? {
        PlanVersionsStep(env, hook, tags, first.next);
        var next := TranslateStep(env, hook, tags, first.next);
        if next.Built? { VersionedAnywhere(next.plan, Some(first.plan.id)); }
      }
  }

  lemma {:induction false} PlanVersionsStep(env: Env, s: Step<TypedLeaf>, tags: Tags, n: nat)
    ensures var o := TranslateStep(env, s, tags, n); o.Built? ==> Versioned(o.plan, None)
    decreases s
  {
    PlanVersions(env, s.config, tags, n);
  }

  lemma {:induction false} PlanVersionsAll(env: Env, steps: seq<Step<TypedLeaf>>, tags: Tags, n: nat)
    ensures var o := TranslateAll(env, steps, tags, n); o.BuiltAll? ==> VersionedAll(o.plans)
    decreases steps
  {
    if steps != [] {
      var front := TranslateAll(env, steps[..|steps| - 1], tags, n);
      PlanVersionsAll(env, steps[..|steps| - 1], tags, n);
      PlanVersionsStep(env, steps[|steps| - 1], tags, front.next);
    }
  }

  lemma {:induction false} PlanVersionsCopies(env: Env, c: StepConfig, tags: Tags, n: nat, copies: nat)
    ensures var o := TranslateCopies(env, c, tags, n, copies); o.BuiltAll? ==> VersionedAll(o.plans)
    decreases c, copies
  {
    if copies > 0 && TranslateCopies(env, c, tags, n, copies).BuiltAll? {
      var front, _ := LastCopy(env, c, tags, n, copies);
      PlanVersionsCopies(env, c, tags, n, copies - 1);
      PlanVersions(env, c, tags, front.next);
    }
  }

  // ---- copies and tags ----

  datatype UseKind = UseTask | UseGet | UsePut | UseDependentGet | UseRun | UseSetPipeline | UseLoadVar

  /** A leaf step as it runs: what it is, its name and the tags it runs with. */
  datatype Use = Use(kind: UseKind, name: string, tags: Tags)

  function Hit(u: Use, v: Use): nat { if u == v then 1 else 0 }

  /** How often `u` runs in a plan; an across template counts once. */
  function Runs(p: Plan, u: Use): nat {
    match p.body
    case GetPlan(g) => Hit(u, Use(if g.versionFrom.Some? then UseDependentGet else UseGet, g.name, g.tags))
    case PutPlan(put) => Hit(u, Use(UsePut, put.name, put.tags))
    case CheckPlan(_) => 0
    case TaskPlan(task, _, _) => Hit(u, Use(UseTask, task.name, task.tags))
    case RunPlan(run) => Hit(u, Use(UseRun, run.message, run.tags))
    case SetPipelinePlan(s) => Hit(u, Use(UseSetPipeline, s.name, []))
    case LoadVarPlan(v) => Hit(u, Use(UseLoadVar, v.name, []))
    case DoPlan(steps) => RunsAll(steps, u)
    case InParallelPlan(steps, _, _) => RunsAll(steps, u)
    case AcrossPlan(_, template, _) => Runs(template, u)
    case HookPlan(_, main, next) => Runs(main, u) + Runs(next, u)
    case TryPlan(main) => Runs(main, u)
    case TimeoutPlan(main, _) => Runs(main, u)
    case RetryPlan(steps) => RunsAll(steps, u)
  }

  function RunsAll(ps: seq<Plan>, u: Use): nat {
    if ps == [] then 0 else RunsAll(ps[..|ps| - 1], u) + Runs(ps[|ps| - 1], u)
  }

  /** How often a leaf step asks for `u`, given the tags it inherits. */
  function Asks(l: TypedLeaf, inherited: Tags, u: Use): nat {
    match l
    case Task(t) => Hit(u, Use(UseTask, t.name, Effective(t.tags, inherited)))
    case Get(g) => Hit(u, Use(UseGet, g.name, Effective(g.tags, inherited)))
    case Put(p) =>
      Hit(u, Use(UsePut, p.name, Effective(p.tags, inherited)))
      + (if p.noGet then 0 else Hit(u, Use(UseDependentGet, p.name, Effective(p.tags, inherited))))
    case Run(r) => Hit(u, Use(UseRun, r.message, Effective(r.tags, inherited)))
    case SetPipeline(s) => Hit(u, Use(UseSetPipeline, s.name, []))
    case LoadVar(v) => Hit(u, Use(UseLoadVar, v.name, []))
  }

  /** What the step tree asks for: each leaf with the tags of the nearest tagged do or
      in_parallel around it, `factor` times, the product of the attempts around it. */
  function Wants(c: StepConfig, tags: Tags, factor: nat, u: Use): nat
    decreases c
  {
    match c
    case Leaf(l) => factor * Asks(l, tags, u)
    case Try(s) => WantsStep(s, tags, factor, u)
    case Do(steps, own) => WantsAll(steps, Effective(own, tags), factor, u)
    case InParallel(steps, _, _, own) => WantsAll(steps, Effective(own, tags), factor, u)
    case Across(inner, _, _) => Wants(inner, tags, factor, u)
    case Retry(inner, attempts) => Wants(inner, tags, if attempts < 0 then 0 else factor * attempts, u)
    case Timeout(inner, _) => Wants(inner, tags, factor, u)
    case Hook(_, inner, hook) => Wants(inner, tags, factor, u) + WantsStep(hook, tags, factor, u)
  }

  function WantsStep(s: Step<TypedLeaf>, tags: Tags, factor: nat, u: Use): nat
    decreases s
  {
    Wants(s.config, tags, factor, u)
  }

  function WantsAll(steps: seq<Step<TypedLeaf>>, tags: Tags, factor: nat, u: Use): nat
    decreases steps
  {
    if steps == [] then 0
    else WantsAll(steps[..|steps| - 1], tags, factor, u) + WantsStep(steps[|steps| - 1], tags, factor, u)
  }

  lemma Distributes(f: nat, a: nat, b: nat)
    ensures f * (a + b) == f * a + f * b
  {
  }

  lemma Associates(f: nat, a: nat, b: nat)
    ensures (f * a) * b == f * (a * b)
  {
  }

  lemma {:induction false} WantsScale(c: StepConfig, tags: Tags, factor: nat, u: Use)
    ensures Wants(c, tags, factor, u) == factor * Wants(c, tags, 1, u)
    decreases c, 1
  {
    match c
    case Leaf(l) => assert 1 * Asks(l, tags, u) == Asks(l, tags, u);
    case Try(s) => WantsScaleStep(s, tags, factor, u);
    case Do(steps, own) => WantsScaleAll(steps, Effective(own, tags), factor, u);
    case InParallel(steps, _, _, own) => WantsScaleAll(steps, Effective(own, tags), factor, u);
    case Across(inner, _, _) => WantsScale(inner, tags, factor, u);
    case Retry(_, _) => WantsScaleRetry(c, tags, factor, u);
    case Timeout(inner, _) => WantsScale(inner, tags, factor, u);
    case Hook(_, inner, hook) =>
      WantsScale(inner, tags, factor, u);
      WantsScaleStep(hook, tags, factor, u);
      Distributes(factor, Wants(inner, tags, 1, u), WantsStep(hook, tags, 1, u));
  }

  lemma {:induction false} WantsScaleRetry(c: StepConfig, tags: Tags, factor: nat, u: Use)
    requires c.Retry?
    ensures Wants(c, tags, factor, u) == factor * Wants(c, tags, 1, u)
    decreases c, 0
  {
    var a, w := if c.attempts < 0 then 0 else c.attempts, Wants(c.inner, tags, 1, u);
    WantsScale(c.inner, tags, factor * a, u);
    WantsScale(c.inner, tags, a, u);
    Associates(factor, a, w);
    assert factor * a == if c.attempts < 0 then 0 else factor * c.attempts;
    assert 1 * a == a;
    assert Wants(c, tags, factor, u) == Wants(c.inner, tags, factor * a, u);
    assert Wants(c, tags, 1, u) == Wants(c.inner, tags, a, u);
  }

  lemma {:induction false} WantsScaleStep(s: Step<TypedLeaf>, tags: Tags, factor: nat, u: Use)
    ensures WantsStep(s, tags, factor, u) == factor * WantsStep(s, tags, 1, u)
    decreases s
  {
    WantsScale(s.config, tags, factor, u);
  }

  lemma {:induction false} WantsScaleAll(steps: seq<Step<TypedLeaf>>, tags: Tags, factor: nat, u: Use)
    ensures WantsAll(steps, tags, factor, u) == factor * WantsAll(steps, tags, 1, u)
    decreases steps
  {
    if steps != [] {
      var front, last := steps[..|steps| - 1], steps[|steps| - 1];
      WantsScaleAll(front, tags, factor, u);
      WantsScaleStep(last, tags, factor, u);
      Distributes(factor, WantsAll(front, tags, 1, u), WantsStep(last, tags, 1, u));
    }
  }

  lemma RunsSnoc(ps: seq<Plan>, p: Plan, u: Use)
    ensures RunsAll(ps + [p], u) == RunsAll(ps, u) + Runs(p, u)
  {
    assert (ps + [p])[..|ps|] == ps;
  }

  lemma LeafRuns(env: Env, l: TypedLeaf, tags: Tags, n: nat, u: Use)
    ensures var o := TranslateLeaf(env, l, tags, n); o.Built? ==> Runs(o.plan, u) == Asks(l, tags, u)
  {
  }

  /** The plan runs every leaf exactly as often, and with exactly the tags, that the
      step tree asks for. */
  lemma {:induction false} PlanRuns(env: Env, c: StepConfig, tags: Tags, n: nat, u: Use)
    ensures var o := Translate(env, c, tags, n); o.Built? ==> Runs(o.plan, u) == Wants(c, tags, 1, u)
    decreases c, 1
  {
    match c
    case Leaf(l) => LeafRuns(env, l, tags, n, u);
    case Retry(_, _) => PlanRunsRetry(env, c, tags, n, u);
    case Hook(_, _, _) => PlanRunsHook(env, c, tags, n, u);
    case Do(_, _) => PlanRunsMany(env, c, tags, n, u);
    case InParallel(_, _, _, _) => PlanRunsMany(env, c, tags, n, u);
    case Try(s) => PlanRunsStep(env, s, tags, n, u);
    case Across(inner, _, _) => PlanRuns(env, inner, tags, n, u);
    case Timeout(inner, _) => PlanRuns(env, inner, tags, n, u);
  }

  lemma {:induction false} PlanRunsMany(env: Env, c: StepConfig, tags: Tags, n: nat, u: Use)
    requires c.Do? || c.InParallel?
    ensures var o := Translate(env, c, tags, n); o.Built? ==> Runs(o.plan, u) == Wants(c, tags, 1, u)
    decreases c, 0
  {
    if c.Do? {
      PlanRunsAll(env, c.steps, Effective(c.tags, tags), n, u);
    } else {
      PlanRunsAll(env, c.branches, Effective(c.tags, tags), n, u);
    }
  }

  lemma {:induction false} PlanRunsHook(env: Env, c: StepConfig, tags: Tags, n: nat, u: Use)
    requires c.Hook?
    ensures var o := Translate(env, c, tags, n); o.Built? ==> Runs(o.plan, u) == Wants(c, tags, 1, u)
    decreases c, 0
  {
    PlanRuns(env, c.inner, tags, n, u);
    PlanRunsStep(env, c.hook, tags, Translate(env, c.inner, tags, n).next, u);
  }

  lemma {:induction false} PlanRunsRetry(env: Env, c: StepConfig, tags: Tags, n: nat, u: Use)
    requires c.Retry?
    ensures var o := Translate(env, c, tags, n); o.Built? ==> Runs(o.plan, u) == Wants(c, tags, 1, u)
    decreases c, 0
  {
    if c.attempts >= 0 {
      PlanRunsCopies(env, c.inner, tags, n, c.attempts, u);
      RetryWants(c, tags, u);
      var o := TranslateCopies(env, c.inner, tags, n, c.attempts);
      if o.BuiltAll? { RetryRuns(Translate(env, c, tags, n).plan, o.plans, u); }
    }
  }

  lemma RetryWants(c: StepConfig, tags: Tags, u: Use)
    requires c.Retry? && c.attempts >= 0
    ensures Wants(c, tags, 1, u) == Repeated(c.attempts, Wants(c.inner, tags, 1, u))
  {
    RepeatedIsProduct(c.attempts, Wants(c.inner, tags, 1, u));
    WantsScale(c.inner, tags, c.attempts, u);
    assert 1 * c.attempts == c.attempts;
  }

  lemma RetryRuns(p: Plan, attempts: seq<Plan>, u: Use)
    requires p.body == RetryPlan(attempts)
    ensures Runs(p, u) == RunsAll(attempts, u)
  {
  }

  lemma {:induction false} PlanRunsStep(env: Env, s: Step<TypedLeaf>, tags: Tags, n: nat, u: Use)
    ensures var o := TranslateStep(env, s, tags, n); o.Built? ==> Runs(o.plan, u) == WantsStep(s, tags, 1, u)
    decreases s
  {
    PlanRuns(env, s.config, tags, n, u);
  }

  lemma {:induction false} PlanRunsAll(env: Env, steps: seq<Step<TypedLeaf>>, tags: Tags, n: nat, u: Use)
    ensures var o := TranslateAll(env, steps, tags, n); o.BuiltAll? ==> RunsAll(o.plans, u) == WantsAll(steps, tags, 1, u)
    decreases steps
  {
    if steps != [] {
      var front, last := TranslateAll(env, steps[..|steps| - 1], tags, n), steps[|steps| - 1];
      PlanRunsAll(env, steps[..|steps| - 1], tags, n, u);
      PlanRunsStep(env, last, tags, front.next, u);
      var p := TranslateStep(env, last, tags, front.next);
      if front.BuiltAll? && p.Built? { RunsSnoc(front.plans, p.plan, u); }
    }
  }

  function Repeated(copies: nat, each: nat): nat {
    if copies == 0 then 0 else Repeated(copies - 1, each) + each
  }

  lemma {:induction false} RepeatedIsProduct(copies: nat, each: nat)
    ensures Repeated(copies, each) == copies * each
  {
    if copies > 0 {
      RepeatedIsProduct(copies - 1, each);
      Distributes(each, copies - 1, 1);
    }
  }

  lemma {:induction false} PlanRunsCopies(env: Env, c: StepConfig, tags: Tags, n: nat, copies: nat, u: Use)
    ensures var o := TranslateCopies(env, c, tags, n, copies);
            o.BuiltAll? ==> RunsAll(o.plans, u) == Repeated(copies, Wants(c, tags, 1, u))
    decreases c, 2, copies
  {
    if copies > 0 && TranslateCopies(env, c, tags, n, copies).BuiltAll? {
      var front, p := LastCopy(env, c, tags, n, copies);
      PlanRunsCopies(env, c, tags, n, copies - 1, u);
      PlanRuns(env, c, tags, front.next, u);
      RunsSnoc(front.plans, p, u);
    }
  }
}
