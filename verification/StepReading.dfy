/** What a step that was read holds, said of the object it was read from (atc/steps.go).

    `IsRead` goes through the layers of a step and says where in the object each of their
    values comes from, defaults included.  Reading gives a step exactly if it is one that
    `IsRead` accepts. */
module StepReading {
  import opened Wrappers
  import opened Steps
  import opened StepFields
  import opened StepJson

  type Fields = map<string, Json>

  // ---- single values; null stands for the zero value ----

  ghost predicate IsNumber(j: Json, n: int) { j == Num(n) || (j == Null && n == 0) }

  ghost predicate IsText(j: Json, s: string) { j == Str(s) || (j == Null && s == "") }

  ghost predicate IsFlag(f: Fields, name: string, b: bool) {
    if name in f then f[name] == Bool(b) || (f[name] == Null && !b) else !b
  }

  ghost predicate AreTexts(js: seq<Json>, ss: seq<string>) {
    |js| == |ss| && forall i :: 0 <= i < |js| ==> IsText(js[i], ss[i])
  }

  ghost predicate AreTags(f: Fields, tags: Tags) {
    if "tags" in f && f["tags"] != Null then f["tags"].Arr? && AreTexts(f["tags"].elems, tags) else tags == []
  }

  ghost predicate IsMaxInFlight(j: Json, m: Option<MaxInFlight>) {
    (j == Null && m.None?) || (j == Str("all") && m == Some(AllValues)) || (j.Num? && m == Some(Limit(j.n)))
  }

  ghost predicate IsAcrossVar(j: Json, v: AcrossVar) {
    if j == Null then v == AcrossVar("", Null, None)
    else
      && j.Obj? && (forall k :: k in j.fields ==> k == "var" || k == "values" || k == "max_in_flight")
      && (if "var" in j.fields then IsText(j.fields["var"], v.name) else v.name == "")
      && v.values == (if "values" in j.fields then j.fields["values"] else Null)
      && (if "max_in_flight" in j.fields then IsMaxInFlight(j.fields["max_in_flight"], v.maxInFlight) else v.maxInFlight.None?)
  }

  ghost predicate AreAcrossVars(js: seq<Json>, vs: seq<AcrossVar>) {
    |js| == |vs| && forall i :: 0 <= i < |js| ==> IsAcrossVar(js[i], vs[i])
  }

  /** The fields of container limits, each read through a floating-point number, but a memory
      limit with a unit by its unit; what is neither is taken for no memory. */
  ghost predicate IsLimits(c: FieldCodec, j: Json, l: Option<Limits>) {
    if j == Null then l.None?
    else
      && j.Obj? && l.Some?
      && (if "cpu" in j.fields && j.fields["cpu"] != Null
          then var cpu := j.fields["cpu"]; (cpu.Num? || cpu.Frac?) && l.value.cpu == Some(c.number(cpu))
          else l.value.cpu.None?)
      && (if "memory" in j.fields && j.fields["memory"] != Null
          then var memory := j.fields["memory"];
               if memory.Str? then c.memory(memory.s).Some? && l.value.memory == c.memory(memory.s)
               else l.value.memory == Some(if memory.Num? || memory.Frac? then c.number(memory) else 0)
          else l.value.memory.None?)
  }

  ghost predicate IsConfigField(k: string) {
    k == "platform" || k == "rootfs_uri" || k == "image_resource" || k == "params" || k == "run" || k == "inputs"
    || k == "outputs" || k == "caches"
  }

  ghost predicate IsConfig(c: FieldCodec, j: Json, v: Value) {
    if j == Null then v == Absent
    else
      && j.Obj? && v.ConfigOf?
      && (if "container_limits" in j.fields then IsLimits(c, j.fields["container_limits"], v.configLimits) else v.configLimits.None?)
      && v.unknown == (map k | k in j.fields && !IsConfigField(k) && k != "container_limits" :: j.fields[k])
      && c.decode(ConfigField, Obj(map k | k in j.fields && IsConfigField(k) :: j.fields[k])) == Some(v.token)
  }

  /** A field of a leaf step. */
  ghost predicate IsValue(c: FieldCodec, s: Slot, j: Json, v: Value) {
    match s
    case PlainField(_, _) => v.Plain? && c.decode(s, j) == Some(v.token)
    case LimitsField => if v.Absent? then IsLimits(c, j, None) else v.LimitsOf? && IsLimits(c, j, Some(v.limits))
    case ConfigField => IsConfig(c, j, v)
  }

  ghost predicate IsLeafRead(c: Codec, core: Core, f: Fields) {
    && IsLeaf(core.kind) && Key(core.kind) in f && core.fields.Keys == Known(c, core.kind)
    && forall name :: name in core.fields ==> IsField(c, core.kind, name, f, core.fields[name])
  }

  ghost predicate IsField(c: Codec, k: Kind, name: string, f: Fields, v: Value) {
    var slot := SlotOf(k, name);
    if name in f then IsValue(c.values, slot, f[name], v)
    else v == if slot.PlainField? then Plain(c.values.zero(slot)) else Absent
  }

  // ---- layers ----

  /** The values of one layer, in terms of the fields they are read from. */
  ghost predicate Own(c: Codec, cfg: JsonConfig, f: Fields)
    decreases cfg, 0
  {
    match cfg
    case Leaf(core) => IsLeafRead(c, core, f)
    case Try(s) => "try" in f && IsRead(c, s, f["try"])
    case Do(steps, tags) =>
      && "do" in f && AreTags(f, tags)
      && (if f["do"] == Null then steps == [] else f["do"].Arr? && AreRead(c, steps, f["do"].elems))
    case InParallel(steps, limit, failFast, tags) =>
      && "in_parallel" in f && AreTags(f, tags)
      && (match f["in_parallel"]
          case Arr(js) => AreRead(c, steps, js) && limit == 0 && !failFast
          case Obj(g) =>
            && (if "steps" in g && g["steps"] != Null then g["steps"].Arr? && AreRead(c, steps, g["steps"].elems) else steps == [])
            && (if "limit" in g then IsNumber(g["limit"], limit) else limit == 0)
            && IsFlag(g, "fail_fast", failFast)
          case _ => false)
    case Across(_, vars, failFast) =>
      && "across" in f && IsFlag(f, "fail_fast", failFast)
      && (if f["across"] == Null then vars == [] else f["across"].Arr? && AreAcrossVars(f["across"].elems, vars))
    case Retry(_, attempts) => "attempts" in f && IsNumber(f["attempts"], attempts)
    case Timeout(_, duration) => "timeout" in f && IsText(f["timeout"], duration)
    case Hook(OnSuccess, _, s) => "on_success" in f && IsRead(c, s, f["on_success"])
    case Hook(OnFailure, _, s) => "on_failure" in f && IsRead(c, s, f["on_failure"])
    case Hook(OnAbort, _, s) => "on_abort" in f && IsRead(c, s, f["on_abort"])
    case Hook(OnError, _, s) => "on_error" in f && IsRead(c, s, f["on_error"])
    case Hook(Ensure, _, s) => "ensure" in f && IsRead(c, s, f["ensure"])
  }

  /** The values of all layers. */
  ghost predicate Holds(c: Codec, cfg: JsonConfig, f: Fields)
    decreases cfg, 1
  {
    Own(c, cfg, f) && (Wraps(cfg) ==> Holds(c, cfg.inner, f))
  }

  /** `s` is what the value says: modifiers in the order of StepPrecedence around one core
      step, which holds no key left of any type tried up to that; every layer with its
      values; and as unknown fields all that belong to no layer. */
  ghost predicate IsRead(c: Codec, s: JsonStep, j: Json)
    decreases s
  {
    && j.Obj? && Chained(s.config, 0) && Holds(c, s.config, j.fields)
    && s.unknown == j.fields - ChainKeys(c, s.config) && KeysGone(c, s.unknown, 0, CoreRank(s.config))
  }

  /** Each step is what the value in its place says. */
  ghost predicate AreRead(c: Codec, steps: seq<JsonStep>, js: seq<Json>)
    decreases steps
  {
    if steps == [] || js == [] then steps == [] && js == []
    else AreRead(c, steps[..|steps| - 1], js[..|js| - 1]) && IsRead(c, steps[|steps| - 1], js[|js| - 1])
  }

  lemma {:induction false} AreReadEach(c: Codec, steps: seq<JsonStep>, js: seq<Json>, i: nat)
    requires AreRead(c, steps, js) && i < |steps|
    ensures |steps| == |js| && IsRead(c, steps[i], js[i])
    decreases |steps|
  {
    if i < |steps| - 1 { AreReadEach(c, steps[..|steps| - 1], js[..|js| - 1], i); }
    else if |steps| > 1 { AreReadEach(c, steps[..|steps| - 1], js[..|js| - 1], 0); }
  }

  // ---- decoding is reading ----

  lemma {:induction false} TextsDecode(js: seq<Json>, ss: seq<string>)
    ensures DecodeStrings(js) == Some(ss) <==> AreTexts(js, ss)
    decreases |js|
  {
    if js != [] && ss != [] {
      var n, m := |js| - 1, |ss| - 1;
      TextsDecode(js[..n], ss[..m]);
      assert ss == ss[..m] + [ss[m]];
      if AreTexts(js, ss) {
        assert AreTexts(js[..n], ss[..m]);
      }
      if DecodeStrings(js) == Some(ss) {
        var front := DecodeStrings(js[..n]).value;
        assert front == ss[..m];
        forall i | 0 <= i < |js| ensures IsText(js[i], ss[i]) {
          if i < n { assert IsText(js[..n][i], ss[..m][i]); }
        }
      }
    } else if js != [] && DecodeStrings(js).Some? {
      assert |DecodeStrings(js).value| > 0;
    }
  }

  lemma TagsDecode(f: Fields, tags: Tags)
    ensures DecodeTags(f) == Some(tags) <==> AreTags(f, tags)
  {
    if "tags" in f && f["tags"].Arr? { TextsDecode(f["tags"].elems, tags); }
  }

  lemma AcrossVarDecodes(j: Json, v: AcrossVar)
    ensures DecodeAcrossVar(j) == Some(v) <==> IsAcrossVar(j, v)
  {
    if j.Obj? {
      assert j.fields.Keys <= {"var", "values", "max_in_flight"}
        <==> forall k :: k in j.fields ==> k == "var" || k == "values" || k == "max_in_flight";
    }
  }

  lemma {:induction false} AcrossVarsDecode(js: seq<Json>, vs: seq<AcrossVar>)
    ensures DecodeAcrossVars(js) == Some(vs) <==> AreAcrossVars(js, vs)
    decreases |js|
  {
    if js != [] && vs != [] {
      var n, m := |js| - 1, |vs| - 1;
      AcrossVarsDecode(js[..n], vs[..m]);
      AcrossVarDecodes(js[n], vs[m]);
      assert vs == vs[..m] + [vs[m]];
      if AreAcrossVars(js, vs) {
        assert AreAcrossVars(js[..n], vs[..m]);
      }
      if DecodeAcrossVars(js) == Some(vs) {
        assert DecodeAcrossVars(js[..n]).value == vs[..m];
        forall i | 0 <= i < |js| ensures IsAcrossVar(js[i], vs[i]) {
          if i < n { assert IsAcrossVar(js[..n][i], vs[..m][i]); }
        }
      }
    } else if js != [] && DecodeAcrossVars(js).Some? {
      assert |DecodeAcrossVars(js).value| > 0;
    }
  }

  lemma LimitsDecode(c: FieldCodec, j: Json, l: Option<Limits>)
    ensures DecodeLimits(c, j) == Some(l) <==> IsLimits(c, j, l)
  {
  }

  lemma ConfigParts(f: Fields)
    ensures (map k | k in f && IsConfigField(k) :: f[k]) == Only(f, CONFIG_FIELDS)
    ensures (map k | k in f && !IsConfigField(k) && k != "container_limits" :: f[k]) == f - (CONFIG_FIELDS + {LIMITS})
  {
    assert forall k :: k in CONFIG_FIELDS <==> IsConfigField(k);
  }

  lemma ConfigDecodes(c: FieldCodec, j: Json, v: Value)
    ensures DecodeConfig(c, j) == Some(v) <==> IsConfig(c, j, v)
  {
    if j.Obj? {
      ConfigParts(j.fields);
      if v.ConfigOf? && LIMITS in j.fields { LimitsDecode(c, j.fields[LIMITS], v.configLimits); }
    }
  }

  lemma ValueDecodes(c: FieldCodec, s: Slot, j: Json, v: Value)
    ensures DecodeValue(c, s, j) == Some(v) <==> IsValue(c, s, j, v)
  {
    match s
    case PlainField(_, _) =>
    case LimitsField => LimitsDecode(c, j, if v.LimitsOf? then Some(v.limits) else None);
    case ConfigField => ConfigDecodes(c, j, v);
  }

  lemma FieldReads(c: Codec, k: Kind, name: string, f: Fields, v: Value)
    ensures DecodeField(c, k, name, f) == Some(v) <==> IsField(c, k, name, f, v)
  {
    if name in f { ValueDecodes(c.values, SlotOf(k, name), f[name], v); }
  }

  lemma FieldsRead(c: Codec, core: Core, raw: Fields)
    requires core.fields.Keys == Known(c, core.kind)
    ensures DecodeLeaf(c, core.kind, raw) == Some(Leaf(core))
       <==> forall name :: name in core.fields ==> IsField(c, core.kind, name, raw, core.fields[name])
  {
    forall name | name in core.fields
      ensures DecodeField(c, core.kind, name, raw) == Some(core.fields[name]) <==> IsField(c, core.kind, name, raw, core.fields[name])
    {
      FieldReads(c, core.kind, name, raw, core.fields[name]);
    }
    if forall name :: name in core.fields ==> IsField(c, core.kind, name, raw, core.fields[name]) {
      assert core.fields == map f | f in Known(c, core.kind) :: DecodeField(c, core.kind, f, raw).value;
    }
  }

  lemma LeafReads(c: Codec, core: Core, raw: Fields)
    requires IsLeaf(core.kind) && Key(core.kind) in raw
    ensures DecodeLeaf(c, core.kind, raw) == Some(Leaf(core)) <==> IsLeafRead(c, core, raw)
  {
    if core.fields.Keys == Known(c, core.kind) { FieldsRead(c, core, raw); }
  }

  // ---- reading gives what is said, and all of it ----

  /** Only the fields of its layers matter to a step. */
  lemma OwnAgrees(c: Codec, cfg: JsonConfig, f: Fields, g: Fields)
    requires Lawful(c) && AgreeOn(f, g, Known(c, KindOf(cfg)))
    ensures Own(c, cfg, f) <==> Own(c, cfg, g)
  {
    if cfg.Leaf? { LeafAgrees(c, cfg.leaf, f, g); }
    else if cfg.Hook? { HookAgrees(c, cfg, f, g); }
    else if cfg.Do? || cfg.InParallel? { TaggedAgrees(c, cfg, f, g); }
    else { SingleAgrees(c, cfg, f, g); }
  }

  lemma HookAgrees(c: Codec, cfg: JsonConfig, f: Fields, g: Fields)
    requires Lawful(c) && cfg.Hook? && AgreeOn(f, g, Known(c, KindOf(cfg)))
    ensures Own(c, cfg, f) <==> Own(c, cfg, g)
  {
    HookKeys(c, cfg.kind);
  }

  lemma TaggedAgrees(c: Codec, cfg: JsonConfig, f: Fields, g: Fields)
    requires Lawful(c) && (cfg.Do? || cfg.InParallel?) && AgreeOn(f, g, Known(c, KindOf(cfg)))
    ensures Own(c, cfg, f) <==> Own(c, cfg, g)
  {
    KnownTagged(c, KindOf(cfg));
  }

  lemma SingleAgrees(c: Codec, cfg: JsonConfig, f: Fields, g: Fields)
    requires Lawful(c) && (cfg.Try? || cfg.Across? || cfg.Retry? || cfg.Timeout?) && AgreeOn(f, g, Known(c, KindOf(cfg)))
    ensures Own(c, cfg, f) <==> Own(c, cfg, g)
  {
    if cfg.Across? { KnownAcross(c); } else { KnownSingle(c, KindOf(cfg)); }
  }

  lemma LeafAgrees(c: Codec, core: Core, f: Fields, g: Fields)
    requires Lawful(c) && AgreeOn(f, g, Known(c, core.kind))
    ensures IsLeafRead(c, core, f) <==> IsLeafRead(c, core, g)
  {
    assert Named(c, core.kind);
    if core.fields.Keys == Known(c, core.kind) {
      forall name | name in core.fields
        ensures IsField(c, core.kind, name, f, core.fields[name]) <==> IsField(c, core.kind, name, g, core.fields[name]) {}
    }
  }

  lemma {:induction false} HoldsAgrees(c: Codec, cfg: JsonConfig, f: Fields, g: Fields)
    requires Lawful(c) && AgreeOn(f, g, ChainKeys(c, cfg))
    ensures Holds(c, cfg, f) <==> Holds(c, cfg, g)
    decreases cfg
  {
    OwnAgrees(c, cfg, f, g);
    if Wraps(cfg) { HoldsAgrees(c, cfg.inner, f, g); }
  }

  /** One modifier, given that its nested step is read right. */
  lemma LayerReads(c: Codec, raw: Fields, cfg: JsonConfig)
    requires Lawful(c) && Wraps(cfg) && c.key(KindOf(cfg)) in raw
    requires cfg.Hook? ==> var v := raw[c.key(KindOf(cfg))]; Parse(c, v) == Ok(cfg.hook) <==> IsRead(c, cfg.hook, v)
    ensures var l := DecodeLayer(c, KindOf(cfg), raw[c.key(KindOf(cfg))], raw);
            (l.Some? && Wrap(l.value, cfg.inner) == cfg) <==> Own(c, cfg, raw)
  {
    assert Named(c, KindOf(cfg));
    if cfg.Across? && raw["across"].Arr? { AcrossVarsDecode(raw["across"].elems, cfg.vars); }
  }

  lemma ParseListSnoc(c: Codec, steps: seq<JsonStep>, js: seq<Json>)
    requires js != [] && steps != []
    ensures var n, m := |js| - 1, |steps| - 1;
            ParseList(c, js) == Some(steps) <==> ParseList(c, js[..n]) == Some(steps[..m]) && Parse(c, js[n]) == Ok(steps[m])
  {
    var n, m := |js| - 1, |steps| - 1;
    assert steps == steps[..m] + [steps[m]];
    var front, last := ParseList(c, js[..n]), Parse(c, js[n]);
    if front.Some? && last.Ok? { assert (front.value + [last.value])[..|front.value|] == front.value; }
  }

  lemma {:induction false} ListReads(c: Codec, steps: seq<JsonStep>, js: seq<Json>)
    requires Lawful(c)
    ensures ParseList(c, js) == Some(steps) <==> AreRead(c, steps, js)
    decreases steps, 0, 0
  {
    if js != [] && steps != [] {
      ListReads(c, steps[..|steps| - 1], js[..|js| - 1]);
      ReadExactly(c, steps[|steps| - 1], js[|js| - 1]);
      ParseListSnoc(c, steps, js);
    } else if js != [] && ParseList(c, js).Some? {
      assert |ParseList(c, js).value| > 0;
    }
  }

  /** One core step. */
  lemma {:induction false} CoreReads(c: Codec, raw: Fields, cfg: JsonConfig)
    requires Lawful(c) && !Wraps(cfg) && (cfg.Leaf? ==> IsLeaf(cfg.leaf.kind)) && c.key(KindOf(cfg)) in raw
    ensures DecodeCore(c, KindOf(cfg), raw[c.key(KindOf(cfg))], raw) == Some(cfg) <==> Own(c, cfg, raw)
    decreases cfg, 0, 1
  {
    assert Named(c, KindOf(cfg));
    match cfg
    case Leaf(core) => LeafReads(c, core, raw);
    case Try(s) => ReadExactly(c, s, raw["try"]);
    case Do(steps, tags) =>
      TagsDecode(raw, tags);
      if raw["do"].Arr? { ListReads(c, steps, raw["do"].elems); }
    case InParallel(steps, _, _, tags) =>
      TagsDecode(raw, tags);
      BranchesRead(c, raw["in_parallel"], cfg);
  }

  lemma {:induction false} BranchesRead(c: Codec, v: Json, cfg: JsonConfig)
    requires Lawful(c) && cfg.InParallel?
    ensures DecodeInParallel(c, v, cfg.tags) == Some(cfg) <==>
            (match v
             case Arr(js) => AreRead(c, cfg.branches, js) && cfg.limit == 0 && !cfg.failFast
             case Obj(g) =>
               && (if "steps" in g && g["steps"] != Null then g["steps"].Arr? && AreRead(c, cfg.branches, g["steps"].elems)
                   else cfg.branches == [])
               && (if "limit" in g then IsNumber(g["limit"], cfg.limit) else cfg.limit == 0)
               && IsFlag(g, "fail_fast", cfg.failFast)
             case _ => false)
    decreases cfg, 0, 0
  {
    if v.Arr? { ListReads(c, cfg.branches, v.elems); }
    if v.Obj? && "steps" in v.fields && v.fields["steps"].Arr? { ListReads(c, cfg.branches, v.fields["steps"].elems); }
  }

  /** What the rest of the loop is to give, from position `i` on. */
  ghost predicate IsReadFrom(c: Codec, cfg: JsonConfig, rest: Fields, i: nat, raw: Fields) {
    Shaped(c, cfg, rest, i, raw) && Holds(c, cfg, raw)
  }

  ghost predicate Shaped(c: Codec, cfg: JsonConfig, rest: Fields, i: nat, raw: Fields) {
    Chained(cfg, i) && rest == raw - ChainKeys(c, cfg) && KeysGone(c, rest, i, CoreRank(cfg))
  }

  lemma OwnKey(c: Codec, cfg: JsonConfig, f: Fields)
    requires Lawful(c) && Own(c, cfg, f)
    ensures c.key(KindOf(cfg)) in f
  {
    assert Named(c, KindOf(cfg));
  }

  /** The first key found is that of the outermost layer. */
  lemma FrontIs(c: Codec, cfg: JsonConfig, rest: Fields, i: nat, raw: Fields)
    requires Lawful(c) && i < |PRECEDENCE| && IsReadFrom(c, cfg, rest, i, raw)
    ensures c.key(PRECEDENCE[i]) in raw <==> KindOf(cfg) == PRECEDENCE[i]
  {
    RankOf(i);
    OwnKey(c, cfg, raw);
    if Rank(KindOf(cfg)) > i {
      LaterKeysApart(c, cfg, i);
      assert c.key(PRECEDENCE[i]) !in rest;
    } else {
      AtRank(i, KindOf(cfg));
    }
  }

  lemma SkipReads(c: Codec, cfg: JsonConfig, rest: Fields, i: nat, raw: Fields)
    requires Lawful(c) && i < |PRECEDENCE| && c.key(PRECEDENCE[i]) !in raw
    ensures IsReadFrom(c, cfg, rest, i, raw) <==> IsReadFrom(c, cfg, rest, i + 1, raw)
  {
    if IsReadFrom(c, cfg, rest, i, raw) {
      FrontIs(c, cfg, rest, i, raw);
      if Rank(KindOf(cfg)) == i { AtRank(i, KindOf(cfg)); }
    }
    if IsReadFrom(c, cfg, rest, i + 1, raw) {
      ChainedFrom(cfg, i, i + 1);
      KeysGoneSkip(c, rest, raw, i, CoreRank(cfg));
    }
  }

  lemma LayerKeys(c: Codec, cfg: JsonConfig, raw: Fields)
    requires Wraps(cfg)
    ensures raw - ChainKeys(c, cfg) == raw - Known(c, KindOf(cfg)) - ChainKeys(c, cfg.inner)
  {
  }

  lemma ShapedOff(c: Codec, cfg: JsonConfig, rest: Fields, i: nat, raw: Fields)
    requires i < |PRECEDENCE| && Wraps(cfg) && KindOf(cfg) == PRECEDENCE[i]
    ensures Shaped(c, cfg, rest, i, raw) <==> Shaped(c, cfg.inner, rest, i + 1, raw - Known(c, PRECEDENCE[i]))
  {
    RankOf(i);
    LayerKeys(c, cfg, raw);
    if Shaped(c, cfg.inner, rest, i + 1, raw - Known(c, PRECEDENCE[i])) { ParsedLayer(c, raw, cfg, rest, i); }
  }

  /** Taking a modifier off. */
  lemma LayerOff(c: Codec, cfg: JsonConfig, rest: Fields, i: nat, raw: Fields)
    requires Lawful(c) && i < |PRECEDENCE| && Wraps(cfg) && KindOf(cfg) == PRECEDENCE[i] && IsWrapper(PRECEDENCE[i])
    ensures IsReadFrom(c, cfg, rest, i, raw) <==>
            Own(c, cfg, raw) && IsReadFrom(c, cfg.inner, rest, i + 1, raw - Known(c, PRECEDENCE[i]))
  {
    ShapedOff(c, cfg, rest, i, raw);
    if Chained(cfg.inner, i + 1) { HoldsLess(c, cfg.inner, i, raw); }
  }

  lemma HoldsLess(c: Codec, cfg: JsonConfig, i: nat, raw: Fields)
    requires Lawful(c) && i < |PRECEDENCE| && IsWrapper(PRECEDENCE[i]) && Chained(cfg, i + 1)
    ensures Holds(c, cfg, raw) <==> Holds(c, cfg, raw - Known(c, PRECEDENCE[i]))
  {
    LaterKeysApart(c, cfg, i);
    HoldsAgrees(c, cfg, raw, raw - Known(c, PRECEDENCE[i]));
  }

  /** What the loop does at a modifier. */
  lemma WrapperStep(c: Codec, whole: Json, i: nat, raw: Fields, wrapped: bool, cfg: JsonConfig, rest: Fields)
    requires PartOf(raw, whole) && i < |PRECEDENCE| && IsWrapper(PRECEDENCE[i]) && c.key(PRECEDENCE[i]) in raw
    ensures var k := PRECEDENCE[i];
            var l, parsed := DecodeLayer(c, k, raw[c.key(k)], raw), ParseFrom(c, whole, i, raw, wrapped);
            && (parsed == Ok((cfg, rest)) ==> Wraps(cfg) && KindOf(cfg) == k)
            && (Wraps(cfg) && KindOf(cfg) == k ==>
                  (parsed == Ok((cfg, rest)) <==>
                   && l.Some? && Wrap(l.value, cfg.inner) == cfg
                   && ParseFrom(c, whole, i + 1, raw - Known(c, k), true) == Ok((cfg.inner, rest))))
  {
    var k := PRECEDENCE[i];
    var inner := ParseFrom(c, whole, i + 1, raw - Known(c, k), true);
    if DecodeLayer(c, k, raw[c.key(k)], raw).Some? && inner.Ok? { LayerShape(c, k, raw[c.key(k)], raw, inner.value.0); }
  }

  lemma {:induction false} WrapperReads(c: Codec, whole: Json, i: nat, raw: Fields, wrapped: bool, cfg: JsonConfig, rest: Fields)
    requires Lawful(c) && PartOf(raw, whole) && i < |PRECEDENCE| && IsWrapper(PRECEDENCE[i]) && c.key(PRECEDENCE[i]) in raw
    ensures ParseFrom(c, whole, i, raw, wrapped) == Ok((cfg, rest)) <==> IsReadFrom(c, cfg, rest, i, raw)
    decreases cfg, 1, 0
  {
    var k := PRECEDENCE[i];
    WrapperStep(c, whole, i, raw, wrapped, cfg, rest);
    if Wraps(cfg) && KindOf(cfg) == k {
      ReadFrom(c, whole, i + 1, raw - Known(c, k), true, cfg.inner, rest);
      if cfg.Hook? { ReadExactly(c, cfg.hook, raw[c.key(k)]); }
      LayerReads(c, raw, cfg);
      LayerOff(c, cfg, rest, i, raw);
    } else if IsReadFrom(c, cfg, rest, i, raw) {
      FrontIs(c, cfg, rest, i, raw);
      WrapperWraps(cfg);
    }
  }

  lemma WrapperWraps(cfg: JsonConfig)
    requires cfg.Leaf? ==> IsLeaf(cfg.leaf.kind)
    ensures IsWrapper(KindOf(cfg)) <==> Wraps(cfg)
  {
  }

  lemma {:induction false} CoreReadsFrom(c: Codec, whole: Json, i: nat, raw: Fields, wrapped: bool, cfg: JsonConfig, rest: Fields)
    requires Lawful(c) && PartOf(raw, whole) && i < |PRECEDENCE| && !IsWrapper(PRECEDENCE[i]) && c.key(PRECEDENCE[i]) in raw
    ensures ParseFrom(c, whole, i, raw, wrapped) == Ok((cfg, rest)) <==> IsReadFrom(c, cfg, rest, i, raw)
    decreases cfg, 1, 0
  {
    var k := PRECEDENCE[i];
    var core := DecodeCore(c, k, raw[c.key(k)], raw);
    if core.Some? { CoreShape(c, k, raw[c.key(k)], raw); }
    if !Wraps(cfg) && KindOf(cfg) == k && (cfg.Leaf? ==> IsLeaf(cfg.leaf.kind)) {
      CoreReads(c, raw, cfg);
      ParsedCore(c, raw, cfg, i);
    } else if IsReadFrom(c, cfg, rest, i, raw) {
      FrontIs(c, cfg, rest, i, raw);
      WrapperWraps(cfg);
    }
  }

  lemma {:induction false} ReadFrom(c: Codec, whole: Json, i: nat, raw: Fields, wrapped: bool, cfg: JsonConfig, rest: Fields)
    requires Lawful(c) && PartOf(raw, whole) && i <= |PRECEDENCE|
    ensures ParseFrom(c, whole, i, raw, wrapped) == Ok((cfg, rest)) <==> IsReadFrom(c, cfg, rest, i, raw)
    decreases cfg, 2, |PRECEDENCE| - i
  {
    if i == |PRECEDENCE| {
      assert Rank(KindOf(cfg)) < |PRECEDENCE|;
    } else if c.key(PRECEDENCE[i]) !in raw {
      ReadFrom(c, whole, i + 1, raw, wrapped, cfg, rest);
      RereadSkip(c, whole, i, raw, wrapped);
      SkipReads(c, cfg, rest, i, raw);
    } else if IsWrapper(PRECEDENCE[i]) {
      WrapperReads(c, whole, i, raw, wrapped, cfg, rest);
    } else {
      CoreReadsFrom(c, whole, i, raw, wrapped, cfg, rest);
    }
  }

  /** A value is read as a step exactly if the step is what it says. */
  lemma {:induction false} ReadExactly(c: Codec, s: JsonStep, j: Json)
    requires Lawful(c)
    ensures Parse(c, j) == Ok(s) <==> IsRead(c, s, j)
    decreases s, 0, 0
  {
    if j.Obj? { ReadFrom(c, j, 0, j.fields, false, s.config, s.unknown); }
  }

  /** A list of branches is the same as an object with nothing but these steps. */
  lemma ListOrObject(c: Codec, js: seq<Json>, tags: Tags)
    ensures DecodeInParallel(c, Arr(js), tags) == DecodeInParallel(c, Obj(map["steps" := Arr(js)]), tags)
  {
    assert "limit" !in map["steps" := Arr(js)] && "fail_fast" !in map["steps" := Arr(js)];
  }
}
