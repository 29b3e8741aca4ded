/** Reading and writing steps as JSON objects (atc/steps.go).

    A step is layers of modifiers around one core step, all written into a single
    object.  Leaf steps keep their decoded fields by name. */
module StepJson {
  import opened Wrappers
  import opened Steps
  import opened StepFields

  /** StepPrecedence. */
  const PRECEDENCE: seq<Kind> :=
    [KEnsure, KOnError, KOnAbort, KOnFailure, KOnSuccess, KAcross, KAttempts,
     KRun, KTask, KPut, KGet, KTimeout, KSetPipeline, KLoadVar, KTry, KDo, KInParallel]

  function Key(k: Kind): string {
    match k
    case KEnsure => "ensure"
    case KOnError => "on_error"
    case KOnAbort => "on_abort"
    case KOnFailure => "on_failure"
    case KOnSuccess => "on_success"
    case KAcross => "across"
    case KAttempts => "attempts"
    case KRun => "run"
    case KTask => "task"
    case KPut => "put"
    case KGet => "get"
    case KTimeout => "timeout"
    case KSetPipeline => "set_pipeline"
    case KLoadVar => "load_var"
    case KTry => "try"
    case KDo => "do"
    case KInParallel => "in_parallel"
  }

  /** The JSON names of the fields of a step type besides its key. */
  function Others(k: Kind): seq<string> {
    match k
    case KAcross => ["fail_fast"]
    case KRun => ["type", "params", "privileged", "tags", "container_limits", "timeout"]
    case KTask => ["privileged", "hermetic", "file", "container_limits", "config", "params", "vars", "tags",
                   "input_mapping", "output_mapping", "image", "timeout"]
    case KPut => ["resource", "params", "inputs", "tags", "get_params", "timeout", "no_get"]
    case KGet => ["resource", "version", "params", "passed", "trigger", "tags", "timeout"]
    case KSetPipeline => ["file", "team", "vars", "var_files", "instance_vars"]
    case KLoadVar => ["file", "format", "reveal"]
    case KDo => ["tags"]
    case KInParallel => ["tags"]
    case _ => []
  }

  function FieldNames(k: Kind): set<string> {
    {Key(k)} + ToSet(Others(k))
  }

  predicate IsWrapper(k: Kind) {
    k.KEnsure? || k.KOnError? || k.KOnAbort? || k.KOnFailure? || k.KOnSuccess? || k.KAcross? || k.KAttempts? || k.KTimeout?
  }

  /** Position in PRECEDENCE. */
  function Rank(k: Kind): nat {
    match k
    case KEnsure => 0 case KOnError => 1 case KOnAbort => 2 case KOnFailure => 3 case KOnSuccess => 4
    case KAcross => 5 case KAttempts => 6 case KRun => 7 case KTask => 8 case KPut => 9 case KGet => 10
    case KTimeout => 11 case KSetPipeline => 12 case KLoadVar => 13 case KTry => 14 case KDo => 15 case KInParallel => 16
  }

  lemma RankOf(i: nat)
    requires i < |PRECEDENCE|
    ensures Rank(PRECEDENCE[i]) == i
  {
  }

  // ---- the field names of the step types keep out of each other's way ----

  /** `x` is the key of none of the step types tried before `b`. */
  predicate NoEarlierKey(x: string, b: Kind) {
    forall a: Kind :: Rank(a) < Rank(b) ==> x != Key(a)
  }

  lemma EarlierKeys(x: string, b: Kind)
    requires x !in {"ensure", "on_error", "on_abort", "on_failure", "on_success", "across", "attempts"}
    requires Rank(b) > 7 ==> x != "run"
    requires Rank(b) > 8 ==> x != "task"
    requires Rank(b) > 9 ==> x != "put"
    requires Rank(b) > 10 ==> x != "get"
    requires Rank(b) > 11 ==> x != "timeout"
    requires Rank(b) > 12 ==> x != "set_pipeline"
    requires Rank(b) > 13 ==> x != "load_var"
    requires Rank(b) > 14 ==> x != "try"
    requires Rank(b) > 15 ==> x != "do"
    ensures NoEarlierKey(x, b)
  {
    forall a: Kind | Rank(a) < Rank(b) ensures x != Key(a) {
      match a
      case _ =>
    }
  }

  lemma RunNamesApart(x: string)
    requires x in FieldNames(KRun)
    ensures NoEarlierKey(x, KRun) && x != "fail_fast"
  {
    EarlierKeys(x, KRun);
  }

  lemma TaskNamesApart(x: string)
    requires x in FieldNames(KTask)
    ensures NoEarlierKey(x, KTask) && x != "fail_fast"
  {
    EarlierKeys(x, KTask);
  }

  lemma PutGetNamesApart(x: string, b: Kind)
    requires x in FieldNames(b) && (b.KPut? || b.KGet?)
    ensures NoEarlierKey(x, b) && x != "fail_fast"
  {
    if b.KPut? { EarlierKeys(x, b); } else { EarlierKeys(x, b); }
  }

  lemma LateNamesApart(x: string, b: Kind)
    requires x in FieldNames(b) && Rank(b) >= 11
    ensures NoEarlierKey(x, b) && x != "fail_fast"
  {
    match b {
      case KTimeout => EarlierKeys(x, b);
      case KSetPipeline => EarlierKeys(x, b);
      case KLoadVar => EarlierKeys(x, b);
      case KTry => EarlierKeys(x, b);
      case KDo => EarlierKeys(x, b);
      case KInParallel => EarlierKeys(x, b);
    }
  }

  lemma ModifierNamesApart(x: string, b: Kind)
    requires x in FieldNames(b) && Rank(b) <= 6
    ensures NoEarlierKey(x, b) && (b.KAttempts? ==> x != "fail_fast")
  {
    forall a: Kind | Rank(a) < Rank(b) ensures x != Key(a) {
      match a
      case _ =>
    }
  }

  /** No field of a step type is the key of an earlier one, and a modifier shares no
      field with any later step type. */
  lemma NamesApart(a: Kind, b: Kind)
    requires Rank(a) < Rank(b)
    ensures Key(a) !in FieldNames(b)
    ensures IsWrapper(a) ==> FieldNames(a) !! FieldNames(b)
  {
    forall x | x in FieldNames(b)
      ensures x != Key(a) && (a.KAcross? ==> x != "fail_fast")
    {
      if Rank(b) >= 11 { LateNamesApart(x, b); }
      else if Rank(b) >= 9 { PutGetNamesApart(x, b); }
      else if b.KTask? { TaskNamesApart(x); }
      else if b.KRun? { RunNamesApart(x); }
      else { ModifierNamesApart(x, b); }
    }
    if IsWrapper(a) {
      assert forall x :: x in FieldNames(a) ==> x == Key(a) || (a.KAcross? && x == "fail_fast");
    }
  }

  // ---- fields ----

  /** What reflection on the step types gives: the JSON names of their fields, and how the
      fields of leaf steps are read and written. */
  datatype Codec = Codec(key: Kind -> string, others: Kind -> seq<string>, values: FieldCodec)

  function Known(c: Codec, k: Kind): set<string> {
    {c.key(k)} + ToSet(c.others(k))
  }

  ghost predicate Named(c: Codec, k: Kind) {
    c.key(k) == Key(k) && c.others(k) == Others(k)
  }

  /** The names are those of the step types, and plain fields read back what they write. */
  ghost predicate Lawful(c: Codec) {
    (forall k :: Named(c, k)) && LawfulFields(c.values)
  }

  lemma KnownApart(c: Codec, a: Kind, b: Kind)
    requires Lawful(c) && Rank(a) < Rank(b)
    ensures c.key(a) !in Known(c, b)
    ensures IsWrapper(a) ==> Known(c, a) !! Known(c, b)
  {
    assert Named(c, a) && Named(c, b);
    NamesApart(a, b);
  }

  predicate OmitEmpty(c: Codec, k: Kind, f: string) {
    f != c.key(k) && !(k.KRun? && f == "type")
  }

  predicate Omitted(c: Codec, k: Kind, f: string, v: Value) {
    OmitEmpty(c, k, f) && v == Zero(c.values, SlotOf(k, f))
  }

  /** A leaf step: its type and every one of its fields. */
  datatype Core = Core(kind: Kind, fields: map<string, Value>)

  type JsonConfig = Config<Core>
  type JsonStep = Step<Core>

  datatype Error = NotAnObject | NoStepConfigured | NoCoreStepDeclared | Malformed(key: string)

  function DecodeInt(j: Json): Option<int> {
    match j case Num(n) => Some(n) case Null => Some(0) case _ => None
  }

  function DecodeBool(j: Json): Option<bool> {
    match j case Bool(b) => Some(b) case Null => Some(false) case _ => None
  }

  function DecodeString(j: Json): Option<string> {
    match j case Str(s) => Some(s) case Null => Some("") case _ => None
  }

  function DecodeStrings(js: seq<Json>): Option<seq<string>> {
    if js == [] then Some([])
    else
      match (DecodeStrings(js[..|js| - 1]), DecodeString(js[|js| - 1]))
      case (Some(front), Some(last)) => Some(front + [last])
      case _ => None
  }

  function EncodeStrings(ss: seq<string>): seq<Json> {
    seq(|ss|, i requires 0 <= i < |ss| => Str(ss[i]))
  }

  function DecodeTags(raw: map<string, Json>): Option<Tags> {
    if "tags" !in raw then Some([])
    else match raw["tags"]
      case Null => Some([])
      case Arr(js) => DecodeStrings(js)
      case _ => None
  }

  function EncodeTags(tags: Tags): map<string, Json> {
    if tags == [] then map[] else map["tags" := Arr(EncodeStrings(tags))]
  }

  function Flag(raw: map<string, Json>, f: string): Option<bool> {
    if f in raw then DecodeBool(raw[f]) else Some(false)
  }

  function EncodeFlag(f: string, b: bool): map<string, Json> {
    if b then map[f := Bool(true)] else map[]
  }

  function DecodeMaxInFlight(j: Json): Option<Option<MaxInFlight>> {
    match j
    case Null => Some(None)
    case Str(s) => if s == "all" then Some(Some(AllValues)) else None
    case Num(n) => Some(Some(Limit(n)))
    case _ => None
  }

  /** Decoded strictly: no field besides these three. */
  function DecodeAcrossVar(j: Json): Option<AcrossVar> {
    match j
    case Null => Some(AcrossVar("", Null, None))
    case Obj(f) =>
      if !(f.Keys <= {"var", "values", "max_in_flight"}) then None
      else
        var name := if "var" in f then DecodeString(f["var"]) else Some("");
        var limit := if "max_in_flight" in f then DecodeMaxInFlight(f["max_in_flight"]) else Some(None);
        if name.None? || limit.None? then None
        else Some(AcrossVar(name.value, if "values" in f then f["values"] else Null, limit.value))
    case _ => None
  }

  function EncodeAcrossVar(v: AcrossVar): Json {
    var limit := match v.maxInFlight
                 case None => map[]
                 case Some(AllValues) => map["max_in_flight" := Str("all")]
                 case Some(Limit(n)) => map["max_in_flight" := Num(n)];
    Obj(map["var" := Str(v.name)] + (if v.values.Null? then map[] else map["values" := v.values]) + limit)
  }

  function DecodeAcrossVars(js: seq<Json>): Option<seq<AcrossVar>> {
    if js == [] then Some([])
    else
      match (DecodeAcrossVars(js[..|js| - 1]), DecodeAcrossVar(js[|js| - 1]))
      case (Some(front), Some(last)) => Some(front + [last])
      case _ => None
  }

  function EncodeAcrossVars(vs: seq<AcrossVar>): seq<Json> {
    seq(|vs|, i requires 0 <= i < |vs| => EncodeAcrossVar(vs[i]))
  }

  function EncodeInParallel(steps: seq<Json>, limit: int, failFast: bool): Json {
    Obj((if steps == [] then map[] else map["steps" := Arr(steps)])
        + (if limit == 0 then map[] else map["limit" := Num(limit)])
        + EncodeFlag("fail_fast", failFast))
  }

  // ---- fields come back as they were written ----

  lemma {:induction false} StringsBack(ss: seq<string>)
    ensures DecodeStrings(EncodeStrings(ss)) == Some(ss)
  {
    if ss != [] {
      var n := |ss| - 1;
      StringsBack(ss[..n]);
      assert EncodeStrings(ss)[..n] == EncodeStrings(ss[..n]);
      assert ss == ss[..n] + [ss[n]];
    }
  }

  lemma AcrossVarBack(v: AcrossVar)
    ensures DecodeAcrossVar(EncodeAcrossVar(v)) == Some(v)
  {
    var f := EncodeAcrossVar(v).fields;
    assert "var" != "values" && "var" != "max_in_flight" && "values" != "max_in_flight";
    assert "var" in f && f["var"] == Str(v.name);
    assert v.values.Null? ==> "values" !in f;
    assert v.maxInFlight.None? ==> "max_in_flight" !in f;
  }

  lemma {:induction false} AcrossVarsBack(vs: seq<AcrossVar>)
    ensures DecodeAcrossVars(EncodeAcrossVars(vs)) == Some(vs)
  {
    if vs != [] {
      var n := |vs| - 1;
      AcrossVarsBack(vs[..n]);
      AcrossVarBack(vs[n]);
      assert EncodeAcrossVars(vs)[..n] == EncodeAcrossVars(vs[..n]);
      assert vs == vs[..n] + [vs[n]];
    }
  }

  // ---- UnmarshalJSON ----

  /** One modifier, without the step it modifies. */
  datatype Layer =
    | HookLayer(hook: HookKind, step: JsonStep)
    | AcrossLayer(vars: seq<AcrossVar>, failFast: bool)
    | RetryLayer(attempts: int)
    | TimeoutLayer(duration: string)

  function Wrap(l: Layer, inner: JsonConfig): JsonConfig {
    match l
    case HookLayer(k, s) => Hook(k, inner, s)
    case AcrossLayer(vars, ff) => Across(inner, vars, ff)
    case RetryLayer(n) => Retry(inner, n)
    case TimeoutLayer(d) => Timeout(inner, d)
  }

  function HookOf(k: Kind): HookKind
    requires Rank(k) < 5
  {
    match k
    case KEnsure => Ensure
    case KOnError => OnError
    case KOnAbort => OnAbort
    case KOnFailure => OnFailure
    case KOnSuccess => OnSuccess
  }

  predicate IsLeaf(k: Kind) {
    k.KRun? || k.KTask? || k.KPut? || k.KGet? || k.KSetPipeline? || k.KLoadVar?
  }

  /** The value of every field of the leaf, or None if one does not decode. */
  function DecodeField(c: Codec, k: Kind, f: string, raw: map<string, Json>): Option<Value> {
    var slot := SlotOf(k, f);
    if f in raw then DecodeValue(c.values, slot, raw[f]) else Some(Zero(c.values, slot))
  }

  predicate LeafDecodes(c: Codec, k: Kind, raw: map<string, Json>) {
    forall f :: f in Known(c, k) ==> DecodeField(c, k, f, raw).Some?
  }

  function DecodeLeaf(c: Codec, k: Kind, raw: map<string, Json>): Option<JsonConfig> {
    if LeafDecodes(c, k, raw) then Some(Leaf(Core(k, map f | f in Known(c, k) :: DecodeField(c, k, f, raw).value))) else None
  }

  /** `raw` is a part of the object `whole`. */
  ghost predicate PartOf(raw: map<string, Json>, whole: Json) {
    whole.Obj? && forall f :: f in raw ==> f in whole.fields && raw[f] == whole.fields[f]
  }

  function Parse(c: Codec, j: Json): Result<JsonStep, Error>
    decreases j, 3
  {
    match j
    case Null => Err(NoStepConfigured)
    case Obj(fields) =>
      (match ParseFrom(c, j, 0, fields, false)
       case Err(e) => Err(e)
       case Ok(r) => Ok(Step(r.0, r.1)))
    case _ => Err(NotAnObject)
  }

  /** The rest of the loop over StepPrecedence, from position `i`, on the fields that no
      earlier layer has claimed: the step read and the fields left over. */
  function ParseFrom(c: Codec, ghost whole: Json, i: nat, raw: map<string, Json>, wrapped: bool)
    : Result<(JsonConfig, map<string, Json>), Error>
    requires PartOf(raw, whole) && i <= |PRECEDENCE|
    decreases whole, 2, |PRECEDENCE| - i
  {
    if i == |PRECEDENCE| then Err(if wrapped then NoCoreStepDeclared else NoStepConfigured)
    else
      var k := PRECEDENCE[i];
      if c.key(k) !in raw then ParseFrom(c, whole, i + 1, raw, wrapped)
      else if IsWrapper(k) then
        match DecodeLayer(c, k, raw[c.key(k)], raw)
        case None => Err(Malformed(c.key(k)))
        case Some(layer) =>
          (match ParseFrom(c, whole, i + 1, raw - Known(c, k), true)
           case Err(e) => Err(e)
           case Ok(r) => Ok((Wrap(layer, r.0), r.1)))
      else
        match DecodeCore(c, k, raw[c.key(k)], raw)
        case None => Err(Malformed(c.key(k)))
        case Some(core) => Ok((core, raw - Known(c, k)))
  }

  function DecodeLayer(c: Codec, k: Kind, v: Json, raw: map<string, Json>): Option<Layer>
    requires IsWrapper(k)
    decreases v, 4
  {
    if k.KAcross? then
      var vars := match v case Null => Some([]) case Arr(js) => DecodeAcrossVars(js) case _ => None;
      var ff := Flag(raw, "fail_fast");
      if vars.None? || ff.None? then None else Some(AcrossLayer(vars.value, ff.value))
    else if k.KAttempts? then
      match DecodeInt(v) case None => None case Some(n) => Some(RetryLayer(n))
    else if k.KTimeout? then
      match DecodeString(v) case None => None case Some(d) => Some(TimeoutLayer(d))
    else
      match Parse(c, v) case Err(_) => None case Ok(s) => Some(HookLayer(HookOf(k), s))
  }

  function DecodeCore(c: Codec, k: Kind, v: Json, raw: map<string, Json>): Option<JsonConfig>
    requires !IsWrapper(k)
    decreases v, 4
  {
    if k.KTry? then
      match Parse(c, v) case Err(_) => None case Ok(s) => Some(Try(s))
    else if k.KDo? then
      var steps := match v case Null => Some([]) case Arr(js) => ParseList(c, js) case _ => None;
      var tags := DecodeTags(raw);
      if steps.None? || tags.None? then None else Some(Do(steps.value, tags.value))
    else if k.KInParallel? then
      match DecodeTags(raw)
      case None => None
      case Some(tags) => DecodeInParallel(c, v, tags)
    else DecodeLeaf(c, k, raw)
  }

  /** InParallelConfig.UnmarshalJSON: a list of steps, or an object around one. */
  function DecodeInParallel(c: Codec, v: Json, tags: Tags): Option<JsonConfig>
    decreases v, 2
  {
    match v
    case Arr(js) => (match ParseList(c, js) case None => None case Some(steps) => Some(InParallel(steps, 0, false, tags)))
    case Obj(f) =>
      var steps := if "steps" !in f then Some([])
                   else (match f["steps"] case Null => Some([]) case Arr(js) => ParseList(c, js) case _ => None);
      var limit := if "limit" in f then DecodeInt(f["limit"]) else Some(0);
      var ff := Flag(f, "fail_fast");
      if steps.None? || limit.None? || ff.None? then None
      else Some(InParallel(steps.value, limit.value, ff.value, tags))
    case _ => None
  }

  function ParseList(c: Codec, js: seq<Json>): Option<seq<JsonStep>>
    decreases js, 0
  {
    if js == [] then Some([])
    else
      match (ParseList(c, js[..|js| - 1]), Parse(c, js[|js| - 1]))
      case (Some(front), Ok(last)) => Some(front + [last])
      case _ => None
  }

  // ---- MarshalJSON ----

  function HookKey(k: HookKind): string {
    match k
    case OnSuccess => "on_success"
    case OnFailure => "on_failure"
    case OnAbort => "on_abort"
    case OnError => "on_error"
    case Ensure => "ensure"
  }

  /** The fields one layer writes. */
  function PrintLayer(c: Codec, cfg: JsonConfig): map<string, Json>
    decreases cfg, 0
  {
    match cfg
    case Leaf(core) =>
      map f | f in core.fields && !Omitted(c, core.kind, f, core.fields[f]) ::
        EncodeValue(c.values, SlotOf(core.kind, f), core.fields[f])
    case Try(s) => map["try" := Print(c, s)]
    case Do(steps, tags) => map["do" := Arr(PrintList(c, steps))] + EncodeTags(tags)
    case InParallel(steps, limit, ff, tags) =>
      map["in_parallel" := EncodeInParallel(PrintList(c, steps), limit, ff)] + EncodeTags(tags)
    case Across(_, vars, ff) => map["across" := Arr(EncodeAcrossVars(vars))] + EncodeFlag("fail_fast", ff)
    case Retry(_, n) => map["attempts" := Num(n)]
    case Timeout(_, d) => map["timeout" := Str(d)]
    case Hook(k, _, s) => map[HookKey(k) := Print(c, s)]
  }

  predicate Wraps(cfg: JsonConfig) {
    cfg.Across? || cfg.Retry? || cfg.Timeout? || cfg.Hook?
  }

  function PrintConfig(c: Codec, cfg: JsonConfig): map<string, Json>
    decreases cfg, 1
  {
    if Wraps(cfg) then PrintLayer(c, cfg) + PrintConfig(c, cfg.inner) else PrintLayer(c, cfg)
  }

  function Print(c: Codec, s: JsonStep): Json
    decreases s
  {
    Obj(s.unknown + PrintConfig(c, s.config))
  }

  function PrintList(c: Codec, steps: seq<JsonStep>): seq<Json>
    decreases steps
  {
    if steps == [] then [] else PrintList(c, steps[..|steps| - 1]) + [Print(c, steps[|steps| - 1])]
  }

  // ---- the shape of what is read ----

  function KindOfHook(k: HookKind): Kind {
    match k
    case OnSuccess => KOnSuccess
    case OnFailure => KOnFailure
    case OnAbort => KOnAbort
    case OnError => KOnError
    case Ensure => KEnsure
  }

  function KindOf(cfg: JsonConfig): Kind {
    match cfg
    case Leaf(core) => core.kind
    case Try(_) => KTry
    case Do(_, _) => KDo
    case InParallel(_, _, _, _) => KInParallel
    case Across(_, _, _) => KAcross
    case Retry(_, _) => KAttempts
    case Timeout(_, _) => KTimeout
    case Hook(k, _, _) => KindOfHook(k)
  }

  /** The layers are of step types at strictly increasing positions of StepPrecedence,
      from position `i` on: modifiers, and then one core step. */
  ghost predicate Chained(cfg: JsonConfig, i: nat)
    decreases cfg
  {
    && Rank(KindOf(cfg)) >= i
    && (cfg.Leaf? ==> IsLeaf(cfg.leaf.kind))
    && (Wraps(cfg) ==> Chained(cfg.inner, Rank(KindOf(cfg)) + 1))
  }

  /** The field names of all layers. */
  ghost function ChainKeys(c: Codec, cfg: JsonConfig): set<string>
    decreases cfg
  {
    Known(c, KindOf(cfg)) + (if Wraps(cfg) then ChainKeys(c, cfg.inner) else {})
  }

  /** The position of the core step's type. */
  ghost function CoreRank(cfg: JsonConfig): nat
    decreases cfg
  {
    if Wraps(cfg) then CoreRank(cfg.inner) else Rank(KindOf(cfg))
  }

  /** No step type tried from position `i` up to the core step has its key in `rest`. */
  ghost predicate KeysGone(c: Codec, rest: map<string, Json>, i: nat, last: nat) {
    forall j: nat :: i <= j <= last && j < |PRECEDENCE| ==> c.key(PRECEDENCE[j]) !in rest
  }

  lemma LayerShape(c: Codec, k: Kind, v: Json, raw: map<string, Json>, inner: JsonConfig)
    requires IsWrapper(k) && DecodeLayer(c, k, v, raw).Some?
    ensures var cfg := Wrap(DecodeLayer(c, k, v, raw).value, inner);
            KindOf(cfg) == k && Wraps(cfg) && cfg.inner == inner
  {
  }

  lemma CoreShape(c: Codec, k: Kind, v: Json, raw: map<string, Json>)
    requires !IsWrapper(k) && DecodeCore(c, k, v, raw).Some?
    ensures var cfg := DecodeCore(c, k, v, raw).value;
            KindOf(cfg) == k && !Wraps(cfg) && (cfg.Leaf? ==> IsLeaf(k))
  {
  }

  /** A step type is not tried once one after it has been read. */
  lemma {:induction false} LaterKeysApart(c: Codec, cfg: JsonConfig, j: nat)
    requires Lawful(c) && j < |PRECEDENCE| && Chained(cfg, j + 1)
    ensures c.key(PRECEDENCE[j]) !in ChainKeys(c, cfg)
    ensures IsWrapper(PRECEDENCE[j]) ==> Known(c, PRECEDENCE[j]) !! ChainKeys(c, cfg)
    ensures j < CoreRank(cfg) < |PRECEDENCE|
    decreases cfg
  {
    var a, b := PRECEDENCE[j], KindOf(cfg);
    RankOf(j);
    KnownApart(c, a, b);
    if Wraps(cfg) {
      ChainedFrom(cfg.inner, j + 1, Rank(b) + 1);
      LaterKeysApart(c, cfg.inner, j);
    }
  }

  lemma ChainedFrom(cfg: JsonConfig, i: nat, j: nat)
    requires i <= j && Chained(cfg, j)
    ensures Chained(cfg, i)
  {
  }

  lemma KeysGoneSkip(c: Codec, rest: map<string, Json>, raw: map<string, Json>, i: nat, last: nat)
    requires KeysGone(c, rest, i + 1, last) && rest.Keys <= raw.Keys
    requires i < |PRECEDENCE| && c.key(PRECEDENCE[i]) !in rest
    ensures KeysGone(c, rest, i, last)
  {
    forall j: nat | i <= j <= last && j < |PRECEDENCE|
      ensures c.key(PRECEDENCE[j]) !in rest
    {
    }
  }

  lemma ParsedLayer(c: Codec, raw: map<string, Json>, cfg: JsonConfig, rest: map<string, Json>, i: nat)
    requires i < |PRECEDENCE| && Wraps(cfg) && KindOf(cfg) == PRECEDENCE[i]
    requires Chained(cfg.inner, i + 1) && rest == raw - Known(c, KindOf(cfg)) - ChainKeys(c, cfg.inner)
    requires KeysGone(c, rest, i + 1, CoreRank(cfg.inner))
    ensures Chained(cfg, i) && rest == raw - ChainKeys(c, cfg) && KeysGone(c, rest, i, CoreRank(cfg))
  {
    RankOf(i);
    KeysGoneSkip(c, rest, raw, i, CoreRank(cfg));
  }

  lemma ParsedCore(c: Codec, raw: map<string, Json>, cfg: JsonConfig, i: nat)
    requires i < |PRECEDENCE| && !Wraps(cfg) && KindOf(cfg) == PRECEDENCE[i]
    requires cfg.Leaf? ==> IsLeaf(cfg.leaf.kind)
    ensures Chained(cfg, i) && ChainKeys(c, cfg) == Known(c, PRECEDENCE[i])
    ensures KeysGone(c, raw - Known(c, PRECEDENCE[i]), i, CoreRank(cfg))
  {
    RankOf(i);
  }

  /** What the rest of the loop reads: layers in order, and left over exactly the fields
      that belong to none of them. */
  lemma {:induction false} ParsedFrom(c: Codec, whole: Json, i: nat, raw: map<string, Json>, wrapped: bool)
    requires PartOf(raw, whole) && i <= |PRECEDENCE|
    requires ParseFrom(c, whole, i, raw, wrapped).Ok?
    ensures var (cfg, rest) := ParseFrom(c, whole, i, raw, wrapped).value;
            Chained(cfg, i) && rest == raw - ChainKeys(c, cfg) && KeysGone(c, rest, i, CoreRank(cfg))
    decreases |PRECEDENCE| - i
  {
    var k := PRECEDENCE[i];
    var (cfg, rest) := ParseFrom(c, whole, i, raw, wrapped).value;
    if c.key(k) !in raw {
      ParsedFrom(c, whole, i + 1, raw, wrapped);
      ChainedFrom(cfg, i, i + 1);
      KeysGoneSkip(c, rest, raw, i, CoreRank(cfg));
    } else if IsWrapper(k) {
      ParsedFrom(c, whole, i + 1, raw - Known(c, k), true);
      LayerShape(c, k, raw[c.key(k)], raw, ParseFrom(c, whole, i + 1, raw - Known(c, k), true).value.0);
      ParsedLayer(c, raw, cfg, rest, i);
    } else {
      CoreShape(c, k, raw[c.key(k)], raw);
      ParsedCore(c, raw, cfg, i);
    }
  }

  // ---- printing and reading again ----

  /** What survives of a step when it is printed and read again. */
  function Kept(c: Codec, s: JsonStep): JsonStep
    decreases s
  {
    Step(KeptConfig(c, s.config), s.unknown)
  }

  function KeptCore(c: Codec, core: Core): Core {
    Core(core.kind, map f | f in core.fields :: KeptValue(c.values, core.fields[f]))
  }

  function KeptConfig(c: Codec, cfg: JsonConfig): JsonConfig
    decreases cfg
  {
    match cfg
    case Leaf(core) => Leaf(KeptCore(c, core))
    case Try(s) => Try(Kept(c, s))
    case Do(steps, tags) => Do(KeptList(c, steps), tags)
    case InParallel(steps, limit, ff, tags) => InParallel(KeptList(c, steps), limit, ff, tags)
    case Across(inner, vars, ff) => Across(KeptConfig(c, inner), vars, ff)
    case Retry(inner, n) => Retry(KeptConfig(c, inner), n)
    case Timeout(inner, d) => Timeout(KeptConfig(c, inner), d)
    case Hook(k, inner, s) => Hook(k, KeptConfig(c, inner), Kept(c, s))
  }

  function KeptList(c: Codec, steps: seq<JsonStep>): seq<JsonStep>
    decreases steps
  {
    if steps == [] then [] else KeptList(c, steps[..|steps| - 1]) + [Kept(c, steps[|steps| - 1])]
  }

  /** No leaf anywhere in the step has a field that printing loses. */
  predicate Exact(c: Codec, s: JsonStep)
    decreases s
  {
    ExactConfig(c, s.config)
  }

  predicate ExactCore(c: Codec, core: Core) {
    forall f :: f in core.fields ==> ExactValue(c.values, core.fields[f])
  }

  predicate ExactConfig(c: Codec, cfg: JsonConfig)
    decreases cfg
  {
    match cfg
    case Leaf(core) => ExactCore(c, core)
    case Try(s) => Exact(c, s)
    case Do(steps, _) => ExactList(c, steps)
    case InParallel(steps, _, _, _) => ExactList(c, steps)
    case Across(inner, _, _) => ExactConfig(c, inner)
    case Retry(inner, _) => ExactConfig(c, inner)
    case Timeout(inner, _) => ExactConfig(c, inner)
    case Hook(_, inner, s) => ExactConfig(c, inner) && Exact(c, s)
  }

  predicate ExactList(c: Codec, steps: seq<JsonStep>)
    decreases steps
  {
    steps != [] ==> ExactList(c, steps[..|steps| - 1]) && Exact(c, steps[|steps| - 1])
  }

  lemma KeptCoreExact(c: Codec, core: Core)
    ensures KeptCore(c, core) == core <==> ExactCore(c, core)
  {
    forall f | f in core.fields
      ensures KeptCore(c, core).fields[f] == core.fields[f] <==> ExactValue(c.values, core.fields[f])
    {
      KeptExact(c.values, core.fields[f]);
    }
    if ExactCore(c, core) { assert KeptCore(c, core).fields == core.fields; }
  }

  /** A step survives whole exactly if it is exact. */
  lemma {:induction false} KeptIsExact(c: Codec, s: JsonStep)
    ensures Kept(c, s) == s <==> Exact(c, s)
    decreases s
  {
    KeptConfigExact(c, s.config);
  }

  lemma {:induction false} KeptConfigExact(c: Codec, cfg: JsonConfig)
    ensures KeptConfig(c, cfg) == cfg <==> ExactConfig(c, cfg)
    decreases cfg
  {
    match cfg
    case Leaf(core) => KeptCoreExact(c, core);
    case Try(s) => KeptIsExact(c, s);
    case Do(steps, _) => KeptListExact(c, steps);
    case InParallel(steps, _, _, _) => KeptListExact(c, steps);
    case Across(inner, _, _) => KeptConfigExact(c, inner);
    case Retry(inner, _) => KeptConfigExact(c, inner);
    case Timeout(inner, _) => KeptConfigExact(c, inner);
    case Hook(_, inner, s) =>
      KeptConfigExact(c, inner);
      KeptIsExact(c, s);
  }

  lemma {:induction false} KeptListExact(c: Codec, steps: seq<JsonStep>)
    ensures |KeptList(c, steps)| == |steps| && (KeptList(c, steps) == steps <==> ExactList(c, steps))
    decreases steps
  {
    if steps != [] {
      var n := |steps| - 1;
      KeptListExact(c, steps[..n]);
      KeptIsExact(c, steps[n]);
      var kept := KeptList(c, steps);
      assert kept[..n] == KeptList(c, steps[..n]) && kept[n] == Kept(c, steps[n]);
      assert steps == steps[..n] + [steps[n]] && kept == kept[..n] + [kept[n]];
    }
  }

  /** Every part of `cfg` that is printed on its own reads back as what survives of it. */
  ghost predicate Stable(c: Codec, cfg: JsonConfig)
    decreases cfg
  {
    match cfg
    case Leaf(core) =>
      && core.fields.Keys == Known(c, core.kind)
      && forall f :: f in core.fields ==> Fits(c.values, SlotOf(core.kind, f), core.fields[f])
    case Try(s) => Parse(c, Print(c, s)) == Ok(Kept(c, s))
    case Do(steps, _) => ParseList(c, PrintList(c, steps)) == Some(KeptList(c, steps))
    case InParallel(steps, _, _, _) => ParseList(c, PrintList(c, steps)) == Some(KeptList(c, steps))
    case Across(inner, _, _) => Stable(c, inner)
    case Retry(inner, _) => Stable(c, inner)
    case Timeout(inner, _) => Stable(c, inner)
    case Hook(_, inner, s) => Stable(c, inner) && Parse(c, Print(c, s)) == Ok(Kept(c, s))
  }

  /** `a` and `b` hold the same fields among `names`. */
  ghost predicate AgreeOn(a: map<string, Json>, b: map<string, Json>, names: set<string>) {
    forall f :: f in names ==> (f in a <==> f in b) && (f in a && f in b ==> a[f] == b[f])
  }

  lemma HookKeys(c: Codec, k: HookKind)
    requires Lawful(c)
    ensures HookKey(k) == c.key(KindOfHook(k)) && Known(c, KindOfHook(k)) == {HookKey(k)}
    ensures IsWrapper(KindOfHook(k)) && Rank(KindOfHook(k)) < 5 && HookOf(KindOfHook(k)) == k
  {
    assert Named(c, KindOfHook(k));
  }

  lemma KnownSingle(c: Codec, k: Kind)
    requires Lawful(c) && (k.KTry? || k.KAttempts? || k.KTimeout?)
    ensures c.key(k) == Key(k) && Known(c, k) == {Key(k)}
  {
    assert Named(c, k);
  }

  lemma KnownTagged(c: Codec, k: Kind)
    requires Lawful(c) && (k.KDo? || k.KInParallel?)
    ensures c.key(k) == Key(k) && Known(c, k) == {Key(k), "tags"}
  {
    assert Named(c, k);
  }

  lemma KnownAcross(c: Codec)
    requires Lawful(c)
    ensures c.key(KAcross) == "across" && Known(c, KAcross) == {"across", "fail_fast"}
  {
    assert Named(c, KAcross);
  }

  lemma PrintedLeafKeys(c: Codec, core: Core)
    requires Stable(c, Leaf(core))
    ensures PrintLayer(c, Leaf(core)).Keys <= Known(c, core.kind) && c.key(core.kind) in PrintLayer(c, Leaf(core))
  {
    assert c.key(core.kind) in core.fields.Keys;
  }

  lemma TaggedKeys(key: string, v: Json, tags: Tags)
    ensures (map[key := v] + EncodeTags(tags)).Keys <= {key, "tags"} && key in map[key := v] + EncodeTags(tags)
  {
  }

  lemma AcrossKeys(v: Json, failFast: bool)
    ensures (map["across" := v] + EncodeFlag("fail_fast", failFast)).Keys <= {"across", "fail_fast"}
    ensures "across" in map["across" := v] + EncodeFlag("fail_fast", failFast)
  {
  }

  lemma PrintedModifierKeys(c: Codec, cfg: JsonConfig)
    requires Lawful(c) && Wraps(cfg)
    ensures PrintLayer(c, cfg).Keys <= Known(c, KindOf(cfg)) && c.key(KindOf(cfg)) in PrintLayer(c, cfg)
  {
    match cfg
    case Across(_, vars, failFast) =>
      KnownAcross(c);
      AcrossKeys(Arr(EncodeAcrossVars(vars)), failFast);
    case Retry(_, _) => KnownSingle(c, KAttempts);
    case Timeout(_, _) => KnownSingle(c, KTimeout);
    case Hook(k, _, _) => HookKeys(c, k);
  }

  lemma PrintedTaggedKeys(c: Codec, cfg: JsonConfig)
    requires Lawful(c) && (cfg.Do? || cfg.InParallel?)
    ensures PrintLayer(c, cfg).Keys <= Known(c, KindOf(cfg)) && c.key(KindOf(cfg)) in PrintLayer(c, cfg)
  {
    KnownTagged(c, KindOf(cfg));
    if cfg.Do? {
      TaggedKeys("do", Arr(PrintList(c, cfg.steps)), cfg.tags);
    } else {
      TaggedKeys("in_parallel", EncodeInParallel(PrintList(c, cfg.branches), cfg.limit, cfg.failFast), cfg.tags);
    }
  }

  lemma PrintedLayerKeys(c: Codec, cfg: JsonConfig)
    requires Lawful(c) && Stable(c, cfg)
    ensures PrintLayer(c, cfg).Keys <= Known(c, KindOf(cfg)) && c.key(KindOf(cfg)) in PrintLayer(c, cfg)
  {
    if Wraps(cfg) { PrintedModifierKeys(c, cfg); }
    else if cfg.Leaf? { PrintedLeafKeys(c, cfg.leaf); }
    else if cfg.Try? { KnownSingle(c, KTry); }
    else { PrintedTaggedKeys(c, cfg); }
  }

  lemma {:induction false} PrintedKeys(c: Codec, cfg: JsonConfig)
    requires Lawful(c) && Stable(c, cfg)
    ensures PrintConfig(c, cfg).Keys <= ChainKeys(c, cfg)
    decreases cfg
  {
    PrintedLayerKeys(c, cfg);
    if Wraps(cfg) { PrintedKeys(c, cfg.inner); }
  }

  lemma AcrossFields(raw: map<string, Json>, v: Json, failFast: bool)
    requires AgreeOn(raw, map["across" := v] + EncodeFlag("fail_fast", failFast), {"across", "fail_fast"})
    ensures "across" in raw && raw["across"] == v && Flag(raw, "fail_fast") == Some(failFast)
  {
    assert "across" != "fail_fast";
    assert "across" in {"across", "fail_fast"} && "fail_fast" in {"across", "fail_fast"};
  }

  lemma AcrossBack(c: Codec, cfg: JsonConfig, raw: map<string, Json>)
    requires cfg.Across? && AgreeOn(raw, PrintLayer(c, cfg), {"across", "fail_fast"})
    ensures "across" in raw && DecodeLayer(c, KAcross, raw["across"], raw) == Some(AcrossLayer(cfg.vars, cfg.failFast))
  {
    AcrossFields(raw, Arr(EncodeAcrossVars(cfg.vars)), cfg.failFast);
    AcrossVarsBack(cfg.vars);
  }

  /** A modifier reads back from its own fields. */
  lemma LayerBack(c: Codec, cfg: JsonConfig, raw: map<string, Json>)
    requires Lawful(c) && Wraps(cfg) && Stable(c, cfg) && AgreeOn(raw, PrintLayer(c, cfg), Known(c, KindOf(cfg)))
    ensures var k := KindOf(cfg);
            && IsWrapper(k) && c.key(k) in raw
            && DecodeLayer(c, k, raw[c.key(k)], raw).Some?
            && Wrap(DecodeLayer(c, k, raw[c.key(k)], raw).value, KeptConfig(c, cfg.inner)) == KeptConfig(c, cfg)
  {
    match cfg
    case Hook(k, _, s) =>
      HookKeys(c, k);
      assert raw[HookKey(k)] == Print(c, s);
    case Across(_, _, _) =>
      KnownAcross(c);
      AcrossBack(c, cfg, raw);
    case Retry(_, n) =>
      KnownSingle(c, KAttempts);
      assert raw["attempts"] == Num(n);
    case Timeout(_, d) =>
      KnownSingle(c, KTimeout);
      assert raw["timeout"] == Str(d);
  }

  lemma TagsBack(raw: map<string, Json>, key: string, v: Json, tags: Tags)
    requires key != "tags" && AgreeOn(raw, map[key := v] + EncodeTags(tags), {key, "tags"})
    ensures key in raw && raw[key] == v && DecodeTags(raw) == Some(tags)
  {
    assert key in {key, "tags"} && "tags" in {key, "tags"};
    StringsBack(tags);
  }

  lemma FieldBack(c: Codec, core: Core, raw: map<string, Json>, f: string)
    requires Lawful(c) && Stable(c, Leaf(core)) && f in Known(c, core.kind)
    requires AgreeOn(raw, PrintLayer(c, Leaf(core)), Known(c, core.kind))
    ensures DecodeField(c, core.kind, f, raw) == Some(KeptValue(c.values, core.fields[f]))
  {
    assert f in core.fields.Keys;
    var v, slot := core.fields[f], SlotOf(core.kind, f);
    var printed := PrintLayer(c, Leaf(core));
    ValueBack(c.values, slot, v);
    assert f in printed ==> printed[f] == EncodeValue(c.values, slot, v);
    assert f !in printed ==> v == Zero(c.values, slot);
  }

  lemma LeafBack(c: Codec, core: Core, raw: map<string, Json>)
    requires Lawful(c) && Stable(c, Leaf(core))
    requires AgreeOn(raw, PrintLayer(c, Leaf(core)), Known(c, core.kind))
    ensures DecodeLeaf(c, core.kind, raw) == Some(Leaf(KeptCore(c, core)))
  {
    var k := core.kind;
    forall f | f in Known(c, k)
      ensures DecodeField(c, k, f, raw) == Some(KeptValue(c.values, core.fields[f]))
    {
      FieldBack(c, core, raw, f);
    }
    var fields := map f | f in Known(c, k) :: DecodeField(c, k, f, raw).value;
    assert fields.Keys == core.fields.Keys;
    assert fields == KeptCore(c, core).fields;
  }

  lemma InParallelFields(steps: seq<Json>, limit: int, failFast: bool)
    ensures var f := EncodeInParallel(steps, limit, failFast).fields;
            && ("steps" in f <==> steps != []) && ("steps" in f ==> f["steps"] == Arr(steps))
            && ("limit" in f <==> limit != 0) && ("limit" in f ==> f["limit"] == Num(limit))
            && ("fail_fast" in f <==> failFast) && ("fail_fast" in f ==> f["fail_fast"] == Bool(true))
  {
    assert "steps" != "limit" && "steps" != "fail_fast" && "limit" != "fail_fast";
  }

  lemma InParallelBack(c: Codec, cfg: JsonConfig)
    requires cfg.InParallel? && Stable(c, cfg)
    ensures DecodeInParallel(c, EncodeInParallel(PrintList(c, cfg.branches), cfg.limit, cfg.failFast), cfg.tags) == Some(KeptConfig(c, cfg))
  {
    InParallelFields(PrintList(c, cfg.branches), cfg.limit, cfg.failFast);
    PrintedListSize(c, cfg.branches);
  }

  lemma {:induction false} PrintedListSize(c: Codec, steps: seq<JsonStep>)
    ensures |PrintList(c, steps)| == |steps| && |KeptList(c, steps)| == |steps|
  {
    if steps != [] { PrintedListSize(c, steps[..|steps| - 1]); }
  }

  lemma DoBack(c: Codec, cfg: JsonConfig, raw: map<string, Json>)
    requires cfg.Do? && Stable(c, cfg) && AgreeOn(raw, PrintLayer(c, cfg), {"do", "tags"})
    ensures "do" in raw && DecodeCore(c, KDo, raw["do"], raw) == Some(KeptConfig(c, cfg))
  {
    TagsBack(raw, "do", Arr(PrintList(c, cfg.steps)), cfg.tags);
  }

  lemma BranchesBack(c: Codec, cfg: JsonConfig, raw: map<string, Json>)
    requires cfg.InParallel? && Stable(c, cfg) && AgreeOn(raw, PrintLayer(c, cfg), {"in_parallel", "tags"})
    ensures "in_parallel" in raw && DecodeCore(c, KInParallel, raw["in_parallel"], raw) == Some(KeptConfig(c, cfg))
  {
    TagsBack(raw, "in_parallel", EncodeInParallel(PrintList(c, cfg.branches), cfg.limit, cfg.failFast), cfg.tags);
    InParallelBack(c, cfg);
  }

  /** The core step reads back from `raw` as what printing keeps of it. */
  ghost predicate ReadsCore(c: Codec, cfg: JsonConfig, raw: map<string, Json>) {
    var k := KindOf(cfg);
    !IsWrapper(k) && c.key(k) in raw && DecodeCore(c, k, raw[c.key(k)], raw) == Some(KeptConfig(c, cfg))
  }

  lemma TryBack(c: Codec, cfg: JsonConfig, raw: map<string, Json>)
    requires Lawful(c) && cfg.Try? && Stable(c, cfg) && AgreeOn(raw, PrintLayer(c, cfg), Known(c, KindOf(cfg)))
    ensures ReadsCore(c, cfg, raw)
  {
    KnownSingle(c, KTry);
    assert "try" in {"try"};
  }

  lemma LeafCoreBack(c: Codec, cfg: JsonConfig, raw: map<string, Json>)
    requires Lawful(c) && cfg.Leaf? && IsLeaf(cfg.leaf.kind) && Stable(c, cfg)
    requires AgreeOn(raw, PrintLayer(c, cfg), Known(c, KindOf(cfg)))
    ensures ReadsCore(c, cfg, raw)
  {
    PrintedLeafKeys(c, cfg.leaf);
    LeafBack(c, cfg.leaf, raw);
  }

  lemma TaggedBack(c: Codec, cfg: JsonConfig, raw: map<string, Json>)
    requires Lawful(c) && (cfg.Do? || cfg.InParallel?) && Stable(c, cfg)
    requires AgreeOn(raw, PrintLayer(c, cfg), Known(c, KindOf(cfg)))
    ensures ReadsCore(c, cfg, raw)
  {
    KnownTagged(c, KindOf(cfg));
    if cfg.Do? { DoBack(c, cfg, raw); } else { BranchesBack(c, cfg, raw); }
  }

  /** A core step reads back from its own fields. */
  lemma CoreBack(c: Codec, cfg: JsonConfig, raw: map<string, Json>)
    requires Lawful(c) && !Wraps(cfg) && (cfg.Leaf? ==> IsLeaf(cfg.leaf.kind)) && Stable(c, cfg)
    requires AgreeOn(raw, PrintLayer(c, cfg), Known(c, KindOf(cfg)))
    ensures ReadsCore(c, cfg, raw)
  {
    if cfg.Leaf? {
      LeafCoreBack(c, cfg, raw);
    } else if cfg.Try? {
      TryBack(c, cfg, raw);
    } else {
      TaggedBack(c, cfg, raw);
    }
  }

  /** Fields merged from disjoint layers come apart again. */
  lemma Apart(raw: map<string, Json>, rest: map<string, Json>, layer: map<string, Json>, inner: map<string, Json>,
              known: set<string>, others: set<string>)
    requires raw == rest + (layer + inner) && layer.Keys <= known && inner.Keys <= others
    requires known !! others && rest.Keys !! known + others
    ensures AgreeOn(raw, layer, known) && raw - known == rest + inner
  {
  }

  /** `raw` holds the printed layers and the fields that were left over. */
  ghost predicate Readable(c: Codec, whole: Json, i: nat, raw: map<string, Json>, cfg: JsonConfig, rest: map<string, Json>) {
    && PartOf(raw, whole) && Chained(cfg, i) && Stable(c, cfg)
    && rest.Keys !! ChainKeys(c, cfg) && KeysGone(c, rest, i, CoreRank(cfg))
    && raw == rest + PrintConfig(c, cfg)
  }

  /** Reading the printed layers with the left-over fields finds what survives of the
      layers and leaves the same fields over. */
  lemma {:induction false} Reread(c: Codec, whole: Json, i: nat, raw: map<string, Json>, wrapped: bool,
                                  cfg: JsonConfig, rest: map<string, Json>)
    requires Lawful(c) && i <= |PRECEDENCE| && Readable(c, whole, i, raw, cfg, rest)
    ensures ParseFrom(c, whole, i, raw, wrapped) == Ok((KeptConfig(c, cfg), rest))
    decreases |PRECEDENCE| - i, 1
  {
    if Rank(KindOf(cfg)) > i {
      RereadLater(c, whole, i, raw, wrapped, cfg, rest);
    } else {
      AtRank(i, KindOf(cfg));
      if Wraps(cfg) {
        RereadWrapped(c, whole, i, raw, wrapped, cfg, rest);
      } else {
        RereadCore(c, whole, i, raw, wrapped, cfg, rest);
      }
    }
  }

  lemma {:induction false} RereadLater(c: Codec, whole: Json, i: nat, raw: map<string, Json>, wrapped: bool,
                                       cfg: JsonConfig, rest: map<string, Json>)
    requires Lawful(c) && i < Rank(KindOf(cfg)) && i < |PRECEDENCE| && Readable(c, whole, i, raw, cfg, rest)
    ensures ParseFrom(c, whole, i, raw, wrapped) == Ok((KeptConfig(c, cfg), rest))
    decreases |PRECEDENCE| - i, 0
  {
    AbsentKey(c, i, raw, cfg, rest);
    Reread(c, whole, i + 1, raw, wrapped, cfg, rest);
    RereadSkip(c, whole, i, raw, wrapped);
  }

  lemma {:induction false} RereadWrapped(c: Codec, whole: Json, i: nat, raw: map<string, Json>, wrapped: bool,
                                         cfg: JsonConfig, rest: map<string, Json>)
    requires Lawful(c) && i < |PRECEDENCE| && PRECEDENCE[i] == KindOf(cfg) && Wraps(cfg)
    requires Readable(c, whole, i, raw, cfg, rest)
    ensures ParseFrom(c, whole, i, raw, wrapped) == Ok((KeptConfig(c, cfg), rest))
    decreases |PRECEDENCE| - i, 0
  {
    LayerApart(c, i, raw, cfg, rest);
    InnerKeys(c, whole, i, raw, cfg, rest);
    Reread(c, whole, i + 1, raw - Known(c, KindOf(cfg)), true, cfg.inner, rest);
    RereadLayer(c, whole, i, raw, wrapped, cfg, rest);
  }

  lemma InnerKeys(c: Codec, whole: Json, i: nat, raw: map<string, Json>, cfg: JsonConfig, rest: map<string, Json>)
    requires PartOf(raw, whole) && i < |PRECEDENCE| && Wraps(cfg) && Stable(c, cfg)
    requires rest.Keys !! ChainKeys(c, cfg) && KeysGone(c, rest, i, CoreRank(cfg))
    ensures PartOf(raw - Known(c, KindOf(cfg)), whole) && Stable(c, cfg.inner)
    ensures rest.Keys !! ChainKeys(c, cfg.inner) && KeysGone(c, rest, i + 1, CoreRank(cfg.inner))
  {
  }

  lemma AbsentKey(c: Codec, i: nat, raw: map<string, Json>, cfg: JsonConfig, rest: map<string, Json>)
    requires Lawful(c) && Chained(cfg, i + 1) && Stable(c, cfg) && i < |PRECEDENCE|
    requires KeysGone(c, rest, i, CoreRank(cfg)) && raw == rest + PrintConfig(c, cfg)
    ensures c.key(PRECEDENCE[i]) !in raw
  {
    LaterKeysApart(c, cfg, i);
    PrintedKeys(c, cfg);
  }

  lemma LayerApart(c: Codec, i: nat, raw: map<string, Json>, cfg: JsonConfig, rest: map<string, Json>)
    requires Lawful(c) && Wraps(cfg) && Chained(cfg, i) && Stable(c, cfg) && i < |PRECEDENCE| && PRECEDENCE[i] == KindOf(cfg)
    requires rest.Keys !! ChainKeys(c, cfg) && raw == rest + PrintConfig(c, cfg)
    ensures Chained(cfg.inner, i + 1)
    ensures AgreeOn(raw, PrintLayer(c, cfg), Known(c, KindOf(cfg)))
    ensures raw - Known(c, KindOf(cfg)) == rest + PrintConfig(c, cfg.inner)
  {
    RankOf(i);
    LaterKeysApart(c, cfg.inner, i);
    PrintedKeys(c, cfg.inner);
    PrintedLayerKeys(c, cfg);
    Apart(raw, rest, PrintLayer(c, cfg), PrintConfig(c, cfg.inner), Known(c, KindOf(cfg)), ChainKeys(c, cfg.inner));
  }

  lemma RereadSkip(c: Codec, whole: Json, i: nat, raw: map<string, Json>, wrapped: bool)
    requires PartOf(raw, whole) && i < |PRECEDENCE| && c.key(PRECEDENCE[i]) !in raw
    ensures ParseFrom(c, whole, i, raw, wrapped) == ParseFrom(c, whole, i + 1, raw, wrapped)
  {
  }

  lemma RereadCore(c: Codec, whole: Json, i: nat, raw: map<string, Json>, wrapped: bool,
                   cfg: JsonConfig, rest: map<string, Json>)
    requires Lawful(c) && PartOf(raw, whole) && i < |PRECEDENCE| && PRECEDENCE[i] == KindOf(cfg)
    requires !Wraps(cfg) && (cfg.Leaf? ==> IsLeaf(cfg.leaf.kind)) && Stable(c, cfg)
    requires rest.Keys !! Known(c, KindOf(cfg)) && raw == rest + PrintLayer(c, cfg)
    ensures ParseFrom(c, whole, i, raw, wrapped) == Ok((KeptConfig(c, cfg), rest))
  {
    CoreApart(c, raw, cfg, rest);
    CoreBack(c, cfg, raw);
  }

  lemma CoreApart(c: Codec, raw: map<string, Json>, cfg: JsonConfig, rest: map<string, Json>)
    requires Lawful(c) && Stable(c, cfg)
    requires rest.Keys !! Known(c, KindOf(cfg)) && raw == rest + PrintLayer(c, cfg)
    ensures AgreeOn(raw, PrintLayer(c, cfg), Known(c, KindOf(cfg))) && raw - Known(c, KindOf(cfg)) == rest
  {
    PrintedLayerKeys(c, cfg);
    ApartAlone(raw, rest, PrintLayer(c, cfg), Known(c, KindOf(cfg)));
  }

  lemma ApartAlone(raw: map<string, Json>, rest: map<string, Json>, layer: map<string, Json>, known: set<string>)
    requires raw == rest + layer && layer.Keys <= known && rest.Keys !! known
    ensures AgreeOn(raw, layer, known) && raw - known == rest
  {
  }

  lemma RereadLayer(c: Codec, whole: Json, i: nat, raw: map<string, Json>, wrapped: bool,
                    cfg: JsonConfig, rest: map<string, Json>)
    requires Lawful(c) && PartOf(raw, whole) && i < |PRECEDENCE| && PRECEDENCE[i] == KindOf(cfg)
    requires Wraps(cfg) && Stable(c, cfg) && AgreeOn(raw, PrintLayer(c, cfg), Known(c, KindOf(cfg)))
    requires ParseFrom(c, whole, i + 1, raw - Known(c, KindOf(cfg)), true) == Ok((KeptConfig(c, cfg.inner), rest))
    ensures ParseFrom(c, whole, i, raw, wrapped) == Ok((KeptConfig(c, cfg), rest))
  {
    LayerBack(c, cfg, raw);
  }

  lemma AtRank(i: nat, k: Kind)
    requires Rank(k) == i
    ensures i < |PRECEDENCE| && PRECEDENCE[i] == k
  {
  }

  // ---- what is read is stable ----

  lemma DecodedLeafStable(c: Codec, k: Kind, raw: map<string, Json>)
    requires Lawful(c) && DecodeLeaf(c, k, raw).Some?
    ensures Stable(c, DecodeLeaf(c, k, raw).value)
  {
    var core := DecodeLeaf(c, k, raw).value.leaf;
    forall f | f in core.fields
      ensures Fits(c.values, SlotOf(k, f), core.fields[f])
    {
      assert DecodeField(c, k, f, raw).Some?;
      DecodedFits(c.values, SlotOf(k, f), if f in raw then raw[f] else Null);
    }
  }

  lemma {:induction false} StableLayer(c: Codec, k: Kind, v: Json, raw: map<string, Json>, inner: JsonConfig)
    requires Lawful(c) && IsWrapper(k) && DecodeLayer(c, k, v, raw).Some? && Stable(c, inner)
    ensures Stable(c, Wrap(DecodeLayer(c, k, v, raw).value, inner))
    decreases v, 4
  {
    if Rank(k) < 5 { Reprint(c, v); }
  }

  lemma {:induction false} StableCore(c: Codec, k: Kind, v: Json, raw: map<string, Json>)
    requires Lawful(c) && !IsWrapper(k) && DecodeCore(c, k, v, raw).Some?
    ensures Stable(c, DecodeCore(c, k, v, raw).value)
    decreases v, 4
  {
    match k
    case KTry => Reprint(c, v);
    case KDo => if v.Arr? { StableList(c, v.elems); }
    case KInParallel =>
      if v.Arr? { StableList(c, v.elems); }
      else if "steps" in v.fields && v.fields["steps"].Arr? { StableList(c, v.fields["steps"].elems); }
    case _ => DecodedLeafStable(c, k, raw);
  }

  lemma {:induction false} StableList(c: Codec, js: seq<Json>)
    requires Lawful(c) && ParseList(c, js).Some?
    ensures ParseList(c, PrintList(c, ParseList(c, js).value)) == Some(KeptList(c, ParseList(c, js).value))
    decreases js, 0
  {
    if js != [] {
      var n := |js| - 1;
      StableList(c, js[..n]);
      Reprint(c, js[n]);
      var steps := ParseList(c, js).value;
      assert steps[..|steps| - 1] == ParseList(c, js[..n]).value;
      var printed := PrintList(c, steps);
      assert printed[..|printed| - 1] == PrintList(c, steps[..|steps| - 1]);
    }
  }

  lemma {:induction false} StableFrom(c: Codec, whole: Json, i: nat, raw: map<string, Json>, wrapped: bool)
    requires Lawful(c) && PartOf(raw, whole) && i <= |PRECEDENCE|
    requires ParseFrom(c, whole, i, raw, wrapped).Ok?
    ensures Stable(c, ParseFrom(c, whole, i, raw, wrapped).value.0)
    decreases whole, 2, |PRECEDENCE| - i
  {
    var k := PRECEDENCE[i];
    if c.key(k) !in raw {
      StableFrom(c, whole, i + 1, raw, wrapped);
    } else if IsWrapper(k) {
      StableFrom(c, whole, i + 1, raw - Known(c, k), true);
      StableLayer(c, k, raw[c.key(k)], raw, ParseFrom(c, whole, i + 1, raw - Known(c, k), true).value.0);
    } else {
      StableCore(c, k, raw[c.key(k)], raw);
    }
  }

  /** Printing a step that was read and reading it again gives what survives of it. */
  lemma {:induction false} Reprint(c: Codec, j: Json)
    requires Lawful(c) && Parse(c, j).Ok?
    ensures var s := Parse(c, j).value; Parse(c, Print(c, s)) == Ok(Kept(c, s))
    decreases j, 3
  {
    var s := Parse(c, j).value;
    StableFrom(c, j, 0, j.fields, false);
    ParsedFrom(c, j, 0, j.fields, false);
    var printed := Print(c, s);
    Reread(c, printed, 0, printed.fields, false, s.config, s.unknown);
  }

  /** It gives the same step exactly if no task config anywhere in it has unknown fields and
      no container limit is lost in a floating-point number. */
  lemma Fixpoint(c: Codec, j: Json)
    requires Lawful(c) && Parse(c, j).Ok?
    ensures Parse(c, Print(c, Parse(c, j).value)) == Parse(c, j) <==> Exact(c, Parse(c, j).value)
  {
    Reprint(c, j);
    KeptIsExact(c, Parse(c, j).value);
  }

  // ---- steps that do not survive ----

  lemma {:induction false} SkipTo(c: Codec, whole: Json, i: nat, k: nat, raw: map<string, Json>)
    requires PartOf(raw, whole) && i <= k <= |PRECEDENCE|
    requires forall j :: i <= j < k ==> c.key(PRECEDENCE[j]) !in raw
    ensures ParseFrom(c, whole, i, raw, false) == ParseFrom(c, whole, k, raw, false)
    decreases k - i
  {
    if i < k {
      RereadSkip(c, whole, i, raw, false);
      SkipTo(c, whole, i + 1, k, raw);
    }
  }

  /** An object that has a task's key and one other field of a task is read as that task. */
  lemma ReadsTask(c: Codec, name: string, field: string, v: Json)
    requires Lawful(c) && field in {"config", "container_limits"}
    requires LeafDecodes(c, KTask, map["task" := Str(name), field := v])
    ensures var raw := map["task" := Str(name), field := v];
            Parse(c, Obj(raw)) == Ok(Step(DecodeLeaf(c, KTask, raw).value, raw - Known(c, KTask)))
  {
    var raw := map["task" := Str(name), field := v];
    forall j | 0 <= j < 8 ensures c.key(PRECEDENCE[j]) !in raw {
      assert Named(c, PRECEDENCE[j]);
      TaskKeysLater(j);
    }
    SkipTo(c, Obj(raw), 0, 8, raw);
    assert Named(c, KTask);
    ReadsTaskAt(c, raw);
  }

  lemma ReadsTaskAt(c: Codec, raw: map<string, Json>)
    requires c.key(KTask) in raw && LeafDecodes(c, KTask, raw)
    ensures ParseFrom(c, Obj(raw), 8, raw, false) == Ok((DecodeLeaf(c, KTask, raw).value, raw - Known(c, KTask)))
  {
    assert PRECEDENCE[8] == KTask;
  }

  lemma TaskKeysLater(j: nat)
    requires j < 8
    ensures Key(PRECEDENCE[j]) !in {"task", "config", "container_limits"}
  {
  }

  lemma TaskField(c: Codec, raw: map<string, Json>, field: string)
    requires Lawful(c) && field in {"config", "container_limits"} && LeafDecodes(c, KTask, raw)
    ensures var fields := DecodeLeaf(c, KTask, raw).value.leaf.fields;
            field in fields && Some(fields[field]) == DecodeField(c, KTask, field, raw)
  {
    assert Named(c, KTask);
    assert field in Others(KTask);
  }

  /** A misspelt field of a task's config is accepted, not printed, and gone when the step
      is read again. */
  lemma TypoIsLost(c: Codec)
    requires var config := Obj(map["platform" := Str("linux"), "run" := Obj(map["path" := Str("x")]), "ouputs" := Arr([])]);
             Lawful(c) && LeafDecodes(c, KTask, map["task" := Str("t"), "config" := config])
    ensures var config := Obj(map["platform" := Str("linux"), "run" := Obj(map["path" := Str("x")]), "ouputs" := Arr([])]);
            var j := Obj(map["task" := Str("t"), "config" := config]);
            Parse(c, j).Ok? && Parse(c, Print(c, Parse(c, j).value)) != Parse(c, j)
  {
    var config := Obj(map["platform" := Str("linux"), "run" := Obj(map["path" := Str("x")]), "ouputs" := Arr([])]);
    var raw := map["task" := Str("t"), "config" := config];
    ReadsTask(c, "t", "config", config);
    TaskField(c, raw, "config");
    assert raw["config"] == config && SlotOf(KTask, "config") == ConfigField;
    var core := DecodeLeaf(c, KTask, raw).value.leaf;
    assert "ouputs" !in CONFIG_FIELDS + {LIMITS};
    assert "ouputs" in core.fields["config"].unknown;
    assert !ExactValue(c.values, core.fields["config"]);
    Fixpoint(c, Obj(raw));
  }

  /** A memory limit written out in full that no floating-point number equals is printed as
      a number and comes back as another one. */
  lemma LargeLimitIsLost(c: Codec, limit: string, n: nat)
    requires var limits := Obj(map["memory" := Str(limit)]);
             Lawful(c) && LeafDecodes(c, KTask, map["task" := Str("t"), "container_limits" := limits])
    requires c.values.memory(limit) == Some(n) && c.values.number(Num(n)) != n
    ensures var j := Obj(map["task" := Str("t"), "container_limits" := Obj(map["memory" := Str(limit)])]);
            Parse(c, j).Ok? && Parse(c, Print(c, Parse(c, j).value)) != Parse(c, j)
  {
    var limits := Obj(map["memory" := Str(limit)]);
    var raw := map["task" := Str("t"), "container_limits" := limits];
    ReadsTask(c, "t", "container_limits", limits);
    TaskField(c, raw, "container_limits");
    assert raw["container_limits"] == limits && SlotOf(KTask, "container_limits") == LimitsField;
    var core := DecodeLeaf(c, KTask, raw).value.leaf;
    assert core.fields["container_limits"] == LimitsOf(Limits(None, Some(n)));
    assert !ExactValue(c.values, core.fields["container_limits"]);
    Fixpoint(c, Obj(raw));
  }

  // ---- where each field goes ----

  /** No field name belongs to two layers. */
  ghost predicate LayersApart(c: Codec, cfg: JsonConfig)
    decreases cfg
  {
    Wraps(cfg) ==> Known(c, KindOf(cfg)) !! ChainKeys(c, cfg.inner) && LayersApart(c, cfg.inner)
  }

  lemma {:induction false} ChainApart(c: Codec, cfg: JsonConfig, i: nat)
    requires Lawful(c) && Chained(cfg, i)
    ensures LayersApart(c, cfg)
    decreases cfg
  {
    if Wraps(cfg) {
      var r := Rank(KindOf(cfg));
      AtRank(r, KindOf(cfg));
      WrapperKind(cfg);
      LaterKeysApart(c, cfg.inner, r);
      ChainApart(c, cfg.inner, r + 1);
    }
  }

  lemma WrapperKind(cfg: JsonConfig)
    ensures Wraps(cfg) ==> IsWrapper(KindOf(cfg))
  {
  }

  /** A step that is read is a strictly increasing chain of modifiers around one core
      step.  Each field of the object goes to exactly one layer or, unchanged, to the
      unknown fields, which hold no key of a step type tried up to the core step. */
  lemma ParsedShape(c: Codec, j: Json)
    requires Lawful(c) && Parse(c, j).Ok?
    ensures var s := Parse(c, j).value;
            && j.Obj? && Chained(s.config, 0) && LayersApart(c, s.config)
            && s.unknown == j.fields - ChainKeys(c, s.config)
            && KeysGone(c, s.unknown, 0, CoreRank(s.config))
  {
    ParsedFrom(c, j, 0, j.fields, false);
    ChainApart(c, Parse(c, j).value.config, 0);
  }

  // ---- why a step is refused ----

  ghost predicate Declares(c: Codec, raw: map<string, Json>, i: nat) {
    exists j: nat :: i <= j < |PRECEDENCE| && c.key(PRECEDENCE[j]) in raw
  }

  ghost predicate DeclaresCore(c: Codec, raw: map<string, Json>, i: nat) {
    exists j: nat :: i <= j < |PRECEDENCE| && !IsWrapper(PRECEDENCE[j]) && c.key(PRECEDENCE[j]) in raw
  }

  lemma DeclaresCoreAfter(c: Codec, raw: map<string, Json>, i: nat)
    requires Lawful(c) && i < |PRECEDENCE| && IsWrapper(PRECEDENCE[i]) && DeclaresCore(c, raw, i)
    ensures DeclaresCore(c, raw - Known(c, PRECEDENCE[i]), i + 1)
  {
    var j: nat :| i <= j < |PRECEDENCE| && !IsWrapper(PRECEDENCE[j]) && c.key(PRECEDENCE[j]) in raw;
    RankOf(i);
    RankOf(j);
    KnownApart(c, PRECEDENCE[i], PRECEDENCE[j]);
    assert c.key(PRECEDENCE[j]) in Known(c, PRECEDENCE[j]);
    assert c.key(PRECEDENCE[j]) in raw - Known(c, PRECEDENCE[i]);
  }

  lemma RefusedLayer(c: Codec, whole: Json, i: nat, raw: map<string, Json>, wrapped: bool)
    requires Lawful(c) && PartOf(raw, whole) && i < |PRECEDENCE|
    requires IsWrapper(PRECEDENCE[i]) && c.key(PRECEDENCE[i]) in raw
    requires var r := ParseFrom(c, whole, i + 1, raw - Known(c, PRECEDENCE[i]), true);
             r != Err(NoStepConfigured) && (r == Err(NoCoreStepDeclared) ==> !DeclaresCore(c, raw - Known(c, PRECEDENCE[i]), i + 1))
    ensures ParseFrom(c, whole, i, raw, wrapped) != Err(NoStepConfigured) && Declares(c, raw, i)
    ensures ParseFrom(c, whole, i, raw, wrapped) == Err(NoCoreStepDeclared) ==> !DeclaresCore(c, raw, i)
  {
    if DeclaresCore(c, raw, i) { DeclaresCoreAfter(c, raw, i); }
  }

  /** What is refused from a place in the table on, and why. */
  ghost predicate RefusedAt(c: Codec, whole: Json, i: nat, raw: map<string, Json>, wrapped: bool)
    requires PartOf(raw, whole) && i <= |PRECEDENCE|
  {
    var r := ParseFrom(c, whole, i, raw, wrapped);
    && (r == Err(NoStepConfigured) <==> !wrapped && !Declares(c, raw, i))
    && (r == Err(NoCoreStepDeclared) ==> !DeclaresCore(c, raw, i))
  }

  lemma RefusedSkip(c: Codec, whole: Json, i: nat, raw: map<string, Json>, wrapped: bool)
    requires PartOf(raw, whole) && i < |PRECEDENCE| && c.key(PRECEDENCE[i]) !in raw
    requires RefusedAt(c, whole, i + 1, raw, wrapped)
    ensures RefusedAt(c, whole, i, raw, wrapped)
  {
    RereadSkip(c, whole, i, raw, wrapped);
  }

  lemma RefusedCore(c: Codec, whole: Json, i: nat, raw: map<string, Json>, wrapped: bool)
    requires PartOf(raw, whole) && i < |PRECEDENCE| && c.key(PRECEDENCE[i]) in raw && !IsWrapper(PRECEDENCE[i])
    ensures RefusedAt(c, whole, i, raw, wrapped)
  {
  }

  lemma {:induction false} RefusedFrom(c: Codec, whole: Json, i: nat, raw: map<string, Json>, wrapped: bool)
    requires Lawful(c) && PartOf(raw, whole) && i <= |PRECEDENCE|
    ensures RefusedAt(c, whole, i, raw, wrapped)
    decreases |PRECEDENCE| - i
  {
    if i < |PRECEDENCE| {
      var k := PRECEDENCE[i];
      if c.key(k) !in raw {
        RefusedFrom(c, whole, i + 1, raw, wrapped);
        RefusedSkip(c, whole, i, raw, wrapped);
      } else if IsWrapper(k) {
        RefusedFrom(c, whole, i + 1, raw - Known(c, k), true);
        RefusedLayer(c, whole, i, raw, wrapped);
      } else {
        RefusedCore(c, whole, i, raw, wrapped);
      }
    }
  }

  /** An object is refused for configuring no step exactly when it has the key of no step
      type, and for declaring no core step only if it has the key of none. */
  lemma Refused(c: Codec, fields: map<string, Json>)
    requires Lawful(c)
    ensures Parse(c, Obj(fields)) == Err(NoStepConfigured) <==> !Declares(c, fields, 0)
    ensures Parse(c, Obj(fields)) == Err(NoCoreStepDeclared) ==> Declares(c, fields, 0) && !DeclaresCore(c, fields, 0)
  {
    RefusedFrom(c, Obj(fields), 0, fields, false);
  }

  // ---- the loops ----

  method DeleteKnownFields(c: Codec, raw: map<string, Json>, k: Kind) returns (rest: map<string, Json>)
    ensures rest == raw - Known(c, k)
  {
    rest := raw - {c.key(k)};
    var names := c.others(k);
    for i := 0 to |names|
      invariant rest == raw - ({c.key(k)} + ToSet(names[..i]))
    {
      rest := rest - {names[i]};
      assert ToSet(names[..i + 1]) == ToSet(names[..i]) + {names[i]};
    }
    assert names[..|names|] == names;
  }

  /** The layers around `core`, outermost first. */
  function WrapAll(layers: seq<Layer>, core: JsonConfig): JsonConfig {
    if layers == [] then core else WrapAll(layers[..|layers| - 1], Wrap(layers[|layers| - 1], core))
  }

  ghost function Rewrap(layers: seq<Layer>, r: Result<(JsonConfig, map<string, Json>), Error>)
    : Result<(JsonConfig, map<string, Json>), Error>
  {
    match r
    case Err(e) => Err(e)
    case Ok((core, rest)) => Ok((WrapAll(layers, core), rest))
  }

  lemma RewrapSnoc(layers: seq<Layer>, l: Layer, core: JsonConfig)
    ensures WrapAll(layers + [l], core) == WrapAll(layers, Wrap(l, core))
  {
    assert (layers + [l])[..|layers|] == layers;
  }

  method UnmarshalJSON(c: Codec, j: Json) returns (r: Result<JsonStep, Error>)
    ensures r == Parse(c, j)
  {
    if j.Null? { return Err(NoStepConfigured); }
    if !j.Obj? { return Err(NotAnObject); }
    var raw := j.fields;
    var layers: seq<Layer> := [];
    var i := 0;
    while i < |PRECEDENCE|
      invariant 0 <= i <= |PRECEDENCE| && PartOf(raw, j)
      invariant ParseFrom(c, j, 0, j.fields, false) == Rewrap(layers, ParseFrom(c, j, i, raw, layers != []))
    {
      var k := PRECEDENCE[i];
      if c.key(k) in raw {
        var rest := DeleteKnownFields(c, raw, k);
        if IsWrapper(k) {
          var layer := DecodeLayer(c, k, raw[c.key(k)], raw);
          if layer.None? { return Err(Malformed(c.key(k))); }
          ghost var deeper := ParseFrom(c, j, i + 1, rest, true);
          if deeper.Ok? { RewrapSnoc(layers, layer.value, deeper.value.0); }
          layers, raw := layers + [layer.value], rest;
        } else {
          var core := DecodeCore(c, k, raw[c.key(k)], raw);
          if core.None? { return Err(Malformed(c.key(k))); }
          return Ok(Step(WrapAll(layers, core.value), rest));
        }
      }
      i := i + 1;
    }
    return Err(if layers == [] then NoStepConfigured else NoCoreStepDeclared);
  }

  method MarshalJSON(c: Codec, s: JsonStep) returns (j: Json)
    ensures j == Print(c, s)
  {
    var fields, unwrapped := s.unknown + PrintLayer(c, s.config), s.config;
    while Wraps(unwrapped)
      invariant Print(c, s) == Obj(if Wraps(unwrapped) then fields + PrintConfig(c, unwrapped.inner) else fields)
      decreases unwrapped
    {
      unwrapped := unwrapped.inner;
      Merged(c, fields, unwrapped);
      fields := fields + PrintLayer(c, unwrapped);
    }
    j := Obj(fields);
  }

  lemma Merged(c: Codec, fields: map<string, Json>, cfg: JsonConfig)
    ensures fields + PrintConfig(c, cfg)
         == if Wraps(cfg) then (fields + PrintLayer(c, cfg)) + PrintConfig(c, cfg.inner) else fields + PrintLayer(c, cfg)
  {
  }
}
