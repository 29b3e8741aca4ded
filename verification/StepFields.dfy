/** The decoded fields of leaf steps (atc/steps.go, atc/task.go, atc/container_limits.go).

    Reading a field and writing its value need not be inverse to each other: a task's
    config remembers fields it does not write, and container limits are read through a
    floating-point number.  What survives is spelled out here; all other fields are left to
    a codec that reads back what it writes. */
module StepFields {
  import opened Wrappers
  import opened Steps

  /** The step types, in the order StepPrecedence tries them. */
  datatype Kind =
    | KEnsure | KOnError | KOnAbort | KOnFailure | KOnSuccess | KAcross | KAttempts
    | KRun | KTask | KPut | KGet | KTimeout | KSetPipeline | KLoadVar | KTry | KDo | KInParallel

  /** A field of a leaf step by how it is decoded. */
  datatype Slot = PlainField(kind: Kind, name: string) | LimitsField | ConfigField

  function SlotOf(k: Kind, f: string): Slot {
    if (k.KTask? || k.KRun?) && f == "container_limits" then LimitsField
    else if k.KTask? && f == "config" then ConfigField
    else PlainField(k, f)
  }

  datatype Limits = Limits(cpu: Option<nat>, memory: Option<nat>)

  /** A decoded value; different values of a plain field have different tokens.  A task's
      config keeps the fields it does not know, which are never written. */
  datatype Value =
    | Absent
    | Plain(token: int)
    | LimitsOf(limits: Limits)
    | ConfigOf(token: int, configLimits: Option<Limits>, unknown: map<string, Json>)

  /** How values are read and written.  `number` is what reading a JSON number through a
      floating-point number gives, `memory` what a limit with a unit means. */
  datatype FieldCodec = FieldCodec(
    decode: (Slot, Json) -> Option<int>, encode: (Slot, int) -> Json, zero: Slot -> int,
    number: Json -> nat, memory: string -> Option<nat>)

  /** The JSON names of a task config's fields besides its container limits. */
  const CONFIG_FIELDS: set<string> :=
    {"platform", "rootfs_uri", "image_resource", "params", "run", "inputs", "outputs", "caches"}

  const LIMITS := "container_limits"

  // ---- reading ----

  function DecodeCpu(c: FieldCodec, j: Json): Option<Option<nat>> {
    match j
    case Null => Some(None)
    case Num(_) => Some(Some(c.number(j)))
    case Frac(_) => Some(Some(c.number(j)))
    case _ => None
  }

  /** A value that is neither a number nor a string is taken for 0. */
  function DecodeMemory(c: FieldCodec, j: Json): Option<Option<nat>> {
    match j
    case Null => Some(None)
    case Num(_) => Some(Some(c.number(j)))
    case Frac(_) => Some(Some(c.number(j)))
    case Str(s) => (match c.memory(s) case None => None case Some(n) => Some(Some(n)))
    case _ => Some(Some(0))
  }

  function DecodeLimits(c: FieldCodec, j: Json): Option<Option<Limits>> {
    match j
    case Null => Some(None)
    case Obj(f) =>
      var cpu := if "cpu" in f then DecodeCpu(c, f["cpu"]) else Some(None);
      var memory := if "memory" in f then DecodeMemory(c, f["memory"]) else Some(None);
      if cpu.None? || memory.None? then None else Some(Some(Limits(cpu.value, memory.value)))
    case _ => None
  }

  function Only(f: map<string, Json>, names: set<string>): map<string, Json> {
    map k | k in f && k in names :: f[k]
  }

  /** TaskConfig.UnmarshalJSON */
  function DecodeConfig(c: FieldCodec, j: Json): Option<Value> {
    match j
    case Null => Some(Absent)
    case Obj(f) =>
      var limits := if LIMITS in f then DecodeLimits(c, f[LIMITS]) else Some(None);
      var token := c.decode(ConfigField, Obj(Only(f, CONFIG_FIELDS)));
      if limits.None? || token.None? then None
      else Some(ConfigOf(token.value, limits.value, f - (CONFIG_FIELDS + {LIMITS})))
    case _ => None
  }

  function DecodeValue(c: FieldCodec, s: Slot, j: Json): Option<Value> {
    match s
    case PlainField(_, _) => (match c.decode(s, j) case None => None case Some(t) => Some(Plain(t)))
    case LimitsField =>
      (match DecodeLimits(c, j)
       case None => None
       case Some(None) => Some(Absent)
       case Some(Some(l)) => Some(LimitsOf(l)))
    case ConfigField => DecodeConfig(c, j)
  }

  function Zero(c: FieldCodec, s: Slot): Value {
    if s.PlainField? then Plain(c.zero(s)) else Absent
  }

  // ---- writing ----

  function EncodeNumber(name: string, n: Option<nat>): map<string, Json> {
    if n.None? then map[] else map[name := Num(n.value)]
  }

  function EncodeLimits(l: Limits): Json {
    Obj(EncodeNumber("cpu", l.cpu) + EncodeNumber("memory", l.memory))
  }

  function ConfigFields(c: FieldCodec, token: int): map<string, Json> {
    match c.encode(ConfigField, token) case Obj(f) => f case _ => map[]
  }

  function EncodeValue(c: FieldCodec, s: Slot, v: Value): Json {
    match v
    case Absent => Null
    case Plain(t) => c.encode(s, t)
    case LimitsOf(l) => EncodeLimits(l)
    case ConfigOf(t, limits, _) =>
      Obj(ConfigFields(c, t) + if limits.None? then map[] else map[LIMITS := EncodeLimits(limits.value)])
  }

  // ---- laws ----

  /** The token is read back from what it is written as. */
  ghost predicate ReadsBack(c: FieldCodec, s: Slot, t: int) {
    && c.decode(s, c.encode(s, t)) == Some(t)
    && (s.ConfigField? ==> c.encode(s, t).Obj? && c.encode(s, t).fields.Keys <= CONFIG_FIELDS)
  }

  /** Whatever plain decoding gives is read back, and so are zero values. */
  ghost predicate LawfulFields(c: FieldCodec) {
    && (forall s, j :: c.decode(s, j).Some? ==> ReadsBack(c, s, c.decode(s, j).value))
    && (forall s: Slot :: s.PlainField? ==> ReadsBack(c, s, c.zero(s)))
  }

  /** A value the slot can hold. */
  ghost predicate Fits(c: FieldCodec, s: Slot, v: Value) {
    match s
    case PlainField(_, _) => v.Plain? && ReadsBack(c, s, v.token)
    case LimitsField => v.Absent? || v.LimitsOf?
    case ConfigField => v.Absent? || (v.ConfigOf? && ReadsBack(c, s, v.token))
  }

  lemma DecodedFits(c: FieldCodec, s: Slot, j: Json)
    requires LawfulFields(c)
    ensures DecodeValue(c, s, j).Some? ==> Fits(c, s, DecodeValue(c, s, j).value)
    ensures Fits(c, s, Zero(c, s))
  {
  }

  // ---- what survives ----

  function KeptNumber(c: FieldCodec, n: Option<nat>): Option<nat> {
    if n.None? then None else Some(c.number(Num(n.value)))
  }

  function KeptLimits(c: FieldCodec, l: Limits): Limits {
    Limits(KeptNumber(c, l.cpu), KeptNumber(c, l.memory))
  }

  /** The value as it is after being written and read again. */
  function KeptValue(c: FieldCodec, v: Value): Value {
    match v
    case Absent => v
    case Plain(_) => v
    case LimitsOf(l) => LimitsOf(KeptLimits(c, l))
    case ConfigOf(t, limits, _) =>
      ConfigOf(t, if limits.None? then None else Some(KeptLimits(c, limits.value)), map[])
  }

  predicate ExactNumber(c: FieldCodec, n: Option<nat>) {
    n.Some? ==> c.number(Num(n.value)) == n.value
  }

  predicate ExactLimits(c: FieldCodec, l: Limits) {
    ExactNumber(c, l.cpu) && ExactNumber(c, l.memory)
  }

  /** Every limit is a number that reading a JSON number gives back, and a task config has
      no unknown fields. */
  predicate ExactValue(c: FieldCodec, v: Value) {
    match v
    case Absent => true
    case Plain(_) => true
    case LimitsOf(l) => ExactLimits(c, l)
    case ConfigOf(_, limits, unknown) => unknown == map[] && (limits.Some? ==> ExactLimits(c, limits.value))
  }

  /** Exactly the exact values survive unchanged. */
  lemma KeptExact(c: FieldCodec, v: Value)
    ensures KeptValue(c, v) == v <==> ExactValue(c, v)
  {
  }

  lemma LimitsBack(c: FieldCodec, l: Limits)
    ensures DecodeLimits(c, EncodeLimits(l)) == Some(Some(KeptLimits(c, l)))
  {
    var f := EncodeLimits(l).fields;
    assert "cpu" != "memory";
    assert "cpu" in f <==> l.cpu.Some?;
    assert "memory" in f <==> l.memory.Some?;
  }

  lemma ConfigBack(c: FieldCodec, t: int, limits: Option<Limits>, unknown: map<string, Json>)
    requires ReadsBack(c, ConfigField, t)
    ensures var v := ConfigOf(t, limits, unknown);
            DecodeConfig(c, EncodeValue(c, ConfigField, v)) == Some(KeptValue(c, v))
  {
    var known := ConfigFields(c, t);
    var extra: map<string, Json> := if limits.None? then map[] else map[LIMITS := EncodeLimits(limits.value)];
    assert LIMITS !in CONFIG_FIELDS;
    assert Only(known + extra, CONFIG_FIELDS) == known;
    assert (known + extra) - (CONFIG_FIELDS + {LIMITS}) == map[];
    if limits.Some? { LimitsBack(c, limits.value); }
  }

  /** Writing a value and reading it again gives what survives of it. */
  lemma ValueBack(c: FieldCodec, s: Slot, v: Value)
    requires Fits(c, s, v)
    ensures DecodeValue(c, s, EncodeValue(c, s, v)) == Some(KeptValue(c, v))
  {
    match v
    case Absent =>
    case Plain(_) =>
    case LimitsOf(l) => LimitsBack(c, l);
    case ConfigOf(t, limits, unknown) => ConfigBack(c, t, limits, unknown);
  }
}
