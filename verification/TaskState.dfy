/** The backend-neutral task contract: states, the transition table, artifact references,
    task capsules and context deltas, with the check each backend makes on a delta. */
module TaskState {
  import opened Utf16
  import opened Wrappers
  import opened KeySort
  import opened Json

  datatype State =
    | SUBMITTED | COMPILING_CONTEXT | WORKING | INPUT_REQUIRED | VERIFYING | ADOPTING
    | COMPLETED | FAILED | CANCELED

  predicate Terminal(s: State) { s == COMPLETED || s == FAILED || s == CANCELED }

  /** The table `TRANSITIONS`. */
  function Successors(s: State): set<State> {
    match s
    case SUBMITTED => {COMPILING_CONTEXT, FAILED, CANCELED}
    case COMPILING_CONTEXT => {WORKING, FAILED, CANCELED}
    case WORKING => {INPUT_REQUIRED, VERIFYING, FAILED, CANCELED}
    case INPUT_REQUIRED => {WORKING, FAILED, CANCELED}
    case VERIFYING => {ADOPTING, FAILED, CANCELED}
    case ADOPTING => {COMPLETED, FAILED, CANCELED}
    case _ => {}
  }

  const MAX_SAFE_INTEGER: int := 0x1F_FFFF_FFFF_FFFF

  predicate LowerHex(u: Unit) { 48 <= u <= 57 || 97 <= u <= 102 }

  /** `/^sha256:[0-9a-f]{64}$/`. */
  predicate IsDigest(t: Text) {
    |t| == 71 && t[..7] == Lit("sha256:") && forall i :: 7 <= i < 71 ==> LowerHex(t[i])
  }

  /** `requireString(value, path, max)`: a non-empty string of at most `max` code units. */
  predicate BoundedString(v: Option<Json>, max: nat) {
    v.Some? && v.value.Str? && 0 < |v.value.s| <= max
  }

  predicate NonEmptyString(v: Option<Json>) {
    v.Some? && v.value.Str? && v.value.s != []
  }

  predicate DigestString(v: Option<Json>) {
    v.Some? && v.value.Str? && IsDigest(v.value.s)
  }

  /** `/^sha256:[0-9a-f]{64}$/.test(v)`, which makes a string of `v` first. */
  predicate TestsAsDigest(v: Json) { IsDigest(AsString(v)) }

  /** A digest, or a digest wrapped in arrays of one element. */
  predicate WrappedDigest(v: Json) {
    match v
    case Str(s) => IsDigest(s)
    case Arr(items) => |items| == 1 && WrappedDigest(items[0])
    case _ => false
  }

  lemma DigestUnits(t: Text)
    requires IsDigest(t)
    ensures t[0] == 115 && COMMA !in t && |t| == 71
  {
    assert t[..7][0] == t[0];
    forall i | 0 <= i < |t| ensures t[i] != COMMA {
      if i < 7 { assert t[..7][i] == t[i]; }
    }
  }

  /** The test lets through exactly the digests and the digests wrapped in arrays. */
  lemma {:induction false} TestsExactly(v: Json)
    requires WF(v)
    ensures TestsAsDigest(v) <==> WrappedDigest(v)
    decreases v
  {
    hide IsDigest;
    if IsDigest(AsString(v)) { DigestUnits(AsString(v)); }
    match v
    case Num(n) => NumberStart(n);
    case Arr(items) =>
      if |items| == 1 {
        assert AsStrings(items)[0] == if items[0].Null? then [] else AsString(items[0]);
        TestsExactly(items[0]);
        if IsDigest([]) { DigestUnits([]); }
      }
    case _ =>
  }

  lemma NumberStart(n: int)
    ensures Decimal(n)[0] != 115
  {
  }

  /** `validateArtifactRef` does not throw. */
  predicate ValidArtifactRef(v: Option<Json>) {
    v.Some? && v.value.Obj? &&
    var ref := v.value;
    BoundedString(Get(ref, Lit("media_type")), 256) &&
    BoundedString(Get(ref, Lit("digest")), 128) &&
    DigestString(Get(ref, Lit("digest"))) &&
    (var size := Get(ref, Lit("size")); size.Some? && size.value.Num? && 0 <= size.value.n <= MAX_SAFE_INTEGER) &&
    BoundedString(Get(ref, Lit("uri")), 4096)
  }

  /** `validateTaskCapsule` does not throw. */
  predicate ValidTaskCapsule(task: Json) {
    task.Obj? &&
    Get(task, Lit("schema")) == Some(Str(Lit("akashic.task-capsule/v1"))) &&
    BoundedString(Get(task, Lit("task_id")), 256) &&
    BoundedString(Get(task, Lit("context_id")), 256) &&
    BoundedString(Get(task, Lit("logical_attempt_id")), 256) &&
    BoundedString(Get(task, Lit("goal")), 16000) &&
    (var a := Get(task, Lit("acceptance"));
     a.Some? && a.value.Arr? && 0 < |a.value.items| <= 64 &&
     forall i :: 0 <= i < |a.value.items| ==> BoundedString(Some(a.value.items[i]), 2048)) &&
    (var c := Get(task, Lit("context_refs"));
     c.Some? ==> c.value.Arr? && forall i :: 0 <= i < |c.value.items| ==> ValidArtifactRef(Some(c.value.items[i]))) &&
    (var h := Get(task, Lit("execution_hash")); h.Some? ==> TestsAsDigest(h.value))
  }

  /** Temporal's `assertTask` does not throw. */
  predicate AssertedTask(task: Json) {
    task.Obj? &&
    NonEmptyString(Get(task, Lit("task_id"))) &&
    NonEmptyString(Get(task, Lit("context_id"))) &&
    NonEmptyString(Get(task, Lit("logical_attempt_id"))) &&
    NonEmptyString(Get(task, Lit("goal"))) &&
    NonEmptyString(Get(task, Lit("execution_hash"))) &&
    (var a := Get(task, Lit("acceptance")); a.Some? && a.value.Arr? && a.value.items != [])
  }

  function StringField(v: Json, key: Text): Text
    requires NonEmptyString(Get(v, key))
  {
    Get(v, key).value.s
  }

  /** `a === b` on values that may be missing: two objects or arrays are never the same one. */
  predicate StrictlyEqual(a: Option<Json>, b: Option<Json>) {
    a == b && !(a.Some? && (a.value.Arr? || a.value.Obj?))
  }

  /** Two values are strictly equal when they are the same string, number, truth value, `null` or
      nothing; an object or an array read twice never is. */
  lemma StrictlyEqualExactly(a: Option<Json>, b: Option<Json>)
    ensures StrictlyEqual(a, b) <==>
            match a
            case None => b == None
            case Some(Str(s)) => b == Some(Str(s))
            case Some(Num(n)) => b == Some(Num(n))
            case Some(Frac(t)) => b == Some(Frac(t))
            case Some(Bool(x)) => b == Some(Bool(x))
            case Some(Null) => b == Some(Null)
            case Some(Arr(_)) => false
            case Some(Obj(_)) => false
  {
  }

  /** The part of a snapshot that the delta checks read. */
  datatype DeltaContext = DeltaContext(
    state: State, taskId: Text, attemptId: Text, need: Option<Json>, contextSeq: nat, applied: seq<Text>)

  function RequestId(need: Option<Json>): Option<Json> {
    if need.Some? then Get(need.value, Lit("request_id")) else None
  }

  /** The checks both backends make: identity, the request that is open, the sequence number. */
  predicate DeltaMatches(c: DeltaContext, delta: Json) {
    c.state == INPUT_REQUIRED &&
    StrictlyEqual(Get(delta, Lit("task_id")), Some(Str(c.taskId))) &&
    StrictlyEqual(Get(delta, Lit("logical_attempt_id")), Some(Str(c.attemptId))) &&
    StrictlyEqual(Get(delta, Lit("request_id")), RequestId(c.need)) &&
    StrictlyEqual(Get(delta, Lit("expected_seq")), Some(Num(c.contextSeq)))
  }

  predicate AlreadyApplied(c: DeltaContext, delta: Json) {
    var id := Get(delta, Lit("delta_id"));
    id.Some? && id.value.Str? && id.value.s in c.applied
  }

  datatype DeltaError =
    | INVALID_DELTA | NOT_INPUT_REQUIRED | INVALID_FIELD | TASK_MISMATCH | ATTEMPT_MISMATCH
    | REQUEST_MISMATCH | STALE_SEQUENCE | DUPLICATE_DELTA | INVALID_ARTIFACT_REF

  /** `validateContextDelta`, check by check; `None` means the delta is accepted. */
  function ValidateContextDelta(c: DeltaContext, delta: Json): Option<DeltaError> {
    if Falsy(delta) then Some(INVALID_DELTA)
    else if c.state != INPUT_REQUIRED then Some(NOT_INPUT_REQUIRED)
    else if !(BoundedString(Get(delta, Lit("delta_id")), 256) &&
              BoundedString(Get(delta, Lit("task_id")), 256) &&
              BoundedString(Get(delta, Lit("request_id")), 256) &&
              BoundedString(Get(delta, Lit("logical_attempt_id")), 256)) then Some(INVALID_FIELD)
    else if Get(delta, Lit("task_id")) != Some(Str(c.taskId)) then Some(TASK_MISMATCH)
    else if Get(delta, Lit("logical_attempt_id")) != Some(Str(c.attemptId)) then Some(ATTEMPT_MISMATCH)
    else if !StrictlyEqual(RequestId(c.need), Get(delta, Lit("request_id"))) then Some(REQUEST_MISMATCH)
    else if !StrictlyEqual(Some(Num(c.contextSeq)), Get(delta, Lit("expected_seq"))) then Some(STALE_SEQUENCE)
    else if AlreadyApplied(c, delta) then Some(DUPLICATE_DELTA)
    else if !ValidArtifactRef(Get(delta, Lit("delta_ref"))) then Some(INVALID_ARTIFACT_REF)
    else None
  }

  /** `!delta`. */
  predicate Falsy(v: Json) {
    v == Null || v == Bool(false) || v == Num(0) || v == Str([])
  }

  /** Temporal's `assertDeltaAllowed`, check by check. */
  function AssertDeltaAllowed(c: DeltaContext, delta: Json): Option<DeltaError> {
    if c.state != INPUT_REQUIRED then Some(NOT_INPUT_REQUIRED)
    else if !(delta.Obj? || delta.Arr?) then Some(INVALID_DELTA)
    else if !StrictlyEqual(Get(delta, Lit("task_id")), Some(Str(c.taskId))) then Some(TASK_MISMATCH)
    else if !StrictlyEqual(Get(delta, Lit("logical_attempt_id")), Some(Str(c.attemptId))) then Some(ATTEMPT_MISMATCH)
    else if !StrictlyEqual(Get(delta, Lit("request_id")), RequestId(c.need)) then Some(REQUEST_MISMATCH)
    else if !StrictlyEqual(Get(delta, Lit("expected_seq")), Some(Num(c.contextSeq))) then Some(STALE_SEQUENCE)
    else if AlreadyApplied(c, delta) then Some(DUPLICATE_DELTA)
    else if !NonEmptyString(Get(delta, Lit("delta_id"))) then Some(INVALID_FIELD)
    else if !TestsAsDigest(OrEmpty(RefField(delta, Lit("digest")))) then Some(INVALID_ARTIFACT_REF)
    else if !NonEmptyString(RefField(delta, Lit("uri"))) then Some(INVALID_ARTIFACT_REF)
    else None
  }

  /** The id under which a backend records an accepted delta; `None` when its check throws. */
  function Allowed(check: Option<DeltaError>, delta: Json): Option<Text> {
    if check.None? && NonEmptyString(Get(delta, Lit("delta_id")))
    then Some(StringField(delta, Lit("delta_id"))) else None
  }

  /** `delta.delta_ref?.key`. */
  function RefField(delta: Json, key: Text): Option<Json> {
    var ref := Get(delta, Lit("delta_ref"));
    if ref.Some? then Get(ref.value, key) else None
  }

  /** `v ?? ""`. */
  function OrEmpty(v: Option<Json>): Json {
    if v.None? || v.value.Null? then Str([]) else v.value
  }

  /** What the contracts validator asks for beyond Temporal's check. */
  predicate StricterDelta(delta: Json) {
    BoundedString(Get(delta, Lit("delta_id")), 256) &&
    BoundedString(Get(delta, Lit("task_id")), 256) &&
    BoundedString(Get(delta, Lit("request_id")), 256) &&
    BoundedString(Get(delta, Lit("logical_attempt_id")), 256) &&
    ValidArtifactRef(Get(delta, Lit("delta_ref")))
  }

  /** What Temporal asks of the delta itself. */
  predicate PlainDelta(delta: Json) {
    NonEmptyString(Get(delta, Lit("delta_id"))) &&
    TestsAsDigest(OrEmpty(RefField(delta, Lit("digest")))) &&
    NonEmptyString(RefField(delta, Lit("uri")))
  }

  /** The contracts validator accepts exactly the deltas that match the snapshot, are new,
      keep its length bounds and carry a complete artifact reference. */
  lemma ValidateExactly(c: DeltaContext, delta: Json)
    ensures ValidateContextDelta(c, delta).None? <==>
            DeltaMatches(c, delta) && !AlreadyApplied(c, delta) && StricterDelta(delta)
  {
    hide Lookup, ValidArtifactRef, AlreadyApplied, Lit;
  }

  /** Which error the contracts validator throws first: before the state comes whether there is a
      delta, before the comparisons the four ids, and last the reference. */
  lemma VerdictExactly(c: DeltaContext, delta: Json)
    ensures var r := ValidateContextDelta(c, delta);
            var ids := BoundedString(Get(delta, Lit("delta_id")), 256) && BoundedString(Get(delta, Lit("task_id")), 256) &&
                       BoundedString(Get(delta, Lit("request_id")), 256) && BoundedString(Get(delta, Lit("logical_attempt_id")), 256);
            (r == Some(INVALID_DELTA) <==> delta == Null || delta == Bool(false) || delta == Num(0) || delta == Str([])) &&
            (c.state != INPUT_REQUIRED ==> r == Some(INVALID_DELTA) || r == Some(NOT_INPUT_REQUIRED)) &&
            (r == Some(NOT_INPUT_REQUIRED) ==> c.state != INPUT_REQUIRED) &&
            (delta.Obj? && c.state == INPUT_REQUIRED ==>
               (r == Some(INVALID_FIELD) <==> !ids) &&
               (r == Some(TASK_MISMATCH) <==> ids && Get(delta, Lit("task_id")) != Some(Str(c.taskId))) &&
               (r == None || r == Some(INVALID_ARTIFACT_REF) <==> DeltaMatches(c, delta) && !AlreadyApplied(c, delta) && ids) &&
               (r == Some(DUPLICATE_DELTA) <==> DeltaMatches(c, delta) && AlreadyApplied(c, delta) && ids) &&
               (r == Some(STALE_SEQUENCE) ==> Get(delta, Lit("expected_seq")) != Some(Num(c.contextSeq)) &&
                                              Get(delta, Lit("request_id")) == RequestId(c.need)) &&
               (r == Some(REQUEST_MISMATCH) ==> Get(delta, Lit("request_id")) != RequestId(c.need)) &&
               (r == Some(ATTEMPT_MISMATCH) ==> Get(delta, Lit("logical_attempt_id")) != Some(Str(c.attemptId))))
  {
    hide Lookup, ValidArtifactRef, AlreadyApplied, Lit;
  }

  /** Temporal's check accepts exactly the deltas that match the snapshot, are new and plain. */
  lemma AssertExactly(c: DeltaContext, delta: Json)
    ensures AssertDeltaAllowed(c, delta).None? <==>
            DeltaMatches(c, delta) && !AlreadyApplied(c, delta) && PlainDelta(delta)
  {
    hide Lookup, AlreadyApplied, RefField, TestsAsDigest, Lit;
  }

  lemma StricterIsPlain(delta: Json)
    ensures StricterDelta(delta) ==> PlainDelta(delta)
  {
    hide Lookup, IsDigest, Lit;
  }

  lemma NewDelta(c: DeltaContext, delta: Json)
    requires NonEmptyString(Get(delta, Lit("delta_id"))) && !AlreadyApplied(c, delta)
    ensures StringField(delta, Lit("delta_id")) !in c.applied
  {
    hide Lookup, Lit;
  }

  /** What an accepted delta has shown, on either backend. */
  lemma AllowedDelta(c: DeltaContext, delta: Json)
    ensures ValidateContextDelta(c, delta).None? ==> AssertDeltaAllowed(c, delta).None?
    ensures AssertDeltaAllowed(c, delta).None? ==>
              DeltaMatches(c, delta) && NonEmptyString(Get(delta, Lit("delta_id"))) &&
              StringField(delta, Lit("delta_id")) !in c.applied
  {
    DeltaChecksCompared(c, delta);
    AssertExactly(c, delta);
    if AssertDeltaAllowed(c, delta).None? { NewDelta(c, delta); }
    hide ValidateContextDelta, AssertDeltaAllowed, DeltaMatches, AlreadyApplied, StricterDelta, Get, Lit;
  }

  /** The contracts validator accepts exactly those deltas that Temporal accepts and that
      keep its length bounds and carry a complete artifact reference. */
  lemma DeltaChecksCompared(c: DeltaContext, delta: Json)
    ensures ValidateContextDelta(c, delta).None? <==>
            AssertDeltaAllowed(c, delta).None? && StricterDelta(delta)
  {
    ValidateExactly(c, delta);
    AssertExactly(c, delta);
    StricterIsPlain(delta);
    hide ValidateContextDelta, AssertDeltaAllowed, DeltaMatches, AlreadyApplied, StricterDelta, PlainDelta;
  }

  /** A valid capsule is accepted by Temporal's `assertTask` exactly when its execution hash is a
      string: the validator also takes one in an array, or none. */
  lemma CapsuleIsAsserted(task: Json)
    requires ValidTaskCapsule(task)
    ensures AssertedTask(task) <==>
            var h := Get(task, Lit("execution_hash")); h.Some? && h.value.Str?
  {
    hide IsDigest, Lookup, Lit;
    var h := Get(task, Lit("execution_hash"));
    if h.Some? && h.value.Str? { DigestUnits(h.value.s); }
  }

  // ----- The shapes of references and capsules -----

  /** `sha256:` and 64 of the characters `0` to `9` and `a` to `f`. */
  lemma DigestExactly(t: Text)
    ensures IsDigest(t) <==>
            exists hex: Text :: t == Lit("sha256:") + hex && |hex| == 64 &&
                                forall i :: 0 <= i < 64 ==> hex[i] in Lit("0123456789abcdef")
  {
    HexCharacters();
    hide LowerHex;
    var p := Lit("sha256:");
    hide Lit;
    if IsDigest(t) {
      assert t == p + t[7..];
      forall i | 0 <= i < 64 ensures LowerHex(t[7..][i]) { assert t[7..][i] == t[i + 7]; }
    }
    if hex: Text :| t == p + hex && |hex| == 64 && forall i :: 0 <= i < 64 ==> hex[i] in Lit("0123456789abcdef") {
      assert t[..7] == p;
      forall i | 7 <= i < 71 ensures LowerHex(t[i]) { assert t[i] == hex[i - 7]; }
    }
  }

  lemma HexCharacters()
    ensures forall u: Unit :: LowerHex(u) <==> u in Lit("0123456789abcdef")
  {
    var t := Lit("0123456789abcdef");
    assert |t| == 16;
    forall u: Unit | LowerHex(u) ensures u in t {
      assert u == t[if u <= 57 then u - 48 else u - 87];
    }
  }

  /** The property is a string of 1 to `max` code units. */
  predicate Short(v: Json, key: string, max: nat) {
    match Get(v, Lit(key)) case Some(Str(s)) => 1 <= |s| <= max case _ => false
  }

  lemma ArtifactRefExactly(v: Option<Json>)
    ensures ValidArtifactRef(v) <==>
            match v
            case Some(Obj(members)) =>
              Short(v.value, "media_type", 256) && Short(v.value, "uri", 4096) &&
              (match Get(v.value, Lit("digest")) case Some(Str(s)) => IsDigest(s) case _ => false) &&
              (match Get(v.value, Lit("size")) case Some(Num(n)) => 0 <= n <= 0x1F_FFFF_FFFF_FFFF case _ => false)
            case _ => false
  {
    hide Lookup, Lit;
  }

  lemma CapsuleExactly(task: Json)
    ensures ValidTaskCapsule(task) <==>
            task.Obj? && Get(task, Lit("schema")) == Some(Str(Lit("akashic.task-capsule/v1"))) &&
            Short(task, "task_id", 256) && Short(task, "context_id", 256) && Short(task, "logical_attempt_id", 256) &&
            Short(task, "goal", 16_000) &&
            (match Get(task, Lit("acceptance"))
             case Some(Arr(items)) =>
               1 <= |items| <= 64 &&
               (forall i :: 0 <= i < |items| ==> items[i].Str? && 1 <= |items[i].s| <= 2048)
             case _ => false) &&
            (match Get(task, Lit("context_refs"))
             case Some(Arr(items)) => forall i :: 0 <= i < |items| ==> ValidArtifactRef(Some(items[i]))
             case Some(_) => false
             case None => true) &&
            (match Get(task, Lit("execution_hash")) case Some(h) => TestsAsDigest(h) case None => true)
  {
    hide Lookup, Lit, ValidArtifactRef, TestsAsDigest;
  }

  /** Temporal's own test of a task has no bounds. */
  lemma AssertedExactly(task: Json)
    ensures AssertedTask(task) <==>
            task.Obj? &&
            (forall key :: key in {"task_id", "context_id", "logical_attempt_id", "goal", "execution_hash"} ==>
               match Get(task, Lit(key)) case Some(Str(s)) => s != [] case _ => false) &&
            (match Get(task, Lit("acceptance")) case Some(Arr(items)) => items != [] case _ => false)
  {
    hide Lookup, Lit;
  }
}
