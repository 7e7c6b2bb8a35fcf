/** The tokens of the Vercel workflow's hooks, and the errors that making them throws. */
module WorkflowIds {
  import opened Utf16
  import opened Wrappers
  import opened Json
  import opened TaskState

  /** What stands at `i` is not one half of a surrogate pair without the other. */
  predicate PairedAt(t: Text, i: nat)
    requires i < |t|
  {
    (HighSurrogate(t[i]) ==> i + 1 < |t| && LowSurrogate(t[i + 1])) &&
    (LowSurrogate(t[i]) ==> i > 0 && HighSurrogate(t[i - 1]))
  }

  /** `encodeURIComponent` does not throw: no surrogate stands alone. */
  predicate Encodable(t: Text) { forall i :: 0 <= i < |t| ==> PairedAt(t, i) }

  /** `safeSegment` does not throw. */
  predicate SafeSegment(v: Option<Json>) {
    BoundedString(v, 256) && Encodable(v.value.s)
  }

  /** `taskOwnerToken` does not throw. */
  predicate OwnerToken(task: Json) { SafeSegment(Get(task, Lit("task_id"))) }

  /** `contextHookToken` does not throw. */
  predicate HookToken(taskId: Text, attemptId: Text, need: Option<Json>) {
    need.Some? && !Falsy(need.value) &&
    SafeSegment(Some(Str(taskId))) && SafeSegment(Some(Str(attemptId))) && SafeSegment(RequestId(need))
  }

  function SegmentMessage(v: Option<Json>, name: string): Text {
    if BoundedString(v, 256) then Lit("URI malformed") else Lit(name) + Lit(" must be a non-empty string <= 256 chars")
  }

  /** The message of the error that `contextHookToken` throws. */
  function HookMessage(taskId: Text, attemptId: Text, need: Option<Json>): Text {
    if need.None? || Falsy(need.value) then Lit("context hook requires an INPUT_REQUIRED snapshot")
    else if !SafeSegment(Some(Str(taskId))) then SegmentMessage(Some(Str(taskId)), "task_id")
    else if !SafeSegment(Some(Str(attemptId))) then SegmentMessage(Some(Str(attemptId)), "logical_attempt_id")
    else SegmentMessage(RequestId(need), "request_id")
  }

  /** For the ids of a valid capsule and the request that an accepted delta answers, only a lone
      surrogate stands in the way of a token. */
  lemma AnsweredNeedHasToken(c: DeltaContext, delta: Json)
    requires 0 < |c.taskId| <= 256 && 0 < |c.attemptId| <= 256
    requires ValidateContextDelta(c, delta).None?
    ensures HookToken(c.taskId, c.attemptId, c.need) <==>
            Encodable(c.taskId) && Encodable(c.attemptId) && Encodable(StringField(delta, Lit("request_id")))
  {
    hide Get, Lit, ValidArtifactRef, AlreadyApplied, Encodable;
    if c.need.Some? { FalsyHasNoRequest(c.need.value); }
  }

  lemma FalsyHasNoRequest(need: Json)
    ensures Falsy(need) ==> RequestId(Some(need)) == None
  {
  }

  /** When no token can be made, the message names the first id that is not a string of 1 to 256
      code units, unless an id before it cannot be encoded. */
  lemma HookMessageExactly(taskId: Text, attemptId: Text, need: Option<Json>)
    requires need.Some? && !Falsy(need.value) && 0 < |taskId| <= 256 && 0 < |attemptId| <= 256
    requires !HookToken(taskId, attemptId, need)
    ensures HookMessage(taskId, attemptId, need) ==
            if !Encodable(taskId) || !Encodable(attemptId) then Lit("URI malformed")
            else match RequestId(need)
                 case Some(Str(id)) =>
                   if 0 < |id| <= 256 then Lit("URI malformed") else Lit("request_id") + Lit(" must be a non-empty string <= 256 chars")
                 case _ => Lit("request_id") + Lit(" must be a non-empty string <= 256 chars")
  {
    hide Encodable, Lit, RequestId, Falsy;
  }
}
