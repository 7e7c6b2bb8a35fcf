/** The durable object of the Cloudflare kernel, which overwrites its one stored snapshot. */
module TaskKernelObject {
  import opened Utf16
  import opened Wrappers
  import opened Json
  import opened TaskState
  import opened Kernel

  class TaskKernel {
    /** `ctx.storage` under the key `snapshot`. */
    var snapshot: Option<Snapshot>
    const hash: Text -> Text

    constructor (hash: Text -> Text)
      ensures snapshot == None && this.hash == hash
    {
      this.snapshot := None;
      this.hash := hash;
    }

    method Write(s: Snapshot)
      modifies this`snapshot
      ensures snapshot == Some(s)
    {
      snapshot := Some(s);
    }

    /** `/submit`. */
    method Submit(body: Text, now: Text) returns (reply: Reply)
      modifies this`snapshot
      ensures Outcome(snapshot, reply) == OnSubmit(hash, old(snapshot), body, now)
    {
      var payload := BodyJson(body);
      if payload.None? { return Refused(400, BadBody); }
      var task := Get(payload.value, Lit("task"));
      if !ValidTask(task) { return Refused(400, InvalidTask); }
      var executionHash := hash(Canon(task.value));
      var existing := snapshot;
      if existing.Some? {
        if Field(existing.value, Lit("execution_hash")) != Some(Str(executionHash)) {
          return Refused(409, TaskConflict);
        }
        return Answered(200, existing.value, Replayed);
      }
      var s := InitialSnapshot(task.value, executionHash, now);
      Write(s);
      return Answered(202, s, Accepted);
    }

    /** Append one event to the stored snapshot and write it back. */
    method AppendAndWrite(s: Snapshot, kind: Text, to: Text, patch: Fields, now: Text, note: Note) returns (reply: Reply)
      requires snapshot == Some(s)
      modifies this`snapshot
      ensures Outcome(snapshot, reply) == Advance(s, kind, to, patch, now, note)
    {
      hide FixedKeys, StateNamed;
      var next := AppendEvent(s, kind, to, patch, now);
      if next.None? { return Refused(400, IllegalTransition); }
      Write(next.value);
      reply := Answered(200, next.value, note);
    }

    /** `fetch`: one request, served atomically. */
    method Fetch(call: Call) returns (reply: Reply)
      modifies this`snapshot
      ensures Outcome(snapshot, reply) == Serve(hash, old(snapshot), call)
    {
      hide AppendEvent, BodyJson, Get, Lit, Canon, DeltaField, StrictlyEqual, Falsy, Fresh, ContextPatch, Spread;
      if call.request.Submit? {
        reply := Submit(call.request.body, call.now);
        return;
      }
      if snapshot.None? { return Refused(404, TaskNotFound); }
      var s := snapshot.value;
      if call.request.ReadSnapshot? { return Answered(200, s, Plain); }
      if call.request.ApplyContext? {
        var body := call.request.body;
        if BodyJson(body).None? { return Refused(400, BadBody); }
        if s.state != InputRequired { return Refused(409, NotInputRequired); }
        if !SameIdentity(s, body) { return Refused(409, IdentityMismatch); }
        if !Fresh(s, body) { return Refused(409, StaleDelta); }
        var patch := ContextPatch(hash, body);
        reply := AppendAndWrite(s, Lit("CONTEXT_DELTA_APPLIED"), Lit("WORKING"), patch, call.now, DeltaAccepted);
        return;
      }
      if call.request.Cancel? {
        if Ended(s.state) { return Answered(200, s, Replayed); }
        reply := AppendAndWrite(s, Lit("TASK_CANCELED"), Lit("CANCELED"), CANCEL_PATCH, call.now, Plain);
        return;
      }
      if call.request.Transition? {
        if Ended(s.state) { return Answered(200, s, Replayed); }
        var payload := BodyJson(call.request.body);
        if payload.None? { return Refused(400, BadBody); }
        var to, kind := Get(payload.value, Lit("to_state")), Get(payload.value, Lit("kind"));
        if !(to.Some? && to.value.Str? && kind.Some? && kind.value.Str?) { return Refused(400, InvalidPayload); }
        var patch := Spread(Get(payload.value, Lit("patch")));
        reply := AppendAndWrite(s, kind.value.s, to.value.s, patch, call.now, Plain);
        return;
      }
      return Refused(404, UnknownPath);
    }
  }
}
