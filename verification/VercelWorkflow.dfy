/** `runAgentTaskOnVercel` as the nested loops the source has. The script is what the world
    delivers, in order; a run whose script ends is suspended where it stands. */
module VercelWorkflow {
  import opened Utf16
  import opened Wrappers
  import opened Json
  import opened TaskState
  import opened Environment
  import opened Protocol
  import opened WorkflowIds
  import opened Vercel

  /** The awaited step or hook is the one this event answers. */
  predicate Answers(pc: Control, e: Event) {
    match e
    case HookFailed(_) => pc.InHook?
    case Respond(r) =>
      match r
      case Compiled(_) => pc.InCompile?
      case TurnEnded(_) => pc.InTurn?
      case DeltaOffered(_) => pc.InHook?
      case Merged(_) => pc.InMerge?
      case Verified(_, _, _, _) => pc.InVerify?
      case AdoptionDone(_) => pc.InAdopt?
      case Threw(_) => !pc.Done? && !pc.InHook?
  }

  lemma ExecNext(v: Running, script: seq<Event>, i: nat)
    requires i < |script|
    ensures Exec(v, script[..i + 1]) == Step(Exec(v, script[..i]), script[i])
  {
    hide Step;
    assert script[..i + 1] == script[..i] + [script[i]];
    ExecAppend(v, script[..i], [script[i]]);
    ExecOne(Exec(v, script[..i]), script[i]);
  }

  /** A run that is over when part of the script is used up is over with all of it. */
  lemma DoneEarly(v: Running, script: seq<Event>, i: nat)
    requires i <= |script| && Exec(v, script[..i]).pc.Done?
    ensures Exec(v, script) == Exec(v, script[..i])
  {
    assert script == script[..i] + script[i..];
    ExecAppend(v, script[..i], script[i..]);
    DoneIsFinal(Exec(v, script[..i]), script[i..]);
  }

  lemma NotAnswered(v: Running, e: Event)
    requires !Answers(v.pc, e)
    ensures Step(v, e) == v
  {
  }

  /** Wait for the event that answers the await at `v`; `j` is its place, or the end. */
  method Await(ghost start: Running, v: Running, script: seq<Event>, i: nat) returns (j: nat)
    requires i <= |script| && Exec(start, script[..i]) == v
    ensures i <= j <= |script| && Exec(start, script[..j]) == v
    ensures j < |script| ==> Answers(v.pc, script[j])
    ensures j < |script| ==> Exec(start, script[..j + 1]) == Step(v, script[j])
    ensures j == |script| ==> Exec(start, script) == v
  {
    hide Exec, Step, Answers;
    j := i;
    while j < |script| && !Answers(v.pc, script[j])
      invariant i <= j <= |script|
      invariant Exec(start, script[..j]) == v
    {
      ExecNext(start, script, j);
      NotAnswered(v, script[j]);
      j := j + 1;
    }
    if j < |script| { ExecNext(start, script, j); } else { assert script[..j] == script; }
  }

  /** The outer `catch`: fail the run unless it is already terminal. */
  method HandleError(v: Running, error: RunError) returns (r: Running)
    ensures r == Catch(v, error) && r.pc.Done?
  {
    r := v.(pc := Done);
    if !Terminal(v.snap.view.state) {
      var next := Transition(v.snap, FAILED, v.snap.(error := Some(error)));
      if next.Some? {
        r := Running(Done, next.value, v.stream + [SnapshotProjection(next.value)]);
      }
    }
  }

  /** The loop over the context hook: deltas are applied or turned away until one is accepted,
      the hook fails, or nothing more is delivered. */
  method AwaitContext(ghost start: Running, v: Running, script: seq<Event>, i: nat) returns (r: Running, j: nat)
    requires v.pc.InHook? && i <= |script| && Exec(start, script[..i]) == v
    ensures i <= j <= |script| && Exec(start, script[..j]) == r
    ensures r.pc.InMerge? || r.pc.Done? || (r.pc.InHook? && j == |script|)
  {
    hide Exec, ApplyContextDelta;
    var stream := v.stream;
    r := v;
    j := Await(start, v, script, i);
    while j < |script|
      invariant i <= j <= |script|
      invariant r == Running(InHook, v.snap, stream) && Exec(start, script[..j]) == r
      invariant j < |script| ==> Answers(InHook, script[j]) && Exec(start, script[..j + 1]) == Step(r, script[j])
    {
      match script[j] {
        case HookFailed(message) =>
          r := HandleError(r, WorkflowFailed(message));
          j := j + 1;
          return;
        case Respond(response) =>
          var delta := response.delta;
          var applied := ApplyContextDelta(v.snap, delta);
          match applied {
            case Ok(next) =>
              r := Running(InMerge(delta), next, stream + [SnapshotProjection(next)]);
              j := j + 1;
              return;
            case Err(reason) =>
              stream := stream + [RejectionProjection(v.snap, reason, delta)];
              r := Running(InHook, v.snap, stream);
              j := Await(start, r, script, j + 1);
          }
      }
    }
  }

  /** Take the step `to`, emit the new snapshot and go on at `pc`. */
  method MoveTo(v: Running, pc: Control, to: State, patched: Snapshot) returns (r: Running)
    ensures r == Move(v, pc, to, patched)
    ensures r.pc == pc || r.pc.Done?
  {
    var next := Transition(v.snap, to, patched);
    if next.None? {
      r := HandleError(v, IllegalTransition);
    } else {
      r := Running(pc, next.value, v.stream + [SnapshotProjection(next.value)]);
    }
  }

  /** A compiled or merged context arrives and the next turn opens. */
  method OpenTurn(v: Running, ref: Json) returns (r: Running)
    ensures r == OnContext(v, ref)
    ensures r.pc.InTurn? || r.pc.Done?
  {
    var snapshot := v.snap.(compiled := Some(ref));
    var begun := BeginAgentTurn(snapshot);
    if begun.None? {
      r := HandleError(v.(snap := snapshot), IllegalTransition);
    } else {
      r := Running(InTurn, begun.value, v.stream + [SnapshotProjection(begun.value)]);
    }
  }

  /** Create the context hook; the token's error is caught outside the loop. */
  method CreateHook(v: Running) returns (r: Running)
    requires v.pc.InHook?
    ensures r == OpenHook(v)
    ensures r.pc.InHook? || r.pc.Done?
  {
    r := v;
    if !HookToken(v.snap.taskId, v.snap.attemptId, v.snap.view.need) {
      r := HandleError(v, WorkflowFailed(HookMessage(v.snap.taskId, v.snap.attemptId, v.snap.view.need)));
    }
  }

  /** What one turn's output leads to, short of verification. */
  method TakeOutput(v: Running, output: AgentOutput) returns (r: Running)
    ensures r == OnTurn(v, output)
    ensures r.pc.Done? || r.pc.InHook? || r.pc.InVerify?
  {
    var s := v.snap;
    match output {
      case InputRequired(need, session) =>
        r := MoveTo(v, InHook, INPUT_REQUIRED, s.(view := s.view.(need := need), session := OrElse(session, s.session)));
        if r.pc.InHook? { r := CreateHook(r); }
      case AgentFailed(error) =>
        var e := if error.Some? && !error.value.Null? then AgentError(error.value) else AgentFailedCode;
        r := MoveTo(v, Done, FAILED, s.(error := Some(e)));
      case Candidates(refs, session) =>
        if refs == [] {
          r := HandleError(v, WorkflowFailed(Lit("AGENT_INVALID_TERMINAL_OUTPUT")));
        } else {
          r := MoveTo(v, InVerify, VERIFYING,
                      s.(view := s.view.(candidates := refs), session := OrElse(session, s.session)));
        }
      case Malformed => r := HandleError(v, WorkflowFailed(Lit("AGENT_INVALID_TERMINAL_OUTPUT")));
    }
  }

  /** Wait for the answer of a step; `v` is unchanged unless the step threw. */
  method AwaitStep(ghost start: Running, v: Running, script: seq<Event>, i: nat) returns (r: Running, j: nat)
    requires !v.pc.InHook? && !v.pc.Done? && i <= |script| && Exec(start, script[..i]) == v
    ensures i <= j <= |script|
    ensures r.pc.Done? || j == |script| ==> Exec(start, script) == r
    ensures !r.pc.Done? ==> r == v
    ensures !r.pc.Done? && j < |script| ==>
              Answers(v.pc, script[j]) && script[j].Respond? && !script[j].r.Threw? &&
              Exec(start, script[..j + 1]) == OnRespond(v, script[j].r)
  {
    hide Exec;
    r := v;
    j := Await(start, v, script, i);
    if j < |script| && script[j].r.Threw? {
      r := HandleError(v, WorkflowFailed(script[j].r.message));
      DoneEarly(start, script, j + 1);
    }
  }

  /** What the verification of the candidates leads to, short of adoption. */
  method TakeVerification(v: Running, passed: bool, report: Json, provenance: Json, material: Json) returns (r: Running)
    ensures r == OnVerified(v, passed, report, provenance, material)
    ensures r.pc.Done? || r.pc.InAdopt?
  {
    hide Lit;
    var snapshot := v.snap.(report := Some(report), provenance := Some(provenance));
    if !passed {
      r := MoveTo(v.(snap := snapshot), Done, FAILED, snapshot.(error := Some(VerificationFailed)));
      return;
    }
    var adopting := Transition(snapshot, ADOPTING, snapshot);
    if adopting.None? {
      r := HandleError(v.(snap := snapshot), IllegalTransition);
      return;
    }
    snapshot := adopting.value;
    var stream := v.stream + [SnapshotProjection(snapshot)];
    var input := AdoptInput(snapshot.taskId, snapshot.attemptId, snapshot.view.turnNo,
                            FirstOf(snapshot.view.candidates), report, provenance, material);
    r := Running(InAdopt(input), snapshot, stream);
  }

  /** Verification and adoption of the candidates, which end the run. */
  method VerifyAndAdopt(ghost start: Running, v: Running, script: seq<Event>, i: nat) returns (r: Running)
    requires v.pc.InVerify? && i <= |script| && Exec(start, script[..i]) == v
    ensures Exec(start, script) == r
  {
    hide Exec, OnVerified;
    var j;
    r, j := AwaitStep(start, v, script, i);
    if r.pc.Done? || j == |script| { return; }
    var Verified(passed, report, provenance, material) := script[j].r;
    r := TakeVerification(r, passed, report, provenance, material);
    j := j + 1;
    if r.pc.Done? { DoneEarly(start, script, j); return; }
    r, j := AwaitStep(start, r, script, j);
    if r.pc.Done? || j == |script| { return; }
    r := MoveTo(r, Done, COMPLETED, r.snap.(adoption := Some(script[j].r.ref)));
    DoneEarly(start, script, j + 1);
  }

  /** The turn loop, entered with a compiled context. */
  method TurnLoop(ghost start: Running, compiling: Running, firstRef: Json, script: seq<Event>, first: nat) returns (v: Running)
    requires first <= |script| && Exec(start, script[..first]) == OnContext(compiling, firstRef)
    ensures Exec(start, script) == v
  {
    hide Exec, OnContext, OnTurn, OnVerified;
    v := compiling;
    var ref, i := firstRef, first;
    while true
      invariant i <= |script| && Exec(start, script[..i]) == OnContext(v, ref)
      decreases |script| - i
    {
      v := OpenTurn(v, ref);
      if v.pc.Done? { DoneEarly(start, script, i); return; }
      v, i := AwaitStep(start, v, script, i);
      if v.pc.Done? || i == |script| { return; }
      v := TakeOutput(v, script[i].r.output);
      i := i + 1;
      if v.pc.Done? { DoneEarly(start, script, i); return; }
      if v.pc.InVerify? {
        v := VerifyAndAdopt(start, v, script, i);
        return;
      }
      v, i := AwaitContext(start, v, script, i);
      if v.pc.Done? { DoneEarly(start, script, i); return; }
      if v.pc.InHook? { assert script[..i] == script; return; }
      v, i := AwaitStep(start, v, script, i);
      if v.pc.Done? || i == |script| { return; }
      ref := script[i].r.ref;
      i := i + 1;
    }
  }

  /** The whole workflow computes `Exec`, whatever the script delivers. */
  method RunAgentTaskOnVercel(task: Json, runId: Text, script: seq<Event>) returns (run: Option<Running>)
    ensures run.Some? <==> Admitted(task)
    ensures run.Some? ==> run.value == Exec(Started(InitialSnapshot(task, runId).value), script)
  {
    hide ValidTaskCapsule, OnContext, OnTurn, OnVerified, OnDelta, Lit, Get;
    var initial := InitialSnapshot(task, runId);
    if initial.None? || !OwnerToken(task) { return None; }
    assert initial.value.view == START.view;
    hide InitialSnapshot;
    var snapshot := initial.value;
    var v := Running(InCompile, snapshot, [SnapshotProjection(snapshot)]);
    v := MoveTo(v, InCompile, COMPILING_CONTEXT, snapshot);
    ghost var start := v;
    assert [] + [SnapshotProjection(snapshot)] == [SnapshotProjection(snapshot)];
    assert start == Started(snapshot) && v.pc.InCompile?;
    assert script[..0] == [] && Exec(start, script[..0]) == start;
    var i: nat;
    v, i := AwaitStep(start, v, script, 0);
    if !v.pc.Done? && i < |script| {
      v := TurnLoop(start, v, script[i].r.ref, script, i + 1);
    }
    return Some(v);
  }
}
