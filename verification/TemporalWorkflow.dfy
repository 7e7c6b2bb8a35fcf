/** `runAgentTaskWorkflow` as the object its closures make: four variables that the handlers
    and the resumed coroutine reassign, each method tied to one step of the machine. */
module TemporalWorkflow {
  import opened Utf16
  import opened Wrappers
  import opened Json
  import opened TaskState
  import opened Environment
  import opened Protocol
  import opened Temporal

  class RunAgentTaskWorkflow {
    var pc: Control
    var snapshot: Snapshot
    var pendingDelta: Option<Json>
    var cancelRequested: bool

    /** The variables as a state of the machine. */
    function Now(): Workflow
      reads this
    {
      Workflow(pc, snapshot, pendingDelta, cancelRequested)
    }

    constructor ()
      ensures Now() == INITIAL
    {
      pc := AwaitSubmit;
      snapshot := INITIAL_SNAPSHOT;
      pendingDelta := None;
      cancelRequested := false;
    }

    /** The closure `transition(to, patch)`, with the patch applied to the current snapshot. */
    method TransitionTo(to: State, patched: Snapshot)
      modifies this`snapshot
      ensures snapshot == Transition(old(snapshot), to, patched)
    {
      if Terminal(snapshot.view.state) { return; }
      snapshot := patched.(
        view := patched.view.(state := to, stateSeq := patched.view.stateSeq + 1),
        terminal := Terminal(to));
    }

    /** The `submitTask` update; `accepted` is false when its validator throws. */
    method SubmitTask(task: Json) returns (accepted: bool, exposed: Snapshot)
      modifies this
      ensures Now() == Step(old(Now()), Submit(task))
      ensures accepted == SubmitAccepted(old(snapshot), task)
      ensures exposed == snapshot
    {
      accepted := SubmitAccepted(snapshot, task);
      if accepted && !snapshot.initialized {
        snapshot := snapshot.(
          initialized := true,
          taskId := StringField(task, Lit("task_id")),
          contextId := StringField(task, Lit("context_id")),
          attemptId := StringField(task, Lit("logical_attempt_id")),
          task := Some(task),
          view := snapshot.view.(state := SUBMITTED, stateSeq := 1));
      }
      exposed := snapshot;
    }

    /** The `applyContextDelta` update; `error` is what its validator throws. */
    method ApplyContextDelta(delta: Json) returns (error: Option<DeltaError>)
      modifies this
      ensures error == AssertDeltaAllowed(DeltaContextOf(old(snapshot)), delta)
      ensures Now() == Step(old(Now()), Respond(DeltaOffered(delta)))
      ensures error.Some? ==> Now() == old(Now())
    {
      error := AssertDeltaAllowed(DeltaContextOf(snapshot), delta);
      AllowedIdFacts(snapshot, delta);
      hide AssertDeltaAllowed, AllowedId, NonEmptyString, Get;
      if error.Some? { return; }
      pendingDelta := Some(delta);
      var v := snapshot.view;
      snapshot := snapshot.(
        view := v.(state := WORKING, stateSeq := v.stateSeq + 1, contextSeq := v.contextSeq + 1, need := None,
                   applied := v.applied + [StringField(delta, Lit("delta_id"))]),
        lastDelta := Get(delta, Lit("delta_ref")));
    }

    /** The `requestCancel` update. */
    method Cancel()
      modifies this
      ensures Now() == Step(old(Now()), RequestCancel)
    {
      cancelRequested := true;
      if !Terminal(snapshot.view.state) {
        TransitionTo(CANCELED, snapshot.(error := Some(CanceledByRequest)));
      }
    }

    /** The coroutine looks at the condition it waits for. */
    method Wake()
      modifies this
      ensures Now() == Step(old(Now()), Resume)
    {
      if pc.AwaitSubmit? && (snapshot.initialized || cancelRequested) {
        if cancelRequested {
          pc := Returned;
        } else {
          TransitionTo(COMPILING_CONTEXT, snapshot);
          pc := AwaitCompile;
        }
      } else if pc.AwaitDelta? && (pendingDelta.Some? || cancelRequested) {
        if cancelRequested {
          pc := Returned;
        } else {
          pc := AwaitMerge(pendingDelta.value);
          pendingDelta := None;
        }
      }
    }

    /** The head of the turn loop. */
    method BeginTurn()
      modifies this
      ensures Now() == OpenTurn(old(Now()))
    {
      if cancelRequested {
        pc := Returned;
      } else {
        var turnNo := snapshot.view.turnNo + 1;
        TransitionTo(WORKING, snapshot.(view := snapshot.view.(turnNo := turnNo)));
        pc := AwaitTurn(turnNo);
      }
    }

    /** `compileContext` or `mergeContextDelta` returned. */
    method ContextReturned(ref: Json)
      requires pc.AwaitCompile? || pc.AwaitMerge?
      modifies this
      ensures Now() == Step(old(Now()), Respond(if old(pc).AwaitCompile? then Compiled(ref) else Merged(ref)))
    {
      snapshot := snapshot.(compiled := Some(ref));
      BeginTurn();
    }

    /** The `catch` block. */
    method Catch(message: Text)
      modifies this
      ensures Now() == Fail(old(Now()), message)
    {
      TransitionTo(FAILED, snapshot.(error := Some(WorkflowFailed(message))));
      pc := Returned;
    }

    /** `runAgentTurn` returned. */
    method TurnReturned(output: AgentOutput)
      requires pc.AwaitTurn?
      modifies this
      ensures Now() == Step(old(Now()), Respond(TurnEnded(output)))
    {
      match output {
        case InputRequired(need, session) =>
          if need.None? {
            Catch(Lit("undefined is not valid JSON"));
          } else {
            TransitionTo(INPUT_REQUIRED,
              snapshot.(view := snapshot.view.(need := need), session := OrElse(session, snapshot.session)));
            pc := AwaitDelta;
          }
        case AgentFailed(error) =>
          var e := if error.Some? && !error.value.Null? then AgentError(error.value) else AgentFailedCode;
          TransitionTo(FAILED, snapshot.(error := Some(e)));
          pc := Returned;
        case Candidates(refs, session) =>
          if refs == [] {
            Catch(Lit("agent returned an invalid terminal output"));
          } else {
            TransitionTo(VERIFYING,
              snapshot.(view := snapshot.view.(candidates := refs), session := OrElse(session, snapshot.session)));
            pc := AwaitVerify;
          }
        case Malformed => Catch(Lit("agent returned an invalid terminal output"));
      }
    }

    /** `verifyCandidate` returned. */
    method VerificationReturned(passed: bool, report: Json, provenance: Json, ghost material: Json)
      requires pc.AwaitVerify?
      modifies this
      ensures Now() == Step(old(Now()), Respond(Verified(passed, report, provenance, material)))
    {
      snapshot := snapshot.(report := Some(report), provenance := Some(provenance));
      if !passed {
        TransitionTo(FAILED, snapshot.(error := Some(VerificationFailed)));
        pc := Returned;
        return;
      }
      TransitionTo(ADOPTING, snapshot);
      if NoEffectKey(snapshot.view.candidates) {
        Catch(Lit("TypeError"));
      } else {
        pc := AwaitAdopt(AdoptArguments(snapshot, report, provenance));
      }
    }

    /** `adoptArtifact` returned. */
    method AdoptionReturned(ref: Json)
      requires pc.AwaitAdopt?
      modifies this
      ensures Now() == Step(old(Now()), Respond(AdoptionDone(ref)))
    {
      TransitionTo(COMPLETED, snapshot.(adoption := Some(ref)));
      pc := Returned;
    }

    /** An activity failed, or the workflow scope was cancelled, while the coroutine was inside its `try`. */
    method Raised(cancellation: bool, message: Text)
      requires !pc.Returned? && !pc.Aborted? && !pc.AwaitSubmit? && (pc.AwaitDelta? ==> cancellation)
      modifies this
      ensures Now() == Step(old(Now()), if cancellation then ScopeCanceled else Respond(Threw(message)))
    {
      if cancellation {
        TransitionTo(CANCELED, snapshot.(error := Some(TemporalCanceled)));
        pc := Returned;
      } else {
        Catch(message);
      }
    }
  }
}
