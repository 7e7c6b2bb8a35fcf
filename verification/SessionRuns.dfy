/** What a reader of the snapshot learns from the agent's answers: the session, the errors and
    the verification documents, told from the events of a run alone. */
module SessionRuns {
  import opened Utf16
  import opened Wrappers
  import opened Json
  import opened TaskState
  import opened Environment
  import opened Protocol
  import T = Temporal
  import V = Vercel
  import opened WorkflowIds

  /** A property that is there and is not null. */
  function Given(v: Option<Json>): seq<Json> {
    match v
    case Some(Null) => []
    case Some(x) => [x]
    case None => []
  }

  /** The session that an agent's answer carries. A request for context without a need counts
      only where `lenient`, and an offer only with a candidate. */
  function Carried(output: AgentOutput, lenient: bool): seq<Json> {
    match output
    case InputRequired(need, session) => if need.Some? || lenient then Given(session) else []
    case Candidates(refs, session) => if refs != [] then Given(session) else []
    case _ => []
  }

  /** The last one told, or else what was known before. */
  function LastOf(told: seq<Json>, before: Option<Json>): Option<Json> {
    if told == [] then before else Some(told[|told| - 1])
  }

  // ----- Temporal -----

  /** A turn is awaited and the task is live. */
  predicate InTurn(w: T.Workflow) { w.pc.AwaitTurn? && !Terminal(w.snap.view.state) }

  function Told(w: T.Workflow, e: T.Event): seq<Json> {
    if InTurn(w) && e.Respond? && e.r.TurnEnded? then Carried(e.r.output, false) else []
  }

  function Sessions(w: T.Workflow, events: seq<T.Event>): seq<Json>
    decreases events
  {
    if events == [] then [] else Told(w, events[0]) + Sessions(T.Step(w, events[0]), events[1..])
  }

  lemma TransitionSession(s: T.Snapshot, to: State, patched: T.Snapshot)
    ensures T.Transition(s, to, patched).session == if Terminal(s.view.state) then s.session else patched.session
  {
  }

  lemma FailSession(w: T.Workflow, message: Text)
    ensures T.Fail(w, message).snap.session == w.snap.session
  {
  }

  lemma TurnSession(w: T.Workflow, output: AgentOutput)
    requires w.pc.AwaitTurn?
    ensures T.OnTurn(w, output).snap.session == LastOf(Told(w, T.Respond(TurnEnded(output))), w.snap.session)
  {
    var s := w.snap;
    match output
    case InputRequired(need, session) =>
      FailSession(w, Lit("undefined is not valid JSON"));
      TransitionSession(s, INPUT_REQUIRED, s.(view := s.view.(need := need), session := OrElse(session, s.session)));
      hide Lit, T.Transition, T.Fail, Terminal;
    case AgentFailed(error) =>
      TransitionSession(s, FAILED,
        s.(error := Some(match OrElse(error, None) case Some(e) => T.AgentError(e) case None => T.AgentFailedCode)));
      hide Lit, OrElse, T.Transition, T.Fail, Terminal;
    case Candidates(refs, session) =>
      FailSession(w, Lit("agent returned an invalid terminal output"));
      TransitionSession(s, VERIFYING, s.(view := s.view.(candidates := refs), session := OrElse(session, s.session)));
      hide Lit, T.Transition, T.Fail, Terminal;
    case Malformed =>
      FailSession(w, Lit("agent returned an invalid terminal output"));
      hide Lit, T.Fail, Terminal;
  }

  lemma VerifiedSession(w: T.Workflow, passed: bool, report: Json, provenance: Json)
    ensures T.OnVerified(w, passed, report, provenance).snap.session == w.snap.session
  {
    hide Lit, NoEffectKey, T.AdoptArguments, Moved;
  }

  lemma DeltaSession(w: T.Workflow, delta: Json)
    ensures T.OnDelta(w, delta).snap.session == w.snap.session
  {
    hide Lit, Get, T.AllowedId, Moved;
  }

  lemma StepSession(w: T.Workflow, e: T.Event)
    ensures T.Step(w, e).snap.session == LastOf(Told(w, e), w.snap.session)
  {
    hide T.SubmitAccepted, T.OnTurn, T.OnVerified, T.OnDelta, Lit, Get, Moved, Carried;
    if e.Respond? {
      match e.r
      case TurnEnded(output) => if w.pc.AwaitTurn? { TurnSession(w, output); }
      case Verified(passed, report, provenance, _) => VerifiedSession(w, passed, report, provenance);
      case DeltaOffered(delta) => DeltaSession(w, delta);
      case _ =>
    }
  }

  /** On every run the snapshot's session is the last one that an answer brought in a live turn. */
  lemma {:induction false} SessionIsLast(w: T.Workflow, events: seq<T.Event>)
    ensures T.Exec(w, events).snap.session == LastOf(Sessions(w, events), w.snap.session)
    decreases events
  {
    hide T.Step, Told;
    if events != [] {
      StepSession(w, events[0]);
      SessionIsLast(T.Step(w, events[0]), events[1..]);
    }
  }

  // ----- Vercel -----

  function ToldV(v: V.Running, e: V.Event): seq<Json> {
    if v.pc.InTurn? && e.Respond? && e.r.TurnEnded? then Carried(e.r.output, true) else []
  }

  function SessionsV(v: V.Running, events: seq<V.Event>): seq<Json>
    decreases events
  {
    if events == [] then [] else ToldV(v, events[0]) + SessionsV(V.Step(v, events[0]), events[1..])
  }

  lemma TurnSessionV(v: V.Running, output: AgentOutput)
    requires V.Inv(v) && v.pc.InTurn?
    ensures V.OnTurn(v, output).snap.session == LastOf(ToldV(v, V.Respond(TurnEnded(output))), v.snap.session)
  {
    hide Lit, Moved, V.StreamInv, V.Hooked;
  }

  lemma StepSessionV(v: V.Running, e: V.Event)
    requires V.Inv(v)
    ensures V.Step(v, e).snap.session == LastOf(ToldV(v, e), v.snap.session)
  {
    hide V.OnTurn, Lit, Get, Moved, Carried, V.StreamInv, Accounts, ValidateContextDelta, Allowed, V.RejectionProjection;
    if v.pc.InTurn? && e.Respond? && e.r.TurnEnded? { TurnSessionV(v, e.r.output); }
  }

  lemma {:induction false} SessionIsLastV(v: V.Running, events: seq<V.Event>)
    requires V.Inv(v)
    ensures V.Exec(v, events).snap.session == LastOf(SessionsV(v, events), v.snap.session)
    decreases events
  {
    hide V.Step, ToldV, V.Inv, V.Actions;
    if events != [] {
      StepSessionV(v, events[0]);
      V.StepRefines(v, events[0]);
      SessionIsLastV(V.Step(v, events[0]), events[1..]);
    }
  }

  // ----- Errors -----

  /** The error that an event puts on a live Temporal task. */
  function Cause(w: T.Workflow, e: T.Event): Option<T.TaskError> {
    if Terminal(w.snap.view.state) then None
    else
      match e
      case RequestCancel => Some(T.CanceledByRequest)
      case ScopeCanceled => if w.pc.AwaitSubmit? || w.pc.Aborted? || w.pc.Returned? then None else Some(T.TemporalCanceled)
      case Respond(TurnEnded(AgentFailed(error))) =>
        if !w.pc.AwaitTurn? then None
        else if Given(error) != [] then Some(T.AgentError(error.value)) else Some(T.AgentFailedCode)
      case Respond(TurnEnded(InputRequired(need, _))) =>
        if w.pc.AwaitTurn? && need.None? then Some(T.WorkflowFailed(Lit("undefined is not valid JSON"))) else None
      case Respond(TurnEnded(Candidates(refs, _))) =>
        if w.pc.AwaitTurn? && refs == [] then Some(T.WorkflowFailed(Lit("agent returned an invalid terminal output"))) else None
      case Respond(TurnEnded(Malformed)) =>
        if w.pc.AwaitTurn? then Some(T.WorkflowFailed(Lit("agent returned an invalid terminal output"))) else None
      case Respond(Verified(passed, _, _, _)) =>
        if !w.pc.AwaitVerify? then None
        else if !passed then Some(T.VerificationFailed)
        else if NoEffectKey(w.snap.view.candidates) then Some(T.WorkflowFailed(Lit("TypeError"))) else None
      case Respond(Threw(message)) =>
        if w.pc.AwaitCompile? || w.pc.AwaitTurn? || w.pc.AwaitMerge? || w.pc.AwaitVerify? || w.pc.AwaitAdopt?
        then Some(T.WorkflowFailed(message)) else None
      case _ => None
  }

  /** The first error that an event of the run caused. */
  function FirstCause(w: T.Workflow, events: seq<T.Event>): Option<T.TaskError>
    decreases events
  {
    if events == [] then None
    else if Cause(w, events[0]).Some? then Cause(w, events[0])
    else FirstCause(T.Step(w, events[0]), events[1..])
  }

  lemma FailError(w: T.Workflow, message: Text)
    requires T.OutcomeFields(w.snap)
    ensures T.Fail(w, message).snap.error == if Terminal(w.snap.view.state) then w.snap.error else Some(T.WorkflowFailed(message))
  {
  }

  lemma TransitionError(s: T.Snapshot, to: State, patched: T.Snapshot)
    ensures T.Transition(s, to, patched).error == if Terminal(s.view.state) then s.error else patched.error
  {
  }

  lemma LiveHasNoError(s: T.Snapshot)
    requires T.OutcomeFields(s)
    ensures s.error.Some? ==> Terminal(s.view.state)
  {
  }

  lemma TurnError(w: T.Workflow, output: AgentOutput)
    requires w.pc.AwaitTurn? && T.OutcomeFields(w.snap)
    ensures T.OnTurn(w, output).snap.error ==
            if w.snap.error.Some? then w.snap.error else Cause(w, T.Respond(TurnEnded(output)))
  {
    var s := w.snap;
    LiveHasNoError(s);
    match output
    case InputRequired(need, session) =>
      FailError(w, Lit("undefined is not valid JSON"));
      TransitionError(s, INPUT_REQUIRED, s.(view := s.view.(need := need), session := OrElse(session, s.session)));
      hide Lit, OrElse, T.Transition, T.Fail, T.OutcomeFields;
    case AgentFailed(error) =>
      TransitionError(s, FAILED,
        s.(error := Some(match OrElse(error, None) case Some(e) => T.AgentError(e) case None => T.AgentFailedCode)));
      hide Lit, T.Transition, T.Fail, T.OutcomeFields;
    case Candidates(refs, session) =>
      FailError(w, Lit("agent returned an invalid terminal output"));
      TransitionError(s, VERIFYING, s.(view := s.view.(candidates := refs), session := OrElse(session, s.session)));
      hide Lit, OrElse, T.Transition, T.Fail, T.OutcomeFields;
    case Malformed =>
      FailError(w, Lit("agent returned an invalid terminal output"));
      hide Lit, T.Fail, T.OutcomeFields;
  }

  lemma VerifyError(w: T.Workflow, passed: bool, report: Json, provenance: Json, material: Json)
    requires w.pc.AwaitVerify? && T.OutcomeFields(w.snap)
    ensures T.OnVerified(w, passed, report, provenance).snap.error ==
            if w.snap.error.Some? then w.snap.error else Cause(w, T.Respond(Verified(passed, report, provenance, material)))
  {
    hide Lit, NoEffectKey, T.AdoptArguments;
  }

  lemma StepError(w: T.Workflow, e: T.Event)
    requires w.snap.initialized && T.OutcomeFields(w.snap)
    ensures T.Step(w, e).snap.error == if w.snap.error.Some? then w.snap.error else Cause(w, e)
  {
    hide T.AllowedId, T.SubmitAccepted, T.AdoptArguments, T.OnTurn, T.OnVerified, Lit, Get, Moved, NoEffectKey, Given;
    if e.Respond? && e.r.TurnEnded? && w.pc.AwaitTurn? { TurnError(w, e.r.output); }
    else if e.Respond? && e.r.Verified? && w.pc.AwaitVerify? { VerifyError(w, e.r.passed, e.r.report, e.r.provenance, e.r.material); }
  }

  /** On every run the snapshot's error is the one the first failing event caused; in
      particular the agent's own error, when it gave one. */
  lemma {:induction false} ErrorIsFirstCause(w: T.Workflow, events: seq<T.Event>)
    requires w.snap.initialized && T.OutcomeFields(w.snap)
    ensures T.Exec(w, events).snap.error == if w.snap.error.Some? then w.snap.error else FirstCause(w, events)
    decreases events
  {
    hide T.Step, Cause, T.OutcomeFields;
    if events != [] {
      StepError(w, events[0]);
      T.StepOutcome(w, events[0]);
      ErrorIsFirstCause(T.Step(w, events[0]), events[1..]);
    }
  }

  /** The error that an event puts on a live Vercel task. */
  function CauseV(v: V.Running, e: V.Event): Option<V.RunError> {
    match e
    case HookFailed(message) => if v.pc.InHook? then Some(V.WorkflowFailed(message)) else None
    case Respond(TurnEnded(AgentFailed(error))) =>
      if !v.pc.InTurn? then None
      else if Given(error) != [] then Some(V.AgentError(error.value)) else Some(V.AgentFailedCode)
    case Respond(TurnEnded(InputRequired(need, _))) =>
      if v.pc.InTurn? && !HookToken(v.snap.taskId, v.snap.attemptId, need)
      then Some(V.WorkflowFailed(HookMessage(v.snap.taskId, v.snap.attemptId, need))) else None
    case Respond(TurnEnded(Candidates(refs, _))) =>
      if v.pc.InTurn? && refs == [] then Some(V.WorkflowFailed(Lit("AGENT_INVALID_TERMINAL_OUTPUT"))) else None
    case Respond(TurnEnded(Malformed)) =>
      if v.pc.InTurn? then Some(V.WorkflowFailed(Lit("AGENT_INVALID_TERMINAL_OUTPUT"))) else None
    case Respond(Verified(passed, _, _, _)) => if v.pc.InVerify? && !passed then Some(V.VerificationFailed) else None
    case Respond(Threw(message)) => if v.pc.Done? || v.pc.InHook? then None else Some(V.WorkflowFailed(message))
    case _ => None
  }

  function FirstCauseV(v: V.Running, events: seq<V.Event>): Option<V.RunError>
    decreases events
  {
    if events == [] then None
    else if CauseV(v, events[0]).Some? then CauseV(v, events[0])
    else FirstCauseV(V.Step(v, events[0]), events[1..])
  }

  lemma TurnErrorV(v: V.Running, output: AgentOutput)
    requires V.Inv(v) && v.pc.InTurn? && V.OutcomeFields(v.snap)
    ensures V.OnTurn(v, output).snap.error == CauseV(v, V.Respond(TurnEnded(output)))
  {
    hide Lit, V.StreamInv, HookToken, HookMessage;
  }

  lemma StepErrorV(v: V.Running, e: V.Event)
    requires V.Inv(v) && V.OutcomeFields(v.snap)
    ensures V.Step(v, e).snap.error == if v.snap.error.Some? then v.snap.error else CauseV(v, e)
  {
    hide V.OnTurn, Lit, Get, V.StreamInv, ValidateContextDelta, Allowed, V.RejectionProjection, HookToken, HookMessage, Given;
    if e.Respond? && e.r.TurnEnded? && v.pc.InTurn? { TurnErrorV(v, e.r.output); }
  }

  lemma {:induction false} ErrorIsFirstCauseV(v: V.Running, events: seq<V.Event>)
    requires V.Inv(v) && V.OutcomeFields(v.snap)
    ensures V.Exec(v, events).snap.error == if v.snap.error.Some? then v.snap.error else FirstCauseV(v, events)
    decreases events
  {
    hide V.Step, CauseV, V.OutcomeFields, V.Inv, V.Actions;
    if events != [] {
      StepErrorV(v, events[0]);
      V.StepOutcome(v, events[0]);
      V.StepRefines(v, events[0]);
      ErrorIsFirstCauseV(V.Step(v, events[0]), events[1..]);
    }
  }

  // ----- From the submitted task on -----

  /** Every Temporal run of a submitted task shows the last session it was told, and the first
      error; every Vercel run of a valid capsule likewise. */
  lemma SubmittedRunTells(task: Json, events: seq<T.Event>)
    requires AssertedTask(task)
    ensures var w := T.Submitted(task); var s := T.Exec(w, events).snap;
            s.session == LastOf(Sessions(w, events), None) && s.error == FirstCause(w, events)
  {
    SessionIsLast(T.Submitted(task), events);
    ErrorIsFirstCause(T.Submitted(task), events);
  }

  lemma StartedRunTells(task: Json, runId: Text, events: seq<V.Event>)
    requires ValidTaskCapsule(task)
    ensures var v := V.Started(V.InitialSnapshot(task, runId).value); var s := V.Exec(v, events).snap;
            s.session == LastOf(SessionsV(v, events), None) && s.error == FirstCauseV(v, events)
  {
    V.StartedInv(task, runId);
    hide ValidTaskCapsule, V.StreamInv, Accounts;
    SessionIsLastV(V.Started(V.InitialSnapshot(task, runId).value), events);
    ErrorIsFirstCauseV(V.Started(V.InitialSnapshot(task, runId).value), events);
  }

  /** A live task whose agent fails shows the agent's own error ever after, on both backends. */
  lemma AgentErrorStays(w: T.Workflow, events: seq<T.Event>, v: V.Running, rest: seq<V.Event>, error: Json)
    requires w.snap.initialized && T.OutcomeFields(w.snap) && InTurn(w)
    requires V.Inv(v) && V.OutcomeFields(v.snap) && v.pc.InTurn?
    requires error != Null
    ensures var failed := TurnEnded(AgentFailed(Some(error)));
            var s := T.Exec(w, [T.Respond(failed)] + events).snap; var t := V.Exec(v, [V.Respond(failed)] + rest).snap;
            s.view.state == FAILED && s.error == Some(T.AgentError(error)) &&
            t.view.state == FAILED && t.error == Some(V.AgentError(error))
  {
    hide Lit, V.StreamInv;
    var failed := TurnEnded(AgentFailed(Some(error)));
    var es, fs := [T.Respond(failed)] + events, [V.Respond(failed)] + rest;
    assert es[1..] == events && fs[1..] == rest;
    T.TerminalIsFinal(T.Step(w, es[0]), events);
    V.StepRefines(v, fs[0]);
    V.DoneIsFinal(V.Step(v, fs[0]), rest);
  }

  // ----- The verification documents -----

  /** Either backend shows the two documents the verifier gave, each under its own name. */
  lemma DocumentsShown(w: T.Workflow, v: V.Running, passed: bool, report: Json, provenance: Json, material: Json)
    requires w.pc.AwaitVerify? && V.Inv(v) && v.pc.InVerify?
    ensures var r := Verified(passed, report, provenance, material);
            var s := T.OnRespond(w, r).snap; var t := V.OnRespond(v, r).snap;
            s.report == Some(report) && s.provenance == Some(provenance) &&
            t.report == Some(report) && t.provenance == Some(provenance)
  {
    hide Lit, V.StreamInv, T.AdoptArguments, NoEffectKey;
  }

  /** The effect-key template throws exactly when there is no first candidate, it is `null`, or its
      digest is an object with a `toString` of its own, or holds one in arrays. */
  lemma NoEffectKeyExactly(candidates: seq<Json>)
    ensures NoEffectKey(candidates) <==>
            candidates == [] || candidates[0] == Null ||
            match Get(candidates[0], Lit("digest")) case Some(d) => HidesInside(d) case None => false
  {
    hide Get, Lit, NoText, HidesInside;
    if candidates != [] && Get(candidates[0], Lit("digest")).Some? { NoTextExactly(Get(candidates[0], Lit("digest")).value); }
  }

  /** The key under which a passed candidate is adopted: its digest, or the word `undefined` for a
      candidate without one. */
  lemma KeyOfCandidate(w: T.Workflow, report: Json, provenance: Json, material: Json)
    requires T.Inv(w) && w.pc.AwaitVerify? && !Terminal(w.snap.view.state) && !NoEffectKey(w.snap.view.candidates)
    ensures var w' := T.OnRespond(w, Verified(true, report, provenance, material));
            var s := w.snap;
            w'.pc.AwaitAdopt? && w'.pc.input.candidate == s.view.candidates[0] &&
            w'.pc.input.report == report && w'.pc.input.provenance == provenance && w'.pc.input.turnNo == s.view.turnNo &&
            match Get(s.view.candidates[0], Lit("digest"))
            case Some(Str(d)) => w'.pc.input.effectKey == Lit("adopt:") + s.taskId + Lit(":") + s.attemptId + Lit(":") + d
            case None => w'.pc.input.effectKey == Lit("adopt:") + s.taskId + Lit(":") + s.attemptId + Lit(":") + Lit("undefined")
            case _ => true
  {
    hide Get, Lit, Accounts;
    assert w.snap.view.candidates != [] by { HasFirst(w.snap.view.candidates); }
    hide NoEffectKey;
  }

  lemma HasFirst(candidates: seq<Json>)
    requires !NoEffectKey(candidates)
    ensures candidates != []
  {
  }
}
