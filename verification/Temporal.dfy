/** The Temporal workflow `runAgentTaskWorkflow`: a coroutine suspended at its awaits, with
    the submit, delta and cancel handlers running between any two of its steps. */
module Temporal {
  import opened Utf16
  import opened Wrappers
  import opened Json
  import opened TaskState
  import opened Environment
  import opened Protocol

  datatype TaskError =
    | CanceledByRequest
    | TemporalCanceled
    | AgentError(error: Json)
    | AgentFailedCode
    | VerificationFailed
    | WorkflowFailed(message: Text)

  /** The snapshot; `view` holds the fields that the protocol machine describes. */
  datatype Snapshot = Snapshot(
    initialized: bool, taskId: Text, contextId: Text, attemptId: Text, task: Option<Json>,
    terminal: bool, view: View, session: Option<Json>,
    compiled: Option<Json>, lastDelta: Option<Json>,
    report: Option<Json>, provenance: Option<Json>, adoption: Option<Json>,
    error: Option<TaskError>)

  /** The arguments of the `adoptArtifact` activity. */
  datatype AdoptInput = AdoptInput(
    taskId: Text, attemptId: Text, turnNo: nat, candidate: Json, report: Json, provenance: Json, effectKey: Text)

  /** Where the coroutine is suspended. */
  datatype Control =
    | AwaitSubmit
    | AwaitCompile
    | AwaitTurn(turnNo: nat)
    | AwaitDelta
    | AwaitMerge(delta: Json)
    | AwaitVerify
    | AwaitAdopt(input: AdoptInput)
    | Returned
    | Aborted

  datatype Workflow = Workflow(pc: Control, snap: Snapshot, pending: Option<Json>, cancelRequested: bool)

  datatype Event =
    | Submit(task: Json)
    | RequestCancel
    | Resume
    | Respond(r: Response)
    | ScopeCanceled

  const INITIAL_SNAPSHOT := Snapshot(
    false, [], [], [], None, false, View(SUBMITTED, 0, 0, 0, None, [], []), None,
    None, None, None, None, None, None)

  const INITIAL := Workflow(AwaitSubmit, INITIAL_SNAPSHOT, None, false)

  /** The closure `transition`: no effect on a terminal snapshot, otherwise `patched` moves to `to`. */
  function Transition(s: Snapshot, to: State, patched: Snapshot): Snapshot {
    if Terminal(s.view.state) then s
    else patched.(view := Moved(patched.view, to), terminal := Terminal(to))
  }

  function DeltaContextOf(s: Snapshot): DeltaContext {
    DeltaContext(s.view.state, s.taskId, s.attemptId, s.view.need, s.view.contextSeq, s.view.applied)
  }

  // ----- The handlers -----

  function ExecutionHash(task: Json): Option<Json> { Get(task, Lit("execution_hash")) }

  predicate SubmitAccepted(s: Snapshot, task: Json) {
    AssertedTask(task) &&
    (s.initialized ==> s.task.Some? && StrictlyEqual(ExecutionHash(s.task.value), ExecutionHash(task)))
  }

  function OnSubmit(w: Workflow, task: Json): Workflow {
    if !SubmitAccepted(w.snap, task) || w.snap.initialized then w
    else w.(snap := w.snap.(
      initialized := true,
      taskId := StringField(task, Lit("task_id")),
      contextId := StringField(task, Lit("context_id")),
      attemptId := StringField(task, Lit("logical_attempt_id")),
      task := Some(task),
      view := w.snap.view.(state := SUBMITTED, stateSeq := 1)))
  }

  /** The id of the delta, when `assertDeltaAllowed` lets the update through. */
  function AllowedId(s: Snapshot, delta: Json): Option<Text> {
    Allowed(AssertDeltaAllowed(DeltaContextOf(s), delta), delta)
  }

  function OnDelta(w: Workflow, delta: Json): Workflow {
    match AllowedId(w.snap, delta)
    case None => w
    case Some(id) => AcceptDelta(w, delta, id)
  }

  function AcceptDelta(w: Workflow, delta: Json, id: Text): Workflow {
    var v := w.snap.view;
    w.(pending := Some(delta),
       snap := w.snap.(
         view := Moved(v, WORKING).(contextSeq := v.contextSeq + 1, need := None, applied := v.applied + [id]),
         lastDelta := Get(delta, Lit("delta_ref"))))
  }

  function OnCancel(w: Workflow): Workflow {
    w.(cancelRequested := true,
       snap := Transition(w.snap, CANCELED, w.snap.(error := Some(CanceledByRequest))))
  }

  // ----- The coroutine -----

  /** The `catch` block for anything but a cancellation. */
  function Fail(w: Workflow, message: Text): Workflow {
    w.(pc := Returned, snap := Transition(w.snap, FAILED, w.snap.(error := Some(WorkflowFailed(message)))))
  }

  /** The head of the turn loop. */
  function OpenTurn(w: Workflow): Workflow {
    if w.cancelRequested then w.(pc := Returned)
    else
      var turnNo := w.snap.view.turnNo + 1;
      w.(pc := AwaitTurn(turnNo),
         snap := Transition(w.snap, WORKING, w.snap.(view := w.snap.view.(turnNo := turnNo))))
  }

  function OnResume(w: Workflow): Workflow {
    match w.pc
    case AwaitSubmit =>
      if !w.snap.initialized && !w.cancelRequested then w
      else if w.cancelRequested then w.(pc := Returned)
      else w.(pc := AwaitCompile, snap := Transition(w.snap, COMPILING_CONTEXT, w.snap))
    case AwaitDelta =>
      if w.pending.None? && !w.cancelRequested then w
      else if w.cancelRequested then w.(pc := Returned)
      else w.(pc := AwaitMerge(w.pending.value), pending := None)
    case _ => w
  }

  function OnTurn(w: Workflow, output: AgentOutput): Workflow {
    match output
    case InputRequired(need, session) =>
      // Cloning a missing need is `JSON.parse(undefined)`, which throws.
      if need.None? then Fail(w, Lit("undefined is not valid JSON"))
      else w.(pc := AwaitDelta,
              snap := Transition(w.snap, INPUT_REQUIRED,
                w.snap.(view := w.snap.view.(need := need), session := OrElse(session, w.snap.session))))
    case AgentFailed(error) =>
      w.(pc := Returned,
         snap := Transition(w.snap, FAILED,
           w.snap.(error := Some(match OrElse(error, None) case Some(e) => AgentError(e) case None => AgentFailedCode))))
    case Candidates(refs, session) =>
      if refs == [] then Fail(w, Lit("agent returned an invalid terminal output"))
      else w.(pc := AwaitVerify,
              snap := Transition(w.snap, VERIFYING,
                w.snap.(view := w.snap.view.(candidates := refs), session := OrElse(session, w.snap.session))))
    case Malformed => Fail(w, Lit("agent returned an invalid terminal output"))
  }

  /** A value inside a template string, where that does not throw. */
  function TemplateText(v: Option<Json>): Text {
    match v
    case None => Lit("undefined")
    case Some(x) => AsString(x)
  }

  function AdoptKey(taskId: Text, attemptId: Text, digest: Text): Text {
    Lit("adopt:") + taskId + Lit(":") + attemptId + Lit(":") + digest
  }

  function AdoptArguments(s: Snapshot, report: Json, provenance: Json): AdoptInput
    requires s.view.candidates != []
  {
    var candidate := s.view.candidates[0];
    AdoptInput(s.taskId, s.attemptId, s.view.turnNo, candidate, report, provenance,
               AdoptKey(s.taskId, s.attemptId, TemplateText(Get(candidate, Lit("digest")))))
  }

  function OnVerified(w: Workflow, passed: bool, report: Json, provenance: Json): Workflow {
    var s := w.snap.(report := Some(report), provenance := Some(provenance));
    if !passed then
      w.(pc := Returned, snap := Transition(s, FAILED, s.(error := Some(VerificationFailed))))
    else
      var s' := Transition(s, ADOPTING, s);
      if NoEffectKey(s'.view.candidates) then Fail(w.(snap := s'), Lit("TypeError"))
      else w.(pc := AwaitAdopt(AdoptArguments(s', report, provenance)), snap := s')
  }

  /** The coroutine continues with the answer it waits for; any other answer is not for it. */
  function OnRespond(w: Workflow, r: Response): Workflow {
    match (w.pc, r)
    case (_, DeltaOffered(delta)) => OnDelta(w, delta)
    case (AwaitCompile, Compiled(ref)) => OpenTurn(w.(snap := w.snap.(compiled := Some(ref))))
    case (AwaitTurn(_), TurnEnded(output)) => OnTurn(w, output)
    case (AwaitMerge(_), Merged(ref)) => OpenTurn(w.(snap := w.snap.(compiled := Some(ref))))
    case (AwaitVerify, Verified(passed, report, provenance, _)) => OnVerified(w, passed, report, provenance)
    case (AwaitAdopt(_), AdoptionDone(ref)) =>
      w.(pc := Returned, snap := Transition(w.snap, COMPLETED, w.snap.(adoption := Some(ref))))
    case (_, Threw(message)) =>
      if w.pc.AwaitCompile? || w.pc.AwaitTurn? || w.pc.AwaitMerge? || w.pc.AwaitVerify? || w.pc.AwaitAdopt?
      then Fail(w, message) else w
    case _ => w
  }

  /** The workflow scope is cancelled: caught inside the `try`, fatal before it. */
  function OnScopeCanceled(w: Workflow): Workflow {
    match w.pc
    case Returned => w
    case Aborted => w
    case AwaitSubmit => w.(pc := Aborted)
    case _ => w.(pc := Returned, snap := Transition(w.snap, CANCELED, w.snap.(error := Some(TemporalCanceled))))
  }

  function Step(w: Workflow, e: Event): Workflow {
    match e
    case Submit(task) => OnSubmit(w, task)
    case RequestCancel => OnCancel(w)
    case Resume => OnResume(w)
    case Respond(r) => OnRespond(w, r)
    case ScopeCanceled => OnScopeCanceled(w)
  }

  function Exec(w: Workflow, events: seq<Event>): Workflow
    decreases events
  {
    if events == [] then w else Exec(Step(w, events[0]), events[1..])
  }

  /** The state that Update-With-Start leaves: the submit is handled before anything else. */
  function Submitted(task: Json): Workflow { OnSubmit(INITIAL, task) }

  // ----- Refinement of the protocol machine -----

  function PhaseOf(w: Workflow): Phase {
    if Terminal(w.snap.view.state) then Phase.Ended
    else
      match w.pc
      case AwaitCompile => Compiling
      case AwaitTurn(_) => Turn
      case AwaitDelta => if w.pending.Some? then Merging else Waiting
      case AwaitMerge(_) => Merging
      case AwaitVerify => Verifying
      case AwaitAdopt(_) => Adopting
      case _ => Phase.Submitted
  }

  function Abs(w: Workflow): Machine { Machine(PhaseOf(w), w.snap.view) }

  predicate Inv(w: Workflow) {
    w.snap.initialized &&
    w.snap.terminal == Terminal(w.snap.view.state) &&
    (w.cancelRequested ==> Terminal(w.snap.view.state)) &&
    (w.pc.Returned? ==> Terminal(w.snap.view.state)) &&
    (w.pending.Some? ==> w.pc.AwaitDelta? || w.pc.Returned?) &&
    (w.pc.AwaitTurn? && !Terminal(w.snap.view.state) ==> w.pc.turnNo == w.snap.view.turnNo) &&
    Accounts(Abs(w))
  }

  /** The actions of the protocol machine that one event performs. */
  function Actions(w: Workflow, e: Event): seq<Action> {
    if Terminal(w.snap.view.state) then []
    else
      match e
      case Submit(_) => []
      case RequestCancel => [Stopped(CANCELED)]
      case Resume => if w.pc.AwaitSubmit? then [Begin] else []
      case ScopeCanceled => if w.pc.AwaitSubmit? || w.pc.Aborted? then [] else [Stopped(CANCELED)]
      case Respond(r) =>
        match (w.pc, r)
        case (_, DeltaOffered(delta)) =>
          (match AllowedId(w.snap, delta) case None => [] case Some(id) => [AcceptedDelta(id)])
        case (AwaitCompile, Compiled(_)) => [CompiledContext]
        case (AwaitTurn(_), TurnEnded(output)) => TurnActions(output)
        case (AwaitMerge(_), Merged(_)) => [MergedContext]
        case (AwaitVerify, Verified(passed, _, _, _)) =>
          if !passed then [Stopped(FAILED)]
          else if NoEffectKey(w.snap.view.candidates) then [PassedVerification, Stopped(FAILED)]
          else [PassedVerification]
        case (AwaitAdopt(_), AdoptionDone(_)) => [Adopted]
        case (_, Threw(_)) =>
          if w.pc.AwaitCompile? || w.pc.AwaitTurn? || w.pc.AwaitMerge? || w.pc.AwaitVerify? || w.pc.AwaitAdopt?
          then [Stopped(FAILED)] else []
        case _ => []
  }

  function TurnActions(output: AgentOutput): seq<Action> {
    match output
    case InputRequired(need, _) => if need.None? then [Stopped(FAILED)] else [AskedForContext(need)]
    case Candidates(refs, _) => if refs == [] then [Stopped(FAILED)] else [OfferedCandidates(refs)]
    case _ => [Stopped(FAILED)]
  }

  lemma RunOne(m: Machine, a: Action)
    ensures Run(m, [a]) == Enabled(m, a)
    ensures After(m, [a]) == Apply(m, a)
  {
    assert [a][1..] == [];
  }

  lemma RunTwo(m: Machine, a: Action, b: Action)
    ensures Run(m, [a, b]) == (Enabled(m, a) && Enabled(Apply(m, a), b))
    ensures After(m, [a, b]) == Apply(Apply(m, a), b)
  {
    assert [a, b][1..] == [b];
    RunOne(Apply(m, a), b);
  }

  /** Whatever happens next, the workflow performs actions the protocol allows, and nothing else. */
  predicate Refines(w: Workflow, acts: seq<Action>, w': Workflow) {
    Run(Abs(w), acts) && Abs(w') == After(Abs(w), acts) && Inv(w')
  }

  lemma AllowedIdFacts(s: Snapshot, delta: Json)
    ensures AllowedId(s, delta).Some? ==>
              s.view.state == INPUT_REQUIRED && AllowedId(s, delta).value !in s.view.applied
    ensures AssertDeltaAllowed(DeltaContextOf(s), delta).None? <==> AllowedId(s, delta).Some?
    ensures AllowedId(s, delta).Some? ==>
              NonEmptyString(Get(delta, Lit("delta_id"))) &&
              AllowedId(s, delta).value == StringField(delta, Lit("delta_id"))
  {
    AllowedDelta(DeltaContextOf(s), delta);
  }

  lemma AcceptRefines(w: Workflow, delta: Json, id: Text)
    requires Inv(w) && w.snap.view.state == INPUT_REQUIRED && id !in w.snap.view.applied
    ensures Refines(w, [AcceptedDelta(id)], AcceptDelta(w, delta, id))
  {
    RunOne(Abs(w), AcceptedDelta(id));
    ApplyKeepsAccounts(Abs(w), AcceptedDelta(id));
  }

  lemma OneAction(w: Workflow, a: Action, w': Workflow)
    requires Inv(w) && Enabled(Abs(w), a) && Abs(w') == Apply(Abs(w), a)
    requires Accounts(Abs(w')) ==> Inv(w')
    ensures Refines(w, [a], w')
  {
    RunOne(Abs(w), a);
    ApplyKeepsAccounts(Abs(w), a);
  }

  lemma FailRefines(w: Workflow, message: Text)
    requires Inv(w) && !Terminal(w.snap.view.state)
    ensures Refines(w, [Stopped(FAILED)], Fail(w, message))
  {
    OneAction(w, Stopped(FAILED), Fail(w, message));
  }

  lemma TurnRefines(w: Workflow, output: AgentOutput)
    requires Inv(w) && w.pc.AwaitTurn? && !Terminal(w.snap.view.state)
    ensures Refines(w, TurnActions(output), OnTurn(w, output))
  {
    if output.AgentFailed? {
      OneAction(w, Stopped(FAILED), OnTurn(w, output));
    } else if TurnActions(output)[0] == Stopped(FAILED) {
      FailRefines(w, Lit("undefined is not valid JSON"));
      FailRefines(w, Lit("agent returned an invalid terminal output"));
    } else {
      OneAction(w, TurnActions(output)[0], OnTurn(w, output));
    }
  }

  lemma VerifiedRefines(w: Workflow, passed: bool, report: Json, provenance: Json, material: Json)
    requires Inv(w) && w.pc.AwaitVerify? && !Terminal(w.snap.view.state)
    ensures Refines(w, Actions(w, Respond(Verified(passed, report, provenance, material))), OnVerified(w, passed, report, provenance))
  {
    hide AdoptArguments;
    var w' := OnVerified(w, passed, report, provenance);
    if !passed {
      OneAction(w, Stopped(FAILED), w');
    } else if NoEffectKey(w.snap.view.candidates) {
      RunTwo(Abs(w), PassedVerification, Stopped(FAILED));
      ApplyKeepsAccounts(Abs(w), PassedVerification);
      ApplyKeepsAccounts(Apply(Abs(w), PassedVerification), Stopped(FAILED));
    } else {
      OneAction(w, PassedVerification, w');
    }
  }

  lemma RespondRefines(w: Workflow, r: Response)
    requires Inv(w) && !Terminal(w.snap.view.state)
    ensures Refines(w, Actions(w, Respond(r)), OnRespond(w, r))
  {
    hide AssertDeltaAllowed, Allowed, Accounts, OnTurn, OnVerified, TurnActions, AcceptDelta;
    match (w.pc, r)
    case (_, DeltaOffered(delta)) =>
      AllowedIdFacts(w.snap, delta);
      match AllowedId(w.snap, delta) {
        case Some(id) => AcceptRefines(w, delta, id);
        case None =>
      }
    case (AwaitCompile, Compiled(ref)) => OneAction(w, CompiledContext, OnRespond(w, r));
    case (AwaitTurn(_), TurnEnded(output)) => TurnRefines(w, output);
    case (AwaitMerge(_), Merged(ref)) => OneAction(w, MergedContext, OnRespond(w, r));
    case (AwaitVerify, Verified(passed, report, provenance, material)) => VerifiedRefines(w, passed, report, provenance, material);
    case (AwaitAdopt(_), AdoptionDone(ref)) => OneAction(w, Adopted, OnRespond(w, r));
    case (_, Threw(message)) => FailRefines(w, message);
    case _ =>
  }

  /** A terminal workflow only unwinds. */
  lemma TerminalStep(w: Workflow, e: Event)
    requires w.snap.initialized && Terminal(w.snap.view.state)
    ensures SameOutcome(w.snap, Step(w, e).snap)
    ensures Inv(w) ==> Inv(Step(w, e))
  {
    hide AdoptArguments, Lit, Get, SubmitAccepted;
    match e
    case Respond(DeltaOffered(delta)) => AllowedIdFacts(w.snap, delta);
    case _ =>
  }

  /** Whatever happens next, the workflow performs actions the protocol allows, and nothing else. */
  lemma StepRefines(w: Workflow, e: Event)
    requires Inv(w)
    ensures Run(Abs(w), Actions(w, e))
    ensures Abs(Step(w, e)) == After(Abs(w), Actions(w, e))
    ensures Inv(Step(w, e))
  {
    if Terminal(w.snap.view.state) {
      TerminalStep(w, e);
    } else {
      match e
      case Submit(task) =>
      case RequestCancel => OneAction(w, Stopped(CANCELED), Step(w, e));
      case Resume => if w.pc.AwaitSubmit? { OneAction(w, Begin, Step(w, e)); }
      case ScopeCanceled =>
        if !w.pc.AwaitSubmit? && !w.pc.Aborted? { OneAction(w, Stopped(CANCELED), Step(w, e)); }
      case Respond(r) => RespondRefines(w, r);
    }
  }

  lemma SubmittedInv(task: Json)
    requires AssertedTask(task)
    ensures Inv(Submitted(task))
    ensures Abs(Submitted(task)) == START
  {
  }

  // ----- Whole runs -----

  /** The actions of a run, in order. */
  function RunActions(w: Workflow, events: seq<Event>): seq<Action>
    decreases events
  {
    if events == [] then [] else Actions(w, events[0]) + RunActions(Step(w, events[0]), events[1..])
  }

  /** Every run of the workflow, under every interleaving of handlers, results, failures and
      cancellations, is a run of the protocol machine. */
  lemma {:induction false} RunRefines(w: Workflow, events: seq<Event>)
    requires Inv(w)
    ensures Run(Abs(w), RunActions(w, events))
    ensures Abs(Exec(w, events)) == After(Abs(w), RunActions(w, events))
    ensures Inv(Exec(w, events))
    decreases events
  {
    if events != [] {
      StepRefines(w, events[0]);
      RunRefines(Step(w, events[0]), events[1..]);
      RunAppend(Abs(w), Actions(w, events[0]), RunActions(Step(w, events[0]), events[1..]));
    }
  }

  /** The sequence accounting at every point of every submitted run. */
  lemma SubmittedRunAccounts(task: Json, events: seq<Event>)
    requires AssertedTask(task)
    ensures var w := Exec(Submitted(task), events);
            Run(START, RunActions(Submitted(task), events)) &&
            Path(START, RunActions(Submitted(task), events)) &&
            w.snap.view.stateSeq == 1 + |RunActions(Submitted(task), events)| &&
            Accounts(Abs(w)) &&
            (w.pc.Returned? ==> Terminal(w.snap.view.state)) &&
            (w.snap.view.state == COMPLETED ==>
               w.snap.view.stateSeq == 3 * w.snap.view.contextSeq + 6 &&
               w.snap.view.turnNo == w.snap.view.contextSeq + 1)
  {
    SubmittedInv(task);
    RunRefines(Submitted(task), events);
    RunKeepsAccounts(START, RunActions(Submitted(task), events));
    RunIsPath(START, RunActions(Submitted(task), events));
  }

  /** What a terminal snapshot keeps: everything but the references that late activity
      results may still write. */
  predicate SameOutcome(s: Snapshot, t: Snapshot) {
    s.view == t.view && s.terminal == t.terminal && s.error == t.error && s.initialized == t.initialized
  }

  /** Cancel wins: after an initialised run is terminal, no event changes the outcome. */
  lemma {:induction false} TerminalIsFinal(w: Workflow, events: seq<Event>)
    requires w.snap.initialized && Terminal(w.snap.view.state)
    ensures SameOutcome(w.snap, Exec(w, events).snap)
    decreases events
  {
    if events != [] {
      TerminalStep(w, events[0]);
      TerminalIsFinal(Step(w, events[0]), events[1..]);
    }
  }

  /** Without the submit-first order the outcome is not final: a submit reopens a snapshot
      that an earlier cancel closed, exactly when nothing was submitted before. */
  lemma SubmitReopens(w: Workflow, task: Json)
    requires Terminal(w.snap.view.state)
    ensures OnSubmit(w, task).snap.view.state != w.snap.view.state <==>
            !w.snap.initialized && AssertedTask(task)
    ensures AssertedTask(task) ==>
            var v := OnSubmit(OnCancel(INITIAL), task).snap;
            v.view.state == SUBMITTED && v.terminal && v.error == Some(CanceledByRequest)
  {
  }

  // ----- The first submit counts -----

  /** What a submit puts into the snapshot. */
  predicate SubmittedAs(s: Snapshot, task: Json) {
    s.initialized && s.task == Some(task) &&
    Get(task, Lit("task_id")) == Some(Str(s.taskId)) && Get(task, Lit("context_id")) == Some(Str(s.contextId)) &&
    Get(task, Lit("logical_attempt_id")) == Some(Str(s.attemptId))
  }

  lemma FirstSubmit(task: Json)
    requires AssertedTask(task)
    ensures SubmittedAs(Submitted(task).snap, task)
    ensures Submitted(task) == INITIAL.(snap := Submitted(task).snap)
    ensures var s := Submitted(task).snap;
            s == INITIAL_SNAPSHOT.(initialized := true, task := Some(task), taskId := s.taskId, contextId := s.contextId,
                                   attemptId := s.attemptId, view := View(SUBMITTED, 1, 0, 0, None, [], []))
  {
    hide Lookup, Lit;
  }

  /** The two snapshots are of the same submission. */
  predicate SameSubmission(s: Snapshot, s': Snapshot) {
    s'.initialized == s.initialized && s'.task == s.task && s'.taskId == s.taskId &&
    s'.contextId == s.contextId && s'.attemptId == s.attemptId
  }

  lemma TransitionSubmission(s: Snapshot, to: State, patched: Snapshot)
    requires SameSubmission(s, patched)
    ensures SameSubmission(s, Transition(s, to, patched))
  {
  }

  lemma FailSubmission(w: Workflow, message: Text)
    ensures SameSubmission(w.snap, Fail(w, message).snap)
  {
  }

  lemma TurnSubmission(w: Workflow, output: AgentOutput)
    ensures SameSubmission(w.snap, OnTurn(w, output).snap)
  {
    var s := w.snap;
    match output
    case InputRequired(need, session) =>
      TransitionSubmission(s, INPUT_REQUIRED, s.(view := s.view.(need := need), session := OrElse(session, s.session)));
      FailSubmission(w, Lit("undefined is not valid JSON"));
      hide Lit, OrElse, Transition, Fail, SameSubmission;
    case AgentFailed(error) =>
      TransitionSubmission(s, FAILED,
        s.(error := Some(match OrElse(error, None) case Some(e) => AgentError(e) case None => AgentFailedCode)));
      hide Lit, OrElse, Transition, Fail, SameSubmission;
    case Candidates(refs, session) =>
      TransitionSubmission(s, VERIFYING, s.(view := s.view.(candidates := refs), session := OrElse(session, s.session)));
      FailSubmission(w, Lit("agent returned an invalid terminal output"));
      hide Lit, OrElse, Transition, Fail, SameSubmission;
    case Malformed => FailSubmission(w, Lit("agent returned an invalid terminal output"));
  }

  lemma VerifiedSubmission(w: Workflow, passed: bool, report: Json, provenance: Json)
    ensures SameSubmission(w.snap, OnVerified(w, passed, report, provenance).snap)
  {
    hide Lit, NoEffectKey, AdoptArguments, Moved;
  }

  lemma DeltaSubmission(w: Workflow, delta: Json)
    ensures SameSubmission(w.snap, OnDelta(w, delta).snap)
  {
    hide Lit, Get, AllowedId, Moved;
  }

  lemma RespondSubmission(w: Workflow, r: Response)
    ensures SameSubmission(w.snap, OnRespond(w, r).snap)
  {
    hide OnTurn, OnVerified, OnDelta, Moved, SameSubmission;
    match (w.pc, r)
    case (_, DeltaOffered(delta)) => DeltaSubmission(w, delta);
    case (AwaitTurn(_), TurnEnded(output)) => TurnSubmission(w, output);
    case (AwaitVerify, Verified(passed, report, provenance, _)) => VerifiedSubmission(w, passed, report, provenance);
    case _ => OtherSubmission(w, r);
  }

  lemma OtherSubmission(w: Workflow, r: Response)
    requires !r.DeltaOffered? && !(w.pc.AwaitTurn? && r.TurnEnded?) && !(w.pc.AwaitVerify? && r.Verified?)
    ensures SameSubmission(w.snap, OnRespond(w, r).snap)
  {
    hide OnTurn, OnVerified, OnDelta, Moved;
  }

  lemma StepKeepsSubmission(w: Workflow, e: Event, task: Json)
    requires SubmittedAs(w.snap, task)
    ensures SubmittedAs(Step(w, e).snap, task)
  {
    hide Get, Lit, OnRespond, SubmitAccepted, Moved;
    if e.Respond? { RespondSubmission(w, e.r); }
  }

  lemma {:induction false} RunKeepsSubmission(w: Workflow, events: seq<Event>, task: Json)
    requires SubmittedAs(w.snap, task)
    ensures SubmittedAs(Exec(w, events).snap, task)
    decreases events
  {
    hide Step, SubmittedAs;
    if events != [] {
      StepKeepsSubmission(w, events[0], task);
      RunKeepsSubmission(Step(w, events[0]), events[1..], task);
    }
  }

  /** On every run of a submitted task, another submit is let through exactly when it is a task
      with the same execution hash, and it changes nothing: neither the task nor its ids. */
  lemma SecondSubmit(task: Json, events: seq<Event>, second: Json)
    requires AssertedTask(task)
    ensures var w := Exec(Submitted(task), events);
            (SubmitAccepted(w.snap, second) <==>
               AssertedTask(second) && Get(second, Lit("execution_hash")) == Get(task, Lit("execution_hash"))) &&
            OnSubmit(w, second) == w && SubmittedAs(w.snap, task)
  {
    hide Get, Lit, Step;
    FirstSubmit(task);
    RunKeepsSubmission(Submitted(task), events, task);
  }

  /** A snapshot has an error exactly when it failed or was cancelled, and an adoption
      reference exactly when it completed. */
  predicate OutcomeFields(s: Snapshot) {
    (s.error.Some? <==> s.view.state == FAILED || s.view.state == CANCELED) &&
    (s.adoption.Some? <==> s.view.state == COMPLETED)
  }

  lemma TurnOutcome(w: Workflow, output: AgentOutput)
    requires OutcomeFields(w.snap)
    ensures OutcomeFields(OnTurn(w, output).snap)
  {
    hide Moved;
    match output
    case InputRequired(need, session) =>
      if need.Some? {
        TransitionOutcome(w.snap, INPUT_REQUIRED, w.snap.(view := w.snap.view.(need := need), session := OrElse(session, w.snap.session)));
      } else {
        FailOutcome(w, Lit("undefined is not valid JSON"));
      }
    case Candidates(refs, session) =>
      if refs != [] {
        TransitionOutcome(w.snap, VERIFYING, w.snap.(view := w.snap.view.(candidates := refs), session := OrElse(session, w.snap.session)));
      } else {
        FailOutcome(w, Lit("agent returned an invalid terminal output"));
      }
    case AgentFailed(error) =>
      TransitionOutcome(w.snap, FAILED,
        w.snap.(error := Some(match OrElse(error, None) case Some(e) => AgentError(e) case None => AgentFailedCode)));
    case Malformed => FailOutcome(w, Lit("agent returned an invalid terminal output"));
  }

  lemma TransitionOutcome(s: Snapshot, to: State, patched: Snapshot)
    requires OutcomeFields(s) && to != COMPLETED && patched.adoption == s.adoption
    requires !Terminal(s.view.state) ==> (patched.error.Some? <==> to == FAILED || to == CANCELED)
    ensures OutcomeFields(Transition(s, to, patched))
  {
  }

  lemma FailOutcome(w: Workflow, message: Text)
    requires OutcomeFields(w.snap)
    ensures OutcomeFields(Fail(w, message).snap)
  {
  }

  lemma VerifiedOutcome(w: Workflow, passed: bool, report: Json, provenance: Json)
    requires OutcomeFields(w.snap)
    ensures OutcomeFields(OnVerified(w, passed, report, provenance).snap)
  {
    hide AdoptArguments;
  }

  lemma DeltaOutcome(w: Workflow, delta: Json)
    requires OutcomeFields(w.snap)
    ensures OutcomeFields(OnDelta(w, delta).snap)
  {
    hide AllowedId;
    AllowedIdFacts(w.snap, delta);
  }

  lemma StepOutcome(w: Workflow, e: Event)
    requires OutcomeFields(w.snap) && w.snap.initialized
    ensures OutcomeFields(Step(w, e).snap) && Step(w, e).snap.initialized
  {
    hide AdoptArguments, AllowedId, OnTurn, OnVerified, OnDelta, SubmitAccepted;
    if e.Respond? {
      match e.r
      case TurnEnded(output) => TurnOutcome(w, output); StaysInitialized(w, e.r);
      case Verified(passed, report, provenance, _) => VerifiedOutcome(w, passed, report, provenance); StaysInitialized(w, e.r);
      case DeltaOffered(delta) => DeltaOutcome(w, delta); StaysInitialized(w, e.r);
      case _ =>
    }
  }

  lemma StaysInitialized(w: Workflow, r: Response)
    ensures OnRespond(w, r).snap.initialized == w.snap.initialized
  {
    hide OnRespond;
    RespondSubmission(w, r);
  }

  /** On every submitted run, the error and the adoption reference agree with the state. */
  lemma {:induction false} OutcomeFieldsAgree(w: Workflow, events: seq<Event>)
    requires OutcomeFields(w.snap) && w.snap.initialized
    ensures OutcomeFields(Exec(w, events).snap)
    decreases events
  {
    hide Step, OutcomeFields;
    if events != [] {
      StepOutcome(w, events[0]);
      OutcomeFieldsAgree(Step(w, events[0]), events[1..]);
    }
  }

  // ----- Context deltas: accepted once, merged once, in order -----

  datatype Merge = Merge(input: Option<Json>, deltaRef: Option<Json>, key: Text, output: Json)

  /** The deltas the handler accepted, the compiled base, and the merges that returned. */
  datatype History = History(accepted: seq<Json>, base: Option<Json>, merges: seq<Merge>)

  const NO_HISTORY := History([], None, [])

  function DeltaId(delta: Json): Text {
    if NonEmptyString(Get(delta, Lit("delta_id"))) then StringField(delta, Lit("delta_id")) else []
  }

  function Record(w: Workflow, h: History, e: Event): History {
    match e
    case Respond(DeltaOffered(delta)) =>
      if AllowedId(w.snap, delta).Some? then h.(accepted := h.accepted + [delta]) else h
    case Respond(Compiled(ref)) => if w.pc.AwaitCompile? then h.(base := Some(ref)) else h
    case Respond(Merged(ref)) =>
      if w.pc.AwaitMerge? then h.(merges := h.merges + [MergeOf(w.snap.compiled, w.pc.delta, ref)]) else h
    case _ => h
  }

  /** One call of `mergeContextDelta` and its result. */
  function MergeOf(input: Option<Json>, delta: Json, output: Json): Merge {
    Merge(input, Get(delta, Lit("delta_ref")), Lit("merge:") + DeltaId(delta), output)
  }

  function Chronicle(w: Workflow, h: History, events: seq<Event>): History
    decreases events
  {
    if events == [] then h else Chronicle(Step(w, events[0]), Record(w, h, events[0]), events[1..])
  }

  /** What merge number `i` started from. */
  function InputOf(h: History, i: nat): Option<Json>
    requires i <= |h.merges|
  {
    if i == 0 then h.base else Some(h.merges[i - 1].output)
  }

  /** Merge number `i` consumed delta number `i`, starting from what the merge before it returned. */
  predicate MergedAt(h: History, i: nat)
    requires i < |h.merges| <= |h.accepted|
  {
    h.merges[i] == MergeOf(InputOf(h, i), h.accepted[i], h.merges[i].output)
  }

  predicate MergedInOrder(h: History) {
    |h.merges| <= |h.accepted| <= |h.merges| + 1 &&
    forall i :: 0 <= i < |h.merges| ==> MergedAt(h, i)
  }

  /** The recorded ids are the ids of the accepted deltas, in order. */
  predicate RecordsIds(v: View, h: History) {
    |h.accepted| == |v.applied| && forall i :: 0 <= i < |h.accepted| ==> DeltaId(h.accepted[i]) == v.applied[i]
  }

  /** The reference of the last accepted delta, which the next agent turn is given. */
  function LastRef(h: History): Option<Json> {
    if h.accepted == [] then None else Get(h.accepted[|h.accepted| - 1], Lit("delta_ref"))
  }

  predicate HistoryInv(w: Workflow, h: History) {
    MergedInOrder(h) && RecordsIds(w.snap.view, h) && w.snap.lastDelta == LastRef(h) &&
    w.snap.compiled == InputOf(h, |h.merges|) &&
    (w.pc.AwaitSubmit? || w.pc.AwaitCompile? ==> h.accepted == [] && h.base == None) &&
    (w.pending.Some? ==> |h.accepted| == |h.merges| + 1 && w.pending.value == h.accepted[|h.merges|]) &&
    (w.pc.AwaitMerge? ==> |h.accepted| == |h.merges| + 1 && w.pc.delta == h.accepted[|h.merges|]) &&
    (w.pending.None? && !w.pc.AwaitMerge? && !Terminal(w.snap.view.state) ==> |h.accepted| == |h.merges|)
  }

  /** An accepted delta finds the slot empty, so no accepted delta is ever overwritten. */
  lemma PendingNeverOverwritten(w: Workflow, delta: Json)
    requires Inv(w) && AssertDeltaAllowed(DeltaContextOf(w.snap), delta).None?
    ensures w.pending.None? && OnDelta(w, delta).pending == Some(delta)
    ensures w.pc.AwaitDelta? && !w.cancelRequested
  {
    hide AssertDeltaAllowed, Allowed;
    AllowedIdFacts(w.snap, delta);
  }

  lemma SameMerges(h: History, h': History)
    requires MergedInOrder(h) && h'.base == h.base && h'.merges == h.merges
    requires h.accepted <= h'.accepted && |h'.accepted| <= |h.merges| + 1
    ensures MergedInOrder(h')
  {
    forall i | 0 <= i < |h'.merges| ensures MergedAt(h', i) { assert MergedAt(h, i); }
  }

  lemma AcceptKeepsHistory(w: Workflow, h: History, delta: Json, id: Text)
    requires Inv(w) && HistoryInv(w, h) && w.pending.None? && w.pc.AwaitDelta? && !Terminal(w.snap.view.state)
    requires DeltaId(delta) == id
    ensures HistoryInv(AcceptDelta(w, delta, id), h.(accepted := h.accepted + [delta]))
  {
    SameMerges(h, h.(accepted := h.accepted + [delta]));
  }

  /** What a merged context leaves of the rest. */
  lemma MergeLeaves(w: Workflow, ref: Json)
    requires w.pc.AwaitMerge?
    ensures var w' := OnRespond(w, Merged(ref));
            w'.snap.compiled == Some(ref) && w'.snap.lastDelta == w.snap.lastDelta &&
            w'.snap.view.applied == w.snap.view.applied && w'.pending == w.pending && (w'.pc.AwaitTurn? || w'.pc.Returned?)
  {
    hide Terminal;
  }

  lemma MergeExtends(h: History, merge: Merge)
    requires MergedInOrder(h) && |h.accepted| == |h.merges| + 1
    requires merge == MergeOf(InputOf(h, |h.merges|), h.accepted[|h.merges|], merge.output)
    ensures var h' := h.(merges := h.merges + [merge]); MergedInOrder(h') && InputOf(h', |h'.merges|) == Some(merge.output)
  {
    hide MergeOf;
    var h' := h.(merges := h.merges + [merge]);
    forall i | 0 <= i < |h'.merges| ensures MergedAt(h', i) {
      if i < |h.merges| { assert MergedAt(h, i); }
    }
  }

  lemma MergeKeepsHistory(w: Workflow, h: History, ref: Json)
    requires Inv(w) && HistoryInv(w, h) && w.pc.AwaitMerge?
    ensures HistoryInv(OnRespond(w, Merged(ref)), Record(w, h, Respond(Merged(ref))))
  {
    hide OnRespond, Accounts, MergedInOrder, MergeOf, InputOf;
    MergeLeaves(w, ref);
    MergeExtends(h, MergeOf(w.snap.compiled, w.pc.delta, ref)) by { MergeOutput(w.snap.compiled, w.pc.delta, ref); }
    MergeOutput(w.snap.compiled, w.pc.delta, ref);
  }

  lemma MergeOutput(input: Option<Json>, delta: Json, output: Json)
    ensures MergeOf(input, delta, output).output == output
  {
  }

  lemma BaseKeepsHistory(w: Workflow, h: History, ref: Json)
    requires Inv(w) && HistoryInv(w, h) && w.pc.AwaitCompile?
    ensures HistoryInv(OnRespond(w, Compiled(ref)), Record(w, h, Respond(Compiled(ref))))
  {
  }

  predicate DeltaEvent(e: Event) {
    e.Respond? && (e.r.DeltaOffered? || e.r.Compiled? || e.r.Merged?)
  }

  /** What the other events leave alone. */
  predicate SameContext(w: Workflow, w': Workflow) {
    w'.snap.compiled == w.snap.compiled && w'.snap.view.applied == w.snap.view.applied &&
    w'.snap.lastDelta == w.snap.lastDelta &&
    (w'.pending == w.pending || w'.pending == None) &&
    (w'.pc.AwaitSubmit? || w'.pc.AwaitCompile? ==> w.pc.AwaitSubmit? || w.pc.AwaitCompile?) &&
    (w'.pc.AwaitMerge? ==> w'.pc == w.pc || w.pending == Some(w'.pc.delta)) &&
    (w'.pending.None? && !w'.pc.AwaitMerge? && !Terminal(w'.snap.view.state) ==>
       w.pending.None? && !w.pc.AwaitMerge? && !Terminal(w.snap.view.state))
  }

  lemma TurnKeepsContext(w: Workflow, output: AgentOutput)
    requires Inv(w) && w.pc.AwaitTurn?
    ensures SameContext(w, OnTurn(w, output))
  {
    hide Accounts;
  }

  lemma VerifiedKeepsContext(w: Workflow, passed: bool, report: Json, provenance: Json)
    requires Inv(w) && w.pc.AwaitVerify?
    ensures SameContext(w, OnVerified(w, passed, report, provenance))
  {
    hide Accounts, AdoptArguments;
  }

  lemma OtherResponse(w: Workflow, r: Response)
    requires Inv(w) && !DeltaEvent(Respond(r))
    ensures SameContext(w, OnRespond(w, r))
  {
    if r.TurnEnded? && w.pc.AwaitTurn? { TurnKeepsContext(w, r.output); }
    if r.Verified? && w.pc.AwaitVerify? { VerifiedKeepsContext(w, r.passed, r.report, r.provenance); }
    hide Accounts, OnTurn, OnVerified, OnDelta;
  }

  lemma OtherEvent(w: Workflow, e: Event)
    requires Inv(w) && !e.Respond?
    ensures SameContext(w, Step(w, e))
  {
    hide Accounts, Stringify, Get, AssertedTask;
  }

  lemma OtherKeepsHistory(w: Workflow, h: History, e: Event)
    requires Inv(w) && HistoryInv(w, h) && !DeltaEvent(e)
    ensures HistoryInv(Step(w, e), h)
  {
    if e.Respond? { OtherResponse(w, e.r); } else { OtherEvent(w, e); }
    hide Accounts, MergedInOrder, AssertedTask, SubmitAccepted, OnTurn, OnVerified, OnSubmit, OnResume, OnDelta, OpenTurn;
  }

  lemma OfferKeepsHistory(w: Workflow, h: History, delta: Json)
    requires Inv(w) && HistoryInv(w, h)
    ensures HistoryInv(OnDelta(w, delta), Record(w, h, Respond(DeltaOffered(delta))))
  {
    hide HistoryInv, Inv, AllowedId, AcceptDelta, AssertDeltaAllowed, Get, Lit;
    AllowedIdFacts(w.snap, delta);
    if AllowedId(w.snap, delta).Some? {
      PendingNeverOverwritten(w, delta);
      AcceptKeepsHistory(w, h, delta, AllowedId(w.snap, delta).value);
    }
  }

  lemma StepKeepsHistory(w: Workflow, h: History, e: Event)
    requires Inv(w) && HistoryInv(w, h)
    ensures HistoryInv(Step(w, e), Record(w, h, e))
  {
    hide HistoryInv, Inv, OnDelta, OnSubmit, OnResume, OnTurn, OnVerified, OnCancel, OnScopeCanceled;
    match e
    case Respond(DeltaOffered(delta)) => OfferKeepsHistory(w, h, delta);
    case Respond(Merged(ref)) => if w.pc.AwaitMerge? { MergeKeepsHistory(w, h, ref); }
    case Respond(Compiled(ref)) => if w.pc.AwaitCompile? { BaseKeepsHistory(w, h, ref); }
    case _ => OtherKeepsHistory(w, h, e);
  }

  lemma {:induction false} ChronicleInOrder(w: Workflow, h: History, events: seq<Event>)
    requires Inv(w) && HistoryInv(w, h)
    ensures HistoryInv(Exec(w, events), Chronicle(w, h, events))
    decreases events
  {
    if events != [] {
      StepRefines(w, events[0]);
      StepKeepsHistory(w, h, events[0]);
      ChronicleInOrder(Step(w, events[0]), Record(w, h, events[0]), events[1..]);
    }
  }

  /** A merge activity as a function of its arguments. */
  type MergeActivity = (Option<Json>, Option<Json>, Text) -> Json

  function FoldMerges(f: MergeActivity, base: Option<Json>, deltas: seq<Json>): Option<Json> {
    if deltas == [] then base
    else
      var d := deltas[|deltas| - 1];
      var before := FoldMerges(f, base, deltas[..|deltas| - 1]);
      Some(f(before, Get(d, Lit("delta_ref")), Lit("merge:") + DeltaId(d)))
  }

  /** Every merge of the history returned what the activity gives for its arguments. */
  predicate Answers(f: MergeActivity, merges: seq<Merge>) {
    forall i :: 0 <= i < |merges| ==>
      merges[i].output == f(merges[i].input, merges[i].deltaRef, merges[i].key)
  }

  lemma {:induction false} FoldOfHistory(f: MergeActivity, h: History, n: nat)
    requires MergedInOrder(h) && n <= |h.merges| && Answers(f, h.merges)
    ensures FoldMerges(f, h.base, h.accepted[..n]) == if n == 0 then h.base else Some(h.merges[n - 1].output)
  {
    hide Get, Lit, DeltaId;
    if n > 0 {
      FoldOfHistory(f, h, n - 1);
      assert h.accepted[..n][..n - 1] == h.accepted[..n - 1];
      assert MergedAt(h, n - 1);
    }
  }

  /** On every submitted run: the accepted ids are the applied ids, all distinct and counted by
      `context_seq`; each delta is merged at most once, in order; and the compiled context is
      the left fold of the merges over the consumed deltas. */
  lemma CompiledContextIsFold(task: Json, events: seq<Event>, f: MergeActivity)
    requires AssertedTask(task)
    ensures var w := Exec(Submitted(task), events);
            var h := Chronicle(Submitted(task), NO_HISTORY, events);
            MergedInOrder(h) && RecordsIds(w.snap.view, h) && w.snap.lastDelta == LastRef(h) &&
            w.snap.view.contextSeq == |h.accepted| && Distinct(w.snap.view.applied) &&
            (Answers(f, h.merges) ==>
               w.snap.compiled == FoldMerges(f, h.base, h.accepted[..|h.merges|]))
  {
    SubmittedInv(task);
    RunRefines(Submitted(task), events);
    ChronicleInOrder(Submitted(task), NO_HISTORY, events);
    var h := Chronicle(Submitted(task), NO_HISTORY, events);
    if Answers(f, h.merges) { FoldOfHistory(f, h, |h.merges|); }
  }
}
