/** The Vercel workflow: snapshot functions that check the transition table, and the run they
    make, with the projection events it writes to its stream. */
module Vercel {
  import opened Utf16
  import opened Wrappers
  import opened Json
  import opened TaskState
  import opened Environment
  import opened Protocol
  import opened WorkflowIds

  datatype RunError =
    | IllegalTransition
    | AgentError(error: Json)
    | AgentFailedCode
    | VerificationFailed
    | WorkflowFailed(message: Text)

  datatype Snapshot = Snapshot(
    taskId: Text, contextId: Text, attemptId: Text, submissionDigest: Option<Json>, runId: Text,
    terminal: bool, view: View, session: Option<Json>,
    compiled: Option<Json>, lastDelta: Option<Json>,
    report: Option<Json>, provenance: Option<Json>, adoption: Option<Json>,
    error: Option<RunError>)

  /** Why a delta was turned away: the validator's code, or the table's. */
  datatype Rejection = Invalid(code: DeltaError) | Illegal

  datatype Projection =
    | TaskSnapshot(taskId: Text, stateSeq: nat, snapshot: Snapshot)
    | DeltaRejected(taskId: Text, stateSeq: nat, contextSeq: nat, reason: Rejection,
                    deltaId: Option<Text>, requestId: Option<Text>, expectedSeq: Option<int>)

  function SnapshotProjection(s: Snapshot): Projection { TaskSnapshot(s.taskId, s.view.stateSeq, s) }

  function StringOrNone(v: Option<Json>): Option<Text> {
    if v.Some? && v.value.Str? then Some(v.value.s) else None
  }

  function SafeIntegerOrNone(v: Option<Json>): Option<int> {
    if v.Some? && v.value.Num? && -MAX_SAFE_INTEGER <= v.value.n <= MAX_SAFE_INTEGER then Some(v.value.n) else None
  }

  function RejectionProjection(s: Snapshot, reason: Rejection, delta: Json): Projection {
    DeltaRejected(s.taskId, s.view.stateSeq, s.view.contextSeq, reason,
                  StringOrNone(Get(delta, Lit("delta_id"))),
                  StringOrNone(Get(delta, Lit("request_id"))),
                  SafeIntegerOrNone(Get(delta, Lit("expected_seq"))))
  }

  // ----- The snapshot functions -----

  /** `initialVercelSnapshot`; `None` when the capsule is refused. */
  function InitialSnapshot(task: Json, runId: Text): Option<Snapshot> {
    if !ValidTaskCapsule(task) then None
    else Some(Snapshot(
      StringField(task, Lit("task_id")), StringField(task, Lit("context_id")),
      StringField(task, Lit("logical_attempt_id")), OrElse(Get(task, Lit("execution_hash")), Some(Null)), runId,
      false, START.view, None, None, None, None, None, None, None))
  }

  /** The workflow starts: the capsule is valid and its id makes an owner token. */
  predicate Admitted(task: Json) { ValidTaskCapsule(task) && OwnerToken(task) }

  /** `transitionVercelSnapshot`; `None` is the `ILLEGAL_TRANSITION` error. */
  function Transition(s: Snapshot, to: State, patched: Snapshot): Option<Snapshot> {
    if Terminal(s.view.state) then Some(s)
    else if to !in Successors(s.view.state) then None
    else Some(patched.(view := Moved(patched.view, to), terminal := Terminal(to)))
  }

  function DeltaContextOf(s: Snapshot): DeltaContext {
    DeltaContext(s.view.state, s.taskId, s.attemptId, s.view.need, s.view.contextSeq, s.view.applied)
  }

  /** `applyContextDeltaToVercelSnapshot`. */
  function ApplyContextDelta(s: Snapshot, delta: Json): Result<Snapshot, Rejection> {
    var verdict := ValidateContextDelta(DeltaContextOf(s), delta);
    match Allowed(verdict, delta)
    case None => Err(Invalid(if verdict.Some? then verdict.value else INVALID_FIELD))
    case Some(id) =>
      if WORKING !in Successors(s.view.state) then Err(Illegal) else Ok(WithDelta(s, delta, id))
  }

  function WithDelta(s: Snapshot, delta: Json, id: Text): Snapshot {
    var v := s.view;
    s.(terminal := false,
       view := Moved(v, WORKING).(contextSeq := v.contextSeq + 1, need := None, applied := v.applied + [id]),
       lastDelta := Get(delta, Lit("delta_ref")))
  }

  /** `beginAgentTurn`: from WORKING it opens the turn itself, since the table has no step
      from WORKING to WORKING. */
  function BeginAgentTurn(s: Snapshot): Option<Snapshot> {
    var patched := s.(view := s.view.(turnNo := s.view.turnNo + 1));
    if Terminal(s.view.state) then Some(s)
    else if s.view.state == WORKING then Some(patched.(terminal := false, view := Moved(patched.view, WORKING)))
    else Transition(s, WORKING, patched)
  }

  // ----- The run -----

  /** The arguments of `adoptArtifactStep`. */
  datatype AdoptInput = AdoptInput(
    taskId: Text, attemptId: Text, turnNo: nat, candidate: Json, report: Json, provenance: Json, material: Json)

  datatype Control =
    | InCompile
    | InTurn
    | InHook
    | InMerge(delta: Json)
    | InVerify
    | InAdopt(input: AdoptInput)
    | Done

  /** A run: where it is suspended, its snapshot, and the stream it has written. */
  datatype Running = Running(pc: Control, snap: Snapshot, stream: seq<Projection>)

  datatype Event = Respond(r: Response) | HookFailed(message: Text)

  function Emit(v: Running, pc: Control, s: Snapshot): Running {
    Running(pc, s, v.stream + [SnapshotProjection(s)])
  }

  /** The outer `catch`. */
  function Catch(v: Running, error: RunError): Running {
    if Terminal(v.snap.view.state) then v.(pc := Done)
    else
      match Transition(v.snap, FAILED, v.snap.(error := Some(error)))
      case Some(s) => Emit(v, Done, s)
      case None => v.(pc := Done)
  }

  /** Emit the new snapshot and go on at `pc`, or catch the illegal transition. */
  function Proceed(v: Running, pc: Control, next: Option<Snapshot>): Running {
    match next
    case Some(s) => Emit(v, pc, s)
    case None => Catch(v, IllegalTransition)
  }

  function Move(v: Running, pc: Control, to: State, patched: Snapshot): Running {
    Proceed(v, pc, Transition(v.snap, to, patched))
  }

  function OnContext(v: Running, ref: Json): Running {
    var v' := v.(snap := v.snap.(compiled := Some(ref)));
    Proceed(v', InTurn, BeginAgentTurn(v'.snap))
  }

  /** A hook can be created for the snapshot. */
  predicate Hooked(s: Snapshot) { HookToken(s.taskId, s.attemptId, s.view.need) }

  /** Create the context hook for the emitted snapshot. */
  function OpenHook(v: Running): Running {
    if Hooked(v.snap) then v
    else Catch(v, WorkflowFailed(HookMessage(v.snap.taskId, v.snap.attemptId, v.snap.view.need)))
  }

  function OnTurn(v: Running, output: AgentOutput): Running {
    var s := v.snap;
    match output
    case InputRequired(need, session) =>
      var asked := Move(v, InHook, INPUT_REQUIRED, s.(view := s.view.(need := need), session := OrElse(session, s.session)));
      if asked.pc.InHook? then OpenHook(asked) else asked
    case AgentFailed(error) =>
      Move(v, Done, FAILED,
        s.(error := Some(match OrElse(error, None) case Some(e) => AgentError(e) case None => AgentFailedCode)))
    case Candidates(refs, session) =>
      if refs == [] then Catch(v, WorkflowFailed(Lit("AGENT_INVALID_TERMINAL_OUTPUT")))
      else Move(v, InVerify, VERIFYING, s.(view := s.view.(candidates := refs), session := OrElse(session, s.session)))
    case Malformed => Catch(v, WorkflowFailed(Lit("AGENT_INVALID_TERMINAL_OUTPUT")))
  }

  /** A delta delivered to the hook is applied, or turned away and reported on the stream. */
  function OnDelta(v: Running, delta: Json): Running {
    match ApplyContextDelta(v.snap, delta)
    case Ok(s) => Emit(v, InMerge(delta), s)
    case Err(reason) => v.(stream := v.stream + [RejectionProjection(v.snap, reason, delta)])
  }

  /** `candidates[0]`. That there is none does not happen on any run; `null` stands for it. */
  function FirstOf(candidates: seq<Json>): Json { if candidates == [] then Null else candidates[0] }

  function OnVerified(v: Running, passed: bool, report: Json, provenance: Json, material: Json): Running {
    var s := v.snap.(report := Some(report), provenance := Some(provenance));
    var v' := v.(snap := s);
    if !passed then Move(v', Done, FAILED, s.(error := Some(VerificationFailed)))
    else
      match Transition(s, ADOPTING, s)
      case None => Catch(v', IllegalTransition)
      case Some(t) =>
        Emit(v', InAdopt(AdoptInput(t.taskId, t.attemptId, t.view.turnNo, FirstOf(t.view.candidates),
                                    report, provenance, material)), t)
  }

  function OnRespond(v: Running, r: Response): Running {
    match (v.pc, r)
    case (InCompile, Compiled(ref)) => OnContext(v, ref)
    case (InTurn, TurnEnded(output)) => OnTurn(v, output)
    case (InHook, DeltaOffered(delta)) => OnDelta(v, delta)
    case (InMerge(_), Merged(ref)) => OnContext(v, ref)
    case (InVerify, Verified(passed, report, provenance, material)) => OnVerified(v, passed, report, provenance, material)
    case (InAdopt(_), AdoptionDone(ref)) => Move(v, Done, COMPLETED, v.snap.(adoption := Some(ref)))
    case (_, Threw(message)) => if v.pc.Done? || v.pc.InHook? then v else Catch(v, WorkflowFailed(message))
    case _ => v
  }

  function Step(v: Running, e: Event): Running {
    match e
    case Respond(r) => OnRespond(v, r)
    case HookFailed(message) => if v.pc.InHook? then Catch(v, WorkflowFailed(message)) else v
  }

  function Exec(v: Running, events: seq<Event>): Running
    decreases events
  {
    if events == [] then v else Exec(Step(v, events[0]), events[1..])
  }

  /** The run up to its first await. */
  function Started(s: Snapshot): Running {
    Move(Emit(Running(InCompile, s, []), InCompile, s), InCompile, COMPILING_CONTEXT, s)
  }

  // ----- Refinement of the protocol machine -----

  function PhaseOf(v: Running): Phase {
    if Terminal(v.snap.view.state) then Phase.Ended
    else
      match v.pc
      case InCompile => Compiling
      case InTurn => Turn
      case InHook => Waiting
      case InMerge(_) => Merging
      case InVerify => Verifying
      case InAdopt(_) => Adopting
      case Done => Phase.Submitted
  }

  function Abs(v: Running): Machine { Machine(PhaseOf(v), v.snap.view) }

  /** The snapshot events of a stream, in order. */
  function Snapshots(stream: seq<Projection>): seq<Snapshot> {
    if stream == [] then []
    else
      var rest := Snapshots(stream[..|stream| - 1]);
      var last := stream[|stream| - 1];
      if last.TaskSnapshot? then rest + [last.snapshot] else rest
  }

  /** The stream carries one snapshot for every state change, numbered 1, 2, 3, ... and each
      rejection carries the sequence number that was current. */
  predicate StreamInv(v: Running) {
    var snaps := Snapshots(v.stream);
    |snaps| == v.snap.view.stateSeq && |snaps| > 0 &&
    (forall i :: 0 <= i < |snaps| ==> snaps[i].view.stateSeq == i + 1) &&
    snaps[|snaps| - 1].view == v.snap.view &&
    (v.pc.Done? ==> snaps[|snaps| - 1] == v.snap)
  }

  predicate Inv(v: Running) {
    v.snap.terminal == Terminal(v.snap.view.state) &&
    (v.pc.Done? <==> Terminal(v.snap.view.state)) &&
    v.snap.error != Some(IllegalTransition) &&
    Accounts(Abs(v)) && StreamInv(v)
  }

  function Actions(v: Running, e: Event): seq<Action> {
    match e
    case HookFailed(_) => if v.pc.InHook? then [Stopped(FAILED)] else []
    case Respond(r) =>
      match (v.pc, r)
      case (InCompile, Compiled(_)) => [CompiledContext]
      case (InTurn, TurnEnded(output)) => TurnActions(v.snap, output)
      case (InHook, DeltaOffered(delta)) =>
        (match Allowed(ValidateContextDelta(DeltaContextOf(v.snap), delta), delta)
         case None => [] case Some(id) => [AcceptedDelta(id)])
      case (InMerge(_), Merged(_)) => [MergedContext]
      case (InVerify, Verified(passed, _, _, _)) => if passed then [PassedVerification] else [Stopped(FAILED)]
      case (InAdopt(_), AdoptionDone(_)) => [Adopted]
      case (_, Threw(_)) => if v.pc.Done? || v.pc.InHook? then [] else [Stopped(FAILED)]
      case _ => []
  }

  function TurnActions(s: Snapshot, output: AgentOutput): seq<Action> {
    match output
    case InputRequired(need, _) =>
      if HookToken(s.taskId, s.attemptId, need) then [AskedForContext(need)] else [AskedForContext(need), Stopped(FAILED)]
    case Candidates(refs, _) => if refs == [] then [Stopped(FAILED)] else [OfferedCandidates(refs)]
    case _ => [Stopped(FAILED)]
  }

  lemma SnapshotsAppend(stream: seq<Projection>, p: Projection)
    ensures Snapshots(stream + [p]) == Snapshots(stream) + if p.TaskSnapshot? then [p.snapshot] else []
  {
    assert (stream + [p])[..|stream|] == stream;
  }

  predicate Refines(v: Running, acts: seq<Action>, v': Running) {
    Run(Abs(v), acts) && Abs(v') == After(Abs(v), acts) && Inv(v')
  }

  /** Emitting a snapshot that is one action further keeps the invariant. */
  lemma EmitRefines(v: Running, v0: Running, pc: Control, s: Snapshot, a: Action)
    requires Inv(v) && Enabled(Abs(v), a)
    requires v0.stream == v.stream
    requires Abs(Emit(v0, pc, s)) == Apply(Abs(v), a)
    requires s.terminal == Terminal(s.view.state) && (pc.Done? <==> Terminal(s.view.state))
    requires s.error != Some(IllegalTransition)
    ensures Refines(v, [a], Emit(v0, pc, s))
  {
    hide Enabled;
    ApplyKeepsAccounts(Abs(v), a);
    assert [a][1..] == [];
    assert Run(Abs(v), [a]) by { assert Run(Apply(Abs(v), a), []); }
    assert After(Abs(v), [a]) == Apply(Abs(v), a);
    SnapshotsAppend(v.stream, SnapshotProjection(s));
    var snaps, next := Snapshots(v.stream), Snapshots(Emit(v0, pc, s).stream);
    assert next == snaps + [s];
  }

  lemma CatchRefines(v: Running, v0: Running, error: RunError)
    requires Inv(v) && !v.pc.Done? && error != IllegalTransition
    requires v0.stream == v.stream && v0.snap.view == v.snap.view && v0.snap.terminal == v.snap.terminal
    ensures Refines(v, [Stopped(FAILED)], Catch(v0, error))
  {
    var s := v0.snap.(error := Some(error), view := Moved(v0.snap.view, FAILED), terminal := true);
    EmitRefines(v, v0, Done, s, Stopped(FAILED));
  }

  lemma ContextRefines(v: Running, ref: Json, a: Action)
    requires Inv(v) && (a == CompiledContext || a == MergedContext) && Enabled(Abs(v), a)
    ensures Refines(v, [a], OnContext(v, ref))
  {
    var v' := v.(snap := v.snap.(compiled := Some(ref)));
    EmitRefines(v, v', InTurn, BeginAgentTurn(v'.snap).value, a);
  }

  lemma AskRefines(v: Running, need: Option<Json>, session: Option<Json>)
    requires Inv(v) && v.pc.InTurn?
    ensures var output := InputRequired(need, session); Refines(v, TurnActions(v.snap, output), OnTurn(v, output))
  {
    hide HookToken, HookMessage, StreamInv, Lit;
    var s := v.snap.(view := Moved(v.snap.view, INPUT_REQUIRED).(need := need), session := OrElse(session, v.snap.session));
    var a := AskedForContext(need);
    var asked := Emit(v, InHook, s);
    EmitRefines(v, v, InHook, s, a);
    if !Hooked(s) {
      CatchRefines(asked, asked, WorkflowFailed(HookMessage(s.taskId, s.attemptId, s.view.need)));
      RunAppend(Abs(v), [a], [Stopped(FAILED)]);
      assert [a] + [Stopped(FAILED)] == [a, Stopped(FAILED)];
    }
  }

  lemma TurnRefines(v: Running, output: AgentOutput)
    requires Inv(v) && v.pc.InTurn?
    ensures Refines(v, TurnActions(v.snap, output), OnTurn(v, output))
  {
    hide HookToken, HookMessage, StreamInv, Lit;
    var v' := OnTurn(v, output);
    match output
    case InputRequired(need, session) => AskRefines(v, need, session);
    case AgentFailed(error) => EmitRefines(v, v, Done, v'.snap, Stopped(FAILED));
    case Candidates(refs, session) =>
      if refs == [] { CatchRefines(v, v, WorkflowFailed(Lit("AGENT_INVALID_TERMINAL_OUTPUT"))); }
      else { EmitRefines(v, v, InVerify, v'.snap, OfferedCandidates(refs)); }
    case Malformed => CatchRefines(v, v, WorkflowFailed(Lit("AGENT_INVALID_TERMINAL_OUTPUT")));
  }

  lemma DeltaRefines(v: Running, delta: Json)
    requires Inv(v) && v.pc.InHook?
    ensures Refines(v, Actions(v, Respond(DeltaOffered(delta))), OnDelta(v, delta))
  {
    hide ValidateContextDelta, AssertDeltaAllowed, NonEmptyString, Get, StringOrNone, SafeIntegerOrNone, StrictlyEqual, Lit;
    AllowedDelta(DeltaContextOf(v.snap), delta);
    match Allowed(ValidateContextDelta(DeltaContextOf(v.snap), delta), delta)
    case Some(id) => EmitRefines(v, v, InMerge(delta), WithDelta(v.snap, delta, id), AcceptedDelta(id));
    case None =>
      var reason := Invalid(if ValidateContextDelta(DeltaContextOf(v.snap), delta).Some?
                            then ValidateContextDelta(DeltaContextOf(v.snap), delta).value else INVALID_FIELD);
      SnapshotsAppend(v.stream, RejectionProjection(v.snap, reason, delta));
  }

  lemma VerifiedRefines(v: Running, passed: bool, report: Json, provenance: Json, material: Json)
    requires Inv(v) && v.pc.InVerify?
    ensures Refines(v, if passed then [PassedVerification] else [Stopped(FAILED)],
                    OnVerified(v, passed, report, provenance, material))
  {
    var v' := OnVerified(v, passed, report, provenance, material);
    EmitRefines(v, v.(snap := v.snap.(report := Some(report), provenance := Some(provenance))), v'.pc, v'.snap,
                if passed then PassedVerification else Stopped(FAILED));
  }

  lemma RespondRefines(v: Running, r: Response)
    requires Inv(v)
    ensures Refines(v, Actions(v, Respond(r)), OnRespond(v, r))
  {
    hide Accounts, StreamInv, TurnActions, OnVerified, OnTurn, OnDelta, OnContext, Catch, ValidateContextDelta, Allowed;
    match (v.pc, r)
    case (InCompile, Compiled(ref)) => ContextRefines(v, ref, CompiledContext);
    case (InTurn, TurnEnded(output)) => TurnRefines(v, output);
    case (InHook, DeltaOffered(delta)) => DeltaRefines(v, delta);
    case (InMerge(_), Merged(ref)) => ContextRefines(v, ref, MergedContext);
    case (InVerify, Verified(passed, report, provenance, material)) =>
      VerifiedRefines(v, passed, report, provenance, material);
    case (InAdopt(_), AdoptionDone(ref)) => AdoptionRefines(v, ref);
    case (_, Threw(message)) =>
      if !v.pc.Done? && !v.pc.InHook? { CatchRefines(v, v, WorkflowFailed(message)); }
    case _ =>
  }

  lemma AdoptionRefines(v: Running, ref: Json)
    requires Inv(v) && v.pc.InAdopt?
    ensures Refines(v, [Adopted], OnRespond(v, AdoptionDone(ref)))
  {
    EmitRefines(v, v, Done, OnRespond(v, AdoptionDone(ref)).snap, Adopted);
  }

  /** Each event performs actions the protocol allows, and nothing else. */
  lemma StepRefines(v: Running, e: Event)
    requires Inv(v)
    ensures Refines(v, Actions(v, e), Step(v, e))
  {
    match e
    case HookFailed(message) => if v.pc.InHook? { CatchRefines(v, v, WorkflowFailed(message)); }
    case Respond(r) => RespondRefines(v, r);
  }

  function RunActions(v: Running, events: seq<Event>): seq<Action>
    decreases events
  {
    if events == [] then [] else Actions(v, events[0]) + RunActions(Step(v, events[0]), events[1..])
  }

  /** Every run is a run of the protocol machine; along it no transition the workflow asks for
      is illegal, and the stream numbers its snapshots 1, 2, 3, ... without gap or repeat. */
  lemma {:induction false} RunRefines(v: Running, events: seq<Event>)
    requires Inv(v)
    ensures Run(Abs(v), RunActions(v, events))
    ensures Abs(Exec(v, events)) == After(Abs(v), RunActions(v, events))
    ensures Inv(Exec(v, events))
    decreases events
  {
    hide Inv, Actions, Step;
    if events != [] {
      StepRefines(v, events[0]);
      RunRefines(Step(v, events[0]), events[1..]);
      RunAppend(Abs(v), Actions(v, events[0]), RunActions(Step(v, events[0]), events[1..]));
    }
  }

  /** The states of every run, from the submitted one on, are a path of legal steps. */
  lemma StartedRunIsPath(task: Json, runId: Text, events: seq<Event>)
    requires ValidTaskCapsule(task)
    ensures var v := Started(InitialSnapshot(task, runId).value);
            Path(START, [Begin] + RunActions(v, events)) &&
            Abs(Exec(v, events)) == After(START, [Begin] + RunActions(v, events))
  {
    hide ValidTaskCapsule, Inv, Started, InitialSnapshot;
    StartedInv(task, runId);
    var v := Started(InitialSnapshot(task, runId).value);
    RunRefines(v, events);
    var acts := [Begin] + RunActions(v, events);
    assert acts[1..] == RunActions(v, events);
    RunIsPath(START, acts);
  }

  lemma StartedInv(task: Json, runId: Text)
    requires ValidTaskCapsule(task)
    ensures InitialSnapshot(task, runId).Some?
    ensures var v := Started(InitialSnapshot(task, runId).value);
            Inv(v) && Abs(v) == Apply(START, Begin) && v.stream[0] == SnapshotProjection(InitialSnapshot(task, runId).value)
  {
    hide ValidTaskCapsule;
    var s := InitialSnapshot(task, runId).value;
    var v := Started(s);
    SnapshotsAppend([], SnapshotProjection(s));
    SnapshotsAppend([SnapshotProjection(s)], SnapshotProjection(v.snap));
    assert [] + [SnapshotProjection(s)] == [SnapshotProjection(s)];
    assert Snapshots(v.stream) == [s, v.snap];
  }

  // ----- What is told -----

  /** The first snapshot names the task, the context, the attempt and the submission, and nothing
      has happened in it. */
  lemma InitialFields(task: Json, runId: Text)
    requires ValidTaskCapsule(task)
    ensures var s := InitialSnapshot(task, runId).value;
            InitialSnapshot(task, runId).Some? && s.runId == runId && !s.terminal &&
            Get(task, Lit("task_id")) == Some(Str(s.taskId)) && Get(task, Lit("context_id")) == Some(Str(s.contextId)) &&
            Get(task, Lit("logical_attempt_id")) == Some(Str(s.attemptId)) &&
            s.submissionDigest == (match Get(task, Lit("execution_hash")) case Some(h) => Some(h) case None => Some(Null)) &&
            s.view == View(SUBMITTED, 1, 0, 0, None, [], []) && s.session == None && s.compiled == None &&
            s.lastDelta == None && s.report == None && s.provenance == None && s.adoption == None && s.error == None
  {
    hide Lookup, Lit, ValidArtifactRef, IsDigest;
  }

  /** What the stream says of a delta that was turned away: the numbers that are current, the
      validator's code, and of the delta's own fields the ids that are strings and the sequence
      number that is a safe integer. The run stays as it was. */
  lemma RejectionTold(v: Running, delta: Json)
    requires v.pc.InHook? && v.snap.view.state == INPUT_REQUIRED
    requires ValidateContextDelta(DeltaContextOf(v.snap), delta).Some?
    ensures var v' := OnRespond(v, DeltaOffered(delta));
            v'.pc == v.pc && v'.snap == v.snap && |v'.stream| == |v.stream| + 1 && v'.stream[..|v.stream|] == v.stream &&
            var p := v'.stream[|v.stream|];
            p.DeltaRejected? && p.taskId == v.snap.taskId && p.stateSeq == v.snap.view.stateSeq &&
            p.contextSeq == v.snap.view.contextSeq &&
            p.reason == Invalid(ValidateContextDelta(DeltaContextOf(v.snap), delta).value) &&
            (forall t: Text :: p.deltaId == Some(t) <==> Get(delta, Lit("delta_id")) == Some(Str(t))) &&
            (forall t: Text :: p.requestId == Some(t) <==> Get(delta, Lit("request_id")) == Some(Str(t))) &&
            (forall n: int :: p.expectedSeq == Some(n) <==>
               Get(delta, Lit("expected_seq")) == Some(Num(n)) && -0x1F_FFFF_FFFF_FFFF <= n <= 0x1F_FFFF_FFFF_FFFF)
  {
    hide ValidateContextDelta, Get, Lit;
  }

  // ----- The outcome fields -----

  /** A snapshot has an error exactly when it failed or was cancelled, and an adoption
      reference exactly when it completed. */
  predicate OutcomeFields(s: Snapshot) {
    (s.error.Some? <==> s.view.state == FAILED || s.view.state == CANCELED) &&
    (s.adoption.Some? <==> s.view.state == COMPLETED)
  }

  lemma TurnOutcome(v: Running, output: AgentOutput)
    requires OutcomeFields(v.snap) && v.snap.view.state == WORKING
    ensures OutcomeFields(OnTurn(v, output).snap)
  {
  }

  lemma VerifiedOutcome(v: Running, passed: bool, report: Json, provenance: Json, material: Json)
    requires OutcomeFields(v.snap) && v.snap.view.state == VERIFYING
    ensures OutcomeFields(OnVerified(v, passed, report, provenance, material).snap)
  {
  }

  lemma DeltaOutcome(v: Running, delta: Json)
    requires OutcomeFields(v.snap) && v.snap.view.state == INPUT_REQUIRED
    ensures OutcomeFields(OnDelta(v, delta).snap)
  {
    hide ValidateContextDelta, Allowed, RejectionProjection, Get;
  }

  lemma StepOutcome(v: Running, e: Event)
    requires Inv(v) && OutcomeFields(v.snap)
    ensures OutcomeFields(Step(v, e).snap)
  {
    hide OnTurn, OnVerified, OnDelta, StreamInv;
    match (v.pc, e)
    case (InTurn, Respond(TurnEnded(output))) => TurnOutcome(v, output);
    case (InVerify, Respond(Verified(passed, report, provenance, material))) => VerifiedOutcome(v, passed, report, provenance, material);
    case (InHook, Respond(DeltaOffered(delta))) => DeltaOutcome(v, delta);
    case _ =>
  }

  /** On every run, the error and the adoption reference agree with the state. */
  lemma {:induction false} OutcomeFieldsAgree(v: Running, events: seq<Event>)
    requires Inv(v) && OutcomeFields(v.snap)
    ensures OutcomeFields(Exec(v, events).snap)
    decreases events
  {
    hide Step, Inv, OutcomeFields;
    if events != [] {
      StepRefines(v, events[0]);
      StepOutcome(v, events[0]);
      OutcomeFieldsAgree(Step(v, events[0]), events[1..]);
    }
  }

  // ----- A run that completes -----

  /** One request for context, one accepted delta, one candidate. */
  datatype OneRequest = OneRequest(
    compiled: Json, need: Json, delta: Json, merged: Json, candidate: Json,
    report: Json, provenance: Json, material: Json, adoption: Json)

  function UntilWaiting(a: OneRequest): seq<Event> {
    [Respond(Compiled(a.compiled)), Respond(TurnEnded(InputRequired(Some(a.need), None)))]
  }

  function AfterDelta(a: OneRequest): seq<Event> {
    [Respond(Merged(a.merged)), Respond(TurnEnded(Candidates([a.candidate], None))),
     Respond(Verified(true, a.report, a.provenance, a.material)), Respond(AdoptionDone(a.adoption))]
  }

  lemma {:induction false} ExecAppend(v: Running, xs: seq<Event>, ys: seq<Event>)
    ensures Exec(v, xs + ys) == Exec(Exec(v, xs), ys)
    decreases xs
  {
    hide Step;
    if xs == [] {
      assert xs + ys == ys;
    } else {
      assert (xs + ys)[1..] == xs[1..] + ys;
      ExecAppend(Step(v, xs[0]), xs[1..], ys);
    }
  }

  lemma ExecOne(v: Running, e: Event)
    ensures Exec(v, [e]) == Step(v, e)
  {
    assert [e][1..] == [];
    assert Exec(v, [e]) == Exec(Step(v, e), []);
    hide Step;
  }

  lemma {:induction false} DoneIsFinal(v: Running, events: seq<Event>)
    requires v.pc.Done?
    ensures Exec(v, events) == v
    decreases events
  {
    if events != [] {
      assert Step(v, events[0]) == v;
      DoneIsFinal(v, events[1..]);
    }
  }

  lemma AsksForContext(task: Json, runId: Text, a: OneRequest)
    requires ValidTaskCapsule(task)
    ensures var s := InitialSnapshot(task, runId).value;
            var v := Exec(Started(s), UntilWaiting(a));
            v.snap.taskId == s.taskId && v.snap.attemptId == s.attemptId && v.snap.adoption == None &&
            if HookToken(s.taskId, s.attemptId, Some(a.need))
            then v.pc == InHook && v.snap.view == View(INPUT_REQUIRED, 4, 0, 1, Some(a.need), [], [])
            else v.pc == Done && v.snap.view == View(FAILED, 5, 0, 1, Some(a.need), [], [])
  {
    hide ValidTaskCapsule, HookToken, HookMessage, Lit;
    var v := Started(InitialSnapshot(task, runId).value);
    var e := UntilWaiting(a);
    ExecTwo(v, e[0], e[1]);
  }

  lemma ExecTwo(v: Running, d: Event, e: Event)
    ensures Exec(v, [d, e]) == Step(Step(v, d), e)
  {
    hide Step;
    assert [d, e] == [d] + [e];
    ExecAppend(v, [d], [e]);
    ExecOne(v, d);
    ExecOne(Step(v, d), e);
  }

  /** The turn after the delta offers the candidate. */
  lemma OffersAfterMerge(v: Running, a: OneRequest)
    requires v.pc.InMerge? && v.snap.view.state == WORKING
    ensures var v' := Exec(v, AfterDelta(a)[..2]);
            v'.pc.InVerify? &&
            v'.snap.view == View(VERIFYING, v.snap.view.stateSeq + 2, v.snap.view.contextSeq, v.snap.view.turnNo + 1,
                                 v.snap.view.need, v.snap.view.applied, [a.candidate])
  {
    assert AfterDelta(a)[..2] == [AfterDelta(a)[0], AfterDelta(a)[1]];
    ExecTwo(v, AfterDelta(a)[0], AfterDelta(a)[1]);
  }

  lemma CompletesAfterOffer(v: Running, a: OneRequest)
    requires v.pc.InVerify? && v.snap.view.state == VERIFYING && v.snap.view.candidates != []
    ensures var v' := Exec(v, AfterDelta(a)[2..]);
            v'.pc.Done? && v'.snap.adoption == Some(a.adoption) &&
            v'.snap.view == v.snap.view.(state := COMPLETED, stateSeq := v.snap.view.stateSeq + 2)
  {
    assert AfterDelta(a)[2..] == [AfterDelta(a)[2], AfterDelta(a)[3]];
    ExecTwo(v, AfterDelta(a)[2], AfterDelta(a)[3]);
  }

  lemma CompletesAfterDelta(v: Running, a: OneRequest)
    requires v.pc.InMerge? && v.snap.view.state == WORKING
    ensures var v' := Exec(v, AfterDelta(a));
            v'.pc.Done? && v'.snap.adoption == Some(a.adoption) &&
            v'.snap.view == View(COMPLETED, v.snap.view.stateSeq + 4, v.snap.view.contextSeq, v.snap.view.turnNo + 1,
                                 v.snap.view.need, v.snap.view.applied, [a.candidate])
  {
    assert |AfterDelta(a)| == 4;
    hide Exec, AfterDelta;
    assert AfterDelta(a) == AfterDelta(a)[..2] + AfterDelta(a)[2..];
    ExecAppend(v, AfterDelta(a)[..2], AfterDelta(a)[2..]);
    OffersAfterMerge(v, a);
    CompletesAfterOffer(Exec(v, AfterDelta(a)[..2]), a);
  }

  lemma OfferCompletes(v: Running, a: OneRequest)
    requires v.pc.InHook? && v.snap.view == View(INPUT_REQUIRED, 4, 0, 1, Some(a.need), [], [])
    requires ValidateContextDelta(DeltaContextOf(v.snap), a.delta).None?
    ensures var v' := Exec(v, [Respond(DeltaOffered(a.delta))] + AfterDelta(a));
            v'.pc.Done? && v'.snap.view.state == COMPLETED && v'.snap.view.stateSeq == 9 &&
            v'.snap.view.contextSeq == 1 && v'.snap.view.turnNo == 2 && v'.snap.adoption == Some(a.adoption)
  {
    hide Exec, AfterDelta, ValidateContextDelta, AssertDeltaAllowed, DeltaMatches, Get, Lit;
    var offer := Respond(DeltaOffered(a.delta));
    ExecAppend(v, [offer], AfterDelta(a));
    ExecOne(v, offer);
    AllowedDelta(DeltaContextOf(v.snap), a.delta);
    CompletesAfterDelta(Step(v, offer), a);
  }

  /** A run waits for context only where its hook could be created. */
  lemma {:induction false} WaitingHasToken(v: Running, events: seq<Event>)
    requires v.pc.InHook? ==> Hooked(v.snap)
    ensures var v' := Exec(v, events); v'.pc.InHook? ==> Hooked(v'.snap)
    decreases events
  {
    hide Step, HookToken;
    if events != [] {
      StepHasToken(v, events[0]);
      WaitingHasToken(Step(v, events[0]), events[1..]);
    }
  }

  lemma StepHasToken(v: Running, e: Event)
    requires v.pc.InHook? ==> Hooked(v.snap)
    ensures Step(v, e).pc.InHook? ==> Hooked(Step(v, e).snap)
  {
    hide HookToken, HookMessage, ValidateContextDelta, Allowed, RejectionProjection, Get, Lit;
  }

  lemma CapsuleIds(task: Json, runId: Text)
    requires ValidTaskCapsule(task)
    ensures var s := InitialSnapshot(task, runId).value;
            0 < |s.taskId| <= 256 && 0 < |s.attemptId| <= 256 && (OwnerToken(task) <==> Encodable(s.taskId))
  {
    hide ValidArtifactRef, TestsAsDigest, Encodable;
  }

  /** Runs that complete: whatever the capsule, the delta that answers the open request and the
      other answers, the run with one request for context is over afterwards. It has completed,
      with state_seq 9, context_seq 1 and turn_no 2, exactly when no surrogate stands alone in
      the attempt id and the request id. */
  lemma OneRequestCompletes(task: Json, runId: Text, a: OneRequest)
    requires Admitted(task)
    requires var s := InitialSnapshot(task, runId).value;
             ValidateContextDelta(DeltaContext(INPUT_REQUIRED, s.taskId, s.attemptId, Some(a.need), 0, []), a.delta).None?
    ensures var s := InitialSnapshot(task, runId).value;
            var v := Exec(Started(s), UntilWaiting(a) + ([Respond(DeltaOffered(a.delta))] + AfterDelta(a)));
            v.pc.Done? &&
            if Encodable(s.attemptId) && Encodable(StringField(a.delta, Lit("request_id")))
            then v.snap.view.state == COMPLETED && v.snap.view.stateSeq == 9 && v.snap.view.contextSeq == 1 &&
                 v.snap.view.turnNo == 2 && v.snap.adoption == Some(a.adoption)
            else v.snap.view.state == FAILED && v.snap.view.stateSeq == 5 && v.snap.adoption == None
  {
    StartedInv(task, runId);
    CapsuleIds(task, runId);
    var s := InitialSnapshot(task, runId).value;
    AnsweredNeedHasToken(DeltaContext(INPUT_REQUIRED, s.taskId, s.attemptId, Some(a.need), 0, []), a.delta);
    hide ValidTaskCapsule, Exec, UntilWaiting, AfterDelta, ValidateContextDelta, Started, InitialSnapshot, Inv, HookToken, Encodable, Get, Lit, OwnerToken;
    var v := Started(s);
    var rest := [Respond(DeltaOffered(a.delta))] + AfterDelta(a);
    ExecAppend(v, UntilWaiting(a), rest);
    AsksForContext(task, runId, a);
    var asked := Exec(v, UntilWaiting(a));
    if asked.pc.Done? { DoneIsFinal(asked, rest); } else { OfferCompletes(asked, a); }
  }
}
