/** The two backends, given the same answers, go through the same snapshots. */
module Equivalence {
  import opened Utf16
  import opened Wrappers
  import opened Json
  import opened TaskState
  import opened Environment
  import opened Protocol
  import opened WorkflowIds
  import T = Temporal
  import V = Vercel

  /** Temporal takes an answer and runs on to its next await. */
  function TemporalStep(w: T.Workflow, r: Response): T.Workflow {
    T.OnResume(T.OnRespond(w, r))
  }

  function VercelStep(v: V.Running, r: Response): V.Running { V.OnRespond(v, r) }

  /** What a reader of either snapshot sees: the protocol's fields and every reference. */
  datatype Seen = Seen(
    view: View, session: Option<Json>, compiled: Option<Json>, lastDelta: Option<Json>,
    report: Option<Json>, provenance: Option<Json>, adoption: Option<Json>)

  function SeenOnTemporal(s: T.Snapshot): Seen {
    Seen(s.view, s.session, s.compiled, s.lastDelta, s.report, s.provenance, s.adoption)
  }

  function SeenOnVercel(s: V.Snapshot): Seen {
    Seen(s.view, s.session, s.compiled, s.lastDelta, s.report, s.provenance, s.adoption)
  }

  /** The two runs stand at the same await with the same observable snapshot. */
  predicate Matched(w: T.Workflow, v: V.Running) {
    T.Inv(w) && V.Inv(v) && T.Abs(w) == V.Abs(v) && SeenOnTemporal(w.snap) == SeenOnVercel(v.snap) &&
    w.snap.taskId == v.snap.taskId && w.snap.attemptId == v.snap.attemptId &&
    !w.cancelRequested && w.pending.None? && !w.pc.AwaitSubmit? && !w.pc.Aborted? &&
    (Terminal(w.snap.view.state) ==> w.pc.Returned?)
  }

  /** The answers on which the backends part: a delta that only Temporal's check lets through,
      a request for context from which Vercel can make no hook token, and a pass for a candidate
      that is `null`. */
  predicate Parts(v: V.Running, r: Response) {
    match r
    case DeltaOffered(delta) =>
      v.pc.InHook? && AssertDeltaAllowed(V.DeltaContextOf(v.snap), delta).None? && !StricterDelta(delta)
    case TurnEnded(output) => 
      v.pc.InTurn? && output.InputRequired? && !HookToken(v.snap.taskId, v.snap.attemptId, output.need)
    case Verified(passed, _, _, _) => v.pc.InVerify? && passed && NoEffectKey(v.snap.view.candidates)
    case _ => false
  }

  lemma MatchedContext(w: T.Workflow, v: V.Running)
    requires Matched(w, v)
    ensures T.DeltaContextOf(w.snap) == V.DeltaContextOf(v.snap)
    ensures v.pc.InVerify? ==> v.snap.view.candidates != []
  {
  }

  /** The two checks of a delta give the same id exactly when the answer does not part the runs. */
  lemma SameVerdict(c: DeltaContext, delta: Json)
    ensures Allowed(ValidateContextDelta(c, delta), delta) ==
            if AssertDeltaAllowed(c, delta).None? && !StricterDelta(delta) then None
            else Allowed(AssertDeltaAllowed(c, delta), delta)
    ensures Allowed(AssertDeltaAllowed(c, delta), delta).Some? <==> AssertDeltaAllowed(c, delta).None?
  {
    DeltaChecksCompared(c, delta);
    AllowedDelta(c, delta);
    hide ValidateContextDelta, AssertDeltaAllowed, StricterDelta, Get;
  }

  /** Where the two runs stand. */
  predicate SameAwait(w: T.Workflow, v: V.Running) {
    (v.pc.Done? <==> Terminal(w.snap.view.state)) && (v.pc.Done? ==> w.pc.Returned?) &&
    (v.pc.InCompile? ==> w.pc.AwaitCompile?) && (v.pc.InTurn? ==> w.pc.AwaitTurn?) &&
    (v.pc.InHook? ==> w.pc.AwaitDelta?) && (v.pc.InMerge? ==> w.pc.AwaitMerge?) &&
    (v.pc.InVerify? ==> w.pc.AwaitVerify? && w.snap.view.candidates == v.snap.view.candidates) &&
    (v.pc.InAdopt? ==> w.pc.AwaitAdopt?) && (v.pc.InHook? <==> v.snap.view.state == INPUT_REQUIRED)
  }

  lemma MatchedAwait(w: T.Workflow, v: V.Running)
    requires Matched(w, v)
    ensures SameAwait(w, v)
  {
    hide V.StreamInv;
  }

  lemma SameDeltaActions(w: T.Workflow, v: V.Running, delta: Json)
    requires Matched(w, v) && !Parts(v, DeltaOffered(delta))
    ensures T.Actions(w, T.Respond(DeltaOffered(delta))) == V.Actions(v, V.Respond(DeltaOffered(delta)))
  {
    hide Matched, ValidateContextDelta, AssertDeltaAllowed, Allowed, StricterDelta;
    MatchedAwait(w, v);
    MatchedContext(w, v);
    SameVerdict(V.DeltaContextOf(v.snap), delta);
    T.AllowedIdFacts(w.snap, delta);
  }

  /** Unless the answer parts them, both backends perform the same protocol actions. */
  lemma SameActions(w: T.Workflow, v: V.Running, r: Response)
    requires Matched(w, v) && !Parts(v, r)
    ensures T.Actions(w, T.Respond(r)) == V.Actions(v, V.Respond(r))
  {
    hide Matched, HookToken, V.TurnActions, T.TurnActions, T.AllowedId, Allowed, StricterDelta, AssertDeltaAllowed;
    MatchedAwait(w, v);
    if r.DeltaOffered? { SameDeltaActions(w, v, r.delta); }
    if r.TurnEnded? { SameTurnActions(v.snap, r.output); }
  }

  lemma SameTurnActions(s: V.Snapshot, output: AgentOutput)
    ensures T.TurnActions(output) == V.TurnActions(s, output) <==>
            !(output.InputRequired? && !HookToken(s.taskId, s.attemptId, output.need))
  {
    hide SafeSegment, Falsy;
  }

  /** The control part of `Matched`, for the workflow after `w`. */
  predicate Settled(w: T.Workflow, w': T.Workflow) {
    w'.snap.taskId == w.snap.taskId && w'.snap.attemptId == w.snap.attemptId &&
    !w'.cancelRequested && w'.pending.None? && !w'.pc.AwaitSubmit? && !w'.pc.Aborted? &&
    (Terminal(w'.snap.view.state) ==> w'.pc.Returned?)
  }

  lemma AcceptedSettles(w: T.Workflow, delta: Json, id: Text)
    requires w.pc.AwaitDelta? && !w.cancelRequested
    ensures Settled(w, T.OnResume(T.AcceptDelta(w, delta, id)))
  {
    hide Get;
  }

  lemma IdleSettles(w: T.Workflow)
    requires Settled(w, w)
    ensures Settled(w, T.OnResume(w))
  {
  }

  lemma MatchedSettled(w: T.Workflow, v: V.Running)
    requires Matched(w, v)
    ensures Settled(w, w) && T.Inv(w)
  {
  }

  lemma DeltaSettles(w: T.Workflow, v: V.Running, delta: Json)
    requires Matched(w, v)
    ensures Settled(w, TemporalStep(w, DeltaOffered(delta)))
  {
    hide Matched, Settled, T.Inv, T.OnResume, T.AcceptDelta, T.AllowedId, AssertDeltaAllowed;
    MatchedSettled(w, v);
    T.AllowedIdFacts(w.snap, delta);
    if T.AllowedId(w.snap, delta).Some? {
      T.PendingNeverOverwritten(w, delta);
      AcceptedSettles(w, delta, T.AllowedId(w.snap, delta).value);
    } else {
      IdleSettles(w);
    }
  }

  lemma TurnSettles(w: T.Workflow, v: V.Running, output: AgentOutput)
    requires Matched(w, v) && w.pc.AwaitTurn? && !Terminal(w.snap.view.state)
    ensures Settled(w, T.OnResume(T.OnTurn(w, output)))
  {
    hide Accounts, V.StreamInv;
  }

  lemma VerifiedSettles(w: T.Workflow, v: V.Running, passed: bool, report: Json, provenance: Json)
    requires Matched(w, v) && w.pc.AwaitVerify? && !Terminal(w.snap.view.state)
    ensures Settled(w, T.OnResume(T.OnVerified(w, passed, report, provenance)))
  {
    hide Accounts, V.StreamInv, T.AdoptArguments;
  }

  lemma ControlKept(w: T.Workflow, v: V.Running, r: Response)
    requires Matched(w, v)
    ensures Settled(w, TemporalStep(w, r))
  {
    if r.DeltaOffered? {
      DeltaSettles(w, v, r.delta);
    } else if r.TurnEnded? && w.pc.AwaitTurn? {
      TurnSettles(w, v, r.output);
    } else if r.Verified? && w.pc.AwaitVerify? {
      VerifiedSettles(w, v, r.passed, r.report, r.provenance);
    } else {
      hide T.OnTurn, T.OnVerified, T.OnDelta, Accounts, V.StreamInv;
    }
  }

  predicate SameTask(v: V.Running, v': V.Running) {
    v'.snap.taskId == v.snap.taskId && v'.snap.attemptId == v.snap.attemptId
  }

  lemma TurnKeepsTask(v: V.Running, output: AgentOutput)
    ensures SameTask(v, V.OnTurn(v, output))
  {
    hide HookToken, HookMessage, Lit, Moved;
  }

  lemma VerifiedKeepsTask(v: V.Running, passed: bool, report: Json, provenance: Json, material: Json)
    ensures SameTask(v, V.OnVerified(v, passed, report, provenance, material))
  {
  }

  lemma DeltaKeepsTask(v: V.Running, delta: Json)
    ensures SameTask(v, V.OnDelta(v, delta))
  {
    hide ValidateContextDelta, Allowed, V.RejectionProjection, Get;
  }

  lemma IdentityKept(v: V.Running, r: Response)
    ensures SameTask(v, VercelStep(v, r))
  {
    hide V.OnTurn, V.OnVerified, V.OnDelta;
    if r.TurnEnded? { TurnKeepsTask(v, r.output); }
    else if r.Verified? { VerifiedKeepsTask(v, r.passed, r.report, r.provenance, r.material); }
    else if r.DeltaOffered? { DeltaKeepsTask(v, r.delta); }
  }

  /** With the same view afterwards, both show the same references. */
  predicate SameRefs(w: T.Workflow, v: V.Running) {
    w.snap.view == v.snap.view ==> SeenOnTemporal(w.snap) == SeenOnVercel(v.snap)
  }

  /** The session a turn's output leaves. */
  function SessionAfter(output: AgentOutput, session: Option<Json>): Option<Json> {
    match output
    case InputRequired(_, s) => OrElse(s, session)
    case Candidates(refs, s) => if refs == [] then session else OrElse(s, session)
    case _ => session
  }

  lemma TransitionRefs(s: T.Snapshot, to: State, patched: T.Snapshot)
    requires !Terminal(s.view.state)
    ensures var t := T.Transition(s, to, patched); SeenOnTemporal(t) == SeenOnTemporal(patched).(view := t.view)
  {
  }

  lemma TemporalTurnRefs(w: T.Workflow, output: AgentOutput)
    requires !Terminal(w.snap.view.state) && !(output.InputRequired? && output.need.None?)
    ensures var t := T.OnTurn(w, output).snap;
            SeenOnTemporal(t) == SeenOnTemporal(w.snap).(view := t.view, session := SessionAfter(output, w.snap.session))
  {
    hide T.Transition, OrElse, Lit;
    var s := w.snap;
    match output
    case InputRequired(need, session) =>
      TransitionRefs(s, INPUT_REQUIRED, s.(view := s.view.(need := need), session := OrElse(session, s.session)));
    case Candidates(refs, session) =>
      if refs != [] {
        TransitionRefs(s, VERIFYING, s.(view := s.view.(candidates := refs), session := OrElse(session, s.session)));
      } else {
        TransitionRefs(s, FAILED, s.(error := Some(T.WorkflowFailed(Lit("agent returned an invalid terminal output")))));
      }
    case AgentFailed(error) =>
      TransitionRefs(s, FAILED, s.(error := Some(match OrElse(error, None) case Some(e) => T.AgentError(e) case None => T.AgentFailedCode)));
    case Malformed =>
      TransitionRefs(s, FAILED, s.(error := Some(T.WorkflowFailed(Lit("agent returned an invalid terminal output")))));
  }

  lemma VercelTurnRefs(v: V.Running, output: AgentOutput)
    requires v.snap.view.state == WORKING
    ensures var t := V.OnTurn(v, output).snap;
            SeenOnVercel(t) == SeenOnVercel(v.snap).(view := t.view, session := SessionAfter(output, v.snap.session))
  {
  }

  lemma ResumeKeepsSnapshot(w: T.Workflow)
    requires !w.pc.AwaitSubmit?
    ensures T.OnResume(w).snap == w.snap
  {
  }

  lemma AfterTurn(w: T.Workflow, output: AgentOutput)
    ensures !T.OnTurn(w, output).pc.AwaitSubmit?
  {
  }

  lemma MatchedTurn(w: T.Workflow, v: V.Running)
    requires Matched(w, v) && w.pc.AwaitTurn?
    ensures !Terminal(w.snap.view.state) && v.snap.view.state == WORKING
  {
  }

  lemma TurnKeepsRefs(w: T.Workflow, v: V.Running, output: AgentOutput)
    requires Matched(w, v) && w.pc.AwaitTurn? && v.pc.InTurn? && !Parts(v, TurnEnded(output))
    ensures SameRefs(T.OnResume(T.OnTurn(w, output)), V.OnTurn(v, output))
  {
    MatchedView(w, v);
    MatchedTurn(w, v);
    hide T.OnTurn, V.OnTurn, T.OnResume, Matched, SessionAfter;
    TemporalTurnRefs(w, output);
    VercelTurnRefs(v, output);
    AfterTurn(w, output);
    ResumeKeepsSnapshot(T.OnTurn(w, output));
  }

  lemma VerifiedKeepsRefs(w: T.Workflow, v: V.Running, passed: bool, report: Json, provenance: Json, material: Json)
    requires Matched(w, v) && w.pc.AwaitVerify? && v.pc.InVerify?
    ensures SameRefs(T.OnResume(T.OnVerified(w, passed, report, provenance)), V.OnVerified(v, passed, report, provenance, material))
  {
    MatchedAwait(w, v);
    MatchedView(w, v);
    MatchedVerify(w, v);
    hide Matched, SameAwait, T.OnVerified, V.OnVerified, T.OnResume;
    TemporalVerifiedRefs(w, passed, report, provenance);
    VercelVerifiedRefs(v, passed, report, provenance, material);
  }

  lemma MatchedVerify(w: T.Workflow, v: V.Running)
    requires Matched(w, v) && v.pc.InVerify?
    ensures v.snap.view.state == VERIFYING
  {
    hide V.StreamInv;
  }

  lemma TemporalVerifiedRefs(w: T.Workflow, passed: bool, report: Json, provenance: Json)
    requires w.pc.AwaitVerify?
    ensures var t := T.OnResume(T.OnVerified(w, passed, report, provenance)).snap;
            SeenOnTemporal(t) == SeenOnTemporal(w.snap).(view := t.view, report := Some(report), provenance := Some(provenance))
  {
    hide T.AdoptArguments, Lit, Moved;
  }

  lemma VercelVerifiedRefs(v: V.Running, passed: bool, report: Json, provenance: Json, material: Json)
    requires v.snap.view.state == VERIFYING
    ensures var t := V.OnVerified(v, passed, report, provenance, material).snap;
            SeenOnVercel(t) == SeenOnVercel(v.snap).(view := t.view, report := Some(report), provenance := Some(provenance))
  {
    hide Lit, Moved;
  }

  lemma MatchedHook(w: T.Workflow, v: V.Running)
    requires Matched(w, v)
    ensures !w.pc.AwaitSubmit? && w.pending.None?
    ensures v.pc.InHook? <==> v.snap.view.state == INPUT_REQUIRED
  {
  }

  lemma TemporalDeltaRefs(w: T.Workflow, delta: Json)
    requires !w.pc.AwaitSubmit? && w.pending.None?
    ensures var t := TemporalStep(w, DeltaOffered(delta)).snap;
            SeenOnTemporal(t) ==
              if Allowed(AssertDeltaAllowed(T.DeltaContextOf(w.snap), delta), delta).Some?
              then SeenOnTemporal(w.snap).(view := t.view, lastDelta := Get(delta, Lit("delta_ref")))
              else SeenOnTemporal(w.snap)
  {
    hide AssertDeltaAllowed, Allowed, Get, Moved;
    ResumeKeepsSnapshot(T.OnDelta(w, delta));
  }

  lemma VercelDeltaRefs(v: V.Running, delta: Json)
    requires v.pc.InHook? <==> v.snap.view.state == INPUT_REQUIRED
    ensures var t := VercelStep(v, DeltaOffered(delta)).snap;
            SeenOnVercel(t) ==
              if v.pc.InHook? && Allowed(ValidateContextDelta(V.DeltaContextOf(v.snap), delta), delta).Some?
              then SeenOnVercel(v.snap).(view := t.view, lastDelta := Get(delta, Lit("delta_ref")))
              else SeenOnVercel(v.snap)
  {
    hide ValidateContextDelta, Allowed, V.RejectionProjection, Get, Moved;
  }

  lemma DeltaKeepsRefs(w: T.Workflow, v: V.Running, delta: Json)
    requires Matched(w, v) && !Parts(v, DeltaOffered(delta))
    ensures SameRefs(TemporalStep(w, DeltaOffered(delta)), VercelStep(v, DeltaOffered(delta)))
  {
    MatchedContext(w, v);
    MatchedView(w, v);
    MatchedHook(w, v);
    hide ValidateContextDelta, AssertDeltaAllowed, Allowed, StricterDelta, Matched, T.OnResume, T.OnRespond, V.OnRespond, Get;
    SameVerdict(V.DeltaContextOf(v.snap), delta);
    TemporalDeltaRefs(w, delta);
    VercelDeltaRefs(v, delta);
  }

  lemma CompiledKeepsRefs(w: T.Workflow, v: V.Running, ref: Json)
    requires SameAwait(w, v) && SeenOnTemporal(w.snap) == SeenOnVercel(v.snap)
    ensures SameRefs(TemporalStep(w, Compiled(ref)), VercelStep(v, Compiled(ref)))
  {
    hide V.StreamInv, Accounts, T.Inv, V.Inv;
  }

  lemma MergedKeepsRefs(w: T.Workflow, v: V.Running, ref: Json)
    requires SameAwait(w, v) && SeenOnTemporal(w.snap) == SeenOnVercel(v.snap)
    ensures SameRefs(TemporalStep(w, Merged(ref)), VercelStep(v, Merged(ref)))
  {
    hide V.StreamInv, Accounts, T.Inv, V.Inv;
  }

  lemma ContextKeepsRefs(w: T.Workflow, v: V.Running, r: Response)
    requires SameAwait(w, v) && SeenOnTemporal(w.snap) == SeenOnVercel(v.snap) && (r.Compiled? || r.Merged?)
    ensures SameRefs(TemporalStep(w, r), VercelStep(v, r))
  {
    hide TemporalStep, VercelStep, SameRefs, SameAwait;
    match r
    case Compiled(ref) => CompiledKeepsRefs(w, v, ref);
    case Merged(ref) => MergedKeepsRefs(w, v, ref);
  }

  lemma EndKeepsRefs(w: T.Workflow, v: V.Running, r: Response)
    requires SameAwait(w, v) && SeenOnTemporal(w.snap) == SeenOnVercel(v.snap) && (r.AdoptionDone? || r.Threw?)
    ensures SameRefs(TemporalStep(w, r), VercelStep(v, r))
  {
  }

  /** An answer that nothing waits for changes no snapshot. */
  lemma UnawaitedKeepsRefs(w: T.Workflow, v: V.Running, r: Response)
    requires SameAwait(w, v) && SeenOnTemporal(w.snap) == SeenOnVercel(v.snap)
    requires (r.TurnEnded? && !v.pc.InTurn?) || (r.Verified? && !v.pc.InVerify?)
    ensures SameRefs(TemporalStep(w, r), VercelStep(v, r))
  {
    hide T.OnTurn, T.OnVerified, V.OnTurn, V.OnVerified;
  }

  lemma RefsKept(w: T.Workflow, v: V.Running, r: Response)
    requires Matched(w, v) && !Parts(v, r)
    ensures SameRefs(TemporalStep(w, r), VercelStep(v, r))
  {
    hide Matched, SameRefs, T.OnTurn, T.OnVerified, T.OnResume, V.OnTurn, V.OnVerified;
    MatchedAwait(w, v);
    MatchedView(w, v);
    match r
    case DeltaOffered(delta) => DeltaKeepsRefs(w, v, delta);
    case TurnEnded(output) => if v.pc.InTurn? { TurnKeepsRefs(w, v, output); } else { UnawaitedKeepsRefs(w, v, r); }
    case Verified(passed, report, provenance, material) =>
      if v.pc.InVerify? { VerifiedKeepsRefs(w, v, passed, report, provenance, material); } else { UnawaitedKeepsRefs(w, v, r); }
    case Compiled(_) => ContextKeepsRefs(w, v, r);
    case Merged(_) => ContextKeepsRefs(w, v, r);
    case _ => EndKeepsRefs(w, v, r);
  }

  /** One answer keeps the two runs matched. */
  lemma MatchedStep(w: T.Workflow, v: V.Running, r: Response)
    requires Matched(w, v) && !Parts(v, r)
    ensures Matched(TemporalStep(w, r), VercelStep(v, r))
  {
    T.StepRefines(w, T.Respond(r));
    T.StepRefines(T.OnRespond(w, r), T.Resume);
    V.StepRefines(v, V.Respond(r));
    SameActions(w, v, r);
    ControlKept(w, v, r);
    IdentityKept(v, r);
    ResumeKeepsMachine(w, r);
    RefsKept(w, v, r);
    hide T.OnRespond, V.OnRespond, T.Actions, V.Actions, Accounts, V.StreamInv;
  }

  lemma RespondKeepsStart(w: T.Workflow, r: Response)
    requires !w.pc.AwaitSubmit?
    ensures !T.OnRespond(w, r).pc.AwaitSubmit?
  {
    hide AssertDeltaAllowed, Allowed, T.AdoptArguments;
  }

  lemma ResumeKeepsMachine(w: T.Workflow, r: Response)
    requires T.Inv(w) && !w.pc.AwaitSubmit?
    ensures T.Abs(TemporalStep(w, r)) == T.Abs(T.OnRespond(w, r))
  {
    hide ValidateContextDelta, AssertDeltaAllowed, Allowed, Accounts, T.AdoptArguments, T.Actions, T.OnRespond;
    T.StepRefines(w, T.Respond(r));
    RespondKeepsStart(w, r);
  }

  lemma PartedDelta(w: T.Workflow, v: V.Running, delta: Json)
    requires Matched(w, v) && Parts(v, DeltaOffered(delta))
    ensures T.OnDelta(w, delta).snap.view != V.OnDelta(v, delta).snap.view
  {
    hide Matched, T.AllowedId, T.OnDelta, V.OnDelta, StricterDelta, AssertDeltaAllowed, ValidateContextDelta, Allowed;
    MatchedContext(w, v);
    MatchedView(w, v);
    T.AllowedIdFacts(w.snap, delta);
    SameVerdict(V.DeltaContextOf(v.snap), delta);
    AcceptedAlone(w, v, delta);
  }

  lemma PartedTurn(w: T.Workflow, v: V.Running, output: AgentOutput)
    requires Matched(w, v) && Parts(v, TurnEnded(output))
    ensures T.OnRespond(w, TurnEnded(output)).snap.view.stateSeq == w.snap.view.stateSeq + 1
    ensures var t := V.OnRespond(v, TurnEnded(output)).snap.view;
            t.state == FAILED && t.stateSeq == w.snap.view.stateSeq + 2
  {
    hide V.StreamInv, Lit, HookToken, HookMessage;
    MatchedAwait(w, v);
  }

  lemma PartedVerified(w: T.Workflow, v: V.Running, report: Json, provenance: Json, material: Json)
    requires Matched(w, v) && Parts(v, Verified(true, report, provenance, material))
    ensures T.OnRespond(w, Verified(true, report, provenance, material)).snap.view.state == FAILED
    ensures V.OnRespond(v, Verified(true, report, provenance, material)).snap.view.state == ADOPTING
  {
    hide Matched, V.StreamInv, T.AdoptArguments, Lit;
    MatchedAwait(w, v);
    MatchedVerify(w, v);
    MatchedView(w, v);
    MatchedContext(w, v);
  }

  lemma ViewKept(w: T.Workflow, v: V.Running, r: Response)
    requires Matched(w, v)
    ensures TemporalStep(w, r).snap.view == T.OnRespond(w, r).snap.view
    ensures r.DeltaOffered? ==> T.OnRespond(w, r) == T.OnDelta(w, r.delta)
    ensures r.DeltaOffered? && v.pc.InHook? ==> V.OnRespond(v, r) == V.OnDelta(v, r.delta)
  {
    hide T.OnResume, T.OnDelta, V.OnDelta;
    ResumeKeepsMachine(w, r);
  }

  /** An answer that parts the runs shows in the next snapshot. */
  lemma PartedViews(w: T.Workflow, v: V.Running, r: Response)
    requires Matched(w, v) && Parts(v, r)
    ensures TemporalStep(w, r).snap.view != VercelStep(v, r).snap.view
  {
    hide Matched, T.OnRespond, V.OnRespond, T.OnDelta, V.OnDelta, T.OnResume;
    ViewKept(w, v, r);
    if r.DeltaOffered? {
      PartedDelta(w, v, r.delta);
    } else if r.TurnEnded? {
      PartedTurn(w, v, r.output);
    } else {
      PartedVerified(w, v, r.report, r.provenance, r.material);
    }
  }

  lemma AcceptedAlone(w: T.Workflow, v: V.Running, delta: Json)
    requires w.snap.view == v.snap.view && v.pc.InHook?
    requires T.AllowedId(w.snap, delta).Some?
    requires Allowed(ValidateContextDelta(V.DeltaContextOf(v.snap), delta), delta).None?
    ensures T.OnDelta(w, delta).snap.view != V.OnDelta(v, delta).snap.view
  {
    hide ValidateContextDelta, AssertDeltaAllowed, Allowed, V.RejectionProjection, T.AllowedId;
  }

  // ----- Whole runs -----

  /** The snapshots a reader sees after each answer. */
  function TemporalViews(w: T.Workflow, rs: seq<Response>): seq<Seen>
    decreases rs
  {
    if rs == [] then [] else [SeenOnTemporal(TemporalStep(w, rs[0]).snap)] + TemporalViews(TemporalStep(w, rs[0]), rs[1..])
  }

  function VercelViews(v: V.Running, rs: seq<Response>): seq<Seen>
    decreases rs
  {
    if rs == [] then [] else [SeenOnVercel(VercelStep(v, rs[0]).snap)] + VercelViews(VercelStep(v, rs[0]), rs[1..])
  }

  /** No answer of the run parts the backends where it arrives. */
  predicate NeverParts(v: V.Running, rs: seq<Response>)
    decreases rs
  {
    rs == [] || (!Parts(v, rs[0]) && NeverParts(VercelStep(v, rs[0]), rs[1..]))
  }

  lemma {:induction false} SameViews(w: T.Workflow, v: V.Running, rs: seq<Response>)
    requires Matched(w, v)
    ensures TemporalViews(w, rs) == VercelViews(v, rs) <==> NeverParts(v, rs)
    decreases rs
  {
    hide Matched, Parts, TemporalStep, VercelStep;
    if rs != [] {
      var ts, vs := TemporalViews(w, rs), VercelViews(v, rs);
      if Parts(v, rs[0]) {
        PartedViews(w, v, rs[0]);
        assert ts[0] != vs[0];
      } else {
        MatchedStep(w, v, rs[0]);
        SameViews(TemporalStep(w, rs[0]), VercelStep(v, rs[0]), rs[1..]);
        assert ts[1..] == TemporalViews(TemporalStep(w, rs[0]), rs[1..]);
        assert vs[1..] == VercelViews(VercelStep(v, rs[0]), rs[1..]);
        MatchedView(TemporalStep(w, rs[0]), VercelStep(v, rs[0]));
      }
    }
  }

  lemma MatchedView(w: T.Workflow, v: V.Running)
    requires Matched(w, v)
    ensures SeenOnTemporal(w.snap) == SeenOnVercel(v.snap)
  {
  }

  /** Both backends' runs up to their first await. */
  lemma StartMatched(task: Json, runId: Text)
    requires V.Admitted(task) && AssertedTask(task)
    ensures V.InitialSnapshot(task, runId).Some?
    ensures V.InitialSnapshot(task, runId).value.view == T.Submitted(task).snap.view
    ensures Matched(T.OnResume(T.Submitted(task)), V.Started(V.InitialSnapshot(task, runId).value))
  {
    T.SubmittedInv(task);
    T.StepRefines(T.Submitted(task), T.Resume);
    V.StartedInv(task, runId);
    hide ValidTaskCapsule, AssertedTask, Accounts, V.StreamInv;
  }

  /** Backend equivalence: for every task both accept and every list of answers, uncancelled
      runs show the same state, sequence numbers, turn, open need, applied deltas, candidates and
      references after every answer, exactly when no answer parts them. */
  lemma BackendsAgree(task: Json, runId: Text, rs: seq<Response>)
    requires V.Admitted(task) && AssertedTask(task)
    ensures V.InitialSnapshot(task, runId).Some?
    ensures var w := T.OnResume(T.Submitted(task));
            var v := V.Started(V.InitialSnapshot(task, runId).value);
            SeenOnTemporal(w.snap) == SeenOnVercel(v.snap) &&
            (TemporalViews(w, rs) == VercelViews(v, rs) <==> NeverParts(v, rs))
  {
    StartMatched(task, runId);
    SameViews(T.OnResume(T.Submitted(task)), V.Started(V.InitialSnapshot(task, runId).value), rs);
    MatchedView(T.OnResume(T.Submitted(task)), V.Started(V.InitialSnapshot(task, runId).value));
    hide ValidTaskCapsule, AssertedTask, Matched, V.InitialSnapshot, T.Submitted, T.OnResume, V.Started;
  }
}
