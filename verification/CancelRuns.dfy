/** What a Temporal workflow still does after a cancel request: the flag is read before compiling,
    before each turn and before each merge, but not between a turn and the adoption. */
module CancelRuns {
  import opened Utf16
  import opened Wrappers
  import opened Json
  import opened TaskState
  import opened Environment
  import opened Protocol
  import opened Temporal

  /** An activity is awaited. */
  predicate Busy(pc: Control) {
    pc.AwaitCompile? || pc.AwaitTurn? || pc.AwaitMerge? || pc.AwaitVerify? || pc.AwaitAdopt?
  }

  /** A step starts an activity. */
  predicate Starts(w: Workflow, w': Workflow) { Busy(w'.pc) && w'.pc != w.pc }

  /** How many activities a cancelled workflow can still start. */
  function Left(w: Workflow): nat {
    if w.pc.AwaitTurn? then 1 + AdoptLeft(w) else if w.pc.AwaitVerify? then AdoptLeft(w) else 0
  }

  /** One adoption, if a candidate with an effect key is on the snapshot. */
  function AdoptLeft(w: Workflow): nat { if NoEffectKey(w.snap.view.candidates) then 0 else 1 }

  /** Compiling, a turn or a merge is awaited. */
  predicate Early(pc: Control) { pc.AwaitCompile? || pc.AwaitTurn? || pc.AwaitMerge? }

  /** What a step of a cancelled workflow keeps. */
  predicate KeepsCancel(w: Workflow, w': Workflow) {
    w'.cancelRequested && w'.snap.view == w.snap.view &&
    (Early(w'.pc) ==> w'.pc == w.pc) && (w'.pc.AwaitVerify? ==> w.pc.AwaitTurn? || w.pc.AwaitVerify?) &&
    (w'.pc.AwaitAdopt? ==> w.pc.AwaitAdopt? || (w.pc.AwaitVerify? && AdoptLeft(w) == 1)) &&
    Left(w') + (if Starts(w, w') then 1 else 0) <= Left(w)
  }

  lemma CanceledTurn(w: Workflow, output: AgentOutput)
    requires w.cancelRequested && Terminal(w.snap.view.state) && w.pc.AwaitTurn?
    ensures KeepsCancel(w, OnTurn(w, output))
  {
    hide Lit, NoEffectKey, OrElse, Moved;
  }

  lemma CanceledVerified(w: Workflow, passed: bool, report: Json, provenance: Json)
    requires w.cancelRequested && Terminal(w.snap.view.state) && w.pc.AwaitVerify?
    ensures KeepsCancel(w, OnVerified(w, passed, report, provenance))
  {
    hide Lit, NoEffectKey, AdoptArguments, Moved;
  }

  lemma CanceledDelta(w: Workflow, delta: Json)
    requires Terminal(w.snap.view.state)
    ensures OnDelta(w, delta) == w
  {
    AllowedIdFacts(w.snap, delta);
    hide AllowedId;
  }

  lemma CanceledOther(w: Workflow, e: Event)
    requires w.cancelRequested && Terminal(w.snap.view.state) && w.snap.initialized
    requires !(e.Respond? && (e.r.DeltaOffered? || (e.r.TurnEnded? && w.pc.AwaitTurn?) || (e.r.Verified? && w.pc.AwaitVerify?)))
    ensures KeepsCancel(w, Step(w, e))
  {
    hide Lit, NoEffectKey, OnTurn, OnVerified, OnDelta, SubmitAccepted, Moved;
  }

  lemma CanceledStep(w: Workflow, e: Event)
    requires w.cancelRequested && Terminal(w.snap.view.state) && w.snap.initialized
    ensures KeepsCancel(w, Step(w, e))
  {
    hide OnTurn, OnVerified, OnDelta, NoEffectKey;
    match e
    case Respond(DeltaOffered(delta)) => CanceledDelta(w, delta);
    case Respond(TurnEnded(output)) => if w.pc.AwaitTurn? { CanceledTurn(w, output); } else { CanceledOther(w, e); }
    case Respond(Verified(passed, report, provenance, _)) =>
      if w.pc.AwaitVerify? { CanceledVerified(w, passed, report, provenance); } else { CanceledOther(w, e); }
    case _ => CanceledOther(w, e);
  }

  /** How many activities a run starts. */
  function Started(w: Workflow, events: seq<Event>): nat
    decreases events
  {
    if events == [] then 0
    else (if Starts(w, Step(w, events[0])) then 1 else 0) + Started(Step(w, events[0]), events[1..])
  }

  /** After a cancel request nothing is compiled or merged and no turn begins: every run starts at
      most the verification of a turn that was going on, and the adoption of candidates that were
      on the snapshot already. */
  lemma {:induction false} CancelStops(w: Workflow, events: seq<Event>)
    requires Inv(w) && w.cancelRequested
    ensures Started(w, events) <= Left(w)
    ensures Exec(w, events).snap.view == w.snap.view
    ensures Early(Exec(w, events).pc) ==> Exec(w, events).pc == w.pc
    decreases events
  {
    hide Step, Accounts, Starts, Left, Early;
    if events != [] {
      CanceledStep(w, events[0]);
      StepRefines(w, events[0]);
      CancelStops(Step(w, events[0]), events[1..]);
    }
  }

  // ----- Adoption after a cancel -----

  /** Candidates come with the verification: before it there are none. */
  predicate NoneEarly(w: Workflow) {
    w.pc.AwaitSubmit? || w.pc.AwaitCompile? || w.pc.AwaitTurn? || w.pc.AwaitDelta? || w.pc.AwaitMerge? ==>
      w.snap.view.candidates == []
  }

  lemma StepNoneEarly(w: Workflow, e: Event)
    requires NoneEarly(w)
    ensures NoneEarly(Step(w, e))
  {
    match e
    case Respond(r) => RespondNoneEarly(w, r);
    case _ => hide Get, Lit, SubmitAccepted;
  }

  lemma RespondNoneEarly(w: Workflow, r: Response)
    requires NoneEarly(w)
    ensures NoneEarly(OnRespond(w, r))
  {
    match r
    case TurnEnded(output) =>
      if w.pc.AwaitTurn? { TurnNoneEarly(w, output); }
      hide OnTurn, NoneEarly;
    case Verified(passed, report, provenance, _) =>
      if w.pc.AwaitVerify? { VerifiedNoneEarly(w, passed, report, provenance); }
      hide OnVerified, NoneEarly;
    case DeltaOffered(delta) => hide AllowedId, Get, Lit;
    case _ => hide OnTurn, OnVerified, OnDelta, Lit;
  }

  lemma TurnNoneEarly(w: Workflow, output: AgentOutput)
    requires NoneEarly(w) && w.pc.AwaitTurn?
    ensures NoneEarly(OnTurn(w, output))
  {
    hide Lit, OrElse;
  }

  lemma VerifiedNoneEarly(w: Workflow, passed: bool, report: Json, provenance: Json)
    requires w.pc.AwaitVerify?
    ensures NoneEarly(OnVerified(w, passed, report, provenance))
  {
    hide Lit, NoEffectKey, AdoptArguments;
  }

  lemma {:induction false} RunNoneEarly(w: Workflow, events: seq<Event>)
    requires NoneEarly(w)
    ensures NoneEarly(Exec(w, events))
    decreases events
  {
    hide Step, NoneEarly;
    if events != [] {
      StepNoneEarly(w, events[0]);
      RunNoneEarly(Step(w, events[0]), events[1..]);
    }
  }

  /** Neither adopting nor on the way to it with something to adopt. */
  predicate WillNotAdopt(w: Workflow) {
    !w.pc.AwaitAdopt? && (w.pc.AwaitVerify? ==> NoEffectKey(w.snap.view.candidates)) &&
    (w.pc.AwaitTurn? ==> NoEffectKey(w.snap.view.candidates))
  }

  lemma WillNotStep(w: Workflow, e: Event)
    requires w.cancelRequested && Terminal(w.snap.view.state) && w.snap.initialized && WillNotAdopt(w)
    ensures WillNotAdopt(Step(w, e)) && Step(w, e).cancelRequested
  {
    hide Step, NoEffectKey;
    CanceledStep(w, e);
  }

  lemma {:induction false} NeverAdopts(w: Workflow, events: seq<Event>)
    requires Inv(w) && w.cancelRequested && WillNotAdopt(w)
    ensures !Exec(w, events).pc.AwaitAdopt?
    decreases events
  {
    hide Step, Accounts, NoEffectKey;
    if events != [] {
      WillNotStep(w, events[0]);
      StepRefines(w, events[0]);
      NeverAdopts(Step(w, events[0]), events[1..]);
    }
  }

  /** The run after a cancel reaches the adoption. */
  ghost predicate StillAdopts(w: Workflow) {
    exists events: seq<Event> :: Exec(OnCancel(w), events).pc.AwaitAdopt?
  }

  lemma OneStep(w: Workflow, e: Event)
    ensures Exec(w, [e]) == Step(w, e)
  {
    hide Step;
    assert [e][1..] == [];
    assert Exec(Step(w, e), []) == Step(w, e);
  }

  /** A cancel does not stop a verification, nor the adoption after it. On every run of a submitted
      task: after a cancel of a live task the adoption can still be reached if and only if it was
      being performed, or a candidate with an effect key was being verified, when the cancel came;
      the snapshot stays CANCELED all the same. */
  lemma CancelMissesAdoption(task: Json, before: seq<Event>)
    requires AssertedTask(task) && !Terminal(Exec(Temporal.Submitted(task), before).snap.view.state)
    ensures var w := Exec(Temporal.Submitted(task), before);
            (StillAdopts(w) <==> w.pc.AwaitAdopt? || (w.pc.AwaitVerify? && !NoEffectKey(w.snap.view.candidates))) &&
            forall events: seq<Event> :: Exec(OnCancel(w), events).snap.view.state == CANCELED
  {
    hide NoEffectKey, AssertedTask, Step, Accounts, Temporal.Submitted;
    SubmittedInv(task);
    var w := Exec(Temporal.Submitted(task), before);
    RunRefines(Temporal.Submitted(task), before);
    SubmittedNoneEarly(task);
    RunNoneEarly(Temporal.Submitted(task), before);
    CancelRefines(w);
    forall events: seq<Event> ensures Exec(OnCancel(w), events).snap.view.state == CANCELED {
      CancelStops(OnCancel(w), events);
    }
    if w.pc.AwaitAdopt? {
      var none: seq<Event> := [];
      assert Exec(OnCancel(w), none).pc.AwaitAdopt?;
    } else if w.pc.AwaitVerify? && !NoEffectKey(w.snap.view.candidates) {
      var e := Respond(Verified(true, Null, Null, Null));
      OneStep(OnCancel(w), e);
      PassGoesOn(w);
    } else {
      if w.pc.AwaitTurn? { NothingToAdopt(w); }
      forall events: seq<Event> ensures !Exec(OnCancel(w), events).pc.AwaitAdopt? { NeverAdopts(OnCancel(w), events); }
    }
  }

  lemma SubmittedNoneEarly(task: Json)
    requires AssertedTask(task)
    ensures NoneEarly(Temporal.Submitted(task))
  {
    hide AssertedTask;
  }

  lemma CancelRefines(w: Workflow)
    requires Inv(w) && !Terminal(w.snap.view.state)
    ensures Inv(OnCancel(w)) && OnCancel(w).cancelRequested && OnCancel(w).pc == w.pc
    ensures OnCancel(w).snap.view == Moved(w.snap.view, CANCELED)
  {
    StepRefines(w, RequestCancel);
    hide Accounts;
  }

  lemma PassGoesOn(w: Workflow)
    requires Inv(w) && !Terminal(w.snap.view.state) && w.pc.AwaitVerify? && !NoEffectKey(w.snap.view.candidates)
    ensures Step(OnCancel(w), Respond(Verified(true, Null, Null, Null))).pc.AwaitAdopt?
  {
    hide NoEffectKey, AdoptArguments, Accounts, Lit;
  }

  lemma NothingToAdopt(w: Workflow)
    requires NoneEarly(w) && w.pc.AwaitTurn?
    ensures NoEffectKey(w.snap.view.candidates)
  {
  }
}
