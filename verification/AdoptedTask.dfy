/** The workflow and the adoption system run together: a workflow that ends COMPLETED was
    adopted on stored evidence about its first candidate. */
module AdoptedTask {
  import opened Utf16
  import opened Wrappers
  import opened Json
  import opened TaskState
  import opened Environment
  import Protocol
  import T = Temporal
  import A = Adoption

  datatype World = World(flow: T.Workflow, sys: A.System)

  /** An adoption result reaches the workflow only from an attempt that returned for the
      arguments the workflow waits on; everything else happens in any order. */
  datatype Event =
    | Flow(e: T.Event)
    | Sys(f: A.Event)
    | AdoptionReturns(id: nat)

  predicate Delivers(w: World, id: nat) {
    id in w.sys.attempts && w.sys.attempts[id].pc.Returned? &&
    w.flow.pc == T.AwaitAdopt(w.sys.attempts[id].input)
  }

  function Step(b: A.Bytes, w: World, e: Event): World {
    match e
    case Flow(f) => if f.Respond? && f.r.AdoptionDone? then w else w.(flow := T.Step(w.flow, f))
    case Sys(f) => w.(sys := A.Step(b, w.sys, f))
    case AdoptionReturns(id) =>
      if Delivers(w, id) then w.(flow := T.Step(w.flow, T.Respond(AdoptionDone(w.sys.attempts[id].pc.ref)))) else w
  }

  function Exec(b: A.Bytes, w: World, events: seq<Event>): World
    decreases events
  {
    if events == [] then w else Exec(b, Step(b, w, events[0]), events[1..])
  }

  /** The arguments of an adoption in flight are those of the snapshot. */
  predicate ArgumentsMatch(s: T.Snapshot, q: T.AdoptInput) {
    s.view.candidates != [] && q.candidate == s.view.candidates[0] &&
    s.report == Some(q.report) && s.provenance == Some(q.provenance) &&
    q.taskId == s.taskId && q.attemptId == s.attemptId && q.turnNo == s.view.turnNo &&
    q.effectKey == T.AdoptKey(s.taskId, s.attemptId, T.TemplateText(Get(q.candidate, Lit("digest"))))
  }

  predicate FlowInv(w: T.Workflow) {
    T.Inv(w) &&
    (w.pc.AwaitAdopt? && !Terminal(w.snap.view.state) ==> ArgumentsMatch(w.snap, w.pc.input)) &&
    (w.snap.view.state == COMPLETED ==> w.pc.Returned?)
  }

  /** An attempt that returned vouches for a completed snapshot. */
  predicate Vouches(b: A.Bytes, s: T.Snapshot, sys: A.System, id: nat) {
    id in sys.attempts &&
    sys.attempts[id].pc.Returned? && s.adoption == Some(sys.attempts[id].pc.ref) &&
    ArgumentsMatch(s, sys.attempts[id].input) && A.Backed(b, sys.objects, sys.attempts[id].input) &&
    A.Evidenced(b, sys.objects, sys.attempts[id].input)
  }

  ghost predicate Inv(b: A.Bytes, w: World) {
    FlowInv(w.flow) && A.AllBacked(b, w.sys) &&
    (w.flow.snap.view.state == COMPLETED ==> exists id :: Vouches(b, w.flow.snap, w.sys, id))
  }

  lemma VerifiedArguments(w: T.Workflow, passed: bool, report: Json, provenance: Json)
    requires FlowInv(w) && w.pc.AwaitVerify?
    ensures var w' := T.OnVerified(w, passed, report, provenance);
            (w'.pc.AwaitAdopt? ==> ArgumentsMatch(w'.snap, w'.pc.input)) &&
            (w'.snap.view.state == COMPLETED ==> w.snap.view.state == COMPLETED)
  {
    hide T.TemplateText, T.AdoptKey, Protocol.Accounts;
  }

  lemma TurnArguments(w: T.Workflow, output: AgentOutput)
    requires FlowInv(w) && w.pc.AwaitTurn?
    ensures var w' := T.OnTurn(w, output);
            !w'.pc.AwaitAdopt? && (w'.snap.view.state == COMPLETED ==> w.snap.view.state == COMPLETED)
  {
    hide Protocol.Accounts;
  }

  /** Without an adoption result the workflow does not complete, and its arguments stay those
      of the snapshot. */
  lemma FlowStep(w: T.Workflow, e: T.Event)
    requires FlowInv(w) && !(e.Respond? && e.r.AdoptionDone?)
    ensures FlowInv(T.Step(w, e))
    ensures T.Step(w, e).snap.view.state == COMPLETED ==> T.Step(w, e).snap == w.snap
  {
    T.StepRefines(w, e);
    if Terminal(w.snap.view.state) {
      T.TerminalStep(w, e);
      TerminalFlow(w, e);
    } else if e.Respond? {
      RespondFlow(w, e.r);
      hide T.OnRespond, Protocol.Accounts;
    } else {
      hide Protocol.Accounts, AssertedTask, T.Actions;
    }
  }

  lemma TerminalFlow(w: T.Workflow, e: T.Event)
    requires FlowInv(w) && Terminal(w.snap.view.state) && !(e.Respond? && e.r.AdoptionDone?)
    ensures w.snap.view.state == COMPLETED ==> T.Step(w, e).snap == w.snap && T.Step(w, e).pc.Returned?
  {
    if e.Respond? && e.r.DeltaOffered? { T.AllowedIdFacts(w.snap, e.r.delta); }
    hide Protocol.Accounts, AssertDeltaAllowed, Allowed;
  }

  lemma RespondFlow(w: T.Workflow, r: Response)
    requires FlowInv(w) && !Terminal(w.snap.view.state) && !r.AdoptionDone?
    ensures var w' := T.OnRespond(w, r);
            (w'.pc.AwaitAdopt? && !Terminal(w'.snap.view.state) ==> ArgumentsMatch(w'.snap, w'.pc.input)) &&
            w'.snap.view.state != COMPLETED
  {
    if r.DeltaOffered? {
      T.AllowedIdFacts(w.snap, r.delta);
      if AssertDeltaAllowed(T.DeltaContextOf(w.snap), r.delta).None? { T.PendingNeverOverwritten(w, r.delta); }
      hide AssertDeltaAllowed, Allowed, Protocol.Accounts, T.AllowedId;
    } else if r.Verified? && w.pc.AwaitVerify? {
      VerifiedArguments(w, r.passed, r.report, r.provenance);
      hide T.OnVerified, Protocol.Accounts;
    } else if r.TurnEnded? && w.pc.AwaitTurn? {
      TurnArguments(w, r.output);
      hide T.OnTurn, Protocol.Accounts;
    } else {
      hide T.OnTurn, T.OnVerified, T.OnDelta, Protocol.Accounts;
    }
  }

  /** What an attempt that returned vouches for, it vouches for after any step of the system. */
  lemma VouchingKept(b: A.Bytes, s: T.Snapshot, sys: A.System, f: A.Event, id: nat)
    requires Vouches(b, s, sys, id) && A.AllBacked(b, sys)
    ensures Vouches(b, s, A.Step(b, sys, f), id)
  {
    A.BackedStep(b, sys, f);
    ReturnedStays(b, sys, f, id);
    hide A.Step, A.Backed, A.Evidenced;
    var sys' := A.Step(b, sys, f);
    assert A.AttemptBacked(b, sys'.objects, sys'.attempts[id]);
    A.BackedIsEvidenced(b, sys'.objects, sys'.attempts[id].input);
  }

  lemma ReturnedStays(b: A.Bytes, sys: A.System, f: A.Event, id: nat)
    requires id in sys.attempts && sys.attempts[id].pc.Returned?
    ensures id in A.Step(b, sys, f).attempts && A.Step(b, sys, f).attempts[id] == sys.attempts[id]
  {
    if f.Run? && f.id in sys.attempts { A.OthersUntouched(b, sys, f.id); }
    if f.Run? && f.id != id { hide A.RunStep; }
    hide A.ReadRef, A.Put, A.Decide, A.Completion;
  }

  lemma WorldStep(b: A.Bytes, w: World, e: Event)
    requires Inv(b, w)
    ensures Inv(b, Step(b, w, e))
  {
    match e
    case Flow(f) =>
      if !(f.Respond? && f.r.AdoptionDone?) {
        FlowStep(w.flow, f);
        hide FlowInv, T.Step, A.AllBacked, ArgumentsMatch, A.Backed;
      }
    case Sys(f) =>
      A.BackedStep(b, w.sys, f);
      if w.flow.snap.view.state == COMPLETED {
        var id :| Vouches(b, w.flow.snap, w.sys, id);
        VouchingKept(b, w.flow.snap, w.sys, f, id);
      }
      hide FlowInv, A.Step, A.AllBacked, Vouches;
    case AdoptionReturns(id) =>
      if Delivers(w, id) { ReturnStep(b, w, id); }
      hide FlowInv, T.Step, A.AllBacked, Vouches;
  }

  lemma AdoptedFlow(w: T.Workflow, ref: Json)
    requires FlowInv(w) && w.pc.AwaitAdopt?
    ensures var w' := T.OnRespond(w, AdoptionDone(ref));
            w'.pc.Returned? &&
            (w'.snap.view.state == COMPLETED ==> w'.snap.adoption == Some(ref) && ArgumentsMatch(w'.snap, w.pc.input))
  {
    hide Protocol.Accounts;
  }

  lemma ReturnStep(b: A.Bytes, w: World, id: nat)
    requires Inv(b, w) && Delivers(w, id)
    ensures var flow := T.Step(w.flow, T.Respond(AdoptionDone(w.sys.attempts[id].pc.ref)));
            FlowInv(flow) && (flow.snap.view.state == COMPLETED ==> Vouches(b, flow.snap, w.sys, id))
  {
    hide A.Backed, A.Evidenced, Protocol.Accounts, T.Actions, T.OnRespond;
    var ref := w.sys.attempts[id].pc.ref;
    T.StepRefines(w.flow, T.Respond(AdoptionDone(ref)));
    assert A.AttemptBacked(b, w.sys.objects, w.sys.attempts[id]);
    A.BackedIsEvidenced(b, w.sys.objects, w.sys.attempts[id].input);
    AdoptedFlow(w.flow, ref);
  }

  /** Every reachable COMPLETED snapshot was adopted: an adoption attempt returned the recorded
      reference for exactly the snapshot's arguments, and the store holds a PASS report and a
      provenance record that both name the digest of the first candidate, whatever the agent
      and the verifier answered and whatever happened in between. */
  lemma {:induction false} CompletedWasAdopted(b: A.Bytes, w: World, events: seq<Event>)
    requires Inv(b, w)
    ensures Inv(b, Exec(b, w, events))
    ensures var w' := Exec(b, w, events);
            w'.flow.snap.view.state == COMPLETED ==> exists id :: Vouches(b, w'.flow.snap, w'.sys, id)
    decreases events
  {
    hide Step, FlowInv, A.AllBacked, Vouches;
    if events != [] {
      WorldStep(b, w, events[0]);
      CompletedWasAdopted(b, Step(b, w, events[0]), events[1..]);
    }
  }

  // ----- Careful runs -----

  ghost predicate Careful(w: World, e: Event) { e.Sys? ==> A.Careful(w.sys, e.f) }

  ghost predicate CarefulRun(b: A.Bytes, w: World, events: seq<Event>)
    decreases events
  {
    events == [] || (Careful(w, events[0]) && CarefulRun(b, Step(b, w, events[0]), events[1..]))
  }

  lemma SystemStep(b: A.Bytes, w: World, e: Event)
    requires A.Exclusive(w.sys) && A.Good(b, w.sys) && Careful(w, e)
    ensures A.Exclusive(Step(b, w, e).sys) && A.Good(b, Step(b, w, e).sys)
  {
    hide A.Exclusive, A.Good, A.Careful, A.Step, T.Step;
    if e.Sys? {
      A.ExclusionStep(b, w.sys, e.f);
      A.AdoptionStep(b, w.sys, e.f);
    }
  }

  lemma VouchedIsOnFile(b: A.Bytes, w: World)
    requires Inv(b, w) && A.Good(b, w.sys) && w.flow.snap.view.state == COMPLETED
    ensures w.flow.snap.adoption.Some? && w.flow.snap.adoption == A.AdoptionOf(w.sys.ledger)
  {
    hide A.Backed, A.Evidenced, A.GoodFile, A.AllBacked, FlowInv, ArgumentsMatch, Get, Lit;
    var id :| Vouches(b, w.flow.snap, w.sys, id);
    assert A.AttemptGood(b, w.sys.ledger, w.sys.attempts[id]);
  }

  /** On every careful run the adoption of a COMPLETED snapshot is the one on file, for its own
      arguments and effect key. */
  lemma {:induction false} CompletedIsOnFile(b: A.Bytes, w: World, events: seq<Event>)
    requires Inv(b, w) && A.Exclusive(w.sys) && A.Good(b, w.sys) && CarefulRun(b, w, events)
    ensures var w' := Exec(b, w, events);
            w'.flow.snap.view.state == COMPLETED ==>
              w'.flow.snap.adoption.Some? && w'.flow.snap.adoption == A.AdoptionOf(w'.sys.ledger) &&
              exists id :: Vouches(b, w'.flow.snap, w'.sys, id)
    decreases events
  {
    hide Step, FlowInv, A.AllBacked, Vouches, A.Exclusive, A.Good, Careful;
    if events != [] {
      WorldStep(b, w, events[0]);
      SystemStep(b, w, events[0]);
      CompletedIsOnFile(b, Step(b, w, events[0]), events[1..]);
    } else if w.flow.snap.view.state == COMPLETED {
      VouchedIsOnFile(b, w);
    }
  }

  /** The runs the theorem is about start from any submitted task and any store and ledger. */
  lemma StartInv(b: A.Bytes, task: Json, sys: A.System)
    requires AssertedTask(task) && sys.attempts == map[]
    ensures Inv(b, World(T.Submitted(task), sys))
    ensures A.Exclusive(sys) && A.StaleSeen(sys) && (A.GoodFile(sys.ledger) ==> A.Good(b, sys))
  {
    T.SubmittedInv(task);
    hide AssertedTask;
  }

  /** From any submitted task, any store and any ledger that the activity can have left: on every
      careful run a COMPLETED snapshot has the adoption on file. */
  lemma SubmittedIsOnFile(b: A.Bytes, task: Json, sys: A.System, events: seq<Event>)
    requires AssertedTask(task) && sys.attempts == map[] && A.GoodFile(sys.ledger)
    requires CarefulRun(b, World(T.Submitted(task), sys), events)
    ensures var w := Exec(b, World(T.Submitted(task), sys), events);
            w.flow.snap.view.state == COMPLETED ==>
              w.flow.snap.adoption.Some? && w.flow.snap.adoption == A.AdoptionOf(w.sys.ledger) &&
              exists id :: Vouches(b, w.flow.snap, w.sys, id)
  {
    hide AssertedTask, A.GoodFile, A.Good, A.Exclusive, Inv, Vouches, T.Submitted, CarefulRun, Exec;
    StartInv(b, task, sys);
    CompletedIsOnFile(b, World(T.Submitted(task), sys), events);
  }
}
