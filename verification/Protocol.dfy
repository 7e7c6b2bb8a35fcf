/** The abstract `RunAgentTask` machine that both backends refine: one task, its phase,
    and the fields a reader of the snapshot can see. */
module Protocol {
  import opened Utf16
  import opened Wrappers
  import opened Json
  import opened TaskState

  /** What the protocol waits for. */
  datatype Phase = Submitted | Compiling | Turn | Waiting | Merging | Verifying | Adopting | Ended

  /** The observable part of a snapshot. */
  datatype View = View(
    state: State, stateSeq: nat, contextSeq: nat, turnNo: nat,
    need: Option<Json>, applied: seq<Text>, candidates: seq<Json>)

  datatype Machine = Machine(phase: Phase, view: View)

  datatype Action =
    | Begin
    | CompiledContext
    | AskedForContext(need: Option<Json>)
    | AcceptedDelta(id: Text)
    | MergedContext
    | OfferedCandidates(refs: seq<Json>)
    | PassedVerification
    | Adopted
    | Stopped(to: State)

  const START := Machine(Submitted, View(SUBMITTED, 1, 0, 0, None, [], []))

  /** Whether the protocol allows an action in a state. */
  predicate Enabled(m: Machine, a: Action) {
    match a
    case Begin => m.phase == Submitted
    case CompiledContext => m.phase == Compiling
    case AskedForContext(_) => m.phase == Turn
    case AcceptedDelta(id) => m.phase == Waiting && id !in m.view.applied
    case MergedContext => m.phase == Merging
    case OfferedCandidates(refs) => m.phase == Turn && refs != []
    case PassedVerification => m.phase == Verifying
    case Adopted => m.phase == Adopting
    case Stopped(to) => m.phase != Ended && (to == FAILED || to == CANCELED)
  }

  function Moved(v: View, to: State): View { v.(state := to, stateSeq := v.stateSeq + 1) }

  function Apply(m: Machine, a: Action): Machine {
    var v := m.view;
    match a
    case Begin => Machine(Compiling, Moved(v, COMPILING_CONTEXT))
    case CompiledContext => Machine(Turn, Moved(v, WORKING).(turnNo := v.turnNo + 1))
    case AskedForContext(need) => Machine(Waiting, Moved(v, INPUT_REQUIRED).(need := need))
    case AcceptedDelta(id) =>
      Machine(Merging, Moved(v, WORKING).(contextSeq := v.contextSeq + 1, need := None, applied := v.applied + [id]))
    case MergedContext => Machine(Turn, Moved(v, WORKING).(turnNo := v.turnNo + 1))
    case OfferedCandidates(refs) => Machine(Verifying, Moved(v, VERIFYING).(candidates := refs))
    case PassedVerification => Machine(Adopting, Moved(v, ADOPTING))
    case Adopted => Machine(Ended, Moved(v, COMPLETED))
    case Stopped(to) => Machine(Ended, Moved(v, to))
  }

  predicate Distinct(ids: seq<Text>) {
    forall i, j :: 0 <= i < j < |ids| ==> ids[i] != ids[j]
  }

  /** The sequence accounting of every phase. */
  predicate Accounts(m: Machine) {
    var v := m.view;
    v.contextSeq == |v.applied| && Distinct(v.applied) &&
    (v.state != INPUT_REQUIRED ==> v.need == None || m.phase == Ended) &&
    match m.phase
    case Submitted => v.state == SUBMITTED && v.stateSeq == 1 && v.contextSeq == 0 && v.turnNo == 0
    case Compiling => v.state == COMPILING_CONTEXT && v.stateSeq == 2 && v.contextSeq == 0 && v.turnNo == 0
    case Turn => v.state == WORKING && v.stateSeq == 3 * v.contextSeq + 3 && v.turnNo == v.contextSeq + 1
    case Waiting => v.state == INPUT_REQUIRED && v.stateSeq == 3 * v.contextSeq + 4 && v.turnNo == v.contextSeq + 1
    case Merging => v.state == WORKING && v.stateSeq == 3 * v.contextSeq + 2 && v.turnNo == v.contextSeq >= 1
    case Verifying =>
      v.state == VERIFYING && v.stateSeq == 3 * v.contextSeq + 4 && v.turnNo == v.contextSeq + 1 && v.candidates != []
    case Adopting =>
      v.state == ADOPTING && v.stateSeq == 3 * v.contextSeq + 5 && v.turnNo == v.contextSeq + 1 && v.candidates != []
    case Ended =>
      Terminal(v.state) && v.contextSeq <= v.turnNo <= v.contextSeq + 1 &&
      2 <= v.stateSeq <= 3 * v.contextSeq + 6 &&
      (v.state == COMPLETED ==>
         v.stateSeq == 3 * v.contextSeq + 6 && v.turnNo == v.contextSeq + 1 && v.candidates != [])
  }

  /** A step of the state history: along the table, or the self-step of WORKING that opens
      the turn after a merged delta. */
  predicate LegalStep(v: View, w: View) {
    w.stateSeq == v.stateSeq + 1 &&
    (w.state in Successors(v.state) ||
     (v.state == WORKING && w.state == WORKING && w.turnNo == v.turnNo + 1 && w.contextSeq == v.contextSeq))
  }

  /** Every action keeps the accounting and takes one legal step. */
  lemma ApplyKeepsAccounts(m: Machine, a: Action)
    requires Accounts(m) && Enabled(m, a)
    ensures Accounts(Apply(m, a))
    ensures LegalStep(m.view, Apply(m, a).view)
    ensures Terminal(Apply(m, a).view.state) <==> Apply(m, a).phase == Ended
  {
  }

  /** A run of the machine: each action was enabled. */
  predicate Run(m: Machine, actions: seq<Action>)
    decreases actions
  {
    actions == [] || (Enabled(m, actions[0]) && Run(Apply(m, actions[0]), actions[1..]))
  }

  function After(m: Machine, actions: seq<Action>): Machine
    decreases actions
  {
    if actions == [] then m else After(Apply(m, actions[0]), actions[1..])
  }

  /** On every run, the accounting holds at the end. */
  lemma {:induction false} RunKeepsAccounts(m: Machine, actions: seq<Action>)
    requires Accounts(m) && Run(m, actions)
    ensures Accounts(After(m, actions))
    ensures After(m, actions).view.stateSeq == m.view.stateSeq + |actions|
    decreases actions
  {
    if actions != [] {
      ApplyKeepsAccounts(m, actions[0]);
      RunKeepsAccounts(Apply(m, actions[0]), actions[1..]);
    }
  }

  /** No action is enabled once the machine has ended. */
  lemma EndedIsFinal(m: Machine, a: Action)
    requires m.phase == Ended
    ensures !Enabled(m, a)
  {
  }

  /** The state history of a run is a path: each action takes one legal step, and a terminal
      state is entered by the last action only. */
  ghost predicate Path(m: Machine, actions: seq<Action>) {
    forall n :: 0 <= n < |actions| ==>
      After(m, actions[..n]).phase != Ended &&
      LegalStep(After(m, actions[..n]).view, After(m, actions[..n + 1]).view)
  }

  lemma AfterPrefix(m: Machine, actions: seq<Action>, n: nat)
    requires n < |actions|
    ensures After(m, actions[..n + 1]) == After(Apply(m, actions[0]), actions[1..][..n])
  {
    hide Apply;
    assert actions[..n + 1][1..] == actions[1..][..n];
  }

  lemma {:induction false} RunIsPath(m: Machine, actions: seq<Action>)
    requires Accounts(m) && Run(m, actions)
    ensures Path(m, actions)
    decreases actions
  {
    hide Apply, Enabled, Accounts, LegalStep;
    if actions != [] {
      var next := Apply(m, actions[0]);
      ApplyKeepsAccounts(m, actions[0]);
      if m.phase == Ended { EndedIsFinal(m, actions[0]); }
      RunIsPath(next, actions[1..]);
      forall n | 0 <= n < |actions|
        ensures After(m, actions[..n]).phase != Ended &&
                LegalStep(After(m, actions[..n]).view, After(m, actions[..n + 1]).view)
      {
        AfterPrefix(m, actions, n);
        if n == 0 {
          assert actions[..0] == [] && actions[1..][..0] == [];
        } else {
          AfterPrefix(m, actions, n - 1);
          assert After(next, actions[1..][..n - 1]).phase != Ended;
        }
      }
    }
  }

  lemma {:induction false} RunAppend(m: Machine, xs: seq<Action>, ys: seq<Action>)
    ensures Run(m, xs + ys) <==> Run(m, xs) && Run(After(m, xs), ys)
    ensures After(m, xs + ys) == After(After(m, xs), ys)
    decreases xs
  {
    if xs == [] {
      assert xs + ys == ys;
    } else {
      assert (xs + ys)[1..] == xs[1..] + ys;
      RunAppend(Apply(m, xs[0]), xs[1..], ys);
    }
  }

  // ----- The table -----

  /** A machine with the accounting of each live phase. */
  function Sample(phase: Phase): Machine
    requires phase != Ended
  {
    match phase
    case Submitted => START
    case Compiling => Machine(Compiling, View(COMPILING_CONTEXT, 2, 0, 0, None, [], []))
    case Turn => Machine(Turn, View(WORKING, 3, 0, 1, None, [], []))
    case Waiting => Machine(Waiting, View(INPUT_REQUIRED, 4, 0, 1, None, [], []))
    case Merging => Machine(Merging, View(WORKING, 5, 1, 1, None, [[]], []))
    case Verifying => Machine(Verifying, View(VERIFYING, 4, 0, 1, None, [], [Null]))
    case Adopting => Machine(Adopting, View(ADOPTING, 5, 0, 1, None, [], [Null]))
  }

  /** Some action leads from one state to the other. */
  ghost predicate Leads(s: State, t: State) {
    exists m: Machine, a: Action :: Accounts(m) && m.view.state == s && Enabled(m, a) && Apply(m, a).view.state == t
  }

  function PhaseIn(s: State): Phase {
    match s
    case SUBMITTED => Submitted
    case COMPILING_CONTEXT => Compiling
    case WORKING => Turn
    case INPUT_REQUIRED => Waiting
    case VERIFYING => Verifying
    case ADOPTING => Adopting
    case _ => Ended
  }

  function ActionTo(s: State, t: State): Action {
    match t
    case COMPILING_CONTEXT => Begin
    case WORKING => if s == INPUT_REQUIRED then AcceptedDelta([]) else CompiledContext
    case INPUT_REQUIRED => AskedForContext(None)
    case VERIFYING => OfferedCandidates([Null])
    case ADOPTING => PassedVerification
    case COMPLETED => Adopted
    case _ => Stopped(t)
  }

  lemma SampleAccounts(phase: Phase)
    requires phase != Ended
    ensures Accounts(Sample(phase)) && Sample(phase).phase == phase
  {
  }

  lemma EdgeTaken(s: State, t: State)
    requires t in Successors(s)
    ensures PhaseIn(s) != Ended && Sample(PhaseIn(s)).view.state == s
    ensures Enabled(Sample(PhaseIn(s)), ActionTo(s, t)) && Apply(Sample(PhaseIn(s)), ActionTo(s, t)).view.state == t
  {
  }

  lemma LeadsBy(m: Machine, a: Action)
    requires Accounts(m) && Enabled(m, a)
    ensures Leads(m.view.state, Apply(m, a).view.state)
  {
    hide Accounts, Enabled, Apply;
  }

  /** The table has exactly the state changes that the protocol can make, and each of them can be
      made. WORKING also follows itself, which the table does not have. */
  lemma TableExactly(s: State, t: State)
    ensures Leads(s, t) <==> t in Successors(s) || (s == WORKING && t == WORKING)
  {
    if Leads(s, t) {
      var m: Machine, a: Action :| Accounts(m) && m.view.state == s && Enabled(m, a) && Apply(m, a).view.state == t;
      ApplyKeepsAccounts(m, a);
    }
    hide Accounts, Successors, Leads, ActionTo, PhaseIn;
    if t in Successors(s) {
      EdgeTaken(s, t);
      SampleAccounts(PhaseIn(s));
      hide Enabled, Apply, Sample;
      LeadsBy(Sample(PhaseIn(s)), ActionTo(s, t));
    } else if s == WORKING && t == WORKING {
      SampleAccounts(Merging);
      LeadsBy(Sample(Merging), MergedContext);
    }
  }
}
