/** Why care is needed: after a careless step two attempts can hold the lock at once. */
module Careless {
  import opened Utf16
  import opened Wrappers
  import opened Json
  import opened TaskState
  import opened Provenance
  import opened Adoption

  /** More than one attempt is between acquiring the lock and releasing it. */
  ghost predicate TwoHold(s: System) {
    exists i, j :: i != j && Holds(s, i) && Holds(s, j)
  }

  /** One attempt starts and runs: no time passes and nobody crashes. */
  predicate OneAttempt(events: seq<Event>, k: nat) {
    forall n :: 0 <= n < |events| ==> (events[n].Start? || events[n].Run?) && events[n].id == k
  }

  /** Two attempts come to hold the lock when one more attempt starts and runs. */
  ghost predicate LosesExclusion(b: Bytes, s: System) {
    exists events: seq<Event>, k: nat :: OneAttempt(events, k) && TwoHold(Exec(b, s, events))
  }

  lemma {:induction false} FreshId(ids: set<nat>) returns (k: nat)
    ensures forall i :: i in ids ==> i < k
  {
    if ids == {} {
      k := 0;
    } else {
      var i :| i in ids;
      var rest := FreshId(ids - {i});
      k := if i < rest then rest else i + 1;
      forall j | j in ids ensures j < k { if j != i { assert j in ids - {i}; } }
    }
  }

  /** A run of `n` steps of attempt `k`. */
  function Runs(k: nat, n: nat): seq<Event> { seq(n, i => Run(k)) }

  lemma {:induction false} ExecRuns(b: Bytes, s: System, k: nat, n: nat)
    requires n > 0
    ensures Exec(b, s, Runs(k, n)) == Exec(b, Step(b, s, Run(k)), Runs(k, n - 1))
  {
    hide Step;
    assert Runs(k, n)[1..] == Runs(k, n - 1);
  }

  /** The system in which attempt `k` is at `pc`, all else as in `s`. */
  function With(s: System, k: nat, a: Attempt): System { s.(attempts := s.attempts[k := a]) }

  lemma RunWith(b: Bytes, s: System, k: nat, a: Attempt)
    requires !a.pc.OpenLock? && !a.pc.RemoveLock? && !Holding(a.pc)
    ensures var t := RunStep(b, With(s, k, a), k); t == With(s, k, t.attempts[k])
  {
    hide ReadRef, Adoptable, Decide, Completion, Put, Receipt, ReceiptRef;
    var w := With(s, k, a);
    var t := RunStep(b, w, k);
    assert s.attempts[k := a][k := t.attempts[k]] == s.attempts[k := t.attempts[k]];
  }

  /** A fresh attempt with backed arguments gets to the lock. */
  lemma FreshGetsToLock(b: Bytes, s: System, k: nat, q: Input, owner: Text)
    requires k !in s.attempts && Backed(b, s.objects, q)
    ensures Exec(b, s, [Start(k, q, owner)] + Runs(k, 2)) == With(s, k, Attempt(q, owner, OpenLock(s.now), 0))
  {
    hide ReadRef, Adoptable, Decide, Completion, Put, Receipt, ReceiptRef;
    var events := [Start(k, q, owner)] + Runs(k, 2);
    assert events[1..] == Runs(k, 2);
    var report := ReadRef(b, s.objects, q.report).value;
    var s1 := With(s, k, Attempt(q, owner, ReadReport, 0));
    var s2 := With(s, k, Attempt(q, owner, ReadProvenance(report), 0));
    assert Step(b, s, events[0]) == s1;
    RunWith(b, s, k, s1.attempts[k]);
    RunWith(b, s, k, s2.attempts[k]);
    ExecRuns(b, s1, k, 2);
    ExecRuns(b, s2, k, 1);
    assert Runs(k, 0) == [];
  }

  lemma OpensFree(b: Bytes, s: System, k: nat, a: Attempt)
    requires a.pc.OpenLock? && s.lock.None?
    ensures var t := RunStep(b, With(s, k, a), k);
            Holds(t, k) && forall i :: i != k ==> Holds(t, i) == Holds(s, i)
  {
  }

  lemma {:induction false} ExecAppend(b: Bytes, s: System, xs: seq<Event>, ys: seq<Event>)
    ensures Exec(b, s, xs + ys) == Exec(b, Exec(b, s, xs), ys)
    decreases xs
  {
    hide Step;
    if xs == [] {
      assert xs + ys == ys;
    } else {
      assert (xs + ys)[1..] == xs[1..] + ys;
      ExecAppend(b, Step(b, s, xs[0]), xs[1..], ys);
    }
  }

  /** With the lock free and somebody holding, one fresh attempt is enough. */
  lemma FreeLockLoses(b: Bytes, s: System, h: nat)
    requires s.lock.None? && Holds(s, h) && Backed(b, s.objects, s.attempts[h].input)
    ensures LosesExclusion(b, s)
  {
    hide Step, RunStep, Backed;
    var k := FreshId(s.attempts.Keys);
    var q, owner := s.attempts[h].input, s.attempts[h].owner;
    var start := [Start(k, q, owner)] + Runs(k, 2);
    var a := Attempt(q, owner, OpenLock(s.now), 0);
    FreshGetsToLock(b, s, k, q, owner);
    ExecAppend(b, s, start, Runs(k, 1));
    ExecRuns(b, With(s, k, a), k, 1);
    assert Runs(k, 0) == [];
    OpensFree(b, s, k, a);
    var end := Exec(b, s, start + Runs(k, 1));
    assert end == RunStep(b, With(s, k, a), k) by { StepsRun(b, With(s, k, a), k); }
    assert Holds(end, k) && Holds(end, h) && h != k;
    assert OneAttempt(start + Runs(k, 1), k);
  }

  lemma StepsRun(b: Bytes, s: System, k: nat)
    requires k in s.attempts
    ensures Step(b, s, Run(k)) == RunStep(b, s, k)
  {
    hide RunStep;
  }

  /** A lock file that is seen stale is removed, and the lock is open again. */
  lemma RemovesStale(b: Bytes, s: System, k: nat, a: Attempt)
    requires a.pc == OpenLock(s.now) && s.lock.Some? && s.now - s.lock.value.mtime > 30_000
    ensures Exec(b, With(s, k, a), Runs(k, 4)) == With(s.(lock := None), k, a)
  {
    hide ReadRef, Adoptable, Decide, Completion, Put, Receipt, ReceiptRef;
    var s1 := With(s, k, a.(pc := StatLock(s.now)));
    var s2 := With(s, k, a.(pc := RemoveLock(s.now, s.lock.value)));
    var s3 := With(s.(lock := None), k, a.(pc := CheckTime(s.now)));
    var s4 := With(s.(lock := None), k, a);
    ExecRuns(b, With(s, k, a), k, 4);
    ExecRuns(b, s1, k, 3);
    ExecRuns(b, s2, k, 2);
    ExecRuns(b, s3, k, 1);
    assert Runs(k, 0) == [];
    Overwrites(s, k, a, a.(pc := StatLock(s.now)));
    Overwrites(s, k, a.(pc := StatLock(s.now)), a.(pc := RemoveLock(s.now, s.lock.value)));
    Overwrites(s, k, a.(pc := RemoveLock(s.now, s.lock.value)), a.(pc := CheckTime(s.now)));
    Overwrites(s, k, a.(pc := CheckTime(s.now)), a);
  }

  lemma Overwrites(s: System, k: nat, a: Attempt, a': Attempt)
    ensures s.attempts[k := a][k := a'] == s.attempts[k := a']
  {
  }

  /** With a stale lock file that is the holder's, one fresh attempt is enough, too. */
  lemma StaleLockLoses(b: Bytes, s: System, h: nat)
    requires s.lock.Some? && s.now - s.lock.value.mtime > 30_000
    requires Holds(s, h) && Backed(b, s.objects, s.attempts[h].input)
    ensures LosesExclusion(b, s)
  {
    hide Step, RunStep, Backed;
    var k := FreshId(s.attempts.Keys);
    var q, owner := s.attempts[h].input, s.attempts[h].owner;
    var start := [Start(k, q, owner)] + Runs(k, 2);
    var a := Attempt(q, owner, OpenLock(s.now), 0);
    FreshGetsToLock(b, s, k, q, owner);
    RemovesStale(b, s, k, a);
    ExecAppend(b, s, start, Runs(k, 4));
    ExecAppend(b, s, start + Runs(k, 4), Runs(k, 1));
    var free := With(s.(lock := None), k, a);
    ExecRuns(b, free, k, 1);
    assert Runs(k, 0) == [];
    StepsRun(b, free, k);
    OpensFree(b, s.(lock := None), k, a);
    var events := start + Runs(k, 4) + Runs(k, 1);
    var end := Exec(b, s, events);
    assert end == RunStep(b, free, k);
    assert Holds(s.(lock := None), h);
    assert Holds(end, k) && Holds(end, h) && h != k;
    assert OneAttempt(events, k);
  }

  lemma HolderBacked(b: Bytes, s: System, h: nat)
    requires AllBacked(b, s) && Holds(s, h)
    ensures Backed(b, s.objects, s.attempts[h].input)
  {
    hide Backed;
    assert AttemptBacked(b, s.objects, s.attempts[h]);
  }

  /** Carelessness matters: from a state with exclusion, a careless step leads to one from which
      two attempts come to hold the lock, without any time passing and without a crash. */
  lemma CarelessLoses(b: Bytes, s: System, e: Event)
    requires Exclusive(s) && AllBacked(b, s) && !Careful(s, e)
    ensures LosesExclusion(b, Step(b, s, e))
  {
    hide Backed, ReadRef, LosesExclusion;
    match e
    case Tick(ms) =>
      var h :| Holds(s, h) && s.now + ms - s.attempts[h].since > 30_000;
      HolderBacked(b, s, h);
      StaleLockLoses(b, Step(b, s, e), h);
    case Run(id) =>
      var h := s.lock.value.holder;
      HolderBacked(b, s, h);
      RemovalFrees(b, s, id);
      FreeLockLoses(b, Step(b, s, e), h);
  }

  lemma RemovalFrees(b: Bytes, s: System, id: nat)
    requires id in s.attempts && s.attempts[id].pc.RemoveLock?
    ensures var t := Step(b, s, Run(id));
            t.lock == None && t.objects == s.objects &&
            forall i :: Holds(s, i) ==> Holds(t, i) && t.attempts[i] == s.attempts[i]
  {
    hide ReadRef, Put;
  }

  /** The care of a step, by what it is for: it keeps the exclusion invariant, and without it
      exclusion is lost. */
  lemma CareExactly(b: Bytes, s: System, e: Event)
    requires Exclusive(s) && AllBacked(b, s)
    ensures Careful(s, e) ==> Exclusive(Step(b, s, e)) && !TwoHold(Step(b, s, e))
    ensures !Careful(s, e) ==> LosesExclusion(b, Step(b, s, e))
  {
    hide Step, Careful, LosesExclusion;
    ExclusionStep(b, s, e);
    if Careful(s, e) {
      var t := Step(b, s, e);
      forall i, j | Holds(t, i) && Holds(t, j) ensures i == j { ExclusionMeans(t, i, j); }
    } else {
      CarelessLoses(b, s, e);
    }
  }

  lemma PrefixExclusive(b: Bytes, s: System, events: seq<Event>, n: nat)
    requires AlwaysExclusive(b, s, events) && n <= |events|
    ensures !TwoHold(Exec(b, s, events[..n]))
  {
    hide Exclusive;
    var t := Exec(b, s, events[..n]);
    assert Exclusive(t);
    forall i, j | Holds(t, i) && Holds(t, j) ensures i == j { ExclusionMeans(t, i, j); }
  }

  /** For whole runs: on a careful run no two attempts ever hold the lock, and every run that is
      not careful passes a state from which one more attempt makes two. */
  lemma {:induction false} CarefulRunExactly(b: Bytes, s: System, events: seq<Event>)
    requires Exclusive(s) && AllBacked(b, s)
    ensures CarefulRun(b, s, events) ==> forall n :: 0 <= n <= |events| ==> !TwoHold(Exec(b, s, events[..n]))
    ensures !CarefulRun(b, s, events) ==>
              exists n :: 0 <= n <= |events| && LosesExclusion(b, Exec(b, s, events[..n]))
    decreases events
  {
    hide Step, Exclusive, Careful, LosesExclusion, AllBacked, TwoHold;
    if CarefulRun(b, s, events) {
      ExclusionExactly(b, s, events);
      forall n | 0 <= n <= |events| ensures !TwoHold(Exec(b, s, events[..n])) { PrefixExclusive(b, s, events, n); }
    } else {
      var t := Step(b, s, events[0]);
      PrefixAfterFirst(b, s, events, 1);
      assert events[1..][..0] == [];
      if !Careful(s, events[0]) {
        CarelessLoses(b, s, events[0]);
        assert LosesExclusion(b, Exec(b, s, events[..1]));
      } else {
        ExclusionStep(b, s, events[0]);
        BackedStep(b, s, events[0]);
        CarefulRunExactly(b, t, events[1..]);
        var n :| 0 <= n <= |events[1..]| && LosesExclusion(b, Exec(b, t, events[1..][..n]));
        PrefixAfterFirst(b, s, events, n + 1);
        assert LosesExclusion(b, Exec(b, s, events[..n + 1]));
      }
    }
  }
}
