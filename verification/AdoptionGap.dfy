/** Why the removal of a stale lock must hit the file that was looked at: a run in which no
    holder is ever too old, and yet two attempts hold the lock and an adoption changes. */
module AdoptionGap {
  import opened Utf16
  import opened Wrappers
  import opened Json
  import opened TaskState
  import opened Effects
  import opened Provenance
  import opened Adoption

  /** Two attempts at the same adoption, all else fixed. */
  datatype Scene = Scene(q: Input, first: Text, second: Text, now: nat)

  function Two(c: Scene, lock: Option<LockFile>, ledger: Option<LedgerFile>, objects: Objects, p1: Control, p2: Control): System {
    System(c.now, lock, ledger, objects,
           map[1 := Attempt(c.q, c.first, p1, c.now), 2 := Attempt(c.q, c.second, p2, c.now)])
  }

  /** Reached by steps of the two attempts alone: the clock stands still and nobody crashes. */
  ghost predicate Reaches(b: Bytes, s: System, t: System) {
    exists events :: OnlyRuns(events) && Adoption.Exec(b, s, events) == t
  }

  predicate OnlyRuns(events: seq<Event>) { forall i :: 0 <= i < |events| ==> events[i].Run? }

  lemma {:induction false} ExecSnoc(b: Bytes, s: System, events: seq<Event>, e: Event)
    ensures Adoption.Exec(b, s, events + [e]) == Step(b, Adoption.Exec(b, s, events), e)
    decreases events
  {
    hide Step;
    if events == [] {
      assert [] + [e] == [e] && [e][1..] == [];
      assert Adoption.Exec(b, s, [e]) == Adoption.Exec(b, Step(b, s, e), []);
    } else {
      assert (events + [e])[1..] == events[1..] + [e];
      ExecSnoc(b, Step(b, s, events[0]), events[1..], e);
    }
  }

  lemma ReachNow(b: Bytes, s: System)
    ensures Reaches(b, s, s)
  {
    assert OnlyRuns([]) && Adoption.Exec(b, s, []) == s;
  }

  lemma ReachNext(b: Bytes, s: System, t: System, id: nat)
    requires Reaches(b, s, t) && id in t.attempts
    ensures Reaches(b, s, RunStep(b, t, id))
  {
    hide RunStep;
    var events :| OnlyRuns(events) && Adoption.Exec(b, s, events) == t;
    ExecSnoc(b, s, events, Run(id));
    assert OnlyRuns(events + [Run(id)]);
  }

  /** Both attempts find the file of a crashed holder stale, both decide to remove it, and the
      second removal hits the fresh lock of the first. */
  lemma BothAcquire(b: Bytes, s: System, c: Scene, objects: Objects)
    requires c.now > 30_000
    requires Reaches(b, s, Two(c, Some(LockFile(0, 0)), None, objects, OpenLock(c.now), OpenLock(c.now)))
    ensures Reaches(b, s, Two(c, Some(LockFile(2, c.now)), None, objects, ReadLedger, ReadLedger))
  {
    hide Reaches, ReadRef, Adoptable, Decide, Completion, Put, Receipt, ReceiptRef;
    var old0, t := LockFile(0, 0), c.now;
    var held := Some(old0);
    ReachNext(b, s, Two(c, held, None, objects, OpenLock(t), OpenLock(t)), 1);
    assert RunStep(b, Two(c, held, None, objects, OpenLock(t), OpenLock(t)), 1) == Two(c, held, None, objects, StatLock(t), OpenLock(t));
    ReachNext(b, s, Two(c, held, None, objects, StatLock(t), OpenLock(t)), 2);
    assert RunStep(b, Two(c, held, None, objects, StatLock(t), OpenLock(t)), 2) == Two(c, held, None, objects, StatLock(t), StatLock(t));
    ReachNext(b, s, Two(c, held, None, objects, StatLock(t), StatLock(t)), 1);
    assert RunStep(b, Two(c, held, None, objects, StatLock(t), StatLock(t)), 1) == Two(c, held, None, objects, RemoveLock(t, old0), StatLock(t));
    ReachNext(b, s, Two(c, held, None, objects, RemoveLock(t, old0), StatLock(t)), 2);
    assert RunStep(b, Two(c, held, None, objects, RemoveLock(t, old0), StatLock(t)), 2) == Two(c, held, None, objects, RemoveLock(t, old0), RemoveLock(t, old0));
    FirstThenSecond(b, s, c, objects);
  }

  /** The free lock is taken at the time it is. */
  lemma OpenRun(b: Bytes, c: Scene, objects: Objects, p2: Control)
    ensures RunStep(b, Two(c, None, None, objects, OpenLock(c.now), p2), 1) ==
            Two(c, Some(LockFile(1, c.now)), None, objects, ReadLedger, p2)
  {
    hide ReadRef, Adoptable, Decide, Completion, Put, Receipt, ReceiptRef, Lit;
    var s := Two(c, None, None, objects, OpenLock(c.now), p2);
    assert s.attempts[1].pc == OpenLock(c.now);
    var t := RunStep(b, s, 1);
    assert t.attempts == Two(c, None, None, objects, ReadLedger, p2).attempts;
  }

  lemma FirstAcquires(b: Bytes, s: System, c: Scene, objects: Objects)
    requires Reaches(b, s, Two(c, Some(LockFile(0, 0)), None, objects, RemoveLock(c.now, LockFile(0, 0)), RemoveLock(c.now, LockFile(0, 0))))
    ensures Reaches(b, s, Two(c, Some(LockFile(1, c.now)), None, objects, ReadLedger, RemoveLock(c.now, LockFile(0, 0))))
  {
    hide Reaches, ReadRef, Adoptable, Decide, Completion, Put, Receipt, ReceiptRef, Lit;
    var old0, t := LockFile(0, 0), c.now;
    var rm := RemoveLock(t, old0);
    ReachNext(b, s, Two(c, Some(old0), None, objects, rm, rm), 1);
    assert RunStep(b, Two(c, Some(old0), None, objects, rm, rm), 1) == Two(c, None, None, objects, CheckTime(t), rm);
    ReachNext(b, s, Two(c, None, None, objects, CheckTime(t), rm), 1);
    assert RunStep(b, Two(c, None, None, objects, CheckTime(t), rm), 1) == Two(c, None, None, objects, OpenLock(t), rm);
    ReachNext(b, s, Two(c, None, None, objects, OpenLock(t), rm), 1);
    OpenRun(b, c, objects, rm);
  }

  lemma FirstThenSecond(b: Bytes, s: System, c: Scene, objects: Objects)
    requires Reaches(b, s, Two(c, Some(LockFile(0, 0)), None, objects, RemoveLock(c.now, LockFile(0, 0)), RemoveLock(c.now, LockFile(0, 0))))
    ensures Reaches(b, s, Two(c, Some(LockFile(2, c.now)), None, objects, ReadLedger, ReadLedger))
  {
    hide Reaches, ReadRef, Adoptable, Decide, Completion, Put, Receipt, ReceiptRef, Lit;
    FirstAcquires(b, s, c, objects);
    var t := c.now;
    var rm := RemoveLock(t, LockFile(0, 0));
    var mine := Some(LockFile(1, t));
    ReachNext(b, s, Two(c, mine, None, objects, ReadLedger, rm), 2);
    assert RunStep(b, Two(c, mine, None, objects, ReadLedger, rm), 2) == Two(c, None, None, objects, ReadLedger, CheckTime(t));
    ReachNext(b, s, Two(c, None, None, objects, ReadLedger, CheckTime(t)), 2);
    assert RunStep(b, Two(c, None, None, objects, ReadLedger, CheckTime(t)), 2) == Two(c, None, None, objects, ReadLedger, OpenLock(t));
    ReachNext(b, s, Two(c, None, None, objects, ReadLedger, OpenLock(t)), 2);
    assert RunStep(b, Two(c, None, None, objects, ReadLedger, OpenLock(t)), 2) == Two(c, Some(LockFile(2, t)), None, objects, ReadLedger, ReadLedger);
  }

  function FirstClaim(c: Scene): EffectRecord {
    EffectRecord(c.q.effectKey, SubjectOf(c.q), c.first, 1, STARTED, None, None, false)
  }

  function SecondClaim(c: Scene): EffectRecord { FirstClaim(c).(owner := c.second, generation := 2) }

  /** The adoption is a proper one: a candidate with a digest, a key, two different owners, and a
      hash whose values look like SHA-256 and tell the two receipts apart. */
  predicate Proper(b: Bytes, c: Scene) {
    DigestOf(c.q.candidate).Some? && c.q.effectKey != [] && c.first != [] && c.second != [] && c.first != c.second &&
    IsDigest(DigestText(b, Receipt(c.q, 1))) && IsDigest(DigestText(b, Receipt(c.q, 2))) &&
    ReceiptRef(b, c.q, 1) != ReceiptRef(b, c.q, 2)
  }

  function Done(b: Bytes, c: Scene, claim: EffectRecord): EffectRecord {
    claim.(status := SUCCEEDED, result := Some(DigestText(b, Receipt(c.q, claim.generation))))
  }

  lemma Decisions(b: Bytes, c: Scene)
    requires Proper(b, c)
    ensures Decide(None, c.q, c.first) == Proceed(FirstClaim(c))
    ensures Decide(Some(Claimed(c.q, FirstClaim(c))), c.q, c.second) == Proceed(SecondClaim(c))
    ensures Completion(b, c.q, c.first, FirstClaim(c)) == Ok(Done(b, c, FirstClaim(c)))
    ensures Completion(b, c.q, c.second, SecondClaim(c)) == Ok(Done(b, c, SecondClaim(c)))
  {
    hide ReceiptRef, Receipt, DigestText, Get, Lit, IsDigest;
    assert IsDigest(SubjectOf(c.q)) by { DigestIsDigest(c.q.candidate); }
  }

  lemma DigestIsDigest(candidate: Json)
    ensures DigestOf(candidate).Some? ==> IsDigest(DigestOf(candidate).value)
  {
    hide IsDigest, Lookup, Lit;
  }

  /** The scene as seen from one of the two attempts. */
  function Seen(c: Scene, id: nat, lock: Option<LockFile>, f: Option<LedgerFile>, objects: Objects, p: Control, other: Control): (s: System)
    ensures id == 1 || id == 2 ==> id in s.attempts
  {
    if id == 1 then Two(c, lock, f, objects, p, other) else Two(c, lock, f, objects, other, p)
  }

  function Owner(c: Scene, id: nat): Text { if id == 1 then c.first else c.second }

  lemma DecideRun(b: Bytes, c: Scene, id: nat, lock: Option<LockFile>, f: Option<LedgerFile>, objects: Objects, other: Control, claim: EffectRecord)
    requires (id == 1 || id == 2) && Decide(f, c.q, Owner(c, id)) == Proceed(claim)
    ensures RunStep(b, Seen(c, id, lock, f, objects, ReadLedger, other), id) == Seen(c, id, lock, f, objects, WriteClaim(claim), other)
  {
    hide ReadRef, Adoptable, Decide, Completion, Put, Receipt, ReceiptRef;
  }

  lemma ClaimRun(b: Bytes, c: Scene, id: nat, lock: Option<LockFile>, f: Option<LedgerFile>, objects: Objects, other: Control, claim: EffectRecord)
    requires id == 1 || id == 2
    ensures RunStep(b, Seen(c, id, lock, f, objects, WriteClaim(claim), other), id) ==
            Seen(c, id, lock, Some(Claimed(c.q, claim)), objects, PutReceipt(claim), other)
  {
    hide ReadRef, Adoptable, Decide, Completion, Put, Receipt, ReceiptRef;
  }

  lemma ReceiptRun(b: Bytes, c: Scene, id: nat, lock: Option<LockFile>, f: Option<LedgerFile>, objects: Objects, other: Control,
                   claim: EffectRecord, done: EffectRecord)
    requires (id == 1 || id == 2) && Completion(b, c.q, Owner(c, id), claim) == Ok(done)
    ensures RunStep(b, Seen(c, id, lock, f, objects, PutReceipt(claim), other), id) ==
            Seen(c, id, lock, f, Put(b, objects, Receipt(c.q, claim.generation)),
                 WriteFinal(done, ReceiptRef(b, c.q, claim.generation)), other)
  {
    hide ReadRef, Adoptable, Decide, Completion, Put, Receipt, ReceiptRef;
  }

  lemma FinalRun(b: Bytes, c: Scene, id: nat, lock: Option<LockFile>, f: Option<LedgerFile>, objects: Objects, other: Control,
                 done: EffectRecord, ref: Json)
    requires id == 1 || id == 2
    ensures RunStep(b, Seen(c, id, lock, f, objects, WriteFinal(done, ref), other), id) ==
            Seen(c, id, lock, Some(Claimed(c.q, done).(adopted := Some(ref))), objects, Release(Some(ref)), other)
  {
    hide ReadRef, Adoptable, Decide, Completion, Put, Receipt, ReceiptRef;
  }

  lemma ReleaseRun(b: Bytes, c: Scene, id: nat, lock: Option<LockFile>, f: Option<LedgerFile>, objects: Objects, other: Control, ref: Json)
    requires id == 1 || id == 2
    ensures RunStep(b, Seen(c, id, lock, f, objects, Release(Some(ref)), other), id) ==
            Seen(c, id, None, f, objects, Returned(ref), other)
  {
    hide ReadRef, Adoptable, Decide, Completion, Put, Receipt, ReceiptRef;
  }

  /** The second holder takes over between the first one's claim and its completion. */
  lemma BothClaim(b: Bytes, s: System, c: Scene, objects: Objects, lock: Option<LockFile>)
    requires Proper(b, c)
    requires Reaches(b, s, Two(c, lock, None, objects, ReadLedger, ReadLedger))
    ensures Reaches(b, s, Two(c, lock, Some(Claimed(c.q, FirstClaim(c))), objects, PutReceipt(FirstClaim(c)), WriteClaim(SecondClaim(c))))
  {
    Decisions(b, c);
    hide Reaches, RunStep, Decide, Completion, Proper, FirstClaim, SecondClaim, Claimed, Two;
    var c1, c2 := FirstClaim(c), SecondClaim(c);
    var f := Some(Claimed(c.q, c1));
    ReachNext(b, s, Seen(c, 1, lock, None, objects, ReadLedger, ReadLedger), 1);
    DecideRun(b, c, 1, lock, None, objects, ReadLedger, c1);
    ReachNext(b, s, Seen(c, 1, lock, None, objects, WriteClaim(c1), ReadLedger), 1);
    ClaimRun(b, c, 1, lock, None, objects, ReadLedger, c1);
    ReachNext(b, s, Seen(c, 2, lock, f, objects, ReadLedger, PutReceipt(c1)), 2);
    DecideRun(b, c, 2, lock, f, objects, PutReceipt(c1), c2);
  }

  function Final(b: Bytes, c: Scene, claim: EffectRecord): Option<LedgerFile> {
    var file := Claimed(c.q, Done(b, c, claim));
    Some(file.(adopted := Some(ReceiptRef(b, c.q, claim.generation))))
  }

  /** From its receipt on, an attempt goes through to the end. */
  lemma Finishes(b: Bytes, s: System, c: Scene, id: nat, lock: Option<LockFile>, f: Option<LedgerFile>, objects: Objects,
                 other: Control, claim: EffectRecord)
    requires (id == 1 || id == 2) && Completion(b, c.q, Owner(c, id), claim) == Ok(Done(b, c, claim))
    requires Reaches(b, s, Seen(c, id, lock, f, objects, PutReceipt(claim), other))
    ensures Reaches(b, s, Seen(c, id, None, Final(b, c, claim), Put(b, objects, Receipt(c.q, claim.generation)),
                               Returned(ReceiptRef(b, c.q, claim.generation)), other))
  {
    hide Reaches, RunStep, Completion, Seen, Done, Put, Receipt, ReceiptRef;
    var r, done := ReceiptRef(b, c.q, claim.generation), Done(b, c, claim);
    var objs := Put(b, objects, Receipt(c.q, claim.generation));
    ReachNext(b, s, Seen(c, id, lock, f, objects, PutReceipt(claim), other), id);
    ReceiptRun(b, c, id, lock, f, objects, other, claim, done);
    ReachNext(b, s, Seen(c, id, lock, f, objs, WriteFinal(done, r), other), id);
    FinalRun(b, c, id, lock, f, objs, other, done, r);
    ReachNext(b, s, Seen(c, id, lock, Final(b, c, claim), objs, Release(Some(r)), other), id);
    ReleaseRun(b, c, id, lock, Final(b, c, claim), objs, other, r);
  }

  /** The first holder finishes and its reference is persisted ... */
  lemma FirstFinishes(b: Bytes, s: System, c: Scene, objects: Objects, lock: Option<LockFile>)
    requires Proper(b, c)
    requires Reaches(b, s, Two(c, lock, Some(Claimed(c.q, FirstClaim(c))), objects, PutReceipt(FirstClaim(c)), WriteClaim(SecondClaim(c))))
    ensures Reaches(b, s, Two(c, None, Final(b, c, FirstClaim(c)), Put(b, objects, Receipt(c.q, 1)),
                              Returned(ReceiptRef(b, c.q, 1)), WriteClaim(SecondClaim(c))))
  {
    Decisions(b, c);
    Generations(c);
    hide Reaches, Completion, FirstClaim, SecondClaim, Done, Put, Receipt, ReceiptRef, Two, Proper;
    Finishes(b, s, c, 1, lock, Some(Claimed(c.q, FirstClaim(c))), objects, WriteClaim(SecondClaim(c)), FirstClaim(c));
  }

  /** ... and the second one replaces it. */
  lemma SecondReplaces(b: Bytes, s: System, c: Scene, objs: Objects)
    requires Proper(b, c)
    requires Reaches(b, s, Two(c, None, Final(b, c, FirstClaim(c)), objs, Returned(ReceiptRef(b, c.q, 1)), WriteClaim(SecondClaim(c))))
    ensures Reaches(b, s, Two(c, None, Final(b, c, SecondClaim(c)), Put(b, objs, Receipt(c.q, 2)),
                              Returned(ReceiptRef(b, c.q, 1)), Returned(ReceiptRef(b, c.q, 2))))
  {
    Decisions(b, c);
    Generations(c);
    hide Reaches, RunStep, Completion, FirstClaim, SecondClaim, Done, Put, Receipt, ReceiptRef, Two, Proper, Final;
    var c2, p1 := SecondClaim(c), Returned(ReceiptRef(b, c.q, 1));
    ReachNext(b, s, Seen(c, 2, None, Final(b, c, FirstClaim(c)), objs, WriteClaim(c2), p1), 2);
    ClaimRun(b, c, 2, None, Final(b, c, FirstClaim(c)), objs, p1, c2);
    Finishes(b, s, c, 2, None, Some(Claimed(c.q, c2)), objs, p1, c2);
  }

  /** From a state in which exclusion and every ledger invariant hold, with the clock standing
      still and no crash, two attempts hold the lock at once, a persisted adoption reference is
      replaced by another one, and the two attempts return different references. */
  lemma LockGapBreaksAdoption(b: Bytes, c: Scene, objects: Objects)
    requires Proper(b, c) && c.now > 30_000
    ensures var s := Two(c, Some(LockFile(0, 0)), None, objects, OpenLock(c.now), OpenLock(c.now));
            Exclusive(s) && Good(b, s) && StaleSeen(s) &&
            (exists both :: Reaches(b, s, both) && Holds(both, 1) && Holds(both, 2)) &&
            exists mid, end ::
              Reaches(b, s, mid) && AdoptionOf(mid.ledger) == Some(ReceiptRef(b, c.q, 1)) &&
              Reaches(b, mid, end) && AdoptionOf(end.ledger) == Some(ReceiptRef(b, c.q, 2)) &&
              1 in end.attempts && end.attempts[1].pc == Returned(ReceiptRef(b, c.q, 1)) &&
              2 in end.attempts && end.attempts[2].pc == Returned(ReceiptRef(b, c.q, 2))
  {
    hide ReadRef, Adoptable, Decide, Completion, Put, Receipt, ReceiptRef, Proper, FirstClaim, SecondClaim, Done, RunStep, Adoption.Exec, Reaches;
    var s := Two(c, Some(LockFile(0, 0)), None, objects, OpenLock(c.now), OpenLock(c.now));
    ReachNow(b, s);
    BothAcquire(b, s, c, objects);
    var lock := Some(LockFile(2, c.now));
    var both := Two(c, lock, None, objects, ReadLedger, ReadLedger);
    assert Reaches(b, s, both) && Holds(both, 1) && Holds(both, 2);
    BothClaim(b, s, c, objects, lock);
    FirstFinishes(b, s, c, objects, lock);
    var objs := Put(b, objects, Receipt(c.q, 1));
    var mid := Two(c, None, Final(b, c, FirstClaim(c)), objs, Returned(ReceiptRef(b, c.q, 1)), WriteClaim(SecondClaim(c)));
    assert FirstClaim(c).generation == 1 && SecondClaim(c).generation == 2 by { Generations(c); }
    assert AdoptionOf(mid.ledger) == Some(ReceiptRef(b, c.q, 1));
    ReachNow(b, mid);
    SecondReplaces(b, mid, c, objs);
    var end := Two(c, None, Final(b, c, SecondClaim(c)), Put(b, objs, Receipt(c.q, 2)),
                   Returned(ReceiptRef(b, c.q, 1)), Returned(ReceiptRef(b, c.q, 2)));
    assert Reaches(b, mid, end) && AdoptionOf(end.ledger) == Some(ReceiptRef(b, c.q, 2));
  }

  lemma Generations(c: Scene)
    ensures FirstClaim(c).generation == 1 && SecondClaim(c).generation == 2
  {
  }
}
