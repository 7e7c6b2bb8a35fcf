/** The runtime directory of the Temporal worker as the activity works on it: the clock, the lock
    file, the ledger file and the object store, changed one after the other. */
module RuntimeRoot {
  import opened Utf16
  import opened Wrappers
  import opened Json
  import opened Effects
  import opened Provenance
  import opened Adoption

  const POLL_MS: nat := 25

  /** What one uninterrupted critical section leaves behind. */
  datatype Section = Section(ledger: Option<LedgerFile>, objects: Objects, outcome: Option<Json>)

  function CriticalSection(b: Bytes, ledger: Option<LedgerFile>, objects: Objects, q: Input, owner: Text): Section {
    match Decide(ledger, q, owner)
    case Conflict => Section(ledger, objects, None)
    case Replay(ref) => Section(ledger, objects, Some(ref))
    case Proceed(claim) =>
      var objects' := Put(b, objects, Receipt(q, claim.generation));
      match Completion(b, q, owner, claim)
      case Err(_) => Section(Some(Claimed(q, claim)), objects', None)
      case Ok(done) =>
        var file := Claimed(q, done);
        var ref := ReceiptRef(b, q, claim.generation);
        Section(Some(file.(adopted := Some(ref))), objects', Some(ref))
  }

  function RunTimes(b: Bytes, s: System, id: nat, n: nat): System
    requires id in s.attempts
    decreases n
  {
    if n == 0 then s else RunTimes(b, RunStep(b, s, id), id, n - 1)
  }

  /** The critical section is what the step machine does when nothing interrupts it. */
  lemma SectionIsSteps(b: Bytes, s: System, id: nat)
    requires id in s.attempts && s.attempts[id].pc.ReadLedger?
    ensures var a := s.attempts[id];
            var c := CriticalSection(b, s.ledger, s.objects, a.input, a.owner);
            exists n: nat :: n <= 4 &&
              RunTimes(b, s, id, n) == At(s, id, Release(c.outcome)).(ledger := c.ledger, objects := c.objects)
  {
    hide ReadRef, Adoptable, Decide, Completion, Put, Receipt, ReceiptRef, Claimed;
    var a := s.attempts[id];
    var c := CriticalSection(b, s.ledger, s.objects, a.input, a.owner);
    var end := At(s, id, Release(c.outcome)).(ledger := c.ledger, objects := c.objects);
    var s1 := RunStep(b, s, id);
    match Decide(s.ledger, a.input, a.owner)
    case Proceed(claim) =>
      var s2 := RunStep(b, s1, id);
      var s3 := RunStep(b, s2, id);
      match Completion(b, a.input, a.owner, claim) {
        case Ok(done) =>
          var s4 := RunStep(b, s3, id);
          assert s4 == end;
          assert RunTimes(b, s3, id, 1) == RunTimes(b, s4, id, 0);
          assert RunTimes(b, s2, id, 2) == RunTimes(b, s3, id, 1);
          assert RunTimes(b, s, id, 4) == RunTimes(b, s1, id, 3) == RunTimes(b, s2, id, 2);
        case Err(_) =>
          assert s3 == end;
          assert RunTimes(b, s2, id, 1) == RunTimes(b, s3, id, 0);
          assert RunTimes(b, s, id, 3) == RunTimes(b, s1, id, 2) == RunTimes(b, s2, id, 1);
      }
    case _ =>
      assert s1 == end;
      assert RunTimes(b, s, id, 1) == RunTimes(b, s1, id, 0);
  }

  /** Before the lock: an attempt goes on to wait for the lock exactly when it is backed by what is in
      the store, and throws otherwise. */
  lemma ReadsDecide(b: Bytes, s: System, id: nat)
    requires id in s.attempts && s.attempts[id].pc.ReadReport?
    ensures RunTimes(b, s, id, 2) == At(s, id, if Backed(b, s.objects, s.attempts[id].input) then OpenLock(s.now) else Threw)
  {
    hide ReadRef, Adoptable;
    var s1 := RunStep(b, s, id);
    assert RunTimes(b, s, id, 2) == RunTimes(b, s1, id, 1);
    assert RunTimes(b, s1, id, 1) == RunTimes(b, RunStep(b, s1, id), id, 0);
  }

  /** One round of the waiting loop that nothing interrupts and that finds a lock file: a file older
      than 30 seconds is removed, and the attempt gives up when 10 seconds have passed. */
  lemma RoundExactly(b: Bytes, s: System, id: nat)
    requires id in s.attempts && s.attempts[id].pc.OpenLock? && s.lock.Some?
    ensures var started := s.attempts[id].pc.started;
            var after := if s.now - started >= 10_000 then Threw else OpenLock(started);
            if s.now - s.lock.value.mtime > 30_000
            then RunTimes(b, s, id, 4) == At(s, id, after).(lock := None)
            else RunTimes(b, s, id, 3) == At(s, id, after)
  {
    hide ReadRef, Adoptable, Decide, Completion, Put, Receipt, ReceiptRef;
    var s1 := RunStep(b, s, id);
    var s2 := RunStep(b, s1, id);
    var s3 := RunStep(b, s2, id);
    assert RunTimes(b, s3, id, 1) == RunTimes(b, RunStep(b, s3, id), id, 0);
    assert RunTimes(b, s, id, 3) == RunTimes(b, s1, id, 2) == RunTimes(b, s2, id, 1) == RunTimes(b, s3, id, 0);
    assert RunTimes(b, s, id, 4) == RunTimes(b, s1, id, 3) == RunTimes(b, s2, id, 2) == RunTimes(b, s3, id, 1);
  }

  /** A section keeps a good file good, keeps an adoption, and returns the adoption on file. */
  lemma SectionGood(b: Bytes, ledger: Option<LedgerFile>, objects: Objects, q: Input, owner: Text)
    requires GoodFile(ledger)
    ensures var c := CriticalSection(b, ledger, objects, q, owner);
            GoodFile(c.ledger) && (c.outcome.Some? ==> AdoptionOf(c.ledger) == c.outcome) &&
            (AdoptionOf(ledger).Some? ==> AdoptionOf(c.ledger) == AdoptionOf(ledger))
  {
    DecisionGood(ledger, q, owner);
    match Decide(ledger, q, owner)
    case Proceed(claim) =>
      if Completion(b, q, owner, claim).Ok? { CompletionGood(b, q, owner, claim); }
    case _ =>
    hide Decide, Completion, Put, Receipt, ReceiptRef, Get, Lit;
  }

  /** What careful workers may make of the ledger file. */
  predicate MayBecome(f: Option<LedgerFile>, f': Option<LedgerFile>) {
    (GoodFile(f) ==> GoodFile(f')) && (AdoptionOf(f).Some? ==> AdoptionOf(f') == AdoptionOf(f))
  }

  class Root {
    const b: Bytes
    var now: nat
    var lock: Option<LockFile>
    var ledger: Option<LedgerFile>
    var objects: Objects

    constructor (b: Bytes, now: nat, lock: Option<LockFile>, ledger: Option<LedgerFile>, objects: Objects)
      ensures this.b == b && this.now == now && this.lock == lock && this.ledger == ledger && this.objects == objects
    {
      this.b := b;
      this.now := now;
      this.lock := lock;
      this.ledger := ledger;
      this.objects := objects;
    }

    /** Time passes and other workers do what they do: they may take, release or remove the
        lock, move the ledger on, and store objects. */
    method Elapse(ms: nat)
      modifies this
      ensures now >= old(now) + ms
      ensures MayBecome(old(ledger), ledger)
      ensures forall uri :: uri in old(objects) ==> uri in objects && objects[uri] == old(objects)[uri]
    {
      hide GoodFile;
      var more: nat :| 0 <= more;
      now := now + ms + more;
      lock := *;
      assert MayBecome(ledger, ledger);
      var next: Option<LedgerFile> :| MayBecome(ledger, next);
      ledger := next;
      var doc: Json := *;
      objects := Put(b, objects, doc);
    }

    /** `immutableJson`. */
    method ImmutableJson(kind: Text, doc: Json) returns (ref: Json)
      modifies this`objects
      ensures objects == Put(b, old(objects), doc)
      ensures ref == RefTo(b, kind, doc)
    {
      var path := ObjectUri(b, doc);
      if path !in objects {
        objects := objects[path := doc];
      }
      ref := RefTo(b, kind, doc);
    }

    /** The waiting loop of `withFileLock`: it ends after a bounded number of rounds, with the
        lock file created by `id`, or not before the timeout has passed. */
    method AcquireLock(id: nat) returns (acquired: bool, rounds: nat)
      modifies this
      ensures acquired ==> lock == Some(LockFile(id, now))
      ensures !acquired ==> now >= old(now) + 10_000
      ensures now >= old(now) + 25 * rounds && 25 * rounds < 10_025
      ensures MayBecome(old(ledger), ledger)
    {
      hide GoodFile, AdoptionOf;
      var started := now;
      rounds := 0;
      while true
        invariant now >= started + POLL_MS * rounds
        invariant POLL_MS * rounds < TIMEOUT_MS + POLL_MS
        invariant MayBecome(old(ledger), ledger)
        decreases TIMEOUT_MS + POLL_MS - POLL_MS * rounds
      {
        if lock.None? {
          lock := Some(LockFile(id, now));
          return true, rounds;
        }
        if now - lock.value.mtime > STALE_MS {
          Elapse(0);
          lock := None;
        }
        if now - started >= TIMEOUT_MS {
          return false, rounds;
        }
        Elapse(POLL_MS);
        rounds := rounds + 1;
      }
    }

    /** The operation under the lock, which no other holder interrupts. */
    method AdoptLocked(q: Input, owner: Text) returns (outcome: Option<Json>)
      modifies this`ledger, this`objects
      ensures Section(ledger, objects, outcome) == CriticalSection(b, old(ledger), old(objects), q, owner)
      ensures GoodFile(old(ledger)) ==>
                GoodFile(ledger) && (outcome.Some? ==> AdoptionOf(ledger) == outcome) &&
                (AdoptionOf(old(ledger)).Some? ==> AdoptionOf(ledger) == AdoptionOf(old(ledger)))
    {
      ghost var before := CriticalSection(b, ledger, objects, q, owner);
      if GoodFile(ledger) { SectionGood(b, ledger, objects, q, owner); }
      hide GoodFile, AdoptionOf, Completion, Decide, Put, Receipt, RefTo;
      var decision := Decide(ledger, q, owner);
      match decision {
        case Conflict => outcome := None;
        case Replay(ref) => outcome := Some(ref);
        case Proceed(claim) =>
          ledger := Some(Claimed(q, claim));
          var ref := ImmutableJson(Lit("akashic.adoption-receipt/v1"), Receipt(q, claim.generation));
          var completed := Completion(b, q, owner, claim);
          if completed.Err? {
            outcome := None;
          } else {
            var file := Claimed(q, completed.value);
            ledger := Some(file.(adopted := Some(ref)));
            outcome := Some(ref);
          }
      }
    }

    /** `adoptArtifact` for one attempt that runs to its end. */
    method AdoptArtifact(id: nat, q: Input, owner: Text) returns (outcome: Option<Json>)
      requires GoodFile(ledger)
      modifies this
      ensures GoodFile(ledger)
      ensures outcome.Some? ==> AdoptionOf(ledger) == outcome && old(Evidenced(b, objects, q))
      ensures AdoptionOf(old(ledger)).Some? ==> AdoptionOf(ledger) == AdoptionOf(old(ledger))
      ensures AdoptionOf(old(ledger)).Some? && outcome.Some? ==> outcome == AdoptionOf(old(ledger))
    {
      hide GoodFile, AdoptionOf, ReadRef, Adoptable, CriticalSection;
      var report := ReadRef(b, objects, q.report);
      var provenance := ReadRef(b, objects, q.provenance);
      if report.None? || provenance.None? || !Adoptable(q.candidate, report.value, provenance.value) { return None; }
      BackedIsEvidenced(b, objects, q);
      var acquired, rounds := AcquireLock(id);
      if !acquired { return None; }
      outcome := AdoptLocked(q, owner);
      lock := None;
    }
  }
}
