/** The `adoptArtifact` activity as a concurrent system: any number of attempts, each able to
    crash between any two steps, share one lock file, one ledger file, a clock and a
    content-addressed object store. */
module Adoption {
  import opened Utf16
  import opened Wrappers
  import opened KeySort
  import opened Json
  import opened TaskState
  import opened Effects
  import opened Provenance
  import Temporal

  type Input = Temporal.AdoptInput

  /** SHA-256 in hexadecimal and the length, both of a document's stored bytes. */
  datatype Bytes = Bytes(hash: Json -> Text, size: Json -> nat)

  const TIMEOUT_MS: nat := 10_000
  const STALE_MS: nat := 30_000

  // ----- The object store -----

  type Objects = map<Text, Json>

  function DigestText(b: Bytes, doc: Json): Text { Lit("sha256:") + b.hash(doc) }

  function ObjectUri(b: Bytes, doc: Json): Text { Lit("file://") + b.hash(doc) }

  /** `immutableJson`: the first writer of a path wins. */
  function Put(b: Bytes, objects: Objects, doc: Json): Objects {
    if ObjectUri(b, doc) in objects then objects else objects[ObjectUri(b, doc) := doc]
  }

  /** The reference `immutableJson` returns. */
  function RefTo(b: Bytes, kind: Text, doc: Json): Json {
    Obj([Entry(Lit("media_type"), Str(Lit("application/json"))),
         Entry(Lit("digest"), Str(DigestText(b, doc))),
         Entry(Lit("size"), Num(b.size(doc))),
         Entry(Lit("uri"), Str(ObjectUri(b, doc))),
         Entry(Lit("artifact_type"), Str(kind))])
  }

  /** `readJsonRef`; `None` when it throws. */
  function ReadRef(b: Bytes, objects: Objects, ref: Json): Option<Json> {
    var uri := Get(ref, Lit("uri"));
    if uri.None? || !uri.value.Str? || !(Lit("file://") <= uri.value.s) || uri.value.s !in objects then None
    else
      var doc := objects[uri.value.s];
      if Get(ref, Lit("digest")) != Some(Str(DigestText(b, doc))) || Get(ref, Lit("size")) != Some(Num(b.size(doc)))
      then None else Some(doc)
  }

  /** The evidence adoption rests on: a stored PASS report and a stored provenance record, both
      about the candidate. The references are to the object store; a `file://` reference to some
      other file, which the code would read as well, is not part of this model. */
  predicate Backed(b: Bytes, objects: Objects, q: Input) {
    var report, provenance := ReadRef(b, objects, q.report), ReadRef(b, objects, q.provenance);
    report.Some? && provenance.Some? && Adoptable(q.candidate, report.value, provenance.value)
  }

  /** The same evidence field by field: the two references read documents of the store, of which
      the report passes the candidate's digest and the provenance names it. */
  predicate Evidenced(b: Bytes, objects: Objects, q: Input) {
    var report, provenance := ReadRef(b, objects, q.report), ReadRef(b, objects, q.provenance);
    report.Some? && provenance.Some? && PassesFor(q.candidate, report.value, provenance.value)
  }

  lemma BackedIsEvidenced(b: Bytes, objects: Objects, q: Input)
    requires Backed(b, objects, q)
    ensures Evidenced(b, objects, q)
  {
    hide ReadRef, PassesFor, Adoptable;
    AdoptableExactly(q.candidate, ReadRef(b, objects, q.report).value, ReadRef(b, objects, q.provenance).value);
  }

  // ----- The ledger file -----

  datatype LedgerFile =
    | V1(legacyRef: Option<Json>, candidateDigest: Option<Json>)
    | V2(effect: EffectRecord, candidate: Json, report: Json, provenance: Json, adopted: Option<Json>)

  function AdoptionOf(f: Option<LedgerFile>): Option<Json> {
    match f
    case None => None
    case Some(V1(ref, _)) => ref
    case Some(V2(_, _, _, _, ref)) => ref
  }

  function EffectOf(f: Option<LedgerFile>): Option<EffectRecord> {
    if f.Some? && f.value.V2? then Some(f.value.effect) else None
  }

  /** A file that the activity can have left: an adoption reference stands exactly beside a
      success, and the success records its digest. */
  predicate GoodFile(f: Option<LedgerFile>) {
    match f
    case Some(V2(e, _, _, _, ref)) =>
      (ref.Some? <==> e.status == SUCCEEDED) &&
      (ref.Some? ==> e.result.Some? && Get(ref.value, Lit("digest")) == Some(Str(e.result.value)))
    case _ => true
  }

  function SubjectOf(q: Input): Text {
    match DigestOf(q.candidate) case Some(d) => d case None => []
  }

  function Receipt(q: Input, generation: int): Json {
    Obj([Entry(Lit("schema"), Str(Lit("akashic.adoption-receipt/v1"))),
         Entry(Lit("effect_key"), Str(q.effectKey)),
         Entry(Lit("task_id"), Str(q.taskId)),
         Entry(Lit("logical_attempt_id"), Str(q.attemptId)),
         Entry(Lit("candidate_artifact_ref"), q.candidate),
         Entry(Lit("verification_report_ref"), q.report),
         Entry(Lit("provenance_ref"), q.provenance),
         Entry(Lit("fence_generation"), Num(generation))])
  }

  function ReceiptRef(b: Bytes, q: Input, generation: int): Json {
    RefTo(b, Lit("akashic.adoption-receipt/v1"), Receipt(q, generation))
  }

  /** What an attempt that holds the lock decides from the ledger it reads. */
  datatype Decision = Conflict | Replay(ref: Json) | Proceed(claim: EffectRecord)

  function Decide(f: Option<LedgerFile>, q: Input, owner: Text): Decision {
    if f.Some? && f.value.V1? && f.value.legacyRef.Some? then
      if f.value.candidateDigest != Some(Str(SubjectOf(q))) then Conflict else Replay(f.value.legacyRef.value)
    else
      match ClaimEffect(EffectOf(f), ClaimRequest(q.effectKey, SubjectOf(q), owner, EffectOf(f).Some?))
      case Err(_) => Conflict
      case Ok(claim) =>
        if claim.status == SUCCEEDED && AdoptionOf(f).Some? then Replay(AdoptionOf(f).value) else Proceed(claim)
  }

  function Claimed(q: Input, claim: EffectRecord): (f: LedgerFile)
    ensures f.V2?
  {
    V2(claim, q.candidate, q.report, q.provenance, None)
  }

  function Completion(b: Bytes, q: Input, owner: Text, claim: EffectRecord): Result<EffectRecord, EffectError> {
    CompleteEffect(claim, Token(owner, claim.generation), DigestText(b, Receipt(q, claim.generation)))
  }

  // ----- The concurrent system -----

  datatype LockFile = LockFile(holder: nat, mtime: nat)

  datatype Control =
    | ReadReport
    | ReadProvenance(report: Json)
    | OpenLock(started: nat)
    | StatLock(started: nat)
    | RemoveLock(started: nat, seen: LockFile)
    | CheckTime(started: nat)
    | ReadLedger
    | WriteClaim(claim: EffectRecord)
    | PutReceipt(claim: EffectRecord)
    | WriteFinal(done: EffectRecord, ref: Json)
    | Release(outcome: Option<Json>)
    | Returned(ref: Json)
    | Threw
    | Crashed

  /** `since` is when the attempt acquired the lock. */
  datatype Attempt = Attempt(input: Input, owner: Text, pc: Control, since: nat)

  datatype System = System(
    now: nat, lock: Option<LockFile>, ledger: Option<LedgerFile>, objects: Objects, attempts: map<nat, Attempt>)

  datatype Event =
    | Start(id: nat, input: Input, owner: Text)
    | Run(id: nat)
    | Crash(id: nat)
    | Tick(ms: nat)
    | Store(doc: Json)

  /** Between acquiring the lock and releasing it. */
  predicate Holding(pc: Control) {
    pc.ReadLedger? || pc.WriteClaim? || pc.PutReceipt? || pc.WriteFinal? || pc.Release?
  }

  predicate Finished(pc: Control) { pc.Returned? || pc.Threw? || pc.Crashed? }

  function At(s: System, id: nat, pc: Control): System
    requires id in s.attempts
  {
    s.(attempts := s.attempts[id := s.attempts[id].(pc := pc)])
  }

  /** One step of attempt `id`. */
  function RunStep(b: Bytes, s: System, id: nat): (s': System)
    requires id in s.attempts
    ensures id in s'.attempts
  {
    var a := s.attempts[id];
    var q := a.input;
    match a.pc
    case ReadReport =>
      (match ReadRef(b, s.objects, q.report)
       case Some(doc) => At(s, id, ReadProvenance(doc))
       case None => At(s, id, Threw))
    case ReadProvenance(report) =>
      (match ReadRef(b, s.objects, q.provenance)
       case Some(doc) => At(s, id, if Adoptable(q.candidate, report, doc) then OpenLock(s.now) else Threw)
       case None => At(s, id, Threw))
    case OpenLock(started) =>
      if s.lock.Some? then At(s, id, StatLock(started))
      else s.(lock := Some(LockFile(id, s.now)),
              attempts := s.attempts[id := a.(pc := ReadLedger, since := s.now)])
    case StatLock(started) =>
      if s.lock.Some? && s.now - s.lock.value.mtime > STALE_MS then At(s, id, RemoveLock(started, s.lock.value))
      else At(s, id, CheckTime(started))
    case RemoveLock(started, _) => At(s, id, CheckTime(started)).(lock := None)
    case CheckTime(started) => At(s, id, if s.now - started >= TIMEOUT_MS then Threw else OpenLock(started))
    case ReadLedger =>
      (match Decide(s.ledger, q, a.owner)
       case Conflict => At(s, id, Release(None))
       case Replay(ref) => At(s, id, Release(Some(ref)))
       case Proceed(claim) => At(s, id, WriteClaim(claim)))
    case WriteClaim(claim) => At(s, id, PutReceipt(claim)).(ledger := Some(Claimed(q, claim)))
    case PutReceipt(claim) =>
      var s' := s.(objects := Put(b, s.objects, Receipt(q, claim.generation)));
      (match Completion(b, q, a.owner, claim)
       case Ok(done) => At(s', id, WriteFinal(done, ReceiptRef(b, q, claim.generation)))
       case Err(_) => At(s', id, Release(None)))
    case WriteFinal(done, ref) =>
      At(s, id, Release(Some(ref))).(ledger := Some(Claimed(q, done).(adopted := Some(ref))))
    case Release(outcome) =>
      At(s, id, if outcome.Some? then Returned(outcome.value) else Threw).(lock := None)
    case _ => s
  }

  function Step(b: Bytes, s: System, e: Event): System {
    match e
    case Start(id, input, owner) =>
      if id in s.attempts then s else s.(attempts := s.attempts[id := Attempt(input, owner, ReadReport, 0)])
    case Run(id) => if id in s.attempts then RunStep(b, s, id) else s
    case Crash(id) => if id in s.attempts && !Finished(s.attempts[id].pc) then At(s, id, Crashed) else s
    case Tick(ms) => s.(now := s.now + ms)
    case Store(doc) => s.(objects := Put(b, s.objects, doc))
  }

  function Exec(b: Bytes, s: System, events: seq<Event>): System
    decreases events
  {
    if events == [] then s else Exec(b, Step(b, s, events[0]), events[1..])
  }

  // ----- Lock exclusion -----

  predicate Holds(s: System, id: nat) { id in s.attempts && Holding(s.attempts[id].pc) }

  /** Every holder's lock file is the one in place, and no holder is older than `staleMs`. */
  ghost predicate Exclusive(s: System) {
    forall id :: Holds(s, id) ==>
      s.lock == Some(LockFile(id, s.attempts[id].since)) && s.attempts[id].since <= s.now &&
      s.now - s.attempts[id].since <= 30_000
  }

  /** The clock does not run on while a holder would outlive `staleMs`, and the removal of a
      stale lock file does not hit the file of a holder. */
  ghost predicate Careful(s: System, e: Event) {
    match e
    case Tick(ms) => forall id :: Holds(s, id) ==> s.now + ms - s.attempts[id].since <= 30_000
    case Run(id) =>
      id in s.attempts && s.attempts[id].pc.RemoveLock? && s.lock.Some? ==> !Holds(s, s.lock.value.holder)
    case _ => true
  }

  lemma ExclusionMeans(s: System, i: nat, j: nat)
    requires Exclusive(s) && Holds(s, i) && Holds(s, j)
    ensures i == j
  {
  }

  lemma OthersUntouched(b: Bytes, s: System, id: nat)
    requires id in s.attempts
    ensures var s' := RunStep(b, s, id);
            s'.attempts.Keys == s.attempts.Keys && forall i :: i in s.attempts && i != id ==> s'.attempts[i] == s.attempts[i]
  {
    hide ReadRef, Adoptable, Decide, Completion, Put, Receipt, ReceiptRef;
  }

  /** What a step does to the lock file and to the attempt's hold on it. */
  lemma LockAfter(b: Bytes, s: System, id: nat)
    requires id in s.attempts
    ensures var a := s.attempts[id];
            var s' := RunStep(b, s, id);
            s'.now == s.now &&
            if a.pc.OpenLock? && s.lock.None? then
              s'.lock == Some(LockFile(id, s.now)) && Holds(s', id) && s'.attempts[id].since == s.now
            else if a.pc.RemoveLock? || a.pc.Release? then s'.lock == None && !Holds(s', id)
            else s'.lock == s.lock && (Holds(s', id) <==> Holds(s, id)) && s'.attempts[id].since == a.since
  {
    hide ReadRef, Adoptable, Decide, Completion, Put, Receipt, ReceiptRef;
  }

  lemma ExclusionRun(b: Bytes, s: System, id: nat)
    requires Exclusive(s) && id in s.attempts
    ensures Exclusive(RunStep(b, s, id)) <==> Careful(s, Run(id))
  {
    LockAfter(b, s, id);
    OthersUntouched(b, s, id);
    hide RunStep;
    var s' := RunStep(b, s, id);
    forall i | i != id ensures Holds(s', i) == Holds(s, i) {}
    if !Careful(s, Run(id)) { assert Holds(s', s.lock.value.holder); }
  }

  /** One step keeps exclusion exactly when it is careful. */
  lemma ExclusionStep(b: Bytes, s: System, e: Event)
    requires Exclusive(s)
    ensures Exclusive(Step(b, s, e)) <==> Careful(s, e)
  {
    hide RunStep, Put;
    var s' := Step(b, s, e);
    match e
    case Run(id) => if id in s.attempts { ExclusionRun(b, s, id); }
    case Tick(ms) => forall i ensures Holds(s', i) == Holds(s, i) {}
    case _ => forall i | Holds(s', i) ensures Holds(s, i) {}
  }

  /** A contender that goes on to remove the lock file saw it stale. */
  ghost predicate StaleSeen(s: System) {
    forall id :: id in s.attempts && s.attempts[id].pc.RemoveLock? ==>
      s.now - s.attempts[id].pc.seen.mtime > 30_000
  }

  lemma StaleSeenStep(b: Bytes, s: System, e: Event)
    requires StaleSeen(s)
    ensures StaleSeen(Step(b, s, e))
  {
    hide ReadRef, Adoptable, Decide, Completion, Put, Receipt, ReceiptRef;
    var s' := Step(b, s, e);
    forall i | i in s'.attempts && s'.attempts[i].pc.RemoveLock?
      ensures s'.now - s'.attempts[i].pc.seen.mtime > 30_000
    {
      assert i in s.attempts;
    }
  }

  /** The removal takes away the file that was looked at, or finds none. */
  predicate RemovesWhatItSaw(s: System, e: Event) {
    e.Run? && e.id in s.attempts && s.attempts[e.id].pc.RemoveLock? && s.lock.Some? ==>
      s.lock.value == s.attempts[e.id].pc.seen
  }

  /** If looking and removing were one step, no removal could hit a holder: a stale file's
      holder is not one that keeps within `staleMs`. */
  lemma SameFileIsCareful(s: System, e: Event)
    requires Exclusive(s) && StaleSeen(s) && e.Run? && RemovesWhatItSaw(s, e)
    ensures Careful(s, e)
  {
  }

  // ----- Exactly-once adoption -----

  /** What an attempt's control point says about the ledger. */
  predicate AttemptGood(b: Bytes, f: Option<LedgerFile>, a: Attempt) {
    match a.pc
    case WriteClaim(claim) => AdoptionOf(f) == None && claim.status != SUCCEEDED
    case PutReceipt(claim) => f == Some(Claimed(a.input, claim)) && claim.status != SUCCEEDED
    case WriteFinal(done, ref) =>
      AdoptionOf(f) == None && done.status == SUCCEEDED && done.result.Some? &&
      Get(ref, Lit("digest")) == Some(Str(done.result.value))
    case Release(outcome) => outcome.Some? ==> AdoptionOf(f) == outcome
    case Returned(ref) => AdoptionOf(f) == Some(ref)
    case _ => true
  }

  ghost predicate Good(b: Bytes, s: System) {
    GoodFile(s.ledger) && forall id :: id in s.attempts ==> AttemptGood(b, s.ledger, s.attempts[id])
  }

  lemma RefDigest(b: Bytes, kind: Text, doc: Json)
    ensures Get(RefTo(b, kind, doc), Lit("digest")) == Some(Str(DigestText(b, doc)))
  {
    hide Lit, Lookup;
    var ms := RefTo(b, kind, doc).members;
    assert |ms[0].key| == 10 && |ms[1].key| == 6;
    LookupAt(ms, 1);
  }

  /** What the lock holder decides fits the ledger it read. */
  lemma DecisionGood(f: Option<LedgerFile>, q: Input, owner: Text)
    requires GoodFile(f)
    ensures var d := Decide(f, q, owner);
            (d.Replay? ==> AdoptionOf(f) == Some(d.ref)) &&
            (d.Proceed? ==> AdoptionOf(f) == None && d.claim.status != SUCCEEDED)
  {
    hide SubjectOf, IsDigest, Get, Lit;
  }

  lemma CompletionGood(b: Bytes, q: Input, owner: Text, claim: EffectRecord)
    requires claim.status != SUCCEEDED && Completion(b, q, owner, claim).Ok?
    ensures var done := Completion(b, q, owner, claim).value;
            done.status == SUCCEEDED && done.result.Some? &&
            Get(ReceiptRef(b, q, claim.generation), Lit("digest")) == Some(Str(done.result.value))
  {
    RefDigest(b, Lit("akashic.adoption-receipt/v1"), Receipt(q, claim.generation));
    hide RefTo, Receipt, IsDigest, Get, Lit, DigestText;
  }

  /** What the step of a lock holder keeps: its own claims, a good file, and any adoption. */
  predicate KeepsLedger(b: Bytes, s: System, s': System, id: nat) {
    GoodFile(s'.ledger) && id in s'.attempts && AttemptGood(b, s'.ledger, s'.attempts[id]) &&
    (AdoptionOf(s.ledger).Some? ==> AdoptionOf(s'.ledger) == AdoptionOf(s.ledger)) &&
    (s'.ledger != s.ledger ==> AdoptionOf(s.ledger) == None)
  }

  lemma DecideStep(b: Bytes, s: System, id: nat)
    requires Good(b, s) && id in s.attempts && s.attempts[id].pc.ReadLedger?
    ensures KeepsLedger(b, s, RunStep(b, s, id), id)
  {
    DecisionGood(s.ledger, s.attempts[id].input, s.attempts[id].owner);
    hide Decide, GoodFile, Get, Lit;
  }

  lemma ReceiptStep(b: Bytes, s: System, id: nat)
    requires Good(b, s) && id in s.attempts && s.attempts[id].pc.PutReceipt?
    ensures KeepsLedger(b, s, RunStep(b, s, id), id)
  {
    hide Completion, Put, Receipt, ReceiptRef, GoodFile, Get, Lit, DigestText, SubjectOf;
    var a := s.attempts[id];
    assert AttemptGood(b, s.ledger, a);
    if Completion(b, a.input, a.owner, a.pc.claim).Ok? { CompletionGood(b, a.input, a.owner, a.pc.claim); }
  }

  lemma WriteStep(b: Bytes, s: System, id: nat)
    requires Good(b, s) && Holds(s, id) && !s.attempts[id].pc.ReadLedger? && !s.attempts[id].pc.PutReceipt?
    ensures KeepsLedger(b, s, RunStep(b, s, id), id)
  {
    hide Get, Lit;
    assert AttemptGood(b, s.ledger, s.attempts[id]);
  }

  lemma HolderStep(b: Bytes, s: System, id: nat)
    requires Good(b, s) && Holds(s, id)
    ensures KeepsLedger(b, s, RunStep(b, s, id), id)
  {
    hide RunStep, Good, KeepsLedger;
    if s.attempts[id].pc.ReadLedger? { DecideStep(b, s, id); }
    else if s.attempts[id].pc.PutReceipt? { ReceiptStep(b, s, id); }
    else { WriteStep(b, s, id); }
  }

  /** With exclusion, each step keeps the ledger good and an adoption reference once there. */
  lemma AdoptionStep(b: Bytes, s: System, e: Event)
    requires Exclusive(s) && Good(b, s)
    ensures Good(b, Step(b, s, e))
    ensures AdoptionOf(s.ledger).Some? ==> AdoptionOf(Step(b, s, e).ledger) == AdoptionOf(s.ledger)
  {
    var s' := Step(b, s, e);
    if e.Run? && Holds(s, e.id) {
      HolderStep(b, s, e.id);
      hide RunStep, GoodFile, Get, Lit;
      OthersUntouched(b, s, e.id);
      forall i | i in s'.attempts ensures AttemptGood(b, s'.ledger, s'.attempts[i]) {
        if i != e.id {
          assert AttemptGood(b, s.ledger, s.attempts[i]);
          if Holds(s, i) { ExclusionMeans(s, i, e.id); }
        }
      }
    } else {
      LedgerUntouched(b, s, e);
      hide Step, GoodFile, Get, Lit;
      forall i | i in s'.attempts ensures AttemptGood(b, s'.ledger, s'.attempts[i]) {
        if i in s.attempts { assert AttemptGood(b, s.ledger, s.attempts[i]); }
      }
    }
  }

  /** Only a lock holder writes the ledger; elsewhere an attempt keeps its claims about it. */
  lemma LedgerUntouched(b: Bytes, s: System, e: Event)
    requires !(e.Run? && Holds(s, e.id))
    ensures var s' := Step(b, s, e);
            s'.ledger == s.ledger && s.attempts.Keys <= s'.attempts.Keys &&
            forall i :: i in s'.attempts ==>
              (i in s.attempts && s'.attempts[i] == s.attempts[i]) || AttemptGood(b, s.ledger, s'.attempts[i])
  {
    hide ReadRef, Adoptable, Decide, Completion, Put, Receipt, ReceiptRef, Get;
  }

  ghost predicate CarefulRun(b: Bytes, s: System, events: seq<Event>)
    decreases events
  {
    events == [] || (Careful(s, events[0]) && CarefulRun(b, Step(b, s, events[0]), events[1..]))
  }

  /** Exactly-once adoption: over every careful run of any number of attempts, with crashes
      anywhere, attempts exclude each other, a persisted adoption reference never changes, a
      success records its digest, and all attempts that return return the same reference. */
  lemma {:induction false} ExactlyOnceAdoption(b: Bytes, s: System, events: seq<Event>)
    requires Exclusive(s) && Good(b, s) && CarefulRun(b, s, events)
    ensures var s' := Exec(b, s, events);
            Exclusive(s') && GoodFile(s'.ledger) && Good(b, s') &&
            (AdoptionOf(s.ledger).Some? ==> AdoptionOf(s'.ledger) == AdoptionOf(s.ledger)) &&
            forall i :: i in s'.attempts && s'.attempts[i].pc.Returned? ==>
              AdoptionOf(s'.ledger) == Some(s'.attempts[i].pc.ref)
    decreases events
  {
    hide Step, Careful, GoodFile;
    if events != [] {
      ExclusionStep(b, s, events[0]);
      AdoptionStep(b, s, events[0]);
      ExactlyOnceAdoption(b, Step(b, s, events[0]), events[1..]);
    } else {
      forall i | i in s.attempts && s.attempts[i].pc.Returned? ensures AdoptionOf(s.ledger) == Some(s.attempts[i].pc.ref) {
        assert AttemptGood(b, s.ledger, s.attempts[i]);
      }
    }
  }

  // ----- Careful runs -----

  /** Exclusion at every moment of a run. */
  ghost predicate AlwaysExclusive(b: Bytes, s: System, events: seq<Event>) {
    forall n :: 0 <= n <= |events| ==> Exclusive(Exec(b, s, events[..n]))
  }

  lemma PrefixAfterFirst(b: Bytes, s: System, events: seq<Event>, n: nat)
    requires 0 < n <= |events|
    ensures Exec(b, s, events[..n]) == Exec(b, Step(b, s, events[0]), events[1..][..n - 1])
  {
    hide Step;
    assert events[..n][1..] == events[1..][..n - 1];
  }

  lemma AlwaysExclusiveNext(b: Bytes, s: System, events: seq<Event>)
    requires events != []
    ensures AlwaysExclusive(b, s, events) <==>
            Exclusive(s) && AlwaysExclusive(b, Step(b, s, events[0]), events[1..])
  {
    hide Step, Exclusive;
    var s', rest := Step(b, s, events[0]), events[1..];
    assert events[..0] == [];
    if AlwaysExclusive(b, s, events) {
      assert Exclusive(Exec(b, s, events[..0]));
      forall n | 0 <= n <= |rest| ensures Exclusive(Exec(b, s', rest[..n])) {
        PrefixAfterFirst(b, s, events, n + 1);
        assert Exclusive(Exec(b, s, events[..n + 1]));
      }
    }
    if Exclusive(s) && AlwaysExclusive(b, s', rest) {
      forall n | 0 <= n <= |events| ensures Exclusive(Exec(b, s, events[..n])) {
        if n > 0 {
          PrefixAfterFirst(b, s, events, n);
          assert Exclusive(Exec(b, s', rest[..n - 1]));
        }
      }
    }
  }

  /** The exclusion invariant holds at every moment of a run exactly when the run is careful. */
  lemma {:induction false} ExclusionExactly(b: Bytes, s: System, events: seq<Event>)
    requires Exclusive(s)
    ensures AlwaysExclusive(b, s, events) <==> CarefulRun(b, s, events)
    decreases events
  {
    hide Step, Exclusive, Careful, AlwaysExclusive;
    if events == [] {
      NoEvents(b, s);
    } else {
      var s' := Step(b, s, events[0]);
      AlwaysExclusiveNext(b, s, events);
      ExclusionStep(b, s, events[0]);
      if Exclusive(s') { ExclusionExactly(b, s', events[1..]); }
      else if AlwaysExclusive(b, s', events[1..]) { StartsExclusive(b, s', events[1..]); }
    }
  }

  lemma NoEvents(b: Bytes, s: System)
    ensures AlwaysExclusive(b, s, []) <==> Exclusive(s)
  {
    hide Exclusive;
    var none: seq<Event> := [];
    assert none[..0] == none && Exec(b, s, none) == s;
    if AlwaysExclusive(b, s, none) { assert Exclusive(Exec(b, s, none[..0])); }
  }

  lemma StartsExclusive(b: Bytes, s: System, events: seq<Event>)
    requires AlwaysExclusive(b, s, events)
    ensures Exclusive(s)
  {
    hide Exclusive;
    assert events[..0] == [];
    assert Exclusive(Exec(b, s, events[..0]));
  }

  /** No holder is outlived, and each removal is one step with the look at the file. */
  ghost predicate AtomicRemoval(s: System, e: Event) {
    (e.Tick? ==> Careful(s, e)) && RemovesWhatItSaw(s, e)
  }

  ghost predicate AtomicRemovals(b: Bytes, s: System, events: seq<Event>)
    decreases events
  {
    events == [] || (AtomicRemoval(s, events[0]) && AtomicRemovals(b, Step(b, s, events[0]), events[1..]))
  }

  lemma AtomicIsCareful(s: System, e: Event)
    requires Exclusive(s) && StaleSeen(s) && AtomicRemoval(s, e)
    ensures Careful(s, e)
  {
    hide Exclusive, StaleSeen;
    if e.Run? { SameFileIsCareful(s, e); }
  }

  lemma {:induction false} AtomicRunIsCareful(b: Bytes, s: System, events: seq<Event>)
    requires Exclusive(s) && StaleSeen(s) && AtomicRemovals(b, s, events)
    ensures CarefulRun(b, s, events)
    decreases events
  {
    hide Step, Exclusive, StaleSeen, Careful, AtomicRemoval;
    if events != [] {
      AtomicIsCareful(s, events[0]);
      ExclusionStep(b, s, events[0]);
      StaleSeenStep(b, s, events[0]);
      AtomicRunIsCareful(b, Step(b, s, events[0]), events[1..]);
    }
  }

  /** With looking and removing in one step, and no holder outlived, adoption is exactly once on
      every run, without further care. */
  lemma AtomicRemovalSuffices(b: Bytes, s: System, events: seq<Event>)
    requires Exclusive(s) && Good(b, s) && StaleSeen(s) && AtomicRemovals(b, s, events)
    ensures AlwaysExclusive(b, s, events)
    ensures var s' := Exec(b, s, events);
            GoodFile(s'.ledger) &&
            (AdoptionOf(s.ledger).Some? ==> AdoptionOf(s'.ledger) == AdoptionOf(s.ledger)) &&
            forall i :: i in s'.attempts && s'.attempts[i].pc.Returned? ==>
              AdoptionOf(s'.ledger) == Some(s'.attempts[i].pc.ref)
  {
    hide Exclusive, Good, StaleSeen, GoodFile, AtomicRemovals, CarefulRun, Exec;
    AtomicRunIsCareful(b, s, events);
    ExclusionExactly(b, s, events);
    ExactlyOnceAdoption(b, s, events);
  }

  // ----- The evidence stays -----

  predicate AttemptBacked(b: Bytes, objects: Objects, a: Attempt) {
    match a.pc
    case ReadReport => true
    case ReadProvenance(report) => ReadRef(b, objects, a.input.report) == Some(report)
    case Threw => true
    case Crashed => true
    case _ => Backed(b, objects, a.input)
  }

  ghost predicate AllBacked(b: Bytes, s: System) {
    forall id :: id in s.attempts ==> AttemptBacked(b, s.objects, s.attempts[id])
  }

  /** A stored document is never replaced. */
  lemma PutKeepsReads(b: Bytes, objects: Objects, doc: Json, ref: Json)
    requires ReadRef(b, objects, ref).Some?
    ensures ReadRef(b, Put(b, objects, doc), ref) == ReadRef(b, objects, ref)
  {
    hide Lookup, Lit;
  }

  lemma PutKeepsBacked(b: Bytes, objects: Objects, doc: Json, a: Attempt)
    requires AttemptBacked(b, objects, a)
    ensures AttemptBacked(b, Put(b, objects, doc), a)
  {
    if ReadRef(b, objects, a.input.report).Some? { PutKeepsReads(b, objects, doc, a.input.report); }
    if ReadRef(b, objects, a.input.provenance).Some? { PutKeepsReads(b, objects, doc, a.input.provenance); }
    hide ReadRef, Put, Adoptable;
  }

  /** The document an attempt stores with its next step. */
  function Stores(a: Attempt): Option<Json> {
    if a.pc.PutReceipt? then Some(Receipt(a.input, a.pc.claim.generation)) else None
  }

  lemma ObjectsAfter(b: Bytes, s: System, id: nat)
    requires id in s.attempts
    ensures RunStep(b, s, id).objects ==
            match Stores(s.attempts[id]) case None => s.objects case Some(doc) => Put(b, s.objects, doc)
    ensures id in RunStep(b, s, id).attempts && RunStep(b, s, id).attempts[id].input == s.attempts[id].input
  {
    hide ReadRef, Adoptable, Decide, Completion, Put, Receipt, ReceiptRef;
  }

  /** Past the reads, the control point alone decides that the attempt stays past them. */
  lemma PastReads(b: Bytes, s: System, id: nat)
    requires id in s.attempts && !s.attempts[id].pc.ReadReport? && !s.attempts[id].pc.ReadProvenance?
    ensures !RunStep(b, s, id).attempts[id].pc.ReadReport? && !RunStep(b, s, id).attempts[id].pc.ReadProvenance?
    ensures s.attempts[id].pc.Threw? || s.attempts[id].pc.Crashed? ==> RunStep(b, s, id) == s
  {
    hide ReadRef, Adoptable, Decide, Completion, Put, Receipt, ReceiptRef;
  }

  lemma ReadsBacked(b: Bytes, s: System, id: nat)
    requires id in s.attempts && AttemptBacked(b, s.objects, s.attempts[id])
    requires s.attempts[id].pc.ReadReport? || s.attempts[id].pc.ReadProvenance?
    ensures AttemptBacked(b, s.objects, RunStep(b, s, id).attempts[id])
  {
    hide ReadRef, Adoptable;
  }

  lemma BackedOf(b: Bytes, objects: Objects, a: Attempt)
    requires AttemptBacked(b, objects, a)
    requires !a.pc.ReadReport? && !a.pc.ReadProvenance? && !a.pc.Threw? && !a.pc.Crashed?
    ensures Backed(b, objects, a.input)
  {
    hide Backed;
  }

  lemma KeepsBacked(b: Bytes, objects: Objects, stored: Option<Json>, a: Attempt)
    requires Backed(b, objects, a.input) && !a.pc.ReadReport? && !a.pc.ReadProvenance?
    ensures AttemptBacked(b, match stored case None => objects case Some(doc) => Put(b, objects, doc), a)
  {
    hide Backed, Put;
    if stored.Some? { PutKeepsBacked(b, objects, stored.value, a); }
  }

  lemma RunBacked(b: Bytes, s: System, id: nat)
    requires id in s.attempts && AttemptBacked(b, s.objects, s.attempts[id])
    ensures AttemptBacked(b, RunStep(b, s, id).objects, RunStep(b, s, id).attempts[id])
  {
    hide RunStep, Backed, ReadRef, Put, Receipt, AttemptBacked;
    var a := s.attempts[id];
    ObjectsAfter(b, s, id);
    if a.pc.ReadReport? || a.pc.ReadProvenance? {
      ReadsBacked(b, s, id);
    } else {
      PastReads(b, s, id);
      if !a.pc.Threw? && !a.pc.Crashed? {
        BackedOf(b, s.objects, a);
        KeepsBacked(b, s.objects, Stores(a), RunStep(b, s, id).attempts[id]);
      }
    }
  }

  /** Every attempt past its reads is backed by stored evidence, whatever else happens. */
  lemma BackedStep(b: Bytes, s: System, e: Event)
    requires AllBacked(b, s)
    ensures AllBacked(b, Step(b, s, e))
  {
    var s' := Step(b, s, e);
    match e
    case Run(id) =>
      if id in s.attempts {
        RunBacked(b, s, id);
        ObjectsAfter(b, s, id);
        OthersUntouched(b, s, id);
        hide RunStep, AttemptBacked, Put;
        forall i | i in s'.attempts && i != id ensures AttemptBacked(b, s'.objects, s'.attempts[i]) {
          if Stores(s.attempts[id]).Some? { PutKeepsBacked(b, s.objects, Stores(s.attempts[id]).value, s.attempts[i]); }
        }
      }
    case Store(doc) =>
      forall i | i in s'.attempts ensures AttemptBacked(b, s'.objects, s'.attempts[i]) {
        PutKeepsBacked(b, s.objects, doc, s.attempts[i]);
      }
    case _ => hide Backed, ReadRef;
  }
}
