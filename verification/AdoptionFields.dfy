/** What adoption writes down, field by field: the stored documents and their references, the
    receipt, the decision under the lock, and the evidence that a ledger file names. */
module AdoptionFields {
  import opened Utf16
  import opened Wrappers
  import opened KeySort
  import opened Json
  import opened TaskState
  import opened Effects
  import opened Provenance
  import opened Adoption
  import VA = VercelAdoption
  import V = Vercel

  predicate Field(v: Json, key: string, x: Json) { Get(v, Lit(key)) == Some(x) }

  // ----- References -----

  lemma RefWords()
    ensures |Lit("media_type")| == 10 && |Lit("digest")| == 6 && |Lit("size")| == 4 && |Lit("uri")| == 3 && |Lit("artifact_type")| == 13
  {
  }

  lemma RefToFields(b: Bytes, kind: Text, doc: Json)
    ensures var ref := RefTo(b, kind, doc);
            Field(ref, "media_type", Str(Lit("application/json"))) &&
            Field(ref, "digest", Str(Lit("sha256:") + b.hash(doc))) && Field(ref, "size", Num(b.size(doc))) &&
            Field(ref, "uri", Str(Lit("file://") + b.hash(doc))) && Field(ref, "artifact_type", Str(kind))
  {
    RefWords();
    hide Lit, Lookup;
    var ms := RefTo(b, kind, doc).members;
    LookupAt(ms, 0);
    LookupAt(ms, 1);
    LookupAt(ms, 2);
    LookupAt(ms, 3);
    LookupAt(ms, 4);
  }

  lemma FixtureRefFields(b: VA.Bytes, kind: Text, doc: Json)
    ensures var ref := VA.FixtureRef(b, kind, doc);
            Field(ref, "media_type", Str(Lit("application/json"))) &&
            Field(ref, "digest", Str(Lit("sha256:") + b.hash(Canon(doc)))) && Field(ref, "size", Num(b.size(Canon(doc)))) &&
            Field(ref, "uri", Str(Lit("fixture+vercel://sha256/") + b.hash(Canon(doc)))) && Field(ref, "artifact_type", Str(kind))
  {
    RefWords();
    hide Lit, Lookup, Canon;
    var ms := VA.FixtureRef(b, kind, doc).members;
    LookupAt(ms, 0);
    LookupAt(ms, 1);
    LookupAt(ms, 2);
    LookupAt(ms, 3);
    LookupAt(ms, 4);
  }

  /** A reference reads the document that is stored under its uri, if that is an object path and
      the digest and the size are those of the document. */
  lemma ReadRefExactly(b: Bytes, objects: Objects, ref: Json, doc: Json)
    ensures ReadRef(b, objects, ref) == Some(doc) <==>
            match Get(ref, Lit("uri"))
            case Some(Str(uri)) =>
              Lit("file://") <= uri && uri in objects && objects[uri] == doc &&
              Field(ref, "digest", Str(Lit("sha256:") + b.hash(doc))) && Field(ref, "size", Num(b.size(doc)))
            case _ => false
  {
    hide Lit, Get;
  }

  /** What was stored is read back under the reference that storing gave, unless another document
      with the same hash was there first. */
  lemma PutReads(b: Bytes, objects: Objects, kind: Text, doc: Json)
    requires ObjectUri(b, doc) in objects ==> objects[ObjectUri(b, doc)] == doc
    ensures ReadRef(b, Put(b, objects, doc), RefTo(b, kind, doc)) == Some(doc)
  {
    RefToFields(b, kind, doc);
    ReadRefExactly(b, Put(b, objects, doc), RefTo(b, kind, doc), doc);
    hide Lit, Get, RefTo, ReadRef;
  }

  // ----- The receipt -----

  /** The properties that the receipts of both backends have. */
  predicate ReceiptSays(r: Json, key: Text, taskId: Text, attemptId: Text, candidate: Json, report: Json, provenance: Json, generation: int) {
    Field(r, "schema", Str(Lit("akashic.adoption-receipt/v1"))) && Field(r, "effect_key", Str(key)) &&
    Field(r, "task_id", Str(taskId)) && Field(r, "logical_attempt_id", Str(attemptId)) &&
    Field(r, "candidate_artifact_ref", candidate) && Field(r, "verification_report_ref", report) &&
    Field(r, "provenance_ref", provenance) && Field(r, "fence_generation", Num(generation))
  }

  lemma ReceiptWords()
    ensures |Lit("schema")| == 6 && |Lit("effect_key")| == 10 && |Lit("task_id")| == 7 && |Lit("logical_attempt_id")| == 18
    ensures |Lit("candidate_artifact_ref")| == 22 && |Lit("verification_report_ref")| == 23 && |Lit("provenance_ref")| == 14
    ensures |Lit("fence_generation")| == 16 && |Lit("workflow_step_id")| == 16
    ensures Lit("fence_generation") != Lit("workflow_step_id")
  {
    assert Lit("fence_generation")[0] == 102 && Lit("workflow_step_id")[0] == 119;
  }

  /** A property is found at its place when the names before it have other lengths. */
  lemma FoundAt(ms: seq<Entry<Json>>, n: nat)
    requires n < |ms| && forall i :: 0 <= i < n ==> |ms[i].key| != |ms[n].key| || ms[i].key != ms[n].key
    ensures Get(Obj(ms), ms[n].key) == Some(ms[n].value)
  {
    LookupAt(ms, n);
  }

  /** The lengths of the names in a receipt. */
  predicate ReceiptKeys(ms: seq<Entry<Json>>) {
    |ms| >= 8 && |ms[0].key| == 6 && |ms[1].key| == 10 && |ms[2].key| == 7 && |ms[3].key| == 18 && |ms[4].key| == 22 &&
    |ms[5].key| == 23 && |ms[6].key| == 14 && |ms[7].key| == 16
  }

  lemma ReceiptPlaces(ms: seq<Entry<Json>>, n: nat)
    requires ReceiptKeys(ms) && n < 8
    ensures Get(Obj(ms), ms[n].key) == Some(ms[n].value)
  {
    hide Get;
    FoundAt(ms, n);
  }

  lemma ReceiptGets(ms: seq<Entry<Json>>)
    requires ReceiptKeys(ms)
    ensures forall n: nat :: n < 8 ==> Get(Obj(ms), ms[n].key) == Some(ms[n].value)
  {
    hide Get, ReceiptKeys;
    forall n: nat | n < 8 ensures n < |ms| && Get(Obj(ms), ms[n].key) == Some(ms[n].value) {
      assert n < |ms| by { ReceiptLong(ms); }
      ReceiptPlaces(ms, n);
    }
  }

  lemma ReceiptLong(ms: seq<Entry<Json>>)
    requires ReceiptKeys(ms)
    ensures |ms| >= 8
  {
  }

  lemma ReceiptFields(q: Input, generation: int)
    ensures ReceiptSays(Receipt(q, generation), q.effectKey, q.taskId, q.attemptId, q.candidate, q.report, q.provenance, generation)
  {
    ReceiptWords();
    hide Lit, Get;
    var ms := Receipt(q, generation).members;
    assert ReceiptKeys(ms);
    hide ReceiptKeys;
    ReceiptGets(ms);
    assert Field(Obj(ms), "schema", ms[0].value) && Field(Obj(ms), "effect_key", ms[1].value);
    assert Field(Obj(ms), "task_id", ms[2].value) && Field(Obj(ms), "logical_attempt_id", ms[3].value);
    assert Field(Obj(ms), "candidate_artifact_ref", ms[4].value) && Field(Obj(ms), "verification_report_ref", ms[5].value);
    assert Field(Obj(ms), "provenance_ref", ms[6].value) && Field(Obj(ms), "fence_generation", ms[7].value);
  }

  lemma VercelReceiptFields(q: V.AdoptInput, key: Text, generation: int, stepId: Text)
    ensures var r := VA.Receipt(q, key, generation, stepId);
            ReceiptSays(r, key, q.taskId, q.attemptId, q.candidate, q.report, q.provenance, generation) &&
            Field(r, "workflow_step_id", Str(stepId))
  {
    ReceiptWords();
    hide Lit, Get;
    var ms := VA.Receipt(q, key, generation, stepId).members;
    assert ReceiptKeys(ms);
    assert |ms| == 9 && ms[8].key == Lit("workflow_step_id") && ms[7].key == Lit("fence_generation");
    LastPlace(ms);
    hide ReceiptKeys;
    ReceiptGets(ms);
    assert Field(Obj(ms), "schema", ms[0].value) && Field(Obj(ms), "effect_key", ms[1].value);
    assert Field(Obj(ms), "task_id", ms[2].value) && Field(Obj(ms), "logical_attempt_id", ms[3].value);
    assert Field(Obj(ms), "candidate_artifact_ref", ms[4].value) && Field(Obj(ms), "verification_report_ref", ms[5].value);
    assert Field(Obj(ms), "provenance_ref", ms[6].value) && Field(Obj(ms), "fence_generation", ms[7].value);
  }

  lemma LastPlace(ms: seq<Entry<Json>>)
    requires ReceiptKeys(ms) && |ms| == 9 && |ms[8].key| == 16 && ms[8].key != ms[7].key
    ensures Get(Obj(ms), ms[8].key) == Some(ms[8].value)
  {
    hide Get;
    FoundAt(ms, 8);
  }

  // ----- The decision under the lock -----

  /** The digest of the candidate, as a text. */
  predicate Subject(q: Input, digest: Text) { DigestOf(q.candidate) == Some(digest) }

  /** What a lock holder decides, from a ledger with valid records: an adoption is repeated for
      the same candidate and, in a ledger of the second version, the same key; a ledger of
      something else is a conflict; anything else is claimed, a record on file by a takeover. */
  lemma DecideExactly(f: Option<LedgerFile>, q: Input, owner: Text, digest: Text)
    requires GoodFile(f) && Subject(q, digest)
    requires ValidRequest(ClaimRequest(q.effectKey, digest, owner, true))
    requires f.Some? && f.value.V2? ==> ValidRecord(f.value.effect)
    ensures var d := Decide(f, q, owner);
            match f
            case None => d.Proceed? && d.claim.generation == 1 && d.claim.owner == owner && d.claim.status == STARTED
            case Some(V1(Some(ref), recorded)) => d == if recorded == Some(Str(digest)) then Replay(ref) else Conflict
            case Some(V1(None, _)) => d.Proceed? && d.claim.generation == 1 && d.claim.owner == owner && d.claim.status == STARTED
            case Some(V2(e, _, _, _, adopted)) =>
              if e.effectKey != q.effectKey || e.subject != digest then d == Conflict
              else if adopted.Some? then d == Replay(adopted.value)
              else
                d.Proceed? && d.claim.owner == owner &&
                (e.owner == owner && e.status == STARTED ==> d.claim.generation == e.generation) &&
                (e.owner != owner ==> d.claim.generation == e.generation + 1 && d.claim.status == STARTED)
  {
    var record := EffectOf(f);
    ClaimExactly(record, ClaimRequest(q.effectKey, digest, owner, record.Some?));
    hide IsDigest, Get, Lit;
  }

  // ----- The ledger names stored evidence -----

  /** The documents that the file names are in the store, they pass its candidate, and an adoption
      on file is the receipt for them at the generation of the effect. */
  ghost predicate FileEvidenced(b: Bytes, objects: Objects, f: Option<LedgerFile>) {
    f.Some? && f.value.V2? ==>
      exists q: Input :: Names(f.value, q) && Evidenced(b, objects, q) &&
        (f.value.adopted.Some? ==> f.value.adopted == Some(ReceiptRef(b, q, f.value.effect.generation)))
  }

  /** The effect is the adoption of the candidate under the key of these arguments. */
  predicate EffectFor(e: EffectRecord, q: Input) { e.effectKey == q.effectKey && e.subject == SubjectOf(q) }

  /** The file is about the candidate, the two documents and the effect of these arguments. */
  predicate Names(f: LedgerFile, q: Input)
    requires f.V2?
  {
    f.candidate == q.candidate && f.report == q.report && f.provenance == q.provenance && EffectFor(f.effect, q)
  }

  /** An attempt writes claims of its own effect, and its success with its own receipt. */
  predicate OwnReceipt(b: Bytes, a: Attempt) {
    match a.pc
    case WriteClaim(claim) => EffectFor(claim, a.input)
    case PutReceipt(claim) => EffectFor(claim, a.input)
    case WriteFinal(done, ref) => EffectFor(done, a.input) && ref == ReceiptRef(b, a.input, done.generation)
    case _ => true
  }

  ghost predicate Written(b: Bytes, s: System) {
    AllBacked(b, s) && FileEvidenced(b, s.objects, s.ledger) &&
    forall id :: id in s.attempts ==> OwnReceipt(b, s.attempts[id])
  }

  lemma CompletionKeeps(b: Bytes, q: Input, owner: Text, claim: EffectRecord)
    requires Completion(b, q, owner, claim).Ok?
    ensures var done := Completion(b, q, owner, claim).value;
            done.generation == claim.generation && done.effectKey == claim.effectKey && done.subject == claim.subject
  {
    hide IsDigest, DigestText, Receipt;
  }

  lemma ClaimIsOwn(f: Option<LedgerFile>, q: Input, owner: Text)
    ensures Decide(f, q, owner).Proceed? ==> EffectFor(Decide(f, q, owner).claim, q)
  {
    ClaimExactly(EffectOf(f), ClaimRequest(q.effectKey, SubjectOf(q), owner, EffectOf(f).Some?));
    hide IsDigest, SubjectOf, ClaimEffect;
  }

  /** What one step of an attempt writes into the ledger file, and that its own records stay its own. */
  predicate WritesOwn(b: Bytes, s: System, s': System, id: nat) {
    id in s.attempts && id in s'.attempts && OwnReceipt(b, s'.attempts[id]) &&
    var a := s.attempts[id];
    s'.ledger == s.ledger ||
    (!a.pc.ReadReport? && !a.pc.ReadProvenance? && !a.pc.Threw? && !a.pc.Crashed? &&
     s'.ledger.Some? && s'.ledger.value.V2? && Names(s'.ledger.value, a.input) &&
     (s'.ledger.value.adopted.Some? ==>
        s'.ledger.value.adopted == Some(ReceiptRef(b, a.input, s'.ledger.value.effect.generation))))
  }

  lemma ReceiptWrites(b: Bytes, s: System, id: nat)
    requires id in s.attempts && OwnReceipt(b, s.attempts[id]) && s.attempts[id].pc.PutReceipt?
    ensures WritesOwn(b, s, RunStep(b, s, id), id)
  {
    var a := s.attempts[id];
    if Completion(b, a.input, a.owner, a.pc.claim).Ok? { CompletionKeeps(b, a.input, a.owner, a.pc.claim); }
    hide Completion, Put, Receipt, ReceiptRef;
  }

  lemma RunWrites(b: Bytes, s: System, id: nat)
    requires id in s.attempts && OwnReceipt(b, s.attempts[id])
    ensures WritesOwn(b, s, RunStep(b, s, id), id)
  {
    var a := s.attempts[id];
    if a.pc.PutReceipt? {
      hide WritesOwn, RunStep, OwnReceipt;
      ReceiptWrites(b, s, id);
    } else {
      ClaimIsOwn(s.ledger, a.input, a.owner);
      hide ReadRef, Adoptable, Decide, Completion, Put, Receipt, ReceiptRef, EffectFor;
    }
  }

  lemma PutKeepsEvidence(b: Bytes, objects: Objects, doc: Json, f: Option<LedgerFile>)
    requires FileEvidenced(b, objects, f)
    ensures FileEvidenced(b, Put(b, objects, doc), f)
  {
    hide PassesFor, ReceiptRef;
    if f.Some? && f.value.V2? {
      var q: Input :| Names(f.value, q) && Evidenced(b, objects, q) &&
        (f.value.adopted.Some? ==> f.value.adopted == Some(ReceiptRef(b, q, f.value.effect.generation)));
      PutKeepsReads(b, objects, doc, q.report);
      PutKeepsReads(b, objects, doc, q.provenance);
      hide ReadRef, Put;
      assert Evidenced(b, Put(b, objects, doc), q);
    }
  }

  lemma RunKeepsWritten(b: Bytes, s: System, id: nat)
    requires Written(b, s) && id in s.attempts
    ensures FileEvidenced(b, RunStep(b, s, id).objects, RunStep(b, s, id).ledger)
    ensures OwnReceipt(b, RunStep(b, s, id).attempts[id])
  {
    hide RunStep, AttemptBacked, Backed, Evidenced, Put, ReceiptRef;
    var a, s' := s.attempts[id], RunStep(b, s, id);
    RunWrites(b, s, id);
    ObjectsAfter(b, s, id);
    if s'.ledger == s.ledger {
      if Stores(a).Some? { PutKeepsEvidence(b, s.objects, Stores(a).value, s.ledger); }
    } else {
      assert AttemptBacked(b, s.objects, a);
      BackedOf(b, s.objects, a);
      BackedIsEvidenced(b, s.objects, a.input);
      assert FileEvidenced(b, s.objects, s'.ledger);
      if Stores(a).Some? { PutKeepsEvidence(b, s.objects, Stores(a).value, s'.ledger); }
    }
  }

  lemma WrittenStep(b: Bytes, s: System, e: Event)
    requires Written(b, s)
    ensures Written(b, Adoption.Step(b, s, e))
  {
    hide RunStep, AttemptBacked, FileEvidenced, Put, ReceiptRef;
    BackedStep(b, s, e);
    var s' := Adoption.Step(b, s, e);
    match e
    case Run(id) =>
      if id in s.attempts {
        RunKeepsWritten(b, s, id);
        OthersUntouched(b, s, id);
      }
    case Store(doc) => PutKeepsEvidence(b, s.objects, doc, s.ledger);
    case _ =>
  }

  /** On every run, careful or not: a ledger file names a stored PASS report and a stored
      provenance record about its candidate, and the adoption on file is the receipt for them. */
  lemma {:induction false} LedgerNamesEvidence(b: Bytes, s: System, events: seq<Event>)
    requires Written(b, s)
    ensures Written(b, Adoption.Exec(b, s, events))
    decreases events
  {
    hide Adoption.Step, Written;
    if events != [] {
      WrittenStep(b, s, events[0]);
      LedgerNamesEvidence(b, Adoption.Step(b, s, events[0]), events[1..]);
    }
  }
}
