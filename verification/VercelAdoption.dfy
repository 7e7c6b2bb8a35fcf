/** `adoptArtifactStep` of the Vercel workflow, and what a COMPLETED run there rests on. */
module VercelAdoption {
  import opened Utf16
  import opened Wrappers
  import opened KeySort
  import opened Json
  import opened TaskState
  import opened Environment
  import opened Protocol
  import opened Effects
  import opened Provenance
  import EffectKey
  import V = Vercel

  function Member(v: Json, key: Text): Json {
    match Get(v, key) case Some(x) => x case None => Null
  }

  /** SHA-256 in hexadecimal of a text, and the length of its bytes. */
  datatype Bytes = Bytes(hash: Text -> Text, size: Text -> nat)

  function DigestText(b: Bytes, doc: Json): Text { Lit("sha256:") + b.hash(Canon(doc)) }

  /** `fixtureArtifactRef`: the digest of the canonical text. */
  function FixtureRef(b: Bytes, kind: Text, doc: Json): Json {
    Obj([Entry(Lit("media_type"), Str(Lit("application/json"))),
         Entry(Lit("digest"), Str(DigestText(b, doc))),
         Entry(Lit("size"), Num(b.size(Canon(doc)))),
         Entry(Lit("uri"), Str(Lit("fixture+vercel://sha256/") + b.hash(Canon(doc)))),
         Entry(Lit("artifact_type"), Str(kind))])
  }

  /** A reference by content: its digest and its uri give the same hash. */
  predicate NamesContent(ref: Json, digest: Text) {
    Get(ref, Lit("digest")) == Some(Str(digest)) && |digest| >= 7 &&
    Get(ref, Lit("uri")) == Some(Str(Lit("fixture+vercel://sha256/") + digest[7..]))
  }

  lemma FixtureFields(b: Bytes, kind: Text, doc: Json)
    ensures NamesContent(FixtureRef(b, kind, doc), DigestText(b, doc))
  {
    assert |Lit("sha256:")| == 7;
    hide Lit, Lookup, Canon;
    assert DigestText(b, doc)[7..] == b.hash(Canon(doc));
    var ms := FixtureRef(b, kind, doc).members;
    assert |ms[0].key| == 10 && |ms[1].key| == 6 && |ms[2].key| == 4 && |ms[3].key| == 3;
    LookupAt(ms, 1);
    LookupAt(ms, 3);
  }

  function Owner(stepId: Text): Text { Lit("vercel-step:") + stepId }

  function Receipt(q: V.AdoptInput, effectKey: Text, generation: int, stepId: Text): Json {
    Obj([Entry(Lit("schema"), Str(Lit("akashic.adoption-receipt/v1"))),
         Entry(Lit("effect_key"), Str(effectKey)),
         Entry(Lit("task_id"), Str(q.taskId)),
         Entry(Lit("logical_attempt_id"), Str(q.attemptId)),
         Entry(Lit("candidate_artifact_ref"), q.candidate),
         Entry(Lit("verification_report_ref"), q.report),
         Entry(Lit("provenance_ref"), q.provenance),
         Entry(Lit("fence_generation"), Num(generation)),
         Entry(Lit("workflow_step_id"), Str(stepId))])
  }

  /** Claim, receipt and completion of one effect. */
  function PerformEffect(b: Bytes, q: V.AdoptInput, key: Text, subject: Text, stepId: Text): Option<(EffectRecord, Json)> {
    match ClaimEffect(None, ClaimRequest(key, subject, Owner(stepId), false))
    case Err(_) => None
    case Ok(claim) =>
      var receipt := Receipt(q, key, claim.generation, stepId);
      match CompleteEffect(claim, Token(Owner(stepId), claim.generation), DigestText(b, receipt))
      case Err(_) => None
      case Ok(done) => Some((done, FixtureRef(b, Lit("akashic.adoption-receipt/v1"), receipt)))
  }

  /** The completed effect and the reference to its receipt; `None` when the step throws. */
  function AdoptStep(b: Bytes, q: V.AdoptInput, stepId: Text): Option<(EffectRecord, Json)> {
    if !Adoptable(q.candidate, Member(q.material, Lit("verification_report")), Member(q.material, Lit("provenance"))) then None
    else
      var subject := DigestOf(q.candidate).value;
      var key := EffectKey.MakeEffectKey(b.hash, q.taskId, q.attemptId, q.turnNo, Lit("adopt"), subject);
      PerformEffect(b, q, key, subject, stepId)
  }

  lemma EffectSound(b: Bytes, q: V.AdoptInput, key: Text, subject: Text, stepId: Text)
    ensures var r := PerformEffect(b, q, key, subject, stepId);
            r.Some? ==>
              r.value.0.status == SUCCEEDED && r.value.0.generation == 1 && r.value.0.result.Some? &&
              r.value.0.effectKey == key && r.value.0.subject == subject && r.value.0.owner == Lit("vercel-step:") + stepId &&
              r.value.1 == FixtureRef(b, Lit("akashic.adoption-receipt/v1"), Receipt(q, key, 1, stepId)) &&
              NamesContent(r.value.1, r.value.0.result.value)
  {
    hide Receipt, FixtureRef, Get, IsDigest, Lit, DigestText, NamesContent;
    FixtureFields(b, Lit("akashic.adoption-receipt/v1"), Receipt(q, key, 1, stepId));
  }

  /** The step returns only for an adoptable candidate, with a first-generation success that
      records the digest of the reference it returns. */
  lemma AdoptStepSound(b: Bytes, q: V.AdoptInput, stepId: Text)
    ensures var r := AdoptStep(b, q, stepId);
            r.Some? ==>
              PassesFor(q.candidate, Member(q.material, Lit("verification_report")), Member(q.material, Lit("provenance"))) &&
              r.value.0.status == SUCCEEDED && r.value.0.generation == 1 && r.value.0.result.Some? &&
              DigestOf(q.candidate) == Some(r.value.0.subject) &&
              r.value.0.effectKey ==
                EffectKey.MakeEffectKey(b.hash, q.taskId, q.attemptId, q.turnNo, Lit("adopt"), r.value.0.subject) &&
              r.value.0.owner == Lit("vercel-step:") + stepId &&
              r.value.1 == FixtureRef(b, Lit("akashic.adoption-receipt/v1"), Receipt(q, r.value.0.effectKey, 1, stepId)) &&
              NamesContent(r.value.1, r.value.0.result.value)
  {
    AdoptableExactly(q.candidate, Member(q.material, Lit("verification_report")), Member(q.material, Lit("provenance")));
    hide PerformEffect, NamesContent, PassesFor, Get, Lit, EffectKey.MakeEffectKey, Adoptable, FixtureRef, Receipt;
    if AdoptStep(b, q, stepId).Some? {
      var subject := match DigestOf(q.candidate) case Some(d) => d case None => [];
      EffectSound(b, q, EffectKey.MakeEffectKey(b.hash, q.taskId, q.attemptId, q.turnNo, Lit("adopt"), subject), subject, stepId);
      AdoptableHasDigest(q.candidate, Member(q.material, Lit("verification_report")), Member(q.material, Lit("provenance")));
    }
  }

  lemma AdoptableHasDigest(candidate: Json, report: Json, provenance: Json)
    requires Adoptable(candidate, report, provenance)
    ensures DigestOf(candidate).Some?
  {
  }

  /** An adoption result is one that the step gave for the arguments the run waits on. */
  ghost predicate Genuine(b: Bytes, v: V.Running, e: V.Event) {
    e.Respond? && e.r.AdoptionDone? && v.pc.InAdopt? ==>
      exists stepId :: Gives(b, v.pc.input, stepId, e.r.ref)
  }

  predicate Gives(b: Bytes, q: V.AdoptInput, stepId: Text, ref: Json) {
    var r := AdoptStep(b, q, stepId);
    r.Some? && r.value.1 == ref
  }

  ghost predicate GenuineRun(b: Bytes, v: V.Running, events: seq<V.Event>)
    decreases events
  {
    events == [] || (Genuine(b, v, events[0]) && GenuineRun(b, V.Step(v, events[0]), events[1..]))
  }

  /** The evidence behind a COMPLETED snapshot. */
  ghost predicate Evidence(b: Bytes, s: V.Snapshot) {
    exists q: V.AdoptInput, stepId: Text :: Supports(b, s, q, stepId)
  }

  predicate Supports(b: Bytes, s: V.Snapshot, q: V.AdoptInput, stepId: Text) {
    s.view.candidates != [] && q.candidate == s.view.candidates[0] && q.turnNo == s.view.turnNo &&
    q.taskId == s.taskId && q.attemptId == s.attemptId && s.report == Some(q.report) && s.provenance == Some(q.provenance) &&
    s.adoption.Some? && Gives(b, q, stepId, s.adoption.value) &&
    PassesFor(q.candidate, Member(q.material, Lit("verification_report")), Member(q.material, Lit("provenance")))
  }

  predicate InFlight(v: V.Running) {
    v.pc.InAdopt? ==>
      var s, q := v.snap, v.pc.input;
      s.view.candidates != [] && q.candidate == s.view.candidates[0] && q.turnNo == s.view.turnNo &&
      q.taskId == s.taskId && q.attemptId == s.attemptId && s.report == Some(q.report) && s.provenance == Some(q.provenance)
  }

  lemma OtherSteps(v: V.Running, e: V.Event)
    requires V.Inv(v) && InFlight(v) && !v.pc.Done? && !(e.Respond? && e.r.AdoptionDone?)
    ensures InFlight(V.Step(v, e)) && V.Step(v, e).snap.view.state != COMPLETED
  {
    if e.Respond? && e.r.DeltaOffered? {
      hide ValidateContextDelta, Allowed, V.RejectionProjection, Accounts, V.StreamInv, Get;
    } else if e.Respond? && e.r.TurnEnded? {
      hide Accounts, V.StreamInv, V.OnVerified, V.OnDelta, V.OnContext;
    } else if e.Respond? && e.r.Verified? {
      hide Accounts, V.StreamInv, V.OnTurn, V.OnDelta, V.OnContext;
    } else {
      hide Accounts, V.StreamInv, V.OnTurn, V.OnVerified, V.OnDelta;
    }
  }

  lemma GivesPasses(b: Bytes, q: V.AdoptInput, stepId: Text, ref: Json)
    requires Gives(b, q, stepId, ref)
    ensures PassesFor(q.candidate, Member(q.material, Lit("verification_report")), Member(q.material, Lit("provenance")))
  {
    hide PerformEffect, PassesFor, Adoptable, Get, Lit;
    AdoptableExactly(q.candidate, Member(q.material, Lit("verification_report")), Member(q.material, Lit("provenance")));
  }

  lemma AdoptionStep(b: Bytes, v: V.Running, ref: Json)
    requires V.Inv(v) && InFlight(v) && v.pc.InAdopt? && Genuine(b, v, V.Respond(AdoptionDone(ref)))
    ensures Evidence(b, V.Step(v, V.Respond(AdoptionDone(ref))).snap)
    ensures InFlight(V.Step(v, V.Respond(AdoptionDone(ref))))
  {
    hide AdoptStep, V.StreamInv, PassesFor;
    var stepId :| Gives(b, v.pc.input, stepId, ref);
    GivesPasses(b, v.pc.input, stepId, ref);
    assert Supports(b, V.Step(v, V.Respond(AdoptionDone(ref))).snap, v.pc.input, stepId);
  }

  /** On Vercel too, every COMPLETED snapshot was adopted for its own first candidate. */
  lemma {:induction false} CompletedWasAdopted(b: Bytes, v: V.Running, events: seq<V.Event>)
    requires V.Inv(v) && InFlight(v) && GenuineRun(b, v, events)
    requires v.snap.view.state == COMPLETED ==> Evidence(b, v.snap)
    ensures var v' := V.Exec(v, events);
            v'.snap.view.state == COMPLETED ==> Evidence(b, v'.snap)
    decreases events
  {
    hide V.Step, Evidence, Accounts, V.StreamInv;
    if events != [] {
      var e := events[0];
      V.StepRefines(v, e);
      if v.pc.Done? {
        DoneStays(v, e);
      } else if e.Respond? && e.r.AdoptionDone? {
        if v.pc.InAdopt? { AdoptionStep(b, v, e.r.ref); } else { NotAwaited(v, e); }
      } else {
        OtherSteps(v, e);
      }
      CompletedWasAdopted(b, V.Step(v, e), events[1..]);
    }
  }

  lemma DoneStays(v: V.Running, e: V.Event)
    requires v.pc.Done?
    ensures V.Step(v, e) == v
  {
  }

  lemma NotAwaited(v: V.Running, e: V.Event)
    requires e.Respond? && e.r.AdoptionDone? && !v.pc.InAdopt?
    ensures V.Step(v, e) == v
  {
  }
}
