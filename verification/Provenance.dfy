/** Verification reports, provenance records, and the check that stands before adoption. */
module Provenance {
  import opened Utf16
  import opened Wrappers
  import opened KeySort
  import opened Json
  import opened TaskState

  datatype Verdict = PASS | FAIL | INCONCLUSIVE

  /** A check handed to `makeVerificationReport`; a status that is no verdict is `None`, a
      `required` that is not given is `None`. */
  datatype CheckInput = CheckInput(checkId: Text, kind: Text, status: Option<Verdict>, required: Option<bool>)

  datatype Check = Check(checkId: Text, kind: Text, status: Verdict, required: bool)

  datatype Report = Report(
    verificationId: Text, subject: Text, decision: Verdict, verifierId: Text, verifierVersion: Text,
    policyVersion: Text, checks: seq<Check>, completedAt: Text)

  predicate Refused(c: CheckInput) { c.status.None? || c.checkId == [] || c.kind == [] }

  predicate Kept(c: CheckInput, k: Check) {
    k.checkId == c.checkId && k.kind == c.kind && c.status == Some(k.status) && k.required == (c.required != Some(false))
  }

  /** `check.required !== false`. */
  predicate Required(c: CheckInput) { c.required != Some(false) }

  /** `checks.map(...)`; `None` when one of them throws. */
  function Checked(inputs: seq<CheckInput>): (r: Option<seq<Check>>)
    ensures r.Some? ==> |r.value| == |inputs|
    ensures r.Some? ==> forall i :: 0 <= i < |inputs| ==> Kept(inputs[i], r.value[i])
    ensures r.None? ==> exists i :: 0 <= i < |inputs| && Refused(inputs[i])
  {
    if inputs == [] then Some([])
    else
      var c := inputs[0];
      if Refused(c) then None
      else
        match Checked(inputs[1..])
        case None => None
        case Some(rest) => Some([Check(c.checkId, c.kind, c.status.value, Required(c))] + rest)
  }

  predicate AllRequiredPass(checks: seq<Check>) {
    forall i :: 0 <= i < |checks| ==> !checks[i].required || checks[i].status == PASS
  }

  /** `makeVerificationReport`; the fields of `meta` are its other required strings. */
  function MakeVerificationReport(meta: Report, decision: Option<Verdict>, inputs: seq<CheckInput>): Option<Report> {
    if decision.None? || !IsDigest(meta.subject) || inputs == [] then None
    else
      match Checked(inputs)
      case None => None
      case Some(checks) =>
        if decision.value == PASS && !AllRequiredPass(checks) then None
        else if meta.verificationId == [] || meta.verifierId == [] || meta.verifierVersion == [] ||
                meta.policyVersion == [] || meta.completedAt == [] then None
        else Some(meta.(decision := decision.value, checks := checks))
  }

  /** Every check that was not declared optional has passed. */
  predicate RequiredInputsPass(inputs: seq<CheckInput>) {
    forall i :: 0 <= i < |inputs| ==> inputs[i].required == Some(false) || inputs[i].status == Some(PASS)
  }

  /** A PASS report exists only when every check that was not declared optional passed; it
      keeps every check and the subject. */
  lemma PassMeansRequiredPass(meta: Report, decision: Option<Verdict>, inputs: seq<CheckInput>)
    ensures var r := MakeVerificationReport(meta, decision, inputs);
            r.Some? ==>
              (r.value.decision == PASS ==> RequiredInputsPass(inputs) && AllRequiredPass(r.value.checks)) &&
              inputs != [] && |r.value.checks| == |inputs| && r.value.subject == meta.subject && IsDigest(meta.subject) &&
              forall i :: 0 <= i < |inputs| ==> Kept(inputs[i], r.value.checks[i])
    ensures decision == Some(PASS) && !RequiredInputsPass(inputs) ==> MakeVerificationReport(meta, decision, inputs).None?
  {
    if Checked(inputs).Some? {
      var checks := Checked(inputs).value;
      assert AllRequiredPass(checks) <==> RequiredInputsPass(inputs) by {
        assert forall i :: 0 <= i < |inputs| ==> Kept(inputs[i], checks[i]);
      }
    }
  }

  /** When a report is made: for a verdict, a digest and checks that each have a verdict, an id and
      a kind, with every required one passed if the verdict is PASS, and with all other strings
      given. It is what was given, with the checks that were kept. */
  lemma ReportExactly(meta: Report, decision: Option<Verdict>, inputs: seq<CheckInput>)
    ensures var r := MakeVerificationReport(meta, decision, inputs);
            (r.Some? <==>
               decision.Some? && IsDigest(meta.subject) && inputs != [] &&
               (forall i :: 0 <= i < |inputs| ==> inputs[i].status.Some? && inputs[i].checkId != [] && inputs[i].kind != []) &&
               (decision == Some(PASS) ==> RequiredInputsPass(inputs)) &&
               meta.verificationId != [] && meta.verifierId != [] && meta.verifierVersion != [] &&
               meta.policyVersion != [] && meta.completedAt != []) &&
            (r.Some? ==> decision == Some(r.value.decision) && r.value == meta.(decision := r.value.decision, checks := r.value.checks))
  {
    PassMeansRequiredPass(meta, decision, inputs);
    CheckedExactly(inputs);
    hide IsDigest;
    if Checked(inputs).Some? {
      var checks := Checked(inputs).value;
      assert AllRequiredPass(checks) <==> RequiredInputsPass(inputs) by {
        assert forall i :: 0 <= i < |inputs| ==> Kept(inputs[i], checks[i]);
      }
    }
  }

  lemma {:induction false} CheckedExactly(inputs: seq<CheckInput>)
    ensures Checked(inputs).Some? <==>
            forall i :: 0 <= i < |inputs| ==> inputs[i].status.Some? && inputs[i].checkId != [] && inputs[i].kind != []
  {
    if inputs != [] { CheckedExactly(inputs[1..]); }
  }

  /** `digestOf`; `None` when it throws. */
  function DigestOf(ref: Json): Option<Text> {
    var d := Get(ref, Lit("digest"));
    if ref.Obj? && DigestString(d) then Some(d.value.s) else None
  }

  function DigestsOf(refs: seq<Json>): (r: Option<seq<Text>>)
    ensures r.Some? ==> |r.value| == |refs| && forall i :: 0 <= i < |refs| ==> DigestOf(refs[i]) == Some(r.value[i])
  {
    if refs == [] then Some([])
    else
      match (DigestOf(refs[0]), DigestsOf(refs[1..]))
      case (Some(d), Some(ds)) => Some([d] + ds)
      case _ => None
  }

  predicate Contains(s: Text, part: Text) {
    |part| <= |s| && (s[..|part|] == part || (s != [] && Contains(s[1..], part)))
  }

  /** `v?.includes(digest)`, on an array or on a string. */
  predicate Includes(v: Option<Json>, digest: Text) {
    v.Some? &&
    match v.value
    case Arr(items) => Str(digest) in items
    case Str(s) => Contains(s, digest)
    case _ => false
  }

  /** `assertAdoptable` does not throw: the candidate has a digest, a PASS report is about it,
      and a provenance record names it. */
  predicate Adoptable(candidate: Json, report: Json, provenance: Json) {
    DigestOf(candidate).Some? &&
    var d := DigestOf(candidate).value;
    Get(report, Lit("schema")) == Some(Str(Lit("akashic.verification-report/v1"))) &&
    Get(report, Lit("decision")) == Some(Str(Lit("PASS"))) &&
    Get(report, Lit("subject_digest")) == Some(Str(d)) &&
    Get(provenance, Lit("schema")) == Some(Str(Lit("akashic.agent-provenance/v1"))) &&
    Includes(Get(provenance, Lit("subject_digests")), d)
  }

  /** The digest is an element of the array, or a part of the string. */
  predicate Names(v: Json, digest: Text) {
    match v
    case Arr(items) => exists i :: 0 <= i < |items| && items[i] == Str(digest)
    case Str(s) => exists i :: 0 <= i <= |s| && digest <= s[i..]
    case _ => false
  }

  lemma {:induction false} ContainsExactly(s: Text, part: Text)
    ensures Contains(s, part) <==> exists i :: 0 <= i <= |s| && part <= s[i..]
  {
    assert part <= s[0..] <==> part <= s;
    if s != [] {
      ContainsExactly(s[1..], part);
      assert forall i :: 1 <= i <= |s| ==> s[i..] == s[1..][i - 1..];
      assert forall i :: 0 <= i <= |s[1..]| ==> s[1..][i..] == s[i + 1..];
    }
  }

  /** Evidence for the adoption of a candidate, field by field: the candidate is an object with a
      digest, the report's decision about that digest is PASS, and the provenance names it. */
  predicate PassesFor(candidate: Json, report: Json, provenance: Json) {
    var d := Get(candidate, Lit("digest"));
    var names := Get(provenance, Lit("subject_digests"));
    DigestString(d) &&
    Get(report, Lit("decision")) == Some(Str(Lit("PASS"))) && Get(report, Lit("subject_digest")) == d &&
    names.Some? && Names(names.value, d.value.s)
  }

  lemma AdoptablePasses(candidate: Json, report: Json, provenance: Json)
    requires Adoptable(candidate, report, provenance)
    ensures PassesFor(candidate, report, provenance)
    ensures Get(report, Lit("schema")) == Some(Str(Lit("akashic.verification-report/v1")))
    ensures Get(provenance, Lit("schema")) == Some(Str(Lit("akashic.agent-provenance/v1")))
  {
    hide Lit, Get, IsDigest, Includes, Names, DigestOf, DigestString;
    DigestOfExactly(candidate);
    IncludesExactly(Get(provenance, Lit("subject_digests")), DigestOf(candidate).value);
    DigestIsString(Get(candidate, Lit("digest")));
  }

  lemma PassesAdoptable(candidate: Json, report: Json, provenance: Json)
    requires PassesFor(candidate, report, provenance)
    requires Get(report, Lit("schema")) == Some(Str(Lit("akashic.verification-report/v1")))
    requires Get(provenance, Lit("schema")) == Some(Str(Lit("akashic.agent-provenance/v1")))
    ensures Adoptable(candidate, report, provenance)
  {
    hide Lit, Get, IsDigest, Includes, Names, DigestOf, DigestString;
    DigestOfExactly(candidate);
    IncludesExactly(Get(provenance, Lit("subject_digests")), DigestOf(candidate).value);
    DigestIsString(Get(candidate, Lit("digest")));
  }

  /** Adoption is allowed on exactly that evidence, in documents of the two schemas. */
  lemma AdoptableExactly(candidate: Json, report: Json, provenance: Json)
    ensures Adoptable(candidate, report, provenance) <==>
            PassesFor(candidate, report, provenance) &&
            Get(report, Lit("schema")) == Some(Str(Lit("akashic.verification-report/v1"))) &&
            Get(provenance, Lit("schema")) == Some(Str(Lit("akashic.agent-provenance/v1")))
  {
    hide Lit, Get, Adoptable, PassesFor;
    if Adoptable(candidate, report, provenance) { AdoptablePasses(candidate, report, provenance); }
    else if PassesFor(candidate, report, provenance) &&
            Get(report, Lit("schema")) == Some(Str(Lit("akashic.verification-report/v1"))) &&
            Get(provenance, Lit("schema")) == Some(Str(Lit("akashic.agent-provenance/v1"))) {
      PassesAdoptable(candidate, report, provenance);
    }
  }

  lemma DigestIsString(d: Option<Json>)
    ensures DigestString(d) ==> d.Some? && d.value.Str?
  {
  }

  lemma IncludesExactly(v: Option<Json>, digest: Text)
    ensures Includes(v, digest) <==> v.Some? && Names(v.value, digest)
  {
    if v.Some? && v.value.Str? { ContainsExactly(v.value.s, digest); }
  }

  // ----- What the verifier stores is adoptable -----

  function VerdictText(v: Verdict): Text {
    match v case PASS => Lit("PASS") case FAIL => Lit("FAIL") case INCONCLUSIVE => Lit("INCONCLUSIVE")
  }

  function CheckJson(c: Check): Json {
    Obj([Entry(Lit("check_id"), Str(c.checkId)), Entry(Lit("kind"), Str(c.kind)),
         Entry(Lit("status"), Str(VerdictText(c.status))), Entry(Lit("required"), Bool(c.required))])
  }

  /** The JSON of a report, in the source's property order. */
  function ReportJson(r: Report): Json {
    Obj([Entry(Lit("schema"), Str(Lit("akashic.verification-report/v1"))),
         Entry(Lit("verification_id"), Str(r.verificationId)),
         Entry(Lit("subject_digest"), Str(r.subject)),
         Entry(Lit("decision"), Str(VerdictText(r.decision))),
         Entry(Lit("verifier"), Obj([Entry(Lit("id"), Str(r.verifierId)), Entry(Lit("version"), Str(r.verifierVersion))])),
         Entry(Lit("policy_version"), Str(r.policyVersion)),
         Entry(Lit("checks"), Arr(seq(|r.checks|, i requires 0 <= i < |r.checks| => CheckJson(r.checks[i])))),
         Entry(Lit("completed_at"), Str(r.completedAt))])
  }

  /** The required strings of `makeAgentProvenance`. */
  datatype Origin = Origin(
    provenanceId: Text, repository: Text, commit: Text, taskId: Text, contextId: Text, attemptId: Text,
    provider: Text, adapterVersion: Text, startedAt: Text, completedAt: Text)

  predicate CompleteOrigin(o: Origin) {
    o.provenanceId != [] && o.repository != [] && o.commit != [] && o.taskId != [] && o.contextId != [] &&
    o.attemptId != [] && o.provider != [] && o.adapterVersion != [] && o.startedAt != [] && o.completedAt != []
  }

  /** `makeAgentProvenance`: the record names the digest of every output. */
  function MakeAgentProvenance(o: Origin, outputs: seq<Json>, contextInputs: seq<Json>): Option<Json> {
    if outputs == [] || DigestsOf(contextInputs).None? || !CompleteOrigin(o) then None
    else
      match DigestsOf(outputs)
      case None => None
      case Some(ds) =>
        Some(Obj([Entry(Lit("schema"), Str(Lit("akashic.agent-provenance/v1"))),
                  Entry(Lit("provenance_id"), Str(o.provenanceId)),
                  Entry(Lit("subject_digests"), Arr(seq(|ds|, i requires 0 <= i < |ds| => Str(ds[i])))),
                  Entry(Lit("run"), Obj([Entry(Lit("task_id"), Str(o.taskId)), Entry(Lit("context_id"), Str(o.contextId)),
                                         Entry(Lit("logical_attempt_id"), Str(o.attemptId))])),
                  Entry(Lit("context_inputs"), Arr(contextInputs)),
                  Entry(Lit("outputs"), Arr(outputs)),
                  Entry(Lit("started_at"), Str(o.startedAt)), Entry(Lit("completed_at"), Str(o.completedAt))]))
  }

  lemma ReportFields(r: Report)
    ensures Get(ReportJson(r), Lit("schema")) == Some(Str(Lit("akashic.verification-report/v1")))
    ensures Get(ReportJson(r), Lit("subject_digest")) == Some(Str(r.subject))
    ensures Get(ReportJson(r), Lit("decision")) == Some(Str(VerdictText(r.decision)))
  {
    hide VerdictText, Lit, Lookup;
    var ms := ReportJson(r).members;
    LookupAt(ms, 0);
    assert |ms[0].key| == 6 && |ms[1].key| == 15 && |ms[2].key| == 14 && |ms[3].key| == 8;
    LookupAt(ms, 2);
    LookupAt(ms, 3);
  }

  /** The other fields of a report, and of each of its checks. */
  lemma ReportOtherFields(r: Report)
    ensures Get(ReportJson(r), Lit("verification_id")) == Some(Str(r.verificationId))
    ensures Get(ReportJson(r), Lit("verifier")) ==
            Some(Obj([Entry(Lit("id"), Str(r.verifierId)), Entry(Lit("version"), Str(r.verifierVersion))]))
    ensures Get(ReportJson(r), Lit("policy_version")) == Some(Str(r.policyVersion))
    ensures Get(ReportJson(r), Lit("completed_at")) == Some(Str(r.completedAt))
  {
    hide VerdictText, Lit, Lookup, CheckJson;
    var ms := ReportJson(r).members;
    assert |ms[0].key| == 6 && |ms[1].key| == 15 && |ms[2].key| == 14 && |ms[3].key| == 8;
    assert |ms[4].key| == 8 && |ms[5].key| == 14 && |ms[6].key| == 6 && |ms[7].key| == 12;
    ReportWords();
    LookupAt(ms, 1);
    LookupAt(ms, 4);
    LookupAt(ms, 5);
    LookupAt(ms, 7);
  }

  lemma ReportChecks(r: Report)
    ensures var checks := Get(ReportJson(r), Lit("checks"));
            checks.Some? && checks.value.Arr? && |checks.value.items| == |r.checks| &&
            forall i :: 0 <= i < |r.checks| ==> checks.value.items[i] == CheckJson(r.checks[i])
  {
    hide VerdictText, Lit, Lookup, CheckJson;
    var ms := ReportJson(r).members;
    assert |ms[0].key| == 6 && |ms[1].key| == 15 && |ms[2].key| == 14 && |ms[3].key| == 8;
    assert |ms[4].key| == 8 && |ms[5].key| == 14 && |ms[6].key| == 6;
    ReportWords();
    LookupAt(ms, 6);
  }

  lemma ReportWords()
    ensures Lit("schema") != Lit("checks") && Lit("decision") != Lit("verifier") && Lit("subject_digest") != Lit("policy_version")
  {
    assert Lit("schema")[0] == 115 && Lit("checks")[0] == 99 && Lit("decision")[0] == 100 && Lit("verifier")[0] == 118;
    assert Lit("subject_digest")[0] == 115 && Lit("policy_version")[0] == 112;
  }

  lemma CheckFields(c: Check)
    ensures var j := CheckJson(c);
            Get(j, Lit("check_id")) == Some(Str(c.checkId)) && Get(j, Lit("kind")) == Some(Str(c.kind)) &&
            Get(j, Lit("status")) == Some(Str(VerdictText(c.status))) && Get(j, Lit("required")) == Some(Bool(c.required))
  {
    hide VerdictText, Lit, Lookup;
    var ms := CheckJson(c).members;
    assert |ms[0].key| == 8 && |ms[1].key| == 4 && |ms[2].key| == 6 && |ms[3].key| == 8;
    assert Lit("check_id") != Lit("required") by { CheckWords(); }
    LookupAt(ms, 0);
    LookupAt(ms, 1);
    LookupAt(ms, 2);
    LookupAt(ms, 3);
  }

  lemma CheckWords()
    ensures Lit("check_id") != Lit("required")
  {
    assert Lit("check_id")[0] == 99 && Lit("required")[0] == 114;
  }

  /** `Lookup` finds the first entry with a key. */
  lemma {:induction false} LookupAt(ms: seq<Entry<Json>>, n: nat)
    requires n < |ms| && forall i :: 0 <= i < n ==> ms[i].key != ms[n].key
    ensures Lookup(ms, ms[n].key) == Some(ms[n].value)
  {
    if n > 0 { LookupAt(ms[1..], n - 1); }
  }

  /** A record is made exactly for outputs, all of them and the context inputs with digests, and
      when every required string is given. */
  lemma ProvenanceExactly(o: Origin, outputs: seq<Json>, contextInputs: seq<Json>)
    ensures MakeAgentProvenance(o, outputs, contextInputs).Some? <==>
            outputs != [] && CompleteOrigin(o) &&
            (forall k :: 0 <= k < |outputs| ==> DigestOf(outputs[k]).Some?) &&
            (forall k :: 0 <= k < |contextInputs| ==> DigestOf(contextInputs[k]).Some?)
  {
    hide Lit, Lookup, CompleteOrigin, DigestOf;
    DigestsExactly(outputs);
    DigestsExactly(contextInputs);
  }

  lemma {:induction false} DigestsExactly(refs: seq<Json>)
    ensures DigestsOf(refs).Some? <==> forall k :: 0 <= k < |refs| ==> DigestOf(refs[k]).Some?
  {
    hide DigestOf;
    if refs != [] { DigestsExactly(refs[1..]); }
  }

  lemma ProvenanceFields(o: Origin, outputs: seq<Json>, contextInputs: seq<Json>)
    requires MakeAgentProvenance(o, outputs, contextInputs).Some?
    ensures var p := MakeAgentProvenance(o, outputs, contextInputs).value;
            Get(p, Lit("schema")) == Some(Str(Lit("akashic.agent-provenance/v1"))) &&
            forall k :: 0 <= k < |outputs| ==>
              DigestOf(outputs[k]).Some? && Includes(Get(p, Lit("subject_digests")), DigestOf(outputs[k]).value)
  {
    hide Lit, Lookup, CompleteOrigin, DigestOf;
    var p := MakeAgentProvenance(o, outputs, contextInputs).value;
    var ms := p.members;
    var ds := DigestsOf(outputs).value;
    LookupAt(ms, 0);
    assert |ms[0].key| == 6 && |ms[1].key| == 13 && |ms[2].key| == 15;
    LookupAt(ms, 2);
    forall k | 0 <= k < |outputs| ensures DigestOf(outputs[k]).Some? && Includes(Get(p, Lit("subject_digests")), DigestOf(outputs[k]).value) {
      assert ms[2].value.items[k] == Str(ds[k]);
    }
  }

  lemma ProvenanceOtherFields(o: Origin, outputs: seq<Json>, contextInputs: seq<Json>)
    requires MakeAgentProvenance(o, outputs, contextInputs).Some?
    ensures var p := MakeAgentProvenance(o, outputs, contextInputs).value;
            Get(p, Lit("provenance_id")) == Some(Str(o.provenanceId)) && Get(p, Lit("outputs")) == Some(Arr(outputs)) &&
            Get(p, Lit("context_inputs")) == Some(Arr(contextInputs))
  {
    hide Lit, Lookup, CompleteOrigin, DigestOf;
    var ms := MakeAgentProvenance(o, outputs, contextInputs).value.members;
    assert |ms[0].key| == 6 && |ms[1].key| == 13 && |ms[2].key| == 15 && |ms[3].key| == 3 && |ms[4].key| == 14 && |ms[5].key| == 7;
    LookupAt(ms, 1);
    LookupAt(ms, 4);
    LookupAt(ms, 5);
  }

  lemma RunRecord(taskId: Text, contextId: Text, attemptId: Text)
    ensures var run := Obj([Entry(Lit("task_id"), Str(taskId)), Entry(Lit("context_id"), Str(contextId)),
                            Entry(Lit("logical_attempt_id"), Str(attemptId))]);
            Get(run, Lit("task_id")) == Some(Str(taskId)) && Get(run, Lit("context_id")) == Some(Str(contextId)) &&
            Get(run, Lit("logical_attempt_id")) == Some(Str(attemptId))
  {
    hide Lit, Lookup;
    var ms := [Entry(Lit("task_id"), Str(taskId)), Entry(Lit("context_id"), Str(contextId)),
               Entry(Lit("logical_attempt_id"), Str(attemptId))];
    assert |ms[0].key| == 7 && |ms[1].key| == 10 && |ms[2].key| == 18;
    LookupAt(ms, 0);
    LookupAt(ms, 1);
    LookupAt(ms, 2);
  }

  /** The record tells which run it is of, and when it was. */
  lemma ProvenanceRun(o: Origin, outputs: seq<Json>, contextInputs: seq<Json>)
    requires MakeAgentProvenance(o, outputs, contextInputs).Some?
    ensures var p := MakeAgentProvenance(o, outputs, contextInputs).value; var run := Get(p, Lit("run"));
            run.Some? && Get(run.value, Lit("task_id")) == Some(Str(o.taskId)) &&
            Get(run.value, Lit("context_id")) == Some(Str(o.contextId)) &&
            Get(run.value, Lit("logical_attempt_id")) == Some(Str(o.attemptId)) &&
            Get(p, Lit("started_at")) == Some(Str(o.startedAt)) && Get(p, Lit("completed_at")) == Some(Str(o.completedAt))
  {
    hide Lit, Get, MakeAgentProvenance;
    RunRecord(o.taskId, o.contextId, o.attemptId);
    ProvenanceLate(o, outputs, contextInputs);
    ProvenanceRunAt(o, outputs, contextInputs);
  }

  lemma ProvenanceRunAt(o: Origin, outputs: seq<Json>, contextInputs: seq<Json>)
    requires MakeAgentProvenance(o, outputs, contextInputs).Some?
    ensures Get(MakeAgentProvenance(o, outputs, contextInputs).value, Lit("run")) ==
            Some(Obj([Entry(Lit("task_id"), Str(o.taskId)), Entry(Lit("context_id"), Str(o.contextId)),
                      Entry(Lit("logical_attempt_id"), Str(o.attemptId))]))
  {
    hide Lit, Lookup, CompleteOrigin, DigestOf;
    var ms := MakeAgentProvenance(o, outputs, contextInputs).value.members;
    assert |ms[0].key| == 6 && |ms[1].key| == 13 && |ms[2].key| == 15 && |ms[3].key| == 3;
    LookupAt(ms, 3);
  }

  lemma ProvenanceLate(o: Origin, outputs: seq<Json>, contextInputs: seq<Json>)
    requires MakeAgentProvenance(o, outputs, contextInputs).Some?
    ensures var p := MakeAgentProvenance(o, outputs, contextInputs).value;
            Get(p, Lit("started_at")) == Some(Str(o.startedAt)) && Get(p, Lit("completed_at")) == Some(Str(o.completedAt))
  {
    hide Lit, Lookup, CompleteOrigin, DigestOf;
    var ms := MakeAgentProvenance(o, outputs, contextInputs).value.members;
    assert |ms[0].key| == 6 && |ms[1].key| == 13 && |ms[2].key| == 15 && |ms[3].key| == 3 && |ms[4].key| == 14 &&
           |ms[5].key| == 7 && |ms[6].key| == 10 && |ms[7].key| == 12;
    LookupAt(ms, 6);
    LookupAt(ms, 7);
  }

  lemma VerdictWords(v: Verdict)
    ensures VerdictText(v) == Lit("PASS") <==> v == PASS
  {
    assert Lit("PASS")[0] == 80 && Lit("FAIL")[0] == 70 && Lit("INCONCLUSIVE")[0] == 73;
  }

  /** The names a made provenance record gives are the digests of its outputs, and no others. */
  lemma NamesOutputs(o: Origin, outputs: seq<Json>, contextInputs: seq<Json>, digest: Text)
    requires MakeAgentProvenance(o, outputs, contextInputs).Some?
    ensures var names := Get(MakeAgentProvenance(o, outputs, contextInputs).value, Lit("subject_digests"));
            names.Some? &&
            (Names(names.value, digest) <==> exists k :: 0 <= k < |outputs| && DigestOf(outputs[k]) == Some(digest))
  {
    hide Lit, Lookup, CompleteOrigin, DigestOf;
    var ms := MakeAgentProvenance(o, outputs, contextInputs).value.members;
    var ds := DigestsOf(outputs).value;
    assert |ms[0].key| == 6 && |ms[1].key| == 13 && |ms[2].key| == 15;
    LookupAt(ms, 2);
    var items := ms[2].value.items;
    assert forall k :: 0 <= k < |outputs| ==> items[k] == Str(ds[k]) && DigestOf(outputs[k]) == Some(ds[k]);
  }

  /** Of a made report and a made record, adoption is allowed if and only if the decision is PASS,
      the report is about the candidate's digest, and that digest is one of the outputs'. */
  lemma MadeIsAdoptableExactly(meta: Report, decision: Option<Verdict>, inputs: seq<CheckInput>,
                               o: Origin, outputs: seq<Json>, contextInputs: seq<Json>, candidate: Json)
    requires MakeVerificationReport(meta, decision, inputs).Some? && MakeAgentProvenance(o, outputs, contextInputs).Some?
    ensures Adoptable(candidate, ReportJson(MakeVerificationReport(meta, decision, inputs).value),
                      MakeAgentProvenance(o, outputs, contextInputs).value) <==>
            decision == Some(PASS) && DigestOf(candidate) == Some(meta.subject) &&
            exists k :: 0 <= k < |outputs| && DigestOf(outputs[k]) == Some(meta.subject)
  {
    var r := MakeVerificationReport(meta, decision, inputs).value;
    var p := MakeAgentProvenance(o, outputs, contextInputs).value;
    ReportExactly(meta, decision, inputs);
    ReportFields(r);
    ProvenanceFields(o, outputs, contextInputs);
    VerdictWords(r.decision);
    AdoptableExactly(candidate, ReportJson(r), p);
    DigestOfExactly(candidate);
    NamesOutputs(o, outputs, contextInputs, r.subject);
    hide ReportJson, MakeAgentProvenance, MakeVerificationReport, Adoptable, Get, IsDigest, DigestOf, Names, Lit;
  }

  lemma DigestOfExactly(ref: Json)
    ensures var d := Get(ref, Lit("digest"));
            (DigestOf(ref).Some? <==> DigestString(d)) && (DigestString(d) ==> d == Some(Str(DigestOf(ref).value)))
  {
    hide Lit, IsDigest, Lookup;
  }

  /** What `verifyCandidate` builds for a list of outputs is adoptable for each of them whose
      digest is the report's subject. */
  lemma VerifiedIsAdoptable(meta: Report, inputs: seq<CheckInput>, o: Origin, outputs: seq<Json>, contextInputs: seq<Json>, k: nat)
    requires k < |outputs| && DigestOf(outputs[k]) == Some(meta.subject)
    requires MakeVerificationReport(meta, Some(PASS), inputs).Some? && MakeAgentProvenance(o, outputs, contextInputs).Some?
    ensures Adoptable(outputs[k], ReportJson(MakeVerificationReport(meta, Some(PASS), inputs).value),
                      MakeAgentProvenance(o, outputs, contextInputs).value)
  {
    var r := MakeVerificationReport(meta, Some(PASS), inputs).value;
    assert r.subject == meta.subject && r.decision == PASS;
    ReportFields(r);
    ProvenanceFields(o, outputs, contextInputs);
    hide ReportJson, MakeAgentProvenance, MakeVerificationReport, Get, IsDigest, DigestOf, Includes, Lit;
  }
}
