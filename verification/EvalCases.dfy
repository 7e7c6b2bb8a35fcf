/** Evaluation cases: their digest, their validation, and the promotion of a candidate. */
module EvalCases {
  import opened Utf16
  import opened Wrappers
  import opened KeySort
  import opened Json
  import opened JsonParser
  import opened TaskState

  datatype CaseError =
    | NotObject | BadSchema | BadCaseId | BadCapability | BadStatus | BadInput | BadExpected | BadGrader
    | BadCode | BadValues | BadSourceRefs | MissingSourceRefs | BadVerificationRef | MissingAcceptedBy | DigestMismatch

  function Status(v: Json): Option<Json> { Get(v, Lit("status")) }

  function Word(s: string): Option<Json> { Some(Str(Lit(s))) }

  function WithoutKey(v: Json, key: Text): Json {
    if v.Obj? then Obj(Without(v.members, key)) else v
  }

  /** `evalCaseDigest`: the digest of the canonical text without the digest itself. */
  function EvalCaseDigest(hash: Text -> Text, v: Json): Text {
    Lit("sha256:") + hash(Canon(WithoutKey(v, Lit("case_digest"))))
  }

  predicate IsObject(v: Option<Json>) { v.Some? && v.value.Obj? }

  /** `item.source_refs ?? []`. */
  function SourceRefs(v: Json): Json {
    match Get(v, Lit("source_refs"))
    case None => Arr([])
    case Some(x) => if x.Null? then Arr([]) else x
  }

  predicate AllArtifactRefs(refs: Json) {
    refs.Arr? && forall i :: 0 <= i < |refs.items| ==> ValidArtifactRef(Some(refs.items[i]))
  }

  /** What the kind of grading named by `expected` asks of it. */
  function CheckExpected(expected: Json): Option<CaseError> {
    var kind := Get(expected, Lit("kind"));
    if kind == Word("error_code") then
      if BoundedString(Get(expected, Lit("code")), 255) then None else Some(BadCode)
    else if kind == Word("ordered_values") then
      var values := Get(expected, Lit("values"));
      if values.Some? && values.value.Arr? && values.value.items != [] then None else Some(BadValues)
    else if kind == Word("exact") || kind == Word("subset") then None
    else Some(BadGrader)
  }

  /** The checks on references and promotion. */
  function CheckEvidence(v: Json): Option<CaseError> {
    var refs := SourceRefs(v);
    var verification := Get(v, Lit("verification_ref"));
    if !AllArtifactRefs(refs) then Some(BadSourceRefs)
    else if Status(v) == Word("CANDIDATE") && refs.items == [] then Some(MissingSourceRefs)
    else if verification.Some? && !verification.value.Null? && !ValidArtifactRef(verification) then Some(BadVerificationRef)
    else if Status(v) == Word("ACCEPTED") &&
            !(Get(v, Lit("accepted_by")).Some? && Get(v, Lit("accepted_by")).value.Str?) then Some(MissingAcceptedBy)
    else None
  }

  /** The checks on the fields every case has. */
  function CheckFields(v: Json): Option<CaseError> {
    if !v.Obj? then Some(NotObject)
    else if Get(v, Lit("schema")) != Word("akashic.eval-case/v1") then Some(BadSchema)
    else if !BoundedString(Get(v, Lit("case_id")), 160) then Some(BadCaseId)
    else if !BoundedString(Get(v, Lit("capability")), 255) then Some(BadCapability)
    else if Status(v) != Word("CANDIDATE") && Status(v) != Word("ACCEPTED") && Status(v) != Word("RETIRED") then Some(BadStatus)
    else if !IsObject(Get(v, Lit("input"))) then Some(BadInput)
    else if !IsObject(Get(v, Lit("expected"))) then Some(BadExpected)
    else None
  }

  predicate DigestAgrees(hash: Text -> Text, v: Json) {
    var d := Get(v, Lit("case_digest"));
    d.None? || d == Some(Str(EvalCaseDigest(hash, v)))
  }

  /** `validateEvalCase`; `None` means the value is returned unchanged. */
  function ValidateEvalCase(hash: Text -> Text, v: Json): Option<CaseError> {
    if CheckFields(v).Some? then CheckFields(v)
    else
      var expected := CheckExpected(match Get(v, Lit("expected")) case Some(x) => x case None => Null);
      if expected.Some? then expected
      else if CheckEvidence(v).Some? then CheckEvidence(v)
      else if !DigestAgrees(hash, v) then Some(DigestMismatch)
      else None
  }

  predicate ValidCase(hash: Text -> Text, v: Json) { ValidateEvalCase(hash, v).None? }

  function CaseId(v: Json): Text {
    match Get(v, Lit("case_id")) case Some(Str(s)) => s case _ => []
  }

  // ----- Validation does not depend on the order of object keys -----

  function NormalOption(o: Option<Json>): Option<Json> {
    match o case None => None case Some(x) => Some(Normal(x))
  }

  lemma GetNormalOption(v: Json, key: Text)
    requires WF(v)
    ensures Get(Normal(v), key) == NormalOption(Get(v, key))
  {
    GetNormal(v, key);
  }

  lemma GetWF(v: Json, key: Text)
    requires WF(v) && Get(v, key).Some?
    ensures WF(Get(v, key).value)
  {
    WFMember(v.members, Entry(key, Get(v, key).value));
  }

  lemma StringNormal(o: Option<Json>, max: nat)
    ensures BoundedString(NormalOption(o), max) == BoundedString(o, max)
    ensures DigestString(NormalOption(o)) == DigestString(o)
    ensures forall s: Text :: NormalOption(o) == Some(Str(s)) <==> o == Some(Str(s))
  {
    hide IsDigest, SortByKey;
  }

  lemma RefNormal(ref: Json)
    requires WF(ref)
    ensures ValidArtifactRef(Some(Normal(ref))) == ValidArtifactRef(Some(ref))
  {
    hide Get, IsDigest, BoundedString, DigestString, Lit;
    GetNormalOption(ref, Lit("media_type"));
    GetNormalOption(ref, Lit("digest"));
    GetNormalOption(ref, Lit("size"));
    GetNormalOption(ref, Lit("uri"));
    StringNormal(Get(ref, Lit("media_type")), 256);
    StringNormal(Get(ref, Lit("digest")), 128);
    StringNormal(Get(ref, Lit("uri")), 4096);
  }

  lemma RefsNormal(refs: Json)
    requires WF(refs)
    ensures AllArtifactRefs(Normal(refs)) == AllArtifactRefs(refs)
    ensures refs.Arr? ==> Normal(refs).Arr? && |Normal(refs).items| == |refs.items|
    ensures Normal(refs).Arr? ==> refs.Arr?
  {
    hide ValidArtifactRef, SortByKey;
    if refs.Arr? {
      forall i | 0 <= i < |refs.items| ensures ValidArtifactRef(Some(Normal(refs).items[i])) == ValidArtifactRef(Some(refs.items[i])) {
        WFItem(refs.items, i);
        RefNormal(refs.items[i]);
      }
    }
  }

  lemma ExpectedNormal(expected: Json)
    requires WF(expected)
    ensures CheckExpected(Normal(expected)) == CheckExpected(expected)
  {
    hide Get, BoundedString, Lit;
    GetNormalOption(expected, Lit("kind"));
    GetNormalOption(expected, Lit("code"));
    GetNormalOption(expected, Lit("values"));
    StringNormal(Get(expected, Lit("kind")), 255);
    StringNormal(Get(expected, Lit("code")), 255);
  }

  /** What the checks ask of one property. */
  lemma FieldNormal(v: Json, key: Text, max: nat)
    requires WF(v)
    ensures BoundedString(Get(Normal(v), key), max) == BoundedString(Get(v, key), max)
    ensures IsObject(Get(Normal(v), key)) == IsObject(Get(v, key))
    ensures forall s: Text :: Get(Normal(v), key) == Some(Str(s)) <==> Get(v, key) == Some(Str(s))
  {
    GetNormalOption(v, key);
    hide Get, SortByKey, BoundedString;
    StringNormal(Get(v, key), max);
  }

  lemma NormalShape(v: Json)
    ensures Normal(v).Obj? == v.Obj?
  {
  }

  lemma FieldsNormal(v: Json)
    requires WF(v)
    ensures CheckFields(Normal(v)) == CheckFields(v)
  {
    hide Get, BoundedString, Lit, Normal, IsObject, SortByKey;
    NormalShape(v);
    FieldNormal(v, Lit("schema"), 160);
    FieldNormal(v, Lit("case_id"), 160);
    FieldNormal(v, Lit("capability"), 255);
    FieldNormal(v, Lit("status"), 255);
    FieldNormal(v, Lit("input"), 255);
    FieldNormal(v, Lit("expected"), 255);
  }

  lemma SourceRefsNormal(v: Json)
    requires WF(v)
    ensures SourceRefs(Normal(v)) == Normal(SourceRefs(v))
    ensures WF(SourceRefs(v))
  {
    GetNormalOption(v, Lit("source_refs"));
    if Get(v, Lit("source_refs")).Some? { GetWF(v, Lit("source_refs")); }
    hide Get, Lit;
  }

  lemma VerificationNormal(o: Option<Json>)
    requires o.Some? ==> WF(o.value)
    ensures ValidArtifactRef(NormalOption(o)) == ValidArtifactRef(o)
    ensures o.Some? ==> NormalOption(o).value.Null? == o.value.Null? && NormalOption(o).value.Str? == o.value.Str?
  {
    hide ValidArtifactRef, SortByKey;
    if o.Some? { RefNormal(o.value); }
    else { NoRef(); }
  }

  lemma NoRef()
    ensures !ValidArtifactRef(None)
  {
  }

  lemma EvidenceNormal(v: Json)
    requires WF(v)
    ensures CheckEvidence(Normal(v)) == CheckEvidence(v)
  {
    hide Get, Lit, ValidArtifactRef, AllArtifactRefs, SourceRefs, NormalOption, Normal;
    SourceRefsNormal(v);
    RefsNormal(SourceRefs(v));
    GetNormalOption(v, Lit("status"));
    GetNormalOption(v, Lit("verification_ref"));
    GetNormalOption(v, Lit("accepted_by"));
    StringNormal(Get(v, Lit("status")), 255);
    if Get(v, Lit("verification_ref")).Some? { GetWF(v, Lit("verification_ref")); }
    if Get(v, Lit("accepted_by")).Some? { GetWF(v, Lit("accepted_by")); }
    OptionShape(Get(v, Lit("verification_ref")));
    OptionShape(Get(v, Lit("accepted_by")));
    VerificationNormal(Get(v, Lit("verification_ref")));
    VerificationNormal(Get(v, Lit("accepted_by")));
    ArrayRefs(SourceRefs(v));
    ArrayRefs(Normal(SourceRefs(v)));
  }

  lemma OptionShape(o: Option<Json>)
    ensures NormalOption(o).Some? == o.Some?
  {
  }

  lemma ArrayRefs(refs: Json)
    ensures AllArtifactRefs(refs) ==> refs.Arr?
  {
  }

  /** Leaving a property out commutes with normalising. */
  lemma WithoutNormal(v: Json, key: Text)
    requires WF(v)
    ensures Canon(WithoutKey(Normal(v), key)) == Canon(WithoutKey(v, key))
    ensures WF(WithoutKey(v, key))
  {
    if v.Obj? {
      var ms := v.members;
      NormalWF(v);
      WithoutWF(ms, key);
      WithoutWF(Normal(v).members, key);
      WithoutMembers(ms, key);
    } else {
      NormalIdempotent(v);
    }
  }

  lemma WithoutMembers(ms: seq<Entry<Json>>, key: Text)
    requires DistinctKeys(ms) && WFMembers(ms)
    ensures Canon(Obj(Without(SortByKey(NormalMembers(ms)), key))) == Canon(Obj(Without(ms, key)))
  {
    WithoutEntries(ms, key);
    CanonIsStringifyNormal(Obj(Without(ms, key)));
    CanonIsStringifyNormal(Obj(Without(SortByKey(NormalMembers(ms)), key)));
    hide Canon, Stringify, SortByKey, NormalMembers, Without;
  }

  lemma WithoutEntries(ms: seq<Entry<Json>>, key: Text)
    requires DistinctKeys(ms) && WFMembers(ms)
    ensures var ns := SortByKey(NormalMembers(ms));
            SortByKey(NormalMembers(Without(ms, key))) == SortByKey(NormalMembers(Without(ns, key)))
  {
    hide SortByKey, Normal;
    var xs := NormalMembers(ms);
    var ns := SortByKey(xs);
    SortAscending(xs);
    WithoutWF(ms, key);
    NormalMembersWF(ms);
    WFSorted(xs);
    WithoutWF(ns, key);
    var a, b := NormalMembers(Without(ms, key)), NormalMembers(Without(ns, key));
    forall e: Entry<Json> ensures e in a <==> e in xs && e.key != key {
      NormalMembersWithout(ms, key, e);
    }
    forall e: Entry<Json> ensures e in b <==> e in xs && e.key != key {
      NormalMembersWithout(ns, key, e);
      NormalMembersAgain(ms, e);
    }
    SortUnique(a, b);
  }

  lemma WFSorted(xs: seq<Entry<Json>>)
    requires DistinctKeys(xs) && WFMembers(xs)
    ensures WFMembers(SortByKey(xs))
  {
    forall i | 0 <= i < |SortByKey(xs)| ensures WF(SortByKey(xs)[i].value) {
      SameMember(SortByKey(xs), xs, SortByKey(xs)[i]);
      WFMember(xs, SortByKey(xs)[i]);
    }
    MembersWF(SortByKey(xs));
  }

  lemma NormalMemberOf(ms: seq<Entry<Json>>, e: Entry<Json>)
    ensures e in NormalMembers(ms) <==> exists m :: m in ms && e == Entry(m.key, Normal(m.value))
  {
    hide Normal;
    if e in NormalMembers(ms) {
      var i :| 0 <= i < |ms| && NormalMembers(ms)[i] == e;
      assert ms[i] in ms;
    }
    if m :| m in ms && e == Entry(m.key, Normal(m.value)) {
      var i :| 0 <= i < |ms| && ms[i] == m;
      assert NormalMembers(ms)[i] == e;
    }
  }

  lemma NormalMembersWithout(ms: seq<Entry<Json>>, key: Text, e: Entry<Json>)
    ensures e in NormalMembers(Without(ms, key)) <==> e in NormalMembers(ms) && e.key != key
  {
    hide Normal, NormalMembers;
    NormalMemberOf(ms, e);
    NormalMemberOf(Without(ms, key), e);
  }

  /** Normalising the sorted, normalised members gives the same entries. */
  lemma NormalMembersAgain(ms: seq<Entry<Json>>, e: Entry<Json>)
    requires WFMembers(ms)
    ensures e in NormalMembers(SortByKey(NormalMembers(ms))) <==> e in NormalMembers(ms)
  {
    hide Normal, SortByKey;
    var xs := NormalMembers(ms);
    var ns := SortByKey(xs);
    if e in NormalMembers(ns) {
      var i :| 0 <= i < |ns| && NormalMembers(ns)[i] == e;
      SameMember(ns, xs, ns[i]);
      var j :| 0 <= j < |ms| && xs[j] == ns[i];
      WFMember(ms, ms[j]);
      NormalIdempotent(ms[j].value);
      assert xs[j] == e;
    }
    if e in xs {
      var j :| 0 <= j < |ms| && xs[j] == e;
      SameMember(ns, xs, e);
      var i :| 0 <= i < |ns| && ns[i] == e;
      WFMember(ms, ms[j]);
      NormalIdempotent(ms[j].value);
      assert NormalMembers(ns)[i] == e;
    }
  }

  lemma DigestNormal(hash: Text -> Text, v: Json)
    requires WF(v)
    ensures EvalCaseDigest(hash, Normal(v)) == EvalCaseDigest(hash, v)
    ensures DigestAgrees(hash, Normal(v)) == DigestAgrees(hash, v)
  {
    WithoutNormal(v, Lit("case_digest"));
    GetNormalOption(v, Lit("case_digest"));
    hide Get, Lit, Canon, WithoutKey, Normal, SortByKey, NormalOption;
    OptionShape(Get(v, Lit("case_digest")));
    StringNormal(Get(v, Lit("case_digest")), 160);
  }

  lemma CaseIdNormal(v: Json)
    requires WF(v)
    ensures CaseId(Normal(v)) == CaseId(v)
  {
    GetNormalOption(v, Lit("case_id"));
    hide Get, Lit, Normal, SortByKey, NormalOption;
    CaseIdShape(Get(v, Lit("case_id")));
  }

  lemma ExpectedFieldNormal(v: Json)
    requires WF(v)
    ensures CheckExpected(match Get(Normal(v), Lit("expected")) case Some(x) => x case None => Null) ==
            CheckExpected(match Get(v, Lit("expected")) case Some(x) => x case None => Null)
  {
    GetNormalOption(v, Lit("expected"));
    hide Get, Lit, CheckExpected, Normal, SortByKey;
    if Get(v, Lit("expected")).Some? {
      GetWF(v, Lit("expected"));
      ExpectedNormal(Get(v, Lit("expected")).value);
    }
  }

  /** Validation gives the same answer, and the case the same id, in any key order. */
  lemma ValidationNormal(hash: Text -> Text, v: Json)
    requires WF(v)
    ensures ValidateEvalCase(hash, Normal(v)) == ValidateEvalCase(hash, v)
    ensures CaseId(Normal(v)) == CaseId(v)
  {
    hide CheckFields, CheckEvidence, CheckExpected, DigestAgrees, Get, Lit, CaseId, Normal, SortByKey;
    FieldsNormal(v);
    EvidenceNormal(v);
    ExpectedFieldNormal(v);
    DigestNormal(hash, v);
    CaseIdNormal(v);
  }

  lemma CaseIdShape(o: Option<Json>)
    ensures (o.Some? && o.value.Str? <==> NormalOption(o).Some? && NormalOption(o).value.Str?) && NormalOption(o).Some? == o.Some?
    ensures o.Some? && o.value.Str? ==> NormalOption(o) == o
  {
  }

  // ----- What is valid -----

  /** A list of artifact references, or none. */
  predicate RefList(v: Option<Json>) {
    v == None || v == Some(Null) ||
    (v.value.Arr? && forall i :: 0 <= i < |v.value.items| ==> ValidArtifactRef(Some(v.value.items[i])))
  }

  /** The property is missing, null or an empty list. */
  predicate NoItems(v: Option<Json>) { v == None || v == Some(Null) || v == Some(Arr([])) }

  /** A grader that grading knows, with what it compares. */
  predicate ProperGrader(expected: Json) {
    Get(expected, Lit("kind")) == Word("exact") || Get(expected, Lit("kind")) == Word("subset") ||
    (Get(expected, Lit("kind")) == Word("error_code") && BoundedString(Get(expected, Lit("code")), 255)) ||
    (Get(expected, Lit("kind")) == Word("ordered_values") &&
     match Get(expected, Lit("values")) case Some(Arr(items)) => items != [] case _ => false)
  }

  /** The evidence that the status asks for. */
  predicate ProperEvidence(v: Json) {
    RefList(Get(v, Lit("source_refs"))) &&
    (Get(v, Lit("status")) == Word("CANDIDATE") ==> !NoItems(Get(v, Lit("source_refs")))) &&
    (var r := Get(v, Lit("verification_ref")); r == None || r == Some(Null) || ValidArtifactRef(r)) &&
    (Get(v, Lit("status")) == Word("ACCEPTED") ==> match Get(v, Lit("accepted_by")) case Some(Str(_)) => true case _ => false)
  }

  predicate ProperFields(v: Json) {
    v.Obj? &&
    Get(v, Lit("schema")) == Word("akashic.eval-case/v1") &&
    BoundedString(Get(v, Lit("case_id")), 160) && BoundedString(Get(v, Lit("capability")), 255) &&
    (Get(v, Lit("status")) == Word("CANDIDATE") || Get(v, Lit("status")) == Word("ACCEPTED") || Get(v, Lit("status")) == Word("RETIRED")) &&
    (match Get(v, Lit("input")) case Some(Obj(_)) => true case _ => false) &&
    (match Get(v, Lit("expected")) case Some(Obj(_)) => true case _ => false)
  }

  /** No digest is given, or it is the one of the text without it. */
  predicate FreshDigest(hash: Text -> Text, v: Json) {
    match Get(v, Lit("case_digest"))
    case None => true
    case Some(Str(d)) => d == Lit("sha256:") + hash(Canon(WithoutKey(v, Lit("case_digest"))))
    case _ => false
  }

  lemma GraderExactly(expected: Json)
    ensures CheckExpected(expected).None? <==> ProperGrader(expected)
  {
    hide Get, BoundedString;
    assert |Lit("exact")| == 5 && |Lit("subset")| == 6 && |Lit("ordered_values")| == 14 && |Lit("error_code")| == 10;
    hide Lit;
  }

  lemma EvidenceExactly(v: Json)
    ensures CheckEvidence(v).None? <==> ProperEvidence(v)
  {
    hide Get, Lit, ValidArtifactRef;
    var refs := Get(v, Lit("source_refs"));
    if refs.Some? && refs.value.Arr? { assert NoItems(refs) <==> refs.value.items == []; }
  }

  lemma FieldsExactly(v: Json)
    ensures CheckFields(v).None? <==> ProperFields(v)
  {
    hide Get, Lit, BoundedString;
  }

  lemma DigestExactly(hash: Text -> Text, v: Json)
    ensures DigestAgrees(hash, v) <==> FreshDigest(hash, v)
  {
    hide Get, Lit, Canon, WithoutKey;
  }

  /** A case is valid exactly when its fields are proper, its grader has what it compares, the
      evidence for its status is there and its digest, if it has one, is fresh. */
  lemma ValidExactly(hash: Text -> Text, v: Json)
    ensures ValidCase(hash, v) <==>
            ProperFields(v) && ProperGrader(Get(v, Lit("expected")).value) && ProperEvidence(v) && FreshDigest(hash, v)
  {
    hide Get, Lit, ProperGrader, ProperEvidence, FreshDigest, CheckExpected, CheckEvidence, CheckFields, DigestAgrees, BoundedString;
    FieldsExactly(v);
    EvidenceExactly(v);
    DigestExactly(hash, v);
    if ProperFields(v) { GraderExactly(Get(v, Lit("expected")).value); }
  }

  /** A digest that is not that of the rest of the case is the one thing wrong with it: the error
      says so, and nothing else is refused for it. */
  lemma StaleDigest(hash: Text -> Text, v: Json)
    requires ProperFields(v) && ProperGrader(Get(v, Lit("expected")).value) && ProperEvidence(v)
    ensures ValidateEvalCase(hash, v) == if FreshDigest(hash, v) then None else Some(DigestMismatch)
  {
    hide Get, Lit, ProperGrader, ProperEvidence, FreshDigest, CheckExpected, CheckEvidence, CheckFields, DigestAgrees, BoundedString;
    FieldsExactly(v);
    EvidenceExactly(v);
    DigestExactly(hash, v);
    GraderExactly(Get(v, Lit("expected")).value);
  }
}
