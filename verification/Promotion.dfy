/** Promoting an evaluation candidate to an accepted case. */
module Promotion {
  import opened Utf16
  import opened Wrappers
  import opened KeySort
  import opened Json
  import opened JsonParser
  import opened TaskState
  import opened EvalCases
  import EffectKey

  function SetKey(v: Json, key: Text, x: Json): (r: Json)
    requires v.Obj?
    ensures r.Obj?
  {
    Obj(SetMember(v.members, key, x))
  }

  lemma GetSet(v: Json, key: Text, x: Json, k: Text)
    requires v.Obj?
    ensures Get(SetKey(v, key, x), k) == if k == key then Some(x) else Get(v, k)
  {
    LookupSet(v.members, key, x, k);
  }

  datatype PromotionError = Invalid(error: CaseError) | NotCandidate | BadVerification | BadAcceptedBy

  /** The accepted case before its digest is set. */
  function Undigested(c: Json, ref: Json, reviewer: Json, when: Json): (r: Json)
    requires c.Obj?
    ensures r.Obj?
  {
    SetKey(SetKey(SetKey(SetKey(c, Lit("status"), Str(Lit("ACCEPTED"))),
                         Lit("verification_ref"), ref), Lit("accepted_by"), reviewer), Lit("accepted_at"), when)
  }

  function Promoted(hash: Text -> Text, c: Json, ref: Json, reviewer: Json, when: Json): Json
    requires c.Obj?
  {
    var accepted := Undigested(c, ref, reviewer, when);
    SetKey(accepted, Lit("case_digest"), Str(EvalCaseDigest(hash, accepted)))
  }

  /** `acceptEvalCandidate`, with its final validation. */
  function AcceptEvalCandidate(hash: Text -> Text, c: Json, ref: Option<Json>, reviewer: Option<Json>, when: Json): Result<Json, PromotionError> {
    if ValidateEvalCase(hash, c).Some? then Err(Invalid(ValidateEvalCase(hash, c).value))
    else if Status(c) != Word("CANDIDATE") then Err(NotCandidate)
    else if !ValidArtifactRef(ref) then Err(BadVerification)
    else if !BoundedString(reviewer, 255) then Err(BadAcceptedBy)
    else
      FieldsObject(c);
      var accepted := Promoted(hash, c, ref.value, reviewer.value, when);
      if ValidateEvalCase(hash, accepted).Some? then Err(Invalid(ValidateEvalCase(hash, accepted).value)) else Ok(accepted)
  }

  /** The properties that promotion sets. */
  function SetByPromotion(): set<Text> {
    {Lit("status"), Lit("verification_ref"), Lit("accepted_by"), Lit("accepted_at"), Lit("case_digest")}
  }

  lemma KeysDiffer()
    ensures Lit("schema") !in SetByPromotion() && Lit("case_id") !in SetByPromotion()
    ensures Lit("capability") !in SetByPromotion() && Lit("input") !in SetByPromotion()
    ensures Lit("expected") !in SetByPromotion() && Lit("source_refs") !in SetByPromotion()
    ensures Lit("accepted_at") != Lit("case_digest")
    ensures Lit("accepted_by") != Lit("accepted_at") && Lit("accepted_by") != Lit("case_digest")
    ensures Lit("status") != Lit("verification_ref") && Lit("status") != Lit("accepted_by")
    ensures Lit("status") != Lit("accepted_at") && Lit("status") != Lit("case_digest")
    ensures Lit("verification_ref") != Lit("accepted_by")
    ensures Lit("verification_ref") != Lit("accepted_at") && Lit("verification_ref") != Lit("case_digest")
  {
    assert |Lit("schema")| == 6 && |Lit("case_id")| == 7 && |Lit("capability")| == 10 && |Lit("input")| == 5 && |Lit("expected")| == 8;
    assert Lit("schema")[1] == 99 && Lit("status")[1] == 116;
    assert Lit("source_refs")[0] == 115 && Lit("accepted_by")[0] == 97 && Lit("accepted_at")[0] == 97 && Lit("case_digest")[0] == 99;
    assert Lit("accepted_by")[9] == 98 && Lit("accepted_at")[9] == 97;
    assert |Lit("status")| == 6 && |Lit("verification_ref")| == 16 && |Lit("accepted_by")| == 11;
    assert |Lit("accepted_at")| == 11 && |Lit("case_digest")| == 11;
  }

  /** What promotion leaves of each property. */
  lemma GetPromoted(hash: Text -> Text, c: Json, ref: Json, reviewer: Json, when: Json, k: Text)
    requires c.Obj?
    ensures Get(Promoted(hash, c, ref, reviewer, when), k) ==
            if k == Lit("case_digest") then Some(Str(EvalCaseDigest(hash, Undigested(c, ref, reviewer, when))))
            else if k == Lit("accepted_at") then Some(when)
            else if k == Lit("accepted_by") then Some(reviewer)
            else if k == Lit("verification_ref") then Some(ref)
            else if k == Lit("status") then Some(Str(Lit("ACCEPTED")))
            else Get(c, k)
  {
    hide Get, Lit, EvalCaseDigest, SetMember;
    var a := SetKey(c, Lit("status"), Str(Lit("ACCEPTED")));
    var b := SetKey(a, Lit("verification_ref"), ref);
    var d := SetKey(b, Lit("accepted_by"), reviewer);
    var e := SetKey(d, Lit("accepted_at"), when);
    GetSet(c, Lit("status"), Str(Lit("ACCEPTED")), k);
    GetSet(a, Lit("verification_ref"), ref, k);
    GetSet(b, Lit("accepted_by"), reviewer, k);
    GetSet(d, Lit("accepted_at"), when, k);
    GetSet(e, Lit("case_digest"), Str(EvalCaseDigest(hash, e)), k);
  }

  lemma GetKept(hash: Text -> Text, c: Json, ref: Json, reviewer: Json, when: Json, k: Text)
    requires c.Obj? && k !in SetByPromotion()
    ensures Get(Promoted(hash, c, ref, reviewer, when), k) == Get(c, k)
  {
    GetPromoted(hash, c, ref, reviewer, when, k);
    hide Get, Lit, Promoted;
  }

  /** The three properties that promotion sets and validation reads. */
  lemma GetChanged(hash: Text -> Text, c: Json, ref: Json, reviewer: Json, when: Json)
    requires c.Obj?
    ensures var r := Promoted(hash, c, ref, reviewer, when);
            Get(r, Lit("status")) == Word("ACCEPTED") && Get(r, Lit("verification_ref")) == Some(ref) &&
            Get(r, Lit("accepted_by")) == Some(reviewer) && Get(r, Lit("accepted_at")) == Some(when)
  {
    hide Get, Lit, Promoted, SetByPromotion;
    KeysDiffer();
    GetPromoted(hash, c, ref, reviewer, when, Lit("status"));
    GetPromoted(hash, c, ref, reviewer, when, Lit("verification_ref"));
    GetPromoted(hash, c, ref, reviewer, when, Lit("accepted_by"));
    GetPromoted(hash, c, ref, reviewer, when, Lit("accepted_at"));
  }

  lemma PromotedFields(hash: Text -> Text, c: Json, ref: Json, reviewer: Json, when: Json)
    requires CheckFields(c).None?
    ensures CheckFields(Promoted(hash, c, ref, reviewer, when)).None?
    ensures Get(Promoted(hash, c, ref, reviewer, when), Lit("expected")) == Get(c, Lit("expected"))
    ensures SourceRefs(Promoted(hash, c, ref, reviewer, when)) == SourceRefs(c)
  {
    hide Get, Lit, Undigested, EvalCaseDigest, BoundedString, IsObject, SetByPromotion, SetKey;
    KeysDiffer();
    GetKept(hash, c, ref, reviewer, when, Lit("schema"));
    GetKept(hash, c, ref, reviewer, when, Lit("case_id"));
    GetKept(hash, c, ref, reviewer, when, Lit("capability"));
    GetChanged(hash, c, ref, reviewer, when);
    GetKept(hash, c, ref, reviewer, when, Lit("input"));
    GetKept(hash, c, ref, reviewer, when, Lit("expected"));
    GetKept(hash, c, ref, reviewer, when, Lit("source_refs"));
  }

  lemma PromotedEvidence(hash: Text -> Text, c: Json, ref: Json, reviewer: Json, when: Json)
    requires CheckFields(c).None? && CheckEvidence(c).None? && ValidArtifactRef(Some(ref)) && reviewer.Str?
    ensures CheckEvidence(Promoted(hash, c, ref, reviewer, when)).None?
  {
    hide Get, Lit, ValidArtifactRef, AllArtifactRefs, SourceRefs, CheckFields, Promoted;
    FieldsObject(c);
    PromotedFields(hash, c, ref, reviewer, when);
    StatusWords();
    GetChanged(hash, c, ref, reviewer, when);
  }

  lemma FieldsObject(c: Json)
    ensures CheckFields(c).None? ==> c.Obj?
  {
  }

  lemma StatusWords()
    ensures Lit("CANDIDATE") != Lit("ACCEPTED")
  {
    assert |Lit("CANDIDATE")| == 9 && |Lit("ACCEPTED")| == 8;
  }

  lemma PromotedDigest(hash: Text -> Text, c: Json, ref: Json, reviewer: Json, when: Json)
    requires c.Obj?
    ensures var r := Promoted(hash, c, ref, reviewer, when);
            Get(r, Lit("case_digest")) == Some(Str(EvalCaseDigest(hash, r))) && DigestAgrees(hash, r)
  {
    hide Get, Lit, SetMember, Undigested, Canon;
    var u := Undigested(c, ref, reviewer, when);
    GetPromoted(hash, c, ref, reviewer, when, Lit("case_digest"));
    WithoutSet(u.members, Lit("case_digest"), Str(EvalCaseDigest(hash, u)));
  }

  lemma PromotedValid(hash: Text -> Text, c: Json, ref: Json, reviewer: Json, when: Json)
    requires ValidCase(hash, c) && ValidArtifactRef(Some(ref)) && reviewer.Str?
    ensures c.Obj? && ValidCase(hash, Promoted(hash, c, ref, reviewer, when))
  {
    hide Get, Lit, CheckFields, CheckEvidence, CheckExpected, DigestAgrees, Promoted, ValidArtifactRef, SourceRefs;
    FieldsObject(c);
    PromotedFields(hash, c, ref, reviewer, when);
    PromotedEvidence(hash, c, ref, reviewer, when);
    PromotedDigest(hash, c, ref, reviewer, when);
  }

  /** Promotion succeeds exactly for a valid candidate with a valid reference and a named
      reviewer. The result is a valid accepted case that carries the digest of its own contents;
      every property that promotion does not set is kept. */
  lemma AcceptExactly(hash: Text -> Text, c: Json, ref: Option<Json>, reviewer: Option<Json>, when: Json)
    ensures var r := AcceptEvalCandidate(hash, c, ref, reviewer, when);
            (r.Ok? <==> ValidCase(hash, c) && Status(c) == Word("CANDIDATE") && ValidArtifactRef(ref) && BoundedString(reviewer, 255)) &&
            (r.Ok? ==> c.Obj? && r.value == Promoted(hash, c, ref.value, reviewer.value, when) &&
                       ValidCase(hash, r.value) && Status(r.value) == Word("ACCEPTED") &&
                       Get(r.value, Lit("verification_ref")) == ref && Get(r.value, Lit("accepted_by")) == reviewer &&
                       Get(r.value, Lit("accepted_at")) == Some(when) &&
                       Get(r.value, Lit("case_digest")) == Some(Str(EvalCaseDigest(hash, r.value))))
  {
    hide Get, Lit, ValidateEvalCase, ValidArtifactRef, Promoted, EvalCaseDigest;
    if ValidCase(hash, c) && Status(c) == Word("CANDIDATE") && ValidArtifactRef(ref) && BoundedString(reviewer, 255) {
      RefPresent(ref);
      PromotedValid(hash, c, ref.value, reviewer.value, when);
      PromotedDigest(hash, c, ref.value, reviewer.value, when);
      GetChanged(hash, c, ref.value, reviewer.value, when);
    }
  }

  lemma RefPresent(ref: Option<Json>)
    ensures ValidArtifactRef(ref) ==> ref.Some?
  {
  }

  /** Promotion keeps the case's identity and every property it does not set, and what it made
      cannot be promoted again. */
  lemma PromotionKeeps(hash: Text -> Text, c: Json, ref: Option<Json>, reviewer: Option<Json>, when: Json, k: Text)
    requires AcceptEvalCandidate(hash, c, ref, reviewer, when).Ok?
    ensures var r := AcceptEvalCandidate(hash, c, ref, reviewer, when).value;
            (k !in SetByPromotion() ==> Get(r, k) == Get(c, k)) && CaseId(r) == CaseId(c) &&
            (forall ref': Option<Json>, reviewer': Option<Json>, when': Json ::
               AcceptEvalCandidate(hash, r, ref', reviewer', when') == Err(NotCandidate))
  {
    hide Get, Lit, ValidateEvalCase, ValidArtifactRef, Promoted, EvalCaseDigest, SetByPromotion;
    AcceptExactly(hash, c, ref, reviewer, when);
    KeysDiffer();
    StatusWords();
    RefPresent(ref);
    GetKept(hash, c, ref.value, reviewer.value, when, Lit("case_id"));
    if k !in SetByPromotion() { GetKept(hash, c, ref.value, reviewer.value, when, k); }
  }

  lemma SamePrefix(p: Text, a: Text, b: Text)
    ensures p + a == p + b <==> a == b
  {
    if p + a == p + b {
      assert a == (p + a)[|p|..] && b == (p + b)[|p|..];
    }
  }

  /** The digest of a case is the identity of its contents: with a collision-free hash, two
      cases have the same digest exactly when they agree, up to key order, on everything but the
      stored digest. */
  lemma DigestBinds(hash: Text -> Text, v: Json, w: Json)
    requires EffectKey.CollisionFree(hash) && WF(v) && WF(w)
    ensures EvalCaseDigest(hash, v) == EvalCaseDigest(hash, w) <==>
            Equiv(WithoutKey(v, Lit("case_digest")), WithoutKey(w, Lit("case_digest")))
  {
    hide Lit, Canon, WithoutKey, Equiv, Normal, WF;
    var a, b := WithoutKey(v, Lit("case_digest")), WithoutKey(w, Lit("case_digest"));
    WithoutNormal(v, Lit("case_digest"));
    WithoutNormal(w, Lit("case_digest"));
    CanonInjective(a, b);
    SamePrefix(Lit("sha256:"), hash(Canon(a)), hash(Canon(b)));
  }
}
