/** The two ways an effect key is made: a digest of a canonical record, and a template string. */
module EffectKey {
  import opened Utf16
  import opened Wrappers
  import opened KeySort
  import opened Json
  import opened JsonParser
  import Temporal

  /** Two texts never have the same digest. */
  ghost predicate CollisionFree(hash: Text -> Text) {
    forall a: Text, b: Text :: hash(a) == hash(b) ==> a == b
  }

  function KeyRecord(taskId: Text, attemptId: Text, turnNo: nat, operation: Text, subject: Text): Json {
    Obj([Entry(Lit("task_id"), Str(taskId)), Entry(Lit("logical_attempt_id"), Str(attemptId)),
         Entry(Lit("turn_no"), Num(turnNo)), Entry(Lit("operation"), Str(operation)),
         Entry(Lit("subject_digest"), Str(subject))])
  }

  function MakeEffectKey(hash: Text -> Text, taskId: Text, attemptId: Text, turnNo: nat, operation: Text, subject: Text): Text {
    Lit("effect:v1:") + hash(Canon(KeyRecord(taskId, attemptId, turnNo, operation, subject)))
  }

  lemma KeyRecordWF(taskId: Text, attemptId: Text, turnNo: nat, operation: Text, subject: Text)
    ensures WF(KeyRecord(taskId, attemptId, turnNo, operation, subject))
  {
    var ms := KeyRecord(taskId, attemptId, turnNo, operation, subject).members;
    assert forall i :: 0 <= i < 5 ==> |ms[i].key| == [7, 18, 7, 9, 14][i];
    assert ms[0].key[1] != ms[2].key[1];
    MembersWF(ms);
  }

  /** The record names its five fields. */
  lemma KeyRecordFields(taskId: Text, attemptId: Text, turnNo: nat, operation: Text, subject: Text)
    ensures var r := KeyRecord(taskId, attemptId, turnNo, operation, subject);
            Get(r, Lit("task_id")) == Some(Str(taskId)) && Get(r, Lit("logical_attempt_id")) == Some(Str(attemptId)) &&
            Get(r, Lit("turn_no")) == Some(Num(turnNo)) && Get(r, Lit("operation")) == Some(Str(operation)) &&
            Get(r, Lit("subject_digest")) == Some(Str(subject)) && |r.members| == 5
  {
    KeyRecordWF(taskId, attemptId, turnNo, operation, subject);
    hide Lit, Lookup;
    var ms := KeyRecord(taskId, attemptId, turnNo, operation, subject).members;
    LookupEntry(ms, ms[0]);
    LookupEntry(ms, ms[1]);
    LookupEntry(ms, ms[2]);
    LookupEntry(ms, ms[3]);
    LookupEntry(ms, ms[4]);
  }

  lemma SameMember(ms: seq<Entry<Json>>, ns: seq<Entry<Json>>, i: nat)
    requires Equiv(Obj(ms), Obj(ns)) && DistinctKeys(ns) && i < |ms|
    requires ms[i].key == ns[i].key
    ensures Equiv(ms[i].value, ns[i].value)
  {
    LookupEntry(ns, ns[i]);
  }

  lemma SameFields(t1: Text, a1: Text, n1: nat, o1: Text, s1: Text, t2: Text, a2: Text, n2: nat, o2: Text, s2: Text)
    requires Equiv(KeyRecord(t1, a1, n1, o1, s1), KeyRecord(t2, a2, n2, o2, s2))
    ensures t1 == t2 && a1 == a2 && n1 == n2 && o1 == o2 && s1 == s2
  {
    KeyRecordWF(t2, a2, n2, o2, s2);
    hide Lit, Lookup;
    var ms, ns := KeyRecord(t1, a1, n1, o1, s1).members, KeyRecord(t2, a2, n2, o2, s2).members;
    SameMember(ms, ns, 0);
    SameMember(ms, ns, 1);
    SameMember(ms, ns, 2);
    SameMember(ms, ns, 3);
    SameMember(ms, ns, 4);
  }

  /** `makeEffectKey` gives different effects different keys. */
  lemma EffectKeyInjective(hash: Text -> Text, t1: Text, a1: Text, n1: nat, o1: Text, s1: Text,
                           t2: Text, a2: Text, n2: nat, o2: Text, s2: Text)
    requires CollisionFree(hash)
    ensures MakeEffectKey(hash, t1, a1, n1, o1, s1) == MakeEffectKey(hash, t2, a2, n2, o2, s2) <==>
            t1 == t2 && a1 == a2 && n1 == n2 && o1 == o2 && s1 == s2
  {
    KeyRecordWF(t1, a1, n1, o1, s1);
    KeyRecordWF(t2, a2, n2, o2, s2);
    var r1, r2 := KeyRecord(t1, a1, n1, o1, s1), KeyRecord(t2, a2, n2, o2, s2);
    var p := Lit("effect:v1:");
    hide KeyRecord, Lit, Canon, Equiv;
    if p + hash(Canon(r1)) == p + hash(Canon(r2)) {
      assert (p + hash(Canon(r1)))[|p|..] == hash(Canon(r1));
      assert (p + hash(Canon(r2)))[|p|..] == hash(Canon(r2));
      CanonInjective(r1, r2);
      SameFields(t1, a1, n1, o1, s1, t2, a2, n2, o2, s2);
    }
  }

  // ----- The key template of the Temporal workflow -----

  /** The part of the key that names the task and the attempt. */
  function Owner(taskId: Text, attemptId: Text): Text { taskId + [COLON] + attemptId }

  lemma AdoptKeyParts(taskId: Text, attemptId: Text, digest: Text)
    ensures Temporal.AdoptKey(taskId, attemptId, digest) ==
            Lit("adopt:") + (Owner(taskId, attemptId) + ([COLON] + digest))
  {
    assert Lit(":") == [COLON];
    hide Lit;
    Regroup(Lit("adopt:"), taskId, [COLON]);
    Regroup(Lit("adopt:"), taskId + [COLON], attemptId);
    Regroup(Lit("adopt:") + Owner(taskId, attemptId), [COLON], digest);
    Regroup(Lit("adopt:"), Owner(taskId, attemptId), [COLON] + digest);
  }

  lemma SamePrefixed(p: Text, x: Text, y: Text)
    requires p + x == p + y
    ensures x == y
  {
    assert x == (p + x)[|p|..] && y == (p + y)[|p|..];
  }

  lemma SameSuffixed(x: Text, d: Text, y: Text, e: Text)
    requires x + d == y + e && |d| == |e|
    ensures x == y && d == e
  {
    assert x == (x + d)[..|x|] && y == (y + e)[..|y|];
    assert d == (x + d)[|x|..] && e == (y + e)[|y|..];
  }

  /** For digests of one length, as all digests are, two keys of the template are equal exactly
      when the digests are and the ids are joined to the same text. */
  lemma AdoptKeyExactly(t1: Text, a1: Text, d1: Text, t2: Text, a2: Text, d2: Text)
    requires |d1| == |d2|
    ensures Temporal.AdoptKey(t1, a1, d1) == Temporal.AdoptKey(t2, a2, d2) <==>
            d1 == d2 && Owner(t1, a1) == Owner(t2, a2)
  {
    hide Lit, Owner, Temporal.AdoptKey;
    AdoptKeyParts(t1, a1, d1);
    AdoptKeyParts(t2, a2, d2);
    var x, y := Owner(t1, a1) + ([COLON] + d1), Owner(t2, a2) + ([COLON] + d2);
    if Lit("adopt:") + x == Lit("adopt:") + y {
      SamePrefixed(Lit("adopt:"), x, y);
      SameSuffixed(Owner(t1, a1), [COLON] + d1, Owner(t2, a2), [COLON] + d2);
      SamePrefixed([COLON], d1, d2);
    }
  }

  lemma NoColonInside(taskId: Text, attemptId: Text)
    requires COLON !in taskId
    ensures forall i :: 0 <= i < |taskId| ==> Owner(taskId, attemptId)[i] != COLON
    ensures Owner(taskId, attemptId)[|taskId|] == COLON
  {
    forall i | 0 <= i < |taskId| ensures Owner(taskId, attemptId)[i] != COLON {
      assert taskId[i] in taskId;
    }
  }

  /** Joined ids fall apart again when the task ids have no colon. */
  lemma OwnerSplits(t1: Text, a1: Text, t2: Text, a2: Text)
    requires COLON !in t1 && COLON !in t2 && Owner(t1, a1) == Owner(t2, a2)
    ensures t1 == t2 && a1 == a2
  {
    var x := Owner(t1, a1);
    assert x[|t1|] == COLON && x[|t2|] == COLON;
    NoColonInside(t1, a1);
    NoColonInside(t2, a2);
    assert t1 == x[..|t1|] && t2 == x[..|t2|];
    assert a1 == x[|t1| + 1..] && a2 == x[|t2| + 1..];
  }

  /** Between task ids without a colon the template is as good as the digest. */
  lemma AdoptKeyInjective(t1: Text, a1: Text, d1: Text, t2: Text, a2: Text, d2: Text)
    requires COLON !in t1 && COLON !in t2 && |d1| == |d2|
    ensures Temporal.AdoptKey(t1, a1, d1) == Temporal.AdoptKey(t2, a2, d2) <==> t1 == t2 && a1 == a2 && d1 == d2
  {
    hide Temporal.AdoptKey, Owner;
    AdoptKeyExactly(t1, a1, d1, t2, a2, d2);
    if Owner(t1, a1) == Owner(t2, a2) { OwnerSplits(t1, a1, t2, a2); }
  }

  /** What an id can be: `assertTask` asks for one code unit, `validateTaskCapsule` for no more
      than 256 either. */
  predicate Id(t: Text, max: nat) { 0 < |t| <= max }

  /** Another pair of ids that gets the same key. */
  predicate SharesKey(taskId: Text, attemptId: Text, t: Text, a: Text, digest: Text) {
    (t != taskId || a != attemptId) && Temporal.AdoptKey(t, a, digest) == Temporal.AdoptKey(taskId, attemptId, digest)
  }

  /** Another colon of the joined ids stands at `p`, with an id on each side. */
  predicate OtherColon(taskId: Text, attemptId: Text, p: nat, max: nat) {
    var x := Owner(taskId, attemptId);
    p < |x| && x[p] == COLON && p != |taskId| && Id(x[..p], max) && Id(x[p + 1..], max)
  }

  /** A pair of ids that joins to a text is a place of a colon in it. */
  lemma OwnerIsPlace(x: Text, t: Text, a: Text)
    ensures Owner(t, a) == x <==> |t| < |x| && x[|t|] == COLON && t == x[..|t|] && a == x[|t| + 1..]
  {
    var y := Owner(t, a);
    assert y[|t|] == COLON && y[..|t|] == t && y[|t| + 1..] == a;
    if |t| < |x| && x[|t|] == COLON { assert x == x[..|t|] + [COLON] + x[|t| + 1..]; }
  }

  /** For ids of at most `max` code units: another pair of ids shares the key exactly when the
      joined ids have another colon with an id on each side. */
  lemma SharedExactly(taskId: Text, attemptId: Text, digest: Text, max: nat)
    ensures (exists t: Text, a: Text :: Id(t, max) && Id(a, max) && SharesKey(taskId, attemptId, t, a, digest)) <==>
            exists p: nat :: OtherColon(taskId, attemptId, p, max)
  {
    hide Temporal.AdoptKey, Owner;
    var x := Owner(taskId, attemptId);
    OwnerIsPlace(x, taskId, attemptId);
    if p: nat :| OtherColon(taskId, attemptId, p, max) {
      OwnerIsPlace(x, x[..p], x[p + 1..]);
      AdoptKeyExactly(x[..p], x[p + 1..], digest, taskId, attemptId, digest);
      assert |x[..p]| == p;
      assert SharesKey(taskId, attemptId, x[..p], x[p + 1..], digest);
    }
    if t: Text, a: Text :| Id(t, max) && Id(a, max) && SharesKey(taskId, attemptId, t, a, digest) {
      AdoptKeyExactly(t, a, digest, taskId, attemptId, digest);
      OwnerIsPlace(x, t, a);
      assert OtherColon(taskId, attemptId, |t|, max);
    }
  }

  /** Without the length bound, the other colon is inside one of the ids. */
  lemma OtherColonInside(taskId: Text, attemptId: Text)
    requires taskId != [] && attemptId != []
    ensures (exists p: nat :: OtherColon(taskId, attemptId, p, |Owner(taskId, attemptId)|)) <==>
            COLON in taskId[1..] || COLON in attemptId[..|attemptId| - 1]
  {
    var x := Owner(taskId, attemptId);
    var n := |taskId|;
    assert forall i :: 0 <= i < n ==> x[i] == taskId[i];
    assert forall i :: 0 <= i < |attemptId| ==> x[n + 1 + i] == attemptId[i];
    if COLON in taskId[1..] {
      var i :| 0 <= i < |taskId[1..]| && taskId[1..][i] == COLON;
      assert OtherColon(taskId, attemptId, i + 1, |x|);
    }
    if COLON in attemptId[..|attemptId| - 1] {
      var i :| 0 <= i < |attemptId| - 1 && attemptId[..|attemptId| - 1][i] == COLON;
      assert OtherColon(taskId, attemptId, n + 1 + i, |x|);
    }
    if p: nat :| OtherColon(taskId, attemptId, p, |x|) {
      if p < n { assert taskId[1..][p - 1] == COLON; } else { assert attemptId[..|attemptId| - 1][p - n - 1] == COLON; }
    }
  }

  /** The template is ambiguous, and a caller can tell when. Another pair of ids that `assertTask`
      takes shares the key exactly when the task id has a colon after its first code unit, or the
      attempt id has one before its last. */
  lemma AdoptKeyAmbiguous(taskId: Text, attemptId: Text, digest: Text)
    requires taskId != [] && attemptId != []
    ensures (exists t: Text, a: Text :: t != [] && a != [] && SharesKey(taskId, attemptId, t, a, digest)) <==>
            COLON in taskId[1..] || COLON in attemptId[..|attemptId| - 1]
  {
    hide Temporal.AdoptKey, Owner, OtherColon;
    var max := |Owner(taskId, attemptId)|;
    SharedExactly(taskId, attemptId, digest, max);
    OtherColonInside(taskId, attemptId);
    forall t: Text, a: Text | t != [] && a != [] && SharesKey(taskId, attemptId, t, a, digest)
      ensures Id(t, max) && Id(a, max)
    {
      AdoptKeyExactly(t, a, digest, taskId, attemptId, digest);
      OwnerLength(t, a);
    }
    forall t: Text, a: Text | Id(t, max) && Id(a, max) ensures t != [] && a != [] {}
  }

  lemma OwnerLength(t: Text, a: Text)
    ensures |Owner(t, a)| == |t| + 1 + |a|
  {
  }

  lemma PlaceInTask(taskId: Text, attemptId: Text, i: nat)
    requires i < |taskId|
    ensures OtherColon(taskId, attemptId, i, 256) <==>
            1 <= i <= 256 && taskId[i] == COLON && 0 < |taskId| - i + |attemptId| <= 256
  {
    var x := Owner(taskId, attemptId);
    assert x[i] == taskId[i];
  }

  lemma PlaceInAttempt(taskId: Text, attemptId: Text, j: nat)
    requires j < |attemptId|
    ensures OtherColon(taskId, attemptId, |taskId| + 1 + j, 256) <==>
            j < |attemptId| - 1 <= 256 + j && attemptId[j] == COLON && |taskId| + 1 + j <= 256
  {
    var x := Owner(taskId, attemptId);
    assert x[|taskId| + 1 + j] == attemptId[j];
  }

  lemma NoOtherPlace(taskId: Text, attemptId: Text, p: nat)
    requires OtherColon(taskId, attemptId, p, 256)
    ensures p < |taskId| || |taskId| < p < |taskId| + 1 + |attemptId|
  {
  }

  /** The same for the ids of a valid capsule, which have at most 256 code units. */
  lemma CapsuleKeyAmbiguous(taskId: Text, attemptId: Text, digest: Text)
    requires Id(taskId, 256) && Id(attemptId, 256)
    ensures (exists t: Text, a: Text :: Id(t, 256) && Id(a, 256) && SharesKey(taskId, attemptId, t, a, digest)) <==>
            (exists i: nat :: 1 <= i < |taskId| && taskId[i] == COLON && |taskId| - i + |attemptId| <= 256) ||
            (exists j: nat :: j < |attemptId| - 1 && attemptId[j] == COLON && |taskId| + 1 + j <= 256)
  {
    hide SharesKey, OtherColon, Owner;
    SharedExactly(taskId, attemptId, digest, 256);
    if i: nat :| 1 <= i < |taskId| && taskId[i] == COLON && |taskId| - i + |attemptId| <= 256 {
      PlaceInTask(taskId, attemptId, i);
    }
    if j: nat :| j < |attemptId| - 1 && attemptId[j] == COLON && |taskId| + 1 + j <= 256 {
      PlaceInAttempt(taskId, attemptId, j);
    }
    if p: nat :| OtherColon(taskId, attemptId, p, 256) {
      NoOtherPlace(taskId, attemptId, p);
      if p < |taskId| { PlaceInTask(taskId, attemptId, p); } else { PlaceInAttempt(taskId, attemptId, p - |taskId| - 1); }
    }
  }
}
