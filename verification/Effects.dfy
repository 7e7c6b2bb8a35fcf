/** The effect ledger: a record fenced by a generation number that every takeover raises. */
module Effects {
  import opened Utf16
  import opened Wrappers
  import opened TaskState

  datatype Status = STARTED | SUCCEEDED | FAILED_EFFECT

  datatype EffectRecord = EffectRecord(
    effectKey: Text, subject: Text, owner: Text, generation: int, status: Status,
    result: Option<Text>, failureCode: Option<Text>, replay: bool)

  datatype EffectError = InvalidField | EffectConflict | EffectBusy | StaleFence

  /** `validateEffectRecord` does not throw. */
  predicate ValidRecord(r: EffectRecord) {
    r.effectKey != [] && IsDigest(r.subject) && r.owner != [] &&
    1 <= r.generation <= MAX_SAFE_INTEGER && (r.result.Some? ==> IsDigest(r.result.value))
  }

  datatype ClaimRequest = ClaimRequest(effectKey: Text, subject: Text, owner: Text, takeover: bool)

  predicate ValidRequest(q: ClaimRequest) { q.effectKey != [] && IsDigest(q.subject) && q.owner != [] }

  function ClaimEffect(existing: Option<EffectRecord>, q: ClaimRequest): Result<EffectRecord, EffectError> {
    if !ValidRequest(q) then Err(InvalidField)
    else if existing.None? then
      Ok(EffectRecord(q.effectKey, q.subject, q.owner, 1, STARTED, None, None, false))
    else
      var current := existing.value;
      if !ValidRecord(current) then Err(InvalidField)
      else if current.effectKey != q.effectKey || current.subject != q.subject then Err(EffectConflict)
      else if current.status == SUCCEEDED then Ok(current.(replay := true))
      else if current.owner == q.owner then Ok(current.(replay := true))
      else if !q.takeover then Err(EffectBusy)
      else Ok(current.(owner := q.owner, generation := current.generation + 1, status := STARTED,
                       result := None, replay := false))
  }

  /** The fence a worker holds: what `claimEffect` gave it. */
  datatype Token = Token(owner: Text, generation: int)

  function CompleteEffect(existing: EffectRecord, t: Token, result: Text): Result<EffectRecord, EffectError> {
    if !ValidRecord(existing) || t.owner == [] || !IsDigest(result) || !(1 <= t.generation <= MAX_SAFE_INTEGER)
    then Err(InvalidField)
    else if existing.status == SUCCEEDED then
      if existing.result != Some(result) then Err(EffectConflict) else Ok(existing.(replay := true))
    else if existing.owner != t.owner || existing.generation != t.generation then Err(StaleFence)
    else Ok(existing.(status := SUCCEEDED, result := Some(result), replay := false))
  }

  function FailEffect(existing: EffectRecord, t: Token, code: Option<Text>): Result<EffectRecord, EffectError> {
    if !ValidRecord(existing) then Err(InvalidField)
    else if existing.owner != t.owner || existing.generation != t.generation then Err(StaleFence)
    else Ok(existing.(status := FAILED_EFFECT, failureCode := Some(if code.Some? then code.value else Lit("UNKNOWN")),
                      replay := false))
  }

  // ----- When each call answers what -----

  /** A request about another effect than the record's. */
  predicate OtherEffect(r: EffectRecord, q: ClaimRequest) { r.effectKey != q.effectKey || r.subject != q.subject }

  /** Another owner has it, and has not succeeded. */
  predicate HeldByOther(r: EffectRecord, q: ClaimRequest) { r.status != SUCCEEDED && r.owner != q.owner }

  /** A claim is malformed, in conflict, busy, a replay, or a takeover; which one, is told by the
      record and the request. */
  lemma ClaimExactly(existing: Option<EffectRecord>, q: ClaimRequest)
    ensures var r := ClaimEffect(existing, q);
            (r == Err(InvalidField) <==>
               q.effectKey == [] || q.owner == [] || !IsDigest(q.subject) ||
               (existing.Some? &&
                var e := existing.value;
                e.effectKey == [] || e.owner == [] || !IsDigest(e.subject) || !(1 <= e.generation <= 0x1F_FFFF_FFFF_FFFF) ||
                (e.result.Some? && !IsDigest(e.result.value)))) &&
            (r == Err(EffectConflict) <==>
               ValidRequest(q) && existing.Some? && ValidRecord(existing.value) && OtherEffect(existing.value, q)) &&
            (r == Err(EffectBusy) <==>
               ValidRequest(q) && existing.Some? && ValidRecord(existing.value) && !OtherEffect(existing.value, q) &&
               HeldByOther(existing.value, q) && !q.takeover) &&
            r != Err(StaleFence)
    ensures var r := ClaimEffect(existing, q);
            r.Ok? ==>
              r.value.effectKey == q.effectKey && r.value.subject == q.subject && r.value.replay == (r.value.generation ==
                (if existing.Some? then existing.value.generation else 0)) &&
              match existing
              case None =>
                r.value.owner == q.owner && r.value.generation == 1 && r.value.status == STARTED && r.value.result == None
              case Some(e) =>
                if HeldByOther(e, q) then
                  q.takeover && r.value.owner == q.owner && r.value.generation == e.generation + 1 &&
                  r.value.status == STARTED && r.value.result == None
                else r.value == e.(replay := true)
  {
    hide IsDigest;
  }

  /** A completion is malformed, in conflict with the recorded result, stale, a replay, or a
      success with the given result. */
  lemma CompleteExactly(e: EffectRecord, t: Token, result: Text)
    requires ValidRecord(e) && t.owner != [] && IsDigest(result) && 1 <= t.generation <= MAX_SAFE_INTEGER
    ensures var r := CompleteEffect(e, t, result);
            (r == Err(EffectConflict) <==> e.status == SUCCEEDED && e.result != Some(result)) &&
            (r == Err(StaleFence) <==> e.status != SUCCEEDED && t != Token(e.owner, e.generation)) &&
            (r.Ok? <==> (e.status == SUCCEEDED && e.result == Some(result)) ||
                        (e.status != SUCCEEDED && t == Token(e.owner, e.generation))) &&
            (r.Ok? ==> r.value.status == SUCCEEDED && r.value.result == Some(result) &&
                       r.value.replay == (e.status == SUCCEEDED) && r.value.owner == e.owner && r.value.generation == e.generation &&
                       r.value.effectKey == e.effectKey && r.value.subject == e.subject)
  {
    hide IsDigest;
  }

  /** What is malformed for a completion. */
  lemma CompleteRefuses(e: EffectRecord, t: Token, result: Text)
    ensures CompleteEffect(e, t, result) == Err(InvalidField) <==>
            !(ValidRecord(e) && t.owner != [] && IsDigest(result) && 1 <= t.generation <= MAX_SAFE_INTEGER)
  {
    hide IsDigest;
  }

  /** A failure is malformed, stale, or recorded with its code. */
  lemma FailExactly(e: EffectRecord, t: Token, code: Option<Text>)
    ensures var r := FailEffect(e, t, code);
            (r == Err(InvalidField) <==> !ValidRecord(e)) &&
            (r == Err(StaleFence) <==> ValidRecord(e) && t != Token(e.owner, e.generation)) &&
            (r.Ok? <==> ValidRecord(e) && t == Token(e.owner, e.generation)) &&
            (r.Ok? ==> r.value.status == FAILED_EFFECT && !r.value.replay &&
                       r.value.failureCode == (match code case Some(c) => Some(c) case None => Some(Lit("UNKNOWN"))) &&
                       r.value.owner == e.owner && r.value.generation == e.generation && r.value.result == e.result &&
                       r.value.effectKey == e.effectKey && r.value.subject == e.subject)
  {
    hide IsDigest, Lit;
  }

  // ----- Runs of the ledger by any number of owners -----

  datatype Op =
    | Claim(request: ClaimRequest)
    | Complete(token: Token, result: Text)
    | Fail(token: Token, code: Option<Text>)

  type Ledger = Option<EffectRecord>

  function Outcome(s: Ledger, op: Op): Result<EffectRecord, EffectError> {
    match op
    case Claim(q) => ClaimEffect(s, q)
    case Complete(t, d) => if s.None? then Err(InvalidField) else CompleteEffect(s.value, t, d)
    case Fail(t, c) => if s.None? then Err(InvalidField) else FailEffect(s.value, t, c)
  }

  /** A call that throws writes nothing. */
  function Apply(s: Ledger, op: Op): Ledger {
    match Outcome(s, op)
    case Ok(r) => Some(r)
    case Err(_) => s
  }

  function Exec(s: Ledger, ops: seq<Op>): Ledger
    decreases ops
  {
    if ops == [] then s else Exec(Apply(s, ops[0]), ops[1..])
  }

  /** The order of fences: a later record never has an older generation, keeps the identity of
      the effect, and has the same owner when it has the same generation. */
  predicate Fenced(s: Ledger, s': Ledger) {
    s.None? ||
    (s'.Some? && s'.value.effectKey == s.value.effectKey && s'.value.subject == s.value.subject &&
     s.value.generation <= s'.value.generation &&
     (s.value.generation == s'.value.generation ==> s.value.owner == s'.value.owner))
  }

  lemma StepFenced(s: Ledger, op: Op)
    ensures Fenced(s, Apply(s, op))
    ensures s.Some? ==> Apply(s, op).value.generation <= s.value.generation + 1
  {
  }

  /** Over every run, generations never go back and the fence order holds. */
  lemma {:induction false} RunFenced(s: Ledger, ops: seq<Op>)
    ensures Fenced(s, Exec(s, ops))
    decreases ops
  {
    if ops != [] {
      StepFenced(s, ops[0]);
      RunFenced(Apply(s, ops[0]), ops[1..]);
    }
  }

  lemma {:induction false} ExecAppend(s: Ledger, xs: seq<Op>, ys: seq<Op>)
    ensures Exec(s, xs + ys) == Exec(Exec(s, xs), ys)
    decreases xs
  {
    if xs == [] {
      assert xs + ys == ys;
    } else {
      assert (xs + ys)[1..] == xs[1..] + ys;
      ExecAppend(Apply(s, xs[0]), xs[1..], ys);
    }
  }

  /** Each generation has one owner ever: two moments of a run with the same generation have
      the same owner. */
  lemma OneOwnerPerGeneration(s: Ledger, ops: seq<Op>, i: nat, j: nat)
    requires i <= j <= |ops|
    requires Exec(s, ops[..i]).Some? && Exec(s, ops[..j]).Some?
    requires Exec(s, ops[..i]).value.generation == Exec(s, ops[..j]).value.generation
    ensures Exec(s, ops[..i]).value.owner == Exec(s, ops[..j]).value.owner
  {
    assert ops[..j] == ops[..i] + ops[i..j];
    ExecAppend(s, ops[..i], ops[i..j]);
    RunFenced(Exec(s, ops[..i]), ops[i..j]);
  }

  /** The same record, except for the flag that says the answer was replayed. */
  predicate SameRecord(s: Ledger, s': Ledger) {
    s.Some? && s'.Some? && s'.value == s.value.(replay := s'.value.replay)
  }

  /** A token of an older generation than the record's can never change the record again,
      whatever runs in between. */
  lemma StaleTokenIsPowerless(s: Ledger, ops: seq<Op>, t: Token, result: Text, code: Option<Text>)
    requires s.Some? && t.generation < s.value.generation
    ensures var later := Exec(s, ops);
            SameRecord(later, Apply(later, Complete(t, result))) && Apply(later, Fail(t, code)) == later
  {
    RunFenced(s, ops);
  }

  /** A takeover makes the token it displaces stale. */
  lemma TakeoverFences(s: Ledger, q: ClaimRequest, ops: seq<Op>, result: Text, code: Option<Text>)
    requires s.Some? && Outcome(s, Claim(q)).Ok? && Outcome(s, Claim(q)).value.owner != s.value.owner
    ensures var t := Token(s.value.owner, s.value.generation);
            var later := Exec(Apply(s, Claim(q)), ops);
            SameRecord(later, Apply(later, Complete(t, result))) && Apply(later, Fail(t, code)) == later
  {
    StaleTokenIsPowerless(Apply(s, Claim(q)), ops, Token(s.value.owner, s.value.generation), result, code);
  }

  /** A claim that takes a record over: asked to, of the same effect, before it has succeeded. */
  predicate TakesOver(s: Ledger, op: Op, owner: Text) {
    s.Some? && op.Claim? && op.request.takeover && op.request.owner == owner &&
    op.request.effectKey == s.value.effectKey && op.request.subject == s.value.subject && s.value.status != SUCCEEDED
  }

  lemma OwnerStep(s: Ledger, op: Op)
    requires s.Some?
    ensures Apply(s, op).Some?
    ensures Apply(s, op).value.owner != s.value.owner ==> TakesOver(s, op, Apply(s, op).value.owner)
    ensures Apply(s, op).value.generation != s.value.generation ==> TakesOver(s, op, Apply(s, op).value.owner)
  {
    hide IsDigest;
  }

  /** Over every run, an owner is displaced only by a call that asked to take the effect over, and
      the last owner is one who did. */
  lemma {:induction false} OwnerChangesByTakeover(s: Ledger, ops: seq<Op>)
    requires s.Some?
    ensures Exec(s, ops).Some?
    ensures Exec(s, ops).value.owner != s.value.owner ==>
              exists i :: 0 <= i < |ops| && TakesOver(Exec(s, ops[..i]), ops[i], Exec(s, ops).value.owner)
    decreases ops
  {
    hide Apply, TakesOver;
    if ops != [] {
      var s', rest := Apply(s, ops[0]), ops[1..];
      OwnerStep(s, ops[0]);
      OwnerChangesByTakeover(s', rest);
      var owner := Exec(s, ops).value.owner;
      if s'.value.owner != owner {
        var i :| 0 <= i < |rest| && TakesOver(Exec(s', rest[..i]), rest[i], owner);
        assert ops[..i + 1][1..] == rest[..i];
        assert Exec(s, ops[..i + 1]) == Exec(s', rest[..i]);
        assert TakesOver(Exec(s, ops[..i + 1]), ops[i + 1], owner);
      } else if s.value.owner != owner {
        assert Exec(s, ops[..0]) == s;
        assert TakesOver(Exec(s, ops[..0]), ops[0], owner);
      }
    }
  }

  // ----- Success -----

  /** The one call that `failEffect` lets through on a succeeded record. */
  predicate FailsSuccess(s: Ledger, op: Op) {
    s.Some? && s.value.status == SUCCEEDED && op.Fail? && ValidRecord(s.value) &&
    op.token == Token(s.value.owner, s.value.generation)
  }

  /** A step keeps a success, digest included, exactly when it is not `failEffect` with the
      winning token. */
  lemma SuccessKept(s: Ledger, op: Op)
    requires s.Some? && s.value.status == SUCCEEDED
    ensures SameRecord(s, Apply(s, op)) <==> !FailsSuccess(s, op)
  {
  }

  predicate NeverFailsSuccess(s: Ledger, ops: seq<Op>)
    decreases ops
  {
    ops == [] || (!FailsSuccess(s, ops[0]) && NeverFailsSuccess(Apply(s, ops[0]), ops[1..]))
  }

  /** After success the result is permanent, and every later claim or completion of a valid
      request replays it or throws. */
  lemma {:induction false} SuccessIsPermanent(s: Ledger, ops: seq<Op>)
    requires s.Some? && s.value.status == SUCCEEDED && NeverFailsSuccess(s, ops)
    ensures SameRecord(s, Exec(s, ops))
    ensures forall op: Op :: !op.Fail? && Outcome(Exec(s, ops), op).Ok? ==>
              Outcome(Exec(s, ops), op).value == s.value.(replay := true)
    decreases ops
  {
    if ops != [] {
      SuccessKept(s, ops[0]);
      SuccessIsPermanent(Apply(s, ops[0]), ops[1..]);
    }
  }

  lemma ExecTwo(s: Ledger, a: Op, b: Op)
    ensures Exec(s, [a, b]) == Apply(Apply(s, a), b)
  {
    assert [a, b][1..] == [b] && [b][1..] == [];
    assert Exec(Apply(s, a), [b]) == Exec(Apply(Apply(s, a), b), []);
    hide Apply;
  }

  /** Without that condition it is not: the winner fails its own success and completes again
      with another result. */
  lemma FailReopensSuccess(q: ClaimRequest, first: Text, second: Text)
    requires ValidRequest(q) && IsDigest(first) && IsDigest(second)
    ensures var t := Token(q.owner, 1);
            var won := Exec(None, [Claim(q), Complete(t, first)]);
            won.Some? && won.value.status == SUCCEEDED && won.value.result == Some(first) &&
            var again := Exec(won, [Fail(t, None), Complete(t, second)]);
            again.Some? && again.value.result == Some(second)
  {
    var t := Token(q.owner, 1);
    ExecTwo(None, Claim(q), Complete(t, first));
    ExecTwo(Exec(None, [Claim(q), Complete(t, first)]), Fail(t, None), Complete(t, second));
    hide Exec, IsDigest;
  }
}
