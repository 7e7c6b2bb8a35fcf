/** The two backends do not accept the same context deltas: from one and the same waiting run
    Temporal goes on to the merge and Vercel turns the delta away. */
module DeltaGap {
  import opened Utf16
  import opened Wrappers
  import opened KeySort
  import opened Json
  import opened TaskState
  import opened WorkflowIds
  import opened Environment
  import opened Protocol
  import opened Equivalence
  import T = Temporal
  import V = Vercel

  /** The request the agent makes. */
  function Need(): Json { Obj([Entry(Lit("request_id"), Str(Lit("r")))]) }

  /** A reference with no media type and no size. */
  function BareRef(digest: Json): Json {
    Obj([Entry(Lit("digest"), digest), Entry(Lit("uri"), Str(Lit("u")))])
  }

  /** The answer to the request, with a bare reference. */
  function LooseMembers(taskId: Text, attemptId: Text, digest: Json): seq<Entry<Json>> {
    [Entry(Lit("task_id"), Str(taskId)), Entry(Lit("logical_attempt_id"), Str(attemptId)),
     Entry(Lit("request_id"), Str(Lit("r"))), Entry(Lit("expected_seq"), Num(0)),
     Entry(Lit("delta_id"), Str(Lit("d"))), Entry(Lit("delta_ref"), BareRef(digest))]
  }

  function LooseDelta(taskId: Text, attemptId: Text, digest: Json): Json { Obj(LooseMembers(taskId, attemptId, digest)) }

  lemma LooseKeys(taskId: Text, attemptId: Text, digest: Json)
    ensures DistinctKeys(LooseMembers(taskId, attemptId, digest))
    ensures DistinctKeys(BareRef(digest).members)
    ensures forall i :: 0 <= i < 2 ==> BareRef(digest).members[i].key != Lit("media_type")
  {
    assert |Lit("task_id")| == 7 && |Lit("logical_attempt_id")| == 18 && |Lit("expected_seq")| == 12;
    assert |Lit("delta_id")| == 8 && |Lit("delta_ref")| == 9 && |Lit("request_id")| == 10;
    assert |Lit("digest")| == 6 && |Lit("uri")| == 3 && |Lit("media_type")| == 10;
  }

  lemma LooseFields(taskId: Text, attemptId: Text, digest: Json)
    ensures var d := LooseDelta(taskId, attemptId, digest);
            Get(d, Lit("task_id")) == Some(Str(taskId)) && Get(d, Lit("logical_attempt_id")) == Some(Str(attemptId)) &&
            Get(d, Lit("request_id")) == Some(Str(Lit("r"))) && Get(d, Lit("expected_seq")) == Some(Num(0)) &&
            Get(d, Lit("delta_id")) == Some(Str(Lit("d"))) && Get(d, Lit("delta_ref")) == Some(BareRef(digest))
  {
    hide Lit, Lookup, BareRef;
    LooseKeys(taskId, attemptId, digest);
    var ms := LooseMembers(taskId, attemptId, digest);
    LookupEntry(ms, ms[0]);
    LookupEntry(ms, ms[1]);
    LookupEntry(ms, ms[2]);
    LookupEntry(ms, ms[3]);
    LookupEntry(ms, ms[4]);
    LookupEntry(ms, ms[5]);
  }

  lemma BareFields(digest: Json)
    ensures var ref := BareRef(digest);
            Get(ref, Lit("digest")) == Some(digest) && Get(ref, Lit("uri")) == Some(Str(Lit("u"))) &&
            Get(ref, Lit("media_type")) == None
  {
    hide Lit, Lookup;
    LooseKeys([], [], digest);
    var ms := BareRef(digest).members;
    LookupEntry(ms, ms[0]);
    LookupEntry(ms, ms[1]);
  }

  lemma NeedFields()
    ensures RequestId(Some(Need())) == Some(Str(Lit("r"))) && !Falsy(Need())
  {
    hide Lit;
    LookupEntry(Need().members, Need().members[0]);
  }

  lemma OneUnit(t: Text)
    requires |t| == 1 && !HighSurrogate(t[0]) && !LowSurrogate(t[0])
    ensures Encodable(t)
  {
    forall i | 0 <= i < |t| ensures !HighSurrogate(t[i]) && !LowSurrogate(t[i]) {}
  }

  lemma ShortWords()
    ensures |Lit("r")| == 1 && |Lit("u")| == 1 && |Lit("d")| == 1 && Encodable(Lit("r"))
  {
    OneUnit(Lit("r"));
  }

  /** The two checks of the delta. */
  lemma LooseVerdicts(taskId: Text, attemptId: Text, digest: Json)
    requires 0 < |taskId| <= 256 && 0 < |attemptId| <= 256
    requires TestsAsDigest(digest) && !digest.Null?
    ensures var c := DeltaContext(INPUT_REQUIRED, taskId, attemptId, Some(Need()), 0, []);
            var d := LooseDelta(taskId, attemptId, digest);
            AssertDeltaAllowed(c, d) == None && ValidateContextDelta(c, d) == Some(INVALID_ARTIFACT_REF)
  {
    hide Get, LooseMembers, BareRef, Need, TestsAsDigest, Lit;
    LooseFields(taskId, attemptId, digest);
    BareFields(digest);
    NeedFields();
    ShortWords();
  }

  lemma NeedHasToken(taskId: Text, attemptId: Text)
    requires 0 < |taskId| <= 256 && 0 < |attemptId| <= 256 && Encodable(taskId) && Encodable(attemptId)
    ensures HookToken(taskId, attemptId, Some(Need()))
  {
    hide Get, Need, Lit, Encodable;
    NeedFields();
    ShortWords();
  }

  /** Both runs after the context is compiled and the agent has asked for more. */
  function WaitingTemporal(task: Json, compiled: Json): T.Workflow {
    TemporalStep(TemporalStep(T.OnResume(T.Submitted(task)), Compiled(compiled)), TurnEnded(InputRequired(Some(Need()), None)))
  }

  function WaitingVercel(task: Json, runId: Text, compiled: Json): V.Running
    requires ValidTaskCapsule(task)
  {
    VercelStep(VercelStep(V.Started(V.InitialSnapshot(task, runId).value), Compiled(compiled)),
               TurnEnded(InputRequired(Some(Need()), None)))
  }

  function Request(compiled: Json): V.OneRequest {
    V.OneRequest(compiled, Need(), Null, Null, Null, Null, Null, Null, Null)
  }

  /** They stand at the same await. */
  lemma BothWait(task: Json, runId: Text, compiled: Json)
    requires V.Admitted(task) && AssertedTask(task) && Encodable(StringField(task, Lit("logical_attempt_id")))
    ensures var s := V.InitialSnapshot(task, runId).value;
            var w, v := WaitingTemporal(task, compiled), WaitingVercel(task, runId, compiled);
            Matched(w, v) && v.pc.InHook? && 0 < |s.taskId| <= 256 && 0 < |s.attemptId| <= 256 &&
            V.DeltaContextOf(v.snap) == DeltaContext(INPUT_REQUIRED, s.taskId, s.attemptId, Some(Need()), 0, [])
  {
    hide ValidTaskCapsule, AssertedTask, Matched, T.Submitted, T.OnResume, V.Started, VercelStep, TemporalStep, HookToken, Need, Encodable, Get, Lit;
    StartMatched(task, runId);
    V.CapsuleIds(task, runId);
    var s := V.InitialSnapshot(task, runId).value;
    NeedHasToken(s.taskId, s.attemptId);
    var w0, v0 := T.OnResume(T.Submitted(task)), V.Started(s);
    var ask := TurnEnded(InputRequired(Some(Need()), None));
    MatchedStep(w0, v0, Compiled(compiled));
    V.AsksForContext(task, runId, Request(compiled));
    VercelTwice(v0, compiled, ask);
    IdentityKept(v0, Compiled(compiled));
    StartedIds(s);
    MatchedStep(TemporalStep(w0, Compiled(compiled)), VercelStep(v0, Compiled(compiled)), ask);
  }

  lemma StartedIds(s: V.Snapshot)
    ensures V.Started(s).snap.taskId == s.taskId && V.Started(s).snap.attemptId == s.attemptId
  {
  }

  lemma VercelTwice(v: V.Running, compiled: Json, ask: Response)
    requires ask == TurnEnded(InputRequired(Some(Need()), None))
    ensures VercelStep(VercelStep(v, Compiled(compiled)), ask) == V.Exec(v, V.UntilWaiting(Request(compiled)))
  {
    hide V.OnRespond, V.Exec, Need;
    V.ExecTwo(v, V.Respond(Compiled(compiled)), V.Respond(ask));
  }

  /** For every task that both backends take, with an attempt id that makes a hook token, and
      every digest that passes Temporal's test: Temporal applies the delta and goes on to the
      merge, and Vercel, waiting with the same snapshot, turns it away and stays. */
  lemma TemporalIsLaxer(task: Json, runId: Text, compiled: Json, digest: Json)
    requires V.Admitted(task) && AssertedTask(task) && Encodable(StringField(task, Lit("logical_attempt_id")))
    requires TestsAsDigest(digest) && !digest.Null?
    ensures var s := V.InitialSnapshot(task, runId).value;
            var w, v := WaitingTemporal(task, compiled), WaitingVercel(task, runId, compiled);
            var d := LooseDelta(s.taskId, s.attemptId, digest);
            Matched(w, v) && TemporalStep(w, DeltaOffered(d)).pc == T.AwaitMerge(d) &&
            VercelStep(v, DeltaOffered(d)) ==
              v.(stream := v.stream + [V.RejectionProjection(v.snap, V.Invalid(INVALID_ARTIFACT_REF), d)])
  {
    hide ValidTaskCapsule, AssertedTask, WaitingTemporal, WaitingVercel, LooseDelta, Need, Encodable, Get, Lit, TestsAsDigest, Matched;
    V.StartedInv(task, runId);
    BothWait(task, runId, compiled);
    var s := V.InitialSnapshot(task, runId).value;
    var d := LooseDelta(s.taskId, s.attemptId, digest);
    LooseVerdicts(s.taskId, s.attemptId, digest);
    Departs(WaitingTemporal(task, compiled), WaitingVercel(task, runId, compiled), d);
  }

  /** Where two matched runs wait and only Temporal's check lets the delta through. */
  lemma Departs(w: T.Workflow, v: V.Running, d: Json)
    requires Matched(w, v) && v.pc.InHook?
    requires AssertDeltaAllowed(V.DeltaContextOf(v.snap), d) == None
    requires ValidateContextDelta(V.DeltaContextOf(v.snap), d) == Some(INVALID_ARTIFACT_REF)
    ensures TemporalStep(w, DeltaOffered(d)).pc == T.AwaitMerge(d)
    ensures VercelStep(v, DeltaOffered(d)) ==
              v.(stream := v.stream + [V.RejectionProjection(v.snap, V.Invalid(INVALID_ARTIFACT_REF), d)])
  {
    hide AssertDeltaAllowed, ValidateContextDelta, Accounts, V.StreamInv, V.RejectionProjection, Get, Lit;
    MatchedContext(w, v);
    T.AllowedIdFacts(w.snap, d);
    T.PendingNeverOverwritten(w, d);
  }

  // ----- One such task and digest -----

  function SomeDigest(): Text { Lit("sha256:") + seq(64, i => 48) }

  function SomeMembers(): seq<Entry<Json>> {
    [Entry(Lit("schema"), Str(Lit("akashic.task-capsule/v1"))), Entry(Lit("task_id"), Str(Lit("t"))),
     Entry(Lit("context_id"), Str(Lit("c"))), Entry(Lit("logical_attempt_id"), Str(Lit("a"))),
     Entry(Lit("goal"), Str(Lit("g"))), Entry(Lit("acceptance"), Arr([Str(Lit("x"))])),
     Entry(Lit("execution_hash"), Str(SomeDigest()))]
  }

  lemma SomeDigestIsDigest()
    ensures IsDigest(SomeDigest())
  {
  }

  lemma SomeKeys()
    ensures DistinctKeys(SomeMembers())
    ensures forall i :: 0 <= i < 7 ==> SomeMembers()[i].key != Lit("context_refs")
  {
    assert |Lit("schema")| == 6 && |Lit("task_id")| == 7 && |Lit("context_id")| == 10 && |Lit("logical_attempt_id")| == 18;
    assert |Lit("goal")| == 4 && |Lit("acceptance")| == 10 && |Lit("execution_hash")| == 14 && |Lit("context_refs")| == 12;
    assert Lit("context_id")[0] == 99 && Lit("acceptance")[0] == 97;
  }

  lemma SomeFields()
    ensures var task := Obj(SomeMembers());
            Get(task, Lit("schema")) == Some(Str(Lit("akashic.task-capsule/v1"))) &&
            Get(task, Lit("task_id")) == Some(Str(Lit("t"))) && Get(task, Lit("context_id")) == Some(Str(Lit("c"))) &&
            Get(task, Lit("logical_attempt_id")) == Some(Str(Lit("a"))) && Get(task, Lit("goal")) == Some(Str(Lit("g"))) &&
            Get(task, Lit("acceptance")) == Some(Arr([Str(Lit("x"))])) && Get(task, Lit("context_refs")) == None &&
            Get(task, Lit("execution_hash")) == Some(Str(SomeDigest()))
  {
    hide Lit, Lookup, SomeDigest;
    SomeKeys();
    var ms := SomeMembers();
    LookupEntry(ms, ms[0]);
    LookupEntry(ms, ms[1]);
    LookupEntry(ms, ms[2]);
    LookupEntry(ms, ms[3]);
    LookupEntry(ms, ms[4]);
    LookupEntry(ms, ms[5]);
    LookupEntry(ms, ms[6]);
  }

  lemma OneLetters()
    ensures |Lit("t")| == 1 && |Lit("c")| == 1 && |Lit("a")| == 1 && |Lit("g")| == 1 && |Lit("x")| == 1
    ensures Encodable(Lit("t")) && Encodable(Lit("a"))
  {
    OneUnit(Lit("t"));
    OneUnit(Lit("a"));
  }

  /** The least capsule, and a digest given in an array: an input on which the backends part. */
  lemma SomeTaskParts()
    ensures var task := Obj(SomeMembers());
            V.Admitted(task) && AssertedTask(task) && Encodable(StringField(task, Lit("logical_attempt_id"))) &&
            TestsAsDigest(Str(SomeDigest())) && TestsAsDigest(Arr([Str(SomeDigest())]))
  {
    hide Get, Lit, SomeMembers, SomeDigest, IsDigest, Encodable;
    SomeFields();
    SomeDigestIsDigest();
    OneLetters();
  }
}
