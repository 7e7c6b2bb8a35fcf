/** What the kernel's requests leave in the properties of the stored snapshot. */
module KernelFields {
  import opened Utf16
  import opened Wrappers
  import opened KeySort
  import opened Json
  import opened JsonParser
  import opened TaskState
  import opened Kernel
  import Jsonl

  /** The properties that are written after a patch. */
  predicate Fixed(key: Text) {
    key == Lit("state") || key == Lit("terminal") || key == Lit("seq") || key == Lit("updated_at") || key == Lit("events")
  }

  /** What property `key` is, once `patch` has been spread over `fields`. */
  predicate Patched(fields: Fields, patch: Fields, key: Text, after: Fields) {
    if Fixed(key) then key !in after
    else if key in patch then key in after && after[key] == patch[key]
    else (key in after <==> key in fields) && (key in fields ==> after[key] == fields[key])
  }

  /** No patch reaches the five fixed properties; any other property is the patch's where the patch
      has it, and the old one otherwise. */
  lemma PatchedExactly(s: Snapshot, e: Event, key: Text)
    ensures Patched(s.fields, e.patch, key, Extended(s, e).fields)
    ensures var t := Extended(s, e);
            t.state == e.to && t.terminal == Ended(e.to) && t.number == e.number && t.updatedAt == e.at
  {
    hide Lit;
  }

  lemma AppendFields(s: Snapshot, kind: Text, to: Text, patch: Fields, at: Text, key: Text)
    requires AppendEvent(s, kind, to, patch, at).Some?
    ensures var t := AppendEvent(s, kind, to, patch, at).value;
            Patched(s.fields, patch, key, t.fields) && StateNamed(to) == Some(t.state) && t.updatedAt == at &&
            t.events != [] && LastEvent(t) == Event(Field(s, Lit("task_id")), s.number + 1, kind, Some(s.state), t.state, at, patch)
  {
    hide Lit, StateNamed, Patched, FixedKeys, Field;
    var e := Event(Field(s, Lit("task_id")), s.number + 1, kind, Some(s.state), StateNamed(to).value, at, patch);
    PatchedExactly(s, e, key);
  }

  lemma ContextWords()
    ensures !Fixed(Lit("context_need")) && !Fixed(Lit("context_delta_sha256")) && !Fixed(Lit("last_context_packet_id")) && !Fixed(Lit("error"))
    ensures Lit("context_need") != Lit("context_delta_sha256") && Lit("context_need") != Lit("last_context_packet_id")
    ensures Lit("context_delta_sha256") != Lit("last_context_packet_id")
  {
    assert |Lit("state")| == 5 && |Lit("terminal")| == 8 && |Lit("seq")| == 3 && |Lit("updated_at")| == 10 && |Lit("events")| == 6;
    assert |Lit("context_need")| == 12 && |Lit("context_delta_sha256")| == 20 && |Lit("last_context_packet_id")| == 22 && |Lit("error")| == 5;
    assert Lit("error")[0] == 101 && Lit("state")[0] == 115;
  }

  /** An accepted delta closes the need, records the digest of the delta and its packet, and leaves
      every other property alone. */
  lemma ContextLeaves(hash: Text -> Text, s: Snapshot, call: Call, key: Text)
    requires AcceptsDelta(hash, Some(s), call)
    ensures var t := Serve(hash, Some(s), call).stored;
            call.request.ApplyContext? && DeltaOf(call.request.body).Some? && t.Some? &&
            t.value.updatedAt == call.now && t.value.events != [] && LastEvent(t.value).kind == Lit("CONTEXT_DELTA_APPLIED") &&
            if key == Lit("context_need") then key in t.value.fields && t.value.fields[key] == Some(Null)
            else if key == Lit("context_delta_sha256") then
              key in t.value.fields && t.value.fields[key] == Some(Str(hash(Canon(DeltaOf(call.request.body).value))))
            else if key == Lit("last_context_packet_id") then
              key in t.value.fields && t.value.fields[key] == Get(DeltaOf(call.request.body).value, Lit("packet_id"))
            else if Fixed(key) then key !in t.value.fields
            else (key in t.value.fields <==> key in s.fields) && (key in s.fields ==> t.value.fields[key] == s.fields[key])
  {
    AcceptedExactly(hash, Some(s), call);
    hide Lit, AppendEvent, BodyJson, Get, Canon, Fixed, Fresh, StrictlyEqual, Falsy, LastEvent, Field;
    ContextWords();
    AppendFields(s, Lit("CONTEXT_DELTA_APPLIED"), Lit("WORKING"), ContextPatch(hash, call.request.body), call.now, key);
  }

  /** The error object of a cancel. */
  function Canceled(): Json {
    Obj([Entry(Lit("code"), Str(Lit("canceled"))), Entry(Lit("retryable"), Bool(false))])
  }

  /** Cancelling a live task records the error and leaves every other property alone; a terminal
      one is only shown. */
  lemma CancelLeaves(hash: Text -> Text, s: Snapshot, now: Text, key: Text)
    ensures var o := Serve(hash, Some(s), Call(Cancel, now));
            if Ended(s.state) then o == Outcome(Some(s), Answered(200, s, Replayed))
            else
              o.stored.Some? && o.stored.value.state == KernelState.Canceled && o.stored.value.terminal &&
              o.stored.value.updatedAt == now && o.stored.value.events != [] && LastEvent(o.stored.value).kind == Lit("TASK_CANCELED") &&
              if key == Lit("error") then key in o.stored.value.fields && o.stored.value.fields[key] == Some(Canceled())
              else if Fixed(key) then key !in o.stored.value.fields
              else (key in o.stored.value.fields <==> key in s.fields) &&
                   (key in s.fields ==> o.stored.value.fields[key] == s.fields[key])
  {
    if !Ended(s.state) {
      CancelSucceeds(hash, s, now);
      ServeWrites(hash, Some(s), Call(Cancel, now));
      hide Lit, AppendEvent, Fixed, LastEvent, Field;
      ContextWords();
      AppendFields(s, Lit("TASK_CANCELED"), Lit("CANCELED"), CANCEL_PATCH, now, key);
    }
  }

  /** What a transition's `patch` sets: the properties of an object, the elements of an array by
      their index, and nothing otherwise. */
  predicate Sets(patch: Option<Json>, key: Text, value: Json) {
    patch.Some? &&
    match patch.value
    case Obj(members) => Lookup(members, key) == Some(value)
    case Arr(items) => exists i :: 0 <= i < |items| && Decimal(i) == key && items[i] == value
    case _ => false
  }

  lemma {:induction false} ItemsSet(items: seq<Json>, key: Text)
    ensures key in SpreadItems(items) <==> exists i :: 0 <= i < |items| && Decimal(i) == key
    ensures key in SpreadItems(items) ==>
              SpreadItems(items)[key].Some? && exists i :: 0 <= i < |items| && Decimal(i) == key && items[i] == SpreadItems(items)[key].value
    decreases |items|
  {
    hide Decimal;
    if items != [] {
      var front := items[..|items| - 1];
      ItemsSet(front, key);
      if key in SpreadItems(front) && key != Decimal(|items| - 1) {
        var i :| 0 <= i < |front| && Decimal(i) == key && front[i] == SpreadItems(front)[key].value;
        assert items[i] == front[i];
      }
      assert items[|items| - 1] == items[|items| - 1];
    }
  }

  lemma SpreadExactly(patch: Option<Json>, key: Text)
    ensures key in Spread(patch) <==> exists x :: Sets(patch, key, x)
    ensures key in Spread(patch) ==> Spread(patch)[key].Some? && Sets(patch, key, Spread(patch)[key].value)
  {
    hide Decimal;
    match patch
    case Some(Obj(members)) =>
      if Lookup(members, key).Some? { assert Sets(patch, key, Lookup(members, key).value); }
    case Some(Arr(items)) =>
      ItemsSet(items, key);
      if i :| 0 <= i < |items| && Decimal(i) == key { assert Sets(patch, key, items[i]); }
    case _ =>
  }

  /** The table, in other words: a live task can always fail or be cancelled, it starts or resumes
      work, and only from work does it wait or complete. */
  lemma NextExactly(from: KernelState, to: KernelState)
    ensures to in Next(from) <==>
            !Ended(from) &&
            (to.Failed? || to.Canceled? || (to.Working? && !from.Working?) || (from.Working? && (to.InputRequired? || to.Completed?)))
  {
  }

  /** A transition is made exactly for a live task and a body that names a kind and a state the
      table allows. */
  lemma TransitionExactly(hash: Text -> Text, s: Snapshot, body: Text, now: Text)
    ensures var o := Serve(hash, Some(s), Call(Transition(body), now));
            var p := BodyJson(body);
            (o.stored != Some(s) <==>
               !Ended(s.state) && p.Some? &&
               (var kind := Get(p.value, Lit("kind")); kind.Some? && kind.value.Str?) &&
               (var to := Get(p.value, Lit("to_state"));
                to.Some? && to.value.Str? && StateNamed(to.value.s).Some? && StateNamed(to.value.s).value in Next(s.state))) &&
            (o.stored == Some(s) ==> o.reply == if Ended(s.state) then Answered(200, s, Replayed)
                                                 else if p.None? then Refused(400, BadBody)
                                                 else if NamesTransition(p.value) then Refused(400, IllegalTransition)
                                                 else Refused(400, InvalidPayload))
  {
    hide Get, Lit, BodyJson, StateNamed, Next, FixedKeys, Spread, Field;
  }

  predicate NamesTransition(p: Json) {
    var to, kind := Get(p, Lit("to_state")), Get(p, Lit("kind"));
    to.Some? && to.value.Str? && kind.Some? && kind.value.Str?
  }

  /** A transition moves to the state it names and logs its kind; a property that the patch sets is
      the patch's, the fixed ones never, and every other one is left alone. */
  lemma TransitionLeaves(hash: Text -> Text, s: Snapshot, body: Text, now: Text, key: Text)
    requires Serve(hash, Some(s), Call(Transition(body), now)).stored != Some(s)
    ensures var t := Serve(hash, Some(s), Call(Transition(body), now)).stored;
            t.Some? && BodyJson(body).Some? && NamesTransition(BodyJson(body).value) &&
            var p := BodyJson(body).value;
            StateNamed(Get(p, Lit("to_state")).value.s) == Some(t.value.state) && t.value.updatedAt == now &&
            t.value.events != [] && LastEvent(t.value).kind == Get(p, Lit("kind")).value.s &&
            if Fixed(key) then key !in t.value.fields
            else if exists x :: Sets(Get(p, Lit("patch")), key, x) then
              key in t.value.fields && t.value.fields[key].Some? && Sets(Get(p, Lit("patch")), key, t.value.fields[key].value)
            else (key in t.value.fields <==> key in s.fields) && (key in s.fields ==> t.value.fields[key] == s.fields[key])
  {
    TransitionExactly(hash, s, body, now);
    hide Lit, Get, AppendEvent, BodyJson, Fixed, LastEvent, Field, Spread, Sets, StateNamed;
    var p := BodyJson(body).value;
    var patch := Get(p, Lit("patch"));
    SpreadExactly(patch, key);
    AppendFields(s, Get(p, Lit("kind")).value.s, Get(p, Lit("to_state")).value.s, Spread(patch), now, key);
  }

  // ----- The log explains the snapshot -----

  /** The last of the events whose patch has the property. */
  predicate LastWriter(events: seq<Event>, key: Text, i: nat) {
    i < |events| && key in events[i].patch && forall j :: i < j < |events| ==> key !in events[j].patch
  }

  lemma {:induction false} ReplayFields(s: Snapshot, events: seq<Event>, key: Text)
    requires !Fixed(key)
    ensures var t := Replay(s, events);
            (forall i: nat :: LastWriter(events, key, i) ==> key in t.fields && t.fields[key] == events[i].patch[key]) &&
            ((forall i :: 0 <= i < |events| ==> key !in events[i].patch) ==>
               (key in t.fields <==> key in s.fields) && (key in s.fields ==> t.fields[key] == s.fields[key]))
    decreases |events|
  {
    hide Extended, Fixed;
    if events != [] {
      var n := |events| - 1;
      var front := events[..n];
      ReplayFields(s, front, key);
      PatchedExactly(Replay(s, front), events[n], key);
      forall i: nat | LastWriter(events, key, i)
        ensures key in Replay(s, events).fields && Replay(s, events).fields[key] == events[i].patch[key]
      {
        if i < n { assert LastWriter(front, key, i); }
      }
    }
  }

  /** On every run, each property of the stored snapshot other than the fixed ones is what the last
      logged patch with that property set, or else what it was before the first logged event; and
      state, number and time are those of the last event. */
  lemma LogExplains(hash: Text -> Text, calls: seq<Call>, key: Text)
    requires !Fixed(key) && History(hash, calls) != []
    ensures var h := History(hash, calls);
            var s := h[|h| - 1];
            LogHolds(s) && LogStart(s) < |h| && LastEvent(s).to == s.state && LastEvent(s).number == s.number &&
            (forall i: nat :: LastWriter(Logged(s), key, i) ==> key in s.fields && s.fields[key] == Logged(s)[i].patch[key]) &&
            ((forall i :: 0 <= i < |Logged(s)| ==> key !in Logged(s)[i].patch) ==>
               var base := h[LogStart(s)].fields; (key in s.fields <==> key in base) && (key in base ==> s.fields[key] == base[key]))
  {
    hide Serve, History, Chained, Fixed, Replay, Logged, LogStart, Linked;
    LogRebuilds(hash, calls);
    var h := History(hash, calls);
    LogEnds(h[|h| - 1]);
    ReplayFields(h[LogStart(h[|h| - 1])], Logged(h[|h| - 1]), key);
  }

  lemma LogEnds(s: Snapshot)
    requires LogHolds(s)
    ensures LastEvent(s).to == s.state && LastEvent(s).number == s.number
  {
  }

  // ----- Submission -----

  /** What the first snapshot of a task says. */
  predicate FirstFields(s: Snapshot, task: Json, executionHash: Text, now: Text) {
    Field(s, Lit("task_id")) == Get(task, Lit("task_id")) && Field(s, Lit("context_id")) == Get(task, Lit("context_id")) &&
    Field(s, Lit("attempt_id")) == Get(task, Lit("attempt_id")) && Field(s, Lit("task")) == Some(task) &&
    Field(s, Lit("execution_hash")) == Some(Str(executionHash)) && Field(s, Lit("context_need")) == Some(Null) &&
    Field(s, Lit("created_at")) == Some(Str(now)) && s.updatedAt == now &&
    Field(s, Lit("schema")) == Some(Str(Lit("akashic.task-snapshot/v1"))) &&
    Field(s, Lit("provider_session_id")) == Some(Null) && Field(s, Lit("provider_turn_id")) == Some(Null) &&
    s.fields.Keys == {Lit("schema"), Lit("task_id"), Lit("context_id"), Lit("attempt_id"), Lit("task"), Lit("execution_hash"),
                      Lit("context_need"), Lit("provider_session_id"), Lit("provider_turn_id"), Lit("created_at")}
  }

  lemma FirstWords()
    ensures |Lit("schema")| == 6 && |Lit("task_id")| == 7 && |Lit("context_id")| == 10 && |Lit("attempt_id")| == 10 && |Lit("task")| == 4
    ensures |Lit("execution_hash")| == 14 && |Lit("context_need")| == 12 && |Lit("provider_session_id")| == 19
    ensures |Lit("provider_turn_id")| == 16 && |Lit("created_at")| == 10
    ensures Lit("context_id") != Lit("attempt_id") && Lit("context_id") != Lit("created_at") && Lit("attempt_id") != Lit("created_at")
  {
    assert Lit("context_id")[1] == 111 && Lit("attempt_id")[1] == 116 && Lit("created_at")[1] == 114;
  }

  lemma FirstSnapshotFields(task: Json, executionHash: Text, now: Text)
    ensures FirstFields(InitialSnapshot(task, executionHash, now), task, executionHash, now)
  {
    FirstWords();
    hide Lit, Get;
  }

  /** A submit: refused without a valid task; the first one is stored under the digest of the
      task's canonical text; a later one is a replay if that digest is on file, else a conflict. */
  lemma SubmitExactly(hash: Text -> Text, stored: Option<Snapshot>, body: Text, now: Text)
    ensures var o := Serve(hash, stored, Call(Submit(body), now));
            var p := BodyJson(body);
            if p.None? then o == Outcome(stored, Refused(400, BadBody))
            else if !ValidTask(Get(p.value, Lit("task"))) then o == Outcome(stored, Refused(400, InvalidTask))
            else
              var task := Get(p.value, Lit("task")).value;
              match stored
              case None =>
                o.stored.Some? && FirstSnapshot(o.stored.value) && FirstFields(o.stored.value, task, hash(Canon(task)), now) &&
                o.reply == Answered(202, o.stored.value, Accepted)
              case Some(s) =>
                o.stored == stored &&
                o.reply == if Field(s, Lit("execution_hash")) == Some(Str(hash(Canon(task)))) then Answered(200, s, Replayed)
                           else Refused(409, TaskConflict)
  {
    var p := BodyJson(body);
    if p.Some? && ValidTask(Get(p.value, Lit("task"))) {
      var task := Get(p.value, Lit("task")).value;
      FirstSnapshotFields(task, hash(Canon(task)), now);
    }
    hide Get, Lit, BodyJson, ValidTask, Canon, Field, FirstFields;
  }

  /** A body is taken up to 1 MiB of code units, when it parses to an object. */
  lemma BodyExactly(text: Text)
    ensures BodyJson(text).Some? <==> 0 < |text| <= 1_048_576 && Parse(text).Some? && Parse(text).value.Obj?
    ensures BodyJson(text).Some? ==> BodyJson(text) == Parse(text)
  {
    hide Parse;
  }

  // ----- Requests in their own terms -----

  /** A string with a character that is no blank. */
  predicate SomethingWritten(v: Option<Json>) {
    v.Some? && v.value.Str? && exists i :: 0 <= i < |v.value.s| && !Jsonl.Blank(v.value.s[i])
  }

  lemma NonBlankExactly(v: Option<Json>)
    ensures NonBlank(v) <==> SomethingWritten(v)
  {
    if v.Some? && v.value.Str? {
      var t := v.value.s;
      hide Jsonl.Blank;
      var i, j := Jsonl.TrimExactly(t);
    }
  }

  /** A task is valid when its four strings have something written in them and its acceptance is a
      list that is not empty. */
  lemma ValidTaskExactly(task: Json)
    ensures ValidTask(Some(task)) <==>
            task.Obj? && SomethingWritten(Get(task, Lit("task_id"))) && SomethingWritten(Get(task, Lit("context_id"))) &&
            SomethingWritten(Get(task, Lit("attempt_id"))) && SomethingWritten(Get(task, Lit("goal"))) &&
            match Get(task, Lit("acceptance")) case Some(Arr(items)) => items != [] case _ => false
  {
    NonBlankExactly(Get(task, Lit("task_id")));
    NonBlankExactly(Get(task, Lit("context_id")));
    NonBlankExactly(Get(task, Lit("attempt_id")));
    NonBlankExactly(Get(task, Lit("goal")));
    hide Get, Lit, NonBlank, SomethingWritten;
  }

  /** The word for a state. */
  function StateWord(s: KernelState): string {
    match s
    case Submitted => "SUBMITTED"
    case Working => "WORKING"
    case InputRequired => "INPUT_REQUIRED"
    case Completed => "COMPLETED"
    case Failed => "FAILED"
    case Canceled => "CANCELED"
  }

  lemma WordsDiffer(s: KernelState, t: KernelState)
    ensures Lit(StateWord(s)) == Lit(StateWord(t)) <==> s == t
  {
    assert Lit("SUBMITTED")[0] == 83 && Lit("WORKING")[0] == 87 && Lit("INPUT_REQUIRED")[0] == 73 && Lit("FAILED")[0] == 70;
    assert Lit("CANCELED")[0] == 67 && Lit("COMPLETED")[0] == 67 && |Lit("CANCELED")| == 8 && |Lit("COMPLETED")| == 9;
  }

  /** A text names a state exactly when it is the word for it. */
  lemma StateNamedExactly(name: Text, s: KernelState)
    ensures StateNamed(name) == Some(s) <==> name == Lit(StateWord(s))
  {
    WordsDiffer(s, KernelState.Submitted);
    WordsDiffer(s, Working);
    WordsDiffer(s, InputRequired);
    WordsDiffer(s, Completed);
    WordsDiffer(s, Failed);
    WordsDiffer(s, KernelState.Canceled);
    hide Lit;
  }

  /** Compare and set in the delta's own fields: it names the task and the attempt of the snapshot,
      the stored sequence number, and the request that is open. */
  predicate Answers(s: Snapshot, delta: Json) {
    StrictlyEqual(Get(delta, Lit("task_id")), Field(s, Lit("task_id"))) &&
    StrictlyEqual(Get(delta, Lit("attempt_id")), Field(s, Lit("attempt_id"))) &&
    Get(delta, Lit("expected_seq")) == Some(Num(s.number)) &&
    StrictlyEqual(Get(delta, Lit("request_id")),
                  match Field(s, Lit("context_need")) case Some(need) => Get(need, Lit("request_id")) case None => None)
  }

  lemma AcceptedByFields(hash: Text -> Text, s: Snapshot, body: Text, now: Text)
    ensures AcceptsDelta(hash, Some(s), Call(ApplyContext(body), now)) <==>
            s.state == InputRequired && BodyJson(body).Some? &&
            match Get(BodyJson(body).value, Lit("context_delta"))
            case Some(delta) => !Falsy(delta) && Answers(s, delta)
            case None => false
  {
    AcceptedExactly(hash, Some(s), Call(ApplyContext(body), now));
    hide AcceptsDelta, BodyJson, Get, Lit, Field, Falsy;
  }

  /** What a request that changes nothing is told: without a task, on an unknown path, on reading, and
      why a delta is turned away. */
  lemma RepliesExactly(hash: Text -> Text, stored: Option<Snapshot>, call: Call)
    requires !call.request.Submit? && !call.request.Transition? && !call.request.Cancel?
    ensures var o := Serve(hash, stored, call);
            match stored
            case None => o == Outcome(None, Refused(404, TaskNotFound))
            case Some(s) =>
              (call.request.ReadSnapshot? ==> o == Outcome(stored, Answered(200, s, Plain))) &&
              (call.request.Other? ==> o == Outcome(stored, Refused(404, UnknownPath))) &&
              (call.request.ApplyContext? && !AcceptsDelta(hash, stored, call) ==>
                 o.stored == stored &&
                 o.reply == if BodyJson(call.request.body).None? then Refused(400, BadBody)
                            else if s.state != InputRequired then Refused(409, NotInputRequired)
                            else match Get(BodyJson(call.request.body).value, Lit("context_delta"))
                                 case None => Refused(409, IdentityMismatch)
                                 case Some(delta) =>
                                   if !Falsy(delta) &&
                                      StrictlyEqual(Get(delta, Lit("task_id")), Field(s, Lit("task_id"))) &&
                                      StrictlyEqual(Get(delta, Lit("attempt_id")), Field(s, Lit("attempt_id")))
                                   then Refused(409, StaleDelta) else Refused(409, IdentityMismatch))
  {
    if stored.Some? && call.request.ApplyContext? { AcceptedExactly(hash, stored, call); }
    hide BodyJson, Get, Lit, Field, Falsy, AppendEvent, StrictlyEqual, ContextPatch;
  }
}
