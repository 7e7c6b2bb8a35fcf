/** The Cloudflare kernel: one stored snapshot, replaced by each accepted request, with a
    compare-and-set on its sequence number and a log of its last 256 events. */
module Kernel {
  import opened Utf16
  import opened Wrappers
  import opened KeySort
  import opened Json
  import opened JsonParser
  import opened TaskState
  import Jsonl

  datatype KernelState = Submitted | Working | InputRequired | Completed | Failed | Canceled

  predicate Ended(s: KernelState) { s.Completed? || s.Failed? || s.Canceled? }

  /** The kernel's own table `TRANSITIONS`, which knows fewer states than the task contract. */
  function Next(s: KernelState): set<KernelState> {
    match s
    case Submitted => {Working, Failed, Canceled}
    case Working => {InputRequired, Completed, Failed, Canceled}
    case InputRequired => {Working, Failed, Canceled}
    case _ => {}
  }

  function StateNamed(name: Text): Option<KernelState> {
    if name == Lit("SUBMITTED") then Some(Submitted)
    else if name == Lit("WORKING") then Some(Working)
    else if name == Lit("INPUT_REQUIRED") then Some(InputRequired)
    else if name == Lit("COMPLETED") then Some(Completed)
    else if name == Lit("FAILED") then Some(Failed)
    else if name == Lit("CANCELED") then Some(Canceled)
    else None
  }

  /** The properties that an object spreads; one set to `undefined` is present with `None`. */
  type Fields = map<Text, Option<Json>>

  /** `event.patch` is kept as the properties that it spreads. */
  datatype Event = Event(
    taskId: Option<Json>, number: nat, kind: Text, from: Option<KernelState>, to: KernelState, at: Text, patch: Fields)

  /** The five properties that `appendEvent` writes after the patch, and all the others. */
  datatype Snapshot = Snapshot(
    state: KernelState, terminal: bool, number: nat, updatedAt: Text, events: seq<Event>, fields: Fields)

  const LOG_LIMIT: nat := 256

  function FixedKeys(): set<Text> {
    {Lit("state"), Lit("terminal"), Lit("seq"), Lit("updated_at"), Lit("events")}
  }

  function Field(s: Snapshot, key: Text): Option<Json> {
    if key in s.fields then s.fields[key] else None
  }

  /** `events.slice(-256)`. */
  function LastEvents(events: seq<Event>): (r: seq<Event>)
    ensures |r| <= 256
  {
    if |events| <= LOG_LIMIT then events else events[|events| - LOG_LIMIT..]
  }

  /** `{...snapshot, ...patch, state, seq, terminal, updated_at, events}`. */
  function Extended(s: Snapshot, e: Event): Snapshot {
    Snapshot(e.to, Ended(e.to), e.number, e.at, LastEvents(s.events + [e]), s.fields + e.patch - FixedKeys())
  }

  /** `appendEvent`; `None` is the illegal transition it throws. */
  function AppendEvent(s: Snapshot, kind: Text, to: Text, patch: Fields, at: Text): Option<Snapshot> {
    var target := StateNamed(to);
    if target.None? || target.value !in Next(s.state) then None
    else
      Some(Extended(s, Event(Field(s, Lit("task_id")), s.number + 1, kind, Some(s.state), target.value, at, patch)))
  }

  // ----- Requests -----

  datatype Request =
    | Submit(body: Text) | ReadSnapshot | ApplyContext(body: Text) | Cancel | Transition(body: Text) | Other

  /** A request and the clock when it was served. */
  datatype Call = Call(request: Request, now: Text)

  datatype Refusal =
    | BadBody | InvalidTask | TaskConflict | TaskNotFound | NotInputRequired | IdentityMismatch | StaleDelta
    | InvalidPayload | IllegalTransition | UnknownPath

  datatype Note = Plain | Accepted | Replayed | DeltaAccepted

  datatype Reply = Refused(status: nat, why: Refusal) | Answered(status: nat, snapshot: Snapshot, note: Note)

  /** What one request leaves in storage, and its answer. */
  datatype Outcome = Outcome(stored: Option<Snapshot>, reply: Reply)

  /** `bodyJson`; `None` when it throws. */
  function BodyJson(text: Text): Option<Json> {
    if text == [] || |text| > 1_048_576 then None
    else
      match Parse(text)
      case Some(v) => if v.Obj? then Some(v) else None
      case None => None
  }

  predicate NonBlank(v: Option<Json>) { v.Some? && v.value.Str? && Jsonl.Trim(v.value.s) != [] }

  /** `validateTask` does not throw. */
  predicate ValidTask(task: Option<Json>) {
    task.Some? && task.value.Obj? &&
    NonBlank(Get(task.value, Lit("task_id"))) &&
    NonBlank(Get(task.value, Lit("context_id"))) &&
    NonBlank(Get(task.value, Lit("attempt_id"))) &&
    NonBlank(Get(task.value, Lit("goal"))) &&
    var a := Get(task.value, Lit("acceptance")); a.Some? && a.value.Arr? && a.value.items != []
  }

  function InitialSnapshot(task: Json, executionHash: Text, now: Text): Snapshot {
    var id := Get(task, Lit("task_id"));
    Snapshot(Submitted, false, 1, now, [Event(id, 1, Lit("TASK_SUBMITTED"), None, Submitted, now, map[])],
      map[Lit("schema") := Some(Str(Lit("akashic.task-snapshot/v1"))),
          Lit("task_id") := id,
          Lit("context_id") := Get(task, Lit("context_id")),
          Lit("attempt_id") := Get(task, Lit("attempt_id")),
          Lit("task") := Some(task),
          Lit("execution_hash") := Some(Str(executionHash)),
          Lit("context_need") := Some(Null),
          Lit("provider_session_id") := Some(Null),
          Lit("provider_turn_id") := Some(Null),
          Lit("created_at") := Some(Str(now))])
  }

  function OnSubmit(hash: Text -> Text, stored: Option<Snapshot>, body: Text, now: Text): Outcome {
    var payload := BodyJson(body);
    if payload.None? then Outcome(stored, Refused(400, BadBody))
    else
      var task := Get(payload.value, Lit("task"));
      if !ValidTask(task) then Outcome(stored, Refused(400, InvalidTask))
      else
        var executionHash := hash(Canon(task.value));
        match stored
        case Some(s) =>
          if Field(s, Lit("execution_hash")) != Some(Str(executionHash)) then Outcome(stored, Refused(409, TaskConflict))
          else Outcome(stored, Answered(200, s, Replayed))
        case None =>
          var s := InitialSnapshot(task.value, executionHash, now);
          Outcome(Some(s), Answered(202, s, Accepted))
  }

  /** `appendEvent`, store, answer. */
  function Advance(s: Snapshot, kind: Text, to: Text, patch: Fields, now: Text, note: Note): Outcome {
    match AppendEvent(s, kind, to, patch, now)
    case None => Outcome(Some(s), Refused(400, IllegalTransition))
    case Some(next) => Outcome(Some(next), Answered(200, next, note))
  }

  /** `delta` of a context request: `None` when the body has none. */
  function DeltaOf(body: Text): Option<Json> {
    if BodyJson(body).Some? then Get(BodyJson(body).value, Lit("context_delta")) else None
  }

  function DeltaField(body: Text, key: Text): Option<Json> {
    if DeltaOf(body).Some? then Get(DeltaOf(body).value, key) else None
  }

  predicate SameIdentity(s: Snapshot, body: Text) {
    DeltaOf(body).Some? && !Falsy(DeltaOf(body).value) &&
    StrictlyEqual(DeltaField(body, Lit("task_id")), Field(s, Lit("task_id"))) &&
    StrictlyEqual(DeltaField(body, Lit("attempt_id")), Field(s, Lit("attempt_id")))
  }

  /** The delta names the current sequence number and the request that is open. */
  predicate Fresh(s: Snapshot, body: Text) {
    StrictlyEqual(DeltaField(body, Lit("expected_seq")), Some(Num(s.number))) &&
    StrictlyEqual(DeltaField(body, Lit("request_id")), RequestId(Field(s, Lit("context_need"))))
  }

  function ContextPatch(hash: Text -> Text, body: Text): Fields
    requires DeltaOf(body).Some?
  {
    map[Lit("context_need") := Some(Null),
        Lit("context_delta_sha256") := Some(Str(hash(Canon(DeltaOf(body).value)))),
        Lit("last_context_packet_id") := DeltaField(body, Lit("packet_id"))]
  }

  function OnContext(hash: Text -> Text, s: Snapshot, body: Text, now: Text): Outcome {
    if BodyJson(body).None? then Outcome(Some(s), Refused(400, BadBody))
    else if s.state != InputRequired then Outcome(Some(s), Refused(409, NotInputRequired))
    else if !SameIdentity(s, body) then Outcome(Some(s), Refused(409, IdentityMismatch))
    else if !Fresh(s, body) then Outcome(Some(s), Refused(409, StaleDelta))
    else Advance(s, Lit("CONTEXT_DELTA_APPLIED"), Lit("WORKING"), ContextPatch(hash, body), now, DeltaAccepted)
  }

  const CANCEL_PATCH: Fields :=
    map[Lit("error") := Some(Obj([Entry(Lit("code"), Str(Lit("canceled"))), Entry(Lit("retryable"), Bool(false))]))]

  function OnCancel(s: Snapshot, now: Text): Outcome {
    if Ended(s.state) then Outcome(Some(s), Answered(200, s, Replayed))
    else Advance(s, Lit("TASK_CANCELED"), Lit("CANCELED"), CANCEL_PATCH, now, Plain)
  }

  /** What spreading a value that is an object or an array sets. */
  function SpreadItems(items: seq<Json>): Fields {
    if items == [] then map[]
    else SpreadItems(items[..|items| - 1])[Decimal(|items| - 1) := Some(items[|items| - 1])]
  }

  function Spread(patch: Option<Json>): Fields {
    match patch
    case Some(Obj(members)) => map k | k in Keys(members) :: Lookup(members, k)
    case Some(Arr(items)) => SpreadItems(items)
    case _ => map[]
  }

  function OnTransition(s: Snapshot, body: Text, now: Text): Outcome {
    if Ended(s.state) then Outcome(Some(s), Answered(200, s, Replayed))
    else
      var payload := BodyJson(body);
      if payload.None? then Outcome(Some(s), Refused(400, BadBody))
      else
        var to, kind := Get(payload.value, Lit("to_state")), Get(payload.value, Lit("kind"));
        if !(to.Some? && to.value.Str? && kind.Some? && kind.value.Str?) then Outcome(Some(s), Refused(400, InvalidPayload))
        else Advance(s, kind.value.s, to.value.s, Spread(Get(payload.value, Lit("patch"))), now, Plain)
  }

  /** What one request does to the stored snapshot. */
  function Serve(hash: Text -> Text, stored: Option<Snapshot>, call: Call): Outcome {
    if call.request.Submit? then OnSubmit(hash, stored, call.request.body, call.now)
    else if stored.None? then Outcome(None, Refused(404, TaskNotFound))
    else
      match call.request
      case ReadSnapshot => Outcome(stored, Answered(200, stored.value, Plain))
      case ApplyContext(body) => OnContext(hash, stored.value, body, call.now)
      case Cancel => OnCancel(stored.value, call.now)
      case Transition(body) => OnTransition(stored.value, body, call.now)
      case _ => Outcome(stored, Refused(404, UnknownPath))
  }

  // ----- One request -----

  function LastEvent(s: Snapshot): Event
    requires s.events != []
  {
    s.events[|s.events| - 1]
  }

  /** A write that is not the first: one legal event on top of a live snapshot. No patch can
      set the sequence number, the log, the state or the terminal flag. */
  predicate OneEvent(s: Snapshot, t: Snapshot) {
    t.events != [] &&
    var e := LastEvent(t);
    t == Extended(s, e) && e.number == s.number + 1 && e.from == Some(s.state) && e.to in Next(s.state)
  }

  predicate FirstSnapshot(s: Snapshot) {
    s.state == Submitted && !s.terminal && s.number == 1 && |s.events| == 1 &&
    s.events[0].number == 1 && s.events[0].from == None && s.events[0].to == Submitted
  }

  lemma AppendIsOneEvent(s: Snapshot, kind: Text, to: Text, patch: Fields, at: Text)
    requires AppendEvent(s, kind, to, patch, at).Some?
    ensures OneEvent(s, AppendEvent(s, kind, to, patch, at).value)
    ensures StateNamed(to) == Some(AppendEvent(s, kind, to, patch, at).value.state)
  {
    hide StateNamed, FixedKeys;
  }

  /** A refusal changes nothing. A request that changes storage either submits the first
      snapshot or adds one legal event to a snapshot that is not terminal. */
  lemma ServeWrites(hash: Text -> Text, stored: Option<Snapshot>, call: Call)
    ensures var o := Serve(hash, stored, call);
            (o.reply.Refused? ==> o.stored == stored) &&
            (o.reply.Answered? ==> o.stored == Some(o.reply.snapshot)) &&
            (o.stored != stored ==>
               o.stored.Some? &&
               match stored
               case None => call.request.Submit? && FirstSnapshot(o.stored.value)
               case Some(s) => !Ended(s.state) && OneEvent(s, o.stored.value))
  {
    hide AppendEvent, OneEvent, BodyJson, ValidTask, Canon, Lit, DeltaField, StrictlyEqual, Falsy, Fresh, ContextPatch, Spread, Get, Field, FixedKeys;
    if stored.Some? && Serve(hash, stored, call).stored != stored {
      var s := stored.value;
      match call.request
      case ApplyContext(body) =>
        AppendIsOneEvent(s, Lit("CONTEXT_DELTA_APPLIED"), Lit("WORKING"), ContextPatch(hash, body), call.now);
      case Cancel => AppendIsOneEvent(s, Lit("TASK_CANCELED"), Lit("CANCELED"), CANCEL_PATCH, call.now);
      case Transition(body) =>
        var p := BodyJson(body).value;
        AppendIsOneEvent(s, Get(p, Lit("kind")).value.s, Get(p, Lit("to_state")).value.s,
                         Spread(Get(p, Lit("patch"))), call.now);
      case _ =>
    }
  }

  /** A live task can always be cancelled. */
  lemma CancelSucceeds(hash: Text -> Text, s: Snapshot, now: Text)
    requires !Ended(s.state)
    ensures var o := Serve(hash, Some(s), Call(Cancel, now));
            o.stored.Some? && o.stored.value.state == Canceled && o.reply == Answered(200, o.stored.value, Plain)
  {
    hide FixedKeys, Field;
    assert StateNamed(Lit("CANCELED")) == Some(Canceled) by { Names(); }
  }

  lemma Names()
    ensures StateNamed(Lit("CANCELED")) == Some(Canceled)
    ensures StateNamed(Lit("WORKING")) == Some(Working)
  {
    assert Lit("CANCELED")[0] == 67 && Lit("COMPLETED")[1] == 79 && Lit("CANCELED")[1] == 65;
    assert Lit("SUBMITTED")[0] == 83 && Lit("WORKING")[0] == 87 && Lit("INPUT_REQUIRED")[0] == 73 && Lit("FAILED")[0] == 70;
  }

  predicate AcceptsDelta(hash: Text -> Text, stored: Option<Snapshot>, call: Call) {
    Serve(hash, stored, call).reply.Answered? && Serve(hash, stored, call).reply.note == DeltaAccepted
  }

  /** Compare and set: a delta is accepted exactly when the task waits for input, the delta
      has the task's identity, and it was made against the stored snapshot. */
  lemma AcceptedExactly(hash: Text -> Text, stored: Option<Snapshot>, call: Call)
    ensures AcceptsDelta(hash, stored, call) <==>
            call.request.ApplyContext? && stored.Some? && stored.value.state == InputRequired &&
            SameIdentity(stored.value, call.request.body) && Fresh(stored.value, call.request.body)
    ensures AcceptsDelta(hash, stored, call) ==>
              var t := Serve(hash, stored, call).stored;
              t.Some? && t.value.number == stored.value.number + 1 && t.value.state == Working
  {
    hide Field, Get, BodyJson, ValidTask, Canon, Spread, FixedKeys, Lit, StateNamed, Falsy, StrictlyEqual, DeltaField;
    Names();
    DeltaNeedsBody(call);
  }

  lemma DeltaNeedsBody(call: Call)
    ensures call.request.ApplyContext? && DeltaOf(call.request.body).Some? ==> BodyJson(call.request.body).Some?
  {
    hide BodyJson, Get, Lit;
  }

  // ----- All runs -----

  /** Every snapshot ever stored, oldest first; the stored one is the last. */
  function History(hash: Text -> Text, calls: seq<Call>): seq<Snapshot> {
    if calls == [] then []
    else
      var h := History(hash, calls[..|calls| - 1]);
      var o := Serve(hash, Stored(h), calls[|calls| - 1]);
      if o.stored == Stored(h) || o.stored.None? then h else h + [o.stored.value]
  }

  function Stored(h: seq<Snapshot>): Option<Snapshot> {
    if h == [] then None else Some(h[|h| - 1])
  }

  /** Events numbered without gap up to `last`, each starting where the one before ended. */
  predicate Linked(events: seq<Event>, last: nat) {
    (forall i :: 0 <= i < |events| ==> events[i].number == last - |events| + 1 + i) &&
    (forall i :: 1 <= i < |events| ==>
       events[i].from == Some(events[i - 1].to) && events[i].to in Next(events[i - 1].to))
  }

  /** The log of a snapshot: the last min(seq, 256) events, linked, the last one ending in the
      current state, the first one the submission while none has been dropped. */
  predicate LogHolds(s: Snapshot) {
    var n := |s.events|;
    s.number >= 1 && n == (if s.number <= 256 then s.number else 256) &&
    s.terminal == Ended(s.state) && LastEvent(s).to == s.state && Linked(s.events, s.number) &&
    (s.number <= 256 ==> s.events[0].from == None)
  }

  lemma LinkedAppend(events: seq<Event>, last: nat, e: Event)
    requires events != [] && Linked(events, last) && e.number == last + 1
    requires e.from == Some(events[|events| - 1].to) && e.to in Next(events[|events| - 1].to)
    ensures Linked(events + [e], last + 1)
  {
    hide Next;
  }

  lemma LinkedDrop(events: seq<Event>, last: nat, k: nat)
    requires Linked(events, last) && k <= |events|
    ensures Linked(events[k..], last)
  {
    hide Next;
    forall i | 1 <= i < |events| - k
      ensures events[k..][i].from == Some(events[k..][i - 1].to) && events[k..][i].to in Next(events[k..][i - 1].to)
    {
      assert events[k..][i] == events[k + i] && events[k..][i - 1] == events[k + i - 1];
    }
  }

  lemma OneEventKeepsLog(s: Snapshot, t: Snapshot)
    requires LogHolds(s) && OneEvent(s, t)
    ensures LogHolds(t) && t.number == s.number + 1
  {
    hide FixedKeys, Linked, Next;
    var e := LastEvent(t);
    var all := s.events + [e];
    LinkedAppend(s.events, s.number, e);
    LinkedDrop(all, t.number, |all| - |t.events|);
    assert all[0..] == all;
  }

  /** The history of a run: snapshot number i has sequence number i + 1 and is one legal event
      on top of snapshot number i - 1. */
  predicate Chained(h: seq<Snapshot>) {
    (h != [] ==> FirstSnapshot(h[0])) &&
    (forall i :: 0 <= i < |h| ==> h[i].number == i + 1 && LogHolds(h[i])) &&
    (forall i :: 1 <= i < |h| ==> OneEvent(h[i - 1], h[i]))
  }

  /** Whatever the requests: the history is a chain and its last snapshot is the stored one. */
  lemma {:induction false} HistoryChained(hash: Text -> Text, calls: seq<Call>)
    ensures Chained(History(hash, calls))
    ensures calls != [] ==>
              Stored(History(hash, calls)) ==
              Serve(hash, Stored(History(hash, calls[..|calls| - 1])), calls[|calls| - 1]).stored
  {
    hide Serve, OneEvent, LogHolds, FirstSnapshot;
    if calls != [] {
      var front, last := calls[..|calls| - 1], calls[|calls| - 1];
      HistoryChained(hash, front);
      var h := History(hash, front);
      ServeWrites(hash, Stored(h), last);
      var o := Serve(hash, Stored(h), last);
      if o.stored != Stored(h) {
        if h == [] { FirstLog(o.stored.value); }
        else { OneEventKeepsLog(h[|h| - 1], o.stored.value); }
      }
    }
  }

  lemma FirstLog(s: Snapshot)
    requires FirstSnapshot(s)
    ensures LogHolds(s) && s.number == 1
  {
  }

  /** Apply the logged events one after the other. */
  function Replay(s: Snapshot, events: seq<Event>): Snapshot {
    if events == [] then s else Extended(Replay(s, events[..|events| - 1]), events[|events| - 1])
  }

  /** The events that led from snapshot number `lo` to snapshot number `hi`. */
  function EventsOf(h: seq<Snapshot>, lo: nat, hi: nat): seq<Event>
    requires lo <= hi < |h| && Chained(h)
  {
    seq(hi - lo, i requires 0 <= i < hi - lo => LastEvent(h[lo + 1 + i]))
  }

  lemma {:induction false} ReplayEvents(h: seq<Snapshot>, lo: nat, hi: nat)
    requires lo <= hi < |h| && Chained(h)
    ensures Replay(h[lo], EventsOf(h, lo, hi)) == h[hi]
    decreases hi
  {
    hide LogHolds, Extended;
    if lo < hi {
      ReplayEvents(h, lo, hi - 1);
      assert EventsOf(h, lo, hi)[..hi - lo - 1] == EventsOf(h, lo, hi - 1);
      assert OneEvent(h[hi - 1], h[hi]);
    }
  }

  /** The log of a snapshot is the events of the history, the oldest ones dropped. */
  lemma {:induction false} LogIsHistory(h: seq<Snapshot>, hi: nat, k: nat)
    requires hi < |h| && Chained(h) && k < |h[hi].events|
    ensures h[hi].events[k] == LastEvent(h[hi + 1 - |h[hi].events| + k])
    decreases hi
  {
    hide FixedKeys, Linked, Next, FirstSnapshot;
    if k < |h[hi].events| - 1 {
      var s, t := h[hi - 1], h[hi];
      assert OneEvent(s, t);
      var j := k + |s.events| + 1 - |t.events|;
      assert t.events[k] == s.events[j];
      LogIsHistory(h, hi - 1, j);
    }
  }

  /** The snapshot from which the log of snapshot number `hi` starts, and the logged events
      after it: the submitted snapshot while the log is whole. */
  function LogStart(s: Snapshot): nat { if s.number <= 256 then 0 else s.number - 256 - 1 }

  function Logged(s: Snapshot): seq<Event>
    requires LogHolds(s)
  {
    if s.number <= 256 then s.events[1..] else s.events
  }

  lemma LoggedIsHistory(h: seq<Snapshot>, hi: nat)
    requires hi < |h| && Chained(h) && LogHolds(h[hi]) && h[hi].number == hi + 1
    ensures LogStart(h[hi]) <= hi && Logged(h[hi]) == EventsOf(h, LogStart(h[hi]), hi)
  {
    hide Chained, FixedKeys;
    var s := h[hi];
    var lo := LogStart(s);
    forall i | 0 <= i < |Logged(s)| ensures Logged(s)[i] == EventsOf(h, lo, hi)[i] {
      LogIsHistory(h, hi, if s.number <= 256 then i + 1 else i);
    }
  }

  /** The bounded log rebuilds the state: replaying the events of the stored snapshot from the
      snapshot just before the first of them (from the submitted one while the log is whole)
      gives the stored snapshot back. */
  lemma LogRebuilds(hash: Text -> Text, calls: seq<Call>)
    ensures var h := History(hash, calls);
            Chained(h) &&
            (h != [] ==>
               var s := h[|h| - 1];
               s.number == |h| && LogHolds(s) && LogStart(s) < |h| &&
               (s.number > 256 ==> h[LogStart(s)].number + 1 == s.events[0].number) &&
               Replay(h[LogStart(s)], Logged(s)) == s)
  {
    hide OneEvent, FirstSnapshot, Serve, History, Logged, EventsOf;
    HistoryChained(hash, calls);
    var h := History(hash, calls);
    if h != [] {
      LoggedIsHistory(h, |h| - 1);
      ReplayEvents(h, LogStart(h[|h| - 1]), |h| - 1);
    }
  }

  function SeqOf(stored: Option<Snapshot>): nat { if stored.Some? then stored.value.number else 0 }

  /** The snapshot in storage before request number `i`. */
  function Before(hash: Text -> Text, calls: seq<Call>, i: nat): Option<Snapshot>
    requires i <= |calls|
  {
    Stored(History(hash, calls[..i]))
  }

  /** From one request to the next. */
  lemma BeforeNext(hash: Text -> Text, calls: seq<Call>, i: nat)
    requires i < |calls|
    ensures Before(hash, calls, i + 1) == Serve(hash, Before(hash, calls, i), calls[i]).stored
    ensures SeqOf(Before(hash, calls, i)) <= SeqOf(Before(hash, calls, i + 1))
  {
    hide Serve, History, LogHolds, FixedKeys;
    HistoryChained(hash, calls[..i + 1]);
    assert calls[..i + 1][..i] == calls[..i];
    ServeWrites(hash, Before(hash, calls, i), calls[i]);
  }

  lemma {:induction false} SeqGrows(hash: Text -> Text, calls: seq<Call>, i: nat, j: nat)
    requires i <= j <= |calls|
    ensures SeqOf(Before(hash, calls, i)) <= SeqOf(Before(hash, calls, j))
    decreases j
  {
    hide Before, Serve, History;
    if i < j {
      SeqGrows(hash, calls, i, j - 1);
      BeforeNext(hash, calls, j - 1);
    }
  }

  function ExpectedSeq(call: Call): Option<Json> {
    if call.request.ApplyContext? then DeltaField(call.request.body, Lit("expected_seq")) else None
  }

  /** On any run, of two accepted deltas the later one expected a larger sequence number, so
      no two share one. */
  lemma AcceptedInSequence(hash: Text -> Text, calls: seq<Call>, i: nat, j: nat)
    requires i < j < |calls|
    requires AcceptsDelta(hash, Before(hash, calls, i), calls[i])
    requires AcceptsDelta(hash, Before(hash, calls, j), calls[j])
    ensures ExpectedSeq(calls[i]) == Some(Num(SeqOf(Before(hash, calls, i))))
    ensures ExpectedSeq(calls[j]) == Some(Num(SeqOf(Before(hash, calls, j))))
    ensures SeqOf(Before(hash, calls, i)) < SeqOf(Before(hash, calls, j))
    ensures ExpectedSeq(calls[i]) != ExpectedSeq(calls[j])
  {
    hide Before, Serve, SameIdentity, DeltaField, RequestId, Lit;
    AcceptedExactly(hash, Before(hash, calls, i), calls[i]);
    AcceptedExactly(hash, Before(hash, calls, j), calls[j]);
    BeforeNext(hash, calls, i);
    SeqGrows(hash, calls, i + 1, j);
  }

  /** Once the stored snapshot is terminal, no later request changes anything in it. */
  lemma {:induction false} EndedStays(hash: Text -> Text, calls: seq<Call>, i: nat, j: nat)
    requires i <= j <= |calls|
    requires Before(hash, calls, i).Some? && Ended(Before(hash, calls, i).value.state)
    ensures Before(hash, calls, j) == Before(hash, calls, i)
    decreases j
  {
    hide Before, Serve, History, OneEvent;
    if i < j {
      EndedStays(hash, calls, i, j - 1);
      BeforeNext(hash, calls, j - 1);
      ServeWrites(hash, Before(hash, calls, j - 1), calls[j - 1]);
    }
  }
}
