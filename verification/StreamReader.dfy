/** The read model of a Vercel run: the latest snapshot in a window at the end of its stream. */
module StreamReader {
  import Utf16
  import opened Wrappers
  import opened Json
  import opened TaskState
  import Protocol
  import opened Vercel

  /** `None` is the `TypeError` for a bad `maxEvents`. */
  type Read = Option<Option<Snapshot>>

  predicate ValidWindow(maxEvents: int) { 1 <= maxEvents <= 1024 }

  /** What a scan of the whole stream finds. */
  function LastSnapshot(stream: seq<Projection>): Option<Snapshot> {
    var snaps := Snapshots(stream);
    if snaps == [] then None else Some(snaps[|snaps| - 1])
  }

  /** The last `maxEvents` events. */
  function Window(stream: seq<Projection>, maxEvents: nat): seq<Projection> {
    if |stream| <= maxEvents then stream else stream[|stream| - maxEvents..]
  }

  /** `readLatestSnapshotFromRun`. */
  method ReadLatestSnapshotFromRun(stream: seq<Projection>, maxEvents: int) returns (r: Read)
    ensures r == if !ValidWindow(maxEvents) then None else Some(LastSnapshot(Window(stream, maxEvents)))
  {
    if !(1 <= maxEvents <= 1024) { return None; }
    var tail := |stream| - 1;
    if tail < 0 { return Some(None); }
    var startIndex := if tail - maxEvents + 1 > 0 then tail - maxEvents + 1 else 0;
    var readable := stream[startIndex..];
    var latest: Option<Snapshot> := None;
    var expectedChunks := tail - startIndex + 1;
    var index := 0;
    while index < expectedChunks
      invariant 0 <= index <= expectedChunks == |readable|
      invariant latest == LastSnapshot(readable[..index])
    {
      var value := readable[index];
      assert readable[..index + 1] == readable[..index] + [value];
      SnapshotsAppend(readable[..index], value);
      if value.TaskSnapshot? { latest := Some(value.snapshot); }
      index := index + 1;
    }
    assert readable[..index] == readable;
    return Some(latest);
  }

  /** How many events, all of them rejections, follow the last snapshot. */
  function TrailingRejections(stream: seq<Projection>): (n: nat)
    ensures n <= |stream|
    ensures forall i :: |stream| - n <= i < |stream| ==> stream[i].DeltaRejected?
    ensures n < |stream| ==> stream[|stream| - n - 1].TaskSnapshot?
  {
    if stream == [] || stream[|stream| - 1].TaskSnapshot? then 0
    else 1 + TrailingRejections(stream[..|stream| - 1])
  }

  /** The last snapshot is the one that the trailing rejections leave. */
  lemma {:induction false} LastOfStream(stream: seq<Projection>)
    ensures var n := TrailingRejections(stream);
            LastSnapshot(stream) == if n == |stream| then None else Some(stream[|stream| - n - 1].snapshot)
    decreases |stream|
  {
    if stream != [] {
      if stream[|stream| - 1].TaskSnapshot? {
      } else {
        LastOfStream(stream[..|stream| - 1]);
      }
    }
  }

  /** A window has the stream's trailing rejections, as far as they fit. */
  lemma {:induction false} WindowRejections(stream: seq<Projection>, maxEvents: nat)
    requires |stream| > maxEvents
    ensures var n := TrailingRejections(stream);
            TrailingRejections(Window(stream, maxEvents)) == if n <= maxEvents then n else maxEvents
  {
    var w := Window(stream, maxEvents);
    var n, m := TrailingRejections(stream), TrailingRejections(w);
    var offset := |stream| - maxEvents;
    assert forall i :: 0 <= i < |w| ==> w[i] == stream[offset + i];
    if m < |w| { assert w[|w| - m - 1].TaskSnapshot? && stream[|stream| - m - 1].TaskSnapshot?; }
    if n < |w| { assert w[|w| - n - 1] == stream[|stream| - n - 1]; }
  }

  /** The window shows what the whole stream shows exactly when the stream has no snapshot, or
      fewer than `maxEvents` rejections follow the last one; otherwise it shows nothing. */
  lemma WindowIsEnough(stream: seq<Projection>, maxEvents: int)
    requires ValidWindow(maxEvents)
    ensures LastSnapshot(Window(stream, maxEvents)) == LastSnapshot(stream) <==>
            Snapshots(stream) == [] || TrailingRejections(stream) < maxEvents
    ensures TrailingRejections(stream) >= maxEvents ==> LastSnapshot(Window(stream, maxEvents)) == None
  {
    NoSnapshot(stream);
    hide Snapshots, LastSnapshot, TrailingRejections;
    LastOfStream(stream);
    if |stream| > maxEvents {
      LastOfStream(Window(stream, maxEvents));
      WindowRejections(stream, maxEvents);
    }
  }

  lemma NoSnapshot(stream: seq<Projection>)
    ensures LastSnapshot(stream) == None <==> Snapshots(stream) == []
  {
    hide Snapshots;
  }

  /** On every run: while fewer than `maxEvents` rejections follow the last snapshot the reader
      shows the state the run is in, and otherwise it reports no snapshot although there is one. */
  lemma ReaderFollowsRun(task: Json, runId: Utf16.Text, events: seq<Event>, maxEvents: int)
    requires ValidTaskCapsule(task) && ValidWindow(maxEvents)
    ensures var v := Exec(Started(InitialSnapshot(task, runId).value), events);
            var read := LastSnapshot(Window(v.stream, maxEvents));
            (TrailingRejections(v.stream) < maxEvents <==> read.Some?) &&
            (read.Some? ==> read.value.view == v.snap.view && (v.pc.Done? ==> read.value == v.snap))
  {
    hide Snapshots, Exec, Started, InitialSnapshot, ValidTaskCapsule, TrailingRejections, Window, Protocol.Accounts;
    StartedInv(task, runId);
    var v0 := Started(InitialSnapshot(task, runId).value);
    RunRefines(v0, events);
    WindowIsEnough(Exec(v0, events).stream, maxEvents);
  }
}
