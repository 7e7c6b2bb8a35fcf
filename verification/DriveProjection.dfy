/** The Drive projection: one status file a task, overwritten by snapshots with a higher
    sequence number. */
module DriveProjection {
  import opened Utf16
  import opened Wrappers
  import opened KeySort
  import opened Json
  import opened JsonParser
  import opened TaskState

  const PROPERTY_LIMIT: nat := 120

  /** A file of the projection folder: its `akashic_task_id` property and its bytes. */
  datatype File = File(taskId: Text, content: Text)

  /** The files in the order in which Drive created them; a file's id is its place. */
  type Folder = seq<File>

  datatype ProjectionError = InvalidSnapshot | UnreadableFile

  datatype Receipt =
    | Stale(fileId: nat, currentSeq: int)
    | Replay(fileId: nat, currentSeq: int)
    | Applied(fileId: nat, stateSeq: int)

  /** What the folder is afterwards, and the answer. */
  datatype Outcome = Outcome(files: Folder, receipt: Result<Receipt, ProjectionError>)

  function Content(snapshot: Json): Text { Canon(snapshot) + [NEWLINE] }

  predicate ValidSnapshot(s: Json) {
    !Falsy(s) && Get(s, Lit("task_id")).Some? && Get(s, Lit("task_id")).value.Str? &&
    Get(s, Lit("state_seq")).Some? && Get(s, Lit("state_seq")).value.Num? &&
    -MAX_SAFE_INTEGER <= Get(s, Lit("state_seq")).value.n <= MAX_SAFE_INTEGER
  }

  function TaskId(s: Json): Text
    requires ValidSnapshot(s)
  {
    Get(s, Lit("task_id")).value.s
  }

  function Seq(s: Json): int
    requires ValidSnapshot(s)
  {
    Get(s, Lit("state_seq")).value.n
  }

  /** `findProjection`: the oldest file whose property is the task id. */
  function Find(files: Folder, taskId: Text): (r: Option<nat>)
    ensures r.Some? ==> r.value < |files| && files[r.value].taskId == taskId
    ensures r.Some? ==> forall i :: 0 <= i < r.value ==> files[i].taskId != taskId
    ensures r.None? ==> forall i :: 0 <= i < |files| ==> files[i].taskId != taskId
  {
    if files == [] then None
    else
      match Find(files[..|files| - 1], taskId)
      case Some(i) => Some(i)
      case None => if files[|files| - 1].taskId == taskId then Some(|files| - 1) else None
  }

  /** `Number(current?.state_seq ?? -1)`; `None` is NaN. */
  function CurrentSeq(current: Json): Option<int> {
    match Get(current, Lit("state_seq"))
    case Some(Num(n)) => Some(n)
    case Some(Null) => Some(-1)
    case None => Some(-1)
    case _ => None
  }

  /** `task_id.slice(0, 120)`. */
  function Property(taskId: Text): Text {
    if |taskId| <= PROPERTY_LIMIT then taskId else taskId[..PROPERTY_LIMIT]
  }

  function Written(files: Folder, place: nat, s: Json): Folder
    requires ValidSnapshot(s) && place <= |files|
  {
    var file := File(Property(TaskId(s)), Content(s));
    if place == |files| then files + [file] else files[place := file]
  }

  function Write(files: Folder, place: nat, s: Json): Outcome
    requires ValidSnapshot(s) && place <= |files|
  {
    Outcome(Written(files, place, s), Ok(Applied(place, Seq(s))))
  }

  /** `projectTaskSnapshot`. */
  function Project(files: Folder, s: Json): Outcome {
    if !ValidSnapshot(s) then Outcome(files, Err(InvalidSnapshot))
    else
      match Find(files, TaskId(s))
      case None => Write(files, |files|, s)
      case Some(i) =>
        match Parse(files[i].content)
        case None => Outcome(files, Err(UnreadableFile))
        case Some(current) =>
          var held := CurrentSeq(current);
          if held.Some? && held.value > Seq(s) then Outcome(files, Ok(Stale(i, held.value)))
          else if held == Some(Seq(s)) && Canon(current) == Canon(s) then Outcome(files, Ok(Replay(i, Seq(s))))
          else Write(files, i, s)
  }

  /** The folder the projector works on. */
  class Projector {
    var files: Folder

    constructor ()
      ensures files == []
    {
      files := [];
    }

    /** `projectTaskSnapshot`: find, read, compare, then create or overwrite one file. */
    method ProjectTaskSnapshot(s: Json) returns (r: Result<Receipt, ProjectionError>)
      modifies this
      ensures Outcome(files, r) == Project(old(files), s)
    {
      hide ValidSnapshot, Canon, Parse;
      if !ValidSnapshot(s) { return Err(InvalidSnapshot); }
      var currentFile := Find(files, TaskId(s));
      if currentFile.Some? {
        var current := Parse(files[currentFile.value].content);
        if current.None? { return Err(UnreadableFile); }
        var currentSeq := CurrentSeq(current.value);
        if currentSeq.Some? && currentSeq.value > Seq(s) { return Ok(Stale(currentFile.value, currentSeq.value)); }
        if currentSeq == Some(Seq(s)) && Canon(current.value) == Canon(s) {
          return Ok(Replay(currentFile.value, Seq(s)));
        }
      }
      var file := File(Property(TaskId(s)), Content(s));
      var fileId: nat;
      if currentFile.Some? {
        fileId := currentFile.value;
        files := files[fileId := file];
      } else {
        fileId := |files|;
        files := files + [file];
      }
      return Ok(Applied(fileId, Seq(s)));
    }
  }

  // ----- Reading a written file back -----

  lemma OneSpace()
    ensures SkipSpace([NEWLINE]) == []
  {
    var t: Text := [NEWLINE];
    assert t[1..] == [];
  }

  /** What is read from a written file is the snapshot, up to the order of object keys. */
  lemma ReadBack(s: Json)
    requires WF(s)
    ensures Parse(Content(s)) == Some(Normal(s))
    ensures Canon(Normal(s)) == Canon(s)
  {
    CanonIsStringifyNormal(s);
    NormalWF(s);
    ParseStringified(Normal(s), [NEWLINE]);
    OneSpace();
    NormalIdempotent(s);
  }

  lemma SeqNormal(s: Json)
    requires WF(s) && ValidSnapshot(s)
    ensures CurrentSeq(Normal(s)) == Some(Seq(s))
  {
    GetNormal(s, Lit("state_seq"));
    hide Get, Lit;
  }

  // ----- All runs -----

  /** Snapshots of any tasks, whose ids fit the property. */
  predicate Fitting(snaps: seq<Json>) {
    forall i :: 0 <= i < |snaps| ==> WF(snaps[i]) && ValidSnapshot(snaps[i]) && |TaskId(snaps[i])| <= 120
  }

  /** The folder after the snapshots have been projected one call at a time. */
  function Projected(snaps: seq<Json>): Folder {
    if snaps == [] then [] else Project(Projected(snaps[..|snaps| - 1]), snaps[|snaps| - 1]).files
  }

  /** The bytes of the file that a reader finds for a task. */
  function Shown(files: Folder, taskId: Text): Option<Text> {
    match Find(files, taskId) case Some(i) => Some(files[i].content) case None => None
  }

  /** Whether a snapshot replaces the one that is held. */
  predicate Replaces(s: Json, held: Option<Json>)
    requires ValidSnapshot(s) && (held.Some? ==> ValidSnapshot(held.value))
  {
    held.None? || Seq(s) > Seq(held.value) || (Seq(s) == Seq(held.value) && Canon(s) != Canon(held.value))
  }

  /** The snapshot of a task that the folder should hold. */
  function Held(snaps: seq<Json>, taskId: Text): (r: Option<Json>)
    ensures r.Some? ==> ValidSnapshot(r.value) && TaskId(r.value) == taskId && r.value in snaps
  {
    if snaps == [] then None
    else
      var held := Held(snaps[..|snaps| - 1], taskId);
      var s := snaps[|snaps| - 1];
      if ValidSnapshot(s) && TaskId(s) == taskId && Replaces(s, held) then Some(s) else held
  }

  lemma FindWritten(files: Folder, place: nat, s: Json, taskId: Text)
    requires ValidSnapshot(s) && |TaskId(s)| <= 120
    requires place == (match Find(files, TaskId(s)) case Some(i) => i case None => |files|)
    ensures Shown(Written(files, place, s), taskId) ==
            if taskId == TaskId(s) then Some(Content(s)) else Shown(files, taskId)
  {
    hide ValidSnapshot, TaskId, Content;
    if place == |files| {
      var file := File(Property(TaskId(s)), Content(s));
      assert (files + [file])[..|files|] == files;
    } else {
      SameNames(files, Written(files, place, s), taskId);
    }
  }

  /** Finding looks at the names only. */
  lemma {:induction false} SameNames(files: Folder, files': Folder, taskId: Text)
    requires |files| == |files'| && forall i :: 0 <= i < |files| ==> files[i].taskId == files'[i].taskId
    ensures Find(files, taskId) == Find(files', taskId)
  {
    if files != [] { SameNames(files[..|files| - 1], files'[..|files| - 1], taskId); }
  }

  function ContentOf(held: Option<Json>): Option<Text> {
    match held case Some(s) => Some(Content(s)) case None => None
  }

  /** One call: the file of the snapshot's task is replaced if it should be, and no other file
      changes for any reader. */
  lemma ProjectStep(files: Folder, s: Json, held: Option<Json>, taskId: Text)
    requires WF(s) && ValidSnapshot(s) && |TaskId(s)| <= 120
    requires held.Some? ==> WF(held.value) && ValidSnapshot(held.value)
    requires Shown(files, TaskId(s)) == ContentOf(held)
    ensures var o := Project(files, s);
            o.receipt.Ok? && (o.receipt.value.Applied? <==> Replaces(s, held)) &&
            Shown(o.files, taskId) == if taskId == TaskId(s) && Replaces(s, held) then Some(Content(s)) else Shown(files, taskId)
  {
    hide ValidSnapshot, TaskId, Seq, Content, CurrentSeq, Written, WF, Normal;
    if held.Some? {
      ReadBack(held.value);
      SeqNormal(held.value);
    }
    FindWritten(files, match Find(files, TaskId(s)) case Some(i) => i case None => |files|, s, taskId);
  }

  /** Whatever snapshots have been projected, in whatever order and however often, the file of
      each task holds the snapshot that `Held` names. */
  lemma {:induction false} ProjectedHolds(snaps: seq<Json>, taskId: Text)
    requires Fitting(snaps)
    ensures Shown(Projected(snaps), taskId) == ContentOf(Held(snaps, taskId))
    decreases |snaps|
  {
    hide ValidSnapshot, TaskId, Shown, WF, Project, Replaces;
    if snaps != [] {
      var front, s := snaps[..|snaps| - 1], snaps[|snaps| - 1];
      ProjectedHolds(front, taskId);
      ProjectedHolds(front, TaskId(s));
      HeldWF(front, TaskId(s));
      ProjectStep(Projected(front), s, Held(front, TaskId(s)), taskId);
    } else {
      NothingShown(taskId);
    }
  }

  lemma NothingShown(taskId: Text)
    ensures Shown([], taskId) == None
  {
  }

  lemma HeldWF(snaps: seq<Json>, taskId: Text)
    requires Fitting(snaps)
    ensures Held(snaps, taskId).Some? ==> WF(Held(snaps, taskId).value)
  {
    hide WF, ValidSnapshot, TaskId;
  }

  /** The held snapshot is one of the task's snapshots with the largest sequence number; there
      is none exactly when the task has no snapshot. */
  lemma {:induction false} HeldIsNewest(snaps: seq<Json>, taskId: Text)
    ensures var h := Held(snaps, taskId);
            forall i :: 0 <= i < |snaps| && ValidSnapshot(snaps[i]) && TaskId(snaps[i]) == taskId ==>
              h.Some? && Seq(snaps[i]) <= Seq(h.value)
    decreases |snaps|
  {
    hide ValidSnapshot, TaskId, Seq, Canon;
    if snaps != [] {
      var front := snaps[..|snaps| - 1];
      HeldIsNewest(front, taskId);
      assert forall i :: 0 <= i < |front| ==> snaps[i] == front[i];
    }
  }

  /** Later calls never lower the sequence number that a task's file shows. */
  lemma {:induction false} HeldNeverLowers(snaps: seq<Json>, n: nat, taskId: Text)
    requires n <= |snaps| && Held(snaps[..n], taskId).Some?
    ensures Held(snaps, taskId).Some? && Seq(Held(snaps[..n], taskId).value) <= Seq(Held(snaps, taskId).value)
  {
    hide ValidSnapshot, TaskId, Seq, Held;
    var h := Held(snaps[..n], taskId).value;
    assert h in snaps;
    HeldIsNewest(snaps, taskId);
  }

  /** The same snapshots of the task, in any order and with any repeats. */
  ghost predicate SameSnapshots(xs: seq<Json>, ys: seq<Json>, taskId: Text) {
    forall s: Json :: ValidSnapshot(s) && TaskId(s) == taskId ==> (s in xs <==> s in ys)
  }

  /** Equal sequence numbers mean equal snapshots. */
  ghost predicate SeqDetermines(snaps: seq<Json>, taskId: Text) {
    forall s: Json, t: Json | s in snaps && t in snaps && ValidSnapshot(s) && ValidSnapshot(t) ::
      (TaskId(s) == taskId && TaskId(t) == taskId && Seq(s) == Seq(t)) ==> Canon(s) == Canon(t)
  }

  /** Convergence: two ways to project the same snapshots of a task leave the same file, and it
      holds the snapshot with the largest sequence number. */
  lemma ProjectionConverges(xs: seq<Json>, ys: seq<Json>, taskId: Text)
    requires Fitting(xs) && Fitting(ys)
    requires SameSnapshots(xs, ys, taskId) && SeqDetermines(xs, taskId)
    ensures Shown(Projected(xs), taskId) == Shown(Projected(ys), taskId)
    ensures Shown(Projected(xs), taskId) == ContentOf(Held(xs, taskId))
  {
    hide ValidSnapshot, TaskId, Seq, Shown, WF, Canon, Fitting, Held, Projected;
    ProjectedHolds(xs, taskId);
    ProjectedHolds(ys, taskId);
    HeldIsNewest(xs, taskId);
    HeldIsNewest(ys, taskId);
    var x, y := Held(xs, taskId), Held(ys, taskId);
    if x.Some? { assert x.value in ys; }
    if y.Some? { assert y.value in xs; }
  }

  // ----- Ids that do not fit -----

  lemma NamesFit(files: Folder, s: Json)
    requires forall i :: 0 <= i < |files| ==> |files[i].taskId| <= 120
    ensures forall i :: 0 <= i < |Project(files, s).files| ==> |Project(files, s).files[i].taskId| <= 120
  {
    hide ValidSnapshot, Canon, Parse, TaskId;
  }

  lemma LongIdAppends(files: Folder, s: Json)
    requires ValidSnapshot(s) && |TaskId(s)| > 120
    requires forall i :: 0 <= i < |files| ==> |files[i].taskId| <= 120
    ensures |Project(files, s).files| == |files| + 1
  {
    hide ValidSnapshot, TaskId, Canon, Parse;
  }

  lemma ShortIdRepeats(snaps: seq<Json>, s: Json)
    requires Fitting(snaps) && WF(s) && ValidSnapshot(s) && |TaskId(s)| <= 120
    ensures var once := Project(Projected(snaps), s).files; Project(once, s).files == once
  {
    hide ValidSnapshot, TaskId, WF, Shown, Held, Project, Replaces;
    var all := snaps + [s];
    assert all[..|snaps|] == snaps && Fitting(all);
    var once := Project(Projected(snaps), s).files;
    assert Projected(all) == once;
    ProjectedHolds(all, TaskId(s));
    HeldWF(all, TaskId(s));
    ProjectStep(once, s, Held(all, TaskId(s)), TaskId(s));
    NotReplaced(snaps, s);
    UnlessApplied(once, s);
  }

  /** Projecting the same snapshot twice is the same as projecting it once exactly when its
      task id fits the property; otherwise every call creates another file. */
  lemma RepeatChangesNothing(snaps: seq<Json>, s: Json)
    requires Fitting(snaps) && WF(s) && ValidSnapshot(s)
    ensures var once := Project(Projected(snaps), s).files;
            (Project(once, s).files == once <==> |TaskId(s)| <= 120) &&
            (|TaskId(s)| > 120 ==> |once| == |Projected(snaps)| + 1 && |Project(once, s).files| == |once| + 1)
  {
    hide ValidSnapshot, TaskId, WF, Project, Projected;
    var files := Projected(snaps);
    ProjectedNamesFit(snaps);
    NamesFit(files, s);
    if |TaskId(s)| <= 120 {
      ShortIdRepeats(snaps, s);
    } else {
      LongIdAppends(files, s);
      LongIdAppends(Project(files, s).files, s);
    }
  }

  lemma NotReplaced(snaps: seq<Json>, s: Json)
    requires ValidSnapshot(s)
    ensures var h := Held(snaps + [s], TaskId(s)); h.Some? && !Replaces(s, h)
  {
    hide ValidSnapshot, TaskId, Seq, Canon;
    assert (snaps + [s])[..|snaps|] == snaps;
  }

  lemma UnlessApplied(files: Folder, s: Json)
    ensures Project(files, s).receipt.Ok? && !Project(files, s).receipt.value.Applied? ==> Project(files, s).files == files
  {
    hide ValidSnapshot, TaskId, Seq, Canon, Parse, CurrentSeq;
  }

  lemma {:induction false} ProjectedNamesFit(snaps: seq<Json>)
    ensures forall i :: 0 <= i < |Projected(snaps)| ==> |Projected(snaps)[i].taskId| <= 120
    decreases |snaps|
  {
    hide Project;
    if snaps != [] {
      ProjectedNamesFit(snaps[..|snaps| - 1]);
      NamesFit(Projected(snaps[..|snaps| - 1]), snaps[|snaps| - 1]);
    }
  }

  // ----- The answers -----

  /** The answer to one call: stale against a larger sequence number on file, a replay of the
      snapshot on file, and applied otherwise; only the last changes the folder. */
  lemma AnswerExactly(files: Folder, s: Json, held: Option<Json>)
    requires WF(s) && ValidSnapshot(s) && |TaskId(s)| <= 120
    requires held.Some? ==> WF(held.value) && ValidSnapshot(held.value)
    requires Shown(files, TaskId(s)) == ContentOf(held)
    ensures var o := Project(files, s); var seq' := Seq(s);
            o.receipt.Ok? &&
            if held.None? then o.receipt.value == Applied(|files|, seq')
            else
              var i := Find(files, TaskId(s)).value;
              if Seq(held.value) > seq' then o.receipt.value == Stale(i, Seq(held.value)) && o.files == files
              else if Seq(held.value) == seq' && Canon(held.value) == Canon(s) then
                o.receipt.value == Replay(i, seq') && o.files == files
              else o.receipt.value == Applied(i, seq')
  {
    hide ValidSnapshot, TaskId, Seq, Content, CurrentSeq, Written, WF, Normal, Canon, Parse;
    if held.Some? {
      ReadBack(held.value);
      SeqNormal(held.value);
    }
  }

  /** A value that is no snapshot, and a file that does not parse, are errors that leave the
      folder alone. */
  lemma ErrorsExactly(files: Folder, s: Json)
    ensures var o := Project(files, s);
            (o.receipt == Err(InvalidSnapshot) <==> !ValidSnapshot(s)) &&
            (o.receipt == Err(UnreadableFile) <==>
               ValidSnapshot(s) && Shown(files, TaskId(s)).Some? && Parse(Shown(files, TaskId(s)).value).None?) &&
            (o.receipt.Err? ==> o.files == files)
  {
    hide ValidSnapshot, TaskId, Seq, Content, CurrentSeq, Canon, Parse;
  }

  /** A written file is found by the first 120 code units of the task id. */
  lemma PropertyExactly(taskId: Text)
    ensures Property(taskId) <= taskId && |Property(taskId)| == if |taskId| <= 120 then |taskId| else 120
  {
  }

  /** A file on which `state_seq` is missing or null counts as number -1, and one on which it is
      no number is always overwritten. */
  lemma UnnumberedFile(files: Folder, s: Json, i: nat, current: Json)
    requires ValidSnapshot(s) && Find(files, TaskId(s)) == Some(i) && Parse(files[i].content) == Some(current)
    ensures var o := Project(files, s);
            match Get(current, Lit("state_seq"))
            case Some(Num(_)) => true
            case Some(x) =>
              if x != Null then o.receipt == Ok(Applied(i, Seq(s)))
              else (o.receipt == Ok(Stale(i, -1)) <==> Seq(s) < -1) && (Seq(s) > -1 ==> o.receipt == Ok(Applied(i, Seq(s))))
            case None => (o.receipt == Ok(Stale(i, -1)) <==> Seq(s) < -1) && (Seq(s) > -1 ==> o.receipt == Ok(Applied(i, Seq(s))))
  {
    hide ValidSnapshot, TaskId, Seq, Canon, Get, Lit, Parse, Written;
  }
}
