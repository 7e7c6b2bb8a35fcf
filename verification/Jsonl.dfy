/** The JSONL corpus: one canonical case a line, and the parser that reads it back. */
module Jsonl {
  import opened Utf16
  import opened Wrappers
  import opened KeySort
  import opened Json
  import opened JsonParser
  import opened EvalCases

  const RETURN: Unit := 13

  // ----- Lines -----

  predicate HasNewline(t: Text) { NEWLINE in t }

  function DropReturn(t: Text): Text {
    if t != [] && t[|t| - 1] == RETURN then t[..|t| - 1] else t
  }

  /** Where the first newline stands, or the length. */
  function LineEnd(t: Text): (n: nat)
    ensures n <= |t|
    ensures n < |t| ==> t[n] == NEWLINE
    ensures forall i :: 0 <= i < n ==> t[i] != NEWLINE
  {
    if t == [] || t[0] == NEWLINE then 0 else 1 + LineEnd(t[1..])
  }

  /** `text.split(/\r?\n/)`. */
  function Lines(t: Text): (ls: seq<Text>)
    ensures ls != []
    decreases |t|
  {
    var n := LineEnd(t);
    if n == |t| then [t] else [DropReturn(t[..n])] + Lines(t[n + 1..])
  }

  /** The characters that `trim` removes. */
  predicate Blank(u: Unit) {
    9 <= u <= 13 || u == 32 || u == 0xA0 || u == 0x1680 || 0x2000 <= u <= 0x200A ||
    u == 0x2028 || u == 0x2029 || u == 0x202F || u == 0x205F || u == 0x3000 || u == 0xFEFF
  }

  /** WhiteSpace and LineTerminator of ECMA-262, sections 12.2 and 12.3, one by one. */
  const BLANKS: seq<int> :=
    [0x9, 0xA, 0xB, 0xC, 0xD, 0x20, 0xA0, 0x1680, 0x2000, 0x2001, 0x2002, 0x2003, 0x2004, 0x2005, 0x2006, 0x2007,
     0x2008, 0x2009, 0x200A, 0x2028, 0x2029, 0x202F, 0x205F, 0x3000, 0xFEFF]

  lemma BlankExactly(u: Unit)
    ensures Blank(u) <==> (u as int) in BLANKS
  {
    var n := |BLANKS|;
    assert n == 25;
    if Blank(u) {
      if 9 <= u <= 13 { assert BLANKS[u - 9] == u; }
      if 0x2000 <= u <= 0x200A { assert BLANKS[u - 0x2000 + 8] == u; }
    }
  }

  function TrimStart(t: Text): Text { if t != [] && Blank(t[0]) then TrimStart(t[1..]) else t }

  function TrimEnd(t: Text): Text { if t != [] && Blank(t[|t| - 1]) then TrimEnd(t[..|t| - 1]) else t }

  function Trim(t: Text): Text { TrimEnd(TrimStart(t)) }

  // ----- parseEvalJsonl -----

  datatype JsonlError = InvalidJson(line: nat) | InvalidCase(error: CaseError) | DuplicateId(line: nat) | DuplicateIds

  type Parsed = Result<seq<Json>, JsonlError>

  /** The lines from number `offset` on, after cases with the ids `seen`. */
  function ParseLines(hash: Text -> Text, lines: seq<Text>, offset: nat, seen: set<Text>): Parsed {
    if lines == [] then Ok([])
    else
      var line := Trim(lines[0]);
      if line == [] then ParseLines(hash, lines[1..], offset + 1, seen)
      else
        match Parse(line)
        case None => Err(InvalidJson(offset + 1))
        case Some(v) =>
          if !ValidCase(hash, v) then Err(InvalidCase(CaseErrorOf(hash, v)))
          else if CaseId(v) in seen then Err(DuplicateId(offset + 1))
          else
            match ParseLines(hash, lines[1..], offset + 1, seen + {CaseId(v)})
            case Err(e) => Err(e)
            case Ok(vs) => Ok([v] + vs)
  }

  /** What accepted lines yield: valid cases, with ids distinct among themselves and new. */
  lemma {:induction false} ParsedCases(hash: Text -> Text, lines: seq<Text>, offset: nat, seen: set<Text>)
    ensures var r := ParseLines(hash, lines, offset, seen);
            r.Ok? ==>
              AllWF(r.value) && AllValid(hash, r.value) && DistinctIds(r.value) &&
              forall i :: 0 <= i < |r.value| ==> CaseId(r.value[i]) !in seen
    decreases lines
  {
    hide ValidCase, CaseErrorOf, CaseId, Parse, Trim;
    if lines != [] {
      var line := Trim(lines[0]);
      if line == [] {
        ParsedCases(hash, lines[1..], offset + 1, seen);
      } else if Parse(line).Some? && ValidCase(hash, Parse(line).value) {
        ParsedCases(hash, lines[1..], offset + 1, seen + {CaseId(Parse(line).value)});
      }
    }
  }

  predicate DistinctIds(cases: seq<Json>) {
    forall i, j :: 0 <= i < j < |cases| ==> CaseId(cases[i]) != CaseId(cases[j])
  }

  function ParseText(hash: Text -> Text, text: Text): Parsed { ParseLines(hash, Lines(text), 0, {}) }

  /** Put the cases read so far before the rest of the answer. */
  function After(cases: seq<Json>, rest: Parsed): Parsed {
    match rest case Ok(vs) => Ok(cases + vs) case Err(e) => Err(e)
  }

  lemma AfterNothing(rest: Parsed)
    ensures After([], rest) == rest
  {
    if rest.Ok? { assert [] + rest.value == rest.value; }
  }

  /** `parseEvalJsonl`: one pass over the lines, pushing cases and adding their ids. */
  method ParseEvalJsonl(hash: Text -> Text, text: Text) returns (r: Parsed)
    ensures r == ParseText(hash, text)
  {
    hide ValidCase, ValidateEvalCase, CaseId, Parse, Trim, Lines, DistinctIds;
    var cases: seq<Json> := [];
    var ids: set<Text> := {};
    var lines := Lines(text);
    var offset := 0;
    assert lines[0..] == lines;
    AfterNothing(ParseLines(hash, lines, 0, {}));
    while offset < |lines|
      invariant 0 <= offset <= |lines|
      invariant ParseLines(hash, lines, 0, {}) == After(cases, ParseLines(hash, lines[offset..], offset, ids))
    {
      var line := Trim(lines[offset]);
      assert lines[offset..][0] == lines[offset] && lines[offset..][1..] == lines[offset + 1..];
      if line != [] {
        var parsed := Parse(line);
        if parsed.None? { return Err(InvalidJson(offset + 1)); }
        var item := parsed.value;
        if !ValidCase(hash, item) { return Err(InvalidCase(CaseErrorOf(hash, item))); }
        if CaseId(item) in ids { return Err(DuplicateId(offset + 1)); }
        assert forall vs: seq<Json> :: cases + ([item] + vs) == (cases + [item]) + vs;
        ids := ids + {CaseId(item)};
        cases := cases + [item];
      }
      offset := offset + 1;
    }
    assert cases + [] == cases;
    return Ok(cases);
  }

  function CaseErrorOf(hash: Text -> Text, v: Json): CaseError
    requires !ValidCase(hash, v)
  {
    ValidateEvalCase(hash, v).value
  }

  // ----- serializeEvalJsonl -----

  function CanonAll(cases: seq<Json>): seq<Text> {
    if cases == [] then [] else [Canon(cases[0])] + CanonAll(cases[1..])
  }

  /** `ts.join("\n")`. */
  function JoinLines(ts: seq<Text>): Text {
    if ts == [] then [] else if |ts| == 1 then ts[0] else ts[0] + [NEWLINE] + JoinLines(ts[1..])
  }

  predicate AllValid(hash: Text -> Text, cases: seq<Json>) {
    forall i :: 0 <= i < |cases| ==> ValidCase(hash, cases[i])
  }

  function FirstInvalid(hash: Text -> Text, cases: seq<Json>): CaseError
    requires !AllValid(hash, cases)
  {
    if !ValidCase(hash, cases[0]) then ValidateEvalCase(hash, cases[0]).value else FirstInvalid(hash, cases[1..])
  }

  /** `serializeEvalJsonl`. */
  function SerializeEvalJsonl(hash: Text -> Text, cases: seq<Json>): Result<Text, JsonlError> {
    if !AllValid(hash, cases) then Err(InvalidCase(FirstInvalid(hash, cases)))
    else if !DistinctIds(cases) then Err(DuplicateIds)
    else Ok(JoinLines(CanonAll(cases)) + if cases != [] then [NEWLINE] else [])
  }

  // ----- A canonical text is one trimmed line -----

  /** No control characters. */
  predicate Printable(t: Text) { forall i :: 0 <= i < |t| ==> t[i] >= 32 }

  lemma EscapeUnitPrintable(u: Unit)
    ensures Printable(EscapeUnit(u))
  {
  }

  lemma {:induction false} EscapedPrintable(s: Text)
    ensures Printable(Escaped(s))
  {
    hide EscapeUnit;
    if s != [] {
      if |s| > 1 && HighSurrogate(s[0]) && LowSurrogate(s[1]) { EscapedPrintable(s[2..]); }
      else { EscapeUnitPrintable(s[0]); EscapedPrintable(s[1..]); }
    }
  }

  lemma {:induction false} StringifyPrintable(v: Json)
    requires WF(v)
    ensures Printable(Stringify(v))
    decreases v, 1
  {
    match v
    case Num(n) => NumberOfDecimal(n);
    case Str(s) =>
      EscapedPrintable(s);
      WrapPrintable(QUOTE, Escaped(s), QUOTE);
    case Arr(items) =>
      ItemsPrintable(items);
      WrapPrintable(OPEN_ARR, JoinItems(StringifyItems(items)), CLOSE_ARR);
    case Obj(members) =>
      MembersPrintable(members);
      WrapPrintable(OPEN_OBJ, JoinMembers(StringifyMembers(members)), CLOSE_OBJ);
    case _ => KeywordPrintable(v);
  }

  lemma WrapPrintable(a: Unit, t: Text, b: Unit)
    requires a >= 32 && b >= 32 && Printable(t)
    ensures Printable([a] + t + [b])
  {
  }

  lemma KeywordPrintable(v: Json)
    requires WF(v) && (v.Null? || v.Bool? || v.Frac?)
    ensures Printable(Stringify(v))
  {
  }

  lemma {:induction false} ItemsPrintable(items: seq<Json>)
    requires WFItems(items)
    ensures Printable(JoinItems(StringifyItems(items)))
    decreases items, 0
  {
    if items != [] {
      StringifyPrintable(items[0]);
      ItemsPrintable(items[1..]);
      assert StringifyItems(items)[1..] == StringifyItems(items[1..]);
    }
  }

  lemma MemberPrintable(key: Text, value: Text)
    requires Printable(value)
    ensures Printable(Quoted(key) + [COLON] + value)
  {
    hide Escaped;
    EscapedPrintable(key);
    WrapPrintable(QUOTE, Escaped(key), QUOTE);
  }

  lemma {:induction false} MembersPrintable(members: seq<Entry<Json>>)
    requires WFMembers(members)
    ensures Printable(JoinMembers(StringifyMembers(members)))
    decreases members, 0
  {
    hide Quoted, Stringify;
    if members != [] {
      StringifyPrintable(members[0].value);
      MemberPrintable(members[0].key, Stringify(members[0].value));
      MembersPrintable(members[1..]);
      assert StringifyMembers(members)[1..] == StringifyMembers(members[1..]);
    }
  }

  /** The line of an object has no newline or return, and `trim` leaves it alone. */
  lemma CanonIsALine(v: Json)
    requires WF(v) && v.Obj?
    ensures var t := Canon(v);
            t != [] && !HasNewline(t) && DropReturn(t) == t && Trim(t) == t
  {
    CanonIsStringifyNormal(v);
    NormalWF(v);
    StringifyPrintable(Normal(v));
    var t := Canon(v);
    assert t[0] == OPEN_OBJ && t[|t| - 1] == CLOSE_OBJ;
    hide Canon, Stringify, Normal;
    assert TrimStart(t) == t && TrimEnd(t) == t;
  }

  // ----- Splitting what was joined -----

  /** The lines of a text that starts with a whole line. */
  lemma LinesOfJoined(line: Text, rest: Text)
    requires !HasNewline(line) && DropReturn(line) == line
    ensures Lines(line + [NEWLINE] + rest) == [line] + Lines(rest)
  {
    var t := line + [NEWLINE] + rest;
    var n := LineEnd(t);
    assert t[|line|] == NEWLINE;
    assert forall i :: 0 <= i < |line| ==> t[i] == line[i] && line[i] in line;
    assert n == |line|;
    assert t[..n] == line && t[n + 1..] == rest;
  }

  function Written(cases: seq<Json>): Text {
    JoinLines(CanonAll(cases)) + if cases != [] then [NEWLINE] else []
  }

  lemma WrittenSplit(cases: seq<Json>)
    requires cases != []
    ensures Written(cases) == Canon(cases[0]) + [NEWLINE] + Written(cases[1..])
  {
    var ts := CanonAll(cases);
    hide Canon;
    assert ts[1..] == CanonAll(cases[1..]);
    assert |ts| == 1 <==> |cases| == 1 by { CanonAllLength(cases); }
    if |cases| > 1 {
      assert ts[0] + [NEWLINE] + JoinLines(ts[1..]) + [NEWLINE] == ts[0] + [NEWLINE] + (JoinLines(ts[1..]) + [NEWLINE]);
    }
  }

  lemma {:induction false} CanonAllLength(cases: seq<Json>)
    ensures |CanonAll(cases)| == |cases|
  {
    if cases != [] { CanonAllLength(cases[1..]); }
  }

  lemma ValidIsObject(hash: Text -> Text, v: Json)
    requires ValidCase(hash, v)
    ensures v.Obj?
  {
    hide CheckEvidence, CheckExpected, DigestAgrees, Get, Lit;
  }

  /** Parsing written cases gives them back, up to the order of object keys. */
  lemma {:induction false} ParseWritten(hash: Text -> Text, cases: seq<Json>, offset: nat, seen: set<Text>)
    requires AllWF(cases) && AllValid(hash, cases) && DistinctIds(cases)
    requires forall i :: 0 <= i < |cases| ==> CaseId(cases[i]) !in seen
    ensures ParseLines(hash, Lines(Written(cases)), offset, seen) == Ok(NormalItems(cases))
  {
    hide Canon, Normal, ValidCase, CaseId, Trim, Parse;
    if cases == [] {
      assert Written(cases) == [] && Lines([]) == [[]];
      assert Trim([]) == [] by { TrimNothing(); }
      var none: seq<Text> := [[]];
      assert none[1..] == [];
    } else {
      var c := cases[0];
      WrittenSplit(cases);
      ValidIsObject(hash, c);
      CanonIsALine(c);
      LinesOfJoined(Canon(c), Written(cases[1..]));
      ParseInvertsCanon(c);
      NormalValid(hash, c);
      ParseWritten(hash, cases[1..], offset + 1, seen + {CaseId(c)});
      assert Lines(Written(cases))[1..] == Lines(Written(cases[1..]));
    }
  }

  lemma TrimNothing()
    ensures Trim([]) == []
  {
  }

  lemma NormalValid(hash: Text -> Text, v: Json)
    requires WF(v) && ValidCase(hash, v)
    ensures ValidCase(hash, Normal(v)) && CaseId(Normal(v)) == CaseId(v) && WF(Normal(v))
  {
    hide ValidateEvalCase, CaseId, Normal;
    ValidationNormal(hash, v);
    NormalWF(v);
  }

  /** The round trip: every list of valid cases with distinct ids is written, and reading the
      text gives the same cases up to the order of object keys. */
  lemma JsonlRoundTrip(hash: Text -> Text, cases: seq<Json>)
    requires AllWF(cases)
    ensures SerializeEvalJsonl(hash, cases).Ok? <==> AllValid(hash, cases) && DistinctIds(cases)
    ensures SerializeEvalJsonl(hash, cases).Ok? ==>
              var r := ParseText(hash, SerializeEvalJsonl(hash, cases).value);
              r.Ok? && r.value == NormalItems(cases) &&
              forall i :: 0 <= i < |cases| ==> Equiv(cases[i], r.value[i])
  {
    hide ValidCase, CaseId, Lines, Canon, FirstInvalid;
    if AllValid(hash, cases) && DistinctIds(cases) {
      ParseWritten(hash, cases, 0, {});
      forall i | 0 <= i < |cases| ensures Equiv(cases[i], NormalItems(cases)[i]) { NormalEquiv(cases[i]); }
    }
  }

  lemma {:induction false} CanonAllNormal(cases: seq<Json>)
    requires AllWF(cases)
    ensures CanonAll(NormalItems(cases)) == CanonAll(cases)
  {
    hide Canon, Normal;
    if cases != [] {
      NormalIdempotent(cases[0]);
      CanonAllNormal(cases[1..]);
      assert NormalItems(cases)[1..] == NormalItems(cases[1..]);
    }
  }

  /** The fixed point: whatever text is accepted, writing its cases succeeds, and reading and
      writing once more changes nothing. */
  lemma JsonlFixedPoint(hash: Text -> Text, text: Text)
    requires ParseText(hash, text).Ok?
    ensures var cases := ParseText(hash, text).value;
            SerializeEvalJsonl(hash, cases).Ok? &&
            var written := SerializeEvalJsonl(hash, cases).value;
            ParseText(hash, written).Ok? &&
            SerializeEvalJsonl(hash, ParseText(hash, written).value) == Ok(written)
  {
    hide ValidCase, CaseId, Lines, Canon, FirstInvalid, Normal, ParseLines;
    var cases := ParseText(hash, text).value;
    ParsedCases(hash, Lines(text), 0, {});
    JsonlRoundTrip(hash, cases);
    CanonAllNormal(cases);
    forall i | 0 <= i < |cases|
      ensures ValidCase(hash, NormalItems(cases)[i]) && CaseId(NormalItems(cases)[i]) == CaseId(cases[i])
    {
      NormalValid(hash, cases[i]);
    }
  }

  // ----- What is accepted -----

  /** The trimmed lines that are not blank, in order. */
  function Filled(lines: seq<Text>): seq<Text> {
    if lines == [] then []
    else (if Trim(lines[0]) == [] then [] else [Trim(lines[0])]) + Filled(lines[1..])
  }

  /** The case that a line holds. */
  predicate Holds(hash: Text -> Text, line: Text, v: Json) {
    Parse(line) == Some(v) && ValidCase(hash, v)
  }

  /** The lines hold exactly these cases, each with an id of its own that is not among `seen`. */
  predicate HoldAll(hash: Text -> Text, lines: seq<Text>, seen: set<Text>, cases: seq<Json>) {
    |cases| == |lines| && DistinctIds(cases) &&
    forall k :: 0 <= k < |lines| ==> Holds(hash, lines[k], cases[k]) && CaseId(cases[k]) !in seen
  }

  lemma HoldMore(hash: Text -> Text, lines: seq<Text>, seen: set<Text>, line: Text, v: Json, cases: seq<Json>)
    ensures HoldAll(hash, [line] + lines, seen, [v] + cases) <==>
            Holds(hash, line, v) && CaseId(v) !in seen && HoldAll(hash, lines, seen + {CaseId(v)}, cases)
  {
    hide Holds, CaseId;
    var ls, vs := [line] + lines, [v] + cases;
    if HoldAll(hash, ls, seen, vs) {
      assert ls[0] == line && vs[0] == v;
      forall k | 0 <= k < |lines| ensures Holds(hash, lines[k], cases[k]) && CaseId(cases[k]) !in seen + {CaseId(v)} {
        assert ls[k + 1] == lines[k] && vs[k + 1] == cases[k];
      }
      forall j, k | 0 <= j < k < |cases| ensures CaseId(cases[j]) != CaseId(cases[k]) {
        assert vs[j + 1] == cases[j] && vs[k + 1] == cases[k];
      }
    }
  }

  /** The parser answers with `cases` exactly when the filled lines hold them: every filled line is
      a valid case with a new id, and none of them is left out. */
  lemma {:induction false} ParsedExactly(hash: Text -> Text, lines: seq<Text>, offset: nat, seen: set<Text>, cases: seq<Json>)
    ensures ParseLines(hash, lines, offset, seen) == Ok(cases) <==> HoldAll(hash, Filled(lines), seen, cases)
    decreases lines
  {
    hide ValidCase, CaseErrorOf, CaseId, Parse, Trim, HoldAll, DistinctIds;
    if lines == [] {
      NothingHeld(hash, seen, cases);
    } else {
      var line, rest := Trim(lines[0]), lines[1..];
      if line == [] {
        ParsedExactly(hash, rest, offset + 1, seen, cases);
        assert Filled(lines) == Filled(rest);
      } else if cases == [] {
        SameCount(hash, Filled(lines), seen, cases);
      } else {
        var v := cases[0];
        HoldMore(hash, Filled(rest), seen, line, v, cases[1..]);
        ParsedExactly(hash, rest, offset + 1, seen + {CaseId(v)}, cases[1..]);
        assert [v] + cases[1..] == cases;
      }
    }
  }

  lemma NothingHeld(hash: Text -> Text, seen: set<Text>, cases: seq<Json>)
    ensures HoldAll(hash, [], seen, cases) <==> cases == []
  {
  }

  lemma SameCount(hash: Text -> Text, lines: seq<Text>, seen: set<Text>, cases: seq<Json>)
    ensures HoldAll(hash, lines, seen, cases) ==> |cases| == |lines|
  {
  }

  /** Why line `i`, the first that could not be taken, was refused. */
  predicate Refusal(hash: Text -> Text, line: Text, number: nat, seen: set<Text>, before: seq<Json>, e: JsonlError) {
    line != [] &&
    match Parse(line)
    case None => e == InvalidJson(number)
    case Some(v) =>
      if !ValidCase(hash, v) then e == InvalidCase(CaseErrorOf(hash, v))
      else
        (CaseId(v) in seen || exists k :: 0 <= k < |before| && CaseId(before[k]) == CaseId(v)) &&
        e == DuplicateId(number)
  }

  /** An error names the first line that could not be taken: all lines before it were. */
  lemma {:induction false} FirstRefused(hash: Text -> Text, lines: seq<Text>, offset: nat, seen: set<Text>) returns (i: nat)
    requires ParseLines(hash, lines, offset, seen).Err?
    ensures i < |lines| && ParseLines(hash, lines[..i], offset, seen).Ok?
    ensures Refusal(hash, Trim(lines[i]), offset + i + 1, seen, ParseLines(hash, lines[..i], offset, seen).value,
                    ParseLines(hash, lines, offset, seen).error)
    decreases lines
  {
    hide ValidCase, CaseErrorOf, CaseId, Parse, Trim;
    var line, rest := Trim(lines[0]), lines[1..];
    if line == [] {
      i := FirstRefused(hash, rest, offset + 1, seen);
      assert lines[..i + 1][1..] == rest[..i];
      i := i + 1;
    } else if Parse(line).None? || !ValidCase(hash, Parse(line).value) || CaseId(Parse(line).value) in seen {
      i := 0;
    } else {
      var v := Parse(line).value;
      i := FirstRefused(hash, rest, offset + 1, seen + {CaseId(v)});
      assert lines[..i + 1][1..] == rest[..i];
      RefusedAfter(hash, Trim(rest[i]), offset + i + 2, seen, v,
                   ParseLines(hash, rest[..i], offset + 1, seen + {CaseId(v)}).value,
                   ParseLines(hash, lines, offset, seen).error);
      i := i + 1;
    }
  }

  lemma RefusedAfter(hash: Text -> Text, line: Text, number: nat, seen: set<Text>, v: Json, before: seq<Json>, e: JsonlError)
    requires Refusal(hash, line, number, seen + {CaseId(v)}, before, e)
    ensures Refusal(hash, line, number, seen, [v] + before, e)
  {
    hide ValidCase, CaseErrorOf, CaseId, Parse;
    assert ([v] + before)[0] == v;
    assert forall k :: 0 <= k < |before| ==> ([v] + before)[k + 1] == before[k];
  }

  // ----- What splitting and trimming do -----

  /** The lines put together again, each but the last with the line break that followed it: a
      newline, after a return where `returns` says so. */
  function Rejoined(ls: seq<Text>, breaks: seq<bool>): Text
    requires |ls| == |breaks| + 1
  {
    if |ls| == 1 then ls[0]
    else ls[0] + (if breaks[0] then [RETURN] else []) + [NEWLINE] + Rejoined(ls[1..], breaks[1..])
  }

  /** No line holds a line break, and a return before a newline belongs to the line break. */
  predicate Broken(ls: seq<Text>, breaks: seq<bool>) {
    |ls| == |breaks| + 1 &&
    (forall i :: 0 <= i < |ls| ==> !HasNewline(ls[i])) &&
    forall i :: 0 <= i < |breaks| ==> breaks[i] || DropReturn(ls[i]) == ls[i]
  }

  /** Some text as its first line, the line break and the rest. */
  lemma FirstLine(t: Text) returns (ended: bool)
    requires LineEnd(t) < |t|
    ensures var line, rest := DropReturn(t[..LineEnd(t)]), t[LineEnd(t) + 1..];
            !HasNewline(line) && (ended || DropReturn(line) == line) && Lines(t) == [line] + Lines(rest) &&
            t == line + (if ended then [RETURN] else []) + [NEWLINE] + rest
  {
    hide Lines;
    var n := LineEnd(t);
    ended := DropReturn(t[..n]) != t[..n];
    assert t == t[..n] + [NEWLINE] + t[n + 1..];
    LineBroken(t[..n], t[n + 1..]);
  }

  lemma {:induction false} LinesRejoined(t: Text) returns (breaks: seq<bool>)
    ensures Broken(Lines(t), breaks) && Rejoined(Lines(t), breaks) == t
    decreases |t|
  {
    hide Broken, Rejoined, DropReturn, HasNewline, Lines;
    var n := LineEnd(t);
    if n == |t| {
      assert !HasNewline(t) by { NoNewline(t); }
      OneLine(t);
      breaks := [];
      NoBreak(t);
    } else {
      var ended := FirstLine(t);
      var rest := LinesRejoined(t[n + 1..]);
      breaks := [ended] + rest;
      SameLength(Lines(t[n + 1..]), rest);
      BrokenMore(DropReturn(t[..n]), ended, Lines(t[n + 1..]), rest);
    }
  }

  lemma NoNewline(t: Text)
    requires LineEnd(t) == |t|
    ensures !HasNewline(t)
  {
  }

  lemma NoBreak(t: Text)
    requires !HasNewline(t)
    ensures Broken([t], []) && Rejoined([t], []) == t
  {
  }

  lemma SameLength(ls: seq<Text>, breaks: seq<bool>)
    ensures Broken(ls, breaks) ==> |ls| == |breaks| + 1
  {
  }

  lemma BrokenMore(line: Text, ended: bool, ls: seq<Text>, breaks: seq<bool>)
    requires |ls| == |breaks| + 1
    ensures Broken([line] + ls, [ended] + breaks) <==>
            !HasNewline(line) && (ended || DropReturn(line) == line) && Broken(ls, breaks)
    ensures Rejoined([line] + ls, [ended] + breaks) ==
            line + (if ended then [RETURN] else []) + [NEWLINE] + Rejoined(ls, breaks)
  {
    hide HasNewline, DropReturn;
    var xs, bs := [line] + ls, [ended] + breaks;
    assert xs[0] == line && bs[0] == ended && xs[1..] == ls && bs[1..] == breaks;
    if Broken(xs, bs) {
      forall i | 0 <= i < |ls| ensures !HasNewline(ls[i]) { assert xs[i + 1] == ls[i]; }
      forall i | 0 <= i < |breaks| ensures breaks[i] || DropReturn(ls[i]) == ls[i] {
        assert xs[i + 1] == ls[i] && bs[i + 1] == breaks[i];
      }
    }
  }

  lemma LinesOfEnded(line: Text, ended: bool, rest: Text)
    requires !HasNewline(line) && (ended || DropReturn(line) == line)
    ensures Lines(line + (if ended then [RETURN] else []) + [NEWLINE] + rest) == [line] + Lines(rest)
  {
    hide Lines;
    if ended {
      LineBroken(line + [RETURN], rest);
      assert DropReturn(line + [RETURN]) == line;
    } else {
      assert line + [] == line;
      LineBroken(line, rest);
    }
  }

  lemma LineBroken(line: Text, rest: Text)
    requires !HasNewline(line)
    ensures Lines(line + [NEWLINE] + rest) == [DropReturn(line)] + Lines(rest)
  {
    hide DropReturn;
    var t := line + [NEWLINE] + rest;
    assert t[|line|] == NEWLINE;
    assert forall i :: 0 <= i < |line| ==> t[i] == line[i] && line[i] in line;
    assert LineEnd(t) == |line|;
    assert t[..|line|] == line && t[|line| + 1..] == rest;
  }

  /** The split puts a text into its lines: it is the only list of lines that gives the text back
      with line breaks between them. */
  lemma {:induction false} LinesExactly(ls: seq<Text>, breaks: seq<bool>)
    requires Broken(ls, breaks)
    ensures Lines(Rejoined(ls, breaks)) == ls
    decreases |ls|
  {
    hide HasNewline, DropReturn, Lines;
    if |ls| == 1 {
      OneLine(ls[0]);
      assert ls == [ls[0]];
    } else {
      assert ls == [ls[0]] + ls[1..] && breaks == [breaks[0]] + breaks[1..];
      BrokenMore(ls[0], breaks[0], ls[1..], breaks[1..]);
      LinesExactly(ls[1..], breaks[1..]);
      LinesOfEnded(ls[0], breaks[0], Rejoined(ls[1..], breaks[1..]));
    }
  }

  lemma OneLine(t: Text)
    requires !HasNewline(t)
    ensures Lines(t) == [t]
  {
  }

  lemma {:induction false} TrimStartExactly(t: Text) returns (i: nat)
    ensures i <= |t| && TrimStart(t) == t[i..]
    ensures (forall k :: 0 <= k < i ==> Blank(t[k])) && (i < |t| ==> !Blank(t[i]))
  {
    hide Blank;
    i := 0;
    if t != [] && Blank(t[0]) {
      i := TrimStartExactly(t[1..]);
      assert t[1..][i..] == t[i + 1..];
      i := i + 1;
    }
  }

  lemma {:induction false} TrimEndExactly(t: Text) returns (j: nat)
    ensures j <= |t| && TrimEnd(t) == t[..j]
    ensures (forall k :: j <= k < |t| ==> Blank(t[k])) && (j > 0 ==> !Blank(t[j - 1]))
  {
    hide Blank;
    j := |t|;
    if t != [] && Blank(t[|t| - 1]) {
      j := TrimEndExactly(t[..|t| - 1]);
      assert t[..|t| - 1][..j] == t[..j];
    }
  }

  /** `trim` takes away the blanks at both ends and nothing else. */
  lemma TrimExactly(t: Text) returns (i: nat, j: nat)
    ensures i <= j <= |t| && Trim(t) == t[i..j]
    ensures forall k :: 0 <= k < i || j <= k < |t| ==> Blank(t[k])
    ensures i < j ==> !Blank(t[i]) && !Blank(t[j - 1])
  {
    hide Blank;
    i := TrimStartExactly(t);
    var n := TrimEndExactly(t[i..]);
    j := i + n;
    assert t[i..][..n] == t[i..j];
    assert forall k :: j <= k < |t| ==> t[k] == t[i..][k - i];
    if n > 0 && n == 1 { assert t[i] == t[i..][0]; }
  }

  /** When nothing is written: the error is that of the first invalid case, or else that two ids
      are the same. */
  lemma {:induction false} FirstInvalidExactly(hash: Text -> Text, cases: seq<Json>) returns (i: nat)
    requires !AllValid(hash, cases)
    ensures i < |cases| && AllValid(hash, cases[..i]) && !ValidCase(hash, cases[i])
    ensures SerializeEvalJsonl(hash, cases) == Err(InvalidCase(CaseErrorOf(hash, cases[i])))
    ensures FirstInvalid(hash, cases) == CaseErrorOf(hash, cases[i])
  {
    hide ValidCase, CaseErrorOf, CanonAll, JoinLines, DistinctIds;
    i := 0;
    if ValidCase(hash, cases[0]) {
      NextInvalid(hash, cases);
      i := FirstInvalidExactly(hash, cases[1..]);
      var front := cases[..i + 1];
      forall k | 0 <= k < |front| ensures ValidCase(hash, front[k]) {
        if k > 0 { assert front[k] == cases[1..][..i][k - 1]; }
      }
      i := i + 1;
    } else {
      FirstIsInvalid(hash, cases);
    }
  }

  lemma NextInvalid(hash: Text -> Text, cases: seq<Json>)
    requires !AllValid(hash, cases) && ValidCase(hash, cases[0])
    ensures !AllValid(hash, cases[1..]) && FirstInvalid(hash, cases) == FirstInvalid(hash, cases[1..])
  {
    hide ValidCase;
    var k :| 0 <= k < |cases| && !ValidCase(hash, cases[k]);
    assert cases[1..][k - 1] == cases[k];
  }

  lemma FirstIsInvalid(hash: Text -> Text, cases: seq<Json>)
    requires cases != [] && !ValidCase(hash, cases[0])
    ensures !AllValid(hash, cases) && FirstInvalid(hash, cases) == CaseErrorOf(hash, cases[0])
  {
    hide ValidateEvalCase;
  }
}
