/** `JSON.parse` (RFC 8259, sections 2 to 7), and the proof that it inverts the printers. */
module JsonParser {
  import opened Utf16
  import opened Wrappers
  import opened KeySort
  import opened Json

  datatype Parsed<+T> = Fail | Done(value: T, rest: Text)

  predicate Space(u: Unit) { u == 32 || u == 9 || u == 10 || u == 13 }

  function SkipSpace(t: Text): (r: Text)
    ensures |r| <= |t|
    ensures r != [] ==> !Space(r[0])
    ensures t != [] && !Space(t[0]) ==> r == t
  {
    if t != [] && Space(t[0]) then SkipSpace(t[1..]) else t
  }

  predicate StartsWith(t: Text, u: Unit) { t != [] && t[0] == u }

  // ----- Numbers -----

  /** How many number characters a text starts with. */
  function NumberRun(t: Text): (n: nat)
    ensures n <= |t|
    ensures forall i :: 0 <= i < n ==> NumChar(t[i])
    ensures n < |t| ==> !NumChar(t[n])
  {
    if t != [] && NumChar(t[0]) then 1 + NumberRun(t[1..]) else 0
  }

  /** The value of a run of digits. */
  function Value(t: Text): (n: nat)
    requires forall i :: 0 <= i < |t| ==> Digit(t[i])
  {
    if t == [] then 0
    else
      assert Digit(t[|t| - 1]);
      var last: int := t[|t| - 1];
      Value(t[..|t| - 1]) * 10 + (last - 48)
  }

  function NumberOf(tok: Text): (r: Option<Json>)
    requires forall i :: 0 <= i < |tok| ==> NumChar(tok[i])
    ensures r.Some? ==> WF(r.value)
  {
    if IsInteger(tok) then
      var n: int := Value(Unsigned(tok));
      Some(Num(if tok[0] == MINUS then -n else n))
    else if IsFracToken(tok) then Some(Frac(tok))
    else None
  }

  function ParseNumber(t: Text): (r: Parsed<Json>)
    ensures r.Done? ==> |r.rest| < |t| && WF(r.value)
  {
    var n := NumberRun(t);
    match NumberOf(t[..n])
    case None => Fail
    case Some(v) => if n == 0 then Fail else Done(v, t[n..])
  }

  // ----- Strings -----

  function HexValue(u: Unit): Option<int> {
    if Digit(u) then Some(u - 48)
    else if 97 <= u <= 102 then Some(u - 87)
    else if 65 <= u <= 70 then Some(u - 55)
    else None
  }

  /** The code unit of four hexadecimal digits. */
  function HexUnit(t: Text): (r: Option<Unit>)
    requires |t| == 4
  {
    match (HexValue(t[0]), HexValue(t[1]), HexValue(t[2]), HexValue(t[3]))
    case (Some(a), Some(b), Some(c), Some(d)) =>
      assert 0 <= a < 16 && 0 <= b < 16 && 0 <= c < 16 && 0 <= d < 16;
      Some(((a * 16 + b) * 16 + c) * 16 + d)
    case _ => None
  }

  /** One escape sequence, after its backslash. */
  function ParseEscape(t: Text): (r: Parsed<Unit>)
    ensures r.Done? ==> |r.rest| < |t|
  {
    if t == [] then Fail
    else if t[0] == QUOTE || t[0] == BACKSLASH || t[0] == 47 then Done(t[0], t[1..])
    else if t[0] == 98 then Done(8, t[1..])
    else if t[0] == 116 then Done(9, t[1..])
    else if t[0] == 110 then Done(10, t[1..])
    else if t[0] == 102 then Done(12, t[1..])
    else if t[0] == 114 then Done(13, t[1..])
    else if t[0] == 117 && |t| >= 5 then
      match HexUnit(t[1..5])
      case Some(u) => Done(u, t[5..])
      case None => Fail
    else Fail
  }

  /** The characters of a string, after its opening quote. */
  function ParseString(t: Text): (r: Parsed<Text>)
    ensures r.Done? ==> |r.rest| < |t|
  {
    if t == [] || t[0] < 32 then Fail
    else if t[0] == QUOTE then Done([], t[1..])
    else
      var first := if t[0] == BACKSLASH then ParseEscape(t[1..]) else Done(t[0], t[1..]);
      match first
      case Fail => Fail
      case Done(u, rest) =>
        match ParseString(rest)
        case Fail => Fail
        case Done(s, rest') => Done([u] + s, rest')
  }

  // ----- Values -----

  /** A repeated key keeps its first place and its last value. */
  function AddFirst(m: Entry<Json>, ms: seq<Entry<Json>>): (r: seq<Entry<Json>>)
    requires DistinctKeys(ms) && WF(m.value) && WFMembers(ms)
    ensures DistinctKeys(r) && WFMembers(r)
    ensures (forall i :: 0 <= i < |ms| ==> ms[i].key != m.key) ==> r == [m] + ms
  {
    match Lookup(ms, m.key)
    case None => [m] + ms
    case Some(v) =>
      WFMember(ms, Entry(m.key, v));
      WithoutWF(ms, m.key);
      [Entry(m.key, v)] + Without(ms, m.key)
  }

  function Without(ms: seq<Entry<Json>>, key: Text): (r: seq<Entry<Json>>)
    ensures forall e :: e in r ==> e in ms && e.key != key
    ensures forall e :: e in ms && e.key != key ==> e in r
  {
    if ms == [] then []
    else if ms[0].key == key then Without(ms[1..], key)
    else [ms[0]] + Without(ms[1..], key)
  }

  lemma {:induction false} WithoutWF(ms: seq<Entry<Json>>, key: Text)
    requires DistinctKeys(ms) && WFMembers(ms)
    ensures DistinctKeys(Without(ms, key)) && WFMembers(Without(ms, key))
  {
    if ms != [] {
      WithoutWF(ms[1..], key);
      var r := Without(ms[1..], key);
      forall i | 0 <= i < |r| ensures r[i].key != ms[0].key {
        assert r[i] in ms[1..];
        var j :| 0 <= j < |ms[1..]| && ms[1..][j] == r[i];
        assert ms[j + 1] == r[i];
      }
    }
  }

  // ----- Setting a property -----

  /** `object[key] = value`: in place, or at the end. */
  function SetMember(ms: seq<Entry<Json>>, key: Text, x: Json): seq<Entry<Json>> {
    if ms == [] then [Entry(key, x)]
    else if ms[0].key == key then [Entry(key, x)] + ms[1..]
    else [ms[0]] + SetMember(ms[1..], key, x)
  }

  lemma {:induction false} LookupSet(ms: seq<Entry<Json>>, key: Text, x: Json, k: Text)
    ensures Lookup(SetMember(ms, key, x), k) == if k == key then Some(x) else Lookup(ms, k)
  {
    if ms != [] && ms[0].key != key { LookupSet(ms[1..], key, x, k); }
  }

  lemma {:induction false} SetKeys(ms: seq<Entry<Json>>, key: Text, x: Json, i: nat)
    requires i < |SetMember(ms, key, x)|
    ensures SetMember(ms, key, x)[i].key == key || exists j :: 0 <= j < |ms| && ms[j].key == SetMember(ms, key, x)[i].key
  {
    if ms != [] && ms[0].key != key {
      if i > 0 {
        SetKeys(ms[1..], key, x, i - 1);
        if SetMember(ms, key, x)[i].key != key {
          var j :| 0 <= j < |ms[1..]| && ms[1..][j].key == SetMember(ms[1..], key, x)[i - 1].key;
          assert ms[j + 1].key == SetMember(ms, key, x)[i].key;
        }
      }
    } else if ms != [] {
      assert i > 0 ==> ms[i].key == SetMember(ms, key, x)[i].key;
    }
  }

  lemma {:induction false} SetWF(ms: seq<Entry<Json>>, key: Text, x: Json)
    requires DistinctKeys(ms) && WFMembers(ms) && WF(x)
    ensures DistinctKeys(SetMember(ms, key, x)) && WFMembers(SetMember(ms, key, x))
  {
    hide WF;
    if ms != [] && ms[0].key != key {
      SetWF(ms[1..], key, x);
      var r := SetMember(ms[1..], key, x);
      forall i | 0 <= i < |r| ensures r[i].key != ms[0].key { SetKeys(ms[1..], key, x, i); }
    }
  }

  /** Setting a property and leaving it out again. */
  lemma {:induction false} WithoutSet(ms: seq<Entry<Json>>, key: Text, x: Json)
    ensures Without(SetMember(ms, key, x), key) == Without(ms, key)
  {
    if ms == [] {
      assert SetMember(ms, key, x)[1..] == [];
    } else if ms[0].key != key {
      WithoutSet(ms[1..], key, x);
      assert SetMember(ms, key, x)[1..] == SetMember(ms[1..], key, x);
    } else {
      assert SetMember(ms, key, x)[1..] == ms[1..];
    }
  }

  // ----- Words, lists and values -----

  function Keyword(t: Text, word: Text, v: Json): (r: Parsed<Json>)
    requires word != [] && WF(v)
    ensures r.Done? ==> |r.rest| < |t| && WF(r.value)
  {
    if word <= t then Done(v, t[|word|..]) else Fail
  }

  function ParseValue(text: Text): (r: Parsed<Json>)
    ensures r.Done? ==> |r.rest| < |text| && WF(r.value)
    decreases |text|, 2
  {
    var t := SkipSpace(text);
    if t == [] then Fail
    else if t[0] == QUOTE then
      match ParseString(t[1..])
      case Fail => Fail
      case Done(s, rest) => Done(Str(s), rest)
    else if t[0] == OPEN_ARR then
      if StartsWith(SkipSpace(t[1..]), CLOSE_ARR) then Done(Arr([]), SkipSpace(t[1..])[1..])
      else
        match ParseItems(t[1..])
        case Fail => Fail
        case Done(items, rest) => Done(Arr(items), rest)
    else if t[0] == OPEN_OBJ then
      if StartsWith(SkipSpace(t[1..]), CLOSE_OBJ) then Done(Obj([]), SkipSpace(t[1..])[1..])
      else
        match ParseMembers(t[1..])
        case Fail => Fail
        case Done(members, rest) => Done(Obj(members), rest)
    else if t[0] == 110 then Keyword(t, Lit("null"), Null)
    else if t[0] == 116 then Keyword(t, Lit("true"), Bool(true))
    else if t[0] == 102 then Keyword(t, Lit("false"), Bool(false))
    else ParseNumber(t)
  }

  /** One or more values separated by commas, and the closing bracket. */
  function ParseItems(text: Text): (r: Parsed<seq<Json>>)
    ensures r.Done? ==> |r.rest| < |text| && WFItems(r.value)
    decreases |text|, 3
  {
    match ParseValue(text)
    case Fail => Fail
    case Done(v, rest) =>
      var t := SkipSpace(rest);
      if StartsWith(t, CLOSE_ARR) then Done([v], t[1..])
      else if StartsWith(t, COMMA) then
        match ParseItems(t[1..])
        case Fail => Fail
        case Done(vs, rest') => Done([v] + vs, rest')
      else Fail
  }

  /** `"key": value`. */
  function ParseMember(text: Text): (r: Parsed<Entry<Json>>)
    ensures r.Done? ==> |r.rest| < |text| && WF(r.value.value)
    decreases |text|, 3
  {
    var t := SkipSpace(text);
    if !StartsWith(t, QUOTE) then Fail
    else
      match ParseString(t[1..])
      case Fail => Fail
      case Done(key, afterKey) =>
        var u := SkipSpace(afterKey);
        if !StartsWith(u, COLON) then Fail
        else
          match ParseValue(u[1..])
          case Fail => Fail
          case Done(v, rest) => Done(Entry(key, v), rest)
  }

  /** One or more members separated by commas, and the closing brace. */
  function ParseMembers(text: Text): (r: Parsed<seq<Entry<Json>>>)
    ensures r.Done? ==> |r.rest| < |text| && WFMembers(r.value) && DistinctKeys(r.value)
    decreases |text|, 4
  {
    match ParseMember(text)
    case Fail => Fail
    case Done(m, rest) =>
      var t := SkipSpace(rest);
      if StartsWith(t, CLOSE_OBJ) then Done([m], t[1..])
      else if StartsWith(t, COMMA) then
        match ParseMembers(t[1..])
        case Fail => Fail
        case Done(ms, rest') => Done(AddFirst(m, ms), rest')
      else Fail
  }

  /** `JSON.parse(text)`; `None` is the `SyntaxError`. */
  function Parse(text: Text): (r: Option<Json>)
    ensures r.Some? ==> WF(r.value)
  {
    match ParseValue(text)
    case Fail => None
    case Done(v, rest) => if SkipSpace(rest) == [] then Some(v) else None
  }

  // ----- Printing and parsing a number -----

  lemma {:induction false} ValueOfDigits(n: nat)
    ensures Value(Digits(n)) == n
  {
    if n >= 10 {
      ValueOfDigits(n / 10);
      var t := Digits(n);
      assert t[..|t| - 1] == Digits(n / 10);
    } else {
      assert Digits(n)[..0] == [];
    }
  }

  lemma AllDigits(t: Text)
    requires forall i :: 0 <= i < |t| ==> Digit(t[i])
    ensures DigitRun(t) == |t|
  {
  }

  lemma NumberOfDecimal(n: int)
    ensures Decimal(n) != []
    ensures forall i :: 0 <= i < |Decimal(n)| ==> NumChar(Decimal(n)[i])
    ensures NumberOf(Decimal(n)) == Some(Num(n))
  {
    var m: nat := if n < 0 then -n else n;
    var ds := Digits(m);
    ValueOfDigits(m);
    AllDigits(ds);
    assert Unsigned(Decimal(n)) == ds;
  }

  /** What may follow a value for its last token to end where it does. */
  predicate Ends(rest: Text) { rest == [] || !NumChar(rest[0]) }

  lemma ParseNumberToken(tok: Text, rest: Text)
    requires tok != [] && forall i :: 0 <= i < |tok| ==> NumChar(tok[i])
    requires Ends(rest) && NumberOf(tok).Some?
    ensures ParseNumber(tok + rest) == Done(NumberOf(tok).value, rest)
  {
    var t := tok + rest;
    var n := NumberRun(t);
    assert forall i :: 0 <= i < |tok| ==> t[i] == tok[i];
    assert rest != [] ==> t[|tok|] == rest[0];
    assert t[..|tok|] == tok && t[|tok|..] == rest;
  }

  // ----- Printing and parsing a string -----

  lemma Regroup(a: Text, b: Text, c: Text)
    ensures (a + b) + c == a + (b + c)
  {
  }

  lemma HexValueDigit(d: int)
    requires 0 <= d < 16
    ensures HexValue(HexDigit(d)) == Some(d)
  {
  }

  lemma HexUnitHex4(u: Unit)
    ensures HexUnit(Hex4(u)) == Some(u)
  {
    HexValueDigit(u / 16 / 16 / 16);
    HexValueDigit(u / 16 / 16 % 16);
    HexValueDigit(u / 16 % 16);
    HexValueDigit(u % 16);
  }

  lemma ParseHexUnit(u: Unit, rest: Text)
    ensures ParseEscape([117] + Hex4(u) + rest) == Done(u, rest)
  {
    HexUnitHex4(u);
    var t := [117] + Hex4(u) + rest;
    assert t[1..5] == Hex4(u);
    assert t[5..] == rest;
  }

  lemma ParseBackslash(t: Text, u: Unit, rest: Text)
    requires ParseEscape(t) == Done(u, rest) && ParseString(rest).Done?
    ensures ParseString([BACKSLASH] + t) == Done([u] + ParseString(rest).value, ParseString(rest).rest)
  {
    assert ([BACKSLASH] + t)[1..] == t;
  }

  lemma ParseShortEscape(u: Unit, rest: Text)
    requires |EscapeUnit(u)| == 2
    ensures EscapeUnit(u) == [BACKSLASH] + EscapeUnit(u)[1..]
    ensures ParseEscape(EscapeUnit(u)[1..] + rest) == Done(u, rest)
  {
    var t := EscapeUnit(u)[1..] + rest;
    assert t[0] == EscapeUnit(u)[1];
    assert t[1..] == rest;
  }

  lemma ParsePlainUnit(u: Unit, rest: Text)
    requires EscapeUnit(u) == [u] && ParseString(rest).Done?
    ensures ParseString([u] + rest) == Done([u] + ParseString(rest).value, ParseString(rest).rest)
  {
    assert ([u] + rest)[1..] == rest;
  }

  lemma HexEscape(u: Unit)
    requires |EscapeUnit(u)| > 2
    ensures EscapeUnit(u) == [BACKSLASH] + ([117] + Hex4(u))
  {
  }

  /** The parser reads back one printed code unit. */
  lemma ParseOneUnit(u: Unit, rest: Text)
    requires ParseString(rest).Done?
    ensures ParseString(EscapeUnit(u) + rest) ==
            Done([u] + ParseString(rest).value, ParseString(rest).rest)
  {
    if |EscapeUnit(u)| == 1 {
      ParsePlainUnit(u, rest);
    } else {
      var t := EscapeUnit(u)[1..];
      if |EscapeUnit(u)| == 2 {
        ParseShortEscape(u, rest);
      } else {
        HexEscape(u);
        ParseHexUnit(u, rest);
        assert t == [117] + Hex4(u);
      }
      ParseBackslash(t + rest, u, rest);
      Regroup([BACKSLASH], t, rest);
    }
  }

  /** A raw code unit reads back as itself. */
  lemma ParseRawUnit(u: Unit, rest: Text)
    requires ParseString(rest).Done? && u >= 128
    ensures ParseString([u] + rest) == Done([u] + ParseString(rest).value, ParseString(rest).rest)
  {
    assert ([u] + rest)[1..] == rest;
  }

  predicate PairFirst(s: Text) { |s| > 1 && HighSurrogate(s[0]) && LowSurrogate(s[1]) }

  lemma EscapedPair(s: Text, tail: Text)
    requires PairFirst(s)
    ensures Escaped(s) + tail == [s[0]] + ([s[1]] + (Escaped(s[2..]) + tail))
    ensures s == [s[0]] + ([s[1]] + s[2..])
  {
    assert s[..2] == [s[0]] + [s[1]];
    Regroup(s[..2], Escaped(s[2..]), tail);
    Regroup([s[0]], [s[1]], Escaped(s[2..]) + tail);
    Regroup([s[0]], [s[1]], s[2..]);
  }

  lemma EscapedHead(s: Text, tail: Text)
    requires s != [] && !PairFirst(s)
    ensures Escaped(s) + tail == EscapeUnit(s[0]) + (Escaped(s[1..]) + tail)
    ensures s == [s[0]] + s[1..]
  {
    Regroup(EscapeUnit(s[0]), Escaped(s[1..]), tail);
  }

  lemma ParsePair(u: Unit, v: Unit, t: Text)
    requires HighSurrogate(u) && LowSurrogate(v) && ParseString(t).Done?
    ensures ParseString([u] + ([v] + t)) == Done([u] + ([v] + ParseString(t).value), ParseString(t).rest)
  {
    ParseRawUnit(v, t);
    ParseRawUnit(u, [v] + t);
  }

  lemma ParseNothing(tail: Text)
    requires StartsWith(tail, QUOTE)
    ensures ParseString(Escaped([]) + tail) == Done([], tail[1..])
  {
    assert Escaped([]) + tail == tail;
  }

  lemma {:induction false} ParseEscaped(s: Text, tail: Text)
    requires StartsWith(tail, QUOTE)
    ensures ParseString(Escaped(s) + tail) == Done(s, tail[1..])
  {
    if s == [] {
      ParseNothing(tail);
    } else {
      if PairFirst(s) {
        EscapedPair(s, tail);
        ParseEscaped(s[2..], tail);
        ParsePair(s[0], s[1], Escaped(s[2..]) + tail);
      } else {
        EscapedHead(s, tail);
        ParseEscaped(s[1..], tail);
        ParseOneUnit(s[0], Escaped(s[1..]) + tail);
      }
    }
  }

  lemma ParseQuoted(s: Text, rest: Text)
    ensures StartsWith(Quoted(s) + rest, QUOTE)
    ensures ParseString((Quoted(s) + rest)[1..]) == Done(s, rest)
  {
    ParseEscaped(s, [QUOTE] + rest);
    assert (Quoted(s) + rest)[1..] == Escaped(s) + ([QUOTE] + rest);
  }

  // ----- One step of the parser -----

  lemma ParseArray(t: Text, items: seq<Json>, rest: Text)
    requires t != [] && !Space(t[0]) && t[0] != CLOSE_ARR
    requires ParseItems(t) == Done(items, rest)
    ensures ParseValue([OPEN_ARR] + t) == Done(Arr(items), rest)
  {
    assert ([OPEN_ARR] + t)[1..] == t;
  }

  lemma ParseObject(t: Text, members: seq<Entry<Json>>, rest: Text)
    requires t != [] && !Space(t[0]) && t[0] != CLOSE_OBJ
    requires ParseMembers(t) == Done(members, rest)
    ensures ParseValue([OPEN_OBJ] + t) == Done(Obj(members), rest)
  {
    assert ([OPEN_OBJ] + t)[1..] == t;
  }

  lemma ParseLastItem(t: Text, v: Json, rest: Text)
    requires ParseValue(t) == Done(v, [CLOSE_ARR] + rest)
    ensures ParseItems(t) == Done([v], rest)
  {
    assert ([CLOSE_ARR] + rest)[1..] == rest;
  }

  lemma ParseNextItem(t: Text, v: Json, more: Text, vs: seq<Json>, rest: Text)
    requires ParseValue(t) == Done(v, [COMMA] + more)
    requires ParseItems(more) == Done(vs, rest)
    ensures ParseItems(t) == Done([v] + vs, rest)
  {
    assert ([COMMA] + more)[1..] == more;
  }

  lemma ParseOneMember(key: Text, u: Text, v: Json, rest: Text)
    requires ParseValue(u) == Done(v, rest)
    ensures ParseMember(Quoted(key) + ([COLON] + u)) == Done(Entry(key, v), rest)
  {
    ParseQuoted(key, [COLON] + u);
    assert ([COLON] + u)[1..] == u;
  }

  lemma ParseLastMember(t: Text, m: Entry<Json>, rest: Text)
    requires ParseMember(t) == Done(m, [CLOSE_OBJ] + rest)
    ensures ParseMembers(t) == Done([m], rest)
  {
    assert ([CLOSE_OBJ] + rest)[1..] == rest;
  }

  lemma ParseMoreMembers(t: Text, m: Entry<Json>, more: Text, ms: seq<Entry<Json>>, rest: Text)
    requires ParseMember(t) == Done(m, [COMMA] + more)
    requires ParseMembers(more) == Done(ms, rest)
    ensures ParseMembers(t) == Done(AddFirst(m, ms), rest)
  {
    assert ([COMMA] + more)[1..] == more;
  }

  lemma ParseNextMember(t: Text, m: Entry<Json>, more: Text, ms: seq<Entry<Json>>, rest: Text)
    requires ParseMember(t) == Done(m, [COMMA] + more)
    requires ParseMembers(more) == Done(ms, rest)
    requires forall i :: 0 <= i < |ms| ==> ms[i].key != m.key
    ensures ParseMembers(t) == Done([m] + ms, rest)
  {
    ParseMoreMembers(t, m, more, ms, rest);
  }

  lemma ParseKeyword(v: Json, rest: Text)
    requires v.Null? || v.Bool?
    ensures ParseValue(Stringify(v) + rest) == Done(v, rest)
  {
    var t := Stringify(v) + rest;
    assert t[|Stringify(v)|..] == rest;
    assert Stringify(v) <= t;
    assert t[0] == Stringify(v)[0];
  }

  // ----- Parsing a printed value -----

  /** A printed value starts with a character that is neither space nor a closing bracket. */
  lemma StringifyFirst(v: Json)
    requires WF(v)
    ensures Stringify(v) != []
    ensures var u := Stringify(v)[0]; !Space(u) && u != CLOSE_ARR && u != CLOSE_OBJ
    ensures v.Num? || v.Frac? ==> NumChar(Stringify(v)[0])
  {
    if v.Num? { NumberOfDecimal(v.n); }
  }

  // How a printed list splits at its first element.

  lemma ItemsSplit(items: seq<Json>, tail: Text)
    requires items != []
    ensures |items| == 1 ==>
              JoinItems(StringifyItems(items)) + tail == Stringify(items[0]) + tail
    ensures |items| > 1 ==>
              JoinItems(StringifyItems(items)) + tail ==
              Stringify(items[0]) + ([COMMA] + (JoinItems(StringifyItems(items[1..])) + tail))
  {
    if |items| > 1 {
      var ts := StringifyItems(items);
      assert ts[1..] == StringifyItems(items[1..]);
      Regroup(ts[0] + [COMMA], JoinItems(ts[1..]), tail);
      Regroup(ts[0], [COMMA], JoinItems(ts[1..]) + tail);
    }
  }

  lemma MembersSplit(members: seq<Entry<Json>>, tail: Text)
    requires members != []
    ensures |members| == 1 ==>
              JoinMembers(StringifyMembers(members)) + tail ==
              Quoted(members[0].key) + ([COLON] + (Stringify(members[0].value) + tail))
    ensures |members| > 1 ==>
              JoinMembers(StringifyMembers(members)) + tail ==
              Quoted(members[0].key) + ([COLON] +
                (Stringify(members[0].value) + ([COMMA] + (JoinMembers(StringifyMembers(members[1..])) + tail))))
  {
    var es := StringifyMembers(members);
    var q, v := Quoted(es[0].key), es[0].value;
    if |members| == 1 {
      Regroup(q + [COLON], v, tail);
      Regroup(q, [COLON], v + tail);
    } else {
      assert es[1..] == StringifyMembers(members[1..]);
      var more := JoinMembers(es[1..]) + tail;
      Regroup(q + [COLON] + v + [COMMA], JoinMembers(es[1..]), tail);
      Regroup(q + [COLON] + v, [COMMA], more);
      Regroup(q + [COLON], v, [COMMA] + more);
      Regroup(q, [COLON], v + ([COMMA] + more));
    }
  }

  lemma ArraySplit(items: seq<Json>, rest: Text)
    ensures Stringify(Arr(items)) + rest ==
            [OPEN_ARR] + (JoinItems(StringifyItems(items)) + ([CLOSE_ARR] + rest))
  {
  }

  lemma ObjectSplit(members: seq<Entry<Json>>, rest: Text)
    ensures Stringify(Obj(members)) + rest ==
            [OPEN_OBJ] + (JoinMembers(StringifyMembers(members)) + ([CLOSE_OBJ] + rest))
  {
  }

  lemma ParseNumberValue(tok: Text, rest: Text)
    requires tok != [] && forall i :: 0 <= i < |tok| ==> NumChar(tok[i])
    requires Ends(rest) && NumberOf(tok).Some?
    ensures ParseValue(tok + rest) == Done(NumberOf(tok).value, rest)
  {
    ParseNumberToken(tok, rest);
    assert (tok + rest)[0] == tok[0];
  }

  lemma ParseStringValue(s: Text, rest: Text)
    ensures ParseValue(Quoted(s) + rest) == Done(Str(s), rest)
  {
    ParseQuoted(s, rest);
  }

  lemma {:induction false} ParseStringified(v: Json, rest: Text)
    requires WF(v) && Ends(rest)
    ensures ParseValue(Stringify(v) + rest) == Done(v, rest)
    decreases v
  {
    match v
    case Num(n) =>
      NumberOfDecimal(n);
      ParseNumberValue(Decimal(n), rest);
    case Frac(lit) => ParseNumberValue(lit, rest);
    case Str(s) => ParseStringValue(s, rest);
    case Arr(items) => ParseStringifiedArray(items, rest);
    case Obj(members) => ParseStringifiedObject(members, rest);
    case _ => ParseKeyword(v, rest);
  }

  lemma {:induction false} ParseStringifiedArray(items: seq<Json>, rest: Text)
    requires WFItems(items)
    ensures ParseValue(Stringify(Arr(items)) + rest) == Done(Arr(items), rest)
    decreases items, 2
  {
    ArraySplit(items, rest);
    if items == [] {
      EmptyArray(rest);
    } else {
      ParseStringifiedItems(items, rest);
      JoinItemsFirst(items, [CLOSE_ARR] + rest);
      ParseArray(JoinItems(StringifyItems(items)) + ([CLOSE_ARR] + rest), items, rest);
    }
  }

  lemma {:induction false} ParseStringifiedObject(members: seq<Entry<Json>>, rest: Text)
    requires DistinctKeys(members) && WFMembers(members)
    ensures ParseValue(Stringify(Obj(members)) + rest) == Done(Obj(members), rest)
    decreases members, 2
  {
    ObjectSplit(members, rest);
    if members == [] {
      EmptyObject(rest);
    } else {
      ParseStringifiedMembers(members, rest);
      JoinMembersFirst(members, [CLOSE_OBJ] + rest);
      ParseObject(JoinMembers(StringifyMembers(members)) + ([CLOSE_OBJ] + rest), members, rest);
    }
  }

  lemma EmptyArray(rest: Text)
    ensures ParseValue([OPEN_ARR] + (JoinItems(StringifyItems([])) + ([CLOSE_ARR] + rest))) == Done(Arr([]), rest)
  {
    assert ([OPEN_ARR] + ([CLOSE_ARR] + rest))[1..] == [CLOSE_ARR] + rest;
    assert JoinItems(StringifyItems([])) + ([CLOSE_ARR] + rest) == [CLOSE_ARR] + rest;
    assert ([CLOSE_ARR] + rest)[1..] == rest;
  }

  lemma EmptyObject(rest: Text)
    ensures ParseValue([OPEN_OBJ] + (JoinMembers(StringifyMembers([])) + ([CLOSE_OBJ] + rest))) == Done(Obj([]), rest)
  {
    assert ([OPEN_OBJ] + ([CLOSE_OBJ] + rest))[1..] == [CLOSE_OBJ] + rest;
    assert JoinMembers(StringifyMembers([])) + ([CLOSE_OBJ] + rest) == [CLOSE_OBJ] + rest;
    assert ([CLOSE_OBJ] + rest)[1..] == rest;
  }

  lemma JoinItemsFirst(items: seq<Json>, tail: Text)
    requires WFItems(items) && items != []
    ensures var t := JoinItems(StringifyItems(items)) + tail;
            t != [] && !Space(t[0]) && t[0] != CLOSE_ARR
  {
    ItemsSplit(items, tail);
    StringifyFirst(items[0]);
  }

  lemma JoinMembersFirst(members: seq<Entry<Json>>, tail: Text)
    requires members != []
    ensures StartsWith(JoinMembers(StringifyMembers(members)) + tail, QUOTE)
  {
    MembersSplit(members, tail);
  }

  lemma {:induction false} ParseStringifiedItems(items: seq<Json>, rest: Text)
    requires WFItems(items) && items != []
    ensures ParseItems(JoinItems(StringifyItems(items)) + ([CLOSE_ARR] + rest)) == Done(items, rest)
    decreases items, 1
  {
    ItemsSplit(items, [CLOSE_ARR] + rest);
    if |items| == 1 {
      ParseStringified(items[0], [CLOSE_ARR] + rest);
      ParseLastItem(Stringify(items[0]) + ([CLOSE_ARR] + rest), items[0], rest);
      assert items == [items[0]];
    } else {
      var more := JoinItems(StringifyItems(items[1..])) + ([CLOSE_ARR] + rest);
      ParseStringified(items[0], [COMMA] + more);
      ParseStringifiedItems(items[1..], rest);
      ParseNextItem(Stringify(items[0]) + ([COMMA] + more), items[0], more, items[1..], rest);
      assert items == [items[0]] + items[1..];
    }
  }

  lemma HeadAndTail(members: seq<Entry<Json>>)
    requires DistinctKeys(members) && members != []
    ensures members == [members[0]] + members[1..]
    ensures |members| == 1 ==> members == [members[0]]
    ensures DistinctKeys(members[1..])
    ensures forall i :: 0 <= i < |members[1..]| ==> members[1..][i].key != members[0].key
  {
  }

  lemma {:induction false} ParseStringifiedMembers(members: seq<Entry<Json>>, rest: Text)
    requires DistinctKeys(members) && WFMembers(members) && members != []
    ensures ParseMembers(JoinMembers(StringifyMembers(members)) + ([CLOSE_OBJ] + rest)) == Done(members, rest)
    decreases members, 1
  {
    var t := JoinMembers(StringifyMembers(members)) + ([CLOSE_OBJ] + rest);
    MembersSplit(members, [CLOSE_OBJ] + rest);
    HeadAndTail(members);
    if |members| == 1 {
      ParsePrintedMember(members, [CLOSE_OBJ] + rest);
      ParseLastMember(t, members[0], rest);
    } else {
      var more := JoinMembers(StringifyMembers(members[1..])) + ([CLOSE_OBJ] + rest);
      ParsePrintedMember(members, [COMMA] + more);
      ParseStringifiedMembers(members[1..], rest);
      ParseNextMember(t, members[0], more, members[1..], rest);
    }
  }

  lemma {:induction false} ParsePrintedMember(members: seq<Entry<Json>>, after: Text)
    requires WFMembers(members) && members != [] && after != [] && Ends(after)
    ensures ParseMember(Quoted(members[0].key) + ([COLON] + (Stringify(members[0].value) + after)))
            == Done(members[0], after)
    decreases members, 0
  {
    var m := members[0];
    ParseStringified(m.value, after);
    ParseOneMember(m.key, Stringify(m.value) + after, m.value, after);
  }

  // ----- Main results -----

  /** `JSON.parse(JSON.stringify(v))` is `v`: the workflow's `clone` loses nothing. */
  lemma ParseInvertsStringify(v: Json)
    requires WF(v)
    ensures Parse(Stringify(v)) == Some(v)
  {
    ParseStringified(v, []);
    assert Stringify(v) + [] == Stringify(v);
  }

  /** Parsing the canonical text gives the value back up to the order of object keys. */
  lemma ParseInvertsCanon(v: Json)
    requires WF(v)
    ensures Parse(Canon(v)) == Some(Normal(v))
  {
    CanonIsStringifyNormal(v);
    NormalWF(v);
    ParseInvertsStringify(Normal(v));
  }

  /** Two values print alike exactly when they are equal up to the order of object keys. */
  lemma CanonInjective(v: Json, w: Json)
    requires WF(v) && WF(w)
    ensures Canon(v) == Canon(w) <==> Equiv(v, w)
  {
    ParseInvertsCanon(v);
    ParseInvertsCanon(w);
    EquivNormal(v, w);
    CanonIsStringifyNormal(v);
    CanonIsStringifyNormal(w);
  }

  /** Printing what was parsed from a canonical text prints that text again. */
  lemma NormalIdempotent(v: Json)
    requires WF(v)
    ensures Normal(Normal(v)) == Normal(v)
    ensures Canon(Normal(v)) == Canon(v)
    ensures Equiv(v, Normal(v))
  {
    NormalEquiv(v);
    NormalWF(v);
    EquivNormal(v, Normal(v));
    CanonIsStringifyNormal(v);
    CanonIsStringifyNormal(Normal(v));
  }

  lemma {:induction false} NormalEquiv(v: Json)
    requires WF(v)
    ensures Equiv(v, Normal(v))
    decreases v
  {
    match v
    case Arr(items) =>
      forall i | 0 <= i < |items| ensures Equiv(items[i], NormalItems(items)[i]) {
        WFItem(items, i);
        NormalEquiv(items[i]);
      }
    case Obj(members) =>
      var ns := NormalMembers(members);
      SortAscending(ns);
      forall i | 0 <= i < |members|
        ensures var o := Lookup(SortByKey(ns), members[i].key); o.Some? && Equiv(members[i].value, o.value)
      {
        WFMember(members, members[i]);
        NormalEquiv(members[i].value);
        SameMember(SortByKey(ns), ns, ns[i]);
        LookupEntry(SortByKey(ns), ns[i]);
      }
    case _ =>
  }
}
