/** The grammar of JSON texts (RFC 8259, sections 2 to 7) as syntax trees with the text they stand
    for and the value they mean, and the proof that `JSON.parse` reads exactly these texts. */
module JsonGrammar {
  import opened Utf16
  import opened Wrappers
  import opened KeySort
  import opened Json
  import opened JsonParser

  // ----- Syntax trees -----

  /** A character of a string: as it stands, after a backslash, or as four hexadecimal digits. */
  datatype Piece = Raw(u: Unit) | Short(c: Unit) | Hex(ds: Text)

  datatype Doc =
    | Word(w: Json)
    | Number(token: Text)
    | String(pieces: seq<Piece>)
    | Array(gap: Text, items: seq<Padded>)
    | Object(gap: Text, members: seq<Member>)

  /** A value with the space around it. */
  datatype Padded = Padded(before: Text, doc: Doc, after: Text)

  datatype Member = Member(before: Text, key: seq<Piece>, afterKey: Text, value: Padded)

  predicate AllSpace(t: Text) { forall i :: 0 <= i < |t| ==> t[i] == 32 || t[i] == 9 || t[i] == 10 || t[i] == 13 }

  predicate HexChar(u: Unit) { 48 <= u <= 57 || 65 <= u <= 70 || 97 <= u <= 102 }

  function HexOf(u: Unit): int
    requires HexChar(u)
  {
    if u <= 57 then u - 48 else if u <= 70 then u - 65 + 10 else u - 97 + 10
  }

  predicate ProperPiece(p: Piece) {
    match p
    case Raw(u) => u >= 32 && u != QUOTE && u != BACKSLASH
    case Short(c) => c == QUOTE || c == BACKSLASH || c == 47 || c == 98 || c == 102 || c == 110 || c == 114 || c == 116
    case Hex(ds) => |ds| == 4 && forall i :: 0 <= i < 4 ==> HexChar(ds[i])
  }

  predicate ProperPieces(ps: seq<Piece>) { forall i :: 0 <= i < |ps| ==> ProperPiece(ps[i]) }

  predicate Proper(d: Doc) {
    match d
    case Word(w) => w.Null? || w.Bool?
    case Number(token) => IsNumberToken(token) && forall i :: 0 <= i < |token| ==> NumChar(token[i])
    case String(ps) => ProperPieces(ps)
    case Array(gap, items) => AllSpace(gap) && ProperItems(items)
    case Object(gap, members) => AllSpace(gap) && ProperMembers(members)
  }

  predicate ProperPadded(p: Padded) { AllSpace(p.before) && AllSpace(p.after) && Proper(p.doc) }

  predicate ProperItems(items: seq<Padded>) { items == [] || (ProperPadded(items[0]) && ProperItems(items[1..])) }

  predicate ProperMember(m: Member) {
    AllSpace(m.before) && ProperPieces(m.key) && AllSpace(m.afterKey) && ProperPadded(m.value)
  }

  predicate ProperMembers(ms: seq<Member>) { ms == [] || (ProperMember(ms[0]) && ProperMembers(ms[1..])) }

  predicate AllDigit(t: Text) { forall i :: 0 <= i < |t| ==> 48 <= t[i] <= 57 }

  /** The parts of a number: a sign, an integer without a leading zero, a fraction, an exponent. */
  predicate NumberParts(sign: Text, whole: Text, fraction: Text, exponent: Text) {
    (sign == [] || sign == [MINUS]) &&
    whole != [] && AllDigit(whole) && (whole[0] == 48 ==> |whole| == 1) &&
    (fraction == [] || (|fraction| > 1 && fraction[0] == 46 && AllDigit(fraction[1..]))) &&
    (exponent == [] ||
     ((exponent[0] == 69 || exponent[0] == 101) &&
      ((|exponent| > 1 && AllDigit(exponent[1..])) ||
       (|exponent| > 2 && (exponent[1] == 43 || exponent[1] == 45) && AllDigit(exponent[2..])))))
  }

  // ----- The text of a tree -----

  function PieceText(p: Piece): Text {
    match p
    case Raw(u) => [u]
    case Short(c) => [BACKSLASH] + [c]
    case Hex(ds) => [BACKSLASH] + ([117] + ds)
  }

  function PiecesText(ps: seq<Piece>): Text { if ps == [] then [] else PieceText(ps[0]) + PiecesText(ps[1..]) }

  function StringText(ps: seq<Piece>): Text { [QUOTE] + (PiecesText(ps) + [QUOTE]) }

  function WordText(w: Json): Text {
    if w == Null then Lit("null") else if w == Bool(true) then Lit("true") else Lit("false")
  }

  function Render(d: Doc): Text {
    match d
    case Word(w) => WordText(w)
    case Number(token) => token
    case String(ps) => StringText(ps)
    case Array(gap, items) => [OPEN_ARR] + ((if items == [] then gap else RenderItems(items)) + [CLOSE_ARR])
    case Object(gap, members) => [OPEN_OBJ] + ((if members == [] then gap else RenderMembers(members)) + [CLOSE_OBJ])
  }

  function RenderPadded(p: Padded): Text { p.before + (Render(p.doc) + p.after) }

  function RenderItems(items: seq<Padded>): Text {
    if items == [] then []
    else if |items| == 1 then RenderPadded(items[0])
    else RenderPadded(items[0]) + ([COMMA] + RenderItems(items[1..]))
  }

  function RenderMember(m: Member): Text {
    m.before + (StringText(m.key) + (m.afterKey + ([COLON] + RenderPadded(m.value))))
  }

  function RenderMembers(ms: seq<Member>): Text {
    if ms == [] then []
    else if |ms| == 1 then RenderMember(ms[0])
    else RenderMember(ms[0]) + ([COMMA] + RenderMembers(ms[1..]))
  }

  // ----- The meaning of a tree -----

  function PieceUnit(p: Piece): Unit {
    match p
    case Raw(u) => u
    case Short(c) => if c == 98 then 8 else if c == 102 then 12 else if c == 110 then 10 else if c == 114 then 13 else if c == 116 then 9 else c
    case Hex(ds) =>
      if !ProperPiece(p) then 0 else
      assert 0 <= HexOf(ds[0]) < 16 && 0 <= HexOf(ds[1]) < 16 && 0 <= HexOf(ds[2]) < 16 && 0 <= HexOf(ds[3]) < 16;
      HexOf(ds[0]) * 4096 + HexOf(ds[1]) * 256 + HexOf(ds[2]) * 16 + HexOf(ds[3])
  }

  function PiecesUnits(ps: seq<Piece>): Text {
    if ps == [] then [] else [PieceUnit(ps[0])] + PiecesUnits(ps[1..])
  }

  function Meaning(d: Doc): Json {
    match d
    case Word(w) => w
    case Number(token) => NumberMeaning(token)
    case String(ps) => Str(PiecesUnits(ps))
    case Array(_, items) => Arr(MeaningItems(items))
    case Object(_, members) => Obj(SetAll(MeaningMembers(members)))
  }

  /** An integer, or a token that is none. */
  function NumberMeaning(token: Text): Json {
    if IsInteger(token) then
      var n: int := Value(Unsigned(token));
      Num(if token[0] == MINUS then -n else n)
    else Frac(token)
  }

  function MeaningItems(items: seq<Padded>): seq<Json> {
    if items == [] then [] else [Meaning(items[0].doc)] + MeaningItems(items[1..])
  }

  function MeaningMembers(ms: seq<Member>): seq<Entry<Json>> {
    if ms == [] then [] else [Entry(PiecesUnits(ms[0].key), Meaning(ms[0].value.doc))] + MeaningMembers(ms[1..])
  }

  /** The properties set one after the other: a repeated one keeps its place and takes the last
      value. */
  function SetAll(es: seq<Entry<Json>>): seq<Entry<Json>> {
    if es == [] then [] else SetMember(SetAll(es[..|es| - 1]), es[|es| - 1].key, es[|es| - 1].value)
  }

  // ----- Space -----

  lemma {:induction false} SpaceSkipped(ws: Text, t: Text)
    requires AllSpace(ws)
    ensures SkipSpace(ws + t) == SkipSpace(t)
  {
    if ws == [] {
      assert ws + t == t;
    } else {
      SpaceSkipped(ws[1..], t);
      assert (ws + t)[1..] == ws[1..] + t;
    }
  }

  lemma {:induction false} SpaceOf(t: Text) returns (ws: Text)
    ensures AllSpace(ws) && t == ws + SkipSpace(t)
  {
    ws := [];
    if t != [] && Space(t[0]) {
      ws := SpaceOf(t[1..]);
      assert t == [t[0]] + t[1..];
      Regroup([t[0]], ws, SkipSpace(t[1..]));
      ws := [t[0]] + ws;
    }
  }

  /** A value starts after the space before it. */
  lemma ValueAfterSpace(ws: Text, t: Text)
    requires AllSpace(ws)
    ensures ParseValue(ws + t) == ParseValue(t)
  {
    SpaceSkipped(ws, t);
    hide ParseString, ParseItems, ParseMembers, ParseNumber, Keyword, SkipSpace, Lit;
  }

  lemma MemberAfterSpace(ws: Text, t: Text)
    requires AllSpace(ws)
    ensures ParseMember(ws + t) == ParseMember(t)
  {
    SpaceSkipped(ws, t);
    hide ParseString, ParseValue, SkipSpace;
  }

  // ----- Setting properties one by one -----

  lemma {:induction false} WithoutAbsent(ms: seq<Entry<Json>>, key: Text)
    requires Lookup(ms, key) == None
    ensures Without(ms, key) == ms
  {
    if ms != [] {
      assert ms[0].key != key;
      WithoutAbsent(ms[1..], key);
    }
  }

  lemma {:induction false} SetOther(ms: seq<Entry<Json>>, key: Text, x: Json, other: Text)
    requires key != other
    ensures Without(SetMember(ms, key, x), other) == SetMember(Without(ms, other), key, x)
  {
    if ms == [] {
      assert SetMember(ms, key, x)[1..] == [];
    } else if ms[0].key == key {
      assert SetMember(ms, key, x)[1..] == ms[1..];
    } else {
      SetOther(ms[1..], key, x, other);
      assert SetMember(ms, key, x)[1..] == SetMember(ms[1..], key, x);
      if ms[0].key != other { assert Without(ms, other)[1..] == Without(ms[1..], other); }
    }
  }

  /** What the parser makes of a member and the list of the later ones. */
  lemma AddedFirst(m: Entry<Json>, ms: seq<Entry<Json>>)
    requires DistinctKeys(ms) && WF(m.value) && WFMembers(ms)
    ensures AddFirst(m, ms) ==
            [Entry(m.key, match Lookup(ms, m.key) case Some(v) => v case None => m.value)] + Without(ms, m.key)
  {
    hide WF;
    if Lookup(ms, m.key).None? { WithoutAbsent(ms, m.key); }
  }

  lemma AddThenSet(m: Entry<Json>, ms: seq<Entry<Json>>, e: Entry<Json>)
    requires DistinctKeys(ms) && WF(m.value) && WFMembers(ms) && WF(e.value)
    ensures DistinctKeys(SetMember(ms, e.key, e.value)) && WFMembers(SetMember(ms, e.key, e.value))
    ensures AddFirst(m, SetMember(ms, e.key, e.value)) == SetMember(AddFirst(m, ms), e.key, e.value)
  {
    hide WF, AddFirst, DistinctKeys, WFMembers;
    SetWF(ms, e.key, e.value);
    AddedFirst(m, ms);
    AddedFirst(m, SetMember(ms, e.key, e.value));
    LookupSet(ms, e.key, e.value, m.key);
    var rest := Without(ms, m.key);
    if e.key == m.key {
      WithoutSet(ms, m.key, e.value);
    } else {
      SetOther(ms, e.key, e.value, m.key);
      assert AddFirst(m, ms)[1..] == rest;
    }
  }

  predicate EntriesWF(es: seq<Entry<Json>>) { forall i :: 0 <= i < |es| ==> WF(es[i].value) }

  lemma {:induction false} SetAllWF(es: seq<Entry<Json>>)
    requires EntriesWF(es)
    ensures DistinctKeys(SetAll(es)) && WFMembers(SetAll(es))
  {
    hide WF;
    if es != [] {
      SetAllWF(es[..|es| - 1]);
      SetWF(SetAll(es[..|es| - 1]), es[|es| - 1].key, es[|es| - 1].value);
    }
  }

  /** Adding a member before the others, as the parser does from the back, is setting it first. */
  lemma {:induction false} SetAllFirst(m: Entry<Json>, es: seq<Entry<Json>>)
    requires WF(m.value) && EntriesWF(es)
    ensures DistinctKeys(SetAll(es)) && WFMembers(SetAll(es))
    ensures AddFirst(m, SetAll(es)) == SetAll([m] + es)
  {
    hide WF, AddFirst;
    SetAllWF(es);
    if es == [] {
      assert [m][..0] == [];
      AddedFirst(m, []);
    } else {
      var front, e := es[..|es| - 1], es[|es| - 1];
      SetAllFirst(m, front);
      AddThenSet(m, SetAll(front), e);
      assert ([m] + es)[..|es|] == [m] + front;
    }
  }

  // ----- Every text of the grammar is read -----

  lemma HexRead(u: Unit)
    requires HexChar(u)
    ensures HexValue(u) == Some(HexOf(u))
  {
  }

  lemma HexUnitRead(ds: Text)
    requires ProperPiece(Hex(ds))
    ensures HexUnit(ds) == Some(PieceUnit(Hex(ds)))
  {
    HexRead(ds[0]);
    HexRead(ds[1]);
    HexRead(ds[2]);
    HexRead(ds[3]);
    hide HexOf, HexValue;
  }

  lemma PieceRead(p: Piece, rest: Text)
    requires ProperPiece(p) && ParseString(rest).Done?
    ensures ParseString(PieceText(p) + rest) == Done([PieceUnit(p)] + ParseString(rest).value, ParseString(rest).rest)
  {
    match p
    case Raw(u) => assert ([u] + rest)[1..] == rest;
    case Short(c) =>
      var t := [c] + rest;
      assert t[1..] == rest;
      ParseBackslash(t, PieceUnit(p), rest);
      Regroup([BACKSLASH], [c], rest);
    case Hex(ds) =>
      var t := [117] + ds + rest;
      assert t[1..5] == ds && t[5..] == rest;
      HexUnitRead(ds);
      ParseBackslash(t, PieceUnit(p), rest);
      Regroup([BACKSLASH], [117] + ds, rest);
  }

  lemma {:induction false} PiecesRead(ps: seq<Piece>, rest: Text)
    requires ProperPieces(ps)
    ensures ParseString(PiecesText(ps) + ([QUOTE] + rest)) == Done(PiecesUnits(ps), rest)
  {
    hide PieceText, PieceUnit, ProperPiece;
    if ps == [] {
      QuoteRead(rest);
    } else {
      PiecesRead(ps[1..], rest);
      PieceRead(ps[0], PiecesText(ps[1..]) + ([QUOTE] + rest));
      Regroup(PieceText(ps[0]), PiecesText(ps[1..]), [QUOTE] + rest);
    }
  }

  lemma QuoteRead(rest: Text)
    ensures ParseString([] + ([QUOTE] + rest)) == Done([], rest)
  {
    assert [] + ([QUOTE] + rest) == [QUOTE] + rest;
    assert ([QUOTE] + rest)[1..] == rest;
  }

  lemma StringRead(ps: seq<Piece>, rest: Text)
    requires ProperPieces(ps)
    ensures var t := StringText(ps) + rest; StartsWith(t, QUOTE) && ParseString(t[1..]) == Done(PiecesUnits(ps), rest)
  {
    hide ProperPieces, ParseString;
    PiecesRead(ps, rest);
    Regroup([QUOTE], PiecesText(ps) + [QUOTE], rest);
    Regroup(PiecesText(ps), [QUOTE], rest);
    assert ([QUOTE] + (PiecesText(ps) + ([QUOTE] + rest)))[1..] == PiecesText(ps) + ([QUOTE] + rest);
  }

  lemma NumberRead(token: Text)
    requires Proper(Number(token))
    ensures token != [] && NumberOf(token) == Some(NumberMeaning(token))
  {
    if IsInteger(token) { IntegerDigits(token); }
  }

  lemma IntegerDigits(token: Text)
    requires IsInteger(token)
    ensures Unsigned(token) != [] && forall i :: 0 <= i < |Unsigned(token)| ==> Digit(Unsigned(token)[i])
  {
  }

  lemma RenderFirst(d: Doc)
    requires Proper(d)
    ensures Render(d) != [] && var u := Render(d)[0]; !Space(u) && u != CLOSE_ARR && u != CLOSE_OBJ
  {
    if d.Number? { NumberRead(d.token); }
  }

  /** What may follow the space after a value. */
  predicate Delimited(t: Text) { t == [] || (!Space(t[0]) && !NumChar(t[0])) }

  lemma AfterSpace(ws: Text, t: Text)
    requires AllSpace(ws) && Delimited(t)
    ensures SkipSpace(ws + t) == t && Ends(ws + t)
  {
    SpaceSkipped(ws, t);
    if ws != [] { assert (ws + t)[0] == ws[0]; } else { assert ws + t == t; }
  }

  // One step of the parser, with space.

  lemma ArrayRead(t: Text, items: seq<Json>, rest: Text)
    requires !StartsWith(SkipSpace(t), CLOSE_ARR) && ParseItems(t) == Done(items, rest)
    ensures ParseValue([OPEN_ARR] + t) == Done(Arr(items), rest)
  {
    hide SkipSpace, ParseItems;
    assert ([OPEN_ARR] + t)[1..] == t;
    NoSpaceFirst([OPEN_ARR] + t);
  }

  lemma NoSpaceFirst(t: Text)
    requires t != [] && !Space(t[0])
    ensures SkipSpace(t) == t
  {
  }

  lemma EmptyArrayRead(gap: Text, rest: Text)
    requires AllSpace(gap)
    ensures ParseValue([OPEN_ARR] + (gap + ([CLOSE_ARR] + rest))) == Done(Arr([]), rest)
  {
    AfterSpace(gap, [CLOSE_ARR] + rest);
    var t := gap + ([CLOSE_ARR] + rest);
    hide SkipSpace, ParseItems;
    assert ([OPEN_ARR] + t)[1..] == t && ([CLOSE_ARR] + rest)[1..] == rest;
    NoSpaceFirst([OPEN_ARR] + t);
  }

  lemma ObjectRead(t: Text, members: seq<Entry<Json>>, rest: Text)
    requires !StartsWith(SkipSpace(t), CLOSE_OBJ) && ParseMembers(t) == Done(members, rest)
    ensures ParseValue([OPEN_OBJ] + t) == Done(Obj(members), rest)
  {
    hide SkipSpace, ParseMembers;
    assert ([OPEN_OBJ] + t)[1..] == t;
    NoSpaceFirst([OPEN_OBJ] + t);
  }

  lemma EmptyObjectRead(gap: Text, rest: Text)
    requires AllSpace(gap)
    ensures ParseValue([OPEN_OBJ] + (gap + ([CLOSE_OBJ] + rest))) == Done(Obj([]), rest)
  {
    AfterSpace(gap, [CLOSE_OBJ] + rest);
    var t := gap + ([CLOSE_OBJ] + rest);
    hide SkipSpace, ParseMembers;
    assert ([OPEN_OBJ] + t)[1..] == t && ([CLOSE_OBJ] + rest)[1..] == rest;
    NoSpaceFirst([OPEN_OBJ] + t);
  }

  lemma LastItemRead(t: Text, v: Json, r: Text, rest: Text)
    requires ParseValue(t) == Done(v, r) && SkipSpace(r) == [CLOSE_ARR] + rest
    ensures ParseItems(t) == Done([v], rest)
  {
    hide ParseValue, SkipSpace;
    assert ([CLOSE_ARR] + rest)[1..] == rest;
  }

  lemma NextItemRead(t: Text, v: Json, r: Text, more: Text, vs: seq<Json>, rest: Text)
    requires ParseValue(t) == Done(v, r) && SkipSpace(r) == [COMMA] + more && ParseItems(more) == Done(vs, rest)
    ensures ParseItems(t) == Done([v] + vs, rest)
  {
    hide ParseValue, SkipSpace;
    assert ([COMMA] + more)[1..] == more;
  }

  lemma LastMemberRead(t: Text, m: Entry<Json>, r: Text, rest: Text)
    requires ParseMember(t) == Done(m, r) && SkipSpace(r) == [CLOSE_OBJ] + rest
    ensures ParseMembers(t) == Done([m], rest)
  {
    hide ParseMember, SkipSpace;
    assert ([CLOSE_OBJ] + rest)[1..] == rest;
  }

  lemma NextMemberRead(t: Text, m: Entry<Json>, r: Text, more: Text, ms: seq<Entry<Json>>, rest: Text)
    requires ParseMember(t) == Done(m, r) && SkipSpace(r) == [COMMA] + more && ParseMembers(more) == Done(ms, rest)
    ensures ParseMembers(t) == Done(AddFirst(m, ms), rest)
  {
    hide ParseMember, SkipSpace, AddFirst;
    assert ([COMMA] + more)[1..] == more;
  }

  lemma StringDocRead(ps: seq<Piece>, tail: Text)
    requires ProperPieces(ps)
    ensures ParseValue(StringText(ps) + tail) == Done(Str(PiecesUnits(ps)), tail)
  {
    hide ProperPieces, ParseString, StringText, SkipSpace;
    StringRead(ps, tail);
    NoSpaceFirst(StringText(ps) + tail);
  }

  lemma {:induction false} DocRead(d: Doc, tail: Text)
    requires Proper(d) && (d.Number? ==> Ends(tail))
    ensures ParseValue(Render(d) + tail) == Done(Meaning(d), tail)
    decreases d, 0
  {
    hide ParseValue, NumberMeaning, IsNumberToken, ProperPieces, PiecesUnits, StringText, RenderItems, RenderMembers, SetAll;
    match d
    case Word(w) => ParseKeyword(w, tail);
    case Number(token) =>
      NumberRead(token);
      ParseNumberValue(token, tail);
    case String(ps) => StringDocRead(ps, tail);
    case Array(gap, items) =>
      var inside := if items == [] then gap else RenderItems(items);
      Regroup([OPEN_ARR], inside + [CLOSE_ARR], tail);
      Regroup(inside, [CLOSE_ARR], tail);
      if items == [] { EmptyArrayRead(gap, tail); }
      else {
        ItemsRead(items, tail);
        ArrayRead(RenderItems(items) + ([CLOSE_ARR] + tail), MeaningItems(items), tail);
      }
    case Object(gap, members) =>
      var inside := if members == [] then gap else RenderMembers(members);
      Regroup([OPEN_OBJ], inside + [CLOSE_OBJ], tail);
      Regroup(inside, [CLOSE_OBJ], tail);
      if members == [] { EmptyObjectRead(gap, tail); SetNone(); }
      else {
        MembersRead(members, tail);
        ObjectRead(RenderMembers(members) + ([CLOSE_OBJ] + tail), SetAll(MeaningMembers(members)), tail);
      }
  }

  lemma {:induction false} PaddedRead(p: Padded, tail: Text)
    requires ProperPadded(p) && Delimited(tail)
    ensures ParseValue(RenderPadded(p) + tail) == Done(Meaning(p.doc), p.after + tail)
    ensures SkipSpace(p.after + tail) == tail
    ensures var t := SkipSpace(RenderPadded(p) + tail); !StartsWith(t, CLOSE_ARR) && !StartsWith(t, CLOSE_OBJ)
    decreases p, 0
  {
    hide ParseValue, SkipSpace, AllSpace, Proper, Render, Meaning, Delimited, Ends, Space;
    AfterSpace(p.after, tail);
    DocRead(p.doc, p.after + tail);
    Regroup(p.before, Render(p.doc) + p.after, tail);
    Regroup(Render(p.doc), p.after, tail);
    ValueAfterSpace(p.before, Render(p.doc) + (p.after + tail));
    SpaceSkipped(p.before, Render(p.doc) + (p.after + tail));
    RenderFirst(p.doc);
    NoSpaceFirst(Render(p.doc) + (p.after + tail));
  }

  lemma {:induction false} ItemsRead(items: seq<Padded>, rest: Text)
    requires ProperItems(items) && items != []
    ensures var t := RenderItems(items) + ([CLOSE_ARR] + rest);
            ParseItems(t) == Done(MeaningItems(items), rest) && !StartsWith(SkipSpace(t), CLOSE_ARR)
    decreases items, 1
  {
    hide ParseItems, ParseValue, SkipSpace, ProperPadded, RenderPadded, Meaning;
    if |items| == 1 {
      OneItem(items[0]);
      assert items == [items[0]];
      PaddedRead(items[0], [CLOSE_ARR] + rest);
      LastItemRead(RenderPadded(items[0]) + ([CLOSE_ARR] + rest), Meaning(items[0].doc), items[0].after + ([CLOSE_ARR] + rest), rest);
    } else {
      var more := RenderItems(items[1..]) + ([CLOSE_ARR] + rest);
      PaddedRead(items[0], [COMMA] + more);
      ItemsRead(items[1..], rest);
      Regroup(RenderPadded(items[0]), [COMMA] + RenderItems(items[1..]), [CLOSE_ARR] + rest);
      Regroup([COMMA], RenderItems(items[1..]), [CLOSE_ARR] + rest);
      NextItemRead(RenderPadded(items[0]) + ([COMMA] + more), Meaning(items[0].doc), items[0].after + ([COMMA] + more), more, MeaningItems(items[1..]), rest);
    }
  }

  function Entered(m: Member): Entry<Json> { Entry(PiecesUnits(m.key), Meaning(m.value.doc)) }

  lemma MemberTail(m: Member, tail: Text)
    ensures RenderMember(m) + tail == m.before + (StringText(m.key) + (m.afterKey + ([COLON] + (RenderPadded(m.value) + tail))))
  {
    hide StringText, RenderPadded;
    var v := RenderPadded(m.value);
    Regroup(m.before, StringText(m.key) + (m.afterKey + ([COLON] + v)), tail);
    Regroup(StringText(m.key), m.afterKey + ([COLON] + v), tail);
    Regroup(m.afterKey, [COLON] + v, tail);
    Regroup([COLON], v, tail);
  }

  lemma KeyRead(t: Text, key: Text, afterKey: Text, u: Text, v: Json, rest: Text)
    requires StartsWith(t, QUOTE) && ParseString(t[1..]) == Done(key, afterKey)
    requires SkipSpace(afterKey) == [COLON] + u && ParseValue(u) == Done(v, rest)
    ensures ParseMember(t) == Done(Entry(key, v), rest)
  {
    hide ParseString, ParseValue, SkipSpace;
    NoSpaceFirst(t);
    assert ([COLON] + u)[1..] == u;
  }

  lemma {:induction false} MemberRead(m: Member, tail: Text)
    requires ProperMember(m) && Delimited(tail)
    ensures ParseMember(RenderMember(m) + tail) == Done(Entered(m), m.value.after + tail)
    ensures SkipSpace(m.value.after + tail) == tail
    ensures !StartsWith(SkipSpace(RenderMember(m) + tail), CLOSE_OBJ)
    decreases m, 0
  {
    hide ParseMember, ParseString, ParseValue, SkipSpace, AllSpace, ProperPieces, ProperPadded, StringText, RenderPadded, RenderMember, Meaning, PiecesUnits, Delimited;
    MemberTail(m, tail);
    PaddedRead(m.value, tail);
    var u := RenderPadded(m.value) + tail;
    var afterKey := m.afterKey + ([COLON] + u);
    assert Delimited([COLON] + u) by { ColonDelimits(u); }
    AfterSpace(m.afterKey, [COLON] + u);
    StringRead(m.key, afterKey);
    KeyRead(StringText(m.key) + afterKey, PiecesUnits(m.key), afterKey, u, Meaning(m.value.doc), m.value.after + tail);
    MemberAfterSpace(m.before, StringText(m.key) + afterKey);
    SpaceSkipped(m.before, StringText(m.key) + afterKey);
    NoSpaceFirst(StringText(m.key) + afterKey);
  }

  lemma ColonDelimits(u: Text)
    ensures Delimited([COLON] + u)
  {
  }

  lemma {:induction false} MembersRead(ms: seq<Member>, rest: Text)
    requires ProperMembers(ms) && ms != []
    ensures var t := RenderMembers(ms) + ([CLOSE_OBJ] + rest);
            ParseMembers(t) == Done(SetAll(MeaningMembers(ms)), rest) && !StartsWith(SkipSpace(t), CLOSE_OBJ)
    ensures EntriesWF(MeaningMembers(ms))
    decreases ms, 1
  {
    hide ParseMembers, ParseMember, SkipSpace, ProperMember, RenderMember, SetAll, AddFirst, WF, Meaning, PiecesUnits;
    var e := Entered(ms[0]);
    if |ms| == 1 {
      MemberRead(ms[0], [CLOSE_OBJ] + rest);
      LastMemberRead(RenderMember(ms[0]) + ([CLOSE_OBJ] + rest), e, ms[0].value.after + ([CLOSE_OBJ] + rest), rest);
      assert MeaningMembers(ms) == [e];
      SetOne(e);
    } else {
      var more := RenderMembers(ms[1..]) + ([CLOSE_OBJ] + rest);
      MemberRead(ms[0], [COMMA] + more);
      MembersRead(ms[1..], rest);
      Regroup(RenderMember(ms[0]), [COMMA] + RenderMembers(ms[1..]), [CLOSE_OBJ] + rest);
      Regroup([COMMA], RenderMembers(ms[1..]), [CLOSE_OBJ] + rest);
      var es := MeaningMembers(ms[1..]);
      NextMemberRead(RenderMember(ms[0]) + ([COMMA] + more), e, ms[0].value.after + ([COMMA] + more), more, SetAll(es), rest);
      SetAllFirst(e, es);
    }
  }

  lemma SetNone()
    ensures SetAll([]) == []
  {
  }

  lemma SetOne(e: Entry<Json>)
    ensures SetAll([e]) == [e]
  {
    assert [e][..0] == [];
  }

  // ----- Every text that is read is one of the grammar -----

  lemma HexDerived(u: Unit)
    requires HexValue(u).Some?
    ensures HexChar(u)
  {
  }

  lemma EscapeDerived(t: Text) returns (p: Piece)
    requires ParseEscape(t).Done?
    ensures ProperPiece(p) && PieceUnit(p) == ParseEscape(t).value && [BACKSLASH] + t == PieceText(p) + ParseEscape(t).rest
  {
    if t[0] == 117 {
      var ds := t[1..5];
      HexDerived(ds[0]);
      HexDerived(ds[1]);
      HexDerived(ds[2]);
      HexDerived(ds[3]);
      p := Hex(ds);
      HexUnitRead(ds);
      assert t == [117] + ds + t[5..];
    } else {
      p := Short(t[0]);
      assert t == [t[0]] + t[1..];
    }
  }

  lemma PieceDerived(t: Text) returns (p: Piece, rest: Text)
    requires ParseString(t).Done? && t[0] != QUOTE
    ensures ProperPiece(p) && t == PieceText(p) + rest && |rest| < |t| && ParseString(rest).Done?
    ensures ParseString(t) == Done([PieceUnit(p)] + ParseString(rest).value, ParseString(rest).rest)
  {
    if t[0] == BACKSLASH {
      p := EscapeDerived(t[1..]);
      rest := ParseEscape(t[1..]).rest;
      assert t == [BACKSLASH] + t[1..];
      hide ParseEscape, PieceText, PieceUnit, ProperPiece;
    } else {
      p, rest := Raw(t[0]), t[1..];
    }
  }

  lemma {:induction false} PiecesDerived(t: Text) returns (ps: seq<Piece>)
    requires ParseString(t).Done?
    ensures ProperPieces(ps) && PiecesUnits(ps) == ParseString(t).value
    ensures t == PiecesText(ps) + ([QUOTE] + ParseString(t).rest)
    decreases |t|
  {
    hide PieceText, PieceUnit, ProperPiece;
    if t[0] == QUOTE {
      ps := [];
      QuoteRead(t[1..]);
      assert t == [] + ([QUOTE] + t[1..]);
    } else {
      var p, rest := PieceDerived(t);
      var qs := PiecesDerived(rest);
      ps := [p] + qs;
      PiecesMore(p, qs);
      Regroup(PieceText(p), PiecesText(qs), [QUOTE] + ParseString(t).rest);
    }
  }

  lemma PiecesMore(p: Piece, qs: seq<Piece>)
    ensures ProperPieces([p] + qs) <==> ProperPiece(p) && ProperPieces(qs)
    ensures PiecesUnits([p] + qs) == [PieceUnit(p)] + PiecesUnits(qs)
    ensures PiecesText([p] + qs) == PieceText(p) + PiecesText(qs)
  {
    hide PieceText, PieceUnit, ProperPiece;
    var ps := [p] + qs;
    assert ps[1..] == qs && ps[0] == p;
    if ProperPieces(ps) {
      forall i | 0 <= i < |qs| ensures ProperPiece(qs[i]) { assert ps[i + 1] == qs[i]; }
    }
  }

  lemma StringDerived(t: Text) returns (ps: seq<Piece>)
    requires StartsWith(t, QUOTE) && ParseString(t[1..]).Done?
    ensures ProperPieces(ps) && PiecesUnits(ps) == ParseString(t[1..]).value && t == StringText(ps) + ParseString(t[1..]).rest
  {
    hide ParseString, ProperPieces, PiecesUnits, PiecesText;
    ps := PiecesDerived(t[1..]);
    var rest := ParseString(t[1..]).rest;
    assert t == [QUOTE] + t[1..];
    Regroup([QUOTE], PiecesText(ps) + [QUOTE], rest);
    Regroup(PiecesText(ps), [QUOTE], rest);
  }

  lemma NumberProper(token: Text)
    requires (forall i :: 0 <= i < |token| ==> NumChar(token[i])) && NumberOf(token).Some?
    ensures Proper(Number(token)) && NumberOf(token) == Some(NumberMeaning(token))
  {
    IntegerIsNumber(token);
    NumberAsMeant(token);
    hide NumberOf, IsNumberToken, IsInteger;
  }

  lemma NumberAsMeant(token: Text)
    requires (forall i :: 0 <= i < |token| ==> NumChar(token[i])) && NumberOf(token).Some?
    ensures NumberOf(token) == Some(NumberMeaning(token)) && (IsInteger(token) || IsNumberToken(token))
  {
    hide IsInteger, IsNumberToken;
  }

  lemma NumberDerived(t: Text) returns (token: Text)
    requires ParseNumber(t).Done?
    ensures Proper(Number(token)) && NumberMeaning(token) == ParseNumber(t).value && t == token + ParseNumber(t).rest
  {
    hide NumberOf, Proper, NumberMeaning;
    token := t[..NumberRun(t)];
    NumberProper(token);
  }

  lemma IntegerIsNumber(token: Text)
    ensures IsInteger(token) ==> IsNumberToken(token)
  {
  }

  /** The value after leading space, as a tree without space around it. */
  lemma {:induction false} DocDerived(t: Text) returns (d: Doc)
    requires t != [] && !Space(t[0]) && ParseValue(t).Done?
    ensures Proper(d) && Meaning(d) == ParseValue(t).value && t == Render(d) + ParseValue(t).rest
    decreases |t|, 1
  {
    hide ParseString, ParseItems, ParseMembers, ParseNumber, SkipSpace, NumberMeaning, IsNumberToken, ProperPieces, PiecesUnits,
         StringText, RenderItems, RenderMembers, SetAll, MeaningItems, MeaningMembers, ProperItems, ProperMembers, Space;
    NoSpaceFirst(t);
    var r := ParseValue(t);
    assert t == [t[0]] + t[1..];
    if t[0] == QUOTE {
      var ps := StringDerived(t);
      d := String(ps);
    } else if t[0] == OPEN_ARR {
      d := ArrayDerived(t);
    } else if t[0] == OPEN_OBJ {
      d := ObjectDerived(t);
    } else if t[0] == 110 {
      d := Word(Null);
    } else if t[0] == 116 {
      d := Word(Bool(true));
    } else if t[0] == 102 {
      d := Word(Bool(false));
    } else {
      var token := NumberDerived(t);
      d := Number(token);
    }
  }

  lemma {:induction false} ArrayDerived(t: Text) returns (d: Doc)
    requires t != [] && t[0] == OPEN_ARR && ParseValue(t).Done?
    ensures Proper(d) && Meaning(d) == ParseValue(t).value && t == Render(d) + ParseValue(t).rest
    decreases |t|, 0
  {
    hide ParseItems, SkipSpace, RenderItems, ProperItems, AllSpace;
    NoSpaceFirst(t);
    var inside := t[1..];
    assert t == [OPEN_ARR] + inside;
    if StartsWith(SkipSpace(inside), CLOSE_ARR) {
      var gap := SpaceOf(inside);
      d := Array(gap, []);
      var rest := SkipSpace(inside)[1..];
      assert SkipSpace(inside) == [CLOSE_ARR] + rest;
      Regroup([OPEN_ARR], gap + [CLOSE_ARR], rest);
      Regroup(gap, [CLOSE_ARR], rest);
      NoItems(gap);
    } else {
      var items := ItemsDerived(inside);
      d := Array([], items);
      var rest := ParseItems(inside).rest;
      Regroup([OPEN_ARR], RenderItems(items) + [CLOSE_ARR], rest);
      Regroup(RenderItems(items), [CLOSE_ARR], rest);
      NoItems([]);
    }
  }

  lemma NoItems(gap: Text)
    ensures ProperItems([]) && ProperMembers([]) && MeaningItems([]) == [] && SetAll(MeaningMembers([])) == []
    ensures AllSpace([])
  {
  }

  lemma {:induction false} ObjectDerived(t: Text) returns (d: Doc)
    requires t != [] && t[0] == OPEN_OBJ && ParseValue(t).Done?
    ensures Proper(d) && Meaning(d) == ParseValue(t).value && t == Render(d) + ParseValue(t).rest
    decreases |t|, 0
  {
    hide ParseMembers, SkipSpace, RenderMembers, ProperMembers, AllSpace, SetAll, MeaningMembers;
    NoSpaceFirst(t);
    var inside := t[1..];
    assert t == [OPEN_OBJ] + inside;
    if StartsWith(SkipSpace(inside), CLOSE_OBJ) {
      var gap := SpaceOf(inside);
      d := Object(gap, []);
      var rest := SkipSpace(inside)[1..];
      assert SkipSpace(inside) == [CLOSE_OBJ] + rest;
      Regroup([OPEN_OBJ], gap + [CLOSE_OBJ], rest);
      Regroup(gap, [CLOSE_OBJ], rest);
      NoItems(gap);
    } else {
      var members := MembersDerived(inside);
      d := Object([], members);
      var rest := ParseMembers(inside).rest;
      Regroup([OPEN_OBJ], RenderMembers(members) + [CLOSE_OBJ], rest);
      Regroup(RenderMembers(members), [CLOSE_OBJ], rest);
      NoItems([]);
    }
  }

  lemma NotEmpty(t: Text)
    requires ParseValue(t).Done?
    ensures SkipSpace(t) != [] && !Space(SkipSpace(t)[0])
  {
    hide ParseString, ParseItems, ParseMembers, ParseNumber, Keyword, Lit, Space;
  }

  /** A value with its leading space and with the space up to the next character. */
  lemma {:induction false} PaddedDerived(t: Text) returns (p: Padded)
    requires ParseValue(t).Done?
    ensures ProperPadded(p) && Meaning(p.doc) == ParseValue(t).value
    ensures t == RenderPadded(p) + SkipSpace(ParseValue(t).rest)
    decreases |t|, 2
  {
    hide ParseValue, SkipSpace, AllSpace, Proper, Render, Meaning, Space;
    NotEmpty(t);
    var before := SpaceOf(t);
    var u := SkipSpace(t);
    ValueAfterSpace(before, u);
    var d := DocDerived(u);
    var rest := ParseValue(t).rest;
    var after := SpaceOf(rest);
    p := Padded(before, d, after);
    Regroup(before, Render(d) + after, SkipSpace(rest));
    Regroup(Render(d), after, SkipSpace(rest));
  }

  lemma ItemsMore(p: Padded, items: seq<Padded>)
    requires items != []
    ensures RenderItems([p] + items) == RenderPadded(p) + ([COMMA] + RenderItems(items))
    ensures MeaningItems([p] + items) == [Meaning(p.doc)] + MeaningItems(items)
    ensures ProperItems([p] + items) <==> ProperPadded(p) && ProperItems(items)
  {
    hide RenderPadded, Meaning, ProperPadded;
    assert ([p] + items)[1..] == items;
  }

  lemma OneItem(p: Padded)
    ensures RenderItems([p]) == RenderPadded(p) && MeaningItems([p]) == [Meaning(p.doc)]
    ensures ProperItems([p]) <==> ProperPadded(p)
  {
    hide RenderPadded, Meaning, ProperPadded;
    assert [p][1..] == [];
  }

  lemma {:induction false} ItemsDerived(t: Text) returns (items: seq<Padded>)
    requires ParseItems(t).Done?
    ensures items != [] && ProperItems(items) && MeaningItems(items) == ParseItems(t).value
    ensures t == RenderItems(items) + ([CLOSE_ARR] + ParseItems(t).rest)
    decreases |t|, 3
  {
    hide ParseValue, SkipSpace, ProperPadded, RenderPadded, Meaning, ProperItems, RenderItems, MeaningItems;
    var p := PaddedDerived(t);
    var u := SkipSpace(ParseValue(t).rest);
    if StartsWith(u, CLOSE_ARR) {
      items := [p];
      OneItem(p);
      assert u == [CLOSE_ARR] + u[1..];
    } else {
      var more := ItemsDerived(u[1..]);
      items := [p] + more;
      ItemsMore(p, more);
      assert u == [COMMA] + u[1..];
      Regroup(RenderPadded(p), [COMMA] + RenderItems(more), [CLOSE_ARR] + ParseItems(t).rest);
      Regroup([COMMA], RenderItems(more), [CLOSE_ARR] + ParseItems(t).rest);
    }
  }

  lemma MemberParts(t: Text)
    requires ParseMember(t).Done?
    ensures var u := SkipSpace(t);
            StartsWith(u, QUOTE) && ParseString(u[1..]).Done? &&
            var after := SkipSpace(ParseString(u[1..]).rest);
            StartsWith(after, COLON) && |after| < |t| && ParseValue(after[1..]).Done? &&
            ParseMember(t) == Done(Entry(ParseString(u[1..]).value, ParseValue(after[1..]).value), ParseValue(after[1..]).rest)
  {
    hide ParseString, ParseValue, SkipSpace;
  }

  lemma {:induction false} MemberDerived(t: Text) returns (m: Member)
    requires ParseMember(t).Done?
    ensures ProperMember(m) && Entered(m) == ParseMember(t).value
    ensures t == RenderMember(m) + SkipSpace(ParseMember(t).rest)
    decreases |t|, 3
  {
    hide ParseMember, ParseString, ParseValue, SkipSpace, AllSpace, ProperPieces, ProperPadded, StringText, RenderPadded, RenderMember, Meaning, PiecesUnits;
    MemberParts(t);
    var before := SpaceOf(t);
    var u := SkipSpace(t);
    var key := StringDerived(u);
    var rest := ParseString(u[1..]).rest;
    var afterKey := SpaceOf(rest);
    var after := SkipSpace(rest);
    assert after == [COLON] + after[1..];
    var value := PaddedDerived(after[1..]);
    m := Member(before, key, afterKey, value);
    MemberTail(m, SkipSpace(ParseMember(t).rest));
  }

  lemma MembersMore(m: Member, ms: seq<Member>)
    requires ms != []
    ensures RenderMembers([m] + ms) == RenderMember(m) + ([COMMA] + RenderMembers(ms))
    ensures MeaningMembers([m] + ms) == [Entered(m)] + MeaningMembers(ms)
    ensures ProperMembers([m] + ms) <==> ProperMember(m) && ProperMembers(ms)
  {
    hide RenderMember, Meaning, ProperMember, PiecesUnits;
    assert ([m] + ms)[1..] == ms;
  }

  lemma OneMember(m: Member)
    ensures RenderMembers([m]) == RenderMember(m) && MeaningMembers([m]) == [Entered(m)]
    ensures ProperMembers([m]) <==> ProperMember(m)
  {
    hide RenderMember, Meaning, ProperMember, PiecesUnits;
    assert [m][1..] == [];
  }

  lemma {:induction false} MembersDerived(t: Text) returns (ms: seq<Member>)
    requires ParseMembers(t).Done?
    ensures ms != [] && ProperMembers(ms) && EntriesWF(MeaningMembers(ms)) && SetAll(MeaningMembers(ms)) == ParseMembers(t).value
    ensures t == RenderMembers(ms) + ([CLOSE_OBJ] + ParseMembers(t).rest)
    decreases |t|, 4
  {
    hide ParseMember, SkipSpace, ProperMember, RenderMember, ProperMembers, RenderMembers, MeaningMembers, SetAll, AddFirst, Entered, WF;
    var m := MemberDerived(t);
    var u := SkipSpace(ParseMember(t).rest);
    if StartsWith(u, CLOSE_OBJ) {
      ms := [m];
      OneMember(m);
      SetOne(Entered(m));
      assert u == [CLOSE_OBJ] + u[1..];
    } else {
      var more := MembersDerived(u[1..]);
      ms := [m] + more;
      MembersMore(m, more);
      SetAllFirst(Entered(m), MeaningMembers(more));
      assert u == [COMMA] + u[1..];
      Regroup(RenderMember(m), [COMMA] + RenderMembers(more), [CLOSE_OBJ] + ParseMembers(t).rest);
      Regroup([COMMA], RenderMembers(more), [CLOSE_OBJ] + ParseMembers(t).rest);
    }
  }

  // ----- Numbers -----

  lemma RunSplit(t: Text, ds: Text, rest: Text)
    requires t == ds + rest && AllDigit(ds) && (rest == [] || !Digit(rest[0]))
    ensures DigitRun(t) == |ds| && t[..|ds|] == ds && t[|ds|..] == rest
  {
    assert forall i :: 0 <= i < |ds| ==> t[i] == ds[i];
    if rest != [] { assert t[|ds|] == rest[0]; }
  }

  lemma ExponentExactly(t: Text)
    ensures IsExponent(t) <==> NumberParts([], [48], [], t)
  {
    if t != [] {
      RunExactly(t[1..]);
      if |t| > 1 { RunExactly(t[2..]); }
    }
  }

  lemma RunExactly(t: Text)
    ensures DigitRun(t) == |t| <==> AllDigit(t)
  {
    hide DigitRun;
  }

  lemma FractionRead(fraction: Text, exponent: Text)
    requires NumberParts([], [48], fraction, exponent)
    ensures IsFraction(fraction + exponent)
  {
    hide IsExponent, DigitRun;
    ExponentExactly(exponent);
    var t := fraction + exponent;
    if fraction != [] {
      assert t[1..] == fraction[1..] + exponent;
      RunSplit(t[1..], fraction[1..], exponent);
    } else {
      assert t == exponent;
    }
  }

  lemma FractionDerived(t: Text) returns (fraction: Text, exponent: Text)
    requires IsFraction(t)
    ensures NumberParts([], [48], fraction, exponent) && t == fraction + exponent
  {
    hide IsExponent, DigitRun;
    fraction, exponent := [], t;
    if t != [] && t[0] == 46 {
      var n := DigitRun(t[1..]);
      fraction, exponent := t[..n + 1], t[n + 1..];
      assert fraction[1..] == t[1..][..n] && exponent == t[1..][n..];
    }
    ExponentExactly(exponent);
  }

  lemma NumberTokenRead(sign: Text, whole: Text, fraction: Text, exponent: Text)
    requires NumberParts(sign, whole, fraction, exponent)
    ensures IsNumberToken(sign + whole + fraction + exponent)
  {
    hide IsFraction, IsExponent, DigitRun;
    var tail := fraction + exponent;
    var t := sign + whole + fraction + exponent;
    assert t == sign + (whole + tail);
    assert Unsigned(t) == whole + tail by { assert (whole + tail)[0] == whole[0]; }
    FractionRead(fraction, exponent);
    RunSplit(whole + tail, whole, tail);
  }

  /** The test for a number token is the number grammar of RFC 8259, section 6. */
  lemma NumberTokenExactly(t: Text)
    ensures IsNumberToken(t) <==>
            exists sign: Text, whole: Text, fraction: Text, exponent: Text ::
              NumberParts(sign, whole, fraction, exponent) && t == sign + whole + fraction + exponent
  {
    if sign: Text, whole: Text, fraction: Text, exponent: Text :|
      NumberParts(sign, whole, fraction, exponent) && t == sign + whole + fraction + exponent
    {
      NumberTokenRead(sign, whole, fraction, exponent);
    }
    if IsNumberToken(t) { NumberTokenDerived(t); }
  }

  lemma NumberTokenDerived(t: Text)
    requires IsNumberToken(t)
    ensures exists sign: Text, whole: Text, fraction: Text, exponent: Text ::
              NumberParts(sign, whole, fraction, exponent) && t == sign + whole + fraction + exponent
  {
    hide IsFraction, IsExponent, DigitRun;
    var u := Unsigned(t);
    var n := DigitRun(u);
    var sign, whole := if u == t then [] else [MINUS], u[..n];
    assert whole[0] == u[0];
    var fraction, exponent := FractionDerived(u[n..]);
    assert t == sign + whole + fraction + exponent;
    assert NumberParts(sign, whole, fraction, exponent);
  }

  // ----- Main result -----

  /** The text stands for the value. */
  ghost predicate Derives(text: Text, v: Json) {
    exists p: Padded :: ProperPadded(p) && RenderPadded(p) == text && Meaning(p.doc) == v
  }

  /** `JSON.parse` takes exactly the texts of the grammar and gives what they mean: space between
      the tokens, every escape, and repeated property names included. */
  lemma ParsesExactly(text: Text, v: Json)
    ensures Parse(text) == Some(v) <==> Derives(text, v)
  {
    hide ParseValue, SkipSpace, ProperPadded, RenderPadded, Meaning;
    if Parse(text) == Some(v) {
      var p := PaddedDerived(text);
      assert RenderPadded(p) + [] == RenderPadded(p);
    }
    if Derives(text, v) {
      var p: Padded :| ProperPadded(p) && RenderPadded(p) == text && Meaning(p.doc) == v;
      PaddedRead(p, []);
      assert RenderPadded(p) + [] == RenderPadded(p);
    }
  }
}
