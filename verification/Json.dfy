/** JSON values and the two printers: `JSON.stringify` and `canonicalJson`.

    An object is the list of its own properties in insertion order. A number is an
    integer, or the shortest token of a number that is not one. */
module Json {
  import opened Utf16
  import opened Wrappers
  import opened KeySort

  datatype Json =
    | Null
    | Bool(b: bool)
    | Num(n: int)
    | Frac(lit: Text)
    | Str(s: Text)
    | Arr(items: seq<Json>)
    | Obj(members: seq<Entry<Json>>)

  const QUOTE: Unit := 34
  const BACKSLASH: Unit := 92
  const COMMA: Unit := 44
  const COLON: Unit := 58
  const MINUS: Unit := 45
  const OPEN_ARR: Unit := 91
  const CLOSE_ARR: Unit := 93
  const OPEN_OBJ: Unit := 123
  const CLOSE_OBJ: Unit := 125
  const NEWLINE: Unit := 10

  // ----- Numbers -----

  predicate Digit(u: Unit) { 48 <= u <= 57 }

  /** The characters that can occur in a number token. */
  predicate NumChar(u: Unit) { Digit(u) || u == MINUS || u == 43 || u == 46 || u == 69 || u == 101 }

  function Digits(n: nat): (t: Text)
    ensures t != [] && (forall i :: 0 <= i < |t| ==> Digit(t[i]))
    ensures t[0] == 48 ==> |t| == 1
    ensures n > 0 ==> t[0] != 48
  {
    if n < 10 then [48 + n] else Digits(n / 10) + [48 + n % 10]
  }

  function Decimal(n: int): Text {
    if n < 0 then [MINUS] + Digits(-n) else Digits(n)
  }

  /** How many digits a text starts with. */
  function DigitRun(t: Text): (n: nat)
    ensures n <= |t|
    ensures forall i :: 0 <= i < n ==> Digit(t[i])
    ensures n < |t| ==> !Digit(t[n])
  {
    if t != [] && Digit(t[0]) then 1 + DigitRun(t[1..]) else 0
  }

  /** `[ exp ]` of RFC 8259, section 6. */
  predicate IsExponent(t: Text) {
    t == [] ||
    ((t[0] == 69 || t[0] == 101) &&
     var u := if |t| > 1 && (t[1] == 43 || t[1] == MINUS) then t[2..] else t[1..];
     u != [] && DigitRun(u) == |u|)
  }

  /** `[ frac ] [ exp ]` of RFC 8259, section 6. */
  predicate IsFraction(t: Text) {
    if t != [] && t[0] == 46 then
      var n := DigitRun(t[1..]);
      n > 0 && IsExponent(t[1..][n..])
    else IsExponent(t)
  }

  function Unsigned(t: Text): Text { if t != [] && t[0] == MINUS then t[1..] else t }

  /** The integer part is present and has no leading zero. */
  predicate HasIntegerPart(t: Text) {
    DigitRun(t) > 0 && (t[0] == 48 ==> DigitRun(t) == 1)
  }

  predicate IsInteger(t: Text) {
    HasIntegerPart(Unsigned(t)) && DigitRun(Unsigned(t)) == |Unsigned(t)|
  }

  predicate IsNumberToken(t: Text) {
    HasIntegerPart(Unsigned(t)) && IsFraction(Unsigned(t)[DigitRun(Unsigned(t))..])
  }

  /** A number token that is not an integer. */
  predicate IsFracToken(t: Text) {
    IsNumberToken(t) && !IsInteger(t) && forall i :: 0 <= i < |t| ==> NumChar(t[i])
  }

  // ----- Well-formed values -----

  /** What a JavaScript value can be: distinct property names, proper number tokens. */
  predicate WF(v: Json) {
    match v
    case Frac(lit) => IsFracToken(lit)
    case Arr(items) => WFItems(items)
    case Obj(members) => DistinctKeys(members) && WFMembers(members)
    case _ => true
  }

  predicate WFItems(items: seq<Json>) {
    items == [] || (WF(items[0]) && WFItems(items[1..]))
  }

  /** Well-formed values, one by one. */
  predicate AllWF(vs: seq<Json>) { forall i :: 0 <= i < |vs| ==> WF(vs[i]) }

  predicate WFMembers(members: seq<Entry<Json>>) {
    members == [] || (WF(members[0].value) && WFMembers(members[1..]))
  }

  // ----- Strings: RFC 8259, section 7 -----

  function HexDigit(d: int): Unit
    requires 0 <= d < 16
  {
    if d < 10 then 48 + d else 87 + d
  }

  function Hex4(u: Unit): Text {
    [HexDigit(u / 16 / 16 / 16), HexDigit(u / 16 / 16 % 16), HexDigit(u / 16 % 16), HexDigit(u % 16)]
  }

  predicate HighSurrogate(u: Unit) { 0xD800 <= u <= 0xDBFF }

  predicate LowSurrogate(u: Unit) { 0xDC00 <= u <= 0xDFFF }

  function EscapeUnit(u: Unit): Text {
    if u == QUOTE then [BACKSLASH, QUOTE]
    else if u == BACKSLASH then [BACKSLASH, BACKSLASH]
    else if u == 8 then [BACKSLASH, 98]
    else if u == 9 then [BACKSLASH, 116]
    else if u == 10 then [BACKSLASH, 110]
    else if u == 12 then [BACKSLASH, 102]
    else if u == 13 then [BACKSLASH, 114]
    else if u < 32 || HighSurrogate(u) || LowSurrogate(u) then [BACKSLASH, 117] + Hex4(u)
    else [u]
  }

  /** A surrogate pair is printed raw, a lone surrogate is escaped. */
  function Escaped(s: Text): Text {
    if s == [] then []
    else if |s| > 1 && HighSurrogate(s[0]) && LowSurrogate(s[1]) then s[..2] + Escaped(s[2..])
    else EscapeUnit(s[0]) + Escaped(s[1..])
  }

  function Quoted(s: Text): Text { [QUOTE] + Escaped(s) + [QUOTE] }

  // ----- JSON.stringify -----

  function JoinItems(ts: seq<Text>): Text {
    if ts == [] then [] else if |ts| == 1 then ts[0] else ts[0] + [COMMA] + JoinItems(ts[1..])
  }

  function JoinMembers(es: seq<Entry<Text>>): Text {
    if es == [] then []
    else
      var first := Quoted(es[0].key) + [COLON] + es[0].value;
      if |es| == 1 then first else first + [COMMA] + JoinMembers(es[1..])
  }

  function Stringify(v: Json): Text {
    match v
    case Null => Lit("null")
    case Bool(b) => if b then Lit("true") else Lit("false")
    case Num(n) => Decimal(n)
    case Frac(lit) => lit
    case Str(s) => Quoted(s)
    case Arr(items) => [OPEN_ARR] + JoinItems(StringifyItems(items)) + [CLOSE_ARR]
    case Obj(members) => [OPEN_OBJ] + JoinMembers(StringifyMembers(members)) + [CLOSE_OBJ]
  }

  function StringifyItems(items: seq<Json>): (ts: seq<Text>)
    ensures |ts| == |items|
  {
    if items == [] then [] else [Stringify(items[0])] + StringifyItems(items[1..])
  }

  function StringifyMembers(members: seq<Entry<Json>>): (es: seq<Entry<Text>>)
    ensures |es| == |members|
  {
    if members == [] then []
    else [Entry(members[0].key, Stringify(members[0].value))] + StringifyMembers(members[1..])
  }

  // ----- String(v) -----

  /** `String(v)` throws: an own `toString`, which no JSON value makes a function, hides the
      inherited one. */
  predicate NoText(v: Json) {
    match v
    case Obj(_) => Get(v, Lit("toString")).Some?
    case Arr(items) => exists i :: 0 <= i < |items| && NoText(items[i])
    case _ => false
  }

  /** `String(v)` where it does not throw: an array joins its elements, of which `null` gives
      nothing. */
  function AsString(v: Json): Text {
    match v
    case Str(s) => s
    case Arr(items) => JoinItems(AsStrings(items))
    case Obj(_) => Lit("[object Object]")
    case _ => Stringify(v)
  }

  function AsStrings(items: seq<Json>): (ts: seq<Text>)
    ensures |ts| == |items|
    ensures forall i :: 0 <= i < |items| ==> ts[i] == if items[i].Null? then [] else AsString(items[i])
  {
    if items == [] then []
    else [if items[0].Null? then [] else AsString(items[0])] + AsStrings(items[1..])
  }

  // ----- canonicalJson -----

  function Canon(v: Json): Text {
    match v
    case Arr(items) => [OPEN_ARR] + JoinItems(CanonItems(items)) + [CLOSE_ARR]
    case Obj(members) => [OPEN_OBJ] + JoinMembers(SortByKey(CanonMembers(members))) + [CLOSE_OBJ]
    case _ => Stringify(v)
  }

  function CanonItems(items: seq<Json>): seq<Text> {
    if items == [] then [] else [Canon(items[0])] + CanonItems(items[1..])
  }

  function CanonMembers(members: seq<Entry<Json>>): seq<Entry<Text>> {
    if members == [] then []
    else [Entry(members[0].key, Canon(members[0].value))] + CanonMembers(members[1..])
  }

  // ----- The representative of a value up to the order of object keys -----

  function Normal(v: Json): Json {
    match v
    case Arr(items) => Arr(NormalItems(items))
    case Obj(members) => Obj(SortByKey(NormalMembers(members)))
    case _ => v
  }

  function NormalItems(items: seq<Json>): (r: seq<Json>)
    ensures |r| == |items|
    ensures forall i :: 0 <= i < |items| ==> r[i] == Normal(items[i])
  {
    if items == [] then [] else [Normal(items[0])] + NormalItems(items[1..])
  }

  function NormalMembers(members: seq<Entry<Json>>): (r: seq<Entry<Json>>)
    ensures |r| == |members|
    ensures forall i :: 0 <= i < |members| ==> r[i] == Entry(members[i].key, Normal(members[i].value))
  {
    if members == [] then []
    else [Entry(members[0].key, Normal(members[0].value))] + NormalMembers(members[1..])
  }

  // ----- Reading a property -----

  function Lookup(members: seq<Entry<Json>>, key: Text): (r: Option<Json>)
    ensures r.Some? ==> Entry(key, r.value) in members
    ensures r.None? <==> forall i :: 0 <= i < |members| ==> members[i].key != key
  {
    if members == [] then None
    else if members[0].key == key then Some(members[0].value)
    else Lookup(members[1..], key)
  }

  /** `v?.key`; a missing property is `undefined`. */
  function Get(v: Json, key: Text): Option<Json> {
    if v.Obj? then Lookup(v.members, key) else None
  }

  /** Equality up to the order of object keys, stated without printing or sorting. */
  predicate Equiv(v: Json, w: Json) {
    match v
    case Arr(items) =>
      w.Arr? && |items| == |w.items| && forall i :: 0 <= i < |items| ==> Equiv(items[i], w.items[i])
    case Obj(members) =>
      w.Obj? && |members| == |w.members| &&
      forall i :: 0 <= i < |members| ==>
        var o := Lookup(w.members, members[i].key); o.Some? && Equiv(members[i].value, o.value)
    case _ => v == w
  }

  // ----- Values without text -----

  /** What stands in an array of arrays, at a path of indices. */
  function Element(v: Json, path: seq<nat>): Option<Json>
    decreases path
  {
    if path == [] then Some(v)
    else if v.Arr? && path[0] < |v.items| then Element(v.items[path[0]], path[1..])
    else None
  }

  /** An object with a `toString` of its own. */
  predicate HidesText(v: Option<Json>) { v.Some? && v.value.Obj? && Lookup(v.value.members, Lit("toString")).Some? }

  ghost predicate HidesInside(v: Json) { exists path: seq<nat> :: HidesText(Element(v, path)) }

  /** `String(v)` throws exactly for such an object, or an array with one in it at any depth. */
  lemma {:induction false} NoTextExactly(v: Json)
    ensures NoText(v) <==> HidesInside(v)
    decreases v
  {
    hide HidesText;
    var here: seq<nat> := [];
    assert Element(v, here) == Some(v);
    match v
    case Arr(items) =>
      forall i | 0 <= i < |items| ensures NoText(items[i]) <==> HidesInside(items[i]) { NoTextExactly(items[i]); }
      if i :| 0 <= i < |items| && NoText(items[i]) {
        var path: seq<nat> :| HidesText(Element(items[i], path));
        assert ([i] + path)[1..] == path;
        assert Element(v, [i] + path) == Element(items[i], path);
      }
      if path: seq<nat> :| HidesText(Element(v, path)) {
        assert path != [] by { ArrayHasText(items); }
        assert Element(v, path).Some? by { Hidden(Element(v, path)); }
        var n: nat := path[0];
        assert Element(v, path) == Element(items[n], path[1..]);
        assert HidesInside(items[n]);
        assert NoText(items[n]);
      }
    case Obj(members) => TextOfObject(members); OnlyHere(v);
    case _ => OnlyHere(v); NotHidden(v);
  }

  lemma ArrayHasText(items: seq<Json>)
    ensures !HidesText(Some(Arr(items)))
  {
  }

  lemma Hidden(v: Option<Json>)
    requires HidesText(v)
    ensures v.Some?
  {
  }

  lemma NotHidden(v: Json)
    requires !v.Arr? && !v.Obj?
    ensures !HidesText(Some(v)) && !HidesText(None)
  {
  }

  lemma TextOfObject(members: seq<Entry<Json>>)
    ensures HidesText(Some(Obj(members))) <==> NoText(Obj(members))
    ensures !HidesText(None)
  {
  }

  lemma OnlyHere(v: Json)
    requires !v.Arr?
    ensures forall path: seq<nat> :: Element(v, path) == if path == [] then Some(v) else None
  {
  }

  // ----- canonicalJson prints the normal form -----

  lemma {:induction false} SortStringified(members: seq<Entry<Json>>)
    ensures SortByKey(StringifyMembers(members)) == StringifyMembers(SortByKey(members))
  {
    if members != [] {
      SortStringified(members[1..]);
      InsertStringified(members[0], SortByKey(members[1..]));
    }
  }

  lemma {:induction false} InsertStringified(x: Entry<Json>, xs: seq<Entry<Json>>)
    ensures Insert(Entry(x.key, Stringify(x.value)), StringifyMembers(xs)) == StringifyMembers(Insert(x, xs))
  {
    if xs != [] {
      InsertStringified(x, xs[1..]);
    }
  }

  /** `canonicalJson(v)` is `JSON.stringify` of the value with its keys sorted at every depth. */
  lemma {:induction false} CanonIsStringifyNormal(v: Json)
    ensures Canon(v) == Stringify(Normal(v))
  {
    match v
    case Arr(items) => CanonItemsNormal(items);
    case Obj(members) =>
      CanonMembersNormal(members);
      SortStringified(NormalMembers(members));
    case _ =>
  }

  lemma {:induction false} CanonItemsNormal(items: seq<Json>)
    ensures CanonItems(items) == StringifyItems(NormalItems(items))
  {
    if items != [] {
      CanonIsStringifyNormal(items[0]);
      CanonItemsNormal(items[1..]);
    }
  }

  lemma {:induction false} CanonMembersNormal(members: seq<Entry<Json>>)
    ensures CanonMembers(members) == StringifyMembers(NormalMembers(members))
  {
    if members != [] {
      CanonIsStringifyNormal(members[0].value);
      CanonMembersNormal(members[1..]);
    }
  }

  // ----- Normal forms -----

  lemma {:induction false} NormalWF(v: Json)
    requires WF(v)
    ensures WF(Normal(v))
  {
    match v
    case Arr(items) => NormalItemsWF(items);
    case Obj(members) =>
      NormalMembersWF(members);
      var ns := NormalMembers(members);
      SortAscending(ns);
      forall i | 0 <= i < |SortByKey(ns)| ensures WF(SortByKey(ns)[i].value) {
        SameMember(SortByKey(ns), ns, SortByKey(ns)[i]);
        WFMember(ns, SortByKey(ns)[i]);
      }
      MembersWF(SortByKey(ns));
    case _ =>
  }

  lemma {:induction false} NormalItemsWF(items: seq<Json>)
    requires WFItems(items)
    ensures WFItems(NormalItems(items))
  {
    if items != [] { NormalWF(items[0]); NormalItemsWF(items[1..]); }
  }

  lemma {:induction false} NormalMembersWF(members: seq<Entry<Json>>)
    requires WFMembers(members)
    ensures WFMembers(NormalMembers(members))
  {
    if members != [] { NormalWF(members[0].value); NormalMembersWF(members[1..]); }
  }

  lemma {:induction false} WFMember(members: seq<Entry<Json>>, m: Entry<Json>)
    requires WFMembers(members) && m in members
    ensures WF(m.value)
  {
    if m != members[0] { WFMember(members[1..], m); }
  }

  lemma {:induction false} WFItem(items: seq<Json>, i: nat)
    requires WFItems(items) && i < |items|
    ensures WF(items[i])
  {
    if i > 0 { WFItem(items[1..], i - 1); }
  }

  lemma {:induction false} MembersWF(members: seq<Entry<Json>>)
    requires forall i :: 0 <= i < |members| ==> WF(members[i].value)
    ensures WFMembers(members)
  {
    if members != [] { MembersWF(members[1..]); }
  }

  /** With distinct keys, `Lookup` finds exactly the entry with that key. */
  lemma {:induction false} LookupEntry(members: seq<Entry<Json>>, m: Entry<Json>)
    requires DistinctKeys(members) && m in members
    ensures Lookup(members, m.key) == Some(m.value)
  {
    if members[0] != m {
      var i :| 0 <= i < |members| && members[i] == m;
      assert members[0].key != members[i].key;
      LookupEntry(members[1..], m);
    }
  }

  /** Reading a property commutes with normalising. */
  lemma GetNormal(v: Json, key: Text)
    requires WF(v)
    ensures Get(Normal(v), key) ==
            match Get(v, key) { case None => None case Some(x) => Some(Normal(x)) }
  {
    if v.Obj? {
      var ns := NormalMembers(v.members);
      SortAscending(ns);
      match Lookup(v.members, key)
      case Some(x) =>
        var i :| 0 <= i < |v.members| && v.members[i] == Entry(key, x);
        SameMember(SortByKey(ns), ns, ns[i]);
        LookupEntry(SortByKey(ns), ns[i]);
      case None =>
        forall i | 0 <= i < |SortByKey(ns)| ensures SortByKey(ns)[i].key != key {
          SameMember(SortByKey(ns), ns, SortByKey(ns)[i]);
        }
    }
  }

  // ----- Equality up to key order is equality of normal forms -----

  lemma {:induction false} EquivNormal(v: Json, w: Json)
    requires WF(v) && WF(w)
    ensures Equiv(v, w) <==> Normal(v) == Normal(w)
    decreases v, 1
  {
    match v
    case Arr(items) => if w.Arr? && |items| == |w.items| { EquivNormalItems(items, w.items); }
    case Obj(members) => if w.Obj? && |members| == |w.members| { EquivNormalMembers(members, w.members); }
    case _ =>
  }

  lemma {:induction false} EquivNormalItems(xs: seq<Json>, ys: seq<Json>)
    requires WFItems(xs) && WFItems(ys) && |xs| == |ys|
    ensures Equiv(Arr(xs), Arr(ys)) <==> NormalItems(xs) == NormalItems(ys)
    decreases Arr(xs), 0
  {
    hide Normal;
    forall i | 0 <= i < |xs| ensures Equiv(xs[i], ys[i]) <==> NormalItems(xs)[i] == NormalItems(ys)[i] {
      WFItem(xs, i);
      WFItem(ys, i);
      EquivNormal(xs[i], ys[i]);
    }
  }

  lemma {:induction false} EquivNormalMembers(ms: seq<Entry<Json>>, ns: seq<Entry<Json>>)
    requires DistinctKeys(ms) && DistinctKeys(ns) && WFMembers(ms) && WFMembers(ns) && |ms| == |ns|
    ensures Equiv(Obj(ms), Obj(ns)) <==> SortByKey(NormalMembers(ms)) == SortByKey(NormalMembers(ns))
    decreases Obj(ms), 0
  {
    forall i | 0 <= i < |ms| && Lookup(ns, ms[i].key).Some?
      ensures var x := Lookup(ns, ms[i].key).value; Equiv(ms[i].value, x) <==> Normal(ms[i].value) == Normal(x)
    {
      hide Normal, SortByKey, Equiv, Covers;
      var x := Lookup(ns, ms[i].key).value;
      WFMember(ms, ms[i]);
      WFMember(ns, Entry(ms[i].key, x));
      EquivNormal(ms[i].value, x);
    }
    EquivCovers(ms, ns);
    hide Normal, SortByKey, Equiv, Covers, WFMembers, DistinctKeys;
    if SortByKey(NormalMembers(ms)) == SortByKey(NormalMembers(ns)) { SortedSameEntries(ms, ns); }
    if Equiv(Obj(ms), Obj(ns)) { EntriesSortSame(ms, ns); }
  }

  lemma EquivCovers(ms: seq<Entry<Json>>, ns: seq<Entry<Json>>)
    requires |ms| == |ns|
    requires forall i :: 0 <= i < |ms| && Lookup(ns, ms[i].key).Some? ==>
               var x := Lookup(ns, ms[i].key).value; Equiv(ms[i].value, x) <==> Normal(ms[i].value) == Normal(x)
    ensures Equiv(Obj(ms), Obj(ns)) <==> Covers(ms, ns)
  {
    hide Normal;
  }

  /** Every property of one object is, up to `Normal`, a property of the other. */
  ghost predicate Covers(ms: seq<Entry<Json>>, ns: seq<Entry<Json>>) {
    forall i :: 0 <= i < |ms| ==>
      var o := Lookup(ns, ms[i].key); o.Some? && Normal(ms[i].value) == Normal(o.value)
  }

  lemma SortedSameEntries(ms: seq<Entry<Json>>, ns: seq<Entry<Json>>)
    requires DistinctKeys(ms) && DistinctKeys(ns)
    requires SortByKey(NormalMembers(ms)) == SortByKey(NormalMembers(ns))
    ensures Covers(ms, ns)
  {
    forall i | 0 <= i < |ms|
      ensures var o := Lookup(ns, ms[i].key); o.Some? && Normal(ms[i].value) == Normal(o.value)
    {
      var e := NormalMembers(ms)[i];
      SameMember(SortByKey(NormalMembers(ms)), NormalMembers(ms), e);
      SameMember(SortByKey(NormalMembers(ns)), NormalMembers(ns), e);
      var j :| 0 <= j < |ns| && NormalMembers(ns)[j] == e;
      LookupEntry(ns, ns[j]);
    }
  }

  /** Of two lists of the same length with distinct keys, one cannot have fewer entries. */
  lemma SameEntries(xs: seq<Entry<Json>>, ys: seq<Entry<Json>>)
    requires DistinctKeys(xs) && DistinctKeys(ys) && |xs| == |ys|
    requires forall e :: e in xs ==> e in ys
    ensures forall e :: e in xs <==> e in ys
  {
    forall k | k in Keys(xs) ensures k in Keys(ys) {
      var i :| 0 <= i < |xs| && xs[i].key == k;
      assert xs[i] in ys;
    }
    SameKeys(xs, ys);
    forall e: Entry<Json> | e in ys ensures e in xs {
      assert e.key in Keys(xs);
      var i :| 0 <= i < |xs| && xs[i].key == e.key;
      assert xs[i] in ys;
    }
  }

  lemma EntriesSortSame(ms: seq<Entry<Json>>, ns: seq<Entry<Json>>)
    requires DistinctKeys(ms) && DistinctKeys(ns) && |ms| == |ns|
    requires Covers(ms, ns)
    ensures SortByKey(NormalMembers(ms)) == SortByKey(NormalMembers(ns))
  {
    hide Normal, SortByKey;
    var xs, ys := NormalMembers(ms), NormalMembers(ns);
    forall e: Entry<Json> | e in xs ensures e in ys {
      var i :| 0 <= i < |ms| && xs[i] == e;
      var x := Lookup(ns, ms[i].key).value;
      var j :| 0 <= j < |ns| && ns[j] == Entry(ms[i].key, x);
      assert ys[j] == e;
    }
    SameEntries(xs, ys);
    SortUnique(xs, ys);
  }
}
