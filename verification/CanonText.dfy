/** What a canonical text looks like: the order of its keys, its escapes, no spaces. */
module CanonText {
  import opened Utf16
  import opened Wrappers
  import opened KeySort
  import opened Json
  import opened WorkflowIds

  // ----- Key order -----

  /** `es` are the members of an object as its canonical text has them. */
  ghost predicate PrintsAs(ms: seq<Entry<Json>>, es: seq<Entry<Text>>) {
    multiset(es) == multiset(CanonMembers(ms)) &&
    (forall i, j :: 0 <= i < j < |es| ==> LessByUnit(es[i].key, es[j].key)) &&
    Canon(Obj(ms)) == [OPEN_OBJ] + JoinMembers(es) + [CLOSE_OBJ]
  }

  lemma {:induction false} CanonMembersKeys(ms: seq<Entry<Json>>)
    ensures var es := CanonMembers(ms);
            |es| == |ms| && forall i :: 0 <= i < |ms| ==> es[i] == Entry(ms[i].key, Canon(ms[i].value))
  {
    hide Canon;
    if ms != [] { CanonMembersKeys(ms[1..]); }
  }

  /** `canonicalJson` prints the members of an object in the order of the first differing code
      unit of their keys, each key once with the canonical text of its value. */
  lemma CanonOrder(ms: seq<Entry<Json>>)
    requires DistinctKeys(ms)
    ensures exists es: seq<Entry<Text>> :: PrintsAs(ms, es)
  {
    hide LessByUnit;
    CanonMembersKeys(ms);
    SortedByUnits(CanonMembers(ms));
    assert PrintsAs(ms, SortByKey(CanonMembers(ms)));
  }

  // ----- Escapes -----

  predicate LowerHexUnit(u: Unit) { 48 <= u <= 57 || 97 <= u <= 102 }

  /** A unit is printed as itself, as one of the seven short escapes, or as four lower-case
      hexadecimal digits, which only other control characters and surrogates are. */
  lemma EscapeUnitExactly(u: Unit)
    ensures var t := EscapeUnit(u);
            (t == [u] <==> u >= 32 && u != QUOTE && u != BACKSLASH && !HighSurrogate(u) && !LowSurrogate(u)) &&
            (|t| == 2 <==> u == 8 || u == 9 || u == 10 || u == 12 || u == 13 || u == QUOTE || u == BACKSLASH) &&
            (t == [u] || |t| == 2 || |t| == 6) && (|t| == 1 ==> t == [u]) &&
            (|t| == 6 ==> t[0] == BACKSLASH && t[1] == 117 && forall i :: 2 <= i < 6 ==> LowerHexUnit(t[i]))
  {
  }

  lemma JoinedEncodable(a: Text, b: Text)
    requires Encodable(a) && Encodable(b)
    ensures Encodable(a + b)
  {
    var t := a + b;
    forall i | 0 <= i < |t| ensures PairedAt(t, i) {
      if i < |a| { assert PairedAt(a, i); } else { assert PairedAt(b, i - |a|); }
    }
  }

  lemma UnitEncodable(u: Unit)
    ensures Encodable(EscapeUnit(u))
  {
    var t := EscapeUnit(u);
    forall i | 0 <= i < |t| ensures !HighSurrogate(t[i]) && !LowSurrogate(t[i]) {}
  }

  /** No surrogate stands alone in a printed string, whatever the string. */
  lemma {:induction false} EscapedEncodable(s: Text)
    ensures Encodable(Escaped(s))
  {
    hide EscapeUnit, Encodable;
    if s == [] {
      NothingEncodable();
    } else if |s| > 1 && HighSurrogate(s[0]) && LowSurrogate(s[1]) {
      EscapedEncodable(s[2..]);
      PairEncodable(s[0], s[1]);
      assert s[..2] == [s[0], s[1]];
      JoinedEncodable(s[..2], Escaped(s[2..]));
    } else {
      EscapedEncodable(s[1..]);
      UnitEncodable(s[0]);
      JoinedEncodable(EscapeUnit(s[0]), Escaped(s[1..]));
    }
  }

  lemma NothingEncodable()
    ensures Encodable([])
  {
  }

  lemma PairEncodable(u: Unit, v: Unit)
    requires HighSurrogate(u) && LowSurrogate(v)
    ensures Encodable([u, v])
  {
  }

  /** Nothing to escape. */
  predicate Plain(s: Text) {
    Encodable(s) && forall i :: 0 <= i < |s| ==> s[i] >= 32 && s[i] != QUOTE && s[i] != BACKSLASH
  }

  lemma PlainTail(s: Text, n: nat)
    requires Plain(s) && n <= |s| && (n < |s| ==> !LowSurrogate(s[n]))
    ensures Plain(s[n..])
  {
    forall i | 0 <= i < |s| - n ensures PairedAt(s[n..], i) { assert PairedAt(s, n + i); }
  }

  /** A string with nothing to escape is printed as it is. */
  lemma {:induction false} PlainUnchanged(s: Text)
    requires Plain(s)
    ensures Escaped(s) == s
  {
    if s != [] {
      assert PairedAt(s, 0);
      if |s| > 1 && HighSurrogate(s[0]) && LowSurrogate(s[1]) {
        if |s| > 2 { assert PairedAt(s, 2); }
        PlainTail(s, 2);
        PlainUnchanged(s[2..]);
        assert s == s[..2] + s[2..];
      } else {
        if |s| > 1 { assert PairedAt(s, 1); }
        PlainTail(s, 1);
        PlainUnchanged(s[1..]);
        assert s == [s[0]] + s[1..];
      }
    }
  }

  // ----- An example -----

  lemma Letter(u: Unit)
    requires 97 <= u <= 122
    ensures Quoted([u]) == [QUOTE, u, QUOTE]
  {
    var nothing: Text := [];
    assert [u][1..] == nothing;
    assert Escaped([u]) == EscapeUnit(u) + Escaped(nothing);
  }

  lemma TwoMembers(a: Entry<Text>, b: Entry<Text>)
    requires |a.key| == 1 && |b.key| == 1 && a.key[0] < b.key[0]
    ensures SortByKey([b, a]) == [a, b]
    ensures JoinMembers([a, b]) == Quoted(a.key) + [COLON] + a.value + [COMMA] + (Quoted(b.key) + [COLON] + b.value)
  {
    hide Quoted;
    assert Below(a.key, b.key) && !Below(b.key, a.key);
    assert [b, a][1..] == [a] && [a][1..] == [] && [a, b][1..] == [b];
    assert SortByKey([a]) == [a];
  }

  lemma TwoCanon(a: Entry<Json>, b: Entry<Json>)
    ensures CanonMembers([b, a]) == [Entry(b.key, Canon(b.value)), Entry(a.key, Canon(a.value))]
  {
    hide Canon;
    assert [b, a][1..] == [a] && [a][1..] == [];
    assert CanonMembers([a]) == [Entry(a.key, Canon(a.value))];
  }

  lemma SmallTexts()
    ensures Lit("a") == [97] && Lit("b") == [98]
    ensures Canon(Num(1)) == [49] && Canon(Num(2)) == [50]
  {
  }

  lemma SmallText()
    ensures Lit("{\"a\":1,\"b\":2}") == [123, 34, 97, 34, 58, 49, 44, 34, 98, 34, 58, 50, 125]
  {
  }

  /** The canonical text of `{"b":2,"a":1}`. */
  lemma SmallExample()
    ensures Canon(Obj([Entry(Lit("b"), Num(2)), Entry(Lit("a"), Num(1))])) == Lit("{\"a\":1,\"b\":2}")
  {
    hide Lit, Quoted, CanonMembers, SortByKey, JoinMembers, Digits;
    SmallTexts();
    SmallText();
    TwoCanon(Entry(Lit("a"), Num(1)), Entry(Lit("b"), Num(2)));
    TwoMembers(Entry([97], [49]), Entry([98], [50]));
    Letter(97);
    Letter(98);
    var m := [QUOTE, 97, QUOTE] + [COLON] + [49] + [COMMA] + ([QUOTE, 98, QUOTE] + [COLON] + [50]);
    assert [OPEN_OBJ] + m + [CLOSE_OBJ] == [123, 34, 97, 34, 58, 49, 44, 34, 98, 34, 58, 50, 125];
  }
}
