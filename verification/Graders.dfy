/** The deterministic graders: exact, subset, ordered values, error code. */
module Graders {
  import opened Utf16
  import opened Wrappers
  import opened KeySort
  import opened Json
  import opened JsonParser
  import opened TaskState

  // ----- atPath -----

  const DOT: Unit := 46

  function SegmentEnd(t: Text): (n: nat)
    ensures n <= |t|
    ensures n < |t| ==> t[n] == DOT
    ensures forall i :: 0 <= i < n ==> t[i] != DOT
  {
    if t == [] || t[0] == DOT then 0 else 1 + SegmentEnd(t[1..])
  }

  /** `path.split(".").filter(Boolean)`. */
  function Segments(path: Text): seq<Text>
    decreases |path|
  {
    var n := SegmentEnd(path);
    var first := if n == 0 then [] else [path[..n]];
    if n == |path| then first else first + Segments(path[n + 1..])
  }

  /** The index below `n` whose decimal text is `segment`. */
  function IndexNamed(n: nat, segment: Text): (r: Option<nat>)
    ensures r.Some? ==> r.value < n && Decimal(r.value) == segment
  {
    if n == 0 then None else if Decimal(n - 1) == segment then Some(n - 1) else IndexNamed(n - 1, segment)
  }

  /** `value[segment]`, own properties only. */
  function Property(v: Json, segment: Text): Option<Json> {
    match v
    case Obj(members) => Lookup(members, segment)
    case Arr(items) =>
      if segment == Lit("length") then Some(Num(|items|))
      else (match IndexNamed(|items|, segment) case Some(i) => Some(items[i]) case None => None)
    case Str(s) =>
      if segment == Lit("length") then Some(Num(|s|))
      else (match IndexNamed(|s|, segment) case Some(i) => Some(Str([s[i]])) case None => None)
    case _ => None
  }

  function Follow(v: Option<Json>, segments: seq<Text>): Option<Json>
    decreases segments
  {
    if segments == [] then v
    else Follow(match v case Some(x) => Property(x, segments[0]) case None => None, segments[1..])
  }

  function AtPath(v: Option<Json>, path: Text): Option<Json> { Follow(v, Segments(path)) }

  function OneSegment(a: Text): seq<Text> { if a == [] then [] else [a] }

  lemma FirstDot(a: Text, b: Text)
    requires forall i :: 0 <= i < |a| ==> a[i] != DOT
    requires b == [] || b[0] == DOT
    ensures SegmentEnd(a + b) == |a|
  {
    hide SegmentEnd;
    var t := a + b;
    assert forall i :: 0 <= i < |a| ==> t[i] == a[i];
    if b != [] { assert t[|a|] == DOT; }
  }

  /** A path whose first dot, if any, is where `b` starts. */
  lemma SegmentsSplit(a: Text, b: Text)
    requires forall i :: 0 <= i < |a| ==> a[i] != DOT
    requires b == [] || b[0] == DOT
    ensures Segments(a + b) == OneSegment(a) + if b == [] then [] else Segments(b[1..])
  {
    hide SegmentEnd;
    FirstDot(a, b);
    assert (a + b)[..|a|] == a;
    if b != [] { assert (a + b)[|a| + 1..] == b[1..]; }
  }

  lemma Grouped(a: seq<Text>, b: seq<Text>, c: seq<Text>)
    ensures a + (b + c) == (a + b) + c
  {
  }

  lemma {:induction false} SegmentsJoined(p: Text, q: Text)
    ensures Segments(p + [DOT] + q) == Segments(p) + Segments(q)
    decreases |p|
  {
    hide SegmentEnd, Segments;
    var n := SegmentEnd(p);
    var a, b := p[..n], p[n..];
    assert p == a + b;
    SegmentsSplit(a, b);
    SegmentsSplit(a, b + [DOT] + q);
    assert p + [DOT] + q == a + (b + [DOT] + q);
    if b == [] {
      assert (b + [DOT] + q)[1..] == q;
    } else {
      assert (b + [DOT] + q)[1..] == b[1..] + [DOT] + q;
      SegmentsJoined(b[1..], q);
      Grouped(OneSegment(a), Segments(b[1..]), Segments(q));
    }
  }

  lemma {:induction false} FollowAppend(v: Option<Json>, xs: seq<Text>, ys: seq<Text>)
    ensures Follow(v, xs + ys) == Follow(Follow(v, xs), ys)
    decreases xs
  {
    hide Property;
    if xs == [] {
      assert xs + ys == ys;
    } else {
      assert (xs + ys)[1..] == xs[1..] + ys;
      FollowAppend(match v case Some(x) => Property(x, xs[0]) case None => None, xs[1..], ys);
    }
  }

  /** A dotted path is followed part by part. */
  lemma AtPathComposes(v: Option<Json>, p: Text, q: Text)
    ensures AtPath(v, p + [DOT] + q) == AtPath(AtPath(v, p), q)
  {
    SegmentsJoined(p, q);
    FollowAppend(v, Segments(p), Segments(q));
  }

  lemma {:induction false} FollowWF(v: Option<Json>, segments: seq<Text>)
    requires v.Some? ==> WF(v.value)
    ensures var r := Follow(v, segments); r.Some? ==> WF(r.value)
    decreases segments
  {
    if segments != [] {
      var next := match v case Some(x) => Property(x, segments[0]) case None => None;
      if next.Some? { PropertyWF(v.value, segments[0]); }
      FollowWF(next, segments[1..]);
    }
  }

  lemma AtPathWF(v: Option<Json>, path: Text)
    requires v.Some? ==> WF(v.value)
    ensures AtPath(v, path).Some? ==> WF(AtPath(v, path).value)
  {
    FollowWF(v, Segments(path));
  }

  lemma PropertyWF(v: Json, segment: Text)
    requires WF(v) && Property(v, segment).Some?
    ensures WF(Property(v, segment).value)
  {
    match v
    case Obj(members) => WFMember(members, Entry(segment, Lookup(members, segment).value));
    case Arr(items) =>
      if IndexNamed(|items|, segment).Some? { WFItem(items, IndexNamed(|items|, segment).value); }
    case _ =>
  }

  lemma FollowOne(v: Option<Json>, name: Text)
    ensures Follow(v, [name]) == match v case Some(x) => Property(x, name) case None => None
  {
    hide Property;
    assert [name][0] == name && [name][1..] == [];
  }

  /** A path without dots is one property, or the value itself when it is empty. With
      `AtPathComposes` this says what every path reads. */
  lemma AtPathOne(v: Option<Json>, name: Text)
    requires forall i :: 0 <= i < |name| ==> name[i] != DOT
    ensures AtPath(v, name) ==
            if name == [] then v else match v case Some(x) => Property(x, name) case None => None
  {
    hide Property;
    SegmentsSplit(name, []);
    assert name + [] == name;
    if name != [] { FollowOne(v, name); }
  }

  lemma {:induction false} IndexFound(n: nat, i: nat)
    requires i < n
    ensures IndexNamed(n, Decimal(i)) == Some(i)
  {
    hide Decimal;
    DecimalInjective(n - 1, i);
    if i < n - 1 { IndexFound(n - 1, i); }
  }

  lemma DecimalInjective(i: nat, j: nat)
    ensures Decimal(i) == Decimal(j) <==> i == j
  {
    ParseInvertsStringify(Num(i));
    ParseInvertsStringify(Num(j));
    hide Parse, Decimal;
  }

  lemma LengthIsNoIndex(i: nat)
    ensures Decimal(i) != Lit("length")
  {
    assert Digit(Decimal(i)[0]);
    assert Lit("length")[0] == 108;
  }

  /** The properties of an array: its length, and its elements by the decimal text of their index. */
  lemma PropertyOfArray(items: seq<Json>, segment: Text)
    ensures Property(Arr(items), Lit("length")) == Some(Num(|items|))
    ensures forall i: nat :: i < |items| ==> Property(Arr(items), Decimal(i)) == Some(items[i])
    ensures Property(Arr(items), segment).Some? ==>
              segment == Lit("length") || exists i: nat :: i < |items| && segment == Decimal(i)
  {
    hide Decimal, Lit;
    forall i: nat | i < |items| ensures Property(Arr(items), Decimal(i)) == Some(items[i]) {
      LengthIsNoIndex(i);
      IndexFound(|items|, i);
    }
  }

  /** The properties of a string are its length and its code units. */
  lemma PropertyOfString(s: Text, segment: Text)
    ensures Property(Str(s), Lit("length")) == Some(Num(|s|))
    ensures forall i: nat :: i < |s| ==> Property(Str(s), Decimal(i)) == Some(Str([s[i]]))
    ensures Property(Str(s), segment).Some? ==>
              segment == Lit("length") || exists i: nat :: i < |s| && segment == Decimal(i)
  {
    hide Decimal, Lit;
    forall i: nat | i < |s| ensures Property(Str(s), Decimal(i)) == Some(Str([s[i]])) {
      LengthIsNoIndex(i);
      IndexFound(|s|, i);
    }
  }

  // ----- subset -----

  function At(items: seq<Json>, i: nat): Option<Json> { if i < |items| then Some(items[i]) else None }

  /** `subset(expected, actual)`; a missing property of `actual` is `undefined`. */
  predicate Subset(expected: Json, actual: Option<Json>) {
    match expected
    case Arr(items) =>
      actual.Some? && actual.value.Arr? &&
      forall i :: 0 <= i < |items| ==> Subset(items[i], At(actual.value.items, i))
    case Obj(members) =>
      actual.Some? && actual.value.Obj? &&
      forall i :: 0 <= i < |members| ==> Subset(members[i].value, Lookup(actual.value.members, members[i].key))
    case _ => actual == Some(expected)
  }

  lemma SubsetOfNothing(e: Json)
    ensures !Subset(e, None)
  {
  }

  lemma {:induction false} SubsetTransitive(a: Json, b: Json, c: Option<Json>)
    requires WF(b)
    requires Subset(a, Some(b)) && Subset(b, c)
    ensures Subset(a, c)
    decreases a
  {
    match a
    case Arr(items) =>
      forall i | 0 <= i < |items| ensures Subset(items[i], At(c.value.items, i)) {
        SubsetOfNothing(items[i]);
        WFItem(b.items, i);
        SubsetTransitive(items[i], b.items[i], At(c.value.items, i));
      }
    case Obj(members) =>
      forall i | 0 <= i < |members| ensures Subset(members[i].value, Lookup(c.value.members, members[i].key)) {
        var key := members[i].key;
        SubsetOfNothing(members[i].value);
        var x := Lookup(b.members, key).value;
        var j :| 0 <= j < |b.members| && b.members[j] == Entry(key, x);
        WFMember(b.members, b.members[j]);
        SubsetTransitive(members[i].value, x, Lookup(c.value.members, key));
      }
    case _ =>
  }

  /** Values equal up to key order are subsets of each other. */
  lemma {:induction false} EquivIsSubset(a: Json, b: Json)
    requires WF(a) && WF(b) && Equiv(a, b)
    ensures Subset(a, Some(b))
    decreases a
  {
    match a
    case Arr(items) =>
      forall i | 0 <= i < |items| ensures Subset(items[i], At(b.items, i)) {
        WFItem(items, i);
        WFItem(b.items, i);
        EquivIsSubset(items[i], b.items[i]);
      }
    case Obj(members) =>
      forall i | 0 <= i < |members| ensures Subset(members[i].value, Lookup(b.members, members[i].key)) {
        var x := Lookup(b.members, members[i].key).value;
        WFMember(members, members[i]);
        WFMember(b.members, Entry(members[i].key, x));
        EquivIsSubset(members[i].value, x);
      }
    case _ =>
  }

  lemma SubsetKeys(ms: seq<Entry<Json>>, ns: seq<Entry<Json>>)
    requires Subset(Obj(ms), Some(Obj(ns)))
    ensures Keys(ms) <= Keys(ns)
  {
    forall k | k in Keys(ms) ensures k in Keys(ns) {
      var i :| 0 <= i < |ms| && ms[i].key == k;
      SubsetOfNothing(ms[i].value);
      var x := Lookup(ns, k).value;
      assert Entry(k, x) in ns;
    }
  }

  lemma SameSize(ms: seq<Entry<Json>>, ns: seq<Entry<Json>>)
    requires DistinctKeys(ms) && DistinctKeys(ns)
    requires Subset(Obj(ms), Some(Obj(ns))) && Subset(Obj(ns), Some(Obj(ms)))
    ensures |ms| == |ns|
  {
    hide Subset;
    SubsetKeys(ms, ns);
    SubsetKeys(ns, ms);
    assert Keys(ms) == Keys(ns);
    KeyCount(ms);
    KeyCount(ns);
  }

  lemma {:induction false} SubsetAntisymmetric(a: Json, b: Json)
    requires WF(a) && WF(b)
    requires Subset(a, Some(b)) && Subset(b, Some(a))
    ensures Equiv(a, b)
    decreases a
  {
    match a
    case Arr(items) =>
      assert |items| == |b.items| by { SameLength(items, b.items); }
      forall i | 0 <= i < |items| ensures Equiv(items[i], b.items[i]) {
        WFItem(items, i);
        WFItem(b.items, i);
        assert At(b.items, i) == Some(b.items[i]) && At(items, i) == Some(items[i]);
        SubsetAntisymmetric(items[i], b.items[i]);
      }
    case Obj(members) =>
      SameSize(members, b.members);
      forall i | 0 <= i < |members|
        ensures var o := Lookup(b.members, members[i].key); o.Some? && Equiv(members[i].value, o.value)
      {
        var m := members[i];
        SubsetOfNothing(m.value);
        var x := Lookup(b.members, m.key).value;
        var j :| 0 <= j < |b.members| && b.members[j] == Entry(m.key, x);
        LookupEntry(members, m);
        WFMember(members, m);
        WFMember(b.members, b.members[j]);
        assert Subset(b.members[j].value, Lookup(members, b.members[j].key));
        SubsetAntisymmetric(m.value, x);
      }
    case _ =>
  }

  lemma SameLength(xs: seq<Json>, ys: seq<Json>)
    requires Subset(Arr(xs), Some(Arr(ys))) && Subset(Arr(ys), Some(Arr(xs)))
    ensures |xs| == |ys|
  {
    if |xs| > |ys| {
      assert Subset(xs[|ys|], At(ys, |ys|));
      SubsetOfNothing(xs[|ys|]);
    } else if |ys| > |xs| {
      assert Subset(ys[|xs|], At(xs, |xs|));
      SubsetOfNothing(ys[|xs|]);
    }
  }

  /** `subset` is a partial order on JSON values: it is transitive, and two values are subsets
      of each other exactly when they are equal up to the order of object keys. */
  lemma SubsetIsPartialOrder(a: Json, b: Json, c: Json)
    requires WF(a) && WF(b) && WF(c)
    ensures Subset(a, Some(a))
    ensures Subset(a, Some(b)) && Subset(b, Some(c)) ==> Subset(a, Some(c))
    ensures Subset(a, Some(b)) && Subset(b, Some(a)) <==> Equiv(a, b)
    ensures Subset(a, Some(b)) && Subset(b, Some(a)) <==> Canon(a) == Canon(b)
  {
    hide Subset, Canon, Normal, Equiv;
    CanonInjective(a, b);
    CanonInjective(b, a);
    CanonInjective(a, a);
    EquivIsSubset(a, a);
    if Subset(a, Some(b)) && Subset(b, Some(c)) { SubsetTransitive(a, b, Some(c)); }
    if Subset(a, Some(b)) && Subset(b, Some(a)) { SubsetAntisymmetric(a, b); }
    if Equiv(a, b) {
      EquivIsSubset(a, b);
      EquivIsSubset(b, a);
    }
  }

  // ----- subset, place by place -----

  datatype Hop = Item(i: nat) | Member(key: Text)

  /** One step into a value: an element of an array, or a property of an object. */
  function Hopped(v: Option<Json>, hop: Hop): Option<Json> {
    match (v, hop)
    case (Some(Arr(items)), Item(i)) => At(items, i)
    case (Some(Obj(members)), Member(key)) => Lookup(members, key)
    case _ => None
  }

  function Reach(v: Option<Json>, path: seq<Hop>): Option<Json>
    decreases path
  {
    if path == [] then v else Reach(Hopped(v, path[0]), path[1..])
  }

  /** What is expected in one place is there: an array for an array, an object for an object, and
      any other value itself. */
  predicate Agrees(expected: Option<Json>, actual: Option<Json>) {
    expected.Some? ==>
      actual.Some? &&
      match expected.value
      case Arr(_) => actual.value.Arr?
      case Obj(_) => actual.value.Obj?
      case x => actual.value == x
  }

  /** The two agree in every place. */
  ghost predicate AgreeEverywhere(e: Json, a: Option<Json>) {
    forall path: seq<Hop> :: Agrees(Reach(Some(e), path), Reach(a, path))
  }

  lemma {:induction false} NothingReached(path: seq<Hop>)
    ensures Reach(None, path) == None
    decreases path
  {
    if path != [] { NothingReached(path[1..]); }
  }

  lemma {:induction false} SubsetAgrees(e: Json, a: Option<Json>, path: seq<Hop>)
    requires WF(e) && Subset(e, a)
    ensures Agrees(Reach(Some(e), path), Reach(a, path))
    decreases path
  {
    if path != [] {
      var e' := Hopped(Some(e), path[0]);
      if e'.None? {
        NothingReached(path[1..]);
      } else {
        if e.Arr? {
          WFItem(e.items, path[0].i);
        } else {
          var m := Entry(path[0].key, e'.value);
          var i :| 0 <= i < |e.members| && e.members[i] == m;
          WFMember(e.members, m);
        }
        SubsetAgrees(e'.value, Hopped(a, path[0]), path[1..]);
      }
    }
  }

  lemma HopOn(v: Option<Json>, hop: Hop, path: seq<Hop>)
    ensures Reach(v, [hop] + path) == Reach(Hopped(v, hop), path)
  {
    assert ([hop] + path)[1..] == path;
  }

  lemma {:induction false} AgreeingIsSubset(e: Json, a: Option<Json>)
    requires WF(e) && AgreeEverywhere(e, a)
    ensures Subset(e, a)
    decreases e
  {
    assert Agrees(Reach(Some(e), []), Reach(a, []));
    match e
    case Arr(items) =>
      forall i | 0 <= i < |items| ensures Subset(items[i], At(a.value.items, i)) {
        WFItem(items, i);
        forall path: seq<Hop> ensures Agrees(Reach(Some(items[i]), path), Reach(At(a.value.items, i), path)) {
          HopOn(Some(e), Item(i), path);
          HopOn(a, Item(i), path);
        }
        assert AgreeEverywhere(items[i], At(a.value.items, i));
        AgreeingIsSubset(items[i], At(a.value.items, i));
      }
    case Obj(members) =>
      forall i | 0 <= i < |members| ensures Subset(members[i].value, Lookup(a.value.members, members[i].key)) {
        var m := members[i];
        WFMember(members, m);
        LookupEntry(members, m);
        forall path: seq<Hop> ensures Agrees(Reach(Some(m.value), path), Reach(Lookup(a.value.members, m.key), path)) {
          HopOn(Some(e), Member(m.key), path);
          HopOn(a, Member(m.key), path);
        }
        assert AgreeEverywhere(m.value, Lookup(a.value.members, m.key));
        AgreeingIsSubset(m.value, Lookup(a.value.members, m.key));
      }
    case _ =>
  }

  /** `subset` passes exactly when every place that the expected value has is in the actual value
      and agrees with it. What the actual value has beyond them, longer arrays and other
      properties, does not count. */
  lemma SubsetExactly(e: Json, a: Option<Json>)
    requires WF(e)
    ensures Subset(e, a) <==> AgreeEverywhere(e, a)
  {
    hide Subset, Agrees, Reach, WF;
    if Subset(e, a) {
      forall path: seq<Hop> ensures Agrees(Reach(Some(e), path), Reach(a, path)) { SubsetAgrees(e, a, path); }
    }
    if AgreeEverywhere(e, a) { AgreeingIsSubset(e, a); }
  }

  /** More elements at the end and more properties at the end never make a subset fail. */
  lemma MoreIsSubset(items: seq<Json>, more: seq<Json>, members: seq<Entry<Json>>, others: seq<Entry<Json>>)
    requires WFItems(items) && WF(Obj(members))
    ensures Subset(Arr(items), Some(Arr(items + more)))
    ensures Subset(Obj(members), Some(Obj(members + others)))
  {
    forall i | 0 <= i < |items| ensures Subset(items[i], At(items + more, i)) {
      WFItem(items, i);
      SubsetIsPartialOrder(items[i], items[i], items[i]);
    }
    forall i | 0 <= i < |members| ensures Subset(members[i].value, Lookup(members + others, members[i].key)) {
      WFMember(members, members[i]);
      SubsetIsPartialOrder(members[i].value, members[i].value, members[i].value);
      LookupEntry(members, members[i]);
      LookupFront(members, others, members[i].key);
    }
  }

  lemma {:induction false} LookupFront(ms: seq<Entry<Json>>, ns: seq<Entry<Json>>, key: Text)
    requires Lookup(ms, key).Some?
    ensures Lookup(ms + ns, key) == Lookup(ms, key)
  {
    if ms[0].key != key {
      assert (ms + ns)[1..] == ms[1..] + ns;
      LookupFront(ms[1..], ns, key);
    }
  }

  // ----- orderedValues -----

  /** The places `at` of `items` hold the expected values in order. */
  predicate Embeds(values: seq<Json>, items: seq<Json>, at: seq<nat>) {
    |at| == |values| &&
    (forall k :: 0 <= k < |at| ==> at[k] < |items| && Equiv(values[k], items[at[k]])) &&
    (forall j, k :: 0 <= j < k < |at| ==> at[j] < at[k])
  }

  /** The expected values are a subsequence, up to the order of object keys. */
  ghost predicate SubsequenceOf(values: seq<Json>, items: seq<Json>) {
    exists at: seq<nat> :: Embeds(values, items, at)
  }

  lemma TakeNext(values: seq<Json>, items: seq<Json>, c: nat, i: nat)
    requires c < |values| && i < |items|
    requires SubsequenceOf(values[..c], items[..i]) && Equiv(values[c], items[i])
    ensures SubsequenceOf(values[..c + 1], items[..i + 1])
  {
    hide Equiv;
    var at: seq<nat> :| Embeds(values[..c], items[..i], at);
    assert Embeds(values[..c + 1], items[..i + 1], at + [i]);
  }

  lemma SkipItem(values: seq<Json>, items: seq<Json>, c: nat, i: nat)
    requires c <= |values| && i < |items|
    requires SubsequenceOf(values[..c], items[..i])
    ensures SubsequenceOf(values[..c], items[..i + 1])
  {
    hide Equiv;
    var at: seq<nat> :| Embeds(values[..c], items[..i], at);
    assert Embeds(values[..c], items[..i + 1], at);
  }

  /** The last of the matched values is matched by the last item, or not at all there. */
  lemma LastMatch(values: seq<Json>, items: seq<Json>, c: nat, i: nat)
    requires c < |values| && i < |items|
    requires SubsequenceOf(values[..c + 1], items[..i + 1])
    ensures SubsequenceOf(values[..c], items[..i])
    ensures !Equiv(values[c], items[i]) ==> SubsequenceOf(values[..c + 1], items[..i])
  {
    hide Equiv;
    var at: seq<nat> :| Embeds(values[..c + 1], items[..i + 1], at);
    assert forall k :: 0 <= k < c ==> at[k] < at[c];
    assert Embeds(values[..c], items[..i], at[..c]);
    if !Equiv(values[c], items[i]) {
      assert values[..c + 1][c] == values[c];
      assert at[c] != i;
      assert Embeds(values[..c + 1], items[..i], at);
    }
  }

  /** `orderedValues`: the greedy scan passes exactly when the expected values form a
      subsequence of the actual list under canonical equality. */
  method OrderedValues(values: seq<Json>, actual: Option<Json>) returns (passed: bool)
    requires AllWF(values) && (actual.Some? ==> WF(actual.value))
    ensures passed <==> actual.Some? && actual.value.Arr? && SubsequenceOf(values, actual.value.items)
  {
    hide SubsequenceOf, Equiv, Canon, Normal;
    if actual.None? || !actual.value.Arr? { return false; }
    var items := actual.value.items;
    var cursor, i := 0, 0;
    assert SubsequenceOf(values[..0], items[..0]) && (values != [] ==> !SubsequenceOf(values[..1], items[..0])) by {
      NothingScanned(values, items);
    }
    while i < |items|
      invariant 0 <= i <= |items| && 0 <= cursor <= |values|
      invariant SubsequenceOf(values[..cursor], items[..i])
      invariant cursor < |values| ==> !SubsequenceOf(values[..cursor + 1], items[..i])
    {
      WFItem(items, i);
      if cursor < |values| { CanonInjective(items[i], values[cursor]); EquivSymmetric(items[i], values[cursor]); }
      if cursor < |values| && Canon(items[i]) == Canon(values[cursor]) {
        TakeNext(values, items, cursor, i);
        if cursor + 1 < |values| && SubsequenceOf(values[..cursor + 2], items[..i + 1]) {
          LastMatch(values, items, cursor + 1, i);
        }
        cursor := cursor + 1;
      } else {
        SkipItem(values, items, cursor, i);
        if cursor < |values| && SubsequenceOf(values[..cursor + 1], items[..i + 1]) {
          LastMatch(values, items, cursor, i);
        }
      }
      i := i + 1;
    }
    passed := cursor == |values|;
    assert items[..i] == items && values[..|values|] == values;
    if cursor < |values| && SubsequenceOf(values, items) { PrefixSubsequence(values, items, cursor + 1); }
  }

  lemma NothingScanned(values: seq<Json>, items: seq<Json>)
    ensures SubsequenceOf(values[..0], items[..0])
    ensures values != [] ==> !SubsequenceOf(values[..1], items[..0])
  {
    hide Equiv;
    var nowhere: seq<nat> := [];
    assert Embeds(values[..0], items[..0], nowhere);
    if values != [] {
      forall at: seq<nat> ensures !Embeds(values[..1], items[..0], at) {
        if |at| == 1 { assert at[0] >= |items[..0]|; }
      }
    }
  }

  lemma PrefixSubsequence(values: seq<Json>, items: seq<Json>, c: nat)
    requires c <= |values| && SubsequenceOf(values, items)
    ensures SubsequenceOf(values[..c], items)
  {
    hide Equiv;
    var at: seq<nat> :| Embeds(values, items, at);
    assert Embeds(values[..c], items, at[..c]);
  }

  lemma EquivSymmetric(v: Json, w: Json)
    requires WF(v) && WF(w)
    ensures Equiv(v, w) == Equiv(w, v)
  {
    hide Equiv, Normal;
    EquivNormal(v, w);
    EquivNormal(w, v);
  }

  // ----- gradeEvaluation -----

  /** What grading reads of a thrown error. */
  datatype Failure = Failure(code: Option<Json>, name: Option<Json>, message: Option<Json>)

  datatype Observed = Value(v: Option<Json>) | Thrown(name: Option<Json>, code: Json, message: Option<Json>)

  datatype Grade = Grade(passed: bool, observed: Observed)

  /** `a ?? b ?? null`. */
  function FirstOf(a: Option<Json>, b: Option<Json>): Json {
    if a.Some? && !a.value.Null? then a.value else if b.Some? then b.value else Null
  }

  /** `canonicalJson`, which gives `undefined` for `undefined`. */
  function CanonOption(v: Option<Json>): Option<Text> { match v case Some(x) => Some(Canon(x)) case None => None }

  /** `expected.path`, as `String` writes it when it is not a string. */
  function PathOf(expected: Json): Text {
    match Get(expected, Lit("path"))
    case Some(p) => if Falsy(p) then [] else AsString(p)
    case None => []
  }

  /** `String(expected.path)` throws. */
  predicate BadPath(expected: Json) {
    var p := Get(expected, Lit("path")); p.Some? && NoText(p.value)
  }

  /** What the scan makes of `expected.values`: nothing to read a length from; something whose
      length no cursor ever equals, so that it never passes, and whether comparing with that
      length throws; or a list of values. */
  datatype Wanted = NoValues | NoLength(throws: bool) | List(values: seq<Json>)

  /** The characters of a string, by index. */
  function Units(s: Text): (r: seq<Json>)
    ensures AllWF(r)
  {
    seq(|s|, i requires 0 <= i < |s| => Str([s[i]]))
  }

  /** The properties `0` to `n - 1`, if there are all of them. */
  function Indexed(v: Json, n: nat): Option<seq<Json>> {
    if n == 0 then Some([])
    else
      match (Indexed(v, n - 1), Get(v, Decimal(n - 1)))
      case (Some(vs), Some(x)) => Some(vs + [x])
      case _ => None
  }

  function WantedOf(v: Json): Wanted {
    match v
    case Null => NoValues
    case Arr(vs) => List(vs)
    case Str(s) => List(Units(s))
    case Obj(_) =>
      (match Get(v, Lit("length"))
       case None => NoLength(false)
       case Some(d) =>
         if !d.Num? || d.n < 0 then NoLength(NoText(d))
         else match Indexed(v, d.n) case Some(vs) => List(vs) case None => NoLength(false))
    case _ => NoLength(false)
  }

  function ValuesOf(expected: Json): Wanted {
    match Get(expected, Lit("values")) case Some(v) => WantedOf(v) case None => NoValues
  }

  /** The scan throws. */
  predicate ScanThrows(expected: Json, observed: Option<Json>) {
    var wanted := ValuesOf(expected);
    observed.Some? && observed.value.Arr? &&
    (wanted.NoValues? || (wanted.NoLength? && wanted.throws && observed.value.items != []))
  }

  predicate KindIs(expected: Json, kind: string) { Get(expected, Lit("kind")) == Some(Str(Lit(kind))) }

  predicate Graded(expected: Json) {
    KindIs(expected, "exact") || KindIs(expected, "subset") || KindIs(expected, "ordered_values")
  }

  /** When an evaluation passes, stated without the scan and without printing. */
  ghost predicate Passes(expected: Json, actual: Option<Json>, error: Option<Failure>) {
    var observed := AtPath(actual, PathOf(expected));
    var value := Get(expected, Lit("value"));
    if KindIs(expected, "error_code") then
      var o := match error case Some(f) => FirstOf(f.code, f.name) case None => Null;
      StrictlyEqual(Some(o), Get(expected, Lit("code")))
    else
      error.None? &&
      ((KindIs(expected, "exact") && ((observed.None? && value.None?) ||
                                      (observed.Some? && value.Some? && Equiv(observed.value, value.value)))) ||
       (KindIs(expected, "subset") && match value case Some(x) => Subset(x, observed) case None => observed.None?) ||
       (KindIs(expected, "ordered_values") && ValuesOf(expected).List? && observed.Some? && observed.value.Arr? &&
        SubsequenceOf(ValuesOf(expected).values, observed.value.items)))
  }

  lemma ExactIsEquiv(observed: Option<Json>, value: Option<Json>)
    requires observed.Some? ==> WF(observed.value)
    requires value.Some? ==> WF(value.value)
    ensures CanonOption(observed) == CanonOption(value) <==>
            (observed.None? && value.None?) || (observed.Some? && value.Some? && Equiv(observed.value, value.value))
  {
    hide Canon, Equiv, Normal;
    if observed.Some? && value.Some? { CanonInjective(observed.value, value.value); }
  }

  lemma ExpectedWF(expected: Json, key: Text)
    requires WF(expected)
    ensures Get(expected, key).Some? ==> WF(Get(expected, key).value)
  {
    if Get(expected, key).Some? { WFMember(expected.members, Entry(key, Get(expected, key).value)); }
  }

  lemma ItemsAllWF(items: seq<Json>)
    requires WFItems(items)
    ensures AllWF(items)
  {
    forall i | 0 <= i < |items| ensures WF(items[i]) { WFItem(items, i); }
  }

  lemma KindsDiffer(e: Json)
    ensures KindIs(e, "exact") ==> !KindIs(e, "subset") && !KindIs(e, "ordered_values") && !KindIs(e, "error_code")
    ensures KindIs(e, "subset") ==> !KindIs(e, "ordered_values") && !KindIs(e, "error_code")
    ensures KindIs(e, "ordered_values") ==> !KindIs(e, "error_code")
  {
    hide Get;
    assert |Lit("exact")| == 5 && |Lit("subset")| == 6 && |Lit("ordered_values")| == 14 && |Lit("error_code")| == 10;
  }

  /** `gradeEvaluation`; `None` is a `TypeError`: for an unknown grader, a path that is no text, or
      a scan without values. */
  method GradeEvaluation(expected: Json, actual: Option<Json>, error: Option<Failure>) returns (r: Option<Grade>)
    requires WF(expected) && (actual.Some? ==> WF(actual.value))
    ensures r.Some? ==> (r.value.passed <==> Passes(expected, actual, error))
    ensures r.None? <==>
            error.None? && !KindIs(expected, "error_code") &&
            (!Graded(expected) || BadPath(expected) ||
             (KindIs(expected, "ordered_values") && ScanThrows(expected, AtPath(actual, PathOf(expected)))))
    ensures r.Some? && error.None? && Graded(expected) ==> r.value.observed == Value(AtPath(actual, PathOf(expected)))
    ensures error.Some? && !KindIs(expected, "error_code") ==>
              r.Some? && !r.value.passed &&
              r.value.observed == Thrown(error.value.name, match error.value.code case Some(c) => c case None => Null, error.value.message)
  {
    hide Subset, SubsequenceOf, Equiv, Get, Lit, WF, AtPath, PathOf, ValuesOf, Canon, KindIs, BadPath;
    KindsDiffer(expected);
    var passed := false;
    var observed: Observed;
    if KindIs(expected, "error_code") {
      var o := match error case Some(f) => FirstOf(f.code, f.name) case None => Null;
      observed := Value(Some(o));
      passed := StrictlyEqual(Some(o), Get(expected, Lit("code")));
    } else if error.Some? {
      observed := Thrown(error.value.name, FirstOf(error.value.code, None), error.value.message);
    } else if !Graded(expected) || BadPath(expected) {
      return None;
    } else {
      var o := AtPath(actual, PathOf(expected));
      AtPathWF(actual, PathOf(expected));
      ExpectedWF(expected, Lit("value"));
      observed := Value(o);
      if KindIs(expected, "exact") {
        ExactIsEquiv(o, Get(expected, Lit("value")));
        passed := CanonOption(o) == CanonOption(Get(expected, Lit("value")));
      } else if KindIs(expected, "subset") {
        passed := match Get(expected, Lit("value")) case Some(x) => Subset(x, o) case None => o.None?;
      } else {
        if ScanThrows(expected, o) { return None; }
        var wanted := ValuesOf(expected);
        if wanted.List? {
          ValuesWF(expected);
          passed := OrderedValues(wanted.values, o);
        }
      }
    }
    return Some(Grade(passed, observed));
  }

  lemma ValuesWF(expected: Json)
    requires WF(expected) && ValuesOf(expected).List?
    ensures AllWF(ValuesOf(expected).values)
  {
    ExpectedWF(expected, Lit("values"));
    var v := Get(expected, Lit("values")).value;
    if v.Arr? { ItemsAllWF(v.items); }
    if v.Obj? { IndexedWF(v, Get(v, Lit("length")).value.n); }
  }

  lemma {:induction false} IndexedWF(v: Json, n: nat)
    requires WF(v) && Indexed(v, n).Some?
    ensures |Indexed(v, n).value| == n && AllWF(Indexed(v, n).value)
    ensures forall i :: 0 <= i < n ==> Get(v, Decimal(i)) == Some(Indexed(v, n).value[i])
  {
    hide Get, Decimal, WF;
    if n > 0 {
      IndexedWF(v, n - 1);
      ExpectedWF(v, Decimal(n - 1));
    }
  }

  /** Whatever passes as exact passes as a subset, and as the ordered values of its own list. */
  lemma ExactImpliesSubset(exact: Json, weaker: Json, actual: Option<Json>, error: Option<Failure>)
    requires WF(exact) && WF(weaker) && (actual.Some? ==> WF(actual.value))
    requires KindIs(exact, "exact") && PathOf(exact) == PathOf(weaker)
    requires Passes(exact, actual, error)
    ensures KindIs(weaker, "subset") && Get(weaker, Lit("value")) == Get(exact, Lit("value")) ==>
              Passes(weaker, actual, error)
    ensures (KindIs(weaker, "ordered_values") && Get(weaker, Lit("values")) == Get(exact, Lit("value")) &&
             Get(weaker, Lit("values")).Some? && Get(weaker, Lit("values")).value.Arr?) ==> Passes(weaker, actual, error)
  {
    KindsDiffer(exact);
    KindsDiffer(weaker);
    var observed := AtPath(actual, PathOf(exact));
    var value := Get(exact, Lit("value"));
    AtPathWF(actual, PathOf(exact));
    ExpectedWF(exact, Lit("value"));
    hide Subset, SubsequenceOf, Equiv, Get, Lit, WF, AtPath, PathOf, KindIs, Indexed;
    if observed.Some? && value.Some? {
      EquivSymmetric(observed.value, value.value);
      EquivIsSubset(value.value, observed.value);
      if value.value.Arr? { EquivIsSubsequence(value.value, observed.value); }
    }
  }

  lemma EquivIsSubsequence(v: Json, w: Json)
    requires v.Arr? && Equiv(v, w)
    ensures w.Arr? && SubsequenceOf(v.items, w.items)
  {
    assert Embeds(v.items, w.items, seq(|v.items|, i => i));
  }

  /** What the error grader compares: the code of the error when it has one, else its name, else
      `null`; objects and arrays never pass. */
  lemma ErrorCodePasses(expected: Json, actual: Option<Json>, error: Option<Failure>, observed: Json)
    requires KindIs(expected, "error_code")
    requires match error
             case None => observed == Null
             case Some(f) =>
               if f.code.Some? && f.code.value != Null then f.code == Some(observed)
               else if f.name.Some? then f.name == Some(observed) else observed == Null
    ensures Passes(expected, actual, error) <==>
            !observed.Arr? && !observed.Obj? && Get(expected, Lit("code")) == Some(observed)
  {
    hide Get, Lit, SubsequenceOf, Subset, AtPath, PathOf, ValuesOf, KindIs, Equiv;
  }

  /** Without a path, or with one that is missing, null, false or 0, the whole value is graded. */
  lemma PathOfExactly(expected: Json)
    ensures match Get(expected, Lit("path"))
            case Some(Str(p)) => PathOf(expected) == p
            case Some(Null) => PathOf(expected) == []
            case Some(Bool(b)) => PathOf(expected) == if b then Lit("true") else []
            case Some(Num(n)) => PathOf(expected) == if n == 0 then [] else Decimal(n)
            case Some(_) => true
            case None => PathOf(expected) == []
  {
    hide Get, Lit, Decimal;
  }

  /** The scan reads `values` as any JavaScript value: by its `length` and its properties `0`, `1`,
      and so on. It has a list to compare with exactly when the length is a number and all of them
      are there; only `null`, and a length without a text, make it throw. */
  lemma WantedExactly(v: Json)
    ensures var w := WantedOf(v); var length := Property(v, Lit("length"));
            (w.List? <==> match length case Some(Num(n)) => n >= 0 && forall i: nat :: i < n ==> Property(v, Decimal(i)).Some? case _ => false) &&
            (w.List? ==> length == Some(Num(|w.values|)) &&
                         forall i: nat :: i < |w.values| ==> Property(v, Decimal(i)) == Some(w.values[i])) &&
            (w.NoValues? <==> v == Null) &&
            (w.NoLength? ==> (w.throws <==> length.Some? && NoText(length.value)))
  {
    hide Decimal, Lit, Lookup, NoText;
    match v
    case Arr(items) => PropertyOfArray(items, []);
    case Str(s) => PropertyOfString(s, []);
    case Obj(_) =>
      if Get(v, Lit("length")).Some? && Get(v, Lit("length")).value.Num? && Get(v, Lit("length")).value.n >= 0 {
        IndexedExactly(v, Get(v, Lit("length")).value.n);
      }
      NumberHasText();
    case _ =>
  }

  lemma NumberHasText()
    ensures forall n: int :: !NoText(Num(n))
  {
  }

  lemma {:induction false} IndexedExactly(v: Json, n: nat)
    ensures Indexed(v, n).Some? <==> forall i: nat :: i < n ==> Get(v, Decimal(i)).Some?
    ensures Indexed(v, n).Some? ==>
              |Indexed(v, n).value| == n && forall i: nat :: i < n ==> Get(v, Decimal(i)) == Some(Indexed(v, n).value[i])
  {
    hide Get, Decimal;
    if n > 0 { IndexedExactly(v, n - 1); }
  }
}
