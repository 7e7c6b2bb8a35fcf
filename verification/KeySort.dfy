/** `Object.keys(value).sort()`: entries ordered by key, code unit by code unit. */
module KeySort {
  import opened Utf16

  datatype Entry<+T> = Entry(key: Text, value: T)

  predicate DistinctKeys<T>(xs: seq<Entry<T>>) {
    forall i, j :: 0 <= i < j < |xs| ==> xs[i].key != xs[j].key
  }

  predicate Ascending<T>(xs: seq<Entry<T>>) {
    forall i, j :: 0 <= i < j < |xs| ==> Below(xs[i].key, xs[j].key)
  }

  function Insert<T>(x: Entry<T>, xs: seq<Entry<T>>): (r: seq<Entry<T>>)
    ensures multiset(r) == multiset(xs) + multiset{x}
    ensures |r| == |xs| + 1
  {
    if xs == [] then [x]
    else if Below(xs[0].key, x.key) then
      assert xs == [xs[0]] + xs[1..];
      [xs[0]] + Insert(x, xs[1..])
    else [x] + xs
  }

  function SortByKey<T>(xs: seq<Entry<T>>): (r: seq<Entry<T>>)
    ensures multiset(r) == multiset(xs)
    ensures |r| == |xs|
  {
    if xs == [] then []
    else
      assert xs == [xs[0]] + xs[1..];
      Insert(xs[0], SortByKey(xs[1..]))
  }

  lemma SameMember<T>(xs: seq<T>, ys: seq<T>, e: T)
    requires multiset(xs) == multiset(ys)
    ensures |xs| == |ys|
    ensures e in xs <==> e in ys
  {
    assert |multiset(xs)| == |multiset(ys)|;
    assert e in xs <==> e in multiset(xs);
    assert e in ys <==> e in multiset(ys);
  }

  lemma {:induction false} InsertAscending<T>(x: Entry<T>, xs: seq<Entry<T>>)
    requires Ascending(xs)
    requires forall e :: e in xs ==> e.key != x.key
    ensures Ascending(Insert(x, xs))
  {
    hide Below;
    if xs == [] {
    } else if Below(xs[0].key, x.key) {
      InsertAscending(x, xs[1..]);
      var r := Insert(x, xs[1..]);
      assert multiset([x] + xs[1..]) == multiset(xs[1..]) + multiset{x};
      forall j | 0 <= j < |r| ensures Below(xs[0].key, r[j].key) {
        SameMember(r, [x] + xs[1..], r[j]);
        assert r[j] == x || r[j] in xs[1..];
      }
    } else {
      BelowTotal(xs[0].key, x.key);
      assert xs[0] in xs;
      forall j | 0 <= j < |xs| ensures Below(x.key, xs[j].key) {
        if j > 0 { BelowTransitive(x.key, xs[0].key, xs[j].key); }
      }
    }
  }

  lemma {:induction false} SortAscending<T>(xs: seq<Entry<T>>)
    requires DistinctKeys(xs)
    ensures Ascending(SortByKey(xs))
    ensures DistinctKeys(SortByKey(xs))
  {
    hide Below;
    if xs != [] {
      SortAscending(xs[1..]);
      var tail := SortByKey(xs[1..]);
      forall e | e in tail ensures e.key != xs[0].key {
        SameMember(tail, xs[1..], e);
        assert e in xs[1..];
        var j :| 0 <= j < |xs[1..]| && xs[1..][j] == e;
        assert xs[j + 1] == e;
      }
      InsertAscending(xs[0], tail);
    }
    var r := SortByKey(xs);
    forall i, j | 0 <= i < j < |r| ensures r[i].key != r[j].key { BelowTotal(r[i].key, r[j].key); }
  }

  /** The keys of a sorted list ascend: of two of them, the first ends or has the smaller code unit
      where they first differ. */
  lemma SortedByUnits<T>(xs: seq<Entry<T>>)
    requires DistinctKeys(xs)
    ensures var r := SortByKey(xs);
            forall i, j :: 0 <= i < j < |r| ==> LessByUnit(r[i].key, r[j].key)
  {
    hide Below, LessByUnit;
    SortAscending(xs);
    var r := SortByKey(xs);
    forall i, j | 0 <= i < j < |r| ensures LessByUnit(r[i].key, r[j].key) {
      BelowExactly(r[i].key, r[j].key);
    }
  }

  /** An ascending list is determined by the set of its entries. */
  lemma {:induction false} AscendingUnique<T>(xs: seq<Entry<T>>, ys: seq<Entry<T>>)
    requires Ascending(xs) && Ascending(ys)
    requires forall e :: e in xs <==> e in ys
    ensures xs == ys
  {
    assert xs != [] ==> xs[0] in ys;
    assert ys != [] ==> ys[0] in xs;
    if xs != [] {
      BelowTotal(xs[0].key, ys[0].key);
      assert xs[0] == ys[0];
      forall e ensures e in xs[1..] <==> e in ys[1..] {
        BelowTotal(xs[0].key, xs[0].key);
        assert e in xs[1..] ==> e in xs && e != xs[0];
        assert e in ys[1..] ==> e in ys && e != ys[0];
      }
      AscendingUnique(xs[1..], ys[1..]);
      assert xs == [xs[0]] + xs[1..] && ys == [ys[0]] + ys[1..];
    }
  }

  function Keys<T>(xs: seq<Entry<T>>): (ks: set<Text>)
    ensures forall k :: k in ks <==> exists i :: 0 <= i < |xs| && xs[i].key == k
  {
    set i | 0 <= i < |xs| :: xs[i].key
  }

  lemma {:induction false} KeyCount<T>(xs: seq<Entry<T>>)
    requires DistinctKeys(xs)
    ensures |Keys(xs)| == |xs|
  {
    if xs != [] {
      KeyCount(xs[1..]);
      assert xs == [xs[0]] + xs[1..];
      assert forall i :: 0 <= i < |xs[1..]| ==> xs[1..][i] == xs[i + 1];
      assert Keys(xs) == {xs[0].key} + Keys(xs[1..]);
    }
  }

  /** Of two lists of the same length with distinct keys, one cannot have fewer keys. */
  lemma SameKeys<T>(xs: seq<Entry<T>>, ys: seq<Entry<T>>)
    requires DistinctKeys(xs) && DistinctKeys(ys) && |xs| == |ys|
    requires Keys(xs) <= Keys(ys)
    ensures Keys(xs) == Keys(ys)
  {
    KeyCount(xs);
    KeyCount(ys);
    assert |Keys(ys) - Keys(xs)| == |Keys(ys)| - |Keys(xs)|;
  }

  /** Two lists with distinct keys and the same entries sort to the same list. */
  lemma SortUnique<T>(xs: seq<Entry<T>>, ys: seq<Entry<T>>)
    requires DistinctKeys(xs) && DistinctKeys(ys)
    requires forall e :: e in xs <==> e in ys
    ensures SortByKey(xs) == SortByKey(ys)
  {
    SortAscending(xs);
    SortAscending(ys);
    forall e: Entry<T> ensures e in SortByKey(xs) <==> e in SortByKey(ys) {
      SameMember(SortByKey(xs), xs, e);
      SameMember(SortByKey(ys), ys, e);
    }
    AscendingUnique(SortByKey(xs), SortByKey(ys));
  }
}
