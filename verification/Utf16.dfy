/** JavaScript strings: sequences of UTF-16 code units, with the order that
    `Array.prototype.sort` uses when it is given no comparator. */
module Utf16 {
  type Unit = u: int | 0 <= u < 0x1_0000
  type Text = seq<Unit>

  /** A string literal of the program as a sequence of code units. */
  function Lit(s: string): (t: Text)
    ensures |t| == |s|
  {
    seq(|s|, i requires 0 <= i < |s| => if s[i] as int < 0x1_0000 then s[i] as int else 0xFFFD)
  }

  /** Strict lexicographic order by code unit. */
  predicate Below(a: Text, b: Text) {
    b != [] && (a == [] || a[0] < b[0] || (a[0] == b[0] && Below(a[1..], b[1..])))
  }

  lemma {:induction false} BelowTotal(a: Text, b: Text)
    ensures a == b || Below(a, b) || Below(b, a)
    ensures !(Below(a, b) && Below(b, a))
    ensures Below(a, b) ==> a != b
  {
    if a != [] && b != [] && a[0] == b[0] {
      BelowTotal(a[1..], b[1..]);
      assert a == [a[0]] + a[1..] && b == [b[0]] + b[1..];
    }
  }

  /** `a` comes before `b` by what stands at `n`: they agree up to there, and there `a` ends or
      has the smaller code unit. */
  predicate LessAt(a: Text, b: Text, n: nat) {
    n < |b| && n <= |a| && a[..n] == b[..n] && (n == |a| || a[n] < b[n])
  }

  /** The order by the first differing code unit. */
  ghost predicate LessByUnit(a: Text, b: Text) { exists n: nat :: LessAt(a, b, n) }

  lemma {:induction false} BelowExactly(a: Text, b: Text)
    ensures Below(a, b) <==> LessByUnit(a, b)
  {
    if a == [] {
      if b != [] { assert LessAt(a, b, 0); }
    } else if b != [] {
      if a[0] < b[0] { assert LessAt(a, b, 0); }
      BelowExactly(a[1..], b[1..]);
      if a[0] == b[0] {
        if n: nat :| LessAt(a[1..], b[1..], n) {
          assert a[..n + 1] == [a[0]] + a[1..][..n] && b[..n + 1] == [b[0]] + b[1..][..n];
          assert LessAt(a, b, n + 1);
        }
        if n: nat :| LessAt(a, b, n) {
          assert a[1..][..n - 1] == a[..n][1..] && b[1..][..n - 1] == b[..n][1..];
          assert LessAt(a[1..], b[1..], n - 1);
        }
      } else if n: nat :| LessAt(a, b, n) {
        assert n > 0 ==> a[..n][0] == b[..n][0];
      }
    }
  }

  lemma {:induction false} BelowTransitive(a: Text, b: Text, c: Text)
    requires Below(a, b) && Below(b, c)
    ensures Below(a, c)
  {
    if a != [] && a[0] == b[0] == c[0] {
      BelowTransitive(a[1..], b[1..], c[1..]);
    }
  }
}
