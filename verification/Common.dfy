/** Small shared vocabulary: optional values, sequences without repetition, searching. */
module Common {
  datatype Option<+T> = None | Some(value: T) {
    function GetOr(default: T): T {
      match this
      case Some(v) => v
      case None => default
    }
  }

  predicate NoDup<T(==)>(s: seq<T>) {
    forall i, j :: 0 <= i < j < |s| ==> s[i] != s[j]
  }

  /** The position of x in s, or |s| when it does not occur. */
  function Find<T(==)>(s: seq<T>, x: T): (i: nat)
    ensures i <= |s|
    ensures i < |s| <==> x in s
    ensures i < |s| ==> s[i] == x
    ensures forall j :: 0 <= j < i ==> s[j] != x
  {
    if s == [] then 0
    else if s[0] == x then 0
    else 1 + Find(s[1..], x)
  }

  /** Where x sits is decided by any place it occupies before which it does not occur. */
  lemma FindAt<T>(s: seq<T>, x: T, i: nat)
    requires i < |s| && s[i] == x
    requires forall j :: 0 <= j < i ==> s[j] != x
    ensures Find(s, x) == i
  {
    if Find(s, x) < i {
      assert s[Find(s, x)] == x;
    }
  }

  /** Two prints split at the same separator agree on both halves when the first halves lack it. */
  lemma SplitAt(a: string, b: string, c: char, x: string, y: string)
    requires c !in a && c !in b && a + [c] + x == b + [c] + y
    ensures a == b && x == y
  {
    var l := a + [c] + x;
    var r := b + [c] + y;
    assert forall i :: 0 <= i < |a| ==> l[i] == a[i];
    assert forall i :: 0 <= i < |b| ==> r[i] == b[i];
    assert l[|a|] == c && r[|b|] == c;
    assert |a| == |b|;
    assert a == l[..|a|] && b == r[..|b|];
    assert x == l[|a| + 1..] && y == r[|b| + 1..];
  }

  function Max(a: nat, b: nat): nat {
    if a < b then b else a
  }

  lemma {:induction false} SubsetSize<T>(a: set<T>, b: set<T>)
    requires a <= b
    ensures |a| <= |b|
  {
    if a != {} {
      var x :| x in a;
      SubsetSize(a - {x}, b - {x});
    }
  }

  const SECOND := 1_000_000_000

  /** API timestamps keep whole seconds of the nanosecond clock. */
  function Stored(t: int): (s: int)
    ensures s <= t < s + SECOND && s % SECOND == 0
    ensures t >= 0 ==> s >= 0
  {
    t - t % SECOND
  }

  function RemoveAt<T>(s: seq<T>, i: nat): seq<T>
    requires i < |s|
  {
    s[..i] + s[i + 1..]
  }
}

/** The letters and digits, listed. */
module Characters {
  const LOWER := "abcdefghijklmnopqrstuvwxyz"
  const UPPER := "ABCDEFGHIJKLMNOPQRSTUVWXYZ"
  const DIGITS := "0123456789"

  lemma LowerRange(c: char)
    ensures 'a' <= c <= 'z' <==> c in LOWER
  {
    assert |LOWER| == 26;
    if 'a' <= c <= 'z' { assert LOWER[c as int - 'a' as int] == c; }
  }

  lemma UpperRange(c: char)
    ensures 'A' <= c <= 'Z' <==> c in UPPER
  {
    assert |UPPER| == 26;
    if 'A' <= c <= 'Z' { assert UPPER[c as int - 'A' as int] == c; }
  }

  lemma DigitRange(c: char)
    ensures '0' <= c <= '9' <==> c in DIGITS
  {
    assert |DIGITS| == 10;
    if '0' <= c <= '9' { assert DIGITS[c as int - '0' as int] == c; }
  }

  lemma CharacterRanges(c: char)
    ensures 'a' <= c <= 'z' <==> c in LOWER
    ensures 'A' <= c <= 'Z' <==> c in UPPER
    ensures '0' <= c <= '9' <==> c in DIGITS
  {
    hide *;
    LowerRange(c);
    UpperRange(c);
    DigitRange(c);
  }
}

/** Byte-wise string order, as Go compares strings. */
module Ordering {
  predicate Less(a: string, b: string) {
    if b == "" then false
    else if a == "" then true
    else a[0] < b[0] || (a[0] == b[0] && Less(a[1..], b[1..]))
  }

  /** A proper prefix comes first; otherwise the first differing byte decides. */
  lemma {:induction false} LessIsLexicographic(a: string, b: string)
    ensures Less(a, b) <==> (a < b || exists k :: 0 <= k < |a| && k < |b| && a[..k] == b[..k] && a[k] < b[k])
    decreases |a|
  {
    if a != "" && b != "" {
      LessIsLexicographic(a[1..], b[1..]);
      if a[0] < b[0] { assert a[..0] == b[..0]; }
      if a[0] == b[0] {
        assert a == [a[0]] + a[1..] && b == [b[0]] + b[1..];
        forall k | 0 <= k < |a[1..]| && k < |b[1..]| && a[1..][..k] == b[1..][..k]
          ensures a[..k + 1] == b[..k + 1]
        {
          assert a[..k + 1] == [a[0]] + a[1..][..k] && b[..k + 1] == [b[0]] + b[1..][..k];
        }
        forall k | 0 < k < |a| && k < |b| && a[..k] == b[..k] ensures a[1..][..k - 1] == b[1..][..k - 1]
        {
          assert a[..k][1..] == a[1..][..k - 1] && b[..k][1..] == b[1..][..k - 1];
        }
      }
    }
  }

  lemma {:induction false} LessIrreflexive(a: string)
    ensures !Less(a, a)
  {
    if a != "" { LessIrreflexive(a[1..]); }
  }

  lemma {:induction false} LessTotal(a: string, b: string)
    ensures a != b ==> Less(a, b) || Less(b, a)
    ensures !(Less(a, b) && Less(b, a))
    decreases |a| + |b|
  {
    if a != "" && b != "" {
      LessTotal(a[1..], b[1..]);
      if a[0] == b[0] && a[1..] == b[1..] {
        assert a == [a[0]] + a[1..] == b;
      }
    }
  }

  lemma {:induction false} LessTransitive(a: string, b: string, c: string)
    requires Less(a, b) && Less(b, c)
    ensures Less(a, c)
  {
    if a != "" && b != "" && c != "" && a[0] == b[0] == c[0] {
      LessTransitive(a[1..], b[1..], c[1..]);
    }
  }
}

/** Sorting by a comparator that separates every pair: the order it leaves is the only one. */
module Sorting {
  ghost predicate Strict<T(!new)>(less: (T, T) -> bool) {
    && (forall x, y :: !(less(x, y) && less(y, x)))
    && (forall x, y, z :: less(x, y) && less(y, z) ==> less(x, z))
  }

  ghost predicate Sorted<T>(s: seq<T>, less: (T, T) -> bool) {
    forall i, j :: 0 <= i < j < |s| ==> less(s[i], s[j])
  }

  ghost predicate SameMembers<T(!new)>(a: seq<T>, b: seq<T>) {
    forall m :: m in a <==> m in b
  }

  /** No two entries tie under the comparator. */
  ghost predicate Separated<T>(s: seq<T>, less: (T, T) -> bool) {
    forall i, j :: 0 <= i < j < |s| ==> less(s[i], s[j]) || less(s[j], s[i])
  }

  lemma {:induction false} SortedIsUnique<T(!new)>(a: seq<T>, b: seq<T>, less: (T, T) -> bool)
    requires Strict(less) && Sorted(a, less) && Sorted(b, less) && SameMembers(a, b)
    ensures a == b
    decreases |a|
  {
    assert |a| > 0 ==> a[0] in a;
    assert |b| > 0 ==> b[0] in b;
    if a != [] {
      SameHead(a, b, less);
      TailMembers(a, b, less);
      TailMembers(b, a, less);
      SortedIsUnique(a[1..], b[1..], less);
      assert a == [a[0]] + a[1..] == [b[0]] + b[1..] == b;
    }
  }

  lemma SameHead<T(!new)>(a: seq<T>, b: seq<T>, less: (T, T) -> bool)
    requires Strict(less) && Sorted(a, less) && Sorted(b, less) && SameMembers(a, b) && a != []
    ensures b != [] && a[0] == b[0]
  {
    assert a[0] in b;
    assert b[0] in a;
    var j :| 0 <= j < |b| && b[j] == a[0];
    var i :| 0 <= i < |a| && a[i] == b[0];
  }

  lemma TailMembers<T(!new)>(a: seq<T>, b: seq<T>, less: (T, T) -> bool)
    requires Strict(less) && Sorted(a, less) && SameMembers(a, b) && a != [] && b != [] && a[0] == b[0]
    ensures forall m :: m in a[1..] ==> m in b[1..]
  {
    forall m | m in a[1..] ensures m in b[1..]
    {
      var k :| 1 <= k < |a| && a[k] == m;
      assert less(a[0], a[k]) && m in b;
      var l :| 0 <= l < |b| && b[l] == m;
      assert l != 0;
      assert b[1..][l - 1] == m;
    }
  }

  /** The library sort, as insertion into an ordered prefix. */
  method Sort<T(!new)>(items: seq<T>, less: (T, T) -> bool) returns (s: seq<T>)
    requires Strict(less) && Separated(items, less)
    ensures Sorted(s, less) && SameMembers(s, items) && |s| == |items|
  {
    s := [];
    for i := 0 to |items|
      invariant Sorted(s, less) && |s| == i
      invariant SameMembers(s, items[..i])
    {
      assert items[..i + 1] == items[..i] + [items[i]];
      assert forall m :: m in items[..i] ==> less(m, items[i]) || less(items[i], m);
      s := Insert(s, items[i], less);
    }
    assert items[..|items|] == items;
  }

  method Insert<T(!new)>(s: seq<T>, m: T, less: (T, T) -> bool) returns (r: seq<T>)
    requires Strict(less) && Sorted(s, less) && forall x :: x in s ==> less(x, m) || less(m, x)
    ensures Sorted(r, less) && |r| == |s| + 1 && forall x :: x in r <==> x in s || x == m
  {
    var k := 0;
    while k < |s| && less(s[k], m)
      invariant k <= |s| && forall i :: 0 <= i < k ==> less(s[i], m)
    {
      k := k + 1;
    }
    assert forall j :: k <= j < |s| ==> less(m, s[j]) by {
      assert k < |s| ==> s[k] in s && less(m, s[k]);
    }
    r := s[..k] + [m] + s[k..];
  }
}
