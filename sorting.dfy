/**
 * `Array.prototype.sort` with a comparator, as the components use it: a comparator is read as the
 * relation "may come first" (`compare(a, b) <= 0`), and the result is a sorted permutation.
 * Also JavaScript's string order (`<` on strings, by character code, a prefix first).
 */
module Sorting {

  /** The relation is total and transitive, as every comparator the components pass is. */
  ghost predicate TotalPreorder<T(!new)>(le: (T, T) -> bool) {
    (forall a, b :: le(a, b) || le(b, a))
    && (forall a, b, c :: le(a, b) && le(b, c) ==> le(a, c))
  }

  predicate SortedBy<T>(s: seq<T>, le: (T, T) -> bool) {
    forall i, j :: 0 <= i < j < |s| ==> le(s[i], s[j])
  }

  /** Inserts x in front of the first element it may precede (after every element that must come first). */
  function Insert<T(!new)>(x: T, s: seq<T>, le: (T, T) -> bool): (r: seq<T>)
    requires TotalPreorder(le) && SortedBy(s, le)
    ensures |r| == |s| + 1
    ensures multiset(r) == multiset(s) + multiset{x}
    ensures SortedBy(r, le)
    decreases |s|
  {
    if |s| == 0 then [x]
    else if le(x, s[0]) then
      PrecedesSorted(x, s, le);
      ConsSorted(x, s, le);
      [x] + s
    else
      var rest := Insert(x, s[1..], le);
      assert s == [s[0]] + s[1..];
      HeadPrecedes(s[0], x, s[1..], rest, le);
      ConsSorted(s[0], rest, le);
      [s[0]] + rest
  }

  /** An element that may precede every element of a list, and x, may precede all of a permutation of both. */
  lemma HeadPrecedes<T(!new)>(h: T, x: T, tail: seq<T>, rest: seq<T>, le: (T, T) -> bool)
    requires TotalPreorder(le) && !le(x, h)
    requires forall j :: 0 <= j < |tail| ==> le(h, tail[j])
    requires multiset(rest) == multiset(tail) + multiset{x}
    ensures forall k :: 0 <= k < |rest| ==> le(h, rest[k])
  {
    forall k | 0 <= k < |rest| ensures le(h, rest[k]) {
      assert rest[k] in multiset(rest);
      if rest[k] != x {
        assert rest[k] in multiset(tail);
        var j :| 0 <= j < |tail| && tail[j] == rest[k];
      }
    }
  }

  /** What may precede the head of a sorted list may precede all of it. */
  lemma PrecedesSorted<T(!new)>(x: T, s: seq<T>, le: (T, T) -> bool)
    requires TotalPreorder(le) && SortedBy(s, le) && |s| > 0 && le(x, s[0])
    ensures forall k :: 0 <= k < |s| ==> le(x, s[k])
  {
    forall k | 0 <= k < |s| ensures le(x, s[k]) {
      if k > 0 {
        assert le(s[0], s[k]);
      }
    }
  }

  /** A sorted list stays sorted behind an element that may precede all of it. */
  lemma ConsSorted<T>(h: T, rest: seq<T>, le: (T, T) -> bool)
    requires SortedBy(rest, le)
    requires forall k :: 0 <= k < |rest| ==> le(h, rest[k])
    ensures SortedBy([h] + rest, le)
  {
    var r := [h] + rest;
    assert forall i :: 0 < i < |r| ==> r[i] == rest[i - 1];
  }

  /** An insertion sort: a sorted permutation of its input. */
  function SortBy<T(!new)>(s: seq<T>, le: (T, T) -> bool): (r: seq<T>)
    requires TotalPreorder(le)
    ensures |r| == |s|
    ensures multiset(r) == multiset(s)
    ensures SortedBy(r, le)
    decreases |s|
  {
    if |s| == 0 then []
    else
      assert s == [s[0]] + s[1..];
      Insert(s[0], SortBy(s[1..], le), le)
  }

  /** Sorting keeps exactly the elements it was given. */
  lemma SortByMembers<T(!new)>(s: seq<T>, le: (T, T) -> bool)
    requires TotalPreorder(le)
    ensures forall x :: x in SortBy(s, le) <==> x in s
  {
    var r := SortBy(s, le);
    forall x ensures x in r <==> x in s {
      assert x in r <==> x in multiset(r);
      assert x in s <==> x in multiset(s);
    }
  }

  // ---------------------------------------------------------------- string order

  /** JavaScript's `a < b` on strings: the first differing character decides; a proper prefix comes first. */
  predicate StrLess(a: string, b: string)
    decreases |a|
  {
    if |a| == 0 then |b| > 0
    else if |b| == 0 then false
    else if a[0] != b[0] then a[0] < b[0]
    else StrLess(a[1..], b[1..])
  }

  lemma {:induction false} StrLessIrreflexive(a: string)
    ensures !StrLess(a, a)
    decreases |a|
  {
    if |a| > 0 {
      StrLessIrreflexive(a[1..]);
    }
  }

  lemma {:induction false} StrLessTransitive(a: string, b: string, c: string)
    requires StrLess(a, b) && StrLess(b, c)
    ensures StrLess(a, c)
    decreases |a|
  {
    if |a| > 0 && a[0] == b[0] && b[0] == c[0] {
      StrLessTransitive(a[1..], b[1..], c[1..]);
    }
  }

  lemma {:induction false} StrLessTrichotomy(a: string, b: string)
    ensures a == b || StrLess(a, b) || StrLess(b, a)
    decreases |a|
  {
    if |a| > 0 && |b| > 0 && a[0] == b[0] {
      StrLessTrichotomy(a[1..], b[1..]);
      if a[1..] == b[1..] {
        assert a == [a[0]] + a[1..] && b == [b[0]] + b[1..];
      }
    }
  }

  /**
   * The comparator `(a, b) => key(a) < key(b) ? -1 : key(a) > key(b) ? 1 : 0` (ascending) or its
   * mirror (descending), read as "a may come first".
   */
  function KeyOrder<T>(key: T -> string, descending: bool): (T, T) -> bool {
    (x: T, y: T) => if descending then !StrLess(key(x), key(y)) else !StrLess(key(y), key(x))
  }

  lemma KeyOrderTotalPreorder<T(!new)>(key: T -> string, descending: bool)
    ensures TotalPreorder(KeyOrder(key, descending))
  {
    var le := KeyOrder(key, descending);
    forall a: T, b: T ensures le(a, b) || le(b, a) {
      StrLessTrichotomy(key(a), key(b));
      if key(a) == key(b) {
        StrLessIrreflexive(key(a));
      } else if StrLess(key(a), key(b)) && StrLess(key(b), key(a)) {
        StrLessTransitive(key(a), key(b), key(a));
        StrLessIrreflexive(key(a));
      }
    }
    forall a: T, b: T, c: T | le(a, b) && le(b, c) ensures le(a, c) {
      var x, y, z := key(a), key(b), key(c);
      StrLessTrichotomy(x, y);
      StrLessTrichotomy(y, z);
      StrLessTrichotomy(x, z);
      if descending {
        if StrLess(x, z) {
          if x != y && y != z { StrLessTransitive(y, x, z); StrLessTransitive(y, z, y); StrLessIrreflexive(y); }
        }
      } else {
        if StrLess(z, x) {
          if x != y && y != z { StrLessTransitive(z, x, y); StrLessTransitive(z, y, z); StrLessIrreflexive(z); }
        }
      }
    }
  }

  /** Sorting by a descending whole-number ranking. */
  function RankDescending<T>(rank: T -> int): (T, T) -> bool {
    (x: T, y: T) => rank(x) >= rank(y)
  }

  lemma RankDescendingTotalPreorder<T(!new)>(rank: T -> int)
    ensures TotalPreorder(RankDescending(rank))
  {
  }
}
