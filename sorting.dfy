/** `list.sort(key=...)`: Python's sort is stable and compares keys with `<`
    only. It is modelled as insertion sort over a strict order `less`, each
    element placed after every element it is not less than, which is exactly
    the stable order. */
module Sorting {

  ghost predicate StrictOrder<T(!new)>(less: (T, T) -> bool)
  {
    && (forall a :: !less(a, a))
    && (forall a, b, c :: less(a, b) && less(b, c) ==> less(a, c))
  }

  ghost predicate Trichotomous<T(!new)>(less: (T, T) -> bool)
  {
    forall a, b :: a == b || less(a, b) || less(b, a)
  }

  /** No element is less than one placed before it. */
  ghost predicate SortedBy<T>(s: seq<T>, less: (T, T) -> bool)
  {
    forall i, j :: 0 <= i < j < |s| ==> !less(s[j], s[i])
  }

  function Insert<T>(x: T, s: seq<T>, less: (T, T) -> bool): (r: seq<T>)
    ensures multiset(r) == multiset(s) + multiset{x} && |r| == |s| + 1
  {
    if s == [] then [x]
    else if less(x, s[0]) then [x] + s
    else
      assert s == [s[0]] + s[1..];
      [s[0]] + Insert(x, s[1..], less)
  }

  /** The sorted copy of `s`: its elements inserted one by one, first to last. */
  function SortBy<T>(s: seq<T>, less: (T, T) -> bool): (r: seq<T>)
  {
    if s == [] then [] else Insert(s[|s| - 1], SortBy(s[..|s| - 1], less), less)
  }

  lemma {:induction false} SortByPermutes<T>(s: seq<T>, less: (T, T) -> bool)
    ensures multiset(SortBy(s, less)) == multiset(s) && |SortBy(s, less)| == |s|
  {
    if s != [] {
      SortByPermutes(s[..|s| - 1], less);
      assert s == s[..|s| - 1] + [s[|s| - 1]];
    }
  }

  lemma {:induction false} InsertSorted<T(!new)>(x: T, s: seq<T>, less: (T, T) -> bool)
    requires StrictOrder(less) && SortedBy(s, less)
    ensures SortedBy(Insert(x, s, less), less)
  {
    if s == [] {
    } else if less(x, s[0]) {
      var r := [x] + s;
      assert SortedBy(r, less);
    } else {
      var t := Insert(x, s[1..], less);
      InsertSorted(x, s[1..], less);
      var r := [s[0]] + t;
      forall i, j | 0 <= i < j < |r| ensures !less(r[j], r[i]) {
        if i == 0 {
          assert r[j] in multiset(s[1..]) + multiset{x};
          if r[j] != x {
            assert r[j] in s[1..];
            var k :| 0 <= k < |s[1..]| && s[1..][k] == r[j];
            assert s[k + 1] == r[j];
          }
        }
      }
    }
  }

  lemma {:induction false} SortBySorted<T(!new)>(s: seq<T>, less: (T, T) -> bool)
    requires StrictOrder(less)
    ensures SortedBy(SortBy(s, less), less)
  {
    if s != [] {
      SortBySorted(s[..|s| - 1], less);
      InsertSorted(s[|s| - 1], SortBy(s[..|s| - 1], less), less);
    }
  }

  /** A sequence whose neighbours are in strictly increasing order is sorted. */
  lemma {:induction false} ChainSorted<T(!new)>(s: seq<T>, less: (T, T) -> bool)
    requires StrictOrder(less)
    requires forall k :: 0 <= k < |s| - 1 ==> less(s[k], s[k + 1])
    ensures SortedBy(s, less)
    ensures forall i, j :: 0 <= i < j < |s| ==> less(s[i], s[j])
  {
    if |s| > 1 {
      ChainSorted(s[1..], less);
      forall j | 1 <= j < |s| ensures less(s[0], s[j]) {
        if j > 1 {
          assert less(s[1..][0], s[1..][j - 1]);
        }
      }
      forall i, j | 0 <= i < j < |s| ensures less(s[i], s[j]) {
        if i > 0 { assert less(s[1..][i - 1], s[1..][j - 1]); }
      }
    }
  }

  /** The first element of a sorted sequence is not greater than any element. */
  lemma SortedHead<T(!new)>(s: seq<T>, x: T, less: (T, T) -> bool)
    requires StrictOrder(less) && SortedBy(s, less) && x in s
    ensures !less(x, s[0])
  {
    var k :| 0 <= k < |s| && s[k] == x;
    if k > 0 { assert !less(s[k], s[0]); }
  }

  lemma SortedTail<T>(s: seq<T>, less: (T, T) -> bool)
    requires SortedBy(s, less) && |s| > 0
    ensures SortedBy(s[1..], less)
  {
    forall i, j | 0 <= i < j < |s[1..]| ensures !less(s[1..][j], s[1..][i]) {
      assert s[1..][j] == s[j + 1] && s[1..][i] == s[i + 1];
    }
  }

  lemma MultisetTail<T>(a: seq<T>, b: seq<T>)
    requires |a| > 0 && |b| > 0 && a[0] == b[0] && multiset(a) == multiset(b)
    ensures multiset(a[1..]) == multiset(b[1..])
  {
    assert a == [a[0]] + a[1..] && b == [b[0]] + b[1..];
    assert multiset(a) == multiset{a[0]} + multiset(a[1..]);
    assert multiset(b) == multiset{b[0]} + multiset(b[1..]);
    assert multiset(a[1..]) == multiset(a) - multiset{a[0]};
    assert multiset(b[1..]) == multiset(b) - multiset{b[0]};
  }

  /** Under a strict total order there is one sorted arrangement of a
      multiset: sorting forgets the order it was given. */
  lemma {:induction false} SortedUnique<T(!new)>(a: seq<T>, b: seq<T>, less: (T, T) -> bool)
    requires StrictOrder(less) && Trichotomous(less)
    requires SortedBy(a, less) && SortedBy(b, less) && multiset(a) == multiset(b)
    ensures a == b
  {
    if |a| == 0 {
      assert |multiset(b)| == 0;
    } else {
      assert |b| > 0 by { assert |multiset(b)| == |multiset(a)|; }
      assert a[0] in multiset(b) && b[0] in multiset(a);
      SortedHead(b, a[0], less);
      SortedHead(a, b[0], less);
      assert a[0] == b[0];
      MultisetTail(a, b);
      SortedTail(a, less);
      SortedTail(b, less);
      SortedUnique(a[1..], b[1..], less);
      assert a == [a[0]] + a[1..] && b == [b[0]] + b[1..];
    }
  }

  /** Sorting two arrangements of the same elements gives one result. */
  lemma SortByIgnoresOrder<T(!new)>(a: seq<T>, b: seq<T>, less: (T, T) -> bool)
    requires StrictOrder(less) && Trichotomous(less) && multiset(a) == multiset(b)
    ensures SortBy(a, less) == SortBy(b, less)
  {
    SortByPermutes(a, less);
    SortByPermutes(b, less);
    SortBySorted(a, less);
    SortBySorted(b, less);
    SortedUnique(SortBy(a, less), SortBy(b, less), less);
  }
}
