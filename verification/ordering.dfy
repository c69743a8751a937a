/** The manifest ordering: the comparator of `allTools.sort` (featured entries
    first, then by name) and a stable sort with it. `localeCompare` is modelled
    as lexicographic comparison of code points. */
module Ordering {
  import opened Entries

  /** Three-way lexicographic comparison standing in for `x.localeCompare(y)`. */
  function StrCompare(x: string, y: string): (c: int)
    ensures c == -1 || c == 0 || c == 1
    ensures c == 0 <==> x == y
  {
    if |x| == 0 && |y| == 0 then 0
    else if |x| == 0 then -1
    else if |y| == 0 then 1
    else if x[0] < y[0] then -1
    else if x[0] > y[0] then 1
    else
      var c := StrCompare(x[1..], y[1..]);
      assert c == 0 ==> x == [x[0]] + x[1..] == [y[0]] + y[1..] == y;
      c
  }

  lemma {:induction false} StrCompareAntisymmetric(x: string, y: string)
    ensures StrCompare(x, y) == -StrCompare(y, x)
  {
    if |x| > 0 && |y| > 0 && x[0] == y[0] {
      StrCompareAntisymmetric(x[1..], y[1..]);
    }
  }

  lemma {:induction false} StrCompareTransitive(x: string, y: string, z: string)
    requires StrCompare(x, y) <= 0 && StrCompare(y, z) <= 0
    ensures StrCompare(x, z) <= 0
  {
    if |x| > 0 && |y| > 0 && |z| > 0 && x[0] == y[0] == z[0] {
      StrCompareTransitive(x[1..], y[1..], z[1..]);
    }
  }

  /** The comparator passed to `allTools.sort`. */
  function Compare(a: Entry, b: Entry): int {
    if Featured(a) && !Featured(b) then -1
    else if !Featured(a) && Featured(b) then 1
    else StrCompare(Name(a), Name(b))
  }

  /** `a` may precede `b`. */
  predicate Le(a: Entry, b: Entry) {
    Compare(a, b) <= 0
  }

  /** `a` and `b` are tied under the comparator. */
  predicate SameKey(a: Entry, b: Entry) {
    Featured(a) == Featured(b) && Name(a) == Name(b)
  }

  /** The comparator is a total preorder whose ties are exactly equal keys. */
  lemma CompareLaws(a: Entry, b: Entry, c: Entry)
    ensures Le(a, b) || Le(b, a)
    ensures !Le(a, b) ==> Le(b, a) && !SameKey(a, b)
    ensures Compare(a, b) == 0 <==> SameKey(a, b)
    ensures Le(a, b) && Le(b, c) ==> Le(a, c)
  {
    StrCompareAntisymmetric(Name(a), Name(b));
    if Le(a, b) && Le(b, c) && Featured(a) == Featured(b) == Featured(c) {
      StrCompareTransitive(Name(a), Name(b), Name(c));
    }
  }

  predicate Sorted(s: seq<Entry>) {
    forall i, j :: 0 <= i < j < |s| ==> Le(s[i], s[j])
  }

  /** Places `x` before the first element it may precede, so that it stays
      ahead of every element tied with it. */
  function Insert(x: Entry, s: seq<Entry>): (r: seq<Entry>)
    requires Sorted(s)
    ensures multiset(r) == multiset(s) + multiset{x}
    ensures Sorted(r)
  {
    if |s| == 0 then [x]
    else if Le(x, s[0]) then
      InsertFront(x, s);
      [x] + s
    else
      var t := Insert(x, s[1..]);
      InsertBehind(x, s, t);
      [s[0]] + t
  }

  lemma InsertFront(x: Entry, s: seq<Entry>)
    requires Sorted(s) && |s| > 0 && Le(x, s[0])
    ensures Sorted([x] + s)
  {
    forall j | 0 <= j < |s|
      ensures Le(x, s[j])
    {
      CompareLaws(x, s[0], s[j]);
    }
  }

  lemma InsertBehind(x: Entry, s: seq<Entry>, t: seq<Entry>)
    requires Sorted(s) && |s| > 0 && !Le(x, s[0])
    requires Sorted(t) && multiset(t) == multiset(s[1..]) + multiset{x}
    ensures Sorted([s[0]] + t)
    ensures multiset([s[0]] + t) == multiset(s) + multiset{x}
  {
    CompareLaws(x, s[0], s[0]);
    assert s == [s[0]] + s[1..];
    forall j | 0 <= j < |t|
      ensures Le(s[0], t[j])
    {
      assert t[j] in multiset(t);
      if t[j] != x {
        assert t[j] in s[1..];
      }
    }
  }

  /** Stable insertion sort: sorts the tail, then inserts the head. */
  function Sort(s: seq<Entry>): (r: seq<Entry>)
    ensures multiset(r) == multiset(s)
    ensures |r| == |s|
    ensures Sorted(r)
  {
    if |s| == 0 then []
    else
      assert s == [s[0]] + s[1..];
      Insert(s[0], Sort(s[1..]))
  }

  /** A featured entry listed after a non-featured one is moved ahead of it. */
  lemma FeaturedMovesAhead(a: Entry, b: Entry)
    requires Featured(a) && !Featured(b)
    ensures Sort([b, a]) == [a, b]
  {
    assert [b, a][1..] == [a];
    assert [a][1..] == [];
    assert Sort([a]) == [a];
    assert !Le(b, a);
    assert Insert(b, [a]) == [a] + Insert(b, []);
  }

  /** The ordering stated directly: every featured entry precedes every
      non-featured one, and names do not decrease within each group. */
  predicate FeaturedFirstThenByName(s: seq<Entry>) {
    && (forall i, j :: 0 <= i < j < |s| && Featured(s[j]) ==> Featured(s[i]))
    && (forall i, j :: 0 <= i < j < |s| && Featured(s[i]) == Featured(s[j]) ==>
          StrCompare(Name(s[i]), Name(s[j])) <= 0)
  }

  lemma SortedMeaning(s: seq<Entry>)
    ensures Sorted(s) <==> FeaturedFirstThenByName(s)
  {
  }

  /** The entries of `s` tied with `k`, in their order in `s`. */
  function Tied(s: seq<Entry>, k: Entry): (r: seq<Entry>)
    ensures |r| <= |s|
  {
    if |s| == 0 then []
    else if SameKey(s[0], k) then [s[0]] + Tied(s[1..], k)
    else Tied(s[1..], k)
  }

  lemma {:induction false} InsertTied(x: Entry, s: seq<Entry>, k: Entry)
    requires Sorted(s)
    ensures Tied(Insert(x, s), k) == if SameKey(x, k) then [x] + Tied(s, k) else Tied(s, k)
  {
    if |s| == 0 {
    } else if Le(x, s[0]) {
      assert Insert(x, s)[1..] == s;
    } else {
      CompareLaws(x, s[0], s[0]);
      InsertTied(x, s[1..], k);
      var r := Insert(x, s);
      assert r[0] == s[0] && r[1..] == Insert(x, s[1..]);
      if SameKey(x, k) {
        assert !SameKey(s[0], k);
      }
    }
  }

  /** Stability: tied entries leave the sort in the order they entered it. */
  lemma {:induction false} SortStable(s: seq<Entry>, k: Entry)
    ensures Tied(Sort(s), k) == Tied(s, k)
  {
    if |s| > 0 {
      SortStable(s[1..], k);
      InsertTied(s[0], Sort(s[1..]), k);
    }
  }

  lemma {:induction false} SortOfSorted(s: seq<Entry>)
    requires Sorted(s)
    ensures Sort(s) == s
  {
    if |s| > 0 {
      SortOfSorted(s[1..]);
      assert s == [s[0]] + s[1..];
    }
  }

  /** Sorting twice changes nothing. */
  lemma SortIdempotent(s: seq<Entry>)
    ensures Sort(Sort(s)) == Sort(s)
  {
    SortOfSorted(Sort(s));
  }
}
