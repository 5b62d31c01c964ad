/** Order-preserving filters and the stable sort that every listing of the engine is built from. */
module Sequences {

  ghost predicate Distinct<T>(s: seq<T>) {
    forall i, j :: 0 <= i < j < |s| ==> s[i] != s[j]
  }

  function Filter<T>(s: seq<T>, keep: T -> bool): seq<T> {
    if s == [] then []
    else if keep(s[0]) then [s[0]] + Filter(s[1..], keep)
    else Filter(s[1..], keep)
  }

  lemma {:induction false} FilterConcat<T>(a: seq<T>, b: seq<T>, keep: T -> bool)
    ensures Filter(a + b, keep) == Filter(a, keep) + Filter(b, keep)
  {
    if a == [] {
      assert a + b == b;
    } else {
      FilterConcat(a[1..], b, keep);
      assert (a + b)[1..] == a[1..] + b;
    }
  }

  lemma {:induction false} FilterMembers<T>(s: seq<T>, keep: T -> bool)
    ensures forall x :: x in Filter(s, keep) <==> x in s && keep(x)
  {
    if s != [] {
      FilterMembers(s[1..], keep);
    }
  }

  lemma {:induction false} FilterAll<T>(s: seq<T>, keep: T -> bool)
    requires forall x :: x in s ==> keep(x)
    ensures Filter(s, keep) == s
  {
    if s != [] {
      FilterAll(s[1..], keep);
    }
  }

  lemma {:induction false} FilterNone<T>(s: seq<T>, keep: T -> bool)
    requires forall x :: x in s ==> !keep(x)
    ensures Filter(s, keep) == []
  {
    if s != [] {
      FilterNone(s[1..], keep);
    }
  }

  lemma {:induction false} FilterExtensional<T>(s: seq<T>, p: T -> bool, q: T -> bool)
    requires forall x :: x in s ==> p(x) == q(x)
    ensures Filter(s, p) == Filter(s, q)
  {
    if s != [] {
      FilterExtensional(s[1..], p, q);
    }
  }

  lemma {:induction false} FilterDistinct<T>(s: seq<T>, keep: T -> bool)
    requires Distinct(s)
    ensures Distinct(Filter(s, keep))
  {
    if s != [] {
      FilterDistinct(s[1..], keep);
      FilterMembers(s[1..], keep);
    }
  }

  lemma {:induction false} FilterSorted<T(!new)>(s: seq<T>, keep: T -> bool, le: (T, T) -> bool)
    requires SortedBy(s, le)
    ensures SortedBy(Filter(s, keep), le)
  {
    if s != [] {
      var tail := s[1..];
      FilterSorted(tail, keep, le);
      FilterMembers(tail, keep);
      var rest := Filter(tail, keep);
      forall j | 0 <= j < |rest|
        ensures le(s[0], rest[j])
      {
        assert rest[j] in Filter(tail, keep);
        assert rest[j] in tail;
      }
    }
  }

  /** A comparison under which every two elements are ordered, ties allowed. */
  ghost predicate TotalPreorder<T(!new)>(le: (T, T) -> bool) {
    && (forall x, y :: le(x, y) || le(y, x))
    && (forall x, y, z :: le(x, y) && le(y, z) ==> le(x, z))
  }

  ghost predicate SortedBy<T>(s: seq<T>, le: (T, T) -> bool) {
    forall i, j :: 0 <= i < j < |s| ==> le(s[i], s[j])
  }

  /** Inserts `x`, which came before all of `s`, in front of the first element that is not smaller. */
  function InsertSorted<T>(x: T, s: seq<T>, le: (T, T) -> bool): seq<T> {
    if s == [] || le(x, s[0]) then [x] + s
    else [s[0]] + InsertSorted(x, s[1..], le)
  }

  /** The stable ascending sort. */
  function StableSort<T>(s: seq<T>, le: (T, T) -> bool): seq<T> {
    if s == [] then [] else InsertSorted(s[0], StableSort(s[1..], le), le)
  }

  lemma {:induction false} InsertSortedMultiset<T>(x: T, s: seq<T>, le: (T, T) -> bool)
    ensures multiset(InsertSorted(x, s, le)) == multiset{x} + multiset(s)
  {
    if s != [] && !le(x, s[0]) {
      InsertSortedMultiset(x, s[1..], le);
      assert s == [s[0]] + s[1..];
    }
  }

  lemma {:induction false} InsertSortedKeepsOrder<T(!new)>(x: T, s: seq<T>, le: (T, T) -> bool)
    requires TotalPreorder(le) && SortedBy(s, le)
    ensures SortedBy(InsertSorted(x, s, le), le)
  {
    if s != [] && !le(x, s[0]) {
      InsertSortedKeepsOrder(x, s[1..], le);
      var rest := InsertSorted(x, s[1..], le);
      forall j | 0 <= j < |rest|
        ensures le(s[0], rest[j])
      {
        InsertSortedMultiset(x, s[1..], le);
        assert rest[j] in multiset(rest);
      }
    }
  }

  lemma {:induction false} StableSortMultiset<T>(s: seq<T>, le: (T, T) -> bool)
    ensures multiset(StableSort(s, le)) == multiset(s)
    ensures |StableSort(s, le)| == |s|
    ensures forall x :: x in StableSort(s, le) <==> x in s
  {
    if s != [] {
      StableSortMultiset(s[1..], le);
      InsertSortedMultiset(s[0], StableSort(s[1..], le), le);
      assert s == [s[0]] + s[1..];
    }
    assert |multiset(StableSort(s, le))| == |multiset(s)|;
    forall x
      ensures x in StableSort(s, le) <==> x in s
    {
      assert x in StableSort(s, le) <==> x in multiset(StableSort(s, le));
    }
  }

  lemma {:induction false} StableSortOrders<T(!new)>(s: seq<T>, le: (T, T) -> bool)
    requires TotalPreorder(le)
    ensures SortedBy(StableSort(s, le), le)
  {
    if s != [] {
      StableSortOrders(s[1..], le);
      InsertSortedKeepsOrder(s[0], StableSort(s[1..], le), le);
    }
  }

  /** The elements neither smaller nor larger than `pivot`. */
  function TiedWith<T>(le: (T, T) -> bool, pivot: T): T -> bool {
    x => le(x, pivot) && le(pivot, x)
  }

  lemma {:induction false} InsertSortedStable<T(!new)>(x: T, s: seq<T>, le: (T, T) -> bool, pivot: T)
    requires TotalPreorder(le)
    ensures Filter(InsertSorted(x, s, le), TiedWith(le, pivot)) == Filter([x] + s, TiedWith(le, pivot))
  {
    if s != [] && !le(x, s[0]) {
      InsertSortedStable(x, s[1..], le, pivot);
      assert ([x] + s[1..])[1..] == s[1..];
      assert ([x] + s)[1..] == s;
    }
  }

  /** Stability: tied elements keep their order. */
  lemma {:induction false} StableSortStable<T(!new)>(s: seq<T>, le: (T, T) -> bool, pivot: T)
    requires TotalPreorder(le)
    ensures Filter(StableSort(s, le), TiedWith(le, pivot)) == Filter(s, TiedWith(le, pivot))
  {
    if s != [] {
      StableSortStable(s[1..], le, pivot);
      InsertSortedStable(s[0], StableSort(s[1..], le), le, pivot);
      assert ([s[0]] + StableSort(s[1..], le))[1..] == StableSort(s[1..], le);
    }
  }

  lemma {:induction false} SortingSortedIsIdentity<T>(s: seq<T>, le: (T, T) -> bool)
    requires SortedBy(s, le)
    ensures StableSort(s, le) == s
  {
    if s != [] {
      SortingSortedIsIdentity(s[1..], le);
    }
  }

  lemma {:induction false} DistinctCount<T>(a: seq<T>, x: T)
    requires Distinct(a)
    ensures multiset(a)[x] <= 1
  {
    if a != [] {
      DistinctCount(a[1..], x);
      assert a == [a[0]] + a[1..];
      assert a[0] !in a[1..];
    }
  }

  lemma DistinctMultiset<T>(a: seq<T>, b: seq<T>)
    requires multiset(a) == multiset(b) && Distinct(a)
    ensures Distinct(b)
  {
    forall i, j | 0 <= i < j < |b|
      ensures b[i] != b[j]
    {
      assert b == b[..i] + [b[i]] + b[i + 1..j] + [b[j]] + b[j + 1..];
      DistinctCount(a, b[i]);
    }
  }

  /** Two strictly ordered arrangements of the same elements are the same sequence. */
  lemma {:induction false} SortedUnique<T>(a: seq<T>, b: seq<T>, le: (T, T) -> bool)
    requires SortedBy(a, le) && SortedBy(b, le)
    requires Distinct(a) && Distinct(b)
    requires forall x :: x in a <==> x in b
    requires forall x, y :: x in a && y in a && le(x, y) && le(y, x) ==> x == y
    ensures a == b
  {
    assert (a == [] || a[0] in a) && (b == [] || b[0] in b);
    if a != [] {
      assert a[0] in b && b[0] in a;
      assert a[0] == b[0];
      assert a == [a[0]] + a[1..] && b == [b[0]] + b[1..];
      assert a[0] !in a[1..] && b[0] !in b[1..];
      forall x
        ensures x in a[1..] <==> x in b[1..]
      {
        assert x in a[1..] <==> x in a && x != a[0];
        assert x in b[1..] <==> x in b && x != b[0];
      }
      SortedUnique(a[1..], b[1..], le);
    }
  }

  /** Lexicographic order of strings. */
  predicate StringLe(a: string, b: string) {
    a == [] || (b != [] && (a[0] < b[0] || (a[0] == b[0] && StringLe(a[1..], b[1..]))))
  }

  lemma {:induction false} StringLeTotal(a: string, b: string)
    ensures StringLe(a, b) || StringLe(b, a)
    ensures StringLe(a, b) && StringLe(b, a) ==> a == b
  {
    if a != [] && b != [] && a[0] == b[0] {
      StringLeTotal(a[1..], b[1..]);
      assert a == [a[0]] + a[1..] && b == [b[0]] + b[1..];
    }
  }

  lemma {:induction false} StringLeTransitive(a: string, b: string, c: string)
    requires StringLe(a, b) && StringLe(b, c)
    ensures StringLe(a, c)
  {
    if a != [] && a[0] == b[0] == c[0] {
      StringLeTransitive(a[1..], b[1..], c[1..]);
    }
  }
}
