/** Python's stable `sorted`, with the facts about it that the other modules use. */
module Ordering {

  /** `a <= b` on Python strings: code point by code point. */
  predicate TextLeq(a: string, b: string) {
    a == "" || (b != "" && (a[0] < b[0] || (a[0] == b[0] && TextLeq(a[1..], b[1..]))))
  }

  ghost predicate TotalPreorder<T(!new)>(leq: (T, T) -> bool) {
    && (forall x, y :: leq(x, y) || leq(y, x))
    && (forall x, y, z :: leq(x, y) && leq(y, z) ==> leq(x, z))
  }

  ghost predicate Antisymmetric<T(!new)>(leq: (T, T) -> bool) {
    forall x, y :: leq(x, y) && leq(y, x) ==> x == y
  }

  ghost predicate Sorted<T>(xs: seq<T>, leq: (T, T) -> bool) {
    forall i, j :: 0 <= i < j < |xs| ==> leq(xs[i], xs[j])
  }

  ghost predicate NoDuplicates<T>(xs: seq<T>) {
    forall i, j :: 0 <= i < j < |xs| ==> xs[i] != xs[j]
  }

  function Insert<T>(x: T, sorted: seq<T>, leq: (T, T) -> bool): seq<T> {
    if sorted == [] || leq(x, sorted[0]) then [x] + sorted
    else [sorted[0]] + Insert(x, sorted[1..], leq)
  }

  /** `sorted(xs)` for the order `leq`: equal elements keep their order. */
  function Sort<T>(xs: seq<T>, leq: (T, T) -> bool): seq<T> {
    if xs == [] then [] else Insert(xs[0], Sort(xs[1..], leq), leq)
  }

  lemma {:induction false} TextLeqTotal(a: string, b: string)
    ensures TextLeq(a, b) || TextLeq(b, a)
    ensures TextLeq(a, b) && TextLeq(b, a) ==> a == b
  {
    if a != "" && b != "" && a[0] == b[0] {
      TextLeqTotal(a[1..], b[1..]);
      assert a == [a[0]] + a[1..] && b == [b[0]] + b[1..];
    }
  }

  lemma {:induction false} TextLeqTransitive(a: string, b: string, c: string)
    requires TextLeq(a, b) && TextLeq(b, c)
    ensures TextLeq(a, c)
  {
    if a != "" && a[0] == b[0] == c[0] {
      TextLeqTransitive(a[1..], b[1..], c[1..]);
    }
  }

  lemma TextLeqIsOrder()
    ensures TotalPreorder(TextLeq) && Antisymmetric(TextLeq)
  {
    forall a, b ensures (TextLeq(a, b) || TextLeq(b, a)) && (TextLeq(a, b) && TextLeq(b, a) ==> a == b) {
      TextLeqTotal(a, b);
    }
    forall a, b, c | TextLeq(a, b) && TextLeq(b, c) ensures TextLeq(a, c) {
      TextLeqTransitive(a, b, c);
    }
  }

  lemma {:induction false} InsertSorted<T(!new)>(x: T, sorted: seq<T>, leq: (T, T) -> bool)
    requires TotalPreorder(leq) && Sorted(sorted, leq)
    ensures multiset(Insert(x, sorted, leq)) == multiset{x} + multiset(sorted)
    ensures |Insert(x, sorted, leq)| == |sorted| + 1
    ensures Sorted(Insert(x, sorted, leq), leq)
  {
    if sorted == [] || leq(x, sorted[0]) {
      assert Insert(x, sorted, leq) == [x] + sorted;
    } else {
      var rest := Insert(x, sorted[1..], leq);
      InsertSorted(x, sorted[1..], leq);
      assert sorted == [sorted[0]] + sorted[1..];
      forall e | e in rest ensures leq(sorted[0], e) {
        assert e in multiset(rest);
        if e != x {
          assert e in multiset(sorted[1..]);
        }
      }
    }
  }

  lemma {:induction false} SortSorts<T(!new)>(xs: seq<T>, leq: (T, T) -> bool)
    requires TotalPreorder(leq)
    ensures Sorted(Sort(xs, leq), leq)
    ensures multiset(Sort(xs, leq)) == multiset(xs)
    ensures |Sort(xs, leq)| == |xs|
  {
    if xs != [] {
      SortSorts(xs[1..], leq);
      InsertSorted(xs[0], Sort(xs[1..], leq), leq);
      assert xs == [xs[0]] + xs[1..];
    }
  }

  lemma SortMembers<T(!new)>(xs: seq<T>, leq: (T, T) -> bool)
    requires TotalPreorder(leq)
    ensures forall x :: x in Sort(xs, leq) <==> x in xs
  {
    SortSorts(xs, leq);
    assert forall x :: x in Sort(xs, leq) <==> x in multiset(Sort(xs, leq));
    assert forall x :: x in xs <==> x in multiset(xs);
  }

  lemma {:induction false} NoDuplicatesCounts<T>(xs: seq<T>)
    requires forall x :: multiset(xs)[x] <= 1
    ensures NoDuplicates(xs)
  {
    if xs != [] {
      var rest := multiset(xs[1..]);
      assert xs == [xs[0]] + xs[1..];
      assert multiset(xs) == multiset{xs[0]} + rest;
      forall x ensures rest[x] <= 1 {
        assert multiset(xs)[x] <= 1;
      }
      NoDuplicatesCounts(xs[1..]);
      forall i, j | 0 <= i < j < |xs| ensures xs[i] != xs[j] {
        assert xs[j] == xs[1..][j - 1];
        if i == 0 {
          assert xs[j] in rest && multiset(xs)[xs[0]] <= 1;
        } else {
          assert xs[i] == xs[1..][i - 1];
        }
      }
    }
  }

  lemma {:induction false} CountsNoDuplicates<T>(xs: seq<T>)
    requires NoDuplicates(xs)
    ensures forall x :: multiset(xs)[x] <= 1
  {
    if xs != [] {
      assert xs == [xs[0]] + xs[1..];
      CountsNoDuplicates(xs[1..]);
      assert xs[0] !in xs[1..];
      assert xs[0] !in multiset(xs[1..]);
    }
  }

  lemma SortKeepsDistinct<T(!new)>(xs: seq<T>, leq: (T, T) -> bool)
    requires TotalPreorder(leq) && NoDuplicates(xs)
    ensures NoDuplicates(Sort(xs, leq))
  {
    SortSorts(xs, leq);
    CountsNoDuplicates(xs);
    NoDuplicatesCounts(Sort(xs, leq));
  }

  lemma HeadIsLeast<T(!new)>(xs: seq<T>, leq: (T, T) -> bool, x: T)
    requires TotalPreorder(leq) && Sorted(xs, leq) && x in multiset(xs)
    ensures leq(xs[0], x)
  {
  }

  /** A total order has one sorted arrangement of each multiset. */
  lemma {:induction false} SortedUnique<T(!new)>(xs: seq<T>, ys: seq<T>, leq: (T, T) -> bool)
    requires TotalPreorder(leq) && Antisymmetric(leq)
    requires Sorted(xs, leq) && Sorted(ys, leq) && multiset(xs) == multiset(ys)
    ensures xs == ys
  {
    if xs == [] {
      assert |multiset(ys)| == 0;
    } else {
      assert xs[0] in multiset(xs);
      assert |multiset(ys)| == |ys| == |xs|;
      assert ys[0] in multiset(ys);
      HeadIsLeast(xs, leq, ys[0]);
      HeadIsLeast(ys, leq, xs[0]);
      assert xs == [xs[0]] + xs[1..] && ys == [ys[0]] + ys[1..];
      assert multiset(xs[1..]) == multiset(xs) - multiset{xs[0]};
      assert multiset(ys[1..]) == multiset(ys) - multiset{xs[0]};
      SortedUnique(xs[1..], ys[1..], leq);
    }
  }

  function Elements<T(==)>(xs: seq<T>): set<T> {
    set x | x in xs
  }

  /** A duplicate-free sequence is as long as the set of its elements. */
  lemma {:induction false} DistinctSize<T>(xs: seq<T>)
    requires NoDuplicates(xs)
    ensures |Elements(xs)| == |xs|
  {
    if xs == [] {
      assert Elements(xs) == {};
    } else {
      DistinctSize(xs[1..]);
      assert xs == [xs[0]] + xs[1..];
      assert Elements(xs) == {xs[0]} + Elements(xs[1..]);
      assert xs[0] !in xs[1..];
    }
  }

  lemma {:induction false} LeastExists(s: set<string>)
    requires s != {}
    ensures exists x :: x in s && forall y :: y in s ==> TextLeq(x, y)
  {
    var x :| x in s;
    TextLeqTotal(x, x);
    if s != {x} {
      LeastExists(s - {x});
      var z :| z in s - {x} && forall y :: y in s - {x} ==> TextLeq(z, y);
      TextLeqTotal(x, z);
      if TextLeq(x, z) {
        forall y | y in s ensures TextLeq(x, y) {
          if y != x { TextLeqTransitive(x, z, y); }
        }
      } else {
        assert forall y :: y in s ==> TextLeq(z, y);
      }
    }
  }

  ghost function Least(s: set<string>): (x: string)
    requires s != {}
    ensures x in s && forall y :: y in s ==> TextLeq(x, y)
  {
    LeastExists(s);
    var x :| x in s && forall y :: y in s ==> TextLeq(x, y);
    x
  }

  /** `sorted(s)` for a set of strings. */
  ghost function SortedList(s: set<string>): seq<string> {
    if s == {} then [] else [Least(s)] + SortedList(s - {Least(s)})
  }

  lemma {:induction false} SortedListSorts(s: set<string>)
    ensures Elements(SortedList(s)) == s && |SortedList(s)| == |s|
    ensures Sorted(SortedList(s), TextLeq) && NoDuplicates(SortedList(s))
  {
    if s != {} {
      var x := Least(s);
      var rest := SortedList(s - {x});
      SortedListSorts(s - {x});
      ConsSorted(x, rest);
    }
  }

  lemma ConsSorted(x: string, rest: seq<string>)
    requires Sorted(rest, TextLeq) && NoDuplicates(rest)
    requires x !in Elements(rest) && forall y :: y in Elements(rest) ==> TextLeq(x, y)
    ensures Sorted([x] + rest, TextLeq) && NoDuplicates([x] + rest)
    ensures Elements([x] + rest) == {x} + Elements(rest)
  {
  }

  /** It is the only sorted, duplicate-free arrangement of the set. */
  lemma SortedListUnique(list: seq<string>)
    requires Sorted(list, TextLeq) && NoDuplicates(list)
    ensures SortedList(Elements(list)) == list
  {
    TextLeqIsOrder();
    SortedListSorts(Elements(list));
    SameElementsSameCounts(SortedList(Elements(list)), list);
    SortedUnique(SortedList(Elements(list)), list, TextLeq);
  }

  lemma SameElementsSameCounts<T>(xs: seq<T>, ys: seq<T>)
    requires NoDuplicates(xs) && NoDuplicates(ys) && Elements(xs) == Elements(ys)
    ensures multiset(xs) == multiset(ys)
  {
    CountsNoDuplicates(xs);
    CountsNoDuplicates(ys);
    forall x ensures multiset(xs)[x] == multiset(ys)[x] {
      assert x in multiset(xs) <==> x in Elements(xs);
      assert x in multiset(ys) <==> x in Elements(ys);
    }
  }
}
