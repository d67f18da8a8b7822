/** Stable insertion sort over an arbitrary total preorder: the reference meaning of Python's
    `sorted` and of draining a (key, arrival) priority queue. */
module Ordering {
  import opened Basics

  ghost predicate TotalPreorder<T(!new)>(le: (T, T) -> bool) {
    && (forall x, y :: le(x, y) || le(y, x))
    && (forall x, y, z :: le(x, y) && le(y, z) ==> le(x, z))
  }

  ghost predicate Sorted<T>(le: (T, T) -> bool, s: seq<T>) {
    forall i, j :: 0 <= i < j < |s| ==> le(s[i], s[j])
  }

  /** Insert `x` behind every element that is not above it. */
  function Insert<T>(le: (T, T) -> bool, s: seq<T>, x: T): (r: seq<T>)
    ensures |r| == |s| + 1
  {
    if s == [] || le(s[|s| - 1], x) then s + [x]
    else Insert(le, s[..|s| - 1], x) + [s[|s| - 1]]
  }

  function StableSort<T>(le: (T, T) -> bool, s: seq<T>): (r: seq<T>)
    ensures |r| == |s|
  {
    if s == [] then [] else Insert(le, StableSort(le, s[..|s| - 1]), s[|s| - 1])
  }

  lemma {:induction false} InsertMultiset<T>(le: (T, T) -> bool, s: seq<T>, x: T)
    ensures multiset(Insert(le, s, x)) == multiset(s) + multiset{x}
  {
    if s == [] || le(s[|s| - 1], x) {
    } else {
      InsertMultiset(le, s[..|s| - 1], x);
      assert s == s[..|s| - 1] + [s[|s| - 1]];
    }
  }

  lemma {:induction false} InsertSorted<T(!new)>(le: (T, T) -> bool, s: seq<T>, x: T)
    requires TotalPreorder(le) && Sorted(le, s)
    ensures Sorted(le, Insert(le, s, x))
  {
    if s == [] || le(s[|s| - 1], x) {
      var r := Insert(le, s, x);
      forall i, j | 0 <= i < j < |r| ensures le(r[i], r[j]) {
        if j == |s| {
          assert r[j] == x;
          assert i < |s| - 1 ==> le(s[i], s[|s| - 1]);
        }
      }
    } else {
      var front, last := s[..|s| - 1], s[|s| - 1];
      InsertSorted(le, front, x);
      InsertMultiset(le, front, x);
      var inner := Insert(le, front, x);
      forall y | y in inner ensures le(y, last) {
        assert y in multiset(inner);
        if y in front {
          var k :| 0 <= k < |front| && front[k] == y;
          assert le(s[k], s[|s| - 1]);
        }
      }
    }
  }

  /** The sort returns a sorted permutation of its input. */
  lemma {:induction false} StableSortPermutes<T(!new)>(le: (T, T) -> bool, s: seq<T>)
    requires TotalPreorder(le)
    ensures multiset(StableSort(le, s)) == multiset(s)
    ensures Sorted(le, StableSort(le, s))
  {
    if s != [] {
      var front, last := s[..|s| - 1], s[|s| - 1];
      StableSortPermutes(le, front);
      InsertMultiset(le, StableSort(le, front), last);
      InsertSorted(le, StableSort(le, front), last);
      assert s == front + [last];
    }
  }

  /** Elements of one class: neither is strictly above the other. */
  predicate Tied<T>(le: (T, T) -> bool, x: T, y: T) {
    le(x, y) && le(y, x)
  }

  function TiedWith<T>(le: (T, T) -> bool, s: seq<T>, x: T): seq<T> {
    if s == [] then []
    else TiedWith(le, s[..|s| - 1], x) + (if Tied(le, s[|s| - 1], x) then [s[|s| - 1]] else [])
  }

  lemma {:induction false} InsertTied<T(!new)>(le: (T, T) -> bool, s: seq<T>, y: T, x: T)
    requires TotalPreorder(le) && Sorted(le, s)
    ensures TiedWith(le, Insert(le, s, y), x)
         == TiedWith(le, s, x) + (if Tied(le, y, x) then [y] else [])
  {
    if s == [] || le(s[|s| - 1], y) {
      assert (s + [y])[..|s|] == s;
    } else {
      var front, last := s[..|s| - 1], s[|s| - 1];
      InsertTied(le, front, y, x);
      var r := Insert(le, front, y);
      assert (r + [last])[..|r|] == r;
      assert Insert(le, s, y) == r + [last];
      assert !(Tied(le, y, x) && Tied(le, last, x));
    }
  }

  /** Stability: elements that tie keep the order in which they arrived. */
  lemma {:induction false} StableSortStable<T(!new)>(le: (T, T) -> bool, s: seq<T>, x: T)
    requires TotalPreorder(le)
    ensures TiedWith(le, StableSort(le, s), x) == TiedWith(le, s, x)
  {
    if s != [] {
      var front, last := s[..|s| - 1], s[|s| - 1];
      StableSortStable(le, front, x);
      StableSortPermutes(le, front);
      InsertTied(le, StableSort(le, front), last, x);
    }
  }

  /** An element that is not below anything in `low` and not above anything in `high` lands
      between the two runs. */
  lemma {:induction false} InsertAfter<T>(le: (T, T) -> bool, low: seq<T>, high: seq<T>, x: T)
    requires forall y :: y in low ==> le(y, x)
    ensures Insert(le, low + high, x) == low + Insert(le, high, x)
  {
    if high == [] {
      assert low + high == low;
      assert Insert(le, high, x) == [x];
    } else {
      var all, last := low + high, high[|high| - 1];
      assert all[|all| - 1] == last && all[..|all| - 1] == low + high[..|high| - 1];
      if le(last, x) {
      } else {
        InsertAfter(le, low, high[..|high| - 1], x);
      }
    }
  }

  lemma {:induction false} InsertBelow<T>(le: (T, T) -> bool, high: seq<T>, x: T)
    requires forall y :: y in high ==> !le(y, x)
    ensures Insert(le, high, x) == [x] + high
  {
    if high == [] {
    } else {
      InsertBelow(le, high[..|high| - 1], x);
      assert [x] + high == [x] + high[..|high| - 1] + [high[|high| - 1]];
    }
  }

  lemma {:induction false} SortSorted<T>(le: (T, T) -> bool, s: seq<T>)
    requires Sorted(le, s)
    ensures StableSort(le, s) == s
  {
    if s != [] {
      var front, last := s[..|s| - 1], s[|s| - 1];
      SortSorted(le, front);
      if front != [] {
        assert le(s[|s| - 2], s[|s| - 1]);
      }
      assert s == front + [last];
    }
  }

  lemma BelowLast<T>(le: (T, T) -> bool, s: seq<T>, x: T)
    requires Sorted(le, s) && x in s && le(x, x)
    ensures s != [] && le(x, s[|s| - 1])
  {
    var i :| 0 <= i < |s| && s[i] == x;
    assert i < |s| - 1 ==> le(s[i], s[|s| - 1]);
  }

  lemma FrontMultiset<T>(s: seq<T>, last: T)
    requires s != [] && last == s[|s| - 1]
    ensures multiset(s[..|s| - 1]) == multiset(s) - multiset{last}
  {
    assert s == s[..|s| - 1] + [last];
  }

  /** Only equal elements tie. */
  ghost predicate Strict<T(!new)>(le: (T, T) -> bool, m: multiset<T>) {
    forall x, y :: x in m && y in m && Tied(le, x, y) ==> x == y
  }

  lemma SameLast<T(!new)>(le: (T, T) -> bool, a: seq<T>, b: seq<T>, x: T, y: T)
    requires Sorted(le, a) && Sorted(le, b) && a != [] && x == a[|a| - 1] && b != [] && y == b[|b| - 1]
    requires x in b && y in a && le(x, x) && le(y, y) && Strict(le, multiset(a))
    ensures x == y
  {
    BelowLast(le, b, x);
    BelowLast(le, a, y);
    assert x in multiset(a) && y in multiset(a);
  }

  lemma SameLength<T>(a: seq<T>, b: seq<T>)
    requires multiset(a) == multiset(b)
    ensures |a| == |b| && forall x :: x in a <==> x in b
  {
    assert |multiset(a)| == |a| && |multiset(b)| == |b|;
    assert forall x :: x in a <==> x in multiset(a);
    assert forall x :: x in b <==> x in multiset(b);
  }

  lemma JoinLast<T>(a: seq<T>, b: seq<T>)
    requires a != [] && |a| == |b| && a[|a| - 1] == b[|b| - 1] && a[..|a| - 1] == b[..|b| - 1]
    ensures a == b
  {
    assert a == a[..|a| - 1] + [a[|a| - 1]];
  }

  /** Sorted permutations of one another are equal if only equal elements tie. */
  lemma {:induction false} SortedUnique<T(!new)>(le: (T, T) -> bool, a: seq<T>, b: seq<T>)
    requires (forall x :: le(x, x)) && Sorted(le, a) && Sorted(le, b) && multiset(a) == multiset(b)
    requires Strict(le, multiset(a))
    ensures a == b
    decreases |a|
  {
    SameLength(a, b);
    if a != [] {
      var n := |a| - 1;
      var x, y := a[n], b[n];
      SameLast(le, a, b, x, y);
      FrontMultiset(a, x);
      FrontMultiset(b, y);
      SortedUnique(le, a[..n], b[..n]);
      JoinLast(a, b);
    }
  }

  /** `s` lists the elements of `all`, each once, in order. */
  ghost predicate Lists<T(!new)>(le: (T, T) -> bool, s: seq<T>, all: set<T>) {
    Sorted(le, s) && Distinct(s) && forall x :: x in s <==> x in all
  }

  lemma {:induction false} DistinctMultiset<T>(s: seq<T>)
    requires Distinct(s)
    ensures forall x :: multiset(s)[x] == if x in s then 1 else 0
  {
    if s != [] {
      DistinctMultiset(s[..|s| - 1]);
      assert s == s[..|s| - 1] + [s[|s| - 1]];
    }
  }

  lemma {:induction false} MultisetDistinct<T>(s: seq<T>)
    requires forall x :: multiset(s)[x] <= 1
    ensures Distinct(s)
  {
    if s != [] {
      var last := s[|s| - 1];
      FrontMultiset(s, last);
      MultisetDistinct(s[..|s| - 1]);
      assert last !in multiset(s[..|s| - 1]);
    }
  }

  lemma ListsUnique<T(!new)>(le: (T, T) -> bool, a: seq<T>, b: seq<T>, all: set<T>)
    requires TotalPreorder(le) && Lists(le, a, all) && Lists(le, b, all)
    requires forall x, y :: x in all && y in all && Tied(le, x, y) ==> x == y
    ensures a == b
  {
    DistinctMultiset(a);
    DistinctMultiset(b);
    assert multiset(a) == multiset(b);
    SortedUnique(le, a, b);
  }

  /** Sorting what has no repeats. */
  lemma SortLists<T(!new)>(le: (T, T) -> bool, s: seq<T>, all: set<T>)
    requires TotalPreorder(le) && Distinct(s) && forall x :: x in s <==> x in all
    ensures Lists(le, StableSort(le, s), all)
  {
    var r := StableSort(le, s);
    StableSortPermutes(le, s);
    DistinctMultiset(s);
    MultisetDistinct(r);
    forall x ensures x in r <==> x in all {
      assert x in r <==> x in multiset(r);
      assert x in s <==> x in multiset(s);
    }
  }

  lemma {:induction false} ListingExists<T(!new)>(le: (T, T) -> bool, all: set<T>)
    requires TotalPreorder(le)
    ensures exists s :: Lists(le, s, all)
    decreases |all|
  {
    var s := AnyOrder(all);
    SortLists(le, s, all);
  }

  lemma {:induction false} AnyOrder<T(!new)>(all: set<T>) returns (s: seq<T>)
    ensures Distinct(s) && forall x :: x in s <==> x in all
    decreases |all|
  {
    s := [];
    if all != {} {
      var x :| x in all;
      s := AnyOrder(all - {x});
      s := s + [x];
    }
  }

  /** The elements of a set in order. */
  ghost function Listed<T(!new)>(le: (T, T) -> bool, all: set<T>): (s: seq<T>)
    requires TotalPreorder(le)
    ensures Lists(le, s, all)
  {
    ListingExists(le, all);
    var s :| Lists(le, s, all); s
  }

  /** A total preorder on lists of characters: the one Python uses to compare strings. */
  predicate StringLeq(a: string, b: string) {
    a == [] || (b != [] && (a[0] < b[0] || (a[0] == b[0] && StringLeq(a[1..], b[1..]))))
  }

  lemma {:induction false} StringLeqTotal(a: string, b: string)
    ensures StringLeq(a, b) || StringLeq(b, a)
    ensures StringLeq(a, b) && StringLeq(b, a) ==> a == b
  {
    if a != [] && b != [] && a[0] == b[0] {
      StringLeqTotal(a[1..], b[1..]);
      assert a == [a[0]] + a[1..] && b == [b[0]] + b[1..];
    }
  }

  lemma {:induction false} StringLeqTransitive(a: string, b: string, c: string)
    requires StringLeq(a, b) && StringLeq(b, c)
    ensures StringLeq(a, c)
  {
    if a != [] && a[0] == b[0] && b[0] == c[0] {
      StringLeqTransitive(a[1..], b[1..], c[1..]);
    }
  }
}
