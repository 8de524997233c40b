/** The stable `sorted(..., key=...)` the Python code relies on, and why a strictly sorted list is canonical. */
module Sorting {
  import opened Common

  /** `less` is a strict total order on the elements of `xs`. */
  ghost predicate TotalOn<T(!new)>(less: (T, T) -> bool, xs: set<T>) {
    && (forall x, y :: x in xs && y in xs && less(x, y) ==> x != y && !less(y, x))
    && (forall x, y :: x in xs && y in xs && x != y ==> less(x, y) || less(y, x))
    && (forall x, y, z :: x in xs && y in xs && z in xs && less(x, y) && less(y, z) ==> less(x, z))
  }

  ghost predicate Sorted<T>(less: (T, T) -> bool, s: seq<T>) {
    forall i, j :: 0 <= i < j < |s| ==> less(s[i], s[j])
  }

  ghost predicate Distinct<T>(s: seq<T>) {
    forall i, j :: 0 <= i < j < |s| ==> s[i] != s[j]
  }

  ghost function Elements<T>(s: seq<T>): set<T> {
    set x | x in s
  }

  function Insert<T(!new)>(less: (T, T) -> bool, x: T, s: seq<T>): (r: seq<T>)
    ensures multiset(r) == multiset{x} + multiset(s)
    ensures forall y :: y in r <==> y == x || y in s
    ensures |r| == |s| + 1
  {
    if s == [] || !less(s[0], x) then [x] + s
    else
      assert s == [s[0]] + s[1..];
      [s[0]] + Insert(less, x, s[1..])
  }

  function Sort<T(!new)>(less: (T, T) -> bool, s: seq<T>): (r: seq<T>)
    ensures multiset(r) == multiset(s)
    ensures forall y :: y in r <==> y in s
    ensures |r| == |s|
  {
    if s == [] then []
    else
      assert s == [s[0]] + s[1..];
      Insert(less, s[0], Sort(less, s[1..]))
  }

  lemma {:induction false} InsertSorted<T(!new)>(less: (T, T) -> bool, x: T, s: seq<T>)
    requires TotalOn(less, Elements(s) + {x}) && Sorted(less, s) && x !in s
    ensures Sorted(less, Insert(less, x, s))
  {
    if s != [] && less(s[0], x) {
      assert Elements(s[1..]) + {x} <= Elements(s) + {x};
      InsertSorted(less, x, s[1..]);
      assert forall y :: y in s[1..] ==> less(s[0], y);
      assert Insert(less, x, s) == [s[0]] + Insert(less, x, s[1..]);
    } else if s != [] {
      assert x in Elements(s) + {x} && s[0] in Elements(s) + {x};
      assert less(x, s[0]);
      forall j | 0 <= j < |s| ensures less(x, s[j]) {
        assert s[j] in Elements(s) + {x};
        if j > 0 { assert less(s[0], s[j]); }
      }
      assert Insert(less, x, s) == [x] + s;
    }
  }

  /** Sorting distinct elements by a total order gives a strictly sorted list. */
  lemma {:induction false} SortSorted<T(!new)>(less: (T, T) -> bool, s: seq<T>)
    requires TotalOn(less, Elements(s)) && Distinct(s)
    ensures Sorted(less, Sort(less, s))
  {
    if s != [] {
      var rest := Sort(less, s[1..]);
      assert Elements(s[1..]) <= Elements(s);
      SortSorted(less, s[1..]);
      assert Elements(rest) + {s[0]} <= Elements(s);
      assert s[0] !in s[1..];
      InsertSorted(less, s[0], rest);
    }
  }

  lemma LeastUnique<T(!new)>(less: (T, T) -> bool, xs: set<T>, x: T, y: T)
    requires TotalOn(less, xs) && x in xs && y in xs
    requires forall z :: z in xs && z != x ==> less(x, z)
    requires forall z :: z in xs && z != y ==> less(y, z)
    ensures x == y
  {
  }

  /** A strictly sorted list is determined by its elements. */
  lemma {:induction false} SortedUnique<T(!new)>(less: (T, T) -> bool, a: seq<T>, b: seq<T>)
    requires TotalOn(less, Elements(a)) && Elements(a) == Elements(b)
    requires Sorted(less, a) && Sorted(less, b)
    ensures a == b
  {
    assert b != [] ==> b[0] in Elements(b);
    if a != [] {
      assert a[0] in Elements(a) && a[0] in Elements(b);
      assert b != [] && b[0] in Elements(a);
      LeastUnique(less, Elements(a), a[0], b[0]);
      forall x ensures x in Elements(a[1..]) <==> x in Elements(b[1..]) {
        if x in Elements(a[1..]) { assert x in Elements(b) && x != a[0]; }
        if x in Elements(b[1..]) { assert x in Elements(a) && x != b[0]; }
      }
      assert Elements(a[1..]) <= Elements(a);
      SortedUnique(less, a[1..], b[1..]);
    }
  }

  lemma StringsTotal(xs: set<string>)
    ensures TotalOn(StringLess, xs)
  {
    forall x, y, z | x in xs && y in xs && z in xs && StringLess(x, y) && StringLess(y, z) ensures StringLess(x, z) {
      StringLessTransitive(x, y, z);
    }
    forall x, y | x in xs && y in xs
      ensures StringLess(x, y) ==> x != y && !StringLess(y, x)
      ensures x != y ==> StringLess(x, y) || StringLess(y, x)
    {
      StringLessTotal(x, y);
    }
  }
}
