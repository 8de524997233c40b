/** List comprehensions: the order-keeping filter, and what it keeps. */
module Sequences {
  import opened Sorting

  function Filter<T>(p: T -> bool, s: seq<T>): seq<T> {
    if s == [] then []
    else Filter(p, s[..|s| - 1]) + if p(s[|s| - 1]) then [s[|s| - 1]] else []
  }

  lemma Snoc<T>(s: seq<T>, i: nat)
    requires i < |s|
    ensures s[..i + 1] == s[..i] + [s[i]] && s[..|s|] == s
  {
  }

  lemma RemoveAt<T>(s: seq<T>, k: nat)
    requires k < |s|
    ensures multiset(s) == multiset(s[..k] + s[k + 1..]) + multiset{s[k]}
  {
    Snoc(s, k);
    assert s == s[..k + 1] + s[k + 1..];
  }

  lemma FilterStep<T>(p: T -> bool, s: seq<T>, last: T)
    ensures Filter(p, s + [last]) == Filter(p, s) + if p(last) then [last] else []
  {
    assert (s + [last])[..|s|] == s;
  }

  lemma {:induction false} FilterKeeps<T>(p: T -> bool, s: seq<T>, x: T)
    ensures x in Filter(p, s) <==> x in s && p(x)
  {
    if s != [] {
      FilterKeeps(p, s[..|s| - 1], x);
      Snoc(s, |s| - 1);
    }
  }

  /** A sorted list stays sorted when some of its first `n` are dropped. */
  lemma FrontFilterSorted<T>(less: (T, T) -> bool, p: T -> bool, s: seq<T>, n: nat)
    requires n <= |s| && Sorted(less, s)
    ensures Sorted(less, Filter(p, s[..n]) + s[n..])
  {
    var kept, rest := Filter(p, s[..n]), s[n..];
    FilterSorted(less, p, s[..n]);
    forall i, j | 0 <= i < |kept| && 0 <= j < |rest| ensures less(kept[i], rest[j]) {
      FilterKeeps(p, s[..n], kept[i]);
    }
  }

  lemma {:induction false} FilterEmpty<T>(p: T -> bool, s: seq<T>)
    ensures Filter(p, s) == [] <==> forall i :: 0 <= i < |s| ==> !p(s[i])
    ensures |Filter(p, s)| <= |s|
  {
    if s != [] {
      FilterEmpty(p, s[..|s| - 1]);
    }
  }

  /** A filtered list keeps its order. */
  lemma {:induction false} FilterSorted<T>(less: (T, T) -> bool, p: T -> bool, s: seq<T>)
    requires Sorted(less, s)
    ensures Sorted(less, Filter(p, s))
  {
    if s != [] {
      var n := |s| - 1;
      FilterSorted(less, p, s[..n]);
      var kept := Filter(p, s[..n]);
      forall i | 0 <= i < |kept| ensures less(kept[i], s[n]) {
        FilterKeeps(p, s[..n], kept[i]);
      }
    }
  }

  lemma OneOfTwo<T>(a: seq<T>, b: seq<T>, s: seq<T>, x: T)
    requires multiset(a) + multiset(b) == multiset(s)
    ensures multiset(a + [x]) + multiset(b + []) == multiset(s + [x])
    ensures multiset(a + []) + multiset(b + [x]) == multiset(s + [x])
  {
    assert a + [] == a && b + [] == b;
    assert multiset(s + [x]) == multiset(a) + multiset(b) + multiset{x};
  }

  lemma {:induction false} FilterPartition<T>(p: T -> bool, q: T -> bool, s: seq<T>)
    requires forall i :: 0 <= i < |s| ==> q(s[i]) == !p(s[i])
    ensures multiset(Filter(p, s)) + multiset(Filter(q, s)) == multiset(s)
  {
    if s != [] {
      var n := |s| - 1;
      FilterPartition(p, q, s[..n]);
      Snoc(s, n);
      OneOfTwo(Filter(p, s[..n]), Filter(q, s[..n]), s[..n], s[n]);
    }
  }
}
