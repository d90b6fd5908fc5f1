/** Sums, index ranges and duplicate-freedom over sequences.

    `Sum` adds a sequence up and `SumAt` adds the entries that a list of positions names; both are
    unchanged by rearranging, which is how loops that visit cities in sorted order are compared
    with totals over all of them. `Distinct` says that a sequence repeats nothing, and its lemmas
    translate between that, sets and multisets. */
module Sums {
  import Sorting

  function Sum(s: seq<int>): int
  {
    if s == [] then 0 else s[0] + Sum(s[1..])
  }

  lemma {:induction false} SumSplit(s: seq<int>, t: seq<int>)
    ensures Sum(s + t) == Sum(s) + Sum(t)
  {
    if s == [] {
      assert s + t == t;
    } else {
      SumSplit(s[1..], t);
      assert (s + t)[1..] == s[1..] + t;
    }
  }

  lemma {:induction false} SumUpdate(s: seq<int>, i: nat, x: int)
    requires i < |s|
    ensures Sum(s[i := x]) == Sum(s) - s[i] + x
  {
    if i == 0 {
      assert s[0 := x][1..] == s[1..];
    } else {
      SumUpdate(s[1..], i - 1, x);
      assert s[i := x][1..] == s[1..][i - 1 := x];
    }
  }

  lemma {:induction false} SumMonotone(s: seq<int>, t: seq<int>)
    requires |s| == |t| && forall i | 0 <= i < |s| :: s[i] <= t[i]
    ensures Sum(s) <= Sum(t)
  {
    if s == [] {
    } else {
      SumMonotone(s[1..], t[1..]);
    }
  }

  lemma {:induction false} SumOf(s: seq<int>, c: int)
    requires forall i | 0 <= i < |s| :: s[i] == c
    ensures Sum(s) == c * |s|
  {
    if s == [] {
    } else {
      SumOf(s[1..], c);
    }
  }

  predicate Distinct<T(==)>(s: seq<T>)
  {
    forall i, j | 0 <= i < j < |s| :: s[i] != s[j]
  }

  function Range(n: nat): (r: seq<nat>)
    ensures |r| == n && forall i | 0 <= i < n :: r[i] == i
  {
    seq(n, i => i)
  }

  lemma {:induction false} DistinctIsSet<T>(s: seq<T>)
    requires Distinct(s)
    ensures forall x | x in s :: multiset(s)[x] == 1
  {
    if s == [] {
    } else {
      DistinctIsSet(s[1..]);
      assert s == [s[0]] + s[1..];
      assert s[0] !in s[1..];
    }
  }

  lemma {:induction false} SetIsDistinct<T>(s: seq<T>)
    requires forall x | x in s :: multiset(s)[x] == 1
    ensures Distinct(s)
  {
    if s == [] {
    } else {
      assert s == [s[0]] + s[1..];
      forall x | x in s[1..] ensures multiset(s[1..])[x] == 1 {
        assert x in s;
        assert x in multiset(s[1..]);
      }
      SetIsDistinct(s[1..]);
      assert s[0] in s;
      assert s[0] in s[1..] <==> s[0] in multiset(s[1..]);
    }
  }

  /** Rearranging a duplicate-free sequence leaves it duplicate-free. */
  lemma DistinctRearranged<T>(s: seq<T>, t: seq<T>)
    requires Distinct(s) && multiset(s) == multiset(t)
    ensures Distinct(t)
    ensures forall x :: x in t <==> x in s
  {
    DistinctIsSet(s);
    forall x ensures x in t <==> x in s {
      assert x in t <==> x in multiset(t);
      assert x in s <==> x in multiset(s);
    }
    SetIsDistinct(t);
  }

  /** The sum of the entries of `c` that `at` lists; positions outside `c` count nothing. */
  function SumAt(c: seq<int>, at: seq<nat>): int
  {
    if at == [] then 0 else (if at[0] < |c| then c[at[0]] else 0) + SumAt(c, at[1..])
  }

  lemma {:induction false} SumAtSplit(c: seq<int>, a: seq<nat>, b: seq<nat>)
    ensures SumAt(c, a + b) == SumAt(c, a) + SumAt(c, b)
  {
    if a == [] {
      assert a + b == b;
    } else {
      assert (a + b)[1..] == a[1..] + b;
      SumAtSplit(c, a[1..], b);
    }
  }

  lemma {:induction false} SumAtRange(c: seq<int>, n: nat)
    requires n <= |c|
    ensures SumAt(c, Range(n)) == Sum(c[..n])
  {
    if n == 0 {
    } else {
      SumAtRange(c, n - 1);
      assert Range(n) == Range(n - 1) + [n - 1];
      SumAtSplit(c, Range(n - 1), [n - 1]);
      assert c[..n] == c[..n - 1] + [c[n - 1]];
      SumSplit(c[..n - 1], [c[n - 1]]);
    }
  }

  lemma SumAtWithout(c: seq<int>, b: seq<nat>, k: nat)
    requires k < |b|
    ensures SumAt(c, b) == SumAt(c, b[..k] + b[k + 1..]) + SumAt(c, [b[k]])
  {
    SumAtSplit(c, b[..k], b[k + 1..]);
    SumAtSplit(c, [b[k]], b[k + 1..]);
    SumAtSplit(c, b[..k], [b[k]] + b[k + 1..]);
    assert b == b[..k] + ([b[k]] + b[k + 1..]);
  }

  lemma {:induction false} SumAtRearranged(c: seq<int>, a: seq<nat>, b: seq<nat>)
    requires multiset(a) == multiset(b)
    ensures SumAt(c, a) == SumAt(c, b)
  {
    if a == [] {
      assert |multiset(b)| == 0;
    } else {
      assert a[0] in multiset(b);
      var k :| 0 <= k < |b| && b[k] == a[0];
      Sorting.Without(a, 0);
      Sorting.Without(b, k);
      SumAtWithout(c, a, 0);
      SumAtWithout(c, b, k);
      SumAtRearranged(c, a[..0] + a[1..], b[..k] + b[k + 1..]);
    }
  }

  /** A subset has no more members, and as many only if it is the whole set. */
  lemma {:induction false} SubsetSize<T>(a: set<T>, b: set<T>)
    requires a <= b
    ensures |a| <= |b| && (|a| == |b| <==> a == b)
  {
    if a == {} {
    } else {
      var x :| x in a;
      SubsetSize(a - {x}, b - {x});
      assert a == (a - {x}) + {x} && b == (b - {x}) + {x};
    }
  }
}
