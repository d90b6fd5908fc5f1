/** List comprehensions over sequences.

    `Where` is a comprehension with a condition and no change to the elements; `Take` and `Drop` are
    the slices `s[:n]` and `s[n:]` for bounds that are not negative. The lemmas say how `Where`
    commutes with concatenation and prefixes and that a condition and its negation split a list. */
module Lists {
  import opened Sums

  /** The elements that satisfy `p`, in order. */
  function Where<T>(s: seq<T>, p: T -> bool): (r: seq<T>)
    ensures forall x | x in r :: x in s && p(x)
    ensures forall x | x in s && p(x) :: x in r
    ensures |r| <= |s|
  {
    if s == [] then []
    else if p(s[0]) then [s[0]] + Where(s[1..], p)
    else Where(s[1..], p)
  }

  lemma {:induction false} WhereDistinct<T>(s: seq<T>, p: T -> bool)
    requires Distinct(s)
    ensures Distinct(Where(s, p))
  {
    if s == [] {
    } else {
      WhereDistinct(s[1..], p);
      assert s[0] !in s[1..];
    }
  }

  /** A condition and its negation split a list. */
  lemma {:induction false} WhereSplits<T>(s: seq<T>, p: T -> bool, q: T -> bool)
    requires forall x | x in s :: q(x) <==> !p(x)
    ensures multiset(Where(s, p)) + multiset(Where(s, q)) == multiset(s)
    ensures |Where(s, p)| + |Where(s, q)| == |s|
  {
    if s == [] {
    } else {
      WhereSplits(s[1..], p, q);
      assert s == [s[0]] + s[1..];
    }
  }

  lemma {:induction false} WhereAppend<T>(s: seq<T>, t: seq<T>, p: T -> bool)
    ensures Where(s + t, p) == Where(s, p) + Where(t, p)
  {
    if s == [] {
      assert s + t == t;
    } else {
      assert (s + t)[0] == s[0] && (s + t)[1..] == s[1..] + t;
      WhereAppend(s[1..], t, p);
    }
  }

  lemma WhereGrows<T>(s: seq<T>, p: T -> bool, i: nat)
    requires i < |s|
    ensures Where(s[..i + 1], p) == Where(s[..i], p) + if p(s[i]) then [s[i]] else []
  {
    assert s[..i + 1] == s[..i] + [s[i]];
    WhereAppend(s[..i], [s[i]], p);
  }

  lemma WherePrefix<T>(s: seq<T>, p: T -> bool, i: nat)
    requires i <= |s|
    ensures Where(s[..i], p) <= Where(s, p)
  {
    assert s == s[..i] + s[i..];
    WhereAppend(s[..i], s[i..], p);
  }

  lemma {:induction false} WhereSame<T>(s: seq<T>, p: T -> bool, q: T -> bool)
    requires forall x | x in s :: p(x) <==> q(x)
    ensures Where(s, p) == Where(s, q)
  {
    if s == [] {
    } else {
      WhereSame(s[1..], p, q);
    }
  }

  lemma {:induction false} WhereAll<T>(s: seq<T>, p: T -> bool)
    requires forall x | x in s :: p(x)
    ensures Where(s, p) == s
  {
    if s == [] {
    } else {
      WhereAll(s[1..], p);
    }
  }

  lemma {:induction false} WhereNone<T>(s: seq<T>, p: T -> bool)
    requires forall x | x in s :: !p(x)
    ensures Where(s, p) == []
  {
    if s == [] {
    } else {
      WhereNone(s[1..], p);
    }
  }

  /** The slice `s[:n]`, for a bound that is not negative. */
  function Take<T>(s: seq<T>, n: nat): (r: seq<T>)
    ensures r <= s && |r| == if n < |s| then n else |s|
  {
    if n < |s| then s[..n] else s
  }

  function Drop<T>(s: seq<T>, n: nat): seq<T> { if n < |s| then s[n..] else [] }
}
