/** The stable sort behind every `sorted` and `list.sort` call, and what may be used of it.

    `Sort` inserts from the back, so elements that compare equal keep their order, as Python's sort
    promises. The lemmas say that sorting keeps the elements, that the result is ordered when the
    comparison is total, and that an ordered arrangement is unique once equal rank means equal
    element. */
module Sorting {

  ghost predicate Total<T(!new)>(le: (T, T) -> bool)
  {
    && (forall a, b :: le(a, b) || le(b, a))
    && (forall a, b, c :: le(a, b) && le(b, c) ==> le(a, c))
  }

  ghost predicate Ordered<T>(s: seq<T>, le: (T, T) -> bool)
  {
    forall i, j | 0 <= i < j < |s| :: le(s[i], s[j])
  }

  function Insert<T>(x: T, s: seq<T>, le: (T, T) -> bool): seq<T>
  {
    if s == [] || le(x, s[0]) then [x] + s else [s[0]] + Insert(x, s[1..], le)
  }

  function Sort<T>(s: seq<T>, le: (T, T) -> bool): seq<T>
  {
    if s == [] then [] else Insert(s[0], Sort(s[1..], le), le)
  }

  lemma {:induction false} InsertKeeps<T>(x: T, s: seq<T>, le: (T, T) -> bool)
    ensures multiset(Insert(x, s, le)) == multiset{x} + multiset(s)
    ensures |Insert(x, s, le)| == |s| + 1
  {
    if s == [] || le(x, s[0]) {
    } else {
      InsertKeeps(x, s[1..], le);
      assert s == [s[0]] + s[1..];
    }
  }

  lemma {:induction false} InsertOrders<T(!new)>(x: T, s: seq<T>, le: (T, T) -> bool)
    requires Total(le) && Ordered(s, le)
    ensures Ordered(Insert(x, s, le), le)
  {
    if s == [] || le(x, s[0]) {
    } else {
      InsertOrders(x, s[1..], le);
      var r := Insert(x, s[1..], le);
      InsertKeeps(x, s[1..], le);
      forall j | 0 <= j < |r| ensures le(s[0], r[j]) {
        assert r[j] in multiset(r);
        if r[j] != x {
          assert r[j] in s[1..];
        }
      }
    }
  }

  lemma {:induction false} SortKeeps<T>(s: seq<T>, le: (T, T) -> bool)
    ensures multiset(Sort(s, le)) == multiset(s)
    ensures |Sort(s, le)| == |s|
  {
    if s == [] {
    } else {
      SortKeeps(s[1..], le);
      InsertKeeps(s[0], Sort(s[1..], le), le);
      assert s == [s[0]] + s[1..];
    }
  }

  lemma {:induction false} SortOrders<T(!new)>(s: seq<T>, le: (T, T) -> bool)
    requires Total(le)
    ensures Ordered(Sort(s, le), le)
  {
    if s == [] {
    } else {
      SortOrders(s[1..], le);
      InsertOrders(s[0], Sort(s[1..], le), le);
    }
  }

  /** Ranked by `second`, and by `first` among equals. */
  function Then<T>(second: (T, T) -> bool, first: (T, T) -> bool): (T, T) -> bool
  {
    (x: T, y: T) => second(x, y) && (second(y, x) ==> first(x, y))
  }

  lemma {:induction false} InsertStable<T(!new)>(x: T, s: seq<T>, second: (T, T) -> bool, first: (T, T) -> bool)
    requires Total(second) && Ordered(s, Then(second, first)) && forall y | y in s :: first(x, y)
    ensures Ordered(Insert(x, s, second), Then(second, first))
  {
    if s == [] || second(x, s[0]) {
      forall j | 0 <= j < |s| ensures second(x, s[j]) {
        assert j > 0 ==> Then(second, first)(s[0], s[j]);
      }
    } else {
      InsertStable(x, s[1..], second, first);
      var r := Insert(x, s[1..], second);
      InsertKeeps(x, s[1..], second);
      forall j | 0 <= j < |r| ensures Then(second, first)(s[0], r[j]) {
        assert r[j] in multiset(r);
        if r[j] != x {
          assert r[j] in s[1..];
        }
      }
    }
  }

  /** Sorting is stable: elements of equal rank keep the order they were in. */
  lemma {:induction false} SortStable<T(!new)>(s: seq<T>, second: (T, T) -> bool, first: (T, T) -> bool)
    requires Total(second) && Ordered(s, first)
    ensures Ordered(Sort(s, second), Then(second, first))
  {
    if s == [] {
    } else {
      SortStable(s[1..], second, first);
      SortKeeps(s[1..], second);
      SameMembers(Sort(s[1..], second), s[1..]);
      InsertStable(s[0], Sort(s[1..], second), second, first);
    }
  }

  lemma SameMembers<T>(s: seq<T>, t: seq<T>)
    requires multiset(s) == multiset(t)
    ensures |s| == |t|
    ensures forall x :: x in s <==> x in t
  {
    assert |multiset(s)| == |s| && |multiset(t)| == |t|;
    forall x ensures x in s <==> x in t {
      assert x in s <==> x in multiset(s);
      assert x in t <==> x in multiset(t);
    }
  }

  lemma SameHead<T>(s: seq<T>, t: seq<T>, le: (T, T) -> bool)
    requires Ordered(s, le) && Ordered(t, le) && multiset(s) == multiset(t) && s != []
    requires forall x, y | x in s && y in s && le(x, y) && le(y, x) :: x == y
    ensures t != [] && s[0] == t[0]
  {
    SameMembers(s, t);
    assert s[0] in t && t[0] in s;
    var i :| 0 <= i < |t| && t[i] == s[0];
    var j :| 0 <= j < |s| && s[j] == t[0];
    if i != 0 && j != 0 {
      assert le(t[0], t[i]) && le(s[0], s[j]);
    }
  }

  lemma TailMembers<T>(s: seq<T>)
    requires s != []
    ensures multiset(s[1..]) == multiset(s) - multiset{s[0]}
    ensures forall x | x in s[1..] :: x in s
  {
    assert s == [s[0]] + s[1..];
  }

  /** Two ordered arrangements of the same elements agree when equal rank means equal element. */
  lemma {:induction false} OrderedUnique<T>(s: seq<T>, t: seq<T>, le: (T, T) -> bool)
    requires Ordered(s, le) && Ordered(t, le) && multiset(s) == multiset(t)
    requires forall x, y | x in s && y in s && le(x, y) && le(y, x) :: x == y
    ensures s == t
  {
    SameMembers(s, t);
    if s == [] {
    } else {
      SameHead(s, t, le);
      TailMembers(s);
      TailMembers(t);
      OrderedUnique(s[1..], t[1..], le);
      assert s == [s[0]] + s[1..] && t == [t[0]] + t[1..];
    }
  }

  /** Taking the head of one arrangement out of another leaves two arrangements of the rest. */
  lemma RemoveHead<T>(s: seq<T>, t: seq<T>) returns (k: nat, rest: seq<T>)
    requires multiset(s) == multiset(t) && s != []
    ensures k < |t| && t[k] == s[0]
    ensures rest == t[..k] + t[k + 1..] && multiset(s[1..]) == multiset(rest)
  {
    SameMembers(s, t);
    assert s[0] in t;
    k :| 0 <= k < |t| && t[k] == s[0];
    rest := t[..k] + t[k + 1..];
    Without(t, k);
    assert s == [s[0]] + s[1..];
  }

  lemma Without<T>(s: seq<T>, k: nat)
    requires k < |s|
    ensures multiset(s[..k] + s[k + 1..]) == multiset(s) - multiset{s[k]}
  {
    assert s == s[..k] + ([s[k]] + s[k + 1..]);
  }
}
