/** Candidate cards as pool selection sees them, and reading several lists in turn.

    `Rounds` is the order in which `select_dense_pool` reads its clusters and `select_trip_pool` its
    cities (syncinerary/agents/gather/live.py): the first entry of every list, then the second of
    every list that has one, and so on. */
module Pool {
  import Sorting

  datatype Kind = Food | Attraction | OtherKind

  /** `spot` stands for the coordinates; the flags are what a card's sources and signals say. */
  datatype Card = Card(id: nat, spot: nat, kind: Kind, gem: bool, core: bool, reel: bool, priority: bool, personal: bool)

  const POOL_PER_DAY := 8
  const FOOD_PER_DAY_TARGET := 3
  const MIN_STOPS_PER_DAY := 5
  const MEALS_PER_DAY_MIN := 2
  const ATTRACTIONS_PER_DAY_MIN := 3

  ghost predicate DistinctIds(cards: seq<Card>)
  {
    forall i, j | 0 <= i < j < |cards| :: cards[i].id != cards[j].id
  }

  function Concat<T>(lists: seq<seq<T>>): seq<T>
  {
    if lists == [] then [] else lists[0] + Concat(lists[1..])
  }

  /** The entry at one offset of every list long enough to have it. */
  function Row<T>(lists: seq<seq<T>>, offset: nat): seq<T>
  {
    if lists == [] then []
    else (if offset < |lists[0]| then [lists[0][offset]] else []) + Row(lists[1..], offset)
  }

  function Longest<T>(lists: seq<seq<T>>): nat
  {
    if lists == [] then 0
    else if |lists[0]| < Longest(lists[1..]) then Longest(lists[1..]) else |lists[0]|
  }

  lemma {:induction false} RowMembers<T>(lists: seq<seq<T>>, offset: nat)
    ensures forall l | l in lists && offset < |l| :: l[offset] in Row(lists, offset)
    ensures forall x | x in Row(lists, offset) :: exists l :: l in lists && offset < |l| && x == l[offset]
    ensures Row(lists, offset) != [] ==> offset < Longest(lists)
    ensures Row(lists, offset) == [] ==> forall l | l in lists :: |l| <= offset
  {
    if lists == [] {
    } else {
      RowMembers(lists[1..], offset);
      assert lists == [lists[0]] + lists[1..];
    }
  }

  /** Row after row: one entry of every list, then the next of every list that still has one. */
  function Rounds<T>(lists: seq<seq<T>>, offset: nat): seq<T>
    decreases if offset < Longest(lists) then Longest(lists) - offset else 0
  {
    RowMembers(lists, offset);
    if Row(lists, offset) == [] then [] else Row(lists, offset) + Rounds(lists, offset + 1)
  }

  /** What every list holds from an offset on. */
  function RestOf<T>(lists: seq<seq<T>>, offset: nat): seq<T>
  {
    if lists == [] then []
    else (if offset < |lists[0]| then lists[0][offset..] else []) + RestOf(lists[1..], offset)
  }

  lemma {:induction false} RestFromStart<T>(lists: seq<seq<T>>)
    ensures RestOf(lists, 0) == Concat(lists)
  {
    if lists == [] {
    } else {
      RestFromStart(lists[1..]);
      assert lists[0][0..] == lists[0];
    }
  }

  lemma {:induction false} RowThenRest<T>(lists: seq<seq<T>>, offset: nat)
    ensures multiset(RestOf(lists, offset)) == multiset(Row(lists, offset)) + multiset(RestOf(lists, offset + 1))
  {
    if lists == [] {
    } else {
      RowThenRest(lists[1..], offset);
      var l := lists[0];
      if offset < |l| {
        assert l[offset..] == [l[offset]] + l[offset + 1..];
        assert offset + 1 == |l| ==> l[offset + 1..] == [];
      }
    }
  }

  lemma {:induction false} RoundsKeepRest<T>(lists: seq<seq<T>>, offset: nat)
    ensures multiset(Rounds(lists, offset)) == multiset(RestOf(lists, offset))
    decreases if offset < Longest(lists) then Longest(lists) - offset else 0
  {
    RowMembers(lists, offset);
    RowThenRest(lists, offset);
    if Row(lists, offset) == [] {
      NothingLeft(lists, offset);
    } else {
      RoundsKeepRest(lists, offset + 1);
    }
  }

  lemma {:induction false} NothingLeft<T>(lists: seq<seq<T>>, offset: nat)
    requires forall l | l in lists :: |l| <= offset
    ensures RestOf(lists, offset) == []
  {
    if lists == [] {
    } else {
      assert lists == [lists[0]] + lists[1..];
      NothingLeft(lists[1..], offset);
    }
  }

  /** Reading lists in turn is a rearrangement of all of them. */
  lemma RoundsKeep<T>(lists: seq<seq<T>>)
    ensures multiset(Rounds(lists, 0)) == multiset(Concat(lists))
  {
    RoundsKeepRest(lists, 0);
    RestFromStart(lists);
  }

  /** `taken` reaches round `r`: everything before it is in, nothing after it is. */
  ghost predicate Reaches<T>(lists: seq<seq<T>>, offset: nat, r: nat, taken: seq<T>)
  {
    && (forall l, i | l in lists && offset <= i < r && i < |l| :: l[i] in taken)
    && (forall x | x in taken :: exists l, i :: l in lists && offset <= i <= r && i < |l| && x == l[i])
  }

  /** Wherever the reading stops, no list is more than one entry ahead of another that has more. */
  lemma {:induction false} RoundsAreFair<T>(lists: seq<seq<T>>, offset: nat, k: nat)
    requires k <= |Rounds(lists, offset)|
    ensures exists r: nat | r >= offset :: Reaches(lists, offset, r, Rounds(lists, offset)[..k])
    decreases k
  {
    var row, all := Row(lists, offset), Rounds(lists, offset);
    if k <= |row| {
      assert all[..k] == row[..k];
      FirstRowReaches(lists, offset, all[..k]);
    } else {
      var later, rest := Rounds(lists, offset + 1), k - |row|;
      assert row != [];
      assert all == row + later;
      RoundsAreFair(lists, offset + 1, rest);
      var r :| r >= offset + 1 && Reaches(lists, offset + 1, r, later[..rest]);
      assert all[..k] == row + later[..rest];
      ReachesFurther(lists, offset, r, row, later[..rest]);
    }
  }

  lemma FirstRowReaches<T>(lists: seq<seq<T>>, offset: nat, taken: seq<T>)
    requires taken <= Row(lists, offset)
    ensures Reaches(lists, offset, offset, taken)
  {
    RowMembers(lists, offset);
    forall x | x in taken ensures x in Row(lists, offset) {
      var i :| 0 <= i < |taken| && taken[i] == x;
      assert Row(lists, offset)[i] == x;
    }
  }

  lemma ReachesFurther<T>(lists: seq<seq<T>>, offset: nat, r: nat, row: seq<T>, later: seq<T>)
    requires r >= offset + 1 && Reaches(lists, offset + 1, r, later) && row == Row(lists, offset)
    ensures Reaches(lists, offset, r, row + later)
  {
    RowMembers(lists, offset);
    forall l, i | l in lists && offset <= i < r && i < |l| ensures l[i] in row + later {
      if i != offset {
        assert l[i] in later;
      }
    }
    forall x | x in row + later ensures exists l, i :: l in lists && offset <= i <= r && i < |l| && x == l[i] {
      if x in row {
        var l :| l in lists && offset < |l| && x == l[offset];
      } else {
        assert x in later;
      }
    }
  }

  // ----- concatenation -----

  lemma ConcatCons<T>(head: seq<T>, tail: seq<seq<T>>)
    ensures Concat([head] + tail) == head + Concat(tail)
    ensures multiset(Concat([head] + tail)) == multiset(head) + multiset(Concat(tail))
    ensures forall g | g in [head] + tail :: g == head || g in tail
  {
    assert ([head] + tail)[1..] == tail;
  }

  lemma {:induction false} ConcatSplit<T>(s: seq<seq<T>>, t: seq<seq<T>>)
    ensures Concat(s + t) == Concat(s) + Concat(t)
  {
    if s == [] {
      assert s + t == t;
    } else {
      ConcatSplit(s[1..], t);
      var rest := s[1..] + t;
      assert (s + t)[1..] == rest && (s + t)[0] == s[0];
      assert s[0] + (Concat(s[1..]) + Concat(t)) == s[0] + Concat(s[1..]) + Concat(t);
    }
  }

  lemma ConcatAt<T>(lists: seq<seq<T>>, k: nat)
    requires k < |lists|
    ensures multiset(Concat(lists)) == multiset(lists[k]) + multiset(Concat(lists[..k] + lists[k + 1..]))
  {
    ConcatSplit(lists[..k], lists[k..]);
    ConcatSplit(lists[..k], lists[k + 1..]);
    assert lists == lists[..k] + lists[k..];
    assert lists[k..][1..] == lists[k + 1..];
  }

  /** The order of the lists does not matter to what they hold. */
  lemma {:induction false} ConcatRearranged<T>(s: seq<seq<T>>, t: seq<seq<T>>)
    requires multiset(s) == multiset(t)
    ensures multiset(Concat(s)) == multiset(Concat(t))
    decreases |s|
  {
    if s == [] {
      assert |multiset(t)| == 0;
    } else {
      var k, rest := Sorting.RemoveHead(s, t);
      ConcatRearranged(s[1..], rest);
      ConcatAt(t, k);
    }
  }
}
