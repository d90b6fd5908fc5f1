/** Counting moves and swaps between two day assignments (`classify_bucket_changes` in
    syncinerary/agents/solver/repair.py). */
module BucketChanges {
  import opened Sums

  type Place = nat

  datatype Move = Move(place: Place, origin: nat, destination: nat)

  /** The candidates' days, as a dictionary filled bucket by bucket. */
  function DayOf(buckets: seq<seq<Place>>): map<Place, nat>
  {
    if buckets == [] then map[]
    else
      var before, last := buckets[..|buckets| - 1], buckets[|buckets| - 1];
      DayOf(before) + map p | p in last :: |buckets| - 1
  }

  /** A candidate's day is the last bucket that lists it. */
  lemma {:induction false} DayIsLast(buckets: seq<seq<Place>>, p: Place)
    ensures p in DayOf(buckets) <==> exists d :: 0 <= d < |buckets| && p in buckets[d]
    ensures p in DayOf(buckets) ==> DayOf(buckets)[p] < |buckets| && p in buckets[DayOf(buckets)[p]]
    ensures forall d | 0 <= d < |buckets| && p in buckets[d] :: d <= DayOf(buckets)[p]
  {
    if buckets == [] {
    } else {
      var front := buckets[..|buckets| - 1];
      DayIsLast(front, p);
      assert forall d | 0 <= d < |front| :: front[d] == buckets[d];
    }
  }

  /** Whether a candidate is in both assignments, on different days. */
  predicate ChangedDay(before: map<Place, nat>, after: map<Place, nat>, p: Place)
  {
    p in before && p in after && before[p] != after[p]
  }

  /** The candidates that changed day, in the order the shared keys are visited. */
  function MovedIn(order: seq<Place>, before: map<Place, nat>, after: map<Place, nat>): seq<Move>
  {
    if order == [] then []
    else
      var p := order[|order| - 1];
      MovedIn(order[..|order| - 1], before, after)
      + if ChangedDay(before, after, p) then [Move(p, before[p], after[p])] else []
  }

  predicate Opposite(a: Move, b: Move)
  {
    a.origin == b.destination && a.destination == b.origin
  }

  /** Disjoint pairs of opposite moves: `p` sends each paired position to its partner. */
  ghost predicate Pairing(moved: seq<Move>, p: map<nat, nat>)
  {
    forall i | i in p ::
      i < |moved| && p[i] < |moved| && p[i] != i && p[i] in p && p[p[i]] == i && Opposite(moved[i], moved[p[i]])
  }

  /** No two positions left over could still trade days. */
  ghost predicate Saturated(moved: seq<Move>, p: map<nat, nat>, upTo: nat)
  {
    forall i, k | 0 <= i < upTo && i < |moved| && 0 <= k < |moved| && i != k && i !in p && k !in p ::
      !Opposite(moved[i], moved[k])
  }

  ghost predicate Trips(moved: seq<Move>)
  {
    forall i | 0 <= i < |moved| :: moved[i].origin != moved[i].destination
  }

  /** The first position that is still free and opposite to `i`. */
  method FindPartner(moved: seq<Move>, swapped: set<nat>, i: nat) returns (partner: int)
    requires i < |moved|
    ensures partner < 0 ==> forall k | 0 <= k < |moved| && k !in swapped && k != i :: !Opposite(moved[i], moved[k])
    ensures partner >= 0 ==> partner < |moved| && partner !in swapped && partner != i && Opposite(moved[i], moved[partner])
  {
    for k := 0 to |moved|
      invariant forall j | 0 <= j < k && j !in swapped && j != i :: !Opposite(moved[i], moved[j])
    {
      if k !in swapped && k != i && Opposite(moved[i], moved[k]) {
        return k;
      }
    }
    return -1;
  }

  /** The pass after `i` positions. */
  ghost predicate Passed(moved: seq<Move>, pairs: map<nat, nat>, i: nat)
  {
    Pairing(moved, pairs) && Saturated(moved, pairs, i)
  }

  lemma PairOne(moved: seq<Move>, p: map<nat, nat>, i: nat, k: nat) returns (q: map<nat, nat>)
    requires Pairing(moved, p) && i < |moved| && k < |moved| && i != k && i !in p && k !in p && Opposite(moved[i], moved[k])
    ensures Pairing(moved, q) && q.Keys == p.Keys + {i} + {k}
  {
    q := p[i := k][k := i];
    forall j | j in q ensures q[j] in q && q[q[j]] == j {
    }
  }

  lemma PassPaired(moved: seq<Move>, pairs: map<nat, nat>, i: nat, k: nat) returns (q: map<nat, nat>)
    requires Passed(moved, pairs, i) && i < |moved| && k < |moved| && i != k
    requires i !in pairs && k !in pairs && Opposite(moved[i], moved[k])
    ensures q.Keys == pairs.Keys + {i} + {k} && Passed(moved, q, i + 1)
  {
    q := PairOne(moved, pairs, i, k);
    FewerLeft(moved, pairs, q, i);
  }

  lemma TwoMore(s: set<nat>, i: nat, k: nat)
    requires i !in s && k !in s && i != k
    ensures s + {i, k} == s + {i} + {k} && |s + {i, k}| == |s| + 2
  {
    assert s + {i, k} == s + {i} + {k};
  }

  lemma FewerLeft(moved: seq<Move>, p: map<nat, nat>, q: map<nat, nat>, i: nat)
    requires Saturated(moved, p, i) && i in q.Keys && p.Keys <= q.Keys
    ensures Saturated(moved, q, i + 1)
  {
  }

  lemma PassSkipped(moved: seq<Move>, pairs: map<nat, nat>, i: nat)
    requires Passed(moved, pairs, i) && i < |moved|
    requires i in pairs || forall k | 0 <= k < |moved| && k !in pairs && k != i :: !Opposite(moved[i], moved[k])
    ensures Passed(moved, pairs, i + 1)
  {
  }

  /** The loop: every position not swapped yet takes the first free opposite one. */
  method PairUp(moved: seq<Move>) returns (swapped: set<nat>, ghost pairs: map<nat, nat>, ghost made: nat)
    ensures swapped == pairs.Keys && |swapped| == 2 * made && Passed(moved, pairs, |moved|)
  {
    pairs, swapped, made := map[], {}, 0;
    for i := 0 to |moved|
      invariant swapped == pairs.Keys && |swapped| == 2 * made
      invariant Passed(moved, pairs, i)
    {
      if i in swapped {
        PassSkipped(moved, pairs, i);
        continue;
      }
      var partner := FindPartner(moved, swapped, i);
      if partner < 0 {
        PassSkipped(moved, pairs, i);
        continue;
      }
      TwoMore(swapped, i, partner);
      pairs := PassPaired(moved, pairs, i, partner);
      swapped, made := swapped + {i, partner}, made + 1;
    }
  }

  /** The greedy pass. Whatever order the moves come in, the pairs it makes are disjoint
      opposite moves, and none is left to make. */
  method ClassifyMoves(moved: seq<Move>) returns (moves: nat, swaps: nat, ghost pairs: map<nat, nat>)
    ensures Pairing(moved, pairs) && Saturated(moved, pairs, |moved|)
    ensures |pairs| == 2 * swaps && moves + 2 * swaps == |moved|
  {
    var swapped;
    ghost var made;
    swapped, pairs, made := PairUp(moved);
    PairsAreMoves(moved, pairs);
    assert |pairs| == |pairs.Keys|;
    swaps := |swapped| / 2;
    moves := |moved| - |swapped|;
  }

  lemma PairsAreMoves(moved: seq<Move>, p: map<nat, nat>)
    requires Pairing(moved, p)
    ensures |p.Keys| <= |moved|
  {
    Below(p.Keys, |moved|);
  }

  lemma {:induction false} Below(s: set<nat>, n: nat)
    requires forall x | x in s :: x < n
    ensures |s| <= n
  {
    if n > 0 {
      Below(s - {n - 1}, n - 1);
    } else if x :| x in s {
    }
  }

  // ----- the greedy pairs are as many as any -----

  /** The positions of `s` that move from `a` to `b`. */
  function Going(moved: seq<Move>, s: set<nat>, a: nat, b: nat): set<nat>
  {
    set i | i in s && i < |moved| && moved[i].origin == a && moved[i].destination == b
  }

  function AllGoing(moved: seq<Move>, a: nat, b: nat): set<nat>
  {
    set i: nat | i < |moved| && moved[i].origin == a && moved[i].destination == b
  }

  lemma {:induction false} Injected(s: set<nat>, t: set<nat>, p: map<nat, nat>)
    requires forall i | i in s :: i in p && p[i] in t
    requires forall i, j | i in s && j in s && i != j :: p[i] != p[j]
    ensures |s| <= |t|
  {
    if s == {} {
    } else {
      var i :| i in s;
      Injected(s - {i}, t - {p[i]}, p);
    }
  }

  /** Paired moves between two days are balanced. */
  lemma PairsBalanced(moved: seq<Move>, p: map<nat, nat>, a: nat, b: nat)
    requires Pairing(moved, p)
    ensures |Going(moved, p.Keys, a, b)| <= |Going(moved, p.Keys, b, a)|
  {
    forall i, j | i in Going(moved, p.Keys, a, b) && j in Going(moved, p.Keys, a, b) && i != j ensures p[i] != p[j] {
      assert p[p[i]] == i && p[p[j]] == j;
    }
    Injected(Going(moved, p.Keys, a, b), Going(moved, p.Keys, b, a), p);
  }

  /** For each pair of days the swaps are the smaller of the two opposite move counts. */
  lemma SwapsBetweenDays(moved: seq<Move>, p: map<nat, nat>, a: nat, b: nat)
    requires Pairing(moved, p) && Saturated(moved, p, |moved|) && a != b
    ensures var there, back := |AllGoing(moved, a, b)|, |AllGoing(moved, b, a)|;
      |Going(moved, p.Keys, a, b)| == if there < back then there else back
  {
    var there, back := AllGoing(moved, a, b), AllGoing(moved, b, a);
    var pa, pb := Going(moved, p.Keys, a, b), Going(moved, p.Keys, b, a);
    PairsBalanced(moved, p, a, b);
    PairsBalanced(moved, p, b, a);
    SubsetSize(pa, there);
    SubsetSize(pb, back);
    if i :| i in there && i !in p {
      forall k | k in back ensures k in pb {
        assert Opposite(moved[i], moved[k]);
      }
      SubsetSize(back, pb);
    } else {
      SubsetSize(there, pa);
    }
  }

  /** A set that has no more members than another in each direction has no more in all. */
  lemma {:induction false} CompareDirections(moved: seq<Move>, q: set<nat>, p: set<nat>)
    requires forall i | i in q :: i < |moved|
    requires forall a, b :: |Going(moved, q, a, b)| <= |Going(moved, p, a, b)|
    ensures |q| <= |p|
    decreases |q|
  {
    if q == {} {
    } else {
      var i :| i in q;
      var a, b := moved[i].origin, moved[i].destination;
      var qi, pi := Going(moved, q, a, b), Going(moved, p, a, b);
      assert i in qi;
      SubsetSize(pi, p);
      assert |q - qi| == |q| - |qi| && |p - pi| == |p| - |pi|;
      forall c, d ensures |Going(moved, q - qi, c, d)| <= |Going(moved, p - pi, c, d)| {
        if c == a && d == b {
          assert Going(moved, q - qi, c, d) == {};
        } else {
          assert Going(moved, q - qi, c, d) == Going(moved, q, c, d);
          assert Going(moved, p - pi, c, d) == Going(moved, p, c, d);
        }
      }
      CompareDirections(moved, q - qi, p - pi);
    }
  }

  /** No choice of disjoint opposite pairs makes more swaps than a saturated one, so the count
      does not depend on the dictionary's order. */
  lemma GreedyIsOptimal(moved: seq<Move>, p: map<nat, nat>, q: map<nat, nat>)
    requires Trips(moved) && Pairing(moved, p) && Saturated(moved, p, |moved|) && Pairing(moved, q)
    ensures |q| <= |p|
  {
    forall a, b ensures |Going(moved, q.Keys, a, b)| <= |Going(moved, p.Keys, a, b)| {
      if a == b {
        assert Going(moved, q.Keys, a, b) == {};
      } else {
        SwapsBetweenDays(moved, p, a, b);
        PairsBalanced(moved, q, a, b);
        SubsetSize(Going(moved, q.Keys, a, b), AllGoing(moved, a, b));
        SubsetSize(Going(moved, q.Keys, b, a), AllGoing(moved, b, a));
      }
    }
    CompareDirections(moved, q.Keys, p.Keys);
    assert |q| == |q.Keys| && |p| == |p.Keys|;
  }

  lemma {:induction false} MovedAreTrips(order: seq<Place>, before: map<Place, nat>, after: map<Place, nat>)
    ensures Trips(MovedIn(order, before, after))
  {
    if order == [] {
    } else {
      MovedAreTrips(order[..|order| - 1], before, after);
    }
  }

  // ----- the counts belong to the two assignments -----

  /** The visiting order names every shared candidate once. */
  ghost predicate Enumerates(order: seq<Place>, before: map<Place, nat>, after: map<Place, nat>)
  {
    Distinct(order) && forall p :: p in order <==> p in before && p in after
  }

  function Changed(before: map<Place, nat>, after: map<Place, nat>): set<Place>
  {
    set p | p in before && p in after && before[p] != after[p]
  }

  /** The candidates that went from day `a` to day `b`. */
  function Went(before: map<Place, nat>, after: map<Place, nat>, a: nat, b: nat): set<Place>
  {
    set p | p in before && p in after && a != b && before[p] == a && after[p] == b
  }

  /** The trades between two days: the smaller direction. */
  function TradesBetween(before: map<Place, nat>, after: map<Place, nat>, a: nat, b: nat): nat
  {
    var there, back := |Went(before, after, a, b)|, |Went(before, after, b, a)|;
    if there < back then there else back
  }

  /** The trades between day `b` and the days before `a`. */
  function TradesWith(before: map<Place, nat>, after: map<Place, nat>, a: nat, b: nat): nat
  {
    if a == 0 then 0 else TradesWith(before, after, a - 1, b) + TradesBetween(before, after, a - 1, b)
  }

  /** The trades between all pairs of the first `days` days. */
  function Trades(before: map<Place, nat>, after: map<Place, nat>, days: nat): nat
  {
    if days == 0 then 0 else Trades(before, after, days - 1) + TradesWith(before, after, days - 1, days - 1)
  }

  function MovedPlaces(order: seq<Place>, before: map<Place, nat>, after: map<Place, nat>): set<Place>
  {
    set p | p in order && ChangedDay(before, after, p)
  }

  function PlacesGoing(order: seq<Place>, before: map<Place, nat>, after: map<Place, nat>, a: nat, b: nat): set<Place>
  {
    set p | p in order && ChangedDay(before, after, p) && before[p] == a && after[p] == b
  }

  lemma OneMoreGoing(moved: seq<Move>, m: Move, a: nat, b: nat)
    ensures |AllGoing(moved + [m], a, b)| == |AllGoing(moved, a, b)| + if m.origin == a && m.destination == b then 1 else 0
  {
    assert AllGoing(moved + [m], a, b) == AllGoing(moved, a, b) + if m.origin == a && m.destination == b then {|moved|} else {};
  }

  lemma OneMoreMoved(front: seq<Place>, p: Place, before: map<Place, nat>, after: map<Place, nat>)
    requires p !in front
    ensures |MovedPlaces(front + [p], before, after)| == |MovedPlaces(front, before, after)| + if ChangedDay(before, after, p) then 1 else 0
  {
    assert MovedPlaces(front + [p], before, after)
        == MovedPlaces(front, before, after) + if ChangedDay(before, after, p) then {p} else {};
  }

  lemma OneMorePlace(front: seq<Place>, p: Place, before: map<Place, nat>, after: map<Place, nat>, a: nat, b: nat)
    requires p !in front
    ensures |PlacesGoing(front + [p], before, after, a, b)|
         == |PlacesGoing(front, before, after, a, b)| + if ChangedDay(before, after, p) && before[p] == a && after[p] == b then 1 else 0
  {
    assert PlacesGoing(front + [p], before, after, a, b)
        == PlacesGoing(front, before, after, a, b) + if ChangedDay(before, after, p) && before[p] == a && after[p] == b then {p} else {};
  }

  lemma MovedInNext(front: seq<Place>, p: Place, before: map<Place, nat>, after: map<Place, nat>, a: nat, b: nat)
    ensures var fewer, moved := MovedIn(front, before, after), MovedIn(front + [p], before, after);
      && |moved| == |fewer| + (if ChangedDay(before, after, p) then 1 else 0)
      && |AllGoing(moved, a, b)|
         == |AllGoing(fewer, a, b)| + if ChangedDay(before, after, p) && before[p] == a && after[p] == b then 1 else 0
  {
    var fewer := MovedIn(front, before, after);
    assert (front + [p])[..|front|] == front;
    if ChangedDay(before, after, p) {
      OneMoreGoing(fewer, Move(p, before[p], after[p]), a, b);
    } else {
      assert fewer + [] == fewer;
    }
  }

  lemma {:induction false} MovedInCounts(order: seq<Place>, before: map<Place, nat>, after: map<Place, nat>, a: nat, b: nat)
    requires Distinct(order)
    ensures |MovedIn(order, before, after)| == |MovedPlaces(order, before, after)|
    ensures |AllGoing(MovedIn(order, before, after), a, b)| == |PlacesGoing(order, before, after, a, b)|
  {
    if order == [] {
    } else {
      var front, p := order[..|order| - 1], order[|order| - 1];
      MovedInCounts(front, before, after, a, b);
      assert order == front + [p] && p !in front;
      OneMoreMoved(front, p, before, after);
      OneMorePlace(front, p, before, after, a, b);
      MovedInNext(front, p, before, after, a, b);
    }
  }

  /** Enumerating the shared candidates counts what the two assignments hold. */
  lemma MovedInIsChanged(order: seq<Place>, before: map<Place, nat>, after: map<Place, nat>, a: nat, b: nat)
    requires Enumerates(order, before, after)
    ensures |MovedIn(order, before, after)| == |Changed(before, after)|
    ensures |AllGoing(MovedIn(order, before, after), a, b)| == |Went(before, after, a, b)|
  {
    MovedInCounts(order, before, after, a, b);
    assert MovedPlaces(order, before, after) == Changed(before, after);
    assert PlacesGoing(order, before, after, a, b) == Went(before, after, a, b);
  }

  /** The paired positions that trade with day `b` and a day before `a`. */
  function PairedWith(moved: seq<Move>, s: set<nat>, a: nat, b: nat): set<nat>
  {
    set i | i in s && i < |moved|
      && ((moved[i].origin == b && moved[i].destination < a) || (moved[i].destination == b && moved[i].origin < a))
  }

  function PairedBelow(moved: seq<Move>, s: set<nat>, days: nat): set<nat>
  {
    set i | i in s && i < |moved| && moved[i].origin < days && moved[i].destination < days
  }

  lemma PairedWithNext(moved: seq<Move>, s: set<nat>, a: nat, b: nat)
    requires a < b
    ensures |PairedWith(moved, s, a + 1, b)| == |PairedWith(moved, s, a, b)| + |Going(moved, s, a, b)| + |Going(moved, s, b, a)|
  {
    var nearer, there, back := PairedWith(moved, s, a, b), Going(moved, s, a, b), Going(moved, s, b, a);
    assert PairedWith(moved, s, a + 1, b) == nearer + there + back;
    assert nearer !! there && (nearer + there) !! back;
  }

  lemma PairedBelowNext(moved: seq<Move>, s: set<nat>, days: nat)
    requires Trips(moved)
    ensures |PairedBelow(moved, s, days + 1)| == |PairedBelow(moved, s, days)| + |PairedWith(moved, s, days, days)|
  {
    var fewer, last := PairedBelow(moved, s, days), PairedWith(moved, s, days, days);
    assert PairedBelow(moved, s, days + 1) == fewer + last && fewer !! last;
  }

  /** The moves go between days as often as the assignments say. */
  ghost predicate Counted(moved: seq<Move>, before: map<Place, nat>, after: map<Place, nat>)
  {
    forall a, b :: |AllGoing(moved, a, b)| == |Went(before, after, a, b)|
  }

  /** The paired positions between two days are twice the trades. */
  ghost predicate PairedCount(moved: seq<Move>, s: set<nat>, before: map<Place, nat>, after: map<Place, nat>)
  {
    forall a, b | a != b ::
      |Going(moved, s, a, b)| + |Going(moved, s, b, a)| == 2 * TradesBetween(before, after, a, b)
  }

  lemma PairsCount(moved: seq<Move>, pairs: map<nat, nat>, before: map<Place, nat>, after: map<Place, nat>)
    requires Pairing(moved, pairs) && Saturated(moved, pairs, |moved|) && Counted(moved, before, after)
    ensures PairedCount(moved, pairs.Keys, before, after)
  {
    forall a, b | a != b
      ensures |Going(moved, pairs.Keys, a, b)| + |Going(moved, pairs.Keys, b, a)| == 2 * TradesBetween(before, after, a, b)
    {
      SwapsBetweenDays(moved, pairs, a, b);
      SwapsBetweenDays(moved, pairs, b, a);
      assert |AllGoing(moved, a, b)| == |Went(before, after, a, b)| && |AllGoing(moved, b, a)| == |Went(before, after, b, a)|;
    }
  }

  lemma {:induction false} CountPairedWith(moved: seq<Move>, s: set<nat>, before: map<Place, nat>, after: map<Place, nat>, a: nat, b: nat)
    requires PairedCount(moved, s, before, after) && a <= b
    ensures |PairedWith(moved, s, a, b)| == 2 * TradesWith(before, after, a, b)
  {
    if a == 0 {
      assert PairedWith(moved, s, 0, b) == {};
    } else {
      CountPairedWith(moved, s, before, after, a - 1, b);
      PairedWithNext(moved, s, a - 1, b);
    }
  }

  lemma {:induction false} CountPairedBelow(moved: seq<Move>, s: set<nat>, before: map<Place, nat>, after: map<Place, nat>, days: nat)
    requires Trips(moved) && PairedCount(moved, s, before, after)
    ensures |PairedBelow(moved, s, days)| == 2 * Trades(before, after, days)
  {
    if days == 0 {
      assert PairedBelow(moved, s, 0) == {};
    } else {
      CountPairedBelow(moved, s, before, after, days - 1);
      CountPairedWith(moved, s, before, after, days - 1, days - 1);
      PairedBelowNext(moved, s, days - 1);
    }
  }

  lemma {:induction false} MovedWithin(order: seq<Place>, before: map<Place, nat>, after: map<Place, nat>, days: nat)
    requires (forall p | p in before :: before[p] < days) && (forall p | p in after :: after[p] < days)
    ensures forall m | m in MovedIn(order, before, after) :: m.origin < days && m.destination < days
  {
    if order == [] {
    } else {
      MovedWithin(order[..|order| - 1], before, after, days);
    }
  }

  ghost predicate DaysBelow(days: nat, before: map<Place, nat>, after: map<Place, nat>)
  {
    (forall p | p in before :: before[p] < days) && (forall p | p in after :: after[p] < days)
  }

  /** Whatever greedy pass found the pairs, they are the trades between all pairs of days. */
  lemma PairsAreTrades(moved: seq<Move>, order: seq<Place>, before: map<Place, nat>, after: map<Place, nat>, days: nat, pairs: map<nat, nat>)
    requires Enumerates(order, before, after) && DaysBelow(days, before, after) && moved == MovedIn(order, before, after)
    requires Pairing(moved, pairs) && Saturated(moved, pairs, |moved|)
    ensures |pairs| == 2 * Trades(before, after, days)
  {
    forall a, b ensures |AllGoing(moved, a, b)| == |Went(before, after, a, b)| {
      MovedInIsChanged(order, before, after, a, b);
    }
    MovedAreTrips(order, before, after);
    MovedWithin(order, before, after, days);
    PairsCount(moved, pairs, before, after);
    CountPairedBelow(moved, pairs.Keys, before, after, days);
    assert PairedBelow(moved, pairs.Keys, days) == pairs.Keys by {
      forall i | i in pairs ensures moved[i].origin < days && moved[i].destination < days {
        assert moved[i] in moved;
      }
    }
    assert |pairs| == |pairs.Keys|;
  }

  method ClassifyDays(before: map<Place, nat>, after: map<Place, nat>, order: seq<Place>, ghost days: nat)
    returns (moves: nat, swaps: nat)
    requires Enumerates(order, before, after) && DaysBelow(days, before, after)
    ensures moves + 2 * swaps == |Changed(before, after)| && swaps == Trades(before, after, days)
    ensures forall q: map<nat, nat> | Pairing(MovedIn(order, before, after), q) :: |q| <= 2 * swaps
  {
    var moved := MovedIn(order, before, after);
    MovedAreTrips(order, before, after);
    MovedInIsChanged(order, before, after, 0, 0);
    ghost var pairs;
    moves, swaps, pairs := ClassifyMoves(moved);
    PairsAreTrades(moved, order, before, after, days, pairs);
    forall q: map<nat, nat> | Pairing(moved, q) ensures |q| <= 2 * swaps {
      GreedyIsOptimal(moved, pairs, q);
    }
  }

  lemma DaysWithin(before: seq<seq<Place>>, after: seq<seq<Place>>)
    ensures DaysBelow(|before| + |after|, DayOf(before), DayOf(after))
  {
    forall p | p in DayOf(before) ensures DayOf(before)[p] < |before| {
      DayIsLast(before, p);
    }
    forall p | p in DayOf(after) ensures DayOf(after)[p] < |after| {
      DayIsLast(after, p);
    }
  }

  /** (moves, swaps) between two assignments. However the shared candidates are visited, the swaps
      are for each pair of days the smaller of the two directions, the most any pairing of the
      changes has, and the moves are the other candidates that changed day. */
  method ClassifyBucketChanges(before: seq<seq<Place>>, after: seq<seq<Place>>, order: seq<Place>)
    returns (moves: nat, swaps: nat)
    requires Enumerates(order, DayOf(before), DayOf(after))
    ensures moves + 2 * swaps == |Changed(DayOf(before), DayOf(after))|
    ensures swaps == Trades(DayOf(before), DayOf(after), |before| + |after|)
    ensures forall q: map<nat, nat> | Pairing(MovedIn(order, DayOf(before), DayOf(after)), q) :: |q| <= 2 * swaps
  {
    DaysWithin(before, after);
    moves, swaps := ClassifyDays(DayOf(before), DayOf(after), order, |before| + |after|);
  }
}
