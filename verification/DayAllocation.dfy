/** Splitting a trip's days between its cities. */
module DayAllocation {
  // From `allocate_days` and `_allowed_days_by_city` in syncinerary/agents/solver/stage1_days.py and
  // syncinerary/domain/city_plan.py; `city_for_day` in syncinerary/agents/manual_itinerary.py finds a
  // day's city again.

  import opened Schedule
  import opened Sums
  import opened Apportion
  import Sorting

  // ----- the split by candidates -----

  /** The candidate counts of the cities that can get a day: the first `days` non-empty ones. */
  function Claims(counts: seq<nat>, days: nat): (r: seq<nat>)
    ensures |r| == |counts|
    ensures forall i | 0 <= i < |r| :: r[i] == counts[i] || r[i] == 0
  {
    if counts == [] then []
    else if counts[0] > 0 && days > 0 then [counts[0]] + Claims(counts[1..], days - 1)
    else [0] + Claims(counts[1..], days)
  }

  /** The first step: the whole part of the share, and at least a day. */
  function Base(claim: nat, days: nat, total: nat): nat
    requires total > 0
  {
    if claim == 0 then 0 else if days * claim / total < 1 then 1 else days * claim / total
  }

  function Total(claims: seq<nat>): (r: nat)
    ensures r > 0
  {
    if Sum(claims) < 1 then 1 else Sum(claims)
  }

  function Bases(claims: seq<nat>, days: nat): seq<nat>
  {
    seq(|claims|, i requires 0 <= i < |claims| => Base(claims[i], days, Total(claims)))
  }

  function FractionAt(claims: seq<nat>, days: nat, i: nat): nat
  {
    if i < |claims| then days * claims[i] % Total(claims) else 0
  }

  /** Largest fractional claim first, the earlier city on a tie. */
  function ByFraction(claims: seq<nat>, days: nat): (nat, nat) -> bool
  {
    (i: nat, j: nat) =>
      FractionAt(claims, days, i) > FractionAt(claims, days, j)
      || (FractionAt(claims, days, i) == FractionAt(claims, days, j) && i <= j)
  }

  /** The indices of the claiming cities, in order. */
  function Claiming(claims: seq<nat>, n: nat): (r: seq<nat>)
    requires n <= |claims|
    ensures forall i | i in r :: i < n
    ensures forall i | 0 <= i < n :: i in r <==> claims[i] > 0
    ensures |r| == Positives(claims[..n])
    ensures Distinct(r)
  {
    if n == 0 then []
    else
      assert claims[..n][..n - 1] == claims[..n - 1] && claims[..n][n - 1] == claims[n - 1];
      var before := Claiming(claims, n - 1);
      assert n - 1 !in before;
      if claims[n - 1] > 0 then before + [n - 1] else before
  }

  function Order(claims: seq<nat>, days: nat): seq<nat>
  {
    Sorting.Sort(Claiming(claims, |claims|), ByFraction(claims, days))
  }

  /** The earliest index of a largest entry. */
  method Largest(s: seq<nat>) returns (index: nat)
    requires s != []
    ensures index < |s| && forall j | 0 <= j < |s| :: s[j] <= s[index]
    ensures forall j | 0 <= j < index :: s[j] < s[index]
  {
    index := 0;
    for k := 1 to |s|
      invariant index < k && forall j | 0 <= j < k :: s[j] <= s[index]
      invariant forall j | 0 <= j < index :: s[j] < s[index]
    {
      if s[k] > s[index] {
        index := k;
      }
    }
  }

  /** A city gave days back only while no city held more days than it, nor an earlier one as many. */
  predicate Levelled(base: seq<nat>, s: seq<nat>)
  {
    && |s| == |base|
    && (forall i | 0 <= i < |s| :: s[i] <= base[i] && (base[i] > 0 ==> s[i] > 0))
    && forall i, j | 0 <= i < |s| && 0 <= j < |s| && s[i] < base[i] :: s[j] <= s[i] + if j < i then 0 else 1
  }

  /** Days handed out beyond the base, one each, to the largest fractional claims. */
  predicate Topped(base: seq<nat>, s: seq<nat>, claims: seq<nat>, days: nat)
  {
    && |s| == |base| == |claims|
    && (forall i | 0 <= i < |s| :: s[i] == base[i] || (s[i] == base[i] + 1 && claims[i] > 0))
    && forall i, j | 0 <= i < |s| && 0 <= j < |s| && s[i] > base[i] && s[j] == base[j] && claims[j] > 0 ::
         ByFraction(claims, days)(i, j)
  }

  /** Raising to one day can overshoot: take days back from the largest allocations. */
  method TakeBack(base: seq<nat>, days: nat, claiming: nat) returns (s: seq<nat>)
    requires Sum(base) > days && claiming <= days && Positives(base) == claiming
    ensures Levelled(base, s) && Sum(s) == days
  {
    s := base;
    while Sum(s) > days
      invariant Levelled(base, s) && Sum(s) >= days
      decreases Sum(s)
    {
      var index := Largest(s);
      if s[index] <= 1 {
        OnesSum(s);
        PositivesAgree(base, s);
        break;
      }
      SumUpdate(s, index, s[index] - 1);
      s := s[index := s[index] - 1];
    }
  }

  lemma {:induction false} OnesSum(s: seq<nat>)
    requires forall i | 0 <= i < |s| :: s[i] <= 1
    ensures Sum(s) == Positives(s)
  {
    if s == [] {
    } else {
      OnesSum(s[..|s| - 1]);
      SumSplit(s[..|s| - 1], [s[|s| - 1]]);
      assert s == s[..|s| - 1] + [s[|s| - 1]];
    }
  }

  lemma {:induction false} PositivesAgree(s: seq<nat>, t: seq<nat>)
    requires |s| == |t| && forall i | 0 <= i < |s| :: s[i] > 0 <==> t[i] > 0
    ensures Positives(s) == Positives(t)
  {
    if s == [] {
    } else {
      PositivesAgree(s[..|s| - 1], t[..|t| - 1]);
    }
  }

  /** Each of the first `position` cities in order has one day more. */
  predicate Handed(base: seq<nat>, s: seq<nat>, order: seq<nat>, position: nat)
    requires position <= |order|
  {
    |s| == |base| && forall i | 0 <= i < |s| :: s[i] == base[i] + if i in order[..position] then 1 else 0
  }

  lemma HandOne(base: seq<nat>, s: seq<nat>, order: seq<nat>, position: nat)
    requires position < |order| && Handed(base, s, order, position) && Distinct(order) && order[position] < |s|
    ensures var index := order[position];
      Handed(base, s[index := s[index] + 1], order, position + 1) && Sum(s[index := s[index] + 1]) == Sum(s) + 1
  {
    var index := order[position];
    assert order[..position + 1] == order[..position] + [index];
    assert index !in order[..position];
    SumUpdate(s, index, s[index] + 1);
  }

  lemma NoWrap(position: nat, size: nat)
    requires position < size
    ensures position % size == position
  {
  }

  method AddDay(base: seq<nat>, before: seq<nat>, order: seq<nat>, at: nat, ghost position: nat) returns (s: seq<nat>)
    requires at == position < |order| && Handed(base, before, order, position) && Distinct(order)
    requires forall i | i in order :: i < |before|
    ensures Handed(base, s, order, position + 1) && Sum(s) == Sum(before) + 1
  {
    var index := order[at];
    assert index in order;
    HandOne(base, before, order, at);
    s := before[index := before[index] + 1];
  }

  /** The missing days go round the claiming cities; they never need a second round. */
  method HandOut(base: seq<nat>, claims: seq<nat>, days: nat) returns (s: seq<nat>)
    requires |base| == |claims| && Sum(base) <= days <= Sum(base) + Positives(claims)
    ensures Topped(base, s, claims, days) && Sum(s) == days
  {
    var order := Order(claims, days);
    OrderFacts(claims, days);
    s := base;
    var position := 0;
    while Sum(s) < days && order != []
      invariant position <= |order| && Sum(s) == Sum(base) + position && Sum(s) <= days
      invariant Handed(base, s, order, position)
      decreases days - Sum(s)
    {
      NoWrap(position, |order|);
      s := AddDay(base, s, order, position % |order|, position);
      position := position + 1;
    }
    ToppedByOrder(base, s, claims, days, order, position);
  }

  lemma OrderFacts(claims: seq<nat>, days: nat)
    ensures |Order(claims, days)| == Positives(claims) && Distinct(Order(claims, days))
    ensures Sorting.Ordered(Order(claims, days), ByFraction(claims, days))
    ensures forall i | i in Order(claims, days) :: i < |claims|
    ensures forall i | 0 <= i < |claims| :: i in Order(claims, days) <==> claims[i] > 0
  {
    assert claims[..|claims|] == claims;
    var own := Claiming(claims, |claims|);
    Sorting.SortKeeps(own, ByFraction(claims, days));
    Sorting.SortOrders(own, ByFraction(claims, days));
    DistinctRearranged(own, Order(claims, days));
  }

  lemma ToppedByOrder(base: seq<nat>, s: seq<nat>, claims: seq<nat>, days: nat, order: seq<nat>, position: nat)
    requires |s| == |base| == |claims| && position <= |order|
    requires Sorting.Ordered(order, ByFraction(claims, days))
    requires forall i | 0 <= i < |claims| :: i in order <==> claims[i] > 0
    requires Handed(base, s, order, position)
    ensures Topped(base, s, claims, days)
  {
    forall i | 0 <= i < |s| ensures s[i] == base[i] || (s[i] == base[i] + 1 && claims[i] > 0) {
      if i in order[..position] {
        assert i in order;
      }
    }
    forall i, j | 0 <= i < |s| && 0 <= j < |s| && s[i] > base[i] && s[j] == base[j] && claims[j] > 0
      ensures ByFraction(claims, days)(i, j)
    {
      var a :| 0 <= a < position && order[a] == i;
      var b :| 0 <= b < |order| && order[b] == j;
      assert forall x | 0 <= x < position :: order[x] in order[..position];
    }
  }

  lemma {:induction false} ClaimsSum(counts: seq<nat>, days: nat)
    ensures Positives(Claims(counts, days)) <= days
    ensures Sum(Claims(counts, days)) > 0 <==> days > 0 && exists i | 0 <= i < |counts| :: counts[i] > 0
  {
    if counts == [] {
    } else {
      var fewer := if counts[0] > 0 && days > 0 then days - 1 else days;
      ClaimsSum(counts[1..], fewer);
      var head, rest := Claims(counts, days)[0], Claims(counts[1..], fewer);
      assert Claims(counts, days) == [head] + rest;
      PositivesOfCons(head, rest);
      SumNonNegative(rest);
      if days > 0 && exists i | 0 <= i < |counts| :: counts[i] > 0 {
        var i :| 0 <= i < |counts| && counts[i] > 0;
        assert i > 0 ==> counts[1..][i - 1] == counts[i];
      }
      if i :| 0 <= i < |counts[1..]| && counts[1..][i] > 0 {
        assert counts[i + 1] > 0;
      }
    }
  }

  lemma {:induction false} PositivesOfCons(x: nat, s: seq<nat>)
    ensures Positives([x] + s) == (if x > 0 then 1 else 0) + Positives(s)
  {
    if s == [] {
      assert [x] + s == [x];
      assert [x][..0] == [];
    } else {
      PositivesOfCons(x, s[..|s| - 1]);
      assert ([x] + s)[..|s|] == [x] + s[..|s| - 1];
    }
  }

  lemma SumNonNegative(s: seq<nat>)
    ensures Sum(s) >= 0
  {
    var zeros := seq(|s|, _ => 0);
    SumOf(zeros, 0);
    SumMonotone(zeros, s);
  }

  /** The whole parts miss the trip's days by at most one per claiming city. */
  lemma BasesNearlyFill(claims: seq<nat>, days: nat)
    requires Sum(claims) > 0
    ensures days <= Sum(Bases(claims, days)) + Positives(claims)
  {
    var n, total := |claims|, Sum(claims);
    var whole := seq(n, i requires 0 <= i < n => days * claims[i] / total);
    WholeParts(claims, days, total, n);
    assert claims[..n] == claims;
    assert days * total == total * days;
    CancelFactor(total, days, Sum(whole) + Positives(claims));
    forall i | 0 <= i < n ensures whole[i] <= Bases(claims, days)[i] {
      if claims[i] == 0 { assert days * claims[i] == 0; }
    }
    SumMonotone(whole, Bases(claims, days));
  }

  /** All days to the claiming cities: level an overshooting base, or top it up. */
  method AllocateClaims(claims: seq<nat>, days: nat) returns (allocation: seq<nat>)
    requires Sum(claims) > 0 && Positives(claims) <= days && days > 0
    ensures |allocation| == |claims| && Sum(allocation) == days
    ensures forall i | 0 <= i < |claims| :: allocation[i] > 0 <==> claims[i] > 0
    ensures if Sum(Bases(claims, days)) > days then Levelled(Bases(claims, days), allocation)
      else Topped(Bases(claims, days), allocation, claims, days)
  {
    var base := Bases(claims, days);
    BasesNearlyFill(claims, days);
    PositivesAgree(claims, base);
    if Sum(base) > days {
      allocation := TakeBack(base, days, Positives(base));
    } else {
      allocation := HandOut(base, claims, days);
    }
  }

  // ----- what the split means for the cities -----

  /** The trip gets to city `i`: it has candidates, and fewer than `days` cities before it have any. */
  predicate Visited(counts: seq<nat>, days: nat, i: nat)
    requires i < |counts|
  {
    counts[i] > 0 && Positives(counts[..i]) < days
  }

  /** The candidates of the visited cities. */
  function VisitedCounts(counts: seq<nat>, days: nat): seq<nat>
  {
    seq(|counts|, i requires 0 <= i < |counts| => if Visited(counts, days, i) then counts[i] else 0)
  }

  /** A visited city's exact claim on the days, in proportion to its candidates. */
  function Share(counts: seq<nat>, days: nat, i: nat): real
    requires i < |counts|
  {
    var total := Sum(VisitedCounts(counts, days));
    if !Visited(counts, days, i) || total == 0 then 0.0 else (days * counts[i]) as real / total as real
  }

  /** Every visited city starts from the whole days of its claim, and from one at least. */
  function WholeDays(counts: seq<nat>, days: nat): seq<int>
  {
    seq(|counts|, i requires 0 <= i < |counts| => if Visited(counts, days, i) then Max(1, Share(counts, days, i).Floor) else 0)
  }

  /** What is left of a claim once whole days are given. */
  function Rest(counts: seq<nat>, days: nat, i: nat): real
    requires i < |counts|
  {
    Share(counts, days, i) - Share(counts, days, i).Floor as real
  }

  /** Whole days that are too many are taken back one by one, from the first of those that have most. */
  ghost predicate TakenBack(counts: seq<nat>, days: nat, allocation: seq<nat>)
    requires |allocation| == |counts|
  {
    var whole := WholeDays(counts, days);
    && (forall i | 0 <= i < |counts| :: allocation[i] <= whole[i])
    && (forall i, j | 0 <= i < |counts| && 0 <= j < |counts| && allocation[i] < whole[i] ::
          allocation[j] <= allocation[i] + if j < i then 0 else 1)
  }

  /** Days left over go one each to the cities with the largest rests, the earlier on a tie. */
  ghost predicate ToppedUp(counts: seq<nat>, days: nat, allocation: seq<nat>)
    requires |allocation| == |counts|
  {
    var whole := WholeDays(counts, days);
    && (forall i | 0 <= i < |counts| :: whole[i] <= allocation[i] <= whole[i] + 1)
    && (forall i, j | 0 <= i < |counts| && 0 <= j < |counts| && Visited(counts, days, j) && whole[i] < allocation[i] && whole[j] == allocation[j] ::
          Rest(counts, days, i) > Rest(counts, days, j) || (Rest(counts, days, i) == Rest(counts, days, j) && i < j))
  }

  lemma VisitedAfterFirst(counts: seq<nat>, days: nat, i: nat)
    requires 0 < i < |counts|
    ensures Visited(counts, days, i) <==> Visited(counts[1..], if counts[0] > 0 && days > 0 then days - 1 else days, i - 1)
  {
    assert counts[..i] == [counts[0]] + counts[1..][..i - 1];
    PositivesOfCons(counts[0], counts[1..][..i - 1]);
  }

  lemma {:induction false} ClaimsAreVisited(counts: seq<nat>, days: nat)
    ensures Claims(counts, days) == VisitedCounts(counts, days)
  {
    if counts == [] {
    } else {
      var rest, fewer := counts[1..], if counts[0] > 0 && days > 0 then days - 1 else days;
      ClaimsAreVisited(rest, fewer);
      forall i | 0 <= i < |counts| ensures Claims(counts, days)[i] == VisitedCounts(counts, days)[i] {
        if i > 0 {
          VisitedAfterFirst(counts, days, i);
          assert Claims(counts, days)[i] == Claims(rest, fewer)[i - 1];
        } else {
          assert counts[..0] == [];
        }
      }
    }
  }

  /** The integer arithmetic of the split is that of exact claims. */
  lemma ShareFacts(counts: seq<nat>, days: nat, i: nat)
    requires i < |counts| && Sum(VisitedCounts(counts, days)) > 0
    ensures var claims, total := VisitedCounts(counts, days), Sum(VisitedCounts(counts, days));
      && Bases(claims, days)[i] == WholeDays(counts, days)[i]
      && (Visited(counts, days, i) ==> Rest(counts, days, i) == FractionAt(claims, days, i) as real / total as real)
  {
    var claims, total := VisitedCounts(counts, days), Sum(VisitedCounts(counts, days));
    if Visited(counts, days, i) {
      WholePart(days * counts[i], total);
    }
  }

  lemma BasesAreWholeDays(counts: seq<nat>, days: nat)
    requires Sum(VisitedCounts(counts, days)) > 0
    ensures Bases(VisitedCounts(counts, days), days) == WholeDays(counts, days)
  {
    forall i | 0 <= i < |counts| ensures Bases(VisitedCounts(counts, days), days)[i] == WholeDays(counts, days)[i] {
      ShareFacts(counts, days, i);
    }
  }

  lemma LevelledIsTakenBack(counts: seq<nat>, days: nat, allocation: seq<nat>)
    requires Sum(VisitedCounts(counts, days)) > 0 && Levelled(Bases(VisitedCounts(counts, days), days), allocation)
    ensures TakenBack(counts, days, allocation)
  {
    BasesAreWholeDays(counts, days);
  }

  lemma ToppedIsToppedUp(counts: seq<nat>, days: nat, allocation: seq<nat>)
    requires Sum(VisitedCounts(counts, days)) > 0
    requires var claims := VisitedCounts(counts, days); Topped(Bases(claims, days), allocation, claims, days)
    ensures ToppedUp(counts, days, allocation)
  {
    var claims, whole := VisitedCounts(counts, days), WholeDays(counts, days);
    BasesAreWholeDays(counts, days);
    forall i, j | 0 <= i < |counts| && 0 <= j < |counts| && Visited(counts, days, j) && whole[i] < allocation[i] && whole[j] == allocation[j]
      ensures Rest(counts, days, i) > Rest(counts, days, j) || (Rest(counts, days, i) == Rest(counts, days, j) && i < j)
    {
      ShareFacts(counts, days, i);
      ShareFacts(counts, days, j);
      assert ByFraction(claims, days)(i, j);
      RealOrder(FractionAt(claims, days, i), FractionAt(claims, days, j), Sum(claims));
    }
  }

  /** All days split over the visited cities, none of which is left without one. */
  ghost predicate FairSplit(counts: seq<nat>, days: nat, allocation: seq<nat>)
  {
    && |allocation| == |counts| && Sum(allocation) == days
    && (forall i | 0 <= i < |counts| :: allocation[i] > 0 <==> Visited(counts, days, i))
    && if Sum(WholeDays(counts, days)) > days then TakenBack(counts, days, allocation) else ToppedUp(counts, days, allocation)
  }

  /** Every day is given out; each of the first `days` cities with candidates gets at least one and
      no other city any. If whole days for everybody are too many some are taken back, otherwise
      the days left over go to the largest rests. */
  method AllocateDays(counts: seq<nat>, days: int) returns (allocation: seq<nat>)
    ensures |allocation| == |counts|
    ensures days <= 0 || (forall i | 0 <= i < |counts| :: counts[i] == 0) ==> forall i | 0 <= i < |counts| :: allocation[i] == 0
    ensures days > 0 && (exists i | 0 <= i < |counts| :: counts[i] > 0) ==> FairSplit(counts, days, allocation)
  {
    if days <= 0 || counts == [] {
      return seq(|counts|, _ => 0);
    }
    var claims := Claims(counts, days);
    ClaimsSum(counts, days);
    SumNonNegative(claims);
    if Sum(claims) == 0 {
      return seq(|counts|, _ => 0);
    }
    allocation := AllocateClaims(claims, days);
    ClaimsAreVisited(counts, days);
    BasesAreWholeDays(counts, days);
    if Sum(Bases(claims, days)) > days {
      LevelledIsTakenBack(counts, days, allocation);
    } else {
      ToppedIsToppedUp(counts, days, allocation);
    }
  }

  lemma LessSomewhere(a: seq<nat>, b: seq<nat>, i: nat) returns (j: nat)
    requires |a| == |b| && Sum(a) == Sum(b) && i < |a| && a[i] > b[i]
    ensures j < |a| && a[j] < b[j]
  {
    if k :| 0 <= k < |a| && a[k] < b[k] {
      j := k;
    } else {
      SumUpdate(a, i, b[i]);
      SumMonotone(b, a[i := b[i]]);
      assert false;
    }
  }

  /** That leaves nothing open: there is one such split. */
  lemma FairSplitUnique(counts: seq<nat>, days: nat, a: seq<nat>, b: seq<nat>)
    requires FairSplit(counts, days, a) && FairSplit(counts, days, b)
    ensures a == b
  {
    if i :| 0 <= i < |a| && a[i] > b[i] {
      var j := LessSomewhere(a, b, i);
      assert false;
    } else if i :| 0 <= i < |a| && a[i] < b[i] {
      var j := LessSomewhere(b, a, i);
      assert false;
    }
  }

  // ----- reviewed days, blocks, and the way back -----

  function SuggestedOrder(count: nat, priority: Option<nat>): seq<nat>
  {
    match priority
    case None => Range(count)
    case Some(p) => [p] + seq(count, i => i)[..Min(p, count)] + seq(count, i => i)[Min(p + 1, count)..]
  }

  lemma SuggestedOrderFacts(count: nat, priority: Option<nat>)
    requires priority.Some? ==> priority.value < count
    ensures |SuggestedOrder(count, priority)| == count && Distinct(SuggestedOrder(count, priority))
    ensures forall i | i in SuggestedOrder(count, priority) :: i < count
    ensures priority.Some? ==> SuggestedOrder(count, priority)[0] == priority.value
  {
  }

  /** A city's turn when extra days go round: the priority city first, the others as listed. */
  function Turn(i: nat, priority: Option<nat>): nat
  {
    match priority
    case None => i
    case Some(p) => if i == p then 0 else if i < p then i + 1 else i
  }

  lemma TurnInOrder(count: nat, priority: Option<nat>, extra: nat, i: nat)
    requires extra <= count && i < count && (priority.Some? ==> priority.value < count)
    ensures extra <= |SuggestedOrder(count, priority)|
    ensures i in SuggestedOrder(count, priority)[..extra] <==> Turn(i, priority) < extra
  {
    var order, turn := SuggestedOrder(count, priority), Turn(i, priority);
    SuggestedOrderFacts(count, priority);
    assert order[turn] == i;
    if turn < extra {
      assert order[..extra][turn] == i;
    }
  }

  /** A whole share each, and one day more for the first cities in order. */
  function EvenSplit(days: nat, count: nat, priority: Option<nat>): (r: seq<nat>)
    requires count > 0
    ensures |r| == count
  {
    var whole, extra := days / count, days % count;
    seq(count, (i: nat) => whole + ExtraDay(i, SuggestedOrder(count, priority), extra))
  }

  function ExtraDay(i: nat, order: seq<nat>, extra: nat): nat
  {
    if extra <= |order| && i in order[..extra] then 1 else 0
  }

  /** An even split: every city a whole share, the first ones in order one day more, the
      priority city before all others. It fails exactly when a city would be left without. */
  method SuggestedCityDays(days: nat, count: nat, priority: Option<nat>) returns (r: Option<seq<nat>>)
    ensures r.Some? <==> count >= 1 && days >= count && (priority.Some? ==> priority.value < count)
    ensures r.Some? ==> |r.value| == count && Sum(r.value) == days && r.value == EvenSplit(days, count, priority)
    ensures r.Some? ==> forall i | 0 <= i < count :: r.value[i] == days / count || r.value[i] == days / count + 1
    ensures r.Some? ==> forall i | 0 <= i < count ::
      r.value[i] == days / count + if Turn(i, priority) < days % count then 1 else 0
    ensures r.Some? && priority.Some? ==> forall i | 0 <= i < count :: r.value[i] <= r.value[priority.value]
  {
    if count < 1 || days < count || (priority.Some? && priority.value >= count) {
      return None;
    }
    SuggestedOrderFacts(count, priority);
    var result := SpreadEvenly(days, count, SuggestedOrder(count, priority));
    forall i | 0 <= i < count ensures result[i] == days / count + if Turn(i, priority) < days % count then 1 else 0 {
      TurnInOrder(count, priority, days % count, i);
    }
    return Some(result);
  }

  lemma DivideEvenly(days: nat, count: nat)
    requires count > 0
    ensures days / count * count + days % count == days && days % count < count
  {
  }

  lemma FrontGetsMost(base: seq<nat>, result: seq<nat>, order: seq<nat>, extra: nat)
    requires extra <= |order| && order != [] && order[0] < |base| && Handed(base, result, order, extra)
    requires forall i, j | 0 <= i < |base| && 0 <= j < |base| :: base[i] == base[j]
    ensures forall i | 0 <= i < |base| :: result[i] <= result[order[0]]
  {
    if extra > 0 {
      assert order[..extra][0] == order[0];
    }
  }

  /** A whole share each, and one day more for the first cities in order until none is left. */
  method SpreadEvenly(days: nat, count: nat, order: seq<nat>) returns (result: seq<nat>)
    requires 1 <= count == |order| && Distinct(order) && forall i | i in order :: i < count
    ensures |result| == count && Sum(result) == days
    ensures forall i | 0 <= i < count :: result[i] == days / count + ExtraDay(i, order, days % count)
    ensures forall i | 0 <= i < count :: result[i] == days / count || result[i] == days / count + 1
    ensures order[0] < count && forall i | 0 <= i < count :: result[i] <= result[order[0]]
  {
    var whole, remainder := days / count, days % count;
    DivideEvenly(days, count);
    assert order[0] in order;
    var base: seq<nat> := seq(count, _ => whole);
    SumOf(base, whole);
    result := base;
    for k := 0 to remainder
      invariant Handed(base, result, order, k) && Sum(result) == whole * count + k
    {
      result := AddDay(base, result, order, k, k);
    }
    FrontGetsMost(base, result, order, remainder);
  }

  /** The first day of a city's block. */
  function BlockStart(counts: seq<nat>, city: nat): nat
    requires city <= |counts|
  {
    SumNonNegative(counts[..city]);
    Sum(counts[..city])
  }

  predicate InBlock(counts: seq<nat>, city: nat, day: int)
    requires city < |counts|
  {
    BlockStart(counts, city) <= day < BlockStart(counts, city + 1)
  }

  lemma BlockGrows(counts: seq<nat>, i: nat, j: nat)
    requires i <= j <= |counts|
    ensures BlockStart(counts, i) <= BlockStart(counts, j)
    ensures i < j ==> BlockStart(counts, i + 1) == BlockStart(counts, i) + counts[i]
  {
    assert counts[..j] == counts[..i] + counts[i..j];
    SumSplit(counts[..i], counts[i..j]);
    SumNonNegative(counts[i..j]);
    if i < j {
      assert counts[..i + 1] == counts[..i] + [counts[i]];
      SumSplit(counts[..i], [counts[i]]);
    }
  }

  /** The block a day falls in, counted from the front. */
  function BlockOf(counts: seq<nat>, day: nat): nat
  {
    if counts == [] || day < counts[0] then 0 else 1 + BlockOf(counts[1..], day - counts[0])
  }

  lemma {:induction false} BlockOfIsItsBlock(counts: seq<nat>, day: nat)
    requires day < Sum(counts)
    ensures BlockOf(counts, day) < |counts| && InBlock(counts, BlockOf(counts, day), day)
  {
    if day >= counts[0] {
      BlockOfIsItsBlock(counts[1..], day - counts[0]);
      var c := BlockOf(counts[1..], day - counts[0]);
      assert counts[..c + 1] == [counts[0]] + counts[1..][..c];
      assert counts[..c + 2] == [counts[0]] + counts[1..][..c + 1];
    } else {
      assert counts[..1] == [counts[0]] && [counts[0]][1..] == [];
    }
  }

  /** Blocks are disjoint, and a day of the trip lies in the one it is counted into. */
  lemma InBlockIff(counts: seq<nat>, city: nat, day: nat)
    requires city < |counts| && day < Sum(counts)
    ensures InBlock(counts, city, day) <==> city == BlockOf(counts, day)
  {
    BlockOfIsItsBlock(counts, day);
    var home := BlockOf(counts, day);
    if city < home {
      BlockGrows(counts, city + 1, home);
    } else if home < city {
      BlockGrows(counts, home + 1, city);
    }
  }

  // ----- a day's city, when editing -----

  /** What a trip's city days depend on: how many days and cities it has, the days reviewed for
      each city (none when nobody reviewed them) and its priority city. */
  datatype TripDays = TripDays(days: nat, cities: nat, reviewed: seq<nat>, priority: Option<nat>)

  /** What a trip checks when it is made. */
  predicate ValidPlan(trip: TripDays)
  {
    && (trip.reviewed != [] ==> |trip.reviewed| == trip.cities && Sum(trip.reviewed) == trip.days)
    && (trip.priority.Some? ==> trip.priority.value < trip.cities)
  }

  /** The split editing reads: the reviewed one, or an even one over the cities (one city when
      the trip lists none), which does not exist on a trip with more cities than days. */
  function EditSplit(trip: TripDays): Option<seq<nat>>
  {
    var count := Max(trip.cities, 1);
    if trip.reviewed != [] then Some(trip.reviewed)
    else if trip.days < count then None
    else Some(EvenSplit(trip.days, count, trip.priority))
  }

  /** Whether the city already on a day decides: only while nobody reviewed the city days, and
      only if it is one of the trip's. */
  predicate ExistingDecides(trip: TripDays, existing: Option<nat>)
  {
    trip.reviewed == [] && existing.Some? && existing.value < trip.cities
  }

  /** A day's city, for an edit of that day. */
  function EditCity(trip: TripDays, day: int, existing: Option<nat>): Option<nat>
  {
    if day < 0 || trip.days <= day then None
    else if ExistingDecides(trip, existing) then existing
    else match EditSplit(trip)
      case None => None
      case Some(split) => Some(BlockOf(split, day))
  }

  /** The city already on the day wins on a trip nobody reviewed. Otherwise the search back finds
      the one city whose block holds the day. It fails only for a day outside the trip, or when
      there is no split to search. */
  method CityForDay(trip: TripDays, day: int, existing: Option<nat>) returns (city: Option<nat>)
    requires ValidPlan(trip)
    ensures city == EditCity(trip, day, existing)
    ensures city.Some? <==> 0 <= day < trip.days && (ExistingDecides(trip, existing) || EditSplit(trip).Some?)
    ensures city.Some? && !ExistingDecides(trip, existing) ==>
      var counts := EditSplit(trip).value;
      forall c | 0 <= c < |counts| :: InBlock(counts, c, day) <==> city == Some(c)
  {
    if day < 0 || trip.days <= day {
      return None;
    }
    if trip.reviewed == [] && existing.Some? && existing.value < trip.cities {
      return existing;
    }
    var counts := trip.reviewed;
    if counts == [] {
      var even := SuggestedCityDays(trip.days, Max(trip.cities, 1), trip.priority);
      if even.None? {
        return None;
      }
      counts := even.value;
    }
    forall c | 0 <= c < |counts| ensures InBlock(counts, c, day) <==> c == BlockOf(counts, day) {
      InBlockIff(counts, c, day);
    }
    BlockOfIsItsBlock(counts, day);
    city := SearchBack(counts, day);
  }

  method SearchBack(counts: seq<nat>, day: nat) returns (city: Option<nat>)
    requires day < Sum(counts)
    ensures city == Some(BlockOf(counts, day))
  {
    assert counts[..|counts|] == counts;
    var offset := 0;
    for c := 0 to |counts|
      invariant offset == BlockStart(counts, c) && offset <= day
    {
      BlockGrows(counts, c, c + 1);
      offset := offset + counts[c];
      if day < offset {
        InBlockIff(counts, c, day);
        return Some(c);
      }
    }
    return None;
  }

  /** A scheduled stop, as far as a day's city goes: its day, and the city its place is recorded
      in, if any. Numbers past the trip's cities are towns that are not among them. */
  datatype Placed = Placed(day: nat, city: Option<nat>)

  function RecordedCities(stops: seq<Placed>, day: int): set<nat>
  {
    set s | s in stops && s.day == day && s.city.Some? :: s.city.value
  }

  /** The city already on a day: the one its stops are recorded in, if they name exactly one. */
  ghost function ExistingCity(stops: seq<Placed>, day: int): Option<nat>
  {
    var found := RecordedCities(stops, day);
    if |found| == 1 then var city :| city in found; Some(city) else None
  }

  /** Scheduling uses the reviewed split too, but without one the split by candidates. */
  function ScheduleSplit(trip: TripDays, byCandidates: seq<nat>): seq<nat>
  {
    if trip.reviewed != [] then trip.reviewed else byCandidates
  }

  /** Scheduling puts a place of one of the trip's cities on a day of that city's block only. */
  predicate Scheduled(trip: TripDays, split: seq<nat>, stops: seq<Placed>)
    requires |split| == trip.cities
  {
    forall s | s in stops && s.city.Some? && s.city.value < trip.cities :: InBlock(split, s.city.value, s.day)
  }

  /** Some stop of the day is in the city, and none is recorded in another. */
  predicate NamesCity(stops: seq<Placed>, day: int, city: nat)
  {
    && (exists s :: s in stops && s.day == day && s.city == Some(city))
    && forall s | s in stops && s.day == day && s.city.Some? :: s.city.value == city
  }

  predicate NamesOneCity(trip: TripDays, stops: seq<Placed>, day: int)
  {
    exists c | 0 <= c < trip.cities :: NamesCity(stops, day, c)
  }

  lemma NamesCityIff(stops: seq<Placed>, day: int, city: nat)
    ensures NamesCity(stops, day, city) <==> RecordedCities(stops, day) == {city}
  {
    var found := RecordedCities(stops, day);
    if NamesCity(stops, day, city) {
      assert city in found && forall c | c in found :: c == city;
    } else if found == {city} {
      assert city in found;
      forall s | s in stops && s.day == day && s.city.Some? ensures s.city.value == city {
        assert s.city.value in found;
      }
    }
  }

  lemma SoleMember(found: set<nat>, city: nat)
    requires |found| == 1 && city in found
    ensures found == {city}
  {
    assert |found - {city}| == 0;
    assert found == (found - {city}) + {city};
  }

  lemma ExistingCityMeans(trip: TripDays, stops: seq<Placed>, day: int)
    requires trip.reviewed == []
    ensures ExistingDecides(trip, ExistingCity(stops, day)) <==> NamesOneCity(trip, stops, day)
    ensures ExistingCity(stops, day).Some? ==> NamesCity(stops, day, ExistingCity(stops, day).value)
  {
    var found := RecordedCities(stops, day);
    if ExistingCity(stops, day).Some? {
      SoleMember(found, ExistingCity(stops, day).value);
      NamesCityIff(stops, day, ExistingCity(stops, day).value);
    }
    if c :| 0 <= c < trip.cities && NamesCity(stops, day, c) {
      NamesCityIff(stops, day, c);
      assert |{c}| == 1 && ExistingCity(stops, day).Some? && ExistingCity(stops, day).value in {c};
    }
  }

  /** Editing disagrees with scheduling about a day's city exactly when nobody reviewed the city
      days, the day's stops do not name exactly one of the trip's cities, and the even split puts
      the day in another block than the split by candidates (or there is no even split). */
  lemma EditingDisagreesIff(trip: TripDays, byCandidates: seq<nat>, stops: seq<Placed>, day: nat)
    requires ValidPlan(trip) && trip.cities > 0 && day < trip.days
    requires |byCandidates| == trip.cities && Sum(byCandidates) == trip.days
    requires Scheduled(trip, ScheduleSplit(trip, byCandidates), stops)
    ensures EditCity(trip, day, ExistingCity(stops, day)) != Some(BlockOf(ScheduleSplit(trip, byCandidates), day)) <==>
      && trip.reviewed == []
      && !NamesOneCity(trip, stops, day)
      && (trip.days < trip.cities
          || BlockOf(EvenSplit(trip.days, trip.cities, trip.priority), day) != BlockOf(byCandidates, day))
  {
    if trip.reviewed == [] {
      ExistingCityMeans(trip, stops, day);
      var existing := ExistingCity(stops, day);
      if ExistingDecides(trip, existing) {
        var stop :| stop in stops && stop.day == day && stop.city == existing;
        InBlockIff(byCandidates, existing.value, day);
      }
    }
  }

  /** Without stops to go by, two splits give every day the same city only if they are equal. */
  lemma BlocksAgreeOnlyIfEqual(a: seq<nat>, b: seq<nat>)
    requires |a| == |b| && Sum(a) == Sum(b)
    ensures (forall day: nat | day < Sum(a) :: BlockOf(a, day) == BlockOf(b, day)) <==> a == b
  {
    if a != b {
      var day := DisputedDay(a, b);
      assert BlockOf(a, day) != BlockOf(b, day);
    }
  }

  lemma {:induction false} DisputedDay(a: seq<nat>, b: seq<nat>) returns (day: nat)
    requires |a| == |b| && Sum(a) == Sum(b) && a != b
    ensures day < Sum(a) && BlockOf(a, day) != BlockOf(b, day)
  {
    SumNonNegative(a[1..]);
    SumNonNegative(b[1..]);
    if a[0] != b[0] {
      day := Min(a[0], b[0]);
    } else {
      assert a == [a[0]] + a[1..] && b == [b[0]] + b[1..];
      var rest := DisputedDay(a[1..], b[1..]);
      day := rest + a[0];
    }
  }

  /** Four days nobody reviewed, three candidates in the first city and one in the second:
      scheduling gives the first city three days, editing two. The third day got no stop, so
      editing takes it for a day in the second city. */
  lemma EmptyDayChangesCity()
    ensures FairSplit([3, 1], 4, [3, 1])
    ensures var trip := TripDays(4, 2, [], None);
      var stops := [Placed(0, Some(0)), Placed(1, Some(0)), Placed(3, Some(1))];
      && ValidPlan(trip) && Scheduled(trip, [3, 1], stops)
      && BlockOf([3, 1], 2) == 0 && EditCity(trip, 2, ExistingCity(stops, 2)) == Some(1)
  {
    assert Sum([3, 1]) == 4;
    assert [3, 1][..0] == [] && [3, 1][..1] == [3] && [3, 1][..2] == [3, 1];
    assert VisitedCounts([3, 1], 4) == [3, 1];
    assert WholeDays([3, 1], 4) == [3, 1];
    var trip := TripDays(4, 2, [], None);
    var stops := [Placed(0, Some(0)), Placed(1, Some(0)), Placed(3, Some(1))];
    assert RecordedCities(stops, 2) == {};
    assert EvenSplit(4, 2, None) == [2, 2];
    assert [2, 2][1..] == [2];
  }
}
