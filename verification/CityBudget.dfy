/** Splitting a trip budget. */
module CityBudget {
  // `allocate_city_budget` in syncinerary/agents/gather/social.py: a budget of a whole trip is split
  // across its cities. Shares are exact rationals over the total days.

  import opened Schedule
  import opened Sums
  import opened Apportion
  import Sorting

  function TotalDays(dayCounts: seq<nat>): nat
    requires dayCounts != []
    ensures TotalDays(dayCounts) > 0
  {
    if Sum(dayCounts) <= 0 then |dayCounts| else Sum(dayCounts)
  }

  /** The whole part of a city's share, with the floor of one. */
  function Floor(budget: nat, days: nat, total: nat): nat
    requires total > 0
  {
    if budget * days / total < 1 then 1 else budget * days / total
  }

  /** What the floor leaves of the share, in units of one over `total`. */
  function Remainder(budget: nat, days: nat, total: nat): nat
    requires total > 0
  {
    if budget * days < total then 0 else budget * days % total
  }

  function Floors(dayCounts: seq<nat>, budget: nat): seq<nat>
    requires dayCounts != []
  {
    seq(|dayCounts|, i requires 0 <= i < |dayCounts| => Floor(budget, dayCounts[i], TotalDays(dayCounts)))
  }

  function Remainders(dayCounts: seq<nat>, budget: nat): seq<nat>
    requires dayCounts != []
  {
    seq(|dayCounts|, i requires 0 <= i < |dayCounts| => Remainder(budget, dayCounts[i], TotalDays(dayCounts)))
  }

  function At(s: seq<nat>, i: nat): nat { if i < |s| then s[i] else 0 }

  /** Larger remainder first, the earlier city on a tie. */
  function ClaimsFirst(remainders: seq<nat>): (nat, nat) -> bool
  {
    (i: nat, j: nat) => At(remainders, i) > At(remainders, j) || (At(remainders, i) == At(remainders, j) && i <= j)
  }

  function Order(dayCounts: seq<nat>, budget: nat): seq<nat>
    requires dayCounts != []
  {
    Sorting.Sort(Range(|dayCounts|), ClaimsFirst(Remainders(dayCounts, budget)))
  }

  /** How many elements `order[:k]` selects from `n`: a negative k counts from the end. */
  function SliceLength(n: nat, k: int): nat
  {
    if k < 0 then (if n + k < 0 then 0 else n + k) else if k < n then k else n
  }

  function Leftover(dayCounts: seq<nat>, budget: nat): int
    requires dayCounts != []
  {
    budget - Sum(Floors(dayCounts, budget))
  }

  function Raised(dayCounts: seq<nat>, budget: nat): seq<nat>
    requires dayCounts != []
  {
    var order := Order(dayCounts, budget);
    order[..SliceLength(|order|, Leftover(dayCounts, budget))]
  }

  /** The allocation as one expression. */
  function CityBudgets(dayCounts: seq<nat>, budget: int): (r: seq<nat>)
    ensures |r| == |dayCounts|
  {
    if dayCounts == [] then []
    else if budget <= |dayCounts| then seq(|dayCounts|, i => if i < budget then 1 else 0)
    else
      seq(|dayCounts|, i requires 0 <= i < |dayCounts| =>
        Floors(dayCounts, budget)[i] + (if i in Raised(dayCounts, budget) then 1 else 0))
  }

  /** The budget can be dealt out without raising a city above its share: there is no more of it
      than cities, or the shares rounded up to one still add up. */
  predicate Fits(dayCounts: seq<nat>, budget: nat)
  {
    dayCounts == [] || budget <= |dayCounts| || Sum(Floors(dayCounts, budget)) <= budget
  }

  lemma OrderIsRearranged(dayCounts: seq<nat>, budget: nat)
    requires dayCounts != []
    ensures |Order(dayCounts, budget)| == |dayCounts| && Distinct(Order(dayCounts, budget))
    ensures forall i | i in Order(dayCounts, budget) :: i < |dayCounts|
    ensures Distinct(Raised(dayCounts, budget))
    ensures forall i | i in Raised(dayCounts, budget) :: i < |dayCounts|
  {
    var range := Range(|dayCounts|);
    Sorting.SortKeeps(range, ClaimsFirst(Remainders(dayCounts, budget)));
    DistinctRearranged(range, Order(dayCounts, budget));
    forall i | i in Raised(dayCounts, budget) ensures i in Order(dayCounts, budget) {
    }
  }

  /** The loop as written: floors first, then one more for each of `order[:leftover]`. */
  method AllocateCityBudget(dayCounts: seq<nat>, budget: int) returns (floors: seq<nat>)
    ensures floors == CityBudgets(dayCounts, budget)
  {
    if dayCounts == [] {
      return [];
    }
    if budget <= |dayCounts| {
      return seq(|dayCounts|, i => if i < budget then 1 else 0);
    }
    floors := Floors(dayCounts, budget);
    var leftover := budget - Sum(floors);
    var order := Order(dayCounts, budget);
    var raised := order[..SliceLength(|order|, leftover)];
    OrderIsRearranged(dayCounts, budget);
    for k := 0 to |raised|
      invariant |floors| == |dayCounts|
      invariant forall i | 0 <= i < |floors| ::
        floors[i] == Floors(dayCounts, budget)[i] + (if i in raised[..k] then 1 else 0)
    {
      var index := raised[k];
      assert index in raised && index !in raised[..k];
      assert raised[..k + 1] == raised[..k] + [index];
      floors := floors[index := floors[index] + 1];
    }
    assert raised[..|raised|] == raised;
  }

  /** One more for each of `k` distinct positions adds `k` to the sum. */
  lemma {:induction false} SumRaised(base: seq<nat>, at: seq<nat>, all: seq<nat>)
    requires Distinct(at) && (forall i | i in at :: i < |base|) && |all| == |base|
    requires forall i | 0 <= i < |base| :: all[i] == base[i] + (if i in at then 1 else 0)
    ensures Sum(all) == Sum(base) + |at|
  {
    if at == [] {
      assert all == base;
    } else {
      var last := at[|at| - 1];
      assert last in at && last !in at[..|at| - 1];
      assert at == at[..|at| - 1] + [last];
      var front := at[..|at| - 1];
      forall i | i in front ensures i in at {
      }
      var less := all[last := base[last]];
      SumRaised(base, front, less);
      SumUpdate(less, last, all[last]);
      assert less[last := all[last]] == all;
    }
  }

  lemma SumOfFloorsAndRaised(dayCounts: seq<nat>, budget: int)
    requires |dayCounts| < budget && dayCounts != []
    ensures Sum(CityBudgets(dayCounts, budget))
         == Sum(Floors(dayCounts, budget)) + SliceLength(|dayCounts|, Leftover(dayCounts, budget))
  {
    OrderIsRearranged(dayCounts, budget);
    SumRaised(Floors(dayCounts, budget), Raised(dayCounts, budget), CityBudgets(dayCounts, budget));
  }

  lemma {:induction false} SumOfOnes(n: nat, budget: int)
    ensures Sum(seq(n, i => if i < budget then 1 else 0)) == if budget < 0 then 0 else if budget < n then budget else n
  {
    var s := seq(n, i => if i < budget then 1 else 0);
    if n == 0 {
    } else {
      var t := seq(n - 1, i => if i < budget then 1 else 0);
      assert s == t + [s[n - 1]];
      SumOfOnes(n - 1, budget);
      SumSplit(t, [s[n - 1]]);
    }
  }

  /** The floors never fall short of the budget by as much as one per city. */
  lemma LeftoverBelowCities(dayCounts: seq<nat>, budget: nat)
    requires dayCounts != [] && Sum(dayCounts) > 0
    ensures Leftover(dayCounts, budget) <= |dayCounts|
  {
    var n, total := |dayCounts|, TotalDays(dayCounts);
    var whole := seq(n, i requires 0 <= i < n => budget * dayCounts[i] / total);
    WholeNearBudget(dayCounts, budget, total, n, Sum(whole));
    SumMonotone(whole, Floors(dayCounts, budget));
  }

  lemma WholeNearBudget(dayCounts: seq<nat>, budget: nat, total: nat, n: nat, whole: int)
    requires total == Sum(dayCounts) > 0 && n == |dayCounts|
    requires whole == Sum(seq(n, i requires 0 <= i < n => budget * dayCounts[i] / total))
    ensures budget <= whole + n
  {
    WholeParts(dayCounts, budget, total, n);
    assert dayCounts[..n] == dayCounts;
    Commuted(budget, total);
    CancelFactor(total, budget, whole + Positives(dayCounts));
    PositivesAtMost(dayCounts);
  }

  lemma Commuted(a: int, b: int)
    ensures a * b == b * a
  {
  }

  /** The split spends exactly the budget if and only if the floors fit it: raising small
      cities to one may overshoot, and then the negative slice raises still more cities. */
  lemma ExactIffFloorsFit(dayCounts: seq<nat>, budget: nat)
    requires dayCounts != [] && Sum(dayCounts) > 0
    ensures Sum(CityBudgets(dayCounts, budget)) >= budget
    ensures Sum(CityBudgets(dayCounts, budget)) == budget <==> Fits(dayCounts, budget)
  {
    if budget <= |dayCounts| {
      SumOfOnes(|dayCounts|, budget);
    } else {
      SumOfFloorsAndRaised(dayCounts, budget);
      LeftoverBelowCities(dayCounts, budget);
    }
  }

  /** The total is the budget if the floors fit it. If they do not, the slice counts from the end: the
      total is one per city above the budget, or the floors where those are more. */
  lemma SumOfCityBudgets(dayCounts: seq<nat>, budget: nat)
    requires |dayCounts| < budget && Sum(dayCounts) > 0
    ensures var floors := Sum(Floors(dayCounts, budget));
      Sum(CityBudgets(dayCounts, budget)) == if floors <= budget then budget else Max(floors, budget + |dayCounts|)
  {
    SumOfFloorsAndRaised(dayCounts, budget);
    LeftoverBelowCities(dayCounts, budget);
  }

  /** Whenever every exact share is at least one the floors fit. */
  lemma SharesOfOneFit(dayCounts: seq<nat>, budget: nat)
    requires dayCounts != []
    requires forall i | 0 <= i < |dayCounts| :: TotalDays(dayCounts) <= budget * dayCounts[i]
    ensures Sum(Floors(dayCounts, budget)) <= budget
  {
    var n, total := |dayCounts|, TotalDays(dayCounts);
    assert budget * dayCounts[0] > 0;
    PositiveEntry(dayCounts, 0);
    var whole := seq(n, i requires 0 <= i < n => budget * dayCounts[i] / total);
    forall i | 0 <= i < n ensures whole[i] == Floors(dayCounts, budget)[i] {
      DivideBounds(budget * dayCounts[i], total);
      CancelFactor(total, 0, whole[i]);
    }
    assert whole == Floors(dayCounts, budget);
    WholeParts(dayCounts, budget, total, n);
    assert dayCounts[..n] == dayCounts;
    assert budget * total == total * budget;
    CancelFactor(total, Sum(whole), budget);
  }

  lemma PositiveEntry(s: seq<nat>, i: nat)
    requires i < |s| && s[i] > 0
    ensures Sum(s) > 0
  {
    var zeros := seq(|s|, _ => 0);
    SumOf(zeros, 0);
    SumUpdate(zeros, i, s[i]);
    SumMonotone(zeros[i := s[i]], s);
  }

  /** Each city whose share is at least one gets its share rounded down or up. */
  lemma WithinOneOfShare(dayCounts: seq<nat>, budget: nat, i: nat)
    requires |dayCounts| < budget && i < |dayCounts|
    requires TotalDays(dayCounts) <= budget * dayCounts[i]
    ensures var total: int, got: int := TotalDays(dayCounts), CityBudgets(dayCounts, budget)[i];
      total * (got - 1) <= budget * dayCounts[i] < total * (got + 1)
  {
    var total, claim := TotalDays(dayCounts), budget * dayCounts[i];
    var q: int := claim / total;
    DivideBounds(claim, total);
    CancelFactor(total, 0, q);
    Distribute(total, q, 1);
    Distribute(total, q, 2);
    Distribute(total, q, -1);
    var got: int := CityBudgets(dayCounts, budget)[i];
    assert q >= 1 && Floors(dayCounts, budget)[i] == q;
    assert got == q || got == q + 1;
  }

  /** The extra units go to the largest remainders, the earlier city winning a tie. */
  lemma LargestRemainderFirst(dayCounts: seq<nat>, budget: nat, i: nat, j: nat)
    requires |dayCounts| < budget && i < |dayCounts| && j < |dayCounts|
    requires CityBudgets(dayCounts, budget)[i] > Floors(dayCounts, budget)[i]
    requires CityBudgets(dayCounts, budget)[j] == Floors(dayCounts, budget)[j]
    ensures ClaimsFirst(Remainders(dayCounts, budget))(i, j)
  {
    var order, raised := Order(dayCounts, budget), Raised(dayCounts, budget);
    OrderIsRearranged(dayCounts, budget);
    OrderCovers(dayCounts, budget, j);
    assert i in raised && j !in raised;
    EarlierInOrder(order, ClaimsFirst(Remainders(dayCounts, budget)), |raised|, i, j);
  }

  // ----- the split in exact shares -----

  /** A city's share of the budget in proportion to its days, but at least one. */
  function Share(dayCounts: seq<nat>, budget: nat, i: nat): real
    requires i < |dayCounts|
  {
    var share := (budget * dayCounts[i]) as real / TotalDays(dayCounts) as real;
    if share < 1.0 then 1.0 else share
  }

  function Whole(dayCounts: seq<nat>, budget: nat, i: nat): int
    requires i < |dayCounts|
  {
    Share(dayCounts, budget, i).Floor
  }

  function Rest(dayCounts: seq<nat>, budget: nat, i: nat): real
    requires i < |dayCounts|
  {
    Share(dayCounts, budget, i) - Whole(dayCounts, budget, i) as real
  }

  /** The integer arithmetic of the split is that of exact shares. */
  lemma ShareFacts(dayCounts: seq<nat>, budget: nat, i: nat)
    requires i < |dayCounts|
    ensures Floors(dayCounts, budget)[i] == Whole(dayCounts, budget, i)
    ensures Rest(dayCounts, budget, i) == Remainders(dayCounts, budget)[i] as real / TotalDays(dayCounts) as real
  {
    var total, claim := TotalDays(dayCounts), budget * dayCounts[i];
    WholePart(claim, total);
    RealOrder(claim, total, total);
    RealOrder(total, claim, total);
    if claim < total {
      assert claim / total == 0;
    } else {
      assert claim / total >= 1;
    }
  }

  /** With more to spend than cities, each gets the whole part of its share or one more, and the larger
      rests, the earlier on a tie, get the extra ones first. */
  lemma SplitMeans(dayCounts: seq<nat>, budget: nat, i: nat, j: nat)
    requires |dayCounts| < budget && i < |dayCounts| && j < |dayCounts|
    ensures var r, whole, rest := CityBudgets(dayCounts, budget), Whole(dayCounts, budget, i), Rest(dayCounts, budget, i);
      && (r[i] == whole || r[i] == whole + 1)
      && (r[i] > whole && r[j] == Whole(dayCounts, budget, j) ==>
            rest > Rest(dayCounts, budget, j) || (rest == Rest(dayCounts, budget, j) && i < j))
  {
    ShareFacts(dayCounts, budget, i);
    ShareFacts(dayCounts, budget, j);
    if CityBudgets(dayCounts, budget)[i] > Floors(dayCounts, budget)[i] && CityBudgets(dayCounts, budget)[j] == Floors(dayCounts, budget)[j] {
      LargestRemainderFirst(dayCounts, budget, i, j);
      var remainders := Remainders(dayCounts, budget);
      RealOrder(remainders[i], remainders[j], TotalDays(dayCounts));
    }
  }

  lemma OrderCovers(dayCounts: seq<nat>, budget: nat, j: nat)
    requires j < |dayCounts|
    ensures j in Order(dayCounts, budget)
    ensures Sorting.Ordered(Order(dayCounts, budget), ClaimsFirst(Remainders(dayCounts, budget)))
  {
    var le := ClaimsFirst(Remainders(dayCounts, budget));
    var range := Range(|dayCounts|);
    Sorting.SortOrders(range, le);
    Sorting.SortKeeps(range, le);
    DistinctRearranged(range, Sorting.Sort(range, le));
    assert j == range[j];
  }

  lemma EarlierInOrder(order: seq<nat>, le: (nat, nat) -> bool, k: nat, i: nat, j: nat)
    requires Sorting.Ordered(order, le) && k <= |order|
    requires i in order[..k] && j in order && j !in order[..k]
    ensures le(i, j)
  {
    var a :| 0 <= a < k && order[a] == i;
    var b :| 0 <= b < |order| && order[b] == j;
    assert forall x | 0 <= x < k :: order[x] in order[..k];
  }

  // ----- when the floors overshoot -----

  /** One for each city whose share is below one. */
  function Smalls(dayCounts: seq<nat>, budget: nat, total: nat): seq<nat>
  {
    seq(|dayCounts|, i requires 0 <= i < |dayCounts| => if budget * dayCounts[i] < total then 1 else 0)
  }

  /** A floor costs what the share claims and, below one, less than `total - budget` more. */
  lemma FloorCost(budget: nat, days: nat, total: nat)
    requires total > 0 && days >= 1
    ensures var small := if budget * days < total then 1 else 0;
      total * Floor(budget, days, total) <= budget * days + small * (total - budget)
  {
    DivideBounds(budget * days, total);
    CancelFactor(total, budget * days / total, 0);
    Distribute(budget, days - 1, 1);
    assert budget * (days - 1) >= 0;
  }

  lemma AddFloor(budget: int, total: int, claimed: int, floors: int, smalls: int, days: int, floor: int, small: int)
    requires total * floors <= budget * claimed + smalls * (total - budget)
    requires total * floor <= budget * days + small * (total - budget)
    ensures total * (floors + floor) <= budget * (claimed + days) + (smalls + small) * (total - budget)
  {
    Distribute(total, floors, floor);
    Distribute(budget, claimed, days);
    Distribute(total - budget, smalls, small);
  }

  lemma {:induction false} FloorsCost(dayCounts: seq<nat>, floors: seq<nat>, smalls: seq<nat>, budget: nat, total: nat)
    requires total > 0 && |floors| == |smalls| == |dayCounts|
    requires forall i | 0 <= i < |dayCounts| :: dayCounts[i] >= 1
    requires forall i | 0 <= i < |dayCounts| :: floors[i] == Floor(budget, dayCounts[i], total)
    requires forall i | 0 <= i < |dayCounts| :: smalls[i] == if budget * dayCounts[i] < total then 1 else 0
    ensures total * Sum(floors) <= budget * Sum(dayCounts) + Sum(smalls) * (total - budget)
  {
    if dayCounts == [] {
    } else {
      FloorsCost(dayCounts[1..], floors[1..], smalls[1..], budget, total);
      FloorCost(budget, dayCounts[0], total);
      AddFloor(budget, total, Sum(dayCounts[1..]), Sum(floors[1..]), Sum(smalls[1..]), dayCounts[0], floors[0], smalls[0]);
    }
  }

  lemma NotAllSmall(smalls: seq<nat>, i: nat)
    requires i < |smalls| && smalls[i] == 0 && forall j | 0 <= j < |smalls| :: smalls[j] <= 1
    ensures Sum(smalls) <= |smalls| - 1
  {
    var ones := seq(|smalls|, _ => 1);
    SumOf(ones, 1);
    SumUpdate(ones, i, 0);
    SumMonotone(smalls, ones[i := 0]);
  }

  lemma ProductSign(a: int, b: int)
    requires a >= 0
    ensures (b >= 0 ==> a * b >= 0) && (b <= 0 ==> a * b <= 0)
  {
  }

  lemma OvershootNeedsSpare(small: int, budget: nat, total: nat, floors: int)
    requires total > 0 && floors >= budget + 1
    requires total * floors <= budget * total + small * (total - budget)
    ensures total <= small * (total - budget)
  {
    CancelFactor(total, budget + 1, floors);
    Distribute(total, budget, 1);
    assert total * budget == budget * total;
  }

  lemma AsManySmall(small: int, most: int, spare: int, total: nat)
    requires 0 <= small <= most && 0 < total <= small * spare
    ensures total <= most * spare
  {
    ProductSign(small, spare);
    ProductSign(most - small, spare);
    Distribute(spare, small, most - small);
  }

  lemma OvershootNeedsDays(n: nat, small: int, budget: nat, total: nat, floors: int)
    requires total > 0 && n >= 1 && 0 <= small <= n - 1 && floors >= budget + 1
    requires total * floors <= budget * total + small * (total - budget)
    ensures (n - 1) * budget <= (n - 2) * total
  {
    var most, minus: int := n - 1, 0 - budget;
    OvershootNeedsSpare(small, budget, total, floors);
    AsManySmall(small, most, total - budget, total);
    Distribute(most, total, minus);
    assert most * minus == -(most * budget);
    Distribute(total, most, -1);
  }

  /** With a day for every city the floors fit unless the trip is long: up to two cities always,
      and in general while the days times the number of cities less two stay below the budget
      times the number of cities less one. */
  lemma FewDaysFit(dayCounts: seq<nat>, budget: nat)
    requires dayCounts != [] && |dayCounts| < budget && forall i | 0 <= i < |dayCounts| :: dayCounts[i] >= 1
    requires (|dayCounts| - 2) * Sum(dayCounts) < (|dayCounts| - 1) * budget
    ensures Sum(Floors(dayCounts, budget)) <= budget
  {
    PositiveEntry(dayCounts, 0);
    var total := TotalDays(dayCounts);
    var smalls := Smalls(dayCounts, budget, total);
    if i :| 0 <= i < |dayCounts| && smalls[i] == 0 {
      FewSmallsFit(dayCounts, budget, total, smalls, i);
    } else {
      AllSmallFit(dayCounts, budget, total, smalls);
    }
  }

  /** For up to four cities it is enough that the trip is shorter than one and a half budgets. */
  lemma FourCitiesFit(dayCounts: seq<nat>, budget: nat)
    requires 1 <= |dayCounts| <= 4 && forall i | 0 <= i < |dayCounts| :: dayCounts[i] >= 1
    requires 2 * Sum(dayCounts) < 3 * budget
    ensures Fits(dayCounts, budget)
  {
    if |dayCounts| < budget {
      PositiveEntry(dayCounts, 0);
      ForFourCities(|dayCounts|, Sum(dayCounts), budget);
      FewDaysFit(dayCounts, budget);
    }
  }

  lemma ForFourCities(n: int, days: int, budget: int)
    requires 1 <= n <= 4 && 0 < days && 0 < budget && 2 * days < 3 * budget
    ensures (n - 2) * days < (n - 1) * budget
  {
    if n == 1 {
    } else if n == 2 {
    } else if n == 3 {
    } else {
    }
  }

  lemma FewSmallsFit(dayCounts: seq<nat>, budget: nat, total: nat, smalls: seq<nat>, i: nat)
    requires dayCounts != [] && total == Sum(dayCounts) == TotalDays(dayCounts)
    requires forall i | 0 <= i < |dayCounts| :: dayCounts[i] >= 1
    requires smalls == Smalls(dayCounts, budget, total) && i < |dayCounts| && smalls[i] == 0
    requires (|dayCounts| - 2) * total < (|dayCounts| - 1) * budget
    ensures Sum(Floors(dayCounts, budget)) <= budget
  {
    var floors := Floors(dayCounts, budget);
    FloorsCost(dayCounts, floors, smalls, budget, total);
    NotAllSmall(smalls, i);
    var zeros := seq(|smalls|, _ => 0);
    SumOf(zeros, 0);
    SumMonotone(zeros, smalls);
    if Sum(floors) > budget {
      OvershootNeedsDays(|dayCounts|, Sum(smalls), budget, total, Sum(floors));
    }
  }

  lemma AllSmallFit(dayCounts: seq<nat>, budget: nat, total: nat, smalls: seq<nat>)
    requires dayCounts != [] && |dayCounts| < budget && total == TotalDays(dayCounts)
    requires smalls == Smalls(dayCounts, budget, total) && forall i | 0 <= i < |dayCounts| :: smalls[i] != 0
    ensures Sum(Floors(dayCounts, budget)) <= budget
  {
    var floors := Floors(dayCounts, budget);
    forall i | 0 <= i < |floors| ensures floors[i] == 1 {
      assert smalls[i] == 1;
      SmallFloor(budget * dayCounts[i], total);
    }
    SumOf(floors, 1);
  }

  lemma SmallFloor(claim: nat, total: nat)
    requires claim < total
    ensures claim / total == 0
  {
    DivideBounds(claim, total);
    CancelFactor(total, claim / total, 1);
  }

  lemma WholeShare(claim: nat, total: nat, least: nat)
    requires total > 0 && total * least <= claim
    ensures least <= claim / total
  {
    DivideBounds(claim, total);
    Distribute(total, claim / total, 1);
    CancelFactor(total, least, claim / total + 1);
  }

  lemma SumOfFour(s: seq<nat>)
    requires |s| == 4
    ensures Sum(s) == s[0] + s[1] + s[2] + s[3]
  {
    assert s == [s[0]] + ([s[1]] + ([s[2]] + [s[3]]));
    SumSplit([s[0]], [s[1]] + ([s[2]] + [s[3]]));
    SumSplit([s[1]], [s[2]] + [s[3]]);
    SumSplit([s[2]], [s[3]]);
  }

  lemma LongTripFloors(counts: seq<nat>)
    requires |counts| == 4 && counts[0] == counts[1] == counts[2] == 1 && counts[3] >= 57
    ensures Sum(Floors(counts, 40)) > 40
  {
    SumOfFour(counts);
    SumOfFour(Floors(counts, 40));
    var total := TotalDays(counts);
    SmallFloor(40, total);
    WholeShare(40 * counts[3], total, 38);
  }

  /** Three one-day cities and one more: forty checks become more exactly when the trip has sixty
      days or more. A trip has at most four cities, so no shorter one overshoots. */
  lemma OvershootIff(counts: seq<nat>)
    requires |counts| == 4 && counts[0] == counts[1] == counts[2] == 1 && counts[3] >= 1
    ensures Sum(CityBudgets(counts, 40)) > 40 <==> Sum(counts) >= 60
  {
    SumOfFour(counts);
    ExactIffFloorsFit(counts, 40);
    if counts[3] >= 57 {
      LongTripFloors(counts);
    } else {
      FewDaysFit(counts, 40);
    }
  }
}
