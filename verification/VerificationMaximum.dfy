/** When a trip keeps the maximum of place lookups. */
module VerificationMaximum {
  // `SOCIAL_VERIFY_BUDGET_MAX` in syncinerary/config/gather.py bounds the lookups of a whole trip; the
  // city loop of `discover_social_candidates` in syncinerary/agents/gather/social.py deals it out.

  import opened Schedule
  import opened Sums
  import opened Apportion
  import opened CityBudget
  import opened LanePools
  import opened Verification

  /** The checks left after the guides can be dealt out without raising a city above its share. */
  predicate CeilingFits(dayCounts: seq<nat>, guideAttempts: nat)
    requires guideAttempts <= SOCIAL_VERIFY_BUDGET_MAX
  {
    Fits(dayCounts, SOCIAL_VERIFY_BUDGET_MAX - guideAttempts)
  }

  /** Guides and city ceilings together are the global maximum exactly when the ceiling fits. */
  lemma CeilingsMeetTheMaximum(dayCounts: seq<nat>, guideAttempts: nat)
    requires dayCounts != [] && Sum(dayCounts) > 0 && guideAttempts <= SOCIAL_VERIFY_BUDGET_MAX
    ensures var handedOut := Sum(Ceilings(dayCounts, guideAttempts)) + guideAttempts;
      && (handedOut == SOCIAL_VERIFY_BUDGET_MAX <==> CeilingFits(dayCounts, guideAttempts))
      && (!CeilingFits(dayCounts, guideAttempts) ==> handedOut > SOCIAL_VERIFY_BUDGET_MAX)
  {
    ExactIffFloorsFit(dayCounts, SOCIAL_VERIFY_BUDGET_MAX - guideAttempts);
  }

  lemma FittingCeilings(dayCounts: seq<nat>, guideAttempts: nat)
    requires guideAttempts <= SOCIAL_VERIFY_BUDGET_MAX
    ensures CeilingFits(dayCounts, guideAttempts) <==> Sum(Ceilings(dayCounts, guideAttempts)) + guideAttempts <= SOCIAL_VERIFY_BUDGET_MAX
  {
    var left := SOCIAL_VERIFY_BUDGET_MAX - guideAttempts;
    if dayCounts != [] && left <= |dayCounts| {
      SumOfOnes(|dayCounts|, left);
    } else if dayCounts != [] {
      SumOfFloorsAndRaised(dayCounts, left);
    }
  }

  // ----- no ceiling is large -----

  lemma EntryAtMostSum(s: seq<nat>, i: nat)
    requires i < |s|
    ensures s[i] <= Sum(s)
  {
    var zeros := seq(|s|, _ => 0);
    SumOf(zeros, 0);
    SumUpdate(zeros, i, s[i]);
    SumMonotone(zeros[i := s[i]], s);
  }

  lemma FloorAtMost(budget: nat, days: nat, total: nat)
    requires 0 < total && days <= total && budget > 0
    ensures Floor(budget, days, total) <= budget
  {
    DivideBounds(budget * days, total);
    Distribute(budget, days, total - days);
    ProductSign(budget, total - days);
    assert budget * total == total * budget;
    CancelFactor(total, budget * days / total, budget);
  }

  /** A city's ceiling is at most one check above what is dealt out. */
  lemma CeilingBound(dayCounts: seq<nat>, guideAttempts: nat, i: nat)
    requires i < |dayCounts| && guideAttempts <= SOCIAL_VERIFY_BUDGET_MAX
    ensures Ceilings(dayCounts, guideAttempts)[i] <= SOCIAL_VERIFY_BUDGET_MAX + 1
  {
    var left := SOCIAL_VERIFY_BUDGET_MAX - guideAttempts;
    if |dayCounts| < left {
      EntryAtMostSum(dayCounts, i);
      FloorAtMost(left, dayCounts[i], TotalDays(dayCounts));
      assert Floors(dayCounts, left)[i] <= left;
      assert CityBudgets(dayCounts, left)[i] <= Floors(dayCounts, left)[i] + 1;
    }
  }

  // ----- a city that spends its whole ceiling -----

  function Numbers(n: nat): (r: set<nat>)
    ensures |r| == n && forall i: nat :: i in r <==> i < n
  {
    if n == 0 then {} else Numbers(n - 1) + {n - 1}
  }

  /** The names below `n`, each with evidence and in a Reel. */
  function Everything(n: nat): Mined
  {
    Mined(seq(n, (i: nat) => MinedPlace(i, false, 0, 0, 0, 0, 0, 0)), Numbers(n), Numbers(n))
  }

  /** `n` names, each with evidence and in a Reel. */
  ghost predicate Plentiful(m: Mined, n: nat)
  {
    Dictionary(m) && |NamesOf(m)| == n && NamesOf(m) <= m.eligible && NamesOf(m) <= m.reelNames
  }

  lemma EverythingIsPlentiful(m: Mined, n: nat)
    requires m == Everything(n)
    ensures Plentiful(m, n) && NamesOf(m) == Numbers(n)
  {
    forall i: nat | i < n ensures i in NamesOf(m) {
      assert m.places[i] in m.places && m.places[i].name == i;
    }
    assert NamesOf(m) == Numbers(n);
  }

  /** The searches it takes to look `budget` names up, a batch each. */
  function SearchesFor(budget: nat): nat
  {
    (budget + SOCIAL_VERIFY_BATCH_MAX - 1) / SOCIAL_VERIFY_BATCH_MAX
  }

  /** Each search finds one batch more, and the last one all there is. */
  function Supply(k: nat, searches: nat): nat
  {
    if k == searches then MINED_NAMES_MAX else SOCIAL_VERIFY_BATCH_MAX * k
  }

  /** What the updates can spend before any Reel target lets the budget grow past it. */
  function FirstBudget(budget: nat, ceiling: nat): nat
  {
    if budget == 0 && ceiling > 0 then 1 else budget
  }

  /** A city of which nothing is accepted: it finds no Reel, and picks as the lanes do. */
  function Greedy(budget: nat, ceiling: nat, reelTarget: nat): City
  {
    var n := SearchesFor(FirstBudget(budget, ceiling));
    City(_ => false, (_, _) => 0, (m: Mined, waiting: set<Name>, limit: nat) => Choices(m, waiting, limit),
         seq(n, (k: nat) => Everything(Supply(k + 1, n))), reelTarget)
  }

  ghost predicate FindsNoReel(city: City) { forall seen, matches :: city.reels(seen, matches) == 0 }

  ghost predicate Hungry(city: City, first: nat)
  {
    && Selector(city.select) && Fills(city.select) && |city.searches| == SearchesFor(first)
    && (forall k | 0 <= k < |city.searches| :: Plentiful(city.searches[k], Supply(k + 1, |city.searches|)))
    && FindsNoReel(city)
  }

  lemma EverythingGrows(m: Mined, later: Mined, a: nat, b: nat)
    requires m == Everything(a) && later == Everything(b) && a <= b
    ensures Grows(m, later)
  {
    EverythingIsPlentiful(m, a);
    EverythingIsPlentiful(later, b);
  }

  lemma SupplyIsPlentiful(searches: seq<Mined>, n: nat)
    requires searches == seq(n, (k: nat) => Everything(Supply(k + 1, n)))
    ensures forall k | 0 <= k < n :: Plentiful(searches[k], Supply(k + 1, n))
  {
    forall k | 0 <= k < n ensures Plentiful(searches[k], Supply(k + 1, n)) {
      EverythingIsPlentiful(searches[k], Supply(k + 1, n));
    }
  }

  lemma SupplyGrows(searches: seq<Mined>, n: nat)
    requires n <= MAX_SEARCHES_PER_CITY && searches == seq(n, (k: nat) => Everything(Supply(k + 1, n)))
    ensures forall k | 0 < k < n :: Grows(searches[k - 1], searches[k])
  {
    forall k | 0 < k < n ensures Grows(searches[k - 1], searches[k]) {
      EverythingGrows(searches[k - 1], searches[k], Supply(k, n), Supply(k + 1, n));
    }
  }

  lemma GreedyIsHungry(budget: nat, ceiling: nat, reelTarget: nat)
    requires budget <= ceiling <= SOCIAL_VERIFY_BUDGET_MAX + 1
    ensures var city := Greedy(budget, ceiling, reelTarget); Hungry(city, FirstBudget(budget, ceiling)) && Sound(city)
  {
    LanesSelect();
    var n, searches := SearchesFor(FirstBudget(budget, ceiling)), Greedy(budget, ceiling, reelTarget).searches;
    SupplyIsPlentiful(searches, n);
    SupplyGrows(searches, n);
  }

  /** Names nobody asked for yet are offered. */
  lemma StillOffered(m: Mined, n: nat, waiting: set<Name>, matches: map<Name, bool>)
    requires Plentiful(m, n) && |matches| <= n && waiting == NamesOf(m) - matches.Keys
    ensures |Offered(m, waiting)| >= n - |matches|
  {
    forall name | name in waiting ensures name in Offered(m, waiting) {
      var p :| p in m.places && p.name == name;
    }
    assert waiting <= Offered(m, waiting);
    SubsetSize(waiting, Offered(m, waiting));
    SubsetSize(NamesOf(m) * matches.Keys, matches.Keys);
    assert |waiting| == |NamesOf(m)| - |NamesOf(m) * matches.Keys|;
  }

  lemma HungryWaits(city: City, m: Mined, n: nat, matches: map<Name, bool>, final: bool)
    requires Plentiful(m, n)
    ensures Waiting(city, m, final, matches) == NamesOf(m) - matches.Keys
  {
  }

  /** Such a city looks up as many names in a round as budget and batch allow. */
  lemma HungryBatch(city: City, m: Mined, n: nat, ceiling: nat, t: Tally, final: bool)
    requires Fills(city.select) && Plentiful(m, n) && TallyHolds(t, Some(ceiling)) && |t.matches| <= n <= MINED_NAMES_MAX
    ensures var limit := BatchLimit(Grown(city, Some(ceiling), t, m), |t.matches|, final);
      |Batch(city, Some(ceiling), t, m, final)| >= Min(limit, n - |t.matches|)
  {
    var waiting := Waiting(city, m, final, t.matches);
    HungryWaits(city, m, n, t.matches, final);
    StillOffered(m, n, waiting, t.matches);
  }

  /** After `k` updates `k - 1` full batches are looked up, and the budget has not been spent. */
  ghost predicate Fed(t: Tally, first: nat, ceiling: nat, k: nat)
    requires k >= 1
  {
    && TallyHolds(t, Some(ceiling)) && t.budget == first
    && |t.matches| == SOCIAL_VERIFY_BATCH_MAX * (k - 1) < first
  }

  /** The first update finds nothing to look up; it only gives an empty budget its first check. */
  lemma FirstUpdate(city: City, first: nat, budget: nat, ceiling: nat)
    requires Hungry(city, first) && Sound(city) && budget <= ceiling && first == FirstBudget(budget, ceiling) && first > 0
    requires budget == 0 ==> city.reelTarget > 0
    ensures Fed(CityRun(city, budget, ceiling, 1), first, ceiling, 1)
  {
    var t := Tally(budget, map[], []);
    BatchFacts(city, Some(ceiling), t, NOTHING_MINED, false);
    var batch := Batch(city, Some(ceiling), t, NOTHING_MINED, false);
    assert forall n | n in batch :: n in Waiting(city, NOTHING_MINED, false, t.matches);
    assert batch == [];
    assert Round(city, Some(ceiling), t, NOTHING_MINED, false) == Booked(city, Some(ceiling), t, NOTHING_MINED, first, []);
    CityRunKeeps(city, budget, ceiling, 1);
    assert CityRun(city, budget, ceiling, 0) == t;
  }

  lemma SearchesBound(first: nat, k: nat)
    requires first > 0
    ensures var n := SearchesFor(first);
      && n >= 1 && SOCIAL_VERIFY_BATCH_MAX * (n - 1) < first <= SOCIAL_VERIFY_BATCH_MAX * n
      && (k < n ==> SOCIAL_VERIFY_BATCH_MAX * k < first)
  {
  }

  /** What a round of `limit` lookups leaves. */
  lemma RoundOf(city: City, m: Mined, ceiling: nat, t: Tally, final: bool, limit: nat)
    requires Selector(city.select) && Dictionary(m) && TallyHolds(t, Some(ceiling)) && FindsNoReel(city)
    requires Grown(city, Some(ceiling), t, m) == t.budget && limit == BatchLimit(t.budget, |t.matches|, final)
    requires |Batch(city, Some(ceiling), t, m, final)| >= limit
    ensures var after := Round(city, Some(ceiling), t, m, final);
      && TallyHolds(after, Some(ceiling)) && |after.matches| == |t.matches| + limit
      && after.budget == Refreshed(t.budget, Some(ceiling), |t.matches| + limit, 0, city.reelTarget)
  {
    var batch := Batch(city, Some(ceiling), t, m, final);
    BatchFacts(city, Some(ceiling), t, m, final);
    BookedKeeps(city, Some(ceiling), t, m, t.budget, batch);
    assert |batch| <= limit;
  }

  /** A round of a city with a budget to spend and names enough. */
  lemma SteadyRound(city: City, m: Mined, n: nat, ceiling: nat, t: Tally, final: bool, limit: nat)
    requires Selector(city.select) && Fills(city.select) && FindsNoReel(city) && Plentiful(m, n) && n <= MINED_NAMES_MAX
    requires TallyHolds(t, Some(ceiling)) && (|t.matches| < t.budget || t.budget == ceiling)
    requires limit == BatchLimit(t.budget, |t.matches|, final) && |t.matches| + limit <= n
    ensures var after := Round(city, Some(ceiling), t, m, final);
      && TallyHolds(after, Some(ceiling)) && |after.matches| == |t.matches| + limit
      && after.budget == Refreshed(t.budget, Some(ceiling), |t.matches| + limit, 0, city.reelTarget)
  {
    RefreshedBounds(t.budget, Some(ceiling), |t.matches|, 0, city.reelTarget);
    assert Grown(city, Some(ceiling), t, m) == t.budget;
    HungryBatch(city, m, n, ceiling, t, final);
    RoundOf(city, m, ceiling, t, final, limit);
  }

  /** Every update but the last looks a full batch up. */
  lemma MiddleUpdate(city: City, m: Mined, first: nat, ceiling: nat, t: Tally, k: nat)
    requires Selector(city.select) && Fills(city.select) && FindsNoReel(city)
    requires 1 <= k && SOCIAL_VERIFY_BATCH_MAX * k < first <= SOCIAL_VERIFY_BUDGET_MAX + 1
    requires Plentiful(m, SOCIAL_VERIFY_BATCH_MAX * k) && Fed(t, first, ceiling, k)
    ensures Fed(Round(city, Some(ceiling), t, m, false), first, ceiling, k + 1)
  {
    SteadyRound(city, m, SOCIAL_VERIFY_BATCH_MAX * k, ceiling, t, false, SOCIAL_VERIFY_BATCH_MAX);
  }

  lemma LastLimit(t: Tally, first: nat, ceiling: nat, k: nat) returns (limit: nat)
    requires 1 <= k && first <= SOCIAL_VERIFY_BATCH_MAX * k && ceiling <= SOCIAL_VERIFY_BUDGET_MAX + 1 && Fed(t, first, ceiling, k)
    ensures limit == BatchLimit(t.budget, |t.matches|, false) && |t.matches| + limit == first <= MINED_NAMES_MAX
  {
    limit := first - |t.matches|;
  }

  /** The last one spends the budget, which then grows to the ceiling. */
  lemma LastUpdate(city: City, m: Mined, first: nat, ceiling: nat, t: Tally, k: nat)
    requires Selector(city.select) && Fills(city.select) && FindsNoReel(city) && Plentiful(m, MINED_NAMES_MAX)
    requires 1 <= k && first <= SOCIAL_VERIFY_BATCH_MAX * k && ceiling <= SOCIAL_VERIFY_BUDGET_MAX + 1
    requires Fed(t, first, ceiling, k) && (first == ceiling || city.reelTarget >= ceiling)
    ensures var after := Round(city, Some(ceiling), t, m, false);
      TallyHolds(after, Some(ceiling)) && after.budget == ceiling
  {
    var limit := LastLimit(t, first, ceiling, k);
    GrowsToCeiling(first, ceiling, city.reelTarget);
    SteadyRound(city, m, MINED_NAMES_MAX, ceiling, t, false, limit);
  }

  lemma GrowsToCeiling(first: nat, ceiling: nat, reelTarget: nat)
    requires 0 < first <= ceiling && (first == ceiling || reelTarget >= ceiling)
    ensures Refreshed(first, Some(ceiling), first, 0, reelTarget) == ceiling
  {
    if first == ceiling {
      RefreshedBounds(first, Some(ceiling), first, 0, reelTarget);
    } else {
      ProductSign(reelTarget, first - 1);
      Distribute(reelTarget, first, -1);
      assert Wanted(first, 0, reelTarget) >= ceiling;
    }
  }

  lemma FinalLimit(t: Tally, ceiling: nat) returns (limit: nat)
    requires ceiling <= SOCIAL_VERIFY_BUDGET_MAX + 1 && TallyHolds(t, Some(ceiling)) && t.budget == ceiling
    ensures limit == BatchLimit(t.budget, |t.matches|, true) && |t.matches| + limit == ceiling <= MINED_NAMES_MAX
  {
    limit := ceiling - |t.matches|;
  }

  /** The final update takes the rest. */
  lemma FinalUpdate(city: City, m: Mined, ceiling: nat, t: Tally)
    requires Selector(city.select) && Fills(city.select) && FindsNoReel(city) && Plentiful(m, MINED_NAMES_MAX)
    requires ceiling <= SOCIAL_VERIFY_BUDGET_MAX + 1 && TallyHolds(t, Some(ceiling)) && t.budget == ceiling
    ensures |Round(city, Some(ceiling), t, m, true).matches| == ceiling
  {
    var limit := FinalLimit(t, ceiling);
    SteadyRound(city, m, MINED_NAMES_MAX, ceiling, t, true, limit);
  }

  lemma RunNext(city: City, budget: nat, ceiling: nat, k: nat, t: Tally, m: Mined)
    requires k <= |city.searches| && t == CityRun(city, budget, ceiling, k) && m == MinedAfter(city, k)
    ensures CityRun(city, budget, ceiling, k + 1) == Round(city, Some(ceiling), t, m, false)
  {
  }

  /** What the search before an update has found. */
  lemma SupplyAt(city: City, first: nat, k: nat) returns (m: Mined)
    requires Hungry(city, first) && first > 0 && 1 <= k <= |city.searches|
    ensures m == MinedAfter(city, k) && Plentiful(m, Supply(k, |city.searches|))
    ensures SOCIAL_VERIFY_BATCH_MAX * (|city.searches| - 1) < first <= SOCIAL_VERIFY_BATCH_MAX * |city.searches|
    ensures k < |city.searches| ==> SOCIAL_VERIFY_BATCH_MAX * k < first
  {
    SearchesBound(first, k);
    m := city.searches[k - 1];
  }

  lemma FedNext(city: City, m: Mined, first: nat, budget: nat, ceiling: nat, t: Tally, k: nat)
    requires Selector(city.select) && Fills(city.select) && FindsNoReel(city) && 1 <= k < |city.searches| && m == MinedAfter(city, k)
    requires Plentiful(m, SOCIAL_VERIFY_BATCH_MAX * k) && SOCIAL_VERIFY_BATCH_MAX * k < first <= SOCIAL_VERIFY_BUDGET_MAX + 1
    requires t == CityRun(city, budget, ceiling, k) && Fed(t, first, ceiling, k)
    ensures Fed(CityRun(city, budget, ceiling, k + 1), first, ceiling, k + 1)
  {
    MiddleUpdate(city, m, first, ceiling, t, k);
    RunNext(city, budget, ceiling, k, t, m);
  }

  ghost predicate FedAfter(city: City, first: nat, budget: nat, ceiling: nat, k: nat)
  {
    1 <= k <= |city.searches| && Fed(CityRun(city, budget, ceiling, k), first, ceiling, k)
  }

  ghost predicate StaysFed(city: City, first: nat, budget: nat, ceiling: nat, k: nat)
  {
    FedAfter(city, first, budget, ceiling, k) ==> FedAfter(city, first, budget, ceiling, k + 1)
  }

  lemma FedStep(city: City, first: nat, budget: nat, ceiling: nat, k: nat)
    requires Hungry(city, first) && 0 < first <= SOCIAL_VERIFY_BUDGET_MAX + 1 && k < |city.searches|
    ensures StaysFed(city, first, budget, ceiling, k)
  {
    if FedAfter(city, first, budget, ceiling, k) {
      var m := SupplyAt(city, first, k);
      FedNext(city, m, first, budget, ceiling, CityRun(city, budget, ceiling, k), k);
    }
  }

  lemma {:induction false} FedFrom(city: City, first: nat, budget: nat, ceiling: nat, k: nat)
    requires FedAfter(city, first, budget, ceiling, 1) && 1 <= k <= |city.searches|
    requires forall j: nat | j < |city.searches| :: StaysFed(city, first, budget, ceiling, j)
    ensures FedAfter(city, first, budget, ceiling, k)
    decreases k
  {
    if k == 1 {
    } else {
      FedFrom(city, first, budget, ceiling, k - 1);
      assert StaysFed(city, first, budget, ceiling, k - 1);
    }
  }

  lemma FedRun(city: City, first: nat, budget: nat, ceiling: nat, k: nat)
    requires Hungry(city, first) && 0 < first <= SOCIAL_VERIFY_BUDGET_MAX + 1 && 1 <= k <= |city.searches|
    requires FedAfter(city, first, budget, ceiling, 1)
    ensures FedAfter(city, first, budget, ceiling, k)
  {
    forall j: nat | j < |city.searches| ensures StaysFed(city, first, budget, ceiling, j) {
      FedStep(city, first, budget, ceiling, j);
    }
    FedFrom(city, first, budget, ceiling, k);
  }

  lemma LastTwoUpdates(city: City, m: Mined, first: nat, budget: nat, ceiling: nat, t: Tally, k: nat)
    requires Selector(city.select) && Fills(city.select) && FindsNoReel(city) && Plentiful(m, MINED_NAMES_MAX)
    requires 1 <= k == |city.searches| && m == MinedAfter(city, k) && t == CityRun(city, budget, ceiling, k)
    requires first <= SOCIAL_VERIFY_BATCH_MAX * k && ceiling <= SOCIAL_VERIFY_BUDGET_MAX + 1
    requires Fed(t, first, ceiling, k) && (first == ceiling || city.reelTarget >= ceiling)
    ensures |CityEnd(city, budget, ceiling).matches| == ceiling
  {
    LastUpdate(city, m, first, ceiling, t, k);
    RunNext(city, budget, ceiling, k, t, m);
    FinalUpdate(city, m, ceiling, CityRun(city, budget, ceiling, k + 1));
  }

  /** So it spends its whole ceiling, within the searches there may be ... */
  lemma HungrySpendsAll(city: City, budget: nat, ceiling: nat)
    requires Hungry(city, FirstBudget(budget, ceiling)) && Sound(city) && budget <= ceiling <= SOCIAL_VERIFY_BUDGET_MAX + 1
    requires budget == ceiling || city.reelTarget >= ceiling
    ensures |CityEnd(city, budget, ceiling).matches| == ceiling
  {
    if ceiling == 0 {
      CityEndKeeps(city, budget, ceiling);
    } else {
      var first, n := FirstBudget(budget, ceiling), |city.searches|;
      var m := SupplyAt(city, first, n);
      FirstUpdate(city, first, budget, ceiling);
      FedRun(city, first, budget, ceiling, n);
      LastTwoUpdates(city, m, first, budget, ceiling, CityRun(city, budget, ceiling, n), n);
    }
  }

  /** ... and without searching on when nothing is left to spend. */
  lemma HungryStops(city: City, budget: nat, ceiling: nat)
    requires Hungry(city, FirstBudget(budget, ceiling)) && Sound(city) && budget <= ceiling <= SOCIAL_VERIFY_BUDGET_MAX + 1
    requires budget == ceiling || city.reelTarget >= ceiling
    ensures StopsWhenSpent(city, budget, ceiling)
  {
    var first := FirstBudget(budget, ceiling);
    if ceiling > 0 {
      FirstUpdate(city, first, budget, ceiling);
      forall k: nat | 1 <= k <= |city.searches| ensures FedAfter(city, first, budget, ceiling, k) {
        FedRun(city, first, budget, ceiling, k);
      }
      FedIsUnspent(city, first, budget, ceiling);
    }
  }

  lemma FedIsUnspent(city: City, first: nat, budget: nat, ceiling: nat)
    requires forall k: nat | 1 <= k <= |city.searches| :: FedAfter(city, first, budget, ceiling, k)
    ensures StopsWhenSpent(city, budget, ceiling)
  {
    forall k | 1 <= k <= |city.searches|
      ensures |CityRun(city, budget, ceiling, k).matches| < CityRun(city, budget, ceiling, k).budget
    {
      assert FedAfter(city, first, budget, ceiling, k);
    }
  }

  // ----- a trip that spends every check -----

  /** Greedy cities, each for the budget and ceiling it gets when nothing is released to it. */
  function GreedyCities(budgets: seq<nat>, ceilings: seq<nat>, targets: seq<nat>): seq<City>
    requires |budgets| == |ceilings| == |targets|
  {
    seq(|targets|, i requires 0 <= i < |targets| => Greedy(Min(ceilings[i], budgets[i]), ceilings[i], targets[i]))
  }

  /** What a city needs to spend its whole ceiling. */
  predicate Spends(budget: nat, ceiling: nat, target: nat)
  {
    ceiling <= SOCIAL_VERIFY_BUDGET_MAX + 1 && (budget >= ceiling || target >= ceiling)
  }

  lemma ReleasesNothing(before: Trail, city: City, budget: nat, ceiling: nat)
    requires before.released == 0 && |CityEnd(city, Min(ceiling, budget), ceiling).matches| == ceiling
    ensures NextCity(before, city, budget, ceiling).released == 0
  {
  }

  lemma GreedySpendsAll(budget: nat, ceiling: nat, target: nat)
    requires Spends(budget, ceiling, target)
    ensures |CityEnd(Greedy(Min(ceiling, budget), ceiling, target), Min(ceiling, budget), ceiling).matches| == ceiling
  {
    GreedyIsHungry(Min(ceiling, budget), ceiling, target);
    HungrySpendsAll(Greedy(Min(ceiling, budget), ceiling, target), Min(ceiling, budget), ceiling);
  }

  lemma StopsWithoutRelease(before: Trail, city: City, first: nat, budget: nat, ceiling: nat)
    requires before.released == 0 && first == Min(ceiling, budget) && StopsWhenSpent(city, first, ceiling)
    ensures StopsAfter(before, city, budget, ceiling)
  {
  }

  lemma GreedyStops(first: nat, ceiling: nat, target: nat, city: City)
    requires first <= ceiling && Spends(first, ceiling, target) && city == Greedy(first, ceiling, target)
    ensures StopsWhenSpent(city, first, ceiling)
  {
    GreedyIsHungry(first, ceiling, target);
    HungryStops(city, first, ceiling);
  }

  lemma {:induction false} GreedyCitiesSpendAll(budgets: seq<nat>, ceilings: seq<nat>, targets: seq<nat>, cities: seq<City>, order: seq<nat>)
    requires |budgets| == |ceilings| == |targets| && cities == GreedyCities(budgets, ceilings, targets)
    requires forall k | 0 <= k < |order| :: order[k] < |cities|
    requires forall i | 0 <= i < |cities| :: Spends(budgets[i], ceilings[i], targets[i])
    ensures CitiesRun(cities, budgets, ceilings, order).released == 0
  {
    if order == [] {
    } else {
      var front, last := order[..|order| - 1], order[|order| - 1];
      GreedyCitiesSpendAll(budgets, ceilings, targets, cities, front);
      GreedySpendsAll(budgets[last], ceilings[last], targets[last]);
      ReleasesNothing(CitiesRun(cities, budgets, ceilings, front), cities[last], budgets[last], ceilings[last]);
    }
  }

  lemma GreedyCitiesStop(budgets: seq<nat>, ceilings: seq<nat>, targets: seq<nat>, cities: seq<City>, order: seq<nat>)
    requires |budgets| == |ceilings| == |targets| && cities == GreedyCities(budgets, ceilings, targets)
    requires forall k | 0 <= k < |order| :: order[k] < |cities|
    requires forall i | 0 <= i < |cities| :: Spends(budgets[i], ceilings[i], targets[i])
    ensures CitiesStop(cities, budgets, ceilings, order)
  {
    forall p | 0 <= p < |order|
      ensures StopsAfter(CitiesRun(cities, budgets, ceilings, order[..p]), cities[order[p]], budgets[order[p]], ceilings[order[p]])
    {
      GreedyCitiesSpendAll(budgets, ceilings, targets, cities, order[..p]);
      var i, before := order[p], CitiesRun(cities, budgets, ceilings, order[..p]);
      var first := Min(ceilings[i], budgets[i]);
      GreedyStops(first, ceilings[i], targets[i], cities[i]);
      StopsWithoutRelease(before, cities[i], first, budgets[i], ceilings[i]);
    }
  }

  /** Some cities spend every check handed out: with any Reel targets if the budget is the maximum,
      and with large ones if it is less. */
  lemma SomeCitiesSpendAll(dayCounts: seq<nat>, priority: Option<nat>, budget: nat, guideAttempts: nat, targets: seq<nat>)
    returns (cities: seq<City>)
    requires |targets| == |dayCounts| && guideAttempts <= SOCIAL_VERIFY_BUDGET_MAX
    requires budget == SOCIAL_VERIFY_BUDGET_MAX || forall i | 0 <= i < |targets| :: targets[i] > SOCIAL_VERIFY_BUDGET_MAX
    ensures |cities| == |dayCounts| && forall i | 0 <= i < |cities| :: Sound(cities[i]) && cities[i].reelTarget == targets[i]
    ensures TripStops(cities, dayCounts, priority, budget, guideAttempts)
    ensures Sum(Lengths(TripRun(cities, dayCounts, priority, budget, guideAttempts).lookups)) == Sum(Ceilings(dayCounts, guideAttempts))
  {
    var budgets, ceilings := CityBudgets(dayCounts, Max(0, budget - guideAttempts)), Ceilings(dayCounts, guideAttempts);
    cities := GreedyCities(budgets, ceilings, targets);
    forall i | 0 <= i < |cities| ensures Spends(budgets[i], ceilings[i], targets[i]) && Sound(cities[i]) {
      CeilingBound(dayCounts, guideAttempts, i);
      GreedyIsHungry(Min(ceilings[i], budgets[i]), ceilings[i], targets[i]);
    }
    OrderFacts(dayCounts, priority);
    GreedyCitiesSpendAll(budgets, ceilings, targets, cities, CityOrder(dayCounts, priority));
    GreedyCitiesStop(budgets, ceilings, targets, cities, CityOrder(dayCounts, priority));
    TripConserves(cities, dayCounts, priority, budget, guideAttempts);
  }

  ghost predicate KeepsMaximum(cities: seq<City>, dayCounts: seq<nat>, priority: Option<nat>, budget: nat, guideAttempts: nat)
    requires |cities| == |dayCounts|
  {
    Sum(Lengths(TripRun(cities, dayCounts, priority, budget, guideAttempts).lookups)) + guideAttempts <= SOCIAL_VERIFY_BUDGET_MAX
  }

  /** A run as searching makes it: no city makes more searches than it may, or goes on searching with
      nothing left to spend. */
  ghost predicate MayHappen(cities: seq<City>, dayCounts: seq<nat>, priority: Option<nat>, budget: nat, guideAttempts: nat)
  {
    && |cities| == |dayCounts| && (forall c | c in cities :: Sound(c))
    && TripStops(cities, dayCounts, priority, budget, guideAttempts)
  }

  /** Every run of a trip keeps the global maximum exactly when the ceiling fits. */
  lemma MaximumKeptIff(dayCounts: seq<nat>, priority: Option<nat>, budget: nat, guideAttempts: nat)
    requires guideAttempts <= SOCIAL_VERIFY_BUDGET_MAX
    ensures CeilingFits(dayCounts, guideAttempts) <==>
      forall cities | MayHappen(cities, dayCounts, priority, budget, guideAttempts) ::
        KeepsMaximum(cities, dayCounts, priority, budget, guideAttempts)
  {
    FittingCeilings(dayCounts, guideAttempts);
    if CeilingFits(dayCounts, guideAttempts) {
      forall cities | MayHappen(cities, dayCounts, priority, budget, guideAttempts)
        ensures KeepsMaximum(cities, dayCounts, priority, budget, guideAttempts)
      {
        TripConserves(cities, dayCounts, priority, budget, guideAttempts);
      }
    } else {
      var targets := seq(|dayCounts|, _ => SOCIAL_VERIFY_BUDGET_MAX + 1);
      var cities := SomeCitiesSpendAll(dayCounts, priority, budget, guideAttempts, targets);
      assert MayHappen(cities, dayCounts, priority, budget, guideAttempts);
      assert !KeepsMaximum(cities, dayCounts, priority, budget, guideAttempts);
    }
  }

  /** From sixty days on, with three one-day cities and one more, a trip can make more than forty
      lookups without any guide, whatever its Reel targets. */
  lemma LongTripOverspends(counts: seq<nat>, priority: Option<nat>, targets: seq<nat>) returns (cities: seq<City>)
    requires |counts| == |targets| == 4 && counts[0] == counts[1] == counts[2] == 1 && Sum(counts) >= 60
    ensures MayHappen(cities, counts, priority, SOCIAL_VERIFY_BUDGET_MAX, 0)
    ensures forall i | 0 <= i < 4 :: cities[i].reelTarget == targets[i]
    ensures Sum(Lengths(TripRun(cities, counts, priority, SOCIAL_VERIFY_BUDGET_MAX, 0).lookups)) > SOCIAL_VERIFY_BUDGET_MAX
  {
    SumOfFour(counts);
    OvershootIff(counts);
    cities := SomeCitiesSpendAll(counts, priority, SOCIAL_VERIFY_BUDGET_MAX, 0, targets);
  }
}
