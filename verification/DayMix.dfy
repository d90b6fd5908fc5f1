/** Laying out a cluster so that its front looks like whole days (`_mix_day_types` in
    syncinerary/agents/gather/live.py). */
module DayMix {
  import opened Schedule
  import opened Lists
  import opened Pool

  predicate IsFood(c: Card) { c.kind == Food }

  predicate IsSight(c: Card) { c.kind != Food }

  function Meals(cards: seq<Card>): seq<Card> { Where(cards, IsFood) }

  function Sights(cards: seq<Card>): seq<Card> { Where(cards, IsSight) }

  /** Two sights, a meal, and again until both run out. */
  function Interleave(sights: seq<Card>, meals: seq<Card>): seq<Card>
    decreases |sights| + |meals|
  {
    if sights == [] && meals == [] then []
    else Take(sights, 2) + Take(meals, 1) + Interleave(Drop(sights, 2), Drop(meals, 1))
  }

  function HeadMeals(cluster: seq<Card>, days: int): seq<Card>
  {
    Take(Meals(cluster), FOOD_PER_DAY_TARGET * Max(1, days))
  }

  function HeadSights(cluster: seq<Card>, days: int): seq<Card>
  {
    Take(Sights(cluster), Max(0, POOL_PER_DAY * Max(1, days) - |HeadMeals(cluster, days)|))
  }

  function Mixed(cluster: seq<Card>, days: int): seq<Card>
  {
    var sights, meals := HeadSights(cluster, days), HeadMeals(cluster, days);
    Interleave(sights, meals) + Sights(cluster)[|sights|..] + Meals(cluster)[|meals|..]
  }

  method MixHeads(sights: seq<Card>, meals: seq<Card>) returns (mixed: seq<Card>)
    ensures mixed == Interleave(sights, meals)
  {
    mixed := [];
    var sightOffset: nat, mealOffset: nat := 0, 0;
    ghost var left := Interleave(sights, meals);
    while sightOffset < |sights| || mealOffset < |meals|
      invariant mealOffset <= |meals|
      invariant left == Interleave(Drop(sights, sightOffset), Drop(meals, mealOffset))
      invariant mixed + left == Interleave(sights, meals)
      decreases |Drop(sights, sightOffset)| + |Drop(meals, mealOffset)|
    {
      NextPiece(sights, meals, sightOffset, mealOffset);
      ghost var was, wasLeft := mixed, left;
      ghost var pair, meal := Take(Drop(sights, sightOffset), 2), Take(Drop(meals, mealOffset), 1);
      mixed := mixed + Take(Drop(sights, sightOffset), 2);
      sightOffset := sightOffset + 2;
      if mealOffset < |meals| {
        mixed := mixed + [meals[mealOffset]];
        mealOffset := mealOffset + 1;
      }
      left := Interleave(Drop(sights, sightOffset), Drop(meals, mealOffset));
      Regroup(was, pair, meal, left);
      assert mixed == was + pair + meal;
    }
  }

  lemma Regroup<T>(a: seq<T>, b: seq<T>, c: seq<T>, d: seq<T>)
    ensures a + b + c + d == a + (b + c + d)
  {
  }

  lemma NextPiece(sights: seq<Card>, meals: seq<Card>, i: nat, j: nat)
    requires (i < |sights| || j < |meals|) && j <= |meals|
    ensures var k := if j < |meals| then j + 1 else j;
      && Drop(Drop(sights, i), 2) == Drop(sights, i + 2) && Drop(Drop(meals, j), 1) == Drop(meals, k)
      && Take(Drop(meals, j), 1) == (if j < |meals| then [meals[j]] else [])
      && Interleave(Drop(sights, i), Drop(meals, j)) ==
        Take(Drop(sights, i), 2) + Take(Drop(meals, j), 1) + Interleave(Drop(sights, i + 2), Drop(meals, k))
  {
    var k := if j < |meals| then j + 1 else j;
    assert Drop(Drop(sights, i), 2) == Drop(sights, i + 2);
    assert Drop(Drop(meals, j), 1) == Drop(meals, k);
  }

  method MixDayTypes(cluster: seq<Card>, days: int) returns (mixed: seq<Card>)
    ensures mixed == Mixed(cluster, days)
  {
    var sights, meals := HeadSights(cluster, days), HeadMeals(cluster, days);
    mixed := MixHeads(sights, meals);
    mixed := mixed + Sights(cluster)[|sights|..];
    mixed := mixed + Meals(cluster)[|meals|..];
  }

  // ----- nothing is lost, and both kinds keep their order -----

  lemma KindsSplit(s: seq<Card>, t: seq<Card>)
    ensures Meals(s + t) == Meals(s) + Meals(t) && Sights(s + t) == Sights(s) + Sights(t)
  {
    WhereAppend(s, t, IsFood);
    WhereAppend(s, t, IsSight);
  }

  lemma OneKind(cards: seq<Card>)
    ensures (forall c | c in cards :: IsFood(c)) ==> Meals(cards) == cards && Sights(cards) == []
    ensures (forall c | c in cards :: IsSight(c)) ==> Sights(cards) == cards && Meals(cards) == []
  {
    if forall c | c in cards :: IsFood(c) {
      WhereAll(cards, IsFood);
      WhereNone(cards, IsSight);
    }
    if forall c | c in cards :: IsSight(c) {
      WhereAll(cards, IsSight);
      WhereNone(cards, IsFood);
    }
  }

  /** Some sights, then some meals, then the rest. */
  lemma PieceKinds(sights: seq<Card>, meals: seq<Card>, rest: seq<Card>)
    requires (forall c | c in sights :: IsSight(c)) && forall c | c in meals :: IsFood(c)
    ensures Sights(sights + meals + rest) == sights + Sights(rest)
    ensures Meals(sights + meals + rest) == meals + Meals(rest)
  {
    OneKind(sights);
    OneKind(meals);
    KindsSplit(sights, meals);
    KindsSplit(sights + meals, rest);
  }

  lemma {:induction false} InterleaveKinds(sights: seq<Card>, meals: seq<Card>)
    requires (forall c | c in sights :: IsSight(c)) && forall c | c in meals :: IsFood(c)
    ensures Meals(Interleave(sights, meals)) == meals && Sights(Interleave(sights, meals)) == sights
    decreases |sights| + |meals|
  {
    if sights != [] || meals != [] {
      assert Take(sights, 2) + Drop(sights, 2) == sights;
      assert Take(meals, 1) + Drop(meals, 1) == meals;
      InterleaveKinds(Drop(sights, 2), Drop(meals, 1));
      PieceKinds(Take(sights, 2), Take(meals, 1), Interleave(Drop(sights, 2), Drop(meals, 1)));
    }
  }

  lemma SameKindsSameCards(s: seq<Card>, t: seq<Card>)
    requires Meals(s) == Meals(t) && Sights(s) == Sights(t)
    ensures multiset(s) == multiset(t)
  {
    WhereSplits(s, IsFood, IsSight);
    WhereSplits(t, IsFood, IsSight);
  }

  /** Mixing keeps every card, and within each kind the order they came in. */
  lemma MixKeepsKinds(cluster: seq<Card>, days: int)
    ensures Meals(Mixed(cluster, days)) == Meals(cluster) && Sights(Mixed(cluster, days)) == Sights(cluster)
    ensures multiset(Mixed(cluster, days)) == multiset(cluster)
  {
    var sights, meals := HeadSights(cluster, days), HeadMeals(cluster, days);
    var moreSights, moreMeals := Sights(cluster)[|sights|..], Meals(cluster)[|meals|..];
    assert sights + moreSights == Sights(cluster) && meals + moreMeals == Meals(cluster);
    MixKinds(sights, meals, moreSights, moreMeals);
    SameKindsSameCards(Mixed(cluster, days), cluster);
  }

  lemma MixKinds(sights: seq<Card>, meals: seq<Card>, moreSights: seq<Card>, moreMeals: seq<Card>)
    requires (forall c | c in sights :: IsSight(c)) && (forall c | c in moreSights :: IsSight(c))
    requires (forall c | c in meals :: IsFood(c)) && (forall c | c in moreMeals :: IsFood(c))
    ensures var mixed := Interleave(sights, meals) + moreSights + moreMeals;
      Meals(mixed) == meals + moreMeals && Sights(mixed) == sights + moreSights
  {
    InterleaveKinds(sights, meals);
    PieceKinds(moreSights, moreMeals, []);
    KindsSplit(Interleave(sights, meals), moreSights + moreMeals + []);
    assert Interleave(sights, meals) + (moreSights + moreMeals + []) == Interleave(sights, meals) + moreSights + moreMeals;
  }

  lemma {:induction false} InterleaveLength(sights: seq<Card>, meals: seq<Card>)
    ensures |Interleave(sights, meals)| == |sights| + |meals|
    decreases |sights| + |meals|
  {
    if sights != [] || meals != [] {
      InterleaveLength(Drop(sights, 2), Drop(meals, 1));
    }
  }

  /** The cards the pool limit leaves a cluster for its days hold the meals of those days: all of
      its food, or three a day. */
  lemma MealsReserved(cluster: seq<Card>, days: int)
    ensures var front := Take(Mixed(cluster, days), POOL_PER_DAY * Max(1, days));
      |Meals(front)| >= Min(|Meals(cluster)|, FOOD_PER_DAY_TARGET * Max(1, days))
  {
    var sights, meals := HeadSights(cluster, days), HeadMeals(cluster, days);
    var front := Take(Mixed(cluster, days), POOL_PER_DAY * Max(1, days));
    InterleaveKinds(sights, meals);
    InterleaveLength(sights, meals);
    var head := Interleave(sights, meals);
    assert head <= front;
    KindsSplit(head, front[|head|..]);
    assert head + front[|head|..] == front;
  }

  /** Wherever the front is cut, it holds about two sights for each meal while both last. */
  ghost predicate InRhythm(sights: nat, meals: nat, allSights: nat, allMeals: nat)
  {
    && sights <= allSights && meals <= allMeals
    && (meals == allMeals || sights <= 2 * meals + 2)
    && (sights == allSights || 2 * meals <= sights)
  }

  lemma {:induction false} FrontInRhythm(sights: seq<Card>, meals: seq<Card>, k: nat)
    requires (forall c | c in sights :: IsSight(c)) && (forall c | c in meals :: IsFood(c))
    requires k <= |Interleave(sights, meals)|
    ensures var cut := Interleave(sights, meals)[..k]; InRhythm(|Sights(cut)|, |Meals(cut)|, |sights|, |meals|)
    decreases |sights| + |meals|
  {
    if sights != [] || meals != [] {
      var s, m := Take(sights, 2), Take(meals, 1);
      var rest := Interleave(Drop(sights, 2), Drop(meals, 1));
      var cut := Interleave(sights, meals)[..k];
      if k <= |s| {
        assert cut == s[..k];
        OneKind(s[..k]);
      } else if k <= |s + m| {
        assert cut == s + m + [];
        PieceKinds(s, m, []);
      } else {
        var left := k - |s + m|;
        FrontInRhythm(Drop(sights, 2), Drop(meals, 1), left);
        assert cut == s + m + rest[..left];
        PieceKinds(s, m, rest[..left]);
        CountsAddUp(sights, meals, rest[..left]);
      }
    }
  }

  lemma CountsAddUp(sights: seq<Card>, meals: seq<Card>, later: seq<Card>)
    requires InRhythm(|Sights(later)|, |Meals(later)|, |Drop(sights, 2)|, |Drop(meals, 1)|)
    ensures InRhythm(|Take(sights, 2)| + |Sights(later)|, |Take(meals, 1)| + |Meals(later)|, |sights|, |meals|)
  {
  }

  /** The front of a cluster: three meals for each of its days, and as many sights as make eight stops
      a day, as far as there are any. Wherever it is cut, the sights and meals are in rhythm. */
  lemma DayFront(cluster: seq<Card>, days: int, k: nat)
    requires var served := if days < 1 then 1 else days;
      var meals := Min(|Meals(cluster)|, FOOD_PER_DAY_TARGET * served);
      k <= meals + Min(|Sights(cluster)|, POOL_PER_DAY * served - meals)
    ensures var served := if days < 1 then 1 else days;
      var meals := Min(|Meals(cluster)|, FOOD_PER_DAY_TARGET * served);
      var sights := Min(|Sights(cluster)|, POOL_PER_DAY * served - meals);
      k <= |Mixed(cluster, days)| && InRhythm(|Sights(Mixed(cluster, days)[..k])|, |Meals(Mixed(cluster, days)[..k])|, sights, meals)
  {
    var sights, meals := HeadSights(cluster, days), HeadMeals(cluster, days);
    InterleaveLength(sights, meals);
    assert Mixed(cluster, days)[..k] == Interleave(sights, meals)[..k];
    FrontInRhythm(sights, meals, k);
  }
}
