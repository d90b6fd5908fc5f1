/** One city's share of the deck (`select_city_pool` and `select_trip_pool` in
    syncinerary/agents/gather/live.py).

    Personal cards always stay. Social cards and, where they do not suffice, fallback cards fill the
    meals and attractions of every day first; what is left of the city's slots goes to the other
    social cards and then to the fallback again. */
module CityPool {
  import opened Schedule
  import opened Sums
  import opened Lists
  import opened Pool
  import opened DensePool
  import opened DayMix
  import opened LanePools
  import opened PoolSelection
  import Sorting

  predicate IsAttraction(c: Card) { c.kind == Attraction }

  function Attractions(cards: seq<Card>): seq<Card> { Where(cards, IsAttraction) }

  /** The cards of a city by where they come from. */
  datatype Parts = Parts(personal: seq<Card>, automatic: seq<Card>, fallback: seq<Card>)

  function Priority(swipeable: seq<Card>): seq<Card> { Where(swipeable, (c: Card) => c.priority) }

  function Split(swipeable: seq<Card>): Parts
  {
    var priority := Priority(swipeable);
    var personal := Where(priority, (c: Card) => c.personal);
    Parts(personal, Others(priority, personal), Others(swipeable, priority))
  }

  /** How many of a kind still have to come from the fallback. */
  function Needed(perDay: nat, days: nat, have: nat): nat { Max(0, days * perDay - have) }

  function MealsNeeded(swipeable: seq<Card>, days: nat): nat
  {
    Needed(MEALS_PER_DAY_MIN, days, |Meals(Priority(swipeable))|)
  }

  function SightsNeeded(swipeable: seq<Card>, days: nat): nat
  {
    Needed(ATTRACTIONS_PER_DAY_MIN, days, |Attractions(Priority(swipeable))|)
  }

  function Essentials(automatic: seq<Card>, days: nat): seq<Card>
  {
    Take(Sorting.Sort(Meals(automatic), ReelFirst), days * MEALS_PER_DAY_MIN)
    + LimitSocialPool(Attractions(automatic), days * ATTRACTIONS_PER_DAY_MIN)
  }

  // ----- parts of a list of cards -----

  /** `part` holds some of the cards, none twice. */
  ghost predicate PartOf(part: seq<Card>, whole: seq<Card>)
  {
    Distinct(part) && forall c | c in part :: c in whole
  }

  lemma PartIds(part: seq<Card>, whole: seq<Card>)
    requires PartOf(part, whole) && DistinctIds(whole)
    ensures DistinctIds(part)
  {
    forall i, j | 0 <= i < j < |part| ensures part[i].id != part[j].id {
      assert part[i] in part && part[j] in part;
      if part[i].id == part[j].id {
        SameId(whole, part[i], part[j]);
      }
    }
  }

  lemma PartCounts(part: seq<Card>, whole: seq<Card>)
    requires PartOf(part, whole)
    ensures multiset(part) <= multiset(whole)
  {
    DistinctIsSet(part);
    forall c ensures multiset(part)[c] <= multiset(whole)[c] {
      assert c in part <==> c in multiset(part);
      assert c in whole <==> c in multiset(whole);
    }
  }

  lemma OthersFacts(whole: seq<Card>, part: seq<Card>)
    requires DistinctIds(whole) && PartOf(part, whole)
    ensures multiset(part + Others(whole, part)) == multiset(whole)
    ensures |Others(whole, part)| == |whole| - |part|
    ensures PartOf(Others(whole, part), whole)
    ensures forall c | c in whole :: c in Others(whole, part) <==> c !in part
  {
    PartCounts(part, whole);
    UnselectedCompletes(whole, part);
    Sorting.SameMembers(part + Others(whole, part), whole);
    IdsDistinctCards(whole);
    WhereDistinct(whole, IdNotIn(IdsOf(part)));
    forall c | c in whole ensures c in Others(whole, part) <==> c !in part {
      UnselectedIffAbsent(whole, part, c);
    }
  }

  lemma Joined(s: seq<Card>, t: seq<Card>, whole: seq<Card>)
    requires PartOf(s, whole) && PartOf(t, whole) && forall c | c in s :: c !in t
    ensures PartOf(s + t, whole)
  {
    forall i, j | 0 <= i < j < |s + t| ensures (s + t)[i] != (s + t)[j] {
      if i < |s| <= j {
        assert s[i] in s && t[j - |s|] in t;
      }
    }
  }

  lemma WherePart(whole: seq<Card>, p: Card -> bool)
    requires DistinctIds(whole)
    ensures PartOf(Where(whole, p), whole)
  {
    IdsDistinctCards(whole);
    WhereDistinct(whole, p);
  }

  lemma {:induction false} WhereCount(s: seq<Card>, p: Card -> bool, c: Card)
    ensures multiset(Where(s, p))[c] == if p(c) then multiset(s)[c] else 0
  {
    if s == [] {
    } else {
      WhereCount(s[1..], p, c);
      assert s == [s[0]] + s[1..];
    }
  }

  lemma WhereRearranged(s: seq<Card>, t: seq<Card>, p: Card -> bool)
    requires multiset(s) == multiset(t)
    ensures |Where(s, p)| == |Where(t, p)|
  {
    forall c ensures multiset(Where(s, p))[c] == multiset(Where(t, p))[c] {
      WhereCount(s, p, c);
      WhereCount(t, p, c);
    }
    Sorting.SameMembers(Where(s, p), Where(t, p));
  }

  // ----- the three sources of a city's cards -----

  /** Personal, automatic and fallback cards share nothing and make up the whole. */
  ghost predicate ThreeWays(parts: Parts, swipeable: seq<Card>)
  {
    && PartOf(parts.personal, swipeable) && PartOf(parts.automatic, swipeable) && PartOf(parts.fallback, swipeable)
    && (forall c | c in parts.personal :: c !in parts.automatic && c !in parts.fallback)
    && (forall c | c in parts.automatic :: c !in parts.fallback)
    && multiset(parts.personal + parts.automatic + parts.fallback) == multiset(swipeable)
    && (forall c | c in parts.personal :: c.priority && c.personal)
    && (forall c | c in parts.automatic :: c.priority && !c.personal)
    && (forall c | c in parts.fallback :: !c.priority)
  }

  lemma SplitThreeWays(swipeable: seq<Card>)
    requires DistinctIds(swipeable)
    ensures ThreeWays(Split(swipeable), swipeable)
    ensures multiset(Split(swipeable).personal + Split(swipeable).automatic) == multiset(Priority(swipeable))
    ensures forall c | c in swipeable && c.priority && c.personal :: c in Split(swipeable).personal
  {
    var priority, parts := Priority(swipeable), Split(swipeable);
    WherePart(swipeable, (c: Card) => c.priority);
    PartIds(priority, swipeable);
    WherePart(priority, (c: Card) => c.personal);
    OthersFacts(priority, parts.personal);
    OthersFacts(swipeable, priority);
  }

  /** What stands where is read off the card. */
  lemma PartsByProvenance(swipeable: seq<Card>, parts: Parts, c: Card)
    requires ThreeWays(parts, swipeable) && c in swipeable
    ensures c.priority && c.personal ==> c in parts.personal
    ensures c.priority && !c.personal ==> c in parts.automatic
  {
    Sorting.SameMembers(parts.personal + parts.automatic + parts.fallback, swipeable);
    assert c in parts.personal + parts.automatic + parts.fallback;
  }

  /** Cards of one kind, over the three sources. */
  lemma KindOverParts(swipeable: seq<Card>, priority: seq<Card>, parts: Parts, p: Card -> bool)
    requires ThreeWays(parts, swipeable) && multiset(parts.personal + parts.automatic) == multiset(priority)
    ensures |Where(priority, p)| == |Where(parts.personal, p)| + |Where(parts.automatic, p)|
    ensures |Where(swipeable, p)| == |Where(priority, p)| + |Where(parts.fallback, p)|
  {
    WhereRearranged(parts.personal + parts.automatic, priority, p);
    WhereRearranged(parts.personal + parts.automatic + parts.fallback, swipeable, p);
    WhereAppend(parts.personal, parts.automatic, p);
    WhereAppend(parts.personal + parts.automatic, parts.fallback, p);
  }

  lemma EssentialsFacts(automatic: seq<Card>, days: nat)
    requires DistinctIds(automatic)
    ensures var e := Essentials(automatic, days);
      && PartOf(e, automatic)
      && |Meals(e)| == Min(days * MEALS_PER_DAY_MIN, |Meals(automatic)|)
      && |Attractions(e)| == Min(days * ATTRACTIONS_PER_DAY_MIN, |Attractions(automatic)|)
      && |e| == |Meals(e)| + |Attractions(e)|
  {
    var sorted := Sorting.Sort(Meals(automatic), ReelFirst);
    var food, sights := Take(sorted, days * MEALS_PER_DAY_MIN), LimitSocialPool(Attractions(automatic), days * ATTRACTIONS_PER_DAY_MIN);
    WherePart(automatic, IsFood);
    WherePart(automatic, IsAttraction);
    Sorting.SortKeeps(Meals(automatic), ReelFirst);
    DistinctRearranged(Meals(automatic), sorted);
    LimitKeeps(Attractions(automatic), days * ATTRACTIONS_PER_DAY_MIN);
    assert forall c | c in food :: c in sorted;
    Joined(food, sights, automatic);
    KindsOfBoth(food, sights);
  }

  /** No meal with a Reel, and no attraction of a lane with one, gives way to one without. */
  lemma EssentialsPreferReels(automatic: seq<Card>, days: nat, kept: Card, cut: Card)
    requires DistinctIds(automatic) && kept in Essentials(automatic, days) && cut in automatic && cut !in Essentials(automatic, days)
    requires kept.kind == cut.kind && (kept.kind == Food || (kept.kind == Attraction && kept.gem == cut.gem)) && cut.reel
    ensures kept.reel
  {
    var meals, sights := Meals(automatic), Attractions(automatic);
    var sorted := Sorting.Sort(meals, ReelFirst);
    SortedCards(meals, ReelFirst);
    LimitKeeps(sights, days * ATTRACTIONS_PER_DAY_MIN);
    FrontMembers(sorted, days * MEALS_PER_DAY_MIN);
    if kept.kind == Food {
      var i, j := FrontStandsBefore(sorted, days * MEALS_PER_DAY_MIN, kept, cut);
      assert ReelFirst(sorted[i], sorted[j]);
    } else {
      LimitCutsWeakest(sights, days * ATTRACTIONS_PER_DAY_MIN, kept, cut);
    }
  }

  lemma KindsOfBoth(food: seq<Card>, sights: seq<Card>)
    requires (forall c | c in food :: IsFood(c)) && forall c | c in sights :: IsAttraction(c)
    ensures Meals(food + sights) == food && Attractions(food + sights) == sights
  {
    WhereAppend(food, sights, IsFood);
    WhereAppend(food, sights, IsAttraction);
    WhereAll(food, IsFood);
    WhereNone(sights, IsFood);
    WhereNone(food, IsAttraction);
    WhereAll(sights, IsAttraction);
  }

  // ----- the pool before and after filling up -----

  /** What has been chosen from each source before the pool is filled up. */
  datatype Draft = Draft(essentials: seq<Card>, extra: seq<Card>, meals: seq<Card>, sights: seq<Card>)

  function DraftCards(parts: Parts, draft: Draft): seq<Card>
  {
    parts.personal + (draft.essentials + draft.extra) + draft.meals + draft.sights
  }

  ghost predicate DraftFrom(parts: Parts, draft: Draft)
  {
    && PartOf(draft.essentials, parts.automatic) && PartOf(draft.extra, Others(parts.automatic, draft.essentials))
    && PartOf(draft.meals, Meals(parts.fallback)) && PartOf(draft.sights, Attractions(parts.fallback))
  }

  lemma DraftIsPart(swipeable: seq<Card>, parts: Parts, draft: Draft)
    requires DistinctIds(swipeable) && ThreeWays(parts, swipeable) && DraftFrom(parts, draft)
    ensures PartOf(DraftCards(parts, draft), swipeable)
    ensures PartOf(draft.essentials + draft.extra, parts.automatic) && PartOf(draft.meals + draft.sights, parts.fallback)
  {
    PartIds(parts.automatic, swipeable);
    OthersFacts(parts.automatic, draft.essentials);
    Joined(draft.essentials, draft.extra, parts.automatic);
    Joined(draft.meals, draft.sights, parts.fallback);
    Joined(parts.personal, draft.essentials + draft.extra, swipeable);
    Joined(parts.personal + (draft.essentials + draft.extra), draft.meals + draft.sights, swipeable);
    assert DraftCards(parts, draft) == parts.personal + (draft.essentials + draft.extra) + (draft.meals + draft.sights);
  }

  /** The fallback cards a draft leaves are those it did not take as meals or sights. */
  lemma LeftAfterDraft(swipeable: seq<Card>, parts: Parts, draft: Draft)
    requires DistinctIds(swipeable) && ThreeWays(parts, swipeable) && DraftFrom(parts, draft)
    ensures var left := Others(parts.fallback, DraftCards(parts, draft));
      && |left| == |parts.fallback| - |draft.meals| - |draft.sights|
      && DistinctIds(left) && PartOf(left, parts.fallback) && forall c | c in left :: c !in DraftCards(parts, draft)
  {
    var taken, all := draft.meals + draft.sights, DraftCards(parts, draft);
    DraftIsPart(swipeable, parts, draft);
    PartIds(parts.fallback, swipeable);
    OthersFacts(parts.fallback, taken);
    forall c | c in parts.fallback ensures IdNotIn(IdsOf(taken))(c) <==> IdNotIn(IdsOf(all))(c) {
      assert forall x | x in taken :: x in all;
      if e :| e in all && e.id == c.id {
        SameId(swipeable, e, c);
        assert e in taken;
      }
    }
    WhereSame(parts.fallback, IdNotIn(IdsOf(taken)), IdNotIn(IdsOf(all)));
    PartIds(Others(parts.fallback, all), parts.fallback);
  }

  /** Filling up leaves a duplicate-free part of the city's cards that still holds every personal one. */
  lemma FilledIsPart(swipeable: seq<Card>, parts: Parts, draft: Draft, more: seq<Card>)
    requires DistinctIds(swipeable) && ThreeWays(parts, swipeable) && DraftFrom(parts, draft)
    requires PartOf(more, Others(parts.fallback, DraftCards(parts, draft)))
    ensures PartOf(DraftCards(parts, draft) + more, swipeable) && DistinctIds(DraftCards(parts, draft) + more)
  {
    DraftIsPart(swipeable, parts, draft);
    LeftAfterDraft(swipeable, parts, draft);
    Joined(DraftCards(parts, draft), more, swipeable);
    PartIds(DraftCards(parts, draft) + more, swipeable);
  }

  /** Cards of a kind in the finished pool: at least the personal ones, the essentials and the options. */
  lemma KindInPool(parts: Parts, draft: Draft, more: seq<Card>, p: Card -> bool)
    ensures |Where(DraftCards(parts, draft) + more, p)| >=
      |Where(parts.personal, p)| + |Where(draft.essentials, p)| + |Where(draft.meals, p)| + |Where(draft.sights, p)|
  {
    var automatic := draft.essentials + draft.extra;
    WhereAppend(DraftCards(parts, draft), more, p);
    WhereAppend(parts.personal + automatic + draft.meals, draft.sights, p);
    WhereAppend(parts.personal + automatic, draft.meals, p);
    WhereAppend(parts.personal, automatic, p);
    WhereAppend(draft.essentials, draft.extra, p);
  }

  /** With enough for every source counted, the pool is full or holds all there is. */
  lemma PoolSize(days: nat, personal: nat, automatic: nat, fallback: nat, essentials: nat, extra: nat, meals: nat, sights: nat, more: nat)
    requires essentials + meals + sights <= days * POOL_PER_DAY && essentials <= automatic && meals + sights <= fallback
    requires extra == Min(days * POOL_PER_DAY - meals - sights - essentials, automatic - essentials)
    requires more == Min(days * POOL_PER_DAY + personal - (personal + essentials + extra + meals + sights), fallback - meals - sights)
    ensures personal + essentials + extra + meals + sights + more == Min(days * POOL_PER_DAY + personal, personal + automatic + fallback)
  {
  }

  /** Fallback cards take a place from social ones only where meals or sights would be missing. */
  ghost predicate SocialFirst(swipeable: seq<Card>, days: nat, selected: seq<Card>)
  {
    var social := Where(swipeable, (c: Card) => c.priority);
    (exists c :: c in social && c !in selected) ==>
      |Where(selected, (c: Card) => !c.priority)|
        <= Max(0, days * MEALS_PER_DAY_MIN - |Where(social, (c: Card) => c.kind == Food)|)
         + Max(0, days * ATTRACTIONS_PER_DAY_MIN - |Where(social, (c: Card) => c.kind == Attraction)|)
  }

  /** The pool has enough cards of a kind for every day, or all the city has. */
  ghost predicate ServesDays(swipeable: seq<Card>, wanted: nat, selected: seq<Card>, kind: Kind)
  {
    |Where(selected, (c: Card) => c.kind == kind)| >= Min(wanted, |Where(swipeable, (c: Card) => c.kind == kind)|)
  }

  /** A city's pool repeats nothing, holds every personal card, fills its slots (eight a day plus the
      personal cards) as far as the city's cards go, social ones first, and feeds and entertains every
      day it can. */
  ghost predicate GoodCityPool(swipeable: seq<Card>, days: nat, selected: seq<Card>)
  {
    && DistinctIds(selected) && PartOf(selected, swipeable)
    && (forall c | c in swipeable && c.priority && c.personal :: c in selected)
    && |selected| == Min(days * POOL_PER_DAY + |Where(Where(swipeable, (c: Card) => c.priority), (c: Card) => c.personal)|, |swipeable|)
    && SocialFirst(swipeable, days, selected)
    && ServesDays(swipeable, days * MEALS_PER_DAY_MIN, selected, Food)
    && ServesDays(swipeable, days * ATTRACTIONS_PER_DAY_MIN, selected, Attraction)
  }

  /** Supply and demand of one kind: the essentials first, then the fallback options. */
  lemma EnoughIfSupplied(wanted: nat, personal: nat, automatic: nat, fallback: nat, essentials: nat, options: nat)
    requires essentials == Min(wanted, automatic) && options == Min(Max(0, wanted - (personal + automatic)), fallback)
    ensures personal + essentials + options >= Min(wanted, personal + automatic + fallback)
    ensures essentials + options <= wanted
  {
  }

  /** The fallback options of one kind are what was asked for. */
  ghost predicate Options(options: seq<Card>, fallback: seq<Card>, p: Card -> bool, needed: nat)
  {
    PartOf(options, Where(fallback, p)) && |options| == Min(needed, |Where(fallback, p)|)
  }

  lemma EnoughMeals(swipeable: seq<Card>, priority: seq<Card>, parts: Parts, days: nat, draft: Draft, more: seq<Card>)
    requires ThreeWays(parts, swipeable) && multiset(parts.personal + parts.automatic) == multiset(priority)
    requires |Meals(draft.essentials)| == Min(days * MEALS_PER_DAY_MIN, |Meals(parts.automatic)|)
    requires Options(draft.meals, parts.fallback, IsFood, Needed(MEALS_PER_DAY_MIN, days, |Meals(priority)|))
    ensures |Meals(DraftCards(parts, draft) + more)| >= Min(days * MEALS_PER_DAY_MIN, |Meals(swipeable)|)
    ensures |Meals(draft.essentials)| + |draft.meals| <= days * MEALS_PER_DAY_MIN
  {
    KindOverParts(swipeable, priority, parts, IsFood);
    KindInPool(parts, draft, more, IsFood);
    WhereAll(draft.meals, IsFood);
    EnoughIfSupplied(days * MEALS_PER_DAY_MIN, |Meals(parts.personal)|, |Meals(parts.automatic)|, |Meals(parts.fallback)|,
                     |Meals(draft.essentials)|, |draft.meals|);
  }

  lemma EnoughAttractions(swipeable: seq<Card>, priority: seq<Card>, parts: Parts, days: nat, draft: Draft, more: seq<Card>)
    requires ThreeWays(parts, swipeable) && multiset(parts.personal + parts.automatic) == multiset(priority)
    requires |Attractions(draft.essentials)| == Min(days * ATTRACTIONS_PER_DAY_MIN, |Attractions(parts.automatic)|)
    requires Options(draft.sights, parts.fallback, IsAttraction, Needed(ATTRACTIONS_PER_DAY_MIN, days, |Attractions(priority)|))
    ensures |Attractions(DraftCards(parts, draft) + more)| >= Min(days * ATTRACTIONS_PER_DAY_MIN, |Attractions(swipeable)|)
    ensures |Attractions(draft.essentials)| + |draft.sights| <= days * ATTRACTIONS_PER_DAY_MIN
  {
    KindOverParts(swipeable, priority, parts, IsAttraction);
    KindInPool(parts, draft, more, IsAttraction);
    WhereAll(draft.sights, IsAttraction);
    EnoughIfSupplied(days * ATTRACTIONS_PER_DAY_MIN, |Attractions(parts.personal)|, |Attractions(parts.automatic)|,
                     |Attractions(parts.fallback)|, |Attractions(draft.essentials)|, |draft.sights|);
  }

  lemma ThreeSizes(parts: Parts, swipeable: seq<Card>)
    requires ThreeWays(parts, swipeable)
    ensures |parts.personal| + |parts.automatic| + |parts.fallback| == |swipeable|
  {
    Sorting.SameMembers(parts.personal + parts.automatic + parts.fallback, swipeable);
  }

  /** The slots each step had left, and what it delivered for them. */
  ghost predicate FillsUp(parts: Parts, days: nat, draft: Draft, more: seq<Card>)
  {
    && |draft.extra| == Min(Max(0, days * POOL_PER_DAY - |draft.meals| - |draft.sights| - |draft.essentials|),
                            |Others(parts.automatic, draft.essentials)|)
    && |more| == Min(Max(0, days * POOL_PER_DAY + |parts.personal| - |DraftCards(parts, draft)|),
                     |Others(parts.fallback, DraftCards(parts, draft))|)
  }

  lemma FullOrAll(swipeable: seq<Card>, parts: Parts, days: nat, draft: Draft, more: seq<Card>)
    requires DistinctIds(swipeable) && ThreeWays(parts, swipeable) && DraftFrom(parts, draft) && FillsUp(parts, days, draft, more)
    requires |draft.essentials| + |draft.meals| + |draft.sights| <= days * POOL_PER_DAY
    ensures |DraftCards(parts, draft) + more| == Min(days * POOL_PER_DAY + |parts.personal|, |swipeable|)
  {
    PartIds(parts.automatic, swipeable);
    OthersFacts(parts.automatic, draft.essentials);
    var automatic, left := |Others(parts.automatic, draft.essentials)|, |Others(parts.fallback, DraftCards(parts, draft))|;
    assert left == |parts.fallback| - |draft.meals| - |draft.sights| by {
      LeftAfterDraft(swipeable, parts, draft);
    }
    ThreeSizes(parts, swipeable);
    PoolSize(days, |parts.personal|, |parts.automatic|, |parts.fallback|, |draft.essentials|, |draft.extra|, |draft.meals|, |draft.sights|, |more|);
  }

  lemma ByKind(cards: seq<Card>)
    ensures Where(cards, (c: Card) => c.kind == Food) == Meals(cards)
    ensures Where(cards, (c: Card) => c.kind == Attraction) == Attractions(cards)
  {
    WhereSame(cards, (c: Card) => c.kind == Food, IsFood);
    WhereSame(cards, (c: Card) => c.kind == Attraction, IsAttraction);
  }

  lemma EveryDayServed(swipeable: seq<Card>, priority: seq<Card>, parts: Parts, days: nat, draft: Draft, more: seq<Card>)
    requires ThreeWays(parts, swipeable) && multiset(parts.personal + parts.automatic) == multiset(priority)
    requires |Meals(draft.essentials)| == Min(days * MEALS_PER_DAY_MIN, |Meals(parts.automatic)|)
    requires |Attractions(draft.essentials)| == Min(days * ATTRACTIONS_PER_DAY_MIN, |Attractions(parts.automatic)|)
    requires |draft.essentials| == |Meals(draft.essentials)| + |Attractions(draft.essentials)|
    requires Options(draft.meals, parts.fallback, IsFood, Needed(MEALS_PER_DAY_MIN, days, |Meals(priority)|))
    requires Options(draft.sights, parts.fallback, IsAttraction, Needed(ATTRACTIONS_PER_DAY_MIN, days, |Attractions(priority)|))
    ensures ServesDays(swipeable, days * MEALS_PER_DAY_MIN, DraftCards(parts, draft) + more, Food)
    ensures ServesDays(swipeable, days * ATTRACTIONS_PER_DAY_MIN, DraftCards(parts, draft) + more, Attraction)
    ensures |draft.essentials| + |draft.meals| + |draft.sights| <= days * POOL_PER_DAY
  {
    EnoughMeals(swipeable, priority, parts, days, draft, more);
    EnoughAttractions(swipeable, priority, parts, days, draft, more);
    OfKind(swipeable, Food);
    OfKind(swipeable, Attraction);
    OfKind(DraftCards(parts, draft) + more, Food);
    OfKind(DraftCards(parts, draft) + more, Attraction);
  }

  lemma OfKind(cards: seq<Card>, kind: Kind)
    ensures kind == Food ==> Where(cards, (c: Card) => c.kind == kind) == Meals(cards)
    ensures kind == Attraction ==> Where(cards, (c: Card) => c.kind == kind) == Attractions(cards)
  {
    if kind == Food {
      WhereSame(cards, (c: Card) => c.kind == kind, IsFood);
    } else if kind == Attraction {
      WhereSame(cards, (c: Card) => c.kind == kind, IsAttraction);
    }
  }

  lemma OthersCounted(social: seq<Card>, chosen: seq<Card>)
    requires (forall c | c in social :: c.priority) && forall c | c in chosen :: !c.priority
    ensures |Where(social + chosen, (c: Card) => !c.priority)| == |chosen|
  {
    var other := (c: Card) => !c.priority;
    WhereAppend(social, chosen, other);
    WhereNone(social, other);
    WhereAll(chosen, other);
  }

  lemma PartSatisfies(part: seq<Card>, whole: seq<Card>, p: Card -> bool)
    requires PartOf(part, whole) && forall c | c in whole :: p(c)
    ensures forall c | c in part :: p(c)
  {
  }

  lemma FallbackInPool(swipeable: seq<Card>, parts: Parts, draft: Draft, more: seq<Card>)
    requires DistinctIds(swipeable) && ThreeWays(parts, swipeable) && DraftFrom(parts, draft)
    requires PartOf(more, Others(parts.fallback, DraftCards(parts, draft)))
    ensures |Where(DraftCards(parts, draft) + more, (c: Card) => !c.priority)| == |draft.meals| + |draft.sights| + |more|
  {
    var automatic, options := draft.essentials + draft.extra, draft.meals + draft.sights;
    DraftIsPart(swipeable, parts, draft);
    LeftAfterDraft(swipeable, parts, draft);
    PartSatisfies(automatic, parts.automatic, (c: Card) => c.priority);
    PartSatisfies(options, parts.fallback, (c: Card) => !c.priority);
    PartSatisfies(Others(parts.fallback, DraftCards(parts, draft)), parts.fallback, (c: Card) => !c.priority);
    PartSatisfies(more, Others(parts.fallback, DraftCards(parts, draft)), (c: Card) => !c.priority);
    OthersCounted(parts.personal + automatic, options + more);
    assert DraftCards(parts, draft) + more == parts.personal + automatic + (options + more);
  }

  /** Nothing is filled up unless every social card is in. */
  lemma SocialBeforeFillers(swipeable: seq<Card>, parts: Parts, days: nat, draft: Draft, more: seq<Card>, c: Card)
    requires DistinctIds(swipeable) && ThreeWays(parts, swipeable) && DraftFrom(parts, draft) && FillsUp(parts, days, draft, more)
    requires |draft.essentials| + |draft.meals| + |draft.sights| <= days * POOL_PER_DAY && more != []
    requires c in swipeable && c.priority
    ensures c in DraftCards(parts, draft)
  {
    PartsByProvenance(swipeable, parts, c);
    PartIds(parts.automatic, swipeable);
    OthersFacts(parts.automatic, draft.essentials);
    var others := Others(parts.automatic, draft.essentials);
    assert |draft.extra| == |others|;
    PartIds(others, parts.automatic);
    AllTaken(draft.extra, others);
    assert c in parts.automatic ==> c in draft.essentials || c in draft.extra;
  }

  lemma AllTaken(part: seq<Card>, whole: seq<Card>)
    requires PartOf(part, whole) && DistinctIds(whole) && |part| == |whole|
    ensures forall c | c in whole :: c in part
  {
    PartIds(part, whole);
    OthersFacts(whole, part);
  }

  lemma SocialCardsFirst(swipeable: seq<Card>, parts: Parts, days: nat, draft: Draft, more: seq<Card>)
    requires DistinctIds(swipeable) && ThreeWays(parts, swipeable) && DraftFrom(parts, draft) && FillsUp(parts, days, draft, more)
    requires |draft.essentials| + |draft.meals| + |draft.sights| <= days * POOL_PER_DAY
    requires Options(draft.meals, parts.fallback, IsFood, MealsNeeded(swipeable, days))
    requires Options(draft.sights, parts.fallback, IsAttraction, SightsNeeded(swipeable, days))
    requires PartOf(more, Others(parts.fallback, DraftCards(parts, draft)))
    ensures SocialFirst(swipeable, days, DraftCards(parts, draft) + more)
  {
    var selected, social := DraftCards(parts, draft) + more, Where(swipeable, (c: Card) => c.priority);
    ByKind(social);
    FallbackInPool(swipeable, parts, draft, more);
    if more != [] {
      forall c | c in social ensures c in selected {
        SocialBeforeFillers(swipeable, parts, days, draft, more, c);
      }
    }
  }

  lemma CityPoolIsGood(swipeable: seq<Card>, parts: Parts, days: nat, draft: Draft, more: seq<Card>)
    requires DistinctIds(swipeable) && parts == Split(swipeable) && draft.essentials == Essentials(parts.automatic, days)
    requires DraftFrom(parts, draft) && FillsUp(parts, days, draft, more)
    requires Options(draft.meals, parts.fallback, IsFood, MealsNeeded(swipeable, days))
    requires Options(draft.sights, parts.fallback, IsAttraction, SightsNeeded(swipeable, days))
    requires PartOf(more, Others(parts.fallback, DraftCards(parts, draft)))
    ensures GoodCityPool(swipeable, days, DraftCards(parts, draft) + more)
  {
    SplitThreeWays(swipeable);
    PartIds(parts.automatic, swipeable);
    EssentialsFacts(parts.automatic, days);
    EveryDayServed(swipeable, Priority(swipeable), parts, days, draft, more);
    FullOrAll(swipeable, parts, days, draft, more);
    FilledIsPart(swipeable, parts, draft, more);
    SocialCardsFirst(swipeable, parts, days, draft, more);
  }

  lemma OptionsFacts(d: Distance, swipeable: seq<Card>, fallback: seq<Card>, days: nat, needed: nat, p: Card -> bool)
    requires SelfZero(d) && DistinctIds(swipeable) && PartOf(fallback, swipeable) && (days == 0 ==> needed == 0)
    ensures Options(DensePoolOf(d, Where(fallback, p), days, needed), fallback, p, needed)
  {
    PartIds(fallback, swipeable);
    WherePart(fallback, p);
    PartIds(Where(fallback, p), fallback);
    DensePoolFills(d, Where(fallback, p), days, needed);
    IdsDistinctCards(DensePoolOf(d, Where(fallback, p), days, needed));
  }

  lemma ExtraFacts(swipeable: seq<Card>, automatic: seq<Card>, days: nat, spare: nat)
    requires DistinctIds(swipeable) && PartOf(automatic, swipeable)
    ensures var e := Essentials(automatic, days);
      var extra := LimitSocialPool(Others(automatic, e), spare);
      && PartOf(e, automatic) && PartOf(extra, Others(automatic, e)) && |extra| == Min(spare, |Others(automatic, e)|)
  {
    PartIds(automatic, swipeable);
    EssentialsFacts(automatic, days);
    OthersFacts(automatic, Essentials(automatic, days));
    LimitKeeps(Others(automatic, Essentials(automatic, days)), spare);
  }

  method PickOptions(d: Distance, swipeable: seq<Card>, fallback: seq<Card>, days: nat, needed: nat, p: Card -> bool)
    returns (options: seq<Card>)
    requires SelfZero(d) && DistinctIds(swipeable) && PartOf(fallback, swipeable) && (days == 0 ==> needed == 0)
    ensures Options(options, fallback, p, needed)
  {
    options := SelectDensePool(d, Where(fallback, p), days, needed);
    OptionsFacts(d, swipeable, fallback, days, needed, p);
  }

  method PickMore(d: Distance, left: seq<Card>, days: nat, room: nat) returns (more: seq<Card>)
    requires SelfZero(d) && DistinctIds(left) && (days == 0 ==> room == 0)
    ensures PartOf(more, left) && |more| == Min(room, |left|)
  {
    more := SelectDensePool(d, left, days, room);
    DensePoolFills(d, left, days, room);
    IdsDistinctCards(more);
  }

  /** Everything chosen before the pool is filled up. */
  ghost predicate Drafted(parts: Parts, days: nat, mealsNeeded: nat, sightsNeeded: nat, draft: Draft)
  {
    && DraftFrom(parts, draft) && draft.essentials == Essentials(parts.automatic, days)
    && Options(draft.meals, parts.fallback, IsFood, mealsNeeded)
    && Options(draft.sights, parts.fallback, IsAttraction, sightsNeeded)
    && |draft.extra| == Min(Max(0, days * POOL_PER_DAY - |draft.meals| - |draft.sights| - |draft.essentials|),
                            |Others(parts.automatic, draft.essentials)|)
  }

  lemma SourcesAreParts(swipeable: seq<Card>, parts: Parts, days: nat)
    requires DistinctIds(swipeable) && parts == Split(swipeable)
    ensures PartOf(parts.fallback, swipeable) && PartOf(parts.automatic, swipeable)
    ensures days == 0 ==> MealsNeeded(swipeable, days) == 0 && SightsNeeded(swipeable, days) == 0
  {
    SplitThreeWays(swipeable);
  }

  /** The essentials, and as many more social cards as the options leave room for. */
  function WithSocial(automatic: seq<Card>, days: nat, meals: seq<Card>, sights: seq<Card>): Draft
  {
    var essentials := Essentials(automatic, days);
    var spare := Max(0, days * POOL_PER_DAY - |meals| - |sights| - |essentials|);
    Draft(essentials, LimitSocialPool(Others(automatic, essentials), spare), meals, sights)
  }

  lemma DraftFacts(swipeable: seq<Card>, parts: Parts, days: nat, draft: Draft)
    requires DistinctIds(swipeable) && PartOf(parts.automatic, swipeable)
    requires draft == WithSocial(parts.automatic, days, draft.meals, draft.sights)
    requires Options(draft.meals, parts.fallback, IsFood, MealsNeeded(swipeable, days))
    requires Options(draft.sights, parts.fallback, IsAttraction, SightsNeeded(swipeable, days))
    ensures Drafted(parts, days, MealsNeeded(swipeable, days), SightsNeeded(swipeable, days), draft)
  {
    ExtraFacts(swipeable, parts.automatic, days, Max(0, days * POOL_PER_DAY - |draft.meals| - |draft.sights| - |draft.essentials|));
  }

  method DraftCity(d: Distance, swipeable: seq<Card>, parts: Parts, days: nat) returns (draft: Draft)
    requires SelfZero(d) && DistinctIds(swipeable) && parts == Split(swipeable)
    ensures Drafted(parts, days, MealsNeeded(swipeable, days), SightsNeeded(swipeable, days), draft)
  {
    SourcesAreParts(swipeable, parts, days);
    var meals := PickOptions(d, swipeable, parts.fallback, days, MealsNeeded(swipeable, days), IsFood);
    var sights := PickOptions(d, swipeable, parts.fallback, days, SightsNeeded(swipeable, days), IsAttraction);
    draft := WithSocial(parts.automatic, days, meals, sights);
    DraftFacts(swipeable, parts, days, draft);
  }

  method FillCity(d: Distance, swipeable: seq<Card>, parts: Parts, days: nat, draft: Draft) returns (selected: seq<Card>)
    requires SelfZero(d) && DistinctIds(swipeable) && parts == Split(swipeable)
    requires Drafted(parts, days, MealsNeeded(swipeable, days), SightsNeeded(swipeable, days), draft)
    ensures GoodCityPool(swipeable, days, selected)
  {
    var chosen := DraftCards(parts, draft);
    var left := Others(parts.fallback, chosen);
    LeftIsDistinct(swipeable, parts, draft);
    var more := PickMore(d, left, days, Max(0, days * POOL_PER_DAY + |parts.personal| - |chosen|));
    CityPoolIsGood(swipeable, parts, days, draft, more);
    selected := chosen + more;
  }

  lemma LeftIsDistinct(swipeable: seq<Card>, parts: Parts, draft: Draft)
    requires DistinctIds(swipeable) && parts == Split(swipeable) && DraftFrom(parts, draft)
    ensures DistinctIds(Others(parts.fallback, DraftCards(parts, draft))) && |parts.personal| <= |DraftCards(parts, draft)|
  {
    SplitThreeWays(swipeable);
    LeftAfterDraft(swipeable, parts, draft);
  }

  method SelectCityPool(d: Distance, swipeable: seq<Card>, days: nat) returns (selected: seq<Card>)
    requires SelfZero(d) && DistinctIds(swipeable)
    ensures GoodCityPool(swipeable, days, selected)
  {
    var parts := Split(swipeable);
    var draft := DraftCity(d, swipeable, parts, days);
    selected := FillCity(d, swipeable, parts, days, draft);
  }

  // ----- the trip's pool -----

  /** One card from every city, then the next from every city that still has one. */
  function SelectTripPool(pools: seq<seq<Card>>): seq<Card> { Rounds(pools, 0) }

  /** No city loses a card, and none is ever more than one round ahead of another. */
  lemma TripPoolSharesFairly(pools: seq<seq<Card>>, k: nat)
    requires k <= |SelectTripPool(pools)|
    ensures multiset(SelectTripPool(pools)) == multiset(Concat(pools))
    ensures exists r: nat :: Reaches(pools, 0, r, SelectTripPool(pools)[..k])
  {
    RoundsKeep(pools);
    RoundsAreFair(pools, 0, k);
  }
}
