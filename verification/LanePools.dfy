/** Filling two lanes. */
module LanePools {
  // `select_social_candidates` in syncinerary/agents/gather/social.py and `limit_social_pool` in
  // syncinerary/agents/gather/live.py fill two lanes from one budget.

  import opened Schedule
  import opened Sums
  import opened Lists
  import opened Lanes
  import opened Pool
  import Sorting

  // ----- handing slots over -----

  /** A lane that cannot fill its slots gives the spare ones to the other, For You first. */
  function HandOver(slots: Slots, trending: nat, forYou: nat): Slots
  {
    var given := if forYou < slots.forYou then Slots(slots.trending + slots.forYou - forYou, forYou) else slots;
    if trending < given.trending then Slots(trending, given.forYou + given.trending - trending) else given
  }

  /** Both lanes stay within their supply, neither gets less than it could use of its own slots,
      and together they use the whole budget. */
  predicate FairSplit(split: Slots, slots: Slots, trending: nat, forYou: nat)
  {
    && split.trending + split.forYou == slots.trending + slots.forYou
    && Min(slots.trending, trending) <= split.trending <= trending
    && Min(slots.forYou, forYou) <= split.forYou <= forYou
  }

  /** The hand-over is the one fair split there is. */
  lemma HandOverIsTheFairSplit(slots: Slots, trending: nat, forYou: nat, split: Slots)
    requires slots.trending + slots.forYou <= trending + forYou
    ensures FairSplit(split, slots, trending, forYou) <==> split == HandOver(slots, trending, forYou)
  {
  }

  /** Both lanes, each the front of its own ranking. */
  function PickLanes<T>(trending: seq<T>, forYou: seq<T>, budget: nat): seq<T>
  {
    var split := HandOver(LaneSlots(budget), |trending|, |forYou|);
    Take(trending, split.trending) + Take(forYou, split.forYou)
  }

  /** The pick fills the budget exactly, with a front of each ranking at least as long as the lane's
      own slots allow, and repeats nothing. */
  lemma PickFills<T>(trending: seq<T>, forYou: seq<T>, budget: nat)
    requires budget <= |trending| + |forYou|
    ensures |PickLanes(trending, forYou, budget)| == budget
    ensures exists a, b | Min(LaneSlots(budget).trending, |trending|) <= a <= |trending|
      && Min(LaneSlots(budget).forYou, |forYou|) <= b <= |forYou| ::
      PickLanes(trending, forYou, budget) == trending[..a] + forYou[..b]
    ensures forall x | x in PickLanes(trending, forYou, budget) :: x in trending || x in forYou
  {
    var split := HandOver(LaneSlots(budget), |trending|, |forYou|);
    HandOverIsTheFairSplit(LaneSlots(budget), |trending|, |forYou|, split);
    assert PickLanes(trending, forYou, budget) == trending[..split.trending] + forYou[..split.forYou];
  }

  lemma PickDistinct<T>(trending: seq<T>, forYou: seq<T>, budget: nat)
    requires budget <= |trending| + |forYou| && Distinct(trending + forYou)
    ensures Distinct(PickLanes(trending, forYou, budget))
  {
    var split := HandOver(LaneSlots(budget), |trending|, |forYou|);
    var both, pick := trending + forYou, PickLanes(trending, forYou, budget);
    forall i, j | 0 <= i < j < |pick| ensures pick[i] != pick[j] {
      var a := if i < split.trending then i else i - split.trending + |trending|;
      var b := if j < split.trending then j else j - split.trending + |trending|;
      assert pick[i] == both[a] && pick[j] == both[b] && a < b;
    }
  }

  // ----- the front of a ranking -----

  lemma FrontMembers<T>(lane: seq<T>, size: nat)
    ensures forall x | x in Take(lane, size) :: x in lane
  {
  }

  lemma FrontStandsBefore<T>(lane: seq<T>, size: nat, kept: T, cut: T) returns (i: nat, j: nat)
    requires kept in Take(lane, size) && cut in lane && cut !in Take(lane, size)
    ensures i < j < |lane| && lane[i] == kept && lane[j] == cut
  {
    var front := Take(lane, size);
    i :| 0 <= i < |front| && front[i] == kept;
    j :| 0 <= j < |lane| && lane[j] == cut;
    assert forall k | 0 <= k < |front| :: front[k] in front && front[k] == lane[k];
  }

  // ----- social candidates -----

  datatype MinedPlace = MinedPlace(name: nat, gem: bool, source: nat, interest: int, buzz: int, sources: int, authors: int, platforms: int)

  datatype Lane = Trending | ForYou

  datatype Selected = Selected(place: MinedPlace, lane: Lane)

  /** Tuple comparison. */
  predicate InOrder(a: seq<int>, b: seq<int>)
    requires |a| == |b|
  {
    a == [] || a[0] < b[0] || (a[0] == b[0] && InOrder(a[1..], b[1..]))
  }

  function TrendingKey(p: MinedPlace): seq<int>
  {
    [p.source as int, -p.buzz, -p.sources, -p.authors, -p.platforms, p.name as int]
  }

  function ForYouKey(p: MinedPlace): seq<int>
  {
    [p.source as int, -p.interest, -p.buzz, -p.sources, p.name as int]
  }

  predicate TrendingRank(a: MinedPlace, b: MinedPlace) { InOrder(TrendingKey(a), TrendingKey(b)) }

  predicate ForYouRank(a: MinedPlace, b: MinedPlace) { InOrder(ForYouKey(a), ForYouKey(b)) }

  function TrendingPool(places: seq<MinedPlace>): seq<MinedPlace>
  {
    Sorting.Sort(Where(places, (p: MinedPlace) => !p.gem), TrendingRank)
  }

  function ForYouPool(places: seq<MinedPlace>): seq<MinedPlace>
  {
    Sorting.Sort(Where(places, (p: MinedPlace) => p.gem), ForYouRank)
  }

  function Labelled(places: seq<MinedPlace>, lane: Lane): seq<Selected>
  {
    seq(|places|, i requires 0 <= i < |places| => Selected(places[i], lane))
  }

  function SelectSocialCandidates(places: seq<MinedPlace>, budget: int): seq<Selected>
  {
    if budget <= 0 || places == [] then []
    else PickLanes(Labelled(TrendingPool(places), Trending), Labelled(ForYouPool(places), ForYou), Min(|places|, budget))
  }

  lemma {:induction false} InOrderTotal(a: seq<int>, b: seq<int>, c: seq<int>)
    requires |a| == |b| == |c|
    ensures InOrder(a, b) || InOrder(b, a)
    ensures InOrder(a, b) && InOrder(b, c) ==> InOrder(a, c)
  {
    if a == [] {
    } else {
      InOrderTotal(a[1..], b[1..], c[1..]);
    }
  }

  lemma RanksAreTotal()
    ensures Sorting.Total(TrendingRank) && Sorting.Total(ForYouRank)
  {
    forall a, b, c
      ensures (TrendingRank(a, b) || TrendingRank(b, a)) && (TrendingRank(a, b) && TrendingRank(b, c) ==> TrendingRank(a, c))
      ensures (ForYouRank(a, b) || ForYouRank(b, a)) && (ForYouRank(a, b) && ForYouRank(b, c) ==> ForYouRank(a, c))
    {
      InOrderTotal(TrendingKey(a), TrendingKey(b), TrendingKey(c));
      InOrderTotal(ForYouKey(a), ForYouKey(b), ForYouKey(c));
    }
  }

  lemma PoolsSplit(places: seq<MinedPlace>)
    ensures |TrendingPool(places)| + |ForYouPool(places)| == |places|
    ensures forall p | p in TrendingPool(places) :: p in places && !p.gem
    ensures forall p | p in ForYouPool(places) :: p in places && p.gem
  {
    var hot, gems := Where(places, (p: MinedPlace) => !p.gem), Where(places, (p: MinedPlace) => p.gem);
    WhereSplits(places, (p: MinedPlace) => p.gem, (p: MinedPlace) => !p.gem);
    Sorting.SortKeeps(hot, TrendingRank);
    Sorting.SortKeeps(gems, ForYouRank);
    Sorting.SameMembers(TrendingPool(places), hot);
    Sorting.SameMembers(ForYouPool(places), gems);
  }

  /** The smaller of budget and supply is filled; a hidden gem is only ever For You, any other place
      only ever Trending. */
  lemma SocialSelectionFills(places: seq<MinedPlace>, budget: int)
    ensures |SelectSocialCandidates(places, budget)| == Min(|places|, Max(budget, 0))
    ensures forall s | s in SelectSocialCandidates(places, budget) :: s.place in places && (s.lane == ForYou <==> s.place.gem)
  {
    if budget > 0 && places != [] {
      PoolsSplit(places);
      var hot, gems := Labelled(TrendingPool(places), Trending), Labelled(ForYouPool(places), ForYou);
      PickFills(hot, gems, Min(|places|, budget));
      forall s | s in hot ensures s.place in places && !s.place.gem && s.lane == Trending {
        var i :| 0 <= i < |hot| && hot[i] == s;
        assert TrendingPool(places)[i] in TrendingPool(places);
      }
      forall s | s in gems ensures s.place in places && s.place.gem && s.lane == ForYou {
        var i :| 0 <= i < |gems| && gems[i] == s;
        assert ForYouPool(places)[i] in ForYouPool(places);
      }
    }
  }

  /** The first difference that is not none decides. */
  predicate FirstDecides(x: int, y: int, rest: bool) { x > y || (x == y && rest) }

  /** A better platform, then more buzz, more sources, more authors, more platforms, and the name last. */
  predicate AsHot(a: MinedPlace, b: MinedPlace)
  {
    FirstDecides(b.source, a.source, FirstDecides(a.buzz, b.buzz, FirstDecides(a.sources, b.sources,
      FirstDecides(a.authors, b.authors, FirstDecides(a.platforms, b.platforms, a.name <= b.name)))))
  }

  /** A better platform, then more interest, more buzz, more sources, and the name last. */
  predicate FitsAsWell(a: MinedPlace, b: MinedPlace)
  {
    FirstDecides(b.source, a.source, FirstDecides(a.interest, b.interest, FirstDecides(a.buzz, b.buzz,
      FirstDecides(a.sources, b.sources, a.name <= b.name))))
  }

  lemma RanksMean(a: MinedPlace, b: MinedPlace)
    ensures TrendingRank(a, b) <==> AsHot(a, b)
    ensures ForYouRank(a, b) <==> FitsAsWell(a, b)
  {
    var t, u := TrendingKey(a), TrendingKey(b);
    InOrderFrom(t, u, 0);
    InOrderFrom(t, u, 1);
    InOrderFrom(t, u, 2);
    InOrderFrom(t, u, 3);
    InOrderFrom(t, u, 4);
    InOrderFrom(t, u, 5);
    InOrderFrom(t, u, 6);
    var f, g := ForYouKey(a), ForYouKey(b);
    InOrderFrom(f, g, 0);
    InOrderFrom(f, g, 1);
    InOrderFrom(f, g, 2);
    InOrderFrom(f, g, 3);
    InOrderFrom(f, g, 4);
    InOrderFrom(f, g, 5);
  }

  lemma InOrderFrom(a: seq<int>, b: seq<int>, k: nat)
    requires |a| == |b| && k <= |a|
    ensures if k == |a| then InOrder(a[k..], b[k..]) else
      InOrder(a[k..], b[k..]) <==> a[k] < b[k] || (a[k] == b[k] && InOrder(a[k + 1..], b[k + 1..]))
  {
    if k < |a| {
      assert a[k..][1..] == a[k + 1..] && b[k..][1..] == b[k + 1..];
    }
  }

  /** What the budget drops ranks behind everything its lane keeps. */
  lemma WeakestDropped(places: seq<MinedPlace>, budget: int, kept: MinedPlace, dropped: MinedPlace, lane: Lane)
    requires Selected(kept, lane) in SelectSocialCandidates(places, budget)
    requires Selected(dropped, lane) !in SelectSocialCandidates(places, budget) && dropped in places
    requires lane == ForYou <==> dropped.gem
    ensures if lane == ForYou then FitsAsWell(kept, dropped) else AsHot(kept, dropped)
  {
    RanksMean(kept, dropped);
    RanksAreTotal();
    var trending, forYou := TrendingPool(places), ForYouPool(places);
    var split := HandOver(LaneSlots(Min(|places|, budget)), |trending|, |forYou|);
    LabelledFront(trending, Trending, split.trending);
    LabelledFront(forYou, ForYou, split.forYou);
    if lane == ForYou {
      PoolRanked(Where(places, (p: MinedPlace) => p.gem), ForYouRank);
      var i, j := FrontStandsBefore(Labelled(forYou, ForYou), split.forYou, Selected(kept, lane), Selected(dropped, lane));
      assert ForYouRank(forYou[i], forYou[j]);
    } else {
      PoolRanked(Where(places, (p: MinedPlace) => !p.gem), TrendingRank);
      var i, j := FrontStandsBefore(Labelled(trending, Trending), split.trending, Selected(kept, lane), Selected(dropped, lane));
      assert TrendingRank(trending[i], trending[j]);
    }
  }

  lemma LabelledFront(pool: seq<MinedPlace>, lane: Lane, size: nat)
    ensures forall s | s in Take(Labelled(pool, lane), size) :: s.lane == lane
    ensures forall p | p in pool :: Selected(p, lane) in Labelled(pool, lane)
  {
    forall p | p in pool ensures Selected(p, lane) in Labelled(pool, lane) {
      var i :| 0 <= i < |pool| && pool[i] == p;
      assert Labelled(pool, lane)[i] == Selected(p, lane);
    }
  }

  lemma PoolRanked(places: seq<MinedPlace>, rank: (MinedPlace, MinedPlace) -> bool)
    requires Sorting.Total(rank)
    ensures Sorting.Ordered(Sorting.Sort(places, rank), rank) && forall p :: p in Sorting.Sort(places, rank) <==> p in places
  {
    Sorting.SortOrders(places, rank);
    Sorting.SortKeeps(places, rank);
    Sorting.SameMembers(Sorting.Sort(places, rank), places);
  }

  lemma LabelledDistinct(trending: seq<MinedPlace>, forYou: seq<MinedPlace>)
    requires Distinct(trending) && Distinct(forYou)
    ensures Distinct(Labelled(trending, Trending) + Labelled(forYou, ForYou))
  {
  }

  /** No place is selected twice. */
  lemma SocialSelectionDistinct(places: seq<MinedPlace>, budget: int)
    requires Distinct(places)
    ensures Distinct(SelectSocialCandidates(places, budget))
  {
    if budget > 0 && places != [] {
      var hot, gems := Where(places, (p: MinedPlace) => !p.gem), Where(places, (p: MinedPlace) => p.gem);
      WhereDistinct(places, (p: MinedPlace) => !p.gem);
      WhereDistinct(places, (p: MinedPlace) => p.gem);
      Sorting.SortKeeps(hot, TrendingRank);
      Sorting.SortKeeps(gems, ForYouRank);
      DistinctRearranged(hot, TrendingPool(places));
      DistinctRearranged(gems, ForYouPool(places));
      PoolsSplit(places);
      LabelledDistinct(TrendingPool(places), ForYouPool(places));
      PickDistinct(Labelled(TrendingPool(places), Trending), Labelled(ForYouPool(places), ForYou), Min(|places|, budget));
    }
  }

  // ----- limiting verified cards -----

  predicate CoreFirst(a: Card, b: Card) { a.core || !b.core }

  predicate ReelFirst(a: Card, b: Card) { a.reel || !b.reel }

  /** A card with a Reel stands before one without, and of two alike in that a core place before another. */
  ghost predicate ReelsThenCore(cards: seq<Card>)
  {
    forall i, j | 0 <= i < j < |cards| ::
      (cards[j].reel ==> cards[i].reel) && (cards[i].reel == cards[j].reel && cards[j].core ==> cards[i].core)
  }

  ghost predicate ReelsInFront(cards: seq<Card>)
  {
    forall i, j | 0 <= i < j < |cards| :: cards[j].reel ==> cards[i].reel
  }

  function TrendingCards(cards: seq<Card>): seq<Card>
  {
    Sorting.Sort(Sorting.Sort(Where(cards, (c: Card) => !c.gem), CoreFirst), ReelFirst)
  }

  function GemCards(cards: seq<Card>): seq<Card>
  {
    Sorting.Sort(Where(cards, (c: Card) => c.gem), ReelFirst)
  }

  function LimitSocialPool(cards: seq<Card>, limit: int): seq<Card>
  {
    PickLanes(TrendingCards(cards), GemCards(cards), Max(0, Min(limit, |cards|)))
  }

  /** The second sort keeps the order of the first among equals. */
  lemma SecondSortKeepsFirst(s: seq<Card>)
    requires forall i, j | 0 <= i < j < |s| :: s[j].core ==> s[i].core
    ensures ReelsThenCore(Sorting.Sort(s, ReelFirst))
  {
    Sorting.SortStable(s, ReelFirst, CoreFirst);
    var sorted := Sorting.Sort(s, ReelFirst);
    forall i, j | 0 <= i < j < |sorted|
      ensures (sorted[j].reel ==> sorted[i].reel) && (sorted[i].reel == sorted[j].reel && sorted[j].core ==> sorted[i].core)
    {
      assert Sorting.Then(ReelFirst, CoreFirst)(sorted[i], sorted[j]);
    }
  }

  /** Trending cards stand Reels first and core places first among those, gems Reels first; between
      them the lanes hold the cards they were given. */
  lemma LimitedLanes(cards: seq<Card>)
    ensures ReelsThenCore(TrendingCards(cards)) && ReelsInFront(GemCards(cards))
    ensures forall c :: c in TrendingCards(cards) <==> c in cards && !c.gem
    ensures forall c :: c in GemCards(cards) <==> c in cards && c.gem
    ensures multiset(TrendingCards(cards)) + multiset(GemCards(cards)) == multiset(cards)
    ensures |TrendingCards(cards)| + |GemCards(cards)| == |cards|
  {
    var hot, gems := Where(cards, (c: Card) => !c.gem), Where(cards, (c: Card) => c.gem);
    var core := Sorting.Sort(hot, CoreFirst);
    WhereSplits(cards, (c: Card) => c.gem, (c: Card) => !c.gem);
    SortedCards(hot, CoreFirst);
    SortedCards(core, ReelFirst);
    SortedCards(gems, ReelFirst);
    forall i, j | 0 <= i < j < |core| ensures core[j].core ==> core[i].core {
      assert CoreFirst(core[i], core[j]);
    }
    SecondSortKeepsFirst(core);
    var lane := GemCards(cards);
    forall i, j | 0 <= i < j < |lane| ensures lane[j].reel ==> lane[i].reel {
      assert ReelFirst(lane[i], lane[j]);
    }
  }

  lemma SortedCards(cards: seq<Card>, first: (Card, Card) -> bool)
    requires Sorting.Total(first)
    ensures Sorting.Ordered(Sorting.Sort(cards, first), first)
    ensures multiset(Sorting.Sort(cards, first)) == multiset(cards) && |Sorting.Sort(cards, first)| == |cards|
    ensures forall c :: c in Sorting.Sort(cards, first) <==> c in cards
  {
    Sorting.SortOrders(cards, first);
    Sorting.SortKeeps(cards, first);
    Sorting.SameMembers(Sorting.Sort(cards, first), cards);
  }

  /** What a limit cuts has no Reel that something its lane keeps lacks, and of two trending cards alike
      in that it is no core place while the kept one is not. */
  lemma LimitCutsWeakest(cards: seq<Card>, limit: int, kept: Card, cut: Card)
    requires kept in LimitSocialPool(cards, limit) && cut in cards && cut !in LimitSocialPool(cards, limit) && kept.gem == cut.gem
    ensures cut.reel ==> kept.reel
    ensures !kept.gem && kept.reel == cut.reel && cut.core ==> kept.core
  {
    LimitedLanes(cards);
    var hot, gems := TrendingCards(cards), GemCards(cards);
    var split := HandOver(LaneSlots(Max(0, Min(limit, |cards|))), |hot|, |gems|);
    FrontMembers(hot, split.trending);
    FrontMembers(gems, split.forYou);
    if kept.gem {
      var i, j := FrontStandsBefore(gems, split.forYou, kept, cut);
    } else {
      var i, j := FrontStandsBefore(hot, split.trending, kept, cut);
    }
  }

  /** A limit keeps as many cards as it can, all distinct, none from elsewhere. */
  lemma LimitKeeps(cards: seq<Card>, limit: int)
    ensures |LimitSocialPool(cards, limit)| == Max(0, Min(limit, |cards|))
    ensures forall c | c in LimitSocialPool(cards, limit) :: c in cards
    ensures Distinct(cards) ==> Distinct(LimitSocialPool(cards, limit))
  {
    LimitedLanes(cards);
    var hot, gems, budget := TrendingCards(cards), GemCards(cards), Max(0, Min(limit, |cards|));
    PickFills(hot, gems, budget);
    assert multiset(hot + gems) == multiset(cards);
    Sorting.SameMembers(hot + gems, cards);
    forall c | c in LimitSocialPool(cards, limit) ensures c in cards {
      assert c in hot + gems;
    }
    if Distinct(cards) {
      DistinctRearranged(cards, hot + gems);
      PickDistinct(hot, gems, budget);
    }
  }
}
