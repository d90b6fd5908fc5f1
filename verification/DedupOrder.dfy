/** When the order of arrival decides what deduplication keeps (syncinerary/agents/gather/dedup.py). */
module DedupOrder {
  import opened Dedup
  import opened Sums

  /** No two cards share an id, and distance is the same both ways. */
  ghost predicate Usable(m: Matcher, cards: seq<Card>)
  {
    && Distinct(cards)
    && (forall a, b | a in cards && b in cards && a.id == b.id :: a == b)
    && (forall a, b :: m.distance(a, b) == m.distance(b, a))
  }

  ghost predicate Rearranged(p: seq<Card>, cards: seq<Card>) { multiset(p) == multiset(cards) }

  lemma RearrangedUsable(m: Matcher, cards: seq<Card>, p: seq<Card>)
    requires Usable(m, cards) && Rearranged(p, cards)
    ensures Usable(m, p) && forall c :: c in p <==> c in cards
  {
    forall c ensures c in p <==> c in cards {
      assert c in multiset(p) <==> c in multiset(cards);
    }
    DistinctRearranged(cards, p);
  }

  lemma {:induction false} Listed(cards: multiset<Card>) returns (s: seq<Card>)
    ensures multiset(s) == cards
  {
    if cards == multiset{} {
      s := [];
    } else {
      var c :| c in cards;
      var rest := Listed(cards - multiset{c});
      s := [c] + rest;
    }
  }

  /** Any of the cards can be made to arrive first, in any order. */
  lemma Lead(cards: seq<Card>, front: seq<Card>) returns (p: seq<Card>)
    requires Distinct(front) && forall c | c in front :: c in cards
    ensures front <= p && Rearranged(p, cards)
  {
    DistinctIsSet(front);
    forall c ensures multiset(front)[c] <= multiset(cards)[c] {
      if c in front {
        assert c in multiset(cards);
      }
    }
    var rest := Listed(multiset(cards) - multiset(front));
    p := front + rest;
  }

  /** The first card is the first survivor. */
  lemma FirstSurvives(m: Matcher, p: seq<Card>)
    requires p != []
    ensures Firsts(m, p) != [] && Firsts(m, p)[0] == 0 && HomeOf(m, p, 0) == 0
  {
    HomeIsFirstMatch(m, p, 0);
    FirstOccurrenceOrder(m, p);
    var at, k := Firsts(m, p), HomeOf(m, p, 0);
    assert at[k] == 0 && forall j | 0 < j < |at| :: at[0] < at[j];
  }

  /** A card that matches the first one joins it. */
  lemma JoinsFirst(m: Matcher, p: seq<Card>, i: nat)
    requires 0 < i < |p|
    ensures HomeOf(m, p, i) == 0 <==> SamePlace(m, p[0], p[i])
  {
    FirstSurvives(m, p);
    HomeIsFirstMatch(m, p, i);
  }

  // ----- which cards survive -----

  /** The ids the pass keeps. */
  function SurvivingIds(m: Matcher, cards: seq<Card>): set<nat>
  {
    set c | c in Deduped(m, cards) :: c.id
  }

  predicate NoneMatch(m: Matcher, cards: seq<Card>)
  {
    forall a, b | a in cards && b in cards && a != b :: !SamePlace(m, a, b)
  }

  /** No later survivor matches the first card. */
  lemma SurvivorsDoNotMatchFirst(m: Matcher, p: seq<Card>, k: nat)
    requires 0 < k < |Deduped(m, p)| && p != []
    ensures !SamePlace(m, p[0], p[Firsts(m, p)[k]])
  {
    FirstSurvives(m, p);
    FirstOccurrenceOrder(m, p);
    DedupResolves(m, p);
    var r, at := Deduped(m, p), Firsts(m, p);
    assert !SamePlace(m, r[0], r[k]);
    assert SameIdentity(r[0], p[0]) && SameIdentity(r[k], p[at[k]]);
  }

  /** Of two matching cards only the one that arrives first survives, when they arrive first. */
  lemma SecondIsDropped(m: Matcher, p: seq<Card>)
    requires Usable(m, p) && |p| >= 2 && SamePlace(m, p[0], p[1])
    ensures p[0].id in SurvivingIds(m, p) && p[1].id !in SurvivingIds(m, p)
  {
    FirstSurvives(m, p);
    FirstOccurrenceOrder(m, p);
    var r, at := Deduped(m, p), Firsts(m, p);
    assert SameIdentity(r[0], p[0]) && r[0] in r;
    forall k | 0 <= k < |r| ensures r[k].id != p[1].id {
      if k > 0 {
        SurvivorsDoNotMatchFirst(m, p, k);
      }
      assert SameIdentity(r[k], p[at[k]]) && p[at[k]] in p && p[1] in p && p[at[k]] != p[1];
    }
  }

  /** Which cards survive never depends on the order of arrival exactly when no two of them
      match, that is, when there is nothing to merge. */
  lemma SurvivorsFixedIff(m: Matcher, cards: seq<Card>)
    requires Usable(m, cards)
    ensures (forall p | Rearranged(p, cards) :: SurvivingIds(m, p) == SurvivingIds(m, cards)) <==> NoneMatch(m, cards)
  {
    if NoneMatch(m, cards) {
      forall p | Rearranged(p, cards) ensures SurvivingIds(m, p) == SurvivingIds(m, cards) {
        RearrangedUsable(m, cards, p);
        ResolvedStays(m, p);
        ResolvedStays(m, cards);
      }
    } else {
      var a, b :| a in cards && b in cards && a != b && SamePlace(m, a, b);
      var p := Lead(cards, [a, b]);
      var q := Lead(cards, [b, a]);
      RearrangedUsable(m, cards, p);
      RearrangedUsable(m, cards, q);
      assert p[..2] == [a, b] && q[..2] == [b, a];
      assert p[0] == p[..2][0] && p[1] == p[..2][1] && q[0] == q[..2][0] && q[1] == q[..2][1];
      SecondIsDropped(m, p);
      SecondIsDropped(m, q);
    }
  }

  // ----- which cards end up together -----

  /** Both cards are merged into one survivor. */
  ghost predicate Together(m: Matcher, p: seq<Card>, x: Card, y: Card)
  {
    exists i, j | 0 <= i < |p| && 0 <= j < |p| :: p[i] == x && p[j] == y && HomeOf(m, p, i) == HomeOf(m, p, j)
  }

  predicate Carries(m: Matcher, x: Card, y: Card, z: Card)
  {
    x != y && y != z && x != z && SamePlace(m, x, y) && SamePlace(m, y, z) ==> SamePlace(m, x, z)
  }

  /** Among different cards of the pool, matching carries over. */
  predicate MatchingCarries(m: Matcher, cards: seq<Card>)
  {
    forall x, y, z | x in cards && y in cards && z in cards :: Carries(m, x, y, z)
  }

  /** Of two homes with a card each the earlier one takes the other card in as well, if the
      cards match; it has no reason to if they do not. */
  lemma HomesByFirsts(m: Matcher, p: seq<Card>, at: seq<nat>, a: nat, b: nat, i: nat, j: nat)
    requires FirstMatch(m, p, at, a, i) && FirstMatch(m, p, at, b, j) && i != j && Distinct(p)
    requires forall x, y :: SamePlace(m, x, y) <==> SamePlace(m, y, x)
    requires a < b ==> at[a] < at[b]
    requires Carries(m, p[i], p[at[a]], p[j]) && Carries(m, p[at[a]], p[i], p[j])
    ensures a == b ==> SamePlace(m, p[i], p[j])
    ensures a < b ==> !SamePlace(m, p[i], p[j])
  {
    assert at[a] != i ==> p[at[a]] != p[i];
    assert at[a] != j ==> p[at[a]] != p[j];
    assert p[i] != p[j];
  }

  lemma HomesMeet(m: Matcher, p: seq<Card>, i: nat, j: nat)
    requires Distinct(p) && MatchingCarries(m, p) && i < |p| && j < |p| && i != j
    requires forall x, y :: SamePlace(m, x, y) <==> SamePlace(m, y, x)
    ensures HomeOf(m, p, i) == HomeOf(m, p, j) <==> SamePlace(m, p[i], p[j])
  {
    HomeIsFirstMatch(m, p, i);
    HomeIsFirstMatch(m, p, j);
    FirstOccurrenceOrder(m, p);
    var at, a, b := Firsts(m, p), HomeOf(m, p, i), HomeOf(m, p, j);
    assert p[at[a]] in p && p[at[b]] in p && p[i] in p && p[j] in p;
    HomesByFirsts(m, p, at, a, b, i, j);
    HomesByFirsts(m, p, at, b, a, j, i);
  }

  /** Whatever the order of arrival, cards end up together exactly when they match. */
  lemma TogetherIsMatching(m: Matcher, cards: seq<Card>, p: seq<Card>, x: Card, y: Card)
    requires Usable(m, cards) && MatchingCarries(m, cards) && Rearranged(p, cards)
    requires x in cards && y in cards && x != y
    ensures Together(m, p, x, y) <==> SamePlace(m, x, y)
  {
    RearrangedUsable(m, cards, p);
    assert x in p && y in p && MatchingCarries(m, p);
    var i :| 0 <= i < |p| && p[i] == x;
    var j :| 0 <= j < |p| && p[j] == y;
    HomesMeet(m, p, i, j);
    TogetherAt(m, p, i, j);
  }

  lemma TogetherAt(m: Matcher, p: seq<Card>, i: nat, j: nat)
    requires Distinct(p) && i < |p| && j < |p|
    ensures Together(m, p, p[i], p[j]) <==> HomeOf(m, p, i) == HomeOf(m, p, j)
  {
    if Together(m, p, p[i], p[j]) {
      var a, b :| 0 <= a < |p| && 0 <= b < |p| && p[a] == p[i] && p[b] == p[j] && HomeOf(m, p, a) == HomeOf(m, p, b);
      assert a == i && b == j;
    }
  }

  /** Which cards end up together never depends on the order of arrival exactly when matching
      carries over from card to card, which names contained in each other need not do. */
  lemma GroupsFixedIff(m: Matcher, cards: seq<Card>)
    requires Usable(m, cards)
    ensures (forall p, x, y | Rearranged(p, cards) && x in cards && y in cards && x != y ::
               Together(m, p, x, y) <==> Together(m, cards, x, y))
       <==> MatchingCarries(m, cards)
  {
    if MatchingCarries(m, cards) {
      forall p, x, y | Rearranged(p, cards) && x in cards && y in cards && x != y
        ensures Together(m, p, x, y) <==> Together(m, cards, x, y)
      {
        TogetherIsMatching(m, cards, p, x, y);
        TogetherIsMatching(m, cards, cards, x, y);
      }
    } else {
      var x, y, z :| x in cards && y in cards && z in cards && !Carries(m, x, y, z);
      var p, q := BothOrders(m, cards, x, y, z);
      assert Together(m, p, x, z) != Together(m, q, x, z);
    }
  }

  /** If the card in the middle comes first the outer two join it; if it comes last they do not
      meet. */
  lemma BothOrders(m: Matcher, cards: seq<Card>, x: Card, y: Card, z: Card) returns (p: seq<Card>, q: seq<Card>)
    requires Usable(m, cards) && x in cards && y in cards && z in cards && !Carries(m, x, y, z)
    ensures Rearranged(p, cards) && Rearranged(q, cards) && Together(m, p, x, z) && !Together(m, q, x, z)
  {
    p := Lead(cards, [y, x, z]);
    assert p[0] == y && p[1] == x && p[2] == z;
    JoinsFirst(m, p, 1);
    JoinsFirst(m, p, 2);
    q := Lead(cards, [x, z, y]);
    assert q[0] == x && q[1] == z && q[2] == y;
    RearrangedUsable(m, cards, q);
    FirstSurvives(m, q);
    JoinsFirst(m, q, 1);
  }

  // ----- how many cards survive -----

  function Named(name: nat): Card { Card(name, name, 0, [name], map[], map[], Blank, Blank, Blank, map[]) }

  /** A name that contains two others merges with both, so the order of arrival decides how many
      cards survive. */
  lemma OrderDecides(m: Matcher)
    requires m.distance(0, 0) == 0 && m.tokens(0) == {1} && m.tokens(1) == {1, 2} && m.tokens(2) == {2}
    ensures SamePlace(m, Named(0), Named(1)) && SamePlace(m, Named(1), Named(2)) && !SamePlace(m, Named(0), Named(2))
    ensures |Deduped(m, [Named(0), Named(1), Named(2)])| == 2
    ensures |Deduped(m, [Named(1), Named(0), Named(2)])| == 1
  {
    var a, b, c := Named(0), Named(1), Named(2);
    assert 1 in m.tokens(0) && 1 !in m.tokens(2) && 2 in m.tokens(2) && 2 !in m.tokens(0);
    DedupOfThree(m, a, b, c);
    DedupOfThree(m, b, a, c);
  }

  lemma DedupOfThree(m: Matcher, x: Card, y: Card, z: Card)
    requires SamePlace(m, x, y)
    ensures |Deduped(m, [x, y, z])| == if SamePlace(m, x, z) then 1 else 2
  {
    assert [x, y, z][..2] == [x, y] && [x, y][..1] == [x] && [x][..0] == [];
    assert Deduped(m, [x]) == [x];
    var merged := MergeEvidence(x, y);
    assert Deduped(m, [x, y]) == [merged];
    MatchByIdentity(m, merged, x, z);
  }
}
