/** Cross-source entity resolution (syncinerary/agents/gather/dedup.py). */
module Dedup {
  type Spot = nat
  type Token = nat
  type Source = nat

  /** A value as Python's truth test sees it. */
  datatype Fact = Blank | Known(value: nat)

  datatype Card = Card(id: nat, name: nat, spot: Spot, sources: seq<Source>, facts: map<nat, Fact>, lists: map<nat, seq<nat>>,
                       hours: Fact, address: Fact, area: Fact, signals: map<nat, nat>)

  /** The unseen parts of the similarity: distance in metres, and a name's identity tokens. */
  datatype Matcher = Matcher(distance: (Spot, Spot) -> nat, tokens: nat -> set<Token>)

  const GEO_CLUSTER_RADIUS_M := 50

  predicate SamePlace(m: Matcher, left: Card, right: Card)
  {
    && m.distance(left.spot, right.spot) <= GEO_CLUSTER_RADIUS_M
    && m.tokens(left.name) != {} && m.tokens(right.name) != {}
    && (m.tokens(left.name) <= m.tokens(right.name) || m.tokens(right.name) <= m.tokens(left.name))
  }

  // ----- merging the evidence of two rows -----

  /** `more` appended to `s`, skipping what is already there. */
  function AppendNew<T(==)>(s: seq<T>, more: seq<T>): (r: seq<T>)
    ensures s <= r
    ensures forall x | x in more :: x in r
    ensures forall x | x in r :: x in s || x in more
    decreases |more|
  {
    if more == [] then s
    else
      var grown := if more[0] in s then s else s + [more[0]];
      assert more[0] in grown && forall x | x in more :: x == more[0] || x in more[1..];
      AppendNew(grown, more[1..])
  }

  function Richer(keeper: Fact, duplicate: Fact): Fact { if keeper == Blank then duplicate else keeper }

  function FactAt(facts: map<nat, Fact>, key: nat): Fact { if key in facts then facts[key] else Blank }

  function ListAt(lists: map<nat, seq<nat>>, key: nat): seq<nat> { if key in lists then lists[key] else [] }

  function MergeEvidence(keeper: Card, duplicate: Card): Card
  {
    keeper.(
      sources := AppendNew(keeper.sources, duplicate.sources),
      facts := map key | key in keeper.facts.Keys + duplicate.facts.Keys ::
        Richer(FactAt(keeper.facts, key), FactAt(duplicate.facts, key)),
      lists := map key | key in keeper.lists.Keys + duplicate.lists.Keys ::
        AppendNew(ListAt(keeper.lists, key), ListAt(duplicate.lists, key)),
      hours := Richer(keeper.hours, duplicate.hours),
      address := Richer(keeper.address, duplicate.address),
      area := Richer(keeper.area, duplicate.area),
      signals := duplicate.signals + keeper.signals)
  }

  predicate Tells(keeper: Fact, duplicate: Fact) { keeper == Blank ==> duplicate == Blank }

  predicate Includes(s: seq<nat>, t: seq<nat>) { forall x | x in t :: x in s }

  /** The keeper already holds all the duplicate could add. */
  predicate Covers(keeper: Card, duplicate: Card)
  {
    && Includes(keeper.sources, duplicate.sources)
    && (forall key | key in duplicate.facts :: key in keeper.facts && Tells(keeper.facts[key], duplicate.facts[key]))
    && (forall key | key in duplicate.lists :: key in keeper.lists && Includes(keeper.lists[key], duplicate.lists[key]))
    && Tells(keeper.hours, duplicate.hours) && Tells(keeper.address, duplicate.address) && Tells(keeper.area, duplicate.area)
    && duplicate.signals.Keys <= keeper.signals.Keys
  }

  lemma {:induction false} NothingNew<T>(s: seq<T>, more: seq<T>)
    requires forall x | x in more :: x in s
    ensures AppendNew(s, more) == s
  {
    if more == [] {
    } else {
      assert more[0] in more;
      NothingNew(s, more[1..]);
    }
  }

  /** Merging in what is already covered changes nothing, and only then. */
  lemma MergeAbsorbs(keeper: Card, duplicate: Card)
    ensures MergeEvidence(keeper, duplicate) == keeper <==> Covers(keeper, duplicate)
  {
    var merged := MergeEvidence(keeper, duplicate);
    if Covers(keeper, duplicate) {
      NothingNew(keeper.sources, duplicate.sources);
      assert merged.facts == keeper.facts;
      forall key | key in keeper.lists ensures AppendNew(keeper.lists[key], ListAt(duplicate.lists, key)) == keeper.lists[key] {
        NothingNew(keeper.lists[key], ListAt(duplicate.lists, key));
      }
      assert merged.lists == keeper.lists;
      assert merged.signals == keeper.signals;
    } else if merged == keeper {
      forall key | key in duplicate.facts ensures key in keeper.facts && Tells(keeper.facts[key], duplicate.facts[key]) {
        assert key in merged.facts;
      }
      forall key | key in duplicate.lists ensures key in keeper.lists && Includes(keeper.lists[key], duplicate.lists[key]) {
        assert key in merged.lists;
        assert merged.lists[key] == keeper.lists[key];
      }
    }
  }

  /** Merging the duplicate in again would change nothing. */
  predicate Absorbed(keeper: Card, duplicate: Card) { MergeEvidence(keeper, duplicate) == keeper }

  lemma MergeThenAbsorbed(keeper: Card, duplicate: Card, other: Card)
    ensures Absorbed(MergeEvidence(keeper, duplicate), duplicate) && Absorbed(duplicate, duplicate)
    ensures Absorbed(keeper, other) ==> Absorbed(MergeEvidence(keeper, duplicate), other)
  {
    MergeCovers(keeper, duplicate, other);
    MergeAbsorbs(MergeEvidence(keeper, duplicate), duplicate);
    MergeAbsorbs(MergeEvidence(keeper, duplicate), other);
    MergeAbsorbs(duplicate, duplicate);
    MergeAbsorbs(keeper, other);
  }

  /** A merge covers the duplicate, and all the keeper covered before. */
  lemma MergeCovers(keeper: Card, duplicate: Card, other: Card)
    ensures Covers(MergeEvidence(keeper, duplicate), duplicate)
    ensures Covers(keeper, other) ==> Covers(MergeEvidence(keeper, duplicate), other)
  {
  }

  // ----- the pass over the candidates -----

  /** The first kept card that is the same place, or the length when there is none. */
  function Home(m: Matcher, resolved: seq<Card>, c: Card): (k: nat)
    ensures k <= |resolved|
    ensures forall i | 0 <= i < k :: !SamePlace(m, resolved[i], c)
    ensures k < |resolved| ==> SamePlace(m, resolved[k], c)
  {
    if resolved == [] || SamePlace(m, resolved[0], c) then 0 else 1 + Home(m, resolved[1..], c)
  }

  function Place(m: Matcher, resolved: seq<Card>, c: Card): seq<Card>
  {
    var k := Home(m, resolved, c);
    if k < |resolved| then resolved[k := MergeEvidence(resolved[k], c)] else resolved + [c]
  }

  function Deduped(m: Matcher, cards: seq<Card>): (r: seq<Card>)
    ensures |r| <= |cards|
  {
    if cards == [] then [] else Place(m, Deduped(m, cards[..|cards| - 1]), cards[|cards| - 1])
  }

  method DedupCandidates(m: Matcher, candidates: seq<Card>) returns (resolved: seq<Card>)
    ensures resolved == Deduped(m, candidates)
  {
    resolved := [];
    for n := 0 to |candidates|
      invariant resolved == Deduped(m, candidates[..n])
    {
      var candidate, merged, index := candidates[n], false, 0;
      ghost var was := resolved;
      while index < |resolved|
        invariant index <= |resolved| && index <= Home(m, was, candidate) && !merged && resolved == was
      {
        HomeAt(m, was, candidate, index);
        if SamePlace(m, resolved[index], candidate) {
          resolved := resolved[index := MergeEvidence(resolved[index], candidate)];
          merged := true;
          break;
        }
        index := index + 1;
      }
      if !merged {
        resolved := resolved + [candidate];
      }
      assert candidates[..n + 1][..n] == candidates[..n];
    }
    assert candidates[..|candidates|] == candidates;
  }

  lemma HomeAt(m: Matcher, resolved: seq<Card>, c: Card, k: nat)
    requires k <= Home(m, resolved, c) && k < |resolved|
    ensures SamePlace(m, resolved[k], c) <==> Home(m, resolved, c) == k
  {
  }

  // ----- what the pass promises -----

  /** Matching reads only a card's name and position, and a merge keeps both. */
  predicate SameIdentity(a: Card, b: Card) { a.id == b.id && a.name == b.name && a.spot == b.spot }

  lemma {:induction false} HomeByIdentity(m: Matcher, s: seq<Card>, t: seq<Card>, c: Card)
    requires |s| == |t| && forall i | 0 <= i < |s| :: SameIdentity(s[i], t[i])
    ensures Home(m, s, c) == Home(m, t, c)
  {
    if s != [] && !SamePlace(m, s[0], c) {
      HomeByIdentity(m, s[1..], t[1..], c);
    }
  }

  /** No later kept card matches an earlier one. */
  ghost predicate Resolved(m: Matcher, cards: seq<Card>)
  {
    forall i, j | 0 <= i < j < |cards| :: !SamePlace(m, cards[i], cards[j])
  }

  lemma {:induction false} DedupResolves(m: Matcher, cards: seq<Card>)
    ensures Resolved(m, Deduped(m, cards))
  {
    if cards == [] {
    } else {
      DedupResolves(m, cards[..|cards| - 1]);
    }
  }

  lemma {:induction false} ResolvedStays(m: Matcher, cards: seq<Card>)
    requires Resolved(m, cards)
    ensures Deduped(m, cards) == cards
  {
    if cards == [] {
    } else {
      ResolvedStays(m, cards[..|cards| - 1]);
      assert cards == cards[..|cards| - 1] + [cards[|cards| - 1]];
    }
  }

  /** Deduplicating twice is deduplicating once. */
  lemma DedupIdempotent(m: Matcher, cards: seq<Card>)
    ensures Deduped(m, Deduped(m, cards)) == Deduped(m, cards)
  {
    DedupResolves(m, cards);
    ResolvedStays(m, Deduped(m, cards));
  }

  /** The positions of the cards that were kept. */
  function Firsts(m: Matcher, cards: seq<Card>): (r: seq<nat>)
    ensures |r| == |Deduped(m, cards)|
    ensures forall k | 0 <= k < |r| :: r[k] < |cards|
  {
    if cards == [] then []
    else
      var rest, last := cards[..|cards| - 1], cards[|cards| - 1];
      if Home(m, Deduped(m, rest), last) < |Deduped(m, rest)| then Firsts(m, rest) else Firsts(m, rest) + [|rest|]
  }

  /** Where the evidence of input card `i` ends up. */
  function HomeOf(m: Matcher, cards: seq<Card>, i: nat): (k: nat)
    requires i < |cards|
    ensures k < |Deduped(m, cards)|
    decreases |cards|
  {
    if i == |cards| - 1 then Home(m, Deduped(m, cards[..i]), cards[i]) else HomeOf(m, cards[..|cards| - 1], i)
  }

  /** Placing one card leaves every kept card its identity, and gives the new card a place that
      covers it. */
  lemma PlaceFacts(m: Matcher, resolved: seq<Card>, c: Card)
    ensures var r, k := Place(m, resolved, c), Home(m, resolved, c);
      && |r| == (if k < |resolved| then |resolved| else |resolved| + 1)
      && Absorbed(r[k], c) && (k == |resolved| ==> r[k] == c)
    ensures forall j | 0 <= j < |resolved| :: SameIdentity(Place(m, resolved, c)[j], resolved[j])
  {
    var k := Home(m, resolved, c);
    MergeThenAbsorbed(if k < |resolved| then resolved[k] else c, c, c);
  }

  lemma PlaceKeepsAbsorbed(m: Matcher, resolved: seq<Card>, c: Card, j: nat, d: Card)
    requires j < |resolved| && Absorbed(resolved[j], d)
    ensures Absorbed(Place(m, resolved, c)[j], d)
  {
    if j == Home(m, resolved, c) {
      MergeThenAbsorbed(resolved[j], c, d);
    }
  }

  /** Position `at[k]` of the input holds the first occurrence of survivor `k`. */
  ghost predicate Origins(r: seq<Card>, at: seq<nat>, cards: seq<Card>)
  {
    && |at| == |r|
    && (forall j, k | 0 <= j < k < |at| :: at[j] < at[k])
    && (forall k | 0 <= k < |at| :: at[k] < |cards| && SameIdentity(r[k], cards[at[k]]))
  }

  lemma OriginsGrow(m: Matcher, kept: seq<Card>, at: seq<nat>, rest: seq<Card>, last: Card)
    requires Origins(kept, at, rest)
    ensures Origins(Place(m, kept, last), if Home(m, kept, last) < |kept| then at else at + [|rest|], rest + [last])
  {
    PlaceFacts(m, kept, last);
  }

  /** Survivors keep the order, id, name and position of their first occurrence: a merge promotes
      nothing and demotes nothing. */
  lemma {:induction false} FirstOccurrenceOrder(m: Matcher, cards: seq<Card>)
    ensures Origins(Deduped(m, cards), Firsts(m, cards), cards)
  {
    if cards == [] {
    } else {
      var rest, last := cards[..|cards| - 1], cards[|cards| - 1];
      assert cards == rest + [last];
      FirstOccurrenceOrder(m, rest);
      OriginsGrow(m, Deduped(m, rest), Firsts(m, rest), rest, last);
    }
  }

  lemma MatchByIdentity(m: Matcher, a: Card, b: Card, c: Card)
    requires SameIdentity(a, b)
    ensures SamePlace(m, a, c) <==> SamePlace(m, b, c)
  {
  }

  lemma AbsorbedEarlier(m: Matcher, rest: seq<Card>, last: Card, i: nat)
    requires i < |rest| && Absorbed(Deduped(m, rest)[HomeOf(m, rest, i)], rest[i])
    ensures Absorbed(Deduped(m, rest + [last])[HomeOf(m, rest + [last], i)], rest[i])
  {
    var cards := rest + [last];
    assert cards[..|cards| - 1] == rest;
    PlaceKeepsAbsorbed(m, Deduped(m, rest), last, HomeOf(m, rest, i), rest[i]);
  }

  lemma AbsorbedLast(m: Matcher, rest: seq<Card>, last: Card)
    ensures Absorbed(Deduped(m, rest + [last])[HomeOf(m, rest + [last], |rest|)], last)
  {
    var cards := rest + [last];
    assert cards[..|cards| - 1] == rest;
    PlaceFacts(m, Deduped(m, rest), last);
  }

  /** A card's home holds all its evidence: merging the card in again would change nothing. */
  lemma {:induction false} HomeAbsorbs(m: Matcher, cards: seq<Card>, i: nat)
    requires i < |cards|
    ensures Absorbed(Deduped(m, cards)[HomeOf(m, cards, i)], cards[i])
    decreases |cards|
  {
    var rest, last := cards[..|cards| - 1], cards[|cards| - 1];
    assert cards == rest + [last];
    if i < |rest| {
      HomeAbsorbs(m, rest, i);
      AbsorbedEarlier(m, rest, last, i);
    } else {
      AbsorbedLast(m, rest, last);
    }
  }

  /** Survivor `k` starts at card `i` itself or matches it, and no earlier survivor matches it. */
  ghost predicate FirstMatch(m: Matcher, cards: seq<Card>, at: seq<nat>, k: nat, i: nat)
  {
    && k < |at| && i < |cards| && at[k] <= i
    && (at[k] == i || SamePlace(m, cards[at[k]], cards[i]))
    && forall h | 0 <= h < k :: at[h] < |cards| && !SamePlace(m, cards[at[h]], cards[i])
  }

  lemma FirstMatchGrows(m: Matcher, rest: seq<Card>, last: Card, at: seq<nat>, more: seq<nat>, k: nat, i: nat)
    requires FirstMatch(m, rest, at, k, i) && at <= more
    ensures FirstMatch(m, rest + [last], more, k, i)
  {
  }

  lemma LastIsFirstMatch(m: Matcher, kept: seq<Card>, at: seq<nat>, rest: seq<Card>, last: Card)
    requires Origins(kept, at, rest)
    ensures var k := Home(m, kept, last);
      FirstMatch(m, rest + [last], if k < |kept| then at else at + [|rest|], k, |rest|)
  {
    forall h | 0 <= h < |at| ensures SamePlace(m, kept[h], last) <==> SamePlace(m, rest[at[h]], last) {
      MatchByIdentity(m, kept[h], rest[at[h]], last);
    }
  }

  /** A card's home is its own row, or the earliest survivor it matches. */
  lemma {:induction false} HomeIsFirstMatch(m: Matcher, cards: seq<Card>, i: nat)
    requires i < |cards|
    ensures FirstMatch(m, cards, Firsts(m, cards), HomeOf(m, cards, i), i)
    decreases |cards|
  {
    var rest, last := cards[..|cards| - 1], cards[|cards| - 1];
    assert cards == rest + [last];
    if i < |rest| {
      HomeIsFirstMatch(m, rest, i);
      FirstMatchGrows(m, rest, last, Firsts(m, rest), Firsts(m, cards), HomeOf(m, rest, i), i);
    } else {
      FirstOccurrenceOrder(m, rest);
      LastIsFirstMatch(m, Deduped(m, rest), Firsts(m, rest), rest, last);
    }
  }

  /** Cards that end up together are within the radius of the first of them, and the identity tokens of one
      of the two names are all among the other's. */
  lemma MergedAreAlike(m: Matcher, cards: seq<Card>, i: nat)
    requires i < |cards|
    ensures var k, at := HomeOf(m, cards, i), Firsts(m, cards);
      && k < |at| && at[k] <= i
      && (at[k] < i ==>
            && m.distance(cards[at[k]].spot, cards[i].spot) <= GEO_CLUSTER_RADIUS_M
            && m.tokens(cards[at[k]].name) * m.tokens(cards[i].name) in {m.tokens(cards[at[k]].name), m.tokens(cards[i].name)} - {{}})
  {
    HomeIsFirstMatch(m, cards, i);
    var a, b := m.tokens(cards[Firsts(m, cards)[HomeOf(m, cards, i)]].name), m.tokens(cards[i].name);
    assert a <= b ==> a * b == a;
    assert b <= a ==> a * b == b;
  }

  /** Of two cards kept within the radius, each name has an identity token the other lacks, or one has none. */
  lemma KeptAreUnlike(m: Matcher, cards: seq<Card>, i: nat, j: nat)
    requires i < j < |Deduped(m, cards)|
    requires m.distance(Deduped(m, cards)[i].spot, Deduped(m, cards)[j].spot) <= GEO_CLUSTER_RADIUS_M
    ensures var a, b := m.tokens(Deduped(m, cards)[i].name), m.tokens(Deduped(m, cards)[j].name);
      a == {} || b == {} || (a - b != {} && b - a != {})
  {
    DedupResolves(m, cards);
    var a, b := m.tokens(Deduped(m, cards)[i].name), m.tokens(Deduped(m, cards)[j].name);
    assert !SamePlace(m, Deduped(m, cards)[i], Deduped(m, cards)[j]);
    Leftover(a, b);
    Leftover(b, a);
  }

  lemma Leftover(a: set<Token>, b: set<Token>)
    ensures a - b == {} ==> a <= b
  {
    assert forall t | t in a && t !in b :: t in a - b;
  }

  /** Nothing is invented: a survivor's sources are those of the cards that call it home. */
  lemma {:induction false} SourcesComeFromMembers(m: Matcher, cards: seq<Card>, k: nat, x: Source)
    requires k < |Deduped(m, cards)| && x in Deduped(m, cards)[k].sources
    ensures exists i :: 0 <= i < |cards| && HomeOf(m, cards, i) == k && x in cards[i].sources
  {
    var rest, n := cards[..|cards| - 1], |cards| - 1;
    var kept, last := Deduped(m, rest), cards[n];
    if k < |kept| && x in kept[k].sources {
      SourcesComeFromMembers(m, rest, k, x);
      var i :| 0 <= i < |rest| && HomeOf(m, rest, i) == k && x in rest[i].sources;
      assert HomeOf(m, cards, i) == k;
    } else {
      assert HomeOf(m, cards, n) == k;
    }
  }

  /** The sources of a survivor are exactly those of the cards whose home it is. */
  lemma SourcesConserved(m: Matcher, cards: seq<Card>, k: nat, x: Source)
    requires k < |Deduped(m, cards)|
    ensures x in Deduped(m, cards)[k].sources <==> exists i :: 0 <= i < |cards| && HomeOf(m, cards, i) == k && x in cards[i].sources
  {
    if i :| 0 <= i < |cards| && HomeOf(m, cards, i) == k && x in cards[i].sources {
      HomeAbsorbs(m, cards, i);
      MergeAbsorbs(Deduped(m, cards)[k], cards[i]);
    }
    if x in Deduped(m, cards)[k].sources {
      SourcesComeFromMembers(m, cards, k, x);
    }
  }

  // ----- seeing a card again -----

  /** A card whose name has identity tokens matches its own home, and nothing before it. */
  lemma HomeOfResolved(m: Matcher, cards: seq<Card>, i: nat)
    requires i < |cards| && m.tokens(cards[i].name) != {} && m.distance(cards[i].spot, cards[i].spot) == 0
    ensures Home(m, Deduped(m, cards), cards[i]) == HomeOf(m, cards, i)
  {
    HomeIsFirstMatch(m, cards, i);
    FirstOccurrenceOrder(m, cards);
    var r, at, k := Deduped(m, cards), Firsts(m, cards), HomeOf(m, cards, i);
    forall h | 0 <= h <= k ensures SamePlace(m, r[h], cards[i]) <==> h == k {
      MatchByIdentity(m, r[h], cards[at[h]], cards[i]);
    }
  }

  /** A card that was deduplicated once changes nothing when it is seen again. */
  lemma SeenAgain(m: Matcher, cards: seq<Card>, i: nat)
    requires i < |cards| && m.tokens(cards[i].name) != {} && m.distance(cards[i].spot, cards[i].spot) == 0
    ensures Place(m, Deduped(m, cards), cards[i]) == Deduped(m, cards)
  {
    HomeOfResolved(m, cards, i);
    HomeAbsorbs(m, cards, i);
  }

  lemma PlaceNext(m: Matcher, seen: seq<Card>, c: Card)
    ensures Deduped(m, seen + [c]) == Place(m, Deduped(m, seen), c)
  {
    assert (seen + [c])[..|seen|] == seen;
  }

  lemma {:induction false} ReplayPrefix(m: Matcher, cards: seq<Card>, n: nat)
    requires n <= |cards|
    requires forall c | c in cards :: m.tokens(c.name) != {} && m.distance(c.spot, c.spot) == 0
    ensures Deduped(m, cards + cards[..n]) == Deduped(m, cards)
  {
    if n == 0 {
      assert cards + cards[..0] == cards;
    } else {
      ReplayPrefix(m, cards, n - 1);
      assert cards + cards[..n] == cards + cards[..n - 1] + [cards[n - 1]];
      PlaceNext(m, cards + cards[..n - 1], cards[n - 1]);
      SeenAgain(m, cards, n - 1);
    }
  }

  /** How many cards have a name without identity tokens. */
  function Nameless(m: Matcher, cards: seq<Card>): nat
  {
    if cards == [] then 0
    else Nameless(m, cards[..|cards| - 1]) + if m.tokens(cards[|cards| - 1].name) == {} then 1 else 0
  }

  lemma {:induction false} NamelessSplit(m: Matcher, s: seq<Card>, t: seq<Card>)
    ensures Nameless(m, s + t) == Nameless(m, s) + Nameless(m, t)
  {
    if t == [] {
      assert s + t == s;
    } else {
      NamelessSplit(m, s, t[..|t| - 1]);
      assert (s + t)[..|s + t| - 1] == s + t[..|t| - 1];
    }
  }

  lemma {:induction false} NamelessByName(m: Matcher, s: seq<Card>, t: seq<Card>)
    requires |s| == |t| && forall i | 0 <= i < |s| :: s[i].name == t[i].name
    ensures Nameless(m, s) == Nameless(m, t)
  {
    if s == [] {
    } else {
      NamelessByName(m, s[..|s| - 1], t[..|t| - 1]);
    }
  }

  /** A nameless card never merges, so every one of them survives. */
  lemma {:induction false} NamelessSurvive(m: Matcher, cards: seq<Card>)
    ensures Nameless(m, Deduped(m, cards)) == Nameless(m, cards)
  {
    if cards == [] {
    } else {
      var rest, last := cards[..|cards| - 1], cards[|cards| - 1];
      var kept := Deduped(m, rest);
      NamelessSurvive(m, rest);
      if Home(m, kept, last) < |kept| {
        NamelessByName(m, Place(m, kept, last), kept);
      } else {
        NamelessSplit(m, kept, [last]);
        assert [last][..0] == [];
      }
    }
  }

  lemma {:induction false} NoneNameless(m: Matcher, cards: seq<Card>)
    requires Nameless(m, cards) == 0
    ensures forall c | c in cards :: m.tokens(c.name) != {}
  {
    if cards == [] {
    } else {
      NoneNameless(m, cards[..|cards| - 1]);
    }
  }

  /** Gathering the same candidates a second time adds no card and no evidence, exactly when every
      name has identity tokens. */
  lemma ReplayChangesNothing(m: Matcher, cards: seq<Card>)
    requires forall c | c in cards :: m.distance(c.spot, c.spot) == 0
    ensures Deduped(m, cards + cards) == Deduped(m, cards) <==> forall c | c in cards :: m.tokens(c.name) != {}
  {
    if forall c | c in cards :: m.tokens(c.name) != {} {
      ReplayPrefix(m, cards, |cards|);
      assert cards[..|cards|] == cards;
    } else if Deduped(m, cards + cards) == Deduped(m, cards) {
      NamelessSurvive(m, cards);
      NamelessSurvive(m, cards + cards);
      NamelessSplit(m, cards, cards);
      NoneNameless(m, cards);
    }
  }
}
