/** The swipe deck's order. */
module Deck {
  // From syncinerary/agents/gather/deck.py. Scores and positions are exact reals; casefolded names
  // enter as their place in the collation order.

  import Apportion
  import Sorting

  datatype Lane = Personal | ForYou | Trending | Foundation

  datatype Card = Card(id: nat, fromPersonal: bool, fromBuzz: bool, pickedForYou: bool, platformRank: nat, buzz: real, name: nat)

  /** Which group a card belongs to, from its provenance. */
  function DeckLane(card: Card): Lane
  {
    if card.fromPersonal then Personal
    else if card.fromBuzz then (if card.pickedForYou then ForYou else Trending)
    else Foundation
  }

  function LanePriority(lane: Lane): nat
  {
    match lane case Personal => 0 case ForYou => 1 case Trending => 2 case Foundation => 3
  }

  /** Strongest evidence first; the name only breaks ties. */
  predicate ByEvidence(a: Card, b: Card)
  {
    if a.platformRank != b.platformRank then a.platformRank < b.platformRank
    else if a.buzz != b.buzz then a.buzz > b.buzz
    else a.name <= b.name
  }

  /** A card of a spread lane and the point of the deck it is aimed at. */
  datatype Row = Row(position: real, lane: Lane, card: Card)

  predicate ByPosition(a: Row, b: Row)
  {
    if a.position != b.position then a.position < b.position
    else if a.lane != b.lane then LanePriority(a.lane) < LanePriority(b.lane)
    else a.card.name <= b.card.name
  }

  function Members(cards: seq<Card>, lane: Lane): seq<Card>
  {
    if cards == [] then []
    else
      var last := cards[|cards| - 1];
      Members(cards[..|cards| - 1], lane) + (if DeckLane(last) == lane then [last] else [])
  }

  function Ranked(cards: seq<Card>, lane: Lane): seq<Card>
  {
    Sorting.Sort(Members(cards, lane), ByEvidence)
  }

  function Position(index: nat, size: nat): real
    requires size > 0
  {
    (2 * index + 1) as real / (2 * size) as real
  }

  function Rows(members: seq<Card>, lane: Lane): seq<Row>
  {
    seq(|members|, i requires 0 <= i < |members| => Row(Position(i, |members|), lane, members[i]))
  }

  function Placed(cards: seq<Card>): seq<Row>
  {
    Rows(Ranked(cards, ForYou), ForYou) + Rows(Ranked(cards, Trending), Trending)
    + Rows(Ranked(cards, Foundation), Foundation)
  }

  /** The rows after the leading personal cards, in deck order. */
  function Spread(cards: seq<Card>): seq<Row>
  {
    Sorting.Sort(Placed(cards), ByPosition)
  }

  function CardsOf(rows: seq<Row>): seq<Card>
  {
    seq(|rows|, i requires 0 <= i < |rows| => rows[i].card)
  }

  function DeckOrder(cards: seq<Card>): seq<Card>
  {
    Ranked(cards, Personal) + CardsOf(Spread(cards))
  }

  function GroupOf(groups: map<Lane, seq<Card>>, lane: Lane): seq<Card>
  {
    if lane in groups then groups[lane] else []
  }

  method GroupCards(candidates: seq<Card>) returns (groups: map<Lane, seq<Card>>)
    ensures forall lane :: GroupOf(groups, lane) == Members(candidates, lane)
  {
    groups := map[];
    for k := 0 to |candidates|
      invariant forall lane :: GroupOf(groups, lane) == Members(candidates[..k], lane)
    {
      var lane := DeckLane(candidates[k]);
      assert candidates[..k + 1][..k] == candidates[..k];
      groups := groups[lane := GroupOf(groups, lane) + [candidates[k]]];
    }
    assert candidates[..|candidates|] == candidates;
  }

  method PlaceMembers(placed: seq<Row>, members: seq<Card>, lane: Lane) returns (r: seq<Row>)
    ensures r == placed + Rows(members, lane)
  {
    r := placed;
    for index := 0 to |members|
      invariant r == placed + Rows(members, lane)[..index]
    {
      r := r + [Row(Position(index, |members|), lane, members[index])];
    }
    assert Rows(members, lane)[..|members|] == Rows(members, lane);
  }

  /** Rows of two lanes never tie, so the order the lanes are visited in does not matter. */
  method PlaceLanes(candidates: seq<Card>, groups: map<Lane, seq<Card>>) returns (placed: seq<Row>)
    requires forall lane :: GroupOf(groups, lane) == Members(candidates, lane)
    ensures placed == Placed(candidates)
  {
    placed := PlaceMembers([], Sorting.Sort(GroupOf(groups, ForYou), ByEvidence), ForYou);
    placed := PlaceMembers(placed, Sorting.Sort(GroupOf(groups, Trending), ByEvidence), Trending);
    placed := PlaceMembers(placed, Sorting.Sort(GroupOf(groups, Foundation), ByEvidence), Foundation);
  }

  method OrderDeck(candidates: seq<Card>) returns (deck: seq<Card>)
    ensures deck == DeckOrder(candidates)
  {
    var groups := GroupCards(candidates);
    var leading := Sorting.Sort(GroupOf(groups, Personal), ByEvidence);
    var placed := PlaceLanes(candidates, groups);
    deck := leading + CardsOf(Sorting.Sort(placed, ByPosition));
  }

  // ----- a deck is a rearrangement -----

  lemma {:induction false} MembersCount(cards: seq<Card>, lane: Lane, x: Card)
    ensures multiset(Members(cards, lane))[x] == if DeckLane(x) == lane then multiset(cards)[x] else 0
  {
    if cards == [] {
    } else {
      MembersCount(cards[..|cards| - 1], lane, x);
      assert cards == cards[..|cards| - 1] + [cards[|cards| - 1]];
    }
  }

  lemma MembersKeep(cards: seq<Card>)
    ensures multiset(cards) == multiset(Members(cards, Personal)) + multiset(Members(cards, ForYou))
                             + multiset(Members(cards, Trending)) + multiset(Members(cards, Foundation))
  {
    var parts := multiset(Members(cards, Personal)) + multiset(Members(cards, ForYou))
               + multiset(Members(cards, Trending)) + multiset(Members(cards, Foundation));
    forall x ensures multiset(cards)[x] == parts[x] {
      MembersCount(cards, Personal, x);
      MembersCount(cards, ForYou, x);
      MembersCount(cards, Trending, x);
      MembersCount(cards, Foundation, x);
    }
  }

  lemma CardsOfSplit(s: seq<Row>, k: nat)
    requires k < |s|
    ensures multiset(CardsOf(s)) == multiset{s[k].card} + multiset(CardsOf(s[..k] + s[k + 1..]))
  {
    assert CardsOf(s) == CardsOf(s[..k]) + [s[k].card] + CardsOf(s[k + 1..]);
    assert CardsOf(s[..k] + s[k + 1..]) == CardsOf(s[..k]) + CardsOf(s[k + 1..]);
  }

  lemma {:induction false} CardsOfKeep(s: seq<Row>, t: seq<Row>)
    requires multiset(s) == multiset(t)
    ensures multiset(CardsOf(s)) == multiset(CardsOf(t))
  {
    if s == [] {
      assert |multiset(t)| == 0;
    } else {
      assert s[0] in multiset(t);
      var k :| 0 <= k < |t| && t[k] == s[0];
      Sorting.Without(s, 0);
      Sorting.Without(t, k);
      CardsOfKeep(s[..0] + s[1..], t[..k] + t[k + 1..]);
      CardsOfSplit(s, 0);
      CardsOfSplit(t, k);
    }
  }

  lemma CardsOfRows(members: seq<Card>, lane: Lane)
    ensures CardsOf(Rows(members, lane)) == members
  {
  }

  /** Every card appears exactly as often as it was given. */
  lemma DeckIsPermutation(cards: seq<Card>)
    ensures multiset(DeckOrder(cards)) == multiset(cards)
  {
    var f, t, o := Ranked(cards, ForYou), Ranked(cards, Trending), Ranked(cards, Foundation);
    Sorting.SortKeeps(Placed(cards), ByPosition);
    CardsOfKeep(Spread(cards), Placed(cards));
    CardsOfRows(f, ForYou);
    CardsOfRows(t, Trending);
    CardsOfRows(o, Foundation);
    assert CardsOf(Placed(cards)) == f + t + o;
    Sorting.SortKeeps(Members(cards, Personal), ByEvidence);
    Sorting.SortKeeps(Members(cards, ForYou), ByEvidence);
    Sorting.SortKeeps(Members(cards, Trending), ByEvidence);
    Sorting.SortKeeps(Members(cards, Foundation), ByEvidence);
    MembersKeep(cards);
  }

  lemma RankedOfLane(cards: seq<Card>, lane: Lane)
    ensures forall i | 0 <= i < |Ranked(cards, lane)| :: DeckLane(Ranked(cards, lane)[i]) == lane
  {
    Sorting.SortKeeps(Members(cards, lane), ByEvidence);
    Sorting.SameMembers(Ranked(cards, lane), Members(cards, lane));
    forall x | x in Members(cards, lane) ensures DeckLane(x) == lane {
      MembersCount(cards, lane, x);
      assert x in multiset(Members(cards, lane));
    }
  }

  /** Personal cards come first, and nothing else is mixed in with them. */
  lemma PersonalFirst(cards: seq<Card>)
    ensures forall i | 0 <= i < |DeckOrder(cards)| ::
      DeckLane(DeckOrder(cards)[i]) == Personal <==> i < |Ranked(cards, Personal)|
  {
    RankedOfLane(cards, Personal);
    RankedOfLane(cards, ForYou);
    RankedOfLane(cards, Trending);
    RankedOfLane(cards, Foundation);
    Sorting.SortKeeps(Placed(cards), ByPosition);
    RestNotPersonal(Placed(cards), Spread(cards));
  }

  lemma RestNotPersonal(placed: seq<Row>, spread: seq<Row>)
    requires multiset(placed) == multiset(spread)
    requires forall i | 0 <= i < |placed| :: DeckLane(placed[i].card) != Personal
    ensures forall i | 0 <= i < |CardsOf(spread)| :: DeckLane(CardsOf(spread)[i]) != Personal
  {
    Sorting.SameMembers(placed, spread);
    forall i | 0 <= i < |spread| ensures DeckLane(spread[i].card) != Personal {
      assert spread[i] in placed;
    }
  }

  // ----- lanes keep their rank order -----

  function OfLane(rows: seq<Row>, lane: Lane): seq<Row>
  {
    if rows == [] then []
    else
      var last := rows[|rows| - 1];
      OfLane(rows[..|rows| - 1], lane) + (if last.lane == lane then [last] else [])
  }

  lemma {:induction false} OfLaneSplit(s: seq<Row>, t: seq<Row>, lane: Lane)
    ensures OfLane(s + t, lane) == OfLane(s, lane) + OfLane(t, lane)
  {
    if t == [] {
      assert s + t == s;
    } else {
      OfLaneSplit(s, t[..|t| - 1], lane);
      assert (s + t)[..|s + t| - 1] == s + t[..|t| - 1];
    }
  }

  lemma {:induction false} OfLaneAll(rows: seq<Row>, own: Lane, lane: Lane)
    requires forall i | 0 <= i < |rows| :: rows[i].lane == own
    ensures OfLane(rows, lane) == if lane == own then rows else []
  {
    if rows == [] {
    } else {
      OfLaneAll(rows[..|rows| - 1], own, lane);
    }
  }

  lemma {:induction false} OfLaneCount(rows: seq<Row>, lane: Lane, x: Row)
    ensures multiset(OfLane(rows, lane))[x] == if x.lane == lane then multiset(rows)[x] else 0
  {
    if rows == [] {
    } else {
      OfLaneCount(rows[..|rows| - 1], lane, x);
      assert rows == rows[..|rows| - 1] + [rows[|rows| - 1]];
    }
  }

  lemma OfLaneRearranged(s: seq<Row>, t: seq<Row>, lane: Lane)
    requires multiset(s) == multiset(t)
    ensures multiset(OfLane(s, lane)) == multiset(OfLane(t, lane))
  {
    forall x ensures multiset(OfLane(s, lane))[x] == multiset(OfLane(t, lane))[x] {
      OfLaneCount(s, lane, x);
      OfLaneCount(t, lane, x);
    }
  }

  lemma {:induction false} OfLaneOrdered(rows: seq<Row>, lane: Lane)
    requires Sorting.Ordered(rows, ByPosition)
    ensures Sorting.Ordered(OfLane(rows, lane), ByPosition)
    ensures forall x | x in OfLane(rows, lane) :: x in rows && x.lane == lane
  {
    if rows == [] {
    } else {
      var before, last := rows[..|rows| - 1], rows[|rows| - 1];
      OfLaneOrdered(before, lane);
      forall x | x in OfLane(before, lane) ensures ByPosition(x, last) {
        assert x in before;
      }
    }
  }

  /** Positions compare as the fractions they are. */
  lemma PositionsCompare(i: nat, m: nat, j: nat, n: nat)
    requires m > 0 && n > 0
    ensures Position(i, m) <= Position(j, n) <==> (2 * i + 1) * (2 * n) <= (2 * j + 1) * (2 * m)
    ensures Position(i, m) == Position(j, n) <==> (2 * i + 1) * (2 * n) == (2 * j + 1) * (2 * m)
  {
    Fractions((2 * i + 1) as real, (2 * m) as real, (2 * j + 1) as real, (2 * n) as real);
    Product(2 * i + 1, 2 * n);
    Product(2 * j + 1, 2 * m);
  }

  lemma Fractions(a: real, b: real, c: real, d: real)
    requires b > 0.0 && d > 0.0
    ensures a / b <= c / d <==> a * d <= c * b
    ensures a / b == c / d <==> a * d == c * b
  {
    var x, y := a / b, c / d;
    assert x * b == a && y * d == c;
    assert a * d == (x * b) * d && c * b == (y * d) * b;
    assert (x * b) * d == x * (b * d) && (y * d) * b == y * (b * d);
    assert c * b - a * d == (y - x) * (b * d);
    assert b * d > 0.0;
    if x < y { assert (y - x) * (b * d) > 0.0; }
    if y < x { assert (x - y) * (b * d) > 0.0; }
  }

  lemma Product(a: nat, b: nat)
    ensures a as real * b as real == (a * b) as real
  {
  }

  /** Positions of one lane increase strictly. */
  lemma PositionsIncrease(i: nat, j: nat, size: nat)
    requires i < j < size
    ensures Position(i, size) < Position(j, size)
  {
    PositionsCompare(j, size, i, size);
    assert (2 * i + 1) * (2 * size) < (2 * j + 1) * (2 * size) by {
      assert (2 * j + 1) * (2 * size) - (2 * i + 1) * (2 * size) == (2 * (j - i)) * (2 * size);
      assert (2 * (j - i)) * (2 * size) > 0;
    }
  }

  lemma RowsOrdered(members: seq<Card>, lane: Lane)
    ensures Sorting.Ordered(Rows(members, lane), ByPosition)
    ensures forall x, y | x in Rows(members, lane) && y in Rows(members, lane) && ByPosition(x, y) && ByPosition(y, x) :: x == y
  {
    var rows := Rows(members, lane);
    forall i, j | 0 <= i < j < |rows| ensures rows[i].position < rows[j].position {
      PositionsIncrease(i, j, |members|);
    }
  }

  function LaneRows(cards: seq<Card>, lane: Lane): seq<Row> { Rows(Ranked(cards, lane), lane) }

  lemma PlacedOfLane(cards: seq<Card>, lane: Lane)
    requires lane != Personal
    ensures OfLane(Placed(cards), lane) == LaneRows(cards, lane)
  {
    OfThreeLanes(LaneRows(cards, ForYou), LaneRows(cards, Trending), LaneRows(cards, Foundation), lane);
  }

  lemma OfThreeLanes(f: seq<Row>, t: seq<Row>, o: seq<Row>, lane: Lane)
    requires (forall i | 0 <= i < |f| :: f[i].lane == ForYou) && (forall i | 0 <= i < |t| :: t[i].lane == Trending)
    requires forall i | 0 <= i < |o| :: o[i].lane == Foundation
    ensures OfLane(f + t + o, lane) == match lane case ForYou => f case Trending => t case Foundation => o case Personal => []
  {
    OfLaneSplit(f + t, o, lane);
    OfLaneSplit(f, t, lane);
    OfLaneAll(f, ForYou, lane);
    OfLaneAll(t, Trending, lane);
    OfLaneAll(o, Foundation, lane);
  }

  /** Seen through one lane, the deck is that lane in rank order. */
  lemma LaneInRankOrder(cards: seq<Card>, lane: Lane)
    requires lane != Personal
    ensures OfLane(Spread(cards), lane) == LaneRows(cards, lane)
  {
    Sorting.SortKeeps(Placed(cards), ByPosition);
    Sorting.SortOrders(Placed(cards), ByPosition);
    OfLaneRearranged(Spread(cards), Placed(cards), lane);
    PlacedOfLane(cards, lane);
    OfLaneOrdered(Spread(cards), lane);
    RowsOrdered(Ranked(cards, lane), lane);
    Sorting.OrderedUnique(LaneRows(cards, lane), OfLane(Spread(cards), lane), ByPosition);
  }

  // ----- any two cards of a deck -----

  /** For the same reason in the deck: attached by a traveler, found for the group's interests, found
      without, or neither attached nor found. */
  predicate SameReason(a: Card, b: Card)
  {
    if a.fromPersonal || b.fromPersonal then a.fromPersonal && b.fromPersonal
    else if a.fromBuzz || b.fromBuzz then a.fromBuzz && b.fromBuzz && a.pickedForYou == b.pickedForYou
    else true
  }

  /** A better platform, or the same and more buzz, or both the same and a name no later. */
  predicate AtLeastAsStrong(a: Card, b: Card)
  {
    || a.platformRank < b.platformRank
    || (a.platformRank == b.platformRank && a.buzz > b.buzz)
    || (a.platformRank == b.platformRank && a.buzz == b.buzz && a.name <= b.name)
  }

  /** A card picked for the group before any other, a found one before one that was not. */
  predicate TieGoesTo(a: Card, b: Card)
  {
    (a.fromBuzz && a.pickedForYou) || (a.fromBuzz && !b.fromBuzz)
  }

  /** Each row after the leading cards stands for a card of its lane, aimed by its rank there. */
  lemma RowAimed(cards: seq<Card>, i: nat) returns (rank: nat)
    requires i < |Spread(cards)|
    ensures var row := Spread(cards)[i];
      && row.lane != Personal && row.lane == DeckLane(row.card) && rank < |Ranked(cards, row.lane)|
      && row.card == Ranked(cards, row.lane)[rank] && row.position == Position(rank, |Ranked(cards, row.lane)|)
  {
    var row := Spread(cards)[i];
    Sorting.SortKeeps(Placed(cards), ByPosition);
    Sorting.SameMembers(Spread(cards), Placed(cards));
    assert row in Placed(cards);
    var lane := if row in Rows(Ranked(cards, ForYou), ForYou) then ForYou
                else if row in Rows(Ranked(cards, Trending), Trending) then Trending else Foundation;
    var rows := Rows(Ranked(cards, lane), lane);
    RankedOfLane(cards, lane);
    rank :| 0 <= rank < |rows| && rows[rank] == row;
  }

  lemma AimGrows(a: nat, b: nat, size: nat)
    requires a < size && b < size
    ensures Position(a, size) <= Position(b, size) <==> a <= b
  {
    Apportion.RealOrder(2 * a + 1, 2 * b + 1, 2 * size);
  }

  /** The spread cards stand in the order of their aims, (rank + 1/2) over the size of their lane; on a tie
      cards for the group come before other found ones, and those before the rest. */
  lemma SpreadByAim(cards: seq<Card>, i: nat, j: nat)
    requires i < j < |Spread(cards)|
    ensures Spread(cards)[i].position <= Spread(cards)[j].position
    ensures var x, y := Spread(cards)[i], Spread(cards)[j];
      x.position == y.position && !SameReason(x.card, y.card) ==> TieGoesTo(x.card, y.card)
  {
    Sorting.SortOrders(Placed(cards), ByPosition);
    assert ByPosition(Spread(cards)[i], Spread(cards)[j]);
    var a := RowAimed(cards, i);
    var b := RowAimed(cards, j);
  }

  lemma SpreadRanked(cards: seq<Card>, i: nat, j: nat)
    requires i < j < |Spread(cards)| && DeckLane(Spread(cards)[i].card) == DeckLane(Spread(cards)[j].card)
    ensures AtLeastAsStrong(Spread(cards)[i].card, Spread(cards)[j].card)
  {
    var a := RowAimed(cards, i);
    var b := RowAimed(cards, j);
    var lane := Spread(cards)[i].lane;
    SpreadByAim(cards, i, j);
    AimGrows(a, b, |Ranked(cards, lane)|);
    Sorting.SortOrders(Members(cards, lane), ByEvidence);
    assert a < b ==> ByEvidence(Ranked(cards, lane)[a], Ranked(cards, lane)[b]);
  }

  /** Of two cards in the deck for the same reason the stronger comes first, and an attached one before
      any other. */
  lemma DeckRanks(cards: seq<Card>, i: nat, j: nat)
    requires i < j < |DeckOrder(cards)|
    ensures var a, b := DeckOrder(cards)[i], DeckOrder(cards)[j];
      (b.fromPersonal ==> a.fromPersonal) && (SameReason(a, b) ==> AtLeastAsStrong(a, b))
  {
    var leading := Ranked(cards, Personal);
    PersonalFirst(cards);
    Sorting.SortOrders(Members(cards, Personal), ByEvidence);
    if j < |leading| {
      assert ByEvidence(leading[i], leading[j]);
    } else if i >= |leading| && SameReason(DeckOrder(cards)[i], DeckOrder(cards)[j]) {
      SpreadRanked(cards, i - |leading|, j - |leading|);
    }
  }

  // ----- every prefix is in proportion -----

  function LaneSize(cards: seq<Card>, lane: Lane): nat { |Ranked(cards, lane)| }

  /** How many of the first `k` spread cards belong to a lane. */
  function LaneCount(cards: seq<Card>, lane: Lane, k: nat): nat
    requires k <= |Spread(cards)|
  {
    |OfLane(Spread(cards)[..k], lane)|
  }

  lemma BeforeCut(s: seq<Row>, k: nat, x: Row)
    requires Sorting.Ordered(s, ByPosition) && 0 < k <= |s| && x in s[..k]
    ensures x.position <= s[k - 1].position
  {
    var i :| 0 <= i < k && s[i] == x;
    assert i < k - 1 ==> ByPosition(s[i], s[k - 1]);
  }

  lemma AfterCut(s: seq<Row>, k: nat, x: Row)
    requires Sorting.Ordered(s, ByPosition) && 0 < k <= |s| && x in s[k..]
    ensures s[k - 1].position <= x.position
  {
    var i :| k <= i < |s| && s[i] == x;
    assert ByPosition(s[k - 1], s[i]);
  }

  lemma {:induction false} OfLaneMembers(rows: seq<Row>, lane: Lane)
    ensures forall x | x in OfLane(rows, lane) :: x in rows
  {
    if rows == [] {
    } else {
      OfLaneMembers(rows[..|rows| - 1], lane);
    }
  }

  /** Cutting an ordered deck cuts each lane: its rows so far lie at or before the cut, the
      others at or after it. */
  lemma LaneAtCut(s: seq<Row>, lane: Lane, k: nat, c: nat)
    requires Sorting.Ordered(s, ByPosition) && 0 < k <= |s| && c == |OfLane(s[..k], lane)|
    ensures c <= |OfLane(s, lane)|
    ensures c > 0 ==> OfLane(s, lane)[c - 1].position <= s[k - 1].position
    ensures c < |OfLane(s, lane)| ==> s[k - 1].position <= OfLane(s, lane)[c].position
  {
    var head, tail := OfLane(s[..k], lane), OfLane(s[k..], lane);
    assert s == s[..k] + s[k..];
    OfLaneSplit(s[..k], s[k..], lane);
    OfLaneMembers(s[..k], lane);
    OfLaneMembers(s[k..], lane);
    if c > 0 {
      BeforeCut(s, k, head[c - 1]);
    }
    if tail != [] {
      AfterCut(s, k, tail[0]);
    }
  }

  function Present(size: nat): nat { if size > 0 then 1 else 0 }

  /** Two lanes cut at the same place are cut in proportion, up to one card of each. */
  lemma LanesInStep(s: seq<Row>, x: Lane, xs: seq<Card>, y: Lane, ys: seq<Card>, k: nat, c: nat, d: nat)
    requires Sorting.Ordered(s, ByPosition) && 0 < k <= |s|
    requires OfLane(s, x) == Rows(xs, x) && OfLane(s, y) == Rows(ys, y)
    requires c == |OfLane(s[..k], x)| && d == |OfLane(s[..k], y)| && xs != [] && ys != []
    ensures c <= |xs| && d <= |ys|
    ensures 2 * (c * |ys| - d * |xs|) <= |xs| + |ys|
  {
    LaneAtCut(s, x, k, c);
    LaneAtCut(s, y, k, d);
    if c > 0 && d < |ys| {
      assert OfLane(s, x)[c - 1].position == Position(c - 1, |xs|);
      assert OfLane(s, y)[d].position == Position(d, |ys|);
      PositionsCompare(c - 1, |xs|, d, |ys|);
    }
    StepBound(c, |xs|, d, |ys|);
  }

  lemma StepBound(c: nat, m: nat, d: nat, n: nat)
    requires c <= m && d <= n
    requires c > 0 && d < n ==> (2 * c - 1) * (2 * n) <= (2 * d + 1) * (2 * m)
    ensures 2 * (c * n - d * m) <= m + n
  {
    if c > 0 && d < n {
      assert (2 * c - 1) * (2 * n) == 4 * (c * n) - 2 * n;
      assert (2 * d + 1) * (2 * m) == 4 * (d * m) + 2 * m;
    } else if c == 0 {
      assert c * n == 0 && d * m >= 0;
    } else {
      assert c * n <= m * n && d * m == n * m && m * n == n * m by {
        assert (m - c) * n >= 0;
      }
    }
  }

  /** What another lane adds to the deviation of a lane of `n` cards: nothing if it is empty. */
  function Share(n: nat, other: nat): int { if other > 0 then n + other else 0 }

  lemma PairBound(s: seq<Row>, x: Lane, xs: seq<Card>, y: Lane, ys: seq<Card>, k: nat, c: nat, d: nat)
    requires Sorting.Ordered(s, ByPosition) && 0 < k <= |s| && xs != []
    requires OfLane(s, x) == Rows(xs, x) && OfLane(s, y) == Rows(ys, y)
    requires c == |OfLane(s[..k], x)| && d == |OfLane(s[..k], y)|
    ensures -Share(|xs|, |ys|) <= 2 * (c * |ys| - d * |xs|) <= Share(|xs|, |ys|)
  {
    if ys == [] {
      LaneAtCut(s, y, k, d);
    } else {
      LanesInStep(s, x, xs, y, ys, k, c, d);
      LanesInStep(s, y, ys, x, xs, k, d, c);
    }
  }

  lemma {:induction false} LaneCountsSum(rows: seq<Row>)
    requires forall i | 0 <= i < |rows| :: rows[i].lane != Personal
    ensures |OfLane(rows, ForYou)| + |OfLane(rows, Trending)| + |OfLane(rows, Foundation)| == |rows|
  {
    if rows == [] {
    } else {
      LaneCountsSum(rows[..|rows| - 1]);
    }
  }

  /** |c·total - k·n| is at most (total + (others - 1)·n)/2. */
  predicate InProportion(c: nat, total: nat, k: nat, n: nat, others: nat)
  {
    -(total - n + others * n) <= 2 * (c * total - k * n) <= total - n + others * n
  }

  lemma AddShares(c: nat, n: nat, d: nat, y: nat, e: nat, z: nat, total: nat, k: nat)
    requires n > 0 && total == n + y + z && k == c + d + e
    requires -Share(n, y) <= 2 * (c * y - d * n) <= Share(n, y)
    requires -Share(n, z) <= 2 * (c * z - e * n) <= Share(n, z)
    ensures InProportion(c, total, k, n, Present(y) + Present(z))
  {
    assert c * (n + y + z) == c * n + c * y + c * z;
    assert (c + d + e) * n == c * n + d * n + e * n;
  }

  lemma SpreadSize(cards: seq<Card>)
    ensures Sorting.Ordered(Spread(cards), ByPosition)
    ensures |Spread(cards)| == LaneSize(cards, ForYou) + LaneSize(cards, Trending) + LaneSize(cards, Foundation)
  {
    Sorting.SortOrders(Placed(cards), ByPosition);
    Sorting.SortKeeps(Placed(cards), ByPosition);
  }

  lemma NoneOfPersonal(f: seq<Card>, t: seq<Card>, o: seq<Card>)
    ensures forall i | 0 <= i < |Rows(f, ForYou) + Rows(t, Trending) + Rows(o, Foundation)| ::
      (Rows(f, ForYou) + Rows(t, Trending) + Rows(o, Foundation))[i].lane != Personal
  {
  }

  lemma SpreadFacts(cards: seq<Card>, k: nat)
    requires k <= |Spread(cards)|
    ensures Sorting.Ordered(Spread(cards), ByPosition)
    ensures |Spread(cards)| == LaneSize(cards, ForYou) + LaneSize(cards, Trending) + LaneSize(cards, Foundation)
    ensures k == LaneCount(cards, ForYou, k) + LaneCount(cards, Trending, k) + LaneCount(cards, Foundation, k)
  {
    SpreadSize(cards);
    Sorting.SortKeeps(Placed(cards), ByPosition);
    NoneOfPersonal(Ranked(cards, ForYou), Ranked(cards, Trending), Ranked(cards, Foundation));
    CutCounts(Placed(cards), Spread(cards), k);
  }

  lemma CutCounts(placed: seq<Row>, spread: seq<Row>, k: nat)
    requires multiset(placed) == multiset(spread) && k <= |spread|
    requires forall i | 0 <= i < |placed| :: placed[i].lane != Personal
    ensures var cut := spread[..k]; k == |OfLane(cut, ForYou)| + |OfLane(cut, Trending)| + |OfLane(cut, Foundation)|
  {
    NonePersonal(placed, spread);
    LaneCountsSum(spread[..k]);
  }

  lemma NonePersonal(placed: seq<Row>, spread: seq<Row>)
    requires multiset(placed) == multiset(spread) && forall i | 0 <= i < |placed| :: placed[i].lane != Personal
    ensures forall i | 0 <= i < |spread| :: spread[i].lane != Personal
  {
    Sorting.SameMembers(placed, spread);
    forall i | 0 <= i < |spread| ensures spread[i].lane != Personal {
      assert spread[i] in placed;
    }
  }

  lemma LanePair(cards: seq<Card>, x: Lane, y: Lane, k: nat)
    requires x != Personal && y != Personal && 0 < k <= |Spread(cards)| && LaneSize(cards, x) > 0
    ensures -Share(LaneSize(cards, x), LaneSize(cards, y))
         <= 2 * (LaneCount(cards, x, k) * LaneSize(cards, y) - LaneCount(cards, y, k) * LaneSize(cards, x))
         <= Share(LaneSize(cards, x), LaneSize(cards, y))
  {
    SpreadFacts(cards, k);
    LaneInRankOrder(cards, x);
    LaneInRankOrder(cards, y);
    PairBound(Spread(cards), x, Ranked(cards, x), y, Ranked(cards, y), k, LaneCount(cards, x, k), LaneCount(cards, y, k));
  }

  /** The other two spread lanes. */
  function Others(lane: Lane): (Lane, Lane)
  {
    match lane case ForYou => (Trending, Foundation) case Trending => (ForYou, Foundation) case _ => (ForYou, Trending)
  }

  lemma EmptyPrefix(cards: seq<Card>, lane: Lane)
    requires lane != Personal
    ensures LaneCount(cards, lane, 0) == 0 && LaneSize(cards, lane) <= |Spread(cards)|
  {
    SpreadFacts(cards, 0);
    assert Spread(cards)[..0] == [];
  }

  /** In the first `k` of the N spread cards every lane's share is in proportion: a lane of n
      cards beside `others` further lanes has c of them there with
      |c·N - k·n| at most (N + (others - 1)·n)/2. */
  lemma PrefixInProportion(cards: seq<Card>, lane: Lane, k: nat)
    requires lane != Personal && k <= |Spread(cards)| && LaneSize(cards, lane) > 0
    ensures InProportion(LaneCount(cards, lane, k), |Spread(cards)|, k, LaneSize(cards, lane),
                         Present(LaneSize(cards, Others(lane).0)) + Present(LaneSize(cards, Others(lane).1)))
  {
    var y, z := Others(lane).0, Others(lane).1;
    if k == 0 {
      EmptyPrefix(cards, lane);
    } else {
      SpreadFacts(cards, k);
      LanePair(cards, lane, y, k);
      LanePair(cards, lane, z, k);
      AddShares(LaneCount(cards, lane, k), LaneSize(cards, lane), LaneCount(cards, y, k), LaneSize(cards, y),
                LaneCount(cards, z, k), LaneSize(cards, z), |Spread(cards)|, k);
    }
  }
}
