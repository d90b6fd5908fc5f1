/** Place lookups spent per city and carried over. */
module Verification {
  // `CityVerification` and the city loop of `discover_social_candidates` in
  // syncinerary/agents/gather/social.py.

  import opened Schedule
  import opened Sums
  import opened Lists
  import opened Apportion
  import opened CityBudget
  import opened LanePools
  import Sorting

  /** A mined name, by its casefolded key. */
  type Name = nat

  const SOCIAL_VERIFY_BUDGET_MAX := 40
  const SOCIAL_VERIFY_BATCH_MAX := 8
  const MINED_NAMES_MAX := 100
  const MAX_SEARCHES_PER_CITY := 8

  /** What has been mined by the time of one update: the places by name, which of them have
      evidence enough, and which a Reel names. */
  datatype Mined = Mined(places: seq<MinedPlace>, eligible: set<Name>, reelNames: set<Name>)

  /** One entry per name. */
  predicate Dictionary(m: Mined)
  {
    Distinct(m.places) && forall p, q | p in m.places && q in m.places && p.name == q.name :: p == q
  }

  const NOTHING_MINED := Mined([], {}, {})

  function NamesOf(m: Mined): set<Name>
  {
    set p | p in m.places :: p.name
  }

  /** Mining forgets nothing. */
  predicate Grows(m: Mined, later: Mined)
  {
    NamesOf(m) <= NamesOf(later) && m.eligible <= later.eligible && m.reelNames <= later.reelNames
  }

  /** One city as seen from outside: what the provider would accept, how many verified Reels the
      cards show, given the posts mined so far and the answers, which waiting names a round picks
      within a limit, and what has been mined after each search. */
  datatype City = City(
    accepts: Name -> bool, reels: (Mined, map<Name, bool>) -> nat, select: (Mined, set<Name>, nat) -> seq<Name>,
    searches: seq<Mined>, reelTarget: nat)

  /** The names that wait and have evidence enough. */
  function Offered(m: Mined, waiting: set<Name>): set<Name>
  {
    set p | p in m.places && p.name in waiting && p.name in m.eligible :: p.name
  }

  /** What the rounds rely on: different waiting names with evidence, within the limit. */
  ghost predicate Selector(select: (Mined, set<Name>, nat) -> seq<Name>)
  {
    forall m, waiting, limit | Dictionary(m) ::
      var r := select(m, waiting, limit);
      Distinct(r) && |r| <= limit && forall n | n in r :: n in waiting && n in m.eligible
  }

  /** As many names are picked as the limit and the cap on the supply allow. */
  ghost predicate Fills(select: (Mined, set<Name>, nat) -> seq<Name>)
  {
    forall m, waiting, limit: nat | Dictionary(m) ::
      |select(m, waiting, limit)| == Min(limit, Min(MINED_NAMES_MAX, |Offered(m, waiting)|))
  }

  /** A city as searching leaves it: at most the ceiling of searches, each adding to what is known. */
  ghost predicate Sound(city: City)
  {
    && Selector(city.select) && |city.searches| <= MAX_SEARCHES_PER_CITY
    && (forall m | m in city.searches :: Dictionary(m))
    && forall k | 0 < k < |city.searches| :: Grows(city.searches[k - 1], city.searches[k])
  }

  /** What has been mined by the time `k` searches are done. */
  function MinedAfter(city: City, k: nat): Mined
    requires k <= |city.searches|
  {
    if k == 0 then NOTHING_MINED else city.searches[k - 1]
  }

  // ----- which names a round looks up -----

  /** The eligible ones of the names that wait, best evidence first, up to the cap. */
  function ScorePlaces(m: Mined, waiting: set<Name>): seq<MinedPlace>
  {
    Take(Sorting.Sort(Where(m.places, (p: MinedPlace) => p.name in waiting && p.name in m.eligible), TrendingRank),
         MINED_NAMES_MAX)
  }

  function PlaceNames(selected: seq<Selected>): seq<Name>
  {
    seq(|selected|, i requires 0 <= i < |selected| => selected[i].place.name)
  }

  function Choices(m: Mined, waiting: set<Name>, limit: nat): seq<Name>
  {
    PlaceNames(SelectSocialCandidates(ScorePlaces(m, waiting), limit))
  }

  lemma {:induction false} NameCount(s: seq<MinedPlace>)
    requires Distinct(s) && forall p, q | p in s && q in s && p.name == q.name :: p == q
    ensures |set p | p in s :: p.name| == |s|
  {
    if s == [] {
    } else {
      NameCount(s[1..]);
      assert s[0] !in s[1..];
      assert (set p | p in s :: p.name) == (set p | p in s[1..] :: p.name) + {s[0].name};
    }
  }

  lemma ScoredAre(m: Mined, waiting: set<Name>, kept: seq<MinedPlace>)
    requires Dictionary(m) && kept == Where(m.places, (p: MinedPlace) => p.name in waiting && p.name in m.eligible)
    ensures Distinct(kept) && |kept| == |Offered(m, waiting)|
  {
    WhereDistinct(m.places, (p: MinedPlace) => p.name in waiting && p.name in m.eligible);
    NameCount(kept);
    assert Offered(m, waiting) == set p | p in kept :: p.name;
  }

  lemma ScoredFacts(m: Mined, waiting: set<Name>)
    requires Dictionary(m)
    ensures Distinct(ScorePlaces(m, waiting)) && |ScorePlaces(m, waiting)| == Min(MINED_NAMES_MAX, |Offered(m, waiting)|)
    ensures forall p | p in ScorePlaces(m, waiting) :: p in m.places && p.name in waiting && p.name in m.eligible
  {
    var kept := Where(m.places, (p: MinedPlace) => p.name in waiting && p.name in m.eligible);
    var sorted := Sorting.Sort(kept, TrendingRank);
    ScoredAre(m, waiting, kept);
    Sorting.SortKeeps(kept, TrendingRank);
    DistinctRearranged(kept, sorted);
    forall p | p in ScorePlaces(m, waiting) ensures p in kept {
      assert p in sorted;
    }
  }

  lemma NamesDiffer(m: Mined, selected: seq<Selected>)
    requires Dictionary(m) && Distinct(selected)
    requires forall s | s in selected :: s.place in m.places && (s.lane == ForYou <==> s.place.gem)
    ensures Distinct(PlaceNames(selected))
  {
    forall i, j | 0 <= i < j < |selected| ensures selected[i].place.name != selected[j].place.name {
      assert selected[i] != selected[j] && selected[i] in selected && selected[j] in selected;
    }
  }

  /** A round's names are different waiting names, as many as the limit and the scored supply allow. */
  lemma ChoicesFacts(m: Mined, waiting: set<Name>, limit: nat)
    requires Dictionary(m)
    ensures Distinct(Choices(m, waiting, limit))
    ensures |Choices(m, waiting, limit)| == Min(|ScorePlaces(m, waiting)|, limit)
    ensures forall n | n in Choices(m, waiting, limit) :: n in waiting && n in m.eligible
  {
    var scored := ScorePlaces(m, waiting);
    var selected := SelectSocialCandidates(scored, limit);
    ScoredFacts(m, waiting);
    SocialSelectionFills(scored, limit);
    SocialSelectionDistinct(scored, limit);
    NamesDiffer(m, selected);
    forall i | 0 <= i < |selected| ensures selected[i].place.name in waiting && selected[i].place.name in m.eligible {
      assert selected[i] in selected;
    }
  }

  /** The two lanes are such a selection. */
  lemma LanesSelect()
    ensures Selector((m: Mined, waiting: set<Name>, limit: nat) => Choices(m, waiting, limit))
    ensures Fills((m: Mined, waiting: set<Name>, limit: nat) => Choices(m, waiting, limit))
  {
    forall m, waiting: set<Name>, limit: nat | Dictionary(m)
      ensures var r := Choices(m, waiting, limit);
        Distinct(r) && |r| <= limit && forall n | n in r :: n in waiting && n in m.eligible
      ensures |Choices(m, waiting, limit)| == Min(limit, Min(MINED_NAMES_MAX, |Offered(m, waiting)|))
    {
      ScoredFacts(m, waiting);
      ChoicesFacts(m, waiting, limit);
    }
  }

  // ----- one city -----

  function CeilDiv(a: nat, b: nat): nat
    requires b > 0
  {
    (a + b - 1) / b
  }

  /** As many more checks as the missing Reels would take at the yield so far. */
  function Wanted(attempts: nat, verifiedReels: nat, reelTarget: nat): nat
    requires verifiedReels <= reelTarget
  {
    CeilDiv((reelTarget - verifiedReels) * attempts, if verifiedReels < 1 then 1 else verifiedReels)
  }

  /** A budget that is spent grows while Reels are missing, never past the ceiling. */
  function Refreshed(budget: nat, ceiling: Option<nat>, attempts: nat, verifiedReels: nat, reelTarget: nat): nat
  {
    if attempts >= budget && verifiedReels < reelTarget then
      var extra := Wanted(attempts, verifiedReels, reelTarget);
      var cap := if ceiling.Some? && ceiling.value != 0 then ceiling.value else budget;
      Min(cap, budget + Max(1, extra))
    else budget
  }

  /** The names a round may look up: mined ones never looked up before and, until the city is
      final, only Reel names while Reels are missing. */
  function Waiting(city: City, m: Mined, final: bool, matches: map<Name, bool>): set<Name>
  {
    set p | p in m.places && p.name !in matches
      && (!final && city.reels(m, matches) < city.reelTarget ==> p.name in m.reelNames) :: p.name
  }

  /** The dictionary after looking `choices` up in turn. */
  function Answered(city: City, before: map<Name, bool>, choices: seq<Name>): map<Name, bool>
  {
    if choices == [] then before
    else
      var name := choices[|choices| - 1];
      Answered(city, before, choices[..|choices| - 1])[name := city.accepts(name)]
  }

  /** What a city has spent and learned. */
  datatype Tally = Tally(budget: nat, matches: map<Name, bool>, lookups: seq<Name>)

  ghost predicate TallyHolds(t: Tally, ceiling: Option<nat>)
  {
    && |t.matches| <= t.budget
    && (ceiling.Some? ==> t.budget <= ceiling.value)
    && Distinct(t.lookups) && |t.lookups| == |t.matches|
    && forall n :: n in t.lookups <==> n in t.matches
  }

  /** The budget a round has, and the names it looks up with it. */
  function Grown(city: City, ceiling: Option<nat>, t: Tally, m: Mined): nat
  {
    Refreshed(t.budget, ceiling, |t.matches|, city.reels(m, t.matches), city.reelTarget)
  }

  function BatchLimit(grown: nat, attempts: nat, final: bool): nat
  {
    var spare := Max(0, grown - attempts);
    if final then spare else Min(spare, SOCIAL_VERIFY_BATCH_MAX)
  }

  function Batch(city: City, ceiling: Option<nat>, t: Tally, m: Mined, final: bool): seq<Name>
  {
    city.select(m, Waiting(city, m, final, t.matches), BatchLimit(Grown(city, ceiling, t, m), |t.matches|, final))
  }

  /** The tally after a batch was looked up: the budget may grow again. */
  function Booked(city: City, ceiling: Option<nat>, t: Tally, m: Mined, grown: nat, batch: seq<Name>): Tally
  {
    var matches := Answered(city, t.matches, batch);
    Tally(Refreshed(grown, ceiling, |matches|, city.reels(m, matches), city.reelTarget), matches, t.lookups + batch)
  }

  /** One round: grow the budget if it is spent, look up a batch, and grow it again. */
  function Round(city: City, ceiling: Option<nat>, t: Tally, m: Mined, final: bool): Tally
  {
    Booked(city, ceiling, t, m, Grown(city, ceiling, t, m), Batch(city, ceiling, t, m, final))
  }

  lemma {:induction false} AnsweredFacts(city: City, before: map<Name, bool>, choices: seq<Name>, n: Name)
    ensures n in Answered(city, before, choices) <==> n in before || n in choices
    ensures n in choices ==> Answered(city, before, choices)[n] == city.accepts(n)
    ensures n in before && n !in choices ==> Answered(city, before, choices)[n] == before[n]
  {
    if choices == [] {
    } else {
      AnsweredFacts(city, before, choices[..|choices| - 1], n);
      assert choices == choices[..|choices| - 1] + [choices[|choices| - 1]];
    }
  }

  lemma {:induction false} AnsweredSize(city: City, before: map<Name, bool>, choices: seq<Name>)
    requires Distinct(choices) && forall n | n in choices :: n !in before
    ensures |Answered(city, before, choices)| == |before| + |choices|
  {
    if choices == [] {
    } else {
      var front, name := choices[..|choices| - 1], choices[|choices| - 1];
      AnsweredSize(city, before, front);
      AnsweredFacts(city, before, front, name);
      assert name in choices && name !in front;
    }
  }

  lemma RefreshedBounds(budget: nat, ceiling: Option<nat>, attempts: nat, verifiedReels: nat, reelTarget: nat)
    requires attempts <= budget && (ceiling.Some? ==> budget <= ceiling.value)
    ensures var grown := Refreshed(budget, ceiling, attempts, verifiedReels, reelTarget);
      && budget <= grown && (ceiling.Some? ==> grown <= ceiling.value)
      && (attempts == grown && verifiedReels < reelTarget ==> ceiling == None || grown == ceiling.value)
      && (attempts < budget || verifiedReels >= reelTarget ==> grown == budget)
  {
  }

  /** A round's names are different names that wait, and the budget has room for them. */
  lemma BatchFacts(city: City, ceiling: Option<nat>, t: Tally, m: Mined, final: bool)
    requires Selector(city.select) && Dictionary(m) && TallyHolds(t, ceiling)
    ensures var grown, batch := Grown(city, ceiling, t, m), Batch(city, ceiling, t, m, final);
      && Distinct(batch) && |t.matches| + |batch| <= grown
      && t.budget <= grown && (ceiling.Some? ==> grown <= ceiling.value)
      && (!final ==> |batch| <= SOCIAL_VERIFY_BATCH_MAX)
      && forall n | n in batch :: n !in t.matches && n in Waiting(city, m, final, t.matches) && n in m.eligible
  {
    var grown := Grown(city, ceiling, t, m);
    RefreshedBounds(t.budget, ceiling, |t.matches|, city.reels(m, t.matches), city.reelTarget);
    assert Distinct(Batch(city, ceiling, t, m, final));
  }

  /** Names a round may look up: mined, never asked before, with evidence enough, and while Reels are
      missing and the city is not final, named by a Reel. */
  function Askable(city: City, t: Tally, m: Mined, final: bool): set<Name>
  {
    set n | n in m.eligible && (exists p | p in m.places :: p.name == n) && n !in t.matches
      && (final || city.reels(m, t.matches) >= city.reelTarget || n in m.reelNames)
  }

  /** A round looks up askable names only, and as many as its budget, the size of a batch and the cap on
      scored names allow. */
  lemma RoundLooksUp(city: City, ceiling: Option<nat>, t: Tally, m: Mined, final: bool)
    requires Selector(city.select) && Fills(city.select) && Dictionary(m) && TallyHolds(t, ceiling)
    ensures var batch, room := Batch(city, ceiling, t, m, final), Grown(city, ceiling, t, m) - |t.matches|;
      && (forall n | n in batch :: n in Askable(city, t, m, final))
      && |batch| == Min(Min(room, if final then room else SOCIAL_VERIFY_BATCH_MAX), Min(MINED_NAMES_MAX, |Askable(city, t, m, final)|))
  {
    var waiting := Waiting(city, m, final, t.matches);
    BatchFacts(city, ceiling, t, m, final);
    assert Offered(m, waiting) == Askable(city, t, m, final);
    forall n | n in Batch(city, ceiling, t, m, final) ensures n in Askable(city, t, m, final) {
      var p :| p in m.places && p.name == n;
    }
  }

  predicate RoundedUp(x: real, n: nat) { x <= n as real < x + 1.0 }

  /** A spent budget grows while Reels are missing: by the checks the missing Reels take at the yield so
      far, rounded up, by one at least, and to the ceiling at most, without which it cannot grow. */
  lemma GrowthMeans(budget: nat, ceiling: Option<nat>, attempts: nat, reels: nat, target: nat)
    ensures var grown := Refreshed(budget, ceiling, attempts, reels, target);
      if attempts < budget || reels >= target then grown == budget
      else
        var wanted := ((target - reels) * attempts) as real / (if reels == 0 then 1 else reels) as real;
        exists extra: nat :: RoundedUp(wanted, extra) &&
          grown == Min(if ceiling.Some? && ceiling.value > 0 then ceiling.value else budget, budget + Max(1, extra))
  {
    if attempts >= budget && reels < target {
      var missing: nat, found: nat := (target - reels) * attempts, if reels == 0 then 1 else reels;
      CeilDivMeans(missing, found);
      var extra := Wanted(attempts, reels, target);
      var wanted := ((target - reels) * attempts) as real / (if reels == 0 then 1 else reels) as real;
      assert extra == CeilDiv(missing, found) && RoundedUp(wanted, extra);
      var cap := if ceiling.Some? && ceiling.value > 0 then ceiling.value else budget;
      assert Refreshed(budget, ceiling, attempts, reels, target) == Min(cap, budget + Max(1, extra));
    }
  }

  lemma CeilDivMeans(a: nat, b: nat)
    requires b > 0
    ensures a as real / b as real <= CeilDiv(a, b) as real < a as real / b as real + 1.0
  {
    var q := CeilDiv(a, b);
    DivideBounds(a + b - 1, b);
    assert b * q <= a + b - 1 < b * q + b;
    assert b as real * q as real == (b * q) as real;
    assert a as real <= b as real * q as real < a as real + b as real;
    ScaledBounds(a as real, b as real, q as real);
  }

  lemma ScaledBounds(a: real, b: real, q: real)
    requires b > 0.0 && a <= b * q < a + b
    ensures a / b <= q < a / b + 1.0
  {
    var x := a / b;
    assert b * x == a;
    SplitProduct(b, x, 1.0);
    CancelReal(b, x, q);
    CancelReal(b, x + 1.0, q);
  }

  lemma SplitProduct(b: real, x: real, y: real)
    ensures b * (x + y) == b * x + b * y
  {
  }

  lemma NonNegative(b: real, y: real)
    requires b > 0.0 && y >= 0.0
    ensures b * y >= 0.0
  {
  }

  lemma CancelReal(b: real, x: real, y: real)
    requires b > 0.0
    ensures x <= y ==> b * x <= b * y
    ensures b * x <= b * y ==> x <= y
  {
    SplitProduct(b, x, y - x);
    SplitProduct(b, y, x - y);
    if x <= y {
      NonNegative(b, y - x);
    } else {
      Positive(b, x - y);
    }
  }

  lemma Positive(b: real, y: real)
    requires b > 0.0 && y > 0.0
    ensures b * y > 0.0
  {
  }

  lemma BookedKeeps(city: City, ceiling: Option<nat>, t: Tally, m: Mined, grown: nat, batch: seq<Name>)
    requires TallyHolds(t, ceiling) && Distinct(batch) && forall n | n in batch :: n !in t.matches
    requires |t.matches| + |batch| <= grown && (ceiling.Some? ==> grown <= ceiling.value)
    ensures TallyHolds(Booked(city, ceiling, t, m, grown, batch), ceiling)
    ensures |Booked(city, ceiling, t, m, grown, batch).matches| == |t.matches| + |batch|
  {
    var matches, lookups := Answered(city, t.matches, batch), t.lookups + batch;
    AnsweredSize(city, t.matches, batch);
    RefreshedBounds(grown, ceiling, |matches|, city.reels(m, matches), city.reelTarget);
    forall n ensures n in lookups <==> n in matches {
      AnsweredFacts(city, t.matches, batch, n);
    }
    DistinctJoin(t.lookups, batch);
  }

  lemma DistinctJoin(s: seq<Name>, t: seq<Name>)
    requires Distinct(s) && Distinct(t) && forall n | n in t :: n !in s
    ensures Distinct(s + t)
  {
    forall i, j | 0 <= i < j < |s + t| ensures (s + t)[i] != (s + t)[j] {
      assert i < |s| <= j ==> t[j - |s|] in t;
    }
  }

  /** A round keeps the tally in order: budget within the ceiling, no name asked twice. */
  lemma RoundKeeps(city: City, ceiling: Option<nat>, t: Tally, m: Mined, final: bool)
    requires Selector(city.select) && Dictionary(m) && TallyHolds(t, ceiling)
    ensures TallyHolds(Round(city, ceiling, t, m, final), ceiling)
  {
    BatchFacts(city, ceiling, t, m, final);
    BookedKeeps(city, ceiling, t, m, Grown(city, ceiling, t, m), Batch(city, ceiling, t, m, final));
  }

  function Rejected(matches: map<Name, bool>): set<Name>
  {
    set n | n in matches && !matches[n]
  }

  class CityVerification {
    var budget: nat
    const ceiling: Option<nat>
    var matches: map<Name, bool>
    var rejected: nat
    /** The dictionary's keys in insertion order: every provider lookup, in order. */
    var lookups: seq<Name>

    ghost function Spent(): Tally
      reads this
    {
      Tally(budget, matches, lookups)
    }

    ghost predicate Valid()
      reads this
    {
      && TallyHolds(Spent(), ceiling)
      && rejected == |Rejected(matches)|
    }

    constructor (budget: nat, ceiling: Option<nat>)
      requires ceiling.Some? ==> budget <= ceiling.value
      ensures Valid() && Spent() == Tally(budget, map[], []) && this.ceiling == ceiling
    {
      this.budget, this.ceiling := budget, ceiling;
      this.matches, this.rejected, this.lookups := map[], 0, [];
    }

    /** Grow a spent budget while Reels are missing. A city that is exhausted has its Reels, or
        cannot grow any more. */
    method Refresh(verifiedReels: nat, reelTarget: nat) returns (exhausted: bool)
      requires Valid()
      modifies this`budget
      ensures Valid() && budget == Refreshed(old(budget), ceiling, |matches|, verifiedReels, reelTarget)
      ensures old(budget) <= budget && (exhausted <==> |matches| == budget)
      ensures exhausted && verifiedReels < reelTarget ==> ceiling == None || budget == ceiling.value
      ensures |matches| < old(budget) || verifiedReels >= reelTarget ==> budget == old(budget)
    {
      RefreshedBounds(budget, ceiling, |matches|, verifiedReels, reelTarget);
      if |matches| >= budget && verifiedReels < reelTarget {
        var extra := Wanted(|matches|, verifiedReels, reelTarget);
        var cap := if ceiling.Some? && ceiling.value != 0 then ceiling.value else budget;
        budget := Min(cap, budget + Max(1, extra));
      }
      exhausted := |matches| >= budget;
    }

    /** Look one unseen name up and remember the answer. */
    method LookUp(name: Name, accepted: bool)
      requires Valid() && name !in matches && |matches| < budget
      modifies this`matches, this`rejected, this`lookups
      ensures Valid()
      ensures lookups == old(lookups) + [name] && matches == old(matches)[name := accepted]
    {
      if !accepted {
        rejected := rejected + 1;
      }
      DistinctJoin(lookups, [name]);
      matches := matches[name := accepted];
      lookups := lookups + [name];
      assert Rejected(matches) == Rejected(old(matches)) + (if accepted then {} else {name});
    }

    method LookUpAll(city: City, choices: seq<Name>)
      requires Valid() && Distinct(choices) && |matches| + |choices| <= budget
      requires forall n | n in choices :: n !in matches
      modifies this`matches, this`rejected, this`lookups
      ensures Valid()
      ensures lookups == old(lookups) + choices && matches == Answered(city, old(matches), choices)
    {
      ghost var before, spent := matches, lookups;
      assert forall n | n in choices :: n !in before;
      for k := 0 to |choices|
        invariant Valid() && lookups == spent + choices[..k]
        invariant matches == Answered(city, before, choices[..k])
      {
        var name := choices[k];
        AnsweredNext(city, before, choices, k);
        assert |matches| == |spent| + k;
        LookUp(name, city.accepts(name));
      }
      assert choices[..|choices|] == choices;
    }

    method PickBatch(city: City, m: Mined, final: bool) returns (batch: seq<Name>)
      requires Valid()
      ensures batch == city.select(m, Waiting(city, m, final, matches), BatchLimit(budget, |matches|, final))
    {
      var limit := budget - |matches|;
      if !final {
        limit := Min(limit, SOCIAL_VERIFY_BATCH_MAX);
      }
      batch := city.select(m, Waiting(city, m, final, matches), limit);
    }

    /** One verification round; `BatchFacts` says which names it looks up. */
    method Update(city: City, m: Mined, final: bool) returns (exhausted: bool)
      requires Valid() && Selector(city.select) && Dictionary(m)
      modifies this
      ensures Valid() && Spent() == Round(city, ceiling, old(Spent()), m, final)
      ensures exhausted <==> |matches| == budget
    {
      ghost var before := Spent();
      BatchFacts(city, ceiling, before, m, final);
      var _ := Refresh(city.reels(m, matches), city.reelTarget);
      ghost var grown := budget;
      var batch := PickBatch(city, m, final);
      assert batch == Batch(city, ceiling, before, m, final);
      LookUpAll(city, batch);
      exhausted := Refresh(city.reels(m, matches), city.reelTarget);
      assert Spent() == Booked(city, ceiling, before, m, grown, batch);
    }
  }

  lemma AnsweredNext(city: City, before: map<Name, bool>, choices: seq<Name>, k: nat)
    requires k < |choices| && Distinct(choices) && choices[k] !in before
    ensures choices[k] !in Answered(city, before, choices[..k])
    ensures Answered(city, before, choices[..k + 1]) == Answered(city, before, choices[..k])[choices[k] := city.accepts(choices[k])]
    ensures choices[..k + 1] == choices[..k] + [choices[k]]
  {
    AnsweredFacts(city, before, choices[..k], choices[k]);
    assert choices[..k + 1][..k] == choices[..k];
  }

  /** A city after its first `k` updates: one before the searches, and one after each. */
  function CityRun(city: City, budget: nat, ceiling: nat, k: nat): Tally
    requires k <= |city.searches| + 1
  {
    if k == 0 then Tally(budget, map[], [])
    else Round(city, Some(ceiling), CityRun(city, budget, ceiling, k - 1), MinedAfter(city, k - 1), false)
  }

  /** A city when its searches are over and the final update has been made. */
  function CityEnd(city: City, budget: nat, ceiling: nat): Tally
  {
    var n := |city.searches|;
    Round(city, Some(ceiling), CityRun(city, budget, ceiling, n + 1), MinedAfter(city, n), true)
  }

  /** Searching stops as soon as an update leaves nothing to spend. */
  ghost predicate StopsWhenSpent(city: City, budget: nat, ceiling: nat)
  {
    forall k | 1 <= k <= |city.searches| ::
      |CityRun(city, budget, ceiling, k).matches| < CityRun(city, budget, ceiling, k).budget
  }

  lemma MinedIsDictionary(city: City, k: nat)
    requires Sound(city) && k <= |city.searches|
    ensures Dictionary(MinedAfter(city, k))
  {
    if k > 0 {
      assert city.searches[k - 1] in city.searches;
    }
  }

  lemma {:induction false} CityRunKeeps(city: City, budget: nat, ceiling: nat, k: nat)
    requires Sound(city) && budget <= ceiling && k <= |city.searches| + 1
    ensures TallyHolds(CityRun(city, budget, ceiling, k), Some(ceiling))
  {
    if k == 0 {
    } else {
      CityRunKeeps(city, budget, ceiling, k - 1);
      MinedIsDictionary(city, k - 1);
      RoundKeeps(city, Some(ceiling), CityRun(city, budget, ceiling, k - 1), MinedAfter(city, k - 1), false);
    }
  }

  lemma CityEndKeeps(city: City, budget: nat, ceiling: nat)
    requires Sound(city) && budget <= ceiling
    ensures TallyHolds(CityEnd(city, budget, ceiling), Some(ceiling))
  {
    var n := |city.searches|;
    CityRunKeeps(city, budget, ceiling, n + 1);
    MinedIsDictionary(city, n);
    RoundKeeps(city, Some(ceiling), CityRun(city, budget, ceiling, n + 1), MinedAfter(city, n), true);
  }

  lemma AnsweredTruly(city: City, before: map<Name, bool>, batch: seq<Name>)
    requires forall n | n in before :: before[n] == city.accepts(n)
    ensures var after := Answered(city, before, batch); forall n | n in after :: after[n] == city.accepts(n)
  {
    forall n | n in Answered(city, before, batch) ensures Answered(city, before, batch)[n] == city.accepts(n) {
      AnsweredFacts(city, before, batch, n);
    }
  }

  lemma RoundAnswers(city: City, ceiling: Option<nat>, t: Tally, m: Mined, final: bool)
    requires forall n | n in t.matches :: t.matches[n] == city.accepts(n)
    ensures var after := Round(city, ceiling, t, m, final).matches; forall n | n in after :: after[n] == city.accepts(n)
  {
    AnsweredTruly(city, t.matches, Batch(city, ceiling, t, m, final));
  }

  lemma {:induction false} CityRunAnswers(city: City, budget: nat, ceiling: nat, k: nat)
    requires k <= |city.searches| + 1
    ensures var matches := CityRun(city, budget, ceiling, k).matches; forall n | n in matches :: matches[n] == city.accepts(n)
  {
    if k == 0 {
    } else {
      CityRunAnswers(city, budget, ceiling, k - 1);
      RoundAnswers(city, Some(ceiling), CityRun(city, budget, ceiling, k - 1), MinedAfter(city, k - 1), false);
    }
  }

  lemma CityEndAnswers(city: City, budget: nat, ceiling: nat)
    ensures var matches := CityEnd(city, budget, ceiling).matches; forall n | n in matches :: matches[n] == city.accepts(n)
  {
    var n := |city.searches|;
    CityRunAnswers(city, budget, ceiling, n + 1);
    RoundAnswers(city, Some(ceiling), CityRun(city, budget, ceiling, n + 1), MinedAfter(city, n), true);
  }

  /** The checks spent are those of the first `k` updates. */
  ghost predicate SpentAfter(spent: Tally, city: City, budget: nat, ceiling: nat, k: nat)
  {
    forall j: nat | j == k :: j <= |city.searches| + 1 && CityRun(city, budget, ceiling, j) == spent
  }

  /** The update when `k` searches are done. */
  method UpdateAfterSearch(v: CityVerification, city: City, k: nat, ghost budget: nat, ghost ceiling: nat)
    requires Sound(city) && k <= |city.searches| && v.Valid() && v.ceiling == Some(ceiling)
    requires SpentAfter(v.Spent(), city, budget, ceiling, k)
    modifies v
    ensures v.Valid() && SpentAfter(v.Spent(), city, budget, ceiling, k + 1)
  {
    var m := MinedAfter(city, k);
    MinedIsDictionary(city, k);
    ghost var before := v.Spent();
    var _ := v.Update(city, m, false);
    assert v.Spent() == Round(city, Some(ceiling), before, m, false);
  }

  method SearchCity(v: CityVerification, city: City, updates: nat, ghost budget: nat, ghost ceiling: nat)
    requires Sound(city) && v.Valid() && v.ceiling == Some(ceiling) && updates == |city.searches| + 1
    requires SpentAfter(v.Spent(), city, budget, ceiling, 0)
    modifies v
    ensures v.Valid() && SpentAfter(v.Spent(), city, budget, ceiling, updates)
  {
    for k := 0 to updates
      invariant v.Valid() && SpentAfter(v.Spent(), city, budget, ceiling, k)
    {
      UpdateAfterSearch(v, city, k, budget, ceiling);
    }
  }

  /** One city: its answers are the provider's, and it spends what the run of its rounds spends. */
  method VerifyCity(city: City, budget: nat, ceiling: nat) returns (v: CityVerification)
    requires Sound(city) && budget <= ceiling
    ensures fresh(v) && v.Valid() && v.ceiling == Some(ceiling) && v.Spent() == CityEnd(city, budget, ceiling)
    ensures forall n | n in v.matches :: v.matches[n] == city.accepts(n)
  {
    v := new CityVerification(budget, Some(ceiling));
    SearchCity(v, city, |city.searches| + 1, budget, ceiling);
    CityEndAnswers(city, budget, ceiling);
    MinedIsDictionary(city, |city.searches|);
    var _ := v.Update(city, MinedAfter(city, |city.searches|), true);
    assert v.matches == v.Spent().matches;
  }

  // ----- the trip -----

  /** What the city loop carries: each city's lookups in order, and the checks the last city
      released. */
  datatype Trail = Trail(lookups: seq<seq<Name>>, released: nat)

  function Lengths(lookups: seq<seq<Name>>): seq<nat>
  {
    seq(|lookups|, i requires 0 <= i < |lookups| => |lookups[i]|)
  }

  /** Fewest days first, the priority city last among equals, then the order typed. */
  function CitiesBefore(dayCounts: seq<nat>, priority: Option<nat>): (nat, nat) -> bool
  {
    (i: nat, j: nat) =>
      var di, dj := At(dayCounts, i), At(dayCounts, j);
      var pi, pj := priority == Some(i), priority == Some(j);
      di < dj || (di == dj && ((!pi && pj) || (pi == pj && i <= j)))
  }

  function CityOrder(dayCounts: seq<nat>, priority: Option<nat>): seq<nat>
  {
    Sorting.Sort(Range(|dayCounts|), CitiesBefore(dayCounts, priority))
  }

  /** One city after another: each may spend its own ceiling and what the previous one released. */
  function NextCity(before: Trail, city: City, budget: nat, ceiling: nat): Trail
  {
    var most := ceiling + before.released;
    var t := CityEnd(city, Min(most, budget + before.released), most);
    Trail(before.lookups + [t.lookups], Max(0, most - |t.matches|))
  }

  ghost predicate StopsAfter(before: Trail, city: City, budget: nat, ceiling: nat)
  {
    var most := ceiling + before.released;
    StopsWhenSpent(city, Min(most, budget + before.released), most)
  }

  /** Every city of the order stops searching when it has nothing to spend. */
  ghost predicate CitiesStop(cities: seq<City>, budgets: seq<nat>, ceilings: seq<nat>, order: seq<nat>)
    requires |cities| == |budgets| == |ceilings| && forall k | 0 <= k < |order| :: order[k] < |cities|
  {
    forall p | 0 <= p < |order| ::
      StopsAfter(CitiesRun(cities, budgets, ceilings, order[..p]), cities[order[p]], budgets[order[p]], ceilings[order[p]])
  }

  function CitiesRun(cities: seq<City>, budgets: seq<nat>, ceilings: seq<nat>, order: seq<nat>): Trail
    requires |cities| == |budgets| == |ceilings| && forall k | 0 <= k < |order| :: order[k] < |cities|
  {
    if order == [] then Trail([], 0)
    else
      var last := order[|order| - 1];
      NextCity(CitiesRun(cities, budgets, ceilings, order[..|order| - 1]), cities[last], budgets[last], ceilings[last])
  }

  lemma OrderFacts(dayCounts: seq<nat>, priority: Option<nat>)
    ensures var order := CityOrder(dayCounts, priority);
      |order| == |dayCounts| && Distinct(order) && multiset(order) == multiset(Range(|dayCounts|))
      && forall k | 0 <= k < |order| :: order[k] < |dayCounts|
  {
    Sorting.SortKeeps(Range(|dayCounts|), CitiesBefore(dayCounts, priority));
    DistinctRearranged(Range(|dayCounts|), CityOrder(dayCounts, priority));
    var order := CityOrder(dayCounts, priority);
    forall k | 0 <= k < |order| ensures order[k] < |dayCounts| {
      assert order[k] in order;
    }
  }

  /** Cities with fewer days come first; among equals the priority city last, the others as typed. */
  lemma CitiesInOrder(dayCounts: seq<nat>, priority: Option<nat>, a: nat, b: nat)
    requires a < b < |dayCounts|
    ensures var order := CityOrder(dayCounts, priority);
      && |order| == |dayCounts| && order[a] < |dayCounts| && order[b] < |dayCounts|
      && dayCounts[order[a]] <= dayCounts[order[b]]
      && (dayCounts[order[a]] == dayCounts[order[b]] ==>
            priority != Some(order[a]) && (priority == Some(order[b]) || order[a] < order[b]))
  {
    OrderFacts(dayCounts, priority);
    Sorting.SortOrders(Range(|dayCounts|), CitiesBefore(dayCounts, priority));
    var order := CityOrder(dayCounts, priority);
    assert CitiesBefore(dayCounts, priority)(order[a], order[b]) && order[a] != order[b];
  }

  function Ceilings(dayCounts: seq<nat>, guideAttempts: nat): seq<nat>
  {
    CityBudgets(dayCounts, SOCIAL_VERIFY_BUDGET_MAX - guideAttempts)
  }

  function TripRun(cities: seq<City>, dayCounts: seq<nat>, priority: Option<nat>, budget: nat, guideAttempts: nat): Trail
    requires |cities| == |dayCounts|
  {
    OrderFacts(dayCounts, priority);
    CitiesRun(cities, CityBudgets(dayCounts, Max(0, budget - guideAttempts)), Ceilings(dayCounts, guideAttempts),
              CityOrder(dayCounts, priority))
  }

  ghost predicate TripStops(cities: seq<City>, dayCounts: seq<nat>, priority: Option<nat>, budget: nat, guideAttempts: nat)
    requires |cities| == |dayCounts|
  {
    OrderFacts(dayCounts, priority);
    CitiesStop(cities, CityBudgets(dayCounts, Max(0, budget - guideAttempts)), Ceilings(dayCounts, guideAttempts),
               CityOrder(dayCounts, priority))
  }

  /** No name repeated in a city, and no check created or lost. */
  ghost predicate Conserves(trail: Trail, cities: nat, handedOut: int)
  {
    && |trail.lookups| == cities
    && (forall k | 0 <= k < cities :: Distinct(trail.lookups[k]))
    && Sum(Lengths(trail.lookups)) + trail.released == handedOut
  }

  lemma CityTotals(city: City, budget: nat, ceiling: nat, t: Tally)
    requires Sound(city) && budget <= ceiling && t == CityEnd(city, budget, ceiling)
    ensures Distinct(t.lookups) && |t.lookups| == |t.matches| <= ceiling
  {
    CityEndKeeps(city, budget, ceiling);
  }

  lemma NextCityConserves(before: Trail, city: City, budget: nat, ceiling: nat, cities: nat, handedOut: int)
    requires Sound(city) && Conserves(before, cities, handedOut)
    ensures Conserves(NextCity(before, city, budget, ceiling), cities + 1, handedOut + ceiling)
  {
    var most := ceiling + before.released;
    var t := CityEnd(city, Min(most, budget + before.released), most);
    CityTotals(city, Min(most, budget + before.released), most, t);
    var rest := most - |t.matches|;
    assert NextCity(before, city, budget, ceiling) == Trail(before.lookups + [t.lookups], rest);
    TrailGrows(before, t.lookups, cities, handedOut, rest);
  }

  lemma TrailGrows(before: Trail, lookups: seq<Name>, cities: nat, handedOut: int, rest: nat)
    requires Conserves(before, cities, handedOut) && Distinct(lookups)
    ensures Conserves(Trail(before.lookups + [lookups], rest), cities + 1, handedOut - before.released + |lookups| + rest)
  {
    assert Lengths(before.lookups + [lookups]) == Lengths(before.lookups) + [|lookups|];
    SumSplit(Lengths(before.lookups), [|lookups|]);
  }

  lemma {:induction false} CitiesConserve(cities: seq<City>, budgets: seq<nat>, ceilings: seq<nat>, order: seq<nat>)
    requires |cities| == |budgets| == |ceilings| && forall k | 0 <= k < |order| :: order[k] < |cities|
    requires forall c | c in cities :: Sound(c)
    ensures Conserves(CitiesRun(cities, budgets, ceilings, order), |order|, SumAt(ceilings, order))
  {
    if order == [] {
    } else {
      var front, last := order[..|order| - 1], order[|order| - 1];
      CitiesConserve(cities, budgets, ceilings, front);
      var before := CitiesRun(cities, budgets, ceilings, front);
      NextCityConserves(before, cities[last], budgets[last], ceilings[last], |front|, SumAt(ceilings, front));
      assert order == front + [last];
      SumAtSplit(ceilings, front, [last]);
    }
  }

  /** Lookups plus the last release equal the ceilings handed out: no check is created or lost by
      growth or carry-over. */
  lemma TripConserves(cities: seq<City>, dayCounts: seq<nat>, priority: Option<nat>, budget: nat, guideAttempts: nat)
    requires |cities| == |dayCounts| && forall c | c in cities :: Sound(c)
    ensures Conserves(TripRun(cities, dayCounts, priority, budget, guideAttempts), |cities|, Sum(Ceilings(dayCounts, guideAttempts)))
  {
    var order, ceilings := CityOrder(dayCounts, priority), Ceilings(dayCounts, guideAttempts);
    OrderFacts(dayCounts, priority);
    CitiesConserve(cities, CityBudgets(dayCounts, Max(0, budget - guideAttempts)), ceilings, order);
    SumAtRearranged(ceilings, order, Range(|cities|));
    SumAtRange(ceilings, |cities|);
    assert ceilings[..|cities|] == ceilings;
  }

  method CountCity(city: City, budget: nat, ceiling: nat) returns (names: seq<Name>, attempts: nat)
    requires Sound(city) && budget <= ceiling
    ensures names == CityEnd(city, budget, ceiling).lookups && attempts == |CityEnd(city, budget, ceiling).matches|
  {
    var v := VerifyCity(city, budget, ceiling);
    ghost var t := v.Spent();
    names, attempts := v.lookups, |v.matches|;
    assert names == t.lookups && attempts == |t.matches|;
  }

  method VerifyNext(city: City, budget: nat, share: nat, released: nat, ghost before: Trail) returns (names: seq<Name>, rest: nat)
    requires Sound(city) && before.released == released
    ensures Trail(before.lookups + [names], rest) == NextCity(before, city, budget, share)
  {
    var ceiling := share + released;
    var attempts;
    names, attempts := CountCity(city, Min(ceiling, budget + released), ceiling);
    rest := Max(0, ceiling - attempts);
  }

  lemma CitiesRunNext(cities: seq<City>, budgets: seq<nat>, ceilings: seq<nat>, order: seq<nat>, position: nat, before: Trail)
    requires |cities| == |budgets| == |ceilings| && forall k | 0 <= k < |order| :: order[k] < |cities|
    requires position < |order| && before == CitiesRun(cities, budgets, ceilings, order[..position])
    ensures var index := order[position];
      CitiesRun(cities, budgets, ceilings, order[..position + 1]) == NextCity(before, cities[index], budgets[index], ceilings[index])
  {
    assert order[..position + 1][..position] == order[..position];
  }

  method VerifyCities(cities: seq<City>, budgets: seq<nat>, ceilings: seq<nat>, order: seq<nat>)
    returns (lookups: seq<seq<Name>>, released: nat)
    requires |cities| == |budgets| == |ceilings| && forall k | 0 <= k < |order| :: order[k] < |cities|
    requires forall c | c in cities :: Sound(c)
    ensures Trail(lookups, released) == CitiesRun(cities, budgets, ceilings, order)
  {
    lookups, released := [], 0;
    for position := 0 to |order|
      invariant Trail(lookups, released) == CitiesRun(cities, budgets, ceilings, order[..position])
    {
      var index := order[position];
      ghost var before := Trail(lookups, released);
      CitiesRunNext(cities, budgets, ceilings, order, position, before);
      assert cities[index] in cities;
      var names, rest := VerifyNext(cities[index], budgets[index], ceilings[index], released, before);
      lookups, released := lookups + [names], rest;
    }
    assert order[..|order|] == order;
  }

  /** The city loop of a trip. */
  method VerifyTrip(cities: seq<City>, dayCounts: seq<nat>, priority: Option<nat>, budget: nat, guideAttempts: nat)
    returns (lookups: seq<seq<Name>>, released: nat)
    requires |cities| == |dayCounts| && forall c | c in cities :: Sound(c)
    ensures Trail(lookups, released) == TripRun(cities, dayCounts, priority, budget, guideAttempts)
    ensures Sum(Lengths(lookups)) + released == Sum(Ceilings(dayCounts, guideAttempts))
  {
    OrderFacts(dayCounts, priority);
    lookups, released := VerifyCities(cities, CityBudgets(dayCounts, Max(0, budget - guideAttempts)),
                                      Ceilings(dayCounts, guideAttempts), CityOrder(dayCounts, priority));
    TripConserves(cities, dayCounts, priority, budget, guideAttempts);
  }
}
