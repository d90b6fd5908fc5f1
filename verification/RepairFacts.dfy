/** What routing teaches day assignment. */
module RepairFacts {
  // The learning functions are in syncinerary/agents/solver/repair.py, the loop that calls them in
  // syncinerary/agents/solver/stage2_route.py, and the constraints their facts become in
  // syncinerary/agents/solver/stage1_days.py.

  import opened Schedule
  import opened Sums

  type Place = nat
  type DayNo = nat

  datatype ReasonCode = ClosedOnAvailableDays | NoMealSlot | NoDayFit | OtherReason

  datatype Refusal = Refusal(place: Place, day: DayNo, code: ReasonCode)

  /** A set of candidates and the day they would share. */
  datatype Key = Key(day: DayNo, members: set<Place>)

  datatype Capacity = Capacity(key: Key, limit: nat)

  predicate Unary(code: ReasonCode) { code == ClosedOnAvailableDays || code == NoMealSlot }

  function DaysOf(blocks: map<Place, set<DayNo>>, p: Place): set<DayNo>
  {
    if p in blocks then blocks[p] else {}
  }

  /** The refusals that teach a block: unary ones, of a place nobody protects and no pair
      already constrains. */
  predicate Teaches(r: Refusal, protected: set<Place>, conflicted: set<Place>)
  {
    Unary(r.code) && r.place !in protected && r.place !in conflicted
  }

  function Taught(refusals: seq<Refusal>, protected: set<Place>, conflicted: set<Place>, p: Place): set<DayNo>
  {
    set r | r in refusals && Teaches(r, protected, conflicted) && r.place == p :: r.day
  }

  /** What one refusal adds to a place's blocked days. */
  function Adds(r: Refusal, protected: set<Place>, conflicted: set<Place>, p: Place): set<DayNo>
  {
    if p == r.place && Teaches(r, protected, conflicted) then {r.day} else {}
  }

  method LearnDayBlocks(refusals: seq<Refusal>, protected: set<Place>, conflicted: set<Place>, existing: map<Place, set<DayNo>>)
    returns (blocks: map<Place, set<DayNo>>, learned: bool)
    ensures forall p :: DaysOf(blocks, p) == DaysOf(existing, p) + Taught(refusals, protected, conflicted, p)
    ensures forall p, day | day in DaysOf(blocks, p) && day !in DaysOf(existing, p) ::
      && p !in protected && p !in conflicted
      && (Refusal(p, day, ClosedOnAvailableDays) in refusals || Refusal(p, day, NoMealSlot) in refusals)
    ensures learned <==> exists p :: DaysOf(blocks, p) != DaysOf(existing, p)
  {
    blocks, learned := existing, false;
    for k := 0 to |refusals|
      invariant Accumulated(existing, refusals[..k], protected, conflicted, blocks)
      invariant if learned then Grown(existing, blocks) else blocks == existing
    {
      ghost var before := blocks;
      var more;
      blocks, more := LearnRefusal(refusals[k], protected, conflicted, blocks, existing);
      Accumulate(existing, refusals, protected, conflicted, k, before, blocks);
      learned := learned || more;
    }
    assert refusals[..|refusals|] == refusals;
  }

  method LearnRefusal(r: Refusal, protected: set<Place>, conflicted: set<Place>, blocks: map<Place, set<DayNo>>,
                      ghost existing: map<Place, set<DayNo>>) returns (grown: map<Place, set<DayNo>>, learned: bool)
    requires forall p :: DaysOf(existing, p) <= DaysOf(blocks, p)
    ensures forall p :: DaysOf(grown, p) == DaysOf(blocks, p) + Adds(r, protected, conflicted, p)
    ensures if learned then Grown(existing, grown) else grown == blocks
  {
    grown, learned := blocks, false;
    if Teaches(r, protected, conflicted) {
      var days := DaysOf(blocks, r.place);
      if r.day !in days {
        grown := blocks[r.place := days + {r.day}];
        learned := true;
        assert r.day !in DaysOf(existing, r.place) && r.day in DaysOf(grown, r.place);
      }
    }
  }

  ghost predicate Grown(existing: map<Place, set<DayNo>>, blocks: map<Place, set<DayNo>>)
  {
    exists p :: DaysOf(blocks, p) != DaysOf(existing, p)
  }

  ghost predicate Accumulated(existing: map<Place, set<DayNo>>, refusals: seq<Refusal>, protected: set<Place>,
                              conflicted: set<Place>, blocks: map<Place, set<DayNo>>)
  {
    forall p :: DaysOf(blocks, p) == DaysOf(existing, p) + Taught(refusals, protected, conflicted, p)
  }

  lemma Accumulate(existing: map<Place, set<DayNo>>, refusals: seq<Refusal>, protected: set<Place>, conflicted: set<Place>,
                   k: nat, before: map<Place, set<DayNo>>, after: map<Place, set<DayNo>>)
    requires k < |refusals| && Accumulated(existing, refusals[..k], protected, conflicted, before)
    requires forall p :: DaysOf(after, p) == DaysOf(before, p) + Adds(refusals[k], protected, conflicted, p)
    ensures Accumulated(existing, refusals[..k + 1], protected, conflicted, after)
  {
    assert refusals[..k + 1] == refusals[..k] + [refusals[k]];
    forall p ensures DaysOf(after, p) == DaysOf(existing, p) + Taught(refusals[..k + 1], protected, conflicted, p) {
      assert Taught(refusals[..k + 1], protected, conflicted, p)
          == Taught(refusals[..k], protected, conflicted, p) + Adds(refusals[k], protected, conflicted, p);
    }
  }

  /** The tighter of two limits, an unknown one being no limit. */
  function Tighter(a: Option<nat>, b: Option<nat>): Option<nat>
  {
    match (a, b)
    case (None, _) => b
    case (_, None) => a
    case (Some(x), Some(y)) => if y < x then b else a
  }

  function LimitOf(limits: map<Key, nat>, k: Key): Option<nat>
  {
    if k in limits then Some(limits[k]) else None
  }

  /** The tightest limit found for a key. */
  function Tightest(found: seq<Capacity>, k: Key): Option<nat>
  {
    if found == [] then None
    else
      var last := found[|found| - 1];
      Tighter(Tightest(found[..|found| - 1], k), if last.key == k then Some(last.limit) else None)
  }

  method MergeDayCapacities(existing: map<Key, nat>, found: seq<Capacity>) returns (byKey: map<Key, nat>, learned: bool)
    ensures forall k :: LimitOf(byKey, k) == Tighter(LimitOf(existing, k), Tightest(found, k))
    ensures learned <==> byKey != existing
  {
    byKey, learned := existing, false;
    for n := 0 to |found|
      invariant forall k :: LimitOf(byKey, k) == Tighter(LimitOf(existing, k), Tightest(found[..n], k))
      invariant learned <==> byKey != existing
    {
      var capacity := found[n];
      assert found[..n + 1][..n] == found[..n];
      if capacity.key !in byKey || capacity.limit < byKey[capacity.key] {
        assert LimitOf(existing, capacity.key) != Some(capacity.limit);
        byKey := byKey[capacity.key := capacity.limit];
        assert LimitOf(byKey, capacity.key) == Some(capacity.limit);
        learned := true;
      }
    }
    assert found[..|found|] == found;
  }

  /** The tightest limit found is the least one listed, so the order of the list is immaterial. */
  lemma {:induction false} TightestIsLeast(found: seq<Capacity>, k: Key)
    ensures Tightest(found, k) == None <==> forall c | c in found :: c.key != k
    ensures Tightest(found, k).Some? ==> Capacity(k, Tightest(found, k).value) in found
    ensures Tightest(found, k).Some? ==> forall c | c in found && c.key == k :: Tightest(found, k).value <= c.limit
  {
    if found == [] {
    } else {
      var before, last := found[..|found| - 1], found[|found| - 1];
      TightestIsLeast(before, k);
      assert found == before + [last];
    }
  }

  lemma MergeOrderIsImmaterial(found: seq<Capacity>, other: seq<Capacity>, k: Key)
    requires forall c :: c in found <==> c in other
    ensures Tightest(found, k) == Tightest(other, k)
  {
    TightestIsLeast(found, k);
    TightestIsLeast(other, k);
    if Tightest(found, k).Some? {
      assert Capacity(k, Tightest(found, k).value) in other;
    }
    if Tightest(other, k).Some? {
      assert Capacity(k, Tightest(other, k).value) in found;
    }
  }

  method LearnIncompatiblePairs(days: seq<seq<(Place, Place)>>, existing: set<(Place, Place)>)
    returns (pairs: set<(Place, Place)>, learned: bool)
    ensures pairs == existing + set d, q | d in days && q in d :: q
    ensures learned <==> pairs != existing
  {
    pairs := existing;
    for k := 0 to |days|
      invariant pairs == existing + set d, q | d in days[..k] && q in d :: q
    {
      assert days[..k + 1] == days[..k] + [days[k]];
      pairs := pairs + set q | q in days[k];
    }
    assert days[..|days|] == days;
    learned := |pairs| > |existing|;
    SubsetSize(existing, pairs);
  }

  // ----- rounds of learning end -----

  /** Everything a repair run knows. */
  datatype Facts = Facts(blocks: map<Place, set<DayNo>>, pairs: set<(Place, Place)>, limits: map<Key, nat>)

  /** `t` says everything `f` says, and never less tightly. */
  ghost predicate Tightens(f: Facts, t: Facts)
  {
    && (forall p :: DaysOf(f.blocks, p) <= DaysOf(t.blocks, p))
    && f.pairs <= t.pairs
    && (forall k | k in f.limits :: k in t.limits && t.limits[k] <= f.limits[k])
  }

  ghost predicate Learned(f: Facts, t: Facts)
  {
    || (exists p :: DaysOf(f.blocks, p) != DaysOf(t.blocks, p))
    || f.pairs != t.pairs
    || f.limits != t.limits
  }

  /** The members of the pairs that cannot share a day. */
  function Members(pairs: set<(Place, Place)>): set<Place>
  {
    (set q | q in pairs :: q.0) + (set q | q in pairs :: q.1)
  }

  /** What a round is told: refusals, the pairs each day could not join, and measured capacities. */
  datatype Findings = Findings(refusals: seq<Refusal>, pairs: seq<seq<(Place, Place)>>, capacities: seq<Capacity>)

  /** What one round makes of its findings: the pairs first, then the blocks, which spare protected
      places and members of any known pair, then the capacities. */
  ghost predicate Folds(f: Facts, findings: Findings, protected: set<Place>, t: Facts)
  {
    && t.pairs == f.pairs + (set d, q | d in findings.pairs && q in d :: q)
    && (forall p :: DaysOf(t.blocks, p) == DaysOf(f.blocks, p) + Taught(findings.refusals, protected, Members(t.pairs), p))
    && (forall k :: LimitOf(t.limits, k) == Tighter(LimitOf(f.limits, k), Tightest(findings.capacities, k)))
  }

  /** One round. It only tightens, and blocks neither a protected place nor a member of a pair,
      known before or found in this round. */
  method LearnRound(f: Facts, findings: Findings, protected: set<Place>) returns (t: Facts, learned: bool)
    ensures Folds(f, findings, protected, t) && Tightens(f, t) && (learned <==> Learned(f, t))
    ensures forall p | p in protected :: DaysOf(t.blocks, p) == DaysOf(f.blocks, p)
    ensures forall q | q in t.pairs :: DaysOf(t.blocks, q.0) == DaysOf(f.blocks, q.0) && DaysOf(t.blocks, q.1) == DaysOf(f.blocks, q.1)
  {
    var pairs, foundConflict := LearnIncompatiblePairs(findings.pairs, f.pairs);
    var blocks, blocked := LearnDayBlocks(findings.refusals, protected, Members(pairs), f.blocks);
    var limits, foundCapacity := MergeDayCapacities(f.limits, findings.capacities);
    t := Facts(blocks, pairs, limits);
    learned := blocked || foundConflict || foundCapacity;
    forall k | k in f.limits ensures k in limits && limits[k] <= f.limits[k] {
      assert LimitOf(limits, k) == Tighter(LimitOf(f.limits, k), Tightest(findings.capacities, k));
    }
    forall p | p in protected || p in Members(pairs) ensures DaysOf(blocks, p) == DaysOf(f.blocks, p) {
      assert Taught(findings.refusals, protected, Members(pairs), p) == {};
    }
  }

  /** One thing there still is to learn: a day not blocked, a pair not known, a limit not
      yet brought down to. */
  datatype Atom = BlockAtom(place: Place, day: DayNo) | PairAtom(left: Place, right: Place) | LimitAtom(key: Key, limit: nat)

  predicate Open(f: Facts, a: Atom)
  {
    match a
    case BlockAtom(p, d) => d !in DaysOf(f.blocks, p)
    case PairAtom(l, r) => (l, r) !in f.pairs
    case LimitAtom(k, n) => k !in f.limits || n < f.limits[k]
  }

  function OpenAtoms(f: Facts, universe: set<Atom>): set<Atom>
  {
    set a | a in universe && Open(f, a)
  }

  /** The universe names everything the facts say. */
  ghost predicate Within(f: Facts, universe: set<Atom>)
  {
    && (forall p, d | d in DaysOf(f.blocks, p) :: BlockAtom(p, d) in universe)
    && (forall l, r | (l, r) in f.pairs :: PairAtom(l, r) in universe)
    && (forall k | k in f.limits :: LimitAtom(k, f.limits[k]) in universe)
  }

  /** A round that learns anything leaves strictly less to learn. */
  lemma LearningLeavesLess(f: Facts, t: Facts, universe: set<Atom>)
    requires Tightens(f, t) && Learned(f, t) && Within(t, universe)
    ensures |OpenAtoms(t, universe)| < |OpenAtoms(f, universe)|
  {
    var a := NewAtom(f, t, universe);
    assert OpenAtoms(t, universe) <= OpenAtoms(f, universe);
    SubsetSize(OpenAtoms(t, universe), OpenAtoms(f, universe));
    assert a in OpenAtoms(f, universe) && a !in OpenAtoms(t, universe);
  }

  lemma NewAtom(f: Facts, t: Facts, universe: set<Atom>) returns (a: Atom)
    requires Tightens(f, t) && Learned(f, t) && Within(t, universe)
    ensures a in universe && Open(f, a) && !Open(t, a)
  {
    if p :| DaysOf(f.blocks, p) != DaysOf(t.blocks, p) {
      assert DaysOf(f.blocks, p) <= DaysOf(t.blocks, p);
      var d :| d in DaysOf(t.blocks, p) && d !in DaysOf(f.blocks, p);
      a := BlockAtom(p, d);
    } else if f.pairs != t.pairs {
      var q :| q in t.pairs && q !in f.pairs;
      assert q == (q.0, q.1);
      a := PairAtom(q.0, q.1);
    } else {
      assert f.limits != t.limits;
      var k :| k in t.limits && (k !in f.limits || f.limits[k] != t.limits[k]);
      a := LimitAtom(k, t.limits[k]);
    }
  }

  /** Rounds that each learn something are at most as many as there are things to learn. */
  lemma {:induction false} LearningEnds(rounds: seq<Facts>, universe: set<Atom>)
    requires rounds != [] && forall i | 0 <= i < |rounds| :: Within(rounds[i], universe)
    requires forall i | 0 <= i < |rounds| - 1 :: Tightens(rounds[i], rounds[i + 1]) && Learned(rounds[i], rounds[i + 1])
    ensures |rounds| - 1 + |OpenAtoms(rounds[|rounds| - 1], universe)| <= |OpenAtoms(rounds[0], universe)|
  {
    if |rounds| == 1 {
    } else {
      LearningEnds(rounds[..|rounds| - 1], universe);
      LearningLeavesLess(rounds[|rounds| - 2], rounds[|rounds| - 1], universe);
    }
  }

  /** Everything there is to learn about these candidates on the days of a trip. */
  function Universe(places: set<Place>, days: nat): set<Atom>
  {
    (set p, d: nat | p in places && d < days :: BlockAtom(p, d))
    + (set l, r | l in places && r in places :: PairAtom(l, r))
    + (set d: nat, m: set<Place>, n: nat | d < days && m <= places && n <= |places| :: LimitAtom(Key(d, m), n))
  }

  /** A round's findings are about these candidates and days, and no capacity exceeds its members. */
  ghost predicate About(findings: Findings, places: set<Place>, days: nat)
  {
    && (forall r | r in findings.refusals :: r.place in places && r.day < days)
    && (forall d, q | d in findings.pairs && q in d :: q.0 in places && q.1 in places)
    && (forall c | c in findings.capacities :: c.key.day < days && c.key.members <= places && c.limit <= |c.key.members|)
  }

  lemma LimitsWithin(f: Facts, findings: Findings, protected: set<Place>, t: Facts, places: set<Place>, days: nat, k: Key)
    requires Folds(f, findings, protected, t) && Within(f, Universe(places, days)) && About(findings, places, days) && k in t.limits
    ensures LimitAtom(k, t.limits[k]) in Universe(places, days)
  {
    assert LimitOf(t.limits, k) == Tighter(LimitOf(f.limits, k), Tightest(findings.capacities, k));
    TightestIsLeast(findings.capacities, k);
    if k in f.limits && t.limits[k] == f.limits[k] {
    } else {
      assert Capacity(k, t.limits[k]) in findings.capacities;
      SubsetSize(k.members, places);
    }
  }

  /** A round stays inside the universe. */
  lemma RoundWithin(f: Facts, findings: Findings, protected: set<Place>, t: Facts, places: set<Place>, days: nat)
    requires Folds(f, findings, protected, t) && Within(f, Universe(places, days)) && About(findings, places, days)
    ensures Within(t, Universe(places, days))
  {
    forall p, d | d in DaysOf(t.blocks, p) ensures BlockAtom(p, d) in Universe(places, days) {
      assert DaysOf(t.blocks, p) == DaysOf(f.blocks, p) + Taught(findings.refusals, protected, Members(t.pairs), p);
    }
    forall l, r | (l, r) in t.pairs ensures PairAtom(l, r) in Universe(places, days) {
    }
    forall k | k in t.limits ensures LimitAtom(k, t.limits[k]) in Universe(places, days) {
      LimitsWithin(f, findings, protected, t, places, days, k);
    }
  }

  /** Starting from nothing, rounds that keep learning end: there are at most as many as there is to
      learn about the trip's candidates and days, whatever routing reports. */
  lemma RoundsAreBounded(rounds: seq<Facts>, findings: seq<Findings>, protected: set<Place>, places: set<Place>, days: nat)
    requires |rounds| == |findings| + 1 && rounds[0] == Facts(map[], {}, map[])
    requires forall i | 0 <= i < |findings| :: About(findings[i], places, days)
    requires forall i | 0 <= i < |findings| ::
      Folds(rounds[i], findings[i], protected, rounds[i + 1]) && Learned(rounds[i], rounds[i + 1])
    ensures |findings| <= |Universe(places, days)|
  {
    var universe := Universe(places, days);
    forall i | 0 <= i < |rounds| ensures Within(rounds[i], universe) {
      RoundsWithin(rounds, findings, protected, places, days, i);
    }
    forall i | 0 <= i < |findings| ensures Tightens(rounds[i], rounds[i + 1]) {
      FoldsTightens(rounds[i], findings[i], protected, rounds[i + 1]);
    }
    LearningEnds(rounds, universe);
    assert OpenAtoms(rounds[0], universe) == universe;
  }

  lemma FoldsTightens(f: Facts, findings: Findings, protected: set<Place>, t: Facts)
    requires Folds(f, findings, protected, t)
    ensures Tightens(f, t)
  {
    forall k | k in f.limits ensures k in t.limits && t.limits[k] <= f.limits[k] {
      assert LimitOf(t.limits, k) == Tighter(LimitOf(f.limits, k), Tightest(findings.capacities, k));
    }
  }

  lemma {:induction false} RoundsWithin(rounds: seq<Facts>, findings: seq<Findings>, protected: set<Place>, places: set<Place>, days: nat, i: nat)
    requires |rounds| == |findings| + 1 && rounds[0] == Facts(map[], {}, map[]) && i < |rounds|
    requires forall k | 0 <= k < |findings| :: About(findings[k], places, days) && Folds(rounds[k], findings[k], protected, rounds[k + 1])
    ensures Within(rounds[i], Universe(places, days))
  {
    if i == 0 {
    } else {
      RoundsWithin(rounds, findings, protected, places, days, i - 1);
      assert Folds(rounds[i - 1], findings[i - 1], protected, rounds[i - 1 + 1]);
      RoundWithin(rounds[i - 1], findings[i - 1], protected, rounds[i], places, days);
    }
  }

  // ----- what day assignment makes of the facts -----

  /** A day for each placed candidate. */
  type Plan = map<Place, DayNo>

  function Sharing(plan: Plan, k: Key): set<Place>
  {
    set p | p in k.members && p in plan && plan[p] == k.day
  }

  /** The members somebody pinned to the day. */
  function Forced(pinned: Plan, k: Key): set<Place>
  {
    Sharing(pinned, k)
  }

  /** A capacity is dropped once the pins alone exceed it. */
  ghost predicate CapacityHolds(plan: Plan, pinned: Plan, k: Key, limit: nat)
  {
    |Forced(pinned, k)| > limit || |Sharing(plan, k)| <= limit
  }

  predicate PinnedTogether(pinned: Plan, l: Place, r: Place)
  {
    l in pinned && r in pinned && pinned[l] == pinned[r]
  }

  predicate PairHolds(plan: Plan, pinned: Plan, l: Place, r: Place)
  {
    l == r || PinnedTogether(pinned, l, r) || !(l in plan && r in plan && plan[l] == plan[r])
  }

  /** The constraints the learned facts put on a plan. Required candidates are never blocked. */
  ghost predicate Allows(f: Facts, plan: Plan, pinned: Plan, mustGo: set<Place>)
  {
    && (forall p | p in plan && p !in mustGo && p !in pinned :: plan[p] !in DaysOf(f.blocks, p))
    && (forall l, r | (l, r) in f.pairs :: PairHolds(plan, pinned, l, r))
    && (forall k | k in f.limits :: CapacityHolds(plan, pinned, k, f.limits[k]))
  }

  /** Whatever was learned, a plan of nothing but pinned places on their days is allowed. */
  lemma PinsAreAllowed(f: Facts, plan: Plan, pinned: Plan, mustGo: set<Place>)
    requires forall p | p in plan :: p in pinned && plan[p] == pinned[p]
    ensures Allows(f, plan, pinned, mustGo)
  {
    forall k | k in f.limits ensures CapacityHolds(plan, pinned, k, f.limits[k]) {
      SubsetSize(Sharing(plan, k), Sharing(pinned, k));
    }
  }

  /** Blocks of required or pinned places do not count. */
  lemma RequiredAreNeverBlocked(f: Facts, blocks: map<Place, set<DayNo>>, plan: Plan, pinned: Plan, mustGo: set<Place>)
    requires forall p | p !in mustGo && p !in pinned :: DaysOf(blocks, p) == DaysOf(f.blocks, p)
    ensures Allows(f.(blocks := blocks), plan, pinned, mustGo) <==> Allows(f, plan, pinned, mustGo)
  {
  }

  ghost predicate HonoursPins(plan: Plan, pinned: Plan)
  {
    forall p | p in pinned :: p in plan && plan[p] == pinned[p]
  }

  /** A capacity that constrains days under the old limit still does under the new one. */
  ghost predicate StayInForce(f: Facts, t: Facts, pinned: Plan)
  {
    forall k | k in f.limits && k in t.limits && |Forced(pinned, k)| <= f.limits[k] :: |Forced(pinned, k)| <= t.limits[k]
  }

  /** Whatever is pinned, tighter facts that drop no capacity admit no plan looser ones refused. */
  lemma TighterFactsFewerPlans(f: Facts, t: Facts, plan: Plan, pinned: Plan, mustGo: set<Place>)
    requires Tightens(f, t) && StayInForce(f, t, pinned) && Allows(t, plan, pinned, mustGo)
    ensures Allows(f, plan, pinned, mustGo)
  {
    forall p | p in plan && p !in mustGo && p !in pinned ensures plan[p] !in DaysOf(f.blocks, p) {
      assert DaysOf(f.blocks, p) <= DaysOf(t.blocks, p);
    }
    forall k | k in f.limits ensures CapacityHolds(plan, pinned, k, f.limits[k]) {
      assert CapacityHolds(plan, pinned, k, t.limits[k]);
    }
    forall l, r | (l, r) in f.pairs ensures PairHolds(plan, pinned, l, r) {
      assert (l, r) in t.pairs;
    }
  }

  // ----- a repair run -----

  /** Day assignment pins what a traveler pinned, and every other place with an event date to it. */
  function StagePins(pinned: Plan, dated: Plan): Plan { dated + pinned }

  /** A place goes where a traveler pinned it, or else to the day of its event. */
  lemma StagePinsMean(pinned: Plan, dated: Plan, p: Place)
    ensures p in StagePins(pinned, dated) <==> p in pinned || p in dated
    ensures p in pinned ==> StagePins(pinned, dated)[p] == pinned[p]
    ensures p in dated && p !in pinned ==> StagePins(pinned, dated)[p] == dated[p]
  {
  }

  /** What routing protects: required places and what a traveler pinned, but not event dates. */
  function Protected(mustGo: set<Place>, pinned: Plan): set<Place> { mustGo + pinned.Keys }

  function Bucket(plan: Plan, day: DayNo): set<Place> { set p | p in plan && plan[p] == day }

  /** A capacity is measured on a whole day of the plan: its protected places are seated, and not
      all of its places are. */
  ghost predicate Measured(findings: Findings, plan: Plan, protected: set<Place>)
  {
    forall c | c in findings.capacities ::
      && c.key.members == Bucket(plan, c.key.day)
      && |protected * c.key.members| <= c.limit < |c.key.members|
  }

  datatype Round = Round(facts: Facts, plan: Plan, findings: Findings)

  /** Rounds of repair from nothing known to `last`: each plan is one day assignment allows under
      the facts so far, is measured, and what is found is folded in. */
  ghost predicate RepairRun(rounds: seq<Round>, last: Facts, pinned: Plan, dated: Plan, mustGo: set<Place>)
  {
    && FactsAt(rounds, last, 0) == Facts(map[], {}, map[])
    && forall i: nat | i < |rounds| :: FitsAt(rounds, last, i, pinned, dated, mustGo)
  }

  ghost predicate FitsAt(rounds: seq<Round>, last: Facts, i: nat, pinned: Plan, dated: Plan, mustGo: set<Place>)
    requires i < |rounds|
  {
    RoundFits(rounds[i], FactsAt(rounds, last, i + 1), pinned, dated, mustGo)
  }

  ghost predicate RoundFits(round: Round, next: Facts, pinned: Plan, dated: Plan, mustGo: set<Place>)
  {
    && Allows(round.facts, round.plan, StagePins(pinned, dated), mustGo)
    && Measured(round.findings, round.plan, Protected(mustGo, pinned))
    && Folds(round.facts, round.findings, Protected(mustGo, pinned), next)
  }

  function FactsAt(rounds: seq<Round>, last: Facts, i: nat): Facts
    requires i <= |rounds|
  {
    if i < |rounds| then rounds[i].facts else last
  }

  /** A learned limit leaves a member out, and has room for whatever a traveler pinned to the day. */
  ghost predicate LimitsFit(f: Facts, pinned: Plan)
  {
    forall k | k in f.limits :: |Forced(pinned, k)| <= f.limits[k] < |k.members|
  }

  lemma FoundLimit(f: Facts, findings: Findings, protected: set<Place>, t: Facts, k: Key)
    requires Folds(f, findings, protected, t) && k in t.limits
    ensures (k in f.limits && t.limits[k] == f.limits[k]) || Capacity(k, t.limits[k]) in findings.capacities
  {
    assert LimitOf(t.limits, k) == Tighter(LimitOf(f.limits, k), Tightest(findings.capacities, k));
    TightestIsLeast(findings.capacities, k);
  }

  lemma RoundKeepsLimits(round: Round, t: Facts, pinned: Plan, dated: Plan, mustGo: set<Place>)
    requires RoundFits(round, t, pinned, dated, mustGo) && LimitsFit(round.facts, pinned)
    ensures LimitsFit(t, pinned)
  {
    var protected := Protected(mustGo, pinned);
    forall k | k in t.limits ensures |Forced(pinned, k)| <= t.limits[k] < |k.members| {
      FoundLimit(round.facts, round.findings, protected, t, k);
      SubsetSize(Forced(pinned, k), protected * k.members);
    }
  }

  lemma MeasuredFills(findings: Findings, plan: Plan, protected: set<Place>, k: Key, limit: nat)
    requires Measured(findings, plan, protected)
    ensures Capacity(k, limit) in findings.capacities ==> Sharing(plan, k) == k.members && limit < |k.members|
  {
    if Capacity(k, limit) in findings.capacities {
      assert k.members == Bucket(plan, k.day);
    }
  }

  /** A capacity in force is not measured again: no allowed plan fills its day with those places. */
  lemma InForceNotLowered(round: Round, t: Facts, pinned: Plan, dated: Plan, mustGo: set<Place>, k: Key)
    requires RoundFits(round, t, pinned, dated, mustGo) && LimitsFit(round.facts, pinned)
    requires k in round.facts.limits && k in t.limits && |Forced(StagePins(pinned, dated), k)| <= round.facts.limits[k]
    ensures t.limits[k] == round.facts.limits[k]
  {
    var protected := Protected(mustGo, pinned);
    FoundLimit(round.facts, round.findings, protected, t, k);
    MeasuredFills(round.findings, round.plan, protected, k, t.limits[k]);
    assert CapacityHolds(round.plan, StagePins(pinned, dated), k, round.facts.limits[k]);
  }

  /** So a round puts none out of force. */
  lemma RoundKeepsForce(round: Round, t: Facts, pinned: Plan, dated: Plan, mustGo: set<Place>)
    requires RoundFits(round, t, pinned, dated, mustGo) && LimitsFit(round.facts, pinned)
    ensures Tightens(round.facts, t) && StayInForce(round.facts, t, StagePins(pinned, dated))
  {
    var f, pins := round.facts, StagePins(pinned, dated);
    FoldsTightens(f, round.findings, Protected(mustGo, pinned), t);
    forall k | k in f.limits && k in t.limits && |Forced(pins, k)| <= f.limits[k] ensures t.limits[k] == f.limits[k] {
      InForceNotLowered(round, t, pinned, dated, mustGo, k);
    }
  }

  /** What round `i` of a run makes of its facts. */
  lemma StepOfRun(rounds: seq<Round>, last: Facts, pinned: Plan, dated: Plan, mustGo: set<Place>, i: nat, f: Facts, t: Facts)
    requires RepairRun(rounds, last, pinned, dated, mustGo) && i < |rounds| && LimitsFit(f, pinned)
    requires f == FactsAt(rounds, last, i) && t == FactsAt(rounds, last, i + 1)
    ensures LimitsFit(t, pinned) && Tightens(f, t) && StayInForce(f, t, StagePins(pinned, dated))
  {
    assert FitsAt(rounds, last, i, pinned, dated, mustGo);
    RoundKeepsLimits(rounds[i], t, pinned, dated, mustGo);
    RoundKeepsForce(rounds[i], t, pinned, dated, mustGo);
  }

  lemma {:induction false} RunKeepsLimits(rounds: seq<Round>, last: Facts, pinned: Plan, dated: Plan, mustGo: set<Place>, i: nat, f: Facts)
    requires RepairRun(rounds, last, pinned, dated, mustGo) && i <= |rounds| && f == FactsAt(rounds, last, i)
    ensures LimitsFit(f, pinned)
    decreases i
  {
    if i == 0 {
    } else {
      var before := FactsAt(rounds, last, i - 1);
      RunKeepsLimits(rounds, last, pinned, dated, mustGo, i - 1, before);
      StepOfRun(rounds, last, pinned, dated, mustGo, i - 1, before, f);
    }
  }

  /** Repair only ever refuses more: whatever is pinned or dated, no later round admits a plan that an
      earlier one refused. */
  lemma {:induction false} LaterRoundsRefuseMore(
    rounds: seq<Round>, last: Facts, pinned: Plan, dated: Plan, mustGo: set<Place>, i: nat, j: nat, plan: Plan)
    requires RepairRun(rounds, last, pinned, dated, mustGo) && i <= j <= |rounds|
    requires Allows(FactsAt(rounds, last, j), plan, StagePins(pinned, dated), mustGo)
    ensures Allows(FactsAt(rounds, last, i), plan, StagePins(pinned, dated), mustGo)
    decreases j
  {
    if i == j {
    } else {
      var f, t := FactsAt(rounds, last, j - 1), FactsAt(rounds, last, j);
      RunKeepsLimits(rounds, last, pinned, dated, mustGo, j - 1, f);
      StepOfRun(rounds, last, pinned, dated, mustGo, j - 1, f, t);
      TighterFactsFewerPlans(f, t, plan, StagePins(pinned, dated), mustGo);
      LaterRoundsRefuseMore(rounds, last, pinned, dated, mustGo, i, j - 1, plan);
    }
  }

  /** The plan repeats nothing a round found out: no place on a day that refused it for good, unless
      required or pinned, or one of a pair that explains it; no two places of a pair on one day, unless
      both are pinned there; and on a measured day no more of its places than can be seated, unless
      more are pinned there than the tightest limit known. */
  ghost predicate Heeds(plan: Plan, findings: Findings, t: Facts, pins: Plan, mustGo: set<Place>, protected: set<Place>)
  {
    && (forall r | r in findings.refusals && (r.code == ClosedOnAvailableDays || r.code == NoMealSlot)
          && r.place !in protected && (forall q | q in t.pairs :: r.place != q.0 && r.place != q.1)
          && r.place !in mustGo && r.place !in pins && r.place in plan :: plan[r.place] != r.day)
    && (forall d, q | d in findings.pairs && q in d && q.0 != q.1 && q.0 in plan && q.1 in plan && plan[q.0] == plan[q.1] ::
          q.0 in pins && q.1 in pins && pins[q.0] == pins[q.1])
    && (forall c | c in findings.capacities && c.key in t.limits :: |Sharing(plan, c.key)| <= c.limit || |Sharing(pins, c.key)| > t.limits[c.key])
  }

  lemma AllowedHeeds(f: Facts, findings: Findings, t: Facts, plan: Plan, pins: Plan, mustGo: set<Place>, protected: set<Place>)
    requires Folds(f, findings, protected, t) && Allows(t, plan, pins, mustGo)
    ensures Heeds(plan, findings, t, pins, mustGo, protected)
  {
    forall r | r in findings.refusals && Unary(r.code) && r.place !in protected && (forall q | q in t.pairs :: r.place != q.0 && r.place != q.1)
      && r.place !in mustGo && r.place !in pins && r.place in plan ensures plan[r.place] != r.day
    {
      assert r.day in Taught(findings.refusals, protected, Members(t.pairs), r.place);
      assert r.day in DaysOf(t.blocks, r.place);
    }
    forall d, q | d in findings.pairs && q in d && q.0 != q.1 && q.0 in plan && q.1 in plan && plan[q.0] == plan[q.1]
      ensures q.0 in pins && q.1 in pins && pins[q.0] == pins[q.1]
    {
      assert q in t.pairs && q == (q.0, q.1);
      assert PairHolds(plan, pins, q.0, q.1);
    }
    forall c | c in findings.capacities && c.key in t.limits
      ensures |Sharing(plan, c.key)| <= c.limit || |Sharing(pins, c.key)| > t.limits[c.key]
    {
      assert LimitOf(t.limits, c.key) == Tighter(LimitOf(f.limits, c.key), Tightest(findings.capacities, c.key));
      TightestIsLeast(findings.capacities, c.key);
      assert CapacityHolds(plan, pins, c.key, t.limits[c.key]);
    }
  }

  /** No later plan repeats what a round found out. */
  lemma LaterPlansHeed(rounds: seq<Round>, last: Facts, pinned: Plan, dated: Plan, mustGo: set<Place>, i: nat, j: nat)
    requires RepairRun(rounds, last, pinned, dated, mustGo) && i < j < |rounds|
    ensures var t := FactsAt(rounds, last, i + 1);
      && Heeds(rounds[j].plan, rounds[i].findings, t, StagePins(pinned, dated), mustGo, Protected(mustGo, pinned))
      && forall c | c in rounds[i].findings.capacities :: c.key in t.limits && t.limits[c.key] <= c.limit
  {
    var t, pins := FactsAt(rounds, last, i + 1), StagePins(pinned, dated);
    assert FitsAt(rounds, last, i, pinned, dated, mustGo) && FitsAt(rounds, last, j, pinned, dated, mustGo);
    LaterRoundsRefuseMore(rounds, last, pinned, dated, mustGo, i + 1, j, rounds[j].plan);
    HeedsNow(rounds[i], t, rounds[j].plan, pinned, dated, mustGo);
  }

  lemma HeedsNow(round: Round, t: Facts, plan: Plan, pinned: Plan, dated: Plan, mustGo: set<Place>)
    requires RoundFits(round, t, pinned, dated, mustGo) && Allows(t, plan, StagePins(pinned, dated), mustGo)
    ensures Heeds(plan, round.findings, t, StagePins(pinned, dated), mustGo, Protected(mustGo, pinned))
    ensures forall c | c in round.findings.capacities :: c.key in t.limits && t.limits[c.key] <= c.limit
  {
    AllowedHeeds(round.facts, round.findings, t, plan, StagePins(pinned, dated), mustGo, Protected(mustGo, pinned));
    forall c | c in round.findings.capacities ensures c.key in t.limits && t.limits[c.key] <= c.limit {
      MeasuredPlanRefusedIff(round, t, pinned, dated, mustGo, c);
    }
  }

  /** The plan a capacity was measured on is refused by it from then on exactly when the limit has room
      for the places pinned or dated to the day. */
  lemma MeasuredPlanRefusedIff(round: Round, t: Facts, pinned: Plan, dated: Plan, mustGo: set<Place>, c: Capacity)
    requires RoundFits(round, t, pinned, dated, mustGo) && c in round.findings.capacities
    ensures c.key in t.limits && t.limits[c.key] <= c.limit
    ensures var pins := StagePins(pinned, dated);
      !CapacityHolds(round.plan, pins, c.key, t.limits[c.key]) <==> |Forced(pins, c.key)| <= t.limits[c.key]
  {
    assert LimitOf(t.limits, c.key) == Tighter(LimitOf(round.facts.limits, c.key), Tightest(round.findings.capacities, c.key));
    TightestIsLeast(round.findings.capacities, c.key);
    MeasuredFills(round.findings, round.plan, Protected(mustGo, pinned), c.key, c.limit);
  }

  /** Every limit known has room for the places pinned or dated to its day. */
  ghost predicate AllFit(f: Facts, pins: Plan)
  {
    forall k | k in f.limits :: |Forced(pins, k)| <= f.limits[k]
  }

  lemma RoundKeepsFit(round: Round, t: Facts, pinned: Plan, dated: Plan, mustGo: set<Place>)
    requires RoundFits(round, t, pinned, dated, mustGo) && dated.Keys <= Protected(mustGo, pinned)
    requires AllFit(round.facts, StagePins(pinned, dated))
    ensures AllFit(t, StagePins(pinned, dated))
  {
    var pins, protected := StagePins(pinned, dated), Protected(mustGo, pinned);
    forall k | k in t.limits ensures |Forced(pins, k)| <= t.limits[k] {
      FoundLimit(round.facts, round.findings, protected, t, k);
      SubsetSize(Forced(pins, k), protected * k.members);
    }
  }

  lemma {:induction false} RunKeepsFit(rounds: seq<Round>, last: Facts, pinned: Plan, dated: Plan, mustGo: set<Place>, i: nat, f: Facts)
    requires RepairRun(rounds, last, pinned, dated, mustGo) && dated.Keys <= Protected(mustGo, pinned)
    requires i <= |rounds| && f == FactsAt(rounds, last, i)
    ensures AllFit(f, StagePins(pinned, dated))
    decreases i
  {
    if i == 0 {
    } else {
      RunKeepsFit(rounds, last, pinned, dated, mustGo, i - 1, FactsAt(rounds, last, i - 1));
      assert FitsAt(rounds, last, i - 1, pinned, dated, mustGo);
      RoundKeepsFit(rounds[i - 1], f, pinned, dated, mustGo);
    }
  }

  /** That is always so when every dated place is protected. */
  lemma ProtectedDatesKeepForce(rounds: seq<Round>, last: Facts, pinned: Plan, dated: Plan, mustGo: set<Place>, i: nat, c: Capacity)
    requires RepairRun(rounds, last, pinned, dated, mustGo) && i < |rounds| && c in rounds[i].findings.capacities
    requires dated.Keys <= Protected(mustGo, pinned)
    ensures !Allows(FactsAt(rounds, last, i + 1), rounds[i].plan, StagePins(pinned, dated), mustGo)
  {
    var t := FactsAt(rounds, last, i + 1);
    assert FitsAt(rounds, last, i, pinned, dated, mustGo);
    RunKeepsFit(rounds, last, pinned, dated, mustGo, i + 1, t);
    RefusedNow(rounds[i], t, pinned, dated, mustGo, c);
  }

  lemma RefusedNow(round: Round, t: Facts, pinned: Plan, dated: Plan, mustGo: set<Place>, c: Capacity)
    requires RoundFits(round, t, pinned, dated, mustGo) && c in round.findings.capacities
    requires AllFit(t, StagePins(pinned, dated))
    ensures !Allows(t, round.plan, StagePins(pinned, dated), mustGo)
  {
    MeasuredPlanRefusedIff(round, t, pinned, dated, mustGo, c);
  }

  const BOTH: Plan := map[0 := 0, 1 := 0]
  const BOTH_KEY: Key := Key(0, {0, 1})
  const NOTHING_KNOWN: Facts := Facts(map[], {}, map[])
  const ONE_SEAT: Facts := Facts(map[], {}, map[BOTH_KEY := 1])
  const ONE_SEATED: Round := Round(NOTHING_KNOWN, BOTH, Findings([], [], [Capacity(BOTH_KEY, 1)]))

  lemma BothShare()
    ensures Bucket(BOTH, 0) == {0, 1} && Sharing(BOTH, BOTH_KEY) == {0, 1} && |{0, 1}| == 2
    ensures Forced(StagePins(map[], BOTH), BOTH_KEY) == {0, 1}
  {
    assert StagePins(map[], BOTH) == BOTH;
  }

  lemma OneSeatMeasured()
    ensures Measured(ONE_SEATED.findings, BOTH, Protected({}, map[]))
  {
    BothShare();
    var nobody: set<Place> := {};
    assert Protected({}, map[]) * BOTH_KEY.members == nobody;
  }

  lemma OneSeatFolds(protected: set<Place>)
    ensures Folds(NOTHING_KNOWN, ONE_SEATED.findings, protected, ONE_SEAT)
  {
    var found := ONE_SEATED.findings.capacities;
    assert found[..0] == [];
    forall k ensures LimitOf(ONE_SEAT.limits, k) == Tighter(None, Tightest(found, k)) {
      assert Tightest(found[..0], k) == None;
    }
  }

  /** Two places dated to one day that can seat only one of them: the capacity found is dropped, so the
      round learns something and the plan it was measured on stays allowed. */
  lemma DatedCapacityDropped()
    ensures RepairRun([ONE_SEATED], ONE_SEAT, map[], BOTH, {}) && Learned(ONE_SEATED.facts, ONE_SEAT)
    ensures Allows(ONE_SEAT, BOTH, StagePins(map[], BOTH), {})
  {
    BothShare();
    OneSeatMeasured();
    OneSeatFolds(Protected({}, map[]));
    assert BOTH_KEY in ONE_SEAT.limits;
    assert RoundFits(ONE_SEATED, ONE_SEAT, map[], BOTH, {});
    var rounds := [ONE_SEATED];
    forall i: nat | i < |rounds| ensures FitsAt(rounds, ONE_SEAT, i, map[], BOTH, {}) {
    }
  }

  /** The members a plan that honours the pins may put on the day. */
  function Movable(pinned: Plan, k: Key): set<Place>
  {
    set p | p in k.members && (p in pinned ==> pinned[p] == k.day)
  }

  /** A capacity handed to day assignment from elsewhere may fall below the pins. Lowering it keeps
      every refusal exactly unless the pins lie between the two limits and the day could still hold
      more members than the old one. */
  lemma LoweringTightensIff(pinned: Plan, k: Key, limit: nat, lower: nat)
    requires lower < limit
    ensures (forall plan: Plan | HonoursPins(plan, pinned) && CapacityHolds(plan, pinned, k, lower) ::
               CapacityHolds(plan, pinned, k, limit))
       <==> !(lower < |Forced(pinned, k)| <= limit < |Movable(pinned, k)|)
  {
    var forced, movable := Forced(pinned, k), Movable(pinned, k);
    if lower < |forced| <= limit < |movable| {
      var plan := pinned + map p | p in movable :: k.day;
      assert HonoursPins(plan, pinned);
      assert Sharing(plan, k) == movable;
      assert !CapacityHolds(plan, pinned, k, limit);
    } else {
      forall plan: Plan | HonoursPins(plan, pinned) && CapacityHolds(plan, pinned, k, lower)
        ensures CapacityHolds(plan, pinned, k, limit)
      {
        assert Sharing(plan, k) <= movable;
        SubsetSize(Sharing(plan, k), movable);
      }
    }
  }

  /** Two of three places are pinned to a day: with room for two the third is refused there, with room
      for one it is not. */
  lemma LoweringAdmitsMore()
    ensures var pinned: Plan, plan: Plan, key := map[0 := 0, 1 := 0], map[0 := 0, 1 := 0, 2 := 0], Key(0, {0, 1, 2});
      && HonoursPins(plan, pinned) && CapacityHolds(plan, pinned, key, 1) && !CapacityHolds(plan, pinned, key, 2)
  {
    var pinned: Plan, plan: Plan, key := map[0 := 0, 1 := 0], map[0 := 0, 1 := 0, 2 := 0], Key(0, {0, 1, 2});
    assert Forced(pinned, key) == {0, 1} && |{0, 1}| == 2;
    assert Sharing(plan, key) == {0, 1, 2} && |{0, 1, 2}| == 3;
  }
}
