/** The adaptive search planner of one city. */
module SearchPlanner {
  // The planner is in syncinerary/agents/gather/social_search.py, the loop that drives it is
  // `mine_city` in syncinerary/agents/gather/social.py.

  import opened Schedule
  import opened Sums
  import opened SearchLog
  import opened Lanes
  import opened Lists
  import opened PlannerRules
  import Sorting

  /** A query exists unless it would need a local name nobody translated. */
  predicate Buildable(cfg: Config) { !cfg.chinese || cfg.hasLocalName }

  /** A lane's shortfall as a fraction of its target. */
  datatype Deficit = Deficit(missing: nat, target: nat)

  function DeficitOf(supply: nat, target: nat): Deficit
  {
    if target == 0 then Deficit(0, 1) else Deficit(if supply < target then target - supply else 0, target)
  }

  function ForYouDeficit(cfg: Config, supply: Supply): Deficit
  {
    DeficitOf(supply.forYou, LaneSlots(cfg.targetCandidates).forYou)
  }

  function TrendingDeficit(cfg: Config, supply: Supply): Deficit
  {
    DeficitOf(supply.trending, LaneSlots(cfg.targetCandidates).trending)
  }

  predicate ForYouWorse(cfg: Config, supply: Supply)
  {
    var f, t := ForYouDeficit(cfg, supply), TrendingDeficit(cfg, supply);
    f.missing * t.target >= t.missing * f.target
  }

  predicate TargetMet(cfg: Config, supply: Supply)
  {
    && cfg.targetCandidates > 0
    && supply.reels >= cfg.reelTarget && supply.food >= cfg.foodTarget && supply.attractions >= cfg.attractionTarget
    && ForYouDeficit(cfg, supply).missing == 0 && TrendingDeficit(cfg, supply).missing == 0
  }

  /** An intent nobody asked yet stays unasked only when nothing can be asked for it. */
  predicate OpeningDone(cfg: Config, log: seq<Action>)
  {
    forall k: IntentType ::
      Total(log, OfKind(k), One) > 0 || !Buildable(cfg) || cfg.platforms == [] || cfg.maxAttempts == 0
  }

  /** What must be true of the log and the supply for each way to stop. */
  predicate Justified(cfg: Config, log: seq<Action>, supply: Supply, reason: StopReason)
  {
    match reason
    case SearchBudgetReached => |log| >= cfg.maxSearches
    case VerificationBudgetReached => supply.exhausted
    case TargetReached => TargetMet(cfg, supply)
    case ProviderUnavailable => TrailingRun(log, Failed()) >= cfg.maxProviderErrors
    case LowYieldStop =>
      && OpeningDone(cfg, log)
      && (|| TrailingRun(NonErrors(log), LowYield(cfg.lowYieldNewPlaces)) >= cfg.maxLowYield
          || TrailingRun(NonErrors(log), Duplicates()) >= cfg.maxDuplicateHeavy)
    case NoSearchActionsLeft =>
      && OpeningDone(cfg, log)
      && (|| (&& supply.discovered == 0 && |log| < cfg.coldStartMax
              && forall p, k | p in cfg.platforms ::
                   !IsAvailable(cfg, log, Intent(p, k, Normal)) && !IsAvailable(cfg, log, Intent(p, k, Broad)))
          || forall p, k | p in cfg.platforms :: !IsAvailable(cfg, log, Intent(p, k, Specific)))
  }

  /** The stops that come before the opening. */
  predicate EarlyStop(cfg: Config, log: seq<Action>, supply: Supply)
  {
    || |log| >= cfg.maxSearches || supply.exhausted || TargetMet(cfg, supply)
    || TrailingRun(log, Failed()) >= cfg.maxProviderErrors
  }

  function StatsAt<K>(m: map<K, Stats>, k: K): Stats { if k in m then m[k] else NoStats }

  /** The priority tuple: proven unproductive last, then the configured order, then yield per
      search, then fewest searches. */
  function ByPriority(cfg: Config, stats: map<Platform, Stats>): (Platform, Platform) -> bool
  {
    (p: Platform, q: Platform) =>
      var a, b := StatsAt(stats, p), StatsAt(stats, q);
      var pBad, qBad := a.searches >= cfg.probeMin && a.newPlaces == 0, b.searches >= cfg.probeMin && b.newPlaces == 0;
      var i, j := Index(cfg.platforms, p), Index(cfg.platforms, q);
      var aYield, bYield := a.newPlaces * Max(b.searches, 1), b.newPlaces * Max(a.searches, 1);
      if pBad != qBad then qBad
      else if i != j then i < j
      else if aYield != bYield then aYield > bYield
      else a.searches <= b.searches
  }

  function ByFewestSearches(stats: map<Platform, Stats>): (Platform, Platform) -> bool
  {
    (p: Platform, q: Platform) => StatsAt(stats, p).searches <= StatsAt(stats, q).searches
  }

  /** Within a lane: what has produced least, then what was asked least, then the opening order. */
  function ByLeastProduced(stats: map<IntentType, Stats>): (IntentType, IntentType) -> bool
  {
    (k: IntentType, l: IntentType) =>
      var a, b := StatsAt(stats, k), StatsAt(stats, l);
      if a.newPlaces != b.newPlaces then a.newPlaces < b.newPlaces
      else if a.searches != b.searches then a.searches < b.searches
      else KindIndex(k) <= KindIndex(l)
  }

  function ByNewPlaces(stats: map<IntentType, Stats>): (IntentType, IntentType) -> bool
  {
    (k: IntentType, l: IntentType) => StatsAt(stats, k).newPlaces <= StatsAt(stats, l).newPlaces
  }

  function Asks(ps: seq<Platform>, k: IntentType): seq<Intent>
  {
    seq(|ps|, i requires 0 <= i < |ps| => Intent(ps[i], k, Specific))
  }

  lemma AsksCover(ps: seq<Platform>, k: IntentType)
    ensures forall p | p in ps :: Intent(p, k, Specific) in Asks(ps, k)
  {
    forall p | p in ps ensures Intent(p, k, Specific) in Asks(ps, k) {
      var j :| 0 <= j < |ps| && ps[j] == p;
      assert Asks(ps, k)[j] == Intent(p, k, Specific);
    }
  }

  lemma AllKindsListed()
    ensures forall k: IntentType :: k in OPENING_SEQUENCE
  {
    assert OPENING_SEQUENCE[0] == Places && OPENING_SEQUENCE[1] == Food && OPENING_SEQUENCE[2] == HiddenGems;
    forall k: IntentType ensures k in OPENING_SEQUENCE {
      match k { case Places => case Food => case HiddenGems => }
    }
  }

  function ColdHead(p: Platform): seq<Intent>
  {
    [Intent(p, Places, Normal), Intent(p, Places, Broad), Intent(p, Food, Normal), Intent(p, Food, Broad),
     Intent(p, HiddenGems, Normal), Intent(p, HiddenGems, Broad)]
  }

  lemma ColdHeadCovers(p: Platform)
    ensures forall k: IntentType :: Intent(p, k, Normal) in ColdHead(p) && Intent(p, k, Broad) in ColdHead(p)
    ensures forall i | i in ColdHead(p) :: i.platform == p
  {
    var r := ColdHead(p);
    assert r[0] in r && r[1] in r && r[2] in r && r[3] in r && r[4] in r && r[5] in r;
    forall k: IntentType ensures Intent(p, k, Normal) in r && Intent(p, k, Broad) in r {
      match k { case Places => case Food => case HiddenGems => }
    }
  }

  /** Every kind in full, then every kind with fewer words. */
  function ReelList(kinds: seq<IntentType>): seq<Intent>
    requires |kinds| == 3
  {
    [Intent(Instagram, kinds[0], Specific), Intent(Instagram, kinds[1], Specific), Intent(Instagram, kinds[2], Specific),
     Intent(Instagram, kinds[0], Normal), Intent(Instagram, kinds[1], Normal), Intent(Instagram, kinds[2], Normal)]
  }

  function Broadened(intent: Intent): seq<Intent>
  {
    match intent.specificity
    case Specific => [intent.(specificity := Normal)]
    case Normal => [intent.(specificity := Broad)]
    case Broad => []
  }

  lemma PlatformsGrow(log: seq<Action>, a: Action, platforms: seq<Platform>)
    requires PlatformsWithin(log, platforms) && a.intent.platform in platforms
    ensures PlatformsWithin(log + [a], platforms)
  {
  }

  /** The stats count what the log says. */
  ghost predicate StatsFit(log: seq<Action>, attempts: map<(Platform, IntentType), nat>, platformStats: map<Platform, Stats>,
                           intentStats: map<IntentType, Stats>, pairStats: map<(Platform, IntentType), Stats>)
  {
    && (forall p, k :: (if (p, k) in attempts then attempts[(p, k)] else 0) == Attempts(log, p, k))
    && (forall p :: StatsAt(platformStats, p) == StatsOf(log, OfPlatform(p)))
    && (forall k :: StatsAt(intentStats, k) == StatsOf(log, OfKind(k)))
    && (forall p, k :: StatsAt(pairStats, (p, k)) == StatsOf(log, OfPair(p, k)))
  }

  /** The consecutive counters are trailing runs: of the log itself for provider errors, of
      the log without them for the others. */
  ghost predicate RunsFit(cfg: Config, log: seq<Action>, lowYield: nat, zeroYield: nat, duplicateHeavy: nat, providerErrors: nat)
  {
    && lowYield == TrailingRun(NonErrors(log), LowYield(cfg.lowYieldNewPlaces))
    && zeroYield == TrailingRun(NonErrors(log), ZeroYield())
    && duplicateHeavy == TrailingRun(NonErrors(log), Duplicates())
    && providerErrors == TrailingRun(log, Failed())
  }

  lemma RunExtends(log: seq<Action>, a: Action, p: Action -> bool)
    ensures TrailingRun(log + [a], p) == if p(a) then TrailingRun(log, p) + 1 else 0
  {
    assert (log + [a])[..|log|] == log;
  }

  lemma NonErrorsExtend(log: seq<Action>, a: Action)
    ensures NonErrors(log + [a]) == if a.outcome.failed then NonErrors(log) else NonErrors(log) + [a]
  {
    assert (log + [a])[..|log|] == log;
  }

  /** What one search does to the counters. */
  lemma RunsGrow(cfg: Config, log: seq<Action>, a: Action, lowYield: nat, zeroYield: nat, duplicateHeavy: nat, errors: nat)
    requires RunsFit(cfg, log, lowYield, zeroYield, duplicateHeavy, errors)
    ensures var o := a.outcome;
      if o.failed then RunsFit(cfg, log + [a], lowYield, zeroYield, duplicateHeavy, errors + 1)
      else RunsFit(cfg, log + [a], if o.newPlaces <= cfg.lowYieldNewPlaces then lowYield + 1 else 0,
                   if o.newPlaces == 0 then zeroYield + 1 else 0, if YieldOf(o) == DuplicateHeavy then duplicateHeavy + 1 else 0, 0)
  {
    NonErrorsExtend(log, a);
    RunExtends(log, a, Failed());
    RunExtends(NonErrors(log), a, LowYield(cfg.lowYieldNewPlaces));
    RunExtends(NonErrors(log), a, ZeroYield());
    RunExtends(NonErrors(log), a, Duplicates());
  }

  lemma AttemptsGrow(m: map<(Platform, IntentType), nat>, log: seq<Action>, a: Action)
    requires forall p, k :: (if (p, k) in m then m[(p, k)] else 0) == Attempts(log, p, k)
    ensures var key := (a.intent.platform, a.intent.kind);
      var more := m[key := (if key in m then m[key] else 0) + 1];
      forall p, k :: (if (p, k) in more then more[(p, k)] else 0) == Attempts(log + [a], p, k)
  {
    forall p, k { TotalExtend(log, a, OfPair(p, k), One); }
  }

  lemma PlatformStatsGrow(m: map<Platform, Stats>, log: seq<Action>, a: Action)
    requires forall p :: StatsAt(m, p) == StatsOf(log, OfPlatform(p))
    ensures var q := a.intent.platform;
      forall p :: StatsAt(m[q := Record(StatsAt(m, q), a.outcome)], p) == StatsOf(log + [a], OfPlatform(p))
  {
    forall p { StatsExtend(log, a, OfPlatform(p)); }
  }

  lemma IntentStatsGrow(m: map<IntentType, Stats>, log: seq<Action>, a: Action)
    requires forall k :: StatsAt(m, k) == StatsOf(log, OfKind(k))
    ensures var l := a.intent.kind;
      forall k :: StatsAt(m[l := Record(StatsAt(m, l), a.outcome)], k) == StatsOf(log + [a], OfKind(k))
  {
    forall k { StatsExtend(log, a, OfKind(k)); }
  }

  lemma PairStatsGrow(m: map<(Platform, IntentType), Stats>, log: seq<Action>, a: Action)
    requires forall p, k :: StatsAt(m, (p, k)) == StatsOf(log, OfPair(p, k))
    ensures var key := (a.intent.platform, a.intent.kind);
      forall p, k :: StatsAt(m[key := Record(StatsAt(m, key), a.outcome)], (p, k)) == StatsOf(log + [a], OfPair(p, k))
  {
    forall p, k { StatsExtend(log, a, OfPair(p, k)); }
  }

  class SearchState {
    const cfg: Config
    var log: seq<Action>
    var attempts: map<(Platform, IntentType), nat>
    var platformStats: map<Platform, Stats>
    var intentStats: map<IntentType, Stats>
    var pairStats: map<(Platform, IntentType), Stats>
    var lowYield: nat
    var zeroYield: nat
    var duplicateHeavy: nat
    var providerErrors: nat
    var supply: Supply
    var stopReason: Option<StopReason>

    ghost predicate StatsAgree()
      reads this
    {
      StatsFit(log, attempts, platformStats, intentStats, pairStats)
    }

    ghost predicate RunsAgree(searched: seq<Action>)
      reads this
    {
      RunsFit(cfg, searched, lowYield, zeroYield, duplicateHeavy, providerErrors)
    }

    ghost predicate Valid()
      reads this
    {
      PlatformsWithin(log, cfg.platforms) && StatsAgree() && RunsAgree(log)
    }

    constructor (cfg: Config, supply: Supply)
      ensures Valid() && this.cfg == cfg && log == [] && this.supply == supply && stopReason == None
    {
      this.cfg, this.supply, this.stopReason := cfg, supply, None;
      log, attempts, platformStats, intentStats, pairStats := [], map[], map[], map[], map[];
      lowYield, zeroYield, duplicateHeavy, providerErrors := 0, 0, 0, 0;
    }

    method RecordStats(action: Action)
      requires StatsAgree()
      modifies this`log, this`attempts, this`platformStats, this`intentStats, this`pairStats
      ensures StatsAgree() && log == old(log) + [action]
    {
      var p, k := action.intent.platform, action.intent.kind;
      PlatformStatsGrow(platformStats, log, action);
      IntentStatsGrow(intentStats, log, action);
      PairStatsGrow(pairStats, log, action);
      AttemptsGrow(attempts, log, action);
      attempts := attempts[(p, k) := (if (p, k) in attempts then attempts[(p, k)] else 0) + 1];
      log := log + [action];
      platformStats := platformStats[p := Record(StatsAt(platformStats, p), action.outcome)];
      intentStats := intentStats[k := Record(StatsAt(intentStats, k), action.outcome)];
      pairStats := pairStats[(p, k) := Record(StatsAt(pairStats, (p, k)), action.outcome)];
    }

    /** A provider error is no evidence of an empty search space and moves no exhaustion counter. */
    method AdvanceCounters(ghost before: seq<Action>, action: Action)
      requires RunsAgree(before)
      modifies this`lowYield, this`zeroYield, this`duplicateHeavy, this`providerErrors
      ensures RunsAgree(before + [action])
    {
      RunsGrow(cfg, before, action, lowYield, zeroYield, duplicateHeavy, providerErrors);
      var outcome := action.outcome;
      if outcome.failed {
        providerErrors := providerErrors + 1;
        return;
      }
      providerErrors := 0;
      lowYield := if outcome.newPlaces <= cfg.lowYieldNewPlaces then lowYield + 1 else 0;
      zeroYield := if outcome.newPlaces == 0 then zeroYield + 1 else 0;
      duplicateHeavy := if YieldOf(outcome) == DuplicateHeavy then duplicateHeavy + 1 else 0;
    }

    /** Fold one search's result into the state the next decision reads. */
    method Update(intent: Intent, outcome: Outcome)
      requires Valid() && intent.platform in cfg.platforms
      modifies this
      ensures Valid() && log == old(log) + [Action(intent, outcome)]
      ensures supply == old(supply) && stopReason == old(stopReason)
    {
      ghost var before := log;
      var action := Action(intent, outcome);
      RecordStats(action);
      AdvanceCounters(before, action);
      PlatformsGrow(before, action, cfg.platforms);
    }

    // ----- choosing -----

    /** Whether the planner may still spend a search on this intent. */
    predicate Available(intent: Intent)
      requires Valid()
      reads this
      ensures Available(intent) == IsAvailable(cfg, log, intent)
    {
      var key := (intent.platform, intent.kind);
      Buildable(cfg) && !HasRun(log, intent) && (if key in attempts then attempts[key] else 0) < cfg.maxAttempts
    }

    function FirstAvailable(intents: seq<Intent>): (r: Option<Intent>)
      requires Valid()
      reads this
      ensures r.Some? ==> r.value in intents && IsAvailable(cfg, log, r.value)
      ensures r.None? ==> forall i | i in intents :: !IsAvailable(cfg, log, i)
    {
      if intents == [] then None
      else if Available(intents[0]) then Some(intents[0])
      else FirstAvailable(intents[1..])
    }

    function AvailablePlatforms(): seq<Platform>
      reads this
    {
      if Buildable(cfg) then cfg.platforms else []
    }

    /** The record a platform is judged on: the pair's when an intent is given. */
    function RankedOn(kind: Option<IntentType>): map<Platform, Stats>
      reads this
    {
      if kind.None? then platformStats else map p: Platform | (p, kind.value) in pairStats :: pairStats[(p, kind.value)]
    }

    /** Platforms in priority order. */
    function PlatformOrder(kind: Option<IntentType>): (r: seq<Platform>)
      reads this
      ensures forall p :: p in r <==> p in AvailablePlatforms()
    {
      var stats := RankedOn(kind);
      Sorting.SortKeeps(AvailablePlatforms(), ByPriority(cfg, stats));
      var r := Sorting.Sort(AvailablePlatforms(), ByPriority(cfg, stats));
      Sorting.SameMembers(r, AvailablePlatforms());
      r
    }

    /** The opening ranks on overall spend, so its searches land on different platforms. */
    function OpeningOrder(): (r: seq<Platform>)
      reads this
      ensures forall p :: p in r <==> p in AvailablePlatforms()
      ensures r != [] ==> forall p | p in r :: StatsAt(platformStats, r[0]).searches <= StatsAt(platformStats, p).searches
    {
      var order := PlatformOrder(None);
      var le := ByFewestSearches(platformStats);
      Sorting.SortKeeps(order, le);
      Sorting.SortOrders(order, le);
      var r := Sorting.Sort(order, le);
      Sorting.SameMembers(r, order);
      assert r != [] ==> le(r[0], r[0]);
      r
    }

    function KindOpening(k: IntentType): (r: seq<Intent>)
      reads this
      ensures forall i | i in r :: i.platform in cfg.platforms
    {
      if StatsAt(intentStats, k).searches > 0 then [] else Asks(OpeningOrder(), k)
    }

    function OpeningAsks(): seq<Intent>
      reads this
    {
      KindOpening(Places) + KindOpening(Food) + KindOpening(HiddenGems)
    }

    /** Nothing found yet: fewer words and another platform. */
    function ColdAsks(ps: seq<Platform>): (r: seq<Intent>)
      ensures forall i | i in r :: i.platform in ps
      ensures forall p, k | p in ps :: Intent(p, k, Normal) in r && Intent(p, k, Broad) in r
    {
      if ps == [] then []
      else
        var head := ColdHead(ps[0]);
        ColdHeadCovers(ps[0]);
        head + ColdAsks(ps[1..])
    }

    /** React to how the last informative search failed. */
    function RecoveryAsks(): (r: seq<Intent>)
      requires Valid()
      reads this
      ensures forall i | i in r :: i.platform in cfg.platforms
    {
      var last := LastInformative(log);
      LastInformativeIsLogged(log);
      if last == [] then []
      else
        var intent, yielded := last[0].intent, YieldOf(last[0].outcome);
        (if yielded == NoMentions then [Intent(intent.platform, Food, Specific), Intent(intent.platform, HiddenGems, Specific)] else [])
        + (if yielded == NoSearchResults || yielded == NoMentions then Broadened(intent) else [])
    }

    /** The best unused platforms for each intent in turn. */
    function PairAsks(kinds: seq<IntentType>): (r: seq<Intent>)
      reads this
      ensures forall i | i in r :: i.platform in cfg.platforms && i.kind in kinds && i.specificity == Specific
      ensures forall p, k | p in AvailablePlatforms() && k in kinds :: Intent(p, k, Specific) in r
    {
      if kinds == [] then []
      else
        var order := PlatformOrder(Some(kinds[0]));
        var head := Asks(order, kinds[0]);
        AsksCover(order, kinds[0]);
        head + PairAsks(kinds[1..])
    }

    function LaneAsks(missing: nat, kinds: seq<IntentType>): (r: seq<Intent>)
      reads this
      ensures forall i | i in r :: i.platform in cfg.platforms
    {
      if missing == 0 then [] else PairAsks(Sorting.Sort(kinds, ByLeastProduced(intentStats)))
    }

    /** Whichever lane is furthest from what it needs. */
    function GapAsks(): (r: seq<Intent>)
      reads this
      ensures forall i | i in r :: i.platform in cfg.platforms
    {
      var forYou := LaneAsks(ForYouDeficit(cfg, supply).missing, [HiddenGems]);
      var trending := LaneAsks(TrendingDeficit(cfg, supply).missing, [Places, Food]);
      if ForYouWorse(cfg, supply) then forYou + trending else trending + forYou
    }

    /** Both lanes at target but budget left: every question on every platform, weakest first. */
    function RemainingAsks(): (r: seq<Intent>)
      reads this
      ensures forall i | i in r :: i.platform in cfg.platforms
      ensures forall p, k | p in AvailablePlatforms() :: Intent(p, k, Specific) in r
    {
      var kinds := Sorting.Sort(OPENING_SEQUENCE, ByNewPlaces(intentStats));
      Sorting.SortKeeps(OPENING_SEQUENCE, ByNewPlaces(intentStats));
      Sorting.SameMembers(kinds, OPENING_SEQUENCE);
      AllKindsListed();
      PairAsks(kinds)
    }

    /** Unprobed notes, once Reels stay low in a Chinese run. */
    function RednoteAsks(): (r: seq<Intent>)
      reads this
      ensures forall i | i in r :: i.platform in cfg.platforms
    {
      var reels := ReelSearches(log);
      var recent := if cfg.probeMin == 0 || |reels| < cfg.probeMin then reels else reels[|reels| - cfg.probeMin..];
      if !cfg.chinese || RedNote !in cfg.platforms || |reels| < cfg.probeMin
         || exists a | a in recent :: a.outcome.newPlaces > cfg.lowYieldNewPlaces
      then []
      else [Intent(RedNote, Places, Specific), Intent(RedNote, Food, Specific), Intent(RedNote, HiddenGems, Specific)]
    }

    /** The kinds of the worse lane first, but Food before all while food is missing. */
    function ReelKinds(): (r: seq<IntentType>)
      reads this
      ensures |r| == 3
    {
      if supply.food < cfg.foodTarget
      then (if ForYouWorse(cfg, supply) then [Food, HiddenGems, Places] else [Food, Places, HiddenGems])
      else if ForYouWorse(cfg, supply) then [HiddenGems, Places, Food] else [Places, Food, HiddenGems]
    }

    /** Instagram's remaining intents while Reels are missing. */
    function ReelAsks(): (r: seq<Intent>)
      reads this
      ensures forall i | i in r :: i.platform in cfg.platforms
    {
      if Instagram in cfg.platforms then ReelList(ReelKinds()) else []
    }

    method Stop(reason: StopReason)
      requires Valid()
      modifies this`stopReason
      ensures Valid() && stopReason == Some(reason)
    {
      stopReason := Some(reason);
    }

    /** An available search, or a justified stop. */
    ghost predicate Planning(next: Option<Intent>)
      requires Valid()
      reads this
    {
      match next
      case Some(intent) => IsAvailable(cfg, log, intent) && intent.platform in cfg.platforms
      case None => stopReason.Some? && Justified(cfg, log, supply, stopReason.value)
    }

    /** The planner's answer. */
    function Answer(next: Option<Intent>): Decision
      reads this
    {
      AnswerOf(next, stopReason)
    }

    /** Recover, fill the worse lane, or top up, unless the searches are exhausted. */
    method PlanByYield() returns (next: Option<Intent>)
      requires Valid() && OpeningDone(cfg, log)
      modifies this`stopReason
      ensures Valid() && Planning(next)
      ensures YieldDecision(cfg, log, supply, Answer(next))
    {
      ExhaustedIff(this);
      if lowYield >= cfg.maxLowYield || duplicateHeavy >= cfg.maxDuplicateHeavy {
        Stop(LowYieldStop);
        return None;
      }
      next := FirstAvailable(RecoveryAsks());
      RecoveryFirst(this);
      if next.Some? {
        return;
      }
      next := FirstAvailable(GapAsks());
      GapsFirst(this);
      if next.Some? {
        return;
      }
      next := FirstAvailable(RemainingAsks());
      RemainingFirst(this);
      if next.None? {
        RemainingExhausted(this);
        Stop(NoSearchActionsLeft);
      }
    }

    /** Reels first while they are missing, then simpler questions while nothing was found. */
    method PlanAdaptive() returns (next: Option<Intent>)
      requires Valid() && OpeningDone(cfg, log)
      modifies this`stopReason
      ensures Valid() && Planning(next)
      ensures AdaptiveDecision(cfg, log, supply, Answer(next))
    {
      if supply.reels < cfg.reelTarget {
        next := FirstAvailable(RednoteAsks());
        NotesFirst(this);
        if next.Some? {
          return;
        }
        next := FirstAvailable(ReelAsks());
        ReelsFirst(this);
        if next.Some? {
          return;
        }
      }
      if supply.discovered == 0 && |log| < cfg.coldStartMax {
        next := FirstAvailable(ColdAsks(PlatformOrder(None)));
        ColdFirst(this);
        if next.None? {
          ColdExhausted(this);
          Stop(NoSearchActionsLeft);
        }
        return;
      }
      next := PlanByYield();
    }

    /** The one next search, or None with the reason to stop: what the rules of the planner say. */
    method PlanNext() returns (next: Option<Intent>)
      requires Valid()
      modifies this`stopReason
      ensures Valid() && Planning(next)
      ensures Decides(cfg, log, supply, Answer(next))
      ensures next.Some? ==> !EarlyStop(cfg, log, supply)
      ensures !EarlyStop(cfg, log, supply) && OpeningPossible(cfg) && FirstUnasked(log).Some? ==>
        next.Some? && Opens(cfg, log, FirstUnasked(log).value, next.value)
    {
      EarlyIff(this);
      if |log| >= cfg.maxSearches {
        Stop(SearchBudgetReached);
        return None;
      }
      if supply.exhausted {
        Stop(VerificationBudgetReached);
        return None;
      }
      if TargetMet(cfg, supply) {
        Stop(TargetReached);
        return None;
      }
      if providerErrors >= cfg.maxProviderErrors {
        Stop(ProviderUnavailable);
        return None;
      }
      next := FirstAvailable(OpeningAsks());
      OpeningFollowed(this);
      OpeningFirst(this);
      if next.Some? {
        return;
      }
      OpeningExhausted(this);
      next := PlanAdaptive();
    }
  }

  function AnswerOf(next: Option<Intent>, stopReason: Option<StopReason>): Decision
  {
    match next
    case Some(intent) => Search(intent)
    case None => Decision.Stop(if stopReason.Some? then stopReason.value else NoSearchActionsLeft)
  }

  lemma ExhaustedIff(s: SearchState)
    requires s.Valid()
    ensures Exhausted(s.cfg, s.log) <==> s.lowYield >= s.cfg.maxLowYield || s.duplicateHeavy >= s.cfg.maxDuplicateHeavy
  {
    TrailingRunMeans(NonErrors(s.log), LowYield(s.cfg.lowYieldNewPlaces), s.cfg.maxLowYield);
    TrailingRunMeans(NonErrors(s.log), Duplicates(), s.cfg.maxDuplicateHeavy);
    NoneFailed(s.log);
  }

  lemma EarlyIff(s: SearchState)
    requires s.Valid()
    ensures TargetMet(s.cfg, s.supply) <==> TargetsMet(s.cfg, s.supply)
    ensures s.providerErrors >= s.cfg.maxProviderErrors <==> LastFailed(s.log, s.cfg.maxProviderErrors)
  {
    WorseIff(s.cfg, s.supply);
    TrailingRunMeans(s.log, Failed(), s.cfg.maxProviderErrors);
  }

  /** A low-yield stop means the opening was asked as far as it could be, and the last searches that
      got an answer were all low-yield, or all repeats, up to the threshold. */
  lemma LowYieldStopMeans(cfg: Config, log: seq<Action>, supply: Supply)
    ensures Justified(cfg, log, supply, LowYieldStop) <==> (
      && OpeningDone(cfg, log)
      && (LastAll(log, cfg.maxLowYield, LowYield(cfg.lowYieldNewPlaces)) || LastAll(log, cfg.maxDuplicateHeavy, Duplicates())))
  {
    TrailingRunMeans(NonErrors(log), LowYield(cfg.lowYieldNewPlaces), cfg.maxLowYield);
    TrailingRunMeans(NonErrors(log), Duplicates(), cfg.maxDuplicateHeavy);
  }

  /** The intent asks `k` in full, on a platform searched as little as any. */
  predicate Opens(cfg: Config, log: seq<Action>, k: IntentType, intent: Intent)
  {
    && intent.kind == k && intent.specificity == Specific && intent.platform in cfg.platforms
    && forall q | q in cfg.platforms :: Total(log, OfPlatform(intent.platform), One) <= Total(log, OfPlatform(q), One)
  }

  /** A question nobody asked is available as long as a question can be asked at all. */
  lemma UnaskedIsAvailable(cfg: Config, log: seq<Action>, p: Platform, k: IntentType)
    requires Total(log, OfKind(k), One) == 0 && Buildable(cfg) && cfg.maxAttempts > 0
    ensures IsAvailable(cfg, log, Intent(p, k, Specific))
  {
    TotalOfUnasked(log, OfKind(k));
    TotalOfUnasked(log, OfPair(p, k));
  }

  lemma KindOpeningHead(s: SearchState, k: IntentType)
    requires s.Valid() && OpeningPossible(s.cfg) && Total(s.log, OfKind(k), One) == 0
    ensures s.KindOpening(k) != [] && Opens(s.cfg, s.log, k, s.KindOpening(k)[0])
    ensures IsAvailable(s.cfg, s.log, s.KindOpening(k)[0]) && s.KindOpening(k)[0] in s.OpeningAsks()
  {
    assert StatsAt(s.intentStats, k) == StatsOf(s.log, OfKind(k));
    var order := s.OpeningOrder();
    assert s.cfg.platforms[0] in order;
    assert s.KindOpening(k) == Asks(order, k);
    assert order[0] in order;
    forall q | q in s.cfg.platforms ensures Total(s.log, OfPlatform(order[0]), One) <= Total(s.log, OfPlatform(q), One) {
      assert StatsAt(s.platformStats, order[0]) == StatsOf(s.log, OfPlatform(order[0]));
      assert StatsAt(s.platformStats, q) == StatsOf(s.log, OfPlatform(q));
    }
    UnaskedIsAvailable(s.cfg, s.log, order[0], k);
  }

  lemma KindOpeningEmpty(s: SearchState, k: IntentType)
    requires s.Valid() && Total(s.log, OfKind(k), One) > 0
    ensures s.KindOpening(k) == []
  {
    assert StatsAt(s.intentStats, k) == StatsOf(s.log, OfKind(k));
  }

  lemma OpeningFollowed(s: SearchState)
    requires s.Valid()
    ensures OpeningPossible(s.cfg) && FirstUnasked(s.log).Some? ==>
      && s.FirstAvailable(s.OpeningAsks()).Some?
      && Opens(s.cfg, s.log, FirstUnasked(s.log).value, s.FirstAvailable(s.OpeningAsks()).value)
  {
    if OpeningPossible(s.cfg) && FirstUnasked(s.log).Some? {
      var k := FirstUnasked(s.log).value;
      KindOpeningHead(s, k);
      if k != Places {
        KindOpeningEmpty(s, Places);
        if k != Food {
          KindOpeningEmpty(s, Food);
        }
      }
      assert s.OpeningAsks()[0] == s.KindOpening(k)[0];
    }
  }

  // ----- what the choosers order by -----

  /** The choosers take the first available question, not just any. */
  lemma {:induction false} FirstAvailableIsFirst(s: SearchState, intents: seq<Intent>) returns (at: nat)
    requires s.Valid() && s.FirstAvailable(intents).Some?
    ensures at < |intents| && s.FirstAvailable(intents) == Some(intents[at])
    ensures forall i | 0 <= i < at :: !IsAvailable(s.cfg, s.log, intents[i])
  {
    if s.Available(intents[0]) {
      at := 0;
    } else {
      var later := FirstAvailableIsFirst(s, intents[1..]);
      at := later + 1;
    }
  }

  predicate Unproductive(cfg: Config, stats: map<Platform, Stats>, p: Platform)
  {
    StatsAt(stats, p).searches >= cfg.probeMin && StatsAt(stats, p).newPlaces == 0
  }

  /** Proven unproductive last, then the configured order; nothing else. */
  function ByRank(cfg: Config, stats: map<Platform, Stats>): (Platform, Platform) -> bool
  {
    (p: Platform, q: Platform) =>
      if Unproductive(cfg, stats, p) != Unproductive(cfg, stats, q) then Unproductive(cfg, stats, q)
      else Index(cfg.platforms, p) <= Index(cfg.platforms, q)
  }

  lemma {:induction false} IndexUnique(ps: seq<Platform>, p: Platform, q: Platform)
    requires p in ps && q in ps && Index(ps, p) == Index(ps, q)
    ensures p == q
  {
    if ps[0] == p || ps[0] == q {
    } else {
      IndexUnique(ps[1..], p, q);
    }
  }

  /** A platform's place in the configured order is its own, so yield and spend never decide
      between two configured platforms. */
  lemma YieldNeverDecides(cfg: Config, stats: map<Platform, Stats>, p: Platform, q: Platform)
    requires p in cfg.platforms && q in cfg.platforms
    ensures ByPriority(cfg, stats)(p, q) <==> ByRank(cfg, stats)(p, q)
  {
    if p != q && Index(cfg.platforms, p) == Index(cfg.platforms, q) {
      IndexUnique(cfg.platforms, p, q);
    }
  }

  lemma {:induction false} InsertAgrees(x: Platform, s: seq<Platform>, le: (Platform, Platform) -> bool, rank: (Platform, Platform) -> bool)
    requires forall y | y in s :: le(x, y) <==> rank(x, y)
    ensures Sorting.Insert(x, s, le) == Sorting.Insert(x, s, rank)
  {
    if s == [] || le(x, s[0]) {
    } else {
      InsertAgrees(x, s[1..], le, rank);
    }
  }

  lemma {:induction false} SortAgrees(s: seq<Platform>, le: (Platform, Platform) -> bool, rank: (Platform, Platform) -> bool)
    requires forall x, y | x in s && y in s :: le(x, y) <==> rank(x, y)
    ensures Sorting.Sort(s, le) == Sorting.Sort(s, rank)
  {
    if s == [] {
    } else {
      SortAgrees(s[1..], le, rank);
      Sorting.SortKeeps(s[1..], le);
      Sorting.SameMembers(Sorting.Sort(s[1..], le), s[1..]);
      InsertAgrees(s[0], Sorting.Sort(s[1..], le), le, rank);
    }
  }

  /** Ranking puts proven unproductive platforms last and keeps the configured order otherwise. */
  lemma PlatformsRanked(s: SearchState, kind: Option<IntentType>, stats: map<Platform, Stats>)
    requires stats == s.RankedOn(kind)
    ensures Sorting.Ordered(s.PlatformOrder(kind), ByRank(s.cfg, stats))
  {
    var ps, rank := s.AvailablePlatforms(), ByRank(s.cfg, stats);
    forall x, y | x in ps && y in ps ensures ByPriority(s.cfg, stats)(x, y) <==> rank(x, y) {
      YieldNeverDecides(s.cfg, stats, x, y);
    }
    SortAgrees(ps, ByPriority(s.cfg, stats), rank);
    Sorting.SortOrders(ps, rank);
  }

  /** By the rank the log gives a platform. */
  function ByLogRank(cfg: Config, log: seq<Action>, kind: Option<IntentType>): (Platform, Platform) -> bool
  {
    (p: Platform, q: Platform) => PlatformRank(cfg, log, p, kind) <= PlatformRank(cfg, log, q, kind)
  }

  lemma RankedOnLog(s: SearchState, kind: Option<IntentType>, p: Platform)
    requires s.Valid()
    ensures StatsAt(s.RankedOn(kind), p) == StatsOf(s.log, JudgedOn(p, kind))
  {
    match kind
    case None => assert StatsAt(s.platformStats, p) == StatsOf(s.log, OfPlatform(p));
    case Some(k) => assert StatsAt(s.pairStats, (p, k)) == StatsOf(s.log, OfPair(p, k));
  }

  /** The priority order of platforms is that of their ranks. */
  lemma PlatformsByLogRank(s: SearchState, kind: Option<IntentType>)
    requires s.Valid()
    ensures Sorting.Ordered(s.PlatformOrder(kind), ByLogRank(s.cfg, s.log, kind))
  {
    var ps, stats, le := s.AvailablePlatforms(), s.RankedOn(kind), ByLogRank(s.cfg, s.log, kind);
    forall x, y | x in ps && y in ps ensures ByPriority(s.cfg, stats)(x, y) <==> le(x, y) {
      YieldNeverDecides(s.cfg, stats, x, y);
      RankedOnLog(s, kind, x);
      RankedOnLog(s, kind, y);
    }
    SortAgrees(ps, ByPriority(s.cfg, stats), le);
    Sorting.SortOrders(ps, le);
  }

  lemma NothingToOpen(s: SearchState)
    requires s.Valid()
    ensures FirstUnasked(s.log).None? ==> s.OpeningAsks() == []
  {
    if FirstUnasked(s.log).None? {
      KindOpeningEmpty(s, Places);
      KindOpeningEmpty(s, Food);
      KindOpeningEmpty(s, HiddenGems);
    }
  }

  lemma OpeningExhausted(s: SearchState)
    requires s.Valid() && s.FirstAvailable(s.OpeningAsks()).None?
    ensures OpeningDone(s.cfg, s.log)
  {
    forall k: IntentType
      ensures Total(s.log, OfKind(k), One) > 0 || !OpeningPossible(s.cfg)
    {
      if Total(s.log, OfKind(k), One) == 0 && OpeningPossible(s.cfg) {
        KindOpeningHead(s, k);
      }
    }
  }

  lemma {:induction false} FirstOfTwo(s: SearchState, a: seq<Intent>, b: seq<Intent>)
    requires s.Valid()
    ensures s.FirstAvailable(a + b) == if s.FirstAvailable(a).Some? then s.FirstAvailable(a) else s.FirstAvailable(b)
  {
    if a == [] {
      assert a + b == b;
    } else {
      assert (a + b)[1..] == a[1..] + b;
      FirstOfTwo(s, a[1..], b);
    }
  }

  /** The Reel questions cover every kind, in full and with fewer words. */
  lemma ReelListCovers(kinds: seq<IntentType>, k: IntentType)
    requires |kinds| == 3 && k in kinds
    ensures Intent(Instagram, k, Specific) in ReelList(kinds) && Intent(Instagram, k, Normal) in ReelList(kinds)
  {
    var asks := ReelList(kinds);
    var i :| 0 <= i < 3 && kinds[i] == k;
    assert asks[i] == Intent(Instagram, k, Specific) && asks[i + 3] == Intent(Instagram, k, Normal);
    assert asks[i] in asks && asks[i + 3] in asks;
  }

  lemma ColdExhausted(s: SearchState)
    requires s.Valid() && s.FirstAvailable(s.ColdAsks(s.PlatformOrder(None))).None?
    ensures forall p, k | p in s.cfg.platforms ::
      !IsAvailable(s.cfg, s.log, Intent(p, k, Normal)) && !IsAvailable(s.cfg, s.log, Intent(p, k, Broad))
  {
    forall p, k | p in s.cfg.platforms
      ensures !IsAvailable(s.cfg, s.log, Intent(p, k, Normal)) && !IsAvailable(s.cfg, s.log, Intent(p, k, Broad))
    {
      if Buildable(s.cfg) {
        assert p in s.PlatformOrder(None);
      }
    }
  }

  lemma RemainingExhausted(s: SearchState)
    requires s.Valid() && s.FirstAvailable(s.RemainingAsks()).None?
    ensures forall p, k | p in s.cfg.platforms :: !IsAvailable(s.cfg, s.log, Intent(p, k, Specific))
  {
    forall p, k | p in s.cfg.platforms ensures !IsAvailable(s.cfg, s.log, Intent(p, k, Specific)) {
      if Buildable(s.cfg) {
        assert p in s.AvailablePlatforms();
      }
    }
  }

  lemma {:induction false} LastInformativeIsLogged(log: seq<Action>)
    ensures LastInformative(log) != [] ==> LastInformative(log)[0] in log
  {
    if log != [] && log[|log| - 1].outcome.failed {
      LastInformativeIsLogged(log[..|log| - 1]);
    }
  }

  function ReelSearches(log: seq<Action>): seq<Action>
  {
    if log == [] then []
    else
      var last := log[|log| - 1];
      ReelSearches(log[..|log| - 1]) + (if last.intent.platform == Instagram && !last.outcome.failed then [last] else [])
  }

  // ----- the lists the planner walks through are the rungs of its ladder -----

  ghost predicate InOrder(cfg: Config, log: seq<Action>, supply: Supply, rung: Rung, asks: seq<Intent>)
  {
    && (forall i | i in asks :: i.platform in cfg.platforms && KeyOf(cfg, log, supply, rung, i).Some?)
    && forall a, b | 0 <= a < b < |asks| ::
         Preferred(cfg, log, supply, rung, asks[a], asks[b])
  }

  ghost predicate Complete(cfg: Config, log: seq<Action>, supply: Supply, rung: Rung, asks: seq<Intent>)
  {
    forall i | Offered(cfg, log, supply, rung, i) :: i in asks
  }

  /** The first available question of a rung's list is its best. */
  ghost predicate FollowsRung(s: SearchState, rung: Rung, next: Option<Intent>)
    reads s
  {
    match next
    case Some(i) => Best(s.cfg, s.log, s.supply, rung, i) && !Nothing(s.cfg, s.log, s.supply, rung)
    case None => Nothing(s.cfg, s.log, s.supply, rung)
  }

  lemma FirstIsBest(s: SearchState, rung: Rung, asks: seq<Intent>)
    requires s.Valid() && InOrder(s.cfg, s.log, s.supply, rung, asks) && Complete(s.cfg, s.log, s.supply, rung, asks)
    ensures FollowsRung(s, rung, s.FirstAvailable(asks))
  {
    var next := s.FirstAvailable(asks);
    if next.Some? {
      var at := FirstAvailableIsFirst(s, asks);
      forall j | Offered(s.cfg, s.log, s.supply, rung, j)
        ensures Preferred(s.cfg, s.log, s.supply, rung, next.value, j)
      {
        var b :| 0 <= b < |asks| && asks[b] == j;
        assert at <= b;
      }
      assert Offered(s.cfg, s.log, s.supply, rung, next.value);
    }
  }

  lemma InOrderJoin(cfg: Config, log: seq<Action>, supply: Supply, rung: Rung, a: seq<Intent>, b: seq<Intent>)
    requires InOrder(cfg, log, supply, rung, a) && InOrder(cfg, log, supply, rung, b)
    requires forall i, j | i in a && j in b :: Preferred(cfg, log, supply, rung, i, j)
    ensures InOrder(cfg, log, supply, rung, a + b)
  {
  }

  lemma PlatformSearches(s: SearchState, p: Platform)
    requires s.Valid()
    ensures StatsAt(s.platformStats, p).searches == Searches(s.log, OfPlatform(p))
  {
    assert StatsAt(s.platformStats, p) == StatsOf(s.log, OfPlatform(p));
  }

  lemma OpeningSorted(s: SearchState)
    requires s.Valid()
    ensures Sorting.Ordered(s.OpeningOrder(), Sorting.Then(ByFewestSearches(s.platformStats), ByLogRank(s.cfg, s.log, None)))
  {
    PlatformsByLogRank(s, None);
    Sorting.SortStable(s.PlatformOrder(None), ByFewestSearches(s.platformStats), ByLogRank(s.cfg, s.log, None));
  }

  /** The head of the opening order was searched least, and ranks first among those. */
  lemma OpeningHeadLeast(s: SearchState, order: seq<Platform>, q: Platform)
    requires s.Valid() && order == s.OpeningOrder() && q in order
    ensures Searches(s.log, OfPlatform(order[0])) <= Searches(s.log, OfPlatform(q))
    ensures Searches(s.log, OfPlatform(order[0])) == Searches(s.log, OfPlatform(q)) ==>
      PlatformRank(s.cfg, s.log, order[0], None) <= PlatformRank(s.cfg, s.log, q, None)
  {
    var b :| 0 <= b < |order| && order[b] == q;
    if b > 0 {
      OpeningSorted(s);
      OpeningBefore(s, order[0], order[b]);
    }
  }

  lemma OpeningBefore(s: SearchState, p: Platform, q: Platform)
    requires s.Valid() && Sorting.Then(ByFewestSearches(s.platformStats), ByLogRank(s.cfg, s.log, None))(p, q)
    ensures Searches(s.log, OfPlatform(p)) <= Searches(s.log, OfPlatform(q))
    ensures Searches(s.log, OfPlatform(p)) == Searches(s.log, OfPlatform(q)) ==>
      PlatformRank(s.cfg, s.log, p, None) <= PlatformRank(s.cfg, s.log, q, None)
  {
    PlatformSearches(s, p);
    PlatformSearches(s, q);
  }

  lemma KindOpeningIs(s: SearchState, k: IntentType)
    requires s.Valid() && OpeningPossible(s.cfg) && Total(s.log, OfKind(k), One) == 0
    ensures s.OpeningOrder() != [] && s.KindOpening(k) == Asks(s.OpeningOrder(), k)
    ensures s.KindOpening(k)[0] == Intent(s.OpeningOrder()[0], k, Specific) && s.OpeningOrder()[0] in s.cfg.platforms
  {
    assert StatsAt(s.intentStats, k) == StatsOf(s.log, OfKind(k));
    assert s.cfg.platforms[0] in s.OpeningOrder();
    assert s.OpeningOrder()[0] in s.OpeningOrder();
  }

  lemma OpeningHeadIsBest(s: SearchState, k: IntentType)
    requires s.Valid() && OpeningPossible(s.cfg) && FirstUnasked(s.log) == Some(k)
    ensures s.KindOpening(k) != [] && Best(s.cfg, s.log, s.supply, Opening, s.KindOpening(k)[0])
  {
    KindOpeningIs(s, k);
    var order, first := s.OpeningOrder(), s.KindOpening(k)[0];
    UnaskedIsAvailable(s.cfg, s.log, order[0], k);
    forall j | Offered(s.cfg, s.log, s.supply, Opening, j)
      ensures Preferred(s.cfg, s.log, s.supply, Opening, first, j)
    {
      OpeningHeadLeast(s, order, j.platform);
    }
  }

  lemma OpeningFirst(s: SearchState)
    requires s.Valid()
    ensures FollowsRung(s, Opening, s.FirstAvailable(s.OpeningAsks()))
  {
    OpeningFollowed(s);
    NothingToOpen(s);
    if FirstUnasked(s.log).Some? && OpeningPossible(s.cfg) {
      var k := FirstUnasked(s.log).value;
      OpeningHeadIsBest(s, k);
      OpeningHeadFirst(s, k);
    }
  }

  lemma OpeningHeadFirst(s: SearchState, k: IntentType)
    requires s.Valid() && OpeningPossible(s.cfg) && FirstUnasked(s.log) == Some(k)
    ensures s.KindOpening(k) != [] && s.FirstAvailable(s.OpeningAsks()) == Some(s.KindOpening(k)[0])
  {
    KindOpeningHead(s, k);
    if k != Places {
      KindOpeningEmpty(s, Places);
      if k != Food {
        KindOpeningEmpty(s, Food);
      }
    }
    assert s.OpeningAsks()[0] == s.KindOpening(k)[0];
  }

  lemma {:induction false} ReelSearchesAre(log: seq<Action>)
    ensures ReelSearches(log) == AnsweredReels(log)
  {
    if log == [] {
    } else {
      var n := |log| - 1;
      ReelSearchesAre(log[..n]);
      WhereGrows(log, (a: Action) => a.intent.platform == Instagram && !a.outcome.failed, n);
      assert log[..n + 1] == log;
    }
  }

  lemma RecentReels(reels: seq<Action>, probeMin: nat, low: nat)
    requires |reels| >= probeMin
    ensures var recent := if probeMin == 0 || |reels| < probeMin then reels else reels[|reels| - probeMin..];
      (exists a | a in recent :: a.outcome.newPlaces > low) <==>
        !(forall i | (if probeMin == 0 then 0 else |reels| - probeMin) <= i < |reels| :: reels[i].outcome.newPlaces <= low)
  {
    var start := if probeMin == 0 then 0 else |reels| - probeMin;
    var recent := reels[start..];
    if a :| a in recent && a.outcome.newPlaces > low {
      var i :| 0 <= i < |recent| && recent[i] == a;
      assert reels[start + i] == a;
    } else {
      forall i | start <= i < |reels| ensures reels[i].outcome.newPlaces <= low {
        assert recent[i - start] == reels[i] && recent[i - start] in recent;
      }
    }
  }

  lemma NotesDue(s: SearchState)
    ensures s.RednoteAsks() == if s.cfg.chinese && RedNote in s.cfg.platforms && ReelsDisappoint(s.cfg, s.log)
      then [Intent(RedNote, Places, Specific), Intent(RedNote, Food, Specific), Intent(RedNote, HiddenGems, Specific)] else []
  {
    ReelSearchesAre(s.log);
    if |ReelSearches(s.log)| >= s.cfg.probeMin {
      RecentReels(ReelSearches(s.log), s.cfg.probeMin, s.cfg.lowYieldNewPlaces);
    }
  }

  lemma NotesFirst(s: SearchState)
    requires s.Valid()
    ensures FollowsRung(s, Notes, s.FirstAvailable(s.RednoteAsks()))
  {
    var asks := s.RednoteAsks();
    NotesDue(s);
    forall i | Offered(s.cfg, s.log, s.supply, Notes, i) ensures i in asks {
      assert asks[0] in asks && asks[1] in asks && asks[2] in asks;
    }
    FirstIsBest(s, Notes, asks);
  }

  lemma ReelKindsPlaced(s: SearchState, k: IntentType)
    ensures k in s.ReelKinds()
    ensures ReelPlace(s.cfg, s.supply, s.ReelKinds()[0]) <= ReelPlace(s.cfg, s.supply, s.ReelKinds()[1])
    ensures ReelPlace(s.cfg, s.supply, s.ReelKinds()[1]) <= ReelPlace(s.cfg, s.supply, s.ReelKinds()[2])
  {
    WorseIff(s.cfg, s.supply);
    var kinds := s.ReelKinds();
    assert kinds[0] in kinds && kinds[1] in kinds && kinds[2] in kinds;
    match k { case Places => case Food => case HiddenGems => }
  }

  lemma ReelListKeys(cfg: Config, log: seq<Action>, supply: Supply, kinds: seq<IntentType>, a: nat)
    requires |kinds| == 3 && a < 6
    ensures KeyOf(cfg, log, supply, Reels, ReelList(kinds)[a]) == Some(Key(a / 3, ReelPlace(cfg, supply, kinds[a % 3]), 0, 0, 0))
  {
  }

  lemma ReelListInOrder(cfg: Config, log: seq<Action>, supply: Supply, kinds: seq<IntentType>)
    requires |kinds| == 3 && Instagram in cfg.platforms
    requires ReelPlace(cfg, supply, kinds[0]) <= ReelPlace(cfg, supply, kinds[1]) <= ReelPlace(cfg, supply, kinds[2])
    ensures InOrder(cfg, log, supply, Reels, ReelList(kinds))
  {
    var asks := ReelList(kinds);
    forall a, b | 0 <= a < b < 6 ensures Preferred(cfg, log, supply, Reels, asks[a], asks[b]) {
      ReelListKeys(cfg, log, supply, kinds, a);
      ReelListKeys(cfg, log, supply, kinds, b);
    }
  }

  lemma ReelsFirst(s: SearchState)
    requires s.Valid()
    ensures FollowsRung(s, Reels, s.FirstAvailable(s.ReelAsks()))
  {
    ReelKindsPlaced(s, Places);
    if Instagram in s.cfg.platforms {
      ReelListInOrder(s.cfg, s.log, s.supply, s.ReelKinds());
    }
    forall i | Offered(s.cfg, s.log, s.supply, Reels, i) ensures i in s.ReelAsks() {
      ReelKindsPlaced(s, i.kind);
      ReelListCovers(s.ReelKinds(), i.kind);
      assert i == Intent(Instagram, i.kind, Specific) || i == Intent(Instagram, i.kind, Normal);
    }
    FirstIsBest(s, Reels, s.ReelAsks());
  }

  /** The lane with the larger fraction missing, whichever way it is computed. */
  lemma WorseIff(cfg: Config, supply: Supply)
    ensures ForYouWorse(cfg, supply) <==> ForYouShort(cfg, supply) >= TrendingShort(cfg, supply)
    ensures ForYouDeficit(cfg, supply).missing > 0 <==> ForYouShort(cfg, supply) > 0.0
    ensures TrendingDeficit(cfg, supply).missing > 0 <==> TrendingShort(cfg, supply) > 0.0
    ensures ForYouShort(cfg, supply) >= 0.0 && TrendingShort(cfg, supply) >= 0.0
  {
    var slots := LaneSlots(cfg.targetCandidates);
    ShortfallIs(supply.forYou, slots.forYou);
    ShortfallIs(supply.trending, slots.trending);
    var f, t := ForYouDeficit(cfg, supply), TrendingDeficit(cfg, supply);
    CompareFractions(f.missing, f.target, t.missing, t.target);
  }

  lemma ShortfallIs(supply: nat, target: nat)
    ensures var d := DeficitOf(supply, target);
      d.target > 0 && Shortfall(supply, target) == d.missing as real / d.target as real && (d.missing > 0 <==> Shortfall(supply, target) > 0.0)
  {
  }

  lemma CompareFractions(a: nat, b: nat, c: nat, d: nat)
    requires b > 0 && d > 0
    ensures a * d >= c * b <==> a as real / b as real >= c as real / d as real
  {
    var x, y := a as real / b as real, c as real / d as real;
    var p := b as real * d as real;
    assert x * p == a as real * d as real == (a * d) as real;
    assert y * p == c as real * b as real == (c * b) as real;
    ScaledOrder(x, y, p);
  }

  lemma ScaledOrder(x: real, y: real, p: real)
    requires p > 0.0
    ensures x * p >= y * p <==> x >= y
  {
    if x >= y {
      assert (x - y) * p >= 0.0;
    } else {
      assert (y - x) * p > 0.0;
    }
  }

  lemma ColdHeadOrder(cfg: Config, log: seq<Action>, p: Platform, a: nat, b: nat)
    requires a <= b < 6
    ensures ColdKey(cfg, log, ColdHead(p)[a]).Some? && ColdKey(cfg, log, ColdHead(p)[b]).Some?
    ensures Leq(ColdKey(cfg, log, ColdHead(p)[a]).value, ColdKey(cfg, log, ColdHead(p)[b]).value)
  {
  }

  /** The question is preferred to every simpler wording that can be asked on these platforms. */
  ghost predicate ColdBest(cfg: Config, log: seq<Action>, ps: seq<Platform>, next: Option<Intent>)
  {
    match next
    case None => forall j: Intent | j.platform in ps && j.specificity != Specific :: !IsAvailable(cfg, log, j)
    case Some(i) =>
      && i.platform in ps && i.specificity != Specific && IsAvailable(cfg, log, i)
      && forall j: Intent | j.platform in ps && j.specificity != Specific && IsAvailable(cfg, log, j) ::
           Leq(ColdKey(cfg, log, i).value, ColdKey(cfg, log, j).value)
  }

  lemma ColdHeadMembers(p: Platform, j: Intent)
    requires j.platform == p && j.specificity != Specific
    ensures j in ColdHead(p)
  {
    ColdHeadCovers(p);
    assert j == Intent(p, j.kind, Normal) || j == Intent(p, j.kind, Broad);
  }

  lemma ColdHeadBest(s: SearchState, p: Platform)
    requires s.Valid() && p in s.cfg.platforms
    ensures ColdBest(s.cfg, s.log, [p], s.FirstAvailable(ColdHead(p)))
  {
    var next, head := s.FirstAvailable(ColdHead(p)), ColdHead(p);
    if next.Some? {
      var at := FirstAvailableIsFirst(s, head);
      ColdHeadCovers(p);
      forall j: Intent | j.platform in [p] && j.specificity != Specific && IsAvailable(s.cfg, s.log, j)
        ensures Leq(ColdKey(s.cfg, s.log, next.value).value, ColdKey(s.cfg, s.log, j).value)
      {
        ColdHeadMembers(p, j);
        var b :| 0 <= b < |head| && head[b] == j;
        ColdHeadOrder(s.cfg, s.log, p, at, b);
      }
    } else {
      forall j: Intent | j.platform in [p] && j.specificity != Specific ensures !IsAvailable(s.cfg, s.log, j) {
        ColdHeadMembers(p, j);
      }
    }
  }

  lemma LaterPlatform(cfg: Config, log: seq<Action>, ps: seq<Platform>, i: Intent, j: Intent)
    requires ps != [] && Sorting.Ordered(ps, ByLogRank(cfg, log, None)) && forall p | p in ps :: p in cfg.platforms
    requires i.platform == ps[0] && j.platform in ps && j.platform != ps[0] && i.specificity != Specific && j.specificity != Specific
    ensures Leq(ColdKey(cfg, log, i).value, ColdKey(cfg, log, j).value)
  {
    var b :| 0 <= b < |ps| && ps[b] == j.platform;
    assert ByLogRank(cfg, log, None)(ps[0], ps[b]);
    if PlatformRank(cfg, log, ps[0], None) == PlatformRank(cfg, log, j.platform, None) {
      RankIsOwn(cfg, log, ps[0], j.platform, None);
    }
  }

  lemma ColdBestJoins(cfg: Config, log: seq<Action>, ps: seq<Platform>, first: Option<Intent>, later: Option<Intent>)
    requires ps != [] && Sorting.Ordered(ps, ByLogRank(cfg, log, None)) && forall p | p in ps :: p in cfg.platforms
    requires ColdBest(cfg, log, [ps[0]], first) && ColdBest(cfg, log, ps[1..], later)
    ensures ColdBest(cfg, log, ps, if first.Some? then first else later)
  {
    assert ps == [ps[0]] + ps[1..];
    if first.Some? {
      forall j: Intent | j.platform in ps && j.specificity != Specific && IsAvailable(cfg, log, j)
        ensures Leq(ColdKey(cfg, log, first.value).value, ColdKey(cfg, log, j).value)
      {
        if j.platform != ps[0] {
          LaterPlatform(cfg, log, ps, first.value, j);
        } else {
          assert j.platform in [ps[0]];
        }
      }
    } else {
      forall j: Intent | j.platform in ps && j.specificity != Specific && IsAvailable(cfg, log, j) ensures j.platform in ps[1..] {
        assert j.platform in [ps[0]] || j.platform in ps[1..];
      }
    }
  }

  lemma {:induction false} ColdAsksBest(s: SearchState, cfg: Config, log: seq<Action>, ps: seq<Platform>)
    requires s.Valid() && cfg == s.cfg && log == s.log
    requires Sorting.Ordered(ps, ByLogRank(cfg, log, None)) && forall p | p in ps :: p in cfg.platforms
    ensures ColdBest(cfg, log, ps, s.FirstAvailable(s.ColdAsks(ps)))
    decreases |ps|
  {
    if ps == [] {
    } else {
      ColdHeadBest(s, ps[0]);
      ColdAsksBest(s, cfg, log, ps[1..]);
      FirstOfTwo(s, ColdHead(ps[0]), s.ColdAsks(ps[1..]));
      ColdBestJoins(cfg, log, ps, s.FirstAvailable(ColdHead(ps[0])), s.FirstAvailable(s.ColdAsks(ps[1..])));
    }
  }

  lemma ColdBestIsBest(cfg: Config, log: seq<Action>, supply: Supply, ps: seq<Platform>, next: Option<Intent>)
    requires ColdBest(cfg, log, ps, next) && forall p | p in ps :: p in cfg.platforms
    requires forall i | Offered(cfg, log, supply, Cold, i) :: i.platform in ps
    ensures next.Some? ==> Best(cfg, log, supply, Cold, next.value)
    ensures next.None? ==> Nothing(cfg, log, supply, Cold)
  {
  }

  lemma ColdFirst(s: SearchState)
    requires s.Valid()
    ensures FollowsRung(s, Cold, s.FirstAvailable(s.ColdAsks(s.PlatformOrder(None))))
  {
    var ps, next := s.PlatformOrder(None), s.FirstAvailable(s.ColdAsks(s.PlatformOrder(None)));
    PlatformsByLogRank(s, None);
    ColdAsksBest(s, s.cfg, s.log, ps);
    ColdBestIsBest(s.cfg, s.log, s.supply, ps, next);
    BestIsSome(s, Cold, next);
  }

  lemma BestIsSome(s: SearchState, rung: Rung, next: Option<Intent>)
    requires if next.Some? then Best(s.cfg, s.log, s.supply, rung, next.value) else Nothing(s.cfg, s.log, s.supply, rung)
    ensures FollowsRung(s, rung, next)
  {
    assert next.Some? ==> Offered(s.cfg, s.log, s.supply, rung, next.value);
  }

  lemma {:induction false} LastOfNonErrors(log: seq<Action>)
    ensures LastInformative(log) == [] <==> NonErrors(log) == []
    ensures NonErrors(log) != [] ==> LastInformative(log) == [NonErrors(log)[|NonErrors(log)| - 1]]
  {
    if log == [] {
    } else {
      LastOfNonErrors(log[..|log| - 1]);
    }
  }

  lemma {:induction false} NoneFailed(log: seq<Action>)
    ensures forall a | a in NonErrors(log) :: !a.outcome.failed
  {
    if log == [] {
    } else {
      NoneFailed(log[..|log| - 1]);
    }
  }

  lemma RecoveryFirst(s: SearchState)
    requires s.Valid()
    ensures FollowsRung(s, Recovery, s.FirstAvailable(s.RecoveryAsks()))
  {
    var asks, informative := s.RecoveryAsks(), NonErrors(s.log);
    LastOfNonErrors(s.log);
    NoneFailed(s.log);
    if informative != [] {
      var last := informative[|informative| - 1];
      assert last in informative;
      RecoveryListed(s, last, asks);
    }
    FirstIsBest(s, Recovery, asks);
  }

  /** The other wordings a last search calls for. */
  function Venues(last: Action): seq<Intent>
  {
    if YieldOf(last.outcome) == NoMentions
    then [Intent(last.intent.platform, Food, Specific), Intent(last.intent.platform, HiddenGems, Specific)] else []
  }

  function Wider(last: Action): seq<Intent>
  {
    if YieldOf(last.outcome) in {NoMentions, NoSearchResults} then Broadened(last.intent) else []
  }

  lemma RecoveryMembers(log: seq<Action>, last: Action, i: Intent)
    requires NonErrors(log) != [] && last == NonErrors(log)[|NonErrors(log)| - 1] && !last.outcome.failed
    ensures RecoveryKey(log, i).Some? <==> i in Venues(last) + Wider(last)
  {
    var wider := Wider(last);
    assert wider != [] ==> wider[0] in wider;
  }

  lemma RecoveryInOrder(cfg: Config, log: seq<Action>, supply: Supply, last: Action)
    requires NonErrors(log) != [] && last == NonErrors(log)[|NonErrors(log)| - 1] && !last.outcome.failed
    requires last.intent.platform in cfg.platforms
    ensures InOrder(cfg, log, supply, Recovery, Venues(last) + Wider(last))
  {
    var asks := Venues(last) + Wider(last);
    forall i | i in asks ensures i.platform in cfg.platforms && KeyOf(cfg, log, supply, Recovery, i).Some? {
      RecoveryMembers(log, last, i);
    }
    forall a, b | 0 <= a < b < |asks| ensures Preferred(cfg, log, supply, Recovery, asks[a], asks[b]) {
      RecoveryRank(log, last, a);
      RecoveryRank(log, last, b);
    }
  }

  lemma RecoveryRank(log: seq<Action>, last: Action, a: nat)
    requires NonErrors(log) != [] && last == NonErrors(log)[|NonErrors(log)| - 1] && !last.outcome.failed
    requires a < |Venues(last) + Wider(last)|
    ensures RecoveryKey(log, (Venues(last) + Wider(last))[a]) == Some(Key(if a < |Venues(last)| then a else 2, 0, 0, 0, 0))
  {
  }

  lemma RecoveryListed(s: SearchState, last: Action, asks: seq<Intent>)
    requires s.Valid() && NonErrors(s.log) != [] && last == NonErrors(s.log)[|NonErrors(s.log)| - 1] && !last.outcome.failed
    requires LastInformative(s.log) == [last] && asks == s.RecoveryAsks()
    ensures InOrder(s.cfg, s.log, s.supply, Recovery, asks) && Complete(s.cfg, s.log, s.supply, Recovery, asks)
  {
    LastInformativeIsLogged(s.log);
    assert asks == Venues(last) + Wider(last);
    RecoveryInOrder(s.cfg, s.log, s.supply, last);
    forall i | Offered(s.cfg, s.log, s.supply, Recovery, i) ensures i in asks {
      RecoveryMembers(s.log, last, i);
    }
  }

  // ----- the lists that go through kinds and platforms -----

  /** The kinds come in the order of their keys, and the platforms of a kind in that of their ranks. */
  ghost predicate KindsRanked(cfg: Config, log: seq<Action>, supply: Supply, rung: Rung, kinds: seq<IntentType>)
  {
    && (forall p, k | k in kinds :: KeyOf(cfg, log, supply, rung, Intent(p, k, Specific)).Some?)
    && (forall a, b, p, q | 0 <= a < b < |kinds| ::
          Preferred(cfg, log, supply, rung, Intent(p, kinds[a], Specific), Intent(q, kinds[b], Specific)))
    && (forall p, q, k | k in kinds && PlatformRank(cfg, log, p, Some(k)) <= PlatformRank(cfg, log, q, Some(k)) ::
          Preferred(cfg, log, supply, rung, Intent(p, k, Specific), Intent(q, k, Specific)))
  }

  lemma AsksInOrder(s: SearchState, rung: Rung, kinds: seq<IntentType>, k: IntentType)
    requires s.Valid() && KindsRanked(s.cfg, s.log, s.supply, rung, kinds) && k in kinds
    ensures InOrder(s.cfg, s.log, s.supply, rung, Asks(s.PlatformOrder(Some(k)), k))
  {
    var order := s.PlatformOrder(Some(k));
    var asks := Asks(order, k);
    PlatformsByLogRank(s, Some(k));
    forall a, b | 0 <= a < b < |asks|
      ensures Preferred(s.cfg, s.log, s.supply, rung, asks[a], asks[b])
    {
      assert ByLogRank(s.cfg, s.log, Some(k))(order[a], order[b]);
    }
    forall i | i in asks ensures i.platform in s.cfg.platforms && KeyOf(s.cfg, s.log, s.supply, rung, i).Some? {
      var a :| 0 <= a < |asks| && asks[a] == i;
      assert order[a] in order;
    }
  }

  lemma {:induction false} PairsInOrder(s: SearchState, rung: Rung, kinds: seq<IntentType>)
    requires s.Valid() && KindsRanked(s.cfg, s.log, s.supply, rung, kinds)
    ensures InOrder(s.cfg, s.log, s.supply, rung, s.PairAsks(kinds))
  {
    if kinds == [] {
    } else {
      var order := s.PlatformOrder(Some(kinds[0]));
      var head, tail := Asks(order, kinds[0]), s.PairAsks(kinds[1..]);
      AsksInOrder(s, rung, kinds, kinds[0]);
      KindsRankedTail(s.cfg, s.log, s.supply, rung, kinds);
      PairsInOrder(s, rung, kinds[1..]);
      forall i, j | i in head && j in tail
        ensures Preferred(s.cfg, s.log, s.supply, rung, i, j)
      {
        var b :| 0 <= b < |kinds[1..]| && kinds[1..][b] == j.kind;
        assert j == Intent(j.platform, kinds[b + 1], Specific) && i == Intent(i.platform, kinds[0], Specific);
      }
      InOrderJoin(s.cfg, s.log, s.supply, rung, head, tail);
    }
  }

  lemma KindsRankedTail(cfg: Config, log: seq<Action>, supply: Supply, rung: Rung, kinds: seq<IntentType>)
    requires KindsRanked(cfg, log, supply, rung, kinds) && kinds != []
    ensures KindsRanked(cfg, log, supply, rung, kinds[1..])
  {
    forall a, b, p, q | 0 <= a < b < |kinds[1..]|
      ensures Preferred(cfg, log, supply, rung, Intent(p, kinds[1..][a], Specific), Intent(q, kinds[1..][b], Specific))
    {
      assert kinds[1..][a] == kinds[a + 1] && kinds[1..][b] == kinds[b + 1];
    }
  }

  lemma KindStats(s: SearchState, k: IntentType)
    requires s.Valid()
    ensures StatsAt(s.intentStats, k).newPlaces == Found(s.log, OfKind(k)) && StatsAt(s.intentStats, k).searches == Searches(s.log, OfKind(k))
  {
    assert StatsAt(s.intentStats, k) == StatsOf(s.log, OfKind(k));
  }

  /** Keys of one lane's kinds follow what they produced. */
  lemma GapKeys(s: SearchState, k: IntentType, l: IntentType, p: Platform, q: Platform)
    requires s.Valid() && k != l && ByLeastProduced(s.intentStats)(k, l) && (k == HiddenGems <==> l == HiddenGems)
    requires OwnShort(s.cfg, s.supply, k) > 0.0
    ensures Leq(GapsKey(s.cfg, s.log, s.supply, Intent(p, k, Specific)).value, GapsKey(s.cfg, s.log, s.supply, Intent(q, l, Specific)).value)
  {
    KindStats(s, k);
    KindStats(s, l);
  }

  lemma LaneSorted(stats: map<IntentType, Stats>, kinds: seq<IntentType>)
    requires kinds == [HiddenGems] || kinds == [Places, Food]
    ensures var sorted := Sorting.Sort(kinds, ByLeastProduced(stats));
      && Distinct(sorted) && Sorting.Ordered(sorted, ByLeastProduced(stats)) && forall k :: k in sorted <==> k in kinds
  {
    Sorting.SortKeeps(kinds, ByLeastProduced(stats));
    Sorting.SortOrders(kinds, ByLeastProduced(stats));
    DistinctRearranged(kinds, Sorting.Sort(kinds, ByLeastProduced(stats)));
  }

  lemma LaneRanked(s: SearchState, kinds: seq<IntentType>, sorted: seq<IntentType>)
    requires s.Valid() && (kinds == [HiddenGems] || kinds == [Places, Food]) && OwnShort(s.cfg, s.supply, kinds[0]) > 0.0
    requires Distinct(sorted) && Sorting.Ordered(sorted, ByLeastProduced(s.intentStats)) && forall k :: k in sorted <==> k in kinds
    ensures KindsRanked(s.cfg, s.log, s.supply, Gaps, sorted)
  {
    assert forall k | k in sorted :: OwnShort(s.cfg, s.supply, k) > 0.0;
    forall a, b, p, q | 0 <= a < b < |sorted|
      ensures Preferred(s.cfg, s.log, s.supply, Gaps, Intent(p, sorted[a], Specific), Intent(q, sorted[b], Specific))
    {
      assert sorted[a] in kinds && sorted[b] in kinds && ByLeastProduced(s.intentStats)(sorted[a], sorted[b]);
      GapKeys(s, sorted[a], sorted[b], p, q);
    }
  }

  lemma LaneInOrder(s: SearchState, kinds: seq<IntentType>, missing: nat)
    requires s.Valid() && (kinds == [HiddenGems] || kinds == [Places, Food])
    requires missing > 0 <==> OwnShort(s.cfg, s.supply, kinds[0]) > 0.0
    ensures InOrder(s.cfg, s.log, s.supply, Gaps, s.LaneAsks(missing, kinds))
    ensures missing > 0 ==> forall p, k | p in s.AvailablePlatforms() && k in kinds :: Intent(p, k, Specific) in s.LaneAsks(missing, kinds)
    ensures forall i | i in s.LaneAsks(missing, kinds) :: i.kind in kinds
  {
    if missing > 0 {
      var sorted := Sorting.Sort(kinds, ByLeastProduced(s.intentStats));
      LaneSorted(s.intentStats, kinds);
      LaneRanked(s, kinds, sorted);
      PairsInOrder(s, Gaps, sorted);
    }
  }

  lemma GapsInOrder(s: SearchState, forYou: seq<Intent>, trending: seq<Intent>)
    requires InOrder(s.cfg, s.log, s.supply, Gaps, forYou) && InOrder(s.cfg, s.log, s.supply, Gaps, trending)
    requires (forall i | i in forYou :: i.kind == HiddenGems) && (forall i | i in trending :: i.kind != HiddenGems)
    ensures InOrder(s.cfg, s.log, s.supply, Gaps, if ForYouWorse(s.cfg, s.supply) then forYou + trending else trending + forYou)
  {
    WorseIff(s.cfg, s.supply);
    if ForYouWorse(s.cfg, s.supply) {
      InOrderJoin(s.cfg, s.log, s.supply, Gaps, forYou, trending);
    } else {
      InOrderJoin(s.cfg, s.log, s.supply, Gaps, trending, forYou);
    }
  }

  /** What is offered has a kind of one of the lanes that are short, and is asked in full. */
  lemma GapOffered(s: SearchState, i: Intent)
    requires Offered(s.cfg, s.log, s.supply, Gaps, i)
    ensures i == Intent(i.platform, i.kind, Specific) && i.platform in s.AvailablePlatforms()
    ensures if i.kind == HiddenGems then ForYouDeficit(s.cfg, s.supply).missing > 0 else TrendingDeficit(s.cfg, s.supply).missing > 0
  {
    WorseIff(s.cfg, s.supply);
  }

  lemma GapsFirst(s: SearchState)
    requires s.Valid()
    ensures FollowsRung(s, Gaps, s.FirstAvailable(s.GapAsks()))
  {
    var f, t := ForYouDeficit(s.cfg, s.supply).missing, TrendingDeficit(s.cfg, s.supply).missing;
    var forYou, trending := s.LaneAsks(f, [HiddenGems]), s.LaneAsks(t, [Places, Food]);
    WorseIff(s.cfg, s.supply);
    LaneInOrder(s, [HiddenGems], f);
    LaneInOrder(s, [Places, Food], t);
    GapsInOrder(s, forYou, trending);
    GapsComplete(s, f, t, forYou, trending);
    FirstIsBest(s, Gaps, s.GapAsks());
  }

  lemma GapsComplete(s: SearchState, f: nat, t: nat, forYou: seq<Intent>, trending: seq<Intent>)
    requires f == ForYouDeficit(s.cfg, s.supply).missing && t == TrendingDeficit(s.cfg, s.supply).missing
    requires forYou == s.LaneAsks(f, [HiddenGems]) && trending == s.LaneAsks(t, [Places, Food])
    requires f > 0 ==> forall p, k | p in s.AvailablePlatforms() && k in [HiddenGems] :: Intent(p, k, Specific) in forYou
    requires t > 0 ==> forall p, k | p in s.AvailablePlatforms() && k in [Places, Food] :: Intent(p, k, Specific) in trending
    ensures Complete(s.cfg, s.log, s.supply, Gaps, s.GapAsks())
  {
    forall i | Offered(s.cfg, s.log, s.supply, Gaps, i) ensures i in s.GapAsks() {
      GapOffered(s, i);
      if i.kind == HiddenGems {
        assert Intent(i.platform, i.kind, Specific) in forYou;
      } else {
        assert i.kind in [Places, Food] && Intent(i.platform, i.kind, Specific) in trending;
      }
    }
  }

  function ByOpening(): (IntentType, IntentType) -> bool { (k: IntentType, l: IntentType) => KindIndex(k) <= KindIndex(l) }

  /** The kind that found less comes first, the earlier in the opening among equals. */
  predicate FoundLess(log: seq<Action>, k: IntentType, l: IntentType)
  {
    || Found(log, OfKind(k)) < Found(log, OfKind(l))
    || (Found(log, OfKind(k)) == Found(log, OfKind(l)) && KindIndex(k) <= KindIndex(l))
  }

  lemma KindsSorted(stats: map<IntentType, Stats>, kinds: seq<IntentType>)
    requires kinds == Sorting.Sort(OPENING_SEQUENCE, ByNewPlaces(stats))
    ensures Distinct(kinds) && Sorting.Ordered(kinds, Sorting.Then(ByNewPlaces(stats), ByOpening()))
  {
    assert Sorting.Ordered(OPENING_SEQUENCE, ByOpening()) && Distinct(OPENING_SEQUENCE);
    KindsStable(stats, OPENING_SEQUENCE);
  }

  lemma KindsStable(stats: map<IntentType, Stats>, kinds: seq<IntentType>)
    requires Sorting.Ordered(kinds, ByOpening()) && Distinct(kinds)
    ensures var sorted := Sorting.Sort(kinds, ByNewPlaces(stats));
      Distinct(sorted) && Sorting.Ordered(sorted, Sorting.Then(ByNewPlaces(stats), ByOpening()))
  {
    Sorting.SortKeeps(kinds, ByNewPlaces(stats));
    Sorting.SortStable(kinds, ByNewPlaces(stats), ByOpening());
    DistinctRearranged(kinds, Sorting.Sort(kinds, ByNewPlaces(stats)));
  }

  lemma ByFound(s: SearchState, k: IntentType, l: IntentType)
    requires s.Valid() && Sorting.Then(ByNewPlaces(s.intentStats), ByOpening())(k, l)
    ensures FoundLess(s.log, k, l)
  {
    KindStats(s, k);
    KindStats(s, l);
  }

  lemma RemainingFirst(s: SearchState)
    requires s.Valid()
    ensures FollowsRung(s, Remaining, s.FirstAvailable(s.RemainingAsks()))
  {
    var kinds := Sorting.Sort(OPENING_SEQUENCE, ByNewPlaces(s.intentStats));
    KindsSorted(s.intentStats, kinds);
    forall a, b | 0 <= a < b < |kinds| ensures FoundLess(s.log, kinds[a], kinds[b]) {
      ByFound(s, kinds[a], kinds[b]);
    }
    RemainingRanked(s.cfg, s.log, s.supply, kinds);
    PairsInOrder(s, Remaining, kinds);
    forall i | Offered(s.cfg, s.log, s.supply, Remaining, i) ensures i in s.RemainingAsks() {
      RemainingOffered(s, i);
    }
    FirstIsBest(s, Remaining, s.RemainingAsks());
  }

  lemma RemainingOffered(s: SearchState, i: Intent)
    requires Offered(s.cfg, s.log, s.supply, Remaining, i)
    ensures i == Intent(i.platform, i.kind, Specific) && i.platform in s.AvailablePlatforms()
  {
  }

  lemma RemainingRanked(cfg: Config, log: seq<Action>, supply: Supply, kinds: seq<IntentType>)
    requires Distinct(kinds) && forall a, b | 0 <= a < b < |kinds| :: FoundLess(log, kinds[a], kinds[b])
    ensures KindsRanked(cfg, log, supply, Remaining, kinds)
  {
    forall a, b, p, q | 0 <= a < b < |kinds|
      ensures Preferred(cfg, log, supply, Remaining, Intent(p, kinds[a], Specific), Intent(q, kinds[b], Specific))
    {
      assert FoundLess(log, kinds[a], kinds[b]) && KindIndex(kinds[a]) != KindIndex(kinds[b]);
    }
  }

  // ----- what the ladder means for a search -----

  /** The answer as a search, if it is one. */
  function Next(d: Decision): Option<Intent> { if d.Search? then Some(d.intent) else None }

  /** While Reels are missing and Instagram has a question left, the next search is a Reel search, or
      a note search in a Chinese run, and asks in full before it asks with fewer words. */
  ghost predicate ReelsComeFirst(cfg: Config, log: seq<Action>, supply: Supply, next: Option<Intent>)
  {
    supply.reels < cfg.reelTarget && Instagram in cfg.platforms
    && (exists k, w :: w != Broad && IsAvailable(cfg, log, Intent(Instagram, k, w))) ==>
      && next.Some? && next.value.platform in {Instagram, RedNote}
      && (next.value.platform == RedNote ==> cfg.chinese && RedNote in cfg.platforms)
      && (next.value.platform == Instagram && next.value.specificity != Specific ==>
            forall k :: !IsAvailable(cfg, log, Intent(Instagram, k, Specific)))
  }

  /** The lane with the larger shortfall still has a question to ask in full. */
  ghost predicate LaneCanAsk(cfg: Config, log: seq<Action>, kinds: set<IntentType>)
  {
    exists p, k :: p in cfg.platforms && k in kinds && IsAvailable(cfg, log, Intent(p, k, Specific))
  }

  /** Reels suffice, something was found, and the searches are not exhausted. */
  ghost predicate YieldDecides(cfg: Config, log: seq<Action>, supply: Supply)
  {
    && supply.reels >= cfg.reelTarget && supply.discovered > 0
    && TrailingRun(NonErrors(log), LowYield(cfg.lowYieldNewPlaces)) < cfg.maxLowYield
    && TrailingRun(NonErrors(log), Duplicates()) < cfg.maxDuplicateHeavy
  }

  /** After a question the index had nothing for, the same question with fewer words comes next. */
  ghost predicate EmptyAnswerIsReworded(cfg: Config, log: seq<Action>, supply: Supply, next: Option<Intent>)
  {
    var last := LastInformative(log);
    YieldDecides(cfg, log, supply) && last != [] && YieldOf(last[0].outcome) == NoSearchResults ==>
      forall wider | wider in Broadened(last[0].intent) && IsAvailable(cfg, log, wider) :: next == Some(wider)
  }

  /** Nothing stands between the planner and its lane gaps: the last answer calls for no other wording. */
  ghost predicate GapsDecide(cfg: Config, log: seq<Action>, supply: Supply)
  {
    var last := LastInformative(log);
    && YieldDecides(cfg, log, supply)
    && (last == [] || YieldOf(last[0].outcome) !in {NoSearchResults, NoMentions})
  }

  /** Then the lane furthest from its target, as a fraction of it, is asked first. */
  ghost predicate WorseLaneComesFirst(cfg: Config, log: seq<Action>, supply: Supply, next: Option<Intent>)
  {
    GapsDecide(cfg, log, supply) ==>
      && (ForYouWorse(cfg, supply) && ForYouDeficit(cfg, supply).missing > 0 && LaneCanAsk(cfg, log, {HiddenGems}) ==>
            next.Some? && next.value.kind == HiddenGems && next.value.specificity == Specific)
      && (!ForYouWorse(cfg, supply) && TrendingDeficit(cfg, supply).missing > 0 && LaneCanAsk(cfg, log, {Places, Food}) ==>
            next.Some? && next.value.kind != HiddenGems && next.value.specificity == Specific)
  }

  lemma ReelsAreAsked(cfg: Config, log: seq<Action>, supply: Supply, d: Decision)
    requires AdaptiveDecision(cfg, log, supply, d)
    ensures ReelsComeFirst(cfg, log, supply, Next(d))
  {
    if supply.reels < cfg.reelTarget && Instagram in cfg.platforms {
      if k, w :| w != Broad && IsAvailable(cfg, log, Intent(Instagram, k, w)) {
        assert Offered(cfg, log, supply, Reels, Intent(Instagram, k, w));
        forall l | IsAvailable(cfg, log, Intent(Instagram, l, Specific)) ensures Offered(cfg, log, supply, Reels, Intent(Instagram, l, Specific)) {
        }
      }
    }
  }

  lemma GapsReached(cfg: Config, log: seq<Action>, supply: Supply, d: Decision)
    requires AdaptiveDecision(cfg, log, supply, d) && GapsDecide(cfg, log, supply) && !Nothing(cfg, log, supply, Gaps)
    ensures Picks(cfg, log, supply, Gaps, d)
  {
    YieldReached(cfg, log, supply, d);
    LastOfNonErrors(log);
    NoneFailed(log);
    forall i ensures RecoveryKey(log, i) == None {
      var informative := NonErrors(log);
      assert informative != [] ==> informative[|informative| - 1] in informative;
    }
  }

  lemma YieldReached(cfg: Config, log: seq<Action>, supply: Supply, d: Decision)
    requires AdaptiveDecision(cfg, log, supply, d) && YieldDecides(cfg, log, supply)
    ensures YieldDecision(cfg, log, supply, d) && !Exhausted(cfg, log)
  {
    TrailingRunMeans(NonErrors(log), LowYield(cfg.lowYieldNewPlaces), cfg.maxLowYield);
    TrailingRunMeans(NonErrors(log), Duplicates(), cfg.maxDuplicateHeavy);
    NoneFailed(log);
  }

  lemma WorseLaneIsAsked(cfg: Config, log: seq<Action>, supply: Supply, d: Decision)
    requires AdaptiveDecision(cfg, log, supply, d)
    ensures WorseLaneComesFirst(cfg, log, supply, Next(d))
  {
    WorseIff(cfg, supply);
    if GapsDecide(cfg, log, supply) {
      var kinds := if ForYouWorse(cfg, supply) then {HiddenGems} else {Places, Food};
      if LaneCanAsk(cfg, log, kinds) && OwnShort(cfg, supply, if ForYouWorse(cfg, supply) then HiddenGems else Places) > 0.0 {
        var p, k :| p in cfg.platforms && k in kinds && IsAvailable(cfg, log, Intent(p, k, Specific));
        assert Offered(cfg, log, supply, Gaps, Intent(p, k, Specific));
        GapsReached(cfg, log, supply, d);
        assert Preferred(cfg, log, supply, Gaps, d.intent, Intent(p, k, Specific));
      }
    }
  }

  lemma EmptyAnswersAreReworded(cfg: Config, log: seq<Action>, supply: Supply, d: Decision)
    requires AdaptiveDecision(cfg, log, supply, d) && PlatformsWithin(log, cfg.platforms)
    ensures EmptyAnswerIsReworded(cfg, log, supply, Next(d))
  {
    var last := LastInformative(log);
    LastOfNonErrors(log);
    NoneFailed(log);
    LastInformativeIsLogged(log);
    if YieldDecides(cfg, log, supply) && last != [] && YieldOf(last[0].outcome) == NoSearchResults {
      YieldReached(cfg, log, supply, d);
      forall wider | wider in Broadened(last[0].intent) && IsAvailable(cfg, log, wider) ensures Next(d) == Some(wider) {
        assert Offered(cfg, log, supply, Recovery, wider);
        SameKeySameQuestion(cfg, log, supply, Recovery, d.intent, wider);
      }
    }
  }

  // ----- whole runs -----

  /** The first three searches ask the three opening intents in order, in full, and go to
      different platforms as long as there are any. */
  predicate OpeningInOrder(cfg: Config, log: seq<Action>)
  {
    && (forall i | 0 <= i < |log| && i < 3 ::
          log[i].intent.kind == OPENING_SEQUENCE[i] && log[i].intent.specificity == Specific)
    && (forall i, j | 0 <= i < j < |log| && j < 3 && j < |cfg.platforms| ::
          log[i].intent.platform != log[j].intent.platform)
  }

  lemma NextUnasked(cfg: Config, log: seq<Action>)
    requires OpeningInOrder(cfg, log) && |log| < 3
    ensures FirstUnasked(log) == Some(OPENING_SEQUENCE[|log|])
  {
    TotalOfUnasked(log, OfKind(Places));
    TotalOfUnasked(log, OfKind(Food));
    TotalOfUnasked(log, OfKind(HiddenGems));
    assert |log| > 0 ==> Covers(OfKind(Places), log[0]);
    assert |log| > 1 ==> Covers(OfKind(Food), log[1]);
  }

  lemma OpeningStep(cfg: Config, log: seq<Action>, a: Action)
    requires Distinct(cfg.platforms) && OpeningInOrder(cfg, log) && |log| < 3
    requires Opens(cfg, log, OPENING_SEQUENCE[|log|], a.intent)
    ensures OpeningInOrder(cfg, log + [a])
  {
    if |log| < |cfg.platforms| {
      var p := SomePlatformUnasked(log, cfg.platforms);
      TotalOfUnasked(log, OfPlatform(a.intent.platform));
      forall i | 0 <= i < |log| ensures log[i].intent.platform != a.intent.platform {
        assert !Covers(OfPlatform(a.intent.platform), log[i]);
      }
    }
  }

  ghost predicate WithinCap(cfg: Config, log: seq<Action>)
  {
    forall p, k :: Attempts(log, p, k) <= cfg.maxAttempts
  }

  lemma CapStep(cfg: Config, log: seq<Action>, a: Action)
    requires WithinCap(cfg, log) && IsAvailable(cfg, log, a.intent)
    ensures WithinCap(cfg, log + [a])
  {
    forall p, k ensures Attempts(log + [a], p, k) <= cfg.maxAttempts {
      TotalExtend(log, a, OfPair(p, k), One);
      assert Attempts(log, p, k) <= cfg.maxAttempts;
      if Covers(OfPair(p, k), a) {
        assert p == a.intent.platform && k == a.intent.kind;
      }
    }
  }

  /** Nothing repeated, no question over its cap, and so no more searches than the ceiling, the
      caps and the wordings allow. */
  ghost predicate Bounded(cfg: Config, log: seq<Action>)
  {
    && NoRepeat(log) && WithinCap(cfg, log) && PlatformsWithin(log, cfg.platforms)
    && |log| <= cfg.maxSearches
    && |log| <= 3 * Min(cfg.maxAttempts, 3) * |cfg.platforms|
  }

  lemma LogIsBounded(cfg: Config, log: seq<Action>)
    requires Distinct(cfg.platforms) && NoRepeat(log) && WithinCap(cfg, log) && PlatformsWithin(log, cfg.platforms)
    requires |log| <= cfg.maxSearches
    ensures Bounded(cfg, log)
  {
    forall p, k ensures Attempts(log, p, k) <= Min(cfg.maxAttempts, 3) {
      AttemptsAtMostThree(log, p, k);
    }
    SearchesWithinCaps(log, cfg.platforms, Min(cfg.maxAttempts, 3));
  }

  /** One round: search, fold the answer in, take over what verification reports, plan again. */
  method MineOnce(state: SearchState, intent: Intent, outcome: Outcome, reported: Supply) returns (next: Option<Intent>)
    requires state.Valid() && Distinct(state.cfg.platforms) && Mined(state.cfg, state.log)
    requires Planned(state.cfg, state.log, state.supply, state.stopReason, Some(intent))
    modifies state
    ensures state.Valid() && state.log == old(state.log) + [Action(intent, outcome)] && state.supply == reported
    ensures Mined(state.cfg, state.log) && Planned(state.cfg, state.log, state.supply, state.stopReason, next)
  {
    MinedStep(state.cfg, state.log, state.supply, state.stopReason, Some(intent), outcome);
    state.Update(intent, outcome);
    state.supply := reported;
    next := PlanRound(state);
  }

  /** Search one city until the planner stops. Whatever the provider answers and verification
      reports, the run is bounded, repeats nothing, opens in order, and its stop is justified
      by its log; an opening that can be asked is cut short only by the ceiling, exhausted
      verification, a met target or a dead provider. */
  method MineCity(cfg: Config, initial: Supply) returns (log: seq<Action>, reason: StopReason, supply: Supply)
    requires Distinct(cfg.platforms)
    ensures Bounded(cfg, log) && Justified(cfg, log, supply, reason) && Decides(cfg, log, supply, Decision.Stop(reason))
    ensures OpeningPossible(cfg) ==> OpeningInOrder(cfg, log) && (|log| < 3 ==> EarlyStop(cfg, log, supply))
  {
    var state := new SearchState(cfg, initial);
    assert Mined(cfg, state.log);
    var next := PlanRound(state);
    while next.Some?
      invariant fresh(state) && state.Valid() && state.cfg == cfg
      invariant Mined(cfg, state.log) && Planned(cfg, state.log, state.supply, state.stopReason, next)
      decreases cfg.maxSearches - |state.log|, next.Some?
    {
      var outcome: Outcome, reported: Supply := *, *;
      next := MineOnce(state, next.value, outcome, reported);
    }
    LogIsBounded(cfg, state.log);
    return state.log, state.stopReason.value, state.supply;
  }

  /** What the log satisfies between two rounds. */
  ghost predicate Mined(cfg: Config, log: seq<Action>)
  {
    && |log| <= cfg.maxSearches && NoRepeat(log) && WithinCap(cfg, log)
    && (OpeningPossible(cfg) ==> OpeningInOrder(cfg, log))
  }

  /** What a plan promises the round it starts, or the stop it reports. */
  ghost predicate Planned(cfg: Config, log: seq<Action>, supply: Supply, stopReason: Option<StopReason>, next: Option<Intent>)
  {
    Decides(cfg, log, supply, AnswerOf(next, stopReason)) &&
    match next
    case Some(intent) =>
      && IsAvailable(cfg, log, intent) && intent.platform in cfg.platforms && |log| < cfg.maxSearches
      && (OpeningPossible(cfg) && |log| < 3 ==> Opens(cfg, log, OPENING_SEQUENCE[|log|], intent))
    case None =>
      && stopReason.Some? && Justified(cfg, log, supply, stopReason.value)
      && (OpeningPossible(cfg) && |log| < 3 ==> EarlyStop(cfg, log, supply))
  }

  method PlanRound(state: SearchState) returns (next: Option<Intent>)
    requires state.Valid() && Mined(state.cfg, state.log)
    modifies state`stopReason
    ensures state.Valid() && Planned(state.cfg, state.log, state.supply, state.stopReason, next)
  {
    if OpeningPossible(state.cfg) && |state.log| < 3 {
      NextUnasked(state.cfg, state.log);
    }
    next := state.PlanNext();
  }

  lemma MinedStep(
    cfg: Config, log: seq<Action>, supply: Supply, stopReason: Option<StopReason>, next: Option<Intent>, outcome: Outcome)
    requires Distinct(cfg.platforms) && Mined(cfg, log) && Planned(cfg, log, supply, stopReason, next) && next.Some?
    ensures Mined(cfg, log + [Action(next.value, outcome)])
  {
    var a := Action(next.value, outcome);
    CapStep(cfg, log, a);
    if OpeningPossible(cfg) && |log| < 3 {
      OpeningStep(cfg, log, a);
    }
  }
}
