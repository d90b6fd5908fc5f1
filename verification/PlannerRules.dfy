/** What the next search of a city has to be: the planner's ladder, read off the log.

    Each rung asks some questions and prefers some of them to others, by what the log says of their
    platform and their kind. The next search is the preferred question that can be asked on the first
    rung that has one, unless a reason to stop comes before that rung. None of this mentions the
    planner's counters or the lists it walks through. */
module PlannerRules {
  import opened Schedule
  import opened Sums
  import opened SearchLog
  import opened Lanes
  import opened Lists

  datatype StopReason =
    | TargetReached
    | SearchBudgetReached
    | LowYieldStop
    | NoSearchActionsLeft
    | ProviderUnavailable
    | VerificationBudgetReached

  /** What is fixed for a run. */
  datatype Config = Config(
    platforms: seq<Platform>, chinese: bool, hasLocalName: bool,
    targetCandidates: nat, reelTarget: nat, foodTarget: nat, attractionTarget: nat,
    maxSearches: nat, lowYieldNewPlaces: nat, maxLowYield: nat, maxDuplicateHeavy: nat,
    maxProviderErrors: nat, maxAttempts: nat, coldStartMax: nat, probeMin: nat)

  /** What discovery and verification report between searches. */
  datatype Supply = Supply(
    reels: nat, food: nat, attractions: nat, trending: nat, forYou: nat, discovered: nat, exhausted: bool)

  /** What the planner may still spend a search on, read off the log: a query can be worded, a Chinese one
      only with the local name; this wording has not run, and its question not too often. */
  predicate IsAvailable(cfg: Config, log: seq<Action>, intent: Intent)
  {
    (cfg.chinese ==> cfg.hasLocalName) && !HasRun(log, intent) && Attempts(log, intent.platform, intent.kind) < cfg.maxAttempts
  }

  predicate IsOpen(cfg: Config, log: seq<Action>, intent: Intent)
  {
    intent.platform in cfg.platforms && IsAvailable(cfg, log, intent)
  }

  // ----- reasons to stop -----

  /** How much of its target a lane lacks. */
  function Shortfall(supply: nat, target: nat): real
  {
    if supply >= target then 0.0 else (target - supply) as real / target as real
  }

  function ForYouShort(cfg: Config, supply: Supply): real
  {
    Shortfall(supply.forYou, LaneSlots(cfg.targetCandidates).forYou)
  }

  function TrendingShort(cfg: Config, supply: Supply): real
  {
    Shortfall(supply.trending, LaneSlots(cfg.targetCandidates).trending)
  }

  /** There is a target, and everything wanted is there. */
  predicate TargetsMet(cfg: Config, supply: Supply)
  {
    && cfg.targetCandidates > 0
    && supply.reels >= cfg.reelTarget && supply.food >= cfg.foodTarget && supply.attractions >= cfg.attractionTarget
    && ForYouShort(cfg, supply) == 0.0 == TrendingShort(cfg, supply)
  }

  /** The last `n` searches all failed. */
  predicate LastFailed(log: seq<Action>, n: nat)
  {
    n <= |log| && forall i | |log| - n <= i < |log| :: log[i].outcome.failed
  }

  /** The reasons to stop that come before the opening, the first that applies. */
  ghost function EarlyReason(cfg: Config, log: seq<Action>, supply: Supply): Option<StopReason>
  {
    if |log| >= cfg.maxSearches then Some(SearchBudgetReached)
    else if supply.exhausted then Some(VerificationBudgetReached)
    else if TargetsMet(cfg, supply) then Some(TargetReached)
    else if LastFailed(log, cfg.maxProviderErrors) then Some(ProviderUnavailable)
    else None
  }

  /** The last `n` searches that were no provider errors all satisfy `p`. */
  ghost predicate LastAll(log: seq<Action>, n: nat, p: Action -> bool)
  {
    var informative := NonErrors(log);
    n <= |informative| && forall i | |informative| - n <= i < |informative| :: p(informative[i])
  }

  /** Searching finds little, or little that is new. */
  ghost predicate Exhausted(cfg: Config, log: seq<Action>)
  {
    || LastAll(log, cfg.maxLowYield, (a: Action) => a.outcome.newPlaces <= cfg.lowYieldNewPlaces)
    || LastAll(log, cfg.maxDuplicateHeavy, (a: Action) =>
         a.outcome.raw > 0 && a.outcome.extracted > 0 && a.outcome.resolved > 0 && a.outcome.newPlaces == 0)
  }

  // ----- what a rung asks, and what it prefers -----

  /** Preference: less is better, the first difference decides. */
  datatype Key = Key(a: nat, b: nat, c: nat, d: nat, e: nat)

  predicate Leq(x: Key, y: Key)
  {
    if x.a != y.a then x.a < y.a
    else if x.b != y.b then x.b < y.b
    else if x.c != y.c then x.c < y.c
    else if x.d != y.d then x.d < y.d
    else x.e <= y.e
  }

  function Index(ps: seq<Platform>, p: Platform): (i: nat)
    ensures p in ps ==> i < |ps| && ps[i] == p
  {
    if ps == [] || ps[0] == p then 0 else 1 + Index(ps[1..], p)
  }

  function KindIndex(k: IntentType): nat { match k case Places => 0 case Food => 1 case HiddenGems => 2 }

  function WordIndex(w: Specificity): nat { match w case Specific => 0 case Normal => 1 case Broad => 2 }

  function Searches(log: seq<Action>, scope: Scope): nat { Total(log, scope, One) }

  function Found(log: seq<Action>, scope: Scope): nat { Total(log, scope, NewPlaces) }

  /** Which of a platform's searches it is judged on: those of one kind, or all. */
  function JudgedOn(p: Platform, kind: Option<IntentType>): Scope { Scope(Some(p), kind) }

  /** Platforms in the configured order, those that proved unproductive after all others. */
  function PlatformRank(cfg: Config, log: seq<Action>, p: Platform, kind: Option<IntentType>): nat
  {
    var scope := JudgedOn(p, kind);
    Index(cfg.platforms, p) + if Searches(log, scope) >= cfg.probeMin && Found(log, scope) == 0 then |cfg.platforms| else 0
  }

  /** The first opening intent nobody asked yet. */
  function FirstUnasked(log: seq<Action>): Option<IntentType>
  {
    if Total(log, OfKind(Places), One) == 0 then Some(Places)
    else if Total(log, OfKind(Food), One) == 0 then Some(Food)
    else if Total(log, OfKind(HiddenGems), One) == 0 then Some(HiddenGems)
    else None
  }

  predicate OpeningPossible(cfg: Config)
  {
    (cfg.chinese ==> cfg.hasLocalName) && cfg.platforms != [] && cfg.maxAttempts > 0
  }

  datatype Rung = Opening | Notes | Reels | Cold | Recovery | Gaps | Remaining

  /** The opening intent in full, on the platform searched least. */
  function OpeningKey(cfg: Config, log: seq<Action>, i: Intent): Option<Key>
  {
    if FirstUnasked(log) == Some(i.kind) && i.specificity == Specific
    then Some(Key(Searches(log, OfPlatform(i.platform)), PlatformRank(cfg, log, i.platform, None), 0, 0, 0))
    else None
  }

  /** The Reel searches that got an answer. */
  function AnsweredReels(log: seq<Action>): seq<Action>
  {
    Where(log, (a: Action) => a.intent.platform == Instagram && !a.outcome.failed)
  }

  /** Enough Reel searches were made, and none of the last ones found much. */
  predicate ReelsDisappoint(cfg: Config, log: seq<Action>)
  {
    var reels := AnsweredReels(log);
    && |reels| >= cfg.probeMin
    && forall i | (if cfg.probeMin == 0 then 0 else |reels| - cfg.probeMin) <= i < |reels| ::
         reels[i].outcome.newPlaces <= cfg.lowYieldNewPlaces
  }

  /** In a Chinese run, each kind once in notes when Reels disappoint. */
  function NotesKey(cfg: Config, log: seq<Action>, i: Intent): Option<Key>
  {
    if cfg.chinese && ReelsDisappoint(cfg, log) && i.platform == RedNote && i.specificity == Specific
    then Some(Key(KindIndex(i.kind), 0, 0, 0, 0))
    else None
  }

  /** Food first while food is missing; else gems before or after the others, whichever lane lacks more. */
  function ReelPlace(cfg: Config, supply: Supply, k: IntentType): nat
  {
    if k == Food && supply.food < cfg.foodTarget then 0
    else if k != HiddenGems then 2 + KindIndex(k)
    else if ForYouShort(cfg, supply) >= TrendingShort(cfg, supply) then 1 else 4
  }

  /** Every kind of Reel in full before any with fewer words. */
  function ReelsKey(cfg: Config, supply: Supply, i: Intent): Option<Key>
  {
    if i.platform == Instagram && i.specificity != Broad
    then Some(Key(WordIndex(i.specificity), ReelPlace(cfg, supply, i.kind), 0, 0, 0))
    else None
  }

  /** Simpler wordings, platform by platform and kind by kind, fewer words before fewest. */
  function ColdKey(cfg: Config, log: seq<Action>, i: Intent): Option<Key>
  {
    if i.specificity != Specific
    then Some(Key(PlatformRank(cfg, log, i.platform, None), KindIndex(i.kind), WordIndex(i.specificity), 0, 0))
    else None
  }

  /** After posts without a venue, food and then gems on the same platform; then, and after no posts at
      all, the same question with fewer words. */
  function RecoveryKey(log: seq<Action>, i: Intent): Option<Key>
  {
    var informative := NonErrors(log);
    if informative == [] then None
    else
      var last := informative[|informative| - 1];
      if (last.outcome.raw > 0 && last.outcome.extracted > 0) || i.platform != last.intent.platform then None
      else if last.outcome.raw > 0 && i.kind == Food && i.specificity == Specific then Some(Key(0, 0, 0, 0, 0))
      else if last.outcome.raw > 0 && i.kind == HiddenGems && i.specificity == Specific then Some(Key(1, 0, 0, 0, 0))
      else if i.kind == last.intent.kind && WordIndex(i.specificity) == WordIndex(last.intent.specificity) + 1 then Some(Key(2, 0, 0, 0, 0))
      else None
  }

  /** How much the lane a kind fills lacks of its target, and the other one. */
  function OwnShort(cfg: Config, supply: Supply, k: IntentType): real
  {
    if k == HiddenGems then ForYouShort(cfg, supply) else TrendingShort(cfg, supply)
  }

  predicate LaneFirst(cfg: Config, supply: Supply, k: IntentType)
  {
    k == HiddenGems <==> ForYouShort(cfg, supply) >= TrendingShort(cfg, supply)
  }

  /** Kinds of lanes short of their target, the lane that lacks more before the other; in it the kind
      that found least, was asked least, comes first. */
  function GapsKey(cfg: Config, log: seq<Action>, supply: Supply, i: Intent): Option<Key>
  {
    if i.specificity == Specific && OwnShort(cfg, supply, i.kind) > 0.0
    then Some(Key(if LaneFirst(cfg, supply, i.kind) then 0 else 1, Found(log, OfKind(i.kind)), Searches(log, OfKind(i.kind)),
                  KindIndex(i.kind), PlatformRank(cfg, log, i.platform, Some(i.kind))))
    else None
  }

  /** Any kind in full, the one that found least first. */
  function RemainingKey(cfg: Config, log: seq<Action>, i: Intent): Option<Key>
  {
    if i.specificity == Specific
    then Some(Key(Found(log, OfKind(i.kind)), KindIndex(i.kind), PlatformRank(cfg, log, i.platform, Some(i.kind)), 0, 0))
    else None
  }

  function KeyOf(cfg: Config, log: seq<Action>, supply: Supply, rung: Rung, i: Intent): Option<Key>
  {
    match rung
    case Opening => OpeningKey(cfg, log, i)
    case Notes => NotesKey(cfg, log, i)
    case Reels => ReelsKey(cfg, supply, i)
    case Cold => ColdKey(cfg, log, i)
    case Recovery => RecoveryKey(log, i)
    case Gaps => GapsKey(cfg, log, supply, i)
    case Remaining => RemainingKey(cfg, log, i)
  }

  /** The rung asks this question, and it can be asked. */
  predicate Offered(cfg: Config, log: seq<Action>, supply: Supply, rung: Rung, i: Intent)
  {
    IsOpen(cfg, log, i) && KeyOf(cfg, log, supply, rung, i).Some?
  }

  ghost predicate Nothing(cfg: Config, log: seq<Action>, supply: Supply, rung: Rung)
  {
    forall i :: !Offered(cfg, log, supply, rung, i)
  }

  /** The rung asks both, and the first no later than the second. */
  predicate Preferred(cfg: Config, log: seq<Action>, supply: Supply, rung: Rung, i: Intent, j: Intent)
  {
    && KeyOf(cfg, log, supply, rung, i).Some? && KeyOf(cfg, log, supply, rung, j).Some?
    && Leq(KeyOf(cfg, log, supply, rung, i).value, KeyOf(cfg, log, supply, rung, j).value)
  }

  /** The rung offers `i`, and nothing it prefers to `i`. */
  ghost predicate Best(cfg: Config, log: seq<Action>, supply: Supply, rung: Rung, i: Intent)
  {
    && Offered(cfg, log, supply, rung, i)
    && forall j | Offered(cfg, log, supply, rung, j) ::
         Preferred(cfg, log, supply, rung, i, j)
  }

  /** The planner's answer: a search, or the reason for none. */
  datatype Decision = Search(intent: Intent) | Stop(reason: StopReason)

  /** The best question of the rung, if it offers any. */
  ghost predicate Picks(cfg: Config, log: seq<Action>, supply: Supply, rung: Rung, d: Decision)
  {
    d.Search? && Best(cfg, log, supply, rung, d.intent)
  }

  /** Once searching is adaptive and not exhausted: recover, fill a lane, top up, or stop. */
  ghost predicate YieldDecision(cfg: Config, log: seq<Action>, supply: Supply, d: Decision)
  {
    if Exhausted(cfg, log) then d == Stop(LowYieldStop)
    else if !Nothing(cfg, log, supply, Recovery) then Picks(cfg, log, supply, Recovery, d)
    else if !Nothing(cfg, log, supply, Gaps) then Picks(cfg, log, supply, Gaps, d)
    else if !Nothing(cfg, log, supply, Remaining) then Picks(cfg, log, supply, Remaining, d)
    else d == Stop(NoSearchActionsLeft)
  }

  /** After the opening: Reels while they are missing, simpler questions while nothing was found. */
  ghost predicate AdaptiveDecision(cfg: Config, log: seq<Action>, supply: Supply, d: Decision)
  {
    if supply.reels < cfg.reelTarget && !Nothing(cfg, log, supply, Notes) then Picks(cfg, log, supply, Notes, d)
    else if supply.reels < cfg.reelTarget && !Nothing(cfg, log, supply, Reels) then Picks(cfg, log, supply, Reels, d)
    else if supply.discovered > 0 || |log| >= cfg.coldStartMax then YieldDecision(cfg, log, supply, d)
    else if !Nothing(cfg, log, supply, Cold) then Picks(cfg, log, supply, Cold, d)
    else d == Stop(NoSearchActionsLeft)
  }

  /** The whole ladder. */
  ghost predicate Decides(cfg: Config, log: seq<Action>, supply: Supply, d: Decision)
  {
    if EarlyReason(cfg, log, supply).Some? then d == Stop(EarlyReason(cfg, log, supply).value)
    else if !Nothing(cfg, log, supply, Opening) then Picks(cfg, log, supply, Opening, d)
    else AdaptiveDecision(cfg, log, supply, d)
  }

  // ----- the ladder leaves nothing open -----

  lemma RankIsOwn(cfg: Config, log: seq<Action>, p: Platform, q: Platform, kind: Option<IntentType>)
    requires p in cfg.platforms && q in cfg.platforms && PlatformRank(cfg, log, p, kind) == PlatformRank(cfg, log, q, kind)
    ensures p == q
  {
  }

  lemma SameKeySameQuestion(cfg: Config, log: seq<Action>, supply: Supply, rung: Rung, i: Intent, j: Intent)
    requires Offered(cfg, log, supply, rung, i) && Offered(cfg, log, supply, rung, j)
    requires KeyOf(cfg, log, supply, rung, i) == KeyOf(cfg, log, supply, rung, j)
    ensures i == j
  {
    match rung
    case Opening => RankIsOwn(cfg, log, i.platform, j.platform, None);
    case Cold => RankIsOwn(cfg, log, i.platform, j.platform, None);
    case Gaps => RankIsOwn(cfg, log, i.platform, j.platform, Some(i.kind));
    case Remaining => RankIsOwn(cfg, log, i.platform, j.platform, Some(i.kind));
    case Notes =>
    case Reels =>
    case Recovery =>
  }

  lemma BestUnique(cfg: Config, log: seq<Action>, supply: Supply, rung: Rung, i: Intent, j: Intent)
    requires Best(cfg, log, supply, rung, i) && Best(cfg, log, supply, rung, j)
    ensures i == j
  {
    SameKeySameQuestion(cfg, log, supply, rung, i, j);
  }

  /** The log and the supply determine the answer. */
  lemma DecisionUnique(cfg: Config, log: seq<Action>, supply: Supply, d: Decision, e: Decision)
    requires Decides(cfg, log, supply, d) && Decides(cfg, log, supply, e)
    ensures d == e
  {
    forall rung | Picks(cfg, log, supply, rung, d) && Picks(cfg, log, supply, rung, e) ensures d == e {
      BestUnique(cfg, log, supply, rung, d.intent, e.intent);
    }
  }
}
