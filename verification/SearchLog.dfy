/** The log of one city's searches. */
module SearchLog {
  // What the searches asked and what came back (syncinerary/agents/gather/social_search.py,
  // syncinerary/tools/fetch/social.py), and the quantities a log of them determines.

  import opened Schedule
  import opened Sums

  datatype Platform = Instagram | RedNote | TikTok

  datatype IntentType = Places | Food | HiddenGems

  datatype Specificity = Specific | Normal | Broad

  /** What to search for and how narrowly it is worded. */
  datatype Intent = Intent(platform: Platform, kind: IntentType, specificity: Specificity)

  const OPENING_SEQUENCE: seq<IntentType> := [Places, Food, HiddenGems]

  datatype Yield = Productive | DuplicateHeavy | NoSearchResults | NoMentions | ResolutionFailure | ProviderError

  datatype Outcome = Outcome(raw: nat, extracted: nat, resolved: nat, newPlaces: nat, failed: bool)

  function YieldOf(o: Outcome): Yield
  {
    if o.failed then ProviderError
    else if o.raw == 0 then NoSearchResults
    else if o.extracted == 0 then NoMentions
    else if o.resolved == 0 then ResolutionFailure
    else if o.newPlaces == 0 then DuplicateHeavy
    else Productive
  }

  datatype Action = Action(intent: Intent, outcome: Outcome)

  /** One counter set. */
  datatype Stats = Stats(searches: nat, raw: nat, extracted: nat, resolved: nat, newPlaces: nat, duplicates: nat)

  const NoStats := Stats(0, 0, 0, 0, 0, 0)

  function Duplicated(o: Outcome): nat { if o.resolved < o.newPlaces then 0 else o.resolved - o.newPlaces }

  /** New and repeated places are the resolved ones, if no fewer are new. */
  lemma NewOrRepeated(o: Outcome)
    ensures o.newPlaces + Duplicated(o) == Max(o.resolved, o.newPlaces)
  {
  }

  function Record(s: Stats, o: Outcome): Stats
  {
    Stats(s.searches + 1, s.raw + o.raw, s.extracted + o.extracted, s.resolved + o.resolved,
          s.newPlaces + o.newPlaces, s.duplicates + Duplicated(o))
  }

  function Plus3(a: Stats, b: Stats, c: Stats): Stats
  {
    Stats(a.searches + b.searches + c.searches, a.raw + b.raw + c.raw, a.extracted + b.extracted + c.extracted,
          a.resolved + b.resolved + c.resolved, a.newPlaces + b.newPlaces + c.newPlaces,
          a.duplicates + b.duplicates + c.duplicates)
  }

  /** Which searches a counter set covers; None stands for any. */
  datatype Scope = Scope(platform: Option<Platform>, kind: Option<IntentType>)

  function OfPlatform(p: Platform): Scope { Scope(Some(p), None) }

  function OfKind(k: IntentType): Scope { Scope(None, Some(k)) }

  function OfPair(p: Platform, k: IntentType): Scope { Scope(Some(p), Some(k)) }

  predicate Covers(scope: Scope, a: Action)
  {
    && (scope.platform == None || scope.platform == Some(a.intent.platform))
    && (scope.kind == None || scope.kind == Some(a.intent.kind))
  }

  /** The total of one measure over the covered searches of a log. */
  function Total(log: seq<Action>, scope: Scope, measure: Outcome -> nat): nat
  {
    if log == [] then 0
    else
      var last := log[|log| - 1];
      Total(log[..|log| - 1], scope, measure) + (if Covers(scope, last) then measure(last.outcome) else 0)
  }

  const One: Outcome -> nat := o => 1
  const Raw: Outcome -> nat := (o: Outcome) => o.raw
  const Extracted: Outcome -> nat := (o: Outcome) => o.extracted
  const Resolved: Outcome -> nat := (o: Outcome) => o.resolved
  const NewPlaces: Outcome -> nat := (o: Outcome) => o.newPlaces
  const Repeats: Outcome -> nat := (o: Outcome) => Duplicated(o)

  /** The counters a log gives its scope. */
  function StatsOf(log: seq<Action>, scope: Scope): Stats
  {
    Stats(Total(log, scope, One), Total(log, scope, Raw), Total(log, scope, Extracted), Total(log, scope, Resolved),
          Total(log, scope, NewPlaces), Total(log, scope, Repeats))
  }

  lemma TotalExtend(log: seq<Action>, a: Action, scope: Scope, measure: Outcome -> nat)
    ensures Total(log + [a], scope, measure)
         == Total(log, scope, measure) + if Covers(scope, a) then measure(a.outcome) else 0
  {
    assert (log + [a])[..|log|] == log;
  }

  lemma StatsExtend(log: seq<Action>, a: Action, scope: Scope)
    ensures StatsOf(log + [a], scope)
         == if Covers(scope, a) then Record(StatsOf(log, scope), a.outcome) else StatsOf(log, scope)
  {
    TotalExtend(log, a, scope, One);
    TotalExtend(log, a, scope, Raw);
    TotalExtend(log, a, scope, Extracted);
    TotalExtend(log, a, scope, Resolved);
    TotalExtend(log, a, scope, NewPlaces);
    TotalExtend(log, a, scope, Repeats);
  }

  lemma {:induction false} KindsAddUp(log: seq<Action>, p: Platform, m: Outcome -> nat)
    ensures Total(log, OfPlatform(p), m)
         == Total(log, OfPair(p, Places), m) + Total(log, OfPair(p, Food), m) + Total(log, OfPair(p, HiddenGems), m)
  {
    if log == [] {
    } else {
      KindsAddUp(log[..|log| - 1], p, m);
      match log[|log| - 1].intent.kind { case Places => case Food => case HiddenGems => }
    }
  }

  lemma {:induction false} PlatformsAddUp(log: seq<Action>, k: IntentType, m: Outcome -> nat)
    ensures Total(log, OfKind(k), m)
         == Total(log, OfPair(Instagram, k), m) + Total(log, OfPair(RedNote, k), m) + Total(log, OfPair(TikTok, k), m)
  {
    if log == [] {
    } else {
      PlatformsAddUp(log[..|log| - 1], k, m);
      match log[|log| - 1].intent.platform { case Instagram => case RedNote => case TikTok => }
    }
  }

  lemma PairTotals(log: seq<Action>, p: Platform, k: IntentType, m: Outcome -> nat)
    ensures Total(log, OfPlatform(p), m)
         == Total(log, OfPair(p, Places), m) + Total(log, OfPair(p, Food), m) + Total(log, OfPair(p, HiddenGems), m)
    ensures Total(log, OfKind(k), m)
         == Total(log, OfPair(Instagram, k), m) + Total(log, OfPair(RedNote, k), m) + Total(log, OfPair(TikTok, k), m)
  {
    KindsAddUp(log, p, m);
    PlatformsAddUp(log, k, m);
  }

  lemma {:induction false} PlatformTotals(log: seq<Action>)
    ensures Total(log, OfPlatform(Instagram), One) + Total(log, OfPlatform(RedNote), One)
          + Total(log, OfPlatform(TikTok), One) == |log|
  {
    if log == [] {
    } else {
      PlatformTotals(log[..|log| - 1]);
      match log[|log| - 1].intent.platform { case Instagram => case RedNote => case TikTok => }
    }
  }

  /** The pair counters sum to the platform's and to the intent's, and the platforms' searches
      sum to the searches used. */
  lemma PairsAddUp(log: seq<Action>, p: Platform, k: IntentType)
    ensures StatsOf(log, OfPlatform(p)) ==
      Plus3(StatsOf(log, OfPair(p, Places)), StatsOf(log, OfPair(p, Food)), StatsOf(log, OfPair(p, HiddenGems)))
    ensures StatsOf(log, OfKind(k)) ==
      Plus3(StatsOf(log, OfPair(Instagram, k)), StatsOf(log, OfPair(RedNote, k)), StatsOf(log, OfPair(TikTok, k)))
    ensures Plus3(StatsOf(log, OfPlatform(Instagram)), StatsOf(log, OfPlatform(RedNote)),
                  StatsOf(log, OfPlatform(TikTok))).searches == |log|
  {
    PairTotals(log, p, k, One);
    PairTotals(log, p, k, Raw);
    PairTotals(log, p, k, Extracted);
    PairTotals(log, p, k, Resolved);
    PairTotals(log, p, k, NewPlaces);
    PairTotals(log, p, k, Repeats);
    PlatformTotals(log);
  }

  /** How often one question, whatever its wording, was asked. */
  function Attempts(log: seq<Action>, p: Platform, k: IntentType): nat
  {
    Total(log, OfPair(p, k), One)
  }

  predicate HasRun(log: seq<Action>, intent: Intent)
  {
    exists i | 0 <= i < |log| :: log[i].intent == intent
  }

  /** No wording of a question ran twice. */
  predicate NoRepeat(log: seq<Action>)
  {
    forall i, j | 0 <= i < j < |log| :: log[i].intent != log[j].intent
  }

  /** The searches that say something about the search space. */
  function NonErrors(log: seq<Action>): seq<Action>
  {
    if log == [] then []
    else
      var last := log[|log| - 1];
      NonErrors(log[..|log| - 1]) + (if last.outcome.failed then [] else [last])
  }

  /** Length of the longest suffix whose members all satisfy `p`. */
  function TrailingRun(log: seq<Action>, p: Action -> bool): nat
  {
    if log == [] || !p(log[|log| - 1]) then 0 else 1 + TrailingRun(log[..|log| - 1], p)
  }

  /** A trailing run reaches `n` exactly when the last `n` members satisfy `p`. */
  lemma {:induction false} TrailingRunMeans(log: seq<Action>, p: Action -> bool, n: nat)
    ensures TrailingRun(log, p) >= n <==> n <= |log| && forall i | |log| - n <= i < |log| :: p(log[i])
  {
    if n > 0 && log != [] {
      TrailingRunMeans(log[..|log| - 1], p, n - 1);
      if p(log[|log| - 1]) && TrailingRun(log, p) >= n {
        forall i | |log| - n <= i < |log| ensures p(log[i]) {
          assert i < |log| - 1 ==> log[..|log| - 1][i] == log[i];
        }
      }
    }
  }

  function LowYield(threshold: nat): Action -> bool { (a: Action) => a.outcome.newPlaces <= threshold }

  function ZeroYield(): Action -> bool { (a: Action) => a.outcome.newPlaces == 0 }

  function Duplicates(): Action -> bool { (a: Action) => YieldOf(a.outcome) == DuplicateHeavy }

  function Failed(): Action -> bool { (a: Action) => a.outcome.failed }

  function LastInformative(log: seq<Action>): seq<Action>
  {
    if log == [] then []
    else if !log[|log| - 1].outcome.failed then [log[|log| - 1]]
    else LastInformative(log[..|log| - 1])
  }

  lemma TotalOfUnasked(log: seq<Action>, scope: Scope)
    ensures Total(log, scope, One) == 0 <==> forall i | 0 <= i < |log| :: !Covers(scope, log[i])
  {
    if log != [] {
      TotalOfUnasked(log[..|log| - 1], scope);
      var before := log[..|log| - 1];
      if Total(log, scope, One) == 0 {
        forall i | 0 <= i < |log| ensures !Covers(scope, log[i]) {
          assert i < |log| - 1 ==> log[i] == before[i];
        }
      } else if Total(before, scope, One) > 0 {
        var i :| 0 <= i < |before| && Covers(scope, before[i]);
        assert Covers(scope, log[i]);
      }
    }
  }

  function CountIntent(log: seq<Action>, intent: Intent): nat
  {
    if log == [] then 0
    else CountIntent(log[..|log| - 1], intent) + if log[|log| - 1].intent == intent then 1 else 0
  }

  lemma {:induction false} CountOfRepeatFree(log: seq<Action>, intent: Intent)
    requires NoRepeat(log)
    ensures CountIntent(log, intent) <= if HasRun(log, intent) then 1 else 0
  {
    if log == [] {
    } else {
      var before := log[..|log| - 1];
      CountOfRepeatFree(before, intent);
      if log[|log| - 1].intent == intent {
        assert !HasRun(before, intent);
      } else if HasRun(before, intent) {
        var i :| 0 <= i < |before| && before[i].intent == intent;
        assert log[i].intent == intent;
      }
    }
  }

  lemma {:induction false} AttemptsByWording(log: seq<Action>, p: Platform, k: IntentType)
    ensures Attempts(log, p, k)
         == CountIntent(log, Intent(p, k, Specific)) + CountIntent(log, Intent(p, k, Normal)) + CountIntent(log, Intent(p, k, Broad))
  {
    if log == [] {
    } else {
      AttemptsByWording(log[..|log| - 1], p, k);
      match log[|log| - 1].intent.specificity { case Specific => case Normal => case Broad => }
    }
  }

  /** Without repeats a question is asked at most once per wording. */
  lemma AttemptsAtMostThree(log: seq<Action>, p: Platform, k: IntentType)
    requires NoRepeat(log)
    ensures Attempts(log, p, k) <= 3
  {
    AttemptsByWording(log, p, k);
    CountOfRepeatFree(log, Intent(p, k, Specific));
    CountOfRepeatFree(log, Intent(p, k, Normal));
    CountOfRepeatFree(log, Intent(p, k, Broad));
  }

  function Has(ps: seq<Platform>, p: Platform): nat { if p in ps then 1 else 0 }

  lemma {:induction false} DistinctPlatforms(ps: seq<Platform>)
    requires Distinct(ps)
    ensures |ps| == Has(ps, Instagram) + Has(ps, RedNote) + Has(ps, TikTok)
  {
    if ps == [] {
    } else {
      DistinctPlatforms(ps[1..]);
      assert ps == [ps[0]] + ps[1..];
      assert ps[0] !in ps[1..];
      match ps[0] { case Instagram => case RedNote => case TikTok => }
    }
  }

  predicate PlatformsWithin(log: seq<Action>, ps: seq<Platform>)
  {
    forall i | 0 <= i < |log| :: log[i].intent.platform in ps
  }

  lemma SearchesOfPlatform(log: seq<Action>, ps: seq<Platform>, p: Platform, cap: nat)
    requires PlatformsWithin(log, ps)
    requires forall k :: Attempts(log, p, k) <= cap
    ensures Total(log, OfPlatform(p), One) <= 3 * cap * Has(ps, p)
  {
    PairTotals(log, p, Places, One);
    assert Attempts(log, p, Places) <= cap && Attempts(log, p, Food) <= cap && Attempts(log, p, HiddenGems) <= cap;
    if p !in ps {
      TotalOfUnasked(log, OfPlatform(p));
    }
  }

  /** A cap per question bounds the whole log. */
  lemma SearchesWithinCaps(log: seq<Action>, ps: seq<Platform>, cap: nat)
    requires Distinct(ps) && PlatformsWithin(log, ps)
    requires forall p, k :: Attempts(log, p, k) <= cap
    ensures |log| <= 3 * cap * |ps|
  {
    SearchesOfPlatform(log, ps, Instagram, cap);
    SearchesOfPlatform(log, ps, RedNote, cap);
    SearchesOfPlatform(log, ps, TikTok, cap);
    DistinctPlatforms(ps);
    PlatformTotals(log);
    assert 3 * cap * |ps| == 3 * cap * Has(ps, Instagram) + 3 * cap * Has(ps, RedNote) + 3 * cap * Has(ps, TikTok);
  }

  /** With fewer searches than platforms some platform was never asked. */
  lemma SomePlatformUnasked(log: seq<Action>, ps: seq<Platform>) returns (p: Platform)
    requires Distinct(ps) && |log| < |ps|
    ensures p in ps && Total(log, OfPlatform(p), One) == 0
  {
    DistinctPlatforms(ps);
    PlatformTotals(log);
    p := if Instagram in ps && Total(log, OfPlatform(Instagram), One) == 0 then Instagram
    else if RedNote in ps && Total(log, OfPlatform(RedNote), One) == 0 then RedNote
    else TikTok;
  }
}
