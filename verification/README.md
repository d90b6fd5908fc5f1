# Syncinerary: verified models of its deterministic cores

Syncinerary plans group trips. Language models, HTTP providers and a constraint solver sit at its
edges; between them are deterministic cores with real loops, state and arithmetic. The Dafny
modules here model those cores and prove what the code and its documentation promise of them.
`dafny verify dfyconfig.toml` checks the whole project.

## What is modelled

**Finding places.** `SearchLog` and `SearchPlanner` are the adaptive search of one city: a class
with the planner's counters, the ladder of choosers, and the loop that drives it for any provider
answers and any verification reports. The counters are proved to be functions of the log, and a whole
run to be bounded and free of repeats. `PlannerRules` says what the next search has to be, without
counters or lists: each rung of the ladder prefers some questions to others, and the answer is the
preferred open question of the first rung that has one, or a stop with its reason. The planner is
proved to give that answer, and there is no other. `CityBudget` and `Verification` are the place lookups: the
largest-remainder split over cities, the budget that grows while Reels are missing, and the checks
one city releases to the next, with exact conservation over a trip; `VerificationMaximum` says which
trips stay within the global maximum, over runs as searching makes them: a first update before anything
is mined, one after each of at most eight searches, none once nothing is left to spend, and a final one.

**Shaping the pool.** `Dedup` merges rows of one place by a similarity that is not transitive;
`DedupOrder` says when the order of arrival matters.
`DensePool`, `DayMix` and `PoolSelection` cluster, mix and draw; `LanePools` fills two lanes from
one budget; `CityPool` combines them into one city's deck share; `Deck` interleaves the lanes.

**Days and meals.** `MealCoverage` states the meal part of the day model as constraints and shows
they are exactly right (Hall's theorem). `DayAllocation` splits days over cities and maps days back
to cities. `MealBreaks` is the gap search for meals. `RepairFacts` is what routing teaches day
assignment, and `BucketChanges` counts moves and swaps between two assignments.

**Replanning.** `ReplanProtocol` is a state machine of any number of workers that propose and decide
replans, with row locks, released transactions and rechecks as separate steps; `ReplanDecisions` says
what each commit does and when it can be reached; `FreshSolves` lets a newly solved plan be saved in
between. `RescueProposal` builds a proposal from a disruption, `ManualEdit` one from a traveler's exact
edit, and `ItineraryDiff` compares versions.

**Reliability harness.** `LoopDetection` is the sliding-window detector, `Harness` the budget, the
bounded tool repair, the run ledger and a whole tracked run.

`Schedule`, `Sums`, `Sorting`, `Lists`, `Lanes`, `Pool` and `Apportion` hold shared definitions:
the slot grid, sums over sequences, the stable sort, list comprehensions, lane slots, reading
lists in turn, and proportional shares.

### Conventions

Floating-point numbers are exact integers or rationals, compared by cross-multiplication. Names
and ids are numbers; where the code sorts by a casefolded name, the number is its place in that
order. Times are minutes past midnight, below a day's 1440. Python's negative slice bounds are written out where
they occur (`CityBudget.SliceLength`). Every provider answer, language-model result, distance and
unseen predicate is a parameter or an arbitrary value; the route solver and the transit provider
enter only through the contracts `RescueProposal.RouteMeets`, `RescueProposal.RequiredAtTheirStart` and
`ManualEdit.RouteHonours`. Sets and dictionaries are visited in any order.

### Where the code falls short of its description

* `allocate_city_budget` is described as a split of the budget. It is one exactly when the floors of
  one fit it; otherwise the leftover is negative, the slice counts from the end and the
  result exceeds the budget (`CityBudget.ExactIffFloorsFit`). All runs of a trip keep the global
  maximum of place lookups exactly under the same condition (`VerificationMaximum.MaximumKeptIff`). A trip
  has at most four cities; then the condition holds while the trip is shorter than one and a half
  budgets (`CityBudget.FourCitiesFit`), and three one-day cities beside a long stay break it from
  sixty days on (`CityBudget.OvershootIff`, `VerificationMaximum.LongTripOverspends`).
* The rescue path does not look for pending events again after its provider calls, so two proposals can be
  pending on one version (`ReplanProtocol.TwoPendingReachable`). A run keeps at most one pending
  exactly when every proposal is written while none is, which is the recheck the manual path makes
  (`ReplanProtocol.OnePendingIff`, `ReplanProtocol.ManualEditsKeepOnePending`). Approving one of two
  leaves the other pending: it can no longer be decided, and while it is pending no further proposal
  starts (`ReplanProtocol.SecondProposalBlocksTheTrip`). Every pending event stays decidable exactly
  when no approval commits while another event is pending (`ReplanProtocol.AlwaysDecidableIff`).
  Saving a freshly solved plan gives such a trip a new version but does not free it
  (`FreshSolves.SolvesDoNotFree`).
* Saving a freshly solved plan rechecks nothing. One version stays active exactly when the one the
  solve read as active still is (`FreshSolves.OneActiveIff`); an approval in between leaves two
  (`FreshSolves.StaleSaveMakesTwo`). So a history has one active version throughout exactly when every
  save is up to date (`FreshSolves.AlwaysOneActiveIff`). A saved plan's parent is the latest version of
  any status, so the versions ever active form one chain throughout exactly when, besides, every save
  finds the version it retires to be the latest (`FreshSolves.OneChainIff`,
  `FreshSolves.AlwaysOneChainIff`).
* The meal-break search tries span starts on the half-hour grid only. With a cap on the grid it
  loses a meal exactly when it tries no start at all although some minute would do and the latest
  such minute seats a meal (`MealBreaks.NothingLostIff`). That never happens on a timetable whose day
  start and visit ends are on the grid, as published ones are (`MealBreaks.PublishedDaysLoseNothing`);
  on an older row with ends off the grid it can (`MealBreaks.NoGridStart`,
  `MealBreaks.NothingFoundOffGrid`).
* Day assignment also pins places with an event date to it, but routing does not protect those when it
  measures how many places of a day can be seated. A capacity below the places pinned or dated to its
  day is dropped, so the plan it was measured on is refused from then on exactly when the limit has room
  for them (`RepairFacts.MeasuredPlanRefusedIff`). It always has when every dated place is protected
  (`RepairFacts.ProtectedDatesKeepForce`); with two places dated to a day that seats one, it has not
  (`RepairFacts.DatedCapacityDropped`). Even so, repair only ever refuses more: no later round admits a
  plan an earlier one refused (`RepairFacts.LaterRoundsRefuseMore`). A capacity handed to day assignment
  from elsewhere can be lowered below the pins and then admit more (`RepairFacts.LoweringTightensIff`,
  `RepairFacts.LoweringAdmitsMore`).
* On a trip whose city days nobody reviewed, scheduling splits the days by candidates and editing
  evenly. An edit takes a day's city from the stops already on it if they name exactly one, so the two
  disagree about a day exactly when its stops do not and the two splits put it in different blocks
  (`DayAllocation.EditingDisagreesIff`, `DayAllocation.EmptyDayChangesCity`). Trips made through the API
  always store their city days, and on those the two agree.
* Deduplicating a pool twice over changes nothing exactly when every name has identity tokens
  (`Dedup.ReplayChangesNothing`); a card whose name has none never merges, not even with itself. Which
  cards survive is the same in every order of arrival exactly when no two of them match
  (`DedupOrder.SurvivorsFixedIff`), which cards end up together exactly when matching carries over
  from card to card (`DedupOrder.GroupsFixedIff`); on a pool where it does not, even the number of
  survivors depends on the order (`DedupOrder.OrderDecides`).
* In the platform priority the last two components never decide, because a platform's place in the
  configured order is already its own (`SearchPlanner.YieldNeverDecides`).

## Model

| member | source | states |
|---|---|---|
| SearchLog.PairsAddUp | syncinerary/agents/gather/social_search.py:172-180 | for any log, the pair counters sum to the platform's and to the intent's, and platform searches sum to the searches used |
| SearchLog.StatsExtend | syncinerary/agents/gather/social_search.py:172-180 | recording an outcome in a counter set is counting the longer log |
| SearchLog.TrailingRunMeans | syncinerary/agents/gather/social_search.py:400-421 | a consecutive counter reaches n exactly when the last n entries all qualify |
| SearchLog.AttemptsAtMostThree | syncinerary/agents/gather/social_search.py:294-303 | without a repeated wording, one question is asked at most three times |
| SearchLog.SearchesWithinCaps | syncinerary/agents/gather/social_search.py:444-450 | a cap per question bounds the whole log by cap, platforms and intents |
| SearchPlanner.SearchState.RecordStats | syncinerary/agents/gather/social_search.py:371-399 | after an update every counter set still equals its function of the log |
| SearchPlanner.SearchState.AdvanceCounters | syncinerary/agents/gather/social_search.py:400-421 | low-yield, zero-yield and duplicate counters are trailing runs of the log without provider errors, the error counter is the trailing error run |
| SearchPlanner.SearchState.Update | syncinerary/agents/gather/social_search.py:371-421 | one update appends one action and keeps every counter equal to its function of the log |
| SearchPlanner.SearchState.Available | syncinerary/agents/gather/social_search.py:437-450 | availability read off the counters is availability read off the log |
| SearchPlanner.FirstAvailableIsFirst | syncinerary/agents/gather/social_search.py:508-530 | the choosers take the first available question of their list: all before it are unavailable |
| SearchPlanner.PlatformsRanked | syncinerary/agents/gather/social_search.py:469-505 | platforms that proved unproductive rank last, all others in the configured order |
| SearchPlanner.YieldNeverDecides | syncinerary/agents/gather/social_search.py:485-494 | between two configured platforms yield and spend never decide the priority |
| SearchPlanner.SearchState.OpeningOrder | syncinerary/agents/gather/social_search.py:508-530 | the opening ranks a platform first that was searched as little as any |
| SearchPlanner.SearchState.ColdAsks | syncinerary/agents/gather/social_search.py:549-567 | the cold start offers both simpler wordings of every intent on every platform |
| SearchPlanner.SearchState.RemainingAsks | syncinerary/agents/gather/social_search.py:661-670 | the last fallback offers every intent in full on every available platform |
| SearchPlanner.SearchState.PlanByYield | syncinerary/agents/gather/social_search.py:757-787 | a low-yield stop if and only if a trailing run of low-yield or of repeating searches reached its threshold; else the best open question of recovery, of the lane gaps, of what remains, or no action left |
| SearchPlanner.SearchState.PlanAdaptive | syncinerary/agents/gather/social_search.py:733-787 | while Reels are missing the best open note or Reel question; while nothing was found, and searches are few, the best simpler question or no action left; else as yield decides |
| SearchPlanner.SearchState.PlanNext | syncinerary/agents/gather/social_search.py:706-787 | the answer is the one the ladder fixes, search or stop, read off the log and the supply alone; the opening follows its order above the exhaustion checks |
| PlannerRules.DecisionUnique | syncinerary/agents/gather/social_search.py:706-787 | for every configuration, log and supply the ladder leaves at most one answer |
| SearchPlanner.LowYieldStopMeans | syncinerary/agents/gather/social_search.py:742-753 | a low-yield stop means the opening was asked as far as possible and the last answered searches were all low-yield, or all repeats, up to the threshold |
| SearchPlanner.OpeningFollowed | syncinerary/agents/gather/social_search.py:533-546 | when an opening intent is unasked, the opening offers the first such intent on a least-searched platform |
| SearchPlanner.OpeningExhausted | syncinerary/agents/gather/social_search.py:533-546 | the opening offers nothing only when every intent was asked or nothing can be asked |
| SearchPlanner.ReelsAreAsked | syncinerary/agents/gather/social_search.py:682-703 | what the ladder fixes asks a Reel or note question while Reels are missing and Instagram has a question left |
| SearchPlanner.WorseLaneIsAsked | syncinerary/agents/gather/social_search.py:605-658 | what the ladder fixes asks the lane with the larger fractional shortfall before the other one |
| SearchPlanner.EmptyAnswersAreReworded | syncinerary/agents/gather/social_search.py:577-602 | after an answer without posts, what the ladder fixes asks the same question with fewer words while that can be asked |
| SearchPlanner.ColdExhausted | syncinerary/agents/gather/social_search.py:549-567 | a cold start without a search means no simpler wording is available on any platform |
| SearchPlanner.RemainingExhausted | syncinerary/agents/gather/social_search.py:661-670 | no action left means no intent is available in full on any platform |
| SearchPlanner.OpeningStep | syncinerary/agents/gather/social_search.py:728-731 | the next opening search goes to a platform not asked yet while there is one |
| SearchPlanner.LogIsBounded | syncinerary/agents/gather/social_search.py:706-712 | no repeats, no cap exceeded, and at most the smaller of the ceiling and cap times platforms times intents searches |
| SearchPlanner.MineOnce | syncinerary/agents/gather/social.py:1057-1115 | one round of the loop keeps the run's invariant whatever the provider and verification report |
| SearchPlanner.MineCity | syncinerary/agents/gather/social.py:1057-1115 | every run ends, is bounded, opens in order on distinct platforms, and stops where the ladder stops, for a reason its log shows |
| CityBudget.AllocateCityBudget | syncinerary/agents/gather/social.py:820-841 | the loop computes the specified split, including the negative slice |
| CityBudget.SumOfCityBudgets | syncinerary/agents/gather/social.py:832-840 | the total is the budget if the floors fit it; else it is one per city above the budget, or the floors where those are more |
| CityBudget.ExactIffFloorsFit | syncinerary/agents/gather/social.py:820-841 | never less than the budget, and exactly the budget if and only if the floors fit it |
| CityBudget.SharesOfOneFit | syncinerary/agents/gather/social.py:832-834 | when every exact share is at least one, the floors fit |
| CityBudget.WithinOneOfShare | syncinerary/agents/gather/social.py:832-840 | a city whose share is at least one gets its share rounded down or up |
| CityBudget.LargestRemainderFirst | syncinerary/agents/gather/social.py:835-840 | an extra unit never goes to a city with a smaller remainder than one that got none |
| CityBudget.SplitMeans | syncinerary/agents/gather/social.py:820-841 | each share is its exact share rounded down, one at least, or one more; the extra units go to the largest remainders, the earlier city winning ties |
| CityBudget.FewDaysFit | syncinerary/agents/gather/social.py:832-840 | with a day for every city the floors fit while days times (cities - 2) stay below budget times (cities - 1) |
| CityBudget.FourCitiesFit | syncinerary/agents/gather/social.py:832-840 | a split over up to four cities is exact while the trip is shorter than one and a half budgets |
| CityBudget.OvershootIff | syncinerary/agents/gather/social.py:832-840 | three one-day cities and one more: forty checks become more exactly from sixty days on |
| Verification.CityVerification.constructor | syncinerary/agents/gather/social.py:870-884 | a city starts without lookups |
| Verification.CityVerification.Refresh | syncinerary/agents/gather/social.py:902-914 | the budget grows only when spent with Reels missing, never past the ceiling; exhausted with Reels missing means it cannot grow |
| Verification.GrowthMeans | syncinerary/agents/gather/social.py:910-913 | a spent budget grows by the missing Reels at the lookups per Reel so far, rounded up, by one at least, up to the ceiling; any other stays |
| Verification.CityVerification.LookUp | syncinerary/agents/gather/social.py:931-953 | one lookup per name, remembered, and the rejection count equals the rejected answers |
| Verification.CityVerification.LookUpAll | syncinerary/agents/gather/social.py:931-953 | a batch appends its names to the lookups, none of them asked before |
| Verification.CityVerification.Update | syncinerary/agents/gather/social.py:916-953 | a round grows the budget, looks its batch up and grows it again, as specified, and reports exhaustion truthfully |
| Verification.BatchFacts | syncinerary/agents/gather/social.py:916-929 | a round looks up different eligible names that wait, Reel names only while Reels are missing, within batch and grown budget |
| Verification.RoundLooksUp | syncinerary/agents/gather/social.py:916-929 | a round looks up as many names as its batch, the grown budget, the name limit and the askable names allow, and only askable ones: mined, unanswered, Reels only while Reels are missing |
| Verification.ChoicesFacts | syncinerary/agents/gather/social.py:923-929 | the selection names as many different waiting places as limit and scored supply allow |
| Verification.LanesSelect | syncinerary/agents/gather/social.py:754-817 | the two-lane selection is a selection the rounds may rely on |
| Verification.RoundKeeps | syncinerary/agents/gather/social.py:902-953 | a round keeps the budget within the ceiling, no name asked twice, and the answers and lookups together |
| Verification.VerifyCity | syncinerary/agents/gather/social.py:1228-1248 | a city's answers are the provider's, and its spending is that of its rounds, whatever Reels the cards show at each |
| Verification.VerifyTrip | syncinerary/agents/gather/social.py:1208-1294 | the city loop computes the specified run; lookups plus the last release equal the ceilings handed out |
| Verification.TripConserves | syncinerary/agents/gather/social.py:1208-1294 | in every run no name is asked twice in a city and no check is created or lost by growth or carry-over |
| Verification.CitiesInOrder | syncinerary/agents/gather/social.py:1218-1220 | cities with fewer days are verified first, among equals the priority city last and the others as typed |
| VerificationMaximum.MaximumKeptIff | syncinerary/agents/gather/social.py:1208-1294 | every run of a trip that searching can make, of at most eight searches a city, keeps lookups and guides within the global maximum exactly when the ceiling fits |
| VerificationMaximum.LongTripOverspends | syncinerary/agents/gather/social.py:1208-1294 | whatever the cities' Reel targets, some run over four cities and sixty days or more, of at most eight searches a city, makes more lookups than the maximum |
| VerificationMaximum.CeilingsMeetTheMaximum | syncinerary/agents/gather/social.py:1208 | guides and ceilings together are the global maximum exactly when the floors fit, and more otherwise |
| Verification.AnsweredFacts | syncinerary/agents/gather/social.py:916-953 | after a batch the dictionary holds exactly the old answers and the batch's |
| Dedup.MergeAbsorbs | syncinerary/agents/gather/dedup.py:77-107 | merging changes the keeper exactly when the duplicate knows something the keeper does not |
| Dedup.MergeCovers | syncinerary/agents/gather/dedup.py:77-107 | a merged card covers the duplicate and whatever the keeper covered |
| Dedup.DedupCandidates | syncinerary/agents/gather/dedup.py:110-124 | the in-place loop computes the specified fold |
| Dedup.DedupIdempotent | syncinerary/agents/gather/dedup.py:110-124 | deduplicating twice is deduplicating once |
| Dedup.DedupResolves | syncinerary/agents/gather/dedup.py:110-124 | no later kept card matches an earlier kept one |
| Dedup.KeptAreUnlike | syncinerary/agents/gather/dedup.py:56-74 | of two cards kept within the radius each name has an identity token the other lacks, or one has none |
| Dedup.FirstOccurrenceOrder | syncinerary/agents/gather/dedup.py:110-115 | survivors keep the order, id, name and position of their first occurrence |
| Dedup.HomeIsFirstMatch | syncinerary/agents/gather/dedup.py:117-123 | each card ends up in its own row or the earliest survivor it matches |
| Dedup.MergedAreAlike | syncinerary/agents/gather/dedup.py:56-74 | cards that end up together are within the radius of the first of them, and one name's identity tokens, of which there are some, are all among the other's |
| Dedup.HomeAbsorbs | syncinerary/agents/gather/dedup.py:117-123 | the survivor holds all of the card's evidence |
| Dedup.SourcesConserved | syncinerary/agents/gather/dedup.py:79-82 | a survivor's sources are exactly those of the cards that ended up in it |
| Dedup.ReplayChangesNothing | syncinerary/agents/gather/dedup.py:51-74 | gathering the same cards again changes nothing, exactly when every name has identity tokens |
| DedupOrder.SurvivorsFixedIff | syncinerary/agents/gather/dedup.py:110-124 | the surviving ids are the same in every order of arrival exactly when no two cards match |
| DedupOrder.GroupsFixedIff | syncinerary/agents/gather/dedup.py:110-124 | which cards end up together is the same in every order exactly when matching carries over from card to card |
| DedupOrder.OrderDecides | syncinerary/agents/gather/dedup.py:56-74 | similarity is not transitive, and arrival order decides how many cards survive |
| DensePool.DenseClusters | syncinerary/agents/gather/live.py:204-228 | the loop ends and returns the specified clusters |
| DensePool.ClustersPartition | syncinerary/agents/gather/live.py:204-227 | every candidate lands in exactly one non-empty cluster |
| DensePool.DensestFirst | syncinerary/agents/gather/live.py:208-217 | no remaining candidate has more neighbours than the next cluster has members |
| DensePool.NextCluster | syncinerary/agents/gather/live.py:208-222 | the next cluster is everything remaining around one remaining card, the card with the most around it, the first ranked among those |
| DensePool.FoundInSizeOrder | syncinerary/agents/gather/live.py:208-228 | clusters already come out largest first |
| DensePool.LargestFirst | syncinerary/agents/gather/live.py:227 | larger clusters come first, and of two of one size the one whose head ranks first |
| DayMix.MixDayTypes | syncinerary/agents/gather/live.py:274-307 | the interleaving loop computes the specified mix |
| DayMix.MixKeepsKinds | syncinerary/agents/gather/live.py:274-307 | mixing permutes the cluster and keeps the order within food and within sights |
| DayMix.MealsReserved | syncinerary/agents/gather/live.py:281-292 | the front of a cluster that a pool limit leaves holds three meals a day or all its food |
| DayMix.FrontInRhythm | syncinerary/agents/gather/live.py:294-303 | every prefix of the front holds two sights per meal, up to one pair, while both last |
| DayMix.DayFront | syncinerary/agents/gather/live.py:289-303 | the front holds three meals a day, as far as there are meals, filled up with sights to the pool of a day, two sights to a meal |
| PoolSelection.TakeInTurn | syncinerary/agents/gather/live.py:254-266 | reading the clusters in turn until the limit is a prefix of the rounds |
| PoolSelection.FillUp | syncinerary/agents/gather/live.py:267-272 | filling up appends unselected candidates in order until the limit |
| PoolSelection.SelectDensePool | syncinerary/agents/gather/live.py:231-272 | the pool is the front of the pool order, empty for no days or no slots |
| PoolSelection.PoolOrderIsPermutation | syncinerary/agents/gather/live.py:231-272 | the pool order is a rearrangement of the candidates |
| PoolSelection.ChosenAreDrawn | syncinerary/agents/gather/live.py:240-241 | the clusters drawn are the first as many as days among the dense ones, or among all if none is dense |
| PoolSelection.DenseDrawnFirst | syncinerary/agents/gather/live.py:240-272 | a card of no drawn cluster is in the pool only if every card of the drawn clusters is |
| PoolSelection.ClustersServeAllDays | syncinerary/agents/gather/live.py:247 | the days a cluster serves are the fewest with which the drawn clusters serve every day |
| PoolSelection.DensePoolFills | syncinerary/agents/gather/live.py:231-272 | the pool holds min(limit, n) candidates, no id twice |
| LanePools.HandOverIsTheFairSplit | syncinerary/agents/gather/social.py:799-807 | the hand-over is the only split that uses the whole budget, exceeds no lane's supply and takes no slot a lane could fill |
| LanePools.PickFills | syncinerary/agents/gather/social.py:795-817 | both lanes together fill the budget, each with the front of its own ranking |
| LanePools.SocialSelectionFills | syncinerary/agents/gather/social.py:754-817 | the smaller of budget and supply is filled, hidden gems only in For You, others only in Trending |
| LanePools.SocialSelectionDistinct | syncinerary/agents/gather/social.py:787-817 | no place is selected twice |
| LanePools.WeakestDropped | syncinerary/agents/gather/social.py:707-744 | what the budget drops is, lane by lane, no better than anything kept: preferred source, then fit or evidence, then name |
| LanePools.RanksMean | syncinerary/agents/gather/social.py:707-744 | both sort keys mean their order: source, buzz, independent sources, authors, platforms; source, interest, buzz, sources; then the name |
| LanePools.SecondSortKeepsFirst | syncinerary/agents/gather/live.py:316-320 | two stable sorts put Reels first and core places first among equals |
| LanePools.LimitedLanes | syncinerary/agents/gather/live.py:310-321 | the two lanes hold the given cards of their kind, Reels first, and trending ones core places first among those |
| LanePools.LimitKeeps | syncinerary/agents/gather/live.py:310-329 | a limit keeps min(limit, n) of the cards, none twice |
| LanePools.LimitCutsWeakest | syncinerary/agents/gather/live.py:310-329 | what a limit cuts has no Reel that a kept card of its lane lacks, and of two trending cards alike in that it is no core place unless the kept one is |
| CityPool.EssentialsFacts | syncinerary/agents/gather/live.py:367-372 | the essentials hold the wanted meals and attractions as far as social supply goes |
| CityPool.EssentialsPreferReels | syncinerary/agents/gather/live.py:365-372 | no meal with a Reel gives way to one without, nor an attraction to another of its lane |
| CityPool.SelectCityPool | syncinerary/agents/gather/live.py:332-382 | no card twice, every personal card kept, exactly the slots or all cards filled, meals and attractions for every day as far as the city has them, and fallback cards beside a social card left out only where meals or sights would be missing |
| CityPool.TripPoolSharesFairly | syncinerary/agents/gather/live.py:385-395 | the trip pool keeps every city's cards, and no city is more than one round ahead |
| Pool.RoundsKeep | syncinerary/agents/gather/live.py:393-395 | reading lists in turn rearranges them |
| Pool.RoundsAreFair | syncinerary/agents/gather/live.py:393-395 | wherever the reading stops, no list is more than one entry ahead of one that has more |
| Deck.OrderDeck | syncinerary/agents/gather/deck.py:52-83 | grouping, placing and sorting compute the specified deck |
| Deck.DeckIsPermutation | syncinerary/agents/gather/deck.py:52-83 | the deck holds every card as often as it was given |
| Deck.PersonalFirst | syncinerary/agents/gather/deck.py:67-83 | personal cards come first and only there |
| Deck.LaneInRankOrder | syncinerary/agents/gather/deck.py:40-83 | seen through one lane, the deck is that lane in rank order |
| Deck.DeckRanks | syncinerary/agents/gather/deck.py:25-83 | cards of one reason come strongest evidence first: platform, then buzz, then name |
| Deck.SpreadByAim | syncinerary/agents/gather/deck.py:71-83 | spread cards come by their aimed position; of two reasons aimed at one position For You comes first and foundation last |
| Deck.PrefixInProportion | syncinerary/agents/gather/deck.py:52-83 | in any prefix of k of N spread cards, a lane of n has c with abs(c·N - k·n) at most (N + (others - 1)·n)/2 |
| MealCoverage.HallGivesService | syncinerary/agents/solver/stage1_days.py:501-521 | Hall's condition gives every covered meal its own restaurant |
| MealCoverage.SubsetConstraintsAreExact | syncinerary/agents/solver/stage1_days.py:501-521 | the subset constraints allow exactly the meals distinct placed restaurants can serve |
| MealCoverage.CheapestCoverIsMaximumMatching | syncinerary/agents/solver/stage1_days.py:614-615 | a cheapest choice leaves, day by day, as few meals uncovered as any seating, and is one |
| MealBreaks.FindGap | syncinerary/agents/solver/meal_breaks.py:52-62 | the cursor is the earliest aligned free hour |
| MealBreaks.BreaksForSpan | syncinerary/agents/solver/meal_breaks.py:46-69 | each meal that fits the span gets its earliest hour, in order, and only those |
| MealBreaks.AvailableMealBreaks | syncinerary/agents/solver/meal_breaks.py:35-72 | every break is for a required meal no stop holds; the breaks are, in order, all such meals that the first span seating the most of them can hold, each at its earliest hour, and no tried span seats more |
| MealBreaks.SpanMeans | syncinerary/agents/solver/meal_breaks.py:46-54 | a span start is tried exactly when it is aligned, not before the day starts, and every stop with its transit fits the span |
| MealBreaks.HourMeans | syncinerary/agents/solver/meal_breaks.py:57-66 | an hour seats a meal exactly when it is aligned, in window, day and span, and no stop with its transit touches it |
| MealBreaks.OneCappedSpan | syncinerary/agents/solver/meal_breaks.py:40-60 | every visit with its transit and every break lie in one span within the cap, breaks inside their windows and clear of visits |
| MealBreaks.GridSpanDominates | syncinerary/agents/solver/meal_breaks.py:40-48 | a minute span start is matched by a grid start that seats at least the same breaks |
| MealBreaks.GridSearchIsComplete | syncinerary/agents/solver/meal_breaks.py:40-72 | where a grid start is tried, no span start of any minute seats more meals than the search finds |
| MealBreaks.NothingLostIff | syncinerary/agents/solver/meal_breaks.py:40-72 | trying grid starts loses nothing exactly when one is tried, no minute would do, or the latest that would seats no meal |
| MealBreaks.PublishedDaysLoseNothing | syncinerary/agents/solver/meal_breaks.py:40-72 | with day start, cap and visit ends on the grid nothing is ever lost |
| MealBreaks.NoGridStart | syncinerary/agents/solver/meal_breaks.py:40-54 | two stops ending off the grid, as on older rows, leave one possible start and none on the grid |
| MealBreaks.NothingFoundOffGrid | syncinerary/agents/solver/meal_breaks.py:40-72 | on those stops the search returns nothing although lunch fits |
| DayAllocation.AllocateDays | syncinerary/agents/solver/stage1_days.py:198-239 | every day is given out; a city gets one exactly if it has candidates and fewer cities than days before it have any; it gets its whole share, one at least, the surplus is levelled off the largest and the missing days go to the largest fractions, one each |
| DayAllocation.FairSplitUnique | syncinerary/agents/solver/stage1_days.py:198-239 | there is only one such split |
| DayAllocation.TakeBack | syncinerary/agents/solver/stage1_days.py:220-228 | days taken back from the largest allocations leave them level and none at zero |
| DayAllocation.HandOut | syncinerary/agents/solver/stage1_days.py:229-239 | the cyclic hand-out never starts a second round |
| DayAllocation.BasesNearlyFill | syncinerary/agents/solver/stage1_days.py:212-219 | the base falls short of the days by at most one per claiming city |
| DayAllocation.SuggestedCityDays | syncinerary/domain/city_plan.py:19-30 | an even split whose extra days go to the priority city and then in order, refused exactly when a city would get no day |
| DayAllocation.CityForDay | syncinerary/agents/manual_itinerary.py:53-63 | the city already on a day wins on an unreviewed trip; otherwise the city found is the one whose block holds the day; it fails only outside the trip or without a split |
| DayAllocation.BlockOfIsItsBlock | syncinerary/agents/solver/stage1_days.py:782-802 | the day blocks partition the trip: each day lies in exactly the block it is counted into |
| DayAllocation.ExistingCityMeans | syncinerary/agents/manual_itinerary.py:104-111 | the existing city decides exactly when a day's stops name one of the trip's cities and no other |
| DayAllocation.EditingDisagreesIff | syncinerary/agents/manual_itinerary.py:104-111 | editing and scheduling disagree about a day exactly on an unreviewed trip, when its stops do not name exactly one city and the splits' blocks differ |
| DayAllocation.BlocksAgreeOnlyIfEqual | syncinerary/agents/solver/stage1_days.py:792-797 | with no stops to go by, two splits give every day the same city only if they are equal |
| DayAllocation.EmptyDayChangesCity | syncinerary/agents/manual_itinerary.py:53-63 | a scheduled unreviewed trip of four days, split three to one, with a day without stops that editing takes for another city's |
| RepairFacts.LearnDayBlocks | syncinerary/agents/solver/repair.py:157-207 | blocks grow by exactly the unary refusals of unprotected, unconflicted places; learned exactly when they changed |
| RepairFacts.MergeDayCapacities | syncinerary/agents/solver/repair.py:210-227 | each key keeps the tightest limit known; learned exactly when the facts changed |
| RepairFacts.TightestIsLeast | syncinerary/agents/solver/repair.py:210-227 | the tightest limit is the least one listed for its key |
| RepairFacts.MergeOrderIsImmaterial | syncinerary/agents/solver/repair.py:210-227 | the order of findings does not matter |
| RepairFacts.LearnIncompatiblePairs | syncinerary/agents/solver/repair.py:230-247 | the pairs become the union, learned exactly when it grew |
| RepairFacts.LearnRound | syncinerary/agents/solver/stage2_route.py:1266-1311 | a round folds its findings into the facts, only tightens, learns exactly when something tightened, and blocks no protected place and no member of a known or just learned pair |
| RepairFacts.LaterPlansHeed | syncinerary/agents/solver/stage2_route.py:1266-1373 | every later plan of a repair run keeps a place off a day its hours or its meal window ruled out, seats no learned pair together unless both are pinned there, and keeps every learned limit in force |
| RepairFacts.LearningLeavesLess | syncinerary/agents/solver/repair.py:157-247 | a round that learns leaves strictly less to learn |
| RepairFacts.LearningEnds | syncinerary/agents/solver/stage2_route.py:1266-1339 | rounds that learn are at most as many as there are things to learn |
| RepairFacts.RoundsAreBounded | syncinerary/agents/solver/stage2_route.py:1266-1339 | from nothing known, at most as many rounds learn as there are blocks, pairs and limits on the trip's candidates and days, whatever routing reports |
| RepairFacts.TighterFactsFewerPlans | syncinerary/agents/solver/stage1_days.py:393-406 | whatever is pinned, tighter facts that put no capacity out of force admit no plan looser ones refused |
| RepairFacts.PinsAreAllowed | syncinerary/agents/solver/stage1_days.py:523-556 | whatever was learned, a plan of nothing but pinned places on their days is allowed |
| RepairFacts.RequiredAreNeverBlocked | syncinerary/agents/solver/stage1_days.py:388-406 | what is blocked of required or pinned places makes no difference to the plans allowed |
| RepairFacts.RoundKeepsLimits | syncinerary/agents/solver/stage2_route.py:1440-1493 | every learned limit leaves a member out and has room for what a traveler pinned to the day |
| RepairFacts.InForceNotLowered | syncinerary/agents/solver/stage2_route.py:1281-1312 | a capacity in force keeps its limit: no allowed plan fills its day with its members, so it is not measured again |
| RepairFacts.RoundKeepsForce | syncinerary/agents/solver/stage2_route.py:1266-1312 | a round tightens the facts and puts no capacity out of force |
| RepairFacts.LaterRoundsRefuseMore | syncinerary/agents/solver/stage2_route.py:1266-1373 | over a whole repair run, whatever is pinned or dated, no later round admits a plan an earlier one refused |
| RepairFacts.MeasuredPlanRefusedIff | syncinerary/agents/solver/stage1_days.py:523-541 | the plan a capacity was measured on is refused by it exactly when the limit has room for the places pinned or dated to the day |
| RepairFacts.ProtectedDatesKeepForce | syncinerary/agents/solver/stage2_route.py:1195 | if every dated place is protected, a measured plan is refused by the round's facts |
| RepairFacts.DatedCapacityDropped | syncinerary/agents/solver/stage1_days.py:369-377 | two places dated to a day with one seat: the capacity is learned, dropped, and the same plan stays allowed |
| RepairFacts.LoweringTightensIff | syncinerary/agents/solver/stage1_days.py:523-541 | for one capacity from anywhere, exactly when lowering it admits nothing new |
| RepairFacts.LoweringAdmitsMore | syncinerary/agents/solver/stage1_days.py:523-541 | two of three places pinned to a day: a limit of one admits a plan that a limit of two refuses |
| BucketChanges.ClassifyMoves | syncinerary/agents/solver/repair.py:267-288 | the greedy pass makes disjoint opposite pairs until none is left, and moves + 2·swaps is the number of changes |
| BucketChanges.SwapsBetweenDays | syncinerary/agents/solver/repair.py:267-288 | for each pair of days, swaps are the smaller of the two opposite counts |
| BucketChanges.GreedyIsOptimal | syncinerary/agents/solver/repair.py:250-288 | no disjoint pairing has more swaps than the greedy one |
| BucketChanges.DayIsLast | syncinerary/agents/solver/repair.py:260-265 | a candidate's day is the last bucket that lists it |
| BucketChanges.MovedInIsChanged | syncinerary/agents/solver/repair.py:266-270 | the moves are as many as the candidates that changed day, and between two days as many as went there |
| BucketChanges.PairsAreTrades | syncinerary/agents/solver/repair.py:271-287 | the greedy pairs are, over all pairs of days, the smaller direction, whatever order they were found in |
| BucketChanges.ClassifyBucketChanges | syncinerary/agents/solver/repair.py:250-288 | for any order of the shared candidates, moves and twice the swaps are the candidates that changed day, the swaps are the trades of the two assignments and the most any pairing has |
| ItineraryDiff.ComputeDiff | syncinerary/diff/itinerary_diff.py:62-116 | the diff lists exactly the four kinds of change, each sorted |
| ItineraryDiff.DiffIsChronological | syncinerary/diff/itinerary_diff.py:113-116 | every list of the diff runs by day, start and candidate |
| ItineraryDiff.FatesPartition | syncinerary/diff/itinerary_diff.py:72-111 | every candidate meets exactly one of five fates |
| ItineraryDiff.DiffMembers | syncinerary/diff/itinerary_diff.py:72-111 | a candidate is listed under a kind of change exactly when it met it, with the data of both versions |
| ItineraryDiff.DiffRebuilds | syncinerary/diff/itinerary_diff.py:66-111 | applying the diff to the old version gives the new one, up to a moved stop's end time |
| ItineraryDiff.ListingUnique | syncinerary/diff/itinerary_diff.py:113-116 | sorted listings do not depend on the order a set gives its members |
| ItineraryDiff.ReverseSwaps | syncinerary/diff/itinerary_diff.py:75-82 | reversing the comparison swaps added and removed |
| ItineraryDiff.EmptyIffSamePlan | syncinerary/diff/itinerary_diff.py:62-124 | the diff is empty exactly when both versions put the same candidates at the same times |
| RescueProposal.PrepareFits | syncinerary/agents/rescue.py:235-257 | prefix, suffix, pool and required stops are what the disruption leaves, and the pool shares nothing with what is kept |
| RescueProposal.PrepareIsAbout | syncinerary/agents/rescue.py:110-159 | the affected stops are exactly those the trigger names, in the order of their starts |
| RescueProposal.PrepareIff | syncinerary/agents/rescue.py:110-242 | a replan is refused exactly when nothing is meant, when what is meant spans days, or when no time is left, in this order |
| RescueProposal.PrepareAsks | syncinerary/agents/rescue.py:162-198 | the request is about exactly what is meant, on one day, starts when its trigger says, and excludes exactly the places its trigger closed |
| RescueProposal.PoolMeans | syncinerary/agents/rescue.py:252-343 | the pool is the usable stops of the rest of the day and the offered alternatives |
| RescueProposal.BestAreOffered | syncinerary/agents/rescue.py:272-330 | the offered alternatives are the best of all suitable ones, no more than the limit |
| RescueProposal.ProposalIsValid | syncinerary/agents/rescue.py:417-449 | a proposal repeats no candidate and has no two stops at once |
| RescueProposal.UntouchedStopsStay | syncinerary/agents/rescue.py:417-434 | other days and the finished prefix reappear unchanged; all else lies in the affected day after the cutoff |
| RescueProposal.ClosedPlacesAreGone | syncinerary/agents/rescue.py:187-198 | a place the disruption closed is nowhere in the proposal |
| RescueProposal.LocksSurvive | syncinerary/agents/rescue.py:340-357 | a locked stop proposed again is still locked for the same reason, an unlocked one stays unlocked |
| RescueProposal.ChangesStayInDay | syncinerary/agents/rescue.py:417-449 | whatever changes, changes on the affected day and after the cutoff |
| RescueProposal.DiffStaysInDay | syncinerary/agents/rescue.py:468 | the shown diff mentions only the affected day and has no cross-day move |
| RescueProposal.WholeDayIsReplanned | syncinerary/agents/rescue.py:244-250 | an overslept or requested replan keeps nothing of its day as finished |
| RescueProposal.OneStopKeepsWhatEnded | syncinerary/agents/rescue.py:169-184 | closing one stop keeps exactly the stops of its day that had ended when it was due |
| RescueProposal.NobodyIsLost | syncinerary/agents/rescue.py:452-466 | nothing is both scheduled and wished for, and every old stop is proposed again, unusable, or on the wishlist |
| RescueProposal.LockedStopsStay | syncinerary/agents/rescue.py:340-389 | if the solver places required stops at their start, every usable locked stop keeps its day, start and lock |
| RescueProposal.DiffLeavesLocked | syncinerary/agents/rescue.py:354-389 | the diff then neither removes such a stop nor gives it another start |
| RescueProposal.ProposeRescue | syncinerary/agents/rescue.py:214-468 | for any route solver that meets its contract a request is refused exactly as prepared, else the proposal is the kept plan and the route, sound as a whole, and leaves locked stops alone if the solver does as asked |
| ManualEdit.ChangedDays | syncinerary/agents/manual_itinerary.py:128-137 | the changed days are the adjusted ones and exactly those on which a stop differs |
| ManualEdit.ChangedIff | syncinerary/agents/manual_itinerary.py:128-137 | a day changes exactly if it may be adjusted, an old stop of it is not asked for as it was, or a stop asked for there was not there |
| ManualEdit.NeighboursSuffice | syncinerary/agents/manual_itinerary.py:160-170 | comparing neighbours in start order finds every overlap of a day |
| ManualEdit.PlanDay | syncinerary/agents/manual_itinerary.py:159-236 | a day is refused for the first rule it breaks and only then; an accepted day places exactly its requested stops where the route puts them, apart, with their locks |
| ManualEdit.AcceptableIff | syncinerary/agents/manual_itinerary.py:157-215 | no rule is broken exactly when the day has no stops, or at most twenty of them, none at once unless the day may be adjusted, not tiring, with a route that serves exactly them without too much walking |
| ManualEdit.OverlappingIff | syncinerary/agents/manual_itinerary.py:160-170 | the neighbour check refuses a day exactly when two of its requested stops are at once |
| ManualEdit.FixedStartsMean | syncinerary/agents/manual_itinerary.py:183-194 | a stop is fixed at its requested start exactly when the day may not be adjusted or the stop was locked before |
| ManualEdit.PlanDays | syncinerary/agents/manual_itinerary.py:155-236 | accepted exactly when every changed day is acceptable, else refused for the first day that is not; untouched and planned days together repeat no place and overlap nowhere |
| ManualEdit.PlacedExactly | syncinerary/agents/manual_itinerary.py:155-236 | the plan holds exactly the requested places, each on its requested day |
| ManualEdit.TimesAreExact | syncinerary/agents/manual_itinerary.py:183-207 | on a day that may not be adjusted every stop keeps the requested times |
| ManualEdit.LockedStopsStay | syncinerary/agents/manual_itinerary.py:121-127 | a locked stop keeps its day, times and lock |
| ManualEdit.BreaksLockIff | syncinerary/agents/manual_itinerary.py:121-127 | an edit breaks a lock exactly when a locked stop is not asked for on its day at its times |
| ManualEdit.ChangesOnChangedDays | syncinerary/agents/manual_itinerary.py:128-155 | the new version differs from the old one on changed days only |
| ManualEdit.ProposeEdit | syncinerary/agents/manual_itinerary.py:66-278 | an edit is accepted if and only if every place and lock and day is admissible, something changed, and every changed day is acceptable; each refusal is told by its cause; an accepted edit yields the requested plan, its diff, and a wishlist that loses nobody |
| ReplanProtocol.StepKeepsInvariant | syncinerary/agents/rescue.py:395-416 | every step of every worker keeps one parent chain, agreeing events, exclusive locks and distinct numbers |
| ReplanProtocol.AlwaysConsistent | syncinerary/agents/rescue.py:575-619 | in every reachable state exactly one version is active, the versions ever active form one chain, events agree with their versions |
| ReplanProtocol.StepMovesForward | syncinerary/store/repositories/itinerary.py:94-150 | a decided event is frozen and a version status never goes back |
| ReplanProtocol.DecidedOnce | syncinerary/store/repositories/ops.py:36-67 | a decision and who made it stay through any later run |
| ReplanDecisions.DecisionDecides | syncinerary/agents/rescue.py:605-616 | a commit records the traveler, declines and rejects or approves and replaces the parent, and changes nothing else about any event or version |
| ReplanDecisions.ProposalAdds | syncinerary/agents/rescue.py:395-416 | a written proposal is one new version under the active one, numbered after all, and one pending event; nothing that exists changes |
| ReplanDecisions.RowsAscend | syncinerary/store/repositories/itinerary.py:120-134 | a decision locks the smaller id of proposal and parent first, then the other, and no row before |
| ReplanDecisions.OnlyCommitsWrite | syncinerary/agents/rescue.py:395-416 | no step but a commit changes a version or an event, and none changes another worker |
| ReplanDecisions.LocksReleased | syncinerary/agents/rescue.py:588-606 | a commit, an abort and a failed recheck release every lock of their worker |
| ReplanDecisions.DecisionReachable | syncinerary/agents/rescue.py:575-616 | from any state with idle workers where an event is pending on the active plan, four steps decide it as asked |
| ReplanDecisions.DecidableIff | syncinerary/agents/rescue.py:603-606 | with all workers idle a pending event can still be decided by some run exactly while its parent is active |
| ReplanDecisions.ProposalReachable | syncinerary/agents/rescue.py:223-228 | with nothing pending, three steps of either path reach a proposal on the active plan |
| ReplanDecisions.DecisionWasAsked | syncinerary/store/repositories/ops.py:36-67 | in every run every decision was asked for, as it was made, by the traveler recorded with it |
| ReplanProtocol.ApprovalReplacesTheActive | syncinerary/agents/rescue.py:599-615 | an approval replaces exactly the version that is active when it commits |
| ReplanProtocol.TwoPendingReachable | syncinerary/agents/rescue.py:395-403 | two pending proposals on one parent are reachable |
| ReplanProtocol.ApprovalSticksTheOthers | syncinerary/agents/rescue.py:603-606 | approving one proposal leaves every other pending one undecidable |
| ReplanProtocol.StuckForever | syncinerary/agents/rescue.py:223-228 | through any run of the protocol a stuck event stays pending and no version is added |
| ReplanProtocol.SecondProposalBlocksTheTrip | syncinerary/agents/rescue.py:223-228 | after approving one of two proposals no further proposal can start, and replanning adds no version |
| ReplanProtocol.OnePendingIff | syncinerary/agents/rescue.py:395-403 | a run has at most one pending event throughout exactly when every proposal is written while none is pending |
| ReplanProtocol.AlwaysDecidableIff | syncinerary/agents/rescue.py:599-615 | in a run every pending event can always be decided exactly when no approval commits while another is pending |
| ReplanProtocol.ManualEditsKeepOnePending | syncinerary/agents/manual_itinerary.py:237-256 | without rescues at most one proposal is ever pending |
| ReplanProtocol.WriterAlone | syncinerary/agents/rescue.py:395-403 | a worker about to write a proposal excludes every other holder of the active row |
| ReplanProtocol.NoDeadlock | syncinerary/agents/rescue.py:588-600 | whenever a worker holds a lock, some lock holder can go on without aborting |
| FreshSolves.OneActiveIff | syncinerary/agents/solver/stage2_route.py:1639-1649 | after saving a solve one version is active exactly when the one it read as active still was |
| FreshSolves.StaleSaveMakesTwo | syncinerary/agents/solver/stage2_route.py:1640-1646 | a proposal approved between a solve's read and its save leaves two active versions |
| FreshSolves.SaveKeepsCore | syncinerary/agents/solver/stage2_route.py:1639-1649 | saving an up-to-date solve keeps one active version, agreeing events, exclusive locks and growing numbers |
| FreshSolves.SaveReachable | syncinerary/agents/solver/stage2_route.py:1639-1649 | a solve can be saved whenever nobody holds the row it retires |
| FreshSolves.OneChainIff | syncinerary/agents/solver/stage2_route.py:1641-1649 | the versions ever active stay one parent chain exactly when the latest version was the active one |
| FreshSolves.HistoryKeepsCore | syncinerary/agents/solver/stage2_route.py:1639-1649 | in every history of protocol steps and up-to-date saves these hold in every state |
| FreshSolves.AlwaysOneActiveIff | syncinerary/agents/solver/stage2_route.py:1639-1649 | a history of protocol steps and saves, stale ones included, has one active version in every state exactly when every save is up to date |
| FreshSolves.AlwaysOneChainIff | syncinerary/agents/solver/stage2_route.py:1639-1649 | the versions ever active are one parent chain in every state exactly when every save is up to date and finds no later version than the active one |
| FreshSolves.SolvesDoNotFree | syncinerary/agents/rescue.py:223-228 | a stuck event stays pending and keeps proposals from starting whatever up-to-date solves are saved |
| LoopDetection.LoopDetector.constructor | syncinerary/harness/loop_detector.py:28-45 | a detector starts with empty windows |
| LoopDetection.LoopDetector.ObserveState | syncinerary/harness/loop_detector.py:47-55 | the deque is the last window of all observations, and the alarm is the newest one's count in it |
| LoopDetection.LoopDetector.ObserveTool | syncinerary/harness/loop_detector.py:57-65 | the same for tool calls, with their own threshold |
| LoopDetection.MakeDetector | syncinerary/harness/loop_detector.py:28-45 | exactly the unusable thresholds are refused |
| LoopDetection.QuietIffNeverCrowded | syncinerary/harness/loop_detector.py:47-55 | a run never alarms exactly when no window of it holds threshold copies of anything |
| LoopDetection.FewStatesMustFire | syncinerary/harness/loop_detector.py:47-55 | d states that fit the window stay quiet for at most d·(threshold - 1) observations |
| LoopDetection.BoundIsTight | syncinerary/harness/loop_detector.py:47-55 | a run of exactly that length stays quiet |
| LoopDetection.ManyStatesMayCycle | syncinerary/harness/loop_detector.py:47-55 | with d·(threshold - 1) at least the window, going round d states never alarms |
| Harness.TwoStatesMustFire | syncinerary/config/harness.py:3-6 | as configured, a quiet run over two states makes at most four observations |
| Harness.RunBudget.ChargeStep | syncinerary/harness/budget.py:34-39 | a step is counted even when it exceeds the budget |
| Harness.RunBudget.ChargeTokens | syncinerary/harness/budget.py:41-56 | a cost is added even when it exceeds the budget |
| Harness.RunLedger.Persist | syncinerary/harness/wrapper.py:187-193 | the stored row shows what was spent |
| Harness.RunLedger.BeforeCall | syncinerary/harness/wrapper.py:195-211 | budget, then state, then tool call; later checks see nothing after an earlier error; the row is stored in any case |
| Harness.RunLedger.RecordUsage | syncinerary/harness/wrapper.py:212-226 | tokens are charged and stored, and the error is the budget's |
| Harness.RunTool | syncinerary/harness/tool_guard.py:36-126 | validated arguments reach the handler, at most once, after at most one repair and only once the call is checked; every outcome and everything charged and observed is determined |
| Harness.CallModel | syncinerary/harness/wrapper.py:316-371 | the call is checked first, made only if that passes, and then charged what its answer reports; what is spent, seen and raised is determined |
| Harness.CheckedFacts | syncinerary/harness/wrapper.py:195-211 | a checked call counts its step first and passes only within the limit, with both histories still quiet |
| Harness.RunStep | syncinerary/harness/wrapper.py:240-254 | a step spends, observes, executes and raises exactly what its kind calls for |
| Harness.RunBody | syncinerary/harness/wrapper.py:402-408 | the steps run in order up to the first error that is not caught, each on what the ones before it spent |
| Harness.StepsFacts | syncinerary/harness/wrapper.py:240-254 | over any steps external calls never outnumber counted steps or the limit, only validated arguments are executed, an uncaught clean run was quiet and passes the token limit by one answer at most |
| Harness.TrackedRun | syncinerary/harness/wrapper.py:374-426 | at most max_steps external calls, validated arguments only, the stored row tells how the run ended, a clean run was quiet, and without caught errors the token limit is passed by one answer at most, in a run that ends so |

## Left out

- Language models, HTTP providers, prompts and response parsing: their results are arbitrary values.
- The CP-SAT search: Stage 1 is stated as constraints and a meal objective, not as a solver; the walking, weather, category and distance terms of its objective are not modelled.
- Meal variables exist in Stage 1 only when the shortlist holds food; the model has them always.
- Routing (`solve_full_routes`): only its contract enters, in `RescueProposal`.
- FreshSolves.Saves: a save is one move; the first plan of a trip, which has no version before it, is where histories start.
- The database session's identity map and isolation level: a read sees committed rows, a lock waits for its holder.
- ManualEdit.ProposeEdit: place, diet and city checks, daily fatigue (of a set of stops) and walking enter as predicates, and the route solver only through the contract `ManualEdit.RouteHonours` (distinct stops at disjoint times, as long as requested, the fixed ones at their start).
- Splitting candidates into even buckets and geographic clusters (`chunk_evenly`, `cluster_nearby_evenly`), opening-hour windows of a day (`open_windows_on`, `required_meals_on`), vote scoring and dietary filtering.
- RescueProposal.RouteMeets: that required stops are placed at their start is a separate condition on the solver, `RescueProposal.RequiredAtTheirStart`, and only the results on locked stops need it.
- RescueProposal.Alternatives: distance, city, opening hours, diet and lodging enter as one set of suitable candidates, and new candidates are any list, not the outcome of deduplication.
- The trace, transit legs and traveler notes of a proposal.
- The second result page of a productive Instagram search (`search_page`), the wording of queries, and the merging of mentions into mined places.
- Verification.VerifyTrip: a city's Reel target, which the trip loop derives from Reels kept in earlier cities, is a parameter.
- The guides that look up places before the cities do: their number of lookups is a parameter, at most the maximum.
- Two cities of the same name, which the code tells apart by position in some places and by name in others.
- RepairFacts.MergeDayCapacities: the order of the returned list, and findings for days outside the trip or members no longer on the shortlist, which Stage 1 skips.
- RepairFacts.RepairRun: the plan of a round is any plan the learned facts allow, the other constraints of Stage 1 being left out; pins and dates range over all candidates, reserves included; a probe's limit lies between the protected places of the day and one less than its places.
- Repair's choice of replacements and the comparison of plan values.
- Float rounding in budgets, deck positions and scores; token prices with more digits than Decimal keeps.
- Dedup.SamePlace: name normalisation and haversine distance are parameters; values of the list-valued enrichment keys are lists.
- LoopDetection.LoopDetector.ObserveState: a fingerprint stands for the hashed state, so hash collisions do not occur.
- Harness.TrackedRun: the context variable that finds the current ledger is a parameter, a failing recorder and concurrent calls inside one run are not modelled.
- Gather workers, routers, credentials, the iOS app, reporting and scripts.
