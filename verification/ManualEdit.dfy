/** Turning a traveler's exact edit into a proposal (`propose_edit` in
    syncinerary/agents/manual_itinerary.py). */
module ManualEdit {
  import opened Schedule
  import opened Sums
  import opened Lists
  import opened ItineraryDiff
  import R = RescueProposal
  import Sorting

  type Visit = R.Visit

  datatype EditedStop = EditedStop(candidate: Candidate, day: nat, start: nat, end: nat)

  datatype Edit = Edit(stops: seq<EditedStop>, adjustDays: set<nat>)

  datatype Refusal = BadPlace | LockedStop | BadDay | NothingChanged | TooManyStops | Overlap | TooTiring | NoRoute
                   | CannotFit | TooMuchWalking

  datatype Result<T> = Ok(value: T) | Err(error: Refusal)

  const DAY_STOP_LIMIT := 20

  /** The unseen checks: place, diet and city of a stop, fatigue of a day, walking of a route, and
      the route solver, which may fail. */
  datatype Rules = Rules(
    days: nat, refuses: EditedStop -> bool, tiring: set<EditedStop> -> bool, walksTooFar: seq<R.RouteStop> -> bool,
    route: (nat, seq<EditedStop>, map<Candidate, nat>) -> Option<seq<R.RouteStop>>)

  /** What the edit's own validation guarantees. */
  ghost predicate WellFormed(edit: Edit)
  {
    && (forall i, j | 0 <= i < j < |edit.stops| :: edit.stops[i].candidate != edit.stops[j].candidate)
    && (forall s | s in edit.stops :: s.start < s.end && Aligned(s.start) && Aligned(s.end))
  }

  /** The stop is asked for just where it is. */
  predicate AsRequested(v: Node, edit: Edit)
  {
    EditedStop(v.candidate, v.day, v.start, v.end) in edit.stops
  }

  /** The same place on the same day at the same times. */
  ghost predicate Same(v: Visit, s: EditedStop)
  {
    v.at.candidate == s.candidate && v.at.day == s.day && v.at.start == s.start && v.at.end == s.end
  }

  predicate Existing(s: EditedStop, was: seq<Visit>)
  {
    exists v :: v in was && v.at.candidate == s.candidate && v.at.day == s.day && v.at.start == s.start && v.at.end == s.end
  }

  /** The days on which anything differs, and those the traveler asked to adjust. */
  function Changed(was: seq<Visit>, edit: Edit): set<nat>
  {
    edit.adjustDays
    + (set v | v in was && !AsRequested(v.at, edit) :: v.at.day)
    + (set s | s in edit.stops && !Existing(s, was) :: s.day)
  }

  lemma AsRequestedIff(v: Visit, edit: Edit)
    ensures AsRequested(v.at, edit) <==> exists s :: s in edit.stops && Same(v, s)
  {
    var asked := EditedStop(v.at.candidate, v.at.day, v.at.start, v.at.end);
    assert Same(v, asked);
    forall s | s in edit.stops && Same(v, s) ensures s == asked {
    }
  }

  lemma ExistingIff(s: EditedStop, was: seq<Visit>)
    ensures Existing(s, was) <==> exists v :: v in was && Same(v, s)
  {
    if v :| v in was && Same(v, s) {
      assert Existing(s, was);
    }
  }

  /** A day changes if it may be adjusted, if an old stop of it is not asked for just as it was, or if a
      stop asked for there was not there before. */
  lemma ChangedIff(was: seq<Visit>, edit: Edit, day: nat)
    ensures day in Changed(was, edit) <==>
      || day in edit.adjustDays
      || (exists v :: v in was && v.at.day == day && forall s | s in edit.stops :: !Same(v, s))
      || (exists s :: s in edit.stops && s.day == day && forall v | v in was :: !Same(v, s))
  {
    forall v | v in was ensures AsRequested(v.at, edit) <==> exists s :: s in edit.stops && Same(v, s) {
      AsRequestedIff(v, edit);
    }
    forall s | s in edit.stops ensures Existing(s, was) <==> exists v :: v in was && Same(v, s) {
      ExistingIff(s, was);
    }
  }

  method ChangedDays(was: seq<Visit>, edit: Edit) returns (changed: set<nat>)
    ensures changed == Changed(was, edit)
  {
    changed := edit.adjustDays;
    for i := 0 to |was|
      invariant changed == edit.adjustDays + (set v | v in was[..i] && !AsRequested(v.at, edit) :: v.at.day)
    {
      assert was[..i + 1] == was[..i] + [was[i]];
      if !AsRequested(was[i].at, edit) {
        changed := changed + {was[i].at.day};
      }
    }
    assert was[..|was|] == was;
    ghost var before := changed;
    for i := 0 to |edit.stops|
      invariant changed == before + (set s | s in edit.stops[..i] && !Existing(s, was) :: s.day)
    {
      assert edit.stops[..i + 1] == edit.stops[..i] + [edit.stops[i]];
      if !Existing(edit.stops[i], was) {
        changed := changed + {edit.stops[i].day};
      }
    }
    assert edit.stops[..|edit.stops|] == edit.stops;
  }

  predicate ByStart(a: EditedStop, b: EditedStop) { a.start <= b.start }

  function StopsOn(edit: Edit, day: nat): seq<EditedStop>
  {
    Sorting.Sort(Where(edit.stops, (s: EditedStop) => s.day == day), ByStart)
  }

  lemma StopsOnMembers(edit: Edit, day: nat)
    ensures forall s :: s in StopsOn(edit, day) <==> s in edit.stops && s.day == day
    ensures Sorting.Ordered(StopsOn(edit, day), ByStart)
  {
    var own := Where(edit.stops, (s: EditedStop) => s.day == day);
    Sorting.SortKeeps(own, ByStart);
    Sorting.SameMembers(StopsOn(edit, day), own);
    Sorting.SortOrders(own, ByStart);
  }

  /** All that is asked of the route: distinct requested stops at disjoint times, each as long as
      requested, the fixed ones at their start. */
  ghost predicate RouteHonours(stops: seq<EditedStop>, fixed: map<Candidate, nat>, route: seq<R.RouteStop>)
  {
    && (forall i, j | 0 <= i < j < |route| :: route[i].candidate != route[j].candidate
          && (route[i].end <= route[j].start || route[j].end <= route[i].start))
    && (forall r, s | r in route && s in stops && r.candidate == s.candidate ::
          r.end - r.start == s.end - s.start && (r.candidate in fixed ==> r.start == fixed[r.candidate]))
  }

  /** Routes keep their contract, and no stop outside the trip has a city to be in. */
  ghost predicate Honours(rules: Rules)
  {
    && (forall day, stops, fixed :: rules.route(day, stops, fixed).Some? ==> RouteHonours(stops, fixed, rules.route(day, stops, fixed).value))
    && forall s: EditedStop :: s.day >= rules.days ==> rules.refuses(s)
  }

  predicate LockedBefore(was: seq<Visit>, c: Candidate)
  {
    exists v :: v in was && v.at.candidate == c && R.Locked(v)
  }

  /** The starts the route must keep: all of them, or on an adjusted day those of locked stops. */
  function FixedStarts(was: seq<Visit>, edit: Edit, day: nat): map<Candidate, nat>
    requires WellFormed(edit)
  {
    StopsOnMembers(edit, day);
    var stops := StopsOn(edit, day);
    map s | s in stops && (day !in edit.adjustDays || LockedBefore(was, s.candidate)) :: s.candidate := s.start
  }

  /** A planned stop inherits its locks from the old version. */
  function Inherit(was: seq<Visit>, r: R.RouteStop, day: nat): Visit
  {
    var at := Node(0, r.candidate, day, r.start, r.end);
    if exists v :: v in was && v.at.candidate == r.candidate then
      R.Visit(at, LockOf(was, r.candidate).fixed, LockOf(was, r.candidate).lock)
    else R.Visit(at, false, None)
  }

  /** The last old row of a candidate, as a dictionary would keep it. */
  function LockOf(was: seq<Visit>, c: Candidate): (v: Visit)
    requires exists v :: v in was && v.at.candidate == c
    ensures v in was && v.at.candidate == c
  {
    var last := was[|was| - 1];
    if last.at.candidate == c then last
    else
      assert was == was[..|was| - 1] + [last];
      LockOf(was[..|was| - 1], c)
  }

  function CandidatesOf(stops: seq<EditedStop>): set<Candidate> { set s | s in stops :: s.candidate }

  function RoutedCandidates(route: seq<R.RouteStop>): set<Candidate> { set r | r in route :: r.candidate }

  function Planned(was: seq<Visit>, route: seq<R.RouteStop>, day: nat): seq<Visit>
  {
    seq(|route|, i requires 0 <= i < |route| => Inherit(was, route[i], day))
  }

  predicate Overlapping(stops: seq<EditedStop>)
  {
    exists i :: 0 <= i < |stops| - 1 && stops[i].end > stops[i + 1].start
  }

  /** Comparing neighbours in start order finds every overlap. */
  lemma {:induction false} NeighboursSuffice(stops: seq<EditedStop>, i: nat, j: nat)
    requires Sorting.Ordered(stops, ByStart) && !Overlapping(stops) && i < j < |stops|
    requires forall s | s in stops :: s.start < s.end
    ensures stops[i].end <= stops[j].start
  {
    assert stops[i].end <= stops[i + 1].start;
    assert i + 1 < j ==> ByStart(stops[i + 1], stops[j]);
  }

  /** No candidate twice, no two stops at once. */
  ghost predicate AllApart(nodes: seq<Visit>)
  {
    forall i, j | 0 <= i < j < |nodes| :: nodes[i].at.candidate != nodes[j].at.candidate && R.Apart(nodes[i], nodes[j])
  }

  ghost predicate Places(nodes: seq<Visit>, c: Candidate)
  {
    exists v :: v in nodes && v.at.candidate == c
  }

  /** What planning one changed day yields. */
  ghost predicate DayPlanned(was: seq<Visit>, edit: Edit, day: nat, nodes: seq<Visit>)
    requires WellFormed(edit)
  {
    && AllApart(nodes)
    && (forall v | v in nodes :: v.at.day == day && PlacedFor(was, edit, v))
    && (forall s | s in edit.stops && s.day == day :: Places(nodes, s.candidate))
  }

  /** A planned stop answers a requested one: same day and length, the requested start unless the
      day may be adjusted and the stop was not locked, and the locks it had. */
  ghost predicate Answers(was: seq<Visit>, edit: Edit, v: Visit, s: EditedStop)
  {
    && s.candidate == v.at.candidate && s.day == v.at.day
    && v.at.end - v.at.start == s.end - s.start
    && (s.day !in edit.adjustDays || LockedBefore(was, s.candidate) ==> v.at.start == s.start)
    && LocksInherited(was, v)
  }

  ghost predicate PlacedFor(was: seq<Visit>, edit: Edit, v: Visit)
  {
    exists s :: s in edit.stops && Answers(was, edit, v, s)
  }

  ghost predicate LocksInherited(was: seq<Visit>, v: Visit)
  {
    if exists u :: u in was && u.at.candidate == v.at.candidate
    then v.fixed == LockOf(was, v.at.candidate).fixed && v.lock == LockOf(was, v.at.candidate).lock
    else !v.fixed && v.lock == None
  }

  lemma RouteIsPlan(was: seq<Visit>, edit: Edit, day: nat, route: seq<R.RouteStop>)
    requires WellFormed(edit) && RouteHonours(StopsOn(edit, day), FixedStarts(was, edit, day), route)
    requires RoutedCandidates(route) == CandidatesOf(StopsOn(edit, day))
    ensures DayPlanned(was, edit, day, Planned(was, route, day))
  {
    AllAnswer(was, edit, day, route);
    AllPlaced(was, edit, day, route);
    DayApart(route, Planned(was, route, day), was, day);
  }

  lemma AllAnswer(was: seq<Visit>, edit: Edit, day: nat, route: seq<R.RouteStop>)
    requires WellFormed(edit) && RouteHonours(StopsOn(edit, day), FixedStarts(was, edit, day), route)
    requires RoutedCandidates(route) == CandidatesOf(StopsOn(edit, day))
    ensures forall v | v in Planned(was, route, day) :: v.at.day == day && PlacedFor(was, edit, v)
  {
    var nodes := Planned(was, route, day);
    forall v | v in nodes ensures v.at.day == day && PlacedFor(was, edit, v) {
      var i :| 0 <= i < |nodes| && nodes[i] == v;
      AnswersSomeStop(was, edit, day, route, i);
    }
  }

  lemma AllPlaced(was: seq<Visit>, edit: Edit, day: nat, route: seq<R.RouteStop>)
    requires RoutedCandidates(route) == CandidatesOf(StopsOn(edit, day))
    ensures forall s | s in edit.stops && s.day == day :: Places(Planned(was, route, day), s.candidate)
  {
    StopsOnMembers(edit, day);
    var nodes := Planned(was, route, day);
    forall s | s in edit.stops && s.day == day ensures Places(nodes, s.candidate) {
      assert s.candidate in CandidatesOf(StopsOn(edit, day));
      var r :| r in route && r.candidate == s.candidate;
      var i :| 0 <= i < |route| && route[i] == r;
      assert nodes[i] in nodes;
    }
  }

  lemma AnswersSomeStop(was: seq<Visit>, edit: Edit, day: nat, route: seq<R.RouteStop>, i: nat)
    requires WellFormed(edit) && RouteHonours(StopsOn(edit, day), FixedStarts(was, edit, day), route)
    requires i < |route| && RoutedCandidates(route) == CandidatesOf(StopsOn(edit, day))
    ensures PlacedFor(was, edit, Planned(was, route, day)[i])
  {
    StopsOnMembers(edit, day);
    assert route[i] in route && route[i].candidate in RoutedCandidates(route);
    var s :| s in StopsOn(edit, day) && s.candidate == route[i].candidate;
    StartAndLength(was, edit, day, route, route[i], s);
    InheritsLocks(was, route[i], day);
    assert Answers(was, edit, Planned(was, route, day)[i], s);
  }

  lemma StartAndLength(was: seq<Visit>, edit: Edit, day: nat, route: seq<R.RouteStop>, r: R.RouteStop, s: EditedStop)
    requires WellFormed(edit) && RouteHonours(StopsOn(edit, day), FixedStarts(was, edit, day), route)
    requires r in route && s in StopsOn(edit, day) && s.candidate == r.candidate
    ensures r.end - r.start == s.end - s.start
    ensures day !in edit.adjustDays || LockedBefore(was, s.candidate) ==> r.start == s.start
  {
    var fixed := FixedStarts(was, edit, day);
    StopsOnMembers(edit, day);
    if day !in edit.adjustDays || LockedBefore(was, s.candidate) {
      assert s.candidate in fixed;
      var t :| t in StopsOn(edit, day) && t.candidate == s.candidate && fixed[s.candidate] == t.start;
      OneStopEach(edit, s, t);
    }
  }

  lemma OneStopEach(edit: Edit, s: EditedStop, t: EditedStop)
    requires WellFormed(edit) && s in edit.stops && t in edit.stops && s.candidate == t.candidate
    ensures s == t
  {
    var i, j :| 0 <= i < |edit.stops| && 0 <= j < |edit.stops| && edit.stops[i] == s && edit.stops[j] == t;
  }

  lemma InheritsLocks(was: seq<Visit>, r: R.RouteStop, day: nat)
    ensures LocksInherited(was, Inherit(was, r, day))
  {
  }

  lemma DayApart(route: seq<R.RouteStop>, nodes: seq<Visit>, was: seq<Visit>, day: nat)
    requires nodes == Planned(was, route, day)
    requires forall i, j | 0 <= i < j < |route| :: (route[i].candidate != route[j].candidate
      && (route[i].end <= route[j].start || route[j].end <= route[i].start))
    ensures AllApart(nodes)
  {
  }

  // ----- when a day is refused -----

  function StopsAsked(edit: Edit, day: nat): set<EditedStop> { set s | s in edit.stops && s.day == day }

  /** No two stops are asked for at one time. */
  predicate NoneAtOnce(stops: set<EditedStop>)
  {
    forall s, t | s in stops && t in stops && s != t :: s.end <= t.start || t.end <= s.start
  }

  /** What is asked of the route solver for a day. */
  function RouteFor(rules: Rules, was: seq<Visit>, edit: Edit, day: nat): Option<seq<R.RouteStop>>
    requires WellFormed(edit)
  {
    rules.route(day, StopsOn(edit, day), FixedStarts(was, edit, day))
  }

  /** The route has every place asked for and no other. */
  ghost predicate HasJust(route: seq<R.RouteStop>, stops: set<EditedStop>)
  {
    && (forall s | s in stops :: exists r :: r in route && r.candidate == s.candidate)
    && (forall r | r in route :: exists s :: s in stops && s.candidate == r.candidate)
  }

  /** The verdict on a day, from what its checks find. */
  function Verdict(count: nat, clash: bool, tiring: bool, routed: bool, just: bool, walks: bool): Option<Refusal>
  {
    if count > DAY_STOP_LIMIT then Some(TooManyStops)
    else if count == 0 then None
    else if clash then Some(Overlap)
    else if tiring then Some(TooTiring)
    else if !routed then Some(NoRoute)
    else if !just then Some(CannotFit)
    else if walks then Some(TooMuchWalking)
    else None
  }

  /** Why a changed day is refused, if it is. */
  ghost function DayRefusal(rules: Rules, was: seq<Visit>, edit: Edit, day: nat): Option<Refusal>
    requires WellFormed(edit)
  {
    var stops, route := StopsAsked(edit, day), RouteFor(rules, was, edit, day);
    Verdict(|stops|, day !in edit.adjustDays && !NoneAtOnce(stops), rules.tiring(stops),
      route.Some?, route.Some? && HasJust(route.value, stops), route.Some? && rules.walksTooFar(route.value))
  }

  /** A changed day the edit may have: nothing is asked for it, or up to twenty stops, no two at one time
      unless the day may be adjusted, not too tiring, and on a route that has just these places and
      does not walk too far. */
  ghost predicate DayAcceptable(rules: Rules, was: seq<Visit>, edit: Edit, day: nat)
    requires WellFormed(edit)
  {
    var stops, route := StopsAsked(edit, day), RouteFor(rules, was, edit, day);
    stops == {} || (
      && |stops| <= DAY_STOP_LIMIT
      && (day in edit.adjustDays || NoneAtOnce(stops))
      && !rules.tiring(stops)
      && route.Some?
      && HasJust(route.value, stops)
      && !rules.walksTooFar(route.value))
  }

  lemma AcceptableIff(rules: Rules, was: seq<Visit>, edit: Edit, day: nat)
    requires WellFormed(edit)
    ensures DayRefusal(rules, was, edit, day) == None <==> DayAcceptable(rules, was, edit, day)
  {
  }

  /** The starts the route must keep are those of all stops, or on an adjusted day those of locked
      stops only. */
  lemma FixedStartsMean(was: seq<Visit>, edit: Edit, day: nat, s: EditedStop)
    requires WellFormed(edit) && s in edit.stops && s.day == day
    ensures var fixed := FixedStarts(was, edit, day);
      && (s.candidate in fixed <==>
            day !in edit.adjustDays || exists v :: v in was && v.at.candidate == s.candidate && R.Locked(v))
      && (s.candidate in fixed ==> fixed[s.candidate] == s.start)
  {
    StopsOnMembers(edit, day);
    var fixed := FixedStarts(was, edit, day);
    if s.candidate in fixed {
      var t :| t in StopsOn(edit, day) && t.candidate == s.candidate && fixed[s.candidate] == t.start
        && (day !in edit.adjustDays || LockedBefore(was, t.candidate));
      OneStopEach(edit, s, t);
    }
  }

  lemma {:induction false} DistinctSize<T>(s: seq<T>, own: set<T>)
    requires Distinct(s) && forall x :: x in own <==> x in s
    ensures |own| == |s|
    decreases |s|
  {
    if s == [] {
      assert own == {};
    } else {
      assert s == [s[0]] + s[1..];
      DistinctSize(s[1..], own - {s[0]});
    }
  }

  /** The sorted stops of a day repeat none, so there are as many as were asked for. */
  lemma StopsOnCount(edit: Edit, day: nat)
    requires WellFormed(edit)
    ensures Distinct(StopsOn(edit, day)) && |StopsOn(edit, day)| == |StopsAsked(edit, day)|
  {
    var own := Where(edit.stops, (s: EditedStop) => s.day == day);
    WhereDistinct(edit.stops, (s: EditedStop) => s.day == day);
    Sorting.SortKeeps(own, ByStart);
    DistinctRearranged(own, StopsOn(edit, day));
    StopsOnMembers(edit, day);
    DistinctSize(StopsOn(edit, day), StopsAsked(edit, day));
  }

  /** Two neighbours overlap exactly when two stops are asked for at one time. */
  lemma OverlappingIff(edit: Edit, day: nat)
    requires WellFormed(edit)
    ensures Overlapping(StopsOn(edit, day)) <==> !NoneAtOnce(StopsAsked(edit, day))
  {
    var stops := StopsOn(edit, day);
    StopsOnMembers(edit, day);
    StopsOnCount(edit, day);
    if Overlapping(stops) {
      var i :| 0 <= i < |stops| - 1 && stops[i].end > stops[i + 1].start;
      assert ByStart(stops[i], stops[i + 1]) && stops[i] != stops[i + 1];
      assert stops[i] in stops && stops[i + 1] in stops;
    } else {
      NoneOverlap(edit, day);
    }
  }

  /** A planned stop is where the route has it. */
  ghost predicate AsRouted(rules: Rules, was: seq<Visit>, edit: Edit, v: Visit)
    requires WellFormed(edit)
  {
    && RouteFor(rules, was, edit, v.at.day).Some?
    && R.RouteStop(v.at.candidate, v.at.start, v.at.end) in RouteFor(rules, was, edit, v.at.day).value
  }

  lemma PlannedAsRouted(rules: Rules, was: seq<Visit>, edit: Edit, day: nat, route: seq<R.RouteStop>)
    requires WellFormed(edit) && RouteFor(rules, was, edit, day) == Some(route)
    ensures forall v | v in Planned(was, route, day) :: AsRouted(rules, was, edit, v)
  {
    var nodes := Planned(was, route, day);
    forall v | v in nodes ensures AsRouted(rules, was, edit, v) {
      var i :| 0 <= i < |nodes| && nodes[i] == v;
      assert route[i] in route && R.RouteStop(v.at.candidate, v.at.start, v.at.end) == route[i];
    }
  }

  /** What is checked of the sorted stops is what is asked of the stops. */
  lemma DayFacts(edit: Edit, day: nat, stops: seq<EditedStop>, asked: set<EditedStop>)
    requires WellFormed(edit) && stops == StopsOn(edit, day) && asked == StopsAsked(edit, day)
    ensures |stops| == |asked| && asked == (set s | s in stops) && (Overlapping(stops) <==> !NoneAtOnce(asked))
    ensures forall s | s in edit.stops && s.day == day :: s in stops
  {
    StopsOnMembers(edit, day);
    StopsOnCount(edit, day);
    OverlappingIff(edit, day);
  }

  lemma CoverIff(stops: seq<EditedStop>, asked: set<EditedStop>, route: seq<R.RouteStop>)
    requires asked == set s | s in stops
    ensures RoutedCandidates(route) == CandidatesOf(stops) <==> HasJust(route, asked)
  {
    if HasJust(route, asked) {
      forall c | c in RoutedCandidates(route) ensures c in CandidatesOf(stops) {
        var r :| r in route && r.candidate == c;
        var s :| s in asked && s.candidate == r.candidate;
      }
      forall c | c in CandidatesOf(stops) ensures c in RoutedCandidates(route) {
        var s :| s in asked && s.candidate == c;
        var r :| r in route && r.candidate == s.candidate;
      }
    }
    if RoutedCandidates(route) == CandidatesOf(stops) {
      forall s | s in asked ensures exists r :: r in route && r.candidate == s.candidate {
        assert s.candidate in RoutedCandidates(route);
      }
      forall r | r in route ensures exists s :: s in asked && s.candidate == r.candidate {
        assert r.candidate in CandidatesOf(stops);
        var s :| s in stops && s.candidate == r.candidate;
        assert s in asked;
      }
    }
  }

  lemma VerdictIs(rules: Rules, was: seq<Visit>, edit: Edit, day: nat, stops: seq<EditedStop>, route: Option<seq<R.RouteStop>>)
    requires WellFormed(edit) && stops == StopsOn(edit, day) && route == RouteFor(rules, was, edit, day)
    ensures DayRefusal(rules, was, edit, day) == Verdict(|stops|, day !in edit.adjustDays && Overlapping(stops),
      rules.tiring(set s | s in stops), route.Some?, route.Some? && RoutedCandidates(route.value) == CandidatesOf(stops),
      route.Some? && rules.walksTooFar(route.value))
  {
    DayFacts(edit, day, stops, StopsAsked(edit, day));
    if route.Some? {
      CoverIff(stops, StopsAsked(edit, day), route.value);
    }
  }

  /** The checks of a day, and its route. */
  method RouteDay(rules: Rules, was: seq<Visit>, edit: Edit, day: nat) returns (r: Result<seq<R.RouteStop>>)
    requires WellFormed(edit)
    ensures r.Err? ==> r.error !in {BadPlace, LockedStop, BadDay, NothingChanged}
    ensures DayRefusal(rules, was, edit, day) == if r.Ok? then None else Some(r.error)
    ensures r.Ok? && StopsOn(edit, day) == [] ==> r.value == []
    ensures r.Ok? && StopsOn(edit, day) != [] ==>
      RouteFor(rules, was, edit, day) == Some(r.value) && RoutedCandidates(r.value) == CandidatesOf(StopsOn(edit, day))
  {
    var stops := StopsOn(edit, day);
    VerdictIs(rules, was, edit, day, stops, RouteFor(rules, was, edit, day));
    if |stops| > DAY_STOP_LIMIT {
      return Err(TooManyStops);
    }
    if stops == [] {
      return Ok([]);
    }
    if day !in edit.adjustDays && Overlapping(stops) {
      return Err(Overlap);
    }
    if rules.tiring(set s | s in stops) {
      return Err(TooTiring);
    }
    var route := rules.route(day, stops, FixedStarts(was, edit, day));
    if route == None {
      return Err(NoRoute);
    }
    if RoutedCandidates(route.value) != CandidatesOf(stops) {
      return Err(CannotFit);
    }
    if rules.walksTooFar(route.value) {
      return Err(TooMuchWalking);
    }
    return Ok(route.value);
  }

  lemma RoutePlans(rules: Rules, was: seq<Visit>, edit: Edit, day: nat, route: seq<R.RouteStop>)
    requires WellFormed(edit) && Honours(rules)
    requires if StopsOn(edit, day) == [] then route == []
      else RouteFor(rules, was, edit, day) == Some(route) && RoutedCandidates(route) == CandidatesOf(StopsOn(edit, day))
    ensures DayPlanned(was, edit, day, Planned(was, route, day))
    ensures forall v | v in Planned(was, route, day) :: AsRouted(rules, was, edit, v)
  {
    if StopsOn(edit, day) == [] {
      StopsOnMembers(edit, day);
    } else {
      RouteIsPlan(was, edit, day, route);
      PlannedAsRouted(rules, was, edit, day, route);
    }
  }

  method PlanDay(rules: Rules, was: seq<Visit>, edit: Edit, day: nat) returns (r: Result<seq<Visit>>)
    requires WellFormed(edit) && Honours(rules)
    ensures r.Ok? ==> DayPlanned(was, edit, day, r.value) && forall v | v in r.value :: AsRouted(rules, was, edit, v)
    ensures r.Err? ==> r.error !in {BadPlace, LockedStop, BadDay, NothingChanged}
    ensures DayRefusal(rules, was, edit, day) == if r.Ok? then None else Some(r.error)
  {
    var route := RouteDay(rules, was, edit, day);
    if route.Err? {
      return Err(route.error);
    }
    RoutePlans(rules, was, edit, day, route.value);
    return Ok(Planned(was, route.value, day));
  }

  lemma NoneOverlap(edit: Edit, day: nat)
    requires WellFormed(edit) && !Overlapping(StopsOn(edit, day))
    ensures NoneAtOnce(StopsAsked(edit, day))
  {
    var stops := StopsOn(edit, day);
    StopsOnMembers(edit, day);
    forall s, t | s in StopsAsked(edit, day) && t in StopsAsked(edit, day) && s != t ensures s.end <= t.start || t.end <= s.start {
      PairApart(stops, s, t);
    }
  }

  lemma PairApart(stops: seq<EditedStop>, s: EditedStop, t: EditedStop)
    requires Sorting.Ordered(stops, ByStart) && !Overlapping(stops) && forall x | x in stops :: x.start < x.end
    requires s in stops && t in stops && s != t
    ensures s.end <= t.start || t.end <= s.start
  {
    var i :| 0 <= i < |stops| && stops[i] == s;
    var j :| 0 <= j < |stops| && stops[j] == t;
    if i < j {
      NeighboursSuffice(stops, i, j);
    } else {
      NeighboursSuffice(stops, j, i);
    }
  }

  // ----- the whole plan -----

  /** The stop sits where some requested stop of its candidate is, as far as the day goes. */
  ghost predicate OnRequestedDay(edit: Edit, v: Visit)
  {
    exists s :: s in edit.stops && s.candidate == v.at.candidate && s.day == v.at.day
  }

  /** A planned stop is either untouched, or answers a stop requested for a changed day before `d`. */
  ghost predicate Accounted(was: seq<Visit>, edit: Edit, changed: set<nat>, d: nat, v: Visit)
  {
    && OnRequestedDay(edit, v)
    && if v.at.day in changed then v.at.day < d && PlacedFor(was, edit, v) else v in was
  }

  /** Untouched days are all there, and so is every stop requested for a changed day before `d`. */
  ghost predicate NothingMissing(was: seq<Visit>, edit: Edit, changed: set<nat>, d: nat, planned: seq<Visit>)
  {
    && (forall v | v in was && v.at.day !in changed :: v in planned)
    && (forall s | s in edit.stops && s.day in changed && s.day < d :: Places(planned, s.candidate))
  }

  /** The plan after the changed days before `d`. */
  ghost predicate PlanSoFar(was: seq<Visit>, edit: Edit, changed: set<nat>, d: nat, planned: seq<Visit>)
  {
    && AllApart(planned)
    && (forall v | v in planned :: Accounted(was, edit, changed, d, v))
    && NothingMissing(was, edit, changed, d, planned)
  }

  lemma PartsApart(was: seq<Visit>, known: set<Candidate>, part: seq<Visit>)
    requires R.Valid(was, known) && Distinct(part) && forall v | v in part :: v in was
    ensures AllApart(part)
  {
    forall i, j | 0 <= i < j < |part| ensures part[i].at.candidate != part[j].at.candidate && R.Apart(part[i], part[j]) {
      assert part[i] in part && part[j] in part && part[i] != part[j];
    }
  }

  function Untouched(was: seq<Visit>, changed: set<nat>): seq<Visit>
  {
    Where(was, (v: Visit) => v.at.day !in changed)
  }

  lemma KeptIsPlan(was: seq<Visit>, edit: Edit, known: set<Candidate>)
    requires R.Valid(was, known)
    ensures PlanSoFar(was, edit, Changed(was, edit), 0, Untouched(was, Changed(was, edit)))
  {
    var changed := Changed(was, edit);
    var kept := Untouched(was, changed);
    WhereDistinct(was, (v: Visit) => v.at.day !in changed);
    PartsApart(was, known, kept);
    forall v | v in kept ensures Accounted(was, edit, changed, 0, v) {
      assert AsRequested(v.at, edit);
    }
  }

  lemma DifferentDays(edit: Edit, v: Visit, w: Visit)
    requires WellFormed(edit) && OnRequestedDay(edit, v) && OnRequestedDay(edit, w) && v.at.day != w.at.day
    ensures v.at.candidate != w.at.candidate && R.Apart(v, w)
  {
    var s :| s in edit.stops && s.candidate == v.at.candidate && s.day == v.at.day;
    var t :| t in edit.stops && t.candidate == w.at.candidate && t.day == w.at.day;
    if s.candidate == t.candidate {
      OneStopEach(edit, s, t);
    }
  }

  lemma ApartJoin(s: seq<Visit>, t: seq<Visit>)
    requires AllApart(s) && AllApart(t)
    requires forall v, w | v in s && w in t :: v.at.candidate != w.at.candidate && R.Apart(v, w)
    ensures AllApart(s + t)
  {
    var all := s + t;
    forall i, j | 0 <= i < j < |all| ensures all[i].at.candidate != all[j].at.candidate && R.Apart(all[i], all[j]) {
      if i < |s| <= j {
        assert s[i] in s && t[j - |s|] in t;
      }
    }
  }

  lemma DayAccounted(was: seq<Visit>, edit: Edit, changed: set<nat>, d: nat, nodes: seq<Visit>)
    requires WellFormed(edit) && d in changed && DayPlanned(was, edit, d, nodes)
    ensures forall v | v in nodes :: v.at.day == d && Accounted(was, edit, changed, d + 1, v)
  {
    forall v | v in nodes ensures v.at.day == d && Accounted(was, edit, changed, d + 1, v) {
      assert PlacedFor(was, edit, v);
    }
  }

  lemma PlacesJoin(s: seq<Visit>, t: seq<Visit>, c: Candidate)
    requires Places(s, c) || Places(t, c)
    ensures Places(s + t, c)
  {
    if v :| v in s && v.at.candidate == c {
      assert v in s + t;
    } else {
      var v :| v in t && v.at.candidate == c;
      assert v in s + t;
    }
  }

  lemma DayCompletes(was: seq<Visit>, edit: Edit, changed: set<nat>, d: nat, planned: seq<Visit>, nodes: seq<Visit>)
    requires NothingMissing(was, edit, changed, d, planned)
    requires forall s | s in edit.stops && s.day == d :: Places(nodes, s.candidate)
    ensures NothingMissing(was, edit, changed, d + 1, planned + nodes)
  {
    forall s | s in edit.stops && s.day in changed && s.day < d + 1 ensures Places(planned + nodes, s.candidate) {
      PlacesJoin(planned, nodes, s.candidate);
    }
  }

  lemma DayJoins(was: seq<Visit>, edit: Edit, changed: set<nat>, d: nat, planned: seq<Visit>, nodes: seq<Visit>)
    requires WellFormed(edit) && d in changed && AllApart(planned) && AllApart(nodes)
    requires forall v | v in planned :: Accounted(was, edit, changed, d, v)
    requires forall v | v in nodes :: v.at.day == d && Accounted(was, edit, changed, d + 1, v)
    ensures AllApart(planned + nodes)
  {
    forall v, w | v in planned && w in nodes ensures v.at.candidate != w.at.candidate && R.Apart(v, w) {
      assert Accounted(was, edit, changed, d, v) && Accounted(was, edit, changed, d + 1, w);
      DifferentDays(edit, v, w);
    }
    ApartJoin(planned, nodes);
  }

  lemma DayAdded(was: seq<Visit>, edit: Edit, changed: set<nat>, d: nat, planned: seq<Visit>, nodes: seq<Visit>)
    requires WellFormed(edit) && PlanSoFar(was, edit, changed, d, planned) && d in changed && DayPlanned(was, edit, d, nodes)
    ensures PlanSoFar(was, edit, changed, d + 1, planned + nodes)
  {
    DayAccounted(was, edit, changed, d, nodes);
    DayCompletes(was, edit, changed, d, planned, nodes);
    DayJoins(was, edit, changed, d, planned, nodes);
    DayLater(was, edit, changed, d, planned);
  }

  lemma DayLater(was: seq<Visit>, edit: Edit, changed: set<nat>, d: nat, planned: seq<Visit>)
    requires forall v | v in planned :: Accounted(was, edit, changed, d, v)
    ensures forall v | v in planned :: Accounted(was, edit, changed, d + 1, v)
  {
    forall v | v in planned ensures Accounted(was, edit, changed, d + 1, v) {
      assert Accounted(was, edit, changed, d, v);
    }
  }

  lemma DaySkipped(was: seq<Visit>, edit: Edit, changed: set<nat>, d: nat, planned: seq<Visit>)
    requires PlanSoFar(was, edit, changed, d, planned) && d !in changed
    ensures PlanSoFar(was, edit, changed, d + 1, planned)
  {
    DayLater(was, edit, changed, d, planned);
  }

  /** The first changed day that is refused, for its reason. */
  ghost predicate FirstRefusal(rules: Rules, was: seq<Visit>, edit: Edit, changed: set<nat>, error: Refusal)
    requires WellFormed(edit)
  {
    exists d :: d in changed && DayRefusal(rules, was, edit, d) == Some(error)
      && forall e | e in changed && e < d :: DayRefusal(rules, was, edit, e) == None
  }

  ghost predicate AllRouted(rules: Rules, was: seq<Visit>, edit: Edit, changed: set<nat>, nodes: seq<Visit>)
    requires WellFormed(edit)
  {
    forall v | v in nodes && v.at.day in changed :: AsRouted(rules, was, edit, v)
  }

  /** The changed days before `d` are accepted and planned as their routes have it. */
  ghost predicate Progress(rules: Rules, was: seq<Visit>, edit: Edit, changed: set<nat>, d: nat, planned: seq<Visit>)
    requires WellFormed(edit)
  {
    && PlanSoFar(was, edit, changed, d, planned) && AllRouted(rules, was, edit, changed, planned)
    && forall e | e in changed && e < d :: DayRefusal(rules, was, edit, e) == None
  }

  lemma ProgressStarts(rules: Rules, was: seq<Visit>, edit: Edit, known: set<Candidate>)
    requires WellFormed(edit) && R.Valid(was, known)
    ensures Progress(rules, was, edit, Changed(was, edit), 0, Untouched(was, Changed(was, edit)))
  {
    KeptIsPlan(was, edit, known);
  }

  lemma ProgressMade(rules: Rules, was: seq<Visit>, edit: Edit, changed: set<nat>, d: nat, planned: seq<Visit>, nodes: seq<Visit>)
    requires WellFormed(edit) && Progress(rules, was, edit, changed, d, planned) && d in changed && DayPlanned(was, edit, d, nodes)
    requires DayRefusal(rules, was, edit, d) == None && forall v | v in nodes :: AsRouted(rules, was, edit, v)
    ensures Progress(rules, was, edit, changed, d + 1, planned + nodes)
  {
    DayAdded(was, edit, changed, d, planned, nodes);
  }

  lemma ProgressPast(rules: Rules, was: seq<Visit>, edit: Edit, changed: set<nat>, d: nat, planned: seq<Visit>)
    requires WellFormed(edit) && Progress(rules, was, edit, changed, d, planned) && d !in changed
    ensures Progress(rules, was, edit, changed, d + 1, planned)
  {
    DaySkipped(was, edit, changed, d, planned);
  }

  /** One more day, planned if it changed. */
  method PlanNextDay(rules: Rules, was: seq<Visit>, edit: Edit, changed: set<nat>, d: nat, planned: seq<Visit>) returns (r: Result<seq<Visit>>)
    requires WellFormed(edit) && Honours(rules) && Progress(rules, was, edit, changed, d, planned)
    ensures r.Ok? ==> Progress(rules, was, edit, changed, d + 1, r.value)
    ensures r.Err? ==> r.error !in {BadPlace, LockedStop, BadDay, NothingChanged}
    ensures r.Err? ==> d in changed && DayRefusal(rules, was, edit, d) == Some(r.error)
  {
    if d !in changed {
      ProgressPast(rules, was, edit, changed, d, planned);
      return Ok(planned);
    }
    var day := PlanDay(rules, was, edit, d);
    if day.Err? {
      return Err(day.error);
    }
    ProgressMade(rules, was, edit, changed, d, planned, day.value);
    return Ok(planned + day.value);
  }

  method PlanDays(rules: Rules, was: seq<Visit>, edit: Edit, changed: set<nat>, ghost known: set<Candidate>) returns (r: Result<seq<Visit>>)
    requires WellFormed(edit) && Honours(rules) && R.Valid(was, known) && changed == Changed(was, edit)
    requires forall d | d in changed :: d < rules.days
    ensures r.Ok? ==> PlanSoFar(was, edit, changed, rules.days, r.value) && AllRouted(rules, was, edit, changed, r.value)
    ensures r.Ok? <==> forall d | d in changed :: DayRefusal(rules, was, edit, d) == None
    ensures r.Err? ==> r.error !in {BadPlace, LockedStop, BadDay, NothingChanged} && FirstRefusal(rules, was, edit, changed, r.error)
  {
    var planned := Untouched(was, changed);
    ProgressStarts(rules, was, edit, known);
    for d := 0 to rules.days
      invariant Progress(rules, was, edit, changed, d, planned)
    {
      var more := PlanNextDay(rules, was, edit, changed, d, planned);
      if more.Err? {
        return Err(more.error);
      }
      planned := more.value;
    }
    return Ok(planned);
  }

  // ----- what the traveler gets -----

  predicate RequestedOn(edit: Edit, c: Candidate, day: nat)
  {
    exists s :: s in edit.stops && s.candidate == c && s.day == day
  }

  ghost predicate PlacedOn(nodes: seq<Visit>, c: Candidate, day: nat)
  {
    exists v :: v in nodes && v.at.candidate == c && v.at.day == day
  }

  /** The plan holds exactly the requested places, each on its requested day. */
  lemma PlacedExactly(was: seq<Visit>, edit: Edit, days: nat, planned: seq<Visit>, c: Candidate, day: nat)
    requires WellFormed(edit) && PlanSoFar(was, edit, Changed(was, edit), days, planned)
    requires forall d | d in Changed(was, edit) :: d < days
    ensures PlacedOn(planned, c, day) <==> RequestedOn(edit, c, day)
  {
    if v :| v in planned && v.at.candidate == c && v.at.day == day {
      assert Accounted(was, edit, Changed(was, edit), days, v);
    }
    if s :| s in edit.stops && s.candidate == c && s.day == day {
      RequestIsPlaced(was, edit, days, planned, s);
    }
  }

  lemma RequestIsPlaced(was: seq<Visit>, edit: Edit, days: nat, planned: seq<Visit>, s: EditedStop)
    requires WellFormed(edit) && PlanSoFar(was, edit, Changed(was, edit), days, planned)
    requires (forall d | d in Changed(was, edit) :: d < days) && s in edit.stops
    ensures PlacedOn(planned, s.candidate, s.day)
  {
    if s.day in Changed(was, edit) {
      assert Places(planned, s.candidate);
      var v :| v in planned && v.at.candidate == s.candidate;
      assert Accounted(was, edit, Changed(was, edit), days, v);
      var t :| t in edit.stops && t.candidate == v.at.candidate && t.day == v.at.day;
      OneStopEach(edit, s, t);
    } else {
      assert Existing(s, was);
    }
  }

  /** On a day that may not be adjusted every stop keeps the requested times exactly. */
  lemma TimesAreExact(was: seq<Visit>, edit: Edit, days: nat, planned: seq<Visit>, v: Visit)
    requires WellFormed(edit) && PlanSoFar(was, edit, Changed(was, edit), days, planned)
    requires v in planned && v.at.day !in edit.adjustDays
    ensures AsRequested(v.at, edit)
  {
    assert Accounted(was, edit, Changed(was, edit), days, v);
    if v.at.day in Changed(was, edit) {
      var s :| s in edit.stops && Answers(was, edit, v, s);
      assert s == EditedStop(v.at.candidate, v.at.day, v.at.start, v.at.end);
    }
  }

  /** A locked stop that passed the check keeps its day, times and locks. */
  lemma LockedStopsStay(was: seq<Visit>, edit: Edit, days: nat, planned: seq<Visit>, known: set<Candidate>, v: Visit)
    requires WellFormed(edit) && R.Valid(was, known) && PlanSoFar(was, edit, Changed(was, edit), days, planned)
    requires forall d | d in Changed(was, edit) :: d < days
    requires v in was && R.Locked(v) && AsRequested(v.at, edit)
    ensures exists w :: w in planned && w == v.(at := v.at.(id := w.at.id))
  {
    if v.at.day !in Changed(was, edit) {
      assert v in planned;
    } else {
      var s := EditedStop(v.at.candidate, v.at.day, v.at.start, v.at.end);
      assert Places(planned, s.candidate);
      var w :| w in planned && w.at.candidate == s.candidate;
      LockedStopIs(was, edit, days, planned, known, v, s, w);
    }
  }

  lemma LockedStopIs(was: seq<Visit>, edit: Edit, days: nat, planned: seq<Visit>, known: set<Candidate>, v: Visit, s: EditedStop, w: Visit)
    requires WellFormed(edit) && R.Valid(was, known) && PlanSoFar(was, edit, Changed(was, edit), days, planned)
    requires v in was && R.Locked(v) && v.at.day in Changed(was, edit) && w in planned && w.at.candidate == v.at.candidate
    requires s in edit.stops && s == EditedStop(v.at.candidate, v.at.day, v.at.start, v.at.end)
    ensures w == v.(at := v.at.(id := w.at.id))
  {
    assert Accounted(was, edit, Changed(was, edit), days, w);
    var r :| r in edit.stops && r.candidate == w.at.candidate && r.day == w.at.day;
    OneStopEach(edit, s, r);
    var t :| t in edit.stops && Answers(was, edit, w, t);
    OneStopEach(edit, s, t);
    assert LockedBefore(was, t.candidate);
    R.OneVisit(was, known, LockOf(was, w.at.candidate), v);
  }

  /** Old wishlist entries and dropped stops, without what is placed. */
  function Wishlist(wished: set<Candidate>, was: seq<Visit>, planned: seq<Visit>): set<Candidate>
  {
    (wished - R.Candidates(planned)) + (R.Candidates(was) - R.Candidates(planned))
  }

  datatype EditProposal = EditProposal(changed: set<nat>, nodes: seq<Visit>, diff: Diff, wishlist: set<Candidate>)

  function Copies(planned: seq<Visit>, newId: Candidate -> nat): seq<Visit>
  {
    seq(|planned|, i requires 0 <= i < |planned| => R.Copied(planned[i], newId))
  }

  /** Whatever changes between the versions is on a changed day. */
  ghost predicate ChangeOn(changed: set<nat>, was: Version, now: Version, c: Candidate)
  {
    && (c in now && now[c].day !in changed ==> c in was && SameSlot(was[c], now[c]))
    && (c in was && was[c].day !in changed ==> c in now && SameSlot(was[c], now[c]))
  }

  ghost predicate SameSlot(a: Node, b: Node) { a.day == b.day && a.start == b.start && a.end == b.end }

  lemma CopiesIndexed(planned: seq<Visit>, newId: Candidate -> nat)
    requires AllApart(planned)
    ensures R.Indexes(ByCandidate(R.Rows(Copies(planned, newId))), Copies(planned, newId))
  {
    var copies := Copies(planned, newId);
    forall v, w | v in copies && w in copies && v.at.candidate == w.at.candidate ensures v == w {
      var i, j :| 0 <= i < |copies| && 0 <= j < |copies| && copies[i] == v && copies[j] == w;
      assert planned[i].at.candidate == planned[j].at.candidate;
    }
    R.VersionOf(copies);
  }

  lemma ChangesOnChangedDays(was: seq<Visit>, edit: Edit, days: nat, planned: seq<Visit>, newId: Candidate -> nat, known: set<Candidate>,
                             c: Candidate)
    requires R.Valid(was, known) && PlanSoFar(was, edit, Changed(was, edit), days, planned)
    ensures ChangeOn(Changed(was, edit), ByCandidate(R.Rows(was)), ByCandidate(R.Rows(Copies(planned, newId))), c)
  {
    R.OnePerCandidate(was, known);
    CopiesIndexed(planned, newId);
    ChangeBetween(Changed(was, edit), was, planned, newId, ByCandidate(R.Rows(was)), ByCandidate(R.Rows(Copies(planned, newId))), c);
  }

  lemma ChangeBetween(changed: set<nat>, was: seq<Visit>, planned: seq<Visit>, newId: Candidate -> nat, before: Version, after: Version, c: Candidate)
    requires R.Indexes(before, was) && R.Indexes(after, Copies(planned, newId))
    requires forall v | v in planned && v.at.day !in changed :: v in was
    requires forall v | v in was && v.at.day !in changed :: v in planned
    ensures ChangeOn(changed, before, after, c)
  {
    var copies := Copies(planned, newId);
    if c in after && after[c].day !in changed {
      var w :| w in copies && w.at.candidate == c;
      assert after[c] == w.at;
      var i :| 0 <= i < |copies| && copies[i] == w;
      assert planned[i] in planned;
    }
    if c in before && before[c].day !in changed {
      var v :| v in was && v.at.candidate == c;
      assert before[c] == v.at;
      var i :| 0 <= i < |planned| && planned[i] == v;
      assert copies[i] in copies && copies[i].at.candidate == c;
    }
  }

  // ----- the whole edit -----

  /** A locked stop the edit would move or remove. */
  predicate BreaksLock(was: seq<Visit>, edit: Edit)
  {
    exists v :: v in was && R.Locked(v) && !AsRequested(v.at, edit)
  }

  lemma BreaksLockIff(was: seq<Visit>, edit: Edit)
    ensures BreaksLock(was, edit) <==> exists v :: v in was && R.Locked(v) && forall s | s in edit.stops :: !Same(v, s)
  {
    forall v | v in was ensures AsRequested(v.at, edit) <==> exists s :: s in edit.stops && Same(v, s) {
      AsRequestedIff(v, edit);
    }
  }

  /** Everything an accepted edit guarantees. */
  ghost predicate Faithful(was: seq<Visit>, edit: Edit, wished: set<Candidate>, p: EditProposal)
  {
    && AllApart(p.nodes)
    && (forall c, day :: PlacedOn(p.nodes, c, day) <==> RequestedOn(edit, c, day))
    && (forall v | v in p.nodes && v.at.day !in edit.adjustDays :: AsRequested(v.at, edit))
    && (forall v | v in was && R.Locked(v) :: exists w :: w in p.nodes && w == v.(at := v.at.(id := w.at.id)))
    && (forall v, w | v in was && w in p.nodes && v.at.candidate == w.at.candidate :: w.fixed == v.fixed && w.lock == v.lock)
    && (forall w | w in p.nodes && w.at.candidate !in R.Candidates(was) :: !w.fixed && w.lock == None)
    && p.wishlist == wished + R.Candidates(was) - R.Candidates(p.nodes)
    && IsDiff(ByCandidate(R.Rows(was)), ByCandidate(R.Rows(p.nodes)), p.diff)
    && forall c :: ChangeOn(p.changed, ByCandidate(R.Rows(was)), ByCandidate(R.Rows(p.nodes)), c)
  }

  lemma CopyFacts(planned: seq<Visit>, newId: Candidate -> nat)
    ensures AllApart(planned) ==> AllApart(Copies(planned, newId))
    ensures forall c, day :: PlacedOn(Copies(planned, newId), c, day) <==> PlacedOn(planned, c, day)
    ensures forall v | v in planned :: R.Copied(v, newId) in Copies(planned, newId)
    ensures forall w | w in Copies(planned, newId) :: exists v :: v in planned && w == R.Copied(v, newId)
  {
    var copies := Copies(planned, newId);
    forall v | v in planned ensures R.Copied(v, newId) in copies {
      var i :| 0 <= i < |planned| && planned[i] == v;
      assert copies[i] == R.Copied(v, newId);
    }
    forall w | w in copies ensures exists v :: v in planned && w == R.Copied(v, newId) {
      var i :| 0 <= i < |copies| && copies[i] == w;
      assert planned[i] in planned;
    }
  }

  /** Every planned stop has the locks its place had. */
  lemma LocksCarried(was: seq<Visit>, edit: Edit, days: nat, planned: seq<Visit>, known: set<Candidate>, w: Visit)
    requires WellFormed(edit) && R.Valid(was, known) && PlanSoFar(was, edit, Changed(was, edit), days, planned) && w in planned
    ensures forall v | v in was && v.at.candidate == w.at.candidate :: w.fixed == v.fixed && w.lock == v.lock
    ensures w.at.candidate !in R.Candidates(was) ==> !w.fixed && w.lock == None
  {
    assert Accounted(was, edit, Changed(was, edit), days, w);
    forall v | v in was && v.at.candidate == w.at.candidate ensures w.fixed == v.fixed && w.lock == v.lock {
      R.OneVisit(was, known, LockOf(was, w.at.candidate), v);
      if w.at.day in Changed(was, edit) {
        var s :| s in edit.stops && Answers(was, edit, w, s);
      } else {
        R.OneVisit(was, known, w, v);
      }
    }
    if w.at.candidate !in R.Candidates(was) {
      assert w !in was;
      var s :| s in edit.stops && Answers(was, edit, w, s);
    }
  }

  lemma EditIsFaithful(was: seq<Visit>, edit: Edit, days: nat, planned: seq<Visit>, newId: Candidate -> nat, known: set<Candidate>,
                       wished: set<Candidate>, p: EditProposal)
    requires WellFormed(edit) && R.Valid(was, known) && PlanSoFar(was, edit, Changed(was, edit), days, planned)
    requires (forall d | d in Changed(was, edit) :: d < days) && !BreaksLock(was, edit)
    requires p.changed == Changed(was, edit) && p.nodes == Copies(planned, newId) && p.wishlist == Wishlist(wished, was, p.nodes)
    requires IsDiff(ByCandidate(R.Rows(was)), ByCandidate(R.Rows(p.nodes)), p.diff)
    ensures Faithful(was, edit, wished, p)
  {
    CopyFacts(planned, newId);
    forall c, day ensures PlacedOn(p.nodes, c, day) <==> RequestedOn(edit, c, day) {
      PlacedExactly(was, edit, days, planned, c, day);
    }
    forall w | w in p.nodes && w.at.day !in edit.adjustDays ensures AsRequested(w.at, edit) {
      var v :| v in planned && w == R.Copied(v, newId);
      TimesAreExact(was, edit, days, planned, v);
    }
    forall v | v in was && R.Locked(v) ensures exists w :: w in p.nodes && w == v.(at := v.at.(id := w.at.id)) {
      LockedStopsStay(was, edit, days, planned, known, v);
      var w :| w in planned && w == v.(at := v.at.(id := w.at.id));
      assert R.Copied(w, newId) in p.nodes;
    }
    forall w | w in p.nodes
      ensures forall v | v in was && v.at.candidate == w.at.candidate :: w.fixed == v.fixed && w.lock == v.lock
      ensures w.at.candidate !in R.Candidates(was) ==> !w.fixed && w.lock == None
    {
      var v :| v in planned && w == R.Copied(v, newId);
      LocksCarried(was, edit, days, planned, known, v);
    }
    forall c ensures ChangeOn(p.changed, ByCandidate(R.Rows(was)), ByCandidate(R.Rows(p.nodes)), c) {
      ChangesOnChangedDays(was, edit, days, planned, newId, known, c);
    }
  }

  /** The checks that come before any day is planned. */
  predicate Admissible(rules: Rules, was: seq<Visit>, edit: Edit)
  {
    && (forall s | s in edit.stops :: !rules.refuses(s))
    && !BreaksLock(was, edit)
    && (forall d | d in edit.adjustDays :: d < rules.days)
  }

  ghost predicate DaysAcceptable(rules: Rules, was: seq<Visit>, edit: Edit)
    requires WellFormed(edit)
  {
    forall d | d in Changed(was, edit) :: DayAcceptable(rules, was, edit, d)
  }

  lemma DaysAcceptableIff(rules: Rules, was: seq<Visit>, edit: Edit, changed: set<nat>)
    requires WellFormed(edit) && changed == Changed(was, edit)
    ensures (forall d | d in changed :: DayRefusal(rules, was, edit, d) == None) <==> DaysAcceptable(rules, was, edit)
  {
    forall d ensures DayRefusal(rules, was, edit, d) == None <==> DayAcceptable(rules, was, edit, d) {
      AcceptableIff(rules, was, edit, d);
    }
  }

  /** An edit is accepted exactly when every stop may be placed, no lock is broken, the days to adjust
      exist, something changes and every changed day is acceptable. It is then the requested plan, at
      the times its routes have; otherwise the first failing check is reported. */
  method ProposeEdit(rules: Rules, was: seq<Visit>, edit: Edit, wished: set<Candidate>, newId: Candidate -> nat, ghost known: set<Candidate>)
    returns (r: Result<EditProposal>)
    requires WellFormed(edit) && Honours(rules) && R.Valid(was, known) && forall v | v in was :: v.at.day < rules.days
    ensures r == Err(BadPlace) <==> exists s :: s in edit.stops && rules.refuses(s)
    ensures r == Err(LockedStop) <==> (forall s | s in edit.stops :: !rules.refuses(s)) && BreaksLock(was, edit)
    ensures r == Err(BadDay) <==> (
      && (forall s | s in edit.stops :: !rules.refuses(s)) && !BreaksLock(was, edit) && exists d :: d in edit.adjustDays && d >= rules.days)
    ensures r == Err(NothingChanged) <==> Admissible(rules, was, edit) && Changed(was, edit) == {}
    ensures r.Ok? <==> Admissible(rules, was, edit) && Changed(was, edit) != {} && DaysAcceptable(rules, was, edit)
    ensures r.Err? && r.error !in {BadPlace, LockedStop, BadDay, NothingChanged} ==> FirstRefusal(rules, was, edit, Changed(was, edit), r.error)
    ensures r.Ok? ==> r.value.changed == Changed(was, edit) && Faithful(was, edit, wished, r.value)
    ensures r.Ok? ==> AllRouted(rules, was, edit, Changed(was, edit), r.value.nodes)
  {
    if exists s :: s in edit.stops && rules.refuses(s) {
      return Err(BadPlace);
    }
    if BreaksLock(was, edit) {
      return Err(LockedStop);
    }
    if exists d :: d in edit.adjustDays && d >= rules.days {
      return Err(BadDay);
    }
    var changed := ChangedDays(was, edit);
    if changed == {} {
      return Err(NothingChanged);
    }
    r := Build(rules, was, edit, changed, wished, newId, known);
  }

  method Build(rules: Rules, was: seq<Visit>, edit: Edit, changed: set<nat>, wished: set<Candidate>, newId: Candidate -> nat,
               ghost known: set<Candidate>)
    returns (r: Result<EditProposal>)
    requires WellFormed(edit) && Honours(rules) && R.Valid(was, known) && changed == Changed(was, edit)
    requires (forall d | d in changed :: d < rules.days) && !BreaksLock(was, edit)
    ensures r.Err? ==> r.error !in {BadPlace, LockedStop, BadDay, NothingChanged} && FirstRefusal(rules, was, edit, changed, r.error)
    ensures r.Ok? <==> DaysAcceptable(rules, was, edit)
    ensures r.Ok? ==> r.value.changed == changed && Faithful(was, edit, wished, r.value)
    ensures r.Ok? ==> AllRouted(rules, was, edit, changed, r.value.nodes)
  {
    DaysAcceptableIff(rules, was, edit, changed);
    var planned := PlanDays(rules, was, edit, changed, known);
    if planned.Err? {
      return Err(planned.error);
    }
    var nodes := Copies(planned.value, newId);
    CopiesAsRouted(rules, was, edit, changed, planned.value, newId);
    var diff := ComputeDiff(R.Rows(was), R.Rows(nodes));
    var p := EditProposal(changed, nodes, diff, Wishlist(wished, was, nodes));
    EditIsFaithful(was, edit, rules.days, planned.value, newId, known, wished, p);
    r := Ok(p);
  }

  lemma CopiesAsRouted(rules: Rules, was: seq<Visit>, edit: Edit, changed: set<nat>, planned: seq<Visit>, newId: Candidate -> nat)
    requires WellFormed(edit) && AllRouted(rules, was, edit, changed, planned)
    ensures AllRouted(rules, was, edit, changed, Copies(planned, newId))
  {
    CopyFacts(planned, newId);
    forall w | w in Copies(planned, newId) && w.at.day in changed ensures AsRouted(rules, was, edit, w) {
      var v :| v in planned && w == R.Copied(v, newId);
      assert AsRouted(rules, was, edit, v);
    }
  }
}
