/** What a rescue proposal keeps and what it may change (syncinerary/agents/rescue.py). */
module RescueProposal {
  import opened Schedule
  import opened Sums
  import opened Lists
  import opened ItineraryDiff
  import Sorting

  datatype Trigger = ReservationCancelled | TransitDelay | Overslept | PlaceClosed | Weather | Other | UserRequest

  datatype Lock = Reservation | PaidTicket | Flight | CheckIn | OtherLock

  /** A stored stop; times are minutes past midnight. */
  datatype Visit = Visit(at: Node, fixed: bool, lock: Option<Lock>)

  datatype Payload = Payload(nodeId: Option<nat>, day: Option<nat>, clock: Option<nat>, delay: int, nodeIds: set<nat>)

  datatype RouteStop = RouteStop(candidate: Candidate, start: nat, end: nat)

  datatype Error = NothingAffected | SeveralDays | NoTimeLeft

  datatype Result<T> = Ok(value: T) | Err(error: Error)

  const DAY_START := 8 * 60
  const DAY_END := 21 * 60
  const ALTERNATIVE_LIMIT := 8

  /** What the candidate table says, and the unseen suitability checks (city, distance, opening
      hours, diet, lodging) as the set of candidates that pass them. */
  datatype Catalog = Catalog(known: seq<Candidate>, weatherDependent: set<Candidate>, suitable: set<Candidate>)

  /** What the route solver is asked for. */
  datatype Request = Request(affected: seq<Visit>, day: nat, cutoff: nat, prefix: seq<Visit>, suffix: seq<Visit>,
                             unavailable: set<Candidate>, pool: set<Candidate>, required: set<Candidate>)

  predicate Locked(v: Visit) { v.fixed || (v.lock.Some? && v.lock.value != OtherLock) }

  /** A fixed stop is locked, and one with a reservation, a paid ticket, a flight or a check-in. */
  lemma LockedMeans(v: Visit)
    ensures Locked(v) <==> v.fixed || v.lock in {Some(Reservation), Some(PaidTicket), Some(Flight), Some(CheckIn)}
  {
  }

  predicate Disrupted(trigger: Trigger, p: Payload, catalog: Catalog, v: Visit)
  {
    match trigger
    case ReservationCancelled | TransitDelay | PlaceClosed => p.nodeId == Some(v.at.id)
    case Overslept => p.day == Some(v.at.day) && p.clock.Some? && v.at.start < p.clock.value
    case UserRequest => p.day == Some(v.at.day)
    case Weather => p.day == Some(v.at.day) && v.at.candidate in catalog.known && v.at.candidate in catalog.weatherDependent
    case Other => v.at.id in p.nodeIds
  }

  predicate EarlierVisit(a: Visit, b: Visit)
  {
    if a.at.day != b.at.day then a.at.day < b.at.day
    else if a.at.start != b.at.start then a.at.start < b.at.start
    else a.at.id <= b.at.id
  }

  function SelectAffected(trigger: Trigger, p: Payload, catalog: Catalog, nodes: seq<Visit>): seq<Visit>
  {
    Sorting.Sort(Where(nodes, v => Disrupted(trigger, p, catalog, v)), EarlierVisit)
  }

  function EarliestStart(vs: seq<Visit>): nat
    requires vs != []
  {
    if |vs| == 1 then vs[0].at.start else Min(vs[0].at.start, EarliestStart(vs[1..]))
  }

  function Cutoff(trigger: Trigger, p: Payload, affected: seq<Visit>): nat
    requires affected != []
  {
    match trigger
    case Overslept => if p.clock.Some? then p.clock.value else EarliestStart(affected)
    case TransitDelay =>
      var minute := EarliestStart(affected) + Max(p.delay, 0);
      Min(23, minute / 60) * 60 + minute % 60
    case Weather | UserRequest => DAY_START
    case _ => EarliestStart(affected)
  }

  /** These triggers make the disrupted places unusable. */
  predicate Closes(trigger: Trigger) { trigger in {ReservationCancelled, PlaceClosed, Weather, Other} }

  function Candidates(vs: seq<Visit>): set<Candidate>
  {
    set v | v in vs :: v.at.candidate
  }

  /** Existing places worth offering, then places the search just found, best first. */
  function Alternatives(catalog: Catalog, scheduled: set<Candidate>, unavailable: set<Candidate>, discovered: seq<Candidate>,
                        better: (Candidate, Candidate) -> bool): seq<Candidate>
  {
    var existing := Where(catalog.known, c => c !in scheduled && c !in unavailable && c in catalog.suitable);
    var unseen := Where(discovered, c => c !in catalog.known);
    var ranked := Sorting.Sort(existing + unseen, better);
    if |ranked| <= ALTERNATIVE_LIMIT then ranked else ranked[..ALTERNATIVE_LIMIT]
  }

  function Prefix(nodes: seq<Visit>, affected: seq<Visit>, day: nat, cutoff: nat): seq<Visit>
  {
    var ids := set v | v in affected :: v.at.id;
    Where(nodes, (v: Visit) => v.at.day == day && v.at.end <= cutoff && v.at.id !in ids)
  }

  function Suffix(nodes: seq<Visit>, prefix: seq<Visit>, day: nat): seq<Visit>
  {
    Where(nodes, (v: Visit) => v.at.day == day && v !in prefix)
  }

  /** The rest of the day's places that are still usable. */
  function Usable(suffix: seq<Visit>, unavailable: set<Candidate>, catalog: Catalog): set<Candidate>
  {
    set v | v in suffix && v.at.candidate !in unavailable && v.at.candidate in catalog.known :: v.at.candidate
  }

  function RequestFor(affected: seq<Visit>, day: nat, cutoff: nat, unavailable: set<Candidate>, catalog: Catalog,
                      nodes: seq<Visit>, alternatives: seq<Candidate>): Request
  {
    var prefix := Prefix(nodes, affected, day, cutoff);
    var suffix := Suffix(nodes, prefix, day);
    var usable := Usable(suffix, unavailable, catalog);
    var required := set v | v in suffix && v.at.candidate in usable && Locked(v) :: v.at.candidate;
    Request(affected, day, cutoff, prefix, suffix, unavailable, usable + (set c | c in alternatives), required)
  }

  function Prepare(trigger: Trigger, p: Payload, catalog: Catalog, nodes: seq<Visit>, discovered: seq<Candidate>,
                   better: (Candidate, Candidate) -> bool): Result<Request>
  {
    var affected := SelectAffected(trigger, p, catalog, nodes);
    if affected == [] then Err(NothingAffected)
    else if exists v :: v in affected && v.at.day != affected[0].at.day then Err(SeveralDays)
    else
      var cutoff := Cutoff(trigger, p, affected);
      if cutoff >= DAY_END then Err(NoTimeLeft)
      else
        var unavailable := if Closes(trigger) then Candidates(affected) else {};
        var alternatives := Alternatives(catalog, Candidates(nodes), unavailable, discovered, better);
        Ok(RequestFor(affected, affected[0].at.day, cutoff, unavailable, catalog, nodes, alternatives))
  }

  function LockOf(suffix: seq<Visit>, required: set<Candidate>, c: Candidate): Option<Lock>
  {
    if suffix == [] then None
    else
      var last := suffix[|suffix| - 1];
      if last.at.candidate == c && c in required then last.lock else LockOf(suffix[..|suffix| - 1], required, c)
  }

  /** A kept stop is copied under a new id; nothing else about it changes. */
  function Copied(v: Visit, newId: Candidate -> nat): Visit
  {
    v.(at := v.at.(id := newId(v.at.candidate)))
  }

  function Placed(r: Request, stop: RouteStop, newId: Candidate -> nat): Visit
  {
    Visit(Node(newId(stop.candidate), stop.candidate, r.day, stop.start, stop.end),
          stop.candidate in r.required, LockOf(r.suffix, r.required, stop.candidate))
  }

  function Kept(r: Request, nodes: seq<Visit>): seq<Visit>
  {
    Where(nodes, (v: Visit) => v.at.day != r.day || v in r.prefix)
  }

  function Proposed(r: Request, nodes: seq<Visit>, stops: seq<RouteStop>, newId: Candidate -> nat): seq<Visit>
  {
    var kept := Kept(r, nodes);
    seq(|kept|, i requires 0 <= i < |kept| => Copied(kept[i], newId))
    + seq(|stops|, i requires 0 <= i < |stops| => Placed(r, stops[i], newId))
  }

  // ----- what a version always satisfies -----

  predicate Apart(a: Visit, b: Visit)
  {
    a.at.day != b.at.day || a.at.end <= b.at.start || b.at.end <= a.at.start
  }

  /** One stop per candidate, no two at once, all of them known places. */
  ghost predicate Valid(nodes: seq<Visit>, known: set<Candidate>)
  {
    && Distinct(nodes)
    && (forall v, w | v in nodes && w in nodes && v != w ::
          v.at.candidate != w.at.candidate && v.at.id != w.at.id && Apart(v, w))
    && (forall v | v in nodes :: v.at.start < v.at.end && v.at.candidate in known)
  }

  /** All that is asked of the route solver: distinct pool candidates at disjoint times inside the
      part of the day that is left. */
  ghost predicate RouteMeets(r: Request, stops: seq<RouteStop>)
  {
    && (forall i, j | 0 <= i < j < |stops| :: stops[i].candidate != stops[j].candidate
          && (stops[i].end <= stops[j].start || stops[j].end <= stops[i].start))
    && (forall i | 0 <= i < |stops| ::
          stops[i].candidate in r.pool && r.cutoff <= stops[i].start < stops[i].end <= DAY_END)
  }

  ghost predicate Injective(newId: Candidate -> nat)
  {
    forall c, e | newId(c) == newId(e) :: c == e
  }

  function Known(catalog: Catalog): set<Candidate> { set c | c in catalog.known }

  /** Everything the proposal's proofs need from a request, apart from how it was made. */
  ghost predicate RequestFits(r: Request, nodes: seq<Visit>)
  {
    && (forall v :: v in r.prefix <==> v in nodes && v.at.day == r.day && v.at.end <= r.cutoff && v !in r.affected)
    && (forall v :: v in r.suffix <==> v in nodes && v.at.day == r.day && v !in r.prefix)
    && (forall v | v in r.affected :: v in nodes && v.at.day == r.day)
    && (forall v | v in nodes && v.at.candidate in r.pool :: v in r.suffix && v.at.candidate !in r.unavailable)
    && (forall c :: c in r.required <==> exists v :: v in r.suffix && v.at.candidate == c && c !in r.unavailable && Locked(v))
    && r.required <= r.pool && r.affected != [] && r.cutoff < DAY_END
  }

  lemma SortMembers(vs: seq<Visit>)
    ensures forall v :: v in Sorting.Sort(vs, EarlierVisit) <==> v in vs
  {
    Sorting.SortKeeps(vs, EarlierVisit);
    Sorting.SameMembers(Sorting.Sort(vs, EarlierVisit), vs);
  }

  lemma AlternativesAreNew(catalog: Catalog, scheduled: set<Candidate>, unavailable: set<Candidate>,
                           discovered: seq<Candidate>, better: (Candidate, Candidate) -> bool, c: Candidate)
    requires scheduled <= Known(catalog) && c in Alternatives(catalog, scheduled, unavailable, discovered, better)
    ensures c !in scheduled
  {
    var existing := Where(catalog.known, x => x !in scheduled && x !in unavailable && x in catalog.suitable);
    var unseen := Where(discovered, x => x !in catalog.known);
    Sorting.SortKeeps(existing + unseen, better);
    Sorting.SameMembers(Sorting.Sort(existing + unseen, better), existing + unseen);
    assert c in existing + unseen;
  }

  lemma PrefixAndSuffix(nodes: seq<Visit>, affected: seq<Visit>, day: nat, cutoff: nat, known: set<Candidate>)
    requires Valid(nodes, known) && forall v | v in affected :: v in nodes
    ensures var prefix := Prefix(nodes, affected, day, cutoff);
      && (forall v :: v in prefix <==> v in nodes && v.at.day == day && v.at.end <= cutoff && v !in affected)
      && (forall v :: v in Suffix(nodes, prefix, day) <==> v in nodes && v.at.day == day && v !in prefix)
  {
  }

  lemma PoolOnlyFromSuffix(nodes: seq<Visit>, suffix: seq<Visit>, unavailable: set<Candidate>, catalog: Catalog, v: Visit)
    requires Valid(nodes, Known(catalog)) && v in nodes && v.at.candidate in Usable(suffix, unavailable, catalog)
    requires forall w | w in suffix :: w in nodes
    ensures v in suffix && v.at.candidate !in unavailable
  {
    var w :| w in suffix && w.at.candidate !in unavailable && w.at.candidate == v.at.candidate;
    assert w == v;
  }

  lemma RequestForFits(affected: seq<Visit>, day: nat, cutoff: nat, unavailable: set<Candidate>, catalog: Catalog,
                       nodes: seq<Visit>, alternatives: seq<Candidate>)
    requires Valid(nodes, Known(catalog)) && affected != [] && cutoff < DAY_END
    requires forall v | v in affected :: v in nodes && v.at.day == day
    requires forall c | c in alternatives :: c !in Candidates(nodes)
    ensures RequestFits(RequestFor(affected, day, cutoff, unavailable, catalog, nodes, alternatives), nodes)
  {
    var r := RequestFor(affected, day, cutoff, unavailable, catalog, nodes, alternatives);
    PrefixAndSuffix(nodes, affected, day, cutoff, Known(catalog));
    forall v | v in nodes && v.at.candidate in r.pool ensures v in r.suffix && v.at.candidate !in unavailable {
      assert v.at.candidate in Candidates(nodes);
      PoolOnlyFromSuffix(nodes, r.suffix, unavailable, catalog, v);
    }
  }

  lemma PrepareFits(trigger: Trigger, p: Payload, catalog: Catalog, nodes: seq<Visit>, discovered: seq<Candidate>,
                    better: (Candidate, Candidate) -> bool)
    requires Valid(nodes, Known(catalog))
    ensures var r := Prepare(trigger, p, catalog, nodes, discovered, better); r.Ok? ==> RequestFits(r.value, nodes)
  {
    var result := Prepare(trigger, p, catalog, nodes, discovered, better);
    if result.Ok? {
      var r := result.value;
      SortMembers(Where(nodes, v => Disrupted(trigger, p, catalog, v)));
      var alternatives := Alternatives(catalog, Candidates(nodes), r.unavailable, discovered, better);
      forall c | c in alternatives ensures c !in Candidates(nodes) {
        AlternativesAreNew(catalog, Candidates(nodes), r.unavailable, discovered, better, c);
      }
      RequestForFits(r.affected, r.day, r.cutoff, r.unavailable, catalog, nodes, alternatives);
    }
  }

  // ----- the proposed version -----

  lemma {:induction false} LockOfFound(suffix: seq<Visit>, required: set<Candidate>, v: Visit)
    requires v in suffix && v.at.candidate in required
    requires forall w | w in suffix && w.at.candidate == v.at.candidate :: w == v
    ensures LockOf(suffix, required, v.at.candidate) == v.lock
  {
    var last, rest := suffix[|suffix| - 1], suffix[..|suffix| - 1];
    assert suffix == rest + [last];
    if last.at.candidate != v.at.candidate {
      LockOfFound(rest, required, v);
    }
  }

  /** Where each proposed stop comes from. */
  lemma ProposedMembers(r: Request, nodes: seq<Visit>, stops: seq<RouteStop>, newId: Candidate -> nat)
    ensures forall v | v in Kept(r, nodes) :: Copied(v, newId) in Proposed(r, nodes, stops, newId)
    ensures forall s | s in stops :: Placed(r, s, newId) in Proposed(r, nodes, stops, newId)
    ensures forall x | x in Proposed(r, nodes, stops, newId) ::
      (exists v :: v in Kept(r, nodes) && x == Copied(v, newId)) || exists s :: s in stops && x == Placed(r, s, newId)
  {
    var kept, proposed := Kept(r, nodes), Proposed(r, nodes, stops, newId);
    forall v | v in kept ensures Copied(v, newId) in proposed {
      var i :| 0 <= i < |kept| && kept[i] == v;
      assert proposed[i] == Copied(v, newId);
    }
    forall s | s in stops ensures Placed(r, s, newId) in proposed {
      var i :| 0 <= i < |stops| && stops[i] == s;
      assert proposed[|kept| + i] == Placed(r, s, newId);
    }
    forall x | x in proposed
      ensures (exists v :: v in kept && x == Copied(v, newId)) || exists s :: s in stops && x == Placed(r, s, newId)
    {
      var i :| 0 <= i < |proposed| && proposed[i] == x;
      if i < |kept| {
        assert kept[i] in kept;
      } else {
        assert stops[i - |kept|] in stops;
      }
    }
  }

  lemma KeptAndPlacedDiffer(r: Request, nodes: seq<Visit>, stops: seq<RouteStop>, newId: Candidate -> nat, v: Visit, s: RouteStop)
    requires RequestFits(r, nodes) && RouteMeets(r, stops) && v in Kept(r, nodes) && s in stops
    ensures v.at.candidate != s.candidate && Apart(Copied(v, newId), Placed(r, s, newId))
  {
  }

  lemma PairApart(r: Request, nodes: seq<Visit>, stops: seq<RouteStop>, newId: Candidate -> nat, known: set<Candidate>, i: nat, j: nat)
    requires Valid(nodes, known) && RequestFits(r, nodes) && RouteMeets(r, stops)
    requires i < j < |Proposed(r, nodes, stops, newId)|
    ensures var x, y := Proposed(r, nodes, stops, newId)[i], Proposed(r, nodes, stops, newId)[j];
      x.at.candidate != y.at.candidate && Apart(x, y)
  {
    var kept := Kept(r, nodes);
    WhereDistinct(nodes, (v: Visit) => v.at.day != r.day || v in r.prefix);
    if j < |kept| {
      assert kept[i] in kept && kept[j] in kept && kept[i] != kept[j];
    } else if i < |kept| {
      assert kept[i] in kept && stops[j - |kept|] in stops;
      KeptAndPlacedDiffer(r, nodes, stops, newId, kept[i], stops[j - |kept|]);
    } else {
      assert stops[i - |kept|].candidate != stops[j - |kept|].candidate;
    }
  }

  lemma OneApart(r: Request, nodes: seq<Visit>, stops: seq<RouteStop>, newId: Candidate -> nat, known: set<Candidate>, x: Visit)
    requires Valid(nodes, known) && RouteMeets(r, stops) && x in Proposed(r, nodes, stops, newId)
    ensures x.at.start < x.at.end && x.at.candidate in known + r.pool && x.at.id == newId(x.at.candidate)
  {
    ProposedMembers(r, nodes, stops, newId);
  }

  lemma ValidIfPairwise(nodes: seq<Visit>, known: set<Candidate>)
    requires forall i, j | 0 <= i < j < |nodes| :: (
      nodes[i].at.candidate != nodes[j].at.candidate && nodes[i].at.id != nodes[j].at.id && Apart(nodes[i], nodes[j]))
    requires forall v | v in nodes :: v.at.start < v.at.end && v.at.candidate in known
    ensures Valid(nodes, known)
  {
    forall v, w | v in nodes && w in nodes && v != w
      ensures v.at.candidate != w.at.candidate && v.at.id != w.at.id && Apart(v, w)
    {
      var i, j :| 0 <= i < |nodes| && 0 <= j < |nodes| && nodes[i] == v && nodes[j] == w;
      assert i != j;
    }
  }

  /** Replanning keeps a version well-formed: no candidate twice, no two stops at once. */
  lemma ProposalIsValid(r: Request, nodes: seq<Visit>, stops: seq<RouteStop>, newId: Candidate -> nat, known: set<Candidate>)
    requires Valid(nodes, known) && RequestFits(r, nodes) && RouteMeets(r, stops) && Injective(newId)
    ensures Valid(Proposed(r, nodes, stops, newId), known + r.pool)
  {
    var proposed := Proposed(r, nodes, stops, newId);
    forall x | x in proposed
      ensures x.at.start < x.at.end && x.at.candidate in known + r.pool && x.at.id == newId(x.at.candidate)
    {
      OneApart(r, nodes, stops, newId, known, x);
    }
    forall i: nat, j: nat | i < j < |proposed|
      ensures proposed[i].at.candidate != proposed[j].at.candidate && Apart(proposed[i], proposed[j])
        && proposed[i].at.id != proposed[j].at.id
    {
      assert proposed[i] in proposed && proposed[j] in proposed;
      PairApart(r, nodes, stops, newId, known, i, j);
    }
    ValidIfPairwise(proposed, known + r.pool);
  }

  /** The other days and the finished part of this one reappear unchanged; everything else in the
      proposal lies on the affected day, between the cutoff and the end of the day. */
  ghost predicate KeepsTheRest(r: Request, nodes: seq<Visit>, proposed: seq<Visit>, newId: Candidate -> nat)
  {
    && (forall v | v in nodes && (v.at.day != r.day || (v.at.end <= r.cutoff && v !in r.affected)) :: Copied(v, newId) in proposed)
    && (forall x | x in proposed :: (
          (x.at.day == r.day && r.cutoff <= x.at.start && x.at.end <= DAY_END && x.at.candidate in r.pool)
          || exists v :: v in nodes && v !in r.suffix && x == Copied(v, newId)))
  }

  lemma UntouchedStopsStay(r: Request, nodes: seq<Visit>, stops: seq<RouteStop>, newId: Candidate -> nat)
    requires RequestFits(r, nodes) && RouteMeets(r, stops)
    ensures KeepsTheRest(r, nodes, Proposed(r, nodes, stops, newId), newId)
  {
    ProposedMembers(r, nodes, stops, newId);
    forall v | v in nodes && (v.at.day != r.day || (v.at.end <= r.cutoff && v !in r.affected))
      ensures Copied(v, newId) in Proposed(r, nodes, stops, newId)
    {
      assert v in Kept(r, nodes);
    }
  }

  /** A place the disruption closed is nowhere in the proposal. */
  lemma ClosedPlacesAreGone(r: Request, nodes: seq<Visit>, stops: seq<RouteStop>, newId: Candidate -> nat, known: set<Candidate>)
    requires Valid(nodes, known) && RequestFits(r, nodes) && RouteMeets(r, stops)
    requires r.unavailable <= Candidates(r.affected)
    ensures forall x | x in Proposed(r, nodes, stops, newId) :: x.at.candidate !in r.unavailable
  {
    ProposedMembers(r, nodes, stops, newId);
    forall a, x | a in r.affected && x in Proposed(r, nodes, stops, newId) && a.at.candidate in r.unavailable
      ensures x.at.candidate != a.at.candidate
    {
      assert a in nodes && a !in Kept(r, nodes) && a.at.candidate !in r.pool;
      if v :| v in Kept(r, nodes) && x == Copied(v, newId) {
        assert v != a;
      }
    }
  }

  /** A locked stop that is proposed again, at whatever time, is still locked for the same reason. */
  lemma LocksSurvive(r: Request, nodes: seq<Visit>, stops: seq<RouteStop>, newId: Candidate -> nat, known: set<Candidate>,
                     v: Visit, x: Visit)
    requires Valid(nodes, known) && RequestFits(r, nodes) && RouteMeets(r, stops)
    requires v in nodes && x in Proposed(r, nodes, stops, newId) && x.at.candidate == v.at.candidate
    ensures Locked(v) ==> Locked(x) && x.lock == v.lock
    ensures v in r.suffix && !Locked(v) ==> !x.fixed && x.lock == None
  {
    ProposedMembers(r, nodes, stops, newId);
    if s :| s in stops && x == Placed(r, s, newId) {
      PlacedFromPool(r, stops, s);
      LockOfPlaced(r, nodes, known, v);
    } else {
      var w :| w in Kept(r, nodes) && x == Copied(w, newId);
      OneVisit(nodes, known, v, w);
    }
  }

  lemma PlacedFromPool(r: Request, stops: seq<RouteStop>, s: RouteStop)
    requires RouteMeets(r, stops) && s in stops
    ensures s.candidate in r.pool
  {
  }

  lemma OneVisit(nodes: seq<Visit>, known: set<Candidate>, v: Visit, w: Visit)
    requires Valid(nodes, known) && v in nodes && w in nodes && v.at.candidate == w.at.candidate
    ensures v == w
  {
  }

  lemma LockOfPlaced(r: Request, nodes: seq<Visit>, known: set<Candidate>, v: Visit)
    requires Valid(nodes, known) && RequestFits(r, nodes) && v in nodes && v.at.candidate in r.pool
    ensures v.at.candidate in r.required <==> Locked(v)
    ensures LockOf(r.suffix, r.required, v.at.candidate) == if Locked(v) then v.lock else None
  {
    assert v in r.suffix;
    if Locked(v) {
      LockOfFound(r.suffix, r.required, v);
    } else {
      NoLock(r.suffix, r.required, v.at.candidate);
    }
  }

  lemma {:induction false} NoLock(suffix: seq<Visit>, required: set<Candidate>, c: Candidate)
    requires c !in required
    ensures LockOf(suffix, required, c) == None
  {
    if suffix == [] {
    } else {
      NoLock(suffix[..|suffix| - 1], required, c);
    }
  }

  // ----- the diff of a proposal -----

  function Rows(vs: seq<Visit>): seq<Node>
  {
    seq(|vs|, i requires 0 <= i < |vs| => vs[i].at)
  }

  ghost predicate Indexes(version: Version, nodes: seq<Visit>)
  {
    && (forall v | v in nodes :: v.at.candidate in version && version[v.at.candidate] == v.at)
    && (forall c | c in version :: exists v :: v in nodes && v.at.candidate == c)
  }

  lemma OnePerCandidate(nodes: seq<Visit>, known: set<Candidate>)
    requires Valid(nodes, known)
    ensures Indexes(ByCandidate(Rows(nodes)), nodes)
  {
    VersionOf(nodes);
  }

  lemma VersionOf(nodes: seq<Visit>)
    requires forall v, w | v in nodes && w in nodes && v.at.candidate == w.at.candidate :: v == w
    ensures Indexes(ByCandidate(Rows(nodes)), nodes)
  {
    var rows, version := Rows(nodes), ByCandidate(Rows(nodes));
    forall c | c in version ensures exists v :: v in nodes && v.at == version[c] && v.at.candidate == c {
      var i :| 0 <= i < |rows| && rows[i] == version[c];
      assert nodes[i] in nodes;
    }
    forall v | v in nodes ensures v.at.candidate in version {
      var i :| 0 <= i < |nodes| && nodes[i] == v;
      assert rows[i] in rows;
    }
  }

  /** A change to candidate `c`, if there is one, is on the affected day and after the cutoff. */
  ghost predicate ChangeInDay(r: Request, was: Version, now: Version, c: Candidate)
  {
    && c !in Moved(was, now)
    && (c in Added(was, now) ==> now[c].day == r.day && r.cutoff <= now[c].start && now[c].end <= DAY_END)
    && (c in Removed(was, now) ==> was[c].day == r.day && exists v :: v in r.suffix && v.at == was[c])
    && (c in Retimed(was, now) ==> was[c].day == r.day && r.cutoff <= now[c].start && exists v :: v in r.suffix && v.at == was[c])
  }

  lemma ChangesStayInDay(r: Request, nodes: seq<Visit>, stops: seq<RouteStop>, newId: Candidate -> nat, known: set<Candidate>, c: Candidate)
    requires Valid(nodes, known) && RequestFits(r, nodes) && RouteMeets(r, stops) && Injective(newId)
    ensures ChangeInDay(r, ByCandidate(Rows(nodes)), ByCandidate(Rows(Proposed(r, nodes, stops, newId))), c)
  {
    var proposed := Proposed(r, nodes, stops, newId);
    OnePerCandidate(nodes, known);
    ProposalIsValid(r, nodes, stops, newId, known);
    OnePerCandidate(proposed, known + r.pool);
    UntouchedStopsStay(r, nodes, stops, newId);
    ChangesOf(r, nodes, proposed, newId, ByCandidate(Rows(nodes)), ByCandidate(Rows(proposed)), c);
  }

  lemma KeptIsUnchanged(r: Request, nodes: seq<Visit>, proposed: seq<Visit>, newId: Candidate -> nat, was: Version, now: Version, v: Visit)
    requires RequestFits(r, nodes) && KeepsTheRest(r, nodes, proposed, newId)
    requires Indexes(was, nodes) && Indexes(now, proposed) && v in nodes && v !in r.suffix
    ensures ChangeInDay(r, was, now, v.at.candidate)
  {
    var x := Copied(v, newId);
    assert x in proposed;
    assert now[x.at.candidate] == x.at && was[v.at.candidate] == v.at;
  }

  lemma SuffixStaysInDay(r: Request, nodes: seq<Visit>, proposed: seq<Visit>, newId: Candidate -> nat, was: Version, now: Version, v: Visit)
    requires KeepsTheRest(r, nodes, proposed, newId) && Indexes(was, nodes) && Indexes(now, proposed)
    requires v in nodes && v in r.suffix && v.at.day == r.day
    ensures ChangeInDay(r, was, now, v.at.candidate)
  {
    var c := v.at.candidate;
    assert was[c] == v.at;
    if c in now {
      var x :| x in proposed && x.at.candidate == c;
      assert now[c] == x.at;
      if w :| w in nodes && w !in r.suffix && x == Copied(w, newId) {
        assert was[w.at.candidate] == w.at;
      }
    }
  }

  lemma AddedInDay(r: Request, nodes: seq<Visit>, proposed: seq<Visit>, newId: Candidate -> nat, was: Version, now: Version, c: Candidate)
    requires KeepsTheRest(r, nodes, proposed, newId) && Indexes(was, nodes) && Indexes(now, proposed) && c !in was
    ensures ChangeInDay(r, was, now, c)
  {
    if c in now {
      var x :| x in proposed && x.at.candidate == c;
      assert now[c] == x.at;
      if w :| w in nodes && w !in r.suffix && x == Copied(w, newId) {
        assert false;
      }
    }
  }

  lemma ChangesOf(r: Request, nodes: seq<Visit>, proposed: seq<Visit>, newId: Candidate -> nat, was: Version, now: Version, c: Candidate)
    requires RequestFits(r, nodes) && KeepsTheRest(r, nodes, proposed, newId) && Indexes(was, nodes) && Indexes(now, proposed)
    ensures ChangeInDay(r, was, now, c)
  {
    if c !in was {
      AddedInDay(r, nodes, proposed, newId, was, now, c);
    } else {
      var v :| v in nodes && v.at.candidate == c;
      if v in r.suffix {
        SuffixStaysInDay(r, nodes, proposed, newId, was, now, v);
      } else {
        KeptIsUnchanged(r, nodes, proposed, newId, was, now, v);
      }
    }
  }

  /** The diff a traveler is shown mentions the affected day only, moves nothing across days, and
      touches nothing that was finished. */
  lemma DiffStaysInDay(r: Request, nodes: seq<Visit>, stops: seq<RouteStop>, newId: Candidate -> nat, known: set<Candidate>, d: Diff)
    requires Valid(nodes, known) && RequestFits(r, nodes) && RouteMeets(r, stops) && Injective(newId)
    requires IsDiff(ByCandidate(Rows(nodes)), ByCandidate(Rows(Proposed(r, nodes, stops, newId))), d)
    ensures d.moved == []
    ensures forall s | s in d.added :: s.day == r.day && r.cutoff <= s.start && s.end <= DAY_END
    ensures forall s | s in d.removed :: s.day == r.day
    ensures forall t | t in d.timeChanged :: t.day == r.day && r.cutoff <= t.newStart
  {
    var was, now := ByCandidate(Rows(nodes)), ByCandidate(Rows(Proposed(r, nodes, stops, newId)));
    forall c ensures ChangeInDay(r, was, now, c) {
      ChangesStayInDay(r, nodes, stops, newId, known, c);
    }
    DiffOfChanges(r, was, now, d);
  }

  lemma DiffOfChanges(r: Request, was: Version, now: Version, d: Diff)
    requires IsDiff(was, now, d) && forall c :: ChangeInDay(r, was, now, c)
    ensures d.moved == []
    ensures forall s | s in d.added :: s.day == r.day && r.cutoff <= s.start && s.end <= DAY_END
    ensures forall s | s in d.removed :: s.day == r.day
    ensures forall t | t in d.timeChanged :: t.day == r.day && r.cutoff <= t.newStart
  {
    assert Moved(was, now) == {} by {
      forall c ensures c !in Moved(was, now) { assert ChangeInDay(r, was, now, c); }
    }
    ListsMembers(d.moved, Moved(was, now), c => MoveOf(was, now, c));
    forall s | s in d.added ensures s.day == r.day && r.cutoff <= s.start && s.end <= DAY_END {
      DiffMembers(was, now, d, s.candidate);
      assert ChangeInDay(r, was, now, s.candidate);
    }
    forall s | s in d.removed ensures s.day == r.day {
      DiffMembers(was, now, d, s.candidate);
      assert ChangeInDay(r, was, now, s.candidate) && s.candidate in Removed(was, now);
    }
    forall t | t in d.timeChanged ensures t.day == r.day && r.cutoff <= t.newStart {
      DiffMembers(was, now, d, t.candidate);
      assert ChangeInDay(r, was, now, t.candidate);
    }
  }

  // ----- locked stops -----

  /** What else the solver is asked for: every required stop, at the start it had. */
  ghost predicate RequiredAtTheirStart(r: Request, stops: seq<RouteStop>)
  {
    forall v | v in r.suffix && v.at.candidate in r.required ::
      exists s :: s in stops && s.candidate == v.at.candidate && s.start == v.at.start
  }

  /** The stop is in the new version on its day, at its start and with its lock. */
  predicate StaysAsLocked(proposed: seq<Visit>, v: Visit)
  {
    exists x | x in proposed ::
      x.at.candidate == v.at.candidate && x.at.day == v.at.day && x.at.start == v.at.start && Locked(x) && x.lock == v.lock
  }

  /** A solver that does as asked leaves every usable locked stop where it is. */
  lemma LockedStopsStay(r: Request, nodes: seq<Visit>, stops: seq<RouteStop>, newId: Candidate -> nat, known: set<Candidate>, v: Visit)
    requires Valid(nodes, known) && RequestFits(r, nodes) && RouteMeets(r, stops) && RequiredAtTheirStart(r, stops)
    requires v in nodes && Locked(v) && v.at.candidate !in r.unavailable
    ensures StaysAsLocked(Proposed(r, nodes, stops, newId), v)
  {
    var proposed := Proposed(r, nodes, stops, newId);
    ProposedMembers(r, nodes, stops, newId);
    if v in r.suffix {
      assert v.at.candidate in r.required;
      var s :| s in stops && s.candidate == v.at.candidate && s.start == v.at.start;
      var x := Placed(r, s, newId);
      LocksSurvive(r, nodes, stops, newId, known, v, x);
      assert x in proposed;
    } else {
      assert v in Kept(r, nodes);
      assert Copied(v, newId) in proposed;
    }
  }

  /** In the diff a traveler is shown such a stop is neither removed nor given another start. */
  ghost predicate LeavesLocked(r: Request, nodes: seq<Visit>, d: Diff)
  {
    forall v | v in nodes && Locked(v) && v.at.candidate !in r.unavailable ::
      && (forall s | s in d.removed :: s.candidate != v.at.candidate)
      && (forall t | t in d.timeChanged && t.candidate == v.at.candidate :: t.newStart == t.oldStart)
  }

  lemma DiffOfLocked(was: Version, now: Version, nodes: seq<Visit>, proposed: seq<Visit>, v: Visit, d: Diff)
    requires Indexes(was, nodes) && Indexes(now, proposed) && IsDiff(was, now, d)
    requires v in nodes && StaysAsLocked(proposed, v)
    ensures forall s | s in d.removed :: s.candidate != v.at.candidate
    ensures forall t | t in d.timeChanged && t.candidate == v.at.candidate :: t.newStart == t.oldStart
  {
    var c := v.at.candidate;
    var x :| x in proposed && x.at.candidate == c && x.at.day == v.at.day && x.at.start == v.at.start;
    assert was[c] == v.at && now[c] == x.at;
    DiffMembers(was, now, d, c);
    assert c !in Removed(was, now);
  }

  lemma DiffLeavesLocked(r: Request, nodes: seq<Visit>, stops: seq<RouteStop>, newId: Candidate -> nat, known: set<Candidate>, d: Diff)
    requires Valid(nodes, known) && RequestFits(r, nodes) && RouteMeets(r, stops) && Injective(newId) && RequiredAtTheirStart(r, stops)
    requires IsDiff(ByCandidate(Rows(nodes)), ByCandidate(Rows(Proposed(r, nodes, stops, newId))), d)
    ensures LeavesLocked(r, nodes, d)
  {
    var proposed := Proposed(r, nodes, stops, newId);
    OnePerCandidate(nodes, known);
    ProposalIsValid(r, nodes, stops, newId, known);
    OnePerCandidate(proposed, known + r.pool);
    forall v | v in nodes && Locked(v) && v.at.candidate !in r.unavailable
      ensures forall s | s in d.removed :: s.candidate != v.at.candidate
      ensures forall t | t in d.timeChanged && t.candidate == v.at.candidate :: t.newStart == t.oldStart
    {
      LockedStopsStay(r, nodes, stops, newId, known, v);
      DiffOfLocked(ByCandidate(Rows(nodes)), ByCandidate(Rows(proposed)), nodes, proposed, v, d);
    }
  }

  // ----- what each trigger makes of the finished part of the day -----

  lemma {:induction false} EarliestIsLeast(vs: seq<Visit>)
    requires vs != []
    ensures forall v | v in vs :: EarliestStart(vs) <= v.at.start
    ensures exists v :: v in vs && v.at.start == EarliestStart(vs)
  {
    assert vs == [vs[0]] + vs[1..];
    assert vs[0] in vs;
    if |vs| <= 1 {
    } else {
      EarliestIsLeast(vs[1..]);
      var w :| w in vs[1..] && w.at.start == EarliestStart(vs[1..]);
      assert w in vs;
    }
  }

  /** An overslept or requested replan reconsiders every stop of its day: nothing of it counts as
      finished. */
  lemma WholeDayIsReplanned(trigger: Trigger, p: Payload, catalog: Catalog, nodes: seq<Visit>, discovered: seq<Candidate>,
                            better: (Candidate, Candidate) -> bool)
    requires Valid(nodes, Known(catalog)) && trigger in {Overslept, UserRequest}
    requires Prepare(trigger, p, catalog, nodes, discovered, better).Ok?
    ensures var r := Prepare(trigger, p, catalog, nodes, discovered, better).value;
      forall v | v in nodes && v.at.day == r.day :: v in r.suffix
  {
    var r := Prepare(trigger, p, catalog, nodes, discovered, better).value;
    PrepareFits(trigger, p, catalog, nodes, discovered, better);
    SortMembers(Where(nodes, v => Disrupted(trigger, p, catalog, v)));
    assert r.affected[0] in r.affected;
    forall v | v in nodes && v.at.day == r.day && v.at.end <= r.cutoff ensures v in r.affected {
      assert Disrupted(trigger, p, catalog, v);
    }
  }

  /** Closing one stop keeps exactly the stops of its day that had ended when it was due. */
  lemma OneStopKeepsWhatEnded(trigger: Trigger, p: Payload, catalog: Catalog, nodes: seq<Visit>, discovered: seq<Candidate>,
                              better: (Candidate, Candidate) -> bool, a: Visit)
    requires Valid(nodes, Known(catalog)) && trigger in {ReservationCancelled, PlaceClosed}
    requires a in nodes && p.nodeId == Some(a.at.id) && a.at.start < DAY_END
    ensures var r := Prepare(trigger, p, catalog, nodes, discovered, better);
      && r.Ok? && r.value.day == a.at.day && r.value.cutoff == a.at.start && r.value.unavailable == {a.at.candidate}
      && forall v :: v in r.value.prefix <==> v in nodes && v.at.day == a.at.day && v.at.end <= a.at.start
  {
    var affected := SelectAffected(trigger, p, catalog, nodes);
    SortMembers(Where(nodes, v => Disrupted(trigger, p, catalog, v)));
    assert forall v :: v in affected <==> v == a;
    assert affected[0] in affected;
    EarliestIsLeast(affected);
    PrepareFits(trigger, p, catalog, nodes, discovered, better);
  }

  // ----- what a disruption asks for -----

  /** The stops a trigger means: the named one, or those it names; those of its day that depend on the
      weather, or had begun when the traveler woke up, or all of them. */
  ghost predicate Meant(trigger: Trigger, p: Payload, catalog: Catalog, nodes: seq<Visit>, v: Visit)
  {
    v in nodes && match trigger
      case ReservationCancelled | TransitDelay | PlaceClosed => p.nodeId == Some(v.at.id)
      case Other => v.at.id in p.nodeIds
      case Weather => p.day == Some(v.at.day) && v.at.candidate in catalog.weatherDependent && v.at.candidate in catalog.known
      case Overslept => p.day == Some(v.at.day) && exists now: nat :: p.clock == Some(now) && v.at.start < now
      case UserRequest => p.day == Some(v.at.day)
  }

  /** The first of the meant stops is due at `first`. */
  ghost predicate FirstDue(trigger: Trigger, p: Payload, catalog: Catalog, nodes: seq<Visit>, first: nat)
  {
    && (exists v :: Meant(trigger, p, catalog, nodes, v) && v.at.start == first)
    && (forall v | Meant(trigger, p, catalog, nodes, v) :: first <= v.at.start)
  }

  /** Later by the delay, if there is one, but not into the next day: an hour past the last counts as
      the last. */
  function Late(first: nat, delay: int): nat
  {
    var late := if delay > 0 then first + delay else first;
    if late < 24 * 60 then late else 23 * 60 + late % 60
  }

  /** The day is replanned from `minute` on: from its start for the weather or on request, from when the
      traveler woke up, and else from when the first meant stop is due, or is due after a delay. */
  ghost predicate ReplansFrom(trigger: Trigger, p: Payload, catalog: Catalog, nodes: seq<Visit>, minute: nat)
  {
    match trigger
    case Weather | UserRequest => minute == DAY_START
    case Overslept => p.clock == Some(minute)
    case TransitDelay =>
      exists first: nat :: FirstDue(trigger, p, catalog, nodes, first) && minute == Late(first, p.delay)
    case _ => FirstDue(trigger, p, catalog, nodes, minute)
  }

  /** The meant stops can no longer be visited, unless the traveler was late or only asked. */
  predicate LeavesPlacesOpen(trigger: Trigger) { trigger == Overslept || trigger == TransitDelay || trigger == UserRequest }

  lemma AffectedAreMeant(trigger: Trigger, p: Payload, catalog: Catalog, nodes: seq<Visit>)
    ensures forall v :: v in SelectAffected(trigger, p, catalog, nodes) <==> Meant(trigger, p, catalog, nodes, v)
  {
    SortMembers(Where(nodes, v => Disrupted(trigger, p, catalog, v)));
  }

  lemma FirstIsEarliest(trigger: Trigger, p: Payload, catalog: Catalog, nodes: seq<Visit>, affected: seq<Visit>)
    requires affected == SelectAffected(trigger, p, catalog, nodes) && affected != []
    ensures FirstDue(trigger, p, catalog, nodes, EarliestStart(affected))
  {
    AffectedAreMeant(trigger, p, catalog, nodes);
    EarliestIsLeast(affected);
    var v :| v in affected && v.at.start == EarliestStart(affected);
    assert Meant(trigger, p, catalog, nodes, v);
  }

  lemma CutoffMeans(trigger: Trigger, p: Payload, catalog: Catalog, nodes: seq<Visit>, affected: seq<Visit>)
    requires affected == SelectAffected(trigger, p, catalog, nodes) && affected != []
    requires forall v | v in nodes :: v.at.start < 24 * 60
    ensures ReplansFrom(trigger, p, catalog, nodes, Cutoff(trigger, p, affected))
  {
    AffectedAreMeant(trigger, p, catalog, nodes);
    FirstIsEarliest(trigger, p, catalog, nodes, affected);
    assert affected[0] in affected && Meant(trigger, p, catalog, nodes, affected[0]);
  }

  lemma FirstDueUnique(trigger: Trigger, p: Payload, catalog: Catalog, nodes: seq<Visit>, first: nat, other: nat)
    requires FirstDue(trigger, p, catalog, nodes, first) && FirstDue(trigger, p, catalog, nodes, other)
    ensures first == other
  {
  }

  lemma ReplansFromUnique(trigger: Trigger, p: Payload, catalog: Catalog, nodes: seq<Visit>, minute: nat, other: nat)
    requires ReplansFrom(trigger, p, catalog, nodes, minute) && ReplansFrom(trigger, p, catalog, nodes, other)
    ensures minute == other
  {
    if trigger == TransitDelay {
      var first: nat :| FirstDue(trigger, p, catalog, nodes, first) && minute == Late(first, p.delay);
      var later: nat :| FirstDue(trigger, p, catalog, nodes, later) && other == Late(later, p.delay);
      FirstDueUnique(trigger, p, catalog, nodes, first, later);
    } else if trigger in {ReservationCancelled, PlaceClosed, Other} {
      FirstDueUnique(trigger, p, catalog, nodes, minute, other);
    }
  }

  ghost predicate MeansSomething(trigger: Trigger, p: Payload, catalog: Catalog, nodes: seq<Visit>)
  {
    exists v :: Meant(trigger, p, catalog, nodes, v)
  }

  ghost predicate OnOneDay(trigger: Trigger, p: Payload, catalog: Catalog, nodes: seq<Visit>)
  {
    forall v, w | Meant(trigger, p, catalog, nodes, v) && Meant(trigger, p, catalog, nodes, w) :: v.at.day == w.at.day
  }

  ghost predicate TimeIsLeft(trigger: Trigger, p: Payload, catalog: Catalog, nodes: seq<Visit>)
  {
    exists minute: nat :: minute < DAY_END && ReplansFrom(trigger, p, catalog, nodes, minute)
  }

  /** What a request is made of. */
  ghost predicate AsksFor(r: Request, trigger: Trigger, p: Payload, catalog: Catalog, nodes: seq<Visit>)
  {
    && (forall v :: v in r.affected <==> Meant(trigger, p, catalog, nodes, v))
    && (forall v | v in r.affected :: v.at.day == r.day)
    && ReplansFrom(trigger, p, catalog, nodes, r.cutoff)
    && r.unavailable == (if LeavesPlacesOpen(trigger) then {} else Candidates(r.affected))
  }

  lemma DaysMeant(trigger: Trigger, p: Payload, catalog: Catalog, nodes: seq<Visit>, affected: seq<Visit>)
    requires affected == SelectAffected(trigger, p, catalog, nodes) && affected != []
    ensures OnOneDay(trigger, p, catalog, nodes) <==> forall v | v in affected :: v.at.day == affected[0].at.day
  {
    AffectedAreMeant(trigger, p, catalog, nodes);
    assert Meant(trigger, p, catalog, nodes, affected[0]) by { assert affected[0] in affected; }
  }

  lemma SomethingMeant(trigger: Trigger, p: Payload, catalog: Catalog, nodes: seq<Visit>, affected: seq<Visit>)
    requires affected == SelectAffected(trigger, p, catalog, nodes)
    ensures MeansSomething(trigger, p, catalog, nodes) <==> affected != []
  {
    AffectedAreMeant(trigger, p, catalog, nodes);
    if affected != [] {
      assert affected[0] in affected && Meant(trigger, p, catalog, nodes, affected[0]);
    }
  }

  lemma TimeMeant(trigger: Trigger, p: Payload, catalog: Catalog, nodes: seq<Visit>, affected: seq<Visit>)
    requires affected == SelectAffected(trigger, p, catalog, nodes) && affected != []
    requires forall v | v in nodes :: v.at.start < 24 * 60
    ensures TimeIsLeft(trigger, p, catalog, nodes) <==> Cutoff(trigger, p, affected) < DAY_END
  {
    var cutoff := Cutoff(trigger, p, affected);
    CutoffMeans(trigger, p, catalog, nodes, affected);
    forall minute: nat | ReplansFrom(trigger, p, catalog, nodes, minute) ensures minute == cutoff {
      ReplansFromUnique(trigger, p, catalog, nodes, minute, cutoff);
    }
  }

  lemma PrepareParts(trigger: Trigger, p: Payload, catalog: Catalog, nodes: seq<Visit>, discovered: seq<Candidate>,
                     better: (Candidate, Candidate) -> bool, r: Request, affected: seq<Visit>)
    requires Prepare(trigger, p, catalog, nodes, discovered, better) == Ok(r) && affected == SelectAffected(trigger, p, catalog, nodes)
    ensures r.affected == affected != [] && r.cutoff == Cutoff(trigger, p, affected)
    ensures r.unavailable == if LeavesPlacesOpen(trigger) then {} else Candidates(affected)
    ensures forall v | v in affected :: v.at.day == r.day
  {
  }

  /** The request is for what the disruption asks. */
  lemma PrepareAsks(trigger: Trigger, p: Payload, catalog: Catalog, nodes: seq<Visit>, discovered: seq<Candidate>,
                    better: (Candidate, Candidate) -> bool, r: Request)
    requires Prepare(trigger, p, catalog, nodes, discovered, better) == Ok(r) && forall v | v in nodes :: v.at.start < 24 * 60
    ensures AsksFor(r, trigger, p, catalog, nodes)
  {
    var affected := SelectAffected(trigger, p, catalog, nodes);
    PrepareParts(trigger, p, catalog, nodes, discovered, better, r, affected);
    AffectedAreMeant(trigger, p, catalog, nodes);
    CutoffMeans(trigger, p, catalog, nodes, affected);
  }

  /** A disruption is taken up exactly when it means some stops, all of one day, and leaves time; the first
      of these that fails is reported. */
  lemma PrepareIff(trigger: Trigger, p: Payload, catalog: Catalog, nodes: seq<Visit>, discovered: seq<Candidate>,
                   better: (Candidate, Candidate) -> bool)
    requires forall v | v in nodes :: v.at.start < 24 * 60
    ensures var r := Prepare(trigger, p, catalog, nodes, discovered, better);
      var meant, one := MeansSomething(trigger, p, catalog, nodes), OnOneDay(trigger, p, catalog, nodes);
      && (r == Err(NothingAffected) <==> !meant)
      && (r == Err(SeveralDays) <==> meant && !one)
      && (r == Err(NoTimeLeft) <==> meant && one && !TimeIsLeft(trigger, p, catalog, nodes))
  {
    var affected := SelectAffected(trigger, p, catalog, nodes);
    SomethingMeant(trigger, p, catalog, nodes, affected);
    if affected != [] {
      DaysMeant(trigger, p, catalog, nodes, affected);
      TimeMeant(trigger, p, catalog, nodes, affected);
    }
  }

  /** A place the proposal may offer instead: a known one that nothing speaks against and that is on no
      day yet, or one the search just found. */
  predicate Offerable(catalog: Catalog, scheduled: set<Candidate>, unavailable: set<Candidate>, discovered: seq<Candidate>, c: Candidate)
  {
    if c in catalog.known then c !in scheduled && c !in unavailable && c in catalog.suitable else c in discovered
  }

  /** Up to eight places are offered, best first, and none that is left out is better than one offered. */
  lemma BestAreOffered(catalog: Catalog, scheduled: set<Candidate>, unavailable: set<Candidate>, discovered: seq<Candidate>,
                       better: (Candidate, Candidate) -> bool)
    requires Sorting.Total(better)
    ensures var offered := Alternatives(catalog, scheduled, unavailable, discovered, better);
      && |offered| <= ALTERNATIVE_LIMIT && Sorting.Ordered(offered, better)
      && (forall c | c in offered :: Offerable(catalog, scheduled, unavailable, discovered, c))
      && (forall c | Offerable(catalog, scheduled, unavailable, discovered, c) && c !in offered ::
            |offered| == ALTERNATIVE_LIMIT && forall d | d in offered :: better(d, c))
  {
    var existing := Where(catalog.known, c => c !in scheduled && c !in unavailable && c in catalog.suitable);
    var unseen := Where(discovered, c => c !in catalog.known);
    var all := existing + unseen;
    var ranked, offered := Sorting.Sort(all, better), Alternatives(catalog, scheduled, unavailable, discovered, better);
    Sorting.SortKeeps(all, better);
    Sorting.SortOrders(all, better);
    Sorting.SameMembers(ranked, all);
    assert forall c :: c in all <==> Offerable(catalog, scheduled, unavailable, discovered, c);
    forall c | Offerable(catalog, scheduled, unavailable, discovered, c) && c !in offered
      ensures |offered| == ALTERNATIVE_LIMIT && forall d | d in offered :: better(d, c)
    {
      assert c in ranked;
      var k :| 0 <= k < |ranked| && ranked[k] == c;
      assert k >= ALTERNATIVE_LIMIT;
    }
  }

  /** The route may use the usable rest of the day and what is offered instead. */
  lemma PoolMeans(trigger: Trigger, p: Payload, catalog: Catalog, nodes: seq<Visit>, discovered: seq<Candidate>,
                  better: (Candidate, Candidate) -> bool, r: Request, c: Candidate)
    requires Prepare(trigger, p, catalog, nodes, discovered, better) == Ok(r)
    ensures c in r.pool <==>
      || (c in catalog.known && c !in r.unavailable && exists v :: v in r.suffix && v.at.candidate == c)
      || c in Alternatives(catalog, Candidates(nodes), r.unavailable, discovered, better)
  {
  }

  // ----- the wishlist of a proposal -----

  function PlacedBy(stops: seq<RouteStop>): set<Candidate> { set s | s in stops :: s.candidate }

  /** Old entries nobody proposed again, overridden by the solver's reasons for unplaced pool members. */
  function Wishlist<R>(was: map<Candidate, R>, proposed: seq<Visit>, r: Request, stops: seq<RouteStop>, reasons: map<Candidate, R>)
    : map<Candidate, R>
  {
    (map c | c in was && c !in Candidates(proposed) :: was[c])
    + (map c | c in r.pool && c !in PlacedBy(stops) && c in reasons :: reasons[c])
  }

  /** No candidate is both scheduled and on the wishlist, and none of the old ones is lost: it is
      proposed again, or it is unusable, or the wishlist says why it was left out. */
  lemma NobodyIsLost<R>(r: Request, nodes: seq<Visit>, stops: seq<RouteStop>, newId: Candidate -> nat, catalog: Catalog,
                        was: map<Candidate, R>, reasons: map<Candidate, R>, c: Candidate)
    requires Valid(nodes, Known(catalog)) && RequestFits(r, nodes) && RouteMeets(r, stops)
    requires Usable(r.suffix, r.unavailable, catalog) <= r.pool
    requires r.pool - PlacedBy(stops) <= reasons.Keys
    ensures var proposed := Proposed(r, nodes, stops, newId);
      var wishlist := Wishlist(was, proposed, r, stops, reasons);
      && (c in wishlist ==> c !in Candidates(proposed))
      && (c in Candidates(nodes) || c in was || c in r.pool ==> c in Candidates(proposed) || c in wishlist || c in r.unavailable)
  {
    ProposedMembers(r, nodes, stops, newId);
    var proposed := Proposed(r, nodes, stops, newId);
    if c in r.pool {
      if s :| s in stops && s.candidate == c {
        assert Placed(r, s, newId) in proposed;
        assert c in PlacedBy(stops);
        assert c in Candidates(proposed);
      } else {
        UnplacedIsAbsent(r, nodes, stops, newId, c);
      }
    } else if v :| v in nodes && v.at.candidate == c {
      if v !in r.suffix {
        assert Copied(v, newId) in proposed;
        assert c in Candidates(proposed);
      }
    }
  }

  lemma UnplacedIsAbsent(r: Request, nodes: seq<Visit>, stops: seq<RouteStop>, newId: Candidate -> nat, c: Candidate)
    requires RequestFits(r, nodes) && RouteMeets(r, stops) && c in r.pool && c !in PlacedBy(stops)
    ensures c !in Candidates(Proposed(r, nodes, stops, newId))
  {
    ProposedMembers(r, nodes, stops, newId);
    forall x | x in Proposed(r, nodes, stops, newId) ensures x.at.candidate != c {
      if s :| s in stops && x == Placed(r, s, newId) {
        assert s.candidate in PlacedBy(stops);
      } else {
        var v :| v in Kept(r, nodes) && x == Copied(v, newId);
        assert v !in r.suffix;
      }
    }
  }

  datatype Proposal = Proposal(request: Request, nodes: seq<Visit>, diff: Diff)

  /** The request is about the disrupted stops, in the order of their starts. */
  ghost predicate About(r: Request, trigger: Trigger, p: Payload, catalog: Catalog, nodes: seq<Visit>)
  {
    && (forall v :: v in r.affected <==> v in nodes && Disrupted(trigger, p, catalog, v))
    && (forall i, j | 0 <= i < j < |r.affected| ::
          var a, b := r.affected[i].at, r.affected[j].at;
          a.day <= b.day && (a.day == b.day ==> a.start < b.start || (a.start == b.start && a.id <= b.id)))
  }

  /** A locked stop that is proposed again keeps its lock; no other stop of the replanned part has one, nor
      does a place that was not in the plan. */
  ghost predicate LocksCarried(r: Request, nodes: seq<Visit>, proposed: seq<Visit>)
  {
    && (forall x | x in proposed && x.at.candidate !in Candidates(nodes) :: !x.fixed && x.lock == None)
    && forall v, x | v in nodes && x in proposed && v.at.candidate == x.at.candidate ::
      && (Locked(v) ==> Locked(x) && x.lock == v.lock)
      && (v in r.suffix && !Locked(v) ==> !x.fixed && x.lock == None)
  }

  lemma ProposedCarriesLocks(r: Request, nodes: seq<Visit>, stops: seq<RouteStop>, newId: Candidate -> nat, known: set<Candidate>)
    requires Valid(nodes, known) && RequestFits(r, nodes) && RouteMeets(r, stops)
    ensures LocksCarried(r, nodes, Proposed(r, nodes, stops, newId))
  {
    var proposed := Proposed(r, nodes, stops, newId);
    forall v, x | v in nodes && x in proposed && v.at.candidate == x.at.candidate
      ensures (Locked(v) ==> Locked(x) && x.lock == v.lock) && (v in r.suffix && !Locked(v) ==> !x.fixed && x.lock == None)
    {
      LocksSurvive(r, nodes, stops, newId, known, v, x);
    }
    forall x | x in proposed && x.at.candidate !in Candidates(nodes) ensures !x.fixed && x.lock == None {
      NewPlaceUnlocked(r, nodes, stops, newId, x);
    }
  }

  lemma NewPlaceUnlocked(r: Request, nodes: seq<Visit>, stops: seq<RouteStop>, newId: Candidate -> nat, x: Visit)
    requires RequestFits(r, nodes) && x in Proposed(r, nodes, stops, newId) && x.at.candidate !in Candidates(nodes)
    ensures !x.fixed && x.lock == None
  {
    ProposedMembers(r, nodes, stops, newId);
    KeptAreOld(r, nodes, newId);
    var s :| s in stops && x == Placed(r, s, newId);
    NoLockUnlessRequired(r.suffix, r.required, s.candidate);
  }

  lemma KeptAreOld(r: Request, nodes: seq<Visit>, newId: Candidate -> nat)
    ensures forall v | v in Kept(r, nodes) :: Copied(v, newId).at.candidate in Candidates(nodes)
  {
    forall v | v in Kept(r, nodes) ensures v.at.candidate in Candidates(nodes) {
      assert v in nodes;
    }
  }

  lemma {:induction false} NoLockUnlessRequired(suffix: seq<Visit>, required: set<Candidate>, c: Candidate)
    requires c !in required
    ensures LockOf(suffix, required, c) == None
  {
    if suffix == [] {
    } else {
      NoLockUnlessRequired(suffix[..|suffix| - 1], required, c);
    }
  }

  /** The proposed version is the rest of the plan and the route: every routed stop is on the affected day
      at its time, and nothing else is there but what was finished. */
  ghost predicate FollowsRoute(r: Request, nodes: seq<Visit>, stops: seq<RouteStop>, newId: Candidate -> nat, proposed: seq<Visit>)
  {
    && (forall s | s in stops :: exists x :: x in proposed && x.at == Node(newId(s.candidate), s.candidate, r.day, s.start, s.end))
    && (forall x | x in proposed ::
          || (exists v :: v in nodes && (v.at.day != r.day || v in r.prefix) && x == Copied(v, newId))
          || exists s :: s in stops && x.at == Node(newId(s.candidate), s.candidate, r.day, s.start, s.end))
  }

  lemma ProposedFollowsRoute(r: Request, nodes: seq<Visit>, stops: seq<RouteStop>, newId: Candidate -> nat)
    ensures FollowsRoute(r, nodes, stops, newId, Proposed(r, nodes, stops, newId))
  {
    ProposedMembers(r, nodes, stops, newId);
    var proposed := Proposed(r, nodes, stops, newId);
    forall s | s in stops ensures exists x :: x in proposed && x.at == Node(newId(s.candidate), s.candidate, r.day, s.start, s.end) {
      assert Placed(r, s, newId) in proposed;
    }
    forall x | x in proposed
      ensures (exists v :: v in nodes && (v.at.day != r.day || v in r.prefix) && x == Copied(v, newId))
        || exists s :: s in stops && x.at == Node(newId(s.candidate), s.candidate, r.day, s.start, s.end)
    {
      if v :| v in Kept(r, nodes) && x == Copied(v, newId) {
        assert v in nodes;
      } else {
        var s :| s in stops && x == Placed(r, s, newId);
      }
    }
  }

  /** What every proposal guarantees. */
  ghost predicate Sound(r: Request, nodes: seq<Visit>, stops: seq<RouteStop>, known: set<Candidate>, newId: Candidate -> nat, proposal: Proposal)
  {
    && FollowsRoute(r, nodes, stops, newId, proposal.nodes)
    && LocksCarried(r, nodes, proposal.nodes)
    && Valid(proposal.nodes, known + r.pool)
    && KeepsTheRest(r, nodes, proposal.nodes, newId)
    && IsDiff(ByCandidate(Rows(nodes)), ByCandidate(Rows(proposal.nodes)), proposal.diff)
    && proposal.diff.moved == []
  }

  lemma PrepareIsAbout(trigger: Trigger, p: Payload, catalog: Catalog, nodes: seq<Visit>, discovered: seq<Candidate>,
                       better: (Candidate, Candidate) -> bool)
    requires Prepare(trigger, p, catalog, nodes, discovered, better).Ok?
    ensures About(Prepare(trigger, p, catalog, nodes, discovered, better).value, trigger, p, catalog, nodes)
  {
    SortMembers(Where(nodes, v => Disrupted(trigger, p, catalog, v)));
    Sorting.SortOrders(Where(nodes, v => Disrupted(trigger, p, catalog, v)), EarlierVisit);
    assert forall i, j | 0 <= i < j < |SelectAffected(trigger, p, catalog, nodes)| ::
      EarlierVisit(SelectAffected(trigger, p, catalog, nodes)[i], SelectAffected(trigger, p, catalog, nodes)[j]);
  }

  method Assemble(r: Request, nodes: seq<Visit>, stops: seq<RouteStop>, newId: Candidate -> nat, ghost known: set<Candidate>)
    returns (proposal: Proposal)
    requires Valid(nodes, known) && RequestFits(r, nodes) && RouteMeets(r, stops) && Injective(newId)
    ensures proposal.request == r && Sound(r, nodes, stops, known, newId, proposal)
    ensures RequiredAtTheirStart(r, stops) ==> LeavesLocked(r, nodes, proposal.diff)
  {
    var proposed := Proposed(r, nodes, stops, newId);
    ProposalIsValid(r, nodes, stops, newId, known);
    UntouchedStopsStay(r, nodes, stops, newId);
    ProposedFollowsRoute(r, nodes, stops, newId);
    ProposedCarriesLocks(r, nodes, stops, newId, known);
    var diff := ComputeDiff(Rows(nodes), Rows(proposed));
    DiffStaysInDay(r, nodes, stops, newId, known, diff);
    if RequiredAtTheirStart(r, stops) {
      DiffLeavesLocked(r, nodes, stops, newId, known, diff);
    }
    proposal := Proposal(r, proposed, diff);
  }

  /** The whole proposal, for any route solver that meets its contract. */
  method ProposeRescue(trigger: Trigger, p: Payload, catalog: Catalog, nodes: seq<Visit>, discovered: seq<Candidate>,
                       better: (Candidate, Candidate) -> bool, solve: Request -> seq<RouteStop>, newId: Candidate -> nat)
    returns (result: Result<Proposal>)
    requires Valid(nodes, Known(catalog)) && Injective(newId) && forall r :: RouteMeets(r, solve(r))
    ensures var prepared := Prepare(trigger, p, catalog, nodes, discovered, better);
      if prepared.Err? then result == Err(prepared.error)
      else result.Ok? && result.value.request == prepared.value
    ensures result.Ok? ==> About(result.value.request, trigger, p, catalog, nodes)
    ensures result.Ok? ==> Sound(result.value.request, nodes, solve(result.value.request), Known(catalog), newId, result.value)
    ensures result.Ok? && RequiredAtTheirStart(result.value.request, solve(result.value.request)) ==>
      LeavesLocked(result.value.request, nodes, result.value.diff)
  {
    var prepared := Prepare(trigger, p, catalog, nodes, discovered, better);
    if prepared.Err? {
      return Err(prepared.error);
    }
    PrepareFits(trigger, p, catalog, nodes, discovered, better);
    PrepareIsAbout(trigger, p, catalog, nodes, discovered, better);
    var stops := solve(prepared.value);
    assert RouteMeets(prepared.value, stops);
    var proposal := Assemble(prepared.value, nodes, stops, newId, Known(catalog));
    result := Ok(proposal);
  }
}
