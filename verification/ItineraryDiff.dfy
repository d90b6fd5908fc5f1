/** Comparing two itinerary versions by candidate (syncinerary/diff/itinerary_diff.py). */
module ItineraryDiff {
  import opened Schedule
  import opened Sums
  import Sorting

  type Candidate = nat

  datatype Node = Node(id: nat, candidate: Candidate, day: nat, start: nat, end: nat)

  datatype Stop = Stop(candidate: Candidate, node: nat, day: nat, start: nat, end: nat)

  datatype Move = Move(candidate: Candidate, oldNode: nat, newNode: nat, oldDay: nat, newDay: nat, oldStart: nat, newStart: nat)

  datatype TimeChange = TimeChange(candidate: Candidate, oldNode: nat, newNode: nat, day: nat,
                                   oldStart: nat, oldEnd: nat, newStart: nat, newEnd: nat)

  datatype Diff = Diff(added: seq<Stop>, removed: seq<Stop>, moved: seq<Move>, timeChanged: seq<TimeChange>)

  type Version = map<Candidate, Node>

  /** A version keyed by candidate; a later row of the same candidate wins. */
  function ByCandidate(nodes: seq<Node>): (r: Version)
    ensures forall c | c in r :: r[c].candidate == c && r[c] in nodes
    ensures forall n | n in nodes :: n.candidate in r
  {
    if nodes == [] then map[]
    else
      var last := nodes[|nodes| - 1];
      assert forall n | n in nodes :: n in nodes[..|nodes| - 1] || n == last;
      ByCandidate(nodes[..|nodes| - 1])[last.candidate := last]
  }

  function At(v: Version, c: Candidate): Node { if c in v then v[c] else Node(0, c, 0, 0, 0) }

  function StopOf(v: Version, c: Candidate): Stop
  {
    var n := At(v, c);
    Stop(c, n.id, n.day, n.start, n.end)
  }

  function MoveOf(was: Version, now: Version, c: Candidate): Move
  {
    var o, n := At(was, c), At(now, c);
    Move(c, o.id, n.id, o.day, n.day, o.start, n.start)
  }

  function TimeChangeOf(was: Version, now: Version, c: Candidate): TimeChange
  {
    var o, n := At(was, c), At(now, c);
    TimeChange(c, o.id, n.id, o.day, o.start, o.end, n.start, n.end)
  }

  // The five things that can happen to a candidate.

  function Added(was: Version, now: Version): set<Candidate> { now.Keys - was.Keys }

  function Removed(was: Version, now: Version): set<Candidate> { was.Keys - now.Keys }

  function Moved(was: Version, now: Version): set<Candidate>
  {
    set c | c in was && c in now && was[c].day != now[c].day
  }

  function Retimed(was: Version, now: Version): set<Candidate>
  {
    set c | c in was && c in now && was[c].day == now[c].day && (was[c].start != now[c].start || was[c].end != now[c].end)
  }

  function Unchanged(was: Version, now: Version): set<Candidate>
  {
    set c | c in was && c in now && was[c].day == now[c].day && was[c].start == now[c].start && was[c].end == now[c].end
  }

  function Made<T>(order: seq<Candidate>, make: Candidate -> T): seq<T>
  {
    seq(|order|, i requires 0 <= i < |order| => make(order[i]))
  }

  ghost predicate Enumerates(order: seq<Candidate>, keys: set<Candidate>)
  {
    Distinct(order) && forall c :: c in order <==> c in keys
  }

  /** `items` holds one item per key, in some order. */
  ghost predicate Lists<T>(items: seq<T>, keys: set<Candidate>, make: Candidate -> T)
  {
    exists order: seq<Candidate> :: Enumerates(order, keys) && multiset(items) == multiset(Made(order, make))
  }

  /** Read the keys in whatever order the set gives them, then sort. */
  method Collect<T(!new)>(keys: set<Candidate>, make: Candidate -> T, le: (T, T) -> bool) returns (items: seq<T>)
    requires Sorting.Total(le)
    ensures Lists(items, keys, make) && Sorting.Ordered(items, le)
  {
    items := [];
    var left := keys;
    ghost var order: seq<Candidate> := [];
    while left != {}
      invariant left <= keys && Enumerates(order, keys - left) && items == Made(order, make)
      decreases left
    {
      var c :| c in left;
      assert Made(order + [c], make) == Made(order, make) + [make(c)];
      items, order, left := items + [make(c)], order + [c], left - {c};
    }
    assert keys - left == keys;
    Sorting.SortKeeps(items, le);
    Sorting.SortOrders(items, le);
    items := Sorting.Sort(items, le);
  }

  predicate StopBefore(a: Stop, b: Stop)
  {
    if a.day != b.day then a.day < b.day else if a.start != b.start then a.start < b.start else a.candidate <= b.candidate
  }

  predicate MoveBefore(a: Move, b: Move)
  {
    if a.oldDay != b.oldDay then a.oldDay < b.oldDay
    else if a.oldStart != b.oldStart then a.oldStart < b.oldStart else a.candidate <= b.candidate
  }

  predicate ChangeBefore(a: TimeChange, b: TimeChange)
  {
    if a.day != b.day then a.day < b.day
    else if a.oldStart != b.oldStart then a.oldStart < b.oldStart else a.candidate <= b.candidate
  }

  /** The diff lists exactly the four kinds of change, each in display order. */
  ghost predicate IsDiff(was: Version, now: Version, d: Diff)
  {
    && Lists(d.added, Added(was, now), c => StopOf(now, c)) && Sorting.Ordered(d.added, StopBefore)
    && Lists(d.removed, Removed(was, now), c => StopOf(was, c)) && Sorting.Ordered(d.removed, StopBefore)
    && Lists(d.moved, Moved(was, now), c => MoveOf(was, now, c)) && Sorting.Ordered(d.moved, MoveBefore)
    && Lists(d.timeChanged, Retimed(was, now), c => TimeChangeOf(was, now, c)) && Sorting.Ordered(d.timeChanged, ChangeBefore)
  }

  method ComputeDiff(oldNodes: seq<Node>, newNodes: seq<Node>) returns (d: Diff)
    ensures IsDiff(ByCandidate(oldNodes), ByCandidate(newNodes), d)
  {
    var was, now := ByCandidate(oldNodes), ByCandidate(newNodes);
    var added := Collect(Added(was, now), c => StopOf(now, c), StopBefore);
    var removed := Collect(Removed(was, now), c => StopOf(was, c), StopBefore);
    var moved := Collect(Moved(was, now), c => MoveOf(was, now, c), MoveBefore);
    var timeChanged := Collect(Retimed(was, now), c => TimeChangeOf(was, now, c), ChangeBefore);
    d := Diff(added, removed, moved, timeChanged);
  }

  const MINUTES_A_DAY := 24 * 60

  /** Minutes since the trip began. */
  function Since(day: nat, minute: nat): nat { day * MINUTES_A_DAY + minute }

  predicate NoLater(t: nat, c: Candidate, u: nat, e: Candidate) { t < u || (t == u && c <= e) }

  /** Each kind of change reads in the order in which it happens, or was to happen, on the trip. */
  ghost predicate Chronological(d: Diff)
  {
    && (forall i, j | 0 <= i < j < |d.added| ::
          NoLater(Since(d.added[i].day, d.added[i].start), d.added[i].candidate, Since(d.added[j].day, d.added[j].start), d.added[j].candidate))
    && (forall i, j | 0 <= i < j < |d.removed| ::
          NoLater(Since(d.removed[i].day, d.removed[i].start), d.removed[i].candidate,
                  Since(d.removed[j].day, d.removed[j].start), d.removed[j].candidate))
    && (forall i, j | 0 <= i < j < |d.moved| ::
          NoLater(Since(d.moved[i].oldDay, d.moved[i].oldStart), d.moved[i].candidate,
                  Since(d.moved[j].oldDay, d.moved[j].oldStart), d.moved[j].candidate))
    && (forall i, j | 0 <= i < j < |d.timeChanged| ::
          NoLater(Since(d.timeChanged[i].day, d.timeChanged[i].oldStart), d.timeChanged[i].candidate,
                  Since(d.timeChanged[j].day, d.timeChanged[j].oldStart), d.timeChanged[j].candidate))
  }

  ghost predicate OnTheClock(d: Diff)
  {
    && (forall s | s in d.added || s in d.removed :: s.start < MINUTES_A_DAY)
    && (forall m | m in d.moved :: m.oldStart < MINUTES_A_DAY)
    && (forall t | t in d.timeChanged :: t.oldStart < MINUTES_A_DAY)
  }

  lemma DiffIsChronological(was: Version, now: Version, d: Diff)
    requires IsDiff(was, now, d) && OnTheClock(d)
    ensures Chronological(d)
  {
    forall i, j | 0 <= i < j < |d.added|
      ensures NoLater(Since(d.added[i].day, d.added[i].start), d.added[i].candidate, Since(d.added[j].day, d.added[j].start), d.added[j].candidate)
    {
      assert StopBefore(d.added[i], d.added[j]) && d.added[i] in d.added && d.added[j] in d.added;
    }
    forall i, j | 0 <= i < j < |d.removed|
      ensures NoLater(Since(d.removed[i].day, d.removed[i].start), d.removed[i].candidate,
                      Since(d.removed[j].day, d.removed[j].start), d.removed[j].candidate)
    {
      assert StopBefore(d.removed[i], d.removed[j]) && d.removed[i] in d.removed && d.removed[j] in d.removed;
    }
    forall i, j | 0 <= i < j < |d.moved|
      ensures NoLater(Since(d.moved[i].oldDay, d.moved[i].oldStart), d.moved[i].candidate,
                      Since(d.moved[j].oldDay, d.moved[j].oldStart), d.moved[j].candidate)
    {
      assert MoveBefore(d.moved[i], d.moved[j]) && d.moved[i] in d.moved && d.moved[j] in d.moved;
    }
    forall i, j | 0 <= i < j < |d.timeChanged|
      ensures NoLater(Since(d.timeChanged[i].day, d.timeChanged[i].oldStart), d.timeChanged[i].candidate,
                      Since(d.timeChanged[j].day, d.timeChanged[j].oldStart), d.timeChanged[j].candidate)
    {
      assert ChangeBefore(d.timeChanged[i], d.timeChanged[j]) && d.timeChanged[i] in d.timeChanged && d.timeChanged[j] in d.timeChanged;
    }
  }

  /** Listed items are exactly the keys' items. */
  lemma ListsMembers<T>(items: seq<T>, keys: set<Candidate>, make: Candidate -> T)
    requires Lists(items, keys, make)
    ensures forall c | c in keys :: make(c) in items
    ensures forall x | x in items :: exists c :: c in keys && x == make(c)
    ensures keys == {} ==> items == []
  {
    var order :| Enumerates(order, keys) && multiset(items) == multiset(Made(order, make));
    var made := Made(order, make);
    Sorting.SameMembers(items, made);
    forall c | c in keys ensures make(c) in items {
      assert c in order;
      var i :| 0 <= i < |order| && order[i] == c;
      assert made[i] == make(c) && made[i] in multiset(made);
      assert make(c) in multiset(items);
    }
    forall x | x in items ensures exists c :: c in keys && x == make(c) {
      var i :| 0 <= i < |made| && made[i] == x;
      assert order[i] in keys;
    }
  }

  /** Every candidate of two versions meets exactly one of the five fates. */
  lemma FatesPartition(was: Version, now: Version, c: Candidate)
    requires c in was || c in now
    ensures var fates := [c in Added(was, now), c in Removed(was, now), c in Moved(was, now), c in Retimed(was, now), c in Unchanged(was, now)];
      exists i :: 0 <= i < 5 && fates[i] && forall j | 0 <= j < 5 && j != i :: !fates[j]
  {
    var fates := [c in Added(was, now), c in Removed(was, now), c in Moved(was, now), c in Retimed(was, now), c in Unchanged(was, now)];
    var i := if c !in was then 0 else if c !in now then 1 else if was[c].day != now[c].day then 2
      else if was[c].start != now[c].start || was[c].end != now[c].end then 3 else 4;
    assert 0 <= i < 5 && fates[i] && forall j | 0 <= j < 5 && j != i :: !fates[j];
  }

  // ----- the diff determines the new version -----

  /** Where a candidate sits; a moved stop's new end time is not in the diff. */
  datatype Placement = Placement(day: nat, start: nat, end: Option<nat>)

  ghost function PlacementOf(was: Version, d: Diff, c: Candidate): Placement
    requires c in was || exists s :: s in d.added && s.candidate == c
  {
    if exists s :: s in d.added && s.candidate == c then
      var s :| s in d.added && s.candidate == c;
      Placement(s.day, s.start, Some(s.end))
    else if exists m :: m in d.moved && m.candidate == c then
      var m :| m in d.moved && m.candidate == c;
      Placement(m.newDay, m.newStart, None)
    else if exists t :: t in d.timeChanged && t.candidate == c then
      var t :| t in d.timeChanged && t.candidate == c;
      Placement(t.day, t.newStart, Some(t.newEnd))
    else
      Placement(was[c].day, was[c].start, Some(was[c].end))
  }

  /** The old version with the diff applied. */
  ghost function Applied(was: Version, d: Diff): map<Candidate, Placement>
  {
    var gone := set s | s in d.removed :: s.candidate;
    var come := set s | s in d.added :: s.candidate;
    map c | c in (was.Keys - gone) + come :: PlacementOf(was, d, c)
  }

  lemma DiffMembers(was: Version, now: Version, d: Diff, c: Candidate)
    requires IsDiff(was, now, d)
    ensures (exists s :: s in d.added && s.candidate == c) <==> c in Added(was, now)
    ensures (exists s :: s in d.removed && s.candidate == c) <==> c in Removed(was, now)
    ensures (exists m :: m in d.moved && m.candidate == c) <==> c in Moved(was, now)
    ensures (exists t :: t in d.timeChanged && t.candidate == c) <==> c in Retimed(was, now)
    ensures forall s | s in d.added && s.candidate == c :: s == StopOf(now, c)
    ensures forall s | s in d.removed && s.candidate == c :: s == StopOf(was, c)
    ensures forall m | m in d.moved && m.candidate == c :: m == MoveOf(was, now, c)
    ensures forall t | t in d.timeChanged && t.candidate == c :: t == TimeChangeOf(was, now, c)
  {
    ListsMembers(d.added, Added(was, now), x => StopOf(now, x));
    ListsMembers(d.removed, Removed(was, now), x => StopOf(was, x));
    ListsMembers(d.moved, Moved(was, now), x => MoveOf(was, now, x));
    ListsMembers(d.timeChanged, Retimed(was, now), x => TimeChangeOf(was, now, x));
    assert StopOf(now, c).candidate == c && StopOf(was, c).candidate == c;
    assert MoveOf(was, now, c).candidate == c && TimeChangeOf(was, now, c).candidate == c;
  }

  /** The new placement as far as the diff can tell it. */
  function KnownPlacement(was: Version, now: Version, c: Candidate): Placement
    requires c in now
  {
    Placement(now[c].day, now[c].start, if c in Moved(was, now) then None else Some(now[c].end))
  }

  /** Applying the diff to the old version gives every stop of the new one, and no other. */
  lemma DiffRebuilds(was: Version, now: Version, d: Diff)
    requires IsDiff(was, now, d)
    ensures Applied(was, d).Keys == now.Keys
    ensures forall c | c in now :: c in Applied(was, d) && Applied(was, d)[c] == KnownPlacement(was, now, c)
  {
    forall c ensures c in Applied(was, d) <==> c in now {
      DiffMembers(was, now, d, c);
    }
    forall c | c in now ensures PlacementOf(was, d, c) == KnownPlacement(was, now, c) {
      DiffMembers(was, now, d, c);
    }
  }

  lemma {:induction false} MadeRearranged<T>(s: seq<Candidate>, t: seq<Candidate>, make: Candidate -> T)
    requires multiset(s) == multiset(t)
    ensures multiset(Made(s, make)) == multiset(Made(t, make))
    decreases |s|
  {
    if s == [] {
      assert |multiset(t)| == 0;
    } else {
      var k, rest := Sorting.RemoveHead(s, t);
      MadeRearranged(s[1..], rest, make);
      MadeWithout(t, k, make);
      assert Made(s, make) == [make(s[0])] + Made(s[1..], make);
    }
  }

  lemma MadeWithout<T>(s: seq<Candidate>, k: nat, make: Candidate -> T)
    requires k < |s|
    ensures multiset(Made(s, make)) == multiset{make(s[k])} + multiset(Made(s[..k] + s[k + 1..], make))
  {
    assert Made(s, make) == Made(s[..k], make) + [make(s[k])] + Made(s[k + 1..], make);
    assert Made(s[..k] + s[k + 1..], make) == Made(s[..k], make) + Made(s[k + 1..], make);
  }

  lemma SameEnumeration(s: seq<Candidate>, t: seq<Candidate>, keys: set<Candidate>)
    requires Enumerates(s, keys) && Enumerates(t, keys)
    ensures multiset(s) == multiset(t)
  {
    DistinctIsSet(s);
    DistinctIsSet(t);
    forall c ensures multiset(s)[c] == multiset(t)[c] {
      assert c in s <==> c in multiset(s);
      assert c in t <==> c in multiset(t);
    }
  }

  /** Two sorted listings of the same keys are equal: the diff does not depend on the order a
      set gives its members. */
  lemma ListingUnique<T>(s: seq<T>, t: seq<T>, keys: set<Candidate>, make: Candidate -> T, le: (T, T) -> bool)
    requires Lists(s, keys, make) && Lists(t, keys, make) && Sorting.Ordered(s, le) && Sorting.Ordered(t, le)
    requires forall c, e | c in keys && e in keys && le(make(c), make(e)) && le(make(e), make(c)) :: c == e
    ensures s == t
  {
    var a :| Enumerates(a, keys) && multiset(s) == multiset(Made(a, make));
    var b :| Enumerates(b, keys) && multiset(t) == multiset(Made(b, make));
    SameEnumeration(a, b, keys);
    MadeRearranged(a, b, make);
    ListsMembers(s, keys, make);
    Sorting.OrderedUnique(s, t, le);
  }

  /** Reversing the comparison swaps added and removed. */
  lemma ReverseSwaps(was: Version, now: Version, d: Diff, back: Diff)
    requires IsDiff(was, now, d) && IsDiff(now, was, back)
    ensures back.added == d.removed && back.removed == d.added
    ensures Moved(now, was) == Moved(was, now) && Retimed(now, was) == Retimed(was, now)
  {
    ListingUnique(back.added, d.removed, Removed(was, now), c => StopOf(was, c), StopBefore);
    ListingUnique(back.removed, d.added, Added(was, now), c => StopOf(now, c), StopBefore);
  }

  /** A diff is empty exactly when both versions put the same candidates at the same times. */
  lemma EmptyIffSamePlan(was: Version, now: Version, d: Diff)
    requires IsDiff(was, now, d)
    ensures d == Diff([], [], [], []) <==>
      was.Keys == now.Keys && forall c | c in was && c in now ::
        was[c].day == now[c].day && was[c].start == now[c].start && was[c].end == now[c].end
  {
    if d == Diff([], [], [], []) {
      forall c ensures c in was <==> c in now {
        DiffMembers(was, now, d, c);
      }
      forall c | c in was && c in now
        ensures was[c].day == now[c].day && was[c].start == now[c].start && was[c].end == now[c].end
      {
        DiffMembers(was, now, d, c);
      }
    } else if was.Keys == now.Keys && Unchanged(was, now) == was.Keys {
      assert forall c | c in was :: c in Unchanged(was, now);
      ListsMembers(d.added, Added(was, now), c => StopOf(now, c));
      ListsMembers(d.removed, Removed(was, now), c => StopOf(was, c));
      ListsMembers(d.moved, Moved(was, now), c => MoveOf(was, now, c));
      ListsMembers(d.timeChanged, Retimed(was, now), c => TimeChangeOf(was, now, c));
    }
  }
}
