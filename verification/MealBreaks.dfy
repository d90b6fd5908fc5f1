/** Reserving meal hours in a finished day (syncinerary/agents/solver/meal_breaks.py). */
module MealBreaks {
  import opened Schedule
  import Sorting

  const MEAL_BREAK_MINUTES := 60

  datatype TimedStop = TimedStop(startMinute: int, endMinute: int, transitFromPrevMin: int, mealSlot: Option<Meal>)

  datatype MealBreak = MealBreak(meal: Meal, startMinute: int, endMinute: int)

  /** A visit together with the transit leading to it. */
  datatype Busy = Busy(left: int, right: int)

  predicate BusyBefore(a: Busy, b: Busy)
  {
    a.left < b.left || (a.left == b.left && a.right <= b.right)
  }

  /** No busy stretch touches the hour that starts at `hour`. */
  predicate Free(occupied: seq<Busy>, hour: int)
  {
    forall k | 0 <= k < |occupied| :: !(occupied[k].right > hour && occupied[k].left < hour + MEAL_BREAK_MINUTES)
  }

  /** `hour` is the first grid hour at or after `from` that is free. */
  predicate EarliestFree(occupied: seq<Busy>, from: int, hour: int)
  {
    && Aligned(hour) && from <= hour && Free(occupied, hour)
    && forall other | from <= other < hour && Aligned(other) :: !Free(occupied, other)
  }

  /** The inner cursor walk: it stops on the earliest free grid hour. */
  method FindGap(occupied: seq<Busy>, from: int) returns (cursor: int)
    requires Sorting.Ordered(occupied, BusyBefore)
    ensures EarliestFree(occupied, from, cursor)
  {
    CeilSlotLeast(from);
    cursor := CeilSlot(from);
    for k := 0 to |occupied|
      invariant Aligned(cursor) && from <= cursor
      invariant forall j | 0 <= j < k :: occupied[j].right <= cursor
      invariant forall other | from <= other < cursor && Aligned(other) :: !Free(occupied, other)
    {
      if cursor + MEAL_BREAK_MINUTES <= occupied[k].left {
        assert forall j | k < j < |occupied| :: BusyBefore(occupied[k], occupied[j]);
        return;
      }
      if occupied[k].right > cursor && occupied[k].left < cursor + MEAL_BREAK_MINUTES {
        CeilSlotLeast(occupied[k].right);
        forall other | cursor <= other < CeilSlot(occupied[k].right) && Aligned(other)
          ensures !Free(occupied, other)
        {
          assert other < occupied[k].right;
        }
        cursor := CeilSlot(occupied[k].right);
      }
    }
  }

  /** What one call works on once the stops are read. */
  datatype Day = Day(occupied: seq<Busy>, dayEnd: int, cap: int)

  /** `hour` may hold `meal` when the active span starts at `span`. */
  predicate Seats(day: Day, span: int, meal: Meal, hour: int)
  {
    && Aligned(hour) && Free(day.occupied, hour)
    && span <= hour && WindowStart(meal) <= hour
    && hour + MEAL_BREAK_MINUTES <= day.dayEnd
    && hour + MEAL_BREAK_MINUTES <= WindowEnd(meal)
    && hour + MEAL_BREAK_MINUTES <= span + day.cap
  }

  ghost predicate Seatable(day: Day, span: int, meal: Meal)
  {
    exists hour :: Seats(day, span, meal, hour)
  }

  /** The meals, in the order asked, that some hour of this span could hold. */
  ghost function SeatableMeals(day: Day, span: int, meals: seq<Meal>): seq<Meal>
  {
    if meals == [] then []
    else
      var last := meals[|meals| - 1];
      SeatableMeals(day, span, meals[..|meals| - 1]) + (if Seatable(day, span, last) then [last] else [])
  }

  function MealsOf(breaks: seq<MealBreak>): seq<Meal>
  {
    seq(|breaks|, i requires 0 <= i < |breaks| => breaks[i].meal)
  }

  /** `breaks` gives every meal this span can hold its earliest hour, and nothing else. */
  ghost predicate EarliestBreaks(day: Day, span: int, meals: seq<Meal>, breaks: seq<MealBreak>)
  {
    && MealsOf(breaks) == SeatableMeals(day, span, meals)
    && forall i | 0 <= i < |breaks| ::
         && Seats(day, span, breaks[i].meal, breaks[i].startMinute)
         && breaks[i].endMinute == breaks[i].startMinute + MEAL_BREAK_MINUTES
         && forall hour | Seats(day, span, breaks[i].meal, hour) :: breaks[i].startMinute <= hour
  }

  /** One pass over the missing meals for a fixed span start. */
  method BreaksForSpan(day: Day, span: int, missing: seq<Meal>) returns (breaks: seq<MealBreak>)
    requires Sorting.Ordered(day.occupied, BusyBefore)
    ensures EarliestBreaks(day, span, missing, breaks)
  {
    breaks := [];
    for i := 0 to |missing|
      invariant EarliestBreaks(day, span, missing[..i], breaks)
    {
      var meal := missing[i];
      var cursor := FindGap(day.occupied, Max(span, WindowStart(meal)));
      var limit := Min(day.dayEnd, Min(WindowEnd(meal), span + day.cap));
      assert missing[..i + 1][..i] == missing[..i];
      if cursor + MEAL_BREAK_MINUTES <= limit {
        assert Seats(day, span, meal, cursor);
        breaks := breaks + [MealBreak(meal, cursor, cursor + MEAL_BREAK_MINUTES)];
      }
    }
    assert missing[..|missing|] == missing;
  }

  lemma {:induction false} SeatableAtMostAll(day: Day, span: int, meals: seq<Meal>)
    ensures |SeatableMeals(day, span, meals)| <= |meals|
  {
    if meals == [] {
    } else {
      SeatableAtMostAll(day, span, meals[..|meals| - 1]);
    }
  }

  function BusyOf(stops: seq<TimedStop>): seq<Busy>
  {
    seq(|stops|, i requires 0 <= i < |stops| =>
      Busy(stops[i].startMinute - stops[i].transitFromPrevMin, stops[i].endMinute))
  }

  /** Some stop of the day is this meal. */
  predicate Held(stops: seq<TimedStop>, meal: Meal)
  {
    exists s | s in stops :: s.mealSlot == Some(meal)
  }

  /** The required meals that none is. */
  function MissingMeals(stops: seq<TimedStop>, required: seq<Meal>): seq<Meal>
  {
    if required == [] then []
    else
      (if Held(stops, required[0]) then [] else [required[0]])
      + MissingMeals(stops, required[1..])
  }

  function LastRight(occupied: seq<Busy>, default: int): int
  {
    if occupied == [] then default
    else if |occupied| == 1 then occupied[0].right
    else Max(occupied[0].right, LastRight(occupied[1..], default))
  }

  function FirstLeft(occupied: seq<Busy>, default: int): int
  {
    if occupied == [] then default
    else if |occupied| == 1 then occupied[0].left
    else Min(occupied[0].left, FirstLeft(occupied[1..], default))
  }

  /** Span starts from which the cap reaches the end of the last visit ... */
  function EarliestSpan(occupied: seq<Busy>, dayStart: int, cap: int): int
  {
    Max(dayStart, LastRight(occupied, dayStart) - cap)
  }

  /** ... and which do not start after the first visit's transit. */
  function LatestSpan(occupied: seq<Busy>, dayEnd: int): int
  {
    Min(FirstLeft(occupied, dayEnd), dayEnd)
  }

  /** The span starts the search tries. */
  predicate Tried(day: Day, dayStart: int, span: int)
  {
    && Aligned(span)
    && CeilSlot(EarliestSpan(day.occupied, dayStart, day.cap)) <= span <= LatestSpan(day.occupied, day.dayEnd)
  }

  function DayOf(stops: seq<TimedStop>, dayEnd: int, cap: int): Day
  {
    Day(Sorting.Sort(BusyOf(stops), BusyBefore), dayEnd, cap)
  }

  /** The breaks come from the first tried span that holds as many meals as any tried span. */
  ghost predicate FirstBest(day: Day, dayStart: int, missing: seq<Meal>, span: int, breaks: seq<MealBreak>)
  {
    && Tried(day, dayStart, span)
    && EarliestBreaks(day, span, missing, breaks)
    && forall other | Tried(day, dayStart, other) && other < span :: |SeatableMeals(day, other, missing)| < |breaks|
  }

  /** `best` is the most a tried start holds, and nothing if none is tried. */
  ghost predicate MostTried(day: Day, dayStart: int, missing: seq<Meal>, best: nat)
  {
    && (forall s | Tried(day, dayStart, s) :: |SeatableMeals(day, s, missing)| <= best)
    && (best > 0 ==> exists s :: Tried(day, dayStart, s) && |SeatableMeals(day, s, missing)| == best)
  }

  /** The walk over the span starts. */
  method SearchSpans(day: Day, dayStart: int, missing: seq<Meal>) returns (best: seq<MealBreak>)
    requires Sorting.Ordered(day.occupied, BusyBefore)
    ensures best != [] ==> exists span :: FirstBest(day, dayStart, missing, span, best)
    ensures MostTried(day, dayStart, missing, |best|)
  {
    var span := CeilSlot(EarliestSpan(day.occupied, dayStart, day.cap));
    CeilSlotLeast(EarliestSpan(day.occupied, dayStart, day.cap));
    var last := LatestSpan(day.occupied, day.dayEnd);
    best := [];
    ghost var found := span;
    while span <= last
      invariant Aligned(span)
      invariant CeilSlot(EarliestSpan(day.occupied, dayStart, day.cap)) <= span
      invariant best != [] ==> FirstBest(day, dayStart, missing, found, best)
      invariant forall s | Tried(day, dayStart, s) && s < span :: |SeatableMeals(day, s, missing)| <= |best|
      decreases last - span
    {
      var breaks := BreaksForSpan(day, span, missing);
      assert |MealsOf(breaks)| == |breaks|;
      if |breaks| > |best| {
        best, found := breaks, span;
      }
      assert best != [] ==> FirstBest(day, dayStart, missing, found, best);
      if |best| == |missing| {
        forall s | Tried(day, dayStart, s) ensures |SeatableMeals(day, s, missing)| <= |best| {
          SeatableAtMostAll(day, s, missing);
        }
        return;
      }
      span := span + SCHEDULE_QUANTUM_MINUTES;
    }
  }

  // ----- what that means for a day's stops -----

  /** A stretch of `cap` minutes from `span` lies in the day so far as it begins, and takes in every
      visit with the transit leading to it. */
  predicate Spans(stops: seq<TimedStop>, dayStart: int, dayEnd: int, cap: int, span: int)
  {
    && dayStart <= span <= dayEnd
    && (stops == [] ==> dayStart <= span + cap)
    && forall s | s in stops :: span <= s.startMinute - s.transitFromPrevMin && s.endMinute <= span + cap
  }

  /** The hour from `hour` on lies in the stretch, the day and the meal's window, clear of every visit
      and every transit. */
  predicate HourFor(stops: seq<TimedStop>, dayEnd: int, cap: int, span: int, meal: Meal, hour: int)
  {
    && Aligned(hour)
    && span <= hour && hour + MEAL_BREAK_MINUTES <= span + cap && hour + MEAL_BREAK_MINUTES <= dayEnd
    && WindowStart(meal) <= hour && hour + MEAL_BREAK_MINUTES <= WindowEnd(meal)
    && forall s | s in stops :: s.endMinute <= hour || hour + MEAL_BREAK_MINUTES <= s.startMinute - s.transitFromPrevMin
  }

  ghost predicate CanHold(stops: seq<TimedStop>, dayEnd: int, cap: int, span: int, meal: Meal)
  {
    exists hour :: HourFor(stops, dayEnd, cap, span, meal, hour)
  }

  /** The required meals that no stop is and the stretch has an hour for. */
  ghost function Holdable(stops: seq<TimedStop>, dayEnd: int, cap: int, span: int): set<Meal>
  {
    set meal | meal in REQUIRED_MEALS && !Held(stops, meal) && CanHold(stops, dayEnd, cap, span, meal)
  }

  /** The breaks give each of these meals its earliest hour, in the order of the day. */
  ghost predicate Reserves(stops: seq<TimedStop>, dayEnd: int, cap: int, span: int, breaks: seq<MealBreak>)
  {
    && (forall meal :: meal in Holdable(stops, dayEnd, cap, span) <==> exists b :: b in breaks && b.meal == meal)
    && (forall i, j | 0 <= i < j < |breaks| :: WindowStart(breaks[i].meal) < WindowStart(breaks[j].meal))
    && (forall b | b in breaks ::
          && HourFor(stops, dayEnd, cap, span, b.meal, b.startMinute)
          && b.endMinute == b.startMinute + MEAL_BREAK_MINUTES
          && forall hour | HourFor(stops, dayEnd, cap, span, b.meal, hour) :: b.startMinute <= hour)
  }

  /** The breaks are those of the first grid start whose stretch holds the most meals. */
  ghost predicate FirstMost(stops: seq<TimedStop>, dayStart: int, dayEnd: int, cap: int, span: int, breaks: seq<MealBreak>)
  {
    && Aligned(span) && Spans(stops, dayStart, dayEnd, cap, span) && Reserves(stops, dayEnd, cap, span, breaks)
    && forall other | Aligned(other) && other < span && Spans(stops, dayStart, dayEnd, cap, other) ::
         |Holdable(stops, dayEnd, cap, other)| < |breaks|
  }

  lemma {:induction false} LastRightReached(occupied: seq<Busy>, default: int)
    ensures occupied == [] ==> LastRight(occupied, default) == default
    ensures occupied != [] ==> exists b :: b in occupied && b.right == LastRight(occupied, default)
    ensures forall b | b in occupied :: b.right <= LastRight(occupied, default)
  {
    if |occupied| <= 1 {
      assert occupied != [] ==> occupied[0] in occupied;
    } else {
      LastRightReached(occupied[1..], default);
      assert occupied == [occupied[0]] + occupied[1..];
      var b :| b in occupied[1..] && b.right == LastRight(occupied[1..], default);
      assert b in occupied && occupied[0] in occupied;
    }
  }

  lemma {:induction false} FirstLeftReached(occupied: seq<Busy>, default: int)
    ensures occupied == [] ==> FirstLeft(occupied, default) == default
    ensures occupied != [] ==> exists b :: b in occupied && b.left == FirstLeft(occupied, default)
    ensures forall b | b in occupied :: FirstLeft(occupied, default) <= b.left
  {
    if |occupied| <= 1 {
      assert occupied != [] ==> occupied[0] in occupied;
    } else {
      FirstLeftReached(occupied[1..], default);
      assert occupied == [occupied[0]] + occupied[1..];
      var b :| b in occupied[1..] && b.left == FirstLeft(occupied[1..], default);
      assert b in occupied && occupied[0] in occupied;
    }
  }

  lemma BusyMembers(stops: seq<TimedStop>, dayEnd: int, cap: int)
    ensures var occupied := DayOf(stops, dayEnd, cap).occupied;
      && (occupied == [] <==> stops == [])
      && (forall b | b in occupied :: exists s :: s in stops && b == Busy(s.startMinute - s.transitFromPrevMin, s.endMinute))
      && (forall s | s in stops :: Busy(s.startMinute - s.transitFromPrevMin, s.endMinute) in occupied)
  {
    var busy := BusyOf(stops);
    Sorting.SortKeeps(busy, BusyBefore);
    Sorting.SameMembers(busy, DayOf(stops, dayEnd, cap).occupied);
    forall s | s in stops ensures Busy(s.startMinute - s.transitFromPrevMin, s.endMinute) in busy {
      var k :| 0 <= k < |stops| && stops[k] == s;
      assert busy[k] in busy;
    }
  }

  /** The starts tried are the grid starts of the stretches that take in every visit, and the hours
      of a span those of such a stretch. */
  lemma SpanMeans(stops: seq<TimedStop>, dayStart: int, dayEnd: int, cap: int, span: int)
    ensures var day := DayOf(stops, dayEnd, cap);
      && (MinuteSpan(day, dayStart, span) <==> Spans(stops, dayStart, dayEnd, cap, span))
      && (Tried(day, dayStart, span) <==> Aligned(span) && Spans(stops, dayStart, dayEnd, cap, span))
  {
    var occupied := DayOf(stops, dayEnd, cap).occupied;
    BusyMembers(stops, dayEnd, cap);
    LastRightReached(occupied, dayStart);
    FirstLeftReached(occupied, dayEnd);
    CeilSlotLeast(EarliestSpan(occupied, dayStart, cap));
    if Spans(stops, dayStart, dayEnd, cap, span) {
      forall b | b in occupied ensures span <= b.left && b.right <= span + cap {
        var s :| s in stops && b == Busy(s.startMinute - s.transitFromPrevMin, s.endMinute);
      }
    }
    if MinuteSpan(DayOf(stops, dayEnd, cap), dayStart, span) {
      forall s | s in stops ensures span <= s.startMinute - s.transitFromPrevMin && s.endMinute <= span + cap {
        assert Busy(s.startMinute - s.transitFromPrevMin, s.endMinute) in occupied;
      }
    }
  }

  lemma HourMeans(stops: seq<TimedStop>, dayEnd: int, cap: int, span: int, meal: Meal, hour: int)
    ensures Seats(DayOf(stops, dayEnd, cap), span, meal, hour) <==> HourFor(stops, dayEnd, cap, span, meal, hour)
  {
    var occupied := DayOf(stops, dayEnd, cap).occupied;
    BusyMembers(stops, dayEnd, cap);
    if HourFor(stops, dayEnd, cap, span, meal, hour) {
      forall b | b in occupied ensures !(b.right > hour && b.left < hour + MEAL_BREAK_MINUTES) {
        var s :| s in stops && b == Busy(s.startMinute - s.transitFromPrevMin, s.endMinute);
      }
      forall k | 0 <= k < |occupied| ensures !(occupied[k].right > hour && occupied[k].left < hour + MEAL_BREAK_MINUTES) {
        assert occupied[k] in occupied;
      }
    }
    if Free(occupied, hour) {
      forall s | s in stops ensures s.endMinute <= hour || hour + MEAL_BREAK_MINUTES <= s.startMinute - s.transitFromPrevMin {
        assert Busy(s.startMinute - s.transitFromPrevMin, s.endMinute) in occupied;
      }
    }
  }

  lemma CanHoldIff(stops: seq<TimedStop>, dayEnd: int, cap: int, span: int, meal: Meal)
    ensures Seatable(DayOf(stops, dayEnd, cap), span, meal) <==> CanHold(stops, dayEnd, cap, span, meal)
  {
    forall hour ensures Seats(DayOf(stops, dayEnd, cap), span, meal, hour) <==> HourFor(stops, dayEnd, cap, span, meal, hour) {
      HourMeans(stops, dayEnd, cap, span, meal, hour);
    }
  }

  /** In the order of the day, each meal once. */
  predicate InDayOrder(meals: seq<Meal>)
  {
    forall i, j | 0 <= i < j < |meals| :: WindowStart(meals[i]) < WindowStart(meals[j])
  }

  lemma {:induction false} MissingMeans(stops: seq<TimedStop>, required: seq<Meal>)
    requires InDayOrder(required)
    ensures InDayOrder(MissingMeals(stops, required))
    ensures forall meal :: meal in MissingMeals(stops, required) <==> meal in required && !Held(stops, meal)
  {
    if required == [] {
    } else {
      var first, rest := required[0], MissingMeals(stops, required[1..]);
      MissingMeans(stops, required[1..]);
      assert required == [first] + required[1..];
      assert forall meal | meal in required[1..] :: WindowStart(first) < WindowStart(meal);
      assert MissingMeals(stops, required) == (if Held(stops, first) then [] else [first]) + rest;
    }
  }

  lemma {:induction false} SeatableMeans(day: Day, span: int, meals: seq<Meal>)
    requires InDayOrder(meals)
    ensures InDayOrder(SeatableMeals(day, span, meals))
    ensures forall meal :: meal in SeatableMeals(day, span, meals) <==> meal in meals && Seatable(day, span, meal)
  {
    if meals == [] {
    } else {
      var front := meals[..|meals| - 1];
      SeatableMeans(day, span, front);
      assert meals == front + [meals[|meals| - 1]];
      forall meal | meal in front ensures WindowStart(meal) < WindowStart(meals[|meals| - 1]) {
      }
    }
  }

  lemma {:induction false} OrderedSize(meals: seq<Meal>, own: set<Meal>)
    requires InDayOrder(meals) && forall meal :: meal in own <==> meal in meals
    ensures |own| == |meals|
    decreases |meals|
  {
    if meals == [] {
      assert own == {};
    } else {
      OrderedSize(meals[1..], own - {meals[0]});
      assert meals == [meals[0]] + meals[1..];
    }
  }

  /** The meals of a span, counted and in order. */
  lemma SeatableIsHoldable(stops: seq<TimedStop>, dayEnd: int, cap: int, span: int)
    ensures var seatable := SeatableMeals(DayOf(stops, dayEnd, cap), span, MissingMeals(stops, REQUIRED_MEALS));
      && InDayOrder(seatable) && |Holdable(stops, dayEnd, cap, span)| == |seatable|
      && forall meal :: meal in seatable <==> meal in Holdable(stops, dayEnd, cap, span)
  {
    var day, missing := DayOf(stops, dayEnd, cap), MissingMeals(stops, REQUIRED_MEALS);
    MissingMeans(stops, REQUIRED_MEALS);
    SeatableMeans(day, span, missing);
    forall meal ensures meal in SeatableMeals(day, span, missing) <==> meal in Holdable(stops, dayEnd, cap, span) {
      CanHoldIff(stops, dayEnd, cap, span, meal);
    }
    OrderedSize(SeatableMeals(day, span, missing), Holdable(stops, dayEnd, cap, span));
  }

  lemma EarliestReserves(stops: seq<TimedStop>, dayEnd: int, cap: int, span: int, breaks: seq<MealBreak>)
    requires EarliestBreaks(DayOf(stops, dayEnd, cap), span, MissingMeals(stops, REQUIRED_MEALS), breaks)
    ensures Reserves(stops, dayEnd, cap, span, breaks)
  {
    var meals := MealsOf(breaks);
    SeatableIsHoldable(stops, dayEnd, cap, span);
    forall meal ensures meal in Holdable(stops, dayEnd, cap, span) <==> exists b :: b in breaks && b.meal == meal {
      if meal in meals {
        var i :| 0 <= i < |meals| && meals[i] == meal;
        assert breaks[i] in breaks && breaks[i].meal == meal;
      }
      if b :| b in breaks && b.meal == meal {
        var i :| 0 <= i < |breaks| && breaks[i] == b;
        assert meals[i] == meal;
      }
    }
    forall i, j | 0 <= i < j < |breaks| ensures WindowStart(breaks[i].meal) < WindowStart(breaks[j].meal) {
      assert meals[i] == breaks[i].meal && meals[j] == breaks[j].meal;
    }
    forall meal, hour ensures Seats(DayOf(stops, dayEnd, cap), span, meal, hour) <==> HourFor(stops, dayEnd, cap, span, meal, hour) {
      HourMeans(stops, dayEnd, cap, span, meal, hour);
    }
  }

  lemma FirstBestIsFirstMost(stops: seq<TimedStop>, dayStart: int, dayEnd: int, cap: int, span: int, breaks: seq<MealBreak>)
    requires FirstBest(DayOf(stops, dayEnd, cap), dayStart, MissingMeals(stops, REQUIRED_MEALS), span, breaks)
    ensures FirstMost(stops, dayStart, dayEnd, cap, span, breaks)
  {
    SpanMeans(stops, dayStart, dayEnd, cap, span);
    EarliestReserves(stops, dayEnd, cap, span, breaks);
    forall other | Aligned(other) && other < span && Spans(stops, dayStart, dayEnd, cap, other)
      ensures |Holdable(stops, dayEnd, cap, other)| < |breaks|
    {
      SpanMeans(stops, dayStart, dayEnd, cap, other);
      SeatableIsHoldable(stops, dayEnd, cap, other);
    }
  }

  lemma MostTriedIsMost(stops: seq<TimedStop>, dayStart: int, dayEnd: int, cap: int, best: nat)
    requires MostTried(DayOf(stops, dayEnd, cap), dayStart, MissingMeals(stops, REQUIRED_MEALS), best)
    ensures forall span | Aligned(span) && Spans(stops, dayStart, dayEnd, cap, span) :: |Holdable(stops, dayEnd, cap, span)| <= best
  {
    forall span | Aligned(span) && Spans(stops, dayStart, dayEnd, cap, span) ensures |Holdable(stops, dayEnd, cap, span)| <= best {
      SpanMeans(stops, dayStart, dayEnd, cap, span);
      SeatableIsHoldable(stops, dayEnd, cap, span);
    }
  }

  /** Only for required meals that no stop is, one capped stretch takes in every visit and every break;
      no stretch from the grid has hours for more meals, no earlier one for as many, and each meal
      gets its earliest hour in it. */
  method AvailableMealBreaks(stops: seq<TimedStop>, dayStart: int, dayEnd: int, durationCapMinutes: int)
    returns (best: seq<MealBreak>)
    ensures forall b | b in best :: b.meal in REQUIRED_MEALS && forall s | s in stops :: s.mealSlot != Some(b.meal)
    ensures best != [] ==> exists span :: FirstMost(stops, dayStart, dayEnd, durationCapMinutes, span, best)
    ensures forall span | Aligned(span) && Spans(stops, dayStart, dayEnd, durationCapMinutes, span) ::
      |Holdable(stops, dayEnd, durationCapMinutes, span)| <= |best|
  {
    var day := DayOf(stops, dayEnd, durationCapMinutes);
    Sorting.SortOrders(BusyOf(stops), BusyBefore);
    best := SearchSpans(day, dayStart, MissingMeals(stops, REQUIRED_MEALS));
    MostTriedIsMost(stops, dayStart, dayEnd, durationCapMinutes, |best|);
    if best != [] {
      ghost var span :| FirstBest(day, dayStart, MissingMeals(stops, REQUIRED_MEALS), span, best);
      FirstBestIsFirstMost(stops, dayStart, dayEnd, durationCapMinutes, span, best);
      forall b | b in best ensures b.meal in REQUIRED_MEALS && forall s | s in stops :: s.mealSlot != Some(b.meal) {
        assert b.meal in Holdable(stops, dayEnd, durationCapMinutes, span);
      }
    }
  }

  lemma {:induction false} BoundsOfBusy(occupied: seq<Busy>, default: int, k: nat)
    requires k < |occupied|
    ensures FirstLeft(occupied, default) <= occupied[k].left && occupied[k].right <= LastRight(occupied, default)
  {
    if |occupied| > 1 && k > 0 {
      BoundsOfBusy(occupied[1..], default, k - 1);
    }
  }

  /** Whatever span is tried, every visit, its incoming transit and every hour it holds lie
      inside one stretch no longer than the cap, each hour inside its meal window and clear
      of every visit. */
  lemma OneCappedSpan(stops: seq<TimedStop>, dayStart: int, dayEnd: int, cap: int, span: int, k: nat, meal: Meal, hour: int)
    requires Tried(DayOf(stops, dayEnd, cap), dayStart, span) && k < |stops|
    requires Seats(DayOf(stops, dayEnd, cap), span, meal, hour)
    ensures span <= stops[k].startMinute - stops[k].transitFromPrevMin && stops[k].endMinute <= span + cap
    ensures dayStart <= span <= hour && hour + MEAL_BREAK_MINUTES <= span + cap
    ensures WindowStart(meal) <= hour && hour + MEAL_BREAK_MINUTES <= WindowEnd(meal)
    ensures hour + MEAL_BREAK_MINUTES <= stops[k].startMinute - stops[k].transitFromPrevMin || stops[k].endMinute <= hour
  {
    var busy := BusyOf(stops);
    var day := DayOf(stops, dayEnd, cap);
    Sorting.SortKeeps(busy, BusyBefore);
    Sorting.SameMembers(busy, day.occupied);
    assert busy[k] in busy;
    var j :| 0 <= j < |day.occupied| && day.occupied[j] == busy[k];
    BoundsOfBusy(day.occupied, dayStart, j);
    BoundsOfBusy(day.occupied, dayEnd, j);
    CeilSlotLeast(EarliestSpan(day.occupied, dayStart, cap));
  }

  /** A span start on the minute, not only on the grid. */
  predicate MinuteSpan(day: Day, dayStart: int, span: int)
  {
    EarliestSpan(day.occupied, dayStart, day.cap) <= span <= LatestSpan(day.occupied, day.dayEnd)
  }

  /** With a cap on the grid, some tried span holds every hour a minute-level span holds,
      as soon as any span is tried at all. */
  lemma GridSpanDominates(day: Day, dayStart: int, span: int) returns (grid: int)
    requires Aligned(day.cap) && MinuteSpan(day, dayStart, span)
    requires exists s :: Tried(day, dayStart, s)
    ensures Tried(day, dayStart, grid)
    ensures forall meal, hour | Seats(day, span, meal, hour) :: Seats(day, grid, meal, hour)
  {
    var earliest := EarliestSpan(day.occupied, dayStart, day.cap);
    var floor := span - span % SCHEDULE_QUANTUM_MINUTES;
    CeilSlotLeast(earliest);
    grid := if floor >= earliest then floor else CeilSlot(earliest);
    forall meal, hour | Seats(day, span, meal, hour) ensures Seats(day, grid, meal, hour) {
      assert Aligned(hour + MEAL_BREAK_MINUTES);
      if floor < earliest {
        CeilSlotLeast(span);
      }
    }
  }

  lemma {:induction false} SeatableGrows(day: Day, a: int, b: int, meals: seq<Meal>)
    requires forall meal | Seatable(day, a, meal) :: Seatable(day, b, meal)
    ensures |SeatableMeals(day, a, meals)| <= |SeatableMeals(day, b, meals)|
  {
    if meals == [] {
    } else {
      SeatableGrows(day, a, b, meals[..|meals| - 1]);
    }
  }

  /** So trying grid starts only loses nothing: if one start is tried, no span start on any
      minute holds more meals than the best tried one. */
  lemma GridSearchIsComplete(day: Day, dayStart: int, missing: seq<Meal>, best: nat, span: int)
    requires Aligned(day.cap) && MinuteSpan(day, dayStart, span)
    requires exists s :: Tried(day, dayStart, s)
    requires forall s | Tried(day, dayStart, s) :: |SeatableMeals(day, s, missing)| <= best
    ensures |SeatableMeals(day, span, missing)| <= best
  {
    var grid := GridSpanDominates(day, dayStart, span);
    forall meal | Seatable(day, span, meal) ensures Seatable(day, grid, meal) {
      var hour :| Seats(day, span, meal, hour);
      assert Seats(day, grid, meal, hour);
    }
    SeatableGrows(day, span, grid, missing);
  }

  /** No span start on any minute holds more than `best` meals. */
  ghost predicate NothingLost(day: Day, dayStart: int, missing: seq<Meal>, best: nat)
  {
    forall span | MinuteSpan(day, dayStart, span) :: |SeatableMeals(day, span, missing)| <= best
  }

  /** Between two grid minutes all span starts hold the same hours as the latest of them. */
  lemma OffGridStartsAgree(day: Day, dayStart: int, span: int, meal: Meal)
    requires Aligned(day.cap) && MinuteSpan(day, dayStart, span)
    requires forall s :: !Tried(day, dayStart, s)
    ensures Seatable(day, span, meal) ==> Seatable(day, LatestSpan(day.occupied, day.dayEnd), meal)
  {
    var earliest, latest := EarliestSpan(day.occupied, dayStart, day.cap), LatestSpan(day.occupied, day.dayEnd);
    CeilSlotLeast(earliest);
    assert !Tried(day, dayStart, CeilSlot(earliest));
    if hour :| Seats(day, span, meal, hour) {
      assert CeilSlot(earliest) <= hour && Aligned(hour + MEAL_BREAK_MINUTES);
      assert Seats(day, latest, meal, hour);
    }
  }

  /** Trying grid starts only loses a meal exactly when no start is tried at all although some
      minute would do, and the latest such minute holds a meal. */
  lemma NothingLostIff(day: Day, dayStart: int, missing: seq<Meal>, best: nat)
    requires Aligned(day.cap) && MostTried(day, dayStart, missing, best)
    ensures var latest := LatestSpan(day.occupied, day.dayEnd);
      NothingLost(day, dayStart, missing, best) <==>
        || (exists s :: Tried(day, dayStart, s))
        || latest < EarliestSpan(day.occupied, dayStart, day.cap)
        || SeatableMeals(day, latest, missing) == []
  {
    var latest := LatestSpan(day.occupied, day.dayEnd);
    if exists s :: Tried(day, dayStart, s) {
      forall span | MinuteSpan(day, dayStart, span) ensures |SeatableMeals(day, span, missing)| <= best {
        GridSearchIsComplete(day, dayStart, missing, best, span);
      }
    } else if EarliestSpan(day.occupied, dayStart, day.cap) <= latest {
      assert MinuteSpan(day, dayStart, latest) && best == 0;
      forall span | MinuteSpan(day, dayStart, span)
        ensures |SeatableMeals(day, span, missing)| <= |SeatableMeals(day, latest, missing)|
      {
        forall meal | Seatable(day, span, meal) ensures Seatable(day, latest, meal) {
          OffGridStartsAgree(day, dayStart, span, meal);
        }
        SeatableGrows(day, span, latest, missing);
      }
    }
  }

  lemma {:induction false} LastRightAligned(occupied: seq<Busy>, default: int)
    requires Aligned(default) && forall b | b in occupied :: Aligned(b.right)
    ensures Aligned(LastRight(occupied, default))
  {
    if |occupied| <= 1 {
    } else {
      LastRightAligned(occupied[1..], default);
    }
  }

  lemma EarliestSpanAligned(stops: seq<TimedStop>, dayStart: int, cap: int, occupied: seq<Busy>)
    requires Aligned(dayStart) && Aligned(cap) && forall s | s in stops :: Aligned(s.endMinute)
    requires occupied == Sorting.Sort(BusyOf(stops), BusyBefore)
    ensures Aligned(EarliestSpan(occupied, dayStart, cap))
  {
    Sorting.SortKeeps(BusyOf(stops), BusyBefore);
    Sorting.SameMembers(BusyOf(stops), occupied);
    forall b | b in occupied ensures Aligned(b.right) {
      assert b in BusyOf(stops);
    }
    LastRightAligned(occupied, dayStart);
  }

  /** A timetable whose day start, cap and visit ends lie on the grid, as published ones do, never
      loses a meal: if any minute will do for a start, the earliest one is on the grid. */
  lemma PublishedDaysLoseNothing(stops: seq<TimedStop>, dayStart: int, dayEnd: int, cap: int, missing: seq<Meal>, best: nat)
    requires Aligned(dayStart) && Aligned(cap) && forall s | s in stops :: Aligned(s.endMinute)
    requires MostTried(DayOf(stops, dayEnd, cap), dayStart, missing, best)
    ensures NothingLost(DayOf(stops, dayEnd, cap), dayStart, missing, best)
  {
    var day := DayOf(stops, dayEnd, cap);
    var earliest := EarliestSpan(day.occupied, dayStart, cap);
    EarliestSpanAligned(stops, dayStart, cap, day.occupied);
    assert CeilSlot(earliest) == earliest;
    if earliest <= LatestSpan(day.occupied, dayEnd) {
      assert Tried(day, dayStart, earliest);
    }
    NothingLostIff(day, dayStart, missing, best);
  }

  /** Two visits from 08:20 to 20:10 with ten minutes of transit to each, as an older row may hold
      them, fill a twelve-hour cap exactly. Lunch fits at 11:00 in a span from 08:10, which is the
      only start there is, and it is not on the grid. */
  lemma NoGridStart(stops: seq<TimedStop>)
    requires stops == [TimedStop(500, 550, 10, None), TimedStop(1160, 1210, 10, None)]
    ensures var day := DayOf(stops, 1260, 720);
      && MissingMeals(stops, REQUIRED_MEALS) == [Lunch, Dinner]
      && (forall s :: !Tried(day, 480, s))
      && (forall s :: MinuteSpan(day, 480, s) <==> s == 490) && Seats(day, 490, Lunch, 660)
  {
    var first, second := Busy(490, 550), Busy(1150, 1210);
    assert BusyOf(stops) == [first, second] && [first, second][1..] == [second];
    assert Sorting.Sort([second], BusyBefore) == [second];
    var occupied := DayOf(stops, 1260, 720).occupied;
    assert occupied == [first, second];
    assert occupied[1..] == [second] && LastRight([second], 480) == 1210 && FirstLeft([second], 1260) == 1150;
    assert LastRight(occupied, 480) == 1210 && FirstLeft(occupied, 1260) == 490;
    assert REQUIRED_MEALS[1..] == [Dinner] && [Dinner][1..] == [];
    assert forall meal :: !Held(stops, meal);
    assert MissingMeals(stops, [Dinner]) == [Dinner];
  }

  /** So the search returns nothing on that day. */
  method NothingFoundOffGrid(stops: seq<TimedStop>) returns (best: seq<MealBreak>)
    requires stops == [TimedStop(500, 550, 10, None), TimedStop(1160, 1210, 10, None)]
    ensures best == [] && !NothingLost(DayOf(stops, 1260, 720), 480, MissingMeals(stops, REQUIRED_MEALS), |best|)
  {
    NoGridStart(stops);
    best := AvailableMealBreaks(stops, 480, 1260, 720);
    forall span ensures !(Aligned(span) && Spans(stops, 480, 1260, 720, span)) {
      SpanMeans(stops, 480, 1260, 720, span);
    }
    ghost var day, missing := DayOf(stops, 1260, 720), MissingMeals(stops, REQUIRED_MEALS);
    assert Seatable(day, 490, Lunch) && MinuteSpan(day, 480, 490);
    assert missing[..1] == [Lunch] && missing[..1][..0] == [] && missing[..1][0] == Lunch;
    assert SeatableMeals(day, 490, missing[..1]) == [Lunch];
    assert |SeatableMeals(day, 490, missing)| >= 1;
  }
}
