/** The publication grid and the meal windows (syncinerary/config/schedule.py,
    syncinerary/config/solver.py).

    Published times lie on a grid of half hours; `CeilSlot` rounds up to it. Meals have fixed windows
    on the local clock. `Option`, `Max` and `Min` are here because every other module uses them. */
module Schedule {
  datatype Option<+T> = None | Some(value: T)

  datatype Meal = Breakfast | Lunch | Dinner

  const SCHEDULE_QUANTUM_MINUTES := 30
  const REQUIRED_MEALS: seq<Meal> := [Lunch, Dinner]

  /** Local-clock window of a meal, in minutes past midnight. */
  function WindowStart(meal: Meal): int
  {
    match meal case Breakfast => 7 * 60 case Lunch => 11 * 60 case Dinner => 17 * 60
  }

  function WindowEnd(meal: Meal): int
  {
    match meal case Breakfast => 10 * 60 case Lunch => 15 * 60 case Dinner => 21 * 60
  }

  /** The windows of breakfast, lunch and dinner follow one another with time between them. */
  lemma WindowsFollow()
    ensures 0 <= WindowStart(Breakfast) < WindowEnd(Breakfast) < WindowStart(Lunch)
    ensures WindowStart(Lunch) < WindowEnd(Lunch) < WindowStart(Dinner) < WindowEnd(Dinner) < 24 * 60
  {
  }

  predicate Aligned(minute: int) { minute % SCHEDULE_QUANTUM_MINUTES == 0 }

  function CeilSlot(minute: int): int
  {
    (minute + 29) / SCHEDULE_QUANTUM_MINUTES * SCHEDULE_QUANTUM_MINUTES
  }

  /** `CeilSlot` is the least grid minute at or after its argument. */
  lemma CeilSlotLeast(minute: int)
    ensures Aligned(CeilSlot(minute)) && minute <= CeilSlot(minute)
    ensures forall slot | Aligned(slot) && minute <= slot :: CeilSlot(minute) <= slot
  {
  }

  function Max(a: int, b: int): int { if a < b then b else a }

  function Min(a: int, b: int): int { if b < a then b else a }
}
