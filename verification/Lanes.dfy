/** The two discovery lanes share every budget (`lane_slots` in syncinerary/config/gather.py). */
module Lanes {
  datatype Slots = Slots(trending: nat, forYou: nat)

  /** Seven tenths, rounded up, for Trending; the rest for For You. */
  function LaneSlots(budget: nat): (r: Slots)
    ensures r.trending + r.forYou == budget && 10 * r.trending - 10 < 7 * budget <= 10 * r.trending
  {
    var trending := (7 * budget + 9) / 10;
    Slots(trending, budget - trending)
  }
}
