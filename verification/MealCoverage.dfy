/** Stage 1's meal constraints. */
module MealCoverage {
  // From syncinerary/agents/solver/stage1_days.py. One boolean per day and required meal says the day
  // covers that meal. The model never names a restaurant for a meal: it only bounds, for every
  // subset of the required meals, how many of them may be covered by the number of assigned
  // restaurants able to serve one of them. The theorems here say that this is exactly right.

  import opened Sums

  /** The assigned restaurants that could serve at least one meal of `subset`. */
  function Servers<Place, Meal>(placed: set<Place>, eligible: map<Place, set<Meal>>, subset: set<Meal>): set<Place>
  {
    set p | p in placed && p in eligible && eligible[p] * subset != {}
  }

  /** The constraints the model adds for one day: one inequality per non-empty subset. */
  ghost predicate SubsetConstraints<Place, Meal(!new)>(
    meals: set<Meal>, covered: set<Meal>, placed: set<Place>, eligible: map<Place, set<Meal>>)
  {
    && covered <= meals
    && forall subset: set<Meal> | subset != {} && subset <= meals ::
         |covered * subset| <= |Servers(placed, eligible, subset)|
  }

  /** `service` seats every covered meal at its own assigned restaurant able to serve it. */
  ghost predicate IsService<Place, Meal>(
    service: map<Meal, Place>, covered: set<Meal>, placed: set<Place>, eligible: map<Place, set<Meal>>)
  {
    && service.Keys == covered
    && (forall m | m in service :: service[m] in placed && service[m] in eligible && m in eligible[service[m]])
    && (forall m, n | m in service && n in service && m != n :: service[m] != service[n])
  }

  /** Hall's condition on the covered meals alone. */
  ghost predicate Hall<Place, Meal(!new)>(covered: set<Meal>, placed: set<Place>, eligible: map<Place, set<Meal>>)
  {
    forall subset: set<Meal> | subset <= covered :: |subset| <= |Servers(placed, eligible, subset)|
  }

  /** The restaurants a service uses are as many as the meals it serves. */
  lemma {:induction false} ServiceSize<Place, Meal>(
    service: map<Meal, Place>, covered: set<Meal>, placed: set<Place>, eligible: map<Place, set<Meal>>)
    requires IsService(service, covered, placed, eligible)
    ensures |covered| <= |Servers(placed, eligible, covered)|
  {
    if covered == {} {
    } else {
      var m :| m in covered;
      var p := service[m];
      var rest := map n | n in service && n != m :: service[n];
      assert rest.Keys == covered - {m};
      ServiceSize(rest, covered - {m}, placed - {p}, eligible);
      var fewer := Servers(placed - {p}, eligible, covered - {m});
      var all := Servers(placed, eligible, covered);
      assert m in eligible[p] * covered;
      forall q | q in fewer + {p} ensures q in all {
        if q != p {
          var n :| n in eligible[q] * (covered - {m});
          assert n in eligible[q] * covered;
        }
      }
      SubsetSize(fewer + {p}, all);
    }
  }

  lemma ServersGrow<Place, Meal>(placed: set<Place>, eligible: map<Place, set<Meal>>, s: set<Meal>, t: set<Meal>)
    requires s <= t
    ensures Servers(placed, eligible, s) <= Servers(placed, eligible, t)
  {
    forall p | p in Servers(placed, eligible, s) ensures p in Servers(placed, eligible, t) {
      var m :| m in eligible[p] * s;
      assert m in eligible[p] * t;
    }
  }

  /** Restricting a service to some of its meals is a service. */
  lemma RestrictService<Place, Meal>(
    service: map<Meal, Place>, covered: set<Meal>, some: set<Meal>, placed: set<Place>, eligible: map<Place, set<Meal>>)
    returns (r: map<Meal, Place>)
    requires IsService(service, covered, placed, eligible) && some <= covered
    ensures IsService(r, some, placed, eligible)
  {
    r := map m | m in some :: service[m];
  }

  /** Marrying off one meal keeps Hall's condition when every proper subset has slack. */
  lemma HallAfterOne<Place, Meal(!new)>(
    covered: set<Meal>, placed: set<Place>, eligible: map<Place, set<Meal>>, m: Meal, p: Place)
    requires m in covered
    requires forall s: set<Meal> | s != {} && s < covered :: |s| < |Servers(placed, eligible, s)|
    ensures Hall(covered - {m}, placed - {p}, eligible)
  {
    forall s: set<Meal> | s <= covered - {m}
      ensures |s| <= |Servers(placed - {p}, eligible, s)|
    {
      if s != {} {
        assert s < covered by { assert m !in s; }
        assert Servers(placed - {p}, eligible, s) == Servers(placed, eligible, s) - {p};
      }
    }
  }

  /** Serving a tight subset from its own servers leaves Hall's condition for the other meals. */
  lemma HallAfterTight<Place, Meal(!new)>(
    covered: set<Meal>, placed: set<Place>, eligible: map<Place, set<Meal>>, tight: set<Meal>)
    requires Hall(covered, placed, eligible) && tight <= covered
    requires |tight| == |Servers(placed, eligible, tight)|
    ensures Hall(covered - tight, placed - Servers(placed, eligible, tight), eligible)
  {
    var used := Servers(placed, eligible, tight);
    forall s: set<Meal> | s <= covered - tight
      ensures |s| <= |Servers(placed - used, eligible, s)|
    {
      var left := Servers(placed - used, eligible, s);
      forall q | q in Servers(placed, eligible, s + tight) ensures q in left + used {
        var n :| n in eligible[q] * (s + tight);
        assert n in eligible[q] * s || n in eligible[q] * tight;
      }
      SubsetSize(Servers(placed, eligible, s + tight), left + used);
      assert |s + tight| == |s| + |tight|;
      assert |left + used| == |left| + |used|;
    }
  }

  lemma HallWithin<Place, Meal(!new)>(
    covered: set<Meal>, placed: set<Place>, eligible: map<Place, set<Meal>>, tight: set<Meal>)
    requires Hall(covered, placed, eligible) && tight <= covered
    ensures Hall(tight, Servers(placed, eligible, tight), eligible)
  {
    forall s: set<Meal> | s <= tight
      ensures |s| <= |Servers(Servers(placed, eligible, tight), eligible, s)|
    {
      ServersGrow(placed, eligible, s, tight);
      assert Servers(Servers(placed, eligible, tight), eligible, s) == Servers(placed, eligible, s);
    }
  }

  lemma JoinServices<Place, Meal>(
    a: map<Meal, Place>, b: map<Meal, Place>, s: set<Meal>, t: set<Meal>,
    left: set<Place>, right: set<Place>, placed: set<Place>, eligible: map<Place, set<Meal>>)
    requires IsService(a, s, left, eligible) && IsService(b, t, right, eligible)
    requires s !! t && left !! right && left <= placed && right <= placed
    ensures IsService(a + b, s + t, placed, eligible)
  {
  }

  ghost predicate Tight<Place, Meal(!new)>(
    s: set<Meal>, covered: set<Meal>, placed: set<Place>, eligible: map<Place, set<Meal>>)
  {
    s != {} && s < covered && |s| >= |Servers(placed, eligible, s)|
  }

  /** Hall's theorem, the hard direction: a service exists. */
  lemma {:induction false} HallGivesService<Place, Meal(!new)>(
    covered: set<Meal>, placed: set<Place>, eligible: map<Place, set<Meal>>)
    returns (service: map<Meal, Place>)
    requires Hall(covered, placed, eligible)
    ensures IsService(service, covered, placed, eligible)
    decreases |covered|, 1
  {
    if covered == {} {
      service := map[];
    } else if tight: set<Meal> :| Tight(tight, covered, placed, eligible) {
      service := ServeTight(covered, placed, eligible, tight);
    } else {
      forall s: set<Meal> | s != {} && s < covered ensures |s| < |Servers(placed, eligible, s)| {
        assert !Tight(s, covered, placed, eligible);
      }
      service := ServeSlack(covered, placed, eligible);
    }
  }

  /** A tight subset is served from its own servers, the other meals from the rest. */
  lemma {:induction false} ServeTight<Place, Meal(!new)>(
    covered: set<Meal>, placed: set<Place>, eligible: map<Place, set<Meal>>, tight: set<Meal>)
    returns (service: map<Meal, Place>)
    requires Hall(covered, placed, eligible) && Tight(tight, covered, placed, eligible)
    ensures IsService(service, covered, placed, eligible)
    decreases |covered|, 0
  {
    var used := Servers(placed, eligible, tight);
    TightParts(covered, placed, eligible, tight);
    var a := HallGivesService(tight, used, eligible);
    var b := HallGivesService(covered - tight, placed - used, eligible);
    service := JoinTight(a, b, covered, placed, eligible, tight);
  }

  lemma JoinTight<Place, Meal(!new)>(
    a: map<Meal, Place>, b: map<Meal, Place>,
    covered: set<Meal>, placed: set<Place>, eligible: map<Place, set<Meal>>, tight: set<Meal>)
    returns (service: map<Meal, Place>)
    requires tight <= covered
    requires IsService(a, tight, Servers(placed, eligible, tight), eligible)
    requires IsService(b, covered - tight, placed - Servers(placed, eligible, tight), eligible)
    ensures IsService(service, covered, placed, eligible)
  {
    var used := Servers(placed, eligible, tight);
    JoinServices(a, b, tight, covered - tight, used, placed - used, placed, eligible);
    assert tight + (covered - tight) == covered;
    service := a + b;
  }

  lemma TightParts<Place, Meal(!new)>(
    covered: set<Meal>, placed: set<Place>, eligible: map<Place, set<Meal>>, tight: set<Meal>)
    requires Hall(covered, placed, eligible) && Tight(tight, covered, placed, eligible)
    ensures |tight| < |covered| && |covered - tight| < |covered|
    ensures Hall(tight, Servers(placed, eligible, tight), eligible)
    ensures Hall(covered - tight, placed - Servers(placed, eligible, tight), eligible)
  {
    SubsetSize(tight, covered);
    assert |covered - tight| == |covered| - |tight|;
    HallWithin(covered, placed, eligible, tight);
    HallAfterTight(covered, placed, eligible, tight);
  }

  /** Without a tight subset any one meal may take any of its servers. */
  lemma {:induction false} ServeSlack<Place, Meal(!new)>(
    covered: set<Meal>, placed: set<Place>, eligible: map<Place, set<Meal>>)
    returns (service: map<Meal, Place>)
    requires Hall(covered, placed, eligible) && covered != {}
    requires forall s: set<Meal> | s != {} && s < covered :: |s| < |Servers(placed, eligible, s)|
    ensures IsService(service, covered, placed, eligible)
    decreases |covered|, 0
  {
    var m :| m in covered;
    assert |{m}| <= |Servers(placed, eligible, {m})|;
    var p :| p in Servers(placed, eligible, {m});
    HallAfterOne(covered, placed, eligible, m, p);
    var rest := HallGivesService(covered - {m}, placed - {p}, eligible);
    var first: map<Meal, Place> := map[m := p];
    assert IsService(first, {m}, {p}, eligible);
    JoinServices(first, rest, {m}, covered - {m}, {p}, placed - {p}, placed, eligible);
    assert {m} + (covered - {m}) == covered;
    service := first + rest;
  }

  /** The subset constraints allow a set of covered meals exactly when distinct placed
      restaurants able to serve them exist. */
  lemma SubsetConstraintsAreExact<Place, Meal(!new)>(
    meals: set<Meal>, covered: set<Meal>, placed: set<Place>, eligible: map<Place, set<Meal>>)
    requires covered <= meals
    ensures SubsetConstraints(meals, covered, placed, eligible)
       <==> exists service: map<Meal, Place> :: IsService(service, covered, placed, eligible)
  {
    if SubsetConstraints(meals, covered, placed, eligible) {
      forall s: set<Meal> | s <= covered ensures |s| <= |Servers(placed, eligible, s)| {
        assert covered * s == s;
      }
      var service := HallGivesService(covered, placed, eligible);
    }
    if service: map<Meal, Place> :| IsService(service, covered, placed, eligible) {
      forall s: set<Meal> | s != {} && s <= meals
        ensures |covered * s| <= |Servers(placed, eligible, s)|
      {
        var r := RestrictService(service, covered, covered * s, placed, eligible);
        ServiceSize(r, covered * s, placed, eligible);
        ServersGrow(placed, eligible, covered * s, s);
        SubsetSize(Servers(placed, eligible, covered * s), Servers(placed, eligible, s));
      }
    }
  }

  /** One trip day as the meal variables see it: the restaurants the plan puts on it, and
      which required meals each could sit inside that day. */
  datatype Menu<Place, Meal> = Menu(placed: set<Place>, eligible: map<Place, set<Meal>>)

  ghost predicate Feasible<Place, Meal(!new)>(meals: set<Meal>, covered: seq<set<Meal>>, menus: seq<Menu<Place, Meal>>)
  {
    && |covered| == |menus|
    && forall d | 0 <= d < |menus| :: SubsetConstraints(meals, covered[d], menus[d].placed, menus[d].eligible)
  }

  /** The meal terms of the objective: a fixed price for each uncovered day and meal. */
  function MissPenalty<Meal>(meals: set<Meal>, covered: seq<set<Meal>>, price: nat): nat
  {
    if covered == [] then 0 else price * |meals - covered[0]| + MissPenalty(meals, covered[1..], price)
  }

  lemma {:induction false} PenaltyOfUpdate<Meal>(meals: set<Meal>, covered: seq<set<Meal>>, price: nat, d: nat, c: set<Meal>)
    requires d < |covered|
    ensures MissPenalty(meals, covered[d := c], price)
         == MissPenalty(meals, covered, price) - price * |meals - covered[d]| + price * |meals - c|
  {
    if d == 0 {
      assert covered[0 := c][1..] == covered[1..];
    } else {
      PenaltyOfUpdate(meals, covered[1..], price, d - 1, c);
      assert covered[d := c][1..] == covered[1..][d - 1 := c];
    }
  }

  /** With the placements fixed, a cheapest choice of the meal booleans covers, day by day, as
      many meals as any seating of distinct restaurants serves, and is itself such a seating:
      the penalty prices exactly the meals a maximum matching leaves unserved. */
  lemma CheapestCoverIsMaximumMatching<Place, Meal(!new)>(
    meals: set<Meal>, covered: seq<set<Meal>>, menus: seq<Menu<Place, Meal>>, price: nat,
    d: nat, served: set<Meal>, seating: map<Meal, Place>)
    requires price > 0
    requires Feasible(meals, covered, menus)
    requires forall other | Feasible(meals, other, menus) ::
               MissPenalty(meals, covered, price) <= MissPenalty(meals, other, price)
    requires d < |menus| && served <= meals
    requires IsService(seating, served, menus[d].placed, menus[d].eligible)
    ensures |meals - covered[d]| <= |meals - served|
    ensures exists own: map<Meal, Place> :: IsService(own, covered[d], menus[d].placed, menus[d].eligible)
  {
    SubsetConstraintsAreExact(meals, covered[d], menus[d].placed, menus[d].eligible);
    SubsetConstraintsAreExact(meals, served, menus[d].placed, menus[d].eligible);
    ReplaceDay(meals, covered, menus, d, served);
    PenaltyOfUpdate(meals, covered, price, d, served);
    CancelPrice(price, |meals - covered[d]|, |meals - served|);
  }

  lemma ReplaceDay<Place, Meal(!new)>(
    meals: set<Meal>, covered: seq<set<Meal>>, menus: seq<Menu<Place, Meal>>, d: nat, served: set<Meal>)
    requires Feasible(meals, covered, menus) && d < |menus|
    requires SubsetConstraints(meals, served, menus[d].placed, menus[d].eligible)
    ensures Feasible(meals, covered[d := served], menus)
  {
  }

  lemma CancelPrice(price: nat, a: nat, b: nat)
    requires price > 0 && price * a <= price * b
    ensures a <= b
  {
    assert price * b - price * a == price * (b - a);
  }
}
