/** Drawing a pool from dense clusters (`select_dense_pool` in syncinerary/agents/gather/live.py).

    The clusters dense enough for a day, or all of them when none is, are mixed and read in turn; what
    is left of the limit is filled with the other candidates in their own order. */
module PoolSelection {
  import opened Schedule
  import opened Sums
  import opened Lists
  import opened Pool
  import opened DensePool
  import opened DayMix
  import Sorting

  predicate Dense(cluster: seq<Card>) { |cluster| >= MIN_STOPS_PER_DAY }

  function Chosen(clusters: seq<seq<Card>>, days: nat): seq<seq<Card>>
  {
    var dense := Where(clusters, Dense);
    Take(if dense != [] then dense else clusters, days)
  }

  /** How many days each chosen cluster has to serve, rounded up. */
  function DaysPerCluster(chosen: nat, days: nat): nat
  {
    if chosen == 0 then 1 else (days + chosen - 1) / chosen
  }

  function MixedAll(chosen: seq<seq<Card>>, days: nat): seq<seq<Card>>
  {
    seq(|chosen|, i requires 0 <= i < |chosen| => Mixed(chosen[i], days))
  }

  ghost function Active(d: Distance, candidates: seq<Card>, days: nat): seq<seq<Card>>
    requires SelfZero(d)
  {
    var chosen := Chosen(Clusters(d, candidates), days);
    MixedAll(chosen, DaysPerCluster(|chosen|, days))
  }

  /** Every candidate, in the order the pool takes them. */
  ghost function PoolOrder(d: Distance, candidates: seq<Card>, days: nat): seq<Card>
    requires SelfZero(d)
  {
    var inTurn := Rounds(Active(d, candidates, days), 0);
    inTurn + Others(candidates, inTurn)
  }

  /** What `select_dense_pool` returns. */
  ghost function DensePoolOf(d: Distance, candidates: seq<Card>, days: int, limit: int): seq<Card>
    requires SelfZero(d)
  {
    if days <= 0 || limit <= 0 then [] else Take(PoolOrder(d, candidates, days), limit)
  }

  lemma {:induction false} RowGrows(lists: seq<seq<Card>>, offset: nat, j: nat)
    requires j < |lists|
    ensures Row(lists[..j + 1], offset) == Row(lists[..j], offset) + if offset < |lists[j]| then [lists[j][offset]] else []
    ensures Row(lists[..j + 1], offset) <= Row(lists, offset)
  {
    if j == 0 {
      assert lists[..1][1..] == [] && lists[..0] == [];
    } else {
      RowGrows(lists[1..], offset, j - 1);
      assert lists[1..][..j] == lists[..j + 1][1..] && lists[1..][..j - 1] == lists[..j][1..];
    }
  }

  /** One pass over the clusters, cut short when the limit is reached. */
  method TakeRow(active: seq<seq<Card>>, offset: nat, before: seq<Card>, limit: nat) returns (selected: seq<Card>, added: bool)
    requires |before| < limit
    ensures selected == Take(before + Row(active, offset), limit)
    ensures |selected| < limit ==> (added <==> Row(active, offset) != [])
  {
    selected, added := before, false;
    for j := 0 to |active|
      invariant selected == before + Row(active[..j], offset) && |selected| < limit
      invariant added <==> Row(active[..j], offset) != []
    {
      RowGrows(active, offset, j);
      if offset < |active[j]| {
        selected := selected + [active[j][offset]];
        added := true;
        if |selected| == limit {
          assert selected == before + Row(active[..j + 1], offset);
          return;
        }
      }
    }
    assert active[..|active|] == active;
  }

  /** What one more row makes of the reading so far. */
  lemma RowTaken(active: seq<seq<Card>>, offset: nat, whole: seq<Card>, before: seq<Card>, after: seq<Card>, limit: nat)
    requires before + Rounds(active, offset) == whole && |before| < limit && after == Take(before + Row(active, offset), limit)
    ensures |after| == limit ==> after == Take(whole, limit)
    ensures |after| < limit && Row(active, offset) == [] ==> after == whole
    ensures |after| < limit && Row(active, offset) != [] ==> after + Rounds(active, offset + 1) == whole
  {
    var row := Row(active, offset);
    if row != [] {
      assert whole == (before + row) + Rounds(active, offset + 1);
    }
  }

  method TakeInTurn(active: seq<seq<Card>>, limit: nat) returns (selected: seq<Card>)
    ensures selected == Take(Rounds(active, 0), limit)
  {
    selected := [];
    var offset := 0;
    ghost var whole := Rounds(active, 0);
    while |selected| < limit
      invariant |selected| < limit ==> selected + Rounds(active, offset) == whole
      invariant |selected| >= limit ==> selected == Take(whole, limit)
      decreases limit - |selected|
    {
      ghost var before := selected;
      var added;
      selected, added := TakeRow(active, offset, selected, limit);
      RowTaken(active, offset, whole, before, selected, limit);
      if |selected| < limit && !added {
        break;
      }
      offset := offset + 1;
    }
  }

  lemma OthersGrow(candidates: seq<Card>, base: seq<Card>, ids: set<nat>, i: nat, selected: seq<Card>)
    requires i < |candidates| && ids == IdsOf(base) && selected == base + Others(candidates[..i], base)
    ensures base + Others(candidates[..i + 1], base) == selected + if candidates[i].id !in ids then [candidates[i]] else []
  {
    WhereGrows(candidates, IdNotIn(ids), i);
  }

  lemma FrontTaken(candidates: seq<Card>, base: seq<Card>, n: nat, selected: seq<Card>)
    requires n <= |candidates| && selected == base + Others(candidates[..n], base)
    ensures selected == Take(base + Others(candidates, base), |selected|)
  {
    WherePrefix(candidates, IdNotIn(IdsOf(base)), n);
  }

  /** Add the candidates not selected yet, in order, until the limit is reached. */
  method FillUp(candidates: seq<Card>, base: seq<Card>, limit: nat) returns (selected: seq<Card>)
    requires |base| < limit
    ensures selected == Take(base + Others(candidates, base), limit)
  {
    var ids := IdsOf(base);
    selected := base;
    for i := 0 to |candidates|
      invariant selected == base + Others(candidates[..i], base) && |selected| < limit
    {
      OthersGrow(candidates, base, ids, i, selected);
      if candidates[i].id !in ids {
        selected := selected + [candidates[i]];
        if |selected| == limit {
          FrontTaken(candidates, base, i + 1, selected);
          return;
        }
      }
    }
    assert candidates[..|candidates|] == candidates;
  }

  method MixEach(chosen: seq<seq<Card>>, days: nat) returns (active: seq<seq<Card>>)
    ensures active == MixedAll(chosen, days)
  {
    active := [];
    for i := 0 to |chosen|
      invariant |active| == i && forall k | 0 <= k < i :: active[k] == Mixed(chosen[k], days)
    {
      var mixed := MixDayTypes(chosen[i], days);
      active := active + [mixed];
    }
  }

  method SelectDensePool(d: Distance, candidates: seq<Card>, days: int, limit: int) returns (selected: seq<Card>)
    requires SelfZero(d)
    ensures selected == DensePoolOf(d, candidates, days, limit)
  {
    if days <= 0 || limit <= 0 {
      return [];
    }
    var clusters := DenseClusters(d, candidates);
    var chosen := Chosen(clusters, days);
    var active := MixEach(chosen, DaysPerCluster(|chosen|, days));
    selected := TakeInTurn(active, limit);
    if |selected| == limit {
      return;
    }
    selected := FillUp(candidates, selected, limit);
  }

  // ----- the order is a rearrangement of the candidates -----

  /** Dropping clusters, by a condition or from the end, leaves a part of the cards. */
  lemma {:induction false} ConcatWhere(lists: seq<seq<Card>>, p: seq<Card> -> bool)
    ensures multiset(Concat(Where(lists, p))) <= multiset(Concat(lists))
  {
    if lists == [] {
    } else {
      ConcatWhere(lists[1..], p);
      ConcatCons(lists[0], lists[1..]);
      ConcatCons(lists[0], Where(lists[1..], p));
      assert lists == [lists[0]] + lists[1..];
    }
  }

  lemma ConcatTake(lists: seq<seq<Card>>, n: nat)
    ensures multiset(Concat(Take(lists, n))) <= multiset(Concat(lists))
  {
    var front := Take(lists, n);
    assert lists == front + lists[|front|..];
    ConcatSplit(front, lists[|front|..]);
  }

  lemma {:induction false} MixedKeep(chosen: seq<seq<Card>>, days: nat)
    ensures multiset(Concat(MixedAll(chosen, days))) == multiset(Concat(chosen))
  {
    if chosen == [] {
    } else {
      MixedKeep(chosen[1..], days);
      MixKeepsKinds(chosen[0], days);
      ConcatCons(Mixed(chosen[0], days), MixedAll(chosen[1..], days));
      assert MixedAll(chosen, days) == [Mixed(chosen[0], days)] + MixedAll(chosen[1..], days);
    }
  }

  /** What the clusters contribute comes from the candidates, each at most once. */
  lemma InTurnWithin(d: Distance, candidates: seq<Card>, days: nat)
    requires SelfZero(d) && DistinctIds(candidates)
    ensures multiset(Rounds(Active(d, candidates, days), 0)) <= multiset(candidates)
  {
    var clusters := Clusters(d, candidates);
    var chosen := Chosen(clusters, days);
    RoundsKeep(Active(d, candidates, days));
    MixedKeep(chosen, DaysPerCluster(|chosen|, days));
    var dense := Where(clusters, Dense);
    ConcatTake(if dense != [] then dense else clusters, days);
    ConcatWhere(clusters, Dense);
    Sorting.SortKeeps(Found(d, candidates, candidates), BySize(candidates));
    ConcatRearranged(clusters, Found(d, candidates, candidates));
    ClustersPartition(d, candidates, candidates);
  }

  lemma {:induction false} IdsDistinctCards(cards: seq<Card>)
    requires DistinctIds(cards)
    ensures Distinct(cards)
  {
  }

  /** A part of the candidates and those not selected yet make up the whole. */
  lemma UnselectedCompletes(candidates: seq<Card>, part: seq<Card>)
    requires DistinctIds(candidates) && multiset(part) <= multiset(candidates)
    ensures multiset(part + Others(candidates, part)) == multiset(candidates)
  {
    var rest := Others(candidates, part);
    DistinctIsSet(candidates);
    WhereCounts(candidates, part);
    forall c ensures multiset(part)[c] + multiset(rest)[c] == multiset(candidates)[c] {
      assert c in candidates <==> c in multiset(candidates);
      assert c in part <==> c in multiset(part);
      assert c in rest <==> c in multiset(rest);
      if c in candidates {
        UnselectedIffAbsent(candidates, part, c);
      }
    }
  }

  lemma UnselectedIffAbsent(candidates: seq<Card>, part: seq<Card>, c: Card)
    requires DistinctIds(candidates) && multiset(part) <= multiset(candidates) && c in candidates
    ensures c in Others(candidates, part) <==> c !in part
  {
    forall e | e in part && e.id == c.id ensures e == c {
      assert e in multiset(part);
      SameId(candidates, e, c);
    }
  }

  lemma WhereCounts(candidates: seq<Card>, part: seq<Card>)
    requires DistinctIds(candidates)
    ensures forall c | c in Others(candidates, part) :: multiset(Others(candidates, part))[c] == 1
  {
    WhereDistinctIds(candidates, IdNotIn(IdsOf(part)));
    DistinctIsSet(Others(candidates, part));
  }

  lemma PoolOrderIsPermutation(d: Distance, candidates: seq<Card>, days: nat)
    requires SelfZero(d) && DistinctIds(candidates)
    ensures multiset(PoolOrder(d, candidates, days)) == multiset(candidates)
    ensures |PoolOrder(d, candidates, days)| == |candidates|
  {
    var inTurn := Rounds(Active(d, candidates, days), 0);
    InTurnWithin(d, candidates, days);
    UnselectedCompletes(candidates, inTurn);
    Sorting.SameMembers(PoolOrder(d, candidates, days), candidates);
  }

  /** The pool holds as many candidates as the limit allows, none twice. */
  lemma DensePoolFills(d: Distance, candidates: seq<Card>, days: int, limit: int)
    requires SelfZero(d) && DistinctIds(candidates)
    ensures var pool := DensePoolOf(d, candidates, days, limit);
      && |pool| == (if days <= 0 || limit <= 0 then 0 else Min(limit, |candidates|))
      && DistinctIds(pool) && forall c | c in pool :: c in candidates
  {
    if days <= 0 || limit <= 0 {
      return;
    }
    PoolOrderIsPermutation(d, candidates, days);
    var order := PoolOrder(d, candidates, days);
    Sorting.SameMembers(order, candidates);
    DistinctRearranged(candidates, order);
    forall i, j | 0 <= i < j < |order| ensures order[i].id != order[j].id {
      assert order[i] in order && order[j] in order;
      if order[i].id == order[j].id {
        SameId(candidates, order[i], order[j]);
      }
    }
  }

  // ----- which clusters a pool is drawn from -----

  /** Which of the first `n` clusters have enough stops for a day, and how many. */
  function DenseAmong(clusters: seq<seq<Card>>, n: nat): set<nat>
    requires n <= |clusters|
  {
    set k: nat | k < n && |clusters[k]| >= MIN_STOPS_PER_DAY
  }

  function DenseBefore(clusters: seq<seq<Card>>, n: nat): nat
    requires n <= |clusters|
  {
    |DenseAmong(clusters, n)|
  }

  /** The pool is drawn from cluster `i`: it is one of the first `days` with enough stops for a day, or of
      the first `days` if none has enough. */
  predicate DrawnFrom(clusters: seq<seq<Card>>, days: nat, i: nat)
    requires i < |clusters|
  {
    if exists k | 0 <= k < |clusters| :: |clusters[k]| >= MIN_STOPS_PER_DAY
    then |clusters[i]| >= MIN_STOPS_PER_DAY && DenseBefore(clusters, i) < days
    else i < days
  }

  lemma {:induction false} DenseCount(clusters: seq<seq<Card>>, n: nat)
    requires n <= |clusters|
    ensures |Where(clusters[..n], Dense)| == DenseBefore(clusters, n)
  {
    if n == 0 {
      assert DenseAmong(clusters, 0) == {};
    } else {
      DenseCount(clusters, n - 1);
      WhereGrows(clusters, Dense, n - 1);
      DenseNext(clusters, n - 1);
    }
  }

  lemma DenseNext(clusters: seq<seq<Card>>, n: nat)
    requires n < |clusters|
    ensures DenseBefore(clusters, n + 1) == DenseBefore(clusters, n) + if Dense(clusters[n]) then 1 else 0
  {
    assert DenseAmong(clusters, n + 1) == DenseAmong(clusters, n) + if Dense(clusters[n]) then {n} else {};
  }

  lemma DensePlace(clusters: seq<seq<Card>>, i: nat)
    requires i < |clusters| && Dense(clusters[i])
    ensures DenseBefore(clusters, i) < |Where(clusters, Dense)| && Where(clusters, Dense)[DenseBefore(clusters, i)] == clusters[i]
  {
    DenseCount(clusters, i);
    WhereGrows(clusters, Dense, i);
    WherePrefix(clusters, Dense, i + 1);
  }

  lemma {:induction false} PlaceOfDense(clusters: seq<seq<Card>>, n: nat, at: nat) returns (i: nat)
    requires n <= |clusters| && at < |Where(clusters[..n], Dense)|
    ensures i < n && Dense(clusters[i]) && DenseBefore(clusters, i) == at && clusters[i] == Where(clusters[..n], Dense)[at]
    decreases n
  {
    WhereGrows(clusters, Dense, n - 1);
    if at < |Where(clusters[..n - 1], Dense)| {
      i := PlaceOfDense(clusters, n - 1, at);
    } else {
      i := n - 1;
      DenseCount(clusters, n - 1);
    }
  }

  lemma ChosenAreDrawn(clusters: seq<seq<Card>>, days: nat, g: seq<Card>)
    ensures g in Chosen(clusters, days) <==> exists i | 0 <= i < |clusters| :: clusters[i] == g && DrawnFrom(clusters, days, i)
  {
    var dense := Where(clusters, Dense);
    assert clusters[..|clusters|] == clusters;
    if exists k | 0 <= k < |clusters| :: |clusters[k]| >= MIN_STOPS_PER_DAY {
      var k :| 0 <= k < |clusters| && |clusters[k]| >= MIN_STOPS_PER_DAY;
      DensePlace(clusters, k);
      if g in Chosen(clusters, days) {
        var at :| 0 <= at < |Take(dense, days)| && Take(dense, days)[at] == g;
        var i := PlaceOfDense(clusters, |clusters|, at);
        assert DrawnFrom(clusters, days, i);
      }
      if i :| 0 <= i < |clusters| && clusters[i] == g && DrawnFrom(clusters, days, i) {
        DensePlace(clusters, i);
        assert Take(dense, days)[DenseBefore(clusters, i)] == g;
      }
    } else {
      WhereNone(clusters, Dense);
      if g in Chosen(clusters, days) {
        var i :| 0 <= i < |Take(clusters, days)| && Take(clusters, days)[i] == g;
        assert DrawnFrom(clusters, days, i);
      }
      if i :| 0 <= i < |clusters| && clusters[i] == g && DrawnFrom(clusters, days, i) {
        assert Take(clusters, days)[i] == g;
      }
    }
  }

  /** Together the drawn clusters serve all days, and none serves a day more than that takes. */
  lemma ClustersServeAllDays(chosen: nat, days: nat)
    requires chosen > 0 && days > 0
    ensures (DaysPerCluster(chosen, days) - 1) * chosen < days <= DaysPerCluster(chosen, days) * chosen
  {
  }

  lemma InTurnMembers(d: Distance, candidates: seq<Card>, days: nat, c: Card)
    requires SelfZero(d)
    ensures c in Rounds(Active(d, candidates, days), 0) <==> exists g :: g in Chosen(Clusters(d, candidates), days) && c in g
  {
    var chosen := Chosen(Clusters(d, candidates), days);
    RoundsKeep(Active(d, candidates, days));
    MixedKeep(chosen, DaysPerCluster(|chosen|, days));
    Sorting.SameMembers(Rounds(Active(d, candidates, days), 0), Concat(chosen));
    ConcatMembers(chosen, c);
  }

  lemma {:induction false} ConcatMembers(lists: seq<seq<Card>>, c: Card)
    ensures c in Concat(lists) <==> exists g :: g in lists && c in g
  {
    if lists == [] {
    } else {
      ConcatMembers(lists[1..], c);
      assert lists == [lists[0]] + lists[1..];
    }
  }

  /** A card of another cluster is in the pool only if all cards of the drawn clusters are. */
  lemma DenseDrawnFirst(d: Distance, candidates: seq<Card>, days: int, limit: int, c: Card, i: nat, e: Card)
    requires SelfZero(d) && c in DensePoolOf(d, candidates, days, limit)
    requires var clusters := Clusters(d, candidates);
      && (forall k | 0 <= k < |clusters| && c in clusters[k] :: !DrawnFrom(clusters, days, k))
      && i < |clusters| && DrawnFrom(clusters, days, i) && e in clusters[i]
    ensures e in DensePoolOf(d, candidates, days, limit)
  {
    var clusters, inTurn := Clusters(d, candidates), Rounds(Active(d, candidates, days), 0);
    InTurnMembers(d, candidates, days, c);
    InTurnMembers(d, candidates, days, e);
    ChosenAreDrawn(clusters, days, clusters[i]);
    forall g | g in Chosen(clusters, days) ensures c !in g {
      ChosenAreDrawn(clusters, days, g);
    }
    FrontComesFirst(inTurn, Others(candidates, inTurn), limit, c, e);
  }

  lemma FrontComesFirst(front: seq<Card>, rest: seq<Card>, n: nat, c: Card, e: Card)
    requires c in Take(front + rest, n) && c !in front && e in front
    ensures e in Take(front + rest, n)
  {
    var at :| 0 <= at < |Take(front + rest, n)| && Take(front + rest, n)[at] == c;
    var k :| 0 <= k < |front| && front[k] == e;
    assert at >= |front|;
    assert Take(front + rest, n)[k] == e;
  }
}
