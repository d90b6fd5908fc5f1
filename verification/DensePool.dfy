/** Dense clusters and the pool drawn from them (syncinerary/agents/gather/live.py). */
module DensePool {
  import opened Lists
  import opened Pool
  import Sorting

  const DENSE_CLUSTER_RADIUS_M := 2000

  /** The distance between two spots, which the unseen geometry computes. */
  type Distance = (nat, nat) -> nat

  predicate Near(d: Distance, a: Card, b: Card) { d(a.spot, b.spot) <= DENSE_CLUSTER_RADIUS_M }

  ghost predicate SelfZero(d: Distance) { forall s :: d(s, s) == 0 }

  function Around(d: Distance, seed: Card, cards: seq<Card>): seq<Card>
  {
    Where(cards, c => Near(d, seed, c))
  }

  function Density(d: Distance, seed: Card, cards: seq<Card>): nat { |Around(d, seed, cards)| }

  /** `list.index`: the position of the first equal card. */
  function Rank(ranked: seq<Card>, c: Card): nat
  {
    if ranked == [] || ranked[0] == c then 0 else 1 + Rank(ranked[1..], c)
  }

  /** The seed order: denser first, then earlier in the ranking. */
  predicate Beats(d: Distance, ranked: seq<Card>, remaining: seq<Card>, a: Card, b: Card)
  {
    var x, y := Density(d, a, remaining), Density(d, b, remaining);
    x > y || (x == y && Rank(ranked, a) <= Rank(ranked, b))
  }

  /** `max` over the first `n` remaining cards. */
  function SeedOf(d: Distance, ranked: seq<Card>, remaining: seq<Card>, n: nat): (seed: Card)
    requires 0 < n <= |remaining|
    ensures seed in remaining
    ensures forall i | 0 <= i < n :: Beats(d, ranked, remaining, seed, remaining[i])
  {
    if n == 1 then remaining[0]
    else
      var best := SeedOf(d, ranked, remaining, n - 1);
      if Beats(d, ranked, remaining, best, remaining[n - 1]) then best else remaining[n - 1]
  }

  function IdsOf(cards: seq<Card>): set<nat> { set c | c in cards :: c.id }

  function IdNotIn(ids: set<nat>): Card -> bool { (c: Card) => c.id !in ids }

  /** The cards whose id is not among those of `part`. */
  function Others(cards: seq<Card>, part: seq<Card>): seq<Card>
  {
    Where(cards, IdNotIn(IdsOf(part)))
  }

  lemma ClusterRemoved(d: Distance, ranked: seq<Card>, remaining: seq<Card>)
    requires remaining != [] && SelfZero(d)
    ensures var seed := SeedOf(d, ranked, remaining, |remaining|);
      seed in Around(d, seed, remaining) && |Others(remaining, Around(d, seed, remaining))| < |remaining|
  {
    var seed := SeedOf(d, ranked, remaining, |remaining|);
    var cluster := Around(d, seed, remaining);
    assert seed in cluster;
    DropsOne(remaining, cluster, seed);
  }

  lemma {:induction false} DropsOne(remaining: seq<Card>, cluster: seq<Card>, x: Card)
    requires x in remaining && x in cluster
    ensures |Others(remaining, cluster)| < |remaining|
  {
    if remaining[0] != x {
      DropsOne(remaining[1..], cluster, x);
    }
  }

  /** The clusters in the order the loop finds them. */
  ghost function Found(d: Distance, ranked: seq<Card>, remaining: seq<Card>): seq<seq<Card>>
    requires SelfZero(d)
    decreases |remaining|
  {
    if remaining == [] then []
    else
      ClusterRemoved(d, ranked, remaining);
      var cluster := Around(d, SeedOf(d, ranked, remaining, |remaining|), remaining);
      [cluster] + Found(d, ranked, Others(remaining, cluster))
  }

  predicate LargerFirst(ranked: seq<Card>, a: seq<Card>, b: seq<Card>)
  {
    |a| > |b| || (|a| == |b| && (if a == [] then 0 else Rank(ranked, a[0])) <= (if b == [] then 0 else Rank(ranked, b[0])))
  }

  function BySize(ranked: seq<Card>): (seq<Card>, seq<Card>) -> bool { (a, b) => LargerFirst(ranked, a, b) }

  /** What `_dense_clusters` returns. */
  ghost function Clusters(d: Distance, candidates: seq<Card>): seq<seq<Card>>
    requires SelfZero(d)
  {
    Sorting.Sort(Found(d, candidates, candidates), BySize(candidates))
  }

  lemma FoundStep(d: Distance, ranked: seq<Card>, remaining: seq<Card>)
    requires SelfZero(d) && remaining != []
    ensures var cluster := Around(d, SeedOf(d, ranked, remaining, |remaining|), remaining);
      && Found(d, ranked, remaining) == [cluster] + Found(d, ranked, Others(remaining, cluster))
      && |Others(remaining, cluster)| < |remaining|
  {
    ClusterRemoved(d, ranked, remaining);
  }

  lemma MoveOver<T>(done: seq<T>, next: T, later: seq<T>)
    ensures done + ([next] + later) == done + [next] + later
  {
  }

  method FindClusters(d: Distance, ranked: seq<Card>) returns (clusters: seq<seq<Card>>)
    requires SelfZero(d)
    ensures clusters == Found(d, ranked, ranked)
  {
    var remaining := ranked;
    clusters := [];
    ghost var whole := Found(d, ranked, ranked);
    ghost var left := whole;
    while remaining != []
      invariant left == Found(d, ranked, remaining) && clusters + left == whole
      decreases |remaining|
    {
      FoundStep(d, ranked, remaining);
      var seed := SeedOf(d, ranked, remaining, |remaining|);
      var cluster := Around(d, seed, remaining);
      ghost var later := Found(d, ranked, Others(remaining, cluster));
      MoveOver(clusters, cluster, later);
      clusters, remaining, left := clusters + [cluster], Others(remaining, cluster), later;
    }
  }

  method DenseClusters(d: Distance, candidates: seq<Card>) returns (clusters: seq<seq<Card>>)
    requires SelfZero(d)
    ensures clusters == Clusters(d, candidates)
  {
    clusters := FindClusters(d, candidates);
    clusters := Sorting.Sort(clusters, BySize(candidates));
  }

  // ----- the clusters partition the candidates -----

  lemma OthersAreFar(d: Distance, seed: Card, remaining: seq<Card>)
    requires DistinctIds(remaining)
    ensures Others(remaining, Around(d, seed, remaining)) == Where(remaining, c => !Near(d, seed, c))
  {
    OthersAreFarIn(d, seed, remaining, remaining);
  }

  lemma OthersAreFarIn(d: Distance, seed: Card, all: seq<Card>, s: seq<Card>)
    requires DistinctIds(all) && forall c | c in s :: c in all
    ensures Others(s, Around(d, seed, all)) == Where(s, c => !Near(d, seed, c))
  {
    var ids := IdsOf(Around(d, seed, all));
    forall c | c in s ensures IdNotIn(ids)(c) <==> !Near(d, seed, c) {
      AroundById(d, seed, all, c);
    }
    WhereSame(s, IdNotIn(ids), c => !Near(d, seed, c));
  }

  lemma AroundById(d: Distance, seed: Card, all: seq<Card>, c: Card)
    requires DistinctIds(all) && c in all
    ensures c.id in IdsOf(Around(d, seed, all)) <==> Near(d, seed, c)
  {
    if e :| e in Around(d, seed, all) && e.id == c.id {
      SameId(all, e, c);
    }
  }

  lemma SameId(cards: seq<Card>, a: Card, b: Card)
    requires DistinctIds(cards) && a in cards && b in cards && a.id == b.id
    ensures a == b
  {
    var i, j :| 0 <= i < |cards| && 0 <= j < |cards| && cards[i] == a && cards[j] == b;
  }

  lemma {:induction false} WhereDistinctIds(cards: seq<Card>, p: Card -> bool)
    requires DistinctIds(cards)
    ensures DistinctIds(Where(cards, p))
  {
    if cards == [] {
    } else {
      WhereDistinctIds(cards[1..], p);
      forall c | c in cards[1..] ensures c.id != cards[0].id {
        var i :| 0 <= i < |cards[1..]| && cards[1..][i] == c;
        assert cards[1 + i] == c;
      }
    }
  }

  lemma ClusterSplits(d: Distance, seed: Card, remaining: seq<Card>)
    requires DistinctIds(remaining)
    ensures multiset(Around(d, seed, remaining)) + multiset(Others(remaining, Around(d, seed, remaining))) == multiset(remaining)
    ensures DistinctIds(Others(remaining, Around(d, seed, remaining)))
  {
    OthersAreFar(d, seed, remaining);
    WhereSplits(remaining, c => Near(d, seed, c), c => !Near(d, seed, c));
    WhereDistinctIds(remaining, c => !Near(d, seed, c));
  }

  /** Every candidate lands in exactly one cluster. */
  lemma {:induction false} ClustersPartition(d: Distance, ranked: seq<Card>, remaining: seq<Card>)
    requires SelfZero(d) && DistinctIds(remaining)
    ensures multiset(Concat(Found(d, ranked, remaining))) == multiset(remaining)
    ensures forall g | g in Found(d, ranked, remaining) :: g != []
    decreases |remaining|
  {
    if remaining == [] {
    } else {
      ClusterRemoved(d, ranked, remaining);
      var seed := SeedOf(d, ranked, remaining, |remaining|);
      var cluster := Around(d, seed, remaining);
      var rest := Others(remaining, cluster);
      ClusterSplits(d, seed, remaining);
      ClustersPartition(d, ranked, rest);
      ConcatCons(cluster, Found(d, ranked, rest));
    }
  }

  /** The first cluster found is the densest neighbourhood there is, and so on among the rest: no
      candidate left has more neighbours left than the next cluster has members. */
  lemma DensestFirst(d: Distance, ranked: seq<Card>, remaining: seq<Card>, c: Card)
    requires SelfZero(d) && c in remaining
    ensures Density(d, c, remaining) <= |Found(d, ranked, remaining)[0]|
  {
    ClusterRemoved(d, ranked, remaining);
    var i :| 0 <= i < |remaining| && remaining[i] == c;
    assert Beats(d, ranked, remaining, SeedOf(d, ranked, remaining, |remaining|), remaining[i]);
  }

  lemma {:induction false} FewerAround(d: Distance, seed: Card, cards: seq<Card>, cluster: seq<Card>)
    ensures Density(d, seed, Others(cards, cluster)) <= Density(d, seed, cards)
  {
    if cards == [] {
    } else {
      FewerAround(d, seed, cards[1..], cluster);
    }
  }

  ghost predicate NonIncreasing(clusters: seq<seq<Card>>)
  {
    forall i, j | 0 <= i < j < |clusters| :: |clusters[j]| <= |clusters[i]|
  }

  lemma LargerInFront(head: seq<Card>, tail: seq<seq<Card>>)
    requires NonIncreasing(tail) && (tail != [] ==> |tail[0]| <= |head|)
    ensures NonIncreasing([head] + tail)
  {
    var all := [head] + tail;
    forall i, j | 0 <= i < j < |all| ensures |all[j]| <= |all[i]| {
      assert j > 1 ==> |tail[j - 1]| <= |tail[0]|;
    }
  }

  /** The next cluster is no larger: its members were neighbours before too. */
  lemma NextNoLarger(d: Distance, ranked: seq<Card>, remaining: seq<Card>, cluster: seq<Card>, rest: seq<Card>)
    requires SelfZero(d) && remaining != [] && rest == Others(remaining, cluster) && rest != []
    ensures |Found(d, ranked, rest)[0]| <= |Found(d, ranked, remaining)[0]|
  {
    ClusterRemoved(d, ranked, rest);
    var next := SeedOf(d, ranked, rest, |rest|);
    FewerAround(d, next, remaining, cluster);
    DensestFirst(d, ranked, remaining, next);
  }

  /** The clusters already come out largest first; the final sort only settles equal sizes. */
  lemma {:induction false} FoundInSizeOrder(d: Distance, ranked: seq<Card>, remaining: seq<Card>)
    requires SelfZero(d)
    ensures NonIncreasing(Found(d, ranked, remaining))
    decreases |remaining|
  {
    if remaining == [] {
    } else {
      FoundStep(d, ranked, remaining);
      var cluster := Around(d, SeedOf(d, ranked, remaining, |remaining|), remaining);
      var rest := Others(remaining, cluster);
      FoundInSizeOrder(d, ranked, rest);
      if rest != [] {
        NextNoLarger(d, ranked, remaining, cluster, rest);
      }
      LargerInFront(cluster, Found(d, ranked, rest));
    }
  }

  // ----- ties -----

  lemma {:induction false} RankIsPlace(ranked: seq<Card>, p: nat)
    requires DistinctIds(ranked) && p < |ranked|
    ensures Rank(ranked, ranked[p]) == p
  {
    if p == 0 {
    } else {
      assert DistinctIds(ranked[1..]);
      RankIsPlace(ranked[1..], p - 1);
    }
  }

  /** The next cluster is all that is left within the radius of one card; no card left has more around it,
      and none that comes before it in the ranking as many. */
  lemma NextCluster(d: Distance, ranked: seq<Card>, remaining: seq<Card>, p: nat) returns (seed: nat)
    requires SelfZero(d) && remaining != [] && DistinctIds(ranked) && (forall c | c in remaining :: c in ranked)
    requires p < |ranked| && ranked[p] in remaining
    ensures seed < |ranked| && ranked[seed] in remaining
    ensures forall c :: c in Found(d, ranked, remaining)[0] <==> c in remaining && d(ranked[seed].spot, c.spot) <= DENSE_CLUSTER_RADIUS_M
    ensures |Around(d, ranked[p], remaining)| <= |Found(d, ranked, remaining)[0]|
    ensures |Around(d, ranked[p], remaining)| == |Found(d, ranked, remaining)[0]| ==> seed <= p
  {
    FoundStep(d, ranked, remaining);
    var s := SeedOf(d, ranked, remaining, |remaining|);
    seed :| 0 <= seed < |ranked| && ranked[seed] == s;
    var i :| 0 <= i < |remaining| && remaining[i] == ranked[p];
    assert Beats(d, ranked, remaining, s, remaining[i]);
    RankIsPlace(ranked, seed);
    RankIsPlace(ranked, p);
  }

  /** Larger clusters come first, and of two alike the one whose first card ranks first. */
  lemma LargestFirst(d: Distance, candidates: seq<Card>, i: nat, j: nat, p: nat, q: nat)
    requires SelfZero(d) && DistinctIds(candidates) && i < j < |Clusters(d, candidates)|
    requires p < |candidates| && q < |candidates|
    ensures var a, b := Clusters(d, candidates)[i], Clusters(d, candidates)[j];
      && a != [] && b != [] && |a| >= |b|
      && (|a| == |b| && candidates[p] == a[0] && candidates[q] == b[0] ==> p <= q)
  {
    ClustersSorted(d, candidates);
    assert LargerFirst(candidates, Clusters(d, candidates)[i], Clusters(d, candidates)[j]);
    RankIsPlace(candidates, p);
    RankIsPlace(candidates, q);
  }

  lemma ClustersSorted(d: Distance, candidates: seq<Card>)
    requires SelfZero(d) && DistinctIds(candidates)
    ensures Sorting.Ordered(Clusters(d, candidates), BySize(candidates))
    ensures forall i | 0 <= i < |Clusters(d, candidates)| :: Clusters(d, candidates)[i] != []
  {
    var found, le := Found(d, candidates, candidates), BySize(candidates);
    Sorting.SortKeeps(found, le);
    Sorting.SortOrders(found, le);
    Sorting.SameMembers(Clusters(d, candidates), found);
    ClustersPartition(d, candidates, candidates);
    forall i | 0 <= i < |Clusters(d, candidates)| ensures Clusters(d, candidates)[i] != [] {
      assert Clusters(d, candidates)[i] in found;
    }
  }
}
