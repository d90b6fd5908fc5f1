/** Whole parts of proportional shares: the arithmetic both largest-remainder splits rest on.

    A budget is split in proportion to claims by rounding every share down and handing out what is
    left. Everything is stated by cross-multiplication with the total of the claims, so that no
    fraction occurs. */
module Apportion {
  import opened Sums

  lemma DivideBounds(a: nat, total: nat)
    requires total > 0
    ensures total * (a / total) <= a < total * (a / total) + total
  {
  }

  lemma Distribute(a: int, b: int, c: int)
    ensures a * (b + c) == a * b + a * c
  {
  }

  lemma CancelFactor(a: int, b: int, c: int)
    requires a > 0
    ensures a * b <= a * c <==> b <= c
    ensures a * b < a * c <==> b < c
  {
    Distribute(a, c, -b);
    assert a * -b == -(a * b);
    if b <= c { assert a * (c - b) >= 0; }
    if b < c { assert a * (c - b) > 0; }
    if c <= b { assert a * (c - b) <= 0; }
  }

  function Positives(s: seq<nat>): nat
  {
    if s == [] then 0 else Positives(s[..|s| - 1]) + if s[|s| - 1] > 0 then 1 else 0
  }

  lemma {:induction false} PositivesAtMost(s: seq<nat>)
    ensures Positives(s) <= |s|
  {
    if s == [] {
    } else {
      PositivesAtMost(s[..|s| - 1]);
    }
  }

  /** `q` is the share of one claim rounded down, in units of one over `total`. */
  predicate RoundsDown(total: nat, q: int, budget: nat, claim: nat)
  {
    total * q <= budget * claim <= total * (q + if claim > 0 then 1 else 0)
  }

  lemma {:induction false} PartsAddUp(claims: seq<nat>, whole: seq<int>, budget: nat, total: nat)
    requires |whole| == |claims| && forall i | 0 <= i < |claims| :: RoundsDown(total, whole[i], budget, claims[i])
    ensures total * Sum(whole) <= budget * Sum(claims) <= total * (Sum(whole) + Positives(claims))
  {
    if claims == [] {
    } else {
      var n := |claims| - 1;
      var claim, q := claims[n], whole[n];
      assert RoundsDown(total, q, budget, claim);
      PartsAddUp(claims[..n], whole[..n], budget, total);
      SumSplit(claims[..n], [claim]);
      SumSplit(whole[..n], [q]);
      assert claims == claims[..n] + [claim] && whole == whole[..n] + [q];
      OneMore(budget, total, Sum(claims[..n]), Sum(whole[..n]), Positives(claims[..n]), claim, q, if claim > 0 then 1 else 0);
    }
  }

  /** Rounding the shares of `budget` down loses less than one unit per entry that claims any. */
  lemma WholeParts(claims: seq<nat>, budget: nat, total: nat, n: nat)
    requires total > 0 && n <= |claims|
    ensures var whole := Sum(seq(n, i requires 0 <= i < n => budget * claims[i] / total));
      total * whole <= budget * Sum(claims[..n]) <= total * (whole + Positives(claims[..n]))
  {
    var whole: seq<int> := seq(n, i requires 0 <= i < n => budget * claims[i] / total);
    forall i | 0 <= i < n ensures RoundsDown(total, whole[i], budget, claims[i]) {
      AddWhole(budget, total, claims[i], whole[i], if claims[i] > 0 then 1 else 0);
    }
    PartsAddUp(claims[..n], whole, budget, total);
  }

  lemma OneMore(budget: int, total: int, claimed: int, whole: int, positives: int, last: int, q: int, one: int)
    requires total * whole <= budget * claimed <= total * (whole + positives)
    requires total * q <= budget * last <= total * (q + one)
    ensures total * (whole + q) <= budget * (claimed + last) <= total * (whole + q + (positives + one))
  {
    Distribute(budget, claimed, last);
    Distribute(total, whole, q);
    Distribute(total, whole + positives, q + one);
    assert whole + positives + (q + one) == whole + q + (positives + one);
  }

  lemma AddWhole(budget: nat, total: nat, claim: nat, q: nat, one: nat)
    requires total > 0 && q == budget * claim / total && one == if claim > 0 then 1 else 0
    ensures total * q <= budget * claim <= total * (q + one)
  {
    DivideBounds(budget * claim, total);
    Distribute(total, q, one);
    if claim == 0 {
      assert budget * claim == 0;
    }
  }

  /** Whole part and rest of an exact share. */
  lemma WholePart(a: nat, b: nat)
    requires b > 0
    ensures (a as real / b as real).Floor == a / b
    ensures a as real / b as real - (a / b) as real == (a % b) as real / b as real
  {
    var q, r := a / b, a % b;
    assert a == b * q + r;
    assert a as real == b as real * q as real + r as real;
    assert (b as real * q as real + r as real) / b as real == q as real + r as real / b as real;
    assert 0.0 <= r as real / b as real < 1.0;
  }

  lemma RealOrder(a: nat, b: nat, total: nat)
    requires total > 0
    ensures a > b <==> a as real / total as real > b as real / total as real
    ensures a == b <==> a as real / total as real == b as real / total as real
  {
  }
}
