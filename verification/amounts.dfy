/**
 * Money as integer cents. The generators draw amounts with `random.uniform`, keep them with
 * `round(x, 2)` and split a total over the selected bank accounts; here a draw is an exact
 * rational, `round` is Python's round-half-to-even on that exact value, and an amount is the
 * integer number of cents it rounds to.
 */
module Amounts {

  /** Python's `round(x)` on an exact value: the nearest integer, ties going to the even one. */
  function RoundHalfEven(x: real): (r: int)
    ensures x - 1.0 / 2.0 <= r as real <= x + 1.0 / 2.0
    ensures (r as real == x - 1.0 / 2.0 || r as real == x + 1.0 / 2.0) ==> r % 2 == 0
  {
    var f := x.Floor;
    var fraction := x - f as real;
    if fraction < 1.0 / 2.0 then f
    else if fraction > 1.0 / 2.0 then f + 1
    else if f % 2 == 0 then f
    else f + 1
  }

  /** Rounding an integer gives it back. */
  lemma RoundInteger(n: int)
    ensures RoundHalfEven(n as real) == n
  {
    assert (n as real).Floor == n;
  }

  /** Rounding is monotone: a larger draw never rounds to fewer cents. */
  lemma RoundMonotone(x: real, y: real)
    requires x <= y
    ensures RoundHalfEven(x) <= RoundHalfEven(y)
  {
    var rx, ry := RoundHalfEven(x), RoundHalfEven(y);
    if rx > ry {
      // Both are within one half of their argument, so they differ by exactly one and x, y
      // sit on the same tie point, where the two choices cannot disagree.
      assert rx == ry + 1;
      assert x == y;
    }
  }

  /** A draw between two whole amounts rounds to an amount between them. */
  lemma RoundWithin(x: real, lo: int, hi: int)
    requires lo as real <= x <= hi as real
    ensures lo <= RoundHalfEven(x) <= hi
  {
    RoundMonotone(lo as real, x);
    RoundMonotone(x, hi as real);
    RoundInteger(lo);
    RoundInteger(hi);
  }

  /**
   * `random.uniform(a, b)`: a value between the two bounds, whichever of them is the smaller
   * (the draw itself is a parameter of the model).
   */
  predicate UniformDraw(x: real, a: real, b: real)
  {
    if a <= b then a <= x <= b else b <= x <= a
  }

  /** Values in order round to whole amounts in the same order, up to a whole bound. */
  lemma RoundBetween(lo: real, x: real, hi: int)
    requires lo <= x <= hi as real
    ensures RoundHalfEven(lo) <= RoundHalfEven(x) <= hi
  {
    RoundMonotone(lo, x);
    RoundMonotone(x, hi as real);
    RoundInteger(hi);
  }

  /** `round(x, 2)` for a value `x` in reais, as the number of cents it rounds to. */
  function ToCents(x: real): (r: int)
    ensures x >= 0.0 ==> r >= 0
  {
    RoundHalfEven(x * 100.0)
  }

  /** `round(amount * factor, 2)` for an amount in cents: the cents the scaled amount rounds to. */
  function Scale(cents: int, factor: real): (r: int)
    ensures factor >= 0.0 && cents >= 0 ==> r >= 0
  {
    RoundHalfEven(cents as real * factor)
  }

  function Sum(xs: seq<int>): int
  {
    if xs == [] then 0 else xs[0] + Sum(xs[1..])
  }

  /**
   * The payment split of `generate_random_record`: over `n` accounts, each but the last gets
   * `round(remaining / accounts_left, 2)` and the last gets whatever remains.
   */
  function Shares(remaining: int, n: nat): (s: seq<int>)
    ensures |s| == n
    decreases n
  {
    if n == 0 then []
    else if n == 1 then [remaining]
    else
      var share := RoundHalfEven(remaining as real / n as real);
      [share] + Shares(remaining - share, n - 1)
  }

  /** The shares always add up to the amount split: no cent is lost or created. */
  lemma {:induction false} SharesSum(total: int, n: nat)
    requires n >= 1
    ensures Sum(Shares(total, n)) == total
    decreases n
  {
    if n >= 2 {
      var share := RoundHalfEven(total as real / n as real);
      SharesSum(total - share, n - 1);
      assert Shares(total, n)[1..] == Shares(total - share, n - 1);
    }
  }

  /** A share of a non-negative amount is never negative and never more than the amount. */
  lemma {:induction false} SharesBounded(total: int, n: nat)
    requires total >= 0
    ensures forall k | 0 <= k < n :: 0 <= Shares(total, n)[k] <= total
    decreases n
  {
    if n >= 2 {
      var share := RoundHalfEven(total as real / n as real);
      FirstShareBounded(total, n, total as real / n as real);
      SharesBounded(total - share, n - 1);
      forall k | 0 <= k < n ensures 0 <= Shares(total, n)[k] <= total {
        if k > 0 {
          assert Shares(total, n)[k] == Shares(total - share, n - 1)[k - 1];
        }
      }
    }
  }

  /** `round(total / n, 2)` of a non-negative amount lies between nothing and the whole amount. */
  lemma FirstShareBounded(total: int, n: nat, quotient: real)
    requires total >= 0 && n >= 1 && quotient == total as real / n as real
    ensures 0 <= RoundHalfEven(quotient) <= total
  {
    QuotientBetween(total, n);
    RoundWithin(quotient, 0, total);
  }

  lemma QuotientBetween(total: int, n: nat)
    requires total >= 0 && n >= 1
    ensures 0.0 <= total as real / n as real <= total as real
  {
  }

  /**
   * The payments of the split: element `k` is what `pay` builds from the `k`-th selected
   * account and its share of the total.
   */
  function ShareOver<A, P>(xs: seq<A>, total: int, pay: (A, int) -> P): (ps: seq<P>)
    ensures |ps| == |xs| && forall k | 0 <= k < |xs| :: ps[k] == pay(xs[k], Shares(total, |xs|)[k])
  {
    seq(|xs|, k requires 0 <= k < |xs| => pay(xs[k], Shares(total, |xs|)[k]))
  }

  /**
   * The loop of `generate_random_record` that walks the selected accounts, building each one's
   * payment from its share of the remaining amount and giving the last one the remainder.
   */
  method SplitOver<A, P>(xs: seq<A>, total: int, pay: (A, int) -> P) returns (ps: seq<P>)
    ensures ps == ShareOver(xs, total, pay)
  {
    var n := |xs|;
    ps := [];
    ghost var shares: seq<int> := [];
    var remaining := total;
    var i := 0;
    while i < n
      invariant 0 <= i <= n && |ps| == i && |shares| == i
      invariant shares + Shares(remaining, n - i) == Shares(total, n)
      invariant forall k | 0 <= k < i :: ps[k] == pay(xs[k], shares[k])
    {
      var share;
      if i == n - 1 {
        share := remaining;
      } else {
        share := RoundHalfEven(remaining as real / (n - i) as real);
        remaining := remaining - share;
      }
      ps := ps + [pay(xs[i], share)];
      shares := shares + [share];
      i := i + 1;
    }
  }

  /** The total of the amounts `amount` reads from each payment. */
  function SumOf<P>(ps: seq<P>, amount: P -> int): int
  {
    if ps == [] then 0 else amount(ps[0]) + SumOf(ps[1..], amount)
  }

  /**
   * When each payment carries the share it was built from, the payments of a split add up to
   * the total, and a non-negative total gives each account between nothing and all of it.
   */
  lemma ShareOverSum<A, P>(xs: seq<A>, total: int, pay: (A, int) -> P, amount: P -> int)
    requires |xs| >= 1
    requires forall a, v :: amount(pay(a, v)) == v
    ensures SumOf(ShareOver(xs, total, pay), amount) == total
    ensures total >= 0 ==> forall k | 0 <= k < |xs| :: 0 <= amount(ShareOver(xs, total, pay)[k]) <= total
  {
    SharesSum(total, |xs|);
    if total >= 0 {
      SharesBounded(total, |xs|);
    }
    SumOfShares(ShareOver(xs, total, pay), Shares(total, |xs|), amount);
  }

  lemma {:induction false} SumOfShares<P>(ps: seq<P>, shares: seq<int>, amount: P -> int)
    requires |ps| == |shares|
    requires forall k | 0 <= k < |ps| :: amount(ps[k]) == shares[k]
    ensures SumOf(ps, amount) == Sum(shares)
  {
    if ps != [] {
      SumOfShares(ps[1..], shares[1..], amount);
    }
  }

  /** An amount in cents as reais. */
  function Reais(cents: int): real
  {
    cents as real / 100.0
  }

  /**
   * `round(uniform(0.0, amount * fraction), 2)` with a fraction of at most one: between
   * nothing and the whole amount.
   */
  lemma DrawnShareWithin(total: int, x: real, fraction: real)
    requires total >= 0 && 0.0 <= fraction <= 1.0 && UniformDraw(x, 0.0, Reais(total) * fraction)
    ensures 0 <= ToCents(x) <= total
  {
    assert 0.0 <= x <= Reais(total) * fraction;
    assert x * 100.0 <= total as real * fraction <= total as real;
    RoundBetween(0.0, x * 100.0, total);
    RoundInteger(0);
  }

  /** Scaling a non-negative amount by a factor of at least one never gives fewer cents. */
  lemma ScaledUp(total: int, factor: real, scaled: real)
    requires total >= 0 && 1.0 <= factor && scaled == total as real * factor
    ensures Scale(total, factor) >= total
  {
    assert Scale(total, factor) == RoundHalfEven(scaled);
    assert scaled - total as real == total as real * (factor - 1.0);
    RoundMonotone(total as real, scaled);
    RoundInteger(total);
  }
}
