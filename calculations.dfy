/**
 * The derivation arithmetic (lib/utils/calculations.ts): investment, present
 * value, gain/loss and share of the portfolio, over real numbers.
 */
module Calculations {
  import opened Js

  /** Math.max(0, x) */
  function Max0(x: real): (r: real)
    ensures r >= 0.0 && r >= x && (r == 0.0 || r == x)
  {
    if x > 0.0 then x else 0.0
  }

  /** Negative prices and quantities are clamped to zero, never rejected. */
  function CalculateInvestment(price: real, quantity: real): (r: real)
    ensures r >= 0.0
    ensures price >= 0.0 && quantity >= 0.0 ==> r == price * quantity
    ensures price <= 0.0 || quantity <= 0.0 ==> r == 0.0
  {
    Max0(price) * Max0(quantity)
  }

  /** A missing price counts as a present value of zero. */
  function CalculatePresentValue(cmp: Option<real>, quantity: real): (r: real)
    ensures cmp.None? || quantity <= 0.0 ==> r == 0.0
    ensures cmp.Some? && quantity >= 0.0 ==> r == cmp.value * quantity
    ensures cmp.Some? && cmp.value >= 0.0 ==> r >= 0.0
  {
    (match cmp case Some(p) => p case None => 0.0) * Max0(quantity)
  }

  function CalculateGainLoss(presentValue: real, investment: real): (r: real)
    ensures r + investment == presentValue
  {
    presentValue - investment
  }

  /** `!totalInvestment` holds for a zero total, and then the share is 0. */
  function CalculatePortfolioPercentage(investment: real, totalInvestment: real): (r: real)
    ensures totalInvestment == 0.0 ==> r == 0.0
    ensures totalInvestment != 0.0 ==> r * totalInvestment == investment * 100.0
    ensures 0.0 <= investment <= totalInvestment ==> 0.0 <= r <= 100.0
  {
    if totalInvestment == 0.0 then 0.0 else investment / totalInvestment * 100.0
  }

  /** A null price gives a loss of the whole investment. */
  lemma NullPriceLosesInvestment(price: real, quantity: real)
    ensures CalculateGainLoss(CalculatePresentValue(None, quantity), CalculateInvestment(price, quantity))
         == -CalculateInvestment(price, quantity)
  {
  }

  /** The sum of a sequence, added left to right as Array.prototype.reduce does. */
  function Sum(xs: seq<real>): real
  {
    if xs == [] then 0.0 else Sum(xs[..|xs| - 1]) + xs[|xs| - 1]
  }

  /** Each amount's share of `total`. */
  function Shares(xs: seq<real>, total: real): (r: seq<real>)
    ensures |r| == |xs|
    ensures forall i :: 0 <= i < |xs| ==> r[i] == CalculatePortfolioPercentage(xs[i], total)
  {
    seq(|xs|, i requires 0 <= i < |xs| => CalculatePortfolioPercentage(xs[i], total))
  }

  lemma {:induction false} SharesSum(xs: seq<real>, total: real)
    requires total != 0.0
    ensures Sum(Shares(xs, total)) == Sum(xs) * (100.0 / total)
    decreases |xs|
  {
    if xs != [] {
      var n := |xs|;
      var c := 100.0 / total;
      var shares := Shares(xs, total);
      assert shares[..n - 1] == Shares(xs[..n - 1], total);
      SharesSum(xs[..n - 1], total);
      assert Sum(shares) == Sum(shares[..n - 1]) + shares[n - 1];
      assert Sum(xs) == Sum(xs[..n - 1]) + xs[n - 1];
      ShareIsScaled(xs[n - 1], total);
      Distribute(Sum(xs[..n - 1]), xs[n - 1], c);
    }
  }

  lemma ShareIsScaled(x: real, total: real)
    requires total != 0.0
    ensures CalculatePortfolioPercentage(x, total) == x * (100.0 / total)
  {
  }

  lemma Distribute(a: real, b: real, c: real)
    ensures a * c + b * c == (a + b) * c
  {
  }

  /** When the total is the positive sum of the amounts, the shares add up to 100. */
  lemma SharesOfTotalSumTo100(xs: seq<real>)
    requires Sum(xs) > 0.0
    ensures Sum(Shares(xs, Sum(xs))) == 100.0
  {
    SharesSum(xs, Sum(xs));
    ScaleBack(Sum(xs));
  }

  lemma ScaleBack(t: real)
    requires t != 0.0
    ensures t * (100.0 / t) == 100.0
  {
  }

  /** When the total is zero every share is 0. */
  lemma SharesOfZeroTotal(xs: seq<real>)
    ensures forall i :: 0 <= i < |xs| ==> Shares(xs, 0.0)[i] == 0.0
  {
  }

  lemma {:induction false} ElementAtMostSum(xs: seq<real>, k: nat)
    requires forall i :: 0 <= i < |xs| ==> xs[i] >= 0.0
    requires k < |xs|
    ensures 0.0 <= xs[k] <= Sum(xs)
    ensures Sum(xs) >= 0.0
    decreases |xs|
  {
    var n := |xs|;
    if k < n - 1 {
      ElementAtMostSum(xs[..n - 1], k);
    } else if n > 1 {
      ElementAtMostSum(xs[..n - 1], 0);
    }
  }

  /** Non-negative amounts each take a share between 0 and 100 of their sum. */
  lemma SharesInRange(xs: seq<real>)
    requires forall i :: 0 <= i < |xs| ==> xs[i] >= 0.0
    ensures forall i :: 0 <= i < |xs| ==> 0.0 <= Shares(xs, Sum(xs))[i] <= 100.0
  {
    forall i | 0 <= i < |xs|
      ensures 0.0 <= Shares(xs, Sum(xs))[i] <= 100.0
    {
      ElementAtMostSum(xs, i);
    }
  }
}
