/** Marketplace figures from closed trades (src/services/reconcile.service.ts, `recomputeStrategyStats`). */
module StrategyStats {
  import opened Common

  /** Percentages of the notional 100, in hundredths of a percent, and the counts beside them. */
  datatype Stats = Stats(totalTrades: nat, winRate: int, totalReturn: int, maxDrawdown: int, memberCount: nat)

  /** `n` hundredths is nearest to `x`. */
  predicate IsNearestHundredth(n: int, x: real) {
    -1.0 <= 2.0 * (n as real - x * 100.0) <= 1.0
  }

  /** Two decimals, halves away from zero. */
  function ToHundredths(x: real): (n: int)
    ensures IsNearestHundredth(n, x)
  {
    if x >= 0.0 then HundredthsUp(x) else -HundredthsUp(-x)
  }

  function HundredthsUp(x: real): (n: int)
    ensures IsNearestHundredth(n, x)
  {
    (x * 100.0 + 0.5).Floor
  }

  /** The equity curve from a notional 100. */
  function Equity(profits: seq<real>, n: nat): real
    requires n <= |profits|
  {
    if n == 0 then 100.0 else Equity(profits, n - 1) + profits[n - 1]
  }

  /** The highest point of the curve so far. */
  ghost predicate IsPeak(profits: seq<real>, n: nat, peak: real)
    requires n <= |profits|
  {
    && (forall i :: 0 <= i <= n ==> Equity(profits, i) <= peak)
    && exists i :: 0 <= i <= n && Equity(profits, i) == peak
  }

  function Peak(profits: seq<real>, n: nat): (peak: real)
    requires n <= |profits|
    ensures IsPeak(profits, n, peak)
  {
    if n == 0 then
      assert Equity(profits, 0) == 100.0;
      100.0
    else
      var before := Peak(profits, n - 1);
      if Equity(profits, n) > before then Equity(profits, n) else before
  }

  lemma PeakIsPositive(profits: seq<real>, n: nat)
    requires n <= |profits|
    ensures Peak(profits, n) >= 100.0
  {
    assert Equity(profits, 0) == 100.0;
  }

  function FallFrom(peak: real, equity: real): real
    requires peak > 0.0
  {
    (peak - equity) / peak * 100.0
  }

  /** The fall from the running peak, in percent of it. */
  function Fall(profits: seq<real>, n: nat): real
    requires n <= |profits|
  {
    PeakIsPositive(profits, n);
    FallFrom(Peak(profits, n), Equity(profits, n))
  }

  /** The deepest fall from the running peak over the whole curve. */
  ghost predicate IsMaxDrawdown(profits: seq<real>, drawdown: real) {
    && (forall n :: 0 <= n <= |profits| ==> Fall(profits, n) <= drawdown)
    && exists n :: 0 <= n <= |profits| && Fall(profits, n) == drawdown
  }

  ghost predicate DeepestUpTo(profits: seq<real>, n: nat, drawdown: real)
    requires n <= |profits|
  {
    && (forall i :: 0 <= i <= n ==> Fall(profits, i) <= drawdown)
    && exists i :: 0 <= i <= n && Fall(profits, i) == drawdown
  }

  ghost function Winners(profits: seq<real>): set<int> {
    set i | 0 <= i < |profits| && profits[i] > 0.0
  }

  /** How many trades made money. */
  function CountWins(profits: seq<real>): (wins: nat)
    ensures wins == |Winners(profits)|
  {
    if profits == [] then
      0
    else
      var n := |profits| - 1;
      assert Winners(profits) == Winners(profits[..n]) + (if profits[n] > 0.0 then {n} else {});
      CountWins(profits[..n]) + (if profits[n] > 0.0 then 1 else 0)
  }

  /** The deepest fall seen so far. */
  function Deepest(profits: seq<real>, n: nat): real
    requires n <= |profits|
  {
    if n == 0 then 0.0
    else if Fall(profits, n) > Deepest(profits, n - 1) then Fall(profits, n)
    else Deepest(profits, n - 1)
  }

  lemma NoFallAtFirst(profits: seq<real>)
    ensures Fall(profits, 0) == 0.0
  {
  }

  lemma {:induction false} DeepestMeaning(profits: seq<real>, n: nat)
    requires n <= |profits|
    ensures DeepestUpTo(profits, n, Deepest(profits, n))
  {
    if n == 0 {
      NoFallAtFirst(profits);
    } else {
      DeepestMeaning(profits, n - 1);
    }
  }

  /** The one-pass loop over the closed trades. */
  method EquityCurve(profits: seq<real>) returns (equity: real, maxDrawdown: real)
    ensures equity == Equity(profits, |profits|)
    ensures IsMaxDrawdown(profits, maxDrawdown)
  {
    var peak := 100.0;
    equity, maxDrawdown := 100.0, 0.0;
    for i := 0 to |profits|
      invariant equity == Equity(profits, i) && peak == Peak(profits, i)
      invariant maxDrawdown == Deepest(profits, i)
    {
      equity := equity + profits[i];
      peak := if equity > peak then equity else peak;
      PeakIsPositive(profits, i + 1);
      if peak > 0.0 {
        var fall := FallFrom(peak, equity);
        maxDrawdown := if fall > maxDrawdown then fall else maxDrawdown;
      }
    }
    DeepestMeaning(profits, |profits|);
  }

  /** `allTrades` and `members` are the two counts the database returns. */
  method RecomputeStrategyStats(profits: seq<real>, allTrades: nat, members: nat) returns (stats: Stats)
    ensures stats.totalTrades == allTrades && stats.memberCount == members
    ensures profits == [] ==> stats == Stats(allTrades, 0, 0, 0, members)
    ensures profits != [] ==> IsNearest(stats.winRate, |Winners(profits)| * 10000, |profits|)
    ensures IsNearestHundredth(stats.totalReturn, Equity(profits, |profits|) - 100.0)
    ensures forall drawdown :: IsMaxDrawdown(profits, drawdown) ==> IsNearestHundredth(stats.maxDrawdown, drawdown)
  {
    var wins := CountWins(profits);
    var equity, maxDrawdown := EquityCurve(profits);
    var winRate := if |profits| > 0 then Round(wins * 10000, |profits|) else 0;
    stats := Stats(allTrades, winRate, if |profits| > 0 then ToHundredths(equity - 100.0) else 0,
                   ToHundredths(maxDrawdown), members);
    NoFallAtFirst(profits);
  }

  // ---- What the figure means -----------------------------------------------

  /** The fall between two chosen moments, in percent of the first. */
  function PairFall(profits: seq<real>, i: nat, j: nat): real
    requires i <= j <= |profits| && Equity(profits, i) > 0.0
  {
    FallFrom(Equity(profits, i), Equity(profits, j))
  }

  predicate NeverNegative(profits: seq<real>) {
    forall n :: 0 <= n <= |profits| ==> Equity(profits, n) >= 0.0
  }

  lemma Unscale(x: real, start: real)
    requires start > 0.0
    ensures x * start / start == x
    ensures x * start >= 0.0 ==> x >= 0.0
  {
  }

  /** What is left of a start, and what was lost of it, make one. */
  lemma KeptAndLost(start: real, low: real)
    requires start > 0.0
    ensures (start - low) / start == 1.0 - low / start
    ensures low >= 0.0 ==> low / start >= 0.0
  {
    var kept := low / start;
    assert kept * start == low;
    Unscale(kept, start);
    var lost := 1.0 - kept;
    assert lost * start == start - low;
    Unscale(lost, start);
  }

  /** The same non-negative low is a smaller part of a higher start. */
  lemma SmallerShare(a: real, b: real, start: real, peak: real)
    requires 0.0 < start <= peak && a >= 0.0
    requires a * start == b * peak
    ensures b <= a
  {
  }

  /** Measured from a higher start, the same non-negative low is a deeper fall. */
  lemma HigherStartFallsDeeper(start: real, peak: real, low: real)
    requires 0.0 < start <= peak && low >= 0.0
    ensures (start - low) / start <= (peak - low) / peak
  {
    KeptAndLost(start, low);
    KeptAndLost(peak, low);
    SmallerShare(low / start, low / peak, start, peak);
  }

  /** The figure is always reached between some two moments. */
  lemma DrawdownIsAFall(profits: seq<real>, drawdown: real) returns (i: nat, j: nat)
    requires IsMaxDrawdown(profits, drawdown)
    ensures i <= j <= |profits| && Equity(profits, i) > 0.0
    ensures PairFall(profits, i, j) == drawdown
  {
    j :| 0 <= j <= |profits| && Fall(profits, j) == drawdown;
    PeakIsPositive(profits, j);
    i :| 0 <= i <= j && Equity(profits, i) == Peak(profits, j);
  }

  /**
   * On a curve that never goes negative, the one-pass figure is the deepest
   * fall between any two moments, lies in [0, 100], and is at least the loss.
   */
  lemma DrawdownMeaning(profits: seq<real>, drawdown: real)
    requires IsMaxDrawdown(profits, drawdown) && NeverNegative(profits)
    ensures forall i, j :: 0 <= i <= j <= |profits| && Equity(profits, i) > 0.0 ==> PairFall(profits, i, j) <= drawdown
    ensures 0.0 <= drawdown <= 100.0
    ensures drawdown >= -(Equity(profits, |profits|) - 100.0)
  {
    forall i, j | 0 <= i <= j <= |profits| && Equity(profits, i) > 0.0
      ensures PairFall(profits, i, j) <= drawdown
    {
      HigherStartFallsDeeper(Equity(profits, i), Peak(profits, j), Equity(profits, j));
      assert Fall(profits, j) <= drawdown;
    }
    assert Equity(profits, 0) == 100.0;
    assert PairFall(profits, 0, 0) <= drawdown;
    assert PairFall(profits, 0, |profits|) <= drawdown;
    var i, j := DrawdownIsAFall(profits, drawdown);
    KeptAndLost(Equity(profits, i), Equity(profits, j));
  }

  // ---- Exactly when it means that ------------------------------------------

  lemma NegativeFactor(x: real, y: real)
    requires y > 0.0 && x * y < 0.0
    ensures x < 0.0
  {
  }

  lemma PositiveFactor(x: real, y: real)
    requires y > 0.0 && x * y > 0.0
    ensures x > 0.0
  {
  }

  lemma FallBeyondHundredIff(peak: real, equity: real)
    requires peak > 0.0
    ensures FallFrom(peak, equity) <= 100.0 <==> equity >= 0.0
  {
    var kept := equity / peak;
    assert kept * peak == equity;
    KeptAndLost(peak, equity);
    if equity < 0.0 {
      NegativeFactor(kept, peak);
    }
  }

  /** The figure stays within 100 percent if and only if the curve never goes negative. */
  lemma WithinHundredIff(profits: seq<real>, drawdown: real)
    requires IsMaxDrawdown(profits, drawdown)
    ensures drawdown <= 100.0 <==> NeverNegative(profits)
  {
    forall n | 0 <= n <= |profits|
      ensures Fall(profits, n) <= 100.0 <==> Equity(profits, n) >= 0.0
    {
      PeakIsPositive(profits, n);
      FallBeyondHundredIff(Peak(profits, n), Equity(profits, n));
    }
    if NeverNegative(profits) {
      var n :| 0 <= n <= |profits| && Fall(profits, n) == drawdown;
    } else {
      var n :| 0 <= n <= |profits| && Equity(profits, n) < 0.0;
      assert Fall(profits, n) <= drawdown;
    }
  }

  /** The lowest point of the curve so far that was still above zero. */
  ghost predicate IsLowStart(profits: seq<real>, n: nat, low: real)
    requires n <= |profits|
  {
    && low > 0.0
    && (forall i :: 0 <= i <= n && Equity(profits, i) > 0.0 ==> low <= Equity(profits, i))
    && exists i :: 0 <= i <= n && Equity(profits, i) == low
  }

  function LowStart(profits: seq<real>, n: nat): (low: real)
    requires n <= |profits|
    ensures IsLowStart(profits, n, low)
  {
    if n == 0 then
      assert Equity(profits, 0) == 100.0;
      100.0
    else
      var before := LowStart(profits, n - 1);
      if 0.0 < Equity(profits, n) < before then Equity(profits, n) else before
  }

  /** A negative low is a deeper fall from a lower start. */
  lemma LowerStartFallsDeeper(start: real, peak: real, low: real)
    requires 0.0 < start < peak && low < 0.0
    ensures FallFrom(start, low) > FallFrom(peak, low)
  {
    KeptAndLost(start, low);
    KeptAndLost(peak, low);
    LargerShare(low / start, low / peak, start, peak, low);
  }

  lemma LargerShare(a: real, b: real, start: real, peak: real, low: real)
    requires 0.0 < start < peak && low < 0.0
    requires a * start == low && b * peak == low
    ensures a < b
  {
    NegativeFactor(b, peak);
    assert (0.0 - b) * (peak - start) > 0.0;
    assert (b - a) * start == (0.0 - b) * (peak - start);
    PositiveFactor(b - a, start);
  }

  lemma HigherStartFallsFurther(start: real, peak: real, low: real)
    requires 0.0 < start <= peak && low >= 0.0
    ensures FallFrom(start, low) <= FallFrom(peak, low)
  {
    HigherStartFallsDeeper(start, peak, low);
  }

  /** A fall to a low that is not negative is deepest from the running peak. */
  lemma DeepestFromPeak(profits: seq<real>, i: nat, j: nat)
    requires i <= j <= |profits| && Equity(profits, i) > 0.0 && Equity(profits, j) >= 0.0
    ensures PairFall(profits, i, j) <= Fall(profits, j)
  {
    HigherStartFallsFurther(Equity(profits, i), Peak(profits, j), Equity(profits, j));
  }

  /** A fall to a negative low is deepest from the lowest positive start. */
  lemma DeepestFromLow(profits: seq<real>, i: nat, j: nat)
    requires i <= j <= |profits| && Equity(profits, i) > 0.0 && Equity(profits, j) < 0.0
    ensures PairFall(profits, i, j) <= FallFrom(LowStart(profits, j), Equity(profits, j))
  {
    if LowStart(profits, j) < Equity(profits, i) {
      LowerStartFallsDeeper(LowStart(profits, j), Equity(profits, i), Equity(profits, j));
    }
  }

  /** The fall from the running peak is the deepest of all that end at `j`. */
  ghost predicate DeepestAt(profits: seq<real>, j: nat)
    requires j <= |profits|
  {
    forall i :: 0 <= i <= j && Equity(profits, i) > 0.0 ==> PairFall(profits, i, j) <= Fall(profits, j)
  }

  lemma LowerStartMissed(profits: seq<real>, j: nat)
    requires j <= |profits| && Equity(profits, j) < 0.0 && LowStart(profits, j) != Peak(profits, j)
    ensures !DeepestAt(profits, j)
  {
    PeakIsPositive(profits, j);
    var i: nat :| i <= j && Equity(profits, i) == LowStart(profits, j);
    LowerStartFallsDeeper(Equity(profits, i), Peak(profits, j), Equity(profits, j));
    assert PairFall(profits, i, j) > Fall(profits, j);
  }

  /**
   * At each moment, the fall from the running peak is the deepest one ending
   * there if and only if the curve is not negative there, or every positive
   * point before it was at the peak.
   */
  lemma FallIsDeepestIff(profits: seq<real>, j: nat)
    requires j <= |profits|
    ensures DeepestAt(profits, j) <==> Equity(profits, j) >= 0.0 || LowStart(profits, j) == Peak(profits, j)
  {
    if Equity(profits, j) < 0.0 && LowStart(profits, j) != Peak(profits, j) {
      LowerStartMissed(profits, j);
    } else {
      forall i: nat | i <= j && Equity(profits, i) > 0.0
        ensures PairFall(profits, i, j) <= Fall(profits, j)
      {
        if Equity(profits, j) >= 0.0 {
          DeepestFromPeak(profits, i, j);
        } else {
          DeepestFromLow(profits, i, j);
        }
      }
    }
  }

  /** Some fall from a running peak is at least as deep as the one from the lowest positive start to `j`. */
  ghost predicate Covered(profits: seq<real>, j: nat)
    requires j <= |profits|
  {
    exists n :: 0 <= n <= |profits| && FallFrom(LowStart(profits, j), Equity(profits, j)) <= Fall(profits, n)
  }

  /**
   * The figure is the deepest fall between any two moments if and only if every
   * negative low, measured from the lowest positive point before it, is no
   * deeper than some fall from the running peak.
   */
  lemma DrawdownIsDeepestIff(profits: seq<real>, drawdown: real)
    requires IsMaxDrawdown(profits, drawdown)
    ensures (forall i, j :: 0 <= i <= j <= |profits| && Equity(profits, i) > 0.0 ==>
             PairFall(profits, i, j) <= drawdown)
            <==> (forall j :: 0 <= j <= |profits| && Equity(profits, j) < 0.0 ==> Covered(profits, j))
  {
    if forall j :: 0 <= j <= |profits| && Equity(profits, j) < 0.0 ==> Covered(profits, j) {
      forall i: nat, j: nat | i <= j <= |profits| && Equity(profits, i) > 0.0
        ensures PairFall(profits, i, j) <= drawdown
      {
        if Equity(profits, j) < 0.0 {
          DeepestFromLow(profits, i, j);
          assert Covered(profits, j);
        } else {
          DeepestFromPeak(profits, i, j);
        }
      }
    } else {
      var j: nat :| j <= |profits| && Equity(profits, j) < 0.0 && !Covered(profits, j);
      var i: nat :| i <= j && Equity(profits, i) == LowStart(profits, j);
      var n: nat :| n <= |profits| && Fall(profits, n) == drawdown;
      assert PairFall(profits, i, j) > drawdown;
    }
  }

  /** Such a curve: from 100 to 50 to -50 the figure is 150 percent, where the deepest fall is 200. */
  lemma NegativeCurveBreaksTheMeaning(drawdown: real)
    requires IsMaxDrawdown([-50.0, -100.0], drawdown)
    ensures drawdown == 150.0
    ensures Equity([-50.0, -100.0], 1) > 0.0 && PairFall([-50.0, -100.0], 1, 2) == 200.0
  {
    var profits := [-50.0, -100.0];
    assert Equity(profits, 0) == 100.0;
    assert Equity(profits, 1) == 50.0;
    assert Equity(profits, 2) == -50.0;
    assert Peak(profits, 0) == 100.0;
    assert Peak(profits, 1) == 100.0;
    assert Peak(profits, 2) == 100.0;
    assert Fall(profits, 0) == 0.0 && Fall(profits, 1) == 50.0 && Fall(profits, 2) == 150.0;
  }
}
