/** Performance metrics over an equity curve and a trade log: maximum
    drawdown, win rate, profit factor, the average win over the average
    loss, and the report that gathers them. A trade record is represented
    by its `pnl` field, `None` when the record has none (which the metrics
    read as 0). Ratios that can be infinite use `Ratio`. */
module Metrics {
  import opened Common

  /** A float that may be `float('inf')`. */
  datatype Ratio = Finite(value: real) | Infinity

  // ---------------------------------------------------------------------------
  // Maximum drawdown
  // ---------------------------------------------------------------------------

  /** The fall of `equity` below `peak` as a percentage of the peak, or
      zero when the peak is not positive. */
  function Fall(peak: real, equity: real): real
  {
    if peak > 0.0 then (peak - equity) / peak * 100.0 else 0.0
  }

  /** `calculate_max_drawdown`: the largest fall from the running peak;
      zero for an empty curve. */
  function MaxDrawdown(curve: seq<real>): (r: real)
    ensures r >= 0.0
  {
    if curve == [] then 0.0
    else Max(MaxDrawdown(curve[..|curve| - 1]), Fall(MaxOf(curve), curve[|curve| - 1]))
  }

  /** The loop of `calculate_max_drawdown`. */
  method CalculateMaxDrawdown(curve: seq<real>) returns (maxDd: real)
    ensures maxDd == MaxDrawdown(curve)
  {
    if curve == [] {
      return 0.0;
    }
    var peak := curve[0];
    maxDd := 0.0;
    var i := 0;
    while i < |curve|
      invariant 0 <= i <= |curve|
      invariant i == 0 ==> peak == curve[0]
      invariant i > 0 ==> peak == MaxOf(curve[..i])
      invariant MaxDrawdown(curve[..i]) == maxDd
    {
      var equity := curve[i];
      MaxOfStep(curve, i, peak);
      assert curve[..i + 1][..i] == curve[..i];
      if equity > peak {
        peak := equity;
      }
      var dd := Fall(peak, equity);
      if dd > maxDd {
        maxDd := dd;
      }
      i := i + 1;
    }
    assert curve[..i] == curve;
  }

  /** A non-decreasing curve never falls below its running peak. */
  lemma {:induction false} RisingCurveHasNoDrawdown(curve: seq<real>)
    requires forall i, j :: 0 <= i <= j < |curve| ==> curve[i] <= curve[j]
    ensures MaxDrawdown(curve) == 0.0
  {
    if curve != [] {
      RisingCurveHasNoDrawdown(curve[..|curve| - 1]);
      assert MaxOf(curve) == curve[|curve| - 1];
    }
  }

  /** With no negative equity no fall exceeds 100%. */
  lemma {:induction false} DrawdownAtMostHundred(curve: seq<real>)
    requires forall i :: 0 <= i < |curve| ==> curve[i] >= 0.0
    ensures MaxDrawdown(curve) <= 100.0
  {
    if curve != [] {
      DrawdownAtMostHundred(curve[..|curve| - 1]);
      var peak := MaxOf(curve);
      if peak > 0.0 {
        DivBetween(peak - curve[|curve| - 1], peak, 0.0, 1.0);
      }
    }
  }

  /** Points under a non-positive running peak contribute nothing, so a
      curve that never rises above zero has no drawdown. */
  lemma {:induction false} NonPositivePeaksContributeNothing(curve: seq<real>)
    requires forall i :: 0 <= i < |curve| ==> curve[i] <= 0.0
    ensures MaxDrawdown(curve) == 0.0
  {
    if curve != [] {
      NonPositivePeaksContributeNothing(curve[..|curve| - 1]);
    }
  }

  // ---------------------------------------------------------------------------
  // Trade statistics
  // ---------------------------------------------------------------------------

  /** `trade.get('pnl', 0)`. */
  function PnlOf(pnl: Option<real>): real
  {
    if pnl.Some? then pnl.value else 0.0
  }

  function Wins(trades: seq<Option<real>>): (r: nat)
    ensures r <= |trades|
  {
    if trades == [] then 0
    else Wins(trades[..|trades| - 1]) + (if PnlOf(trades[|trades| - 1]) > 0.0 then 1 else 0)
  }

  function Losses(trades: seq<Option<real>>): (r: nat)
    ensures r <= |trades|
  {
    if trades == [] then 0
    else Losses(trades[..|trades| - 1]) + (if PnlOf(trades[|trades| - 1]) < 0.0 then 1 else 0)
  }

  /** Every trade is a win exactly when every pnl is positive. */
  lemma {:induction false} AllWins(trades: seq<Option<real>>)
    ensures Wins(trades) == |trades| <==> forall i :: 0 <= i < |trades| ==> PnlOf(trades[i]) > 0.0
  {
    if trades != [] {
      var prefix := trades[..|trades| - 1];
      AllWins(prefix);
      assert forall i :: 0 <= i < |prefix| ==> prefix[i] == trades[i];
    }
  }

  /** `calculate_win_rate`: the percentage of trades with a positive pnl;
      zero with no trades, and 100 exactly when every trade won. */
  function WinRate(trades: seq<Option<real>>): (r: real)
    ensures 0.0 <= r <= 100.0
    ensures trades == [] ==> r == 0.0
    ensures r == 100.0 <==> trades != [] && forall i :: 0 <= i < |trades| ==> PnlOf(trades[i]) > 0.0
  {
    AllWins(trades);
    if trades == [] then 0.0
    else
      var wins, count := Wins(trades) as real, |trades| as real;
      DivBetween(wins, count, 0.0, 1.0);
      assert wins / count == 1.0 ==> wins == count;
      wins / count * 100.0
  }

  /** The sum of the positive pnls. */
  function GrossProfit(trades: seq<Option<real>>): (r: real)
    ensures r >= 0.0
    ensures r > 0.0 <==> Wins(trades) > 0
  {
    if trades == [] then 0.0
    else
      var p := PnlOf(trades[|trades| - 1]);
      GrossProfit(trades[..|trades| - 1]) + (if p > 0.0 then p else 0.0)
  }

  /** The sum of the negative pnls. */
  function NegativeSum(trades: seq<Option<real>>): (r: real)
    ensures r <= 0.0
    ensures r < 0.0 <==> Losses(trades) > 0
  {
    if trades == [] then 0.0
    else
      var p := PnlOf(trades[|trades| - 1]);
      NegativeSum(trades[..|trades| - 1]) + (if p < 0.0 then p else 0.0)
  }

  /** The sum of the losses' magnitudes. */
  function LossMagnitudes(trades: seq<Option<real>>): real
  {
    if trades == [] then 0.0
    else
      var p := PnlOf(trades[|trades| - 1]);
      LossMagnitudes(trades[..|trades| - 1]) + (if p < 0.0 then Abs(p) else 0.0)
  }

  /** The sum of the losses' magnitudes is the magnitude of their sum. */
  lemma {:induction false} LossMagnitudesAreNegatedSum(trades: seq<Option<real>>)
    ensures LossMagnitudes(trades) == -NegativeSum(trades) == Abs(NegativeSum(trades))
  {
    if trades != [] {
      LossMagnitudesAreNegatedSum(trades[..|trades| - 1]);
    }
  }

  /** The total pnl. */
  function TotalPnl(trades: seq<Option<real>>): real
  {
    if trades == [] then 0.0 else TotalPnl(trades[..|trades| - 1]) + PnlOf(trades[|trades| - 1])
  }

  /** Gross profit minus gross loss is the net pnl. */
  lemma {:induction false} ProfitMinusLoss(trades: seq<Option<real>>)
    ensures GrossProfit(trades) - Abs(NegativeSum(trades)) == TotalPnl(trades)
  {
    if trades != [] {
      ProfitMinusLoss(trades[..|trades| - 1]);
    }
  }

  /** `calculate_profit_factor`: gross profit over gross loss; zero with no
      trades; with no loss, infinite when there was a profit and zero
      otherwise. */
  function ProfitFactor(trades: seq<Option<real>>): (r: Ratio)
    ensures trades == [] ==> r == Finite(0.0)
    ensures r == Infinity <==> Losses(trades) == 0 && Wins(trades) > 0
    ensures r.Finite? ==> r.value >= 0.0
    ensures r.Finite? && Losses(trades) > 0 ==> r.value * Abs(NegativeSum(trades)) == GrossProfit(trades)
  {
    if trades == [] then Finite(0.0)
    else
      var grossProfit := GrossProfit(trades);
      var grossLoss := Abs(NegativeSum(trades));
      if grossLoss == 0.0 then (if grossProfit > 0.0 then Infinity else Finite(0.0))
      else
        DivNonNegative(grossProfit, grossLoss);
        Finite(grossProfit / grossLoss)
  }

  /** `calculate_average_win_loss_ratio`: the mean win over the mean loss
      magnitude; zero with no trades, no wins or no losses. The infinite
      result for a zero mean loss cannot occur, since every loss has a
      positive magnitude. */
  function AverageWinLoss(trades: seq<Option<real>>): (r: Ratio)
    ensures Wins(trades) == 0 || Losses(trades) == 0 ==> r == Finite(0.0)
    ensures r.Finite? && r.value >= 0.0
    ensures Wins(trades) > 0 && Losses(trades) > 0 ==> r.value > 0.0
  {
    if trades == [] then Finite(0.0)
    else if Wins(trades) == 0 || Losses(trades) == 0 then Finite(0.0)
    else
      var avgWin := GrossProfit(trades) / Wins(trades) as real;
      LossMagnitudesAreNegatedSum(trades);
      var avgLoss := LossMagnitudes(trades) / Losses(trades) as real;
      if avgLoss == 0.0 then Infinity
      else Finite(avgWin / avgLoss)
  }

  // ---------------------------------------------------------------------------
  // Report
  // ---------------------------------------------------------------------------

  /** The period returns of a curve: each point's change over the previous
      point. A previous point of zero divides by zero and raises. */
  function PeriodReturns(curve: seq<real>): (r: Outcome<seq<real>>)
    ensures r.Returned? <==> forall i :: 0 <= i < |curve| - 1 ==> curve[i] != 0.0
    ensures r.Returned? ==> |r.value| == if curve == [] then 0 else |curve| - 1
    ensures r.Returned? ==> forall i :: 0 <= i < |r.value| ==> r.value[i] == RelativeChange(curve[i], curve[i + 1])
  {
    if |curve| <= 1 then Returned([])
    else
      var prefix := curve[..|curve| - 1];
      var before := PeriodReturns(prefix);
      var previous := curve[|curve| - 2];
      assert forall i :: 0 <= i < |prefix| ==> prefix[i] == curve[i];
      if before.Raised? then before
      else if previous == 0.0 then Raised("float division by zero")
      else Returned(before.value + [RelativeChange(previous, curve[|curve| - 1])])
  }

  /** The report; the Sharpe, Sortino and Calmar ratios are not modelled and
      the period returns they are computed from stand in their place. */
  datatype Report =
    | EmptyReport
    | Report(totalReturnPct: real, finalEquity: real, maxDrawdownPct: real, periodReturns: seq<real>,
             totalTrades: nat, winRatePct: real, profitFactor: Ratio, avgWinLossRatio: Ratio)

  /** `generate_performance_report`: empty for an empty curve; otherwise
      the return on the initial balance (raising when that is zero), the
      period returns (raising on a zero point before the last) and the
      metrics above. */
  function PerformanceReport(curve: seq<real>, trades: seq<Option<real>>, initialBalance: real): (r: Outcome<Report>)
    ensures curve == [] ==> r == Returned(EmptyReport)
    ensures curve != [] && initialBalance == 0.0 ==> r.Raised?
    ensures r.Returned? && r.value.Report? ==>
              r.value.totalTrades == |trades| && r.value.finalEquity == curve[|curve| - 1]
              && |r.value.periodReturns| == |curve| - 1
              && r.value.maxDrawdownPct >= 0.0 && 0.0 <= r.value.winRatePct <= 100.0
  {
    if curve == [] then Returned(EmptyReport)
    else if initialBalance == 0.0 then Raised("float division by zero")
    else
      var finalEquity := curve[|curve| - 1];
      var totalReturn := RelativeChange(initialBalance, finalEquity) * 100.0;
      var periodReturns := PeriodReturns(curve);
      if periodReturns.Raised? then Raised(periodReturns.message)
      else Returned(Report(totalReturn, finalEquity, MaxDrawdown(curve), periodReturns.value,
                           |trades|, WinRate(trades), ProfitFactor(trades), AverageWinLoss(trades)))
  }

  /** Once a prefix of the curve makes the period returns raise, the whole
      curve does. */
  lemma {:induction false} PeriodReturnsRaisedSticks(curve: seq<real>, n: nat)
    requires 1 <= n <= |curve| && PeriodReturns(curve[..n]).Raised?
    ensures PeriodReturns(curve) == PeriodReturns(curve[..n])
    decreases |curve| - n
  {
    if n < |curve| {
      assert curve[..n + 1][..n] == curve[..n];
      PeriodReturnsRaisedSticks(curve, n + 1);
    } else {
      assert curve[..n] == curve;
    }
  }

  /** The returns loop of `generate_performance_report`. */
  method CalculatePeriodReturns(curve: seq<real>) returns (r: Outcome<seq<real>>)
    requires curve != []
    ensures r == PeriodReturns(curve)
  {
    var periodReturns := [];
    var i := 1;
    while i < |curve|
      invariant 1 <= i <= |curve|
      invariant PeriodReturns(curve[..i]) == Returned(periodReturns)
    {
      assert curve[..i + 1][..i] == curve[..i];
      if curve[i - 1] == 0.0 {
        assert PeriodReturns(curve[..i + 1]) == Raised("float division by zero");
        PeriodReturnsRaisedSticks(curve, i + 1);
        return Raised("float division by zero");
      }
      periodReturns := periodReturns + [RelativeChange(curve[i - 1], curve[i])];
      i := i + 1;
    }
    assert curve[..i] == curve;
    r := Returned(periodReturns);
  }

  /** `generate_performance_report`. */
  method GeneratePerformanceReport(curve: seq<real>, trades: seq<Option<real>>, initialBalance: real)
    returns (r: Outcome<Report>)
    ensures r == PerformanceReport(curve, trades, initialBalance)
  {
    if curve == [] {
      return Returned(EmptyReport);
    }
    var finalEquity := curve[|curve| - 1];
    if initialBalance == 0.0 {
      return Raised("float division by zero");
    }
    var totalReturn := RelativeChange(initialBalance, finalEquity) * 100.0;
    var periodReturns := CalculatePeriodReturns(curve);
    if periodReturns.Raised? {
      return Raised(periodReturns.message);
    }
    var maxDd := CalculateMaxDrawdown(curve);
    r := Returned(Report(totalReturn, finalEquity, maxDd, periodReturns.value,
                         |trades|, WinRate(trades), ProfitFactor(trades), AverageWinLoss(trades)));
  }
}
