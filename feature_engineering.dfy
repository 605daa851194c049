/** The incremental indicator engine: bounded rolling buffers fed from klines
    and the current price, and the EMA, ATR, RSI, Bollinger and VWAP
    indicators computed from them. Every indicator is absent until its input
    reaches the warm-up length. */
module FeatureEngineering {
  import opened Common
  import opened Events
  import opened Models

  /** The configured periods the engine reads. */
  datatype FeatureSettings = FeatureSettings(
    emaShortPeriod: nat,
    emaLongPeriod: nat,
    atrPeriod: nat,
    rsiPeriod: nat,
    volatilityLookback: nat,
    bollingerPeriod: nat,
    bollingerStdDev: real)

  predicate ValidSettings(c: FeatureSettings)
  {
    c.emaShortPeriod >= 1 && c.emaLongPeriod >= 1 && c.atrPeriod >= 1 &&
    c.rsiPeriod >= 1 && c.bollingerPeriod >= 1
  }

  /** Maximum lengths of the deques. */
  function Ema9Cap(c: FeatureSettings): nat { c.emaShortPeriod * 2 }
  function Ema50Cap(c: FeatureSettings): nat { c.emaLongPeriod * 2 }
  function PriceCap(c: FeatureSettings): nat
  {
    if c.volatilityLookback >= c.bollingerPeriod then c.volatilityLookback else c.bollingerPeriod
  }
  function CloseCap(c: FeatureSettings): nat
  {
    if c.atrPeriod >= c.rsiPeriod + 1 then c.atrPeriod else c.rsiPeriod + 1
  }

  /** `xs[-n:]` for n >= 1, and what a deque with `maxlen = n` keeps of the
      values appended to it. */
  function Last<T>(s: seq<T>, n: nat): (r: seq<T>)
    ensures |r| == if |s| <= n then |s| else n
  {
    if |s| <= n then s else s[|s| - n..]
  }

  lemma LastIndex<T>(s: seq<T>, n: nat, i: nat)
    requires i < |Last(s, n)|
    ensures Last(s, n)[i] == s[|s| - |Last(s, n)| + i]
  {
  }

  /** Appending to a full deque drops the oldest element: keeping the last n
      of the kept values plus the new one is keeping the last n of everything. */
  lemma LastAppend<T>(s: seq<T>, x: T, n: nat)
    ensures Last(Last(s, n) + [x], n) == Last(s + [x], n)
  {
    var l := Last(Last(s, n) + [x], n);
    var r := Last(s + [x], n);
    assert |l| == |r|;
    forall i | 0 <= i < |l| ensures l[i] == r[i] {
      LastIndex(Last(s, n) + [x], n, i);
      LastIndex(s + [x], n, i);
      if i < |l| - 1 {
        LastIndex(s, n, |Last(s, n)| + 1 - |l| + i);
      }
    }
  }

  function Highs(bars: seq<KlineEvent>): (r: seq<real>)
    ensures |r| == |bars| && forall i :: 0 <= i < |bars| ==> r[i] == bars[i].high
  {
    if bars == [] then [] else Highs(bars[..|bars| - 1]) + [bars[|bars| - 1].high]
  }

  function Lows(bars: seq<KlineEvent>): (r: seq<real>)
    ensures |r| == |bars| && forall i :: 0 <= i < |bars| ==> r[i] == bars[i].low
  {
    if bars == [] then [] else Lows(bars[..|bars| - 1]) + [bars[|bars| - 1].low]
  }

  function Closes(bars: seq<KlineEvent>): (r: seq<real>)
    ensures |r| == |bars| && forall i :: 0 <= i < |bars| ==> r[i] == bars[i].close
  {
    if bars == [] then [] else Closes(bars[..|bars| - 1]) + [bars[|bars| - 1].close]
  }

  // ---------------------------------------------------------------- EMA

  /** The smoothing factor 2 / (period + 1). */
  function Alpha(period: nat): (a: real)
    requires period >= 1
    ensures 0.0 < a <= 1.0
  {
    2.0 / (period as real + 1.0)
  }

  /** One smoothing step: the new price weighted by alpha, the previous EMA
      by 1 - alpha. */
  function EmaStep(price: real, ema: real, alpha: real): real
  {
    price * alpha + ema * (1.0 - alpha)
  }

  /** Seeded with the first price, each later price folds in by `EmaStep`. */
  function EmaFold(prices: seq<real>, alpha: real): real
    requires |prices| >= 1
  {
    if |prices| == 1 then prices[0]
    else EmaStep(prices[|prices| - 1], EmaFold(prices[..|prices| - 1], alpha), alpha)
  }

  /** `compute_ema` as a value: absent with fewer than `period` prices. */
  function Ema(prices: seq<real>, period: nat): Option<real>
    requires period >= 1
  {
    if |prices| < period then None else Some(EmaFold(prices, Alpha(period)))
  }

  method ComputeEma(prices: seq<real>, period: nat) returns (r: Option<real>)
    requires period >= 1
    ensures r == Ema(prices, period)
  {
    if |prices| < period {
      return None;
    }
    var multiplier := 2.0 / (period as real + 1.0);
    var ema := prices[0];
    var i := 1;
    while i < |prices|
      invariant 1 <= i <= |prices|
      invariant ema == EmaFold(prices[..i], multiplier)
    {
      ema := EmaStep(prices[i], ema, multiplier);
      assert prices[..i + 1][..i] == prices[..i];
      i := i + 1;
    }
    assert prices[..|prices|] == prices;
    return Some(ema);
  }

  lemma EmaStepWithin(price: real, ema: real, alpha: real, lo: real, hi: real)
    requires 0.0 <= alpha <= 1.0 && lo <= price <= hi && lo <= ema <= hi
    ensures lo <= EmaStep(price, ema, alpha) <= hi
  {
    assert (price - lo) * alpha >= 0.0 && (ema - lo) * (1.0 - alpha) >= 0.0;
    assert (hi - price) * alpha >= 0.0 && (hi - ema) * (1.0 - alpha) >= 0.0;
  }

  /** For a smoothing factor in [0, 1] the EMA stays within any bounds of its
      inputs. */
  lemma {:induction false} EmaFoldWithin(prices: seq<real>, alpha: real, lo: real, hi: real)
    requires |prices| >= 1 && 0.0 <= alpha <= 1.0
    requires forall i :: 0 <= i < |prices| ==> lo <= prices[i] <= hi
    ensures lo <= EmaFold(prices, alpha) <= hi
  {
    if |prices| > 1 {
      var init := prices[..|prices| - 1];
      assert forall i :: 0 <= i < |init| ==> init[i] == prices[i];
      EmaFoldWithin(init, alpha, lo, hi);
      EmaStepWithin(prices[|prices| - 1], EmaFold(init, alpha), alpha, lo, hi);
    }
  }

  /** For period >= 1 the EMA lies between the smallest and largest price. */
  lemma EmaBetweenMinAndMax(prices: seq<real>, period: nat, lo: real, hi: real)
    requires period >= 1 && Ema(prices, period).Some?
    requires forall i :: 0 <= i < |prices| ==> lo <= prices[i] <= hi
    ensures lo <= Ema(prices, period).value <= hi
  {
    EmaFoldWithin(prices, Alpha(period), lo, hi);
  }

  /** A constant series has that constant as its EMA. */
  lemma {:induction false} EmaOfConstant(prices: seq<real>, c: real, alpha: real)
    requires |prices| >= 1 && forall i :: 0 <= i < |prices| ==> prices[i] == c
    ensures EmaFold(prices, alpha) == c
  {
    if |prices| > 1 {
      EmaOfConstant(prices[..|prices| - 1], c, alpha);
      assert c * alpha + c * (1.0 - alpha) == c;
    }
  }

  // ---------------------------------------------------------------- ATR

  /** max(H - L, |H - C_prev|, |L - C_prev|). */
  function TrueRange(high: real, low: real, prevClose: real): (r: real)
    ensures r >= 0.0 && r >= high - low
  {
    Max(Max(high - low, Abs(high - prevClose)), Abs(low - prevClose))
  }

  /** The true ranges for buffer indices 1..n-1, pairing `highs[i]` and
      `lows[i]` with `closes[i-1]` by buffer index. */
  function TrueRanges(highs: seq<real>, lows: seq<real>, closes: seq<real>, n: nat): (r: seq<real>)
    requires n <= |highs| && n <= |lows| && n <= |closes| + 1
    ensures |r| == if n == 0 then 0 else n - 1
  {
    if n <= 1 then []
    else TrueRanges(highs, lows, closes, n - 1) + [TrueRange(highs[n - 1], lows[n - 1], closes[n - 2])]
  }

  lemma {:induction false} TrueRangesNonNegative(highs: seq<real>, lows: seq<real>, closes: seq<real>, n: nat)
    requires n <= |highs| && n <= |lows| && n <= |closes| + 1
    ensures forall i :: 0 <= i < |TrueRanges(highs, lows, closes, n)| ==> TrueRanges(highs, lows, closes, n)[i] >= 0.0
  {
    if n > 1 {
      TrueRangesNonNegative(highs, lows, closes, n - 1);
    }
  }

  /** `compute_atr` as a value: absent until the high buffer holds
      `atrPeriod` bars (and when there is no true range), otherwise the mean
      true range. */
  function Atr(highs: seq<real>, lows: seq<real>, closes: seq<real>, atrPeriod: nat): Option<real>
    requires |lows| >= |highs| && |closes| + 1 >= |highs|
  {
    if |highs| < atrPeriod then None
    else
      var trs := TrueRanges(highs, lows, closes, |highs|);
      if trs == [] then None else Some(Sum(trs) / |trs| as real)
  }

  /** The ATR is never negative. */
  lemma AtrNonNegative(highs: seq<real>, lows: seq<real>, closes: seq<real>, atrPeriod: nat)
    requires |lows| >= |highs| && |closes| + 1 >= |highs|
    requires Atr(highs, lows, closes, atrPeriod).Some?
    ensures Atr(highs, lows, closes, atrPeriod).value >= 0.0
  {
    var trs := TrueRanges(highs, lows, closes, |highs|);
    TrueRangesNonNegative(highs, lows, closes, |highs|);
    SumNonNegative(trs);
    DivNonNegative(Sum(trs), |trs| as real);
  }

  /** With the bar deques filled as the engine fills them, and the close
      deque one bar longer than the high deque (as with the default ATR and
      RSI periods of 14), the close paired with the high at buffer index i
      belongs to the bar TWO bars before it, not the previous bar: the
      indexing pairs buffer positions, not bars. */
  lemma AtrPairsCloseTwoBarsBack(bars: seq<KlineEvent>, atrPeriod: nat, i: nat)
    requires 1 <= i < atrPeriod && |bars| >= atrPeriod + 1
    ensures var highs := Last(Highs(bars), atrPeriod);
            var closes := Last(Closes(bars), atrPeriod + 1);
            var b := |bars| - atrPeriod + i;
            highs[i] == bars[b].high && closes[i - 1] == bars[b - 2].close
  {
    var highs := Last(Highs(bars), atrPeriod);
    var closes := Last(Closes(bars), atrPeriod + 1);
    assert |highs| == atrPeriod && |closes| == atrPeriod + 1;
    LastIndex(Highs(bars), atrPeriod, i);
    LastIndex(Closes(bars), atrPeriod + 1, i - 1);
  }

  method ComputeAtr(highs: seq<real>, lows: seq<real>, closes: seq<real>, atrPeriod: nat) returns (r: Option<real>)
    requires |lows| >= |highs| && |closes| + 1 >= |highs|
    ensures r == Atr(highs, lows, closes, atrPeriod)
  {
    if |highs| < atrPeriod {
      return None;
    }
    var trueRanges: seq<real> := [];
    var i := 1;
    while i < |highs|
      invariant |highs| == 0 ==> i == 1 && trueRanges == []
      invariant |highs| > 0 ==> 1 <= i <= |highs| && trueRanges == TrueRanges(highs, lows, closes, i)
    {
      var highLow := highs[i] - lows[i];
      var highClose := Abs(highs[i] - closes[i - 1]);
      var lowClose := Abs(lows[i] - closes[i - 1]);
      assert Max(Max(highLow, highClose), lowClose) == TrueRange(highs[i], lows[i], closes[i - 1]);
      trueRanges := trueRanges + [Max(Max(highLow, highClose), lowClose)];
      i := i + 1;
    }
    if trueRanges == [] {
      return None;
    }
    return Some(Sum(trueRanges) / |trueRanges| as real);
  }

  // ---------------------------------------------------------------- RSI

  /** A change of zero counts as a gain. */
  function GainOf(change: real): (r: real)
    ensures r >= 0.0
  {
    if change >= 0.0 then change else 0.0
  }

  function LossOf(change: real): (r: real)
    ensures r >= 0.0 && (r == 0.0 <==> change >= 0.0)
  {
    if change >= 0.0 then 0.0 else -change
  }

  function Gains(prices: seq<real>): (r: seq<real>)
    ensures |r| == if |prices| == 0 then 0 else |prices| - 1
  {
    if |prices| <= 1 then []
    else Gains(prices[..|prices| - 1]) + [GainOf(prices[|prices| - 1] - prices[|prices| - 2])]
  }

  function Losses(prices: seq<real>): (r: seq<real>)
    ensures |r| == if |prices| == 0 then 0 else |prices| - 1
  {
    if |prices| <= 1 then []
    else Losses(prices[..|prices| - 1]) + [LossOf(prices[|prices| - 1] - prices[|prices| - 2])]
  }

  /** Entry k of the gain and loss lists comes from the change prices[k+1] - prices[k]. */
  lemma {:induction false} ChangeAt(prices: seq<real>, k: nat)
    requires k + 1 < |prices|
    ensures Gains(prices)[k] == GainOf(prices[k + 1] - prices[k])
    ensures Losses(prices)[k] == LossOf(prices[k + 1] - prices[k])
  {
    var init := prices[..|prices| - 1];
    if k + 1 < |init| {
      ChangeAt(init, k);
      assert init[k] == prices[k] && init[k + 1] == prices[k + 1];
    }
  }

  lemma {:induction false} GainsLossesNonNegative(prices: seq<real>)
    ensures forall k :: 0 <= k < |Gains(prices)| ==> Gains(prices)[k] >= 0.0
    ensures forall k :: 0 <= k < |Losses(prices)| ==> Losses(prices)[k] >= 0.0
  {
    if |prices| > 1 {
      GainsLossesNonNegative(prices[..|prices| - 1]);
    }
  }

  /** Averaging the last `period` entries of a list of non-negative values. */
  function AverageOfLast(xs: seq<real>, period: nat): (r: real)
    requires period >= 1
    requires forall k :: 0 <= k < |xs| ==> xs[k] >= 0.0
    ensures r >= 0.0
  {
    var recent := Last(xs, period);
    assert forall i :: 0 <= i < |recent| ==> recent[i] == xs[|xs| - |recent| + i];
    SumNonNegative(recent);
    DivNonNegative(Sum(recent), period as real);
    Sum(recent) / period as real
  }

  /** The average gain and the average loss over the last `period` changes. */
  function AverageGain(prices: seq<real>, period: nat): (r: real)
    requires period >= 1
    ensures r >= 0.0
  {
    GainsLossesNonNegative(prices);
    AverageOfLast(Gains(prices), period)
  }

  function AverageLoss(prices: seq<real>, period: nat): (r: real)
    requires period >= 1
    ensures r >= 0.0
  {
    GainsLossesNonNegative(prices);
    AverageOfLast(Losses(prices), period)
  }

  /** 100 - 100 / (1 + RS) with RS = average gain / average loss, and exactly
      100 when the average loss is zero: always in [0, 100], and 100 only
      when there was no loss. */
  function RsiOf(avgGain: real, avgLoss: real): (r: real)
    requires avgGain >= 0.0 && avgLoss >= 0.0
    ensures 0.0 <= r <= 100.0
    ensures r == 100.0 <==> avgLoss == 0.0
  {
    if avgLoss == 0.0 then 100.0
    else
      var rs := avgGain / avgLoss;
      DivNonNegative(avgGain, avgLoss);
      DivPositiveAtMost(100.0, 1.0 + rs);
      100.0 - 100.0 / (1.0 + rs)
  }

  /** `compute_rsi` as a value: absent with fewer than period + 1 prices,
      otherwise the RSI of the simple averages of the last `period` gains
      and losses. */
  function Rsi(prices: seq<real>, period: nat): Option<real>
    requires period >= 1
  {
    if |prices| < period + 1 then None
    else Some(RsiOf(AverageGain(prices, period), AverageLoss(prices, period)))
  }

  /** The gain and loss lists of `compute_rsi`'s loop. */
  method PriceChanges(prices: seq<real>) returns (gains: seq<real>, losses: seq<real>)
    requires |prices| >= 1
    ensures gains == Gains(prices) && losses == Losses(prices)
  {
    gains := [];
    losses := [];
    var i := 1;
    while i < |prices|
      invariant 1 <= i <= |prices|
      invariant gains == Gains(prices[..i]) && losses == Losses(prices[..i])
    {
      var change := prices[i] - prices[i - 1];
      if change >= 0.0 {
        gains := gains + [change];
        losses := losses + [0.0];
      } else {
        gains := gains + [0.0];
        losses := losses + [Abs(change)];
      }
      assert prices[..i + 1][..i] == prices[..i];
      i := i + 1;
    }
    assert prices[..|prices|] == prices;
  }

  method ComputeRsi(prices: seq<real>, period: nat) returns (r: Option<real>)
    requires period >= 1
    ensures r == Rsi(prices, period)
  {
    if |prices| < period + 1 {
      return None;
    }
    var gains, losses := PriceChanges(prices);
    var avgGain := Sum(Last(gains, period)) / period as real;
    var avgLoss := Sum(Last(losses, period)) / period as real;
    assert avgGain == AverageGain(prices, period) && avgLoss == AverageLoss(prices, period);
    assert Rsi(prices, period) == Some(RsiOf(avgGain, avgLoss));
    if avgLoss == 0.0 {
      return Some(100.0);
    }
    var rs := avgGain / avgLoss;
    return Some(100.0 - 100.0 / (1.0 + rs));
  }

  lemma {:induction false} SumZeroMeansAllZero(xs: seq<real>)
    requires forall i :: 0 <= i < |xs| ==> xs[i] >= 0.0
    ensures Sum(xs) == 0.0 <==> forall i :: 0 <= i < |xs| ==> xs[i] == 0.0
  {
    if xs != [] {
      var init := xs[..|xs| - 1];
      SumZeroMeansAllZero(init);
      SumNonNegative(init);
      assert forall i :: 0 <= i < |init| ==> init[i] == xs[i];
    }
  }

  /** The loss recorded for the change into price `j`, among the last
      `period` changes. */
  lemma RecentLossAt(prices: seq<real>, period: nat, j: nat)
    requires period >= 1 && |prices| >= period + 1 && |prices| - period <= j < |prices|
    ensures Last(Losses(prices), period)[j - (|prices| - period)] == LossOf(prices[j] - prices[j - 1])
  {
    var losses := Losses(prices);
    var k := j - (|prices| - period);
    assert |Last(losses, period)| == period;
    assert Last(losses, period)[k] == losses[j - 1] by {
      LastIndex(losses, period, k);
    }
    assert losses[j - 1] == LossOf(prices[j] - prices[j - 1]) by {
      ChangeAt(prices, j - 1);
    }
  }

  lemma RecentLossesNonNegative(prices: seq<real>, period: nat)
    requires period >= 1 && |prices| >= period + 1
    ensures forall k :: 0 <= k < period ==> Last(Losses(prices), period)[k] >= 0.0
  {
    GainsLossesNonNegative(prices);
    forall k | 0 <= k < period ensures Last(Losses(prices), period)[k] >= 0.0 {
      LastIndex(Losses(prices), period, k);
    }
  }

  lemma NoDropNoLoss(prices: seq<real>, period: nat)
    requires period >= 1 && |prices| >= period + 1
    requires forall j :: |prices| - period <= j < |prices| ==> prices[j - 1] <= prices[j]
    ensures forall k :: 0 <= k < period ==> Last(Losses(prices), period)[k] == 0.0
  {
    var base := |prices| - period;
    forall k | 0 <= k < period ensures Last(Losses(prices), period)[k] == 0.0 {
      RecentLossAt(prices, period, base + k);
      assert prices[base + k - 1] <= prices[base + k];
    }
  }

  /** The average loss over the last `period` changes is zero iff no price
      fell over those changes. */
  lemma AverageLossZeroIffNoDrop(prices: seq<real>, period: nat)
    requires period >= 1 && |prices| >= period + 1
    ensures AverageLoss(prices, period) == 0.0 <==>
              forall j :: |prices| - period <= j < |prices| ==> prices[j - 1] <= prices[j]
  {
    var losses := Last(Losses(prices), period);
    RecentLossesNonNegative(prices, period);
    SumZeroMeansAllZero(losses);
    assert AverageLoss(prices, period) == Sum(losses) / period as real;
    if forall j :: |prices| - period <= j < |prices| ==> prices[j - 1] <= prices[j] {
      NoDropNoLoss(prices, period);
    } else {
      var j :| |prices| - period <= j < |prices| && prices[j - 1] > prices[j];
      RecentLossAt(prices, period, j);
    }
  }

  /** The RSI lies in [0, 100], and it is exactly 100 iff no price fell over
      the last `period` changes. */
  lemma RsiRange(prices: seq<real>, period: nat)
    requires period >= 1 && Rsi(prices, period).Some?
    ensures 0.0 <= Rsi(prices, period).value <= 100.0
    ensures Rsi(prices, period).value == 100.0 <==>
              forall j :: |prices| - period <= j < |prices| ==> prices[j - 1] <= prices[j]
  {
    AverageLossZeroIffNoDrop(prices, period);
  }

  // ---------------------------------------------------------------- Bollinger

  datatype Bands = Bands(upper: real, mid: real, lower: real)

  function Mean(xs: seq<real>): real
    requires |xs| > 0
  {
    Sum(xs) / |xs| as real
  }

  function SquaredDeviations(xs: seq<real>, m: real): (r: seq<real>)
    ensures |r| == |xs|
  {
    if xs == [] then [] else SquaredDeviations(xs[..|xs| - 1], m) + [Square(xs[|xs| - 1] - m)]
  }

  lemma {:induction false} SquaredDeviationsNonNegative(xs: seq<real>, m: real)
    ensures forall i :: 0 <= i < |xs| ==> SquaredDeviations(xs, m)[i] >= 0.0
  {
    if xs != [] {
      SquaredDeviationsNonNegative(xs[..|xs| - 1], m);
    }
  }

  /** The population variance `np.std` takes the square root of; never
      negative. */
  function PopulationVariance(xs: seq<real>): (r: real)
    requires |xs| > 0
    ensures r >= 0.0
  {
    SquaredDeviationsNonNegative(xs, Mean(xs));
    SumNonNegative(SquaredDeviations(xs, Mean(xs)));
    DivNonNegative(Sum(SquaredDeviations(xs, Mean(xs))), |xs| as real);
    Sum(SquaredDeviations(xs, Mean(xs))) / |xs| as real
  }

  /** `compute_bollinger_bands`: absent with fewer than `period` prices,
      otherwise SMA +/- k * standard deviation of the last `period` prices;
      the square root is a parameter. */
  function Bollinger(prices: seq<real>, period: nat, k: real, sqrt: real -> real): Option<Bands>
    requires period >= 1
  {
    if |prices| < period then None
    else
      var recent := Last(prices, period);
      var sma := Mean(recent);
      var std := sqrt(PopulationVariance(recent));
      Some(Bands(sma + std * k, sma, sma - std * k))
  }

  /** With enough prices the bands exist, the middle band is the mean of the
      last `period` prices, and with a non-negative multiplier and a square
      root that is non-negative on non-negative inputs, upper >= mid >= lower
      and the bands are symmetric about the middle. */
  lemma BollingerOrdered(prices: seq<real>, period: nat, k: real, sqrt: real -> real)
    requires period >= 1 && k >= 0.0 && |prices| >= period
    requires forall x :: x >= 0.0 ==> sqrt(x) >= 0.0
    ensures Bollinger(prices, period, k, sqrt).Some?
    ensures var b := Bollinger(prices, period, k, sqrt).value;
            b.upper >= b.mid >= b.lower && b.upper - b.mid == b.mid - b.lower &&
            b.mid == Mean(Last(prices, period))
  {
    var recent := Last(prices, period);
    var std := sqrt(PopulationVariance(recent));
    assert std >= 0.0;
    MulNonNegative(std, k);
  }

  // ---------------------------------------------------------------- VWAP

  function Volume(trades: seq<TradeEvent>): real
  {
    if trades == [] then 0.0 else Volume(trades[..|trades| - 1]) + trades[|trades| - 1].quantity
  }

  function Notional(trades: seq<TradeEvent>): real
  {
    if trades == [] then 0.0
    else Notional(trades[..|trades| - 1]) + trades[|trades| - 1].price * trades[|trades| - 1].quantity
  }

  /** `compute_vwap`: absent for no trades or zero total volume. */
  function Vwap(trades: seq<TradeEvent>): Option<real>
  {
    if trades == [] then None
    else if Volume(trades) == 0.0 then None
    else Some(Notional(trades) / Volume(trades))
  }

  lemma {:induction false} NotionalBounds(trades: seq<TradeEvent>, lo: real, hi: real)
    requires forall i :: 0 <= i < |trades| ==> trades[i].quantity >= 0.0 && lo <= trades[i].price <= hi
    ensures lo * Volume(trades) <= Notional(trades) <= hi * Volume(trades)
    ensures Volume(trades) >= 0.0
  {
    if trades != [] {
      var t := trades[|trades| - 1];
      NotionalBounds(trades[..|trades| - 1], lo, hi);
      MulNonNegative(t.price - lo, t.quantity);
      MulNonNegative(hi - t.price, t.quantity);
    }
  }

  /** With non-negative quantities the VWAP lies within the range of the
      trade prices. */
  lemma VwapWithinPrices(trades: seq<TradeEvent>, lo: real, hi: real)
    requires forall i :: 0 <= i < |trades| ==> trades[i].quantity >= 0.0 && lo <= trades[i].price <= hi
    requires Vwap(trades).Some?
    ensures lo <= Vwap(trades).value <= hi
  {
    NotionalBounds(trades, lo, hi);
    DivBetween(Notional(trades), Volume(trades), lo, hi);
  }

  // ---------------------------------------------------------------- the engine

  /** The current price `compute_features_node` uses: the last kline close,
      else a non-zero order-book mid, else the last trade price, else 0. */
  function CurrentPrice(klines: seq<KlineEvent>, orderbook: Option<OrderbookUpdate>, trades: seq<TradeEvent>): (p: real)
    ensures klines != [] ==> p == klines[|klines| - 1].close
    ensures klines == [] && orderbook.Some? && Truthy(MidPrice(orderbook.value)) ==> p == MidPrice(orderbook.value).value
    ensures klines == [] && !(orderbook.Some? && Truthy(MidPrice(orderbook.value))) ==>
              p == if trades == [] then 0.0 else trades[|trades| - 1].price
  {
    if klines != [] then klines[|klines| - 1].close
    else if orderbook.Some? && Truthy(MidPrice(orderbook.value)) then MidPrice(orderbook.value).value
    else if trades != [] then trades[|trades| - 1].price
    else 0.0
  }

  /** Appending values one at a time to a deque with `maxlen = n` leaves the
      last n values appended. */
  function Pushed(buffer: seq<real>, values: seq<real>, n: nat): seq<real>
  {
    if values == [] then buffer else Last(Pushed(buffer, values[..|values| - 1], n) + [values[|values| - 1]], n)
  }

  lemma {:induction false} PushedKeepsLast(buffer: seq<real>, values: seq<real>, n: nat)
    requires |buffer| <= n
    ensures Pushed(buffer, values, n) == Last(buffer + values, n)
  {
    if values == [] {
      assert buffer + values == buffer;
    } else {
      var init := values[..|values| - 1];
      var x := values[|values| - 1];
      PushedKeepsLast(buffer, init, n);
      LastAppend(buffer + init, x, n);
      assert buffer + init + [x] == buffer + values;
    }
  }

  class FeatureEngine {
    const cfg: FeatureSettings

    var ema9Buffer: seq<real>
    var ema50Buffer: seq<real>
    var priceBuffer: seq<real>
    var highBuffer: seq<real>
    var lowBuffer: seq<real>
    var closeBuffer: seq<real>
    var ema9: Option<real>
    var ema50: Option<real>

    /** No deque exceeds its maximum length; the high and low deques move
        together and the close deque is at least as long. */
    ghost predicate Valid()
      reads this
    {
      ValidSettings(cfg) &&
      |ema9Buffer| <= Ema9Cap(cfg) && |ema50Buffer| <= Ema50Cap(cfg) &&
      |priceBuffer| <= PriceCap(cfg) && |highBuffer| <= cfg.atrPeriod &&
      |lowBuffer| == |highBuffer| && |highBuffer| <= |closeBuffer| <= CloseCap(cfg)
    }

    constructor (settings: FeatureSettings)
      requires ValidSettings(settings)
      ensures Valid() && cfg == settings
      ensures ema9Buffer == [] && ema50Buffer == [] && priceBuffer == []
      ensures highBuffer == [] && lowBuffer == [] && closeBuffer == []
      ensures ema9.None? && ema50.None?
    {
      cfg := settings;
      ema9Buffer, ema50Buffer, priceBuffer := [], [], [];
      highBuffer, lowBuffer, closeBuffer := [], [], [];
      ema9, ema50 := None, None;
    }

    /** `update_ema`: append the price to both EMA deques and recompute each
        EMA from its deque once the deque holds a full period. */
    method UpdateEma(price: real)
      requires Valid()
      modifies this`ema9Buffer, this`ema50Buffer, this`ema9, this`ema50
      ensures Valid()
      ensures ema9Buffer == Last(old(ema9Buffer) + [price], Ema9Cap(cfg))
      ensures ema50Buffer == Last(old(ema50Buffer) + [price], Ema50Cap(cfg))
      ensures ema9 == if |ema9Buffer| >= cfg.emaShortPeriod then Ema(ema9Buffer, cfg.emaShortPeriod) else old(ema9)
      ensures ema50 == if |ema50Buffer| >= cfg.emaLongPeriod then Ema(ema50Buffer, cfg.emaLongPeriod) else old(ema50)
    {
      ema9Buffer := Last(ema9Buffer + [price], Ema9Cap(cfg));
      ema50Buffer := Last(ema50Buffer + [price], Ema50Cap(cfg));
      if |ema9Buffer| >= cfg.emaShortPeriod {
        ema9 := ComputeEma(ema9Buffer, cfg.emaShortPeriod);
      }
      if |ema50Buffer| >= cfg.emaLongPeriod {
        ema50 := ComputeEma(ema50Buffer, cfg.emaLongPeriod);
      }
    }

    /** The buffer-update loop of `compute_features_node`: each kline's high,
        low and close go to their deques, and its close to the price deque. */
    method AppendBars(klines: seq<KlineEvent>)
      requires Valid()
      modifies this`highBuffer, this`lowBuffer, this`closeBuffer, this`priceBuffer
      ensures Valid()
      ensures highBuffer == Last(old(highBuffer) + Highs(klines), cfg.atrPeriod)
      ensures lowBuffer == Last(old(lowBuffer) + Lows(klines), cfg.atrPeriod)
      ensures closeBuffer == Last(old(closeBuffer) + Closes(klines), CloseCap(cfg))
      ensures priceBuffer == Last(old(priceBuffer) + Closes(klines), PriceCap(cfg))
    {
      var j := 0;
      while j < |klines|
        invariant 0 <= j <= |klines|
        invariant Valid()
        invariant highBuffer == Pushed(old(highBuffer), Highs(klines[..j]), cfg.atrPeriod)
        invariant lowBuffer == Pushed(old(lowBuffer), Lows(klines[..j]), cfg.atrPeriod)
        invariant closeBuffer == Pushed(old(closeBuffer), Closes(klines[..j]), CloseCap(cfg))
        invariant priceBuffer == Pushed(old(priceBuffer), Closes(klines[..j]), PriceCap(cfg))
      {
        var k := klines[j];
        assert klines[..j + 1][..j] == klines[..j];
        highBuffer := Last(highBuffer + [k.high], cfg.atrPeriod);
        lowBuffer := Last(lowBuffer + [k.low], cfg.atrPeriod);
        closeBuffer := Last(closeBuffer + [k.close], CloseCap(cfg));
        priceBuffer := Last(priceBuffer + [k.close], PriceCap(cfg));
        j := j + 1;
      }
      assert klines[..|klines|] == klines;
      PushedKeepsLast(old(highBuffer), Highs(klines), cfg.atrPeriod);
      PushedKeepsLast(old(lowBuffer), Lows(klines), cfg.atrPeriod);
      PushedKeepsLast(old(closeBuffer), Closes(klines), CloseCap(cfg));
      PushedKeepsLast(old(priceBuffer), Closes(klines), PriceCap(cfg));
    }

    /** The indicator part of `compute_features_node`, read from the deques
        as they stand; realized volatility is an input and the square root
        used by the Bollinger bands a parameter. */
    method Indicators(symbol: string, price: real, orderbook: Option<OrderbookUpdate>, trades: seq<TradeEvent>,
                      realizedVolatility: Option<real>, sqrt: real -> real)
      returns (features: MarketFeatures)
      requires Valid()
      ensures features == FeaturesOf(symbol, price, ema9, ema50,
                                     Atr(highBuffer, lowBuffer, closeBuffer, cfg.atrPeriod), realizedVolatility,
                                     Rsi(closeBuffer, cfg.rsiPeriod),
                                     Bollinger(priceBuffer, cfg.bollingerPeriod, cfg.bollingerStdDev, sqrt),
                                     orderbook, Vwap(Last(trades, 100)))
    {
      var atr := ComputeAtr(highBuffer, lowBuffer, closeBuffer, cfg.atrPeriod);
      var imbalance: Option<real> := None;
      var spread: Option<real> := None;
      if orderbook.Some? {
        imbalance := Some(Imbalance(orderbook.value));
        spread := Spread(orderbook.value);
      }
      var vwap := Vwap(Last(trades, 100));
      var rsi := ComputeRsi(closeBuffer, cfg.rsiPeriod);
      var bands := Bollinger(priceBuffer, cfg.bollingerPeriod, cfg.bollingerStdDev, sqrt);
      var bbUpper: Option<real> := None;
      var bbMid: Option<real> := None;
      var bbLower: Option<real> := None;
      if bands.Some? {
        bbUpper, bbMid, bbLower := Some(bands.value.upper), Some(bands.value.mid), Some(bands.value.lower);
      }
      features := MarketFeatures(
        symbol, price, ema9, ema50, None, atr, realizedVolatility, None, rsi,
        bbUpper, bbMid, bbLower, None, imbalance, spread, vwap);
    }

    /** The EMA part of `compute_features_node`: seed each EMA from the last
        `period` kline closes when there are that many, then `update_ema`. */
    method RefreshEmas(closes: seq<real>, price: real)
      requires Valid()
      modifies this`ema9Buffer, this`ema50Buffer, this`ema9, this`ema50
      ensures Valid()
      ensures ema9Buffer == Last(old(ema9Buffer) + [price], Ema9Cap(cfg))
      ensures ema50Buffer == Last(old(ema50Buffer) + [price], Ema50Cap(cfg))
      ensures ema9 == SeededEma(old(ema9), closes, ema9Buffer, cfg.emaShortPeriod)
      ensures ema50 == SeededEma(old(ema50), closes, ema50Buffer, cfg.emaLongPeriod)
    {
      if |closes| >= cfg.emaShortPeriod {
        var ema9Value := ComputeEma(Last(closes, cfg.emaShortPeriod), cfg.emaShortPeriod);
        if ema9Value.Some? {
          ema9 := ema9Value;
        }
      }
      if |closes| >= cfg.emaLongPeriod {
        var ema50Value := ComputeEma(Last(closes, cfg.emaLongPeriod), cfg.emaLongPeriod);
        if ema50Value.Some? {
          ema50 := ema50Value;
        }
      }
      UpdateEma(price);
    }

    /** `compute_features_node`: pick the current price, push the last
        `atrPeriod` klines into the bar deques, refresh the EMAs, then compute
        the indicators. `None` means the node returned its state unchanged
        because no usable price was found. */
    method ComputeFeatures(klines: seq<KlineEvent>, orderbook: Option<OrderbookUpdate>, trades: seq<TradeEvent>,
                           symbol: string, realizedVolatility: Option<real>, sqrt: real -> real)
      returns (features: Option<MarketFeatures>)
      requires Valid()
      modifies this
      ensures Valid()
      ensures CurrentPrice(klines, orderbook, trades) == 0.0 ==> features.None? && unchanged(this)
      ensures CurrentPrice(klines, orderbook, trades) != 0.0 ==>
        && highBuffer == Last(old(highBuffer) + Highs(Last(klines, cfg.atrPeriod)), cfg.atrPeriod)
        && lowBuffer == Last(old(lowBuffer) + Lows(Last(klines, cfg.atrPeriod)), cfg.atrPeriod)
        && closeBuffer == Last(old(closeBuffer) + Closes(Last(klines, cfg.atrPeriod)), CloseCap(cfg))
        && priceBuffer == Last(old(priceBuffer) + Closes(Last(klines, cfg.atrPeriod)), PriceCap(cfg))
        && ema9Buffer == Last(old(ema9Buffer) + [CurrentPrice(klines, orderbook, trades)], Ema9Cap(cfg))
        && ema50Buffer == Last(old(ema50Buffer) + [CurrentPrice(klines, orderbook, trades)], Ema50Cap(cfg))
        && ema9 == SeededEma(old(ema9), Closes(klines), ema9Buffer, cfg.emaShortPeriod)
        && ema50 == SeededEma(old(ema50), Closes(klines), ema50Buffer, cfg.emaLongPeriod)
        && features == Some(FeaturesOf(symbol, CurrentPrice(klines, orderbook, trades), ema9, ema50,
                                       Atr(highBuffer, lowBuffer, closeBuffer, cfg.atrPeriod), realizedVolatility,
                                       Rsi(closeBuffer, cfg.rsiPeriod),
                                       Bollinger(priceBuffer, cfg.bollingerPeriod, cfg.bollingerStdDev, sqrt),
                                       orderbook, Vwap(Last(trades, 100))))
    {
      var currentPrice := 0.0;
      if klines != [] {
        currentPrice := klines[|klines| - 1].close;
      } else if orderbook.Some? && Truthy(MidPrice(orderbook.value)) {
        currentPrice := MidPrice(orderbook.value).value;
      } else if trades != [] {
        currentPrice := trades[|trades| - 1].price;
      }
      assert currentPrice == CurrentPrice(klines, orderbook, trades);
      if currentPrice == 0.0 {
        return None;
      }
      AppendBars(Last(klines, cfg.atrPeriod));
      RefreshEmas(Closes(klines), currentPrice);
      var computed := Indicators(symbol, currentPrice, orderbook, trades, realizedVolatility, sqrt);
      features := Some(computed);
    }
  }

  /** The EMA `compute_features_node` leaves behind: the value recomputed from
      a full `update_ema` deque, else the one seeded from the kline closes,
      else the previous one. */
  function SeededEma(previous: Option<real>, closes: seq<real>, buffer: seq<real>, period: nat): (r: Option<real>)
    requires period >= 1
    ensures |buffer| >= period ==> r.Some?
    ensures |buffer| < period && |closes| < period ==> r == previous
  {
    if |buffer| >= period then Ema(buffer, period)
    else if |closes| >= period then Ema(Last(closes, period), period)
    else previous
  }

  /** The feature record the node builds from its indicators; the fields it
      does not compute (ema_200, adx, ofi_sma) stay absent. */
  function FeaturesOf(symbol: string, price: real, ema9: Option<real>, ema50: Option<real>, atr: Option<real>,
                      realizedVolatility: Option<real>, rsi: Option<real>, bands: Option<Bands>,
                      orderbook: Option<OrderbookUpdate>, vwap: Option<real>): (f: MarketFeatures)
    ensures f.symbol == symbol && f.price == price && f.ema200.None? && f.adx.None? && f.ofiSma.None?
    ensures f.bollingerMid.Some? <==> bands.Some?
    ensures f.orderbookImbalance.Some? <==> orderbook.Some?
  {
    MarketFeatures(
      symbol, price, ema9, ema50, None, atr, realizedVolatility, None, rsi,
      if bands.Some? then Some(bands.value.upper) else None,
      if bands.Some? then Some(bands.value.mid) else None,
      if bands.Some? then Some(bands.value.lower) else None,
      None,
      if orderbook.Some? then Some(Imbalance(orderbook.value)) else None,
      if orderbook.Some? then Spread(orderbook.value) else None,
      vwap)
  }
}
