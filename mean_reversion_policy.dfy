/** The mean-reversion strategy: buy below the lower Bollinger band when RSI
    is oversold, sell above the upper band when RSI is overbought, and aim
    back at the middle band. The two RSI thresholds are configuration values
    (30 and 70 by default) and are parameters here. */
module MeanReversionPolicy {
  import opened Common
  import opened Models

  const DefaultOversold: real := 30.0
  const DefaultOverbought: real := 70.0

  /** The NEUTRAL signal of the early return: no entry price, no stops. */
  function InsufficientData(symbol: string): Signal
  {
    Signal(symbol, None, "mean_reversion", Neutral, 0.0, 0.0, None, None, None, None, None)
  }

  /** The early-return test: no features, no RSI, or no upper band. A zero
      RSI or band still counts as present (the test is `is None`). */
  predicate HasData(features: Option<MarketFeatures>)
  {
    features.Some? && features.value.rsi.Some? && features.value.bollingerUpper.Some?
  }

  /** Price strictly below the lower band with RSI strictly under the
      oversold threshold. */
  predicate Oversold(f: MarketFeatures, oversold: real)
    requires f.rsi.Some? && f.bollingerLower.Some?
  {
    f.price < f.bollingerLower.value && f.rsi.value < oversold
  }

  /** Price strictly above the upper band with RSI strictly over the
      overbought threshold. */
  predicate Overbought(f: MarketFeatures, overbought: real)
    requires f.rsi.Some? && f.bollingerUpper.Some?
  {
    f.price > f.bollingerUpper.value && f.rsi.value > overbought
  }

  /** How far RSI is past its threshold, in units of 10 RSI points, capped at 1. */
  function Stretch(excess: real): real
  {
    Min(excess / 10.0, 1.0)
  }

  /** The node. Comparing the price with a missing lower band raises a
      `TypeError`, which the node does not catch; every other input returns a
      signal. The LONG test is made first, so an input that is both oversold
      and overbought goes LONG. */
  function MeanReversion(features: Option<MarketFeatures>, symbol: string, oversold: real, overbought: real): (r: Outcome<Signal>)
    ensures r.Raised? <==> HasData(features) && features.value.bollingerLower.None?
    ensures r.Returned? ==> r.value.symbol == symbol && r.value.strategy == "mean_reversion"
  {
    if !HasData(features) then Returned(InsufficientData(symbol))
    else
      var f := features.value;
      if f.bollingerLower.None? then Raised("TypeError")
      else if Oversold(f, oversold) then
        Returned(Signal(symbol, None, "mean_reversion", Long, Stretch(oversold - f.rsi.value), 0.8,
                        Some(f.price), Some(f.price * 0.98), f.bollingerMid, None, None))
      else if Overbought(f, overbought) then
        Returned(Signal(symbol, None, "mean_reversion", Short, Stretch(f.rsi.value - overbought), 0.8,
                        Some(f.price), Some(f.price * 1.02), f.bollingerMid, None, None))
      else
        Returned(Signal(symbol, None, "mean_reversion", Neutral, 0.0, 0.5,
                        Some(f.price), None, None, None, None))
  }

  /** Missing features, RSI or upper band give the early NEUTRAL signal with
      zero strength and confidence and no entry price. */
  lemma MissingDataIsNeutral(features: Option<MarketFeatures>, symbol: string, oversold: real, overbought: real)
    requires !HasData(features)
    ensures MeanReversion(features, symbol, oversold, overbought) == Returned(InsufficientData(symbol))
    ensures InsufficientData(symbol).direction == Neutral && InsufficientData(symbol).entryPrice.None?
  {
  }

  /** With the data present, the signal goes LONG exactly when the input is
      oversold, and SHORT exactly when it is overbought but not oversold;
      every such signal enters at the current price. */
  lemma DirectionConditions(f: MarketFeatures, symbol: string, oversold: real, overbought: real)
    requires f.rsi.Some? && f.bollingerUpper.Some? && f.bollingerLower.Some?
    ensures var r := MeanReversion(Some(f), symbol, oversold, overbought);
      && r.Returned?
      && r.value.entryPrice == Some(f.price)
      && (r.value.direction == Long <==> Oversold(f, oversold))
      && (r.value.direction == Short <==> !Oversold(f, oversold) && Overbought(f, overbought))
      && (r.value.direction == Neutral <==> !Oversold(f, oversold) && !Overbought(f, overbought))
  {
  }

  /** A directional signal targets the middle band, has confidence 0.8 and a
      strength in (0, 1] that grows with how far RSI is past its threshold
      (reaching 1 ten points past it); a stop 2% away sits below the entry
      for LONG and above it for SHORT when the price is positive. */
  lemma DirectionalSignal(f: MarketFeatures, symbol: string, oversold: real, overbought: real)
    requires f.rsi.Some? && f.bollingerUpper.Some? && f.bollingerLower.Some?
    requires MeanReversion(Some(f), symbol, oversold, overbought).value.direction != Neutral
    ensures var s := MeanReversion(Some(f), symbol, oversold, overbought).value;
      && s.confidence == 0.8
      && 0.0 < s.strength <= 1.0
      && s.takeProfit == f.bollingerMid
      && s.stopLoss.Some?
      && (s.direction == Long ==> s.strength == Min((oversold - f.rsi.value) / 10.0, 1.0)
                                  && (f.price > 0.0 ==> s.stopLoss.value < f.price))
      && (s.direction == Short ==> s.strength == Min((f.rsi.value - overbought) / 10.0, 1.0)
                                   && (f.price > 0.0 ==> s.stopLoss.value > f.price))
  {
  }

  /** Inside the bands (or RSI not extreme) the signal is NEUTRAL with zero
      strength, confidence 0.5 and no stop or target. */
  lemma InRangeIsNeutral(f: MarketFeatures, symbol: string, oversold: real, overbought: real)
    requires f.rsi.Some? && f.bollingerUpper.Some? && f.bollingerLower.Some?
    requires !Oversold(f, oversold) && !Overbought(f, overbought)
    ensures var s := MeanReversion(Some(f), symbol, oversold, overbought).value;
      s.direction == Neutral && s.strength == 0.0 && s.confidence == 0.5
      && s.stopLoss.None? && s.takeProfit.None?
  {
  }

  /** Every returned signal satisfies the `Signal` field bounds. */
  lemma MeanReversionWellFormed(features: Option<MarketFeatures>, symbol: string, oversold: real, overbought: real)
    requires MeanReversion(features, symbol, oversold, overbought).Returned?
    ensures WellFormedSignal(MeanReversion(features, symbol, oversold, overbought).value)
  {
  }

  /** The repository's examples with the default thresholds: price 95 under a
      lower band of 98 with RSI 25 goes LONG at strength 0.5; price 115 over
      an upper band of 110 with RSI 75 goes SHORT; price 100 with RSI 50
      inside the bands stays NEUTRAL. */
  lemma RepositoryExamples(base: MarketFeatures)
    ensures var f := base.(price := 95.0, rsi := Some(25.0), bollingerUpper := Some(110.0),
                           bollingerMid := Some(100.0), bollingerLower := Some(98.0));
      var s := MeanReversion(Some(f), "BTC/USD", DefaultOversold, DefaultOverbought).value;
      s.direction == Long && s.confidence == 0.8 && s.strength == 0.5 && s.takeProfit == Some(100.0)
    ensures var f := base.(price := 115.0, rsi := Some(75.0), bollingerUpper := Some(110.0),
                           bollingerMid := Some(100.0), bollingerLower := Some(90.0));
      var s := MeanReversion(Some(f), "BTC/USD", DefaultOversold, DefaultOverbought).value;
      s.direction == Short && s.confidence == 0.8 && s.strength == 0.5
    ensures var f := base.(price := 100.0, rsi := Some(50.0), bollingerUpper := Some(110.0),
                           bollingerMid := Some(100.0), bollingerLower := Some(90.0));
      MeanReversion(Some(f), "BTC/USD", DefaultOversold, DefaultOverbought).value.direction == Neutral
  {
  }
}
