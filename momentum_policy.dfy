/** The momentum strategy: a three-state hysteresis machine (flat, long,
    short) whose state is the direction of the previous signal. Entries use
    strict thresholds, holding a position uses relaxed ones. */
module MomentumPolicy {
  import opened Common
  import opened Models

  const EntryAdxThreshold: real := 25.0
  const EntryRsiLongMin: real := 50.0
  const EntryRsiLongMax: real := 70.0
  const EntryRsiShortMin: real := 30.0
  const EntryRsiShortMax: real := 50.0

  const MaintainAdxThreshold: real := 20.0
  const MaintainRsiLongMin: real := 45.0
  const MaintainRsiLongMax: real := 80.0
  const MaintainRsiShortMin: real := 20.0
  const MaintainRsiShortMax: real := 55.0

  /** The entry bands lie strictly inside the maintain bands, and the entry
      ADX threshold is above the maintain one. */
  lemma EntryBandsInsideMaintainBands()
    ensures MaintainRsiLongMin < EntryRsiLongMin && EntryRsiLongMax < MaintainRsiLongMax
    ensures MaintainRsiShortMin < EntryRsiShortMin && EntryRsiShortMax < MaintainRsiShortMax
    ensures MaintainAdxThreshold < EntryAdxThreshold
  {
  }

  /** The NEUTRAL signal of the two early returns: no entry price, no stops. */
  function EarlyNeutral(symbol: string): Signal
  {
    Signal(symbol, None, "momentum", Neutral, 0.0, 0.0, None, None, None, None, None)
  }

  /** The hysteresis state: the previous signal's direction, NEUTRAL without one. */
  function PreviousDirection(previous: Option<Signal>): Direction
  {
    if previous.Some? then previous.value.direction else Neutral
  }

  function AdxThreshold(current: Direction): real
  {
    if current != Neutral then MaintainAdxThreshold else EntryAdxThreshold
  }

  /** The regime filter: a present, non-zero ADX below the threshold. */
  predicate Choppy(adx: Option<real>, threshold: real)
  {
    Truthy(adx) && adx.value < threshold
  }

  /** `(rsi is not None and lo < rsi < hi) if rsi else True`: a missing or
      zero RSI passes. */
  predicate RsiWithin(rsi: Option<real>, lo: real, hi: real)
  {
    if Truthy(rsi) then lo < rsi.value < hi else true
  }

  /** The EMA-200 trend filters; they pass when the EMA 200 is missing or zero. */
  predicate BullTrend(f: MarketFeatures)
  {
    if Truthy(f.ema200) then f.price > f.ema200.value else true
  }

  predicate BearTrend(f: MarketFeatures)
  {
    if Truthy(f.ema200) then f.price < f.ema200.value else true
  }

  /** min(|ema_diff_pct| / 2, 1) with ema_diff_pct = (ema9 - ema50) / ema50 * 100. */
  function EntryStrength(ema9: real, ema50: real): (r: real)
    requires ema50 != 0.0
    ensures 0.0 <= r <= 1.0
  {
    Min(Abs((ema9 - ema50) / ema50 * 100.0) / 2.0, 1.0)
  }

  /** Entry confidence: 0.8, plus 0.1 when the order-flow imbalance agrees. */
  function EntryConfidence(ofiSma: Option<real>, direction: Direction): (r: real)
    ensures r == 0.8 || r == 0.9
  {
    var confirmed := if direction == Long then Truthy(ofiSma) && ofiSma.value > 5.0
                     else Truthy(ofiSma) && ofiSma.value < -5.0;
    if confirmed then 0.8 + 0.1 else 0.8
  }

  /** Direction, strength and confidence of the decision. */
  datatype Decision = Decision(direction: Direction, strength: real, confidence: real)

  predicate LongEntry(f: MarketFeatures, ema9: real, ema50: real)
  {
    ema9 > ema50 && f.price > ema9 && BullTrend(f) && RsiWithin(f.rsi, EntryRsiLongMin, EntryRsiLongMax)
  }

  predicate ShortEntry(f: MarketFeatures, ema9: real, ema50: real)
  {
    ema9 < ema50 && f.price < ema9 && BearTrend(f) && RsiWithin(f.rsi, EntryRsiShortMin, EntryRsiShortMax)
  }

  predicate MaintainLong(f: MarketFeatures, ema9: real, ema50: real)
  {
    ema9 > ema50 && RsiWithin(f.rsi, MaintainRsiLongMin, MaintainRsiLongMax)
  }

  predicate MaintainShort(f: MarketFeatures, ema9: real, ema50: real)
  {
    ema9 < ema50 && RsiWithin(f.rsi, MaintainRsiShortMin, MaintainRsiShortMax)
  }

  /** The momentum logic proper, once data and regime checks have passed. */
  function Decide(f: MarketFeatures, ema9: real, ema50: real, previous: Option<Signal>): Decision
    requires ema50 != 0.0
  {
    var held := if previous.Some? then previous.value.strength else 1.0;
    match PreviousDirection(previous)
    case Long =>
      if MaintainLong(f, ema9, ema50) then Decision(Long, held, 0.9) else Decision(Neutral, 0.0, 0.0)
    case Short =>
      if MaintainShort(f, ema9, ema50) then Decision(Short, held, 0.9) else Decision(Neutral, 0.0, 0.0)
    case Neutral =>
      if ema9 > ema50 && f.price > ema9 then
        if BullTrend(f) && RsiWithin(f.rsi, EntryRsiLongMin, EntryRsiLongMax)
        then Decision(Long, EntryStrength(ema9, ema50), EntryConfidence(f.ofiSma, Long))
        else Decision(Neutral, 0.0, 0.0)
      else if ema9 < ema50 && f.price < ema9 then
        if BearTrend(f) && RsiWithin(f.rsi, EntryRsiShortMin, EntryRsiShortMax)
        then Decision(Short, EntryStrength(ema9, ema50), EntryConfidence(f.ofiSma, Short))
        else Decision(Neutral, 0.0, 0.0)
      else Decision(Neutral, 0.0, 0.0)
  }

  /** 3 x ATR, with 1% of the price standing in for a missing or zero ATR. */
  function TrailingDistance(f: MarketFeatures): real
  {
    (if Truthy(f.atr) then f.atr.value else f.price * 0.01) * 3.0
  }

  /** The stop for a directional decision: a new entry places it `distance`
      away from the price; a held position keeps the previous stop and
      target when the previous stop is set and non-zero. */
  function Stops(direction: Direction, price: real, distance: real, previous: Option<Signal>): (Option<real>, Option<real>)
    requires direction != Neutral
  {
    var placed := if direction == Long then price - distance else price + distance;
    if PreviousDirection(previous) == Neutral then (Some(placed), None)
    else if previous.Some? && Truthy(previous.value.stopLoss) then (previous.value.stopLoss, previous.value.takeProfit)
    else (Some(placed), None)
  }

  /** `momentum_strategy_node`: the single signal it emits. */
  function Momentum(features: Option<MarketFeatures>, previous: Option<Signal>, symbol: string): (s: Signal)
    ensures s.symbol == symbol && s.strategy == "momentum"
    ensures s.direction != Neutral ==> s.stopLoss.Some? && s.trailingStopDistance.Some?
  {
    if features.None? || !Truthy(features.value.ema9) || !Truthy(features.value.ema50) then EarlyNeutral(symbol)
    else
      var f := features.value;
      if Choppy(f.adx, AdxThreshold(PreviousDirection(previous))) then EarlyNeutral(symbol)
      else
        var d := Decide(f, f.ema9.value, f.ema50.value, previous);
        if d.direction == Neutral then
          Signal(symbol, None, "momentum", Neutral, d.strength, d.confidence, Some(f.price), None, None, None, None)
        else
          var distance := TrailingDistance(f);
          var stops := Stops(d.direction, f.price, distance, previous);
          Signal(symbol, None, "momentum", d.direction, d.strength, d.confidence, Some(f.price),
                 stops.0, stops.1, Some(distance), None)
  }

  /** The data gate and regime filter passed. */
  predicate Active(features: Option<MarketFeatures>, previous: Option<Signal>)
  {
    features.Some? && Truthy(features.value.ema9) && Truthy(features.value.ema50) &&
    !Choppy(features.value.adx, AdxThreshold(PreviousDirection(previous)))
  }

  // ---------------------------------------------------------------- properties

  /** Missing features, or a missing or zero EMA 9 or EMA 50, yield NEUTRAL
      with strength and confidence 0 and no entry price. */
  lemma MissingDataIsNeutral(features: Option<MarketFeatures>, previous: Option<Signal>, symbol: string)
    requires features.None? || !Truthy(features.value.ema9) || !Truthy(features.value.ema50)
    ensures var s := Momentum(features, previous, symbol);
            s.direction == Neutral && s.strength == 0.0 && s.confidence == 0.0 && s.entryPrice.None?
  {
  }

  /** The regime filter uses 20 while a position is held and 25 when flat; a
      present ADX below it yields NEUTRAL with confidence 0. */
  lemma ChoppyMarketIsNeutral(f: MarketFeatures, previous: Option<Signal>, symbol: string)
    requires Truthy(f.ema9) && Truthy(f.ema50) && Truthy(f.adx)
    requires f.adx.value < (if PreviousDirection(previous) == Neutral then 25.0 else 20.0)
    ensures var s := Momentum(Some(f), previous, symbol);
            s.direction == Neutral && s.confidence == 0.0 && s.strength == 0.0
  {
  }

  /** From LONG the signal stays LONG iff EMA 9 > EMA 50 and the RSI is
      missing or strictly within (45, 80); it then keeps the previous
      strength with confidence 0.9, and otherwise exits to NEUTRAL. */
  lemma HoldOrExitLong(f: MarketFeatures, previous: Signal, symbol: string)
    requires previous.direction == Long && Active(Some(f), Some(previous))
    ensures var s := Momentum(Some(f), Some(previous), symbol);
            (s.direction == Long <==> f.ema9.value > f.ema50.value && RsiWithin(f.rsi, 45.0, 80.0)) &&
            (s.direction == Long ==> s.strength == previous.strength && s.confidence == 0.9) &&
            (s.direction != Long ==> s.direction == Neutral)
  {
  }

  /** The mirror image for SHORT: EMA 9 < EMA 50 and RSI missing or in (20, 55). */
  lemma HoldOrExitShort(f: MarketFeatures, previous: Signal, symbol: string)
    requires previous.direction == Short && Active(Some(f), Some(previous))
    ensures var s := Momentum(Some(f), Some(previous), symbol);
            (s.direction == Short <==> f.ema9.value < f.ema50.value && RsiWithin(f.rsi, 20.0, 55.0)) &&
            (s.direction == Short ==> s.strength == previous.strength && s.confidence == 0.9) &&
            (s.direction != Short ==> s.direction == Neutral)
  {
  }

  /** From flat, LONG iff EMA 9 > EMA 50, price > EMA 9, the EMA 200 filter
      passes and the RSI is missing or in (50, 70); SHORT iff the mirrored
      conditions hold with the RSI in (30, 50). */
  lemma EntryConditions(f: MarketFeatures, previous: Option<Signal>, symbol: string)
    requires PreviousDirection(previous) == Neutral && Active(Some(f), previous)
    ensures var s := Momentum(Some(f), previous, symbol);
            var e9 := f.ema9.value;
            var e50 := f.ema50.value;
            (s.direction == Long <==>
               e9 > e50 && f.price > e9 && (Truthy(f.ema200) ==> f.price > f.ema200.value) &&
               (Truthy(f.rsi) ==> 50.0 < f.rsi.value < 70.0)) &&
            (s.direction == Short <==>
               e9 < e50 && f.price < e9 && (Truthy(f.ema200) ==> f.price < f.ema200.value) &&
               (Truthy(f.rsi) ==> 30.0 < f.rsi.value < 50.0))
  {
  }

  /** An entry's strength is min(|ema_diff_pct| / 2, 1), within [0, 1]; its
      confidence is 0.8, raised to 0.9 exactly when the OFI SMA confirms
      (> 5 for LONG, < -5 for SHORT). */
  lemma EntryStrengthAndConfidence(f: MarketFeatures, previous: Option<Signal>, symbol: string)
    requires PreviousDirection(previous) == Neutral && Active(Some(f), previous)
    requires Momentum(Some(f), previous, symbol).direction != Neutral
    ensures var s := Momentum(Some(f), previous, symbol);
            var e9 := f.ema9.value;
            var e50 := f.ema50.value;
            s.strength == Min(Abs((e9 - e50) / e50 * 100.0) / 2.0, 1.0) && 0.0 <= s.strength <= 1.0 &&
            (s.confidence == 0.9 <==>
               Truthy(f.ofiSma) && (if s.direction == Long then f.ofiSma.value > 5.0 else f.ofiSma.value < -5.0)) &&
            (s.confidence == 0.8 || s.confidence == 0.9)
  {
  }

  /** Every directional signal carries the entry price, a trailing distance
      of 3 x ATR (1% of the price without an ATR) and a stop. A new entry
      places the stop that distance below (LONG) or above (SHORT) the price
      and sets no target; a held position copies the previous stop and
      target when the previous stop is set. */
  lemma DirectionalStops(f: MarketFeatures, previous: Option<Signal>, symbol: string)
    requires Momentum(Some(f), previous, symbol).direction != Neutral
    ensures var s := Momentum(Some(f), previous, symbol);
            var distance := 3.0 * (if Truthy(f.atr) then f.atr.value else f.price * 0.01);
            s.entryPrice == Some(f.price) && s.trailingStopDistance == Some(distance) && s.stopLoss.Some? &&
            (PreviousDirection(previous) == Neutral ==>
               s.takeProfit.None? &&
               s.stopLoss.value == (if s.direction == Long then f.price - distance else f.price + distance)) &&
            (PreviousDirection(previous) != Neutral && Truthy(previous.value.stopLoss) ==>
               s.stopLoss == previous.value.stopLoss && s.takeProfit == previous.value.takeProfit)
  {
  }

  /** Given a previous signal within the field bounds, the emitted signal is
      within them too. */
  lemma MomentumWellFormed(features: Option<MarketFeatures>, previous: Option<Signal>, symbol: string)
    requires previous.Some? ==> WellFormedSignal(previous.value)
    ensures WellFormedSignal(Momentum(features, previous, symbol))
  {
    if Active(features, previous) {
      var f := features.value;
      var d := Decide(f, f.ema9.value, f.ema50.value, previous);
      if PreviousDirection(previous) == Neutral && d.direction != Neutral {
        assert 0.0 <= EntryStrength(f.ema9.value, f.ema50.value) <= 1.0;
      }
    }
  }

  /** Hysteresis: re-evaluating the same features with the entry signal as
      the previous signal keeps the position, with the same strength, stop,
      target and trailing distance, at confidence 0.9. */
  lemma {:induction false} EntryIsHeld(f: MarketFeatures, previous: Option<Signal>, symbol: string)
    requires PreviousDirection(previous) == Neutral
    requires Momentum(Some(f), previous, symbol).direction != Neutral
    ensures var entry := Momentum(Some(f), previous, symbol);
            var held := Momentum(Some(f), Some(entry), symbol);
            held.direction == entry.direction && held.strength == entry.strength &&
            held.stopLoss == entry.stopLoss && held.takeProfit == entry.takeProfit &&
            held.trailingStopDistance == entry.trailingStopDistance && held.confidence == 0.9
  {
    var entry := Momentum(Some(f), previous, symbol);
    var e9 := f.ema9.value;
    var e50 := f.ema50.value;
    assert Active(Some(f), previous);
    assert !Choppy(f.adx, AdxThreshold(PreviousDirection(Some(entry))));
    if entry.direction == Long {
      assert LongEntry(f, e9, e50);
      assert MaintainLong(f, e9, e50);
    } else {
      assert ShortEntry(f, e9, e50);
      assert MaintainShort(f, e9, e50);
    }
  }
}
