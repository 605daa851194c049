/** The per-bar loop of the quick vectorized backtest: one position of fixed
    size, long (1), short (-1) or flat (0), with a trailing stop 3 ATR away.
    On each bar a held position is first checked against its stop (on the
    bar's low or high), then the stop trails the close, then an opposite
    signal flips the position at the close; a flat book enters on a signal,
    long before short. One equity value, balance plus open profit, is
    recorded per bar. The indicator columns and signals are inputs. */
module QuickVectorizedTest {
  import opened Common

  /** The fixed position size, in coins. */
  const PositionSize := 0.1
  const InitialBalance := 10000.0

  /** One bar of the inputs; `atr` is `None` where the rolling ATR is NaN. */
  datatype Bar = Bar(close: real, high: real, low: real, atr: Option<real>, longSignal: bool, shortSignal: bool)

  /** The loop's state: `position`, `balance`, `entry_price`, `stop_loss`. */
  datatype SimState = SimState(position: int, balance: real, entryPrice: real, stopLoss: real)

  const Start := SimState(0, InitialBalance, 0.0, 0.0)

  predicate PositionInRange(s: SimState)
  {
    s.position == -1 || s.position == 0 || s.position == 1
  }

  /** The ATR used on a bar: the rolling ATR, or 1% of the close where it is NaN. */
  function BarAtr(b: Bar): real
  {
    match b.atr
    case Some(a) => a
    case None => b.close * 0.01
  }

  /** The stop check and the trailing update for a held position; the flag
      says whether the stop was hit. */
  function CheckStop(s: SimState, b: Bar): (SimState, bool)
  {
    var dist := 3.0 * BarAtr(b);
    if s.position == 1 then
      if b.low < s.stopLoss then (s.(balance := s.balance + (s.stopLoss - s.entryPrice) * PositionSize, position := 0), true)
      else (if b.close - dist > s.stopLoss then s.(stopLoss := b.close - dist) else s, false)
    else if s.position == -1 then
      if b.high > s.stopLoss then (s.(balance := s.balance + (s.entryPrice - s.stopLoss) * PositionSize, position := 0), true)
      else (if b.close + dist < s.stopLoss then s.(stopLoss := b.close + dist) else s, false)
    else (s, false)
  }

  /** The flip of a position that survived its stop check. */
  function CheckFlip(s: SimState, b: Bar): SimState
  {
    var dist := 3.0 * BarAtr(b);
    if s.position == 1 && b.shortSignal then
      SimState(-1, s.balance + (b.close - s.entryPrice) * PositionSize, b.close, b.close + dist)
    else if s.position == -1 && b.longSignal then
      SimState(1, s.balance + (s.entryPrice - b.close) * PositionSize, b.close, b.close - dist)
    else s
  }

  /** The entry from a flat book, the long signal checked first. */
  function CheckEntry(s: SimState, b: Bar): SimState
  {
    var dist := 3.0 * BarAtr(b);
    if b.longSignal then SimState(1, s.balance, b.close, b.close - dist)
    else if b.shortSignal then SimState(-1, s.balance, b.close, b.close + dist)
    else s
  }

  /** One bar of the loop. */
  function Step(s: SimState, b: Bar): SimState
  {
    if s.position != 0 then
      var (t, closed) := CheckStop(s, b);
      if closed then t else CheckFlip(t, b)
    else CheckEntry(s, b)
  }

  /** The state after the bars, from the start state. */
  function Final(bars: seq<Bar>): SimState
  {
    if bars == [] then Start else Step(Final(bars[..|bars| - 1]), bars[|bars| - 1])
  }

  /** The open profit of the position at a price. */
  function Unrealized(s: SimState, price: real): real
  {
    if s.position == 1 then (price - s.entryPrice) * PositionSize
    else if s.position == -1 then (s.entryPrice - price) * PositionSize
    else 0.0
  }

  /** The equity after each bar, at that bar's close. */
  function EquityCurve(bars: seq<Bar>): (r: seq<real>)
    ensures |r| == |bars|
  {
    if bars == [] then []
    else
      var s := Final(bars);
      EquityCurve(bars[..|bars| - 1]) + [s.balance + Unrealized(s, bars[|bars| - 1].close)]
  }

  /** Entry `i` of the curve is the equity after bar `i`, at its close. */
  lemma {:induction false} EquityCurveAt(bars: seq<Bar>, i: int)
    requires 0 <= i < |bars|
    ensures var s := Final(bars[..i + 1]);
      EquityCurve(bars)[i] == s.balance + Unrealized(s, bars[i].close)
  {
    if i < |bars| - 1 {
      assert bars[..|bars| - 1][..i + 1] == bars[..i + 1];
      EquityCurveAt(bars[..|bars| - 1], i);
    } else {
      assert bars[..i + 1] == bars;
    }
  }

  /** One bar of the loop, branch for branch as the script writes it. */
  method BarStep(position: int, balance: real, entryPrice: real, stopLoss: real, bar: Bar)
    returns (position': int, balance': real, entryPrice': real, stopLoss': real)
    ensures SimState(position', balance', entryPrice', stopLoss') == Step(SimState(position, balance, entryPrice, stopLoss), bar)
  {
    position', balance', entryPrice', stopLoss' := position, balance, entryPrice, stopLoss;
    var price := bar.close;
    if position' != 0 {
      var currAtr := if bar.atr.Some? then bar.atr.value else price * 0.01;
      var dist := 3.0 * currAtr;
      var closed := false;
      if position' == 1 {
        if bar.low < stopLoss' {
          balance' := balance' + (stopLoss' - entryPrice') * PositionSize;
          position' := 0;
          closed := true;
        } else if price - dist > stopLoss' {
          stopLoss' := price - dist;
        }
      } else if position' == -1 {
        if bar.high > stopLoss' {
          balance' := balance' + (entryPrice' - stopLoss') * PositionSize;
          position' := 0;
          closed := true;
        } else if price + dist < stopLoss' {
          stopLoss' := price + dist;
        }
      }
      if !closed {
        if position' == 1 && bar.shortSignal {
          balance' := balance' + (price - entryPrice') * PositionSize;
          position' := -1;
          entryPrice' := price;
          stopLoss' := price + 3.0 * currAtr;
        } else if position' == -1 && bar.longSignal {
          balance' := balance' + (entryPrice' - price) * PositionSize;
          position' := 1;
          entryPrice' := price;
          stopLoss' := price - 3.0 * currAtr;
        }
      }
    } else {
      var currAtr := if bar.atr.Some? then bar.atr.value else price * 0.01;
      if bar.longSignal {
        position' := 1;
        entryPrice' := price;
        stopLoss' := price - 3.0 * currAtr;
      } else if bar.shortSignal {
        position' := -1;
        entryPrice' := price;
        stopLoss' := price + 3.0 * currAtr;
      }
    }
  }

  /** The loop of `run_vectorized_backtest`: the equity curve and the final
      state. */
  method RunVectorizedBacktest(bars: seq<Bar>) returns (equity: seq<real>, final: SimState)
    ensures equity == EquityCurve(bars) && |equity| == |bars|
    ensures final == Final(bars) && PositionInRange(final)
  {
    var position := 0;
    var balance := InitialBalance;
    var entryPrice := 0.0;
    var stopLoss := 0.0;
    equity := [];
    for i := 0 to |bars|
      invariant SimState(position, balance, entryPrice, stopLoss) == Final(bars[..i])
      invariant equity == EquityCurve(bars[..i])
    {
      assert bars[..i + 1][..i] == bars[..i];
      position, balance, entryPrice, stopLoss := BarStep(position, balance, entryPrice, stopLoss, bars[i]);
      var price := bars[i].close;
      var unrealized := 0.0;
      if position == 1 {
        unrealized := (price - entryPrice) * PositionSize;
      } else if position == -1 {
        unrealized := (entryPrice - price) * PositionSize;
      }
      equity := equity + [balance + unrealized];
    }
    assert bars[..|bars|] == bars;
    final := SimState(position, balance, entryPrice, stopLoss);
    FinalPositionInRange(bars);
  }

  /** A bar keeps the position among long, flat and short. */
  lemma StepKeepsRange(s: SimState, b: Bar)
    requires PositionInRange(s)
    ensures PositionInRange(Step(s, b))
  {
  }

  /** The position is long, flat or short after every bar. */
  lemma {:induction false} FinalPositionInRange(bars: seq<Bar>)
    ensures PositionInRange(Final(bars))
  {
    if bars != [] {
      FinalPositionInRange(bars[..|bars| - 1]);
      StepKeepsRange(Final(bars[..|bars| - 1]), bars[|bars| - 1]);
    }
  }

  /** While a long is held its stop never falls, and while a short is held
      its stop never rises. */
  lemma TrailingStopMonotone(s: SimState, b: Bar)
    ensures s.position == 1 && Step(s, b).position == 1 ==> Step(s, b).stopLoss >= s.stopLoss
    ensures s.position == -1 && Step(s, b).position == -1 ==> Step(s, b).stopLoss <= s.stopLoss
  {
  }

  /** A long whose stop is crossed by the bar's low exits at the stop price,
      whatever the signals say, and does not re-enter on that bar. */
  lemma LongStopOut(s: SimState, b: Bar)
    requires s.position == 1 && b.low < s.stopLoss
    ensures Step(s, b) == s.(position := 0, balance := s.balance + (s.stopLoss - s.entryPrice) * PositionSize)
  {
  }

  /** A short whose stop is crossed by the bar's high exits at the stop price
      and does not re-enter on that bar. */
  lemma ShortStopOut(s: SimState, b: Bar)
    requires s.position == -1 && b.high > s.stopLoss
    ensures Step(s, b) == s.(position := 0, balance := s.balance + (s.entryPrice - s.stopLoss) * PositionSize)
  {
  }

  /** A long that survives its stop and sees a short signal is closed at the
      close and reversed, with the new stop 3 ATR above the close. */
  lemma LongFlips(s: SimState, b: Bar)
    requires s.position == 1 && b.low >= s.stopLoss && b.shortSignal
    ensures Step(s, b) == SimState(-1, s.balance + (b.close - s.entryPrice) * PositionSize, b.close, b.close + 3.0 * BarAtr(b))
  {
  }

  /** A short that survives its stop and sees a long signal is closed at the
      close and reversed, with the new stop 3 ATR below the close. */
  lemma ShortFlips(s: SimState, b: Bar)
    requires s.position == -1 && b.high <= s.stopLoss && b.longSignal
    ensures Step(s, b) == SimState(1, s.balance + (s.entryPrice - b.close) * PositionSize, b.close, b.close - 3.0 * BarAtr(b))
  {
  }

  /** A held position that neither stops out nor flips keeps its entry price
      and leaves the balance alone. */
  lemma HoldKeepsEntry(s: SimState, b: Bar)
    requires s.position != 0 && Step(s, b).position == s.position
    ensures Step(s, b).entryPrice == s.entryPrice && Step(s, b).balance == s.balance
  {
  }

  /** From a flat book the long signal wins over the short one; the stop is
      placed 3 ATR from the close, the ATR being 1% of the close where NaN. */
  lemma FlatEntry(s: SimState, b: Bar)
    requires s.position == 0
    ensures b.longSignal ==> Step(s, b) == SimState(1, s.balance, b.close, b.close - 3.0 * BarAtr(b))
    ensures !b.longSignal && b.shortSignal ==> Step(s, b) == SimState(-1, s.balance, b.close, b.close + 3.0 * BarAtr(b))
    ensures !b.longSignal && !b.shortSignal ==> Step(s, b) == s
    ensures b.atr.None? ==> BarAtr(b) == b.close * 0.01
  {
  }
}
