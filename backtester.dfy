/** The event-driven backtester: it holds at most one position of a fixed
    0.01 quantity, closes it on a neutral or opposite signal, opens one on a
    directional signal when flat, records one equity point per processed
    signal, and summarises the run with total return, win rate and maximum
    drawdown. Timestamps are not modelled; the order id is built from a
    given rendering of the timestamp. */
module Backtester {
  import opened Common
  import opened Models

  /** Every opened position has this quantity. */
  const FixedQuantity: real := 0.01

  /** One record of the trade log. */
  datatype Trade =
    | OpenTrade(side: PositionSide, price: real, quantity: real, signalConfidence: real)
    | CloseTrade(side: PositionSide, price: real, quantity: real, pnl: real, entryPrice: real)

  function SideOf(d: Direction): PositionSide
    requires d != Neutral
  {
    if d == Long then LongSide else ShortSide
  }

  /** The profit of `p` valued at `price`: the price move times the
      quantity, positive for a LONG when the price rose and for a SHORT when
      it fell. Used both when closing and for the unrealised part of equity. */
  function Pnl(p: Position, price: real): real
  {
    if p.side == LongSide then (price - p.entryPrice) * p.quantity
    else (p.entryPrice - price) * p.quantity
  }

  /** A held position closes on NEUTRAL or on the opposite direction. */
  predicate ShouldClose(d: Direction, side: PositionSide)
  {
    d == Neutral || (d == Long && side == ShortSide) || (d == Short && side == LongSide)
  }

  /** The unrealised profit of the held positions at `price`. */
  function Unrealized(positions: seq<Position>, price: real): real
  {
    if positions == [] then 0.0
    else Unrealized(positions[..|positions| - 1], price) + Pnl(positions[|positions| - 1], price)
  }

  lemma {:induction false} UnrealizedAppend(positions: seq<Position>, p: Position, price: real)
    ensures Unrealized(positions + [p], price) == Unrealized(positions, price) + Pnl(p, price)
  {
    assert (positions + [p])[..|positions|] == positions;
  }

  /** The realised profit a trade log records: the sum of its CLOSE pnls. */
  function Realized(trades: seq<Trade>): real
  {
    if trades == [] then 0.0
    else
      var last := trades[|trades| - 1];
      Realized(trades[..|trades| - 1]) + (if last.CloseTrade? then last.pnl else 0.0)
  }

  lemma {:induction false} RealizedAppend(trades: seq<Trade>, t: Trade)
    ensures Realized(trades + [t]) == Realized(trades) + (if t.CloseTrade? then t.pnl else 0.0)
  {
    assert (trades + [t])[..|trades|] == trades;
  }

  /** `list.remove`: the list without the first element equal to `x`. */
  function RemoveFirst(s: seq<Position>, x: Position): (r: seq<Position>)
    requires x in s
    ensures |r| == |s| - 1
    ensures s[0] == x ==> r == s[1..]
    ensures multiset(r) == multiset(s) - multiset{x}
  {
    if s[0] == x then
      assert s == [x] + s[1..];
      s[1..]
    else
      assert s == [s[0]] + s[1..];
      [s[0]] + RemoveFirst(s[1..], x)
  }

  // ---------------------------------------------------------------------------
  // The effect of one signal
  // ---------------------------------------------------------------------------

  /** What `process_signal` changes: the balance, the held positions and the
      trade log. */
  datatype Ledger = Ledger(balance: real, positions: seq<Position>, trades: seq<Trade>)

  /** Balance plus the unrealised profit at `price`. */
  function Equity(l: Ledger, price: real): real
  {
    l.balance + Unrealized(l.positions, price)
  }

  /** The closing half: the first held position is closed at `price` when
      the signal calls for it, its pnl credited and a CLOSE record logged. */
  function CloseStep(l: Ledger, d: Direction, price: real): Ledger
  {
    if l.positions != [] && ShouldClose(d, l.positions[0].side) then
      var p := l.positions[0];
      Ledger(l.balance + Pnl(p, price), RemoveFirst(l.positions, p),
             l.trades + [CloseTrade(p.side, price, p.quantity, Pnl(p, price), p.entryPrice)])
    else l
  }

  /** The position `_open_position` creates: the signal's side, the fixed
      quantity, entered and valued at `price`. */
  function Opened(signal: Signal, price: real): Position
    requires signal.direction != Neutral
  {
    Position(signal.symbol, None, SideOf(signal.direction), FixedQuantity, price, price, 0.0)
  }

  /** The opening half: a directional signal opens a position when none is
      held and logs an OPEN record. */
  function OpenStep(l: Ledger, signal: Signal, price: real): Ledger
  {
    if signal.direction != Neutral && l.positions == [] then
      Ledger(l.balance, l.positions + [Opened(signal, price)],
             l.trades + [OpenTrade(SideOf(signal.direction), price, FixedQuantity, signal.confidence)])
    else l
  }

  function Process(l: Ledger, signal: Signal, price: real): Ledger
  {
    OpenStep(CloseStep(l, signal.direction, price), signal, price)
  }

  /** After a NEUTRAL signal nothing is held; after a directional one,
      starting from at most one position, exactly one position is held and
      it is on the signal's side. */
  lemma ProcessHolding(l: Ledger, signal: Signal, price: real)
    requires |l.positions| <= 1
    ensures signal.direction == Neutral ==> Process(l, signal, price).positions == []
    ensures signal.direction != Neutral ==>
              |Process(l, signal, price).positions| == 1
              && Process(l, signal, price).positions[0].side == SideOf(signal.direction)
  {
  }

  /** A signal in the held position's direction changes nothing: the entry
      price is kept and no trade is logged. */
  lemma SameDirectionKeeps(l: Ledger, signal: Signal, price: real)
    requires |l.positions| == 1 && signal.direction != Neutral
    requires SideOf(signal.direction) == l.positions[0].side
    ensures Process(l, signal, price) == l
  {
  }

  /** An opposite signal closes and reopens in the same call: the pnl is
      credited, a CLOSE and an OPEN record are logged, and the new position
      is entered at the same price. */
  lemma OppositeFlips(l: Ledger, signal: Signal, price: real)
    requires |l.positions| == 1 && signal.direction != Neutral
    requires SideOf(signal.direction) != l.positions[0].side
    ensures var p := l.positions[0];
      Process(l, signal, price) ==
        Ledger(l.balance + Pnl(p, price), [Opened(signal, price)],
               l.trades + [CloseTrade(p.side, price, p.quantity, Pnl(p, price), p.entryPrice),
                           OpenTrade(SideOf(signal.direction), price, FixedQuantity, signal.confidence)])
  {
    assert [Opened(signal, price)] == [] + [Opened(signal, price)];
  }

  lemma UnrealizedSingle(p: Position, price: real)
    ensures Unrealized([p], price) == Pnl(p, price)
  {
    assert [p][..0] == [];
  }

  /** A position just opened at `price` shows no profit at that price. */
  lemma OpenedHasNoPnl(signal: Signal, price: real)
    requires signal.direction != Neutral
    ensures Pnl(Opened(signal, price), price) == 0.0
  {
  }

  /** Closing realises exactly the unrealised profit and opening at the
      current price adds none, so processing a signal leaves the equity at
      that price unchanged. */
  lemma ProcessPreservesEquity(l: Ledger, signal: Signal, price: real)
    requires |l.positions| <= 1
    ensures Equity(Process(l, signal, price), price) == Equity(l, price)
  {
    var closed := CloseStep(l, signal.direction, price);
    if l.positions != [] {
      var p := l.positions[0];
      assert l.positions == [p];
      UnrealizedSingle(p, price);
      if ShouldClose(signal.direction, p.side) {
        assert closed == Ledger(l.balance + Pnl(p, price), [], closed.trades);
        assert Equity(closed, price) == Equity(l, price);
      }
    }
    if signal.direction != Neutral && closed.positions == [] {
      UnrealizedSingle(Opened(signal, price), price);
      OpenedHasNoPnl(signal, price);
      assert Process(l, signal, price).positions == [Opened(signal, price)];
    }
  }

  /** The balance moves only by the pnl the log records. */
  lemma ProcessKeepsRealized(l: Ledger, signal: Signal, price: real)
    ensures Process(l, signal, price).balance - Realized(Process(l, signal, price).trades)
         == l.balance - Realized(l.trades)
  {
    var closed := CloseStep(l, signal.direction, price);
    if l.positions != [] && ShouldClose(signal.direction, l.positions[0].side) {
      var p := l.positions[0];
      RealizedAppend(l.trades, CloseTrade(p.side, price, p.quantity, Pnl(p, price), p.entryPrice));
    }
    if signal.direction != Neutral && closed.positions == [] {
      RealizedAppend(closed.trades, OpenTrade(SideOf(signal.direction), price, FixedQuantity, signal.confidence));
    }
  }

  // ---------------------------------------------------------------------------
  // Summary
  // ---------------------------------------------------------------------------

  function CloseCount(trades: seq<Trade>): nat
  {
    if trades == [] then 0
    else CloseCount(trades[..|trades| - 1]) + (if trades[|trades| - 1].CloseTrade? then 1 else 0)
  }

  function WinCount(trades: seq<Trade>): (r: nat)
    ensures r <= CloseCount(trades)
  {
    if trades == [] then 0
    else
      var last := trades[|trades| - 1];
      WinCount(trades[..|trades| - 1]) + (if last.CloseTrade? && last.pnl > 0.0 then 1 else 0)
  }

  /** Winning closes over closes, as a percentage; zero with no closes. */
  function WinRate(trades: seq<Trade>): (r: real)
    ensures 0.0 <= r <= 100.0
    ensures CloseCount(trades) == 0 ==> r == 0.0
    ensures CloseCount(trades) > 0 && WinCount(trades) == CloseCount(trades) ==> r == 100.0
  {
    if CloseCount(trades) == 0 then 0.0
    else
      var wins, closes := WinCount(trades) as real, CloseCount(trades) as real;
      DivBetween(wins, closes, 0.0, 1.0);
      assert wins == closes ==> wins / closes == 1.0 by {
        if wins == closes {
          DivBetween(wins, closes, 1.0, 1.0);
        }
      }
      wins / closes * 100.0
  }

  /** One step of the drawdown loop: the fall from the peak as a
      percentage of the peak. */
  function DrawdownAt(peak: real, equity: real): real
    requires peak != 0.0
  {
    (peak - equity) / peak * 100.0
  }

  /** `_calculate_max_drawdown`: the largest fall from the running peak, as
      a percentage; a running peak of zero divides by zero and raises. */
  function MaxDrawdown(curve: seq<real>): (r: Outcome<real>)
    ensures r.Returned? ==> r.value >= 0.0
    ensures curve != [] && r.Returned? ==> MaxOf(curve) != 0.0
  {
    if curve == [] then Returned(0.0)
    else
      var prefix := curve[..|curve| - 1];
      var before := MaxDrawdown(prefix);
      var peak := MaxOf(curve);
      if before.Raised? then before
      else if peak == 0.0 then Raised("float division by zero")
      else Returned(Max(before.value, DrawdownAt(peak, curve[|curve| - 1])))
  }

  /** A non-decreasing curve starting above zero has no drawdown. */
  lemma {:induction false} RisingCurveHasNoDrawdown(curve: seq<real>)
    requires curve != [] && curve[0] > 0.0
    requires forall i, j :: 0 <= i <= j < |curve| ==> curve[i] <= curve[j]
    ensures MaxDrawdown(curve) == Returned(0.0)
  {
    if |curve| > 1 {
      var prefix := curve[..|curve| - 1];
      RisingCurveHasNoDrawdown(prefix);
      assert MaxOf(curve) == curve[|curve| - 1];
    }
  }

  /** With a positive first point and no negative point, no fall exceeds
      100%. */
  lemma {:induction false} DrawdownAtMostHundred(curve: seq<real>)
    requires curve != [] && curve[0] > 0.0
    requires forall i :: 0 <= i < |curve| ==> curve[i] >= 0.0
    ensures MaxDrawdown(curve).Returned? && MaxDrawdown(curve).value <= 100.0
  {
    if |curve| > 1 {
      var prefix := curve[..|curve| - 1];
      DrawdownAtMostHundred(prefix);
    }
    var peak := MaxOf(curve);
    assert peak >= curve[0];
    DivBetween(peak - curve[|curve| - 1], peak, 0.0, 1.0);
  }

  /** A zero first point is a zero peak, so the computation raises. */
  lemma ZeroStartRaises(curve: seq<real>)
    requires curve != [] && curve[0] == 0.0
    ensures MaxDrawdown(curve).Raised?
  {
    var prefix := curve[..1];
    assert MaxDrawdown(prefix).Raised?;
    MaxDrawdownRaisedSticks(curve, 1);
  }

  /** Once a prefix raises, so does the whole curve. */
  lemma {:induction false} MaxDrawdownRaisedSticks(curve: seq<real>, n: nat)
    requires n <= |curve| && MaxDrawdown(curve[..n]).Raised?
    ensures MaxDrawdown(curve) == MaxDrawdown(curve[..n])
    decreases |curve| - n
  {
    if n < |curve| {
      assert curve[..n + 1][..n] == curve[..n];
      MaxDrawdownRaisedSticks(curve, n + 1);
    } else {
      assert curve[..n] == curve;
    }
  }

  /** One more point of the drawdown loop, when the peak is not zero. */
  lemma DrawdownStep(curve: seq<real>, i: nat)
    requires i < |curve| && MaxDrawdown(curve[..i]).Returned? && MaxOf(curve[..i + 1]) != 0.0
    ensures MaxDrawdown(curve[..i + 1])
         == Returned(Max(MaxDrawdown(curve[..i]).value, DrawdownAt(MaxOf(curve[..i + 1]), curve[i])))
  {
    assert curve[..i + 1][..i] == curve[..i];
  }

  /** A zero running peak raises, and the whole computation with it. */
  lemma DrawdownRaises(curve: seq<real>, i: nat)
    requires i < |curve| && MaxDrawdown(curve[..i]).Returned? && MaxOf(curve[..i + 1]) == 0.0
    ensures MaxDrawdown(curve) == Raised("float division by zero")
  {
    assert curve[..i + 1][..i] == curve[..i];
    assert MaxDrawdown(curve[..i + 1]) == Raised("float division by zero");
    MaxDrawdownRaisedSticks(curve, i + 1);
  }

  /** The summary `get_results` returns. */
  datatype Report =
    | EmptyReport
    | Report(totalReturn: real, finalEquity: real, totalTrades: nat, winRate: real,
             maxDrawdown: real, sharpeRatio: real, trades: seq<Trade>)

  /** `get_results`, given the outcome of the Sharpe computation: zeros for
      an empty curve; otherwise the return on the initial balance (raising
      when that is zero), the win rate, the drawdown (raising on a zero
      peak) and the Sharpe ratio. */
  function Results(initialBalance: real, trades: seq<Trade>, curve: seq<real>, sharpe: Outcome<real>): (r: Outcome<Report>)
    ensures curve == [] ==> r == Returned(EmptyReport)
    ensures curve != [] && initialBalance == 0.0 ==> r.Raised?
    ensures r.Returned? && r.value.Report? ==>
              r.value.finalEquity == curve[|curve| - 1]
              && (r.value.finalEquity > initialBalance > 0.0 ==> r.value.totalReturn > 0.0)
              && r.value.totalTrades == CloseCount(trades)
              && 0.0 <= r.value.winRate <= 100.0
              && r.value.maxDrawdown >= 0.0
  {
    if curve == [] then Returned(EmptyReport)
    else if initialBalance == 0.0 then Raised("float division by zero")
    else
      var finalEquity := curve[|curve| - 1];
      var totalReturn := RelativeChange(initialBalance, finalEquity) * 100.0;
      var drawdown := MaxDrawdown(curve);
      if drawdown.Raised? then Raised(drawdown.message)
      else if sharpe.Raised? then Raised(sharpe.message)
      else Returned(Report(totalReturn, finalEquity, CloseCount(trades), WinRate(trades),
                           drawdown.value, sharpe.value, trades))
  }

  // ---------------------------------------------------------------------------
  // The engine
  // ---------------------------------------------------------------------------

  class Backtester {
    const initialBalance: real
    var balance: real
    var positions: seq<Position>
    var trades: seq<Trade>
    var equityCurve: seq<real>

    function Book(): Ledger
      reads this
    {
      Ledger(balance, positions, trades)
    }

    /** At most one position is held, and the balance is the initial
        balance plus the profit the trade log realised. */
    predicate Valid()
      reads this
    {
      |positions| <= 1 && balance == initialBalance + Realized(trades)
    }

    constructor(initialBalance: real)
      ensures Valid() && this.initialBalance == initialBalance
      ensures balance == initialBalance && positions == [] && trades == [] && equityCurve == []
    {
      this.initialBalance := initialBalance;
      balance := initialBalance;
      positions := [];
      trades := [];
      equityCurve := [];
    }

    /** `_open_position`. */
    method OpenPosition(signal: Signal, price: real)
      requires signal.direction != Neutral
      modifies this`positions, this`trades
      ensures positions == old(positions) + [Opened(signal, price)]
      ensures trades == old(trades) + [OpenTrade(SideOf(signal.direction), price, FixedQuantity, signal.confidence)]
    {
      var quantity := FixedQuantity;
      var position := Position(signal.symbol, None, SideOf(signal.direction), quantity, price, price, 0.0);
      positions := positions + [position];
      trades := trades + [OpenTrade(SideOf(signal.direction), price, quantity, signal.confidence)];
    }

    /** `_close_position`: logs the CLOSE record, drops the position and
        returns its pnl. */
    method ClosePosition(position: Position, price: real) returns (pnl: real)
      requires position in positions
      modifies this`positions, this`trades
      ensures pnl == Pnl(position, price)
      ensures trades == old(trades) + [CloseTrade(position.side, price, position.quantity, pnl, position.entryPrice)]
      ensures positions == RemoveFirst(old(positions), position)
    {
      if position.side == LongSide {
        pnl := (price - position.entryPrice) * position.quantity;
      } else {
        pnl := (position.entryPrice - price) * position.quantity;
      }
      trades := trades + [CloseTrade(position.side, price, position.quantity, pnl, position.entryPrice)];
      positions := RemoveFirst(positions, position);
    }

    /** `_calculate_equity`: the balance plus the unrealised profit of the
        held positions at `currentPrice`. */
    method CalculateEquity(currentPrice: real) returns (equity: real)
      ensures equity == Equity(Book(), currentPrice)
    {
      var unrealized := 0.0;
      var i := 0;
      while i < |positions|
        invariant 0 <= i <= |positions|
        invariant unrealized == Unrealized(positions[..i], currentPrice)
      {
        var position := positions[i];
        UnrealizedAppend(positions[..i], position, currentPrice);
        assert positions[..i + 1] == positions[..i] + [position];
        if position.side == LongSide {
          unrealized := unrealized + (currentPrice - position.entryPrice) * position.quantity;
        } else {
          unrealized := unrealized + (position.entryPrice - currentPrice) * position.quantity;
        }
        i := i + 1;
      }
      assert positions[..i] == positions;
      equity := balance + unrealized;
    }

    /** `process_signal`: close if called for, open if flat and
        directional, then record the equity at `currentPrice`. The result
        always reports a fill of the fixed quantity at that price. */
    method ProcessSignal(signal: Signal, currentPrice: real, stamp: string) returns (r: ExecutionResult)
      requires Valid()
      modifies this`balance, this`positions, this`trades, this`equityCurve
      ensures Valid()
      ensures Book() == Process(old(Book()), signal, currentPrice)
      ensures equityCurve == old(equityCurve) + [Equity(Book(), currentPrice)]
      ensures r == ExecutionResult(true, Some("backtest_" + stamp), FixedQuantity, Some(currentPrice), "FILLED", None)
    {
      ghost var before := Book();
      if positions != [] {
        var position := positions[0];
        var shouldClose := false;
        if signal.direction == Neutral {
          shouldClose := true;
        } else if signal.direction == Long && position.side == ShortSide {
          shouldClose := true;
        } else if signal.direction == Short && position.side == LongSide {
          shouldClose := true;
        }
        if shouldClose {
          var pnl := ClosePosition(position, currentPrice);
          balance := balance + pnl;
        }
      }
      assert Book() == CloseStep(before, signal.direction, currentPrice);
      if signal.direction != Neutral && positions == [] {
        OpenPosition(signal, currentPrice);
      }
      assert Book() == Process(before, signal, currentPrice);
      ProcessKeepsRealized(before, signal, currentPrice);
      ProcessHolding(before, signal, currentPrice);
      var equity := CalculateEquity(currentPrice);
      equityCurve := equityCurve + [equity];
      r := ExecutionResult(true, Some("backtest_" + stamp), FixedQuantity, Some(currentPrice), "FILLED", None);
    }

    /** `_calculate_max_drawdown`: the running-peak loop. */
    method CalculateMaxDrawdown() returns (r: Outcome<real>)
      ensures r == MaxDrawdown(equityCurve)
    {
      if equityCurve == [] {
        return Returned(0.0);
      }
      var equities := equityCurve;
      var peak := equities[0];
      var maxDd := 0.0;
      var i := 0;
      while i < |equities|
        invariant 0 <= i <= |equities|
        invariant i == 0 ==> peak == equities[0]
        invariant i > 0 ==> peak == MaxOf(equities[..i])
        invariant MaxDrawdown(equities[..i]) == Returned(maxDd)
      {
        var equity := equities[i];
        MaxOfStep(equities, i, peak);
        if equity > peak {
          peak := equity;
        }
        if peak == 0.0 {
          DrawdownRaises(equities, i);
          return Raised("float division by zero");
        }
        DrawdownStep(equities, i);
        var dd := (peak - equity) / peak * 100.0;
        if dd > maxDd {
          maxDd := dd;
        }
        i := i + 1;
      }
      assert equities[..i] == equities;
      r := Returned(maxDd);
    }

    /** `get_results`, with the Sharpe ratio's outcome supplied. */
    method GetResults(sharpe: Outcome<real>) returns (r: Outcome<Report>)
      ensures r == Results(initialBalance, trades, equityCurve, sharpe)
    {
      if equityCurve == [] {
        return Returned(EmptyReport);
      }
      var finalEquity := equityCurve[|equityCurve| - 1];
      if initialBalance == 0.0 {
        return Raised("float division by zero");
      }
      var totalReturn := RelativeChange(initialBalance, finalEquity) * 100.0;
      var winRate := WinRate(trades);
      var maxDrawdown := CalculateMaxDrawdown();
      if maxDrawdown.Raised? {
        return Raised(maxDrawdown.message);
      }
      if sharpe.Raised? {
        return Raised(sharpe.message);
      }
      r := Returned(Report(totalReturn, finalEquity, CloseCount(trades), winRate, maxDrawdown.value, sharpe.value, trades));
    }
  }
}
