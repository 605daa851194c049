/** The risk manager: an ordered chain of admission checks that turns the
    strategy signal into at most one entry order, one long-closing SELL, or
    (for no or a NEUTRAL signal) one closing order per open position. The
    portfolio comes from the state or, when absent, from the trading
    provider, whose answer is the parameter `fetched`; `allowShorting` is the
    configuration switch. */
module RiskManager {
  import opened Common
  import opened Models

  const MinimumConfidence: real := 0.5
  const FixedSize: real := 0.01

  // ---------------------------------------------------------------------------
  // Specification of the three loops
  // ---------------------------------------------------------------------------

  function OppositeSide(side: PositionSide): OrderSide
  {
    if side == LongSide then Sell else Buy
  }

  /** The order that closes one position: opposite side, same symbol and
      quantity, at market. */
  function CloseOrder(p: Position): Order
  {
    MarketOrder(p.symbol, OppositeSide(p.side), p.quantity)
  }

  /** One closing order per position, in portfolio order and for every
      symbol, not only the traded one. */
  function CloseOrders(positions: seq<Position>): (r: seq<Order>)
    ensures |r| == |positions|
    ensures forall i :: 0 <= i < |positions| ==> r[i] == CloseOrder(positions[i])
  {
    if positions == [] then []
    else CloseOrders(positions[..|positions| - 1]) + [CloseOrder(positions[|positions| - 1])]
  }

  /** The total LONG quantity held in `symbol`, whatever the instrument type. */
  function LongQuantity(positions: seq<Position>, symbol: string): real
  {
    if positions == [] then 0.0
    else
      var last := positions[|positions| - 1];
      LongQuantity(positions[..|positions| - 1], symbol)
        + (if last.symbol == symbol && last.side == LongSide then last.quantity else 0.0)
  }

  predicate SameSide(p: Position, direction: Direction)
  {
    (p.side == LongSide && direction == Long) || (p.side == ShortSide && direction == Short)
  }

  /** A position in `symbol` already on the signal's side. */
  predicate HasPosition(positions: seq<Position>, symbol: string, direction: Direction)
  {
    exists i :: 0 <= i < |positions| && positions[i].symbol == symbol && SameSide(positions[i], direction)
  }

  /** `_calculate_position_size`: FIXED is the smaller of the limit and
      0.01, every other method the limit itself. */
  function PositionSize(limits: RiskLimits): (r: real)
    ensures r <= limits.maxPositionSize
    ensures limits.sizingMethod == Fixed ==> r <= FixedSize && (r == FixedSize || r == limits.maxPositionSize)
    ensures limits.sizingMethod != Fixed ==> r == limits.maxPositionSize
  {
    if limits.sizingMethod == Fixed then Min(limits.maxPositionSize, FixedSize)
    else limits.maxPositionSize
  }

  /** The check chain once a portfolio is at hand, in the node's order:
      close-all for no or a NEUTRAL signal, confidence, the long-only SHORT
      restriction, the daily-loss halt, no pyramiding, sizing. */
  function Approve(signal: Option<Signal>, portfolio: PortfolioState, limits: RiskLimits,
                   symbol: string, allowShorting: bool): seq<Order>
  {
    if signal.None? || signal.value.direction == Neutral then CloseOrders(portfolio.positions)
    else if signal.value.confidence < MinimumConfidence then []
    else if signal.value.direction == Short && !allowShorting then
      var longQuantity := LongQuantity(portfolio.positions, symbol);
      var closeQuantity := Min(longQuantity, limits.maxPositionSize);
      if longQuantity <= 0.0 || closeQuantity <= 0.0 then []
      else [MarketOrder(symbol, Sell, closeQuantity)]
    else if portfolio.dailyPnl < -limits.maxDailyLoss then []
    else if HasPosition(portfolio.positions, symbol, signal.value.direction) then []
    else if PositionSize(limits) <= 0.0 then []
    else [MarketOrder(symbol, if signal.value.direction == Long then Buy else Sell, PositionSize(limits))]
  }

  /** `risk_management_node`: the approved orders and the portfolio kept in
      the state. A failed portfolio fetch approves nothing and clears it. */
  function RiskManagement(signal: Option<Signal>, given: Option<PortfolioState>, fetched: Outcome<PortfolioState>,
                          limits: RiskLimits, symbol: string, allowShorting: bool): (r: (seq<Order>, Option<PortfolioState>))
    ensures given.None? && fetched.Raised? ==> r == ([], None)
    ensures given.Some? ==> r.1 == given
  {
    if given.Some? then (Approve(signal, given.value, limits, symbol, allowShorting), given)
    else if fetched.Raised? then ([], None)
    else (Approve(signal, fetched.value, limits, symbol, allowShorting), Some(fetched.value))
  }

  // ---------------------------------------------------------------------------
  // The node's loops
  // ---------------------------------------------------------------------------

  method BuildCloseOrders(positions: seq<Position>) returns (orders: seq<Order>)
    ensures orders == CloseOrders(positions)
  {
    orders := [];
    var i := 0;
    while i < |positions|
      invariant 0 <= i <= |positions|
      invariant orders == CloseOrders(positions[..i])
    {
      assert positions[..i + 1][..i] == positions[..i];
      orders := orders + [CloseOrder(positions[i])];
      i := i + 1;
    }
    assert positions[..i] == positions;
  }

  lemma {:induction false} LongQuantityAppend(positions: seq<Position>, p: Position, symbol: string)
    ensures LongQuantity(positions + [p], symbol)
         == LongQuantity(positions, symbol) + (if p.symbol == symbol && p.side == LongSide then p.quantity else 0.0)
  {
    assert (positions + [p])[..|positions|] == positions;
  }

  method SumLongQuantity(positions: seq<Position>, symbol: string) returns (total: real)
    ensures total == LongQuantity(positions, symbol)
  {
    total := 0.0;
    var i := 0;
    while i < |positions|
      invariant 0 <= i <= |positions|
      invariant total == LongQuantity(positions[..i], symbol)
    {
      LongQuantityAppend(positions[..i], positions[i], symbol);
      assert positions[..i + 1] == positions[..i] + [positions[i]];
      if positions[i].symbol == symbol && positions[i].side == LongSide {
        total := total + positions[i].quantity;
      }
      i := i + 1;
    }
    assert positions[..i] == positions;
  }

  /** The pyramiding scan, stopping at the first same-side position. */
  method FindSameSidePosition(positions: seq<Position>, symbol: string, direction: Direction) returns (found: bool)
    ensures found == HasPosition(positions, symbol, direction)
  {
    found := false;
    var i := 0;
    while i < |positions|
      invariant 0 <= i <= |positions|
      invariant forall j :: 0 <= j < i ==> !(positions[j].symbol == symbol && SameSide(positions[j], direction))
    {
      if positions[i].symbol == symbol && SameSide(positions[i], direction) {
        found := true;
        return;
      }
      i := i + 1;
    }
  }

  method ApproveOrders(signal: Option<Signal>, portfolio: PortfolioState, limits: RiskLimits,
                       symbol: string, allowShorting: bool) returns (orders: seq<Order>)
    ensures orders == Approve(signal, portfolio, limits, symbol, allowShorting)
  {
    if signal.None? || signal.value.direction == Neutral {
      orders := BuildCloseOrders(portfolio.positions);
      return;
    }
    var s := signal.value;
    if s.confidence < MinimumConfidence {
      return [];
    }
    if s.direction == Short && !allowShorting {
      var longQuantity := SumLongQuantity(portfolio.positions, symbol);
      if longQuantity <= 0.0 {
        return [];
      }
      var closeQuantity := Min(longQuantity, limits.maxPositionSize);
      if closeQuantity <= 0.0 {
        return [];
      }
      return [MarketOrder(symbol, Sell, closeQuantity)];
    }
    if portfolio.dailyPnl < -limits.maxDailyLoss {
      return [];
    }
    var hasPosition := FindSameSidePosition(portfolio.positions, symbol, s.direction);
    if hasPosition {
      return [];
    }
    var size := PositionSize(limits);
    if size <= 0.0 {
      return [];
    }
    orders := [MarketOrder(symbol, if s.direction == Long then Buy else Sell, size)];
  }

  method RiskManagementNode(signal: Option<Signal>, given: Option<PortfolioState>, fetched: Outcome<PortfolioState>,
                            limits: RiskLimits, symbol: string, allowShorting: bool)
    returns (orders: seq<Order>, portfolio: Option<PortfolioState>)
    ensures (orders, portfolio) == RiskManagement(signal, given, fetched, limits, symbol, allowShorting)
  {
    var held: PortfolioState;
    if given.Some? {
      held := given.value;
    } else if fetched.Raised? {
      return [], None;
    } else {
      held := fetched.value;
    }
    orders := ApproveOrders(signal, held, limits, symbol, allowShorting);
    portfolio := Some(held);
  }

  // ---------------------------------------------------------------------------
  // Properties of the check chain
  // ---------------------------------------------------------------------------

  /** No signal or a NEUTRAL one flattens the book: one closing MARKET order
      per position, so as many orders as positions. */
  lemma NeutralClosesEverything(signal: Option<Signal>, portfolio: PortfolioState, limits: RiskLimits, symbol: string, allowShorting: bool)
    requires signal.None? || signal.value.direction == Neutral
    ensures var orders := Approve(signal, portfolio, limits, symbol, allowShorting);
      && |orders| == PositionCount(portfolio)
      && forall i :: 0 <= i < |orders| ==>
           orders[i].symbol == portfolio.positions[i].symbol
           && orders[i].quantity == portfolio.positions[i].quantity
           && orders[i].orderType == Market
           && (orders[i].side == Sell <==> portfolio.positions[i].side == LongSide)
  {
  }

  /** A directional signal never produces more than one order, always at
      market; and no order at all when its confidence is below 0.5. */
  lemma DirectionalAtMostOneOrder(s: Signal, portfolio: PortfolioState, limits: RiskLimits, symbol: string, allowShorting: bool)
    requires s.direction != Neutral
    ensures var orders := Approve(Some(s), portfolio, limits, symbol, allowShorting);
      && |orders| <= 1
      && (|orders| == 1 ==> orders[0].orderType == Market && orders[0].symbol == symbol && orders[0].quantity > 0.0)
      && (s.confidence < MinimumConfidence ==> orders == [])
  {
  }

  /** With shorting disabled a SHORT signal can only reduce an existing long:
      no long means no order, otherwise one SELL for the long quantity capped
      by the position limit, so never more than is held. The daily-loss halt
      is not consulted on this path. */
  lemma ShortOnlyClosesLongs(s: Signal, portfolio: PortfolioState, limits: RiskLimits, symbol: string)
    requires s.direction == Short && s.confidence >= MinimumConfidence
    ensures var orders := Approve(Some(s), portfolio, limits, symbol, false);
      var held := LongQuantity(portfolio.positions, symbol);
      && (held <= 0.0 ==> orders == [])
      && (held > 0.0 && limits.maxPositionSize > 0.0 ==>
            orders == [MarketOrder(symbol, Sell, Min(held, limits.maxPositionSize))])
      && (|orders| == 1 ==> orders[0].side == Sell && orders[0].quantity <= held)
      && (forall pnl :: Approve(Some(s), portfolio.(dailyPnl := pnl), limits, symbol, false) == orders)
  {
  }

  /** Past the confidence check, a loss beyond the daily limit halts every
      entry (a SHORT with shorting disabled excepted, see above). */
  lemma DailyLossHalts(s: Signal, portfolio: PortfolioState, limits: RiskLimits, symbol: string, allowShorting: bool)
    requires s.direction != Neutral
    requires !(s.direction == Short && !allowShorting)
    requires portfolio.dailyPnl < -limits.maxDailyLoss
    ensures Approve(Some(s), portfolio, limits, symbol, allowShorting) == []
  {
  }

  /** No pyramiding: an existing same-side position in the symbol blocks the
      entry, and without one an admitted entry is a BUY for LONG and a SELL
      for SHORT of exactly the computed size. */
  lemma NoPyramiding(s: Signal, portfolio: PortfolioState, limits: RiskLimits, symbol: string, allowShorting: bool)
    requires s.direction != Neutral && !(s.direction == Short && !allowShorting)
    ensures HasPosition(portfolio.positions, symbol, s.direction) ==> Approve(Some(s), portfolio, limits, symbol, allowShorting) == []
    ensures s.confidence >= MinimumConfidence && portfolio.dailyPnl >= -limits.maxDailyLoss
            && !HasPosition(portfolio.positions, symbol, s.direction) && PositionSize(limits) > 0.0 ==>
              Approve(Some(s), portfolio, limits, symbol, allowShorting)
                == [MarketOrder(symbol, if s.direction == Long then Buy else Sell, PositionSize(limits))]
  {
  }

  /** The repository's hedge scenario as the node reads it: the node takes
      its signal from the `signal` key, which the hedge agent does not set,
      so it runs the close-all path, and the one order it approves is the
      SELL that closes the 1.0 LONG spot position, not the futures hedge. */
  lemma HedgeScenarioClosesSpot(p: Position, portfolio: PortfolioState, limits: RiskLimits, allowShorting: bool)
    requires p.symbol == "BTC/USD" && p.side == LongSide && p.quantity == 1.0
    requires portfolio.positions == [p]
    ensures Approve(None, portfolio, limits, "BTC/USD", allowShorting) == [MarketOrder("BTC/USD", Sell, 1.0)]
  {
  }
}
