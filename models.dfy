/** The records the pipeline stages pass to each other: market features, the
    regime, signals, positions, orders, execution results, risk limits and the
    portfolio. Fields the nodes read but the record declarations lag behind on
    (ema_200, adx, rsi, the Bollinger bands, ofi_sma, instrument_type,
    suggested_quantity, trailing_stop_distance) are optional fields here. */
module Models {
  import opened Common

  datatype Direction = Long | Short | Neutral
  datatype PositionSide = LongSide | ShortSide
  datatype OrderSide = Buy | Sell
  datatype InstrumentType = Spot | Future
  datatype OrderType = Market | Limit | StopLoss | TakeProfit
  datatype RegimeKind = Trending | Ranging | HighVolatility | LowVolatility | Unknown
  datatype SizingMethod = Fixed | Volatility | Kelly

  datatype MarketFeatures = MarketFeatures(
    symbol: string,
    price: real,
    ema9: Option<real>,
    ema50: Option<real>,
    ema200: Option<real>,
    atr: Option<real>,
    realizedVolatility: Option<real>,
    adx: Option<real>,
    rsi: Option<real>,
    bollingerUpper: Option<real>,
    bollingerMid: Option<real>,
    bollingerLower: Option<real>,
    ofiSma: Option<real>,
    orderbookImbalance: Option<real>,
    spread: Option<real>,
    vwap: Option<real>)

  datatype MarketRegime = MarketRegime(
    regime: RegimeKind,
    confidence: real,
    volatilityPercentile: Option<real>,
    trendStrength: Option<real>)

  datatype Signal = Signal(
    symbol: string,
    instrumentType: Option<InstrumentType>,
    strategy: string,
    direction: Direction,
    strength: real,
    confidence: real,
    entryPrice: Option<real>,
    stopLoss: Option<real>,
    takeProfit: Option<real>,
    trailingStopDistance: Option<real>,
    suggestedQuantity: Option<real>)

  datatype Position = Position(
    symbol: string,
    instrumentType: Option<InstrumentType>,
    side: PositionSide,
    quantity: real,
    entryPrice: real,
    currentPrice: real,
    unrealizedPnl: real)

  datatype Order = Order(
    symbol: string,
    side: OrderSide,
    orderType: OrderType,
    quantity: real,
    price: Option<real>,
    stopPrice: Option<real>,
    timeInForce: string,
    clientOrderId: Option<string>)

  datatype ExecutionResult = ExecutionResult(
    success: bool,
    orderId: Option<string>,
    filledQuantity: real,
    filledPrice: Option<real>,
    status: string,
    errorMessage: Option<string>)

  datatype RiskLimits = RiskLimits(
    maxPositionSize: real,
    maxDrawdownPercent: real,
    maxDailyLoss: real,
    maxLeverage: real,
    sizingMethod: SizingMethod)

  datatype PortfolioState = PortfolioState(
    balance: real,
    equity: real,
    positions: seq<Position>,
    openOrders: seq<Order>,
    dailyPnl: real,
    totalPnl: real)

  /** A MARKET order with the declared defaults for everything else. */
  function MarketOrder(symbol: string, side: OrderSide, quantity: real): Order
  {
    Order(symbol, side, Market, quantity, None, None, "GTC", None)
  }

  /** The field bounds a `Signal` is validated against on construction:
      strength and confidence in [0, 1]. */
  predicate WellFormedSignal(s: Signal)
  {
    0.0 <= s.strength <= 1.0 && 0.0 <= s.confidence <= 1.0
  }

  /** The confidence bound a `MarketRegime` is validated against. */
  predicate WellFormedRegime(r: MarketRegime)
  {
    0.0 <= r.confidence <= 1.0
  }

  /** `Position.get_pnl_percent`: profit as a percentage of the entry price,
      zero when the entry price is zero. */
  function PnlPercent(p: Position): (r: real)
    ensures p.entryPrice == 0.0 ==> r == 0.0
    ensures p.entryPrice > 0.0 && p.side == LongSide ==> (r > 0.0 <==> p.currentPrice > p.entryPrice)
    ensures p.entryPrice > 0.0 && p.side == ShortSide ==> (r > 0.0 <==> p.currentPrice < p.entryPrice)
  {
    if p.entryPrice == 0.0 then 0.0
    else if p.side == LongSide then (p.currentPrice - p.entryPrice) / p.entryPrice * 100.0
    else (p.entryPrice - p.currentPrice) / p.entryPrice * 100.0
  }

  /** For the same prices, a short position's PnL percentage is exactly the
      negation of a long position's. */
  lemma ShortPnlIsNegatedLong(p: Position)
    ensures PnlPercent(p.(side := ShortSide)) == -PnlPercent(p.(side := LongSide))
  {
    if p.entryPrice != 0.0 {
      calc {
        PnlPercent(p.(side := ShortSide));
        (p.entryPrice - p.currentPrice) / p.entryPrice * 100.0;
        -((p.currentPrice - p.entryPrice) / p.entryPrice) * 100.0;
        -PnlPercent(p.(side := LongSide));
      }
    }
  }

  /** `PortfolioState.get_position_count`. */
  function PositionCount(p: PortfolioState): nat
  {
    |p.positions|
  }

  /** `PortfolioState.get_total_exposure`: the sum of quantity times current
      price over the positions; zero for no positions and non-negative when
      every quantity and price is. */
  function TotalExposure(positions: seq<Position>): (r: real)
    ensures positions == [] ==> r == 0.0
    ensures (forall i :: 0 <= i < |positions| ==>
               positions[i].quantity >= 0.0 && positions[i].currentPrice >= 0.0) ==> r >= 0.0
  {
    if positions == [] then 0.0
    else
      var last := positions[|positions| - 1];
      TotalExposure(positions[..|positions| - 1]) + last.quantity * last.currentPrice
  }

  lemma {:induction false} TotalExposureAppend(positions: seq<Position>, p: Position)
    ensures TotalExposure(positions + [p]) == TotalExposure(positions) + p.quantity * p.currentPrice
  {
    assert (positions + [p])[..|positions|] == positions;
  }
}
