# Trading agent core, modelled in Dafny

This project models the decision core of an AI trading agent, written in Python. It has three parts.

**The pipeline.** The pipeline is a chain of graph nodes over a shared state. In order:
- the data sanitizer drops malformed klines;
- the feature engine keeps bounded rolling buffers and computes EMA, ATR, RSI, Bollinger bands and VWAP;
- the regime classifier applies volatility and trend rules, then defers to a language model;
- the strategy router picks momentum, mean reversion or neutral;
- the strategy nodes emit signals: a momentum hysteresis machine and a band/RSI mean-reversion rule;
- the hedge agent adds a futures hedge for the spot holding;
- the risk manager applies an ordered chain of admission checks and sizes the position;
- the execution agent submits the approved orders one by one, so one failure does not affect the others.

**Market-data structures and simulation:**
- the event records' mid, spread, imbalance and typical price;
- a position's PnL percentage and the portfolio's exposure;
- the heap-based limit-order-book simulator with market-order matching;
- the depth-replay order book with update-id gating and the order-flow-imbalance calculator;
- the event-driven backtester;
- the performance metrics;
- the per-bar trailing-stop loop of the quick vectorized backtest.

**Small helpers:**
- the language-model reply parser;
- the Alpaca and Kotak Neo symbol conversions and the Kotak order-field mapping;
- the state store's key-to-file mapping;
- the control panel's experience and level state.

**How the model is built:**
- Each source file is one Dafny module.
- Prices and quantities are `real`.
- A Python call that may raise is an `Outcome` (`Returned` or `Raised`).
- `Truthy` is Python truthiness of an optional number: 0.0 is falsy.
- Code that updates state in place is a class with `modifies` clauses: the feature engine, the order books, the simulator, the backtester and the game state.
- Each loop is a method, proved against a specification function.
- The trading provider's answers are a parameter of the execution agent. The language model, the broker client, `float()`/`str()` conversions and `sqrt` are function parameters.

## Model

| member | source | states |
|---|---|---|
| Models.PnlPercent | src/app/schemas/models.py:64-71 | zero for a zero entry price; for a positive entry price the percentage is positive exactly when the price has moved the position's way (up for LONG, down for SHORT) |
| Models.ShortPnlIsNegatedLong | src/app/schemas/models.py:68-71 | at the same prices a SHORT's PnL percentage is the negation of a LONG's |
| Models.TotalExposure | src/app/schemas/models.py:124-126 | the sum of quantity times current price: zero for no positions, non-negative when every quantity and price is |
| Models.TotalExposureAppend | src/app/schemas/models.py:126 | one more position adds exactly its quantity times its current price |
| Events.MidPrice | src/app/schemas/events.py:26-32 | absent exactly when a side is empty; otherwise equidistant from the first bid and the first ask |
| Events.Spread | src/app/schemas/events.py:34-38 | absent exactly when a side is empty; otherwise first bid plus spread is first ask |
| Events.Imbalance | src/app/schemas/events.py:40-49 | zero for an empty side or a zero total; with non-negative quantities it lies in [-1, 1] and is positive exactly when the bid quantity is larger |
| Events.ShareOfTotal | src/app/schemas/events.py:46-49 | the difference of two non-negative quantities over their non-zero total lies in [-1, 1], positive iff the first is larger |
| Events.TypicalPrice | src/app/schemas/events.py:65-67 | lies between low and high whenever the close does |
| MomentumPolicy.EntryBandsInsideMaintainBands | src/app/nodes/momentum_policy.py:72-85 | the entry RSI bands lie strictly inside the maintain bands and the entry ADX threshold exceeds the maintain one |
| MomentumPolicy.EntryStrength | src/app/nodes/momentum_policy.py:166 | the entry strength lies in [0, 1] |
| MomentumPolicy.EntryConfidence | src/app/nodes/momentum_policy.py:167-172 | the entry confidence is 0.8 or 0.9 |
| MomentumPolicy.Momentum | src/app/nodes/momentum_policy.py:17-246 | the signal carries the node's symbol and strategy "momentum"; a directional signal always has a stop and a trailing distance |
| MomentumPolicy.MissingDataIsNeutral | src/app/nodes/momentum_policy.py:29-42 | missing features or a missing or zero EMA 9 or EMA 50 give NEUTRAL, zero strength and confidence, no entry price |
| MomentumPolicy.ChoppyMarketIsNeutral | src/app/nodes/momentum_policy.py:87-103 | a present ADX below 25 when flat, or below 20 when holding, gives NEUTRAL with zero strength and confidence |
| MomentumPolicy.HoldOrExitLong | src/app/nodes/momentum_policy.py:112-133 | from LONG the signal stays LONG iff EMA 9 > EMA 50 and the RSI is missing or in (45, 80), keeping the previous strength at confidence 0.9; otherwise NEUTRAL |
| MomentumPolicy.HoldOrExitShort | src/app/nodes/momentum_policy.py:136-152 | from SHORT the signal stays SHORT iff EMA 9 < EMA 50 and the RSI is missing or in (20, 55); otherwise NEUTRAL |
| MomentumPolicy.EntryConditions | src/app/nodes/momentum_policy.py:155-184 | from flat, LONG iff EMA 9 > EMA 50, price > EMA 9, the EMA 200 filter passes and the RSI is missing or in (50, 70); SHORT iff the mirror conditions hold with the RSI in (30, 50) |
| MomentumPolicy.EntryStrengthAndConfidence | src/app/nodes/momentum_policy.py:163-184 | an entry's strength is min(\|ema_diff_pct\| / 2, 1); its confidence is 0.9 exactly when the OFI SMA confirms the direction, else 0.8 |
| MomentumPolicy.DirectionalStops | src/app/nodes/momentum_policy.py:192-228 | a directional signal carries the price, a 3 x ATR trailing distance (1% of price without ATR) and a stop: a new entry's stop is that distance from the price with no target; a held position copies the previous stop and target when the previous stop is set |
| MomentumPolicy.MomentumWellFormed | src/app/schemas/models.py:45-46 | with a previous signal within the field bounds, the emitted signal's strength and confidence are within [0, 1] |
| MomentumPolicy.EntryIsHeld | src/app/nodes/momentum_policy.py:112-152 | re-evaluating the same features with the entry signal as previous keeps the direction, strength, stop, target and trailing distance, at confidence 0.9 |
| MeanReversionPolicy.MeanReversion | src/app/nodes/mean_reversion_policy.py:17-106 | raises exactly when RSI and upper band are present but the lower band is missing (the comparison with `None`); every returned signal carries the symbol and strategy "mean_reversion" |
| MeanReversionPolicy.MissingDataIsNeutral | src/app/nodes/mean_reversion_policy.py:28-41 | missing features, RSI or upper band give the NEUTRAL signal with zero strength and confidence and no entry price |
| MeanReversionPolicy.DirectionConditions | src/app/nodes/mean_reversion_policy.py:57-88 | with the data present: LONG iff price < lower band and RSI < oversold; SHORT iff not that and price > upper band and RSI > overbought; NEUTRAL iff neither; always entering at the price |
| MeanReversionPolicy.DirectionalSignal | src/app/nodes/mean_reversion_policy.py:57-81 | a directional signal has confidence 0.8, strength min(excess / 10, 1) in (0, 1], the middle band as target and a stop 2% below (LONG) or above (SHORT) a positive price |
| MeanReversionPolicy.InRangeIsNeutral | src/app/nodes/mean_reversion_policy.py:83-88 | otherwise NEUTRAL with strength 0, confidence 0.5 and no stop or target |
| MeanReversionPolicy.MeanReversionWellFormed | src/app/schemas/models.py:45-46 | every returned signal is within the `Signal` field bounds |
| MeanReversionPolicy.RepositoryExamples | src/tests/test_mean_reversion.py:9-102 | the repository's LONG, SHORT and NEUTRAL examples give those directions with confidence 0.8 for the directional ones |
| RegimeClassifier.VolatilityRule | src/app/nodes/regime_classifier.py:46-63 | HIGH_VOLATILITY iff a volatility input exists and `realized_volatility or atr or 0.0` exceeds 0.03, LOW_VOLATILITY iff it is below 0.01, both at confidence 0.7 and ambiguity 0.3; otherwise the undecided verdict |
| RegimeClassifier.TrendStrength | src/app/nodes/regime_classifier.py:71-73 | recorded exactly when EMA 50 is positive, and then non-negative |
| RegimeClassifier.TrendRule | src/app/nodes/regime_classifier.py:75-90 | raises (division by zero) exactly when both EMAs are zero |
| RegimeClassifier.Rules | src/app/nodes/regime_classifier.py:46-90 | can raise only through the trend rules, i.e. with both EMAs present and no decisive volatility reading |
| RegimeClassifier.ClassifyRegime | src/app/nodes/regime_classifier.py:17-116 | without features the regime is UNKNOWN with confidence 0 |
| RegimeClassifier.RulesAlwaysAmbiguous | src/app/nodes/regime_classifier.py:54-93 | every rule verdict has ambiguity above 0.2 and a confidence in [0, 1] |
| RegimeClassifier.LanguageModelAlwaysConsulted | src/app/nodes/regime_classifier.py:92-111 | whenever the rules return, the language model's regime is returned if its call returns, and the rule verdict if it raises |
| RegimeClassifier.VolatilityTakesPrecedence | src/app/nodes/regime_classifier.py:49-65 | a decisive volatility reading decides the verdict, at confidence 0.7 with no trend strength, whatever the EMAs |
| RegimeClassifier.TrendRules | src/app/nodes/regime_classifier.py:65-90 | with both EMAs and no decisive volatility: TRENDING iff more than 2% apart; RANGING iff not and within 0.5% of EMA 50; UNKNOWN then has confidence 0.5 |
| RegimeClassifier.NoInputsIsUndecided | src/app/nodes/regime_classifier.py:39-47 | with no volatility or trend inputs the verdict is UNKNOWN, confidence 0, ambiguity 1 |
| RegimeClassifier.ZeroEmasRaise | src/app/nodes/regime_classifier.py:83 | zero EMAs with no volatility input make the node raise |
| StrategyRouter.Name | src/app/nodes/strategy_router.py:11 | the stored name is one of "momentum", "mean_reversion", "neutral" |
| StrategyRouter.Route | src/app/nodes/strategy_router.py:15-55 | momentum iff a regime with confidence at least 0.4 is TRENDING or LOW_VOLATILITY; mean reversion iff such a regime is RANGING; neutral iff there is no regime, confidence is below 0.4, or the regime is HIGH_VOLATILITY or UNKNOWN |
| StrategyRouter.NodeName | src/app/nodes/strategy_router.py:58-67 | the momentum node is chosen exactly when the stored value is "momentum", the mean-reversion node exactly when it is "mean_reversion", and the neutral node otherwise |
| StrategyRouter.EdgeFollowsRouter | src/app/nodes/strategy_router.py:51-67 | the conditional edge leads to exactly the strategy the router stored |
| StrategyRouter.UnknownNameIsNeutral | src/app/nodes/strategy_router.py:66-67 | any other stored value, or none, leads to the neutral node |
| HedgeAgent.MatchingQuantityAppend | src/app/nodes/hedge_agent.py:35-37 | one more position adds its quantity exactly when it matches symbol, instrument type and side |
| HedgeAgent.MatchingQuantityBounds | src/app/nodes/hedge_agent.py:33-57 | with no matching position the total is zero; with non-negative quantities it is non-negative |
| HedgeAgent.MatchingQuantity | src/app/nodes/hedge_agent.py:33-57 | the matching total as a value; no contract of its own, HedgeAgent.SumMatching computes it |
| HedgeAgent.SumMatching | src/app/nodes/hedge_agent.py:33-57 | the accumulation loop computes the total quantity of the matching positions |
| HedgeAgent.HedgeSignal | src/app/nodes/hedge_agent.py:114-126 | a FUTURE "hedge" signal for the symbol, SHORT for a positive difference and LONG otherwise, with strength and confidence 1 and the absolute difference as suggested quantity |
| HedgeAgent.HedgeOutput | src/app/nodes/hedge_agent.py:72-131 | the incoming signals unchanged, followed by one more signal exactly when the difference exceeds 0.0001 |
| HedgeAgent.Hedge | src/app/nodes/hedge_agent.py:17-131 | the node's output is the incoming signals plus the adjustment the spot LONG and futures SHORT totals call for |
| HedgeAgent.SignalsDoNotAffectHedge | src/app/nodes/hedge_agent.py:39-50 | incoming signals never change the appended hedge |
| HedgeAgent.AdjustmentSignal | src/app/nodes/hedge_agent.py:72-127 | a balanced book passes the signals through; otherwise one FUTURE signal is appended, SHORT iff under-hedged, whose quantity brings the futures SHORT total to the spot LONG total |
| HedgeAgent.RepositoryExample | src/tests/test_hedge_agent.py:44-49 | one 1.0 LONG SPOT position with no hedge gives one SHORT FUTURE signal for 1.0 |
| RiskManager.CloseOrders | src/app/nodes/risk_manager.py:63-71 | one closing order per position, in portfolio order and for every symbol |
| RiskManager.PositionSize | src/app/nodes/risk_manager.py:195-218 | FIXED sizing gives the smaller of the position limit and 0.01; every other method gives the limit; never above the limit |
| RiskManager.RiskManagement | src/app/nodes/risk_manager.py:42-56 | a portfolio already in the state is kept; a failed fetch approves nothing and clears the portfolio |
| RiskManager.BuildCloseOrders | src/app/nodes/risk_manager.py:63-71 | the close-all loop builds exactly the closing orders of the positions |
| RiskManager.LongQuantityAppend | src/app/nodes/risk_manager.py:94-96 | one more position adds its quantity to the long total exactly when it is LONG in the traded symbol |
| RiskManager.SumLongQuantity | src/app/nodes/risk_manager.py:93-96 | the loop computes the total LONG quantity in the traded symbol |
| RiskManager.FindSameSidePosition | src/app/nodes/risk_manager.py:142-149 | the scan finds a position iff some position in the symbol is on the signal's side |
| RiskManager.ApproveOrders | src/app/nodes/risk_manager.py:58-192 | the check chain's orders agree with its specification, check for check and in order |
| RiskManager.RiskManagementNode | src/app/nodes/risk_manager.py:20-192 | the node's approved orders and portfolio agree with the specification |
| RiskManager.NeutralClosesEverything | src/app/nodes/risk_manager.py:61-78 | no signal or a NEUTRAL one gives one market order per position, opposite side and same quantity |
| RiskManager.DirectionalAtMostOneOrder | src/app/nodes/risk_manager.py:80-192 | a directional signal yields at most one positive-quantity market order in the symbol, and none below confidence 0.5 |
| RiskManager.ShortOnlyClosesLongs | src/app/nodes/risk_manager.py:90-129 | with shorting disabled a SHORT only sells held longs, capped by the position limit, whatever the daily P&L |
| RiskManager.DailyLossHalts | src/app/nodes/risk_manager.py:131-139 | a daily loss beyond the limit blocks every entry |
| RiskManager.NoPyramiding | src/app/nodes/risk_manager.py:141-182 | a same-side position blocks the entry; otherwise an admitted entry is BUY for LONG and SELL for SHORT of the computed size |
| RiskManager.HedgeScenarioClosesSpot | src/tests/test_hedge_agent.py:51-78 | with no `signal` key the hedge scenario's only approved order is the SELL closing the spot long |
| ExecutionAgent.ErrorResult | src/app/nodes/execution_agent.py:49-57 | a raised submission is recorded as a failed ERROR result carrying the message, with no order id and nothing filled |
| ExecutionAgent.ExecuteAll | src/app/nodes/execution_agent.py:26-64 | exactly one result per approved order, none for an empty batch, given one provider answer per submitted order |
| ExecutionAgent.ExecuteAllAt | src/app/nodes/execution_agent.py:36-57 | result `i` is what was recorded for the provider's answer to order `i` |
| ExecutionAgent.ExecuteOrders | src/app/nodes/execution_agent.py:26-64 | the loop records exactly the batch's specified results |
| ExecutionAgent.FailuresAreIsolated | src/app/nodes/execution_agent.py:36-57 | a returned result is kept as is, successful or not, a raised call becomes a failed ERROR result, and result `i` is the same whatever the provider answered for the other orders |
| ExecutionAgent.ExecuteAllConcat | src/app/nodes/execution_agent.py:36-57 | given the same answers, executing two batches in sequence records the same results as executing them as one |
| FeatureEngineering.Last | src/app/nodes/feature_engineering.py:26-37 | a deque with a maximum length keeps at most that many values, the most recent ones |
| FeatureEngineering.LastAppend | src/app/nodes/feature_engineering.py:57-58 | appending to a bounded deque keeps the same values as appending to an unbounded list and then keeping the newest |
| FeatureEngineering.PushedKeepsLast | src/app/nodes/feature_engineering.py:192-196 | appending values one by one to a bounded deque leaves the newest of all values appended |
| FeatureEngineering.Alpha | src/app/nodes/feature_engineering.py:47 | the smoothing factor 2 / (period + 1) lies in (0, 1] |
| FeatureEngineering.Ema | src/app/nodes/feature_engineering.py:42-53 | the EMA as a value; no contract of its own, FeatureEngineering.ComputeEma is proved to compute it and FeatureEngineering.EmaBetweenMinAndMax bounds it |
| FeatureEngineering.ComputeEma | src/app/nodes/feature_engineering.py:42-53 | the EMA is absent with fewer than `period` prices; otherwise it is seeded with the first price and each later price is folded in |
| FeatureEngineering.EmaFoldWithin | src/app/nodes/feature_engineering.py:48-51 | the EMA stays within any bounds that hold for all the prices |
| FeatureEngineering.EmaBetweenMinAndMax | src/app/nodes/feature_engineering.py:42-53 | an EMA that exists lies between the smallest and the largest price |
| FeatureEngineering.EmaOfConstant | src/app/nodes/feature_engineering.py:48-51 | a constant price series has that constant as its EMA |
| FeatureEngineering.TrueRange | src/app/nodes/feature_engineering.py:78-81 | the true range is non-negative and at least high minus low |
| FeatureEngineering.Atr | src/app/nodes/feature_engineering.py:66-83 | the ATR as a value; no contract of its own, FeatureEngineering.ComputeAtr is proved to compute it and FeatureEngineering.AtrNonNegative bounds it |
| FeatureEngineering.ComputeAtr | src/app/nodes/feature_engineering.py:66-83 | the ATR is absent until the high deque holds a full period and when there is no true range; otherwise it is the mean true range |
| FeatureEngineering.AtrNonNegative | src/app/nodes/feature_engineering.py:66-83 | the ATR is never negative |
| FeatureEngineering.AtrPairsCloseTwoBarsBack | src/app/nodes/feature_engineering.py:77-81 | with the close deque one longer than the high deque, each high is paired with the close from two bars earlier, not the previous bar |
| FeatureEngineering.GainOf | src/app/nodes/feature_engineering.py:122-125 | a gain is never negative; a zero change counts as a gain |
| FeatureEngineering.LossOf | src/app/nodes/feature_engineering.py:122-128 | a loss is never negative and is zero iff the price did not fall |
| FeatureEngineering.PriceChanges | src/app/nodes/feature_engineering.py:118-128 | the loop builds one gain and one loss entry per consecutive price change |
| FeatureEngineering.RsiOf | src/app/nodes/feature_engineering.py:134-139 | the RSI lies in [0, 100] and is 100 iff the average loss is zero |
| FeatureEngineering.Rsi | src/app/nodes/feature_engineering.py:113-139 | the RSI as a value; no contract of its own, FeatureEngineering.ComputeRsi is proved to compute it and FeatureEngineering.RsiRange bounds it |
| FeatureEngineering.ComputeRsi | src/app/nodes/feature_engineering.py:113-139 | the RSI is absent with fewer than period + 1 prices; otherwise it comes from the simple averages of the last `period` gains and losses |
| FeatureEngineering.AverageLossZeroIffNoDrop | src/app/nodes/feature_engineering.py:130-135 | the average loss is zero iff no price fell over the last `period` changes |
| FeatureEngineering.RsiRange | src/app/nodes/feature_engineering.py:113-139 | an RSI that exists lies in [0, 100], and is exactly 100 iff no price fell over the last `period` changes |
| FeatureEngineering.PopulationVariance | src/app/nodes/feature_engineering.py:150 | the population variance under the standard deviation is never negative |
| FeatureEngineering.Bollinger | src/app/nodes/feature_engineering.py:141-155 | the bands as a value; no contract of its own, FeatureEngineering.BollingerOrdered states their order and symmetry |
| FeatureEngineering.BollingerOrdered | src/app/nodes/feature_engineering.py:141-155 | with enough prices the bands exist, the middle band is the mean of the last `period` prices, upper >= mid >= lower, and the bands are symmetric |
| FeatureEngineering.Vwap | src/app/nodes/feature_engineering.py:101-111 | the VWAP as a value; no contract of its own, FeatureEngineering.VwapWithinPrices bounds it by the trade prices |
| FeatureEngineering.VwapWithinPrices | src/app/nodes/feature_engineering.py:101-111 | with non-negative quantities a VWAP that exists lies within the range of the trade prices |
| FeatureEngineering.CurrentPrice | src/app/nodes/feature_engineering.py:178-185 | the last kline close, else a non-zero order-book mid, else the last trade price, else zero |
| FeatureEngineering.SeededEma | src/app/nodes/feature_engineering.py:198-222 | once the update deque holds a full period an EMA exists; with neither enough closes nor a full deque the previous EMA stays |
| FeatureEngineering.FeaturesOf | src/app/nodes/feature_engineering.py:257-272 | the feature record carries symbol and price; the middle band is present iff the bands are, and imbalance iff there is an order book; ema_200, adx and ofi_sma stay absent |
| FeatureEngineering.FeatureEngine.constructor | src/app/nodes/feature_engineering.py:25-40 | all deques start empty within their bounds and both EMAs start absent |
| FeatureEngineering.FeatureEngine.UpdateEma | src/app/nodes/feature_engineering.py:55-64 | the price is pushed onto both EMA deques; each EMA is recomputed from its deque once that deque holds a full period, and otherwise kept |
| FeatureEngineering.FeatureEngine.AppendBars | src/app/nodes/feature_engineering.py:192-196 | every deque ends up holding the newest of its old values plus the klines' highs, lows or closes, within its bound |
| FeatureEngineering.FeatureEngine.RefreshEmas | src/app/nodes/feature_engineering.py:198-222 | the EMAs are seeded from the last kline closes, then updated from the current price |
| FeatureEngineering.FeatureEngine.Indicators | src/app/nodes/feature_engineering.py:224-272 | ATR, RSI, Bollinger bands and VWAP over the last 100 trades are read from the deques as they stand and put into the feature record |
| FeatureEngineering.FeatureEngine.ComputeFeatures | src/app/nodes/feature_engineering.py:162-277 | with no usable price nothing changes and no features are produced; otherwise deques, EMAs and the feature record are as specified |
| Backtester.UnrealizedAppend | src/app/utils/backtester.py:129-133 | one more held position adds its own profit at the price to the unrealised total |
| Backtester.RealizedAppend | src/app/utils/backtester.py:112-120 | one more log record adds its pnl to the realised total exactly when it is a CLOSE record |
| Backtester.RemoveFirst | src/app/utils/backtester.py:122 | removing a held position drops exactly one occurrence of it and keeps every other element; it drops the head when the head matches |
| Backtester.Process | src/app/utils/backtester.py:20-59 | one signal: close then open; no contract of its own, Backtester.ProcessHolding, Backtester.ProcessPreservesEquity and Backtester.Backtester.ProcessSignal are proved about it |
| Backtester.ProcessHolding | src/app/utils/backtester.py:37-55 | after a NEUTRAL signal nothing is held; after a directional one exactly one position is held, on the signal's side |
| Backtester.SameDirectionKeeps | src/app/utils/backtester.py:41-55 | a signal in the held position's direction changes nothing: same entry, no trade logged |
| Backtester.OppositeFlips | src/app/utils/backtester.py:44-55 | an opposite signal closes and reopens in one call: the pnl is credited, CLOSE then OPEN are logged, and the new entry is at the same price |
| Backtester.Pnl | src/app/utils/backtester.py:107-110 | the profit of a position at a price; no contract of its own, Backtester.OpenedHasNoPnl and Backtester.ProcessKeepsRealized are stated with it |
| Backtester.OpenedHasNoPnl | src/app/utils/backtester.py:77-87 | a position just opened at a price shows no profit at that price |
| Backtester.ProcessPreservesEquity | src/app/utils/backtester.py:37-59 | processing a signal leaves the equity at the current price unchanged |
| Backtester.ProcessKeepsRealized | src/app/utils/backtester.py:112-120 | the balance moves only by the pnl the trade log records |
| Backtester.WinCount | src/app/utils/backtester.py:152-153 | there are never more winning closes than closes |
| Backtester.WinRate | src/app/utils/backtester.py:151-154 | the win rate lies in [0, 100]; it is 0 with no closes and 100 when every close won |
| Backtester.MaxDrawdown | src/app/utils/backtester.py:172-188 | a drawdown that is returned is non-negative and comes with a non-zero peak; a zero running peak raises |
| Backtester.RisingCurveHasNoDrawdown | src/app/utils/backtester.py:172-188 | a non-decreasing curve starting above zero has zero drawdown |
| Backtester.DrawdownAtMostHundred | src/app/utils/backtester.py:172-188 | with a positive start and no negative point the drawdown is at most 100% |
| Backtester.ZeroStartRaises | src/app/utils/backtester.py:178-184 | a curve starting at zero divides by zero and raises |
| Backtester.MaxDrawdownRaisedSticks | src/app/utils/backtester.py:181-186 | once a prefix of the curve raises, the whole computation raises the same way |
| Backtester.DrawdownStep | src/app/utils/backtester.py:181-186 | one more point takes the larger of the drawdown so far and its fall from the running peak |
| Backtester.DrawdownRaises | src/app/utils/backtester.py:181-184 | a zero running peak at any point makes the whole computation raise |
| Backtester.Results | src/app/utils/backtester.py:137-170 | an empty curve gives the zero report; a zero initial balance raises; otherwise the report carries the last equity, a positive return on a gain, the close count, a win rate in [0, 100] and a non-negative drawdown |
| Backtester.Backtester.constructor | src/app/utils/backtester.py:13-18 | the balance starts at the initial balance with no positions, trades or equity points |
| Backtester.Backtester.OpenPosition | src/app/utils/backtester.py:70-98 | one position on the signal's side at the fixed 0.01 quantity is added, and one OPEN record is logged |
| Backtester.Backtester.ClosePosition | src/app/utils/backtester.py:100-123 | returns the position's pnl, logs one CLOSE record with it and removes the position |
| Backtester.Backtester.CalculateEquity | src/app/utils/backtester.py:125-135 | the equity is the balance plus the unrealised profit of the held positions |
| Backtester.Backtester.ProcessSignal | src/app/utils/backtester.py:20-68 | the book moves as specified by the close and open steps; at most one position stays held and the balance stays the initial balance plus realised pnl; one equity point is recorded; the result is a FILLED 0.01 fill at the price |
| Backtester.Backtester.CalculateMaxDrawdown | src/app/utils/backtester.py:172-188 | the running-peak loop computes exactly the specified drawdown, raising on a zero peak |
| Backtester.Backtester.GetResults | src/app/utils/backtester.py:137-170 | the summary agrees with the specified results |
| Metrics.MaxDrawdown | src/app/utils/metrics.py:69-92 | the maximum drawdown is never negative |
| Metrics.CalculateMaxDrawdown | src/app/utils/metrics.py:79-92 | the running-peak loop computes exactly the specified drawdown |
| Metrics.RisingCurveHasNoDrawdown | src/app/utils/metrics.py:82-92 | a non-decreasing curve has zero drawdown |
| Metrics.DrawdownAtMostHundred | src/app/utils/metrics.py:82-92 | with no negative equity the drawdown is at most 100% |
| Metrics.NonPositivePeaksContributeNothing | src/app/utils/metrics.py:88 | a curve that never rises above zero has zero drawdown, since a non-positive peak counts as no fall |
| Metrics.Wins | src/app/utils/metrics.py:131 | no more wins than trades |
| Metrics.Losses | src/app/utils/metrics.py:171 | no more losses than trades |
| Metrics.AllWins | src/app/utils/metrics.py:131 | every trade is a win iff every pnl is positive |
| Metrics.WinRate | src/app/utils/metrics.py:118-132 | the win rate lies in [0, 100], is 0 with no trades, and is 100 iff there are trades and every one won |
| Metrics.GrossProfit | src/app/utils/metrics.py:148 | the gross profit is non-negative and positive iff some trade won |
| Metrics.NegativeSum | src/app/utils/metrics.py:149 | the sum of the negative pnls is non-positive and negative iff some trade lost |
| Metrics.LossMagnitudesAreNegatedSum | src/app/utils/metrics.py:171 | the sum of the loss magnitudes is the magnitude of the losses' sum |
| Metrics.ProfitMinusLoss | src/app/utils/metrics.py:148-149 | gross profit minus gross loss is the net pnl |
| Metrics.ProfitFactor | src/app/utils/metrics.py:135-154 | zero with no trades; infinite iff there was a win and no loss; otherwise non-negative, and with losses it times the gross loss gives the gross profit |
| Metrics.AverageWinLoss | src/app/utils/metrics.py:157-182 | zero without both wins and losses; always finite and non-negative; positive when there are both |
| Metrics.PeriodReturns | src/app/utils/metrics.py:209-213 | the returns exist iff no point before the last is zero; then there is one per consecutive pair, its relative change |
| Metrics.PeriodReturnsRaisedSticks | src/app/utils/metrics.py:211-213 | once a prefix of the curve makes the returns raise, the whole curve raises the same way |
| Metrics.CalculatePeriodReturns | src/app/utils/metrics.py:210-213 | the returns loop computes exactly the specified returns, raising on a zero previous point |
| Metrics.PerformanceReport | src/app/utils/metrics.py:185-228 | empty for an empty curve; raises on a zero initial balance; otherwise carries the trade count, the last equity, one return per step, a non-negative drawdown and a win rate in [0, 100] |
| Metrics.GeneratePerformanceReport | src/app/utils/metrics.py:185-228 | the report agrees with the specified report |
| LobSimulator.SizeBeforeTime | src/app/utils/lob_simulator.py:36-38 | at one price a smaller order sorts ahead of a larger one whatever their stamps, so the heap is not time-priority at equal prices |
| LobSimulator.Insert | src/app/utils/lob_simulator.py:36-38 | a push adds exactly the new entry and keeps every other one |
| LobSimulator.InsertSorted | src/app/utils/lob_simulator.py:36-38 | a push keeps the side in heap order |
| LobSimulator.TotalInsert | src/app/utils/lob_simulator.py:36-38 | a push adds its quantity to the side's total |
| LobSimulator.AfterTake | src/app/utils/lob_simulator.py:62-87 | one pass removes exactly the quantity it takes from the side's total, and the side shrinks unless a remainder is pushed back |
| LobSimulator.AfterTakeContents | src/app/utils/lob_simulator.py:62-72 | one pass keeps every other entry and adds at most the head's remainder |
| LobSimulator.Match | src/app/utils/lob_simulator.py:55-87 | the fill of a market order as a value; no contract of its own, LobSimulator.MatchConserves, LobSimulator.MatchBounds and LobSimulator.MatchBestFirst are proved about it and LobSimulator.MatchLoop computes it |
| LobSimulator.MatchConserves | src/app/utils/lob_simulator.py:61-87 | the quantity that leaves the side is exactly the quantity filled |
| LobSimulator.MatchBounds | src/app/utils/lob_simulator.py:55-87 | a non-positive quantity fills nothing and leaves the side as it is; otherwise the fill never exceeds the quantity and falls short only when the side is empty; the counter never goes back |
| LobSimulator.AfterTakeSorted | src/app/utils/lob_simulator.py:62-72 | one pass keeps heap order and no resting key drops below the popped head's |
| LobSimulator.MatchKeysAbove | src/app/utils/lob_simulator.py:61-87 | a lower bound on the resting keys survives matching |
| LobSimulator.MatchSorted | src/app/utils/lob_simulator.py:61-87 | matching keeps the side in heap order |
| LobSimulator.TakenBeforeStep | src/app/utils/lob_simulator.py:61-72 | taking the head first and then the rest best-first is best-first for the whole side |
| LobSimulator.MatchBestFirst | src/app/utils/lob_simulator.py:61-87 | every entry consumed or cut down is priced no worse than every entry still resting |
| LobSimulator.MatchKeepsPositive | src/app/utils/lob_simulator.py:61-87 | with positive resting quantities the fill is non-negative and every entry left behind keeps a positive quantity |
| LobSimulator.MatchStep | src/app/utils/lob_simulator.py:61-72 | matching is one pass followed by matching the remainder against what the pass left |
| LobSimulator.TakeBest | src/app/utils/lob_simulator.py:62-72 | one pass of the loop leaves the overall fill unchanged once its cost and quantity are counted, and makes progress |
| LobSimulator.MatchLoop | src/app/utils/lob_simulator.py:55-87 | the loop computes exactly the specified fill |
| LobSimulator.MatchCostBound | src/app/utils/lob_simulator.py:61-87 | with every resting price no better than a bound, a buy pays at least the bound per unit and a sell receives at most it |
| LobSimulator.AverageBound | src/app/utils/lob_simulator.py:89 | a bound on a fill's total cost bounds its average price |
| LobSimulator.HeadIsLeast | src/app/utils/lob_simulator.py:92-104 | the head of a side in heap order holds its best price |
| LobSimulator.AverageNoBetterThanBest | src/app/utils/lob_simulator.py:55-90 | a buy averages at or above the best ask and a sell at or below the best bid |
| LobSimulator.LeastKey | src/app/utils/lob_simulator.py:145-154 | the least of the resting keys is one of them and no key is smaller |
| LobSimulator.SmallestKeys | src/app/utils/lob_simulator.py:145-154 | at most `depth` distinct keys of the side, strictly increasing |
| LobSimulator.SmallestKeysAreSmallest | src/app/utils/lob_simulator.py:145-154 | every key left out of the snapshot is worse than every key shown |
| LobSimulator.KeyLevels | src/app/utils/lob_simulator.py:148-155 | exactly min(depth, distinct keys) levels, each a resting key with its total quantity, strictly ascending |
| LobSimulator.KeyLevelsShowBest | src/app/utils/lob_simulator.py:148-155 | every key left out of the levels is larger than every key shown |
| LobSimulator.BidLevels | src/app/utils/lob_simulator.py:138-146 | exactly min(depth, distinct prices) levels, each a resting bid price with its total quantity, strictly descending |
| LobSimulator.BidLevelsShowBest | src/app/utils/lob_simulator.py:138-146 | every bid price left out of the bid levels is lower than every one shown |
| LobSimulator.Simulator.constructor | src/app/utils/lob_simulator.py:17-23 | both sides start empty and the order counter at zero |
| LobSimulator.Simulator.AddLimitOrder | src/app/utils/lob_simulator.py:25-38 | a BUY rests on the bids at minus the price and a SELL on the asks, stamped with the counter, which advances by one; the other side is unchanged and heap order is kept |
| LobSimulator.Simulator.ExecuteMarketOrder | src/app/utils/lob_simulator.py:40-90 | a BUY matches the asks and a SELL the bids as specified, the other side unchanged; returns the average price and the filled quantity |
| LobSimulator.Simulator.BestBid | src/app/utils/lob_simulator.py:92-97 | absent iff there are no bids; otherwise the price of a resting bid, no bid is priced higher, and the quantity is that of a resting bid at that price with no smaller one there |
| LobSimulator.Simulator.BestAsk | src/app/utils/lob_simulator.py:99-104 | absent iff there are no asks; otherwise the price of a resting ask, no ask is priced lower, and the quantity is that of a resting ask at that price with no smaller one there |
| LobSimulator.Simulator.MidPrice | src/app/utils/lob_simulator.py:106-113 | present iff both sides are, and then equidistant from the best bid and the best ask |
| LobSimulator.Simulator.Spread | src/app/utils/lob_simulator.py:115-122 | present iff both sides are, and then the best bid plus the spread is the best ask |
| LobSimulator.Simulator.Snapshot | src/app/utils/lob_simulator.py:124-162 | exactly min(depth, number of distinct resting prices) levels per side, each a resting price, bids strictly descending and asks strictly ascending, each carrying the total resting quantity at its price |
| LobSimulator.Simulator.SnapshotShowsBest | src/app/utils/lob_simulator.py:139-155 | every resting bid price left out of the snapshot is lower than every bid shown, and every resting ask price left out is higher than every ask shown |
| LobSimulator.Simulator.Clear | src/app/utils/lob_simulator.py:164-168 | both sides emptied and the counter reset to zero |
| OrderbookReplay.Loaded | scripts/reconstruct_orderbook.py:32-38 | a snapshot side holds exactly the listed prices |
| OrderbookReplay.ApplyLevelsFrame | scripts/reconstruct_orderbook.py:62-80 | an update leaves every price it does not name exactly as it was, and leaves no named price at zero quantity |
| OrderbookReplay.ApplyLevelsLastWins | scripts/reconstruct_orderbook.py:62-80 | the last mention of a price decides it: a zero quantity removes it, any other quantity sets it |
| OrderbookReplay.ExtremesExist | scripts/reconstruct_orderbook.py:87-88 | a non-empty side has a highest and a lowest price |
| OrderbookReplay.ExtremesUnique | scripts/reconstruct_orderbook.py:87-88 | the highest and the lowest price are unique |
| OrderbookReplay.QuoteMid | scripts/reconstruct_orderbook.py:91-95 | zero when either best price is zero, otherwise equidistant from both |
| OrderbookReplay.OrderBook.constructor | scripts/reconstruct_orderbook.py:16-20 | both sides start empty and the last update id at zero |
| OrderbookReplay.OrderBook.ApplySnapshot | scripts/reconstruct_orderbook.py:22-38 | both sides are replaced by the snapshot's levels and the id becomes the snapshot's |
| OrderbookReplay.OrderBook.Update | scripts/reconstruct_orderbook.py:42-80 | an update no newer than the last id changes nothing; a newer one sets the id and applies its levels to both sides; the id never goes back |
| OrderbookReplay.OrderBook.BestBidAsk | scripts/reconstruct_orderbook.py:82-89 | all zeros when either side is empty, otherwise the highest bid, the lowest ask and their quantities |
| OrderbookReplay.OrderBook.MidPrice | scripts/reconstruct_orderbook.py:91-95 | zero when either side is empty, otherwise the midpoint of the highest bid and the lowest ask |
| OrderbookReplay.OfiCalculator.constructor | scripts/reconstruct_orderbook.py:101-105 | the remembered quote starts at all zeros |
| OrderbookReplay.OfiCalculator.Calculate | scripts/reconstruct_orderbook.py:107-145 | zero on the first tick, otherwise the bid term minus the ask term against the remembered quote, which is then replaced by the given one |
| OrderbookReplay.UnchangedQuoteHasNoFlow | scripts/reconstruct_orderbook.py:125-137 | with unchanged prices the OFI is the bid-quantity change minus the ask-quantity change, and zero for an identical quote |
| OrderbookReplay.OfiDirection | scripts/reconstruct_orderbook.py:120-137 | a rising bid and ask push the OFI up by the quantities involved, and a falling bid and ask push it down |
| OrderbookReplay.EmptyBookResets | scripts/reconstruct_orderbook.py:112-118 | a zero previous best bid counts as the first tick and reports zero, so an empty book's all-zero quote resets the calculator |
| DataSanitizer.Sanitized | src/app/nodes/data_sanitizer.py:13-36 | the kept klines are never more than the input |
| DataSanitizer.Sane | src/app/nodes/data_sanitizer.py:20-36 | the keep rule; no contract of its own, DataSanitizer.SanitizedContents states what is kept in its terms |
| DataSanitizer.SanitizedContents | src/app/nodes/data_sanitizer.py:16-36 | a kline is kept iff it is in the input with positive prices, high at least low and non-negative volume |
| DataSanitizer.SanitizedIsSubsequence | src/app/nodes/data_sanitizer.py:16-36 | the kept klines are an order-preserving subsequence of the input |
| DataSanitizer.KeptPlusDropped | src/app/nodes/data_sanitizer.py:14-38 | every input kline is either kept or counted as dropped |
| DataSanitizer.SaneListUnchanged | src/app/nodes/data_sanitizer.py:16-36 | a list of sane klines passes through unchanged |
| DataSanitizer.SanitizeIdempotent | src/app/nodes/data_sanitizer.py:16-36 | sanitising twice is the same as sanitising once |
| DataSanitizer.SanitizeKlines | src/app/nodes/data_sanitizer.py:13-38 | the loop returns the kept klines and the number dropped, which together account for the input |
| DataSanitizer.SanitizeDataNode | src/app/nodes/data_sanitizer.py:7-44 | a missing or empty kline list leaves the state as it is; otherwise only the klines entry changes, to the kept klines |
| LlmTool.PrefixesShaped | src/app/tools/llm_tool.py:67-69 | both prefixes are capital letters followed by a single colon |
| LlmTool.FirstColonAfterPrefix | src/app/tools/llm_tool.py:67-71 | a line matching a prefix has its first colon where the prefix ends, so the split takes the text after the prefix |
| LlmTool.LookupRegime | src/app/tools/llm_tool.py:75-83 | the regime whose name is the upper-cased text, and UNKNOWN exactly when no regime has that name |
| LlmTool.LookupName | src/app/tools/llm_tool.py:75-83 | looking up a regime's own name gives that regime back |
| LlmTool.NameFound | src/app/tools/llm_tool.py:75-83 | an upper-case table key is found as itself |
| LlmTool.LookupIgnoresCase | src/app/tools/llm_tool.py:83 | any text that upper-cases to a regime's name, in whatever letter case, is that regime |
| LlmTool.Clamp | src/app/tools/llm_tool.py:87 | the confidence is clamped into [0, 1] and a value already inside is kept |
| LlmTool.Classified | src/app/tools/llm_tool.py:61-89 | the parsed regime is always well formed: confidence in [0, 1] |
| LlmTool.ScanLine | src/app/tools/llm_tool.py:66-73 | one pass of the loop: a REGIME line sets the regime text, else a CONFIDENCE line sets the confidence (0.5 when it does not parse), else nothing changes |
| LlmTool.ReadLines | src/app/tools/llm_tool.py:65-73 | the reading of a reply as a value; no contract of its own, LlmTool.ScanLines computes it and LlmTool.LastRegimeLineWins states which line decides the regime |
| LlmTool.ScanLines | src/app/tools/llm_tool.py:61-73 | the loop computes the specified reading from the defaults |
| LlmTool.ParseRegimeResponse | src/app/tools/llm_tool.py:61-89 | the parse agrees with the specified classification |
| LlmTool.RegimeValue | src/app/tools/llm_tool.py:67-68 | a REGIME line's value is the trimmed text after its first seven characters |
| LlmTool.ConfidenceValue | src/app/tools/llm_tool.py:69-71 | a CONFIDENCE line's value is the trimmed text after its first eleven characters |
| LlmTool.PrefixesExclusive | src/app/tools/llm_tool.py:67-69 | no line matches both prefixes |
| LlmTool.RegimeDefault | src/app/tools/llm_tool.py:61-68 | with no REGIME line the regime text stays UNKNOWN |
| LlmTool.ConfidenceDefault | src/app/tools/llm_tool.py:62-73 | with no CONFIDENCE line the confidence stays 0.5 |
| LlmTool.LastRegimeLineWins | src/app/tools/llm_tool.py:66-68 | the last REGIME line decides the regime text |
| LlmTool.LastConfidenceLineWins | src/app/tools/llm_tool.py:66-73 | the last CONFIDENCE line decides the confidence: its parsed value, or 0.5 when it does not parse |
| AlpacaTool.IsCrypto | src/app/tools/alpaca_tool.py:30 | the crypto flag of the tool is fixed from the configured symbol ending in "USD" or "USDT"; no contract of its own, its consequences are stated by AlpacaTool.CryptoFlagFromConfiguration and AlpacaTool.ConvertSymbol |
| AlpacaTool.ConvertSymbol | src/app/tools/alpaca_tool.py:61-81 | a symbol changes exactly when the tool is crypto, the symbol has no "/" and it ends in "USDT" or "USD"; a converted symbol is its base plus "/USD", the base being what precedes "USDT", or "USD" when it does not end in "USDT" |
| AlpacaTool.ConvertIdempotent | src/app/tools/alpaca_tool.py:69-81 | converting an already converted symbol changes nothing |
| AlpacaTool.ConvertExamples | src/app/tools/alpaca_tool.py:64-80 | the docstring's three examples (BTCUSDT to BTC/USD, BTC/USD kept, AAPL kept), plus ETHUSD to ETH/USD from the "USD" branch |
| AlpacaTool.CryptoFlagFromConfiguration | src/app/tools/alpaca_tool.py:30 | the crypto flag comes from the configured symbol, so a tool configured for a stock leaves BTCUSDT unconverted |
| KotakNeoTool.ExchangeSegment | src/app/tools/kotak_neo_tool.py:85-87 | "nse_cm" when the symbol has no "\|"; otherwise the text before the first "\|" |
| KotakNeoTool.TradingSymbol | src/app/tools/kotak_neo_tool.py:94-96 | never contains "\|"; the whole symbol without a "\|", otherwise the text between the first "\|" and the next one or the end |
| KotakNeoTool.SegmentAndSymbolReconstruct | src/app/tools/kotak_neo_tool.py:85-96 | with exactly one "\|", segment, "\|" and trading symbol give back the symbol |
| KotakNeoTool.SecondBarIsLost | src/app/tools/kotak_neo_tool.py:85-96 | with a second "\|", the segment and trading symbol are the first two parts and everything after the second "\|" is dropped |
| KotakNeoTool.OrderRequest | src/app/tools/kotak_neo_tool.py:149-166 | BUY maps to "B" and only BUY; MARKET to "MKT" and every other type to "L"; the price is "0" when unset or zero; product "MIS", validity "DAY", segment and symbol split from the order's symbol |
| KotakNeoTool.StopOrdersSentAsLimit | src/app/tools/kotak_neo_tool.py:154-160 | stop-loss and take-profit orders go out as limit orders and their stop price never reaches the broker |
| KotakNeoTool.ExecuteOrder | src/app/tools/kotak_neo_tool.py:143-186 | raises exactly when the client is not set up; success exactly when the placement returns, then OPEN, unfilled and carrying the broker's order number ("" when the response has none); a raised placement gives ERROR with no id and the exception's message |
| Persistence.SafeKey | src/app/utils/persistence.py:19 | same length; each separator becomes "_" and every other character is kept; the result has no separator |
| Persistence.GetPath | src/app/utils/persistence.py:17-20 | the file lies in the data directory and its name is the safe key followed by ".json" |
| Persistence.PlainKeyUnchanged | src/app/utils/persistence.py:17-20 | a key without separators is its own file name, plus ".json" |
| Persistence.SafeKeyIdempotent | src/app/utils/persistence.py:19 | sanitising twice is sanitising once |
| Persistence.SameFileIff | src/app/utils/persistence.py:17-20 | two keys share a file exactly when they have equal length and agree everywhere except where both hold a separator or "_" |
| Persistence.KeysCollide | src/app/utils/persistence.py:17-20 | distinct keys "a/b", "a\\b" and "a_b" are stored in the same file |
| Control.TitleFor | src/app/control.py:45-53 | the title table by level; no contract of its own, Control.TitleNeverDemotes proves it monotone and Control.GameState.UpdateTitle is proved against it |
| Control.TitleNeverDemotes | src/app/control.py:45-53 | a higher level never carries a lower-ranked title |
| Control.GrownThreshold | src/app/control.py:40 | the result is 1.5 times the threshold truncated toward zero: at most 1.5t and within one of it for t >= 0, at least 1.5t and within one of it for t < 0 |
| Control.Threshold | src/app/control.py:27-40 | the threshold at every level is at least 100 |
| Control.ThresholdValues | src/app/control.py:27-40 | the thresholds of levels 2 to 5 are 150, 225, 337 and 505 |
| Control.ThresholdGrows | src/app/control.py:27-40 | every level asks for strictly more experience than the one before |
| Control.Promoted | src/app/control.py:37-41 | one level more, the old threshold paid out of the experience, and level, threshold and title stay consistent |
| Control.Gained | src/app/control.py:32-35 | a level is gained exactly when the new experience reaches the threshold, then with the threshold deducted; consistency is kept |
| Control.InitialConsistent | src/app/control.py:24-30 | the starting state (level 1, threshold 100, novice) is consistent |
| Control.OneLevelPerCall | src/app/control.py:32-35 | a single call levels up at most once, even when the remaining experience already passes the new threshold |
| Control.FifthLevelTitle | src/app/control.py:32-53 | reaching level 5 makes a consistent novice an apprentice chartist |
| Control.GameState.constructor | src/app/control.py:24-30 | the fresh state is level 1, no experience, threshold 100, novice, with zero profits and sessions |
| Control.GameState.AddXp | src/app/control.py:32-35 | the new state is the value-level gain of the old one; consistency is kept; the counters are untouched |
| Control.GameState.LevelUp | src/app/control.py:37-41 | the new state is the promotion of the old one; the counters are untouched |
| Control.GameState.UpdateTitle | src/app/control.py:45-53 | only the title changes, to the one the level calls for |
| QuickVectorizedTest.EquityCurve | scripts/quick_vectorized_test.py:190-198 | one equity value per bar |
| QuickVectorizedTest.EquityCurveAt | scripts/quick_vectorized_test.py:190-198 | entry i is the balance plus the open profit after bar i, at bar i's close |
| QuickVectorizedTest.BarStep | scripts/quick_vectorized_test.py:119-188 | the script's branches for one bar agree with the value-level step |
| QuickVectorizedTest.RunVectorizedBacktest | scripts/quick_vectorized_test.py:115-198 | the recorded equity is the equity curve of the bars and the final state is the fold of the step, with the position long, flat or short |
| QuickVectorizedTest.StepKeepsRange | scripts/quick_vectorized_test.py:119-188 | a bar keeps the position among 1, 0 and -1 |
| QuickVectorizedTest.FinalPositionInRange | scripts/quick_vectorized_test.py:115-188 | after any number of bars the position is 1, 0 or -1 |
| QuickVectorizedTest.TrailingStopMonotone | scripts/quick_vectorized_test.py:143-159 | while a long is held its stop never falls, and while a short is held its stop never rises |
| QuickVectorizedTest.LongStopOut | scripts/quick_vectorized_test.py:137-142 | a long whose stop is crossed by the low exits at the stop price whatever the signals, and stays flat on that bar |
| QuickVectorizedTest.ShortStopOut | scripts/quick_vectorized_test.py:150-155 | a short whose stop is crossed by the high exits at the stop price and stays flat on that bar |
| QuickVectorizedTest.LongFlips | scripts/quick_vectorized_test.py:162-169 | a surviving long with a short signal is closed at the close and reversed, its stop 3 ATR above |
| QuickVectorizedTest.ShortFlips | scripts/quick_vectorized_test.py:170-176 | a surviving short with a long signal is closed at the close and reversed, its stop 3 ATR below |
| QuickVectorizedTest.HoldKeepsEntry | scripts/quick_vectorized_test.py:131-176 | a held position that neither stops nor flips keeps its entry price and balance |
| QuickVectorizedTest.FlatEntry | scripts/quick_vectorized_test.py:178-188 | from flat the long signal wins, then the short one, else nothing; the stop is 3 ATR from the close, the ATR being 1% of the close where NaN |

## Left out

- Floating point: prices are exact reals, so rounding, NaN and infinities are not modelled. Where the source yields infinity, `Metrics.Ratio` has an `Infinity` case.
- Python's `str.upper()` is modelled for ASCII letters only.
- `sqrt` and `np.std` are not modelled. Bollinger bands take `sqrt` as a parameter. `compute_realized_volatility` is not modelled: its value, `None` included, is the free `Option<real>` parameter of `FeatureEngineering.FeatureEngine.Indicators` and `FeatureEngineering.FeatureEngine.ComputeFeatures`, from which the regime classifier reads it.
- Sharpe, Sortino and Calmar ratios are left out: they need `sqrt`, `pow` and annualisation. The backtester's Sharpe ratio is passed to `GetResults` as a given outcome.
- ADF, GARCH and Hurst statistics, and the torch forecasting model, are left out. They are external numeric libraries.
- Timestamps, `datetime.now()`, reasoning and metadata text, logging and printing are left out. The backtester's order id is built from a given rendering of the timestamp.
- Exchange and broker network clients, the mock provider and the provider factory are left out. Only the calls the core makes are modelled, as parameters:
  - `answers` in the execution agent: the provider's answer to each submitted order, given in advance. A provider with state can answer each call differently, so the answers are not computed from the orders;
  - `fetched` (the portfolio) in the risk manager;
  - `place` in the Kotak tool;
  - `llm` in the regime classifier.
- The language-model call and its prompt are left out, as is the `isinstance` check on the reply content. The reply text is an input of `LlmTool.ParseRegimeResponse`. `float()` of the confidence text is a parameter that may raise.
- The control panel's menus, prompts, `time.sleep` and trading loop are left out. `Control.GameState` keeps `totalProfits` and `sessionsRun`, which no modelled method changes.
- The state store's file reading and writing, directory creation and `pathlib` normalisation of the joined path are left out. `Persistence.GetPath` returns the directory and file name as a pair.
- Control.GrownThreshold: `int(t * 1.5)` is modelled exactly as `3t/2` truncated toward zero. Float rounding of very large thresholds is not modelled.
- LobSimulator.Simulator.Snapshot: `depth` is a `nat`. The source takes any `int`, and a negative one would make `[:depth]` drop levels from the end; nothing passes one and it is documented as a count of levels.
- LobSimulator: each heap side is modelled as a list kept sorted by the heap's tuple order. The head of the list is what `heappop`/`heap[0]` returns. The heap's array layout is not modelled.
- The replay script's `run_replay` is left out: its file reading, minute bucketing and CSV output. Prices and quantities reach `OrderbookReplay` already converted from text.
- The quick vectorized test is modelled only from its per-bar loop onwards:
  - Its pandas indicator and signal columns are left out; they are inputs.
  - Its closing summary (total return and the pandas drawdown, lines 200-213) and its prints are left out.
- FeatureEngineering: every period parameter is required to be at least 1. The source's defaults are 9, 50, 14 and 20, and a period of 0 would give a zero-length deque.
- RiskManager.RiskManagementNode takes the value of the state's "signal" entry, which is what the source reads. The strategy nodes write "signals" instead. So in the assembled graph the signal is absent and the close-all path is taken. The graph state itself is not modelled.
- Backtester.RemoveFirst: it models `list.remove` and requires the position to be in the list, which every caller ensures. The `ValueError` path is not modelled.
- Metrics: a trade record is represented by its `pnl`. A record without one reads as 0, as `trade.get("pnl", 0)` does; an explicit `None` pnl is not distinguished.
- Models.PositionCount is the number of positions; it carries no separate contract.
- Some fields are read by the nodes but missing from the record declarations. They are optional fields in `Models`:
  - `ema_200`, `adx`, `rsi`, `ofi_sma`;
  - the Bollinger bands;
  - `instrument_type`, `suggested_quantity`, `trailing_stop_distance`.
  - Pydantic's validation of the records is not modelled, apart from the signal and regime bounds, which are stated as predicates.
- The hedge agent's loop over the incoming signals computes nothing that is used, and is left out. `HedgeAgent.HedgeOutput` states that the incoming signals are kept, unchanged, as a prefix of the output.
- KotakNeoTool.ExecuteOrder is the only Kotak client method modelled. Login, order book, positions, cancellation and quotes are client calls and are left out.
- The Alpaca tool's client calls are left out; only `_convert_symbol` is modelled.
- Behaviour that exists only in the tests is not modelled: smart execution, the stop-loss watchdog, ATR sizing with a stop price, `compute_adx` and `FeatureEngine.compute_ofi`.
- `resilience.py` (retry configuration), configuration parsing, the graph wiring and the data-download scripts are left out. They hold no decision logic.
