/** The strategy router: maps the regime to one of three strategies and
    overrides low-confidence regimes to neutral; the conditional edge then
    maps the stored name to the next node. */
module StrategyRouter {
  import opened Common
  import opened Models

  datatype Strategy = MomentumStrategy | MeanReversionStrategy | NeutralStrategy

  const MinimumConfidence: real := 0.4

  /** The name stored in the graph state. */
  function Name(s: Strategy): (r: string)
    ensures r == "momentum" || r == "mean_reversion" || r == "neutral"
  {
    match s
    case MomentumStrategy => "momentum"
    case MeanReversionStrategy => "mean_reversion"
    case NeutralStrategy => "neutral"
  }

  /** `route_strategy_node`. Each strategy is characterised by the regimes
      that select it: momentum for a confident TRENDING or LOW_VOLATILITY
      regime, mean reversion for a confident RANGING one, and neutral for
      everything else, including no regime and confidence below 0.4. */
  function Route(regime: Option<MarketRegime>): (r: Strategy)
    ensures r == MomentumStrategy <==>
      regime.Some? && regime.value.confidence >= MinimumConfidence
      && (regime.value.regime == Trending || regime.value.regime == LowVolatility)
    ensures r == MeanReversionStrategy <==>
      regime.Some? && regime.value.confidence >= MinimumConfidence && regime.value.regime == Ranging
    ensures r == NeutralStrategy <==>
      regime.None? || regime.value.confidence < MinimumConfidence
      || regime.value.regime == HighVolatility || regime.value.regime == Unknown
  {
    if regime.None? then NeutralStrategy
    else
      var byRegime :=
        match regime.value.regime
        case Trending => MomentumStrategy
        case Ranging => MeanReversionStrategy
        case HighVolatility => NeutralStrategy
        case LowVolatility => MomentumStrategy
        case Unknown => NeutralStrategy;
      if regime.value.confidence < MinimumConfidence then NeutralStrategy else byRegime
  }

  /** `get_strategy_node_name`: the two strategy names map to their nodes,
      anything else (including no value) to the neutral node. */
  function NodeName(selected: Option<string>): (r: Strategy)
    ensures r == MomentumStrategy <==> selected == Some("momentum")
    ensures r == MeanReversionStrategy <==> selected == Some("mean_reversion")
  {
    if selected == Some("momentum") then MomentumStrategy
    else if selected == Some("mean_reversion") then MeanReversionStrategy
    else NeutralStrategy
  }

  /** The conditional edge recovers exactly the strategy the router stored. */
  lemma EdgeFollowsRouter(regime: Option<MarketRegime>)
    ensures NodeName(Some(Name(Route(regime)))) == Route(regime)
  {
  }

  /** Any name that is not one of the strategy names leads to the neutral node. */
  lemma UnknownNameIsNeutral(selected: Option<string>)
    requires selected != Some("momentum") && selected != Some("mean_reversion")
    ensures NodeName(selected) == NeutralStrategy
  {
  }
}
