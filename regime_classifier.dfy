/** The regime classifier: volatility rules first, EMA-trend rules only while
    the regime is still UNKNOWN, then the language-model classifier, whose
    answer wins whenever the call returns. The language-model call is the
    function parameter `llm`, given the features and the rules' ambiguity. */
module RegimeClassifier {
  import opened Common
  import opened Models

  const HighVolatilityThreshold: real := 0.03
  const LowVolatilityThreshold: real := 0.01
  const AmbiguityThreshold: real := 0.2

  /** The rules' working state: the regime, its confidence, the ambiguity
      score handed to the language model, and the two optional diagnostics. */
  datatype Verdict = Verdict(
    regime: RegimeKind,
    confidence: real,
    ambiguity: real,
    volatilityPercentile: Option<real>,
    trendStrength: Option<real>)

  const Undecided: Verdict := Verdict(Unknown, 0.0, 1.0, None, None)

  /** `realized_volatility or atr or 0.0`: the first present, non-zero value. */
  function VolatilityOf(f: MarketFeatures): real
  {
    if Truthy(f.realizedVolatility) then f.realizedVolatility.value
    else if Truthy(f.atr) then f.atr.value
    else 0.0
  }

  predicate HasVolatility(f: MarketFeatures)
  {
    f.atr.Some? || f.realizedVolatility.Some?
  }

  predicate HasTrend(f: MarketFeatures)
  {
    f.ema9.Some? && f.ema50.Some?
  }

  /** The volatility rules: above 0.03 is HIGH_VOLATILITY, below 0.01 is
      LOW_VOLATILITY, both with confidence 0.7; anything else leaves the
      verdict undecided. */
  function VolatilityRule(f: MarketFeatures): (v: Verdict)
    ensures v.regime == HighVolatility <==> HasVolatility(f) && VolatilityOf(f) > HighVolatilityThreshold
    ensures v.regime == LowVolatility <==> HasVolatility(f) && VolatilityOf(f) < LowVolatilityThreshold
    ensures v.regime != Unknown ==> v.confidence == 0.7 && v.ambiguity == 0.3
    ensures v.regime == Unknown ==> v == Undecided
  {
    if !HasVolatility(f) then Undecided
    else
      var vol := VolatilityOf(f);
      if vol > HighVolatilityThreshold then Verdict(HighVolatility, 0.7, 0.3, Some(0.8), None)
      else if vol < LowVolatilityThreshold then Verdict(LowVolatility, 0.7, 0.3, Some(0.2), None)
      else Undecided
  }

  /** |ema9 - ema50| / ema50, recorded only when ema50 is positive. */
  function TrendStrength(ema9: real, ema50: real): (r: Option<real>)
    ensures r.Some? <==> ema50 > 0.0
    ensures r.Some? ==> r.value >= 0.0
  {
    if ema50 > 0.0 then
      DivNonNegative(Abs(ema9 - ema50), ema50);
      Some(Abs(ema9 - ema50) / ema50)
    else None
  }

  /** The trend rules. The closeness test divides by ema50 without a guard,
      so it raises `ZeroDivisionError` when both EMAs are zero (the only way
      to reach it with ema50 == 0). */
  function TrendRule(ema9: real, ema50: real): (r: Outcome<Verdict>)
    ensures r.Raised? <==> ema9 == 0.0 && ema50 == 0.0
  {
    var strength := TrendStrength(ema9, ema50);
    if ema9 > ema50 * 1.02 || ema9 < ema50 * 0.98 then
      Returned(Verdict(Trending, 0.75, 0.25, None, strength))
    else if ema50 == 0.0 then
      Raised("ZeroDivisionError")
    else if Abs(ema9 - ema50) / ema50 < 0.005 then
      Returned(Verdict(Ranging, 0.65, 0.35, None, strength))
    else
      Returned(Verdict(Unknown, 0.5, 0.5, None, strength))
  }

  /** The whole rule chain for present features. */
  function Rules(f: MarketFeatures): (r: Outcome<Verdict>)
    ensures r.Raised? ==> HasTrend(f) && VolatilityRule(f).regime == Unknown
  {
    var v := VolatilityRule(f);
    if HasTrend(f) && v.regime == Unknown then
      TrendRule(f.ema9.value, f.ema50.value)
    else
      Returned(v)
  }

  /** The node: UNKNOWN with confidence 0 without features; otherwise the rule
      chain, then the language model, whose regime is returned when the call
      succeeds and the rule verdict when it raises. */
  function ClassifyRegime(features: Option<MarketFeatures>, llm: (MarketFeatures, real) -> Outcome<MarketRegime>): (r: Outcome<MarketRegime>)
    ensures features.None? ==> r == Returned(MarketRegime(Unknown, 0.0, None, None))
  {
    if features.None? then Returned(MarketRegime(Unknown, 0.0, None, None))
    else
      var f := features.value;
      match Rules(f)
      case Raised(e) => Raised(e)
      case Returned(v) =>
        if v.ambiguity > AmbiguityThreshold then
          match llm(f, v.ambiguity)
          case Returned(m) => Returned(m)
          case Raised(_) => Returned(MarketRegime(v.regime, v.confidence, v.volatilityPercentile, v.trendStrength))
        else
          Returned(MarketRegime(v.regime, v.confidence, v.volatilityPercentile, v.trendStrength))
  }

  /** Every verdict the rules reach is ambiguous enough to consult the
      language model, and its confidence is a valid regime confidence. */
  lemma RulesAlwaysAmbiguous(f: MarketFeatures)
    requires Rules(f).Returned?
    ensures Rules(f).value.ambiguity > AmbiguityThreshold
    ensures 0.0 <= Rules(f).value.confidence <= 1.0
  {
  }

  /** Hence, whenever features exist and the rules do not raise, the
      language model is consulted with the rules' ambiguity: its answer is
      returned unchanged when the call succeeds, and the rule verdict when
      it fails. */
  lemma LanguageModelAlwaysConsulted(f: MarketFeatures, llm: (MarketFeatures, real) -> Outcome<MarketRegime>)
    requires Rules(f).Returned?
    ensures var v := Rules(f).value;
      ClassifyRegime(Some(f), llm) ==
        if llm(f, v.ambiguity).Returned? then llm(f, v.ambiguity)
        else Returned(MarketRegime(v.regime, v.confidence, v.volatilityPercentile, v.trendStrength))
  {
    RulesAlwaysAmbiguous(f);
  }

  /** The volatility rules take precedence: a high or low volatility reading
      decides the verdict whatever the EMAs say. */
  lemma VolatilityTakesPrecedence(f: MarketFeatures)
    requires HasVolatility(f)
    requires VolatilityOf(f) > HighVolatilityThreshold || VolatilityOf(f) < LowVolatilityThreshold
    ensures Rules(f).Returned?
    ensures Rules(f).value.regime == (if VolatilityOf(f) > HighVolatilityThreshold then HighVolatility else LowVolatility)
    ensures Rules(f).value.confidence == 0.7 && Rules(f).value.trendStrength.None?
  {
  }

  /** Without a decisive volatility reading and with both EMAs present, the
      trend rules decide: more than 2% apart is TRENDING (0.75), otherwise
      within 0.5% of ema50 is RANGING (0.65), otherwise UNKNOWN (0.5). */
  lemma TrendRules(f: MarketFeatures)
    requires HasTrend(f) && VolatilityRule(f).regime == Unknown
    requires f.ema50.value != 0.0
    ensures var e9, e50 := f.ema9.value, f.ema50.value;
      var r := Rules(f);
      && r.Returned?
      && (r.value.regime == Trending <==> e9 > e50 * 1.02 || e9 < e50 * 0.98)
      && (r.value.regime == Ranging <==> !(e9 > e50 * 1.02 || e9 < e50 * 0.98) && Abs(e9 - e50) / e50 < 0.005)
      && (r.value.regime == Unknown ==> r.value.confidence == 0.5)
      && (r.value.trendStrength.Some? <==> e50 > 0.0)
  {
  }

  /** Without volatility and trend inputs, the rule verdict is UNKNOWN with
      confidence 0 and ambiguity 1. */
  lemma NoInputsIsUndecided(f: MarketFeatures)
    requires !HasVolatility(f) && !HasTrend(f)
    ensures Rules(f) == Returned(Undecided)
  {
  }

  /** The unguarded division: equal zero EMAs with no decisive volatility
      make the node raise instead of returning a regime. */
  lemma ZeroEmasRaise(f: MarketFeatures, llm: (MarketFeatures, real) -> Outcome<MarketRegime>)
    requires f.ema9 == Some(0.0) && f.ema50 == Some(0.0)
    requires !HasVolatility(f)
    ensures ClassifyRegime(Some(f), llm).Raised?
  {
  }
}
