/**
 * The quantitative part of the `rebalance-portfolio` edge function: the
 * inline `volatilityMap` (six types, no collectibles), the valuation loop that
 * accumulates NAV and volatility-weighted NAV without defaulting the
 * quantity, and the portfolio metrics with diversification scale K = 125.
 *
 * Each asset's `Math.random()` draw is the caller-supplied `shocks[i]`;
 * `Math.sqrt(1 / 252)` and `Math.sqrt(12)` are the parameters `sqrtDt` and
 * `sqrtTwelve`.
 */
module RebalancePortfolio {
  import opened Numeric
  import opened RiskCore

  /** The scale of the diversification score in this edge function. */
  const DiversificationScale: real := 125.0

  /** `volatilityMap`: annualised volatility per asset type. */
  const VolatilityMap: map<string, real> := map[
    "crypto" := 0.78,
    "defi" := 0.95,
    "stock" := 0.18,
    "real_estate" := 0.08,
    "bond" := 0.05,
    "cash" := 0.005]

  /** `volatilityMap[type] || 0.20`. */
  function Volatility(assetType: string): (vol: real)
    ensures assetType in VolatilityMap ==> vol == VolatilityMap[assetType]
    ensures assetType !in VolatilityMap ==> vol == DefaultVolatility
    ensures 0.005 <= vol <= 0.95
  {
    if assetType in VolatilityMap && VolatilityMap[assetType] != 0.0 then VolatilityMap[assetType] else DefaultVolatility
  }

  /** The table has no entry for collectibles, so they get the 0.20 fallback. */
  lemma CollectiblesFallBack()
    ensures Volatility("collectibles") == DefaultVolatility
  {
  }

  /**
   * What the valuation `map` callback returns: the input asset, a one-day
   * price inside the band of this table's volatility, and the position value
   * at that price with the quantity as given.
   */
  function ValueAsset(a: Asset, shock: real, sqrtDt: real): (v: ValuedAsset)
    ensures v.asset == a
    ensures v.volatility == Volatility(a.assetType)
    ensures a.value >= 0.0 && sqrtDt >= 0.0 && -1.0 <= shock <= 1.0 ==>
              a.value * (1.0 + AnnualDrift * TradingDay - v.volatility * sqrtDt)
              <= v.price
              <= a.value * (1.0 + AnnualDrift * TradingDay + v.volatility * sqrtDt)
    ensures v.totalValue == v.price * a.quantity
  {
    var volatility := Volatility(a.assetType);
    var simulatedPrice := SimulateMarketMove(a.value, volatility, shock, sqrtDt);
    ValuedAsset(a, simulatedPrice, simulatedPrice * a.quantity, volatility)
  }

  /** `processedAssets`: every asset valued with its own shock, in input order. */
  function Processed(assets: seq<Asset>, shocks: seq<real>, sqrtDt: real): (vs: seq<ValuedAsset>)
    requires |shocks| == |assets|
    ensures |vs| == |assets|
    ensures forall i :: 0 <= i < |assets| ==> vs[i] == ValueAsset(assets[i], shocks[i], sqrtDt)
  {
    seq(|assets|, i requires 0 <= i < |assets| => ValueAsset(assets[i], shocks[i], sqrtDt))
  }

  /** Processing one more asset appends its record. */
  lemma ProcessedStep(assets: seq<Asset>, shocks: seq<real>, sqrtDt: real, i: nat)
    requires |shocks| == |assets| && i < |assets|
    ensures Processed(assets[..i + 1], shocks[..i + 1], sqrtDt)
         == Processed(assets[..i], shocks[..i], sqrtDt) + [ValueAsset(assets[i], shocks[i], sqrtDt)]
  {
  }

  /** What appending one record does to the two running sums. */
  lemma SumsStep(vs: seq<ValuedAsset>, v: ValuedAsset)
    ensures SumTotal(vs + [v]) == SumTotal(vs) + v.totalValue
    ensures SumWeighted(vs + [v]) == SumWeighted(vs) + RiskWeight(v)
  {
    assert (vs + [v])[..|vs|] == vs;
  }

  /**
   * The valuation `map`: value every asset at its simulated price times its
   * quantity, and accumulate the NAV and the volatility-weighted NAV.
   */
  method ValuePortfolio(assets: seq<Asset>, shocks: seq<real>, sqrtDt: real)
    returns (processed: seq<ValuedAsset>, totalNav: real, weightedVolatility: real)
    requires |shocks| == |assets|
    ensures processed == Processed(assets, shocks, sqrtDt)
    ensures totalNav == SumTotal(processed)
    ensures weightedVolatility == SumWeighted(processed)
  {
    processed := [];
    totalNav := 0.0;
    weightedVolatility := 0.0;
    var i := 0;
    while i < |assets|
      invariant 0 <= i <= |assets|
      invariant processed == Processed(assets[..i], shocks[..i], sqrtDt)
      invariant totalNav == SumTotal(processed)
      invariant weightedVolatility == SumWeighted(processed)
    {
      var record := ValueAsset(assets[i], shocks[i], sqrtDt);
      ProcessedStep(assets, shocks, sqrtDt, i);
      SumsStep(processed, record);
      totalNav := totalNav + record.totalValue;
      weightedVolatility := weightedVolatility + RiskWeight(record);
      processed := processed + [record];
      i := i + 1;
    }
    assert assets[..i] == assets && shocks[..i] == shocks;
  }

  /** A zero quantity is not defaulted here: the position is worth nothing. */
  lemma ZeroQuantityIsWorthless(a: Asset, shock: real, sqrtDt: real)
    requires a.quantity == 0.0
    ensures ValueAsset(a, shock, sqrtDt).totalValue == 0.0
  {
  }

  /** The portfolio-level figures. */
  datatype RebalanceMetrics = RebalanceMetrics(
    totalNav: real,
    portfolioVolatility: real,
    diversificationScore: int,
    sharpeRatio: real,
    valueAtRisk: real)

  /**
   * Valuation and portfolio math of the edge function. The diversification
   * score is computed from the input assets, not from the simulated prices.
   */
  method Evaluate(assets: seq<Asset>, shocks: seq<real>, sqrtDt: real, sqrtTwelve: real)
    returns (processed: seq<ValuedAsset>, metrics: RebalanceMetrics)
    requires |shocks| == |assets| && sqrtTwelve > 0.0
    ensures processed == Processed(assets, shocks, sqrtDt)
    ensures |processed| == |assets|
    ensures forall i :: 0 <= i < |assets| ==> processed[i].asset == assets[i]
    ensures metrics.totalNav == SumTotal(processed)
    ensures metrics.portfolioVolatility == PortfolioVolatility(metrics.totalNav, SumWeighted(processed))
    ensures metrics.diversificationScore == DiversificationScoreOf(assets, DiversificationScale)
    ensures 0 <= metrics.diversificationScore <= 100
    ensures metrics.sharpeRatio == SharpeRatio(AssumedPortfolioReturn, metrics.portfolioVolatility)
    ensures metrics.valueAtRisk == ValueAtRisk(metrics.totalNav, metrics.portfolioVolatility, sqrtTwelve)
    ensures metrics.totalNav >= 0.0 && metrics.portfolioVolatility >= 0.0 ==> metrics.valueAtRisk >= 0.0
  {
    var totalNav, weightedVolatility;
    processed, totalNav, weightedVolatility := ValuePortfolio(assets, shocks, sqrtDt);
    var portfolioVolatility := PortfolioVolatility(totalNav, weightedVolatility);
    var diversificationScore := DiversificationScore(assets, DiversificationScale);
    var sharpeRatio := SharpeRatio(AssumedPortfolioReturn, portfolioVolatility);
    var valueAtRisk := ValueAtRisk(totalNav, portfolioVolatility, sqrtTwelve);
    metrics := RebalanceMetrics(totalNav, portfolioVolatility, diversificationScore, sharpeRatio, valueAtRisk);
  }

  /** Two equally valued asset classes score round(62.5) = 63. */
  lemma TwoEqualClassesScore63(assets: seq<Asset>)
    requires |assets| == 2 && assets[0].assetType != assets[1].assetType
    requires UnitTotal(assets[0]) == UnitTotal(assets[1]) != 0.0
    ensures DiversificationScoreOf(assets, DiversificationScale) == 63
  {
    TwoEqualTypesScore(assets);
  }
}
