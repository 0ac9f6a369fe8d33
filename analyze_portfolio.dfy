/**
 * The quantitative part of the `analyze-portfolio` edge function: the
 * volatility surface, the valuation loop that accumulates NAV,
 * volatility-weighted NAV and liquid NAV, and the portfolio-level metrics
 * (volatility, diversification with K = 135, Sharpe ratio, monthly VaR and
 * liquidity ratio).
 *
 * Each asset's `Math.random()` draw is the caller-supplied `shocks[i]` in
 * [-1, 1); `Math.sqrt(1 / 252)` and `Math.sqrt(12)` are the parameters
 * `sqrtDt` and `sqrtTwelve`.
 */
module AnalyzePortfolio {
  import opened Numeric
  import opened RiskCore

  /** The scale of the diversification score in this edge function. */
  const DiversificationScale: real := 135.0

  /** `ASSET_RISK_PROFILE`: annualised volatility per asset type. */
  const RiskProfile: map<string, real> := map[
    "crypto" := 0.78,
    "defi" := 0.95,
    "stock" := 0.18,
    "real_estate" := 0.08,
    "bond" := 0.05,
    "cash" := 0.005,
    "collectibles" := 0.25]

  /** The asset types counted as liquid. */
  const LiquidTypes: set<string> := {"stock", "crypto", "cash", "bond"}

  /**
   * `ASSET_RISK_PROFILE[type] || 0.20`. No table entry is 0, so the fallback
   * applies exactly to the types the table does not list.
   */
  function Volatility(assetType: string): (vol: real)
    ensures assetType in RiskProfile ==> vol == RiskProfile[assetType]
    ensures assetType !in RiskProfile ==> vol == DefaultVolatility
    ensures 0.005 <= vol <= 0.95
  {
    if assetType in RiskProfile && RiskProfile[assetType] != 0.0 then RiskProfile[assetType] else DefaultVolatility
  }

  function IsLiquid(assetType: string): bool
  {
    assetType in LiquidTypes
  }

  /** The `liquidity_tier` of a processed asset. */
  datatype LiquidityTier = High | LowIlliquid

  /** The label the response carries for a tier. */
  function TierLabel(tier: LiquidityTier): (text: string)
    ensures text == "High" <==> tier == High
  {
    match tier
    case High => "High"
    case LowIlliquid => "Low (Illiquid)"
  }

  /** `isLiquid ? 'High' : 'Low (Illiquid)'`. */
  function TierOf(assetType: string): (tier: LiquidityTier)
    ensures tier == High <==> IsLiquid(assetType)
  {
    if IsLiquid(assetType) then High else LowIlliquid
  }

  /** `asset.quantity || 1`: a zero quantity counts as one unit. */
  function QuantityOrOne(quantity: real): (q: real)
    ensures q != 0.0
    ensures quantity == 0.0 ==> q == 1.0
    ensures quantity != 0.0 ==> q == quantity
    ensures quantity >= 0.0 ==> q > 0.0
  {
    if quantity == 0.0 then 1.0 else quantity
  }

  /** A record of `processedAssets`: the input asset plus its valuation and liquidity tier. */
  datatype ProcessedAsset = ProcessedAsset(valued: ValuedAsset, liquidityTier: LiquidityTier)

  /**
   * What the valuation `map` callback returns for one asset and its shock: the
   * input asset, a one-day price inside the band of its table volatility, the
   * position value at that price and the tier of its type.
   */
  function ValueAsset(a: Asset, shock: real, sqrtDt: real): (p: ProcessedAsset)
    ensures p.valued.asset == a
    ensures p.valued.volatility == Volatility(a.assetType)
    ensures a.value >= 0.0 && sqrtDt >= 0.0 && -1.0 <= shock <= 1.0 ==>
              a.value * (1.0 + AnnualDrift * TradingDay - p.valued.volatility * sqrtDt)
              <= p.valued.price
              <= a.value * (1.0 + AnnualDrift * TradingDay + p.valued.volatility * sqrtDt)
    ensures p.valued.totalValue == p.valued.price * QuantityOrOne(a.quantity)
    ensures p.liquidityTier == TierOf(a.assetType)
  {
    var volatility := Volatility(a.assetType);
    var currentPrice := SimulateMarketMove(a.value, volatility, shock, sqrtDt);
    ProcessedAsset(
      ValuedAsset(a, currentPrice, currentPrice * QuantityOrOne(a.quantity), volatility),
      TierOf(a.assetType))
  }

  /** `processedAssets`: every asset valued with its own shock, in input order. */
  function Processed(assets: seq<Asset>, shocks: seq<real>, sqrtDt: real): (ps: seq<ProcessedAsset>)
    requires |shocks| == |assets|
    ensures |ps| == |assets|
    ensures forall i :: 0 <= i < |assets| ==> ps[i] == ValueAsset(assets[i], shocks[i], sqrtDt)
  {
    seq(|assets|, i requires 0 <= i < |assets| => ValueAsset(assets[i], shocks[i], sqrtDt))
  }

  /** The valuation part of each processed record. */
  function Valuations(ps: seq<ProcessedAsset>): (vs: seq<ValuedAsset>)
    ensures |vs| == |ps|
    ensures forall i :: 0 <= i < |ps| ==> vs[i] == ps[i].valued
  {
    seq(|ps|, i requires 0 <= i < |ps| => ps[i].valued)
  }

  /** Sum of the position values of the liquid assets. */
  function SumLiquid(vs: seq<ValuedAsset>): real
    decreases |vs|
  {
    if |vs| == 0 then 0.0
    else
      var last := vs[|vs| - 1];
      SumLiquid(vs[..|vs| - 1]) + (if IsLiquid(last.asset.assetType) then last.totalValue else 0.0)
  }

  /** What appending one processed record does to the three running sums. */
  lemma SumsStep(ps: seq<ProcessedAsset>, p: ProcessedAsset)
    ensures SumTotal(Valuations(ps + [p])) == SumTotal(Valuations(ps)) + p.valued.totalValue
    ensures SumWeighted(Valuations(ps + [p])) == SumWeighted(Valuations(ps)) + RiskWeight(p.valued)
    ensures SumLiquid(Valuations(ps + [p]))
         == SumLiquid(Valuations(ps)) + (if IsLiquid(p.valued.asset.assetType) then p.valued.totalValue else 0.0)
  {
    var vs := Valuations(ps + [p]);
    assert vs[..|vs| - 1] == Valuations(ps);
    assert vs[|vs| - 1] == p.valued;
  }

  /** Processing one more asset appends its record. */
  lemma ProcessedStep(assets: seq<Asset>, shocks: seq<real>, sqrtDt: real, i: nat)
    requires |shocks| == |assets| && i < |assets|
    ensures Processed(assets[..i + 1], shocks[..i + 1], sqrtDt)
         == Processed(assets[..i], shocks[..i], sqrtDt) + [ValueAsset(assets[i], shocks[i], sqrtDt)]
  {
  }

  /**
   * Phase 1, the valuation `map`: value every asset and accumulate the NAV,
   * the volatility-weighted NAV and the liquid NAV.
   */
  method ValuePortfolio(assets: seq<Asset>, shocks: seq<real>, sqrtDt: real)
    returns (processed: seq<ProcessedAsset>, totalNav: real, weightedVolatility: real, liquidNav: real)
    requires |shocks| == |assets|
    ensures processed == Processed(assets, shocks, sqrtDt)
    ensures totalNav == SumTotal(Valuations(processed))
    ensures weightedVolatility == SumWeighted(Valuations(processed))
    ensures liquidNav == SumLiquid(Valuations(processed))
  {
    processed := [];
    totalNav := 0.0;
    weightedVolatility := 0.0;
    liquidNav := 0.0;
    var i := 0;
    while i < |assets|
      invariant 0 <= i <= |assets|
      invariant processed == Processed(assets[..i], shocks[..i], sqrtDt)
      invariant totalNav == SumTotal(Valuations(processed))
      invariant weightedVolatility == SumWeighted(Valuations(processed))
      invariant liquidNav == SumLiquid(Valuations(processed))
    {
      var record := ValueAsset(assets[i], shocks[i], sqrtDt);
      ProcessedStep(assets, shocks, sqrtDt, i);
      SumsStep(processed, record);
      var totalValue := record.valued.totalValue;
      totalNav := totalNav + totalValue;
      weightedVolatility := weightedVolatility + RiskWeight(record.valued);
      if IsLiquid(assets[i].assetType) {
        liquidNav := liquidNav + totalValue;
      }
      processed := processed + [record];
      i := i + 1;
    }
    assert assets[..i] == assets && shocks[..i] == shocks;
  }

  /** `totalNAV > 0 ? (liquidNAV / totalNAV) * 100 : 0`. */
  function LiquidityRatio(totalNav: real, liquidNav: real): (ratio: real)
    ensures totalNav <= 0.0 ==> ratio == 0.0
    ensures totalNav > 0.0 ==> ratio * totalNav == liquidNav * 100.0
  {
    if totalNav > 0.0 then
      DivThenMul(liquidNav, totalNav);
      (liquidNav / totalNav) * 100.0
    else 0.0
  }

  /** The liquid NAV is part of the NAV, for non-negative position values. */
  lemma {:induction false} LiquidPartOfTotal(vs: seq<ValuedAsset>)
    requires forall i :: 0 <= i < |vs| ==> vs[i].totalValue >= 0.0
    ensures 0.0 <= SumLiquid(vs) <= SumTotal(vs)
    decreases |vs|
  {
    if |vs| > 0 {
      LiquidPartOfTotal(vs[..|vs| - 1]);
    }
  }

  /** When every asset is liquid, the liquid NAV is the whole NAV. */
  lemma {:induction false} AllLiquidSum(vs: seq<ValuedAsset>)
    requires forall i :: 0 <= i < |vs| ==> IsLiquid(vs[i].asset.assetType)
    ensures SumLiquid(vs) == SumTotal(vs)
    decreases |vs|
  {
    if |vs| > 0 {
      AllLiquidSum(vs[..|vs| - 1]);
    }
  }

  /** The liquidity ratio is a percentage, for non-negative position values. */
  lemma LiquidityRatioPercent(vs: seq<ValuedAsset>)
    requires forall i :: 0 <= i < |vs| ==> vs[i].totalValue >= 0.0
    ensures 0.0 <= LiquidityRatio(SumTotal(vs), SumLiquid(vs)) <= 100.0
  {
    LiquidPartOfTotal(vs);
    var nav := SumTotal(vs);
    if nav > 0.0 {
      var liquid := SumLiquid(vs);
      ShareAtMostOne(liquid, nav);
      assert LiquidityRatio(nav, liquid) == (liquid / nav) * 100.0;
    }
  }

  /** A portfolio of liquid assets only, with a positive NAV, has liquidity ratio 100. */
  lemma AllLiquidRatio(vs: seq<ValuedAsset>)
    requires forall i :: 0 <= i < |vs| ==> IsLiquid(vs[i].asset.assetType)
    requires SumTotal(vs) > 0.0
    ensures LiquidityRatio(SumTotal(vs), SumLiquid(vs)) == 100.0
  {
    AllLiquidSum(vs);
    var nav := SumTotal(vs);
    CancelFactor(LiquidityRatio(nav, SumLiquid(vs)), 100.0, nav);
  }

  /** `Math.sqrt(1 / 252)` is below 0.07. */
  lemma TradingDayRootBound(sqrtDt: real)
    requires sqrtDt > 0.0 && sqrtDt * sqrtDt == TradingDay
    ensures sqrtDt < 0.07
  {
    if sqrtDt >= 0.07 {
      MulNonNegative(sqrtDt - 0.07, sqrtDt);
      assert false;
    }
  }

  /** Shocks as `(Math.random() - 0.5) * 2` draws them. */
  predicate ValidShocks(shocks: seq<real>)
  {
    forall i :: 0 <= i < |shocks| ==> -1.0 <= shocks[i] < 1.0
  }

  /**
   * A one-day move cannot make a price negative: with the true sqrt(1/252) the
   * largest volatility moves it by less than 7%. So a non-negative unit price
   * and quantity give a non-negative position value.
   */
  lemma PositionValueNonNegative(a: Asset, shock: real, sqrtDt: real)
    requires a.value >= 0.0 && a.quantity >= 0.0 && -1.0 <= shock <= 1.0
    requires sqrtDt > 0.0 && sqrtDt * sqrtDt == TradingDay
    ensures ValueAsset(a, shock, sqrtDt).valued.price >= 0.0
    ensures ValueAsset(a, shock, sqrtDt).valued.totalValue >= 0.0
  {
    var v := ValueAsset(a, shock, sqrtDt).valued;
    TradingDayRootBound(sqrtDt);
    MulNonNegative(0.95 - v.volatility, sqrtDt);
    var low := 1.0 + AnnualDrift * TradingDay - v.volatility * sqrtDt;
    assert low >= 0.0;
    MulNonNegative(a.value, low);
    MulNonNegative(v.price, QuantityOrOne(a.quantity));
  }

  /** Under valid shocks, a portfolio of non-negative assets has non-negative position values. */
  lemma ProcessedValuesNonNegative(assets: seq<Asset>, shocks: seq<real>, sqrtDt: real)
    requires |shocks| == |assets| && ValidShocks(shocks)
    requires forall i :: 0 <= i < |assets| ==> assets[i].value >= 0.0 && assets[i].quantity >= 0.0
    requires sqrtDt > 0.0 && sqrtDt * sqrtDt == TradingDay
    ensures forall i :: 0 <= i < |assets| ==> Valuations(Processed(assets, shocks, sqrtDt))[i].totalValue >= 0.0
  {
    forall i | 0 <= i < |assets|
      ensures Valuations(Processed(assets, shocks, sqrtDt))[i].totalValue >= 0.0
    {
      PositionValueNonNegative(assets[i], shocks[i], sqrtDt);
    }
  }

  /**
   * For such a portfolio with a positive NAV, the portfolio volatility lies
   * inside the volatility surface: between 0.005 (cash) and 0.95 (DeFi).
   */
  lemma PortfolioVolatilityInSurface(assets: seq<Asset>, shocks: seq<real>, sqrtDt: real)
    requires |shocks| == |assets| && ValidShocks(shocks)
    requires forall i :: 0 <= i < |assets| ==> assets[i].value >= 0.0 && assets[i].quantity >= 0.0
    requires sqrtDt > 0.0 && sqrtDt * sqrtDt == TradingDay
    requires SumTotal(Valuations(Processed(assets, shocks, sqrtDt))) > 0.0
    ensures 0.005 <= PortfolioVolatility(SumTotal(Valuations(Processed(assets, shocks, sqrtDt))),
                                         SumWeighted(Valuations(Processed(assets, shocks, sqrtDt)))) <= 0.95
  {
    ProcessedValuesNonNegative(assets, shocks, sqrtDt);
    PortfolioVolatilityBetween(Valuations(Processed(assets, shocks, sqrtDt)), 0.005, 0.95);
  }

  /** Sum of the position values of the records labelled High. */
  function HighTierValue(ps: seq<ProcessedAsset>): real
    decreases |ps|
  {
    if |ps| == 0 then 0.0
    else
      var last := ps[|ps| - 1];
      HighTierValue(ps[..|ps| - 1]) + (if last.liquidityTier == High then last.valued.totalValue else 0.0)
  }

  /** When every record's tier is that of its type, the liquid NAV is the value labelled High. */
  lemma {:induction false} LiquidSumIsHighTierValue(ps: seq<ProcessedAsset>)
    requires forall i :: 0 <= i < |ps| ==> ps[i].liquidityTier == TierOf(ps[i].valued.asset.assetType)
    ensures SumLiquid(Valuations(ps)) == HighTierValue(ps)
    decreases |ps|
  {
    if |ps| > 0 {
      var init := ps[..|ps| - 1];
      var last := ps[|ps| - 1];
      LiquidSumIsHighTierValue(init);
      SumsStep(init, last);
      assert init + [last] == ps;
    }
  }

  /**
   * The two uses of `isLiquid` agree: a record is labelled "High" exactly when
   * its type is liquid, and the liquid NAV is the total value of the records
   * labelled High.
   */
  lemma TierMatchesLiquidNav(assets: seq<Asset>, shocks: seq<real>, sqrtDt: real)
    requires |shocks| == |assets|
    ensures forall i :: 0 <= i < |assets| ==>
              (TierLabel(Processed(assets, shocks, sqrtDt)[i].liquidityTier) == "High" <==> IsLiquid(assets[i].assetType))
    ensures SumLiquid(Valuations(Processed(assets, shocks, sqrtDt))) == HighTierValue(Processed(assets, shocks, sqrtDt))
  {
    LiquidSumIsHighTierValue(Processed(assets, shocks, sqrtDt));
  }

  /** Unlike the rebalance valuation, a zero quantity is valued as one unit at the simulated price. */
  lemma ZeroQuantityIsOneUnit(a: Asset, shock: real, sqrtDt: real)
    requires a.quantity == 0.0
    ensures ValueAsset(a, shock, sqrtDt).valued.totalValue == ValueAsset(a, shock, sqrtDt).valued.price
    ensures ValueAsset(a, shock, sqrtDt).valued.price == SimulateMarketMove(a.value, Volatility(a.assetType), shock, sqrtDt)
  {
  }

  /** The processed records carry the input assets unchanged, in order. */
  lemma ProcessedKeepsAssets(assets: seq<Asset>, shocks: seq<real>, sqrtDt: real)
    requires |shocks| == |assets|
    ensures Originals(Valuations(Processed(assets, shocks, sqrtDt))) == assets
  {
  }

  /** The figures of Phase 2. */
  datatype RiskMetrics = RiskMetrics(
    totalNav: real,
    portfolioVolatility: real,
    diversificationScore: int,
    sharpeRatio: real,
    valueAtRisk: real,
    liquidityRatio: real)

  /**
   * Phases 1 and 2 of the edge function. The diversification score is taken
   * over the processed records, whose `value` and `quantity` are the input
   * ones, so it is the score of the input assets and no shock changes it.
   */
  method AnalyzePortfolio(assets: seq<Asset>, shocks: seq<real>, sqrtDt: real, sqrtTwelve: real)
    returns (processed: seq<ProcessedAsset>, metrics: RiskMetrics)
    requires |shocks| == |assets| && sqrtTwelve > 0.0
    ensures processed == Processed(assets, shocks, sqrtDt)
    ensures metrics.totalNav == SumTotal(Valuations(processed))
    ensures metrics.portfolioVolatility == PortfolioVolatility(metrics.totalNav, SumWeighted(Valuations(processed)))
    ensures metrics.diversificationScore == DiversificationScoreOf(assets, DiversificationScale)
    ensures 0 <= metrics.diversificationScore <= 100
    ensures metrics.sharpeRatio == SharpeRatio(AssumedPortfolioReturn, metrics.portfolioVolatility)
    ensures metrics.valueAtRisk == ValueAtRisk(metrics.totalNav, metrics.portfolioVolatility, sqrtTwelve)
    ensures metrics.liquidityRatio == LiquidityRatio(metrics.totalNav, SumLiquid(Valuations(processed)))
  {
    var totalNav, weightedVolatility, liquidNav;
    processed, totalNav, weightedVolatility, liquidNav := ValuePortfolio(assets, shocks, sqrtDt);
    var portfolioVolatility := PortfolioVolatility(totalNav, weightedVolatility);
    ProcessedKeepsAssets(assets, shocks, sqrtDt);
    var diversificationScore := DiversificationScore(Originals(Valuations(processed)), DiversificationScale);
    var sharpeRatio := SharpeRatio(AssumedPortfolioReturn, portfolioVolatility);
    var valueAtRisk := ValueAtRisk(totalNav, portfolioVolatility, sqrtTwelve);
    var liquidityRatio := LiquidityRatio(totalNav, liquidNav);
    metrics := RiskMetrics(totalNav, portfolioVolatility, diversificationScore, sharpeRatio, valueAtRisk, liquidityRatio);
  }

  /**
   * A cash-only portfolio with a positive NAV: diversification 0, volatility
   * 0.005 and liquidity 100.
   */
  lemma CashOnlyPortfolio(assets: seq<Asset>, shocks: seq<real>, sqrtDt: real)
    requires |assets| > 0 && |shocks| == |assets|
    requires forall i :: 0 <= i < |assets| ==> assets[i].assetType == "cash"
    requires forall i :: 0 <= i < |assets| ==> Valuations(Processed(assets, shocks, sqrtDt))[i].totalValue >= 0.0
    requires SumTotal(Valuations(Processed(assets, shocks, sqrtDt))) > 0.0
    ensures DiversificationScoreOf(assets, DiversificationScale) == 0
    ensures PortfolioVolatility(SumTotal(Valuations(Processed(assets, shocks, sqrtDt))),
                                SumWeighted(Valuations(Processed(assets, shocks, sqrtDt)))) == 0.005
    ensures LiquidityRatio(SumTotal(Valuations(Processed(assets, shocks, sqrtDt))),
                           SumLiquid(Valuations(Processed(assets, shocks, sqrtDt)))) == 100.0
  {
    var vs := Valuations(Processed(assets, shocks, sqrtDt));
    SingleTypeScoresZero(assets, "cash", DiversificationScale);
    PortfolioVolatilityBetween(vs, 0.005, 0.005);
    AllLiquidRatio(vs);
  }
}
