/**
 * The leaf algorithms that the `analyze-portfolio` and `rebalance-portfolio`
 * edge functions both define, word for word apart from the diversification
 * scale constant: the one-day GBM price move, the Sharpe ratio, the
 * NAV-weighted portfolio volatility, parametric VaR and the Herfindahl
 * diversification score.
 *
 * `Math.random()` becomes the caller-supplied `shock` in [-1, 1), and
 * `Math.sqrt(1 / 252)` and `Math.sqrt(12)` become the parameters `sqrtDt` and
 * `sqrtTwelve`.
 */
module RiskCore {
  import opened Numeric

  const RiskFreeRate: real := 0.045
  /** z-score of the 95% one-sided confidence level. */
  const ConfidenceZ: real := 1.65
  /** One trading day, in years. */
  const TradingDay: real := 1.0 / 252.0
  /** Expected annual drift of the simulated price move. */
  const AnnualDrift: real := 0.05
  /** Volatility of an asset type the table does not list. */
  const DefaultVolatility: real := 0.20
  /** The flat expected portfolio return both call sites pass to the Sharpe ratio. */
  const AssumedPortfolioReturn: real := 0.08

  /** An input asset; `value` is the unit price. */
  datatype Asset = Asset(symbol: string, assetType: string, quantity: real, value: real)

  /** An asset after revaluation: simulated price, position value and volatility. */
  datatype ValuedAsset = ValuedAsset(asset: Asset, price: real, totalValue: real, volatility: real)

  /**
   * `simulateMarketMove`: S * (mu dt + sigma shock sqrt(dt)) + S. For a
   * non-negative base price and a shock in [-1, 1] the new price stays within
   * one "sigma sqrt(dt)" band of the drifted price.
   */
  function SimulateMarketMove(basePrice: real, volatility: real, shock: real, sqrtDt: real): (price: real)
    ensures basePrice >= 0.0 && volatility >= 0.0 && sqrtDt >= 0.0 && -1.0 <= shock <= 1.0 ==>
              basePrice * (1.0 + AnnualDrift * TradingDay - volatility * sqrtDt)
              <= price
              <= basePrice * (1.0 + AnnualDrift * TradingDay + volatility * sqrtDt)
  {
    assert basePrice >= 0.0 && volatility >= 0.0 && sqrtDt >= 0.0 && -1.0 <= shock <= 1.0 ==>
             basePrice * (1.0 + AnnualDrift * TradingDay - volatility * sqrtDt)
             <= basePrice * (AnnualDrift * TradingDay + volatility * shock * sqrtDt) + basePrice
             <= basePrice * (1.0 + AnnualDrift * TradingDay + volatility * sqrtDt) by {
      if basePrice >= 0.0 && volatility >= 0.0 && sqrtDt >= 0.0 && -1.0 <= shock <= 1.0 {
        MulNonNegative(volatility, sqrtDt);
        BandBounds(basePrice, volatility * sqrtDt, shock);
        assert volatility * shock * sqrtDt == (volatility * sqrtDt) * shock;
      }
    }
    basePrice * (AnnualDrift * TradingDay + volatility * shock * sqrtDt) + basePrice
  }

  /** A shock in [-1, 1] scaled by a non-negative band moves a non-negative base by at most the band. */
  lemma BandBounds(basePrice: real, band: real, shock: real)
    requires basePrice >= 0.0 && band >= 0.0 && -1.0 <= shock <= 1.0
    ensures basePrice * (1.0 + AnnualDrift * TradingDay - band)
            <= basePrice * (AnnualDrift * TradingDay + band * shock) + basePrice
            <= basePrice * (1.0 + AnnualDrift * TradingDay + band)
  {
    MulNonNegative(band, 1.0 - shock);
    MulNonNegative(band, 1.0 + shock);
    MulNonNegative(basePrice, band - band * shock);
    MulNonNegative(basePrice, band + band * shock);
  }

  /** `calculateSharpeRatio`: excess return per unit of volatility, 0 for zero volatility. */
  function SharpeRatio(portfolioReturn: real, portfolioVolatility: real): (sharpe: real)
    ensures portfolioVolatility == 0.0 ==> sharpe == 0.0
    ensures portfolioVolatility != 0.0 ==> sharpe * portfolioVolatility == portfolioReturn - RiskFreeRate
  {
    if portfolioVolatility == 0.0 then 0.0
    else
      DivThenMul(portfolioReturn - RiskFreeRate, portfolioVolatility);
      (portfolioReturn - RiskFreeRate) / portfolioVolatility
  }

  /** `totalNAV > 0 ? weightedVolatility / totalNAV : 0`. */
  function PortfolioVolatility(totalNav: real, weightedVolatility: real): (vol: real)
    ensures totalNav <= 0.0 ==> vol == 0.0
    ensures totalNav > 0.0 ==> vol * totalNav == weightedVolatility
  {
    if totalNav > 0.0 then
      DivThenMul(weightedVolatility, totalNav);
      weightedVolatility / totalNav
    else 0.0
  }

  /** 95% monthly parametric VaR: NAV * 1.65 * (volatility / sqrt(12)). */
  function ValueAtRisk(totalNav: real, portfolioVolatility: real, sqrtTwelve: real): (var95: real)
    requires sqrtTwelve > 0.0
    ensures var95 * sqrtTwelve == totalNav * ConfidenceZ * portfolioVolatility
    ensures totalNav >= 0.0 && portfolioVolatility >= 0.0 ==> var95 >= 0.0
  {
    var monthlyVolatility := portfolioVolatility / sqrtTwelve;
    DivThenMul(portfolioVolatility, sqrtTwelve);
    assert totalNav >= 0.0 && portfolioVolatility >= 0.0 ==> totalNav * ConfidenceZ * monthlyVolatility >= 0.0 by {
      if totalNav >= 0.0 && portfolioVolatility >= 0.0 {
        MulNonNegative(totalNav * ConfidenceZ, monthlyVolatility);
      }
    }
    totalNav * ConfidenceZ * monthlyVolatility
  }

  // ---------------------------------------------------------------------------
  // Valuation sums
  // ---------------------------------------------------------------------------

  /** Sum of the revalued position values, in input order. */
  function SumTotal(vs: seq<ValuedAsset>): real
    decreases |vs|
  {
    if |vs| == 0 then 0.0 else SumTotal(vs[..|vs| - 1]) + vs[|vs| - 1].totalValue
  }

  /** A position's share of the volatility-weighted NAV: value times volatility. */
  function RiskWeight(v: ValuedAsset): real
  {
    v.totalValue * v.volatility
  }

  /** Sum of position value times volatility. */
  function SumWeighted(vs: seq<ValuedAsset>): real
    decreases |vs|
  {
    if |vs| == 0 then 0.0 else SumWeighted(vs[..|vs| - 1]) + RiskWeight(vs[|vs| - 1])
  }

  /** The input assets the revalued records were made from. */
  function Originals(vs: seq<ValuedAsset>): (assets: seq<Asset>)
    ensures |assets| == |vs|
    ensures forall i :: 0 <= i < |vs| ==> assets[i] == vs[i].asset
  {
    seq(|vs|, i requires 0 <= i < |vs| => vs[i].asset)
  }

  /**
   * With non-negative position values and every volatility in [lo, hi], the
   * weighted sum lies between lo and hi times the NAV.
   */
  lemma {:induction false} WeightedSumBetween(vs: seq<ValuedAsset>, lo: real, hi: real)
    requires forall i :: 0 <= i < |vs| ==> vs[i].totalValue >= 0.0 && lo <= vs[i].volatility <= hi
    ensures lo * SumTotal(vs) <= SumWeighted(vs) <= hi * SumTotal(vs)
    decreases |vs|
  {
    if |vs| > 0 {
      var last := vs[|vs| - 1];
      WeightedSumBetween(vs[..|vs| - 1], lo, hi);
      MulNonNegative(last.totalValue, last.volatility - lo);
      MulNonNegative(last.totalValue, hi - last.volatility);
    }
  }

  /**
   * The portfolio volatility is a NAV-weighted average of the per-asset
   * volatilities, so it lies between the smallest and the largest of them.
   */
  lemma PortfolioVolatilityBetween(vs: seq<ValuedAsset>, lo: real, hi: real)
    requires forall i :: 0 <= i < |vs| ==> vs[i].totalValue >= 0.0 && lo <= vs[i].volatility <= hi
    requires SumTotal(vs) > 0.0
    ensures lo <= PortfolioVolatility(SumTotal(vs), SumWeighted(vs)) <= hi
  {
    WeightedSumBetween(vs, lo, hi);
    VolatilityBetween(SumTotal(vs), SumWeighted(vs), lo, hi);
  }

  /** Dividing a weighted sum between lo and hi times the NAV by the NAV lands between lo and hi. */
  lemma VolatilityBetween(nav: real, weighted: real, lo: real, hi: real)
    requires nav > 0.0 && lo * nav <= weighted <= hi * nav
    ensures lo <= PortfolioVolatility(nav, weighted) <= hi
  {
    BetweenByFactor(lo, PortfolioVolatility(nav, weighted), hi, nav);
  }

  // ---------------------------------------------------------------------------
  // Herfindahl-Hirschman diversification score
  // ---------------------------------------------------------------------------

  /** The input value of a position: unit price times quantity. */
  function UnitTotal(a: Asset): real
  {
    a.value * a.quantity
  }

  /** `assets.reduce((sum, a) => sum + a.value * a.quantity, 0)`. */
  function TotalValue(assets: seq<Asset>): real
    decreases |assets|
  {
    if |assets| == 0 then 0.0 else TotalValue(assets[..|assets| - 1]) + UnitTotal(assets[|assets| - 1])
  }

  /** The value grouped under one asset type. */
  function TypeValue(assets: seq<Asset>, t: string): real
    decreases |assets|
  {
    if |assets| == 0 then 0.0
    else
      var last := assets[|assets| - 1];
      TypeValue(assets[..|assets| - 1], t) + (if last.assetType == t then UnitTotal(last) else 0.0)
  }

  /** The asset types in order of first appearance: the keys of `typeWeights`. */
  function DistinctTypes(assets: seq<Asset>): seq<string>
    decreases |assets|
  {
    if |assets| == 0 then []
    else
      var earlier := DistinctTypes(assets[..|assets| - 1]);
      var t := assets[|assets| - 1].assetType;
      if t in earlier then earlier else earlier + [t]
  }

  /** Sum over the listed types of the squared share of the total. */
  function SquaredShares(types: seq<string>, assets: seq<Asset>, total: real): real
    requires total != 0.0
    decreases |types|
  {
    if |types| == 0 then 0.0
    else
      var weight := TypeValue(assets, types[|types| - 1]) / total;
      SquaredShares(types[..|types| - 1], assets, total) + weight * weight
  }

  /** The Herfindahl index: the sum of squared type weights. */
  function Hhi(assets: seq<Asset>): real
    requires TotalValue(assets) != 0.0
  {
    SquaredShares(DistinctTypes(assets), assets, TotalValue(assets))
  }

  /** The score the edge functions report: 0 for a worthless portfolio, else clamp(round((1 - HHI) K)). */
  function DiversificationScoreOf(assets: seq<Asset>, k: real): (score: int)
    ensures 0 <= score <= 100
    ensures TotalValue(assets) == 0.0 ==> score == 0
  {
    if TotalValue(assets) == 0.0 then 0 else Clamp(0, 100, Round((1.0 - Hhi(assets)) * k))
  }

  /** A type never seen holds no value. */
  lemma {:induction false} UnseenTypeHasNoValue(assets: seq<Asset>, t: string)
    requires t !in DistinctTypes(assets)
    ensures TypeValue(assets, t) == 0.0
    decreases |assets|
  {
    if |assets| > 0 {
      UnseenTypeHasNoValue(assets[..|assets| - 1], t);
    }
  }

  lemma ScoreFromHhi(assets: seq<Asset>, k: real, hhi: real)
    requires TotalValue(assets) != 0.0 && hhi == Hhi(assets)
    ensures Max(0, Min(100, Round((1.0 - hhi) * k))) == DiversificationScoreOf(assets, k)
  {
  }

  /** What one more asset does to the grouping. */
  lemma GroupStep(assets: seq<Asset>, i: nat)
    requires i < |assets|
    ensures DistinctTypes(assets[..i + 1])
         == if assets[i].assetType in DistinctTypes(assets[..i]) then DistinctTypes(assets[..i])
            else DistinctTypes(assets[..i]) + [assets[i].assetType]
    ensures forall t ::
              TypeValue(assets[..i + 1], t)
              == TypeValue(assets[..i], t) + (if assets[i].assetType == t then UnitTotal(assets[i]) else 0.0)
  {
    assert assets[..i + 1][..i] == assets[..i];
  }

  /**
   * The first `forEach` of `calculateDiversificationScore`: accumulate each
   * asset's input value under its type in the `typeWeights` dictionary; `keys`
   * lists the dictionary's keys in insertion order.
   */
  method GroupByType(assets: seq<Asset>) returns (typeWeights: map<string, real>, keys: seq<string>)
    ensures keys == DistinctTypes(assets)
    ensures forall t :: t in typeWeights <==> t in keys
    ensures forall t :: t in typeWeights ==> typeWeights[t] == TypeValue(assets, t)
  {
    typeWeights := map[];
    keys := [];
    var i := 0;
    while i < |assets|
      invariant 0 <= i <= |assets|
      invariant keys == DistinctTypes(assets[..i])
      invariant forall t :: t in typeWeights <==> t in keys
      invariant forall t :: t in typeWeights ==> typeWeights[t] == TypeValue(assets[..i], t)
    {
      var a := assets[i];
      GroupStep(assets, i);
      if a.assetType !in typeWeights {
        UnseenTypeHasNoValue(assets[..i], a.assetType);
      }
      var val := UnitTotal(a);
      var prev := if a.assetType in typeWeights then typeWeights[a.assetType] else 0.0;
      if a.assetType !in typeWeights {
        keys := keys + [a.assetType];
      }
      assert prev + val == TypeValue(assets[..i + 1], a.assetType);
      typeWeights := typeWeights[a.assetType := prev + val];
      forall t | t in typeWeights
        ensures typeWeights[t] == TypeValue(assets[..i + 1], t)
      {
        if t != a.assetType {
          assert typeWeights[t] == TypeValue(assets[..i], t);
        }
      }
      i := i + 1;
    }
    assert assets[..|assets|] == assets;
  }

  /**
   * `calculateDiversificationScore`: total the input value, group it by type
   * in a dictionary, sum the squared weights and scale by K.
   */
  method DiversificationScore(assets: seq<Asset>, k: real) returns (score: int)
    ensures score == DiversificationScoreOf(assets, k)
    ensures 0 <= score <= 100
    ensures TotalValue(assets) == 0.0 ==> score == 0
  {
    var totalValue := TotalValue(assets);
    if totalValue == 0.0 {
      return 0;
    }

    var typeWeights, keys := GroupByType(assets);
    var hhi := 0.0;
    var j := 0;
    while j < |keys|
      invariant 0 <= j <= |keys|
      invariant hhi == SquaredShares(keys[..j], assets, totalValue)
    {
      assert keys[..j + 1][..j] == keys[..j];
      var weight := typeWeights[keys[j]] / totalValue;
      hhi := hhi + weight * weight;
      j := j + 1;
    }
    assert keys[..|keys|] == keys;
    assert hhi == Hhi(assets);
    score := Max(0, Min(100, Round((1.0 - hhi) * k)));
    ScoreFromHhi(assets, k, hhi);
  }

  /** When every asset has type t, t is the only key and holds the whole value. */
  lemma {:induction false} SingleTypeGroups(assets: seq<Asset>, t: string)
    requires |assets| > 0
    requires forall i :: 0 <= i < |assets| ==> assets[i].assetType == t
    ensures DistinctTypes(assets) == [t]
    ensures TypeValue(assets, t) == TotalValue(assets)
    decreases |assets|
  {
    if |assets| > 1 {
      SingleTypeGroups(assets[..|assets| - 1], t);
    }
  }

  /** One key holding the whole total contributes a squared share of 1. */
  lemma WholeShare(assets: seq<Asset>, t: string, total: real)
    requires total != 0.0 && TypeValue(assets, t) == total
    ensures SquaredShares([t], assets, total) == 1.0
  {
    DivSelf(total);
    assert [t][..0] == [];
  }

  /** A portfolio held in a single asset type has HHI 1. */
  lemma SingleTypeHhi(assets: seq<Asset>, t: string)
    requires |assets| > 0
    requires forall i :: 0 <= i < |assets| ==> assets[i].assetType == t
    requires TotalValue(assets) != 0.0
    ensures Hhi(assets) == 1.0
  {
    SingleTypeGroups(assets, t);
    WholeShare(assets, t, TotalValue(assets));
  }

  /** ... and so a diversification score of 0, whatever the scale K. */
  lemma SingleTypeScoresZero(assets: seq<Asset>, t: string, k: real)
    requires |assets| > 0
    requires forall i :: 0 <= i < |assets| ==> assets[i].assetType == t
    ensures DiversificationScoreOf(assets, k) == 0
  {
    if TotalValue(assets) != 0.0 {
      SingleTypeHhi(assets, t);
      assert (1.0 - Hhi(assets)) * k == 0.0;
    }
  }

  /** The grouping of two assets of different types. */
  lemma TwoTypeGroups(assets: seq<Asset>)
    requires |assets| == 2 && assets[0].assetType != assets[1].assetType
    ensures DistinctTypes(assets) == [assets[0].assetType, assets[1].assetType]
    ensures TypeValue(assets, assets[0].assetType) == UnitTotal(assets[0])
    ensures TypeValue(assets, assets[1].assetType) == UnitTotal(assets[1])
    ensures TotalValue(assets) == UnitTotal(assets[0]) + UnitTotal(assets[1])
  {
    var first := assets[..1];
    assert first[..0] == [];
    assert assets[..|assets| - 1] == first;
    assert DistinctTypes(first) == [assets[0].assetType];
    assert TypeValue(first, assets[0].assetType) == UnitTotal(assets[0]);
    assert TypeValue(first, assets[1].assetType) == 0.0;
    assert TotalValue(first) == UnitTotal(assets[0]);
  }

  /** Two keys holding half the total each contribute 1/4 + 1/4. */
  lemma HalfShares(assets: seq<Asset>, t: string, u: string, v: real)
    requires v != 0.0 && TypeValue(assets, t) == v && TypeValue(assets, u) == v
    ensures SquaredShares([t, u], assets, v + v) == 0.5
  {
    HalfShare(v);
    var w := v / (v + v);
    assert [t, u][..1] == [t];
    assert [t][..0] == [];
    assert SquaredShares([t], assets, v + v) == w * w;
    assert SquaredShares([t, u], assets, v + v) == w * w + w * w;
  }

  /** Two asset types of equal, non-zero value give HHI 1/2. */
  lemma TwoEqualTypesHhi(assets: seq<Asset>)
    requires |assets| == 2 && assets[0].assetType != assets[1].assetType
    requires UnitTotal(assets[0]) == UnitTotal(assets[1]) != 0.0
    ensures TotalValue(assets) != 0.0 && Hhi(assets) == 0.5
  {
    TwoTypeGroups(assets);
    HalfShares(assets, assets[0].assetType, assets[1].assetType, UnitTotal(assets[0]));
  }

  /** ... so the score is round(K / 2): 63 with K = 125 and 68 with K = 135. */
  lemma TwoEqualTypesScore(assets: seq<Asset>)
    requires |assets| == 2 && assets[0].assetType != assets[1].assetType
    requires UnitTotal(assets[0]) == UnitTotal(assets[1]) != 0.0
    ensures DiversificationScoreOf(assets, 125.0) == 63
    ensures DiversificationScoreOf(assets, 135.0) == 68
  {
    TwoEqualTypesHhi(assets);
  }
}
