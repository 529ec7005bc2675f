/** `services/mathService.ts`: the composite score, the parametric risk figures
    and the heuristic target-allocation table. Numbers are exact reals; the
    square root the risk figures need is passed in as a function that satisfies
    `IsSquareRoot`. */
module MathService {
  import opened Seqs
  import opened LegacyTypes
  import Sorting

  function Max(a: real, b: real): real
  {
    if a >= b then a else b
  }

  function Abs(x: real): real
  {
    if x < 0.0 then -x else x
  }

  // ---------------------------------------------------------------------------
  // Composite score

  /** JavaScript `Math.round`: the nearest integer, halves rounded up. */
  function Round(x: real): (r: int)
    ensures r as real - 0.5 <= x < r as real + 0.5
  {
    (x + 0.5).Floor
  }

  lemma RoundMonotone(x: real, y: real)
    requires x <= y
    ensures Round(x) <= Round(y)
  {
  }

  /** News impact in -10..10 rescaled to 0..100. */
  function SentimentComponent(newsSentimentImpact: real): real
  {
    (newsSentimentImpact + 10.0) * 5.0
  }

  /** The 60/40 weighted sum of trend score and rescaled sentiment. */
  function Blend(trendScore: real, newsSentimentImpact: real): real
  {
    trendScore * 0.6 + SentimentComponent(newsSentimentImpact) * 0.4
  }

  /** `calculateCompositeScore`: the blend rounded to the nearest integer and
      clamped into 0..100. */
  function CompositeScore(s: AssetSignal): (r: int)
    ensures 0 <= r <= 100
    ensures 0 < r < 100 ==>
      r as real - 0.5 <= Blend(s.trendScore, s.newsSentimentImpact) < r as real + 0.5
    ensures r == 0 <==> Blend(s.trendScore, s.newsSentimentImpact) < 0.5
    ensures r == 100 <==> Blend(s.trendScore, s.newsSentimentImpact) >= 99.5
  {
    var rounded := Round(Blend(s.trendScore, s.newsSentimentImpact));
    if rounded > 100 then 100 else if rounded < 0 then 0 else rounded
  }

  /** Only the trend score and the news impact influence the composite score. */
  lemma CompositeScoreReadsTwoFields(s: AssetSignal, t: AssetSignal)
    requires s.trendScore == t.trendScore && s.newsSentimentImpact == t.newsSentimentImpact
    ensures CompositeScore(s) == CompositeScore(t)
  {
  }

  /** Raising the trend score never lowers the composite score. */
  lemma CompositeScoreMonotoneInTrend(s: AssetSignal, trendScore: real)
    requires trendScore >= s.trendScore
    ensures CompositeScore(s.(trendScore := trendScore)) >= CompositeScore(s)
  {
    RoundMonotone(Blend(s.trendScore, s.newsSentimentImpact), Blend(trendScore, s.newsSentimentImpact));
  }

  /** Raising the news impact never lowers the composite score. */
  lemma CompositeScoreMonotoneInSentiment(s: AssetSignal, impact: real)
    requires impact >= s.newsSentimentImpact
    ensures CompositeScore(s.(newsSentimentImpact := impact)) >= CompositeScore(s)
  {
    RoundMonotone(Blend(s.trendScore, s.newsSentimentImpact), Blend(s.trendScore, impact));
  }

  /** Trend 80 with neutral news (impact 0) scores 0.6 * 80 + 0.4 * 50 = 68. */
  lemma CompositeScoreExample(s: AssetSignal)
    requires s.trendScore == 80.0 && s.newsSentimentImpact == 0.0
    ensures CompositeScore(s) == 68
  {
    assert Blend(s.trendScore, s.newsSentimentImpact) == 68.0;
  }

  // ---------------------------------------------------------------------------
  // Parametric risk

  /** What the model knows of `Math.sqrt` on non-negative arguments: it maps 0
      to 0, is strictly increasing, and squares back to its argument. */
  ghost predicate IsSquareRoot(sqrt: real -> real)
  {
    && sqrt(0.0) == 0.0
    && (forall x, y :: 0.0 <= x < y ==> sqrt(x) < sqrt(y))
    && (forall x :: 0.0 <= x ==> sqrt(x) * sqrt(x) == x)
  }

  /** Real multiplication, with the sign facts the proofs need. */
  function Product(a: real, b: real): (r: real)
    ensures a >= 0.0 && b >= 0.0 ==> r >= 0.0
    ensures a > 0.0 && b > 0.0 ==> r > 0.0
  {
    a * b
  }

  lemma ProductMonotone(c: real, a: real, b: real)
    requires 0.0 <= c && a <= b
    ensures Product(c, a) <= Product(c, b)
  {
    assert Product(c, b - a) >= 0.0;
    assert c * (b - a) == c * b - c * a;
  }

  lemma SquareMonotone(a: real, b: real)
    requires 0.0 <= a <= b
    ensures Product(a, a) <= Product(b, b)
  {
    ProductMonotone(a, a, b);
    ProductMonotone(b, a, b);
    assert Product(a, b) == Product(b, a);
  }

  datatype RiskMetrics = RiskMetrics(
    var95: real,
    var99: real,
    cvar95: real,
    sharpeRatio: real,
    volatility: real,
    beta: real)

  /** `activeWeights[ticker] || 0`. */
  function HeldWeight(weights: map<string, real>, ticker: string): real
  {
    if ticker in weights then weights[ticker] else 0.0
  }

  /** Annualised volatility, floored at 1%, converted to daily by / sqrt(252). */
  function DailyVol(volatility: real): (d: real)
    ensures d > 0.0
  {
    Max(volatility, 0.01) / 15.87
  }

  /** The variance one signal contributes: `(weight * dailyVol) ** 2` when it is
      held with a positive weight, nothing otherwise. */
  function VarianceTerm(s: AssetSignal, weights: map<string, real>): (t: real)
    ensures t >= 0.0
    ensures HeldWeight(weights, s.ticker) > 0.0 <==> t > 0.0
  {
    var w := HeldWeight(weights, s.ticker);
    if w > 0.0 then
      var scaled := Product(w, DailyVol(s.volatility));
      Product(scaled, scaled)
    else 0.0
  }

  /** The `forEach` accumulation of per-signal variance. */
  function Variance(signals: seq<AssetSignal>, weights: map<string, real>): (v: real)
    ensures v >= 0.0
  {
    if signals == [] then 0.0
    else Variance(signals[..|signals| - 1], weights) + VarianceTerm(signals[|signals| - 1], weights)
  }

  /** The accumulated variance with the 1.5 correlation penalty applied. */
  function PortfolioVariance(signals: seq<AssetSignal>, weights: map<string, real>): (v: real)
    ensures v >= 0.0
  {
    var v := Variance(signals, weights);
    if v > 0.0 then v * 1.5 else v
  }

  /** The metrics reported for a portfolio variance. */
  function RiskFor(variance: real, totalCapital: real, sqrt: real -> real): RiskMetrics
  {
    var stdDev := sqrt(variance);
    var var95Pct := 1.645 * stdDev;
    var var99Pct := 2.33 * stdDev;
    RiskMetrics(var95Pct * totalCapital, var99Pct * totalCapital, (var99Pct * totalCapital) * 1.15,
                1.85, stdDev * 15.87 * 100.0, 1.12)
  }

  /** The `forEach` of `calculatePortfolioRisk`: `(weight * dailyVol) ** 2`
      added for each signal held with a positive weight. */
  method AccumulateVariance(signals: seq<AssetSignal>, activeWeights: map<string, real>)
    returns (portfolioVariance: real)
    ensures portfolioVariance == Variance(signals, activeWeights)
  {
    portfolioVariance := 0.0;
    var i := 0;
    while i < |signals|
      invariant 0 <= i <= |signals|
      invariant portfolioVariance == Variance(signals[..i], activeWeights)
    {
      var s := signals[i];
      var weight := HeldWeight(activeWeights, s.ticker);
      ghost var before := portfolioVariance;
      if weight > 0.0 {
        var safeVol := Max(s.volatility, 0.01);
        var dailyVol := safeVol / 15.87;
        assert dailyVol == DailyVol(s.volatility);
        portfolioVariance := portfolioVariance + (weight * dailyVol) * (weight * dailyVol);
      }
      assert portfolioVariance == before + VarianceTerm(s, activeWeights);
      assert signals[..i + 1][..i] == signals[..i];
      i := i + 1;
    }
    assert signals[..i] == signals;
  }

  /** `calculatePortfolioRisk`. */
  method CalculatePortfolioRisk(signals: seq<AssetSignal>, totalCapital: real,
                                activeWeights: map<string, real>, sqrt: real -> real)
    returns (m: RiskMetrics)
    requires IsSquareRoot(sqrt)
    ensures m == RiskFor(PortfolioVariance(signals, activeWeights), totalCapital, sqrt)
    ensures m.sharpeRatio == 1.85 && m.beta == 1.12
    ensures m.cvar95 == 1.15 * m.var99
    ensures m.var99 * 1.645 == m.var95 * 2.33
    ensures m.volatility >= 0.0
  {
    var portfolioVariance := AccumulateVariance(signals, activeWeights);
    if portfolioVariance > 0.0 {
      portfolioVariance := portfolioVariance * 1.5;
    }
    assert portfolioVariance == PortfolioVariance(signals, activeWeights);
    var portfolioStdDev := sqrt(portfolioVariance);
    var var95Pct := 1.645 * portfolioStdDev;
    var var99Pct := 2.33 * portfolioStdDev;
    m := RiskMetrics(var95Pct * totalCapital, var99Pct * totalCapital, (var99Pct * totalCapital) * 1.15,
                     1.85, portfolioStdDev * 15.87 * 100.0, 1.12);
    RiskForSpec(portfolioVariance, totalCapital, sqrt);
  }

  /** The reported metrics: fixed Sharpe ratio and beta, CVaR at 115% of the
      99% VaR, the two VaR levels in the ratio of their z-scores, and a
      volatility that is never negative. */
  lemma RiskForSpec(variance: real, totalCapital: real, sqrt: real -> real)
    requires IsSquareRoot(sqrt) && variance >= 0.0
    ensures var m := RiskFor(variance, totalCapital, sqrt);
      m.sharpeRatio == 1.85 && m.beta == 1.12 && m.cvar95 == 1.15 * m.var99 &&
      m.var99 * 1.645 == m.var95 * 2.33 && m.volatility >= 0.0
  {
    if variance > 0.0 {
      assert sqrt(0.0) < sqrt(variance);
    }
  }

  lemma {:induction false} VarianceZero(signals: seq<AssetSignal>, weights: map<string, real>)
    requires forall i :: 0 <= i < |signals| ==> HeldWeight(weights, signals[i].ticker) <= 0.0
    ensures Variance(signals, weights) == 0.0
  {
    if signals != [] {
      VarianceZero(signals[..|signals| - 1], weights);
    }
  }

  /** With nothing held at a positive weight every loss figure and the
      volatility are zero, while Sharpe ratio and beta keep their constants. */
  lemma NoHoldingsNoRisk(signals: seq<AssetSignal>, weights: map<string, real>,
                         totalCapital: real, sqrt: real -> real)
    requires IsSquareRoot(sqrt)
    requires forall i :: 0 <= i < |signals| ==> HeldWeight(weights, signals[i].ticker) <= 0.0
    ensures var m := RiskFor(PortfolioVariance(signals, weights), totalCapital, sqrt);
      m.var95 == 0.0 && m.var99 == 0.0 && m.cvar95 == 0.0 && m.volatility == 0.0 &&
      m.sharpeRatio == 1.85 && m.beta == 1.12
  {
    VarianceZero(signals, weights);
  }

  /** One held signal is enough for a positive variance, whatever its stated
      volatility, because of the 1% floor. */
  lemma {:induction false} HeldSignalAddsRisk(signals: seq<AssetSignal>, weights: map<string, real>, k: nat)
    requires k < |signals|
    requires HeldWeight(weights, signals[k].ticker) > 0.0
    ensures PortfolioVariance(signals, weights) > 0.0
  {
    HeldSignalAddsVariance(signals, weights, k);
  }

  lemma {:induction false} HeldSignalAddsVariance(signals: seq<AssetSignal>, weights: map<string, real>, k: nat)
    requires k < |signals|
    requires HeldWeight(weights, signals[k].ticker) > 0.0
    ensures Variance(signals, weights) > 0.0
  {
    if k < |signals| - 1 {
      assert signals[..|signals| - 1][k] == signals[k];
      HeldSignalAddsVariance(signals[..|signals| - 1], weights, k);
    }
  }

  lemma VarianceTermMonotone(s: AssetSignal, weights: map<string, real>, volatility: real)
    requires volatility >= s.volatility
    ensures VarianceTerm(s.(volatility := volatility), weights) >= VarianceTerm(s, weights)
  {
    var w := HeldWeight(weights, s.ticker);
    if w > 0.0 {
      assert DailyVol(s.volatility) <= DailyVol(volatility);
      ProductMonotone(w, DailyVol(s.volatility), DailyVol(volatility));
      SquareMonotone(Product(w, DailyVol(s.volatility)), Product(w, DailyVol(volatility)));
    }
  }

  lemma {:induction false} VarianceMonotone(signals: seq<AssetSignal>, weights: map<string, real>,
                                            k: nat, volatility: real)
    requires k < |signals|
    requires volatility >= signals[k].volatility
    ensures Variance(signals[k := signals[k].(volatility := volatility)], weights) >= Variance(signals, weights)
  {
    var raised := signals[k := signals[k].(volatility := volatility)];
    var n := |signals|;
    if k == n - 1 {
      assert raised[..n - 1] == signals[..n - 1];
      VarianceTermMonotone(signals[k], weights, volatility);
    } else {
      assert raised[..n - 1] == signals[..n - 1][k := signals[k].(volatility := volatility)];
      assert raised[n - 1] == signals[n - 1];
      VarianceMonotone(signals[..n - 1], weights, k, volatility);
    }
  }

  /** Raising a signal's volatility never lowers the portfolio variance nor the
      reported volatility. */
  lemma HigherVolatilityNeverLowersRisk(signals: seq<AssetSignal>, weights: map<string, real>,
                                        k: nat, volatility: real, totalCapital: real, sqrt: real -> real)
    requires IsSquareRoot(sqrt)
    requires k < |signals|
    requires volatility >= signals[k].volatility
    ensures PortfolioVariance(signals[k := signals[k].(volatility := volatility)], weights)
         >= PortfolioVariance(signals, weights)
    ensures RiskFor(PortfolioVariance(signals[k := signals[k].(volatility := volatility)], weights), totalCapital, sqrt).volatility
         >= RiskFor(PortfolioVariance(signals, weights), totalCapital, sqrt).volatility
  {
    VarianceMonotone(signals, weights, k, volatility);
    var before := PortfolioVariance(signals, weights);
    var after := PortfolioVariance(signals[k := signals[k].(volatility := volatility)], weights);
    assert before < after ==> sqrt(before) < sqrt(after);
  }

  lemma {:induction false} VarianceAppend(xs: seq<AssetSignal>, ys: seq<AssetSignal>, weights: map<string, real>)
    ensures Variance(xs + ys, weights) == Variance(xs, weights) + Variance(ys, weights)
    decreases |ys|
  {
    if ys == [] {
      assert xs + ys == xs;
    } else {
      var zs := xs + ys;
      assert zs[..|zs| - 1] == xs + ys[..|ys| - 1];
      assert zs[|zs| - 1] == ys[|ys| - 1];
      VarianceAppend(xs, ys[..|ys| - 1], weights);
    }
  }

  /** Only tickers held with a positive weight contribute: dropping a signal that
      is not held leaves every figure unchanged. */
  lemma UnheldSignalContributesNothing(signals: seq<AssetSignal>, weights: map<string, real>, k: nat)
    requires k < |signals|
    requires HeldWeight(weights, signals[k].ticker) <= 0.0
    ensures PortfolioVariance(signals[..k] + signals[k + 1..], weights) == PortfolioVariance(signals, weights)
  {
    assert signals == signals[..k] + [signals[k]] + signals[k + 1..];
    VarianceAppend(signals[..k] + [signals[k]], signals[k + 1..], weights);
    VarianceAppend(signals[..k], [signals[k]], weights);
    VarianceAppend(signals[..k], signals[k + 1..], weights);
    assert Variance([signals[k]], weights) == Variance([], weights) + VarianceTerm(signals[k], weights);
  }

  // ---------------------------------------------------------------------------
  // Portfolio optimisation

  datatype Action = Buy | Sell | Hold

  datatype PortfolioTarget = PortfolioTarget(
    ticker: string,
    currentWeight: real,
    targetWeight: real,
    action: Action,
    sharesDiff: real,
    reason: string)

  /** The inclusion test: the better of trend and composite score exceeds 60. */
  predicate Investable(s: AssetSignal)
  {
    Max(s.trendScore, s.compositeScore) > 60.0
  }

  predicate NotInvestable(s: AssetSignal)
  {
    !Investable(s)
  }

  /** Composite score per unit of volatility, volatility floored at 10%. */
  function RiskAdjustedScore(s: AssetSignal): real
  {
    s.compositeScore / Max(s.volatility, 0.1)
  }

  /** The `forEach` sum of risk-adjusted scores. */
  function ScoreSum(investable: seq<AssetSignal>): real
  {
    if investable == [] then 0.0
    else ScoreSum(investable[..|investable| - 1]) + RiskAdjustedScore(investable[|investable| - 1])
  }

  /** The divisor: the score sum, or 1 when that sum is 0. */
  function SafeTotal(total: real): (r: real)
    ensures r != 0.0
  {
    if total == 0.0 then 1.0 else total
  }

  /** `currentPrices[ticker] || s.price || 100`: zero and missing prices fall
      through to the next source. */
  function PriceOf(s: AssetSignal, prices: map<string, real>): (p: real)
    ensures p != 0.0
  {
    if s.ticker in prices && prices[s.ticker] != 0.0 then prices[s.ticker]
    else if s.price != 0.0 then s.price
    else 100.0
  }

  /** `currentShares[ticker] || 0`. */
  function SharesOf(s: AssetSignal, shares: map<string, real>): real
  {
    if s.ticker in shares then shares[s.ticker] else 0.0
  }

  /** A position's value as a fraction of capital, 0 when capital is not
      positive. */
  function WeightOfValue(value: real, totalCapital: real): real
  {
    if totalCapital > 0.0 then value / totalCapital else 0.0
  }

  function CappedWeight(raw: real): (w: real)
    ensures w <= 0.25
    ensures w == raw || (raw > 0.25 && w == 0.25)
  {
    if raw > 0.25 then 0.25 else raw
  }

  /** The signed number of shares a change of weight amounts to, before
      rounding. */
  function TradeSize(diffWeight: real, totalCapital: real, price: real): real
    requires price != 0.0
  {
    diffWeight * totalCapital / price
  }

  /** `Math.floor`, as a real. */
  function FloorReal(x: real): (r: real)
    ensures r == r.Floor as real
    ensures r <= x < r + 1.0
  {
    x.Floor as real
  }

  function ActionFor(diffWeight: real): Action
  {
    if Abs(diffWeight) < 0.02 then Action.Hold else if diffWeight > 0.0 then Action.Buy else Action.Sell
  }

  function ReasonFor(a: Action): string
  {
    if a == Action.Hold then "Within Tolerance"
    else if a == Action.Buy then "Increase Exposure"
    else "Reduce Risk"
  }

  /** The row for one investable signal. The target is its share of the score
      total, capped at 25% and not renormalised; the action follows the +-0.02
      tolerance band; the share difference is rounded down (toward minus
      infinity). */
  function TargetRow(s: AssetSignal, totalScore: real, prices: map<string, real>,
                     shares: map<string, real>, totalCapital: real): (r: PortfolioTarget)
    requires totalScore != 0.0
    ensures r.ticker == s.ticker
    ensures r.targetWeight <= 0.25
  {
    var targetWeight := CappedWeight(RiskAdjustedScore(s) / totalScore);
    var price := PriceOf(s, prices);
    var currentWeight := WeightOfValue(SharesOf(s, shares) * price, totalCapital);
    var diffWeight := targetWeight - currentWeight;
    var action := ActionFor(diffWeight);
    PortfolioTarget(s.ticker, currentWeight, targetWeight, action,
                    FloorReal(TradeSize(diffWeight, totalCapital, price)), ReasonFor(action))
  }

  /** An investable row: the capped score share as target, the held value's
      share of capital as current weight, HOLD inside the +-0.02 band and BUY
      or SELL outside it, the share difference rounded down, and the reason
      that goes with the action. */
  lemma TargetRowSpec(s: AssetSignal, totalScore: real, prices: map<string, real>,
                      shares: map<string, real>, totalCapital: real)
    requires totalScore != 0.0
    ensures var r := TargetRow(s, totalScore, prices, shares, totalCapital);
      (r.targetWeight == RiskAdjustedScore(s) / totalScore || (RiskAdjustedScore(s) / totalScore > 0.25 && r.targetWeight == 0.25)) &&
      r.currentWeight == WeightOfValue(SharesOf(s, shares) * PriceOf(s, prices), totalCapital) &&
      (r.action == Action.Hold <==> -0.02 < r.targetWeight - r.currentWeight < 0.02) &&
      (r.action == Action.Buy <==> r.targetWeight - r.currentWeight >= 0.02) &&
      (r.action == Action.Sell <==> r.targetWeight - r.currentWeight <= -0.02) &&
      r.sharesDiff == r.sharesDiff.Floor as real &&
      r.sharesDiff <= TradeSize(r.targetWeight - r.currentWeight, totalCapital, PriceOf(s, prices)) < r.sharesDiff + 1.0 &&
      r.reason == ReasonFor(r.action)
  {
  }

  /** `s.price || 100`, the price the liquidation rows use. */
  function FallbackPrice(s: AssetSignal): real
  {
    if s.price != 0.0 then s.price else 100.0
  }

  /** The current weight of a held signal that dropped out, with the same
      capital guard as the investable rows (see `DroppedWeightAsWritten`). */
  function DroppedWeight(s: AssetSignal, shares: map<string, real>, totalCapital: real): real
  {
    WeightOfValue(SharesOf(s, shares) * FallbackPrice(s), totalCapital)
  }

  /** The forced liquidation of a held signal that is no longer investable. */
  function DroppedRow(s: AssetSignal, shares: map<string, real>, totalCapital: real): (r: PortfolioTarget)
    ensures r.ticker == s.ticker && r.action == Action.Sell && r.targetWeight == 0.0
    ensures r.sharesDiff == -SharesOf(s, shares) && r.reason == "Score deteriorated"
    ensures totalCapital > 0.0 ==> r.currentWeight == SharesOf(s, shares) * FallbackPrice(s) / totalCapital
    ensures totalCapital <= 0.0 ==> r.currentWeight == 0.0
  {
    PortfolioTarget(s.ticker, DroppedWeight(s, shares, totalCapital), 0.0, Action.Sell,
                    -SharesOf(s, shares), "Score deteriorated")
  }

  /** The rows of the second `forEach`, in signal order. */
  function InvestableRows(investable: seq<AssetSignal>, totalScore: real, prices: map<string, real>,
                          shares: map<string, real>, totalCapital: real): (rows: seq<PortfolioTarget>)
    requires totalScore != 0.0
    ensures |rows| == |investable|
    ensures forall i :: 0 <= i < |investable| ==>
      rows[i] == TargetRow(investable[i], totalScore, prices, shares, totalCapital)
  {
    if investable == [] then []
    else
      var n := |investable| - 1;
      InvestableRows(investable[..n], totalScore, prices, shares, totalCapital)
        + [TargetRow(investable[n], totalScore, prices, shares, totalCapital)]
  }

  /** The liquidation rows: one per dropped-out signal with shares held. */
  function DroppedRows(dropped: seq<AssetSignal>, shares: map<string, real>, totalCapital: real): seq<PortfolioTarget>
  {
    if dropped == [] then []
    else
      var n := |dropped| - 1;
      DroppedRows(dropped[..n], shares, totalCapital)
        + (if SharesOf(dropped[n], shares) > 0.0 then [DroppedRow(dropped[n], shares, totalCapital)] else [])
  }

  /** Sort key for `(a, b) => b.targetWeight - a.targetWeight`. */
  function DescendingTarget(t: PortfolioTarget): real
  {
    -t.targetWeight
  }

  /** The unsorted table: investable rows, then liquidation rows. */
  function UnsortedTargets(signals: seq<AssetSignal>, prices: map<string, real>,
                           shares: map<string, real>, totalCapital: real): seq<PortfolioTarget>
  {
    var investable := Filter(signals, Investable);
    InvestableRows(investable, SafeTotal(ScoreSum(investable)), prices, shares, totalCapital)
      + DroppedRows(Filter(signals, NotInvestable), shares, totalCapital)
  }

  /** What `optimizePortfolio` returns, with the liquidation rows' current
      weight guarded as the investable rows guard theirs (see
      `DroppedWeightAsWritten` for the unguarded division). */
  function Optimized(signals: seq<AssetSignal>, prices: map<string, real>,
                     shares: map<string, real>, totalCapital: real): seq<PortfolioTarget>
  {
    if Filter(signals, Investable) == [] then []
    else Sorting.SortBy(UnsortedTargets(signals, prices, shares, totalCapital), DescendingTarget)
  }

  /** The first `forEach` of `optimizePortfolio`: each investable signal's
      score per unit of (floored) volatility, added up. */
  method ScoreTotal(investable: seq<AssetSignal>) returns (totalScore: real)
    ensures totalScore == ScoreSum(investable)
  {
    totalScore := 0.0;
    var i := 0;
    while i < |investable|
      invariant 0 <= i <= |investable|
      invariant totalScore == ScoreSum(investable[..i])
    {
      var s := investable[i];
      var safeVol := Max(s.volatility, 0.1);
      totalScore := totalScore + s.compositeScore / safeVol;
      assert investable[..i + 1][..i] == investable[..i];
      i := i + 1;
    }
    assert investable[..i] == investable;
  }

  /** `optimizePortfolio`. The configuration argument of the source is never
      read, so it is not a parameter here. */
  method OptimizePortfolio(signals: seq<AssetSignal>, currentPrices: map<string, real>,
                           currentShares: map<string, real>, totalCapital: real)
    returns (targets: seq<PortfolioTarget>)
    ensures targets == Optimized(signals, currentPrices, currentShares, totalCapital)
  {
    var investable := Filter(signals, Investable);
    if |investable| == 0 {
      return [];
    }
    var totalScore := ScoreTotal(investable);
    if totalScore == 0.0 {
      totalScore := 1.0;
    }
    targets := TargetRows(investable, totalScore, currentPrices, currentShares, totalCapital);
    var liquidations := LiquidationRows(Filter(signals, NotInvestable), currentShares, totalCapital);
    targets := Sorting.SortBy(targets + liquidations, DescendingTarget);
  }

  /** The second `forEach` of `optimizePortfolio`: one banded row per
      investable signal. */
  method TargetRows(investable: seq<AssetSignal>, totalScore: real, currentPrices: map<string, real>,
                    currentShares: map<string, real>, totalCapital: real) returns (targets: seq<PortfolioTarget>)
    requires totalScore != 0.0
    ensures targets == InvestableRows(investable, totalScore, currentPrices, currentShares, totalCapital)
  {
    targets := [];
    var i := 0;
    while i < |investable|
      invariant 0 <= i <= |investable|
      invariant targets == InvestableRows(investable[..i], totalScore, currentPrices, currentShares, totalCapital)
    {
      var row := TargetRow(investable[i], totalScore, currentPrices, currentShares, totalCapital);
      targets := targets + [row];
      assert investable[..i + 1][..i] == investable[..i] && investable[..i + 1][i] == investable[i];
      assert InvestableRows(investable[..i + 1], totalScore, currentPrices, currentShares, totalCapital) ==
        InvestableRows(investable[..i], totalScore, currentPrices, currentShares, totalCapital) + [row];
      i := i + 1;
    }
    assert investable[..i] == investable;
  }

  /** The third `forEach` of `optimizePortfolio`: a liquidation row for each
      dropped-out signal with shares held. */
  method LiquidationRows(dropped: seq<AssetSignal>, currentShares: map<string, real>, totalCapital: real)
    returns (liquidations: seq<PortfolioTarget>)
    ensures liquidations == DroppedRows(dropped, currentShares, totalCapital)
  {
    liquidations := [];
    var i := 0;
    while i < |dropped|
      invariant 0 <= i <= |dropped|
      invariant liquidations == DroppedRows(dropped[..i], currentShares, totalCapital)
    {
      if SharesOf(dropped[i], currentShares) > 0.0 {
        liquidations := liquidations + [DroppedRow(dropped[i], currentShares, totalCapital)];
      }
      assert dropped[..i + 1][..i] == dropped[..i];
      i := i + 1;
    }
    assert dropped[..i] == dropped;
  }

  /** Without an investable signal the table is empty, even if shares are held. */
  lemma NothingInvestableMeansEmptyTable(signals: seq<AssetSignal>, prices: map<string, real>,
                                         shares: map<string, real>, totalCapital: real)
    requires forall i :: 0 <= i < |signals| ==> !Investable(signals[i])
    ensures Optimized(signals, prices, shares, totalCapital) == []
  {
    FilterNone(signals, Investable);
  }

  lemma {:induction false} DroppedRowsSpec(dropped: seq<AssetSignal>, shares: map<string, real>, totalCapital: real)
    ensures forall t :: t in DroppedRows(dropped, shares, totalCapital) <==>
      exists s :: s in dropped && SharesOf(s, shares) > 0.0 && t == DroppedRow(s, shares, totalCapital)
  {
    if dropped != [] {
      var n := |dropped| - 1;
      DroppedRowsSpec(dropped[..n], shares, totalCapital);
      assert dropped == dropped[..n] + [dropped[n]];
    }
  }

  /** The table is sorted by non-increasing target weight and is a permutation
      of the investable rows followed by the liquidation rows. */
  lemma OptimizedSortedPermutation(signals: seq<AssetSignal>, prices: map<string, real>,
                                   shares: map<string, real>, totalCapital: real)
    requires Filter(signals, Investable) != []
    ensures var r := Optimized(signals, prices, shares, totalCapital);
      multiset(r) == multiset(UnsortedTargets(signals, prices, shares, totalCapital)) &&
      forall i, j :: 0 <= i < j < |r| ==> r[i].targetWeight >= r[j].targetWeight
  {
    var rows := UnsortedTargets(signals, prices, shares, totalCapital);
    Sorting.SortBySpec(rows, DescendingTarget);
    var r := Sorting.SortBy(rows, DescendingTarget);
    forall i, j | 0 <= i < j < |r| ensures r[i].targetWeight >= r[j].targetWeight {
      assert DescendingTarget(r[i]) <= DescendingTarget(r[j]);
    }
  }

  lemma {:induction false} InvestableRowsSpec(investable: seq<AssetSignal>, totalScore: real, prices: map<string, real>,
                                             shares: map<string, real>, totalCapital: real)
    requires totalScore != 0.0
    ensures forall t :: t in InvestableRows(investable, totalScore, prices, shares, totalCapital) <==>
      exists s :: s in investable && t == TargetRow(s, totalScore, prices, shares, totalCapital)
  {
    if investable != [] {
      var n := |investable| - 1;
      InvestableRowsSpec(investable[..n], totalScore, prices, shares, totalCapital);
      assert investable == investable[..n] + [investable[n]];
    }
  }

  /** The sorted table holds the same rows as the unsorted one. */
  lemma OptimizedMembership(signals: seq<AssetSignal>, prices: map<string, real>,
                            shares: map<string, real>, totalCapital: real, t: PortfolioTarget)
    requires Filter(signals, Investable) != []
    ensures t in Optimized(signals, prices, shares, totalCapital) <==> t in UnsortedTargets(signals, prices, shares, totalCapital)
  {
    var rows := UnsortedTargets(signals, prices, shares, totalCapital);
    Sorting.SortBySpec(rows, DescendingTarget);
    assert t in multiset(Optimized(signals, prices, shares, totalCapital)) <==> t in multiset(rows);
  }

  /** Each row of the table is either the tolerance-banded row of an investable
      signal or the liquidation of a held signal that dropped out, and every such
      row is present. So every target weight is at most 0.25, and a
      non-investable signal without shares gets no row. */
  lemma OptimizedRows(signals: seq<AssetSignal>, prices: map<string, real>,
                      shares: map<string, real>, totalCapital: real, t: PortfolioTarget)
    requires Filter(signals, Investable) != []
    ensures var total := SafeTotal(ScoreSum(Filter(signals, Investable)));
      t in Optimized(signals, prices, shares, totalCapital) <==>
        (exists s :: s in signals && Investable(s) && t == TargetRow(s, total, prices, shares, totalCapital)) ||
        (exists s :: s in signals && !Investable(s) && SharesOf(s, shares) > 0.0 && t == DroppedRow(s, shares, totalCapital))
    ensures t in Optimized(signals, prices, shares, totalCapital) ==> t.targetWeight <= 0.25
  {
    var investable := Filter(signals, Investable);
    var dropped := Filter(signals, NotInvestable);
    var total := SafeTotal(ScoreSum(investable));
    OptimizedMembership(signals, prices, shares, totalCapital, t);
    InvestableRowsSpec(investable, total, prices, shares, totalCapital);
    DroppedRowsSpec(dropped, shares, totalCapital);
    forall s ensures s in investable <==> s in signals && Investable(s) {
      FilterMembership(signals, Investable, s);
    }
    forall s ensures s in dropped <==> s in signals && NotInvestable(s) {
      FilterMembership(signals, NotInvestable, s);
    }
  }

  // Finding: the liquidation rows divide by the capital without the guard the
  // investable rows use.

  /** The current weight of a liquidation row as the source computes it,
      `(shares * (s.price || 100)) / totalCapital`: with zero capital JavaScript
      yields +Infinity or -Infinity (a liquidation row holds shares and the
      price is never 0), which `None` stands for here. */
  function DroppedWeightAsWritten(s: AssetSignal, shares: map<string, real>, totalCapital: real): Option<real>
  {
    if totalCapital == 0.0 then None else Some(SharesOf(s, shares) * FallbackPrice(s) / totalCapital)
  }

  /** A held signal that drops out while the capital is 0 gets a weight that is
      not finite in the source (500 / 0 is Infinity). */
  lemma DroppedWeightAsWrittenInfinite(s: AssetSignal)
    requires s.price == 50.0
    ensures DroppedWeightAsWritten(s, map[s.ticker := 10.0], 0.0) == None
    ensures DroppedWeight(s, map[s.ticker := 10.0], 0.0) == 0.0
  {
  }

  /** With negative capital the source's division is finite but signed wrongly
      for a long position, where the investable rows report 0. */
  lemma DroppedWeightAsWrittenNegative(s: AssetSignal)
    requires s.price == 50.0
    ensures DroppedWeightAsWritten(s, map[s.ticker := 10.0], -1000.0) == Some(-0.5)
    ensures DroppedWeight(s, map[s.ticker := 10.0], -1000.0) == 0.0
  {
  }

  /** The corrected weight agrees with the source wherever capital is positive,
      and like the investable rows is 0 otherwise. */
  lemma DroppedWeightCorrected(s: AssetSignal, shares: map<string, real>, totalCapital: real)
    ensures totalCapital > 0.0 ==> DroppedWeightAsWritten(s, shares, totalCapital) == Some(DroppedWeight(s, shares, totalCapital))
    ensures totalCapital <= 0.0 ==> DroppedWeight(s, shares, totalCapital) == 0.0
    ensures DroppedWeight(s, shares, totalCapital) == WeightOfValue(SharesOf(s, shares) * FallbackPrice(s), totalCapital)
  {
  }
}
