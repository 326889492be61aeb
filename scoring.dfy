/**
 * The momentum scorer: fixed bands turn one resolution's indicators into
 * sub-scores, the sub-scores are mixed with the fixed scoring weights, and the
 * resolutions that have indicators are averaged with their resolution weights
 * renormalised over those resolutions.
 */
module Scoring {
  import opened Wrappers
  import opened Timeframes
  import opened Indicators

  /** What the analyzer keeps for one fetched resolution: the candles and their indicators, if any. */
  datatype TimeframeData = TimeframeData(candles: seq<Candle>, indicators: Option<IndicatorSet>)

  /** The per-resolution data of one pair; a key is present only for a resolution whose fetch returned bars. */
  type PairData = map<Timeframe, TimeframeData>

  /** The analysis of one pair. */
  datatype PairResult = PairResult(pair: string, momentumScore: real, timeframeData: PairData)

  function Min(a: real, b: real): real { if a <= b then a else b }

  function Max(a: real, b: real): real { if a >= b then a else b }

  /**
   * The relative-strength band score. The bands are tested in the order
   * [50, 70], (70, 80], above 80, [40, 50), and everything else scores 0.2.
   */
  function RsiScore(rsi: real): (r: real)
    ensures r == 0.8 <==> 50.0 <= rsi <= 70.0
    ensures r == 0.6 <==> 70.0 < rsi <= 80.0
    ensures r == 0.3 <==> 80.0 < rsi
    ensures r == 0.4 <==> 40.0 <= rsi < 50.0
    ensures r == 0.2 <==> rsi < 40.0
  {
    if 50.0 <= rsi <= 70.0 then 0.8
    else if 70.0 < rsi <= 80.0 then 0.6
    else if rsi > 80.0 then 0.3
    else if 40.0 <= rsi < 50.0 then 0.4
    else 0.2
  }

  /** The band boundaries: 40 falls in the 0.4 band, 70 in the 0.8 band and 80 in the 0.6 band. */
  lemma RsiBandBoundaries()
    ensures RsiScore(39.999) == 0.2 && RsiScore(40.0) == 0.4 && RsiScore(49.999) == 0.4
    ensures RsiScore(50.0) == 0.8 && RsiScore(70.0) == 0.8 && RsiScore(70.001) == 0.6
    ensures RsiScore(80.0) == 0.6 && RsiScore(80.001) == 0.3
  {
  }

  /**
   * The volume score as the source writes it, with one branch for ratios of
   * at least 1.5 and one for the rest. Both branches compute the capped
   * ratio, so there is no jump at 1.5.
   */
  function VolumeScore(ratio: real): (r: real)
    ensures r == Min(ratio / 1.5, 1.0)
    ensures r == 1.0 <==> ratio >= 1.5
    ensures ratio >= 0.0 ==> 0.0 <= r <= 1.0
  {
    if ratio >= 1.5 then Min(ratio / 1.5, 1.0) else ratio / 1.5
  }

  /** The price score: the percentage change scaled by 1/10 around 0.5, clamped to [0, 1]. */
  function PriceScore(change: real): (r: real)
    ensures 0.0 <= r <= 1.0
    ensures change == 0.0 ==> r == 0.5
    ensures r == 0.0 <==> change <= -5.0
    ensures r == 1.0 <==> change >= 5.0
  {
    Min(Max(change / 10.0 + 0.5, 0.0), 1.0)
  }

  /** A larger price change never gives a smaller price score. */
  lemma PriceScoreMonotone(a: real, b: real)
    requires a <= b
    ensures PriceScore(a) <= PriceScore(b)
  {
  }

  /** The score of one resolution: the weighted sum of its four sub-scores. */
  function TimeframeScore(ind: IndicatorSet): (r: real)
    ensures ind.volumeRatio >= 0.0 ==> 0.24 <= r <= 0.76
  {
    BaseBullishScore * ScoringWeight(BaseBullish)
    + RsiScore(ind.rsi) * ScoringWeight(Rsi)
    + VolumeScore(ind.volumeRatio) * ScoringWeight(Volume)
    + PriceScore(ind.priceChange) * ScoringWeight(PriceChange)
  }

  /** The resolution was fetched and its series produced indicators. */
  predicate HasIndicators(data: PairData, tf: Timeframe) {
    tf in data && data[tf].indicators.Some?
  }

  /** The contribution of one resolution to the weighted sum: its score times its weight, or nothing. */
  function ScoreTerm(data: PairData, tf: Timeframe): real {
    if HasIndicators(data, tf) then TimeframeScore(data[tf].indicators.value) * Weight(tf) else 0.0
  }

  /** The contribution of one resolution to the present weight: its weight, or nothing. */
  function WeightTerm(data: PairData, tf: Timeframe): real {
    if HasIndicators(data, tf) then Weight(tf) else 0.0
  }

  /** Sum of score times weight over the resolutions of `tfs` that have indicators. */
  function WeightedScoreSum(data: PairData, tfs: seq<Timeframe>): real {
    if tfs == [] then 0.0
    else WeightedScoreSum(data, tfs[..|tfs| - 1]) + ScoreTerm(data, tfs[|tfs| - 1])
  }

  /** Sum of the weights of the resolutions of `tfs` that have indicators. */
  function PresentWeight(data: PairData, tfs: seq<Timeframe>): real {
    if tfs == [] then 0.0
    else PresentWeight(data, tfs[..|tfs| - 1]) + WeightTerm(data, tfs[|tfs| - 1])
  }

  /**
   * The momentum score of a pair: the average of the resolution scores,
   * weighted by resolution weight and renormalised over the resolutions that
   * have indicators; 0 when none has.
   */
  function MomentumScore(data: PairData): real {
    var w := PresentWeight(data, AllTimeframes);
    if w > 0.0 then WeightedScoreSum(data, AllTimeframes) / w else 0.0
  }

  /** `calculate_momentum_score`: one pass over the resolutions accumulating both sums. */
  method CalculateMomentumScore(data: PairData) returns (score: real)
    ensures score == MomentumScore(data)
  {
    var totalScore := 0.0;
    var totalWeight := 0.0;
    for i := 0 to |AllTimeframes|
      invariant totalScore == WeightedScoreSum(data, AllTimeframes[..i])
      invariant totalWeight == PresentWeight(data, AllTimeframes[..i])
    {
      var tf := AllTimeframes[i];
      assert AllTimeframes[..i + 1][..i] == AllTimeframes[..i];
      if tf in data && data[tf].indicators.Some? {
        var indicators := data[tf].indicators.value;
        var weight := Weight(tf);
        var tfScore := TimeframeScore(indicators);
        totalScore := totalScore + tfScore * weight;
        totalWeight := totalWeight + weight;
      }
    }
    assert AllTimeframes[..|AllTimeframes|] == AllTimeframes;
    score := if totalWeight > 0.0 then totalScore / totalWeight else 0.0;
  }

  lemma {:induction false} PresentWeightNonNegative(data: PairData, tfs: seq<Timeframe>)
    ensures PresentWeight(data, tfs) >= 0.0
  {
    if tfs != [] {
      PresentWeightNonNegative(data, tfs[..|tfs| - 1]);
    }
  }

  /** A resolution of `tfs` with indicators makes the present weight positive. */
  lemma {:induction false} PresentWeightPositive(data: PairData, tfs: seq<Timeframe>, tf: Timeframe)
    requires tf in tfs && HasIndicators(data, tf)
    ensures PresentWeight(data, tfs) > 0.0
  {
    var last := tfs[|tfs| - 1];
    PresentWeightNonNegative(data, tfs[..|tfs| - 1]);
    if last != tf {
      assert tfs == tfs[..|tfs| - 1] + [last];
      PresentWeightPositive(data, tfs[..|tfs| - 1], tf);
    }
  }

  /** Without any resolution that has indicators, both sums are zero. */
  lemma {:induction false} SumsWithoutIndicators(data: PairData, tfs: seq<Timeframe>)
    requires forall tf :: !HasIndicators(data, tf)
    ensures PresentWeight(data, tfs) == 0.0 && WeightedScoreSum(data, tfs) == 0.0
  {
    if tfs != [] {
      SumsWithoutIndicators(data, tfs[..|tfs| - 1]);
    }
  }

  /** A pair none of whose resolutions has indicators scores 0. */
  lemma MomentumWithoutIndicators(data: PairData)
    requires forall tf :: !HasIndicators(data, tf)
    ensures MomentumScore(data) == 0.0
  {
    SumsWithoutIndicators(data, AllTimeframes);
  }

  /** One step of the bound: adding a term whose score lies in [lo, hi] keeps the sum between the bounds. */
  lemma StepBounds(w0: real, s0: real, x: real, w: real, lo: real, hi: real)
    requires lo * w0 <= s0 <= hi * w0
    requires lo <= x <= hi && w >= 0.0
    ensures lo * (w0 + w) <= s0 + x * w <= hi * (w0 + w)
  {
    assert lo * w <= x * w <= hi * w;
  }

  /** Each resolution score lies in [0.24, 0.76], so the weighted sum lies between 0.24 and 0.76 times the weight. */
  lemma {:induction false} WeightedSumBounds(data: PairData, tfs: seq<Timeframe>)
    requires forall tf | HasIndicators(data, tf) :: data[tf].indicators.value.volumeRatio >= 0.0
    ensures 0.24 * PresentWeight(data, tfs) <= WeightedScoreSum(data, tfs) <= 0.76 * PresentWeight(data, tfs)
  {
    var lo, hi := 0.24, 0.76;
    if tfs != [] {
      var tf := tfs[|tfs| - 1];
      var init := tfs[..|tfs| - 1];
      WeightedSumBounds(data, init);
      var w0, s0 := PresentWeight(data, init), WeightedScoreSum(data, init);
      if HasIndicators(data, tf) {
        var x := TimeframeScore(data[tf].indicators.value);
        var w := Weight(tf);
        assert PresentWeight(data, tfs) == w0 + w;
        assert WeightedScoreSum(data, tfs) == s0 + x * w;
        StepBounds(w0, s0, x, w, lo, hi);
      } else {
        assert PresentWeight(data, tfs) == w0 + 0.0;
        assert WeightedScoreSum(data, tfs) == s0 + 0.0;
      }
    }
  }

  /** An average whose numerator lies between lo and hi times the positive denominator lies in [lo, hi]. */
  lemma QuotientBounds(sum: real, w: real, lo: real, hi: real)
    requires w > 0.0
    requires lo * w <= sum <= hi * w
    ensures lo <= sum / w <= hi
  {
  }

  /**
   * With at least one resolution that has indicators and non-negative volume
   * ratios, the momentum score lies in [0.24, 0.76].
   */
  lemma MomentumWithinBounds(data: PairData, present: Timeframe)
    requires HasIndicators(data, present)
    requires forall tf | HasIndicators(data, tf) :: data[tf].indicators.value.volumeRatio >= 0.0
    ensures 0.24 <= MomentumScore(data) <= 0.76
  {
    TableListsEachTimeframeOnce(present);
    PresentWeightPositive(data, AllTimeframes, present);
    WeightedSumBounds(data, AllTimeframes);
    QuotientBounds(WeightedScoreSum(data, AllTimeframes), PresentWeight(data, AllTimeframes), 0.24, 0.76);
  }

  /**
   * When only `only` may have indicators and it occurs at most once in `tfs`,
   * each sum is that resolution's contribution if it is in `tfs`, else zero.
   */
  lemma {:induction false} SumsOfSingleTimeframe(data: PairData, only: Timeframe, tfs: seq<Timeframe>)
    requires forall tf | tf != only :: !HasIndicators(data, tf)
    requires forall i, j | 0 <= i < j < |tfs| :: tfs[i] != tfs[j]
    ensures WeightedScoreSum(data, tfs) == if only in tfs then ScoreTerm(data, only) else 0.0
    ensures PresentWeight(data, tfs) == if only in tfs then WeightTerm(data, only) else 0.0
  {
    if tfs != [] {
      var init, last := tfs[..|tfs| - 1], tfs[|tfs| - 1];
      assert tfs == init + [last];
      SumsOfSingleTimeframe(data, only, init);
      if last == only {
        assert only !in init;
      }
    }
  }

  lemma CancelWeight(ws: real, w: real, c: real)
    requires w > 0.0 && ws == c * w
    ensures ws / w == c
  {
  }

  /**
   * Renormalisation: a pair with indicators in exactly one resolution gets
   * that resolution's score, whatever the weights of the missing resolutions.
   */
  lemma MomentumOfSingleTimeframe(data: PairData, only: Timeframe)
    requires HasIndicators(data, only)
    requires forall tf | tf != only :: !HasIndicators(data, tf)
    ensures MomentumScore(data) == TimeframeScore(data[only].indicators.value)
  {
    TableListsEachTimeframeOnce(only);
    SumsOfSingleTimeframe(data, only, AllTimeframes);
    var w, ws := PresentWeight(data, AllTimeframes), WeightedScoreSum(data, AllTimeframes);
    CancelWeight(ws, w, TimeframeScore(data[only].indicators.value));
  }

  /** Both sums depend only on the indicator records that are present. */
  lemma {:induction false} SumsDependOnIndicatorsOnly(d1: PairData, d2: PairData, tfs: seq<Timeframe>)
    requires forall tf | HasIndicators(d2, tf) :: HasIndicators(d1, tf)
    requires forall tf | HasIndicators(d1, tf) :: HasIndicators(d2, tf) && d1[tf].indicators == d2[tf].indicators
    ensures PresentWeight(d1, tfs) == PresentWeight(d2, tfs)
    ensures WeightedScoreSum(d1, tfs) == WeightedScoreSum(d2, tfs)
  {
    if tfs != [] {
      SumsDependOnIndicatorsOnly(d1, d2, tfs[..|tfs| - 1]);
    }
  }

  /**
   * The momentum score ignores the candles and the resolutions without
   * indicators: two pairs with the same indicator records score the same.
   */
  lemma MomentumDependsOnIndicatorsOnly(d1: PairData, d2: PairData)
    requires forall tf | HasIndicators(d2, tf) :: HasIndicators(d1, tf)
    requires forall tf | HasIndicators(d1, tf) :: HasIndicators(d2, tf) && d1[tf].indicators == d2[tf].indicators
    ensures MomentumScore(d1) == MomentumScore(d2)
  {
    SumsDependOnIndicatorsOnly(d1, d2, AllTimeframes);
  }

  /**
   * A worked series: 30 bars whose closes rise by 1 from 100 to 129, with
   * volume 1000 for the first 25 bars and 2000 for the last 5.
   */
  function RisingSeries(): (s: seq<Candle>)
    ensures |s| == 30
  {
    seq(30, i requires 0 <= i < 30 =>
      var p := (100 + i) as real;
      Candle(i * 900000, p, p, p, p, if i < 25 then 1000.0 else 2000.0))
  }

  /**
   * On the worked series with a relative strength of 100 (only gains), the
   * volume ratio is 12/7 (about 1.714), the price change is 1900/110 percent
   * (about 17.27) and the resolution score is 0.66: 0.5 base, 0.3 for the
   * strength band above 80, and full volume and price scores.
   */
  lemma RisingSeriesScore()
    ensures PriceChangeDefined(RisingSeries())
    ensures var ind := CalculateTechnicalIndicators(RisingSeries(), Reading(100.0)).value;
      ind.volumeRatio == 12.0 / 7.0 && ind.priceChange == 1900.0 / 110.0 && TimeframeScore(ind) == 0.66
  {
    var s := RisingSeries();
    var vs := Volumes(s);
    var low, high := seq(25, i => 1000.0), seq(5, i => 2000.0);
    assert vs == low + high;
    assert vs[25..] == high;
    SumAppend(low, high);
    SumOfConstant(low, 1000.0);
    SumOfConstant(high, 2000.0);
    assert Mean(vs) == 35000.0 / 30.0;
    MeanOfConstant(high, 2000.0);
    assert s[29].close == 129.0 && s[10].close == 110.0;
    var ind := CalculateTechnicalIndicators(s, Reading(100.0)).value;
    assert ind.volumeRatio == 2000.0 / (35000.0 / 30.0);
    assert ind.priceChange == (129.0 - 110.0) / 110.0 * 100.0;
  }
}
