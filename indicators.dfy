/**
 * The indicator engine: from one candle series to the indicator record that
 * the scorer reads (relative strength, volume surge, recent price change,
 * last price).
 */
module Indicators {
  import opened Wrappers

  /** One OHLCV bar; `time` is the exchange's timestamp in milliseconds. */
  datatype Candle = Candle(time: int, open: real, high: real, low: real, close: real, volume: real)

  type Percent = r: real | 0.0 <= r <= 100.0

  /**
   * The last value of the 14-period relative strength index that the `ta`
   * library computes over the closing prices. It is NaN while the library has
   * too few bars to warm up, and otherwise a value between 0 and 100.
   */
  datatype RsiReading = NaN | Reading(value: Percent)

  /** The indicator record of one series. */
  datatype IndicatorSet = IndicatorSet(
    rsi: real,
    volumeRatio: real,
    priceChange: real,
    currentPrice: real,
    volume: real)

  /** Fewer bars than this yield no indicators. */
  const MinBars: nat := 30
  /** The price change compares the last close with the close this many bars from the end. */
  const PriceLookback: nat := 20
  /** The recent volume is the mean over this many last bars. */
  const RecentBars: nat := 5
  /** The neutral value used when the relative strength index is undefined. */
  const NeutralRsi: real := 50.0

  function Sum(xs: seq<real>): real {
    if xs == [] then 0.0 else Sum(xs[..|xs| - 1]) + xs[|xs| - 1]
  }

  function Mean(xs: seq<real>): real
    requires |xs| > 0
  {
    Sum(xs) / (|xs| as real)
  }

  /** The volume column of a series. */
  function Volumes(s: seq<Candle>): (v: seq<real>)
    ensures |v| == |s|
    ensures forall i | 0 <= i < |s| :: v[i] == s[i].volume
  {
    seq(|s|, i requires 0 <= i < |s| => s[i].volume)
  }

  /**
   * The price change divides by the close `PriceLookback` bars from the end;
   * the model needs it to be non-zero (the source would produce an infinite
   * or NaN change there).
   */
  predicate PriceChangeDefined(s: seq<Candle>) {
    |s| >= MinBars ==> s[|s| - PriceLookback].close != 0.0
  }

  /**
   * `calculate_technical_indicators`: no record for fewer than 30 bars;
   * otherwise the relative strength index (50 when undefined), the ratio of
   * the mean volume of the last 5 bars to the mean volume of the series (1
   * when the latter is not positive), the percentage change of the close over
   * the last 20 bars, the last close and the recent mean volume.
   */
  function CalculateTechnicalIndicators(s: seq<Candle>, rsi: RsiReading): (r: Option<IndicatorSet>)
    requires PriceChangeDefined(s)
    ensures r.None? <==> |s| < MinBars
    ensures r.Some? ==> 0.0 <= r.value.rsi <= 100.0
    ensures r.Some? && rsi.NaN? ==> r.value.rsi == NeutralRsi
    ensures r.Some? && rsi.Reading? ==> r.value.rsi == rsi.value
    ensures r.Some? ==> r.value.volume == Mean(Volumes(s)[|s| - RecentBars..])
    ensures r.Some? && Mean(Volumes(s)) > 0.0 ==> r.value.volumeRatio == r.value.volume / Mean(Volumes(s))
    ensures r.Some? && Mean(Volumes(s)) <= 0.0 ==> r.value.volumeRatio == 1.0
    ensures r.Some? ==> r.value.currentPrice == s[|s| - 1].close
    ensures r.Some? ==>
      r.value.priceChange == (s[|s| - 1].close - s[|s| - PriceLookback].close) / s[|s| - PriceLookback].close * 100.0
    ensures r.Some? && s[|s| - PriceLookback].close > 0.0 ==>
      (r.value.priceChange > 0.0 <==> s[|s| - 1].close > s[|s| - PriceLookback].close) &&
      (r.value.priceChange == 0.0 <==> s[|s| - 1].close == s[|s| - PriceLookback].close)
  {
    if |s| < MinBars then None
    else
      var currentRsi := if rsi.NaN? then NeutralRsi else rsi.value;
      var recentVolume := Mean(Volumes(s)[|s| - RecentBars..]);
      var avgVolume := Mean(Volumes(s));
      var volumeRatio := if avgVolume > 0.0 then recentVolume / avgVolume else 1.0;
      var last := s[|s| - 1].close;
      var past := s[|s| - PriceLookback].close;
      var priceChange := if |s| >= PriceLookback then (last - past) / past * 100.0 else 0.0;
      Some(IndicatorSet(currentRsi, volumeRatio, priceChange, last, recentVolume))
  }

  lemma {:induction false} SumOfConstant(xs: seq<real>, v: real)
    requires forall i | 0 <= i < |xs| :: xs[i] == v
    ensures Sum(xs) == (|xs| as real) * v
  {
    if xs != [] {
      SumOfConstant(xs[..|xs| - 1], v);
    }
  }

  lemma MeanOfConstant(xs: seq<real>, v: real)
    requires |xs| > 0
    requires forall i | 0 <= i < |xs| :: xs[i] == v
    ensures Mean(xs) == v
  {
    SumOfConstant(xs, v);
    var n := |xs| as real;
    assert n * v / n == v;
  }

  lemma {:induction false} SumNonNegative(xs: seq<real>)
    requires forall i | 0 <= i < |xs| :: xs[i] >= 0.0
    ensures Sum(xs) >= 0.0
  {
    if xs != [] {
      SumNonNegative(xs[..|xs| - 1]);
    }
  }

  lemma {:induction false} SumAppend(xs: seq<real>, ys: seq<real>)
    ensures Sum(xs + ys) == Sum(xs) + Sum(ys)
    decreases |ys|
  {
    if ys != [] {
      assert (xs + ys)[..|xs + ys| - 1] == xs + ys[..|ys| - 1];
      SumAppend(xs, ys[..|ys| - 1]);
    } else {
      assert xs + ys == xs;
    }
  }

  /** A series whose every bar has the same positive volume has volume ratio 1. */
  lemma ConstantVolumeGivesUnitRatio(s: seq<Candle>, v: real, rsi: RsiReading)
    requires |s| >= MinBars && PriceChangeDefined(s)
    requires v > 0.0
    requires forall i | 0 <= i < |s| :: s[i].volume == v
    ensures CalculateTechnicalIndicators(s, rsi).value.volumeRatio == 1.0
  {
    var vs := Volumes(s);
    MeanOfConstant(vs, v);
    MeanOfConstant(vs[|s| - RecentBars..], v);
    var r := CalculateTechnicalIndicators(s, rsi).value;
    assert r.volumeRatio == v / v;
  }

  /** Non-negative volumes give a non-negative volume ratio. */
  lemma VolumeRatioNonNegative(s: seq<Candle>, rsi: RsiReading)
    requires |s| >= MinBars && PriceChangeDefined(s)
    requires forall i | 0 <= i < |s| :: s[i].volume >= 0.0
    ensures CalculateTechnicalIndicators(s, rsi).value.volumeRatio >= 0.0
  {
    var vs := Volumes(s);
    SumNonNegative(vs[|s| - RecentBars..]);
  }
}
