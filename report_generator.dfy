/**
 * The content of the insights report: the top performers, the sentiment
 * breakdown, the resolution weights and the buy signals. The text layout
 * and the file it is written to are not modelled; the report is the record
 * of what it would show.
 */
module ReportGenerator {
  import opened Wrappers
  import opened Seqs
  import opened Strings
  import opened Timeframes
  import opened Indicators
  import opened Scoring
  import opened Ranking
  import opened Analysis

  /** How many results the top list shows. */
  const TopCount: nat := 10
  /** How many entries each signal list shows. */
  const SignalCount: nat := 5

  /** Scores above this are bullish; those above BullishThreshold are buy signals. */
  const BullishThreshold: real := 0.6
  /** Scores below this are bearish. */
  const BearishThreshold: real := 0.4
  /** Scores above this are strong buy signals. */
  const StrongBuyThreshold: real := 0.7

  predicate IsBullish(r: PairResult) { r.momentumScore > BullishThreshold }
  predicate IsNeutral(r: PairResult) { BearishThreshold <= r.momentumScore <= BullishThreshold }
  predicate IsBearish(r: PairResult) { r.momentumScore < BearishThreshold }
  predicate IsStrongBuy(r: PairResult) { r.momentumScore > StrongBuyThreshold }
  predicate IsBuy(r: PairResult) { BullishThreshold < r.momentumScore <= StrongBuyThreshold }

  /** The price column: the 15-minute last close when that resolution has indicators, else "N/A". */
  datatype DisplayedPrice = NotAvailable | Price(value: real)

  /** One line of the top list. */
  datatype TopEntry = TopEntry(rank: nat, pairLabel: string, score: real, price: DisplayedPrice)

  /** One line of a signal list. */
  datatype Signal = Signal(pairLabel: string, score: real)

  /** One line of the resolution section: its name and its weight in percent. */
  datatype TimeframeLine = TimeframeLine(name: string, weightPercent: real)

  datatype Report = Report(
    totalPairs: nat,
    top: seq<TopEntry>,
    bullish: nat,
    neutral: nat,
    bearish: nat,
    timeframeLines: seq<TimeframeLine>,
    strongBuy: seq<Signal>,
    buy: seq<Signal>,
    noSignals: bool)

  function PriceOf(r: PairResult): (p: DisplayedPrice)
    ensures p.Price? <==> HasIndicators(r.timeframeData, M15)
    ensures p.Price? ==> p.value == r.timeframeData[M15].indicators.value.currentPrice
  {
    if M15 in r.timeframeData && r.timeframeData[M15].indicators.Some? then
      Price(r.timeframeData[M15].indicators.value.currentPrice)
    else
      NotAvailable
  }

  /** The top list: the first ten results, numbered from 1, in ranking order. */
  function TopEntries(results: seq<PairResult>): (top: seq<TopEntry>)
    ensures |top| <= TopCount && |top| <= |results|
    ensures |results| >= TopCount ==> |top| == TopCount
    ensures |results| < TopCount ==> |top| == |results|
    ensures forall i | 0 <= i < |top| ::
      && top[i].rank == i + 1
      && top[i].pairLabel == PairLabel(results[i].pair)
      && top[i].score == results[i].momentumScore
      && top[i].price == PriceOf(results[i])
  {
    var shown := Take(results, TopCount);
    seq(|shown|, i requires 0 <= i < |shown| =>
      TopEntry(i + 1, PairLabel(shown[i].pair), shown[i].momentumScore, PriceOf(shown[i])))
  }

  /** The lines of a signal list: the label and score of each of the first five results. */
  function Signals(xs: seq<PairResult>): (s: seq<Signal>)
    ensures |s| == if |xs| < SignalCount then |xs| else SignalCount
    ensures forall i | 0 <= i < |s| :: s[i] == Signal(PairLabel(xs[i].pair), xs[i].momentumScore)
  {
    var shown := Take(xs, SignalCount);
    seq(|shown|, i requires 0 <= i < |shown| => Signal(PairLabel(shown[i].pair), shown[i].momentumScore))
  }

  /** `f"{tf}min"`, or "1Day" for the daily key. */
  function TimeframeName(tf: Timeframe): (name: string)
    ensures tf == D1 <==> name == "1Day"
  {
    if Code(tf) != "1D" then Code(tf) + "min" else "1Day"
  }

  function TimeframeLines(): (lines: seq<TimeframeLine>)
    ensures |lines| == |AllTimeframes|
    ensures forall i | 0 <= i < |lines| ::
      lines[i] == TimeframeLine(TimeframeName(AllTimeframes[i]), Weight(AllTimeframes[i]) * 100.0)
  {
    seq(|AllTimeframes|, i requires 0 <= i < |AllTimeframes| =>
      TimeframeLine(TimeframeName(AllTimeframes[i]), Weight(AllTimeframes[i]) * 100.0))
  }

  /** The resolution section reads 15min 35%, 30min 25%, 60min 20%, 240min 15%, 1Day 5%. */
  lemma TimeframeSection()
    ensures TimeframeLines() == [
      TimeframeLine("15min", 35.0), TimeframeLine("30min", 25.0), TimeframeLine("60min", 20.0),
      TimeframeLine("240min", 15.0), TimeframeLine("1Day", 5.0)]
  {
    var lines := TimeframeLines();
    assert Code(M15) != "1D" && Code(M30) != "1D" && Code(M60) != "1D" && Code(M240) != "1D";
    assert lines[0] == TimeframeLine("15" + "min", 0.35 * 100.0);
    assert lines[1] == TimeframeLine("30" + "min", 0.25 * 100.0);
    assert lines[2] == TimeframeLine("60" + "min", 0.20 * 100.0);
    assert lines[3] == TimeframeLine("240" + "min", 0.15 * 100.0);
    assert lines[4] == TimeframeLine("1Day", 0.05 * 100.0);
    assert "15" + "min" == "15min" && "30" + "min" == "30min" && "60" + "min" == "60min";
    assert "240" + "min" == "240min";
  }

  /** `generate_insights_report`: no report for no results, otherwise the report's content. */
  function GenerateInsightsReport(results: seq<PairResult>): (rep: Option<Report>)
    ensures rep.None? <==> results == []
    ensures rep.Some? ==> rep.value.totalPairs == |results|
    ensures rep.Some? ==> rep.value.top == TopEntries(results)
    ensures rep.Some? ==> rep.value.timeframeLines == TimeframeLines()
    ensures rep.Some? ==>
      && rep.value.bullish == |Filter(results, IsBullish)|
      && rep.value.neutral == |Filter(results, IsNeutral)|
      && rep.value.bearish == |Filter(results, IsBearish)|
    ensures rep.Some? ==> rep.value.bullish + rep.value.neutral + rep.value.bearish == |results|
    ensures rep.Some? ==>
      && rep.value.strongBuy == Signals(Filter(results, IsStrongBuy))
      && rep.value.buy == Signals(Filter(results, IsBuy))
    ensures rep.Some? ==> |rep.value.strongBuy| <= SignalCount && |rep.value.buy| <= SignalCount
    ensures rep.Some? ==> (rep.value.noSignals <==> rep.value.strongBuy == [] && rep.value.buy == [])
    ensures rep.Some? ==> (rep.value.noSignals <==> rep.value.bullish == 0)
  {
    if results == [] then None
    else
      var strongBuy := Filter(results, IsStrongBuy);
      var buy := Filter(results, IsBuy);
      var bullish := Filter(results, IsBullish);
      SentimentPartition(results);
      NoSignalsIffNoBullish(results);
      Some(Report(
        |results|,
        TopEntries(results),
        |bullish|,
        |Filter(results, IsNeutral)|,
        |Filter(results, IsBearish)|,
        TimeframeLines(),
        Signals(strongBuy),
        Signals(buy),
        strongBuy == [] && buy == []))
  }

  /** Every score is in exactly one of the bullish, neutral and bearish buckets, so the counts add up to the number of results. */
  lemma SentimentPartition(results: seq<PairResult>)
    ensures |Filter(results, IsBullish)| + |Filter(results, IsNeutral)| + |Filter(results, IsBearish)| == |results|
  {
    FilterPartition3(results, IsBullish, IsNeutral, IsBearish);
  }

  /** Strong-buy and buy results are exactly the bullish ones, so both lists are empty exactly when nothing is bullish. */
  lemma NoSignalsIffNoBullish(results: seq<PairResult>)
    ensures (Filter(results, IsStrongBuy) == [] && Filter(results, IsBuy) == []) <==> Filter(results, IsBullish) == []
  {
    if Filter(results, IsBullish) != [] {
      var x := Filter(results, IsBullish)[0];
      assert x in Filter(results, IsBullish);
      if IsStrongBuy(x) {
        assert x in Filter(results, IsStrongBuy);
      } else {
        assert x in Filter(results, IsBuy);
      }
    }
  }

  /**
   * The two signal lists never share a result, and each is the bullish
   * results narrowed further, in ranking order.
   */
  lemma SignalsAreDisjointBullishSublists(results: seq<PairResult>)
    ensures forall x :: !(x in Filter(results, IsStrongBuy) && x in Filter(results, IsBuy))
    ensures Filter(Filter(results, IsBullish), IsStrongBuy) == Filter(results, IsStrongBuy)
    ensures Filter(Filter(results, IsBullish), IsBuy) == Filter(results, IsBuy)
    ensures IsSubsequence(Filter(results, IsStrongBuy), Filter(results, IsBullish))
    ensures IsSubsequence(Filter(results, IsBuy), Filter(results, IsBullish))
  {
    FilterDisjoint(results, IsStrongBuy, IsBuy);
    FilterOfFilter(results, IsBullish, IsStrongBuy);
    FilterOfFilter(results, IsBullish, IsBuy);
    FilterIsSubsequence(Filter(results, IsBullish), IsStrongBuy);
    FilterIsSubsequence(Filter(results, IsBullish), IsBuy);
  }

  /** For a ranked batch, the top list shows the highest scores: none of the results left out scores higher. */
  lemma TopAreHighest(results: seq<PairResult>, i: nat, j: nat)
    requires SortedByScore(results)
    requires i < |TopEntries(results)| <= j < |results|
    ensures TopEntries(results)[i].score >= results[j].momentumScore
  {
  }

  /**
   * For a pair the analyzer scored, the displayed price is the last close of
   * its 15-minute series when that series has 30 bars or more, and "N/A"
   * otherwise.
   */
  lemma DisplayedPriceIsQuarterHourClose(pair: string, fetch: Fetcher, rsiOf: RsiSource)
    requires Computable(fetch, pair)
    requires PairAnalysis(pair, fetch, rsiOf).Some?
    ensures var price := PriceOf(PairAnalysis(pair, fetch, rsiOf).value);
      var s := fetch(pair, M15);
      if s.Some? && |s.value| >= MinBars then price == Price(s.value[|s.value| - 1].close)
      else price == NotAvailable
  {
    TableListsEachTimeframeOnce(M15);
    var data := CollectedData(pair, fetch, rsiOf);
    if M15 in data {
      assert data[M15] == Entry(fetch(pair, M15).value, rsiOf);
    }
  }
}
