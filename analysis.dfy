/**
 * The analyzer's orchestration: one pair analysed across all resolutions,
 * and one batch run over the discovered instruments, ranked by momentum.
 */
module Analysis {
  import opened Wrappers
  import opened Seqs
  import opened Timeframes
  import opened Indicators
  import opened Scoring
  import opened Ranking
  import opened DataFetcher

  /**
   * What `fetch_candlestick_data` returned for a pair and a resolution: see
   * DataFetcher.FetchCandlestickData for how an exchange response becomes
   * this value. The network call itself is not part of this model.
   */
  type Fetcher = (string, Timeframe) -> Option<seq<Candle>>

  /** The last relative strength reading the `ta` library gives for a series. */
  type RsiSource = seq<Candle> -> RsiReading

  /** `df is not None and len(df) > 0`. */
  predicate Fetched(df: Option<seq<Candle>>) {
    df.Some? && |df.value| > 0
  }

  /** Every series fetched for `pair` has a usable price-change reference bar. */
  predicate Computable(fetch: Fetcher, pair: string) {
    forall tf :: fetch(pair, tf).Some? ==> PriceChangeDefined(fetch(pair, tf).value)
  }

  /** The entry analyze_pair stores for a fetched series. */
  function Entry(series: seq<Candle>, rsiOf: RsiSource): TimeframeData
    requires PriceChangeDefined(series)
  {
    TimeframeData(series, CalculateTechnicalIndicators(series, rsiOf(series)))
  }

  /** The per-resolution data of a pair: an entry for each resolution whose fetch returned bars. */
  function CollectedData(pair: string, fetch: Fetcher, rsiOf: RsiSource): PairData
    requires Computable(fetch, pair)
  {
    map tf | tf in AllTimeframes && Fetched(fetch(pair, tf)) :: Entry(fetch(pair, tf).value, rsiOf)
  }

  /** What `analyze_pair` returns: a result when at least one resolution was fetched, else None. */
  function PairAnalysis(pair: string, fetch: Fetcher, rsiOf: RsiSource): Option<PairResult>
    requires Computable(fetch, pair)
  {
    var data := CollectedData(pair, fetch, rsiOf);
    if |data| > 0 then Some(PairResult(pair, MomentumScore(data), data)) else None
  }

  /** The outcome of analysing every instrument, in instrument order (`asyncio.gather`). */
  function AnalyzeAll(instruments: seq<string>, fetch: Fetcher, rsiOf: RsiSource): (r: seq<Option<PairResult>>)
    requires forall p | p in instruments :: Computable(fetch, p)
    ensures |r| == |instruments|
    ensures forall k | 0 <= k < |r| :: r[k] == PairAnalysis(instruments[k], fetch, rsiOf)
  {
    seq(|instruments|, k requires 0 <= k < |instruments| => PairAnalysis(instruments[k], fetch, rsiOf))
  }

  /** An outcome that holds a result. */
  predicate IsPresent(o: Option<PairResult>) { o.Some? }

  /** `[r for r in results if r]`: the results that are present, in order. */
  function Successes(xs: seq<Option<PairResult>>): (r: seq<PairResult>)
    ensures |r| <= |xs|
    ensures forall x :: x in r <==> Some(x) in xs
    ensures |r| == |Filter(xs, IsPresent)|
    ensures forall i | 0 <= i < |r| :: Some(r[i]) == Filter(xs, IsPresent)[i]
  {
    if xs == [] then []
    else
      assert xs == [xs[0]] + xs[1..];
      (if xs[0].Some? then [xs[0].value] else []) + Successes(xs[1..])
  }

  /** The ranked batch of a run: None when nothing valid came back, else the valid results by descending score. */
  function RankedBatch(instruments: seq<string>, fetch: Fetcher, rsiOf: RsiSource): Option<seq<PairResult>>
    requires forall p | p in instruments :: Computable(fetch, p)
  {
    var valid := Successes(AnalyzeAll(instruments, fetch, rsiOf));
    if |valid| == 0 then None else Some(SortByScore(valid))
  }

  /** Analysing one more instrument appends its outcome. */
  lemma AnalyzeAllStep(instruments: seq<string>, i: nat, fetch: Fetcher, rsiOf: RsiSource)
    requires i < |instruments|
    requires forall p | p in instruments :: Computable(fetch, p)
    ensures AnalyzeAll(instruments[..i + 1], fetch, rsiOf) ==
      AnalyzeAll(instruments[..i], fetch, rsiOf) + [PairAnalysis(instruments[i], fetch, rsiOf)]
  {
    assert instruments[..i + 1] == instruments[..i] + [instruments[i]];
  }

  class CryptoMomentumAnalyzer {
    /** The ranked results of the last run that produced any. */
    var results: seq<PairResult>

    constructor ()
      ensures results == []
    {
      results := [];
    }

    /** `analyze_pair`: fetch every resolution, keep the ones that returned bars, score the pair. */
    method AnalyzePair(pair: string, fetch: Fetcher, rsiOf: RsiSource) returns (r: Option<PairResult>)
      requires Computable(fetch, pair)
      ensures r == PairAnalysis(pair, fetch, rsiOf)
    {
      var pairData: PairData := map[];
      for i := 0 to |AllTimeframes|
        invariant forall tf :: tf in pairData <==> tf in AllTimeframes[..i] && Fetched(fetch(pair, tf))
        invariant forall tf | tf in pairData :: pairData[tf] == Entry(fetch(pair, tf).value, rsiOf)
      {
        var tf := AllTimeframes[i];
        var df := fetch(pair, tf);
        if df.Some? && |df.value| > 0 {
          var indicators := CalculateTechnicalIndicators(df.value, rsiOf(df.value));
          pairData := pairData[tf := TimeframeData(df.value, indicators)];
        }
      }
      assert AllTimeframes[..|AllTimeframes|] == AllTimeframes;
      assert pairData == CollectedData(pair, fetch, rsiOf);
      if |pairData| > 0 {
        var score := CalculateMomentumScore(pairData);
        r := Some(PairResult(pair, score, pairData));
      } else {
        r := None;
      }
    }

    /**
     * `run_analysis`: discover the instruments, analyse each, and when any
     * result came back store them ranked by descending score. A run that
     * finds no instruments or no valid result leaves `results` as it was.
     */
    method RunAnalysis(catalog: CatalogResponse, fetch: Fetcher, rsiOf: RsiSource) returns (ranked: Option<seq<PairResult>>)
      requires forall p | p in GetActiveInstruments(catalog) :: Computable(fetch, p)
      modifies this
      ensures ranked == RankedBatch(GetActiveInstruments(catalog), fetch, rsiOf)
      ensures ranked.Some? ==> results == ranked.value
      ensures ranked.None? ==> results == old(results)
    {
      var instruments := GetActiveInstruments(catalog);
      if |instruments| == 0 {
        assert AnalyzeAll(instruments, fetch, rsiOf) == [];
        return None;
      }
      var gathered: seq<Option<PairResult>> := [];
      for i := 0 to |instruments|
        invariant gathered == AnalyzeAll(instruments[..i], fetch, rsiOf)
        invariant results == old(results)
      {
        var r := AnalyzePair(instruments[i], fetch, rsiOf);
        AnalyzeAllStep(instruments, i, fetch, rsiOf);
        gathered := gathered + [r];
      }
      assert instruments[..|instruments|] == instruments;
      var valid := Successes(gathered);
      if |valid| == 0 {
        return None;
      }
      results := SortByScore(valid);
      ranked := Some(results);
    }
  }

  /** Every resolution of the table is fetched, so a pair is omitted exactly when no resolution returned bars. */
  lemma PairOmittedIffNothingFetched(pair: string, fetch: Fetcher, rsiOf: RsiSource)
    requires Computable(fetch, pair)
    ensures PairAnalysis(pair, fetch, rsiOf).None? <==> forall tf :: !Fetched(fetch(pair, tf))
  {
    var data := CollectedData(pair, fetch, rsiOf);
    if tf :| Fetched(fetch(pair, tf)) {
      TableListsEachTimeframeOnce(tf);
      assert tf in data;
    }
    if |data| > 0 {
      var tf :| tf in data;
      assert Fetched(fetch(pair, tf));
    }
  }

  /**
   * A pair whose fetched series are all shorter than 30 bars has no
   * indicators anywhere, yet is still reported, with momentum score 0.
   */
  lemma ShortSeriesStillReported(pair: string, fetch: Fetcher, rsiOf: RsiSource, tf0: Timeframe)
    requires Computable(fetch, pair)
    requires Fetched(fetch(pair, tf0))
    requires forall tf | Fetched(fetch(pair, tf)) :: |fetch(pair, tf).value| < MinBars
    ensures PairAnalysis(pair, fetch, rsiOf).Some?
    ensures PairAnalysis(pair, fetch, rsiOf).value.momentumScore == 0.0
  {
    PairOmittedIffNothingFetched(pair, fetch, rsiOf);
    var data := CollectedData(pair, fetch, rsiOf);
    forall tf ensures !HasIndicators(data, tf) {
      if tf in data {
        assert data[tf].indicators == CalculateTechnicalIndicators(fetch(pair, tf).value, rsiOf(fetch(pair, tf).value));
      }
    }
    MomentumWithoutIndicators(data);
  }

  /**
   * A pair with at least one series of 30 bars or more, whose fetched series
   * all have non-negative volumes, scores between 0.24 and 0.76.
   */
  lemma PairScoreBounds(pair: string, fetch: Fetcher, rsiOf: RsiSource, tf0: Timeframe)
    requires Computable(fetch, pair)
    requires Fetched(fetch(pair, tf0)) && |fetch(pair, tf0).value| >= MinBars
    requires forall tf, i | fetch(pair, tf).Some? && 0 <= i < |fetch(pair, tf).value| :: fetch(pair, tf).value[i].volume >= 0.0
    ensures PairAnalysis(pair, fetch, rsiOf).Some?
    ensures 0.24 <= PairAnalysis(pair, fetch, rsiOf).value.momentumScore <= 0.76
  {
    PairOmittedIffNothingFetched(pair, fetch, rsiOf);
    var data := CollectedData(pair, fetch, rsiOf);
    TableListsEachTimeframeOnce(tf0);
    assert tf0 in data && HasIndicators(data, tf0);
    forall tf | HasIndicators(data, tf) ensures data[tf].indicators.value.volumeRatio >= 0.0 {
      VolumeRatioNonNegative(fetch(pair, tf).value, rsiOf(fetch(pair, tf).value));
    }
    MomentumWithinBounds(data, tf0);
  }

  lemma {:induction false} SuccessesOfAbsent(xs: seq<Option<PairResult>>)
    requires forall k | 0 <= k < |xs| :: xs[k].None?
    ensures Successes(xs) == []
  {
    if xs != [] {
      SuccessesOfAbsent(xs[1..]);
    }
  }

  /** A run produces a batch exactly when some instrument had some resolution fetched. */
  lemma BatchIffSomethingFetched(instruments: seq<string>, fetch: Fetcher, rsiOf: RsiSource)
    requires forall p | p in instruments :: Computable(fetch, p)
    ensures RankedBatch(instruments, fetch, rsiOf).None? <==>
      forall k, tf | 0 <= k < |instruments| :: !Fetched(fetch(instruments[k], tf))
  {
    var all := AnalyzeAll(instruments, fetch, rsiOf);
    if forall k, tf | 0 <= k < |instruments| :: !Fetched(fetch(instruments[k], tf)) {
      forall k | 0 <= k < |all| ensures all[k].None? {
        PairOmittedIffNothingFetched(instruments[k], fetch, rsiOf);
      }
      SuccessesOfAbsent(all);
    } else {
      var k, tf :| 0 <= k < |instruments| && Fetched(fetch(instruments[k], tf));
      PairOmittedIffNothingFetched(instruments[k], fetch, rsiOf);
      assert Some(all[k].value) in all;
    }
  }

  /** The batch holds exactly the results analyze_pair produced for the instruments, at most one per instrument. */
  lemma BatchMembers(instruments: seq<string>, fetch: Fetcher, rsiOf: RsiSource, x: PairResult)
    requires forall p | p in instruments :: Computable(fetch, p)
    requires RankedBatch(instruments, fetch, rsiOf).Some?
    ensures |RankedBatch(instruments, fetch, rsiOf).value| <= |instruments|
    ensures x in RankedBatch(instruments, fetch, rsiOf).value <==>
      exists k | 0 <= k < |instruments| :: PairAnalysis(instruments[k], fetch, rsiOf) == Some(x)
  {
    var all := AnalyzeAll(instruments, fetch, rsiOf);
    SortKeepsMembers(Successes(all));
    if Some(x) in all {
      var k :| 0 <= k < |all| && all[k] == Some(x);
    }
  }

  /** The batch is sorted by descending score, and results with equal scores stay in instrument order. */
  lemma BatchOrder(instruments: seq<string>, fetch: Fetcher, rsiOf: RsiSource, v: real)
    requires forall p | p in instruments :: Computable(fetch, p)
    requires RankedBatch(instruments, fetch, rsiOf).Some?
    ensures SortedByScore(RankedBatch(instruments, fetch, rsiOf).value)
    ensures WithScore(RankedBatch(instruments, fetch, rsiOf).value, v) ==
      WithScore(Successes(AnalyzeAll(instruments, fetch, rsiOf)), v)
  {
    SortIsStable(Successes(AnalyzeAll(instruments, fetch, rsiOf)), v);
  }
}
