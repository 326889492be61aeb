/**
 * The analyzer's two fixed weight tables: how much each candle resolution
 * counts towards a pair's momentum score, and how much each sub-score counts
 * towards one resolution's score.
 */
module Timeframes {

  /** The five candle resolutions, in the order of the analyzer's table. */
  datatype Timeframe = M15 | M30 | M60 | M240 | D1

  const AllTimeframes: seq<Timeframe> := [M15, M30, M60, M240, D1]

  /** The table key, which is also the resolution code sent to the exchange. */
  function Code(tf: Timeframe): string {
    match tf
    case M15 => "15"
    case M30 => "30"
    case M60 => "60"
    case M240 => "240"
    case D1 => "1D"
  }

  /** The weight of a resolution in a pair's momentum score. */
  function Weight(tf: Timeframe): (w: real)
    ensures 0.0 < w < 1.0
  {
    match tf
    case M15 => 0.35
    case M30 => 0.25
    case M60 => 0.20
    case M240 => 0.15
    case D1 => 0.05
  }

  /** The sum of the weights of `tfs`. */
  function TotalWeight(tfs: seq<Timeframe>): real {
    if tfs == [] then 0.0 else TotalWeight(tfs[..|tfs| - 1]) + Weight(tfs[|tfs| - 1])
  }

  /** Every resolution appears in the table exactly once. */
  lemma TableListsEachTimeframeOnce(tf: Timeframe)
    ensures tf in AllTimeframes
    ensures forall i, j | 0 <= i < j < |AllTimeframes| :: AllTimeframes[i] != AllTimeframes[j]
  {
  }

  /** The table keys are pairwise different, so the table is a well-formed dictionary. */
  lemma CodesAreDistinct(a: Timeframe, b: Timeframe)
    requires a != b
    ensures Code(a) != Code(b)
  {
    assert Code(M15)[0] == '1' && Code(M30)[0] == '3' && Code(M60)[0] == '6';
    assert Code(M240)[0] == '2' && Code(D1)[1] == 'D';
  }

  /** The resolution weights add up to one. */
  lemma {:induction false} TimeframeWeightsSumToOne()
    ensures TotalWeight(AllTimeframes) == 1.0
  {
    assert [M15][..0] == [];
    assert TotalWeight([M15]) == 0.35;
    assert [M15, M30][..1] == [M15];
    assert TotalWeight([M15, M30]) == 0.60;
    assert [M15, M30, M60][..2] == [M15, M30];
    assert TotalWeight([M15, M30, M60]) == 0.80;
    assert [M15, M30, M60, M240][..3] == [M15, M30, M60];
    assert TotalWeight([M15, M30, M60, M240]) == 0.95;
    assert AllTimeframes[..4] == [M15, M30, M60, M240];
  }

  /** The four parts of one resolution's score. */
  datatype Component = BaseBullish | Rsi | Volume | PriceChange

  const AllComponents: seq<Component> := [BaseBullish, Rsi, Volume, PriceChange]

  /** The weight of a sub-score in one resolution's score. */
  function ScoringWeight(c: Component): (w: real)
    ensures 0.0 < w < 1.0
  {
    match c
    case BaseBullish => 0.40
    case Rsi => 0.20
    case Volume => 0.25
    case PriceChange => 0.15
  }

  /** The sub-score weights add up to one. */
  lemma ScoringWeightsSumToOne()
    ensures ScoringWeight(BaseBullish) + ScoringWeight(Rsi) + ScoringWeight(Volume) + ScoringWeight(PriceChange) == 1.0
  {
  }

  /** The fixed sub-score that every resolution starts from. */
  const BaseBullishScore: real := 0.5
}
