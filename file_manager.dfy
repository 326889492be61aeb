/**
 * The rows of the CSV export: one row per ranked result, with the pair's
 * label, score and rank, and three indicator columns per resolution. Writing
 * the file is not modelled. A row maps each column to its cell; the order of
 * the columns in the file is not part of the model.
 */
module FileManager {
  import opened Wrappers
  import opened Strings
  import opened Timeframes
  import opened Scoring
  import opened Ranking

  /** A column of the export. */
  datatype Column =
    | PairColumn
    | MomentumScoreColumn
    | RankColumn
    | RsiColumn(tf: Timeframe)
    | VolumeRatioColumn(tf: Timeframe)
    | PriceChangeColumn(tf: Timeframe)

  /** The column header. */
  function ColumnName(c: Column): string {
    match c
    case PairColumn => "Pair"
    case MomentumScoreColumn => "Momentum_Score"
    case RankColumn => "Rank"
    case RsiColumn(tf) => "RSI_" + Code(tf)
    case VolumeRatioColumn(tf) => "Volume_Ratio_" + Code(tf)
    case PriceChangeColumn(tf) => "Price_Change_" + Code(tf)
  }

  /** A cell: text, a number, an integer, or empty (`None`). */
  datatype Cell = Text(text: string) | Number(number: real) | Integer(integer: int) | Null

  type Row = map<Column, Cell>

  /** The columns every row has: Pair, Momentum_Score, Rank and three per resolution. */
  function ColumnSet(): set<Column> {
    {PairColumn, MomentumScoreColumn, RankColumn} + TimeframeColumns(AllTimeframes)
  }

  /** The value of column `c` in the row of `result`, ranked `rank`. */
  function CellOf(result: PairResult, rank: int, c: Column): Cell {
    match c
    case PairColumn => Text(PairLabel(result.pair))
    case MomentumScoreColumn => Number(result.momentumScore)
    case RankColumn => Integer(rank)
    case RsiColumn(tf) =>
      if HasIndicators(result.timeframeData, tf) then Number(result.timeframeData[tf].indicators.value.rsi) else Null
    case VolumeRatioColumn(tf) =>
      if HasIndicators(result.timeframeData, tf) then Number(result.timeframeData[tf].indicators.value.volumeRatio) else Null
    case PriceChangeColumn(tf) =>
      if HasIndicators(result.timeframeData, tf) then Number(result.timeframeData[tf].indicators.value.priceChange) else Null
  }

  /** The row of `result` at position `rank`. */
  function RowOf(result: PairResult, rank: int): Row {
    map c | c in ColumnSet() :: CellOf(result, rank, c)
  }

  /** The rows `export_to_csv` writes: none for no results, otherwise one per result, ranked from 1. */
  function ExportRows(results: seq<PairResult>): Option<seq<Row>> {
    if results == [] then None
    else Some(seq(|results|, k requires 0 <= k < |results| => RowOf(results[k], k + 1)))
  }

  /** The columns one resolution adds to a row, filled from `result`. */
  function AddTimeframeCells(row: Row, result: PairResult, tf: Timeframe): (r: Row)
    ensures r.Keys == row.Keys + {RsiColumn(tf), VolumeRatioColumn(tf), PriceChangeColumn(tf)}
  {
    if tf in result.timeframeData && result.timeframeData[tf].indicators.Some? then
      var indicators := result.timeframeData[tf].indicators.value;
      row[RsiColumn(tf) := Number(indicators.rsi)]
         [VolumeRatioColumn(tf) := Number(indicators.volumeRatio)]
         [PriceChangeColumn(tf) := Number(indicators.priceChange)]
    else
      row[RsiColumn(tf) := Null][VolumeRatioColumn(tf) := Null][PriceChangeColumn(tf) := Null]
  }

  /** The three indicator columns of each resolution in `tfs`. */
  function TimeframeColumns(tfs: seq<Timeframe>): set<Column> {
    (set tf | tf in tfs :: RsiColumn(tf))
      + (set tf | tf in tfs :: VolumeRatioColumn(tf))
      + (set tf | tf in tfs :: PriceChangeColumn(tf))
  }

  /** The cells of `row` are the first `t` resolutions' part of the row of `result` at `rank`. */
  predicate PartialRow(row: Row, result: PairResult, rank: int, t: nat)
    requires t <= |AllTimeframes|
  {
    && row.Keys == {PairColumn, MomentumScoreColumn, RankColumn} + TimeframeColumns(AllTimeframes[..t])
    && forall c | c in row :: row[c] == CellOf(result, rank, c)
  }

  lemma TimeframeColumnsStep(tfs: seq<Timeframe>, tf: Timeframe)
    ensures TimeframeColumns(tfs + [tf]) ==
      TimeframeColumns(tfs) + {RsiColumn(tf), VolumeRatioColumn(tf), PriceChangeColumn(tf)}
  {
  }

  /** Adding a resolution's cells keeps every cell equal to the cell the export defines for it. */
  lemma AddTimeframeCellsAgree(row: Row, result: PairResult, rank: int, tf: Timeframe)
    requires forall c | c in row :: row[c] == CellOf(result, rank, c)
    ensures var r := AddTimeframeCells(row, result, tf);
      forall c | c in r :: r[c] == CellOf(result, rank, c)
  {
  }

  /** Adding the next resolution's cells extends a partial row by that resolution. */
  lemma PartialRowStep(row: Row, result: PairResult, rank: int, t: nat)
    requires t < |AllTimeframes| && PartialRow(row, result, rank, t)
    ensures PartialRow(AddTimeframeCells(row, result, AllTimeframes[t]), result, rank, t + 1)
  {
    var tf := AllTimeframes[t];
    assert AllTimeframes[..t + 1] == AllTimeframes[..t] + [tf];
    TimeframeColumnsStep(AllTimeframes[..t], tf);
    AddTimeframeCellsAgree(row, result, rank, tf);
  }

  /** A partial row covering every resolution is the result's row. */
  lemma PartialRowDone(row: Row, result: PairResult, rank: int)
    requires PartialRow(row, result, rank, |AllTimeframes|)
    ensures row == RowOf(result, rank)
  {
    assert AllTimeframes[..|AllTimeframes|] == AllTimeframes;
    assert row.Keys == ColumnSet();
  }

  /** The inner loop of `export_to_csv`: the label, score and rank, then the cells of each resolution in turn. */
  method BuildRow(result: PairResult, rank: int) returns (row: Row)
    ensures row == RowOf(result, rank)
  {
    row := map[
      PairColumn := Text(PairLabel(result.pair)),
      MomentumScoreColumn := Number(result.momentumScore),
      RankColumn := Integer(rank)];
    assert AllTimeframes[..0] == [];
    for t := 0 to |AllTimeframes|
      invariant PartialRow(row, result, rank, t)
    {
      PartialRowStep(row, result, rank, t);
      row := AddTimeframeCells(row, result, AllTimeframes[t]);
    }
    PartialRowDone(row, result, rank);
  }

  /**
   * `export_to_csv`: nothing for no results; otherwise a row per result
   * with its label, score and rank (the number of rows so far plus one),
   * then the three indicator cells of each resolution, empty where the
   * resolution has no indicators.
   */
  method ExportToCsv(results: seq<PairResult>) returns (rows: Option<seq<Row>>)
    ensures rows == ExportRows(results)
  {
    if |results| == 0 {
      return None;
    }
    var exportData: seq<Row> := [];
    for n := 0 to |results|
      invariant |exportData| == n
      invariant forall k | 0 <= k < n :: exportData[k] == RowOf(results[k], k + 1)
    {
      var row := BuildRow(results[n], |exportData| + 1);
      exportData := exportData + [row];
    }
    assert exportData == ExportRows(results).value;
    rows := Some(exportData);
  }

  /** Every column value is one of the export's columns, so every row has every column. */
  lemma EveryColumnExported(c: Column)
    ensures c in ColumnSet()
  {
    match c
    case RsiColumn(tf) => TableListsEachTimeframeOnce(tf);
    case VolumeRatioColumn(tf) => TableListsEachTimeframeOnce(tf);
    case PriceChangeColumn(tf) => TableListsEachTimeframeOnce(tf);
    case _ =>
  }

  lemma PrefixedNamesDiffer(p: string, a: Timeframe, b: Timeframe)
    requires a != b
    ensures p + Code(a) != p + Code(b)
  {
    CodesAreDistinct(a, b);
    assert (p + Code(a))[|p|..] == Code(a);
    assert (p + Code(b))[|p|..] == Code(b);
  }

  /** Different columns have different headers, so no column of the CSV overwrites another. */
  lemma ColumnNamesDistinct(a: Column, b: Column)
    requires a != b
    ensures ColumnName(a) != ColumnName(b)
  {
    if a.RsiColumn? && b.RsiColumn? {
      PrefixedNamesDiffer("RSI_", a.tf, b.tf);
    } else if a.VolumeRatioColumn? && b.VolumeRatioColumn? {
      PrefixedNamesDiffer("Volume_Ratio_", a.tf, b.tf);
    } else if a.PriceChangeColumn? && b.PriceChangeColumn? {
      PrefixedNamesDiffer("Price_Change_", a.tf, b.tf);
    } else {
      var na, nb := ColumnName(a), ColumnName(b);
      assert na[0] != nb[0] || na[1] != nb[1];
    }
  }

  /**
   * In the export of a ranked batch, row k carries rank k+1 and the k-th
   * result's label and score, so a row with a smaller rank never has a lower
   * score.
   */
  lemma RanksFollowScores(results: seq<PairResult>, i: nat, j: nat)
    requires SortedByScore(results)
    requires i < j < |results|
    ensures var rows := ExportRows(results).value;
      && rows[i][RankColumn] == Integer(i + 1) && rows[j][RankColumn] == Integer(j + 1)
      && rows[i][PairColumn] == Text(PairLabel(results[i].pair))
      && rows[i][MomentumScoreColumn].number >= rows[j][MomentumScoreColumn].number
  {
    EveryColumnExported(RankColumn);
    EveryColumnExported(PairColumn);
    EveryColumnExported(MomentumScoreColumn);
  }

  /** The three indicator cells of a resolution are empty together, exactly when the result has no indicators there. */
  lemma IndicatorCellsEmptyTogether(results: seq<PairResult>, k: nat, tf: Timeframe)
    requires k < |results|
    ensures var row := ExportRows(results).value[k];
      && (row[RsiColumn(tf)] == Null <==> !HasIndicators(results[k].timeframeData, tf))
      && (row[VolumeRatioColumn(tf)] == Null <==> !HasIndicators(results[k].timeframeData, tf))
      && (row[PriceChangeColumn(tf)] == Null <==> !HasIndicators(results[k].timeframeData, tf))
  {
    EveryColumnExported(RsiColumn(tf));
    EveryColumnExported(VolumeRatioColumn(tf));
    EveryColumnExported(PriceChangeColumn(tf));
  }
}
