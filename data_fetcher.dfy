/**
 * The pure parts of the exchange client: the time window and query of a
 * candle request, the rule for accepting a candle response, and the filter
 * that turns the exchange's instrument catalog into USDT pairs.
 */
module DataFetcher {
  import opened Wrappers
  import opened Strings
  import opened Seqs
  import opened Indicators

  /** The number of bars requested when the caller does not say. */
  const DefaultPeriods: int := 100

  /** The provider code sent with every candle request. */
  const ProviderCode: string := "f"

  /** `timeframe in ['15', '30', '60', '240']`. */
  predicate IsMinuteResolution(timeframe: string) {
    timeframe == "15" || timeframe == "30" || timeframe == "60" || timeframe == "240"
  }

  /** `int(timeframe)` for a minute resolution. */
  function Minutes(timeframe: string): (m: int)
    requires IsMinuteResolution(timeframe)
    ensures m > 0
    ensures timeframe == "15" ==> m == 15
    ensures timeframe == "30" ==> m == 30
    ensures timeframe == "60" ==> m == 60
    ensures timeframe == "240" ==> m == 240
  {
    if timeframe == "15" then 15
    else if timeframe == "30" then 30
    else if timeframe == "60" then 60
    else 240
  }

  /** The length in seconds of one requested bar: a day, the resolution's minutes, or an hour for anything else. */
  function BarSeconds(timeframe: string): (secs: int)
    ensures secs > 0
    ensures timeframe == "1D" ==> secs == 86400
    ensures IsMinuteResolution(timeframe) ==> secs == Minutes(timeframe) * 60
    ensures timeframe != "1D" && !IsMinuteResolution(timeframe) ==> secs == 3600
  {
    if timeframe == "1D" then 24 * 60 * 60
    else if IsMinuteResolution(timeframe) then Minutes(timeframe) * 60
    else 60 * 60
  }

  /** The start of the requested window: `periods` bars before `endTime`. */
  function WindowStart(timeframe: string, endTime: int, periods: int): (start: int)
    ensures endTime - start == periods * BarSeconds(timeframe)
  {
    if timeframe == "1D" then endTime - periods * 24 * 60 * 60
    else if IsMinuteResolution(timeframe) then endTime - periods * Minutes(timeframe) * 60
    else endTime - periods * 60 * 60
  }

  /** The default request for 15-minute bars spans 100 quarter hours: 90000 seconds. */
  lemma DefaultQuarterHourWindow(endTime: int)
    ensures endTime - WindowStart("15", endTime, DefaultPeriods) == 90000
  {
  }

  /** A window of a non-negative number of bars never starts after it ends. */
  lemma WindowNotInverted(timeframe: string, endTime: int, periods: int)
    requires periods >= 0
    ensures WindowStart(timeframe, endTime, periods) <= endTime
  {
  }

  /** Asking for more bars moves the start of the window back, never forward. */
  lemma WindowGrowsWithPeriods(timeframe: string, endTime: int, p: int, q: int)
    requires p <= q
    ensures WindowStart(timeframe, endTime, q) <= WindowStart(timeframe, endTime, p)
  {
    var b := BarSeconds(timeframe);
    assert p * b <= q * b;
  }

  /** The query parameters of a candle request. */
  datatype CandleQuery = CandleQuery(pair: string, from: int, to: int, resolution: string, pcode: string)

  /** The query of `fetch_candlestick_data` for a request made at `endTime` (the clock, in whole seconds). */
  function BuildQuery(pair: string, timeframe: string, endTime: int, periods: int): (q: CandleQuery)
    ensures q.pair == pair && q.resolution == timeframe && q.pcode == ProviderCode
    ensures q.to == endTime && q.to - q.from == periods * BarSeconds(timeframe)
  {
    CandleQuery(pair, WindowStart(timeframe, endTime, periods), endTime, timeframe, ProviderCode)
  }

  /** The decoded JSON body of a candle response, or a body that does not decode. */
  datatype CandleBody = Undecodable | CandleBody(s: Option<string>, data: Option<seq<Candle>>)

  /** What the HTTP call produced: a transport failure, or a status and a body. */
  datatype CandleResponse = TransportFailure | CandleResponse(status: int, body: CandleBody)

  /** The only success path: status 200, `s == 'ok'` and a non-empty `data` list. */
  predicate Accepted(resp: CandleResponse)
    ensures resp.TransportFailure? ==> !Accepted(resp)
    ensures resp.CandleResponse? && resp.status != 200 ==> !Accepted(resp)
    ensures resp.CandleResponse? && resp.body.Undecodable? ==> !Accepted(resp)
    ensures resp.CandleResponse? && resp.body.CandleBody? && resp.body.s != Some("ok") ==> !Accepted(resp)
    ensures resp.CandleResponse? && resp.body.CandleBody? && (resp.body.data.None? || resp.body.data == Some([])) ==> !Accepted(resp)
  {
    && resp.CandleResponse?
    && resp.status == 200
    && resp.body.CandleBody?
    && resp.body.s == Some("ok")
    && resp.body.data.Some?
    && |resp.body.data.value| > 0
  }

  /** Ascending by timestamp. */
  predicate SortedByTime(s: seq<Candle>) {
    forall i, j | 0 <= i < j < |s| :: s[i].time <= s[j].time
  }

  /** Puts `c` in front of the first bar that is not earlier. */
  function InsertByTime(c: Candle, s: seq<Candle>): (r: seq<Candle>)
    requires SortedByTime(s)
    ensures SortedByTime(r)
    ensures multiset(r) == multiset(s) + multiset{c}
  {
    if s == [] || c.time <= s[0].time then
      [c] + s
    else
      var rest := InsertByTime(c, s[1..]);
      assert s == [s[0]] + s[1..];
      forall y | y in rest ensures s[0].time <= y.time {
        assert y in multiset(rest);
      }
      PrependByTime(s[0], rest);
      [s[0]] + rest
  }

  lemma PrependByTime(h: Candle, t: seq<Candle>)
    requires SortedByTime(t)
    requires forall y | y in t :: h.time <= y.time
    ensures SortedByTime([h] + t)
  {
    var r := [h] + t;
    forall i, j | 0 <= i < j < |r| ensures r[i].time <= r[j].time {
      assert r[j] == t[j - 1];
      if i > 0 {
        assert r[i] == t[i - 1];
      }
    }
  }

  /**
   * `df.sort_values('timestamp')`. The sort pandas uses by default is not
   * stable, so bars with equal timestamps may come out in any order; this is
   * one of the orders it may produce.
   */
  function SortByTime(s: seq<Candle>): (r: seq<Candle>)
    ensures SortedByTime(r)
    ensures multiset(r) == multiset(s)
  {
    if s == [] then []
    else
      assert s == [s[0]] + s[1..];
      InsertByTime(s[0], SortByTime(s[1..]))
  }

  /**
   * `fetch_candlestick_data` after the HTTP call: the response's bars sorted
   * by time when the response is accepted, otherwise None.
   */
  function FetchCandlestickData(resp: CandleResponse): (r: Option<seq<Candle>>)
    ensures r.Some? <==> Accepted(resp)
    ensures r.Some? ==> |r.value| > 0 && SortedByTime(r.value)
    ensures r.Some? ==> multiset(r.value) == multiset(resp.body.data.value)
  {
    if Accepted(resp) then Some(SortByTime(resp.body.data.value)) else None
  }

  /** An element of the instrument catalog: a string or any other JSON value. */
  datatype CatalogItem = Symbol(name: string) | OtherValue

  /** What the catalog request produced: a failure (transport or decoding), or a status and the decoded list. */
  datatype CatalogResponse = CatalogFailure | Catalog(status: int, items: seq<CatalogItem>)

  /** A catalog element that is a string containing "USDT". */
  predicate IsUsdtSymbol(item: CatalogItem) {
    item.Symbol? && Contains(item.name, "USDT")
  }

  /** The names of the catalog elements that are USDT symbols, in catalog order. */
  function UsdtSymbols(items: seq<CatalogItem>): (r: seq<string>)
    ensures |r| <= |items|
    ensures forall name :: name in r <==> Symbol(name) in items && Contains(name, "USDT")
  {
    if items == [] then []
    else
      assert items == [items[0]] + items[1..];
      (if IsUsdtSymbol(items[0]) then [items[0].name] else []) + UsdtSymbols(items[1..])
  }

  /** The catalog element of each name. */
  function AsItems(names: seq<string>): (r: seq<CatalogItem>)
    ensures |r| == |names|
    ensures forall k | 0 <= k < |names| :: r[k] == Symbol(names[k])
  {
    seq(|names|, k requires 0 <= k < |names| => Symbol(names[k]))
  }

  lemma AsItemsAppend(a: seq<string>, b: seq<string>)
    ensures AsItems(a + b) == AsItems(a) + AsItems(b)
  {
  }

  /** The USDT symbols are exactly the catalog filtered by IsUsdtSymbol. */
  lemma {:induction false} UsdtSymbolsAreFilter(items: seq<CatalogItem>)
    ensures AsItems(UsdtSymbols(items)) == Filter(items, IsUsdtSymbol)
  {
    if items != [] {
      UsdtSymbolsAreFilter(items[1..]);
      var head := if IsUsdtSymbol(items[0]) then [items[0].name] else [];
      assert UsdtSymbols(items) == head + UsdtSymbols(items[1..]);
      AsItemsAppend(head, UsdtSymbols(items[1..]));
    }
  }

  /** So the USDT symbols keep the catalog's order. */
  lemma UsdtSymbolsInCatalogOrder(items: seq<CatalogItem>)
    ensures IsSubsequence(AsItems(UsdtSymbols(items)), items)
  {
    UsdtSymbolsAreFilter(items);
    FilterIsSubsequence(items, IsUsdtSymbol);
  }

  /** `get_active_instruments`: the USDT symbols of a status-200 catalog, otherwise nothing. */
  function GetActiveInstruments(resp: CatalogResponse): (r: seq<string>)
    ensures !(resp.Catalog? && resp.status == 200) ==> r == []
    ensures resp.Catalog? && resp.status == 200 ==>
      forall name :: name in r <==> Symbol(name) in resp.items && Contains(name, "USDT")
  {
    if resp.Catalog? && resp.status == 200 then UsdtSymbols(resp.items) else []
  }
}
