/**
 * `MarketService`: the market page's lists. Stock lists come from one of three gateway
 * rankings chosen by the `sort` parameter and are shaped into list items with defaults for
 * missing fields; the index strip holds KOSPI and KOSDAQ, with fixed values when the
 * gateway fails.
 */
module Market {
  import opened Wrappers
  import opened JavaText
  import opened JavaNumbers
  import opened Domain
  import Stocks

  const RISING: string := "rising"
  const FALLING: string := "falling"
  const VOLUME_FAILURE: string := "Failed to fetch volume rank: "
  const FLUCTUATION_FAILURE: string := "Failed to fetch fluctuation rank: "
  const FALLING_FAILURE: string := "Failed to fetch falling rank: "
  const INDEX_CODE_REQUIRED: string := "Index code is required"
  const INDEX_FAILURE: string := "Failed to fetch market index: "
  const KOSPI: string := "KOSPI"
  const KOSDAQ: string := "KOSDAQ"
  const FALLBACK_KOSPI_VALUE: real := 2500.0
  const FALLBACK_KOSDAQ_VALUE: real := 800.0

  /** Java string concatenation of a possibly null string. */
  function JavaString(s: Option<string>): string {
    if s.Some? then s.value else "null"
  }

  datatype Ranking = VolumeRanking | RisingRanking | FallingRanking

  /** The ranking `getStocksForApi` asks for. */
  function SortRanking(sort: Option<string>): (r: Ranking)
    ensures r == RisingRanking <==> sort.Some? && EqualsIgnoreCase(sort.value, RISING)
    ensures r == FallingRanking <==> sort.Some? && EqualsIgnoreCase(sort.value, FALLING)
  {
    if sort.Some? && EqualsIgnoreCase(sort.value, RISING) then RisingRanking
    else if sort.Some? && EqualsIgnoreCase(sort.value, FALLING) then FallingRanking
    else VolumeRanking
  }

  lemma {:induction false} ToLowerIdempotent(s: string)
    ensures ToLower(ToLower(s)) == ToLower(s)
  {
    var t := ToLower(s);
    assert forall i :: 0 <= i < |s| ==> LowerChar(t[i]) == t[i];
  }

  /** The choice ignores case: a sort value selects what its lower-case form selects. */
  lemma SortRankingIgnoresCase(s: string)
    ensures SortRanking(Some(s)) == SortRanking(Some(ToLower(s)))
  {
    ToLowerIdempotent(s);
  }

  /** `parseStockId`: the trimmed code as a long, 0 when it is null, blank or not a number. */
  function ParseStockId(code: Option<string>): (r: int)
    ensures NullOrBlank(code) ==> r == 0
    ensures InLong(r)
    ensures !NullOrBlank(code) && ParseLong(Trim(code.value)).Some? ==> r == ParseLong(Trim(code.value)).value
    ensures !NullOrBlank(code) && ParseLong(Trim(code.value)).None? ==> r == 0
  {
    if NullOrBlank(code) then 0
    else
      var n := ParseLong(Trim(code.value));
      if n.Some? then n.value else 0
  }

  /** The list id of a stock is the number its six-digit code was padded from, so the list
      links to the detail page of the same stock. */
  lemma ParseStockIdOfDetailCode(n: int)
    requires 0 <= n < 1000000
    ensures ParseStockId(Some(Stocks.DetailCode(Some(n)))) == n
  {
    var code := Stocks.DetailCode(Some(n));
    assert IsAsciiDigit(code[0]) && IsAsciiDigit(code[|code| - 1]);
    assert !IsBlank(code) by { assert !IsWhitespace(code[0]); }
    TrimNoop(code);
  }

  datatype MarketStockItem = MarketStockItem(
    id: int,
    name: string,
    code: Option<string>,
    currentPrice: real,
    change: real,
    changeRate: real)

  /** A quote as a list item: a missing name is "종목_" + code and missing numbers are 0. */
  function ToStockItem(p: StockPrice): (r: MarketStockItem)
    ensures r.id == ParseStockId(p.stockCode) && r.code == p.stockCode
    ensures r.name == p.stockName.GetOr(Stocks.NAME_PREFIX + JavaString(p.stockCode))
    ensures r.currentPrice == p.currentPrice.GetOr(0.0)
    ensures r.change == p.changeAmount.GetOr(0.0) && r.changeRate == p.changeRate.GetOr(0.0)
  {
    MarketStockItem(
      ParseStockId(p.stockCode),
      if p.stockName.Some? then p.stockName.value else Stocks.NAME_PREFIX + JavaString(p.stockCode),
      p.stockCode,
      if p.currentPrice.Some? then p.currentPrice.value else 0.0,
      if p.changeAmount.Some? then p.changeAmount.value else 0.0,
      if p.changeRate.Some? then p.changeRate.value else 0.0)
  }

  function StockItems(list: seq<StockPrice>): (r: seq<MarketStockItem>)
    ensures |r| == |list| && forall i :: 0 <= i < |list| ==> r[i] == ToStockItem(list[i])
  {
    seq(|list|, i requires 0 <= i < |list| => ToStockItem(list[i]))
  }

  /** `getStocksForApi`, given what the three gateway rankings return. A failed volume
      ranking shows an empty list; a failed rising or falling ranking is reported. */
  function GetStocksForApi(sort: Option<string>, volume: Result<seq<StockPrice>>,
                           rising: Result<seq<StockPrice>>, falling: Result<seq<StockPrice>>)
    : (r: Result<seq<MarketStockItem>>)
    ensures SortRanking(sort) == VolumeRanking ==> r == Ok(StockItems(if volume.Ok? then volume.value else []))
    ensures SortRanking(sort) == RisingRanking ==>
      (r.Ok? <==> rising.Ok?) && (r.Ok? ==> r.value == StockItems(rising.value))
      && (r.Err? ==> r.error == Rethrow(rising, FLUCTUATION_FAILURE).error)
    ensures SortRanking(sort) == FallingRanking ==>
      (r.Ok? <==> falling.Ok?) && (r.Ok? ==> r.value == StockItems(falling.value))
      && (r.Err? ==> r.error == Rethrow(falling, FALLING_FAILURE).error)
    ensures r.Err? ==> r.error.ApiError?
  {
    var list :=
      match SortRanking(sort)
      case RisingRanking => Rethrow(rising, FLUCTUATION_FAILURE)
      case FallingRanking => Rethrow(falling, FALLING_FAILURE)
      case VolumeRanking =>
        var v := Rethrow(volume, VOLUME_FAILURE);
        if v.Ok? then v else Ok([]);
    if list.Err? then Err(list.error) else Ok(StockItems(list.value))
  }

  datatype MarketIndexItem = MarketIndexItem(id: int, name: string, value: real, change: real, changeRate: real)

  /** An index as an item of the strip, with its default name and 0 for missing numbers. */
  function IndexItem(id: int, defaultName: string, idx: MarketIndex): (r: MarketIndexItem)
    ensures r.id == id && r.name == idx.indexName.GetOr(defaultName) && r.value == idx.value.GetOr(0.0)
    ensures r.change == idx.changeAmount.GetOr(0.0) && r.changeRate == idx.changeRate.GetOr(0.0)
  {
    MarketIndexItem(id, if idx.indexName.Some? then idx.indexName.value else defaultName,
                    if idx.value.Some? then idx.value.value else 0.0,
                    if idx.changeAmount.Some? then idx.changeAmount.value else 0.0,
                    if idx.changeRate.Some? then idx.changeRate.value else 0.0)
  }

  /** The fixed strip the failure handler appends. */
  const FALLBACK_INDICES: seq<MarketIndexItem> := [
    MarketIndexItem(1, KOSPI, FALLBACK_KOSPI_VALUE, 0.0, 0.0),
    MarketIndexItem(2, KOSDAQ, FALLBACK_KOSDAQ_VALUE, 0.0, 0.0)]

  /** The strip `getIndicesForApi` returns: on a failure the fixed pair is appended after
      whatever was added before it. */
  function IndicesAsWritten(kospi: Result<MarketIndex>, kosdaq: Result<MarketIndex>): seq<MarketIndexItem> {
    if kospi.Err? then FALLBACK_INDICES
    else if kosdaq.Err? then [IndexItem(1, KOSPI, kospi.value)] + FALLBACK_INDICES
    else [IndexItem(1, KOSPI, kospi.value), IndexItem(2, KOSDAQ, kosdaq.value)]
  }

  /** `getIndicesForApi`, given what the gateway returns for "KOSPI" and for "KOSDAQ". */
  method GetIndicesForApi(kospi: Result<MarketIndex>, kosdaq: Result<MarketIndex>) returns (list: seq<MarketIndexItem>)
    ensures kospi.Err? ==> list == FALLBACK_INDICES
    ensures kospi.Ok? && kosdaq.Err? ==> list == [IndexItem(1, KOSPI, kospi.value)] + FALLBACK_INDICES
    ensures kospi.Ok? && kosdaq.Ok? ==> list == [IndexItem(1, KOSPI, kospi.value), IndexItem(2, KOSDAQ, kosdaq.value)]
    ensures list == IndicesAsWritten(kospi, kosdaq)
  {
    list := [];
    if kospi.Err? {
      list := list + FALLBACK_INDICES;
      return;
    }
    list := list + [IndexItem(1, KOSPI, kospi.value)];
    if kosdaq.Err? {
      list := list + FALLBACK_INDICES;
      return;
    }
    list := list + [IndexItem(2, KOSDAQ, kosdaq.value)];
  }

  /** When only KOSDAQ fails, the strip has three entries and KOSPI appears twice under id 1:
      once with the gateway's value and once with the fixed 2500. */
  lemma PartialFailureRepeatsKospi(kospi: MarketIndex, e: Error)
    ensures var r := IndicesAsWritten(Ok(kospi), Err(e));
      |r| == 3 && r[0].id == 1 && r[1].id == 1 && r[1].name == KOSPI && r[2].id == 2
  {
  }

  /** The strip as intended: KOSPI then KOSDAQ, ids 1 and 2, from the gateway when both
      calls succeed and the fixed pair otherwise. */
  function Indices(kospi: Result<MarketIndex>, kosdaq: Result<MarketIndex>): (r: seq<MarketIndexItem>)
    ensures |r| == 2 && r[0].id == 1 && r[1].id == 2
    ensures kospi.Ok? && kosdaq.Ok? ==> r == [IndexItem(1, KOSPI, kospi.value), IndexItem(2, KOSDAQ, kosdaq.value)]
    ensures kospi.Err? || kosdaq.Err? ==> r == FALLBACK_INDICES
  {
    if kospi.Ok? && kosdaq.Ok? then [IndexItem(1, KOSPI, kospi.value), IndexItem(2, KOSDAQ, kosdaq.value)]
    else FALLBACK_INDICES
  }

  /** The intended strip differs from the written one only when KOSPI succeeds and KOSDAQ fails. */
  lemma IndicesAgreeUnlessPartial(kospi: Result<MarketIndex>, kosdaq: Result<MarketIndex>)
    ensures Indices(kospi, kosdaq) == IndicesAsWritten(kospi, kosdaq) <==> !(kospi.Ok? && kosdaq.Err?)
  {
    if kospi.Ok? && kosdaq.Err? {
      assert |IndicesAsWritten(kospi, kosdaq)| == 3;
    }
  }

  /** `getMarketIndex`; `fetch` is the gateway's `getMarketIndex`. */
  function GetMarketIndex(indexCode: Option<string>, fetch: string -> Result<MarketIndex>): (r: Result<MarketIndex>)
    ensures NullOrBlank(indexCode) ==> r == Err(Api(BadRequest, INDEX_CODE_REQUIRED))
    ensures !NullOrBlank(indexCode) ==> (r.Ok? <==> fetch(Trim(indexCode.value)).Ok?)
    ensures !NullOrBlank(indexCode) && r.Ok? ==> r == fetch(Trim(indexCode.value))
    ensures r.Err? ==> r.error.ApiError?
  {
    if NullOrBlank(indexCode) then Err(Api(BadRequest, INDEX_CODE_REQUIRED))
    else Rethrow(fetch(Trim(indexCode.value)), INDEX_FAILURE)
  }
}
