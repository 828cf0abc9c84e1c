/**
 * `MeService`: the signed-in user's investment summary for the home page: the asset
 * figures stored on the user, each personal holding valued at the current quote, and the
 * ongoing competition with the days it has left.
 */
module Me {
  import opened Wrappers
  import opened JavaText
  import opened Domain
  import Stocks
  import Competitions

  datatype InvestmentData = InvestmentData(
    totalAssets: real,
    profitLoss: real,
    profitLossPercentage: real,
    investmentPrincipal: real,
    cashBalance: real)

  /** A row of the holdings list; the holding's own row id is not part of this model. */
  datatype StockHoldingItem = StockHoldingItem(
    name: string,
    quantity: int,
    currentValue: real,
    profitLoss: real,
    profitLossPercentage: real)

  datatype CompetitionData = CompetitionData(name: string, endDate: string, daysRemaining: int)

  datatype MyInvestment = MyInvestment(
    investmentData: InvestmentData,
    stockHoldings: seq<StockHoldingItem>,
    competitionData: Option<CompetitionData>,
    mockTradingStarted: bool)

  /** What an anonymous caller sees. */
  const EMPTY_INVESTMENT: MyInvestment :=
    MyInvestment(InvestmentData(0.0, 0.0, 0.0, 0.0, 0.0), [], None, false)

  /** The item's name: the quote's non-blank name, else "종목_" + code. */
  function ItemName(code: string, quote: Result<StockPrice>): (name: string)
    ensures !IsBlank(name)
    ensures quote.Ok? && !NullOrBlank(quote.value.stockName) ==> name == quote.value.stockName.value
    ensures !(quote.Ok? && !NullOrBlank(quote.value.stockName)) ==> name == Stocks.NAME_PREFIX + code
  {
    assert !IsWhitespace((Stocks.NAME_PREFIX + code)[0]);
    if quote.Ok? && !NullOrBlank(quote.value.stockName) then quote.value.stockName.value
    else Stocks.NAME_PREFIX + code
  }

  /** `toStockHoldingItem`: the holding valued at its quote. A failed quote counts as price 0
      under the name "종목_" + code; a quote without a non-blank name keeps that name too. */
  function ToStockHoldingItem(h: Holding, fetch: string -> Result<StockPrice>): (r: Result<StockHoldingItem>)
    ensures var quote := Stocks.GetStockPrice(Some(h.stockCode), fetch);
      var price := if quote.Ok? then quote.value.currentPrice.GetOr(0.0) else 0.0;
      var f := Stocks.PositionFigures(price, h.quantity, h.averagePurchasePrice);
      (r.Err? <==> f.Err?)
      && (r.Err? ==> r.error == f.error)
      && (r.Ok? ==>
            r.value.quantity == h.quantity
            && r.value.currentValue == price * h.quantity as real
            && r.value.profitLoss == r.value.currentValue - h.averagePurchasePrice * h.quantity as real
            && r.value.profitLossPercentage == f.value.rate
            && !IsBlank(r.value.name)
            && (quote.Ok? && !NullOrBlank(quote.value.stockName) ==> r.value.name == quote.value.stockName.value)
            && (quote.Ok? && NullOrBlank(quote.value.stockName) ==> r.value.name == Stocks.NAME_PREFIX + h.stockCode)
            && (quote.Err? ==> r.value.name == Stocks.NAME_PREFIX + h.stockCode && r.value.currentValue == 0.0))
  {
    var quote := Stocks.GetStockPrice(Some(h.stockCode), fetch);
    var price := if quote.Ok? then quote.value.currentPrice.GetOr(0.0) else 0.0;
    var name := ItemName(h.stockCode, quote);
    var f := Stocks.PositionFigures(price, h.quantity, h.averagePurchasePrice);
    if f.Err? then Err(f.error)
    else Ok(StockHoldingItem(name, h.quantity, f.value.value, f.value.profit, f.value.rate))
  }

  /** A stream's `collect` of results: the first error, or every value in order. */
  function CollectAll<T>(rs: seq<Result<T>>): (r: Result<seq<T>>)
    ensures r.Err? <==> exists i :: 0 <= i < |rs| && rs[i].Err?
    ensures r.Ok? ==> |r.value| == |rs| && forall i :: 0 <= i < |rs| ==> Ok(r.value[i]) == rs[i]
    decreases |rs|
  {
    if rs == [] then Ok([])
    else if rs[0].Err? then Err(rs[0].error)
    else
      var tail := CollectAll(rs[1..]);
      if tail.Err? then
        var j :| 0 <= j < |rs[1..]| && rs[1..][j].Err?;
        assert rs[j + 1] == rs[1..][j];
        Err(tail.error)
      else
        assert forall i :: 1 <= i < |rs| ==> rs[i] == rs[1..][i - 1];
        Ok([rs[0].value] + tail.value)
  }

  /** The holdings mapped in order; the first holding that throws ends the list. */
  function HoldingItems(holdings: seq<Holding>, fetch: string -> Result<StockPrice>): (r: Result<seq<StockHoldingItem>>)
    ensures r.Err? <==> exists i :: 0 <= i < |holdings| && ToStockHoldingItem(holdings[i], fetch).Err?
    ensures r.Ok? ==> (|r.value| == |holdings|
                       && forall i :: 0 <= i < |holdings| ==> Ok(r.value[i]) == ToStockHoldingItem(holdings[i], fetch))
  {
    var items := seq(|holdings|, i requires 0 <= i < |holdings| => ToStockHoldingItem(holdings[i], fetch));
    assert forall i :: 0 <= i < |holdings| ==> items[i] == ToStockHoldingItem(holdings[i], fetch);
    CollectAll(items)
  }

  /** `getMyInvestment`. `holdings` are the user's rows, `ongoing` what `findOngoing`
      returns, `parseDate` and `today` what `daysRemaining` reads, and `mockTradingStarted`
      the answer of `hasUserStartedMockTrading`. */
  function GetMyInvestment(user: Option<User>, holdings: seq<Holding>, fetch: string -> Result<StockPrice>,
                           ongoing: Option<Competitions.Competition>, parseDate: string -> Option<int>, today: int,
                           mockTradingStarted: bool): (r: Result<MyInvestment>)
    ensures user.None? ==> r == Ok(EMPTY_INVESTMENT)
    ensures user.Some? ==> (r.Err? <==> HoldingItems(holdings, fetch).Err?)
    ensures user.Some? && r.Ok? ==>
      var u := user.value;
      var d := r.value.investmentData;
      d.totalAssets == u.totalAssets.GetOr(0.0)
      && d.investmentPrincipal == u.investmentAmount.GetOr(d.totalAssets)
      && d.cashBalance == d.totalAssets
      && d.profitLoss == u.profitLoss.GetOr(0.0)
      && d.profitLossPercentage == u.profitLossRate.GetOr(0.0)
      && r.value.stockHoldings == HoldingItems(holdings, fetch).value
      && r.value.mockTradingStarted == mockTradingStarted
      && (r.value.competitionData.Some? <==> ongoing.Some?)
      && (ongoing.Some? ==>
            var c := r.value.competitionData.value;
            var days := Competitions.DaysRemaining(Some(ongoing.value.endDate), parseDate, today);
            c.name == ongoing.value.name && c.endDate == ongoing.value.endDate
            && c.daysRemaining == (if days > 0 then days else 0))
  {
    if user.None? then Ok(EMPTY_INVESTMENT)
    else
      var u := user.value;
      var totalAssets := if u.totalAssets.Some? then u.totalAssets.value else 0.0;
      var principal := if u.investmentAmount.Some? then u.investmentAmount.value else totalAssets;
      var profitLoss := if u.profitLoss.Some? then u.profitLoss.value else 0.0;
      var profitLossRate := if u.profitLossRate.Some? then u.profitLossRate.value else 0.0;
      var data := InvestmentData(totalAssets, profitLoss, profitLossRate, principal, totalAssets);
      var items := HoldingItems(holdings, fetch);
      if items.Err? then Err(items.error)
      else
        var competition :=
          if ongoing.Some? then
            var days := Competitions.DaysRemaining(Some(ongoing.value.endDate), parseDate, today);
            Some(CompetitionData(ongoing.value.name, ongoing.value.endDate, if days > 0 then days else 0))
          else None;
        Ok(MyInvestment(data, items.value, competition, mockTradingStarted))
  }
}
