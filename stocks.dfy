/**
 * `StockService`: a stock's quote through the gateway, keyword search, and the detail page
 * of one stock, which carries the caller's position in it (the team's when the caller is in
 * a started team that holds the stock, the personal one otherwise) with its value, profit
 * and profit rate.
 */
module Stocks {
  import opened Wrappers
  import opened JavaText
  import opened JavaNumbers
  import opened Domain
  import KisApi
  import Trade

  const STOCK_CODE_REQUIRED: string := "Stock code is required"
  const PRICE_FAILURE: string := "Failed to fetch stock price: "
  const SEARCH_FAILURE: string := "Failed to search stocks: "
  /** The detail code when no id is given. */
  const NO_ID_CODE: string := "000000"
  const NAME_PREFIX: string := "종목_"
  /** Profit rates are percentages with two decimals. */
  const PERCENT_SCALE: nat := 2
  /** The message of the `ArithmeticException` thrown by `divide(divisor, 2, HALF_UP)` when
      the divisor is zero: its long division divides by zero. */
  const DIVIDE_BY_ZERO: string := "/ by zero"

  /** `getStockPrice`; `fetch` is the gateway's `getStockPrice`. */
  function GetStockPrice(stockCode: Option<string>, fetch: string -> Result<StockPrice>): (r: Result<StockPrice>)
    ensures NullOrBlank(stockCode) ==> r == Err(Api(BadRequest, STOCK_CODE_REQUIRED))
    ensures !NullOrBlank(stockCode) ==> (r.Ok? <==> fetch(Trim(stockCode.value)).Ok?)
    ensures !NullOrBlank(stockCode) && r.Ok? ==> r == fetch(Trim(stockCode.value))
    ensures r.Err? ==> r.error.ApiError?
  {
    if NullOrBlank(stockCode) then Err(Api(BadRequest, STOCK_CODE_REQUIRED))
    else Rethrow(fetch(Trim(stockCode.value)), PRICE_FAILURE)
  }

  /** `searchStocks`: the gateway's search on the trimmed keyword; every failure, an
      `ApiException` included, becomes SERVICE_UNAVAILABLE. */
  function SearchStocks(keyword: Option<string>, volumeRank: Result<seq<StockPrice>>): (r: Result<seq<StockPrice>>)
    ensures NullOrBlank(keyword) ==> r == Ok([])
    ensures r.Err? ==> FailsWith(r, ServiceUnavailable)
    ensures !NullOrBlank(keyword) && r.Ok? ==> r == KisApi.SearchStocks(Some(Trim(keyword.value)), volumeRank)
  {
    if NullOrBlank(keyword) then Ok([])
    else
      match KisApi.SearchStocks(Some(Trim(keyword.value)), volumeRank)
      case Ok(list) => Ok(list)
      case Err(e) => Err(Api(ServiceUnavailable, SEARCH_FAILURE + e.message))
  }

  /** Searching from a ranking finds at most 20 quotes, all of them from the ranking and all
      matching the trimmed, lower-cased keyword. */
  lemma SearchStocksMatches(keyword: string, list: seq<StockPrice>)
    requires !IsBlank(keyword) && !IsBlank(Trim(keyword))
    ensures var r := SearchStocks(Some(keyword), Ok(list));
      r.Ok? && |r.value| <= KisApi.SEARCH_LIMIT
      && forall x :: x in r.value ==> x in list && KisApi.MatchesKeyword(x, ToLower(Trim(keyword)))
  {
    KisApi.SearchStocksSpec(Trim(keyword), list);
    TrimIdempotent(keyword);
  }

  /** The value, profit and profit rate of a position. */
  datatype Figures = Figures(value: real, profit: real, rate: real)

  /** The profit maths of the detail page and of the holdings list: value = current price ×
      quantity, profit = value − average × quantity, and the rate is profit × 100 / (average
      × quantity), HALF_UP to two decimals, or 0 when the average is 0. With a non-zero
      average and no shares the divisor is 0, and the division throws an `ArithmeticException`. */
  function PositionFigures(currentPrice: real, quantity: int, avg: real): (r: Result<Figures>)
    ensures r.Err? <==> avg != 0.0 && quantity == 0
    ensures r.Err? ==> r.error == UnexpectedError(DIVIDE_BY_ZERO)
    ensures r.Ok? ==> (r.value.value == currentPrice * quantity as real
                       && r.value.profit == r.value.value - avg * quantity as real)
    ensures r.Ok? && avg == 0.0 ==> r.value.rate == 0.0
  {
    var value := currentPrice * quantity as real;
    var profit := value - avg * quantity as real;
    if avg == 0.0 then Ok(Figures(value, profit, 0.0))
    else if quantity == 0 then Err(UnexpectedError(DIVIDE_BY_ZERO))
    else Ok(Figures(value, profit, RoundHalfUp(profit * 100.0 / (avg * quantity as real), PERCENT_SCALE)))
  }

  /** The percentage the price moved from the average. */
  function PriceChangePercent(currentPrice: real, avg: real): real
    requires avg != 0.0
  {
    (currentPrice - avg) * 100.0 / avg
  }

  lemma QuantityCancels(currentPrice: real, quantity: int, avg: real)
    requires avg != 0.0 && quantity != 0
    ensures (currentPrice * quantity as real - avg * quantity as real) * 100.0 / (avg * quantity as real)
            == PriceChangePercent(currentPrice, avg)
  {
    var q := quantity as real;
    assert currentPrice * q - avg * q == (currentPrice - avg) * q;
    assert (currentPrice - avg) * q * 100.0 == ((currentPrice - avg) * 100.0) * q;
    assert avg * q != 0.0;
  }

  /** The rate does not depend on the quantity: it is the move of the price from the
      average in percent, within half a hundredth, and it has the sign of that move. */
  lemma PositionRateSpec(currentPrice: real, quantity: int, avg: real)
    requires avg != 0.0 && quantity != 0
    ensures var r := PositionFigures(currentPrice, quantity, avg);
      var exact := PriceChangePercent(currentPrice, avg);
      r.Ok? && -0.005 <= r.value.rate - exact <= 0.005
      && (exact >= 0.0 ==> r.value.rate >= 0.0) && (exact <= 0.0 ==> r.value.rate <= 0.0)
  {
    var exact := PriceChangePercent(currentPrice, avg);
    QuantityCancels(currentPrice, quantity, avg);
    RoundHalfUpError(exact, PERCENT_SCALE);
    RoundHalfUpSign(exact, PERCENT_SCALE);
    assert Pow10(PERCENT_SCALE) == 100.0;
  }

  /** Zeros in front do not change the value of a digit string. */
  lemma {:induction false} LeadingZerosValue(z: nat, s: string)
    requires AllDigits(s)
    ensures AllDigits(seq(z, _ => '0') + s) && DigitsValue(seq(z, _ => '0') + s) == DigitsValue(s)
    decreases |s|
  {
    var t := seq(z, _ => '0') + s;
    if |s| == 0 {
      assert t == seq(z, _ => '0');
      ZerosValue(z);
    } else {
      LeadingZerosValue(z, s[..|s| - 1]);
      assert t[..|t| - 1] == seq(z, _ => '0') + s[..|s| - 1];
    }
  }

  lemma {:induction false} ZerosValue(z: nat)
    ensures AllDigits(seq(z, _ => '0')) && DigitsValue(seq(z, _ => '0')) == 0
  {
    if z > 0 {
      ZerosValue(z - 1);
      assert seq(z, _ => '0')[..z - 1] == seq(z - 1, _ => '0');
    }
  }

  lemma {:induction false} NatToStringLength(n: nat, k: nat)
    requires n < Pow10Int(k)
    ensures |NatToString(n)| <= if k == 0 then 1 else k
    decreases k
  {
    if n >= 10 {
      NatToStringLength(n / 10, k - 1);
    }
  }

  function Pow10Int(k: nat): nat {
    if k == 0 then 1 else 10 * Pow10Int(k - 1)
  }

  /** `%06d` of a number below a million is six digits that read back as the number. */
  lemma ZeroPad6Digits(n: int)
    requires 0 <= n < 1000000
    ensures IsSixDigits(ZeroPad6(n)) && ParseLong(ZeroPad6(n)) == Some(n)
  {
    var digits := NatToString(n);
    assert Pow10Int(6) == 1000000;
    NatToStringLength(n, 6);
    LeadingZerosValue(6 - |digits|, digits);
    DigitsOfNat(n);
    assert ZeroPad6(n) == seq(6 - |digits|, _ => '0') + digits;
  }

  /** The detail code: the id zero-padded to six digits (`%06d`), "000000" without an id.
      A code below a million comes out as six digits that read back as the id. */
  function DetailCode(id: Option<int>): (r: string)
    ensures id.None? ==> r == NO_ID_CODE
    ensures id.Some? && 0 <= id.value < 1000000 ==> IsSixDigits(r) && ParseLong(r) == Some(id.value)
  {
    if id.Some? then
      if 0 <= id.value < 1000000 then ZeroPad6Digits(id.value); ZeroPad6(id.value)
      else ZeroPad6(id.value)
    else NO_ID_CODE
  }

  /** The displayed name: the trimmed quote name, unless that is empty, the code itself or
      six digits, in which case "종목_" + code. */
  function DisplayName(stockName: Option<string>, code: string): (r: string)
    ensures r != [] && r != code && !IsSixDigits(r)
    ensures var t := Trim(stockName.GetOr(""));
      r == (if t == [] || t == code || IsSixDigits(t) then NAME_PREFIX + code else t)
  {
    var t := if stockName.Some? then Trim(stockName.value) else "";
    if t == [] || t == code || IsSixDigits(t) then
      assert (NAME_PREFIX + code)[0] == '종';
      NAME_PREFIX + code
    else t
  }

  datatype MyHolding = MyHolding(quantity: int, avgPrice: real, totalValue: real, totalProfit: real, profitRate: real)

  /** A position as the detail page shows it. */
  function HoldingView(quantity: int, avg: real, currentPrice: real): (r: Result<MyHolding>)
    ensures r.Ok? <==> PositionFigures(currentPrice, quantity, avg).Ok?
    ensures r.Ok? ==> var f := PositionFigures(currentPrice, quantity, avg).value;
      r.value == MyHolding(quantity, avg, f.value, f.profit, f.rate)
  {
    var f := PositionFigures(currentPrice, quantity, avg);
    if f.Err? then Err(f.error) else Ok(MyHolding(quantity, avg, f.value.value, f.value.profit, f.value.rate))
  }

  /** The caller's position in `code`: the team holding when the user's team id names a team
      that holds the stock, otherwise the personal holding, otherwise none. */
  function MyHoldingOf(user: User, code: string, currentPrice: real,
                       teamHoldings: map<Trade.HoldingKey, TeamHolding>,
                       holdings: map<(int, string), Holding>): (r: Result<Option<MyHolding>>)
    ensures var t := Trade.ParseTeamId(user.teamId);
      if t.Some? && (t.value, code) in teamHoldings then
        var h := teamHoldings[(t.value, code)];
        r == (var v := HoldingView(h.quantity, h.averagePurchasePrice, currentPrice);
              if v.Ok? then Ok(Some(v.value)) else Err(v.error))
      else if (user.id, code) in holdings then
        var h := holdings[(user.id, code)];
        r == (var v := HoldingView(h.quantity, h.averagePurchasePrice, currentPrice);
              if v.Ok? then Ok(Some(v.value)) else Err(v.error))
      else r == Ok(None)
  {
    var teamId := Trade.ParseTeamId(user.teamId);
    var team := if teamId.Some? && (teamId.value, code) in teamHoldings then Some(teamHoldings[(teamId.value, code)]) else None;
    if team.Some? then
      var v := HoldingView(team.value.quantity, team.value.averagePurchasePrice, currentPrice);
      if v.Ok? then Ok(Some(v.value)) else Err(v.error)
    else if (user.id, code) in holdings then
      var h := holdings[(user.id, code)];
      var v := HoldingView(h.quantity, h.averagePurchasePrice, currentPrice);
      if v.Ok? then Ok(Some(v.value)) else Err(v.error)
    else Ok(None)
  }

  /** A team member whose team holds the stock sees the team position, whatever the
      personal table holds. */
  lemma TeamHoldingTakesPrecedence(user: User, code: string, currentPrice: real,
                                   teamHoldings: map<Trade.HoldingKey, TeamHolding>,
                                   holdings: map<(int, string), Holding>, roomId: int)
    requires user.teamId == Some(Trade.TEAM_PREFIX + IntToString(roomId)) && InLong(roomId)
    requires (roomId, code) in teamHoldings && teamHoldings[(roomId, code)].quantity > 0
    ensures var r := MyHoldingOf(user, code, currentPrice, teamHoldings, holdings);
      r.Ok? && r.value.Some? && r.value.value.quantity == teamHoldings[(roomId, code)].quantity
      && r.value.value.avgPrice == teamHoldings[(roomId, code)].averagePurchasePrice
  {
    Trade.ParseTeamIdOfTeam(roomId);
  }

  datatype MarketData = MarketData(openPrice: real, closePrice: real, volume: int, lowPrice: real, highPrice: real)

  datatype StockDetail = StockDetail(
    id: int,
    name: string,
    code: string,
    currentPrice: real,
    change: real,
    changeRate: real,
    myHolding: Option<MyHolding>,
    marketData: MarketData)

  /** `getStockDetail` for the stock numbered `id`, seen by `user` (None when anonymous). */
  function GetStockDetail(id: Option<int>, user: Option<User>, fetch: string -> Result<StockPrice>,
                          teamHoldings: map<Trade.HoldingKey, TeamHolding>,
                          holdings: map<(int, string), Holding>): (r: Result<StockDetail>)
    ensures var code := DetailCode(id);
      var quote := GetStockPrice(Some(code), fetch);
      (quote.Err? ==> r == Err(quote.error))
      && (quote.Ok? && user.None? ==> r.Ok? && r.value.myHolding.None?)
      && (quote.Ok? && user.Some? ==>
            var my := MyHoldingOf(user.value, code, quote.value.currentPrice.GetOr(0.0), teamHoldings, holdings);
            (r.Err? <==> my.Err?) && (r.Ok? ==> r.value.myHolding == my.value))
      && (r.Ok? ==>
            var cp := quote.value.currentPrice.GetOr(0.0);
            r.value.id == id.GetOr(0) && r.value.code == code
            && r.value.name == DisplayName(quote.value.stockName, code)
            && r.value.currentPrice == cp
            && r.value.change == quote.value.changeAmount.GetOr(0.0)
            && r.value.changeRate == quote.value.changeRate.GetOr(0.0)
            && r.value.marketData == MarketData(cp, cp, quote.value.volume.GetOr(0), cp, cp))
  {
    var code := DetailCode(id);
    var quote := GetStockPrice(Some(code), fetch);
    if quote.Err? then Err(quote.error)
    else
      var price := quote.value;
      var cp := if price.currentPrice.Some? then price.currentPrice.value else 0.0;
      var my := if user.Some? then MyHoldingOf(user.value, code, cp, teamHoldings, holdings) else Ok(None);
      if my.Err? then Err(my.error)
      else
        Ok(StockDetail(
          if id.Some? then id.value else 0,
          DisplayName(price.stockName, code),
          code,
          cp,
          if price.changeAmount.Some? then price.changeAmount.value else 0.0,
          if price.changeRate.Some? then price.changeRate.value else 0.0,
          my.value,
          MarketData(cp, cp, if price.volume.Some? then price.volume.value else 0, cp, cp)))
  }

  /** The detail code is digits only, so the gateway is asked for exactly that code. */
  lemma DetailQuotesTheCode(id: int, fetch: string -> Result<StockPrice>)
    requires 0 <= id < 1000000
    ensures GetStockPrice(Some(DetailCode(Some(id))), fetch) == Rethrow(fetch(DetailCode(Some(id))), PRICE_FAILURE)
  {
    var code := DetailCode(Some(id));
    assert IsAsciiDigit(code[0]) && IsAsciiDigit(code[|code| - 1]);
    assert !IsBlank(code) by { assert !IsWhitespace(code[0]); }
    TrimNoop(code);
  }
}
