/**
 * `TradeService`: team orders against a team account (cash) and team holdings (one row per
 * team and stock code), each successful execution recorded as a COMPLETED order; and order
 * cancellation. The two repositories are the fields of `TradeService`; the ledger
 * arithmetic is the pure function `Execute`, about which the lemmas below are stated.
 */
module Trade {
  import opened Wrappers
  import opened JavaText
  import opened JavaNumbers
  import opened Domain
  import KisApi

  const INITIAL_TEAM_BALANCE: real := 10000000.0
  /** Fraction digits kept by the average purchase price. */
  const AVERAGE_SCALE: nat := 4
  const TEAM_PREFIX: string := "team-"

  /** `parseTeamId`: the number after "team-" in a user's team id, or null. */
  function ParseTeamId(teamId: Option<string>): (r: Option<int>)
    ensures r.Some? ==> InLong(r.value)
  {
    if NullOrBlank(teamId) || !StartsWith(teamId.value, TEAM_PREFIX) then None
    else ParseLong(teamId.value[|TEAM_PREFIX|..])
  }

  /** "team-<n>" reads back as n. */
  lemma ParseTeamIdOfTeam(n: int)
    requires InLong(n)
    ensures ParseTeamId(Some(TEAM_PREFIX + IntToString(n))) == Some(n)
  {
    var s := TEAM_PREFIX + IntToString(n);
    assert s[|TEAM_PREFIX|..] == IntToString(n);
    assert s[..|TEAM_PREFIX|] == TEAM_PREFIX;
    assert !IsWhitespace(s[0]);
    ParseLongOfToString(n);
  }

  /** A missing team id, or one without the "team-" prefix, gives no team. */
  lemma ParseTeamIdNeedsPrefix(teamId: Option<string>)
    requires teamId.None? || !StartsWith(teamId.value, TEAM_PREFIX)
    ensures ParseTeamId(teamId).None?
  {
  }

  /** `PlaceOrderRequestDTO`; the quantity is a Java `int`, the others may be null. */
  datatype PlaceOrderRequest = PlaceOrderRequest(
    stockCode: Option<string>,
    stockName: Option<string>,
    quantity: int,
    price: Option<real>,
    orderType: Option<OrderType>)

  /** The shared validation of `placeOrder` and `placeOrderForTeam`, in the source's order. */
  function ValidationError(req: PlaceOrderRequest): (r: Option<Error>)
    ensures r.None? <==>
      !NullOrBlank(req.stockCode) && req.quantity > 0 && req.price.Some? && req.price.value > 0.0
      && req.orderType.Some?
    ensures r.Some? ==> r.value.ApiError? && r.value.status == BadRequest
  {
    if NullOrBlank(req.stockCode) then Some(Api(BadRequest, "Stock code is required"))
    else if req.quantity <= 0 then Some(Api(BadRequest, "Quantity must be positive"))
    else if req.price.None? || req.price.value <= 0.0 then Some(Api(BadRequest, "Price must be positive"))
    else if req.orderType.None? then Some(Api(BadRequest, "Order type is required"))
    else None
  }

  type HoldingKey = (int, string)

  /** The two tables `executeTeamOrder` changes: team cash balances and team holdings. */
  datatype Ledger = Ledger(cash: map<int, real>, holdings: map<HoldingKey, TeamHolding>)

  /** Cash never negative; every holding row is filed under its own key, holds a positive
      quantity and has a non-negative average price. */
  predicate ValidLedger(l: Ledger) {
    (forall t :: t in l.cash ==> l.cash[t] >= 0.0)
    && (forall k :: k in l.holdings ==>
          l.holdings[k].teamId == k.0 && l.holdings[k].stockCode == k.1
          && l.holdings[k].quantity > 0 && l.holdings[k].averagePurchasePrice >= 0.0)
  }

  /** A team's cash; a team without an account has the opening balance. */
  function CashOf(l: Ledger, teamId: int): real {
    if teamId in l.cash then l.cash[teamId] else INITIAL_TEAM_BALANCE
  }

  /** How the buy path adds the held and the bought quantity. */
  datatype QuantitySum = Exact | Int32

  function AddQuantities(held: int, bought: int, sum: QuantitySum): int {
    match sum
    case Exact => held + bought
    case Int32 => Wrap32(held + bought)
  }

  /** The holding after a purchase of `qty` at `price`, given the new total quantity. */
  function BoughtHolding(existing: Option<TeamHolding>, teamId: int, code: string, name: Option<string>,
                         qty: int, price: real, newQty: int): TeamHolding
    requires newQty != 0
  {
    var usableName := if NullOrBlank(name) then None else name;
    match existing
    case None => TeamHolding(teamId, code, usableName, qty, price)
    case Some(h) => AddedTo(h, usableName, qty, price, newQty)
  }

  /** The unrounded average after buying `qty` at `price` onto `heldQty` at `heldAverage`:
      the total cost over the new quantity. */
  function WeightedMean(heldQty: int, heldAverage: real, qty: int, price: real, newQty: int): real
    requires newQty != 0
  {
    (heldAverage * heldQty as real + price * qty as real) / newQty as real
  }

  /** With positive quantities the mean lies between the held average and the price. */
  lemma WeightedMeanBetween(heldQty: int, heldAverage: real, qty: int, price: real)
    requires heldQty > 0 && qty > 0
    ensures var m := WeightedMean(heldQty, heldAverage, qty, price, heldQty + qty);
      (heldAverage <= price ==> heldAverage <= m <= price)
      && (price <= heldAverage ==> price <= m <= heldAverage)
  {
    var n := (heldQty + qty) as real;
    var total := heldAverage * heldQty as real + price * qty as real;
    var m := total / n;
    assert m * n == total;
    assert heldAverage * n == heldAverage * heldQty as real + heldAverage * qty as real;
    assert price * n == price * heldQty as real + price * qty as real;
    if heldAverage <= price {
      assert heldAverage * qty as real <= price * qty as real;
      assert heldAverage * heldQty as real <= price * heldQty as real;
      assert heldAverage * n <= m * n <= price * n;
    } else {
      assert price * qty as real <= heldAverage * qty as real;
      assert price * heldQty as real <= heldAverage * heldQty as real;
      assert price * n <= m * n <= heldAverage * n;
    }
  }

  /** A held row after a further purchase: the new quantity, the weighted mean price HALF_UP
      to four places, and the new name when one was given. */
  function AddedTo(h: TeamHolding, usableName: Option<string>, qty: int, price: real, newQty: int): TeamHolding
    requires newQty != 0
  {
    TeamHolding(h.teamId, h.stockCode, if usableName.Some? then usableName else h.stockName,
                newQty, RoundHalfUp(WeightedMean(h.quantity, h.averagePurchasePrice, qty, price, newQty), AVERAGE_SCALE))
  }

  /**
   * The ledger part of `executeTeamOrder`, with the buy path's quantity addition chosen by
   * `sum`. A failure leaves nothing behind: the whole call is one transaction, so the
   * lazily created account is rolled back as well.
   */
  function ExecuteWith(l: Ledger, teamId: int, code: string, name: Option<string>, qty: int, price: real,
                       side: OrderType, sum: QuantitySum): Result<Ledger>
  {
    var cash := CashOf(l, teamId);
    var amount := price * qty as real;
    var key := (teamId, code);
    match side
    case Buy =>
      if cash < amount then Err(Api(BadRequest, "팀 잔액이 부족합니다."))
      else
        var existing := if key in l.holdings then Some(l.holdings[key]) else None;
        var newQty := if existing.Some? then AddQuantities(existing.value.quantity, qty, sum) else qty;
        if newQty == 0 then Err(UnexpectedError("Division by zero"))
        else
          Ok(Ledger(l.cash[teamId := cash - amount],
                    l.holdings[key := BoughtHolding(existing, teamId, code, name, qty, price, newQty)]))
    case Sell =>
      if key !in l.holdings then Err(Api(BadRequest, "보유 수량이 없어 매도할 수 없습니다."))
      else
        var h := l.holdings[key];
        if h.quantity < qty then Err(Api(BadRequest, "보유 수량이 부족합니다. 보유: " + IntToString(h.quantity)))
        else
          var remain := h.quantity - qty;
          Ok(Ledger(l.cash[teamId := cash + amount],
                    if remain <= 0 then l.holdings - {key} else l.holdings[key := h.(quantity := remain)]))
  }

  /** The ledger step with exact quantity addition. */
  function Execute(l: Ledger, teamId: int, code: string, name: Option<string>, qty: int, price: real,
                   side: OrderType): Result<Ledger>
  {
    ExecuteWith(l, teamId, code, name, qty, price, side, Exact)
  }

  /** A buy succeeds exactly when the team can pay for it; it opens the account if needed,
      debits exactly price×qty and leaves every other team's cash alone. */
  lemma BuyDebits(l: Ledger, teamId: int, code: string, name: Option<string>, qty: int, price: real)
    requires ValidLedger(l) && qty > 0 && price > 0.0
    ensures var r := Execute(l, teamId, code, name, qty, price, Buy);
      (r.Ok? <==> CashOf(l, teamId) >= price * qty as real)
      && (r.Err? ==> r == Err(Api(BadRequest, "팀 잔액이 부족합니다.")))
      && (r.Ok? ==>
            teamId in r.value.cash && r.value.cash[teamId] == CashOf(l, teamId) - price * qty as real
            && r.value.cash[teamId] >= 0.0
            && (forall t :: t != teamId ==> CashOf(r.value, t) == CashOf(l, t)))
  {
  }

  /** A first purchase records the price as the average; a further one adds the quantity
      and sets the average to the weighted mean, HALF_UP to four places. Other holdings
      are untouched. */
  lemma BuyAverages(l: Ledger, teamId: int, code: string, name: Option<string>, qty: int, price: real)
    requires ValidLedger(l) && qty > 0 && price > 0.0
    requires Execute(l, teamId, code, name, qty, price, Buy).Ok?
    ensures var l' := Execute(l, teamId, code, name, qty, price, Buy).value;
      var key := (teamId, code);
      key in l'.holdings
      && (key !in l.holdings ==>
            l'.holdings[key] == TeamHolding(teamId, code, if NullOrBlank(name) then None else name, qty, price))
      && (key in l.holdings ==>
            var h := l.holdings[key];
            l'.holdings[key].quantity == h.quantity + qty
            && l'.holdings[key].averagePurchasePrice
               == RoundHalfUp(WeightedMean(h.quantity, h.averagePurchasePrice, qty, price, h.quantity + qty), AVERAGE_SCALE))
      && (forall k :: k != key ==> (k in l'.holdings <==> k in l.holdings))
      && (forall k :: k != key && k in l.holdings ==> l'.holdings[k] == l.holdings[k])
  {
    var key := (teamId, code);
    var existing := if key in l.holdings then Some(l.holdings[key]) else None;
    var newQty := if existing.Some? then existing.value.quantity + qty else qty;
    BuyResult(l, teamId, code, name, qty, price);
    var b := BoughtHolding(existing, teamId, code, name, qty, price, newQty);
    if existing.Some? {
      BoughtAverage(existing.value, teamId, code, name, qty, price);
    }
  }

  lemma BoughtAverage(h: TeamHolding, teamId: int, code: string, name: Option<string>, qty: int, price: real)
    requires h.quantity + qty != 0
    ensures var b := BoughtHolding(Some(h), teamId, code, name, qty, price, h.quantity + qty);
      b.quantity == h.quantity + qty
      && b.averagePurchasePrice
         == RoundHalfUp(WeightedMean(h.quantity, h.averagePurchasePrice, qty, price, h.quantity + qty), AVERAGE_SCALE)
  {
  }

  /** The ledger a successful buy leaves. */
  lemma BuyResult(l: Ledger, teamId: int, code: string, name: Option<string>, qty: int, price: real)
    requires ValidLedger(l) && qty > 0
    requires Execute(l, teamId, code, name, qty, price, Buy).Ok?
    ensures var key := (teamId, code);
      var existing := if key in l.holdings then Some(l.holdings[key]) else None;
      var newQty := if existing.Some? then existing.value.quantity + qty else qty;
      newQty > 0
      && Execute(l, teamId, code, name, qty, price, Buy).value
         == Ledger(l.cash[teamId := CashOf(l, teamId) - price * qty as real],
                   l.holdings[key := BoughtHolding(existing, teamId, code, name, qty, price, newQty)])
  {
  }

  /** A sell fails without a holding or with too few shares; otherwise the team is credited
      price×qty, and the row loses exactly qty shares, keeping its average, or is deleted
      when nothing remains. */
  lemma SellCredits(l: Ledger, teamId: int, code: string, name: Option<string>, qty: int, price: real)
    requires ValidLedger(l) && qty > 0 && price > 0.0
    ensures var r := Execute(l, teamId, code, name, qty, price, Sell);
      var key := (teamId, code);
      (r.Ok? <==> key in l.holdings && l.holdings[key].quantity >= qty)
      && (r.Err? ==> r.error.ApiError? && r.error.status == BadRequest)
      && (r.Ok? ==>
            r.value.cash[teamId] == CashOf(l, teamId) + price * qty as real
            && (forall t :: t != teamId ==> CashOf(r.value, t) == CashOf(l, t))
            && (l.holdings[key].quantity == qty ==> key !in r.value.holdings)
            && (l.holdings[key].quantity > qty ==>
                  key in r.value.holdings
                  && r.value.holdings[key].quantity == l.holdings[key].quantity - qty
                  && r.value.holdings[key].averagePurchasePrice == l.holdings[key].averagePurchasePrice)
            && (forall k :: k != key ==> (k in r.value.holdings <==> k in l.holdings)))
  {
  }

  /** Executing a validated order keeps the ledger valid: cash stays non-negative and
      quantities stay positive. */
  lemma ExecutePreservesValid(l: Ledger, teamId: int, code: string, name: Option<string>, qty: int, price: real,
                              side: OrderType)
    requires ValidLedger(l) && qty > 0 && price > 0.0
    requires Execute(l, teamId, code, name, qty, price, side).Ok?
    ensures ValidLedger(Execute(l, teamId, code, name, qty, price, side).value)
  {
    if side == Buy {
      BuyPreservesValid(l, teamId, code, name, qty, price);
    } else {
      SellPreservesValid(l, teamId, code, name, qty, price);
    }
  }

  lemma BuyPreservesValid(l: Ledger, teamId: int, code: string, name: Option<string>, qty: int, price: real)
    requires ValidLedger(l) && qty > 0 && price > 0.0
    requires Execute(l, teamId, code, name, qty, price, Buy).Ok?
    ensures ValidLedger(Execute(l, teamId, code, name, qty, price, Buy).value)
  {
    var l' := Execute(l, teamId, code, name, qty, price, Buy).value;
    var key := (teamId, code);
    var existing := if key in l.holdings then Some(l.holdings[key]) else None;
    var newQty := if existing.Some? then existing.value.quantity + qty else qty;
    BuyResult(l, teamId, code, name, qty, price);
    var b := BoughtHolding(existing, teamId, code, name, qty, price, newQty);
    assert l'.holdings == l.holdings[key := b];
    assert l'.cash == l.cash[teamId := CashOf(l, teamId) - price * qty as real];
    if existing.Some? {
      BoughtAverageNonNegative(existing.value, teamId, code, name, qty, price);
    }
    assert b.teamId == teamId && b.stockCode == code && b.quantity > 0 && b.averagePurchasePrice >= 0.0;
  }

  lemma BoughtAverageNonNegative(h: TeamHolding, teamId: int, code: string, name: Option<string>, qty: int, price: real)
    requires h.quantity > 0 && h.averagePurchasePrice >= 0.0 && qty > 0 && price > 0.0
    ensures BoughtHolding(Some(h), teamId, code, name, qty, price, h.quantity + qty).averagePurchasePrice >= 0.0
  {
    var m := WeightedMean(h.quantity, h.averagePurchasePrice, qty, price, h.quantity + qty);
    WeightedMeanBetween(h.quantity, h.averagePurchasePrice, qty, price);
    assert m >= 0.0;
    RoundHalfUpSign(m, AVERAGE_SCALE);
  }

  lemma SellPreservesValid(l: Ledger, teamId: int, code: string, name: Option<string>, qty: int, price: real)
    requires ValidLedger(l) && qty > 0 && price > 0.0
    requires Execute(l, teamId, code, name, qty, price, Sell).Ok?
    ensures ValidLedger(Execute(l, teamId, code, name, qty, price, Sell).value)
  {
  }

  lemma Pow10Four()
    ensures Pow10(AVERAGE_SCALE) == 10000.0
  {
    assert Pow10(1) == 10.0;
    assert Pow10(2) == 100.0;
    assert Pow10(3) == 1000.0;
  }

  /** From a fresh team: 10 shares at 100, then 10 more at 200, hold 20 at 150. */
  lemma WeightedAverageExample()
    ensures var l0 := Ledger(map[], map[]);
      var l1 := Execute(l0, 1, "005930", None, 10, 100.0, Buy);
      l1.Ok? &&
      var l2 := Execute(l1.value, 1, "005930", None, 10, 200.0, Buy);
      l2.Ok? && (1, "005930") in l2.value.holdings
      && l2.value.holdings[(1, "005930")].quantity == 20
      && l2.value.holdings[(1, "005930")].averagePurchasePrice == 150.0
      && l2.value.cash[1] == INITIAL_TEAM_BALANCE - 3000.0
  {
    Pow10Four();
    RoundHalfUpExact(1500000, AVERAGE_SCALE);
    assert 1500000 as real / Pow10(AVERAGE_SCALE) == 150.0;
    assert (100.0 * 10 as real + 200.0 * 10 as real) / 20 as real == 150.0;
  }

  /** As written, the new quantity is a Java `int` sum: two purchases of 2147483647 shares
      at 0.001 leave a holding of -2 shares. */
  lemma Int32QuantityOverflow()
    ensures var l0 := Ledger(map[], map[]);
      var l1 := ExecuteWith(l0, 1, "005930", None, INT_MAX, 0.001, Buy, Int32);
      l1.Ok? && ValidLedger(l1.value) &&
      var l2 := ExecuteWith(l1.value, 1, "005930", None, INT_MAX, 0.001, Buy, Int32);
      l2.Ok? && l2.value.holdings[(1, "005930")].quantity == -2
      && !ValidLedger(l2.value)
  {
    assert Wrap32(INT_MAX + INT_MAX) == -2;
  }

  /** With exact addition the same two purchases hold 4294967294 shares. */
  lemma ExactQuantitySum()
    ensures var l0 := Ledger(map[], map[]);
      var l1 := Execute(l0, 1, "005930", None, INT_MAX, 0.001, Buy);
      l1.Ok? &&
      var l2 := Execute(l1.value, 1, "005930", None, INT_MAX, 0.001, Buy);
      l2.Ok? && l2.value.holdings[(1, "005930")].quantity == 2 * INT_MAX
  {
  }

  /** A row of the `orders` table; the user is null for a vote order whose proposer is gone. */
  datatype Order = Order(
    id: int,
    userId: Option<int>,
    teamId: int,
    stockCode: string,
    quantity: int,
    price: real,
    orderType: OrderType,
    status: OrderStatus,
    orderDate: int)

  /** `OrderResponseDTO`. */
  datatype OrderResponse = OrderResponse(
    orderId: int,
    stockCode: string,
    quantity: int,
    price: real,
    orderType: OrderType,
    status: OrderStatus,
    orderDate: int,
    externalOrderNo: Option<string>,
    message: Option<string>)

  function ToResponse(o: Order): OrderResponse {
    OrderResponse(o.id, o.stockCode, o.quantity, o.price, o.orderType, o.status, o.orderDate, None, None)
  }

  /**
   * `executeTeamOrder` as a whole: the ledger step, then the gateway's order call, whose
   * ApiException is rethrown unchanged, then the recorded order `nextId` and the response.
   * `now` is the clock, read for the order date and by the gateway stub.
   */
  function TeamOrder(l: Ledger, nextId: int, userId: Option<int>, teamId: int, code: string, name: Option<string>,
                     qty: int, price: real, side: OrderType, now: int): (r: Result<(Ledger, Order, OrderResponse)>)
  {
    var step := Execute(l, teamId, code, name, qty, price, side);
    if step.Err? then Err(step.error)
    else
      var ack := KisApi.PlaceOrder(Some(code), qty, Some(price), side, now);
      if ack.Err? then Err(ack.error)
      else
        var o := Order(nextId, userId, teamId, code, qty, price, side, Completed, now);
        Ok((step.value, o,
            ToResponse(o).(externalOrderNo := Some(ack.value.externalOrderNo), message := Some(ack.value.message))))
  }

  /** For a validated order the gateway never refuses, so the execution succeeds exactly
      when the ledger step does, and records one COMPLETED order of the requested code,
      quantity, price and side. */
  lemma TeamOrderRecordsCompleted(l: Ledger, nextId: int, userId: Option<int>, teamId: int, code: string,
                                  name: Option<string>, qty: int, price: real, side: OrderType, now: int)
    requires !IsBlank(code) && qty > 0 && price > 0.0
    ensures var r := TeamOrder(l, nextId, userId, teamId, code, name, qty, price, side, now);
      var step := Execute(l, teamId, code, name, qty, price, side);
      (r.Ok? <==> step.Ok?)
      && (r.Err? ==> r.error == step.error)
      && (r.Ok? ==>
            r.value.0 == step.value
            && r.value.1 == Order(nextId, userId, teamId, code, qty, price, side, Completed, now)
            && r.value.2.orderId == nextId && r.value.2.status == Completed
            && r.value.2.externalOrderNo.Some? && StartsWith(r.value.2.externalOrderNo.value, "ORD-"))
  {
    KisApi.PlaceOrderAccepts(Some(code), qty, Some(price), side, now);
  }

  /** `placeOrder` as a whole: validation, then the caller's team, then the execution. */
  function PlaceOrderOutcome(l: Ledger, nextId: int, req: PlaceOrderRequest, user: User, now: int)
    : (r: Result<(Ledger, Order, OrderResponse)>)
    ensures ValidationError(req).Some? ==> r == Err(ValidationError(req).value)
    ensures ValidationError(req).None? && ParseTeamId(user.teamId).None? ==> FailsWith(r, Forbidden)
  {
    if ValidationError(req).Some? then Err(ValidationError(req).value)
    else
      var teamId := ParseTeamId(user.teamId);
      if teamId.None? then Err(Api(Forbidden, "팀에 소속된 후 거래할 수 있습니다."))
      else TeamOrder(l, nextId, Some(user.id), teamId.value, req.stockCode.value, req.stockName,
                     req.quantity, req.price.value, req.orderType.value, now)
  }

  /** `placeOrderForTeam` as a whole: the same validation, then a missing team is refused. */
  function PlaceOrderForTeamOutcome(l: Ledger, nextId: int, req: PlaceOrderRequest, teamId: Option<int>,
                                    orderUser: Option<User>, now: int)
    : (r: Result<(Ledger, Order, OrderResponse)>)
    ensures ValidationError(req).Some? ==> r == Err(ValidationError(req).value)
    ensures ValidationError(req).None? && teamId.None? ==> FailsWith(r, BadRequest)
  {
    if ValidationError(req).Some? then Err(ValidationError(req).value)
    else if teamId.None? then Err(Api(BadRequest, "teamId is required"))
    else TeamOrder(l, nextId, if orderUser.Some? then Some(orderUser.value.id) else None, teamId.value,
                   req.stockCode.value, req.stockName, req.quantity, req.price.value, req.orderType.value, now)
  }

  /** `TradeRequestDTO` of the public trade endpoint. */
  datatype TradeRequest = TradeRequest(
    stockId: Option<int>,
    side: Option<string>,
    quantity: Option<int>,
    pricePerShare: Option<real>)

  /** `TradeResponseDTO`; `executedAt` is the order date (its ISO formatting is not modelled). */
  datatype TradeResponse = TradeResponse(success: bool, message: string, orderId: string, executedAt: int)

  /** The checks of `placeOrderFromSpec` and the order request they build: the id printed
      with `%06d`, and SELL only for a side equal to "sell" ignoring case. */
  function SpecToPlaceOrder(req: TradeRequest): (r: Result<PlaceOrderRequest>)
  {
    if req.stockId.None? then Err(Api(BadRequest, "stockId is required"))
    else if req.quantity.None? || req.quantity.value <= 0 then Err(Api(BadRequest, "quantity must be positive"))
    else if req.pricePerShare.None? || req.pricePerShare.value <= 0.0 then
      Err(Api(BadRequest, "pricePerShare must be positive"))
    else
      var side := if req.side.Some? && EqualsIgnoreCase("sell", req.side.value) then Sell else Buy;
      Ok(PlaceOrderRequest(Some(ZeroPad6(req.stockId.value)), None, req.quantity.value,
                           req.pricePerShare, Some(side)))
  }

  /** A request that passes these checks also passes `placeOrder`'s validation, and its
      side is SELL exactly for "sell" in any case. */
  lemma SpecRequestPassesValidation(req: TradeRequest)
    ensures var r := SpecToPlaceOrder(req);
      (r.Ok? <==> req.stockId.Some? && req.quantity.Some? && req.quantity.value > 0
                  && req.pricePerShare.Some? && req.pricePerShare.value > 0.0)
      && (r.Ok? ==>
            ValidationError(r.value).None?
            && r.value.stockCode == Some(ZeroPad6(req.stockId.value))
            && (r.value.orderType == Some(Sell) <==> req.side.Some? && EqualsIgnoreCase("sell", req.side.value)))
  {
    if SpecToPlaceOrder(req).Ok? {
      var code := ZeroPad6(req.stockId.value);
      assert !IsWhitespace(code[0]) by {
        ZeroPad6Head(req.stockId.value);
      }
    }
  }

  /** `%06d` text begins with a digit or a minus sign. */
  lemma ZeroPad6Head(n: int)
    ensures |ZeroPad6(n)| >= 1 && (ZeroPad6(n)[0] == '-' || IsAsciiDigit(ZeroPad6(n)[0]))
  {
    var digits := NatToString(if n < 0 then -n else n);
    if n >= 0 && |digits| >= 6 {
      assert ZeroPad6(n) == digits;
    }
  }

  /** The cancellation step on the order table: NOT_FOUND, a null owner (a
      NullPointerException), FORBIDDEN for another user, BAD_REQUEST when already
      cancelled; otherwise the order becomes CANCELLED. The gateway cancel is called with
      the order id, a non-blank number, and so never fails. */
  function Cancel(orders: seq<Order>, orderId: int, userId: int): (r: Result<seq<Order>>)
  {
    if !(1 <= orderId <= |orders|) then Err(Api(NotFound, "Order not found"))
    else
      var o := orders[orderId - 1];
      if o.userId.None? then Err(UnexpectedError("NullPointerException"))
      else if o.userId.value != userId then Err(Api(Forbidden, "Not authorized to cancel this order"))
      else if o.status == Cancelled then Err(Api(BadRequest, "Order already cancelled"))
      else
        var kis := KisApi.CancelOrder(Some(IntToString(o.id)));
        if kis.Err? then Err(Api(ServiceUnavailable, "Cancel failed: " + kis.error.message))
        else Ok(orders[orderId - 1 := o.(status := Cancelled)])
  }

  /** Cancelling changes one order's status to CANCELLED and nothing else; it succeeds
      exactly for an existing, own, not yet cancelled order. */
  lemma CancelIsStatusTransition(orders: seq<Order>, orderId: int, userId: int)
    requires forall i :: 0 <= i < |orders| ==> orders[i].id == i + 1
    ensures var r := Cancel(orders, orderId, userId);
      (r.Ok? <==> 1 <= orderId <= |orders| && orders[orderId - 1].userId == Some(userId)
                  && orders[orderId - 1].status != Cancelled)
      && (!(1 <= orderId <= |orders|) ==> FailsWith(r, NotFound))
      && (r.Ok? ==>
            |r.value| == |orders|
            && r.value[orderId - 1] == orders[orderId - 1].(status := Cancelled)
            && (forall i :: 0 <= i < |orders| && i != orderId - 1 ==> r.value[i] == orders[i]))
  {
    if 1 <= orderId <= |orders| {
      var o := orders[orderId - 1];
      var s := IntToString(o.id);
      assert !IsWhitespace(s[0]);
    }
  }

  /** A cancelled order cannot be cancelled again. */
  lemma CancelTwiceFails(orders: seq<Order>, orderId: int, userId: int)
    requires Cancel(orders, orderId, userId).Ok?
    ensures FailsWith(Cancel(Cancel(orders, orderId, userId).value, orderId, userId), BadRequest)
  {
  }

  /** The order service over an in-memory ledger and order table; order ids are assigned
      1, 2, 3, … as the table grows. */
  class TradeService {
    var ledger: Ledger
    var orders: seq<Order>

    predicate Valid()
      reads this
    {
      ValidLedger(ledger) && forall i :: 0 <= i < |orders| ==> orders[i].id == i + 1
    }

    constructor ()
      ensures Valid() && ledger == Ledger(map[], map[]) && orders == []
    {
      ledger := Ledger(map[], map[]);
      orders := [];
    }

    /** The effect of an execution outcome on the two tables: committed on success, rolled
        back on failure. */
    twostate predicate Took(new out: Result<(Ledger, Order, OrderResponse)>)
      reads this
    {
      TookFrom(old(ledger), old(orders), out)
    }

    /** The same, for tables that were `l0` and `o0` before the execution. */
    predicate TookFrom(l0: Ledger, o0: seq<Order>, out: Result<(Ledger, Order, OrderResponse)>)
      reads this
    {
      if out.Ok? then ledger == out.value.0 && orders == o0 + [out.value.1]
      else ledger == l0 && orders == o0
    }

    /** The effect of an execution outcome on the tables and on the returned value. */
    twostate predicate Applied(new out: Result<(Ledger, Order, OrderResponse)>, new r: Result<OrderResponse>)
      reads this
    {
      Took(out) && r == (if out.Ok? then Ok(out.value.2) else Err(out.error))
    }

    /** `executeTeamOrder`, reached only with a positive quantity and price. */
    method ExecuteTeamOrder(teamId: int, userId: Option<int>, code: string, name: Option<string>,
                            qty: int, price: real, side: OrderType, now: int)
      returns (r: Result<OrderResponse>)
      requires Valid() && qty > 0 && price > 0.0
      modifies this
      ensures Valid()
      ensures Applied(TeamOrder(old(ledger), |old(orders)| + 1, userId, teamId, code, name, qty, price, side, now), r)
    {
      var step := Execute(ledger, teamId, code, name, qty, price, side);
      if step.Err? {
        return Err(step.error);
      }
      var ack := KisApi.PlaceOrder(Some(code), qty, Some(price), side, now);
      if ack.Err? {
        return Err(ack.error);
      }
      ExecutePreservesValid(ledger, teamId, code, name, qty, price, side);
      var order := Order(|orders| + 1, userId, teamId, code, qty, price, side, Completed, now);
      ledger := step.value;
      orders := orders + [order];
      r := Ok(ToResponse(order).(externalOrderNo := Some(ack.value.externalOrderNo), message := Some(ack.value.message)));
    }

    /** `placeOrder` for the caller's own team. */
    method PlaceOrder(req: PlaceOrderRequest, user: User, now: int) returns (r: Result<OrderResponse>)
      requires Valid()
      modifies this
      ensures Valid()
      ensures Applied(PlaceOrderOutcome(old(ledger), |old(orders)| + 1, req, user, now), r)
    {
      var invalid := ValidationError(req);
      if invalid.Some? {
        return Err(invalid.value);
      }
      var teamId := ParseTeamId(user.teamId);
      if teamId.None? {
        return Err(Api(Forbidden, "팀에 소속된 후 거래할 수 있습니다."));
      }
      r := ExecuteTeamOrder(teamId.value, Some(user.id), req.stockCode.value, req.stockName, req.quantity,
                            req.price.value, req.orderType.value, now);
    }

    /** `placeOrderForTeam`, used when a vote passes; the ordering user may be null. */
    method PlaceOrderForTeam(req: PlaceOrderRequest, teamId: Option<int>, orderUser: Option<User>, now: int)
      returns (r: Result<OrderResponse>)
      requires Valid()
      modifies this
      ensures Valid()
      ensures Applied(PlaceOrderForTeamOutcome(old(ledger), |old(orders)| + 1, req, teamId, orderUser, now), r)
    {
      var invalid := ValidationError(req);
      if invalid.Some? {
        return Err(invalid.value);
      }
      if teamId.None? {
        return Err(Api(BadRequest, "teamId is required"));
      }
      r := ExecuteTeamOrder(teamId.value, if orderUser.Some? then Some(orderUser.value.id) else None,
                            req.stockCode.value, req.stockName, req.quantity, req.price.value,
                            req.orderType.value, now);
    }

    /** `placeOrderFromSpec`: the public trade request, answered with the gateway's order
        number as the order id. */
    method PlaceOrderFromSpec(req: TradeRequest, user: User, now: int) returns (r: Result<TradeResponse>)
      requires Valid()
      modifies this
      ensures Valid()
      ensures SpecToPlaceOrder(req).Err? ==>
        r == Err(SpecToPlaceOrder(req).error) && ledger == old(ledger) && orders == old(orders)
      ensures SpecToPlaceOrder(req).Ok? ==>
        var out := PlaceOrderOutcome(old(ledger), |old(orders)| + 1, SpecToPlaceOrder(req).value, user, now);
        if out.Ok? then
          r == Ok(TradeResponse(true, "Order executed.", out.value.2.externalOrderNo.GetOr(IntToString(out.value.2.orderId)),
                                out.value.2.orderDate))
          && ledger == out.value.0 && orders == old(orders) + [out.value.1]
        else r == Err(out.error) && ledger == old(ledger) && orders == old(orders)
    {
      var place := SpecToPlaceOrder(req);
      if place.Err? {
        return Err(place.error);
      }
      var result := PlaceOrder(place.value, user, now);
      if result.Err? {
        return Err(result.error);
      }
      var o := result.value;
      r := Ok(TradeResponse(true, "Order executed.", o.externalOrderNo.GetOr(IntToString(o.orderId)), o.orderDate));
    }

    /** `cancelOrder`: a status change on the order table; the ledger is not touched. */
    method CancelOrder(orderId: int, user: User) returns (r: Result<OrderResponse>)
      requires Valid()
      modifies this
      ensures Valid()
      ensures var c := Cancel(old(orders), orderId, user.id);
        if c.Ok? then r == Ok(ToResponse(c.value[orderId - 1])) && orders == c.value && ledger == old(ledger)
        else r == Err(c.error) && orders == old(orders) && ledger == old(ledger)
    {
      var c := Cancel(orders, orderId, user.id);
      if c.Err? {
        return Err(c.error);
      }
      CancelIsStatusTransition(orders, orderId, user.id);
      orders := c.value;
      r := Ok(ToResponse(orders[orderId - 1]));
    }
  }
}
