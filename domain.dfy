/** The entity shapes several services share. */
module Domain {
  import opened Wrappers

  datatype OrderType = Buy | Sell

  datatype OrderStatus = Pending | Completed | Cancelled

  /** The `User` columns the services read; `teamId` is "team-<roomId>" once a room starts. */
  datatype User = User(
    id: int,
    nickname: Option<string>,
    teamId: Option<string>,
    totalAssets: Option<real>,
    investmentAmount: Option<real>,
    profitLoss: Option<real>,
    profitLossRate: Option<real>)

  /** A row of `team_holdings`: one per (team, stock code). */
  datatype TeamHolding = TeamHolding(
    teamId: int,
    stockCode: string,
    stockName: Option<string>,
    quantity: int,
    averagePurchasePrice: real)

  /** A row of the personal `holdings` table. */
  datatype Holding = Holding(
    userId: int,
    stockCode: string,
    quantity: int,
    averagePurchasePrice: real)

  /** A quote as the market gateway returns it (`StockPriceDTO`); every field may be null. */
  datatype StockPrice = StockPrice(
    stockCode: Option<string>,
    stockName: Option<string>,
    currentPrice: Option<real>,
    changeAmount: Option<real>,
    changeRate: Option<real>,
    volume: Option<int>)

  /** A market index (`MarketIndexDTO`). */
  datatype MarketIndex = MarketIndex(
    indexCode: Option<string>,
    indexName: Option<string>,
    value: Option<real>,
    changeAmount: Option<real>,
    changeRate: Option<real>)

  /** A matching room (`MatchingRoom`), which becomes a team once started; its name
      column is not nullable but the entity field may be null. */
  datatype MatchingRoom = MatchingRoom(
    id: int,
    name: Option<string>,
    capacity: int,
    memberCount: int,
    status: string,
    createdAt: int)

  /** One (room, user) membership row (`MatchingRoomMember`). */
  datatype MatchingRoomMember = MatchingRoomMember(roomId: int, userId: int, joinedAt: int)
}
