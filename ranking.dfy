/**
 * `RankingService`: every started room is a team, valued as its cash plus the market
 * value of its holdings, and the teams are listed by that value, highest first. The
 * repositories become the tables passed in, and the gateway's price lookup the map of the
 * codes it quotes (a code it fails on is absent).
 */
module Ranking {
  import opened Wrappers
  import opened JavaText
  import opened JavaNumbers
  import opened Domain
  import Trade

  const STARTED: string := "started"
  const PROFIT_RATE_SCALE: nat := 4

  /** The tables valuation reads: team cash balances and every `team_holdings` row. */
  datatype Tables = Tables(cash: map<int, real>, holdings: seq<TeamHolding>)

  /** The current price the gateway quotes per code; a code whose lookup fails is absent. */
  type Prices = map<string, real>

  /** The team's cash, or the initial balance when it has no account yet. */
  function CashOf(t: Tables, teamId: int): real {
    if teamId in t.cash then t.cash[teamId] else Trade.INITIAL_TEAM_BALANCE
  }

  /** `findByTeamId`: the team's rows, in table order. */
  function TeamRows(rows: seq<TeamHolding>, teamId: int): (r: seq<TeamHolding>)
    ensures forall h :: h in r <==> h in rows && h.teamId == teamId
  {
    if rows == [] then []
    else (if rows[0].teamId == teamId then [rows[0]] else []) + TeamRows(rows[1..], teamId)
  }

  /** The quote of the holding's code, or its average purchase price when the lookup fails. */
  function PriceOf(h: TeamHolding, prices: Prices): real {
    if h.stockCode in prices then prices[h.stockCode] else h.averagePurchasePrice
  }

  function HoldingValue(h: TeamHolding, prices: Prices): real {
    PriceOf(h, prices) * h.quantity as real
  }

  /** Σ price × quantity over the rows, in row order. */
  function HoldingsValue(rows: seq<TeamHolding>, prices: Prices): real {
    if rows == [] then 0.0
    else HoldingsValue(rows[..|rows| - 1], prices) + HoldingValue(rows[|rows| - 1], prices)
  }

  /** What `computeTotalValue` returns for a team. */
  function TeamValue(t: Tables, prices: Prices, teamId: int): real {
    CashOf(t, teamId) + HoldingsValue(TeamRows(t.holdings, teamId), prices)
  }

  /** One step of the valuation loop: the quote, or the average price when the lookup
      fails, times the quantity, added to the running sum. */
  method AddHolding(holdingsValue: real, h: TeamHolding, prices: Prices) returns (r: real)
    ensures r == holdingsValue + HoldingValue(h, prices)
  {
    var price := h.averagePurchasePrice;
    if h.stockCode in prices {
      price := prices[h.stockCode];
    }
    r := holdingsValue + price * h.quantity as real;
  }

  lemma HoldingsValuePrefix(rows: seq<TeamHolding>, i: int, prices: Prices)
    requires 0 <= i < |rows|
    ensures HoldingsValue(rows[..i + 1], prices) == HoldingsValue(rows[..i], prices) + HoldingValue(rows[i], prices)
  {
    assert rows[..i + 1][..i] == rows[..i];
  }

  /** `computeTotalValue`: cash plus the value of the team's holdings, summed one row at a time. */
  method ComputeTotalValue(t: Tables, prices: Prices, teamId: int) returns (total: real)
    ensures total == TeamValue(t, prices, teamId)
  {
    var cash := CashOf(t, teamId);
    var rows := TeamRows(t.holdings, teamId);
    var holdingsValue := 0.0;
    var i := 0;
    while i < |rows|
      invariant 0 <= i <= |rows|
      invariant holdingsValue == HoldingsValue(rows[..i], prices)
    {
      HoldingsValuePrefix(rows, i, prices);
      holdingsValue := AddHolding(holdingsValue, rows[i], prices);
      i := i + 1;
    }
    assert rows[..|rows|] == rows;
    total := cash + holdingsValue;
  }

  /** The value of holdings split in two is the sum of the two parts' values: the
      order in which the rows are listed does not matter by blocks. */
  lemma {:induction false} HoldingsValueAppend(a: seq<TeamHolding>, b: seq<TeamHolding>, prices: Prices)
    ensures HoldingsValue(a + b, prices) == HoldingsValue(a, prices) + HoldingsValue(b, prices)
    decreases |b|
  {
    if b != [] {
      var ab := a + b;
      assert ab[..|ab| - 1] == a + b[..|b| - 1];
      assert ab[|ab| - 1] == b[|b| - 1];
      HoldingsValueAppend(a, b[..|b| - 1], prices);
    } else {
      assert a + b == a;
    }
  }

  predicate NonNegativeInputs(rows: seq<TeamHolding>, prices: Prices) {
    (forall h :: h in rows ==> h.quantity >= 0 && h.averagePurchasePrice >= 0.0)
    && (forall c :: c in prices ==> prices[c] >= 0.0)
  }

  lemma {:induction false} HoldingsValueNonNegative(rows: seq<TeamHolding>, prices: Prices)
    requires NonNegativeInputs(rows, prices)
    ensures HoldingsValue(rows, prices) >= 0.0
  {
    if rows != [] {
      var h := rows[|rows| - 1];
      assert h in rows;
      assert forall x :: x in rows[..|rows| - 1] ==> x in rows;
      HoldingsValueNonNegative(rows[..|rows| - 1], prices);
      assert PriceOf(h, prices) >= 0.0;
      assert HoldingValue(h, prices) >= 0.0;
    }
  }

  /** A team with no holdings is worth its cash; with holdings of non-negative quantity,
      average and quote it is worth at least its cash. */
  lemma TeamValueAtLeastCash(t: Tables, prices: Prices, teamId: int)
    requires NonNegativeInputs(t.holdings, prices)
    ensures TeamValue(t, prices, teamId) >= CashOf(t, teamId)
    ensures TeamRows(t.holdings, teamId) == [] ==> TeamValue(t, prices, teamId) == CashOf(t, teamId)
  {
    var rows := TeamRows(t.holdings, teamId);
    assert forall h :: h in rows ==> h in t.holdings;
    HoldingsValueNonNegative(rows, prices);
  }

  /** One row of `getAllGroupsRanking`. */
  datatype RankEntry = RankEntry(id: int, groupName: string, currentAssets: real, profitRate: real)

  function GroupName(room: MatchingRoom): string {
    if room.name.Some? then room.name.value else "팀 " + IntToString(room.id)
  }

  /** (total − 10,000,000) / 10,000,000, HALF_UP to 4 decimals. */
  function ProfitRate(total: real): real {
    var initial := Trade.INITIAL_TEAM_BALANCE;
    if initial != 0.0 then RoundHalfUp((total - initial) / initial, PROFIT_RATE_SCALE) else 0.0
  }

  /** The profit rate is the exact return rounded by at most half a unit of the fourth
      decimal, and never has the opposite sign to the profit. */
  lemma ProfitRateSpec(total: real)
    ensures var exact := (total - Trade.INITIAL_TEAM_BALANCE) / Trade.INITIAL_TEAM_BALANCE;
      -0.00005 <= ProfitRate(total) - exact <= 0.00005
    ensures total >= Trade.INITIAL_TEAM_BALANCE ==> ProfitRate(total) >= 0.0
    ensures total <= Trade.INITIAL_TEAM_BALANCE ==> ProfitRate(total) <= 0.0
  {
    var exact := (total - Trade.INITIAL_TEAM_BALANCE) / Trade.INITIAL_TEAM_BALANCE;
    RoundHalfUpError(exact, PROFIT_RATE_SCALE);
    RoundHalfUpSign(exact, PROFIT_RATE_SCALE);
    assert Pow10(PROFIT_RATE_SCALE) == 10000.0;
  }

  function Entry(t: Tables, prices: Prices, room: MatchingRoom): RankEntry {
    var total := TeamValue(t, prices, room.id);
    RankEntry(room.id, GroupName(room), total, ProfitRate(total))
  }

  /** The rooms whose status is "started", in their listed order. */
  function StartedRooms(rooms: seq<MatchingRoom>): (r: seq<MatchingRoom>)
    ensures forall room :: room in r <==> room in rooms && room.status == STARTED
  {
    if rooms == [] then []
    else (if rooms[0].status == STARTED then [rooms[0]] else []) + StartedRooms(rooms[1..])
  }

  /** One entry per room, in the rooms' order. */
  function Entries(t: Tables, prices: Prices, rooms: seq<MatchingRoom>): (r: seq<RankEntry>)
    ensures |r| == |rooms|
    ensures forall k :: 0 <= k < |r| ==> r[k] == Entry(t, prices, rooms[k])
  {
    if rooms == [] then []
    else Entries(t, prices, rooms[..|rooms| - 1]) + [Entry(t, prices, rooms[|rooms| - 1])]
  }

  /** Places `x` after the entries worth strictly more and before all others. */
  function Insert(x: RankEntry, s: seq<RankEntry>): seq<RankEntry> {
    if s == [] then [x]
    else if s[0].currentAssets > x.currentAssets then [s[0]] + Insert(x, s[1..])
    else [x] + s
  }

  /** `list.sort(comparing(currentAssets).reversed())`, a stable sort, as an insertion sort. */
  function SortByAssets(es: seq<RankEntry>): seq<RankEntry> {
    if es == [] then [] else Insert(es[0], SortByAssets(es[1..]))
  }

  predicate NonIncreasing(s: seq<RankEntry>) {
    forall i, j :: 0 <= i < j < |s| ==> s[i].currentAssets >= s[j].currentAssets
  }

  /** The entries worth exactly `v`, in order: stability is that these keep their order. */
  function WithAssets(s: seq<RankEntry>, v: real): seq<RankEntry> {
    if s == [] then [] else (if s[0].currentAssets == v then [s[0]] else []) + WithAssets(s[1..], v)
  }

  lemma {:induction false} InsertPermutes(x: RankEntry, s: seq<RankEntry>)
    ensures multiset(Insert(x, s)) == multiset(s) + multiset{x}
  {
    if s != [] && s[0].currentAssets > x.currentAssets {
      InsertPermutes(x, s[1..]);
      assert s == [s[0]] + s[1..];
    }
  }

  lemma {:induction false} InsertSorted(x: RankEntry, s: seq<RankEntry>)
    requires NonIncreasing(s)
    ensures NonIncreasing(Insert(x, s))
  {
    if s != [] && s[0].currentAssets > x.currentAssets {
      InsertSorted(x, s[1..]);
      var r := Insert(x, s[1..]);
      InsertPermutes(x, s[1..]);
      forall e | e in r
        ensures s[0].currentAssets >= e.currentAssets
      {
        assert e in multiset(r);
        if e != x {
          assert e in multiset(s[1..]);
        }
      }
      assert forall j :: 0 <= j < |r| ==> r[j] in r;
    }
  }

  lemma WithAssetsCons(e: RankEntry, s: seq<RankEntry>, v: real)
    ensures WithAssets([e] + s, v) == (if e.currentAssets == v then [e] else []) + WithAssets(s, v)
  {
    assert ([e] + s)[1..] == s;
  }

  lemma {:induction false} InsertStable(x: RankEntry, s: seq<RankEntry>, v: real)
    ensures WithAssets(Insert(x, s), v)
      == (if x.currentAssets == v then [x] else []) + WithAssets(s, v)
  {
    if s == [] {
      WithAssetsCons(x, [], v);
    } else if s[0].currentAssets > x.currentAssets {
      WithAssetsCons(s[0], Insert(x, s[1..]), v);
      InsertStable(x, s[1..], v);
      WithAssetsCons(s[0], s[1..], v);
      assert [s[0]] + s[1..] == s;
    } else {
      WithAssetsCons(x, s, v);
    }
  }

  /** The sorted ranking is non-increasing in value, holds the same entries, and keeps
      entries of equal value in their input order. */
  lemma {:induction false} SortByAssetsSpec(es: seq<RankEntry>)
    ensures NonIncreasing(SortByAssets(es))
    ensures multiset(SortByAssets(es)) == multiset(es)
    ensures forall v :: WithAssets(SortByAssets(es), v) == WithAssets(es, v)
  {
    if es != [] {
      SortByAssetsSpec(es[1..]);
      InsertSorted(es[0], SortByAssets(es[1..]));
      InsertPermutes(es[0], SortByAssets(es[1..]));
      assert es == [es[0]] + es[1..];
      forall v
        ensures WithAssets(SortByAssets(es), v) == WithAssets(es, v)
      {
        InsertStable(es[0], SortByAssets(es[1..]), v);
        WithAssetsCons(es[0], es[1..], v);
      }
    }
  }

  /** The ranking `getAllGroupsRanking` returns. */
  function RankingOf(t: Tables, prices: Prices, rooms: seq<MatchingRoom>): seq<RankEntry> {
    SortByAssets(Entries(t, prices, StartedRooms(rooms)))
  }

  /** A list with the entry of each room at the room's position is the rooms' entries. */
  lemma EntriesPointwise(t: Tables, prices: Prices, rooms: seq<MatchingRoom>, list: seq<RankEntry>)
    requires |list| == |rooms| && forall k :: 0 <= k < |rooms| ==> list[k] == Entry(t, prices, rooms[k])
    ensures list == Entries(t, prices, rooms)
  {
    var entries := Entries(t, prices, rooms);
    assert forall k :: 0 <= k < |rooms| ==> list[k] == entries[k];
  }

  /** The body of the loop of `getAllGroupsRanking`: the room valued and named. */
  method RoomEntry(t: Tables, prices: Prices, room: MatchingRoom) returns (entry: RankEntry)
    ensures entry == Entry(t, prices, room)
  {
    var totalValue := ComputeTotalValue(t, prices, room.id);
    var profitRate := ProfitRate(totalValue);
    entry := RankEntry(room.id, GroupName(room), totalValue, profitRate);
  }

  /** The loop of `getAllGroupsRanking`: one entry per room, valued in the rooms' order. */
  method CollectEntries(t: Tables, prices: Prices, started: seq<MatchingRoom>) returns (list: seq<RankEntry>)
    ensures list == Entries(t, prices, started)
  {
    list := [];
    var i := 0;
    while i < |started|
      invariant 0 <= i <= |started|
      invariant |list| == i && forall k :: 0 <= k < i ==> list[k] == Entry(t, prices, started[k])
    {
      var entry := RoomEntry(t, prices, started[i]);
      list := list + [entry];
      i := i + 1;
    }
    EntriesPointwise(t, prices, started, list);
  }

  /** `getAllGroupsRanking`: one entry per started room in the rooms' (creation-descending)
      order, then sorted by current assets, highest first. */
  method GetAllGroupsRanking(t: Tables, prices: Prices, rooms: seq<MatchingRoom>) returns (list: seq<RankEntry>)
    ensures list == RankingOf(t, prices, rooms)
    ensures NonIncreasing(list)
    ensures multiset(list) == multiset(Entries(t, prices, StartedRooms(rooms)))
    ensures forall v :: WithAssets(list, v) == WithAssets(Entries(t, prices, StartedRooms(rooms)), v)
  {
    var entries := CollectEntries(t, prices, StartedRooms(rooms));
    SortByAssetsSpec(entries);
    list := SortByAssets(entries);
  }

  /** Exactly the started rooms are ranked: every started room has its entry, and every
      entry is that of a started room. */
  lemma RankingListsStartedRooms(t: Tables, prices: Prices, rooms: seq<MatchingRoom>)
    ensures forall room :: room in rooms && room.status == STARTED ==> Entry(t, prices, room) in RankingOf(t, prices, rooms)
    ensures forall e :: e in RankingOf(t, prices, rooms) ==>
      exists room :: room in rooms && room.status == STARTED && e == Entry(t, prices, room)
  {
    var started := StartedRooms(rooms);
    var es := Entries(t, prices, started);
    SortByAssetsSpec(es);
    forall room | room in rooms && room.status == STARTED
      ensures Entry(t, prices, room) in RankingOf(t, prices, rooms)
    {
      var k :| 0 <= k < |started| && started[k] == room;
      assert es[k] == Entry(t, prices, room);
      assert es[k] in multiset(es);
    }
    forall e | e in RankingOf(t, prices, rooms)
      ensures exists room :: room in rooms && room.status == STARTED && e == Entry(t, prices, room)
    {
      assert e in multiset(es);
      var k :| 0 <= k < |es| && es[k] == e;
      assert started[k] in started;
    }
  }

  /** `findStartedRoomIdByMember`: the id of the most recently joined room that has started. */
  function FindStartedRoomIdByMember(joined: seq<MatchingRoom>): (r: Option<int>)
    ensures r.None? <==> forall k :: 0 <= k < |joined| ==> joined[k].status != STARTED
    ensures r.Some? ==> exists k :: (0 <= k < |joined| && joined[k].status == STARTED && joined[k].id == r.value
      && forall j :: 0 <= j < k ==> joined[j].status != STARTED)
  {
    if joined == [] then None
    else if joined[0].status == STARTED then Some(joined[0].id)
    else
      var r := FindStartedRoomIdByMember(joined[1..]);
      assert forall k :: 1 <= k < |joined| ==> joined[k] == joined[1..][k - 1];
      r
  }

  /** The caller's team: "team-<n>" of the user, else the most recently joined started room. */
  function MyTeamId(user: Option<User>, joined: seq<MatchingRoom>): Option<int> {
    var parsed := if user.Some? then Trade.ParseTeamId(user.value.teamId) else None;
    if parsed.None? && user.Some? then FindStartedRoomIdByMember(joined) else parsed
  }

  /** One team of `getCompetingTeams`; `profitLossPercentage` is a double in the source. */
  datatype TeamItem = TeamItem(
    teamId: string,
    groupName: string,
    totalValue: real,
    investmentAmount: real,
    profitLoss: real,
    profitLossPercentage: real,
    rank: int,
    isMyTeam: bool)

  function ToItem(e: RankEntry, i: int, myTeamId: Option<int>): TeamItem {
    TeamItem(Trade.TEAM_PREFIX + IntToString(e.id), e.groupName, e.currentAssets, Trade.INITIAL_TEAM_BALANCE,
             e.currentAssets - Trade.INITIAL_TEAM_BALANCE, e.profitRate * 100.0, i + 1,
             myTeamId.Some? && myTeamId.value == e.id)
  }

  /** `getCompetingTeams`: the ranking with 1-based ranks, the profit against the initial
      balance, and the caller's team marked. The competition id is not used. */
  method GetCompetingTeams(t: Tables, prices: Prices, rooms: seq<MatchingRoom>, user: Option<User>,
                           joined: seq<MatchingRoom>) returns (result: seq<TeamItem>)
    ensures var all := RankingOf(t, prices, rooms);
      |result| == |all|
      && forall k :: 0 <= k < |result| ==>
        result[k].rank == k + 1
        && result[k].teamId == Trade.TEAM_PREFIX + IntToString(all[k].id)
        && result[k].groupName == all[k].groupName
        && result[k].totalValue == all[k].currentAssets
        && result[k].investmentAmount == Trade.INITIAL_TEAM_BALANCE
        && result[k].profitLoss == result[k].totalValue - Trade.INITIAL_TEAM_BALANCE
        && result[k].profitLossPercentage == all[k].profitRate * 100.0
        && (result[k].isMyTeam <==> MyTeamId(user, joined) == Some(all[k].id))
    ensures forall i, j :: 0 <= i < j < |result| ==> result[i].totalValue >= result[j].totalValue
  {
    var all := GetAllGroupsRanking(t, prices, rooms);
    result := ToItems(all, MyTeamId(user, joined));
  }

  /** The loop of `getCompetingTeams`: the k-th entry becomes the item of rank k + 1. */
  method ToItems(all: seq<RankEntry>, myTeamId: Option<int>) returns (result: seq<TeamItem>)
    ensures |result| == |all| && forall k :: 0 <= k < |all| ==> result[k] == ToItem(all[k], k, myTeamId)
  {
    result := [];
    var i := 0;
    while i < |all|
      invariant 0 <= i <= |all|
      invariant |result| == i
      invariant forall k :: 0 <= k < i ==> result[k] == ToItem(all[k], k, myTeamId)
    {
      result := result + [ToItem(all[i], i, myTeamId)];
      i := i + 1;
    }
  }

  /** The caller's entry of the ranking and its 1-based rank. */
  datatype MyRanking = MyRanking(entry: RankEntry, rank: int)

  /** The search loop of `getMyGroupRanking`: the first entry of the team, and its position. */
  /** `my` is the answer for `teamId` in `all`: none when no entry is the team's, else the
      first entry of the team with its 1-based position. */
  predicate RankIn(all: seq<RankEntry>, teamId: int, my: Option<MyRanking>) {
    (my.None? <==> forall k :: 0 <= k < |all| ==> all[k].id != teamId)
    && (my.Some? ==>
          1 <= my.value.rank <= |all| && my.value.entry == all[my.value.rank - 1]
          && my.value.entry.id == teamId
          && forall j :: 0 <= j < my.value.rank - 1 ==> all[j].id != teamId)
  }

  method FindRank(all: seq<RankEntry>, teamId: int) returns (my: Option<MyRanking>)
    ensures RankIn(all, teamId, my)
  {
    var rank := 0;
    var found: Option<RankEntry> := None;
    var i := 0;
    while i < |all|
      invariant 0 <= i <= |all|
      invariant forall k :: 0 <= k < i ==> all[k].id != teamId
    {
      if all[i].id == teamId {
        rank := i + 1;
        found := Some(all[i]);
        break;
      }
      i := i + 1;
    }
    if found.None? {
      return None;
    }
    my := Some(MyRanking(found.value, rank));
  }

  /** `getMyGroupRanking`: no answer without a team or when the team is not ranked; else
      the first entry of the team and its position. */
  method GetMyGroupRanking(t: Tables, prices: Prices, rooms: seq<MatchingRoom>, user: Option<User>,
                           joined: seq<MatchingRoom>) returns (my: Option<MyRanking>)
    ensures MyTeamId(user, joined).None? ==> my.None?
    ensures MyTeamId(user, joined).Some? ==> RankIn(RankingOf(t, prices, rooms), MyTeamId(user, joined).value, my)
  {
    var teamId := MyTeamId(user, joined);
    if teamId.None? {
      return None;
    }
    var all := GetAllGroupsRanking(t, prices, rooms);
    my := FindRank(all, teamId.value);
  }
}
