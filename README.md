# Uniport back end, modelled in Dafny

Uniport is a mock-investing service. Users form teams in matching rooms, and each team
trades Korean stocks against its own virtual cash balance. Team members propose buys and
sells by vote, take part in competitions, chat within their room and watch live prices.
The prices come from the Korea Investment & Securities (KIS) Open API over REST and a
WebSocket feed. This project models the service layer of that back end and proves
properties of the model:

- `Trade` (`TradeService`): a team's buys and sells against its cash balance and its
  holdings. This covers the request checks, the weighted average purchase price, the
  quantity checks, the recorded orders and their cancellation. `Trade.TradeService` is a
  class whose methods update the balances, holdings and orders in place.
- `Votes` (`VoteService`): a team's buy or sell proposals, each decided by agree,
  disagree and hold ballots, one ballot per user and vote; a passed proposal places the
  team's order.
- `KisApi` (`KisApiService`): the REST client's token cache and how replies are read into
  quotes, volume rankings and search results, the index code mapping, the input checks
  of the index chart request and the order stub. HTTP calls are function parameters.
- `KisWs`, `KisWsCaches`, `KisWsRunner` and `JavaUrl`: the realtime feed. This covers
  reading a tick frame, subscription bookkeeping (`KisWsSubscriptionManager`), the price
  and tick caches, and the start-up runner that builds the WebSocket URL.
- `Ranking` (`RankingService`): the ranking, by total assets, of the teams of started
  rooms, and the rounding of their profit rates.
- `MatchingRooms` (`MatchingRoomService`): rooms with a capacity and members. It covers
  creating, joining, leaving, starting, the admin operations and room ids.
- `Competitions` (`CompetitionService`): creating and updating competitions and the days
  they have left.
- `Stocks`, `Me` and `Market` (`StockService`, `MeService`, `MarketService`): the stock
  detail page, the home page's investment summary and the market page's lists.
- `Chat` (`ChatWebSocketHandler`): the chat socket's path and token parsing, its message
  format and broadcasting within a room.
- `Wrappers`, `JavaNumbers`, `JavaText` and `Domain`: `Result`/`Option` types,
  `BigDecimal` as `real` with HALF_UP rounding, 32-bit and 64-bit bounds, the Java string
  operations the services rely on, and the shared entities.

Throughout the model:

- A Java `null` is `None`.
- An exception is an `Err` of `Result`: `ApiError` for the service's `ApiException` (an
  HTTP status and a message), `UnexpectedError` for any other exception.
- `BigDecimal` values are `real`. Where the source rounds with HALF_UP at a scale, the model
  rounds the same way with `JavaNumbers.RoundHalfUp`.
- Repositories are `map`s or `seq`s held by the service classes or passed in.
- The gateway, the clock and `LocalDate.parse` are function parameters.

## Model

| member | source | states |
|---|---|---|
| Trade.ParseTeamId | src/main/java/com/uniport/service/TradeService.java:49-59 | a team id that reads back is a Java long |
| Trade.ParseTeamIdOfTeam | src/main/java/com/uniport/service/TradeService.java:49-59 | "team-<n>" reads back as n for every long n |
| Trade.ParseTeamIdNeedsPrefix | src/main/java/com/uniport/service/TradeService.java:51-53 | a null team id, or one without the "team-" prefix, gives no team |
| Trade.ValidationError | src/main/java/com/uniport/service/TradeService.java:63-74 | the request passes exactly when the code is non-blank, quantity and price are positive and the side is present; every refusal is BAD_REQUEST |
| Trade.WeightedMeanBetween | src/main/java/com/uniport/service/TradeService.java:130-133 | with positive quantities the unrounded new average lies between the held average and the price |
| Trade.BuyDebits | src/main/java/com/uniport/service/TradeService.java:110-123 | a buy succeeds exactly when the team's cash (10,000,000 for a new team) covers price×qty; it then debits exactly price×qty and leaves other teams' cash alone |
| Trade.BuyAverages | src/main/java/com/uniport/service/TradeService.java:125-146 | a first purchase records the price as the average; a further one adds the quantity and sets the weighted mean, HALF_UP to 4 places; other holdings are untouched |
| Trade.BoughtAverage | src/main/java/com/uniport/service/TradeService.java:129-133 | the bought row holds old+q shares at the rounded weighted mean |
| Trade.BuyResult | src/main/java/com/uniport/service/TradeService.java:116-146 | the ledger a successful buy leaves: the debited account and the single updated or new holding row |
| Trade.SellCredits | src/main/java/com/uniport/service/TradeService.java:148-162 | a sell fails without a holding or with too few shares; otherwise cash rises by price×qty and the row loses exactly q shares, keeping its average, or is deleted at 0 |
| Trade.ExecutePreservesValid | src/main/java/com/uniport/service/TradeService.java:110-163 | an execution keeps cash non-negative, quantities positive and averages non-negative |
| Trade.BuyPreservesValid | src/main/java/com/uniport/service/TradeService.java:116-146 | the buy path keeps the ledger invariant |
| Trade.BoughtAverageNonNegative | src/main/java/com/uniport/service/TradeService.java:130-133 | a rounded weighted mean of non-negative prices is non-negative |
| Trade.SellPreservesValid | src/main/java/com/uniport/service/TradeService.java:148-162 | the sell path keeps the ledger invariant |
| Trade.WeightedAverageExample | src/main/java/com/uniport/service/TradeService.java:127-141 | 10 shares at 100 then 10 at 200 hold 20 shares at 150 |
| Trade.Int32QuantityOverflow | src/main/java/com/uniport/service/TradeService.java:129 | with Java int addition two buys of 2147483647 shares leave a holding of -2 shares |
| Trade.ExactQuantitySum | src/main/java/com/uniport/service/TradeService.java:129 | with exact addition the same two buys hold 4294967294 shares |
| Trade.TeamOrderRecordsCompleted | src/main/java/com/uniport/service/TradeService.java:165-200 | for a validated order the gateway never refuses, so the execution succeeds exactly when the ledger step does and records one COMPLETED order of the requested code, quantity, price and side |
| Trade.PlaceOrderOutcome | src/main/java/com/uniport/service/TradeService.java:62-81 | validation errors come first; a user without a "team-<n>" id is FORBIDDEN; otherwise the team's execution |
| Trade.PlaceOrderForTeamOutcome | src/main/java/com/uniport/service/TradeService.java:85-102 | the same validation, then a missing team id is BAD_REQUEST; otherwise the execution |
| Trade.SpecRequestPassesValidation | src/main/java/com/uniport/service/TradeService.java:205-224 | a request accepted by the spec checks passes placeOrder's validation, and its side is SELL exactly for "sell" in any case |
| Trade.ZeroPad6Head | src/main/java/com/uniport/service/TradeService.java:215 | "%06d" text starts with a digit or a minus sign, so it is never blank |
| Trade.CancelIsStatusTransition | src/main/java/com/uniport/service/TradeService.java:244-263 | cancelling succeeds exactly for an existing, own, not yet cancelled order (NOT_FOUND, FORBIDDEN, BAD_REQUEST otherwise) and changes only that order's status to CANCELLED |
| Trade.CancelTwiceFails | src/main/java/com/uniport/service/TradeService.java:250-252 | a cancelled order cannot be cancelled again |
| Trade.TradeService.constructor | src/main/java/com/uniport/service/TradeService.java:38-46 | empty tables |
| Trade.TradeService.ExecuteTeamOrder | src/main/java/com/uniport/service/TradeService.java:104-201 | the new tables and the response are those of the execution outcome; on failure nothing changes |
| Trade.TradeService.PlaceOrder | src/main/java/com/uniport/service/TradeService.java:62-81 | state and response follow PlaceOrderOutcome; the ledger invariant is kept |
| Trade.TradeService.PlaceOrderForTeam | src/main/java/com/uniport/service/TradeService.java:85-102 | state and response follow PlaceOrderForTeamOutcome |
| Trade.TradeService.PlaceOrderFromSpec | src/main/java/com/uniport/service/TradeService.java:205-236 | a refused spec request changes nothing; otherwise the placeOrder outcome, answered with the gateway's order number |
| Trade.TradeService.CancelOrder | src/main/java/com/uniport/service/TradeService.java:244-263 | the order table follows Cancel and the ledger is untouched |
| Votes.OngoingIn | src/main/java/com/uniport/service/VoteService.java:56 | the room's votes whose status is "ongoing", and only those |
| Votes.MembersSnapshot | src/main/java/com/uniport/service/VoteService.java:67-70 | the room's member count, or 3 when the room has no members; always positive |
| Votes.NormalizeChoice | src/main/java/com/uniport/service/VoteService.java:158 | "찬성" and "반대" are kept and every other choice, null included, becomes "보류" |
| Votes.BallotsOf | src/main/java/com/uniport/service/VoteService.java:175 | exactly the ballots of the vote |
| Votes.CountChoice | src/main/java/com/uniport/service/VoteService.java:176-177 | a count of ballots never exceeds the number of ballots |
| Votes.CountChoiceAppend | src/main/java/com/uniport/service/VoteService.java:176-177 | one more ballot adds one to its own choice's count and nothing to the others |
| Votes.TallyBound | src/main/java/com/uniport/service/VoteService.java:176-177 | agrees plus disagrees never exceed the ballots |
| Votes.Decide | src/main/java/com/uniport/service/VoteService.java:178-190 | the outcome is always "passed", "rejected" or "ongoing" |
| Votes.DecideRules | src/main/java/com/uniport/service/VoteService.java:178-190 | passed iff agree ≥ 2 or (max(1, members) = 1 and agree ≥ 1); rejected iff not passed, every member has voted and disagree ≥ members/2 + 1 |
| Votes.TwoAgreesAlwaysPass | src/main/java/com/uniport/service/VoteService.java:180 | two agrees pass a vote whatever the room's size |
| Votes.ThreeMemberRejection | src/main/java/com/uniport/service/VoteService.java:185-190 | in a room of three, one agree and two disagrees reject, one agree and one disagree stay open |
| Votes.RejectionNeedsMajority | src/main/java/com/uniport/service/VoteService.java:185 | a rejected tally has a strict majority of disagrees, at most one agree, and a ballot for every member |
| Votes.FindBallot | src/main/java/com/uniport/service/VoteService.java:160-161 | the position of the user's ballot on the vote, with no earlier match, or the table length |
| Votes.UpsertRecords | src/main/java/com/uniport/service/VoteService.java:160-173 | after a vote the user has exactly one ballot on it, holding the new choice; other ballots are unchanged and a row is added only for a first vote |
| Votes.VoteOrderRequestRules | src/main/java/com/uniport/service/VoteService.java:199-216 | an order is built exactly when the code is non-blank; its price is the proposed price when positive, else 1, and its side is SELL exactly for "매도" |
| Votes.SubmitRefusal | src/main/java/com/uniport/service/VoteService.java:143-156 | the checks in order: UNAUTHORIZED without a user, NOT_FOUND, BAD_REQUEST for another room or a closed vote, FORBIDDEN for a non-member |
| Votes.ResolvedVotesAreFinal | src/main/java/com/uniport/service/VoteService.java:151-153 | a passed or rejected vote refuses every further ballot |
| Votes.VoteService.constructor | src/main/java/com/uniport/service/VoteService.java:39-50 | empty vote and ballot tables over the given trading service |
| Votes.VoteService.CreateVote | src/main/java/com/uniport/service/VoteService.java:53-98 | a duplicate open proposal is BAD_REQUEST with no change; otherwise one "ongoing" vote with defaults, the member snapshot and a 24-hour expiry, plus the proposer's "찬성" ballot |
| Votes.VoteService.HasDuplicate | src/main/java/com/uniport/service/VoteService.java:55-65 | the scan finds a duplicate exactly when an open vote of the room has the same type and the same normalized code |
| Votes.VoteService.SubmitVote | src/main/java/com/uniport/service/VoteService.java:142-197 | a refusal changes nothing; otherwise the ballot is upserted, the status re-tallied, and on a pass the team order placed |
| Votes.VoteService.RecordBallot | src/main/java/com/uniport/service/VoteService.java:158-196 | the accepted path: the upsert, the stored tally and the order exactly on a pass |
| Votes.VoteService.Retally | src/main/java/com/uniport/service/VoteService.java:160-190 | the ballots are the upsert and the vote's status is the tally of the new ballots |
| Votes.VoteService.ExecuteVoteOrder | src/main/java/com/uniport/service/VoteService.java:199-223 | the trading tables are those of placeOrderForTeam on the vote's order when it has a code, unchanged when the call fails or there is no code |
| KisApi.GetString | src/main/java/com/uniport/service/KisApiService.java:360-364 | a missing key gives the default; a present value gives its text, trimmed |
| KisApi.GetLongStripsCommas | src/main/java/com/uniport/service/KisApiService.java:366-386 | a number field written with a ',' digit-group separator is read by both numeric readers as the number without the separator |
| KisApi.FirstUsableKey | src/main/java/com/uniport/service/KisApiService.java:318-328 | the first candidate key whose value is a usable name; every key before it is unusable |
| KisApi.StockNameIsNeverTheCode | src/main/java/com/uniport/service/KisApiService.java:317-330 | the chosen name is never the code, never six digits and never ETF, ELW or ETN; with no usable candidate it is "종목_" + code |
| KisApi.MapToStockPrice | src/main/java/com/uniport/service/KisApiService.java:332-358 | the quote carries the requested code and every numeric field is filled |
| KisApi.MapToStockPriceDefaults | src/main/java/com/uniport/service/KisApiService.java:333-348 | each of price, change, rate and volume is reported as read when present and parsable, and as 0 when absent or unparsable |
| KisApi.ErrorCodes | src/main/java/com/uniport/service/KisApiService.java:400-404 | the message-code group is empty exactly when rt_cd, msg_cd and msg1 are all absent or blank, and otherwise starts with " rt_cd=" |
| KisApi.ErrorOAuth | src/main/java/com/uniport/service/KisApiService.java:405-408 | the OAuth group is empty exactly when error and error_description are both absent or blank, and otherwise starts with " error=" |
| KisApi.KisErrorMessageHead | src/main/java/com/uniport/service/KisApiService.java:388-413 | every error message starts with "KIS API error (context)" |
| KisApi.KisErrorMessageNoDetail | src/main/java/com/uniport/service/KisApiService.java:399-413 | " (no detail in response)" is appended exactly when none of the five detail fields has text |
| KisApi.ParseTokenExpiresIn | src/main/java/com/uniport/service/KisApiService.java:160-180 | the lifetime is always a Java int |
| KisApi.TokenLifetimeDefault | src/main/java/com/uniport/service/KisApiService.java:160-180 | an int-range numeric "expires_in" is taken as is; with neither that field nor an expiry timestamp the token lives 86400 s |
| KisApi.TokenFreshWindow | src/main/java/com/uniport/service/KisApiService.java:111-113 | a token issued with lifetime s is reused exactly until 60 s before it expires, and one issued with at most 60 s is never reused |
| KisApi.KisApiService.constructor | src/main/java/com/uniport/service/KisApiService.java:65-85 | no token cached, expiry 0, no calls made |
| KisApi.KisApiService.GetAccessToken | src/main/java/com/uniport/service/KisApiService.java:105-158 | blank credentials are an internal error with no change; a fresh cached token is returned without a call; otherwise exactly one call is made, and the token from "access_token" or "accessToken" is cached with expiry at the second clock reading + lifetime × 1000; the failure cases leave the cache as it was |
| KisApi.KisApiService.RevokeAccessToken | src/main/java/com/uniport/service/KisApiService.java:182-213 | with credentials the cache is always emptied and expiry reset to 0; the revoke endpoint receives the old token exactly when it was non-blank |
| KisApi.RevokedTokenIsNotFresh | src/main/java/com/uniport/service/KisApiService.java:191-193 | after a revoke the next token request always calls the endpoint |
| KisApi.KisApiService.ApprovalKey | src/main/java/com/uniport/service/KisApiService.java:215-250 | blank credentials are the not-configured error; a null body or a failed request is SERVICE_UNAVAILABLE; otherwise the non-blank "approval_key", else the non-blank "approvalKey", else SERVICE_UNAVAILABLE with the gateway's error text; a returned key is never blank |
| KisApi.RankItem | src/main/java/com/uniport/service/KisApiService.java:465-470 | an item contributes one quote exactly when its code is non-blank, with that code |
| KisApi.RankItems | src/main/java/com/uniport/service/KisApiService.java:463-472 | the ranking never has more quotes than the reply has items |
| KisApi.RankItemsHaveCodes | src/main/java/com/uniport/service/KisApiService.java:465-470 | every quote of the ranking has a non-blank code |
| KisApi.AddRankItem | src/main/java/com/uniport/service/KisApiService.java:466-469 | one pass of the item loop appends the item's quote, or nothing |
| KisApi.BuildVolumeRank | src/main/java/com/uniport/service/KisApiService.java:463-472 | the loop builds exactly the quotes of the items with a non-blank code, in order |
| KisApi.SearchStocksSpec | src/main/java/com/uniport/service/KisApiService.java:592-603 | the search returns the first 20 matching quotes of the ranking in the ranking's order, all of them when there are fewer, each matching the keyword in name or code ignoring case |
| KisApi.FilterMatchesAppend | src/main/java/com/uniport/service/KisApiService.java:599-601 | the filter keeps order: it filters a concatenation part by part |
| KisApi.FilterMatchesOne | src/main/java/com/uniport/service/KisApiService.java:600-601 | a single quote is kept exactly when it matches |
| KisApi.SearchStocksFailures | src/main/java/com/uniport/service/KisApiService.java:593-595 | a blank keyword gives the empty list; an ApiException propagates; any other failure gives the empty list |
| KisApi.IndexFidInputIscd | src/main/java/com/uniport/service/KisApiService.java:753-758 | the code sent is "1001" exactly when the trimmed, upper-cased code contains "KOSDAQ" or the trimmed code is "1001", and "0001" otherwise |
| KisApi.IndexCodeByName | src/main/java/com/uniport/service/KisApiService.java:756 | a code whose lower-cased trimmed form contains "kosdaq", in any mix of letter cases, selects KOSDAQ |
| KisApi.IndexCodeByNumber | src/main/java/com/uniport/service/KisApiService.java:756 | " 1001 " selects KOSDAQ |
| KisApi.IndexCodeDefault | src/main/java/com/uniport/service/KisApiService.java:754-757 | "KOSPI" and a null code select KOSPI |
| KisApi.IndexChartRequest | src/main/java/com/uniport/service/KisApiService.java:660-673 | a missing code or date and a period outside D, W, M and Y are bad requests; the request goes ahead exactly when code and dates are present, the period is valid and the gateway is configured, with the mapped index code and the period |
| KisApi.ChartPeriod | src/main/java/com/uniport/service/KisApiService.java:667 | a null period is D; a given period is valid exactly when, trimmed, it is one letter D, W, M or Y of either case, and is then that letter upper-cased |
| KisApi.UpperValidPeriod | src/main/java/com/uniport/service/KisApiService.java:667-668 | upper-casing yields D, W, M or Y exactly for one such letter of either case |
| KisApi.ChartPeriodDefault | src/main/java/com/uniport/service/KisApiService.java:667 | with code and dates present and the gateway configured, a null period requests the daily chart |
| KisApi.ChartPeriodLowerCase | src/main/java/com/uniport/service/KisApiService.java:667 | with code and dates present and the gateway configured, every period that trims to one letter D, W, M or Y of either case is accepted and sent upper-cased, and no other is |
| KisApi.ChartPeriodRefused | src/main/java/com/uniport/service/KisApiService.java:668-670 | every period that does not trim to one letter D, W, M or Y of either case is a bad request, whatever the other arguments and whether or not the gateway is configured |
| KisApi.PlaceOrderAccepts | src/main/java/com/uniport/service/KisApiService.java:564-590 | the stub accepts exactly a non-blank code with positive quantity and price, and echoes them as COMPLETED with an "ORD-" order number |
| KisApi.CancelOrder | src/main/java/com/uniport/service/KisApiService.java:794-798 | the cancel succeeds exactly when the order number is non-blank |
| KisWs.SafeTrim | src/main/java/com/uniport/service/kisws/KisWsClient.java:211-215 | none exactly when the trimmed text is empty; otherwise the trimmed text, which is non-empty and trims to itself |
| KisWs.SafeTrimIdempotent | src/main/java/com/uniport/service/kisws/KisWsClient.java:211-215 | trimming a kept field again gives the same field |
| KisWs.FieldParsersAgreeWithGateway | src/main/java/com/uniport/service/kisws/KisWsClient.java:217-233 | the feed's parseBigDecimal and parseLong read a field exactly as the REST gateway's getBigDecimal and getLong read the same string |
| KisWs.ParseFieldsOfInt | src/main/java/com/uniport/service/kisws/KisWsClient.java:217-233 | an integer's decimal text reads back as that integer, as a long when it fits |
| KisWs.ParseTick | src/main/java/com/uniport/service/kisws/KisWsClient.java:85-116 | a tick is read only from a non-JSON text that starts with "0" and a bar (U+007C) and contains "H0STCNT0"; its code is non-empty and trimmed |
| KisWs.FrameFields | src/main/java/com/uniport/service/kisws/KisWsClient.java:107 | splitting a frame at bars (U+007C) gives back exactly its parts: "0", "H0STCNT0", the optional count and the payload |
| KisWs.TrimKeepsHead | src/main/java/com/uniport/service/kisws/KisWsClient.java:85 | a text whose first character trim keeps still starts with it after trimming |
| KisWs.HeadZeroIsNotJson | src/main/java/com/uniport/service/kisws/KisWsClient.java:85 | a text starting with '0' is never taken for a JSON message |
| KisWs.FrameHead | src/main/java/com/uniport/service/kisws/KisWsClient.java:85-105 | a text that starts with "0", a bar and "H0STCNT0" passes the tick-frame test and is not JSON |
| KisWs.FrameHeadOf | src/main/java/com/uniport/service/kisws/KisWsClient.java:85-105 | any text that starts with "0", a bar and "H0STCNT0" passes the tick-frame test and is not JSON |
| KisWs.PayloadOfFrame | src/main/java/com/uniport/service/kisws/KisWsClient.java:107-109 | the payload is field 3 when a count field is present and field 2 otherwise |
| KisWs.TickPayloadOf | src/main/java/com/uniport/service/kisws/KisWsClient.java:105-109 | a frame whose fields are "0", "H0STCNT0", ... yields the payload at index 3, or 2 with only three fields |
| KisWs.TickFrameSplits | src/main/java/com/uniport/service/kisws/KisWsClient.java:107-110 | the '^'-fields of a built frame's payload are the fields it was built from, empty ones kept |
| KisWs.TickRoundTrip | src/main/java/com/uniport/service/kisws/KisWsClient.java:105-128 | a frame built from payload fields reads back as the tick of field 0 trimmed, field 2 as price, and fields 3 to 5 with 0 where they do not parse |
| KisWs.ShortPayloadIsIgnored | src/main/java/com/uniport/service/kisws/KisWsClient.java:111 | a payload of at most five fields carries no tick |
| KisWs.UnreadableTickIsIgnored | src/main/java/com/uniport/service/kisws/KisWsClient.java:117 | a blank code or an unparsable price gives no tick |
| KisWs.OtherFramesAreNotTicks | src/main/java/com/uniport/service/kisws/KisWsClient.java:105 | a text that does not start with "0" and a bar is never a tick |
| KisWs.EscapeKeyInOnePass | src/main/java/com/uniport/service/kisws/KisWsClient.java:195 | the two replace passes on the approval key equal one left-to-right escaping pass |
| KisWs.EscapeRoundTrip | src/main/java/com/uniport/service/kisws/KisWsClient.java:195 | the escaped key reads back as the key |
| KisWs.SubscribeJsonFields | src/main/java/com/uniport/service/kisws/KisWsClient.java:196-198 | the approval key field of the subscribe message reads back as the key and the message ends with the code |
| KisWs.SubscribeFrames | src/main/java/com/uniport/service/kisws/KisWsClient.java:188-209 | one request exactly when the socket is open, the code is non-blank and the key is available; it carries the code '0'-padded to six |
| KisWs.KeysSpec | src/main/java/com/uniport/service/kisws/KisWsSubscriptionManager.java:40-66 | the requested codes are exactly the codes of the request frames |
| KisWs.DistinctKeysSpec | src/main/java/com/uniport/service/kisws/KisWsSubscriptionManager.java:40-66 | distinct requests means no two request frames carry the same code |
| KisWs.KeysAppend | src/main/java/com/uniport/service/kisws/KisWsSubscriptionManager.java:40-66 | one more frame adds its code to the requested codes, and a new code keeps them distinct |
| KisWs.SuffixAppend | src/main/java/com/uniport/service/kisws/KisWsSubscriptionManager.java:40-66 | the frames sent after a point, extended by more frames |
| KisWs.NormalizeStockCode | src/main/java/com/uniport/service/kisws/KisWsSubscriptionManager.java:76-81 | codes of six or more are unchanged, shorter codes without spaces get leading '0's to six; the result is six long at least and a fixed point of the padding |
| KisWs.RequestKeepsDistinct | src/main/java/com/uniport/service/kisws/KisWsSubscriptionManager.java:40-45 | requesting a code not requested since the last clear keeps every code requested at most once |
| KisWs.SendableOfNone | src/main/java/com/uniport/service/kisws/KisWsSubscriptionManager.java:54-68 | nothing to drain sends nothing, whatever the key fetches return |
| KisWs.SendableWithin | src/main/java/com/uniport/service/kisws/KisWsSubscriptionManager.java:54-68 | the drain sends only codes it was given |
| KisWs.DrainStep | src/main/java/com/uniport/service/kisws/KisWsSubscriptionManager.java:60-67 | one drain step sends the code exactly when it was not subscribed before the drain, not yet drained, non-blank and its own key fetch succeeded |
| KisWs.KeyedByAppend | src/main/java/com/uniport/service/kisws/KisWsClient.java:194-198 | each request sent carries the approval key fetched for its own code |
| KisWs.MoveCode | src/main/java/com/uniport/service/kisws/KisWsSubscriptionManager.java:60-67 | moving a code from the rest to the done set keeps them a partition of the codes taken from pending |
| KisWs.KisWsClient.constructor | src/main/java/com/uniport/service/kisws/KisWsClient.java:50-56 | a closed client with nothing sent |
| KisWs.KisWsClient.SendSubscribe | src/main/java/com/uniport/service/kisws/KisWsClient.java:188-209 | the frames sent are those of SubscribeFrames; the connection is unchanged |
| KisWs.KisWsClient.OnOpen | src/main/java/com/uniport/service/kisws/KisWsClient.java:73-78 | the socket is kept, pending is emptied into subscribed, and the new requests are distinct, are exactly the pending codes not yet subscribed whose own key fetch succeeded, and each carries its own key |
| KisWs.KisWsClient.OnText | src/main/java/com/uniport/service/kisws/KisWsClient.java:81-153 | a JSON ping is echoed and nothing else is sent; a tick updates both caches at its code, anything else leaves them unchanged |
| KisWs.KisWsClient.OnClose | src/main/java/com/uniport/service/kisws/KisWsClient.java:156-161 | the socket is dropped, so isConnected is false, and both code sets are emptied |
| KisWs.KisWsSubscriptionManager.constructor | src/main/java/com/uniport/service/kisws/KisWsSubscriptionManager.java:27-29 | both code sets empty |
| KisWs.KisWsSubscriptionManager.EnsureSubscribed | src/main/java/com/uniport/service/kisws/KisWsSubscriptionManager.java:35-51 | a blank code changes nothing; a subscribed code changes nothing; otherwise it is requested and subscribed when open, or added to pending when closed |
| KisWs.KisWsSubscriptionManager.RequestOnce | src/main/java/com/uniport/service/kisws/KisWsSubscriptionManager.java:40-45 | a code not yet subscribed is requested once and subscribed; the requests since the last clear stay distinct |
| KisWs.KisWsSubscriptionManager.OnWsConnected | src/main/java/com/uniport/service/kisws/KisWsSubscriptionManager.java:54-68 | nothing when closed; otherwise pending is emptied into subscribed (codes whose key fetch failed included), and each pending code not yet subscribed is requested once exactly when its own key fetch succeeded, with that key |
| KisWs.KisWsSubscriptionManager.DrainOne | src/main/java/com/uniport/service/kisws/KisWsSubscriptionManager.java:60-67 | one iteration of the drain keeps the drain's invariant, with the key fetched for that code |
| KisWs.KisWsSubscriptionManager.RequestNext | src/main/java/com/uniport/service/kisws/KisWsSubscriptionManager.java:61-65 | a drained code is requested exactly when not yet subscribed and its own key fetch succeeded, with that key |
| KisWs.KisWsSubscriptionManager.Drain | src/main/java/com/uniport/service/kisws/KisWsSubscriptionManager.java:58-67 | subscribed gains all taken codes; the distinct new requests are the taken codes not subscribed before whose own key fetch succeeded, each with its own key |
| KisWs.KisWsSubscriptionManager.ClearSubscribedCodes | src/main/java/com/uniport/service/kisws/KisWsSubscriptionManager.java:71-74 | both sets are empty |
| KisWsCaches.Lookup | src/main/java/com/uniport/service/kisws/PriceCache.java:16-18 | a present key gives its value, an absent key gives empty, and a null key is an error (the concurrent map's NullPointerException) |
| KisWsCaches.Store | src/main/java/com/uniport/service/kisws/PriceCache.java:20-24 | a null key or value changes nothing; otherwise the key maps to the value and every other key is unchanged |
| KisWsCaches.LookupAfterStore | src/main/java/com/uniport/service/kisws/PriceCache.java:16-23 | after a store the key looks up as the stored value, overwriting any earlier one, and every other key looks up as before |
| KisWsCaches.PriceCache.constructor | src/main/java/com/uniport/service/kisws/PriceCache.java:14 | an empty cache |
| KisWsCaches.PriceCache.Put | src/main/java/com/uniport/service/kisws/PriceCache.java:20-24 | the new contents are Store of the old |
| KisWsCaches.StockRealtimeCache.constructor | src/main/java/com/uniport/service/kisws/StockRealtimeCache.java:15 | an empty cache |
| KisWsCaches.StockRealtimeCache.Put | src/main/java/com/uniport/service/kisws/StockRealtimeCache.java:17-21 | the new contents are Store of the old |
| KisWsCaches.StockRealtimeCache.GetAllSnapshot | src/main/java/com/uniport/service/kisws/StockRealtimeCache.java:28-30 | the snapshot equals the current contents; being a value, later puts leave it unchanged |
| KisWsRunner.ConnectTarget | src/main/java/com/uniport/service/kisws/KisWebSocketConnectionRunner.java:48-70 | a connection is attempted exactly when KIS is configured and the approval key is issued, at the base URL plus "?approval_key=" and the URL-encoded key |
| KisWsRunner.Targets | src/main/java/com/uniport/service/kisws/KisWebSocketConnectionRunner.java:48-70 | at most one connection per call |
| KisWsRunner.BackoffsBounded | src/main/java/com/uniport/service/kisws/KisWebSocketConnectionRunner.java:72-81 | however many closes, at most two reconnects are scheduled, the k-th after k × 1000 ms |
| KisWsRunner.KisWebSocketConnectionRunner.constructor | src/main/java/com/uniport/service/kisws/KisWebSocketConnectionRunner.java:39-41 | counter 0, nothing scheduled or opened |
| KisWsRunner.KisWebSocketConnectionRunner.Connect | src/main/java/com/uniport/service/kisws/KisWebSocketConnectionRunner.java:48-70 | the attempted connections grow by ConnectTarget and nothing else changes |
| KisWsRunner.KisWebSocketConnectionRunner.OnApplicationEvent | src/main/java/com/uniport/service/kisws/KisWebSocketConnectionRunner.java:43-46 | the first connect |
| KisWsRunner.KisWebSocketConnectionRunner.RunScheduledConnect | src/main/java/com/uniport/service/kisws/KisWebSocketConnectionRunner.java:80 | a scheduled connect runs once |
| KisWsRunner.KisWebSocketConnectionRunner.ScheduleReconnect | src/main/java/com/uniport/service/kisws/KisWebSocketConnectionRunner.java:72-81 | the counter goes up by one (as a Java int); attempts 1 and 2 schedule a connect after attempt × 1000 ms, later ones nothing |
| KisWsRunner.KisWebSocketConnectionRunner.OnConnectionClosed | src/main/java/com/uniport/service/kisws/KisWebSocketConnectionRunner.java:72-80 | every close increments the counter exactly once and schedules a reconnect exactly for closes 1 and 2 |
| KisWsRunner.KisWebSocketConnectionRunner.ReconnectsBounded | src/main/java/com/uniport/service/kisws/KisWebSocketConnectionRunner.java:26-80 | in every reachable state at most two reconnects were scheduled and at most three connections attempted, since the counter is never reset |
| JavaUrl.Utf8 | src/main/java/com/uniport/service/kisws/KisWebSocketConnectionRunner.java:56 | one to four bytes per character, and an ASCII character is its own byte |
| JavaUrl.Encode | src/main/java/com/uniport/service/kisws/KisWebSocketConnectionRunner.java:56 | the encoded approval key uses only letters, digits, "-_.*", "+" and "%", so it cannot end or split the query parameter, and it is never shorter than the key |
| JavaUrl.EncodeUnreserved | src/main/java/com/uniport/service/kisws/KisWebSocketConnectionRunner.java:56 | a key of letters, digits and "-_.*" is sent unchanged |
| JavaUrl.DecodeEncode | src/main/java/com/uniport/service/kisws/KisWebSocketConnectionRunner.java:56 | form-decoding the encoded key gives back exactly its UTF-8 bytes, so two keys sent as the same query value have the same UTF-8 bytes |
| Ranking.TeamRows | src/main/java/com/uniport/service/RankingService.java:132 | exactly the holding rows of the team |
| Ranking.AddHolding | src/main/java/com/uniport/service/RankingService.java:133-138 | one loop step adds the quote, or the average price when the lookup fails, times the quantity |
| Ranking.ComputeTotalValue | src/main/java/com/uniport/service/RankingService.java:127-141 | the team's value is its cash, or 10,000,000 without an account, plus the sum over its holdings of price × quantity |
| Ranking.HoldingsValueAppend | src/main/java/com/uniport/service/RankingService.java:131-139 | the value of the holdings splits over any division of the rows into two blocks |
| Ranking.HoldingsValueNonNegative | src/main/java/com/uniport/service/RankingService.java:131-139 | with non-negative quantities, averages and quotes the holdings are worth at least 0 |
| Ranking.TeamValueAtLeastCash | src/main/java/com/uniport/service/RankingService.java:127-141 | a team is worth at least its cash, and exactly its cash without holdings |
| Ranking.ProfitRateSpec | src/main/java/com/uniport/service/RankingService.java:57-59 | the profit rate is within half a unit of the fourth decimal of (total − 10,000,000) / 10,000,000, and never has the opposite sign to the profit |
| Ranking.StartedRooms | src/main/java/com/uniport/service/RankingService.java:51-53 | exactly the rooms whose status is "started" |
| Ranking.Entries | src/main/java/com/uniport/service/RankingService.java:54-66 | one entry per started room, in the rooms' order |
| Ranking.InsertPermutes | src/main/java/com/uniport/service/RankingService.java:67 | inserting into the ranking keeps all entries and adds the new one |
| Ranking.InsertSorted | src/main/java/com/uniport/service/RankingService.java:67 | inserting keeps the ranking non-increasing in value |
| Ranking.InsertStable | src/main/java/com/uniport/service/RankingService.java:67 | inserting keeps entries of equal value in their order |
| Ranking.SortByAssetsSpec | src/main/java/com/uniport/service/RankingService.java:67 | the sort is non-increasing in value, a permutation of its input, and stable |
| Ranking.GetAllGroupsRanking | src/main/java/com/uniport/service/RankingService.java:50-69 | the ranking lists the started rooms' entries, highest value first, as a stable permutation of the entries in the rooms' order |
| Ranking.RankingListsStartedRooms | src/main/java/com/uniport/service/RankingService.java:50-69 | every started room has its entry in the ranking, and every entry is that of a started room |
| Ranking.FindStartedRoomIdByMember | src/main/java/com/uniport/service/RankingService.java:144-152 | the first started room among those the user joined, most recent first; none exactly when no joined room has started |
| Ranking.GetCompetingTeams | src/main/java/com/uniport/service/RankingService.java:75-102 | one team per ranking entry in ranking order, with rank k + 1, id "team-" + n, the room's group name, the total value, the investment amount 10,000,000, the profit against it, the percentage as profit rate × 100, and isMyTeam exactly for the caller's team; values are non-increasing |
| Ranking.FindRank | src/main/java/com/uniport/service/RankingService.java:113-122 | the first entry of the team and its 1-based position, or none exactly when the team is not ranked |
| Ranking.GetMyGroupRanking | src/main/java/com/uniport/service/RankingService.java:105-125 | no answer without a team; otherwise the team's first ranking entry with its rank, or no answer exactly when it is not ranked |
| MatchingRooms.ToApiId | src/main/java/com/uniport/service/MatchingRoomService.java:245-247 | a null id gives null; otherwise the api id starts with "room-" |
| MatchingRooms.ParseRoomId | src/main/java/com/uniport/service/MatchingRoomService.java:206-215 | a null id or one without the "room-" prefix is a bad request; a parsed id is a Java long |
| MatchingRooms.ParseRoomIdOfApiId | src/main/java/com/uniport/service/MatchingRoomService.java:206-215 | the api id of any room reads back as that room's id |
| MatchingRooms.ParseRoomIdFlexible | src/main/java/com/uniport/service/MatchingRoomService.java:187-204 | a null or blank id is "room id required"; every other failure is "bad room id" |
| MatchingRooms.ParseRoomIdFlexibleAccepts | src/main/java/com/uniport/service/MatchingRoomService.java:187-204 | both "room-n" and the bare number n read as n |
| MatchingRooms.Without | src/main/java/com/uniport/service/MatchingRoomService.java:113 | the rows left are exactly those of other (room, user) pairs |
| MatchingRooms.WithoutRoom | src/main/java/com/uniport/service/MatchingRoomService.java:153 | the rows left are exactly those of other rooms |
| MatchingRooms.RoomRows | src/main/java/com/uniport/service/MatchingRoomService.java:133 | exactly the rows of the room |
| MatchingRooms.RoomRowsCount | src/main/java/com/uniport/service/MatchingRoomService.java:133 | the room's rows are as many as its count |
| MatchingRooms.WithoutSpec | src/main/java/com/uniport/service/MatchingRoomService.java:113 | the deleted pair has no row left and every other pair's membership is unchanged |
| MatchingRooms.NoDuplicatesPairwise | src/main/java/com/uniport/service/MatchingRoomService.java:90-97 | no two rows anywhere in the table share a (room, user) pair |
| MatchingRooms.CreateSpec | src/main/java/com/uniport/service/MatchingRoomService.java:69-79 | refused with a bad request exactly when the creator already has a membership; otherwise a new waiting room of capacity 3 under the next id, whose only member is the creator (none without a creator), with memberCount 1 or 0, users unchanged and the tables valid |
| MatchingRooms.FindRoom | src/main/java/com/uniport/service/MatchingRoomService.java:175-185 | a room found is the one stored under the parsed id |
| MatchingRooms.JoinSpec | src/main/java/com/uniport/service/MatchingRoomService.java:88-105 | a bad id, a missing room, an existing member and a full room are refused with their errors; otherwise the user is a member, the count grows by exactly one and stays within capacity, the reply carries the api id and new count, and the tables stay valid |
| MatchingRooms.RemoveFromRoomSpec | src/main/java/com/uniport/service/MatchingRoomService.java:113-122 | the pair's row is gone and every other pair is unchanged; the room is deleted exactly when its count is 0; other rooms are unchanged; the tables stay valid |
| MatchingRooms.LeaveSpec | src/main/java/com/uniport/service/MatchingRoomService.java:108-124 | only a member can leave; afterwards it is no member, its team id is cleared, the room is gone exactly when nobody is left, and the tables stay valid |
| MatchingRooms.RemoveMemberSpec | src/main/java/com/uniport/service/MatchingRoomService.java:160-173 | a non-member, including a null user id, is NOT_FOUND; otherwise the row is gone, the users table and every team id are unchanged, and the room is gone exactly when it is empty |
| MatchingRooms.DeleteRoomSpec | src/main/java/com/uniport/service/MatchingRoomService.java:151-156 | fails exactly for a bad id or a missing room; otherwise the room and all its rows are gone, every other room is unchanged with the same members, and the users are unchanged |
| MatchingRooms.AssignTeamSpec | src/main/java/com/uniport/service/MatchingRoomService.java:133-140 | exactly the listed users in the table get the team id; nobody is added or dropped |
| MatchingRooms.StartSpec | src/main/java/com/uniport/service/MatchingRoomService.java:127-147 | fails exactly for a bad id or a missing room; otherwise the room is "started", every member gets the team id "team-" + id, which reads back as the room, and everyone else is unchanged |
| MatchingRooms.MatchingRoomService.constructor | src/main/java/com/uniport/service/MatchingRoomService.java:32-39 | empty room and membership tables over the given users |
| MatchingRooms.MatchingRoomService.Create | src/main/java/com/uniport/service/MatchingRoomService.java:69-85 | the tables become those of the create outcome, or stay unchanged on failure |
| MatchingRooms.MatchingRoomService.Join | src/main/java/com/uniport/service/MatchingRoomService.java:88-105 | the tables become those of the join outcome, or stay unchanged on failure |
| MatchingRooms.MatchingRoomService.RemoveRow | src/main/java/com/uniport/service/MatchingRoomService.java:113-122 | deletes the row, stores the new count and deletes an emptied room |
| MatchingRooms.MatchingRoomService.Leave | src/main/java/com/uniport/service/MatchingRoomService.java:108-124 | the tables become those of the leave outcome, or stay unchanged on failure |
| MatchingRooms.MatchingRoomService.Start | src/main/java/com/uniport/service/MatchingRoomService.java:127-147 | the tables become those of the start outcome, or stay unchanged on failure |
| MatchingRooms.MatchingRoomService.AssignTeamToRows | src/main/java/com/uniport/service/MatchingRoomService.java:134-140 | the member loop gives exactly the listed users the team id and changes nothing else |
| MatchingRooms.MatchingRoomService.RemoveMemberByAdmin | src/main/java/com/uniport/service/MatchingRoomService.java:160-173 | the tables become those of the admin removal outcome, or stay unchanged on failure |
| MatchingRooms.MatchingRoomService.DeleteRoomByAdmin | src/main/java/com/uniport/service/MatchingRoomService.java:151-156 | the tables become those of the delete outcome, or stay unchanged on failure |
| Competitions.CompareToZero | src/main/java/com/uniport/service/CompetitionService.java:41 | String.compareTo gives 0 exactly for equal strings |
| Competitions.CompareToAntisymmetric | src/main/java/com/uniport/service/CompetitionService.java:41 | swapping the operands of compareTo negates the result |
| Competitions.DatesRejectedSpec | src/main/java/com/uniport/service/CompetitionService.java:41 | equal start and end dates are refused, and of two different dates exactly one order is accepted |
| Competitions.CreateOutcome | src/main/java/com/uniport/service/CompetitionService.java:40-51 | refused with a bad request exactly when both dates are given and the end is not after the start; otherwise the given fields or the defaults "새 대회", 2025-03-01T00:00:00 and 2025-03-31T23:59:59, with status "upcoming" |
| Competitions.UpdateOutcome | src/main/java/com/uniport/service/CompetitionService.java:54-67 | a missing competition is NOT_FOUND; out-of-order dates are a bad request; otherwise each given field replaces the stored one, and the status only when it is ongoing, upcoming or ended |
| Competitions.UpdateKeepsStatusAllowed | src/main/java/com/uniport/service/CompetitionService.java:63-65 | an update never leaves a status outside the three allowed ones |
| Competitions.ToMap | src/main/java/com/uniport/service/CompetitionService.java:69-77 | a null status shows as "upcoming" and the other fields as stored |
| Competitions.DaysRemaining | src/main/java/com/uniport/service/CompetitionService.java:80-89 | a null or blank end gives 0; otherwise the days from today to the end's first ten characters as a date, or to the whole end when it is shorter, narrowed to int, or 0 when that is no date |
| Competitions.DaysRemainingReadsDatePart | src/main/java/com/uniport/service/CompetitionService.java:83 | two ends with the same first ten characters have the same days remaining |
| Competitions.CompetitionService.constructor | src/main/java/com/uniport/service/CompetitionService.java:16-23 | no competitions stored |
| Competitions.CompetitionService.Create | src/main/java/com/uniport/service/CompetitionService.java:40-51 | the result is the create outcome under the next id, stored on success and with nothing stored on failure; every stored status stays allowed |
| Competitions.CompetitionService.Update | src/main/java/com/uniport/service/CompetitionService.java:54-67 | the result is the update outcome of the stored competition, stored back on success and with nothing changed on failure |
| Stocks.GetStockPrice | src/main/java/com/uniport/service/StockService.java:50-61 | a null or blank code is a bad request; otherwise the quote of the trimmed code, whose failure is always reported as an ApiException |
| Stocks.SearchStocks | src/main/java/com/uniport/service/StockService.java:63-72 | a blank keyword gives the empty list; every failure, an ApiException included, becomes SERVICE_UNAVAILABLE; otherwise the gateway's search of the trimmed keyword |
| Stocks.SearchStocksMatches | src/main/java/com/uniport/service/StockService.java:63-72 | a search over a ranking finds at most 20 quotes, all from the ranking and all matching the keyword |
| Stocks.PositionFigures | src/main/java/com/uniport/service/StockService.java:93-98 | value is price × quantity and profit is value − average × quantity; the rate is 0 for a zero average, and a non-zero average with no shares throws an ArithmeticException ("/ by zero") |
| Stocks.PositionRateSpec | src/main/java/com/uniport/service/StockService.java:96-98 | the rate does not depend on the quantity: it is the move of the price from the average in percent, within half a hundredth, with the sign of that move |
| Stocks.ZeroPad6Digits | src/main/java/com/uniport/service/StockService.java:76 | "%06d" of a number below a million is six digits that read back as the number |
| Stocks.DetailCode | src/main/java/com/uniport/service/StockService.java:76 | no id gives "000000"; an id below a million gives six digits that read back as the id |
| Stocks.DisplayName | src/main/java/com/uniport/service/StockService.java:145-148 | the shown name is never empty, never the code and never six digits; it is the trimmed quote name unless that is empty, the code or six digits, else "종목_" + code |
| Stocks.HoldingView | src/main/java/com/uniport/service/StockService.java:93-105 | the position shows quantity, average, value, profit and rate, failing exactly when the figures do |
| Stocks.MyHoldingOf | src/main/java/com/uniport/service/StockService.java:86-127 | the team's holding of the code when the user's team id names a team that holds it, else the personal holding, else none |
| Stocks.TeamHoldingTakesPrecedence | src/main/java/com/uniport/service/StockService.java:88-108 | a member of a team that holds the stock sees the team's quantity and average, whatever the personal table holds |
| Stocks.GetStockDetail | src/main/java/com/uniport/service/StockService.java:75-163 | a failed quote fails the detail; anonymous callers see no position; the position is the caller's one; id, code, name, price, change, change rate and market data (open = close = low = high = price) come from the quote, with 0 for a missing number |
| Stocks.DetailQuotesTheCode | src/main/java/com/uniport/service/StockService.java:76-82 | the gateway is asked for exactly the padded code |
| Me.ItemName | src/main/java/com/uniport/service/MeService.java:96-100 | the name is never blank: the quote's non-blank name when the quote succeeds, else "종목_" + code |
| Me.ToStockHoldingItem | src/main/java/com/uniport/service/MeService.java:94-119 | a failed quote counts as price 0 under the name "종목_" + code; a quote's non-blank name is kept and a missing or blank one is replaced by that name; value, profit and rate are the position figures, and a figure failure fails the item |
| Me.CollectAll | src/main/java/com/uniport/service/MeService.java:70-72 | the collected list fails exactly when some element fails, and otherwise holds every value in order |
| Me.HoldingItems | src/main/java/com/uniport/service/MeService.java:69-72 | one item per holding, in order; the listing fails exactly when some holding's item fails |
| Me.GetMyInvestment | src/main/java/com/uniport/service/MeService.java:40-92 | an anonymous caller sees only zeros; otherwise the stored figures with their defaults, the principal defaulting to total assets, cash equal to total assets, the holdings items, the ongoing competition with its days left, or 0 once the end has passed, and the mock-trading flag |
| Market.SortRanking | src/main/java/com/uniport/service/MarketService.java:114-118 | rising or falling exactly when sort equals that word ignoring case; volume otherwise |
| Market.SortRankingIgnoresCase | src/main/java/com/uniport/service/MarketService.java:114-116 | a sort value selects what its lower-case form selects |
| Market.ParseStockId | src/main/java/com/uniport/service/MarketService.java:141-148 | 0 for a null, blank or non-numeric code; otherwise the trimmed code as a long |
| Market.ParseStockIdOfDetailCode | src/main/java/com/uniport/service/MarketService.java:141-148 | the list id of a stock is the number its detail code was padded from |
| Market.ToStockItem | src/main/java/com/uniport/service/MarketService.java:129-137 | a missing name is "종목_" + code and missing numbers are 0; the id is the parsed code |
| Market.StockItems | src/main/java/com/uniport/service/MarketService.java:128-138 | one item per quote, in order |
| Market.GetStocksForApi | src/main/java/com/uniport/service/MarketService.java:112-139 | a failed volume ranking gives the empty list; a rising or falling failure is reported, always as an ApiException; otherwise the chosen ranking's items |
| Market.IndexItem | src/main/java/com/uniport/service/MarketService.java:89-103 | an index item takes the default name and 0 for missing fields |
| Market.GetIndicesForApi | src/main/java/com/uniport/service/MarketService.java:85-109 | as written: the fixed pair alone when KOSPI fails, KOSPI then the fixed pair when only KOSDAQ fails, else both gateway indices |
| Market.PartialFailureRepeatsKospi | src/main/java/com/uniport/service/MarketService.java:86-107 | when only KOSDAQ fails the strip has three entries and two of them are KOSPI with id 1 |
| Market.Indices | src/main/java/com/uniport/service/MarketService.java:85-109 | the intended strip always has two entries, ids 1 and 2: the gateway's when both calls succeed, else the fixed pair |
| Market.IndicesAgreeUnlessPartial | src/main/java/com/uniport/service/MarketService.java:85-109 | the written and intended strips differ exactly when KOSPI succeeds and KOSDAQ fails |
| Market.GetMarketIndex | src/main/java/com/uniport/service/MarketService.java:71-82 | a null or blank code is a bad request; otherwise the index of the trimmed code, whose failure is always an ApiException |
| Chat.ExtractGroupId | src/main/java/com/uniport/websocket/ChatWebSocketHandler.java:148-159 | a group id that is found is never blank and contains no '/' |
| Chat.ChatPathAccepted | src/main/java/com/uniport/websocket/ChatWebSocketHandler.java:148-159 | every path "/groups/<id>/chat…" (leading '/' optional) with a non-blank id without '/' yields exactly that id |
| Chat.ChatPathRequired | src/main/java/com/uniport/websocket/ChatWebSocketHandler.java:148-159 | a path yields an id only when it has the form "groups/<id>/chat…" once a leading '/' is removed |
| Chat.FirstTokenParam | src/main/java/com/uniport/websocket/ChatWebSocketHandler.java:166-168 | the position of the first "token" parameter; no earlier parameter is one |
| Chat.TokenOf | src/main/java/com/uniport/websocket/ChatWebSocketHandler.java:162-174 | a token that is found is non-empty and already trimmed |
| Chat.ExtractToken | src/main/java/com/uniport/websocket/ChatWebSocketHandler.java:162-174 | the loop over the '&' parameters returns the value of the first "token" parameter, trimmed, or null when that value is empty, there is no such parameter, or the query is null or blank |
| Chat.TokenOfSingleParam | src/main/java/com/uniport/websocket/ChatWebSocketHandler.java:162-174 | the query "token=v" gives v for every trimmed, non-empty v without '&' |
| Chat.ParseRoomId | src/main/java/com/uniport/websocket/ChatWebSocketHandler.java:115-129 | a null or blank group id gives no room; a room id found is a Java long |
| Chat.ParseRoomIdAccepts | src/main/java/com/uniport/websocket/ChatWebSocketHandler.java:115-129 | both "room-n" and the bare number n give room n |
| Chat.ParseRoomIdAgreesWithApi | src/main/java/com/uniport/websocket/ChatWebSocketHandler.java:115-129 | on a trimmed group id the chat reader and the room service's flexible reader accept the same ids with the same result |
| Chat.MemberText | src/main/java/com/uniport/websocket/ChatWebSocketHandler.java:106-109 | one member is the opening quote, the escaped key, `":` and the value text; a key without backslashes unescapes back from between the quote and the `":` |
| Chat.Members | src/main/java/com/uniport/websocket/ChatWebSocketHandler.java:104-110 | a non-empty map gives a non-empty member list |
| Chat.MembersEnds | src/main/java/com/uniport/websocket/ChatWebSocketHandler.java:104-110 | a non-empty member list starts with the first entry's member and ends with the last entry's |
| Chat.ToJson | src/main/java/com/uniport/websocket/ChatWebSocketHandler.java:102-113 | the loop's output is the JSON object of the entries in iteration order: '{', the members separated by ',' from the second on, '}' |
| Chat.UnescapeEscapedChar | src/main/java/com/uniport/websocket/ChatWebSocketHandler.java:109 | unescaping the escaped text undoes the first character's escape and continues with the rest |
| Chat.UnescapeEscapedText | src/main/java/com/uniport/websocket/ChatWebSocketHandler.java:109 | unescaping a string value's escaped text gives back exactly the value, so no two values are sent the same way |
| Chat.EscapeMapKeyWithoutBackslash | src/main/java/com/uniport/websocket/ChatWebSocketHandler.java:106 | a key without '\\' is escaped like a value and so reads back exactly |
| Chat.BroadcastEntries | src/main/java/com/uniport/websocket/ChatWebSocketHandler.java:76-83 | the broadcast has seven keys in the map's iteration order, none containing a backslash |
| Chat.ChatWebSocketHandler.constructor | src/main/java/com/uniport/websocket/ChatWebSocketHandler.java:35-44 | no group has sessions |
| Chat.ChatWebSocketHandler.AfterConnectionEstablished | src/main/java/com/uniport/websocket/ChatWebSocketHandler.java:46-61 | the session is closed with BAD_DATA exactly when there is no group id; it is kept exactly when the token authenticates a user who is a member of the room; a kept session is added to its group and nothing else changes; a closed one changes nothing |
| Chat.ChatWebSocketHandler.AfterConnectionClosed | src/main/java/com/uniport/websocket/ChatWebSocketHandler.java:131-141 | the session leaves its group and is in it no more, a group left empty is dropped, and every other group keeps its sessions |
| Chat.ChatWebSocketHandler.Recipients | src/main/java/com/uniport/websocket/ChatWebSocketHandler.java:177-184 | a broadcast reaches exactly the open sessions of the group |
| Chat.ChatWebSocketHandler.HandleTextMessage | src/main/java/com/uniport/websocket/ChatWebSocketHandler.java:63-89 | nothing happens without a group id; a message is saved exactly when the room id parses and a userId is found, with nickname "" and the whole payload as defaults, and its JSON broadcast is sent; otherwise the raw payload is sent; the recipients are the group's open sessions |
| Wrappers.Rethrow | src/main/java/com/uniport/service/StockService.java:54-60 | an ApiException passes through unchanged; any other exception becomes SERVICE_UNAVAILABLE with the prefix and its message; so every failure out of the guard is an ApiException |
| JavaNumbers.Wrap32 | src/main/java/com/uniport/service/KisApiService.java:163 | the narrowed value is a Java int, equal to the input when that already is one and congruent to it modulo 2^32 |
| JavaNumbers.ParseLong | src/main/java/com/uniport/service/MatchingRoomService.java:212 | a parsed value is a Java long |
| JavaNumbers.ParseLongOfToString | src/main/java/com/uniport/service/MatchingRoomService.java:212 | Long.parseLong reads back the decimal text of every long |
| JavaNumbers.ParseBigDecimalOfToString | src/main/java/com/uniport/service/KisApiService.java:371 | new BigDecimal of an integer's decimal text is that integer |
| JavaNumbers.RoundHalfUpError | src/main/java/com/uniport/service/RankingService.java:58 | HALF_UP rounding to a scale moves a value by at most half a unit of the last kept place |
| JavaNumbers.RoundHalfUpExact | src/main/java/com/uniport/service/RankingService.java:58 | a value already on the grid of the scale is left as it is |
| JavaNumbers.RoundHalfUpSign | src/main/java/com/uniport/service/RankingService.java:58 | rounding never changes the sign of a value |
| JavaText.Trim | src/main/java/com/uniport/service/KisApiService.java:363 | trimming never lengthens the text |
| JavaText.TrimSpec | src/main/java/com/uniport/service/KisApiService.java:363 | the trimmed text is the infix of the input that neither starts nor ends with a character up to U+0020, with only such characters around it |
| JavaText.TrimIdempotent | src/main/java/com/uniport/service/KisApiService.java:363 | trimming twice is trimming once |
| JavaText.IndexOf | src/main/java/com/uniport/websocket/ChatWebSocketHandler.java:167 | the position of the first occurrence, and the length exactly when there is none |
| JavaText.SplitAll | src/main/java/com/uniport/websocket/ChatWebSocketHandler.java:153 | at least one field, none containing the separator |
| JavaText.SplitAllJoin | src/main/java/com/uniport/websocket/ChatWebSocketHandler.java:153 | joining the fields with the separator gives back the input |
| JavaText.JoinSplitAll | src/main/java/com/uniport/websocket/ChatWebSocketHandler.java:153 | a non-empty list of fields without the separator comes back from splitting its join |
| JavaText.DropTrailingEmpty | src/main/java/com/uniport/websocket/ChatWebSocketHandler.java:153 | split with limit 0 keeps a prefix of the fields and drops exactly the trailing empty ones |
| JavaText.ToLower | src/main/java/com/uniport/service/KisApiService.java:596 | the same length, with each ASCII letter lowered |
| JavaText.LowerContainsUpper | src/main/java/com/uniport/service/KisApiService.java:755-756 | a lower-case ASCII word found in the lower-cased text is found in capitals in the upper-cased text |
| JavaText.PadCode6Spec | src/main/java/com/uniport/service/kisws/KisWsSubscriptionManager.java:80 | a code of six or more characters is kept; a shorter one without spaces gets leading zeros up to six |
| JavaText.PadCode6Idempotent | src/main/java/com/uniport/service/kisws/KisWsSubscriptionManager.java:80 | normalizing a code twice is normalizing it once |
| JavaText.ZeroPad6Negative | src/main/java/com/uniport/service/StockService.java:76 | "%06d" puts the zeros after the minus sign: -5 is shown as "-00005" |

## Left out

- The debug-log file write at the start of `executeTeamOrder`: it is I/O with no effect on the outcome.
- Authentication (`AuthService`, `JwtUtil`, `SecurityConfig`), `ChatService`'s Jackson parsing, the controllers, configuration, DTOs and the start-up data seeding are not part of this model. `GroupController`'s valuation repeats `RankingService`'s and is not modelled separately.
- `getKisWebSocketBaseUrl` is called by the connection runner but is not defined in `KisApiService`. The model takes the base URL as a parameter.
- Transport and framework: Spring wiring, HTTP controllers, authentication filters and Jackson (de)serialization. Replies are modelled as already-parsed fields. A transaction's rollback is modelled as a failed call that changes nothing; the rollback-only mark that a swallowed order failure leaves on the vote transaction (`VoteService.java:218-222`) is not modelled.
- Actual HTTP and WebSocket traffic. The KIS gateway, the WebSocket session and its send are function parameters or recorded in sequences of sent messages.
- Concurrency: locks, `synchronized`, `ConcurrentHashMap` atomicity and the scheduler threads. Each operation is modelled as one atomic step.
- Clocks: `LocalDate.now()`, `LocalDateTime.now()` and `System.currentTimeMillis()` are parameters. `LocalDate.parse` is a parameter from text to an epoch day, or None where it throws.
- Floating point: only integral JSON numbers are modelled (`KisApi.Scalar`'s `Num`), each taken exactly. Fractional JSON numbers, the rounding to `double` of integers above 2^53 in `getBigDecimal`, and the truncation of a fraction by `longValue` in `getLong` and by `intValue` in `parseTokenExpiresIn` are left out. The `double` of `profitLossPercentage` in `getCompetingTeams` is left out too (next line).
- Ranking.GetCompetingTeams: `profitLossPercentage` is the exact profit rate × 100. The source converts it to a `double` with `doubleValue()` (RankingService.java:88), which rounds to the nearest `double`; the model does not capture that rounding.
- Stocks.PositionFigures: the error message is the one of the long division (`"/ by zero"`). When the scales force `BigDecimal` onto `BigInteger` arithmetic, the message is `"BigInteger divide by zero"` instead; the model does not track scales.
- `String.compareTo` is modelled on Dafny characters. Java compares UTF-16 code units, and the two orders differ only for characters outside the Basic Multilingual Plane.
- `HashMap` iteration order is modelled only for the seven fixed keys of the chat broadcast (`Chat.BroadcastEntries`), whose bucket order is worked out by hand. Hash codes in general are not modelled.
- The regular-expression field extraction of the chat handler's JSON payload is a parameter (`PayloadFields`). Because of that, the `Long.parseLong` overflow of a user id inside the payload is not modelled.
- `handleTransportError`, which closes the chat session with SERVER_ERROR, and the `IOException` swallowed by `sendSafe`: both are transport behaviour.
- In `MatchingRoomService`: `list`, `listRoomsJoinedBy`, `hasUserStartedMockTrading` and `toMap` are not modelled. They are queries outside the modelled core; `hasUserStartedMockTrading` is a parameter of `Me.GetMyInvestment`.
- In `CompetitionService`: `findAll`, `findOngoing` and `findByStatus` are repository queries. Their results are parameters where a modelled operation uses them.
- In `KisApiService`: `getIndexChartPrice` with its HTTP call, and the `MarketService` method that wraps it, are not modelled.
- In `KisApiService`: `getMarketIndex` itself, with its fallback to `getMarketIndexStub` and its `mapToMarketIndexDTO` field copy, is not modelled; only the index code mapping `toIndexFidInputIscd` is. `MarketService.getMarketIndex` takes the gateway call as a parameter.
- In `StockService.getStockDetail`: the fixed sample financial data, the news and company texts and the logo colour are constants of the page and are not modelled. The constant logo colour "#4A90D9" of `Market.MarketStockItem` (`MarketService.java:136`) and of `Me.StockHoldingItem` (`MeService.java:117`) is left out as well. The `ensureSubscribed` side effect on the realtime feed is not modelled either. The holding's own row id is not part of `Me.StockHoldingItem`.
- Competitions.ToMap: `Map.of` throws `NullPointerException` on a null name or date; the model's competitions have non-null names and dates, so that failure is not modelled.
- Me.ToStockHoldingItem: a holding with a null average purchase price is not modelled; holdings carry a number.
- Trade.TradeService: the gateway `placeOrder` is the KisApiService stub, which answers without a network call, so a gateway failure after the ledger step is not modelled.
- Trade.BuyAverages: states the buy with the exact quantity sum of the corrected model (see Findings), not the 32-bit `int` sum of `TradeService.java:129`, which wraps for holdings past 2147483647 shares.
- Trade.BoughtAverage: the bought row holds the exact sum old + q, not the wrapped `int` sum of the source.
- Trade.TradeService.ExecuteTeamOrder: the class, and `Trade.TeamOrder`, `Trade.PlaceOrderOutcome` and `Trade.PlaceOrderForTeamOutcome` with it, run the corrected exact quantity sum; the source's wrap-around is modelled only by `Trade.Int32QuantityOverflow`.
- JavaText.ToLower: maps ASCII letters only. Java's `toLowerCase` maps every Unicode letter, and some non-ASCII characters (the Kelvin sign, for one) lower-case to ASCII letters, so a keyword or sort value holding them compares differently.
- JavaText.ToUpper: maps ASCII letters only. Java's `toUpperCase` maps ſ to S and ı to I, and expands ß and some ligatures to two letters, so "koſdaq" selects KOSDAQ in Java but not in the model.
- JavaText.EqualsIgnoreCase: compares the ASCII-lowered strings. Java compares character by character, upper-cased or lower-cased, over all of Unicode, so "riſing" equals "rising" in Java but not in the model.
- JavaNumbers.ParseLong: accepts ASCII digits only. `Long.parseLong` accepts every Unicode decimal digit, so "١٢" is 12 in Java but unparsable in the model; this reaches room, team and stock ids.
- JavaNumbers.ParseBigDecimal: accepts ASCII digits only, where `new BigDecimal` accepts every Unicode decimal digit.

## Findings

| source | as written | input that shows it | evidently intended | confidence | as-written member | corrected member |
|---|---|---|---|---|---|---|
| src/main/java/com/uniport/service/TradeService.java:129 | the new holding quantity is the Java `int` sum of the held and the bought quantity, which wraps around | two buys of 2147483647 shares of one stock by a new team at price 0.001 leave a holding of -2 shares | the exact sum, so that a holding's quantity stays positive | not executed | Trade.Int32QuantityOverflow | Trade.ExactQuantitySum, Trade.ExecutePreservesValid |
| src/main/java/com/uniport/service/MarketService.java:86-108 | the fallback pair is appended to whatever the list already holds when an exception is caught | the KOSPI call succeeds and the KOSDAQ call throws: the strip has three entries, and KOSPI appears twice with id 1 | the fixed KOSPI and KOSDAQ pair in place of the whole strip | not executed | Market.GetIndicesForApi, Market.PartialFailureRepeatsKospi | Market.Indices, Market.IndicesAgreeUnlessPartial |
