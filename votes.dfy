/**
 * `VoteService`: a team's buy/sell proposals. A proposal opens an "ongoing" vote with the
 * proposer's automatic agree; every member's later choice is upserted, the ballots are
 * tallied, and the vote passes (placing the team order, best effort) or is rejected.
 * The room membership that the service reads from the matching-room tables is a
 * parameter (`members`, the user ids of the room), and so is the user table.
 */
module Votes {
  import opened Wrappers
  import opened JavaText
  import opened Domain
  import Trade

  const ONGOING: string := "ongoing"
  const PASSED: string := "passed"
  const REJECTED: string := "rejected"
  const AGREE: string := "찬성"
  const DISAGREE: string := "반대"
  const ABSTAIN: string := "보류"
  const BUY_TYPE: string := "매수"
  const SELL_TYPE: string := "매도"
  /** Members assumed when the room has no member rows. */
  const DEFAULT_MEMBERS: int := 3
  const VOTE_LIFETIME_MILLIS: int := 24 * 60 * 60 * 1000
  /** Agrees that pass a vote, whatever the room size. */
  const PASS_AGREES: int := 2

  /** A row of the `votes` table. */
  datatype Vote = Vote(
    id: int,
    roomId: int,
    proposerId: int,
    proposerName: string,
    voteType: string,
    stockName: string,
    stockCode: Option<string>,
    quantity: int,
    proposedPrice: real,
    reason: string,
    createdAt: int,
    expiresAt: int,
    totalMembers: int,
    status: string)

  /** A row of the `vote_participants` table. */
  datatype Ballot = Ballot(id: int, voteId: int, userId: int, userName: string, choice: string)

  /** A blank or missing stock code compares as "", any other as its trimmed text. */
  function NormalizedCode(code: Option<string>): string {
    if NullOrBlank(code) then "" else Trim(code.value)
  }

  /** The votes of a room that are still open (the repository's status query). */
  function OngoingIn(votes: seq<Vote>, roomId: int): (r: seq<Vote>)
    ensures forall v :: v in r <==> v in votes && v.roomId == roomId && v.status == ONGOING
  {
    if votes == [] then []
    else
      var rest := OngoingIn(votes[1..], roomId);
      if votes[0].roomId == roomId && votes[0].status == ONGOING then [votes[0]] + rest else rest
  }

  /** The duplicate test of `createVote`: the same type and the same normalized code. */
  predicate SameProposal(v: Vote, voteType: Option<string>, code: Option<string>) {
    voteType.Some? && v.voteType == voteType.value && NormalizedCode(v.stockCode) == NormalizedCode(code)
  }

  /** True when an open vote of the room already proposes the same trade. */
  predicate DuplicateProposal(votes: seq<Vote>, roomId: int, voteType: Option<string>, code: Option<string>) {
    exists v :: v in OngoingIn(votes, roomId) && SameProposal(v, voteType, code)
  }

  /** The vote's member count: the room's, or 3 when the room has none. */
  function MembersSnapshot(members: set<int>): (r: int)
    ensures r > 0
    ensures |members| > 0 ==> r == |members|
    ensures |members| == 0 ==> r == DEFAULT_MEMBERS
  {
    if |members| <= 0 then DEFAULT_MEMBERS else |members|
  }

  function NameOf(u: User): string {
    u.nickname.GetOr("")
  }

  /** A stored choice: "찬성" and "반대" are kept, anything else is "보류". */
  function NormalizeChoice(value: Option<string>): (r: string)
    ensures r == AGREE || r == DISAGREE || r == ABSTAIN
    ensures (value == Some(AGREE) || value == Some(DISAGREE)) ==> Some(r) == value
    ensures !(value == Some(AGREE) || value == Some(DISAGREE)) ==> r == ABSTAIN
  {
    if value.Some? && (value.value == AGREE || value.value == DISAGREE) then value.value else ABSTAIN
  }

  /** The ballots cast on one vote, in id order. */
  function BallotsOf(ballots: seq<Ballot>, voteId: int): (r: seq<Ballot>)
    ensures |r| <= |ballots|
    ensures forall b :: b in r <==> b in ballots && b.voteId == voteId
  {
    if ballots == [] then []
    else
      var rest := BallotsOf(ballots[1..], voteId);
      if ballots[0].voteId == voteId then [ballots[0]] + rest else rest
  }

  /** How many ballots carry the choice. */
  function CountChoice(ballots: seq<Ballot>, choice: string): (r: nat)
    ensures r <= |ballots|
  {
    if ballots == [] then 0
    else (if ballots[0].choice == choice then 1 else 0) + CountChoice(ballots[1..], choice)
  }

  lemma {:induction false} CountChoiceAppend(a: seq<Ballot>, b: Ballot, choice: string)
    ensures CountChoice(a + [b], choice) == CountChoice(a, choice) + (if b.choice == choice then 1 else 0)
    decreases |a|
  {
    if a == [] {
      assert a + [b] == [b];
    } else {
      assert (a + [b])[1..] == a[1..] + [b];
      CountChoiceAppend(a[1..], b, choice);
    }
  }

  /** Agrees and disagrees never exceed the ballots. */
  lemma {:induction false} TallyBound(ballots: seq<Ballot>)
    ensures CountChoice(ballots, AGREE) + CountChoice(ballots, DISAGREE) <= |ballots|
  {
    if ballots != [] {
      TallyBound(ballots[1..]);
    }
  }

  /** The outcome of a tally for a vote counting `totalMembers` members. */
  function Decide(agree: int, disagree: int, recorded: int, totalMembers: int): (r: string)
    ensures r == PASSED || r == REJECTED || r == ONGOING
  {
    var total := if totalMembers < 1 then 1 else totalMembers;
    var majority := total / 2 + 1;
    if agree >= PASS_AGREES || (total == 1 && agree >= 1) then PASSED
    else if recorded >= total && disagree >= majority then REJECTED
    else ONGOING
  }

  /** The pass and reject rules, with the member count clamped to at least one. */
  lemma DecideRules(agree: int, disagree: int, recorded: int, totalMembers: int)
    ensures var total := if totalMembers < 1 then 1 else totalMembers;
      var r := Decide(agree, disagree, recorded, totalMembers);
      (r == PASSED <==> agree >= 2 || (total == 1 && agree >= 1))
      && (r == REJECTED <==> r != PASSED && recorded >= total && disagree >= total / 2 + 1)
  {
  }

  /** The pass threshold does not grow with the room: two agrees pass a vote of ten. */
  lemma TwoAgreesAlwaysPass(disagree: int, recorded: int, totalMembers: int)
    ensures Decide(2, disagree, recorded, totalMembers) == PASSED
  {
  }

  /** In a room of three, the proposer's agree and two disagrees reject the vote, while one
      disagree leaves it open. */
  lemma ThreeMemberRejection()
    ensures Decide(1, 2, 3, 3) == REJECTED
    ensures Decide(1, 1, 2, 3) == ONGOING
  {
  }

  /** A rejection needs a majority of disagrees among all members' ballots. */
  lemma RejectionNeedsMajority(ballots: seq<Ballot>, totalMembers: int)
    requires totalMembers >= 1
    requires Decide(CountChoice(ballots, AGREE), CountChoice(ballots, DISAGREE), |ballots|, totalMembers) == REJECTED
    ensures CountChoice(ballots, DISAGREE) > totalMembers / 2 && CountChoice(ballots, AGREE) <= 1
    ensures |ballots| >= totalMembers
  {
    var agree, disagree := CountChoice(ballots, AGREE), CountChoice(ballots, DISAGREE);
    DecideRules(agree, disagree, |ballots|, totalMembers);
  }

  /** The outcome of the tally of a vote's ballots. */
  function Tally(ballots: seq<Ballot>, vote: Vote): string {
    var all := BallotsOf(ballots, vote.id);
    Decide(CountChoice(all, AGREE), CountChoice(all, DISAGREE), |all|, vote.totalMembers)
  }

  /** Position of the ballot of `userId` on `voteId`, or `|ballots|`. */
  function FindBallot(ballots: seq<Ballot>, voteId: int, userId: int): (r: nat)
    ensures r <= |ballots|
    ensures r < |ballots| ==> ballots[r].voteId == voteId && ballots[r].userId == userId
    ensures forall j :: 0 <= j < r ==> !(ballots[j].voteId == voteId && ballots[j].userId == userId)
  {
    if ballots == [] then 0
    else if ballots[0].voteId == voteId && ballots[0].userId == userId then 0
    else 1 + FindBallot(ballots[1..], voteId, userId)
  }

  /** Records a choice: an existing ballot of the user is overwritten, else one is added. */
  function Upsert(ballots: seq<Ballot>, voteId: int, userId: int, userName: string, choice: string): seq<Ballot> {
    var k := FindBallot(ballots, voteId, userId);
    if k < |ballots| then ballots[k := ballots[k].(choice := choice)]
    else ballots + [Ballot(|ballots| + 1, voteId, userId, userName, choice)]
  }

  /** At most one ballot per (vote, user). */
  predicate UniqueBallots(ballots: seq<Ballot>) {
    forall i, j :: 0 <= i < j < |ballots| ==>
      !(ballots[i].voteId == ballots[j].voteId && ballots[i].userId == ballots[j].userId)
  }

  /** Ballot ids are 1, 2, 3, … in table order (the id order of `findByVote_IdOrderById`). */
  predicate NumberedBallots(ballots: seq<Ballot>) {
    forall i :: 0 <= i < |ballots| ==> ballots[i].id == i + 1
  }

  /** After an upsert the user has exactly one ballot on the vote, holding the new choice;
      every other ballot is unchanged, and a ballot is added only for a first vote. */
  lemma UpsertRecords(ballots: seq<Ballot>, voteId: int, userId: int, userName: string, choice: string)
    requires UniqueBallots(ballots) && NumberedBallots(ballots)
    ensures var r := Upsert(ballots, voteId, userId, userName, choice);
      var k := FindBallot(ballots, voteId, userId);
      UniqueBallots(r) && NumberedBallots(r)
      && |r| == |ballots| + (if k < |ballots| then 0 else 1)
      && k < |r| && r[k].voteId == voteId && r[k].userId == userId && r[k].choice == choice
      && (forall i :: 0 <= i < |r| && r[i].voteId == voteId && r[i].userId == userId ==> i == k)
      && (forall i :: 0 <= i < |ballots| && i != k ==> r[i] == ballots[i])
  {
    var r := Upsert(ballots, voteId, userId, userName, choice);
    var k := FindBallot(ballots, voteId, userId);
    forall i | 0 <= i < |r| && i != k
      ensures !(r[i].voteId == voteId && r[i].userId == userId)
    {
      assert i < |ballots| && r[i] == ballots[i];
      if k < i {
        assert ballots[k].voteId == voteId && ballots[k].userId == userId;
      }
    }
  }

  /** `executeVoteOrder`'s request: none without a stock code; a price of at most 0 is sent
      as 1, and the side is SELL exactly for the type "매도". */
  function VoteOrderRequest(v: Vote): (r: Option<Trade.PlaceOrderRequest>)
  {
    if NullOrBlank(v.stockCode) then None
    else
      var price := if v.proposedPrice > 0.0 then v.proposedPrice else 1.0;
      var side := if v.voteType == SELL_TYPE then Sell else Buy;
      var name := if IsBlank(v.stockName) then None else Some(v.stockName);
      Some(Trade.PlaceOrderRequest(v.stockCode, name, v.quantity, Some(price), Some(side)))
  }

  /** The vote order always carries a positive price, so it passes validation exactly when
      the proposed quantity is positive. */
  lemma VoteOrderRequestRules(v: Vote)
    ensures VoteOrderRequest(v).Some? <==> !NullOrBlank(v.stockCode)
    ensures var r := VoteOrderRequest(v);
      r.Some? ==>
        r.value.stockCode == v.stockCode
        && r.value.price.Some? && r.value.price.value > 0.0
        && (v.proposedPrice > 0.0 ==> r.value.price == Some(v.proposedPrice))
        && (r.value.orderType == Some(Sell) <==> v.voteType == SELL_TYPE)
        && (Trade.ValidationError(r.value).None? <==> v.quantity > 0)
  {
  }

  /** The checks of `submitVote`, in order: a user, an existing vote, the right room, an
      open vote, a member of the room. */
  function SubmitRefusal(votes: seq<Vote>, groupId: int, voteId: int, user: Option<User>, members: set<int>)
    : (r: Option<Error>)
    ensures r.None? ==> user.Some? && 1 <= voteId <= |votes|
  {
    if user.None? then Some(Api(Unauthorized, "로그인이 필요합니다."))
    else if !(1 <= voteId <= |votes|) then Some(Api(NotFound, "투표를 찾을 수 없습니다."))
    else if votes[voteId - 1].roomId != groupId then Some(Api(BadRequest, "해당 그룹의 투표가 아닙니다."))
    else if votes[voteId - 1].status != ONGOING then Some(Api(BadRequest, "이미 종료된 투표입니다."))
    else if user.value.id !in members then Some(Api(Forbidden, "해당 채팅방 멤버만 투표할 수 있습니다."))
    else None
  }

  /** Once a vote has passed or been rejected, every further ballot is refused. */
  lemma ResolvedVotesAreFinal(votes: seq<Vote>, groupId: int, voteId: int, user: User, members: set<int>)
    requires 1 <= voteId <= |votes| && votes[voteId - 1].roomId == groupId
    requires votes[voteId - 1].status != ONGOING
    ensures var r := SubmitRefusal(votes, groupId, voteId, Some(user), members);
      r == Some(Api(BadRequest, "이미 종료된 투표입니다."))
  {
  }

  /** The reply of `submitVote`: the vote id and the choice as stored. */
  datatype SubmitReply = SubmitReply(voteId: int, choice: string)

  class VoteService {
    var votes: seq<Vote>
    var ballots: seq<Ballot>
    const trade: Trade.TradeService

    /** Vote and ballot ids follow table order, ballots belong to existing votes, one ballot
        per member and vote, and every status is one of the three. */
    predicate Valid()
      reads this, trade
    {
      trade.Valid()
      && (forall i :: 0 <= i < |votes| ==> votes[i].id == i + 1)
      && (forall i :: 0 <= i < |votes| ==> votes[i].status in {ONGOING, PASSED, REJECTED})
      && NumberedBallots(ballots) && UniqueBallots(ballots)
      && (forall b :: b in ballots ==> 1 <= b.voteId <= |votes|)
    }

    constructor (trade: Trade.TradeService)
      requires trade.Valid()
      ensures Valid() && this.trade == trade && votes == [] && ballots == []
    {
      this.trade := trade;
      votes := [];
      ballots := [];
    }

    /** `createVote` at time `now` in room `groupId`, whose member ids are `members`. */
    method CreateVote(groupId: int, proposer: User, voteType: Option<string>, stockName: Option<string>,
                      stockCode: Option<string>, quantity: int, proposedPrice: Option<real>, reason: Option<string>,
                      members: set<int>, now: int)
      returns (r: Result<Vote>)
      requires Valid()
      modifies this
      ensures Valid()
      ensures DuplicateProposal(old(votes), groupId, voteType, stockCode) ==>
        FailsWith(r, BadRequest) && votes == old(votes) && ballots == old(ballots)
      ensures !DuplicateProposal(old(votes), groupId, voteType, stockCode) ==>
        var v := Vote(|old(votes)| + 1, groupId, proposer.id, NameOf(proposer), voteType.GetOr(BUY_TYPE),
                      stockName.GetOr(""), if NullOrBlank(stockCode) then None else stockCode, quantity,
                      proposedPrice.GetOr(0.0), reason.GetOr(""), now, now + VOTE_LIFETIME_MILLIS,
                      MembersSnapshot(members), ONGOING);
        r == Ok(v) && votes == old(votes) + [v]
        && ballots == old(ballots) + [Ballot(|old(ballots)| + 1, v.id, proposer.id, NameOf(proposer), AGREE)]
    {
      var duplicate := HasDuplicate(groupId, voteType, stockCode);
      if duplicate {
        return Err(Api(BadRequest, "이미 해당 종목에 대한 " + voteType.value + " 투표가 진행 중입니다."));
      }
      var v := Vote(|votes| + 1, groupId, proposer.id, NameOf(proposer), voteType.GetOr(BUY_TYPE),
                    stockName.GetOr(""), if NullOrBlank(stockCode) then None else stockCode, quantity,
                    proposedPrice.GetOr(0.0), reason.GetOr(""), now, now + VOTE_LIFETIME_MILLIS,
                    MembersSnapshot(members), ONGOING);
      votes := votes + [v];
      ballots := ballots + [Ballot(|ballots| + 1, v.id, proposer.id, NameOf(proposer), AGREE)];
      r := Ok(v);
    }

    /** The duplicate scan of `createVote` over the room's open votes. */
    method HasDuplicate(groupId: int, voteType: Option<string>, stockCode: Option<string>) returns (found: bool)
      ensures found == DuplicateProposal(votes, groupId, voteType, stockCode)
      ensures found ==> voteType.Some?
    {
      var code := NormalizedCode(stockCode);
      var ongoing := OngoingIn(votes, groupId);
      var i := 0;
      while i < |ongoing|
        invariant 0 <= i <= |ongoing|
        invariant forall j :: 0 <= j < i ==> !SameProposal(ongoing[j], voteType, stockCode)
      {
        var w := ongoing[i];
        if voteType.Some? && w.voteType == voteType.value && code == NormalizedCode(w.stockCode) {
          assert SameProposal(w, voteType, stockCode);
          return true;
        }
        i := i + 1;
      }
      found := false;
    }

    /** `submitVote` at time `now`; `members` are the room's member ids and `users` the user
        table, read for the proposer of a passing vote. */
    method SubmitVote(groupId: int, voteId: int, user: Option<User>, voteValue: Option<string>,
                      members: set<int>, users: map<int, User>, now: int)
      returns (r: Result<SubmitReply>)
      requires Valid()
      modifies this, trade
      ensures Valid()
      ensures var refusal := SubmitRefusal(old(votes), groupId, voteId, user, members);
        refusal.Some? ==>
          r == Err(refusal.value) && votes == old(votes) && ballots == old(ballots)
          && trade.ledger == old(trade.ledger) && trade.orders == old(trade.orders)
      ensures var refusal := SubmitRefusal(old(votes), groupId, voteId, user, members);
        refusal.None? ==>
          r == Ok(SubmitReply(voteId, NormalizeChoice(voteValue))) && Recorded(voteId, user.value, voteValue, users, now)
    {
      var refusal := SubmitRefusal(votes, groupId, voteId, user, members);
      if refusal.Some? {
        return Err(refusal.value);
      }
      r := RecordBallot(voteId, user.value, voteValue, users, now);
    }

    /** What the accepted path of `submitVote` leaves: the user's choice upserted, the vote's
        status re-tallied and stored, and the team order placed exactly when the vote passed
        and names a stock. */
    twostate predicate Recorded(voteId: int, u: User, voteValue: Option<string>, users: map<int, User>, now: int)
      requires 1 <= voteId <= |old(votes)|
      reads this, trade
    {
      var choice := NormalizeChoice(voteValue);
      var cast := Upsert(old(ballots), voteId, u.id, NameOf(u), choice);
      var vote := old(votes)[voteId - 1];
      var status := Tally(cast, vote);
      ballots == cast
      && votes == old(votes)[voteId - 1 := vote.(status := status)]
      && (status == PASSED ==> OrderPlaced(old(trade.ledger), old(trade.orders), vote.(status := status), users, now))
      && (status != PASSED ==> trade.ledger == old(trade.ledger) && trade.orders == old(trade.orders))
    }

    /** The effect of `executeVoteOrder` on the trading tables, which were `l0` and `o0`:
        the team order of the vote, proposed by its proposer, placed as `placeOrderForTeam`
        would; nothing without a stock code. */
    predicate OrderPlaced(l0: Trade.Ledger, o0: seq<Trade.Order>, vote: Vote, users: map<int, User>, now: int)
      reads trade
    {
      var order := VoteOrderRequest(vote);
      (order.Some? ==>
         trade.TookFrom(l0, o0, Trade.PlaceOrderForTeamOutcome(l0, |o0| + 1, order.value, Some(vote.roomId),
                                                              if vote.proposerId in users then Some(users[vote.proposerId]) else None,
                                                              now)))
      && (order.None? ==> trade.ledger == l0 && trade.orders == o0)
    }

    /** The accepted path of `submitVote`: upsert the ballot, re-tally, store the status and,
        on a pass, place the team order. */
    method RecordBallot(voteId: int, u: User, voteValue: Option<string>, users: map<int, User>, now: int)
      returns (r: Result<SubmitReply>)
      requires Valid() && 1 <= voteId <= |votes|
      modifies this, trade
      ensures Valid()
      ensures r == Ok(SubmitReply(voteId, NormalizeChoice(voteValue))) && Recorded(voteId, u, voteValue, users, now)
    {
      var choice := NormalizeChoice(voteValue);
      var vote := Retally(voteId, u, choice);
      if vote.status == PASSED {
        ExecuteVoteOrder(vote, users, now);
      }
      r := Ok(SubmitReply(voteId, choice));
    }

    /** The table part of the accepted path: the ballot upserted and the new tally stored on
        the vote, which is returned. */
    method Retally(voteId: int, u: User, choice: string) returns (vote: Vote)
      requires Valid() && 1 <= voteId <= |votes|
      modifies this
      ensures Valid()
      ensures ballots == Upsert(old(ballots), voteId, u.id, NameOf(u), choice)
      ensures vote == old(votes)[voteId - 1].(status := Tally(ballots, old(votes)[voteId - 1]))
      ensures votes == old(votes)[voteId - 1 := vote]
    {
      UpsertRecords(ballots, voteId, u.id, NameOf(u), choice);
      ballots := Upsert(ballots, voteId, u.id, NameOf(u), choice);
      vote := votes[voteId - 1];
      vote := vote.(status := Tally(ballots, vote));
      votes := votes[voteId - 1 := vote];
    }

    /** `executeVoteOrder`: the team order of a passed vote; its failure is ignored. */
    method ExecuteVoteOrder(vote: Vote, users: map<int, User>, now: int)
      requires trade.Valid()
      modifies trade
      ensures trade.Valid()
      ensures OrderPlaced(old(trade.ledger), old(trade.orders), vote, users, now)
    {
      var order := VoteOrderRequest(vote);
      if order.None? {
        return;
      }
      var proposer := if vote.proposerId in users then Some(users[vote.proposerId]) else None;
      var _ := trade.PlaceOrderForTeam(order.value, Some(vote.roomId), proposer, now);
    }
  }
}
