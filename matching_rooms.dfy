/**
 * `MatchingRoomService`: rooms that users create, join and leave, each with a capacity of
 * three, started by anyone (which turns the room into the team "team-<id>" of its members)
 * and removable by an administrator. The three repositories are the room table, the
 * membership rows and the user table; each operation is a pure outcome on those tables,
 * and `MatchingRoomService` applies it. A failed operation changes nothing (the
 * transaction rolls back).
 */
module MatchingRooms {
  import opened Wrappers
  import opened JavaText
  import opened JavaNumbers
  import opened Domain
  import Trade

  const ROOM_ID_PREFIX: string := "room-"
  const DEFAULT_CAPACITY: int := 3
  const DEFAULT_ROOM_NAME: string := "새 매칭방"
  const WAITING: string := "waiting"
  const STARTED: string := "started"

  const BAD_ROOM_ID: string := "잘못된 방 ID입니다."
  const ROOM_ID_REQUIRED: string := "방 ID가 필요합니다."
  const ROOM_NOT_FOUND: string := "방을 찾을 수 없습니다."

  /** `toApiId`: "room-<id>", or null for a null id. */
  function ToApiId(id: Option<int>): (r: Option<string>)
    ensures id.Some? <==> r.Some?
    ensures r.Some? ==> StartsWith(r.value, ROOM_ID_PREFIX)
  {
    if id.Some? then Some(ROOM_ID_PREFIX + IntToString(id.value)) else None
  }

  /** `parseRoomId`: the number after "room-"; anything else is BAD_REQUEST. */
  function ParseRoomId(roomId: Option<string>): (r: Result<int>)
    ensures r.Err? ==> r == Err(Api(BadRequest, BAD_ROOM_ID))
    ensures roomId.None? || !StartsWith(roomId.value, ROOM_ID_PREFIX) ==> r.Err?
    ensures r.Ok? ==> InLong(r.value)
  {
    if roomId.None? || !StartsWith(roomId.value, ROOM_ID_PREFIX) then Err(Api(BadRequest, BAD_ROOM_ID))
    else
      var n := ParseLong(roomId.value[|ROOM_ID_PREFIX|..]);
      if n.None? then Err(Api(BadRequest, BAD_ROOM_ID)) else Ok(n.value)
  }

  /** The api id of a room reads back as the room's id. */
  lemma ParseRoomIdOfApiId(id: int)
    requires InLong(id)
    ensures ParseRoomId(ToApiId(Some(id))) == Ok(id)
  {
    var s := ROOM_ID_PREFIX + IntToString(id);
    assert s[..|ROOM_ID_PREFIX|] == ROOM_ID_PREFIX;
    assert s[|ROOM_ID_PREFIX|..] == IntToString(id);
    ParseLongOfToString(id);
  }

  /** `parseRoomIdFlexible`: a blank id is BAD_REQUEST; otherwise the trimmed id is read as
      "room-<n>" or as a bare number, and anything else is BAD_REQUEST. */
  function ParseRoomIdFlexible(roomId: Option<string>): (r: Result<int>)
    ensures NullOrBlank(roomId) ==> r == Err(Api(BadRequest, ROOM_ID_REQUIRED))
    ensures !NullOrBlank(roomId) && r.Err? ==> r == Err(Api(BadRequest, BAD_ROOM_ID))
  {
    if NullOrBlank(roomId) then Err(Api(BadRequest, ROOM_ID_REQUIRED))
    else
      var s := Trim(roomId.value);
      var n := if StartsWith(s, ROOM_ID_PREFIX) then ParseLong(s[|ROOM_ID_PREFIX|..]) else ParseLong(s);
      if n.None? then Err(Api(BadRequest, BAD_ROOM_ID)) else Ok(n.value)
  }

  /** The flexible reader accepts both the api id and the bare number of a room. */
  lemma ParseRoomIdFlexibleAccepts(id: int)
    requires InLong(id)
    ensures ParseRoomIdFlexible(ToApiId(Some(id))) == Ok(id)
    ensures ParseRoomIdFlexible(Some(IntToString(id))) == Ok(id)
  {
    FlexibleAcceptsApiId(id);
    FlexibleAcceptsNumber(id);
  }

  lemma FlexibleAcceptsApiId(id: int)
    requires InLong(id)
    ensures ParseRoomIdFlexible(Some(ROOM_ID_PREFIX + IntToString(id))) == Ok(id)
  {
    var bare := IntToString(id);
    var api := ROOM_ID_PREFIX + bare;
    IntToStringChars(id);
    assert api[|api| - 1] == bare[|bare| - 1];
    assert !IsWhitespace(api[0]);
    TrimNoop(api);
    assert StartsWith(api, ROOM_ID_PREFIX) && api[|ROOM_ID_PREFIX|..] == bare;
    ParseLongOfToString(id);
  }

  lemma FlexibleAcceptsNumber(id: int)
    requires InLong(id)
    ensures ParseRoomIdFlexible(Some(IntToString(id))) == Ok(id)
  {
    var bare := IntToString(id);
    IntToStringChars(id);
    assert !IsWhitespace(bare[0]);
    TrimNoop(bare);
    assert !StartsWith(bare, ROOM_ID_PREFIX) by {
      if |ROOM_ID_PREFIX| <= |bare| {
        assert bare[..|ROOM_ID_PREFIX|][0] == bare[0];
      }
    }
    ParseLongOfToString(id);
  }

  /** The three tables the service works on, and the next generated room id. */
  datatype RoomDb = RoomDb(
    rooms: map<int, MatchingRoom>,
    members: seq<MatchingRoomMember>,
    users: map<int, User>,
    nextRoomId: int)

  predicate IsMember(ms: seq<MatchingRoomMember>, roomId: int, userId: int) {
    exists m :: m in ms && m.roomId == roomId && m.userId == userId
  }

  predicate InAnyRoom(ms: seq<MatchingRoomMember>, userId: int) {
    exists m :: m in ms && m.userId == userId
  }

  /** `countByMatchingRoomId`. */
  function Count(ms: seq<MatchingRoomMember>, roomId: int): nat {
    if ms == [] then 0
    else Count(ms[..|ms| - 1], roomId) + (if ms[|ms| - 1].roomId == roomId then 1 else 0)
  }

  /** No (room, user) pair has two rows. */
  predicate NoDuplicates(ms: seq<MatchingRoomMember>) {
    ms == [] || (NoDuplicates(ms[..|ms| - 1])
                 && !IsMember(ms[..|ms| - 1], ms[|ms| - 1].roomId, ms[|ms| - 1].userId))
  }

  /** `deleteByMatchingRoomIdAndUserId`. */
  function Without(ms: seq<MatchingRoomMember>, roomId: int, userId: int): (r: seq<MatchingRoomMember>)
    ensures forall m :: m in r <==> m in ms && !(m.roomId == roomId && m.userId == userId)
  {
    if ms == [] then []
    else
      var last := ms[|ms| - 1];
      assert forall m :: m in ms <==> m in ms[..|ms| - 1] || m == last;
      Without(ms[..|ms| - 1], roomId, userId) + (if last.roomId == roomId && last.userId == userId then [] else [last])
  }

  /** `deleteByMatchingRoom_Id`. */
  function WithoutRoom(ms: seq<MatchingRoomMember>, roomId: int): (r: seq<MatchingRoomMember>)
    ensures forall m :: m in r <==> m in ms && m.roomId != roomId
  {
    if ms == [] then []
    else
      var last := ms[|ms| - 1];
      assert forall m :: m in ms <==> m in ms[..|ms| - 1] || m == last;
      WithoutRoom(ms[..|ms| - 1], roomId) + (if last.roomId == roomId then [] else [last])
  }

  /** `findByMatchingRoomIdWithUser`: the room's rows. */
  function RoomRows(ms: seq<MatchingRoomMember>, roomId: int): (r: seq<MatchingRoomMember>)
    ensures forall m :: m in r <==> m in ms && m.roomId == roomId
  {
    if ms == [] then []
    else
      var last := ms[|ms| - 1];
      assert forall m :: m in ms <==> m in ms[..|ms| - 1] || m == last;
      RoomRows(ms[..|ms| - 1], roomId) + (if last.roomId == roomId then [last] else [])
  }

  /** Every room is filed under its id, below the next id, with a member count equal to its
      rows and no more rows than its capacity; every row belongs to a room; no pair twice. */
  predicate ValidDb(db: RoomDb) {
    (forall k :: k in db.rooms ==>
       db.rooms[k].id == k && k < db.nextRoomId
       && db.rooms[k].memberCount == Count(db.members, k)
       && Count(db.members, k) <= db.rooms[k].capacity)
    && (forall m :: m in db.members ==> m.roomId in db.rooms)
    && NoDuplicates(db.members)
  }

  lemma CountAppend(ms: seq<MatchingRoomMember>, m: MatchingRoomMember, roomId: int)
    ensures Count(ms + [m], roomId) == Count(ms, roomId) + (if m.roomId == roomId then 1 else 0)
  {
    assert (ms + [m])[..|ms|] == ms;
  }

  lemma {:induction false} CountNone(ms: seq<MatchingRoomMember>, roomId: int)
    requires forall m :: m in ms ==> m.roomId != roomId
    ensures Count(ms, roomId) == 0
  {
    if ms != [] {
      assert forall m :: m in ms[..|ms| - 1] ==> m in ms;
      assert ms[|ms| - 1] in ms;
      CountNone(ms[..|ms| - 1], roomId);
    }
  }

  lemma {:induction false} CountWithout(ms: seq<MatchingRoomMember>, roomId: int, userId: int, x: int)
    ensures Count(Without(ms, roomId, userId), x) <= Count(ms, x)
    ensures x != roomId ==> Count(Without(ms, roomId, userId), x) == Count(ms, x)
  {
    if ms != [] {
      var last := ms[|ms| - 1];
      var w := Without(ms[..|ms| - 1], roomId, userId);
      CountWithout(ms[..|ms| - 1], roomId, userId, x);
      if !(last.roomId == roomId && last.userId == userId) {
        CountAppend(w, last, x);
      } else {
        assert w + [] == w;
      }
    }
  }

  lemma {:induction false} CountWithoutRoom(ms: seq<MatchingRoomMember>, roomId: int, x: int)
    ensures x != roomId ==> Count(WithoutRoom(ms, roomId), x) == Count(ms, x)
  {
    if ms != [] {
      var last := ms[|ms| - 1];
      var w := WithoutRoom(ms[..|ms| - 1], roomId);
      CountWithoutRoom(ms[..|ms| - 1], roomId, x);
      if last.roomId != roomId {
        CountAppend(w, last, x);
      } else {
        assert w + [] == w;
      }
    }
  }

  /** A removed pair has no row left, and nothing else was removed. */
  lemma WithoutSpec(ms: seq<MatchingRoomMember>, roomId: int, userId: int)
    ensures !IsMember(Without(ms, roomId, userId), roomId, userId)
    ensures forall r, u :: !(r == roomId && u == userId) ==>
      (IsMember(Without(ms, roomId, userId), r, u) <==> IsMember(ms, r, u))
  {
  }

  lemma {:induction false} NoDuplicatesWithout(ms: seq<MatchingRoomMember>, roomId: int, userId: int)
    requires NoDuplicates(ms)
    ensures NoDuplicates(Without(ms, roomId, userId))
  {
    if ms != [] {
      var last := ms[|ms| - 1];
      var w := Without(ms[..|ms| - 1], roomId, userId);
      NoDuplicatesWithout(ms[..|ms| - 1], roomId, userId);
      if !(last.roomId == roomId && last.userId == userId) {
        assert (w + [last])[..|w|] == w;
        assert !IsMember(w, last.roomId, last.userId);
      } else {
        assert w + [] == w;
      }
    }
  }

  lemma {:induction false} NoDuplicatesWithoutRoom(ms: seq<MatchingRoomMember>, roomId: int)
    requires NoDuplicates(ms)
    ensures NoDuplicates(WithoutRoom(ms, roomId))
  {
    if ms != [] {
      var last := ms[|ms| - 1];
      var w := WithoutRoom(ms[..|ms| - 1], roomId);
      NoDuplicatesWithoutRoom(ms[..|ms| - 1], roomId);
      if last.roomId != roomId {
        assert (w + [last])[..|w|] == w;
        assert !IsMember(w, last.roomId, last.userId);
      } else {
        assert w + [] == w;
      }
    }
  }

  /** No duplicates means no two rows of the same pair, at any two positions. */
  lemma {:induction false} NoDuplicatesPairwise(ms: seq<MatchingRoomMember>)
    requires NoDuplicates(ms)
    ensures forall i, j :: 0 <= i < j < |ms| ==> ms[i].roomId != ms[j].roomId || ms[i].userId != ms[j].userId
  {
    if ms != [] {
      var p := ms[..|ms| - 1];
      NoDuplicatesPairwise(p);
      forall i, j | 0 <= i < j < |ms|
        ensures ms[i].roomId != ms[j].roomId || ms[i].userId != ms[j].userId
      {
        if j == |ms| - 1 {
          assert ms[i] == p[i] && p[i] in p;
        } else {
          assert ms[i] == p[i] && ms[j] == p[j];
        }
      }
    }
  }

  /** `MatchingRoom.create(name)`: a blank or missing name becomes the default. */
  function NewRoom(id: int, name: Option<string>, now: int): MatchingRoom {
    MatchingRoom(id, Some(if !NullOrBlank(name) then name.value else DEFAULT_ROOM_NAME),
                 DEFAULT_CAPACITY, 0, WAITING, now)
  }

  const ALREADY_IN_ROOM: string := "이미 참가 중인 방이 있습니다. 새 방을 만들려면 먼저 방을 나가세요."

  /** `create`: refused when the creator already has a membership; otherwise a new waiting
      room, joined by the creator when there is one. */
  function CreateOutcome(db: RoomDb, name: Option<string>, creator: Option<User>, now: int)
    : Result<(RoomDb, MatchingRoom)>
  {
    if creator.Some? && InAnyRoom(db.members, creator.value.id) then Err(Api(BadRequest, ALREADY_IN_ROOM))
    else
      var id := db.nextRoomId;
      var room := NewRoom(id, name, now);
      if creator.Some? then
        var ms := db.members + [MatchingRoomMember(id, creator.value.id, now)];
        var saved := room.(memberCount := Count(ms, id));
        Ok((db.(rooms := db.rooms[id := saved], members := ms, nextRoomId := id + 1), saved))
      else
        Ok((db.(rooms := db.rooms[id := room], nextRoomId := id + 1), room))
  }

  /** A creator with a room is refused; otherwise the new room waits with capacity 3 and
      has the creator as its only member (or no member), and the tables stay valid. */
  lemma CreateSpec(db: RoomDb, name: Option<string>, creator: Option<User>, now: int)
    requires ValidDb(db)
    ensures var r := CreateOutcome(db, name, creator, now);
      (r.Err? <==> creator.Some? && InAnyRoom(db.members, creator.value.id))
      && (r.Err? ==> FailsWith(r, BadRequest))
      && (r.Ok? ==>
            var db2 := r.value.0; var room := r.value.1;
            ValidDb(db2) && room.id == db.nextRoomId && room.id !in db.rooms && db2.rooms[room.id] == room
            && room.status == WAITING && room.capacity == DEFAULT_CAPACITY
            && room.memberCount == (if creator.Some? then 1 else 0)
            && (forall u :: IsMember(db2.members, room.id, u) <==> creator.Some? && u == creator.value.id)
            && db2.users == db.users)
  {
    if !(creator.Some? && InAnyRoom(db.members, creator.value.id)) {
      CreateStep(db, name, creator, now);
      var id := db.nextRoomId;
      assert forall m :: m in db.members ==> m.roomId != id;
      CountNone(db.members, id);
      if creator.Some? {
        CountAppend(db.members, MatchingRoomMember(id, creator.value.id, now), id);
      }
    }
  }

  /** The tables a create that passes the check leaves, written as the service builds them:
      the saved room, the new member row when there is a creator, and the next id. They
      are valid. */
  lemma CreateStep(db: RoomDb, name: Option<string>, creator: Option<User>, now: int)
    requires ValidDb(db) && !(creator.Some? && InAnyRoom(db.members, creator.value.id))
    ensures var room := NewRoom(db.nextRoomId, name, now);
      var ms := if creator.Some? then db.members + [MatchingRoomMember(room.id, creator.value.id, now)] else db.members;
      var saved := if creator.Some? then room.(memberCount := Count(ms, room.id)) else room;
      var db2 := RoomDb(db.rooms[room.id := saved], ms, db.users, db.nextRoomId + 1);
      CreateOutcome(db, name, creator, now) == Ok((db2, saved)) && ValidDb(db2)
  {
    var id := db.nextRoomId;
    assert forall m :: m in db.members ==> m.roomId != id;
    CountNone(db.members, id);
    if creator.Some? {
      var m := MatchingRoomMember(id, creator.value.id, now);
      var ms := db.members + [m];
      forall k | k in db.rooms
        ensures Count(ms, k) == Count(db.members, k)
      {
        CountAppend(db.members, m, k);
      }
      CountAppend(db.members, m, id);
      assert ms[..|ms| - 1] == db.members;
      assert !IsMember(db.members, id, creator.value.id);
    }
  }

  /** What a successful `join` answers: the room's api id and its new member count. */
  datatype JoinReply = JoinReply(id: string, memberCount: int)

  /** `findRoomByApiId` and `findRoomByApiIdFlexible` after the id is read. */
  function FindRoom(db: RoomDb, id: Result<int>): (r: Result<MatchingRoom>)
    ensures r.Ok? ==> id.Ok? && id.value in db.rooms && r.value == db.rooms[id.value]
  {
    if id.Err? then Err(id.error)
    else if id.value !in db.rooms then Err(Api(NotFound, ROOM_NOT_FOUND))
    else Ok(db.rooms[id.value])
  }

  const ALREADY_JOINED: string := "이미 참가 중인 방입니다."
  const ROOM_FULL: string := "방이 가득 찼습니다."

  /** `join`: refused for a member and for a full room; otherwise one more member. */
  function JoinOutcome(db: RoomDb, roomId: Option<string>, user: User, now: int): Result<(RoomDb, JoinReply)> {
    var found := FindRoom(db, ParseRoomId(roomId));
    if found.Err? then Err(found.error)
    else
      var room := found.value;
      if IsMember(db.members, room.id, user.id) then Err(Api(BadRequest, ALREADY_JOINED))
      else if Count(db.members, room.id) >= room.capacity then Err(Api(BadRequest, ROOM_FULL))
      else
        var ms := db.members + [MatchingRoomMember(room.id, user.id, now)];
        var saved := room.(memberCount := Count(ms, room.id));
        Ok((db.(rooms := db.rooms[room.id := saved], members := ms),
            JoinReply(ROOM_ID_PREFIX + IntToString(room.id), saved.memberCount)))
  }

  /** Joining a room one is in, or a full one, is refused; otherwise the user becomes a
      member, the count grows by one and stays within capacity, and the tables stay valid. */
  lemma JoinSpec(db: RoomDb, roomId: Option<string>, user: User, now: int)
    requires ValidDb(db)
    ensures var r := JoinOutcome(db, roomId, user, now); var id := ParseRoomId(roomId);
      (id.Err? ==> r == Err(id.error))
      && (id.Ok? && id.value !in db.rooms ==> r == Err(Api(NotFound, ROOM_NOT_FOUND)))
      && (id.Ok? && id.value in db.rooms && IsMember(db.members, id.value, user.id) ==> r == Err(Api(BadRequest, ALREADY_JOINED)))
      && ((id.Ok? && id.value in db.rooms && !IsMember(db.members, id.value, user.id)
           && Count(db.members, id.value) >= db.rooms[id.value].capacity) ==> r == Err(Api(BadRequest, ROOM_FULL)))
      && (r.Ok? ==>
            var db2 := r.value.0;
            ValidDb(db2) && IsMember(db2.members, id.value, user.id)
            && Count(db2.members, id.value) == Count(db.members, id.value) + 1 <= db.rooms[id.value].capacity
            && r.value.1 == JoinReply(ToApiId(Some(id.value)).value, Count(db2.members, id.value))
            && db2.users == db.users && db2.rooms.Keys == db.rooms.Keys)
  {
    var id := ParseRoomId(roomId);
    if id.Ok? && id.value in db.rooms && !IsMember(db.members, id.value, user.id)
       && Count(db.members, id.value) < db.rooms[id.value].capacity {
      JoinStep(db, db.rooms[id.value], user, now);
    }
  }

  /** A join that passes the checks appends the row and stores the new count; the tables
      stay valid and every other room keeps its count. */
  lemma JoinStep(db: RoomDb, room: MatchingRoom, user: User, now: int)
    requires ValidDb(db) && room.id in db.rooms && db.rooms[room.id] == room
    requires !IsMember(db.members, room.id, user.id) && Count(db.members, room.id) < room.capacity
    ensures var m := MatchingRoomMember(room.id, user.id, now);
      var db2 := db.(rooms := db.rooms[room.id := room.(memberCount := Count(db.members + [m], room.id))],
                     members := db.members + [m]);
      ValidDb(db2) && m in db2.members
      && forall k :: Count(db2.members, k) == Count(db.members, k) + (if k == room.id then 1 else 0)
  {
    var m := MatchingRoomMember(room.id, user.id, now);
    var ms := db.members + [m];
    forall k
      ensures Count(ms, k) == Count(db.members, k) + (if k == room.id then 1 else 0)
    {
      CountAppend(db.members, m, k);
    }
    assert ms[..|ms| - 1] == db.members;
    assert NoDuplicates(ms);
    var saved := room.(memberCount := Count(ms, room.id));
    var db2 := db.(rooms := db.rooms[room.id := saved], members := ms);
    assert forall x :: x in ms ==> x.roomId in db2.rooms by {
      assert forall x :: x in ms ==> x in db.members || x == m;
    }
    forall k | k in db2.rooms
      ensures db2.rooms[k].memberCount == Count(ms, k) && Count(ms, k) <= db2.rooms[k].capacity
    {
    }
  }

  const NOT_A_MEMBER: string := "참가 중인 방이 아닙니다."

  /** Removes the pair's row, stores the new count and deletes the room once it is empty. */
  function RemoveFromRoom(db: RoomDb, room: MatchingRoom, userId: int): RoomDb {
    var ms := Without(db.members, room.id, userId);
    var newCount := Count(ms, room.id);
    var saved := room.(memberCount := newCount);
    db.(members := ms, rooms := if newCount == 0 then db.rooms - {room.id} else db.rooms[room.id := saved])
  }

  lemma RemoveFromRoomSpec(db: RoomDb, room: MatchingRoom, userId: int)
    requires ValidDb(db) && room.id in db.rooms && db.rooms[room.id] == room
    ensures var db2 := RemoveFromRoom(db, room, userId);
      ValidDb(db2) && !IsMember(db2.members, room.id, userId)
      && (forall r, u :: !(r == room.id && u == userId) ==> (IsMember(db2.members, r, u) <==> IsMember(db.members, r, u)))
      && (room.id !in db2.rooms <==> Count(db2.members, room.id) == 0)
      && (forall k :: k in db.rooms && k != room.id ==> k in db2.rooms && db2.rooms[k] == db.rooms[k])
      && db2.rooms.Keys <= db.rooms.Keys
  {
    var db2 := RemoveFromRoom(db, room, userId);
    WithoutSpec(db.members, room.id, userId);
    NoDuplicatesWithout(db.members, room.id, userId);
    forall k | k in db.rooms
      ensures Count(db2.members, k) <= Count(db.members, k)
      ensures k != room.id ==> Count(db2.members, k) == Count(db.members, k)
    {
      CountWithout(db.members, room.id, userId, k);
    }
    if Count(db2.members, room.id) == 0 {
      forall m | m in db2.members
        ensures m.roomId in db2.rooms
      {
        if m.roomId == room.id {
          assert m in RoomRows(db2.members, room.id);
          RoomRowsCount(db2.members, room.id);
        }
      }
    }
  }

  /** A room with rows has a positive count. */
  lemma {:induction false} RoomRowsCount(ms: seq<MatchingRoomMember>, roomId: int)
    ensures |RoomRows(ms, roomId)| == Count(ms, roomId)
  {
    if ms != [] {
      RoomRowsCount(ms[..|ms| - 1], roomId);
    }
  }

  /** `leave`: refused for a non-member; otherwise the row goes, the user loses its team,
      and the room is deleted once empty. */
  function LeaveOutcome(db: RoomDb, roomId: Option<string>, user: User): Result<RoomDb> {
    var found := FindRoom(db, ParseRoomId(roomId));
    if found.Err? then Err(found.error)
    else
      var room := found.value;
      if !IsMember(db.members, room.id, user.id) then Err(Api(BadRequest, NOT_A_MEMBER))
      else
        var db1 := db.(users := db.users[user.id := user.(teamId := None)]);
        Ok(RemoveFromRoom(db1, room, user.id))
  }

  /** Only a member can leave; afterwards it is no member, its saved team id is cleared,
      the room is gone exactly when nobody is left, and the tables stay valid. */
  lemma LeaveSpec(db: RoomDb, roomId: Option<string>, user: User)
    requires ValidDb(db)
    ensures var r := LeaveOutcome(db, roomId, user); var id := ParseRoomId(roomId);
      (id.Err? ==> r == Err(id.error))
      && (id.Ok? && id.value !in db.rooms ==> r == Err(Api(NotFound, ROOM_NOT_FOUND)))
      && (id.Ok? && id.value in db.rooms && !IsMember(db.members, id.value, user.id) ==> r == Err(Api(BadRequest, NOT_A_MEMBER)))
      && (r.Ok? ==>
            var db2 := r.value;
            ValidDb(db2) && !IsMember(db2.members, id.value, user.id)
            && user.id in db2.users && db2.users[user.id].teamId.None?
            && (id.value !in db2.rooms <==> Count(db2.members, id.value) == 0))
  {
    var r := LeaveOutcome(db, roomId, user);
    if r.Ok? {
      var room := FindRoom(db, ParseRoomId(roomId)).value;
      RemoveFromRoomSpec(db.(users := db.users[user.id := user.(teamId := None)]), room, user.id);
    }
  }

  const NOT_A_TEAM_MEMBER: string := "해당 팀에 속한 멤버가 아닙니다."

  /** `removeMemberByAdmin`: NOT_FOUND for a non-member (a null user id is never one);
      otherwise the row goes and an emptied room is deleted. The user's team id stays. */
  function RemoveMemberOutcome(db: RoomDb, roomId: Option<string>, userId: Option<int>): Result<RoomDb> {
    var found := FindRoom(db, ParseRoomIdFlexible(roomId));
    if found.Err? then Err(found.error)
    else
      var room := found.value;
      if userId.None? || !IsMember(db.members, room.id, userId.value) then Err(Api(NotFound, NOT_A_TEAM_MEMBER))
      else Ok(RemoveFromRoom(db, room, userId.value))
  }

  lemma RemoveMemberSpec(db: RoomDb, roomId: Option<string>, userId: Option<int>)
    requires ValidDb(db)
    ensures var r := RemoveMemberOutcome(db, roomId, userId); var id := ParseRoomIdFlexible(roomId);
      (id.Err? ==> r == Err(id.error))
      && (id.Ok? && id.value in db.rooms && (userId.None? || !IsMember(db.members, id.value, userId.value))
          ==> r == Err(Api(NotFound, NOT_A_TEAM_MEMBER)))
      && (r.Ok? ==>
            var db2 := r.value;
            ValidDb(db2) && !IsMember(db2.members, id.value, userId.value) && db2.users == db.users
            && (id.value !in db2.rooms <==> Count(db2.members, id.value) == 0))
  {
    var r := RemoveMemberOutcome(db, roomId, userId);
    if r.Ok? {
      RemoveFromRoomSpec(db, FindRoom(db, ParseRoomIdFlexible(roomId)).value, userId.value);
    }
  }

  /** `deleteRoomByAdmin`: the room's rows, then the room. */
  function DeleteRoomOutcome(db: RoomDb, roomId: Option<string>): Result<RoomDb> {
    var found := FindRoom(db, ParseRoomIdFlexible(roomId));
    if found.Err? then Err(found.error)
    else Ok(db.(members := WithoutRoom(db.members, found.value.id), rooms := db.rooms - {found.value.id}))
  }

  lemma DeleteRoomSpec(db: RoomDb, roomId: Option<string>)
    requires ValidDb(db)
    ensures var r := DeleteRoomOutcome(db, roomId); var id := ParseRoomIdFlexible(roomId);
      (r.Err? <==> id.Err? || id.value !in db.rooms)
      && (r.Ok? ==>
            var db2 := r.value;
            ValidDb(db2) && id.value !in db2.rooms && db2.rooms.Keys == db.rooms.Keys - {id.value}
            && (forall u :: !IsMember(db2.members, id.value, u)) && db2.users == db.users
            && (forall k :: k in db2.rooms ==> db2.rooms[k] == db.rooms[k])
            && (forall k, u :: k != id.value ==> (IsMember(db2.members, k, u) <==> IsMember(db.members, k, u))))
  {
    var r := DeleteRoomOutcome(db, roomId);
    if r.Ok? {
      var id := r.value;
      var roomIdValue := ParseRoomIdFlexible(roomId).value;
      NoDuplicatesWithoutRoom(db.members, roomIdValue);
      forall k | k in db.rooms && k != roomIdValue
        ensures Count(r.value.members, k) == Count(db.members, k)
      {
        CountWithoutRoom(db.members, roomIdValue, k);
      }
    }
  }

  /** The users after `start`: every listed member still in the user table gets the team. */
  function AssignTeam(users: map<int, User>, rows: seq<MatchingRoomMember>, teamId: string): map<int, User> {
    if rows == [] then users
    else
      var u := AssignTeam(users, rows[..|rows| - 1], teamId);
      var id := rows[|rows| - 1].userId;
      if id in u then u[id := u[id].(teamId := Some(teamId))] else u
  }

  predicate Listed(rows: seq<MatchingRoomMember>, userId: int) {
    exists k :: 0 <= k < |rows| && rows[k].userId == userId
  }

  /** Exactly the listed users get the team id; nobody is added or dropped. */
  lemma {:induction false} AssignTeamSpec(users: map<int, User>, rows: seq<MatchingRoomMember>, teamId: string)
    ensures var r := AssignTeam(users, rows, teamId);
      r.Keys == users.Keys
      && forall id :: id in users ==> r[id] == (if Listed(rows, id) then users[id].(teamId := Some(teamId)) else users[id])
  {
    if rows != [] {
      var p := rows[..|rows| - 1];
      AssignTeamSpec(users, p, teamId);
      forall id | id in users
        ensures Listed(rows, id) <==> Listed(p, id) || rows[|rows| - 1].userId == id
      {
        if Listed(rows, id) {
          var k :| 0 <= k < |rows| && rows[k].userId == id;
          if k < |rows| - 1 {
            assert p[k] == rows[k];
          }
        }
        if Listed(p, id) {
          var k :| 0 <= k < |p| && p[k].userId == id;
          assert rows[k] == p[k];
        }
      }
    }
  }

  /** `start`: the room's status becomes "started" and every member's team id "team-<id>". */
  function StartOutcome(db: RoomDb, roomId: Option<string>): Result<(RoomDb, string)> {
    var found := FindRoom(db, ParseRoomId(roomId));
    if found.Err? then Err(found.error)
    else
      var room := found.value;
      var teamId := Trade.TEAM_PREFIX + IntToString(room.id);
      Ok((db.(rooms := db.rooms[room.id := room.(status := STARTED)],
              users := AssignTeam(db.users, RoomRows(db.members, room.id), teamId)), teamId))
  }

  /** A started room is "started", every member of it in the user table has the team id
      that names the room (so the trading rules read it back as that room), nobody else's
      team changes, and the tables stay valid. */
  lemma StartSpec(db: RoomDb, roomId: Option<string>)
    requires ValidDb(db)
    ensures var r := StartOutcome(db, roomId); var id := ParseRoomId(roomId);
      (r.Err? <==> id.Err? || id.value !in db.rooms)
      && (r.Ok? ==>
            var db2 := r.value.0;
            ValidDb(db2) && db2.rooms[id.value].status == STARTED && db2.members == db.members
            && r.value.1 == Trade.TEAM_PREFIX + IntToString(id.value)
            && Trade.ParseTeamId(Some(r.value.1)) == Some(id.value)
            && db2.users.Keys == db.users.Keys
            && (forall u :: u in db.users ==>
                  db2.users[u] == (if IsMember(db.members, id.value, u)
                                   then db.users[u].(teamId := Some(r.value.1)) else db.users[u])))
  {
    var r := StartOutcome(db, roomId);
    if r.Ok? {
      var id := ParseRoomId(roomId).value;
      var rows := RoomRows(db.members, id);
      AssignTeamSpec(db.users, rows, r.value.1);
      forall u | u in db.users
        ensures Listed(rows, u) <==> IsMember(db.members, id, u)
      {
        if IsMember(db.members, id, u) {
          var m :| m in db.members && m.roomId == id && m.userId == u;
          assert m in rows;
          var k :| 0 <= k < |rows| && rows[k] == m;
        }
        if Listed(rows, u) {
          var k :| 0 <= k < |rows| && rows[k].userId == u;
          assert rows[k] in rows;
        }
      }
      Trade.ParseTeamIdOfTeam(id);
    }
  }

  /** The service with its three tables and the room id generator. */
  class MatchingRoomService {
    var rooms: map<int, MatchingRoom>
    var members: seq<MatchingRoomMember>
    var users: map<int, User>
    var nextRoomId: int

    function Db(): RoomDb
      reads this
    {
      RoomDb(rooms, members, users, nextRoomId)
    }

    predicate Valid()
      reads this
    {
      ValidDb(Db())
    }

    constructor (users: map<int, User>)
      ensures Valid() && rooms == map[] && members == [] && this.users == users && nextRoomId == 1
    {
      rooms := map[];
      members := [];
      this.users := users;
      nextRoomId := 1;
    }

    /** `create`. */
    method Create(name: Option<string>, creator: Option<User>, now: int) returns (r: Result<MatchingRoom>)
      requires Valid()
      modifies this
      ensures Valid()
      ensures var out := CreateOutcome(old(Db()), name, creator, now);
        (out.Ok? ==> Db() == out.value.0 && r == Ok(out.value.1))
        && (out.Err? ==> Db() == old(Db()) && r == Err(out.error))
    {
      if creator.Some? && InAnyRoom(members, creator.value.id) {
        return Err(Api(BadRequest, ALREADY_IN_ROOM));
      }
      CreateStep(Db(), name, creator, now);
      var room := NewRoom(nextRoomId, name, now);
      var newRooms := rooms[room.id := room];
      var newMembers := members;
      if creator.Some? {
        newMembers := members + [MatchingRoomMember(room.id, creator.value.id, now)];
        room := room.(memberCount := Count(newMembers, room.id));
        newRooms := rooms[room.id := room];
      }
      rooms, members, nextRoomId := newRooms, newMembers, nextRoomId + 1;
      r := Ok(room);
    }

    /** `join`. */
    method Join(roomId: Option<string>, user: User, now: int) returns (r: Result<JoinReply>)
      requires Valid()
      modifies this
      ensures Valid()
      ensures var out := JoinOutcome(old(Db()), roomId, user, now);
        (out.Ok? ==> Db() == out.value.0 && r == Ok(out.value.1))
        && (out.Err? ==> Db() == old(Db()) && r == Err(out.error))
    {
      ghost var db := Db();
      ghost var out := JoinOutcome(db, roomId, user, now);
      JoinSpec(db, roomId, user, now);
      var found := FindRoom(Db(), ParseRoomId(roomId));
      if found.Err? {
        return Err(found.error);
      }
      var room := found.value;
      if IsMember(members, room.id, user.id) {
        return Err(Api(BadRequest, ALREADY_JOINED));
      }
      var currentCount := Count(members, room.id);
      if currentCount >= room.capacity {
        return Err(Api(BadRequest, ROOM_FULL));
      }
      members := members + [MatchingRoomMember(room.id, user.id, now)];
      room := room.(memberCount := Count(members, room.id));
      rooms := rooms[room.id := room];
      assert out.Ok? && Db() == out.value.0;
      r := Ok(JoinReply(ToApiId(Some(room.id)).value, room.memberCount));
    }

    /** The shared tail of `leave` and `removeMemberByAdmin`. */
    method RemoveRow(room: MatchingRoom, userId: int)
      requires Valid() && room.id in rooms && rooms[room.id] == room
      modifies this
      ensures Db() == RemoveFromRoom(old(Db()), room, userId)
    {
      members := Without(members, room.id, userId);
      var newCount := Count(members, room.id);
      var saved := room.(memberCount := newCount);
      rooms := rooms[room.id := saved];
      if newCount == 0 {
        rooms := rooms - {room.id};
      }
    }

    /** `leave`. */
    method Leave(roomId: Option<string>, user: User) returns (r: Result<()>)
      requires Valid()
      modifies this
      ensures Valid()
      ensures var out := LeaveOutcome(old(Db()), roomId, user);
        (out.Ok? ==> Db() == out.value && r == Ok(()))
        && (out.Err? ==> Db() == old(Db()) && r == Err(out.error))
    {
      LeaveSpec(Db(), roomId, user);
      var found := FindRoom(Db(), ParseRoomId(roomId));
      if found.Err? {
        return Err(found.error);
      }
      var room := found.value;
      if !IsMember(members, room.id, user.id) {
        return Err(Api(BadRequest, NOT_A_MEMBER));
      }
      users := users[user.id := user.(teamId := None)];
      RemoveRow(room, user.id);
      r := Ok(());
    }

    /** `start`: the status, then the team id of each member, one row at a time. */
    method Start(roomId: Option<string>) returns (r: Result<string>)
      requires Valid()
      modifies this
      ensures Valid()
      ensures var out := StartOutcome(old(Db()), roomId);
        (out.Ok? ==> Db() == out.value.0 && r == Ok(out.value.1))
        && (out.Err? ==> Db() == old(Db()) && r == Err(out.error))
    {
      StartSpec(Db(), roomId);
      var found := FindRoom(Db(), ParseRoomId(roomId));
      if found.Err? {
        return Err(found.error);
      }
      var room := found.value;
      rooms := rooms[room.id := room.(status := STARTED)];
      var teamIdStr := Trade.TEAM_PREFIX + IntToString(room.id);
      AssignTeamToRows(RoomRows(members, room.id), teamIdStr);
      r := Ok(teamIdStr);
    }

    /** The member loop of `start`: `setTeamId` and `save` for each row whose user exists. */
    method AssignTeamToRows(rows: seq<MatchingRoomMember>, teamIdStr: string)
      modifies this
      ensures users == AssignTeam(old(users), rows, teamIdStr)
      ensures rooms == old(rooms) && members == old(members) && nextRoomId == old(nextRoomId)
    {
      var i := 0;
      while i < |rows|
        invariant 0 <= i <= |rows|
        invariant users == AssignTeam(old(users), rows[..i], teamIdStr)
        invariant rooms == old(rooms) && members == old(members) && nextRoomId == old(nextRoomId)
      {
        var uid := rows[i].userId;
        assert rows[..i + 1][..i] == rows[..i];
        if uid in users {
          users := users[uid := users[uid].(teamId := Some(teamIdStr))];
        }
        i := i + 1;
      }
      assert rows[..|rows|] == rows;
    }

    /** `removeMemberByAdmin`. */
    method RemoveMemberByAdmin(roomId: Option<string>, userId: Option<int>) returns (r: Result<()>)
      requires Valid()
      modifies this
      ensures Valid()
      ensures var out := RemoveMemberOutcome(old(Db()), roomId, userId);
        (out.Ok? ==> Db() == out.value && r == Ok(()))
        && (out.Err? ==> Db() == old(Db()) && r == Err(out.error))
    {
      RemoveMemberSpec(Db(), roomId, userId);
      var found := FindRoom(Db(), ParseRoomIdFlexible(roomId));
      if found.Err? {
        return Err(found.error);
      }
      var room := found.value;
      if userId.None? || !IsMember(members, room.id, userId.value) {
        return Err(Api(NotFound, NOT_A_TEAM_MEMBER));
      }
      RemoveRow(room, userId.value);
      r := Ok(());
    }

    /** `deleteRoomByAdmin`. */
    method DeleteRoomByAdmin(roomId: Option<string>) returns (r: Result<()>)
      requires Valid()
      modifies this
      ensures Valid()
      ensures var out := DeleteRoomOutcome(old(Db()), roomId);
        (out.Ok? ==> Db() == out.value && r == Ok(()))
        && (out.Err? ==> Db() == old(Db()) && r == Err(out.error))
    {
      DeleteRoomSpec(Db(), roomId);
      var found := FindRoom(Db(), ParseRoomIdFlexible(roomId));
      if found.Err? {
        return Err(found.error);
      }
      members := WithoutRoom(members, found.value.id);
      rooms := rooms - {found.value.id};
      r := Ok(());
    }
  }
}
