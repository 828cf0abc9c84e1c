/**
 * `ChatWebSocketHandler`: group chat over WebSocket at `/groups/{groupId}/chat?token=…`.
 * A connection is kept only for an authenticated member of the room the group id names;
 * every text message goes to all open sessions of the group, as the saved chat row in JSON
 * when the payload names a user, and as it came otherwise.
 */
module Chat {
  import opened Wrappers
  import opened JavaText
  import opened JavaNumbers
  import opened Domain
  import MatchingRooms
  import KisWs

  const GROUPS: string := "groups"
  const CHAT: string := "chat"
  const TOKEN_KEY: string := "token"
  const BEARER: string := "Bearer "
  const USER_MESSAGE_TYPE: string := "user"

  // ---------------------------------------------------------------- group id

  /** The path with one leading '/' removed. */
  function StripSlash(path: string): string {
    if StartsWith(path, "/") then path[1..] else path
  }

  function ChatPrefix(id: string): string {
    GROUPS + ['/'] + id + ['/'] + CHAT
  }

  /** `p` is `groups/<id>/chat`, possibly followed by more segments. */
  predicate ChatPath(p: string, id: string) {
    var head := ChatPrefix(id);
    StartsWith(p, head) && (|p| == |head| || p[|head|] == '/')
  }

  /** `extractGroupId` on `uri.getPath()` (None when the URI or its path is null): the second
      segment of a `groups/<id>/chat` path, when it is not blank. */
  function ExtractGroupId(path: Option<string>): (r: Option<string>)
    ensures r.Some? ==> !IsBlank(r.value) && '/' !in r.value
  {
    if path.None? then None
    else
      var segments := Split(StripSlash(path.value), '/');
      if |segments| >= 3 && segments[0] == GROUPS && segments[2] == CHAT && !IsBlank(segments[1]) then
        SplitFieldsAvoid(StripSlash(path.value), '/');
        Some(segments[1])
      else None
  }

  lemma SplitFieldsAvoid(s: string, c: char)
    ensures forall k :: 0 <= k < |Split(s, c)| ==> c !in Split(s, c)[k]
  {
  }

  /** The first field of "chat" followed by nothing or by '/'. */
  lemma SplitChatTail(tail: string)
    requires tail == [] || tail[0] == '/'
    ensures SplitAll(CHAT + tail, '/')[0] == CHAT
  {
    if tail == [] {
      assert IndexOf(CHAT + tail, '/') == |CHAT|;
    } else {
      assert CHAT + tail == CHAT + ['/'] + tail[1..];
      SplitAllCons(CHAT, '/', tail[1..]);
    }
  }

  /** The fields of a path that starts with `groups/<id>/chat`. */
  lemma SplitChatPath(id: string, tail: string)
    requires '/' !in id && (tail == [] || tail[0] == '/')
    ensures var parts := SplitAll(ChatPrefix(id) + tail, '/');
      |parts| >= 3 && parts[0] == GROUPS && parts[1] == id && parts[2] == CHAT
  {
    var chatPart := CHAT + tail;
    var idPart := id + ['/'] + chatPart;
    var p := ChatPrefix(id) + tail;
    assert p == GROUPS + ['/'] + idPart by {
      assert ChatPrefix(id) + tail == (GROUPS + ['/'] + id + ['/'] + CHAT) + tail;
    }
    SplitAllCons(GROUPS, '/', idPart);
    var rest := SplitAll(idPart, '/');
    assert SplitAll(p, '/') == [GROUPS] + rest;
    SplitAllCons(id, '/', chatPart);
    assert rest == [id] + SplitAll(chatPart, '/');
    SplitChatTail(tail);
  }

  /** Every `groups/<id>/chat` path, with or without more segments, yields its id. */
  lemma {:induction false} ChatPathAccepted(path: string, id: string)
    requires ChatPath(StripSlash(path), id) && !IsBlank(id) && '/' !in id
    ensures ExtractGroupId(Some(path)) == Some(id)
  {
    var p := StripSlash(path);
    var head := ChatPrefix(id);
    var tail := p[|head|..];
    assert p == head + tail;
    SplitChatPath(id, tail);
    var parts := SplitAll(p, '/');
    assert '/' in p by { assert p[|GROUPS|] == '/'; }
    var r := DropTrailingEmpty(parts);
    assert |r| >= 3;
    assert r[..3] == parts[..3];
  }

  lemma JoinThree(parts: seq<string>, c: char)
    requires |parts| >= 3
    ensures var head := parts[0] + [c] + parts[1] + [c] + parts[2];
      var j := Join(parts, c);
      StartsWith(j, head) && (|j| == |head| || j[|head|] == c)
  {
    var j2 := Join(parts[2..], c);
    JoinCons(parts[0], parts[1..], c);
    assert parts == [parts[0]] + parts[1..];
    JoinCons(parts[1], parts[2..], c);
    assert parts[1..] == [parts[1]] + parts[2..];
    assert Join(parts, c) == parts[0] + [c] + parts[1] + [c] + j2;
    if |parts| > 3 {
      JoinCons(parts[2], parts[3..], c);
      assert parts[2..] == [parts[2]] + parts[3..];
    }
  }

  /** Only such paths yield an id: the id read back is the second segment of a
      `groups/<id>/chat` path. */
  lemma ChatPathRequired(path: string, id: string)
    requires ExtractGroupId(Some(path)) == Some(id)
    ensures ChatPath(StripSlash(path), id)
  {
    var p := StripSlash(path);
    var parts := SplitAll(p, '/');
    assert '/' in p;
    var r := DropTrailingEmpty(parts);
    assert |r| >= 3 && r[..3] == parts[..3];
    SplitAllJoin(p, '/');
    JoinThree(parts, '/');
    assert parts[0] + ['/'] + parts[1] + ['/'] + parts[2] == ChatPrefix(id);
  }

  // ---------------------------------------------------------------- token

  /** A query parameter whose key, the text before the first '=' at index above 0,
      trims to "token". */
  predicate IsTokenParam(param: string) {
    var eq := IndexOf(param, '=');
    0 < eq < |param| && Trim(param[..eq]) == TOKEN_KEY
  }

  function ParamValue(param: string): string
    requires IsTokenParam(param)
  {
    Trim(param[IndexOf(param, '=') + 1..])
  }

  /** The index of the first token parameter, or the number of parameters. */
  function FirstTokenParam(params: seq<string>): (i: nat)
    ensures i <= |params| && (i < |params| ==> IsTokenParam(params[i]))
    ensures forall j :: 0 <= j < i ==> !IsTokenParam(params[j])
    decreases |params|
  {
    if params == [] then 0
    else if IsTokenParam(params[0]) then 0
    else
      var i := FirstTokenParam(params[1..]);
      assert forall j :: 1 <= j < i + 1 ==> params[j] == params[1..][j - 1];
      1 + i
  }

  /** The first token parameter is the one no earlier parameter precedes. */
  lemma FirstTokenParamAt(params: seq<string>, i: nat)
    requires i <= |params| && (i < |params| ==> IsTokenParam(params[i]))
    requires forall j :: 0 <= j < i ==> !IsTokenParam(params[j])
    ensures FirstTokenParam(params) == i
  {
  }

  /** The token of a raw query: the trimmed value of the first token parameter, none when
      that value is empty, and none without a query or a token parameter. */
  function TokenOf(rawQuery: Option<string>): (r: Option<string>)
    ensures r.Some? ==> r.value != [] && Trim(r.value) == r.value
  {
    if NullOrBlank(rawQuery) then None
    else
      var params := Split(rawQuery.value, '&');
      var i := FirstTokenParam(params);
      if i == |params| then None
      else
        var v := ParamValue(params[i]);
        TrimIdempotent(params[i][IndexOf(params[i], '=') + 1..]);
        if v == [] then None else Some(v)
  }

  /** `extractToken` on `uri.getRawQuery()`: the parameters in order, stopping at the first
      whose key is "token". */
  method ExtractToken(rawQuery: Option<string>) returns (r: Option<string>)
    ensures r == TokenOf(rawQuery)
  {
    if rawQuery.None? || IsBlank(rawQuery.value) {
      return None;
    }
    var params := Split(rawQuery.value, '&');
    var i := 0;
    while i < |params|
      invariant 0 <= i <= |params|
      invariant forall j :: 0 <= j < i ==> !IsTokenParam(params[j])
    {
      if IsTokenParam(params[i]) {
        FirstTokenParamAt(params, i);
        var value := ParamValue(params[i]);
        return if value == [] then None else Some(value);
      }
      i := i + 1;
    }
    FirstTokenParamAt(params, i);
    return None;
  }

  /** A query of one `token=<v>` parameter hands over `v`. */
  lemma TokenOfSingleParam(v: string)
    requires v != [] && Trim(v) == v && '&' !in v
    ensures TokenOf(Some(TOKEN_KEY + "=" + v)) == Some(v)
  {
    var q := TOKEN_KEY + "=" + v;
    assert !IsBlank(q) by { assert !IsWhitespace(q[0]); }
    assert '&' !in q;
    assert Split(q, '&') == [q];
    assert q == TOKEN_KEY + ['='] + v;
    assert IndexOf(q, '=') == 5 by {
      assert q[5] == '=';
      assert forall k :: 0 <= k < 5 ==> q[k] != '=';
    }
    assert q[..5] == TOKEN_KEY;
    TrimNoop(TOKEN_KEY);
    assert q[6..] == v;
  }

  // ---------------------------------------------------------------- room id

  /** `parseRoomId`: "room-<n>" or "<n>" as a long; anything else is None. */
  function ParseRoomId(groupId: Option<string>): (r: Option<int>)
    ensures NullOrBlank(groupId) ==> r.None?
    ensures r.Some? ==> InLong(r.value)
  {
    if NullOrBlank(groupId) then None
    else if StartsWith(groupId.value, MatchingRooms.ROOM_ID_PREFIX) then ParseLong(groupId.value[|MatchingRooms.ROOM_ID_PREFIX|..])
    else ParseLong(groupId.value)
  }

  /** Both spellings of a room id are read back. */
  lemma ParseRoomIdAccepts(n: int)
    requires InLong(n)
    ensures ParseRoomId(Some(MatchingRooms.ROOM_ID_PREFIX + IntToString(n))) == Some(n)
    ensures ParseRoomId(Some(IntToString(n))) == Some(n)
  {
    var s := IntToString(n);
    IntToStringChars(n);
    ParseLongOfToString(n);
    var t := MatchingRooms.ROOM_ID_PREFIX + s;
    assert !IsBlank(t) by { assert !IsWhitespace(t[0]); }
    assert t[..|MatchingRooms.ROOM_ID_PREFIX|] == MatchingRooms.ROOM_ID_PREFIX && t[|MatchingRooms.ROOM_ID_PREFIX|..] == s;
    assert !IsBlank(s) by { assert !IsWhitespace(s[0]); }
    assert !StartsWith(s, MatchingRooms.ROOM_ID_PREFIX) by {
      if |MatchingRooms.ROOM_ID_PREFIX| <= |s| {
        assert s[0] != 'r';
        assert s[..|MatchingRooms.ROOM_ID_PREFIX|][0] == s[0];
      }
    }
  }

  /** For an id without surrounding blanks the handler reads the same room as the REST
      endpoints' flexible reader, and refuses the same ids. */
  lemma ParseRoomIdAgreesWithApi(g: string)
    requires Trim(g) == g
    ensures ParseRoomId(Some(g)).Some? <==> MatchingRooms.ParseRoomIdFlexible(Some(g)).Ok?
    ensures ParseRoomId(Some(g)).Some? ==> MatchingRooms.ParseRoomIdFlexible(Some(g)) == Ok(ParseRoomId(Some(g)).value)
  {
  }

  // ---------------------------------------------------------------- JSON

  /** The values the broadcast map holds. */
  datatype JsonValue = JNull | JNumber(n: int) | JText(s: string)

  /** Keys have only their quotes escaped. */
  function EscapeMapKey(k: string): string {
    ReplaceChar(k, '"', "\\\"")
  }

  /** String values have backslashes doubled, then quotes escaped, the same two passes as
      the approval key of a subscribe message. */
  function ValueText(v: JsonValue): string {
    match v
    case JNull => "null"
    case JNumber(n) => IntToString(n)
    case JText(s) => "\"" + KisWs.EscapeKey(s) + "\""
  }

  /** One member `"key":value`. The key sits between the opening quote and the `":` before
      the value, and for a key without backslashes unescaping that part gives the key back. */
  function MemberText(k: string, v: JsonValue): (r: string)
    ensures |r| >= 3
    ensures |r| >= |ValueText(v)| + 3 && r[0] == '"' && r[|r| - |ValueText(v)|..] == ValueText(v)
    ensures r[|r| - |ValueText(v)| - 2..|r| - |ValueText(v)|] == "\":"
    ensures '\\' !in k ==> Unescape(r[1..|r| - |ValueText(v)| - 2]) == Some(k)
  {
    var e := EscapeMapKey(k);
    var r := "\"" + e + "\":" + ValueText(v);
    assert r[1..|r| - |ValueText(v)| - 2] == e;
    if '\\' !in k then EscapeMapKeyWithoutBackslash(k); r else r
  }

  /** The members written one after another, separated by ','. */
  function Members(entries: seq<(string, JsonValue)>): (r: string)
    ensures entries != [] ==> |r| > 0
  {
    if entries == [] then ""
    else if |entries| == 1 then MemberText(entries[0].0, entries[0].1)
    else
      var last := entries[|entries| - 1];
      Members(entries[..|entries| - 1]) + "," + MemberText(last.0, last.1)
  }

  /** The member list opens with the first entry's member and closes with the last one's. */
  lemma {:induction false} MembersEnds(entries: seq<(string, JsonValue)>)
    requires entries != []
    ensures StartsWith(Members(entries), MemberText(entries[0].0, entries[0].1))
    ensures var last := MemberText(entries[|entries| - 1].0, entries[|entries| - 1].1);
      |Members(entries)| >= |last| && Members(entries)[|Members(entries)| - |last|..] == last
  {
    if |entries| > 1 {
      var init := entries[..|entries| - 1];
      MembersEnds(init);
      assert init[0] == entries[0];
      var front := Members(init);
      var first := MemberText(entries[0].0, entries[0].1);
      var r := Members(entries);
      assert r == front + "," + MemberText(entries[|entries| - 1].0, entries[|entries| - 1].1);
      assert r[..|first|] == front[..|first|];
    }
  }

  /** The object a map's entries make, in the map's iteration order. */
  function JsonObject(entries: seq<(string, JsonValue)>): string {
    "{" + Members(entries) + "}"
  }

  /** `toJson`: one member per entry, a ',' before every member but the first. */
  method ToJson(entries: seq<(string, JsonValue)>) returns (r: string)
    ensures r == JsonObject(entries)
  {
    var sb := "{";
    var i := 0;
    while i < |entries|
      invariant 0 <= i <= |entries|
      invariant sb == "{" + Members(entries[..i])
    {
      MembersStep(entries, i);
      var (k, v) := entries[i];
      if |sb| > 1 {
        sb := sb + ",";
      }
      sb := sb + MemberText(k, v);
      i := i + 1;
    }
    assert entries[..i] == entries;
    r := sb + "}";
  }

  /** One step of `toJson`: a ',' goes before the member exactly when one is already written. */
  lemma MembersStep(entries: seq<(string, JsonValue)>, i: int)
    requires 0 <= i < |entries|
    ensures var sb := "{" + Members(entries[..i]);
      "{" + Members(entries[..i + 1]) == (if |sb| > 1 then sb + "," else sb) + MemberText(entries[i].0, entries[i].1)
  {
    var pre := entries[..i + 1];
    assert pre[..i] == entries[..i];
    assert pre[i] == entries[i];
    if i == 0 {
      assert entries[..i] == [];
    }
  }

  /** The reference reading of the text between the quotes of a JSON string value: `\\`
      and `\"` stand for one character, and a bare quote would end the string. */
  function Unescape(t: string): Option<string>
    decreases |t|
  {
    if t == [] then Some([])
    else if t[0] == '\\' then
      if |t| >= 2 && (t[1] == '\\' || t[1] == '"') then Push(t[1], Unescape(t[2..])) else None
    else if t[0] == '"' then None
    else Push(t[0], Unescape(t[1..]))
  }

  function Push(c: char, r: Option<string>): Option<string> {
    if r.Some? then Some([c] + r.value) else None
  }

  /** A strict reading of what escaping one character gives, followed by more text. */
  lemma UnescapeEscapedChar(s: string)
    requires s != []
    ensures Unescape(KisWs.EscapeJson(s)) == Push(s[0], Unescape(KisWs.EscapeJson(s[1..])))
  {
    var rest := KisWs.EscapeJson(s[1..]);
    var t := KisWs.EscapeJson(s);
    if s[0] == '\\' || s[0] == '"' {
      assert t[2..] == rest;
    } else {
      assert t[1..] == rest;
    }
  }

  /** A written string value reads back as the original under the strict reading, so no
      value can end its string early or change the JSON around it. */
  lemma {:induction false} UnescapeEscapedText(s: string)
    ensures Unescape(KisWs.EscapeKey(s)) == Some(s)
    decreases |s|
  {
    KisWs.EscapeKeyInOnePass(s);
    if s != [] {
      UnescapeEscapedChar(s);
      UnescapeEscapedText(s[1..]);
      KisWs.EscapeKeyInOnePass(s[1..]);
      assert [s[0]] + s[1..] == s;
    }
  }

  /** Keys are escaped like values as long as they hold no backslash, as all keys here do. */
  lemma EscapeMapKeyWithoutBackslash(k: string)
    requires '\\' !in k
    ensures EscapeMapKey(k) == KisWs.EscapeKey(k) && Unescape(EscapeMapKey(k)) == Some(k)
  {
    ReplaceCharAbsent(k, '\\', "\\\\");
    UnescapeEscapedText(k);
  }

  /** The broadcast of a saved message. The map is a `HashMap` of 16 buckets, which iterates
      these seven keys by the bucket of their hash: tradeData, userNickname, id, then type
      and message (which share a bucket, in the order they were put), userId, timestamp. */
  function BroadcastEntries(id: int, userId: int, nickname: string, message: string, timestamp: string)
    : (r: seq<(string, JsonValue)>)
    ensures |r| == 7 && forall k :: 0 <= k < |r| ==> '\\' !in r[k].0
  {
    [("tradeData", JNull), ("userNickname", JText(nickname)), ("id", JNumber(id)),
     ("type", JText(USER_MESSAGE_TYPE)), ("message", JText(message)), ("userId", JNumber(userId)),
     ("timestamp", JText(timestamp))]
  }

  // ---------------------------------------------------------------- sessions and routing

  /** What the regular expressions find in a payload: `"userId": <digits>`, the first
      `"nickname"` or `"userNickname"` string, and the `"message"` string. */
  datatype PayloadFields = PayloadFields(userId: Option<int>, nickname: Option<string>, message: Option<string>)

  /** The chat row `saveMessage` stores. */
  datatype SavedMessage = SavedMessage(roomId: int, userId: int, userNickname: string, message: string)

  /** What one text message causes: the row saved, if any, and the text sent to each
      recipient. */
  datatype Delivery = Delivery(saved: Option<SavedMessage>, recipients: set<int>, text: string)

  datatype CloseStatus = BadData | PolicyViolation

  /** Whether a connection on this URI is kept: a group id, a token that authenticates as
      "Bearer <token>", a room id, and a membership row for the user in that room. */
  predicate Admitted(path: Option<string>, rawQuery: Option<string>, authenticate: string -> Option<int>,
                     members: seq<MatchingRoomMember>)
  {
    var g := ExtractGroupId(path);
    var token := TokenOf(rawQuery);
    var user := if token.Some? then authenticate(BEARER + token.value) else None;
    var roomId := ParseRoomId(g);
    g.Some? && user.Some? && roomId.Some? && MatchingRooms.IsMember(members, roomId.value, user.value)
  }

  class ChatWebSocketHandler {
    /** `groupSessions`: the open sessions of each group, by session id. */
    var groupSessions: map<string, set<int>>

    /** No group is kept without sessions. */
    predicate Valid()
      reads this
    {
      forall g :: g in groupSessions ==> groupSessions[g] != {}
    }

    constructor ()
      ensures Valid() && groupSessions == map[]
    {
      groupSessions := map[];
    }

    function SessionsOf(g: string): set<int>
      reads this
    {
      if g in groupSessions then groupSessions[g] else {}
    }

    /** `afterConnectionEstablished`: the session joins its group once admitted, and is
        closed otherwise. `authenticate` is `getUserFromTokenOrNull` (the user's id) and
        `members` the membership rows. */
    method AfterConnectionEstablished(session: int, path: Option<string>, rawQuery: Option<string>,
                                      authenticate: string -> Option<int>, members: seq<MatchingRoomMember>)
      returns (closed: Option<CloseStatus>)
      requires Valid()
      modifies this
      ensures Valid()
      ensures closed == Some(BadData) <==> ExtractGroupId(path).None?
      ensures closed.None? <==> Admitted(path, rawQuery, authenticate, members)
      ensures closed.None? ==> var g := ExtractGroupId(path).value;
        groupSessions == old(groupSessions)[g := old(SessionsOf(g)) + {session}]
      ensures closed.Some? ==> groupSessions == old(groupSessions)
    {
      var groupId := ExtractGroupId(path);
      if groupId.None? {
        return Some(BadData);
      }
      var token := ExtractToken(rawQuery);
      var user := if token.Some? then authenticate(BEARER + token.value) else None;
      var roomId := ParseRoomId(groupId);
      var admitted := user.Some? && roomId.Some? && MatchingRooms.IsMember(members, roomId.value, user.value);
      assert admitted == Admitted(path, rawQuery, authenticate, members);
      if !admitted {
        return Some(PolicyViolation);
      }
      var sessions := SessionsOf(groupId.value);
      groupSessions := groupSessions[groupId.value := sessions + {session}];
      closed := None;
    }

    /** `afterConnectionClosed`: the session leaves its group, and a group left empty is
        dropped; the other groups keep their sessions. */
    method AfterConnectionClosed(session: int, path: Option<string>)
      requires Valid()
      modifies this
      ensures Valid()
      ensures var g := ExtractGroupId(path);
        if g.Some? && g.value in old(groupSessions) then
          var rest := old(groupSessions)[g.value] - {session};
          groupSessions == (if rest == {} then old(groupSessions) - {g.value} else old(groupSessions)[g.value := rest])
        else groupSessions == old(groupSessions)
      ensures ExtractGroupId(path).Some? ==> session !in SessionsOf(ExtractGroupId(path).value)
      ensures forall h :: h in old(groupSessions) && Some(h) != ExtractGroupId(path) ==>
        h in groupSessions && groupSessions[h] == old(groupSessions)[h]
    {
      var groupId := ExtractGroupId(path);
      if groupId.Some? && groupId.value in groupSessions {
        var rest := groupSessions[groupId.value] - {session};
        if rest == {} {
          groupSessions := groupSessions - {groupId.value};
        } else {
          groupSessions := groupSessions[groupId.value := rest];
        }
      }
    }

    /** `broadcastToGroup`'s recipients: the open sessions of the group. */
    function Recipients(groupId: string, isOpen: int -> bool): (r: set<int>)
      reads this
      ensures r <= SessionsOf(groupId) && forall s :: s in r ==> isOpen(s)
      ensures forall s :: s in SessionsOf(groupId) && isOpen(s) ==> s in r
    {
      set s | s in SessionsOf(groupId) && isOpen(s)
    }

    /** `handleTextMessage`. `fields` is what the patterns find in the payload; `savedId`
        and `createdAt` are the id and creation time `saveMessage` gives the row; `isOpen`
        says which sessions are open. Nothing happens without a group id. */
    function HandleTextMessage(path: Option<string>, payload: string, fields: PayloadFields,
                               savedId: int, createdAt: string, isOpen: int -> bool): (r: Option<Delivery>)
      reads this
      ensures r.None? <==> ExtractGroupId(path).None?
      ensures r.Some? ==> var g := ExtractGroupId(path).value;
        r.value.recipients == Recipients(g, isOpen)
        && (r.value.saved.Some? <==> ParseRoomId(Some(g)).Some? && fields.userId.Some?)
        && (r.value.saved.None? ==> r.value.text == payload)
        && (r.value.saved.Some? ==>
              var m := r.value.saved.value;
              m == SavedMessage(ParseRoomId(Some(g)).value, fields.userId.value,
                                fields.nickname.GetOr(""), fields.message.GetOr(payload))
              && r.value.text == JsonObject(BroadcastEntries(savedId, m.userId, m.userNickname, m.message, createdAt)))
    {
      var groupId := ExtractGroupId(path);
      if groupId.None? then None
      else
        var roomId := ParseRoomId(groupId);
        var recipients := Recipients(groupId.value, isOpen);
        if roomId.Some? && fields.userId.Some? then
          var nickname := if fields.nickname.Some? then fields.nickname.value else "";
          var msg := if fields.message.Some? then fields.message.value else payload;
          var saved := SavedMessage(roomId.value, fields.userId.value, nickname, msg);
          Some(Delivery(Some(saved), recipients,
                        JsonObject(BroadcastEntries(savedId, saved.userId, saved.userNickname, saved.message, createdAt))))
        else Some(Delivery(None, recipients, payload))
    }
  }
}
