/**
 * The real-time quote feed: the H0STCNT0 tick parser and the listener of `KisWsClient`,
 * and the subscription bookkeeping of `KisWsSubscriptionManager` (codes already requested
 * on this connection, codes waiting for a connection). The socket is the ordered log of
 * frames the client sends; the approval key is the answer of
 * `KisApi.KisApiService.ApprovalKey`, passed in.
 */
module KisWs {
  import opened Wrappers
  import opened JavaText
  import opened JavaNumbers
  import opened KisApi
  import opened KisWsCaches

  const TR_ID: string := "H0STCNT0"
  const IDX_STOCK_CODE: nat := 0
  const IDX_CURRENT_PRICE: nat := 2
  const IDX_CHANGE: nat := 3
  const IDX_CHANGE_RATE: nat := 4
  const IDX_VOLUME: nat := 5

  // ---------------------------------------------------------------------------------
  // Field parsers

  /** `safeTrim`: the trimmed text, or none when nothing is left. */
  function SafeTrim(s: string): (r: Option<string>)
    ensures r.None? <==> Trim(s) == []
    ensures r.Some? ==>
      (r.value == Trim(s) && r.value != [] && !Trimmable(r.value[0]) && !Trimmable(r.value[|r.value| - 1]))
  {
    TrimSpec(s);
    var t := Trim(s);
    if t == [] then None else Some(t)
  }

  /** Trimming again changes nothing. */
  lemma SafeTrimIdempotent(s: string)
    ensures SafeTrim(s).Some? ==> SafeTrim(SafeTrim(s).value) == SafeTrim(s)
  {
    TrimIdempotent(s);
  }

  /** `parseBigDecimal`: blank gives none; otherwise the trimmed text without ',' is parsed. */
  function ParseDecimalField(s: string): Option<real> {
    if Trim(s) == [] then None else ParseBigDecimal(RemoveChar(Trim(s), ','))
  }

  /** `parseLong`: blank gives none; otherwise the trimmed text without ',' is parsed. */
  function ParseLongField(s: string): Option<int> {
    if Trim(s) == [] then None else ParseLong(RemoveChar(Trim(s), ','))
  }

  /** The feed parses a numeric field exactly as the REST gateway parses a string field. */
  lemma FieldParsersAgreeWithGateway(s: string)
    ensures ParseDecimalField(s) == GetBigDecimal(map["f" := Text(s)], "f")
    ensures ParseLongField(s) == GetLong(map["f" := Text(s)], "f")
  {
    if Trim(s) == [] {
      assert RemoveChar(Trim(s), ',') == [];
    }
  }

  /** An integer's decimal text is read back as that integer by both parsers. */
  lemma ParseFieldsOfInt(n: int)
    ensures ParseDecimalField(IntToString(n)) == Some(n as real)
    ensures InLong(n) ==> ParseLongField(IntToString(n)) == Some(n)
  {
    var t := IntToString(n);
    IntToStringChars(n);
    TrimNoop(t);
    assert ',' !in t by {
      forall k | 0 <= k < |t| ensures t[k] != ',' {
        if k > 0 { assert IsAsciiDigit(t[k]); }
      }
    }
    RemoveCharAbsent(t, ',');
    ParseBigDecimalOfToString(n);
    if InLong(n) {
      ParseLongOfToString(n);
    }
  }

  // ---------------------------------------------------------------------------------
  // H0STCNT0 ticks

  /** One execution tick: the code and the figures stored in both caches. */
  datatype Tick = Tick(code: string, price: real, change: real, changeRate: real, volume: int)

  /** The frame test and payload choice of `onText`: a text starting "0|" that contains
      the TR id, with at least three '|' fields and the TR id as field 1; the payload is
      field 3 when there are four fields or more, else field 2. */
  function TickPayload(text: string): Option<string> {
    if !(StartsWith(text, "0|") && Contains(text, TR_ID)) then None
    else
      var parts := SplitAll(text, '|');
      if |parts| >= 3 && parts[1] == TR_ID then Some(if |parts| >= 4 then parts[3] else parts[2])
      else None
  }

  /** The tick carried by a text frame, if any; a frame whose trimmed text starts with '{'
      is a JSON control message and never a tick. Missing change, rate and volume read 0. */
  function ParseTick(text: string): (r: Option<Tick>)
    ensures r.Some? ==> StartsWith(text, "0|") && Contains(text, TR_ID) && !StartsWith(Trim(text), "{")
    ensures r.Some? ==> r.value.code != [] && Trim(r.value.code) == r.value.code
  {
    if StartsWith(Trim(text), "{") then None
    else match TickPayload(text)
      case None => None
      case Some(payload) =>
        var f := SplitAll(payload, '^');
        if |f| <= IDX_VOLUME then None
        else
          var code := SafeTrim(f[IDX_STOCK_CODE]);
          var price := ParseDecimalField(f[IDX_CURRENT_PRICE]);
          if code.None? || price.None? then None
          else
            TrimIdempotent(f[IDX_STOCK_CODE]);
            Some(Tick(code.value, price.value,
              ParseDecimalField(f[IDX_CHANGE]).GetOr(0.0),
              ParseDecimalField(f[IDX_CHANGE_RATE]).GetOr(0.0),
              ParseLongField(f[IDX_VOLUME]).GetOr(0)))
  }

  /** A tick frame as the feed sends it: "0|H0STCNT0|" then an optional count field, then
      the '^'-joined payload fields. */
  function TickFrame(count: Option<string>, fields: seq<string>): string
    requires |fields| >= 1
  {
    "0|" + TR_ID + ("|" + (if count.Some? then count.value + "|" else "") + Join(fields, '^'))
  }

  lemma FrameFields(count: Option<string>, payload: string)
    requires '|' !in payload && (count.Some? ==> '|' !in count.value)
    ensures var text := "0|" + TR_ID + ("|" + (if count.Some? then count.value + "|" else "") + payload);
      SplitAll(text, '|') == if count.Some? then ["0", TR_ID, count.value, payload] else ["0", TR_ID, payload]
  {
    var parts := if count.Some? then ["0", TR_ID, count.value, payload] else ["0", TR_ID, payload];
    var text := "0|" + TR_ID + ("|" + (if count.Some? then count.value + "|" else "") + payload);
    if count.Some? {
      assert Join(parts[3..], '|') == payload;
      assert Join(parts[2..], '|') == count.value + "|" + payload;
    } else {
      assert Join(parts[2..], '|') == payload;
    }
    assert Join(parts[1..], '|') == TR_ID + "|" + Join(parts[2..], '|');
    assert text == Join(parts, '|');
    assert forall k :: 0 <= k < |parts| ==> '|' !in parts[k];
    JoinSplitAll(parts, '|');
  }

  /** A text whose first character is not cut by `trim` keeps it in front after trimming. */
  lemma TrimKeepsHead(text: string)
    requires |text| > 0 && !Trimmable(text[0])
    ensures |Trim(text)| > 0 && Trim(text)[0] == text[0]
  {
    TrimLeftSpec(text);
    TrimRightSpec(TrimLeft(text));
  }

  /** A text starting with '0' is not taken for JSON. */
  lemma HeadZeroIsNotJson(text: string)
    requires |text| > 0 && text[0] == '0'
    ensures !StartsWith(Trim(text), "{")
  {
    TrimKeepsHead(text);
  }

  lemma FrameHead(text: string)
    requires |text| >= 2 + |TR_ID| && text[..2] == "0|" && text[2..2 + |TR_ID|] == TR_ID
    ensures StartsWith(text, "0|") && Contains(text, TR_ID) && !StartsWith(Trim(text), "{")
  {
    ContainsAt(text, TR_ID, 2);
    assert text[0] == text[..2][0];
    HeadZeroIsNotJson(text);
  }

  lemma FrameHeadOf(rest: string)
    ensures var text := "0|" + TR_ID + rest;
      StartsWith(text, "0|") && Contains(text, TR_ID) && !StartsWith(Trim(text), "{")
  {
    var text := "0|" + TR_ID + rest;
    assert text[..2] == "0|" && text[2..2 + |TR_ID|] == TR_ID;
    FrameHead(text);
  }

  /** The frame around a payload without '|' yields that payload. */
  lemma PayloadOfFrame(count: Option<string>, payload: string)
    requires '|' !in payload && (count.Some? ==> '|' !in count.value)
    ensures var text := "0|" + TR_ID + ("|" + (if count.Some? then count.value + "|" else "") + payload);
      TickPayload(text) == Some(payload) && !StartsWith(Trim(text), "{")
  {
    var rest := "|" + (if count.Some? then count.value + "|" else "") + payload;
    var text := "0|" + TR_ID + rest;
    FrameFields(count, payload);
    FrameHeadOf(rest);
    TickPayloadOf(text, payload);
  }

  lemma TickPayloadOf(text: string, payload: string)
    requires StartsWith(text, "0|") && Contains(text, TR_ID)
    requires var parts := SplitAll(text, '|');
      |parts| >= 3 && parts[1] == TR_ID && (if |parts| >= 4 then parts[3] else parts[2]) == payload
    ensures TickPayload(text) == Some(payload)
  {
  }

  lemma TickFrameSplits(count: Option<string>, fields: seq<string>)
    requires |fields| >= 1
    requires forall k :: 0 <= k < |fields| ==> '|' !in fields[k] && '^' !in fields[k]
    requires count.Some? ==> '|' !in count.value
    ensures TickPayload(TickFrame(count, fields)) == Some(Join(fields, '^'))
    ensures !StartsWith(Trim(TickFrame(count, fields)), "{")
    ensures SplitAll(Join(fields, '^'), '^') == fields
  {
    JoinAvoids(fields, '^', '|');
    JoinSplitAll(fields, '^');
    PayloadOfFrame(count, Join(fields, '^'));
  }

  /**
   * Round trip: a frame built from payload fields is read back field by field. Field 0,
   * trimmed, is the code; field 2 is the price; fields 3 to 5 are read as the caches
   * store them, 0 when they do not parse.
   */
  lemma TickRoundTrip(count: Option<string>, fields: seq<string>)
    requires |fields| > IDX_VOLUME
    requires forall k :: 0 <= k < |fields| ==> '|' !in fields[k] && '^' !in fields[k]
    requires count.Some? ==> '|' !in count.value
    requires Trim(fields[IDX_STOCK_CODE]) != [] && ParseDecimalField(fields[IDX_CURRENT_PRICE]).Some?
    ensures ParseTick(TickFrame(count, fields)) == Some(Tick(
      Trim(fields[IDX_STOCK_CODE]),
      ParseDecimalField(fields[IDX_CURRENT_PRICE]).value,
      ParseDecimalField(fields[IDX_CHANGE]).GetOr(0.0),
      ParseDecimalField(fields[IDX_CHANGE_RATE]).GetOr(0.0),
      ParseLongField(fields[IDX_VOLUME]).GetOr(0)))
  {
    TickFrameSplits(count, fields);
  }

  /** A payload of five fields or fewer carries no tick. */
  lemma ShortPayloadIsIgnored(count: Option<string>, fields: seq<string>)
    requires 1 <= |fields| <= IDX_VOLUME
    requires forall k :: 0 <= k < |fields| ==> '|' !in fields[k] && '^' !in fields[k]
    requires count.Some? ==> '|' !in count.value
    ensures ParseTick(TickFrame(count, fields)).None?
  {
    TickFrameSplits(count, fields);
  }

  /** A tick whose code is blank, or whose price does not parse, is ignored. */
  lemma UnreadableTickIsIgnored(count: Option<string>, fields: seq<string>)
    requires |fields| > IDX_VOLUME
    requires forall k :: 0 <= k < |fields| ==> '|' !in fields[k] && '^' !in fields[k]
    requires count.Some? ==> '|' !in count.value
    requires Trim(fields[IDX_STOCK_CODE]) == [] || ParseDecimalField(fields[IDX_CURRENT_PRICE]).None?
    ensures ParseTick(TickFrame(count, fields)).None?
  {
    TickFrameSplits(count, fields);
  }

  /** A text not starting "0|" is never a tick. */
  lemma OtherFramesAreNotTicks(text: string)
    requires !StartsWith(text, "0|")
    ensures ParseTick(text).None?
  {
  }

  function SnapshotOf(t: Tick, now: int): PriceSnapshot {
    PriceSnapshot(t.price, t.change, t.changeRate, t.volume, now)
  }

  function RealtimeOf(t: Tick, now: int): RealtimeStock {
    RealtimeStock(t.code, t.price, t.change, t.changeRate, t.volume, now)
  }

  // ---------------------------------------------------------------------------------
  // Subscribe frames

  /** `approvalKey.replace("\\", "\\\\").replace("\"", "\\\"")`. */
  function EscapeKey(key: string): string {
    ReplaceChar(ReplaceChar(key, '\\', "\\\\"), '"', "\\\"")
  }

  /** JSON string escaping of backslash and quote, one character at a time. */
  function EscapeJson(s: string): string {
    if |s| == 0 then []
    else (if s[0] == '\\' then "\\\\" else if s[0] == '"' then "\\\"" else [s[0]]) + EscapeJson(s[1..])
  }

  /** Reading a JSON string body back: a backslash takes the next character literally. */
  function UnescapeJson(s: string): string
    decreases |s|
  {
    if |s| == 0 then []
    else if s[0] == '\\' && |s| >= 2 then [s[1]] + UnescapeJson(s[2..])
    else [s[0]] + UnescapeJson(s[1..])
  }

  /** The two replace passes equal one escaping pass: the backslashes the first pass
      inserts are not touched by the second. */
  lemma {:induction false} EscapeKeyInOnePass(key: string)
    ensures EscapeKey(key) == EscapeJson(key)
  {
    if |key| > 0 {
      var head := if key[0] == '\\' then "\\\\" else [key[0]];
      var tail := ReplaceChar(key[1..], '\\', "\\\\");
      assert ReplaceChar(key, '\\', "\\\\") == head + tail;
      ReplaceCharAppend(head, tail, '"', "\\\"");
      EscapeKeyInOnePass(key[1..]);
      if key[0] == '\\' {
        ReplaceCharAbsent(head, '"', "\\\"");
      } else {
        assert head[1..] == [];
      }
    }
  }

  /** The escaped key reads back as the key. */
  lemma {:induction false} EscapeRoundTrip(s: string)
    ensures UnescapeJson(EscapeJson(s)) == s
  {
    if |s| > 0 {
      var e := if s[0] == '\\' then "\\\\" else if s[0] == '"' then "\\\"" else [s[0]];
      var rest := EscapeJson(s[1..]);
      EscapeRoundTrip(s[1..]);
      assert EscapeJson(s) == e + rest;
      if |e| == 2 {
        assert (e + rest)[2..] == rest;
      } else {
        assert (e + rest)[1..] == rest;
      }
    }
  }

  const KEY_OPEN: string := "{\"header\":{\"approval_key\":\""
  const KEY_CLOSE: string := "\",\"custtype\":\"P\",\"tr_type\":\"1\",\"content-type\":\"utf-8\"}"
    + ",\"body\":{\"input\":{\"tr_id\":\"H0STCNT0\",\"tr_key\":\""
  const CODE_CLOSE: string := "\"}}}"

  /** The subscribe message `sendSubscribe` writes. */
  function SubscribeJson(approvalKey: string, trKey: string): string {
    KEY_OPEN + EscapeKey(approvalKey) + KEY_CLOSE + trKey + CODE_CLOSE
  }

  /** The key field of the subscribe message reads back as the approval key, and the
      message ends with the code. */
  lemma SubscribeJsonFields(approvalKey: string, trKey: string)
    ensures var t := SubscribeJson(approvalKey, trKey); var n := |KEY_OPEN| + |EscapeKey(approvalKey)|;
      n <= |t| && UnescapeJson(t[|KEY_OPEN|..n]) == approvalKey
      && t[n + |KEY_CLOSE|..] == trKey + CODE_CLOSE
  {
    var t := SubscribeJson(approvalKey, trKey);
    var n := |KEY_OPEN| + |EscapeKey(approvalKey)|;
    assert t[|KEY_OPEN|..n] == EscapeKey(approvalKey);
    EscapeKeyInOnePass(approvalKey);
    EscapeRoundTrip(approvalKey);
  }

  /** What the client writes to the socket: a subscribe request, or a ping echoed back. */
  datatype Frame = Subscribe(approvalKey: string, trKey: string) | Pong(text: string)

  function Wire(f: Frame): string {
    match f
    case Subscribe(k, c) => SubscribeJson(k, c)
    case Pong(text) => text
  }

  /** The frames of one `sendSubscribe`: nothing for a null or blank code, a closed socket
      or a failed approval-key request; otherwise one request for the padded code. */
  function SubscribeFrames(connected: bool, stockCode: Option<string>, approvalKey: Result<string>): (r: seq<Frame>)
    ensures |r| <= 1
    ensures r != [] <==> connected && !NullOrBlank(stockCode) && approvalKey.Ok?
    ensures r != [] ==> r[0] == Subscribe(approvalKey.value, PadCode6(stockCode.value)) && |r[0].trKey| >= 6
  {
    if !connected || NullOrBlank(stockCode) || approvalKey.Err? then []
    else [Subscribe(approvalKey.value, PadCode6(stockCode.value))]
  }

  // ---------------------------------------------------------------------------------
  // Subscription bookkeeping over the frame log

  /** The codes requested by the frames. */
  function Keys(frames: seq<Frame>): set<string> {
    if |frames| == 0 then {}
    else
      var last := frames[|frames| - 1];
      Keys(frames[..|frames| - 1]) + (if last.Subscribe? then {last.trKey} else {})
  }

  /** No code is requested twice among the frames: each request is for a code no earlier
      frame requested. */
  predicate DistinctKeys(frames: seq<Frame>) {
    if |frames| == 0 then true
    else
      var last := frames[|frames| - 1];
      DistinctKeys(frames[..|frames| - 1]) && (last.Subscribe? ==> last.trKey !in Keys(frames[..|frames| - 1]))
  }

  /** `Keys` holds exactly the codes of the requests among the frames. */
  lemma {:induction false} KeysSpec(frames: seq<Frame>, c: string)
    ensures c in Keys(frames) <==> exists i :: 0 <= i < |frames| && frames[i].Subscribe? && frames[i].trKey == c
  {
    if |frames| > 0 {
      var init := frames[..|frames| - 1];
      KeysSpec(init, c);
      if c in Keys(init) {
        var i :| 0 <= i < |init| && init[i].Subscribe? && init[i].trKey == c;
        assert frames[i] == init[i];
      }
      if exists i :: 0 <= i < |frames| && frames[i].Subscribe? && frames[i].trKey == c {
        var i :| 0 <= i < |frames| && frames[i].Subscribe? && frames[i].trKey == c;
        if i < |init| {
          assert init[i] == frames[i];
        }
      }
    }
  }

  /** `DistinctKeys` means that no two requests among the frames are for the same code. */
  lemma {:induction false} DistinctKeysSpec(frames: seq<Frame>)
    ensures DistinctKeys(frames) <==>
      forall i, j :: 0 <= i < j < |frames| && frames[i].Subscribe? && frames[j].Subscribe?
        ==> frames[i].trKey != frames[j].trKey
  {
    if |frames| > 0 {
      var init := frames[..|frames| - 1];
      var last := frames[|frames| - 1];
      DistinctKeysSpec(init);
      if last.Subscribe? {
        KeysSpec(init, last.trKey);
      }
      assert forall i :: 0 <= i < |init| ==> init[i] == frames[i];
    }
  }

  lemma KeysAppend(frames: seq<Frame>, f: Frame)
    ensures Keys(frames + [f]) == Keys(frames) + (if f.Subscribe? then {f.trKey} else {})
    ensures DistinctKeys(frames) && (f.Subscribe? ==> f.trKey !in Keys(frames)) ==> DistinctKeys(frames + [f])
  {
    assert (frames + [f])[..|frames|] == frames;
  }

  /** The log after `from`, extended by one frame. */
  lemma SuffixAppend(frames: seq<Frame>, from: nat, extra: seq<Frame>)
    requires from <= |frames|
    ensures (frames + extra)[from..] == frames[from..] + extra
  {
  }

  /** The codes a drain requests: the non-blank ones whose own approval-key fetch succeeded.
      `keyFor(c)` is the outcome of the fetch `sendSubscribe` makes while sending `c`. */
  function Sendable(codes: set<string>, keyFor: string -> Result<string>): set<string> {
    set c | c in codes && !IsBlank(c) && keyFor(c).Ok?
  }

  /** Every request among the frames carries the key fetched for its own code. */
  predicate KeyedBy(frames: seq<Frame>, keyFor: string -> Result<string>) {
    forall i :: 0 <= i < |frames| && frames[i].Subscribe? ==> keyFor(frames[i].trKey) == Ok(frames[i].approvalKey)
  }

  /** A drained code's frames keep the log keyed by the per-code fetches. */
  lemma KeyedByAppend(frames: seq<Frame>, code: string, keyFor: string -> Result<string>)
    requires KeyedBy(frames, keyFor) && PadCode6(code) == code
    ensures KeyedBy(frames + SubscribeFrames(true, Some(code), keyFor(code)), keyFor)
  {
    var extra := SubscribeFrames(true, Some(code), keyFor(code));
    var all := frames + extra;
    forall i | 0 <= i < |all| && all[i].Subscribe?
      ensures keyFor(all[i].trKey) == Ok(all[i].approvalKey)
    {
      if i >= |frames| {
        assert all[i] == extra[0];
      } else {
        assert all[i] == frames[i];
      }
    }
  }

  /** `normalizeStockCode`, applied to the trimmed code. */
  function NormalizeStockCode(code: string): (r: string)
    ensures |r| >= 6 && PadCode6(r) == r
    ensures |code| >= 6 ==> r == code
    ensures |code| < 6 && ' ' !in code ==> r == seq(6 - |code|, _ => '0') + code
  {
    PadCode6Spec(code);
    PadCode6Idempotent(code);
    PadCode6(code)
  }

  /** One more request for a code outside `known`, which holds every code requested since
      `from`, keeps the requests since `from` distinct. */
  lemma RequestKeepsDistinct(before: seq<Frame>, from: nat, known: set<string>, code: string,
                             approvalKey: Result<string>)
    requires from <= |before| && DistinctKeys(before[from..]) && Keys(before[from..]) <= known
    requires code !in known && PadCode6(code) == code
    ensures var after := before + SubscribeFrames(true, Some(code), approvalKey);
      DistinctKeys(after[from..])
      && Keys(after[from..]) == Keys(before[from..]) + (if !IsBlank(code) && approvalKey.Ok? then {code} else {})
  {
    var extra := SubscribeFrames(true, Some(code), approvalKey);
    SuffixAppend(before, from, extra);
    if extra != [] {
      KeysAppend(before[from..], extra[0]);
    } else {
      assert before + extra == before;
    }
  }

  lemma SendableOfNone(before: set<string>, keyFor: string -> Result<string>)
    ensures Sendable({} - before, keyFor) == {}
  {
    assert {} - before == {};
  }

  lemma SendableWithin(codes: set<string>, keyFor: string -> Result<string>)
    ensures Sendable(codes, keyFor) <= codes
  {
  }

  /** One drain step: the code joins the processed codes, and it is requested exactly
      when it was not subscribed before the drain and its own key fetch succeeded. */
  lemma DrainStep(before: set<string>, done: set<string>, code: string, keyFor: string -> Result<string>)
    requires code !in done
    ensures code !in before + done ==>
      (Sendable((done + {code}) - before, keyFor)
       == Sendable(done - before, keyFor) + (if !IsBlank(code) && keyFor(code).Ok? then {code} else {}))
    ensures code in before + done ==> Sendable((done + {code}) - before, keyFor) == Sendable(done - before, keyFor)
  {
    if code in before {
      assert (done + {code}) - before == done - before;
    } else {
      assert (done + {code}) - before == (done - before) + {code};
    }
  }

  /** Moving one code of `rest` over to `done` keeps the two a partition of `toSend`. */
  lemma MoveCode(toSend: set<string>, rest: set<string>, done: set<string>, code: string)
    requires rest !! done && rest + done == toSend && code in rest
    requires forall c :: c in rest ==> PadCode6(c) == c
    ensures (rest - {code}) !! (done + {code}) && (rest - {code}) + (done + {code}) == toSend
    ensures forall c :: c in rest - {code} ==> PadCode6(c) == c
    ensures PadCode6(code) == code && code !in done && |rest - {code}| < |rest|
  {
  }

  class KisWsClient {
    /** `webSocketRef != null`. */
    var connected: bool
    /** Every frame written to the socket, in order. */
    var sent: seq<Frame>
    var manager: KisWsSubscriptionManager?
    const priceCache: PriceCache
    const realtimeCache: StockRealtimeCache

    constructor (priceCache: PriceCache, realtimeCache: StockRealtimeCache)
      ensures !connected && sent == [] && manager == null
      ensures this.priceCache == priceCache && this.realtimeCache == realtimeCache
    {
      connected := false;
      sent := [];
      manager := null;
      this.priceCache := priceCache;
      this.realtimeCache := realtimeCache;
    }

    /** `isConnected`. */
    predicate IsConnected()
      reads this
    {
      connected
    }

    /** `sendSubscribe`: when open, one request for the code padded with '0' to six. */
    method SendSubscribe(stockCode: Option<string>, approvalKey: Result<string>)
      modifies this
      ensures sent == old(sent) + SubscribeFrames(connected, stockCode, approvalKey)
      ensures connected == old(connected) && manager == old(manager)
    {
      if stockCode.None? || IsBlank(stockCode.value) || !connected {
        return;
      }
      var code := PadCode6(stockCode.value);
      if approvalKey.Err? {
        return;
      }
      sent := sent + [Subscribe(approvalKey.value, code)];
    }

    /** The listener's `onOpen`: the socket is kept and the pending codes are drained;
        `keyFor(c)` is the outcome of the approval-key fetch made while sending `c`. */
    method OnOpen(keyFor: string -> Result<string>)
      requires manager != null && manager.client == this && manager.Valid()
      modifies this, manager
      ensures connected && manager == old(manager) && manager.Valid()
      ensures manager.pending == {} && manager.subscribed == old(manager.subscribed) + old(manager.pending)
      ensures |old(sent)| <= |sent| && DistinctKeys(sent[|old(sent)|..])
      ensures Keys(sent[|old(sent)|..]) == Sendable(old(manager.pending) - old(manager.subscribed), keyFor)
      ensures KeyedBy(sent[|old(sent)|..], keyFor)
    {
      connected := true;
      manager.OnWsConnected(keyFor);
    }

    /**
     * The listener's `onText` at time `now`. `pingPong` is whether the JSON header's tr_id
     * reads "PINGPONG"; it counts only for a JSON frame, which is then echoed back. A tick
     * frame updates both caches; anything else changes neither.
     */
    method OnText(data: Option<string>, pingPong: bool, now: int)
      requires manager != null && manager.client == this && manager.Valid()
      modifies this, priceCache, realtimeCache
      ensures manager == old(manager) && manager.Valid() && connected == old(connected)
      ensures var text := data.GetOr("");
        sent == old(sent) + (if StartsWith(Trim(text), "{") && pingPong then [Pong(text)] else [])
      ensures var t := ParseTick(data.GetOr(""));
        (t.None? ==> priceCache.cache == old(priceCache.cache) && realtimeCache.cache == old(realtimeCache.cache))
        && (t.Some? ==>
          (priceCache.cache == old(priceCache.cache)[t.value.code := SnapshotOf(t.value, now)]
           && realtimeCache.cache == old(realtimeCache.cache)[t.value.code := RealtimeOf(t.value, now)]))
    {
      var text := data.GetOr("");
      var isJson := StartsWith(Trim(text), "{");
      var tick := ParseTick(text);
      if tick.Some? {
        var t := tick.value;
        priceCache.Put(Some(t.code), Some(SnapshotOf(t, now)));
        realtimeCache.Put(Some(t.code), Some(RealtimeOf(t, now)));
      }
      if isJson && pingPong {
        ghost var before := sent;
        sent := sent + [Pong(text)];
        SuffixAppend(before, manager.mark, [Pong(text)]);
        KeysAppend(before[manager.mark..], Pong(text));
      }
    }

    /** The listener's `onClose`: the socket is dropped and both code sets are emptied. */
    method OnClose()
      requires manager != null && manager.client == this && manager.Valid()
      modifies this, manager
      ensures !IsConnected() && manager == old(manager) && manager.Valid()
      ensures manager.subscribed == {} && manager.pending == {} && sent == old(sent)
    {
      connected := false;
      manager.ClearSubscribedCodes();
    }
  }

  class KisWsSubscriptionManager {
    const client: KisWsClient
    /** Codes already requested on this connection. */
    var subscribed: set<string>
    /** Codes waiting for a connection. */
    var pending: set<string>
    /** Where the client's log stood at the last clear. */
    ghost var mark: nat

    /** Between two clears, every code is requested at most once, and every requested code
        is remembered as subscribed; pending codes are normalized. */
    ghost predicate Valid()
      reads this, client
    {
      client.manager == this && mark <= |client.sent|
      && DistinctKeys(client.sent[mark..]) && Keys(client.sent[mark..]) <= subscribed
      && forall c :: c in pending ==> PadCode6(c) == c
    }

    constructor (client: KisWsClient)
      modifies client
      ensures this.client == client && client.manager == this && Valid()
      ensures subscribed == {} && pending == {}
      ensures client.sent == old(client.sent) && client.connected == old(client.connected)
    {
      this.client := client;
      subscribed := {};
      pending := {};
      mark := |client.sent|;
      new;
      client.manager := this;
    }

    /**
     * `ensureSubscribed`: a null or blank code is ignored; the trimmed, normalized code is
     * skipped when already subscribed; otherwise it is requested and remembered when the
     * socket is open, and left pending when not.
     */
    method EnsureSubscribed(stockCode: Option<string>, approvalKey: Result<string>)
      requires Valid()
      modifies this, client
      ensures Valid() && client.connected == old(client.connected)
      ensures NullOrBlank(stockCode) ==>
        subscribed == old(subscribed) && pending == old(pending) && client.sent == old(client.sent)
      ensures !NullOrBlank(stockCode) ==>
        var code := NormalizeStockCode(Trim(stockCode.value));
        (code in old(subscribed) ==>
          subscribed == old(subscribed) && pending == old(pending) && client.sent == old(client.sent))
        && (code !in old(subscribed) && old(client.connected) ==>
          subscribed == old(subscribed) + {code} && pending == old(pending)
          && client.sent == old(client.sent) + SubscribeFrames(true, Some(code), approvalKey))
        && (code !in old(subscribed) && !old(client.connected) ==>
          subscribed == old(subscribed) && pending == old(pending) + {code} && client.sent == old(client.sent))
    {
      if stockCode.None? || IsBlank(stockCode.value) {
        return;
      }
      var code := NormalizeStockCode(Trim(stockCode.value));
      if code in subscribed {
        return;
      }
      if client.IsConnected() {
        RequestOnce(code, approvalKey, mark);
      } else {
        pending := pending + {code};
      }
    }

    /** The step shared by `ensureSubscribed` and the drain: a code not yet subscribed is
        requested and remembered; a subscribed one is left alone. `start` is any point of
        the log since the last clear. */
    method RequestOnce(code: string, approvalKey: Result<string>, ghost start: nat)
      requires Valid() && client.connected && PadCode6(code) == code
      requires mark <= start <= |client.sent| && DistinctKeys(client.sent[start..])
      requires Keys(client.sent[start..]) <= subscribed
      modifies this, client
      ensures Valid() && client.connected && pending == old(pending) && mark == old(mark)
      ensures subscribed == old(subscribed) + {code}
      ensures client.sent == old(client.sent) + (if code in old(subscribed) then [] else SubscribeFrames(true, Some(code), approvalKey))
      ensures DistinctKeys(client.sent[start..])
      ensures Keys(client.sent[start..]) == old(Keys(client.sent[start..]))
        + (if code !in old(subscribed) && !IsBlank(code) && approvalKey.Ok? then {code} else {})
    {
      if code !in subscribed {
        ghost var before := client.sent;
        RequestKeepsDistinct(before, mark, subscribed, code, approvalKey);
        RequestKeepsDistinct(before, start, subscribed, code, approvalKey);
        client.SendSubscribe(Some(code), approvalKey);
        subscribed := subscribed + {code};
      } else {
        assert client.sent + [] == client.sent;
      }
    }

    /**
     * `onWsConnected`: nothing when the socket is closed; otherwise pending is emptied and
     * every pending code not yet subscribed is sent once and remembered, in no particular
     * order. Each send fetches its own approval key, `keyFor(c)` for the code `c`: a code
     * whose fetch fails is remembered as subscribed but not requested.
     */
    method OnWsConnected(keyFor: string -> Result<string>)
      requires Valid()
      modifies this, client
      ensures Valid() && client.connected == old(client.connected)
      ensures !old(client.connected) ==>
        subscribed == old(subscribed) && pending == old(pending) && client.sent == old(client.sent)
      ensures old(client.connected) ==> pending == {} && subscribed == old(subscribed) + old(pending)
      ensures |old(client.sent)| <= |client.sent| && DistinctKeys(client.sent[|old(client.sent)|..])
      ensures old(client.connected) ==>
        Keys(client.sent[|old(client.sent)|..]) == Sendable(old(pending) - old(subscribed), keyFor)
      ensures KeyedBy(client.sent[|old(client.sent)|..], keyFor)
    {
      if !client.IsConnected() {
        assert client.sent[|client.sent|..] == [];
        return;
      }
      var toSend := pending;
      pending := {};
      Drain(toSend, keyFor);
    }

    /** The state of the drain after the codes `done`: the requests since `start` are
        distinct, are exactly the codes of `done` not subscribed before (in `before`) that
        are non-blank and whose own key fetch succeeded, each request carries that key, and
        `done` has joined the subscribed codes. */
    ghost predicate Drained(start: nat, before: set<string>, done: set<string>, keyFor: string -> Result<string>)
      reads this, client
    {
      Valid() && client.connected && pending == {} && mark <= start <= |client.sent|
      && subscribed == before + done && DistinctKeys(client.sent[start..])
      && Keys(client.sent[start..]) == Sendable(done - before, keyFor)
      && KeyedBy(client.sent[start..], keyFor)
    }

    /** The drain with the codes `rest` still to go out of `toSend`, and `done` behind it. */
    ghost predicate DrainState(toSend: set<string>, rest: set<string>, done: set<string>, start: nat,
                               before: set<string>, keyFor: string -> Result<string>)
      reads this, client
    {
      rest !! done && rest + done == toSend && (forall c :: c in rest ==> PadCode6(c) == c)
      && Drained(start, before, done, keyFor)
    }

    /** One iteration of the drain: `code` moves from `rest` to `done`. */
    method DrainOne(code: string, keyFor: string -> Result<string>, ghost toSend: set<string>, ghost rest: set<string>,
                    ghost done: set<string>, ghost start: nat, ghost before: set<string>)
      requires DrainState(toSend, rest, done, start, before, keyFor) && code in rest
      modifies this, client
      ensures DrainState(toSend, rest - {code}, done + {code}, start, before, keyFor)
      ensures |rest - {code}| < |rest|
    {
      MoveCode(toSend, rest, done, code);
      RequestNext(code, keyFor, start, before, done);
    }

    /** The request of one drained code, not yet subscribed before the drain or not. */
    method RequestNext(code: string, keyFor: string -> Result<string>, ghost start: nat, ghost before: set<string>,
                       ghost done: set<string>)
      requires Drained(start, before, done, keyFor) && code !in done && PadCode6(code) == code
      modifies this, client
      ensures Drained(start, before, done + {code}, keyFor)
    {
      DrainStep(before, done, code, keyFor);
      SendableWithin(done - before, keyFor);
      ghost var log := client.sent;
      RequestOnce(code, keyFor(code), start);
      if code !in before + done {
        SuffixAppend(log, start, SubscribeFrames(true, Some(code), keyFor(code)));
        KeyedByAppend(log[start..], code, keyFor);
      }
    }

    /** The loop of `onWsConnected` over the codes taken from pending. */
    method Drain(toSend: set<string>, keyFor: string -> Result<string>)
      requires Valid() && client.connected && pending == {}
      requires forall c :: c in toSend ==> PadCode6(c) == c
      modifies this, client
      ensures Valid() && client.connected && pending == {}
      ensures subscribed == old(subscribed) + toSend
      ensures |old(client.sent)| <= |client.sent| && DistinctKeys(client.sent[|old(client.sent)|..])
      ensures Keys(client.sent[|old(client.sent)|..]) == Sendable(toSend - old(subscribed), keyFor)
      ensures KeyedBy(client.sent[|old(client.sent)|..], keyFor)
    {
      ghost var start := |client.sent|;
      ghost var before := subscribed;
      var rest := toSend;
      ghost var done: set<string> := {};
      assert client.sent[start..] == [];
      SendableOfNone(before, keyFor);
      while rest != {}
        invariant DrainState(toSend, rest, done, start, before, keyFor) == true
        decreases |rest|
      {
        var code :| code in rest;
        DrainOne(code, keyFor, toSend, rest, done, start, before);
        rest := rest - {code};
        done := done + {code};
      }
      assert done == toSend;
    }

    /** `clearSubscribedCodes`: both sets emptied; a new connection may request any code. */
    method ClearSubscribedCodes()
      requires Valid()
      modifies this
      ensures Valid() && subscribed == {} && pending == {}
    {
      subscribed := {};
      pending := {};
      mark := |client.sent|;
    }
  }
}
