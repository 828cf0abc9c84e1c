/**
 * The pure logic of the market gateway (`KisApiService`): the access-token cache, defensive
 * field extraction from the gateway's JSON maps, stock-name selection, error messages,
 * keyword search over the volume ranking, index-code mapping, chart-period validation and
 * the order and cancel stubs. HTTP calls are replaced by the reply they produce.
 */
module KisApi {
  import opened Wrappers
  import opened JavaText
  import opened JavaNumbers
  import opened Domain

  /** A JSON scalar in a gateway reply: a string or an integral number. */
  datatype Scalar = Text(s: string) | Num(n: int)

  /** One JSON object of a gateway reply; a key mapped to JSON `null` is absent. */
  type Fields = map<string, Scalar>

  /** What a POST to the token or approval endpoint produced. */
  datatype GatewayReply =
    | Body(fields: Fields)
    | NullBody
    | HttpFailure(statusText: string, responseBody: Option<string>, message: string)
    | TransportFailure(message: string)

  const TOKEN_REFRESH_BUFFER_SECONDS: int := 60
  const DEFAULT_TOKEN_SECONDS: int := 86400
  const ERROR_CODE_KIS_NOT_CONFIGURED: string := "KIS_NOT_CONFIGURED"
  const NAME_KEYS: seq<string> := ["hts_kor_isnm", "itms_nm", "prdt_name", "kor_isnm", "stock_name", "stck_shrn_iscd"]
  const PRODUCT_TYPE_ABBREVS: set<string> := {"ETF", "ELW", "ETN"}
  const SEARCH_LIMIT: nat := 20

  /** `String.valueOf` of a scalar. */
  function ScalarText(v: Scalar): string {
    match v
    case Text(s) => s
    case Num(n) => IntToString(n)
  }

  /** `getString(m, key, default)`: the trimmed text of the value, or `default` when absent. */
  function GetString(m: Fields, key: string, default: Option<string>): (r: Option<string>)
    ensures key !in m ==> r == default
    ensures key in m ==> r == Some(Trim(ScalarText(m[key])))
  {
    if key !in m then default else Some(Trim(ScalarText(m[key])))
  }

  /** The text a numeric field is parsed from: trimmed, then every ',' removed. */
  function NumericText(v: Scalar): string {
    RemoveChar(Trim(ScalarText(v)), ',')
  }

  /** `getBigDecimal`: absent or unparsable gives `None`; a number is taken as is. */
  function GetBigDecimal(m: Fields, key: string): (r: Option<real>)
  {
    if key !in m then None
    else match m[key]
      case Num(n) => Some(n as real)
      case Text(_) => ParseBigDecimal(NumericText(m[key]))
  }

  /** `getLong`: absent or unparsable gives `None`. */
  function GetLong(m: Fields, key: string): (r: Option<int>)
  {
    if key !in m then None
    else match m[key]
      case Num(n) => Some(n)
      case Text(_) => ParseLong(NumericText(m[key]))
  }

  /** A digit group separator is dropped before parsing: the text `a,b` of two digit runs
      reads as the digits `ab`. */
  lemma GroupedText(a: string, b: string)
    requires a != [] && b != [] && AllDigits(a) && AllDigits(b)
    ensures NumericText(Text(a + [','] + b)) == a + b
  {
    var t := a + [','] + b;
    assert t[0] == a[0] && t[|t| - 1] == b[|b| - 1];
    TrimNoop(t);
    assert ScalarText(Text(t)) == t;
    RemoveCharAppend(a + [','], b, ',');
    RemoveCharAppend(a, [','], ',');
    RemoveCharAbsent(a, ',');
    RemoveCharAbsent(b, ',');
    assert RemoveChar([','], ',') == [];
    assert RemoveChar(a + [','], ',') == a;
    assert RemoveChar(t, ',') == a + b;
  }

  /** A ',' grouped number field is parsed as the number without the separator, by both
      `getLong` and `getBigDecimal`: "1,234" reads as 1234. */
  lemma GetLongStripsCommas(m: Fields, key: string, a: string, b: string)
    requires a != [] && b != [] && AllDigits(a) && AllDigits(b)
    requires key in m && m[key] == Text(a + [','] + b)
    ensures GetLong(m, key) == ParseLong(a + b)
    ensures GetBigDecimal(m, key) == ParseBigDecimal(a + b)
  {
    GroupedText(a, b);
  }

  /** A candidate name is used when it is non-blank, is not the code itself, is not six
      digits and is not a product-type abbreviation. */
  predicate UsableName(v: Option<string>, stockCode: string) {
    v.Some? && !IsBlank(v.value)
    && Trim(v.value) != stockCode && !IsSixDigits(Trim(v.value)) && Trim(v.value) !in PRODUCT_TYPE_ABBREVS
  }

  /** Position of the first key whose value is usable, or `|keys|`. */
  function FirstUsableKey(output: Fields, keys: seq<string>, stockCode: string): (r: nat)
    ensures r <= |keys|
    ensures r < |keys| ==> UsableName(GetString(output, keys[r], None), stockCode)
    ensures forall j :: 0 <= j < r ==> !UsableName(GetString(output, keys[j], None), stockCode)
  {
    if |keys| == 0 then 0
    else if UsableName(GetString(output, keys[0], None), stockCode) then 0
    else 1 + FirstUsableKey(output, keys[1..], stockCode)
  }

  function FallbackName(stockCode: string): string {
    "종목_" + stockCode
  }

  /** `getStockNameFromOutput`: the first usable candidate, else "종목_" + code. */
  function StockNameFromOutput(output: Fields, stockCode: string): (r: string)
  {
    var i := FirstUsableKey(output, NAME_KEYS, stockCode);
    if i < |NAME_KEYS| then Trim(GetString(output, NAME_KEYS[i], None).value) else FallbackName(stockCode)
  }

  /** The displayed name is never the code, never six digits and never ETF/ELW/ETN; when no
      candidate is usable it is the fallback. */
  lemma StockNameIsNeverTheCode(output: Fields, stockCode: string)
    ensures var r := StockNameFromOutput(output, stockCode);
      r != stockCode && !IsSixDigits(r) && r !in PRODUCT_TYPE_ABBREVS
    ensures (forall j :: 0 <= j < |NAME_KEYS| ==> !UsableName(GetString(output, NAME_KEYS[j], None), stockCode))
      ==> StockNameFromOutput(output, stockCode) == FallbackName(stockCode)
  {
    var i := FirstUsableKey(output, NAME_KEYS, stockCode);
    var f := FallbackName(stockCode);
    assert |f| > |stockCode|;
    assert f[0] == '종' && !IsAsciiDigit(f[0]);
    assert f !in PRODUCT_TYPE_ABBREVS by {
      assert f[0] != 'E';
    }
    if i < |NAME_KEYS| {
      TrimIdempotent(GetString(output, NAME_KEYS[i], None).value);
    }
  }

  /** `mapToStockPriceDTO`: missing or unparsable numbers become 0. */
  function MapToStockPrice(stockCode: string, output: Fields): (r: StockPrice)
    ensures r.stockCode == Some(stockCode)
    ensures r.currentPrice.Some? && r.changeAmount.Some? && r.changeRate.Some? && r.volume.Some?
  {
    StockPrice(
      Some(stockCode),
      Some(StockNameFromOutput(output, stockCode)),
      Some(GetBigDecimal(output, "stck_prpr").GetOr(0.0)),
      Some(GetBigDecimal(output, "prdy_vrss").GetOr(0.0)),
      Some(GetBigDecimal(output, "prdy_ctrt").GetOr(0.0)),
      Some(GetLong(output, "acml_vol").GetOr(0)))
  }

  /** Each of the four numbers is reported as read when it is present and parses, and as
      0 when it is absent or does not parse. */
  lemma MapToStockPriceDefaults(stockCode: string, output: Fields)
    ensures var r := MapToStockPrice(stockCode, output);
      (GetBigDecimal(output, "stck_prpr").None? ==> r.currentPrice == Some(0.0))
      && (GetBigDecimal(output, "stck_prpr").Some? ==> r.currentPrice == GetBigDecimal(output, "stck_prpr"))
      && (GetBigDecimal(output, "prdy_vrss").None? ==> r.changeAmount == Some(0.0))
      && (GetBigDecimal(output, "prdy_vrss").Some? ==> r.changeAmount == GetBigDecimal(output, "prdy_vrss"))
      && (GetBigDecimal(output, "prdy_ctrt").None? ==> r.changeRate == Some(0.0))
      && (GetBigDecimal(output, "prdy_ctrt").Some? ==> r.changeRate == GetBigDecimal(output, "prdy_ctrt"))
      && (GetLong(output, "acml_vol").None? ==> r.volume == Some(0))
      && (GetLong(output, "acml_vol").Some? ==> r.volume == GetLong(output, "acml_vol"))
      && ("acml_vol" !in output ==> r.volume == Some(0))
  {
  }

  function FirstPresent(m: Fields, key: string, alternative: string): Option<Scalar> {
    if key in m then Some(m[key]) else if alternative in m then Some(m[alternative]) else None
  }

  function TextOrEmpty(v: Option<Scalar>): string {
    if v.Some? then Trim(ScalarText(v.value)) else ""
  }

  function EmptyMark(s: string): string {
    if s == "" then "(empty)" else s
  }

  function ErrorHead(context: Option<string>): string {
    "KIS API error (" + context.GetOr("") + ")"
  }

  /** The " rt_cd=… msg_cd=… msg1=…" group, present when one of its three parts is. */
  function ErrorCodes(m: Fields): (r: string)
    ensures r == [] || (|r| > 1 && r[1] == 'r')
    ensures r == [] <==>
      TextOrEmpty(FirstPresent(m, "rt_cd", "rtCd")) == ""
      && TextOrEmpty(FirstPresent(m, "msg_cd", "msgCd")) == ""
      && TextOrEmpty(FirstPresent(m, "msg1", "message")) == ""
    ensures r != [] ==> StartsWith(r, " rt_cd=")
  {
    var rtCd := TextOrEmpty(FirstPresent(m, "rt_cd", "rtCd"));
    var msgCd := TextOrEmpty(FirstPresent(m, "msg_cd", "msgCd"));
    var msg1 := TextOrEmpty(FirstPresent(m, "msg1", "message"));
    if rtCd != "" || msgCd != "" || msg1 != ""
    then " rt_cd=" + EmptyMark(rtCd) + " msg_cd=" + EmptyMark(msgCd) + " msg1=" + EmptyMark(msg1)
    else ""
  }

  /** The " error=… error_description=…" group, present when one of its two parts is. */
  function ErrorOAuth(m: Fields): (r: string)
    ensures r == [] || (|r| > 1 && r[1] == 'e')
    ensures r == [] <==>
      TextOrEmpty(if "error" in m then Some(m["error"]) else None) == ""
      && TextOrEmpty(if "error_description" in m then Some(m["error_description"]) else None) == ""
    ensures r != [] ==> StartsWith(r, " error=")
  {
    var err := TextOrEmpty(if "error" in m then Some(m["error"]) else None);
    var errDesc := TextOrEmpty(if "error_description" in m then Some(m["error_description"]) else None);
    if err != "" || errDesc != ""
    then " error=" + EmptyMark(err) + " error_description=" + EmptyMark(errDesc)
    else ""
  }

  /** `kisErrorMessage`: the gateway's result code, message code and message, then its
      OAuth error fields, each group only when one of its parts is present. */
  function KisErrorMessage(body: Option<Fields>, context: Option<string>): string
  {
    if body.None? then ErrorHead(context) + " response body is null"
    else
      var sb := ErrorHead(context) + ErrorCodes(body.value) + ErrorOAuth(body.value);
      if |sb| == |ErrorHead(context)| then sb + " (no detail in response)" else sb
  }

  /** True when a reply carries none of the five detail fields (after trimming). */
  predicate NoErrorDetail(m: Fields) {
    TextOrEmpty(FirstPresent(m, "rt_cd", "rtCd")) == ""
    && TextOrEmpty(FirstPresent(m, "msg_cd", "msgCd")) == ""
    && TextOrEmpty(FirstPresent(m, "msg1", "message")) == ""
    && TextOrEmpty(if "error" in m then Some(m["error"]) else None) == ""
    && TextOrEmpty(if "error_description" in m then Some(m["error_description"]) else None) == ""
  }

  /** Every message starts with the context head. */
  lemma KisErrorMessageHead(body: Option<Fields>, context: Option<string>)
    ensures StartsWith(KisErrorMessage(body, context), ErrorHead(context))
  {
    var head := ErrorHead(context);
    var r := KisErrorMessage(body, context);
    assert r[..|head|] == head;
  }

  /** A detail group starts with a blank and then a letter other than '('. */
  lemma DetailDiffers(head: string, codes: string, oauth: string)
    requires codes == [] || (|codes| > 1 && codes[1] == 'r')
    requires oauth == [] || (|oauth| > 1 && oauth[1] == 'e')
    requires codes != [] || oauth != []
    ensures head + codes + oauth != head + " (no detail in response)"
  {
    var sb := head + codes + oauth;
    var nodetail := head + " (no detail in response)";
    assert nodetail[|head| + 1] == '(';
    if codes != [] {
      assert sb[|head| + 1] == codes[1];
    } else {
      assert sb == head + oauth;
      assert sb[|head| + 1] == oauth[1];
    }
  }

  lemma DetailedMessage(m: Fields, context: Option<string>)
    requires ErrorCodes(m) != [] || ErrorOAuth(m) != []
    ensures KisErrorMessage(Some(m), context) != ErrorHead(context) + " (no detail in response)"
  {
    var head, codes, oauth := ErrorHead(context), ErrorCodes(m), ErrorOAuth(m);
    assert |head + codes + oauth| != |head|;
    DetailDiffers(head, codes, oauth);
  }

  /** "(no detail in response)" is added exactly when the reply has no detail field. */
  lemma KisErrorMessageNoDetail(m: Fields, context: Option<string>)
    ensures KisErrorMessage(Some(m), context) == ErrorHead(context) + " (no detail in response)"
      <==> NoErrorDetail(m)
  {
    assert NoErrorDetail(m) <==> ErrorCodes(m) == [] && ErrorOAuth(m) == [];
    if !NoErrorDetail(m) {
      DetailedMessage(m, context);
    }
  }

  /** `parseTokenExpiresIn`: a numeric "expires_in" narrowed to `int`; else the seconds until
      the "access_token_token_expired" timestamp when that parses and is positive; else a day.
      `secondsUntil` stands for the `LocalDateTime` parse and the clock. */
  function ParseTokenExpiresIn(res: Fields, secondsUntil: string -> Option<int>): (r: int)
    ensures InInt(r)
  {
    if "expires_in" in res && res["expires_in"].Num? then Wrap32(res["expires_in"].n)
    else
      var expired := GetString(res, "access_token_token_expired", None);
      if expired.Some? && !IsBlank(expired.value) then
        match secondsUntil(Trim(expired.value))
        case Some(seconds) => if seconds > 0 then Wrap32(seconds) else DEFAULT_TOKEN_SECONDS
        case None => DEFAULT_TOKEN_SECONDS
      else DEFAULT_TOKEN_SECONDS
  }

  /** Without a numeric "expires_in" and without a parsable future expiry the token lives a
      day; an "expires_in" within `int` range is taken as is. */
  lemma TokenLifetimeDefault(res: Fields, secondsUntil: string -> Option<int>)
    ensures ("expires_in" in res && res["expires_in"].Num? && InInt(res["expires_in"].n))
      ==> ParseTokenExpiresIn(res, secondsUntil) == res["expires_in"].n
    ensures (!("expires_in" in res && res["expires_in"].Num?) && "access_token_token_expired" !in res)
      ==> ParseTokenExpiresIn(res, secondsUntil) == DEFAULT_TOKEN_SECONDS
  {
  }

  /** The cached token is reused only when present and `now` is before expiry minus 60 s. */
  predicate TokenFresh(cached: Option<string>, expiresAtMillis: int, now: int) {
    cached.Some? && now < expiresAtMillis - TOKEN_REFRESH_BUFFER_SECONDS * 1000
  }

  /** A token issued at `now` with lifetime `seconds` is reused exactly until 60 s before
      it expires; one issued with 60 s or less is never reused. */
  lemma TokenFreshWindow(token: string, now: int, seconds: int, later: int)
    ensures TokenFresh(Some(token), now + seconds * 1000, later) <==> later - now < (seconds - 60) * 1000
    ensures seconds <= 60 && later >= now ==> !TokenFresh(Some(token), now + seconds * 1000, later)
  {
  }

  /** The first usable token field: "access_token", else "accessToken". */
  function TokenFromReply(res: Fields): Option<string> {
    var t := GetString(res, "access_token", None);
    if !NullOrBlank(t) then t
    else
      var alt := GetString(res, "accessToken", None);
      if !NullOrBlank(alt) then alt else None
  }

  function NotConfigured(): Error {
    Api(InternalServerError, "KIS API appkey/appsecret not configured")
  }

  function ConfigValue(v: Option<string>): string {
    if v.Some? then Trim(v.value) else ""
  }

  /** The remote failures of a POST, as `getAccessToken` reports them. */
  function TokenRequestFailure(reply: GatewayReply): Error
    requires !reply.Body?
  {
    match reply
    case NullBody => Api(ServiceUnavailable, "KIS token response body is null")
    case HttpFailure(status, body, message) =>
      Api(ServiceUnavailable, "KIS token request failed: " + status + " " + (if body.Some? then body.value else message))
    case TransportFailure(message) => Api(ServiceUnavailable, "KIS token request failed: " + message)
  }

  /**
   * The configuration and the token cache of the gateway client. `issueCalls` counts the
   * POSTs to the token endpoint and `revokedTokens` logs the tokens sent to the revoke
   * endpoint.
   */
  class KisApiService {
    const appkey: Option<string>
    const appsecret: Option<string>
    var cachedAccessToken: Option<string>
    var tokenExpiresAtMillis: int
    var issueCalls: nat
    var revokedTokens: seq<string>

    constructor (appkey: Option<string>, appsecret: Option<string>)
      ensures this.appkey == appkey && this.appsecret == appsecret
      ensures cachedAccessToken == None && tokenExpiresAtMillis == 0
      ensures issueCalls == 0 && revokedTokens == []
    {
      this.appkey := appkey;
      this.appsecret := appsecret;
      cachedAccessToken := None;
      tokenExpiresAtMillis := 0;
      issueCalls := 0;
      revokedTokens := [];
    }

    /** `isConfigured`: both credentials present and not blank. */
    predicate IsConfigured() {
      appkey.Some? && !IsBlank(appkey.value) && appsecret.Some? && !IsBlank(appsecret.value)
    }

    /** The credential test of the token and approval calls, on the trimmed values. */
    predicate CredentialsPresent() {
      !IsBlank(ConfigValue(appkey)) && !IsBlank(ConfigValue(appsecret))
    }

    /**
     * `getAccessToken` with the clock reading `now` before the call; `reply` is what the
     * token endpoint answers if it is called, and `issuedAt` the clock read again once the
     * reply is in, from which the expiry is stamped. The cached token is returned without a
     * call while it is fresh. The second freshness test under the lock sees the same cache
     * and a clock no earlier than `now`, so it never finds fresh what the first did not.
     */
    method GetAccessToken(now: int, reply: GatewayReply, secondsUntil: string -> Option<int>, issuedAt: int)
      returns (r: Result<string>)
      modifies this
      ensures !CredentialsPresent() ==> r == Err(NotConfigured()) && unchanged(this)
      ensures CredentialsPresent() && TokenFresh(old(cachedAccessToken), old(tokenExpiresAtMillis), now)
        ==> r == Ok(old(cachedAccessToken).value) && unchanged(this)
      ensures CredentialsPresent() && !TokenFresh(old(cachedAccessToken), old(tokenExpiresAtMillis), now)
        ==> (issueCalls == old(issueCalls) + 1 && revokedTokens == old(revokedTokens)
          && match reply
             case Body(res) =>
               if TokenFromReply(res).None? then
                 r == Err(Api(ServiceUnavailable, "KIS 접근토큰 발급 실패. " + KisErrorMessage(Some(res), Some("token"))))
                 && cachedAccessToken == old(cachedAccessToken) && tokenExpiresAtMillis == old(tokenExpiresAtMillis)
               else
                 r == Ok(TokenFromReply(res).value) && cachedAccessToken == TokenFromReply(res)
                 && tokenExpiresAtMillis == issuedAt + ParseTokenExpiresIn(res, secondsUntil) * 1000
             case _ =>
               r == Err(TokenRequestFailure(reply))
               && cachedAccessToken == old(cachedAccessToken) && tokenExpiresAtMillis == old(tokenExpiresAtMillis))
    {
      if !CredentialsPresent() {
        return Err(NotConfigured());
      }
      if TokenFresh(cachedAccessToken, tokenExpiresAtMillis, now) {
        return Ok(cachedAccessToken.value);
      }
      issueCalls := issueCalls + 1;
      if !reply.Body? {
        return Err(TokenRequestFailure(reply));
      }
      var res := reply.fields;
      var token := TokenFromReply(res);
      if token.None? {
        return Err(Api(ServiceUnavailable, "KIS 접근토큰 발급 실패. " + KisErrorMessage(Some(res), Some("token"))));
      }
      var expiresIn := ParseTokenExpiresIn(res, secondsUntil);
      cachedAccessToken := token;
      tokenExpiresAtMillis := issuedAt + expiresIn * 1000;
      r := Ok(token.value);
    }

    /**
     * `revokeAccessToken`: the cache is emptied before any remote call; the revoke endpoint
     * is called only when a non-blank token was cached, and its failure is ignored.
     */
    method RevokeAccessToken() returns (r: Result<()>)
      modifies this
      ensures !CredentialsPresent() ==> r == Err(NotConfigured()) && unchanged(this)
      ensures CredentialsPresent() ==>
        (r == Ok(()) && cachedAccessToken == None && tokenExpiresAtMillis == 0
         && issueCalls == old(issueCalls)
         && revokedTokens == old(revokedTokens) + (if NullOrBlank(old(cachedAccessToken)) then [] else [old(cachedAccessToken).value]))
    {
      if !CredentialsPresent() {
        return Err(NotConfigured());
      }
      var toRevoke := cachedAccessToken;
      cachedAccessToken := None;
      tokenExpiresAtMillis := 0;
      if !NullOrBlank(toRevoke) {
        revokedTokens := revokedTokens + [toRevoke.value];
      }
      r := Ok(());
    }

    /** `getWebSocketApprovalKey`: "approval_key", else "approvalKey", from the approval endpoint. */
    function ApprovalKey(reply: GatewayReply): (r: Result<string>)
      ensures r.Ok? ==> !IsBlank(r.value)
      ensures !CredentialsPresent() ==> r == Err(NotConfigured())
      ensures CredentialsPresent() && !reply.Body? ==> FailsWith(r, ServiceUnavailable)
      ensures CredentialsPresent() && reply.Body? ==>
        var first := GetString(reply.fields, "approval_key", None);
        var second := GetString(reply.fields, "approvalKey", None);
        (!NullOrBlank(first) ==> r == Ok(first.value))
        && (NullOrBlank(first) && !NullOrBlank(second) ==> r == Ok(second.value))
        && (NullOrBlank(first) && NullOrBlank(second) ==>
              r == Err(Api(ServiceUnavailable, "KIS 실시간 접속키 발급 실패. " + KisErrorMessage(Some(reply.fields), Some("approval")))))
    {
      if !CredentialsPresent() then Err(NotConfigured())
      else match reply
        case NullBody => Err(Api(ServiceUnavailable, "KIS approval response body is null"))
        case HttpFailure(_, _, message) => Err(Api(ServiceUnavailable, "KIS approval request failed: " + message))
        case TransportFailure(message) => Err(Api(ServiceUnavailable, "KIS approval request failed: " + message))
        case Body(res) =>
          var k := GetString(res, "approval_key", None);
          var key := if NullOrBlank(k) then GetString(res, "approvalKey", None) else k;
          if NullOrBlank(key) then Err(Api(ServiceUnavailable, "KIS 실시간 접속키 발급 실패. " + KisErrorMessage(Some(res), Some("approval"))))
          else Ok(key.value)
    }
  }

  /** After revoking, the next token request always goes to the endpoint. */
  lemma RevokedTokenIsNotFresh(now: int)
    ensures !TokenFresh(None, 0, now)
  {
  }

  /** The code field of a volume-ranking item: "mksc_shrn_iscd", else "iscd", else "". */
  function VolumeRankCode(item: Fields): Option<string> {
    GetString(item, "mksc_shrn_iscd", GetString(item, "iscd", Some("")))
  }

  /** The quote one ranking item contributes: one when its code is non-blank, else none. */
  function RankItem(item: Fields): (r: seq<StockPrice>)
    ensures |r| <= 1
    ensures |r| == 1 <==> !NullOrBlank(VolumeRankCode(item))
    ensures |r| == 1 ==> r[0].stockCode == VolumeRankCode(item)
  {
    var code := VolumeRankCode(item);
    if !NullOrBlank(code) then [MapToStockPrice(code.value, item)] else []
  }

  /** The items of a ranking reply that carry a non-blank code, mapped to quotes, in order. */
  function RankItems(items: seq<Fields>): (r: seq<StockPrice>)
    ensures |r| <= |items|
  {
    if |items| == 0 then [] else RankItem(items[0]) + RankItems(items[1..])
  }

  /** Every quote of the ranking has a non-blank code. */
  lemma {:induction false} RankItemsHaveCodes(items: seq<Fields>)
    ensures forall k :: 0 <= k < |RankItems(items)| ==>
      RankItems(items)[k].stockCode.Some? && !IsBlank(RankItems(items)[k].stockCode.value)
  {
    if |items| > 0 {
      RankItemsHaveCodes(items[1..]);
      var r := RankItems(items[1..]);
      forall k | 0 <= k < |RankItems(items)|
        ensures RankItems(items)[k].stockCode.Some? && !IsBlank(RankItems(items)[k].stockCode.value)
      {
        if k >= |RankItem(items[0])| {
          assert RankItems(items)[k] == r[k - |RankItem(items[0])|];
        }
      }
    }
  }

  lemma {:induction false} RankItemsAppend(items: seq<Fields>, item: Fields)
    ensures RankItems(items + [item]) == RankItems(items) + RankItem(item)
  {
    if |items| > 0 {
      assert (items + [item])[1..] == items[1..] + [item];
      RankItemsAppend(items[1..], item);
      assert RankItems(items + [item]) == RankItem(items[0]) + (RankItems(items[1..]) + RankItem(item));
    } else {
      assert items + [item] == [item];
      assert [item][1..] == [];
    }
  }

  lemma RankItemsStep(items: seq<Fields>, i: nat)
    requires i < |items|
    ensures RankItems(items[..i + 1]) == RankItems(items[..i]) + RankItem(items[i])
  {
    assert items[..i + 1] == items[..i] + [items[i]];
    RankItemsAppend(items[..i], items[i]);
  }

  /** One pass of the item loop of `getVolumeRank`: an item with a blank or missing code is
      skipped, any other is mapped to a quote and added. */
  method AddRankItem(list: seq<StockPrice>, item: Fields) returns (r: seq<StockPrice>)
    ensures r == list + RankItem(item)
  {
    var code := VolumeRankCode(item);
    if code.None? || IsBlank(code.value) {
      return list;
    }
    r := list + [MapToStockPrice(code.value, item)];
  }

  /** The item loop of `getVolumeRank`: one quote per item with a non-blank code. */
  method BuildVolumeRank(items: seq<Fields>) returns (list: seq<StockPrice>)
    ensures list == RankItems(items)
  {
    list := [];
    var i := 0;
    while i < |items|
      invariant 0 <= i <= |items|
      invariant list == RankItems(items[..i])
    {
      RankItemsStep(items, i);
      list := AddRankItem(list, items[i]);
      i := i + 1;
    }
    assert items[..i] == items;
  }

  /** The search predicate: the lowercased name or the lowercased code contains `k`. */
  predicate MatchesKeyword(s: StockPrice, k: string) {
    (s.stockName.Some? && Contains(ToLower(s.stockName.value), k))
    || (s.stockCode.Some? && Contains(ToLower(s.stockCode.value), k))
  }

  /** The quotes of `list` that match `k`, in the order of `list`. */
  function FilterMatches(list: seq<StockPrice>, k: string): (r: seq<StockPrice>)
    ensures |r| <= |list|
    ensures forall x :: x in r ==> x in list && MatchesKeyword(x, k)
    ensures forall x :: x in list && MatchesKeyword(x, k) ==> x in r
  {
    if |list| == 0 then []
    else (if MatchesKeyword(list[0], k) then [list[0]] else []) + FilterMatches(list[1..], k)
  }

  /** One quote is kept exactly when it matches. */
  lemma FilterMatchesOne(x: StockPrice, k: string)
    ensures FilterMatches([x], k) == (if MatchesKeyword(x, k) then [x] else [])
  {
    assert [x][1..] == [];
  }

  /** The filter keeps order: filtering a concatenation filters each part in turn. */
  lemma {:induction false} FilterMatchesAppend(a: seq<StockPrice>, b: seq<StockPrice>, k: string)
    ensures FilterMatches(a + b, k) == FilterMatches(a, k) + FilterMatches(b, k)
    decreases |a|
  {
    if |a| > 0 {
      var head := if MatchesKeyword(a[0], k) then [a[0]] else [];
      assert (a + b)[0] == a[0] && (a + b)[1..] == a[1..] + b;
      assert FilterMatches(a + b, k) == head + FilterMatches(a[1..] + b, k);
      FilterMatchesAppend(a[1..], b, k);
      assert FilterMatches(a, k) == head + FilterMatches(a[1..], k);
    } else {
      assert a + b == b;
    }
  }

  function Take<T>(s: seq<T>, n: nat): (r: seq<T>)
    ensures |r| <= n && |r| <= |s| && r == s[..|r|]
    ensures |s| <= n ==> r == s
  {
    if |s| <= n then s else s[..n]
  }

  /**
   * `searchStocks`: `volumeRank` is the outcome of `getVolumeRank()`. An `ApiException`
   * propagates; any other failure gives the empty list.
   */
  function SearchStocks(keyword: Option<string>, volumeRank: Result<seq<StockPrice>>): Result<seq<StockPrice>>
  {
    if NullOrBlank(keyword) then Ok([])
    else
      var k := ToLower(Trim(keyword.value));
      match volumeRank
      case Err(e) => if e.ApiError? then Err(e) else Ok([])
      case Ok(list) => Ok(Take(FilterMatches(list, k), SEARCH_LIMIT))
  }

  /** Search keeps the first 20 matching quotes of the ranking, in the ranking's order (all
      of them when there are fewer), and nothing that does not match. */
  lemma SearchStocksSpec(keyword: string, list: seq<StockPrice>)
    requires !IsBlank(keyword)
    ensures var r := SearchStocks(Some(keyword), Ok(list));
      var k := ToLower(Trim(keyword));
      var all := FilterMatches(list, k);
      r.Ok? && |r.value| == (if |all| <= SEARCH_LIMIT then |all| else SEARCH_LIMIT)
      && r.value == all[..|r.value|]
      && (forall x :: x in r.value ==> x in list && MatchesKeyword(x, k))
      && (|all| <= SEARCH_LIMIT ==> forall x :: x in list && MatchesKeyword(x, k) ==> x in r.value)
  {
    var k := ToLower(Trim(keyword));
    var all := FilterMatches(list, k);
    var r := Take(all, SEARCH_LIMIT);
    forall x | x in r ensures x in list && MatchesKeyword(x, k) {
      assert x in all;
    }
  }

  /** A blank keyword searches nothing; a non-`ApiException` failure reads as no match. */
  lemma SearchStocksFailures(keyword: Option<string>, e: Error)
    ensures NullOrBlank(keyword) ==> SearchStocks(keyword, Err(e)) == Ok([])
    ensures !NullOrBlank(keyword) ==> SearchStocks(keyword, Err(e)) == (if e.ApiError? then Err(e) else Ok([]))
  {
  }

  /** `toIndexFidInputIscd`: "1001" exactly when the trimmed, upper-cased code contains
      "KOSDAQ" or the trimmed code is "1001"; "0001" otherwise. */
  function IndexFidInputIscd(indexCode: Option<string>): (r: string)
    ensures r == "1001" || r == "0001"
    ensures r == "1001" <==>
      indexCode.Some? && (Contains(ToUpper(Trim(indexCode.value)), "KOSDAQ") || Trim(indexCode.value) == "1001")
  {
    if indexCode.None? then "0001"
    else
      var upper := ToUpper(Trim(indexCode.value));
      if Contains(upper, "KOSDAQ") || Trim(indexCode.value) == "1001" then "1001" else "0001"
  }

  /** A code holding "kosdaq" in any mix of letter cases selects the KOSDAQ index. */
  lemma IndexCodeByName(indexCode: string)
    requires Contains(ToLower(Trim(indexCode)), "kosdaq")
    ensures IndexFidInputIscd(Some(indexCode)) == "1001"
  {
    assert ToUpper("kosdaq") == "KOSDAQ";
    LowerContainsUpper(Trim(indexCode), "kosdaq");
  }

  /** "1001", with surrounding blanks, selects the KOSDAQ index. */
  lemma IndexCodeByNumber()
    ensures IndexFidInputIscd(Some(" 1001 ")) == "1001"
  {
    assert Trim(" 1001 ") == "1001";
  }

  /** Any other code, and a missing one, selects KOSPI. */
  lemma IndexCodeDefault()
    ensures IndexFidInputIscd(Some("KOSPI")) == "0001"
    ensures IndexFidInputIscd(None) == "0001"
  {
    assert Trim("KOSPI") == "KOSPI";
    assert ToUpper("KOSPI") == "KOSPI";
    NotContainsLonger("KOSPI", "KOSDAQ");
  }

  predicate ValidPeriod(p: string) {
    p == "D" || p == "W" || p == "M" || p == "Y"
  }

  /** The period letters `getIndexChartPrice` takes, in either case. */
  predicate PeriodLetter(c: char) {
    c == 'D' || c == 'W' || c == 'M' || c == 'Y' || c == 'd' || c == 'w' || c == 'm' || c == 'y'
  }

  /** A one-letter text is a valid period exactly when it is one of D, W, M and Y. */
  lemma ValidPeriodOfLetter(c: char)
    ensures ValidPeriod([c]) <==> c == 'D' || c == 'W' || c == 'M' || c == 'Y'
  {
    assert "D" == ['D'] && "W" == ['W'] && "M" == ['M'] && "Y" == ['Y'];
  }

  /** Upper-casing gives one of D, W, M and Y exactly for one period letter of either case. */
  lemma UpperValidPeriod(t: string)
    ensures ValidPeriod(ToUpper(t)) <==> |t| == 1 && PeriodLetter(t[0])
  {
    var u := ToUpper(t);
    if |t| == 1 {
      assert u == [UpperChar(t[0])];
      ValidPeriodOfLetter(UpperChar(t[0]));
    } else {
      assert |u| != 1;
    }
  }

  /** The chart period: `null` is "D"; otherwise the trimmed, uppercased value, which is
      accepted exactly when the trimmed value is one period letter of either case. */
  function ChartPeriod(periodDivCode: Option<string>): (r: string)
    ensures periodDivCode.None? ==> r == "D"
    ensures periodDivCode.Some? ==>
      (ValidPeriod(r) <==> |Trim(periodDivCode.value)| == 1 && PeriodLetter(Trim(periodDivCode.value)[0]))
    ensures periodDivCode.Some? && ValidPeriod(r) ==> r == [UpperChar(Trim(periodDivCode.value)[0])]
  {
    if periodDivCode.None? then "D"
    else
      UpperValidPeriod(Trim(periodDivCode.value));
      ToUpper(Trim(periodDivCode.value))
  }

  /** The input validation of `getIndexChartPrice`: the index code and period sent on success. */
  function IndexChartRequest(indexCode: Option<string>, startDate: Option<string>, endDate: Option<string>,
                             periodDivCode: Option<string>, configured: bool): (r: Result<(string, string)>)
    ensures NullOrBlank(indexCode) ==> FailsWith(r, BadRequest)
    ensures NullOrBlank(startDate) || NullOrBlank(endDate) ==> FailsWith(r, BadRequest)
    ensures !ValidPeriod(ChartPeriod(periodDivCode)) ==> FailsWith(r, BadRequest)
    ensures r.Ok? <==>
      !NullOrBlank(indexCode) && !NullOrBlank(startDate) && !NullOrBlank(endDate)
      && ValidPeriod(ChartPeriod(periodDivCode)) && configured
    ensures r.Ok? ==> r.value == (IndexFidInputIscd(indexCode), ChartPeriod(periodDivCode))
  {
    if NullOrBlank(indexCode) then Err(Api(BadRequest, "Index code is required"))
    else if NullOrBlank(startDate) || NullOrBlank(endDate) then Err(Api(BadRequest, "Start date and end date are required (yyyyMMdd)"))
    else if !ValidPeriod(ChartPeriod(periodDivCode)) then Err(Api(BadRequest, "period must be D(일봉), W(주봉), M(월봉), or Y(년봉)"))
    else if !configured then Err(ApiError(ServiceUnavailable, "KIS API가 설정되지 않았습니다.", Some(ERROR_CODE_KIS_NOT_CONFIGURED)))
    else Ok((IndexFidInputIscd(indexCode), ChartPeriod(periodDivCode)))
  }

  /** With the code and dates present and the gateway configured, a missing period is daily. */
  lemma ChartPeriodDefault(indexCode: string, startDate: string, endDate: string)
    requires !IsBlank(indexCode) && !IsBlank(startDate) && !IsBlank(endDate)
    ensures IndexChartRequest(Some(indexCode), Some(startDate), Some(endDate), None, true)
      == Ok((IndexFidInputIscd(Some(indexCode)), "D"))
  {
  }

  /** With the code and dates present and the gateway configured, a period is accepted
      exactly when, trimmed, it is one letter D, W, M or Y of either case, and it is sent
      upper-cased. */
  lemma ChartPeriodLowerCase(indexCode: string, startDate: string, endDate: string, period: string)
    requires !IsBlank(indexCode) && !IsBlank(startDate) && !IsBlank(endDate)
    ensures var r := IndexChartRequest(Some(indexCode), Some(startDate), Some(endDate), Some(period), true);
      (r.Ok? <==> |Trim(period)| == 1 && PeriodLetter(Trim(period)[0]))
      && (r.Ok? ==> r.value.1 == [UpperChar(Trim(period)[0])])
  {
  }

  /** Any other period is a bad request, whatever the other arguments and configured or not. */
  lemma ChartPeriodRefused(indexCode: Option<string>, startDate: Option<string>, endDate: Option<string>,
                           period: string, configured: bool)
    requires !(|Trim(period)| == 1 && PeriodLetter(Trim(period)[0]))
    ensures FailsWith(IndexChartRequest(indexCode, startDate, endDate, Some(period), configured), BadRequest)
  {
  }

  /** What the order stub acknowledges. */
  datatype OrderAck = OrderAck(
    stockCode: string,
    quantity: int,
    price: real,
    orderType: OrderType,
    status: OrderStatus,
    orderDate: int,
    externalOrderNo: string,
    message: string)

  /** `placeOrder`: validation, then the stub acknowledgement "ORD-<millis>". */
  function PlaceOrder(stockCode: Option<string>, quantity: int, price: Option<real>, orderType: OrderType, nowMillis: int)
    : (r: Result<OrderAck>)
  {
    if NullOrBlank(stockCode) then Err(Api(BadRequest, "Stock code is required"))
    else if quantity <= 0 || price.None? || price.value <= 0.0 then Err(Api(BadRequest, "Invalid order parameters"))
    else Ok(OrderAck(stockCode.value, quantity, price.value, orderType, Completed, nowMillis,
                     "ORD-" + IntToString(nowMillis), "Stub order accepted"))
  }

  /** The stub accepts exactly the orders with a code, a positive quantity and a positive
      price, and echoes them as COMPLETED. */
  lemma PlaceOrderAccepts(stockCode: Option<string>, quantity: int, price: Option<real>, orderType: OrderType, nowMillis: int)
    ensures PlaceOrder(stockCode, quantity, price, orderType, nowMillis).Ok?
      <==> !NullOrBlank(stockCode) && quantity > 0 && price.Some? && price.value > 0.0
    ensures var r := PlaceOrder(stockCode, quantity, price, orderType, nowMillis);
      r.Ok? ==>
        (r.value.status == Completed && Some(r.value.stockCode) == stockCode
         && r.value.quantity == quantity && Some(r.value.price) == price
         && StartsWith(r.value.externalOrderNo, "ORD-"))
  {
  }

  /** `cancelOrder`: only a missing order number is refused. */
  function CancelOrder(orderNo: Option<string>): (r: Result<()>)
    ensures r.Ok? <==> !NullOrBlank(orderNo)
  {
    if NullOrBlank(orderNo) then Err(Api(BadRequest, "Order number is required")) else Ok(())
  }
}
