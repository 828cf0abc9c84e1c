/**
 * `KisWebSocketConnectionRunner`: opens the KIS real-time socket once the application is
 * ready and, each time that socket closes, schedules a reconnect with a linear backoff,
 * at most twice over the life of the runner. The scheduler, the socket client and the
 * handler's close callback become the runner's record of what was handed to them: the
 * delays passed to `scheduler.schedule`, the URIs passed to `client.execute`, and how many
 * of the scheduled connects have run and how many sessions have closed.
 */
module KisWsRunner {
  import opened Wrappers
  import opened JavaNumbers
  import opened JavaUrl
  import opened KisApi

  const MAX_RECONNECT_ATTEMPTS: int := 2
  const BACKOFF_MS: int := 1000
  const APPROVAL_QUERY: string := "?approval_key="

  /** The URI `connect` opens: `baseUrl + "?approval_key=" + URLEncoder.encode(key, UTF_8)`. */
  function ConnectUri(baseUrl: string, approvalKey: string): string {
    baseUrl + APPROVAL_QUERY + Encode(approvalKey)
  }

  /** What one `connect` hands to `client.execute`, if anything. Nothing when KIS is not
      configured; nothing either when the approval key cannot be had, since that exception
      is caught and only logged. `baseUrl` is what `getKisWebSocketBaseUrl` returns. */
  function ConnectTarget(kis: KisApiService, reply: GatewayReply, baseUrl: string): (r: Option<string>)
    ensures r.Some? <==> kis.IsConfigured() && kis.ApprovalKey(reply).Ok?
    ensures r.Some? ==>
      var n := |baseUrl| + |APPROVAL_QUERY|;
      |r.value| >= n && r.value[..n] == baseUrl + APPROVAL_QUERY
      && Decode(r.value[n..]) == Some(Utf8String(kis.ApprovalKey(reply).value))
      && forall i :: n <= i < |r.value| ==> QuerySafe(r.value[i])
  {
    if !kis.IsConfigured() then None
    else
      var key := kis.ApprovalKey(reply);
      if key.Err? then None
      else
        var uri := ConnectUri(baseUrl, key.value);
        assert uri[|baseUrl| + |APPROVAL_QUERY|..] == Encode(key.value);
        DecodeEncode(key.value);
        Some(uri)
  }

  function Targets(t: Option<string>): (r: seq<string>)
    ensures |r| <= 1
  {
    if t.Some? then [t.value] else []
  }

  /** The delays scheduled by the first `closes` closes of a fresh runner: close number n
      schedules a connect after n × 1000 ms while n is at most 2, and nothing after. */
  function Backoffs(closes: nat): seq<int> {
    if closes == 0 then []
    else Backoffs(closes - 1) + (if closes <= MAX_RECONNECT_ATTEMPTS then [closes * BACKOFF_MS] else [])
  }

  /** However many times the socket closes, at most two reconnects are scheduled, the
      first after one second and the second after two. */
  lemma {:induction false} BackoffsBounded(closes: nat)
    ensures |Backoffs(closes)| == if closes <= MAX_RECONNECT_ATTEMPTS then closes else MAX_RECONNECT_ATTEMPTS
    ensures forall k :: 0 <= k < |Backoffs(closes)| ==> Backoffs(closes)[k] == (k + 1) * BACKOFF_MS
  {
    if closes > 0 {
      BackoffsBounded(closes - 1);
    }
  }

  class KisWebSocketConnectionRunner {
    const kis: KisApiService
    /** `reconnectCount`, a Java `int`. */
    var reconnectCount: int
    /** The delay of every `scheduler.schedule(this::connect, …)`, in order. */
    var scheduled: seq<int>
    /** How many of the scheduled connects the scheduler has run. */
    var ran: nat
    /** The URI of every `client.execute`, in order. */
    var requests: seq<string>
    /** How many opened sessions have closed (each runs the close callback once). */
    var closes: nat
    /** Whether `ApplicationReadyEvent` has been delivered. */
    var started: bool

    /** Every close was counted, the counter never wrapped, the schedule is the one the
        closes produce, and every connect came from the start-up event or a scheduled run. */
    predicate Valid()
      reads this
    {
      ran <= |scheduled| && closes <= |requests|
      && |requests| <= (if started then 1 else 0) + ran
      && reconnectCount == closes && scheduled == Backoffs(closes)
    }

    constructor (kis: KisApiService)
      ensures Valid() && this.kis == kis && !started
      ensures reconnectCount == 0 && scheduled == [] && ran == 0 && requests == [] && closes == 0
    {
      this.kis := kis;
      reconnectCount := 0;
      scheduled := [];
      ran := 0;
      requests := [];
      closes := 0;
      started := false;
    }

    /** `connect`: opens the socket when KIS is configured and the approval key is issued. */
    method Connect(reply: GatewayReply, baseUrl: string)
      modifies this
      ensures requests == old(requests) + Targets(ConnectTarget(kis, reply, baseUrl))
      ensures reconnectCount == old(reconnectCount) && scheduled == old(scheduled)
      ensures ran == old(ran) && closes == old(closes) && started == old(started)
    {
      if !kis.IsConfigured() {
        return;
      }
      var approvalKey := kis.ApprovalKey(reply);
      if approvalKey.Err? {
        return;
      }
      var uri := ConnectUri(baseUrl, approvalKey.value);
      requests := requests + [uri];
    }

    /** `onApplicationEvent`: the first connect. Spring Boot publishes
        `ApplicationReadyEvent` once per run. */
    method OnApplicationEvent(reply: GatewayReply, baseUrl: string)
      requires Valid() && !started
      modifies this
      ensures Valid() && started
      ensures requests == old(requests) + Targets(ConnectTarget(kis, reply, baseUrl))
      ensures reconnectCount == old(reconnectCount) && scheduled == old(scheduled)
      ensures ran == old(ran) && closes == old(closes)
    {
      started := true;
      Connect(reply, baseUrl);
    }

    /** The scheduler running the next scheduled `connect`. */
    method RunScheduledConnect(reply: GatewayReply, baseUrl: string)
      requires Valid() && ran < |scheduled|
      modifies this
      ensures Valid() && ran == old(ran) + 1
      ensures requests == old(requests) + Targets(ConnectTarget(kis, reply, baseUrl))
      ensures reconnectCount == old(reconnectCount) && scheduled == old(scheduled)
      ensures closes == old(closes) && started == old(started)
    {
      ran := ran + 1;
      Connect(reply, baseUrl);
    }

    /** `scheduleReconnect`: counts the attempt and, while it is at most 2, schedules a
        connect after attempt × 1000 ms. */
    method ScheduleReconnect()
      modifies this
      ensures reconnectCount == Wrap32(old(reconnectCount) + 1)
      ensures scheduled == old(scheduled)
        + (if reconnectCount <= MAX_RECONNECT_ATTEMPTS then [reconnectCount * BACKOFF_MS] else [])
      ensures ran == old(ran) && requests == old(requests) && closes == old(closes) && started == old(started)
    {
      var attempt := Wrap32(reconnectCount + 1);
      reconnectCount := attempt;
      if attempt > MAX_RECONNECT_ATTEMPTS {
        return;
      }
      var delayMs := attempt * BACKOFF_MS;
      scheduled := scheduled + [delayMs];
    }

    /** The handler's `afterConnectionClosed`: one close, one increment of the counter,
        and a reconnect after n × 1000 ms exactly when this is close number n ≤ 2. */
    method OnConnectionClosed()
      requires Valid() && closes < |requests|
      modifies this
      ensures Valid() && closes == old(closes) + 1
      ensures reconnectCount == old(reconnectCount) + 1
      ensures scheduled == old(scheduled)
        + (if reconnectCount <= MAX_RECONNECT_ATTEMPTS then [reconnectCount * BACKOFF_MS] else [])
      ensures ran == old(ran) && requests == old(requests) && started == old(started)
    {
      BackoffsBounded(closes);
      closes := closes + 1;
      ScheduleReconnect();
    }

    /** In every reachable state at most two reconnects were scheduled, so at most three
        connections were opened and at most three closes counted. */
    lemma ReconnectsBounded()
      requires Valid()
      ensures |scheduled| <= MAX_RECONNECT_ATTEMPTS
      ensures |requests| <= 1 + MAX_RECONNECT_ATTEMPTS && reconnectCount <= 1 + MAX_RECONNECT_ATTEMPTS
    {
      BackoffsBounded(closes);
    }
  }
}
