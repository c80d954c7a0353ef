/** The discovery engine as functions of an explicit world: the request
    executor with its retries, rate limiting and status handling, the
    traversal of organisations, teams and projects, the serialisers and the
    orchestration of a whole discovery run. The class in module Discovery is
    proved to behave exactly as these functions say. */
module DiscoverySpec {
  import opened Values

  // ---------------------------------------------------------------------------
  // The world the executor sees

  /** What one `session.get` produces: a response (its status code, decoded
      body, text, reason phrase and, for a 429, the Retry-After header already
      read as an integer number of seconds), or one of the transport
      exceptions. */
  datatype Outcome =
    | Response(status: int, body: Json, text: string, reason: string, retryAfter: Option<int>)
    | Timeout
    | ConnError
    | OtherRequestError(detail: string)

  /** One scripted exchange: its outcome and the milliseconds it takes. */
  datatype Exchange = Exchange(outcome: Outcome, latencyMs: nat)

  /** Everything the executor reads or changes: the clock in milliseconds and
      the sleeps made so far (in milliseconds), the discovery object's
      `last_request_time`, the exchanges still scripted and the URLs sent,
      and the endpoints passed to `_make_request`. */
  datatype World = World(
    now: int,
    lastRequestTime: int,
    script: seq<Exchange>,
    sent: seq<string>,
    waits: seq<int>,
    calls: seq<string>)

  /** The one error class of the executor and the Python exceptions that the
      rest of the engine lets escape. */
  datatype Error =
    | ApiError(message: string, statusCode: Option<int>, response: Option<string>)
    | ValueError(message: string)
    | KeyError(key: string)
    | TypeError
    | AttributeError

  /** A result together with the world after it. */
  datatype Reply<+T> = Reply(result: Result<T, Error>, world: World)

  /** The configuration the executor uses: the base URL without trailing
      slashes and the number of retries. */
  datatype Api = Api(baseUrl: string, retryAttempts: int)

  const MinIntervalMs: int := 100
  const DefaultRetryAfterSeconds: int := 60
  const SleepNegative: string := "sleep length must be non-negative"

  function RStripSlash(s: string): (r: string)
    ensures |r| <= |s| && r == s[..|r|]
    ensures r == [] || r[|r| - 1] != '/'
    ensures forall i :: |r| <= i < |s| ==> s[i] == '/'
    decreases |s|
  {
    if s != [] && s[|s| - 1] == '/' then RStripSlash(s[..|s| - 1]) else s
  }

  function LStripSlash(s: string): (r: string)
    ensures |r| <= |s| && r == s[|s| - |r|..]
    ensures r == [] || r[0] != '/'
    ensures forall i :: 0 <= i < |s| - |r| ==> s[i] == '/'
    decreases |s|
  {
    if s != [] && s[0] == '/' then LStripSlash(s[1..]) else s
  }

  /** `SentryDiscovery.__init__`: the executor's configuration. */
  function MakeApi(baseUrl: string, retryAttempts: int): (api: Api)
    ensures api.baseUrl == [] || api.baseUrl[|api.baseUrl| - 1] != '/'
    ensures api.retryAttempts == retryAttempts
  {
    Api(RStripSlash(baseUrl), retryAttempts)
  }

  /** The URL requested for an endpoint: the base, one slash, and the endpoint
      without its leading slashes. */
  function Url(baseUrl: string, endpoint: string): (url: string)
    ensures |url| > |baseUrl| && url[..|baseUrl| + 1] == baseUrl + "/"
    ensures |url| > |baseUrl| + 1 ==> url[|baseUrl| + 1] != '/'
    ensures var path := url[|baseUrl| + 1..];
      |path| <= |endpoint| && endpoint[|endpoint| - |path|..] == path
      && forall i :: 0 <= i < |endpoint| - |path| ==> endpoint[i] == '/'
  {
    baseUrl + "/" + LStripSlash(endpoint)
  }

  function Pow2(k: nat): (p: nat)
    ensures p >= 1
  {
    if k == 0 then 1 else 2 * Pow2(k - 1)
  }

  /** `time.sleep(ms / 1000)`. */
  function Sleep(w: World, ms: int): World {
    w.(now := w.now + ms, waits := w.waits + [ms])
  }

  /** The rate limiter: a request waits until at least 100 ms have passed since
      the last response, sleeping for exactly the time still missing. */
  function Throttle(w: World): (r: World)
    ensures r.now == if w.now - w.lastRequestTime < MinIntervalMs then w.lastRequestTime + MinIntervalMs else w.now
    ensures r.now - r.lastRequestTime >= MinIntervalMs
    ensures r.waits == w.waits + if w.now - w.lastRequestTime < MinIntervalMs then [MinIntervalMs - (w.now - w.lastRequestTime)] else []
    ensures r.lastRequestTime == w.lastRequestTime && r.script == w.script && r.sent == w.sent && r.calls == w.calls
  {
    var sinceLast := w.now - w.lastRequestTime;
    if sinceLast < MinIntervalMs then Sleep(w, MinIntervalMs - sinceLast) else w
  }

  datatype Sent = Sent(outcome: Outcome, world: World)

  /** `session.get(url)`: the next scripted exchange, which takes its latency;
      once the script is exhausted the network is unreachable. */
  function Send(w: World, url: string): (r: Sent)
    ensures r.world.sent == w.sent + [url]
    ensures w.script == [] ==> r.outcome == ConnError && r.world.script == [] && r.world.now == w.now
    ensures w.script != [] ==>
      r.outcome == w.script[0].outcome && r.world.script == w.script[1..] && r.world.now == w.now + w.script[0].latencyMs
    ensures r.world.waits == w.waits && r.world.lastRequestTime == w.lastRequestTime && r.world.calls == w.calls
  {
    if w.script == [] then Sent(ConnError, w.(sent := w.sent + [url]))
    else
      Sent(w.script[0].outcome,
        w.(now := w.now + w.script[0].latencyMs, script := w.script[1..], sent := w.sent + [url]))
  }

  // ---------------------------------------------------------------------------
  // _make_request

  /** What one attempt decides: a value or an error to return, or the next attempt. */
  datatype Step = Done(result: Result<Json, Error>) | Retry

  datatype Turn = Turn(step: Step, world: World)

  function AuthFailed(status: int, text: string): string {
    "Authentication failed: " + IntToString(status) + " - " + text
  }

  /** `str(HTTPError)` as `raise_for_status` words it. */
  function HttpErrorMessage(status: int, reason: string, url: string): string {
    IntToString(status) + (if status < 500 then " Client Error: " else " Server Error: ") + reason + " for url: " + url
  }

  function TimeoutMessage(retryAttempts: int): string {
    "Request timeout after " + IntToString(retryAttempts) + " retries"
  }

  function ConnectionMessage(retryAttempts: int): string {
    "Connection error after " + IntToString(retryAttempts) + " retries"
  }

  function ExhaustedMessage(retryAttempts: int): string {
    "Failed to make request after " + IntToString(retryAttempts + 1) + " attempts"
  }

  /** The handling of one outcome on attempt `attempt`, in the world just
      after `session.get` returned or raised. */
  function Classify(api: Api, url: string, attempt: nat, outcome: Outcome, w: World): (t: Turn)
    ensures outcome.Response? ==> t.world.lastRequestTime == w.now
    ensures !outcome.Response? ==> t.world.lastRequestTime == w.lastRequestTime
    ensures t.world.script == w.script && t.world.sent == w.sent && t.world.calls == w.calls
    ensures outcome.Response? && t.step.Done? ==> t.world == w.(lastRequestTime := w.now)
  {
    match outcome
    case Response(status, body, text, reason, retryAfter) =>
      var r := w.(lastRequestTime := w.now);
      if status == 200 then Turn(Done(Success(body)), r)
      else if status == 204 || status == 404 then Turn(Done(Success(EmptyObj)), r)
      else if status == 429 then
        var seconds := if retryAfter.Some? then retryAfter.value else DefaultRetryAfterSeconds;
        if seconds < 0 then Turn(Done(Failure(ValueError(SleepNegative))), r)
        else Turn(Retry, Sleep(r, seconds * 1000))
      else if status == 401 || status == 403 then
        Turn(Done(Failure(ApiError(AuthFailed(status, text), Some(status), Some(text)))), r)
      else if 400 <= status < 600 then
        Turn(Done(Failure(ApiError("Request failed: " + HttpErrorMessage(status, reason, url), None, None))), r)
      else Turn(Retry, r)
    case Timeout =>
      if attempt < api.retryAttempts then Turn(Retry, Sleep(w, Pow2(attempt) * 1000))
      else Turn(Done(Failure(ApiError(TimeoutMessage(api.retryAttempts), None, None))), w)
    case ConnError =>
      if attempt < api.retryAttempts then Turn(Retry, Sleep(w, Pow2(attempt) * 1000))
      else Turn(Done(Failure(ApiError(ConnectionMessage(api.retryAttempts), None, None))), w)
    case OtherRequestError(detail) =>
      Turn(Done(Failure(ApiError("Request failed: " + detail, None, None))), w)
  }

  /** One iteration of the attempt loop: rate limiting, the request, its handling. */
  function Attempt(api: Api, url: string, attempt: nat, w: World): (t: Turn)
    ensures |t.world.sent| == |w.sent| + 1 && t.world.calls == w.calls
    ensures |t.world.script| == if w.script == [] then 0 else |w.script| - 1
  {
    var s := Send(Throttle(w), url);
    Classify(api, url, attempt, s.outcome, s.world)
  }

  /** The attempt loop from attempt `attempt` on. */
  function RequestFrom(api: Api, url: string, attempt: nat, w: World): (r: Reply<Json>)
    ensures r.world.calls == w.calls
    ensures |r.world.sent| <= |w.sent| + if attempt <= api.retryAttempts then api.retryAttempts + 1 - attempt else 0
    ensures |r.world.sent| - |w.sent| <= |w.script| ==> |w.script| - |r.world.script| == |r.world.sent| - |w.sent|
    decreases api.retryAttempts + 1 - attempt
  {
    if attempt > api.retryAttempts then Reply(Failure(ApiError(ExhaustedMessage(api.retryAttempts), None, None)), w)
    else
      var t := Attempt(api, url, attempt, w);
      if t.step.Done? then Reply(t.step.result, t.world) else RequestFrom(api, url, attempt + 1, t.world)
  }

  /** `_make_request(endpoint)`. */
  function Request(api: Api, endpoint: string, w: World): (r: Reply<Json>)
    ensures r.world.calls == w.calls + [endpoint]
  {
    RequestFrom(api, Url(api.baseUrl, endpoint), 0, w.(calls := w.calls + [endpoint]))
  }

  // ---------------------------------------------------------------------------
  // Properties of the executor

  /** The first request never waits: the initial `last_request_time` is 0 and
      the clock is far past the first 100 ms. */
  lemma FirstRequestNeverWaits(w: World)
    requires w.lastRequestTime == 0 && w.now >= MinIntervalMs
    ensures Throttle(w) == w
  {
  }

  /** A response answering the first attempt, with the world after it. */
  predicate AnsweredBy(w: World, status: int)
  {
    w.script != [] && w.script[0].outcome.Response? && w.script[0].outcome.status == status
  }

  /** The world after a first attempt that got a response. */
  function AfterResponse(api: Api, endpoint: string, w: World): World
    requires w.script != []
  {
    var s := Send(Throttle(w.(calls := w.calls + [endpoint])), Url(api.baseUrl, endpoint));
    s.world.(lastRequestTime := s.world.now)
  }

  /** A response on the first attempt is handled by Classify, and when that
      decides, the request returns what it decided. */
  lemma FirstResponse(api: Api, endpoint: string, w: World) returns (s: Sent)
    requires api.retryAttempts >= 0 && w.script != [] && w.script[0].outcome.Response?
    ensures s == Send(Throttle(w.(calls := w.calls + [endpoint])), Url(api.baseUrl, endpoint))
    ensures s.outcome == w.script[0].outcome && s.world.(lastRequestTime := s.world.now) == AfterResponse(api, endpoint, w)
    ensures var t := Classify(api, Url(api.baseUrl, endpoint), 0, s.outcome, s.world);
      t.step.Done? ==> Request(api, endpoint, w) == Reply(t.step.result, AfterResponse(api, endpoint, w))
  {
    s := Send(Throttle(w.(calls := w.calls + [endpoint])), Url(api.baseUrl, endpoint));
  }

  /** 200 returns the decoded body unchanged, 204 and 404 return `{}`; one
      request is sent and nothing else is slept. */
  lemma RequestSuccessStatuses(api: Api, endpoint: string, w: World, status: int)
    requires api.retryAttempts >= 0
    requires AnsweredBy(w, status) && status in {200, 204, 404}
    ensures Request(api, endpoint, w) ==
      Reply(Success(if status == 200 then w.script[0].outcome.body else EmptyObj), AfterResponse(api, endpoint, w))
  {
    var s := FirstResponse(api, endpoint, w);
  }

  /** 401 and 403 fail at once with the status code and the response text. */
  lemma RequestAuthFailure(api: Api, endpoint: string, w: World, status: int)
    requires api.retryAttempts >= 0
    requires AnsweredBy(w, status) && (status == 401 || status == 403)
    ensures var text := w.script[0].outcome.text;
      Request(api, endpoint, w) ==
        Reply(Failure(ApiError(AuthFailed(status, text), Some(status), Some(text))), AfterResponse(api, endpoint, w))
  {
    var s := FirstResponse(api, endpoint, w);
    ClassifyAuthFailure(api, Url(api.baseUrl, endpoint), s.outcome, s.world);
  }

  lemma ClassifyAuthFailure(api: Api, url: string, outcome: Outcome, w: World)
    requires outcome.Response? && (outcome.status == 401 || outcome.status == 403)
    ensures Classify(api, url, 0, outcome, w).step ==
      Done(Failure(ApiError(AuthFailed(outcome.status, outcome.text), Some(outcome.status), Some(outcome.text))))
  {
  }

  /** Every other status from 400 to 599 fails at once, through `raise_for_status`,
      with no status code attached. */
  lemma RequestHttpError(api: Api, endpoint: string, w: World, status: int)
    requires api.retryAttempts >= 0
    requires AnsweredBy(w, status) && 400 <= status < 600 && status !in {401, 403, 404, 429}
    ensures Request(api, endpoint, w).result ==
      Failure(ApiError("Request failed: " + HttpErrorMessage(status, w.script[0].outcome.reason, Url(api.baseUrl, endpoint)), None, None))
    ensures |Request(api, endpoint, w).world.sent| == |w.sent| + 1
  {
    var s := FirstResponse(api, endpoint, w);
    ClassifyHttpError(api, Url(api.baseUrl, endpoint), s.outcome, s.world);
  }

  lemma ClassifyHttpError(api: Api, url: string, outcome: Outcome, w: World)
    requires outcome.Response? && 400 <= outcome.status < 600
    requires outcome.status != 401 && outcome.status != 403 && outcome.status != 404 && outcome.status != 429
    ensures Classify(api, url, 0, outcome, w).step ==
      Done(Failure(ApiError("Request failed: " + HttpErrorMessage(outcome.status, outcome.reason, url), None, None)))
  {
  }

  /** A status that no branch handles, for instance 202, uses up the attempt:
      the loop goes on with the next one without sleeping. */
  lemma UnhandledStatusUsesAttempt(api: Api, url: string, attempt: nat, w: World)
    requires attempt <= api.retryAttempts && w.script != [] && w.script[0].outcome.Response?
    requires var s := w.script[0].outcome.status; s !in {200, 204, 404, 429, 401, 403} && !(400 <= s < 600)
    ensures var s := Send(Throttle(w), url);
      RequestFrom(api, url, attempt, w) == RequestFrom(api, url, attempt + 1, s.world.(lastRequestTime := s.world.now))
  {
  }

  /** A timeout or connection error before the last attempt sleeps exactly
      2^attempt seconds and retries; on the last attempt it fails. The
      rate-limit timestamp stays as it was. */
  lemma TransportErrorBackoff(api: Api, url: string, attempt: nat, w: World)
    requires attempt <= api.retryAttempts && w.script != []
    requires w.script[0].outcome.Timeout? || w.script[0].outcome.ConnError?
    ensures var s := Send(Throttle(w), url);
      var t := Attempt(api, url, attempt, w);
      && t.world.lastRequestTime == w.lastRequestTime
      && (attempt < api.retryAttempts ==> t == Turn(Retry, Sleep(s.world, Pow2(attempt) * 1000)))
      && (attempt == api.retryAttempts ==>
            t.step == Done(Failure(ApiError(
              if w.script[0].outcome.Timeout? then TimeoutMessage(api.retryAttempts) else ConnectionMessage(api.retryAttempts),
              None, None))))
  {
  }

  /** A 429 records the response time, sleeps Retry-After seconds (60 when
      the header is absent) and moves on to the next attempt; a negative
      Retry-After makes the sleep itself fail. */
  lemma RateLimitSleepsRetryAfter(api: Api, url: string, attempt: nat, w: World)
    requires w.script != [] && w.script[0].outcome.Response? && w.script[0].outcome.status == 429
    ensures var o := w.script[0].outcome;
      var seconds := if o.retryAfter.Some? then o.retryAfter.value else 60;
      var s := Send(Throttle(w), url);
      var after := s.world.(lastRequestTime := s.world.now);
      && Attempt(api, url, attempt, w) ==
           (if seconds < 0 then Turn(Done(Failure(ValueError(SleepNegative))), after)
            else Turn(Retry, Sleep(after, seconds * 1000)))
      && (seconds >= 0 && attempt <= api.retryAttempts ==>
            RequestFrom(api, url, attempt, w) == RequestFrom(api, url, attempt + 1, Sleep(after, seconds * 1000)))
  {
  }

  /** Every exchange in the script is a 429 whose Retry-After can be slept. */
  predicate AllRateLimited(script: seq<Exchange>) {
    forall i :: 0 <= i < |script| ==>
      && script[i].outcome.Response? && script[i].outcome.status == 429
      && (script[i].outcome.retryAfter.None? || script[i].outcome.retryAfter.value >= 0)
  }

  /** A run of 429s uses up every remaining attempt, one request each, and ends
      in the final error. */
  lemma {:induction false} RateLimitedExhausts(api: Api, url: string, attempt: nat, w: World)
    requires attempt <= api.retryAttempts + 1
    requires AllRateLimited(w.script) && |w.script| >= api.retryAttempts + 1 - attempt
    ensures RequestFrom(api, url, attempt, w).result == Failure(ApiError(ExhaustedMessage(api.retryAttempts), None, None))
    ensures |RequestFrom(api, url, attempt, w).world.sent| == |w.sent| + (api.retryAttempts + 1 - attempt)
    decreases api.retryAttempts + 1 - attempt
  {
    if attempt <= api.retryAttempts {
      var t := Attempt(api, url, attempt, w);
      assert t.step == Retry;
      assert forall i :: 0 <= i < |t.world.script| ==> t.world.script[i] == w.script[i + 1];
      RateLimitedExhausts(api, url, attempt + 1, t.world);
    }
  }

  /** With `retry_attempts` = N, N + 1 consecutive 429s end in
      "Failed to make request after N+1 attempts". */
  lemma RateLimitedRequestFails(api: Api, endpoint: string, w: World)
    requires api.retryAttempts >= 0
    requires AllRateLimited(w.script) && |w.script| >= api.retryAttempts + 1
    ensures Request(api, endpoint, w).result == Failure(ApiError(ExhaustedMessage(api.retryAttempts), None, None))
    ensures |Request(api, endpoint, w).world.sent| == |w.sent| + api.retryAttempts + 1
  {
    RateLimitedExhausts(api, Url(api.baseUrl, endpoint), 0, w.(calls := w.calls + [endpoint]));
  }

  /** At most `retry_attempts` + 1 requests are sent per call. */
  lemma RequestAttemptBound(api: Api, endpoint: string, w: World)
    ensures |Request(api, endpoint, w).world.sent| <= |w.sent| + if api.retryAttempts >= 0 then api.retryAttempts + 1 else 0
  {
  }

  /** The backoff sleeps, in milliseconds, of attempts `attempt` up to the
      last one, which does not sleep: 2^k seconds for attempt k. */
  function Backoffs(attempt: nat, retryAttempts: int): (r: seq<int>)
    ensures |r| == if attempt < retryAttempts then retryAttempts - attempt else 0
    decreases retryAttempts - attempt
  {
    if attempt >= retryAttempts then [] else [Pow2(attempt) * 1000] + Backoffs(attempt + 1, retryAttempts)
  }

  lemma AppendAssoc<T>(a: seq<T>, b: seq<T>, c: seq<T>)
    ensures a + b + c == a + (b + c)
  {
  }

  predicate AllTimeouts(script: seq<Exchange>) {
    forall i :: 0 <= i < |script| ==> script[i].outcome.Timeout?
  }

  /** A run of timeouts sends one request per remaining attempt. Before the
      first one it waits out the rate limit (the sleep `Throttle` makes, if
      any); then it sleeps the backoff after each attempt but the last, and
      ends in "Request timeout after N retries". The rate-limit timestamp is
      never touched. */
  lemma {:induction false} TimeoutsExhaust(api: Api, url: string, attempt: nat, w: World)
    requires attempt <= api.retryAttempts
    requires AllTimeouts(w.script) && |w.script| >= api.retryAttempts + 1 - attempt
    ensures var r := RequestFrom(api, url, attempt, w);
      && r.result == Failure(ApiError(TimeoutMessage(api.retryAttempts), None, None))
      && r.world.waits == Throttle(w).waits + Backoffs(attempt, api.retryAttempts)
      && |r.world.sent| == |w.sent| + (api.retryAttempts + 1 - attempt)
      && r.world.lastRequestTime == w.lastRequestTime
    decreases api.retryAttempts - attempt
  {
    TimeoutStep(api, url, attempt, w);
    if attempt < api.retryAttempts {
      var next := TimeoutNext(url, attempt, Throttle(w));
      assert forall i :: 0 <= i < |next.script| ==> next.script[i] == w.script[i + 1];
      TimeoutsExhaust(api, url, attempt + 1, next);
      assert Throttle(next) == next;
      AppendAssoc(Throttle(w).waits, [Pow2(attempt) * 1000], Backoffs(attempt + 1, api.retryAttempts));
    }
  }

  /** The world after a timeout on an attempt that the rate limit does not delay. */
  function TimeoutNext(url: string, attempt: nat, w: World): World
    requires w.script != []
  {
    w.(now := w.now + w.script[0].latencyMs + Pow2(attempt) * 1000, script := w.script[1..],
       sent := w.sent + [url], waits := w.waits + [Pow2(attempt) * 1000])
  }

  /** One timeout: the rate-limit wait, then, before the last attempt, a
      2^attempt s sleep and the next attempt; on the last one, the timeout error. */
  lemma TimeoutStep(api: Api, url: string, attempt: nat, w: World)
    requires attempt <= api.retryAttempts && w.script != [] && w.script[0].outcome.Timeout?
    ensures attempt < api.retryAttempts ==>
      RequestFrom(api, url, attempt, w) == RequestFrom(api, url, attempt + 1, TimeoutNext(url, attempt, Throttle(w)))
    ensures var t := Throttle(w);
      attempt == api.retryAttempts ==>
      RequestFrom(api, url, attempt, w) ==
        Reply(Failure(ApiError(TimeoutMessage(api.retryAttempts), None, None)),
          t.(now := t.now + w.script[0].latencyMs, script := w.script[1..], sent := w.sent + [url]))
  {
  }

  /** A request made right after a response first waits the full 100 ms of the
      rate limit, even when it then times out without a retry. */
  lemma TimeoutRightAfterResponse(url: string)
    ensures var w := World(5000, 5000, [Exchange(Timeout, 0)], [], [], []);
      var r := RequestFrom(Api("b", 0), url, 0, w);
      r.world.waits == [100] && r.result == Failure(ApiError(TimeoutMessage(0), None, None))
  {
    var w := World(5000, 5000, [Exchange(Timeout, 0)], [], [], []);
    TimeoutsExhaust(Api("b", 0), url, 0, w);
    assert Backoffs(0, 0) == [];
  }

  /** With `retry_attempts` = 2 and three timeouts, the sleeps are 1 s and 2 s
      and the request fails with "Request timeout after 2 retries". */
  lemma ThreeTimeouts(api: Api, url: string)
    requires api.retryAttempts == 2
    ensures var w := World(1000000, 0, [Exchange(Timeout, 0), Exchange(Timeout, 0), Exchange(Timeout, 0)], [], [], []);
      var r := RequestFrom(api, url, 0, w);
      && r.result == Failure(ApiError("Request timeout after 2 retries", None, None))
      && r.world.waits == [1000, 2000]
      && |r.world.sent| == 3
  {
    var w := World(1000000, 0, [Exchange(Timeout, 0), Exchange(Timeout, 0), Exchange(Timeout, 0)], [], [], []);
    TimeoutsExhaust(api, url, 0, w);
    assert Backoffs(2, 2) == [];
    assert Backoffs(0, 2) == [1000, 2000];
    TwoRetriesTimeoutMessage();
  }

  lemma TwoRetriesTimeoutMessage()
    ensures TimeoutMessage(2) == "Request timeout after 2 retries"
  {
    assert IntToString(2) == "2";
  }

  /** A 429 with Retry-After 2 followed by a 200: the body, after one 2 s sleep. */
  lemma RateLimitThenSuccess(api: Api, url: string, body: Json)
    requires api.retryAttempts >= 1
    ensures var w := World(1000000, 0,
        [Exchange(Response(429, JNull, "", "Too Many Requests", Some(2)), 0),
         Exchange(Response(200, body, "", "OK", None), 0)], [], [], []);
      var r := RequestFrom(api, url, 0, w);
      r.result == Success(body) && r.world.waits == [2000] && r.world.lastRequestTime == 1002000
  {
    var w1 := World(1002000, 1000000, [Exchange(Response(200, body, "", "OK", None), 0)], [url], [2000], []);
    assert Attempt(api, url, 0, World(1000000, 0,
        [Exchange(Response(429, JNull, "", "Too Many Requests", Some(2)), 0),
         Exchange(Response(200, body, "", "OK", None), 0)], [], [], [])) == Turn(Retry, w1);
  }

  // ---------------------------------------------------------------------------
  // Resources and their parsing

  datatype Organization = Organization(
    id: Json, slug: Json, name: Json, rawData: map<string, Json>, features: Json, status: Json)

  datatype Team = Team(
    id: Json, slug: Json, name: Json, rawData: map<string, Json>,
    organization: Json, members: seq<Json>, projects: Json)

  datatype Project = Project(
    id: Json, slug: Json, name: Json, rawData: map<string, Json>,
    organization: Json, platform: Json, teams: seq<Json>, status: Json, features: Json, options: Json)

  /** A list element becomes a `SentryOrganization`; indexing something that is
      not a dict raises TypeError and a missing key KeyError, in the order
      id, slug, name. */
  function ParseOrganization(item: Json): (r: Result<Organization, Error>)
    ensures r.Success? <==> item.JObj? && "id" in item.obj && "slug" in item.obj && "name" in item.obj
    ensures r.Success? ==>
      r.value.rawData == item.obj && r.value.slug == item.obj["slug"]
      && r.value.features == Get(item.obj, "features", JArr([])) && r.value.status == Get(item.obj, "status", EmptyObj)
  {
    if !item.JObj? then Failure(TypeError)
    else if "id" !in item.obj then Failure(KeyError("id"))
    else if "slug" !in item.obj then Failure(KeyError("slug"))
    else if "name" !in item.obj then Failure(KeyError("name"))
    else
      var o := item.obj;
      Success(Organization(o["id"], o["slug"], o["name"], o, Get(o, "features", JArr([])), Get(o, "status", EmptyObj)))
  }

  /** The organisations of a list, in order, or the first element's error. */
  function ParseOrganizations(items: seq<Json>): Result<seq<Organization>, Error>
    decreases |items|
  {
    if items == [] then Success([])
    else
      var first :- ParseOrganization(items[0]);
      var rest :- ParseOrganizations(items[1..]);
      Success([first] + rest)
  }

  /** The list parses exactly when every element does, and then element by
      element in order. */
  lemma {:induction false} ParseOrganizationsMeaning(items: seq<Json>)
    ensures ParseOrganizations(items).Success? <==> forall i :: 0 <= i < |items| ==> ParseOrganization(items[i]).Success?
    ensures ParseOrganizations(items).Success? ==>
      var orgs := ParseOrganizations(items).value;
      |orgs| == |items| && forall i :: 0 <= i < |items| ==> ParseOrganization(items[i]) == Success(orgs[i])
    decreases |items|
  {
    if items != [] {
      ParseOrganizationsMeaning(items[1..]);
      var first := ParseOrganization(items[0]);
      var rest := ParseOrganizations(items[1..]);
      if first.Success? && rest.Success? {
        var orgs := ParseOrganizations(items).value;
        assert orgs == [first.value] + rest.value;
        forall i | 0 < i < |items| ensures ParseOrganization(items[i]) == Success(orgs[i]) {
          assert items[i] == items[1..][i - 1];
        }
      } else if first.Success? {
        var j :| 0 <= j < |items[1..]| && !ParseOrganization(items[1..][j]).Success?;
        assert items[1..][j] == items[j + 1];
      }
    }
  }

  /** `get_organizations`. */
  function Organizations(api: Api, w: World): (r: Reply<seq<Organization>>)
  {
    var data := Request(api, "/organizations/", w);
    if data.result.Failure? then Reply(Failure(data.result.error), data.world)
    else if !data.result.value.JArr? then Reply(Success([]), data.world)
    else Reply(ParseOrganizations(data.result.value.arr), data.world)
  }

  /** A response that is not a list gives no organisations; a list gives one
      organisation per element, in order, or the error of the first bad one. */
  lemma OrganizationsMeaning(api: Api, w: World)
    ensures var data := Request(api, "/organizations/", w);
      var r := Organizations(api, w);
      && r.world == data.world
      && (data.result.Success? && !data.result.value.JArr? ==> r.result == Success([]))
      && (data.result.Success? && data.result.value.JArr? && r.result.Success? ==>
            |r.result.value| == |data.result.value.arr|
            && forall i :: 0 <= i < |r.result.value| ==>
                 data.result.value.arr[i].JObj? && r.result.value[i].rawData == data.result.value.arr[i].obj)
  {
    var data := Request(api, "/organizations/", w);
    if data.result.Success? && data.result.value.JArr? && Organizations(api, w).result.Success? {
      var items := data.result.value.arr;
      var orgs := Organizations(api, w).result.value;
      ParseOrganizationsMeaning(items);
      forall i | 0 <= i < |orgs| ensures items[i].JObj? && orgs[i].rawData == items[i].obj {
        assert ParseOrganization(items[i]) == Success(orgs[i]);
      }
    }
  }

  function TeamsEndpoint(orgSlug: Json): string {
    "/organizations/" + PyStr(orgSlug) + "/teams/"
  }

  function MembersEndpoint(orgSlug: Json, teamSlug: Json): string {
    "/organizations/" + PyStr(orgSlug) + "/teams/" + PyStr(teamSlug) + "/members/"
  }

  function ProjectsEndpoint(orgSlug: Json): string {
    "/organizations/" + PyStr(orgSlug) + "/projects/"
  }

  function ProjectTeamsEndpoint(orgSlug: Json, projectSlug: Json): string {
    "/organizations/" + PyStr(orgSlug) + "/projects/" + PyStr(projectSlug) + "/teams/"
  }

  function ProjectDetailsEndpoint(orgSlug: Json, projectSlug: Json): string {
    "/organizations/" + PyStr(orgSlug) + "/projects/" + PyStr(projectSlug) + "/"
  }

  /** A request whose body must be a list; anything else gives `[]`. */
  function ListRequest(api: Api, endpoint: string, w: World): (r: Reply<seq<Json>>)
    ensures var data := Request(api, endpoint, w);
      && r.world == data.world
      && (data.result.Failure? ==> r.result == Failure(data.result.error))
      && (data.result.Success? ==> r.result == Success(if data.result.value.JArr? then data.result.value.arr else []))
  {
    var data := Request(api, endpoint, w);
    if data.result.Failure? then Reply(Failure(data.result.error), data.world)
    else if !data.result.value.JArr? then Reply(Success([]), data.world)
    else Reply(Success(data.result.value.arr), data.world)
  }

  /** `get_team_members`. */
  function TeamMembers(api: Api, orgSlug: Json, teamSlug: Json, w: World): Reply<seq<Json>> {
    ListRequest(api, MembersEndpoint(orgSlug, teamSlug), w)
  }

  /** `get_project_teams`. */
  function ProjectTeams(api: Api, orgSlug: Json, projectSlug: Json, w: World): Reply<seq<Json>> {
    ListRequest(api, ProjectTeamsEndpoint(orgSlug, projectSlug), w)
  }

  /** `get_project_details`: the body as it is. */
  function ProjectDetails(api: Api, orgSlug: Json, projectSlug: Json, w: World): Reply<Json> {
    Request(api, ProjectDetailsEndpoint(orgSlug, projectSlug), w)
  }

  /** The `SentryTeam` built from a team dict and its members. */
  function MakeTeam(orgSlug: Json, obj: map<string, Json>, members: seq<Json>): (r: Result<Team, Error>)
    ensures r.Success? <==> "id" in obj && "slug" in obj && "name" in obj
    ensures r.Success? ==>
      r.value.organization == orgSlug && r.value.members == members && r.value.rawData == obj
      && r.value.slug == obj["slug"] && r.value.projects == Get(obj, "projects", JArr([]))
  {
    if "id" !in obj then Failure(KeyError("id"))
    else if "slug" !in obj then Failure(KeyError("slug"))
    else if "name" !in obj then Failure(KeyError("name"))
    else Success(Team(obj["id"], obj["slug"], obj["name"], obj, orgSlug, members, Get(obj, "projects", JArr([]))))
  }

  /** The `SentryProject` built from a project dict, its teams and its details:
      the platform defaults to "other", the status to "unknown", the options
      come from the details, and the details overlay the raw payload. */
  function MakeProject(orgSlug: Json, obj: map<string, Json>, teams: seq<Json>, details: Json): (r: Result<Project, Error>)
    ensures r.Success? <==> "id" in obj && "slug" in obj && "name" in obj && details.JObj?
    ensures r.Success? ==>
      && r.value.organization == orgSlug && r.value.teams == teams && r.value.slug == obj["slug"]
      && r.value.platform == Get(obj, "platform", JStr("other"))
      && r.value.status == Get(obj, "status", JStr("unknown"))
      && r.value.features == Get(obj, "features", JArr([]))
      && r.value.options == Get(details.obj, "options", EmptyObj)
      && r.value.rawData.Keys == obj.Keys + details.obj.Keys
      && (forall k :: k in details.obj ==> r.value.rawData[k] == details.obj[k])
      && (forall k :: k in obj && k !in details.obj ==> r.value.rawData[k] == obj[k])
  {
    if "id" !in obj then Failure(KeyError("id"))
    else if "slug" !in obj then Failure(KeyError("slug"))
    else if "name" !in obj then Failure(KeyError("name"))
    else if !details.JObj? then Failure(AttributeError)
    else
      Success(Project(obj["id"], obj["slug"], obj["name"], obj + details.obj, orgSlug,
        Get(obj, "platform", JStr("other")), teams, Get(obj, "status", JStr("unknown")),
        Get(obj, "features", JArr([])), Get(details.obj, "options", EmptyObj)))
  }

  /** An empty detail body leaves the raw payload as the list gave it. */
  lemma EmptyDetailsKeepRawData(orgSlug: Json, obj: map<string, Json>, teams: seq<Json>)
    requires "id" in obj && "slug" in obj && "name" in obj
    ensures MakeProject(orgSlug, obj, teams, EmptyObj).Success?
    ensures MakeProject(orgSlug, obj, teams, EmptyObj).value.rawData == obj
  {
    assert obj + map[] == obj;
  }

  /** `x` in front of a successful list result; a failure stays as it is. */
  function Prepend<T>(x: T, r: Reply<seq<T>>): Reply<seq<T>> {
    if r.result.Failure? then r else Reply(Success([x] + r.result.value), r.world)
  }

  /** The elements already collected in front of a list result still to come. */
  function PrependAll<T>(xs: seq<T>, r: Reply<seq<T>>): (p: Reply<seq<T>>)
    ensures r.result.Failure? ==> p == r
    ensures r.result.Success? ==> p == Reply(Success(xs + r.result.value), r.world)
  {
    if r.result.Failure? then r else Reply(Success(xs + r.result.value), r.world)
  }

  lemma PrependNothing<T>(r: Reply<seq<T>>)
    ensures PrependAll([], r) == r
  {
    if r.result.Success? {
      assert [] + r.result.value == r.result.value;
    }
  }

  lemma PrependAllStep<T>(xs: seq<T>, x: T, r: Reply<seq<T>>)
    ensures PrependAll(xs, Prepend(x, r)) == PrependAll(xs + [x], r)
  {
    if r.result.Success? {
      assert xs + ([x] + r.result.value) == (xs + [x]) + r.result.value;
    }
  }

  /** The slug of a list element, as the traversal reads it. */
  function SlugOf(item: Json): Json {
    if item.JObj? then Get(item.obj, "slug", JNull) else JNull
  }

  /** One element of the team list: the members request, then the `SentryTeam`. */
  function TeamEntry(api: Api, orgSlug: Json, item: Json, w: World): (r: Reply<Team>)
    ensures r.result.Success? ==>
      && item.JObj? && "slug" in item.obj
      && r.result.value.organization == orgSlug && r.result.value.rawData == item.obj
      && r.world.calls == w.calls + [MembersEndpoint(orgSlug, SlugOf(item))]
  {
    if !item.JObj? then Reply(Failure(TypeError), w)
    else if "slug" !in item.obj then Reply(Failure(KeyError("slug")), w)
    else
      var members := TeamMembers(api, orgSlug, item.obj["slug"], w);
      if members.result.Failure? then Reply(Failure(members.result.error), members.world)
      else Reply(MakeTeam(orgSlug, item.obj, members.result.value), members.world)
  }

  /** The loop of `get_teams` over the remaining elements. */
  function TeamsFrom(api: Api, orgSlug: Json, items: seq<Json>, w: World): (r: Reply<seq<Team>>)
    decreases |items|
  {
    if items == [] then Reply(Success([]), w)
    else
      var entry := TeamEntry(api, orgSlug, items[0], w);
      if entry.result.Failure? then Reply(Failure(entry.result.error), entry.world)
      else Prepend(entry.result.value, TeamsFrom(api, orgSlug, items[1..], entry.world))
  }

  /** One turn of the team loop: a successful element goes in front of the rest. */
  lemma TeamsFromStep(api: Api, orgSlug: Json, items: seq<Json>, i: nat, w: World, team: Team, next: World)
    requires i < |items| && TeamEntry(api, orgSlug, items[i], w) == Reply(Success(team), next)
    ensures TeamsFrom(api, orgSlug, items[i..], w) == Prepend(team, TeamsFrom(api, orgSlug, items[i + 1..], next))
  {
    assert items[i..][0] == items[i] && items[i..][1..] == items[i + 1..];
  }

  /** A failing element ends the team loop with its error. */
  lemma TeamsFromFails(api: Api, orgSlug: Json, items: seq<Json>, i: nat, w: World, e: Error, next: World)
    requires i < |items| && TeamEntry(api, orgSlug, items[i], w) == Reply(Failure(e), next)
    ensures TeamsFrom(api, orgSlug, items[i..], w) == Reply(Failure(e), next)
  {
    assert items[i..][0] == items[i];
  }

  /** `get_teams`. */
  function Teams(api: Api, orgSlug: Json, w: World): Reply<seq<Team>> {
    var data := Request(api, TeamsEndpoint(orgSlug), w);
    if data.result.Failure? then Reply(Failure(data.result.error), data.world)
    else if !data.result.value.JArr? then Reply(Success([]), data.world)
    else TeamsFrom(api, orgSlug, data.result.value.arr, data.world)
  }

  /** The member requests a team list costs: one per team, in order. */
  function MemberCalls(orgSlug: Json, items: seq<Json>): (r: seq<string>)
    ensures |r| == |items|
    decreases |items|
  {
    if items == [] then [] else [MembersEndpoint(orgSlug, SlugOf(items[0]))] + MemberCalls(orgSlug, items[1..])
  }

  /** A successful team traversal makes exactly one member request per team,
      in list order, and no other request. */
  lemma {:induction false} TeamsFromCalls(api: Api, orgSlug: Json, items: seq<Json>, w: World)
    requires TeamsFrom(api, orgSlug, items, w).result.Success?
    ensures TeamsFrom(api, orgSlug, items, w).world.calls == w.calls + MemberCalls(orgSlug, items)
    decreases |items|
  {
    if items != [] {
      var entry := TeamEntry(api, orgSlug, items[0], w);
      assert TeamsFrom(api, orgSlug, items, w) == Prepend(entry.result.value, TeamsFrom(api, orgSlug, items[1..], entry.world));
      TeamsFromCalls(api, orgSlug, items[1..], entry.world);
    }
  }

  /** The team list keeps the API's length and order, and every team belongs
      to the organisation it was fetched for. */
  lemma {:induction false} TeamsFromShape(api: Api, orgSlug: Json, items: seq<Json>, w: World)
    requires TeamsFrom(api, orgSlug, items, w).result.Success?
    ensures var teams := TeamsFrom(api, orgSlug, items, w).result.value;
      && |teams| == |items|
      && forall i :: 0 <= i < |items| ==>
           items[i].JObj? && teams[i].organization == orgSlug && teams[i].rawData == items[i].obj
    decreases |items|
  {
    if items != [] {
      var entry := TeamEntry(api, orgSlug, items[0], w);
      var rest := TeamsFrom(api, orgSlug, items[1..], entry.world);
      assert TeamsFrom(api, orgSlug, items, w) == Prepend(entry.result.value, rest);
      TeamsFromShape(api, orgSlug, items[1..], entry.world);
      TeamsPrependShape(orgSlug, items, entry.result.value, rest.result.value);
    }
  }

  /** The shape of a team list survives putting the first team in front. */
  lemma TeamsPrependShape(orgSlug: Json, items: seq<Json>, t: Team, rest: seq<Team>)
    requires items != [] && items[0].JObj? && t.organization == orgSlug && t.rawData == items[0].obj
    requires |rest| == |items| - 1
    requires forall i :: 0 <= i < |items| - 1 ==>
      items[1..][i].JObj? && rest[i].organization == orgSlug && rest[i].rawData == items[1..][i].obj
    ensures forall i :: 0 <= i < |items| ==>
      items[i].JObj? && ([t] + rest)[i].organization == orgSlug && ([t] + rest)[i].rawData == items[i].obj
  {
    forall i | 0 < i < |items| ensures items[i] == items[1..][i - 1] && ([t] + rest)[i] == rest[i - 1] { }
  }

  /** `get_teams`: a response that is not a list gives no teams; a list gives
      one team per element, in order, each of the organisation, after the
      list request and exactly one member request per team. */
  lemma TeamsMeaning(api: Api, orgSlug: Json, w: World)
    ensures var data := Request(api, TeamsEndpoint(orgSlug), w);
      var r := Teams(api, orgSlug, w);
      && (data.result.Failure? ==> r == Reply(Failure(data.result.error), data.world))
      && (data.result.Success? && !data.result.value.JArr? ==> r == Reply(Success([]), data.world))
      && (data.result.Success? && data.result.value.JArr? && r.result.Success? ==>
            var items := data.result.value.arr;
            && |r.result.value| == |items|
            && (forall i :: 0 <= i < |items| ==>
                  items[i].JObj? && r.result.value[i].organization == orgSlug && r.result.value[i].rawData == items[i].obj)
            && r.world.calls == w.calls + [TeamsEndpoint(orgSlug)] + MemberCalls(orgSlug, items))
  {
    var data := Request(api, TeamsEndpoint(orgSlug), w);
    if data.result.Success? && data.result.value.JArr? && Teams(api, orgSlug, w).result.Success? {
      TeamsFromShape(api, orgSlug, data.result.value.arr, data.world);
      TeamsFromCalls(api, orgSlug, data.result.value.arr, data.world);
    }
  }

  /** One element of the project list: the teams request, the details
      request, then the `SentryProject`. */
  function ProjectEntry(api: Api, orgSlug: Json, item: Json, w: World): (r: Reply<Project>)
    ensures r.result.Success? ==>
      && item.JObj? && "slug" in item.obj
      && r.result.value.organization == orgSlug && r.result.value.slug == SlugOf(item)
      && r.world.calls == w.calls + [ProjectTeamsEndpoint(orgSlug, SlugOf(item)), ProjectDetailsEndpoint(orgSlug, SlugOf(item))]
  {
    if !item.JObj? then Reply(Failure(TypeError), w)
    else if "slug" !in item.obj then Reply(Failure(KeyError("slug")), w)
    else
      var teams := ProjectTeams(api, orgSlug, item.obj["slug"], w);
      if teams.result.Failure? then Reply(Failure(teams.result.error), teams.world)
      else
        var details := ProjectDetails(api, orgSlug, item.obj["slug"], teams.world);
        if details.result.Failure? then Reply(Failure(details.result.error), details.world)
        else Reply(MakeProject(orgSlug, item.obj, teams.result.value, details.result.value), details.world)
  }

  /** The loop of `get_projects` over the remaining elements. */
  function ProjectsFrom(api: Api, orgSlug: Json, items: seq<Json>, w: World): (r: Reply<seq<Project>>)
    decreases |items|
  {
    if items == [] then Reply(Success([]), w)
    else
      var entry := ProjectEntry(api, orgSlug, items[0], w);
      if entry.result.Failure? then Reply(Failure(entry.result.error), entry.world)
      else Prepend(entry.result.value, ProjectsFrom(api, orgSlug, items[1..], entry.world))
  }

  /** One turn of the project loop: a successful element goes in front of the rest. */
  lemma ProjectsFromStep(api: Api, orgSlug: Json, items: seq<Json>, i: nat, w: World, project: Project, next: World)
    requires i < |items| && ProjectEntry(api, orgSlug, items[i], w) == Reply(Success(project), next)
    ensures ProjectsFrom(api, orgSlug, items[i..], w) == Prepend(project, ProjectsFrom(api, orgSlug, items[i + 1..], next))
  {
    assert items[i..][0] == items[i] && items[i..][1..] == items[i + 1..];
  }

  /** A failing element ends the project loop with its error. */
  lemma ProjectsFromFails(api: Api, orgSlug: Json, items: seq<Json>, i: nat, w: World, e: Error, next: World)
    requires i < |items| && ProjectEntry(api, orgSlug, items[i], w) == Reply(Failure(e), next)
    ensures ProjectsFrom(api, orgSlug, items[i..], w) == Reply(Failure(e), next)
  {
    assert items[i..][0] == items[i];
  }

  /** `get_projects`. */
  function Projects(api: Api, orgSlug: Json, w: World): Reply<seq<Project>> {
    var data := Request(api, ProjectsEndpoint(orgSlug), w);
    if data.result.Failure? then Reply(Failure(data.result.error), data.world)
    else if !data.result.value.JArr? then Reply(Success([]), data.world)
    else ProjectsFrom(api, orgSlug, data.result.value.arr, data.world)
  }

  /** The requests a project list costs: its teams, then its details, per
      project in order. */
  function ProjectCalls(orgSlug: Json, items: seq<Json>): (r: seq<string>)
    ensures |r| == 2 * |items|
    decreases |items|
  {
    if items == [] then []
    else
      [ProjectTeamsEndpoint(orgSlug, SlugOf(items[0])), ProjectDetailsEndpoint(orgSlug, SlugOf(items[0]))]
        + ProjectCalls(orgSlug, items[1..])
  }

  /** A successful project traversal makes exactly two requests per project,
      the teams and then the details, in list order. */
  lemma {:induction false} ProjectsFromCalls(api: Api, orgSlug: Json, items: seq<Json>, w: World)
    requires ProjectsFrom(api, orgSlug, items, w).result.Success?
    ensures ProjectsFrom(api, orgSlug, items, w).world.calls == w.calls + ProjectCalls(orgSlug, items)
    decreases |items|
  {
    if items != [] {
      var entry := ProjectEntry(api, orgSlug, items[0], w);
      assert ProjectsFrom(api, orgSlug, items, w) ==
        Prepend(entry.result.value, ProjectsFrom(api, orgSlug, items[1..], entry.world));
      ProjectsFromCalls(api, orgSlug, items[1..], entry.world);
    }
  }

  /** The project list keeps the API's length and order, and every project
      belongs to the organisation it was fetched for. */
  lemma {:induction false} ProjectsFromShape(api: Api, orgSlug: Json, items: seq<Json>, w: World)
    requires ProjectsFrom(api, orgSlug, items, w).result.Success?
    ensures var projects := ProjectsFrom(api, orgSlug, items, w).result.value;
      && |projects| == |items|
      && forall i :: 0 <= i < |items| ==>
           items[i].JObj? && projects[i].organization == orgSlug && projects[i].slug == SlugOf(items[i])
    decreases |items|
  {
    if items != [] {
      var entry := ProjectEntry(api, orgSlug, items[0], w);
      var rest := ProjectsFrom(api, orgSlug, items[1..], entry.world);
      assert ProjectsFrom(api, orgSlug, items, w) == Prepend(entry.result.value, rest);
      ProjectsFromShape(api, orgSlug, items[1..], entry.world);
      ProjectsPrependShape(orgSlug, items, entry.result.value, rest.result.value);
    }
  }

  /** The shape of a project list survives putting the first project in front. */
  lemma ProjectsPrependShape(orgSlug: Json, items: seq<Json>, p: Project, rest: seq<Project>)
    requires items != [] && items[0].JObj? && p.organization == orgSlug && p.slug == SlugOf(items[0])
    requires |rest| == |items| - 1
    requires forall i :: 0 <= i < |items| - 1 ==>
      items[1..][i].JObj? && rest[i].organization == orgSlug && rest[i].slug == SlugOf(items[1..][i])
    ensures forall i :: 0 <= i < |items| ==>
      items[i].JObj? && ([p] + rest)[i].organization == orgSlug && ([p] + rest)[i].slug == SlugOf(items[i])
  {
    forall i | 0 < i < |items| ensures items[i] == items[1..][i - 1] && ([p] + rest)[i] == rest[i - 1] { }
  }

  /** `get_projects`: a response that is not a list gives no projects; a list
      gives one project per element, in order, each of the organisation,
      after the list request and exactly two requests per project. */
  lemma ProjectsMeaning(api: Api, orgSlug: Json, w: World)
    ensures var data := Request(api, ProjectsEndpoint(orgSlug), w);
      var r := Projects(api, orgSlug, w);
      && (data.result.Failure? ==> r == Reply(Failure(data.result.error), data.world))
      && (data.result.Success? && !data.result.value.JArr? ==> r == Reply(Success([]), data.world))
      && (data.result.Success? && data.result.value.JArr? && r.result.Success? ==>
            var items := data.result.value.arr;
            && |r.result.value| == |items|
            && (forall i :: 0 <= i < |items| ==>
                  items[i].JObj? && r.result.value[i].organization == orgSlug && r.result.value[i].slug == SlugOf(items[i]))
            && r.world.calls == w.calls + [ProjectsEndpoint(orgSlug)] + ProjectCalls(orgSlug, items))
  {
    var data := Request(api, ProjectsEndpoint(orgSlug), w);
    if data.result.Success? && data.result.value.JArr? && Projects(api, orgSlug, w).result.Success? {
      ProjectsFromShape(api, orgSlug, data.result.value.arr, data.world);
      ProjectsFromCalls(api, orgSlug, data.result.value.arr, data.world);
    }
  }

  // ---------------------------------------------------------------------------
  // Serialisation

  function TeamFields(t: Team): map<string, Json> {
    map[
      "id" := t.id, "slug" := t.slug, "name" := t.name, "organization" := t.organization,
      "members" := JArr(t.members), "projects" := t.projects]
  }

  /** `_serialize_team`: the typed fields, then every raw key on top. */
  function SerializeTeam(t: Team): (d: map<string, Json>)
    ensures d.Keys == TeamFields(t).Keys + t.rawData.Keys
    ensures forall k :: k in t.rawData ==> d[k] == t.rawData[k]
    ensures forall k :: k in TeamFields(t) && k !in t.rawData ==> d[k] == TeamFields(t)[k]
  {
    TeamFields(t) + t.rawData
  }

  function ProjectFields(p: Project): map<string, Json> {
    map[
      "id" := p.id, "slug" := p.slug, "name" := p.name, "organization" := p.organization,
      "platform" := p.platform, "teams" := JArr(p.teams), "status" := p.status,
      "features" := p.features, "options" := p.options]
  }

  /** `_serialize_project`: the typed fields, then every raw key on top. */
  function SerializeProject(p: Project): (d: map<string, Json>)
    ensures d.Keys == ProjectFields(p).Keys + p.rawData.Keys
    ensures forall k :: k in p.rawData ==> d[k] == p.rawData[k]
    ensures forall k :: k in ProjectFields(p) && k !in p.rawData ==> d[k] == ProjectFields(p)[k]
  {
    ProjectFields(p) + p.rawData
  }

  /** A team whose raw payload carries its own "organization" reports that one,
      not the slug it was fetched under. */
  lemma RawOrganizationWins(t: Team, org: Json)
    requires "organization" in t.rawData && t.rawData["organization"] == org
    ensures SerializeTeam(t)["organization"] == org
  {
  }

  function SerializeTeams(teams: seq<Team>): (r: seq<Json>)
    ensures |r| == |teams| && forall i :: 0 <= i < |teams| ==> r[i] == JObj(SerializeTeam(teams[i]))
  {
    seq(|teams|, i requires 0 <= i < |teams| => JObj(SerializeTeam(teams[i])))
  }

  function SerializeProjects(projects: seq<Project>): (r: seq<Json>)
    ensures |r| == |projects| && forall i :: 0 <= i < |projects| ==> r[i] == JObj(SerializeProject(projects[i]))
  {
    seq(|projects|, i requires 0 <= i < |projects| => JObj(SerializeProject(projects[i])))
  }

  // ---------------------------------------------------------------------------
  // discover_all and test_connection

  /** The index of the first organisation with the given slug. */
  function FirstWithSlug(orgs: seq<Organization>, slug: Json): (r: Option<nat>)
    ensures r.Some? ==>
      r.value < |orgs| && orgs[r.value].slug == slug && forall j :: 0 <= j < r.value ==> orgs[j].slug != slug
    ensures r.None? ==> forall j :: 0 <= j < |orgs| ==> orgs[j].slug != slug
    decreases |orgs|
  {
    if orgs == [] then None
    else if orgs[0].slug == slug then Some(0)
    else
      var k := FirstWithSlug(orgs[1..], slug);
      if k.Some? then Some(k.value + 1) else None
  }

  /** A non-empty target slug picks the first organisation whose slug is that
      string and fails when there is none; otherwise the first organisation. */
  function ChooseOrganization(orgs: seq<Organization>, target: Option<string>): (r: Result<Organization, Error>)
    requires orgs != []
    ensures (target.None? || target.value == "") ==> r == Success(orgs[0])
    ensures target.Some? && target.value != "" ==>
      (r.Success? <==> exists i :: 0 <= i < |orgs| && orgs[i].slug == JStr(target.value))
    ensures target.Some? && target.value != "" && r.Success? ==>
      exists i :: 0 <= i < |orgs| && orgs[i] == r.value && orgs[i].slug == JStr(target.value)
        && forall j :: 0 <= j < i ==> orgs[j].slug != JStr(target.value)
    ensures target.Some? && r.Failure? ==> r.error == ValueError("Organization '" + target.value + "' not found")
  {
    if target.Some? && target.value != "" then
      var k := FirstWithSlug(orgs, JStr(target.value));
      if k.Some? then Success(orgs[k.value]) else Failure(ValueError("Organization '" + target.value + "' not found"))
    else Success(orgs[0])
  }

  /** A discovery run: its result, the progress values reported, the world after. */
  datatype Run = Run(result: Result<Json, Error>, progress: seq<int>, world: World)

  function DiscoveryResult(org: Organization, teams: seq<Json>, projects: seq<Json>): Json {
    JObj(map["organization" := JObj(org.rawData), "teams" := JArr(teams), "projects" := JArr(projects)])
  }

  /** The team phase, which `projects_only` skips. */
  function TeamPhase(api: Api, org: Organization, projectsOnly: bool, w: World): (r: Reply<seq<Team>>)
    ensures projectsOnly ==> r == Reply(Success([]), w)
  {
    if projectsOnly then Reply(Success([]), w) else Teams(api, org.slug, w)
  }

  /** The project phase, which `teams_only` skips. */
  function ProjectPhase(api: Api, org: Organization, teamsOnly: bool, w: World): (r: Reply<seq<Project>>)
    ensures teamsOnly ==> r == Reply(Success([]), w)
  {
    if teamsOnly then Reply(Success([]), w) else Projects(api, org.slug, w)
  }

  /** `discover_all` once the organisation is chosen: progress 20, the teams
      and 60, the projects and 90, then 100 and the result. */
  function DiscoverIn(api: Api, org: Organization, projectsOnly: bool, teamsOnly: bool, w: World): (r: Run)
    ensures |r.progress| >= 1 && r.progress[0] == 20
  {
    var teams := TeamPhase(api, org, projectsOnly, w);
    if teams.result.Failure? then Run(Failure(teams.result.error), [20], teams.world)
    else
      var projects := ProjectPhase(api, org, teamsOnly, teams.world);
      if projects.result.Failure? then
        Run(Failure(projects.result.error), [20] + (if projectsOnly then [] else [60]), projects.world)
      else
        Run(Success(DiscoveryResult(org, SerializeTeams(teams.result.value), SerializeProjects(projects.result.value))),
          CompletedProgress(projectsOnly, teamsOnly), projects.world)
  }

  /** `discover_all`: progress 10, the organisation list, the choice of the
      organisation, then the rest of the run. */
  function Discover(api: Api, target: Option<string>, projectsOnly: bool, teamsOnly: bool, w: World): Run {
    var orgs := Organizations(api, w);
    if orgs.result.Failure? then Run(Failure(orgs.result.error), [10], orgs.world)
    else if orgs.result.value == [] then Run(Success(EmptyObj), [10], orgs.world)
    else
      var chosen := ChooseOrganization(orgs.result.value, target);
      if chosen.Failure? then Run(Failure(chosen.error), [10], orgs.world)
      else
        var run := DiscoverIn(api, chosen.value, projectsOnly, teamsOnly, orgs.world);
        Run(run.result, [10] + run.progress, run.world)
  }

  /** Without organisations the run returns `{}` after reporting only 10. */
  lemma DiscoverNoOrganizations(api: Api, target: Option<string>, projectsOnly: bool, teamsOnly: bool, w: World)
    requires Organizations(api, w).result == Success([])
    ensures Discover(api, target, projectsOnly, teamsOnly, w) == Run(Success(EmptyObj), [10], Organizations(api, w).world)
  {
  }

  /** A run that gets past the organisation list continues with the chosen one. */
  lemma DiscoverChosen(api: Api, target: Option<string>, projectsOnly: bool, teamsOnly: bool, w: World)
    requires Organizations(api, w).result.Success? && Organizations(api, w).result.value != []
    requires ChooseOrganization(Organizations(api, w).result.value, target).Success?
    ensures var orgs := Organizations(api, w);
      var run := DiscoverIn(api, ChooseOrganization(orgs.result.value, target).value, projectsOnly, teamsOnly, orgs.world);
      Discover(api, target, projectsOnly, teamsOnly, w) == Run(run.result, [10] + run.progress, run.world)
  {
  }

  /** With both skip flags set, neither phase runs: no request follows the
      organisation list and both lists are empty. */
  lemma DiscoverBothSkipped(api: Api, org: Organization, w: World)
    ensures DiscoverIn(api, org, true, true, w) == Run(Success(DiscoveryResult(org, [], [])), [20, 100], w)
  {
  }

  /** The result has exactly the keys organization, teams and projects; the
      organisation's raw payload is reported as it was; `projects_only` leaves
      the team list empty and `teams_only` the project list. */
  lemma DiscoverSkipFlags(api: Api, org: Organization, projectsOnly: bool, teamsOnly: bool, w: World)
    requires DiscoverIn(api, org, projectsOnly, teamsOnly, w).result.Success?
    ensures var d := DiscoverIn(api, org, projectsOnly, teamsOnly, w).result.value;
      && d.JObj? && d.obj.Keys == {"organization", "teams", "projects"}
      && d.obj["organization"] == JObj(org.rawData)
      && (projectsOnly ==> d.obj["teams"] == JArr([]))
      && (teamsOnly ==> d.obj["projects"] == JArr([]))
  {
    var teams := TeamPhase(api, org, projectsOnly, w);
    var projects := ProjectPhase(api, org, teamsOnly, teams.world);
    assert DiscoverIn(api, org, projectsOnly, teamsOnly, w).result.value ==
      DiscoveryResult(org, SerializeTeams(teams.result.value), SerializeProjects(projects.result.value));
    DiscoveryResultFields(org, SerializeTeams(teams.result.value), SerializeProjects(projects.result.value));
  }

  lemma DiscoveryResultFields(org: Organization, teams: seq<Json>, projects: seq<Json>)
    ensures var d := DiscoveryResult(org, teams, projects);
      && d.JObj? && d.obj.Keys == {"organization", "teams", "projects"}
      && d.obj["organization"] == JObj(org.rawData) && d.obj["teams"] == JArr(teams) && d.obj["projects"] == JArr(projects)
  {
  }

  predicate NonDecreasing(s: seq<int>) {
    forall i, j :: 0 <= i < j < |s| ==> s[i] <= s[j]
  }

  /** A completed run reports a non-decreasing selection of 10, 20, 60, 90, 100
      that starts with 10, 20 and ends with 100. */
  lemma DiscoverProgress(api: Api, target: Option<string>, projectsOnly: bool, teamsOnly: bool, w: World)
    requires Organizations(api, w).result.Success? && Organizations(api, w).result.value != []
    requires Discover(api, target, projectsOnly, teamsOnly, w).result.Success?
    ensures var p := Discover(api, target, projectsOnly, teamsOnly, w).progress;
      && p == [10] + CompletedProgress(projectsOnly, teamsOnly)
      && NonDecreasing(p) && p[0] == 10 && p[|p| - 1] == 100
  {
    var orgs := Organizations(api, w);
    var chosen := ChooseOrganization(orgs.result.value, target);
    var run := DiscoverIn(api, chosen.value, projectsOnly, teamsOnly, orgs.world);
    assert Discover(api, target, projectsOnly, teamsOnly, w) == Run(run.result, [10] + run.progress, run.world);
    DiscoverInProgress(api, chosen.value, projectsOnly, teamsOnly, orgs.world);
    ProgressNonDecreasing(projectsOnly, teamsOnly);
  }

  /** What a completed run reports after 10: 20, 60 unless the teams were
      skipped, 90 unless the projects were skipped, and 100. */
  function CompletedProgress(projectsOnly: bool, teamsOnly: bool): seq<int> {
    [20] + (if projectsOnly then [] else [60]) + (if teamsOnly then [] else [90]) + [100]
  }

  lemma ProgressNonDecreasing(projectsOnly: bool, teamsOnly: bool)
    ensures var p := [10] + CompletedProgress(projectsOnly, teamsOnly);
      NonDecreasing(p) && p[0] == 10 && p[|p| - 1] == 100
  {
  }

  /** The progress of a completed run inside the chosen organisation. */
  lemma DiscoverInProgress(api: Api, org: Organization, projectsOnly: bool, teamsOnly: bool, w: World)
    requires DiscoverIn(api, org, projectsOnly, teamsOnly, w).result.Success?
    ensures DiscoverIn(api, org, projectsOnly, teamsOnly, w).progress == CompletedProgress(projectsOnly, teamsOnly)
  {
    var teams := TeamPhase(api, org, projectsOnly, w);
    var projects := ProjectPhase(api, org, teamsOnly, teams.world);
    assert teams.result.Success? && projects.result.Success?;
  }

  /** `test_connection`: whether the organisation list is non-empty; every
      failure reads as false. */
  datatype Probe = Probe(ok: bool, world: World)

  function ConnectionOk(api: Api, w: World): (r: Probe)
    ensures r.world == Organizations(api, w).world
  {
    var orgs := Organizations(api, w);
    Probe(orgs.result.Success? && |orgs.result.value| > 0, orgs.world)
  }

  /** A connection test passes exactly when a run from the same world gets
      past the organisation list: it neither fails there nor returns `{}`. */
  lemma ConnectionOkMeansDiscovery(api: Api, projectsOnly: bool, teamsOnly: bool, w: World)
    ensures ConnectionOk(api, w).ok <==>
      var p := Discover(api, None, projectsOnly, teamsOnly, w).progress;
      |p| >= 2 && p[0] == 10 && p[1] == 20
  {
    var orgs := Organizations(api, w);
    if orgs.result.Failure? {
      assert Discover(api, None, projectsOnly, teamsOnly, w).progress == [10];
    } else if orgs.result.value == [] {
      DiscoverNoOrganizations(api, None, projectsOnly, teamsOnly, w);
    } else {
      assert ChooseOrganization(orgs.result.value, None).Success?;
      DiscoverChosen(api, None, projectsOnly, teamsOnly, w);
    }
  }
}
