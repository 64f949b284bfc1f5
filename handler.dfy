/**
  handleRequest: the ordered cascade that classifies a request (preflight,
  health check, proxy), refuses what it must refuse, forwards the rest to the
  upstream API with the server credential and translates the upstream's
  outcome, faults included, into a response.

  The network is not modelled: the upstream's outcome is an argument, and
  the result records the one upstream request the handler would issue, if any.
*/
module Handler {
  import opened Params
  import opened Validation
  import opened Responses
  import opened Sanitization

  /** What the handler reads of an inbound request; the URL arrives already split and decoded. */
  datatype Request = Request(
    httpMethod: string,
    path: string,
    /** `url.search === ''`: there is no query string, or only a bare `?`. */
    searchEmpty: bool,
    /** The decoded query, in order. */
    params: seq<Param>)

  /** The worker's configuration: the secret `APRS_API_KEY`, possibly unset. */
  datatype Env = Env(apiKey: Option<string>)

  /** The upstream body as `response.json()` sees it. */
  datatype Payload =
    | NotJson
      /** The literal `null`: reading `.result` of it throws. */
    | JsonNull
      /** Any other JSON value; `result` is its `result` field when that is a string. */
    | Json(result: Option<string>, text: string)

  /** How the single upstream call ends. */
  datatype Upstream =
    | Timeout
      /** Any other failure of the call: DNS, connection reset, ... */
    | Fault
    | Http(status: nat, statusText: string, payload: Payload)

  /** The upstream request the handler issues. */
  datatype Outbound = Outbound(endpoint: string, query: seq<Param>, userAgent: string, timeoutMs: nat)

  /** The response, and the upstream request made on the way to it, if one was. */
  datatype Outcome = Outcome(response: Response, call: Option<Outbound>)

  const Endpoint := "https://api.aprs.fi/api/get"
  const UserAgent := "aprsfi-proxy/1.0.0 (Cloudflare Worker)"
  const TimeoutMs: nat := 10000

  const MethodNotAllowed := "Method not allowed. Use GET."
  const NotConfigured := "APRS_API_KEY not configured. Please set the worker secret."
  const TimeoutMessage := "Request timeout. APRS.fi API did not respond in time."
  const InternalMessage := "Internal server error. Please try again later."

  /** `/health`, or the root with no query string. */
  predicate IsHealthRoute(path: string, searchEmpty: bool) {
    path == "/health" || (path == "/" && searchEmpty)
  }

  /** `response.ok`. */
  predicate IsOk(status: nat) {
    200 <= status <= 299
  }

  /**
    `new Response(body, {status})` throws unless the status lies in 200..599
    and is not a null-body status (101, 103, 204, 205, 304): those responses
    may not carry a body, and the error envelope is one.
  */
  predicate CanCarryBody(status: nat) {
    200 <= status <= 599 && status !in {101, 103, 204, 205, 304}
  }

  /** The message of a mirrored upstream error: the fixed prefix, the status in decimal, then the reason phrase. */
  function UpstreamErrorMessage(status: nat, statusText: string): (m: string)
    ensures |m| == 20 + |Decimal(status)| + |statusText|
    ensures m[..19] == "APRS.fi API error: "
    ensures m[19..|m| - |statusText| - 1] == Decimal(status)
    ensures m[|m| - |statusText| - 1..] == " " + statusText
  {
    var prefix := "APRS.fi API error: ";
    var m := prefix + Decimal(status) + " " + statusText;
    assert m[..19] == prefix;
    assert m[19..|m| - |statusText| - 1] == Decimal(status);
    m
  }

  /**
    Everything after the upstream call starts: the status check, the check for
    an application-level failure, the success answer, and the catch branch that
    turns an abort into 504 and every other exception into 500.
  */
  function Translate(u: Upstream): (r: Response)
    ensures HasCors(r)
    ensures u.Timeout? ==> r == ErrorResponse(TimeoutMessage, 504)
    ensures u.Fault? ==> r == ErrorResponse(InternalMessage, 500)
    ensures u.Http? && !IsOk(u.status) && CanCarryBody(u.status) ==>
      r.status == u.status && r.body == ErrorEnvelope(UpstreamErrorMessage(u.status, u.statusText), ServiceName)
    ensures u.Http? && !IsOk(u.status) && !CanCarryBody(u.status) ==> r == ErrorResponse(InternalMessage, 500)
    ensures u.Http? && IsOk(u.status) && !u.payload.Json? ==> r == ErrorResponse(InternalMessage, 500)
    ensures u.Http? && IsOk(u.status) && u.payload.Json? && u.payload.result == Some("fail") ==>
      r.status == 400 && r.body == Verbatim(u.payload.text) && IsJson(r) && !Cacheable(r)
    ensures u.Http? && IsOk(u.status) && u.payload.Json? && u.payload.result != Some("fail") ==>
      r.status == 200 && r.body == Verbatim(u.payload.text) && IsJson(r) &&
      Cacheable(r) && r.headers["Cache-Control"] == CachePolicy()
  {
    match u
    case Timeout => ErrorResponse(TimeoutMessage, 504)
    case Fault => ErrorResponse(InternalMessage, 500)
    case Http(status, statusText, payload) =>
      if !IsOk(status) then
        // the envelope cannot be built for this status, and the catch answers instead
        if CanCarryBody(status) then ErrorResponse(UpstreamErrorMessage(status, statusText), status)
        else ErrorResponse(InternalMessage, 500)
      else
        match payload
        case NotJson => ErrorResponse(InternalMessage, 500)
        case JsonNull => ErrorResponse(InternalMessage, 500)
        case Json(result, text) =>
          if result == Some("fail") then
            Response(400, JsonHeaders(), Verbatim(text))
          else
            Response(200, JsonHeaders()["Cache-Control" := CachePolicy()], Verbatim(text))
  }

  /** handleRequest, with `now` the clock reading the health report would show. */
  function HandleRequest(req: Request, env: Env, upstream: Upstream, now: string): (o: Outcome)
    ensures HasCors(o.response)
  {
    if req.httpMethod == "OPTIONS" then
      Outcome(HandleOptions(), None)
    else if IsHealthRoute(req.path, req.searchEmpty) then
      Outcome(HandleHealth(now), None)
    else if req.httpMethod != "GET" then
      Outcome(ErrorResponse(MethodNotAllowed, 405), None)
    else if !Truthy(env.apiKey) then
      Outcome(ErrorResponse(NotConfigured, 500), None)
    else
      var params := Sanitized(req.params, env.apiKey.value);
      match Validate(params)
      case Invalid(message) => Outcome(ErrorResponse(message, 400), None)
      case Valid => Outcome(Translate(upstream), Some(Outbound(Endpoint, params, UserAgent, TimeoutMs)))
  }

  /** The request passes every check that comes before the upstream call. */
  predicate Proxied(req: Request, env: Env) {
    req.httpMethod == "GET" && !IsHealthRoute(req.path, req.searchEmpty) &&
    Truthy(env.apiKey) && Validate(req.params).Valid?
  }

  /** A preflight is answered first, on any path, without a body and without calling upstream. */
  lemma PreflightFirst(req: Request, env: Env, upstream: Upstream, now: string)
    requires req.httpMethod == "OPTIONS"
    ensures var o := HandleRequest(req, env, upstream, now);
      o.response.status == 204 && o.response.body == NoBody && o.call.None?
  {
  }

  /** The health route answers 200 to every method but OPTIONS, before the method is checked. */
  lemma HealthAnyMethod(req: Request, env: Env, upstream: Upstream, now: string)
    requires req.httpMethod != "OPTIONS" && IsHealthRoute(req.path, req.searchEmpty)
    ensures var o := HandleRequest(req, env, upstream, now);
      o.response.status == 200 && o.response.body == HealthReport("healthy", ServiceName, Version, now) &&
      o.call.None?
  {
  }

  /** Off the health route, every method but GET and OPTIONS is refused with 405. */
  lemma OnlyGetIsProxied(req: Request, env: Env, upstream: Upstream, now: string)
    requires req.httpMethod != "OPTIONS" && req.httpMethod != "GET"
    requires !IsHealthRoute(req.path, req.searchEmpty)
    ensures var o := HandleRequest(req, env, upstream, now);
      o.response == ErrorResponse(MethodNotAllowed, 405) && o.call.None?
  {
  }

  /** HEAD is listed in Access-Control-Allow-Methods, yet a HEAD proxy request is refused. */
  lemma HeadAdvertisedButRefused(req: Request, env: Env, upstream: Upstream, now: string)
    requires req.httpMethod == "HEAD" && !IsHealthRoute(req.path, req.searchEmpty)
    ensures CorsHeaders["Access-Control-Allow-Methods"] == "GET, HEAD, OPTIONS"
    ensures HandleRequest(req, env, upstream, now).response.status == 405
  {
  }

  /** Without a configured credential a proxy request fails with 500 and nothing is sent upstream. */
  lemma MissingCredential(req: Request, env: Env, upstream: Upstream, now: string)
    requires req.httpMethod == "GET" && !IsHealthRoute(req.path, req.searchEmpty)
    requires !Truthy(env.apiKey)
    ensures var o := HandleRequest(req, env, upstream, now);
      o.response == ErrorResponse(NotConfigured, 500) && o.call.None?
  {
  }

  /** A request the validator rejects gets 400 with the validator's message, and nothing is sent upstream. */
  lemma InvalidParameters(req: Request, env: Env, upstream: Upstream, now: string)
    requires req.httpMethod == "GET" && !IsHealthRoute(req.path, req.searchEmpty)
    requires Truthy(env.apiKey) && Validate(req.params).Invalid?
    ensures var o := HandleRequest(req, env, upstream, now);
      o.response == ErrorResponse(Validate(req.params).message, 400) && o.call.None?
  {
    ValidateIgnoresCredential(req.params, env.apiKey.value);
  }

  /** The upstream is called exactly for the requests that pass every earlier check. */
  lemma UpstreamCalledExactlyWhenProxied(req: Request, env: Env, upstream: Upstream, now: string)
    ensures HandleRequest(req, env, upstream, now).call.Some? <==> Proxied(req, env)
  {
    if Truthy(env.apiKey) {
      ValidateIgnoresCredential(req.params, env.apiKey.value);
    }
  }

  /**
    The upstream request goes to the fixed endpoint with the identifying agent
    and the 10 s budget, and its query holds the server key as its one and last
    `apikey`, after the client's other parameters unchanged and in order.
  */
  lemma CredentialNeverOverridden(req: Request, env: Env, upstream: Upstream, now: string)
    requires HandleRequest(req, env, upstream, now).call.Some?
    ensures var c := HandleRequest(req, env, upstream, now).call.value;
      c.endpoint == Endpoint && c.userAgent == UserAgent && c.timeoutMs == TimeoutMs &&
      c.query == Without(req.params, ApiKeyParam) + [Param(ApiKeyParam, env.apiKey.value)] &&
      Count(c.query, ApiKeyParam) == 1 && Get(c.query, ApiKeyParam) == env.apiKey &&
      Without(c.query, ApiKeyParam) == Without(req.params, ApiKeyParam)
  {
    SanitizedAppends(req.params, env.apiKey.value);
    SanitizedCredential(req.params, env.apiKey.value);
  }

  /** A request that passes every check is forwarded as the client's list without `apikey`, then the server key. */
  lemma ForwardedCall(req: Request, env: Env, upstream: Upstream, now: string)
    requires Proxied(req, env)
    ensures HandleRequest(req, env, upstream, now).call ==
      Some(Outbound(Endpoint, Without(req.params, ApiKeyParam) + [Param(ApiKeyParam, env.apiKey.value)], UserAgent, TimeoutMs))
  {
    UpstreamCalledExactlyWhenProxied(req, env, upstream, now);
    CredentialNeverOverridden(req, env, upstream, now);
  }

  /** Once the upstream was called, the response depends on its outcome alone. */
  lemma ProxiedResponse(req: Request, env: Env, upstream: Upstream, now: string)
    requires Proxied(req, env)
    ensures HandleRequest(req, env, upstream, now).response == Translate(upstream)
  {
    ValidateIgnoresCredential(req.params, env.apiKey.value);
  }

  /**
    The shape of every response: an error envelope never carries a 2xx status
    and always names the service; an upstream body is passed on only after an
    upstream call and only with 200 or 400; only an upstream success is cacheable.
  */
  lemma ResponseShape(req: Request, env: Env, upstream: Upstream, now: string)
    ensures var o := HandleRequest(req, env, upstream, now);
      (o.response.body.ErrorEnvelope? ==>
        !IsOk(o.response.status) && o.response.body.service == ServiceName && IsJson(o.response)) &&
      (o.response.body.Verbatim? ==>
        o.call.Some? && (o.response.status == 200 || o.response.status == 400)) &&
      (Cacheable(o.response) ==>
        o.call.Some? && o.response.status == 200 && o.response.body.Verbatim?)
  {
    var o := HandleRequest(req, env, upstream, now);
    if req.httpMethod != "OPTIONS" && !IsHealthRoute(req.path, req.searchEmpty) &&
      req.httpMethod == "GET" && Truthy(env.apiKey) && Validate(Sanitized(req.params, env.apiKey.value)).Valid? {
      assert o.response == Translate(upstream) && o.call.Some?;
    } else {
      assert o.call.None? && !o.response.body.Verbatim? && !Cacheable(o.response);
    }
  }

  /**
    Every response has a status `new Response` accepts, and only the preflight
    answer, which has no body, uses a null-body status; so building the
    response never throws.
  */
  lemma ResponseConstructible(req: Request, env: Env, upstream: Upstream, now: string)
    ensures var o := HandleRequest(req, env, upstream, now);
      200 <= o.response.status <= 599 &&
      (o.response.body != NoBody ==> CanCarryBody(o.response.status))
  {
    var r := HandleRequest(req, env, upstream, now).response;
    if req.httpMethod != "OPTIONS" && !IsHealthRoute(req.path, req.searchEmpty) &&
      req.httpMethod == "GET" && Truthy(env.apiKey) && Validate(Sanitized(req.params, env.apiKey.value)).Valid? {
      assert r == Translate(upstream);
    }
  }

  /**
    The mirrored error message tells the upstream status back: two statuses
    with the same reason phrase give two different messages.
  */
  lemma UpstreamErrorMessageInjective(s1: nat, s2: nat, statusText: string)
    requires UpstreamErrorMessage(s1, statusText) == UpstreamErrorMessage(s2, statusText)
    ensures s1 == s2
  {
    assert Decimal(s1) == Decimal(s2);
    DecimalInjective(s1, s2);
  }

  /** `GET /?what=loc`: a proxy request, not the health route, refused by validation before any upstream call. */
  lemma LocWithoutTargetRefused(upstream: Upstream, now: string)
    ensures var o := HandleRequest(Request("GET", "/", false, [Param("what", "loc")]), Env(Some("K")), upstream, now);
      o.response == ErrorResponse(MissingTarget("loc"), 400) && o.call.None?
  {
    var ps := [Param("what", "loc")];
    InvalidParameters(Request("GET", "/", false, ps), Env(Some("K")), upstream, now);
  }

  /** The client list of the next lemma: it passes validation, and deleting `apikey` leaves the rest. */
  lemma ClientListFacts(client: string, callsign: string)
    requires callsign != ""
    ensures var qs := [Param("apikey", client), Param("what", "loc"), Param("name", callsign)];
      Without(qs, ApiKeyParam) == qs[1..] && Validate(qs).Valid?
  {
    var qs := [Param("apikey", client), Param("what", "loc"), Param("name", callsign)];
    var t := qs[1..];
    var u := t[1..];
    assert qs == [qs[0]] + t && t == [t[0]] + u && u == [u[0]] + [];
    assert Without(u, ApiKeyParam) == u;
    assert Without(t, ApiKeyParam) == t;
    GetCons(t[0], u, "what");
    GetCons(qs[0], t, "what");
    GetCons(u[0], [], "name");
    GetCons(t[0], u, "name");
    GetCons(qs[0], t, "name");
  }

  /**
    `GET /?apikey=<client>&what=loc&name=<callsign>`: the client's key is dropped
    and the server key goes last.
  */
  lemma ClientKeyReplaced(client: string, key: string, callsign: string, upstream: Upstream, now: string)
    requires key != "" && callsign != ""
    ensures var o := HandleRequest(
        Request("GET", "/", false, [Param("apikey", client), Param("what", "loc"), Param("name", callsign)]),
        Env(Some(key)), upstream, now);
      o.call == Some(Outbound(Endpoint,
        [Param("what", "loc"), Param("name", callsign), Param("apikey", key)], UserAgent, TimeoutMs))
  {
    var qs := [Param("apikey", client), Param("what", "loc"), Param("name", callsign)];
    var req := Request("GET", "/", false, qs);
    var env := Env(Some(key));
    ClientListFacts(client, callsign);
    assert Proxied(req, env);
    ForwardedCall(req, env, upstream, now);
    assert qs[1..] + [Param(ApiKeyParam, key)] ==
      [Param("what", "loc"), Param("name", callsign), Param("apikey", key)];
  }

  /** A POST off the health route is refused; a POST to `/` with no query gets the health report. */
  lemma PostRequests(upstream: Upstream, now: string)
    ensures HandleRequest(Request("POST", "/", false, [Param("what", "loc")]), Env(Some("K")), upstream, now).response.status == 405
    ensures HandleRequest(Request("POST", "/", true, []), Env(None), upstream, now).response.status == 200
  {
  }

  /** The message of a mirrored upstream error, for a 503. */
  lemma UpstreamErrorExample(statusText: string)
    ensures UpstreamErrorMessage(503, statusText) == "APRS.fi API error: " + "503" + " " + statusText
  {
    assert Decimal(5) == "5";
    assert Decimal(50) == Decimal(5) + "0";
    assert Decimal(503) == Decimal(50) + "3";
  }
}
