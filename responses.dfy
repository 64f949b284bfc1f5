/**
  The responses the handler builds itself: the CORS preflight answer, the
  health report and the uniform error envelope, all carrying the same four
  cross-origin headers.
*/
module Responses {

  const ServiceName := "aprsfi-proxy"
  const Version := "1.0.0"

  /** Seconds a successful upstream answer may be cached by clients. */
  const CacheTtl: nat := 30

  const CorsHeaders: map<string, string> := map[
    "Access-Control-Allow-Origin" := "*",
    "Access-Control-Allow-Methods" := "GET, HEAD, OPTIONS",
    "Access-Control-Allow-Headers" := "Content-Type",
    "Access-Control-Max-Age" := "86400"
  ]

  /** The body of a response; the JSON text itself is not modelled. */
  datatype Body =
    | NoBody
      /** `{status, service, version, timestamp}` of the health report. */
    | HealthReport(status: string, service: string, version: string, timestamp: string)
      /** `{error, service}` of every error response. */
    | ErrorEnvelope(error: string, service: string)
      /** The upstream's parsed JSON, serialized again unchanged. */
    | Verbatim(json: string)

  datatype Response = Response(status: nat, headers: map<string, string>, body: Body)

  /** The response carries every cross-origin header with its fixed value. */
  predicate HasCors(r: Response) {
    forall h :: h in CorsHeaders ==> h in r.headers && r.headers[h] == CorsHeaders[h]
  }

  /** The response says its body is JSON. */
  predicate IsJson(r: Response) {
    "Content-Type" in r.headers && r.headers["Content-Type"] == "application/json"
  }

  /** The response invites clients to cache it. */
  predicate Cacheable(r: Response) {
    "Cache-Control" in r.headers
  }

  /** `{'Content-Type': 'application/json', ...CORS_HEADERS}`. */
  function JsonHeaders(): map<string, string> {
    CorsHeaders["Content-Type" := "application/json"]
  }

  lemma JsonHeadersFacts()
    ensures HasCors(Response(200, JsonHeaders(), NoBody))
    ensures "Cache-Control" !in JsonHeaders()
    ensures JsonHeaders().Keys == CorsHeaders.Keys + {"Content-Type"}
  {
  }

  /** handleOptions: the answer to a CORS preflight. */
  function HandleOptions(): (r: Response)
    ensures r.status == 204 && r.body == NoBody
    ensures r.headers == CorsHeaders
    ensures HasCors(r) && !IsJson(r) && !Cacheable(r)
  {
    Response(204, CorsHeaders, NoBody)
  }

  /** handleHealth; the clock reading is taken as the argument `timestamp`. */
  function HandleHealth(timestamp: string): (r: Response)
    ensures r.status == 200 && r.body.HealthReport?
    ensures r.body.status == "healthy" && r.body.service == ServiceName
    ensures r.body.version == Version && r.body.timestamp == timestamp
    ensures HasCors(r) && IsJson(r) && !Cacheable(r)
  {
    Response(200, JsonHeaders(), HealthReport("healthy", ServiceName, Version, timestamp))
  }

  /** errorResponse: the envelope `{error: message, service}` with the given status. */
  function ErrorResponse(message: string, status: nat := 500): (r: Response)
    ensures r.status == status
    ensures r.body.ErrorEnvelope? && r.body.error == message && r.body.service == ServiceName
    ensures HasCors(r) && IsJson(r) && !Cacheable(r)
  {
    Response(status, JsonHeaders(), ErrorEnvelope(message, ServiceName))
  }

  /** The `Cache-Control` value of a successful upstream answer. */
  function CachePolicy(): string {
    "public, max-age=" + Decimal(CacheTtl)
  }

  lemma CachePolicyText()
    ensures CachePolicy() == "public, max-age=30"
  {
    assert Decimal(3) == "3";
    assert Decimal(30) == Decimal(3) + "0";
  }

  /** A decimal digit for 0..9. */
  function Digit(d: nat): char
    requires d < 10
  {
    "0123456789"[d]
  }

  /** The value of a decimal digit character. */
  function DigitValue(c: char): nat
    requires '0' <= c <= '9'
  {
    c as nat - '0' as nat
  }

  /** The decimal text of a number, as a template literal renders it: no sign, no leading zeros. */
  function Decimal(n: nat): (s: string)
    ensures |s| >= 1
    ensures forall i :: 0 <= i < |s| ==> '0' <= s[i] <= '9'
    ensures |s| > 1 ==> s[0] != '0'
    decreases n
  {
    if n < 10 then [Digit(n)] else Decimal(n / 10) + [Digit(n % 10)]
  }

  /** The number a string of decimal digits denotes. */
  function ParseDecimal(s: string): nat
    requires forall i :: 0 <= i < |s| ==> '0' <= s[i] <= '9'
  {
    if s == [] then 0 else 10 * ParseDecimal(s[..|s| - 1]) + DigitValue(s[|s| - 1])
  }

  /** Reading the rendered status back gives the status: the rendering loses nothing. */
  lemma {:induction false} DecimalRoundTrip(n: nat)
    ensures ParseDecimal(Decimal(n)) == n
    decreases n
  {
    var s := Decimal(n);
    if n < 10 {
      assert s[..0] == [];
    } else {
      DecimalRoundTrip(n / 10);
      assert s[..|s| - 1] == Decimal(n / 10);
    }
  }

  /** Different statuses are rendered differently. */
  lemma DecimalInjective(m: nat, n: nat)
    requires Decimal(m) == Decimal(n)
    ensures m == n
  {
    DecimalRoundTrip(m);
    DecimalRoundTrip(n);
  }
}
