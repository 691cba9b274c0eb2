/** The CHIP REST client (`ChipFluentCartApi`): how each request is addressed and
    authenticated, the rule that turns a response body into a result or null,
    and the debug-gated log it leaves behind. */
module ChipApi {
  import opened PhpValues
  import opened Platform

  /** `CHIP_FOR_FLUENTCART_ROOT_URL` when the site does not define its own. */
  const DefaultRootUrl := "https://gate.chip-in.asia/api"

  /** The constructor arguments of the client: root URL, secret key, brand and
      the debug flag ("yes" or "no"). */
  datatype Client = Client(rootUrl: string, secretKey: string, brandId: string, debug: string)

  datatype Level = Info | Error

  /** One line handed to the logger. Messages that embed a `print_r` dump carry
      only their fixed prefix. */
  datatype LogEntry = LogEntry(level: Level, text: string)

  /** What one API call did: the request it sent, the decoded result (`None` for
      PHP's null) and the log lines it wrote. */
  datatype Reply = Reply(request: HttpRequest, result: Option<Value>, logs: seq<LogEntry>)

  /** `log_info`: logs only when debug is exactly "yes". */
  function LogInfo(c: Client, text: string): (logs: seq<LogEntry>)
    ensures c.debug == "yes" ==> logs == [LogEntry(Info, text)]
    ensures c.debug != "yes" ==> logs == []
  {
    if c.debug == "yes" then [LogEntry(Info, text)] else []
  }

  /** `log_error`: returns early unless debug is exactly "yes". */
  function LogError(c: Client, text: string): (logs: seq<LogEntry>)
    ensures c.debug == "yes" ==> logs == [LogEntry(Error, text)]
    ensures c.debug != "yes" ==> logs == []
  {
    if c.debug != "yes" then [] else [LogEntry(Error, text)]
  }

  predicate HasError(logs: seq<LogEntry>) {
    exists j :: 0 <= j < |logs| && logs[j].level == Error
  }

  /** The headers of every call: JSON content and the bearer secret key. */
  function Headers(secretKey: string): seq<(string, string)> {
    [("Content-type", "application/json"), ("Authorization", "Bearer " + secretKey)]
  }

  /** The request `call` builds for a route: the URL is the root, then `/v1`,
      then the route; parameters are JSON-encoded only when non-empty. */
  function BuildRequest(c: Client, env: Env, verb: string, route: string, params: Value): (q: HttpRequest)
    ensures |q.url| >= |c.rootUrl| && q.url[..|c.rootUrl|] == c.rootUrl && q.url[|c.rootUrl|..] == "/v1" + route
    ensures q.verb == verb
    ensures |q.headers| == 2
    ensures q.headers[0] == ("Content-type", "application/json")
    ensures q.headers[1] == ("Authorization", "Bearer " + c.secretKey)
    ensures q.body.None? <==> Empty(params)
    ensures q.body.Some? ==> q.body.value == env.jsonEncode(params)
  {
    HttpRequest(verb, c.rootUrl + "/v1" + route,
                if Empty(params) then None else Some(env.jsonEncode(params)),
                Headers(c.secretKey))
  }

  /** The rule at the end of `call`: a body that does not decode to a truthy
      value, or whose decoded `errors` field is non-empty, yields null; any
      other decoded value is returned unchanged. */
  function Classify(decoded: Option<Value>): (r: Option<Value>)
    ensures r.Some? ==> r == decoded
    ensures r.Some? <==> decoded.Some? && !Empty(decoded.value) && Empty(Field(decoded.value, "errors", Null))
  {
    if decoded.None? || Empty(decoded.value) then None
    else if !Empty(Field(decoded.value, "errors", Null)) then None
    else decoded
  }

  /** `request`: sends, and logs an error for any code other than 200 or 201
      without otherwise acting on it. */
  function RequestLogs(c: Client, q: HttpRequest, response: HttpResponse): seq<LogEntry> {
    LogInfo(c, q.verb + " `" + q.url + "`")
    + (if response.code != 200 && response.code != 201
       then LogError(c, q.verb + " " + q.url + ": " + IntToString(response.code))
       else [])
  }

  /** `call`. */
  function Call(c: Client, env: Env, verb: string, route: string, params: Value): (r: Reply)
    ensures r.request == BuildRequest(c, env, verb, route, params)
    ensures r.result == Classify(env.jsonDecode(env.send(r.request).body))
    ensures c.debug != "yes" ==> r.logs == []
    ensures c.debug == "yes" && r.result.None? ==> HasError(r.logs)
  {
    var q := BuildRequest(c, env, verb, route, params);
    var response := env.send(q);
    var decoded := env.jsonDecode(response.body);
    var result := Classify(decoded);
    var failure :=
      if decoded.None? || Empty(decoded.value) then LogError(c, "JSON parsing error/NULL API response")
      else if result.None? then LogError(c, "API error")
      else [];
    var logs := RequestLogs(c, q, response) + LogInfo(c, "received response: " + response.body) + failure;
    assert c.debug == "yes" && result.None? ==> logs[|logs| - 1].level == Error;
    Reply(q, result, logs)
  }

  /** A non-200/201 code only adds a log line: replacing every response's code
      leaves the result of any call unchanged. */
  lemma StatusCodeOnlyLogged(c: Client, env: Env, verb: string, route: string, params: Value, code: int)
    ensures var env' := env.(send := (q: HttpRequest) => HttpResponse(code, env.send(q).body));
            Call(c, env', verb, route, params).result == Call(c, env, verb, route, params).result
  {
  }

  /** Adds the wrapper's own log lines around a call. */
  function Wrap(before: seq<LogEntry>, reply: Reply, after: seq<LogEntry>): Reply {
    reply.(logs := before + reply.logs + after)
  }

  function CreatePaymentRoute(now: nat): string {
    "/purchases/?time=" + NatToString(now)
  }

  function GetPaymentRoute(paymentId: Value, now: nat): string {
    "/purchases/" + Interpolate(paymentId) + ("/?time=" + NatToString(now))
  }

  function RefundRoute(paymentId: Value): string {
    "/purchases/" + Interpolate(paymentId) + "/refund/"
  }

  const PublicKeyRoute := "/public_key/"

  /** `create_payment`: POST to the purchases collection, cache-busted with the time. */
  function CreatePayment(c: Client, env: Env, params: Value): (r: Reply)
    ensures r.request == BuildRequest(c, env, "POST", CreatePaymentRoute(env.now), params)
    ensures r.result == Classify(env.jsonDecode(env.send(r.request).body))
    ensures c.debug != "yes" ==> r.logs == []
  {
    Wrap(LogInfo(c, "creating purchase"), Call(c, env, "POST", CreatePaymentRoute(env.now), params), [])
  }

  /** `get_payment`: GET one purchase, cache-busted with the time. */
  function GetPayment(c: Client, env: Env, paymentId: Value): (r: Reply)
    ensures r.request == BuildRequest(c, env, "GET", GetPaymentRoute(paymentId, env.now), Arr([]))
    ensures r.request.body.None?
    ensures r.result == Classify(env.jsonDecode(env.send(r.request).body))
    ensures c.debug != "yes" ==> r.logs == []
  {
    var reply := Call(c, env, "GET", GetPaymentRoute(paymentId, env.now), Arr([]));
    Wrap(LogInfo(c, "get payment: " + Interpolate(paymentId)), reply, LogInfo(c, "success check result"))
  }

  /** `refund_payment`: POST the refund parameters to the purchase's refund route. */
  function RefundPayment(c: Client, env: Env, paymentId: Value, params: Value): (r: Reply)
    ensures r.request == BuildRequest(c, env, "POST", RefundRoute(paymentId), params)
    ensures r.result == Classify(env.jsonDecode(env.send(r.request).body))
    ensures c.debug != "yes" ==> r.logs == []
  {
    var reply := Call(c, env, "POST", RefundRoute(paymentId), params);
    Wrap(LogInfo(c, "refunding payment: " + Interpolate(paymentId)), reply, LogInfo(c, "payment refund result"))
  }

  /** `public_key`: GET the brand's webhook verification key. */
  function PublicKey(c: Client, env: Env): (r: Reply)
    ensures r.request == BuildRequest(c, env, "GET", PublicKeyRoute, Arr([]))
    ensures r.result == Classify(env.jsonDecode(env.send(r.request).body))
    ensures c.debug != "yes" ==> r.logs == []
  {
    var reply := Call(c, env, "GET", PublicKeyRoute, Arr([]));
    Wrap(LogInfo(c, "getting public key"), reply, LogInfo(c, "public key"))
  }

  /** Strings that agree once wrapped in the same prefix and suffix are equal. */
  lemma CancelAffixes(p: string, x: string, y: string, s: string)
    requires p + x + s == p + y + s
    ensures x == y
  {
    assert |x| == |y|;
    assert x == (p + x + s)[|p|..|p| + |x|];
    assert y == (p + y + s)[|p|..|p| + |y|];
  }

  lemma UrlShape(root: string, collection: string, id: string, suffix: string)
    ensures root + "/v1" + (collection + id + suffix) == (root + "/v1" + collection) + id + suffix
  {
  }

  /** Two refund requests from the same client go to the same URL only when the
      purchase ids interpolate to the same text: the URL names the purchase. */
  lemma RefundUrlIdentifiesPurchase(c: Client, env: Env, a: Value, b: Value, pa: Value, pb: Value)
    requires RefundPayment(c, env, a, pa).request.url == RefundPayment(c, env, b, pb).request.url
    ensures Interpolate(a) == Interpolate(b)
  {
    var prefix := c.rootUrl + "/v1" + "/purchases/";
    UrlShape(c.rootUrl, "/purchases/", Interpolate(a), "/refund/");
    UrlShape(c.rootUrl, "/purchases/", Interpolate(b), "/refund/");
    CancelAffixes(prefix, Interpolate(a), Interpolate(b), "/refund/");
  }

  /** Likewise for status polls made at the same time. */
  lemma PollUrlIdentifiesPurchase(c: Client, env: Env, a: Value, b: Value)
    requires GetPayment(c, env, a).request.url == GetPayment(c, env, b).request.url
    ensures Interpolate(a) == Interpolate(b)
  {
    var prefix := c.rootUrl + "/v1" + "/purchases/";
    var suffix := "/?time=" + NatToString(env.now);
    UrlShape(c.rootUrl, "/purchases/", Interpolate(a), suffix);
    UrlShape(c.rootUrl, "/purchases/", Interpolate(b), suffix);
    CancelAffixes(prefix, Interpolate(a), Interpolate(b), suffix);
  }
}
