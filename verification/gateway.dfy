/** The request forwarder (`GatewayService` in src/middleware/gateway.service.ts).

    The HTTP client is a parameter `send`: the handlers build the request,
    hand it to `send`, and classify what comes back into one of four outcomes.
    The framework's response object is modelled as the `sink` field: the one
    `res.status(..); res.json(..)` write the JSON path may perform. */
module Gateway {
  import opened Wrappers
  import opened JsonValues
  import Headers

  /** The request the JSON path dispatches. */
  datatype Request = Request(verb: string, url: string, data: Json, headers: Headers.Outbound)

  /** How the HTTP client settles, classified the way the catch block probes it:
      a 2xx response, an error that carries a response, an error that carries
      only the sent request, and an error raised before anything was sent. */
  datatype Transport =
    | Ok(status: int, data: Json)
    | HttpError(status: int, data: Json)
    | NoResponse
    | SetupFailure(message: string)

  /** One write to the response sink: a status code and a JSON body. */
  datatype Reply = Reply(status: int, body: Json)

  /** How a handler's own promise settles: resolved with a value (`None` is
      `undefined`), or rejected by a TypeError thrown inside the catch block. */
  datatype Completion = Resolved(value: Option<Json>) | Rejected

  /** What the JSON path does once the client has settled. */
  datatype JsonEffect = JsonEffect(sink: Option<Reply>, completion: Completion)

  datatype JsonCall = JsonCall(sent: Request, effect: JsonEffect)

  const LicenseSentinel: string := "ERR_YOUTUBE_LICENSE_VALIDATION"
  const InternalServerError: string := "Internal server error"

  /** The `result` the license shim writes. */
  const LicenseResult: Json :=
    JObj(map["license" := JObj(map["valid" := JBool(false), "value" := JStr("youtube")])])

  const InternalErrorParams: Json :=
    JObj(map["err" := JStr(InternalServerError), "errmsg" := JStr(InternalServerError), "status" := JStr("failed")])

  /** The payload the JSON path returns when no response arrived. */
  const JsonNoResponseBody: Json :=
    JObj(map["result" := JObj(map[]), "params" := InternalErrorParams, "responseCode" := JNum(500.0)])

  /** The payload the multipart path returns when no response arrived. */
  const MultipartNoResponseBody: Json :=
    JObj(map["result" := JObj(map[]), "params" := InternalErrorParams])

  /** The result of evaluating `data.params.err`: reading a property of `null`
      or of `undefined` throws. */
  datatype Probe = Throws | Read(err: Option<Json>)

  function ProbeErr(data: Json): (p: Probe)
    ensures p.Throws? <==>
              data.JNull? || !(data.JObj? && "params" in data.fields) || data.fields["params"].JNull?
    ensures p.Read? ==>
              var params := data.fields["params"];
              p.err == if params.JObj? && "err" in params.fields then Some(params.fields["err"]) else None
  {
    if data.JNull? then Throws
    else match Get(data, "params")
      case None => Throws
      case Some(p) => if p.JNull? then Throws else Read(Get(p, "err"))
  }

  /** The error body carries the license sentinel at `params.err`. */
  predicate HasSentinel(data: Json)
  {
    ProbeErr(data) == Read(Some(JStr(LicenseSentinel)))
  }

  /** The license shim's edit of an error body: `responseCode` becomes 200 and
      `result` becomes the fixed license object; every other field is kept. */
  function RemapLicense(data: Json): (r: Json)
    requires data.JObj?
    ensures r.JObj?
    ensures r.fields.Keys == data.fields.Keys + {"responseCode", "result"}
    ensures r.fields["responseCode"] == JNum(200.0)
    ensures r.fields["result"] == LicenseResult
    ensures forall k :: k in data.fields && k != "responseCode" && k != "result" ==> r.fields[k] == data.fields[k]
  {
    JObj(data.fields["responseCode" := JNum(200.0)]["result" := LicenseResult])
  }

  /** The catch and success branches of `handleRequest`, given how the client settled. */
  function OnJsonOutcome(outcome: Transport, changeResponse: bool): (r: JsonEffect)
    // the sink is written exactly when a response arrived and nothing threw
    ensures r.sink.Some? <==> (outcome.Ok? || outcome.HttpError?) && !r.completion.Rejected?
    // a sink write means the handler itself resolves with `undefined`
    ensures r.sink.Some? ==> r.completion == Resolved(None)
    // only the shim's probe of `params.err` can throw
    ensures r.completion.Rejected? <==> changeResponse && outcome.HttpError? && ProbeErr(outcome.data).Throws?
    // the relayed reply differs from the downstream one only through the shim
    ensures r.sink.Some? && r.sink.value != Reply(outcome.status, outcome.data) ==>
              outcome.HttpError? && changeResponse && HasSentinel(outcome.data) && r.sink.value.status == 200
    // without a response the sink is untouched and the handler returns a value
    ensures outcome.NoResponse? ==> r == JsonEffect(None, Resolved(Some(JsonNoResponseBody)))
    ensures outcome.SetupFailure? ==> r == JsonEffect(None, Resolved(Some(JStr(outcome.message))))
  {
    match outcome
    case Ok(status, data) =>
      JsonEffect(Some(Reply(status, data)), Resolved(None))
    case HttpError(status, data) =>
      if changeResponse && ProbeErr(data).Throws? then
        JsonEffect(None, Rejected)
      else if changeResponse && HasSentinel(data) then
        JsonEffect(Some(Reply(200, RemapLicense(data))), Resolved(None))
      else
        JsonEffect(Some(Reply(status, data)), Resolved(None))
    case NoResponse =>
      JsonEffect(None, Resolved(Some(JsonNoResponseBody)))
    case SetupFailure(message) =>
      JsonEffect(None, Resolved(Some(JStr(message))))
  }

  /** `handleRequest`: one request with the caller's method (verb), URL and body and the
      allow-listed headers, then the outcome handling above. */
  function HandleRequest(verb: string, url: string, body: Json, inbound: Headers.Inbound,
                         changeResponse: bool, send: Request -> Transport): (r: JsonCall)
    ensures r.sent.verb == verb && r.sent.url == url && r.sent.data == body
    ensures r.sent.headers == Headers.OutboundHeaders(inbound)
    ensures r.sent.headers.Keys <= Headers.AllowedOutNames
    ensures "content-type" in r.sent.headers && r.sent.headers["content-type"] == Some(Headers.JsonContentType)
    ensures r.effect == OnJsonOutcome(send(r.sent), changeResponse)
  {
    var req := Request(verb, url, body, Headers.OutboundHeaders(inbound));
    JsonCall(req, OnJsonOutcome(send(req), changeResponse))
  }

  /** The multipart form as the caller built it: the headers its `getHeaders()`
      declares (content type with boundary) and its parts. */
  datatype FormData = FormData(declaredHeaders: map<string, string>, parts: map<string, Json>)

  datatype MultipartRequest = MultipartRequest(verb: string, url: string, form: FormData, headers: map<string, string>)

  datatype MultipartCall = MultipartCall(sent: MultipartRequest, value: Json)

  /** The catch and success branches of `handleRequestForMultipartData`: no sink
      write, no shim, and a value that mirrors what the JSON path produces for
      the same outcome. */
  function OnMultipartOutcome(outcome: Transport): (v: Json)
    // with a response, the value is the body the JSON path relays with the shim off
    ensures outcome.Ok? || outcome.HttpError? ==>
              OnJsonOutcome(outcome, false).sink == Some(Reply(outcome.status, v))
    // without one, the JSON path's payload minus `responseCode`
    ensures outcome.NoResponse? ==>
              v.JObj? && "responseCode" !in v.fields &&
              JsonNoResponseBody == JObj(v.fields["responseCode" := JNum(500.0)])
    // a setup failure yields the same bare message on both paths
    ensures outcome.SetupFailure? ==>
              forall b :: OnJsonOutcome(outcome, b).completion == Resolved(Some(v))
  {
    match outcome
    case Ok(_, data) => data
    case HttpError(_, data) => data
    case NoResponse => MultipartNoResponseBody
    case SetupFailure(message) => JStr(message)
  }

  /** `handleRequestForMultipartData`: always a POST carrying the form and only
      the headers the form declares; the handler always resolves with a value. */
  function HandleMultipart(url: string, form: FormData, send: MultipartRequest -> Transport): (r: MultipartCall)
    ensures r.sent.verb == "POST" && r.sent.url == url && r.sent.form == form
    ensures r.sent.headers == form.declaredHeaders
    ensures r.value == OnMultipartOutcome(send(r.sent))
  {
    var req := MultipartRequest("POST", url, form, form.declaredHeaders);
    MultipartCall(req, OnMultipartOutcome(send(req)))
  }

  /** On success the sink receives exactly the downstream status and body, and
      the handler returns nothing, whatever the shim flag. */
  lemma SuccessRelayedVerbatim(status: int, data: Json, changeResponse: bool)
    ensures OnJsonOutcome(Ok(status, data), changeResponse) == JsonEffect(Some(Reply(status, data)), Resolved(None))
  {
  }

  /** With the shim off, or with a readable `params.err` that is not the
      sentinel, a downstream error is relayed unchanged. */
  lemma ErrorRelayedUnlessSentinel(status: int, data: Json, changeResponse: bool)
    requires !changeResponse || (ProbeErr(data).Read? && !HasSentinel(data))
    ensures OnJsonOutcome(HttpError(status, data), changeResponse) == JsonEffect(Some(Reply(status, data)), Resolved(None))
  {
  }

  /** A sentinel body is an object. */
  lemma SentinelBodyIsObject(data: Json)
    requires HasSentinel(data)
    ensures data.JObj? && "params" in data.fields
  {
  }

  /** With the shim on and the sentinel present, the reply has status 200,
      `responseCode` 200, the fixed license `result`, and every other field
      (`params` included) untouched. */
  lemma SentinelRemappedToSuccess(status: int, data: Json)
    requires HasSentinel(data)
    ensures var r := OnJsonOutcome(HttpError(status, data), true);
      && r.completion == Resolved(None)
      && r.sink.Some? && r.sink.value.status == 200
      && var body := r.sink.value.body;
      && body.JObj? && data.JObj?
      && body.fields.Keys == data.fields.Keys + {"responseCode", "result"}
      && body.fields["responseCode"] == JNum(200.0)
      && body.fields["result"] == LicenseResult
      && body.fields["params"] == data.fields["params"]
      && (forall k :: k in data.fields && k != "responseCode" && k != "result" ==> body.fields[k] == data.fields[k])
  {
  }

  /** The shim is idempotent: feeding its reply back through the same handling
      leaves it as it is. */
  lemma {:induction false} RemapIdempotent(status: int, data: Json)
    requires HasSentinel(data)
    ensures var r := OnJsonOutcome(HttpError(status, data), true);
      r.sink.Some? && OnJsonOutcome(HttpError(r.sink.value.status, r.sink.value.body), true) == r
  {
    SentinelBodyIsObject(data);
    var once := RemapLicense(data);
    assert Get(once, "params") == Get(data, "params");
    assert HasSentinel(once);
    assert RemapLicense(once).fields == once.fields;
  }

  /** With the shim on, a body whose `params` is missing or null makes the
      `params.err` read throw: the handler rejects and the sink stays
      untouched. With the shim off the same body is relayed. */
  lemma MissingParamsRejects(status: int, data: Json)
    requires data.JNull? || Get(data, "params").None? || Get(data, "params") == Some(JNull)
    ensures OnJsonOutcome(HttpError(status, data), true) == JsonEffect(None, Rejected)
    ensures OnJsonOutcome(HttpError(status, data), false) == JsonEffect(Some(Reply(status, data)), Resolved(None))
  {
  }

  /** The multipart path never rejects and never remaps: an error response's
      body comes back as it is, status discarded, even when it holds the
      sentinel. */
  lemma MultipartIgnoresSentinel(status: int, data: Json)
    ensures OnMultipartOutcome(HttpError(status, data)) == data
    ensures OnMultipartOutcome(Ok(status, data)) == data
  {
  }
}
