/**
 * The serverless chat proxy: one request handler that checks the method, the server-held
 * key and the request body, forwards the conversation to the Anthropic Messages API and
 * relays the answer or the error. The handler has no state; it is a function from the
 * request, the environment key and the outcome of the single upstream call to the
 * response it writes and the upstream call it makes (if any).
 */
module ChatProxy {
  import opened JsValues

  const UpstreamUrl := "https://api.anthropic.com/v1/messages"
  const UpstreamModel := "claude-3-5-sonnet-20241022"
  const UpstreamMaxTokens := 1024
  const AnthropicVersion := "2023-06-01"

  const MethodNotAllowed := "Method not allowed"
  const ConfigurationError := "Server configuration error. Please contact support."
  const MessagesRequired := "Invalid request: messages required"
  const RequestFailed := "API request failed"
  const InternalError := "Internal server error. Please try again."

  /** The incoming request: its HTTP method and its parsed body (None: no body). */
  datatype Request = Request(httpMethod: string, body: JsValue)

  /** The call the handler makes upstream; `system` is None when the client sent none. */
  datatype UpstreamCall = UpstreamCall(
    url: string,
    apiKey: string,
    anthropicVersion: string,
    model: string,
    maxTokens: int,
    system: JsValue,
    messages: Json)

  /**
   * What the upstream call produced: a thrown exception (network failure), or a response
   * with its status and its body parsed as JSON (None: the body is not JSON, so reading it throws).
   */
  datatype Upstream = UpstreamThrew | UpstreamResponded(status: int, json: JsValue)

  /** The response the handler writes, and the upstream call it made (None: no call). */
  datatype Outcome = Outcome(status: int, body: Json, call: Option<UpstreamCall>)

  /** The status range `response.ok` accepts. */
  predicate IsOk(status: int)
  {
    200 <= status <= 299
  }

  function ErrorBody(message: string): Json
  {
    JObj([("error", JStr(message))])
  }

  /**
   * The `error` field for a failed upstream answer: the `||` chain `error.message`, then
   * `message`, then JSON.stringify(error), then the fixed text. Because the chain tests
   * truthiness, an empty or zero `error.message` is skipped; because the serialisation of a
   * present `error` is never empty, the fixed text appears only when `error` is absent.
   */
  function UpstreamErrorField(errorData: Json): (r: Json)
    requires errorData != JNull
    ensures var em := OptGet(Get(errorData, "error"), "message");
            var m := Get(errorData, "message");
            var e := Get(errorData, "error");
      && (Truthy(em) ==> r == em.value)
      && (!Truthy(em) && Truthy(m) ==> r == m.value)
      && (!Truthy(em) && !Truthy(m) && e.Some? ==> r == JStr(Stringify(e.value)))
      && (!Truthy(em) && !Truthy(m) && e.None? ==> r == JStr(RequestFailed))
  {
    var chosen := Or(OptGet(Get(errorData, "error"), "message"),
                  Or(Get(errorData, "message"),
                  Or(StringifyDefined(Get(errorData, "error")),
                     Some(JStr(RequestFailed)))));
    if chosen.Some? then chosen.value else JStr(RequestFailed)
  }

  /** JSON.stringify: undefined for undefined, a non-empty string otherwise. */
  function StringifyDefined(v: JsValue): (r: JsValue)
    ensures v.None? <==> r.None?
    ensures v.Some? ==> r == Some(JStr(Stringify(v.value))) && Truthy(r)
  {
    if v.Some? then Some(JStr(Stringify(v.value))) else None
  }

  /** The response body relayed for a non-ok upstream answer whose body parsed to `errorData`. */
  function RelayError(errorData: Json): Json
    requires errorData != JNull
  {
    JObj([("error", UpstreamErrorField(errorData)), ("details", errorData)])
  }

  /** The messages array of a body, when it has one. */
  predicate HasMessages(body: JsValue)
  {
    body.Some? && body.value != JNull &&
    Get(body.value, "messages").Some? && Get(body.value, "messages").value.JArr?
  }

  /**
   * The handler: the method check first, then the key, then the body, then the upstream
   * call; every guard that refuses makes no upstream call, and every accepted request is
   * forwarded with its `system` and `messages` unchanged, the server key, the fixed model
   * and the fixed token budget.
   */
  function Handle(req: Request, envKey: Option<string>, upstream: Upstream): (r: Outcome)
    ensures req.httpMethod != "POST" ==> r == Outcome(405, ErrorBody(MethodNotAllowed), None)
    ensures req.httpMethod == "POST" && (envKey.None? || envKey == Some("")) ==>
              r == Outcome(500, ErrorBody(ConfigurationError), None)
    ensures req.httpMethod == "POST" && envKey.Some? && envKey.value != "" &&
            (req.body.None? || req.body == Some(JNull)) ==>
              r == Outcome(500, ErrorBody(InternalError), None)
    ensures r.call.Some? <==>
              req.httpMethod == "POST" && envKey.Some? && envKey.value != "" && HasMessages(req.body)
    ensures req.httpMethod == "POST" && envKey.Some? && envKey.value != "" &&
            req.body.Some? && req.body.value != JNull && !HasMessages(req.body) ==>
              r == Outcome(400, ErrorBody(MessagesRequired), None)
    ensures r.call.Some? ==>
              r.call.value == UpstreamCall(UpstreamUrl, envKey.value, AnthropicVersion, UpstreamModel,
                                           1024, Get(req.body.value, "system"),
                                           Get(req.body.value, "messages").value)
    ensures r.call.Some? && upstream.UpstreamResponded? && upstream.json.Some? ==>
              (IsOk(upstream.status) ==> r.status == 200 && r.body == upstream.json.value) &&
              (!IsOk(upstream.status) && upstream.json.value != JNull ==>
                 r.status == upstream.status && r.body == RelayError(upstream.json.value))
    ensures r.call.Some? && (upstream.UpstreamThrew? || upstream.json.None? ||
                             (!IsOk(upstream.status) && upstream.json == Some(JNull))) ==>
              r == Outcome(500, ErrorBody(InternalError), r.call)
  {
    if req.httpMethod != "POST" then
      Outcome(405, ErrorBody(MethodNotAllowed), None)
    else if envKey.None? || envKey.value == "" then
      Outcome(500, ErrorBody(ConfigurationError), None)
    else if req.body.None? || req.body == Some(JNull) then
      // destructuring an undefined or null body throws inside the try block
      Outcome(500, ErrorBody(InternalError), None)
    else
      var messages := Get(req.body.value, "messages");
      if !Truthy(messages) || !messages.value.JArr? then
        Outcome(400, ErrorBody(MessagesRequired), None)
      else
        var call := UpstreamCall(UpstreamUrl, envKey.value, AnthropicVersion, UpstreamModel,
                                 UpstreamMaxTokens, Get(req.body.value, "system"), messages.value);
        match upstream
        case UpstreamThrew =>
          Outcome(500, ErrorBody(InternalError), Some(call))
        case UpstreamResponded(status, json) =>
          if json.None? then
            Outcome(500, ErrorBody(InternalError), Some(call))
          else if !IsOk(status) then
            if json.value == JNull then
              // reading `.error` of a null body throws
              Outcome(500, ErrorBody(InternalError), Some(call))
            else
              Outcome(status, RelayError(json.value), Some(call))
          else
            Outcome(200, json.value, Some(call))
  }

  /**
   * The status the handler answers with is one of its own four codes or the upstream
   * status of a non-ok answer, which it passes through unchanged.
   */
  lemma StatusesAnswered(req: Request, envKey: Option<string>, upstream: Upstream)
    ensures var r := Handle(req, envKey, upstream);
      r.status in {200, 400, 405, 500} ||
      (upstream.UpstreamResponded? && r.status == upstream.status && !IsOk(upstream.status))
  {
  }

  /** Without an `error` field and a truthy `message`, a failed answer reports the fixed text. */
  lemma FallbackText(errorData: Json)
    requires errorData.JObj? && !HasKey(errorData.fields, "error") && !HasKey(errorData.fields, "message")
    ensures RelayError(errorData) == JObj([("error", JStr(RequestFailed)), ("details", errorData)])
  {
  }
}
