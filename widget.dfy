/**
 * The engine in proxy mode talking to the chat proxy: what the user is told when the proxy
 * answers with an error.
 */
module Widget {
  import opened JsValues
  import Agent
  import ChatProxy

  /** A body whose first `error` field is a string gives no `error.message`, so the fixed text is shown. */
  lemma StringErrorFieldShowsFixedText(body: Json)
    requires body.JObj? && Get(body, "error").Some? && Get(body, "error").value.JStr?
    ensures Agent.FailureMessage(Agent.Rejected(body)) == Agent.RequestFailed
  {
    assert OptGet(Get(body, "error"), "message").None?;
  }

  /**
   * Every failure the proxy reports with its own error text, and every relayed upstream failure
   * whose chosen `error` value is a string, reaches the user as "API request failed": the
   * proxy flattens the upstream error to a string and the engine reads `error.message`.
   */
  lemma ProxyFailuresShowFixedText(req: ChatProxy.Request, envKey: Option<string>, upstream: ChatProxy.Upstream)
    ensures var r := ChatProxy.Handle(req, envKey, upstream);
      && (r.status != 200 &&
          (r.call.None? || upstream.UpstreamThrew? || upstream.json.None? || upstream.json == Some(JNull)) ==>
            Agent.FailureMessage(Agent.Rejected(r.body)) == Agent.RequestFailed)
      && (r.call.Some? && upstream.UpstreamResponded? && !ChatProxy.IsOk(upstream.status) &&
          upstream.json.Some? && upstream.json.value != JNull &&
          ChatProxy.UpstreamErrorField(upstream.json.value).JStr? ==>
            Agent.FailureMessage(Agent.Rejected(r.body)) == Agent.RequestFailed)
  {
    var r := ChatProxy.Handle(req, envKey, upstream);
    if r.status != 200 &&
       (r.call.None? || upstream.UpstreamThrew? || upstream.json.None? || upstream.json == Some(JNull)) {
      StringErrorFieldShowsFixedText(r.body);
    }
    if r.call.Some? && upstream.UpstreamResponded? && !ChatProxy.IsOk(upstream.status) &&
       upstream.json.Some? && upstream.json.value != JNull &&
       ChatProxy.UpstreamErrorField(upstream.json.value).JStr? {
      var fields := r.body.fields;
      assert fields == [("error", ChatProxy.UpstreamErrorField(upstream.json.value)),
                        ("details", upstream.json.value)];
      assert fields[..1] == [fields[0]];
      assert Lookup(fields, "error") == Lookup(fields[..1], "error");
      StringErrorFieldShowsFixedText(r.body);
    }
  }
}
