/** The HTTP side of the server (src/server.ts): the bearer-token check in
    front of the REST endpoint and the JSON-RPC 2.0 envelope it answers with. */
module RestServer {
  import opened Wrappers
  import opened Js
  import opened Text

  /** What the server answers: an HTTP status and a JSON body. */
  datatype HttpResponse = HttpResponse(status: nat, body: Json)

  /** What the authentication middleware does: pass the request on by
      calling `next()` once, or answer it itself. */
  datatype AuthOutcome = CallNext | Respond(response: HttpResponse)

  const BearerPrefix: string := "Bearer "
  /** `-32603`, Internal error, section 5.1 of the JSON-RPC 2.0 specification. */
  const InternalErrorCode: int := -32603

  function ErrorBody(message: string): Json {
    JObject([("error", JString(message))])
  }

  /** `authenticateRequest`: no header, or one not starting with "Bearer "
      (case and trailing space included), is Unauthorized; the token is the
      header without its first seven characters, and one shorter than ten
      characters is an Invalid token. */
  function Authenticate(authorization: Option<string>): (r: AuthOutcome)
    ensures r.Respond? ==> r.response.status == 401
    ensures r == Respond(HttpResponse(401, ErrorBody("Unauthorized")))
            <==> authorization.None? || !StartsWith(authorization.value, BearerPrefix)
    ensures r == Respond(HttpResponse(401, ErrorBody("Invalid token")))
            <==> authorization.Some? && StartsWith(authorization.value, BearerPrefix) && |authorization.value| < 17
    ensures r.CallNext?
            <==> authorization.Some? && StartsWith(authorization.value, BearerPrefix) && |authorization.value| >= 17
  {
    if authorization.None? || authorization.value == "" || !StartsWith(authorization.value, BearerPrefix) then
      Respond(HttpResponse(401, ErrorBody("Unauthorized")))
    else
      var token := authorization.value[7..];
      if token == "" || |token| < 10 then
        Respond(HttpResponse(401, ErrorBody("Invalid token")))
      else
        CallNext
  }

  /** A request passes exactly when its header is "Bearer " followed by a
      token of at least ten characters. */
  lemma AcceptsBearerToken(token: string)
    ensures Authenticate(Some(BearerPrefix + token)).CallNext? <==> |token| >= 10
  {
    assert (BearerPrefix + token)[..7] == BearerPrefix;
    assert (BearerPrefix + token)[7..] == token;
  }

  lemma AcceptedHeaderShape(header: string)
    requires Authenticate(Some(header)).CallNext?
    ensures header == BearerPrefix + header[7..] && |header[7..]| >= 10
  {
    assert header[..7] == BearerPrefix;
    assert header == header[..7] + header[7..];
  }

  /** `value || null`: an undefined or falsy value becomes `null`. */
  function OrNull(v: Option<Json>): (r: Json)
    ensures r == JNull || (v == Some(r) && Truthy(r))
    ensures v.Some? && Truthy(v.value) ==> r == v.value
  {
    if v.Some? && Truthy(v.value) then v.value else JNull
  }

  /** An object property as `JSON.stringify` writes it: left out when undefined. */
  function Property(key: string, v: Option<Json>): seq<(string, Json)> {
    if v.Some? then [(key, v.value)] else []
  }

  /** The placeholder "result" of `/mcp/request`, echoing the request's
      "method" and "params". */
  function PendingResult(rpcMethod: Option<Json>, rpcParams: Option<Json>): Json {
    JObject([("message", JString("REST endpoint implementation pending"))]
            + Property("method", rpcMethod) + Property("params", rpcParams))
  }

  /** The answer of `/mcp/request` for a request body. `serverError` is what
      building the server threw, if it threw. */
  function McpRequest(body: Json, serverError: Option<Thrown>): (r: HttpResponse)
    ensures r.status == 200 <==> serverError.None?
    ensures r.status == 500 <==> serverError.Some?
  {
    var id := OrNull(Member(body, "id"));
    match serverError
    case None =>
      HttpResponse(200, JObject([
        ("jsonrpc", JString("2.0")),
        ("id", id),
        ("result", PendingResult(Member(body, "method"), Member(body, "params")))]))
    case Some(t) =>
      HttpResponse(500, JObject([
        ("jsonrpc", JString("2.0")),
        ("id", id),
        ("error", JObject([
          ("code", JNumber(InternalErrorCode as real)),
          ("message", JString("Internal error")),
          ("data", JString(MessageOr(t, "Unknown error")))]))]))
  }

  /** A JSON-RPC 2.0 response object: "jsonrpc" is "2.0", an "id" is present,
      and exactly one of "result" and "error", an error carrying an integral
      code and a string message. */
  ghost predicate IsJsonRpcResponse(j: Json) {
    && Member(j, "jsonrpc") == Some(JString("2.0"))
    && Member(j, "id").Some?
    && (Member(j, "result").Some? != Member(j, "error").Some?)
    && (Member(j, "error").Some? ==>
          var e := Member(j, "error").value;
          && Member(e, "code").Some? && Member(e, "code").value.JNumber?
          && Member(e, "code").value.n == Member(e, "code").value.n.Floor as real
          && Member(e, "message").Some? && Member(e, "message").value.JString?)
  }

  /** Both answers of `/mcp/request` are JSON-RPC 2.0 responses; the id is
      the request's when it is truthy and `null` otherwise. */
  lemma McpRequestIsResponse(body: Json, serverError: Option<Thrown>)
    ensures IsJsonRpcResponse(McpRequest(body, serverError).body)
    ensures Member(McpRequest(body, serverError).body, "id") == Some(OrNull(Member(body, "id")))
    ensures Member(McpRequest(body, serverError).body, "id") == Some(JNull)
            <==> Member(body, "id").None? || !Truthy(Member(body, "id").value)
  {
    if serverError.None? {
      McpRequestSuccess(body);
    } else {
      McpRequestFailure(body, serverError.value);
    }
  }

  /** The success answer is status 200, carries the placeholder message,
      and echoes "method" and "params" as given. */
  lemma McpRequestSuccess(body: Json)
    ensures var r := McpRequest(body, None);
      && r.status == 200
      && Member(r.body, "jsonrpc") == Some(JString("2.0"))
      && Member(r.body, "id") == Some(OrNull(Member(body, "id")))
      && Member(r.body, "error").None?
      && Member(r.body, "result").Some?
      && Member(Member(r.body, "result").value, "method") == Member(body, "method")
      && Member(Member(r.body, "result").value, "params") == Member(body, "params")
      && Member(Member(r.body, "result").value, "message") == Some(JString("REST endpoint implementation pending"))
  {
    var r := McpRequest(body, None);
    var ms := r.body.members;
    assert ms == [ms[0], ms[1], ms[2]];
    forall key | key in {"jsonrpc", "id", "result", "error"} {
      LastMemberOf3(ms[0], ms[1], ms[2], key);
    }
    PendingResultMembers(Member(body, "method"), Member(body, "params"));
  }

  /** The placeholder result holds its message and the echoed "method" and
      "params", exactly when they were given. */
  lemma PendingResultMembers(rpcMethod: Option<Json>, rpcParams: Option<Json>)
    ensures var res := PendingResult(rpcMethod, rpcParams);
      && Member(res, "method") == rpcMethod
      && Member(res, "params") == rpcParams
      && Member(res, "message") == Some(JString("REST endpoint implementation pending"))
  {
    var head := [("message", JString("REST endpoint implementation pending"))];
    var withMethod := head + Property("method", rpcMethod);
    assert PendingResult(rpcMethod, rpcParams).members == withMethod + Property("params", rpcParams);
    LastMemberSnoc([], "message", JString("REST endpoint implementation pending"), "method");
    LastMemberSnoc([], "message", JString("REST endpoint implementation pending"), "params");
    LastMemberSnoc([], "message", JString("REST endpoint implementation pending"), "message");
    if rpcMethod.Some? {
      LastMemberSnoc(head, "method", rpcMethod.value, "method");
      LastMemberSnoc(head, "method", rpcMethod.value, "params");
      LastMemberSnoc(head, "method", rpcMethod.value, "message");
    } else {
      assert withMethod == head;
    }
    if rpcParams.Some? {
      LastMemberSnoc(withMethod, "params", rpcParams.value, "method");
      LastMemberSnoc(withMethod, "params", rpcParams.value, "params");
      LastMemberSnoc(withMethod, "params", rpcParams.value, "message");
    } else {
      assert PendingResult(rpcMethod, rpcParams).members == withMethod;
    }
  }

  /** The failure answer is status 500 with code -32603, "Internal error",
      and the error's message (or "Unknown error") as its data. */
  lemma McpRequestFailure(body: Json, t: Thrown)
    ensures var r := McpRequest(body, Some(t));
      && r.status == 500
      && Member(r.body, "jsonrpc") == Some(JString("2.0"))
      && Member(r.body, "id") == Some(OrNull(Member(body, "id")))
      && Member(r.body, "result").None?
      && Member(r.body, "error").Some?
      && Member(Member(r.body, "error").value, "code") == Some(JNumber(-32603 as real))
      && Member(Member(r.body, "error").value, "message") == Some(JString("Internal error"))
      && Member(Member(r.body, "error").value, "data")
         == Some(JString(if t.ErrorObject? then t.message else "Unknown error"))
  {
    var r := McpRequest(body, Some(t));
    var ms := r.body.members;
    assert ms == [ms[0], ms[1], ms[2]];
    forall key | key in {"jsonrpc", "id", "result", "error"} {
      LastMemberOf3(ms[0], ms[1], ms[2], key);
    }
    var e := ms[2].1.members;
    assert e == [e[0], e[1], e[2]];
    LastMemberOf3(e[0], e[1], e[2], "code");
    LastMemberOf3(e[0], e[1], e[2], "message");
    LastMemberOf3(e[0], e[1], e[2], "data");
  }
}
