/** What the request handler promises, stated for every request: the order
    of its checks, the status and error code each one ends in, where it
    departs from JSON-RPC 2.0 through JavaScript truthiness, and what the
    successful answers carry. */
module McpServerProperties {
  import opened Wrappers
  import opened JavaScript
  import opened McpServer

  /** A POST whose body parsed to a value other than null, so that the
      destructuring succeeds. */
  predicate Destructured(req: Request) {
    req.verb == "POST" && req.body.Parsed? && req.body.value != Null
  }

  /** A destructured request with a valid envelope and a truthy `id`: one
      that reaches the method switch. */
  predicate ReachesDispatch(req: Request) {
    Destructured(req) && IsValidEnvelope(req.body.value) && Truthy(Field(req.body.value, "id"))
  }

  /** The parameter check of the method table: a method with a required
      parameter accepts `params` only when that parameter is exactly the
      expected string. */
  predicate ParamsAccepted(name: string, params: Value) {
    match RequiredParam(name)
    case None => true
    case Some((key, expected)) => Member(params, key) == Val(Str(expected))
  }

  /** The caller argument a method embeds in its answer text. */
  function EmbeddedArgument(name: string): Option<string> {
    if name == PromptsGet then Some("code")
    else if name == ToolsCall then Some("location")
    else None
  }

  /** ToString of this value throws. */
  predicate Unstringable(v: Value) {
    v.Val? && Unprintable(v.json)
  }

  /** The request reaches the switch, passes the parameter check and then
      fails to turn its embedded argument into a string. */
  predicate CoercionThrows(req: Request)
    requires ReachesDispatch(req)
  {
    var rpcMethod := Field(req.body.value, "method").json;
    var params := Field(req.body.value, "params");
    && IsKnownMethod(rpcMethod)
    && ParamsAccepted(rpcMethod.s, params)
    && EmbeddedArgument(rpcMethod.s).Some?
    && Unstringable(Member(Member(params, "arguments"), EmbeddedArgument(rpcMethod.s).value))
  }

  // The HTTP verb.

  /** Any verb but POST is answered 405 with the plain `{error}` body. */
  lemma NonPostRejected(req: Request)
    requires req.verb != "POST"
    ensures Handle(req) == Response(405, true, Some(PlainError("Method not allowed")))
  {
  }

  /** The verb check never looks at the body. */
  lemma VerbCheckIgnoresBody(verb: string, b1: BodyOutcome, b2: BodyOutcome)
    requires verb != "POST"
    ensures Handle(Request(verb, b1)) == Handle(Request(verb, b2))
  {
  }

  // The body parse.

  /** A body that is not JSON, or that is JSON `null`, is a parse error. */
  lemma UnparsableBody(req: Request)
    requires req.verb == "POST" && (req.body == Unparsable || req.body == Parsed(Null))
    ensures Handle(req) == Response(400, true, Some(RpcError(Null, ParseError, "Parse error")))
  {
  }

  /** A parse error answers exactly three kinds of POST: an unparsable body,
      a null body, and a request whose embedded argument ToString cannot
      convert, whose TypeError the same `catch` receives. */
  lemma {:induction false} ParseErrorExactly(req: Request)
    ensures (Handle(req).body.Some? && Handle(req).body.value.RpcError? && Handle(req).body.value.code == ParseError)
            <==> (req.verb == "POST" &&
                  (req.body == Unparsable || req.body == Parsed(Null) ||
                   (ReachesDispatch(req) && CoercionThrows(req))))
    ensures Handle(req).body.Some? && Handle(req).body.value.RpcError? && Handle(req).body.value.code == ParseError
            ==> Handle(req) == Response(400, true, Some(RpcError(Null, ParseError, "Parse error")))
  {
    if ReachesDispatch(req) {
      var body := req.body.value;
      var params := Field(body, "params");
      var args := Member(params, "arguments");
      var code, location := Member(args, "code"), Member(args, "location");
      if code.Val? {
        JsonToStringThrows(code.json);
      }
      if location.Val? {
        JsonToStringThrows(location.json);
      }
    }
  }

  // The envelope.

  /** A destructured body whose `jsonrpc` is not exactly "2.0" or whose
      `method` is falsy is an invalid request; the id is echoed only when
      truthy. */
  lemma InvalidEnvelope(req: Request)
    requires Destructured(req) && !IsValidEnvelope(req.body.value)
    ensures Handle(req) ==
            Response(400, true, Some(RpcError(EchoedId(req.body.value), InvalidRequest, "Invalid Request")))
  {
  }

  /** -32600 is answered exactly for a destructured body with an invalid
      envelope. */
  lemma InvalidRequestExactly(req: Request)
    ensures (Handle(req).body.Some? && Handle(req).body.value.RpcError? && Handle(req).body.value.code == InvalidRequest)
            <==> Destructured(req) && !IsValidEnvelope(req.body.value)
  {
  }

  // Notifications.

  /** 204 with no body is answered exactly for a valid envelope with a falsy
      id, whatever the method, known or not. */
  lemma NotificationExactly(req: Request)
    ensures Handle(req).status == 204
            <==> Destructured(req) && IsValidEnvelope(req.body.value) && !Truthy(Field(req.body.value, "id"))
    ensures Handle(req).status == 204 ==> Handle(req) == Response(204, false, None)
  {
  }

  /** The falsy values are exactly these six, so an id of 0, -0, "" or
      false marks a notification as much as an absent or null one. */
  lemma FalsyValues(v: Value)
    ensures !Truthy(v) <==>
            v in {Undefined, Val(Null), Val(Bool(false)), Val(Num(Zero(false))), Val(Num(Zero(true))), Val(Str(""))}
  {
  }

  /** A notification is never answered 404 or -32602, whatever its method. */
  lemma NotificationNeverDispatched(req: Request)
    requires Destructured(req) && IsValidEnvelope(req.body.value) && !Truthy(Field(req.body.value, "id"))
    ensures Handle(req).status != 404
    ensures Handle(req).body.None?
  {
  }

  // The method switch.

  /** 404 / -32601 is answered exactly for a request that reaches the switch
      with a method outside the nine, which includes every method that is
      not a string; the id is echoed. */
  lemma MethodNotFoundExactly(req: Request)
    ensures Handle(req).status == 404
            <==> ReachesDispatch(req) && !IsKnownMethod(Field(req.body.value, "method").json)
    ensures Handle(req).status == 404 ==>
            Handle(req).body == Some(RpcError(Field(req.body.value, "id").json, MethodNotFound, "Method not found"))
  {
  }

  /** -32602 is answered exactly for a request that reaches the switch with
      one of the three parameter-checked methods and a parameter that is not
      the expected string; it comes with status 400 and echoes the id. */
  lemma InvalidParamsExactly(req: Request)
    ensures (Handle(req).body.Some? && Handle(req).body.value.RpcError? && Handle(req).body.value.code == InvalidParams)
            <==> ReachesDispatch(req) && IsKnownMethod(Field(req.body.value, "method").json)
                 && !ParamsAccepted(Field(req.body.value, "method").json.s, Field(req.body.value, "params"))
    ensures (Handle(req).body.Some? && Handle(req).body.value.RpcError? && Handle(req).body.value.code == InvalidParams)
            ==> Handle(req).status == 400 && Handle(req).body.value.id == Field(req.body.value, "id").json
  {
  }

  /** 200 is answered exactly for a request that reaches the switch with a
      known method, accepted parameters and an embedded argument that
      converts; the answer echoes the request's id. */
  lemma {:induction false} SuccessExactly(req: Request)
    ensures Handle(req).status == 200
            <==> ReachesDispatch(req) && IsKnownMethod(Field(req.body.value, "method").json)
                 && ParamsAccepted(Field(req.body.value, "method").json.s, Field(req.body.value, "params"))
                 && !CoercionThrows(req)
    ensures Handle(req).status == 200 ==> Handle(req).body.value.id == Field(req.body.value, "id").json
  {
    ParseErrorExactly(req);
  }

  /** A request that reaches the switch is answered with whatever the
      method table gives: a result as 200 with the request's id, a failure
      with its own status and code and the request's id, and a thrown
      TypeError as the parse error. */
  lemma DispatchWrapped(req: Request)
    requires ReachesDispatch(req)
    ensures
      var id := Field(req.body.value, "id").json;
      match Dispatch(Field(req.body.value, "method").json, Field(req.body.value, "params"))
      case Result(r) => Handle(req) == Response(200, true, Some(RpcResult(id, r)))
      case Failure(status, code, message) => Handle(req) == Response(status, true, Some(RpcError(id, code, message)))
      case Thrown => Handle(req) == ParseErrorResponse
  {
  }

  /** A JSON-RPC answer echoes the request's id, except the parse error,
      which carries null; an error before the switch echoes `id || null`. */
  lemma ResponseId(req: Request)
    requires Handle(req).body.Some? && !Handle(req).body.value.PlainError?
    ensures var b := Handle(req).body.value;
            b.id == (if b.RpcError? && b.code == ParseError then Null else EchoedId(req.body.value))
  {
  }

  /** Every answer but the 405 is a JSON-RPC response: `jsonrpc` is "2.0",
      `id` is present, and exactly one of `result` and `error` is. */
  lemma JsonRpcShape(req: Request)
    requires Handle(req).body.Some? && Handle(req).status != 405
    ensures var j := BodyJson(Handle(req).body.value);
            && j.Obj?
            && "jsonrpc" in j.fields && j.fields["jsonrpc"] == Str("2.0")
            && "id" in j.fields
            && ("result" in j.fields <==> "error" !in j.fields)
    ensures "result" in BodyJson(Handle(req).body.value).fields <==> Handle(req).status == 200
  {
  }

  // The methods.

  /** The six parameter-free methods answer the same whatever `params`
      holds. */
  lemma ParamFreeIgnoresParams(name: string, p1: Value, p2: Value)
    requires name in ParamFreeMethods
    ensures Dispatch(Str(name), p1) == Dispatch(Str(name), p2)
    ensures Dispatch(Str(name), p1).Result?
  {
  }

  /** A missing `params`, or one that is not an object, always fails the
      parameter check of the three parameter-checked methods. */
  lemma NonObjectParamsRejected(name: string, params: Value)
    requires RequiredParam(name).Some?
    requires !(params.Val? && params.json.Obj?)
    ensures Dispatch(Str(name), params).Failure?
    ensures Dispatch(Str(name), params).status == 400 && Dispatch(Str(name), params).code == InvalidParams
  {
  }

  /** `resources/read` succeeds exactly for the one served URI. */
  lemma ResourcesReadExactly(params: Value)
    ensures Dispatch(Str(ResourcesRead), params).Result?
            <==> Member(params, "uri") == Val(Str("file:///project/src/main.rs"))
    ensures Dispatch(Str(ResourcesRead), params).Failure? ==>
            Dispatch(Str(ResourcesRead), params) == Failure(400, InvalidParams, "Invalid params: resource not found")
    ensures Dispatch(Str(ResourcesRead), params).Result? ==>
            Dispatch(Str(ResourcesRead), params).result.fields["contents"].elems[0].fields["text"] == Str(MainRsText)
  {
  }

  /** `prompts/get` passes its check exactly for the prompt "code_review",
      and then embeds the string form of `arguments.code`. */
  lemma PromptsGetExactly(params: Value)
    ensures !Dispatch(Str(PromptsGet), params).Failure? <==> Member(params, "name") == Val(Str("code_review"))
    ensures Dispatch(Str(PromptsGet), params).Failure? ==>
            Dispatch(Str(PromptsGet), params) == Failure(400, InvalidParams, "Invalid params: prompt not found")
    ensures Dispatch(Str(PromptsGet), params).Result? ==>
            ToString(Member(Member(params, "arguments"), "code")).Some? &&
            Dispatch(Str(PromptsGet), params).result ==
              PromptResult(ToString(Member(Member(params, "arguments"), "code")).value)
  {
  }

  /** `tools/call` passes its check exactly for the tool "get_weather", and
      then embeds the string form of `arguments.location`. */
  lemma ToolsCallExactly(params: Value)
    ensures !Dispatch(Str(ToolsCall), params).Failure? <==> Member(params, "name") == Val(Str("get_weather"))
    ensures Dispatch(Str(ToolsCall), params).Failure? ==>
            Dispatch(Str(ToolsCall), params) == Failure(400, InvalidParams, "Invalid params: tool not found")
    ensures Dispatch(Str(ToolsCall), params).Result? ==>
            ToString(Member(Member(params, "arguments"), "location")).Some? &&
            Dispatch(Str(ToolsCall), params).result ==
              WeatherResult(ToString(Member(Member(params, "arguments"), "location")).value)
  {
  }

  /** The prompt text is the fixed prefix followed by the caller's code,
      which it therefore carries verbatim: different code, different
      answer. */
  lemma PromptResultEmbedsCode(c1: string, c2: string)
    ensures PromptResult(c1).fields["messages"].elems[0].fields["content"].fields["text"]
            == Str("Please review this Python code:\\n " + c1)
    ensures PromptResult(c1) == PromptResult(c2) ==> c1 == c2
  {
    if PromptResult(c1) == PromptResult(c2) {
      var t1 := PromptTextPrefix + c1;
      var t2 := PromptTextPrefix + c2;
      assert t1 == t2;
      assert c1 == t1[|PromptTextPrefix|..];
    }
  }

  /** The weather text is the fixed prefix, the caller's location and the
      fixed suffix, so it carries the location verbatim. */
  lemma WeatherResultEmbedsLocation(l1: string, l2: string)
    ensures WeatherResult(l1).fields["content"].elems[0].fields["text"]
            == Str("Current weather in " + l1 + ":\\n Temperature: 72\U{B0}F\\n Conditions: Partly cloudy")
    ensures WeatherResult(l1) == WeatherResult(l2) ==> l1 == l2
  {
    if WeatherResult(l1) == WeatherResult(l2) {
      var t1 := WeatherTextPrefix + l1 + WeatherTextSuffix;
      var t2 := WeatherTextPrefix + l2 + WeatherTextSuffix;
      assert t1 == t2;
      assert |l1| == |l2|;
      assert l1 == t1[|WeatherTextPrefix|..|WeatherTextPrefix| + |l1|];
    }
  }

  /** A missing `arguments` puts the text "undefined" where the code
      goes. */
  lemma PromptWithoutArguments(params: Value)
    requires Member(params, "name") == Val(Str("code_review"))
    requires Member(params, "arguments") == Undefined
    ensures Dispatch(Str(PromptsGet), params) == Result(PromptResult("undefined"))
  {
  }

  /** An integer location below 10^21 in magnitude (a zip code given as a
      number, say) is embedded as its sign and decimal numeral. */
  lemma IntegerLocation(params: Value, i: int)
    requires Member(params, "name") == Val(Str("get_weather"))
    requires Member(Member(params, "arguments"), "location") == Val(Num(FromInt(i)))
    requires Abs(i) < Pow10(21)
    ensures Dispatch(Str(ToolsCall), params) ==
            Result(WeatherResult((if i < 0 then "-" else "") + Decimal(Abs(i))))
  {
    FromIntToString(i);
  }

  /** Each of the four error codes is negative and prints as a minus sign
      followed by the decimal numeral of its magnitude. */
  lemma ErrorCodePrints(code: int)
    requires code in {ParseError, InvalidRequest, MethodNotFound, InvalidParams}
    ensures code < 0
    ensures NumberToString(FromInt(code)) == "-" + Decimal(-code)
  {
    assert Pow10(5) == 100000;
    Pow10Grows(5, 21);
    FromIntToString(code);
  }

  // Departures from JSON-RPC 2.0 through truthiness.

  /** A request with id 0 is treated as a notification. */
  lemma ZeroIdIsNotification(body: Json)
    requires body != Null && IsValidEnvelope(body)
    requires Field(body, "id") == Val(Num(Zero(false)))
    ensures Handle(Request("POST", Parsed(body))) == Response(204, false, None)
  {
  }

  /** An invalid request with id 0 is answered with a null id. */
  lemma ZeroIdEchoedAsNull(body: Json)
    requires body != Null && !IsValidEnvelope(body)
    requires Field(body, "id") == Val(Num(Zero(false)))
    ensures Handle(Request("POST", Parsed(body))).body.value.id == Null
  {
  }

  /** An empty method name is an invalid request, not an unknown method. */
  lemma EmptyMethodIsInvalid(body: Json)
    requires Field(body, "jsonrpc") == Val(Str("2.0")) && Field(body, "method") == Val(Str(""))
    ensures Handle(Request("POST", Parsed(body))).body.value.code == InvalidRequest
  {
  }

  /** In a POST whose `jsonrpc` is "2.0" and whose `id` is truthy, a truthy
      method that is not a string is an unknown method. */
  lemma NonStringMethodIsUnknown(body: Json)
    requires Field(body, "jsonrpc") == Val(Str("2.0")) && Truthy(Field(body, "method"))
    requires !Field(body, "method").json.Str? && Truthy(Field(body, "id"))
    ensures Handle(Request("POST", Parsed(body))).status == 404
  {
  }

  /** A batch (an array body), like any body that is not an object, is an
      invalid request with a null id. */
  lemma NonObjectBodyIsInvalid(body: Json)
    requires body != Null && !body.Obj?
    ensures Handle(Request("POST", Parsed(body))) ==
            Response(400, true, Some(RpcError(Null, InvalidRequest, "Invalid Request")))
  {
  }

  /** An argument object with an own `toString` key makes a well-formed
      `tools/call` answer with a parse error and a null id. */
  lemma UnstringableLocation(body: Json, fields: map<string, Json>)
    requires ReachesDispatch(Request("POST", Parsed(body)))
    requires Field(body, "method") == Val(Str(ToolsCall))
    requires Member(Field(body, "params"), "name") == Val(Str(WeatherTool))
    requires Member(Member(Field(body, "params"), "arguments"), "location") == Val(Obj(fields))
    requires "toString" in fields
    ensures Handle(Request("POST", Parsed(body))) == Response(400, true, Some(RpcError(Null, ParseError, "Parse error")))
  {
  }

  // The examples of the protocol.

  /** `initialize` answers 200 with the server's name and the protocol
      revision. */
  lemma InitializeAnswer(req: Request)
    requires ReachesDispatch(req) && Field(req.body.value, "method") == Val(Str("initialize"))
    ensures Handle(req).status == 200
    ensures Handle(req).body.value.result.fields["serverInfo"].fields["name"] == Str("CloudflareMCP")
    ensures Handle(req).body.value.result.fields["protocolVersion"] == Str("2025-03-26")
  {
  }

  /** `tools/call` for Paris answers 200 with the weather in Paris. */
  lemma WeatherInParis(id: Json)
    requires Truthy(Val(id))
    ensures var req := Request("POST", Parsed(Obj(map[
              "jsonrpc" := Str("2.0"), "id" := id, "method" := Str("tools/call"),
              "params" := Obj(map["name" := Str("get_weather"),
                                  "arguments" := Obj(map["location" := Str("Paris")])])])));
            && Handle(req).status == 200
            && Handle(req).body.value.result == WeatherResult("Paris")
  {
  }
}
