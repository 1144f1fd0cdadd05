/** The request handler of the MCP (Model Context Protocol, revision
    2025-03-26) server worker: one JSON-RPC 2.0 endpoint that checks the
    HTTP verb, the parsed body and the JSON-RPC envelope, acknowledges
    notifications, and answers nine methods with fixed payloads. */
module McpServer {
  import opened Wrappers
  import opened JavaScript

  // The error codes of section 5.1 of the JSON-RPC 2.0 specification.
  const ParseError: int := -32700
  const InvalidRequest: int := -32600
  const MethodNotFound: int := -32601
  const InvalidParams: int := -32602

  // The nine method names of the dispatch table.
  const Initialize := "initialize"
  const Ping := "ping"
  const ResourcesList := "resources/list"
  const ResourcesRead := "resources/read"
  const ResourcesTemplatesList := "resources/templates/list"
  const PromptsList := "prompts/list"
  const PromptsGet := "prompts/get"
  const ToolsList := "tools/list"
  const ToolsCall := "tools/call"

  const Methods: set<string> :=
    {Initialize, Ping, ResourcesList, ResourcesRead, ResourcesTemplatesList,
     PromptsList, PromptsGet, ToolsList, ToolsCall}

  /** The methods whose answer is a fixed payload, whatever `params` holds. */
  const ParamFreeMethods: set<string> :=
    {Initialize, Ping, ResourcesList, ResourcesTemplatesList, PromptsList, ToolsList}

  const ProtocolVersion := "2025-03-26"
  const ServerName := "CloudflareMCP"
  const MainRsUri := "file:///project/src/main.rs"
  const CodeReviewPrompt := "code_review"
  const WeatherTool := "get_weather"
  const NextPageCursor := "next-page-cursor"

  /** What `request.json()` settles to: a rejection, because the body is
      not JSON text, or the parsed value. */
  datatype BodyOutcome = Unparsable | Parsed(value: Json)

  /** An incoming request: its HTTP method and its body. */
  datatype Request = Request(verb: string, body: BodyOutcome)

  /** The object a response serialises: the plain `{error}` object of the
      405 answer, or a JSON-RPC response carrying a result or an error. */
  datatype Body =
    | PlainError(error: string)
    | RpcResult(id: Json, result: Json)
    | RpcError(id: Json, code: int, message: string)

  /** An HTTP response: its status, whether it carries the header
      `Content-Type: application/json`, and its body (`None` for a null
      body). */
  datatype Response = Response(status: int, jsonContentType: bool, body: Option<Body>)

  /** How one arm of the method switch ends: with the `result` it assigns,
      with the error response it returns early, or with the TypeError that
      its template literal throws. */
  datatype Outcome =
    | Result(result: Json)
    | Failure(status: int, code: int, message: string)
    | Thrown

  // The fixed payloads.

  const InitializeResult: Json := Obj(map[
    "protocolVersion" := Str(ProtocolVersion),
    "capabilities" := Obj(map[
      "logging" := Obj(map[]),
      "prompts" := Obj(map["listChanged" := Bool(true)]),
      "resources" := Obj(map["subscribe" := Bool(true), "listChanged" := Bool(true)]),
      "tools" := Obj(map["listChanged" := Bool(true)])]),
    "serverInfo" := Obj(map["name" := Str(ServerName), "version" := Str("1.0.0")]),
    "instructions" := Str("Welcome to the Cloudflare MCP Server")])

  const PingResult: Json := Obj(map[])

  const ResourcesListResult: Json := Obj(map[
    "resources" := Arr([Obj(map[
      "uri" := Str(MainRsUri),
      "name" := Str("main.rs"),
      "description" := Str("Primary application entry point"),
      "mimeType" := Str("text/x-rust")])]),
    "nextCursor" := Str(NextPageCursor)])

  /** The served file; `\\n` is a backslash followed by `n`, as in the
      handler's string literal. */
  const MainRsText := "fn main() {\\n    println!(\"Hello world!\");\\n}"

  const ResourcesReadResult: Json := Obj(map[
    "contents" := Arr([Obj(map[
      "uri" := Str(MainRsUri),
      "mimeType" := Str("text/x-rust"),
      "text" := Str(MainRsText)])])])

  const TemplatesListResult: Json := Obj(map[
    "resourceTemplates" := Arr([Obj(map[
      "uriTemplate" := Str("file:///{path}"),
      "name" := Str("Project Files"),
      "description" := Str("Access files in the project directory"),
      "mimeType" := Str("application/octet-stream")])])])

  const PromptsListResult: Json := Obj(map[
    "prompts" := Arr([Obj(map[
      "name" := Str(CodeReviewPrompt),
      "description" := Str("Asks the LLM to analyze code quality and suggest improvements"),
      "arguments" := Arr([Obj(map[
        "name" := Str("code"),
        "description" := Str("The code to review"),
        "required" := Bool(true)])])])]),
    "nextCursor" := Str(NextPageCursor)])

  const ToolsListResult: Json := Obj(map[
    "tools" := Arr([Obj(map[
      "name" := Str(WeatherTool),
      "description" := Str("Get current weather information for a location"),
      "inputSchema" := Obj(map[
        "type" := Str("object"),
        "properties" := Obj(map[
          "location" := Obj(map[
            "type" := Str("string"),
            "description" := Str("City name or zip code")])]),
        "required" := Arr([Str("location")])])])]),
    "nextCursor" := Str(NextPageCursor)])

  const PromptTextPrefix := "Please review this Python code:\\n "

  /** The `prompts/get` result around the caller's code. */
  function PromptResult(code: string): Json {
    Obj(map[
      "description" := Str("Code review prompt"),
      "messages" := Arr([Obj(map[
        "role" := Str("user"),
        "content" := Obj(map["type" := Str("text"), "text" := Str(PromptTextPrefix + code)])])])])
  }

  const WeatherTextPrefix := "Current weather in "
  const WeatherTextSuffix := ":\\n Temperature: 72\U{B0}F\\n Conditions: Partly cloudy"

  /** The `tools/call` result around the caller's location. */
  function WeatherResult(location: string): Json {
    Obj(map[
      "content" := Arr([Obj(map[
        "type" := Str("text"),
        "text" := Str(WeatherTextPrefix + location + WeatherTextSuffix)])]),
      "isError" := Bool(false)])
  }

  /** `method` names one of the nine cases of the switch (strict equality,
      so only a string can). */
  predicate IsKnownMethod(rpcMethod: Json) {
    rpcMethod.Str? && rpcMethod.s in Methods
  }

  /** The parameter a method checks and the value it must equal, as a table
      apart from the switch: `None` for a method that checks nothing. */
  function RequiredParam(name: string): Option<(string, string)> {
    if name == ResourcesRead then Some(("uri", MainRsUri))
    else if name == PromptsGet then Some(("name", CodeReviewPrompt))
    else if name == ToolsCall then Some(("name", WeatherTool))
    else None
  }

  /** The `switch (method)` with its per-method parameter checks. */
  function Dispatch(rpcMethod: Json, params: Value): (o: Outcome)
    ensures !IsKnownMethod(rpcMethod) <==> o == Failure(404, MethodNotFound, "Method not found")
    ensures o.Failure? ==> o.code == MethodNotFound || o.code == InvalidParams
    ensures o.Failure? && o.code == InvalidParams ==>
              o.status == 400 && IsKnownMethod(rpcMethod) && RequiredParam(rpcMethod.s).Some?
    ensures IsKnownMethod(rpcMethod) && rpcMethod.s in ParamFreeMethods ==> o.Result?
    ensures o.Thrown? ==> rpcMethod == Str(PromptsGet) || rpcMethod == Str(ToolsCall)
  {
    if rpcMethod == Str(Initialize) then Result(InitializeResult)
    else if rpcMethod == Str(Ping) then Result(PingResult)
    else if rpcMethod == Str(ResourcesList) then Result(ResourcesListResult)
    else if rpcMethod == Str(ResourcesRead) then
      if Member(params, "uri") == Val(Str(MainRsUri)) then Result(ResourcesReadResult)
      else Failure(400, InvalidParams, "Invalid params: resource not found")
    else if rpcMethod == Str(ResourcesTemplatesList) then Result(TemplatesListResult)
    else if rpcMethod == Str(PromptsList) then Result(PromptsListResult)
    else if rpcMethod == Str(PromptsGet) then
      if Member(params, "name") == Val(Str(CodeReviewPrompt)) then
        match ToString(Member(Member(params, "arguments"), "code"))
        case None => Thrown
        case Some(code) => Result(PromptResult(code))
      else Failure(400, InvalidParams, "Invalid params: prompt not found")
    else if rpcMethod == Str(ToolsList) then Result(ToolsListResult)
    else if rpcMethod == Str(ToolsCall) then
      if Member(params, "name") == Val(Str(WeatherTool)) then
        match ToString(Member(Member(params, "arguments"), "location"))
        case None => Thrown
        case Some(location) => Result(WeatherResult(location))
      else Failure(400, InvalidParams, "Invalid params: tool not found")
    else Failure(404, MethodNotFound, "Method not found")
  }

  /** A property of the parsed body, as the destructuring reads it. */
  function Field(body: Json, key: string): Value {
    Member(Val(body), key)
  }

  /** The id a JSON-RPC error answer before the switch echoes: `id || null`. */
  function EchoedId(body: Json): Json {
    var id := Field(body, "id");
    if Truthy(id) then id.json else Null
  }

  /** The envelope check: `jsonrpc` is exactly the string "2.0" and
      `method` is truthy. */
  predicate IsValidEnvelope(body: Json) {
    Field(body, "jsonrpc") == Val(Str("2.0")) && Truthy(Field(body, "method"))
  }

  function JsonResponse(status: int, body: Body): Response {
    Response(status, true, Some(body))
  }

  /** The answer of the `catch`: whatever was thrown, a parse error with a
      null id. */
  const ParseErrorResponse: Response := JsonResponse(400, RpcError(Null, ParseError, "Parse error"))

  const NoContent: Response := Response(204, false, None)

  /** The `try` block after the body has been parsed: the destructuring of
      the body (which throws on null), the envelope check, the notification
      short-circuit, the dispatch and the wrapping of its outcome, with the
      `catch` applied to whatever is thrown on the way. */
  function HandleMessage(body: Json): Response {
    if body == Null then ParseErrorResponse
    else
      var id := Field(body, "id");
      if !IsValidEnvelope(body) then
        JsonResponse(400, RpcError(EchoedId(body), InvalidRequest, "Invalid Request"))
      else if !Truthy(id) then NoContent
      else
        match Dispatch(Field(body, "method").json, Field(body, "params"))
        case Result(result) => JsonResponse(200, RpcResult(id.json, result))
        case Failure(status, code, message) => JsonResponse(status, RpcError(id.json, code, message))
        case Thrown => ParseErrorResponse
  }

  /** The default export's `fetch`. */
  function Handle(req: Request): (r: Response)
    ensures r.status in {200, 204, 400, 404, 405}
    ensures r.status == 405 <==> req.verb != "POST"
    ensures r.status == 405 <==> r.body == Some(PlainError("Method not allowed"))
    ensures r.status == 204 <==> r.body.None?
    ensures r.jsonContentType <==> r.body.Some?
    ensures r.status == 200 <==> r.body.Some? && r.body.value.RpcResult?
    ensures r.status == 404 <==> r.body.Some? && r.body.value.RpcError? && r.body.value.code == MethodNotFound
    ensures r.status == 400 <==>
              r.body.Some? && r.body.value.RpcError? && r.body.value.code in {ParseError, InvalidRequest, InvalidParams}
  {
    if req.verb != "POST" then JsonResponse(405, PlainError("Method not allowed"))
    else
      match req.body
      case Unparsable => ParseErrorResponse
      case Parsed(value) => HandleMessage(value)
  }

  /** The object passed to JSON.stringify for a response body. */
  function BodyJson(b: Body): (j: Json)
    ensures j.Obj?
    ensures "jsonrpc" in j.fields <==> !b.PlainError?
    ensures !b.PlainError? ==>
              && j.fields["jsonrpc"] == Str("2.0")
              && "id" in j.fields && j.fields["id"] == b.id
              && ("result" in j.fields <==> "error" !in j.fields)
    ensures b.RpcResult? ==> j.fields.Keys == {"jsonrpc", "id", "result"} && j.fields["result"] == b.result
    ensures b.RpcError? ==>
              && j.fields.Keys == {"jsonrpc", "id", "error"}
              && j.fields["error"] == Obj(map["code" := Num(FromInt(b.code)), "message" := Str(b.message)])
    ensures b.PlainError? ==> j.fields == map["error" := Str(b.error)]
  {
    match b
    case PlainError(error) => Obj(map["error" := Str(error)])
    case RpcResult(id, result) => Obj(map["jsonrpc" := Str("2.0"), "id" := id, "result" := result])
    case RpcError(id, code, message) =>
      Obj(map[
        "jsonrpc" := Str("2.0"),
        "id" := id,
        "error" := Obj(map["code" := Num(FromInt(code)), "message" := Str(message)])])
  }
}
