# MCP server request handler, modelled in Dafny

The worker `cloudflare/workers/mcp-server` answers Model Context Protocol
(revision 2025-03-26) calls over JSON-RPC 2.0 with one handler, the default
export's `fetch`. It is a stateless decision procedure with a fixed order of
checks, each ending in a definite HTTP status and, for JSON-RPC answers, a
definite error code from section 5.1 of the JSON-RPC 2.0 specification:

1. the HTTP verb: anything but `POST` is 405 with the plain body
   `{error: "Method not allowed"}`;
2. the body parse: a body that is not JSON is 400 / -32700 "Parse error"
   with a null id;
3. the envelope: `jsonrpc` must be exactly the string "2.0" and `method`
   truthy, else 400 / -32600 "Invalid Request", echoing `id || null`;
4. notifications: a falsy `id` is answered 204 with no body, whatever the
   method;
5. the method switch over nine names: anything else is 404 / -32601;
6. the parameter checks of `resources/read` (`params.uri`), `prompts/get`
   and `tools/call` (`params.name`): a mismatch is 400 / -32602;
7. otherwise 200 with `{jsonrpc: "2.0", id, result}`.

The model is pure, as the handler is: `McpServer.Handle` is a function from
a request (verb and body outcome) to a response (status, JSON content-type
flag, optional body). The body of a JSON-RPC answer is a `Body` datatype and
`McpServer.BodyJson` gives the object that would be serialised. The fixed
payloads (`initialize`, the list methods, the served Rust file) are written
out in full as JSON values. Module `JavaScript` holds the part of the
language the handler leans on: values as `JSON.parse` produces them (with
strings of Unicode scalar values), `undefined`, truthiness, property access with `?.`, and ToString as a
template literal applies it (ECMA-262, including Number::toString).

Module `McpServerProperties` proves, for every request, when each status and
code is answered (both directions), that ids are echoed, that every answer
but the 405 is JSON-RPC shaped with exactly one of `result` and `error`, that
the parameter-free methods ignore `params`, and what text the two templated
answers carry.

The code is followed where it departs from the protocol as described in
prose:

- "notification" means a falsy `id`, not an absent one: `0`, `-0`, `""`,
  `false` and `null` ids are all answered 204;
- an invalid envelope echoes `id || null`, so an id of `0` comes back null;
- `method` must be truthy, so `""` is an invalid request, while a truthy
  non-string method (a number, an object) passes the envelope check and is
  then an unknown method;
- a body that parses to `null` is a parse error, since destructuring `null`
  throws into the same `catch`; any other non-object body (an array, that
  is, a JSON-RPC batch; a number; a string) is an invalid request with a
  null id;
- the `catch` also receives the TypeError that a template literal throws
  when the embedded `arguments.code` or `arguments.location` is an object
  with its own `toString` key, or an array holding one: such a well-formed
  `prompts/get` or `tools/call` is answered 400 / -32700 "Parse error" with a
  null id.

## Model

| member | source | states |
|---|---|---|
| `McpServer.Handle` | cloudflare/workers/mcp-server/src/index.ts:2-200 | The status is one of 200, 204, 400, 404, 405; 405 exactly for a verb other than POST, and then the body is the plain "Method not allowed" object; 204 exactly when there is no body; the JSON content type exactly when there is a body; 200 exactly for a result body, 404 exactly for a -32601 error, 400 exactly for a -32700, -32600 or -32602 error |
| `McpServer.Dispatch` | cloudflare/workers/mcp-server/src/index.ts:32-188 | A method outside the nine (every non-string included) is exactly the 404 / -32601 failure; every other failure is 400 / -32602 for one of the parameter-checked methods; the six parameter-free methods always give a result; only `prompts/get` and `tools/call` can throw |
| `McpServer.BodyJson` | cloudflare/workers/mcp-server/src/index.ts:184-199 | A result answer is exactly `{jsonrpc: "2.0", id, result}` with the body's id and result; an error answer is exactly `{jsonrpc: "2.0", id, error}` with `error` the object `{code, message}` of the body's code as a number and its message; a plain error (the 405) is exactly `{error}` with its message, with no `jsonrpc` |
| `JavaScript.JsonToStringThrows` | cloudflare/workers/mcp-server/src/index.ts:131 | ToString of a parsed value throws exactly when the value is an object with an own `toString` key or an array holding such a value at any depth |
| `JavaScript.FromIntToString` | cloudflare/workers/mcp-server/src/index.ts:171 | An integer below 10^21 in magnitude converts to its sign and decimal numeral |
| `McpServerProperties.NonPostRejected` | cloudflare/workers/mcp-server/src/index.ts:3-8 | Any verb but POST gives 405 with JSON content type and `{error: "Method not allowed"}` |
| `McpServerProperties.VerbCheckIgnoresBody` | cloudflare/workers/mcp-server/src/index.ts:3-8 | For a verb other than POST the answer does not depend on the body at all |
| `McpServerProperties.UnparsableBody` | cloudflare/workers/mcp-server/src/index.ts:195-199 | A POST whose body is not JSON, or is JSON null, gives 400 with error -32700 "Parse error" and a null id |
| `McpServerProperties.ParseErrorExactly` | cloudflare/workers/mcp-server/src/index.ts:195-199 | A -32700 answer occurs exactly for a POST with an unparsable body, a null body, or a request reaching the switch whose embedded argument cannot be converted to a string; it is always the same 400 answer with a null id |
| `McpServerProperties.InvalidEnvelope` | cloudflare/workers/mcp-server/src/index.ts:14-19 | A destructured body whose `jsonrpc` is not exactly "2.0" or whose `method` is falsy gives 400 / -32600 "Invalid Request" with `id` if truthy, else null |
| `McpServerProperties.InvalidRequestExactly` | cloudflare/workers/mcp-server/src/index.ts:14-19 | A -32600 answer occurs exactly for a destructured POST body with an invalid envelope |
| `McpServerProperties.NotificationExactly` | cloudflare/workers/mcp-server/src/index.ts:22-29 | Status 204 occurs exactly for a valid envelope with a falsy id, whatever the method, and then there is no body and no content type |
| `McpServerProperties.FalsyValues` | cloudflare/workers/mcp-server/src/index.ts:22 | The falsy values are exactly undefined, null, false, +0, -0 and the empty string |
| `McpServerProperties.NotificationNeverDispatched` | cloudflare/workers/mcp-server/src/index.ts:22-29 | A notification is never answered 404 and never carries a body |
| `McpServerProperties.MethodNotFoundExactly` | cloudflare/workers/mcp-server/src/index.ts:183-187 | Status 404 occurs exactly for a request reaching the switch with a method not among the nine, and then the body is -32601 "Method not found" echoing the id |
| `McpServerProperties.InvalidParamsExactly` | cloudflare/workers/mcp-server/src/index.ts:72-182 | A -32602 answer occurs exactly for a request reaching the switch with a parameter-checked method whose checked parameter is not the expected string; it has status 400 and echoes the id |
| `McpServerProperties.SuccessExactly` | cloudflare/workers/mcp-server/src/index.ts:190-193 | Status 200 occurs exactly for a request reaching the switch with a known method, accepted parameters and a convertible embedded argument; the answer echoes the request's id |
| `McpServerProperties.DispatchWrapped` | cloudflare/workers/mcp-server/src/index.ts:32-199 | A request reaching the switch is answered with what the method table gives: a result as 200 `{result}` with the request's id, a failure as its own status and `{code, message}` with the request's id, a thrown TypeError as the 400 / -32700 answer with a null id |
| `McpServerProperties.ResponseId` | cloudflare/workers/mcp-server/src/index.ts:14-199 | Every JSON-RPC answer carries the request's `id || null`, except the parse error, which carries null |
| `McpServerProperties.JsonRpcShape` | cloudflare/workers/mcp-server/src/index.ts:184-199 | Every answer with a body other than the 405 serialises an object with `jsonrpc: "2.0"`, an `id`, and exactly one of `result` (exactly for status 200) and `error` |
| `McpServerProperties.ParamFreeIgnoresParams` | cloudflare/workers/mcp-server/src/index.ts:33-71 | `initialize`, `ping`, `resources/list`, `resources/templates/list`, `prompts/list` and `tools/list` give a result, the same whatever `params` holds |
| `McpServerProperties.NonObjectParamsRejected` | cloudflare/workers/mcp-server/src/index.ts:73-74 | A missing or non-object `params` always fails the check of the three parameter-checked methods with 400 / -32602 |
| `McpServerProperties.ResourcesReadExactly` | cloudflare/workers/mcp-server/src/index.ts:72-90 | `resources/read` succeeds exactly when `params.uri` is "file:///project/src/main.rs", then serving the Rust snippet; otherwise 400 / -32602 "Invalid params: resource not found" |
| `McpServerProperties.PromptsGetExactly` | cloudflare/workers/mcp-server/src/index.ts:121-142 | `prompts/get` passes its check exactly when `params.name` is "code_review", otherwise 400 / -32602 "Invalid params: prompt not found"; a result embeds the string form of `arguments.code` |
| `McpServerProperties.ToolsCallExactly` | cloudflare/workers/mcp-server/src/index.ts:164-182 | `tools/call` passes its check exactly when `params.name` is "get_weather", otherwise 400 / -32602 "Invalid params: tool not found"; a result embeds the string form of `arguments.location` |
| `McpServerProperties.PromptResultEmbedsCode` | cloudflare/workers/mcp-server/src/index.ts:124-135 | The prompt text is "Please review this Python code:\\n " (a literal backslash-n) followed by the caller's code, so distinct code gives distinct answers |
| `McpServerProperties.WeatherResultEmbedsLocation` | cloudflare/workers/mcp-server/src/index.ts:167-175 | The weather text is "Current weather in ", the caller's location and the fixed temperature and conditions suffix, so distinct locations give distinct answers |
| `McpServerProperties.PromptWithoutArguments` | cloudflare/workers/mcp-server/src/index.ts:131 | A `prompts/get` without `arguments` embeds the text "undefined" |
| `McpServerProperties.IntegerLocation` | cloudflare/workers/mcp-server/src/index.ts:171 | An integer location below 10^21 in magnitude is embedded as its sign and decimal numeral |
| `McpServerProperties.ErrorCodePrints` | cloudflare/workers/mcp-server/src/index.ts:196 | Each of the four error codes is negative and serialises as a minus sign followed by the numeral of its magnitude |
| `McpServerProperties.ZeroIdIsNotification` | cloudflare/workers/mcp-server/src/index.ts:22 | A valid request with id 0 is answered 204 with no body |
| `McpServerProperties.ZeroIdEchoedAsNull` | cloudflare/workers/mcp-server/src/index.ts:15 | An invalid request with id 0 is answered with a null id |
| `McpServerProperties.EmptyMethodIsInvalid` | cloudflare/workers/mcp-server/src/index.ts:14 | A method of "" is -32600, not -32601 |
| `McpServerProperties.NonStringMethodIsUnknown` | cloudflare/workers/mcp-server/src/index.ts:32 | In a POST whose `jsonrpc` is "2.0", a truthy non-string method with a truthy id is answered 404 |
| `McpServerProperties.NonObjectBodyIsInvalid` | cloudflare/workers/mcp-server/src/index.ts:12-19 | A non-null body that is not an object (a batch array included) gives 400 / -32600 with a null id |
| `McpServerProperties.UnstringableLocation` | cloudflare/workers/mcp-server/src/index.ts:171 | A well-formed `tools/call` whose location is an object with an own `toString` key gets the 400 / -32700 answer with a null id |
| `McpServerProperties.InitializeAnswer` | cloudflare/workers/mcp-server/src/index.ts:33-55 | `initialize` is answered 200 with `serverInfo.name` "CloudflareMCP" and `protocolVersion` "2025-03-26" |
| `McpServerProperties.WeatherInParis` | cloudflare/workers/mcp-server/src/index.ts:164-193 | `tools/call` for get_weather in Paris is answered 200 with the weather result for "Paris" |

## Left out

- The Worker runtime: `Request` and `Response` objects, header maps beyond
  the JSON content-type flag, and the `async`/`await` around
  `request.json()`. The body reaches the model already settled, as
  `Unparsable` or a parsed value; the verb is taken as the runtime delivers
  it (its normalisation of method names is not modelled).
- JSON text: parsing is abstracted into that outcome, and `JSON.stringify`
  into `BodyJson`, a structured value. Property order, and the text that
  stringify writes for a non-finite number echoed as an id (`null`), are
  therefore not modelled.
- Doubles: a parsed number is given by its shortest decimal form (or as a
  signed zero or infinity); the rounding of a number literal to a double
  belongs to parsing and is not modelled.
- Lone surrogates: a JSON string may hold an unpaired UTF-16 surrogate
  (`"\ud800"`), which a string of Unicode scalar values cannot express.
  The handler only compares strings with ASCII literals and concatenates
  them, so none of its decisions depend on this.
- The two identical branches for `notifications/initialized` and other
  notifications are one branch in the model, since both answer 204.
- There is no concurrency and no state shared between requests, so there
  is nothing of either to model.
