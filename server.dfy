/**
 * The MCP server's request handling (pkg/mcp/server.go): the health and
 * readiness answers, the routing of an `/mcp` request to the tool list, an
 * error reply or a tool call, the reply to a tool call, and the helpers that
 * bound what goes into span attributes. HTTP, JSON encoding and telemetry are
 * inputs or left out; a handler's answer is a `Response` value.
 */
module Server {
  import opened Wrappers
  import opened JsonArgs
  import opened ToolRegistry

  /** The byte budgets of the argument and result span attributes. */
  const MaxArgBytes := 1024
  const MaxResultBytes := 1024

  // ----- attribute helpers -----

  const Ellipsis := "..."

  /** `truncateString`: at most `max` characters kept, `...` marking a cut. */
  function TruncateString(s: string, max: nat): (r: string)
    ensures |s| <= max ==> r == s
    ensures |s| > max ==> |r| == max + 3 && r[..max] == s[..max] && r[max..] == Ellipsis
    ensures |r| <= max + 3
  {
    if |s| <= max then s else s[..max] + Ellipsis
  }

  /** Truncating twice is truncating once: a truncated text is left as it is. */
  lemma TruncateIdempotent(s: string, max: nat)
    ensures TruncateString(TruncateString(s, max), max) == TruncateString(s, max)
  {
    var r := TruncateString(s, max);
    if |s| > max {
      assert r == r[..max] + r[max..];
    }
  }

  const EmptyObject := "{}"

  /**
   * `sanitizeArgs`: the arguments as JSON, truncated to the argument budget;
   * `{}` when there are none (Go's nil map) or they cannot be encoded.
   */
  function SanitizeArgs(args: Option<map<string, Json>>, marshal: map<string, Json> -> Result<string>): (r: string)
    ensures args.None? ==> r == EmptyObject
    ensures args.Some? && marshal(args.value).Err? ==> r == EmptyObject
    ensures args.Some? && marshal(args.value).Ok? ==> r == TruncateString(marshal(args.value).value, MaxArgBytes)
    ensures |r| <= MaxArgBytes + 3
  {
    if args.None? then EmptyObject
    else match marshal(args.value)
      case Err(_) => EmptyObject
      case Ok(b) => TruncateString(b, MaxArgBytes)
  }

  /** The result span attribute: the encoded result truncated to the result budget. */
  function ResultAttribute(resultJson: string): (r: string)
    ensures |r| <= MaxResultBytes + 3
    ensures |resultJson| <= MaxResultBytes ==> r == resultJson
  {
    TruncateString(resultJson, MaxResultBytes)
  }

  /** `extractMetaCarrier`: the string-valued entries of `_meta`, keys and values unchanged. */
  method ExtractMetaCarrier(meta: map<string, Json>) returns (carrier: map<string, string>)
    ensures forall k :: k in carrier <==> k in meta && meta[k].JString?
    ensures forall k :: k in carrier ==> carrier[k] == meta[k].s
    ensures |carrier| <= |meta|
  {
    carrier := map[];
    var rest := meta.Keys;
    while rest != {}
      invariant rest <= meta.Keys
      invariant forall k :: k in carrier <==> k in meta && k !in rest && meta[k].JString?
      invariant forall k :: k in carrier ==> carrier[k] == meta[k].s
      decreases |rest|
    {
      var k :| k in rest;
      if meta[k].JString? {
        carrier := carrier[k := meta[k].s];
      }
      rest := rest - {k};
    }
    assert carrier.Keys <= meta.Keys;
    SubsetSize(carrier.Keys, meta.Keys);
  }

  /** A subset is no larger than its superset. */
  lemma {:induction false} SubsetSize<K>(a: set<K>, b: set<K>)
    requires a <= b
    ensures |a| <= |b|
    decreases |b|
  {
    if a != {} {
      var x :| x in a;
      SubsetSize(a - {x}, b - {x});
    }
  }

  // ----- responses -----

  /**
   * What a handler writes: a JSON `mcpResponse` with one text item, the
   * `{"tools": …}` listing, or a plain-text body.
   */
  datatype Response =
    | JsonReply(status: nat, text: string, isError: bool)
    | ToolListing(tools: seq<Tool>)
    | PlainReply(status: nat, body: string)

  const StatusOK := 200
  const StatusBadRequest := 400
  const StatusNotFound := 404
  const StatusMethodNotAllowed := 405
  const StatusInternalServerError := 500
  const StatusServiceUnavailable := 503

  /** `writeJSONError`: an error reply carrying the message as its text. */
  function JsonError(msg: string, status: nat): (r: Response)
  {
    JsonReply(status, msg, true)
  }

  // ----- health and readiness -----

  const OkBody := "ok"
  const ReadyBody := "ready"
  const NotReadyBody := "not ready"

  /** `handleHealthz`: always 200 `ok`. */
  function Healthz(): (r: Response)
  {
    PlainReply(StatusOK, OkBody)
  }

  /**
   * `handleReadyz`, given the readiness function's answer (`None` when no
   * function is set): 503 exactly when a function is set and says not ready.
   */
  function Readyz(ready: Option<bool>): (r: Response)
    ensures r.PlainReply?
    ensures r.status == StatusServiceUnavailable <==> ready == Some(false)
    ensures r.status == StatusOK <==> ready != Some(false)
    ensures r.body == NotReadyBody <==> r.status == StatusServiceUnavailable
  {
    if ready.Some? && !ready.value then PlainReply(StatusServiceUnavailable, NotReadyBody)
    else PlainReply(StatusOK, ReadyBody)
  }

  // ----- routing -----

  /** `mcpParams`. */
  datatype McpParams = McpParams(name: string, arguments: Option<map<string, Json>>, meta: Option<map<string, Json>>)

  /** `mcpRequest`. */
  datatype McpRequest = McpRequest(jsonrpc: string, id: Json, methodName: string, params: McpParams)

  const MethodGet := "GET"
  const MethodPost := "POST"
  const ToolsListMethod := "tools/list"
  const ToolsCallMethod := "tools/call"

  /** `http.Error` ends the message with a line break. */
  const MethodNotAllowedBody := "method not allowed\n"
  const InvalidBodyMessage := "invalid request body"
  const UnsupportedPrefix := "unsupported method: "
  const NotFoundPrefix := "tool not found: "
  const InternalErrorMessage := "internal error"

  /** Where `handleMCP` sends a request. */
  datatype Decision = ListTools | Reject(response: Response) | Invoke(tool: Tool, request: McpRequest)

  /**
   * `handleMCP` up to the tool call, given the HTTP method and the decoded
   * body (`Err` when the body does not decode).
   */
  function Route(httpMethod: string, body: Result<McpRequest>, registry: Registry): (d: Decision)
    reads registry
    ensures d.ListTools? <==> httpMethod == MethodGet || (httpMethod == MethodPost && body.Ok? && body.value.methodName == ToolsListMethod)
    ensures d.Invoke? <==> httpMethod == MethodPost && body.Ok? && body.value.methodName == ToolsCallMethod
                           && registry.Get(body.value.params.name).Some?
    ensures d.Invoke? ==> d.request == body.value && registry.Get(d.request.params.name) == Some(d.tool)
    ensures d.Invoke? && registry.Valid() ==> d.tool.name == d.request.params.name
    ensures d.Reject? && d.response.PlainReply? <==> httpMethod != MethodGet && httpMethod != MethodPost
    ensures d.Reject? && d.response.PlainReply? ==> d.response == PlainReply(StatusMethodNotAllowed, MethodNotAllowedBody)
    ensures d.Reject? && d.response.JsonReply? ==> d.response.isError && d.response.status in {StatusBadRequest, StatusNotFound}
    ensures httpMethod == MethodPost && body.Err? ==> d == Reject(JsonError(InvalidBodyMessage, StatusBadRequest))
    ensures httpMethod == MethodPost && body.Ok? && body.value.methodName != ToolsListMethod && body.value.methodName != ToolsCallMethod
            ==> d == Reject(JsonError(UnsupportedPrefix + body.value.methodName, StatusBadRequest))
    ensures httpMethod == MethodPost && body.Ok? && body.value.methodName == ToolsCallMethod && registry.Get(body.value.params.name).None?
            ==> d == Reject(JsonError(NotFoundPrefix + body.value.params.name, StatusNotFound))
  {
    if httpMethod == MethodGet then ListTools
    else if httpMethod != MethodPost then Reject(PlainReply(StatusMethodNotAllowed, MethodNotAllowedBody))
    else match body
      case Err(_) => Reject(JsonError(InvalidBodyMessage, StatusBadRequest))
      case Ok(req) =>
        if req.methodName == ToolsListMethod then ListTools
        else if req.methodName != ToolsCallMethod then Reject(JsonError(UnsupportedPrefix + req.methodName, StatusBadRequest))
        else match registry.Get(req.params.name)
          case None => Reject(JsonError(NotFoundPrefix + req.params.name, StatusNotFound))
          case Some(tool) => Invoke(tool, req)
  }

  /**
   * The reply to a tool call, from the tool's outcome and the encoding of its
   * result: a tool error is still a 200, carrying the error as its text; a
   * result that cannot be encoded is a 500.
   */
  function CallReply<T>(run: Result<T>, marshal: T -> Result<string>): (r: Response)
    ensures r.JsonReply? && r.status in {StatusOK, StatusInternalServerError}
    ensures r.status == StatusInternalServerError <==> run.Ok? && marshal(run.value).Err?
    ensures r.isError <==> !(run.Ok? && marshal(run.value).Ok?)
    ensures run.Err? ==> r.text == run.error
    ensures !r.isError ==> r.text == marshal(run.value).value
  {
    match run
    case Err(e) => JsonReply(StatusOK, e, true)
    case Ok(result) =>
      match marshal(result)
      case Err(_) => JsonError(InternalErrorMessage, StatusInternalServerError)
      case Ok(text) => JsonReply(StatusOK, text, false)
  }

  /** The listing holds every registered tool once, and nothing else. */
  ghost predicate ListsRegistry(tools: seq<Tool>, registry: Registry)
    reads registry
  {
    && |tools| == |registry.tools|
    && (forall n :: n in registry.tools <==> exists i :: 0 <= i < |tools| && tools[i].name == n)
    && (forall i :: 0 <= i < |tools| ==> tools[i] in registry.tools.Values)
  }

  /** `handleToolList`: every registered tool's name and description. */
  method HandleToolList(registry: Registry) returns (resp: Response)
    requires registry.Valid()
    ensures resp.ToolListing? && ListsRegistry(resp.tools, registry)
  {
    var all := registry.All();
    var infos: seq<Tool> := [];
    for i := 0 to |all|
      invariant infos == all[..i]
    {
      infos := infos + [Tool(all[i].name, all[i].description)];
    }
    assert all[..|all|] == all;
    resp := ToolListing(infos);
  }

  /**
   * `handleMCP`, with the tool's run and the result encoder as inputs: the
   * listing, the rejection, or the reply to the call the routing decided on.
   */
  method HandleMcp<T>(registry: Registry, httpMethod: string, body: Result<McpRequest>,
                      run: (Tool, Option<map<string, Json>>) -> Result<T>, marshal: T -> Result<string>)
    returns (resp: Response)
    requires registry.Valid()
    ensures Route(httpMethod, body, registry).ListTools? ==> resp.ToolListing? && ListsRegistry(resp.tools, registry)
    ensures Route(httpMethod, body, registry).Reject? ==> resp == Route(httpMethod, body, registry).response
    ensures Route(httpMethod, body, registry).Invoke? ==>
              var d := Route(httpMethod, body, registry);
              resp == CallReply(run(d.tool, d.request.params.arguments), marshal)
  {
    var decision := Route(httpMethod, body, registry);
    match decision
    case ListTools =>
      resp := HandleToolList(registry);
    case Reject(r) =>
      resp := r;
    case Invoke(tool, req) =>
      resp := CallReply(run(tool, req.params.arguments), marshal);
  }
}
