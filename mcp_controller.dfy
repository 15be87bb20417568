/** The tool endpoints of the backend: the static tool catalog and the
    `execute` dispatcher that validates a request, routes it to one of two
    handlers and wraps the outcome in a JSON-RPC 2.0 envelope.

    The handlers themselves (issue summarization, repository fetch) are
    parameters: each is a total function from its one string argument to a
    success value or a failure message, standing for a call that returns or
    throws. */
module McpController {
  import opened JsValues

  const JsonRpcVersion: string := "2.0"
  /** JSON-RPC "internal error", used for every caught failure. */
  const InternalErrorCode: int := -32603
  const BadRequest: int := 400
  const NotFound: int := 404

  const InvalidRequestMessage: string := "Invalid request: tool and parameters are required"
  const MissingUrlMessage: string := "URL parameter is required for summarizeIssues"
  const MissingRepoMessage: string := "Repo parameter is required for fetchRepoCode"
  const ToolNotFoundMessage: string := "Tool not found"

  const SummarizeIssuesTool: string := "summarizeIssues"
  const FetchRepoCodeTool: string := "fetchRepoCode"

  // ---------------------------------------------------------------------
  // Tool catalog
  // ---------------------------------------------------------------------

  datatype ParamDescriptor = ParamDescriptor(name: string, kind: string, description: string)
  datatype ToolDescriptor = ToolDescriptor(name: string, description: string, parameters: seq<ParamDescriptor>)

  /** The catalog returned by `POST /tools/list`, as a plain array. */
  function ListTools(): (tools: seq<ToolDescriptor>)
    ensures |tools| == 2
    ensures tools[0].name == SummarizeIssuesTool && tools[1].name == FetchRepoCodeTool
    ensures |tools[0].parameters| == 1 && tools[0].parameters[0].name == "url"
    ensures |tools[1].parameters| == 1 && tools[1].parameters[0].name == "repo"
    ensures forall t :: t in tools ==> forall p :: p in t.parameters ==> p.kind == "string"
  {
    [ ToolDescriptor(SummarizeIssuesTool, "Summarizes a specific GitHub issue or PR.",
        [ParamDescriptor("url", "string",
           "GitHub issue or PR URL (e.g., https://github.com/vercel/next.js/pull/80974)")]),
      ToolDescriptor(FetchRepoCodeTool, "Fetches the entire repository code structure.",
        [ParamDescriptor("repo", "string", "GitHub repository in the format owner/repo")]) ]
  }

  // ---------------------------------------------------------------------
  // Requests, handler outcomes and envelopes
  // ---------------------------------------------------------------------

  /** The `parameters` bag: only the two fields the dispatcher reads. */
  datatype ToolParams = ToolParams(url: Option<string>, repo: Option<string>)

  /** The body of `POST /tools/execute`; every field may be absent. */
  datatype ExecuteBody = ExecuteBody(id: Option<int>, tool: Option<string>, parameters: Option<ToolParams>)

  /** What a handler does: returns a value or throws an error with a message. */
  datatype HandlerResult<V> = Success(value: V) | Failure(message: string)

  /** A handler invocation, with the one argument the handler receives. */
  datatype HandlerCall = SummarizeIssuesCall(url: string) | FetchRepoCodeCall(repo: string)

  /** What the `switch` inside the `try` does: call a handler, or throw. */
  datatype Route = Invoke(call: HandlerCall) | Throw(status: int, message: string)

  datatype RpcError = RpcError(code: int, message: string)

  /** The JSON-RPC response object; `result` and `error` are optional fields. */
  datatype Envelope<V> = Envelope(jsonrpc: string, result: Option<V>, error: Option<RpcError>, id: int)

  /** What the HTTP layer sends back: an HTTP error status, or an envelope (with status 2xx). */
  datatype Response<V> = HttpError(status: int, message: string) | Reply(envelope: Envelope<V>)

  /** The response together with the handler calls made to produce it. */
  datatype Execution<V> = Execution(response: Response<V>, calls: seq<HandlerCall>)

  /** A well-formed envelope: version 2.0, a non-zero id, and exactly one of
      `result` and `error`, the latter always with the internal-error code. */
  predicate WellFormed<V>(e: Envelope<V>) {
    && e.jsonrpc == JsonRpcVersion
    && e.id != 0
    && (e.result.Some? <==> e.error.None?)
    && (e.error.Some? ==> e.error.value.code == InternalErrorCode)
  }

  /** `body.id || 1` for a numeric id. */
  function RequestId(id: Option<int>): (r: int)
    ensures r != 0
    ensures id.Some? && id.value != 0 ==> r == id.value
    ensures id.None? || id.value == 0 ==> r == 1
  {
    if id.Some? && id.value != 0 then id.value else 1
  }

  /** The `switch (body.tool)` with its per-tool parameter checks. */
  function RouteTool(tool: string, params: ToolParams): Route {
    if tool == SummarizeIssuesTool then
      if !Truthy(params.url) then Throw(BadRequest, MissingUrlMessage)
      else Invoke(SummarizeIssuesCall(params.url.value))
    else if tool == FetchRepoCodeTool then
      if !Truthy(params.repo) then Throw(BadRequest, MissingRepoMessage)
      else Invoke(FetchRepoCodeCall(params.repo.value))
    else
      Throw(NotFound, ToolNotFoundMessage)
  }

  function RunHandler<V>(call: HandlerCall, summarize: string -> HandlerResult<V>,
                         fetchRepo: string -> HandlerResult<V>): HandlerResult<V>
  {
    match call
    case SummarizeIssuesCall(url) => summarize(url)
    case FetchRepoCodeCall(repo) => fetchRepo(repo)
  }

  /** The `catch` block: any error becomes an envelope error with its message. */
  function ErrorEnvelope<V>(message: string, id: int): Envelope<V> {
    Envelope(JsonRpcVersion, None, Some(RpcError(InternalErrorCode, message)), id)
  }

  function ResultEnvelope<V>(value: V, id: int): Envelope<V> {
    Envelope(JsonRpcVersion, Some(value), None, id)
  }

  /** `executeTool`: the guard outside the `try`, then routing, the handler
      call and the envelope built inside it. */
  function ExecuteTool<V>(body: ExecuteBody, summarize: string -> HandlerResult<V>,
                          fetchRepo: string -> HandlerResult<V>): (e: Execution<V>)
    // only the top-level guard escapes as an HTTP error
    ensures e.response.HttpError? <==> !Truthy(body.tool) || body.parameters.None?
    ensures e.response.HttpError? ==> e.response.status == BadRequest && e.calls == []
    // every other outcome is a well-formed envelope echoing the request id
    ensures e.response.Reply? ==>
              WellFormed(e.response.envelope) && e.response.envelope.id == RequestId(body.id)
    // at most one handler runs, and its outcome is what the envelope carries
    ensures |e.calls| <= 1
    ensures |e.calls| == 1 ==>
              e.response.Reply? &&
              match RunHandler(e.calls[0], summarize, fetchRepo)
              case Success(v) => e.response.envelope.result == Some(v)
              case Failure(m) => e.response.envelope.error == Some(RpcError(InternalErrorCode, m))
    // a reply without a handler call is one of the dispatcher's own errors
    ensures e.response.Reply? && e.calls == [] ==>
              e.response.envelope.error.Some? &&
              e.response.envelope.error.value.message in {MissingUrlMessage, MissingRepoMessage, ToolNotFoundMessage}
  {
    if !Truthy(body.tool) || body.parameters.None? then
      Execution(HttpError(BadRequest, InvalidRequestMessage), [])
    else
      var id := RequestId(body.id);
      match RouteTool(body.tool.value, body.parameters.value)
      case Throw(_, message) =>
        Execution(Reply(ErrorEnvelope(message, id)), [])
      case Invoke(call) =>
        var envelope := match RunHandler(call, summarize, fetchRepo)
                        case Success(v) => ResultEnvelope(v, id)
                        case Failure(m) => ErrorEnvelope(m, id);
        Execution(Reply(envelope), [call])
  }

  // ---------------------------------------------------------------------
  // Properties of the dispatcher
  // ---------------------------------------------------------------------

  /** A missing or empty tool name, or missing parameters, is the HTTP 400
      with the fixed message; no handler runs. */
  lemma InvalidRequestIsBadRequest<V>(body: ExecuteBody, summarize: string -> HandlerResult<V>,
                                      fetchRepo: string -> HandlerResult<V>)
    requires !Truthy(body.tool) || body.parameters.None?
    ensures ExecuteTool(body, summarize, fetchRepo)
            == Execution(HttpError(BadRequest, InvalidRequestMessage), [])
  {
  }

  /** summarizeIssues without a (non-empty) url: an envelope error, not an HTTP 400. */
  lemma MissingUrlIsEnvelopeError<V>(body: ExecuteBody, summarize: string -> HandlerResult<V>,
                                     fetchRepo: string -> HandlerResult<V>)
    requires body.tool == Some(SummarizeIssuesTool) && body.parameters.Some?
    requires !Truthy(body.parameters.value.url)
    ensures ExecuteTool(body, summarize, fetchRepo)
            == Execution(Reply(ErrorEnvelope(MissingUrlMessage, RequestId(body.id))), [])
  {
  }

  /** fetchRepoCode without a (non-empty) repo: an envelope error, whatever the url. */
  lemma MissingRepoIsEnvelopeError<V>(body: ExecuteBody, summarize: string -> HandlerResult<V>,
                                      fetchRepo: string -> HandlerResult<V>)
    requires body.tool == Some(FetchRepoCodeTool) && body.parameters.Some?
    requires !Truthy(body.parameters.value.repo)
    ensures ExecuteTool(body, summarize, fetchRepo)
            == Execution(Reply(ErrorEnvelope(MissingRepoMessage, RequestId(body.id))), [])
  {
  }

  /** Any other non-empty tool name: an envelope error "Tool not found" (the
      404 status of the thrown exception is lost in the catch). */
  lemma UnknownToolIsEnvelopeError<V>(body: ExecuteBody, summarize: string -> HandlerResult<V>,
                                      fetchRepo: string -> HandlerResult<V>)
    requires Truthy(body.tool) && body.parameters.Some?
    requires body.tool.value != SummarizeIssuesTool && body.tool.value != FetchRepoCodeTool
    ensures ExecuteTool(body, summarize, fetchRepo)
            == Execution(Reply(ErrorEnvelope(ToolNotFoundMessage, RequestId(body.id))), [])
  {
  }

  /** A well-formed summarizeIssues request calls that handler once, with the
      url only, and wraps its outcome. */
  lemma SummarizeIssuesDispatch<V>(body: ExecuteBody, summarize: string -> HandlerResult<V>,
                                   fetchRepo: string -> HandlerResult<V>)
    requires body.tool == Some(SummarizeIssuesTool) && body.parameters.Some?
    requires Truthy(body.parameters.value.url)
    ensures var url := body.parameters.value.url.value;
            var e := ExecuteTool(body, summarize, fetchRepo);
            && e.calls == [SummarizeIssuesCall(url)]
            && e.response == Reply(match summarize(url)
                                   case Success(v) => ResultEnvelope(v, RequestId(body.id))
                                   case Failure(m) => ErrorEnvelope(m, RequestId(body.id)))
  {
  }

  /** A well-formed fetchRepoCode request calls that handler once, with the
      repo only, and wraps its outcome. */
  lemma FetchRepoCodeDispatch<V>(body: ExecuteBody, summarize: string -> HandlerResult<V>,
                                 fetchRepo: string -> HandlerResult<V>)
    requires body.tool == Some(FetchRepoCodeTool) && body.parameters.Some?
    requires Truthy(body.parameters.value.repo)
    ensures var repo := body.parameters.value.repo.value;
            var e := ExecuteTool(body, summarize, fetchRepo);
            && e.calls == [FetchRepoCodeCall(repo)]
            && e.response == Reply(match fetchRepo(repo)
                                   case Success(v) => ResultEnvelope(v, RequestId(body.id))
                                   case Failure(m) => ErrorEnvelope(m, RequestId(body.id)))
  {
  }

  /** When no handler is called, the response does not depend on the
      handlers at all: nothing of theirs is evaluated. */
  lemma NoCallIgnoresHandlers<V>(body: ExecuteBody,
                                 summarize: string -> HandlerResult<V>, fetchRepo: string -> HandlerResult<V>,
                                 summarize': string -> HandlerResult<V>, fetchRepo': string -> HandlerResult<V>)
    requires ExecuteTool(body, summarize, fetchRepo).calls == []
    ensures ExecuteTool(body, summarize, fetchRepo) == ExecuteTool(body, summarize', fetchRepo')
  {
  }

  /** Each handler sees only its own parameter: changing the other field of
      the parameter bag changes nothing. */
  lemma HandlerSeesOnlyItsParameter<V>(id: Option<int>, tool: string, params: ToolParams, other: Option<string>,
                                       summarize: string -> HandlerResult<V>, fetchRepo: string -> HandlerResult<V>)
    ensures tool == SummarizeIssuesTool ==>
              ExecuteTool(ExecuteBody(id, Some(tool), Some(params)), summarize, fetchRepo)
              == ExecuteTool(ExecuteBody(id, Some(tool), Some(params.(repo := other))), summarize, fetchRepo)
    ensures tool == FetchRepoCodeTool ==>
              ExecuteTool(ExecuteBody(id, Some(tool), Some(params)), summarize, fetchRepo)
              == ExecuteTool(ExecuteBody(id, Some(tool), Some(params.(url := other))), summarize, fetchRepo)
  {
  }

  /** The catalog and the dispatcher agree: a name is routed to a handler
      exactly when it is listed, and the parameter the dispatcher requires is
      the one the catalog declares. */
  lemma CatalogMatchesDispatcher(tool: string, params: ToolParams)
    ensures RouteTool(tool, params) != Throw(NotFound, ToolNotFoundMessage)
            <==> exists t :: t in ListTools() && t.name == tool
    ensures tool == ListTools()[0].name ==>
              (RouteTool(tool, params).Invoke? <==> Truthy(params.url)) &&
              ListTools()[0].parameters[0].name == "url"
    ensures tool == ListTools()[1].name ==>
              (RouteTool(tool, params).Invoke? <==> Truthy(params.repo)) &&
              ListTools()[1].parameters[0].name == "repo"
  {
    var tools := ListTools();
    if tool == SummarizeIssuesTool {
      assert tools[0] in tools;
    } else if tool == FetchRepoCodeTool {
      assert tools[1] in tools;
    }
  }
}
