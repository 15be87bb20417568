/** The page's request as the backend dispatcher receives it. */
module WebBackend {
  import opened JsValues
  import WebPage
  import McpController

  /** `JSON.stringify({tool, parameters: {repo}})` as parsed by the backend:
      no id, and no url among the parameters. */
  function ToExecuteBody(request: WebPage.ExecuteRequest): McpController.ExecuteBody
  {
    McpController.ExecuteBody(None, Some(request.tool), Some(McpController.ToolParams(None, Some(request.repo))))
  }

  /** Every request the page sends names the summarizeIssues tool with a
      `repo` parameter, while that tool is dispatched on `url`: the backend
      answers each with the missing-url envelope error and id 1, and no
      handler runs. */
  lemma PageRequestMissesUrl<V>(repo: string,
                                summarize: string -> McpController.HandlerResult<V>,
                                fetchRepo: string -> McpController.HandlerResult<V>)
    requires WebPage.ValidateRepo(repo)
    ensures var request := WebPage.ExecuteRequest("summarizeIssues", WebPage.Trim(repo));
            McpController.ExecuteTool(ToExecuteBody(request), summarize, fetchRepo)
            == McpController.Execution(
                 McpController.Reply(McpController.ErrorEnvelope(McpController.MissingUrlMessage, 1)), [])
  {
  }
}
