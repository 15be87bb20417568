# GitHub issue summarizer — a Dafny model of its request logic

This project models the three pieces of logic in the GitHub issue summarizer
that decide what a request does, and proves their contracts:

- **The tool endpoints of the backend** (`McpController`, file
  `mcp_controller.dfy`). `ListTools` is the static two-tool catalog.
  `ExecuteTool` is the `execute` dispatcher. It rejects a request without a
  tool name or parameters with HTTP 400. It then routes `summarizeIssues` and
  `fetchRepoCode` to their handlers after checking each one's required
  parameter. Every exception inside the `try`, including the dispatcher's own
  "missing url", "missing repo" and "Tool not found" exceptions, becomes a
  JSON-RPC 2.0 envelope error with code -32603, and the HTTP status of those
  exceptions is lost; a handler's value becomes the envelope's `result`. The envelope id is `body.id || 1`. The two handlers are
  function parameters, and every execution also records the handler calls it
  made, so "no handler runs" is a statement about the model.
- **Repository-wide issue summarization** (`McpService`, file
  `mcp_service.dfy`). It splits `"owner/repo"` on `/` (`Split` is proved to
  round-trip with `Join` in both directions) and lists the issues. It builds
  the fixed prompt `"Summarize this in 50 words: " + title + "\n" + body` for
  each issue (a null body is rendered as `null`). The result is one
  `{id, summary}` per issue, in order. Any failure fails the whole call with the
  prefix `"Failed to summarize issues: "`. The GitHub listing and the
  chat-completion call are function parameters. The mapping over the issues
  records each request it starts with its prompt and outcome, and the call
  returns those prompts beside its result, so the model calls made are part
  of what is proved.
- **The web page** (`WebPage`, file `web_page.dfy`). `String.prototype.trim`
  is modelled over the ECMAScript whitespace and line-terminator code points.
  `ValidateRepo` is the anchored pattern `[a-zA-Z0-9._-]+/[a-zA-Z0-9._-]+` on the
  trimmed input, and it is proved equal to that pattern's language. The class
  `Home` holds the component state (`repo`, `loading`, `error`, `results`).
  Its `SummarizeIssues` method runs the pre-checks, the reset, the single
  request and the response handling with its `finally`. The rule "show two
  labels, then a +n more badge" is also modelled.

`JsValues` (file `js_values.dfy`) holds the optional-field type and the
JavaScript truthiness of optional strings that both sides use. `WebBackend`
(file `web_backend.dfy`) connects the page to the dispatcher. The page posts
`{tool: "summarizeIssues", parameters: {repo}}`, but the dispatcher takes that
tool's argument from `url`. So every request the page can send gets the
envelope error "URL parameter is required for summarizeIssues" with id 1, and
no handler runs (`PageRequestMissesUrl`).

Facts of these files that the model keeps:
- The issue listing is used as a plain array of issues.
- Every listed issue is summarized; there is no cap on their number.
- An empty issue list gives an empty result.
- The dispatcher's missing-parameter and unknown-tool errors are thrown
  inside its `try` and come back inside the envelope, not as 400/404
  responses.

## Model

| member | source | states |
|---|---|---|
| `McpController.ListTools` | apps/backend/src/mcp/mcp.controller.ts:14-39 | exactly two tools in order, summarizeIssues then fetchRepoCode, each with one parameter (url, repo) of type "string" |
| `McpController.RequestId` | apps/backend/src/mcp/mcp.controller.ts:85-90 | the envelope id is never 0: it echoes a non-zero id, and an absent id or id 0 becomes 1 |
| `McpController.RouteTool` | apps/backend/src/mcp/mcp.controller.ts:59-84 | the dispatch on the tool name and its required parameter; specified by `CatalogMatchesDispatcher`, `ExecuteTool` and the dispatch lemmas below |
| `McpController.ExecuteTool` | apps/backend/src/mcp/mcp.controller.ts:41-93 | an HTTP error happens iff tool is missing/empty or parameters are missing, and then it is a 400 with no handler call. Otherwise the reply is a well-formed envelope (version 2.0, exactly one of result and error, code -32603, id from RequestId). At most one handler runs, and its success or failure is what the envelope carries. A reply with no handler call is one of the three dispatcher errors |
| `McpController.InvalidRequestIsBadRequest` | apps/backend/src/mcp/mcp.controller.ts:50-55 | missing/empty tool or missing parameters gives HTTP 400 "Invalid request: tool and parameters are required" and no handler call |
| `McpController.MissingUrlIsEnvelopeError` | apps/backend/src/mcp/mcp.controller.ts:60-91 | summarizeIssues with an absent or empty url gives the envelope error "URL parameter is required for summarizeIssues", not an HTTP error, with no handler call |
| `McpController.MissingRepoIsEnvelopeError` | apps/backend/src/mcp/mcp.controller.ts:71-91 | fetchRepoCode with an absent or empty repo gives the envelope error "Repo parameter is required for fetchRepoCode", whatever the url, with no handler call |
| `McpController.UnknownToolIsEnvelopeError` | apps/backend/src/mcp/mcp.controller.ts:82-91 | any other tool name gives the envelope error "Tool not found" with no handler call |
| `McpController.SummarizeIssuesDispatch` | apps/backend/src/mcp/mcp.controller.ts:60-92 | a summarizeIssues request with a url calls that handler once with the url. Its value becomes `result`, or its failure message becomes the `error` message |
| `McpController.FetchRepoCodeDispatch` | apps/backend/src/mcp/mcp.controller.ts:71-92 | a fetchRepoCode request with a repo calls that handler once with the repo. Its value becomes `result`, or its failure message becomes the `error` message |
| `McpController.NoCallIgnoresHandlers` | apps/backend/src/mcp/mcp.controller.ts:50-84 | when no handler is called, the response is the same for any handlers |
| `McpController.HandlerSeesOnlyItsParameter` | apps/backend/src/mcp/mcp.controller.ts:67-80 | summarizeIssues does not depend on `repo`, and fetchRepoCode does not depend on `url` |
| `McpController.CatalogMatchesDispatcher` | apps/backend/src/mcp/mcp.controller.ts:16-83 | a tool name avoids "Tool not found" iff the catalog lists it, and each listed tool is dispatched exactly when the parameter the catalog declares for it is non-empty |
| `McpService.Split` | apps/backend/src/mcp/mcp.service.ts:17 | `split('/')` gives at least one part, no part holds a '/', and there is one part iff the text has no '/' |
| `McpService.JoinSplit` | apps/backend/src/mcp/mcp.service.ts:17 | joining the parts of a split with '/' gives the text back |
| `McpService.SplitJoin` | apps/backend/src/mcp/mcp.service.ts:17 | splitting the join of '/'-free parts gives the parts back |
| `McpService.RepoPath` | apps/backend/src/mcp/mcp.service.ts:17 | with no '/', the owner is the whole text and the name is undefined. Otherwise the owner is the text before the first '/' and the name the text up to the second '/' or the end; later segments are ignored |
| `McpService.PromptInjective` | apps/backend/src/mcp/mcp.service.ts:29 | the prompt template loses nothing: for titles without a line break, equal prompts mean equal titles and equal body text |
| `McpService.Prompt` | apps/backend/src/mcp/mcp.service.ts:29 | the template for one issue; specified by `PromptInjective` |
| `McpService.StartAll` | apps/backend/src/mcp/mcp.service.ts:23-34 | `issues.map(...)`: one request per issue, in list order, with that issue's number and prompt and the model's outcome; specified by `AwaitAll`, `SummarizeIssues` and `OnlyRecordedPromptsMatter` |
| `McpService.AwaitAll` | apps/backend/src/mcp/mcp.service.ts:22-35 | `Promise.all` over the started requests succeeds iff every one succeeds. Then there is one entry per request, in order, with its issue number and the model's output. Otherwise it reports a failing request's message, with every earlier request having succeeded |
| `McpService.ListFor` | apps/backend/src/mcp/mcp.service.ts:17-21 | the listing is asked for the owner and name of `RepoPath`; specified there and through `SummarizeIssues` |
| `McpService.SummarizeIssues` | apps/backend/src/mcp/mcp.service.ts:15-40 | a failed listing gives "Failed to summarize issues: " + its message and makes no model call. Otherwise the model is asked once per listed issue, in order, with that issue's prompt, whether or not any of them fails. The call succeeds iff every summarization does, and then it has one entry per issue with id = issue number and summary = the model's output. Otherwise the error is the prefix followed by the message of a failing issue all of whose predecessors succeeded; no partial result is returned |
| `McpService.OnlyRecordedPromptsMatter` | apps/backend/src/mcp/mcp.service.ts:22-35 | the outcome depends on the model only through the prompts the call records: two models that agree on those prompts give the same result and the same calls |
| `McpService.NoIssuesNoSummaries` | apps/backend/src/mcp/mcp.service.ts:22-36 | an empty listing gives an empty result and no model calls |
| `McpService.ErrorsArePrefixed` | apps/backend/src/mcp/mcp.service.ts:37-39 | every reported error starts with "Failed to summarize issues: " |
| `WebPage.Trim` | apps/web/app/page.tsx:36 | `String.prototype.trim`; specified by `TrimIsSlice`, `BlankIffAllWhitespace` and `TrimIdempotent` |
| `WebPage.TrimIsSlice` | apps/web/app/page.tsx:36 | trim keeps the slice between the leading and the trailing whitespace: everything removed is whitespace, and the result has no whitespace at either end |
| `WebPage.BlankIffAllWhitespace` | apps/web/app/page.tsx:40-43 | the trimmed input is empty iff every character is whitespace |
| `WebPage.TrimIdempotent` | apps/web/app/page.tsx:36 | trimming twice is trimming once |
| `WebPage.ValidateRepo` | apps/web/app/page.tsx:34-37 | the pattern test on the trimmed input; specified by `ValidateRepoIff` and `ValidRepoHasOneSlash` |
| `WebPage.ValidateRepoIff` | apps/web/app/page.tsx:34-37 | validateRepo holds iff the trimmed input is a non-empty run of `[a-zA-Z0-9._-]`, one '/', and another such run, with nothing else |
| `WebPage.ValidRepoHasOneSlash` | apps/web/app/page.tsx:34-48 | a valid input has exactly one '/' after trimming and is never blank |
| `WebPage.Home.constructor` | apps/web/app/page.tsx:29-32 | the initial state: empty repo, not loading, no error, no results |
| `WebPage.Home.SetRepo` | apps/web/app/page.tsx:125 | the input field stores the typed text and changes nothing else |
| `WebPage.Home.Begin` | apps/web/app/page.tsx:40-52 | blank input sets "Please enter a GitHub repository"; non-blank invalid input sets the format message. In both cases nothing is sent and loading and results are untouched. A valid input sets loading, clears the error, empties the results and yields the request `{tool: "summarizeIssues", repo: trim(input)}` |
| `WebPage.Home.Settle` | apps/web/app/page.tsx:54-87 | loading ends false. A network failure, non-ok status or unreadable body sets the fixed connection message and keeps the results. Success with data stores the data, and sets "No issues found for this repository" if it is empty. Otherwise the server's non-empty error text or "Failed to fetch issue summaries" is set |
| `WebPage.Home.SummarizeIssues` | apps/web/app/page.tsx:39-88 | a request is sent iff validateRepo holds, and it carries the trimmed name. A failed check changes only the error. After a request, loading is false; results stay empty on every path except success with data; the error is as in Settle, starting from a cleared error |
| `WebPage.ShownLabels` | apps/web/app/page.tsx:209-214 | at most the first two labels are shown, as a prefix of the list; none when labels are absent |
| `WebPage.MoreBadge` | apps/web/app/page.tsx:215-219 | the "+n more" badge is present iff there are more than two labels, and then n > 0 |
| `WebPage.LabelsAccountedFor` | apps/web/app/page.tsx:209-219 | shown labels plus the badge count equal the number of labels, and without a badge every label is shown |
| `WebBackend.ToExecuteBody` | apps/web/app/page.tsx:60-65 | the page's posted body as the dispatcher reads it: no id, the tool name, and parameters holding only `repo`; specified by `PageRequestMissesUrl` |
| `WebBackend.PageRequestMissesUrl` | apps/web/app/page.tsx:60-65 | every request the page sends, read by the dispatcher, gives the envelope error "URL parameter is required for summarizeIssues" with id 1 and no handler call |

## Left out

- The GitHub listing, the chat-completion call and the page's `fetch` are
  function parameters returning a value or an error message. URLs, headers,
  the model name `gpt-4o`, the message role and the client set-up from
  environment variables are not modelled.
- The dispatcher's two handlers are left abstract. The source's controller
  calls `summarizeIssues({url})` and `fetchRepoCode`, which do not match the
  service (which takes a string and has no `fetchRepoCode`).
- `McpService.AwaitAll`: when several summarizations fail, the model
  reports the first failure in list order. `Promise.all` rejects with the
  failure that happens first in time, which depends on timing.
- Concurrency: the requests are started in list order and their outcomes
  are combined afterwards; interleaving and timing are not modelled. That
  every listed issue gets one model call, even when another fails, is
  derived from the mapping (`SummarizeIssues`, `OnlyRecordedPromptsMatter`).
- `McpService.SummarizeIssues`: the chat-completion call is a function of
  the prompt, so two issues with the same prompt get the same outcome. The
  real service is not deterministic and promises no such thing.
- A `choices` array without a first element makes the source throw a
  TypeError inside the map. This is covered as a failure of the summarizer
  parameter; a null message content is kept as a null summary.
- `McpController.RequestId`: NaN ids (also falsy in JavaScript) are not
  modelled; ids are integers or absent.
- The HTTP success status of a reply (the framework's default for POST) is
  not modelled, only that the reply is not an HTTP error.
- `WebPage.Home`: React batches the state updates. The model applies them in
  order, and the final state is the same. `handleSubmit`, the disabled
  button, `console.error` and all other markup, including the item-count
  pluralisation, are not modelled.
- `WebPage.Home.Settle`: the page model follows the response type the page
  declares (`error` as an optional string). The controller's envelope carries
  `error` as an object with `code` and `message`, which `data.error || …`
  would store as is; that reply is not representable in `FetchResult`, and
  `WebBackend` stops at the dispatcher's envelope.
- `WebPage.MoreBadge` gives the badge's number, not its text `+n more`.
- The regular-expression engine itself is not modelled. `ValidateRepo` is an
  explicit greedy matcher, proved equal to the pattern's language.
- URL-based issue and pull-request summarization, image extraction, archive
  download and decoding, the size ceiling and the repository cache are not
  part of this model: no code for them is among the files modelled.
- Process bootstrap, module wiring, CORS and the global route prefix
  (`main.ts`, `app.module.ts`, `layout.tsx`) have no logic to verify.
