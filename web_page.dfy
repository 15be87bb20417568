/** The summarizer web page: the repository-name check, the request flow of
    the "Summarize Issues" button over the component state, and the rule for
    how many labels an issue card shows. */
module WebPage {
  import opened JsValues

  const BlankMessage: string := "Please enter a GitHub repository"
  const FormatMessage: string := "Please enter a valid repository format (e.g., \"vercel/next.js\")"
  const NoIssuesMessage: string := "No issues found for this repository"
  const FetchFailedMessage: string := "Failed to fetch issue summaries"
  const ConnectMessage: string :=
    "Failed to connect to the server. Please make sure the backend is running on http://localhost:3001"
  const ShownLabelLimit: nat := 2

  // ---------------------------------------------------------------------
  // String.prototype.trim
  // ---------------------------------------------------------------------

  /** What `trim` removes: the ECMAScript WhiteSpace code points (tab, vertical
      tab, form feed, byte-order mark and the space separators) and the
      LineTerminator code points. */
  predicate IsWhitespace(c: char) {
    || c == '\t' || c == '\U{B}' || c == '\U{C}' || c == '\U{FEFF}'
    || c == ' ' || c == '\U{A0}' || c == '\U{1680}' || ('\U{2000}' <= c <= '\U{200A}')
    || c == '\U{202F}' || c == '\U{205F}' || c == '\U{3000}'
    || c == '\n' || c == '\r' || c == '\U{2028}' || c == '\U{2029}'
  }

  /** The first index at or after `i` that is not whitespace (or the end). */
  function SkipLeading(s: string, i: nat): (r: nat)
    requires i <= |s|
    ensures i <= r <= |s|
    ensures forall k :: i <= k < r ==> IsWhitespace(s[k])
    ensures r < |s| ==> !IsWhitespace(s[r])
    decreases |s| - i
  {
    if i < |s| && IsWhitespace(s[i]) then SkipLeading(s, i + 1) else i
  }

  /** The last index down from `j`, not below `lo`, that has no whitespace
      just before it. */
  function SkipTrailing(s: string, lo: nat, j: nat): (r: nat)
    requires lo <= j <= |s|
    ensures lo <= r <= j
    ensures forall k :: r <= k < j ==> IsWhitespace(s[k])
    ensures r > lo ==> !IsWhitespace(s[r - 1])
  {
    if j > lo && IsWhitespace(s[j - 1]) then SkipTrailing(s, lo, j - 1) else j
  }

  /** Where the trimmed text starts. */
  function TrimStart(s: string): nat {
    SkipLeading(s, 0)
  }

  /** Where the trimmed text ends. */
  function TrimEnd(s: string): nat
    requires TrimStart(s) <= |s|
  {
    SkipTrailing(s, TrimStart(s), |s|)
  }

  /** `s.trim()`: leading whitespace removed, then trailing whitespace. */
  function Trim(s: string): string {
    s[TrimStart(s)..TrimEnd(s)]
  }

  /** Trim keeps the slice between the leading and the trailing whitespace,
      removes only whitespace, and leaves none at either end. */
  lemma {:induction false} TrimIsSlice(s: string)
    ensures var i, j := TrimStart(s), TrimEnd(s);
            && i <= j <= |s| && Trim(s) == s[i..j]
            && (forall k :: 0 <= k < i ==> IsWhitespace(s[k]))
            && (forall k :: j <= k < |s| ==> IsWhitespace(s[k]))
            && (i < j ==> !IsWhitespace(s[i]) && !IsWhitespace(s[j - 1]))
  {
  }

  /** `!s.trim()`: the trimmed text is empty exactly when every character is whitespace. */
  lemma {:induction false} BlankIffAllWhitespace(s: string)
    ensures Trim(s) == "" <==> forall k :: 0 <= k < |s| ==> IsWhitespace(s[k])
  {
  }

  /** Trimming twice is trimming once. */
  lemma {:induction false} TrimIdempotent(s: string)
    ensures Trim(Trim(s)) == Trim(s)
  {
  }

  // ---------------------------------------------------------------------
  // validateRepo: /^[a-zA-Z0-9._-]+\/[a-zA-Z0-9._-]+$/ on the trimmed input
  // ---------------------------------------------------------------------

  predicate IsRepoChar(c: char) {
    ('a' <= c <= 'z') || ('A' <= c <= 'Z') || ('0' <= c <= '9') || c == '.' || c == '_' || c == '-'
  }

  /** A non-empty run of the character class `[a-zA-Z0-9._-]`. */
  predicate IsRun(s: string) {
    |s| > 0 && forall k :: 0 <= k < |s| ==> IsRepoChar(s[k])
  }

  /** Length of the longest prefix of class characters (the greedy `[...]+`). */
  function RunLength(s: string): (n: nat)
    ensures n <= |s|
    ensures forall k :: 0 <= k < n ==> IsRepoChar(s[k])
    ensures n < |s| ==> !IsRepoChar(s[n])
  {
    if s != [] && IsRepoChar(s[0]) then
      var n := RunLength(s[1..]);
      assert forall k :: 1 <= k < n + 1 ==> s[k] == s[1..][k - 1];
      n + 1
    else 0
  }

  /** The anchored pattern on an already trimmed text: a run, a '/', a run to the end. */
  predicate MatchesRepoPattern(t: string) {
    var n := RunLength(t);
    && 0 < n && n + 1 < |t| && t[n] == '/'
    && IsRun(t[n + 1..])
  }

  /** `validateRepo(input)`. */
  predicate ValidateRepo(input: string) {
    MatchesRepoPattern(Trim(input))
  }

  /** The language of the pattern: the trimmed input is a run, exactly one
      '/', and a run, with nothing else. */
  lemma {:induction false} ValidateRepoIff(input: string)
    ensures var t := Trim(input);
            ValidateRepo(input) <==>
              exists i :: 0 <= i < |t| && t[i] == '/' && IsRun(t[..i]) && IsRun(t[i + 1..])
  {
  }

  /** A valid name has exactly one '/', so an input that passes the format
      check is never blank. */
  lemma {:induction false} ValidRepoHasOneSlash(input: string)
    requires ValidateRepo(input)
    ensures var t := Trim(input);
            Trim(input) != "" && |set k | 0 <= k < |t| && t[k] == '/'| == 1
  {
    var t := Trim(input);
    var n := RunLength(t);
    var rest := t[n + 1..];
    assert forall k :: n < k < |t| ==> t[k] == rest[k - n - 1];
    assert (set k | 0 <= k < |t| && t[k] == '/') == {n};
  }

  // ---------------------------------------------------------------------
  // The request flow
  // ---------------------------------------------------------------------

  /** An issue card as the page receives it. */
  datatype IssueSummary = IssueSummary(id: int, title: string, summary: string, url: Option<string>,
                                       state: Option<string>, labels: Option<seq<string>>)

  /** The JSON the page expects back. */
  datatype ApiResponse = ApiResponse(success: bool, data: Option<seq<IssueSummary>>, error: Option<string>)

  /** The body the page posts: `{tool, parameters: {repo}}`. */
  datatype ExecuteRequest = ExecuteRequest(tool: string, repo: string)

  /** What `fetch` and `response.json()` produce. `NetworkFailure` is a
      rejected fetch; `json == None` is a body that does not parse, or that
      parses to `null`: reading `data.success` then throws. Any other body
      that is not an object (a number, string, boolean or array) has neither
      `success` nor `error` and is the value `ApiResponse(false, None, None)`. */
  datatype FetchResult =
    | NetworkFailure
    | HttpResponse(ok: bool, status: int, json: Option<ApiResponse>)

  /** The response reached the branching on `data`: no exception was thrown. */
  predicate Parsed(response: FetchResult) {
    response.HttpResponse? && response.ok && response.json.Some?
  }

  /** The state of the `Home` component. */
  class Home {
    var repo: string
    var loading: bool
    var error: Option<string>
    var results: seq<IssueSummary>

    constructor ()
      ensures repo == "" && !loading && error == None && results == []
    {
      repo := "";
      loading := false;
      error := None;
      results := [];
    }

    /** The input field's `onChange`. */
    method SetRepo(value: string)
      modifies this
      ensures repo == value
      ensures loading == old(loading) && error == old(error) && results == old(results)
    {
      repo := value;
    }

    /** The pre-checks and the reset before the request: returns the request
      to send, or None when a check failed. */
    method Begin() returns (request: Option<ExecuteRequest>)
      modifies this
      ensures repo == old(repo)
      ensures Trim(repo) == "" ==>
                request == None && error == Some(BlankMessage)
                && loading == old(loading) && results == old(results)
      ensures Trim(repo) != "" && !ValidateRepo(repo) ==>
                request == None && error == Some(FormatMessage)
                && loading == old(loading) && results == old(results)
      ensures ValidateRepo(repo) ==>
                request == Some(ExecuteRequest("summarizeIssues", Trim(repo)))
                && loading && error == None && results == []
    {
      if Trim(repo) == "" {
        error := Some(BlankMessage);
        return None;
      }
      if !ValidateRepo(repo) {
        error := Some(FormatMessage);
        return None;
      }
      loading := true;
      error := None;
      results := [];
      request := Some(ExecuteRequest("summarizeIssues", Trim(repo)));
    }

    /** The `try`/`catch`/`finally` around the response. */
    method Settle(response: FetchResult)
      modifies this
      ensures repo == old(repo) && !loading
      // any exception: the fixed connection message, never the status
      ensures !Parsed(response) ==> error == Some(ConnectMessage) && results == old(results)
      // success with data: show it, and say so when it is empty
      ensures Parsed(response) && response.json.value.success && response.json.value.data.Some? ==>
                var data := response.json.value.data.value;
                results == data && error == (if data == [] then Some(NoIssuesMessage) else old(error))
      // anything else: the server's error text if non-empty, else a fixed message
      ensures Parsed(response) && !(response.json.value.success && response.json.value.data.Some?) ==>
                results == old(results) && error == Some(OrElse(response.json.value.error, FetchFailedMessage))
    {
      if !Parsed(response) {
        error := Some(ConnectMessage);
      } else {
        var data := response.json.value;
        if data.success && data.data.Some? {
          results := data.data.value;
          if |data.data.value| == 0 {
            error := Some(NoIssuesMessage);
          }
        } else {
          error := Some(OrElse(data.error, FetchFailedMessage));
        }
      }
      loading := false;
    }

    /** `summarizeIssues`: the checks, then one request to `server` and the
      handling of its reply. Returns the request sent, if any. */
    method SummarizeIssues(server: ExecuteRequest -> FetchResult) returns (sent: Option<ExecuteRequest>)
      modifies this
      ensures repo == old(repo)
      ensures sent.Some? <==> ValidateRepo(repo)
      ensures sent.Some? ==> sent.value == ExecuteRequest("summarizeIssues", Trim(repo))
      // a failed check changes only the error
      ensures sent.None? ==>
                error == Some(if Trim(repo) == "" then BlankMessage else FormatMessage)
                && loading == old(loading) && results == old(results)
      // once a request was sent, loading always ends false
      ensures sent.Some? ==> !loading
      ensures sent.Some? ==>
                var response := server(sent.value);
                if !Parsed(response) then
                  error == Some(ConnectMessage) && results == []
                else if response.json.value.success && response.json.value.data.Some? then
                  var data := response.json.value.data.value;
                  results == data && error == (if data == [] then Some(NoIssuesMessage) else None)
                else
                  results == [] && error == Some(OrElse(response.json.value.error, FetchFailedMessage))
    {
      sent := Begin();
      if sent.Some? {
        Settle(server(sent.value));
      }
    }
  }

  // ---------------------------------------------------------------------
  // Label badges of an issue card
  // ---------------------------------------------------------------------

  /** `issue.labels.slice(0, 2)`, shown when `labels` is present. */
  function ShownLabels(labels: Option<seq<string>>): (shown: seq<string>)
    ensures |shown| <= ShownLabelLimit
    ensures labels.None? ==> shown == []
    ensures labels.Some? ==>
              && |shown| == (if |labels.value| < ShownLabelLimit then |labels.value| else ShownLabelLimit)
              && shown == labels.value[..|shown|]
  {
    match labels
    case None => []
    case Some(ls) => if |ls| <= ShownLabelLimit then ls else ls[..ShownLabelLimit]
  }

  /** The number on the "+n more" badge, present iff more than two labels. */
  function MoreBadge(labels: Option<seq<string>>): (more: Option<nat>)
    ensures more.Some? <==> labels.Some? && |labels.value| > ShownLabelLimit
    ensures more.Some? ==> more.value > 0
  {
    if labels.Some? && |labels.value| > ShownLabelLimit then Some(|labels.value| - ShownLabelLimit) else None
  }

  /** Every label is either shown or counted on the badge, and a label is
      shown only if the card has none hidden behind it. */
  lemma {:induction false} LabelsAccountedFor(labels: Option<seq<string>>)
    ensures var hidden := match MoreBadge(labels) case Some(n) => n case None => 0;
            |ShownLabels(labels)| + hidden == match labels case Some(ls) => |ls| case None => 0
    ensures labels.Some? && MoreBadge(labels).None? ==> ShownLabels(labels) == labels.value
  {
  }
}
