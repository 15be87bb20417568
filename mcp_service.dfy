/** Repository-wide issue summarization: split "owner/repo", list the
    repository's issues, ask the language model for a summary of each, and
    return one `{id, summary}` record per issue, in order.

    The GitHub listing and the chat-completion call are parameters: each is a
    total function returning a value or the message of the error it throws. */
module McpService {
  import opened JsValues

  datatype Result<T> = Ok(value: T) | Err(message: string)

  /** An issue as listed by GitHub; its body may be null. */
  datatype Issue = Issue(number: int, title: string, body: Option<string>)

  /** One entry of the result; the model's message content may be null. */
  datatype IssueSummary = IssueSummary(id: int, summary: Option<string>)

  /** Owner and repository name as destructured from `repo.split('/')`;
      a missing second segment is `undefined`. */
  datatype RepoRef = RepoRef(owner: string, name: Option<string>)

  const Separator: char := '/'
  const PromptPrefix: string := "Summarize this in 50 words: "
  const ErrorPrefix: string := "Failed to summarize issues: "

  // ---------------------------------------------------------------------
  // String.prototype.split and its inverse
  // ---------------------------------------------------------------------

  /** `parts.join(sep)`: the inverse of Split. */
  function Join(parts: seq<string>, sep: char): string {
    if parts == [] then ""
    else if |parts| == 1 then parts[0]
    else parts[0] + [sep] + Join(parts[1..], sep)
  }

  /** `s.split(sep)` for a one-character separator: the maximal runs between
      separators, so never an empty list and never a separator inside a part. */
  function Split(s: string, sep: char): (parts: seq<string>)
    ensures |parts| >= 1
    ensures forall i :: 0 <= i < |parts| ==> sep !in parts[i]
    ensures |parts| == 1 <==> sep !in s
  {
    if s == [] then [""]
    else
      var rest := Split(s[1..], sep);
      if s[0] == sep then
        [""] + rest
      else
        [[s[0]] + rest[0]] + rest[1..]
  }

  /** One round trip: joining the parts of a split gives the text back. */
  lemma {:induction false} JoinSplit(s: string, sep: char)
    ensures Join(Split(s, sep), sep) == s
  {
    if s != [] {
      var rest := Split(s[1..], sep);
      JoinSplit(s[1..], sep);
      if s[0] == sep {
        assert Split(s, sep) == [""] + rest;
        assert ([""] + rest)[1..] == rest;
        assert s == [sep] + s[1..];
      } else {
        JoinHead(s[0], rest, sep);
        assert s == [s[0]] + s[1..];
      }
    }
  }

  /** Prepending a character to the first part prepends it to the join. */
  lemma {:induction false} JoinHead(c: char, parts: seq<string>, sep: char)
    requires |parts| >= 1
    ensures Join([[c] + parts[0]] + parts[1..], sep) == [c] + Join(parts, sep)
  {
  }

  /** Splitting a part followed by more text extends the first part. */
  lemma {:induction false} SplitPrefix(x: string, t: string, sep: char)
    requires sep !in x
    ensures Split(x + t, sep) == [x + Split(t, sep)[0]] + Split(t, sep)[1..]
  {
    if x != [] {
      var p := Split(t, sep);
      assert (x + t)[0] == x[0] && (x + t)[1..] == x[1..] + t;
      SplitPrefix(x[1..], t, sep);
      var rest := Split(x[1..] + t, sep);
      assert rest[0] == x[1..] + p[0] && rest[1..] == p[1..];
      assert Split(x + t, sep) == [[x[0]] + rest[0]] + rest[1..];
      assert [x[0]] + (x[1..] + p[0]) == x + p[0];
    } else {
      var parts := Split(t, sep);
      assert x + t == t && x + parts[0] == parts[0];
      assert [parts[0]] + parts[1..] == parts;
    }
  }

  /** The other round trip: joining separator-free parts and splitting again
      gives the parts back. */
  lemma {:induction false} SplitJoin(parts: seq<string>, sep: char)
    requires |parts| >= 1
    requires forall i :: 0 <= i < |parts| ==> sep !in parts[i]
    ensures Split(Join(parts, sep), sep) == parts
  {
    if |parts| == 1 {
      SplitPrefix(parts[0], "", sep);
      assert parts[0] + "" == parts[0];
    } else {
      var tail := Join(parts[1..], sep);
      SplitJoin(parts[1..], sep);
      SplitPrefix(parts[0], [sep] + tail, sep);
      assert parts[0] + [sep] + tail == parts[0] + ([sep] + tail);
      assert ([sep] + tail)[1..] == tail;
      assert Split([sep] + tail, sep) == [""] + parts[1..];
      assert parts[0] + "" == parts[0];
      assert [parts[0]] + parts[1..] == parts;
    }
  }

  /** `const [owner, repoName] = repo.split('/')`. */
  function RepoPath(repo: string): (r: RepoRef)
    // without a '/', the whole text is the owner and the name is undefined
    ensures r.name.None? <==> Separator !in repo
    ensures r.name.None? ==> r.owner == repo
    // otherwise the owner is the text before the first '/', the name the text
    // up to the second '/' or the end; anything after that is ignored
    ensures r.name.Some? ==>
              var n := |r.owner|;
              var m := n + 1 + |r.name.value|;
              && Separator !in r.owner && Separator !in r.name.value
              && m <= |repo| && repo[..n] == r.owner && repo[n] == Separator
              && repo[n + 1..m] == r.name.value
              && (m == |repo| || repo[m] == Separator)
  {
    var parts := Split(repo, Separator);
    if |parts| == 1 then
      JoinSplit(repo, Separator);
      RepoRef(parts[0], None)
    else
      JoinSplit(repo, Separator);
      SplitLayout(parts, Separator);
      RepoRef(parts[0], Some(parts[1]))
  }

  /** Where the first two parts sit in the joined text. */
  lemma SplitLayout(parts: seq<string>, sep: char)
    requires |parts| >= 2
    ensures var s := Join(parts, sep);
            var n := |parts[0]|;
            var m := n + 1 + |parts[1]|;
            && m <= |s| && s[..n] == parts[0] && s[n] == sep && s[n + 1..m] == parts[1]
            && (m == |s| || s[m] == sep)
  {
  }

  // ---------------------------------------------------------------------
  // The per-issue map
  // ---------------------------------------------------------------------

  /** `${x}` for a string that may be null. */
  function Interpolate(s: Option<string>): string {
    match s
    case Some(v) => v
    case None => "null"
  }

  /** The chat message sent for one issue. */
  function Prompt(issue: Issue): string {
    PromptPrefix + issue.title + "\n" + Interpolate(issue.body)
  }

  /** In `t + "\n" + r` with a line-break-free `t`, the first line break is at `|t|`. */
  lemma FirstLineBreak(t: string, r: string)
    requires '\n' !in t
    ensures (t + "\n" + r)[|t|] == '\n'
    ensures forall k :: 0 <= k < |t| ==> (t + "\n" + r)[k] != '\n'
  {
  }

  /** The prompt loses nothing: for titles without a line break, title and
      body text can be read back from it. */
  lemma PromptInjective(a: Issue, b: Issue)
    requires '\n' !in a.title && '\n' !in b.title
    requires Prompt(a) == Prompt(b)
    ensures a.title == b.title && Interpolate(a.body) == Interpolate(b.body)
  {
    var x := a.title + "\n" + Interpolate(a.body);
    var y := b.title + "\n" + Interpolate(b.body);
    assert Prompt(a) == PromptPrefix + x && Prompt(b) == PromptPrefix + y;
    assert x == Prompt(a)[|PromptPrefix|..] == y;
    FirstLineBreak(a.title, Interpolate(a.body));
    FirstLineBreak(b.title, Interpolate(b.body));
    assert x[|b.title|] == '\n' && y[|a.title|] == '\n';
    assert |a.title| == |b.title|;
    assert a.title == x[..|a.title|] && b.title == y[..|b.title|];
    assert Interpolate(a.body) == x[|a.title| + 1..] && Interpolate(b.body) == y[|b.title| + 1..];
  }

  /** One mapped call of `issues.map(async issue => ...)`: the issue's number,
      the prompt sent to the model, and how that request settled. */
  datatype Pending = Pending(id: int, prompt: string, outcome: Result<Option<string>>)

  /** `issues.map(...)`: the mapping starts one request per issue, in list
      order, before any of them settles. */
  function StartAll(issues: seq<Issue>, summarize: string -> Result<Option<string>>): seq<Pending>
  {
    seq(|issues|, i requires 0 <= i < |issues| =>
      Pending(issues[i].number, Prompt(issues[i]), summarize(Prompt(issues[i]))))
  }

  /** `Promise.all` over the started requests: every value in order, or the
      first rejection in list order. */
  function AwaitAll(pending: seq<Pending>): (r: Result<seq<IssueSummary>>)
    ensures r.Ok? <==> forall i :: 0 <= i < |pending| ==> pending[i].outcome.Ok?
    ensures r.Ok? ==>
              && |r.value| == |pending|
              && forall i :: 0 <= i < |pending| ==>
                   r.value[i] == IssueSummary(pending[i].id, pending[i].outcome.value)
    ensures r.Err? ==>
              exists i :: 0 <= i < |pending| && pending[i].outcome == Err(r.message)
                          && forall j :: 0 <= j < i ==> pending[j].outcome.Ok?
  {
    if pending == [] then Ok([])
    else
      match pending[0].outcome
      case Err(m) => Err(m)
      case Ok(s) =>
        match AwaitAll(pending[1..])
        case Err(m) =>
          assert forall i :: 1 <= i < |pending| ==> pending[1..][i - 1] == pending[i];
          Err(m)
        case Ok(rest) => Ok([IssueSummary(pending[0].id, s)] + rest)
  }

  /** The issue listing for the repository's owner and name. */
  function ListFor(repo: string, listIssues: (string, Option<string>) -> Result<seq<Issue>>)
    : Result<seq<Issue>>
  {
    var r := RepoPath(repo);
    listIssues(r.owner, r.name)
  }

  /** What one `summarizeIssues` call returns, together with the prompts it
      sent to the language model, in the order the requests were started. */
  datatype Summarization = Summarization(result: Result<seq<IssueSummary>>, prompts: seq<string>)

  /** `summarizeIssues(repo)`: every failure, of the listing or of any single
      summarization, fails the whole call with the fixed prefix. */
  function SummarizeIssues(repo: string, listIssues: (string, Option<string>) -> Result<seq<Issue>>,
                           summarize: string -> Result<Option<string>>)
    : (r: Summarization)
    ensures ListFor(repo, listIssues).Err? ==>
              && r.result == Err(ErrorPrefix + ListFor(repo, listIssues).message)
              && r.prompts == []
    ensures ListFor(repo, listIssues).Ok? ==>
              var issues := ListFor(repo, listIssues).value;
              && |r.prompts| == |issues|
              && (forall i :: 0 <= i < |issues| ==> r.prompts[i] == Prompt(issues[i]))
              && (r.result.Ok? <==> forall i :: 0 <= i < |issues| ==> summarize(Prompt(issues[i])).Ok?)
              && (r.result.Ok? ==>
                    && |r.result.value| == |issues|
                    && forall i :: 0 <= i < |issues| ==>
                         && r.result.value[i].id == issues[i].number
                         && Ok(r.result.value[i].summary) == summarize(Prompt(issues[i])))
              && (r.result.Err? ==>
                    exists i :: && 0 <= i < |issues|
                                && summarize(Prompt(issues[i])).Err?
                                && r.result.message == ErrorPrefix + summarize(Prompt(issues[i])).message
                                && forall j :: 0 <= j < i ==> summarize(Prompt(issues[j])).Ok?)
  {
    match ListFor(repo, listIssues)
    case Err(m) => Summarization(Err(ErrorPrefix + m), [])
    case Ok(issues) =>
      var pending := StartAll(issues, summarize);
      var prompts := seq(|pending|, i requires 0 <= i < |pending| => pending[i].prompt);
      match AwaitAll(pending)
      case Err(m) => Summarization(Err(ErrorPrefix + m), prompts)
      case Ok(summaries) => Summarization(Ok(summaries), prompts)
  }

  /** The model is consulted only on the prompts the call records: two models
      that agree on those prompts give the same outcome. */
  lemma OnlyRecordedPromptsMatter(repo: string, listIssues: (string, Option<string>) -> Result<seq<Issue>>,
                                  s1: string -> Result<Option<string>>, s2: string -> Result<Option<string>>)
    requires forall p :: p in SummarizeIssues(repo, listIssues, s1).prompts ==> s1(p) == s2(p)
    ensures SummarizeIssues(repo, listIssues, s2) == SummarizeIssues(repo, listIssues, s1)
  {
    if ListFor(repo, listIssues).Ok? {
      var issues := ListFor(repo, listIssues).value;
      var prompts := SummarizeIssues(repo, listIssues, s1).prompts;
      forall i | 0 <= i < |issues|
        ensures s1(Prompt(issues[i])) == s2(Prompt(issues[i]))
      {
        assert prompts[i] in prompts;
      }
      assert StartAll(issues, s1) == StartAll(issues, s2);
    }
  }

  /** An empty listing gives an empty result and no call to the model. */
  lemma NoIssuesNoSummaries(repo: string, listIssues: (string, Option<string>) -> Result<seq<Issue>>,
                            summarize: string -> Result<Option<string>>)
    requires ListFor(repo, listIssues) == Ok([])
    ensures SummarizeIssues(repo, listIssues, summarize) == Summarization(Ok([]), [])
  {
  }

  /** Every error the call reports carries the fixed prefix. */
  lemma ErrorsArePrefixed(repo: string, listIssues: (string, Option<string>) -> Result<seq<Issue>>,
                          summarize: string -> Result<Option<string>>)
    requires SummarizeIssues(repo, listIssues, summarize).result.Err?
    ensures var m := SummarizeIssues(repo, listIssues, summarize).result.message;
            |ErrorPrefix| <= |m| && m[..|ErrorPrefix|] == ErrorPrefix
  {
  }
}
