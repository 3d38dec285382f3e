/** GET /api/workflows/github: list the template workflow files of the GitHub
    repository the server is configured with. No sign-in is needed. */
module GitHubRoute {
  import opened Common
  import opened Text
  import opened Remote

  /** One entry of a GitHub contents listing; `kind` is the entry's `type`. */
  datatype GitHubEntry = GitHubEntry(name: string, kind: string, download_url: Option<string>, path: string, sha: string)

  /** The parsed listing: an array of entries, or some other JSON value. */
  datatype GitHubListing = Entries(entries: seq<GitHubEntry>) | NotAnArray

  datatype GitHubBody = GitHubError(error: string) | Workflows(workflows: seq<GitHubEntry>)

  const NotConfiguredMessage := "GitHub repository URL not configured"
  const FetchFailedMessage := "Failed to fetch workflows from GitHub"

  /** A downloadable `.json` file. */
  predicate IsWorkflowFile(e: GitHubEntry)
    ensures IsWorkflowFile(e) <==>
      && |e.name| >= 5 && e.name[|e.name| - 5..] == ".json"
      && e.kind == "file" && e.download_url.Some? && e.download_url.value != ""
  {
    EndsWith(e.name, ".json") && e.kind == "file" && Present(e.download_url)
  }

  /** The request headers: Accept and User-Agent always, a bearer token only when
      one is configured. */
  function GitHubHeaders(token: Option<string>): (h: map<string, string>)
    ensures "Accept" in h && h["Accept"] == "application/vnd.github.v3+json"
    ensures "User-Agent" in h && h["User-Agent"] == "N8N-Workflow-Manager"
    ensures "Authorization" in h <==> Present(token)
    ensures Present(token) ==> h["Authorization"] == "Bearer " + token.value
    ensures h.Keys <= {"Accept", "User-Agent", "Authorization"}
  {
    var base := map["Accept" := "application/vnd.github.v3+json", "User-Agent" := "N8N-Workflow-Manager"];
    if Present(token) then base["Authorization" := "Bearer " + token.value] else base
  }

  /** The workflow files of a listing, in listing order. */
  function WorkflowFiles(listing: GitHubListing): (r: seq<GitHubEntry>)
    ensures listing.NotAnArray? ==> r == []
    ensures listing.Entries? ==> IsSubsequence(r, listing.entries)
    ensures listing.Entries? ==> forall e :: e in r <==> e in listing.entries && IsWorkflowFile(e)
    ensures listing.Entries? ==>
      forall e :: multiset(r)[e] == if IsWorkflowFile(e) then multiset(listing.entries)[e] else 0
  {
    match listing
    case NotAnArray => []
    case Entries(entries) =>
      FilterIsSubsequence(entries, IsWorkflowFile);
      FilterMultiset(entries, IsWorkflowFile);
      Filter(entries, IsWorkflowFile)
  }

  /** The handler. `repoUrl` and `token` are the server's environment; `outcome`
      is what the listing request would return, consulted only when it is sent. */
  function ListTemplates(repoUrl: Option<string>, token: Option<string>, outcome: FetchOutcome<GitHubListing>)
    : (x: Exchange<GitHubBody>)
    ensures !Present(repoUrl) ==> x == Exchange(Response(500, GitHubError(NotConfiguredMessage)), [])
    ensures Present(repoUrl) ==> x.sent == [Call("GET", repoUrl.value, GitHubHeaders(token), None)]
    ensures x.response.status == 200 <==> Present(repoUrl) && outcome.Ok?
    ensures x.response.status != 200 ==> x.response.status == 500 && x.response.body.GitHubError?
    ensures Present(repoUrl) && !outcome.Ok? ==> x.response.body == GitHubError(FetchFailedMessage)
    ensures x.response.status == 200 ==> x.response.body == Workflows(WorkflowFiles(outcome.body))
  {
    if !Present(repoUrl) then Exchange(Response(500, GitHubError(NotConfiguredMessage)), [])
    else
      var sent := [Call("GET", repoUrl.value, GitHubHeaders(token), None)];
      match outcome
      case Ok(listing) => Exchange(Response(200, Workflows(WorkflowFiles(listing))), sent)
      case _ => Exchange(Response(500, GitHubError(FetchFailedMessage)), sent)
  }
}
