/** What the route handlers exchange with the outside: the stored settings row as
    a query returns it, the outcome of an outgoing HTTP call, the calls
    themselves, and the automation engine's REST conventions. */
module Remote {
  import opened Common
  import opened Text

  /** The outcome of one `fetch`: a 2xx response with its parsed body, a non-2xx
      response with its status line and text, the TypeError the platform raises
      when the host cannot be reached (its message mentions "fetch"), or any other
      error thrown on the way (a timeout, a body that is not JSON, ...). */
  datatype FetchOutcome<+B> =
    | Ok(body: B)
    | HttpError(status: nat, statusText: string, text: string)
    | NetworkError(message: string)
    | OtherError(message: string)

  /** `single()` on `user_settings` selecting `n8n_host, n8n_api_token`: the row's
      two columns, or the error the query reports. */
  datatype SettingsQuery =
    | Found(n8n_host: Option<string>, n8n_api_token: Option<string>)
    | QueryFailed(code: string, message: string)

  /** The error code the query reports when the user has no row. */
  const NotFoundCode := "PGRST116"

  /** `!settingsError && settings.n8n_host && settings.n8n_api_token`. */
  predicate Configured(q: SettingsQuery)
    ensures Configured(q) <==>
      q.Found? && q.n8n_host.Some? && q.n8n_host.value != "" && q.n8n_api_token.Some? && q.n8n_api_token.value != ""
  {
    q.Found? && Present(q.n8n_host) && Present(q.n8n_api_token)
  }

  /** The body `POST /api/v1/workflows` is sent to create a workflow. `None`
      stands for a field that is undefined and so left out of the JSON. */
  datatype InstallPayload = InstallPayload(
    name: Json,
    nodes: Option<Json>,
    connections: Option<Json>,
    active: bool,
    settings: Option<Json>,
    staticData: Option<Json>,
    tags: Option<Json>)

  /** One outgoing request. */
  datatype Call = Call(verb: string, url: string, headers: map<string, string>, payload: Option<InstallPayload>)

  /** A handler's answer together with the requests it sent, in order. */
  datatype Exchange<+B> = Exchange(response: Response<B>, sent: seq<Call>)

  const WorkflowsPath := "/api/v1/workflows"

  /** `${host.replace(/\/$/, '')}/api/v1/workflows`: at most one trailing '/' of
      the host is dropped before the path is appended. */
  function WorkflowsUrl(host: string): (url: string)
    ensures EndsWith(url, WorkflowsPath)
    ensures var base := url[..|url| - |WorkflowsPath|];
      (EndsWith(host, "/") ==> base + "/" == host) && (!EndsWith(host, "/") ==> base == host)
  {
    var url := StripTrailingSlash(host) + WorkflowsPath;
    assert url[..|url| - |WorkflowsPath|] == StripTrailingSlash(host);
    url
  }

  /** The headers of every call to the engine: the API key and the JSON content type. */
  function ApiHeaders(token: string): (h: map<string, string>)
    ensures h.Keys == {"X-N8N-API-KEY", "Content-Type"}
    ensures h["X-N8N-API-KEY"] == token && h["Content-Type"] == "application/json"
  {
    map["X-N8N-API-KEY" := token, "Content-Type" := "application/json"]
  }

  /** The request that lists the engine's workflows. */
  function ListWorkflowsCall(host: string, token: string): (c: Call)
    ensures c.verb == "GET" && c.url == WorkflowsUrl(host) && EndsWith(c.url, WorkflowsPath)
    ensures c.headers == ApiHeaders(token) && c.payload.None?
  {
    Call("GET", WorkflowsUrl(host), ApiHeaders(token), None)
  }

  /** The parsed body of `GET /api/v1/workflows`: its `data` array, if any. */
  datatype WorkflowList = WorkflowList(data: Option<seq<Json>>)

  /** `body.data || []`. */
  function ListedWorkflows(body: WorkflowList): (ws: seq<Json>)
    ensures body.data.Some? ==> ws == body.data.value
    ensures body.data.None? ==> ws == []
  {
    match body.data
    case Some(ws) => ws
    case None => []
  }

  /** The message of the `Error` the routes throw for a non-2xx status. */
  function StatusLine(status: nat, statusText: string): (line: string)
    ensures StartsWith(line, Decimal(status))
    ensures EndsWith(line, statusText)
    ensures |line| == |Decimal(status)| + 1 + |statusText| && line[|Decimal(status)|] == ' '
  {
    var line := Decimal(status) + " " + statusText;
    assert line[..|Decimal(status)|] == Decimal(status);
    assert line[|line| - |statusText|..] == statusText;
    line
  }
}
