/** GET /api/n8n-stats: how many workflows the caller's engine holds and how
    many of them are active. A dashboard widget reads it, so every failure after
    sign-in degrades to zero counts with status 200. */
module StatsRoute {
  import opened Common
  import opened Text
  import opened Remote

  datatype StatsBody =
    | StatsError(error: string)
    | Stats(totalWorkflows: nat, activeWorkflows: nat, message: string)

  /** `wf.active` is truthy. */
  predicate IsActive(wf: Json)
    ensures IsActive(wf) <==> wf.JObject? && "active" in wf.fields && Truthy(wf.fields["active"])
  {
    match Field(wf, "active")
    case Some(flag) => Truthy(flag)
    case None => false
  }

  /** The positions of `ws` holding an active workflow. */
  function ActivePositions(ws: seq<Json>): set<int> {
    set i | 0 <= i < |ws| && IsActive(ws[i])
  }

  /** `workflows.filter(wf => wf.active).length`: the number of positions holding
      an active workflow, so never more than there are workflows. */
  function CountActive(ws: seq<Json>): (n: nat)
    ensures n == |ActivePositions(ws)|
    ensures n <= |ws|
    ensures n == 0 <==> forall i :: 0 <= i < |ws| ==> !IsActive(ws[i])
    ensures n == |ws| <==> forall i :: 0 <= i < |ws| ==> IsActive(ws[i])
  {
    FilterCount(ws, IsActive);
    FilterKeepsAllOrNone(ws, IsActive);
    assert ActivePositions(ws) == Positions(ws, IsActive);
    |Filter(ws, IsActive)|
  }

  const NotConfiguredMessage := "N8N settings not configured"

  /** The handler. `outcome` is what the listing request would return; it is
      consulted only when the request is sent. */
  function GetStats(session: Option<UserId>, q: SettingsQuery, outcome: FetchOutcome<WorkflowList>)
    : (x: Exchange<StatsBody>)
    ensures session.None? ==> x == Exchange(Response(401, StatsError("Unauthorized")), [])
    ensures session.Some? ==> x.response.status == 200 && x.response.body.Stats?
    ensures x.response.body.Stats? ==> x.response.body.activeWorkflows <= x.response.body.totalWorkflows
    ensures session.Some? && !Configured(q) ==>
      x == Exchange(Response(200, Stats(0, 0, NotConfiguredMessage)), [])
    ensures session.Some? && Configured(q) ==>
      x.sent == [ListWorkflowsCall(q.n8n_host.value, q.n8n_api_token.value)]
    ensures x.response.body.Stats? && !(Configured(q) && outcome.Ok?) ==>
      x.response.body.totalWorkflows == 0 && x.response.body.activeWorkflows == 0
    ensures session.Some? && Configured(q) && outcome.Ok? ==>
      var ws := ListedWorkflows(outcome.body);
      x.response.body.totalWorkflows == |ws| && x.response.body.activeWorkflows == CountActive(ws)
    ensures session.Some? && Configured(q) && outcome.HttpError? ==>
      x.response.body.message == "Failed to fetch N8N workflows: " + outcome.statusText
  {
    if session.None? then Exchange(Response(401, StatsError("Unauthorized")), [])
    else if !Configured(q) then Exchange(Response(200, Stats(0, 0, NotConfiguredMessage)), [])
    else
      var sent := [ListWorkflowsCall(q.n8n_host.value, q.n8n_api_token.value)];
      match outcome
      case Ok(body) =>
        var ws := ListedWorkflows(body);
        Exchange(Response(200, Stats(|ws|, CountActive(ws), "N8N stats fetched successfully")), sent)
      case HttpError(_, statusText, _) =>
        Exchange(Response(200, Stats(0, 0, "Failed to fetch N8N workflows: " + statusText)), sent)
      case NetworkError(_) =>
        Exchange(Response(200, Stats(0, 0, "Cannot connect to N8N host.")), sent)
      case OtherError(message) =>
        Exchange(Response(200, Stats(0, 0, message)), sent)
  }
}
