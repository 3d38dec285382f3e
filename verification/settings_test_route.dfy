/** POST /api/settings/test: try a host and token by listing the engine's
    workflows, and report the outcome in words. */
module SettingsTestRoute {
  import opened Common
  import opened Text
  import opened Remote

  datatype TestBody = TestError(error: string) | Connected(message: string, workflowCount: nat)

  const RequiredMessage := "N8N host and API token are required"
  const InvalidTokenMessage := "Invalid API token"
  const EndpointNotFoundMessage := "N8N API endpoint not found. Check your host URL."
  const CannotConnectMessage := "Cannot connect to N8N host. Check your URL and network connectivity."

  /** The message for a non-2xx answer: 401 and 404 get their own wording, any
      other status is reported with its number and status text. */
  function UpstreamErrorMessage(status: nat, statusText: string): (msg: string)
    ensures status == 401 ==> msg == InvalidTokenMessage
    ensures status == 404 ==> msg == EndpointNotFoundMessage
    ensures status != 401 && status != 404 ==>
      StartsWith(msg, "N8N API error: ") && EndsWith(msg, statusText)
      && msg == "N8N API error: " + StatusLine(status, statusText)
  {
    if status == 401 then InvalidTokenMessage
    else if status == 404 then EndpointNotFoundMessage
    else
      var msg := "N8N API error: " + StatusLine(status, statusText);
      assert msg[..15] == "N8N API error: ";
      assert msg[|msg| - |statusText|..] == StatusLine(status, statusText)[|StatusLine(status, statusText)| - |statusText|..];
      msg
  }

  /** The handler. `outcome` is what the listing request would return; it is
      consulted only when the request is sent. Every failure, unreachable host
      included, is answered with 400. */
  function TestConnection(session: Option<UserId>, host: Option<string>, token: Option<string>,
                          outcome: FetchOutcome<WorkflowList>): (x: Exchange<TestBody>)
    ensures session.None? ==> x == Exchange(Response(401, TestError("Unauthorized")), [])
    ensures session.Some? && !(Present(host) && Present(token)) ==>
      x == Exchange(Response(400, TestError(RequiredMessage)), [])
    ensures session.Some? && Present(host) && Present(token) ==>
      x.sent == [ListWorkflowsCall(host.value, token.value)]
    ensures x.response.status == 200 || x.response.status == 400 || x.response.status == 401
    ensures x.response.status == 401 <==> session.None?
    ensures session.Some? && !(Present(host) && Present(token) && outcome.Ok?) ==> x.response.status == 400
    ensures x.response.status == 200 <==> session.Some? && Present(host) && Present(token) && outcome.Ok?
    ensures x.response.status == 200 ==>
      x.response.body == Connected("Connection successful", |ListedWorkflows(outcome.body)|)
    ensures session.Some? && Present(host) && Present(token) ==>
      (outcome.HttpError? ==> x.response.body == TestError(UpstreamErrorMessage(outcome.status, outcome.statusText)))
      && (outcome.NetworkError? ==> x.response.body == TestError(CannotConnectMessage))
      && (outcome.OtherError? ==> x.response.body == TestError(outcome.message))
  {
    if session.None? then Exchange(Response(401, TestError("Unauthorized")), [])
    else if !(Present(host) && Present(token)) then Exchange(Response(400, TestError(RequiredMessage)), [])
    else
      var sent := [ListWorkflowsCall(host.value, token.value)];
      match outcome
      case Ok(body) => Exchange(Response(200, Connected("Connection successful", |ListedWorkflows(body)|)), sent)
      case HttpError(status, statusText, _) =>
        Exchange(Response(400, TestError(UpstreamErrorMessage(status, statusText))), sent)
      case NetworkError(_) => Exchange(Response(400, TestError(CannotConnectMessage)), sent)
      case OtherError(message) => Exchange(Response(400, TestError(message)), sent)
  }
}
