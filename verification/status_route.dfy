/** GET /api/n8n-status: whether the caller's engine answers. After sign-in the
    answer is always status 200, with `isConnected` carrying the verdict. */
module StatusRoute {
  import opened Common
  import opened Text
  import opened Remote

  /** The text beside `isConnected`: a `message`, or an `error` when unauthorised. */
  datatype Note = Message(text: string) | ErrorNote(text: string)

  datatype StatusBody = StatusBody(isConnected: bool, note: Note)

  const CannotConnectMessage := "Cannot connect to N8N host. Check your URL and network connectivity."

  /** The handler. `outcome` is what the listing request would return; it is
      consulted only when the request is sent. */
  function GetStatus(session: Option<UserId>, q: SettingsQuery, outcome: FetchOutcome<WorkflowList>)
    : (x: Exchange<StatusBody>)
    ensures x.response.body.isConnected <==> session.Some? && Configured(q) && outcome.Ok?
    ensures x.response.status == if session.None? then 401 else 200
    ensures session.None? ==> x.response.body == StatusBody(false, ErrorNote("Unauthorized"))
    ensures x.sent == if session.Some? && Configured(q)
      then [ListWorkflowsCall(q.n8n_host.value, q.n8n_api_token.value)] else []
    ensures session.Some? && !Configured(q) ==>
      x.response.body == StatusBody(false, Message("N8N settings not configured"))
    ensures session.Some? && Configured(q) && outcome.HttpError? ==>
      x.response.body.note == Message("N8N API error: " + StatusLine(outcome.status, outcome.statusText))
    ensures session.Some? && Configured(q) && outcome.NetworkError? ==>
      x.response.body.note == Message(CannotConnectMessage)
  {
    if session.None? then Exchange(Response(401, StatusBody(false, ErrorNote("Unauthorized"))), [])
    else if !Configured(q) then
      Exchange(Response(200, StatusBody(false, Message("N8N settings not configured"))), [])
    else
      var sent := [ListWorkflowsCall(q.n8n_host.value, q.n8n_api_token.value)];
      match outcome
      case Ok(_) => Exchange(Response(200, StatusBody(true, Message("Connection successful"))), sent)
      case HttpError(status, statusText, _) =>
        Exchange(Response(200, StatusBody(false, Message("N8N API error: " + StatusLine(status, statusText)))), sent)
      case NetworkError(_) => Exchange(Response(200, StatusBody(false, Message(CannotConnectMessage))), sent)
      case OtherError(message) => Exchange(Response(200, StatusBody(false, Message(message))), sent)
  }
}
