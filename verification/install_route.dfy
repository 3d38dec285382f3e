/** POST /api/workflows/install: download a template workflow and create it,
    switched off, on the caller's engine. */
module InstallRoute {
  import opened Common
  import opened Text
  import opened Remote

  /** The template file as downloaded; every field may be missing. */
  datatype TemplateWorkflow = TemplateWorkflow(
    id: Option<Json>,
    name: Option<Json>,
    nodes: Option<Json>,
    connections: Option<Json>,
    active: Option<Json>,
    settings: Option<Json>,
    staticData: Option<Json>,
    tags: Option<Json>,
    meta: Option<Json>,
    pinData: Option<Json>,
    versionId: Option<Json>)

  /** The parsed answer of the engine to the create request. */
  datatype CreateResult = CreateResult(data: Option<Json>)

  datatype InstallBody =
    | InstallError(error: string)
    | Installed(workflowId: Option<Json>, message: string)

  const RequiredMessage := "Workflow URL and name are required"
  const NotConfiguredMessage := "N8N configuration not found. Please configure your N8N settings first."
  const TemplateFetchMessage := "Failed to fetch workflow data"

  /** The create request's body: the template's own name when it has a truthy
      one, else the requested name; the template's graph, settings, static data
      and tags as they are; never active; and none of the template's id, meta,
      pinned data or version. */
  function CreatePayload(t: TemplateWorkflow, name: string): (p: InstallPayload)
    ensures !p.active
    ensures t.name.Some? && Truthy(t.name.value) ==> p.name == t.name.value
    ensures !(t.name.Some? && Truthy(t.name.value)) ==> p.name == JString(name)
    ensures p.nodes == t.nodes && p.connections == t.connections
    ensures p.settings == t.settings && p.staticData == t.staticData && p.tags == t.tags
  {
    var chosen := if t.name.Some? && Truthy(t.name.value) then t.name.value else JString(name);
    InstallPayload(chosen, t.nodes, t.connections, false, t.settings, t.staticData, t.tags)
  }

  /** The payload does not depend on the template's id, active flag, meta,
      pinned data or version id. */
  lemma PayloadIgnoresTemplateState(t: TemplateWorkflow, id: Option<Json>, active: Option<Json>,
                                    meta: Option<Json>, pinData: Option<Json>, versionId: Option<Json>,
                                    name: string)
    ensures CreatePayload(t.(id := id, active := active, meta := meta, pinData := pinData, versionId := versionId), name)
         == CreatePayload(t, name)
  {
  }

  /** The create request; unlike the listing requests, the host is used as
      stored, trailing '/' included. */
  function CreateCall(host: string, token: string, payload: InstallPayload): (c: Call)
    ensures c.verb == "POST" && c.url == host + WorkflowsPath
    ensures c.headers == ApiHeaders(token) && c.payload == Some(payload)
  {
    Call("POST", host + WorkflowsPath, ApiHeaders(token), Some(payload))
  }

  /** `result.data?.id`. */
  function CreatedId(r: CreateResult): (id: Option<Json>)
    ensures r.data.Some? && r.data.value.JObject? && "id" in r.data.value.fields ==>
      id == Some(r.data.value.fields["id"])
    ensures !(r.data.Some? && r.data.value.JObject? && "id" in r.data.value.fields) ==> id.None?
  {
    match r.data
    case Some(d) => Field(d, "id")
    case None => None
  }

  /** The request input is valid and the caller's engine is configured. */
  predicate Ready(session: Option<UserId>, workflowUrl: Option<string>, name: Option<string>, q: SettingsQuery) {
    session.Some? && Present(workflowUrl) && Present(name) && Configured(q)
  }

  /** The handler. `template` is what downloading the template would return,
      `created` what the create request would return; each is consulted only
      when its request is sent. */
  function Install(session: Option<UserId>, workflowUrl: Option<string>, name: Option<string>,
                   q: SettingsQuery, template: FetchOutcome<TemplateWorkflow>,
                   created: FetchOutcome<CreateResult>): (x: Exchange<InstallBody>)
    ensures session.None? ==> x == Exchange(Response(401, InstallError("Unauthorized")), [])
    ensures session.Some? && !(Present(workflowUrl) && Present(name)) ==>
      x == Exchange(Response(400, InstallError(RequiredMessage)), [])
    ensures session.Some? && Present(workflowUrl) && Present(name) && !Configured(q) ==>
      x == Exchange(Response(400, InstallError(NotConfiguredMessage)), [])
    ensures Ready(session, workflowUrl, name, q) ==>
      |x.sent| >= 1 && x.sent[0] == Call("GET", workflowUrl.value, map[], None)
    ensures x.sent ==
      if !Ready(session, workflowUrl, name, q) then []
      else if !template.Ok? then [Call("GET", workflowUrl.value, map[], None)]
      else [Call("GET", workflowUrl.value, map[], None),
            CreateCall(q.n8n_host.value, q.n8n_api_token.value, CreatePayload(template.body, name.value))]
    ensures |x.sent| == 2 <==> Ready(session, workflowUrl, name, q) && template.Ok?
    ensures |x.sent| == 2 ==>
      x.sent[1] == CreateCall(q.n8n_host.value, q.n8n_api_token.value, CreatePayload(template.body, name.value))
    ensures forall c :: c in x.sent && c.payload.Some? ==> !c.payload.value.active
    ensures x.response.status == 200 <==> Ready(session, workflowUrl, name, q) && template.Ok? && created.Ok?
    ensures x.response.status == 200 ==>
      x.response.body == Installed(CreatedId(created.body), "Workflow installed successfully")
    ensures x.response.status in {200, 400, 401, 500}
    ensures Ready(session, workflowUrl, name, q) && !(template.Ok? && created.Ok?) ==> x.response.status == 500
    ensures Ready(session, workflowUrl, name, q) && template.HttpError? ==>
      x.response == Response(500, InstallError(TemplateFetchMessage))
    ensures Ready(session, workflowUrl, name, q) && (template.NetworkError? || template.OtherError?) ==>
      x.response == Response(500, InstallError(template.message))
    ensures Ready(session, workflowUrl, name, q) && template.Ok? && created.HttpError? ==>
      x.response == Response(500, InstallError("N8N API error: " + created.text))
    ensures Ready(session, workflowUrl, name, q) && template.Ok? && (created.NetworkError? || created.OtherError?) ==>
      x.response == Response(500, InstallError(created.message))
  {
    if session.None? then Exchange(Response(401, InstallError("Unauthorized")), [])
    else if !(Present(workflowUrl) && Present(name)) then Exchange(Response(400, InstallError(RequiredMessage)), [])
    else if !Configured(q) then Exchange(Response(400, InstallError(NotConfiguredMessage)), [])
    else
      var download := Call("GET", workflowUrl.value, map[], None);
      match template
      case HttpError(_, _, _) => Exchange(Response(500, InstallError(TemplateFetchMessage)), [download])
      case NetworkError(message) => Exchange(Response(500, InstallError(message)), [download])
      case OtherError(message) => Exchange(Response(500, InstallError(message)), [download])
      case Ok(t) =>
        var create := CreateCall(q.n8n_host.value, q.n8n_api_token.value, CreatePayload(t, name.value));
        var sent := [download, create];
        match created
        case Ok(result) =>
          Exchange(Response(200, Installed(CreatedId(result), "Workflow installed successfully")), sent)
        case HttpError(_, _, text) => Exchange(Response(500, InstallError("N8N API error: " + text)), sent)
        case NetworkError(message) => Exchange(Response(500, InstallError(message)), sent)
        case OtherError(message) => Exchange(Response(500, InstallError(message)), sent)
  }

  /** Installing a template that is itself active still creates an inactive
      workflow. */
  lemma InstalledInactive(session: Option<UserId>, workflowUrl: Option<string>, name: Option<string>,
                          q: SettingsQuery, t: TemplateWorkflow, created: FetchOutcome<CreateResult>)
    requires Ready(session, workflowUrl, name, q)
    requires t.active == Some(JBool(true))
    ensures var x := Install(session, workflowUrl, name, q, Ok(t), created);
      |x.sent| == 2 && x.sent[1].payload.Some? && !x.sent[1].payload.value.active
  {
  }
}
