/** GET /api/workflows/installed: the workflows the caller's engine holds. Host
    and key come from the caller's settings, each falling back on its own to the
    server's environment. */
module InstalledRoute {
  import opened Common
  import opened Text
  import opened Remote

  datatype InstalledBody = InstalledError(error: string) | InstalledList(installedWorkflows: seq<Json>)

  /** `settings?.field || process.env.X`: a failed query leaves `settings` null,
      so it falls back as well. */
  function FromSettingsOrEnv(stored: Option<string>, env: Option<string>): (r: Option<string>)
    ensures Present(r) <==> Present(stored) || Present(env)
    ensures Present(stored) ==> r == stored
    ensures !Present(stored) ==> r == env
  {
    OrElse(stored, env)
  }

  function HostOf(q: SettingsQuery, envHost: Option<string>): Option<string> {
    FromSettingsOrEnv(if q.Found? then q.n8n_host else None, envHost)
  }

  function KeyOf(q: SettingsQuery, envKey: Option<string>): Option<string> {
    FromSettingsOrEnv(if q.Found? then q.n8n_api_token else None, envKey)
  }

  const MissingConfigMessage :=
    "N8N host and API key are required. Please configure them in settings or environment variables."

  /** The handler. `outcome` is what the listing request would return; it is
      consulted only when the request is sent. */
  function GetInstalled(session: Option<UserId>, q: SettingsQuery, envHost: Option<string>,
                        envKey: Option<string>, outcome: FetchOutcome<WorkflowList>): (x: Exchange<InstalledBody>)
    ensures session.None? ==> x == Exchange(Response(401, InstalledError("Unauthorized")), [])
    ensures session.Some? && !(Present(HostOf(q, envHost)) && Present(KeyOf(q, envKey))) ==>
      x == Exchange(Response(400, InstalledError(MissingConfigMessage)), [])
    ensures session.Some? && Present(HostOf(q, envHost)) && Present(KeyOf(q, envKey)) ==>
      x.sent == [ListWorkflowsCall(HostOf(q, envHost).value, KeyOf(q, envKey).value)]
    ensures x.response.status == 200 <==>
      session.Some? && Present(HostOf(q, envHost)) && Present(KeyOf(q, envKey)) && outcome.Ok?
    ensures x.response.status == 200 ==> x.response.body == InstalledList(ListedWorkflows(outcome.body))
    ensures x.response.status in {200, 400, 401, 500}
    ensures session.Some? && Present(HostOf(q, envHost)) && Present(KeyOf(q, envKey)) && !outcome.Ok? ==>
      x.response.status == 500
    ensures session.Some? && Present(HostOf(q, envHost)) && Present(KeyOf(q, envKey)) && outcome.HttpError? ==>
      x.response == Response(500, InstalledError("N8N API error: " + outcome.text))
    ensures session.Some? && Present(HostOf(q, envHost)) && Present(KeyOf(q, envKey)) && outcome.NetworkError? ==>
      x.response == Response(500, InstalledError(outcome.message))
    ensures session.Some? && Present(HostOf(q, envHost)) && Present(KeyOf(q, envKey)) && outcome.OtherError? ==>
      x.response == Response(500, InstalledError(outcome.message))
  {
    var host, key := HostOf(q, envHost), KeyOf(q, envKey);
    if session.None? then Exchange(Response(401, InstalledError("Unauthorized")), [])
    else if !(Present(host) && Present(key)) then Exchange(Response(400, InstalledError(MissingConfigMessage)), [])
    else
      var sent := [ListWorkflowsCall(host.value, key.value)];
      match outcome
      case Ok(body) => Exchange(Response(200, InstalledList(ListedWorkflows(body))), sent)
      case HttpError(_, _, text) => Exchange(Response(500, InstalledError("N8N API error: " + text)), sent)
      case NetworkError(message) => Exchange(Response(500, InstalledError(message)), sent)
      case OtherError(message) => Exchange(Response(500, InstalledError(message)), sent)
  }

  /** A stored host is used even when the environment names another; the
      environment fills in only a field the settings leave empty. */
  lemma StoredHostWins(host: string, token: Option<string>, envHost: Option<string>)
    requires host != ""
    ensures HostOf(Found(Some(host), token), envHost) == Some(host)
  {
  }
}
