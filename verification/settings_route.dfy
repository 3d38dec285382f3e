/** GET and POST /api/settings: read and save the caller's engine host and API
    token, one `user_settings` row per user. */
module SettingsRoute {
  import opened Common
  import opened Text
  import opened Remote

  /** A `user_settings` row. */
  datatype SettingsRow = SettingsRow(
    id: string,
    user_id: UserId,
    n8n_host: Option<string>,
    n8n_api_token: Option<string>,
    created_at: string,
    updated_at: string)

  datatype SettingsBody =
    | SettingsError(error: string)
    | SettingsFound(n8n_host: Option<string>, n8n_api_token: Option<string>)
    | Saved(settings: SettingsRow)

  /** What the settings query returns for `user`, unless the database fails with
      `failure` (a code and a message). */
  function SelectSettings(rows: map<UserId, SettingsRow>, user: UserId,
                          failure: Option<(string, string)>): (q: SettingsQuery)
    ensures failure.Some? ==> q == QueryFailed(failure.value.0, failure.value.1)
    ensures failure.None? && user in rows ==> q == Found(rows[user].n8n_host, rows[user].n8n_api_token)
    ensures failure.None? && user !in rows ==> q.QueryFailed? && q.code == NotFoundCode
  {
    if failure.Some? then QueryFailed(failure.value.0, failure.value.1)
    else if user in rows then Found(rows[user].n8n_host, rows[user].n8n_api_token)
    else QueryFailed(NotFoundCode, "JSON object requested, multiple (or no) rows returned")
  }

  /** GET: a missing row reads as empty settings, not as an error; any other
      query error is a 500. */
  function GetSettings(session: Option<UserId>, q: SettingsQuery): (r: Response<SettingsBody>)
    ensures session.None? ==> r == Response(401, SettingsError("Unauthorized"))
    ensures r.status == 200 <==> session.Some? && (q.Found? || q.code == NotFoundCode)
    ensures r.status == 500 <==> session.Some? && q.QueryFailed? && q.code != NotFoundCode
    ensures session.Some? && q.QueryFailed? && q.code == NotFoundCode ==>
      r.body == SettingsFound(Some(""), Some(""))
    ensures session.Some? && q.Found? ==> r.body == SettingsFound(q.n8n_host, q.n8n_api_token)
  {
    if session.None? then Response(401, SettingsError("Unauthorized"))
    else match q
      case QueryFailed(code, _) =>
        if code == NotFoundCode then Response(200, SettingsFound(Some(""), Some("")))
        else Response(500, SettingsError("Failed to fetch settings"))
      case Found(host, token) => Response(200, SettingsFound(host, token))
  }

  /** The table after the upsert of `user`'s row: only that row is written, an
      existing row keeps its id and creation time. */
  function Upserted(rows: map<UserId, SettingsRow>, user: UserId, host: string, token: string,
                    now: string, newId: string): (m: map<UserId, SettingsRow>)
    ensures m.Keys == rows.Keys + {user}
    ensures forall u :: u in rows && u != user ==> m[u] == rows[u]
    ensures m[user].user_id == user && m[user].updated_at == now
    ensures m[user].n8n_host == Some(host) && m[user].n8n_api_token == Some(token)
    ensures user in rows ==> m[user].id == rows[user].id && m[user].created_at == rows[user].created_at
    ensures user !in rows ==> m[user].id == newId && m[user].created_at == now
  {
    var row :=
      if user in rows then rows[user].(user_id := user, n8n_host := Some(host), n8n_api_token := Some(token), updated_at := now)
      else SettingsRow(newId, user, Some(host), Some(token), now, now);
    rows[user := row]
  }

  /** Saving and then reading back gives the saved values, trimmed. */
  lemma SaveThenGet(rows: map<UserId, SettingsRow>, user: UserId, host: string, token: string,
                    now: string, newId: string)
    ensures var saved := Upserted(rows, user, Trim(host), Trim(token), now, newId);
      GetSettings(Some(user), SelectSettings(saved, user, None)) ==
        Response(200, SettingsFound(Some(Trim(host)), Some(Trim(token))))
  {
  }

  /** The `user_settings` table. */
  class SettingsTable {
    var rows: map<UserId, SettingsRow>

    /** Each row is filed under its own user. */
    ghost predicate Valid()
      reads this
    {
      forall u :: u in rows ==> rows[u].user_id == u
    }

    /** No two rows carry the same `user_id`: the table holds at most one row per user. */
    ghost predicate OneRowPerUser()
      reads this
    {
      forall u, v :: u in rows && v in rows && rows[u].user_id == rows[v].user_id ==> u == v
    }

    constructor ()
      ensures Valid() && rows == map[]
    {
      rows := map[];
    }

    /** GET /api/settings; reading changes nothing. */
    method Get(session: Option<UserId>, failure: Option<(string, string)>) returns (r: Response<SettingsBody>)
      ensures session.None? ==> r.status == 401
      ensures session.Some? ==> r == GetSettings(session, SelectSettings(rows, session.value, failure))
    {
      if session.None? {
        return Response(401, SettingsError("Unauthorized"));
      }
      var q := SelectSettings(rows, session.value, failure);
      r := GetSettings(session, q);
    }

    /** POST /api/settings: with a session and both fields non-empty, the
        caller's row is upserted with the trimmed values; any refusal or database
        error leaves the table as it was. `now` is the clock reading, `newId` the
        id the database would give a new row, `fails` whether the upsert fails. */
    method Post(session: Option<UserId>, host: Option<string>, token: Option<string>,
                now: string, newId: string, fails: bool) returns (r: Response<SettingsBody>)
      requires Valid()
      modifies this
      ensures Valid() && OneRowPerUser()
      ensures session.None? ==> r == Response(401, SettingsError("Unauthorized")) && rows == old(rows)
      ensures session.Some? && !(Present(host) && Present(token)) ==>
        r == Response(400, SettingsError("N8N host and API token are required")) && rows == old(rows)
      ensures session.Some? && Present(host) && Present(token) && fails ==>
        r == Response(500, SettingsError("Failed to save settings")) && rows == old(rows)
      ensures session.Some? && Present(host) && Present(token) && !fails ==>
        && rows == Upserted(old(rows), session.value, Trim(host.value), Trim(token.value), now, newId)
        && r == Response(200, Saved(rows[session.value]))
    {
      if session.None? {
        return Response(401, SettingsError("Unauthorized"));
      }
      if !(Present(host) && Present(token)) {
        return Response(400, SettingsError("N8N host and API token are required"));
      }
      if fails {
        return Response(500, SettingsError("Failed to save settings"));
      }
      var user := session.value;
      rows := Upserted(rows, user, Trim(host.value), Trim(token.value), now, newId);
      r := Response(200, Saved(rows[user]));
    }
  }
}
