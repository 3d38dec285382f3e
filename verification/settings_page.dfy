/** The settings page: a form holding the automation-engine host URL and API
    token, with a "Test Connection" action. */
module SettingsPage {
  import opened Common
  import opened Text

  predicate HasScheme(url: string) {
    StartsWith(url, "http://") || StartsWith(url, "https://")
  }

  /** `formatHostUrl`: a URL without a scheme gets "https://" in front; an empty
      one stays empty. The typed text always survives as the end of the result. */
  function FormatHostUrl(url: string): (r: string)
    ensures r == url || r == "https://" + url
    ensures EndsWith(r, url)
    ensures r == "" <==> url == ""
    ensures r != "" ==> HasScheme(r)
    ensures url == "" || HasScheme(url) ==> r == url
  {
    if url == "" then ""
    else if !HasScheme(url) then "https://" + url
    else url
  }

  /** Formatting an already formatted host changes nothing. */
  lemma FormatHostUrlIdempotent(url: string)
    ensures FormatHostUrl(FormatHostUrl(url)) == FormatHostUrl(url)
  {
  }

  /** The guard at the top of `handleTestConnection`: both fields must be non-empty. */
  predicate CanTestConnection(host: string, token: string) {
    host != "" && token != ""
  }

  /** The `disabled` expression of the "Test Connection" button. */
  function TestButtonDisabled(testing: bool, host: string, token: string): (disabled: bool)
    ensures !disabled <==> !testing && CanTestConnection(host, token)
  {
    testing || host == "" || token == ""
  }

  /** What the page learns from POST /api/settings/test: a reply with its `ok`
      flag and `error` field, or a failure of the request itself. */
  datatype TestReply = Replied(ok: bool, error: Option<string>) | RequestFailed(message: string)

  datatype Toast = SuccessToast(text: string) | ErrorToast(text: string)

  const MissingFieldsMessage := "Please provide both N8N host and API token"

  /** The toast `handleTestConnection` shows once its request has been answered. */
  function TestToast(reply: TestReply): (t: Toast)
    ensures t.SuccessToast? <==> reply.Replied? && reply.ok
    ensures reply.Replied? && !reply.ok ==> t.ErrorToast? && t.text != ""
    ensures reply.RequestFailed? ==> t == ErrorToast(reply.message)
    ensures reply.Replied? && !reply.ok && Present(reply.error) ==> t == ErrorToast(reply.error.value)
  {
    match reply
    case Replied(ok, error) =>
      if ok then SuccessToast("Connection successful!")
      else if Present(error) then ErrorToast(error.value)
      else ErrorToast("Connection failed")
    case RequestFailed(message) => ErrorToast(message)
  }

  /** The page's form state: the two fields and the `testing` flag. */
  class SettingsForm {
    var host: string
    var token: string
    var testing: bool

    constructor ()
      ensures host == "" && token == "" && !testing
    {
      host, token, testing := "", "", false;
    }

    /** Typing in the host field stores the formatted text. */
    method EditHost(value: string)
      modifies this
      ensures host == FormatHostUrl(value)
      ensures host == "" || HasScheme(host)
      ensures token == old(token) && testing == old(testing)
    {
      host := FormatHostUrl(value);
    }

    /** Typing in the token field stores the text as typed. */
    method EditToken(value: string)
      modifies this
      ensures token == value
      ensures host == old(host) && testing == old(testing)
    {
      token := value;
    }

    function TestDisabled(): (disabled: bool)
      reads this
      ensures !disabled ==> host != "" && token != ""
    {
      TestButtonDisabled(testing, host, token)
    }

    /** `handleTestConnection`: without both fields no request is sent; otherwise
        the request is sent with `testing` raised, and `testing` is lowered again
        whatever the reply. The fields are never changed. */
    method TestConnection(reply: TestReply) returns (requested: bool, toast: Toast)
      modifies this
      ensures requested <==> CanTestConnection(host, token)
      ensures requested ==> toast == TestToast(reply) && !testing
      ensures !requested ==> toast == ErrorToast(MissingFieldsMessage) && testing == old(testing)
      ensures host == old(host) && token == old(token)
    {
      if host == "" || token == "" {
        return false, ErrorToast(MissingFieldsMessage);
      }
      testing := true;
      requested := true;
      toast := TestToast(reply);
      testing := false;
    }
  }
}
