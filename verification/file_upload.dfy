/** The upload form of the personal workflow library: a dropped file, a display
    name defaulted from the file name, a description, and the submit action that
    checks the file before posting it to the upload route. */
module FileUpload {
  import opened Common
  import opened Text

  /** A file chosen in the browser: its name and its bytes. */
  datatype LocalFile = LocalFile(name: string, content: seq<bv8>)

  /** The display name `onDrop` derives from a file name: one trailing ".json"
      removed and every '-' and '_' shown as a space. */
  function DefaultDisplayName(fileName: string): (r: string)
    ensures |r| == if EndsWith(fileName, ".json") then |fileName| - 5 else |fileName|
    ensures forall i :: 0 <= i < |r| ==> r[i] != '-' && r[i] != '_'
    ensures forall i :: 0 <= i < |r| ==> r[i] == DashToSpace(fileName[i])
  {
    DashesToSpaces(StripJsonSuffix(fileName))
  }

  /** What `JSON.parse` made of the file's text. */
  datatype ParsedContent = NotJson | ParsedJson(root: Json)

  /** The check `workflowData.nodes && Array.isArray(workflowData.nodes)`. */
  predicate HasNodesArray(root: Json)
    ensures HasNodesArray(root) <==> root.JObject? && "nodes" in root.fields && root.fields["nodes"].JArray?
  {
    match Field(root, "nodes")
    case Some(nodes) => nodes.JArray?
    case None => false
  }

  /** The fields the form posts to the upload route. */
  datatype UploadSubmission = UploadSubmission(file: LocalFile, displayName: string, description: string)

  datatype UploadAttempt = Refused(message: string) | Submit(submission: UploadSubmission)

  const SelectFileMessage := "Please select a file and provide a display name"
  const InvalidJsonMessage := "Invalid JSON file format"
  const MissingNodesMessage := "Invalid N8N workflow file: missing nodes array"
  const NullRootMessage := "Cannot read properties of null (reading 'nodes')"

  /** The checks `handleUpload` makes before any request: a file and a display
      name that is not blank, then content that parses and has a `nodes` array.
      What is posted carries the name and description trimmed. */
  function PrepareUpload(file: Option<LocalFile>, displayName: string, description: string,
                         parsed: ParsedContent): (a: UploadAttempt)
    ensures a.Submit? <==>
      file.Some? && Trim(displayName) != "" && parsed.ParsedJson? && HasNodesArray(parsed.root)
    ensures file.None? || Trim(displayName) == "" ==> a == Refused(SelectFileMessage)
    ensures a.Submit? ==> a.submission == UploadSubmission(file.value, Trim(displayName), Trim(description))
    ensures a.Submit? ==> a.submission.displayName != ""
  {
    if file.None? || Trim(displayName) == "" then Refused(SelectFileMessage)
    else match parsed
      case NotJson => Refused(InvalidJsonMessage)
      case ParsedJson(root) =>
        if root.JNull? then Refused(NullRootMessage)
        else if !HasNodesArray(root) then Refused(MissingNodesMessage)
        else Submit(UploadSubmission(file.value, Trim(displayName), Trim(description)))
  }

  /** The answer to the POST: a reply with its `ok` flag and the `error` field
      of its JSON body; a failed reply whose body is not JSON (an error page of
      the platform, say), on which `response.json()` throws a SyntaxError; or a
      failure of the request itself. A successful reply's body is never read. */
  datatype UploadReply =
    | Replied(ok: bool, error: Option<string>)
    | FailedNotJson
    | RequestFailed(message: string)

  datatype UploadOutcome = Uploaded | Failed(toast: string)

  const UploadFailedMessage := "Failed to upload workflow"

  /** How `handleUpload` reports the answer: success hands over to the caller,
      anything else becomes an error toast; a SyntaxError from reading a failed
      reply's body is reported as an invalid JSON file. */
  function ReplyOutcome(reply: UploadReply): (o: UploadOutcome)
    ensures o.Uploaded? <==> reply.Replied? && reply.ok
    ensures reply.Replied? && !reply.ok && Present(reply.error) ==> o == Failed(reply.error.value)
    ensures reply.Replied? && !reply.ok && !Present(reply.error) ==> o == Failed(UploadFailedMessage)
    ensures reply.FailedNotJson? ==> o == Failed(InvalidJsonMessage)
    ensures reply.RequestFailed? ==> o == Failed(reply.message)
  {
    match reply
    case Replied(ok, error) =>
      if ok then Uploaded
      else if Present(error) then Failed(error.value)
      else Failed(UploadFailedMessage)
    case FailedNotJson => Failed(InvalidJsonMessage)
    case RequestFailed(message) => Failed(message)
  }

  /** The component's state. */
  class UploadForm {
    var file: Option<LocalFile>
    var displayName: string
    var description: string
    var uploading: bool

    constructor ()
      ensures file.None? && displayName == "" && description == "" && !uploading
    {
      file, displayName, description, uploading := None, "", "", false;
    }

    /** `onDrop`: the first accepted file is taken, and the display name is
        defaulted from its name only when none has been typed; an empty drop
        changes nothing. */
    method OnDrop(accepted: seq<LocalFile>)
      modifies this
      ensures accepted == [] ==> file == old(file) && displayName == old(displayName)
      ensures accepted != [] ==> file == Some(accepted[0])
      ensures accepted != [] && old(displayName) == "" ==> displayName == DefaultDisplayName(accepted[0].name)
      ensures old(displayName) != "" ==> displayName == old(displayName)
      ensures description == old(description) && uploading == old(uploading)
    {
      if accepted != [] {
        var dropped := accepted[0];
        file := Some(dropped);
        if displayName == "" {
          displayName := DefaultDisplayName(dropped.name);
        }
      }
    }

    method EditDisplayName(value: string)
      modifies this
      ensures displayName == value
      ensures file == old(file) && description == old(description) && uploading == old(uploading)
    {
      displayName := value;
    }

    method EditDescription(value: string)
      modifies this
      ensures description == value
      ensures file == old(file) && displayName == old(displayName) && uploading == old(uploading)
    {
      description := value;
    }

    /** `removeFile`: back to an empty form. */
    method RemoveFile()
      modifies this
      ensures file.None? && displayName == "" && description == ""
      ensures uploading == old(uploading)
    {
      file, displayName, description := None, "", "";
    }

    /** The `disabled` expression of the upload button. */
    function UploadDisabled(): (disabled: bool)
      reads this
      ensures !disabled <==> !uploading && Trim(displayName) != ""
    {
      uploading || Trim(displayName) == ""
    }

    /** `handleUpload`: refused without a request unless `PrepareUpload` accepts
        the form; otherwise exactly that submission is posted, with `uploading`
        raised until the reply is in. The form's fields are left as they were. */
    method HandleUpload(parsed: ParsedContent, reply: UploadReply)
      returns (sent: Option<UploadSubmission>, outcome: UploadOutcome)
      modifies this
      ensures var a := PrepareUpload(old(file), old(displayName), old(description), parsed);
        && (a.Refused? ==> sent.None? && outcome == Failed(a.message))
        && (a.Submit? ==> sent == Some(a.submission) && outcome == ReplyOutcome(reply))
      ensures file == old(file) && displayName == old(displayName) && description == old(description)
      ensures old(file).None? || Trim(old(displayName)) == "" ==> uploading == old(uploading)
      ensures old(file).Some? && Trim(old(displayName)) != "" ==> !uploading
    {
      if file.None? || Trim(displayName) == "" {
        return None, Failed(SelectFileMessage);
      }
      uploading := true;
      var attempt := PrepareUpload(file, displayName, description, parsed);
      match attempt {
        case Refused(message) =>
          sent, outcome := None, Failed(message);
        case Submit(submission) =>
          sent, outcome := Some(submission), ReplyOutcome(reply);
      }
      uploading := false;
    }
  }
}
