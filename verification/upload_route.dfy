/** POST /api/workflows/user/upload: store a user's workflow file in the
    `workflows` storage bucket and record it in the `workflows` table; when the
    record cannot be written, the stored file is removed again. */
module UploadRoute {
  import opened Common
  import opened Text

  type Blob = seq<bv8>

  /** The `file` field of the form. */
  datatype FormFile = FormFile(name: string, content: Blob)

  /** A `workflows` row. */
  datatype WorkflowRow = WorkflowRow(
    id: string,
    user_id: UserId,
    file_name: string,
    storage_path: string,
    display_name: string,
    description: string,
    created_at: string,
    updated_at: string)

  datatype UploadBody = UploadError(error: string) | Uploaded(workflow: WorkflowRow)

  const RequiredMessage := "File and display name are required"
  const JsonOnlyMessage := "Only JSON files are allowed"
  const FailedMessage := "Failed to upload workflow"

  /** `${user}/${timestamp}-${name}`: always under the caller's own folder. */
  function StoragePath(user: UserId, timestamp: nat, name: string): (p: string)
    ensures StartsWith(p, user + "/")
    ensures EndsWith(p, "-" + name)
    ensures |p| == |user| + 1 + |Decimal(timestamp)| + 1 + |name|
    ensures p[|user| + 1..|p| - |name| - 1] == Decimal(timestamp)
  {
    var p := user + "/" + Decimal(timestamp) + "-" + name;
    assert p[..|user + "/"|] == user + "/";
    assert p[|p| - |"-" + name|..] == "-" + name;
    assert p[|user| + 1..|p| - |name| - 1] == Decimal(timestamp);
    p
  }

  /** The index of the first '/' in `s`, or `|s|` when there is none. */
  function SlashIndex(s: string): (k: nat)
    ensures k <= |s|
    ensures forall j :: 0 <= j < k ==> s[j] != '/'
    ensures k < |s| ==> s[k] == '/'
  {
    if s == [] || s[0] == '/' then 0 else 1 + SlashIndex(s[1..])
  }

  /** In `user + "/" + rest` the first '/' is the one after the user id. */
  lemma {:induction false} SlashIndexAfterUser(user: UserId, rest: string)
    requires '/' !in user
    ensures SlashIndex(user + "/" + rest) == |user|
  {
    if user != [] {
      assert (user + "/" + rest)[1..] == user[1..] + "/" + rest;
      SlashIndexAfterUser(user[1..], rest);
    }
  }

  /** A storage path names its owner: two uploads by different users never
      share a path, as long as user ids hold no '/'. */
  lemma StoragePathNamesOwner(u1: UserId, t1: nat, n1: string, u2: UserId, t2: nat, n2: string)
    requires '/' !in u1 && '/' !in u2
    requires StoragePath(u1, t1, n1) == StoragePath(u2, t2, n2)
    ensures u1 == u2
  {
    var p := StoragePath(u1, t1, n1);
    assert p == u1 + "/" + (Decimal(t1) + "-" + n1);
    assert p == u2 + "/" + (Decimal(t2) + "-" + n2);
    SlashIndexAfterUser(u1, Decimal(t1) + "-" + n1);
    SlashIndexAfterUser(u2, Decimal(t2) + "-" + n2);
    assert u1 == p[..|u1|] && u2 == p[..|u2|];
  }

  /** `formData.get('description') || ''`. */
  function DescriptionOrEmpty(description: Option<string>): (d: string)
    ensures Present(description) ==> d == description.value
    ensures !Present(description) ==> d == ""
  {
    if description.Some? then description.value else ""
  }

  /** The row the insert writes and returns. */
  function NewRow(user: UserId, file: FormFile, path: string, displayName: string,
                  description: Option<string>, newId: string, now: string): (row: WorkflowRow)
    ensures row.user_id == user && row.file_name == file.name && row.storage_path == path
    ensures row.display_name == displayName && row.description == DescriptionOrEmpty(description)
    ensures row.id == newId && row.created_at == now && row.updated_at == now
  {
    WorkflowRow(newId, user, file.name, path, displayName, DescriptionOrEmpty(description), now, now)
  }

  /** The request passes validation: signed in, a file and a display name, and a
      `.json` file name. */
  predicate Accepted(session: Option<UserId>, file: Option<FormFile>, displayName: Option<string>) {
    session.Some? && file.Some? && Present(displayName) && EndsWith(file.value.name, ".json")
  }

  /** The storage bucket and the `workflows` table together. */
  class WorkflowLibrary {
    var storage: map<string, Blob>
    var rows: seq<WorkflowRow>

    /** Every row points at a stored file inside its owner's folder. */
    ghost predicate Valid()
      reads this
    {
      forall i :: 0 <= i < |rows| ==>
        rows[i].storage_path in storage && StartsWith(rows[i].storage_path, rows[i].user_id + "/")
    }

    constructor ()
      ensures Valid() && storage == map[] && rows == []
    {
      storage := map[];
      rows := [];
    }

    /** The handler. `timestamp` is the clock reading in milliseconds, `newId` and
        `now` the id and time the database gives a new row. The storage upload
        fails when the path is taken or `uploadFails`; the insert fails when
        `insertFails`, and the compensating remove is ignored when it fails
        (`removeFails`). */
    method Upload(session: Option<UserId>, file: Option<FormFile>, displayName: Option<string>,
                  description: Option<string>, timestamp: nat, newId: string, now: string,
                  uploadFails: bool, insertFails: bool, removeFails: bool)
      returns (r: Response<UploadBody>)
      requires Valid()
      modifies this
      ensures Valid()
      ensures session.None? ==>
        r == Response(401, UploadError("Unauthorized")) && storage == old(storage) && rows == old(rows)
      ensures session.Some? && !(file.Some? && Present(displayName)) ==>
        r == Response(400, UploadError(RequiredMessage)) && storage == old(storage) && rows == old(rows)
      ensures session.Some? && file.Some? && Present(displayName) && !EndsWith(file.value.name, ".json") ==>
        r == Response(400, UploadError(JsonOnlyMessage)) && storage == old(storage) && rows == old(rows)
      ensures Accepted(session, file, displayName) ==>
        var path := StoragePath(session.value, timestamp, file.value.name);
        && (path in old(storage) || uploadFails ==>
              r == Response(500, UploadError(FailedMessage)) && storage == old(storage) && rows == old(rows))
        && (path !in old(storage) && !uploadFails && insertFails ==>
              && r == Response(500, UploadError(FailedMessage)) && rows == old(rows)
              && storage == if removeFails then old(storage)[path := file.value.content] else old(storage))
        && (path !in old(storage) && !uploadFails && !insertFails ==>
              var row := NewRow(session.value, file.value, path, displayName.value, description, newId, now);
              && r == Response(200, Uploaded(row))
              && rows == old(rows) + [row]
              && storage == old(storage)[path := file.value.content])
    {
      if session.None? {
        return Response(401, UploadError("Unauthorized"));
      }
      if !(file.Some? && Present(displayName)) {
        return Response(400, UploadError(RequiredMessage));
      }
      if !EndsWith(file.value.name, ".json") {
        return Response(400, UploadError(JsonOnlyMessage));
      }
      var user := session.value;
      var path := StoragePath(user, timestamp, file.value.name);
      if path in storage || uploadFails {
        return Response(500, UploadError(FailedMessage));
      }
      storage := storage[path := file.value.content];
      if insertFails {
        if !removeFails {
          storage := map p | p in storage && p != path :: storage[p];
          assert storage == old(storage);
        }
        return Response(500, UploadError(FailedMessage));
      }
      var row := NewRow(user, file.value, path, displayName.value, description, newId, now);
      rows := rows + [row];
      r := Response(200, Uploaded(row));
    }
  }
}
