/**
  The upload control of the web client (`FileUploader`): it posts the picked
  files as one multipart form, records the ids the server assigns, hands them
  to the progress tracker and forgets them once processing completes.

  The component's React state becomes the fields of a class. The asynchronous
  handler is split at its one `await`: `HandleFileUpload` runs up to the
  request and `ReceiveResponse` applies its outcome, which is an input.
 */
module FileUploader {
  import opened Wrappers
  import opened Text
  import opened UploadProgress

  const FilesField: string := "files"
  const FolderField: string := "folder_id"

  /** A file from the picker; its bytes are not modelled. */
  datatype SelectedFile = SelectedFile(name: string, size: nat)

  datatype FormValue = FileValue(file: SelectedFile) | TextValue(text: string)

  /** One `formData.append(name, value)`. */
  datatype FormPart = FormPart(name: string, value: FormValue)

  /** One entry of the upload response. */
  datatype UploadRecord = UploadRecord(id: FileId, name: string)

  /** How the upload request ended. */
  datatype UploadResponse =
    | Ok(records: seq<UploadRecord>)   // a 2xx response with its JSON array
    | NotOk(statusText: string)        // any other status
    | Thrown(message: string)          // an Error from fetch or from parsing the body
    | NonErrorThrown                   // something other than an Error was thrown

  function FilePart(f: SelectedFile): FormPart {
    FormPart(FilesField, FileValue(f))
  }

  function FolderPart(folderId: int): FormPart {
    FormPart(FolderField, TextValue(IntToDecimal(folderId)))
  }

  /** The form the handler builds: one `files` part per file, in selection
      order, then a `folder_id` part when a folder id is given (0 included). */
  function FormParts(files: seq<SelectedFile>, folderId: Option<int>): seq<FormPart> {
    seq(|files|, i requires 0 <= i < |files| => FilePart(files[i]))
      + if folderId.Some? then [FolderPart(folderId.value)] else []
  }

  /** Builds the form part by part, as the handler's `forEach`/`append` does. */
  method BuildForm(files: seq<SelectedFile>, folderId: Option<int>) returns (form: seq<FormPart>)
    ensures form == FormParts(files, folderId)
  {
    form := [];
    for i := 0 to |files|
      invariant form == seq(i, j requires 0 <= j < i => FilePart(files[j]))
    {
      form := form + [FilePart(files[i])];
    }
    if folderId.Some? {
      form := form + [FolderPart(folderId.value)];
    }
  }

  /** The files a server reads out of a form, in order. */
  function FilesOf(form: seq<FormPart>): seq<SelectedFile> {
    if form == [] then []
    else
      (if form[0].name == FilesField && form[0].value.FileValue? then [form[0].value.file] else [])
        + FilesOf(form[1..])
  }

  /** The folder id a server reads out of a form: its first `folder_id` part. */
  function FolderIdOf(form: seq<FormPart>): Option<int> {
    if form == [] then None
    else if form[0].name == FolderField && form[0].value.TextValue? then ParseInt(form[0].value.text)
    else FolderIdOf(form[1..])
  }

  lemma {:induction false} FilesOfConcat(a: seq<FormPart>, b: seq<FormPart>)
    ensures FilesOf(a + b) == FilesOf(a) + FilesOf(b)
  {
    if a != [] {
      assert (a + b)[0] == a[0] && (a + b)[1..] == a[1..] + b;
      FilesOfConcat(a[1..], b);
    } else {
      assert a + b == b;
    }
  }

  lemma {:induction false} FilePartsRoundTrip(files: seq<SelectedFile>, folderId: Option<int>)
    ensures FilesOf(seq(|files|, i requires 0 <= i < |files| => FilePart(files[i]))) == files
    ensures FolderIdOf(seq(|files|, i requires 0 <= i < |files| => FilePart(files[i]))
                       + if folderId.Some? then [FolderPart(folderId.value)] else [])
            == folderId
  {
    var parts := seq(|files|, i requires 0 <= i < |files| => FilePart(files[i]));
    var tail: seq<FormPart> := if folderId.Some? then [FolderPart(folderId.value)] else [];
    if files == [] {
      assert parts + tail == tail;
      if folderId.Some? { IntRoundTrip(folderId.value); }
    } else {
      var rest := seq(|files[1..]|, i requires 0 <= i < |files[1..]| => FilePart(files[1..][i]));
      assert parts[1..] == rest;
      assert (parts + tail)[1..] == rest + tail;
      FilePartsRoundTrip(files[1..], folderId);
      assert [files[0]] + files[1..] == files;
    }
  }

  /** A server reading the form gets back exactly the selected files, in
      order, and the folder id if and only if one was given. */
  lemma FormRoundTrip(files: seq<SelectedFile>, folderId: Option<int>)
    ensures FilesOf(FormParts(files, folderId)) == files
    ensures FolderIdOf(FormParts(files, folderId)) == folderId
  {
    var parts := seq(|files|, i requires 0 <= i < |files| => FilePart(files[i]));
    var tail: seq<FormPart> := if folderId.Some? then [FolderPart(folderId.value)] else [];
    FilePartsRoundTrip(files, folderId);
    FilesOfConcat(parts, tail);
    assert FilesOf(tail) == [] by {
      if folderId.Some? { assert tail[1..] == []; }
    }
  }

  /** `data.map(file => file.id)`: the ids in response order. */
  function IdsOf(records: seq<UploadRecord>): (ids: seq<FileId>)
    ensures |ids| == |records|
    ensures forall i :: 0 <= i < |records| ==> ids[i] == records[i].id
  {
    seq(|records|, i requires 0 <= i < |records| => records[i].id)
  }

  /** The message shown for an upload that did not succeed. */
  function UploadErrorMessage(response: UploadResponse): string
    requires !response.Ok?
  {
    match response
    case NotOk(statusText) => "Upload failed: " + statusText
    case Thrown(message) => message
    case NonErrorThrown => "Upload failed"
  }

  class Uploader {
    // The component's props.
    const folderId: Option<int>
    const hasCallback: bool
    // The component's React state.
    var isUploading: bool
    var uploadedFileIds: seq<FileId>
    var uploadError: Option<string>
    // What left the component: the forms posted and the callback's arguments.
    var requests: seq<seq<FormPart>>
    var delivered: seq<seq<UploadRecord>>

    constructor (folderId: Option<int>, hasCallback: bool)
      ensures this.folderId == folderId && this.hasCallback == hasCallback
      ensures !isUploading && uploadedFileIds == [] && uploadError == None
      ensures requests == [] && delivered == []
    {
      this.folderId, this.hasCallback := folderId, hasCallback;
      isUploading, uploadedFileIds, uploadError := false, [], None;
      requests, delivered := [], [];
    }

    /** The picker's change handler up to the request. No selection, or an
        empty one, returns at once; otherwise the component shows it is
        uploading, clears the old error and posts the form. The picker is
        disabled while an upload is under way. */
    method HandleFileUpload(selection: Option<seq<SelectedFile>>) returns (sent: Option<seq<FormPart>>)
      requires !isUploading
      modifies this
      ensures selection.None? || selection.value == [] ==> unchanged(this) && sent.None?
      ensures selection.Some? && selection.value != [] ==>
        && isUploading && uploadError == None
        && sent == Some(FormParts(selection.value, folderId))
        && requests == old(requests) + [sent.value]
        && uploadedFileIds == old(uploadedFileIds) && delivered == old(delivered)
    {
      if selection.None? || selection.value == [] {
        return None;
      }
      isUploading := true;
      uploadError := None;
      var form := BuildForm(selection.value, folderId);
      requests := requests + [form];
      sent := Some(form);
    }

    /** The rest of the handler, once the request has ended: on success the
        ids are recorded and the callback gets the whole response; otherwise
        the error is shown and the ids stay. Either way the upload is over. */
    method ReceiveResponse(response: UploadResponse)
      requires isUploading
      modifies this
      ensures !isUploading && requests == old(requests)
      ensures response.Ok? ==>
        && uploadedFileIds == IdsOf(response.records) && uploadError == old(uploadError)
        && delivered == old(delivered) + if hasCallback then [response.records] else []
      ensures !response.Ok? ==>
        && uploadError == Some(UploadErrorMessage(response))
        && uploadedFileIds == old(uploadedFileIds) && delivered == old(delivered)
    {
      if response.Ok? {
        uploadedFileIds := IdsOf(response.records);
        if hasCallback {
          delivered := delivered + [response.records];
        }
      } else {
        uploadError := Some(UploadErrorMessage(response));
      }
      isUploading := false;
    }

    /** The tracker's completion callback: forget the ids, which unmounts the tracker. */
    method HandleUploadComplete()
      modifies this
      ensures uploadedFileIds == [] && !ShowsTracker()
      ensures isUploading == old(isUploading) && uploadError == old(uploadError)
      ensures requests == old(requests) && delivered == old(delivered)
    {
      uploadedFileIds := [];
    }

    /** The progress tracker is rendered, for these ids, while there are any. */
    function ShowsTracker(): (shown: bool)
      reads this
      ensures shown <==> uploadedFileIds != []
    {
      |uploadedFileIds| > 0
    }
  }
}
