/**
  The upload-progress tracker of the web client (the `useFileUploadProgress`
  hook): given the ids of freshly uploaded files it queries the progress
  endpoint once, re-queries every 3000 ms, keeps the latest response as the
  progress snapshot and raises `isComplete` once every file is done.

  The hook's React state becomes the fields of a class, and each thing that
  can happen to it becomes a method: the effect body (`Start`), a tick of the
  interval (`Tick`), the arrival of a successful or failed response
  (`PollOk`, `PollFail`) and the effect's cleanup (`Cleanup`). The network is
  replaced by a log of the URLs queried and a count of the queries whose
  response has not been applied yet.
 */
module UploadProgress {
  import opened Wrappers
  import opened Text

  /** A server-assigned file id. Ids are non-negative integers, so JavaScript
      keeps them as integer-like object keys, iterated in ascending order. */
  type FileId = nat

  /** One file's entry in a progress response. */
  datatype FileProgress = FileProgress(
    indexed: bool,
    status: string,
    progressPercentage: Option<int>,
    timeStarted: Option<string>,
    estimatedCompletionTime: Option<string>,
    completedBatches: Option<int>,
    totalBatches: Option<int>,
    isOcrProcessing: bool,
    ocrCurrentPage: Option<int>,
    ocrTotalPages: Option<int>,
    ocrAvgPageTime: Option<real>,
    fileName: Option<string>)

  /** A progress response: file id to its progress entry. */
  type Snapshot = map<FileId, FileProgress>

  const ProgressEndpoint: string := "/api/user/file/upload-progress"
  const IdParamPrefix: string := "file_ids="
  const FailurePrefix: string := "Failed to fetch file progress: "

  /** The per-file completion test: indexed, or reported as SUCCESS. */
  predicate IsDone(p: FileProgress) {
    p.indexed || p.status == "SUCCESS"
  }

  /** `Object.values(data).every(IsDone)`: true of an empty response. */
  predicate AllDone(data: Snapshot) {
    forall id :: id in data ==> IsDone(data[id])
  }

  function IdParam(id: FileId): string {
    IdParamPrefix + NatToDecimal(id)
  }

  /** The query string: one `file_ids=<id>` per id, in order, joined by '&'. */
  function QueryParams(ids: seq<FileId>): string {
    Join(seq(|ids|, i requires 0 <= i < |ids| => IdParam(ids[i])), '&')
  }

  function QueryUrl(ids: seq<FileId>): string {
    ProgressEndpoint + "?" + QueryParams(ids)
  }

  /** Reads one `file_ids=<digits>` parameter back. */
  function ParseIdParam(part: string): (r: Option<FileId>)
    ensures r.Some? ==> StartsWith(part, IdParamPrefix)
  {
    if StartsWith(part, IdParamPrefix) && |part| > |IdParamPrefix| && AllDigits(part[|IdParamPrefix|..])
    then Some(DecimalValue(part[|IdParamPrefix|..]))
    else None
  }

  function ParseIdParams(parts: seq<string>): (r: Option<seq<FileId>>)
    ensures r.Some? ==> |r.value| == |parts|
  {
    if parts == [] then Some([])
    else
      match (ParseIdParam(parts[0]), ParseIdParams(parts[1..]))
      case (Some(id), Some(ids)) => Some([id] + ids)
      case _ => None
  }

  /** Reads the ids back out of a query string. */
  function ParseQueryParams(q: string): Option<seq<FileId>> {
    ParseIdParams(Split(q, '&'))
  }

  lemma IdParamRoundTrip(id: FileId)
    ensures '&' !in IdParam(id)
    ensures ParseIdParam(IdParam(id)) == Some(id)
  {
    var digits := NatToDecimal(id);
    var p := IdParam(id);
    assert p[|IdParamPrefix|..] == digits && p[..|IdParamPrefix|] == IdParamPrefix;
    forall i | 0 <= i < |p| ensures p[i] != '&' {
      if i >= |IdParamPrefix| { assert p[i] == digits[i - |IdParamPrefix|]; }
    }
    DecimalRoundTrip(id);
  }

  lemma {:induction false} ParseIdParamsOf(ids: seq<FileId>)
    ensures ParseIdParams(seq(|ids|, i requires 0 <= i < |ids| => IdParam(ids[i]))) == Some(ids)
  {
    var parts := seq(|ids|, i requires 0 <= i < |ids| => IdParam(ids[i]));
    if ids != [] {
      IdParamRoundTrip(ids[0]);
      ParseIdParamsOf(ids[1..]);
      assert parts[1..] == seq(|ids[1..]|, i requires 0 <= i < |ids[1..]| => IdParam(ids[1..][i]));
      assert [ids[0]] + ids[1..] == ids;
    }
  }

  /** The query string names exactly the tracked ids, each once, in order. */
  lemma QueryParamsRoundTrip(ids: seq<FileId>)
    requires ids != []
    ensures ParseQueryParams(QueryParams(ids)) == Some(ids)
  {
    var parts := seq(|ids|, i requires 0 <= i < |ids| => IdParam(ids[i]));
    forall i | 0 <= i < |parts| ensures '&' !in parts[i] {
      IdParamRoundTrip(ids[i]);
    }
    SplitJoin(parts, '&');
    ParseIdParamsOf(ids);
  }

  /** Why a query failed. */
  datatype PollFailure =
    | HttpError(status: int, statusText: string, body: string)  // a response that is not ok
    | Thrown(message: string)                                    // an Error from fetch or from parsing the body
    | NonErrorThrown                                             // something other than an Error was thrown

  /** The text stored in `error` for a failed query. */
  function FailureMessage(f: PollFailure): string {
    match f
    case HttpError(status, statusText, body) =>
      FailurePrefix + IntToDecimal(status) + " " + statusText + " - " + body
    case Thrown(message) => message
    case NonErrorThrown => "Unknown error"
  }

  /** The longest prefix of `s` free of spaces. */
  function UpToSpace(s: string): (r: string)
    ensures |r| <= |s| && r == s[..|r|]
  {
    if s == [] || s[0] == ' ' then [] else [s[0]] + UpToSpace(s[1..])
  }

  lemma {:induction false} UpToSpaceOf(w: string, rest: string)
    requires ' ' !in w
    ensures UpToSpace(w + " " + rest) == w
  {
    if w != [] {
      assert (w + " " + rest)[1..] == w[1..] + " " + rest;
      UpToSpaceOf(w[1..], rest);
    } else {
      assert (w + " " + rest)[0] == ' ';
    }
  }

  /** The status code a failure message reports, if it reports one. */
  function StatusOfMessage(msg: string): Option<int> {
    if StartsWith(msg, FailurePrefix) then ParseInt(UpToSpace(msg[|FailurePrefix|..])) else None
  }

  /** The message of a non-ok response carries its status code ... */
  lemma HttpFailureStatus(status: int, statusText: string, body: string)
    ensures StatusOfMessage(FailureMessage(HttpError(status, statusText, body))) == Some(status)
  {
    var code := IntToDecimal(status);
    var msg := FailureMessage(HttpError(status, statusText, body));
    var tail := statusText + " - " + body;
    assert msg == FailurePrefix + (code + " " + tail);
    assert msg[..|FailurePrefix|] == FailurePrefix;
    assert msg[|FailurePrefix|..] == code + " " + tail;
    assert ' ' !in code;
    UpToSpaceOf(code, tail);
    IntRoundTrip(status);
  }

  /** ... followed by its status text and, at the end, the response body. */
  lemma HttpFailureText(status: int, statusText: string, body: string)
    ensures Contains(FailureMessage(HttpError(status, statusText, body)), " " + statusText + " - ")
    ensures EndsWith(FailureMessage(HttpError(status, statusText, body)), " - " + body)
  {
    var pre := FailurePrefix + IntToDecimal(status);
    var mid := " " + statusText + " - ";
    var msg := FailureMessage(HttpError(status, statusText, body));
    AppendAssoc(pre, " ", statusText);
    AppendAssoc(pre, " " + statusText, " - ");
    assert msg == pre + mid + body;
    ConcatMiddle(pre, mid, body);
    assert OccursAt(msg, mid, |pre|);
    AppendAssoc(pre + (" " + statusText), " - ", body);
    ConcatEnd(pre + (" " + statusText), " - " + body);
  }

  class ProgressTracker {
    // The hook's React state.
    var progress: Snapshot
    var isPolling: bool
    var isComplete: bool
    var error: Option<string>
    // The effect's closure: the ids it polls for, whether its interval is
    // armed, every URL it has queried, and how many queries await a response.
    var fileIds: seq<FileId>
    var intervalArmed: bool
    var queries: seq<string>
    var inFlight: nat

    /** An armed interval always has ids to poll for. */
    ghost predicate Valid()
      reads this
    {
      intervalArmed ==> fileIds != []
    }

    /** The hook's initial state: no progress, not polling, not complete, no error. */
    constructor ()
      ensures Valid()
      ensures progress == map[] && !isPolling && !isComplete && error == None
      ensures fileIds == [] && !intervalArmed && queries == [] && inFlight == 0
    {
      progress, isPolling, isComplete, error := map[], false, false, None;
      fileIds, intervalArmed, queries, inFlight := [], false, [], 0;
    }

    /** The effect body. React runs the previous effect's cleanup first, so no
        interval is armed on entry. An empty id list returns at once; otherwise
        the flags are reset, one query is issued and the interval is armed. */
    method Start(ids: seq<FileId>)
      requires Valid() && !intervalArmed
      modifies this
      ensures Valid()
      ensures ids == [] ==> unchanged(this)
      ensures ids != [] ==>
        && isPolling && !isComplete && error == None && progress == old(progress)
        && fileIds == ids && intervalArmed
        && queries == old(queries) + [QueryUrl(ids)] && inFlight == old(inFlight) + 1
    {
      if ids == [] {
        return;
      }
      isPolling := true;
      isComplete := false;
      error := None;
      fileIds := ids;
      // the initial poll
      queries := queries + [QueryUrl(ids)];
      inFlight := inFlight + 1;
      // then the interval
      intervalArmed := true;
    }

    /** One tick of the 3000 ms interval: another query for the same ids,
        whether or not the session has completed or failed. */
    method Tick()
      requires Valid()
      modifies this
      ensures Valid()
      ensures intervalArmed == old(intervalArmed) && fileIds == old(fileIds)
      ensures progress == old(progress) && isPolling == old(isPolling)
      ensures isComplete == old(isComplete) && error == old(error)
      ensures queries == if intervalArmed then old(queries) + [QueryUrl(fileIds)] else old(queries)
      ensures inFlight == if intervalArmed then old(inFlight) + 1 else old(inFlight)
    {
      if intervalArmed {
        queries := queries + [QueryUrl(fileIds)];
        inFlight := inFlight + 1;
      }
    }

    /** A successful response: it replaces the snapshot wholesale; when every
        entry is done (vacuously so for an empty response) polling stops and
        the session is complete, and otherwise both flags stay as they were. */
    method PollOk(data: Snapshot)
      requires Valid() && inFlight > 0
      modifies this
      ensures Valid()
      ensures progress == data && inFlight == old(inFlight) - 1
      ensures AllDone(data) ==> !isPolling && isComplete
      ensures !AllDone(data) ==> isPolling == old(isPolling) && isComplete == old(isComplete)
      ensures error == old(error)
      ensures fileIds == old(fileIds) && intervalArmed == old(intervalArmed) && queries == old(queries)
    {
      inFlight := inFlight - 1;
      progress := data;
      if AllDone(data) {
        isPolling := false;
        isComplete := true;
      }
    }

    /** A failed query: the error is recorded and polling stops, while the
        snapshot, the completion flag and the interval are left alone. */
    method PollFail(failure: PollFailure)
      requires Valid() && inFlight > 0
      modifies this
      ensures Valid()
      ensures error == Some(FailureMessage(failure)) && !isPolling
      ensures inFlight == old(inFlight) - 1
      ensures progress == old(progress) && isComplete == old(isComplete)
      ensures fileIds == old(fileIds) && intervalArmed == old(intervalArmed) && queries == old(queries)
    {
      inFlight := inFlight - 1;
      error := Some(FailureMessage(failure));
      isPolling := false;
    }

    /** The effect's cleanup: the interval is cleared and polling stops.
        Responses already in flight may still arrive afterwards. */
    method Cleanup()
      requires Valid()
      modifies this
      ensures Valid()
      ensures !intervalArmed && !isPolling
      ensures progress == old(progress) && isComplete == old(isComplete) && error == old(error)
      ensures fileIds == old(fileIds) && queries == old(queries) && inFlight == old(inFlight)
    {
      intervalArmed := false;
      isPolling := false;
    }

    /** A change of the hook's `fileIds`: React runs the cleanup of the
        previous effect, if that effect armed one, and then the effect body. */
    method ChangeIds(ids: seq<FileId>)
      requires Valid()
      modifies this
      ensures Valid()
      ensures ids == [] ==>
        && !intervalArmed && progress == old(progress) && isComplete == old(isComplete)
        && error == old(error) && queries == old(queries)
        && fileIds == old(fileIds) && inFlight == old(inFlight)
        && isPolling == (old(isPolling) && !old(intervalArmed))
      ensures ids != [] ==>
        && isPolling && !isComplete && error == None && progress == old(progress)
        && fileIds == ids && intervalArmed && queries == old(queries) + [QueryUrl(ids)]
        && inFlight == old(inFlight) + 1
    {
      if intervalArmed {
        Cleanup();
      }
      Start(ids);
    }
  }

  /** Stopping twice leaves the tracker as stopping once does. */
  method CleanupTwice(t: ProgressTracker)
    requires t.Valid()
    modifies t
    ensures t.Valid() && !t.intervalArmed && !t.isPolling
    ensures t.progress == old(t.progress) && t.isComplete == old(t.isComplete) && t.error == old(t.error)
    ensures t.fileIds == old(t.fileIds) && t.queries == old(t.queries) && t.inFlight == old(t.inFlight)
  {
    t.Cleanup();
    t.Cleanup();
  }
}
