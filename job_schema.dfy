/**
 * The `Job` document schema: four required string fields, an optional
 * thumbnail URL without a default, a status restricted to four values that
 * defaults to `queued`, and a creation time that defaults to "now".
 */
module JobSchema {
  import opened Wrappers

  datatype Status = Queued | Processing | Completed | Failed

  /** The spelling of a status in the documents and on the wire. */
  function StatusName(s: Status): string
  {
    match s
    case Queued => "queued"
    case Processing => "processing"
    case Completed => "completed"
    case Failed => "failed"
  }

  /** The enum validator: a string names a status exactly when it is one of the four values. */
  function ParseStatus(name: string): (r: Option<Status>)
    ensures r.Some? <==> (name == "queued" || name == "processing" || name == "completed" || name == "failed")
    ensures r.Some? ==> StatusName(r.value) == name
  {
    if name == "queued" then Some(Queued)
    else if name == "processing" then Some(Processing)
    else if name == "completed" then Some(Completed)
    else if name == "failed" then Some(Failed)
    else None
  }

  lemma StatusNameRoundTrip(s: Status)
    ensures ParseStatus(StatusName(s)) == Some(s)
  {
  }

  /** `completed` and `failed` are final: no code path writes another status after them. */
  predicate IsTerminal(s: Status) {
    s == Completed || s == Failed
  }

  /** A stored job document (its `_id` is the key it is stored under). */
  datatype JobRecord = JobRecord(
    userId: string,
    originalName: string,
    filePath: string,
    mimeType: string,
    thumbnailUrl: Option<string>,
    status: Status,
    createdAt: int)

  /** The fields handed to `Job.create`; a field left out is `None` (its default, if any, then applies). */
  datatype JobFields = JobFields(
    userId: Option<string>,
    originalName: Option<string>,
    filePath: Option<string>,
    mimeType: Option<string>,
    thumbnailUrl: Option<string>,
    status: Option<string>,
    createdAt: Option<int>)

  /** The schema paths whose validators can reject a document. */
  datatype SchemaPath = UserIdPath | OriginalNamePath | FilePathPath | MimeTypePath | StatusPath

  /** The `required` validator of a string path also rejects the empty string. */
  predicate RequiredString(v: Option<string>) {
    v.Some? && v.value != ""
  }

  /** `userId` is an object id: `required` rejects only a missing value. */
  predicate RequiredId(v: Option<string>) {
    v.Some?
  }

  /** A given status must be one of the enum values; a missing one takes the default. */
  predicate ValidStatus(v: Option<string>) {
    v.None? || ParseStatus(v.value).Some?
  }

  /** Every validator that fails, in schema order. */
  function Violations(f: JobFields): (v: seq<SchemaPath>)
    ensures UserIdPath in v <==> !RequiredId(f.userId)
    ensures OriginalNamePath in v <==> !RequiredString(f.originalName)
    ensures FilePathPath in v <==> !RequiredString(f.filePath)
    ensures MimeTypePath in v <==> !RequiredString(f.mimeType)
    ensures StatusPath in v <==> !ValidStatus(f.status)
  {
    Failing(RequiredId(f.userId), UserIdPath)
    + Failing(RequiredString(f.originalName), OriginalNamePath)
    + Failing(RequiredString(f.filePath), FilePathPath)
    + Failing(RequiredString(f.mimeType), MimeTypePath)
    + Failing(ValidStatus(f.status), StatusPath)
  }

  /** The path, when its validator fails. */
  function Failing(passes: bool, path: SchemaPath): (v: seq<SchemaPath>)
    ensures forall p :: p in v <==> !passes && p == path
  {
    if passes then [] else [path]
  }

  /**
   * Building and validating a new document: defaults fill `status` and
   * `createdAt`, `thumbnailUrl` stays absent unless given, and a document with
   * any failing validator is rejected with the list of failing paths.
   */
  function CreateJob(f: JobFields, now: int): (r: Result<JobRecord, seq<SchemaPath>>)
    ensures r.Ok? <==> Violations(f) == []
    ensures r.Err? ==> r.error == Violations(f) && r.error != []
    ensures r.Ok? ==>
      && r.value.userId == f.userId.value
      && r.value.originalName == f.originalName.value
      && r.value.filePath == f.filePath.value
      && r.value.mimeType == f.mimeType.value
      && r.value.thumbnailUrl == f.thumbnailUrl
      && StatusName(r.value.status) == (if f.status.None? then "queued" else f.status.value)
      && r.value.createdAt == (if f.createdAt.None? then now else f.createdAt.value)
  {
    var v := Violations(f);
    if v != [] then Err(v)
    else
      Ok(JobRecord(
        f.userId.value, f.originalName.value, f.filePath.value, f.mimeType.value,
        f.thumbnailUrl,
        if f.status.None? then Queued else ParseStatus(f.status.value).value,
        if f.createdAt.None? then now else f.createdAt.value))
  }

  /** Without a status the new document is `queued`; without a time it is stamped "now". */
  lemma DefaultsApply(f: JobFields, now: int)
    requires RequiredId(f.userId) && RequiredString(f.originalName)
    requires RequiredString(f.filePath) && RequiredString(f.mimeType)
    requires f.status.None? && f.createdAt.None?
    ensures CreateJob(f, now).Ok?
    ensures CreateJob(f, now).value.status == Queued
    ensures CreateJob(f, now).value.createdAt == now
  {
  }
}
