/**
 * The upload routes. `POST /upload` walks the multipart parts in arrival
 * order. For each file part it saves the file under a time-stamped name,
 * creates a `queued` job document, then enqueues a `generate-thumbnail`
 * message keyed by the new document's id, and records one entry for the
 * reply. Other parts are skipped. With no file part at all the reply is a
 * 400; an exception from any awaited call escapes the handler and the
 * framework answers with an error reply. `GET /jobs` lists the requester's
 * documents, newest first.
 *
 * `Ingest` is the handler as a function of the store and queue before the
 * request and of each part with what the outside world did while it was
 * handled; `PostUpload` performs the same loop on the store and the queue
 * and is proved equal to it.
 */
module Upload {
  import opened Wrappers
  import opened JobSchema
  import opened JobStore
  import Decimal
  import NodePath

  /** The name each message is added under. */
  const MessageName := "generate-thumbnail"
  const NoFilesMessage := "No files uploaded"
  const UploadedMessage := "Files uploaded"

  /** One multipart part: a file, or any other form field. */
  datatype Part =
    | FilePart(fieldname: string, filename: string, mimetype: string)
    | FieldPart(fieldname: string, value: string)

  /**
   * What the outside world supplies while one part is handled: the clock and
   * the rounded random number that name the saved file, the clock when the
   * document is created, and whether saving the file, creating the document
   * and enqueueing the message succeed.
   */
  datatype PartEnv = PartEnv(millis: nat, random: nat, createdAt: int, save: Outcome, create: Outcome, enqueue: Outcome)

  /** A part together with what happened while it was handled. */
  datatype Arrival = Arrival(part: Part, env: PartEnv)

  /** One entry of the reply's `jobs` list. */
  datatype CreatedJob = CreatedJob(jobId: JobId, originalName: string)

  /**
   * What the client gets back. `Escaped` is an exception that left the
   * handler; the framework answers it with an error reply whose status
   * depends on the exception.
   */
  datatype Reply =
    | BadRequest(message: string)
    | Uploaded(message: string, jobs: seq<CreatedJob>)
    | Escaped

  /** The name a file is saved under: the time, the random number and the client's file name, joined by dashes. */
  function SavedName(millis: nat, random: nat, filename: string): string
  {
    Decimal.NatToString(millis) + "-" + Decimal.NatToString(random) + "-" + filename
  }

  /** Where a file is saved: its saved name joined onto the upload directory. */
  function SavePath(uploadDir: string, millis: nat, random: nat, filename: string): string
  {
    NodePath.Join(uploadDir, SavedName(millis, random, filename))
  }

  /** The fields handed to `Job.create` for a file part. */
  function NewJobFields(userId: string, filename: string, savePath: string, mimetype: string): JobFields
  {
    JobFields(Some(userId), Some(filename), Some(savePath), Some(mimetype), None, Some("queued"), None)
  }

  /**
   * A part with its save path worked out: a skipped field, or a file part
   * with the client's file name, its mime type, what happened while it was
   * handled and the path it is saved to.
   */
  datatype Planned =
    | Skipped
    | Saved(filename: string, mimetype: string, env: PartEnv, savePath: string)

  function Plan(uploadDir: string, a: Arrival): Planned
  {
    match a.part
    case FieldPart(_, _) => Skipped
    case FilePart(_, filename, mimetype) =>
      Saved(filename, mimetype, a.env, SavePath(uploadDir, a.env.millis, a.env.random, filename))
  }

  function Plans(uploadDir: string, arrivals: seq<Arrival>): (ps: seq<Planned>)
    ensures |ps| == |arrivals|
    ensures forall i :: 0 <= i < |arrivals| ==> ps[i] == Plan(uploadDir, arrivals[i])
  {
    if arrivals == [] then [] else [Plan(uploadDir, arrivals[0])] + Plans(uploadDir, arrivals[1..])
  }

  /** The handler's state between parts: the two services, its two locals, and whether an exception escaped. */
  datatype Progress = Progress(
    records: map<JobId, JobRecord>,
    order: seq<JobId>,
    messages: seq<QueueMessage>,
    jobs: seq<CreatedJob>,
    hasFiles: bool,
    aborted: bool)

  function Start(records: map<JobId, JobRecord>, order: seq<JobId>, messages: seq<QueueMessage>): Progress
  {
    Progress(records, order, messages, [], false, false)
  }

  /**
   * The loop body for one part. A file part sets `hasFiles`, then saves the
   * file, creates the document, adds the message and pushes the reply
   * entry; the first of those calls that throws ends the request.
   */
  function Step(st: Progress, userId: string, p: Planned): (r: Progress)
    requires !st.aborted
    ensures p.Skipped? ==> r == st
    ensures p.Saved? ==> r.hasFiles
    ensures r.aborted ==> p.Saved? && r.jobs == st.jobs && r.messages == st.messages
    ensures p.Saved? && !r.aborted ==> r.jobs == st.jobs + [CreatedJob(IdOf(|st.order|), p.filename)]
  {
    match p
    case Skipped => st
    case Saved(filename, mimetype, env, savePath) =>
      var st := st.(hasFiles := true);
      if env.save == Throws then st.(aborted := true)
      else
        var built := CreateJob(NewJobFields(userId, filename, savePath, mimetype), env.createdAt);
        if built.Err? || env.create == Throws then st.(aborted := true)
        else
          var id := IdOf(|st.order|);
          var st := st.(records := st.records[id := built.value], order := st.order + [id]);
          if env.enqueue == Throws then st.(aborted := true)
          else
            st.(messages := st.messages + [QueueMessage(MessageName, ThumbnailJobData(id, userId, savePath, mimetype), id)],
                jobs := st.jobs + [CreatedJob(id, filename)])
  }

  /** The loop over the parts; it stops at the first exception. */
  function Run(st: Progress, userId: string, plans: seq<Planned>): Progress
    decreases |plans|
  {
    if plans == [] || st.aborted then st
    else Run(Step(st, userId, plans[0]), userId, plans[1..])
  }

  /** The whole loop of `POST /upload`. */
  function Ingest(st: Progress, uploadDir: string, userId: string, arrivals: seq<Arrival>): Progress
  {
    Run(st, userId, Plans(uploadDir, arrivals))
  }

  /** The reply for the state the loop ended in. */
  function ReplyOf(r: Progress): Reply
  {
    if r.aborted then Escaped
    else if !r.hasFiles then BadRequest(NoFilesMessage)
    else Uploaded(UploadedMessage, r.jobs)
  }

  /**
   * The document `Job.create` builds for a file part passes validation
   * exactly when the file name, the save path and the mime type are all
   * non-empty, and it is then `queued`, belongs to the requester and
   * carries the part's name, path and type.
   */
  lemma NewJobValidation(userId: string, filename: string, savePath: string, mimetype: string, now: int)
    ensures var built := CreateJob(NewJobFields(userId, filename, savePath, mimetype), now);
            && (built.Ok? <==> filename != [] && savePath != [] && mimetype != [])
            && (built.Ok? ==>
                  && built.value.status == Queued && built.value.userId == userId
                  && built.value.originalName == filename && built.value.filePath == savePath
                  && built.value.mimeType == mimetype && built.value.thumbnailUrl == None
                  && built.value.createdAt == now)
  {
    var f := NewJobFields(userId, filename, savePath, mimetype);
    assert ParseStatus("queued") == Some(Queued);
    assert ValidStatus(f.status);
  }

  /** The save path is never empty, so `Job.create` rejects a file part only for an empty name or mime type. */
  lemma SavePathNonEmpty(uploadDir: string, millis: nat, random: nat, filename: string)
    ensures SavePath(uploadDir, millis, random, filename) != []
  {
    var name := SavedName(millis, random, filename);
    assert name != [];
  }

  /** The file parts, in arrival order. */
  function FileArrivals(arrivals: seq<Arrival>): (fs: seq<Arrival>)
    ensures |fs| <= |arrivals|
    ensures forall i :: 0 <= i < |fs| ==> fs[i].part.FilePart? && fs[i] in arrivals
  {
    if arrivals == [] then []
    else (if arrivals[0].part.FilePart? then [arrivals[0]] else []) + FileArrivals(arrivals[1..])
  }

  /** The planned parts that are files, in order. */
  function SavedOnly(plans: seq<Planned>): (ps: seq<Planned>)
    ensures forall i :: 0 <= i < |ps| ==> ps[i].Saved?
  {
    if plans == [] then []
    else (if plans[0].Saved? then [plans[0]] else []) + SavedOnly(plans[1..])
  }

  /** The client's file names of the file parts, in arrival order. */
  function FileNames(arrivals: seq<Arrival>): seq<string>
  {
    if arrivals == [] then []
    else (if arrivals[0].part.FilePart? then [arrivals[0].part.filename] else []) + FileNames(arrivals[1..])
  }

  function SavedNames(plans: seq<Planned>): seq<string>
  {
    if plans == [] then []
    else (if plans[0].Saved? then [plans[0].filename] else []) + SavedNames(plans[1..])
  }

  function Names(jobs: seq<CreatedJob>): (names: seq<string>)
    ensures |names| == |jobs|
    ensures forall i :: 0 <= i < |jobs| ==> names[i] == jobs[i].originalName
  {
    if jobs == [] then [] else Names(jobs[..|jobs| - 1]) + [jobs[|jobs| - 1].originalName]
  }

  /** Working out the save paths keeps the file parts and their names. */
  lemma {:induction false} PlansOfFiles(uploadDir: string, arrivals: seq<Arrival>)
    ensures Plans(uploadDir, FileArrivals(arrivals)) == SavedOnly(Plans(uploadDir, arrivals))
    ensures SavedNames(Plans(uploadDir, arrivals)) == FileNames(arrivals)
  {
    if arrivals != [] {
      PlansOfFiles(uploadDir, arrivals[1..]);
      var ps := Plans(uploadDir, arrivals);
      assert ps[1..] == Plans(uploadDir, arrivals[1..]);
      if arrivals[0].part.FilePart? {
        var fs := FileArrivals(arrivals);
        assert fs == [arrivals[0]] + FileArrivals(arrivals[1..]);
        assert fs[1..] == FileArrivals(arrivals[1..]);
      }
    }
  }

  /** Skipped parts change nothing: the loop over the file parts alone ends in the same state. */
  lemma {:induction false} RunSkipsFields(st: Progress, userId: string, plans: seq<Planned>)
    ensures Run(st, userId, plans) == Run(st, userId, SavedOnly(plans))
    decreases |plans|
  {
    if plans != [] && !st.aborted {
      var p := plans[0];
      if p.Saved? {
        RunSkipsFields(Step(st, userId, p), userId, plans[1..]);
        var ss := SavedOnly(plans);
        assert ss == [p] + SavedOnly(plans[1..]);
        assert ss[1..] == SavedOnly(plans[1..]);
      } else {
        RunSkipsFields(st, userId, plans[1..]);
        assert Step(st, userId, p) == st;
        assert Run(st, userId, plans) == Run(st, userId, plans[1..]);
        assert SavedOnly(plans) == [] + SavedOnly(plans[1..]) == SavedOnly(plans[1..]);
      }
    }
  }

  /** Parts other than files change nothing: the request with the file parts alone ends in the same state. */
  lemma IngestSkipsFields(st: Progress, uploadDir: string, userId: string, arrivals: seq<Arrival>)
    ensures Ingest(st, uploadDir, userId, arrivals) == Ingest(st, uploadDir, userId, FileArrivals(arrivals))
  {
    PlansOfFiles(uploadDir, arrivals);
    RunSkipsFields(st, userId, Plans(uploadDir, arrivals));
    RunSkipsFields(st, userId, Plans(uploadDir, FileArrivals(arrivals)));
    SavedOnlyIdempotent(Plans(uploadDir, arrivals));
  }

  lemma {:induction false} SavedOnlyIdempotent(plans: seq<Planned>)
    ensures SavedOnly(SavedOnly(plans)) == SavedOnly(plans)
  {
    if plans != [] {
      SavedOnlyIdempotent(plans[1..]);
      var ss := SavedOnly(plans);
      if plans[0].Saved? {
        assert ss == [plans[0]] + SavedOnly(plans[1..]);
        assert ss != [] && ss[0].Saved? && ss[1..] == SavedOnly(plans[1..]);
        assert SavedOnly(ss) == [ss[0]] + SavedOnly(ss[1..]);
      } else {
        assert ss == [] + SavedOnly(plans[1..]) == SavedOnly(plans[1..]);
      }
    }
  }

  /** When no call throws, the reply entries are the file parts' names, in order. */
  lemma {:induction false} RunNames(st: Progress, userId: string, plans: seq<Planned>)
    requires !st.aborted
    ensures !Run(st, userId, plans).aborted ==> Names(Run(st, userId, plans).jobs) == Names(st.jobs) + SavedNames(plans)
    decreases |plans|, 1
  {
    if plans == [] {
      assert Names(st.jobs) + SavedNames(plans) == Names(st.jobs);
    } else if plans[0].Saved? {
      SavedNamesAll(st, userId, plans);
    } else {
      assert Step(st, userId, plans[0]) == st;
      assert SavedNames(plans) == SavedNames(plans[1..]);
      RunNames(st, userId, plans[1..]);
    }
  }

  /** `RunNames` when the first part is a file. */
  lemma {:induction false} SavedNamesAll(st: Progress, userId: string, plans: seq<Planned>)
    requires !st.aborted && plans != [] && plans[0].Saved?
    ensures !Run(st, userId, plans).aborted ==> Names(Run(st, userId, plans).jobs) == Names(st.jobs) + SavedNames(plans)
    decreases |plans|, 0
  {
    var p := plans[0];
    var next := Step(st, userId, p);
    var before := Names(st.jobs);
    var rest := SavedNames(plans[1..]);
    assert SavedNames(plans) == [p.filename] + rest;
    assert Run(st, userId, plans) == Run(next, userId, plans[1..]);
    if !next.aborted {
      assert Names(next.jobs) == before + [p.filename];
      RunNames(next, userId, plans[1..]);
      Regroup(before, [p.filename], rest);
    }
  }

  lemma Regroup(a: seq<string>, b: seq<string>, c: seq<string>)
    ensures (a + b) + c == a + (b + c)
  {
  }

  /** When a call throws, the reply entries so far are a prefix of the file parts' names. */
  lemma {:induction false} RunNamesPrefix(st: Progress, userId: string, plans: seq<Planned>)
    requires !st.aborted
    ensures Names(Run(st, userId, plans).jobs) <= Names(st.jobs) + SavedNames(plans)
    decreases |plans|, 1
  {
    if plans == [] {
      assert Names(st.jobs) + SavedNames(plans) == Names(st.jobs);
    } else if plans[0].Saved? {
      SavedNamesPrefix(st, userId, plans);
    } else {
      assert Step(st, userId, plans[0]) == st;
      assert SavedNames(plans) == SavedNames(plans[1..]);
      RunNamesPrefix(st, userId, plans[1..]);
    }
  }

  /** `RunNamesPrefix` when the first part is a file. */
  lemma {:induction false} SavedNamesPrefix(st: Progress, userId: string, plans: seq<Planned>)
    requires !st.aborted && plans != [] && plans[0].Saved?
    ensures Names(Run(st, userId, plans).jobs) <= Names(st.jobs) + SavedNames(plans)
    decreases |plans|, 0
  {
    var p := plans[0];
    var next := Step(st, userId, p);
    var before := Names(st.jobs);
    var rest := SavedNames(plans[1..]);
    assert SavedNames(plans) == [p.filename] + rest;
    if next.aborted {
      assert Run(st, userId, plans) == next && next.jobs == st.jobs;
      PrefixOfConcat(before, [p.filename] + rest);
    } else {
      assert Names(next.jobs) == before + [p.filename];
      RunNamesPrefix(next, userId, plans[1..]);
      PrefixRegroup(Names(Run(next, userId, plans[1..]).jobs), before, [p.filename], rest);
    }
  }

  lemma PrefixOfConcat(a: seq<string>, b: seq<string>)
    ensures a <= a + b
  {
    assert (a + b)[..|a|] == a;
  }

  lemma PrefixRegroup(got: seq<string>, a: seq<string>, b: seq<string>, c: seq<string>)
    requires got <= (a + b) + c
    ensures got <= a + (b + c)
  {
    assert (a + b) + c == a + (b + c);
  }

  /**
   * `hasFiles` ends true exactly when some part is a file, and an exception
   * can only come from a file part.
   */
  lemma {:induction false} RunHasFiles(st: Progress, userId: string, plans: seq<Planned>)
    requires !st.aborted
    ensures Run(st, userId, plans).hasFiles <==> st.hasFiles || SavedNames(plans) != []
    ensures Run(st, userId, plans).aborted ==> Run(st, userId, plans).hasFiles
    decreases |plans|
  {
    if plans != [] {
      var next := Step(st, userId, plans[0]);
      if plans[0].Saved? {
        assert SavedNames(plans) != [];
        if !next.aborted {
          RunHasFiles(next, userId, plans[1..]);
        }
      } else {
        assert SavedNames(plans) == SavedNames(plans[1..]);
        RunHasFiles(next, userId, plans[1..]);
      }
    }
  }

  /**
   * What the request adds, relative to the state `init` it started from:
   * the documents already there are untouched, the store stays consistent,
   * and the `i`-th entry of the reply is the `i`-th new message, both keyed
   * by the `i`-th new id, whose document is `queued`, belongs to the
   * requester and carries the file path and mime type the message carries.
   */
  ghost predicate Tracks(init: Progress, st: Progress, userId: string)
  {
    && Consistent(st.records, st.order)
    && (forall id :: id in init.records ==> id in st.records && st.records[id] == init.records[id])
    && |st.messages| == |init.messages| + |st.jobs|
    && st.messages[..|init.messages|] == init.messages
    && (forall i :: 0 <= i < |st.jobs| ==>
          && st.jobs[i].jobId == IdOf(|init.order| + i)
          && st.jobs[i].jobId !in init.records
          && Enqueued(st.records, st.jobs[i], st.messages[|init.messages| + i], userId))
    && (!st.aborted ==> |st.order| == |init.order| + |st.jobs|)
  }

  /** The document of a reply entry exists, is `queued`, and agrees with its message. */
  ghost predicate Enqueued(records: map<JobId, JobRecord>, job: CreatedJob, m: QueueMessage, userId: string)
  {
    && job.jobId in records
    && var rec := records[job.jobId];
       && rec.status == Queued
       && rec.userId == userId
       && rec.originalName == job.originalName
       && m == QueueMessage(MessageName, ThumbnailJobData(job.jobId, userId, rec.filePath, rec.mimeType), job.jobId)
  }

  /** Adding a document under a fresh id keeps every entry's document as it was. */
  lemma EnqueuedKept(records: map<JobId, JobRecord>, id: JobId, rec: JobRecord, job: CreatedJob, m: QueueMessage, userId: string)
    requires Enqueued(records, job, m, userId) && id !in records
    ensures Enqueued(records[id := rec], job, m, userId)
  {
  }

  /** A document created under the next id, with no message after it, keeps the tracking. */
  lemma TracksCreated(init: Progress, st: Progress, userId: string, rec: JobRecord)
    requires Tracks(init, st, userId) && !st.aborted
    ensures var id := IdOf(|st.order|);
            Tracks(init, st.(records := st.records[id := rec], order := st.order + [id], aborted := true), userId)
  {
    var id := IdOf(|st.order|);
    NextIdFresh(st.records, st.order);
    var records := st.records[id := rec];
    assert Consistent(records, st.order + [id]);
    forall i | 0 <= i < |st.jobs|
      ensures Enqueued(records, st.jobs[i], st.messages[|init.messages| + i], userId)
    {
      EnqueuedKept(st.records, id, rec, st.jobs[i], st.messages[|init.messages| + i], userId);
    }
  }

  /** A `queued` document of the requester created under the next id, then its message and its entry, keep the tracking. */
  lemma TracksEnqueued(init: Progress, st: Progress, userId: string, rec: JobRecord, filename: string)
    requires Tracks(init, st, userId) && !st.aborted
    requires rec.status == Queued && rec.userId == userId && rec.originalName == filename
    ensures var id := IdOf(|st.order|);
            var m := QueueMessage(MessageName, ThumbnailJobData(id, userId, rec.filePath, rec.mimeType), id);
            Tracks(init, st.(records := st.records[id := rec], order := st.order + [id],
                             messages := st.messages + [m], jobs := st.jobs + [CreatedJob(id, filename)]), userId)
  {
    var id := IdOf(|st.order|);
    var m := QueueMessage(MessageName, ThumbnailJobData(id, userId, rec.filePath, rec.mimeType), id);
    var job := CreatedJob(id, filename);
    var next := st.(records := st.records[id := rec], order := st.order + [id],
                    messages := st.messages + [m], jobs := st.jobs + [job]);
    TracksCreated(init, st, userId, rec);
    NextIdFresh(st.records, st.order);
    assert next.messages[..|init.messages|] == init.messages;
    forall i | 0 <= i < |next.jobs|
      ensures Enqueued(next.records, next.jobs[i], next.messages[|init.messages| + i], userId)
    {
      if i < |st.jobs| {
        assert next.jobs[i] == st.jobs[i];
        assert next.messages[|init.messages| + i] == st.messages[|init.messages| + i];
        EnqueuedKept(st.records, id, rec, st.jobs[i], st.messages[|init.messages| + i], userId);
      }
    }
  }

  /** One file part keeps the tracking, however far it gets. */
  lemma StepTracksSaved(init: Progress, st: Progress, userId: string, p: Planned)
    requires Tracks(init, st, userId) && !st.aborted && p.Saved?
    ensures Tracks(init, Step(st, userId, p), userId)
  {
    var st' := st.(hasFiles := true);
    var built := CreateJob(NewJobFields(userId, p.filename, p.savePath, p.mimetype), p.env.createdAt);
    if p.env.save == Succeeds && built.Ok? && p.env.create == Succeeds {
      NewJobValidation(userId, p.filename, p.savePath, p.mimetype, p.env.createdAt);
      if p.env.enqueue == Succeeds {
        TracksEnqueued(init, st', userId, built.value, p.filename);
      } else {
        TracksCreated(init, st', userId, built.value);
      }
    }
  }

  lemma {:induction false} RunTracks(init: Progress, st: Progress, userId: string, plans: seq<Planned>)
    requires Tracks(init, st, userId)
    ensures Tracks(init, Run(st, userId, plans), userId)
    decreases |plans|
  {
    if plans != [] && !st.aborted {
      if plans[0].Saved? {
        StepTracksSaved(init, st, userId, plans[0]);
      }
      RunTracks(init, Step(st, userId, plans[0]), userId, plans[1..]);
    }
  }

  /**
   * The request as a whole, from a consistent store. The reply is a 400
   * exactly when no part is a file; a reply that lists jobs lists one per
   * file part, in arrival order, each with the client's file name and a new
   * id. Whatever the reply, every listed job and every message the request
   * added agree one to one: same id as message payload and as queue-level
   * id, and a `queued` document of the requester carrying the message's
   * file path and mime type.
   */
  lemma Request(records: map<JobId, JobRecord>, order: seq<JobId>, messages: seq<QueueMessage>,
                uploadDir: string, userId: string, arrivals: seq<Arrival>)
    requires Consistent(records, order)
    ensures var init := Start(records, order, messages);
            var r := Ingest(init, uploadDir, userId, arrivals);
            && (ReplyOf(r) == BadRequest(NoFilesMessage) <==> FileNames(arrivals) == [])
            && (ReplyOf(r).Uploaded? ==> Names(ReplyOf(r).jobs) == FileNames(arrivals))
            && Tracks(init, r, userId)
  {
    var init := Start(records, order, messages);
    var plans := Plans(uploadDir, arrivals);
    assert Names([]) == [];
    PlansOfFiles(uploadDir, arrivals);
    RunNames(init, userId, plans);
    RunHasFiles(init, userId, plans);
    assert init.messages[..|init.messages|] == init.messages;
    RunTracks(init, init, userId, plans);
  }

  /** The saved name always ends with a dash and the client's file name. */
  lemma SavedNameEndsWithFilename(millis: nat, random: nat, filename: string)
    ensures var s := SavedName(millis, random, filename);
            |s| > |filename| && s[|s| - |filename| - 1..] == "-" + filename
  {
    var s := SavedName(millis, random, filename);
    var head := Decimal.NatToString(millis) + "-" + Decimal.NatToString(random);
    assert s == head + ("-" + filename);
  }

  /**
   * A client file name without slashes is saved directly inside the upload
   * directory, under its saved name.
   */
  lemma SavePathInsideUploadDir(uploadDir: string, millis: nat, random: nat, filename: string)
    requires NodePath.NoSlash(filename)
    ensures SavePath(uploadDir, millis, random, filename) ==
      NodePath.Inside(NodePath.Normalize(uploadDir), SavedName(millis, random, filename))
    ensures NodePath.LastSegment(SavePath(uploadDir, millis, random, filename)) == SavedName(millis, random, filename)
  {
    var name := SavedName(millis, random, filename);
    SavedNamePlain(Decimal.NatToString(millis), Decimal.NatToString(random), filename);
    NodePath.JoinPlainName(uploadDir, name);
    NodePath.LastSegmentOfInside(NodePath.Normalize(uploadDir), name);
  }

  lemma SavedNamePlain(time: string, random: string, filename: string)
    requires Decimal.AllDigits(time) && |time| >= 1
    requires Decimal.AllDigits(random) && NodePath.NoSlash(filename)
    ensures NodePath.PlainName(time + "-" + random + "-" + filename)
  {
    var s := time + "-" + random + "-" + filename;
    assert s[0] == time[0] && Decimal.IsDigit(s[0]);
    forall i | 0 <= i < |s| ensures s[i] != '/' {
      if i < |time| {
        assert s[i] == time[i] && Decimal.IsDigit(time[i]);
      } else if |time| < i < |time| + 1 + |random| {
        assert s[i] == random[i - |time| - 1] && Decimal.IsDigit(random[i - |time| - 1]);
      } else if i >= |time| + |random| + 2 {
        assert s[i] == filename[i - |time| - |random| - 2];
      }
    }
  }

  /**
   * `POST /upload`, step by step on the store and the queue. It returns the
   * reply the framework sends.
   */
  method PostUpload(store: Store, queue: Queue, uploadDir: string, userId: string, arrivals: seq<Arrival>)
    returns (reply: Reply)
    requires store.Valid()
    modifies store, queue
    ensures store.Valid()
    ensures var r := Ingest(Start(old(store.records), old(store.order), old(queue.messages)), uploadDir, userId, arrivals);
            && store.records == r.records && store.order == r.order && queue.messages == r.messages
            && reply == ReplyOf(r)
  {
    ghost var init := Start(store.records, store.order, queue.messages);
    ghost var plans := Plans(uploadDir, arrivals);
    var jobsCreated: seq<CreatedJob> := [];
    var hasFiles := false;
    var i := 0;
    while i < |arrivals|
      invariant 0 <= i <= |arrivals|
      invariant store.Valid()
      invariant Run(Progress(store.records, store.order, queue.messages, jobsCreated, hasFiles, false), userId, plans[i..])
                == Run(init, userId, plans)
    {
      ghost var cur := Progress(store.records, store.order, queue.messages, jobsCreated, hasFiles, false);
      assert plans[i..] != [] && plans[i..][0] == Plan(uploadDir, arrivals[i]) && plans[i..][1..] == plans[i + 1..];
      RunFirst(cur, userId, plans[i..]);
      var ok;
      ok, jobsCreated, hasFiles := HandlePart(store, queue, uploadDir, userId, arrivals[i], jobsCreated, hasFiles);
      if !ok {
        RunAborted(Step(cur, userId, Plan(uploadDir, arrivals[i])), userId, plans[i + 1..]);
        return Escaped;
      }
      i := i + 1;
    }
    assert plans[i..] == [];
    if !hasFiles {
      return BadRequest(NoFilesMessage);
    }
    return Uploaded(UploadedMessage, jobsCreated);
  }

  /** The loop runs its first step, then the rest. */
  lemma RunFirst(st: Progress, userId: string, plans: seq<Planned>)
    requires plans != [] && !st.aborted
    ensures Run(st, userId, plans) == Run(Step(st, userId, plans[0]), userId, plans[1..])
  {
  }

  /** Once an exception has escaped, the remaining parts are not read. */
  lemma RunAborted(st: Progress, userId: string, plans: seq<Planned>)
    requires st.aborted
    ensures Run(st, userId, plans) == st
  {
  }

  /**
   * The loop body, on the store and the queue: a file part is handed to
   * `AcceptFile`, any other part is skipped. It returns whether the request
   * goes on, and the handler's two locals as they stand after the part.
   */
  method HandlePart(store: Store, queue: Queue, uploadDir: string, userId: string, a: Arrival,
                    jobs: seq<CreatedJob>, hasFiles: bool)
    returns (ok: bool, jobs': seq<CreatedJob>, hasFiles': bool)
    requires store.Valid()
    modifies store, queue
    ensures store.Valid()
    ensures var r := Step(Progress(old(store.records), old(store.order), old(queue.messages), jobs, hasFiles, false),
                          userId, Plan(uploadDir, a));
            && store.records == r.records && store.order == r.order && queue.messages == r.messages
            && (ok <==> !r.aborted) && jobs' == r.jobs && hasFiles' == r.hasFiles
  {
    ok, jobs', hasFiles' := true, jobs, hasFiles;
    match a.part {
      case FieldPart(_, _) =>
      case FilePart(_, filename, mimetype) =>
        var savePath := SavePath(uploadDir, a.env.millis, a.env.random, filename);
        var job;
        ok, job := AcceptFile(store, queue, userId, filename, mimetype, a.env, savePath, jobs, hasFiles);
        hasFiles' := true;
        if ok {
          jobs' := jobs + [job];
        }
    }
  }

  /**
   * The loop body for a file part, on the store and the queue: save the
   * file, create the document, add the message. It returns whether all
   * three calls resolved and the reply entry to push. `jobs` and
   * `hasFiles` are the handler's locals, which it does not touch.
   */
  method AcceptFile(store: Store, queue: Queue, userId: string, filename: string, mimetype: string,
                    env: PartEnv, savePath: string, ghost jobs: seq<CreatedJob>, ghost hasFiles: bool)
    returns (ok: bool, job: CreatedJob)
    requires store.Valid()
    modifies store, queue
    ensures store.Valid()
    ensures var r := Step(Progress(old(store.records), old(store.order), old(queue.messages), jobs, hasFiles, false),
                          userId, Saved(filename, mimetype, env, savePath));
            && store.records == r.records && store.order == r.order && queue.messages == r.messages
            && (ok <==> !r.aborted) && (ok ==> r.jobs == jobs + [job])
  {
    ok := false;
    job := CreatedJob([], filename);
    if env.save == Throws {
      return;
    }
    var created := store.Create(NewJobFields(userId, filename, savePath, mimetype), env.createdAt, env.create);
    if created.Err? {
      return;
    }
    var id := created.value;
    var added := queue.Add(MessageName, ThumbnailJobData(id, userId, savePath, mimetype), id, env.enqueue);
    if !added {
      return;
    }
    ok := true;
    job := CreatedJob(id, filename);
  }

  /** `GET /jobs`: the requester's documents, newest first. */
  predicate NewestFirst(docs: seq<JobDocument>) {
    forall i, j :: 0 <= i < j < |docs| ==> docs[i].job.createdAt >= docs[j].job.createdAt
  }

  /** The documents of `userId`, in creation order. */
  function UserJobs(records: map<JobId, JobRecord>, order: seq<JobId>, userId: string): (docs: seq<JobDocument>)
    ensures forall d :: d in docs ==> d.id in records && records[d.id] == d.job && d.job.userId == userId
    ensures forall id :: id in order && id in records && records[id].userId == userId ==>
              JobDocument(id, records[id]) in docs
  {
    if order == [] then []
    else
      var id := order[0];
      (if id in records && records[id].userId == userId then [JobDocument(id, records[id])] else [])
      + UserJobs(records, order[1..], userId)
  }

  /** `d` placed before the first document no newer than it. */
  function Insert(d: JobDocument, sorted: seq<JobDocument>): (r: seq<JobDocument>)
    requires NewestFirst(sorted)
    ensures NewestFirst(r)
    ensures multiset(r) == multiset(sorted) + multiset{d}
  {
    if sorted == [] || sorted[0].job.createdAt <= d.job.createdAt then [d] + sorted
    else
      var rest := Insert(d, sorted[1..]);
      NoNewerThanHead(sorted, d, rest);
      NewestFirstCons(sorted[0], rest);
      assert sorted == [sorted[0]] + sorted[1..];
      [sorted[0]] + rest
  }

  /** A document no older than every one of a newest-first list can go in front of it. */
  lemma NewestFirstCons(x: JobDocument, rest: seq<JobDocument>)
    requires NewestFirst(rest)
    requires forall i :: 0 <= i < |rest| ==> rest[i].job.createdAt <= x.job.createdAt
    ensures NewestFirst([x] + rest)
  {
    var r := [x] + rest;
    forall i, j | 0 <= i < j < |r| ensures r[i].job.createdAt >= r[j].job.createdAt {
      if i == 0 {
        assert r[j] == rest[j - 1];
      } else {
        assert r[i] == rest[i - 1] && r[j] == rest[j - 1];
      }
    }
  }

  /** What a newest-first list holds after its head, plus an older `d`, is no newer than the head. */
  lemma NoNewerThanHead(sorted: seq<JobDocument>, d: JobDocument, rest: seq<JobDocument>)
    requires sorted != [] && NewestFirst(sorted) && d.job.createdAt < sorted[0].job.createdAt
    requires multiset(rest) == multiset(sorted[1..]) + multiset{d}
    ensures forall i :: 0 <= i < |rest| ==> rest[i].job.createdAt <= sorted[0].job.createdAt
  {
    forall i | 0 <= i < |rest| ensures rest[i].job.createdAt <= sorted[0].job.createdAt {
      var x := rest[i];
      assert x in multiset(rest);
      if x != d {
        assert x in multiset(sorted[1..]);
        var k :| 0 <= k < |sorted[1..]| && sorted[1..][k] == x;
        assert sorted[k + 1] == x;
      }
    }
  }

  /** A stable insertion sort, newest first. */
  function SortNewestFirst(docs: seq<JobDocument>): (r: seq<JobDocument>)
    ensures NewestFirst(r)
    ensures multiset(r) == multiset(docs)
  {
    if docs == [] then []
    else
      assert docs == [docs[0]] + docs[1..];
      Insert(docs[0], SortNewestFirst(docs[1..]))
  }

  /**
   * The reply of `GET /jobs`: exactly the requester's documents (each once
   * per creation), ordered by creation time, newest first.
   */
  function ListJobs(records: map<JobId, JobRecord>, order: seq<JobId>, userId: string): (r: seq<JobDocument>)
    ensures NewestFirst(r)
    ensures multiset(r) == multiset(UserJobs(records, order, userId))
    ensures forall d :: d in r ==> d.id in records && records[d.id] == d.job && d.job.userId == userId
    ensures forall id :: id in order && id in records && records[id].userId == userId ==>
              JobDocument(id, records[id]) in r
  {
    var docs := UserJobs(records, order, userId);
    var r := SortNewestFirst(docs);
    assert forall d :: d in r <==> d in docs by {
      forall d ensures d in r <==> d in docs {
        assert d in r <==> d in multiset(r);
        assert d in docs <==> d in multiset(docs);
      }
    }
    r
  }

  /**
   * In a consistent collection every document has its own id, so the reply
   * lists each of the requester's documents exactly once.
   */
  lemma ListJobsOnce(records: map<JobId, JobRecord>, order: seq<JobId>, userId: string)
    requires Consistent(records, order)
    ensures var r := ListJobs(records, order, userId);
            forall i, j :: 0 <= i < j < |r| ==> r[i].id != r[j].id
  {
    forall i, j | 0 <= i < j < |order| ensures order[i] != order[j] {
      IdsDiffer(i, j);
    }
    UserJobsOnce(records, order, userId);
    DistinctIds(records, ListJobs(records, order, userId));
  }

  lemma IdsDiffer(i: nat, j: nat)
    requires i != j
    ensures IdOf(i) != IdOf(j)
  {
    if IdOf(i) == IdOf(j) {
      IdOfInjective(i, j);
    }
  }

  /** Over ids that do not repeat, no document is collected twice. */
  lemma {:induction false} UserJobsOnce(records: map<JobId, JobRecord>, order: seq<JobId>, userId: string)
    requires forall i, j :: 0 <= i < j < |order| ==> order[i] != order[j]
    ensures forall d :: multiset(UserJobs(records, order, userId))[d] <= 1
    decreases |order|
  {
    if order != [] {
      var rest := UserJobs(records, order[1..], userId);
      UserJobsOnce(records, order[1..], userId);
      UserJobsFrom(records, order[1..], userId);
      forall d | d in rest ensures d.id != order[0] {
        var k :| 0 <= k < |order[1..]| && order[1..][k] == d.id;
        assert order[k + 1] == d.id;
      }
    }
  }

  /** Every collected document's id comes from `order`. */
  lemma {:induction false} UserJobsFrom(records: map<JobId, JobRecord>, order: seq<JobId>, userId: string)
    ensures forall d :: d in UserJobs(records, order, userId) ==> d.id in order
    decreases |order|
  {
    if order != [] {
      UserJobsFrom(records, order[1..], userId);
    }
  }

  /** Documents read from one collection, none counted twice, have distinct ids. */
  lemma DistinctIds(records: map<JobId, JobRecord>, r: seq<JobDocument>)
    requires forall d :: multiset(r)[d] <= 1
    requires forall d :: d in r ==> d.id in records && records[d.id] == d.job
    ensures forall i, j :: 0 <= i < j < |r| ==> r[i].id != r[j].id
  {
    forall i, j | 0 <= i < j < |r| ensures r[i].id != r[j].id {
      CountedTwice(r, i, j);
    }
  }

  /** The same document at two positions counts at least twice. */
  lemma CountedTwice<T>(r: seq<T>, i: nat, j: nat)
    requires i < j < |r|
    ensures r[i] == r[j] ==> multiset(r)[r[i]] >= 2
  {
    assert r == r[..j] + r[j..];
    assert r[..j][i] == r[i] && r[j..][0] == r[j];
    assert multiset(r) == multiset(r[..j]) + multiset(r[j..]);
  }
}
