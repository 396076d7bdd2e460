# Media job pipeline — a Dafny model

This project models the job lifecycle of a small media service. A signed-in
user uploads images or videos with `POST /upload`. Each file is saved under a
time-stamped name in the upload directory. A `Job` document is created for it
in the `queued` state, and a `generate-thumbnail` message is added to the
`thumbnail-generation` queue. A worker takes each message and marks the job
`processing`. It then resizes the image, or takes a screenshot of the video,
to a 200×200 PNG next to the input file. It ends by marking the job
`completed` with the thumbnail's URL, or `failed`. `GET /jobs` lists the
requester's jobs, newest first. Two browser pages, the thumbnail dashboard and
the converter, keep a local list of jobs. They fill it from `GET /jobs`,
prepend the jobs an upload reply names, and patch entries when a
`job-completed` or `job-failed` socket event arrives. The server reads its
settings from the process environment.

The model is split into one module per concern:

- `Config` (`config.dfy`): the environment lookup and the settings object,
  with ECMAScript `parseInt` modelled in `Decimal` (`decimal.dfy`).
- `JobSchema` (`job_schema.dfy`): the `Job` schema, its `required` and `enum`
  validators and its defaults, as `Job.create` applies them.
- `JobStore` (`store.dfy`): the job collection and the queue, as classes
  whose methods change them in place. Whether a call to the database or the
  broker succeeds is a parameter.
- `NodePath` (`node_path.dfy`): the parts of Node's POSIX `path` module that
  the worker and the upload route use (`join`, `normalize`, `dirname`,
  `extname`, `basename`).
- `Upload` (`upload.dfy`): the `POST /upload` handler, both as a function of
  the request and as a method that changes the store and the queue and is
  proved equal to that function. It also holds the `GET /jobs` query.
- `Worker` (`worker.dfy`): the queue handler, both as a function of the
  documents and the outcome of each foreign call, and as a method proved
  equal to it.
- `ClientJobs` (`client_jobs.dfy`): what both pages share — the event
  reducers, the list filter, the entries built from an upload reply, the
  status badge, and the page state an upload changes.
- `Dashboard` and `Converter` (`dashboard.dfy`, `converter.dfy`): the
  page-specific filters, completion events and download names.

The clock, the random number, the user id taken from the token, and the
outcome of every awaited foreign call are inputs to the model.

## Model

| member | source | states |
|---|---|---|
| Config.RequireEnv | backend/src/config.ts:3-9 | the value is returned exactly when the variable is set and non-empty; otherwise the error names the variable |
| Config.OptionalEnv | backend/src/config.ts:11-13 | a set variable's value is kept even when empty; an unset one gives the fallback |
| Config.OptionalInt | backend/src/config.ts:15-23 | unset or empty gives the fallback; otherwise `parseInt`'s integer, or an error carrying the name and raw text when it is NaN |
| Config.OptionalIntExamples | backend/src/config.ts:18-20 | `12abc` reads as 12; `abc` is rejected |
| Config.LoadConfig | backend/src/config.ts:25-40 | loading succeeds exactly when the three mandatory variables are non-empty and both ports parse; every field then holds its variable or its default |
| Config.DefaultsWhenUnset | backend/src/config.ts:25-40 | with only the mandatory variables set: `development`, port 3001, origin `*`, Redis port 6379, directory `uploads` |
| Config.InvalidPortReportedFirst | backend/src/config.ts:26-27 | a bad `PORT` is the reported error, whatever else is missing, because it is evaluated first |
| Config.MissingSecretReported | backend/src/config.ts:30 | with an acceptable `PORT`, a missing `JWT_SECRET` is the reported error |
| Decimal.NatToString | backend/src/routes/upload.ts:31 | a number is written as a non-empty run of digits with no leading zero |
| Decimal.DigitsValueOfNatToString | backend/src/routes/upload.ts:31 | reading the written digits back gives the number |
| Decimal.NatToStringInjective | backend/src/routes/upload.ts:47 | different numbers are written differently |
| Decimal.TrimStart | backend/src/config.ts:18 | `parseInt` drops exactly the leading white space |
| Decimal.LeadingDigits | backend/src/config.ts:18 | the longest run of digits that starts the text |
| Decimal.ParseInt | backend/src/config.ts:18 | `Number.parseInt(raw, 10)`: skip leading white space, take one optional sign, read the longest digit run; no digits is NaN (its properties are the `ParseInt…` lemmas below) |
| Decimal.ParseIntDigitPrefix | backend/src/config.ts:18 | digits followed by a non-digit parse as the digits' value |
| Decimal.ParseIntOfNatToString | backend/src/config.ts:18 | a written number followed by non-digits parses back to the number |
| Decimal.ParseIntNaN | backend/src/config.ts:18-19 | NaN exactly when no digit follows the white space and the optional sign |
| Decimal.ParseIntTrailingText | backend/src/config.ts:18 | `12abc` parses as 12 |
| Decimal.ParseIntNoDigits | backend/src/config.ts:18-19 | `abc` and the empty text are NaN |
| JobSchema.ParseStatus | backend/src/models/Job.ts:24-26 | a status is accepted exactly when it is one of the four enum names, and it maps back to that name |
| JobSchema.StatusName | backend/src/models/Job.ts:24-27 | the stored spelling of each of the four statuses (`StatusNameRoundTrip` parses it back) |
| JobSchema.StatusNameRoundTrip | backend/src/models/Job.ts:24-26 | every status's name is accepted as that status |
| JobSchema.Violations | backend/src/models/Job.ts:3-28 | each path is reported exactly when its validator fails: a missing user id, an empty or missing name, path or mime type, a status outside the enum |
| JobSchema.RequiredId | backend/src/models/Job.ts:4-8 | the object-id `userId` is required: only a missing value fails |
| JobSchema.RequiredString | backend/src/models/Job.ts:9-20 | a required string path fails when missing or empty |
| JobSchema.ValidStatus | backend/src/models/Job.ts:24-28 | a missing status passes (it takes the default); a given one must be an enum value |
| JobSchema.CreateJob | backend/src/models/Job.ts:3-30 | the document is built exactly when nothing is violated; it carries the given fields, `queued` when no status is given, and the creation time when none is given |
| JobSchema.DefaultsApply | backend/src/models/Job.ts:27-29 | valid fields without status or date give a `queued` document stamped now |
| JobStore.IdOfInjective | backend/src/routes/upload.ts:38-44 | distinct documents get distinct ids |
| JobStore.ApplyPatch | backend/src/worker.ts:49-52 | the status is set; the thumbnail URL is set only when the update names one; nothing else changes |
| JobStore.Update | backend/src/worker.ts:24 | `findByIdAndUpdate` patches the document with that id, leaves every other one alone, and changes nothing for an unknown id |
| JobStore.NextIdFresh | backend/src/routes/upload.ts:38-44 | the next id is not used by any existing document |
| JobStore.Store.constructor | backend/src/models/Job.ts:32 | the collection starts empty |
| JobStore.Store.Create | backend/src/routes/upload.ts:38-44 | validation failure or a failed call leaves the collection unchanged; otherwise the built document is added under a fresh id, last in creation order |
| JobStore.Store.FindByIdAndUpdate | backend/src/worker.ts:24 | when the call resolves, the collection becomes `Update` of the old one; when it throws, nothing changes |
| JobStore.Queue.constructor | backend/src/queue.ts:11 | a queue created under a name (the route's is `thumbnail-generation`) holds no messages |
| JobStore.Queue.Add | backend/src/routes/upload.ts:46-53 | a resolved add appends the message, with its payload and queue-level id; a failed one changes nothing |
| Worker.CodecFor | backend/src/worker.ts:30-47 | a codec is chosen exactly when the type starts with `image/` or `video/`; `image/` wins and means a 200×200 resize, otherwise one 200x200 screenshot; either reads the uploaded file |
| Worker.OutputFilename | backend/src/worker.ts:27 | `thumb-`, the input's base name without its extension, `.png` (shape proved by `OutputFilenameShape`) |
| Worker.OutputPath | backend/src/worker.ts:28 | the thumbnail name joined onto the input's directory (placed by `OutputNextToInput`) |
| Worker.CodecTarget | backend/src/worker.ts:27-47 | the resize writes `thumb-<stem>.png` inside the input's normalized directory; the screenshot writes that same name into the input's directory |
| Worker.TryCatch | backend/src/worker.ts:26-59 | the codec runs first; the job ends `completed` with `/uploads/<name>` when everything resolves, otherwise `failed` (unchanged if that write throws too); the run rejects only when the catch's write throws |
| Worker.ThumbnailUrl | backend/src/worker.ts:51 | the published URL `/uploads/<name>` of a thumbnail |
| Worker.CompletedPatch | backend/src/worker.ts:49-52 | the `completed` write sets the status and the thumbnail URL |
| Worker.WorkerRun | backend/src/worker.ts:20-61 | a run never adds or removes a document and changes no document but its own job's |
| Worker.WorkerRunCalls | backend/src/worker.ts:24-47 | the processing write is the first call; if it throws, nothing else is called, nothing changes and the run rejects; otherwise the selected codec is the second call, and with no codec selected none runs |
| Worker.WorkerRunSettlement | backend/src/worker.ts:24-59 | the run rejects exactly when the processing write throws, or when the try block fails and the `failed` write throws too; a run that resolves leaves the job `completed` or `failed` |
| Worker.WorkerRunResult | backend/src/worker.ts:26-59 | after a good processing write, a try block that runs through leaves the job `completed` with URL `/uploads/thumb-<stem>.png`; a failure leaves it `failed`, or `processing` if that write throws, with no URL written |
| Worker.MissingJobRun | backend/src/worker.ts:24-59 | a message whose job has no document changes no document, whatever the calls do |
| Worker.CompletedRun | backend/src/worker.ts:24-52 | when every call succeeds the run's only change is the job's status and thumbnail URL |
| Worker.CompletedRunPresent | backend/src/worker.ts:24-52 | the same, for a job whose document exists: the documents after the run are the old ones with that one document rewritten |
| Worker.OutputFilenameShape | backend/src/worker.ts:27 | the thumbnail name is a plain file name with extension `.png` and stem `thumb-` plus the input's stem |
| Worker.ThumbNameShape | backend/src/worker.ts:27 | `thumb-<stem>.png` has stem `thumb-<stem>` and extension `.png` when the stem has no slash |
| Worker.OutputNextToInput | backend/src/worker.ts:28 | the resize output is the thumbnail name directly inside the input's normalized directory |
| Worker.RedeliveryIdempotent | backend/src/worker.ts:24-52 | processing the same message a second time, with every call succeeding, leaves the documents as the first run did |
| Worker.HandleThumbnailJob | backend/src/worker.ts:20-61 | on the store, performs exactly `WorkerRun`: same documents, same calls in order, same settlement |
| Worker.GenerateThumbnail | backend/src/worker.ts:26-59 | on the store, performs exactly `TryCatch` for this job's codec and thumbnail name |
| Worker.SettleJob | backend/src/worker.ts:49-59 | after the codec, on the store: the `completed` write unless the codec threw, then the `failed` write if anything threw; exactly `TryCatch` for that codec call |
| Worker.RunCodec | backend/src/worker.ts:30-47 | the codec call made is `CodecFor`'s, and it throws exactly when that codec's outcome is a throw |
| Upload.Plans | backend/src/routes/upload.ts:27-32 | one save plan per part, in order; a file part is saved at `path.join(uploadDir, "<millis>-<random>-<name>")`, the normalised join |
| Upload.SavedName | backend/src/routes/upload.ts:31 | the saved file name `<millis>-<random>-<name>` from the clock and random readings of that part (`SavedNameEndsWithFilename`, `SavedNamePlain`) |
| Upload.SavePath | backend/src/routes/upload.ts:32 | the saved name joined onto the upload directory (`SavePathNonEmpty`, `SavePathInsideUploadDir`) |
| Upload.Plan | backend/src/routes/upload.ts:28-32 | a field part is skipped; a file part is saved under its name, mime type and save path |
| Upload.NewJobFields | backend/src/routes/upload.ts:38-44 | the fields `Job.create` receives: the requester, the client's name, the save path, the mime type and status `queued`, with no thumbnail and no creation time (`NewJobValidation`) |
| Upload.Step | backend/src/routes/upload.ts:28-61 | a field part changes nothing; a file part sets `hasFiles`; it adds a reply entry with the new id and the client's name unless a call throws, and a throw adds no entry and no message |
| Upload.Run | backend/src/routes/upload.ts:27-62 | the loop over the parts: one `Step` per part, stopping at the first part that throws (`RunNames`, `RunHasFiles`, `RunTracks`) |
| Upload.Ingest | backend/src/routes/upload.ts:18-62 | the handler's effect: `Run` over the plans of the arriving parts (`IngestSkipsFields`, `Request`) |
| Upload.ReplyOf | backend/src/routes/upload.ts:64-68 | a thrown call is an error reply; otherwise no file part gives 400 `No files uploaded`, and files give `Files uploaded` with the entries (`Request`) |
| Upload.NewJobValidation | backend/src/routes/upload.ts:38-44 | the document for a file part is valid exactly when the name, save path and mime type are non-empty, and it is then `queued`, the requester's, carries those fields and has no thumbnail |
| Upload.SavePathNonEmpty | backend/src/routes/upload.ts:32 | the save path is never empty |
| Upload.RunSkipsFields | backend/src/routes/upload.ts:59-61 | the loop's outcome does not depend on non-file fields |
| Upload.IngestSkipsFields | backend/src/routes/upload.ts:27-62 | removing every non-file field from the request gives the same state and reply |
| Upload.RunNames | backend/src/routes/upload.ts:55-58 | when no call throws, the reply entries name all the file parts, in arrival order |
| Upload.RunNamesPrefix | backend/src/routes/upload.ts:55-58 | when a call throws, the reply entries so far name a prefix of the file parts, in order |
| Upload.RunHasFiles | backend/src/routes/upload.ts:28-29 | `hasFiles` ends set exactly when some part is a file; an exception only ever follows a file part |
| Upload.TracksCreated | backend/src/routes/upload.ts:38-44 | adding a document under the next id, before its message, keeps every earlier entry matched to its message and document |
| Upload.TracksEnqueued | backend/src/routes/upload.ts:46-53 | a `queued` document of the requester under the next id, then its message and its reply entry, keep every entry matched; the new message carries that id as payload and queue-level id |
| Upload.StepTracksSaved | backend/src/routes/upload.ts:29-58 | handling one file part keeps reply entries, messages and documents in one-to-one agreement |
| Upload.RunTracks | backend/src/routes/upload.ts:27-62 | the whole loop keeps that agreement |
| Upload.Request | backend/src/routes/upload.ts:18-69 | the reply is 400 `No files uploaded` exactly when no part is a file; a success reply lists one job per file part in order; every listed job has a `queued` document and one message with its id |
| Upload.SavedNameEndsWithFilename | backend/src/routes/upload.ts:31 | the saved name ends with `-` followed by the client's file name |
| Upload.SavePathInsideUploadDir | backend/src/routes/upload.ts:31-32 | a file name without slashes is saved directly inside the normalized upload directory, under the saved name |
| Upload.SavedNamePlain | backend/src/routes/upload.ts:31 | the saved name of a slash-free file name is a plain file name |
| Upload.PostUpload | backend/src/routes/upload.ts:18-69 | on the store and queue, leaves exactly the state of the `Ingest` function and returns its reply |
| Upload.HandlePart | backend/src/routes/upload.ts:27-61 | one part on the store and queue: leaves exactly the state `Step` describes for it, says whether the request goes on, and returns the two loop locals as `Step` updates them |
| Upload.AcceptFile | backend/src/routes/upload.ts:29-58 | for one file part, on the store and queue: exactly one `Step`, and it reports whether every call resolved |
| Upload.UserJobs | backend/src/routes/upload.ts:75 | exactly the requester's documents, each as stored |
| Upload.Insert | backend/src/routes/upload.ts:75 | inserting into a newest-first list keeps it newest-first and adds exactly the one document |
| Upload.NewestFirstCons | backend/src/routes/upload.ts:75 | a document no older than any in a newest-first list can head it |
| Upload.SortNewestFirst | backend/src/routes/upload.ts:75 | the result is newest first and a permutation of the input |
| Upload.ListJobs | backend/src/routes/upload.ts:71-77 | the reply is newest first, is a permutation of the requester's documents in creation order, and holds exactly the requester's documents |
| Upload.ListJobsOnce | backend/src/routes/upload.ts:75 | in a consistent collection no two entries of the reply share an id, so each document is listed once |
| NodePath.StripTrailingSlashes | backend/src/worker.ts:27 | a prefix of the path that keeps everything but its trailing slashes, and does not end in a slash |
| NodePath.AfterLastSlash | backend/src/worker.ts:27 | the position just after the last slash (0 when there is none); no slash follows it |
| NodePath.LastSegment | backend/src/worker.ts:27 | `basename` holds no slash |
| NodePath.LastDot | backend/src/worker.ts:27 | the position of the last dot in a name (-1 when there is none); no dot follows it |
| NodePath.Extname | backend/src/worker.ts:27 | `extname` is empty, or a suffix of the base name that starts with a dot and holds no other dot |
| NodePath.Stem | backend/src/worker.ts:27 | `basename(p, extname(p))` followed by the extension gives the base name back, and holds no slash |
| NodePath.Dirname | backend/src/worker.ts:28 | `dirname` is never empty |
| NodePath.DirnameOfChild | backend/src/worker.ts:28 | the directory of `<dir>/<name>` is `<dir>`, for any directory other than the root and any slash-free name |
| NodePath.Split | backend/src/routes/upload.ts:32 | the segments between slashes: at least one, none holding a slash |
| NodePath.Resolve | backend/src/routes/upload.ts:32 | the segments `normalize` keeps are proper: non-empty, not `.`, and no slash |
| NodePath.Normalize | backend/src/routes/upload.ts:32 | `normalize` is never empty |
| NodePath.Join | backend/src/routes/upload.ts:32 | Node's posix `path.join` of two parts: empty parts are dropped, `.` when both are empty, and the result is normalised (`JoinPlainName`) |
| NodePath.JoinPlainName | backend/src/routes/upload.ts:32 | joining a plain file name onto a directory places it directly inside the normalized directory |
| NodePath.LastSegmentOfPlain | backend/src/worker.ts:27 | the base name of a plain file name is itself |
| NodePath.ExtnameOfPlain | backend/src/worker.ts:27 | the extension of `<s>.<e>` is `.<e>` when `e` has no dot and no slash |
| NodePath.LastSegmentOfInside | backend/src/worker.ts:28 | the base name of a plain name placed inside a directory is that name |
| ClientJobs.UpdateMatching | frontend/app/dashboard/page.tsx:49-53 | the same length; each entry with the event's id is changed and every other entry is kept |
| ClientJobs.OnJobFailed | frontend/app/dashboard/page.tsx:56-60 | the matching entries become `failed` with every other field kept; the others are unchanged |
| ClientJobs.MarkFailed | frontend/app/dashboard/page.tsx:58 | one entry with status `failed` and every other field kept |
| ClientJobs.OnJobFailedIdempotent | frontend/app/dashboard/page.tsx:56-60 | a repeated `job-failed` event changes nothing more |
| ClientJobs.UpdatesCommute | frontend/app/dashboard/page.tsx:47-60 | events for two different jobs give the same list in either order |
| ClientJobs.Filter | frontend/app/dashboard/page.tsx:26 | the result is no longer than the input and every kept entry passes |
| ClientJobs.FilterCounts | frontend/app/dashboard/page.tsx:26 | every passing entry is kept as often as it occurs, and no other entry is kept |
| ClientJobs.FilterConcat | frontend/app/dashboard/page.tsx:26 | filtering keeps the order: the filter of a concatenation is the concatenation of the filters |
| ClientJobs.FilterKeepsAll | frontend/app/dashboard/page.tsx:26 | a list whose entries all pass is unchanged |
| ClientJobs.NewJobs | frontend/app/dashboard/page.tsx:82-88 | one `queued` entry of the page's kind per reply entry, in order, with its id and name |
| ClientJobs.StatusBadge | frontend/app/dashboard/page.tsx:100-107 | `completed`, `processing` and `failed` each get their own badge; every other status gets the outline badge (the same on the converter page) |
| ClientJobs.JobListPage.constructor | frontend/app/dashboard/page.tsx:19-20 | a page starts with no jobs and not uploading |
| ClientJobs.JobListPage.HandleUpload | frontend/app/dashboard/page.tsx:67-98 | with no files nothing changes; otherwise `uploading` is set, then cleared whatever the outcome; the input is emptied; a success puts the new entries before the old ones |
| Dashboard.FetchJobs | frontend/app/dashboard/page.tsx:22-26 | exactly the entries of type `thumbnail` or with no type, each as often as in the reply |
| Dashboard.IsThumbnailJob | frontend/app/dashboard/page.tsx:26 | an entry of type `thumbnail`, or with a falsy (missing or empty) type |
| Dashboard.OnJobCompleted | frontend/app/dashboard/page.tsx:47-54 | the matching entries become `completed` with the event's thumbnail URL; the others are unchanged |
| Dashboard.Completed | frontend/app/dashboard/page.tsx:51 | the entry rewritten as `completed` with the event's thumbnail URL |
| Dashboard.EventsCommute | frontend/app/dashboard/page.tsx:47-60 | a completion and a failure of different jobs commute |
| Dashboard.UploadedJobsShown | frontend/app/dashboard/page.tsx:82-90 | entries added by an upload survive the page's own filter, ahead of the rest |
| Dashboard.DownloadNameShape | frontend/app/dashboard/page.tsx:190 | for an original name without `/`, the download name has extension `.png` and stem `thumb-` plus the original name |
| Dashboard.DownloadName | frontend/app/dashboard/page.tsx:190 | the thumbnail's download name `thumb-<originalName>.png` |
| Converter.FetchJobs | frontend/app/converter/page.tsx:32-35 | exactly the entries of type `conversion`, each as often as in the reply |
| Converter.IsConversionJob | frontend/app/converter/page.tsx:35 | an entry of type `conversion` |
| Converter.OnJobCompleted | frontend/app/converter/page.tsx:51-57 | the matching entries become `completed` with the event's converted URL; the others are unchanged |
| Converter.Converted | frontend/app/converter/page.tsx:54 | the entry rewritten as `completed` with the event's converted URL |
| Converter.EventsCommute | frontend/app/converter/page.tsx:51-63 | a completion and a failure of different jobs commute |
| Converter.UploadedJobsShown | frontend/app/converter/page.tsx:79-86 | entries added by an upload survive the page's own filter, ahead of the rest |
| Converter.FileUrl | frontend/app/converter/page.tsx:150 | a URL exists exactly when the converted URL is truthy, and it is the API base followed by it |
| Converter.ShowsVideo | frontend/app/converter/page.tsx:155-157 | a completed job with a URL ending in `.webm` is previewed as a video (`VideoPreviewIffWebm`) |
| Converter.VideoPreviewIffWebm | frontend/app/converter/page.tsx:155-157 | the preview is a video exactly when the job is completed and its converted URL ends in `.webm` |
| Converter.DownloadExtension | frontend/app/converter/page.tsx:194 | `webp` exactly when the name ends in `.png`, `.jpg` or `.jpeg` in any letter case; otherwise `webm` |
| Converter.HasImageExtension | frontend/app/converter/page.tsx:194 | the name ends in `.png`, `.jpg` or `.jpeg`, ignoring ASCII letter case |
| Converter.FirstDot | frontend/app/converter/page.tsx:195 | the position of the first dot, or the length when there is none |
| Converter.DownloadStem | frontend/app/converter/page.tsx:195 | `split('.')[0]`: the dot-free prefix that ends at the first dot or at the end |
| Converter.DownloadNameShape | frontend/app/converter/page.tsx:194-195 | for an original name without `/`, the download name's extension is the chosen one and its stem is `converted-` plus the text before the first dot |
| Converter.DownloadName | frontend/app/converter/page.tsx:195 | `converted-`, the text before the first dot, `.`, the chosen extension |
| Converter.ExtensionIgnoresCase | frontend/app/converter/page.tsx:194 | `Photo.JPG` downloads as `webp` |
| Converter.ExtensionOtherwiseWebm | frontend/app/converter/page.tsx:194 | `clip.mp4`, and `png` without a dot, download as `webm` |
| Converter.StemStopsAtFirstDot | frontend/app/converter/page.tsx:195 | `a.b.jpeg` gives the stem `a` |

## Left out

- File I/O: streaming a part to disk, creating the upload directory, and serving `/uploads`. The model records only whether saving a part succeeded.
- An explicit `null` field given to `Job.create` is not modelled: a field is either given or left out, and a default applies only to a field left out.
- The image and video codecs (`sharp`, `ffmpeg`): the model records the call the worker makes and whether it succeeds, not the pixels.
- The database, Redis and the queue transport: connections, retries and delivery order are outside the model. Each awaited call's outcome is a parameter.
- The queue's de-duplication of a repeated `jobId` is not modelled: `JobStore.Queue.Add` always appends.
- Document ids are decimal counters given out in creation order. They are not 24-digit hex `ObjectId`s, and casting a malformed user id is not modelled: the requester's id comes from the verified token and is taken as given.
- `Math.round(Math.random() * 1000)` and `Date.now()` are inputs. The model does not bound the random number to 0–1000, and numbers are written in plain decimal.
- `Upload.SavePathInsideUploadDir`: holds only for file names without `/`. The multipart parser's own file-name sanitising is not part of this model.
- `Upload.SortNewestFirst`: documents with equal creation times come out in creation order. The database does not promise any order for such ties.
- Authentication (the `authenticate` pre-validation, login, tokens in local storage, the redirect to `/login`), the server entry point, and the socket server are not part of this model.
- No modelled code emits `job-completed` or `job-failed`. The page handlers are modelled as written, whatever event arrives.
- The converter page posts to `/convert`, which no modelled route defines. Its reply is an `UploadResponse` input, the same as for `/upload`.
- `ClientJobs.NewJobs`: all new entries get one creation time. The page reads the clock once per entry, and the model does not capture that difference.
- Interleaving of socket events with an upload in flight is not modelled. `HandleUpload` runs as one step.
- Rendering: JSX, the thumbnail image URL, alerts, console output, and the blob download itself.
- `Decimal.ParseInt`: results are mathematical integers. Number precision above 2^53 and the distinction of `-0` are not modelled.
- `Converter.VideoPreviewIffWebm`: stated for converted URLs of at least five characters, the length of `.webm`.
- JavaScript strings are UTF-16 code units and are modelled as Dafny characters. The `/i` flag folds ASCII letters only.
- The worker's connection settings (host, port, concurrency) and its console logging.
