/**
 * The converter page's pure parts: which entries of `GET /jobs` it shows,
 * how a `job-completed` event changes its entries, the URL of a converted
 * file, whether its preview is a video, and the name it is downloaded
 * under.
 */
module Converter {
  import opened Wrappers
  import opened ClientJobs
  import NodePath
  import Upload

  /** The job type this page creates. */
  const Kind := "conversion"

  /** The converter shows conversion jobs only. */
  predicate IsConversionJob(j: ClientJob) {
    j.jobType == Some(Kind)
  }

  /** `fetchJobs`: the entries of `GET /jobs` the converter keeps, in order. */
  function FetchJobs(data: seq<ClientJob>): (r: seq<ClientJob>)
    ensures forall i :: 0 <= i < |r| ==> IsConversionJob(r[i])
    ensures forall j :: multiset(r)[j] == if IsConversionJob(j) then multiset(data)[j] else 0
  {
    FilterCounts(data, IsConversionJob);
    Filter(data, IsConversionJob)
  }

  /**
   * The `job-completed` handler: entries with the event's id become
   * `completed` with the event's converted-file URL; every other field and
   * every other entry is kept.
   */
  function OnJobCompleted(jobs: seq<ClientJob>, jobId: string, convertedUrl: Option<string>): (r: seq<ClientJob>)
    ensures |r| == |jobs|
    ensures forall i :: 0 <= i < |jobs| && jobs[i].id == jobId ==>
      r[i] == jobs[i].(status := "completed", convertedUrl := convertedUrl)
    ensures forall i :: 0 <= i < |jobs| && jobs[i].id != jobId ==> r[i] == jobs[i]
  {
    UpdateMatching(jobs, jobId, Converted(convertedUrl))
  }

  function Converted(convertedUrl: Option<string>): ClientJob -> ClientJob
  {
    (j: ClientJob) => j.(status := "completed", convertedUrl := convertedUrl)
  }

  /** A `job-completed` and a `job-failed` for different jobs can arrive in either order. */
  lemma EventsCommute(jobs: seq<ClientJob>, completedId: string, convertedUrl: Option<string>, failedId: string)
    requires completedId != failedId
    ensures OnJobFailed(OnJobCompleted(jobs, completedId, convertedUrl), failedId)
         == OnJobCompleted(OnJobFailed(jobs, failedId), completedId, convertedUrl)
  {
    UpdatesCommute(jobs, completedId, Converted(convertedUrl), failedId, MarkFailed);
  }

  /**
   * Entries added on upload are conversion jobs, so fetching the list again
   * shows them, in the same order, ahead of the rest.
   */
  lemma UploadedJobsShown(entries: seq<Upload.CreatedJob>, now: string, jobs: seq<ClientJob>)
    ensures FetchJobs(NewJobs(entries, Kind, now) + jobs) == NewJobs(entries, Kind, now) + FetchJobs(jobs)
  {
    var added := NewJobs(entries, Kind, now);
    FilterConcat(added, jobs, IsConversionJob);
    FilterKeepsAll(added, IsConversionJob);
  }

  /** `fileUrl`: the API base URL followed by the converted-file URL, when that URL is present and non-empty. */
  function FileUrl(apiBaseUrl: string, job: ClientJob): (u: Option<string>)
    ensures u.Some? <==> !Falsy(job.convertedUrl)
    ensures u.Some? ==> u.value == apiBaseUrl + job.convertedUrl.value
  {
    if Falsy(job.convertedUrl) then None else Some(apiBaseUrl + job.convertedUrl.value)
  }

  predicate EndsWith(s: string, suffix: string) {
    |suffix| <= |s| && s[|s| - |suffix|..] == suffix
  }

  /** A completed entry with a file URL is previewed as a video when that URL ends with `.webm`, as an image otherwise. */
  predicate ShowsVideo(apiBaseUrl: string, job: ClientJob) {
    job.status == "completed" && FileUrl(apiBaseUrl, job).Some? && EndsWith(FileUrl(apiBaseUrl, job).value, ".webm")
  }

  /**
   * Whether the preview is a video depends on the converted-file URL alone
   * (when that URL is at least as long as `.webm`), not on the base URL.
   */
  lemma VideoPreviewIffWebm(apiBaseUrl: string, job: ClientJob)
    requires job.convertedUrl.Some? && |job.convertedUrl.value| >= 5
    ensures ShowsVideo(apiBaseUrl, job) <==> job.status == "completed" && EndsWith(job.convertedUrl.value, ".webm")
  {
    var url := job.convertedUrl.value;
    var full := apiBaseUrl + url;
    assert full[|full| - 5..] == url[|url| - 5..];
  }

  /** ASCII lower case: the only folding a case-insensitive pattern without the `u` flag applies to these letters. */
  function Lower(c: char): char
  {
    if 'A' <= c <= 'Z' then (c as int + 32) as char else c
  }

  /** `s` ends with the lower-case `suffix`, letters compared ignoring case. */
  predicate EndsWithIgnoringCase(s: string, suffix: string) {
    |suffix| <= |s| && forall i :: 0 <= i < |suffix| ==> Lower(s[|s| - |suffix| + i]) == suffix[i]
  }

  /** The test `/\.(png|jpg|jpeg)$/i` on the original file name. */
  predicate HasImageExtension(name: string) {
    EndsWithIgnoringCase(name, ".png") || EndsWithIgnoringCase(name, ".jpg") || EndsWithIgnoringCase(name, ".jpeg")
  }

  /** The converted file's extension: `webp` for an image name, `webm` for anything else. */
  function DownloadExtension(name: string): (ext: string)
    ensures ext == "webp" <==> HasImageExtension(name)
    ensures ext == "webm" <==> !HasImageExtension(name)
  {
    if HasImageExtension(name) then "webp" else "webm"
  }

  /** The index of the first dot of `s`, or `|s|` when there is none. */
  function FirstDot(s: string): (k: nat)
    ensures k <= |s|
    ensures k < |s| ==> s[k] == '.'
    ensures forall i :: 0 <= i < k ==> s[i] != '.'
  {
    if s == [] || s[0] == '.' then 0 else 1 + FirstDot(s[1..])
  }

  /** `name.split('.')[0]`: the text before the first dot, or the whole name. */
  function DownloadStem(name: string): (stem: string)
    ensures stem <= name
    ensures forall i :: 0 <= i < |stem| ==> stem[i] != '.'
    ensures |stem| < |name| ==> name[|stem|] == '.'
  {
    name[..FirstDot(name)]
  }

  /** The name a converted file is downloaded under. */
  function DownloadName(name: string): string
  {
    "converted-" + DownloadStem(name) + "." + DownloadExtension(name)
  }

  /**
   * For an original name without slashes, the download name's extension is
   * the one chosen above and its stem is `converted-` and the text before
   * the original name's first dot.
   */
  lemma DownloadNameShape(name: string)
    requires NodePath.NoSlash(name)
    ensures NodePath.Extname(DownloadName(name)) == "." + DownloadExtension(name)
    ensures NodePath.Stem(DownloadName(name)) == "converted-" + DownloadStem(name)
  {
    var stem := DownloadStem(name);
    var base := "converted-" + stem;
    var ext := "." + DownloadExtension(name);
    assert NodePath.NoSlash(base) by {
      forall i | 0 <= i < |base| ensures base[i] != '/' {
        if i >= 10 {
          assert base[i] == stem[i - 10] == name[i - 10];
        }
      }
    }
    assert DownloadName(name) == base + ext;
    NodePath.ExtnameOfPlain(base, ext);
  }

  /** The extension test ignores the case of the letters. */
  lemma ExtensionIgnoresCase()
    ensures DownloadExtension("Photo.JPG") == "webp"
  {
    assert EndsWithIgnoringCase("Photo.JPG", ".jpg");
  }

  /** A name with another extension, or with `png` but no dot before it, gets `webm`. */
  lemma ExtensionOtherwiseWebm()
    ensures DownloadExtension("clip.mp4") == "webm"
    ensures DownloadExtension("png") == "webm"
  {
    assert !EndsWithIgnoringCase("clip.mp4", ".png") by { assert Lower("clip.mp4"[5]) != ".png"[1]; }
    assert !EndsWithIgnoringCase("clip.mp4", ".jpg") by { assert Lower("clip.mp4"[5]) != ".jpg"[1]; }
    assert !EndsWithIgnoringCase("clip.mp4", ".jpeg") by { assert Lower("clip.mp4"[4]) != ".jpeg"[1]; }
  }

  /** The stem stops at the first dot, not the last. */
  lemma StemStopsAtFirstDot()
    ensures DownloadStem("a.b.jpeg") == "a"
  {
    assert FirstDot("a.b.jpeg") == 1;
  }
}
