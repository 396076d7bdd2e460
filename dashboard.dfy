/**
 * The thumbnail dashboard's pure parts: which entries of `GET /jobs` it
 * shows, how a `job-completed` event changes its entries, and the name a
 * thumbnail is downloaded under. The `job-failed` handler, the entries
 * built on upload and the status badge are shared with the converter page.
 */
module Dashboard {
  import opened Wrappers
  import opened ClientJobs
  import NodePath
  import Worker
  import Upload

  /** The job type this page creates. */
  const Kind := "thumbnail"

  /** The dashboard shows thumbnail jobs and jobs with no (or an empty) type. */
  predicate IsThumbnailJob(j: ClientJob) {
    j.jobType == Some(Kind) || Falsy(j.jobType)
  }

  /** `fetchJobs`: the entries of `GET /jobs` the dashboard keeps, in order. */
  function FetchJobs(data: seq<ClientJob>): (r: seq<ClientJob>)
    ensures forall i :: 0 <= i < |r| ==> IsThumbnailJob(r[i])
    ensures forall j :: multiset(r)[j] == if IsThumbnailJob(j) then multiset(data)[j] else 0
  {
    FilterCounts(data, IsThumbnailJob);
    Filter(data, IsThumbnailJob)
  }

  /**
   * The `job-completed` handler: entries with the event's id become
   * `completed` with the event's thumbnail URL; every other field and every
   * other entry is kept.
   */
  function OnJobCompleted(jobs: seq<ClientJob>, jobId: string, thumbnailUrl: Option<string>): (r: seq<ClientJob>)
    ensures |r| == |jobs|
    ensures forall i :: 0 <= i < |jobs| && jobs[i].id == jobId ==>
      r[i] == jobs[i].(status := "completed", thumbnailUrl := thumbnailUrl)
    ensures forall i :: 0 <= i < |jobs| && jobs[i].id != jobId ==> r[i] == jobs[i]
  {
    UpdateMatching(jobs, jobId, Completed(thumbnailUrl))
  }

  function Completed(thumbnailUrl: Option<string>): ClientJob -> ClientJob
  {
    (j: ClientJob) => j.(status := "completed", thumbnailUrl := thumbnailUrl)
  }

  /** A `job-completed` and a `job-failed` for different jobs can arrive in either order. */
  lemma EventsCommute(jobs: seq<ClientJob>, completedId: string, thumbnailUrl: Option<string>, failedId: string)
    requires completedId != failedId
    ensures OnJobFailed(OnJobCompleted(jobs, completedId, thumbnailUrl), failedId)
         == OnJobCompleted(OnJobFailed(jobs, failedId), completedId, thumbnailUrl)
  {
    UpdatesCommute(jobs, completedId, Completed(thumbnailUrl), failedId, MarkFailed);
  }

  /**
   * Entries added on upload are thumbnail jobs, so fetching the list again
   * shows them, in the same order, ahead of the rest.
   */
  lemma UploadedJobsShown(entries: seq<Upload.CreatedJob>, now: string, jobs: seq<ClientJob>)
    ensures FetchJobs(NewJobs(entries, Kind, now) + jobs) == NewJobs(entries, Kind, now) + FetchJobs(jobs)
  {
    var added := NewJobs(entries, Kind, now);
    FilterConcat(added, jobs, IsThumbnailJob);
    FilterKeepsAll(added, IsThumbnailJob);
  }

  /** The name a thumbnail is downloaded under. */
  function DownloadName(originalName: string): string
  {
    "thumb-" + originalName + ".png"
  }

  /**
   * For a file name without slashes, the download name has extension `.png`
   * and keeps the whole original name, extension included, in its stem.
   */
  lemma DownloadNameShape(originalName: string)
    requires NodePath.NoSlash(originalName)
    ensures NodePath.Extname(DownloadName(originalName)) == ".png"
    ensures NodePath.Stem(DownloadName(originalName)) == "thumb-" + originalName
  {
    Worker.ThumbNameShape(originalName);
  }
}
