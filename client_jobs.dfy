/**
 * What the two job-list pages (the thumbnail dashboard and the converter)
 * share: the job entries they hold, the `map` that applies a socket event to
 * the entries with a given id, the `filter` that picks a page's entries from
 * `GET /jobs`, the entries built from an upload reply, the status badge, and
 * the page state that an upload changes.
 */
module ClientJobs {
  import opened Wrappers
  import Upload

  /**
   * A job as a page holds it. `jobType` is absent for documents that have
   * none; the URL fields are absent until a `job-completed` event sets one.
   */
  datatype ClientJob = ClientJob(
    id: string,
    originalName: string,
    status: string,
    jobType: Option<string>,
    thumbnailUrl: Option<string>,
    convertedUrl: Option<string>,
    createdAt: string)

  /** A JavaScript string value that is falsy: absent, or the empty string. */
  predicate Falsy(v: Option<string>) {
    v.None? || v.value == ""
  }

  /** `jobs.map(job => job._id === jobId ? change(job) : job)` */
  function UpdateMatching(jobs: seq<ClientJob>, jobId: string, change: ClientJob -> ClientJob): (r: seq<ClientJob>)
    ensures |r| == |jobs|
    ensures forall i :: 0 <= i < |jobs| ==> r[i] == if jobs[i].id == jobId then change(jobs[i]) else jobs[i]
  {
    if jobs == [] then []
    else [if jobs[0].id == jobId then change(jobs[0]) else jobs[0]] + UpdateMatching(jobs[1..], jobId, change)
  }

  /** The `job-failed` change: the status becomes `failed`, every other field stays. */
  function MarkFailed(job: ClientJob): ClientJob
  {
    job.(status := "failed")
  }

  /** The `job-failed` handler, the same on both pages. */
  function OnJobFailed(jobs: seq<ClientJob>, jobId: string): (r: seq<ClientJob>)
    ensures |r| == |jobs|
    ensures forall i :: 0 <= i < |jobs| && jobs[i].id == jobId ==> r[i] == jobs[i].(status := "failed")
    ensures forall i :: 0 <= i < |jobs| && jobs[i].id != jobId ==> r[i] == jobs[i]
  {
    UpdateMatching(jobs, jobId, MarkFailed)
  }

  /** A second `job-failed` for the same job changes nothing more. */
  lemma OnJobFailedIdempotent(jobs: seq<ClientJob>, jobId: string)
    ensures OnJobFailed(OnJobFailed(jobs, jobId), jobId) == OnJobFailed(jobs, jobId)
  {
    var once := OnJobFailed(jobs, jobId);
    var twice := OnJobFailed(once, jobId);
    assert |twice| == |once|;
    forall i | 0 <= i < |once| ensures twice[i] == once[i] {
    }
  }

  /** Events for two different jobs can be applied in either order. */
  lemma UpdatesCommute(jobs: seq<ClientJob>, a: string, f: ClientJob -> ClientJob, b: string, g: ClientJob -> ClientJob)
    requires a != b
    requires forall j :: f(j).id == j.id && g(j).id == j.id
    ensures UpdateMatching(UpdateMatching(jobs, a, f), b, g) == UpdateMatching(UpdateMatching(jobs, b, g), a, f)
  {
    var left := UpdateMatching(UpdateMatching(jobs, a, f), b, g);
    var right := UpdateMatching(UpdateMatching(jobs, b, g), a, f);
    forall i | 0 <= i < |jobs| ensures left[i] == right[i] {
      assert UpdateMatching(jobs, a, f)[i].id == jobs[i].id;
      assert UpdateMatching(jobs, b, g)[i].id == jobs[i].id;
    }
  }

  /** `jobs.filter(keep)`: the entries `keep` accepts, each as often as in `jobs`. */
  function Filter(jobs: seq<ClientJob>, keep: ClientJob -> bool): (r: seq<ClientJob>)
    ensures |r| <= |jobs|
    ensures forall i :: 0 <= i < |r| ==> keep(r[i])
  {
    if jobs == [] then []
    else (if keep(jobs[0]) then [jobs[0]] else []) + Filter(jobs[1..], keep)
  }

  /** The filter keeps exactly the accepted entries, each as often as `jobs` holds it. */
  lemma {:induction false} FilterCounts(jobs: seq<ClientJob>, keep: ClientJob -> bool)
    ensures forall j :: multiset(Filter(jobs, keep))[j] == if keep(j) then multiset(jobs)[j] else 0
    decreases |jobs|
  {
    if jobs != [] {
      FilterCounts(jobs[1..], keep);
      assert jobs == [jobs[0]] + jobs[1..];
    }
  }

  /** The filter keeps the order: filtering a concatenation concatenates the filtered parts. */
  lemma {:induction false} FilterConcat(a: seq<ClientJob>, b: seq<ClientJob>, keep: ClientJob -> bool)
    ensures Filter(a + b, keep) == Filter(a, keep) + Filter(b, keep)
    decreases |a|
  {
    if a != [] {
      var head := if keep(a[0]) then [a[0]] else [];
      assert (a + b)[0] == a[0] && (a + b)[1..] == a[1..] + b;
      assert Filter(a + b, keep) == head + Filter(a[1..] + b, keep);
      FilterConcat(a[1..], b, keep);
      assert Filter(a, keep) == head + Filter(a[1..], keep);
      assert head + (Filter(a[1..], keep) + Filter(b, keep)) == (head + Filter(a[1..], keep)) + Filter(b, keep);
    } else {
      assert a + b == b;
    }
  }

  /** A list whose every entry is accepted passes the filter unchanged. */
  lemma {:induction false} FilterKeepsAll(jobs: seq<ClientJob>, keep: ClientJob -> bool)
    requires forall i :: 0 <= i < |jobs| ==> keep(jobs[i])
    ensures Filter(jobs, keep) == jobs
    decreases |jobs|
  {
    if jobs != [] {
      FilterKeepsAll(jobs[1..], keep);
      assert jobs == [jobs[0]] + jobs[1..];
    }
  }

  /** The entries built from an upload reply: one `queued` job of the page's kind per reply entry, in order. */
  function NewJobs(entries: seq<Upload.CreatedJob>, kind: string, now: string): (r: seq<ClientJob>)
    ensures |r| == |entries|
    ensures forall i :: 0 <= i < |entries| ==>
      r[i] == ClientJob(entries[i].jobId, entries[i].originalName, "queued", Some(kind), None, None, now)
  {
    if entries == [] then []
    else [ClientJob(entries[0].jobId, entries[0].originalName, "queued", Some(kind), None, None, now)]
         + NewJobs(entries[1..], kind, now)
  }

  /** The badge variant a status is shown with. */
  datatype Badge = Default | Secondary | Destructive | Outline

  /** `getStatusColor`, identical on both pages. */
  function StatusBadge(status: string): (b: Badge)
    ensures b == Default <==> status == "completed"
    ensures b == Secondary <==> status == "processing"
    ensures b == Destructive <==> status == "failed"
    ensures b == Outline <==> status != "completed" && status != "processing" && status != "failed"
  {
    if status == "completed" then Default
    else if status == "processing" then Secondary
    else if status == "failed" then Destructive
    else Outline
  }

  /** How the upload request ended: the reply's `jobs`, or an exception (any non-2xx reply included). */
  datatype UploadResponse = Accepted(entries: seq<Upload.CreatedJob>) | RequestFailed

  /** A job-list page: its entries, its `uploading` flag and its file input. */
  class JobListPage {
    /** The job type this page creates and shows: `thumbnail` or `conversion`. */
    const kind: string
    var jobs: seq<ClientJob>
    var uploading: bool
    var inputValue: string
    /** Every value `uploading` has been set to, in order. */
    ghost var uploadingHistory: seq<bool>

    constructor (kind: string)
      ensures this.kind == kind && jobs == [] && !uploading && inputValue == "" && uploadingHistory == []
    {
      this.kind := kind;
      jobs := [];
      uploading := false;
      inputValue := "";
      uploadingHistory := [];
    }

    /**
     * `handleUpload` for a selection of `fileCount` files. With none it
     * returns at once. Otherwise `uploading` is set for the request and
     * cleared in the `finally` block whatever the outcome, the file input is
     * emptied, and on success the new entries go before all existing ones,
     * in reply order.
     */
    method HandleUpload(fileCount: nat, response: UploadResponse, now: string)
      modifies this
      ensures fileCount == 0 ==>
        jobs == old(jobs) && uploading == old(uploading) && inputValue == old(inputValue)
        && uploadingHistory == old(uploadingHistory)
      ensures fileCount > 0 ==>
        && uploadingHistory == old(uploadingHistory) + [true, false]
        && !uploading && inputValue == ""
        && jobs == (if response.Accepted? then NewJobs(response.entries, kind, now) else []) + old(jobs)
    {
      if fileCount == 0 {
        return;
      }
      uploading := true;
      uploadingHistory := uploadingHistory + [true];
      match response {
        case Accepted(entries) =>
          jobs := NewJobs(entries, kind, now) + jobs;
        case RequestFailed =>
      }
      uploading := false;
      uploadingHistory := uploadingHistory + [false];
      inputValue := "";
    }
  }
}
