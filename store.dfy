/**
 * The two backing services the pipeline talks to, reduced to their state:
 * the job collection (documents keyed by id, in creation order) and the
 * `thumbnail-generation` queue (an append-only sequence of messages). Whether
 * a call to either succeeds is an `Outcome` supplied by the caller, since
 * the database and the broker are outside the model.
 */
module JobStore {
  import opened Wrappers
  import opened JobSchema
  import Decimal

  type JobId = string

  /** Whether an awaited call into a foreign service resolves or throws. */
  datatype Outcome = Succeeds | Throws

  /** The id the store gives its `n`-th document. */
  function IdOf(n: nat): JobId
  {
    Decimal.NatToString(n)
  }

  lemma IdOfInjective(m: nat, n: nat)
    requires IdOf(m) == IdOf(n)
    ensures m == n
  {
    Decimal.NatToStringInjective(m, n);
  }

  /** The fields a `findByIdAndUpdate` sets; an absent thumbnail URL is left as it was. */
  datatype Patch = Patch(status: Status, thumbnailUrl: Option<string>)

  function ApplyPatch(r: JobRecord, p: Patch): (r': JobRecord)
    ensures r'.status == p.status
    ensures r'.thumbnailUrl == if p.thumbnailUrl.Some? then p.thumbnailUrl else r.thumbnailUrl
    ensures r'.(status := r.status, thumbnailUrl := r.thumbnailUrl) == r
  {
    r.(status := p.status, thumbnailUrl := if p.thumbnailUrl.Some? then p.thumbnailUrl else r.thumbnailUrl)
  }

  /** `findByIdAndUpdate` on the documents: the one with that id is patched; an unknown id changes nothing. */
  function Update(records: map<JobId, JobRecord>, id: JobId, p: Patch): (r: map<JobId, JobRecord>)
    ensures r.Keys == records.Keys
    ensures id in records ==> r[id] == ApplyPatch(records[id], p)
    ensures forall k :: k in records && k != id ==> r[k] == records[k]
  {
    if id in records then records[id := ApplyPatch(records[id], p)] else records
  }

  /** The ids are those of the documents created so far, in creation order. */
  ghost predicate Consistent(records: map<JobId, JobRecord>, order: seq<JobId>) {
    && (forall i :: 0 <= i < |order| ==> order[i] == IdOf(i))
    && (forall id :: id in records <==> id in order)
  }

  /** The next id in sequence is not yet used. */
  lemma NextIdFresh(records: map<JobId, JobRecord>, order: seq<JobId>)
    requires Consistent(records, order)
    ensures IdOf(|order|) !in records
  {
    if IdOf(|order|) in records {
      var i :| 0 <= i < |order| && order[i] == IdOf(|order|);
      IdOfInjective(i, |order|);
    }
  }

  /** A document with its id, as queries return it. */
  datatype JobDocument = JobDocument(id: JobId, job: JobRecord)

  datatype CreateError = ValidationFailed(paths: seq<SchemaPath>) | StoreUnavailable

  class Store {
    var records: map<JobId, JobRecord>
    var order: seq<JobId>

    ghost predicate Valid()
      reads this
    {
      Consistent(records, order)
    }

    constructor ()
      ensures Valid() && records == map[] && order == []
    {
      records := map[];
      order := [];
    }

    /**
     * `Job.create(fields)`: the schema builds and validates the document
     * first; a valid one is inserted under a fresh id unless the database
     * call throws.
     */
    method Create(fields: JobFields, now: int, outcome: Outcome) returns (r: Result<JobId, CreateError>)
      requires Valid()
      modifies this
      ensures Valid()
      ensures CreateJob(fields, now).Err? ==>
        r == Err(ValidationFailed(CreateJob(fields, now).error)) && records == old(records) && order == old(order)
      ensures CreateJob(fields, now).Ok? && outcome == Throws ==>
        r == Err(StoreUnavailable) && records == old(records) && order == old(order)
      ensures CreateJob(fields, now).Ok? && outcome == Succeeds ==>
        && r == Ok(IdOf(|old(order)|))
        && r.value !in old(records)
        && records == old(records)[r.value := CreateJob(fields, now).value]
        && order == old(order) + [r.value]
    {
      var built := CreateJob(fields, now);
      if built.Err? {
        return Err(ValidationFailed(built.error));
      }
      if outcome == Throws {
        return Err(StoreUnavailable);
      }
      NextIdFresh(records, order);
      var id := IdOf(|order|);
      records := records[id := built.value];
      order := order + [id];
      r := Ok(id);
    }

    /** `findByIdAndUpdate(id, patch)`: returns whether the call resolved. */
    method FindByIdAndUpdate(id: JobId, p: Patch, outcome: Outcome) returns (resolved: bool)
      requires Valid()
      modifies this
      ensures Valid() && order == old(order)
      ensures resolved <==> outcome == Succeeds
      ensures records == if resolved then Update(old(records), id, p) else old(records)
    {
      resolved := outcome == Succeeds;
      if resolved {
        records := Update(records, id, p);
      }
    }
  }

  /** The payload of a `generate-thumbnail` message. */
  datatype ThumbnailJobData = ThumbnailJobData(jobId: string, userId: string, filePath: string, mimeType: string)

  /** A message as added: its name, its payload and the queue-level `jobId` option. */
  datatype QueueMessage = QueueMessage(name: string, data: ThumbnailJobData, queueJobId: string)

  /** The name the upload route's queue and the worker share. */
  const ThumbnailQueueName := "thumbnail-generation"

  class Queue {
    const name: string
    var messages: seq<QueueMessage>

    /** `new Queue(name, …)`: a named queue holding no messages yet. */
    constructor (name: string)
      ensures this.name == name && messages == []
    {
      this.name := name;
      messages := [];
    }

    /** `queue.add(name, data, { jobId })`: returns whether the call resolved. */
    method Add(name: string, data: ThumbnailJobData, queueJobId: string, outcome: Outcome) returns (resolved: bool)
      modifies this
      ensures resolved <==> outcome == Succeeds
      ensures messages == if resolved then old(messages) + [QueueMessage(name, data, queueJobId)] else old(messages)
    {
      resolved := outcome == Succeeds;
      if resolved {
        messages := messages + [QueueMessage(name, data, queueJobId)];
      }
    }
  }
}
