/**
 * The `thumbnail-generation` worker's handler. For one message it marks the
 * job `processing` (outside the `try`), derives the thumbnail's name and
 * path from the input path, runs the image or video codec chosen by the
 * mime-type prefix, and ends by marking the job `completed` with its
 * thumbnail URL or, when anything inside the `try` throws, `failed`.
 *
 * `WorkerRun` is the handler as a function of the documents before the run,
 * the message and the outcome of each foreign call; `HandleThumbnailJob`
 * performs the same steps on the store and is proved equal to it.
 */
module Worker {
  import opened Wrappers
  import opened JobSchema
  import opened JobStore
  import NodePath

  /** Both codecs are asked for a 200 by 200 thumbnail. */
  const ThumbnailSide := 200
  const ThumbnailSize := "200x200"

  /** The foreign codec call the handler makes. */
  datatype CodecCall =
    | Resize(input: string, width: nat, height: nat, output: string)
    | Screenshot(input: string, count: nat, folder: string, filename: string, size: string)

  /** One foreign call, in the order the handler makes them, with how it ended. */
  datatype Effect =
    | StoreWrite(id: JobId, patch: Patch, outcome: Outcome)
    | CodecRun(call: CodecCall, outcome: Outcome)

  /** How each awaited call of one run ends: the three status writes and the codec. */
  datatype Outcomes = Outcomes(markProcessing: Outcome, codec: Outcome, markCompleted: Outcome, markFailed: Outcome)

  /** The handler's promise: it resolves, or rejects with the exception that escaped it. */
  datatype Settled = Fulfilled | Rejected

  datatype Run = Run(records: map<JobId, JobRecord>, effects: seq<Effect>, settled: Settled)

  const ProcessingPatch := Patch(Processing, None)
  const FailedPatch := Patch(Failed, None)

  function CompletedPatch(outputFilename: string): Patch
  {
    Patch(Completed, Some(ThumbnailUrl(outputFilename)))
  }

  /** The URL under which the server publishes a thumbnail file. */
  function ThumbnailUrl(outputFilename: string): string
  {
    "/uploads/" + outputFilename
  }

  predicate StartsWith(s: string, prefix: string) {
    |prefix| <= |s| && s[..|prefix|] == prefix
  }

  /** The thumbnail's file name: `thumb-`, the input's base name without its extension, `.png`. */
  function OutputFilename(filePath: string): string
  {
    "thumb-" + NodePath.Stem(filePath) + ".png"
  }

  /** Where the resize writes: the thumbnail name joined onto the input's directory. */
  function OutputPath(filePath: string): string
  {
    NodePath.Join(NodePath.Dirname(filePath), OutputFilename(filePath))
  }

  /** Whether the mime type selects a codec at all. */
  predicate HasCodec(mimeType: string) {
    StartsWith(mimeType, "image/") || StartsWith(mimeType, "video/")
  }

  /** The codec the mime type selects: `image/` first, then `video/`, otherwise none. */
  function CodecFor(filePath: string, mimeType: string): (c: Option<CodecCall>)
    ensures c.Some? <==> HasCodec(mimeType)
    ensures c.Some? ==> c.value.input == filePath
    ensures c.Some? && c.value.Resize? <==> StartsWith(mimeType, "image/")
    ensures c.Some? && c.value.Resize? ==> c.value.width == ThumbnailSide && c.value.height == ThumbnailSide
    ensures c.Some? && c.value.Screenshot? ==> c.value.count == 1 && c.value.size == ThumbnailSize
  {
    if StartsWith(mimeType, "image/") then
      Some(Resize(filePath, ThumbnailSide, ThumbnailSide, OutputPath(filePath)))
    else if StartsWith(mimeType, "video/") then
      Some(Screenshot(filePath, 1, NodePath.Dirname(filePath), OutputFilename(filePath), ThumbnailSize))
    else None
  }

  /** Whether the `try` block got past the codec: no codec was needed, or it succeeded. */
  predicate CodecPassed(data: ThumbnailJobData, o: Outcomes) {
    !HasCodec(data.mimeType) || o.codec == Succeeds
  }

  /** Whether the `try` block ran to its end without throwing. */
  predicate TryCompleted(data: ThumbnailJobData, o: Outcomes) {
    CodecPassed(data, o) && o.markCompleted == Succeeds
  }

  predicate NoCodecRun(effects: seq<Effect>) {
    forall i :: 0 <= i < |effects| ==> !effects[i].CodecRun?
  }

  /** Whether a `try` block with this codec call (if any) ran to its end. */
  predicate TryRanThrough(call: Option<CodecCall>, o: Outcomes) {
    (call.None? || o.codec == Succeeds) && o.markCompleted == Succeeds
  }

  /**
   * The `try` and `catch` blocks, on the documents as the processing write
   * left them, for the codec call `call` and the thumbnail name `name`.
   */
  function TryCatch(records: map<JobId, JobRecord>, id: JobId, call: Option<CodecCall>, name: string, o: Outcomes): (run: Run)
    ensures run.records.Keys == records.Keys
    ensures forall k :: k in records && k != id ==> run.records[k] == records[k]
    ensures call.Some? ==> run.effects != [] && run.effects[0] == CodecRun(call.value, o.codec)
    ensures call.None? ==> NoCodecRun(run.effects)
    ensures run.settled == Rejected <==> !TryRanThrough(call, o) && o.markFailed == Throws
    ensures id in records && TryRanThrough(call, o) ==>
      run.records[id] == records[id].(status := Completed, thumbnailUrl := Some(ThumbnailUrl(name)))
    ensures id in records && !TryRanThrough(call, o) ==>
      run.records[id] == (if o.markFailed == Succeeds then records[id].(status := Failed) else records[id])
  {
    var ran := if call.Some? then [CodecRun(call.value, o.codec)] else [];
    if TryRanThrough(call, o) then
      Run(Update(records, id, CompletedPatch(name)), ran + [StoreWrite(id, CompletedPatch(name), Succeeds)], Fulfilled)
    else
      var attempted := if call.None? || o.codec == Succeeds then [StoreWrite(id, CompletedPatch(name), Throws)] else [];
      var last := StoreWrite(id, FailedPatch, o.markFailed);
      if o.markFailed == Succeeds then
        Run(Update(records, id, FailedPatch), ran + attempted + [last], Fulfilled)
      else
        Run(records, ran + attempted + [last], Rejected)
  }

  /**
   * One run of the handler. The `processing` write comes first and is not
   * guarded: when it throws the run rejects having changed nothing. Inside
   * the `try`, the codec (if any) and the `completed` write run in turn; the
   * first of them to throw sends the run to the `catch`, whose `failed` write
   * decides whether the run resolves or rejects.
   */
  function WorkerRun(records: map<JobId, JobRecord>, data: ThumbnailJobData, o: Outcomes): (run: Run)
    // Only this job's document can change.
    ensures run.records.Keys == records.Keys
    ensures forall k :: k in records && k != data.jobId ==> run.records[k] == records[k]
  {
    var id := data.jobId;
    var first := StoreWrite(id, ProcessingPatch, o.markProcessing);
    if o.markProcessing == Throws then
      Run(records, [first], Rejected)
    else
      var rest := TryCatch(Update(records, id, ProcessingPatch), id,
                           CodecFor(data.filePath, data.mimeType), OutputFilename(data.filePath), o);
      Run(rest.records, [first] + rest.effects, rest.settled)
  }

  /**
   * The calls a run makes: the processing write always comes first; when it
   * throws nothing else is called and nothing changes; otherwise the codec
   * the mime type selects, if any, is the very next call.
   */
  lemma WorkerRunCalls(records: map<JobId, JobRecord>, data: ThumbnailJobData, o: Outcomes)
    ensures var run := WorkerRun(records, data, o);
            && run.effects != [] && run.effects[0] == StoreWrite(data.jobId, ProcessingPatch, o.markProcessing)
            && (o.markProcessing == Throws ==>
                  run == Run(records, [StoreWrite(data.jobId, ProcessingPatch, Throws)], Rejected))
            && (o.markProcessing == Succeeds && HasCodec(data.mimeType) ==>
                  |run.effects| >= 2 && run.effects[1] == CodecRun(CodecFor(data.filePath, data.mimeType).value, o.codec))
            && (o.markProcessing == Throws || !HasCodec(data.mimeType) ==> NoCodecRun(run.effects))
  {
    var first := StoreWrite(data.jobId, ProcessingPatch, o.markProcessing);
    if o.markProcessing == Succeeds {
      var rest := TryCatch(Update(records, data.jobId, ProcessingPatch), data.jobId,
                           CodecFor(data.filePath, data.mimeType), OutputFilename(data.filePath), o);
      assert WorkerRun(records, data, o).effects == [first] + rest.effects;
      if HasCodec(data.mimeType) {
        assert ([first] + rest.effects)[1] == rest.effects[0];
      } else {
        NoCodecRunCons(first, rest.effects);
      }
    } else {
      NoCodecRunCons(first, []);
    }
  }

  lemma NoCodecRunCons(first: Effect, rest: seq<Effect>)
    requires !first.CodecRun? && NoCodecRun(rest)
    ensures NoCodecRun([first] + rest)
  {
    forall i | 0 <= i < |[first] + rest| ensures !([first] + rest)[i].CodecRun? {
      if i > 0 {
        assert ([first] + rest)[i] == rest[i - 1];
      }
    }
  }

  /**
   * The run rejects only when the first write or the catch's write throws,
   * and a run that resolves leaves the job in a terminal status.
   */
  lemma WorkerRunSettlement(records: map<JobId, JobRecord>, data: ThumbnailJobData, o: Outcomes)
    ensures var run := WorkerRun(records, data, o);
            && (run.settled == Rejected <==>
                  o.markProcessing == Throws || (!TryCompleted(data, o) && o.markFailed == Throws))
            && (run.settled == Fulfilled && data.jobId in records ==> IsTerminal(run.records[data.jobId].status))
  {
    if o.markProcessing == Succeeds {
      assert CodecFor(data.filePath, data.mimeType).Some? <==> HasCodec(data.mimeType);
    }
  }

  /**
   * When the try block runs to its end the job is completed with its
   * thumbnail URL; a failure inside it leaves `failed` (or `processing`, if
   * that write throws too) and writes no thumbnail URL.
   */
  lemma WorkerRunResult(records: map<JobId, JobRecord>, data: ThumbnailJobData, o: Outcomes)
    requires data.jobId in records && o.markProcessing == Succeeds
    ensures var run := WorkerRun(records, data, o);
            && (TryCompleted(data, o) ==>
                  run.records[data.jobId] ==
                    records[data.jobId].(status := Completed, thumbnailUrl := Some(ThumbnailUrl(OutputFilename(data.filePath)))))
            && (!TryCompleted(data, o) ==>
                  run.records[data.jobId] ==
                    records[data.jobId].(status := if o.markFailed == Succeeds then Failed else Processing))
  {
    assert CodecFor(data.filePath, data.mimeType).Some? <==> HasCodec(data.mimeType);
  }

  /**
   * The thumbnail's name is a single plain file name whose extension is
   * `.png` and whose stem is `thumb-` followed by the input's stem.
   */
  lemma OutputFilenameShape(filePath: string)
    ensures NodePath.PlainName(OutputFilename(filePath))
    ensures NodePath.Extname(OutputFilename(filePath)) == ".png"
    ensures NodePath.Stem(OutputFilename(filePath)) == "thumb-" + NodePath.Stem(filePath)
  {
    ThumbNameShape(NodePath.Stem(filePath));
  }

  lemma ThumbNameShape(stem: string)
    requires NodePath.NoSlash(stem)
    ensures NodePath.PlainName("thumb-" + stem + ".png")
    ensures NodePath.Extname("thumb-" + stem + ".png") == ".png"
    ensures NodePath.Stem("thumb-" + stem + ".png") == "thumb-" + stem
  {
    var base := "thumb-" + stem;
    assert NodePath.NoSlash(base) by {
      forall i | 0 <= i < |base| ensures base[i] != '/' {
        if i >= 6 {
          assert base[i] == stem[i - 6];
        }
      }
    }
    NodePath.ExtnameOfPlain(base, ".png");
    assert NodePath.NoSlash(base + ".png") by {
      forall i | 0 <= i < |base| + 4 ensures (base + ".png")[i] != '/' {
        if i < |base| {
          assert (base + ".png")[i] == base[i];
        }
      }
    }
  }

  /**
   * The thumbnail is written next to its input: the resize target is the
   * entry named `OutputFilename` directly inside the input's (normalized)
   * directory, and the frame capture is given that directory itself.
   */
  lemma OutputNextToInput(filePath: string)
    ensures OutputPath(filePath) == NodePath.Inside(NodePath.Normalize(NodePath.Dirname(filePath)), OutputFilename(filePath))
    ensures NodePath.LastSegment(OutputPath(filePath)) == OutputFilename(filePath)
  {
    OutputFilenameShape(filePath);
    NodePath.JoinPlainName(NodePath.Dirname(filePath), OutputFilename(filePath));
    NodePath.LastSegmentOfInside(NodePath.Normalize(NodePath.Dirname(filePath)), OutputFilename(filePath));
  }

  /**
   * Both codecs write the same file: the resize's output path and the
   * screenshot's folder and file name both name `thumb-<stem>.png` directly
   * inside the input's directory.
   */
  lemma CodecTarget(filePath: string, mimeType: string)
    requires HasCodec(mimeType)
    ensures var c := CodecFor(filePath, mimeType).value;
            && (c.Resize? ==> c.output == NodePath.Inside(NodePath.Normalize(NodePath.Dirname(filePath)), OutputFilename(filePath)))
            && (c.Screenshot? ==> c.folder == NodePath.Dirname(filePath) && c.filename == OutputFilename(filePath))
  {
    OutputNextToInput(filePath);
  }

  /**
   * A message delivered again after a run in which every call succeeded
   * leaves the documents as the first run left them.
   */
  lemma RedeliveryIdempotent(records: map<JobId, JobRecord>, data: ThumbnailJobData, o: Outcomes)
    requires o.markProcessing == Succeeds && o.codec == Succeeds && o.markCompleted == Succeeds
    ensures var once := WorkerRun(records, data, o).records;
            WorkerRun(once, data, o).records == once
  {
    var once := WorkerRun(records, data, o).records;
    CompletedRun(records, data, o);
    CompletedRun(once, data, o);
  }

  /** A run whose try block completes rewrites only the job's status and thumbnail URL. */
  lemma CompletedRun(records: map<JobId, JobRecord>, data: ThumbnailJobData, o: Outcomes)
    requires o.markProcessing == Succeeds && o.codec == Succeeds && o.markCompleted == Succeeds
    ensures var url := Some(ThumbnailUrl(OutputFilename(data.filePath)));
            WorkerRun(records, data, o).records ==
              if data.jobId in records
              then records[data.jobId := records[data.jobId].(status := Completed, thumbnailUrl := url)]
              else records
  {
    if data.jobId in records {
      CompletedRunPresent(records, data, o);
    } else {
      MissingJobRun(records, data, o);
    }
  }

  lemma CompletedRunPresent(records: map<JobId, JobRecord>, data: ThumbnailJobData, o: Outcomes)
    requires data.jobId in records
    requires o.markProcessing == Succeeds && o.codec == Succeeds && o.markCompleted == Succeeds
    ensures var url := Some(ThumbnailUrl(OutputFilename(data.filePath)));
            WorkerRun(records, data, o).records ==
              records[data.jobId := records[data.jobId].(status := Completed, thumbnailUrl := url)]
  {
    assert TryCompleted(data, o);
    WorkerRunResult(records, data, o);
    OneDocumentChanged(records, WorkerRun(records, data, o).records, data.jobId);
  }

  /** Documents that differ from `before` at most at `id` are `before` with `id` rewritten. */
  lemma OneDocumentChanged(before: map<JobId, JobRecord>, after: map<JobId, JobRecord>, id: JobId)
    requires id in before && after.Keys == before.Keys
    requires forall k :: k in before && k != id ==> after[k] == before[k]
    ensures after == before[id := after[id]]
  {
    var expected := before[id := after[id]];
    forall k | k in expected ensures after[k] == expected[k] {
    }
  }

  /** A message whose job has no document leaves every document as it was. */
  lemma MissingJobRun(records: map<JobId, JobRecord>, data: ThumbnailJobData, o: Outcomes)
    requires data.jobId !in records
    ensures WorkerRun(records, data, o).records == records
  {
    var run := WorkerRun(records, data, o).records;
    forall k | k in records ensures run[k] == records[k] {
    }
  }

  /**
   * The handler, step by step on the store. It returns how its promise
   * settles and the foreign calls it made, in order.
   */
  method HandleThumbnailJob(store: Store, data: ThumbnailJobData, o: Outcomes)
    returns (settled: Settled, effects: seq<Effect>)
    requires store.Valid()
    modifies store
    ensures store.Valid() && store.order == old(store.order)
    ensures store.records == WorkerRun(old(store.records), data, o).records
    ensures effects == WorkerRun(old(store.records), data, o).effects
    ensures settled == WorkerRun(old(store.records), data, o).settled
  {
    var marked := store.FindByIdAndUpdate(data.jobId, ProcessingPatch, o.markProcessing);
    effects := [StoreWrite(data.jobId, ProcessingPatch, o.markProcessing)];
    if !marked {
      settled := Rejected;
      return;
    }
    var tried;
    settled, tried := GenerateThumbnail(store, data, o);
    effects := effects + tried;
  }

  /** The `try` block of the handler and its `catch`. */
  method GenerateThumbnail(store: Store, data: ThumbnailJobData, o: Outcomes)
    returns (settled: Settled, effects: seq<Effect>)
    requires store.Valid()
    modifies store
    ensures store.Valid() && store.order == old(store.order)
    ensures var run := TryCatch(old(store.records), data.jobId,
                                CodecFor(data.filePath, data.mimeType), OutputFilename(data.filePath), o);
            store.records == run.records && effects == run.effects && settled == run.settled
  {
    var outputFilename := OutputFilename(data.filePath);
    var call, threw := RunCodec(data, o);
    settled, effects := SettleJob(store, data.jobId, call, threw, outputFilename, o);
  }

  /**
   * What follows the codec inside the `try`, and the `catch`: unless the
   * codec threw, the `completed` write; if either threw, the `failed` write.
   */
  method SettleJob(store: Store, id: JobId, call: Option<CodecCall>, threw: bool, outputFilename: string, o: Outcomes)
    returns (settled: Settled, effects: seq<Effect>)
    requires store.Valid()
    requires threw <==> call.Some? && o.codec == Throws
    modifies store
    ensures store.Valid() && store.order == old(store.order)
    ensures var run := TryCatch(old(store.records), id, call, outputFilename, o);
            store.records == run.records && effects == run.effects && settled == run.settled
  {
    var failing := threw;
    effects := if call.Some? then [CodecRun(call.value, o.codec)] else [];
    if !failing {
      var completed := store.FindByIdAndUpdate(id, CompletedPatch(outputFilename), o.markCompleted);
      effects := effects + [StoreWrite(id, CompletedPatch(outputFilename), o.markCompleted)];
      failing := !completed;
    }
    if failing {
      var failed := store.FindByIdAndUpdate(id, FailedPatch, o.markFailed);
      effects := effects + [StoreWrite(id, FailedPatch, o.markFailed)];
      settled := if failed then Fulfilled else Rejected;
    } else {
      settled := Fulfilled;
    }
  }

  /**
   * The mime-type dispatch: resize an image, capture one frame of a video,
   * or call nothing. Returns the call made and whether it threw.
   */
  method RunCodec(data: ThumbnailJobData, o: Outcomes) returns (call: Option<CodecCall>, threw: bool)
    ensures call == CodecFor(data.filePath, data.mimeType)
    ensures threw <==> call.Some? && o.codec == Throws
  {
    var outputFilename := OutputFilename(data.filePath);
    var outputPath := NodePath.Join(NodePath.Dirname(data.filePath), outputFilename);
    call := None;
    if StartsWith(data.mimeType, "image/") {
      call := Some(Resize(data.filePath, ThumbnailSide, ThumbnailSide, outputPath));
    } else if StartsWith(data.mimeType, "video/") {
      var folder := NodePath.Dirname(data.filePath);
      call := Some(Screenshot(data.filePath, 1, folder, outputFilename, ThumbnailSize));
    }
    threw := call.Some? && o.codec == Throws;
  }
}
