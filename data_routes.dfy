/**
 * The data routes: the chunk-ingestion orchestration of the process endpoint,
 * the project-list result of the projects endpoint, and the validation branch
 * of the upload endpoint.
 *
 * The process endpoint is an imperative method over a ChunkStore; it is proved
 * against the functional specification `Process`, and the promises of the
 * route are lemmas about `Process`.
 */
module DataRoutes {
  import opened Options
  import opened DbSchemes
  import opened ChunkModel

  // ---------------------------------------------------------------------------
  // Requests, responses and collaborators
  // ---------------------------------------------------------------------------

  /** The body of a process request. */
  datatype ProcessRequest = ProcessRequest(
    chunkSize: int,
    overlapSize: int,
    doReset: bool,
    fileId: Option<string>)

  /** The signals a process request can end with. */
  datatype ProcessResponse =
    | FileIdError
    | NoFilesError
    | ProcessingFailed
    | ProcessingSuccess(insertedChunks: nat, processedFiles: nat)

  /**
   * The two collaborators of the per-project process controller, left
   * uninterpreted: reading a stored file (None when unreadable) and the chunker
   * (content, file id, chunk size, overlap size), which may return None.
   */
  datatype Processor = Processor(
    getFileContent: string -> Option<string>,
    processFileContent: (string, string, int, int) -> Option<seq<Document>>)

  /** One entry of the resolved `{asset id: file id}` dictionary. */
  datatype FileEntry = FileEntry(assetId: ObjectId, fileId: string)

  /** Python truthiness of the optional `file_id`: absent and "" are both false. */
  predicate IsTruthy(fileId: Option<string>) {
    fileId.Some? && fileId.value != ""
  }

  // ---------------------------------------------------------------------------
  // Asset resolution
  // ---------------------------------------------------------------------------

  /** get_asset_record: the asset of the project whose stored name is `fileId`. */
  function GetAssetRecord(registry: seq<Asset>, projectId: ObjectId, fileId: string): (r: Option<Asset>)
    ensures r.Some? ==> r.value in registry && r.value.assetProjectId == projectId && r.value.assetName == fileId
    ensures r.None? ==> forall a :: a in registry ==> a.assetProjectId != projectId || a.assetName != fileId
  {
    if registry == [] then None
    else if registry[0].assetProjectId == projectId && registry[0].assetName == fileId then Some(registry[0])
    else GetAssetRecord(registry[1..], projectId, fileId)
  }

  predicate IsProjectFile(a: Asset, projectId: ObjectId) {
    a.assetProjectId == projectId && a.assetType == File
  }

  /** get_all_project_assets for FILE assets, as `{record.id: record.asset_name}` entries. */
  function ProjectFiles(registry: seq<Asset>, projectId: ObjectId): (r: seq<FileEntry>)
    ensures |r| <= |registry|
    ensures forall a :: a in registry && IsProjectFile(a, projectId) ==> FileEntry(a.id, a.assetName) in r
    ensures forall e :: e in r ==> exists a :: a in registry && IsProjectFile(a, projectId) && e == FileEntry(a.id, a.assetName)
  {
    if registry == [] then []
    else
      var rest := ProjectFiles(registry[1..], projectId);
      assert forall a :: a in registry[1..] ==> a in registry;
      if IsProjectFile(registry[0], projectId) then [FileEntry(registry[0].id, registry[0].assetName)] + rest
      else rest
  }

  /** The assets a request targets; None stands for an unknown `file_id`. */
  function ResolveAssets(registry: seq<Asset>, projectId: ObjectId, fileId: Option<string>): (r: Option<seq<FileEntry>>)
    ensures IsTruthy(fileId) ==>
      (r.None? <==> forall a :: a in registry ==> a.assetProjectId != projectId || a.assetName != fileId.value)
    ensures IsTruthy(fileId) && r.Some? ==>
      |r.value| == 1 && r.value[0].fileId == fileId.value &&
      exists a :: a in registry && a.assetProjectId == projectId && r.value[0] == FileEntry(a.id, a.assetName)
    ensures !IsTruthy(fileId) ==> r.Some?
    ensures !IsTruthy(fileId) && r.Some? ==>
      (forall e :: e in r.value <==> exists a :: a in registry && IsProjectFile(a, projectId) && e == FileEntry(a.id, a.assetName))
  {
    if IsTruthy(fileId) then
      match GetAssetRecord(registry, projectId, fileId.value)
      case None => None
      case Some(a) => Some([FileEntry(a.id, a.assetName)])
    else Some(ProjectFiles(registry, projectId))
  }

  /** Record ids are primary keys. */
  ghost predicate UniqueIds(registry: seq<Asset>) {
    forall i, j :: 0 <= i < j < |registry| ==> registry[i].id != registry[j].id
  }

  ghost predicate DistinctAssetIds(files: seq<FileEntry>) {
    forall i, j :: 0 <= i < j < |files| ==> files[i].assetId != files[j].assetId
  }

  lemma UniqueIdsTail(registry: seq<Asset>)
    requires registry != [] && UniqueIds(registry)
    ensures UniqueIds(registry[1..])
    ensures forall k :: 0 <= k < |registry[1..]| ==> registry[1..][k].id != registry[0].id
  {
    var tail := registry[1..];
    forall i, j | 0 <= i < j < |tail| ensures tail[i].id != tail[j].id {
      assert tail[i] == registry[i + 1] && tail[j] == registry[j + 1];
    }
    forall k | 0 <= k < |tail| ensures tail[k].id != registry[0].id {
      assert tail[k] == registry[k + 1];
    }
  }

  lemma ProjectFileFromRegistry(registry: seq<Asset>, projectId: ObjectId, e: FileEntry)
    requires e in ProjectFiles(registry, projectId)
    ensures exists k :: 0 <= k < |registry| && registry[k].id == e.assetId
  {
    var a :| a in registry && IsProjectFile(a, projectId) && e == FileEntry(a.id, a.assetName);
    var k :| 0 <= k < |registry| && registry[k] == a;
  }

  /** With unique record ids the dictionary built from the query keeps every
      record: the resolved entries have pairwise distinct asset ids. */
  lemma {:induction false} ProjectFilesDistinct(registry: seq<Asset>, projectId: ObjectId)
    requires UniqueIds(registry)
    ensures DistinctAssetIds(ProjectFiles(registry, projectId))
  {
    if registry != [] {
      var tail := registry[1..];
      UniqueIdsTail(registry);
      ProjectFilesDistinct(tail, projectId);
      var rest := ProjectFiles(tail, projectId);
      if IsProjectFile(registry[0], projectId) {
        var r := [FileEntry(registry[0].id, registry[0].assetName)] + rest;
        forall j | 0 < j < |r| ensures r[0].assetId != r[j].assetId {
          assert r[j] == rest[j - 1];
          ProjectFileFromRegistry(tail, projectId, rest[j - 1]);
        }
        forall i, j | 0 < i < j < |r| ensures r[i].assetId != r[j].assetId {
          assert r[i] == rest[i - 1] && r[j] == rest[j - 1];
        }
      }
    }
  }

  lemma ResolvedIdsDistinct(registry: seq<Asset>, projectId: ObjectId, fileId: Option<string>)
    requires UniqueIds(registry)
    requires ResolveAssets(registry, projectId, fileId).Some?
    ensures DistinctAssetIds(ResolveAssets(registry, projectId, fileId).value)
  {
    if !IsTruthy(fileId) {
      ProjectFilesDistinct(registry, projectId);
    }
  }

  // ---------------------------------------------------------------------------
  // The per-asset loop, as a function
  // ---------------------------------------------------------------------------

  /** The DataChunk rows built for one asset from the chunker's documents. */
  function BuildRecords(docs: seq<Document>, projectId: ObjectId, assetId: ObjectId): (r: seq<DataChunk>)
    ensures |r| == |docs|
    ensures forall i :: 0 <= i < |r| ==>
      && r[i].chunkText == docs[i].pageContent
      && r[i].chunkMetadata == docs[i].metadata
      && r[i].chunkOrder == i + 1
      && r[i].chunkProjectId == projectId
      && r[i].chunkAssetId == assetId
  {
    seq(|docs|, i requires 0 <= i < |docs| =>
      DataChunk(docs[i].pageContent, docs[i].metadata, i + 1, projectId, assetId))
  }

  /** A chunker result that aborts the request. */
  predicate IsEmptyResult(r: Option<seq<Document>>) {
    r.None? || |r.value| == 0
  }

  /** The asset's file is readable but chunks to nothing. */
  predicate FailsOn(e: FileEntry, req: ProcessRequest, proc: Processor) {
    match proc.getFileContent(e.fileId)
    case None => false
    case Some(content) => IsEmptyResult(proc.processFileContent(content, e.fileId, req.chunkSize, req.overlapSize))
  }

  /** What the loop did: whether it aborted, and the batches it inserted (one per processed file). */
  datatype LoopResult = LoopResult(failed: bool, batches: seq<seq<DataChunk>>)

  /** The loop over the resolved assets, in dictionary order. */
  function Loop(files: seq<FileEntry>, projectId: ObjectId, req: ProcessRequest, proc: Processor): LoopResult
    decreases |files|
  {
    if files == [] then LoopResult(false, [])
    else
      var e := files[0];
      match proc.getFileContent(e.fileId)
      case None => Loop(files[1..], projectId, req, proc)
      case Some(content) =>
        var fileChunks := proc.processFileContent(content, e.fileId, req.chunkSize, req.overlapSize);
        if IsEmptyResult(fileChunks) then LoopResult(true, [])
        else
          var rest := Loop(files[1..], projectId, req, proc);
          LoopResult(rest.failed, [BuildRecords(fileChunks.value, projectId, e.assetId)] + rest.batches)
  }

  function Extend(done: seq<seq<DataChunk>>, r: LoopResult): LoopResult {
    LoopResult(r.failed, done + r.batches)
  }

  /** The number of assets whose content could be read. */
  function CountReadable(files: seq<FileEntry>, proc: Processor): (n: nat)
    ensures n <= |files|
  {
    if files == [] then 0
    else (if proc.getFileContent(files[0].fileId).Some? then 1 else 0) + CountReadable(files[1..], proc)
  }

  function Flatten(batches: seq<seq<DataChunk>>): seq<DataChunk> {
    if batches == [] then [] else batches[0] + Flatten(batches[1..])
  }

  /** The per-asset insert counts, summed. */
  function SumLengths(batches: seq<seq<DataChunk>>): nat {
    if batches == [] then 0 else |batches[0]| + SumLengths(batches[1..])
  }

  lemma {:induction false} FlattenAppend(batches: seq<seq<DataChunk>>, b: seq<DataChunk>)
    ensures Flatten(batches + [b]) == Flatten(batches) + b
  {
    if batches == [] {
      assert [] + [b] == [b];
    } else {
      assert (batches + [b])[1..] == batches[1..] + [b];
      FlattenAppend(batches[1..], b);
    }
  }

  lemma {:induction false} FlattenLength(batches: seq<seq<DataChunk>>)
    ensures |Flatten(batches)| == SumLengths(batches)
  {
    if batches != [] {
      FlattenLength(batches[1..]);
    }
  }

  // ---------------------------------------------------------------------------
  // The whole request, as a function
  // ---------------------------------------------------------------------------

  /** What a request does: its response, whether it reset the project, and its inserts. */
  datatype Run = Run(response: ProcessResponse, reset: bool, batches: seq<seq<DataChunk>>)

  function Process(registry: seq<Asset>, project: Project, req: ProcessRequest, proc: Processor): Run
  {
    match ResolveAssets(registry, project.id, req.fileId)
    case None => Run(FileIdError, false, [])
    case Some(files) =>
      if |files| == 0 then Run(NoFilesError, false, [])
      else
        var r := Loop(files, project.id, req, proc);
        Run(LoopResponse(r), req.doReset, r.batches)
  }

  /** The chunk collection after a run. */
  function StoreAfter(chunks: seq<DataChunk>, projectId: ObjectId, run: Run): seq<DataChunk> {
    (if run.reset then WithoutProject(chunks, projectId) else chunks) + Flatten(run.batches)
  }

  function InsertOps(batches: seq<seq<DataChunk>>): (ops: seq<StoreOp>)
    ensures |ops| == |batches|
    ensures forall k :: 0 <= k < |batches| ==> ops[k] == InsertMany(batches[k])
  {
    seq(|batches|, k requires 0 <= k < |batches| => InsertMany(batches[k]))
  }

  /** The writes a run issues, in order. */
  function OpsOf(projectId: ObjectId, run: Run): seq<StoreOp> {
    (if run.reset then [DeleteByProject(projectId)] else []) + InsertOps(run.batches)
  }

  // ---------------------------------------------------------------------------
  // The endpoint
  // ---------------------------------------------------------------------------

  /** The response a finished loop gives. */
  function LoopResponse(r: LoopResult): ProcessResponse {
    if r.failed then ProcessingFailed else ProcessingSuccess(|Flatten(r.batches)|, |r.batches|)
  }

  /** Resolution alone decides the run when it fails. */
  lemma ProcessOnResolutionFailure(registry: seq<Asset>, project: Project, req: ProcessRequest, proc: Processor)
    requires ResolveAssets(registry, project.id, req.fileId).None? ||
             ResolveAssets(registry, project.id, req.fileId) == Some([])
    ensures Process(registry, project, req, proc).reset == false
    ensures Process(registry, project, req, proc).batches == []
    ensures Process(registry, project, req, proc).response ==
            if ResolveAssets(registry, project.id, req.fileId).None? then FileIdError else NoFilesError
  {
  }

  /** A run that neither resets nor inserts leaves the store as it was. */
  lemma StoreAfterIdle(chunks: seq<DataChunk>, projectId: ObjectId, run: Run)
    requires !run.reset && run.batches == []
    ensures StoreAfter(chunks, projectId, run) == chunks
    ensures OpsOf(projectId, run) == []
  {
    assert chunks + [] == chunks;
  }

  lemma OpsOfAfterReset(log0: seq<StoreOp>, log1: seq<StoreOp>, projectId: ObjectId, run: Run)
    requires log1 == log0 + if run.reset then [DeleteByProject(projectId)] else []
    ensures log1 + InsertOps(run.batches) == log0 + OpsOf(projectId, run)
  {
  }

  lemma ProcessOnFiles(registry: seq<Asset>, project: Project, req: ProcessRequest, proc: Processor, files: seq<FileEntry>)
    requires ResolveAssets(registry, project.id, req.fileId) == Some(files) && |files| > 0
    ensures Process(registry, project, req, proc)
         == Run(LoopResponse(Loop(files, project.id, req, proc)), req.doReset, Loop(files, project.id, req, proc).batches)
  {
  }

  /** One step of the loop, for the asset at index `i`. */
  lemma LoopAt(files: seq<FileEntry>, i: nat, projectId: ObjectId, req: ProcessRequest, proc: Processor)
    requires i < |files|
    ensures var e := files[i];
      var rest := Loop(files[i + 1..], projectId, req, proc);
      Loop(files[i..], projectId, req, proc) ==
        match proc.getFileContent(e.fileId)
        case None => rest
        case Some(content) =>
          var fileChunks := proc.processFileContent(content, e.fileId, req.chunkSize, req.overlapSize);
          if IsEmptyResult(fileChunks) then LoopResult(true, [])
          else Extend([BuildRecords(fileChunks.value, projectId, e.assetId)], rest)
  {
    assert files[i..][0] == files[i];
    assert files[i..][1..] == files[i + 1..];
  }

  /** Adding one batch to what the loop has done so far. */
  lemma AppendBatch(done: seq<seq<DataChunk>>, records: seq<DataChunk>, rest: LoopResult)
    ensures Flatten(done + [records]) == Flatten(done) + records
    ensures InsertOps(done + [records]) == InsertOps(done) + [InsertMany(records)]
    ensures Extend(done, Extend([records], rest)) == Extend(done + [records], rest)
  {
    FlattenAppend(done, records);
    ExtendExtend(done, [records], rest);
    assert InsertOps(done + [records]) == InsertOps(done) + [InsertMany(records)];
  }

  lemma ExtendExtend(a: seq<seq<DataChunk>>, b: seq<seq<DataChunk>>, r: LoopResult)
    ensures Extend(a, Extend(b, r)) == Extend(a + b, r)
  {
    assert a + (b + r.batches) == (a + b) + r.batches;
  }

  /**
   * The per-asset loop of process_endpoint: reads each file, aborts on an empty
   * chunker result, and inserts one batch of rows per readable file.
   */
  method ProcessFiles(store: ChunkStore, files: seq<FileEntry>, projectId: ObjectId,
                      req: ProcessRequest, proc: Processor)
    returns (response: ProcessResponse)
    modifies store
    ensures response == LoopResponse(Loop(files, projectId, req, proc))
    ensures store.chunks == old(store.chunks) + Flatten(Loop(files, projectId, req, proc).batches)
    ensures store.log == old(store.log) + InsertOps(Loop(files, projectId, req, proc).batches)
  {
    ghost var whole := Loop(files, projectId, req, proc);
    ghost var done: seq<seq<DataChunk>> := [];
    var nbRecords: nat := 0;
    var nbFile: nat := 0;
    var i := 0;
    while i < |files|
      invariant 0 <= i <= |files|
      invariant whole == Extend(done, Loop(files[i..], projectId, req, proc))
      invariant store.chunks == old(store.chunks) + Flatten(done)
      invariant store.log == old(store.log) + InsertOps(done)
      invariant nbRecords == |Flatten(done)| && nbFile == |done|
    {
      var e := files[i];
      LoopAt(files, i, projectId, req, proc);
      var fileContent := proc.getFileContent(e.fileId);
      if fileContent.None? {
        i := i + 1;
        continue;
      }
      var fileChunks := proc.processFileContent(fileContent.value, e.fileId, req.chunkSize, req.overlapSize);
      if fileChunks.None? || |fileChunks.value| == 0 {
        assert done + [] == done;
        return ProcessingFailed;
      }
      var records := BuildRecords(fileChunks.value, projectId, e.assetId);
      var inserted := store.InsertManyChunks(records);
      AppendBatch(done, records, Loop(files[i + 1..], projectId, req, proc));
      nbRecords := nbRecords + inserted;
      nbFile := nbFile + 1;
      done := done + [records];
      i := i + 1;
    }
    assert files[i..] == [];
    assert done + [] == done;
    return ProcessingSuccess(nbRecords, nbFile);
  }

  /**
   * process_endpoint for an already resolved project: resolve the assets, fail
   * on an unknown file id or an empty asset set, reset the project when asked,
   * then run the per-asset loop.  The writes it issues are those of `OpsOf`:
   * the reset, when there is one, is the first of them and every later one is
   * an insert.
   */
  method ProcessEndpoint(store: ChunkStore, registry: seq<Asset>, project: Project,
                         req: ProcessRequest, proc: Processor)
    returns (response: ProcessResponse)
    modifies store
    ensures response == Process(registry, project, req, proc).response
    ensures store.chunks == StoreAfter(old(store.chunks), project.id, Process(registry, project, req, proc))
    ensures store.log == old(store.log) + OpsOf(project.id, Process(registry, project, req, proc))
  {
    var files: seq<FileEntry>;
    if IsTruthy(req.fileId) {
      var assetRecord := GetAssetRecord(registry, project.id, req.fileId.value);
      if assetRecord.None? {
        ProcessOnResolutionFailure(registry, project, req, proc);
        StoreAfterIdle(store.chunks, project.id, Process(registry, project, req, proc));
        return FileIdError;
      }
      files := [FileEntry(assetRecord.value.id, assetRecord.value.assetName)];
    } else {
      files := ProjectFiles(registry, project.id);
    }

    assert ResolveAssets(registry, project.id, req.fileId) == Some(files);
    if |files| == 0 {
      ProcessOnResolutionFailure(registry, project, req, proc);
      StoreAfterIdle(store.chunks, project.id, Process(registry, project, req, proc));
      return NoFilesError;
    }
    ProcessOnFiles(registry, project, req, proc, files);

    if req.doReset {
      var deleted := store.DeleteChunksByProjectId(project.id);
    }
    ghost var logBefore := store.log;
    response := ProcessFiles(store, files, project.id, req, proc);
    OpsOfAfterReset(old(store.log), logBefore, project.id, Process(registry, project, req, proc));
  }

  // ---------------------------------------------------------------------------
  // What the route promises
  // ---------------------------------------------------------------------------

  /** FILE_ID_ERROR exactly when a file id is given and the project has no asset stored under it. */
  lemma FileIdErrorIff(registry: seq<Asset>, project: Project, req: ProcessRequest, proc: Processor)
    ensures Process(registry, project, req, proc).response == FileIdError <==>
      IsTruthy(req.fileId) &&
      forall a :: a in registry ==> a.assetProjectId != project.id || a.assetName != req.fileId.value
  {
    if IsTruthy(req.fileId) {
      var r := GetAssetRecord(registry, project.id, req.fileId.value);
      if r.Some? {
        assert r.value in registry;
      }
    } else {
      ProcessOnFilesResponse(registry, project, req, proc);
    }
  }

  /** A run past resolution ends with ProcessingFailed or ProcessingSuccess. */
  lemma ProcessOnFilesResponse(registry: seq<Asset>, project: Project, req: ProcessRequest, proc: Processor)
    ensures Process(registry, project, req, proc).response != FileIdError ==>
            ResolveAssets(registry, project.id, req.fileId).Some?
    ensures Process(registry, project, req, proc).response.ProcessingFailed? ||
            Process(registry, project, req, proc).response.ProcessingSuccess? <==>
            ResolveAssets(registry, project.id, req.fileId).Some? &&
            |ResolveAssets(registry, project.id, req.fileId).value| > 0
  {
  }

  /** NO_FILES_ERROR exactly when no file id is given and the project has no FILE asset. */
  lemma NoFilesErrorIff(registry: seq<Asset>, project: Project, req: ProcessRequest, proc: Processor)
    ensures Process(registry, project, req, proc).response == NoFilesError <==>
      !IsTruthy(req.fileId) && forall a :: a in registry ==> !IsProjectFile(a, project.id)
  {
    if !IsTruthy(req.fileId) {
      var files := ProjectFiles(registry, project.id);
      if |files| > 0 {
        assert files[0] in files;
      }
    }
  }

  /** Both early failures return before the reset: the chunk collection is left
      untouched and no write is issued, even when do_reset is true. */
  lemma EarlyFailureLeavesStore(registry: seq<Asset>, project: Project, req: ProcessRequest, proc: Processor,
                                chunks: seq<DataChunk>)
    requires Process(registry, project, req, proc).response in {FileIdError, NoFilesError}
    ensures StoreAfter(chunks, project.id, Process(registry, project, req, proc)) == chunks
    ensures OpsOf(project.id, Process(registry, project, req, proc)) == []
  {
    ProcessOnFilesResponse(registry, project, req, proc);
    StoreAfterIdle(chunks, project.id, Process(registry, project, req, proc));
  }

  /** The reset runs exactly when it is asked for and at least one asset was resolved. */
  lemma ResetIff(registry: seq<Asset>, project: Project, req: ProcessRequest, proc: Processor)
    ensures Process(registry, project, req, proc).reset <==>
      req.doReset && Process(registry, project, req, proc).response !in {FileIdError, NoFilesError}
  {
    ProcessOnFilesResponse(registry, project, req, proc);
  }

  /** `b` is the batch inserted for asset `e`: one row per chunker document, in
      chunker order, numbered 1..N, tagged with the project and the asset. */
  ghost predicate IsBatchOf(b: seq<DataChunk>, projectId: ObjectId, e: FileEntry, req: ProcessRequest, proc: Processor) {
    && proc.getFileContent(e.fileId).Some?
    && var fileChunks := proc.processFileContent(proc.getFileContent(e.fileId).value, e.fileId, req.chunkSize, req.overlapSize);
    && fileChunks.Some?
    && |b| == |fileChunks.value| > 0
    && forall j :: 0 <= j < |b| ==>
         && b[j].chunkOrder == j + 1
         && b[j].chunkText == fileChunks.value[j].pageContent
         && b[j].chunkMetadata == fileChunks.value[j].metadata
         && b[j].chunkProjectId == projectId
         && b[j].chunkAssetId == e.assetId
  }

  /** Every inserted batch belongs to one readable resolved asset and is numbered from 1 without gaps. */
  lemma {:induction false} LoopBatch(files: seq<FileEntry>, projectId: ObjectId, req: ProcessRequest, proc: Processor, k: nat)
    requires k < |Loop(files, projectId, req, proc).batches|
    ensures exists e :: e in files && IsBatchOf(Loop(files, projectId, req, proc).batches[k], projectId, e, req, proc)
  {
    var e := files[0];
    var tail := files[1..];
    var rest := Loop(tail, projectId, req, proc);
    var batches := Loop(files, projectId, req, proc).batches;
    var content := proc.getFileContent(e.fileId);
    if content.None? {
      assert batches == rest.batches;
      LoopBatch(tail, projectId, req, proc, k);
      var f :| f in tail && IsBatchOf(rest.batches[k], projectId, f, req, proc);
      assert f in files;
    } else {
      var fileChunks := proc.processFileContent(content.value, e.fileId, req.chunkSize, req.overlapSize);
      assert !IsEmptyResult(fileChunks);
      assert batches == [BuildRecords(fileChunks.value, projectId, e.assetId)] + rest.batches;
      if k == 0 {
        assert IsBatchOf(batches[0], projectId, e, req, proc);
      } else {
        LoopBatch(tail, projectId, req, proc, k - 1);
        var f :| f in tail && IsBatchOf(rest.batches[k - 1], projectId, f, req, proc);
        assert f in files;
      }
    }
  }

  /** A loop that did not abort inserted, for the readable asset at index `k`,
      its own batch, in the position of its rank among the readable assets. */
  lemma {:induction false} LoopCoversReadable(files: seq<FileEntry>, projectId: ObjectId, req: ProcessRequest,
                                              proc: Processor, k: nat)
    requires !Loop(files, projectId, req, proc).failed
    requires k < |files| && proc.getFileContent(files[k].fileId).Some?
    ensures CountReadable(files[..k], proc) < |Loop(files, projectId, req, proc).batches|
    ensures IsBatchOf(Loop(files, projectId, req, proc).batches[CountReadable(files[..k], proc)], projectId, files[k], req, proc)
  {
    var e := files[0];
    var tail := files[1..];
    var rest := Loop(tail, projectId, req, proc);
    var batches := Loop(files, projectId, req, proc).batches;
    var content := proc.getFileContent(e.fileId);
    if k == 0 {
      assert files[..0] == [];
      var fileChunks := proc.processFileContent(content.value, e.fileId, req.chunkSize, req.overlapSize);
      assert batches[0] == BuildRecords(fileChunks.value, projectId, e.assetId);
    } else {
      assert files[..k][0] == e && files[..k][1..] == tail[..k - 1];
      assert tail[k - 1] == files[k];
      if content.None? {
        LoopCoversReadable(tail, projectId, req, proc, k - 1);
      } else {
        var fileChunks := proc.processFileContent(content.value, e.fileId, req.chunkSize, req.overlapSize);
        assert batches == [BuildRecords(fileChunks.value, projectId, e.assetId)] + rest.batches;
        LoopCoversReadable(tail, projectId, req, proc, k - 1);
      }
    }
  }

  /** A loop that did not abort inserted one batch for every readable file. */
  lemma {:induction false} LoopSuccessCount(files: seq<FileEntry>, projectId: ObjectId, req: ProcessRequest, proc: Processor)
    ensures !Loop(files, projectId, req, proc).failed ==>
            |Loop(files, projectId, req, proc).batches| == CountReadable(files, proc)
  {
    if files != [] {
      LoopSuccessCount(files[1..], projectId, req, proc);
    }
  }

  /** The loop aborts exactly when some resolved asset is readable but chunks to nothing. */
  lemma {:induction false} LoopFailsIff(files: seq<FileEntry>, projectId: ObjectId, req: ProcessRequest, proc: Processor)
    ensures Loop(files, projectId, req, proc).failed <==> exists k :: 0 <= k < |files| && FailsOn(files[k], req, proc)
  {
    if files != [] {
      LoopFailsIff(files[1..], projectId, req, proc);
      if exists k :: 0 <= k < |files| && FailsOn(files[k], req, proc) {
        var k :| 0 <= k < |files| && FailsOn(files[k], req, proc);
        if k > 0 {
          assert files[1..][k - 1] == files[k];
        }
      }
      if exists k :: 0 <= k < |files[1..]| && FailsOn(files[1..][k], req, proc) {
        var k :| 0 <= k < |files[1..]| && FailsOn(files[1..][k], req, proc);
        assert files[k + 1] == files[1..][k];
      }
    }
  }

  /** An aborted loop keeps what it inserted before the failing asset: its
      batches are those of a complete run over the assets before it. */
  lemma {:induction false} FailedLoopKeepsEarlierBatches(files: seq<FileEntry>, projectId: ObjectId,
                                                         req: ProcessRequest, proc: Processor)
    requires Loop(files, projectId, req, proc).failed
    ensures exists k :: (0 <= k < |files| && FailsOn(files[k], req, proc) &&
      Loop(files[..k], projectId, req, proc) == LoopResult(false, Loop(files, projectId, req, proc).batches))
  {
    if FailsOn(files[0], req, proc) {
      assert files[..0] == [];
    } else {
      var tail := files[1..];
      FailedLoopKeepsEarlierBatches(tail, projectId, req, proc);
      var k :| 0 <= k < |tail| && FailsOn(tail[k], req, proc) &&
        Loop(tail[..k], projectId, req, proc) == LoopResult(false, Loop(tail, projectId, req, proc).batches);
      var prefix := files[..k + 1];
      assert prefix[0] == files[0] && prefix[1..] == tail[..k];
      assert files[k + 1] == tail[k];
    }
  }

  /** On success, inserted_chunks is the sum of the per-asset insert counts and
      processed_files the number of readable resolved assets, at most their number. */
  lemma ProcessSuccessCounters(registry: seq<Asset>, project: Project, req: ProcessRequest, proc: Processor)
    requires Process(registry, project, req, proc).response.ProcessingSuccess?
    ensures ResolveAssets(registry, project.id, req.fileId).Some?
    ensures var run := Process(registry, project, req, proc);
      var files := ResolveAssets(registry, project.id, req.fileId).value;
      && run.response.insertedChunks == SumLengths(run.batches)
      && run.response.processedFiles == CountReadable(files, proc) <= |files|
  {
    ProcessOnFilesResponse(registry, project, req, proc);
    var files := ResolveAssets(registry, project.id, req.fileId).value;
    ProcessOnFiles(registry, project, req, proc, files);
    LoopSuccessCount(files, project.id, req, proc);
    FlattenLength(Loop(files, project.id, req, proc).batches);
  }

  /** PROCESSING_FAILED rolls nothing back: the reset stays as requested and
      the batches inserted before the failing asset stay in the store. */
  lemma ProcessingFailedKeepsWrites(registry: seq<Asset>, project: Project, req: ProcessRequest, proc: Processor)
    requires Process(registry, project, req, proc).response == ProcessingFailed
    ensures ResolveAssets(registry, project.id, req.fileId).Some?
    ensures var run := Process(registry, project, req, proc);
      var files := ResolveAssets(registry, project.id, req.fileId).value;
      && run.reset == req.doReset
      && (exists k :: 0 <= k < |files| && FailsOn(files[k], req, proc) &&
            Loop(files[..k], project.id, req, proc) == LoopResult(false, run.batches))
  {
    ProcessOnFilesResponse(registry, project, req, proc);
    var files := ResolveAssets(registry, project.id, req.fileId).value;
    ProcessOnFiles(registry, project, req, proc, files);
    FailedLoopKeepsEarlierBatches(files, project.id, req, proc);
  }

  lemma {:induction false} FlattenOfProject(batches: seq<seq<DataChunk>>, projectId: ObjectId)
    requires forall k, j :: 0 <= k < |batches| && 0 <= j < |batches[k]| ==> batches[k][j].chunkProjectId == projectId
    ensures forall c :: c in Flatten(batches) ==> c.chunkProjectId == projectId
  {
    if batches != [] {
      FlattenOfProject(batches[1..], projectId);
      assert forall j :: 0 <= j < |batches[0]| ==> batches[0][j].chunkProjectId == projectId;
    }
  }

  /** Every row a run inserts carries the project's id. */
  lemma RunRowsOfProject(registry: seq<Asset>, project: Project, req: ProcessRequest, proc: Processor)
    ensures forall c :: c in Flatten(Process(registry, project, req, proc).batches) ==> c.chunkProjectId == project.id
  {
    var run := Process(registry, project, req, proc);
    ProcessOnFilesResponse(registry, project, req, proc);
    if run.batches != [] {
      var files := ResolveAssets(registry, project.id, req.fileId).value;
      ProcessOnFiles(registry, project, req, proc, files);
      forall k, j | 0 <= k < |run.batches| && 0 <= j < |run.batches[k]|
        ensures run.batches[k][j].chunkProjectId == project.id
      {
        LoopBatch(files, project.id, req, proc, k);
        var e :| e in files && IsBatchOf(run.batches[k], project.id, e, req, proc);
      }
      FlattenOfProject(run.batches, project.id);
    }
  }

  /** After a reset run the project holds only the chunks of this run: no run mixes two generations. */
  lemma ResetLeavesOnlyThisRun(registry: seq<Asset>, project: Project, req: ProcessRequest, proc: Processor,
                               chunks: seq<DataChunk>)
    requires Process(registry, project, req, proc).reset
    ensures var run := Process(registry, project, req, proc);
      ChunksOf(StoreAfter(chunks, project.id, run), project.id) == Flatten(run.batches)
  {
    var run := Process(registry, project, req, proc);
    RunRowsOfProject(registry, project, req, proc);
    ChunksOfAppend(WithoutProject(chunks, project.id), Flatten(run.batches), project.id);
    ChunksOfWithoutProject(chunks, project.id, project.id);
    ChunksOfOwnBatch(Flatten(run.batches), project.id, project.id);
  }

  /** The chunks of every other project are exactly as they were. */
  lemma OtherProjectsUntouched(registry: seq<Asset>, project: Project, req: ProcessRequest, proc: Processor,
                               chunks: seq<DataChunk>, other: ObjectId)
    requires other != project.id
    ensures ChunksOf(StoreAfter(chunks, project.id, Process(registry, project, req, proc)), other) == ChunksOf(chunks, other)
  {
    var run := Process(registry, project, req, proc);
    RunRowsOfProject(registry, project, req, proc);
    var kept := if run.reset then WithoutProject(chunks, project.id) else chunks;
    ChunksOfAppend(kept, Flatten(run.batches), other);
    ChunksOfWithoutProject(chunks, project.id, other);
    ChunksOfOwnBatch(Flatten(run.batches), project.id, other);
  }

  /** Without reset nothing is removed: the old rows are a prefix of the new collection. */
  lemma NoResetKeepsChunks(registry: seq<Asset>, project: Project, req: ProcessRequest, proc: Processor,
                           chunks: seq<DataChunk>)
    requires !req.doReset
    ensures var after := StoreAfter(chunks, project.id, Process(registry, project, req, proc));
      |chunks| <= |after| && after[..|chunks|] == chunks
  {
    ResetIff(registry, project, req, proc);
  }

  // ---------------------------------------------------------------------------
  // projects_endpoint
  // ---------------------------------------------------------------------------

  datatype ProjectsResponse = NoProjectsError | ProjectsFound(results: seq<string>)

  /** NO_PROJECTS_ERROR for a missing or empty result, otherwise the `project_id`s in result order. */
  function ProjectsEndpoint(results: Option<seq<Project>>): (r: ProjectsResponse)
    ensures r == NoProjectsError <==> results.None? || |results.value| == 0
    ensures r.ProjectsFound? ==>
      |r.results| == |results.value| &&
      forall i :: 0 <= i < |r.results| ==> r.results[i] == results.value[i].projectId
  {
    if results.None? || |results.value| == 0 then NoProjectsError
    else ProjectsFound(seq(|results.value|, i requires 0 <= i < |results.value| => results.value[i].projectId))
  }

  // ---------------------------------------------------------------------------
  // upload_data: the validation branch
  // ---------------------------------------------------------------------------

  /** What the upload does after validating the file: go on to write it, or answer 400 with a signal. */
  datatype UploadCheck = WriteFile | Rejected(signal: string)

  /** As written: the rejection carries the literal text "result_signal". */
  function UploadValidationAsWritten(isValid: bool, resultSignal: string): (r: UploadCheck)
    ensures r.WriteFile? <==> isValid
    ensures r.Rejected? ==> r.signal == "result_signal"
  {
    if !isValid then Rejected("result_signal") else WriteFile
  }

  /** Any validation signal other than that literal text is lost by the code as written. */
  lemma UploadSignalLost(resultSignal: string)
    requires resultSignal != "result_signal"
    ensures UploadValidationAsWritten(false, resultSignal) != Rejected(resultSignal)
  {
  }

  /** As intended: a rejected file is answered with the validator's own signal,
      and no write happens. */
  function UploadValidation(isValid: bool, resultSignal: string): (r: UploadCheck)
    ensures r.WriteFile? <==> isValid
    ensures r.Rejected? ==> r.signal == resultSignal
  {
    if !isValid then Rejected(resultSignal) else WriteFile
  }
}
