/** The upload routes (backend/app/api/routes/upload.py): the two validation guards, the
    document id and storage path, the processing pipeline with its clean-up on error, and the
    batch route that turns each file's HTTP error into a "failed" entry while any other
    exception escapes it. The file system is
    reduced to what the route observes: whether `mkdir` and the write succeed, and which
    stored files remain afterwards. */
module Upload {
  import opened Common
  import opened Text
  import opened Api
  import opened Settings
  import opened Documents
  import opened DocumentProcessor
  import opened VectorStore

  const BadRequest: int := 400
  const RequestEntityTooLarge: int := 413
  const InternalServerError: int := 500

  /** FastAPI's HTTPException: a status code and a detail text. */
  datatype HttpError = HttpError(statusCode: int, detail: string)

  /** What escapes `upload_file`: an HTTPException, or another exception (the `mkdir` call is
      outside the try block, so what it raises is not converted). */
  datatype Raised = Http(error: HttpError) | Other(message: string)

  /** The outcome of opening the target file and writing the upload into it. */
  datatype WriteOutcome = Written | WriteFailed(message: string)

  /** One uploaded file as the route sees it: its name, its measured size, the uuid4 hex drawn
      for it, and how the two file-system steps go. */
  datatype IncomingFile = IncomingFile(filename: string, size: nat, uuidHex: string,
                                       mkdirError: Option<string>, write: WriteOutcome)

  /** The route's answer, and the stored file left on disk afterwards, if any. */
  datatype UploadResult = UploadResult(response: Result<UploadResponse, Raised>, kept: Option<string>)

  function TypeDetail(extension: string): string {
    "File type " + extension + " not supported. Allowed: " + AllowedExtensionsText
  }

  function SizeDetail(): string {
    "File size exceeds maximum allowed size of " + Decimal(MaxUploadSize) + " bytes"
  }

  /** The two guards of `upload_file`, in their order: the lower-cased suffix must be allowed,
      then the size must not exceed the limit (a file of exactly the limit passes). */
  function CheckUpload(filename: string, size: nat): (r: Option<HttpError>)
    ensures (r.Some? && r.value.statusCode == BadRequest) <==> Extension(filename) !in AllowedExtensions
    ensures (r.Some? && r.value.statusCode == RequestEntityTooLarge) <==>
      Extension(filename) in AllowedExtensions && size > MaxUploadSize
    ensures r.None? <==> Extension(filename) in AllowedExtensions && size <= MaxUploadSize
    ensures r.Some? ==>
      r.value.detail == if r.value.statusCode == BadRequest then TypeDetail(Extension(filename)) else SizeDetail()
  {
    var extension := Extension(filename);
    if extension !in AllowedExtensions then Some(HttpError(BadRequest, TypeDetail(extension)))
    else if size > MaxUploadSize then Some(HttpError(RequestEntityTooLarge, SizeDetail()))
    else None
  }

  /** The size limit as the 413 detail spells it. */
  lemma SizeDetailText()
    ensures SizeDetail() == "File size exceeds maximum allowed size of 10485760 bytes"
  {
    assert Decimal(1) == "1";
    assert Decimal(10) == Decimal(1) + [DigitChar(0)];
    assert Decimal(104) == Decimal(10) + [DigitChar(4)];
    assert Decimal(1048) == Decimal(104) + [DigitChar(8)];
    assert Decimal(10485) == Decimal(1048) + [DigitChar(5)];
    assert Decimal(104857) == Decimal(10485) + [DigitChar(7)];
    assert Decimal(1048576) == Decimal(104857) + [DigitChar(6)];
    assert Decimal(10485760) == Decimal(1048576) + [DigitChar(0)];
  }

  /** `upload_dir / f"{document_id}_{file.filename}"`. */
  function StoredPath(documentId: string, filename: string): string {
    UploadDir + "/" + documentId + "_" + filename
  }

  /** The 500 raised for anything that goes wrong once the target path is chosen. */
  function ProcessingError(message: string): HttpError {
    HttpError(InternalServerError, "Error processing file: " + message)
  }

  /** What `upload_file` answers for one file. The stored file stays only on success: every
      failure inside the try block unlinks it. */
  function UploadOutcome(f: IncomingFile, load: LoadFn, split: SplitFn, add: AddFn): UploadResult
    requires IsUuidHex(f.uuidHex)
  {
    match CheckUpload(f.filename, f.size)
    case Some(e) => UploadResult(Failure(Http(e)), None)
    case None =>
      var documentId := ShortId("doc_", f.uuidHex);
      if f.mkdirError.Some? then UploadResult(Failure(Other(f.mkdirError.value)), None)
      else
        var filePath := StoredPath(documentId, f.filename);
        match f.write
        case WriteFailed(m) => UploadResult(Failure(Http(ProcessingError(m))), None)
        case Written =>
          match ProcessedChunks(filePath, f.filename, load, split)
          case Failure(m) => UploadResult(Failure(Http(ProcessingError(m))), None)
          case Success(chunks) =>
            match add(TagOwners(chunks, documentId))
            case Failure(m) => UploadResult(Failure(Http(ProcessingError(m))), None)
            case Success(_) =>
              UploadResult(Success(UploadResponse(documentId, f.filename, |chunks|, "processed",
                                                  "Successfully processed " + f.filename)),
                           Some(filePath))
  }

  /** `upload_file`: validate, draw the id, save, process, store, answer. */
  method UploadFile(f: IncomingFile, load: LoadFn, split: SplitFn, add: AddFn) returns (res: UploadResult)
    requires IsUuidHex(f.uuidHex)
    ensures res == UploadOutcome(f, load, split, add)
  {
    var rejection := CheckUpload(f.filename, f.size);
    if rejection.Some? {
      return UploadResult(Failure(Http(rejection.value)), None);
    }
    var documentId := ShortId("doc_", f.uuidHex);
    if f.mkdirError.Some? {
      return UploadResult(Failure(Other(f.mkdirError.value)), None);
    }
    var filePath := StoredPath(documentId, f.filename);
    if f.write.WriteFailed? {
      return UploadResult(Failure(Http(ProcessingError(f.write.message))), None);
    }
    var chunks := ProcessFile(filePath, f.filename, load, split);
    if chunks.Failure? {
      return UploadResult(Failure(Http(ProcessingError(chunks.error))), None);
    }
    var stored := AddDocuments(chunks.value, documentId, add);
    if stored.Failure? {
      return UploadResult(Failure(Http(ProcessingError(stored.error))), None);
    }
    res := UploadResult(Success(UploadResponse(documentId, f.filename, |chunks.value|, "processed",
                                               "Successfully processed " + f.filename)),
                        Some(filePath));
  }

  /** A rejected file is answered by its guard alone: the id, the file system, the loaders and
      the store play no part, and nothing is left on disk. */
  lemma RejectedBeforeAnything(f: IncomingFile, g: IncomingFile, load: LoadFn, split: SplitFn, add: AddFn,
                               load': LoadFn, split': SplitFn, add': AddFn)
    requires IsUuidHex(f.uuidHex) && IsUuidHex(g.uuidHex)
    requires f.filename == g.filename && f.size == g.size
    requires CheckUpload(f.filename, f.size).Some?
    ensures UploadOutcome(f, load, split, add) == UploadOutcome(g, load', split', add')
    ensures UploadOutcome(f, load, split, add) == UploadResult(Failure(Http(CheckUpload(f.filename, f.size).value)), None)
  {
  }

  /** The whitelist and the loader dispatch agree: a file that passes validation always finds
      a loader, so the "Unsupported file type" error cannot arise behind the route. */
  lemma AcceptedHasLoader(filename: string, size: nat)
    requires CheckUpload(filename, size).None?
    ensures LoaderFor(filename).Some?
  {
  }

  /** A successful upload answers with a "doc_" id cut from the drawn uuid, the request's
      filename, the number of chunks processing produced and status "processed", and keeps the
      file stored under that id; the store accepted the chunks tagged with that id. */
  lemma UploadSucceeded(f: IncomingFile, load: LoadFn, split: SplitFn, add: AddFn)
    requires IsUuidHex(f.uuidHex)
    requires UploadOutcome(f, load, split, add).response.Success?
    ensures var r := UploadOutcome(f, load, split, add);
      var resp := r.response.value;
      && CheckUpload(f.filename, f.size).None? && f.mkdirError.None? && f.write.Written?
      && IsShortId(resp.documentId, "doc_") && resp.documentId[4..] == f.uuidHex[..12]
      && resp.filename == f.filename && resp.status == "processed"
      && r.kept == Some(StoredPath(resp.documentId, f.filename))
      && ProcessedChunks(StoredPath(resp.documentId, f.filename), f.filename, load, split).Success?
      && var chunks := ProcessedChunks(StoredPath(resp.documentId, f.filename), f.filename, load, split).value;
         resp.numChunks == |chunks| && add(TagOwners(chunks, resp.documentId)).Success?
  {
  }

  /** Every failure once the path is chosen is a 500 whose detail is "Error processing file: "
      followed by the message of the step that failed (the write, the loading and chunking, or
      the store), and the stored file is gone; a non-HTTP exception can only come from `mkdir`,
      and a 500 arises exactly past the guards. */
  lemma UploadFailed(f: IncomingFile, load: LoadFn, split: SplitFn, add: AddFn)
    requires IsUuidHex(f.uuidHex)
    requires UploadOutcome(f, load, split, add).response.Failure?
    ensures UploadOutcome(f, load, split, add).kept == None
    ensures var e := UploadOutcome(f, load, split, add).response.error;
      && (e.Other? <==> CheckUpload(f.filename, f.size).None? && f.mkdirError.Some?)
      && (e.Other? ==> e.message == f.mkdirError.value)
      && (e.Http? && CheckUpload(f.filename, f.size).None? <==> e.Http? && e.error.statusCode == InternalServerError)
      && (e.Http? && e.error.statusCode == InternalServerError ==>
            CheckUpload(f.filename, f.size).None? && f.mkdirError.None? &&
            e.error.detail[..|"Error processing file: "|] == "Error processing file: ")
    ensures CheckUpload(f.filename, f.size).None? && f.mkdirError.None? ==>
      var e := UploadOutcome(f, load, split, add).response.error;
      var path := StoredPath(ShortId("doc_", f.uuidHex), f.filename);
      && (f.write.WriteFailed? ==> e == Http(ProcessingError(f.write.message)))
      && (f.write.Written? && ProcessedChunks(path, f.filename, load, split).Failure? ==>
            e == Http(ProcessingError(ProcessedChunks(path, f.filename, load, split).error)))
      && (f.write.Written? && ProcessedChunks(path, f.filename, load, split).Success? ==>
            var stored := add(TagOwners(ProcessedChunks(path, f.filename, load, split).value, ShortId("doc_", f.uuidHex)));
            stored.Failure? && e == Http(ProcessingError(stored.error)))
  {
  }

  /** The chunks handed to the store by a successful upload carry the owner id, the filename and
      their own position as index. */
  lemma StoredChunksTagged(pages: seq<DocValue>, split: SplitFn, filename: string, documentId: string, i: nat)
    requires i < |split(pages)|
    ensures var stored := TagOwners(TagChunks(split(pages), filename), documentId);
      && |stored| == |split(pages)|
      && stored[i].pageContent == split(pages)[i].pageContent
      && stored[i].metadata[DocumentIdKey] == MStr(documentId)
      && stored[i].metadata[FilenameKey] == MStr(filename)
      && stored[i].metadata[ChunkIndexKey] == MInt(i)
  {
  }

  /** The batch entry for one file: the route's response, a "failed" response carrying the HTTP
      error's detail, or the non-HTTP exception that aborts the batch. */
  function BatchEntry(f: IncomingFile, load: LoadFn, split: SplitFn, add: AddFn): Result<UploadResponse, string>
    requires IsUuidHex(f.uuidHex)
  {
    match UploadOutcome(f, load, split, add).response
    case Success(resp) => Success(resp)
    case Failure(Http(e)) => Success(UploadResponse("", f.filename, 0, "failed", e.detail))
    case Failure(Other(m)) => Failure(m)
  }

  /** A batch entry is either a processed upload or a failed one with an empty id, no chunks and
      the error's detail as message; it aborts only on a `mkdir` error. */
  lemma BatchEntryShape(f: IncomingFile, load: LoadFn, split: SplitFn, add: AddFn)
    requires IsUuidHex(f.uuidHex)
    ensures var r := BatchEntry(f, load, split, add);
      && (r.Failure? <==> CheckUpload(f.filename, f.size).None? && f.mkdirError.Some?)
      && (r.Success? ==> r.value.filename == f.filename && (r.value.status == "processed" || r.value.status == "failed"))
      && (r.Success? && r.value.status == "failed" <==>
            UploadOutcome(f, load, split, add).response.Failure? && UploadOutcome(f, load, split, add).response.error.Http?)
      && (r.Success? && r.value.status == "failed" ==>
            r.value == UploadResponse("", f.filename, 0, "failed", UploadOutcome(f, load, split, add).response.error.error.detail))
      && (r.Success? && r.value.status == "processed" ==> r == Success(UploadOutcome(f, load, split, add).response.value))
  {
  }

  predicate AllDrawn(files: seq<IncomingFile>) {
    forall i :: 0 <= i < |files| ==> IsUuidHex(files[i].uuidHex)
  }

  /** The batch route's answer (or the exception that escapes it) and the stored files it leaves. */
  datatype BatchResult = BatchResult(responses: Result<seq<UploadResponse>, string>, kept: seq<string>)

  /** What one file contributes to a batch: its entry and the stored file it leaves, if any. */
  datatype Step = Step(entry: Result<UploadResponse, string>, kept: seq<string>)

  function FileStep(f: IncomingFile, load: LoadFn, split: SplitFn, add: AddFn): Step
    requires IsUuidHex(f.uuidHex)
  {
    var r := UploadOutcome(f, load, split, add);
    Step(BatchEntry(f, load, split, add), if r.kept.Some? then [r.kept.value] else [])
  }

  function FileSteps(files: seq<IncomingFile>, load: LoadFn, split: SplitFn, add: AddFn): (r: seq<Step>)
    requires AllDrawn(files)
    ensures |r| == |files| && forall i :: 0 <= i < |files| ==> r[i] == FileStep(files[i], load, split, add)
  {
    seq(|files|, i requires 0 <= i < |files| && AllDrawn(files) => FileStep(files[i], load, split, add))
  }

  /** The loop of `upload_multiple_files` over the files' contributions, in order: entries are
      appended, and an aborting exception ends the batch with the files stored so far left in place. */
  function Collect(steps: seq<Step>): BatchResult
    decreases |steps|
  {
    if steps == [] then BatchResult(Success([]), [])
    else
      var prev := Collect(steps[..|steps| - 1]);
      var s := steps[|steps| - 1];
      if prev.responses.Failure? then prev
      else
        match s.entry
        case Success(resp) => BatchResult(Success(prev.responses.value + [resp]), prev.kept + s.kept)
        case Failure(m) => BatchResult(Failure(m), prev.kept + s.kept)
  }

  /** What `upload_multiple_files` answers for a list of files. */
  function BatchOutcome(files: seq<IncomingFile>, load: LoadFn, split: SplitFn, add: AddFn): BatchResult
    requires AllDrawn(files)
  {
    Collect(FileSteps(files, load, split, add))
  }

  /** Once the batch has aborted, later files change nothing. */
  lemma {:induction false} CollectAbortSticks(steps: seq<Step>, i: nat)
    requires i <= |steps|
    requires Collect(steps[..i]).responses.Failure?
    ensures Collect(steps) == Collect(steps[..i])
    decreases |steps|
  {
    if i < |steps| {
      assert steps[..|steps| - 1][..i] == steps[..i];
      CollectAbortSticks(steps[..|steps| - 1], i);
    } else {
      assert steps[..i] == steps;
    }
  }

  /** Unless some entry aborts, there is exactly one response per step, in order, and it is
      that step's own entry. */
  lemma {:induction false} CollectOnePerStep(steps: seq<Step>)
    ensures Collect(steps).responses.Success? <==> forall i :: 0 <= i < |steps| ==> steps[i].entry.Success?
    ensures Collect(steps).responses.Success? ==>
      |Collect(steps).responses.value| == |steps| &&
      forall i :: 0 <= i < |steps| ==> Success(Collect(steps).responses.value[i]) == steps[i].entry
    decreases |steps|
  {
    if steps != [] {
      var init := steps[..|steps| - 1];
      CollectOnePerStep(init);
      assert forall i :: 0 <= i < |init| ==> init[i] == steps[i];
    }
  }

  /** Batch isolation: unless some file aborts the batch, there is exactly one response per
      file, in input order, and each is the entry that file gets on its own, so a failed file
      does not affect the files after it. */
  lemma BatchOneResponsePerFile(files: seq<IncomingFile>, load: LoadFn, split: SplitFn, add: AddFn)
    requires AllDrawn(files)
    ensures BatchOutcome(files, load, split, add).responses.Success? <==>
      forall i :: 0 <= i < |files| ==> BatchEntry(files[i], load, split, add).Success?
    ensures BatchOutcome(files, load, split, add).responses.Success? ==>
      var rs := BatchOutcome(files, load, split, add).responses.value;
      |rs| == |files| && forall i :: 0 <= i < |files| ==> Success(rs[i]) == BatchEntry(files[i], load, split, add)
  {
    CollectOnePerStep(FileSteps(files, load, split, add));
  }

  /** `upload_multiple_files`: the loop that appends one response per file, catching only
      HTTPException. */
  method UploadMultipleFiles(files: seq<IncomingFile>, load: LoadFn, split: SplitFn, add: AddFn) returns (r: BatchResult)
    requires AllDrawn(files)
    ensures r == BatchOutcome(files, load, split, add)
  {
    ghost var steps := FileSteps(files, load, split, add);
    var responses: seq<UploadResponse> := [];
    var kept: seq<string> := [];
    var i := 0;
    while i < |files|
      invariant 0 <= i <= |files|
      invariant Collect(steps[..i]) == BatchResult(Success(responses), kept)
    {
      var one := UploadFile(files[i], load, split, add);
      assert steps[..i + 1][..i] == steps[..i];
      kept := kept + if one.kept.Some? then [one.kept.value] else [];
      match one.response {
        case Success(resp) =>
          responses := responses + [resp];
        case Failure(Http(e)) =>
          responses := responses + [UploadResponse("", files[i].filename, 0, "failed", e.detail)];
        case Failure(Other(m)) =>
          CollectAbortSticks(steps, i + 1);
          return BatchResult(Failure(m), kept);
      }
      i := i + 1;
    }
    assert steps[..i] == steps;
    r := BatchResult(Success(responses), kept);
  }
}
