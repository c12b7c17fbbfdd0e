/** The uploader's state (frontend/src/components/FileUploader.tsx): the list of uploaded-file
    entries and the uploading flag. A drop appends one `uploading` entry per accepted file, then
    uploads the files one after another, settling each file's entry by its temporary id, and
    finally reports the ids of the documents that were stored. The upload results and the
    `Date.now()` readings are parameters; the drop runs as one step. */
module Uploader {
  import opened Common
  import opened Text
  import opened Api
  import opened Lists

  datatype UploadStatus = Uploading | Succeeded | Errored

  datatype UploadedFile = UploadedFile(id: string, name: string, size: nat, status: UploadStatus,
                                       numChunks: Option<nat>, errorMessage: Option<string>)

  /** A file the dropzone accepted. */
  datatype FileInput = FileInput(name: string, size: nat)

  /** What `apiService.uploadFile` resolved to, or what it threw. */
  type Outcome = Result<UploadResponse, Thrown>

  /** `temp-${Date.now()}-${file.name}`. */
  function TempId(now: nat, name: string): string {
    "temp-" + Decimal(now) + "-" + name
  }

  function NewEntry(file: FileInput, now: nat): UploadedFile {
    UploadedFile(TempId(now, file.name), file.name, file.size, Uploading, None, None)
  }

  /** The entries a drop appends, one per accepted file, in file order. */
  function NewEntries(files: seq<FileInput>, stamps: seq<nat>): seq<UploadedFile>
    requires |stamps| == |files|
  {
    seq(|files|, i requires 0 <= i < |files| && |stamps| == |files| => NewEntry(files[i], stamps[i]))
  }

  function TempIds(files: seq<FileInput>, stamps: seq<nat>): seq<string>
    requires |stamps| == |files|
  {
    seq(|files|, i requires 0 <= i < |files| && |stamps| == |files| => TempId(stamps[i], files[i].name))
  }

  function HasId(id: string): UploadedFile -> bool {
    (f: UploadedFile) => f.id == id
  }

  /** How one upload's result rewrites a matching entry: on success the entry takes the
      document id, status success and the chunk count; on failure it keeps its id and gets
      status error and the message. Name and size always stay. */
  function Settle(outcome: Outcome): UploadedFile -> UploadedFile {
    (f: UploadedFile) =>
      match outcome
      case Success(resp) => f.(id := resp.documentId, status := Succeeded, numChunks := Some(resp.numChunks))
      case Failure(t) => f.(status := Errored, errorMessage := Some(ThrownText(t, "Upload failed")))
  }

  /** The list after one upload settles: every entry with the temporary id is rewritten. */
  function Apply(entries: seq<UploadedFile>, tempId: string, outcome: Outcome): seq<UploadedFile> {
    ReplaceWhere(entries, HasId(tempId), Settle(outcome))
  }

  /** The list after the uploads of a drop have settled, in order. */
  function AfterUploads(entries: seq<UploadedFile>, tempIds: seq<string>, outcomes: seq<Outcome>): (r: seq<UploadedFile>)
    requires |tempIds| == |outcomes|
    ensures |r| == |entries|
    decreases |outcomes|
  {
    if outcomes == [] then entries
    else
      var n := |outcomes| - 1;
      Apply(AfterUploads(entries, tempIds[..n], outcomes[..n]), tempIds[n], outcomes[n])
  }

  /** The document ids of the successful uploads, in file order: the `uploadedDocIds` array. */
  function SuccessIds(outcomes: seq<Outcome>): (r: seq<string>)
    ensures |r| <= |outcomes|
    ensures r == [] <==> forall i :: 0 <= i < |outcomes| ==> outcomes[i].Failure?
    decreases |outcomes|
  {
    if outcomes == [] then []
    else
      var n := |outcomes| - 1;
      SuccessIds(outcomes[..n]) + (if outcomes[n].Success? then [outcomes[n].value.documentId] else [])
  }

  /** The collected ids follow the files: the ids of a run of uploads followed by another are
      the first run's ids followed by the second's. */
  lemma {:induction false} SuccessIdsInFileOrder(a: seq<Outcome>, b: seq<Outcome>)
    ensures SuccessIds(a + b) == SuccessIds(a) + SuccessIds(b)
    decreases |b|
  {
    if b == [] {
      assert a + b == a;
    } else {
      var n := |b| - 1;
      assert (a + b)[..|a + b| - 1] == a + b[..n];
      SuccessIdsInFileOrder(a, b[..n]);
    }
  }

  /** A single upload contributes its document id exactly when it succeeded. */
  lemma SuccessIdsOne(o: Outcome)
    ensures SuccessIds([o]) == if o.Success? then [o.value.documentId] else []
  {
    assert [o][..0] == [];
  }

  /** What the drop hands to `onUploadComplete`: the ids, once, when there is a callback and at
      least one upload succeeded. */
  function Notification(hasCallback: bool, ids: seq<string>): Option<seq<string>> {
    if hasCallback && ids != [] then Some(ids) else None
  }

  predicate NoneUploading(entries: seq<UploadedFile>) {
    forall k :: 0 <= k < |entries| ==> entries[k].status != Uploading
  }

  /** A settled upload leaves an entry `uploading` only when that entry did not carry its
      temporary id, and then leaves it as it was. */
  lemma ApplyKeepsUploading(entries: seq<UploadedFile>, tempId: string, outcome: Outcome, k: nat)
    requires k < |entries| && Apply(entries, tempId, outcome)[k].status == Uploading
    ensures Apply(entries, tempId, outcome)[k] == entries[k] && entries[k].id != tempId
  {
  }

  /** One settled upload moves the frontier by one: if before it only entries from position
      `bound` on are still `uploading` and untouched, and the entry at `bound` (if uploading)
      carries the settled temporary id, then afterwards only entries from `bound + 1` on are. */
  lemma SettleAdvances(start: seq<UploadedFile>, before: seq<UploadedFile>, tempId: string, outcome: Outcome,
                       bound: nat, k: nat)
    requires |before| == |start|
    requires forall j :: 0 <= j < |before| && before[j].status == Uploading ==> before[j] == start[j] && j >= bound
    requires bound < |start| && start[bound].status == Uploading ==> start[bound].id == tempId
    requires k < |before| && Apply(before, tempId, outcome)[k].status == Uploading
    ensures Apply(before, tempId, outcome)[k] == start[k] && k >= bound + 1
  {
    ApplyKeepsUploading(before, tempId, outcome, k);
  }

  /** Every upload of a drop settles its entry. Before the uploads, an `uploading` entry is
      the new entry of file k - base and carries that file's temporary id; after the first i
      results, an entry still `uploading` belongs to a file not yet uploaded and is untouched. */
  lemma {:induction false} UploadsSettle(start: seq<UploadedFile>, base: nat, tempIds: seq<string>,
                                         outcomes: seq<Outcome>, i: nat)
    requires |tempIds| == |outcomes| && i <= |tempIds|
    requires forall k :: 0 <= k < |start| && start[k].status == Uploading ==>
      base <= k < base + |tempIds| && start[k].id == tempIds[k - base]
    ensures var r := AfterUploads(start, tempIds[..i], outcomes[..i]);
      forall k :: 0 <= k < |r| && r[k].status == Uploading ==> r[k] == start[k] && k >= base + i
    decreases i
  {
    if i > 0 {
      UploadsSettle(start, base, tempIds, outcomes, i - 1);
      var before := AfterUploads(start, tempIds[..i - 1], outcomes[..i - 1]);
      assert tempIds[..i][..i - 1] == tempIds[..i - 1] && outcomes[..i][..i - 1] == outcomes[..i - 1];
      var r := AfterUploads(start, tempIds[..i], outcomes[..i]);
      assert r == Apply(before, tempIds[i - 1], outcomes[i - 1]);
      var bound := base + i - 1;
      assert bound < |start| && start[bound].status == Uploading ==> start[bound].id == tempIds[i - 1];
      forall k | 0 <= k < |r| && r[k].status == Uploading
        ensures r[k] == start[k] && k >= base + i
      {
        SettleAdvances(start, before, tempIds[i - 1], outcomes[i - 1], bound, k);
      }
    }
  }

  /** Right after the append, the earlier entries come first, unchanged, then one `uploading`
      entry per accepted file, in file order, carrying the file's temporary id, name and size;
      the only `uploading` entries are these new ones. */
  lemma AppendedShape(prior: seq<UploadedFile>, files: seq<FileInput>, stamps: seq<nat>)
    requires |stamps| == |files|
    requires NoneUploading(prior)
    ensures var start := prior + NewEntries(files, stamps);
      |start| == |prior| + |files| && start[..|prior|] == prior
    ensures var start := prior + NewEntries(files, stamps);
      forall i :: 0 <= i < |files| ==>
        start[|prior| + i] == UploadedFile("temp-" + Decimal(stamps[i]) + "-" + files[i].name, files[i].name,
                                           files[i].size, Uploading, None, None)
    ensures var start := prior + NewEntries(files, stamps);
      forall k :: 0 <= k < |start| && start[k].status == Uploading ==>
        |prior| <= k < |prior| + |files| && start[k].id == TempIds(files, stamps)[k - |prior|]
  {
    var added := NewEntries(files, stamps);
    var start := prior + added;
    forall k | 0 <= k < |start| && start[k].status == Uploading
      ensures |prior| <= k < |prior| + |files| && start[k].id == TempIds(files, stamps)[k - |prior|]
    {
      if k >= |prior| {
        assert start[k] == added[k - |prior|];
      }
    }
  }

  /** After a whole drop no entry is left `uploading`, provided none was before. */
  lemma NoneLeftUploading(prior: seq<UploadedFile>, files: seq<FileInput>, stamps: seq<nat>, outcomes: seq<Outcome>)
    requires |stamps| == |files| == |outcomes|
    requires NoneUploading(prior)
    ensures NoneUploading(AfterUploads(prior + NewEntries(files, stamps), TempIds(files, stamps), outcomes))
  {
    var start := prior + NewEntries(files, stamps);
    var ids := TempIds(files, stamps);
    AppendedShape(prior, files, stamps);
    UploadsSettle(start, |prior|, ids, outcomes, |files|);
    assert ids[..|files|] == ids;
    assert outcomes[..|files|] == outcomes;
  }

  /** A settled upload rewrites exactly the entries carrying its temporary id: the others are
      left as they were, and the matching ones keep their name and size. */
  lemma ApplyFrame(entries: seq<UploadedFile>, tempId: string, outcome: Outcome, k: nat)
    requires k < |entries|
    ensures var r := Apply(entries, tempId, outcome);
      && |r| == |entries|
      && (entries[k].id != tempId ==> r[k] == entries[k])
      && (entries[k].id == tempId ==>
            && r[k].name == entries[k].name && r[k].size == entries[k].size
            && (outcome.Success? ==>
                  r[k].id == outcome.value.documentId && r[k].status == Succeeded &&
                  r[k].numChunks == Some(outcome.value.numChunks) && r[k].errorMessage == entries[k].errorMessage)
            && (outcome.Failure? ==>
                  r[k].id == tempId && r[k].status == Errored && r[k].numChunks == entries[k].numChunks &&
                  r[k].errorMessage == Some(ThrownText(outcome.error, "Upload failed"))))
  {
  }

  /** Entries that were in the list before the drop are untouched by its uploads when none of
      them shares an id with the drop's temporary ids. */
  lemma {:induction false} EarlierEntriesKept(prior: seq<UploadedFile>, added: seq<UploadedFile>,
                                              tempIds: seq<string>, outcomes: seq<Outcome>)
    requires |tempIds| == |outcomes|
    requires forall k, j :: 0 <= k < |prior| && 0 <= j < |tempIds| ==> prior[k].id != tempIds[j]
    ensures AfterUploads(prior + added, tempIds, outcomes)[..|prior|] == prior
    decreases |outcomes|
  {
    if outcomes != [] {
      var n := |outcomes| - 1;
      assert forall j :: 0 <= j < n ==> tempIds[..n][j] == tempIds[j];
      EarlierEntriesKept(prior, added, tempIds[..n], outcomes[..n]);
      var before := AfterUploads(prior + added, tempIds[..n], outcomes[..n]);
      var r := Apply(before, tempIds[n], outcomes[n]);
      forall k | 0 <= k < |prior| ensures r[k] == prior[k] {
        assert before[k] == before[..|prior|][k];
      }
    }
  }

  class FileUploader {
    var uploadedFiles: seq<UploadedFile>
    var isUploading: bool

    /** Between handlers nothing is uploading and every entry has settled. */
    ghost predicate Valid()
      reads this
    {
      !isUploading && NoneUploading(uploadedFiles)
    }

    constructor ()
      ensures Valid() && uploadedFiles == []
    {
      uploadedFiles := [];
      isUploading := false;
    }

    /** `onDrop`: an empty drop does nothing. Otherwise the new entries are appended, the file
        uploads run in order with each result settling its entry, the uploading flag is raised
        throughout, and `onUploadComplete` (present when `hasCallback`) receives the stored
        document ids. `stamps[i]` is the clock reading for file i and `outcomes[i]` its upload's
        result. Returns what the callback was given, if it was called. */
    method OnDrop(accepted: seq<FileInput>, stamps: seq<nat>, outcomes: seq<Outcome>, hasCallback: bool)
      returns (notified: Option<seq<string>>)
      requires Valid() && |stamps| == |accepted| == |outcomes|
      modifies this
      ensures Valid()
      ensures accepted == [] ==> uploadedFiles == old(uploadedFiles) && notified == None
      ensures accepted != [] ==>
        uploadedFiles == AfterUploads(old(uploadedFiles) + NewEntries(accepted, stamps), TempIds(accepted, stamps), outcomes)
      ensures notified == Notification(hasCallback, SuccessIds(outcomes))
    {
      if accepted == [] {
        return None;
      }
      isUploading := true;
      var newFiles := NewEntries(accepted, stamps);
      ghost var start := uploadedFiles + newFiles;
      ghost var prior := uploadedFiles;
      uploadedFiles := uploadedFiles + newFiles;
      var uploadedDocIds: seq<string> := [];
      var i := 0;
      while i < |accepted|
        invariant 0 <= i <= |accepted|
        invariant isUploading
        invariant uploadedFiles == AfterUploads(start, TempIds(accepted, stamps)[..i], outcomes[..i])
        invariant uploadedDocIds == SuccessIds(outcomes[..i])
      {
        var tempId := newFiles[i].id;
        assert TempIds(accepted, stamps)[..i + 1][..i] == TempIds(accepted, stamps)[..i];
        assert outcomes[..i + 1][..i] == outcomes[..i];
        match outcomes[i] {
          case Success(response) =>
            uploadedFiles := ReplaceWhere(uploadedFiles, HasId(tempId), Settle(outcomes[i]));
            uploadedDocIds := uploadedDocIds + [response.documentId];
          case Failure(error) =>
            uploadedFiles := ReplaceWhere(uploadedFiles, HasId(tempId), Settle(outcomes[i]));
        }
        i := i + 1;
      }
      assert TempIds(accepted, stamps)[..i] == TempIds(accepted, stamps);
      assert outcomes[..i] == outcomes;
      NoneLeftUploading(prior, accepted, stamps, outcomes);
      isUploading := false;
      notified := if hasCallback && |uploadedDocIds| > 0 then Some(uploadedDocIds) else None;
    }

    /** `removeFile`: drops every entry with the id and keeps the others in order. */
    method RemoveFile(fileId: string)
      requires Valid()
      modifies this
      ensures Valid()
      ensures uploadedFiles == RemoveWhere(old(uploadedFiles), HasId(fileId))
    {
      ghost var before := uploadedFiles;
      uploadedFiles := RemoveWhere(uploadedFiles, HasId(fileId));
      forall k | 0 <= k < |uploadedFiles| ensures uploadedFiles[k].status != Uploading {
        RemoveWhereCounts(before, HasId(fileId), uploadedFiles[k]);
        assert uploadedFiles[k] in multiset(uploadedFiles);
      }
    }
  }

  /** Removing keeps every entry with another id as often as it was there, and no entry with
      the removed id. */
  lemma RemoveFileKeepsOthers(entries: seq<UploadedFile>, fileId: string, e: UploadedFile)
    ensures multiset(RemoveWhere(entries, HasId(fileId)))[e] == if e.id == fileId then 0 else multiset(entries)[e]
  {
    RemoveWhereCounts(entries, HasId(fileId), e);
  }
}
