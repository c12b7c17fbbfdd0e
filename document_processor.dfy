/** Loading an uploaded file into pages and cutting the pages into indexed chunks
    (backend/app/services/document_processor.py). The loaders and the text splitter are library
    code: they are parameters here, and what they hand back is materialised as new Document
    objects, as the libraries do. */
module DocumentProcessor {
  import opened Common
  import opened Text
  import opened Documents

  /** The three LangChain loaders the service dispatches to. */
  datatype Loader = PyPdfLoader | TextLoader | Docx2txtLoader

  /** `loader.load()` on the file at a path: the pages it reads, or the message of what it raised. */
  type LoadFn = (Loader, string) -> Result<seq<DocValue>, string>

  /** `text_splitter.split_documents(documents)`: the chunk values the splitter produces. */
  type SplitFn = seq<DocValue> -> seq<DocValue>

  /** The loader chosen for a filename, by its lower-cased suffix alone. */
  function LoaderFor(filename: string): (r: Option<Loader>)
    ensures r == Some(PyPdfLoader) <==> Extension(filename) == ".pdf"
    ensures r == Some(TextLoader) <==> Extension(filename) == ".txt"
    ensures r == Some(Docx2txtLoader) <==> Extension(filename) == ".docx"
    ensures r.None? <==> Extension(filename) !in {".pdf", ".txt", ".docx"}
  {
    var ext := Extension(filename);
    if ext == ".pdf" then Some(PyPdfLoader)
    else if ext == ".txt" then Some(TextLoader)
    else if ext == ".docx" then Some(Docx2txtLoader)
    else None
  }

  /** The message of the ValueError raised for any other suffix. */
  function UnsupportedMessage(filename: string): string {
    "Unsupported file type: " + Extension(filename)
  }

  /** One loaded page after `load_document` has written its filename and path into it. */
  function TagPage(d: DocValue, filename: string, filePath: string): DocValue {
    d.(metadata := d.metadata[FilenameKey := MStr(filename)][SourceKey := MStr(filePath)])
  }

  function TagPages(pages: seq<DocValue>, filename: string, filePath: string): seq<DocValue> {
    seq(|pages|, i requires 0 <= i < |pages| => TagPage(pages[i], filename, filePath))
  }

  /** What `load_document(file_path, filename)` returns or raises. */
  function LoadedPages(filePath: string, filename: string, load: LoadFn): Result<seq<DocValue>, string> {
    match LoaderFor(filename)
    case None => Failure(UnsupportedMessage(filename))
    case Some(loader) =>
      match load(loader, filePath)
      case Failure(e) => Failure(e)
      case Success(pages) => Success(TagPages(pages, filename, filePath))
  }

  /** `load_document`: pick the loader, load, then tag every page in place. */
  method LoadDocument(filePath: string, filename: string, load: LoadFn) returns (r: Result<seq<Document>, string>)
    ensures r.Failure? ==> LoadedPages(filePath, filename, load) == Failure(r.error)
    ensures r.Success? ==> LoadedPages(filePath, filename, load) == Success(Values(r.value))
    ensures r.Success? ==> Distinct(r.value) && forall d :: d in r.value ==> fresh(d)
  {
    var loader := LoaderFor(filename);
    if loader.None? {
      return Failure(UnsupportedMessage(filename));
    }
    var loaded := load(loader.value, filePath);
    if loaded.Failure? {
      return Failure(loaded.error);
    }
    var pages := loaded.value;
    var documents := NewDocuments(pages);
    var i := 0;
    while i < |documents|
      invariant 0 <= i <= |documents| == |pages|
      invariant forall d :: d in documents ==> fresh(d)
      invariant forall j :: 0 <= j < i ==> documents[j].Value() == TagPage(pages[j], filename, filePath)
      invariant forall j :: i <= j < |documents| ==> documents[j].Value() == pages[j]
    {
      assert documents[i] in documents;
      documents[i].metadata := documents[i].metadata[FilenameKey := MStr(filename)];
      documents[i].metadata := documents[i].metadata[SourceKey := MStr(filePath)];
      i := i + 1;
    }
    assert Values(documents) == TagPages(pages, filename, filePath);
    r := Success(documents);
  }

  /** Chunk number `index` after `chunk_documents` has written its index and the filename into it. */
  function TagChunk(d: DocValue, index: nat, filename: string): DocValue {
    d.(metadata := d.metadata[ChunkIndexKey := MInt(index)][FilenameKey := MStr(filename)])
  }

  function TagChunks(chunks: seq<DocValue>, filename: string): seq<DocValue> {
    seq(|chunks|, i requires 0 <= i < |chunks| => TagChunk(chunks[i], i, filename))
  }

  /** `chunk_documents`: split, then number and tag every chunk in place. */
  method ChunkDocuments(documents: seq<Document>, filename: string, split: SplitFn) returns (chunks: seq<Document>)
    ensures Values(chunks) == TagChunks(split(Values(documents)), filename)
    ensures Distinct(chunks) && forall c :: c in chunks ==> fresh(c)
  {
    var pieces := split(Values(documents));
    chunks := NewDocuments(pieces);
    var idx := 0;
    while idx < |chunks|
      invariant 0 <= idx <= |chunks| == |pieces|
      invariant forall c :: c in chunks ==> fresh(c)
      invariant forall j :: 0 <= j < idx ==> chunks[j].Value() == TagChunk(pieces[j], j, filename)
      invariant forall j :: idx <= j < |chunks| ==> chunks[j].Value() == pieces[j]
    {
      assert chunks[idx] in chunks;
      chunks[idx].metadata := chunks[idx].metadata[ChunkIndexKey := MInt(idx)];
      chunks[idx].metadata := chunks[idx].metadata[FilenameKey := MStr(filename)];
      idx := idx + 1;
    }
    assert Values(chunks) == TagChunks(pieces, filename);
  }

  /** What `process_file(file_path, filename)` returns or raises. */
  function ProcessedChunks(filePath: string, filename: string, load: LoadFn, split: SplitFn): Result<seq<DocValue>, string> {
    match LoadedPages(filePath, filename, load)
    case Failure(e) => Failure(e)
    case Success(pages) => Success(TagChunks(split(pages), filename))
  }

  /** `process_file`: `chunk_documents(load_document(file_path, filename), filename)`. */
  method ProcessFile(filePath: string, filename: string, load: LoadFn, split: SplitFn) returns (r: Result<seq<Document>, string>)
    ensures r.Failure? ==> ProcessedChunks(filePath, filename, load, split) == Failure(r.error)
    ensures r.Success? ==> ProcessedChunks(filePath, filename, load, split) == Success(Values(r.value))
    ensures r.Success? ==> Distinct(r.value) && forall c :: c in r.value ==> fresh(c)
  {
    var documents := LoadDocument(filePath, filename, load);
    if documents.Failure? {
      return Failure(documents.error);
    }
    var chunks := ChunkDocuments(documents.value, filename, split);
    r := Success(chunks);
  }

  /** The chunk indices of a document are exactly 0, 1, ..., n-1, each carried by one chunk. */
  lemma ChunkIndicesExact(chunks: seq<DocValue>, filename: string)
    ensures var r := TagChunks(chunks, filename);
      && (forall i, j :: 0 <= i < j < |r| ==> r[i].metadata[ChunkIndexKey] != r[j].metadata[ChunkIndexKey])
      && (set c | c in r && ChunkIndexKey in c.metadata :: c.metadata[ChunkIndexKey])
         == (set i | 0 <= i < |r| :: MInt(i))
  {
    var r := TagChunks(chunks, filename);
    var left := set c | c in r && ChunkIndexKey in c.metadata :: c.metadata[ChunkIndexKey];
    var right := set i | 0 <= i < |r| :: MInt(i);
    forall v | v in left ensures v in right {
      var c :| c in r && ChunkIndexKey in c.metadata && c.metadata[ChunkIndexKey] == v;
      var k :| 0 <= k < |r| && r[k] == c;
      assert v == MInt(k);
    }
    forall v | v in right ensures v in left {
      var k :| 0 <= k < |r| && v == MInt(k);
      assert r[k] in r && r[k].metadata[ChunkIndexKey] == v;
    }
  }

  /** Tagging a chunk sets its index and filename (overwriting earlier values), and leaves its
      text and every other metadata key as the splitter produced them. */
  lemma TagChunkFrame(d: DocValue, index: nat, filename: string, key: string)
    ensures TagChunk(d, index, filename).pageContent == d.pageContent
    ensures TagChunk(d, index, filename).metadata[ChunkIndexKey] == MInt(index)
    ensures TagChunk(d, index, filename).metadata[FilenameKey] == MStr(filename)
    ensures key != ChunkIndexKey && key != FilenameKey ==>
      (key in TagChunk(d, index, filename).metadata <==> key in d.metadata) &&
      (key in d.metadata ==> TagChunk(d, index, filename).metadata[key] == d.metadata[key])
  {
  }

  /** Tagging a page sets its filename and source path and leaves everything else alone. */
  lemma TagPageFrame(d: DocValue, filename: string, filePath: string, key: string)
    ensures TagPage(d, filename, filePath).pageContent == d.pageContent
    ensures TagPage(d, filename, filePath).metadata[FilenameKey] == MStr(filename)
    ensures TagPage(d, filename, filePath).metadata[SourceKey] == MStr(filePath)
    ensures key != FilenameKey && key != SourceKey ==>
      (key in TagPage(d, filename, filePath).metadata <==> key in d.metadata) &&
      (key in d.metadata ==> TagPage(d, filename, filePath).metadata[key] == d.metadata[key])
  {
  }

  /** An upper-case suffix selects the same loader as its lower-case spelling. */
  lemma LoaderIgnoresCase(filename: string)
    ensures LoaderFor(Lower(filename)) == LoaderFor(filename)
  {
    ExtensionIgnoresCase(filename);
  }
}
