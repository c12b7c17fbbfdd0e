/** LangChain's `Document`: page text plus a metadata dictionary that the ingestion code writes
    into in place. */
module Documents {

  /** The metadata values the modelled code writes or reads: strings and integers. */
  datatype MetaValue = MStr(s: string) | MInt(i: int)

  type Metadata = map<string, MetaValue>

  /** The value held by a Document at one moment. */
  datatype DocValue = DocValue(pageContent: string, metadata: Metadata)

  const FilenameKey: string := "filename"
  const SourceKey: string := "source"
  const ChunkIndexKey: string := "chunk_index"
  const DocumentIdKey: string := "document_id"
  const PageKey: string := "page"

  class Document {
    var pageContent: string
    var metadata: Metadata

    constructor (v: DocValue)
      ensures Value() == v
    {
      pageContent := v.pageContent;
      metadata := v.metadata;
    }

    function Value(): DocValue
      reads this
    {
      DocValue(pageContent, metadata)
    }
  }

  /** The current values of a list of documents. */
  function Values(docs: seq<Document>): (r: seq<DocValue>)
    reads set d | d in docs
    ensures |r| == |docs|
    ensures forall i :: 0 <= i < |docs| ==> r[i] == docs[i].Value()
  {
    seq(|docs|, i requires 0 <= i < |docs| reads set d | d in docs => docs[i].Value())
  }

  /** No document object occurs twice in the list. */
  predicate Distinct(docs: seq<Document>) {
    forall i, j :: 0 <= i < j < |docs| ==> docs[i] != docs[j]
  }

  /** Allocates one new Document per value, as a loader or the text splitter does. */
  method NewDocuments(vals: seq<DocValue>) returns (docs: seq<Document>)
    ensures Distinct(docs)
    ensures forall d :: d in docs ==> fresh(d)
    ensures Values(docs) == vals
  {
    docs := [];
    var i := 0;
    while i < |vals|
      invariant 0 <= i <= |vals| && |docs| == i
      invariant Distinct(docs)
      invariant forall d :: d in docs ==> fresh(d)
      invariant forall j :: 0 <= j < i ==> docs[j].Value() == vals[j]
    {
      var d := new Document(vals[i]);
      docs := docs + [d];
      i := i + 1;
    }
  }
}
