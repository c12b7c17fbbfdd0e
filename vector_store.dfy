/** The repository's own logic around the Chroma store (backend/app/services/vector_store.py):
    the owner tag written into every chunk before insertion, and the search wrappers' defaults.
    Chroma itself is a parameter. */
module VectorStore {
  import opened Common
  import opened Documents

  /** Chroma's `add_documents`: the ids it assigns, or the message of what it raised. */
  type AddFn = seq<DocValue> -> Result<seq<string>, string>

  /** A chunk after `add_documents` has written its owning document id into it. */
  function TagOwner(d: DocValue, documentId: string): DocValue {
    d.(metadata := d.metadata[DocumentIdKey := MStr(documentId)])
  }

  function TagOwners(docs: seq<DocValue>, documentId: string): seq<DocValue> {
    seq(|docs|, i requires 0 <= i < |docs| => TagOwner(docs[i], documentId))
  }

  /** `add_documents`: tag every document in place, then hand the list to the store. The tags
      stay written even when the store raises. A document listed twice is simply tagged twice. */
  method AddDocuments(documents: seq<Document>, documentId: string, add: AddFn) returns (r: Result<seq<string>, string>)
    modifies set d | d in documents
    ensures forall i :: 0 <= i < |documents| ==> documents[i].Value() == TagOwner(old(documents[i].Value()), documentId)
    ensures Values(documents) == TagOwners(old(Values(documents)), documentId)
    ensures r == add(Values(documents))
  {
    var i := 0;
    while i < |documents|
      invariant 0 <= i <= |documents|
      invariant forall j :: 0 <= j < i ==> documents[j].Value() == TagOwner(old(documents[j].Value()), documentId)
      invariant forall j :: i <= j < |documents| ==>
        documents[j].Value() == TagOwner(old(documents[j].Value()), documentId) ||
        documents[j].Value() == old(documents[j].Value())
    {
      assert documents[i] in documents;
      documents[i].metadata := documents[i].metadata[DocumentIdKey := MStr(documentId)];
      i := i + 1;
    }
    assert Values(documents) == TagOwners(old(Values(documents)), documentId);
    r := add(Values(documents));
  }

  /** Tagging twice with the same id is tagging once. */
  lemma TagOwnersIdempotent(docs: seq<DocValue>, documentId: string)
    ensures TagOwners(TagOwners(docs, documentId), documentId) == TagOwners(docs, documentId)
  {
    forall i | 0 <= i < |docs|
      ensures TagOwner(TagOwner(docs[i], documentId), documentId) == TagOwner(docs[i], documentId)
    {
      var m := docs[i].metadata;
      assert m[DocumentIdKey := MStr(documentId)][DocumentIdKey := MStr(documentId)] == m[DocumentIdKey := MStr(documentId)];
    }
  }

  /** Re-tagging with another id replaces the owner: the last write wins. */
  lemma TagOwnersLastWriteWins(docs: seq<DocValue>, first: string, second: string)
    ensures TagOwners(TagOwners(docs, first), second) == TagOwners(docs, second)
  {
    forall i | 0 <= i < |docs|
      ensures TagOwner(TagOwner(docs[i], first), second) == TagOwner(docs[i], second)
    {
      var m := docs[i].metadata;
      assert m[DocumentIdKey := MStr(first)][DocumentIdKey := MStr(second)] == m[DocumentIdKey := MStr(second)];
    }
  }

  /** The owner tag touches only the `document_id` key. */
  lemma TagOwnerFrame(d: DocValue, documentId: string, key: string)
    ensures TagOwner(d, documentId).pageContent == d.pageContent
    ensures TagOwner(d, documentId).metadata[DocumentIdKey] == MStr(documentId)
    ensures key != DocumentIdKey ==>
      (key in TagOwner(d, documentId).metadata <==> key in d.metadata) &&
      (key in d.metadata ==> TagOwner(d, documentId).metadata[key] == d.metadata[key])
  {
  }

  /** The metadata filter the question service passes to Chroma: `{"document_id": {"$in": ids}}`. */
  datatype Filter = DocumentIdIn(ids: seq<string>)

  /** One call into Chroma's similarity search. */
  datatype SearchCall = SearchCall(query: string, k: int, filter: Option<Filter>)

  /** The default `k` of both search wrappers. */
  const DefaultK: int := 4

  /** `similarity_search`: passes the query, k and filter to Chroma unchanged. */
  function SimilaritySearch(chroma: SearchCall -> seq<DocValue>, query: string, k: int := DefaultK,
                            filterDict: Option<Filter> := None): seq<DocValue>
  {
    chroma(SearchCall(query, k, filterDict))
  }

  /** `similarity_search_with_score`: the same pass-through, returning scored documents. */
  function SimilaritySearchWithScore(chroma: SearchCall -> seq<(DocValue, real)>, query: string, k: int := DefaultK,
                                     filterDict: Option<Filter> := None): seq<(DocValue, real)>
  {
    chroma(SearchCall(query, k, filterDict))
  }

  /** Called without k or a filter, both wrappers ask Chroma for 4 results and no filter; given
      a k and a filter, they pass both on unchanged. */
  lemma SearchDefaults(chroma: SearchCall -> seq<DocValue>, scored: SearchCall -> seq<(DocValue, real)>,
                       query: string, k: int, filterDict: Option<Filter>)
    ensures SimilaritySearch(chroma, query) == chroma(SearchCall(query, 4, None))
    ensures SimilaritySearchWithScore(scored, query) == scored(SearchCall(query, 4, None))
    ensures SimilaritySearch(chroma, query, k, filterDict) == chroma(SearchCall(query, k, filterDict))
    ensures SimilaritySearchWithScore(scored, query, k, filterDict) == scored(SearchCall(query, k, filterDict))
  {
  }
}
