/** The question-answering service (backend/app/services/rag_service.py): a registry of
    conversation memories keyed by conversation id, the defaulting of the conversation id, the
    retrieval settings built from the optional document ids, and the conversion of retrieved
    chunks into citations. The LangChain chain (retrieval plus the language model) is a
    parameter that answers or raises. */
module RagService {
  import opened Common
  import opened Text
  import opened Documents
  import opened Api
  import Settings
  import opened VectorStore
  import DocumentProcessor

  /** One question and its answer, as a conversation memory records them. */
  datatype Turn = Turn(question: string, answer: string)

  /** LangChain's ConversationBufferMemory: the turns recorded for one conversation. */
  class ConversationMemory {
    var turns: seq<Turn>

    constructor ()
      ensures turns == []
    {
      turns := [];
    }
  }

  /** The retriever's `search_kwargs`. */
  datatype SearchKwargs = SearchKwargs(k: nat, filter: Option<Filter>)

  /** `{"k": retrieval_k}`, plus `"filter": {"document_id": {"$in": document_ids}}` when the
      document ids are given and non-empty. */
  function SearchKwargsFor(documentIds: Option<seq<string>>): (r: SearchKwargs)
    ensures r.k == Settings.RetrievalK
    ensures r.filter.Some? <==> documentIds.Some? && documentIds.value != []
    ensures r.filter.Some? ==> r.filter.value == DocumentIdIn(documentIds.value)
  {
    if documentIds.Some? && documentIds.value != [] then
      SearchKwargs(Settings.RetrievalK, Some(DocumentIdIn(documentIds.value)))
    else
      SearchKwargs(Settings.RetrievalK, None)
  }

  /** The conversation id `ask_question` works under: the caller's, unless it is None or "",
      in which case `"conv_"` and twelve hex digits of a fresh uuid. */
  function ResolveConversationId(conversationId: Option<string>, hex: string): (r: string)
    requires IsUuidHex(hex)
    ensures Truthy(conversationId) ==> r == conversationId.value
    ensures !Truthy(conversationId) ==> IsShortId(r, "conv_") && r[5..] == hex[..12]
    ensures r != ""
  {
    if Truthy(conversationId) then conversationId.value else ShortId("conv_", hex)
  }

  /** What a citation's field receives when the metadata value has the wrong kind: the
      pydantic model refuses it. */
  function ValidationError(field: string): string {
    "validation error for SourceDocument: " + field
  }

  /** The citation `_format_sources` builds from one retrieved chunk, or the validation error
      the SourceDocument model raises when a metadata value has the wrong kind. */
  function CitationFor(d: DocValue): (r: Result<SourceDocument, string>)
    ensures r.Success? ==> r.value.content == d.pageContent && r.value.similarityScore == None
    ensures r.Success? ==>
      && (if FilenameKey in d.metadata then d.metadata[FilenameKey] == MStr(r.value.documentName)
          else r.value.documentName == "Unknown")
      && (if DocumentIdKey in d.metadata then d.metadata[DocumentIdKey] == MStr(r.value.documentId)
          else r.value.documentId == "")
      && (if PageKey in d.metadata then r.value.page.Some? && d.metadata[PageKey] == MInt(r.value.page.value)
          else r.value.page == None)
      && (if ChunkIndexKey in d.metadata then d.metadata[ChunkIndexKey] == MInt(r.value.chunkIndex)
          else r.value.chunkIndex == 0)
    ensures r.Failure? <==>
      || (FilenameKey in d.metadata && !d.metadata[FilenameKey].MStr?)
      || (DocumentIdKey in d.metadata && !d.metadata[DocumentIdKey].MStr?)
      || (PageKey in d.metadata && !d.metadata[PageKey].MInt?)
      || (ChunkIndexKey in d.metadata && !d.metadata[ChunkIndexKey].MInt?)
  {
    var m := d.metadata;
    var name := if FilenameKey in m then m[FilenameKey] else MStr("Unknown");
    var documentId := if DocumentIdKey in m then m[DocumentIdKey] else MStr("");
    var chunkIndex := if ChunkIndexKey in m then m[ChunkIndexKey] else MInt(0);
    if !name.MStr? then Failure(ValidationError("document_name"))
    else if !documentId.MStr? then Failure(ValidationError("document_id"))
    else if PageKey in m && !m[PageKey].MInt? then Failure(ValidationError("page"))
    else if !chunkIndex.MInt? then Failure(ValidationError("chunk_index"))
    else Success(SourceDocument(d.pageContent, name.s, documentId.s,
                                if PageKey in m then Some(m[PageKey].i) else None,
                                chunkIndex.i, None))
  }

  /** What `_format_sources` returns: one citation per chunk in order, or the first chunk's
      validation error. */
  function FormattedSources(docs: seq<DocValue>): (r: Result<seq<SourceDocument>, string>)
    ensures r.Success? <==> forall i :: 0 <= i < |docs| ==> CitationFor(docs[i]).Success?
    ensures r.Success? ==> |r.value| == |docs| && forall i :: 0 <= i < |docs| ==> CitationFor(docs[i]) == Success(r.value[i])
  {
    if docs == [] then Success([])
    else
      match CitationFor(docs[0])
      case Failure(e) => Failure(e)
      case Success(c) =>
        match FormattedSources(docs[1..])
        case Failure(e) => Failure(e)
        case Success(cs) => Success([c] + cs)
  }

  /** The error raised is that of the first chunk that fails validation. */
  lemma {:induction false} FormattedSourcesFirstFailure(docs: seq<DocValue>, i: nat)
    requires i < |docs| && CitationFor(docs[i]).Failure?
    requires forall j :: 0 <= j < i ==> CitationFor(docs[j]).Success?
    ensures FormattedSources(docs) == Failure(CitationFor(docs[i]).error)
  {
    if i > 0 {
      FormattedSourcesFirstFailure(docs[1..], i - 1);
    }
  }

  /** `_format_sources`: the loop appending one SourceDocument per retrieved chunk. */
  method FormatSources(sourceDocs: seq<DocValue>) returns (r: Result<seq<SourceDocument>, string>)
    ensures r == FormattedSources(sourceDocs)
  {
    var formatted: seq<SourceDocument> := [];
    var i := 0;
    while i < |sourceDocs|
      invariant 0 <= i <= |sourceDocs| && |formatted| == i
      invariant forall j :: 0 <= j < i ==> CitationFor(sourceDocs[j]) == Success(formatted[j])
    {
      var source := CitationFor(sourceDocs[i]);
      if source.Failure? {
        FormattedSourcesFirstFailure(sourceDocs, i);
        return Failure(source.error);
      }
      formatted := formatted + [source.value];
      i := i + 1;
    }
    assert FormattedSources(sourceDocs).Success?;
    assert FormattedSources(sourceDocs).value == formatted;
    r := Success(formatted);
  }

  /** A chunk written by the ingestion path (indexed and tagged by `chunk_documents`, owned by
      `add_documents`) comes back as a citation with its filename, document id, page and index. */
  lemma CitationOfIngestedChunk(pieces: seq<DocValue>, filename: string, documentId: string, i: nat)
    requires i < |pieces|
    requires PageKey in pieces[i].metadata ==> pieces[i].metadata[PageKey].MInt?
    ensures var stored := TagOwners(DocumentProcessor.TagChunks(pieces, filename), documentId)[i];
      var page := if PageKey in pieces[i].metadata then Some(pieces[i].metadata[PageKey].i) else None;
      CitationFor(stored) == Success(SourceDocument(pieces[i].pageContent, filename, documentId, page, i, None))
  {
  }

  /** One run of ConversationalRetrievalChain: the question, the memory's turns so far and the
      retriever's settings. */
  datatype ChainCall = ChainCall(question: string, history: seq<Turn>, searchKwargs: SearchKwargs)

  /** The chain's answer with the `source_documents` entry when there is one, or what it raised. */
  datatype ChainResult = ChainAnswered(answer: string, sourceDocuments: Option<seq<DocValue>>) | ChainRaised(message: string)

  type ChainFn = ChainCall -> ChainResult

  /** The dictionary `ask_question` returns. */
  datatype QuestionResult = QuestionResult(answer: string, sources: seq<SourceDocument>, conversationId: string, messageId: string)

  /** What `ask_question` returns or raises, given the turns recorded before the call. */
  function AskOutcome(question: string, conversationId: string, documentIds: Option<seq<string>>,
                      prior: seq<Turn>, msgHex: string, chain: ChainFn): Result<QuestionResult, string>
    requires IsUuidHex(msgHex)
  {
    match chain(ChainCall(question, prior, SearchKwargsFor(documentIds)))
    case ChainRaised(e) => Failure(e)
    case ChainAnswered(answer, docs) =>
      match FormattedSources(docs.GetOr([]))
      case Failure(e) => Failure(e)
      case Success(sources) => Success(QuestionResult(answer, sources, conversationId, ShortId("msg_", msgHex)))
  }

  /** The turns a memory holds after `ask_question`: the chain records the turn once it has answered. */
  function TurnsAfter(question: string, documentIds: Option<seq<string>>, prior: seq<Turn>, chain: ChainFn): seq<Turn> {
    match chain(ChainCall(question, prior, SearchKwargsFor(documentIds)))
    case ChainRaised(_) => prior
    case ChainAnswered(answer, _) => prior + [Turn(question, answer)]
  }

  class RAGService {
    var conversationMemories: map<string, ConversationMemory>

    /** Every conversation has a memory of its own. */
    ghost predicate Valid()
      reads this
    {
      forall a, b :: a in conversationMemories && b in conversationMemories && a != b ==>
        conversationMemories[a] != conversationMemories[b]
    }

    constructor ()
      ensures Valid() && conversationMemories == map[]
    {
      conversationMemories := map[];
    }

    /** `_get_or_create_memory`. */
    method GetOrCreateMemory(conversationId: string) returns (memory: ConversationMemory)
      requires Valid()
      modifies this
      ensures Valid()
      ensures conversationId in old(conversationMemories) ==>
        memory == old(conversationMemories)[conversationId] && conversationMemories == old(conversationMemories)
      ensures conversationId !in old(conversationMemories) ==>
        fresh(memory) && memory.turns == [] && conversationMemories == old(conversationMemories)[conversationId := memory]
      ensures conversationMemories[conversationId] == memory
      ensures conversationMemories.Keys == old(conversationMemories).Keys + {conversationId}
    {
      if conversationId !in conversationMemories {
        var created := new ConversationMemory();
        conversationMemories := conversationMemories[conversationId := created];
      }
      memory := conversationMemories[conversationId];
    }

    /** `clear_conversation`: forget the conversation if it is known; otherwise do nothing. */
    method ClearConversation(conversationId: string)
      requires Valid()
      modifies this
      ensures Valid()
      ensures conversationMemories == old(conversationMemories) - {conversationId}
    {
      if conversationId in conversationMemories {
        conversationMemories := conversationMemories - {conversationId};
      }
    }

    /** `ask_question`. The memory is registered before the chain runs, so it stays registered
        when the chain raises. `convHex` and `msgHex` are the two uuid4 hex strings drawn. */
    method AskQuestion(question: string, conversationId: Option<string>, documentIds: Option<seq<string>>,
                       convHex: string, msgHex: string, chain: ChainFn) returns (r: Result<QuestionResult, string>)
      requires Valid() && IsUuidHex(convHex) && IsUuidHex(msgHex)
      modifies this, conversationMemories.Values
      ensures Valid()
      ensures var id := ResolveConversationId(conversationId, convHex);
        var prior := if id in old(conversationMemories) then old(conversationMemories[id].turns) else [];
        && conversationMemories.Keys == old(conversationMemories).Keys + {id}
        && (forall c :: c in old(conversationMemories) ==> conversationMemories[c] == old(conversationMemories)[c])
        && (id !in old(conversationMemories) ==> fresh(conversationMemories[id]))
        && (forall c :: c in old(conversationMemories) && c != id ==>
              conversationMemories[c].turns == old(conversationMemories[c].turns))
        && conversationMemories[id].turns == TurnsAfter(question, documentIds, prior, chain)
        && r == AskOutcome(question, id, documentIds, prior, msgHex, chain)
    {
      var id := ResolveConversationId(conversationId, convHex);
      var memory := GetOrCreateMemory(id);
      var searchKwargs := SearchKwargsFor(documentIds);
      var outcome := chain(ChainCall(question, memory.turns, searchKwargs));
      match outcome
      case ChainRaised(e) =>
        r := Failure(e);
      case ChainAnswered(answer, docs) =>
        memory.turns := memory.turns + [Turn(question, answer)];
        var sources := FormatSources(docs.GetOr([]));
        if sources.Failure? {
          r := Failure(sources.error);
        } else {
          r := Success(QuestionResult(answer, sources.value, id, ShortId("msg_", msgHex)));
        }
    }
  }

  /** Get-or-create is idempotent: a second call with the same id returns the memory the first
      returned, and the registry gains at most that one key. */
  method GetOrCreateTwice(service: RAGService, conversationId: string) returns (first: ConversationMemory, second: ConversationMemory)
    requires service.Valid()
    modifies service
    ensures service.Valid()
    ensures first == second
    ensures service.conversationMemories.Keys == old(service.conversationMemories).Keys + {conversationId}
  {
    first := service.GetOrCreateMemory(conversationId);
    second := service.GetOrCreateMemory(conversationId);
  }

  /** Clearing twice leaves the registry as clearing once does, and clearing an unknown id leaves
      it as it was. */
  method ClearTwice(service: RAGService, conversationId: string)
    requires service.Valid()
    modifies service
    ensures service.conversationMemories == old(service.conversationMemories) - {conversationId}
    ensures conversationId !in old(service.conversationMemories) ==>
      service.conversationMemories == old(service.conversationMemories)
  {
    service.ClearConversation(conversationId);
    service.ClearConversation(conversationId);
  }

  /** Two questions asked under one conversation id share its memory: the first result carries
      the generated "conv_" id; asking again under that id runs the chain with the first turn as
      its history, answers under the same id, and records both turns in order. `a1` is what the
      chain answers to the opening question. */
  method ConversationContinuity(q1: string, q2: string, a1: string, hex: string, chain: ChainFn)
    returns (first: Result<QuestionResult, string>, second: Result<QuestionResult, string>,
             firstId: string, turns: seq<Turn>)
    requires IsUuidHex(hex)
    requires chain(ChainCall(q1, [], SearchKwargsFor(None))).ChainAnswered?
    requires chain(ChainCall(q1, [], SearchKwargsFor(None))).answer == a1
    ensures IsShortId(firstId, "conv_")
    ensures first == AskOutcome(q1, firstId, None, [], hex, chain)
    ensures first.Success? ==> first.value.conversationId == firstId && first.value.answer == a1
    ensures second == AskOutcome(q2, firstId, None, [Turn(q1, a1)], hex, chain)
    ensures second.Success? ==> second.value.conversationId == firstId
    ensures turns == TurnsAfter(q2, None, [Turn(q1, a1)], chain)
    ensures chain(ChainCall(q2, [Turn(q1, a1)], SearchKwargsFor(None))).ChainAnswered? ==>
      turns == [Turn(q1, a1), Turn(q2, chain(ChainCall(q2, [Turn(q1, a1)], SearchKwargsFor(None))).answer)]
  {
    var service := new RAGService();
    first := service.AskQuestion(q1, None, None, hex, hex, chain);
    firstId := ResolveConversationId(None, hex);
    assert service.conversationMemories.Keys == {firstId};
    assert service.conversationMemories[firstId].turns == [Turn(q1, a1)];
    assert ResolveConversationId(Some(firstId), hex) == firstId;
    second := service.AskQuestion(q2, Some(firstId), None, hex, hex, chain);
    turns := service.conversationMemories[firstId].turns;
  }
}
