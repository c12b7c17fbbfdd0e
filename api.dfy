/** The data shapes that cross the HTTP boundary (backend/app/api/models/responses.py and
    frontend/src/types/api.types.ts describe the same JSON). */
module Api {
  import opened Common

  /** A citation of one retrieved chunk. `similarityScore` is never filled in by the backend. */
  datatype SourceDocument = SourceDocument(
    content: string,
    documentName: string,
    documentId: string,
    page: Option<int>,
    chunkIndex: int,
    similarityScore: Option<real>)

  datatype ChatRequest = ChatRequest(
    question: string,
    conversationId: Option<string>,
    documentIds: Option<seq<string>>)

  datatype ChatResponse = ChatResponse(
    answer: string,
    sources: seq<SourceDocument>,
    conversationId: string,
    messageId: string,
    timestamp: string)

  datatype UploadResponse = UploadResponse(
    documentId: string,
    filename: string,
    numChunks: nat,
    status: string,
    message: string)

  /** What a failed request throws in the frontend: an `Error` with a message, or something else. */
  datatype Thrown = ErrorObject(message: string) | NonError

  /** `error instanceof Error ? error.message : fallback`. */
  function ThrownText(t: Thrown, fallback: string): string {
    match t
    case ErrorObject(m) => m
    case NonError => fallback
  }
}
