# Knowledge Assist RAG: a verified model of its own logic

Knowledge Assist is a document question-answering system. A FastAPI backend ingests PDF, text
and Word files: it validates an upload, stores it, loads it into pages, splits the pages into
chunks, tags every chunk with its index, filename and owning document id, and adds the chunks
to a Chroma vector store. A question is answered by a LangChain conversational retrieval chain
that keeps one conversation memory per conversation id; the retrieved chunks come back as
citations. A React frontend holds the chat window's message list and the uploader's file list.

This project models the parts of that system the repository writes itself, and proves what
they promise:

- **Ingestion tagging** (`DocumentProcessor`, `VectorStore`). LangChain documents are objects
  whose metadata dictionaries are written in place. `Documents.Document` is a class, and each
  loop in the source is a method with a loop over those objects. Each method is proved
  against a function on document values (`TagPages`, `TagChunks`, `TagOwners`). The lemmas
  then show that chunk indices are exactly 0..n-1, that every chunk carries its filename and
  owner, that nothing else in a chunk changes, and that owner tagging is idempotent with the
  last write winning.
- **The question service** (`RagService`). `RAGService` holds a map from conversation id to
  memory object. It covers get-or-create, clear, the defaulting of the conversation id, the
  retrieval settings built from optional document ids, and the conversion of retrieved chunks
  into citations, including pydantic's rejection of ill-typed metadata. `AskQuestion` is
  proved against `AskOutcome` and `TurnsAfter`: the memory is registered before the chain runs,
  and no other conversation changes.
- **The upload routes** (`Upload`). This covers the ordered guards (extension whitelist, then
  size limit with equality accepted), the `doc_` id and the storage path, and the 500 with
  clean-up on every later error. The batch route turns each file's HTTP error into a "failed"
  entry. Any other exception (in this model only `mkdir` raises one) escapes the loop, and then the batch
  answers nothing. Without such an exception there is one response per file, in order.
- **The two frontend state machines** (`Chat`, `Uploader`):
  - The chat window's send happens in two steps split at its `await`: the user message and a
    loading placeholder are appended, then the placeholder is replaced by id or traded for an
    error message.
  - The conversation id is adopted once, and clearing resets the window.
  - In the uploader, a drop appends `uploading` entries, settles each by its temporary id and
    reports the ids of the stored documents. After a drop no entry is left `uploading`.

Library calls are parameters of the model:
- the document loaders (`LoadFn`);
- the text splitter (`SplitFn`);
- Chroma's `add_documents` (`AddFn`) and search;
- the conversational chain (`ChainFn`);
- the HTTP calls of the frontend (their results are arguments).

Randomness and clocks are inputs: uuid4 hex strings (`IsUuidHex`) and `Date.now()` readings.
`Text` models the few host-language string operations the code relies on:
- JavaScript `trim`;
- Python `str.lower`;
- pathlib's `name` and `suffix`;
- decimal rendering.

## Model

| member | source | states |
|---|---|---|
| Text.ExtensionIgnoresCase | backend/app/services/document_processor.py:40 | the extension `Path(filename).suffix.lower()` of a lower-cased filename equals that of the filename, so upper-case suffixes are treated like lower-case ones |
| Text.Suffix | backend/app/api/routes/upload.py:37 | the suffix is empty or starts at the last dot of the name, is longer than the dot alone, holds no other dot, and is a tail of the name |
| Text.SuffixNonEmptyIff | backend/app/api/routes/upload.py:37 | the suffix is non-empty exactly when some dot of the name is neither its first nor its last character and has no dot after it, and the suffix then starts at that dot |
| Text.SuffixExamples | backend/app/api/routes/upload.py:37 | "a.pdf" has suffix ".pdf", "archive.tar.gz" has ".gz", and ".bashrc", "notes." and "README" have none |
| Text.TrimEmptyIff | frontend/src/components/ChatWindow.tsx:27 | `trim()` yields "" exactly when every character is JavaScript whitespace |
| Text.ShortId | backend/app/api/routes/upload.py:56 | a prefix plus the first 12 hex digits of a uuid4 hex string is the prefix followed by 12 lower-case hex digits |
| DocumentProcessor.LoaderFor | backend/app/services/document_processor.py:40-50 | `.pdf`, `.txt` and `.docx` (after lower-casing) select the PDF, text and docx loaders, each exactly for its suffix; every other suffix selects none |
| DocumentProcessor.LoaderIgnoresCase | backend/app/services/document_processor.py:40-50 | the loader chosen for a lower-cased filename is the one chosen for the filename |
| DocumentProcessor.LoadDocument | backend/app/services/document_processor.py:29-64 | raises "Unsupported file type: " plus the extension when no loader applies, re-raises a loader failure, and otherwise returns fresh, distinct documents whose values are the loaded pages each tagged with `filename` and `source` |
| DocumentProcessor.TagPageFrame | backend/app/services/document_processor.py:56-58 | a tagged page has `filename` = the filename and `source` = the path; its text and every other metadata key are unchanged |
| DocumentProcessor.ChunkDocuments | backend/app/services/document_processor.py:66-89 | the returned chunks are fresh, distinct, and hold exactly the splitter's output, in order, with chunk i tagged `chunk_index` = i and `filename` |
| DocumentProcessor.ChunkIndicesExact | backend/app/services/document_processor.py:84-85 | after tagging, no two chunks share an index and the set of indices is exactly {0, ..., n-1} |
| DocumentProcessor.TagChunkFrame | backend/app/services/document_processor.py:84-86 | a tagged chunk has the given index and filename (overwriting earlier values); its text and other metadata keys are unchanged |
| DocumentProcessor.ProcessFile | backend/app/services/document_processor.py:91-109 | `process_file` fails as `load_document` fails, and otherwise returns `chunk_documents` applied to the loaded pages |
| VectorStore.AddDocuments | backend/app/services/vector_store.py:46-68 | every listed document ends with `document_id` = the id and is otherwise unchanged; list length and order are kept; the store receives the tagged values and its answer is returned |
| VectorStore.TagOwnersIdempotent | backend/app/services/vector_store.py:62-63 | tagging twice with the same owner equals tagging once |
| VectorStore.TagOwnersLastWriteWins | backend/app/services/vector_store.py:62-63 | tagging with a second owner replaces the first |
| VectorStore.TagOwnerFrame | backend/app/services/vector_store.py:62-63 | the owner tag sets only `document_id`; text and all other keys are unchanged |
| VectorStore.SearchDefaults | backend/app/services/vector_store.py:70-108 | without k or a filter, both searches ask the store for 4 results and no filter; given values are passed on unchanged |
| RagService.SearchKwargsFor | backend/app/services/rag_service.py:80-82 | k is always `retrieval_k` (4); the `document_id $in` filter is present exactly when the ids are given and non-empty, and then holds those ids |
| RagService.ResolveConversationId | backend/app/services/rag_service.py:73-74 | a non-empty id is kept; None or "" becomes "conv_" plus the first 12 hex digits of the drawn uuid; the id is never empty |
| RagService.CitationFor | backend/app/services/rag_service.py:119-127 | a citation carries the chunk's text, its filename or "Unknown", its document id or "", its page or None, its index or 0, and no similarity score; the model rejects it exactly when one of these metadata values has the wrong type |
| RagService.FormattedSources | backend/app/services/rag_service.py:115-130 | the citations succeed exactly when every chunk validates, and then there is one citation per chunk, in order |
| RagService.FormattedSourcesFirstFailure | backend/app/services/rag_service.py:119-128 | the error raised is the one of the first chunk that fails validation |
| RagService.FormatSources | backend/app/services/rag_service.py:115-130 | the loop produces exactly `FormattedSources` of its input |
| RagService.CitationOfIngestedChunk | backend/app/services/rag_service.py:120-127 | a chunk tagged by ingestion is cited with the upload's filename and document id, its page and its own position as index |
| RagService.RAGService.constructor | backend/app/services/rag_service.py:24 | a new service holds no conversation memories |
| RagService.RAGService.GetOrCreateMemory | backend/app/services/rag_service.py:45-53 | a known id returns its memory and leaves the map unchanged; an unknown id gets exactly one new, empty memory; the key set becomes old keys plus the id |
| RagService.RAGService.ClearConversation | backend/app/services/rag_service.py:132-136 | the map loses the id if present and nothing else; an unknown id is a no-op |
| RagService.RAGService.AskQuestion | backend/app/services/rag_service.py:55-113 | the answer (or the raised error) is `AskOutcome` for the resolved id and the memory's prior turns; the memory is registered even when the chain raises, gains the turn when the chain answers, and all other conversations are untouched |
| RagService.GetOrCreateTwice | backend/app/services/rag_service.py:45-53 | two get-or-create calls with one id return the same memory and add at most that key |
| RagService.ClearTwice | backend/app/services/rag_service.py:132-136 | clearing twice equals clearing once; clearing an unknown id changes nothing |
| RagService.ConversationContinuity | backend/app/services/rag_service.py:73-99 | the first answer carries the generated "conv_" id; a second question under that id runs the chain with exactly the first turn as history, answers under the same id, and leaves both turns recorded in order |
| Upload.CheckUpload | backend/app/api/routes/upload.py:36-53 | 400 exactly when the lower-cased suffix is not allowed; 413 exactly when it is allowed and the size exceeds 10 MiB; no error exactly when it is allowed and the size is at most the limit; each detail text as the route writes it |
| Upload.SizeDetailText | backend/app/api/routes/upload.py:49-53 | the 413 detail reads "File size exceeds maximum allowed size of 10485760 bytes" |
| Upload.UploadFile | backend/app/api/routes/upload.py:22-98 | the route answers exactly `UploadOutcome`: guards, id, `mkdir`, save, processing, owner tagging and storage, in that order |
| Upload.RejectedBeforeAnything | backend/app/api/routes/upload.py:36-62 | a rejected file's answer depends on its name and size alone: no id, path, file system step, loader or store is involved, and nothing stays on disk |
| Upload.AcceptedHasLoader | backend/app/api/routes/upload.py:37-42 | every file that passes validation finds a loader |
| Upload.UploadSucceeded | backend/app/api/routes/upload.py:55-87 | a success means every step succeeded; it carries a "doc_" id cut from the uuid, the request's filename, the chunk count and status "processed", and the file stays stored at `upload_dir/{id}_{filename}` |
| Upload.UploadFailed | backend/app/api/routes/upload.py:89-98 | after any failure no stored file remains; an HTTP error past the guards is always a 500, and a 500 arises only past the guards and `mkdir`; its detail is "Error processing file: " followed by the message of the failing write, load-and-chunk or store step; a non-HTTP exception arises exactly from `mkdir` and carries its message |
| Upload.StoredChunksTagged | backend/app/api/routes/upload.py:72-79 | the store receives one chunk per split piece, with its text, the owner id, the filename and its position as index |
| Upload.BatchEntryShape | backend/app/api/routes/upload.py:110-125 | a batch entry is the route's "processed" response, or a "failed" one with empty id, 0 chunks and the HTTP error's detail; only a non-HTTP exception aborts |
| Upload.CollectAbortSticks | backend/app/api/routes/upload.py:110-127 | once an exception escapes the loop, later files change nothing |
| Upload.CollectOnePerStep | backend/app/api/routes/upload.py:108-127 | without an abort the loop yields one response per file, in order, each that file's own entry |
| Upload.BatchOneResponsePerFile | backend/app/api/routes/upload.py:108-127 | the batch answers exactly when no file aborts it, and then with one response per file, in input order, each the entry the file gets on its own, so a failed file does not affect later ones |
| Upload.UploadMultipleFiles | backend/app/api/routes/upload.py:101-127 | the loop produces exactly `BatchOutcome` of the files |
| Chat.ChatWindow.constructor | frontend/src/components/ChatWindow.tsx:14-17 | the window starts with no messages, empty input, not loading, and no conversation id |
| Chat.ChatWindow.EditInput | frontend/src/components/ChatWindow.tsx:157 | typing sets the input and changes nothing else |
| Chat.ChatWindow.StartSend | frontend/src/components/ChatWindow.tsx:26-57 | blocked input or a pending request changes nothing and sends nothing; otherwise the user message with the trimmed text and then an empty loading placeholder are appended, the input is cleared, loading is set, and the request carries the trimmed text, the current conversation id and the document ids |
| Chat.ChatWindow.FinishSend | frontend/src/components/ChatWindow.tsx:60-99 | a reply replaces every message with the placeholder's id by the answer; a failure removes it and appends the error message; the conversation id is taken from the reply only when none existed, so a set id is kept; loading ends on both paths |
| Chat.ChatWindow.ClearChat | frontend/src/components/ChatWindow.tsx:109-119 | a known conversation id is sent to the server, and the window always ends with no messages and no conversation id, whatever the server call did |
| Chat.SendBlockedIff | frontend/src/components/ChatWindow.tsx:27 | a send is refused exactly when a request is pending or the input is all whitespace |
| Chat.IdKindsDiffer | frontend/src/components/ChatWindow.tsx:29-93 | for any contents, thrown values and clock readings, user, loading and error message ids never coincide |
| Chat.SendCycleAnswered | frontend/src/components/ChatWindow.tsx:37-81 | if no earlier message has the placeholder's id, an answered send leaves the old messages followed by the user message and the answer |
| Chat.SendCycleFailed | frontend/src/components/ChatWindow.tsx:37-95 | if no earlier message has the placeholder's id, a failed send leaves the old messages followed by the user message and the error message |
| Chat.AnsweredInPlace | frontend/src/components/ChatWindow.tsx:77-81 | when one message has the placeholder's id, the answer takes its position and nothing else changes |
| Chat.FailedShape | frontend/src/components/ChatWindow.tsx:84-95 | on failure the error message is last, and before it are exactly the old messages without the placeholder's id, in order and with their multiplicities |
| Chat.SendRoundTrip | frontend/src/components/ChatWindow.tsx:26-99 | one full send from an idle window grows the list by the user message and the answer (or the error), clears the input, ends idle, and keeps a set conversation id |
| Uploader.SuccessIds | frontend/src/components/FileUploader.tsx:37-60 | the collected ids are empty exactly when every upload failed, and there are at most as many as files |
| Uploader.SuccessIdsInFileOrder | frontend/src/components/FileUploader.tsx:37-60 | the collected ids of consecutive uploads are concatenated in file order |
| Uploader.SuccessIdsOne | frontend/src/components/FileUploader.tsx:43-74 | one upload contributes its document id exactly when it succeeded |
| Uploader.ApplyFrame | frontend/src/components/FileUploader.tsx:47-73 | entries without the temp id are untouched; matching entries keep name and size; success sets the document id, status success and chunk count; failure keeps the id and sets status error and the message |
| Uploader.ApplyKeepsUploading | frontend/src/components/FileUploader.tsx:47-73 | an entry still `uploading` after a result did not carry that result's temp id and is unchanged |
| Uploader.AppendedShape | frontend/src/components/FileUploader.tsx:27-34 | after the append, the earlier entries come first and unchanged, then one `uploading` entry per accepted file, in file order, with id `temp-{now}-{name}` and the file's name and size; the only `uploading` entries are these new ones |
| Uploader.SettleAdvances | frontend/src/components/FileUploader.tsx:39-75 | an upload that settles the entry at the frontier moves the frontier of still-`uploading` entries one file on, leaving those entries untouched |
| Uploader.UploadsSettle | frontend/src/components/FileUploader.tsx:39-75 | after the first i results, an entry still `uploading` is the untouched entry of a file not yet uploaded |
| Uploader.NoneLeftUploading | frontend/src/components/FileUploader.tsx:27-77 | after a whole drop no entry is left `uploading` |
| Uploader.EarlierEntriesKept | frontend/src/components/FileUploader.tsx:34-73 | entries from before the drop are untouched when none shares an id with the drop's temp ids |
| Uploader.FileUploader.constructor | frontend/src/components/FileUploader.tsx:17-18 | the uploader starts with no entries and not uploading |
| Uploader.FileUploader.OnDrop | frontend/src/components/FileUploader.tsx:20-85 | an empty drop changes nothing and notifies no one; otherwise the entries are appended after the existing ones and settled by the results in file order; uploading is false afterwards (the loop keeps it raised); the callback gets the successful ids once, only when there is one and some upload succeeded |
| Uploader.FileUploader.RemoveFile | frontend/src/components/FileUploader.tsx:98-100 | every entry with the id is removed and the rest stay in order |
| Uploader.RemoveFileKeepsOthers | frontend/src/components/FileUploader.tsx:98-100 | removal keeps every entry with another id as often as before and no entry with the removed id |

## Left out

- The LangChain chain, the memory it keeps, and the LLM clients (`_initialize_llm`) are not modelled. The chain is a parameter that answers or raises.
- The chain records a turn in the memory when it answers. `TurnsAfter` models this as one appended (question, answer) pair. LangChain's message objects are not modelled.
- The text splitter and the document loaders are parameters. Chunk size, overlap and page extraction are library code.
- Chroma and the embeddings are parameters. This covers similarity ranking, the meaning of `$in` and `where` filters, `delete_by_document_id`, persistence, and the store's state across uploads.
- File I/O is reduced to inputs. This covers `seek`/`tell` (the size is an input), the aiofiles write, `mkdir` (its error is an input), `exists` and `unlink`. A failing `unlink` is not modelled.
- Each chat message takes its id and its timestamp from one clock reading. The component reads `Date.now()` for the id and `new Date()` for the timestamp separately, and these two can differ. No contract depends on them being equal.
- uuid4 and `Date.now()` are inputs. Their uniqueness is not proved: lemmas that need distinct ids take that as a hypothesis.
- HTTP plumbing is not modelled: FastAPI routing and CORS, the chat route's error wrapper, the documents stub and the axios client.
- Rendering is not modelled: the React views, `Message`, `SourceCitation`, `App`'s one-line id append, scrolling, and focus after a send.
- `formatFileSize` and the relevance percentage use floating point and are not modelled.
- Concurrency is not modelled. The handlers run as atomic steps, apart from the chat send, which is split at its `await`. A `removeFile` during a drop cannot interleave with `OnDrop` in this model. The unguarded dictionary in `RAGService` is not modelled for concurrent access.
- RagService.CitationFor: pydantic's lax coercion of numeric strings is not modelled. A string such as "3" for an integer field counts as a validation failure here, where pydantic would coerce it.
- RagService.CitationFor: the error text "validation error for SourceDocument: <field>" is the model's own wording, not pydantic's. It names only the first invalid field, whereas pydantic reports every invalid field in one error.
- Upload.TypeDetail: Python renders the allowed-extension set in hash order. The model fixes one rendering, `{'.pdf', '.txt', '.docx'}`.
- Upload.StoredPath: the path is formed by concatenation. pathlib's normalisation of repeated separators or "." components inside the filename is not modelled.
- Text.Lower: only ASCII letters are lower-cased. Python's full Unicode case mapping is not modelled.
- Text.Suffix: this follows CPython 3.12's pathlib (the dot is neither the first nor the last character of the name). Other Python versions differ for names that end in a dot.
- VectorStore.SimilaritySearch and VectorStore.SimilaritySearchWithScore have no contract of their own. What they do is stated by `SearchDefaults`.
