# BOT GPT chat backend — a Dafny model

BOT GPT is a chat backend. It stores conversations and their numbered messages, sends each user turn to a hosted language model, and in RAG mode grounds the answer in PDF documents. It chunks each document, embeds the chunks and retrieves the best ones for each question.

This project models its core in Dafny and proves what that core does:

- `types.dfy` (`Types`): the rows of the database as datatypes and the status enumerations. It also holds `Option`/`Result`, HTTP error codes, and the string helpers used by the source: `strip()`-emptiness and ASCII lower-casing.
- `store.dfy` (`Store`): the database as a class `Db` with one field per table. It also has the message-table queries: a conversation's history, the highest sequence number, and the delete cascade. The table invariant `WellFormed` says every message belongs to a conversation, and within a conversation sequence numbers are positive and increase in table order.
- `llm_service.py` → `llm_service.dfy` (`LlmService`):
  - the four-characters-per-token estimate;
  - the sliding context window, a loop proved to keep the longest suffix of the history that fits the budget;
  - the payload layout, with the RAG context block in front of the system prompt;
  - the three-attempt retry loop, over an abstract sequence of provider outcomes.
- `document_processor.py` → `document_processor.dfy` (`DocumentProcessor`):
  - the overlapping chunker, a loop proved equal to a recursive definition whose chunks reassemble the text;
  - the blank-chunk filter and the indexed chunk rows;
  - the document status path `CHUNKING` → `READY`/`FAILED` of an upload.
- `rag_service.py` → `rag_service.dfy` (`RagService`):
  - linking READY documents, with no duplicate check;
  - documents of a conversation;
  - deleting a conversation's documents, keeping those still linked elsewhere;
  - retrieval: score the linked chunks, stable sort by descending score, keep the top five, join with a blank line, and yield no context when the result is blank.
- `services.py` → `services.dfy` (`Services`):
  - the next sequence number;
  - opening a conversation with message 1;
  - appending a user message;
  - a full chat turn: store the question, retrieve, call the model, store the reply under the next number and add its token usage;
  - deleting a conversation.
- `router.py` → `router.dfy` (`Router`):
  - the PDF extension filter;
  - the per-user store of pending uploads, as class `PendingStore`. The code uses this store but never defines it; see "## Findings" for what the endpoints do as written;
  - document linking with and without a conversation;
  - starting a conversation: collecting payload and pending documents, pruning the pending list, linking, and the first turn;
  - reading, deleting and continuing a conversation, each behind an ownership check that answers 404.

Where the code and its comments or documentation disagree, the model follows the code:

- After a conversation starts (in the corrected endpoints, see "## Findings"), the user's pending list keeps only the entries older than seven days. Recent entries are consumed; expired ones stay, although the comment says the opposite (`src/api/router.py:173-176`).
- The first message of a new conversation is stored twice: as number 1 when the conversation is created, and as number 2 by the turn that follows. The model therefore sees it twice (`Router.StartNewConversation`).
- Retrieved chunks are joined with a blank line (`"\n\n"`), not a single newline.
- The chunker is modelled for `0 <= overlap < size`. The code has no guard; with its constants (512, 50) the bound holds.
- The model name is `llama-3.1-8b-instant`, as in the code. A test expects another name.

Inputs that the source takes from its environment are parameters:

- the signed-in user, the current time (integer seconds) and generated ids (fresh keys);
- whether the temporary file was written, and the text extracted from the PDF (`None` when extraction fails);
- the embedder, as four total functions: embed, serialise, parse (`None` when malformed) and similarity (an integer score);
- whether the model client exists, and the provider's answer to each attempt (`Outcome`).

## Model

| member | source | states |
|---|---|---|
| Types.Lower | src/api/router.py:48 | lower-casing keeps the length and maps each character by ASCII lower-casing |
| Store.MaxSeqIsMaximum | src/Services/services.py:23-25 | the maximum is None exactly when the conversation has no message; otherwise it is the number of one of its messages, and none of its messages exceeds it |
| Store.MessagesOfMembers | src/Db/models.py:67 | a conversation's history holds exactly the messages whose conversation id is that conversation; it is empty when there are none |
| Store.MessagesOfAppend | src/Services/services.py:110-126 | storing a message extends its own conversation's history by that message and leaves every other history as it was |
| Store.MessagesOfWithout | src/Services/services.py:101-108 | after the cascade, the deleted conversation has no history and every other conversation's history is unchanged |
| Store.AppendKeepsWellFormed | src/Db/models.py:84-91 | appending a message numbered above all of its conversation's messages keeps the message-table invariant |
| Store.HistoryIncreasing | src/Db/models.py:67 | in a well-formed table every history is in strictly increasing sequence order, the order the relationship sorts by |
| Store.WithoutKeepsWellFormed | src/Db/models.py:84-89 | the delete cascade keeps the invariant for the remaining conversations |
| LlmService.CountTokens | src/Services/llm_service.py:39-50 | the estimate is the length divided by four, rounded down: `4r <= len < 4r + 4`, and 0 for empty text |
| LlmService.Window | src/Services/llm_service.py:84-130 | the kept history is a suffix of the input, so it is contiguous and chronological |
| LlmService.ManageContextWindow | src/Services/llm_service.py:84-130 | the backwards loop with its early stop yields exactly `Window` |
| LlmService.KeepNewest | src/Services/llm_service.py:107-128 | the backward walk from the base tokens keeps exactly the newest `KeptCount` messages, in order |
| LlmService.WindowWithinBudget | src/Services/llm_service.py:107-116 | a non-empty window plus the base tokens fits the limit |
| LlmService.WindowCliff | src/Services/llm_service.py:114-126 | when a message is dropped, adding the newest dropped one would exceed the limit |
| LlmService.WindowIsLongestFittingSuffix | src/Services/llm_service.py:84-130 | every longer suffix of the history exceeds the limit, so the window is the longest suffix that fits |
| LlmService.WindowIdempotent | src/Services/llm_service.py:84-130 | applying the window twice gives the same result as once |
| LlmService.UniformKept | src/Services/llm_service.py:111-126 | with equal-cost messages, the window keeps the largest count whose total fits |
| LlmService.ScenarioAllKept | test/test_service.py:48-62 | five 100-token messages all fit the 26214 limit and stay in order 1..5 |
| LlmService.ScenarioTruncation | test/test_service.py:65-100 | with limit 3080, ten 1000-token messages are cut to the newest three (8, 9, 10) |
| LlmService.FormatMessagesForLlm | src/Services/llm_service.py:52-81 | the payload is one system entry followed by one entry per message, in order, with the lower-cased role value and the content |
| LlmService.RoleNames | src/Services/llm_service.py:75 | the lower-cased role values are "user", "assistant" and "system" |
| LlmService.SystemContentCarriesContext | src/Services/llm_service.py:63-70 | the system content always ends with the system prompt; it is that prompt alone without context, and otherwise header, context, footer, prompt |
| LlmService.AttemptsNeeded | src/Services/llm_service.py:153-201 | at least one and at most three attempts are made; every attempt before the last was an API error; fewer than three means the last one was not |
| LlmService.SuccessNeedsCompletion | src/Services/llm_service.py:138-206 | a reply exists iff the client exists and, within three attempts, a completion with choices follows only API errors; a missing client gives 500 and nothing else does |
| LlmService.CallLlmApi | src/Services/llm_service.py:134-206 | the retry loop returns the settled outcome. It makes exactly the attempts needed and waits 1, 2, … seconds between them. The payload it sends is the formatted window of the history |
| LlmService.RetryCall | src/Services/llm_service.py:152-201 | the attempt loop settles as `LlmResult` with a client, after exactly the attempts needed, having waited 1, 2, … seconds |
| LlmService.RetryScenarios | src/Services/llm_service.py:153-206 | two API errors then a reply succeed on attempt 3; three API errors give 503; another error or an empty choice list gives 503 at once; the waits are 1 and 2 seconds |
| RagService.ReadyIds | src/Services/rag_service.py:52-59 | the ids kept for linking are exactly the given ids that name a READY document |
| RagService.LinkRows | src/Services/rag_service.py:61-67 | one link row per id, in order |
| RagService.CreateDocumentAndLink | src/Services/rag_service.py:20-38 | for a user who has a user row (the document table's foreign key, src/Db/models.py:108), the new document belongs to the user, is stored at `s3://bot-docs/<id>`, starts READY, and nothing else changes |
| RagService.LinkDocumentsToConversation | src/Services/rag_service.py:41-91 | the link table grows by one row per READY id, in order, and no other table changes |
| RagService.LinkDocumentToConversation | src/Services/rag_service.py:45-47 | a single id links like a one-element list |
| RagService.LinkingTwiceDuplicates | src/Db/models.py:129-134 | linking the same READY document twice stores two identical rows |
| RagService.LinkedDocIds | src/Services/rag_service.py:172-176 | the collected ids are exactly the documents linked to the conversation |
| RagService.DocumentsForConversation | src/Services/rag_service.py:151-165 | the result holds exactly the stored documents linked to the conversation, unchanged |
| RagService.UnlinkConversation | src/Services/rag_service.py:178-181 | exactly the conversation's links are removed |
| RagService.LinkCount | src/Services/rag_service.py:185-189 | the count is zero iff no link names the document |
| RagService.KeepChunks | src/Services/rag_service.py:191 | exactly the chunks of the removed documents are deleted |
| RagService.KeepChunksTwice | src/Services/rag_service.py:184-192 | deleting chunks document set by document set equals deleting them all at once |
| RagService.DeleteDocumentsForConversation | src/Services/rag_service.py:166-194 | the conversation's links go. Each formerly linked document with no remaining link is deleted with its chunks; nothing else changes |
| RagService.RemoveUnlinked | src/Services/rag_service.py:183-192 | the per-document loop deletes exactly the listed documents that no remaining link names, with their chunks |
| RagService.DeletionOutcome | src/Services/rag_service.py:166-194 | afterwards the conversation has no documents. A document still linked elsewhere keeps its row and chunks; an orphaned one loses both |
| RagService.ChunksOfDocuments | src/Services/rag_service.py:111-116 | the candidates are exactly the chunks of the linked documents |
| RagService.ScoredCandidates | src/Services/rag_service.py:125-141 | every chunk whose embedding parses is scored; malformed ones are skipped; nothing else is added |
| RagService.ScoreChunks | src/Services/rag_service.py:125-141 | the scoring loop yields exactly `Scored` |
| RagService.SortByScoreDesc | src/Services/rag_service.py:144 | the sort is a permutation of its input |
| RagService.SortByScoreDescIsSorted | src/Services/rag_service.py:144 | the result is in descending score order |
| RagService.SortByScoreDescIsStable | src/Services/rag_service.py:144 | candidates with equal scores keep their scan order (Python's sort is stable) |
| RagService.Texts | src/Services/rag_service.py:145 | the texts of the kept candidates, in order |
| RagService.SelectionProperties | src/Services/rag_service.py:143-145 | the kept candidates are the first min(5, n) of the sorted permutation, sorted, and score at least as high as every candidate left out |
| RagService.ContextForOutcome | src/Services/rag_service.py:97-149 | a returned context is never blank; there is none without links or without chunks of linked documents |
| RagService.RetrieveContextForQuery | src/Services/rag_service.py:97-149 | the read-only retrieval yields exactly `ContextFor` of the current links and chunks |
| DocumentProcessor.ChunkText | src/Services/document_processor.py:52-65 | the chunking loop with its early stop yields exactly `Chunks` |
| DocumentProcessor.ChunkAt | src/Services/document_processor.py:52-65 | chunk k starts inside the text at `Start(k, size-overlap)` and is the text from there up to `size` characters |
| DocumentProcessor.StartIsProduct | src/Services/document_processor.py:55-59 | window k starts at offset `k*(size-overlap)` |
| DocumentProcessor.ChunkCount | src/Services/document_processor.py:52-65 | no chunks iff the text is empty; the last window reaches the end of the text and no earlier one does |
| DocumentProcessor.ChunkLengths | src/Services/document_processor.py:52-65 | every chunk but the last is exactly `size` long; the last ends at the end of the text |
| DocumentProcessor.FirstChunk | src/Services/document_processor.py:57-60 | the first chunk is the first `size` characters |
| DocumentProcessor.ChunksReassemble | src/Services/document_processor.py:52-65 | dropping each later chunk's overlap and concatenating gives back the text |
| DocumentProcessor.UsableKeepsNonBlank | src/Services/document_processor.py:70 | the filter keeps exactly the non-blank chunks, in order; all kept when none is blank, none when all are |
| DocumentProcessor.BlankChunks | src/Services/document_processor.py:52-70 | every window cut from a blank text is blank |
| DocumentProcessor.ChunkRows | src/Services/document_processor.py:78-86 | row i holds the i-th usable content, its serialised embedding and index i |
| DocumentProcessor.EmbedChunks | src/Services/document_processor.py:76-86 | the embedding loop yields exactly the rows `ChunkRows` describes |
| DocumentProcessor.GenerateAndSaveChunks | src/Services/document_processor.py:68-92 | for an existing document (the chunk table's foreign key), the chunk table grows by the indexed rows of the usable chunks. The document becomes READY when there is one, else keeps its status. Nothing else changes |
| DocumentProcessor.ProcessDocument | src/Services/document_processor.py:95-98 | chunking as above, then one link when a conversation id is given and the document is READY |
| DocumentProcessor.UploadStatusOutcome | src/Services/document_processor.py:101-133 | an upload never stays PENDING. It ends FAILED iff extraction fails, and READY iff some chunk of the text is non-blank |
| DocumentProcessor.BlankTextStaysChunking | src/Services/document_processor.py:70-74 | a blank extracted text leaves the document in CHUNKING |
| DocumentProcessor.ProcessDocumentUpload | src/Services/document_processor.py:101-133 | a failed save, or a user without a user row (the document's foreign key fails the first commit), gives 500 with no change; a failed extraction gives 500 with the document FAILED; otherwise the id is returned and the document, its chunks and any link are stored |
| Services.NextSequenceNumberIsNext | src/Services/services.py:21-28 | the next number is 1 for a conversation without messages, else exactly one above its highest |
| Services.NextSequenceKeepsWellFormed | src/Services/services.py:110-123 | a message stored under the next number is numbered at least 1 and keeps the invariant |
| Services.NextAfterAppend | src/Services/services.py:176-181 | after storing under the next number, the next number is one higher |
| Services.CreateInitialConversation | src/Services/services.py:32-83 | the user is ensured and the conversation created. READY documents are linked only in RAG mode with ids given. Message 1 is stored and the invariant kept |
| Services.FirstMessageIsHistory | src/Services/services.py:70-78 | a new conversation's first message is its whole history |
| Services.AddUserMessage | src/Services/services.py:110-126 | the user message is appended under the next number, keeping the invariant; nothing else changes |
| Services.DeleteConversation | src/Services/services.py:101-108 | reports whether the row existed. The conversation and its messages are removed; other histories and the other tables are unchanged |
| Services.ProcessUserMessageAndGetReply | src/Services/services.py:130-194 | 404 with no change for a missing conversation; otherwise the detail is given below this table |
| Services.TurnLeavesOtherHistories | src/Services/services.py:130-194 | a turn leaves every other conversation's history unchanged |
| Services.WithUsage | src/Services/services.py:189 | the token count rises by exactly the reply's usage; the other fields are unchanged |
| Services.SaveReply | src/Services/services.py:176-192 | the reply is stored under the next number with the model name, and the usage is added to the conversation |
| Router.LastSegmentIsLongestDotFreeSuffix | src/api/router.py:48 | the extension is the longest dot-free suffix of the name: either the whole name, or what follows its last dot |
| Router.PdfNameExamples | src/api/router.py:48-49 | `a.PDF` and `pdf` are accepted; `a.pdf.exe` and `report.pdf.` are refused |
| Router.Stamped | src/api/router.py:104-106 | every id gets the same timestamp, in order |
| Router.PendingSplit | src/api/router.py:156-176 | the cutoff splits the pending list. Entries at or after it are collected; exactly the entries before it are kept |
| Router.AddNewProperties | src/api/router.py:161-171 | the payload ids stay first. Exactly the READY pending ids not already present are added, each once |
| Router.CollectedAreReady | src/api/router.py:143-184 | every collected id names a READY document, so the later linking skips none |
| Router.CollectDocumentIds | src/api/router.py:139-171 | the two collection loops yield exactly `CollectedIds` |
| Router.CollectReady | src/api/router.py:143-153 | the payload loop yields exactly the READY payload ids in order, duplicates kept (`ReadyIds`) |
| Router.AddNewIds | src/api/router.py:156-171 | the pending loop yields exactly `AddNew`: the READY recent ids not collected yet, appended in order |
| Router.UploadDocument | src/api/router.py:41-73 | a non-PDF name gives 400 with no change. Otherwise the upload is processed without a conversation. It succeeds exactly when the file was saved, the user has a user row and the text was extracted, and then the id joins the user's pending list at the current time; otherwise the answer is 500 and the pending list is unchanged. Links never change |
| Router.LinkDocsToConversation | src/api/router.py:79-111 | with a conversation id: 404 and no change unless the user owns it, else its READY documents are linked. Without one, every id joins the pending list with one timestamp |
| Router.FirstMessageNumbers | src/api/router.py:193-197 | right after creation the first message is the whole history and the next number is 2 |
| Router.AttachDocuments | src/api/router.py:139-186 | the collected ids are linked. A non-empty pending list is replaced by its expired entries; an empty or absent one is left alone |
| Router.FirstTurn | src/api/router.py:193-207 | the turn after creation sends the model the first message twice and stores it again under number 2. On a model error nothing else changes; on success the reply is stored under number 3 and only this conversation's token count grows, by the reply's usage |
| Router.StartNewConversation | src/api/router.py:121-207 | an empty first message gives 422 and a blank one 400, with no change. Otherwise see the detail below this table |
| Router.GetConversationHistory | src/api/router.py:222-235 | 404 unless the user owns the conversation; otherwise it and its history, in increasing sequence order |
| Router.DeleteConversationEndpoint | src/api/router.py:240-259 | 404 with no change unless the user owns it. Otherwise its links and orphaned documents with their chunks go, then the conversation with its messages; the invariant is kept |
| Router.ContinueConversation | src/api/router.py:264-288 | an empty message gives 422 and a conversation the user does not own 404, with no change. Otherwise one ordinary turn: on a model error only the user message is added; on success the reply follows it and the conversation's token count grows by the usage |
| Router.UploadDocumentAsWritten | src/api/router.py:41-73 | as written: a non-PDF name gives 400; every PDF upload gives 500, although a saved file of a user with a user row keeps its document and chunks |
| Router.LinkDocsToConversationAsWritten | src/api/router.py:79-111 | as written: with a conversation id as in `LinkDocsToConversation`; without one, 500 with no change |
| Router.StartNewConversationAsWritten | src/api/router.py:121-156 | as written: empty gives 422 and blank 400; otherwise 500, with the conversation and its message 1 left committed and nothing linked |

Detail for `Services.ProcessUserMessageAndGetReply`, when the conversation exists:

- the user message is stored under the next number;
- the model receives the conversation's history including that message, in increasing order;
- in RAG mode the context is the retrieval result, and otherwise there is none;
- on a model failure its error is returned and only the user message is stored;
- on success the reply follows under the next number and the usage is added to the token count.

Detail for `Router.StartNewConversation`, when the first message is not blank:

- the first message is stored as number 1 and then as number 2;
- the model is sent both copies;
- the links are the collected ids;
- the pending list is pruned as above;
- on a model error, the result is that error; the only new rows are the conversation, with no tokens, and the two copies;
- on success, the reply also follows under number 3, and the result is the new conversation with the reply's token usage.

## Findings

`src/api/router.py` reads and writes `pending_documents_store` but never defines or imports it, so each access raises `NameError`. The `Router` endpoints above supply the store as `PendingStore`, as the code evidently intends; the `AsWritten` members model the code as it stands.

| source | as written | input that shows it | evidently intended | confidence | as-written member | corrected member |
|---|---|---|---|---|---|---|
| src/api/router.py:55-59 | the upload is stored, then the store lookup fails and the catch-all answers 500 | a saved PDF with extractable text, from a user who has a user row | 201 with the id, which joins the user's pending list | high, not executed | Router.UploadDocumentAsWritten | Router.UploadDocument |
| src/api/router.py:101-106 | linking without a conversation id fails with 500 | any id list with no conversation id | the ids join the user's pending list with one timestamp | high, not executed | Router.LinkDocsToConversationAsWritten | Router.LinkDocsToConversation |
| src/api/router.py:156 | the conversation and message 1 are committed, then the store lookup fails with 500 | any non-blank first message | the documents are linked and the first turn runs | high, not executed | Router.StartNewConversationAsWritten | Router.StartNewConversation |

## Left out

- Network calls to the model provider become an outcome sequence. The sleeps between attempts become the returned list of waits.
- Loading the embedding model, float tensors and cosine similarity are out. Embeddings and similarity are abstract total functions, and scores are integers.
- PDF reading and temporary-file handling are out: whether the file was saved and the extracted text are inputs.
- Sessions, commit, rollback and refresh are out. A commit failure while linking, which would leave an upload FAILED, is not modelled. Row order is taken as table order, and generated uuids are fresh caller-supplied keys.
- The user's generated email, the HTTP detail strings and the response message strings are not modelled.
- Async execution and the 0.5 s readiness polling are out. In a sequential model no status changes while waiting, so "READY within ten polls" is "READY now".
- The read-then-write races on sequence numbers and token counts are out.
- `list_conversations` / `get_conversations_list` and `add_assistant_message_mock` are out. The first depends on update timestamps; the second is used by no endpoint.
- `get_documents_for_conversation` inside a turn and in the start and continue endpoints feeds only logging. It is modelled as `RagService.DocumentsForConversation` and not called there.
- The 500 "Failed to retrieve conversation after processing" in the start endpoint cannot occur once the conversation exists, and is not modelled.
- `src/Db/Schema.py` is modelled only for its non-empty message rule (lines 34 and 44), which FastAPI enforces with 422 before an endpoint runs. The response shapes are not modelled. `src/Db/__init__.py` and `src/main.py` are not part of this model.
- Types.Lower: lower-cases ASCII letters only, whereas Python lower-cases all of Unicode. `IsPdfName` still agrees with the source on every name: no non-ASCII character lower-cases to `p`, `d` or `f`, so a non-ASCII extension is refused by both.
- DocumentProcessor.GenerateAndSaveChunks: requires the document row to exist, as the chunk table's foreign key does; for a missing document the source's commit fails and stores nothing, which is not modelled. Its only caller creates the document just before.
- DocumentProcessor.ProcessDocument: requires the document row to exist, for the same reason.
- RagService.CreateDocumentAndLink: requires the user row to exist, as the document table's foreign key does; its caller `ProcessDocumentUpload` answers 500 with no change when it does not.
- LlmService.CountTokens: takes a string, so the source's `None` text case is not modelled; the empty string gives 0 as in the source.
- DocumentProcessor.ChunkText: requires `overlap < size`; the source's unguarded loop never advances with `overlap >= size` and is not modelled there.
- Services.AddUserMessage: requires an existing conversation, as the message table's foreign key does; the source would fail at commit otherwise.
- Services.DeleteConversation: requires that no link names the conversation, as the link table's foreign key has no cascade; the delete endpoint removes the links first.
- Services.ProcessUserMessageAndGetReply: the conversation mode is compared as an enumeration; the string form passed at creation is not modelled.
