/** The HTTP endpoints under /conversations: document upload and linking, the
    per-user store of documents uploaded before a conversation exists, starting
    a conversation, reading, deleting and continuing one. The signed-in user is
    a parameter; an endpoint's HTTP error is a Failure carrying its status. */
module Router {
  import opened Types
  import opened Store
  import opened RagService
  import opened DocumentProcessor
  import opened Services
  import opened LlmService

  /** Seven days, in seconds: how long a pending upload stays eligible. */
  const PendingWindow := 604800

  // ---------------------------------------------------------------
  // Upload filter
  // ---------------------------------------------------------------

  /** The text after the last '.', or the whole name when it has none
      (the last element of `name.split('.')`). */
  function LastSegment(name: string): string {
    if name == [] then []
    else if name[|name| - 1] == '.' then []
    else LastSegment(name[..|name| - 1]) + [name[|name| - 1]]
  }

  /** The last segment is the longest dot-free suffix of the name. */
  lemma {:induction false} LastSegmentIsLongestDotFreeSuffix(name: string)
    ensures |LastSegment(name)| <= |name|
    ensures LastSegment(name) == name[|name| - |LastSegment(name)|..]
    ensures forall i :: 0 <= i < |LastSegment(name)| ==> LastSegment(name)[i] != '.'
    ensures |LastSegment(name)| < |name| ==> name[|name| - |LastSegment(name)| - 1] == '.'
  {
    if name != [] && name[|name| - 1] != '.' {
      var init, c := name[..|name| - 1], name[|name| - 1];
      var seg := LastSegment(init);
      LastSegmentIsLongestDotFreeSuffix(init);
      assert LastSegment(name) == seg + [c];
      assert name[|name| - |seg| - 1..] == init[|init| - |seg|..] + [c];
      forall i | 0 <= i < |seg| + 1 ensures (seg + [c])[i] != '.' {
        if i < |seg| {
          assert (seg + [c])[i] == seg[i];
        }
      }
      if |seg| + 1 < |name| {
        assert name[|name| - |seg| - 2] == init[|init| - |seg| - 1];
      }
    }
  }

  /** An upload is accepted when its extension, lower-cased, is "pdf". */
  predicate IsPdfName(filename: string) {
    Lower(LastSegment(filename)) == "pdf"
  }

  /** A dot-free tail after a dot (or making up the whole name) is the last segment. */
  lemma {:induction false} LastSegmentOfTail(prefix: string, ext: string)
    requires forall i :: 0 <= i < |ext| ==> ext[i] != '.'
    requires prefix == [] || prefix[|prefix| - 1] == '.'
    ensures LastSegment(prefix + ext) == ext
  {
    if ext != [] {
      var init := ext[..|ext| - 1];
      LastSegmentOfTail(prefix, init);
      assert (prefix + ext)[..|prefix + ext| - 1] == prefix + init;
    } else {
      assert prefix + ext == prefix;
    }
  }

  /** Upper case is accepted, only the last extension counts, and a name
      without a dot is its own extension. */
  lemma PdfNameExamples()
    ensures IsPdfName("a.PDF")
    ensures !IsPdfName("a.pdf.exe")
    ensures IsPdfName("pdf")
    ensures !IsPdfName("report.pdf.")
  {
    LastSegmentOfTail("a.", "PDF");
    assert "a." + "PDF" == "a.PDF";
    assert Lower("PDF") == "pdf";
    LastSegmentOfTail("a.pdf.", "exe");
    assert "a.pdf." + "exe" == "a.pdf.exe";
    assert Lower("exe")[0] == 'e';
    LastSegmentOfTail("", "pdf");
    assert "" + "pdf" == "pdf";
    assert Lower("pdf") == "pdf";
    LastSegmentOfTail("report.pdf.", "");
    assert "report.pdf." + "" == "report.pdf.";
  }

  // ---------------------------------------------------------------
  // Pending documents
  // ---------------------------------------------------------------

  datatype PendingEntry = PendingEntry(documentId: string, timestamp: int)

  /** Documents uploaded or named before any conversation exists, per user,
      each with the time it was recorded. */
  class PendingStore {
    var entries: map<string, seq<PendingEntry>>

    constructor ()
      ensures entries == map[]
    {
      entries := map[];
    }
  }

  /** The user's pending list; an absent user has none. */
  function PendingOf(entries: map<string, seq<PendingEntry>>, userId: string): seq<PendingEntry> {
    if userId in entries then entries[userId] else []
  }

  /** Every id with the same timestamp, in order. */
  function Stamped(ids: seq<string>, timestamp: int): (r: seq<PendingEntry>)
    ensures |r| == |ids| && forall i :: 0 <= i < |ids| ==> r[i] == PendingEntry(ids[i], timestamp)
  {
    if ids == [] then [] else Stamped(ids[..|ids| - 1], timestamp) + [PendingEntry(ids[|ids| - 1], timestamp)]
  }

  /** The ids of the entries recorded at or after the cutoff, in order. */
  function RecentIds(entries: seq<PendingEntry>, cutoff: int): (r: seq<string>)
    ensures |r| <= |entries|
  {
    if entries == [] then []
    else
      var last := entries[|entries| - 1];
      RecentIds(entries[..|entries| - 1], cutoff) + (if last.timestamp >= cutoff then [last.documentId] else [])
  }

  /** The entries recorded before the cutoff, in order. */
  function Expired(entries: seq<PendingEntry>, cutoff: int): (r: seq<PendingEntry>)
    ensures |r| <= |entries|
  {
    if entries == [] then []
    else
      var last := entries[|entries| - 1];
      Expired(entries[..|entries| - 1], cutoff) + (if last.timestamp < cutoff then [last] else [])
  }

  /** The cutoff splits a pending list: every entry is either recent (its id
      is collected) or expired (it is kept), never both. */
  lemma {:induction false} PendingSplit(entries: seq<PendingEntry>, cutoff: int)
    ensures |RecentIds(entries, cutoff)| + |Expired(entries, cutoff)| == |entries|
    ensures forall e :: e in Expired(entries, cutoff) <==> e in entries && e.timestamp < cutoff
    ensures forall x :: x in RecentIds(entries, cutoff) <==>
              exists i :: 0 <= i < |entries| && entries[i].documentId == x && entries[i].timestamp >= cutoff
  {
    if entries != [] {
      var init, last := entries[..|entries| - 1], entries[|entries| - 1];
      PendingSplit(init, cutoff);
      assert entries == init + [last];
      forall x | x in RecentIds(entries, cutoff)
        ensures exists i :: 0 <= i < |entries| && entries[i].documentId == x && entries[i].timestamp >= cutoff
      {
        if x in RecentIds(init, cutoff) {
          var i :| 0 <= i < |init| && init[i].documentId == x && init[i].timestamp >= cutoff;
          assert entries[i] == init[i];
        } else {
          assert entries[|entries| - 1].documentId == x;
        }
      }
      forall x | exists i :: 0 <= i < |entries| && entries[i].documentId == x && entries[i].timestamp >= cutoff
        ensures x in RecentIds(entries, cutoff)
      {
        var i :| 0 <= i < |entries| && entries[i].documentId == x && entries[i].timestamp >= cutoff;
        if i < |init| {
          assert init[i] == entries[i];
        }
      }
    }
  }

  /** `acc` followed by each id of `ids` that is READY and not yet present. */
  function AddNew(acc: seq<string>, ids: seq<string>, documents: map<string, Document>): seq<string> {
    if ids == [] then acc
    else
      var r := AddNew(acc, ids[..|ids| - 1], documents);
      var x := ids[|ids| - 1];
      if x !in r && IsReady(x, documents) then r + [x] else r
  }

  /** AddNew keeps `acc` as a prefix, adds exactly the READY ids not already
      there, and adds each of them once. */
  lemma {:induction false} AddNewProperties(acc: seq<string>, ids: seq<string>, documents: map<string, Document>)
    ensures |acc| <= |AddNew(acc, ids, documents)| && AddNew(acc, ids, documents)[..|acc|] == acc
    ensures forall x :: x in AddNew(acc, ids, documents) <==> x in acc || (x in ids && IsReady(x, documents))
    ensures forall i :: |acc| <= i < |AddNew(acc, ids, documents)| ==> AddNew(acc, ids, documents)[i] !in acc
    ensures forall i, j :: |acc| <= i < j < |AddNew(acc, ids, documents)| ==>
              AddNew(acc, ids, documents)[i] != AddNew(acc, ids, documents)[j]
  {
    if ids != [] {
      var init, x := ids[..|ids| - 1], ids[|ids| - 1];
      AddNewProperties(acc, init, documents);
      assert ids == init + [x];
      var r := AddNew(acc, init, documents);
      if x !in r && IsReady(x, documents) {
        var r' := r + [x];
        assert r'[..|r|] == r;
        assert r'[..|acc|] == r[..|acc|];
        forall i, j | |acc| <= i < j < |r'| ensures r'[i] != r'[j] {
          if j == |r| {
            assert r'[i] == r[i];
          }
        }
      }
    }
  }

  /** The ids a new conversation is linked to: the READY payload ids in
      order, duplicates kept, then each recent pending id that is READY and
      not collected yet. */
  function CollectedIds(payloadIds: seq<string>, pending: seq<PendingEntry>, cutoff: int,
                        documents: map<string, Document>): seq<string> {
    AddNew(ReadyIds(payloadIds, documents), RecentIds(pending, cutoff), documents)
  }

  /** Every collected id names a READY document, so linking them skips none. */
  lemma CollectedAreReady(payloadIds: seq<string>, pending: seq<PendingEntry>, cutoff: int,
                          documents: map<string, Document>)
    ensures forall x :: x in CollectedIds(payloadIds, pending, cutoff, documents) ==> IsReady(x, documents)
    ensures ReadyIds(CollectedIds(payloadIds, pending, cutoff, documents), documents)
            == CollectedIds(payloadIds, pending, cutoff, documents)
  {
    AddNewProperties(ReadyIds(payloadIds, documents), RecentIds(pending, cutoff), documents);
    ReadyIdsOfReady(CollectedIds(payloadIds, pending, cutoff, documents), documents);
  }

  lemma {:induction false} ReadyIdsOfReady(ids: seq<string>, documents: map<string, Document>)
    requires forall x :: x in ids ==> IsReady(x, documents)
    ensures ReadyIds(ids, documents) == ids
  {
    if ids != [] {
      var init, last := ids[..|ids| - 1], ids[|ids| - 1];
      assert ids == init + [last];
      assert last in ids;
      assert forall x :: x in init ==> x in ids;
      ReadyIdsOfReady(init, documents);
      ReadyIdsAppend(init, last, documents);
    }
  }

  /** The two collection loops of a conversation start. Readiness is read
      once per id: nothing changes a document's status while the loops run. */
  method CollectDocumentIds(payloadIds: seq<string>, pending: seq<PendingEntry>, cutoff: int,
                            documents: map<string, Document>)
    returns (collected: seq<string>)
    ensures collected == CollectedIds(payloadIds, pending, cutoff, documents)
  {
    var payloadReady := CollectReady(payloadIds, documents);
    collected := AddNewIds(payloadReady, RecentIds(pending, cutoff), documents);
  }

  /** The payload loop: each READY id in order, duplicates kept. */
  method CollectReady(ids: seq<string>, documents: map<string, Document>) returns (collected: seq<string>)
    ensures collected == ReadyIds(ids, documents)
  {
    collected := [];
    var i := 0;
    while i < |ids|
      invariant 0 <= i <= |ids|
      invariant collected == ReadyIds(ids[..i], documents)
    {
      ReadyIdsAppend(ids[..i], ids[i], documents);
      TakeNext(ids, i);
      if IsReady(ids[i], documents) {
        collected := collected + [ids[i]];
      }
      i := i + 1;
    }
    TakeAll(ids);
  }

  /** The pending loop: each READY id not collected yet is added. */
  method AddNewIds(acc: seq<string>, ids: seq<string>, documents: map<string, Document>) returns (collected: seq<string>)
    ensures collected == AddNew(acc, ids, documents)
  {
    collected := acc;
    var k := 0;
    while k < |ids|
      invariant 0 <= k <= |ids|
      invariant collected == AddNew(acc, ids[..k], documents)
    {
      TakeNext(ids, k);
      assert ids[..k + 1][..k] == ids[..k];
      if ids[k] !in collected && IsReady(ids[k], documents) {
        collected := collected + [ids[k]];
      }
      k := k + 1;
    }
    TakeAll(ids);
  }

  // ---------------------------------------------------------------
  // Endpoints
  // ---------------------------------------------------------------

  /** The conversation exists and belongs to the user. */
  predicate Owns(conversations: map<string, Conversation>, cid: string, userId: string) {
    cid in conversations && conversations[cid].userId == userId
  }

  /** POST /documents. A non-PDF name is refused with 400 before anything
      else; otherwise the upload is processed without a conversation and, on
      success, its id joins the user's pending list with the current time.
      The upload fails with 500 and stores nothing for a user without a user
      row, which only a conversation start creates.
      `saved` and `extracted` stand for the temporary file and its text. */
  method UploadDocument(db: Db, pending: PendingStore, userId: string, filename: string, newId: string,
                        saved: bool, extracted: Option<string>, embedder: Embedder, now: int)
    returns (result: Result<string, HttpError>)
    requires newId !in db.documents
    modifies db, pending
    ensures !IsPdfName(filename) ==> result == Failure(BadRequest) && unchanged(db) && unchanged(pending)
    ensures IsPdfName(filename) ==> (result.Success? <==> saved && userId in old(db.users) && extracted.Some?)
    ensures IsPdfName(filename) && !(saved && userId in old(db.users) && extracted.Some?) ==> result == Failure(InternalError)
    ensures IsPdfName(filename) && !(saved && userId in old(db.users)) ==> unchanged(db)
    ensures IsPdfName(filename) && saved && userId in old(db.users) ==>
              && db.documents == old(db.documents)[newId := Document(userId, filename, "s3://bot-docs/" + newId, UploadStatus(extracted))]
              && db.chunks == old(db.chunks) +
                   (if extracted.Some? then ChunkRows(newId, Usable(Chunks(extracted.value, ChunkSize, ChunkOverlap)), embedder) else [])
    ensures result.Success? ==>
              && result.value == newId
              && pending.entries == old(pending.entries)[userId := PendingOf(old(pending.entries), userId) + [PendingEntry(newId, now)]]
    ensures result.Failure? ==> unchanged(pending)
    ensures unchanged(db`users, db`conversations, db`messages, db`links)
  {
    if !IsPdfName(filename) {
      return Failure(BadRequest);
    }
    assert !Given(None);
    result := ProcessDocumentUpload(db, userId, None, filename, newId, saved, extracted, embedder);
    assert db.links == old(db.links);
    if result.Success? {
      pending.entries := pending.entries[userId := PendingOf(pending.entries, userId) + [PendingEntry(result.value, now)]];
    }
  }

  /** POST /documents/link. With a conversation id, the conversation must be
      the user's (404 otherwise) and the READY documents are linked to it.
      Without one (absent or empty), every id joins the user's pending list
      with one shared timestamp. Answers the ids as given. */
  method LinkDocsToConversation(db: Db, pending: PendingStore, userId: string, documentIds: seq<string>,
                                conversationId: Option<string>, now: int)
    returns (result: Result<seq<string>, HttpError>)
    modifies db, pending
    ensures Given(conversationId) && !Owns(old(db.conversations), conversationId.value, userId) ==>
              result == Failure(NotFound) && unchanged(db) && unchanged(pending)
    ensures Given(conversationId) && Owns(old(db.conversations), conversationId.value, userId) ==>
              && result == Success(documentIds)
              && db.links == old(db.links) + LinkRows(conversationId.value, ReadyIds(documentIds, old(db.documents)))
              && unchanged(pending)
    ensures !Given(conversationId) ==>
              && result == Success(documentIds)
              && unchanged(db)
              && pending.entries == old(pending.entries)[userId := PendingOf(old(pending.entries), userId) + Stamped(documentIds, now)]
    ensures unchanged(db`users, db`conversations, db`messages, db`documents, db`chunks)
  {
    if Given(conversationId) {
      var cid := conversationId.value;
      if !Owns(db.conversations, cid, userId) {
        return Failure(NotFound);
      }
      LinkDocumentsToConversation(db, cid, documentIds);
      return Success(documentIds);
    }
    var list := PendingOf(pending.entries, userId);
    var i := 0;
    while i < |documentIds|
      invariant 0 <= i <= |documentIds|
      invariant list == PendingOf(pending.entries, userId) + Stamped(documentIds[..i], now)
    {
      assert documentIds[..i + 1][..i] == documentIds[..i];
      list := list + [PendingEntry(documentIds[i], now)];
      i := i + 1;
    }
    assert documentIds[..i] == documentIds;
    pending.entries := pending.entries[userId := list];
    return Success(documentIds);
  }

  /** A brand-new conversation's first message numbers: it is the whole
      history, and the next number after it is 2. */
  lemma FirstMessageNumbers(m: seq<Message>, conversations: set<string>, x: Message)
    requires WellFormed(m, conversations)
    requires x.conversationId !in conversations && x.sequenceNumber == 1
    ensures MessagesOf(m + [x], x.conversationId) == [x]
    ensures NextSequenceNumber(m + [x], x.conversationId) == 2
  {
    FirstMessageIsHistory(m, conversations, x);
    NextSequenceNumberIsNext(m, x.conversationId);
    NextAfterAppend(m, x);
  }

  /** POST /. Request validation refuses an empty first message with 422
      (`min_length=1` on the request schema); a blank one is refused with 400
      before any change.
      Otherwise: the conversation is created with its first message (number 1);
      the collected documents are linked; when the user had pending entries,
      the list keeps only those older than seven days; then the first message
      is sent again as an ordinary turn, so it is stored a second time
      (number 2) and the model sees it twice. `newId` stands for the generated
      uuid; `sent` is the history given to the model. */
  method StartNewConversation(db: Db, pending: PendingStore, userId: string, firstMessage: string,
                              mode: ConversationMode, payloadIds: seq<string>, newId: string, now: int,
                              embedder: Embedder, clientReady: bool, outcomes: seq<Outcome>)
    returns (result: Result<Conversation, HttpError>, sent: seq<Message>)
    requires db.Valid()
    requires newId !in db.conversations
    requires |outcomes| >= MaxRetries
    modifies db, pending
    ensures firstMessage == [] ==> result == Failure(UnprocessableEntity) && unchanged(db) && unchanged(pending)
    ensures IsBlank(firstMessage) && firstMessage != [] ==> result == Failure(BadRequest) && unchanged(db) && unchanged(pending)
    ensures !IsBlank(firstMessage) ==>
              && sent == [Message(newId, 1, User, firstMessage, None), Message(newId, 2, User, firstMessage, None)]
              && db.links == old(db.links) + LinkRows(newId, CollectedIds(payloadIds, PendingOf(old(pending.entries), userId),
                                                                     now - PendingWindow, old(db.documents)))
              && pending.entries == (if PendingOf(old(pending.entries), userId) == [] then old(pending.entries)
                                     else old(pending.entries)[userId := Expired(PendingOf(old(pending.entries), userId), now - PendingWindow)])
              && db.users == old(db.users) + {userId}
    ensures !IsBlank(firstMessage) && LlmResult(clientReady, outcomes).Failure? ==>
              && result == Failure(LlmResult(clientReady, outcomes).error)
              && db.messages == old(db.messages) + sent
              && db.conversations == old(db.conversations)[newId := Conversation(userId, DefaultTitle, mode, 0)]
    ensures !IsBlank(firstMessage) && LlmResult(clientReady, outcomes).Success? ==>
              var reply := LlmResult(clientReady, outcomes).value;
              var started := WithUsage(Conversation(userId, DefaultTitle, mode, 0), reply.tokenUsage);
              && result == Success(started)
              && db.messages == old(db.messages) + sent + [Message(newId, 3, Assistant, reply.content, Some(reply.model))]
              && db.conversations == old(db.conversations)[newId := started]
    ensures db.Valid()
    ensures unchanged(db`documents, db`chunks)
  {
    sent := [];
    if firstMessage == [] {
      return Failure(UnprocessableEntity), sent;
    }
    if IsBlank(firstMessage) {
      return Failure(BadRequest), sent;
    }
    var conversation, first := CreateInitialConversation(db, userId, firstMessage, mode, [], newId);
    FirstMessageNumbers(old(db.messages), old(db.conversations).Keys, first);
    ghost var afterCreate := db.messages;
    assert db.links == old(db.links) && db.documents == old(db.documents);
    AttachDocuments(db, pending, userId, newId, payloadIds, now);
    result, sent := FirstTurn(db, first, embedder, clientReady, outcomes);
    assert afterCreate + [sent[1]] == old(db.messages) + sent;
    if result.Success? {
      MapUpdateTwice(old(db.conversations), newId, conversation, db.conversations[newId]);
    }
  }

  /** Step 5 of a start: the first message, already stored as the whole
      history, is sent again as an ordinary turn and stored under number 2. */
  method FirstTurn(db: Db, first: Message, embedder: Embedder, clientReady: bool, outcomes: seq<Outcome>)
    returns (result: Result<Conversation, HttpError>, sent: seq<Message>)
    requires db.Valid()
    requires first.conversationId in db.conversations
    requires first.sequenceNumber == 1 && first.role == User && first.llmModel == None
    requires MessagesOf(db.messages, first.conversationId) == [first]
    requires NextSequenceNumber(db.messages, first.conversationId) == 2
    requires |outcomes| >= MaxRetries
    modifies db
    ensures sent == [first, first.(sequenceNumber := 2)]
    ensures LlmResult(clientReady, outcomes).Failure? ==>
              && result == Failure(LlmResult(clientReady, outcomes).error)
              && db.messages == old(db.messages) + [sent[1]]
              && db.conversations == old(db.conversations)
    ensures LlmResult(clientReady, outcomes).Success? ==>
              var cid := first.conversationId;
              var reply := LlmResult(clientReady, outcomes).value;
              var updated := WithUsage(old(db.conversations)[cid], reply.tokenUsage);
              && result == Success(updated)
              && db.messages == old(db.messages) + [sent[1]] + [Message(cid, 3, Assistant, reply.content, Some(reply.model))]
              && db.conversations == old(db.conversations)[cid := updated]
    ensures db.Valid()
    ensures unchanged(db`users, db`documents, db`chunks, db`links)
  {
    var cid := first.conversationId;
    var reply, context, history := ProcessUserMessageAndGetReply(db, cid, first.content, embedder, clientReady, outcomes);
    sent := history;
    assert sent == [first, first.(sequenceNumber := 2)];
    if reply.Failure? {
      return Failure(reply.error), sent;
    }
    return Success(db.conversations[cid]), sent;
  }

  /** Steps 2 and 3 of a start: collect the payload and recent pending ids,
      prune the user's pending list when it has entries, and link what was
      collected to the new conversation. */
  method AttachDocuments(db: Db, pending: PendingStore, userId: string, cid: string, payloadIds: seq<string>, now: int)
    modifies db, pending
    ensures db.links == old(db.links) + LinkRows(cid, CollectedIds(payloadIds, PendingOf(old(pending.entries), userId),
                                                               now - PendingWindow, old(db.documents)))
    ensures pending.entries == (if PendingOf(old(pending.entries), userId) == [] then old(pending.entries)
                                else old(pending.entries)[userId := Expired(PendingOf(old(pending.entries), userId), now - PendingWindow)])
    ensures unchanged(db`users, db`conversations, db`messages, db`documents, db`chunks)
  {
    var cutoff := now - PendingWindow;
    var pendingList := PendingOf(pending.entries, userId);
    var collected := CollectDocumentIds(payloadIds, pendingList, cutoff, db.documents);
    if pendingList != [] {
      pending.entries := pending.entries[userId := Expired(pendingList, cutoff)];
    }
    CollectedAreReady(payloadIds, pendingList, cutoff, db.documents);
    if collected != [] {
      LinkDocumentsToConversation(db, cid, collected);
    }
  }

  /** A conversation together with its messages, as the read endpoint answers it. */
  datatype ConversationView = ConversationView(conversation: Conversation, messages: seq<Message>)

  /** GET /{id}: the user's conversation with its messages in sequence order,
      or 404 when it is missing or another user's. */
  method GetConversationHistory(db: Db, userId: string, cid: string) returns (result: Result<ConversationView, HttpError>)
    requires db.Valid()
    ensures !Owns(db.conversations, cid, userId) ==> result == Failure(NotFound)
    ensures Owns(db.conversations, cid, userId) ==>
              result == Success(ConversationView(db.conversations[cid], MessagesOf(db.messages, cid)))
    ensures result.Success? ==> Increasing(result.value.messages)
  {
    if !Owns(db.conversations, cid, userId) {
      return Failure(NotFound);
    }
    HistoryIncreasing(db.messages, db.conversations.Keys, cid);
    return Success(ConversationView(db.conversations[cid], MessagesOf(db.messages, cid)));
  }

  /** DELETE /{id}: after the ownership check (404), the linked documents that
      no other conversation uses are deleted with the links, then the
      conversation and its messages. None means 204 No Content. */
  method DeleteConversationEndpoint(db: Db, userId: string, cid: string) returns (error: Option<HttpError>)
    requires db.Valid()
    modifies db
    ensures !Owns(old(db.conversations), cid, userId) ==> error == Some(NotFound) && unchanged(db)
    ensures Owns(old(db.conversations), cid, userId) ==>
              && error == None
              && db.links == UnlinkConversation(old(db.links), cid)
              && db.documents == old(db.documents) - OrphanedBy(old(db.links), cid)
              && db.chunks == KeepChunks(old(db.chunks), OrphanedBy(old(db.links), cid))
              && db.conversations == old(db.conversations) - {cid}
              && db.messages == WithoutConversation(old(db.messages), cid)
    ensures db.Valid()
    ensures unchanged(db`users)
  {
    if !Owns(db.conversations, cid, userId) {
      return Some(NotFound);
    }
    DeleteDocumentsForConversation(db, cid);
    var _ := DeleteConversation(db, cid);
    return None;
  }

  /** POST /{id}/messages: request validation refuses an empty message with
      422; after the ownership check (404), one ordinary turn. */
  method ContinueConversation(db: Db, userId: string, cid: string, content: string, embedder: Embedder,
                              clientReady: bool, outcomes: seq<Outcome>)
    returns (result: Result<Message, HttpError>)
    requires db.Valid()
    requires |outcomes| >= MaxRetries
    modifies db
    ensures content == [] ==> result == Failure(UnprocessableEntity) && unchanged(db)
    ensures content != [] && !Owns(old(db.conversations), cid, userId) ==> result == Failure(NotFound) && unchanged(db)
    ensures content != [] && Owns(old(db.conversations), cid, userId) && LlmResult(clientReady, outcomes).Failure? ==>
              && result == Failure(LlmResult(clientReady, outcomes).error)
              && db.messages == old(db.messages) + [Message(cid, NextSequenceNumber(old(db.messages), cid), User, content, None)]
              && db.conversations == old(db.conversations)
    ensures content != [] && Owns(old(db.conversations), cid, userId) && LlmResult(clientReady, outcomes).Success? ==>
              var n := NextSequenceNumber(old(db.messages), cid);
              var reply := LlmResult(clientReady, outcomes).value;
              var answer := Message(cid, n + 1, Assistant, reply.content, Some(reply.model));
              && result == Success(answer)
              && db.messages == old(db.messages) + [Message(cid, n, User, content, None)] + [answer]
              && db.conversations == old(db.conversations)[cid := WithUsage(old(db.conversations)[cid], reply.tokenUsage)]
    ensures db.Valid()
    ensures unchanged(db`users, db`documents, db`chunks, db`links)
  {
    if content == [] {
      return Failure(UnprocessableEntity);
    }
    if !Owns(db.conversations, cid, userId) {
      return Failure(NotFound);
    }
    var context, history;
    result, context, history := ProcessUserMessageAndGetReply(db, cid, content, embedder, clientReady, outcomes);
  }

  // --- The three endpoints as written ---
  // src/api/router.py reads and writes `pending_documents_store` but never
  // defines or imports it, so each access raises NameError. The members
  // above supply the store as `PendingStore`; the ones below model what the
  // code does without it.

  /** POST /documents as written: the upload is processed and committed,
      then the store lookup fails and the catch-all answers 500, so a PDF
      upload never succeeds, although a known user's document and chunks
      are kept. */
  method UploadDocumentAsWritten(db: Db, userId: string, filename: string, newId: string,
                                 saved: bool, extracted: Option<string>, embedder: Embedder)
    returns (result: Result<string, HttpError>)
    requires newId !in db.documents
    modifies db
    ensures !IsPdfName(filename) ==> result == Failure(BadRequest) && unchanged(db)
    ensures IsPdfName(filename) ==> result == Failure(InternalError)
    ensures IsPdfName(filename) && !(saved && userId in old(db.users)) ==> unchanged(db)
    ensures IsPdfName(filename) && saved && userId in old(db.users) ==>
              && db.documents == old(db.documents)[newId := Document(userId, filename, "s3://bot-docs/" + newId, UploadStatus(extracted))]
              && db.chunks == old(db.chunks) +
                   (if extracted.Some? then ChunkRows(newId, Usable(Chunks(extracted.value, ChunkSize, ChunkOverlap)), embedder) else [])
    ensures unchanged(db`users, db`conversations, db`messages, db`links)
  {
    if !IsPdfName(filename) {
      return Failure(BadRequest);
    }
    assert !Given(None);
    var _ := ProcessDocumentUpload(db, userId, None, filename, newId, saved, extracted, embedder);
    assert db.links == old(db.links);
    return Failure(InternalError);
  }

  /** POST /documents/link as written: the branch with a conversation id
      works; the one without fails with 500 on the store lookup before any
      change. */
  method LinkDocsToConversationAsWritten(db: Db, userId: string, documentIds: seq<string>, conversationId: Option<string>)
    returns (result: Result<seq<string>, HttpError>)
    modifies db
    ensures Given(conversationId) && !Owns(old(db.conversations), conversationId.value, userId) ==>
              result == Failure(NotFound) && unchanged(db)
    ensures Given(conversationId) && Owns(old(db.conversations), conversationId.value, userId) ==>
              && result == Success(documentIds)
              && db.links == old(db.links) + LinkRows(conversationId.value, ReadyIds(documentIds, old(db.documents)))
    ensures !Given(conversationId) ==> result == Failure(InternalError) && unchanged(db)
    ensures unchanged(db`users, db`conversations, db`messages, db`documents, db`chunks)
  {
    if !Given(conversationId) {
      return Failure(InternalError);
    }
    var cid := conversationId.value;
    if !Owns(db.conversations, cid, userId) {
      return Failure(NotFound);
    }
    LinkDocumentsToConversation(db, cid, documentIds);
    return Success(documentIds);
  }

  /** POST / as written: after the 422 and 400 checks the conversation and its first
      message are created and committed; the payload documents are only
      read; the store lookup then fails with 500, so no start ever reaches
      linking or the first turn, and the committed conversation stays. */
  method StartNewConversationAsWritten(db: Db, userId: string, firstMessage: string, mode: ConversationMode, newId: string)
    returns (result: Result<Conversation, HttpError>)
    requires db.Valid()
    requires newId !in db.conversations
    modifies db
    ensures firstMessage == [] ==> result == Failure(UnprocessableEntity) && unchanged(db)
    ensures IsBlank(firstMessage) && firstMessage != [] ==> result == Failure(BadRequest) && unchanged(db)
    ensures !IsBlank(firstMessage) ==>
              && result == Failure(InternalError)
              && db.users == old(db.users) + {userId}
              && db.conversations == old(db.conversations)[newId := Conversation(userId, DefaultTitle, mode, 0)]
              && db.messages == old(db.messages) + [Message(newId, 1, User, firstMessage, None)]
              && db.links == old(db.links)
    ensures db.Valid()
    ensures unchanged(db`documents, db`chunks)
  {
    if firstMessage == [] {
      return Failure(UnprocessableEntity);
    }
    if IsBlank(firstMessage) {
      return Failure(BadRequest);
    }
    var _, _ := CreateInitialConversation(db, userId, firstMessage, mode, [], newId);
    return Failure(InternalError);
  }
}
