/** Conversation bookkeeping: numbering messages, opening a conversation with
    its first message, appending user messages, a full chat turn (store the
    user message, retrieve context in RAG mode, call the model, store the
    reply and add its token usage) and deleting a conversation with its
    messages. The model provider and the embedder are abstract inputs. */
module Services {
  import opened Types
  import opened Store
  import opened RagService
  import opened LlmService

  const DefaultTitle := "New Chat"

  /** The number for the next message of `cid`: one above its highest, or 1 for a
      conversation without messages. */
  function NextSequenceNumber(m: seq<Message>, cid: string): int
  {
    match MaxSeq(m, cid)
    case Some(maxSeq) => maxSeq + 1
    case None => 1
  }

  /** The next number is 1 for a conversation without messages; otherwise it is
      exactly one above the highest number the conversation holds. */
  lemma NextSequenceNumberIsNext(m: seq<Message>, cid: string)
    ensures (forall i :: 0 <= i < |m| ==> m[i].conversationId != cid) ==> NextSequenceNumber(m, cid) == 1
    ensures forall i :: 0 <= i < |m| && m[i].conversationId == cid ==> m[i].sequenceNumber < NextSequenceNumber(m, cid)
    ensures (exists i :: 0 <= i < |m| && m[i].conversationId == cid) ==>
              exists i :: 0 <= i < |m| && m[i].conversationId == cid && m[i].sequenceNumber == NextSequenceNumber(m, cid) - 1
  {
    MaxSeqIsMaximum(m, cid);
  }

  /** In a well-formed table the next number is positive, so a message stored
      under it keeps the table well formed: numbers stay unique and increasing. */
  lemma NextSequenceKeepsWellFormed(m: seq<Message>, conversations: set<string>, x: Message)
    requires WellFormed(m, conversations)
    requires x.conversationId in conversations
    requires x.sequenceNumber == NextSequenceNumber(m, x.conversationId)
    ensures x.sequenceNumber >= 1
    ensures WellFormed(m + [x], conversations)
  {
    var cid := x.conversationId;
    NextSequenceNumberIsNext(m, cid);
    if exists i :: 0 <= i < |m| && m[i].conversationId == cid {
      var i :| 0 <= i < |m| && m[i].conversationId == cid;
      assert m[i].sequenceNumber >= 1;
    }
    AppendKeepsWellFormed(m, conversations, x);
  }

  /** After storing a message under the next number, the number after it is one higher. */
  lemma {:induction false} NextAfterAppend(m: seq<Message>, x: Message)
    requires x.sequenceNumber == NextSequenceNumber(m, x.conversationId)
    ensures NextSequenceNumber(m + [x], x.conversationId) == x.sequenceNumber + 1
  {
    assert (m + [x])[..|m|] == m;
    var cid := x.conversationId;
    MaxSeqIsMaximum(m, cid);
    MaxSeqIsMaximum(m + [x], cid);
    match MaxSeq(m, cid)
    case None =>
    case Some(v) =>
      var i :| 0 <= i < |m| && m[i].conversationId == cid && m[i].sequenceNumber == v;
  }

  /** Ensures the user exists, creates the conversation, links the given
      documents in RAG mode, and stores the first message with number 1.
      `newId` stands for the generated uuid. */
  method CreateInitialConversation(db: Db, userId: string, firstMessage: string, mode: ConversationMode,
                                   documentIds: seq<string>, newId: string)
    returns (conversation: Conversation, message: Message)
    requires db.Valid()
    requires newId !in db.conversations
    modifies db
    ensures conversation == Conversation(userId, DefaultTitle, mode, 0)
    ensures message == Message(newId, 1, User, firstMessage, None)
    ensures db.users == old(db.users) + {userId}
    ensures db.conversations == old(db.conversations)[newId := conversation]
    ensures db.messages == old(db.messages) + [message]
    ensures db.links == old(db.links) +
              (if mode == RagChat && documentIds != [] then LinkRows(newId, ReadyIds(documentIds, old(db.documents))) else [])
    ensures db.Valid()
    ensures unchanged(db`documents, db`chunks)
  {
    if userId !in db.users {
      db.users := db.users + {userId};
    }
    conversation := Conversation(userId, DefaultTitle, mode, 0);
    db.conversations := db.conversations[newId := conversation];
    if mode == RagChat && documentIds != [] {
      LinkDocumentsToConversation(db, newId, documentIds);
    }
    message := Message(newId, 1, User, firstMessage, None);
    OpenKeepsWellFormed(db.messages, old(db.conversations.Keys), message);
    db.messages := db.messages + [message];
  }

  /** A new conversation's first message keeps the table well formed. */
  lemma OpenKeepsWellFormed(m: seq<Message>, conversations: set<string>, x: Message)
    requires WellFormed(m, conversations)
    requires x.conversationId !in conversations && x.sequenceNumber == 1
    ensures WellFormed(m + [x], conversations + {x.conversationId})
  {
    AppendKeepsWellFormed(m, conversations + {x.conversationId}, x);
  }

  /** The first message of a new conversation is its whole history. */
  lemma FirstMessageIsHistory(m: seq<Message>, conversations: set<string>, x: Message)
    requires WellFormed(m, conversations)
    requires x.conversationId !in conversations
    ensures MessagesOf(m + [x], x.conversationId) == [x]
  {
    MessagesOfMembers(m, x.conversationId);
    MessagesOfAppend(m, x, x.conversationId);
  }

  /** Stores a user message under the conversation's next number. The message
      table's foreign key demands an existing conversation. */
  method AddUserMessage(db: Db, cid: string, content: string) returns (message: Message)
    requires db.Valid()
    requires cid in db.conversations
    modifies db
    ensures message == Message(cid, NextSequenceNumber(old(db.messages), cid), User, content, None)
    ensures message.sequenceNumber >= 1
    ensures db.messages == old(db.messages) + [message]
    ensures db.Valid()
    ensures unchanged(db`users, db`conversations, db`documents, db`chunks, db`links)
  {
    var nextSeq := NextSequenceNumber(db.messages, cid);
    message := Message(cid, nextSeq, User, content, None);
    NextSequenceKeepsWellFormed(db.messages, db.conversations.Keys, message);
    db.messages := db.messages + [message];
  }

  /** Deletes the conversation row; its messages go with it (the foreign key
      cascades). The link table's foreign key has no cascade, so the
      conversation must have no link left. Reports whether a row was removed. */
  method DeleteConversation(db: Db, cid: string) returns (removed: bool)
    requires db.Valid()
    requires forall l :: l in db.links ==> l.conversationId != cid
    modifies db
    ensures removed <==> cid in old(db.conversations)
    ensures db.conversations == old(db.conversations) - {cid}
    ensures db.messages == WithoutConversation(old(db.messages), cid)
    ensures MessagesOf(db.messages, cid) == []
    ensures forall d :: d != cid ==> MessagesOf(db.messages, d) == MessagesOf(old(db.messages), d)
    ensures db.Valid()
    ensures unchanged(db`users, db`documents, db`chunks, db`links)
  {
    removed := cid in db.conversations;
    WithoutKeepsWellFormed(db.messages, db.conversations.Keys, cid);
    forall d ensures MessagesOf(WithoutConversation(db.messages, cid), d) == if d == cid then [] else MessagesOf(db.messages, d) {
      MessagesOfWithout(db.messages, cid, d);
    }
    db.conversations := db.conversations - {cid};
    db.messages := WithoutConversation(db.messages, cid);
  }

  /** One chat turn. The caller's context argument is not a parameter: it is
      always replaced, by retrieval in RAG mode and by nothing otherwise.
      `clientReady` and `outcomes` stand for the provider (see CallLlmApi);
      `context` and `history` are what the model call received. */
  method ProcessUserMessageAndGetReply(db: Db, cid: string, content: string, embedder: Embedder,
                                       clientReady: bool, outcomes: seq<Outcome>)
    returns (result: Result<Message, HttpError>, context: Option<string>, history: seq<Message>)
    requires db.Valid()
    requires |outcomes| >= MaxRetries
    modifies db
    ensures cid !in old(db.conversations) ==> result == Failure(NotFound) && unchanged(db)
    ensures cid in old(db.conversations) ==>
              var n := NextSequenceNumber(old(db.messages), cid);
              var userMessage := Message(cid, n, User, content, None);
              var c := old(db.conversations)[cid];
              && context == (if c.mode == RagChat then ContextFor(old(db.links), old(db.chunks), cid, content, embedder) else None)
              && history == MessagesOf(old(db.messages), cid) + [userMessage]
    ensures cid in old(db.conversations) && LlmResult(clientReady, outcomes).Failure? ==>
              var userMessage := Message(cid, NextSequenceNumber(old(db.messages), cid), User, content, None);
              && result == Failure(LlmResult(clientReady, outcomes).error)
              && db.messages == old(db.messages) + [userMessage]
              && db.conversations == old(db.conversations)
    ensures cid in old(db.conversations) && LlmResult(clientReady, outcomes).Success? ==>
              var n := NextSequenceNumber(old(db.messages), cid);
              var userMessage := Message(cid, n, User, content, None);
              var reply := LlmResult(clientReady, outcomes).value;
              var answer := Message(cid, n + 1, Assistant, reply.content, Some(reply.model));
              && result == Success(answer)
              && db.messages == old(db.messages) + [userMessage] + [answer]
              && db.conversations == old(db.conversations)[cid := WithUsage(old(db.conversations)[cid], reply.tokenUsage)]
    ensures Increasing(history)
    ensures db.Valid()
    ensures unchanged(db`users, db`documents, db`chunks, db`links)
  {
    context, history := None, [];
    if cid !in db.conversations {
      return Failure(NotFound), context, history;
    }
    var conversation := db.conversations[cid];
    var userMessage := AddUserMessage(db, cid, content);
    MessagesOfAppend(old(db.messages), userMessage, cid);
    if conversation.mode == RagChat {
      context := RetrieveContextForQuery(db, cid, content, embedder);
    }
    history := MessagesOf(db.messages, cid);
    HistoryIncreasing(db.messages, db.conversations.Keys, cid);
    var llmResult := AskModel(history, context, clientReady, outcomes);
    if llmResult.Failure? {
      return Failure(llmResult.error), context, history;
    }
    var reply := llmResult.value;
    NextAfterAppend(old(db.messages), userMessage);
    var answer := SaveReply(db, cid, reply);
    return Success(answer), context, history;
  }

  /** The model call of a turn, with the configured context budget; its
      payload and retry schedule are stated by CallLlmApi. */
  method AskModel(history: seq<Message>, context: Option<string>, clientReady: bool, outcomes: seq<Outcome>)
    returns (result: Result<LlmReply, HttpError>)
    requires |outcomes| >= MaxRetries
    ensures result == LlmResult(clientReady, outcomes)
  {
    var payload, attempts, waits;
    result, payload, attempts, waits := CallLlmApi(history, context, ContextLimit, clientReady, outcomes);
  }

  /** A turn appends to its own conversation only: every other history is unchanged. */
  lemma TurnLeavesOtherHistories(m: seq<Message>, userMessage: Message, answer: Message, d: string)
    requires userMessage.conversationId != d && answer.conversationId != d
    ensures MessagesOf(m + [userMessage], d) == MessagesOf(m, d)
    ensures MessagesOf(m + [userMessage, answer], d) == MessagesOf(m, d)
  {
    MessagesOfAppend(m, userMessage, d);
    MessagesOfAppend(m + [userMessage], answer, d);
    assert m + [userMessage] + [answer] == m + [userMessage, answer];
  }

  /** The conversation with a reply's token usage added to its running count. */
  function WithUsage(c: Conversation, tokens: int): (r: Conversation)
    ensures r.tokenCount - c.tokenCount == tokens
    ensures r.userId == c.userId && r.title == c.title && r.mode == c.mode
  {
    c.(tokenCount := c.tokenCount + tokens)
  }

  /** Stores the model's reply under the next number and adds its token usage
      to the conversation's count. */
  method SaveReply(db: Db, cid: string, reply: LlmReply) returns (answer: Message)
    requires db.Valid()
    requires cid in db.conversations
    modifies db
    ensures answer == Message(cid, NextSequenceNumber(old(db.messages), cid), Assistant, reply.content, Some(reply.model))
    ensures db.messages == old(db.messages) + [answer]
    ensures db.conversations == old(db.conversations)[cid := WithUsage(old(db.conversations)[cid], reply.tokenUsage)]
    ensures db.Valid()
    ensures unchanged(db`users, db`documents, db`chunks, db`links)
  {
    var nextSeq := NextSequenceNumber(db.messages, cid);
    answer := Message(cid, nextSeq, Assistant, reply.content, Some(reply.model));
    NextSequenceKeepsWellFormed(db.messages, db.conversations.Keys, answer);
    db.messages := db.messages + [answer];
    db.conversations := db.conversations[cid := WithUsage(db.conversations[cid], reply.tokenUsage)];
  }
}
