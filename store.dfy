/** The persistent tables, held in memory: users, conversations, messages,
    documents, document chunks and conversation/document links. Keyed tables
    are maps from the row id; the others are sequences in insertion order.
    The messages table keeps one invariant: every message belongs to an
    existing conversation and, within a conversation, sequence numbers are
    at least 1 and strictly increase in insertion order. */
module Store {
  import opened Types

  /** The messages of conversation `cid`, in table order. */
  function MessagesOf(m: seq<Message>, cid: string): (r: seq<Message>)
    ensures |r| <= |m|
  {
    if m == [] then []
    else MessagesOf(m[..|m| - 1], cid) + (if m[|m| - 1].conversationId == cid then [m[|m| - 1]] else [])
  }

  /** The messages table after deleting conversation `cid` (the cascade). */
  function WithoutConversation(m: seq<Message>, cid: string): (r: seq<Message>)
    ensures |r| <= |m|
  {
    if m == [] then []
    else WithoutConversation(m[..|m| - 1], cid) + (if m[|m| - 1].conversationId != cid then [m[|m| - 1]] else [])
  }

  /** The history holds exactly the conversation's messages; none when it has none. */
  lemma {:induction false} MessagesOfMembers(m: seq<Message>, cid: string)
    ensures forall x :: x in MessagesOf(m, cid) <==> x in m && x.conversationId == cid
    ensures (forall i :: 0 <= i < |m| ==> m[i].conversationId != cid) ==> MessagesOf(m, cid) == []
  {
    if m != [] {
      var init := m[..|m| - 1];
      MessagesOfMembers(init, cid);
      assert m == init + [m[|m| - 1]];
    }
  }

  /** The cascade removes exactly the conversation's messages. */
  lemma {:induction false} WithoutMembers(m: seq<Message>, cid: string)
    ensures forall x :: x in WithoutConversation(m, cid) <==> x in m && x.conversationId != cid
  {
    if m != [] {
      var init := m[..|m| - 1];
      WithoutMembers(init, cid);
      assert m == init + [m[|m| - 1]];
    }
  }

  /** The highest sequence number among the messages of `cid`, None when it has none
      (the query ordered by sequence number, descending, first row). */
  function MaxSeq(m: seq<Message>, cid: string): Option<int>
  {
    if m == [] then None
    else
      var rest := MaxSeq(m[..|m| - 1], cid);
      var last := m[|m| - 1];
      if last.conversationId != cid then rest
      else match rest
        case None => Some(last.sequenceNumber)
        case Some(x) => Some(if x >= last.sequenceNumber then x else last.sequenceNumber)
  }

  /** MaxSeq is None exactly for a conversation without messages, and otherwise
      the number of one of its messages that no other of its messages exceeds. */
  lemma {:induction false} MaxSeqIsMaximum(m: seq<Message>, cid: string)
    ensures MaxSeq(m, cid).None? <==> forall i :: 0 <= i < |m| ==> m[i].conversationId != cid
    ensures MaxSeq(m, cid).Some? ==>
              exists i :: 0 <= i < |m| && m[i].conversationId == cid && m[i].sequenceNumber == MaxSeq(m, cid).value
    ensures MaxSeq(m, cid).Some? ==>
              forall i :: 0 <= i < |m| && m[i].conversationId == cid ==> m[i].sequenceNumber <= MaxSeq(m, cid).value
  {
    if m != [] {
      var init, last := m[..|m| - 1], m[|m| - 1];
      MaxSeqIsMaximum(init, cid);
      assert forall i :: 0 <= i < |init| ==> m[i] == init[i];
      if last.conversationId == cid && MaxSeq(init, cid).Some? {
        var i :| 0 <= i < |init| && init[i].conversationId == cid && init[i].sequenceNumber == MaxSeq(init, cid).value;
        assert m[i] == init[i];
      }
    }
  }

  predicate Increasing(h: seq<Message>) {
    forall i, j :: 0 <= i < j < |h| ==> h[i].sequenceNumber < h[j].sequenceNumber
  }

  /** Every message belongs to a known conversation, carries a positive sequence
      number, and within a conversation the numbers increase in table order. */
  predicate WellFormed(m: seq<Message>, conversations: set<string>) {
    && (forall i :: 0 <= i < |m| ==> m[i].conversationId in conversations && m[i].sequenceNumber >= 1)
    && (forall i, j :: 0 <= i < j < |m| && m[i].conversationId == m[j].conversationId ==>
          m[i].sequenceNumber < m[j].sequenceNumber)
  }

  lemma {:induction false} MessagesOfAppend(m: seq<Message>, x: Message, cid: string)
    ensures MessagesOf(m + [x], cid) == MessagesOf(m, cid) + (if x.conversationId == cid then [x] else [])
  {
    assert (m + [x])[..|m + [x]| - 1] == m;
  }

  lemma {:induction false} WithoutAppend(m: seq<Message>, x: Message, cid: string)
    ensures WithoutConversation(m + [x], cid) == WithoutConversation(m, cid) + (if x.conversationId != cid then [x] else [])
  {
    assert (m + [x])[..|m + [x]| - 1] == m;
  }

  /** Deleting a conversation's messages leaves every other conversation's history as it was. */
  lemma {:induction false} MessagesOfWithout(m: seq<Message>, c: string, d: string)
    ensures MessagesOf(WithoutConversation(m, c), d) == if d == c then [] else MessagesOf(m, d)
  {
    if m != [] {
      var init, last := m[..|m| - 1], m[|m| - 1];
      assert m == init + [last];
      MessagesOfWithout(init, c, d);
      MessagesOfAppend(init, last, d);
      WithoutAppend(init, last, c);
      var w := WithoutConversation(init, c);
      if last.conversationId != c {
        assert WithoutConversation(m, c) == w + [last];
        MessagesOfAppend(w, last, d);
        assert MessagesOf(w + [last], d) == MessagesOf(w, d) + (if last.conversationId == d then [last] else []);
      } else {
        assert WithoutConversation(m, c) == w;
      }
    }
  }

  /** Appending a message numbered above all of its conversation's messages keeps the table well formed. */
  lemma AppendKeepsWellFormed(m: seq<Message>, conversations: set<string>, x: Message)
    requires WellFormed(m, conversations)
    requires x.conversationId in conversations && x.sequenceNumber >= 1
    requires forall i :: 0 <= i < |m| && m[i].conversationId == x.conversationId ==> m[i].sequenceNumber < x.sequenceNumber
    ensures WellFormed(m + [x], conversations)
  {
    var m' := m + [x];
    forall i, j | 0 <= i < j < |m'| && m'[i].conversationId == m'[j].conversationId
      ensures m'[i].sequenceNumber < m'[j].sequenceNumber
    {
      assert m'[i] == m[i];
      if j < |m| {
        assert m'[j] == m[j];
      }
    }
  }

  lemma IncreasingAppend(h: seq<Message>, x: Message)
    requires Increasing(h)
    requires forall k :: 0 <= k < |h| ==> h[k].sequenceNumber < x.sequenceNumber
    ensures Increasing(h + [x])
  {
    var h' := h + [x];
    forall i, j | 0 <= i < j < |h'| ensures h'[i].sequenceNumber < h'[j].sequenceNumber {
      assert h'[i] == h[i];
      if j < |h| {
        assert h'[j] == h[j];
      }
    }
  }

  /** In a well-formed table, each conversation's history is in increasing
      sequence order (the order the history relationship sorts by). */
  lemma {:induction false} HistoryIncreasing(m: seq<Message>, conversations: set<string>, cid: string)
    requires WellFormed(m, conversations)
    ensures Increasing(MessagesOf(m, cid))
  {
    if m != [] {
      var init, last := m[..|m| - 1], m[|m| - 1];
      assert m == init + [last];
      assert WellFormed(init, conversations);
      HistoryIncreasing(init, conversations, cid);
      MessagesOfAppend(init, last, cid);
      if last.conversationId == cid {
        var h := MessagesOf(init, cid);
        MessagesOfMembers(init, cid);
        forall k | 0 <= k < |h| ensures h[k].sequenceNumber < last.sequenceNumber {
          assert h[k] in init;
          var i :| 0 <= i < |init| && init[i] == h[k];
          assert m[i] == h[k];
        }
        IncreasingAppend(h, last);
      }
    }
  }

  /** The cascade keeps the table well formed for the remaining conversations. */
  lemma {:induction false} WithoutKeepsWellFormed(m: seq<Message>, conversations: set<string>, cid: string)
    requires WellFormed(m, conversations)
    ensures WellFormed(WithoutConversation(m, cid), conversations - {cid})
  {
    if m != [] {
      var init, last := m[..|m| - 1], m[|m| - 1];
      assert m == init + [last];
      assert WellFormed(init, conversations);
      WithoutKeepsWellFormed(init, conversations, cid);
      WithoutAppend(init, last, cid);
      if last.conversationId != cid {
        var w := WithoutConversation(init, cid);
        WithoutMembers(init, cid);
        forall k | 0 <= k < |w| && w[k].conversationId == last.conversationId
          ensures w[k].sequenceNumber < last.sequenceNumber
        {
          assert w[k] in init;
          var i :| 0 <= i < |init| && init[i] == w[k];
          assert m[i] == w[k];
        }
        AppendKeepsWellFormed(w, conversations - {cid}, last);
      }
    }
  }

  /** A table that grows by insertion only: the row ids are caller-supplied fresh keys. */
  class Db {
    var users: set<string>
    var conversations: map<string, Conversation>
    var messages: seq<Message>
    var documents: map<string, Document>
    var chunks: seq<Chunk>
    var links: seq<Link>

    ghost predicate Valid()
      reads this
    {
      WellFormed(messages, conversations.Keys)
    }

    constructor ()
      ensures Valid()
      ensures users == {} && conversations == map[] && messages == []
      ensures documents == map[] && chunks == [] && links == []
    {
      users, conversations, messages := {}, map[], [];
      documents, chunks, links := map[], [], [];
    }
  }
}
