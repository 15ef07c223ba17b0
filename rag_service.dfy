/** The document side of retrieval-augmented chat: creating document rows,
    the conversation/document link table (linking, listing, and deleting a
    conversation's documents when nothing else links them), and the choice of
    the context handed to the model: score every parseable chunk of the linked
    documents, stable-sort by score descending, keep the best five and join
    their texts with blank lines. */
module RagService {
  import opened Types
  import opened Store

  const TopK := 5
  const Separator := "\n\n"

  // --- Linking ---

  predicate IsReady(id: string, documents: map<string, Document>) {
    id in documents && documents[id].status == Ready
  }

  /** The ids that name an existing READY document, in order, repetitions kept. */
  function ReadyIds(ids: seq<string>, documents: map<string, Document>): (r: seq<string>)
    ensures forall x :: x in r <==> x in ids && IsReady(x, documents)
    ensures |r| <= |ids|
  {
    if ids == [] then []
    else ReadyIds(ids[..|ids| - 1], documents)
         + (if IsReady(ids[|ids| - 1], documents) then [ids[|ids| - 1]] else [])
  }

  /** One link row per id, in order. */
  function LinkRows(cid: string, ids: seq<string>): (r: seq<Link>)
    ensures |r| == |ids| && forall i :: 0 <= i < |ids| ==> r[i] == Link(cid, ids[i])
  {
    if ids == [] then [] else LinkRows(cid, ids[..|ids| - 1]) + [Link(cid, ids[|ids| - 1])]
  }

  /** A new document row; the id stands for the generated uuid. It starts READY.
      The row's user must exist: the document table's foreign key refuses
      the commit otherwise. */
  method CreateDocumentAndLink(db: Db, userId: string, filename: string, newId: string)
    returns (document: Document)
    requires newId !in db.documents
    requires userId in db.users
    modifies db
    ensures document == Document(userId, filename, "s3://bot-docs/" + newId, Ready)
    ensures db.documents == old(db.documents)[newId := document]
    ensures unchanged(db`users, db`conversations, db`messages, db`chunks, db`links)
  {
    document := Document(userId, filename, "s3://bot-docs/" + newId, Ready);
    db.documents := db.documents[newId := document];
  }

  /** Adds one link row per id that names a READY document, skipping the rest;
      there is no check for an existing identical link. */
  method LinkDocumentsToConversation(db: Db, cid: string, documentIds: seq<string>)
    modifies db
    ensures db.links == old(db.links) + LinkRows(cid, ReadyIds(documentIds, old(db.documents)))
    ensures unchanged(db`users, db`conversations, db`messages, db`documents, db`chunks)
  {
    var documents := db.documents;
    var added: seq<Link> := [];
    var i := 0;
    while i < |documentIds|
      invariant 0 <= i <= |documentIds|
      invariant added == LinkRows(cid, ReadyIds(documentIds[..i], documents))
      invariant unchanged(db)
    {
      var docId := documentIds[i];
      LinkStep(cid, documentIds, i, documents);
      if docId in documents && documents[docId].status == Ready {
        added := added + [Link(cid, docId)];
      }
      i := i + 1;
    }
    assert documentIds[..i] == documentIds;
    db.links := db.links + added;
  }

  lemma LinkStep(cid: string, ids: seq<string>, i: nat, documents: map<string, Document>)
    requires i < |ids|
    ensures LinkRows(cid, ReadyIds(ids[..i + 1], documents))
         == LinkRows(cid, ReadyIds(ids[..i], documents)) + (if IsReady(ids[i], documents) then [Link(cid, ids[i])] else [])
  {
    assert ids[..i + 1] == ids[..i] + [ids[i]];
    ReadyIdsAppend(ids[..i], ids[i], documents);
    if IsReady(ids[i], documents) {
      LinkRowsAppend(cid, ReadyIds(ids[..i], documents), ids[i]);
    }
  }

  lemma ReadyIdsAppend(ids: seq<string>, x: string, documents: map<string, Document>)
    ensures ReadyIds(ids + [x], documents) == ReadyIds(ids, documents) + (if IsReady(x, documents) then [x] else [])
  {
    assert (ids + [x])[..|ids|] == ids;
  }

  lemma LinkRowsAppend(cid: string, ids: seq<string>, x: string)
    ensures LinkRows(cid, ids + [x]) == LinkRows(cid, ids) + [Link(cid, x)]
  {
    assert (ids + [x])[..|ids|] == ids;
  }

  /** The single-id form: a lone id is linked as a one-element list. */
  method LinkDocumentToConversation(db: Db, cid: string, documentId: string)
    modifies db
    ensures db.links == old(db.links) + (if IsReady(documentId, old(db.documents)) then [Link(cid, documentId)] else [])
    ensures unchanged(db`users, db`conversations, db`messages, db`documents, db`chunks)
  {
    ghost var documents := db.documents;
    LinkDocumentsToConversation(db, cid, [documentId]);
    ReadyIdsAppend([], documentId, documents);
    LinkRowsAppend(cid, [], documentId);
    assert [] + [documentId] == [documentId];
  }

  /** Linking a READY document twice adds two identical rows. */
  lemma LinkingTwiceDuplicates(cid: string, d: string, documents: map<string, Document>)
    requires IsReady(d, documents)
    ensures LinkRows(cid, ReadyIds([d, d], documents)) == [Link(cid, d), Link(cid, d)]
  {
    assert [d, d] == [d] + [d] && [d] == [] + [d];
    ReadyIdsAppend([], d, documents);
    ReadyIdsAppend([d], d, documents);
    LinkRowsAppend(cid, [], d);
    LinkRowsAppend(cid, [d], d);
  }

  /** The document ids of the conversation's links, in link order. */
  function LinkedDocIds(links: seq<Link>, cid: string): (r: seq<string>)
    ensures forall d :: d in r <==> Link(cid, d) in links
  {
    if links == [] then []
    else
      var last := links[|links| - 1];
      LinkedDocIds(links[..|links| - 1], cid) + (if last.conversationId == cid then [last.documentId] else [])
  }

  /** The documents linked to the conversation: none without links, otherwise
      exactly the existing documents named by one of its links. */
  function DocumentsForConversation(links: seq<Link>, documents: map<string, Document>, cid: string)
    : (r: map<string, Document>)
    ensures forall d :: d in r <==> d in documents && Link(cid, d) in links
    ensures forall d :: d in r ==> r[d] == documents[d]
  {
    var ids := LinkedDocIds(links, cid);
    if ids == [] then map[] else map d | d in documents && d in ids :: documents[d]
  }

  // --- Deleting a conversation's documents ---

  /** The link table without the conversation's links, other rows in order. */
  function UnlinkConversation(links: seq<Link>, cid: string): (r: seq<Link>)
    ensures forall l :: l in r <==> l in links && l.conversationId != cid
  {
    if links == [] then []
    else
      var last := links[|links| - 1];
      UnlinkConversation(links[..|links| - 1], cid) + (if last.conversationId != cid then [last] else [])
  }

  /** The number of link rows naming document `d`. */
  function LinkCount(links: seq<Link>, d: string): (n: nat)
    ensures n == 0 <==> forall l :: l in links ==> l.documentId != d
  {
    if links == [] then 0
    else LinkCount(links[..|links| - 1], d) + (if links[|links| - 1].documentId == d then 1 else 0)
  }

  /** The chunk table without the chunks of the given documents, other rows in order. */
  function KeepChunks(chunks: seq<Chunk>, removed: set<string>): (r: seq<Chunk>)
    ensures forall c :: c in r <==> c in chunks && c.documentId !in removed
  {
    if chunks == [] then []
    else
      var last := chunks[|chunks| - 1];
      KeepChunks(chunks[..|chunks| - 1], removed) + (if last.documentId !in removed then [last] else [])
  }

  lemma {:induction false} KeepChunksTwice(chunks: seq<Chunk>, a: set<string>, b: set<string>)
    ensures KeepChunks(KeepChunks(chunks, a), b) == KeepChunks(chunks, a + b)
  {
    if chunks != [] {
      var init, last := chunks[..|chunks| - 1], chunks[|chunks| - 1];
      KeepChunksTwice(init, a, b);
      assert KeepChunks(chunks, a + b) == KeepChunks(init, a + b) + (if last.documentId !in a + b then [last] else []);
      if last.documentId !in a {
        var once := KeepChunks(init, a) + [last];
        assert KeepChunks(chunks, a) == once;
        assert once[..|once| - 1] == KeepChunks(init, a);
        assert KeepChunks(once, b) == KeepChunks(KeepChunks(init, a), b) + (if last.documentId !in b then [last] else []);
      } else {
        assert KeepChunks(chunks, a) == KeepChunks(init, a);
      }
    }
  }

  /** The documents linked to `cid` that no other conversation links. */
  function OrphanedBy(links: seq<Link>, cid: string): set<string> {
    set d | d in LinkedDocIds(links, cid) && LinkCount(UnlinkConversation(links, cid), d) == 0
  }

  /** Removes the conversation's links, then every formerly linked document that no
      remaining link names, together with its chunks. */
  method DeleteDocumentsForConversation(db: Db, cid: string)
    modifies db
    ensures db.links == UnlinkConversation(old(db.links), cid)
    ensures db.documents == old(db.documents) - OrphanedBy(old(db.links), cid)
    ensures db.chunks == KeepChunks(old(db.chunks), OrphanedBy(old(db.links), cid))
    ensures unchanged(db`users, db`conversations, db`messages)
  {
    var documentIds := LinkedDocIds(db.links, cid);
    var links := UnlinkConversation(db.links, cid);
    var documents, chunks := RemoveUnlinked(documentIds, links, db.documents, db.chunks);
    assert OrphanedBy(db.links, cid) == DeletedSoFar(documentIds, links);
    db.links, db.documents, db.chunks := links, documents, chunks;
  }

  /** Deletes, one id at a time, each document that no remaining link names, with its chunks. */
  method RemoveUnlinked(documentIds: seq<string>, links: seq<Link>, allDocuments: map<string, Document>, allChunks: seq<Chunk>)
    returns (documents: map<string, Document>, chunks: seq<Chunk>)
    ensures documents == allDocuments - DeletedSoFar(documentIds, links)
    ensures chunks == KeepChunks(allChunks, DeletedSoFar(documentIds, links))
  {
    documents, chunks := allDocuments, allChunks;
    ghost var removed: set<string> := {};
    KeepChunksIdentity(chunks);
    var i := 0;
    while i < |documentIds|
      invariant 0 <= i <= |documentIds|
      invariant removed == DeletedSoFar(documentIds[..i], links)
      invariant documents == allDocuments - removed
      invariant chunks == KeepChunks(allChunks, removed)
    {
      var docId := documentIds[i];
      DeletedSoFarAppend(documentIds[..i], docId, links);
      TakeNext(documentIds, i);
      var otherLinks := LinkCount(links, docId);
      if otherLinks == 0 {
        KeepChunksTwice(allChunks, removed, {docId});
        MapMinusTwice(allDocuments, removed, {docId});
        chunks := KeepChunks(chunks, {docId});
        documents := documents - {docId};
        removed := removed + {docId};
      }
      i := i + 1;
    }
    TakeAll(documentIds);
  }

  /** The documents among `ids` that no remaining link names. */
  function DeletedSoFar(ids: seq<string>, remaining: seq<Link>): set<string> {
    set d | d in ids && LinkCount(remaining, d) == 0
  }

  lemma DeletedSoFarAppend(ids: seq<string>, x: string, remaining: seq<Link>)
    ensures LinkCount(remaining, x) == 0 ==> DeletedSoFar(ids + [x], remaining) == DeletedSoFar(ids, remaining) + {x}
    ensures LinkCount(remaining, x) != 0 ==> DeletedSoFar(ids + [x], remaining) == DeletedSoFar(ids, remaining)
  {
  }

  lemma {:induction false} KeepChunksIdentity(chunks: seq<Chunk>)
    ensures KeepChunks(chunks, {}) == chunks
  {
    if chunks != [] {
      var init := chunks[..|chunks| - 1];
      KeepChunksIdentity(init);
      assert chunks == init + [chunks[|chunks| - 1]];
    }
  }

  /** After the deletion the conversation has no documents, a document still linked
      elsewhere survives with all its chunks, and a removed document has no chunk left. */
  lemma DeletionOutcome(links: seq<Link>, documents: map<string, Document>, chunks: seq<Chunk>, cid: string, d: string)
    ensures DocumentsForConversation(UnlinkConversation(links, cid), documents - OrphanedBy(links, cid), cid) == map[]
    ensures d in documents && (exists l :: l in links && l.documentId == d && l.conversationId != cid) ==>
              d in documents - OrphanedBy(links, cid)
              && forall c :: c in chunks && c.documentId == d ==> c in KeepChunks(chunks, OrphanedBy(links, cid))
    ensures d in OrphanedBy(links, cid) ==>
              d !in documents - OrphanedBy(links, cid)
              && forall c :: c in KeepChunks(chunks, OrphanedBy(links, cid)) ==> c.documentId != d
  {
    var rest := UnlinkConversation(links, cid);
    if d in documents && (exists l :: l in links && l.documentId == d && l.conversationId != cid) {
      var l :| l in links && l.documentId == d && l.conversationId != cid;
      assert l in rest;
      assert d !in OrphanedBy(links, cid);
    }
  }

  // --- Retrieval ---

  datatype Candidate = Candidate(score: int, text: string)

  /** The chunks of the given documents, in table order. */
  function ChunksOfDocuments(chunks: seq<Chunk>, ids: seq<string>): (r: seq<Chunk>)
    ensures forall c :: c in r <==> c in chunks && c.documentId in ids
  {
    if chunks == [] then []
    else
      var last := chunks[|chunks| - 1];
      ChunksOfDocuments(chunks[..|chunks| - 1], ids) + (if last.documentId in ids then [last] else [])
  }

  /** The score of a chunk against the query vector, None when its stored embedding does not parse. */
  function ScoreOf(c: Chunk, query: Vector, embedder: Embedder): Option<Candidate> {
    match embedder.parse(c.embedding)
    case None => None
    case Some(v) => Some(Candidate(embedder.similarity(query, v), c.content))
  }

  /** One candidate per chunk whose embedding parses, in chunk order; the others are skipped. */
  function Scored(chunks: seq<Chunk>, query: Vector, embedder: Embedder): (r: seq<Candidate>)
    ensures |r| <= |chunks|
  {
    if chunks == [] then []
    else
      var rest := Scored(chunks[..|chunks| - 1], query, embedder);
      match ScoreOf(chunks[|chunks| - 1], query, embedder)
      case None => rest
      case Some(x) => rest + [x]
  }

  /** Every chunk whose embedding parses gives a candidate, and every candidate comes from such a chunk. */
  lemma {:induction false} ScoredCandidates(chunks: seq<Chunk>, query: Vector, embedder: Embedder)
    ensures var r := Scored(chunks, query, embedder);
            && (forall x :: x in r ==> exists c :: c in chunks && ScoreOf(c, query, embedder) == Some(x))
            && (forall c :: c in chunks && ScoreOf(c, query, embedder).Some? ==> ScoreOf(c, query, embedder).value in r)
  {
    if chunks != [] {
      var init, last := chunks[..|chunks| - 1], chunks[|chunks| - 1];
      ScoredCandidates(init, query, embedder);
      assert chunks == init + [last];
      assert forall c :: c in chunks <==> c in init || c == last;
    }
  }

  predicate SortedDesc(s: seq<Candidate>) {
    forall i, j :: 0 <= i < j < |s| ==> s[i].score >= s[j].score
  }

  /** Places `x` after every element scoring at least as much (a stable insertion). */
  function InsertByScore(sorted: seq<Candidate>, x: Candidate): (r: seq<Candidate>)
    ensures multiset(r) == multiset(sorted) + multiset{x}
  {
    if sorted == [] then [x]
    else if sorted[0].score >= x.score then
      assert sorted == [sorted[0]] + sorted[1..];
      [sorted[0]] + InsertByScore(sorted[1..], x)
    else [x] + sorted
  }

  /** `scored.sort(key=score, reverse=True)`: a stable sort by descending score. */
  function SortByScoreDesc(s: seq<Candidate>): (r: seq<Candidate>)
    ensures multiset(r) == multiset(s)
  {
    if s == [] then []
    else
      assert s == s[..|s| - 1] + [s[|s| - 1]];
      InsertByScore(SortByScoreDesc(s[..|s| - 1]), s[|s| - 1])
  }

  /** The candidates with score `k`, in order. */
  function WithScore(s: seq<Candidate>, k: int): seq<Candidate> {
    if s == [] then [] else (if s[0].score == k then [s[0]] else []) + WithScore(s[1..], k)
  }

  lemma {:induction false} WithScoreAppend(a: seq<Candidate>, b: seq<Candidate>, k: int)
    ensures WithScore(a + b, k) == WithScore(a, k) + WithScore(b, k)
  {
    if a == [] {
      assert a + b == b;
    } else {
      var head := if a[0].score == k then [a[0]] else [];
      assert (a + b)[0] == a[0];
      assert (a + b)[1..] == a[1..] + b;
      WithScoreAppend(a[1..], b, k);
      calc {
        WithScore(a + b, k);
        head + WithScore(a[1..] + b, k);
        head + (WithScore(a[1..], k) + WithScore(b, k));
        (head + WithScore(a[1..], k)) + WithScore(b, k);
      }
    }
  }

  lemma {:induction false} WithScoreNone(s: seq<Candidate>, k: int)
    requires forall i :: 0 <= i < |s| ==> s[i].score < k
    ensures WithScore(s, k) == []
  {
    if s != [] {
      WithScoreNone(s[1..], k);
    }
  }

  lemma {:induction false} InsertKeepsSorted(t: seq<Candidate>, x: Candidate)
    requires SortedDesc(t)
    ensures SortedDesc(InsertByScore(t, x))
  {
    var r := InsertByScore(t, x);
    if t != [] && t[0].score >= x.score {
      var tail := InsertByScore(t[1..], x);
      InsertKeepsSorted(t[1..], x);
      assert r == [t[0]] + tail;
      forall j | 0 < j < |r| ensures r[0].score >= r[j].score {
        assert r[j] == tail[j - 1];
        assert r[j] in multiset(tail);
        assert r[j] in multiset(t[1..]) + multiset{x};
        if r[j] != x {
          assert r[j] in t[1..];
        }
      }
    }
  }

  lemma SortedTail(t: seq<Candidate>)
    requires t != [] && SortedDesc(t)
    ensures SortedDesc(t[1..])
  {
    forall i, j | 0 <= i < j < |t| - 1 ensures t[1..][i].score >= t[1..][j].score {
      assert t[1..][i] == t[i + 1] && t[1..][j] == t[j + 1];
    }
  }

  /** When `x` outscores the whole sorted list it goes first, and no candidate of its score precedes it. */
  lemma InsertAtFront(t: seq<Candidate>, x: Candidate, k: int)
    requires SortedDesc(t) && t != [] && t[0].score < x.score
    ensures WithScore(InsertByScore(t, x), k) == WithScore(t, k) + (if x.score == k then [x] else [])
  {
    var own := if x.score == k then [x] else [];
    var r := [x] + t;
    assert InsertByScore(t, x) == r;
    assert r[0] == x && r[1..] == t;
    assert WithScore(r, k) == own + WithScore(t, k);
    if x.score == k {
      forall i | 0 <= i < |t| ensures t[i].score < k {
        assert t[0].score >= t[i].score;
      }
      WithScoreNone(t, k);
    }
  }

  /** When `x` does not outscore the head, it is inserted into the tail. */
  lemma InsertBehindHead(t: seq<Candidate>, x: Candidate, k: int)
    requires t != [] && t[0].score >= x.score
    requires WithScore(InsertByScore(t[1..], x), k) == WithScore(t[1..], k) + (if x.score == k then [x] else [])
    ensures WithScore(InsertByScore(t, x), k) == WithScore(t, k) + (if x.score == k then [x] else [])
  {
    var own := if x.score == k then [x] else [];
    var head := if t[0].score == k then [t[0]] else [];
    var tail := InsertByScore(t[1..], x);
    assert InsertByScore(t, x) == [t[0]] + tail;
    WithScoreCons(t[0], tail, k);
    HeadTail(t);
    WithScoreCons(t[0], t[1..], k);
    ConcatAssoc(head, WithScore(t[1..], k), own);
  }

  lemma WithScoreCons(x: Candidate, s: seq<Candidate>, k: int)
    ensures WithScore([x] + s, k) == (if x.score == k then [x] else []) + WithScore(s, k)
  {
    assert ([x] + s)[0] == x && ([x] + s)[1..] == s;
  }

  /** Insertion puts `x` after every candidate of its score already in the list. */
  lemma {:induction false} InsertKeepsOrderOfEquals(t: seq<Candidate>, x: Candidate, k: int)
    requires SortedDesc(t)
    ensures WithScore(InsertByScore(t, x), k) == WithScore(t, k) + (if x.score == k then [x] else [])
  {
    if t == [] {
      assert InsertByScore(t, x) == [x];
      assert [x][1..] == [];
      assert WithScore([x], k) == (if x.score == k then [x] else []) + WithScore([], k);
    } else if t[0].score >= x.score {
      SortedTail(t);
      InsertKeepsOrderOfEquals(t[1..], x, k);
      InsertBehindHead(t, x, k);
    } else {
      InsertAtFront(t, x, k);
    }
  }

  /** The sort orders by descending score. */
  lemma {:induction false} SortByScoreDescIsSorted(s: seq<Candidate>)
    ensures SortedDesc(SortByScoreDesc(s))
  {
    if s != [] {
      var init := s[..|s| - 1];
      SortByScoreDescIsSorted(init);
      InsertKeepsSorted(SortByScoreDesc(init), s[|s| - 1]);
    }
  }

  /** The sort keeps candidates of equal score in scan order. */
  lemma {:induction false} SortByScoreDescIsStable(s: seq<Candidate>, k: int)
    ensures WithScore(SortByScoreDesc(s), k) == WithScore(s, k)
  {
    if s != [] {
      var init, last := s[..|s| - 1], s[|s| - 1];
      assert s == init + [last];
      WithScoreAppend(init, [last], k);
      WithScoreCons(last, [], k);
      assert [last] + [] == [last];
      var sortedInit := SortByScoreDesc(init);
      assert SortByScoreDesc(s) == InsertByScore(sortedInit, last);
      SortByScoreDescIsStable(init, k);
      SortByScoreDescIsSorted(init);
      InsertKeepsOrderOfEquals(sortedInit, last, k);
    }
  }

  /** The best `TopK` candidates of a sorted list. */
  function Top(sorted: seq<Candidate>): seq<Candidate> {
    if |sorted| <= TopK then sorted else sorted[..TopK]
  }

  function Texts(s: seq<Candidate>): (r: seq<string>)
    ensures |r| == |s| && forall i :: 0 <= i < |s| ==> r[i] == s[i].text
  {
    if s == [] then [] else [s[0].text] + Texts(s[1..])
  }

  /** `sep.join(parts)`. */
  function Join(parts: seq<string>, sep: string): string {
    if parts == [] then "" else if |parts| == 1 then parts[0] else parts[0] + sep + Join(parts[1..], sep)
  }

  /** The context from scored candidates: the top five texts joined with a blank line,
      or nothing when that text is blank. */
  function SelectContext(scored: seq<Candidate>): Option<string> {
    var joined := Join(Texts(Top(SortByScoreDesc(scored))), Separator);
    if IsBlank(joined) then None else Some(joined)
  }

  /** At most five candidates are kept, they are the first of the stable descending
      order, none scores below a dropped one, and equal scores keep their scan order. */
  lemma SelectionProperties(scored: seq<Candidate>, k: int)
    ensures var sorted := SortByScoreDesc(scored);
            var top := Top(sorted);
            && |top| == (if |scored| <= TopK then |scored| else TopK)
            && top == sorted[..|top|]
            && multiset(sorted) == multiset(scored)
            && SortedDesc(top)
            && (forall i, j :: 0 <= i < |top| <= j < |sorted| ==> top[i].score >= sorted[j].score)
            && WithScore(sorted, k) == WithScore(scored, k)
  {
    var sorted := SortByScoreDesc(scored);
    SortByScoreDescIsSorted(scored);
    SortByScoreDescIsStable(scored, k);
    assert |sorted| == |multiset(sorted)| == |multiset(scored)| == |scored|;
    TopOfSorted(sorted);
  }

  /** The top of a sorted list is its prefix of at most five, sorted, and outscores the rest. */
  lemma TopOfSorted(sorted: seq<Candidate>)
    requires SortedDesc(sorted)
    ensures var top := Top(sorted);
            && |top| == (if |sorted| <= TopK then |sorted| else TopK)
            && top == sorted[..|top|]
            && SortedDesc(top)
            && (forall i, j :: 0 <= i < |top| <= j < |sorted| ==> top[i].score >= sorted[j].score)
  {
    var top := Top(sorted);
    assert top == sorted[..|top|];
    forall i, j | 0 <= i < j < |top| ensures top[i].score >= top[j].score {
      assert top[i] == sorted[i] && top[j] == sorted[j];
    }
    forall i, j | 0 <= i < |top| <= j < |sorted| ensures top[i].score >= sorted[j].score {
      assert top[i] == sorted[i];
    }
  }

  /** The context for a query in a conversation: nothing without links or without
      chunks, otherwise the selection over the parseable chunks of the linked documents. */
  function ContextFor(links: seq<Link>, chunks: seq<Chunk>, cid: string, userQuery: string, embedder: Embedder)
    : Option<string>
  {
    var ids := LinkedDocIds(links, cid);
    if ids == [] then None
    else
      var candidates := ChunksOfDocuments(chunks, ids);
      if candidates == [] then None
      else SelectContext(Scored(candidates, embedder.embed(userQuery), embedder))
  }

  /** The retrieved context is never blank, and is absent when the conversation has
      no link or its documents have no chunk. */
  lemma ContextForOutcome(links: seq<Link>, chunks: seq<Chunk>, cid: string, userQuery: string, embedder: Embedder)
    ensures var ctx := ContextFor(links, chunks, cid, userQuery, embedder);
            && (ctx.Some? ==> !IsBlank(ctx.value))
            && ((forall d :: Link(cid, d) !in links) ==> ctx.None?)
            && ((forall c :: c in chunks ==> Link(cid, c.documentId) !in links) ==> ctx.None?)
  {
    var ids := LinkedDocIds(links, cid);
    if ids != [] {
      assert Link(cid, ids[0]) in links;
      var candidates := ChunksOfDocuments(chunks, ids);
      if candidates != [] {
        var c := candidates[0];
        assert c in chunks && Link(cid, c.documentId) in links;
      }
    }
  }

  /** Scores the chunks of the linked documents one by one, skipping those whose
      embedding does not parse, then sorts, keeps the top five and joins them. */
  method RetrieveContextForQuery(db: Db, cid: string, userQuery: string, embedder: Embedder)
    returns (context: Option<string>)
    ensures context == ContextFor(db.links, db.chunks, cid, userQuery, embedder)
  {
    var documentIds := LinkedDocIds(db.links, cid);
    if documentIds == [] {
      return None;
    }
    var chunks := ChunksOfDocuments(db.chunks, documentIds);
    if chunks == [] {
      return None;
    }
    var scored := ScoreChunks(chunks, embedder.embed(userQuery), embedder);
    var joined := Join(Texts(Top(SortByScoreDesc(scored))), Separator);
    context := if IsBlank(joined) then None else Some(joined);
  }

  /** Scores the chunks one by one against the query vector, skipping those whose
      stored embedding does not parse. */
  method ScoreChunks(chunks: seq<Chunk>, queryEmb: Vector, embedder: Embedder) returns (scored: seq<Candidate>)
    ensures scored == Scored(chunks, queryEmb, embedder)
  {
    scored := [];
    var i := 0;
    while i < |chunks|
      invariant 0 <= i <= |chunks|
      invariant scored == Scored(chunks[..i], queryEmb, embedder)
    {
      var chunk := chunks[i];
      TakeNext(chunks, i);
      assert chunks[..i + 1][..i] == chunks[..i];
      match embedder.parse(chunk.embedding) {
        case None =>
        case Some(embedding) =>
          scored := scored + [Candidate(embedder.similarity(queryEmb, embedding), chunk.content)];
      }
      i := i + 1;
    }
    TakeAll(chunks);
  }
}
