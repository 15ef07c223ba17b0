/** The document pipeline: cutting extracted text into fixed-width overlapping
    windows, keeping the windows that are not blank, storing them as indexed
    chunk rows with their embeddings, and the document's status on the way
    (READY when created, CHUNKING while processed, then READY, FAILED, or left
    at CHUNKING when no window is usable). PDF reading, temporary files and the
    embedding model itself are outside the model: the extracted text is a
    parameter and the embedder is an abstract function. */
module DocumentProcessor {
  import opened Types
  import opened Store
  import opened RagService

  const ChunkSize := 512
  const ChunkOverlap := 50

  function Min(a: int, b: int): int {
    if a <= b then a else b
  }

  // --- Chunking ---

  /** The windows cut from `text`: the first `size` characters, then the
      windows of the text that starts `size - overlap` characters later, until
      a window reaches the end. */
  function Chunks(text: string, size: nat, overlap: nat): seq<string>
    requires overlap < size
    decreases |text|
  {
    if text == [] then []
    else if size >= |text| then [text]
    else [text[..size]] + Chunks(text[size - overlap..], size, overlap)
  }

  /** Cuts the text window by window; it stops after the window that reaches
      the end of the text. */
  method ChunkText(text: string, size: nat, overlap: nat) returns (chunks: seq<string>)
    requires overlap < size
    ensures chunks == Chunks(text, size, overlap)
  {
    if text == [] {
      return [];
    }
    chunks := [];
    var i := 0;
    while i < |text|
      invariant 0 <= i <= |text|
      invariant chunks + Chunks(text[i..], size, overlap) == Chunks(text, size, overlap)
      decreases |text| - i
    {
      var end := i + size;
      ghost var rest := text[i..];
      chunks := chunks + [text[i..Min(end, |text|)]];
      i := i + (size - overlap);
      if end >= |text| {
        assert Chunks(rest, size, overlap) == [rest];
        assert text[i - (size - overlap)..Min(end, |text|)] == rest;
        return;
      }
      assert rest[size - overlap..] == text[i..];
      assert rest[..size] == text[i - (size - overlap)..end];
    }
    assert text[i..] == [];
  }

  /** Where window k starts: k steps of `step` into the text. */
  function Start(k: nat, step: nat): nat {
    if k == 0 then 0 else Start(k - 1, step) + step
  }

  /** Window k starts at offset `k * step`. */
  lemma {:induction false} StartIsProduct(k: nat, step: nat)
    ensures Start(k, step) == k * step
  {
    if k > 0 {
      StartIsProduct(k - 1, step);
      assert (k - 1) * step + step == k * step;
    }
  }

  /** Window k is the stretch of the text that starts k steps of `size - overlap`
      in and is `size` long, clipped at the end of the text. */
  lemma {:induction false} ChunkAt(text: string, size: nat, overlap: nat, k: nat)
    requires overlap < size
    requires k < |Chunks(text, size, overlap)|
    ensures var start := Start(k, size - overlap);
            && start < |text|
            && Chunks(text, size, overlap)[k] == text[start..Min(start + size, |text|)]
    decreases |text|
  {
    var step := size - overlap;
    if k == 0 {
      assert Chunks(text, size, overlap)[0] == text[..Min(size, |text|)];
    } else {
      assert size < |text|;
      var rest := text[step..];
      assert Chunks(text, size, overlap)[k] == Chunks(rest, size, overlap)[k - 1] by {
        assert Chunks(text, size, overlap) == [text[..size]] + Chunks(rest, size, overlap);
      }
      ChunkAt(rest, size, overlap, k - 1);
      ShiftedWindow(text, step, size, Start(k - 1, step));
    }
  }

  lemma ShiftedWindow(text: string, step: nat, size: nat, j: nat)
    requires step <= |text| && j < |text| - step
    ensures text[step..][j..Min(j + size, |text| - step)] == text[j + step..Min(j + step + size, |text|)]
  {
  }

  /** For non-empty text the number of windows is the least n >= 1 whose last
      window reaches the end of the text: every earlier window ends before it. */
  lemma {:induction false} ChunkCount(text: string, size: nat, overlap: nat)
    requires overlap < size
    ensures var n := |Chunks(text, size, overlap)|;
            var step := size - overlap;
            && (text == [] <==> n == 0)
            && (text != [] ==> Start(n - 1, step) + size >= |text|)
            && (forall m: nat :: m < n - 1 ==> Start(m, step) + size < |text|)
    decreases |text|
  {
    var step := size - overlap;
    if text != [] && size < |text| {
      var rest := text[step..];
      ChunkCount(rest, size, overlap);
      var n := |Chunks(text, size, overlap)|;
      assert n == 1 + |Chunks(rest, size, overlap)|;
      assert Start(n - 1, step) == Start(n - 2, step) + step;
      forall m: nat | m < n - 1 ensures Start(m, step) + size < |text| {
        if m > 0 {
          assert Start(m - 1, step) + size < |rest|;
        }
      }
    }
  }

  /** Every window is at most `size` long, all but the last exactly `size`, and
      the last one reaches the end of the text. */
  lemma ChunkLengths(text: string, size: nat, overlap: nat, k: nat)
    requires overlap < size
    requires k < |Chunks(text, size, overlap)|
    ensures var chunks := Chunks(text, size, overlap);
            && |chunks[k]| <= size
            && (k < |chunks| - 1 ==> |chunks[k]| == size)
            && (k == |chunks| - 1 ==> Start(k, size - overlap) + |chunks[k]| == |text|)
  {
    ChunkAt(text, size, overlap, k);
    ChunkCount(text, size, overlap);
  }

  /** The windows without the overlap each later one repeats. */
  function Tails(chunks: seq<string>, overlap: nat): string {
    if chunks == [] then []
    else (if |chunks[0]| >= overlap then chunks[0][overlap..] else []) + Tails(chunks[1..], overlap)
  }

  /** The first window followed by the later windows with their first
      `overlap` characters removed. */
  function Reassemble(chunks: seq<string>, overlap: nat): string {
    if chunks == [] then [] else chunks[0] + Tails(chunks[1..], overlap)
  }

  /** The first window is the first `size` characters, or the whole text when it is shorter. */
  lemma {:induction false} FirstChunk(text: string, size: nat, overlap: nat)
    requires overlap < size && text != []
    ensures Chunks(text, size, overlap)[0] == text[..Min(size, |text|)]
  {
  }

  /** Round trip: the windows put back together give the text. */
  lemma {:induction false} ChunksReassemble(text: string, size: nat, overlap: nat)
    requires overlap < size
    ensures Reassemble(Chunks(text, size, overlap), overlap) == text
    decreases |text|
  {
    if text != [] && size < |text| {
      var step := size - overlap;
      var rest := text[step..];
      var later := Chunks(rest, size, overlap);
      ChunksReassemble(rest, size, overlap);
      FirstChunk(rest, size, overlap);
      assert |later[0]| > overlap;
      assert Chunks(text, size, overlap) == [text[..size]] + later;
      assert ([text[..size]] + later)[1..] == later;
      calc {
        Reassemble(Chunks(text, size, overlap), overlap);
        text[..size] + Tails(later, overlap);
        text[..size] + (later[0][overlap..] + Tails(later[1..], overlap));
        { assert later[0] + Tails(later[1..], overlap) == rest;
          assert later[0][overlap..] + Tails(later[1..], overlap) == rest[overlap..]; }
        text[..size] + rest[overlap..];
        { assert rest[overlap..] == text[size..]; }
        text;
      }
    }
  }

  // --- Storing the chunks ---

  /** The windows that are not blank, in order. */
  function Usable(chunks: seq<string>): (r: seq<string>)
    ensures |r| <= |chunks|
  {
    if chunks == [] then []
    else Usable(chunks[..|chunks| - 1]) + (if IsBlank(chunks[|chunks| - 1]) then [] else [chunks[|chunks| - 1]])
  }

  /** The kept windows are exactly the non-blank ones, in their original order. */
  lemma UsableKeepsNonBlank(chunks: seq<string>)
    ensures forall c :: c in Usable(chunks) <==> c in chunks && !IsBlank(c)
    ensures forall i :: 0 <= i < |Usable(chunks)| ==> !IsBlank(Usable(chunks)[i])
    ensures (forall c :: c in chunks ==> !IsBlank(c)) ==> Usable(chunks) == chunks
    ensures (forall c :: c in chunks ==> IsBlank(c)) ==> Usable(chunks) == []
  {
    UsableMembers(chunks);
    if forall c :: c in chunks ==> !IsBlank(c) {
      UsableOfNonBlank(chunks);
    }
    if Usable(chunks) != [] {
      assert Usable(chunks)[0] in Usable(chunks);
    }
  }

  lemma {:induction false} UsableMembers(chunks: seq<string>)
    ensures forall c :: c in Usable(chunks) <==> c in chunks && !IsBlank(c)
  {
    if chunks != [] {
      var init, last := chunks[..|chunks| - 1], chunks[|chunks| - 1];
      UsableMembers(init);
      assert chunks == init + [last];
      assert Usable(chunks) == Usable(init) + (if IsBlank(last) then [] else [last]);
    }
  }

  lemma {:induction false} UsableOfNonBlank(chunks: seq<string>)
    requires forall c :: c in chunks ==> !IsBlank(c)
    ensures Usable(chunks) == chunks
  {
    if chunks != [] {
      var init, last := chunks[..|chunks| - 1], chunks[|chunks| - 1];
      assert chunks == init + [last];
      assert last in chunks;
      assert forall c :: c in init ==> c in chunks;
      UsableOfNonBlank(init);
      assert Usable(chunks) == Usable(init) + [last];
    }
  }

  /** The stored row of the i-th kept window. */
  function ChunkRow(documentId: string, content: string, index: int, embedder: Embedder): Chunk {
    Chunk(documentId, content, embedder.serialize(embedder.embed(content)), index)
  }

  /** The rows of the kept windows, indexed from 0 in order. */
  function ChunkRows(documentId: string, contents: seq<string>, embedder: Embedder): (r: seq<Chunk>)
    ensures |r| == |contents|
    ensures forall i :: 0 <= i < |contents| ==> r[i] == ChunkRow(documentId, contents[i], i, embedder)
  {
    if contents == [] then []
    else
      var n := |contents| - 1;
      ChunkRows(documentId, contents[..n], embedder) + [ChunkRow(documentId, contents[n], n, embedder)]
  }

  /** The document with a new processing status and every other field kept. */
  function WithStatus(d: Document, status: ProcessingStatus): (r: Document)
    ensures r.status == status
    ensures r.userId == d.userId && r.filename == d.filename && r.storagePath == d.storagePath
  {
    d.(status := status)
  }

  /** The status after chunking: READY once some window is usable, otherwise as it was. */
  function StatusAfterChunking(current: ProcessingStatus, text: string): ProcessingStatus {
    if Usable(Chunks(text, ChunkSize, ChunkOverlap)) == [] then current else Ready
  }

  /** Cuts the text, stores one row per usable window with indexes 0..n-1 and
      marks the document READY; with no usable window nothing is stored and
      the status is left alone. The document must exist: the chunk table's
      foreign key refuses the commit otherwise. */
  method GenerateAndSaveChunks(db: Db, documentId: string, text: string, embedder: Embedder)
    requires documentId in db.documents
    modifies db
    ensures var contents := Usable(Chunks(text, ChunkSize, ChunkOverlap));
            db.chunks == old(db.chunks) + ChunkRows(documentId, contents, embedder)
    ensures db.documents == old(db.documents)[documentId := WithStatus(old(db.documents[documentId]), StatusAfterChunking(old(db.documents[documentId]).status, text))]
    ensures unchanged(db`users, db`conversations, db`messages, db`links)
  {
    var chunks := ChunkText(text, ChunkSize, ChunkOverlap);
    var contents := Usable(chunks);
    if contents == [] {
      assert ChunkRows(documentId, contents, embedder) == [];
      assert db.chunks + [] == db.chunks;
      ghost var d := db.documents[documentId];
      assert WithStatus(d, StatusAfterChunking(d.status, text)) == d;
      assert db.documents[documentId := d] == db.documents;
      return;
    }
    var rows := EmbedChunks(documentId, contents, embedder);
    db.chunks := db.chunks + rows;
    assert StatusAfterChunking(db.documents[documentId].status, text) == Ready;
    db.documents := db.documents[documentId := WithStatus(db.documents[documentId], Ready)];
  }

  /** Embeds the kept windows one by one into rows indexed from 0. */
  method EmbedChunks(documentId: string, contents: seq<string>, embedder: Embedder) returns (rows: seq<Chunk>)
    ensures rows == ChunkRows(documentId, contents, embedder)
  {
    rows := [];
    var i := 0;
    while i < |contents|
      invariant 0 <= i <= |contents|
      invariant rows == ChunkRows(documentId, contents[..i], embedder)
    {
      assert contents[..i + 1][..i] == contents[..i];
      rows := rows + [ChunkRow(documentId, contents[i], i, embedder)];
      i := i + 1;
    }
    assert contents[..i] == contents;
  }

  /** Chunks the text, then links the document when a conversation is given. */
  method ProcessDocument(db: Db, documentId: string, conversationId: Option<string>, text: string, embedder: Embedder)
    requires documentId in db.documents
    modifies db
    ensures var contents := Usable(Chunks(text, ChunkSize, ChunkOverlap));
            db.chunks == old(db.chunks) + ChunkRows(documentId, contents, embedder)
    ensures db.documents == old(db.documents)[documentId := WithStatus(old(db.documents[documentId]), StatusAfterChunking(old(db.documents[documentId]).status, text))]
    ensures db.links == old(db.links) +
              (if Given(conversationId) && IsReady(documentId, db.documents) then [Link(conversationId.value, documentId)] else [])
    ensures unchanged(db`users, db`conversations, db`messages)
  {
    GenerateAndSaveChunks(db, documentId, text, embedder);
    if conversationId.Some? && conversationId.value != "" {
      LinkDocumentToConversation(db, conversationId.value, documentId);
    }
  }

  /** The document's final status after an upload that got as far as creating
      it: FAILED when the text could not be extracted, otherwise READY once a
      window is usable and CHUNKING when none is. */
  function UploadStatus(extracted: Option<string>): ProcessingStatus {
    match extracted
    case None => Failed
    case Some(text) => StatusAfterChunking(Chunking, text)
  }

  /** An upload never leaves its document PENDING: it ends READY exactly when
      some window of the extracted text is not blank, FAILED exactly when
      extraction failed, and stays CHUNKING otherwise. */
  lemma UploadStatusOutcome(extracted: Option<string>)
    ensures UploadStatus(extracted) != Pending
    ensures UploadStatus(extracted) == Failed <==> extracted.None?
    ensures UploadStatus(extracted) == Ready <==>
              extracted.Some? && exists c :: c in Chunks(extracted.value, ChunkSize, ChunkOverlap) && !IsBlank(c)
  {
    if extracted.Some? {
      var chunks := Chunks(extracted.value, ChunkSize, ChunkOverlap);
      UsableKeepsNonBlank(chunks);
      if Usable(chunks) != [] {
        assert Usable(chunks)[0] in Usable(chunks);
      }
    }
  }

  /** Text with no non-blank character leaves the document CHUNKING. */
  lemma BlankTextStaysChunking(text: string)
    requires IsBlank(text)
    ensures UploadStatus(Some(text)) == Chunking
  {
    var chunks := Chunks(text, ChunkSize, ChunkOverlap);
    UsableKeepsNonBlank(chunks);
    BlankChunks(text, ChunkSize, ChunkOverlap);
  }

  /** Every window of a blank text is blank. */
  lemma {:induction false} BlankChunks(text: string, size: nat, overlap: nat)
    requires overlap < size && IsBlank(text)
    ensures forall c :: c in Chunks(text, size, overlap) ==> IsBlank(c)
    decreases |text|
  {
    if text != [] && size < |text| {
      var rest := text[size - overlap..];
      BlankSlice(text, 0, size);
      BlankSlice(text, size - overlap, |text|);
      BlankChunks(rest, size, overlap);
      assert Chunks(text, size, overlap) == [text[..size]] + Chunks(rest, size, overlap);
    }
  }

  lemma BlankSlice(s: string, i: nat, j: nat)
    requires IsBlank(s) && i <= j <= |s|
    ensures IsBlank(s[i..j])
  {
    forall k | 0 <= k < j - i ensures IsSpace(s[i..j][k]) {
      assert s[i..j][k] == s[i + k];
    }
  }

  /** The upload: the file is saved (`saved` says whether that worked), the
      document row is created READY, set to CHUNKING, then the extracted text
      (None when extraction failed) is chunked and linked. A user with no
      user row makes the first commit fail, so nothing is stored. Any failure
      after the row exists marks it FAILED; every failure is an internal error. */
  method ProcessDocumentUpload(db: Db, userId: string, conversationId: Option<string>, filename: string,
                               newId: string, saved: bool, extracted: Option<string>, embedder: Embedder)
    returns (result: Result<string, HttpError>)
    requires newId !in db.documents
    modifies db
    ensures !saved ==> result == Failure(InternalError) && unchanged(db)
    ensures saved && userId !in old(db.users) ==> result == Failure(InternalError) && unchanged(db)
    ensures saved && userId in old(db.users) && extracted.None? ==> result == Failure(InternalError)
    ensures saved && userId in old(db.users) && extracted.Some? ==> result == Success(newId)
    ensures saved && userId in old(db.users) ==>
              && db.documents == old(db.documents)[newId := Document(userId, filename, "s3://bot-docs/" + newId, UploadStatus(extracted))]
              && db.chunks == old(db.chunks) +
                   (if extracted.Some? then ChunkRows(newId, Usable(Chunks(extracted.value, ChunkSize, ChunkOverlap)), embedder) else [])
              && db.links == old(db.links) +
                   (if extracted.Some? && Given(conversationId) && UploadStatus(extracted) == Ready
                    then [Link(conversationId.value, newId)] else [])
    ensures unchanged(db`users, db`conversations, db`messages)
  {
    if !saved || userId !in db.users {
      return Failure(InternalError);
    }
    var document := CreateDocumentAndLink(db, userId, filename, newId);
    db.documents := db.documents[newId := WithStatus(document, Chunking)];
    ghost var chunking := Document(userId, filename, "s3://bot-docs/" + newId, Chunking);
    ghost var final := Document(userId, filename, "s3://bot-docs/" + newId, UploadStatus(extracted));
    assert db.documents == old(db.documents)[newId := chunking];
    assert old(db.documents)[newId := chunking][newId := final] == old(db.documents)[newId := final];
    if extracted.None? {
      assert WithStatus(chunking, Failed) == final;
      db.documents := db.documents[newId := WithStatus(db.documents[newId], Failed)];
      return Failure(InternalError);
    }
    assert WithStatus(chunking, StatusAfterChunking(Chunking, extracted.value)) == final;
    ProcessDocument(db, newId, conversationId, extracted.value, embedder);
    assert db.documents == old(db.documents)[newId := final];
    return Success(newId);
  }
}
