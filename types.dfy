/** Records and enumerations shared by the services: the rows of the
    conversation, message, document, chunk and link tables, and the small
    string helpers (Python's whitespace test and ASCII lower-casing). */
module Types {

  datatype Option<+T> = None | Some(value: T) {
    function GetOr(default: T): T {
      match this
      case Some(v) => v
      case None => default
    }
  }

  datatype Result<+R, +E> = Success(value: R) | Failure(error: E)

  /** An HTTP error raised towards the client; only its status code is kept. */
  datatype HttpError = HttpError(code: int)

  const BadRequest := HttpError(400)
  const NotFound := HttpError(404)
  const UnprocessableEntity := HttpError(422)
  const InternalError := HttpError(500)
  const ServiceUnavailable := HttpError(503)

  datatype ConversationMode = OpenChat | RagChat

  datatype MessageRole = User | Assistant | System

  datatype ProcessingStatus = Pending | Chunking | Ready | Failed

  /** The enumeration value of a role, as stored. */
  function RoleValue(r: MessageRole): string {
    match r
    case User => "USER"
    case Assistant => "ASSISTANT"
    case System => "SYSTEM"
  }

  /** A row of the conversations table (its key is the conversation id). */
  datatype Conversation = Conversation(
    userId: string,
    title: string,
    mode: ConversationMode,
    tokenCount: int)

  /** A row of the messages table. */
  datatype Message = Message(
    conversationId: string,
    sequenceNumber: int,
    role: MessageRole,
    content: string,
    llmModel: Option<string>)

  /** A row of the documents table (its key is the document id). */
  datatype Document = Document(
    userId: string,
    filename: string,
    storagePath: string,
    status: ProcessingStatus)

  /** A row of the document chunks table; the embedding is stored serialised. */
  datatype Chunk = Chunk(
    documentId: string,
    content: string,
    embedding: string,
    chunkIndex: int)

  /** A row of the conversation/document link table. */
  datatype Link = Link(conversationId: string, documentId: string)

  type Vector = seq<int>

  /** The embedding model and the similarity measure, as opaque total functions:
      `embed` maps text to a vector, `serialize` writes a vector for storage,
      `parse` reads a stored vector back (None when the text does not parse),
      and `similarity` compares the query vector with a chunk vector. */
  datatype Embedder = Embedder(
    embed: string -> Vector,
    serialize: Vector -> string,
    parse: string -> Option<Vector>,
    similarity: (Vector, Vector) -> int)

  /** Python's `str.isspace` for one character. */
  predicate IsSpace(c: char) {
    c == ' ' || '\t' <= c <= '\r' || '\U{1C}' <= c <= '\U{1F}' || c == '\U{85}' || c == '\U{A0}'
    || c == '\U{1680}' || '\U{2000}' <= c <= '\U{200A}' || c == '\U{2028}' || c == '\U{2029}'
    || c == '\U{202F}' || c == '\U{205F}' || c == '\U{3000}'
  }

  /** True when `s.strip()` is empty, i.e. `s` has no non-whitespace character. */
  predicate IsBlank(s: string) {
    forall i :: 0 <= i < |s| ==> IsSpace(s[i])
  }

  function LowerChar(c: char): char {
    if 'A' <= c <= 'Z' then (c as int + 32) as char else c
  }

  /** Lower-casing, restricted to ASCII letters. */
  function Lower(s: string): (r: string)
    ensures |r| == |s|
    ensures forall i :: 0 <= i < |s| ==> r[i] == LowerChar(s[i])
  {
    if s == [] then [] else [LowerChar(s[0])] + Lower(s[1..])
  }

  /** A Python truthiness test on an optional string: present and non-empty. */
  predicate Given(s: Option<string>) {
    s.Some? && s.value != ""
  }

  // --- Sequence identities, stated once so that proofs can cite them ---

  lemma HeadTail<T>(s: seq<T>)
    requires s != []
    ensures s == [s[0]] + s[1..]
  {
  }

  lemma ConcatAssoc<T>(a: seq<T>, b: seq<T>, c: seq<T>)
    ensures a + (b + c) == (a + b) + c
  {
  }

  lemma TakeNext<T>(s: seq<T>, i: nat)
    requires i < |s|
    ensures s[..i + 1] == s[..i] + [s[i]]
  {
  }

  lemma TakeAll<T>(s: seq<T>)
    ensures s[..|s|] == s
  {
  }

  lemma MapMinusTwice<K, V>(m: map<K, V>, a: set<K>, b: set<K>)
    ensures (m - a) - b == m - (a + b)
  {
  }

  lemma MapUpdateTwice<K, V>(m: map<K, V>, k: K, a: V, b: V)
    ensures m[k := a][k := b] == m[k := b]
  {
  }
}
