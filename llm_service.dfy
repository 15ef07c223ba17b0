/** Preparing one model call: the token estimate, the sliding context window
    over the conversation history, the role-tagged payload, and the retry
    policy around the provider call. The provider itself is abstract: each
    attempt's outcome is read from a sequence given by the caller, and the
    sleeps between attempts are returned as a list of durations. */
module LlmService {
  import opened Types

  const LlmModel := "llama-3.1-8b-instant"
  const MaxModelTokens := 32768
  /** `int(MAX_MODEL_TOKENS * 0.8)`: 80% of the model window, rounded down. */
  const ContextLimit := MaxModelTokens * 8 / 10
  const SystemPrompt := "You are BOT GPT, a helpful and concise enterprise conversational assistant. Your goal is to answer user queries based on conversation history and provided documents. Be professional and brief."
  const MaxRetries := 3

  /** One token per four characters, rounded down; the empty text costs 0. */
  function CountTokens(text: string): (r: nat)
    ensures 4 * r <= |text| < 4 * r + 4
    ensures text == [] ==> r == 0
  {
    |text| / 4
  }

  /** Tokens taken by the system prompt and, when it is non-empty, the retrieved context. */
  function BaseTokens(ragContext: Option<string>): nat {
    CountTokens(SystemPrompt) + (if Given(ragContext) then CountTokens(ragContext.value) else 0)
  }

  /** Total token estimate of the messages' contents. */
  function SumTokens(h: seq<Message>): nat {
    if h == [] then 0 else SumTokens(h[..|h| - 1]) + CountTokens(h[|h| - 1].content)
  }

  /** How many of the newest messages the backward walk accepts when `room`
      tokens are left: it stops at the first message that does not fit. */
  function KeptCount(h: seq<Message>, room: int): (n: nat)
    ensures n <= |h|
  {
    if h == [] then 0
    else
      var t := CountTokens(h[|h| - 1].content);
      if t <= room then 1 + KeptCount(h[..|h| - 1], room - t) else 0
  }

  /** The history the window manager keeps, in chronological order. */
  function Window(h: seq<Message>, ragContext: Option<string>, limit: int): (r: seq<Message>)
    ensures |r| <= |h| && r == h[|h| - |r|..]
  {
    h[|h| - KeptCount(h, limit - BaseTokens(ragContext))..]
  }

  /** The sliding window: walk the history newest first, accepting messages while
      the running total stays within `limit`, and stop at the first that does not fit. */
  method ManageContextWindow(history: seq<Message>, ragContext: Option<string>, limit: int)
    returns (processed: seq<Message>)
    ensures processed == Window(history, ragContext, limit)
  {
    var baseTokens := CountTokens(SystemPrompt);
    if Given(ragContext) {
      baseTokens := baseTokens + CountTokens(ragContext.value);
    }
    processed := KeepNewest(history, baseTokens, limit);
  }

  /** The backward walk itself, starting from `baseTokens` already spent. */
  method KeepNewest(history: seq<Message>, baseTokens: int, limit: int) returns (processed: seq<Message>)
    ensures processed == history[|history| - KeptCount(history, limit - baseTokens)..]
  {
    var currentTokens := baseTokens;
    processed := [];
    var i := |history|;
    assert history[..i] == history;
    while i > 0
      invariant 0 <= i <= |history|
      invariant processed == history[i..]
      invariant KeptCount(history, limit - baseTokens) == (|history| - i) + KeptCount(history[..i], limit - currentTokens)
    {
      var message := history[i - 1];
      var messageTokens := CountTokens(message.content);
      assert history[..i][i - 1] == message && history[..i][..i - 1] == history[..i - 1];
      if currentTokens + messageTokens <= limit {
        assert KeptCount(history[..i], limit - currentTokens)
            == 1 + KeptCount(history[..i - 1], limit - currentTokens - messageTokens);
        currentTokens := currentTokens + messageTokens;
        processed := [message] + processed;
        i := i - 1;
      } else {
        assert KeptCount(history[..i], limit - currentTokens) == 0;
        break;
      }
    }
  }

  lemma {:induction false} SumTokensAppend(a: seq<Message>, b: seq<Message>)
    ensures SumTokens(a + b) == SumTokens(a) + SumTokens(b)
    decreases |b|
  {
    if b == [] {
      assert a + b == a;
    } else {
      assert (a + b)[..|a + b| - 1] == a + b[..|b| - 1];
      SumTokensAppend(a, b[..|b| - 1]);
    }
  }

  lemma {:induction false} KeptFits(h: seq<Message>, room: int)
    ensures KeptCount(h, room) > 0 ==> SumTokens(h[|h| - KeptCount(h, room)..]) <= room
  {
    if h != [] {
      var init, last := h[..|h| - 1], h[|h| - 1];
      var t := CountTokens(last.content);
      if t <= room {
        var n := KeptCount(init, room - t);
        KeptFits(init, room - t);
        var suffix := init[|init| - n..];
        if n == 0 {
          assert suffix == [];
        }
        assert h[|h| - (n + 1)..] == suffix + [last];
        SumTokensSnoc(suffix, last);
      }
    }
  }

  lemma SumTokensSnoc(s: seq<Message>, m: Message)
    ensures SumTokens(s + [m]) == SumTokens(s) + CountTokens(m.content)
  {
    assert (s + [m])[..|s|] == s;
  }

  lemma {:induction false} KeptCliff(h: seq<Message>, room: int)
    requires KeptCount(h, room) < |h|
    ensures SumTokens(h[|h| - KeptCount(h, room)..]) + CountTokens(h[|h| - KeptCount(h, room) - 1].content) > room
  {
    var init := h[..|h| - 1];
    var t := CountTokens(h[|h| - 1].content);
    if t <= room {
      var n := KeptCount(init, room - t);
      KeptCliff(init, room - t);
      var s := h[|h| - (n + 1)..];
      assert s[..|s| - 1] == init[|init| - n..];
      assert s[|s| - 1] == h[|h| - 1];
      assert h[|h| - (n + 1) - 1] == init[|init| - n - 1];
    } else {
      assert h[|h| - 0..] == [];
    }
  }

  lemma {:induction false} WholeFits(h: seq<Message>, room: int)
    requires SumTokens(h) <= room
    ensures KeptCount(h, room) == |h|
  {
    if h != [] {
      WholeFits(h[..|h| - 1], room - CountTokens(h[|h| - 1].content));
    }
  }

  /** Budget: whatever is kept fits, together with the prompt and the context, within the limit. */
  lemma WindowWithinBudget(h: seq<Message>, ragContext: Option<string>, limit: int)
    ensures Window(h, ragContext, limit) != [] ==>
              BaseTokens(ragContext) + SumTokens(Window(h, ragContext, limit)) <= limit
  {
    KeptFits(h, limit - BaseTokens(ragContext));
  }

  /** Cliff: the newest dropped message would have overflowed the limit. */
  lemma WindowCliff(h: seq<Message>, ragContext: Option<string>, limit: int)
    ensures var r := Window(h, ragContext, limit);
            |r| < |h| ==>
              BaseTokens(ragContext) + SumTokens(r) + CountTokens(h[|h| - |r| - 1].content) > limit
  {
    var room := limit - BaseTokens(ragContext);
    if KeptCount(h, room) < |h| {
      KeptCliff(h, room);
    }
  }

  lemma SumTokensCons(m: Message, rest: seq<Message>)
    ensures SumTokens([m] + rest) == CountTokens(m.content) + SumTokens(rest)
  {
    SumTokensAppend([m], rest);
    assert [m][..0] == [];
  }

  /** A longer suffix costs at least as much as a shorter one. */
  lemma SuffixSumMonotone(h: seq<Message>, i: nat, j: nat)
    requires i <= j <= |h|
    ensures SumTokens(h[i..]) >= SumTokens(h[j..])
  {
    assert h[i..] == h[i..j] + h[j..];
    SumTokensAppend(h[i..j], h[j..]);
  }

  /** The window is the longest suffix that fits: every longer suffix, however small
      its older messages, overflows the limit. */
  lemma WindowIsLongestFittingSuffix(h: seq<Message>, ragContext: Option<string>, limit: int, j: nat)
    requires |Window(h, ragContext, limit)| < j <= |h|
    ensures BaseTokens(ragContext) + SumTokens(h[|h| - j..]) > limit
  {
    KeptIsLongest(h, limit - BaseTokens(ragContext), j);
  }

  lemma KeptIsLongest(h: seq<Message>, room: int, j: nat)
    requires KeptCount(h, room) < j <= |h|
    ensures SumTokens(h[|h| - j..]) > room
  {
    var k := KeptCount(h, room);
    var i := |h| - k - 1;
    KeptCliff(h, room);
    assert SumTokens(h[i..]) > room by {
      assert h[i..] == [h[i]] + h[i + 1..];
      SumTokensCons(h[i], h[i + 1..]);
    }
    SuffixSumMonotone(h, |h| - j, i);
  }

  /** Windowing an already windowed history again changes nothing. */
  lemma WindowIdempotent(h: seq<Message>, ragContext: Option<string>, limit: int)
    ensures Window(Window(h, ragContext, limit), ragContext, limit) == Window(h, ragContext, limit)
  {
    var r := Window(h, ragContext, limit);
    var room := limit - BaseTokens(ragContext);
    if r != [] {
      KeptFits(h, room);
      WholeFits(r, room);
    }
  }

  /** A history whose messages all cost `tokens` keeps as many of the newest as fit
      in `room` side by side: k of them with k * tokens <= room, and one more would not fit. */
  lemma {:induction false} UniformKept(h: seq<Message>, tokens: nat, room: int)
    requires tokens > 0 && room >= 0
    requires forall i :: 0 <= i < |h| ==> CountTokens(h[i].content) == tokens
    ensures KeptCount(h, room) * tokens <= room
    ensures KeptCount(h, room) < |h| ==> room < (KeptCount(h, room) + 1) * tokens
  {
    if h != [] && tokens <= room {
      var n := KeptCount(h[..|h| - 1], room - tokens);
      UniformKept(h[..|h| - 1], tokens, room - tokens);
      MulSucc(n, tokens);
      MulSucc(n + 1, tokens);
    }
  }

  lemma MulSucc(n: nat, t: nat)
    ensures (n + 1) * t == n * t + t
  {
  }

  function Repeat(c: char, n: nat): (s: string)
    ensures |s| == n
  {
    if n == 0 then [] else [c] + Repeat(c, n - 1)
  }

  /** `n` user messages numbered 1..n, each of `tokens` tokens. */
  function UniformHistory(n: nat, tokens: nat): (h: seq<Message>)
    ensures |h| == n
  {
    seq(n, i => Message("c", i + 1, User, Repeat('A', 4 * tokens), None))
  }

  /** Five messages of 100 tokens all fit the default limit, in order 1..5. */
  lemma ScenarioAllKept()
    ensures var r := Window(UniformHistory(5, 100), None, ContextLimit);
            |r| == 5 && r[0].sequenceNumber == 1 && r[4].sequenceNumber == 5
  {
    assert |SystemPrompt| == 192;
    UniformKept(UniformHistory(5, 100), 100, ContextLimit - BaseTokens(None));
  }

  /** Ten messages of 1000 tokens under a limit of int(3850 * 0.8) = 3080 keep
      exactly the messages numbered 8, 9 and 10, in that order. */
  lemma ScenarioTruncation()
    ensures var r := Window(UniformHistory(10, 1000), None, 3850 * 8 / 10);
            |r| == 3 && r[0].sequenceNumber == 8 && r[1].sequenceNumber == 9 && r[2].sequenceNumber == 10
  {
    assert |SystemPrompt| == 192;
    UniformKept(UniformHistory(10, 1000), 1000, 3080 - BaseTokens(None));
  }

  // --- Payload formatting ---

  datatype ChatEntry = ChatEntry(role: string, content: string)

  const RagHeader := "RAG CONTEXT:\n---\n"
  const RagFooter := "\n---\n\n"

  /** The system entry's content: the prompt, prefixed with the retrieved context when there is one. */
  function SystemContent(ragContext: Option<string>): string {
    if Given(ragContext) then RagHeader + ragContext.value + RagFooter + SystemPrompt else SystemPrompt
  }

  /** `payload` is the system entry followed by one entry per message, in order,
      each tagged with its role's value in lower case. */
  predicate IsPayloadFor(payload: seq<ChatEntry>, history: seq<Message>, ragContext: Option<string>) {
    && |payload| == |history| + 1
    && payload[0] == ChatEntry("system", SystemContent(ragContext))
    && forall i :: 0 <= i < |history| ==>
         payload[i + 1] == ChatEntry(Lower(RoleValue(history[i].role)), history[i].content)
  }

  method FormatMessagesForLlm(history: seq<Message>, ragContext: Option<string>)
    returns (formatted: seq<ChatEntry>)
    ensures IsPayloadFor(formatted, history, ragContext)
  {
    var fullSystemPrompt := SystemPrompt;
    if Given(ragContext) {
      fullSystemPrompt := RagHeader + ragContext.value + RagFooter + SystemPrompt;
    }
    formatted := [ChatEntry("system", fullSystemPrompt)];
    var i := 0;
    while i < |history|
      invariant 0 <= i <= |history|
      invariant |formatted| == i + 1
      invariant formatted[0] == ChatEntry("system", SystemContent(ragContext))
      invariant forall k :: 0 <= k < i ==>
                  formatted[k + 1] == ChatEntry(Lower(RoleValue(history[k].role)), history[k].content)
    {
      var message := history[i];
      formatted := formatted + [ChatEntry(Lower(RoleValue(message.role)), message.content)];
      i := i + 1;
    }
  }

  /** The roles on the wire are the lower-case enumeration values. */
  lemma RoleNames()
    ensures Lower(RoleValue(User)) == "user"
    ensures Lower(RoleValue(Assistant)) == "assistant"
    ensures Lower(RoleValue(System)) == "system"
  {
    LowerUser();
    LowerAssistant();
    LowerSystem();
  }

  lemma LowerUser()
    ensures Lower("USER") == "user"
  {
  }

  lemma LowerAssistant()
    ensures Lower("ASSISTANT") == "assistant"
  {
  }

  lemma LowerSystem()
    ensures Lower("SYSTEM") == "system"
  {
  }

  /** The system entry ends with the system prompt and, when context is given,
      carries it verbatim between the header and the footer. */
  lemma SystemContentCarriesContext(ragContext: Option<string>)
    ensures var s := SystemContent(ragContext);
            && |s| >= |SystemPrompt| && s[|s| - |SystemPrompt|..] == SystemPrompt
            && (!Given(ragContext) ==> s == SystemPrompt)
            && (Given(ragContext) ==>
                  s[..|RagHeader|] == RagHeader
                  && s[|RagHeader|..|RagHeader| + |ragContext.value|] == ragContext.value
                  && s[|RagHeader| + |ragContext.value|..|s| - |SystemPrompt|] == RagFooter)
  {
    if Given(ragContext) {
      var s := SystemContent(ragContext);
      var c := ragContext.value;
      assert s == RagHeader + c + RagFooter + SystemPrompt;
    }
  }

  // --- The provider call and its retry policy ---

  /** What one call to the provider does: it returns completion choices (with or
      without a usage report), raises the provider's own API error, or raises
      any other exception. */
  datatype Outcome = Completion(choices: seq<string>, usage: Option<nat>) | ApiError | OtherError

  datatype LlmReply = LlmReply(content: string, model: string, tokenUsage: nat)

  function Pow2(n: nat): (r: nat)
    ensures r >= 1
  {
    if n == 0 then 1 else 2 * Pow2(n - 1)
  }

  /** The sleeps after the first `n` failed attempts: 1s, 2s, 4s, ... */
  function Backoff(n: nat): (w: seq<nat>)
    ensures |w| == n
  {
    seq(n, i requires 0 <= i => Pow2(i))
  }

  lemma BackoffStep(n: nat)
    ensures Backoff(n) + [Pow2(n)] == Backoff(n + 1)
  {
  }

  /** How an attempt that does not raise an API error settles the call: the first
      choice's text, the model name and the reported usage (0 without a report);
      an empty choice list or any other exception is a 503 at once; an API error
      on the last attempt is a 503 as well. */
  function Settle(o: Outcome): Result<LlmReply, HttpError> {
    match o
    case Completion(choices, usage) =>
      if choices != [] then Success(LlmReply(choices[0], LlmModel, usage.GetOr(0)))
      else Failure(ServiceUnavailable)
    case _ => Failure(ServiceUnavailable)
  }

  /** The number of attempts made: every attempt but the last raised an API error,
      and the last one was either not an API error or the third. */
  function AttemptsNeeded(outcomes: seq<Outcome>): (n: nat)
    requires |outcomes| >= MaxRetries
    ensures 1 <= n <= MaxRetries
    ensures forall k :: 0 <= k < n - 1 ==> outcomes[k].ApiError?
    ensures n < MaxRetries ==> !outcomes[n - 1].ApiError?
  {
    if !outcomes[0].ApiError? then 1 else if !outcomes[1].ApiError? then 2 else 3
  }

  /** The outcome of `call_llm_api`: 500 without a client, otherwise what the last attempt settled. */
  function LlmResult(clientReady: bool, outcomes: seq<Outcome>): Result<LlmReply, HttpError>
    requires |outcomes| >= MaxRetries
  {
    if !clientReady then Failure(InternalError) else Settle(outcomes[AttemptsNeeded(outcomes) - 1])
  }

  /** A reply comes only from a client, from one attempt with a non-empty choice list
      after API errors on all earlier attempts, within three attempts. */
  lemma SuccessNeedsCompletion(clientReady: bool, outcomes: seq<Outcome>)
    requires |outcomes| >= MaxRetries
    ensures LlmResult(clientReady, outcomes).Success? <==>
              clientReady && exists k :: 0 <= k < MaxRetries && outcomes[k].Completion? && outcomes[k].choices != []
                                         && forall j :: 0 <= j < k ==> outcomes[j].ApiError?
    ensures LlmResult(clientReady, outcomes) == Failure(InternalError) <==> !clientReady
  {
    if clientReady {
      var n := AttemptsNeeded(outcomes);
      if LlmResult(clientReady, outcomes).Success? {
        assert outcomes[n - 1].Completion? && outcomes[n - 1].choices != [];
      }
      if exists k :: 0 <= k < MaxRetries && outcomes[k].Completion? && outcomes[k].choices != []
                     && forall j :: 0 <= j < k ==> outcomes[j].ApiError? {
        var k :| 0 <= k < MaxRetries && outcomes[k].Completion? && outcomes[k].choices != []
                 && forall j :: 0 <= j < k ==> outcomes[j].ApiError?;
        assert k == n - 1;
      }
    }
  }

  /** Window the history, format it, and call the provider up to three times,
      sleeping 2**attempt seconds after each API error that is not the last. */
  method CallLlmApi(history: seq<Message>, ragContext: Option<string>, limit: int,
                    clientReady: bool, outcomes: seq<Outcome>)
    returns (result: Result<LlmReply, HttpError>, payload: seq<ChatEntry>, attempts: nat, waits: seq<nat>)
    requires |outcomes| >= MaxRetries
    ensures result == LlmResult(clientReady, outcomes)
    ensures attempts == (if clientReady then AttemptsNeeded(outcomes) else 0)
    ensures waits == Backoff(if clientReady then attempts - 1 else 0)
    ensures clientReady ==> IsPayloadFor(payload, Window(history, ragContext, limit), ragContext)
    ensures !clientReady ==> payload == []
  {
    attempts, waits, payload := 0, [], [];
    if !clientReady {
      return Failure(InternalError), payload, attempts, waits;
    }
    var processed := ManageContextWindow(history, ragContext, limit);
    payload := FormatMessagesForLlm(processed, ragContext);
    result, attempts, waits := RetryCall(outcomes);
  }

  /** The attempts against the provider: up to three, sleeping 2**attempt seconds
      after each API error that is not the last. */
  method RetryCall(outcomes: seq<Outcome>) returns (result: Result<LlmReply, HttpError>, attempts: nat, waits: seq<nat>)
    requires |outcomes| >= MaxRetries
    ensures result == LlmResult(true, outcomes)
    ensures attempts == AttemptsNeeded(outcomes)
    ensures waits == Backoff(attempts - 1)
  {
    attempts, waits := 0, [];
    var attempt := 0;
    while attempt < MaxRetries
      invariant 0 <= attempt <= MaxRetries
      invariant attempts == attempt
      invariant forall k :: 0 <= k < attempt ==> outcomes[k].ApiError?
      invariant waits == Backoff(if attempt < MaxRetries then attempt else MaxRetries - 1)
    {
      var response := outcomes[attempt];
      attempts := attempts + 1;
      assert !response.ApiError? || attempt == MaxRetries - 1 ==> AttemptsNeeded(outcomes) == attempts;
      match response {
        case Completion(choices, usage) =>
          if choices != [] {
            return Success(LlmReply(choices[0], LlmModel, usage.GetOr(0))), attempts, waits;
          }
          return Failure(ServiceUnavailable), attempts, waits;
        case OtherError =>
          return Failure(ServiceUnavailable), attempts, waits;
        case ApiError =>
          if attempt < MaxRetries - 1 {
            BackoffStep(attempt);
            waits := waits + [Pow2(attempt)];
          } else {
            return Failure(ServiceUnavailable), attempts, waits;
          }
      }
      attempt := attempt + 1;
    }
    result := Failure(ServiceUnavailable);
  }

  /** Two API errors then a completion: the third attempt's reply, after waits of 1s and 2s;
      three API errors: a 503 after the same waits; any other error: a 503 at the first attempt. */
  lemma RetryScenarios()
    ensures var o := [ApiError, ApiError, Completion(["reply"], Some(50))];
            LlmResult(true, o) == Success(LlmReply("reply", LlmModel, 50)) && AttemptsNeeded(o) == 3
    ensures var o := [ApiError, ApiError, ApiError];
            LlmResult(true, o) == Failure(ServiceUnavailable) && AttemptsNeeded(o) == 3
    ensures var o := [OtherError, Completion(["reply"], None), ApiError];
            LlmResult(true, o) == Failure(ServiceUnavailable) && AttemptsNeeded(o) == 1
    ensures var o := [Completion([], Some(7)), Completion(["reply"], None), ApiError];
            LlmResult(true, o) == Failure(ServiceUnavailable) && AttemptsNeeded(o) == 1
    ensures Backoff(2) == [1, 2]
  {
    assert Pow2(1) == 2;
  }
}
