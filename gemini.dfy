/** The decision logic of GeminiApiClient: how `generateContent` reacts to
    the HTTP status (429 quota exhaustion, transient 429 with back-off, other
    errors), how transport exceptions are mapped, the order of the checks in
    `parseResponse`, the prompt sizing arithmetic, and the `Result`-wrapping
    entry points.

    The HTTP exchange, the JSON decoding and the coroutine `delay` are
    parameters: `exchange(n)` is what request number `n` (0 for the first,
    `retryCount` for a retry) produced, `waitCanceled(n)` says whether the
    job was cancelled during the back-off after request `n`, and `decode`
    stands for `json.decodeFromString`. */
module Gemini {
  import opened Domain
  import opened Text

  // ------------------------------------------------------------------
  // generateContent
  // ------------------------------------------------------------------

  const MAX_RATE_LIMIT_RETRIES: nat := 3

  /** What the HTTP client produced for one request. */
  datatype HttpOutcome =
    | Answered(status: int, reason: string, body: string, payload: GeminiResponse)
      // a response: its status code and reason phrase, its body text, and
      // what `response.body()` decodes it to
    | RequestTimeout                   // HttpRequestTimeoutException (60 s request limit)
    | ConnectTimeout                   // ConnectTimeoutException (15 s)
    | SocketTimeout                    // SocketTimeoutException (60 s)
    | Thrown(failure: Failure)         // any other exception from the request or the body decoding

  /** `HttpStatusCode.isSuccess()`: the 2xx range. */
  predicate IsSuccess(status: int) {
    200 <= status <= 299
  }

  /** The 429 body test: `contains("quota", ignoreCase = true) ||
      contains("exceeded your current quota", ignoreCase = true)`. */
  predicate MentionsQuota(body: string) {
    ContainsIgnoreCase(body, "quota") || ContainsIgnoreCase(body, "exceeded your current quota")
  }

  const QUOTA_EXCEEDED_MESSAGE :=
    "Cuota de Gemini API excedida.\n\nTu cuenta ha alcanzado el límite diario de peticiones.\n" +
    "Por favor espera hasta que se restablezca tu cuota (generalmente 24 horas)\n" +
    "o verifica tu plan en: https://console.cloud.google.com/apis/api/generativelanguage.googleapis.com/quotas"
  const RATE_LIMIT_EXHAUSTED_MESSAGE :=
    "Límite de peticiones excedido. Por favor espera unos minutos e intenta nuevamente."
  const REQUEST_TIMEOUT_MESSAGE :=
    "La petición a Gemini tardó demasiado tiempo (>60s). Verifica tu conexión a internet o intenta más tarde."
  const CONNECT_TIMEOUT_MESSAGE :=
    "No se pudo conectar a la API de Gemini. Verifica tu conexión a internet."
  const SOCKET_TIMEOUT_MESSAGE :=
    "Timeout de conexión con Gemini API. La API podría estar experimentando problemas."

  /** The exception a cancelled job raises in `delay`. */
  const DELAY_CANCELLED := Failure(Cancellation, Some("StandaloneCoroutine was cancelled"))

  /** `10 * (1 shl retryCount)` seconds. */
  function BackoffSeconds(retryCount: nat): (r: nat)
    ensures r >= 10
  {
    if retryCount == 0 then 10 else 2 * BackoffSeconds(retryCount - 1)
  }

  /** How a call of `generateContent` ends: the back-off after request
      `request` was cancelled, or request `request` produced `outcome` and
      that was not retried. */
  datatype CallEnd = CanceledInWait(request: nat) | Settled(request: nat, outcome: HttpOutcome)

  /** What one call of `generateContent(prompt, retryCount)` did: the
      back-offs it waited, in seconds, in order, and how it ended. */
  datatype ContentCall = ContentCall(waits: seq<nat>, end: CallEnd)

  /** What a single response leads to when it is not retried. */
  function AnswerResult(status: int, reason: string, body: string, payload: GeminiResponse): Result<GeminiResponse> {
    if IsSuccess(status) then Ok(payload)
    else if status == 429 then
      if MentionsQuota(body) then Err(Failure(RateLimit, Some(QUOTA_EXCEEDED_MESSAGE)))
      else Err(Failure(RateLimit, Some(RATE_LIMIT_EXHAUSTED_MESSAGE)))
    else Err(Failure(IllegalState, Some("HTTP " + IntToString(status) + ": " + reason + "\n" + body)))
  }

  /** How the `catch` clauses map what escaped the request: the three
      timeouts become `IllegalStateException`s with their own messages,
      everything else is rethrown as it is. */
  function TransportFailure(o: HttpOutcome): Failure
    requires !o.Answered?
  {
    match o
    case RequestTimeout => Failure(IllegalState, Some(REQUEST_TIMEOUT_MESSAGE))
    case ConnectTimeout => Failure(IllegalState, Some(CONNECT_TIMEOUT_MESSAGE))
    case SocketTimeout => Failure(IllegalState, Some(SOCKET_TIMEOUT_MESSAGE))
    case Thrown(f) => f
  }

  /** A 429 that is not about the quota and still has retries left. */
  predicate RetriesTransient(o: HttpOutcome, retryCount: nat) {
    o.Answered? && !IsSuccess(o.status) && o.status == 429 && !MentionsQuota(o.body) && retryCount < MAX_RATE_LIMIT_RETRIES
  }

  /** `generateContent(prompt, retryCount)`: recursion on `retryCount`. */
  function GenerateContent(exchange: nat -> HttpOutcome, waitCanceled: nat -> bool, retryCount: nat): ContentCall
    decreases MAX_RATE_LIMIT_RETRIES - retryCount
  {
    var o := exchange(retryCount);
    if RetriesTransient(o, retryCount) then
      var wait := BackoffSeconds(retryCount);
      if waitCanceled(retryCount) then ContentCall([wait], CanceledInWait(retryCount))
      else
        var rest := GenerateContent(exchange, waitCanceled, retryCount + 1);
        ContentCall([wait] + rest.waits, rest.end)
    else ContentCall([], Settled(retryCount, o))
  }

  /** What the call returns or throws. */
  function CallResult(c: ContentCall): Result<GeminiResponse> {
    match c.end
    case CanceledInWait(_) => Err(DELAY_CANCELLED)
    case Settled(_, o) =>
      if o.Answered? then AnswerResult(o.status, o.reason, o.body, o.payload) else Err(TransportFailure(o))
  }

  /** The number of requests a call makes: one more than its back-offs,
      unless the last back-off was cancelled. */
  function RequestCount(exchange: nat -> HttpOutcome, waitCanceled: nat -> bool, retryCount: nat): nat
    decreases MAX_RATE_LIMIT_RETRIES - retryCount
  {
    if RetriesTransient(exchange(retryCount), retryCount) && !waitCanceled(retryCount)
    then 1 + RequestCount(exchange, waitCanceled, retryCount + 1)
    else 1
  }

  /** From request `retryCount` on: at most `4 - retryCount` requests, and
      the call ends at the last of them, either in the back-off after it
      (one back-off per request) or with its outcome, which was not retried
      (one back-off fewer). */
  lemma {:induction false} GenerateContentEnds(exchange: nat -> HttpOutcome, waitCanceled: nat -> bool, retryCount: nat)
    requires retryCount <= MAX_RATE_LIMIT_RETRIES
    ensures var c := GenerateContent(exchange, waitCanceled, retryCount);
      var n := RequestCount(exchange, waitCanceled, retryCount);
      && 1 <= n <= MAX_RATE_LIMIT_RETRIES + 1 - retryCount
      && c.end.request == retryCount + n - 1
      && (c.end.CanceledInWait? ==> |c.waits| == n && waitCanceled(c.end.request))
      && (c.end.Settled? ==>
            && |c.waits| == n - 1
            && c.end.outcome == exchange(c.end.request)
            && !RetriesTransient(c.end.outcome, c.end.request))
    decreases MAX_RATE_LIMIT_RETRIES - retryCount
  {
    if RetriesTransient(exchange(retryCount), retryCount) && !waitCanceled(retryCount) {
      GenerateContentEnds(exchange, waitCanceled, retryCount + 1);
    }
  }

  /** The back-offs are 10 * 2^n seconds, one for each request `n` that was
      answered with a transient 429, in order. */
  lemma {:induction false} GenerateContentBackoffs(exchange: nat -> HttpOutcome, waitCanceled: nat -> bool, retryCount: nat)
    requires retryCount <= MAX_RATE_LIMIT_RETRIES
    ensures var c := GenerateContent(exchange, waitCanceled, retryCount);
      forall j :: 0 <= j < |c.waits| ==>
        c.waits[j] == BackoffSeconds(retryCount + j) && RetriesTransient(exchange(retryCount + j), retryCount + j)
    decreases MAX_RATE_LIMIT_RETRIES - retryCount
  {
    var o := exchange(retryCount);
    if RetriesTransient(o, retryCount) && !waitCanceled(retryCount) {
      GenerateContentBackoffs(exchange, waitCanceled, retryCount + 1);
      var c := GenerateContent(exchange, waitCanceled, retryCount);
      var rest := GenerateContent(exchange, waitCanceled, retryCount + 1);
      assert c.waits == [BackoffSeconds(retryCount)] + rest.waits;
      forall j | 0 <= j < |c.waits|
        ensures c.waits[j] == BackoffSeconds(retryCount + j) && RetriesTransient(exchange(retryCount + j), retryCount + j)
      {
        if j > 0 { assert c.waits[j] == rest.waits[j - 1]; }
      }
    }
  }

  /** Every back-off but the last completed: the job was not cancelled
      during any back-off that was followed by another request. */
  lemma {:induction false} GenerateContentNotCanceled(exchange: nat -> HttpOutcome, waitCanceled: nat -> bool, retryCount: nat)
    requires retryCount <= MAX_RATE_LIMIT_RETRIES
    ensures var n := RequestCount(exchange, waitCanceled, retryCount);
      forall k :: retryCount <= k < retryCount + n - 1 ==> !waitCanceled(k)
    decreases MAX_RATE_LIMIT_RETRIES - retryCount
  {
    if RetriesTransient(exchange(retryCount), retryCount) && !waitCanceled(retryCount) {
      GenerateContentNotCanceled(exchange, waitCanceled, retryCount + 1);
    }
  }

  /** A call fails with the rate-limit exception only when its last request
      was answered with a 429 or threw that exception itself. */
  lemma {:induction false} RateLimitComesFrom429(exchange: nat -> HttpOutcome, waitCanceled: nat -> bool, retryCount: nat)
    requires retryCount <= MAX_RATE_LIMIT_RETRIES
    ensures var r := CallResult(GenerateContent(exchange, waitCanceled, retryCount));
      var last := exchange(retryCount + RequestCount(exchange, waitCanceled, retryCount) - 1);
      r.Err? && r.error.kind == RateLimit ==>
        (last.Answered? && last.status == 429) || (last.Thrown? && last.failure.kind == RateLimit)
  {
    GenerateContentEnds(exchange, waitCanceled, retryCount);
    var c := GenerateContent(exchange, waitCanceled, retryCount);
    if c.end.Settled? {
      SettledRateLimit(c.end.outcome, c.end.request);
    }
  }

  /** Only a 429 or a thrown rate-limit exception settles as one. */
  lemma {:induction false} SettledRateLimit(o: HttpOutcome, request: nat)
    ensures var r := CallResult(ContentCall([], Settled(request, o)));
      r.Err? && r.error.kind == RateLimit ==>
        (o.Answered? && o.status == 429) || (o.Thrown? && o.failure.kind == RateLimit)
  {
    if o.Answered? && o.status != 429 {
      assert AnswerResult(o.status, o.reason, o.body, o.payload).Err? ==>
        AnswerResult(o.status, o.reason, o.body, o.payload).error.kind == IllegalState;
    }
  }

  /** The schedule from the first request: at most four requests, back-offs
      of 10, 20 and 40 seconds. */
  lemma {:induction false} RateLimitSchedule(exchange: nat -> HttpOutcome, waitCanceled: nat -> bool)
    ensures var c := GenerateContent(exchange, waitCanceled, 0);
      && RequestCount(exchange, waitCanceled, 0) <= 4
      && |c.waits| <= 3
      && (forall j :: 0 <= j < |c.waits| ==> c.waits[j] == [10, 20, 40][j])
  {
    GenerateContentEnds(exchange, waitCanceled, 0);
    GenerateContentBackoffs(exchange, waitCanceled, 0);
    var c := GenerateContent(exchange, waitCanceled, 0);
    forall j | 0 <= j < |c.waits| ensures c.waits[j] == [10, 20, 40][j] {
      assert BackoffSeconds(1) == 20 && BackoffSeconds(2) == 40;
    }
  }

  /** Four transient 429s and no cancellation: three back-offs, then the
      rate-limit exception. */
  lemma {:induction false} TransientLimitExhausted(exchange: nat -> HttpOutcome, waitCanceled: nat -> bool)
    requires forall n :: 0 <= n <= 3 ==>
      exchange(n).Answered? && exchange(n).status == 429 && !MentionsQuota(exchange(n).body)
    requires forall n :: 0 <= n < 3 ==> !waitCanceled(n)
    ensures GenerateContent(exchange, waitCanceled, 0) == ContentCall([10, 20, 40], Settled(3, exchange(3)))
    ensures CallResult(GenerateContent(exchange, waitCanceled, 0)) == Err(Failure(RateLimit, Some(RATE_LIMIT_EXHAUSTED_MESSAGE)))
  {
    assert BackoffSeconds(1) == 20 && BackoffSeconds(2) == 40;
    assert GenerateContent(exchange, waitCanceled, 3) == ContentCall([], Settled(3, exchange(3)));
    assert GenerateContent(exchange, waitCanceled, 2) == ContentCall([40], Settled(3, exchange(3)));
    assert GenerateContent(exchange, waitCanceled, 1) == ContentCall([20, 40], Settled(3, exchange(3)));
  }

  /** A 429 that mentions the quota is fatal at once: no back-off, no
      further request. */
  lemma {:induction false} QuotaIsFatal(exchange: nat -> HttpOutcome, waitCanceled: nat -> bool, retryCount: nat)
    requires exchange(retryCount).Answered? && exchange(retryCount).status == 429
    requires MentionsQuota(exchange(retryCount).body)
    ensures GenerateContent(exchange, waitCanceled, retryCount) == ContentCall([], Settled(retryCount, exchange(retryCount)))
    ensures CallResult(GenerateContent(exchange, waitCanceled, retryCount)) == Err(Failure(RateLimit, Some(QUOTA_EXCEEDED_MESSAGE)))
    ensures RequestCount(exchange, waitCanceled, retryCount) == 1
  {
  }

  /** Every other unsuccessful status is an `IllegalStateException` naming
      the status, and a timeout of the HTTP client is one too, so neither is
      retried by the chunk pipeline. */
  lemma {:induction false} OtherFailuresAreIllegalState(exchange: nat -> HttpOutcome, waitCanceled: nat -> bool, retryCount: nat)
    requires var o := exchange(retryCount);
      (o.Answered? && !IsSuccess(o.status) && o.status != 429) || o.RequestTimeout? || o.ConnectTimeout? || o.SocketTimeout?
    ensures var c := GenerateContent(exchange, waitCanceled, retryCount);
      c.waits == [] && CallResult(c).Err? && CallResult(c).error.kind == IllegalState
    ensures var o := exchange(retryCount);
      o.Answered? ==>
        CallResult(GenerateContent(exchange, waitCanceled, retryCount)).error.message ==
        Some("HTTP " + IntToString(o.status) + ": " + o.reason + "\n" + o.body)
  {
  }

  /** The second half of the quota test adds nothing: a body that contains
      "exceeded your current quota" contains "quota". */
  lemma {:induction false} QuotaTestSubsumed(body: string)
    ensures MentionsQuota(body) <==> ContainsIgnoreCase(body, "quota")
  {
    if ContainsIgnoreCase(body, "exceeded your current quota") {
      assert "exceeded your current " + "quota" == "exceeded your current quota";
      LongerNeedleImpliesSuffix(body, "exceeded your current ", "quota");
    }
  }

  /** If `s` contains `a + b` (ignoring case), it contains `b`. */
  lemma {:induction false} LongerNeedleImpliesSuffix(s: string, a: string, b: string)
    requires ContainsIgnoreCase(s, a + b)
    ensures ContainsIgnoreCase(s, b)
    decreases |s|
  {
    if StartsWith(Lower(s), Lower(a + b)) {
      WindowAt(s, |a|, b);
    } else {
      LongerNeedleImpliesSuffix(s[1..], a, b);
    }
  }

  /** A match of `a + b` at the front of `s` is a match of `b` at `|a|`. */
  lemma {:induction false} WindowAt(s: string, k: nat, b: string)
    requires k <= |s|
    requires exists a :: |a| == k && StartsWith(Lower(s), Lower(a + b))
    ensures ContainsIgnoreCase(s, b)
    decreases k
  {
    var a :| |a| == k && StartsWith(Lower(s), Lower(a + b));
    if k == 0 {
      assert a + b == b;
    } else {
      var a' := a[1..];
      assert a' + b == (a + b)[1..];
      assert StartsWith(Lower(s[1..]), Lower(a' + b)) by {
        forall i | 0 <= i < |a' + b| ensures Lower(s[1..])[i] == Lower(a' + b)[i] {
          assert Lower(s)[i + 1] == Lower(a + b)[i + 1];
        }
      }
      WindowAt(s[1..], k - 1, b);
    }
  }

  // ------------------------------------------------------------------
  // parseResponse
  // ------------------------------------------------------------------

  const NO_CANDIDATES_MESSAGE := "No candidates in response. This may be due to content filtering or API limits."
  const NO_TEXT_MESSAGE := "No text in response"

  /** `parseResponse<T>`: an error field first, then the candidates, then the
      first part's text, and only then the decoding, whose failure is
      wrapped. `decode` yields the value or the decoder's message. */
  function ParseResponse<T>(response: GeminiResponse, decode: string -> Result<T>): Result<T> {
    if response.error.Some? then
      Err(Failure(IllegalState, Some("Gemini API error (" + IntToString(response.error.value.code) + "): " + response.error.value.message)))
    else if response.candidates.None? || response.candidates.value == [] then
      Err(Failure(IllegalState, Some(NO_CANDIDATES_MESSAGE)))
    else if response.candidates.value[0].content.parts == [] then
      Err(Failure(IllegalState, Some(NO_TEXT_MESSAGE)))
    else
      match decode(response.candidates.value[0].content.parts[0].text)
      case Ok(v) => Ok(v)
      case Err(e) => Err(Failure(IllegalState, Some("Failed to parse Gemini response: " + TemplateText(e.message))))
  }

  /** The text `parseResponse` decodes, when it gets that far. */
  predicate HasText(response: GeminiResponse) {
    response.error.None? && response.candidates.Some? && response.candidates.value != [] &&
    response.candidates.value[0].content.parts != []
  }

  /** `parseResponse` fails with `IllegalStateException` unless the response
      has no error, some candidate, and a first part whose text decodes; in
      that case it returns the decoded value. The decoder is consulted only
      once every earlier check has passed. */
  lemma {:induction false} ParseResponseOrder<T>(response: GeminiResponse, decode: string -> Result<T>)
    ensures var r := ParseResponse(response, decode);
      && (r.Err? ==> r.error.kind == IllegalState)
      && (!HasText(response) ==> r.Err? && (forall d: string -> Result<T> :: ParseResponse(response, d) == r))
      && (HasText(response) ==>
            (r.Ok? <==> decode(response.candidates.value[0].content.parts[0].text).Ok?) &&
            (r.Ok? ==> r.value == decode(response.candidates.value[0].content.parts[0].text).value))
      && (response.error.Some? ==> r.Err? && r.error.message.Some? && StartsWith(r.error.message.value, "Gemini API error ("))
  {
  }

  // ------------------------------------------------------------------
  // Prompt sizing
  // ------------------------------------------------------------------

  const MAX_PROMPT_CONTENT_CHARS: nat := 500000
  const TRUNCATION_MARKER := "\n\n[CONTENIDO TRUNCADO - Documento muy extenso]"

  /** `trimmedContent` in `buildLearningPathPrompt`. */
  function TrimmedContent(content: string): (r: string)
    ensures |content| <= MAX_PROMPT_CONTENT_CHARS ==> r == content
    ensures |content| > MAX_PROMPT_CONTENT_CHARS ==>
      r == content[..MAX_PROMPT_CONTENT_CHARS] + TRUNCATION_MARKER
  {
    if |content| > MAX_PROMPT_CONTENT_CHARS then Take(content, MAX_PROMPT_CONTENT_CHARS) + TRUNCATION_MARKER else content
  }

  /** `(trimmedContent.length / 10000).coerceIn(10, 50)`. */
  function PathTopicCount(content: string): int {
    CoerceIn(|TrimmedContent(content)| / 10000, 10, 50)
  }

  /** What fills the learning-path prompt: the content, cut to its first
      500 000 characters when longer, and a topic count between 10 and 50
      that grows by one per 10 000 characters. The prompt's wording is not
      modelled. */
  lemma {:induction false} PathPromptSizing(content: string)
    ensures |TrimmedContent(content)| <= MAX_PROMPT_CONTENT_CHARS + |TRUNCATION_MARKER|
    ensures StartsWith(TrimmedContent(content), Take(content, MAX_PROMPT_CONTENT_CHARS))
    ensures 10 <= PathTopicCount(content) <= 50
    ensures |content| <= MAX_PROMPT_CONTENT_CHARS ==>
      PathTopicCount(content) == if |content| < 100000 then 10 else |content| / 10000
    ensures |content| > MAX_PROMPT_CONTENT_CHARS ==> PathTopicCount(content) == 50
  {
    var t := TrimmedContent(content);
    if |content| > MAX_PROMPT_CONTENT_CHARS {
      assert t[..MAX_PROMPT_CONTENT_CHARS] == content[..MAX_PROMPT_CONTENT_CHARS];
    }
  }

  /** `pageCount = endPage - startPage + 1` and
      `(pageCount / 5).coerceIn(4, 12)` in `buildChunkPrompt`, with Kotlin's
      truncating division. */
  function ChunkTopicCount(startPage: int, endPage: int): int {
    CoerceIn(KotlinDiv(endPage - startPage + 1, 5), 4, 12)
  }

  /** A chunk asks for one topic per five pages, never fewer than 4 nor more
      than 12; a chunk whose page numbers span at most 24 pages asks for 4. */
  lemma {:induction false} ChunkPromptSizing(startPage: int, endPage: int)
    ensures 4 <= ChunkTopicCount(startPage, endPage) <= 12
    ensures 20 <= endPage - startPage + 1 <= 64 ==> ChunkTopicCount(startPage, endPage) == (endPage - startPage + 1) / 5
    ensures endPage - startPage + 1 <= 24 ==> ChunkTopicCount(startPage, endPage) == 4
    ensures endPage - startPage + 1 >= 60 ==> ChunkTopicCount(startPage, endPage) == 12
  {
  }

  // ------------------------------------------------------------------
  // Entry points
  // ------------------------------------------------------------------

  /** What the prompt carries; its wording is not modelled. */
  datatype Prompt =
    | PathPrompt(content: string, topicCount: int)
    | ChunkPrompt(content: string, chunkIndex: int, startPage: int, endPage: int, pageCount: int, topicCount: int)
    | QuizPrompt(content: string, questionCount: int)

  /** The service as the entry points see it: the HTTP exchange for a
      prompt and a request number, the cancellation of the back-offs, and
      the decoders. */
  datatype Service = Service(
    exchange: (Prompt, nat) -> HttpOutcome,
    waitCanceled: (Prompt, nat) -> bool,
    decodePath: string -> Result<LearningPathResponse>,
    decodeQuiz: string -> Result<QuizResponse>)

  function Call(service: Service, prompt: Prompt): ContentCall {
    GenerateContent((n: nat) => service.exchange(prompt, n), (n: nat) => service.waitCanceled(prompt, n), 0)
  }

  /** `try { parseResponse(generateContent(prompt)) } catch (e: Exception) {
      Result.failure(e) }`. */
  function CallAndParse<T>(call: ContentCall, decode: string -> Result<T>): (r: Result<T>)
    ensures CallResult(call).Err? ==> r == Err(CallResult(call).error)
    ensures CallResult(call).Ok? ==> r == ParseResponse(CallResult(call).value, decode)
  {
    match CallResult(call)
    case Err(e) => Err(e)
    case Ok(response) => ParseResponse(response, decode)
  }

  function LearningPathPrompt(content: string): Prompt {
    PathPrompt(TrimmedContent(content), PathTopicCount(content))
  }

  function ChunkPromptFor(chunkContent: string, chunkIndex: int, startPage: int, endPage: int): Prompt {
    ChunkPrompt(chunkContent, chunkIndex, startPage, endPage, endPage - startPage + 1, ChunkTopicCount(startPage, endPage))
  }

  /** `generateLearningPath(documentContent)`. */
  function GenerateLearningPath(service: Service, documentContent: string): Result<LearningPathResponse> {
    CallAndParse(Call(service, LearningPathPrompt(documentContent)), service.decodePath)
  }

  /** `generateLearningPathFromChunk(chunkContent, chunkIndex, startPage, endPage)`. */
  function GenerateLearningPathFromChunk(service: Service, chunkContent: string, chunkIndex: int, startPage: int, endPage: int)
    : Result<LearningPathResponse>
  {
    CallAndParse(Call(service, ChunkPromptFor(chunkContent, chunkIndex, startPage, endPage)), service.decodePath)
  }

  /** `generateQuiz(topicContent, questionCount)`. */
  function GenerateQuiz(service: Service, topicContent: string, questionCount: int): Result<QuizResponse> {
    CallAndParse(Call(service, QuizPrompt(topicContent, questionCount)), service.decodeQuiz)
  }

  /** The entry points never throw: what `generateContent` throws comes back
      as the failure unchanged (a rate limit stays a rate limit, so the chunk
      pipeline can retry it), and a response that fails a check comes back
      as an `IllegalStateException`. A success is a decoded first-part
      text. */
  lemma {:induction false} EntryPointOutcomes(service: Service, chunkContent: string, chunkIndex: int, startPage: int, endPage: int)
    ensures var call := Call(service, ChunkPromptFor(chunkContent, chunkIndex, startPage, endPage));
      var r := GenerateLearningPathFromChunk(service, chunkContent, chunkIndex, startPage, endPage);
      && (CallResult(call).Err? ==> r == Err(CallResult(call).error))
      && (CallResult(call).Ok? && r.Err? ==> r.error.kind == IllegalState)
      && (r.Ok? ==>
            && CallResult(call).Ok? && HasText(CallResult(call).value)
            && service.decodePath(CallResult(call).value.candidates.value[0].content.parts[0].text) == Ok(r.value))
  {
    var call := Call(service, ChunkPromptFor(chunkContent, chunkIndex, startPage, endPage));
    if CallResult(call).Ok? {
      ParseResponseOrder(CallResult(call).value, service.decodePath);
    }
  }
}
