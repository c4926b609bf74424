/** ProcessDocumentInChunksUseCase.invoke, processChunk and
    processChunkWithRetry: every chunk is sent to the remote service, with
    retries on rate limits and time-outs; topics are gathered, failures
    recorded, and the run ends in a learning path or an error.

    The remote service, the per-call time-out, the user's cancellation, the
    identifiers and the clock are parameters (`ChunkEnv`): `call(i, a)` is
    what attempt `a` on the chunk with index `i` produced, `canceled(cp)` says whether the
    job was found cancelled at the suspension point `cp`. */
module Pipeline {
  import opened Domain
  import opened Text
  import opened Chunking

  const MAX_CHUNK_RETRIES: nat := 3
  const BASE_RETRY_DELAY_MS: nat := 15000
  const MAX_RETRY_DELAY_MS: nat := 120000
  const DEFAULT_CHUNK_TIMEOUT_MS: nat := 90000

  /** The exception a cancelled job raises at a suspension point. */
  const JOB_CANCELLED := Failure(Cancellation, Some("StandaloneCoroutine was cancelled"))

  const TIMED_OUT_PREFIX := "Timed out waiting for "
  const RETRY_NOTICE_MIDDLE := " detectado. Reintentando chunk en "

  /** The outcome of `withTimeout(chunkTimeoutMs) { processChunk(...) }`:
      the service client's result, or the time-out firing first. */
  datatype Attempt = Finished(response: Result<LearningPathResponse>) | TimedOut

  /** The suspension points where a cancelled job stops the use case:
      `ensureActive()` before chunk `chunk`, and the back-off `delay` after
      attempt `attempt` of that chunk. */
  datatype Checkpoint = ChunkStart(chunk: int) | RetryWait(chunk: int, attempt: nat)

  datatype ChunkEnv = ChunkEnv(
    call: (int, nat) -> Attempt,
    canceled: Checkpoint -> bool,
    timeoutMs: int,
    topicId: (int, int) -> string,
    pathId: string,
    now: int)

  // ------------------------------------------------------------------
  // processChunk
  // ------------------------------------------------------------------

  /** `(start..end).toList()`. */
  function IntRange(start: int, end: int): (r: seq<int>)
    ensures |r| == if start <= end then end - start + 1 else 0
    ensures forall i :: 0 <= i < |r| ==> r[i] == start + i
    decreases end - start
  {
    if start > end then [] else [start] + IntRange(start + 1, end)
  }

  /** The topic built from the `index`-th topic of a chunk's answer. */
  function ToChunkTopic(chunk: ContentChunk, index: int, t: TopicResponse, id: string): Topic {
    Topic(id, t.title, t.description + "\n\n" + t.content, IntRange(chunk.startPage, chunk.endPage),
          chunk.chunkIndex * 100 + index)
  }

  /** `result.map { response.topics.mapIndexed { ... } }` in processChunk. */
  function ChunkTopics(chunk: ContentChunk, response: LearningPathResponse, topicId: (int, int) -> string): (r: seq<Topic>)
    ensures |r| == |response.topics|
  {
    seq(|response.topics|, i requires 0 <= i < |response.topics| =>
      ToChunkTopic(chunk, i, response.topics[i], topicId(chunk.chunkIndex, i)))
  }

  /** Each topic keeps its title, joins its description and content with a
      blank line, cites the chunk's pages from first to last (page
      `startPage + j` at position j), and is ordered by chunk first and by
      position in the answer second. */
  lemma {:induction false} ChunkTopicsFaithful(chunk: ContentChunk, response: LearningPathResponse, topicId: (int, int) -> string)
    requires chunk.startPage <= chunk.endPage
    ensures var r := ChunkTopics(chunk, response, topicId);
      forall i :: 0 <= i < |r| ==>
        && r[i].title == response.topics[i].title
        && r[i].content == response.topics[i].description + "\n\n" + response.topics[i].content
        && r[i].pageNumbers == IntRange(chunk.startPage, chunk.endPage)
        && |r[i].pageNumbers| == chunk.endPage - chunk.startPage + 1
        && r[i].pageNumbers[0] == chunk.startPage
        && r[i].pageNumbers[|r[i].pageNumbers| - 1] == chunk.endPage
        && r[i].order == chunk.chunkIndex * 100 + i
  {
    var r := ChunkTopics(chunk, response, topicId);
    var pages := IntRange(chunk.startPage, chunk.endPage);
    forall i | 0 <= i < |r|
      ensures r[i].title == response.topics[i].title
      ensures r[i].content == response.topics[i].description + "\n\n" + response.topics[i].content
      ensures r[i].pageNumbers == pages
      ensures |r[i].pageNumbers| == chunk.endPage - chunk.startPage + 1
      ensures r[i].pageNumbers[0] == chunk.startPage
      ensures r[i].pageNumbers[|r[i].pageNumbers| - 1] == chunk.endPage
      ensures r[i].order == chunk.chunkIndex * 100 + i
    {
      assert r[i] == ToChunkTopic(chunk, i, response.topics[i], topicId(chunk.chunkIndex, i));
    }
  }

  // ------------------------------------------------------------------
  // processChunkWithRetry
  // ------------------------------------------------------------------

  /** What one attempt yields once mapped to topics. */
  function AttemptResult(chunk: ContentChunk, a: Attempt, timeoutMs: int, topicId: (int, int) -> string): Result<seq<Topic>> {
    match a
    case TimedOut => Err(Failure(TimeoutCancellation, Some(TIMED_OUT_PREFIX + IntToString(timeoutMs) + " ms")))
    case Finished(Ok(response)) => Ok(ChunkTopics(chunk, response, topicId))
    case Finished(Err(e)) => Err(e)
  }

  /** What attempt `attempt` on `chunk` yields. */
  function Outcome(chunk: ContentChunk, env: ChunkEnv, attempt: nat): Result<seq<Topic>> {
    AttemptResult(chunk, env.call(chunk.chunkIndex, attempt), env.timeoutMs, env.topicId)
  }

  /** Whether the back-off after attempt `attempt` on `chunk` is cancelled. */
  predicate WaitCanceled(chunk: ContentChunk, env: ChunkEnv, attempt: nat) {
    env.canceled(RetryWait(chunk.chunkIndex, attempt))
  }

  /** `error is RateLimitException || error is TimeoutCancellationException`. */
  predicate IsRetryable(r: Result<seq<Topic>>) {
    r.Err? && (r.error.kind == RateLimit || r.error.kind == TimeoutCancellation)
  }

  datatype RetryReason = TimeoutReason | RateLimitReason

  /** The notice passed to `onProgress` before a back-off. */
  datatype RetryNotice = RetryNotice(reason: RetryReason, delaySeconds: int, attemptNumber: int)

  function RetryNoticeText(n: RetryNotice): string {
    (if n.reason == TimeoutReason then "Timeout" else "Rate limit") +
    RETRY_NOTICE_MIDDLE + IntToString(n.delaySeconds) + "s (intento " +
    IntToString(n.attemptNumber) + "/" + IntToString(MAX_CHUNK_RETRIES) + ")..."
  }

  /** How the retry loop ends: it returns a result, or the back-off `delay`
      throws because the job was cancelled. */
  datatype RetryEnd = Returned(result: Result<seq<Topic>>) | CanceledDuringWait

  datatype RetryRun = RetryRun(notices: seq<RetryNotice>, end: RetryEnd, attempts: nat)

  /** `(delayMs * 2).coerceAtMost(MAX_RETRY_DELAY_MS)`. */
  function NextDelay(delayMs: int): int {
    if delayMs * 2 <= MAX_RETRY_DELAY_MS then delayMs * 2 else MAX_RETRY_DELAY_MS
  }

  /** The retry loop from attempt `attempt` on, with back-off `delayMs`. */
  function RetrySpec(chunk: ContentChunk, env: ChunkEnv, attempt: nat, delayMs: int): RetryRun
    requires attempt <= MAX_CHUNK_RETRIES
    decreases MAX_CHUNK_RETRIES - attempt
  {
    var r := Outcome(chunk, env, attempt);
    if IsRetryable(r) && attempt < MAX_CHUNK_RETRIES then
      var notice := RetryNotice(if r.error.kind == TimeoutCancellation then TimeoutReason else RateLimitReason,
                                delayMs / 1000, attempt + 1);
      if WaitCanceled(chunk, env, attempt) then RetryRun([notice], CanceledDuringWait, attempt + 1)
      else
        var rest := RetrySpec(chunk, env, attempt + 1, NextDelay(delayMs));
        RetryRun([notice] + rest.notices, rest.end, rest.attempts)
    else
      RetryRun([], Returned(r), attempt + 1)
  }

  /** The notice announcing the retry after a failed attempt. */
  function NoticeFor(kind: ErrorKind, delayMs: int, attempt: nat): RetryNotice {
    RetryNotice(if kind == TimeoutCancellation then TimeoutReason else RateLimitReason, delayMs / 1000, attempt + 1)
  }

  /** A retryable failure whose back-off was not cancelled: its notice, then
      the run from the next attempt on. */
  lemma {:induction false} RetryUnfold(chunk: ContentChunk, env: ChunkEnv, attempt: nat, delayMs: int)
    requires attempt < MAX_CHUNK_RETRIES
    requires IsRetryable(Outcome(chunk, env, attempt)) && !WaitCanceled(chunk, env, attempt)
    ensures var rest := RetrySpec(chunk, env, attempt + 1, NextDelay(delayMs));
      RetrySpec(chunk, env, attempt, delayMs) ==
      RetryRun([NoticeFor(Outcome(chunk, env, attempt).error.kind, delayMs, attempt)] + rest.notices, rest.end, rest.attempts)
  {
  }

  /** The back-off before retry `k + 1`, doubling from 15 s. */
  function Pow2(k: nat): nat {
    if k == 0 then 1 else 2 * Pow2(k - 1)
  }

  /** From attempt `attempt` on, whatever the back-off: every attempt but the
      last failed in a retryable way and its back-off was not cancelled; a
      returned result is the last attempt's, and a failure is returned only
      when it cannot be retried or the retries are used up; there is one
      notice per back-off. */
  lemma {:induction false} RetryOutcomes(chunk: ContentChunk, env: ChunkEnv, attempt: nat, delayMs: int)
    requires attempt <= MAX_CHUNK_RETRIES
    ensures var run := RetrySpec(chunk, env, attempt, delayMs);
      && attempt < run.attempts <= MAX_CHUNK_RETRIES + 1
      && (forall k :: attempt <= k < run.attempts - 1 ==>
            IsRetryable(Outcome(chunk, env, k)) && !WaitCanceled(chunk, env, k))
      && (run.end.Returned? ==>
            && run.end.result == Outcome(chunk, env, run.attempts - 1)
            && (IsRetryable(run.end.result) ==> run.attempts == MAX_CHUNK_RETRIES + 1)
            && |run.notices| == run.attempts - 1 - attempt)
      && (run.end.CanceledDuringWait? ==>
            && IsRetryable(Outcome(chunk, env, run.attempts - 1))
            && WaitCanceled(chunk, env, run.attempts - 1)
            && |run.notices| == run.attempts - attempt)
    decreases MAX_CHUNK_RETRIES - attempt
  {
    var r := Outcome(chunk, env, attempt);
    if IsRetryable(r) && attempt < MAX_CHUNK_RETRIES && !WaitCanceled(chunk, env, attempt) {
      RetryOutcomes(chunk, env, attempt + 1, NextDelay(delayMs));
    }
  }

  /** The reason a notice gives: "Timeout" exactly when the failure it follows
      was a time-out. */
  predicate NoticeMatches(n: RetryNotice, failure: Result<seq<Topic>>) {
    failure.Err? && (n.reason == TimeoutReason <==> failure.error.kind == TimeoutCancellation)
  }

  /** Notice `j` announces attempt `attempt + j + 1`, and follows a retryable
      failure of attempt `attempt + j` whose kind its reason names. */
  lemma {:induction false} RetryNoticeAt(chunk: ContentChunk, env: ChunkEnv, attempt: nat, delayMs: int, j: nat)
    requires attempt <= MAX_CHUNK_RETRIES
    requires j < |RetrySpec(chunk, env, attempt, delayMs).notices|
    ensures var n := RetrySpec(chunk, env, attempt, delayMs).notices[j];
      && n.attemptNumber == attempt + j + 1
      && IsRetryable(Outcome(chunk, env, attempt + j))
      && NoticeMatches(n, Outcome(chunk, env, attempt + j))
    decreases j
  {
    var r := Outcome(chunk, env, attempt);
    assert IsRetryable(r) && attempt < MAX_CHUNK_RETRIES;
    if !WaitCanceled(chunk, env, attempt) {
      RetryUnfold(chunk, env, attempt, delayMs);
      if j > 0 {
        var rest := RetrySpec(chunk, env, attempt + 1, NextDelay(delayMs));
        assert RetrySpec(chunk, env, attempt, delayMs).notices[j] == rest.notices[j - 1];
        RetryNoticeAt(chunk, env, attempt + 1, NextDelay(delayMs), j - 1);
      }
    }
  }

  /** Every notice of a run, as `RetryNoticeAt` states it. */
  lemma {:induction false} RetryNotices(chunk: ContentChunk, env: ChunkEnv, attempt: nat, delayMs: int)
    requires attempt <= MAX_CHUNK_RETRIES
    ensures var run := RetrySpec(chunk, env, attempt, delayMs);
      forall j :: 0 <= j < |run.notices| ==>
        && run.notices[j].attemptNumber == attempt + j + 1
        && IsRetryable(Outcome(chunk, env, attempt + j))
        && NoticeMatches(run.notices[j], Outcome(chunk, env, attempt + j))
  {
    var run := RetrySpec(chunk, env, attempt, delayMs);
    forall j | 0 <= j < |run.notices|
      ensures run.notices[j].attemptNumber == attempt + j + 1
      ensures IsRetryable(Outcome(chunk, env, attempt + j))
      ensures NoticeMatches(run.notices[j], Outcome(chunk, env, attempt + j))
    {
      RetryNoticeAt(chunk, env, attempt, delayMs, j);
    }
  }

  /** Below the cap, the back-off before retry `a + 1` is `15 * 2^a` seconds
      and the next one is twice as long. */
  lemma {:induction false} DelayDoubles(a: nat)
    requires a < MAX_CHUNK_RETRIES
    ensures (BASE_RETRY_DELAY_MS * Pow2(a)) / 1000 == 15 * Pow2(a)
    ensures NextDelay(BASE_RETRY_DELAY_MS * Pow2(a)) == BASE_RETRY_DELAY_MS * Pow2(a + 1)
  {
    assert Pow2(0) == 1;
    assert Pow2(1) == 2;
    assert Pow2(2) == 4;
    assert Pow2(3) == 8;
  }

  /** The back-off doubles from 15 s: the notice for attempt `attempt + j + 1`
      announces `15 * 2^(attempt + j)` seconds. */
  lemma {:induction false} RetryDelays(chunk: ContentChunk, env: ChunkEnv, attempt: nat)
    requires attempt <= MAX_CHUNK_RETRIES
    ensures var run := RetrySpec(chunk, env, attempt, BASE_RETRY_DELAY_MS * Pow2(attempt));
      forall j :: 0 <= j < |run.notices| ==> run.notices[j].delaySeconds == 15 * Pow2(attempt + j)
    decreases MAX_CHUNK_RETRIES - attempt
  {
    var delay := BASE_RETRY_DELAY_MS * Pow2(attempt);
    var r := Outcome(chunk, env, attempt);
    if IsRetryable(r) && attempt < MAX_CHUNK_RETRIES && !WaitCanceled(chunk, env, attempt) {
      DelayDoubles(attempt);
      RetryUnfold(chunk, env, attempt, delay);
      RetryDelays(chunk, env, attempt + 1);
      var rest := RetrySpec(chunk, env, attempt + 1, BASE_RETRY_DELAY_MS * Pow2(attempt + 1));
      var notices := [NoticeFor(r.error.kind, delay, attempt)] + rest.notices;
      forall j | 0 <= j < |notices|
        ensures notices[j].delaySeconds == 15 * Pow2(attempt + j)
      {
        if j > 0 { assert notices[j] == rest.notices[j - 1]; }
      }
    }
  }

  /** The retry schedule the use case actually runs: at most four attempts,
      back-offs of 15, 30 and 60 seconds announced as attempts 1/3, 2/3 and
      3/3, only rate-limit and time-out failures retried, and the last
      failure handed back unchanged. */
  lemma {:induction false} RetrySchedule(chunk: ContentChunk, env: ChunkEnv)
    ensures var run := RetrySpec(chunk, env, 0, BASE_RETRY_DELAY_MS);
      && 1 <= run.attempts <= 4
      && |run.notices| <= 3
      && (forall j :: 0 <= j < |run.notices| ==> run.notices[j].delaySeconds == [15, 30, 60][j] && run.notices[j].attemptNumber == j + 1)
      && (!IsRetryable(Outcome(chunk, env, 0)) ==>
            run == RetryRun([], Returned(Outcome(chunk, env, 0)), 1))
      && (run.end.Returned? && run.end.result.Err? ==>
            run.end.result == Outcome(chunk, env, run.attempts - 1) &&
            (!IsRetryable(run.end.result) || run.attempts == 4))
  {
    RetryOutcomes(chunk, env, 0, BASE_RETRY_DELAY_MS);
    RetryDelays(chunk, env, 0);
    RetryNotices(chunk, env, 0, BASE_RETRY_DELAY_MS);
    var run := RetrySpec(chunk, env, 0, BASE_RETRY_DELAY_MS);
    forall j | 0 <= j < |run.notices| ensures run.notices[j].delaySeconds == [15, 30, 60][j] {
      assert Pow2(0) == 1 && Pow2(1) == 2 && Pow2(2) == 4;
    }
  }

  /** The loop's invariant: the notices handed out so far, followed by the
      run from the current attempt on, are the whole run. */
  ghost predicate RetryOnTrack(chunk: ContentChunk, env: ChunkEnv, attempt: nat, delayMs: int, notices: seq<RetryNotice>)
    requires attempt <= MAX_CHUNK_RETRIES
  {
    var run := RetrySpec(chunk, env, attempt, delayMs);
    RetrySpec(chunk, env, 0, BASE_RETRY_DELAY_MS) == RetryRun(notices + run.notices, run.end, run.attempts)
  }

  lemma {:induction false} RetryLoopStart(chunk: ContentChunk, env: ChunkEnv)
    ensures RetryOnTrack(chunk, env, 0, BASE_RETRY_DELAY_MS, [])
  {
    assert [] + RetrySpec(chunk, env, 0, BASE_RETRY_DELAY_MS).notices == RetrySpec(chunk, env, 0, BASE_RETRY_DELAY_MS).notices;
  }

  /** A retried attempt whose back-off was not cancelled moves its notice
      from the rest of the run to the notices already handed out. */
  lemma {:induction false} RetryLoopStep(chunk: ContentChunk, env: ChunkEnv, attempt: nat, delayMs: int, notices: seq<RetryNotice>)
    requires attempt < MAX_CHUNK_RETRIES
    requires IsRetryable(Outcome(chunk, env, attempt)) && !WaitCanceled(chunk, env, attempt)
    requires RetryOnTrack(chunk, env, attempt, delayMs, notices)
    ensures RetryOnTrack(chunk, env, attempt + 1, NextDelay(delayMs),
                         notices + [NoticeFor(Outcome(chunk, env, attempt).error.kind, delayMs, attempt)])
  {
    var notice := NoticeFor(Outcome(chunk, env, attempt).error.kind, delayMs, attempt);
    var rest := RetrySpec(chunk, env, attempt + 1, NextDelay(delayMs));
    RetryUnfold(chunk, env, attempt, delayMs);
    ShiftOne(notices, notice, rest.notices);
  }

  /** An attempt that ends the loop: the run is the notices handed out so
      far and this attempt's outcome, or the cancelled back-off after it. */
  lemma {:induction false} RetryLoopEnd(chunk: ContentChunk, env: ChunkEnv, attempt: nat, delayMs: int, notices: seq<RetryNotice>)
    requires attempt <= MAX_CHUNK_RETRIES
    requires RetryOnTrack(chunk, env, attempt, delayMs, notices)
    ensures var r := Outcome(chunk, env, attempt);
      !(IsRetryable(r) && attempt < MAX_CHUNK_RETRIES) ==>
        RetrySpec(chunk, env, 0, BASE_RETRY_DELAY_MS) == RetryRun(notices, Returned(r), attempt + 1)
    ensures IsRetryable(Outcome(chunk, env, attempt)) && attempt < MAX_CHUNK_RETRIES && WaitCanceled(chunk, env, attempt) ==>
      RetrySpec(chunk, env, 0, BASE_RETRY_DELAY_MS) ==
      RetryRun(notices + [NoticeFor(Outcome(chunk, env, attempt).error.kind, delayMs, attempt)], CanceledDuringWait, attempt + 1)
  {
    assert notices + [] == notices;
  }

  /** `processChunkWithRetry`: the `while (true)` loop with its attempt counter
      and back-off. Each notice is what the loop hands to `onProgress`. */
  method ProcessChunkWithRetry(chunk: ContentChunk, env: ChunkEnv)
    returns (notices: seq<RetryNotice>, end: RetryEnd, attempts: nat)
    ensures RetryRun(notices, end, attempts) == RetrySpec(chunk, env, 0, BASE_RETRY_DELAY_MS)
  {
    var attempt: nat := 0;
    var delayMs: int := BASE_RETRY_DELAY_MS;
    notices := [];
    RetryLoopStart(chunk, env);
    while true
      invariant attempt <= MAX_CHUNK_RETRIES
      invariant RetryOnTrack(chunk, env, attempt, delayMs, notices)
      decreases MAX_CHUNK_RETRIES - attempt
    {
      var result := Outcome(chunk, env, attempt);
      RetryLoopEnd(chunk, env, attempt, delayMs, notices);
      if result.Ok? {
        return notices, Returned(result), attempt + 1;
      }
      var error := result.error;
      var shouldRetry := (error.kind == RateLimit || error.kind == TimeoutCancellation) && attempt < MAX_CHUNK_RETRIES;
      if shouldRetry {
        var delaySeconds := delayMs / 1000;
        var reason := if error.kind == TimeoutCancellation then TimeoutReason else RateLimitReason;
        var notice := RetryNotice(reason, delaySeconds, attempt + 1);
        assert notice == NoticeFor(error.kind, delayMs, attempt);
        if WaitCanceled(chunk, env, attempt) {
          return notices + [notice], CanceledDuringWait, attempt + 1;
        }
        RetryLoopStep(chunk, env, attempt, delayMs, notices);
        notices := notices + [notice];
        delayMs := NextDelay(delayMs);
        attempt := attempt + 1;
      } else {
        return notices, Returned(result), attempt + 1;
      }
    }
  }

  // ------------------------------------------------------------------
  // invoke
  // ------------------------------------------------------------------

  /** What `onProgress` is told: the start of a chunk or a retry notice. */
  datatype ProgressNote = ChunkStarted(index: int, total: int, startPage: int, endPage: int) | Retrying(notice: RetryNotice)

  function ProgressNoteText(n: ProgressNote): string {
    match n
    case ChunkStarted(index, total, startPage, endPage) =>
      "Procesando chunk " + IntToString(index + 1) + " de " + IntToString(total) +
      " (págs " + IntToString(startPage) + "-" + IntToString(endPage) + ")"
    case Retrying(notice) => RetryNoticeText(notice)
  }

  /** What the use case reports while it runs: `onProgress(current, total,
      message)` and `onChunkSuccess(topics)`. */
  datatype UseCaseEvent = Progress(current: int, total: int, note: ProgressNote) | ChunkSucceeded(topics: seq<Topic>)

  /** An entry of `failedChunks`. */
  datatype ChunkFailure = ChunkFailure(index: int, startPage: int, endPage: int, message: Option<string>)

  function ChunkFailureText(f: ChunkFailure): string {
    "Chunk " + IntToString(f.index + 1) + " (pág " + IntToString(f.startPage) + "-" +
    IntToString(f.endPage) + "): " + TemplateText(f.message)
  }

  /** The use case's accumulators: `allTopics`, `failedChunks`, the events so
      far, and whether the job was found cancelled. */
  datatype Tally = Tally(topics: seq<Topic>, failed: seq<ChunkFailure>, events: seq<UseCaseEvent>, canceled: bool)

  /** The progress reports for chunk `index`: its start, then one per retry
      notice. */
  function ChunkProgress(index: int, total: int, chunk: ContentChunk, notices: seq<RetryNotice>): (r: seq<UseCaseEvent>)
    ensures |r| == |notices| + 1
    ensures forall j :: 0 <= j < |r| ==> r[j].Progress? && r[j].current == index + 1 && r[j].total == total
  {
    [Progress(index + 1, total, ChunkStarted(index, total, chunk.startPage, chunk.endPage))] +
    seq(|notices|, j requires 0 <= j < |notices| => Progress(index + 1, total, Retrying(notices[j])))
  }

  /** A chunk's first report announces it with its page range; each later
      report relays the retry notice at the same position. */
  lemma {:induction false} ChunkProgressNotes(index: int, total: int, chunk: ContentChunk, notices: seq<RetryNotice>)
    ensures var r := ChunkProgress(index, total, chunk, notices);
      && r[0].note == ChunkStarted(index, total, chunk.startPage, chunk.endPage)
      && forall j :: 0 <= j < |notices| ==> r[j + 1].note == Retrying(notices[j])
  {
  }

  /** One iteration of `chunks.forEachIndexed` for the chunk at `index` of
      `total`, after `ensureActive()` let it through, given how its retry
      loop ran. */
  function ProcessOne(t: Tally, index: int, total: int, chunk: ContentChunk, run: RetryRun): Tally {
    var events := t.events + ChunkProgress(index, total, chunk, run.notices);
    match run.end
    case CanceledDuringWait => Tally(t.topics, t.failed, events, true)
    case Returned(Ok(ts)) => Tally(t.topics + ts, t.failed, events + [ChunkSucceeded(ts)], false)
    case Returned(Err(e)) => Tally(t.topics, t.failed + [ChunkFailure(index, chunk.startPage, chunk.endPage, e.message)], events, false)
  }

  /** How the retry loop runs for each chunk. */
  function ChunkRuns(chunks: seq<ContentChunk>, env: ChunkEnv): (r: seq<RetryRun>)
    ensures |r| == |chunks|
  {
    seq(|chunks|, i requires 0 <= i < |chunks| => RetrySpec(chunks[i], env, 0, BASE_RETRY_DELAY_MS))
  }

  /** The accumulators after the loop has visited `chunks[..k]`, given how
      the retry loop ran on each chunk; once the job is found cancelled
      nothing more happens. */
  function RunChunks(chunks: seq<ContentChunk>, runs: seq<RetryRun>, env: ChunkEnv, k: nat): Tally
    requires k <= |chunks| == |runs|
  {
    if k == 0 then Tally([], [], [], false)
    else
      var t := RunChunks(chunks, runs, env, k - 1);
      if t.canceled then t
      else if env.canceled(ChunkStart(k - 1)) then t.(canceled := true)
      else ProcessOne(t, k - 1, |chunks|, chunks[k - 1], runs[k - 1])
  }

  /** The entries of `failedChunks` for the chunks among `chunks[..k]` whose
      retry loop gave up with an error, in chunk order. */
  function FailedChunks(chunks: seq<ContentChunk>, runs: seq<RetryRun>, k: nat): seq<ChunkFailure>
    requires k <= |chunks| == |runs|
  {
    if k == 0 then []
    else
      FailedChunks(chunks, runs, k - 1) +
      match runs[k - 1].end
      case Returned(Err(e)) => [ChunkFailure(k - 1, chunks[k - 1].startPage, chunks[k - 1].endPage, e.message)]
      case _ => []
  }

  /** The topics of the chunks among the first `k` whose retry loop returned
      topics, one chunk after another in chunk order. */
  function SucceededChunkTopics(runs: seq<RetryRun>, k: nat): seq<Topic>
    requires k <= |runs|
  {
    if k == 0 then []
    else
      SucceededChunkTopics(runs, k - 1) +
      match runs[k - 1].end
      case Returned(Ok(ts)) => ts
      case _ => []
  }

  const NO_TOPICS_MESSAGE := "No se pudieron generar temas del documento"
  const ALL_CHUNKS_FAILED := "Todos los chunks fallaron:\n"
  const PATH_DESCRIPTION_PREFIX := "Complete learning path generated from "
  const OMITTED_SECTIONS_SUFFIX := " section(s) were omitted due to processing errors."

  function PathDescription(doc: DocumentJson, failedCount: int): string {
    PATH_DESCRIPTION_PREFIX + IntToString(doc.metadata.totalPages) + " pages" +
    (if failedCount > 0 then ". " + IntToString(failedCount) + OMITTED_SECTIONS_SUFFIX else "")
  }

  function FailureLines(failed: seq<ChunkFailure>): (r: seq<string>)
    ensures |r| == |failed|
    ensures forall i :: 0 <= i < |failed| ==> r[i] == ChunkFailureText(failed[i])
  {
    seq(|failed|, i requires 0 <= i < |failed| => ChunkFailureText(failed[i]))
  }

  /** The failure message when no chunk gave topics: every failed chunk on
      a line of its own, or the fallback when none failed. */
  function NoTopicsMessage(failed: seq<ChunkFailure>): string {
    if failed != [] then ALL_CHUNKS_FAILED + Join(FailureLines(failed), "\n") else NO_TOPICS_MESSAGE
  }

  /** Step 3 of `invoke`: combine, or fail. */
  function Finish(doc: DocumentJson, t: Tally, env: ChunkEnv): Result<LearningPath> {
    if t.canceled then Err(JOB_CANCELLED)
    else if t.topics == [] then Err(Failure(Generic, Some(NoTopicsMessage(t.failed))))
    else
      Ok(LearningPath(env.pathId, doc.documentId, ExtractTitle(doc), PathDescription(doc, |t.failed|), t.topics, env.now))
  }

  /** With topics and no cancellation, `invoke` combines them into a path
      whose description counts the failed chunks; otherwise it fails. */
  lemma {:induction false} FinishCombines(doc: DocumentJson, t: Tally, env: ChunkEnv)
    ensures Finish(doc, t, env).Ok? <==> !t.canceled && t.topics != []
    ensures Finish(doc, t, env).Ok? ==>
      Finish(doc, t, env).value == LearningPath(env.pathId, doc.documentId, ExtractTitle(doc), PathDescription(doc, |t.failed|), t.topics, env.now)
  {
  }

  /** How `invoke` fails: a cancellation with the cancellation itself;
      without topics, with every failed chunk on a line of its own, or the
      fallback message when none failed. */
  lemma {:induction false} FinishFailures(doc: DocumentJson, t: Tally, env: ChunkEnv)
    ensures t.canceled ==> Finish(doc, t, env) == Err(JOB_CANCELLED)
    ensures !t.canceled && t.topics == [] && t.failed == [] ==>
      Finish(doc, t, env) == Err(Failure(Generic, Some(NO_TOPICS_MESSAGE)))
    ensures !t.canceled && t.topics == [] && t.failed != [] ==>
      Finish(doc, t, env) == Err(Failure(Generic, Some(ALL_CHUNKS_FAILED + Join(FailureLines(t.failed), "\n"))))
  {
  }

  /** The pages the use case works on: the override if given, otherwise the
      filtered document pages. */
  function WorkingPages(doc: DocumentJson, pagesOverride: Option<seq<PageJson>>): seq<PageJson> {
    match pagesOverride
    case Some(pages) => pages
    case None => FilterRelevantPages(doc.pages)
  }

  datatype UseCaseRun = UseCaseRun(events: seq<UseCaseEvent>, result: Result<LearningPath>)

  /** Steps 2 and 3 of `invoke`, on the chunks of the document, given how
      the retry loop ran on each chunk. */
  function ProcessRuns(doc: DocumentJson, chunks: seq<ContentChunk>, runs: seq<RetryRun>, env: ChunkEnv): UseCaseRun
    requires |chunks| == |runs|
  {
    var t := RunChunks(chunks, runs, env, |chunks|);
    UseCaseRun(t.events, Finish(doc, t, env))
  }

  /** Steps 2 and 3 of `invoke`, on the chunks of the document. */
  function ProcessChunks(doc: DocumentJson, chunks: seq<ContentChunk>, env: ChunkEnv): UseCaseRun {
    ProcessRuns(doc, chunks, ChunkRuns(chunks, env), env)
  }

  /** `invoke(documentJson, onProgress, onChunkSuccess, chunkTimeoutMs, pagesOverride)`. */
  function ProcessDocument(doc: DocumentJson, pagesOverride: Option<seq<PageJson>>, env: ChunkEnv): UseCaseRun {
    ProcessChunks(doc, ChunksOf(WorkingPages(doc, pagesOverride)), env)
  }

  /** The body of `forEachIndexed` for chunk `index`, once `ensureActive()`
      let it through: progress, the retry loop, then `onSuccess` or
      `onFailure`. */
  method ProcessChunkAt(allTopics: seq<Topic>, failedChunks: seq<ChunkFailure>, events: seq<UseCaseEvent>,
                        chunks: seq<ContentChunk>, index: nat, env: ChunkEnv)
    returns (allTopics': seq<Topic>, failedChunks': seq<ChunkFailure>, events': seq<UseCaseEvent>, canceled: bool)
    requires index < |chunks|
    ensures Tally(allTopics', failedChunks', events', canceled) ==
            ProcessOne(Tally(allTopics, failedChunks, events, false), index, |chunks|, chunks[index], ChunkRuns(chunks, env)[index])
  {
    var chunk := chunks[index];
    allTopics', failedChunks', canceled := allTopics, failedChunks, false;
    var notices, end, _ := ProcessChunkWithRetry(chunk, env);
    events' := events + ChunkProgress(index, |chunks|, chunk, notices);
    match end {
      case CanceledDuringWait =>
        canceled := true;
      case Returned(Ok(topics)) =>
        allTopics' := allTopics + topics;
        events' := events' + [ChunkSucceeded(topics)];
      case Returned(Err(error)) =>
        failedChunks' := failedChunks + [ChunkFailure(index, chunk.startPage, chunk.endPage, error.message)];
    }
  }

  /** `chunks.forEachIndexed { ... }` with its two mutable lists, stopping
      at the first suspension point that finds the job cancelled. */
  method RunChunksLoop(chunks: seq<ContentChunk>, env: ChunkEnv)
    returns (allTopics: seq<Topic>, failedChunks: seq<ChunkFailure>, events: seq<UseCaseEvent>, canceled: bool)
    ensures Tally(allTopics, failedChunks, events, canceled) == RunChunks(chunks, ChunkRuns(chunks, env), env, |chunks|)
  {
    ghost var runs := ChunkRuns(chunks, env);
    allTopics, failedChunks, events, canceled := [], [], [], false;
    var index := 0;
    while index < |chunks| && !canceled
      invariant 0 <= index <= |chunks|
      invariant Tally(allTopics, failedChunks, events, canceled) == RunChunks(chunks, runs, env, index)
    {
      allTopics, failedChunks, events, canceled := VisitChunk(allTopics, failedChunks, events, chunks, index, env);
      index := index + 1;
    }
    if canceled {
      CanceledStaysCanceled(chunks, runs, env, index);
    }
  }

  /** One turn of `forEachIndexed`: `ensureActive()`, then the chunk. */
  method VisitChunk(allTopics: seq<Topic>, failedChunks: seq<ChunkFailure>, events: seq<UseCaseEvent>,
                    chunks: seq<ContentChunk>, index: nat, env: ChunkEnv)
    returns (allTopics': seq<Topic>, failedChunks': seq<ChunkFailure>, events': seq<UseCaseEvent>, canceled: bool)
    requires index < |chunks|
    requires Tally(allTopics, failedChunks, events, false) == RunChunks(chunks, ChunkRuns(chunks, env), env, index)
    ensures Tally(allTopics', failedChunks', events', canceled) == RunChunks(chunks, ChunkRuns(chunks, env), env, index + 1)
  {
    ghost var runs := ChunkRuns(chunks, env);
    if env.canceled(ChunkStart(index)) {
      allTopics', failedChunks', events', canceled := allTopics, failedChunks, events, true;
    } else {
      allTopics', failedChunks', events', canceled := ProcessChunkAt(allTopics, failedChunks, events, chunks, index, env);
    }
  }

  /** The imperative `invoke`: the pages, the chunks, the loop, the result. */
  method ProcessDocumentInChunks(doc: DocumentJson, pagesOverride: Option<seq<PageJson>>, env: ChunkEnv)
    returns (events: seq<UseCaseEvent>, result: Result<LearningPath>)
    ensures UseCaseRun(events, result) == ProcessDocument(doc, pagesOverride, env)
  {
    var relevantPages := if pagesOverride.Some? then pagesOverride.value else FilterRelevantPages(doc.pages);
    assert relevantPages == WorkingPages(doc, pagesOverride);
    var chunks := CreateChunks(relevantPages);
    var allTopics, failedChunks, canceled;
    allTopics, failedChunks, events, canceled := RunChunksLoop(chunks, env);
    result := Finish(doc, Tally(allTopics, failedChunks, events, canceled), env);
  }

  /** Once the job is found cancelled the accumulators stay as they are. */
  lemma {:induction false} CanceledStaysCanceled(chunks: seq<ContentChunk>, runs: seq<RetryRun>, env: ChunkEnv, k: nat)
    requires k <= |chunks| == |runs|
    requires RunChunks(chunks, runs, env, k).canceled
    ensures RunChunks(chunks, runs, env, |chunks|) == RunChunks(chunks, runs, env, k)
    decreases |chunks| - k
  {
    if k < |chunks| {
      assert RunChunks(chunks, runs, env, k + 1) == RunChunks(chunks, runs, env, k);
      CanceledStaysCanceled(chunks, runs, env, k + 1);
    }
  }

  // ------------------------------------------------------------------
  // What the use case reports and what it returns
  // ------------------------------------------------------------------

  /** The topics handed to `onChunkSuccess`, in order. */
  function StreamedTopics(events: seq<UseCaseEvent>): seq<Topic>
    decreases |events|
  {
    if events == [] then []
    else
      var last := events[|events| - 1];
      StreamedTopics(events[..|events| - 1]) + (if last.ChunkSucceeded? then last.topics else [])
  }

  /** How many chunks were reported as successful. */
  function SucceededCount(events: seq<UseCaseEvent>): nat
    decreases |events|
  {
    if events == [] then 0
    else SucceededCount(events[..|events| - 1]) + (if events[|events| - 1].ChunkSucceeded? then 1 else 0)
  }

  lemma {:induction false} StreamedAppend(a: seq<UseCaseEvent>, b: seq<UseCaseEvent>)
    ensures StreamedTopics(a + b) == StreamedTopics(a) + StreamedTopics(b)
    ensures SucceededCount(a + b) == SucceededCount(a) + SucceededCount(b)
    decreases |b|
  {
    if b == [] {
      assert a + b == a;
    } else {
      StreamedAppend(a, b[..|b| - 1]);
      assert (a + b)[..|a + b| - 1] == a + b[..|b| - 1];
    }
  }

  /** Progress messages carry no topics. */
  lemma {:induction false} ProgressOnlyIsSilent(events: seq<UseCaseEvent>)
    requires forall j :: 0 <= j < |events| ==> events[j].Progress?
    ensures StreamedTopics(events) == [] && SucceededCount(events) == 0
    decreases |events|
  {
    if events != [] {
      ProgressOnlyIsSilent(events[..|events| - 1]);
    }
  }

  /** One chunk streams exactly the topics it adds. */
  lemma {:induction false} ProcessOneStreams(t: Tally, index: int, total: int, chunk: ContentChunk, run: RetryRun)
    requires StreamedTopics(t.events) == t.topics
    ensures var u := ProcessOne(t, index, total, chunk, run);
      StreamedTopics(u.events) == u.topics
  {
    var progress := ChunkProgress(index, total, chunk, run.notices);
    ProgressOnlyIsSilent(progress);
    StreamedAppend(t.events, progress);
    if run.end.Returned? && run.end.result.Ok? {
      var ts := run.end.result.value;
      StreamedAppend(t.events + progress, [ChunkSucceeded(ts)]);
      assert StreamedTopics([ChunkSucceeded(ts)]) == ts by {
        assert [ChunkSucceeded(ts)][..0] == [];
      }
    }
  }

  /** One chunk is counted once, as a success or as a failure, unless its
      back-off was cancelled. */
  lemma {:induction false} ProcessOneCounts(t: Tally, index: int, total: int, chunk: ContentChunk, run: RetryRun)
    ensures var u := ProcessOne(t, index, total, chunk, run);
      SucceededCount(u.events) + |u.failed| == SucceededCount(t.events) + |t.failed| + (if u.canceled then 0 else 1)
  {
    var progress := ChunkProgress(index, total, chunk, run.notices);
    ProgressOnlyIsSilent(progress);
    StreamedAppend(t.events, progress);
    if run.end.Returned? && run.end.result.Ok? {
      StreamedAppend(t.events + progress, [ChunkSucceeded(run.end.result.value)]);
    }
  }

  /** After the loop has visited `chunks[..k]`, the topics gathered are
      exactly those streamed to `onChunkSuccess`. */
  lemma {:induction false} RunChunksStreams(chunks: seq<ContentChunk>, runs: seq<RetryRun>, env: ChunkEnv, k: nat)
    requires k <= |chunks| == |runs|
    ensures var t := RunChunks(chunks, runs, env, k);
      StreamedTopics(t.events) == t.topics
  {
    if k > 0 {
      RunChunksStreams(chunks, runs, env, k - 1);
      var t := RunChunks(chunks, runs, env, k - 1);
      if !t.canceled && !env.canceled(ChunkStart(k - 1)) {
        assert RunChunks(chunks, runs, env, k) == ProcessOne(t, k - 1, |chunks|, chunks[k - 1], runs[k - 1]);
        ProcessOneStreams(t, k - 1, |chunks|, chunks[k - 1], runs[k - 1]);
      }
    }
  }

  /** After the loop has visited `chunks[..k]`, every visited chunk was
      counted once as a success or a failure, except one that was cancelled. */
  lemma {:induction false} RunChunksCounts(chunks: seq<ContentChunk>, runs: seq<RetryRun>, env: ChunkEnv, k: nat)
    requires k <= |chunks| == |runs|
    ensures var t := RunChunks(chunks, runs, env, k);
      && SucceededCount(t.events) + |t.failed| <= k
      && (!t.canceled ==> SucceededCount(t.events) + |t.failed| == k)
  {
    if k > 0 {
      RunChunksCounts(chunks, runs, env, k - 1);
      var t := RunChunks(chunks, runs, env, k - 1);
      if !t.canceled && !env.canceled(ChunkStart(k - 1)) {
        assert RunChunks(chunks, runs, env, k) == ProcessOne(t, k - 1, |chunks|, chunks[k - 1], runs[k - 1]);
        ProcessOneCounts(t, k - 1, |chunks|, chunks[k - 1], runs[k - 1]);
      }
    }
  }

  /** Unless the job was cancelled, `failedChunks` lists exactly the chunks
      whose retry loop gave up with an error, with their page ranges and
      messages, in chunk order. */
  lemma {:induction false} RunChunksFailures(chunks: seq<ContentChunk>, runs: seq<RetryRun>, env: ChunkEnv, k: nat)
    requires k <= |chunks| == |runs|
    ensures var t := RunChunks(chunks, runs, env, k);
      !t.canceled ==> t.failed == FailedChunks(chunks, runs, k)
  {
    if k > 0 {
      RunChunksFailures(chunks, runs, env, k - 1);
    }
  }

  /** Unless the job was cancelled, `allTopics` holds exactly the topics of
      the chunks whose retry loop succeeded, in chunk order; a failed chunk
      adds none. */
  lemma {:induction false} RunChunksTopics(chunks: seq<ContentChunk>, runs: seq<RetryRun>, env: ChunkEnv, k: nat)
    requires k <= |chunks| == |runs|
    ensures var t := RunChunks(chunks, runs, env, k);
      !t.canceled ==> t.topics == SucceededChunkTopics(runs, k)
  {
    if k > 0 {
      RunChunksTopics(chunks, runs, env, k - 1);
    }
  }

  /** Every progress report counts chunks from one up to their number. */
  predicate ProgressWithin(events: seq<UseCaseEvent>, upTo: int, total: int) {
    forall j :: 0 <= j < |events| && events[j].Progress? ==> 1 <= events[j].current <= upTo && events[j].total == total
  }

  lemma {:induction false} ProgressWithinAppend(a: seq<UseCaseEvent>, b: seq<UseCaseEvent>, upTo: int, total: int)
    requires ProgressWithin(a, upTo, total) && ProgressWithin(b, upTo, total)
    ensures ProgressWithin(a + b, upTo, total)
  {
    forall j | 0 <= j < |a + b| && (a + b)[j].Progress?
      ensures 1 <= (a + b)[j].current <= upTo && (a + b)[j].total == total
    {
      if j < |a| { assert (a + b)[j] == a[j]; } else { assert (a + b)[j] == b[j - |a|]; }
    }
  }

  /** One chunk's reports name it as chunk `index + 1` of `total`. */
  lemma {:induction false} ProcessOneProgress(t: Tally, index: int, total: int, chunk: ContentChunk, run: RetryRun)
    requires 0 <= index < total
    requires ProgressWithin(t.events, index, total)
    ensures ProgressWithin(ProcessOne(t, index, total, chunk, run).events, index + 1, total)
  {
    var progress := ChunkProgress(index, total, chunk, run.notices);
    assert ProgressWithin(t.events, index + 1, total);
    assert ProgressWithin(progress, index + 1, total);
    ProgressWithinAppend(t.events, progress, index + 1, total);
    if run.end.Returned? && run.end.result.Ok? {
      ProgressWithinAppend(t.events + progress, [ChunkSucceeded(run.end.result.value)], index + 1, total);
    }
  }

  lemma {:induction false} RunChunksProgress(chunks: seq<ContentChunk>, runs: seq<RetryRun>, env: ChunkEnv, k: nat)
    requires k <= |chunks| == |runs|
    ensures ProgressWithin(RunChunks(chunks, runs, env, k).events, k, |chunks|)
  {
    if k > 0 {
      RunChunksProgress(chunks, runs, env, k - 1);
      var t := RunChunks(chunks, runs, env, k - 1);
      assert ProgressWithin(t.events, k, |chunks|);
      if !t.canceled && !env.canceled(ChunkStart(k - 1)) {
        ProcessOneProgress(t, k - 1, |chunks|, chunks[k - 1], runs[k - 1]);
      }
    }
  }

  /** `invoke`'s outcome on any list of chunks: a learning path exactly when
      the job was not cancelled and some chunk produced topics; the path then
      holds the streamed topics, which are the succeeded chunks' topics in
      chunk order, and the document's title; otherwise
      a cancellation, or, with nothing streamed, the failure listing every
      chunk that gave up (or the fallback message when none did);
      every progress report has `1 <= current <= total`, with `total` the
      number of chunks. */
  lemma {:induction false} ProcessChunksOutcome(doc: DocumentJson, chunks: seq<ContentChunk>, runs: seq<RetryRun>, env: ChunkEnv)
    requires |chunks| == |runs|
    ensures var run := ProcessRuns(doc, chunks, runs, env);
      && ProgressWithin(run.events, |chunks|, |chunks|)
      && (run.result.Ok? ==>
            && run.result.value.topics == StreamedTopics(run.events) != []
            && run.result.value.topics == SucceededChunkTopics(runs, |chunks|)
            && run.result.value.title == ExtractTitle(doc)
            && run.result.value.documentId == doc.documentId)
      && (run.result.Err? ==>
            || run.result.error == JOB_CANCELLED
            || (&& run.result.error == Failure(Generic, Some(NoTopicsMessage(FailedChunks(chunks, runs, |chunks|))))
                && StreamedTopics(run.events) == []))
  {
    RunChunksFailures(chunks, runs, env, |chunks|);
    RunChunksTopics(chunks, runs, env, |chunks|);
    RunChunksStreams(chunks, runs, env, |chunks|);
    RunChunksCounts(chunks, runs, env, |chunks|);
    RunChunksProgress(chunks, runs, env, |chunks|);
  }

  /** The description of a learning path counts as omitted every chunk that
      did not report success. */
  lemma {:induction false} OmittedSectionsCounted(doc: DocumentJson, chunks: seq<ContentChunk>, runs: seq<RetryRun>, env: ChunkEnv)
    requires |chunks| == |runs|
    ensures var run := ProcessRuns(doc, chunks, runs, env);
      run.result.Ok? ==> run.result.value.description == PathDescription(doc, |chunks| - SucceededCount(run.events))
  {
    var t := RunChunks(chunks, runs, env, |chunks|);
    var run := ProcessRuns(doc, chunks, runs, env);
    assert run.events == t.events && run.result == Finish(doc, t, env);
    RunChunksCounts(chunks, runs, env, |chunks|);
    FinishCombines(doc, t, env);
    if run.result.Ok? {
      var omitted := |chunks| - SucceededCount(run.events);
      assert |t.failed| == omitted;
      assert run.result.value.description == PathDescription(doc, |t.failed|);
    }
  }

  /** Nothing to process (no pages) gives no progress at all and the
      "no topics" failure. */
  lemma {:induction false} EmptyDocumentFails(doc: DocumentJson, pagesOverride: Option<seq<PageJson>>, env: ChunkEnv)
    requires WorkingPages(doc, pagesOverride) == []
    ensures ProcessDocument(doc, pagesOverride, env) == UseCaseRun([], Err(Failure(Generic, Some(NO_TOPICS_MESSAGE))))
  {
    ChunksOfCorrect(WorkingPages(doc, pagesOverride));
  }

  /** When no chunk fails and the job is never cancelled, the path's
      description mentions no omitted section. */
  lemma {:induction false} AllChunksSucceed(doc: DocumentJson, chunks: seq<ContentChunk>, runs: seq<RetryRun>, env: ChunkEnv)
    requires |chunks| == |runs|
    requires forall i :: 0 <= i < |chunks| ==>
        !env.canceled(ChunkStart(i)) && runs[i].end.Returned? && runs[i].end.result.Ok?
    requires RunChunks(chunks, runs, env, |chunks|).topics != []
    ensures var run := ProcessRuns(doc, chunks, runs, env);
      run.result.Ok? && run.result.value.description == PathDescription(doc, 0)
  {
    AllChunksSucceedLoop(chunks, runs, env, |chunks|);
  }

  lemma {:induction false} AllChunksSucceedLoop(chunks: seq<ContentChunk>, runs: seq<RetryRun>, env: ChunkEnv, k: nat)
    requires k <= |chunks| == |runs|
    requires forall i :: 0 <= i < |chunks| ==>
        !env.canceled(ChunkStart(i)) && runs[i].end.Returned? && runs[i].end.result.Ok?
    ensures !RunChunks(chunks, runs, env, k).canceled && RunChunks(chunks, runs, env, k).failed == []
  {
    if k > 0 {
      AllChunksSucceedLoop(chunks, runs, env, k - 1);
    }
  }
}
