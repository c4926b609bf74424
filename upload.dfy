/** UploadViewModel: the upload screen's state, the file selection, the
    part-by-part generation of a learning path over the chunk pipeline, and
    the user-facing error messages.

    Coroutines run to completion inside the handler that launches them. The
    PDF extraction, the remote service, the job's cancellation, the
    identifiers and the clock are parameters. */
module Upload {
  import opened Domain
  import opened Text
  import opened Chunking
  import opened Pipeline

  // ------------------------------------------------------------------
  // Screen states and messages
  // ------------------------------------------------------------------

  /** `UploadUiState`, with the three states the view model constructs
      although the sealed interface does not declare them. Percentages are
      kept as the integers they are computed from: `currentPage / totalPages`
      for the extraction, `progressNum / progressDen` for the chunks. */
  datatype UploadUiState =
    | Idle
    | SelectingFile
    | ExtractingContent
    | ExtractingPages(currentPage: int, totalPages: int)
    | Success(result: PdfExtractionResult)
    | GeneratingLearningPath
    | ProcessingChunks(currentChunk: int, totalChunks: int, message: string,
                       progressNum: int, progressDen: int, partialTopics: seq<Topic>)
    | LearningPathGenerated(learningPath: LearningPath)
    | Error(message: string)
    | Canceled(message: string)

  const PAGES_PER_PART: nat := 200
  const PART_CHUNK_TIMEOUT_MS: int := 90000

  const NO_DOCUMENT_MESSAGE := "No hay documento cargado"
  const CANCELED_MESSAGE := "Procesamiento cancelado por el usuario"
  const UNKNOWN_EXTRACTION_ERROR := "Error desconocido al procesar el PDF"

  const QUOTA_NOTICE :=
    "\U{26A0}\U{FE0F} Cuota de Gemini API excedida\n\n" +
    "Tu cuenta ha alcanzado el límite diario. Por favor:\n" +
    "\U{2022} Espera 24 horas para que se restablezca\n" +
    "\U{2022} O verifica tu plan en Google Cloud Console"
  const TIMEOUT_NOTICE :=
    "\U{23F1}\U{FE0F} Timeout de conexión\n\n" +
    "La petición tardó demasiado tiempo (>60s).\n" +
    "Verifica tu conexión a internet e intenta nuevamente."
  const CONNECTION_NOTICE :=
    "\U{1F310} Error de conexión\n\n" +
    "No se pudo conectar a la API de Gemini.\n" +
    "Verifica tu conexión a internet."

  // ------------------------------------------------------------------
  // userFacingErrorMessage
  // ------------------------------------------------------------------

  predicate MentionsQuotaOr429(message: string) {
    ContainsIgnoreCase(message, "quota") || ContainsIgnoreCase(message, "429")
  }

  predicate MentionsTimeout(message: string) {
    ContainsIgnoreCase(message, "timeout") || ContainsIgnoreCase(message, "tardó demasiado")
  }

  predicate MentionsConnection(message: string) {
    ContainsIgnoreCase(message, "connect") || ContainsIgnoreCase(message, "no se pudo conectar")
  }

  /** `error.message ?: ""`. */
  function MessageOf(error: Failure): string {
    error.message.GetOr("")
  }

  /** `userFacingErrorMessage(error, fallback)`: the first matching notice,
      else the message, else the fallback. */
  function UserFacingErrorMessage(error: Failure, fallback: string): string {
    var message := MessageOf(error);
    if error.kind == RateLimit || MentionsQuotaOr429(message) then QUOTA_NOTICE
    else if MentionsTimeout(message) then TIMEOUT_NOTICE
    else if MentionsConnection(message) then CONNECTION_NOTICE
    else if message == [] then fallback
    else message
  }

  /** The classification in its order of priority: a rate-limit exception or
      a quota/429 message wins over everything; a time-out message wins over
      a connection message; the message is shown as it is exactly when it
      matches no rule and is not empty, and the fallback when it matches no
      rule and is empty. */
  lemma {:induction false} ErrorMessagePriority(error: Failure, fallback: string)
    ensures var r := UserFacingErrorMessage(error, fallback);
      && (error.kind == RateLimit || MentionsQuotaOr429(MessageOf(error)) ==> r == QUOTA_NOTICE)
      && (error.kind != RateLimit && !MentionsQuotaOr429(MessageOf(error)) && MentionsTimeout(MessageOf(error)) ==> r == TIMEOUT_NOTICE)
      && ((error.kind != RateLimit && !MentionsQuotaOr429(MessageOf(error)) && !MentionsTimeout(MessageOf(error))
           && MentionsConnection(MessageOf(error))) ==> r == CONNECTION_NOTICE)
      && (Unclassified(error) && MessageOf(error) != [] ==> r == MessageOf(error))
      && (Unclassified(error) && MessageOf(error) == [] ==> r == fallback)
      && (Unclassified(error) && error.message.None? ==> r == fallback)
      && (!Unclassified(error) ==> r in {QUOTA_NOTICE, TIMEOUT_NOTICE, CONNECTION_NOTICE})
  {
  }

  /** The error matches none of the three rules. */
  predicate Unclassified(error: Failure) {
    error.kind != RateLimit && !MentionsQuotaOr429(MessageOf(error)) && !MentionsTimeout(MessageOf(error))
    && !MentionsConnection(MessageOf(error))
  }

  // ------------------------------------------------------------------
  // onFileSelected
  // ------------------------------------------------------------------

  /** `fileUri.substringAfterLast("/").removeSuffix(".pdf") + ".pdf"`. */
  function FileNameOf(fileUri: string): (r: string)
    ensures EndsWith(r, ".pdf")
    ensures '/' !in r
  {
    var base := RemoveSuffix(SubstringAfterLast(fileUri, '/'), ".pdf");
    assert forall i :: 0 <= i < |base| ==> base[i] in SubstringAfterLast(fileUri, '/');
    base + ".pdf"
  }

  /** The last path segment is kept: with ".pdf" it is the file name
      unchanged, without it ".pdf" is added; and naming is idempotent. */
  lemma {:induction false} FileNameKeepsLastSegment(fileUri: string)
    ensures var last := SubstringAfterLast(fileUri, '/');
      && (EndsWith(last, ".pdf") ==> FileNameOf(fileUri) == last)
      && (!EndsWith(last, ".pdf") ==> FileNameOf(fileUri) == last + ".pdf")
      && FileNameOf(FileNameOf(fileUri)) == FileNameOf(fileUri)
  {
    var name := FileNameOf(fileUri);
    assert LastIndexOf(name, '/') == -1;
    assert SubstringAfterLast(name, '/') == name;
    assert RemoveSuffix(name, ".pdf") + ".pdf" == name;
  }

  const TRUNCATION_HEAD := "\U{26A0}\U{FE0F} Documento muy grande\n\nTu PDF tiene "
  const TRUNCATION_MIDDLE := " páginas, pero solo se pudieron extraer las primeras "
  const TRUNCATION_TAIL :=
    " páginas por límites de memoria del dispositivo.\n\nRecomendación: Divide el PDF en partes más " +
    "pequeñas (máximo 1000 páginas cada una) para procesar todo el contenido."

  /** The warning shown for a truncated document. */
  function TruncationWarning(originalPages: int, extractedPages: int): string {
    TRUNCATION_HEAD + IntToString(originalPages) + TRUNCATION_MIDDLE + IntToString(extractedPages) + TRUNCATION_TAIL
  }

  function PageTexts(pages: seq<PageJson>): (r: seq<string>)
    ensures |r| == |pages| && forall i :: 0 <= i < |pages| ==> r[i] == pages[i].content
  {
    seq(|pages|, i requires 0 <= i < |pages| => pages[i].content)
  }

  /** The `PdfExtractionResult` the Success state shows for a document. */
  function ExtractionView(doc: DocumentJson): PdfExtractionResult {
    PdfExtractionResult(
      Join(PageTexts(doc.pages), "\n\n"),
      doc.metadata.totalPages,
      seq(|doc.pages|, i requires 0 <= i < |doc.pages| => PageContent(doc.pages[i].pageNumber, doc.pages[i].content)),
      doc.metadata.wasTruncated,
      doc.metadata.originalTotalPages)
  }

  /** The view carries the document's pages one for one, with their numbers
      and texts, its page count and its truncation flags. */
  lemma {:induction false} ExtractionViewFaithful(doc: DocumentJson)
    ensures var v := ExtractionView(doc);
      && |v.pages| == |doc.pages|
      && (forall i :: 0 <= i < |doc.pages| ==>
            v.pages[i].pageNumber == doc.pages[i].pageNumber && v.pages[i].text == doc.pages[i].content)
      && v.totalPages == doc.metadata.totalPages
      && v.wasTruncated == doc.metadata.wasTruncated
      && v.originalTotalPages == doc.metadata.originalTotalPages
      && (|doc.pages| == 1 ==> v.text == doc.pages[0].content)
  {
    if |doc.pages| == 1 {
      assert PageTexts(doc.pages) == [doc.pages[0].content];
    }
  }

  /** The state `onFileSelected` ends in, given the extraction's result. */
  function ExtractionState(r: Result<DocumentJson>): UploadUiState {
    match r
    case Err(e) => Error(UserFacingErrorMessage(e, UNKNOWN_EXTRACTION_ERROR))
    case Ok(doc) =>
      if doc.metadata.wasTruncated && doc.metadata.originalTotalPages.Some? then
        Error(TruncationWarning(doc.metadata.originalTotalPages.value, doc.metadata.totalPages))
      else Success(ExtractionView(doc))
  }

  /** A successful extraction is shown unless it was truncated; a failed one
      is an error with a user-facing message, never an empty one. */
  lemma {:induction false} ExtractionStateCases(r: Result<DocumentJson>)
    ensures var s := ExtractionState(r);
      && (s.Success? <==> r.Ok? && !(r.value.metadata.wasTruncated && r.value.metadata.originalTotalPages.Some?))
      && (s.Success? ==> s.result == ExtractionView(r.value))
      && (s.Error? ==> s.message != [])
      && (s.Success? || s.Error?)
  {
    if r.Err? {
      ErrorMessagePriority(r.error, UNKNOWN_EXTRACTION_ERROR);
    }
  }

  // ------------------------------------------------------------------
  // The parts of a document
  // ------------------------------------------------------------------

  /** `chunked(size)`: consecutive pieces of `size` elements, the last one
      possibly shorter. */
  function Chunked<T>(xs: seq<T>, size: nat): seq<seq<T>>
    requires size > 0
    decreases |xs|
  {
    if xs == [] then []
    else if |xs| <= size then [xs]
    else [xs[..size]] + Chunked(xs[size..], size)
  }

  function Concat<T>(parts: seq<seq<T>>): seq<T>
    decreases |parts|
  {
    if parts == [] then [] else parts[0] + Concat(parts[1..])
  }

  function Min(a: int, b: int): int {
    if a <= b then a else b
  }

  /** The pieces put back together are the list; none is empty or longer
      than `size`, all but the last are full, and there are none exactly for
      the empty list. */
  lemma {:induction false} ChunkedCovers<T>(xs: seq<T>, size: nat)
    requires size > 0
    ensures var r := Chunked(xs, size);
      && Concat(r) == xs
      && (forall i :: 0 <= i < |r| ==> 0 < |r[i]| <= size)
      && (forall i :: 0 <= i < |r| - 1 ==> |r[i]| == size)
      && (r == [] <==> xs == [])
    decreases |xs|
  {
    if |xs| > size {
      var r := Chunked(xs, size);
      var rest := Chunked(xs[size..], size);
      ChunkedCovers(xs[size..], size);
      assert r[1..] == rest;
      assert xs[..size] + xs[size..] == xs;
      forall i | 0 < i < |r| ensures r[i] == rest[i - 1] { }
    } else if xs != [] {
      var r := Chunked(xs, size);
      assert r[1..] == [];
    }
  }

  /** Piece `i` is the slice starting at `size * i`. */
  lemma {:induction false} ChunkedPieceAt<T>(xs: seq<T>, size: nat, i: nat)
    requires size > 0 && i < |Chunked(xs, size)|
    ensures size * i < |xs|
    ensures Chunked(xs, size)[i] == xs[size * i..Min(size * i + size, |xs|)]
    decreases |xs|
  {
    if i > 0 {
      var rest := Chunked(xs[size..], size);
      assert Chunked(xs, size)[i] == rest[i - 1];
      ChunkedPieceAt(xs[size..], size, i - 1);
      var j := size * (i - 1);
      assert size * i == j + size;
      var hi := Min(j + size, |xs| - size);
      assert Min(size * i + size, |xs|) == hi + size;
      SliceOfSuffix(xs, size, j, hi);
    }
  }

  /** A slice of a suffix is a slice of the whole, shifted by the suffix's start. */
  lemma SliceOfSuffix<T>(xs: seq<T>, d: int, lo: int, hi: int)
    requires 0 <= d <= |xs| && 0 <= lo <= hi <= |xs| - d
    ensures xs[d..][lo..hi] == xs[d + lo..d + hi]
  {
  }

  // ------------------------------------------------------------------
  // onGenerateLearningPath
  // ------------------------------------------------------------------

  /** What the generation job depends on, per part: `call(p, c, a)` is
      attempt `a` on chunk `c` of part `p`, `canceled(p, cp)` the job's
      cancellation at a suspension point of the use case on part `p`, and
      `partCanceled(p)` its cancellation at `ensureActive()` before part `p`.
      `pathId` and `now` are the final path's identifier and time. */
  datatype DriverEnv = DriverEnv(
    call: (nat, int, nat) -> Attempt,
    canceled: (nat, Checkpoint) -> bool,
    partCanceled: nat -> bool,
    topicId: (nat, int, int) -> string,
    partPathId: nat -> string,
    partNow: nat -> int,
    pathId: string,
    now: int)

  /** The use case's environment for part `p`, called with a 90 s time-out
      per chunk. */
  function PartEnv(d: DriverEnv, p: nat): ChunkEnv {
    ChunkEnv(
      (c: int, a: nat) => d.call(p, c, a),
      (cp: Checkpoint) => d.canceled(p, cp),
      PART_CHUNK_TIMEOUT_MS,
      (c: int, i: int) => d.topicId(p, c, i),
      d.partPathId(p),
      d.partNow(p))
  }

  /** How the use case runs on each part, with the part as `pagesOverride`. */
  function PartRuns(doc: DocumentJson, parts: seq<seq<PageJson>>, d: DriverEnv): (r: seq<UseCaseRun>)
    ensures |r| == |parts|
  {
    seq(|parts|, i requires 0 <= i < |parts| => ProcessDocument(doc, Some(parts[i]), PartEnv(d, i)))
  }

  function PartLabel(index: int, total: int): string {
    "Parte " + IntToString(index + 1) + "/" + IntToString(total)
  }

  /** An entry of `failedParts`. */
  datatype PartFailure = PartFailure(index: int, total: int, startPage: int, endPage: int, message: Option<string>)

  function PartFailureText(f: PartFailure): string {
    PartLabel(f.index, f.total) + " (págs " + IntToString(f.startPage) + "-" + IntToString(f.endPage) + "): " + TemplateText(f.message)
  }

  /** The first page number of a part, or where it would start. */
  function PartStartPage(part: seq<PageJson>, index: int): int {
    if part != [] then part[0].pageNumber else index * PAGES_PER_PART + 1
  }

  function PartEndPage(part: seq<PageJson>, index: int): int {
    if part != [] then part[|part| - 1].pageNumber else (index + 1) * PAGES_PER_PART
  }

  /** The screen during the job: the state and the `partialTopics` list. */
  datatype Screen = Screen(state: UploadUiState, partial: seq<Topic>)

  /** What one report of the use case on part `partIndex` of `totalParts`
      does to the screen: `onProgress` shows the chunk counts and the
      overall progress `(partIndex + current / total) / totalParts`;
      `onChunkSuccess` appends the topics and, while the chunk counts are
      shown, shows them too. */
  function OnEvent(s: Screen, partIndex: int, totalParts: int, e: UseCaseEvent): Screen {
    match e
    case Progress(current, total, note) =>
      Screen(ProcessingChunks(current, total, PartLabel(partIndex, totalParts) + " - " + ProgressNoteText(note),
                              partIndex * total + current, totalParts * total, s.partial), s.partial)
    case ChunkSucceeded(topics) =>
      var partial := s.partial + topics;
      Screen(if s.state.ProcessingChunks? then s.state.(partialTopics := partial) else s.state, partial)
  }

  /** The reports of a use-case run, in order. */
  function Replay(s: Screen, partIndex: int, totalParts: int, events: seq<UseCaseEvent>): Screen
    decreases |events|
  {
    if events == [] then s
    else OnEvent(Replay(s, partIndex, totalParts, events[..|events| - 1]), partIndex, totalParts, events[|events| - 1])
  }

  /** The screen shows the topics gathered so far, and a progress that is a
      proper fraction with a positive denominator. */
  predicate ScreenSane(s: Screen) {
    s.state.ProcessingChunks? ==>
      s.state.partialTopics == s.partial && 0 < s.state.progressNum <= s.state.progressDen
  }

  lemma {:induction false} PartProgressBounded(partIndex: int, totalParts: int, current: int, total: int)
    requires 0 <= partIndex < totalParts && 1 <= current <= total
    ensures 0 < partIndex * total + current <= totalParts * total
  {
    assert partIndex * total <= (totalParts - 1) * total;
    assert (totalParts - 1) * total == totalParts * total - total;
  }

  /** Every progress report counts from one up to its total. */
  predicate ReportsCounted(events: seq<UseCaseEvent>) {
    forall j :: 0 <= j < |events| && events[j].Progress? ==> 1 <= events[j].current <= events[j].total
  }

  /** Replaying a run appends exactly the streamed topics and keeps the
      screen sane when every report counts within its total. */
  lemma {:induction false} ReplayStreams(s: Screen, partIndex: int, totalParts: int, events: seq<UseCaseEvent>)
    requires 0 <= partIndex < totalParts
    requires ReportsCounted(events)
    requires ScreenSane(s)
    ensures Replay(s, partIndex, totalParts, events).partial == s.partial + StreamedTopics(events)
    ensures ScreenSane(Replay(s, partIndex, totalParts, events))
    decreases |events|
  {
    if events != [] {
      var front := events[..|events| - 1];
      var e := events[|events| - 1];
      assert ReportsCounted(front) by {
        forall j | 0 <= j < |front| && front[j].Progress? ensures 1 <= front[j].current <= front[j].total {
          assert front[j] == events[j];
        }
      }
      ReplayStreams(s, partIndex, totalParts, front);
      if e.Progress? {
        PartProgressBounded(partIndex, totalParts, e.current, e.total);
      }
    }
  }

  /** Why the part loop stopped early: a cancellation came back from the use
      case (the Canceled state is shown), or `ensureActive()` found the job
      cancelled (the job ends without another state). */
  datatype StopReason = Running | CanceledByUser | JobStopped

  /** The part loop's variables `allTopics`, `learningPathTitle` and
      `failedParts`, and whether it stopped. */
  datatype Drive = Drive(topics: seq<Topic>, title: Option<string>, failed: seq<PartFailure>, stop: StopReason)

  /** The body of the part loop for the part at `index` of `total`, after
      `ensureActive()`, given how the use case ran on it. */
  function PartStep(t: Drive, index: int, total: int, part: seq<PageJson>, run: UseCaseRun): Drive {
    match run.result
    case Ok(path) =>
      Drive(t.topics + path.topics, if t.title.None? then Some(path.title) else t.title, t.failed, Running)
    case Err(error) =>
      if IsCancellation(error.kind) then t.(stop := CanceledByUser)
      else
        var failure := PartFailure(index, total, PartStartPage(part, index), PartEndPage(part, index), error.message);
        Drive(t.topics, t.title, t.failed + [failure], Running)
  }

  /** What the same part does to the screen: its reports, then the
      Canceled state if it came back cancelled. */
  function PartScreen(s: Screen, index: int, total: int, run: UseCaseRun): Screen {
    var s' := Replay(s, index, total, run.events);
    if run.result.Err? && IsCancellation(run.result.error.kind) then Screen(Canceled(CANCELED_MESSAGE), s'.partial) else s'
  }

  /** The loop variables after `parts[..k]`, given how the use case ran on
      each part and where `ensureActive()` found the job cancelled. */
  function DriveParts(parts: seq<seq<PageJson>>, runs: seq<UseCaseRun>, partCanceled: nat -> bool, k: nat): Drive
    requires k <= |parts| == |runs|
  {
    if k == 0 then Drive([], None, [], Running)
    else
      var t := DriveParts(parts, runs, partCanceled, k - 1);
      if t.stop != Running then t
      else if partCanceled(k - 1) then t.(stop := JobStopped)
      else PartStep(t, k - 1, |parts|, parts[k - 1], runs[k - 1])
  }

  /** The screen after `parts[..k]`. */
  function ScreenParts(parts: seq<seq<PageJson>>, runs: seq<UseCaseRun>, partCanceled: nat -> bool, k: nat): Screen
    requires k <= |parts| == |runs|
  {
    if k == 0 then Screen(GeneratingLearningPath, [])
    else
      var s := ScreenParts(parts, runs, partCanceled, k - 1);
      if DriveParts(parts, runs, partCanceled, k - 1).stop != Running || partCanceled(k - 1) then s
      else PartScreen(s, k - 1, |parts|, runs[k - 1])
  }

  /** The description of the combined path. */
  function PartsDescription(totalParts: int, failedCount: int): string {
    if failedCount == 0 then COMPLETE_PREFIX + IntToString(totalParts) + " parts"
    else
      PARTIAL_PREFIX + IntToString(totalParts - failedCount) + " of " + IntToString(totalParts) + PARTIAL_SUFFIX
  }

  const COMPLETE_PREFIX := "Complete summary in "
  const PARTIAL_PREFIX := "\U{26A0}\U{FE0F} Processed "
  const PARTIAL_SUFFIX := " parts. Some parts failed due to API limits."
  const ALL_PARTS_FAILED := "Todas las partes fallaron:\n"

  function PartFailureLines(failed: seq<PartFailure>): (r: seq<string>)
    ensures |r| == |failed|
    ensures forall i :: 0 <= i < |failed| ==> r[i] == PartFailureText(failed[i])
  {
    seq(|failed|, i requires 0 <= i < |failed| => PartFailureText(failed[i]))
  }

  /** The entries of `failedParts` for the parts among `parts[..k]` whose run
      failed, in part order. */
  function FailedParts(parts: seq<seq<PageJson>>, runs: seq<UseCaseRun>, k: nat): seq<PartFailure>
    requires k <= |parts| == |runs|
  {
    if k == 0 then []
    else
      FailedParts(parts, runs, k - 1) +
      if runs[k - 1].result.Err? then
        [PartFailure(k - 1, |parts|, PartStartPage(parts[k - 1], k - 1), PartEndPage(parts[k - 1], k - 1), runs[k - 1].result.error.message)]
      else []
  }

  /** After the loop: the state shown when it stopped early, an error when
      no part gave topics, otherwise the combined learning path. */
  function Conclude(doc: DocumentJson, t: Drive, screen: Screen, totalParts: int, d: DriverEnv): UploadUiState {
    if t.stop != Running then screen.state
    else if t.topics == [] then
      Error(if t.failed != [] then ALL_PARTS_FAILED + Join(PartFailureLines(t.failed), "\n") else NO_TOPICS_MESSAGE)
    else
      LearningPathGenerated(LearningPath(d.pathId, doc.documentId, t.title.GetOr(RemoveSuffix(doc.filename, ".pdf")),
                                         PartsDescription(totalParts, |t.failed|), t.topics, d.now))
  }

  function DocumentParts(doc: DocumentJson): seq<seq<PageJson>> {
    Chunked(doc.pages, PAGES_PER_PART)
  }

  /** The state the generation job leaves for a loaded document. */
  function GenerationState(doc: DocumentJson, d: DriverEnv): UploadUiState {
    var parts := DocumentParts(doc);
    var runs := PartRuns(doc, parts, d);
    Conclude(doc, DriveParts(parts, runs, d.partCanceled, |parts|), ScreenParts(parts, runs, d.partCanceled, |parts|), |parts|, d)
  }

  /** What the use case guarantees about a run on a part: its reports count
      within their totals; a path holds the streamed topics, at least one,
      and the given title; a failure other than a cancellation streamed
      nothing. */
  predicate RunSane(run: UseCaseRun, title: string) {
    && ReportsCounted(run.events)
    && (run.result.Ok? ==>
          run.result.value.topics == StreamedTopics(run.events) != [] && run.result.value.title == title)
    && (run.result.Err? && !IsCancellation(run.result.error.kind) ==> StreamedTopics(run.events) == [])
  }

  lemma {:induction false} PartRunsSane(doc: DocumentJson, parts: seq<seq<PageJson>>, d: DriverEnv)
    ensures forall i :: 0 <= i < |parts| ==> RunSane(PartRuns(doc, parts, d)[i], ExtractTitle(doc))
  {
    forall i | 0 <= i < |parts| ensures RunSane(PartRuns(doc, parts, d)[i], ExtractTitle(doc)) {
      var chunks := ChunksOf(WorkingPages(doc, Some(parts[i])));
      var run := ProcessChunks(doc, chunks, PartEnv(d, i));
      ProcessChunksOutcome(doc, chunks, ChunkRuns(chunks, PartEnv(d, i)), PartEnv(d, i));
      assert PartRuns(doc, parts, d)[i] == run;
      assert ReportsCounted(run.events) by {
        forall j | 0 <= j < |run.events| && run.events[j].Progress?
          ensures 1 <= run.events[j].current <= run.events[j].total
        {
          assert ProgressWithin(run.events, |chunks|, |chunks|);
        }
      }
    }
  }

  /** The loop's invariant: the title is set exactly once topics exist
      and is then the title every part reports, and while there are topics
      some visited part did not fail. */
  predicate DriveSane(t: Drive, title: string, k: int) {
    && (t.title.Some? <==> t.topics != [])
    && (t.title.Some? ==> t.title.value == title)
    && |t.failed| <= k
    && (t.topics != [] ==> |t.failed| < k)
  }

  lemma {:induction false} DriveInvariant(parts: seq<seq<PageJson>>, runs: seq<UseCaseRun>, partCanceled: nat -> bool, title: string, k: nat)
    requires k <= |parts| == |runs|
    requires forall i :: 0 <= i < |runs| ==> RunSane(runs[i], title)
    ensures DriveSane(DriveParts(parts, runs, partCanceled, k), title, k)
  {
    if k > 0 {
      DriveInvariant(parts, runs, partCanceled, title, k - 1);
    }
  }

  /** The screen agrees with the loop: it shows exactly the topics gathered,
      or the Canceled state once a part came back cancelled. */
  predicate ScreenMatches(s: Screen, t: Drive) {
    && ScreenSane(s)
    && (t.stop != CanceledByUser ==> s.partial == t.topics)
    && (t.stop == CanceledByUser ==> s.state == Canceled(CANCELED_MESSAGE))
  }

  lemma {:induction false} PartScreenMatches(s: Screen, t: Drive, title: string, index: int, total: int, part: seq<PageJson>, run: UseCaseRun)
    requires 0 <= index < total && t.stop == Running
    requires ScreenMatches(s, t)
    requires RunSane(run, title)
    ensures ScreenMatches(PartScreen(s, index, total, run), PartStep(t, index, total, part, run))
  {
    ReplayStreams(s, index, total, run.events);
  }

  lemma {:induction false} ScreenInvariant(parts: seq<seq<PageJson>>, runs: seq<UseCaseRun>, partCanceled: nat -> bool, title: string, k: nat)
    requires k <= |parts| == |runs|
    requires forall i :: 0 <= i < |runs| ==> RunSane(runs[i], title)
    ensures ScreenMatches(ScreenParts(parts, runs, partCanceled, k), DriveParts(parts, runs, partCanceled, k))
  {
    if k > 0 {
      ScreenInvariant(parts, runs, partCanceled, title, k - 1);
      var t := DriveParts(parts, runs, partCanceled, k - 1);
      var s := ScreenParts(parts, runs, partCanceled, k - 1);
      if t.stop != Running {
        assert DriveParts(parts, runs, partCanceled, k) == t;
        assert ScreenParts(parts, runs, partCanceled, k) == s;
      } else if partCanceled(k - 1) {
        assert DriveParts(parts, runs, partCanceled, k) == t.(stop := JobStopped);
        assert ScreenParts(parts, runs, partCanceled, k) == s;
      } else {
        assert DriveParts(parts, runs, partCanceled, k) == PartStep(t, k - 1, |parts|, parts[k - 1], runs[k - 1]);
        assert ScreenParts(parts, runs, partCanceled, k) == PartScreen(s, k - 1, |parts|, runs[k - 1]);
        PartScreenMatches(s, t, title, k - 1, |parts|, parts[k - 1], runs[k - 1]);
      }
    }
  }

  /** Once the loop has stopped, nothing changes any more. */
  lemma {:induction false} StoppedStaysStopped(parts: seq<seq<PageJson>>, runs: seq<UseCaseRun>, partCanceled: nat -> bool, k: nat)
    requires k <= |parts| == |runs|
    requires DriveParts(parts, runs, partCanceled, k).stop != Running
    ensures DriveParts(parts, runs, partCanceled, |parts|) == DriveParts(parts, runs, partCanceled, k)
    ensures ScreenParts(parts, runs, partCanceled, |parts|) == ScreenParts(parts, runs, partCanceled, k)
    decreases |parts| - k
  {
    if k < |parts| {
      StoppedStaysStopped(parts, runs, partCanceled, k + 1);
    }
  }

  /** The topics of the parts that succeeded, in part order: the reference
      the loop's `allTopics` is checked against. */
  function SucceededTopics(runs: seq<UseCaseRun>): seq<Topic>
    decreases |runs|
  {
    if runs == [] then []
    else
      var run := runs[|runs| - 1];
      SucceededTopics(runs[..|runs| - 1]) + (if run.result.Ok? then run.result.value.topics else [])
  }

  /** While the loop runs it has visited every part: `allTopics` holds every
      successful part's topics in part order, no part was stopped at
      `ensureActive()` or reported a cancellation, and each failed part only
      added its entry to `failedParts`. */
  lemma {:induction false} DriveGathersParts(parts: seq<seq<PageJson>>, runs: seq<UseCaseRun>, partCanceled: nat -> bool, k: nat)
    requires k <= |parts| == |runs|
    requires DriveParts(parts, runs, partCanceled, k).stop == Running
    ensures DriveParts(parts, runs, partCanceled, k).topics == SucceededTopics(runs[..k])
    ensures forall i :: 0 <= i < k ==>
      (!partCanceled(i) && !(runs[i].result.Err? && IsCancellation(runs[i].result.error.kind)))
  {
    if k > 0 {
      assert DriveParts(parts, runs, partCanceled, k - 1).stop == Running;
      DriveGathersParts(parts, runs, partCanceled, k - 1);
      assert runs[..k][..k - 1] == runs[..k - 1];
    }
  }

  /** While the loop runs, `failedParts` lists exactly the parts whose run
      failed, with their position, page range and message, in part order. */
  lemma {:induction false} DriveRecordsFailures(parts: seq<seq<PageJson>>, runs: seq<UseCaseRun>, partCanceled: nat -> bool, k: nat)
    requires k <= |parts| == |runs|
    requires DriveParts(parts, runs, partCanceled, k).stop == Running
    ensures DriveParts(parts, runs, partCanceled, k).failed == FailedParts(parts, runs, k)
  {
    if k > 0 {
      assert DriveParts(parts, runs, partCanceled, k - 1).stop == Running;
      DriveRecordsFailures(parts, runs, partCanceled, k - 1);
    }
  }

  /** The description starts with "Complete summary" exactly when no part
      failed. */
  lemma {:induction false} DescriptionSaysComplete(totalParts: int, failedCount: int)
    ensures StartsWith(PartsDescription(totalParts, failedCount), COMPLETE_PREFIX) <==> failedCount == 0
  {
    var desc := PartsDescription(totalParts, failedCount);
    if failedCount == 0 {
      assert desc[..|COMPLETE_PREFIX|] == COMPLETE_PREFIX;
    } else {
      assert desc[0] == '\U{26A0}' != COMPLETE_PREFIX[0];
    }
  }

  /** What the loop's end leaves on screen, given the loop's and the
      screen's invariants. */
  lemma {:induction false} ConcludeOutcome(doc: DocumentJson, t: Drive, screen: Screen, totalParts: int, d: DriverEnv)
    requires DriveSane(t, ExtractTitle(doc), totalParts)
    requires ScreenMatches(screen, t)
    ensures var s := Conclude(doc, t, screen, totalParts, d);
      && (t.stop == Running && t.topics != [] ==>
            && s.LearningPathGenerated?
            && s.learningPath.documentId == doc.documentId
            && s.learningPath.title == ExtractTitle(doc)
            && s.learningPath.topics == t.topics
            && (StartsWith(s.learningPath.description, COMPLETE_PREFIX) <==> t.failed == [])
            && |t.failed| < totalParts)
      && (t.stop == Running && t.topics == [] ==> s.Error?)
      && (t.stop == CanceledByUser ==> s == Canceled(CANCELED_MESSAGE))
  {
    DescriptionSaysComplete(totalParts, |t.failed|);
  }

  /** The job's final state: when no part stopped it, a learning path with
      the document's id, the document's title (so the file-name fallback is
      never used), every successful part's topics in part order, and a
      description that says "Complete" exactly when no part failed and
      otherwise counts at least one processed part; or, without topics, an
      error. A cancellation reported by a part leaves the Canceled state. */
  lemma {:induction false} GenerationOutcome(doc: DocumentJson, d: DriverEnv)
    ensures var parts := DocumentParts(doc);
      var runs := PartRuns(doc, parts, d);
      var t := DriveParts(parts, runs, d.partCanceled, |parts|);
      var s := GenerationState(doc, d);
      && (t.stop == Running && t.topics != [] ==>
            && s.LearningPathGenerated?
            && s.learningPath.documentId == doc.documentId
            && s.learningPath.title == ExtractTitle(doc)
            && s.learningPath.topics == SucceededTopics(runs) != []
            && (StartsWith(s.learningPath.description, COMPLETE_PREFIX) <==> t.failed == [])
            && |t.failed| < |parts|)
      && (t.stop == Running && t.topics == [] ==> s.Error?)
      && (t.stop == CanceledByUser ==> s == Canceled(CANCELED_MESSAGE))
  {
    var parts := DocumentParts(doc);
    var runs := PartRuns(doc, parts, d);
    PartRunsSane(doc, parts, d);
    DrivenOutcome(doc, parts, runs, d);
  }

  /** GenerationOutcome for any runs that keep the use case's guarantees. */
  lemma {:induction false} DrivenOutcome(doc: DocumentJson, parts: seq<seq<PageJson>>, runs: seq<UseCaseRun>, d: DriverEnv)
    requires |parts| == |runs|
    requires forall i :: 0 <= i < |runs| ==> RunSane(runs[i], ExtractTitle(doc))
    ensures var t := DriveParts(parts, runs, d.partCanceled, |parts|);
      var s := Conclude(doc, t, ScreenParts(parts, runs, d.partCanceled, |parts|), |parts|, d);
      && (t.stop == Running && t.topics != [] ==>
            && s.LearningPathGenerated?
            && s.learningPath.documentId == doc.documentId
            && s.learningPath.title == ExtractTitle(doc)
            && s.learningPath.topics == SucceededTopics(runs) != []
            && (StartsWith(s.learningPath.description, COMPLETE_PREFIX) <==> t.failed == [])
            && |t.failed| < |parts|)
      && (t.stop == Running && t.topics == [] ==> s.Error?)
      && (t.stop == CanceledByUser ==> s == Canceled(CANCELED_MESSAGE))
  {
    var t := DriveParts(parts, runs, d.partCanceled, |parts|);
    var screen := ScreenParts(parts, runs, d.partCanceled, |parts|);
    DriveInvariant(parts, runs, d.partCanceled, ExtractTitle(doc), |parts|);
    ScreenInvariant(parts, runs, d.partCanceled, ExtractTitle(doc), |parts|);
    if t.stop == Running {
      DriveGathersParts(parts, runs, d.partCanceled, |parts|);
      assert runs[..|parts|] == runs;
    }
    ConcludeGathered(doc, t, screen, runs, |parts|, d);
  }

  /** ConcludeOutcome for a loop that gathered the topics of `runs`. */
  lemma {:induction false} ConcludeGathered(doc: DocumentJson, t: Drive, screen: Screen, runs: seq<UseCaseRun>, totalParts: int, d: DriverEnv)
    requires DriveSane(t, ExtractTitle(doc), totalParts)
    requires ScreenMatches(screen, t)
    requires t.stop == Running ==> t.topics == SucceededTopics(runs)
    ensures var s := Conclude(doc, t, screen, totalParts, d);
      && (t.stop == Running && t.topics != [] ==>
            && s.LearningPathGenerated?
            && s.learningPath.documentId == doc.documentId
            && s.learningPath.title == ExtractTitle(doc)
            && s.learningPath.topics == SucceededTopics(runs) != []
            && (StartsWith(s.learningPath.description, COMPLETE_PREFIX) <==> t.failed == [])
            && |t.failed| < totalParts)
      && (t.stop == Running && t.topics == [] ==> s.Error?)
      && (t.stop == CanceledByUser ==> s == Canceled(CANCELED_MESSAGE))
  {
    ConcludeOutcome(doc, t, screen, totalParts, d);
  }

  /** When no part stopped the job and none gave topics, the error lists
      exactly the failed parts, in part order, or is the fallback message
      when none failed. */
  lemma {:induction false} GenerationFailureMessage(doc: DocumentJson, d: DriverEnv)
    ensures var parts := DocumentParts(doc);
      var runs := PartRuns(doc, parts, d);
      var t := DriveParts(parts, runs, d.partCanceled, |parts|);
      var failed := FailedParts(parts, runs, |parts|);
      t.stop == Running && t.topics == [] ==>
        GenerationState(doc, d) ==
          Error(if failed != [] then ALL_PARTS_FAILED + Join(PartFailureLines(failed), "\n") else NO_TOPICS_MESSAGE)
  {
    var parts := DocumentParts(doc);
    var runs := PartRuns(doc, parts, d);
    var t := DriveParts(parts, runs, d.partCanceled, |parts|);
    if t.stop == Running {
      DriveRecordsFailures(parts, runs, d.partCanceled, |parts|);
    }
  }

  /** Every page of the document goes to exactly one part, in order, in
      parts of at most 200 pages. */
  lemma {:induction false} PartsCoverDocument(doc: DocumentJson)
    ensures var parts := DocumentParts(doc);
      && Concat(parts) == doc.pages
      && (forall i :: 0 <= i < |parts| ==> 0 < |parts[i]| <= PAGES_PER_PART)
      && (parts == [] <==> doc.pages == [])
  {
    ChunkedCovers(doc.pages, PAGES_PER_PART);
  }

  // ------------------------------------------------------------------
  // The view model
  // ------------------------------------------------------------------

  class UploadViewModel {
    var uiState: UploadUiState
    var currentDocument: Option<DocumentJson>
    var currentFilename: string
    /** Whether `processingJob` refers to a job. */
    var processingJob: bool

    constructor ()
      ensures uiState == Idle && currentDocument == None && currentFilename == [] && !processingJob
    {
      uiState := Idle;
      currentDocument := None;
      currentFilename := [];
      processingJob := false;
    }

    /** `onFileSelected(fileUri)`: `extract(fileUri, filename)` is what the
        extraction use case returns. A failed extraction keeps the document
        loaded before. */
    method OnFileSelected(fileUri: string, extract: (string, string) -> Result<DocumentJson>)
      modifies this
      ensures currentFilename == FileNameOf(fileUri)
      ensures var r := extract(fileUri, FileNameOf(fileUri));
        && uiState == ExtractionState(r)
        && currentDocument == (if r.Ok? then Some(r.value) else old(currentDocument))
      ensures processingJob == old(processingJob)
    {
      uiState := ExtractingContent;
      currentFilename := RemoveSuffix(SubstringAfterLast(fileUri, '/'), ".pdf") + ".pdf";
      var extractionResult := extract(fileUri, currentFilename);
      match extractionResult {
        case Ok(documentJson) =>
          currentDocument := Some(documentJson);
          if documentJson.metadata.wasTruncated && documentJson.metadata.originalTotalPages.Some? {
            uiState := Error(TruncationWarning(documentJson.metadata.originalTotalPages.value, documentJson.metadata.totalPages));
            return;
          }
          uiState := Success(ExtractionView(documentJson));
        case Err(error) =>
          uiState := Error(UserFacingErrorMessage(error, UNKNOWN_EXTRACTION_ERROR));
      }
    }

    /** One callback of the use case: `onProgress` or `onChunkSuccess`. */
    method OnCallback(partIndex: int, totalParts: int, e: UseCaseEvent, partialTopics: seq<Topic>)
      returns (partialTopics': seq<Topic>)
      modifies this
      ensures Screen(uiState, partialTopics') == OnEvent(Screen(old(uiState), partialTopics), partIndex, totalParts, e)
      ensures currentDocument == old(currentDocument) && currentFilename == old(currentFilename)
      ensures processingJob == old(processingJob)
    {
      partialTopics' := partialTopics;
      match e {
        case Progress(current, total, note) =>
          uiState := ProcessingChunks(current, total, PartLabel(partIndex, totalParts) + " - " + ProgressNoteText(note),
                                      partIndex * total + current, totalParts * total, partialTopics');
        case ChunkSucceeded(topics) =>
          partialTopics' := partialTopics' + topics;
          if uiState.ProcessingChunks? {
            uiState := uiState.(partialTopics := partialTopics');
          }
      }
    }

    /** The callbacks of one use-case run, in the order they were made. */
    method ReplayCallbacks(partIndex: int, totalParts: int, events: seq<UseCaseEvent>, partialTopics: seq<Topic>)
      returns (partialTopics': seq<Topic>)
      modifies this
      ensures Screen(uiState, partialTopics') == Replay(Screen(old(uiState), partialTopics), partIndex, totalParts, events)
      ensures currentDocument == old(currentDocument) && currentFilename == old(currentFilename)
      ensures processingJob == old(processingJob)
    {
      partialTopics' := partialTopics;
      var j := 0;
      while j < |events|
        invariant 0 <= j <= |events|
        invariant Screen(uiState, partialTopics') == Replay(Screen(old(uiState), partialTopics), partIndex, totalParts, events[..j])
        invariant currentDocument == old(currentDocument) && currentFilename == old(currentFilename)
        invariant processingJob == old(processingJob)
      {
        assert events[..j + 1][..j] == events[..j];
        partialTopics' := OnCallback(partIndex, totalParts, events[j], partialTopics');
        j := j + 1;
      }
      assert events[..j] == events;
    }

    /** The body of the part loop for part `partIndex`, once
        `ensureActive()` let it through. */
    method ProcessPart(doc: DocumentJson, parts: seq<seq<PageJson>>, partIndex: nat, d: DriverEnv,
                       partialTopics: seq<Topic>, allTopics: seq<Topic>, title: Option<string>, failedParts: seq<PartFailure>)
      returns (partialTopics': seq<Topic>, t: Drive)
      requires partIndex < |parts|
      modifies this
      ensures var run := PartRuns(doc, parts, d)[partIndex];
        && t == PartStep(Drive(allTopics, title, failedParts, Running), partIndex, |parts|, parts[partIndex], run)
        && Screen(uiState, partialTopics') == PartScreen(Screen(old(uiState), partialTopics), partIndex, |parts|, run)
      ensures currentDocument == old(currentDocument) && currentFilename == old(currentFilename)
      ensures processingJob == old(processingJob)
    {
      var events, result := ProcessDocumentInChunks(doc, Some(parts[partIndex]), PartEnv(d, partIndex));
      partialTopics' := ReplayCallbacks(partIndex, |parts|, events, partialTopics);
      match result {
        case Ok(learningPath) =>
          var title' := if title.None? then Some(learningPath.title) else title;
          t := Drive(allTopics + learningPath.topics, title', failedParts, Running);
        case Err(error) =>
          if IsCancellation(error.kind) {
            uiState := Canceled(CANCELED_MESSAGE);
            t := Drive(allTopics, title, failedParts, CanceledByUser);
          } else {
            var part := parts[partIndex];
            var failure := PartFailure(partIndex, |parts|, PartStartPage(part, partIndex), PartEndPage(part, partIndex), error.message);
            t := Drive(allTopics, title, failedParts + [failure], Running);
          }
      }
    }

    /** `onGenerateLearningPath()`, with the launched job run to its end. */
    method OnGenerateLearningPath(d: DriverEnv)
      modifies this
      ensures old(currentDocument).None? ==> uiState == Error(NO_DOCUMENT_MESSAGE) && processingJob == old(processingJob)
      ensures old(currentDocument).Some? ==> uiState == GenerationState(old(currentDocument).value, d) && processingJob
      ensures currentDocument == old(currentDocument) && currentFilename == old(currentFilename)
    {
      if currentDocument.None? {
        uiState := Error(NO_DOCUMENT_MESSAGE);
        return;
      }
      var doc := currentDocument.value;
      processingJob := true;
      var partialTopics: seq<Topic> := [];
      var t := Drive([], None, [], Running);
      uiState := GeneratingLearningPath;
      var parts := Chunked(doc.pages, PAGES_PER_PART);
      ghost var runs := PartRuns(doc, parts, d);
      var partIndex := 0;
      while partIndex < |parts| && t.stop == Running
        invariant 0 <= partIndex <= |parts|
        invariant t == DriveParts(parts, runs, d.partCanceled, partIndex)
        invariant Screen(uiState, partialTopics) == ScreenParts(parts, runs, d.partCanceled, partIndex)
        invariant currentDocument == old(currentDocument) && currentFilename == old(currentFilename) && processingJob
      {
        partialTopics, t := NextPart(doc, parts, partIndex, d, partialTopics, t);
        partIndex := partIndex + 1;
      }
      if t.stop != Running {
        StoppedStaysStopped(parts, runs, d.partCanceled, partIndex);
        return;
      }
      FinishGeneration(doc, parts, d, t);
    }

    /** One turn of the part loop: `ensureActive()`, then the part. */
    method NextPart(doc: DocumentJson, parts: seq<seq<PageJson>>, partIndex: nat, d: DriverEnv,
                    partialTopics: seq<Topic>, t: Drive)
      returns (partialTopics': seq<Topic>, t': Drive)
      requires partIndex < |parts| && t.stop == Running
      requires t == DriveParts(parts, PartRuns(doc, parts, d), d.partCanceled, partIndex)
      requires Screen(uiState, partialTopics) == ScreenParts(parts, PartRuns(doc, parts, d), d.partCanceled, partIndex)
      modifies this
      ensures t' == DriveParts(parts, PartRuns(doc, parts, d), d.partCanceled, partIndex + 1)
      ensures Screen(uiState, partialTopics') == ScreenParts(parts, PartRuns(doc, parts, d), d.partCanceled, partIndex + 1)
      ensures currentDocument == old(currentDocument) && currentFilename == old(currentFilename)
      ensures processingJob == old(processingJob)
    {
      if d.partCanceled(partIndex) {
        partialTopics', t' := partialTopics, t.(stop := JobStopped);
      } else {
        partialTopics', t' := ProcessPart(doc, parts, partIndex, d, partialTopics, t.topics, t.title, t.failed);
      }
    }

    /** What the job does after the part loop ran to its end. */
    method FinishGeneration(doc: DocumentJson, parts: seq<seq<PageJson>>, d: DriverEnv, t: Drive)
      requires t.stop == Running
      modifies this
      ensures uiState == Conclude(doc, t, Screen(old(uiState), []), |parts|, d)
      ensures currentDocument == old(currentDocument) && currentFilename == old(currentFilename)
      ensures processingJob == old(processingJob)
    {
      if t.topics == [] {
        uiState := Error(if t.failed != [] then ALL_PARTS_FAILED + Join(PartFailureLines(t.failed), "\n") else NO_TOPICS_MESSAGE);
        return;
      }
      var title := if t.title.Some? then t.title.value else RemoveSuffix(doc.filename, ".pdf");
      uiState := LearningPathGenerated(LearningPath(d.pathId, doc.documentId, title,
                                                    PartsDescription(|parts|, |t.failed|), t.topics, d.now));
    }

    /** `onCancelProcessing()`. */
    method OnCancelProcessing()
      modifies this
      ensures uiState == Canceled(CANCELED_MESSAGE) && !processingJob
      ensures currentDocument == old(currentDocument) && currentFilename == old(currentFilename)
    {
      processingJob := false;
      uiState := Canceled(CANCELED_MESSAGE);
    }

    /** `onFileSelectionCanceled()`: only a file selection in progress goes
        back to Idle. */
    method OnFileSelectionCanceled()
      modifies this
      ensures old(uiState).SelectingFile? ==> uiState == Idle
      ensures !old(uiState).SelectingFile? ==> uiState == old(uiState)
      ensures currentDocument == old(currentDocument) && currentFilename == old(currentFilename)
      ensures processingJob == old(processingJob)
    {
      if uiState.SelectingFile? {
        uiState := Idle;
      }
    }

    /** `resetState()`. */
    method ResetState()
      modifies this
      ensures uiState == Idle && currentDocument == None && currentFilename == []
      ensures processingJob == old(processingJob)
    {
      uiState := Idle;
      currentDocument := None;
      currentFilename := [];
    }

    /** `onErrorDismissed()`. */
    method OnErrorDismissed()
      modifies this
      ensures uiState == Idle
      ensures currentDocument == old(currentDocument) && currentFilename == old(currentFilename)
      ensures processingJob == old(processingJob)
    {
      uiState := Idle;
    }
  }
}
