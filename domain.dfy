/** The values the app passes around: extracted documents, chunks, topics,
    learning paths, quizzes, the remote service's response shapes, and the
    exceptions the Kotlin code throws or wraps in `Result.failure`. */
module Domain {

  datatype Option<+T> = None | Some(value: T) {
    function GetOr(default: T): T {
      match this
      case Some(v) => v
      case None => default
    }
  }

  /** The kinds of exception the core distinguishes with `is` checks. */
  datatype ErrorKind =
    | RateLimit              // GeminiApiClient.RateLimitException
    | IllegalState           // IllegalStateException
    | IllegalArgument        // IllegalArgumentException
    | TimeoutCancellation    // kotlinx TimeoutCancellationException (a CancellationException)
    | Cancellation           // kotlinx CancellationException (job cancelled)
    | Generic                // any other Exception (I/O, serialization, plain Exception(msg))

  /** A thrown exception: its class and its message, `None` when
      `Throwable.message` is null. */
  datatype Failure = Failure(kind: ErrorKind, message: Option<string>)

  /** A message written into a Kotlin string template (`"${error.message}"`):
      a null message prints as "null". */
  function TemplateText(message: Option<string>): string {
    message.GetOr("null")
  }

  /** Kotlin's `Result<T>`. */
  datatype Result<+T> = Ok(value: T) | Err(error: Failure)

  /** `error is CancellationException` holds for both cancellation classes. */
  predicate IsCancellation(kind: ErrorKind) {
    kind == Cancellation || kind == TimeoutCancellation
  }

  // ---- the extracted document ----

  datatype PageJson = PageJson(pageNumber: int, content: string, wordCount: int)

  /** `wasTruncated` and `originalTotalPages` are read by the upload screen's
      view model but have no producer in the extraction use case, which leaves
      them at their defaults (false, none). */
  datatype DocumentMetadata = DocumentMetadata(
    totalPages: int,
    totalCharacters: int,
    totalWords: int,
    extractedAt: int,
    processingMethod: string,
    wasTruncated: bool,
    originalTotalPages: Option<int>)

  datatype DocumentJson = DocumentJson(
    documentId: string,
    filename: string,
    pages: seq<PageJson>,
    metadata: DocumentMetadata)

  datatype ContentChunk = ContentChunk(
    chunkIndex: int,
    startPage: int,
    endPage: int,
    pages: seq<PageJson>,
    totalCharacters: int)

  datatype PageContent = PageContent(pageNumber: int, text: string)

  datatype PdfExtractionResult = PdfExtractionResult(
    text: string,
    totalPages: int,
    pages: seq<PageContent>,
    wasTruncated: bool,
    originalTotalPages: Option<int>)

  // ---- learning paths and quizzes ----

  datatype Topic = Topic(id: string, title: string, content: string, pageNumbers: seq<int>, order: int)

  datatype LearningPath = LearningPath(
    id: string,
    documentId: string,
    title: string,
    description: string,
    topics: seq<Topic>,
    createdAt: int)

  datatype Question = Question(id: string, text: string, options: seq<string>, correctAnswer: int, explanation: string)

  datatype Quiz = Quiz(id: string, topicId: string, questions: seq<Question>)

  // ---- what the remote service answers ----

  datatype TopicResponse = TopicResponse(
    title: string,
    description: string,
    content: string,
    keyPoints: seq<string>,
    estimatedMinutes: int)

  datatype LearningPathResponse = LearningPathResponse(title: string, description: string, topics: seq<TopicResponse>)

  datatype QuestionResponse = QuestionResponse(question: string, options: seq<string>, correctAnswer: int, explanation: string)

  datatype QuizResponse = QuizResponse(questions: seq<QuestionResponse>)

  /** The envelope of a generateContent answer; `error` is read by the client
      although the Kotlin response class does not declare it. */
  datatype ApiError = ApiError(code: int, message: string)
  datatype Part = Part(text: string)
  datatype Content = Content(parts: seq<Part>, role: string)
  datatype Candidate = Candidate(content: Content)
  datatype GeminiResponse = GeminiResponse(error: Option<ApiError>, candidates: Option<seq<Candidate>>)
}
