# Learnify core in Dafny

Learnify is a Kotlin Multiplatform app. It turns a PDF into a learning path: an ordered list of topics produced by the Gemini
content-generation API. It also quizzes the learner on each topic. This project models the app's core and proves
properties of the model:

- **Chunk pipeline** (`chunking.dfy`, `pipeline.dfy`). `ProcessDocumentInChunksUseCase` works in four steps:
  - It filters out irrelevant pages and packs the rest greedily into chunks of at most 15 pages and 120 000 characters.
  - It runs each chunk through a retry loop. Time-outs and rate limits are retried with doubling back-offs.
  - It records failed chunks and keeps going.
  - It combines the topics into one learning path, or fails when no chunk produced any.
- **Gemini client** (`gemini.dfy`). `generateContent` retries a non-quota 429 after 10, 20 and 40 seconds. It maps the
  other failures to `IllegalStateException`. `parseResponse` checks the response in a fixed order. The prompts are
  sized by their content length or page count, and the entry points turn every exception into a failed `Result`.
- **Upload screen** (`upload.dfy`). `UploadViewModel` selects a file, extracts it and splits it into parts of 200
  pages. It runs the chunk pipeline on each part and streams the partial topics to the screen. It distinguishes
  cancellation, failed parts and total failure, and gives the user an error message chosen by priority.
- **Quiz and learning-path screens** (`quiz.dfy`, `learning_path.dfy`). These are the two view-model state machines,
  plus the derived getters of `LearningPathUiState`.
- **Use cases and mappers** (`usecases.dfy`, `mappers.dfy`). These cover:
  - the input guards and validators of quiz and learning-path generation;
  - PDF-to-JSON extraction, including the `split(Regex("\\s+"))` word count;
  - the response-to-domain mappers.
- **Storage** (`storage.dfy`). The Android and iOS `LearningPathStorage` keep the saved paths under one key. A save
  replaces any path with the same id and appends the new path last.

The oracles are parameters. They are the service's answer per request, cancellation checkpoints, the extractor's
results, identifiers and clock readings. `domain.dfy` holds the data model and `text.dfy` the string functions the
source relies on: Kotlin `isBlank`/`trim`, `lowercase`, `contains(ignoreCase)`, `lines()` and `joinToString`.

Four behaviours of the code are easy to miss:

- The chunk retry loop returns the last retryable failure unchanged once its three retries are used up. It does not
  turn it into a distinct fatal outcome (`Pipeline.RetryOutcomes`).
- A cancelled generation shows `Canceled` and discards the partial topics. No result is kept.
- Topic `order` is `chunkIndex * 100 + localIndex`. Chunk indices restart in every 200-page part, so orders repeat
  across parts. They do not order the whole document.
- The chunk use case takes its title from the whole document and not from the part it is given. So every successful
  part reports the same title, and the view model's fallback to the file name is never reached
  (`Upload.GenerationOutcome`).

## Model

| member | source | states |
|---|---|---|
| Chunking.KeepRelevantOrdered | composeApp/src/commonMain/kotlin/org/example/learnify/domain/usecase/ProcessDocumentInChunksUseCase.kt:138-161 | the pages kept by the filter stand in their original order (a subsequence of the input) |
| Chunking.KeepRelevantSound | composeApp/src/commonMain/kotlin/org/example/learnify/domain/usecase/ProcessDocumentInChunksUseCase.kt:138-161 | every kept page is neither too short (under 50 trimmed characters) nor a short page (under 200) opening with an irrelevant keyword |
| Chunking.KeepRelevantComplete | composeApp/src/commonMain/kotlin/org/example/learnify/domain/usecase/ProcessDocumentInChunksUseCase.kt:138-161 | every page that passes both tests is kept, as many times as it occurs among the pages, and no other page is kept |
| Chunking.FilterRelevantPages | composeApp/src/commonMain/kotlin/org/example/learnify/domain/usecase/ProcessDocumentInChunksUseCase.kt:137-171 | the result is a subsequence of the pages; when fewer than 30% survive the filter the input comes back unchanged, so at least 30% are always kept; otherwise the result is exactly the pages that pass both tests |
| Chunking.ChunksOfCorrect | composeApp/src/commonMain/kotlin/org/example/learnify/domain/usecase/ProcessDocumentInChunksUseCase.kt:176-221 | the chunks' pages concatenated are the input in order; each chunk is non-empty, has its position as index, its first and last page numbers, the sum of its lengths, at most 15 pages and at most 120 000 characters unless it is a single page; a chunk is closed only when the next page does not fit; no pages give no chunks and vice versa |
| Chunking.ShortPagesGiveFullChunks | composeApp/src/commonMain/kotlin/org/example/learnify/domain/usecase/ProcessDocumentInChunksUseCase.kt:200-216 | when no page exceeds 8 000 characters every chunk but the last holds exactly 15 pages |
| Chunking.MaximalShortChunksAreFull | composeApp/src/commonMain/kotlin/org/example/learnify/domain/usecase/ProcessDocumentInChunksUseCase.kt:200-216 | in any well-formed, maximal chunking of pages of at most 8 000 characters, every chunk but the last holds 15 pages |
| Chunking.CreateChunks | composeApp/src/commonMain/kotlin/org/example/learnify/domain/usecase/ProcessDocumentInChunksUseCase.kt:176-221 | the loop with its pending list and character counter produces exactly the chunks of the greedy packing |
| Chunking.FlushChunk | composeApp/src/commonMain/kotlin/org/example/learnify/domain/usecase/ProcessDocumentInChunksUseCase.kt:181-198 | with pages pending it appends one chunk holding exactly those pages and empties the pending list; with none it changes nothing |
| Chunking.ChunkContentEmbedsPage | composeApp/src/commonMain/kotlin/org/example/learnify/domain/usecase/ProcessDocumentInChunksUseCase.kt:301-312 | every page's text appears whole in the chunk text, right after the chunk header, the earlier pages' blocks and its own page header |
| Chunking.FirstNonBlankLine | composeApp/src/commonMain/kotlin/org/example/learnify/domain/usecase/ProcessDocumentInChunksUseCase.kt:323-325 | finds the first non-blank line, every line before it being blank, and finds none exactly when every line is blank |
| Chunking.ExtractTitle | composeApp/src/commonMain/kotlin/org/example/learnify/domain/usecase/ProcessDocumentInChunksUseCase.kt:317-330 | the title is the first min(length, 100) characters of the first page's first non-blank line, or the file name without ".pdf" when there is none |
| Pipeline.IntRange | composeApp/src/commonMain/kotlin/org/example/learnify/domain/usecase/ProcessDocumentInChunksUseCase.kt:247 | `(start..end).toList()`: the consecutive integers from start to end, empty when start > end |
| Pipeline.ChunkTopicsFaithful | composeApp/src/commonMain/kotlin/org/example/learnify/domain/usecase/ProcessDocumentInChunksUseCase.kt:241-250 | topic i of a chunk has the response's title, content exactly its description, a blank line and its content, the page list `(startPage..endPage).toList()` (page startPage+j at position j) and order chunkIndex*100+i |
| Pipeline.RetryOutcomes | composeApp/src/commonMain/kotlin/org/example/learnify/domain/usecase/ProcessDocumentInChunksUseCase.kt:254-295 | at most 4 attempts; every attempt but the last failed with a time-out or rate limit and its wait was not cancelled; the returned result is the last attempt's, and a retryable failure is returned only after the retries are used up; one progress notice per back-off |
| Pipeline.RetryNotices | composeApp/src/commonMain/kotlin/org/example/learnify/domain/usecase/ProcessDocumentInChunksUseCase.kt:275-287 | each notice names the next attempt number and follows a retryable failure whose kind (time-out or rate limit) it reports |
| Pipeline.RetryNoticeAt | composeApp/src/commonMain/kotlin/org/example/learnify/domain/usecase/ProcessDocumentInChunksUseCase.kt:275-287 | notice `j` of a run starting at attempt `a` announces attempt `a + j + 1` and follows a retryable failure of attempt `a + j` of the kind it names |
| Pipeline.RetryDelays | composeApp/src/commonMain/kotlin/org/example/learnify/domain/usecase/ProcessDocumentInChunksUseCase.kt:279-289 | the announced waits double from the base delay |
| Pipeline.RetrySchedule | composeApp/src/commonMain/kotlin/org/example/learnify/domain/usecase/ProcessDocumentInChunksUseCase.kt:254-295 | from the start: 1 to 4 attempts, waits of 15, 30 and 60 seconds announced as attempts 1, 2, 3; a non-retryable first outcome is returned at once; a returned failure is the last attempt's and is either non-retryable or the fourth |
| Pipeline.RetryLoopStep | composeApp/src/commonMain/kotlin/org/example/learnify/domain/usecase/ProcessDocumentInChunksUseCase.kt:276-291 | a retried attempt whose back-off is not cancelled moves its notice into the notices handed out and keeps the loop on track with the next attempt and the doubled, capped delay |
| Pipeline.RetryLoopEnd | composeApp/src/commonMain/kotlin/org/example/learnify/domain/usecase/ProcessDocumentInChunksUseCase.kt:271-294 | a success, a failure that is not retried and a cancelled back-off each end the run with the notices so far and that attempt's outcome |
| Pipeline.ProcessChunkWithRetry | composeApp/src/commonMain/kotlin/org/example/learnify/domain/usecase/ProcessDocumentInChunksUseCase.kt:254-295 | the while loop over `attempt` and `delayMs` yields the notices, end and attempt count of the retry specification |
| Pipeline.ChunkProgress | composeApp/src/commonMain/kotlin/org/example/learnify/domain/usecase/ProcessDocumentInChunksUseCase.kt:69-78 | a chunk makes one report more than it has retry notices, all as chunk index+1 of the chunk count |
| Pipeline.ChunkProgressNotes | composeApp/src/commonMain/kotlin/org/example/learnify/domain/usecase/ProcessDocumentInChunksUseCase.kt:69-78 | the first report announces the chunk with its page range, and report j+1 relays retry notice j |
| Pipeline.FinishCombines | composeApp/src/commonMain/kotlin/org/example/learnify/domain/usecase/ProcessDocumentInChunksUseCase.kt:94-125 | the run succeeds exactly when it was not cancelled and produced topics, and the path then carries the document id, the extracted title, a description counting the failed chunks and all topics |
| Pipeline.FinishFailures | composeApp/src/commonMain/kotlin/org/example/learnify/domain/usecase/ProcessDocumentInChunksUseCase.kt:94-129 | a cancelled run fails with the cancellation; without topics the failure reads "Todos los chunks fallaron:" and then one line per failed chunk, joined by newlines, a null exception message printing as "null", or "No se pudieron generar temas del documento" when no chunk failed |
| Pipeline.ProcessChunkAt | composeApp/src/commonMain/kotlin/org/example/learnify/domain/usecase/ProcessDocumentInChunksUseCase.kt:68-91 | one chunk's progress reports, retry loop and success or failure bookkeeping update the accumulators as the fold step does |
| Pipeline.VisitChunk | composeApp/src/commonMain/kotlin/org/example/learnify/domain/usecase/ProcessDocumentInChunksUseCase.kt:66-92 | one iteration of `forEachIndexed`, including `ensureActive()`, advances the accumulators from chunk k to k+1 |
| Pipeline.RunChunksLoop | composeApp/src/commonMain/kotlin/org/example/learnify/domain/usecase/ProcessDocumentInChunksUseCase.kt:63-92 | the loop leaves `allTopics`, `failedChunks`, the reports and the cancellation flag as the fold over all chunks |
| Pipeline.ProcessDocumentInChunks | composeApp/src/commonMain/kotlin/org/example/learnify/domain/usecase/ProcessDocumentInChunksUseCase.kt:42-131 | `invoke` computes the reports and result of the specification: pages override or filtered pages, chunks, loop, combination |
| Pipeline.CanceledStaysCanceled | composeApp/src/commonMain/kotlin/org/example/learnify/domain/usecase/ProcessDocumentInChunksUseCase.kt:66-67 | once the job is found cancelled, the remaining chunks change nothing |
| Pipeline.ProcessOneStreams | composeApp/src/commonMain/kotlin/org/example/learnify/domain/usecase/ProcessDocumentInChunksUseCase.kt:82-85 | a chunk's `onChunkSuccess` streams exactly the topics it adds to `allTopics` |
| Pipeline.RunChunksStreams | composeApp/src/commonMain/kotlin/org/example/learnify/domain/usecase/ProcessDocumentInChunksUseCase.kt:82-85 | the topics streamed through `onChunkSuccess` are exactly `allTopics`, in order |
| Pipeline.RunChunksCounts | composeApp/src/commonMain/kotlin/org/example/learnify/domain/usecase/ProcessDocumentInChunksUseCase.kt:82-91 | every processed chunk either succeeds once or adds one failure; without cancellation they account for every chunk |
| Pipeline.RunChunksFailures | composeApp/src/commonMain/kotlin/org/example/learnify/domain/usecase/ProcessDocumentInChunksUseCase.kt:82-91 | unless the job was cancelled, `failedChunks` holds exactly the chunks whose retry loop gave up, in chunk order, each with its index, page range and error message |
| Pipeline.RunChunksTopics | composeApp/src/commonMain/kotlin/org/example/learnify/domain/usecase/ProcessDocumentInChunksUseCase.kt:66-83 | unless the job was cancelled, `allTopics` is exactly the concatenation of the topics of the chunks whose retry loop succeeded, in chunk order; a failed chunk adds nothing |
| Pipeline.RunChunksProgress | composeApp/src/commonMain/kotlin/org/example/learnify/domain/usecase/ProcessDocumentInChunksUseCase.kt:69-78 | every progress report counts between 1 and the chunks processed so far, out of the chunk count |
| Pipeline.ProcessChunksOutcome | composeApp/src/commonMain/kotlin/org/example/learnify/domain/usecase/ProcessDocumentInChunksUseCase.kt:94-125 | a success holds exactly the streamed topics, at least one, which are the succeeded chunks' topics in chunk order, the extracted title and the document id; a failure is the cancellation, or, with nothing streamed, the message listing every chunk that gave up (the fallback message when none did) |
| Pipeline.OmittedSectionsCounted | composeApp/src/commonMain/kotlin/org/example/learnify/domain/usecase/ProcessDocumentInChunksUseCase.kt:114-119 | the description counts as omitted exactly the chunks that did not succeed |
| Pipeline.EmptyDocumentFails | composeApp/src/commonMain/kotlin/org/example/learnify/domain/usecase/ProcessDocumentInChunksUseCase.kt:95-102 | no pages to process give no reports and the "no topics" failure |
| Pipeline.AllChunksSucceed | composeApp/src/commonMain/kotlin/org/example/learnify/domain/usecase/ProcessDocumentInChunksUseCase.kt:106-119 | when every chunk succeeds the path's description mentions no omitted sections |
| Gemini.GenerateContentEnds | composeApp/src/commonMain/kotlin/org/example/learnify/data/remote/GeminiApiClient.kt:102-180 | a call makes 1 to 4 requests; it ends either cancelled in a wait or on the last request's outcome, which is not a retryable 429 |
| Gemini.GenerateContentBackoffs | composeApp/src/commonMain/kotlin/org/example/learnify/data/remote/GeminiApiClient.kt:144-149 | each wait is 10·2^retryCount seconds and follows a 429 without "quota" |
| Gemini.GenerateContentNotCanceled | composeApp/src/commonMain/kotlin/org/example/learnify/data/remote/GeminiApiClient.kt:148-149 | every wait before the last request completed |
| Gemini.RateLimitComesFrom429 | composeApp/src/commonMain/kotlin/org/example/learnify/data/remote/GeminiApiClient.kt:129-163 | a rate-limit failure comes from a final 429 or from a rate-limit exception rethrown as it is |
| Gemini.RateLimitSchedule | composeApp/src/commonMain/kotlin/org/example/learnify/data/remote/GeminiApiClient.kt:144-153 | at most 4 requests and the waits are 10, 20, 40 seconds |
| Gemini.TransientLimitExhausted | composeApp/src/commonMain/kotlin/org/example/learnify/data/remote/GeminiApiClient.kt:144-153 | four transient 429s wait 10, 20 and 40 seconds and end in the "límite de peticiones excedido" rate limit |
| Gemini.QuotaIsFatal | composeApp/src/commonMain/kotlin/org/example/learnify/data/remote/GeminiApiClient.kt:129-142 | a 429 whose body mentions quota ends the call at once with the quota rate-limit failure |
| Gemini.OtherFailuresAreIllegalState | composeApp/src/commonMain/kotlin/org/example/learnify/data/remote/GeminiApiClient.kt:157-175 | any other error status and the three time-outs fail at once as illegal state, an error status with "HTTP status: reason" and the body |
| Gemini.QuotaTestSubsumed | composeApp/src/commonMain/kotlin/org/example/learnify/data/remote/GeminiApiClient.kt:131-132 | the second quota test adds nothing: the body matches exactly when it contains "quota" |
| Gemini.ParseResponseOrder | composeApp/src/commonMain/kotlin/org/example/learnify/data/remote/GeminiApiClient.kt:185-214 | parsing fails as illegal state on an error field, then on missing candidates, then on a missing part, whatever the decoder; otherwise it succeeds exactly when the first part's text decodes, with that value |
| Gemini.TrimmedContent | composeApp/src/commonMain/kotlin/org/example/learnify/data/remote/GeminiApiClient.kt:219-224 | content up to 500 000 characters is kept; longer content is cut to its first 500 000 plus the truncation marker |
| Gemini.PathPromptSizing | composeApp/src/commonMain/kotlin/org/example/learnify/data/remote/GeminiApiClient.kt:216-228 | the prompt content starts with the first 500 000 characters and the topic count is between 10 and 50, one per 10 000 characters, 50 for truncated content |
| Gemini.ChunkPromptSizing | composeApp/src/commonMain/kotlin/org/example/learnify/data/remote/GeminiApiClient.kt:359-361 | a chunk asks for pageCount/5 topics clamped to 4..12, hence 4 for chunks of up to 24 pages |
| Gemini.CallAndParse | composeApp/src/commonMain/kotlin/org/example/learnify/data/remote/GeminiApiClient.kt:57-64 | a failed call is returned as its failure, otherwise the response is parsed |
| Gemini.EntryPointOutcomes | composeApp/src/commonMain/kotlin/org/example/learnify/data/remote/GeminiApiClient.kt:71-87 | the chunk entry point never throws: a call failure comes back unchanged, and a failed check on a response comes back as illegal state |
| Upload.ErrorMessagePriority | composeApp/src/commonMain/kotlin/org/example/learnify/presentation/upload/UploadViewModel.kt:289-314 | rate limit, "quota" or "429" give the quota notice; otherwise "timeout" gives the time-out notice; otherwise "connect" gives the connection notice; otherwise the message, or the fallback when it is empty or null |
| Upload.FileNameOf | composeApp/src/commonMain/kotlin/org/example/learnify/presentation/upload/UploadViewModel.kt:44 | the file name ends in ".pdf" and holds no "/" |
| Upload.FileNameKeepsLastSegment | composeApp/src/commonMain/kotlin/org/example/learnify/presentation/upload/UploadViewModel.kt:44 | the name is the last path segment, with ".pdf" added only when missing, and naming is idempotent |
| Upload.ExtractionViewFaithful | composeApp/src/commonMain/kotlin/org/example/learnify/presentation/upload/UploadViewModel.kt:86-97 | the extraction shown carries the document's pages one for one, its page count and its truncation fields |
| Upload.ExtractionStateCases | composeApp/src/commonMain/kotlin/org/example/learnify/presentation/upload/UploadViewModel.kt:63-109 | a successful, untruncated extraction shows Success with that view; a truncated one or a failure shows a non-empty error |
| Upload.ChunkedCovers | composeApp/src/commonMain/kotlin/org/example/learnify/presentation/upload/UploadViewModel.kt:138 | `chunked(size)` pieces concatenate to the list, are non-empty, at most size long, all but the last full |
| Upload.ChunkedPieceAt | composeApp/src/commonMain/kotlin/org/example/learnify/presentation/upload/UploadViewModel.kt:138-145 | piece i is the slice starting at size·i |
| Upload.PartsCoverDocument | composeApp/src/commonMain/kotlin/org/example/learnify/presentation/upload/UploadViewModel.kt:35-139 | the 200-page parts cover the document in order, and there are none only for a document without pages |
| Upload.PartProgressBounded | composeApp/src/commonMain/kotlin/org/example/learnify/presentation/upload/UploadViewModel.kt:152-153 | overall progress (partIndex + current/total)/totalParts stays within (0, 1] |
| Upload.ReplayStreams | composeApp/src/commonMain/kotlin/org/example/learnify/presentation/upload/UploadViewModel.kt:151-173 | the callbacks append exactly the streamed topics to `partialTopics` and a shown chunk state always displays them |
| Upload.PartRunsSane | composeApp/src/commonMain/kotlin/org/example/learnify/presentation/upload/UploadViewModel.kt:149-176 | every part's run streams what its path holds, reports counts within totals, and carries the document's title |
| Upload.DriveInvariant | composeApp/src/commonMain/kotlin/org/example/learnify/presentation/upload/UploadViewModel.kt:141-197 | a title is set exactly when topics were gathered, it is the use case's title, and some part succeeded whenever there are topics |
| Upload.ScreenInvariant | composeApp/src/commonMain/kotlin/org/example/learnify/presentation/upload/UploadViewModel.kt:141-197 | the streamed partial topics equal the gathered topics unless the job was cancelled, which shows Canceled |
| Upload.StoppedStaysStopped | composeApp/src/commonMain/kotlin/org/example/learnify/presentation/upload/UploadViewModel.kt:184-190 | after a cancellation the remaining parts change nothing |
| Upload.DriveGathersParts | composeApp/src/commonMain/kotlin/org/example/learnify/presentation/upload/UploadViewModel.kt:178-197 | a running job has gathered the successful parts' topics in order, and no earlier part was cancelled |
| Upload.DriveRecordsFailures | composeApp/src/commonMain/kotlin/org/example/learnify/presentation/upload/UploadViewModel.kt:184-197 | a running job has recorded in `failedParts` exactly the parts whose run failed, in part order, with position, page range and message |
| Upload.DescriptionSaysComplete | composeApp/src/commonMain/kotlin/org/example/learnify/presentation/upload/UploadViewModel.kt:213-219 | the description starts with "Complete summary in" exactly when no part failed |
| Upload.ConcludeOutcome | composeApp/src/commonMain/kotlin/org/example/learnify/presentation/upload/UploadViewModel.kt:200-240 | given the loop's and the screen's invariants, the final state is the learning path (document id, the parts' title, the gathered topics, a "complete" description exactly when no part failed); without topics an Error; or Canceled |
| Upload.GenerationOutcome | composeApp/src/commonMain/kotlin/org/example/learnify/presentation/upload/UploadViewModel.kt:200-240 | with topics the job shows the path with the document id, the use case's title, all successful topics and a "complete" description exactly when no part failed; without topics an Error; a cancellation gives Canceled |
| Upload.GenerationFailureMessage | composeApp/src/commonMain/kotlin/org/example/learnify/presentation/upload/UploadViewModel.kt:184-210 | when no part stopped the job and none gave topics, the Error reads "Todas las partes fallaron:" followed by one line per failed part (position, page range, message, "null" for a null message) in part order, or "No se pudieron generar temas del documento" when no part failed |
| Upload.UploadViewModel.constructor | composeApp/src/commonMain/kotlin/org/example/learnify/presentation/upload/UploadViewModel.kt:29-34 | starts Idle with no document, no file name and no job |
| Upload.UploadViewModel.OnFileSelected | composeApp/src/commonMain/kotlin/org/example/learnify/presentation/upload/UploadViewModel.kt:37-117 | records the file name, stores a successfully extracted document (even a truncated one) and shows the extraction state |
| Upload.UploadViewModel.ReplayCallbacks | composeApp/src/commonMain/kotlin/org/example/learnify/presentation/upload/UploadViewModel.kt:151-173 | the `onProgress` and `onChunkSuccess` callbacks leave the state and `partialTopics` as the replay specification |
| Upload.UploadViewModel.OnCallback | composeApp/src/commonMain/kotlin/org/example/learnify/presentation/upload/UploadViewModel.kt:151-173 | one `onProgress` or `onChunkSuccess` callback moves the screen as the replay specification's step does and changes neither the document nor the job |
| Upload.UploadViewModel.ProcessPart | composeApp/src/commonMain/kotlin/org/example/learnify/presentation/upload/UploadViewModel.kt:141-197 | one part updates the loop variables and the screen as the part step |
| Upload.UploadViewModel.NextPart | composeApp/src/commonMain/kotlin/org/example/learnify/presentation/upload/UploadViewModel.kt:141-198 | one iteration, including `ensureActive()`, advances the loop variables and screen from part k to k+1 |
| Upload.UploadViewModel.FinishGeneration | composeApp/src/commonMain/kotlin/org/example/learnify/presentation/upload/UploadViewModel.kt:200-240 | shows the error or the generated path built from the loop variables |
| Upload.UploadViewModel.OnGenerateLearningPath | composeApp/src/commonMain/kotlin/org/example/learnify/presentation/upload/UploadViewModel.kt:119-242 | without a document it shows "No hay documento cargado" and starts nothing; otherwise it starts a job whose final state is the generation outcome |
| Upload.UploadViewModel.OnCancelProcessing | composeApp/src/commonMain/kotlin/org/example/learnify/presentation/upload/UploadViewModel.kt:244-248 | drops the job and shows Canceled |
| Upload.UploadViewModel.OnFileSelectionCanceled | composeApp/src/commonMain/kotlin/org/example/learnify/presentation/upload/UploadViewModel.kt:269-273 | SelectingFile becomes Idle and every other state stays |
| Upload.UploadViewModel.ResetState | composeApp/src/commonMain/kotlin/org/example/learnify/presentation/upload/UploadViewModel.kt:275-279 | Idle, with the document and file name cleared |
| Upload.UploadViewModel.OnErrorDismissed | composeApp/src/commonMain/kotlin/org/example/learnify/presentation/upload/UploadViewModel.kt:281-283 | Idle, nothing else changes |
| Mappers.TopicToDomain | composeApp/src/commonMain/kotlin/org/example/learnify/data/mapper/LearningPathMapper.kt:22-30 | keeps title and order, has no page numbers, and its content is the description, a blank line, then the content |
| Mappers.PathToDomain | composeApp/src/commonMain/kotlin/org/example/learnify/data/mapper/LearningPathMapper.kt:10-20 | copies title and document id, drops the description, and maps topic i to topic i with order i |
| Mappers.PathTopicsFaithful | composeApp/src/commonMain/kotlin/org/example/learnify/data/mapper/LearningPathMapper.kt:15-17 | topic i of the path has response topic i's title, order i, joined text and no pages |
| Mappers.PathTopicOrdersIncrease | composeApp/src/commonMain/kotlin/org/example/learnify/data/mapper/LearningPathMapper.kt:15-17 | the mapped topics' orders strictly increase |
| Mappers.QuestionToDomain | composeApp/src/commonMain/kotlin/org/example/learnify/data/mapper/QuizMapper.kt:17-25 | text is the question; options, answer index and explanation are copied |
| Mappers.QuizToDomain | composeApp/src/commonMain/kotlin/org/example/learnify/data/mapper/QuizMapper.kt:9-15 | carries the topic id and maps question i to question i |
| Mappers.QuizMapperKeepsBadAnswer | composeApp/src/commonMain/kotlin/org/example/learnify/data/mapper/QuizMapper.kt:17-25 | example: an answer index outside the options is carried over unchecked |
| UseCases.QuizGuardsPrecedeCall | composeApp/src/commonMain/kotlin/org/example/learnify/domain/usecase/GenerateQuizUseCase.kt:29-35 | blank content or a count outside 1..20 fails with IllegalArgument whatever the service would answer, and blank content is reported first |
| UseCases.QuizFollowsService | composeApp/src/commonMain/kotlin/org/example/learnify/domain/usecase/GenerateQuizUseCase.kt:37-50 | past the guards a service failure is passed on and a success is the mapped quiz for the topic, question by question |
| UseCases.MappedQuizValid | composeApp/src/commonMain/kotlin/org/example/learnify/domain/usecase/GenerateQuizUseCase.kt:56-63 | a mapped quiz is valid exactly when the response has questions, each with four options, an answer in 0..3 and non-blank text |
| UseCases.LearningPathOutcome | composeApp/src/commonMain/kotlin/org/example/learnify/domain/usecase/GenerateLearningPathUseCase.kt:21-45 | blank content fails before the service; otherwise a service failure is passed on and a success is the mapped path for the document |
| UseCases.MappedPathValid | composeApp/src/commonMain/kotlin/org/example/learnify/domain/usecase/GenerateLearningPathUseCase.kt:50-54 | a mapped path is valid exactly when it has topics and a non-blank title and no topic has both description and content blank |
| UseCases.WordPrefix | composeApp/src/commonMain/kotlin/org/example/learnify/domain/usecase/ExtractPdfToJsonUseCase.kt:47 | the longest prefix without a regex whitespace character |
| UseCases.SkipSpaces | composeApp/src/commonMain/kotlin/org/example/learnify/domain/usecase/ExtractPdfToJsonUseCase.kt:47 | the suffix left after a whitespace run |
| UseCases.SplitPiecesSpaceFree | composeApp/src/commonMain/kotlin/org/example/learnify/domain/usecase/ExtractPdfToJsonUseCase.kt:47 | no piece of `split(Regex("\\s+"))` contains whitespace |
| UseCases.SplitOnSpacesJoin | composeApp/src/commonMain/kotlin/org/example/learnify/domain/usecase/ExtractPdfToJsonUseCase.kt:47 | the pieces joined by one space give the text with every whitespace run collapsed to one space |
| UseCases.WordCountEmpty | composeApp/src/commonMain/kotlin/org/example/learnify/domain/usecase/ExtractPdfToJsonUseCase.kt:47 | example: the empty text counts one word |
| UseCases.SplitTrailingBlank | composeApp/src/commonMain/kotlin/org/example/learnify/domain/usecase/ExtractPdfToJsonUseCase.kt:47 | example: "a " splits into "a" and "" |
| UseCases.SplitLeadingAndTrailingBlank | composeApp/src/commonMain/kotlin/org/example/learnify/domain/usecase/ExtractPdfToJsonUseCase.kt:40 | example: " a " splits into "", "a" and "" |
| UseCases.ExtractionFaithful | composeApp/src/commonMain/kotlin/org/example/learnify/domain/usecase/ExtractPdfToJsonUseCase.kt:14-71 | an extractor failure is passed on; otherwise page i keeps its number and text with its piece count, and the metadata takes the extractor's page count, the text length and word count, and no truncation |
| QuizSession.QuizErrorMessage | composeApp/src/commonMain/kotlin/org/example/learnify/presentation/quiz/QuizViewModel.kt:128-134 | a rate limit gives the fixed notice, otherwise the message (even an empty one), or the fallback when the message is null |
| QuizSession.IndexSetBound | composeApp/src/commonMain/kotlin/org/example/learnify/presentation/quiz/QuizViewModel.kt:69-71 | a set of question indices below n has at most n elements, so the score never exceeds the question count |
| QuizSession.ActiveState | composeApp/src/commonMain/kotlin/org/example/learnify/presentation/quiz/QuizViewModel.kt:110-126 | shows the indexed question, no selection, not submitted, and progress (index+1)/size within (0, 1] |
| QuizSession.QuizViewModel.constructor | composeApp/src/commonMain/kotlin/org/example/learnify/presentation/quiz/QuizViewModel.kt:19-25 | Loading, no quiz, score 0, nothing answered |
| QuizSession.QuizViewModel.UpdateActiveState | composeApp/src/commonMain/kotlin/org/example/learnify/presentation/quiz/QuizViewModel.kt:110-126 | with a quiz shows its current question as active, otherwise nothing changes |
| QuizSession.QuizViewModel.GenerateQuiz | composeApp/src/commonMain/kotlin/org/example/learnify/presentation/quiz/QuizViewModel.kt:27-54 | a generated quiz resets index, score and answers and shows question 0, or Error when it has no questions; a failure shows the error message and keeps the session |
| QuizSession.QuizViewModel.OnAnswerSelected | composeApp/src/commonMain/kotlin/org/example/learnify/presentation/quiz/QuizViewModel.kt:56-61 | only an active, unsubmitted question takes the selection; nothing else changes |
| QuizSession.QuizViewModel.OnSubmitAnswer | composeApp/src/commonMain/kotlin/org/example/learnify/presentation/quiz/QuizViewModel.kt:63-78 | with a selection and not yet submitted it marks the answer submitted and scores a correct answer once per question; the score stays the number of questions answered correctly |
| QuizSession.QuizViewModel.OnNextQuestion | composeApp/src/commonMain/kotlin/org/example/learnify/presentation/quiz/QuizViewModel.kt:80-100 | advances one question while one is left; at the last it shows Completed with the score, passed exactly when 10·score ≥ 7·total |
| QuizSession.QuizViewModel.ResetQuiz | composeApp/src/commonMain/kotlin/org/example/learnify/presentation/quiz/QuizViewModel.kt:102-108 | restarts at question 0 with score 0; it throws exactly for a quiz without questions, after clearing the counters |
| LearningPathNav.Loaded | composeApp/src/commonMain/kotlin/org/example/learnify/presentation/learning_path/LearningPathViewModel.kt:18-25 | Success on the first topic with nothing completed |
| LearningPathNav.HandlersKeepSane | composeApp/src/commonMain/kotlin/org/example/learnify/presentation/learning_path/LearningPathViewModel.kt:27-75 | every handler keeps the index non-negative, within the topics when there are any, and the completed ids among the path's |
| LearningPathNav.NavigationSteps | composeApp/src/commonMain/kotlin/org/example/learnify/presentation/learning_path/LearningPathViewModel.kt:27-51 | next moves one forward unless on the last topic, previous one back unless on the first; nothing else changes |
| LearningPathNav.NextPreviousInverse | composeApp/src/commonMain/kotlin/org/example/learnify/presentation/learning_path/LearningPathViewModel.kt:27-51 | next then previous, and previous then next, return to the same state where they move |
| LearningPathNav.CompletionIdempotent | composeApp/src/commonMain/kotlin/org/example/learnify/presentation/learning_path/LearningPathViewModel.kt:53-64 | completing adds the current topic's id, keeps the index and is idempotent |
| LearningPathNav.NavigateOnlyToTopics | composeApp/src/commonMain/kotlin/org/example/learnify/presentation/learning_path/LearningPathViewModel.kt:66-75 | the index changes only to a valid topic index; the completed set stays |
| LearningPathNav.OnlySuccessMoves | composeApp/src/commonMain/kotlin/org/example/learnify/presentation/learning_path/LearningPathViewModel.kt:27-82 | outside Success every handler is a no-op and the progress is 0 |
| LearningPathNav.TopicIdsBound | composeApp/src/commonMain/kotlin/org/example/learnify/presentation/learning_path/LearningPathUiState.kt:25-29 | there are no more distinct topic ids than topics |
| LearningPathNav.ProgressAtMostOne | composeApp/src/commonMain/kotlin/org/example/learnify/presentation/learning_path/LearningPathUiState.kt:16-17 | in any reachable state completed/total lies between 0 and 1 |
| LearningPathNav.SampleScenarios | composeApp/src/commonMain/kotlin/org/example/learnify/presentation/learning_path/LearningPathViewModel.kt:18-64 | loading shows topic 0, next goes to 1 and previous back to 0, completing the first topic gives {"topic-1"} |
| LearningPathNav.LearningPathViewModel.constructor | composeApp/src/commonMain/kotlin/org/example/learnify/presentation/learning_path/LearningPathViewModel.kt:15 | starts Loading |
| LearningPathNav.LearningPathViewModel.LoadLearningPath | composeApp/src/commonMain/kotlin/org/example/learnify/presentation/learning_path/LearningPathViewModel.kt:18-25 | the state becomes the loaded path |
| LearningPathNav.LearningPathViewModel.OnNextTopic | composeApp/src/commonMain/kotlin/org/example/learnify/presentation/learning_path/LearningPathViewModel.kt:27-38 | the state becomes the next-topic transition |
| LearningPathNav.LearningPathViewModel.OnPreviousTopic | composeApp/src/commonMain/kotlin/org/example/learnify/presentation/learning_path/LearningPathViewModel.kt:40-51 | the state becomes the previous-topic transition |
| LearningPathNav.LearningPathViewModel.OnTopicCompleted | composeApp/src/commonMain/kotlin/org/example/learnify/presentation/learning_path/LearningPathViewModel.kt:53-64 | throws exactly when Success has no current topic; otherwise the state becomes the completion transition |
| LearningPathNav.LearningPathViewModel.OnNavigateToTopic | composeApp/src/commonMain/kotlin/org/example/learnify/presentation/learning_path/LearningPathViewModel.kt:66-75 | the state becomes the navigation transition |
| LearningPathNav.LearningPathViewModel.GetProgress | composeApp/src/commonMain/kotlin/org/example/learnify/presentation/learning_path/LearningPathViewModel.kt:77-82 | completed count over topic count in Success, 0 otherwise |
| Storage.Decoded | composeApp/src/androidMain/kotlin/org/example/learnify/util/LearningPathStorage.android.kt:66-82 | a missing key or an undecodable value loads as the empty list; a stored list loads as itself |
| Storage.CountIdAppend | composeApp/src/androidMain/kotlin/org/example/learnify/util/LearningPathStorage.android.kt:49 | appending a path adds one to the count of its id and nothing to the others |
| Storage.WithoutIdSpec | composeApp/src/androidMain/kotlin/org/example/learnify/util/LearningPathStorage.android.kt:87-93 | deleting an id keeps exactly the paths with other ids, in order, removes every path with it and shrinks the list by their number |
| Storage.WithoutIdAppend | composeApp/src/androidMain/kotlin/org/example/learnify/util/LearningPathStorage.android.kt:90 | removing an id from a list with one path appended removes it from the list and drops the path only if it carries the id |
| Storage.WithoutIdIdempotent | composeApp/src/androidMain/kotlin/org/example/learnify/util/LearningPathStorage.android.kt:90 | deleting the same id twice is deleting it once |
| Storage.WithoutAbsentId | composeApp/src/androidMain/kotlin/org/example/learnify/util/LearningPathStorage.android.kt:90 | deleting an id no path carries changes nothing |
| Storage.UpsertSpec | composeApp/src/androidMain/kotlin/org/example/learnify/util/LearningPathStorage.android.kt:43-56 | after a save exactly one path has the id, the saved one, last; before it stand the other paths in their old order |
| Storage.UpsertIdempotent | composeApp/src/iosMain/kotlin/org/example/learnify/util/LearningPathStorage.ios.kt:41-54 | saving the same path twice is saving it once |
| Storage.StoreRoundTrips | composeApp/src/iosMain/kotlin/org/example/learnify/util/LearningPathStorage.ios.kt:41-108 | a saved path loads back last and once, a deleted id loads back absent, a cleared store loads back empty |
| Storage.AndroidLearningPathStorage.constructor | composeApp/src/androidMain/kotlin/org/example/learnify/util/LearningPathStorage.android.kt:13-14 | opens the preferences with the values they hold |
| Storage.AndroidLearningPathStorage.IsFirstLaunch | composeApp/src/androidMain/kotlin/org/example/learnify/util/LearningPathStorage.android.kt:24-30 | always true, whatever the welcome flag |
| Storage.AndroidLearningPathStorage.MarkWelcomeAsSeen | composeApp/src/androidMain/kotlin/org/example/learnify/util/LearningPathStorage.android.kt:35-38 | sets the welcome flag and leaves the paths |
| Storage.AndroidLearningPathStorage.LoadAllLearningPaths | composeApp/src/androidMain/kotlin/org/example/learnify/util/LearningPathStorage.android.kt:66-82 | the stored list, or empty for a missing or undecodable value |
| Storage.AndroidLearningPathStorage.SaveLearningPath | composeApp/src/androidMain/kotlin/org/example/learnify/util/LearningPathStorage.android.kt:43-61 | writes back the loaded list without the path's id, with the path appended |
| Storage.AndroidLearningPathStorage.DeleteLearningPath | composeApp/src/androidMain/kotlin/org/example/learnify/util/LearningPathStorage.android.kt:87-99 | writes back the loaded list without the id |
| Storage.AndroidLearningPathStorage.ClearAll | composeApp/src/androidMain/kotlin/org/example/learnify/util/LearningPathStorage.android.kt:104-107 | removes the key, so loading gives nothing |
| Storage.IosLearningPathStorage.constructor | composeApp/src/iosMain/kotlin/org/example/learnify/util/LearningPathStorage.ios.kt:12 | the user defaults with the values they hold |
| Storage.IosLearningPathStorage.IsFirstLaunch | composeApp/src/iosMain/kotlin/org/example/learnify/util/LearningPathStorage.ios.kt:24-27 | true exactly until the welcome screen is marked as seen |
| Storage.IosLearningPathStorage.MarkWelcomeAsSeen | composeApp/src/iosMain/kotlin/org/example/learnify/util/LearningPathStorage.ios.kt:32-36 | sets the welcome flag and leaves the paths |
| Storage.IosLearningPathStorage.LoadAllLearningPaths | composeApp/src/iosMain/kotlin/org/example/learnify/util/LearningPathStorage.ios.kt:65-81 | the stored list, or empty for a missing or undecodable value |
| Storage.IosLearningPathStorage.SaveLearningPath | composeApp/src/iosMain/kotlin/org/example/learnify/util/LearningPathStorage.ios.kt:41-60 | writes back the loaded list without the path's id, with the path appended |
| Storage.IosLearningPathStorage.DeleteLearningPath | composeApp/src/iosMain/kotlin/org/example/learnify/util/LearningPathStorage.ios.kt:86-99 | writes back the loaded list without the id |
| Storage.IosLearningPathStorage.ClearAll | composeApp/src/iosMain/kotlin/org/example/learnify/util/LearningPathStorage.ios.kt:104-108 | removes the key, so loading gives nothing |

## Left out

- Compose UI, navigation, the file pickers and platform entry points, and dependency injection: these are rendering and wiring.
- The PDF extractors (PDFKit and PdfRenderer): the extractor is a parameter, either its full result or its incremental result with batch size 20.
- HTTP and JSON mechanics: Ktor, request building, JSON decoding and the prompts' wording. The service's answer per request and the decoders are parameters.
- Coroutine machinery: `viewModelScope`, `Job`, `withTimeout` and `delay`. They become cancellation checkpoints, attempts that may time out, and recorded wait lengths.
- Floating-point values: the quiz's `progress` and `percentage`, the upload percentages and the 0.3 filter factor. They are integer pairs or integer comparisons, so float rounding at the boundaries is not modelled.
- Identifiers (`uuid4()`) and clock readings: these are parameters. Napier logging is left out.
- JSON storage: a written list reads back as itself, an unreadable value reads back as empty, and the exceptions that save and delete swallow are not modelled.
- Upload.UploadViewModel.OnFileSelected: the `ExtractingPages` progress states are not modelled, and neither is the "Error inesperado" catch for exceptions escaping the extraction use case.
- `onSelectFileClick` and `ExtractPdfContentUseCase` are not part of this model; they are platform pass-throughs.
- QuizSession.QuizViewModel.GenerateQuiz: the intermediate `Loading` state shown while the request runs is not modelled.
- Unicode: string lengths count Unicode scalar values, whereas Kotlin's `String.length` counts UTF-16 code units. The two differ for characters outside the Basic Multilingual Plane, which shifts the 50- and 200-character filter thresholds, the 120 000-character chunk budget, `take(100)` for the title, the 500 000-character cut and `totalCharacters`.
- Text.LowerChar: lower-cases ASCII and Latin-1 letters only. Kotlin's `lowercase()` maps all of Unicode and may change a string's length ('İ' becomes "i̇"), and `contains(ignoreCase = true)` compares characters through both upper and lower case, so the keyword tests and the error classification differ on other scripts.
- The `IndexOutOfBounds` crashes of `resetQuiz` on a quiz without questions and of `onTopicCompleted` on a path without topics are kept as a `thrown` result rather than as exceptions.
