/** The small use cases: quiz and learning-path generation over the remote
    client, their validators, and the conversion of a PDF extraction into
    the document JSON the pipeline reads. */
module UseCases {
  import opened Domain
  import opened Text
  import Gemini
  import opened Mappers

  const EMPTY_TOPIC_MESSAGE := "El contenido del tema está vacío"
  const QUESTION_COUNT_MESSAGE := "El número de preguntas debe estar entre 1 y 20"
  const EMPTY_DOCUMENT_MESSAGE := "El contenido del documento está vacío"
  const MIN_QUESTIONS: int := 1
  const MAX_QUESTIONS: int := 20

  /** The identifiers and the time the mappers draw. */
  datatype Fresh = Fresh(id: string, itemId: int -> string, now: int)

  // ------------------------------------------------------------------
  // GenerateQuizUseCase
  // ------------------------------------------------------------------

  /** `GenerateQuizUseCase(topicId, topicContent, questionCount)`. */
  function GenerateQuiz(service: Gemini.Service, topicId: string, topicContent: string, questionCount: int, ids: Fresh)
    : Result<Quiz>
  {
    if IsBlank(topicContent) then Err(Failure(IllegalArgument, Some(EMPTY_TOPIC_MESSAGE)))
    else if questionCount < MIN_QUESTIONS || questionCount > MAX_QUESTIONS then Err(Failure(IllegalArgument, Some(QUESTION_COUNT_MESSAGE)))
    else
      match Gemini.GenerateQuiz(service, topicContent, questionCount)
      case Err(e) => Err(e)
      case Ok(response) => Ok(QuizToDomain(response, topicId, ids.id, ids.itemId))
  }

  /** The guards come before the service, blank content first: whichever
      service answers, a blank topic gets the empty-content error, and a
      non-blank topic with a count outside 1..20 the count error. */
  lemma {:induction false} QuizGuardsPrecedeCall(s1: Gemini.Service, s2: Gemini.Service, topicId: string, topicContent: string,
                                                questionCount: int, ids: Fresh)
    requires IsBlank(topicContent) || questionCount < 1 || questionCount > 20
    ensures GenerateQuiz(s1, topicId, topicContent, questionCount, ids) == GenerateQuiz(s2, topicId, topicContent, questionCount, ids)
    ensures var r := GenerateQuiz(s1, topicId, topicContent, questionCount, ids);
      && r.Err? && r.error.kind == IllegalArgument
      && (r.error.message == Some(EMPTY_TOPIC_MESSAGE) <==> IsBlank(topicContent))
  {
    assert EMPTY_TOPIC_MESSAGE[3] != QUESTION_COUNT_MESSAGE[3];
  }

  /** Past the guards, a failure of the service comes back unchanged and a
      success is the mapped response, tagged with the topic. */
  lemma {:induction false} QuizFollowsService(service: Gemini.Service, topicId: string, topicContent: string,
                                             questionCount: int, ids: Fresh)
    requires !IsBlank(topicContent) && 1 <= questionCount <= 20
    ensures var api := Gemini.GenerateQuiz(service, topicContent, questionCount);
      var r := GenerateQuiz(service, topicId, topicContent, questionCount, ids);
      && (api.Err? <==> r.Err?)
      && (api.Err? ==> r.error == api.error)
      && (api.Ok? ==>
            && r.value.topicId == topicId && |r.value.questions| == |api.value.questions|
            && forall i :: 0 <= i < |api.value.questions| ==>
                 r.value.questions[i].text == api.value.questions[i].question
                 && r.value.questions[i].correctAnswer == api.value.questions[i].correctAnswer)
  {
  }

  /** One question as `validateQuiz` wants it. */
  predicate ValidQuestion(q: Question) {
    |q.options| == 4 && 0 <= q.correctAnswer <= 3 && !IsBlank(q.text)
  }

  /** `validateQuiz(quiz)`. */
  predicate ValidateQuiz(quiz: Quiz) {
    |quiz.questions| > 0 && forall i :: 0 <= i < |quiz.questions| ==> ValidQuestion(quiz.questions[i])
  }

  /** A mapped quiz is valid exactly when the response has questions and
      each has four options, an answer index among them and a non-blank
      question: the mapper neither repairs nor spoils a response. */
  lemma {:induction false} MappedQuizValid(r: QuizResponse, topicId: string, id: string, questionId: int -> string)
    ensures ValidateQuiz(QuizToDomain(r, topicId, id, questionId)) <==>
      (|r.questions| > 0 && forall i :: 0 <= i < |r.questions| ==>
         |r.questions[i].options| == 4 && 0 <= r.questions[i].correctAnswer <= 3 && !IsBlank(r.questions[i].question))
  {
    var q := QuizToDomain(r, topicId, id, questionId);
    assert forall i :: 0 <= i < |r.questions| ==> q.questions[i] == QuestionToDomain(r.questions[i], questionId(i));
  }

  // ------------------------------------------------------------------
  // GenerateLearningPathUseCase
  // ------------------------------------------------------------------

  /** `GenerateLearningPathUseCase(documentId, content)`. */
  function GenerateLearningPath(service: Gemini.Service, documentId: string, content: string, ids: Fresh): Result<LearningPath> {
    if IsBlank(content) then Err(Failure(IllegalArgument, Some(EMPTY_DOCUMENT_MESSAGE)))
    else
      match Gemini.GenerateLearningPath(service, content)
      case Err(e) => Err(e)
      case Ok(response) => Ok(PathToDomain(response, documentId, ids.id, ids.itemId, ids.now))
  }

  /** Blank content fails whatever the service would answer; otherwise the
      service's failure is passed on and its success becomes the mapped path
      for the given document, with its title and as many topics. */
  lemma {:induction false} LearningPathOutcome(s1: Gemini.Service, s2: Gemini.Service, documentId: string, content: string, ids: Fresh)
    ensures IsBlank(content) ==>
      && GenerateLearningPath(s1, documentId, content, ids) == GenerateLearningPath(s2, documentId, content, ids)
      && GenerateLearningPath(s1, documentId, content, ids) == Err(Failure(IllegalArgument, Some(EMPTY_DOCUMENT_MESSAGE)))
    ensures !IsBlank(content) ==>
      var api := Gemini.GenerateLearningPath(s1, content);
      var r := GenerateLearningPath(s1, documentId, content, ids);
      && (api.Err? <==> r.Err?)
      && (api.Err? ==> r.error == api.error)
      && (api.Ok? ==>
            && r.value.documentId == documentId && r.value.title == api.value.title
            && |r.value.topics| == |api.value.topics| && r.value.description == [])
  {
  }

  /** `validateLearningPath(path)`. */
  predicate ValidateLearningPath(path: LearningPath) {
    |path.topics| > 0 && !IsBlank(path.title) && forall i :: 0 <= i < |path.topics| ==> !IsBlank(path.topics[i].content)
  }

  /** A mapped path is valid exactly when the response has topics and a
      non-blank title and no topic has both a blank description and a blank
      content (the blank line joining them is itself blank). */
  lemma {:induction false} MappedPathValid(r: LearningPathResponse, documentId: string, id: string, topicId: int -> string, createdAt: int)
    ensures ValidateLearningPath(PathToDomain(r, documentId, id, topicId, createdAt)) <==>
      (|r.topics| > 0 && !IsBlank(r.title)
       && forall i :: 0 <= i < |r.topics| ==> !(IsBlank(r.topics[i].description) && IsBlank(r.topics[i].content)))
  {
    var p := PathToDomain(r, documentId, id, topicId, createdAt);
    forall i | 0 <= i < |r.topics|
      ensures IsBlank(p.topics[i].content) <==> IsBlank(r.topics[i].description) && IsBlank(r.topics[i].content)
    {
      var t := r.topics[i];
      assert p.topics[i].content == t.description + "\n\n" + t.content;
      BlankConcat(t.description, "\n\n");
      BlankConcat(t.description + "\n\n", t.content);
    }
  }

  // ------------------------------------------------------------------
  // ExtractPdfToJsonUseCase
  // ------------------------------------------------------------------

  /** The longest prefix without a `\s` character. */
  function WordPrefix(s: string): (w: string)
    ensures |w| <= |s| && w == s[..|w|]
    ensures forall i :: 0 <= i < |w| ==> !IsRegexSpace(w[i])
    ensures |w| < |s| ==> IsRegexSpace(s[|w|])
  {
    if s == [] || IsRegexSpace(s[0]) then [] else [s[0]] + WordPrefix(s[1..])
  }

  /** Drops a leading run of `\s` characters. */
  function SkipSpaces(s: string): (r: string)
    ensures |r| <= |s| && r == s[|s| - |r|..]
    ensures r == [] || !IsRegexSpace(r[0])
  {
    if s != [] && IsRegexSpace(s[0]) then SkipSpaces(s[1..]) else s
  }

  /** `split(Regex("\\s+"))`: the pieces between the runs of white space,
      with an empty piece before a leading run and after a trailing one. */
  function SplitOnSpaces(s: string): (r: seq<string>)
    ensures |r| >= 1
    decreases |s|
  {
    var w := WordPrefix(s);
    if |w| == |s| then [s] else [w] + SplitOnSpaces(SkipSpaces(s[|w|..]))
  }

  /** The text with every run of white space collapsed into one blank: the
      reference for what the split keeps. */
  function Collapse(s: string): string
    decreases |s|
  {
    if s == [] then []
    else if IsRegexSpace(s[0]) then " " + Collapse(SkipSpaces(s))
    else [s[0]] + Collapse(s[1..])
  }

  /** `text.split(Regex("\\s+")).size`. */
  function WordCount(s: string): (n: int)
    ensures n >= 1
  {
    |SplitOnSpaces(s)|
  }

  lemma {:induction false} CollapseWord(w: string, rest: string)
    requires forall i :: 0 <= i < |w| ==> !IsRegexSpace(w[i])
    ensures Collapse(w + rest) == w + Collapse(rest)
    decreases |w|
  {
    if w != [] {
      var s := w + rest;
      assert s[0] == w[0] && !IsRegexSpace(s[0]);
      assert s[1..] == w[1..] + rest;
      calc {
        Collapse(s);
        [w[0]] + Collapse(w[1..] + rest);
        { CollapseWord(w[1..], rest); }
        [w[0]] + (w[1..] + Collapse(rest));
        { assert [w[0]] + w[1..] == w; }
        w + Collapse(rest);
      }
    } else {
      assert w + rest == rest;
    }
  }

  /** No piece of the split holds white space. */
  lemma {:induction false} SplitPiecesSpaceFree(s: string)
    ensures forall k, i :: 0 <= k < |SplitOnSpaces(s)| && 0 <= i < |SplitOnSpaces(s)[k]| ==> !IsRegexSpace(SplitOnSpaces(s)[k][i])
    decreases |s|
  {
    var w := WordPrefix(s);
    if |w| < |s| {
      var rest := SkipSpaces(s[|w|..]);
      SplitPiecesSpaceFree(rest);
      var ps := SplitOnSpaces(s);
      assert ps[0] == w && ps[1..] == SplitOnSpaces(rest);
      forall k, i | 0 <= k < |ps| && 0 <= i < |ps[k]| ensures !IsRegexSpace(ps[k][i]) {
        if k > 0 {
          assert ps[k] == SplitOnSpaces(rest)[k - 1];
        }
      }
    } else {
      assert w == s;
    }
  }

  /** Past its first word, the split goes on after the run of white space
      that ends the word. */
  lemma {:induction false} SplitUnfold(s: string)
    requires |WordPrefix(s)| < |s|
    ensures SplitOnSpaces(s) == [WordPrefix(s)] + SplitOnSpaces(SkipSpaces(s[|WordPrefix(s)|..]))
  {
  }

  lemma {:induction false} JoinCons(x: string, xs: seq<string>, separator: string)
    requires xs != []
    ensures Join([x] + xs, separator) == x + separator + Join(xs, separator)
  {
    assert ([x] + xs)[1..] == xs;
  }

  /** Collapsing a run of white space followed by more text. */
  lemma {:induction false} CollapseRun(w: string, tail: string)
    requires forall i :: 0 <= i < |w| ==> !IsRegexSpace(w[i])
    requires tail != [] && IsRegexSpace(tail[0])
    ensures Collapse(w + tail) == w + " " + Collapse(SkipSpaces(tail))
  {
    CollapseWord(w, tail);
  }

  /** A text without white space is one piece, which collapsing keeps. */
  lemma {:induction false} SingleWord(s: string)
    requires |WordPrefix(s)| == |s|
    ensures Join(SplitOnSpaces(s), " ") == Collapse(s)
  {
    assert WordPrefix(s) == s;
    CollapseWord(s, []);
    assert s + [] == s;
  }

  /** One step of the split: if the rest after the first run joins to its
      collapse, so does the whole text. */
  lemma {:induction false} SplitJoinStep(s: string)
    requires |WordPrefix(s)| < |s|
    requires Join(SplitOnSpaces(SkipSpaces(s[|WordPrefix(s)|..])), " ") == Collapse(SkipSpaces(s[|WordPrefix(s)|..]))
    ensures Join(SplitOnSpaces(s), " ") == Collapse(s)
  {
    var w := WordPrefix(s);
    var tail := s[|w|..];
    var rest := SkipSpaces(tail);
    SplitUnfold(s);
    JoinCons(w, SplitOnSpaces(rest), " ");
    assert s == w + tail;
    CollapseRun(w, tail);
  }

  /** Joined with single blanks, the pieces give the text with its runs
      collapsed: the split loses exactly the white space and nothing else. */
  lemma {:induction false} SplitOnSpacesJoin(s: string)
    ensures Join(SplitOnSpaces(s), " ") == Collapse(s)
    decreases |s|
  {
    var w := WordPrefix(s);
    if |w| == |s| {
      SingleWord(s);
    } else {
      SplitOnSpacesJoin(SkipSpaces(s[|w|..]));
      SplitJoinStep(s);
    }
  }

  /** The empty text counts one word. */
  lemma {:induction false} WordCountEmpty()
    ensures WordCount("") == 1
  {
    assert WordPrefix("") == [];
  }

  /** A trailing blank adds an empty piece. */
  lemma {:induction false} SplitTrailingBlank()
    ensures SplitOnSpaces("a ") == ["a", ""]
  {
    var s := "a ";
    assert WordPrefix(" ") == [] by { assert IsRegexSpace(" "[0]); }
    assert WordPrefix(s) == "a" by { assert !IsRegexSpace(s[0]) && s[1..] == " "; }
    assert SkipSpaces(" ") == [] by { assert IsRegexSpace(" "[0]) && " "[1..] == []; }
    assert SplitOnSpaces([]) == [[]] by { assert WordPrefix([]) == []; }
    assert s[|"a"|..] == " ";
  }

  /** A leading and a trailing blank each add an empty piece: " a " splits
      into "", "a" and "". */
  lemma {:induction false} SplitLeadingAndTrailingBlank()
    ensures SplitOnSpaces(" a ") == ["", "a", ""]
  {
    var s := " a ";
    assert IsRegexSpace(s[0]) && !IsRegexSpace(s[1]);
    assert WordPrefix(s) == [];
    assert s[1..] == "a ";
    assert SkipSpaces(s) == "a ";
    SplitTrailingBlank();
  }

  const PROCESSING_METHOD := "PDFKit/PdfRenderer"
  const EXTRACTION_BATCH_SIZE: nat := 20

  /** The platform extractor: the whole extraction, or the incremental one
      for a batch size (its progress reports go to the caller). */
  datatype Extractor = Extractor(extractText: Result<PdfExtractionResult>, extractTextWithProgress: nat -> Result<PdfExtractionResult>)

  function PageToJson(p: PageContent): PageJson {
    PageJson(p.pageNumber, p.text, WordCount(p.text))
  }

  /** The document built from an extraction; `idTime` and `now` are the two
      clock readings (for the identifier and for `extractedAt`). */
  function ToDocumentJson(extraction: PdfExtractionResult, filename: string, idTime: int, now: int): (doc: DocumentJson)
    ensures |doc.pages| == |extraction.pages|
  {
    DocumentJson(
      "doc_" + IntToString(idTime),
      filename,
      seq(|extraction.pages|, i requires 0 <= i < |extraction.pages| => PageToJson(extraction.pages[i])),
      DocumentMetadata(extraction.totalPages, |extraction.text|, WordCount(extraction.text), now, PROCESSING_METHOD, false, None))
  }

  /** `ExtractPdfToJsonUseCase(fileUri, filename, onProgress)`: with a
      progress callback the incremental extraction with batches of 20 pages
      is used, without one the whole extraction. */
  function ExtractPdfToJson(extractor: Extractor, withProgress: bool, filename: string, idTime: int, now: int): Result<DocumentJson> {
    var extraction := if withProgress then extractor.extractTextWithProgress(EXTRACTION_BATCH_SIZE) else extractor.extractText;
    match extraction
    case Err(e) => Err(e)
    case Ok(x) => Ok(ToDocumentJson(x, filename, idTime, now))
  }

  /** The document has one page per extracted page, in order, with its
      number and text and the count of its pieces; the metadata takes the
      extractor's page count (not the number of pages), the length and word
      count of the whole text, and no truncation. An extractor failure is
      passed on as it is. */
  lemma {:induction false} ExtractionFaithful(extractor: Extractor, withProgress: bool, filename: string, idTime: int, now: int)
    ensures var x := if withProgress then extractor.extractTextWithProgress(20) else extractor.extractText;
      var r := ExtractPdfToJson(extractor, withProgress, filename, idTime, now);
      && (x.Err? ==> r == Err(x.error))
      && (x.Ok? ==>
            && r.Ok? && r.value.filename == filename
            && |r.value.pages| == |x.value.pages|
            && (forall i :: 0 <= i < |x.value.pages| ==>
                  r.value.pages[i].pageNumber == x.value.pages[i].pageNumber
                  && r.value.pages[i].content == x.value.pages[i].text
                  && r.value.pages[i].wordCount == |SplitOnSpaces(x.value.pages[i].text)|)
            && r.value.metadata.totalPages == x.value.totalPages
            && r.value.metadata.totalCharacters == |x.value.text|
            && r.value.metadata.totalWords == |SplitOnSpaces(x.value.text)|
            && !r.value.metadata.wasTruncated && r.value.metadata.originalTotalPages == None)
  {
  }
}
