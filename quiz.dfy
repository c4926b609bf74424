/** QuizViewModel: the quiz session. The view model keeps the quiz, the
    index of the current question, the score and the set of questions
    already scored, and rebuilds the screen state from them.

    The generation coroutine runs to completion inside `GenerateQuiz`; the
    remote service and the fresh identifiers are parameters. */
module QuizSession {
  import opened Domain
  import opened Text
  import Gemini
  import UseCases

  /** `QuizUiState`. The float `progress` is kept as the pair it is computed
      from, `(currentQuestionIndex + 1) / totalQuestions`, and the
      `percentage` of a completed quiz as `score / totalQuestions`. */
  datatype QuizUiState =
    | Loading
    | Active(quiz: Quiz, currentQuestionIndex: int, currentQuestion: Question, selectedAnswer: Option<int>,
             isAnswerSubmitted: bool, score: int, answeredQuestions: int, totalQuestions: int,
             progressNum: int, progressDen: int)
    | Completed(quiz: Quiz, score: int, totalQuestions: int, isPassed: bool)
    | Error(message: string)

  const DEFAULT_QUESTION_COUNT: int := 8
  const NO_QUESTIONS_MESSAGE := "No se pudieron generar preguntas"
  const GENERATION_FALLBACK := "Error al generar el quiz"
  const RATE_LIMIT_NOTICE := "Límite de la API alcanzado. Espera unos minutos e inténtalo de nuevo."

  /** The quiz screen's own `userFacingErrorMessage`: a rate limit gets a
      fixed notice, anything else its message (`error.message ?: fallback`),
      or the fallback when the message is null. */
  function QuizErrorMessage(error: Failure, fallback: string): (r: string)
    ensures error.kind == RateLimit ==> r == RATE_LIMIT_NOTICE
    ensures error.kind != RateLimit && error.message.Some? ==> r == error.message.value
    ensures error.kind != RateLimit && error.message.None? ==> r == fallback
  {
    if error.kind == RateLimit then RATE_LIMIT_NOTICE
    else error.message.GetOr(fallback)
  }

  /** `percentage >= 70f` for `percentage = score / total * 100`, over the
      integers; with no questions the percentage is NaN and the quiz is not
      passed. */
  predicate IsPassed(score: int, total: int) {
    total > 0 && 10 * score >= 7 * total
  }

  /** A set of indices below `n` has at most `n` elements. */
  lemma {:induction false} IndexSetBound(s: set<int>, n: nat)
    requires forall i :: i in s ==> 0 <= i < n
    ensures |s| <= n
    decreases n
  {
    if n > 0 {
      var s' := s - {n - 1};
      IndexSetBound(s', n - 1);
      assert s <= s' + {n - 1};
      assert |s' + {n - 1}| == |s'| + 1;
    } else {
      assert forall i :: i !in s;
    }
  }

  /** The Active state `updateActiveState` builds for question `index` of
      the quiz. */
  function ActiveState(quiz: Quiz, index: int, score: int, answeredCount: int): (s: QuizUiState)
    requires 0 <= index < |quiz.questions|
    ensures s.Active? && s.currentQuestion == quiz.questions[index] && s.selectedAnswer.None? && !s.isAnswerSubmitted
    ensures 0 < s.progressNum <= s.progressDen == |quiz.questions|
  {
    var total := |quiz.questions|;
    Active(quiz, index, quiz.questions[index], None, false, score, answeredCount, total, index + 1, total)
  }

  class QuizViewModel {
    var uiState: QuizUiState
    var currentQuiz: Option<Quiz>
    var currentQuestionIndex: int
    var score: int
    var answeredQuestions: set<int>

    /** The invariant every handler keeps: the score counts the scored
        questions, each at most once; the scored questions are questions
        of the quiz up to the current one, and the current one is not
        scored while its answer is open; the index is a question of the
        quiz (or 0 for a quiz without questions); and the Active and
        Completed states show the quiz, the index and the score. */
    ghost predicate Valid()
      reads this
    {
      && score == |answeredQuestions|
      && (currentQuiz.None? ==> currentQuestionIndex == 0 && answeredQuestions == {})
      && (currentQuiz.Some? ==>
            var n := |currentQuiz.value.questions|;
            && 0 <= currentQuestionIndex
            && (currentQuestionIndex < n || currentQuestionIndex == 0)
            && (forall i :: i in answeredQuestions ==> 0 <= i < n && i <= currentQuestionIndex))
      && (uiState.Active? ==>
            && currentQuiz == Some(uiState.quiz)
            && uiState.currentQuestionIndex == currentQuestionIndex < |uiState.quiz.questions|
            && uiState.currentQuestion == uiState.quiz.questions[currentQuestionIndex]
            && uiState.score == score
            && uiState.totalQuestions == |uiState.quiz.questions|
            && (!uiState.isAnswerSubmitted ==> currentQuestionIndex !in answeredQuestions))
      && (uiState.Completed? ==>
            && currentQuiz == Some(uiState.quiz)
            && uiState.score == score <= uiState.totalQuestions == |uiState.quiz.questions|
            && uiState.isPassed == IsPassed(score, uiState.totalQuestions))
    }

    constructor ()
      ensures Valid()
      ensures uiState == Loading && currentQuiz == None && score == 0 && answeredQuestions == {}
    {
      uiState := Loading;
      currentQuiz := None;
      currentQuestionIndex := 0;
      score := 0;
      answeredQuestions := {};
    }

    /** `updateActiveState(question)`, always called with the current
        question: shows it with nothing selected and nothing submitted. */
    method UpdateActiveState(question: Question)
      requires currentQuiz.Some? ==> 0 <= currentQuestionIndex < |currentQuiz.value.questions|
      requires currentQuiz.Some? ==> question == currentQuiz.value.questions[currentQuestionIndex]
      modifies this`uiState
      ensures currentQuiz.None? ==> uiState == old(uiState)
      ensures currentQuiz.Some? ==>
        uiState == ActiveState(currentQuiz.value, currentQuestionIndex, score, |answeredQuestions|)
    {
      if currentQuiz.None? {
        return;
      }
      var quiz := currentQuiz.value;
      var totalQuestions := |quiz.questions|;
      uiState := Active(quiz, currentQuestionIndex, question, None, false, score, |answeredQuestions|,
                        totalQuestions, currentQuestionIndex + 1, totalQuestions);
    }

    /** `generateQuiz(topicId, topicContent, questionCount)`. A new quiz
        starts over at its first question with no score, even when it has no
        questions (then the Error state is shown); a failure shows an error
        and keeps the previous quiz and its progress. */
    method GenerateQuiz(service: Gemini.Service, topicId: string, topicContent: string, questionCount: int,
                        ids: UseCases.Fresh)
      requires Valid()
      modifies this
      ensures Valid()
      ensures var r := UseCases.GenerateQuiz(service, topicId, topicContent, questionCount, ids);
        && (r.Ok? ==>
              && currentQuiz == Some(r.value) && currentQuestionIndex == 0 && score == 0 && answeredQuestions == {}
              && (r.value.questions == [] ==> uiState == Error(NO_QUESTIONS_MESSAGE))
              && (r.value.questions != [] ==> uiState == ActiveState(r.value, 0, 0, 0)))
        && (r.Err? ==>
              && uiState == Error(QuizErrorMessage(r.error, GENERATION_FALLBACK))
              && currentQuiz == old(currentQuiz) && currentQuestionIndex == old(currentQuestionIndex)
              && score == old(score) && answeredQuestions == old(answeredQuestions))
    {
      uiState := Loading;
      var result := UseCases.GenerateQuiz(service, topicId, topicContent, questionCount, ids);
      match result {
        case Ok(quiz) =>
          currentQuiz := Some(quiz);
          currentQuestionIndex := 0;
          score := 0;
          answeredQuestions := {};
          if quiz.questions == [] {
            uiState := Error(NO_QUESTIONS_MESSAGE);
            return;
          }
          UpdateActiveState(quiz.questions[0]);
        case Err(error) =>
          uiState := Error(QuizErrorMessage(error, GENERATION_FALLBACK));
      }
    }

    /** `onAnswerSelected(answerIndex)`: only an open question takes a
        selection, and nothing but the selection changes. */
    method OnAnswerSelected(answerIndex: int)
      requires Valid()
      modifies this`uiState
      ensures Valid()
      ensures old(uiState).Active? && !old(uiState).isAnswerSubmitted ==>
        uiState == old(uiState).(selectedAnswer := Some(answerIndex))
      ensures !(old(uiState).Active? && !old(uiState).isAnswerSubmitted) ==> uiState == old(uiState)
    {
      if !uiState.Active? || uiState.isAnswerSubmitted {
        return;
      }
      uiState := uiState.(selectedAnswer := Some(answerIndex));
    }

    /** `onSubmitAnswer()`: an open question with a selection is closed; a
        correct answer to a question not yet scored adds one to the score
        and scores the question. */
    method OnSubmitAnswer()
      requires Valid()
      modifies this`uiState, this`score, this`answeredQuestions
      ensures Valid()
      ensures var s := old(uiState);
        if s.Active? && s.selectedAnswer.Some? && !s.isAnswerSubmitted then
          var correct := s.selectedAnswer.value == s.currentQuestion.correctAnswer;
          && (correct ==> score == old(score) + 1 && answeredQuestions == old(answeredQuestions) + {currentQuestionIndex})
          && (!correct ==> score == old(score) && answeredQuestions == old(answeredQuestions))
          && uiState == s.(isAnswerSubmitted := true, score := score)
        else
          uiState == s && score == old(score) && answeredQuestions == old(answeredQuestions)
    {
      if !uiState.Active? || uiState.selectedAnswer.None? || uiState.isAnswerSubmitted {
        return;
      }
      var isCorrect := uiState.selectedAnswer.value == uiState.currentQuestion.correctAnswer;
      if isCorrect && currentQuestionIndex !in answeredQuestions {
        score := score + 1;
        answeredQuestions := answeredQuestions + {currentQuestionIndex};
      }
      uiState := uiState.(isAnswerSubmitted := true, score := score);
    }

    /** `onNextQuestion()`: with a quiz loaded, whatever the screen shows,
        it moves to the next question while there is one, and otherwise
        completes the quiz, passed at 70 %. */
    method OnNextQuestion()
      requires Valid()
      modifies this`uiState, this`currentQuestionIndex
      ensures Valid()
      ensures old(currentQuiz).None? ==> uiState == old(uiState) && currentQuestionIndex == old(currentQuestionIndex)
      ensures old(currentQuiz).Some? ==>
        var quiz := old(currentQuiz).value;
        if old(currentQuestionIndex) < |quiz.questions| - 1 then
          && currentQuestionIndex == old(currentQuestionIndex) + 1
          && uiState == ActiveState(quiz, currentQuestionIndex, score, |answeredQuestions|)
        else
          && currentQuestionIndex == old(currentQuestionIndex)
          && uiState == Completed(quiz, score, |quiz.questions|, IsPassed(score, |quiz.questions|))
    {
      if currentQuiz.None? {
        return;
      }
      var quiz := currentQuiz.value;
      if currentQuestionIndex < |quiz.questions| - 1 {
        currentQuestionIndex := currentQuestionIndex + 1;
        UpdateActiveState(quiz.questions[currentQuestionIndex]);
      } else {
        var totalQuestions := |quiz.questions|;
        IndexSetBound(answeredQuestions, totalQuestions);
        uiState := Completed(quiz, score, totalQuestions, IsPassed(score, totalQuestions));
      }
    }

    /** `resetQuiz()`: back to the first question with no score. For a quiz
        without questions the index and score are reset before reading
        `questions[0]` throws, which `thrown` reports; the screen then keeps
        its state. */
    method ResetQuiz() returns (thrown: bool)
      requires Valid()
      modifies this`uiState, this`currentQuestionIndex, this`score, this`answeredQuestions
      ensures Valid()
      ensures thrown <==> currentQuiz.Some? && currentQuiz.value.questions == []
      ensures currentQuiz.None? ==> uiState == old(uiState) && score == old(score)
      ensures currentQuiz.Some? ==> currentQuestionIndex == 0 && score == 0 && answeredQuestions == {}
      ensures currentQuiz.Some? && !thrown ==> uiState == ActiveState(currentQuiz.value, 0, 0, 0)
      ensures thrown ==> uiState == old(uiState)
    {
      thrown := false;
      if currentQuiz.None? {
        return;
      }
      var quiz := currentQuiz.value;
      currentQuestionIndex := 0;
      score := 0;
      answeredQuestions := {};
      if quiz.questions == [] {
        thrown := true;
        return;
      }
      UpdateActiveState(quiz.questions[0]);
    }
  }
}
