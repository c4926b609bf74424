/** LearningPathViewModel and the getters of its Success state: moving
    through the topics of a loaded learning path and marking them done. */
module LearningPathNav {
  import opened Domain

  /** `LearningPathUiState`. */
  datatype LearningPathUiState =
    | Loading
    | Success(learningPath: LearningPath, currentTopicIndex: int, completedTopics: set<string>)
    | Error(message: string)

  /** A float quotient kept as its two operands. */
  datatype Ratio = Ratio(num: int, den: int)

  // ------------------------------------------------------------------
  // The getters of Success
  // ------------------------------------------------------------------

  function TotalCount(s: LearningPathUiState): int
    requires s.Success?
  {
    |s.learningPath.topics|
  }

  function CompletedCount(s: LearningPathUiState): int
    requires s.Success?
  {
    |s.completedTopics|
  }

  /** `progress`: `completedCount / totalCount`. */
  function Progress(s: LearningPathUiState): Ratio
    requires s.Success?
  {
    Ratio(CompletedCount(s), TotalCount(s))
  }

  predicate IsFirstTopic(s: LearningPathUiState)
    requires s.Success?
  {
    s.currentTopicIndex == 0
  }

  predicate IsLastTopic(s: LearningPathUiState)
    requires s.Success?
  {
    s.currentTopicIndex == |s.learningPath.topics| - 1
  }

  /** `currentTopic`; reading it with an index outside the topics throws. */
  function CurrentTopic(s: LearningPathUiState): Topic
    requires s.Success? && 0 <= s.currentTopicIndex < |s.learningPath.topics|
  {
    s.learningPath.topics[s.currentTopicIndex]
  }

  // ------------------------------------------------------------------
  // What each handler makes of the state
  // ------------------------------------------------------------------

  /** `loadLearningPath(path)`. */
  function Loaded(path: LearningPath): (s: LearningPathUiState)
    ensures s.Success? && s.learningPath == path && IsFirstTopic(s) && CompletedCount(s) == 0
  {
    Success(path, 0, {})
  }

  /** `onNextTopic()`. */
  function NextTopic(s: LearningPathUiState): LearningPathUiState {
    if s.Success? && !IsLastTopic(s) then s.(currentTopicIndex := s.currentTopicIndex + 1) else s
  }

  /** `onPreviousTopic()`. */
  function PreviousTopic(s: LearningPathUiState): LearningPathUiState {
    if s.Success? && !IsFirstTopic(s) then s.(currentTopicIndex := s.currentTopicIndex - 1) else s
  }

  /** `onNavigateToTopic(index)`. */
  function NavigateToTopic(s: LearningPathUiState, index: int): LearningPathUiState {
    if s.Success? && 0 <= index < |s.learningPath.topics| then s.(currentTopicIndex := index) else s
  }

  /** Whether `onTopicCompleted()` can read the current topic. */
  predicate CanComplete(s: LearningPathUiState) {
    s.Success? ==> 0 <= s.currentTopicIndex < |s.learningPath.topics|
  }

  /** `onTopicCompleted()`, where it does not throw. */
  function TopicCompleted(s: LearningPathUiState): LearningPathUiState
    requires CanComplete(s)
  {
    if s.Success? then s.(completedTopics := s.completedTopics + {CurrentTopic(s).id}) else s
  }

  /** `getProgress()`: the progress of a Success state, 0 otherwise. */
  function ProgressOf(s: LearningPathUiState): Ratio {
    if s.Success? then Progress(s) else Ratio(0, 1)
  }

  /** The ids of a list of topics. */
  function TopicIds(topics: seq<Topic>): set<string> {
    set i | 0 <= i < |topics| :: topics[i].id
  }

  /** What every reachable state satisfies: the index is never negative,
      it is a topic of the path when the path has any, and only ids of the
      path's topics are marked done. */
  predicate Sane(s: LearningPathUiState) {
    s.Success? ==>
      && 0 <= s.currentTopicIndex
      && (|s.learningPath.topics| > 0 ==> s.currentTopicIndex < |s.learningPath.topics|)
      && s.completedTopics <= TopicIds(s.learningPath.topics)
  }

  // ------------------------------------------------------------------
  // Properties
  // ------------------------------------------------------------------

  /** Every handler keeps the state sane, and a sane state with topics
      can always be completed. */
  lemma {:induction false} HandlersKeepSane(s: LearningPathUiState, index: int, path: LearningPath)
    requires Sane(s)
    ensures Sane(Loaded(path)) && Sane(NextTopic(s)) && Sane(PreviousTopic(s)) && Sane(NavigateToTopic(s, index))
    ensures s.Success? && |s.learningPath.topics| > 0 ==> CanComplete(s) && Sane(TopicCompleted(s))
  {
    if s.Success? && |s.learningPath.topics| > 0 {
      var t := TopicCompleted(s);
      assert CurrentTopic(s).id in TopicIds(s.learningPath.topics);
      assert t.completedTopics <= TopicIds(s.learningPath.topics);
    }
  }

  /** Next moves one topic forward exactly when there is a next topic, and
      previous one back exactly when there is a previous one; neither
      touches the path or the completed set. */
  lemma {:induction false} NavigationSteps(s: LearningPathUiState)
    requires s.Success? && Sane(s) && |s.learningPath.topics| > 0
    ensures var n := NextTopic(s);
      && n.Success? && n.learningPath == s.learningPath && n.completedTopics == s.completedTopics
      && (s.currentTopicIndex + 1 < |s.learningPath.topics| ==> n.currentTopicIndex == s.currentTopicIndex + 1)
      && (s.currentTopicIndex + 1 == |s.learningPath.topics| ==> n == s)
    ensures var p := PreviousTopic(s);
      && p.Success? && p.learningPath == s.learningPath && p.completedTopics == s.completedTopics
      && (s.currentTopicIndex > 0 ==> p.currentTopicIndex == s.currentTopicIndex - 1)
      && (s.currentTopicIndex == 0 ==> p == s)
  {
  }

  /** Previous undoes next, unless next had nowhere to go; and next undoes
      previous, unless previous had nowhere to go. */
  lemma {:induction false} NextPreviousInverse(s: LearningPathUiState)
    requires s.Success? && Sane(s) && |s.learningPath.topics| > 0
    ensures !IsLastTopic(s) ==> PreviousTopic(NextTopic(s)) == s
    ensures !IsFirstTopic(s) ==> NextTopic(PreviousTopic(s)) == s
  {
  }

  /** Completing marks the current topic and nothing else, keeps the index,
      and completing twice is completing once. */
  lemma {:induction false} CompletionIdempotent(s: LearningPathUiState)
    requires s.Success? && CanComplete(s)
    ensures TopicCompleted(s).completedTopics == s.completedTopics + {CurrentTopic(s).id}
    ensures TopicCompleted(s).currentTopicIndex == s.currentTopicIndex
    ensures CanComplete(TopicCompleted(s)) && TopicCompleted(TopicCompleted(s)) == TopicCompleted(s)
  {
    var t := TopicCompleted(s);
    assert CurrentTopic(t) == CurrentTopic(s);
  }

  /** Navigation changes the index only to a topic of the path. */
  lemma {:induction false} NavigateOnlyToTopics(s: LearningPathUiState, index: int)
    requires s.Success?
    ensures NavigateToTopic(s, index).currentTopicIndex == (if 0 <= index < |s.learningPath.topics| then index else s.currentTopicIndex)
    ensures NavigateToTopic(s, index).completedTopics == s.completedTopics
  {
  }

  /** Outside Success every handler leaves the state as it is, and the
      progress is 0. */
  lemma {:induction false} OnlySuccessMoves(s: LearningPathUiState, index: int)
    requires !s.Success?
    ensures NextTopic(s) == s && PreviousTopic(s) == s && NavigateToTopic(s, index) == s && TopicCompleted(s) == s
    ensures ProgressOf(s).num == 0
  {
  }

  /** The ids of `n` topics number at most `n`. */
  lemma {:induction false} TopicIdsBound(topics: seq<Topic>)
    ensures |TopicIds(topics)| <= |topics|
    decreases |topics|
  {
    if topics != [] {
      var front := topics[..|topics| - 1];
      TopicIdsBound(front);
      assert TopicIds(topics) == TopicIds(front) + {topics[|topics| - 1].id} by {
        forall x | x in TopicIds(topics) ensures x in TopicIds(front) + {topics[|topics| - 1].id} {
          var i :| 0 <= i < |topics| && topics[i].id == x;
          if i < |topics| - 1 {
            assert front[i] == topics[i];
          }
        }
        forall x | x in TopicIds(front) ensures x in TopicIds(topics) {
          var i :| 0 <= i < |front| && front[i].id == x;
          assert topics[i] == front[i];
        }
      }
    } else {
      assert TopicIds(topics) == {};
    }
  }

  /** In a sane state the progress is a fraction between 0 and 1. */
  lemma {:induction false} ProgressAtMostOne(s: LearningPathUiState)
    requires Sane(s)
    ensures 0 <= ProgressOf(s).num <= ProgressOf(s).den
  {
    if s.Success? {
      TopicIdsBound(s.learningPath.topics);
      var ids := TopicIds(s.learningPath.topics);
      assert ids == s.completedTopics + (ids - s.completedTopics);
      assert |ids| == |s.completedTopics| + |ids - s.completedTopics|;
    }
  }

  function SampleTopic(id: string, title: string, content: string, page: int): Topic {
    Topic(id, title, content, [page], page)
  }

  function SamplePath(): LearningPath {
    LearningPath("path-1", "doc-1", "Ruta de prueba", "Descripcion",
                 [SampleTopic("topic-1", "Tema 1", "Contenido 1", 1), SampleTopic("topic-2", "Tema 2", "Contenido 2", 2)], 0)
  }

  /** The unit tests' scenarios: loading shows the path at its first
      topic; next goes to topic 1 and previous back to 0; completing the
      first topic gives the set {"topic-1"}. */
  lemma {:induction false} SampleScenarios()
    ensures Loaded(SamplePath()).learningPath.title == "Ruta de prueba" && Loaded(SamplePath()).currentTopicIndex == 0
    ensures NextTopic(Loaded(SamplePath())).currentTopicIndex == 1
    ensures PreviousTopic(NextTopic(Loaded(SamplePath()))).currentTopicIndex == 0
    ensures TopicCompleted(Loaded(SamplePath())).completedTopics == {"topic-1"}
  {
  }

  // ------------------------------------------------------------------
  // The view model
  // ------------------------------------------------------------------

  class LearningPathViewModel {
    var uiState: LearningPathUiState

    constructor ()
      ensures uiState == Loading
    {
      uiState := Loading;
    }

    method LoadLearningPath(learningPath: LearningPath)
      modifies this
      ensures uiState == Loaded(learningPath)
    {
      uiState := Success(learningPath, 0, {});
    }

    method OnNextTopic()
      modifies this
      ensures uiState == NextTopic(old(uiState))
    {
      if !uiState.Success? {
        return;
      }
      var currentState := uiState;
      if currentState.currentTopicIndex != |currentState.learningPath.topics| - 1 {
        uiState := currentState.(currentTopicIndex := currentState.currentTopicIndex + 1);
      }
    }

    method OnPreviousTopic()
      modifies this
      ensures uiState == PreviousTopic(old(uiState))
    {
      if !uiState.Success? {
        return;
      }
      var currentState := uiState;
      if currentState.currentTopicIndex != 0 {
        uiState := currentState.(currentTopicIndex := currentState.currentTopicIndex - 1);
      }
    }

    /** `onTopicCompleted()`: `thrown` reports that reading the current
        topic threw, which leaves the state as it was. */
    method OnTopicCompleted() returns (thrown: bool)
      modifies this
      ensures thrown <==> !CanComplete(old(uiState))
      ensures !thrown ==> uiState == TopicCompleted(old(uiState))
      ensures thrown ==> uiState == old(uiState)
    {
      thrown := false;
      if !uiState.Success? {
        return;
      }
      var currentState := uiState;
      if !(0 <= currentState.currentTopicIndex < |currentState.learningPath.topics|) {
        thrown := true;
        return;
      }
      var topicId := currentState.learningPath.topics[currentState.currentTopicIndex].id;
      uiState := currentState.(completedTopics := currentState.completedTopics + {topicId});
    }

    method OnNavigateToTopic(index: int)
      modifies this
      ensures uiState == NavigateToTopic(old(uiState), index)
    {
      if !uiState.Success? {
        return;
      }
      var currentState := uiState;
      if 0 <= index < |currentState.learningPath.topics| {
        uiState := currentState.(currentTopicIndex := index);
      }
    }

    /** `getProgress()`: completed over total topics in a Success state,
        0 otherwise. */
    method GetProgress() returns (r: Ratio)
      ensures uiState.Success? ==> r.num == |uiState.completedTopics| && r.den == |uiState.learningPath.topics|
      ensures !uiState.Success? ==> r.num == 0
    {
      match uiState {
        case Success(_, _, _) => r := Progress(uiState);
        case _ => r := Ratio(0, 1);
      }
    }
  }
}
