/** The mappers from the remote service's responses to the domain's
    learning paths and quizzes. Identifiers (`uuid4()`) and the clock are
    parameters. */
module Mappers {
  import opened Domain
  import opened Text

  const TOPIC_CONTENT_SEPARATOR := "\n\n"

  /** `TopicResponse.toDomain(order)`: the description and the content
      joined by a blank line, and no page numbers. */
  function TopicToDomain(t: TopicResponse, order: int, id: string): (r: Topic)
    ensures r.title == t.title && r.order == order && r.id == id && r.pageNumbers == []
    ensures |r.content| == |t.description| + 2 + |t.content|
    ensures r.content[..|t.description|] == t.description
    ensures r.content[|t.description| + 2..] == t.content
    ensures r.content == t.description + "\n\n" + t.content
  {
    Topic(id, t.title, t.description + TOPIC_CONTENT_SEPARATOR + t.content, [], order)
  }

  /** `LearningPathResponse.toDomain(documentId)`: the response's description
      is not carried over, so the path keeps its default "". */
  function PathToDomain(r: LearningPathResponse, documentId: string, id: string, topicId: int -> string, createdAt: int)
    : (p: LearningPath)
    ensures p.id == id && p.documentId == documentId && p.title == r.title && p.createdAt == createdAt
    ensures p.description == []
    ensures |p.topics| == |r.topics|
    ensures forall i :: 0 <= i < |r.topics| ==> p.topics[i] == TopicToDomain(r.topics[i], i, topicId(i))
  {
    LearningPath(id, documentId, r.title, [],
                 seq(|r.topics|, i requires 0 <= i < |r.topics| => TopicToDomain(r.topics[i], i, topicId(i))), createdAt)
  }

  /** Topic `i` of the path comes from topic `i` of the response: its
      title, its order `i`, its text as description and content with a
      blank line between, and no page numbers. */
  lemma {:induction false} PathTopicsFaithful(r: LearningPathResponse, documentId: string, id: string, topicId: int -> string,
                                             createdAt: int, i: int)
    requires 0 <= i < |r.topics|
    ensures var t := PathToDomain(r, documentId, id, topicId, createdAt).topics[i];
      && t.title == r.topics[i].title
      && t.order == i
      && t.id == topicId(i)
      && t.pageNumbers == []
      && t.content == r.topics[i].description + "\n\n" + r.topics[i].content
  {
  }

  /** The orders of the mapped topics are their positions, so they are
      strictly increasing. */
  lemma {:induction false} PathTopicOrdersIncrease(r: LearningPathResponse, documentId: string, id: string,
                                                  topicId: int -> string, createdAt: int)
    ensures var ts := PathToDomain(r, documentId, id, topicId, createdAt).topics;
      forall i, j :: 0 <= i < j < |ts| ==> ts[i].order < ts[j].order
  {
  }

  /** `QuestionResponse.toDomain()`: every field copied, with no check that
      the correct answer names one of the options. */
  function QuestionToDomain(q: QuestionResponse, id: string): (r: Question)
    ensures r.text == q.question && r.options == q.options && r.correctAnswer == q.correctAnswer
    ensures r.explanation == q.explanation && r.id == id
  {
    Question(id, q.question, q.options, q.correctAnswer, q.explanation)
  }

  /** `QuizResponse.toDomain(topicId)`. */
  function QuizToDomain(r: QuizResponse, topicId: string, id: string, questionId: int -> string): (q: Quiz)
    ensures q.id == id && q.topicId == topicId
    ensures |q.questions| == |r.questions|
    ensures forall i :: 0 <= i < |r.questions| ==> q.questions[i] == QuestionToDomain(r.questions[i], questionId(i))
  {
    Quiz(id, topicId, seq(|r.questions|, i requires 0 <= i < |r.questions| => QuestionToDomain(r.questions[i], questionId(i))))
  }

  /** The mapper performs no validation: an answer index outside the
      options is carried into the quiz as it is. */
  lemma {:induction false} QuizMapperKeepsBadAnswer(topicId: string, id: string, questionId: int -> string)
    ensures var r := QuizResponse([QuestionResponse("¿?", ["a", "b"], 7, "")]);
      var q := QuizToDomain(r, topicId, id, questionId);
      |q.questions| == 1 && q.questions[0].correctAnswer == 7 && |q.questions[0].options| == 2
  {
  }
}
