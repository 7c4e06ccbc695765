/** The shared records of the quiz application. */
module QuizTypes {
  import opened Wrappers
  import opened JsValue

  /** One quiz item; `options[i]` is the option labelled `A + i`. */
  datatype Question = Question(
    question: string,
    answer: string,
    explanation: string,
    options: seq<string>,
    context: string)

  /** The phase of a quiz session. */
  datatype Mode = Selection | Practice | Test | Results

  /** A final score, standing for the percentage `(correct / total) * 100` the application computes in floating point. */
  datatype Score = Percentage(correct: nat, total: nat)

  /** The overall state of a quiz session; a missing answer, timer or score is `null` in the application. */
  datatype QuizState = QuizState(
    mode: Mode,
    questions: seq<Question>,
    currentQuestionIndex: int,
    userAnswers: map<int, string>,
    showFeedback: bool,
    timer: Option<int>,
    score: Option<Score>)

  /** A question as the plain JavaScript object it is at run time. */
  function QuestionValue(q: Question): (v: Value)
    ensures v.Obj? && v.props.Keys == {"question", "answer", "explanation", "options", "context"}
  {
    Obj(map["question" := Str(q.question), "answer" := Str(q.answer), "explanation" := Str(q.explanation),
            "options" := Arr(Strs(q.options)), "context" := Str(q.context)])
  }

  /** A list of questions as a JavaScript array of objects. */
  function QuestionValues(qs: seq<Question>): (r: seq<Value>)
    ensures |r| == |qs| && forall k | 0 <= k < |qs| :: r[k] == QuestionValue(qs[k])
  {
    seq(|qs|, k requires 0 <= k < |qs| => QuestionValue(qs[k]))
  }
}
