/**
 * The progress of one quiz session (`useQuizState`): the state record, the
 * state updaters the hook hands to `setState`, and a session object whose
 * methods apply them to its fields in place.
 */
module QuizProgress {
  import opened Wrappers
  import opened QuizTypes

  /** A test allows one minute per question. */
  const SecondsPerQuestion: nat := 60

  /** The timer a session starts with: `questions.length * 60` seconds in test mode, none in practice mode. */
  function InitialTimer(mode: Mode, questionCount: nat): Option<int>
  {
    if mode == Test then Some(questionCount * SecondsPerQuestion) else None
  }

  /** The state `useState` starts from. */
  function Initial(questions: seq<Question>, mode: Mode): QuizState
  {
    QuizState(mode, questions, 0, map[], false, InitialTimer(mode, |questions|), None)
  }

  /** `canChangeMode`, where `questionCount` is the length of the questions the hook was called with. */
  predicate CanChangeMode(s: QuizState, questionCount: nat)
  {
    s.currentQuestionIndex == 0 && (s.timer == None || s.timer == Some(questionCount * SecondsPerQuestion))
  }

  /** `userAnswers.get(i) === questions[i].answer`: an unanswered question is never correct. */
  predicate AnsweredCorrectly(questions: seq<Question>, answers: map<int, string>, i: nat)
    requires i < |questions|
  {
    i in answers && answers[i] == questions[i].answer
  }

  /** The number of correctly answered questions among the first `n`. */
  function CorrectCount(questions: seq<Question>, answers: map<int, string>, n: nat): nat
    requires n <= |questions|
  {
    if n == 0 then 0
    else CorrectCount(questions, answers, n - 1) + (if AnsweredCorrectly(questions, answers, n - 1) then 1 else 0)
  }

  /** The operations the hook returns, each one `setState` call. */
  datatype Action =
    | RecordAnswer(answer: string)
    | GoToNext
    | GoToPrevious
    | ShowFeedback
    | HideFeedback
    | UpdateTimer(newTime: int)
    | CompleteQuiz

  /** The updater each operation passes to `setState`: the new state from the previous one. */
  function Step(prev: QuizState, action: Action): QuizState
  {
    match action
    case RecordAnswer(answer) =>
      prev.(userAnswers := prev.userAnswers[prev.currentQuestionIndex := answer])
    case GoToNext =>
      if prev.currentQuestionIndex < |prev.questions| - 1 then
        prev.(currentQuestionIndex := prev.currentQuestionIndex + 1, showFeedback := false)
      else prev
    case GoToPrevious =>
      if prev.currentQuestionIndex > 0 then
        prev.(currentQuestionIndex := prev.currentQuestionIndex - 1, showFeedback := false)
      else prev
    case ShowFeedback => prev.(showFeedback := true)
    case HideFeedback => prev.(showFeedback := false)
    case UpdateTimer(newTime) => prev.(timer := Some(newTime))
    case CompleteQuiz =>
      prev.(mode := Results,
            score := Some(Percentage(CorrectCount(prev.questions, prev.userAnswers, |prev.questions|), |prev.questions|)))
  }

  /** The state after a sequence of operations. */
  function Run(s: QuizState, actions: seq<Action>): QuizState
    decreases |actions|
  {
    if actions == [] then s else Run(Step(s, actions[0]), actions[1..])
  }

  /** The current index designates a question, or is 0 when there are none. */
  predicate IndexInRange(s: QuizState)
  {
    0 <= s.currentQuestionIndex && (s.currentQuestionIndex < |s.questions| || s.currentQuestionIndex == 0)
  }

  // ---------------------------------------------------------------------
  // Properties of the updaters

  /** Mode changes are allowed when a session starts, in either mode. */
  lemma InitialCanChangeMode(questions: seq<Question>, mode: Mode)
    ensures CanChangeMode(Initial(questions, mode), |questions|)
    ensures IndexInRange(Initial(questions, mode))
  {
  }

  /** Every operation keeps the index in range. */
  lemma StepKeepsIndexInRange(s: QuizState, action: Action)
    requires IndexInRange(s)
    ensures IndexInRange(Step(s, action))
  {
  }

  /** No operation changes the questions. */
  lemma StepKeepsQuestions(s: QuizState, action: Action)
    ensures Step(s, action).questions == s.questions
  {
  }

  /** Any sequence of operations keeps the questions and the index range. */
  lemma {:induction false} RunInvariant(s: QuizState, actions: seq<Action>)
    requires IndexInRange(s)
    ensures Run(s, actions).questions == s.questions
    ensures IndexInRange(Run(s, actions))
    decreases |actions|
  {
    if actions != [] {
      StepKeepsIndexInRange(s, actions[0]);
      StepKeepsQuestions(s, actions[0]);
      RunInvariant(Step(s, actions[0]), actions[1..]);
    }
  }

  /** `recordAnswer(a)` stores `a` for the current question; every other answer and every other field is kept. */
  lemma RecordAnswerFrame(s: QuizState, a: string)
    ensures var r := Step(s, RecordAnswer(a));
      r.userAnswers.Keys == s.userAnswers.Keys + {s.currentQuestionIndex} &&
      r.userAnswers[s.currentQuestionIndex] == a &&
      (forall k | k in s.userAnswers && k != s.currentQuestionIndex :: r.userAnswers[k] == s.userAnswers[k]) &&
      r.(userAnswers := s.userAnswers) == s
  {
  }

  /** `goToNext` moves forward one question and hides the feedback exactly when a later question exists; otherwise nothing changes. */
  lemma GoToNextMoves(s: QuizState)
    ensures var r := Step(s, GoToNext);
      (r.currentQuestionIndex == s.currentQuestionIndex + 1 <==> s.currentQuestionIndex < |s.questions| - 1) &&
      (s.currentQuestionIndex < |s.questions| - 1 ==> !r.showFeedback && r.(currentQuestionIndex := s.currentQuestionIndex, showFeedback := s.showFeedback) == s) &&
      (s.currentQuestionIndex >= |s.questions| - 1 ==> r == s)
  {
  }

  /** `goToPrevious` moves back one question and hides the feedback exactly when the index is positive; otherwise nothing changes. */
  lemma GoToPreviousMoves(s: QuizState)
    ensures var r := Step(s, GoToPrevious);
      (r.currentQuestionIndex == s.currentQuestionIndex - 1 <==> s.currentQuestionIndex > 0) &&
      (s.currentQuestionIndex > 0 ==> !r.showFeedback && r.(currentQuestionIndex := s.currentQuestionIndex, showFeedback := s.showFeedback) == s) &&
      (s.currentQuestionIndex <= 0 ==> r == s)
  {
  }

  /** Going forward and then back returns to the same question, with the feedback hidden. */
  lemma NextThenPrevious(s: QuizState)
    requires IndexInRange(s) && s.currentQuestionIndex < |s.questions| - 1
    ensures Step(Step(s, GoToNext), GoToPrevious) == s.(showFeedback := false)
  {
  }

  /** `showFeedback`, `hideFeedback` and `updateTimer` each change their own field only. */
  lemma SettersChangeOneField(s: QuizState, t: int)
    ensures Step(s, ShowFeedback).showFeedback && Step(s, ShowFeedback).(showFeedback := s.showFeedback) == s
    ensures !Step(s, HideFeedback).showFeedback && Step(s, HideFeedback).(showFeedback := s.showFeedback) == s
    ensures Step(s, UpdateTimer(t)).timer == Some(t) && Step(s, UpdateTimer(t)).(timer := s.timer) == s
  {
  }

  /** After answering the first question and moving on, with at least two questions, the mode is locked. */
  lemma AnsweredAndMovedLocksMode(questions: seq<Question>, mode: Mode, a: string)
    requires |questions| >= 2
    ensures !CanChangeMode(Run(Initial(questions, mode), [RecordAnswer(a), GoToNext]), |questions|)
  {
    var s0 := Initial(questions, mode);
    var s1 := Step(s0, RecordAnswer(a));
    assert [RecordAnswer(a), GoToNext][1..] == [GoToNext];
    assert [GoToNext][1..] == [];
    assert Run(s0, [RecordAnswer(a), GoToNext]) == Step(s1, GoToNext);
  }

  /** Setting the timer to anything but the full allowance locks the mode. */
  lemma TimerChangeLocksMode(s: QuizState, t: int, questionCount: nat)
    requires t != questionCount * SecondsPerQuestion
    ensures !CanChangeMode(Step(s, UpdateTimer(t)), questionCount)
  {
  }

  /** The set of correctly answered questions among the first `n`. */
  function CorrectIndices(questions: seq<Question>, answers: map<int, string>, n: nat): set<nat>
    requires n <= |questions|
  {
    set i: nat | i < n && AnsweredCorrectly(questions, answers, i)
  }

  /** `correctCount` is the number of questions whose recorded answer is the right one, so it lies between 0 and `n`. */
  lemma {:induction false} CorrectCountCounts(questions: seq<Question>, answers: map<int, string>, n: nat)
    requires n <= |questions|
    ensures CorrectCount(questions, answers, n) == |CorrectIndices(questions, answers, n)|
    ensures CorrectCount(questions, answers, n) <= n
  {
    if n > 0 {
      CorrectCountCounts(questions, answers, n - 1);
      var prefix := CorrectIndices(questions, answers, n - 1);
      if AnsweredCorrectly(questions, answers, n - 1) {
        assert CorrectIndices(questions, answers, n) == prefix + {n - 1};
      } else {
        assert CorrectIndices(questions, answers, n) == prefix;
      }
    }
  }

  /** Every question answered correctly gives a full count; no answers give zero. */
  lemma {:induction false} CorrectCountExtremes(questions: seq<Question>, answers: map<int, string>, n: nat)
    requires n <= |questions|
    ensures (forall i | 0 <= i < n :: AnsweredCorrectly(questions, answers, i)) ==> CorrectCount(questions, answers, n) == n
    ensures answers == map[] ==> CorrectCount(questions, answers, n) == 0
  {
    if n > 0 {
      CorrectCountExtremes(questions, answers, n - 1);
    }
  }

  /** `completeQuiz` switches to the results and records the score; the questions, answers, index, feedback and timer are kept. */
  lemma CompleteQuizResult(s: QuizState)
    ensures var r := Step(s, CompleteQuiz);
      r.mode == Results && r.score.Some? && r.score.value.total == |s.questions| &&
      r.score.value.correct == |CorrectIndices(s.questions, s.userAnswers, |s.questions|)| &&
      r.score.value.correct <= r.score.value.total &&
      r.(mode := s.mode, score := s.score) == s
  {
    CorrectCountCounts(s.questions, s.userAnswers, |s.questions|);
  }

  // ---------------------------------------------------------------------
  // The session object

  /** A session whose fields hold the state record; each method is one operation of the hook. */
  class QuizSession {
    var mode: Mode
    var questions: seq<Question>
    var currentQuestionIndex: int
    var userAnswers: map<int, string>
    var showFeedback: bool
    var timer: Option<int>
    var score: Option<Score>

    /** The state record the fields hold. */
    function State(): QuizState
      reads this
    {
      QuizState(mode, questions, currentQuestionIndex, userAnswers, showFeedback, timer, score)
    }

    ghost predicate Valid()
      reads this
    {
      IndexInRange(State())
    }

    /** `useQuizState(questions, mode)`. */
    constructor (questions: seq<Question>, mode: Mode)
      requires mode == Practice || mode == Test
      ensures Valid() && State() == Initial(questions, mode)
    {
      this.mode := mode;
      this.questions := questions;
      currentQuestionIndex := 0;
      userAnswers := map[];
      showFeedback := false;
      timer := if mode == Test then Some(|questions| * SecondsPerQuestion) else None;
      score := None;
    }

    /** `canChangeMode`, for a hook called with `questionCount` questions. */
    method CanChangeModeNow(questionCount: nat) returns (allowed: bool)
      ensures allowed <==> CanChangeMode(State(), questionCount)
    {
      allowed := currentQuestionIndex == 0 && (timer == None || timer == Some(questionCount * SecondsPerQuestion));
    }

    method RecordAnswer(answer: string)
      requires Valid()
      modifies this
      ensures Valid() && State() == Step(old(State()), Action.RecordAnswer(answer))
    {
      userAnswers := userAnswers[currentQuestionIndex := answer];
    }

    method GoToNext()
      requires Valid()
      modifies this
      ensures Valid() && State() == Step(old(State()), Action.GoToNext)
    {
      if currentQuestionIndex < |questions| - 1 {
        currentQuestionIndex := currentQuestionIndex + 1;
        showFeedback := false;
      }
    }

    method GoToPrevious()
      requires Valid()
      modifies this
      ensures Valid() && State() == Step(old(State()), Action.GoToPrevious)
    {
      if currentQuestionIndex > 0 {
        currentQuestionIndex := currentQuestionIndex - 1;
        showFeedback := false;
      }
    }

    method ShowFeedback()
      requires Valid()
      modifies this
      ensures Valid() && State() == Step(old(State()), Action.ShowFeedback)
    {
      showFeedback := true;
    }

    method HideFeedback()
      requires Valid()
      modifies this
      ensures Valid() && State() == Step(old(State()), Action.HideFeedback)
    {
      showFeedback := false;
    }

    method UpdateTimer(newTime: int)
      requires Valid()
      modifies this
      ensures Valid() && State() == Step(old(State()), Action.UpdateTimer(newTime))
    {
      timer := Some(newTime);
    }

    /** `completeQuiz`: counts the correct answers with the `forEach` loop, then switches to the results. */
    method CompleteQuiz()
      requires Valid()
      modifies this
      ensures Valid() && State() == Step(old(State()), Action.CompleteQuiz)
    {
      var correctCount := 0;
      var index := 0;
      while index < |questions|
        invariant 0 <= index <= |questions|
        invariant correctCount == CorrectCount(questions, userAnswers, index)
      {
        if index in userAnswers && userAnswers[index] == questions[index].answer {
          correctCount := correctCount + 1;
        }
        index := index + 1;
      }
      mode := Results;
      score := Some(Percentage(correctCount, |questions|));
    }
  }
}
