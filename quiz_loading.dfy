/**
 * Loading a quiz file end to end: `parseQuizData` on a row-format file,
 * followed by `validateQuestions` on what it returns. The parser does not
 * validate; these lemmas say what the validator then makes of its output.
 */
module QuizLoading {
  import opened Wrappers
  import opened JsText
  import opened JsValue
  import opened QuizTypes
  import opened ToonCodec
  import opened ToonSniff
  import opened Validation

  /** The four text fields of a question are non-blank. */
  predicate TextsFilled(q: Question)
  {
    !IsBlank(q.question) && !IsBlank(q.answer) && !IsBlank(q.explanation) && !IsBlank(q.context)
  }

  /** On questions the row format carries unchanged, the parsed objects are the questions' own objects. */
  lemma ObjectsAreValues(qs: seq<Question>)
    requires forall k | 0 <= k < |qs| :: RoundTrips(qs[k])
    ensures QuestionObjects(qs) == QuestionValues(qs)
  {
    var objs, vals := QuestionObjects(qs), QuestionValues(qs);
    forall k | 0 <= k < |qs| ensures objs[k] == vals[k] {
      QuestionObjectIsQuestion(qs[k]);
    }
    SameElements(objs, vals);
  }

  /** A row-format file of questions the format carries unchanged loads as those questions. */
  lemma LoadedQuestions(qs: seq<Question>)
    requires qs != [] && forall k | 0 <= k < |qs| :: RoundTrips(qs[k])
    ensures ParseQuizData(Encode(qs)) == ToonRoute(Ok(QuestionValues(qs)))
  {
    ParseEncoded(qs);
    ObjectsAreValues(qs);
  }

  /** A non-empty list of typed questions passes validation exactly when every question's texts are non-blank and it has an option. */
  lemma TypedQuestionsValidate(qs: seq<Question>)
    requires qs != []
    ensures CollectionErrors(Arr(QuestionValues(qs))) == [] <==>
              forall k | 0 <= k < |qs| :: TextsFilled(qs[k]) && |qs[k].options| > 0
  {
    var vals := QuestionValues(qs);
    CollectionValidIff(Arr(vals));
    forall k | 0 <= k < |qs| ensures IsValidQuestion(vals[k]) <==> TextsFilled(qs[k]) && |qs[k].options| > 0 {
      QuestionValueValid(qs[k]);
    }
  }

  /** Loading then validating: a row-format file of questions the format carries unchanged is accepted exactly when every question's texts are non-blank and it has an option. */
  lemma LoadedQuestionsValidate(qs: seq<Question>)
    requires qs != [] && forall k | 0 <= k < |qs| :: RoundTrips(qs[k])
    ensures ParseQuizData(Encode(qs)) == ToonRoute(Ok(QuestionValues(qs)))
    ensures CollectionErrors(Arr(QuestionValues(qs))) == [] <==>
              forall k | 0 <= k < |qs| :: TextsFilled(qs[k]) && |qs[k].options| > 0
  {
    LoadedQuestions(qs);
    TypedQuestionsValidate(qs);
  }

  /** The question whose every field is empty. */
  predicate IsEmptyQuestion(q: Question)
  {
    q.question == [] && q.answer == [] && q.explanation == [] && q.options == [] && q.context == []
  }

  /** The empty question loads from the row format as its own object: parsing checks nothing. */
  lemma EmptyQuestionLoads(q: Question)
    requires IsEmptyQuestion(q)
    ensures ParseQuizData(Encode([q])) == ToonRoute(Ok([QuestionValue(q)]))
  {
    ParseKeepsBlankQuestion(q);
    OneObject(q);
  }

  /** The decoded objects of a one-question list without options. */
  lemma OneObject(q: Question)
    requires q.options == []
    ensures QuestionObjects([q]) == [QuestionValue(q)]
  {
    EmptyQuestionObject(q);
    SameElements(QuestionObjects([q]), [QuestionValue(q)]);
  }

  /** Without options, the decoded object is the question's own object. */
  lemma EmptyQuestionObject(q: Question)
    requires q.options == []
    ensures QuestionObject(q) == QuestionValue(q)
  {
    PaddedOptionsFiltered(q.options);
    assert NonBlank(PadOptions(q.options)[..4]) == q.options;
  }

  /** The empty question fails all five checks, in the validator's order. */
  lemma EmptyQuestionProblems(q: Question)
    requires IsEmptyQuestion(q)
    ensures QuestionProblems(QuestionValue(q)) ==
      [BadString(QuestionField), BadString(AnswerField), BadString(ExplanationField), BadOptions, BadString(ContextField)]
  {
    var v := QuestionValue(q);
    QuestionValueProps(q);
    EmptyStringProblem(v, QuestionField);
    EmptyStringProblem(v, AnswerField);
    EmptyStringProblem(v, ExplanationField);
    EmptyStringProblem(v, ContextField);
    assert Strs([]) == [];
    assert OptionsProblem(v) == [BadOptions];
    assert IsObjectLike(v);
    ObjectProblems(v);
    FiveSingles(StringProblem(v, QuestionField), StringProblem(v, AnswerField), StringProblem(v, ExplanationField),
      OptionsProblem(v), StringProblem(v, ContextField),
      BadString(QuestionField), BadString(AnswerField), BadString(ExplanationField), BadOptions, BadString(ContextField));
  }

  /** An empty string property fails its check. */
  lemma EmptyStringProblem(v: Value, f: Field)
    requires Get(v, FieldName(f)) == Str([])
    ensures StringProblem(v, f) == [BadString(f)]
  {
  }

  lemma FiveSingles<T>(a: seq<T>, b: seq<T>, c: seq<T>, d: seq<T>, e: seq<T>, x1: T, x2: T, x3: T, x4: T, x5: T)
    requires a == [x1] && b == [x2] && c == [x3] && d == [x4] && e == [x5]
    ensures [] + a + b + c + d + e == [x1, x2, x3, x4, x5]
  {
  }

  /** A one-question list whose question is invalid gets exactly one report line, for question 1. */
  lemma SingleInvalidReport(v: Value)
    requires !IsValidQuestion(v)
    ensures CollectionErrors(Arr([v])) == [ReportLine(0, Messages(QuestionProblems(v)))]
  {
    ReportsStep([v], 0);
  }

  /** Loading then validating the empty question: parsing accepts it and validation reports all five checks under question 1. */
  lemma EmptyQuestionLoadedThenRejected(q: Question)
    requires IsEmptyQuestion(q)
    ensures ParseQuizData(Encode([q])) == ToonRoute(Ok([QuestionValue(q)]))
    ensures CollectionErrors(Arr([QuestionValue(q)])) ==
      [ReportLine(0, Messages([BadString(QuestionField), BadString(AnswerField), BadString(ExplanationField),
                               BadOptions, BadString(ContextField)]))]
  {
    EmptyQuestionLoads(q);
    EmptyQuestionProblems(q);
    QuestionValueValid(q);
    SingleInvalidReport(QuestionValue(q));
  }
}
