/**
 * Structural validation of loaded quiz data (`validateQuestion`,
 * `validateQuestions`): each check that fails pushes one message, and a
 * result is valid exactly when no message was pushed.
 */
module Validation {
  import opened JsText
  import opened JsValue
  import opened QuizTypes

  /** `ValidationResult`. */
  datatype ValidationResult = ValidationResult(isValid: bool, errors: seq<string>)

  /** The four properties that must hold a non-blank string, in the order they are checked with `options` between explanation and context. */
  datatype Field = QuestionField | AnswerField | ExplanationField | ContextField

  function FieldName(f: Field): string
  {
    match f
    case QuestionField => "question"
    case AnswerField => "answer"
    case ExplanationField => "explanation"
    case ContextField => "context"
  }

  /** The checks of `validateQuestion` that can fail. */
  datatype Problem = NotAnObject | BadString(field: Field) | BadOptions | NonStringOption

  /** The message pushed for each failed check. */
  function Message(p: Problem): string
  {
    match p
    case NotAnObject => "Question must be an object"
    case BadString(f) => "Missing or invalid \"" + FieldName(f) + "\" field"
    case BadOptions => "Missing or invalid \"options\" field (must be a non-empty array)"
    case NonStringOption => "All options must be strings"
  }

  function Messages(ps: seq<Problem>): (r: seq<string>)
    ensures |r| == |ps| && forall i | 0 <= i < |ps| :: r[i] == Message(ps[i])
  {
    seq(|ps|, i requires 0 <= i < |ps| => Message(ps[i]))
  }

  /** `!obj || typeof obj !== 'object'` is false: the value is a non-null object, and arrays count. */
  predicate IsObjectLike(v: Value)
  {
    IsTruthy(v) && TypeOf(v) == ObjectType
  }

  /** `s` holds a character `trim` keeps. */
  predicate HasVisible(s: string)
  {
    s != [] && (!IsWhitespace(s[0]) || HasVisible(s[1..]))
  }

  /** Holding a character `trim` keeps is being non-blank. */
  lemma {:induction false} HasVisibleIffNotBlank(s: string)
    ensures HasVisible(s) <==> !IsBlank(s)
    decreases |s|
  {
    BlankIffAllWhitespace(s);
    if s != [] {
      HasVisibleIffNotBlank(s[1..]);
      BlankIffAllWhitespace(s[1..]);
      if AllWhitespace(s) {
        assert forall i | 0 <= i < |s[1..]| :: s[1..][i] == s[i + 1];
      }
    }
  }

  /** `typeof x === 'string' && x.trim() !== ''` (see `FilledIffNonBlank`). */
  predicate IsFilledString(v: Value)
  {
    v.Str? && HasVisible(v.s)
  }

  lemma FilledIffNonBlank(v: Value)
    ensures IsFilledString(v) <==> v.Str? && !IsBlank(v.s)
  {
    if v.Str? {
      HasVisibleIffNotBlank(v.s);
    }
  }

  /** `Array.isArray(x) && x.length !== 0`. */
  predicate IsNonEmptyArray(v: Value)
  {
    v.Arr? && |v.items| != 0
  }

  /** `x.some(opt => typeof opt !== 'string')`. */
  predicate SomeNonString(items: seq<Value>)
  {
    exists k | 0 <= k < |items| :: !items[k].Str?
  }

  /** The one problem, if any, of a string property. */
  function StringProblem(obj: Value, f: Field): (r: seq<Problem>)
    ensures |r| <= 1 && forall i | 0 <= i < |r| :: r[i] == BadString(f)
  {
    if IsFilledString(Get(obj, FieldName(f))) then [] else [BadString(f)]
  }

  /** The one problem, if any, of the `options` property: a missing, non-array or empty value, or else some non-string element. */
  function OptionsProblem(obj: Value): (r: seq<Problem>)
    ensures |r| <= 1 && forall i | 0 <= i < |r| :: r[i] == BadOptions || r[i] == NonStringOption
  {
    var o := Get(obj, "options");
    if !IsNonEmptyArray(o) then [BadOptions]
    else if SomeNonString(o.items) then [NonStringOption]
    else []
  }

  /** The failed checks of `validateQuestion(obj)`, in the order they are made. */
  function QuestionProblems(obj: Value): seq<Problem>
  {
    if !IsObjectLike(obj) then [NotAnObject]
    else
      StringProblem(obj, QuestionField) + StringProblem(obj, AnswerField) +
      StringProblem(obj, ExplanationField) + OptionsProblem(obj) + StringProblem(obj, ContextField)
  }

  /** `validateQuestion(obj).isValid`. */
  predicate IsValidQuestion(obj: Value)
  {
    QuestionProblems(obj) == []
  }

  /** Messages of problems appended are messages appended. */
  lemma MessagesAppend(ps: seq<Problem>, qs: seq<Problem>)
    ensures Messages(ps + qs) == Messages(ps) + Messages(qs)
  {
  }

  /** The problems of an object are those of its five property checks, in order. */
  lemma ObjectProblems(obj: Value)
    requires IsObjectLike(obj)
    ensures QuestionProblems(obj) == [] + StringProblem(obj, QuestionField) + StringProblem(obj, AnswerField) +
      StringProblem(obj, ExplanationField) + OptionsProblem(obj) + StringProblem(obj, ContextField)
  {
  }

  /** `if (typeof x !== 'string' || x.trim() === '') errors.push(...)` for one string property. */
  method CheckString(obj: Value, f: Field, errors: seq<string>, ghost problems: seq<Problem>) returns (next: seq<string>)
    requires errors == Messages(problems)
    ensures next == Messages(problems + StringProblem(obj, f))
  {
    MessagesAppend(problems, StringProblem(obj, f));
    next := errors;
    if !IsFilledString(Get(obj, FieldName(f))) {
      next := errors + [Message(BadString(f))];
    }
  }

  /** The `options` check: a missing, non-array or empty value, else a non-string element. */
  method CheckOptions(obj: Value, errors: seq<string>, ghost problems: seq<Problem>) returns (next: seq<string>)
    requires errors == Messages(problems)
    ensures next == Messages(problems + OptionsProblem(obj))
  {
    MessagesAppend(problems, OptionsProblem(obj));
    next := errors;
    var options := Get(obj, "options");
    if !options.Arr? || |options.items| == 0 {
      MessagesOne(BadOptions);
      next := errors + [Message(BadOptions)];
    } else {
      var invalidOptions := SomeNonString(options.items);
      if invalidOptions {
        MessagesOne(NonStringOption);
        next := errors + [Message(NonStringOption)];
      } else {
        assert OptionsProblem(obj) == [];
      }
    }
  }

  lemma MessagesOne(p: Problem)
    ensures Messages([p]) == [Message(p)]
  {
  }

  /** `validateQuestion`: one conditional push per check. */
  method ValidateQuestion(obj: Value) returns (result: ValidationResult)
    ensures result.errors == Messages(QuestionProblems(obj))
    ensures result.isValid <==> IsValidQuestion(obj)
  {
    var errors: seq<string> := [];
    if !IsTruthy(obj) || TypeOf(obj) != ObjectType {
      errors := errors + [Message(NotAnObject)];
      return ValidationResult(false, errors);
    }
    ghost var problems: seq<Problem> := [];
    errors := CheckString(obj, QuestionField, errors, problems);
    problems := problems + StringProblem(obj, QuestionField);
    errors := CheckString(obj, AnswerField, errors, problems);
    problems := problems + StringProblem(obj, AnswerField);
    errors := CheckString(obj, ExplanationField, errors, problems);
    problems := problems + StringProblem(obj, ExplanationField);
    errors := CheckOptions(obj, errors, problems);
    problems := problems + OptionsProblem(obj);
    errors := CheckString(obj, ContextField, errors, problems);
    problems := problems + StringProblem(obj, ContextField);
    ObjectProblems(obj);
    return ValidationResult(|errors| == 0, errors);
  }

  // ---------------------------------------------------------------------
  // What a single question's result means

  /** The position of each check in the order `validateQuestion` makes them. */
  function Rank(p: Problem): nat
  {
    match p
    case NotAnObject => 0
    case BadString(QuestionField) => 0
    case BadString(AnswerField) => 1
    case BadString(ExplanationField) => 2
    case BadOptions => 3
    case NonStringOption => 3
    case BadString(ContextField) => 4
  }

  /** Strictly increasing ranks. */
  predicate Ordered(ps: seq<Problem>)
  {
    forall i, j | 0 <= i < j < |ps| :: Rank(ps[i]) < Rank(ps[j])
  }

  predicate RanksBelow(ps: seq<Problem>, k: nat)
  {
    forall i | 0 <= i < |ps| :: Rank(ps[i]) < k
  }

  /** At most one problem, of rank `k`. */
  predicate AtMostOneOfRank(part: seq<Problem>, k: nat)
  {
    |part| <= 1 && forall i | 0 <= i < |part| :: Rank(part[i]) == k
  }

  /** Appending at most one problem of rank `k` after problems of smaller rank keeps the order. */
  lemma OrderedStep(ps: seq<Problem>, part: seq<Problem>, k: nat)
    requires Ordered(ps) && RanksBelow(ps, k) && |ps| <= k
    requires AtMostOneOfRank(part, k)
    ensures Ordered(ps + part) && RanksBelow(ps + part, k + 1) && |ps + part| <= k + 1
  {
  }

  /** Five parts of at most one problem each, of ranks 0 to 4, concatenate to an ordered list of at most five. */
  lemma OrderedFive(a: seq<Problem>, b: seq<Problem>, c: seq<Problem>, d: seq<Problem>, e: seq<Problem>)
    requires AtMostOneOfRank(a, 0) && AtMostOneOfRank(b, 1) && AtMostOneOfRank(c, 2)
    requires AtMostOneOfRank(d, 3) && AtMostOneOfRank(e, 4)
    ensures Ordered(a + b + c + d + e) && |a + b + c + d + e| <= 5
  {
    OrderedStep([], a, 0);
    assert [] + a == a;
    OrderedStep(a, b, 1);
    OrderedStep(a + b, c, 2);
    OrderedStep(a + b + c, d, 3);
    OrderedStep(a + b + c + d, e, 4);
  }

  /** Errors come out in the fixed order question, answer, explanation, options, context, each at most once, so there are at most five. */
  lemma ProblemsOrdered(obj: Value)
    ensures Ordered(QuestionProblems(obj)) && |QuestionProblems(obj)| <= 5
  {
    if IsObjectLike(obj) {
      var a := StringProblem(obj, QuestionField);
      var b := StringProblem(obj, AnswerField);
      var c := StringProblem(obj, ExplanationField);
      var d := OptionsProblem(obj);
      var e := StringProblem(obj, ContextField);
      assert AtMostOneOfRank(a, 0) && AtMostOneOfRank(b, 1) && AtMostOneOfRank(c, 2);
      assert AtMostOneOfRank(d, 3) && AtMostOneOfRank(e, 4);
      OrderedFive(a, b, c, d, e);
    }
  }

  /** A value that is not a non-null object gets exactly the one object error. */
  lemma NonObjectOneError(obj: Value)
    requires !(obj.Arr? || obj.Obj?)
    ensures QuestionProblems(obj) == [NotAnObject]
  {
  }

  /** Arrays pass the object check but have none of the properties: all five property checks fail. */
  lemma ArrayFailsEveryCheck(items: seq<Value>)
    ensures QuestionProblems(Arr(items)) ==
      [BadString(QuestionField), BadString(AnswerField), BadString(ExplanationField), BadOptions, BadString(ContextField)]
  {
  }

  /** A string property's error can come only from that property's check. */
  lemma StringProblemIn(obj: Value, f: Field, g: Field)
    ensures BadString(f) in StringProblem(obj, g) <==> f == g && !IsFilledString(Get(obj, FieldName(f)))
    ensures BadString(f) !in OptionsProblem(obj)
  {
    if BadString(f) in StringProblem(obj, g) {
      assert StringProblem(obj, g)[0] == BadString(f);
    }
  }

  /** Each string property contributes its error exactly when the value is an object whose property is not a non-blank string. */
  lemma StringFieldErrorIff(obj: Value, f: Field)
    ensures BadString(f) in QuestionProblems(obj) <==>
      IsObjectLike(obj) && !IsFilledString(Get(obj, FieldName(f)))
  {
    if IsObjectLike(obj) {
      StringProblemIn(obj, f, QuestionField);
      StringProblemIn(obj, f, AnswerField);
      StringProblemIn(obj, f, ExplanationField);
      StringProblemIn(obj, f, ContextField);
    }
  }

  /** `options` contributes its error exactly when it is missing, not an array or empty, and otherwise one error if any element is not a string. */
  lemma OptionsErrorIff(obj: Value)
    ensures BadOptions in QuestionProblems(obj) <==> IsObjectLike(obj) && !IsNonEmptyArray(Get(obj, "options"))
    ensures NonStringOption in QuestionProblems(obj) <==>
      IsObjectLike(obj) && IsNonEmptyArray(Get(obj, "options")) && SomeNonString(Get(obj, "options").items)
  {
    if IsObjectLike(obj) {
      var a := StringProblem(obj, QuestionField);
      var b := StringProblem(obj, AnswerField);
      var c := StringProblem(obj, ExplanationField);
      var e := StringProblem(obj, ContextField);
      assert BadOptions !in a && BadOptions !in b && BadOptions !in c && BadOptions !in e;
      assert NonStringOption !in a && NonStringOption !in b && NonStringOption !in c && NonStringOption !in e;
    }
  }

  /** `validateQuestion` passes exactly when the value is an object and each of the five checks passes. */
  lemma ValidIffChecksPass(obj: Value)
    ensures IsValidQuestion(obj) <==>
      IsObjectLike(obj) && StringProblem(obj, QuestionField) == [] && StringProblem(obj, AnswerField) == [] &&
      StringProblem(obj, ExplanationField) == [] && OptionsProblem(obj) == [] && StringProblem(obj, ContextField) == []
  {
  }

  /** A question object as the validator wants it: an object with four non-blank strings and a non-empty array of strings. */
  predicate WellFormedQuestion(obj: Value)
  {
    obj.Obj? &&
    (forall f: Field :: IsFilledString(Get(obj, FieldName(f)))) &&
    var o := Get(obj, "options");
    o.Arr? && |o.items| > 0 && forall k | 0 <= k < |o.items| :: o.items[k].Str?
  }

  /** The four string checks pass exactly when every string property is a non-blank string. */
  lemma StringChecksPass(obj: Value)
    ensures (StringProblem(obj, QuestionField) == [] && StringProblem(obj, AnswerField) == [] &&
             StringProblem(obj, ExplanationField) == [] && StringProblem(obj, ContextField) == []) <==>
            forall f: Field :: IsFilledString(Get(obj, FieldName(f)))
  {
    if StringProblem(obj, QuestionField) == [] && StringProblem(obj, AnswerField) == [] &&
       StringProblem(obj, ExplanationField) == [] && StringProblem(obj, ContextField) == [] {
      forall f: Field ensures IsFilledString(Get(obj, FieldName(f))) {
        assert StringProblem(obj, f) == [];
      }
    }
  }

  /** The `options` check passes exactly when the property is a non-empty array of strings. */
  lemma OptionsCheckPasses(obj: Value)
    ensures OptionsProblem(obj) == [] <==>
      var o := Get(obj, "options");
      o.Arr? && |o.items| > 0 && forall k | 0 <= k < |o.items| :: o.items[k].Str?
  {
  }

  /** Soundness and completeness: the validator accepts exactly the well-formed question objects. */
  lemma ValidIffWellFormed(obj: Value)
    ensures IsValidQuestion(obj) <==> WellFormedQuestion(obj)
  {
    ValidIffChecksPass(obj);
    StringChecksPass(obj);
    OptionsCheckPasses(obj);
    if IsValidQuestion(obj) {
      assert IsFilledString(Get(obj, FieldName(QuestionField)));
    }
  }

  /** The properties of a typed question's object. */
  lemma QuestionValueProps(q: Question)
    ensures var v := QuestionValue(q);
      Get(v, FieldName(QuestionField)) == Str(q.question) && Get(v, FieldName(AnswerField)) == Str(q.answer) &&
      Get(v, FieldName(ExplanationField)) == Str(q.explanation) && Get(v, FieldName(ContextField)) == Str(q.context) &&
      Get(v, "options") == Arr(Strs(q.options))
  {
  }

  /** A string property holding `s` passes its check exactly when `s` is not blank. */
  lemma StringCheckOf(obj: Value, f: Field, s: string)
    requires Get(obj, FieldName(f)) == Str(s)
    ensures StringProblem(obj, f) == [] <==> !IsBlank(s)
  {
    FilledIffNonBlank(Str(s));
  }

  /** An `options` property holding strings passes its check exactly when there is at least one. */
  lemma OptionsCheckOf(obj: Value, xs: seq<string>)
    requires Get(obj, "options") == Arr(Strs(xs))
    ensures OptionsProblem(obj) == [] <==> |xs| > 0
  {
  }

  /** A typed question passes exactly when its four text fields are non-blank and it has at least one option. */
  lemma QuestionValueValid(q: Question)
    ensures IsValidQuestion(QuestionValue(q)) <==>
      !IsBlank(q.question) && !IsBlank(q.answer) && !IsBlank(q.explanation) && !IsBlank(q.context) && |q.options| > 0
  {
    var v := QuestionValue(q);
    QuestionValueProps(q);
    StringCheckOf(v, QuestionField, q.question);
    StringCheckOf(v, AnswerField, q.answer);
    StringCheckOf(v, ExplanationField, q.explanation);
    StringCheckOf(v, ContextField, q.context);
    OptionsCheckOf(v, q.options);
    assert IsObjectLike(v);
    ValidIffChecksPass(v);
  }

  // ---------------------------------------------------------------------
  // A list of questions

  const NotAnArrayMessage := "Data must contain an array of questions"
  const EmptyArrayMessage := "Data must contain at least one question"

  /** `Question ${index + 1}: ${errors.join(', ')}`. */
  function ReportLine(index: nat, errors: seq<string>): string
  {
    "Question " + NatToString(index + 1) + ": " + JoinWith(errors, ", ")
  }

  /** The elements of `xs[..n]` that fail `ok`, each turned into `line(index, element)`, in index order. */
  function Collect<T>(xs: seq<T>, ok: T -> bool, line: (nat, T) -> string, n: nat): seq<string>
    requires n <= |xs|
  {
    if n == 0 then []
    else Collect(xs, ok, line, n - 1) + (if ok(xs[n - 1]) then [] else [line(n - 1, xs[n - 1])])
  }

  /** The positions below `n` of the elements of `xs` that fail `ok`, in increasing order. */
  function FailingPositions<T>(xs: seq<T>, ok: T -> bool, n: nat): seq<nat>
    requires n <= |xs|
  {
    if n == 0 then []
    else FailingPositions(xs, ok, n - 1) + (if ok(xs[n - 1]) then [] else [n - 1])
  }

  /** The failing positions are exactly the positions of failing elements, increasing. */
  lemma {:induction false} FailingPositionsExact<T>(xs: seq<T>, ok: T -> bool, n: nat)
    requires n <= |xs|
    ensures var ix := FailingPositions(xs, ok, n);
      (forall i | 0 <= i < |ix| :: ix[i] < n) &&
      (forall k: nat | k < n :: k in ix <==> !ok(xs[k])) &&
      (forall i, j | 0 <= i < j < |ix| :: ix[i] < ix[j])
  {
    if n > 0 {
      FailingPositionsExact(xs, ok, n - 1);
    }
  }

  /** The `j`-th collected line is the line of the `j`-th failing element. */
  lemma {:induction false} CollectFollowsFailing<T>(xs: seq<T>, ok: T -> bool, line: (nat, T) -> string, n: nat)
    requires n <= |xs|
    ensures var ix, rs := FailingPositions(xs, ok, n), Collect(xs, ok, line, n);
      |rs| == |ix| && forall j | 0 <= j < |rs| :: ix[j] < n && rs[j] == line(ix[j], xs[ix[j]])
  {
    if n > 0 {
      CollectFollowsFailing(xs, ok, line, n - 1);
      FailingPositionsExact(xs, ok, n - 1);
    }
  }

  /** The line `validateQuestions` pushes for the invalid question `obj` at `index`. */
  function QuestionReport(index: nat, obj: Value): string
  {
    ReportLine(index, Messages(QuestionProblems(obj)))
  }

  /** The lines pushed for `items[..n]`: one per invalid question, in index order. */
  function Reports(items: seq<Value>, n: nat): seq<string>
    requires n <= |items|
  {
    Collect(items, IsValidQuestion, QuestionReport, n)
  }

  /** One more question visited: its report line, if it is invalid, comes last. */
  lemma ReportsStep(items: seq<Value>, n: nat)
    requires n < |items|
    ensures Reports(items, n + 1) ==
      Reports(items, n) + (if IsValidQuestion(items[n]) then [] else [QuestionReport(n, items[n])])
  {
  }

  /** The errors after visiting question `n`, from the errors before it and that question's result. */
  lemma ReportsNext(items: seq<Value>, n: nat, errors: seq<string>, r: ValidationResult)
    requires n < |items| && errors == Reports(items, n)
    requires r.errors == Messages(QuestionProblems(items[n])) && (r.isValid <==> IsValidQuestion(items[n]))
    ensures (if r.isValid then errors else errors + [ReportLine(n, r.errors)]) == Reports(items, n + 1)
  {
    ReportsStep(items, n);
  }

  /** The errors of `validateQuestions(data)`. */
  function CollectionErrors(data: Value): seq<string>
  {
    if !data.Arr? then [NotAnArrayMessage]
    else if |data.items| == 0 then [EmptyArrayMessage]
    else Reports(data.items, |data.items|)
  }

  /** `validateQuestions`: the two guards, then one push per invalid question as `forEach` visits them. */
  method ValidateQuestions(data: Value) returns (result: ValidationResult)
    ensures result.errors == CollectionErrors(data)
    ensures result.isValid <==> result.errors == []
  {
    var errors: seq<string> := [];
    if !data.Arr? {
      errors := errors + [NotAnArrayMessage];
      return ValidationResult(false, errors);
    }
    if |data.items| == 0 {
      errors := errors + [EmptyArrayMessage];
      return ValidationResult(false, errors);
    }
    errors := ReportInvalid(data.items);
    return ValidationResult(|errors| == 0, errors);
  }

  /** The `forEach` of `validateQuestions`: one line per invalid question, in index order. */
  method ReportInvalid(items: seq<Value>) returns (errors: seq<string>)
    ensures errors == Reports(items, |items|)
  {
    errors := [];
    var index := 0;
    while index < |items|
      invariant 0 <= index <= |items|
      invariant errors == Reports(items, index)
    {
      errors := ReportOne(items, index, errors);
      index := index + 1;
    }
  }

  /** The `forEach` callback: validates question `index` and pushes its report line when it is invalid. */
  method ReportOne(items: seq<Value>, index: nat, errors: seq<string>) returns (next: seq<string>)
    requires index < |items| && errors == Reports(items, index)
    ensures next == Reports(items, index + 1)
  {
    var r := ValidateQuestion(items[index]);
    ReportsNext(items, index, errors, r);
    next := errors;
    if !r.isValid {
      next := errors + [ReportLine(index, r.errors)];
    }
  }

  /** The indices of the invalid questions among `items[..n]`. */
  function InvalidIndices(items: seq<Value>, n: nat): seq<nat>
    requires n <= |items|
  {
    FailingPositions(items, IsValidQuestion, n)
  }

  /** The invalid indices are exactly the indices of invalid questions, increasing. */
  lemma InvalidIndicesExact(items: seq<Value>, n: nat)
    requires n <= |items|
    ensures var ix := InvalidIndices(items, n);
      (forall i | 0 <= i < |ix| :: ix[i] < n) &&
      (forall k: nat | k < n :: k in ix <==> !IsValidQuestion(items[k])) &&
      (forall i, j | 0 <= i < j < |ix| :: ix[i] < ix[j])
  {
    FailingPositionsExact(items, IsValidQuestion, n);
  }

  /** The `j`-th report line names the `j`-th invalid question, 1-based, followed by its errors joined with `, `. */
  lemma ReportsFollowInvalid(items: seq<Value>, n: nat)
    requires n <= |items|
    ensures var ix, rs := InvalidIndices(items, n), Reports(items, n);
      |rs| == |ix| &&
      forall j | 0 <= j < |rs| :: ix[j] < n && rs[j] == ReportLine(ix[j], Messages(QuestionProblems(items[ix[j]])))
  {
    CollectFollowsFailing(items, IsValidQuestion, QuestionReport, n);
  }

  /** Nothing is collected exactly when every element passes. */
  lemma {:induction false} CollectEmptyIff<T>(xs: seq<T>, ok: T -> bool, line: (nat, T) -> string, n: nat)
    requires n <= |xs|
    ensures Collect(xs, ok, line, n) == [] <==> forall k | 0 <= k < n :: ok(xs[k])
  {
    if n > 0 {
      CollectEmptyIff(xs, ok, line, n - 1);
    }
  }

  /** A non-empty array is valid exactly when every element is: one invalid question anywhere makes the whole list invalid. */
  lemma CollectionValidIff(data: Value)
    ensures CollectionErrors(data) == [] <==>
      data.Arr? && |data.items| > 0 && forall k | 0 <= k < |data.items| :: IsValidQuestion(data.items[k])
  {
    if data.Arr? {
      CollectEmptyIff(data.items, IsValidQuestion, QuestionReport, |data.items|);
    }
  }

  /** A value that is not an array gets exactly the one array error, and an empty array exactly the one emptiness error. */
  lemma CollectionGuards(data: Value)
    ensures !data.Arr? ==> CollectionErrors(data) == [NotAnArrayMessage]
    ensures data == Arr([]) ==> CollectionErrors(data) == [EmptyArrayMessage]
  {
  }
}
