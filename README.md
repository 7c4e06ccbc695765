# jsonQuizApp core, modelled in Dafny

jsonQuizApp is a browser quiz player. A quiz is a list of questions. Each question has a question text, an answer letter, an explanation, up to four options and a context line. This project models the four pieces of logic behind the screens:

- **The TOON row format** (`src/utils/toon.ts`). `questionsToToon` writes a schema header `questions[N]{question,answer,explanation,option1,option2,option3,option4,context}:` followed by one indented, comma-separated row per question. `toonToQuestions` reads that format back: schema search, required-column check, a quote-aware row scanner (`parseCSVLine`), column mapping, and a row-count check. `isToonFormat` sniffs text with three patterns. `parseQuizData` routes text to the decoder or to the JSON parser. `formatToonContent` and `getSampleToonFormat` complete the file.
- **The structural validator** (`src/utils/validation.ts`). `validateQuestion` and `validateQuestions` check a loosely typed value and build an ordered list of error strings.
- **The quiz-progress state machine** (`src/hooks/useQuizState.ts`): the current index, the answer map, the feedback flag, the timer, the mode and the score, with the transitions the hook hands to the UI.
- **The keyboard dispatch rule** (`src/hooks/useKeyboardNavigation.ts`): which handler, if any, a key press invokes.

Modules:

- `Wrappers`: `Option` and `Result`. A thrown error is an `Err`.
- `JsText`: the JavaScript string built-ins the source relies on. It covers `trim`, the `\s` and `\w` classes, `split`, `join`, `startsWith` and decimal conversion, written as explicit definitions with their own lemmas.
- `JsValue`: a loose JavaScript value (undefined, null, boolean, number, string, array, object map). It is the input of the validator and the output of the decoder, which builds objects with arbitrary keys.
- `QuizTypes`: the `Question` and `QuizState` records of `src/types.ts`.
- `ToonCsv`: the row scanner. It is specified as a fold of a per-character step over a scan state, and `ParseCsvLine` is its loop.
- `ToonCodec`: the encoder and decoder, their loops as methods, the round trip and its side conditions, and the decoder's error causes.
- `ToonSniff`: the sniffer, the routing, `formatToonContent` and the sample.
- `Validation`: both validators, as methods that append to an error list, each proved equal to a specification function.
- `QuizProgress`: the state machine. Transitions are a function `Step`, and the class `QuizSession` updates its fields in place.
- `KeyboardNavigation`: the dispatch decision as a function of (enabled, target, key).
- `QuizLoading`: the parser followed by the validator, end to end.

`event.key` is a sequence of UTF-16 code units, and JavaScript string comparison is lexicographic on them; the model keeps both.

## Model

| member | source | states |
|---|---|---|
| ToonCodec.PadOptions | src/utils/toon.ts:20-21 | the padded options keep the given ones as a prefix, have length 4 when there were fewer, and every added entry is `''` |
| ToonCodec.RowFields | src/utils/toon.ts:24-32 | a row has exactly 8 fields: question, answer, explanation, options 1-4 (the k-th option or `''`, options past the fourth dropped), context |
| ToonCodec.QuoteFieldShape | src/utils/toon.ts:33-38 | a field with a comma is emitted between `"` marks and its inner text undoubles back to the field; a field without a comma is emitted verbatim |
| ToonCodec.UndoubleDoubleQuotes | src/utils/toon.ts:36 | doubling every `"` is undone by collapsing each `""` pair, so quoting loses no information on the encoding side |
| ToonCodec.DoubleQuotes | src/utils/toon.ts:36 | doubling never shortens a field and leaves a field without `"` unchanged |
| ToonCodec.QuoteAll | src/utils/toon.ts:24-39 | every field of a row is quoted independently, position by position |
| ToonCodec.EncodedRows | src/utils/toon.ts:18-42 | one row line per question, in order |
| ToonCodec.EncodeQuestionRow | src/utils/toon.ts:18-41 | the padding loop and the quoting produce the row line of the specification |
| ToonCodec.QuestionsToToon | src/utils/toon.ts:11-45 | the encoder's loop returns the specified encoding: `''` for no questions, otherwise the header and rows joined by newlines |
| ToonCodec.EncodeLines | src/utils/toon.ts:14-44 | a non-empty encoding is the newline join of the header and one line per question |
| ToonCodec.HeaderShape | src/utils/toon.ts:15 | the header starts with `q`, ends with `:` and holds no newline |
| ToonCodec.HeaderSchema | src/utils/toon.ts:57 | the schema search finds the encoder's own header, with the question count and the eight column names |
| ToonCodec.HeaderFieldsRequired | src/utils/toon.ts:64-68 | the encoder's column list splits into exactly the required names, so it passes the required-column check |
| ToonCodec.RunEnd | src/utils/toon.ts:57 | the end of a character run: every character before it is in the class and the one at it is not |
| ToonCodec.FindSchemaNone | src/utils/toon.ts:57 | the unanchored schema search fails exactly when the pattern matches at no position |
| ToonCodec.FindSchemaLeftmost | src/utils/toon.ts:57 | a successful unanchored search returns the match at the leftmost position where the pattern matches |
| ToonCodec.SchemaAtStart | src/utils/toon.ts:57 | a line `questions[<digits>]{<no '}'>}:` matches with the decimal value of the digits and the field list |
| ToonCodec.Message | src/utils/toon.ts:60-109 | every thrown message starts with `Invalid TOON format: ` |
| ToonCodec.DecodeErrors | src/utils/toon.ts:57-110 | each error has its cause: no schema iff no match on line 0; missing fields iff a schema lacking a required name; a row error names the first non-blank line after line 0 whose token count differs from the column count; a count error carries the declared count and, as found count, the number of non-blank lines after line 0, which differs from it |
| ToonCodec.DecodeRows | src/utils/toon.ts:75-87 | a row-pass error names a non-blank line at or after the pass's start whose token count differs from the column count |
| ToonCodec.DecodeRowsSkip | src/utils/toon.ts:76-77 | a blank line is skipped without effect |
| ToonCodec.DecodeRowsStep | src/utils/toon.ts:83-105 | a non-blank line either throws the field-count error for its index or appends its row object |
| ToonCodec.NonBlank | src/utils/toon.ts:103 | the options filter keeps only non-blank options and never adds any |
| ToonCodec.NonBlankKeepsAll | src/utils/toon.ts:103 | the filter keeps a list of non-blank options whole |
| ToonCodec.NonBlankDropsTrailingBlanks | src/utils/toon.ts:103 | blank padding at the end is removed by the filter |
| ToonCodec.OptionColumnsExact | src/utils/toon.ts:94 | the option columns are exactly the columns whose name starts with `option`, each once, in header order |
| ToonCodec.MapColumnsOptions | src/utils/toon.ts:93-100 | the collected options are the tokens of the option columns, in header order |
| JsValue.SetString | src/utils/toon.ts:98 | assigning a string under any name but `__proto__` creates or replaces that own property and keeps the others; under `__proto__` the inherited setter ignores it and no own property appears |
| ToonCodec.MapColumnsProps | src/utils/toon.ts:93-100 | every other column except `__proto__` becomes a property named after it holding its token; no property starts with `option` or is `__proto__`; a repeated name keeps the last column's token |
| ToonCodec.MapRow | src/utils/toon.ts:90-103 | the column loop and the filter build the specified row object |
| ToonCodec.MapLine | src/utils/toon.ts:75-106 | one pass of the row loop either ends with the row pass's error or leaves a state from which the rest of the pass gives the same result; every object collected has a non-blank string `options` array |
| ToonCodec.MapRows | src/utils/toon.ts:75-106 | the row loop returns the specified result of the row pass, error or objects, and every object it returns has a non-blank string `options` array |
| ToonCodec.ToonToQuestions | src/utils/toon.ts:50-113 | the decoder's loops return the specified decoding, whose objects all have a non-blank string `options` array |
| ToonCodec.DecodeTrimmed | src/utils/toon.ts:51 | decoding trims its input, so trimming beforehand changes nothing |
| ToonCodec.RowObjectDecoded | src/utils/toon.ts:90-105 | every row object has an `options` array of non-blank strings |
| ToonCodec.DecodeSuccess | src/utils/toon.ts:57-112 | decoding succeeds iff line 0 has a schema naming every required column, every non-blank later line splits into one token per column, and those lines number exactly the declared count; it then returns that many objects |
| ToonCodec.RowsOkIff | src/utils/toon.ts:75-88 | the row pass from a line succeeds iff no non-blank line from there on has a token count different from the column count |
| ToonCodec.RowsOkCount | src/utils/toon.ts:75-106 | a successful row pass appends exactly one object per non-blank line |
| ToonCodec.RowErrorFirst | src/utils/toon.ts:75-88 | a failing row pass reports the first bad line: every line before it is blank or has the right token count |
| ToonCodec.QuotedRun | src/utils/toon.ts:124-136 | scanning `"f"`, where `f` has no `"` and does not end in `\`, leaves `f` as the current token and the scanner outside quotes |
| ToonCodec.FieldRun | src/utils/toon.ts:118-140 | scanning one quoted or plain well-formed field leaves exactly that field in the token buffer |
| ToonCodec.TokenizeRow | src/utils/toon.ts:118-140 | the scanner splits an encoded row of well-formed fields back into exactly those fields |
| ToonCodec.DecodeRowLine | src/utils/toon.ts:76-83 | an encoded row line trims and scans back to its eight fields |
| ToonCodec.RowObjectOfFields | src/utils/toon.ts:90-105 | the object decoded from an encoded row holds the question's texts and its filtered, padded options |
| ToonCodec.RowReadsAs | src/utils/toon.ts:76-105 | an encoded row line is non-blank, scans to one token per required column, and maps to the question's decoded object |
| ToonCodec.DecodeReadRows | src/utils/toon.ts:75-106 | a row pass over lines that each read as a known object returns exactly those objects, appended in order |
| ToonCodec.DecodeReadLines | src/utils/toon.ts:57-112 | lines whose first line declares the required columns and their row count, and whose other lines read as objects, decode to those objects |
| ToonCodec.EncodedLinesDecode | src/utils/toon.ts:57-112 | a header declaring `n` questions followed by their encoded rows decodes to the questions' objects, in order |
| ToonCodec.EncodingTrimmed | src/utils/toon.ts:44-51 | an encoding is unchanged by the decoder's trim |
| ToonCodec.EncodedLines | src/utils/toon.ts:44-51 | splitting an encoding at newlines gives back the header and the row lines |
| ToonCodec.DecodeEncode | src/utils/toon.ts:11-113 | for non-empty lists of well-formed fields, decoding the encoding returns each question's decoded object, in order |
| ToonCodec.PaddedOptionsFiltered | src/utils/toon.ts:20-103 | padding up to four non-blank options and filtering them gives them back |
| ToonCodec.QuestionObjectIsQuestion | src/utils/toon.ts:90-105 | for a question meeting the round-trip conditions (zero to four non-blank options), the decoded object is the question's own object |
| ToonCodec.RoundTrip | src/utils/toon.ts:11-113 | decode(encode(qs)) == qs for non-empty lists whose fields hold no `"` or newline, have no surrounding whitespace, do not end in `\` when they hold a comma, and which have at most 4 options, none blank (a question with no options included) |
| ToonCodec.EmptyDoesNotRoundTrip | src/utils/toon.ts:12 | the empty list encodes to `''`, which decodes to the missing-schema error |
| ToonCodec.QuoteNeverReadBack | src/utils/toon.ts:127-128 | a `"` in any field of a row without backslashes is lost on the way back, so such a row never round-trips |
| ToonCodec.BackslashBeforeClosingQuote | src/utils/toon.ts:127 | a comma field ending in `\` loses its closing quote: `a,\` scans back as the single token `a,\"` |
| ToonCsv.ParseCsvLine | src/utils/toon.ts:118-140 | the scanner's loop returns the fold of the per-character step over the line |
| ToonCsv.ScanMatchesCharacterRules | src/utils/toon.ts:124-136 | after any prefix: inside quotes iff an odd number of unescaped `"` were seen; the tokens ended so far are the commas seen outside quotes |
| ToonCsv.TokenCount | src/utils/toon.ts:118-140 | the token count is the number of commas outside quotes plus one |
| ToonCsv.TokensTrimmed | src/utils/toon.ts:130-138 | every token is trimmed |
| ToonCsv.TokenQuotesEscaped | src/utils/toon.ts:127-133 | a `"` is copied into a token only right after a `\` |
| ToonCsv.NoBackslashNoQuotes | src/utils/toon.ts:127-133 | on a line without `\`, no token holds a `"`: quote marks are never copied, so `""` contributes nothing |
| ToonCsv.RunAppend | src/utils/toon.ts:124-136 | scanning a concatenation is scanning its parts one after the other |
| ToonCsv.RunCopies | src/utils/toon.ts:132-134 | text without `"`, and without `,` unless inside quotes, is copied into the current token |
| ToonSniff.ToonIffPatternMatches | src/utils/toon.ts:145-168 | the sniffer is true exactly when one of the three patterns matches the trimmed input; the `[`/`{` branch changes nothing |
| ToonSniff.MatchStartsWithWordChar | src/utils/toon.ts:149-153 | every pattern match starts with a word character at the start of a line |
| ToonSniff.NoWordLineIsNotToon | src/utils/toon.ts:145-168 | text in which no line starts with a word character is not TOON |
| ToonSniff.BlankIsNotToon | src/utils/toon.ts:145-168 | empty or whitespace-only input is not TOON |
| ToonSniff.JsonLineIsNotToon | src/utils/toon.ts:162-167 | input starting with `[` or `{` and holding no line terminator (U+2028 and U+2029 included) is not TOON |
| ToonSniff.EncodedIsToon | src/utils/toon.ts:145-155 | every non-empty encoding is recognised as TOON |
| ToonSniff.SniffTrimmed | src/utils/toon.ts:146 | sniffing trims first, so pre-trimming changes nothing |
| ToonSniff.FormatToonContent | src/utils/toon.ts:205-209 | the result has no surrounding whitespace and is empty exactly for blank input |
| ToonSniff.FormatToonContentInvisible | src/utils/toon.ts:205-209 | formatting is idempotent and changes neither the decoding nor the sniffing |
| ToonSniff.ParseQuizData | src/utils/toon.ts:173-183 | the JSON branch receives the trimmed input |
| ToonSniff.ParseRoutes | src/utils/toon.ts:173-183 | the TOON branch is taken exactly when the input sniffs as TOON, and then returns the decoding of the input |
| ToonSniff.ParseEncoded | src/utils/toon.ts:173-183 | an encoding of well-formed questions takes the TOON branch and decodes to their objects |
| ToonSniff.ParseKeepsBlankQuestion | src/utils/toon.ts:173-183 | parsing does not validate: the all-empty question is decoded without error |
| ToonSniff.SampleToon | src/utils/toon.ts:188-200 | the sample text is recognised as TOON |
| Validation.CheckString | src/utils/validation.ts:22-46 | one text-field check appends to the messages exactly that field's problem, if any |
| Validation.CheckOptions | src/utils/validation.ts:34-42 | the options check appends to the messages exactly the options problem, if any |
| Validation.ValidateQuestion | src/utils/validation.ts:13-52 | the method's error list is the specified ordered problem list, rendered as messages, and it is valid iff there are none |
| Validation.NonObjectOneError | src/utils/validation.ts:16-19 | a value that is not an object or array gets exactly one error, `Question must be an object` |
| Validation.ArrayFailsEveryCheck | src/utils/validation.ts:16-46 | an array passes the object check but then fails all five field checks |
| Validation.StringFieldErrorIff | src/utils/validation.ts:22-46 | a text field contributes its error iff the value is object-like and the field is not a string or trims to empty |
| Validation.OptionsErrorIff | src/utils/validation.ts:34-42 | the options error iff they are not a non-empty array; the single non-string error iff they are one and some element is not a string |
| Validation.StringProblem | src/utils/validation.ts:22-46 | a text-field check adds at most one error, naming that field |
| Validation.OptionsProblem | src/utils/validation.ts:34-42 | the options check adds at most one error, however many elements are bad |
| Validation.ProblemsOrdered | src/utils/validation.ts:13-52 | errors come in the order question, answer, explanation, options, context, at most five |
| Validation.ValidIffWellFormed | src/utils/validation.ts:13-52 | valid iff object-like with four non-blank string fields and a non-empty all-string options array |
| Validation.QuestionValueValid | src/utils/validation.ts:13-52 | a typed question is valid iff its four texts are non-blank and it has at least one option |
| Validation.Messages | src/utils/validation.ts:13-52 | one message per problem, in order |
| Validation.ValidateQuestions | src/utils/validation.ts:58-83 | the method's error list is the specified report list, and it is valid iff the list is empty |
| Validation.ReportInvalid | src/utils/validation.ts:72-77 | the `forEach` loop leaves the specified report list for all elements |
| Validation.ReportOne | src/utils/validation.ts:73-76 | one callback extends the reports of the elements before it to those up to and including it |
| Validation.CollectionGuards | src/utils/validation.ts:61-69 | a non-array gets exactly the one array error, an empty array exactly the one empty-list error |
| Validation.ReportsFollowInvalid | src/utils/validation.ts:71-77 | one report per invalid element, in index order, each `Question <k>: ` (1-based) followed by that element's errors joined with `, ` |
| Validation.InvalidIndicesExact | src/utils/validation.ts:71-77 | the reported indices are exactly the invalid elements, increasing |
| Validation.CollectionValidIff | src/utils/validation.ts:58-83 | a collection is valid iff it is a non-empty array whose every element is valid |
| QuizProgress.InitialCanChangeMode | src/hooks/useQuizState.ts:9-21 | the initial state allows a mode change and has its index in range |
| QuizProgress.StepKeepsIndexInRange | src/hooks/useQuizState.ts:24-104 | every transition keeps 0 <= index < length (for a non-empty list) |
| QuizProgress.StepKeepsQuestions | src/hooks/useQuizState.ts:24-104 | no transition changes the questions |
| QuizProgress.RunInvariant | src/hooks/useQuizState.ts:24-104 | any sequence of transitions keeps the questions and the index range |
| QuizProgress.RecordAnswerFrame | src/hooks/useQuizState.ts:24-33 | the answer for the current index is set; every other entry and field is unchanged |
| QuizProgress.GoToNextMoves | src/hooks/useQuizState.ts:36-47 | the index moves up and feedback clears iff it was below the last; otherwise nothing changes |
| QuizProgress.GoToPreviousMoves | src/hooks/useQuizState.ts:50-61 | the index moves down and feedback clears iff it was above 0; otherwise nothing changes |
| QuizProgress.NextThenPrevious | src/hooks/useQuizState.ts:36-61 | next then previous returns to the same state, with feedback hidden |
| QuizProgress.SettersChangeOneField | src/hooks/useQuizState.ts:64-85 | showing or hiding feedback and setting the timer each change only their own field |
| QuizProgress.AnsweredAndMovedLocksMode | src/hooks/useQuizState.ts:20-47 | with two or more questions, answering and moving on forbids a mode change |
| QuizProgress.TimerChangeLocksMode | src/hooks/useQuizState.ts:20-21 | a timer set to any value other than the initial allowance forbids a mode change |
| QuizProgress.CorrectCountCounts | src/hooks/useQuizState.ts:90-96 | the counting loop counts exactly the indices whose recorded answer equals the question's answer, at most the length |
| QuizProgress.CorrectCountExtremes | src/hooks/useQuizState.ts:90-96 | all answers right gives the full count; no answers gives 0 |
| QuizProgress.CompleteQuizResult | src/hooks/useQuizState.ts:88-104 | completion switches to results with score `correct/total`; every other field is unchanged |
| QuizProgress.QuizSession.constructor | src/hooks/useQuizState.ts:9-17 | a new session holds the initial state: index 0, no answers, no feedback, no score, timer 60 s per question in test mode and none in practice |
| QuizProgress.QuizSession.CanChangeModeNow | src/hooks/useQuizState.ts:20-21 | allowed iff the index is 0 and the timer is unset or still at its initial allowance |
| QuizProgress.QuizSession.RecordAnswer | src/hooks/useQuizState.ts:24-33 | the fields afterwards are the recorded-answer transition of the fields before |
| QuizProgress.QuizSession.GoToNext | src/hooks/useQuizState.ts:36-47 | the fields afterwards are the next-question transition of the fields before |
| QuizProgress.QuizSession.GoToPrevious | src/hooks/useQuizState.ts:50-61 | the fields afterwards are the previous-question transition of the fields before |
| QuizProgress.QuizSession.ShowFeedback | src/hooks/useQuizState.ts:64-69 | the fields afterwards are the show-feedback transition of the fields before |
| QuizProgress.QuizSession.HideFeedback | src/hooks/useQuizState.ts:72-77 | the fields afterwards are the hide-feedback transition of the fields before |
| QuizProgress.QuizSession.UpdateTimer | src/hooks/useQuizState.ts:80-85 | the fields afterwards are the timer transition of the fields before |
| QuizProgress.QuizSession.CompleteQuiz | src/hooks/useQuizState.ts:88-104 | the counting loop and the update leave the completion transition of the fields before |
| KeyboardNavigation.ToUpperCase | src/hooks/useKeyboardNavigation.ts:63 | upper-casing maps each code unit separately and keeps the length |
| KeyboardNavigation.DigitRangeIff | src/hooks/useKeyboardNavigation.ts:66 | `'1' <= key <= '4'` in string order means: first unit in 1..3, or the key is exactly `4` |
| KeyboardNavigation.LetterRangeIff | src/hooks/useKeyboardNavigation.ts:76 | `'A' <= key <= 'D'` in string order means: first unit in A..C, or the key is exactly `D` |
| KeyboardNavigation.InactiveDoesNothing | src/hooks/useKeyboardNavigation.ts:44-60 | when disabled or when the target is an input, a text area or editable, no handler runs |
| KeyboardNavigation.DigitKeySelects | src/hooks/useKeyboardNavigation.ts:63-73 | keys 1-4 select answers A-D |
| KeyboardNavigation.LetterKeySelects | src/hooks/useKeyboardNavigation.ts:75-81 | keys a-d and A-D select the upper-case letter |
| KeyboardNavigation.OtherSingleKeyDoesNothing | src/hooks/useKeyboardNavigation.ts:63-123 | any other single-unit ASCII key invokes nothing |
| KeyboardNavigation.ArrowUppercase | src/hooks/useKeyboardNavigation.ts:63-76 | the upper-cased arrow names start with `A`, so they fall in the letter range and not the digit range |
| KeyboardNavigation.ArrowKeysSelectAnswers | src/hooks/useKeyboardNavigation.ts:75-81 | as written, the four arrow keys select an answer (their upper-cased name) |
| KeyboardNavigation.NavigationUnreachable | src/hooks/useKeyboardNavigation.ts:83-120 | as written, no key ever reaches the next, previous or scroll handlers |
| KeyboardNavigation.GuardedArrowKeys | src/components/QuizApp.tsx:208 | with the single-character guard, each navigation handler fires exactly for its own arrow key |
| QuizLoading.LoadedQuestions | src/utils/toon.ts:173-183 | a row-format file of round-trippable questions, those without options included, loads as those questions |
| QuizLoading.TypedQuestionsValidate | src/utils/validation.ts:58-83 | a non-empty list of typed questions is accepted iff every question's four texts are non-blank and it has an option |
| QuizLoading.LoadedQuestionsValidate | src/utils/validation.ts:58-83 | such a file is then accepted by the validator iff every question's four texts are non-blank and it has at least one option; a question without options loads but is rejected |
| QuizLoading.EmptyQuestionLoadedThenRejected | src/utils/validation.ts:71-77 | the all-empty question passes the parser and is then rejected with one report naming all five checks |
| QuizTypes.QuestionValue | src/types.ts:4-10 | a typed question is an object with exactly the five record keys |
| JsText.SplitJoin | src/utils/toon.ts:44-51 | splitting a join at the separator gives the pieces back, when no piece holds the separator |
| JsText.TrimIdempotent | src/utils/toon.ts:205-209 | trimming twice is trimming once |
| JsText.BlankIffAllWhitespace | src/utils/validation.ts:22 | a string trims to empty iff every character is whitespace |

## Left out

- `JSON.parse`: the JSON branch of `parseQuizData` (src/utils/toon.ts:181) is a foreign parser. The model returns the trimmed text it would parse.
- `validateAndParseQuizData` (src/utils/validation.ts:89-126) is not part of this model. It is a try/catch around `JSON.parse` and an asynchronous import.
- Regular expressions: the schema pattern and the three sniffing patterns are explicit predicates over character classes, not a regex engine.
- `\s` and `trim` use the fixed list of JavaScript white-space and line-terminator code points (tab, line feed, vertical tab, form feed, carriage return, space, U+00A0, U+1680, U+2000-U+200A, U+2028, U+2029, U+202F, U+205F, U+3000, U+FEFF). `\w` is ASCII letters, digits and `_`. No other Unicode behaviour is modelled.
- `parseInt` on the declared count reads the digit run the pattern matched. It is modelled as exact natural-number arithmetic, with no loss of precision for very long digit strings.
- The `as Question` casts: a decoded row is kept as the object the code builds, with whatever keys the header names. It is not forced into the `Question` type.
- `QuizProgress.CompleteQuizResult`: the score is recorded as the pair (correct, total) rather than the floating-point percentage `correct / total * 100`. An empty quiz, which gives `NaN` in the source, is the pair (0, 0).
- `KeyboardNavigation.ToUpperCase`: maps ASCII `a`-`z` only. Unicode case mappings that change length (for example U+00DF to `SS`) are not modelled. The lemmas that depend on upper-casing are stated for ASCII keys or the arrow names; `DigitRangeIff` and `LetterRangeIff` are about string order and hold for any key.
- `KeyboardNavigation.OtherSingleKeyDoesNothing`: stated for ASCII keys only. A non-ASCII key whose upper-case form is longer, such as U+1E9A (upper-cased to `A` followed by U+02BE), passes the letter test at src/hooks/useKeyboardNavigation.ts:76 and selects an answer; the ASCII-only case mapping does not capture that.
- The React plumbing: `useState`/`useCallback` batching, the `handlersRef` refresh, listener registration and removal, `preventDefault`, `stopPropagation` and `console.log`. The hook's callbacks are methods of `QuizSession`, and the key handler is a function returning the handler to invoke.
- All components (QuizApp, FileImporter, ResultsPanel and the rest): UI and browser I/O. The one exception is the guarded letter test at src/components/QuizApp.tsx:208, used as the intended behaviour in the finding below.
- `ToonCodec.RoundTrip`: holds only under side conditions that the code does not enforce. Without them, decoding does not give back the encoded questions:
  - the list is not empty (`EmptyDoesNotRoundTrip`);
  - no field holds `"` (`QuoteNeverReadBack`) or a newline;
  - no field has leading or trailing whitespace;
  - no field holds both a comma and a final `\` (`BackslashBeforeClosingQuote`);
  - each question has at most 4 options, none blank. A question with no options round-trips: its four `''` padding columns are filtered out again.

## Findings

| source | as written | input that shows it | evidently intended | confidence | as-written member | corrected member |
|---|---|---|---|---|---|---|
| src/hooks/useKeyboardNavigation.ts:76 | `key >= 'A' && key <= 'D'` with no length check, so any upper-cased key whose first unit is A-C passes | `ArrowLeft`, `ArrowRight`, `ArrowUp`, `ArrowDown` upper-case to `ARROW...` and select an answer; the arrow branches at lines 85-120 are never reached | the single-character guard used at src/components/QuizApp.tsx:208, so each arrow key invokes its navigation handler. The defect is latent in the shipped app: src/components/QuizApp.tsx:128-136 leaves the hook unmounted and listens on its container with the guarded test instead | high (proved; not executed) | KeyboardNavigation.ArrowKeysSelectAnswers | KeyboardNavigation.GuardedArrowKeys |
