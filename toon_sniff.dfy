/**
 * Format sniffing and routing of the quiz loader: `isToonFormat` tests the
 * trimmed input against three regular expressions, `parseQuizData` sends
 * TOON text to the row-format decoder and everything else to `JSON.parse`,
 * `formatToonContent` trims, and `getSampleToonFormat` encodes one sample
 * question.
 */
module ToonSniff {
  import opened Wrappers
  import opened JsText
  import opened JsValue
  import opened QuizTypes
  import opened ToonCodec

  /** The three entries of `toonPatterns`. */
  datatype ToonPattern =
    | SchemaPattern     // /^\w+\[\d+\]\{[^}]+\}:/
    | KeyValuePattern   // /^\w+:\s+\w+/m
    | ArrayPattern      // /^\w+\[\d+\]:/m

  const ToonPatterns: seq<ToonPattern> := [SchemaPattern, KeyValuePattern, ArrayPattern]

  /** Only the last two patterns carry the `m` flag. */
  predicate Multiline(pat: ToonPattern)
  {
    !pat.SchemaPattern?
  }

  /** Where `^` matches: at the start, and, with the `m` flag, right after a line terminator. */
  predicate AnchorAt(pat: ToonPattern, s: string, p: nat)
    requires p <= |s|
  {
    p == 0 || (Multiline(pat) && IsLineTerminator(s[p - 1]))
  }

  /** `\w+\[\d+\]\{[^}]+\}:` matches from `p`. Every greedy run below is followed by a character outside its class, so no backtracking can succeed where the greedy run fails. */
  predicate SchemaBodyAt(s: string, p: nat)
    requires p <= |s|
  {
    var w := RunEnd(s, p, IsWordChar);
    w > p && w < |s| && s[w] == '[' &&
    var d := RunEnd(s, w + 1, IsDigit);
    d > w + 1 && d + 1 < |s| && s[d] == ']' && s[d + 1] == '{' &&
    var e := RunEnd(s, d + 2, NotCloseBrace);
    e > d + 2 && e + 1 < |s| && s[e] == '}' && s[e + 1] == ':'
  }

  /** `\w+:\s+\w+` matches from `p`. */
  predicate KeyValueBodyAt(s: string, p: nat)
    requires p <= |s|
  {
    var w := RunEnd(s, p, IsWordChar);
    w > p && w < |s| && s[w] == ':' &&
    var sp := RunEnd(s, w + 1, IsWhitespace);
    sp > w + 1 && sp < |s| && IsWordChar(s[sp])
  }

  /** `\w+\[\d+\]:` matches from `p`. */
  predicate ArrayBodyAt(s: string, p: nat)
    requires p <= |s|
  {
    var w := RunEnd(s, p, IsWordChar);
    w > p && w < |s| && s[w] == '[' &&
    var d := RunEnd(s, w + 1, IsDigit);
    d > w + 1 && d + 1 < |s| && s[d] == ']' && s[d + 1] == ':'
  }

  /** The body of a pattern, after `^`, matches from `p`. */
  predicate BodyAt(pat: ToonPattern, s: string, p: nat)
    requires p <= |s|
  {
    match pat
    case SchemaPattern => SchemaBodyAt(s, p)
    case KeyValuePattern => KeyValueBodyAt(s, p)
    case ArrayPattern => ArrayBodyAt(s, p)
  }

  /** `pattern.test(s)`: the pattern matches at some position. */
  predicate PatternTest(pat: ToonPattern, s: string)
  {
    exists p | 0 <= p <= |s| :: AnchorAt(pat, s, p) && BodyAt(pat, s, p)
  }

  /** `toonPatterns.some(pattern => pattern.test(trimmed))`. */
  predicate SomePatternMatches(trimmed: string)
  {
    exists k | 0 <= k < |ToonPatterns| :: PatternTest(ToonPatterns[k], trimmed)
  }

  /** `isToonFormat(input)`, with its bracket check kept as written. */
  predicate IsToonFormat(input: string)
  {
    var trimmed := Trim(input);
    var isToon := SomePatternMatches(trimmed);
    if isToon then true
    else if StartsWith(trimmed, "[") || StartsWith(trimmed, "{") then false
    else false
  }

  /** The bracket check decides nothing: the input is TOON exactly when some pattern matches its trim. */
  lemma BracketCheckIrrelevant(input: string)
    ensures IsToonFormat(input) == SomePatternMatches(Trim(input))
  {
  }

  lemma SomePatternIff(t: string)
    ensures SomePatternMatches(t) <==>
      PatternTest(SchemaPattern, t) || PatternTest(KeyValuePattern, t) || PatternTest(ArrayPattern, t)
  {
    if PatternTest(KeyValuePattern, t) {
      assert PatternTest(ToonPatterns[1], t);
    }
    if PatternTest(ArrayPattern, t) {
      assert PatternTest(ToonPatterns[2], t);
    }
    if PatternTest(SchemaPattern, t) {
      assert PatternTest(ToonPatterns[0], t);
    }
  }

  /** The input is TOON exactly when one of the three patterns matches its trim. */
  lemma ToonIffPatternMatches(input: string)
    ensures IsToonFormat(input) <==>
      PatternTest(SchemaPattern, Trim(input)) || PatternTest(KeyValuePattern, Trim(input)) ||
      PatternTest(ArrayPattern, Trim(input))
  {
    BracketCheckIrrelevant(input);
    SomePatternIff(Trim(input));
  }

  /** Every pattern starts with a word character at a position where `^` matches; `p` is that position. */
  lemma MatchStartsWithWordChar(pat: ToonPattern, s: string) returns (p: nat)
    requires PatternTest(pat, s)
    ensures p < |s| && (p == 0 || IsLineTerminator(s[p - 1])) && IsWordChar(s[p])
  {
    p :| 0 <= p <= |s| && AnchorAt(pat, s, p) && BodyAt(pat, s, p);
    assert RunEnd(s, p, IsWordChar) > p;
  }

  /** Position `p` of `t` begins a line. */
  predicate LineStart(t: string, p: nat)
    requires p <= |t|
  {
    p == 0 || IsLineTerminator(t[p - 1])
  }

  /** No line of `t` begins with a word character. */
  predicate NoWordLine(t: string)
  {
    forall p: nat | p < |t| && LineStart(t, p) :: !IsWordChar(t[p])
  }

  /** A pattern cannot match text in which no line begins with a word character. */
  lemma NoWordLineNoMatch(pat: ToonPattern, t: string)
    requires NoWordLine(t)
    ensures !PatternTest(pat, t)
  {
    if PatternTest(pat, t) {
      var p := MatchStartsWithWordChar(pat, t);
      assert LineStart(t, p);
    }
  }

  /** Text in which no line begins with a word character is not TOON. */
  lemma NoWordLineIsNotToon(input: string)
    requires NoWordLine(Trim(input))
    ensures !IsToonFormat(input)
  {
    var t := Trim(input);
    NoWordLineNoMatch(SchemaPattern, t);
    NoWordLineNoMatch(KeyValuePattern, t);
    NoWordLineNoMatch(ArrayPattern, t);
    ToonIffPatternMatches(input);
  }

  /** Empty and whitespace-only input is not TOON. */
  lemma BlankIsNotToon(input: string)
    requires IsBlank(input)
    ensures !IsToonFormat(input)
  {
    NoWordLineIsNotToon(input);
  }

  /** One line of text opening with `[` or `{`, as `JSON.stringify` writes an array or an object, is not TOON. */
  lemma JsonLineIsNotToon(input: string)
    requires var t := Trim(input); t != [] && (t[0] == '[' || t[0] == '{')
    requires var t := Trim(input); forall k | 0 <= k < |t| :: !IsLineTerminator(t[k])
    ensures !IsToonFormat(input)
  {
    var t := Trim(input);
    assert NoWordLine(t) by {
      forall p: nat | p < |t| && LineStart(t, p) ensures !IsWordChar(t[p]) {
        if p > 0 {
          assert false;
        }
      }
    }
    NoWordLineIsNotToon(input);
  }

  /** The end of a run whose extent does not reach the end of `s` is the same in any extension of `s`. */
  lemma RunEndPrefix(s: string, t: string, i: nat, cls: char -> bool)
    requires i <= |s| && StartsWith(t, s)
    requires RunEnd(s, i, cls) < |s|
    ensures RunEnd(t, i, cls) == RunEnd(s, i, cls)
  {
    var j := RunEnd(s, i, cls);
    forall k | i <= k < j ensures cls(t[k]) {
      assert t[k] == s[k];
    }
    assert t[j] == s[j];
    RunEndAt(t, i, j, cls);
  }

  /** `questions` is the word run before the `[` of a schema line. */
  lemma QuestionsWordRun(s: string)
    requires 10 <= |s| && s[..10] == "questions["
    ensures RunEnd(s, 0, IsWordChar) == 9 && s[9] == '['
  {
    forall k | 0 <= k < 9 ensures IsWordChar(s[k]) {
      assert s[k] == s[..10][k];
    }
    assert s[9] == s[..10][9];
    RunEndAt(s, 0, 9, IsWordChar);
  }

  /** What a match of the decoder's schema pattern at `0` consists of. */
  lemma SchemaAtParts(s: string)
    requires SchemaAt(s, 0).Some?
    ensures 10 <= |s| && s[..10] == "questions["
    ensures var d := RunEnd(s, 10, IsDigit); var e := RunEnd(s, d + 2, NotCloseBrace);
      10 < d && d + 2 < e && e + 1 < |s| && s[d] == ']' && s[d + 1] == '{' && s[e] == '}' && s[e + 1] == ':'
  {
  }

  /** The first sniffing pattern matches at `0` when its three greedy runs end at `w`, `d` and `e` with the expected punctuation after them. */
  lemma SchemaBodyFrom(t: string, w: nat, d: nat, e: nat)
    requires 0 < w && w + 1 < d && d + 2 < e && e + 1 < |t|
    requires RunEnd(t, 0, IsWordChar) == w && RunEnd(t, w + 1, IsDigit) == d && RunEnd(t, d + 2, NotCloseBrace) == e
    requires t[w] == '[' && t[d] == ']' && t[d + 1] == '{' && t[e] == '}' && t[e + 1] == ':'
    ensures SchemaBodyAt(t, 0)
  {
  }

  /** Runs that end inside `s`, and the characters after them, are the same in any extension of `s`. */
  lemma SchemaRunsPrefix(s: string, t: string, w: nat, d: nat, e: nat)
    requires StartsWith(t, s) && w + 1 < d && d + 2 < e && e + 1 < |s|
    requires RunEnd(s, 0, IsWordChar) == w && RunEnd(s, w + 1, IsDigit) == d && RunEnd(s, d + 2, NotCloseBrace) == e
    ensures RunEnd(t, 0, IsWordChar) == w && RunEnd(t, w + 1, IsDigit) == d && RunEnd(t, d + 2, NotCloseBrace) == e
    ensures t[w] == s[w] && t[d] == s[d] && t[d + 1] == s[d + 1] && t[e] == s[e] && t[e + 1] == s[e + 1]
  {
    RunEndPrefix(s, t, 0, IsWordChar);
    RunEndPrefix(s, t, w + 1, IsDigit);
    RunEndPrefix(s, t, d + 2, NotCloseBrace);
    assert t[..|s|] == s;
  }

  /** The encoding of a non-empty list begins with its header. */
  lemma EncodeStartsWithHeader(qs: seq<Question>)
    requires qs != []
    ensures StartsWith(Encode(qs), Header(|qs|))
  {
    JoinStartsWithFirst([Header(|qs|)] + EncodedRows(qs), '\n');
  }

  /** Trimming keeps a leading header line. */
  lemma HeaderSurvivesTrim(s: string, n: nat)
    requires StartsWith(s, Header(n))
    ensures StartsWith(Trim(s), Header(n))
  {
    HeaderShape(n);
    QuestionLineSurvivesTrim(s, Header(n));
  }

  /** Trimming keeps a leading line that begins with `q` and ends with `:`. */
  lemma QuestionLineSurvivesTrim(s: string, h: string)
    requires StartsWith(s, h) && h != [] && h[0] == 'q' && h[|h| - 1] == ':'
    ensures StartsWith(Trim(s), h)
  {
    TrimKeepsCleanPrefix(s, h);
  }

  /** Any text beginning with a line that the decoder's schema pattern matches at its start matches the first sniffing pattern. */
  lemma SchemaLinePrefixIsToon(h: string, t: string)
    requires SchemaAt(h, 0).Some? && StartsWith(t, h)
    ensures PatternTest(SchemaPattern, t)
  {
    SchemaAtParts(h);
    QuestionsWordRun(h);
    var d := RunEnd(h, 10, IsDigit);
    var e := RunEnd(h, d + 2, NotCloseBrace);
    SchemaRunsPrefix(h, t, 9, d, e);
    SchemaBodyFrom(t, 9, d, e);
    assert AnchorAt(SchemaPattern, t, 0);
  }

  /** Any text beginning with a header line matches the first sniffing pattern. */
  lemma HeaderLineIsToon(n: nat, t: string)
    requires StartsWith(t, Header(n))
    ensures PatternTest(SchemaPattern, t)
  {
    HeaderAtStart(n);
    SchemaLinePrefixIsToon(Header(n), t);
  }

  /** Whatever `questionsToToon` writes for a non-empty list is detected as TOON. */
  lemma EncodedIsToon(qs: seq<Question>)
    requires qs != []
    ensures IsToonFormat(Encode(qs))
  {
    EncodeStartsWithHeader(qs);
    HeaderSurvivesTrim(Encode(qs), |qs|);
    HeaderLineIsToon(|qs|, Trim(Encode(qs)));
    ToonIffPatternMatches(Encode(qs));
  }

  /** `formatToonContent`: the text with its surrounding whitespace removed, which is all the decoder would remove. */
  function FormatToonContent(compactToon: string): (r: string)
    ensures r != [] ==> !IsWhitespace(r[0]) && !IsWhitespace(r[|r| - 1])
    ensures r == [] <==> IsBlank(compactToon)
  {
    Trim(compactToon)
  }

  /** The sniffer trims its input first, so trimming beforehand changes nothing. */
  lemma SniffTrimmed(s: string)
    ensures IsToonFormat(Trim(s)) == IsToonFormat(s)
  {
    BracketCheckIrrelevant(s);
    BracketCheckIrrelevant(Trim(s));
    TrimIdempotent(s);
  }

  /** Formatting changes nothing the decoder or the sniffer can see, and formatting twice is formatting once. */
  lemma FormatToonContentInvisible(s: string)
    ensures FormatToonContent(FormatToonContent(s)) == FormatToonContent(s)
    ensures Decode(FormatToonContent(s)) == Decode(s)
    ensures IsToonFormat(FormatToonContent(s)) == IsToonFormat(s)
  {
    assert FormatToonContent(s) == Trim(s);
    TrimIdempotent(s);
    DecodeTrimmed(s);
    SniffTrimmed(s);
  }

  /** Where `parseQuizData` sends its input: the row-format decoder's outcome, or the trimmed text handed to `JSON.parse`. */
  datatype Route = ToonRoute(decoded: Result<seq<Value>, ToonError>) | JsonRoute(jsonText: string)

  /** `parseQuizData(input)`, up to the call into `JSON.parse`. */
  function ParseQuizData(input: string): (r: Route)
    ensures r.JsonRoute? ==> r.jsonText == Trim(input)
  {
    var trimmed := Trim(input);
    if IsToonFormat(trimmed) then ToonRoute(Decode(FormatToonContent(trimmed)))
    else JsonRoute(trimmed)
  }

  /** TOON input goes to the decoder and nothing else happens to its result; all other input goes to `JSON.parse`. */
  lemma ParseRoutes(input: string)
    ensures ParseQuizData(input).ToonRoute? <==> IsToonFormat(input)
    ensures ParseQuizData(input).ToonRoute? ==> ParseQuizData(input).decoded == Decode(input)
  {
    var t := Trim(input);
    assert IsToonFormat(t) == IsToonFormat(input) by {
      SniffTrimmed(input);
    }
    assert Decode(FormatToonContent(t)) == Decode(input) by {
      FormatToonContentInvisible(t);
      DecodeTrimmed(input);
    }
  }

  /** Encoded questions come back from `parseQuizData` as the decoder produces them, blank fields and missing options included: no validation takes place. */
  lemma ParseEncoded(qs: seq<Question>)
    requires qs != [] && forall k | 0 <= k < |qs| :: EncodableQuestion(qs[k])
    ensures ParseQuizData(Encode(qs)) == ToonRoute(Ok(QuestionObjects(qs)))
  {
    EncodedIsToon(qs);
    ParseRoutes(Encode(qs));
    DecodeEncode(qs);
  }

  /** A question with every field blank and no options, which the validator rejects, is passed through. */
  lemma ParseKeepsBlankQuestion(q: Question)
    requires q.question == [] && q.answer == [] && q.explanation == [] && q.options == [] && q.context == []
    ensures ParseQuizData(Encode([q])) == ToonRoute(Ok(QuestionObjects([q])))
  {
    assert EncodableQuestion(q) by {
      var fs := RowFields(q);
      forall i | 0 <= i < 8 ensures WellFormedField(fs[i]) {
        assert fs[i] == [];
      }
    }
    ParseEncoded([q]);
  }

  /** The question of `getSampleToonFormat`. */
  const SampleQuestions: seq<Question> := [
    Question(
      "What is the capital of France?",
      "A",
      "Paris is the capital and most populous city of France.",
      ["Paris", "London", "Berlin", "Madrid"],
      "European geography")
  ]

  /** `getSampleToonFormat()`. */
  function SampleToon(): (r: string)
    ensures IsToonFormat(r)
  {
    EncodedIsToon(SampleQuestions);
    Encode(SampleQuestions)
  }
}
