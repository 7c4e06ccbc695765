/**
 * The row-format ("TOON") codec: `questionsToToon` writes a schema header
 * and one comma-separated row per question; `toonToQuestions` reads the
 * header, tokenizes each row and maps columns to properties by the
 * header's field names.
 */
module ToonCodec {
  import opened Wrappers
  import opened JsText
  import opened JsValue
  import opened QuizTypes
  import opened ToonCsv

  /** The names the decoder insists on finding in the header, in the order the encoder writes its columns. */
  const RequiredFields: seq<string> :=
    ["question", "answer", "explanation", "option1", "option2", "option3", "option4", "context"]

  /** The column list of the encoder's header: `question,answer,explanation,option1,option2,option3,option4,context`. */
  const ColumnList: string := Join(RequiredFields, ',')

  // ---------------------------------------------------------------------
  // Encoding

  /** The header line for `n` questions. */
  function Header(n: nat): string
  {
    "questions[" + NatToString(n) + "]{" + ColumnList + "}:"
  }

  /** `field.replace(/"/g, '""')`. */
  function DoubleQuotes(f: string): (r: string)
    ensures |r| >= |f|
    ensures '"' !in f ==> r == f
  {
    if f == [] then []
    else (if f[0] == '"' then ['"', '"'] else [f[0]]) + DoubleQuotes(f[1..])
  }

  /** Reads `""` as one `"`: the unescaping a CSV reader applies inside a quoted field. */
  function UndoubleQuotes(r: string): string
  {
    if |r| >= 2 && r[0] == '"' && r[1] == '"' then ['"'] + UndoubleQuotes(r[2..])
    else if r == [] then []
    else [r[0]] + UndoubleQuotes(r[1..])
  }

  /** The doubling loses nothing: undoubling gives the field back. (The row decoder does not undo it; see `QuoteNeverReadBack`.) */
  lemma {:induction false} UndoubleDoubleQuotes(f: string)
    ensures UndoubleQuotes(DoubleQuotes(f)) == f
  {
    if f != [] {
      UndoubleDoubleQuotes(f[1..]);
      var r := DoubleQuotes(f);
      if f[0] == '"' {
        assert r == ['"', '"'] + DoubleQuotes(f[1..]);
        assert r[2..] == DoubleQuotes(f[1..]);
      } else {
        assert r == [f[0]] + DoubleQuotes(f[1..]);
        assert r[1..] == DoubleQuotes(f[1..]);
      }
      assert f == [f[0]] + f[1..];
    }
  }

  /** A field is wrapped in quotes, with its quotes doubled, exactly when it contains a comma. */
  function QuoteField(f: string): string
  {
    if ',' in f then ['"'] + DoubleQuotes(f) + ['"'] else f
  }

  /** The quoting rule: a field with a comma is a quoted, doubled copy, one without is written as it is, quotes and all. */
  lemma QuoteFieldShape(f: string)
    ensures ',' in f ==> (|QuoteField(f)| >= 2 && QuoteField(f)[0] == '"' && QuoteField(f)[|QuoteField(f)| - 1] == '"' &&
                          UndoubleQuotes(QuoteField(f)[1..|QuoteField(f)| - 1]) == f)
    ensures ',' !in f ==> QuoteField(f) == f
  {
    if ',' in f {
      var q := QuoteField(f);
      assert q[1..|q| - 1] == DoubleQuotes(f);
      UndoubleDoubleQuotes(f);
    }
  }

  function QuoteAll(fs: seq<string>): (r: seq<string>)
    ensures |r| == |fs| && forall i | 0 <= i < |fs| :: r[i] == QuoteField(fs[i])
  {
    seq(|fs|, i requires 0 <= i < |fs| => QuoteField(fs[i]))
  }

  /** `options` padded with empty strings to at least four entries. */
  function PadOptions(o: seq<string>): (r: seq<string>)
    ensures |r| == if |o| >= 4 then |o| else 4
    ensures r[..|o|] == o
    ensures forall k | |o| <= k < |r| :: r[k] == []
  {
    if |o| >= 4 then o else o + seq(4 - |o|, _ => [])
  }

  /** The eight values of a question's row, before quoting: options past the fourth are not written. */
  function RowFields(q: Question): (r: seq<string>)
    ensures |r| == 8
    ensures r[0] == q.question && r[1] == q.answer && r[2] == q.explanation && r[7] == q.context
    ensures forall k | 0 <= k < 4 :: r[3 + k] == if k < |q.options| then q.options[k] else []
  {
    var o := PadOptions(q.options);
    [q.question, q.answer, q.explanation, o[0], o[1], o[2], o[3], q.context]
  }

  /** One data line: two spaces, then the quoted fields joined by commas. */
  function EncodeRow(q: Question): string
  {
    "  " + Join(QuoteAll(RowFields(q)), ',')
  }

  function EncodedRows(qs: seq<Question>): (r: seq<string>)
    ensures |r| == |qs| && forall i | 0 <= i < |qs| :: r[i] == EncodeRow(qs[i])
  {
    seq(|qs|, i requires 0 <= i < |qs| => EncodeRow(qs[i]))
  }

  lemma EncodedRowsSnoc(qs: seq<Question>, k: nat)
    requires k < |qs|
    ensures EncodedRows(qs[..k + 1]) == EncodedRows(qs[..k]) + [EncodeRow(qs[k])]
  {
    var a, b := EncodedRows(qs[..k + 1]), EncodedRows(qs[..k]);
    forall j | 0 <= j < k ensures a[j] == b[j] {
      assert qs[..k + 1][j] == qs[..k][j];
    }
    assert a[k] == EncodeRow(qs[k]);
    PointwiseSnoc(a, b, EncodeRow(qs[k]));
  }

  lemma PointwiseSnoc<T>(a: seq<T>, b: seq<T>, y: T)
    requires |a| == |b| + 1 && a[|b|] == y
    requires forall j | 0 <= j < |b| :: a[j] == b[j]
    ensures a == b + [y]
  {
  }

  /** What `questionsToToon(qs)` returns. */
  function Encode(qs: seq<Question>): string
  {
    if qs == [] then [] else Join([Header(|qs|)] + EncodedRows(qs), '\n')
  }

  /** The `questions.forEach` callback of `questionsToToon`: pads a copy of the options to four in a loop, then quotes and joins the eight values. */
  method EncodeQuestionRow(q: Question) returns (line: string)
    ensures line == EncodeRow(q)
  {
    var options := q.options;
    while |options| < 4
      invariant |q.options| <= |options| <= (if |q.options| >= 4 then |q.options| else 4)
      invariant options[..|q.options|] == q.options
      invariant forall j | |q.options| <= j < |options| :: options[j] == []
    {
      options := options + [[]];
    }
    assert options == PadOptions(q.options);
    var dataRow := Join(QuoteAll([q.question, q.answer, q.explanation,
                                  options[0], options[1], options[2], options[3], q.context]), ',');
    line := "  " + dataRow;
  }

  /** `questionsToToon`: the header line, then one row line per question, joined by newlines. */
  method QuestionsToToon(questions: seq<Question>) returns (toon: string)
    ensures toon == Encode(questions)
  {
    if |questions| == 0 {
      return [];
    }
    var header := Header(|questions|);
    var toonLines := [header];
    var k := 0;
    while k < |questions|
      invariant 0 <= k <= |questions|
      invariant toonLines == [header] + EncodedRows(questions[..k])
    {
      var line := EncodeQuestionRow(questions[k]);
      EncodedRowsSnoc(questions, k);
      ConsSnoc(header, EncodedRows(questions[..k]), line);
      toonLines := toonLines + [line];
      k := k + 1;
    }
    assert questions[..k] == questions;
    EncodeLines(questions);
    toon := Join(toonLines, '\n');
  }

  lemma ConsSnoc<T>(h: T, xs: seq<T>, y: T)
    ensures [h] + xs + [y] == [h] + (xs + [y])
  {
  }

  // ---------------------------------------------------------------------
  // Decoding

  /** Why `toonToQuestions` throws; `Message` renders the source's text. */
  datatype ToonError =
    | MissingSchema
    | MissingRequiredFields
    | RowFieldCount(row: nat, found: nat, expected: nat)
    | CountMismatch(expected: nat, found: nat)

  function Message(e: ToonError): (m: string)
    ensures StartsWith(m, "Invalid TOON format: ")
  {
    "Invalid TOON format: " +
      match e
      case MissingSchema => "Missing schema definition"
      case MissingRequiredFields => "Missing required fields in schema"
      case RowFieldCount(row, found, expected) =>
        "Row " + NatToString(row) + " has " + NatToString(found) + " fields, expected " + NatToString(expected)
      case CountMismatch(expected, found) =>
        "Expected " + NatToString(expected) + " questions, found " + NatToString(found)
  }

  /** The two capture groups of `/questions\[(\d+)\]\{([^}]+)\}:/`: the declared count and the field list. */
  datatype SchemaMatch = SchemaMatch(count: nat, fieldList: string)

  predicate NotCloseBrace(c: char)
  {
    c != '}'
  }

  /** The end of the longest run of `cls` characters starting at `i` (a greedy `+` or `*`). */
  function RunEnd(s: string, i: nat, cls: char -> bool): (j: nat)
    requires i <= |s|
    ensures i <= j <= |s|
    ensures forall k | i <= k < j :: cls(s[k])
    ensures j < |s| ==> !cls(s[j])
    decreases |s| - i
  {
    if i < |s| && cls(s[i]) then RunEnd(s, i + 1, cls) else i
  }

  /** The schema pattern tried at position `p`. Each greedy run is followed by a character outside its class, so there is no backtracking to consider. */
  function SchemaAt(s: string, p: nat): (r: Option<SchemaMatch>)
    requires p <= |s|
  {
    var a := p + 10;
    if a <= |s| && s[p..a] == "questions[" then
      var d := RunEnd(s, a, IsDigit);
      if d > a && d + 2 <= |s| && s[d] == ']' && s[d + 1] == '{' then
        var e := RunEnd(s, d + 2, NotCloseBrace);
        if e > d + 2 && e + 2 <= |s| && s[e] == '}' && s[e + 1] == ':' then
          Some(SchemaMatch(DigitsValue(s[a..d]), s[d + 2..e]))
        else None
      else None
    else None
  }

  /** `line.match(...)` without anchors: the match at the leftmost position where the pattern matches. */
  function FindSchema(s: string, p: nat): Option<SchemaMatch>
    requires p <= |s|
    decreases |s| - p
  {
    if SchemaAt(s, p).Some? then SchemaAt(s, p)
    else if p == |s| then None
    else FindSchema(s, p + 1)
  }

  /** The unanchored search finds nothing exactly when the schema pattern matches at no position from `i` on. */
  lemma {:induction false} FindSchemaNone(s: string, i: nat)
    requires i <= |s|
    ensures FindSchema(s, i).None? <==> forall p | i <= p <= |s| :: SchemaAt(s, p).None?
    decreases |s| - i
  {
    if SchemaAt(s, i).None? && i < |s| {
      FindSchemaNone(s, i + 1);
    }
  }

  /** A successful unanchored search returns the match at the leftmost position where the schema pattern matches. */
  lemma {:induction false} FindSchemaLeftmost(s: string, i: nat) returns (p: nat)
    requires i <= |s| && FindSchema(s, i).Some?
    ensures i <= p <= |s| && FindSchema(s, i) == SchemaAt(s, p)
    ensures forall p' | i <= p' < p :: SchemaAt(s, p').None?
    decreases |s| - i
  {
    if SchemaAt(s, i).Some? {
      p := i;
    } else {
      p := FindSchemaLeftmost(s, i + 1);
    }
  }

  /** `requiredFields.every(field => fields.includes(field))`. */
  predicate HasRequiredFields(fields: seq<string>)
  {
    forall k | 0 <= k < |RequiredFields| :: RequiredFields[k] in fields
  }

  /** `options.filter(opt => opt.trim() !== '')`. */
  function NonBlank(xs: seq<string>): (r: seq<string>)
    ensures |r| <= |xs|
    ensures forall i | 0 <= i < |r| :: !IsBlank(r[i])
  {
    if xs == [] then []
    else NonBlank(xs[..|xs| - 1]) + (if IsBlank(xs[|xs| - 1]) then [] else [xs[|xs| - 1]])
  }

  /** The filter keeps a list of non-blank strings whole. */
  lemma {:induction false} NonBlankKeepsAll(xs: seq<string>)
    requires forall i | 0 <= i < |xs| :: !IsBlank(xs[i])
    ensures NonBlank(xs) == xs
  {
    if xs != [] {
      NonBlankKeepsAll(xs[..|xs| - 1]);
      assert xs == xs[..|xs| - 1] + [xs[|xs| - 1]];
    }
  }

  /** Blank strings appended at the end are filtered away. */
  lemma {:induction false} NonBlankDropsTrailingBlanks(xs: seq<string>, blanks: seq<string>)
    requires forall i | 0 <= i < |blanks| :: IsBlank(blanks[i])
    ensures NonBlank(xs + blanks) == NonBlank(xs)
    decreases |blanks|
  {
    if blanks == [] {
      assert xs + blanks == xs;
    } else {
      var init := blanks[..|blanks| - 1];
      assert (xs + blanks)[..|xs + blanks| - 1] == xs + init;
      NonBlankDropsTrailingBlanks(xs, init);
    }
  }

  /** The object under construction and the collected option tokens. */
  datatype Columns = Columns(props: map<string, Value>, options: seq<string>)

  /** The column-mapping loop after the first `n` columns: `option*` columns are collected, every other column is assigned as a property (which, under the name `__proto__`, creates none). */
  function MapColumns(fields: seq<string>, parts: seq<string>, n: nat): Columns
    requires n <= |fields| == |parts|
  {
    if n == 0 then Columns(map[], [])
    else
      var c := MapColumns(fields, parts, n - 1);
      if StartsWith(fields[n - 1], "option") then c.(options := c.options + [parts[n - 1]])
      else c.(props := SetString(c.props, fields[n - 1], parts[n - 1]))
  }

  /** The positions below `n` of the columns whose name starts with `option`, in increasing order. */
  function OptionColumns(fields: seq<string>, n: nat): seq<nat>
    requires n <= |fields|
  {
    if n == 0 then []
    else OptionColumns(fields, n - 1) + (if StartsWith(fields[n - 1], "option") then [n - 1] else [])
  }

  /** The option columns are exactly the columns named `option...`, listed once each in header order. */
  lemma {:induction false} OptionColumnsExact(fields: seq<string>, n: nat)
    requires n <= |fields|
    ensures ExactOptionColumns(fields, n, OptionColumns(fields, n))
  {
    if n > 0 {
      OptionColumnsExact(fields, n - 1);
      ExactOptionColumnsStep(fields, n, OptionColumns(fields, n - 1));
    }
  }

  /** `ix` lists, in increasing order, exactly the positions below `n` of the columns named `option...`. */
  predicate ExactOptionColumns(fields: seq<string>, n: nat, ix: seq<nat>)
    requires n <= |fields|
  {
    (forall i | 0 <= i < |ix| :: ix[i] < n) &&
    (forall j: nat | j < n :: j in ix <==> StartsWith(fields[j], "option")) &&
    (forall i, i' | 0 <= i < i' < |ix| :: ix[i] < ix[i'])
  }

  /** One column more keeps `ExactOptionColumns`. */
  lemma ExactOptionColumnsStep(fields: seq<string>, n: nat, prev: seq<nat>)
    requires 0 < n <= |fields| && ExactOptionColumns(fields, n - 1, prev)
    ensures ExactOptionColumns(fields, n, prev + (if StartsWith(fields[n - 1], "option") then [n - 1] else []))
  {
  }

  /** The column mapping collects the tokens of the option columns, in header order. */
  lemma {:induction false} MapColumnsOptions(fields: seq<string>, parts: seq<string>, n: nat)
    requires n <= |fields| == |parts|
    ensures var c, ix := MapColumns(fields, parts, n), OptionColumns(fields, n);
      |c.options| == |ix| && forall i | 0 <= i < |ix| :: ix[i] < |parts| && c.options[i] == parts[ix[i]]
  {
    if n > 0 {
      MapColumnsOptions(fields, parts, n - 1);
      var prev, pix := MapColumns(fields, parts, n - 1), OptionColumns(fields, n - 1);
      var c, ix := MapColumns(fields, parts, n), OptionColumns(fields, n);
      if StartsWith(fields[n - 1], "option") {
        assert c.options == prev.options + [parts[n - 1]];
        assert ix == pix + [n - 1];
        forall i | 0 <= i < |ix| ensures ix[i] < |parts| && c.options[i] == parts[ix[i]] {
          if i < |pix| {
            assert ix[i] == pix[i] && c.options[i] == prev.options[i];
          }
        }
      } else {
        assert c.options == prev.options && ix == pix;
      }
    }
  }

  /** Column `j` is the last column below `n` named `k`. */
  predicate LastColumnNamed(fields: seq<string>, k: string, j: nat, n: nat)
    requires n <= |fields|
  {
    j < n && fields[j] == k && forall j' | j < j' < n :: fields[j'] != k
  }

  /** Every other column except `__proto__` becomes the property of its name, holding its token; when a name repeats, the last column wins. */
  lemma {:induction false} MapColumnsProps(fields: seq<string>, parts: seq<string>, n: nat)
    requires n <= |fields| == |parts|
    ensures PropsOfColumns(fields, parts, n, MapColumns(fields, parts, n).props)
  {
    if n > 0 {
      MapColumnsProps(fields, parts, n - 1);
      PropsStep(fields, parts, n, MapColumns(fields, parts, n - 1).props, MapColumns(fields, parts, n).props);
    }
  }

  /** What the property map holds after the first `n` columns: no `option*` name and no `__proto__`, every other name seen, each with the token of its last column. */
  predicate PropsOfColumns(fields: seq<string>, parts: seq<string>, n: nat, props: map<string, Value>)
    requires n <= |fields| == |parts|
  {
    (forall k | k in props :: !StartsWith(k, "option") && k != ProtoKey) &&
    (forall j | 0 <= j < n && !StartsWith(fields[j], "option") && fields[j] != ProtoKey :: fields[j] in props) &&
    (forall k | k in props :: exists j | 0 <= j < n :: LastColumnNamed(fields, k, j, n) && props[k] == Str(parts[j]))
  }

  /** One column more keeps `PropsOfColumns`. */
  lemma PropsStep(fields: seq<string>, parts: seq<string>, n: nat, prev: map<string, Value>, props: map<string, Value>)
    requires 0 < n <= |fields| == |parts|
    requires PropsOfColumns(fields, parts, n - 1, prev)
    requires props == if StartsWith(fields[n - 1], "option") then prev else SetString(prev, fields[n - 1], parts[n - 1])
    ensures PropsOfColumns(fields, parts, n, props)
  {
    var f := fields[n - 1];
    forall k | k in props ensures exists j | 0 <= j < n :: LastColumnNamed(fields, k, j, n) && props[k] == Str(parts[j]) {
      if !StartsWith(f, "option") && f != ProtoKey && k == f {
        assert LastColumnNamed(fields, k, n - 1, n);
      } else {
        var j :| 0 <= j < n - 1 && LastColumnNamed(fields, k, j, n - 1) && prev[k] == Str(parts[j]);
        assert LastColumnNamed(fields, k, j, n);
      }
    }
  }

  /** The object decoded from one row. */
  function RowObject(fields: seq<string>, parts: seq<string>): Value
    requires |fields| == |parts|
  {
    var c := MapColumns(fields, parts, |fields|);
    Obj(c.props["options" := Arr(Strs(NonBlank(c.options)))])
  }

  /** The row loop from line `i` on, with `acc` decoded so far. The source strips leading whitespace once more from the trimmed line; that changes nothing (`TrimStartOfTrim`), and `MapRows` keeps the call. */
  function DecodeRows(fields: seq<string>, lines: seq<string>, i: nat, acc: seq<Value>): (r: Result<seq<Value>, ToonError>)
    requires i <= |lines|
    ensures r.Err? ==> RowFieldCountAt(fields, lines, i, r.error)
    decreases |lines| - i
  {
    if i == |lines| then Ok(acc)
    else
      var line := Trim(lines[i]);
      if line == [] then DecodeRows(fields, lines, i + 1, acc)
      else
        var parts := Tokenize(line);
        if |parts| != |fields| then Err(RowFieldCount(i, |parts|, |fields|))
        else DecodeRows(fields, lines, i + 1, acc + [RowObject(fields, parts)])
  }

  /** What `toonToQuestions(text)` returns or throws. */
  function Decode(text: string): Result<seq<Value>, ToonError>
  {
    DecodeLines(Split(Trim(text), '\n'))
  }

  /** What `toonToQuestions` does once the text is trimmed and split into lines. */
  function DecodeLines(lines: seq<string>): Result<seq<Value>, ToonError>
    requires |lines| >= 1
  {
    match FindSchema(lines[0], 0)
    case None => Err(MissingSchema)
    case Some(schema) =>
      var fields := Split(schema.fieldList, ',');
      if !HasRequiredFields(fields) then Err(MissingRequiredFields)
      else
        match DecodeRows(fields, lines, 1, [])
        case Err(e) => Err(e)
        case Ok(questions) =>
          if |questions| != schema.count then Err(CountMismatch(schema.count, |questions|))
          else Ok(questions)
  }

  /** The decoder trims its input first, so trimming beforehand changes nothing. */
  lemma DecodeTrimmed(text: string)
    ensures Decode(Trim(text)) == Decode(text)
  {
    TrimIdempotent(text);
  }

  /** The `fields.forEach` callback of `toonToQuestions` and the `options` filter after it: builds one row's object. */
  method MapRow(fields: seq<string>, parts: seq<string>) returns (question: Value)
    requires |fields| == |parts|
    ensures question == RowObject(fields, parts)
  {
    var props: map<string, Value> := map[];
    var options: seq<string> := [];
    var j := 0;
    while j < |fields|
      invariant 0 <= j <= |fields|
      invariant Columns(props, options) == MapColumns(fields, parts, j)
    {
      MapColumnsNext(fields, parts, j);
      var field := fields[j];
      if StartsWith(field, "option") {
        options := options + [parts[j]];
      } else {
        props := SetString(props, field, parts[j]);
      }
      j := j + 1;
    }
    RowObjectOfColumns(fields, parts, Columns(props, options));
    props := props["options" := Arr(Strs(NonBlank(options)))];
    question := Obj(props);
  }

  /** Mapping one more column adds its token to the options or makes it a property. */
  lemma MapColumnsNext(fields: seq<string>, parts: seq<string>, j: nat)
    requires j < |fields| == |parts|
    ensures var c := MapColumns(fields, parts, j);
      MapColumns(fields, parts, j + 1) ==
        if StartsWith(fields[j], "option") then c.(options := c.options + [parts[j]])
        else c.(props := SetString(c.props, fields[j], parts[j]))
  {
  }

  /** The row's object from the mapped columns. */
  lemma RowObjectOfColumns(fields: seq<string>, parts: seq<string>, c: Columns)
    requires |fields| == |parts| && c == MapColumns(fields, parts, |fields|)
    ensures RowObject(fields, parts) == Obj(c.props["options" := Arr(Strs(NonBlank(c.options)))])
  {
  }

  /** The row loop of `toonToQuestions`: every non-blank line after the schema line becomes one object. */
  method MapRows(fields: seq<string>, lines: seq<string>) returns (r: Result<seq<Value>, ToonError>)
    requires 1 <= |lines|
    ensures r == DecodeRows(fields, lines, 1, [])
    ensures r.Ok? ==> AllDecoded(r.value)
  {
    var questions: seq<Value> := [];
    var i := 1;
    while i < |lines|
      invariant 1 <= i <= |lines|
      invariant DecodeRows(fields, lines, i, questions) == DecodeRows(fields, lines, 1, [])
      invariant AllDecoded(questions)
    {
      var step := MapLine(fields, lines, i, questions);
      if step.Err? {
        return Err(step.error);
      }
      questions := step.value;
      i := i + 1;
    }
    return Ok(questions);
  }

  /** One pass of the row loop: a blank line is skipped, a non-blank one is tokenized and becomes one more object, or the field-count error. */
  method MapLine(fields: seq<string>, lines: seq<string>, i: nat, questions: seq<Value>) returns (step: Result<seq<Value>, ToonError>)
    requires 1 <= i < |lines| && AllDecoded(questions)
    ensures step.Err? ==> DecodeRows(fields, lines, i, questions) == step
    ensures step.Ok? ==> DecodeRows(fields, lines, i, questions) == DecodeRows(fields, lines, i + 1, step.value)
    ensures step.Ok? ==> AllDecoded(step.value)
  {
    var line := Trim(lines[i]);
    if line == [] {
      DecodeRowsSkip(fields, lines, i, questions);
      return Ok(questions);
    }
    var dataLine := TrimStart(line);
    TrimStartOfTrim(lines[i]);
    var parts := ParseCsvLine(dataLine);
    DecodeRowsStep(fields, lines, i, questions, parts);
    if |parts| != |fields| {
      return Err(RowFieldCount(i, |parts|, |fields|));
    }
    var question := MapRow(fields, parts);
    AppendRowObject(questions, fields, parts);
    return Ok(questions + [question]);
  }

  /** A blank line adds no row. */
  lemma DecodeRowsSkip(fields: seq<string>, lines: seq<string>, i: nat, acc: seq<Value>)
    requires i < |lines| && Trim(lines[i]) == []
    ensures DecodeRows(fields, lines, i, acc) == DecodeRows(fields, lines, i + 1, acc)
  {
  }

  /** A non-blank line tokenized into `parts` is one row, or the field-count error. */
  lemma DecodeRowsStep(fields: seq<string>, lines: seq<string>, i: nat, acc: seq<Value>, parts: seq<string>)
    requires i < |lines| && Trim(lines[i]) != [] && parts == Tokenize(Trim(lines[i]))
    ensures |parts| != |fields| ==> DecodeRows(fields, lines, i, acc) == Err(RowFieldCount(i, |parts|, |fields|))
    ensures |parts| == |fields| ==>
      DecodeRows(fields, lines, i, acc) == DecodeRows(fields, lines, i + 1, acc + [RowObject(fields, parts)])
  {
  }

  /** `toonToQuestions`: schema line, required columns, rows, then the count check. */
  method ToonToQuestions(toonString: string) returns (r: Result<seq<Value>, ToonError>)
    ensures r == Decode(toonString)
    ensures r.Ok? ==> AllDecoded(r.value)
  {
    var lines := Split(Trim(toonString), '\n');
    var schemaLine := lines[0];
    var schemaMatch := FindSchema(schemaLine, 0);
    if schemaMatch.None? {
      return Err(MissingSchema);
    }
    var expectedCount := schemaMatch.value.count;
    var fields := Split(schemaMatch.value.fieldList, ',');
    if !HasRequiredFields(fields) {
      return Err(MissingRequiredFields);
    }
    var rows := MapRows(fields, lines);
    if rows.Err? {
      return Err(rows.error);
    }
    var questions := rows.value;
    if |questions| != expectedCount {
      return Err(CountMismatch(expectedCount, |questions|));
    }
    return Ok(questions);
  }

  // ---------------------------------------------------------------------
  // Round trip

  /** A value the encoder writes so that the decoder reads it back: no quote (the decoder does not undo the doubling), no newline, no surrounding whitespace (the decoder trims), and no backslash right before a closing quote. */
  predicate WellFormedField(f: string)
  {
    '"' !in f && '\n' !in f && (f != [] ==> !IsWhitespace(f[0]) && !IsWhitespace(f[|f| - 1])) &&
    (',' in f ==> f[|f| - 1] != '\\')
  }

  /** Scanning one encoded field from the start of a token leaves exactly the field in the token buffer, outside quotes. */
  lemma FieldRun(st: ScanState, f: string)
    requires st.current == [] && !st.inQuotes && !st.afterBackslash
    requires WellFormedField(f)
    ensures Run(st, QuoteField(f)).tokens == st.tokens
    ensures Run(st, QuoteField(f)).current == f
    ensures !Run(st, QuoteField(f)).inQuotes
  {
    if ',' in f {
      assert QuoteField(f) == ['"'] + f + ['"'];
      QuotedRun(st, f);
    } else {
      RunCopies(st, f);
    }
  }

  /** Scanning a quoted field with no quote inside and no backslash at its end leaves the field in the token buffer. */
  lemma QuotedRun(st: ScanState, f: string)
    requires st.current == [] && !st.inQuotes && !st.afterBackslash
    requires '"' !in f && f != [] && f[|f| - 1] != '\\'
    ensures Run(st, ['"'] + f + ['"']) == ScanState(st.tokens, f, false, false)
  {
    RunAppend(st, ['"'] + f, ['"']);
    RunAppend(st, ['"'], f);
    RunOne(st, '"');
    var s1 := ScanState(st.tokens, [], true, false);
    assert Step(st, '"') == s1;
    RunCopies(s1, f);
    var s2 := ScanState(st.tokens, f, true, false);
    assert Run(s1, f) == s2;
    RunOne(s2, '"');
  }

  lemma SplitFirst<T>(pre: seq<T>, xs: seq<T>)
    requires |xs| >= 2
    ensures pre + [xs[0]] + xs[1..][..|xs| - 2] == pre + xs[..|xs| - 1]
  {
    assert [xs[0]] + xs[1..][..|xs| - 2] == xs[..|xs| - 1];
  }

  lemma LastSplit<T>(xs: seq<T>)
    requires |xs| >= 1
    ensures [] + xs[..|xs| - 1] + [xs[|xs| - 1]] == xs
  {
  }

  /** Scanning the first encoded field and its comma pushes that field as a token. */
  lemma FirstFieldRun(st: ScanState, fs: seq<string>)
    requires st.current == [] && !st.inQuotes && !st.afterBackslash
    requires |fs| >= 2 && WellFormedField(fs[0])
    ensures Run(st, Join(QuoteAll(fs), ',')) ==
            Run(ScanState(st.tokens + [fs[0]], [], false, false), Join(QuoteAll(fs[1..]), ','))
  {
    var qs := QuoteAll(fs);
    FieldRun(st, fs[0]);
    TrimClean(fs[0]);
    var rest := Join(qs[1..], ',');
    assert Join(qs, ',') == qs[0] + [','] + rest;
    assert qs[1..] == QuoteAll(fs[1..]);
    RunAppend(st, qs[0] + [','], rest);
    RunAppend(st, qs[0], [',']);
    RunOne(Run(st, qs[0]), ',');
  }

  /** Scanning the comma-joined encoded fields pushes every field but the last as a token and leaves the last one in the buffer. */
  lemma {:induction false} FieldsRun(st: ScanState, fs: seq<string>)
    requires st.current == [] && !st.inQuotes && !st.afterBackslash
    requires |fs| >= 1 && forall i | 0 <= i < |fs| :: WellFormedField(fs[i])
    ensures Run(st, Join(QuoteAll(fs), ',')).tokens == st.tokens + fs[..|fs| - 1]
    ensures Run(st, Join(QuoteAll(fs), ',')).current == fs[|fs| - 1]
    decreases |fs|
  {
    if |fs| > 1 {
      FirstFieldRun(st, fs);
      FieldsRun(ScanState(st.tokens + [fs[0]], [], false, false), fs[1..]);
      SplitFirst(st.tokens, fs);
    } else {
      FieldRun(st, fs[0]);
      assert Join(QuoteAll(fs), ',') == QuoteField(fs[0]);
      assert st.tokens + fs[..0] == st.tokens;
    }
  }

  /** The tokenizer reads a row of well-formed fields back. */
  lemma TokenizeRow(fs: seq<string>)
    requires |fs| >= 1 && forall i | 0 <= i < |fs| :: WellFormedField(fs[i])
    ensures Tokenize(Join(QuoteAll(fs), ',')) == fs
  {
    FieldsRun(Start, fs);
    var st := Run(Start, Join(QuoteAll(fs), ','));
    TrimClean(fs[|fs| - 1]);
    LastSplit(fs);
  }

  /** Every value a question's row carries is well formed. */
  predicate EncodableQuestion(q: Question)
  {
    forall i | 0 <= i < 8 :: WellFormedField(RowFields(q)[i])
  }

  /** An encoded field is empty, or begins and ends with a character `trim` keeps. */
  lemma QuotedEnds(f: string)
    requires WellFormedField(f)
    ensures QuoteField(f) == [] <==> f == []
    ensures QuoteField(f) != [] ==> !IsWhitespace(QuoteField(f)[0]) && !IsWhitespace(QuoteField(f)[|QuoteField(f)| - 1])
    ensures '\n' !in QuoteField(f)
  {
    if ',' in f {
      assert QuoteField(f) == ['"'] + f + ['"'];
    }
  }

  /** A row without its indentation: begins and ends with a character `trim` keeps, and holds no newline. */
  lemma RowBodyShape(fs: seq<string>)
    requires |fs| >= 2 && forall i | 0 <= i < |fs| :: WellFormedField(fs[i])
    ensures var r := Join(QuoteAll(fs), ',');
      r != [] && !IsWhitespace(r[0]) && !IsWhitespace(r[|r| - 1]) && '\n' !in r
  {
    var qs := QuoteAll(fs);
    QuotedEnds(fs[0]);
    QuotedEnds(fs[|fs| - 1]);
    JoinEndsClean(qs, ',');
    forall i | 0 <= i < |qs| ensures '\n' !in qs[i] {
      QuotedEnds(fs[i]);
    }
    JoinFree(qs, ',', '\n');
  }

  /** Trimming an indented line whose text begins and ends cleanly removes exactly the indentation. */
  lemma TrimIndented(r: string)
    requires r != [] && !IsWhitespace(r[0]) && !IsWhitespace(r[|r| - 1])
    ensures Trim("  " + r) == r
  {
    assert AllWhitespace("  ");
    TrimLeadingWhitespace("  ", r);
    assert LeadingWhitespace(r) == 0;
    TrimClean(r);
  }

  /** The decoder's `trim` of an encoded row line removes exactly the two spaces of indentation. */
  lemma TrimRow(q: Question)
    requires EncodableQuestion(q)
    ensures Trim(EncodeRow(q)) == Join(QuoteAll(RowFields(q)), ',')
    ensures '\n' !in EncodeRow(q)
  {
    RowBodyShape(RowFields(q));
    TrimIndented(Join(QuoteAll(RowFields(q)), ','));
  }

  /** A greedy run ends at the first character outside its class. */
  lemma {:induction false} RunEndAt(s: string, i: nat, j: nat, cls: char -> bool)
    requires i <= j < |s|
    requires forall k | i <= k < j :: cls(s[k])
    requires !cls(s[j])
    ensures RunEnd(s, i, cls) == j
    decreases j - i
  {
    if i < j {
      RunEndAt(s, i + 1, j, cls);
    }
  }

  /** No column name holds a comma, a closing brace or a newline. */
  lemma ColumnNamesPlain()
    ensures forall i | 0 <= i < |RequiredFields| :: ',' !in RequiredFields[i] && '}' !in RequiredFields[i] && '\n' !in RequiredFields[i]
  {
  }

  /** Splitting the encoder's column list gives the decoder's required fields back. */
  lemma ColumnListFields()
    ensures Split(ColumnList, ',') == RequiredFields
  {
    ColumnNamesPlain();
    SplitJoin(RequiredFields, ',');
  }

  /** The column list holds no closing brace and no newline. */
  lemma ColumnListPlain()
    ensures '}' !in ColumnList && '\n' !in ColumnList
  {
    ColumnNamesPlain();
    JoinFree(RequiredFields, ',', '}');
    JoinFree(RequiredFields, ',', '\n');
  }

  /** The schema pattern matches at `0` when the two greedy runs end at `d` and `e` with the expected punctuation after them. */
  lemma SchemaAtRuns(s: string, d: nat, e: nat)
    requires 10 < d && d + 2 < e && e + 2 <= |s|
    requires s[..10] == "questions["
    requires RunEnd(s, 10, IsDigit) == d && RunEnd(s, d + 2, NotCloseBrace) == e
    requires s[d] == ']' && s[d + 1] == '{' && s[e] == '}' && s[e + 1] == ':'
    ensures SchemaAt(s, 0) == Some(SchemaMatch(DigitsValue(s[10..d]), s[d + 2..e]))
  {
  }

  /** Where the pieces of a schema line sit. */
  lemma SchemaLineSlices(digits: string, fieldList: string)
    ensures var s := "questions[" + digits + "]{" + fieldList + "}:";
      var d := 10 + |digits|;
      var e := d + 2 + |fieldList|;
      |s| == e + 2 && s[..10] == "questions[" && s[10..d] == digits && s[d + 2..e] == fieldList &&
      s[d] == ']' && s[d + 1] == '{' && s[e] == '}' && s[e + 1] == ':'
  {
  }

  /** The schema pattern matches a line made of `questions[`, a digit run, `]{`, a field list without `}`, and `}:`. */
  lemma SchemaAtStart(digits: string, fieldList: string)
    requires digits != [] && forall k | 0 <= k < |digits| :: IsDigit(digits[k])
    requires fieldList != [] && '}' !in fieldList
    ensures SchemaAt("questions[" + digits + "]{" + fieldList + "}:", 0) == Some(SchemaMatch(DigitsValue(digits), fieldList))
  {
    var s := "questions[" + digits + "]{" + fieldList + "}:";
    var d := 10 + |digits|;
    var e := d + 2 + |fieldList|;
    SchemaLineSlices(digits, fieldList);
    RunOfSlice(s, 10, d, IsDigit, digits);
    assert forall k | 0 <= k < |fieldList| :: NotCloseBrace(fieldList[k]);
    RunOfSlice(s, d + 2, e, NotCloseBrace, fieldList);
    SchemaAtRuns(s, d, e);
  }

  /** A run of class characters sitting at `s[i..j]` and followed by one outside the class ends at `j`. */
  lemma RunOfSlice(s: string, i: nat, j: nat, cls: char -> bool, t: string)
    requires i <= j < |s| && s[i..j] == t && !cls(s[j])
    requires forall k | 0 <= k < |t| :: cls(t[k])
    ensures RunEnd(s, i, cls) == j
  {
    forall k | i <= k < j ensures cls(s[k]) {
      assert s[k] == t[k - i];
    }
    RunEndAt(s, i, j, cls);
  }

  /** The schema pattern matches the encoder's header at its first position. */
  lemma HeaderAtStart(n: nat)
    ensures SchemaAt(Header(n), 0) == Some(SchemaMatch(n, ColumnList))
  {
    ColumnListPlain();
    assert ColumnList != [] by {
      assert |ColumnList| >= |RequiredFields[0]|;
    }
    SchemaAtStart(NatToString(n), ColumnList);
    DigitsValueOfNatToString(n);
  }

  /** The schema pattern finds the encoder's header at its start, with the count and the column list as its groups. */
  lemma HeaderSchema(n: nat)
    ensures FindSchema(Header(n), 0) == Some(SchemaMatch(n, ColumnList))
  {
    HeaderAtStart(n);
  }

  /** The header line begins with `q` and holds no newline. */
  lemma HeaderShape(n: nat)
    ensures Header(n) != [] && Header(n)[0] == 'q' && Header(n)[|Header(n)| - 1] == ':'
    ensures '\n' !in Header(n)
  {
    DigitsPlain(n);
    ColumnListPlain();
    HeaderOf(NatToString(n), ColumnList);
  }

  /** The decimal digits of a count hold no newline. */
  lemma DigitsPlain(n: nat)
    ensures '\n' !in NatToString(n)
  {
    var digits := NatToString(n);
    forall k | 0 <= k < |digits| ensures digits[k] != '\n' {
      assert IsDigit(digits[k]);
    }
  }

  /** A header built around a count and a column list without newlines begins with `q`, ends with `:` and holds no newline. */
  lemma HeaderOf(digits: string, columns: string)
    requires '\n' !in digits && '\n' !in columns
    ensures var h := "questions[" + digits + "]{" + columns + "}:";
      h != [] && h[0] == 'q' && h[|h| - 1] == ':' && '\n' !in h
  {
  }

  /** A name that does not begin with `_` is not `__proto__`. */
  lemma NotProtoKey(s: string)
    requires s != [] && s[0] != '_'
    ensures s != ProtoKey
  {
    assert ProtoKey[0] == '_';
  }

  lemma FirstCharNotPrefix(s: string, p: string)
    requires s != [] && p != [] && s[0] != p[0]
    ensures !StartsWith(s, p)
  {
    if |p| <= |s| {
      assert s[..|p|][0] == s[0];
    }
  }

  /** The object the decoder builds for an encoded question: its four text properties, and its first four options without the blank ones. */
  function QuestionObject(q: Question): Value
  {
    var o := PadOptions(q.options);
    Obj(map["question" := Str(q.question), "answer" := Str(q.answer), "explanation" := Str(q.explanation),
            "options" := Arr(Strs(NonBlank(o[..4]))), "context" := Str(q.context)])
  }

  /** A column name that is neither `option...` nor `__proto__`: its token becomes a property. */
  predicate PlainName(f: string)
  {
    !StartsWith(f, "option") && f != ProtoKey
  }

  /** A column not named `option...` nor `__proto__` becomes a property holding its token. */
  lemma PlainColumn(F: seq<string>, P: seq<string>, j: nat, c: Columns)
    requires j < |F| == |P| && c == MapColumns(F, P, j)
    requires PlainName(F[j])
    ensures MapColumns(F, P, j + 1) == c.(props := c.props[F[j] := Str(P[j])])
  {
    MapColumnsNext(F, P, j);
  }

  /** A column named `option...` adds its token to the options. */
  lemma OptionColumn(F: seq<string>, P: seq<string>, j: nat, c: Columns)
    requires j < |F| == |P| && c == MapColumns(F, P, j)
    requires StartsWith(F[j], "option")
    ensures MapColumns(F, P, j + 1) == c.(options := c.options + [P[j]])
  {
    MapColumnsNext(F, P, j);
  }

  /** A run of columns named `option...` adds their tokens, in order, to the options. */
  lemma {:induction false} OptionRun(F: seq<string>, P: seq<string>, j: nat, n: nat, c: Columns)
    requires j <= n <= |F| == |P| && c == MapColumns(F, P, j)
    requires forall k | j <= k < n :: StartsWith(F[k], "option")
    ensures MapColumns(F, P, n) == c.(options := c.options + P[j..n])
    decreases n
  {
    if n > j {
      OptionRun(F, P, j, n - 1, c);
      OptionColumn(F, P, n - 1, MapColumns(F, P, n - 1));
      assert P[j..n] == P[j..n - 1] + [P[n - 1]];
    }
  }

  /** Three text columns at the start become properties. */
  lemma LeadingColumns(F: seq<string>, P: seq<string>)
    requires 3 <= |F| == |P|
    requires forall k | 0 <= k < 3 :: PlainName(F[k])
    ensures MapColumns(F, P, 3) == Columns(map[F[0] := Str(P[0]), F[1] := Str(P[1]), F[2] := Str(P[2])], [])
  {
    assert MapColumns(F, P, 0) == Columns(map[], []);
    PlainColumn(F, P, 0, MapColumns(F, P, 0));
    PlainColumn(F, P, 1, MapColumns(F, P, 1));
    PlainColumn(F, P, 2, MapColumns(F, P, 2));
  }

  /** Eight columns laid out as the encoder writes them: three text columns, four option columns, one text column. */
  lemma EightColumns(F: seq<string>, P: seq<string>)
    requires |F| == |P| == 8
    requires (forall k | 0 <= k < 3 :: PlainName(F[k])) && PlainName(F[7])
    requires forall k | 3 <= k < 7 :: StartsWith(F[k], "option")
    ensures MapColumns(F, P, 8) == Columns(map[F[0] := Str(P[0]), F[1] := Str(P[1]), F[2] := Str(P[2]), F[7] := Str(P[7])], P[3..7])
  {
    LeadingColumns(F, P);
    OptionRun(F, P, 3, 7, MapColumns(F, P, 3));
    PlainColumn(F, P, 7, MapColumns(F, P, 7));
  }

  /** The four option columns are collected in order, and the other four columns become properties. */
  lemma AllColumns(q: Question)
    ensures var o := PadOptions(q.options);
      MapColumns(RequiredFields, RowFields(q), 8) ==
      Columns(map["question" := Str(q.question), "answer" := Str(q.answer), "explanation" := Str(q.explanation),
                  "context" := Str(q.context)], o[..4])
  {
    var F, P := RequiredFields, RowFields(q);
    forall k | 0 <= k < 3 ensures PlainName(F[k]) {
      FirstCharNotPrefix(F[k], "option");
      NotProtoKey(F[k]);
    }
    FirstCharNotPrefix(F[7], "option");
    NotProtoKey(F[7]);
    assert StartsWith(F[3], "option") && StartsWith(F[4], "option") && StartsWith(F[5], "option") && StartsWith(F[6], "option");
    EightColumns(F, P);
  }

  /** Mapping the eight columns of an encoded row by the required field names builds the question's object. */
  lemma RowObjectOfFields(q: Question)
    ensures RowObject(RequiredFields, RowFields(q)) == QuestionObject(q)
  {
    var o := PadOptions(q.options);
    AllColumns(q);
    var m := map["question" := Str(q.question), "answer" := Str(q.answer), "explanation" := Str(q.explanation)];
    var opts := Arr(Strs(NonBlank(o[..4])));
    assert RowObject(RequiredFields, RowFields(q)) == Obj(m["context" := Str(q.context)]["options" := opts]);
    UpdateSwap(m, "context", Str(q.context), "options", opts);
  }

  lemma UpdateSwap<K, V>(m: map<K, V>, k1: K, v1: V, k2: K, v2: V)
    requires k1 != k2
    ensures m[k1 := v1][k2 := v2] == m[k2 := v2][k1 := v1]
  {
  }

  /** The objects the decoder builds for encoded questions. */
  function QuestionObjects(qs: seq<Question>): (r: seq<Value>)
    ensures |r| == |qs| && forall k | 0 <= k < |qs| :: r[k] == QuestionObject(qs[k])
  {
    seq(|qs|, k requires 0 <= k < |qs| => QuestionObject(qs[k]))
  }

  /** The decoder reads one encoded row line back as the question's object. */
  lemma DecodeRowLine(q: Question)
    requires EncodableQuestion(q)
    ensures Trim(EncodeRow(q)) != []
    ensures Tokenize(Trim(EncodeRow(q))) == RowFields(q)
  {
    var r := Join(QuoteAll(RowFields(q)), ',');
    assert Trim(EncodeRow(q)) == r && r != [] by {
      TrimRow(q);
      RowBodyShape(RowFields(q));
    }
    assert Tokenize(r) == RowFields(q) by {
      TokenizeRow(RowFields(q));
    }
  }

  /** The row loop reads `line` as the object `v`: it is non-blank and splits into one value per column. */
  predicate ReadsAs(fields: seq<string>, line: string, v: Value)
  {
    Trim(line) != [] && |Tokenize(Trim(line))| == |fields| && RowObject(fields, Tokenize(Trim(line))) == v
  }

  /** An encoded row line is read back as the question's object. */
  lemma RowReadsAs(q: Question)
    requires EncodableQuestion(q)
    ensures ReadsAs(RequiredFields, EncodeRow(q), QuestionObject(q))
  {
    DecodeRowLine(q);
    RowObjectOfFields(q);
  }

  /** One step of the row loop on a line it reads as `v`. */
  lemma DecodeRowStep(fields: seq<string>, lines: seq<string>, i: nat, acc: seq<Value>, v: Value)
    requires i < |lines| && ReadsAs(fields, lines[i], v)
    ensures DecodeRows(fields, lines, i, acc) == DecodeRows(fields, lines, i + 1, acc + [v])
  {
    DecodeRowsStep(fields, lines, i, acc, Tokenize(Trim(lines[i])));
  }

  lemma AppendEmptyTail<T>(acc: seq<T>, xs: seq<T>)
    ensures acc + xs[|xs|..] == acc
  {
    assert xs[|xs|..] == [];
  }

  lemma AppendFrom<T>(acc: seq<T>, xs: seq<T>, i: nat)
    requires i < |xs|
    ensures acc + [xs[i]] + xs[i + 1..] == acc + xs[i..]
  {
    assert xs[i..] == [xs[i]] + xs[i + 1..];
  }

  /** Every line after the first is read as the corresponding object of `objs`. */
  predicate RowsReadAs(fields: seq<string>, lines: seq<string>, objs: seq<Value>)
  {
    |lines| == |objs| + 1 && forall k | 1 <= k < |lines| :: ReadsAs(fields, lines[k], objs[k - 1])
  }

  /** The row loop over lines each read as the next object returns those objects, in order, from any line on. */
  lemma {:induction false} DecodeReadRows(fields: seq<string>, lines: seq<string>, objs: seq<Value>, i: nat, acc: seq<Value>)
    requires RowsReadAs(fields, lines, objs)
    requires 1 <= i <= |lines|
    ensures DecodeRows(fields, lines, i, acc) == Ok(acc + objs[i - 1..])
    decreases |lines| - i
  {
    if i == |lines| {
      AppendEmptyTail(acc, objs);
    } else {
      assert ReadsAs(fields, lines[i], objs[i - 1]);
      DecodeRowStep(fields, lines, i, acc, objs[i - 1]);
      DecodeReadRows(fields, lines, objs, i + 1, acc + [objs[i - 1]]);
      AppendFrom(acc, objs, i - 1);
    }
  }

  /** The lines of an encoding after the header are read back as the questions' objects. */
  lemma EncodedRowsReadAs(h: string, qs: seq<Question>)
    requires forall k | 0 <= k < |qs| :: EncodableQuestion(qs[k])
    ensures RowsReadAs(RequiredFields, [h] + EncodedRows(qs), QuestionObjects(qs))
  {
    var lines, objs := [h] + EncodedRows(qs), QuestionObjects(qs);
    forall k | 1 <= k < |lines| ensures ReadsAs(RequiredFields, lines[k], objs[k - 1]) {
      EncodedLineAt(h, qs, k);
      ObjectAt(qs, k - 1);
      RowReadsAs(qs[k - 1]);
    }
  }

  /** Line `i` of an encoding is the row of question `i - 1`. */
  lemma EncodedLineAt(h: string, qs: seq<Question>, i: nat)
    requires 1 <= i <= |qs|
    ensures ([h] + EncodedRows(qs))[i] == EncodeRow(qs[i - 1])
  {
    ConsAt(h, EncodedRows(qs), i);
  }

  lemma ConsAt<T>(h: T, xs: seq<T>, i: nat)
    requires 1 <= i <= |xs|
    ensures ([h] + xs)[i] == xs[i - 1]
  {
  }

  /** The `j`-th decoded object is the object of question `j`. */
  lemma ObjectAt(qs: seq<Question>, j: nat)
    requires j < |qs|
    ensures QuestionObjects(qs)[j] == QuestionObject(qs[j])
  {
  }

  /** The lines of an encoding: the header, then one row per question; none holds a newline. */
  lemma EncodedLinesPlain(qs: seq<Question>)
    requires forall k | 0 <= k < |qs| :: EncodableQuestion(qs[k])
    ensures var lines := [Header(|qs|)] + EncodedRows(qs); forall k | 0 <= k < |lines| :: '\n' !in lines[k]
  {
    var lines := [Header(|qs|)] + EncodedRows(qs);
    HeaderShape(|qs|);
    forall k | 0 <= k < |lines| ensures '\n' !in lines[k] {
      if k > 0 {
        assert lines[k] == EncodeRow(qs[k - 1]);
        TrimRow(qs[k - 1]);
      }
    }
  }

  /** A row line ends with a character `trim` keeps. */
  lemma RowLineEnd(q: Question)
    requires EncodableQuestion(q)
    ensures EncodeRow(q) != [] && !IsWhitespace(EncodeRow(q)[|EncodeRow(q)| - 1])
  {
    var r := Join(QuoteAll(RowFields(q)), ',');
    RowBodyShape(RowFields(q));
    assert EncodeRow(q)[|EncodeRow(q)| - 1] == r[|r| - 1];
  }

  /** At least two lines, the first beginning and the last ending with a character `trim` keeps. */
  predicate CleanEnds(lines: seq<string>)
  {
    |lines| >= 2 &&
    lines[0] != [] && !IsWhitespace(lines[0][0]) &&
    lines[|lines| - 1] != [] && !IsWhitespace(lines[|lines| - 1][|lines[|lines| - 1]| - 1])
  }

  /** Lines whose join begins and ends with a character `trim` keeps are their own trimmed join. */
  lemma CleanJoinTrimmed(lines: seq<string>)
    requires CleanEnds(lines)
    ensures Trim(Join(lines, '\n')) == Join(lines, '\n')
  {
    JoinEndsClean(lines, '\n');
    TrimClean(Join(lines, '\n'));
  }

  /** A first line beginning and a last line ending with a character `trim` keeps give clean ends. */
  lemma CleanEndsOf(first: string, rest: seq<string>)
    requires first != [] && !IsWhitespace(first[0])
    requires rest != [] && rest[|rest| - 1] != [] && !IsWhitespace(rest[|rest| - 1][|rest[|rest| - 1]| - 1])
    ensures CleanEnds([first] + rest)
  {
    assert ([first] + rest)[|rest|] == rest[|rest| - 1];
  }

  /** A first line beginning and a last line ending with a character `trim` keeps make a newline join that is its own trim. */
  lemma CleanJoinOf(first: string, rest: seq<string>)
    requires first != [] && !IsWhitespace(first[0])
    requires rest != [] && rest[|rest| - 1] != [] && !IsWhitespace(rest[|rest| - 1][|rest[|rest| - 1]| - 1])
    ensures Trim(Join([first] + rest, '\n')) == Join([first] + rest, '\n')
  {
    CleanEndsOf(first, rest);
    CleanJoinTrimmed([first] + rest);
  }

  /** An encoding of a non-empty list is the newline join of its header and rows. */
  lemma EncodeLines(qs: seq<Question>)
    requires qs != []
    ensures Encode(qs) == Join([Header(|qs|)] + EncodedRows(qs), '\n')
  {
  }

  /** An encoding whose last row ends with a character `trim` keeps is its own trim: it begins with the header's `q`. */
  lemma CleanLastRowTrimmed(qs: seq<Question>)
    requires qs != []
    requires EncodeRow(qs[|qs| - 1]) != [] && !IsWhitespace(EncodeRow(qs[|qs| - 1])[|EncodeRow(qs[|qs| - 1])| - 1])
    ensures Trim(Encode(qs)) == Encode(qs)
  {
    var h, rows := Header(|qs|), EncodedRows(qs);
    HeaderShape(|qs|);
    LastLineClean(h, rows, EncodeRow(qs[|qs| - 1]));
    EncodeLines(qs);
  }

  /** `CleanJoinOf` for a header beginning with `q` and a last row `last`. */
  lemma LastLineClean(h: string, rows: seq<string>, last: string)
    requires h != [] && h[0] == 'q'
    requires rows != [] && rows[|rows| - 1] == last && last != [] && !IsWhitespace(last[|last| - 1])
    ensures Trim(Join([h] + rows, '\n')) == Join([h] + rows, '\n')
  {
    CleanJoinOf(h, rows);
  }


  /** An encoding begins with the header's `q` and ends with the last row's last character, so `trim` leaves it alone. */
  lemma EncodingTrimmed(qs: seq<Question>)
    requires qs != [] && EncodableQuestion(qs[|qs| - 1])
    ensures Trim(Encode(qs)) == Encode(qs)
  {
    RowLineEnd(qs[|qs| - 1]);
    CleanLastRowTrimmed(qs);
  }

  /** The lines the decoder splits an encoding into are the header and the encoded rows. */
  lemma EncodedLines(qs: seq<Question>)
    requires qs != [] && forall k | 0 <= k < |qs| :: EncodableQuestion(qs[k])
    ensures Split(Trim(Encode(qs)), '\n') == [Header(|qs|)] + EncodedRows(qs)
  {
    EncodingTrimmed(qs);
    EncodedLinesPlain(qs);
    SplitJoin([Header(|qs|)] + EncodedRows(qs), '\n');
  }

  /** The encoder's header names every required field. */
  lemma HeaderFieldsRequired()
    ensures Split(ColumnList, ',') == RequiredFields && HasRequiredFields(RequiredFields)
  {
    ColumnListFields();
    forall k | 0 <= k < |RequiredFields| ensures RequiredFields[k] in RequiredFields {
    }
  }

  /** The decoder succeeds with `objs` on lines whose schema line declares `|objs|` items of the encoder's columns and whose row loop yields `objs`. */
  lemma DecodeLinesOk(lines: seq<string>, objs: seq<Value>)
    requires |lines| >= 1 && FindSchema(lines[0], 0) == Some(SchemaMatch(|objs|, ColumnList))
    requires DecodeRows(RequiredFields, lines, 1, []) == Ok(objs)
    ensures DecodeLines(lines) == Ok(objs)
  {
    HeaderFieldsRequired();
  }

  /** The header followed by the encoded rows decodes to the questions' objects, in order. */
  lemma EncodedLinesDecode(h: string, qs: seq<Question>)
    requires FindSchema(h, 0) == Some(SchemaMatch(|qs|, ColumnList))
    requires forall k | 0 <= k < |qs| :: EncodableQuestion(qs[k])
    ensures DecodeLines([h] + EncodedRows(qs)) == Ok(QuestionObjects(qs))
  {
    EncodedRowsReadAs(h, qs);
    ConsHead(h, EncodedRows(qs));
    DecodeReadLines([h] + EncodedRows(qs), QuestionObjects(qs));
  }

  /** Lines whose schema line declares `|objs|` items of the encoder's columns and whose rows read as `objs` decode to `objs`. */
  lemma DecodeReadLines(lines: seq<string>, objs: seq<Value>)
    requires RowsReadAs(RequiredFields, lines, objs)
    requires FindSchema(lines[0], 0) == Some(SchemaMatch(|objs|, ColumnList))
    ensures DecodeLines(lines) == Ok(objs)
  {
    DecodeReadRows(RequiredFields, lines, objs, 1, []);
    WholeTail(objs);
    DecodeLinesOk(lines, objs);
  }

  lemma ConsHead<T>(h: T, xs: seq<T>)
    ensures ([h] + xs)[0] == h
  {
  }

  lemma WholeTail<T>(xs: seq<T>)
    ensures [] + xs[0..] == xs
  {
    assert xs[0..] == xs;
  }

  /** Decoding an encoding of well-formed questions succeeds with the objects of the questions, in order. */
  lemma DecodeEncode(qs: seq<Question>)
    requires qs != [] && forall k | 0 <= k < |qs| :: EncodableQuestion(qs[k])
    ensures Decode(Encode(qs)) == Ok(QuestionObjects(qs))
  {
    EncodedLines(qs);
    HeaderSchema(|qs|);
    EncodedLinesDecode(Header(|qs|), qs);
  }

  /** A question the format carries unchanged: well-formed values and at most four options, none blank. */
  predicate RoundTrips(q: Question)
  {
    EncodableQuestion(q) && |q.options| <= 4 && forall k | 0 <= k < |q.options| :: !IsBlank(q.options[k])
  }

  /** Padding up to four non-blank options and filtering the blanks out again gives the options back. */
  lemma PaddedOptionsFiltered(o: seq<string>)
    requires |o| <= 4 && forall k | 0 <= k < |o| :: !IsBlank(o[k])
    ensures NonBlank(PadOptions(o)[..4]) == o
  {
    var p := PadOptions(o);
    var blanks := p[|o|..4];
    assert p[..4] == o + blanks;
    forall k | 0 <= k < |blanks| ensures IsBlank(blanks[k]) {
      assert blanks[k] == p[|o| + k] == [];
      assert Trim([]) == [];
    }
    NonBlankDropsTrailingBlanks(o, blanks);
    NonBlankKeepsAll(o);
  }

  /** For such a question the decoded object is the question itself. */
  lemma QuestionObjectIsQuestion(q: Question)
    requires RoundTrips(q)
    ensures QuestionObject(q) == QuestionValue(q)
  {
    PaddedOptionsFiltered(q.options);
    assert NonBlank(PadOptions(q.options)[..4]) == q.options;
  }

  lemma SameElements<T>(a: seq<T>, b: seq<T>)
    requires |a| == |b| && forall k | 0 <= k < |a| :: a[k] == b[k]
    ensures a == b
  {
  }

  /** `toonToQuestions(questionsToToon(qs))` is `qs` for a non-empty list of questions the format carries unchanged. */
  lemma RoundTrip(qs: seq<Question>)
    requires qs != [] && forall k | 0 <= k < |qs| :: RoundTrips(qs[k])
    ensures Decode(Encode(qs)) == Ok(QuestionValues(qs))
  {
    DecodeEncode(qs);
    var objs, vals := QuestionObjects(qs), QuestionValues(qs);
    forall k | 0 <= k < |qs| ensures objs[k] == vals[k] {
      QuestionObjectIsQuestion(qs[k]);
    }
    SameElements(objs, vals);
  }

  /** The empty list encodes to the empty string, which the decoder rejects. */
  lemma EmptyDoesNotRoundTrip()
    ensures Encode([]) == []
    ensures Decode(Encode([])) == Err(MissingSchema)
  {
    var empty: string := [];
    assert Encode([]) == empty;
    EmptyTextLines();
    assert Decode(empty) == DecodeLines([empty]);
  }

  lemma EmptyTextLines()
    ensures Split(Trim([]), '\n') == [[]] && FindSchema([], 0) == None
  {
    var empty: string := [];
    assert Trim(empty) == empty;
    assert Split(empty, '\n') == [empty];
    assert SchemaAt(empty, 0) == None;
  }

  /** Doubling adds no character other than quotes. */
  lemma {:induction false} DoubleQuotesChars(f: string, c: char)
    requires c !in f
    ensures c !in DoubleQuotes(f)
  {
    if c == '"' {
    } else if f != [] {
      assert forall x :: x in f[1..] ==> x in f;
      DoubleQuotesChars(f[1..], c);
    }
  }

  /** Quotes are never read back: in a row without backslashes, a field holding a quote makes the tokens differ from the fields. */
  lemma QuoteNeverReadBack(fs: seq<string>, i: nat)
    requires |fs| >= 1 && forall k | 0 <= k < |fs| :: '\\' !in fs[k]
    requires i < |fs| && '"' in fs[i]
    ensures Tokenize(Join(QuoteAll(fs), ',')) != fs
  {
    var qs := QuoteAll(fs);
    forall k | 0 <= k < |qs| ensures '\\' !in qs[k] {
      DoubleQuotesChars(fs[k], '\\');
    }
    JoinFree(qs, ',', '\\');
    NoBackslashNoQuotes(Join(qs, ','));
  }

  /** Scanning one more character is one more step. */
  lemma RunSnoc(st: ScanState, s: string, c: char)
    ensures Run(st, s + [c]) == Step(Run(st, s), c)
  {
    RunAppend(st, s, [c]);
    RunOne(Run(st, s), c);
  }

  /** A comma field ending in a backslash is not read back: `a,\` is written as `"a,\"`, whose closing quote counts as escaped and is kept. */
  lemma BackslashBeforeClosingQuote()
    ensures Tokenize(QuoteField(['a', ',', '\\'])) == [['a', ',', '\\', '"']]
  {
    QuoteBackslashField();
    ScanBackslashQuote();
    var kept := ['a', ',', '\\', '"'];
    TrimClean(kept);
    TokenizeOfRun(['"', 'a', ',', '\\', '"'], ScanState([], kept, true, false));
  }

  /** `a,\` holds a comma, so it is written between quotes. */
  lemma QuoteBackslashField()
    ensures QuoteField(['a', ',', '\\']) == ['"', 'a', ',', '\\', '"']
  {
    var f := ['a', ',', '\\'];
    assert ',' in f && '"' !in f;
  }

  /** The tokens of a line, from the scanner's final state. */
  lemma TokenizeOfRun(line: string, st: ScanState)
    requires Run(Start, line) == st
    ensures Tokenize(line) == st.tokens + [Trim(st.current)]
  {
  }

  /** The scanner's states along `"a,\"`: the backslash makes the last quote a kept character. */
  lemma ScanBackslashQuote()
    ensures Run(Start, ['"', 'a', ',', '\\', '"']) == ScanState([], ['a', ',', '\\', '"'], true, false)
  {
    var l1 := ['"'];
    RunOne(Start, '"');
    assert Run(Start, l1) == ScanState([], [], true, false);
    RunSnoc(Start, l1, 'a');
    assert Run(Start, l1 + ['a']) == ScanState([], ['a'], true, false);
    RunSnoc(Start, l1 + ['a'], ',');
    assert Run(Start, l1 + ['a'] + [',']) == ScanState([], ['a', ','], true, false);
    RunSnoc(Start, l1 + ['a'] + [','], '\\');
    assert Run(Start, l1 + ['a'] + [','] + ['\\']) == ScanState([], ['a', ',', '\\'], true, true);
    RunSnoc(Start, l1 + ['a'] + [','] + ['\\'], '"');
    assert l1 + ['a'] + [','] + ['\\'] + ['"'] == ['"', 'a', ',', '\\', '"'];
  }

  /** What every decoded row is: an object whose `options` property is an array of non-blank strings. */
  predicate DecodedObject(v: Value)
  {
    v.Obj? && "options" in v.props && v.props["options"].Arr? &&
    forall k | 0 <= k < |v.props["options"].items| ::
      v.props["options"].items[k].Str? && !IsBlank(v.props["options"].items[k].s)
  }

  lemma RowObjectDecoded(fields: seq<string>, parts: seq<string>)
    requires |fields| == |parts|
    ensures DecodedObject(RowObject(fields, parts))
  {
  }

  /** `e` is the error for a non-blank line at `i` or later whose token count differs from the column count. */
  predicate RowFieldCountAt(fields: seq<string>, lines: seq<string>, i: nat, e: ToonError)
  {
    e.RowFieldCount? && i <= e.row < |lines| && !IsBlank(lines[e.row]) &&
    e.found == |Tokenize(Trim(lines[e.row]))| && e.expected == |fields| && e.found != e.expected
  }

  /** Every value in `vs` is a decoded object. */
  predicate AllDecoded(vs: seq<Value>)
  {
    forall k | 0 <= k < |vs| :: DecodedObject(vs[k])
  }

  lemma AllDecodedSnoc(acc: seq<Value>, v: Value)
    requires AllDecoded(acc) && DecodedObject(v)
    ensures AllDecoded(acc + [v])
  {
    forall k | 0 <= k < |acc| + 1 ensures DecodedObject((acc + [v])[k]) {
      if k < |acc| {
        assert (acc + [v])[k] == acc[k];
      }
    }
  }

  /** One decoded row appended keeps every element a decoded object. */
  lemma AppendRowObject(acc: seq<Value>, fields: seq<string>, parts: seq<string>)
    requires |fields| == |parts| && AllDecoded(acc)
    ensures AllDecoded(acc + [RowObject(fields, parts)])
  {
    RowObjectDecoded(fields, parts);
    AllDecodedSnoc(acc, RowObject(fields, parts));
  }

  /** Line `line` is non-blank and does not split into one token per column: the row loop throws on it. */
  predicate BadRow(fields: seq<string>, line: string)
  {
    Trim(line) != [] && |Tokenize(Trim(line))| != |fields|
  }

  /** No line at index `i` up to (not including) `j` is a bad row. */
  predicate RowsFitBetween(fields: seq<string>, lines: seq<string>, i: nat, j: nat)
    requires j <= |lines|
  {
    forall k | i <= k < j :: !BadRow(fields, lines[k])
  }

  /** The number of non-blank lines from index `i` on. */
  function NonBlankFrom(lines: seq<string>, i: nat): nat
    requires i <= |lines|
    decreases |lines| - i
  {
    if i == |lines| then 0 else (if Trim(lines[i]) == [] then 0 else 1) + NonBlankFrom(lines, i + 1)
  }

  /** The row pass from line `i` succeeds exactly when no line from `i` on is a bad row. */
  lemma {:induction false} RowsOkIff(fields: seq<string>, lines: seq<string>, i: nat, acc: seq<Value>)
    requires i <= |lines|
    ensures DecodeRows(fields, lines, i, acc).Ok? <==> RowsFitBetween(fields, lines, i, |lines|)
    decreases |lines| - i
  {
    if i < |lines| {
      if Trim(lines[i]) == [] {
        DecodeRowsSkip(fields, lines, i, acc);
        RowsOkIff(fields, lines, i + 1, acc);
      } else {
        var parts := Tokenize(Trim(lines[i]));
        DecodeRowsStep(fields, lines, i, acc, parts);
        if |parts| == |fields| {
          RowsOkIff(fields, lines, i + 1, acc + [RowObject(fields, parts)]);
        }
      }
      FitsFrom(fields, lines, i);
    }
  }

  lemma FitsFrom(fields: seq<string>, lines: seq<string>, i: nat)
    requires i < |lines|
    ensures RowsFitBetween(fields, lines, i, |lines|) <==> !BadRow(fields, lines[i]) && RowsFitBetween(fields, lines, i + 1, |lines|)
  {
  }

  /** A successful row pass from line `i` appends one object per non-blank line. */
  lemma {:induction false} RowsOkCount(fields: seq<string>, lines: seq<string>, i: nat, acc: seq<Value>)
    requires i <= |lines| && DecodeRows(fields, lines, i, acc).Ok?
    ensures |DecodeRows(fields, lines, i, acc).value| == |acc| + NonBlankFrom(lines, i)
    decreases |lines| - i
  {
    if i < |lines| {
      if Trim(lines[i]) == [] {
        DecodeRowsSkip(fields, lines, i, acc);
        RowsOkCount(fields, lines, i + 1, acc);
      } else {
        var parts := Tokenize(Trim(lines[i]));
        DecodeRowsStep(fields, lines, i, acc, parts);
        RowsOkCount(fields, lines, i + 1, acc + [RowObject(fields, parts)]);
      }
    }
  }

  /** A failing row pass from line `i` stops at the first bad row: every line before the one it names fits. */
  lemma {:induction false} RowErrorFirst(fields: seq<string>, lines: seq<string>, i: nat, acc: seq<Value>)
    requires i <= |lines| && DecodeRows(fields, lines, i, acc).Err?
    ensures RowsFitBetween(fields, lines, i, DecodeRows(fields, lines, i, acc).error.row)
    decreases |lines| - i
  {
    var e := DecodeRows(fields, lines, i, acc).error;
    assert i < |lines|;
    if Trim(lines[i]) == [] {
      DecodeRowsSkip(fields, lines, i, acc);
      RowErrorFirst(fields, lines, i + 1, acc);
      FitsCons(fields, lines, i, e.row);
    } else {
      var parts := Tokenize(Trim(lines[i]));
      DecodeRowsStep(fields, lines, i, acc, parts);
      if |parts| == |fields| {
        var next := acc + [RowObject(fields, parts)];
        RowErrorFirst(fields, lines, i + 1, next);
        FitsCons(fields, lines, i, e.row);
      }
    }
  }

  lemma FitsCons(fields: seq<string>, lines: seq<string>, i: nat, j: nat)
    requires i < j <= |lines| && !BadRow(fields, lines[i]) && RowsFitBetween(fields, lines, i + 1, j)
    ensures RowsFitBetween(fields, lines, i, j)
  {
  }

  /** `toonToQuestions` succeeds exactly when the first line has a schema naming every required column, no later line is a bad row, and the non-blank lines after the first number exactly the declared count; it then returns that many objects. */
  lemma DecodeSuccess(text: string)
    ensures var lines := Split(Trim(text), '\n');
      var schema := FindSchema(lines[0], 0);
      (Decode(text).Ok? <==>
        schema.Some? && HasRequiredFields(Split(schema.value.fieldList, ',')) &&
        RowsFitBetween(Split(schema.value.fieldList, ','), lines, 1, |lines|) && NonBlankFrom(lines, 1) == schema.value.count) &&
      (Decode(text).Ok? ==> |Decode(text).value| == schema.value.count)
  {
    var lines := Split(Trim(text), '\n');
    LinesSuccess(lines, FindSchema(lines[0], 0), Decode(text));
  }

  /** `DecodeSuccess` on the lines of the trimmed text. */
  lemma LinesSuccess(lines: seq<string>, schema: Option<SchemaMatch>, r: Result<seq<Value>, ToonError>)
    requires |lines| >= 1 && schema == FindSchema(lines[0], 0) && r == DecodeLines(lines)
    ensures r.Ok? <==>
              schema.Some? && HasRequiredFields(Split(schema.value.fieldList, ',')) &&
              RowsFitBetween(Split(schema.value.fieldList, ','), lines, 1, |lines|) && NonBlankFrom(lines, 1) == schema.value.count
    ensures r.Ok? ==> |r.value| == schema.value.count
  {
    if schema.Some? {
      var fields := Split(schema.value.fieldList, ',');
      var rows := DecodeRows(fields, lines, 1, []);
      RowsOkIff(fields, lines, 1, []);
      if rows.Ok? {
        RowsOkCount(fields, lines, 1, []);
      }
      LinesOfRows(lines, schema.value, fields, rows);
    }
  }

  /** What the decoder returns once the schema is found, in terms of the row pass. */
  lemma LinesOfRows(lines: seq<string>, schema: SchemaMatch, fields: seq<string>, rows: Result<seq<Value>, ToonError>)
    requires |lines| >= 1 && FindSchema(lines[0], 0) == Some(schema) && fields == Split(schema.fieldList, ',')
    requires rows == DecodeRows(fields, lines, 1, [])
    ensures DecodeLines(lines).Ok? <==> HasRequiredFields(fields) && rows.Ok? && |rows.value| == schema.count
    ensures DecodeLines(lines).Ok? ==> DecodeLines(lines) == rows
  {
  }

  /** Each error `toonToQuestions` throws has its own cause: no schema on the first line; a schema without the required columns; a non-blank row whose token count differs from the column count; or a row count different from the declared count. */
  lemma DecodeErrors(text: string)
    ensures var lines := Split(Trim(text), '\n');
      var schema := FindSchema(lines[0], 0);
      var r := Decode(text);
      (r == Err(MissingSchema) <==> schema.None?) &&
      (r == Err(MissingRequiredFields) <==> schema.Some? && !HasRequiredFields(Split(schema.value.fieldList, ','))) &&
      (r.Err? && r.error.RowFieldCount? ==>
        schema.Some? && RowFieldCountAt(Split(schema.value.fieldList, ','), lines, 1, r.error) &&
        RowsFitBetween(Split(schema.value.fieldList, ','), lines, 1, r.error.row)) &&
      (r.Err? && r.error.CountMismatch? ==>
        schema.Some? && r.error.expected == schema.value.count && r.error.found == NonBlankFrom(lines, 1) &&
        r.error.found != r.error.expected)
  {
    var lines := Split(Trim(text), '\n');
    var schema, r := FindSchema(lines[0], 0), Decode(text);
    LinesErrors(lines, schema, r);
    if r.Err? && r.error.RowFieldCount? {
      LinesRowError(lines, schema, r);
    }
    if r.Err? && r.error.CountMismatch? {
      LinesCountError(lines, schema, r);
    }
  }

  /** `DecodeErrors` on the lines of the trimmed text. */
  lemma LinesErrors(lines: seq<string>, schema: Option<SchemaMatch>, r: Result<seq<Value>, ToonError>)
    requires |lines| >= 1 && schema == FindSchema(lines[0], 0) && r == DecodeLines(lines)
    ensures r == Err(MissingSchema) <==> schema.None?
    ensures r == Err(MissingRequiredFields) <==> schema.Some? && !HasRequiredFields(Split(schema.value.fieldList, ','))
    ensures r.Err? && r.error.RowFieldCount? ==> schema.Some? && RowFieldCountAt(Split(schema.value.fieldList, ','), lines, 1, r.error)
    ensures r.Err? && r.error.CountMismatch? ==> schema.Some? && r.error.expected == schema.value.count && r.error.found != r.error.expected
  {
  }

  /** A row error names the first bad row after the schema line. */
  lemma LinesRowError(lines: seq<string>, schema: Option<SchemaMatch>, r: Result<seq<Value>, ToonError>)
    requires |lines| >= 1 && schema == FindSchema(lines[0], 0) && r == DecodeLines(lines)
    requires r.Err? && r.error.RowFieldCount?
    ensures schema.Some? && r.error.row < |lines| && RowsFitBetween(Split(schema.value.fieldList, ','), lines, 1, r.error.row)
  {
    RowErrorFirst(Split(schema.value.fieldList, ','), lines, 1, []);
  }

  /** A count error reports the number of non-blank lines after the schema line as the found count. */
  lemma LinesCountError(lines: seq<string>, schema: Option<SchemaMatch>, r: Result<seq<Value>, ToonError>)
    requires |lines| >= 1 && schema == FindSchema(lines[0], 0) && r == DecodeLines(lines)
    requires r.Err? && r.error.CountMismatch?
    ensures schema.Some? && r.error.found == NonBlankFrom(lines, 1)
  {
    RowsOkCount(Split(schema.value.fieldList, ','), lines, 1, []);
  }
}
