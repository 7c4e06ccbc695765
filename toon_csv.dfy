/**
 * The quote-aware row tokenizer of the row-format ("TOON") decoder
 * (`parseCSVLine`). A `"` that is not preceded by a backslash toggles the
 * in-quotes state and is dropped; a `,` outside quotes ends a token; every
 * other character is copied; each token is trimmed.
 */
module ToonCsv {
  import opened JsText

  /** The variables of the scanning loop: tokens pushed so far, the token being built, the quote state, and whether the previous character was a backslash. */
  datatype ScanState = ScanState(tokens: seq<string>, current: string, inQuotes: bool, afterBackslash: bool)

  const Start := ScanState([], [], false, false)

  /** One iteration of the scanning loop on the character `c`. */
  function Step(st: ScanState, c: char): ScanState
  {
    if c == '"' && !st.afterBackslash then
      st.(inQuotes := !st.inQuotes, afterBackslash := false)
    else if c == ',' && !st.inQuotes then
      st.(tokens := st.tokens + [Trim(st.current)], current := [], afterBackslash := false)
    else
      st.(current := st.current + [c], afterBackslash := c == '\\')
  }

  /** The loop state after scanning all of `s` from state `st`. */
  function Run(st: ScanState, s: string): ScanState
    decreases |s|
  {
    if s == [] then st else Step(Run(st, s[..|s| - 1]), s[|s| - 1])
  }

  /** What `parseCSVLine(line)` returns. */
  function Tokenize(line: string): seq<string>
  {
    var st := Run(Start, line);
    st.tokens + [Trim(st.current)]
  }

  /** `parseCSVLine`: the scanning loop of the source. */
  method ParseCsvLine(line: string) returns (result: seq<string>)
    ensures result == Tokenize(line)
  {
    result := [];
    var current: string := [];
    var inQuotes := false;
    var i := 0;
    while i < |line|
      invariant 0 <= i <= |line|
      invariant Run(Start, line[..i]) == ScanState(result, current, inQuotes, i > 0 && line[i - 1] == '\\')
    {
      var c := line[i];
      if c == '"' && (i == 0 || line[i - 1] != '\\') {
        inQuotes := !inQuotes;
      } else if c == ',' && !inQuotes {
        result := result + [Trim(current)];
        current := [];
      } else {
        current := current + [c];
      }
      assert line[..i + 1][..i] == line[..i];
      i := i + 1;
    }
    assert line[..i] == line;
    result := result + [Trim(current)];
  }

  // ---------------------------------------------------------------------
  // A character-level reading of the same rules, independent of the loop.

  /** The character at `i` is a quote that toggles the in-quotes state. */
  predicate IsToggle(line: string, i: nat)
    requires i < |line|
  {
    line[i] == '"' && (i == 0 || line[i - 1] != '\\')
  }

  /** The number of toggling quotes in `line[..k]`. */
  function Toggles(line: string, k: nat): nat
    requires k <= |line|
  {
    if k == 0 then 0 else Toggles(line, k - 1) + (if IsToggle(line, k - 1) then 1 else 0)
  }

  /** The character at `i` is a comma outside quotes, which ends a token. */
  predicate IsSeparator(line: string, i: nat)
    requires i < |line|
  {
    line[i] == ',' && Toggles(line, i) % 2 == 0
  }

  /** The number of separating commas in `line[..k]`. */
  function Separators(line: string, k: nat): nat
    requires k <= |line|
  {
    if k == 0 then 0 else Separators(line, k - 1) + (if IsSeparator(line, k - 1) then 1 else 0)
  }

  /** After scanning a prefix, the loop is inside quotes exactly when an odd number of toggling quotes has been seen, and it has pushed one token per separating comma. */
  lemma {:induction false} ScanMatchesCharacterRules(line: string, k: nat)
    requires k <= |line|
    ensures Run(Start, line[..k]).inQuotes <==> Toggles(line, k) % 2 == 1
    ensures Run(Start, line[..k]).afterBackslash <==> k > 0 && line[k - 1] == '\\'
    ensures |Run(Start, line[..k]).tokens| == Separators(line, k)
  {
    if k > 0 {
      ScanMatchesCharacterRules(line, k - 1);
      assert line[..k][..k - 1] == line[..k - 1];
      StepMatchesCharacterRules(Run(Start, line[..k - 1]), line, k);
    }
  }

  /** The scanner state after `k - 1` characters, in the terms of `ScanMatchesCharacterRules`. */
  predicate MatchesAt(st: ScanState, line: string, k: nat)
    requires k <= |line|
  {
    (st.inQuotes <==> Toggles(line, k) % 2 == 1) &&
    (st.afterBackslash <==> k > 0 && line[k - 1] == '\\') &&
    |st.tokens| == Separators(line, k)
  }

  /** Scanning character `k - 1` keeps the correspondence with the character rules. */
  lemma StepMatchesCharacterRules(p: ScanState, line: string, k: nat)
    requires 0 < k <= |line| && MatchesAt(p, line, k - 1)
    ensures MatchesAt(Step(p, line[k - 1]), line, k)
  {
  }

  /** `parseCSVLine` returns one token more than there are commas outside quotes. */
  lemma TokenCount(line: string)
    ensures |Tokenize(line)| == Separators(line, |line|) + 1
  {
    ScanMatchesCharacterRules(line, |line|);
    assert line[..|line|] == line;
  }

  /** Every string in `ts` is its own trim. */
  predicate AllTrimmed(ts: seq<string>)
  {
    forall i | 0 <= i < |ts| :: Trim(ts[i]) == ts[i]
  }

  /** Every token has had its surrounding whitespace trimmed. */
  lemma TokensTrimmed(line: string)
    ensures AllTrimmed(Tokenize(line))
  {
    var st := Run(Start, line);
    RunKeepsTrimmed(Start, line);
    TrimIdempotent(st.current);
    var ts := Tokenize(line);
    assert ts == st.tokens + [Trim(st.current)];
    forall i | 0 <= i < |ts| ensures Trim(ts[i]) == ts[i] {
      if i < |st.tokens| { assert ts[i] == st.tokens[i]; }
    }
  }

  lemma {:induction false} RunKeepsTrimmed(st: ScanState, s: string)
    requires AllTrimmed(st.tokens)
    ensures AllTrimmed(Run(st, s).tokens)
    decreases |s|
  {
    if s != [] {
      RunKeepsTrimmed(st, s[..|s| - 1]);
      StepKeepsTrimmed(Run(st, s[..|s| - 1]), s[|s| - 1]);
    }
  }

  /** One scanning step pushes, if anything, a trimmed token. */
  lemma StepKeepsTrimmed(p: ScanState, c: char)
    requires AllTrimmed(p.tokens)
    ensures AllTrimmed(Step(p, c).tokens)
  {
    if !(c == '"' && !p.afterBackslash) && c == ',' && !p.inQuotes {
      TrimIdempotent(p.current);
      AllTrimmedSnoc(p.tokens, Trim(p.current));
    }
  }

  lemma AllTrimmedSnoc(ts: seq<string>, t: string)
    requires AllTrimmed(ts) && Trim(t) == t
    ensures AllTrimmed(ts + [t])
  {
    forall i | 0 <= i < |ts| + 1 ensures Trim((ts + [t])[i]) == (ts + [t])[i] {
      if i < |ts| {
        assert (ts + [t])[i] == ts[i];
      }
    }
  }

  /** Every `"` in `s` comes right after a backslash. */
  predicate QuotesEscaped(s: string)
  {
    forall j | 0 <= j < |s| && s[j] == '"' :: j > 0 && s[j - 1] == '\\'
  }

  /** What the loop keeps true: kept quotes are escaped ones, and the backslash flag is backed by the token being built. */
  ghost predicate EscapedState(st: ScanState)
  {
    && QuotesEscaped(st.current)
    && (forall i | 0 <= i < |st.tokens| :: QuotesEscaped(st.tokens[i]))
    && (st.afterBackslash ==> st.current != [] && st.current[|st.current| - 1] == '\\')
  }

  lemma TrimKeepsEscaped(s: string)
    requires QuotesEscaped(s)
    ensures QuotesEscaped(Trim(s))
  {
    TrimStartKeepsEscaped(s);
    TrimEndKeepsEscaped(TrimStart(s));
  }

  lemma TrimStartKeepsEscaped(s: string)
    requires QuotesEscaped(s)
    ensures QuotesEscaped(TrimStart(s))
  {
    var t := TrimStart(s);
    var off := |s| - |t|;
    TrimStartDrops(s);
    if off > 0 {
      assert s[..off][off - 1] == s[off - 1];
      assert IsWhitespace(s[off - 1]) && s[off - 1] != '\\';
    }
    if t != [] { assert s[off] == t[0]; }
    assert t != [] ==> t[0] != '"';
    forall j | 0 <= j < |t| && t[j] == '"' ensures j > 0 && t[j - 1] == '\\' {
      assert s[off + j] == t[j];
      if j > 0 { assert s[off + j - 1] == t[j - 1]; }
    }
  }

  lemma TrimEndKeepsEscaped(t: string)
    requires QuotesEscaped(t)
    ensures QuotesEscaped(TrimEnd(t))
  {
    var u := TrimEnd(t);
    forall j | 0 <= j < |u| && u[j] == '"' ensures j > 0 && u[j - 1] == '\\' {
      assert u[j] == t[j];
    }
  }

  lemma {:induction false} RunKeepsEscaped(st: ScanState, s: string)
    requires EscapedState(st)
    ensures EscapedState(Run(st, s))
    decreases |s|
  {
    if s != [] {
      RunKeepsEscaped(st, s[..|s| - 1]);
      StepKeepsEscaped(Run(st, s[..|s| - 1]), s[|s| - 1]);
    }
  }

  /** One scanning step keeps every quote in the tokens and the current token escaped. */
  lemma StepKeepsEscaped(p: ScanState, c: char)
    requires EscapedState(p)
    ensures EscapedState(Step(p, c))
  {
    if c == '"' && !p.afterBackslash {
    } else if c == ',' && !p.inQuotes {
      TrimKeepsEscaped(p.current);
      AllEscapedSnoc(p.tokens, Trim(p.current));
    } else {
      KeptCharEscaped(p.current, c, p.afterBackslash);
    }
  }

  lemma AllEscapedSnoc(ts: seq<string>, t: string)
    requires forall i | 0 <= i < |ts| :: QuotesEscaped(ts[i])
    requires QuotesEscaped(t)
    ensures forall i | 0 <= i < |ts + [t]| :: QuotesEscaped((ts + [t])[i])
  {
  }

  /** Appending a character to the current token keeps its quotes escaped when a quote is only kept right after a backslash. */
  lemma KeptCharEscaped(cur: string, c: char, afterBackslash: bool)
    requires QuotesEscaped(cur)
    requires afterBackslash ==> cur != [] && cur[|cur| - 1] == '\\'
    requires c == '"' ==> afterBackslash
    ensures QuotesEscaped(cur + [c])
  {
    var next := cur + [c];
    forall j | 0 <= j < |next| && next[j] == '"' ensures j > 0 && next[j - 1] == '\\' {
      if j < |cur| { assert next[j] == cur[j]; }
    }
  }

  /** A quote is never copied into a token unless a backslash precedes it. */
  lemma TokenQuotesEscaped(line: string)
    ensures forall i | 0 <= i < |Tokenize(line)| :: QuotesEscaped(Tokenize(line)[i])
  {
    RunKeepsEscaped(Start, line);
    TrimKeepsEscaped(Run(Start, line).current);
  }

  /** Without backslashes in the line, no token contains a quote (so `""` inside quotes contributes nothing). */
  lemma NoBackslashNoQuotes(line: string)
    requires '\\' !in line
    ensures forall i | 0 <= i < |Tokenize(line)| :: '"' !in Tokenize(line)[i]
  {
    TokenQuotesEscaped(line);
    RunKeepsBackslashFree(Start, line);
    var st := Run(Start, line);
    TrimSubstring(st.current);
    forall i | 0 <= i < |Tokenize(line)| ensures '"' !in Tokenize(line)[i] {
      var t := Tokenize(line)[i];
      assert '\\' !in t;
      forall j | 0 <= j < |t| ensures t[j] != '"' {
        if j > 0 { assert t[j - 1] in t; }
      }
    }
  }

  /** `trim` keeps a contiguous piece of its argument. */
  lemma TrimSubstring(s: string)
    ensures forall c :: c in Trim(s) ==> c in s
  {
    var t := TrimStart(s);
    forall c | c in Trim(s) ensures c in s {
      var j :| 0 <= j < |Trim(s)| && Trim(s)[j] == c;
      assert Trim(s)[j] == t[j] == s[|s| - |t| + j];
    }
  }

  /** No string in `ts` contains a backslash. */
  predicate BackslashFree(ts: seq<string>)
  {
    forall i | 0 <= i < |ts| :: '\\' !in ts[i]
  }

  lemma {:induction false} RunKeepsBackslashFree(st: ScanState, s: string)
    requires '\\' !in s && '\\' !in st.current
    requires BackslashFree(st.tokens)
    ensures '\\' !in Run(st, s).current
    ensures BackslashFree(Run(st, s).tokens)
    decreases |s|
  {
    if s != [] {
      var init := s[..|s| - 1];
      var c := s[|s| - 1];
      var p := Run(st, init);
      assert forall x :: x in init ==> x in s;
      RunKeepsBackslashFree(st, init);
      assert c in s;
      assert Run(st, s) == Step(p, c);
      if !(c == '"' && !p.afterBackslash) && c == ',' && !p.inQuotes {
        TrimSubstring(p.current);
        assert Step(p, c).tokens == p.tokens + [Trim(p.current)];
      }
    }
  }

  // ---------------------------------------------------------------------
  // Composition lemmas used by the round-trip proof of the codec.

  /** Scanning `a + b` is scanning `a`, then `b`. */
  lemma {:induction false} RunAppend(st: ScanState, a: string, b: string)
    ensures Run(st, a + b) == Run(Run(st, a), b)
    decreases |b|
  {
    if b == [] {
      assert a + b == a;
    } else {
      assert (a + b)[..|a + b| - 1] == a + b[..|b| - 1];
      RunAppend(st, a, b[..|b| - 1]);
    }
  }

  /** Scanning one character is one step. */
  lemma RunOne(st: ScanState, c: char)
    ensures Run(st, [c]) == Step(st, c)
  {
    assert [c][..0] == [];
  }

  /** Characters that are neither quotes nor separating commas are copied verbatim. */
  lemma {:induction false} RunCopies(st: ScanState, t: string)
    requires '"' !in t
    requires st.inQuotes || ',' !in t
    ensures Run(st, t) == st.(current := st.current + t,
                             afterBackslash := if t == [] then st.afterBackslash else t[|t| - 1] == '\\')
    decreases |t|
  {
    if t == [] {
      assert st.current + t == st.current;
    } else {
      var init := t[..|t| - 1];
      assert forall c :: c in init ==> c in t;
      RunCopies(st, init);
      assert t[|t| - 1] in t;
      assert st.current + init + [t[|t| - 1]] == st.current + t;
    }
  }
}
