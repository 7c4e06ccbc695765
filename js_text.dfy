/**
 * The JavaScript string built-ins the quiz code relies on, written out
 * explicitly: the `\s`, `\w` and `\d` regular-expression classes,
 * `String.prototype.trim`, `split` and `join` on a one-character
 * separator, `startsWith`, and decimal conversion of naturals.
 */
module JsText {

  /** JavaScript WhiteSpace and LineTerminator code points: the `\s` class, and what `trim` removes. */
  predicate IsWhitespace(c: char)
  {
    var n := c as int;
    n == 0x09 || n == 0x0A || n == 0x0B || n == 0x0C || n == 0x0D || n == 0x20 ||
    n == 0xA0 || n == 0x1680 || (0x2000 <= n <= 0x200A) || n == 0x2028 || n == 0x2029 ||
    n == 0x202F || n == 0x205F || n == 0x3000 || n == 0xFEFF
  }

  /** The characters after which `^` matches in a regular expression with the `m` flag. */
  predicate IsLineTerminator(c: char)
  {
    var n := c as int;
    n == 0x0A || n == 0x0D || n == 0x2028 || n == 0x2029
  }

  /** The `\w` class (no `u` flag): ASCII letters, digits and underscore. */
  predicate IsWordChar(c: char)
  {
    ('a' <= c <= 'z') || ('A' <= c <= 'Z') || ('0' <= c <= '9') || c == '_'
  }

  /** The `\d` class. */
  predicate IsDigit(c: char)
  {
    '0' <= c <= '9'
  }

  predicate AllWhitespace(s: string)
  {
    forall i | 0 <= i < |s| :: IsWhitespace(s[i])
  }

  /** `s.trim() === ''`. */
  predicate IsBlank(s: string)
  {
    Trim(s) == []
  }

  /** The number of whitespace characters `s` starts with. */
  function LeadingWhitespace(s: string): (n: nat)
    ensures n <= |s| && (n < |s| ==> !IsWhitespace(s[n]))
    decreases |s|
  {
    if |s| > 0 && IsWhitespace(s[0]) then 1 + LeadingWhitespace(s[1..]) else 0
  }

  /** The number of whitespace characters `s` ends with. */
  function TrailingWhitespace(s: string): (n: nat)
    ensures n <= |s| && (n < |s| ==> !IsWhitespace(s[|s| - 1 - n]))
    decreases |s|
  {
    if |s| > 0 && IsWhitespace(s[|s| - 1]) then 1 + TrailingWhitespace(s[..|s| - 1]) else 0
  }

  /** The leading run counted by `LeadingWhitespace` is all whitespace. */
  lemma {:induction false} LeadingRun(s: string)
    ensures AllWhitespace(s[..LeadingWhitespace(s)])
    decreases |s|
  {
    if |s| > 0 && IsWhitespace(s[0]) {
      var m := LeadingWhitespace(s[1..]);
      LeadingRun(s[1..]);
      assert s[..1 + m] == [s[0]] + s[1..][..m];
    }
  }

  /** The trailing run counted by `TrailingWhitespace` is all whitespace. */
  lemma {:induction false} TrailingRun(s: string)
    ensures AllWhitespace(s[|s| - TrailingWhitespace(s)..])
    decreases |s|
  {
    if |s| > 0 && IsWhitespace(s[|s| - 1]) {
      var init := s[..|s| - 1];
      var m := TrailingWhitespace(init);
      TrailingRun(init);
      assert TrailingWhitespace(s) == 1 + m;
      var tail := s[|s| - (1 + m)..];
      forall i | 0 <= i < |tail| ensures IsWhitespace(tail[i]) {
        if i < m {
          assert tail[i] == init[|init| - m..][i];
        } else {
          assert tail[i] == s[|s| - 1];
        }
      }
    }
  }

  /** Removes the leading whitespace (`trimStart`, and `replace(/^\s+/, '')`). */
  function TrimStart(s: string): (r: string)
    ensures |r| <= |s| && r == s[|s| - |r|..]
    ensures r != [] ==> !IsWhitespace(r[0])
  {
    s[LeadingWhitespace(s)..]
  }

  /** Removes the trailing whitespace (`trimEnd`). */
  function TrimEnd(s: string): (r: string)
    ensures |r| <= |s| && r == s[..|r|]
    ensures r != [] ==> !IsWhitespace(r[|r| - 1])
  {
    s[..|s| - TrailingWhitespace(s)]
  }

  /** What `trimStart` removes is whitespace. */
  lemma TrimStartDrops(s: string)
    ensures AllWhitespace(s[..|s| - |TrimStart(s)|])
  {
    LeadingRun(s);
  }

  /** What `trimEnd` removes is whitespace. */
  lemma TrimEndDrops(s: string)
    ensures AllWhitespace(s[|TrimEnd(s)|..])
  {
    TrailingRun(s);
  }

  /** `String.prototype.trim`. */
  function Trim(s: string): (r: string)
    ensures r != [] ==> !IsWhitespace(r[0]) && !IsWhitespace(r[|r| - 1])
  {
    TrimEnd(TrimStart(s))
  }

  /** A string with no whitespace at either end is its own trim. */
  lemma TrimClean(s: string)
    requires s != [] ==> !IsWhitespace(s[0]) && !IsWhitespace(s[|s| - 1])
    ensures Trim(s) == s
  {
  }

  /** A trimmed string has no leading whitespace left to remove. */
  lemma TrimStartOfTrim(s: string)
    ensures TrimStart(Trim(s)) == Trim(s)
  {
    var t := Trim(s);
    assert LeadingWhitespace(t) == 0;
  }

  /** Trimming what is already trimmed changes nothing. */
  lemma TrimIdempotent(s: string)
    ensures Trim(Trim(s)) == Trim(s)
  {
    TrimClean(Trim(s));
  }

  /** Blank means: whitespace only. */
  lemma BlankIffAllWhitespace(s: string)
    ensures IsBlank(s) <==> AllWhitespace(s)
  {
    var t := TrimStart(s);
    TrimStartDrops(s);
    if t != [] {
      TrimEndDrops(t);
      assert t[0..] == t;
      assert s[|s| - |t|] == t[0];
    } else {
      assert s[..|s|] == s;
    }
  }

  /** Whitespace put in front of a string disappears under `trim`. */
  lemma {:induction false} TrimLeadingWhitespace(w: string, s: string)
    requires AllWhitespace(w)
    ensures TrimStart(w + s) == TrimStart(s)
    decreases |w|
  {
    if w != [] {
      var ws := w + s;
      assert ws[0] == w[0] && IsWhitespace(ws[0]);
      assert ws[1..] == w[1..] + s;
      assert LeadingWhitespace(ws) == 1 + LeadingWhitespace(ws[1..]);
      TrimLeadingWhitespace(w[1..], s);
      assert ws[LeadingWhitespace(ws)..] == ws[1..][LeadingWhitespace(ws[1..])..];
    } else {
      assert w + s == s;
    }
  }

  /** `s.startsWith(p)`. */
  predicate StartsWith(s: string, p: string)
  {
    |p| <= |s| && s[..|p|] == p
  }

  /** A prefix that begins and ends with a character `trim` keeps survives trimming. */
  lemma TrimKeepsCleanPrefix(s: string, p: string)
    requires StartsWith(s, p) && p != []
    requires !IsWhitespace(p[0]) && !IsWhitespace(p[|p| - 1])
    ensures StartsWith(Trim(s), p)
  {
    assert s[0] == p[0] && LeadingWhitespace(s) == 0;
    assert TrimStart(s) == s;
    var r := TrimEnd(s);
    TrimEndDrops(s);
    assert !IsWhitespace(s[|p| - 1]);
    assert forall k | |r| <= k < |s| :: IsWhitespace(s[k]) by {
      forall k | |r| <= k < |s| ensures IsWhitespace(s[k]) {
        assert s[|r|..][k - |r|] == s[k];
      }
    }
    assert |r| >= |p|;
    assert r[..|p|] == s[..|p|];
  }

  /** The position of the first `c` in `s`, for `split`. */
  function IndexOf(s: string, c: char): (k: nat)
    requires c in s
    ensures k < |s| && s[k] == c && c !in s[..k]
  {
    if s[0] == c then 0 else
      assert s == [s[0]] + s[1..];
      var k := 1 + IndexOf(s[1..], c);
      assert s[..k] == [s[0]] + s[1..][..k - 1];
      k
  }

  /** `s.split(sep)` for a one-character separator: always at least one piece. */
  function Split(s: string, sep: char): (r: seq<string>)
    ensures |r| >= 1
    ensures forall i | 0 <= i < |r| :: sep !in r[i]
    decreases |s|
  {
    if sep !in s then [s]
    else
      var k := IndexOf(s, sep);
      [s[..k]] + Split(s[k + 1..], sep)
  }

  /** `parts.join(sep)`. */
  function Join(parts: seq<string>, sep: char): string
  {
    if |parts| == 0 then []
    else if |parts| == 1 then parts[0]
    else parts[0] + [sep] + Join(parts[1..], sep)
  }

  /** `parts.join(sep)` for a separator of any length. */
  function JoinWith(parts: seq<string>, sep: string): string
  {
    if |parts| == 0 then []
    else if |parts| == 1 then parts[0]
    else parts[0] + sep + JoinWith(parts[1..], sep)
  }

  /** Joining pieces that do not contain the separator and splitting again gives the pieces back. */
  lemma {:induction false} SplitJoin(parts: seq<string>, sep: char)
    requires |parts| >= 1
    requires forall i | 0 <= i < |parts| :: sep !in parts[i]
    ensures Split(Join(parts, sep), sep) == parts
    decreases |parts|
  {
    if |parts| == 1 {
    } else {
      var s := Join(parts, sep);
      var p, rest := parts[0], Join(parts[1..], sep);
      assert s == p + [sep] + rest;
      assert s[|p|] == sep && s[..|p|] == p && s[|p| + 1..] == rest;
      var k := IndexOf(s, sep);
      assert forall j | 0 <= j < |p| :: s[j] == p[j];
      assert k == |p|;
      assert Split(s, sep) == [p] + Split(rest, sep);
      SplitJoin(parts[1..], sep);
      assert parts == [p] + parts[1..];
    }
  }

  /** A join begins with its first piece. */
  lemma JoinStartsWithFirst(parts: seq<string>, sep: char)
    requires |parts| >= 1
    ensures StartsWith(Join(parts, sep), parts[0])
  {
    if |parts| > 1 {
      assert Join(parts, sep) == parts[0] + ([sep] + Join(parts[1..], sep));
    }
  }

  /** Joining splits off the last piece as well as the first. */
  lemma {:induction false} JoinSnoc(parts: seq<string>, sep: char)
    requires |parts| >= 2
    ensures Join(parts, sep) == Join(parts[..|parts| - 1], sep) + [sep] + parts[|parts| - 1]
    decreases |parts|
  {
    if |parts| > 2 {
      JoinSnoc(parts[1..], sep);
      assert parts[1..][..|parts| - 2] == parts[..|parts| - 1][1..];
    } else {
      assert parts[..1] == [parts[0]];
    }
  }

  /** The first character of a join of two or more pieces is the first piece's, or the separator after an empty first piece. */
  lemma JoinFirst(parts: seq<string>, sep: char)
    requires |parts| >= 2
    ensures Join(parts, sep) != []
    ensures Join(parts, sep)[0] == if parts[0] == [] then sep else parts[0][0]
  {
    var r := Join(parts, sep);
    assert r == parts[0] + [sep] + Join(parts[1..], sep);
    assert r[|parts[0]|] == sep;
  }

  /** The last character of a join of two or more pieces is the last piece's, or the separator before an empty last piece. */
  lemma JoinLast(parts: seq<string>, sep: char)
    requires |parts| >= 2
    ensures Join(parts, sep) != []
    ensures var r := Join(parts, sep); var last := parts[|parts| - 1];
      r[|r| - 1] == if last == [] then sep else last[|last| - 1]
  {
    JoinSnoc(parts, sep);
    var r := Join(parts, sep);
    var init := Join(parts[..|parts| - 1], sep);
    var last := parts[|parts| - 1];
    assert r == init + [sep] + last;
    assert r[|init|] == sep;
    if last != [] {
      assert r[|r| - 1] == last[|last| - 1];
    }
  }

  /** A join of two or more pieces begins and ends with a character `trim` keeps when its outer pieces do, or are empty next to a separator `trim` keeps. */
  lemma JoinEndsClean(parts: seq<string>, sep: char)
    requires |parts| >= 2
    requires parts[0] == [] ==> !IsWhitespace(sep)
    requires parts[0] != [] ==> !IsWhitespace(parts[0][0])
    requires parts[|parts| - 1] == [] ==> !IsWhitespace(sep)
    requires parts[|parts| - 1] != [] ==> !IsWhitespace(parts[|parts| - 1][|parts[|parts| - 1]| - 1])
    ensures var r := Join(parts, sep); r != [] && !IsWhitespace(r[0]) && !IsWhitespace(r[|r| - 1])
  {
    JoinFirst(parts, sep);
    JoinLast(parts, sep);
  }

  /** The character `sep` never occurs in a join of pieces free of `sep`, other than as separator. */
  lemma {:induction false} JoinFree(parts: seq<string>, sep: char, c: char)
    requires c != sep
    requires forall i | 0 <= i < |parts| :: c !in parts[i]
    ensures c !in Join(parts, sep)
    decreases |parts|
  {
    if |parts| > 1 {
      JoinFree(parts[1..], sep, c);
    }
  }

  /** The decimal digit for `d < 10`. */
  function DigitChar(d: nat): (c: char)
    requires d < 10
    ensures IsDigit(c) && (c as int) - ('0' as int) == d
  {
    ['0', '1', '2', '3', '4', '5', '6', '7', '8', '9'][d]
  }

  /** Decimal rendering of a natural number, as in a template literal `${n}`. */
  function NatToString(n: nat): (s: string)
    ensures |s| >= 1
    ensures forall i | 0 <= i < |s| :: IsDigit(s[i])
    decreases n
  {
    if n < 10 then [DigitChar(n)] else NatToString(n / 10) + [DigitChar(n % 10)]
  }

  /** The value of one decimal digit. */
  function DigitOf(c: char): (d: nat)
    requires IsDigit(c)
    ensures d < 10
  {
    (c as int) - ('0' as int)
  }

  /** The value of a run of decimal digits, as `parseInt` reads it. */
  function DigitsValue(s: string): nat
    requires forall i | 0 <= i < |s| :: IsDigit(s[i])
  {
    if s == [] then 0 else DigitsValue(s[..|s| - 1]) * 10 + DigitOf(s[|s| - 1])
  }

  /** Reading back the decimal rendering of `n` gives `n`. */
  lemma {:induction false} DigitsValueOfNatToString(n: nat)
    ensures DigitsValue(NatToString(n)) == n
    decreases n
  {
    var s := NatToString(n);
    if n >= 10 {
      assert s[..|s| - 1] == NatToString(n / 10);
      DigitsValueOfNatToString(n / 10);
    }
  }
}
