/**
 * The key dispatch of the quiz keyboard hook (`useKeyboardNavigation`):
 * which handler one `keydown` event invokes. Key names are JavaScript
 * strings, so they are modelled as sequences of UTF-16 code units, compared
 * the way JavaScript's `<` and `<=` compare strings.
 */
module KeyboardNavigation {
  import opened Wrappers
  import opened JsText

  newtype CodeUnit = x: int | 0 <= x < 0x1_0000

  /** A JavaScript string. */
  type Key = seq<CodeUnit>

  /** The code units of a string literal made of characters below U+10000. */
  function Units(s: string): (k: Key)
    ensures |k| == |s|
  {
    seq(|s|, i requires 0 <= i < |s| => ((s[i] as int) % 0x1_0000) as CodeUnit)
  }

  const ArrowRight: Key := Units("ArrowRight")
  const ArrowLeft: Key := Units("ArrowLeft")
  const ArrowDown: Key := Units("ArrowDown")
  const ArrowUp: Key := Units("ArrowUp")
  const InputTag: Key := Units("INPUT")
  const TextareaTag: Key := Units("TEXTAREA")

  /** The element an event is aimed at: its `tagName` and `isContentEditable`. */
  datatype Target = Target(tagName: Key, isContentEditable: bool)

  /** The handlers the hook is given. */
  datatype Handler = OnAnswerSelect(answer: Key) | OnNext | OnPrevious | OnScrollDown | OnScrollUp

  /** `a < b` on strings: the first differing code unit decides, and a proper prefix is smaller. */
  predicate LexLess(a: Key, b: Key)
    decreases |a|
  {
    b != [] && (a == [] || a[0] < b[0] || (a[0] == b[0] && LexLess(a[1..], b[1..])))
  }

  /** `a <= b` on strings. */
  predicate LexAtMost(a: Key, b: Key)
  {
    a == b || LexLess(a, b)
  }

  /** `toUpperCase` on the ASCII letters. */
  function UpperUnit(u: CodeUnit): CodeUnit
  {
    if 97 <= u <= 122 then u - 32 else u
  }

  /** `s.toUpperCase()`, code unit by code unit. */
  function ToUpperCase(s: Key): (r: Key)
    ensures |r| == |s| && forall i | 0 <= i < |s| :: r[i] == UpperUnit(s[i])
  {
    seq(|s|, i requires 0 <= i < |s| => UpperUnit(s[i]))
  }

  predicate IsDigitUnit(u: CodeUnit)
  {
    48 <= u <= 57
  }

  /** The length of the run of decimal digits at the start of `s`. */
  function DigitRun(s: Key): (n: nat)
    ensures n <= |s| && forall i | 0 <= i < n :: IsDigitUnit(s[i])
    ensures n < |s| ==> !IsDigitUnit(s[n])
    decreases |s|
  {
    if s != [] && IsDigitUnit(s[0]) then 1 + DigitRun(s[1..]) else 0
  }

  /** The value of the digits `s[..n]`. */
  function DigitsAt(s: Key, n: nat): nat
    requires n <= |s| && forall i | 0 <= i < n :: IsDigitUnit(s[i])
  {
    if n == 0 then 0 else
      assert IsDigitUnit(s[n - 1]);
      DigitsAt(s, n - 1) * 10 + (s[n - 1] as int - 48)
  }

  /** `parseInt(s)` for a string that starts with a digit: the value of its leading digits. */
  function ParseLeadingInt(s: Key): nat
  {
    DigitsAt(s, DigitRun(s))
  }

  /** `String.fromCharCode(n)`: the code unit `n` modulo 2^16. */
  function FromCharCode(n: int): Key
  {
    [(n % 0x1_0000) as CodeUnit]
  }

  /** The target is a text field or editable content, where keys are typing. */
  predicate IsEditable(t: Target)
  {
    t.tagName == InputTag || t.tagName == TextareaTag || t.isContentEditable
  }

  /** `key >= '1' && key <= '4'`. */
  predicate InDigitRange(key: Key)
  {
    LexAtMost(Units("1"), key) && LexAtMost(key, Units("4"))
  }

  /** `key >= 'A' && key <= 'D'`. */
  predicate InLetterRange(key: Key)
  {
    LexAtMost(Units("A"), key) && LexAtMost(key, Units("D"))
  }

  /** The handler `handleKeyDown` invokes for a key, if any; `enabled` false means no listener is attached. */
  function Dispatch(enabled: bool, target: Target, eventKey: Key): Option<Handler>
  {
    if !enabled then None
    else if IsEditable(target) then None
    else
      var key := ToUpperCase(eventKey);
      if InDigitRange(key) then Some(OnAnswerSelect(FromCharCode(65 + (ParseLeadingInt(key) - 1))))
      else if InLetterRange(key) then Some(OnAnswerSelect(key))
      else NavigationHandler(eventKey)
  }

  /** The arrow-key tests on the key as typed, in the order they are made. */
  function NavigationHandler(eventKey: Key): Option<Handler>
  {
    if eventKey == ArrowRight then Some(OnNext)
    else if eventKey == ArrowLeft then Some(OnPrevious)
    else if eventKey == ArrowDown then Some(OnScrollDown)
    else if eventKey == ArrowUp then Some(OnScrollUp)
    else None
  }

  /** The dispatch with the one-character guard on the letter test, as the quiz screen's own key handler has it. */
  function DispatchGuarded(enabled: bool, target: Target, eventKey: Key): Option<Handler>
  {
    if !enabled then None
    else if IsEditable(target) then None
    else
      var key := ToUpperCase(eventKey);
      if InDigitRange(key) then Some(OnAnswerSelect(FromCharCode(65 + (ParseLeadingInt(key) - 1))))
      else if |key| == 1 && InLetterRange(key) then Some(OnAnswerSelect(key))
      else NavigationHandler(eventKey)
  }

  // ---------------------------------------------------------------------
  // String order

  /** A string is at least the one-unit string `[lo]` exactly when it starts with `lo` or a larger unit. */
  lemma AtLeastUnit(lo: CodeUnit, s: Key)
    ensures LexAtMost([lo], s) <==> s != [] && lo <= s[0]
  {
    assert [lo][1..] == [];
    if s != [] && lo == s[0] && s != [lo] {
      assert |s| > 1 && s[1..] != [];
      assert LexLess([lo], s);
    }
  }

  /** A string is at most the one-unit string `[hi]` exactly when it is empty, starts with a smaller unit, or is `[hi]`. */
  lemma AtMostUnit(hi: CodeUnit, s: Key)
    ensures LexAtMost(s, [hi]) <==> s == [] || s[0] < hi || s == [hi]
  {
    assert [hi][1..] == [];
    if s != [] {
      assert !LexLess(s[1..], []);
    }
  }

  /** A string lies between the one-unit strings `[lo]` and `[hi]` exactly when it starts with a unit from `lo` up to `hi`, and is `[hi]` itself if it starts with `hi`. */
  lemma UnitRange(lo: CodeUnit, hi: CodeUnit, s: Key)
    ensures LexAtMost([lo], s) && LexAtMost(s, [hi]) <==>
      s != [] && lo <= s[0] && (s[0] < hi || s == [hi])
  {
    AtLeastUnit(lo, s);
    AtMostUnit(hi, s);
  }

  lemma DigitRangeIff(key: Key)
    ensures InDigitRange(key) <==> key != [] && 49 <= key[0] && (key[0] < 52 || key == [52])
  {
    assert Units("1") == [49];
    assert Units("4") == [52];
    UnitRange(49, 52, key);
  }

  lemma LetterRangeIff(key: Key)
    ensures InLetterRange(key) <==> key != [] && 65 <= key[0] && (key[0] < 68 || key == [68])
  {
    assert Units("A") == [65];
    assert Units("D") == [68];
    UnitRange(65, 68, key);
  }

  // ---------------------------------------------------------------------
  // What a key does

  /** With the hook disabled, or while typing in a field, no key invokes a handler. */
  lemma InactiveDoesNothing(enabled: bool, target: Target, key: Key)
    requires !enabled || IsEditable(target)
    ensures Dispatch(enabled, target, key) == None
    ensures DispatchGuarded(enabled, target, key) == None
  {
  }

  /** The digit keys 1 to 4 select the answers A to D. */
  lemma DigitKeySelects(target: Target, d: CodeUnit)
    requires !IsEditable(target) && 49 <= d <= 52
    ensures Dispatch(true, target, [d]) == Some(OnAnswerSelect([d + 16]))
    ensures DispatchGuarded(true, target, [d]) == Some(OnAnswerSelect([d + 16]))
  {
    var key := ToUpperCase([d]);
    assert key == [d];
    DigitRangeIff(key);
    assert DigitRun(key) == 1 by {
      assert key[1..] == [];
    }
    assert DigitsAt(key, 0) == 0;
    assert DigitsAt(key, 1) == 0 * 10 + (key[0] as int - 48);
    assert ParseLeadingInt(key) == d as int - 48;
  }

  /** The letter keys a to d and A to D select the answers A to D. */
  lemma LetterKeySelects(target: Target, c: CodeUnit)
    requires !IsEditable(target) && (65 <= c <= 68 || 97 <= c <= 100)
    ensures Dispatch(true, target, [c]) == Some(OnAnswerSelect([UpperUnit(c)]))
    ensures DispatchGuarded(true, target, [c]) == Some(OnAnswerSelect([UpperUnit(c)]))
  {
    var key := ToUpperCase([c]);
    assert key == [UpperUnit(c)];
    DigitRangeIff(key);
    LetterRangeIff(key);
  }

  /** A one-unit ASCII key other than 1 to 4, A to D and a to d selects no answer and invokes no handler at all. */
  lemma OtherSingleKeyDoesNothing(target: Target, c: CodeUnit)
    requires c < 128 && !(49 <= c <= 52 || 65 <= c <= 68 || 97 <= c <= 100)
    ensures Dispatch(true, target, [c]) == None
    ensures DispatchGuarded(true, target, [c]) == None
  {
    var key := ToUpperCase([c]);
    assert key == [UpperUnit(c)];
    DigitRangeIff(key);
    LetterRangeIff(key);
    assert |ArrowRight| == 10 && |ArrowLeft| == 9 && |ArrowDown| == 9 && |ArrowUp| == 7;
  }

  /** Every arrow key name upper-cases to a string starting with `A` that is longer than one unit. */
  lemma ArrowUppercase(k: Key)
    requires k == ArrowRight || k == ArrowLeft || k == ArrowDown || k == ArrowUp
    ensures var key := ToUpperCase(k); |key| > 1 && key[0] == 65
    ensures !InDigitRange(ToUpperCase(k)) && InLetterRange(ToUpperCase(k))
  {
    assert k[0] == 65;
    DigitRangeIff(ToUpperCase(k));
    LetterRangeIff(ToUpperCase(k));
  }

  /** As written, the arrow keys pass the letter test and are dispatched as answer selections. */
  lemma ArrowKeysSelectAnswers(target: Target, k: Key)
    requires !IsEditable(target)
    requires k == ArrowRight || k == ArrowLeft || k == ArrowDown || k == ArrowUp
    ensures Dispatch(true, target, k) == Some(OnAnswerSelect(ToUpperCase(k)))
  {
    ArrowUppercase(k);
  }

  /** As written, no key ever reaches the navigation handlers. */
  lemma NavigationUnreachable(enabled: bool, target: Target, k: Key)
    ensures Dispatch(enabled, target, k) == None || Dispatch(enabled, target, k).value.OnAnswerSelect?
  {
    if enabled && !IsEditable(target) {
      var key := ToUpperCase(k);
      if !InDigitRange(key) && !InLetterRange(key) && NavigationHandler(k).Some? {
        ArrowUppercase(k);
        assert false;
      }
    }
  }

  /** The four arrow key names are different strings. */
  lemma ArrowNamesDistinct()
    ensures ArrowRight != ArrowLeft && ArrowRight != ArrowDown && ArrowRight != ArrowUp
    ensures ArrowLeft != ArrowDown && ArrowLeft != ArrowUp && ArrowDown != ArrowUp
  {
    assert |ArrowRight| == 10 && |ArrowLeft| == 9 && |ArrowDown| == 9 && |ArrowUp| == 7;
    assert ArrowLeft[5] != ArrowDown[5];
  }

  /** With the guard, each arrow key invokes its own handler, and only that key does. */
  lemma GuardedArrowKeys(target: Target, k: Key)
    requires !IsEditable(target)
    ensures DispatchGuarded(true, target, k) == Some(OnNext) <==> k == ArrowRight
    ensures DispatchGuarded(true, target, k) == Some(OnPrevious) <==> k == ArrowLeft
    ensures DispatchGuarded(true, target, k) == Some(OnScrollDown) <==> k == ArrowDown
    ensures DispatchGuarded(true, target, k) == Some(OnScrollUp) <==> k == ArrowUp
  {
    ArrowNamesDistinct();
    if k == ArrowRight || k == ArrowLeft || k == ArrowDown || k == ArrowUp {
      ArrowUppercase(k);
    }
  }
}
