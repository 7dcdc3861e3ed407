/** When `isNaN` is false for a string: ToNumber (ECMA-262 section 7.1.4)
    reads a string with the StringNumericLiteral grammar of section
    7.1.4.1.1 and gives NaN when the text does not fit it. The grammar is
    a regular language; it is written here as a scanner that reads the
    text one character at a time. The numeric value the text denotes is
    not modelled, only whether there is one. */
module NumericText {

  /** StrWhiteSpaceChar: the WhiteSpace and LineTerminator code points. */
  predicate IsStrWhiteSpace(c: char) {
    c == '\t' || c == '\U{B}' || c == '\U{C}' || c == ' ' || c == '\U{A0}'
    || c == '\U{FEFF}' || c == '\n' || c == '\r' || c == '\U{2028}' || c == '\U{2029}'
    || c == '\U{1680}' || ('\U{2000}' <= c <= '\U{200A}') || c == '\U{202F}'
    || c == '\U{205F}' || c == '\U{3000}'
  }

  predicate IsDecimalDigit(c: char) {
    '0' <= c <= '9'
  }

  predicate IsAsciiLetter(c: char) {
    'a' <= c <= 'z' || 'A' <= c <= 'Z'
  }

  predicate AllDigits(s: string) {
    forall i :: 0 <= i < |s| ==> IsDecimalDigit(s[i])
  }

  /** DecimalDigits: one or more decimal digits. */
  predicate IsDigits(s: string) {
    |s| > 0 && AllDigits(s)
  }

  predicate AllWhiteSpace(s: string) {
    forall i :: 0 <= i < |s| ==> IsStrWhiteSpace(s[i])
  }

  datatype Radix = Hex | Octal | Binary

  predicate IsRadixDigit(r: Radix, c: char) {
    match r
    case Hex => IsDecimalDigit(c) || 'a' <= c <= 'f' || 'A' <= c <= 'F'
    case Octal => '0' <= c <= '7'
    case Binary => c == '0' || c == '1'
  }

  /** Where the scanner is in the grammar. */
  datatype ScanState =
    | Lead                      // leading white space only
    | Sign                      // after `+` or `-`
    | Zero                      // a lone unsigned `0`: a radix prefix may follow
    | Whole                     // DecimalDigits
    | Dot                       // `.` with no digit before it
    | Fraction                  // digits and a `.`, digits after it optional
    | Exponent                  // after `e` or `E`
    | ExponentSign              // after the exponent's sign
    | ExponentDigits            // the exponent's digits
    | Infinity(matched: nat)    // a prefix of "Infinity" of that length
    | RadixStart(radix: Radix)  // after `0x`, `0o` or `0b`
    | RadixDigits(radix: Radix) // its digits
    | Trail                     // trailing white space after a literal
    | Fail                      // no way to complete the text

  const InfinityWord: string := "Infinity"

  /** What may follow a decimal digit of the integer part. */
  function AfterDigit(c: char): ScanState {
    if IsDecimalDigit(c) then Whole
    else if c == '.' then Fraction
    else if c == 'e' || c == 'E' then Exponent
    else if IsStrWhiteSpace(c) then Trail
    else Fail
  }

  /** The transition on one character. A failed scan stays failed. */
  function Step(st: ScanState, c: char): (r: ScanState)
    ensures st == Fail ==> r == Fail
  {
    match st
    case Lead =>
      if IsStrWhiteSpace(c) then Lead
      else if c == '+' || c == '-' then Sign
      else if c == '0' then Zero
      else if IsDecimalDigit(c) then Whole
      else if c == '.' then Dot
      else if c == 'I' then Infinity(1)
      else Fail
    case Sign =>
      if IsDecimalDigit(c) then Whole
      else if c == '.' then Dot
      else if c == 'I' then Infinity(1)
      else Fail
    case Zero =>
      if c == 'x' || c == 'X' then RadixStart(Hex)
      else if c == 'o' || c == 'O' then RadixStart(Octal)
      else if c == 'b' || c == 'B' then RadixStart(Binary)
      else AfterDigit(c)
    case Whole => AfterDigit(c)
    case Dot =>
      if IsDecimalDigit(c) then Fraction else Fail
    case Fraction =>
      if IsDecimalDigit(c) then Fraction
      else if c == 'e' || c == 'E' then Exponent
      else if IsStrWhiteSpace(c) then Trail
      else Fail
    case Exponent =>
      if c == '+' || c == '-' then ExponentSign
      else if IsDecimalDigit(c) then ExponentDigits
      else Fail
    case ExponentSign =>
      if IsDecimalDigit(c) then ExponentDigits else Fail
    case ExponentDigits =>
      if IsDecimalDigit(c) then ExponentDigits
      else if IsStrWhiteSpace(c) then Trail
      else Fail
    case Infinity(k) =>
      if k < |InfinityWord| && c == InfinityWord[k] then Infinity(k + 1)
      else if k == |InfinityWord| && IsStrWhiteSpace(c) then Trail
      else Fail
    case RadixStart(r) =>
      if IsRadixDigit(r, c) then RadixDigits(r) else Fail
    case RadixDigits(r) =>
      if IsRadixDigit(r, c) then RadixDigits(r)
      else if IsStrWhiteSpace(c) then Trail
      else Fail
    case Trail =>
      if IsStrWhiteSpace(c) then Trail else Fail
    case Fail => Fail
  }

  /** The states in which the text read so far is a complete
      StringNumericLiteral (white space alone included). */
  predicate Final(st: ScanState) {
    st in {Lead, Zero, Whole, Fraction, ExponentDigits, Trail}
    || (st.Infinity? && st.matched == |InfinityWord|)
    || st.RadixDigits?
  }

  /** The state after reading the whole text. Nothing completes a text
      once the scan has failed. */
  function Run(st: ScanState, s: string): (r: ScanState)
    ensures st == Fail ==> r == Fail
    decreases |s|
  {
    if s == [] then st else Run(Step(st, s[0]), s[1..])
  }

  /** `isNaN(s)` is false. Text that starts with anything but white
      space, a sign, a digit, a `.` or the `I` of "Infinity" is NaN. */
  predicate IsNumericText(s: string)
    ensures |s| > 0 && !IsStrWhiteSpace(s[0]) && s[0] !in "+-.I" && !IsDecimalDigit(s[0])
      ==> !IsNumericText(s)
  {
    Final(Run(Lead, s))
  }

  /** Reading two texts in a row is reading their concatenation. */
  lemma {:induction false} RunConcat(st: ScanState, a: string, b: string)
    ensures Run(st, a + b) == Run(Run(st, a), b)
    decreases |a|
  {
    if a == [] {
      assert a + b == b;
    } else {
      assert (a + b)[0] == a[0] && (a + b)[1..] == a[1..] + b;
      RunConcat(Step(st, a[0]), a[1..], b);
    }
  }

  /** White space keeps the scanner where it is, in `Lead` and in `Trail`. */
  lemma {:induction false} WhiteSpaceRun(st: ScanState, s: string)
    requires st == Lead || st == Trail
    requires AllWhiteSpace(s)
    ensures Run(st, s) == st
  {
    if s != [] {
      assert IsStrWhiteSpace(s[0]);
      WhiteSpaceRun(st, s[1..]);
    }
  }

  /** Digits after a whole number leave it a whole number. */
  lemma {:induction false} DigitsRun(s: string)
    requires AllDigits(s)
    ensures Run(Whole, s) == Whole
  {
    if s != [] {
      assert IsDecimalDigit(s[0]);
      DigitsRun(s[1..]);
    }
  }

  /** Reading digits from the start ends in `Zero` or `Whole`. */
  lemma DigitsFromLead(s: string)
    requires IsDigits(s)
    ensures Run(Lead, s) in {Zero, Whole}
  {
    assert IsDecimalDigit(s[0]);
    var first := Step(Lead, s[0]);
    assert first in {Zero, Whole};
    if |s| > 1 {
      assert IsDecimalDigit(s[1]);
      assert Step(first, s[1]) == Whole;
      assert s[1..][0] == s[1];
      assert AllDigits(s[1..][1..]);
      DigitsRun(s[1..][1..]);
    }
  }

  /** Text made only of white space (the empty text included) reads as 0. */
  lemma BlankIsNumeric(s: string)
    requires AllWhiteSpace(s)
    ensures IsNumericText(s)
  {
    WhiteSpaceRun(Lead, s);
  }

  /** A string of decimal digits is a number. */
  lemma DigitsAreNumeric(s: string)
    requires IsDigits(s)
    ensures IsNumericText(s)
  {
    DigitsFromLead(s);
  }

  /** White space before and after digits is ignored. */
  lemma PaddedDigitsAreNumeric(pre: string, digits: string, post: string)
    requires AllWhiteSpace(pre) && AllWhiteSpace(post)
    requires IsDigits(digits)
    ensures IsNumericText(pre + digits + post)
  {
    RunConcat(Lead, pre + digits, post);
    RunConcat(Lead, pre, digits);
    WhiteSpaceRun(Lead, pre);
    DigitsFromLead(digits);
    WhiteSpaceAfterDigits(Run(Lead, digits), post);
  }

  /** White space after digits completes the literal. */
  lemma WhiteSpaceAfterDigits(st: ScanState, post: string)
    requires st == Zero || st == Whole
    requires AllWhiteSpace(post)
    ensures Final(Run(st, post))
  {
    if post != [] {
      assert IsStrWhiteSpace(post[0]);
      assert AfterDigit(post[0]) == Trail;
      WhiteSpaceRun(Trail, post[1..]);
    }
  }

  /** A word of ASCII letters is NaN, unless it is "Infinity". */
  lemma WordIsNotNumeric(s: string)
    requires |s| > 0 && s != InfinityWord
    requires forall i :: 0 <= i < |s| ==> IsAsciiLetter(s[i])
    ensures !IsNumericText(s)
  {
    if s[0] == 'I' {
      assert Step(Lead, s[0]) == Infinity(1);
      LettersAfterI(1, s[1..]);
    } else {
      assert IsAsciiLetter(s[0]);
      assert Step(Lead, s[0]) == Fail;
    }
  }

  /** Letters after a prefix of "Infinity" complete a number only when
      they are the rest of that word. */
  lemma {:induction false} LettersAfterI(k: nat, s: string)
    requires k <= |InfinityWord|
    requires forall i :: 0 <= i < |s| ==> IsAsciiLetter(s[i])
    ensures Final(Run(Infinity(k), s)) ==> s == InfinityWord[k..]
    decreases |s|
  {
    if s != [] {
      assert IsAsciiLetter(s[0]);
      var next := Step(Infinity(k), s[0]);
      if next != Fail {
        assert k < |InfinityWord| && s[0] == InfinityWord[k] && next == Infinity(k + 1);
        LettersAfterI(k + 1, s[1..]);
        if Final(Run(Infinity(k), s)) {
          assert s == [s[0]] + s[1..];
          assert InfinityWord[k..] == [InfinityWord[k]] + InfinityWord[k + 1..];
        }
      }
    }
  }

  /** "Infinity", signed or not, is a number. */
  lemma InfinityIsNumeric(sign: string)
    requires sign in {"", "+", "-"}
    ensures IsNumericText(sign + InfinityWord)
  {
    RunConcat(Lead, sign, InfinityWord);
    SignRun(sign);
    InfinityFrom(Run(Lead, sign));
  }

  lemma SignRun(sign: string)
    requires sign in {"", "+", "-"}
    ensures Run(Lead, sign) == Lead || Run(Lead, sign) == Sign
  {
    if sign != "" {
      assert Run(Lead, sign) == Run(Sign, sign[1..]);
    }
  }

  lemma InfinityFrom(st: ScanState)
    requires st == Lead || st == Sign
    ensures Run(st, InfinityWord) == Infinity(|InfinityWord|)
  {
    assert Step(st, InfinityWord[0]) == Infinity(1);
    InfinityRun(1);
  }

  lemma {:induction false} InfinityRun(k: nat)
    requires k <= |InfinityWord|
    ensures Run(Infinity(k), InfinityWord[k..]) == Infinity(|InfinityWord|)
    decreases |InfinityWord| - k
  {
    if k < |InfinityWord| {
      var rest := InfinityWord[k..];
      assert rest[0] == InfinityWord[k] && rest[1..] == InfinityWord[k + 1..];
      assert Step(Infinity(k), rest[0]) == Infinity(k + 1);
      InfinityRun(k + 1);
    } else {
      assert InfinityWord[k..] == [];
    }
  }

  /** `0x`, `0o` and `0b` (either case) followed by digits of that radix
      is a number. */
  lemma RadixIsNumeric(prefix: char, r: Radix, digits: string)
    requires r == (if prefix in {'x', 'X'} then Hex else if prefix in {'o', 'O'} then Octal else Binary)
    requires prefix in {'x', 'X', 'o', 'O', 'b', 'B'}
    requires |digits| > 0 && forall i :: 0 <= i < |digits| ==> IsRadixDigit(r, digits[i])
    ensures IsNumericText(['0', prefix] + digits)
  {
    RunConcat(Lead, ['0', prefix], digits);
    assert Run(Lead, ['0', prefix]) == RadixStart(r) by {
      assert ['0', prefix][1..] == [prefix];
      assert Step(Lead, '0') == Zero;
      assert Step(Zero, prefix) == RadixStart(r);
      assert Run(RadixStart(r), [prefix][1..]) == RadixStart(r);
    }
    RadixDigitsRun(r, digits, RadixStart(r));
  }

  lemma {:induction false} RadixDigitsRun(r: Radix, digits: string, st: ScanState)
    requires st == RadixStart(r) || st == RadixDigits(r)
    requires forall i :: 0 <= i < |digits| ==> IsRadixDigit(r, digits[i])
    requires st == RadixStart(r) ==> |digits| > 0
    ensures Run(st, digits) == RadixDigits(r)
  {
    if digits != [] {
      assert IsRadixDigit(r, digits[0]);
      RadixDigitsRun(r, digits[1..], RadixDigits(r));
    }
  }
}
