/** The kind classifier `type`: sorts a runtime value into one of the five
    kind tags, and the schema comparison built on it. */
module Kinds {
  import opened Wrappers
  import opened Values
  import opened NumericText

  /** The closed set of kind tags (`ReturnDataScheme`). */
  datatype Tag = StringTag | CharTag | NumberTag | DateTag | ErrorTag
  {
    /** The tag string the helpers return and `type` produces. */
    function Name(): string {
      match this
      case StringTag => "string"
      case CharTag => "char"
      case NumberTag => "number"
      case DateTag => "date"
      case ErrorTag => "error"
    }
  }

  /** The value a helper returns when called without an argument. */
  function Sentinel(t: Tag): Value {
    Str(t.Name())
  }

  /** `isNaN(v)` for a value that is not an object. */
  predicate IsNaN(v: Value)
    requires !v.IsObject()
    ensures v.Num? ==> !IsNaN(v)
    ensures v == Str("") ==> !IsNaN(v)
  {
    match v
    case Str(s) => !IsNumericText(s)
    case Num(_) => false
  }

  /** `variable.message` is truthy. */
  predicate HasTruthyMessage(v: Value) {
    v.Obj? && v.message.Some? && v.message.value != ""
  }

  /** The function `type`: non-objects are numbers unless `isNaN`, then
      one-character text is a char and other text a string; objects are
      errors when their message is truthy, dates otherwise. */
  function TypeOf(v: Value): (t: Tag)
    ensures t in {DateTag, ErrorTag} <==> v.IsObject()
    ensures t == CharTag ==> v.Str? && |v.s| == 1
    ensures t == ErrorTag ==> v.Obj? && v.message.Some?
    ensures v.Num? ==> t == NumberTag
  {
    if !v.IsObject() then
      if IsNaN(v) then
        if v.Str? && |v.s| == 1 then CharTag else StringTag
      else NumberTag
    else if HasTruthyMessage(v) then ErrorTag
    else DateTag
  }

  /** The store's comparison `declared !== type(v)`, negated: the declared
      schema value is exactly the tag string of the value's kind. */
  predicate Matches(declared: Value, v: Value)
    ensures Matches(declared, v) ==> declared.Str? && declared.s in {"string", "char", "number", "date", "error"}
  {
    declared == Sentinel(TypeOf(v))
  }

  /** Text is classified by the numeric test first, then by its length. */
  lemma TextTag(s: string)
    ensures TypeOf(Str(s)) == NumberTag <==> IsNumericText(s)
    ensures TypeOf(Str(s)) == CharTag <==> !IsNumericText(s) && |s| == 1
    ensures TypeOf(Str(s)) == StringTag <==> !IsNumericText(s) && |s| != 1
  {
  }

  /** Integers are always numbers; objects are never numbers, chars or strings. */
  lemma NonTextTag(v: Value)
    ensures v.Num? ==> TypeOf(v) == NumberTag
    ensures v.IsObject() <==> TypeOf(v) in {DateTag, ErrorTag}
  {
  }

  /** An object is an error exactly when its message is truthy; a date
      record has no message and is always a date. */
  lemma ObjectTag(m: Option<string>, d: DateObject)
    ensures TypeOf(Obj(m)) == ErrorTag <==> m.Some? && m.value != ""
    ensures TypeOf(Obj(m)) == DateTag <==> m.None? || m.value == ""
    ensures TypeOf(DateObj(d)) == DateTag
  {
  }

  /** Empty and blank text is tagged number, not string or char. */
  lemma BlankIsNumber(s: string)
    requires AllWhiteSpace(s)
    ensures TypeOf(Str(s)) == NumberTag
  {
    BlankIsNumeric(s);
  }

  /** Digit strings, single digits included, are tagged number. */
  lemma DigitsAreNumber(s: string)
    requires IsDigits(s)
    ensures TypeOf(Str(s)) == NumberTag
  {
    DigitsAreNumeric(s);
  }

  /** The `Char` type admits ASCII letters and digits, but only the letters
      are tagged char: a digit is tagged number. */
  lemma CharAlphabetTag(c: char)
    requires IsAsciiLetter(c) || IsDecimalDigit(c)
    ensures TypeOf(Str([c])) == (if IsDecimalDigit(c) then NumberTag else CharTag)
  {
    if IsDecimalDigit(c) {
      DigitsAreNumber([c]);
    } else {
      WordIsNotNumeric([c]);
    }
  }

  /** Every tag string is itself text of kind string. */
  lemma SentinelIsString(t: Tag)
    ensures TypeOf(Sentinel(t)) == StringTag
  {
    match t
    case StringTag => WordIsString("string");
    case CharTag => WordIsString("char");
    case NumberTag => WordIsString("number");
    case DateTag => WordIsString("date");
    case ErrorTag => WordIsString("error");
  }

  /** Different tags have different tag strings, so a declared tag string
      admits exactly the values of that kind. */
  lemma MatchesSentinel(t: Tag, v: Value)
    ensures Matches(Sentinel(t), v) <==> TypeOf(v) == t
  {
  }

  /** A word of two or more letters other than "Infinity" is a string. */
  lemma WordIsString(s: string)
    requires |s| > 1 && s != InfinityWord
    requires forall i :: 0 <= i < |s| ==> IsAsciiLetter(s[i])
    ensures TypeOf(Str(s)) == StringTag
  {
    WordIsNotNumeric(s);
  }

  /** The numeric test comes before the length test: "5", "" and " "
      are numbers, not a char or a string. */
  lemma NumericExamples()
    ensures TypeOf(Str("5")) == NumberTag
    ensures TypeOf(Str("")) == NumberTag
    ensures TypeOf(Str(" ")) == NumberTag
  {
    DigitsAreNumber("5");
    BlankIsNumber("");
    BlankIsNumber(" ");
  }

  /** White space around a number is ignored. */
  lemma PaddedDigitsExample()
    ensures TypeOf(Str(" 12 ")) == NumberTag
  {
    PaddedDigitsAreNumeric(" ", "12", " ");
    assert " " + "12" + " " == " 12 ";
  }

  /** "Infinity" is a number. */
  lemma InfinityExample()
    ensures TypeOf(Str("Infinity")) == NumberTag
  {
    InfinityIsNumeric("");
    assert "" + InfinityWord == "Infinity";
  }

  /** So is "-Infinity". */
  lemma NegativeInfinityExample()
    ensures TypeOf(Str("-Infinity")) == NumberTag
  {
    InfinityIsNumeric("-");
    assert "-" + InfinityWord == "-Infinity";
  }

  /** Hexadecimal text is a number. */
  lemma HexExample()
    ensures TypeOf(Str("0x1F")) == NumberTag
  {
    RadixIsNumeric('x', Hex, "1F");
    assert ['0', 'x'] + "1F" == "0x1F";
  }

  /** One letter is a char, a longer word a string, and an error whose
      message is empty a date. */
  lemma TextExamples()
    ensures TypeOf(Str("Y")) == CharTag
    ensures TypeOf(Str("HHHH")) == StringTag
    ensures TypeOf(Obj(Some(""))) == DateTag
  {
    CharAlphabetTag('Y');
    WordIsString("HHHH");
  }
}
