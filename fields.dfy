/** The field helpers `char`, `string`, `number`, `error` and `date`: called
    without an argument (or with a falsy one) they return their tag string,
    used to declare a schema; otherwise they return the value to store. */
module Fields {
  import opened Wrappers
  import opened Values
  import opened NumericText
  import opened Kinds

  /** What a Date's local-time getters return; `weekday` is `getDay()`,
      `dayOfMonth` is `getDate()`. */
  datatype JsDate = JsDate(
    fullYear: int, month: int, dayOfMonth: int, weekday: int,
    hours: int, minutes: int, seconds: int, milliseconds: int)

  /** `char`: no check at all on a truthy argument. */
  function CharField(arg: Option<Value>): (r: Value)
    ensures r.Truthy()
    ensures Provided(arg) ==> r == arg.value
    ensures !Provided(arg) ==> r == Sentinel(CharTag)
  {
    if Provided(arg) then arg.value else Sentinel(CharTag)
  }

  /** `string`: a truthy argument that is not text is refused. */
  function StringField(arg: Option<Value>): (r: Result<Value, DbError>)
    ensures r.Err? <==> Provided(arg) && !arg.value.Str?
    ensures r.Ok? ==> r.value.Str? && r.value.Truthy()
  {
    if Provided(arg) then
      if arg.value.Str? then Ok(arg.value) else Err(NotAString)
    else Ok(Sentinel(StringTag))
  }

  /** `number`: zero is falsy, so it is indistinguishable from no argument. */
  function NumberField(arg: Option<int>): (r: Value)
    ensures r.Num? <==> arg.Some? && arg.value != 0
    ensures r.Num? ==> r.n == arg.value
  {
    if arg.Some? && arg.value != 0 then Num(arg.value) else Sentinel(NumberTag)
  }

  /** `error`: a truthy argument is passed through unchanged. */
  function ErrorField(arg: Option<Value>): (r: Value)
    ensures r.Truthy()
    ensures Provided(arg) ==> r == arg.value
    ensures !Provided(arg) ==> r == Sentinel(ErrorTag)
  {
    if Provided(arg) then arg.value else Sentinel(ErrorTag)
  }

  /** `date`: a Date (always truthy) becomes a record of seven getters. */
  function DateField(arg: Option<JsDate>): (r: Value)
    ensures r.DateObj? <==> arg.Some?
    ensures arg.Some? ==>
      var d := arg.value;
      && r.date.year == d.fullYear && r.date.month == d.month
      && r.date.day == d.weekday && r.date.hours == d.hours
      && r.date.minutes == d.minutes && r.date.seconds == d.seconds
      && r.date.millisec == d.milliseconds
  {
    match arg
    case None => Sentinel(DateTag)
    case Some(d) =>
      DateObj(DateObject(
        year := d.fullYear, month := d.month, day := d.weekday,
        hours := d.hours, minutes := d.minutes, seconds := d.seconds,
        millisec := d.milliseconds))
  }

  /** Each helper given no argument, or a falsy one, returns its own tag
      string: `char("")`, `string("")` and `number(0)` included. */
  lemma FalsyGivesSentinel(arg: Option<Value>, n: Option<int>)
    requires !Provided(arg)
    requires n.None? || n.value == 0
    ensures CharField(arg) == Sentinel(CharTag)
    ensures StringField(arg) == Ok(Sentinel(StringTag))
    ensures ErrorField(arg) == Sentinel(ErrorTag)
    ensures NumberField(n) == Sentinel(NumberTag)
    ensures DateField(None) == Sentinel(DateTag)
  {
  }

  /** `char` returns any truthy argument unchanged, text or not, while
      `string` throws on a truthy argument that is not text. */
  lemma CharUncheckedStringChecked(v: Value)
    requires v.Truthy()
    ensures CharField(Some(v)) == v
    ensures StringField(Some(v)) == if v.Str? then Ok(v) else Err(NotAString)
  {
  }

  /** A `char(s)` field matches a `char()` declaration only for one
      non-numeric character: `char("")` gives "char", tagged string, and
      `char("5")` is tagged number. */
  lemma CharFieldMatches(s: string)
    ensures Matches(Sentinel(CharTag), CharField(Some(Str(s)))) <==> |s| == 1 && !IsNumericText(s)
  {
    if s == "" {
      SentinelIsString(CharTag);
    }
  }

  /** A `string(s)` field matches a `string()` declaration only when the
      text is not numeric and not one character long; `string("")` gives
      "string", which does match. */
  lemma StringFieldMatches(s: string)
    ensures StringField(Some(Str(s))).Ok?
    ensures Matches(Sentinel(StringTag), StringField(Some(Str(s))).value)
        <==> s == "" || (|s| != 1 && !IsNumericText(s))
  {
    if s == "" {
      SentinelIsString(StringTag);
    }
  }

  /** A `number(n)` field matches a `number()` declaration exactly when n
      is not zero: `number(0)` gives "number", tagged string. */
  lemma NumberFieldMatches(n: int)
    ensures Matches(Sentinel(NumberTag), NumberField(Some(n))) <==> n != 0
  {
    if n == 0 {
      SentinelIsString(NumberTag);
    }
  }

  /** An `error(e)` field matches an `error()` declaration exactly when the
      error's message is not empty. */
  lemma ErrorFieldMatches(m: Option<string>)
    ensures Matches(Sentinel(ErrorTag), ErrorField(Some(Obj(m)))) <==> m.Some? && m.value != ""
  {
  }

  /** A `date(d)` field always matches a `date()` declaration, and `date()`
      itself does not. */
  lemma DateFieldMatches(d: JsDate)
    ensures Matches(Sentinel(DateTag), DateField(Some(d)))
    ensures !Matches(Sentinel(DateTag), DateField(None))
  {
    SentinelIsString(DateTag);
  }
}
