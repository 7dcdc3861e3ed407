/** The JavaScript values the store handles: text, integers, and objects
    (error objects carrying a message and the plain date records built by
    the `date` helper), with the language's truthiness rule. */
module Values {
  import opened Wrappers

  /** The record `date(d)` builds: seven integers read from a Date. */
  datatype DateObject = DateObject(
    year: int, month: int, day: int,
    hours: int, minutes: int, seconds: int, millisec: int)

  /** A runtime value. `Obj` and `DateObj` are the values whose `typeof` is
      "object"; `Obj(None)` is an object without a `message` property. */
  datatype Value =
    | Str(s: string)
    | Num(n: int)
    | Obj(message: Option<string>)
    | DateObj(date: DateObject)
  {
    /** `typeof v === "object"` */
    predicate IsObject() {
      Obj? || DateObj?
    }

    /** JavaScript truthiness: the empty string and zero are falsy, every
        object is truthy. */
    predicate Truthy()
      ensures Truthy() <==> this != Str("") && this != Num(0)
    {
      match this
      case Str(s) => s != ""
      case Num(n) => n != 0
      case Obj(_) => true
      case DateObj(_) => true
    }
  }

  /** A helper argument that is present and truthy (`if (x)` in the helpers). */
  predicate Provided(arg: Option<Value>)
    ensures Provided(arg) <==> arg != None && arg != Some(Str("")) && arg != Some(Num(0))
  {
    arg.Some? && arg.value.Truthy()
  }

  /** The failures of the store. The thrown `DatabaseError` of a schema
      mismatch carries the offending value; reading, parsing, writing and
      removing the backing file fail with the runtime's own errors. */
  datatype DbError =
    | Mismatch(value: Value)
    | NotAString
    | ReadFailed(path: string)
    | ParseFailed
    | WriteFailed(path: string)
    | RemoveFailed(path: string)
}
