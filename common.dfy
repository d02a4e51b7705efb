/** Values shared by every part of the model: C#'s nullable references,
    exceptions, and the scalar values a data reader hands out. */
module Common {

  datatype Option<+T> = None | Some(value: T)

  /** A C# `string` reference: `None` stands for `null`. */
  type NString = Option<string>

  /** `String.IsNullOrEmpty`. */
  predicate IsNullOrEmpty(s: NString) {
    s.None? || s.value == ""
  }

  /** C# string concatenation reads a `null` operand as the empty string. */
  function OrEmpty(s: NString): string {
    if s.Some? then s.value else ""
  }

  /** The .NET exceptions the modelled code can raise. */
  datatype Exception =
    | ArgumentException(message: string)
    | ArgumentNullException(paramName: string)
    | ArgumentOutOfRangeException
    | IndexOutOfRangeException
    | NullReferenceException
    | InvalidCastException
    | NotImplementedException

  /** What `Cmdlet.WriteError` hands to the host: the exception, the error
      identifier and the target object (a path or a name here). */
  datatype ErrorRecord = ErrorRecord(exception: Exception, errorId: string, target: NString)

  /** A computation that either returns a value or throws. */
  datatype Result<+T> = Ok(value: T) | Throw(error: Exception) {
    predicate IsFailure() {
      Throw?
    }

    function PropagateFailure<U>(): Result<U>
      requires Throw?
    {
      Throw(error)
    }

    function Extract(): T
      requires Ok?
    {
      value
    }
  }

  /** A C# `long`. */
  type Int64 = x: int | -0x8000_0000_0000_0000 <= x < 0x8000_0000_0000_0000

  /** A `DateTime` carries no behaviour the model needs: only its identity. */
  datatype DateTime = DateTime(ticks: int)

  /** A value as `DbDataReader` returns it, tagged by its runtime type. */
  datatype Value =
    | DBNull
    | VString(str: string)
    | VInt64(long: Int64)
    | VInt32(int32: int)
    | VDecimal(decimal: real)
    | VBool(boolean: bool)
    | VDate(date: DateTime)
    | VBytes(bytes: seq<int>)

  /** `value as string`: the string when the value is one, null otherwise. */
  function AsString(v: Value): NString {
    if v.VString? then Some(v.str) else None
  }

  /** `value as long?`: the number when the value is a boxed `long`, null
      otherwise (a boxed `decimal` or `int` is not a `long`). */
  function AsLong(v: Value): Option<Int64> {
    if v.VInt64? then Some(v.long) else None
  }

  /** `value as DateTime?`. */
  function AsDateTime(v: Value): Option<DateTime> {
    if v.VDate? then Some(v.date) else None
  }

  function Min(a: int, b: int): int {
    if a <= b then a else b
  }
}
