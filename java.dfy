/**
 * The few Java notions the data maker relies on: 32-bit `int`, references that may be
 * `null`, `java.util.Date`, `TimeUnit`, and the exceptions the core throws.
 */
module Java {

  /** Java's `int`. */
  newtype int32 = x: int | -0x8000_0000 <= x < 0x8000_0000

  const INT32_MAX: int := 0x7fff_ffff

  /** A Java reference that may be `null`. */
  datatype Nullable<+T> = Null | NonNull(value: T)

  /** A Java `String` reference. */
  type JString = Nullable<string>

  /** `String.valueOf(s)`: the text that string concatenation and `%s` produce for `s`. */
  function Text(s: JString): string
  {
    match s
    case Null => "null"
    case NonNull(v) => v
  }

  /** A `java.util.Date`, an instant in milliseconds since the epoch. */
  datatype Date = Date(epochMillis: int)

  /** The two `java.util.concurrent.TimeUnit` constants the core uses. */
  datatype TimeUnit = Hours | Days

  /** The exceptions the core throws. */
  datatype Exception =
    | IllegalArgument(message: string)  // IllegalArgumentException with its message
    | IllegalFormat                    // any java.util.IllegalFormatException

  /** A call that returns a value or throws. */
  datatype Result<+T> = Ok(value: T) | Err(exception: Exception)

  /** A `void` call that returns normally or throws. */
  datatype Outcome = Pass | Fail(exception: Exception)
}
