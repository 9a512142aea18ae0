/**
 * Values of the Java language that the modelled classes rely on: a reference
 * that may be null, and the three ways a Java call can complete (a value, a
 * null reference, or an exception that escapes), and runs of copies of one value.
 */
module JavaLang {

  /** A possibly-null reference: `None` stands for Java's `null`. */
  datatype Option<+T> = None | Some(value: T)

  /** The exceptions that can escape the modelled code. */
  datatype JavaException =
    | StringIndexOutOfBounds    // String.substring with a bad index
    | NullPointer               // a null reference used, unboxed or passed to Enum.valueOf
    | IllegalArgument           // Enum.valueOf with an unknown constant name
    | NoTypeConversionAvailable // the type converter behind `property(...)`

  /** How a Java call that returns a reference completes. */
  datatype Completion<+T> =
    | Value(value: T)
    | Null
    | Throws(exception: JavaException)

  /** Java `int`. */
  type Int32 = x: int | -0x8000_0000 <= x < 0x8000_0000

  /** Java `long`. */
  type Int64 = x: int | -0x8000_0000_0000_0000 <= x < 0x8000_0000_0000_0000

  /** `n` copies of `x`, as a padding run or a name listed once per hit. */
  function Repeat<T>(x: T, n: nat): seq<T> {
    seq(n, _ => x)
  }
}
