/** Types shared by the backend services: identifiers and the success/failure
    wrappers that stand for Java's `Optional`, nullable references and the
    exceptions a service method throws. */
module Common {

  /** Database identifiers (`Long` ids generated by the store). */
  type UserId = int
  type ProductId = int
  type OrderId = int

  /** Java/JavaScript strings. */
  type String = seq<char>

  /** `Optional<T>`, or a reference that may be null. */
  datatype Option<+T> = None | Some(value: T)

  /** The value a method returns, or the exception it throws. */
  datatype Result<+T, +E> = Success(value: T) | Failure(error: E)

  /** The outcome of a `void` method: it returns normally or throws. */
  datatype Outcome<+E> = Pass | Fail(error: E)

  /** `Character.isWhitespace`: the ASCII controls it accepts plus the Unicode
      space, line and paragraph separators other than the no-break spaces. */
  predicate IsWhitespace(c: char) {
    var k := c as int;
    || (0x09 <= k <= 0x0D) || (0x1C <= k <= 0x20)
    || k == 0x1680 || (0x2000 <= k <= 0x200A && k != 0x2007)
    || k == 0x2028 || k == 0x2029 || k == 0x205F || k == 0x3000
  }

  /** A string holding at least one non-whitespace character (what
      `StringUtils.hasText` asks of a present string). */
  predicate HasNonWhitespace(s: String) {
    exists i :: 0 <= i < |s| && !IsWhitespace(s[i])
  }
}
