/**
 * Values shared by every service of the poll system: identifiers in their
 * canonical text form, instants, optional values and HTTP responses.
 */
module Common {

  datatype Option<+T> = None | Some(value: T)

  datatype Result<+T, +E> = Success(value: T) | Failure(error: E)

  /** True of a lower-case hexadecimal digit, as java.util.UUID prints them. */
  predicate IsHexDigit(c: char) {
    '0' <= c <= '9' || 'a' <= c <= 'f'
  }

  /**
   * The canonical text of a UUID (what UUID.toString() returns): 36 characters,
   * dashes at positions 8, 13, 18 and 23, hexadecimal digits everywhere else.
   */
  predicate IsUuidText(s: string) {
    |s| == 36 &&
    forall i :: 0 <= i < |s| ==>
      if i == 8 || i == 13 || i == 18 || i == 23 then s[i] == '-' else IsHexDigit(s[i])
  }

  /** A UUID, identified with its canonical text so that string concatenation uses it directly. */
  type Uuid = s: string | IsUuidText(s)
    witness "00000000-0000-0000-0000-000000000000"

  /** An absolute instant (java.time.Instant), as nanoseconds since the epoch. */
  type Instant = int

  predicate ColonFree(s: string) {
    forall i :: 0 <= i < |s| ==> s[i] != ':'
  }

  /** An HTTP response: status code and a JSON object of string fields. */
  datatype HttpResponse = HttpResponse(status: int, body: map<string, string>)

  /** What a request handler does: return a response body of type T, or throw an exception out of the handler. */
  datatype Reply<+T> = Returned(response: T) | Threw(exception: string)
}
