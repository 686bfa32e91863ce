/**
 * The `ObjectId` constructor of the MongoDB driver, as the routes call it on
 * identifiers taken from the session cookie and from request bodies.
 */
module ObjectIds {

  predicate IsHexDigit(c: char) {
    '0' <= c <= '9' || 'a' <= c <= 'f' || 'A' <= c <= 'F'
  }

  /**
   * `new ObjectId(s)` accepts a string of exactly 24 hexadecimal digits and
   * throws for every other string.
   */
  predicate WellFormedId(s: string) {
    |s| == 24 && forall i :: 0 <= i < |s| ==> IsHexDigit(s[i])
  }
}
