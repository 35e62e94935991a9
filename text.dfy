/**
 * Byte strings and the two text operations the sync applies to directory
 * values: decoding a byte string as UTF-8 and Python's `str.lower()` (and
 * `str.upper()` for HTTP method names). All are modelled on the ASCII range:
 * a byte is read as the code point with the same number, which is what UTF-8
 * decoding does for every byte below 128, and case mapping changes only the
 * letters 'A'..'Z' and 'a'..'z'.
 */
module Text {

  // Decode, Lower and Upper are primitives: their contracts describe them
  // character by character, and what the sync relies on is proved from those
  // descriptions (LowerIsLower, Encode, and the FirstOrRaise contracts).

  newtype byte = b: int | 0 <= b < 256

  predicate IsAscii(s: string)
  {
    forall i :: 0 <= i < |s| ==> s[i] as int < 128
  }

  /**
   * `data.decode("utf8")`, exact on ASCII input. A byte of 128 or more is read
   * as the code point with the same number; UTF-8 would instead combine it
   * with its neighbours or raise UnicodeDecodeError.
   */
  function Decode(data: seq<byte>): (s: string)
    ensures |s| == |data|
    ensures forall i :: 0 <= i < |data| ==> s[i] as int == data[i] as int
  {
    seq(|data|, i requires 0 <= i < |data| => data[i] as int as char)
  }

  /** `s.encode("utf8")` on ASCII text: the inverse of Decode. */
  function Encode(s: string): (data: seq<byte>)
    requires IsAscii(s)
    ensures Decode(data) == s
  {
    var data := seq(|s|, i requires 0 <= i < |s| => s[i] as int as byte);
    assert forall i :: 0 <= i < |s| ==> Decode(data)[i] == s[i];
    data
  }

  function LowerChar(c: char): char
  {
    if 'A' <= c <= 'Z' then (c as int + 32) as char else c
  }

  function UpperChar(c: char): char
  {
    if 'a' <= c <= 'z' then (c as int - 32) as char else c
  }

  /** `s.lower()`. */
  function Lower(s: string): (r: string)
    ensures |r| == |s|
    ensures forall i :: 0 <= i < |s| ==> r[i] == LowerChar(s[i])
  {
    seq(|s|, i requires 0 <= i < |s| => LowerChar(s[i]))
  }

  /** `s.upper()`. */
  function Upper(s: string): (r: string)
    ensures |r| == |s|
    ensures forall i :: 0 <= i < |s| ==> r[i] == UpperChar(s[i])
  {
    seq(|s|, i requires 0 <= i < |s| => UpperChar(s[i]))
  }

  /** No upper-case ASCII letter occurs in s. */
  predicate IsLower(s: string)
  {
    forall i :: 0 <= i < |s| ==> !('A' <= s[i] <= 'Z')
  }

  /** The result of Lower has no upper-case letter, and lower-casing it again changes nothing. */
  lemma LowerIsLower(s: string)
    ensures IsLower(Lower(s))
    ensures Lower(Lower(s)) == Lower(s)
  {
  }

  /** Text that is already lower case is its own Lower. */
  lemma LowerOfLower(s: string)
    requires IsLower(s)
    ensures Lower(s) == s
  {
  }
}
