/**
 Types shared by every part of the service: bytes, 128-bit row ids, 64-bit cents, and the
 whitespace test that request validation applies to text.
 */
module Common {

  datatype Option<+T> = None | Some(value: T)

  type byte = x: int | 0 <= x < 0x100

  const ID_LIMIT := 0x1_0000_0000_0000_0000_0000_0000_0000_0000

  /** A UUID, as the 128-bit number its sixteen big-endian bytes spell. */
  type Id = x: int | 0 <= x < ID_LIMIT

  const I64_MAX := 0x7FFF_FFFF_FFFF_FFFF
  const I64_MIN := -0x8000_0000_0000_0000

  /** A 64-bit signed amount: a money value in cents or a quantity. */
  type Cents = x: int | I64_MIN <= x <= I64_MAX

  /** Seconds on the database clock. */
  type Time = nat

  /** UTF-8 text. */
  type Text = seq<byte>

  /** The number of leading bytes of `s` that encode one Unicode White_Space character (0 if none). */
  function LeadingSpace(s: Text): (n: nat)
    ensures n <= |s|
  {
    if |s| >= 1 && (0x09 <= s[0] <= 0x0D || s[0] == 0x20) then 1
    else if |s| >= 2 && s[0] == 0xC2 && s[1] in {0x85, 0xA0} then 2
    else if |s| >= 3 && s[..3] == [0xE1, 0x9A, 0x80] then 3
    else if |s| >= 3 && s[..2] == [0xE2, 0x80] && (0x80 <= s[2] <= 0x8A || s[2] in {0xA8, 0xA9, 0xAF}) then 3
    else if |s| >= 3 && s[..3] == [0xE2, 0x81, 0x9F] then 3
    else if |s| >= 3 && s[..3] == [0xE3, 0x80, 0x80] then 3
    else 0
  }

  /** `s.trim().is_empty()`: the text is nothing but white space. */
  predicate IsBlank(s: Text)
  {
    s == [] || (LeadingSpace(s) > 0 && IsBlank(s[LeadingSpace(s)..]))
  }
}
