/**
 The blank test of request validation, seen from the text's characters: UTF-8 text is blank exactly if
 each of its characters has the Unicode property White_Space.
 */
module Blank {
  import opened Common

  type CodePoint = c: int | 0 <= c < 0x11_0000

  /** The UTF-8 encoding of a character. */
  function Utf8(c: CodePoint): (b: Text)
    ensures 1 <= |b| <= 4
  {
    if c < 0x80 then [c]
    else if c < 0x800 then [0xC0 + c / 0x40, 0x80 + c % 0x40]
    else if c < 0x1_0000 then [0xE0 + c / 0x1000, 0x80 + c / 0x40 % 0x40, 0x80 + c % 0x40]
    else [0xF0 + c / 0x4_0000, 0x80 + c / 0x1000 % 0x40, 0x80 + c / 0x40 % 0x40, 0x80 + c % 0x40]
  }

  function Encode(s: seq<CodePoint>): Text {
    if s == [] then [] else Utf8(s[0]) + Encode(s[1..])
  }

  predicate WhiteSpace(c: CodePoint) {
    || 0x9 <= c <= 0xD
    || 0x2000 <= c <= 0x200A
    || c in {0x20, 0x85, 0xA0, 0x1680, 0x2028, 0x2029, 0x202F, 0x205F, 0x3000}
  }

  lemma LeadingSpaceIsWhite(c: CodePoint, rest: Text)
    ensures LeadingSpace(Utf8(c) + rest) == if WhiteSpace(c) then |Utf8(c)| else 0
  {
    var s := Utf8(c) + rest;
    assert s[0] == Utf8(c)[0];
    if 0x80 <= c {
      assert s[1] == Utf8(c)[1];
    }
    if 0x800 <= c {
      assert s[2] == Utf8(c)[2];
    }
    var x: int := s[0];
    var y: int := if 0x80 <= c then s[1] else 0;
    var z: int := if 0x800 <= c then s[2] else 0;
    assert 0x800 <= c < 0x1_0000 ==> c == 0x1000 * (x - 0xE0) + 0x40 * (y - 0x80) + (z - 0x80);
    assert 0x80 <= c < 0x800 ==> c == 0x40 * (x - 0xC0) + (y - 0x80);
  }

  /** `trim().is_empty()`: nothing but white space, in any mix and number. */
  lemma {:induction false} BlankIffAllWhite(s: seq<CodePoint>)
    ensures IsBlank(Encode(s)) <==> forall i :: 0 <= i < |s| ==> WhiteSpace(s[i])
  {
    if s != [] {
      var rest := Encode(s[1..]);
      BlankIffAllWhite(s[1..]);
      LeadingSpaceIsWhite(s[0], rest);
      assert (Utf8(s[0]) + rest)[|Utf8(s[0])|..] == rest;
      assert forall i :: 0 <= i < |s[1..]| ==> s[1..][i] == s[i + 1];
      if WhiteSpace(s[0]) && forall i :: 0 <= i < |s[1..]| ==> WhiteSpace(s[1..][i]) {
        forall i | 0 <= i < |s| ensures WhiteSpace(s[i]) {
          assert i > 0 ==> s[i] == s[1..][i - 1];
        }
      }
    }
  }
}
