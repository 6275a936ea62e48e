// RFC 3629, section 3: the bytes of a code point.
module Utf8 {
  predicate IsCodePoint(code: nat) {
    code < 0xD800 || 0xE000 <= code < 0x110000
  }

  function Encoded(code: nat): (bytes: string)
    requires IsCodePoint(code)
    ensures forall i :: 0 <= i < |bytes| ==> bytes[i] as int < 0x100
    ensures 1 <= |bytes| <= 4 && (|bytes| == 1 <==> code < 0x80)
  {
    if code < 0x80 then [code as char]
    else if code < 0x800 then [(0xC0 + code / 0x40) as char, More(code)]
    else if code < 0x10000 then [(0xE0 + code / 0x1000) as char, More(code / 0x40), More(code)]
    else [(0xF0 + code / 0x4_0000) as char, More(code / 0x1000), More(code / 0x40), More(code)]
  }

  /** A continuation byte: the low six bits. */
  function More(code: nat): char {
    (0x80 + code % 0x40) as char
  }

  function LowBits(c: char): nat {
    c as int % 0x40
  }

  /** The code point that a text starts with, told by its first byte. */
  function First(bytes: string): nat
    requires bytes != ""
  {
    var lead := bytes[0] as int;
    if lead < 0x80 || |bytes| < 2 then lead
    else if lead < 0xE0 || |bytes| < 3 then lead % 0x20 * 0x40 + LowBits(bytes[1])
    else if lead < 0xF0 || |bytes| < 4 then lead % 0x10 * 0x1000 + LowBits(bytes[1]) * 0x40 + LowBits(bytes[2])
    else lead % 8 * 0x4_0000 + LowBits(bytes[1]) * 0x1000 + LowBits(bytes[2]) * 0x40 + LowBits(bytes[3])
  }

  lemma SixBitsAtATime(code: nat)
    ensures code == code / 0x40 * 0x40 + code % 0x40
    ensures code / 0x40 / 0x40 == code / 0x1000 && code / 0x1000 / 0x40 == code / 0x4_0000
    ensures code / 0x40 == code / 0x1000 * 0x40 + code / 0x40 % 0x40
    ensures code / 0x1000 == code / 0x4_0000 * 0x40 + code / 0x1000 % 0x40
  {}

  lemma MoreIsLowBits(code: nat)
    ensures LowBits(More(code)) == code % 0x40
  {}

  lemma TwoReadBack(code: nat, bytes: string)
    requires 0x80 <= code < 0x800 && |bytes| >= 2
    requires bytes[0] as int == 0xC0 + code / 0x40 && LowBits(bytes[1]) == code % 0x40
    ensures First(bytes) == code
  {}

  lemma ThreeReadBack(code: nat, bytes: string)
    requires 0x800 <= code < 0x10000 && |bytes| >= 3 && bytes[0] as int == 0xE0 + code / 0x1000
    requires LowBits(bytes[1]) == code / 0x40 % 0x40 && LowBits(bytes[2]) == code % 0x40
    ensures First(bytes) == code
  {
    SixBitsAtATime(code);
    assert bytes[0] as int % 0x10 == code / 0x1000;
  }

  lemma FourReadBack(code: nat, bytes: string)
    requires 0x10000 <= code < 0x110000 && |bytes| >= 4 && bytes[0] as int == 0xF0 + code / 0x4_0000
    requires LowBits(bytes[1]) == code / 0x1000 % 0x40
    requires LowBits(bytes[2]) == code / 0x40 % 0x40 && LowBits(bytes[3]) == code % 0x40
    ensures First(bytes) == code
  {
    SixBitsAtATime(code);
    assert bytes[0] as int % 8 == code / 0x4_0000;
  }

  /** The bytes tell the code point, whatever follows them. */
  lemma EncodedReadsBack(code: nat, rest: string)
    requires IsCodePoint(code)
    ensures First(Encoded(code) + rest) == code
  {
    var bytes := Encoded(code) + rest;
    MoreIsLowBits(code);
    MoreIsLowBits(code / 0x40);
    MoreIsLowBits(code / 0x1000);
    if code < 0x80 {
      assert bytes[0] == code as char;
    } else if code < 0x800 {
      TwoReadBack(code, bytes);
    } else if code < 0x10000 {
      ThreeReadBack(code, bytes);
    } else {
      FourReadBack(code, bytes);
    }
  }
}
