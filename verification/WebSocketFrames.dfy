// src/transport/websocket_client.cpp: the frames of RFC 6455 the plugin sends
// and receives (sections 5.2 and 5.3). Nothing here but the frame codec.
module SevenBits {
  lemma SevenDenotes(n: nat)
    requires n < 128
    ensures (n as bv7) as nat == n
  {
    match n / 16
    case 0 =>
    case 1 =>
    case 2 =>
    case 3 =>
    case 4 =>
    case 5 =>
    case 6 =>
    case 7 =>
  }
}

module FrameBits {
  /** The second byte: the mask bit and the 7-bit length. */
  function SecondByte(masked: bool, length: bv7): bv8 {
    if masked then 0x80 | (length as bv8) else length as bv8
  }

  predicate MaskBit(b: bv8) {
    b & 0x80 != 0
  }

  function Low7(b: bv8): bv7 {
    (b & 0x7f) as bv7
  }

  lemma SecondByteReadsBack(masked: bool, length: bv7)
    ensures MaskBit(SecondByte(masked, length)) == masked
    ensures Low7(SecondByte(masked, length)) == length
  {}

  /** The first byte: the final bit and the opcode. */
  function FirstByte(final: bool, opcode: bv4): bv8 {
    if final then 0x80 | (opcode as bv8) else opcode as bv8
  }

  predicate FinalBit(b: bv8) {
    b & 0x80 != 0
  }

  function Opcode(b: bv8): bv4 {
    (b & 0x0f) as bv4
  }

  lemma FirstByteReadsBack(final: bool, opcode: bv4)
    ensures FinalBit(FirstByte(final, opcode)) == final
    ensures Opcode(FirstByte(final, opcode)) == opcode
  {}

  function Xor(b: bv8, m: bv8): bv8 {
    b ^ m
  }

  lemma XorUndoes(b: bv8, m: bv8)
    ensures Xor(Xor(b, m), m) == b
  {}
}

module WebSocketFrames {
  import opened OneByte
  import opened WordBytes
  import opened SevenBits
  import opened FrameBits

  const MAX_INBOUND_FRAME_BYTES := 1024 * 1024
  const CHUNK := 16 * 1024

  const TEXT: bv4 := 0x1
  const CLOSE: bv4 := 0x8

  type Mask = m: seq<bv8> | |m| == 4 witness [0, 0, 0, 0]

  /** A frame as the standard has it; `mask` is empty when the frame is not masked. */
  datatype Frame = Frame(final: bool, opcode: bv4, mask: seq<bv8>, payload: seq<bv8>)

  predicate WellFormed(f: Frame) {
    (|f.mask| == 0 || |f.mask| == 4) && |f.payload| < Power256(8)
  }

  // ---------------------------------------------------------------- encoding

  /** A number's `size` bytes, highest first. */
  function BigEndian(n: nat, size: nat): (r: seq<bv8>)
    ensures |r| == size
  {
    if size == 0 then [] else BigEndian(n / 256, size - 1) + [(n % 256) as bv8]
  }

  function Number(bytes: seq<bv8>): nat {
    if bytes == [] then 0 else Number(bytes[..|bytes| - 1]) * 256 + bytes[|bytes| - 1] as nat
  }

  function LengthForm(masked: bool, n: nat): (r: seq<bv8>)
    ensures r != []
  {
    if n <= 125 then [SecondByte(masked, n as bv7)]
    else if n <= 0xFFFF then [SecondByte(masked, 126)] + BigEndian(n, 2)
    else [SecondByte(masked, 127)] + BigEndian(n, 8)
  }

  /** Byte i of the payload meets byte i modulo 4 of the mask. */
  function Masked(mask: seq<bv8>, data: seq<bv8>): (r: seq<bv8>)
    ensures |r| == |data|
  {
    if |mask| == 4 then seq(|data|, i requires 0 <= i < |data| => Xor(data[i], mask[i % 4])) else data
  }

  function Encoded(f: Frame): seq<bv8> {
    [FirstByte(f.final, f.opcode)] + LengthForm(|f.mask| == 4, |f.payload|) + f.mask + Masked(f.mask, f.payload)
  }

  // ---------------------------------------------------------------- decoding

  datatype Length = Cut | Length(n: nat, size: nat)

  /** The length at the head of s, with the number of bytes it takes. */
  function ReadLength(s: seq<bv8>): (r: Length)
    ensures r.Length? ==> 1 <= r.size <= |s|
  {
    if s == [] then Cut
    else
      var low := Low7(s[0]);
      if low == 126 then
        if |s| < 3 then Cut else Length(Number(s[1..3]), 3)
      else if low == 127 then
        if |s| < 9 then Cut else Length(Number(s[1..9]), 9)
      else Length(low as nat, 1)
  }

  datatype Scan = Starved | TooLarge | Found(frame: Frame, size: nat)

  /** The mask, when there is one, and n bytes of data behind a head of `at` bytes. */
  function ReadBody(first: bv8, second: bv8, tail: seq<bv8>, n: nat, at: nat): (r: Scan)
    ensures r.Found? ==> at <= r.size <= at + |tail|
  {
    var m := if MaskBit(second) then 4 else 0;
    if |tail| < m + n then Starved
    else
      var mask := tail[..m];
      Found(Frame(FinalBit(first), Opcode(first), mask, Masked(mask, tail[m..m + n])), at + m + n)
  }

  /** The frame at the head of s. */
  function ReadFrame(s: seq<bv8>): (r: Scan)
    ensures r.Found? ==> 2 <= r.size <= |s|
  {
    if |s| < 2 then Starved
    else match ReadLength(s[1..])
         case Cut => Starved
         case Length(n, size) =>
           if n > MAX_INBOUND_FRAME_BYTES then TooLarge else ReadBody(s[0], s[1], s[1 + size..], n, 1 + size)
  }

  // --------------------------------------------------------------- round trip

  lemma {:induction false} BigEndianDenotes(n: nat, size: nat)
    requires n < Power256(size)
    ensures Number(BigEndian(n, size)) == n
  {
    if size > 0 {
      BigEndianDenotes(n / 256, size - 1);
      ByteDenotes(n % 256);
      var r := BigEndian(n, size);
      assert r[..size - 1] == BigEndian(n / 256, size - 1);
    }
  }

  lemma LengthReadsBack(masked: bool, n: nat, rest: seq<bv8>)
    requires n < Power256(8)
    ensures var form := LengthForm(masked, n);
            ReadLength(form + rest) == Length(n, |form|) && MaskBit(form[0]) == masked && (form + rest)[0] == form[0]
  {
    var form := LengthForm(masked, n);
    if n <= 125 {
      SevenDenotes(n);
      SecondByteReadsBack(masked, n as bv7);
      NotExtended(n);
    } else if n <= 0xFFFF {
      WordSizes();
      SecondByteReadsBack(masked, 126);
      BigEndianDenotes(n, 2);
      assert (form + rest)[1..3] == BigEndian(n, 2);
    } else {
      SecondByteReadsBack(masked, 127);
      BigEndianDenotes(n, 8);
      assert (form + rest)[1..9] == BigEndian(n, 8);
    }
  }

  lemma NotExtended(n: nat)
    requires n <= 125
    ensures n as bv7 != 126 && n as bv7 != 127
  {
    SevenDenotes(n);
    assert (126 as bv7) as nat == 126 && (127 as bv7) as nat == 127;
  }

  lemma MaskingUndoes(mask: seq<bv8>, data: seq<bv8>)
    ensures Masked(mask, Masked(mask, data)) == data
  {
    if |mask| == 4 {
      forall i | 0 <= i < |data|
        ensures Masked(mask, Masked(mask, data))[i] == data[i]
      {
        XorUndoes(data[i], mask[i % 4]);
      }
    }
  }

  lemma Layout(first: bv8, form: seq<bv8>, mask: seq<bv8>, data: seq<bv8>, rest: seq<bv8>)
    requires form != []
    ensures var s := [first] + form + mask + data + rest;
            && s[0] == first && s[1] == form[0] && s[1..] == form + (mask + data + rest)
            && s[1 + |form|..] == mask + data + rest
  {}

  lemma HeadReadsBack(f: Frame, rest: seq<bv8>)
    requires WellFormed(f)
    ensures var s, form := Encoded(f) + rest, LengthForm(|f.mask| == 4, |f.payload|);
            && |s| >= 2 && s[0] == FirstByte(f.final, f.opcode) && MaskBit(s[1]) == (|f.mask| == 4)
            && ReadLength(s[1..]) == Length(|f.payload|, |form|)
            && s[1 + |form|..] == f.mask + Masked(f.mask, f.payload) + rest
  {
    var form, data := LengthForm(|f.mask| == 4, |f.payload|), Masked(f.mask, f.payload);
    LengthReadsBack(|f.mask| == 4, |f.payload|, f.mask + data + rest);
    Layout(FirstByte(f.final, f.opcode), form, f.mask, data, rest);
  }

  /** A frame of at most 1 MiB is read back whole, whatever follows it; a longer one is refused. */
  lemma FrameReadsBack(f: Frame, rest: seq<bv8>)
    requires WellFormed(f)
    ensures ReadFrame(Encoded(f) + rest)
            == if |f.payload| <= MAX_INBOUND_FRAME_BYTES then Found(f, |Encoded(f)|) else TooLarge
  {
    HeadReadsBack(f, rest);
    var s, size := Encoded(f) + rest, |LengthForm(|f.mask| == 4, |f.payload|)|;
    FrameBehindItsLength(s, |f.payload|, size);
    BodyReadsBack(s[1], f, rest, 1 + size);
  }

  lemma FrameBehindItsLength(s: seq<bv8>, n: nat, size: nat)
    requires |s| >= 2 && ReadLength(s[1..]) == Length(n, size)
    ensures ReadFrame(s)
            == if n > MAX_INBOUND_FRAME_BYTES then TooLarge else ReadBody(s[0], s[1], s[1 + size..], n, 1 + size)
  {}

  lemma BodyReadsBack(second: bv8, f: Frame, rest: seq<bv8>, at: nat)
    requires WellFormed(f) && MaskBit(second) == (|f.mask| == 4)
    ensures ReadBody(FirstByte(f.final, f.opcode), second, f.mask + Masked(f.mask, f.payload) + rest, |f.payload|, at)
            == Found(f, at + |f.mask| + |f.payload|)
  {
    var data := Masked(f.mask, f.payload);
    var tail := f.mask + data + rest;
    assert tail[..|f.mask|] == f.mask && tail[|f.mask|..|f.mask| + |data|] == data;
    FirstByteReadsBack(f.final, f.opcode);
    MaskingUndoes(f.mask, f.payload);
  }

  // -------------------------------------------------------- the shortest length

  /** No bytes that read as the length n are fewer than the ones sent. */
  lemma LengthFormIsShortest(form: seq<bv8>, masked: bool, n: nat)
    requires ReadLength(form) == Length(n, |form|)
    ensures |LengthForm(masked, n)| <= |form|
  {
    if Low7(form[0]) == 126 {
      WordSizes();
      NumberFits(form[1..3]);
    } else if Low7(form[0]) != 127 {
      SmallLength(Low7(form[0]));
    }
  }

  lemma {:induction false} NumberFits(bytes: seq<bv8>)
    ensures Number(bytes) < Power256(|bytes|)
  {
    if bytes != [] {
      NumberFits(bytes[..|bytes| - 1]);
    }
  }

  lemma SmallLength(low: bv7)
    requires low != 126 && low != 127
    ensures low as nat <= 125
  {
    assert (126 as bv7) as nat == 126 && (127 as bv7) as nat == 127;
    assert low as nat == 126 ==> low == 126;
    assert low as nat == 127 ==> low == 127;
  }
}
