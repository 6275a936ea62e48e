// The bytes of a frame one by one, as sections 5.2 and 5.3 of RFC 6455 number
// them: what is sent, and what is read from any bytes.
module FrameLayout {
  import opened WordBytes
  import opened FrameBits
  import opened WebSocketFrames
  import opened WebSocketClient

  /** The length n in the last seven bits of the second byte, or behind it. */
  predicate LengthIsAt(s: seq<bv8>, n: nat, head: nat) {
    && 2 <= head <= |s|
    && (if s[1] & 0x7f == 126 then head == 4 && n == 256 * s[2] as nat + s[3] as nat
        else if s[1] & 0x7f == 127 then head == 10 && n == Eight(s)
        else head == 2 && n == (s[1] & 0x7f) as nat)
  }

  /** Eight bytes behind the second, the highest first. */
  function Eight(s: seq<bv8>): nat
    requires |s| >= 10
  {
    Then(Then(Then(Then(Then(Then(Then(s[2] as nat, s[3]), s[4]), s[5]), s[6]), s[7]), s[8]), s[9])
  }

  function Then(high: nat, low: bv8): nat {
    256 * high + low as nat
  }

  /** Each byte of the payload met by the one of the mask at its place modulo four. */
  predicate Meets(data: seq<bv8>, mask: seq<bv8>, payload: seq<bv8>) {
    |data| == |payload| && forall i :: 0 <= i < |payload| ==>
      data[i] == if |mask| == 4 then payload[i] ^ mask[i % 4] else payload[i]
  }

  /** The final bit, the opcode and the mask bit. */
  predicate BitsAre(first: bv8, second: bv8, f: Frame) {
    && first & 0x80 == (if f.final then 0x80 else 0) && first & 0x0f == f.opcode as bv8
    && second & 0x80 == (if |f.mask| == 4 then 0x80 else 0) && |f.mask| in {0, 4}
  }

  /** The mask, and behind it the payload. */
  predicate BodyIs(s: seq<bv8>, f: Frame, head: nat) {
    && head + |f.mask| + |f.payload| <= |s|
    && s[head..head + |f.mask|] == f.mask
    && Meets(s[head + |f.mask|..head + |f.mask| + |f.payload|], f.mask, f.payload)
  }

  /** The first bytes of s are the frame, behind a head of so many. */
  predicate LaidOut(s: seq<bv8>, f: Frame, head: nat) {
    LengthIsAt(s, |f.payload|, head) && BitsAre(s[0], s[1], f) && BodyIs(s, f, head)
  }

  lemma NumberMore(bytes: seq<bv8>, low: bv8)
    ensures Number(bytes + [low]) == Then(Number(bytes), low)
  {
    assert (bytes + [low])[..|bytes|] == bytes;
  }

  lemma NumberOfTwo(s: seq<bv8>)
    requires |s| >= 4
    ensures Number(s[2..4]) == Then(s[2] as nat, s[3])
  {
    NumberMore([], s[2]);
    NumberMore([s[2]], s[3]);
    assert [] + [s[2]] == [s[2]] && s[2..4] == [s[2]] + [s[3]];
  }

  lemma NumberUpTo(s: seq<bv8>, n: nat)
    requires 3 <= n < |s|
    ensures Number(s[2..n + 1]) == Then(Number(s[2..n]), s[n])
  {
    assert s[2..n + 1] == s[2..n] + [s[n]];
    NumberMore(s[2..n], s[n]);
  }

  lemma NumberOfFour(s: seq<bv8>)
    requires |s| >= 10
    ensures Number(s[2..6]) == Then(Then(Then(s[2] as nat, s[3]), s[4]), s[5])
  {
    NumberOfTwo(s);
    NumberUpTo(s, 4);
    NumberUpTo(s, 5);
  }

  lemma NumberOfEight(s: seq<bv8>)
    requires |s| >= 10
    ensures Number(s[2..10]) == Eight(s)
  {
    NumberOfFour(s);
    NumberUpTo(s, 6);
    NumberUpTo(s, 7);
    NumberUpTo(s, 8);
    NumberUpTo(s, 9);
  }

  lemma LowBits(b: bv8)
    ensures Low7(b) == 126 <==> b & 0x7f == 126
    ensures Low7(b) == 127 <==> b & 0x7f == 127
    ensures Low7(b) as nat == (b & 0x7f) as nat
  {}

  lemma LengthIsRead(s: seq<bv8>)
    requires |s| >= 2
    ensures match ReadLength(s[1..])
            case Cut => forall n, head :: !LengthIsAt(s, n, head)
            case Length(n, size) => LengthIsAt(s, n, 1 + size)
  {
    LowBits(s[1]);
    if |s| >= 4 {
      NumberOfTwo(s);
      assert s[1..][1..3] == s[2..4];
    }
    if |s| >= 10 {
      NumberOfEight(s);
      assert s[1..][1..9] == s[2..10];
    }
  }

  lemma MaskingMeets(mask: seq<bv8>, data: seq<bv8>)
    ensures Meets(data, mask, Masked(mask, data)) && Meets(Masked(mask, data), mask, data)
  {
    if |mask| == 4 {
      forall i | 0 <= i < |data|
        ensures data[i] == Masked(mask, data)[i] ^ mask[i % 4] && Masked(mask, data)[i] == data[i] ^ mask[i % 4]
      {
        XorUndoes(data[i], mask[i % 4]);
      }
    }
  }

  lemma TopBits(b: bv8)
    ensures b & 0x80 == (if FinalBit(b) then 0x80 else 0) && b & 0x80 == (if MaskBit(b) then 0x80 else 0)
    ensures b & 0x0f == Opcode(b) as bv8
  {}

  /** What is read from any bytes is what they hold; they are refused for their length
      alone, and bytes are missing only when no frame is there. */
  lemma WhatIsReadIsThere(s: seq<bv8>) returns (head: nat)
    ensures match ReadFrame(s)
            case Found(f, size) =>
              LaidOut(s, f, head) && size == head + |f.mask| + |f.payload| && |f.payload| <= 0x10_0000
            case TooLarge => exists n :: LengthIsAt(s, n, head) && n > 0x10_0000
            case Starved => forall f: Frame, at: nat :: |f.payload| <= 0x10_0000 ==> !LaidOut(s, f, at)
  {
    head := 0;
    if |s| >= 2 {
      LengthIsRead(s);
      var length := ReadLength(s[1..]);
      if length.Length? {
        head := 1 + length.size;
        BodyIsThere(s, length.n, head);
      }
    }
  }

  lemma BodyIsThere(s: seq<bv8>, n: nat, head: nat)
    requires LengthIsAt(s, n, head)
    ensures match ReadBody(s[0], s[1], s[head..], n, head)
            case Found(f, size) => LaidOut(s, f, head) && |f.payload| == n && size == head + |f.mask| + n
            case _ => forall f: Frame, at: nat :: !LaidOut(s, f, at)
  {
    TopBits(s[1]);
    var m := if MaskBit(s[1]) then 4 else 0;
    if |s| < head + m + n {
      TooShort(s, n, head);
    } else {
      WholeIsThere(s, n, head, m);
      WholeIsRead(s, n, head, m);
    }
  }

  /** The frame in bytes that suffice for it. */
  function FrameIn(s: seq<bv8>, n: nat, head: nat, m: nat): Frame
    requires 2 <= head && head + m + n <= |s|
  {
    var mask := s[head..head + m];
    Frame(FinalBit(s[0]), Opcode(s[0]), mask, Masked(mask, s[head + m..head + m + n]))
  }

  lemma WholeIsRead(s: seq<bv8>, n: nat, head: nat, m: nat)
    requires 2 <= head && head + m + n <= |s| && m == if MaskBit(s[1]) then 4 else 0
    ensures ReadBody(s[0], s[1], s[head..], n, head) == Found(FrameIn(s, n, head, m), head + m + n)
  {
    MaskAndData(s, head, m, n);
  }

  lemma WholeIsThere(s: seq<bv8>, n: nat, head: nat, m: nat)
    requires LengthIsAt(s, n, head) && head + m + n <= |s| && m == if MaskBit(s[1]) then 4 else 0
    ensures LaidOut(s, FrameIn(s, n, head, m), head) && |FrameIn(s, n, head, m).mask| == m
    ensures |FrameIn(s, n, head, m).payload| == n
  {
    var data := s[head + m..head + m + n];
    MaskingMeets(s[head..head + m], data);
    BodyIsHere(s, head, FrameIn(s, n, head, m), m, n, data);
    BitsAreRead(s[0], s[1], FrameIn(s, n, head, m));
    Together(s, FrameIn(s, n, head, m), n, head);
  }

  lemma Together(s: seq<bv8>, f: Frame, n: nat, head: nat)
    requires LengthIsAt(s, n, head) && n == |f.payload| && BitsAre(s[0], s[1], f) && BodyIs(s, f, head)
    ensures LaidOut(s, f, head)
  {}

  lemma BodyIsHere(s: seq<bv8>, head: nat, f: Frame, m: nat, n: nat, data: seq<bv8>)
    requires head + m + n <= |s| && m == |f.mask| && n == |f.payload| && f.mask == s[head..head + m]
    requires data == s[head + m..head + m + n] && Meets(data, f.mask, f.payload)
    ensures BodyIs(s, f, head)
  {}

  lemma BitsAreRead(first: bv8, second: bv8, f: Frame)
    requires f.final == FinalBit(first) && f.opcode == Opcode(first) && |f.mask| == if MaskBit(second) then 4 else 0
    ensures BitsAre(first, second, f)
  {
    TopBits(first);
    TopBits(second);
  }

  lemma MaskAndData(s: seq<bv8>, head: nat, m: nat, n: nat)
    requires head + m + n <= |s|
    ensures s[head..][..m] == s[head..head + m] && s[head..][m..m + n] == s[head + m..head + m + n]
  {}

  lemma TooShort(s: seq<bv8>, n: nat, head: nat)
    requires LengthIsAt(s, n, head) && |s| < head + n + if s[1] & 0x80 == 0x80 then 4 else 0
    ensures forall f: Frame, at: nat :: !LaidOut(s, f, at)
  {}

  /** What is sent is laid out so: no reserved bit, the shortest head, the mask, the payload. */
  lemma WhatIsSentIsLaidOut(f: Frame) returns (head: nat)
    requires WellFormed(f)
    ensures head == if |f.payload| <= 125 then 2 else if |f.payload| <= 65535 then 4 else 10
    ensures var s := Encoded(f);
            LaidOut(s, f, head) && |s| == head + |f.mask| + |f.payload| && s[0] & 0x70 == 0
  {
    var s, data := Encoded(f), Masked(f.mask, f.payload);
    head := SentHead(f);
    SentBits(f);
    Behind(s, head, f.mask, data);
    SentBody(s, f, head, data);
    Together(s, f, |f.payload|, head);
  }

  lemma SentHead(f: Frame) returns (head: nat)
    requires WellFormed(f)
    ensures head == if |f.payload| <= 125 then 2 else if |f.payload| <= 65535 then 4 else 10
    ensures var s := Encoded(f); LengthIsAt(s, |f.payload|, head) && s[head..] == f.mask + Masked(f.mask, f.payload)
  {
    HeadReadsBack(f, []);
    var s, form := Encoded(f), LengthForm(|f.mask| == 4, |f.payload|);
    assert s + [] == s && f.mask + Masked(f.mask, f.payload) + [] == f.mask + Masked(f.mask, f.payload);
    LengthIsRead(s);
    head := 1 + |form|;
  }

  lemma SentBits(f: Frame)
    requires WellFormed(f)
    ensures var s := Encoded(f); |s| >= 2 && BitsAre(s[0], s[1], f) && s[0] & 0x70 == 0
  {
    HeadReadsBack(f, []);
    assert Encoded(f) + [] == Encoded(f);
    FirstBits(f.final, f.opcode);
    TopBits(Encoded(f)[1]);
  }

  lemma SentBody(s: seq<bv8>, f: Frame, head: nat, data: seq<bv8>)
    requires data == Masked(f.mask, f.payload) && |s| == head + |f.mask| + |data|
    requires s[head..head + |f.mask|] == f.mask && s[head + |f.mask|..head + |f.mask| + |data|] == data
    ensures BodyIs(s, f, head)
  {
    MaskingMeets(f.mask, f.payload);
  }

  lemma FirstBits(final: bool, opcode: bv4)
    ensures var b := FirstByte(final, opcode);
            b & 0x80 == (if final then 0x80 else 0) && b & 0x0f == opcode as bv8 && b & 0x70 == 0
  {}

  lemma Behind(s: seq<bv8>, head: nat, mask: seq<bv8>, data: seq<bv8>)
    requires head <= |s| && s[head..] == mask + data
    ensures |s| == head + |mask| + |data|
    ensures s[head..head + |mask|] == mask && s[head + |mask|..head + |mask| + |data|] == data
  {
    assert s[head..][..|mask|] == mask && s[head..][|mask|..] == data;
    assert s[head..][..|mask|] == s[head..head + |mask|] && s[head..][|mask|..] == s[head + |mask|..];
  }

  /** A text is sent as one final, masked frame of opcode 1. */
  lemma TextStartsAFrame(mask: Mask, payload: seq<bv8>)
    requires |payload| < Power256(8)
    ensures var s := Encoded(Frame(true, TEXT, mask, payload)); |s| >= 2 && s[0] == 0x81 && s[1] & 0x80 == 0x80
  {
    SentBits(Frame(true, TEXT, mask, payload));
    assert FirstByte(true, TEXT) == 0x81;
  }

  /** What the first frame of a stream comes to, by its opcode: 8 closes, 1 is a text
      when it is final, and any other is passed over. */
  lemma EveryFrameIsReceived(f: Frame, rest: seq<bv8>)
    requires WellFormed(f)
    ensures Receive(Encoded(f) + rest)
            == if |f.payload| > 0x10_0000 then FrameTooLarge
               else if f.opcode == 8 then Closed
               else if f.opcode == 1 then (if f.final then Text(f.payload, rest) else Fragmented)
               else Receive(rest)
  {
    FrameReadsBack(f, rest);
    assert (Encoded(f) + rest)[|Encoded(f)|..] == rest;
  }
}
