// src/navdata/md5.cpp: the fingerprint of a navdata file, proved to be the
// digest of RFC 1321 for every input.
module Md5 {
  import opened Md5Operations
  import opened WordBytes
  import opened Md5Schedule
  import opened Rfc1321

  // md5.cpp chooses between b and c by d in its second quarter: that is G.
  lemma ChoiceIsG(b: bv32, c: bv32, d: bv32)
    ensures F(d, b, c) == G(b, c, d)
  {}

  ghost function Held(state: array<bv32>): State
    requires state.Length == 4
    reads state
  {
    Registers(state[0], state[1], state[2], state[3])
  }

  method ProcessBlock(block: seq<bv8>, state: array<bv32>)
    requires |block| == 64 && state.Length == 4
    modifies state
    ensures Held(state) == Compressed(old(Held(state)), Words(block))
  {
    var m := LoadWords(block);
    ListingIsRegular();
    var a, b, c, d := RunSteps(m[..], state[0], state[1], state[2], state[3], LISTING, Value);
    AddTo(state, a, b, c, d);
  }

  method AddTo(state: array<bv32>, a: bv32, b: bv32, c: bv32, d: bv32)
    requires state.Length == 4
    modifies state
    ensures Held(state) == Sum(old(Held(state)), Registers(a, b, c, d))
  {
    state[0] := Plus(state[0], a);
    state[1] := Plus(state[1], b);
    state[2] := Plus(state[2], c);
    state[3] := Plus(state[3], d);
  }

  method RunSteps(m: seq<bv32>, a0: bv32, b0: bv32, c0: bv32, d0: bv32, ghost ops: seq<Operation>,
                  ghost mixer: Mixer<bv32>)
    returns (a: bv32, b: bv32, c: bv32, d: bv32)
    requires |m| == 16 && Regular(ops) && mixer == Value
    ensures Registers(a, b, c, d) == Performed(ops, Registers(a0, b0, c0, d0), m, mixer)
  {
    a, b, c, d := a0, b0, c0, d0;
    ghost var r := Registers(a, b, c, d);
    var i := 0;
    while i < 64
      invariant i <= 64
      invariant Registers(a, b, c, d) == Playing(i, ops, r, m, mixer)
    {
      StepIsListed(i, ops, r, m, mixer);
      var f, g := MixStep(i, b, c, d);
      var turned := NewValue(i, a, b, c, d, f, m[g]);
      a, b, c, d := d, turned, b, c;
      i := i + 1;
    }
    AllPerformed(i, ops, r, m, mixer);
  }

  /** b + rotl(a + f + K[i] + m[g], S[i]) */
  method NewValue(i: nat, a: bv32, b: bv32, ghost c: bv32, ghost d: bv32, f: bv32, word: bv32) returns (value: bv32)
    requires i < 64 && 0 < SHIFTS[i] < 32 && WordIndex(i) < 16
    requires f == Mix(RoundOf(i), b, c, d)
    ensures value == Value(Computed(i), Registers(a, b, c, d), word)
  {
    value := Turned(a, b, f, TABLE[i], word, SHIFTS[i]);
  }

  method Turned(a: bv32, b: bv32, f: bv32, t: bv32, word: bv32, s: bv32) returns (value: bv32)
    requires 0 < s < 32
    ensures value == Combined(a, b, f, word, t, s)
  {
    var sum := AddUp(a, f, t, word);
    var turned := Rotl(sum, s);
    value := Plus(b, turned);
  }

  // The standard adds the word before the table's entry.
  method AddUp(a: bv32, f: bv32, t: bv32, word: bv32) returns (sum: bv32)
    ensures sum == Added(a, f, word, t)
  {
    sum := a + f + t + word;
  }

  method Rotl(value: bv32, bits: bv32) returns (r: bv32)
    requires 0 < bits < 32
    ensures r == Rotated(value, bits)
  {
    r := (value << bits) | (value >> (32 - bits));
  }

  method MixStep(i: nat, b: bv32, c: bv32, d: bv32) returns (f: bv32, g: nat)
    requires i < 64
    ensures f == Mix(RoundOf(i), b, c, d) && g == WordIndex(i)
  {
    if i < 16 {
      f := F(b, c, d);
      g := i;
    } else if i < 32 {
      f := F(d, b, c);
      ChoiceIsG(b, c, d);
      g := (5 * i + 1) % 16;
    } else if i < 48 {
      f := H(b, c, d);
      g := (3 * i + 5) % 16;
    } else {
      f := I(b, c, d);
      g := (7 * i) % 16;
    }
  }

  method LoadWords(block: seq<bv8>) returns (m: array<bv32>)
    requires |block| == 64
    ensures fresh(m) && m[..] == Words(block)
  {
    m := new bv32[16];
    var i := 0;
    while i < 16
      invariant i <= 16
      invariant forall j :: 0 <= j < i ==> m[j] == Words(block)[j]
    {
      m[i] := Word(block[4 * i], block[4 * i + 1], block[4 * i + 2], block[4 * i + 3]);
      i := i + 1;
    }
  }

  // ------------------------------------------------------------- the digest

  const HEX_DIGITS := "0123456789abcdef"

  function HexOf(b: bv8): string {
    [HEX_DIGITS[((b >> 4) as bv4) as nat], HEX_DIGITS[((b & 0xf) as bv4) as nat]]
  }

  function Hex(bytes: seq<bv8>): string {
    if bytes == [] then "" else Hex(bytes[..|bytes| - 1]) + HexOf(bytes[|bytes| - 1])
  }

  /** What a lower-case hexadecimal digit stands for. */
  function Nibble(c: char): int {
    if '0' <= c <= '9' then c as int - '0' as int
    else if 'a' <= c <= 'f' then c as int - 'a' as int + 10
    else -1
  }

  lemma HalvesOf(b: bv8)
    ensures ((b >> 4) as bv4) as nat == b as nat / 16 && ((b & 0xf) as bv4) as nat == b as nat % 16
  {}

  lemma DigitIsRead(n: nat)
    requires n < 16
    ensures Nibble(HEX_DIGITS[n]) == n
  {}

  lemma ByteReadsBack(b: bv8)
    ensures |HexOf(b)| == 2 && 0 <= Nibble(HexOf(b)[0]) && 0 <= Nibble(HexOf(b)[1])
    ensures 16 * Nibble(HexOf(b)[0]) + Nibble(HexOf(b)[1]) == b as int
  {
    HalvesOf(b);
    DigitIsRead(b as nat / 16);
    DigitIsRead(b as nat % 16);
  }

  /** The text reads back as the bytes: two lower-case digits each, the high half first. */
  lemma {:induction false} HexReadsBack(bytes: seq<bv8>, i: nat)
    requires i < |bytes|
    ensures |Hex(bytes)| == 2 * |bytes|
    ensures 0 <= Nibble(Hex(bytes)[2 * i]) && 0 <= Nibble(Hex(bytes)[2 * i + 1])
    ensures 16 * Nibble(Hex(bytes)[2 * i]) + Nibble(Hex(bytes)[2 * i + 1]) == bytes[i] as int
  {
    var last := |bytes| - 1;
    HexIsTwice(bytes[..last]);
    ByteReadsBack(bytes[last]);
    if i < last {
      HexReadsBack(bytes[..last], i);
    }
  }

  lemma {:induction false} HexIsTwice(bytes: seq<bv8>)
    ensures |Hex(bytes)| == 2 * |bytes|
  {
    if bytes != [] {
      HexIsTwice(bytes[..|bytes| - 1]);
    }
  }

  method Md5Hex(data: seq<bv8>) returns (hex: string)
    ensures hex == Hex(Digest(data))
  {
    var state := new bv32[4];
    state[0], state[1], state[2], state[3] := 0x67452301, 0xefcdab89, 0x98badcfe, 0x10325476;
    FoldFullBlocks(data, state);
    var tail := PadTail(data);
    FoldTail(data, tail, state);
    hex := PrintState(state);
  }

  method FoldFullBlocks(data: seq<bv8>, state: array<bv32>)
    requires state.Length == 4 && Held(state) == INITIAL
    modifies state
    ensures Held(state) == Folded(INITIAL, Full(data))
  {
    var fullBlocks := |data| / 64;
    var i := 0;
    while i < fullBlocks
      invariant i <= fullBlocks
      invariant Held(state) == Folded(INITIAL, data[..64 * i])
    {
      OneMoreBlock(data, i);
      ProcessBlock(data[64 * i..64 * i + 64], state);
      i := i + 1;
    }
  }

  function Full(data: seq<bv8>): seq<bv8> {
    data[..64 * (|data| / 64)]
  }

  function Remaining(data: seq<bv8>): (r: seq<bv8>)
    ensures |r| == |data| % 64
  {
    data[64 * (|data| / 64)..]
  }

  /** The remaining bytes, 0x80, zeros to the end of a block, and the length in bits. */
  function TailOf(data: seq<bv8>): seq<bv8> {
    var rem := |data| % 64;
    Remaining(data) + [0x80] + Zeros((if rem < 56 then 55 else 119) - rem) + LittleEndian(8 * |data| % Power256(8), 8)
  }

  method PadTail(data: seq<bv8>) returns (tail: seq<bv8>)
    ensures tail == TailOf(data) && |tail| == if |data| % 64 < 56 then 64 else 128
  {
    var buffer := new bv8[128](i => 0);
    assert buffer[..] == Zeros(128);
    var rem := |data| % 64;
    CopyInto(buffer, 0, data[64 * (|data| / 64)..]);
    buffer[rem] := 0x80;
    assert buffer[..] == Remaining(data) + [0x80] + Zeros(127 - rem);
    var tailLength := if rem < 56 then 64 else 128;
    WordSizes();
    CopyInto(buffer, tailLength - 8, LittleEndian(8 * |data| % 0x1_0000_0000_0000_0000, 8));
    tail := buffer[..tailLength];
    assert (Remaining(data) + [0x80] + Zeros(127 - rem))[..tailLength - 8]
           == Remaining(data) + [0x80] + Zeros(tailLength - 9 - rem);
  }

  method CopyInto(buffer: array<bv8>, at: nat, bytes: seq<bv8>)
    requires at + |bytes| <= buffer.Length
    modifies buffer
    ensures buffer[..] == old(buffer[..at]) + bytes + old(buffer[at + |bytes|..])
  {
    forall i | 0 <= i < |bytes| {
      buffer[at + i] := bytes[i];
    }
  }

  method FoldTail(data: seq<bv8>, tail: seq<bv8>, state: array<bv32>)
    requires state.Length == 4 && Held(state) == Folded(INITIAL, Full(data))
    requires tail == TailOf(data) && |tail| == if |data| % 64 < 56 then 64 else 128
    modifies state
    ensures Held(state) == Folded(INITIAL, Padded(data))
  {
    TailCompletes(data);
    FoldedConcatenation(INITIAL, Full(data), |data| / 64, tail);
    ghost var before := Held(state);
    ProcessBlock(tail[..64], state);
    if |tail| == 128 {
      OneBlock(Held(state), tail[64..]);
      ProcessBlock(tail[64..], state);
    } else {
      OneBlock(before, tail);
      assert tail[..64] == tail;
    }
  }

  lemma TailCompletes(data: seq<bv8>)
    ensures Full(data) + TailOf(data) == Padded(data)
  {
    var zeros, length := Zeros(ZeroCount(|data|)), LittleEndian(8 * |data|, 8);
    LittleEndianIsLow(8 * |data|, 8);
    ZerosOfTail(|data|);
    FullAndRemaining(data);
    Regrouped(Full(data), Remaining(data), [0x80], zeros, length);
  }

  lemma FullAndRemaining(data: seq<bv8>)
    ensures Full(data) + Remaining(data) == data
  {}

  lemma Regrouped(a: seq<bv8>, b: seq<bv8>, c: seq<bv8>, d: seq<bv8>, e: seq<bv8>)
    ensures a + (b + c + d + e) == a + b + c + d + e
  {}

  lemma ZerosOfTail(size: nat)
    ensures ZeroCount(size) == (if size % 64 < 56 then 55 else 119) - size % 64
  {}

  method PrintState(state: array<bv32>) returns (hex: string)
    requires state.Length == 4
    ensures hex == Hex(Output(Held(state)))
  {
    hex := "";
    var i := 0;
    while i < 4
      invariant i <= 4
      invariant hex == Hex(BytesOf(state[..i]))
    {
      assert state[..i + 1][..i] == state[..i];
      HexConcatenation(BytesOf(state[..i]), Bytes(state[i]));
      hex := PrintWord(hex, state[i]);
      i := i + 1;
    }
    assert state[..4] == [state[0], state[1], state[2], state[3]];
  }

  method PrintWord(before: string, word: bv32) returns (hex: string)
    ensures hex == before + Hex(Bytes(word))
  {
    hex := before;
    var k := 0;
    while k < 4
      invariant k <= 4
      invariant hex == before + Hex(Bytes(word)[..k])
    {
      assert Bytes(word)[..k + 1][..k] == Bytes(word)[..k];
      var v := ByteAt(word, k);
      assert v == Bytes(word)[k];
      hex := hex + HexOf(v);
      k := k + 1;
    }
    assert Bytes(word)[..4] == Bytes(word);
  }

  lemma {:induction false} HexConcatenation(a: seq<bv8>, b: seq<bv8>)
    ensures Hex(a + b) == Hex(a) + Hex(b)
  {
    if b == [] {
      assert a + b == a;
    } else {
      var last := |b| - 1;
      assert (a + b)[..|a + b| - 1] == a + b[..last];
      HexConcatenation(a, b[..last]);
    }
  }

  lemma OneMoreBlock(data: seq<bv8>, i: nat)
    requires 64 * i + 64 <= |data|
    ensures Folded(INITIAL, data[..64 * (i + 1)])
            == Compressed(Folded(INITIAL, data[..64 * i]), Words(data[64 * i..64 * i + 64]))
  {
    var block, before := data[64 * i..64 * i + 64], Folded(INITIAL, data[..64 * i]);
    assert data[..64 * (i + 1)] == data[..64 * i] + block;
    FoldedConcatenation(INITIAL, data[..64 * i], i, block);
    OneBlock(before, block);
  }

  lemma OneBlock(r: State, block: seq<bv8>)
    requires |block| == 64
    ensures Folded(r, block) == Compressed(r, Words(block))
  {
    assert block[..64] == block && block[64..] == [];
  }
}
