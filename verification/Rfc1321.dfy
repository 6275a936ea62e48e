// Which word, shift and table entry each of RFC 1321's 64 operations uses, as
// section 3.4 lists them, and the formulas the plugin's one loop uses instead.
module Md5Schedule {
  /** Which registers play a, b, c and d in an operation written [abcd k s i]. */
  datatype Order = ABCD | DABC | CDAB | BCDA
  datatype Operation = Operation(order: Order, k: nat, s: bv32, i: nat)

  const ROUND1: seq<Operation> := [
    Operation(ABCD, 0, 7, 1), Operation(DABC, 1, 12, 2), Operation(CDAB, 2, 17, 3), Operation(BCDA, 3, 22, 4),
    Operation(ABCD, 4, 7, 5), Operation(DABC, 5, 12, 6), Operation(CDAB, 6, 17, 7), Operation(BCDA, 7, 22, 8),
    Operation(ABCD, 8, 7, 9), Operation(DABC, 9, 12, 10), Operation(CDAB, 10, 17, 11), Operation(BCDA, 11, 22, 12),
    Operation(ABCD, 12, 7, 13), Operation(DABC, 13, 12, 14), Operation(CDAB, 14, 17, 15), Operation(BCDA, 15, 22, 16)]

  const ROUND2: seq<Operation> := [
    Operation(ABCD, 1, 5, 17), Operation(DABC, 6, 9, 18), Operation(CDAB, 11, 14, 19), Operation(BCDA, 0, 20, 20),
    Operation(ABCD, 5, 5, 21), Operation(DABC, 10, 9, 22), Operation(CDAB, 15, 14, 23), Operation(BCDA, 4, 20, 24),
    Operation(ABCD, 9, 5, 25), Operation(DABC, 14, 9, 26), Operation(CDAB, 3, 14, 27), Operation(BCDA, 8, 20, 28),
    Operation(ABCD, 13, 5, 29), Operation(DABC, 2, 9, 30), Operation(CDAB, 7, 14, 31), Operation(BCDA, 12, 20, 32)]

  const ROUND3: seq<Operation> := [
    Operation(ABCD, 5, 4, 33), Operation(DABC, 8, 11, 34), Operation(CDAB, 11, 16, 35), Operation(BCDA, 14, 23, 36),
    Operation(ABCD, 1, 4, 37), Operation(DABC, 4, 11, 38), Operation(CDAB, 7, 16, 39), Operation(BCDA, 10, 23, 40),
    Operation(ABCD, 13, 4, 41), Operation(DABC, 0, 11, 42), Operation(CDAB, 3, 16, 43), Operation(BCDA, 6, 23, 44),
    Operation(ABCD, 9, 4, 45), Operation(DABC, 12, 11, 46), Operation(CDAB, 15, 16, 47), Operation(BCDA, 2, 23, 48)]

  const ROUND4: seq<Operation> := [
    Operation(ABCD, 0, 6, 49), Operation(DABC, 7, 10, 50), Operation(CDAB, 14, 15, 51), Operation(BCDA, 5, 21, 52),
    Operation(ABCD, 12, 6, 53), Operation(DABC, 3, 10, 54), Operation(CDAB, 10, 15, 55), Operation(BCDA, 1, 21, 56),
    Operation(ABCD, 8, 6, 57), Operation(DABC, 15, 10, 58), Operation(CDAB, 6, 15, 59), Operation(BCDA, 13, 21, 60),
    Operation(ABCD, 4, 6, 61), Operation(DABC, 11, 10, 62), Operation(CDAB, 2, 15, 63), Operation(BCDA, 9, 21, 64)]

  predicate Fits(op: Operation) {
    op.k < 16 && 0 < op.s < 32 && 1 <= op.i <= 64
  }

  const LISTING := ROUND1 + ROUND2 + ROUND3 + ROUND4

  datatype Round = First | Second | Third | Fourth

  function RoundOf(i: nat): Round {
    if i < 16 then First else if i < 32 then Second else if i < 48 then Third else Fourth
  }

  /** The same operation by the formulas of md5.cpp. */
  function Computed(i: nat): Operation
    requires i < 64
  {
    Operation(Turn(i), WordIndex(i), SHIFTS[i], i + 1)
  }

  function Turn(i: nat): Order {
    match i % 4
    case 0 => ABCD
    case 1 => DABC
    case 2 => CDAB
    case _ => BCDA
  }

  function Next(order: Order): Order {
    match order
    case ABCD => DABC
    case DABC => CDAB
    case CDAB => BCDA
    case BCDA => ABCD
  }

  function WordIndex(i: nat): nat {
    if i < 16 then i else if i < 32 then (5 * i + 1) % 16 else if i < 48 then (3 * i + 5) % 16 else (7 * i) % 16
  }

  const SHIFTS := SHIFTS1 + SHIFTS2 + SHIFTS3 + SHIFTS4
  const SHIFTS1: seq<bv32> := [7, 12, 17, 22, 7, 12, 17, 22, 7, 12, 17, 22, 7, 12, 17, 22]
  const SHIFTS2: seq<bv32> := [5, 9, 14, 20, 5, 9, 14, 20, 5, 9, 14, 20, 5, 9, 14, 20]
  const SHIFTS3: seq<bv32> := [4, 11, 16, 23, 4, 11, 16, 23, 4, 11, 16, 23, 4, 11, 16, 23]
  const SHIFTS4: seq<bv32> := [6, 10, 15, 21, 6, 10, 15, 21, 6, 10, 15, 21, 6, 10, 15, 21]

  predicate Regular(ops: seq<Operation>) {
    |ops| == 64 && forall i :: 0 <= i < 64 ==> ops[i] == Computed(i) && Fits(ops[i])
  }

  lemma ListingIsRegular()
    ensures Regular(LISTING)
  {
    forall i | 0 <= i < 64
      ensures LISTING[i] == Computed(i) && Fits(LISTING[i])
    {
      if i < 16 {
        FirstIsComputed(i);
      } else if i < 32 {
        SecondIsComputed(i - 16);
      } else if i < 48 {
        ThirdIsComputed(i - 32);
      } else {
        FourthIsComputed(i - 48);
      }
    }
  }

  lemma FirstIsComputed(n: nat)
    requires n < 16
    ensures ROUND1[n] == Computed(n) && Fits(ROUND1[n])
  {
    match n
    case 0 => case 1 => case 2 => case 3 => case 4 => case 5 => case 6 => case 7 =>
    case 8 => case 9 => case 10 => case 11 => case 12 => case 13 => case 14 => case 15 =>
  }

  lemma SecondIsComputed(n: nat)
    requires n < 16
    ensures ROUND2[n] == Computed(16 + n) && Fits(ROUND2[n])
  {
    match n
    case 0 => case 1 => case 2 => case 3 => case 4 => case 5 => case 6 => case 7 =>
    case 8 => case 9 => case 10 => case 11 => case 12 => case 13 => case 14 => case 15 =>
  }

  lemma ThirdIsComputed(n: nat)
    requires n < 16
    ensures ROUND3[n] == Computed(32 + n) && Fits(ROUND3[n])
  {
    match n
    case 0 => case 1 => case 2 => case 3 => case 4 => case 5 => case 6 => case 7 =>
    case 8 => case 9 => case 10 => case 11 => case 12 => case 13 => case 14 => case 15 =>
  }

  lemma FourthIsComputed(n: nat)
    requires n < 16
    ensures ROUND4[n] == Computed(48 + n) && Fits(ROUND4[n])
  {
    match n
    case 0 => case 1 => case 2 => case 3 => case 4 => case 5 => case 6 => case 7 =>
    case 8 => case 9 => case 10 => case 11 => case 12 => case 13 => case 14 => case 15 =>
  }

  lemma TurnsByOne(i: nat)
    ensures Turn(i + 1) == Next(Turn(i))
  {}
}

// Performing listed operations over four registers, whatever a word is and
// whatever value an operation computes.
module Md5Operations {
  import opened Md5Schedule

  datatype Registers<W> = Registers(A: W, B: W, C: W, D: W)

  /** An operation's new value, from the registers in the roles a, b, c and d and from X[k]. */
  type Mixer<!W> = (Operation, Registers<W>, W) -> W

  /** The registers in the roles a, b, c and d. */
  function Roles<W>(order: Order, r: Registers<W>): Registers<W> {
    match order
    case ABCD => r
    case DABC => Registers(r.D, r.A, r.B, r.C)
    case CDAB => Registers(r.C, r.D, r.A, r.B)
    case BCDA => Registers(r.B, r.C, r.D, r.A)
  }

  /** The register in the role a is given a value. */
  function Given<W>(order: Order, r: Registers<W>, value: W): Registers<W> {
    match order
    case ABCD => r.(A := value)
    case DABC => r.(D := value)
    case CDAB => r.(C := value)
    case BCDA => r.(B := value)
  }

  // The next operation finds the new value in the role b, and the others moved along.
  lemma RolesMoveAlong<W>(order: Order, r: Registers<W>, value: W)
    ensures var p := Roles(order, r);
            Roles(Next(order), Given(order, r, value)) == Registers(p.D, value, p.B, p.C)
  {}

  function Operate<W>(op: Operation, r: Registers<W>, x: seq<W>, mixer: Mixer<W>): Registers<W>
    requires Fits(op) && |x| == 16
  {
    Given(op.order, r, mixer(op, Roles(op.order, r), x[op.k]))
  }

  /** The registers after a list of operations. */
  function Performed<W>(ops: seq<Operation>, r: Registers<W>, x: seq<W>, mixer: Mixer<W>): Registers<W>
    requires |x| == 16 && forall op :: op in ops ==> Fits(op)
  {
    if ops == [] then r
    else
      var last := |ops| - 1;
      Operate(ops[last], Performed(ops[..last], r, x, mixer), x, mixer)
  }

  /** The registers after the first i operations, in the roles they play next. */
  function Playing<W>(i: nat, ops: seq<Operation>, r: Registers<W>, x: seq<W>, mixer: Mixer<W>): Registers<W>
    requires Regular(ops) && i <= 64 && |x| == 16
  {
    Roles(Turn(i), Performed(ops[..i], r, x, mixer))
  }

  /** The next operation puts its value in the role b, and the others move along. */
  lemma StepIsListed<W>(i: nat, ops: seq<Operation>, r: Registers<W>, x: seq<W>, mixer: Mixer<W>)
    requires Regular(ops) && i < 64 && |x| == 16
    ensures WordIndex(i) < 16 && 0 < SHIFTS[i] < 32
    ensures var p := Playing(i, ops, r, x, mixer);
            Playing(i + 1, ops, r, x, mixer) == Registers(p.D, mixer(Computed(i), p, x[WordIndex(i)]), p.B, p.C)
  {
    var p, was := Playing(i, ops, r, x, mixer), Performed(ops[..i], r, x, mixer);
    assert ops[..i + 1][..i] == ops[..i];
    assert ops[i] == Computed(i) && Fits(ops[i]);
    TurnsByOne(i);
    RolesMoveAlong(Turn(i), was, mixer(Computed(i), p, x[WordIndex(i)]));
  }

  lemma AllPerformed<W>(i: nat, ops: seq<Operation>, r: Registers<W>, x: seq<W>, mixer: Mixer<W>)
    requires Regular(ops) && i == 64 && |x| == 16
    ensures Playing(i, ops, r, x, mixer) == Performed(ops, r, x, mixer)
  {
    assert ops[..i] == ops;
  }
}

// RFC 1321 as the standard lists it: padding (sections 3.1 and 3.2), the four
// rounds of named operations over the registers A, B, C and D (3.4), and the
// digest's bytes, low-order byte of A first (3.5).
module Rfc1321 {
  import opened Md5Operations
  import opened WordBytes
  import opened Md5Schedule

  const TABLE: seq<bv32> := [
    0xd76aa478, 0xe8c7b756, 0x242070db, 0xc1bdceee, 0xf57c0faf, 0x4787c62a, 0xa8304613, 0xfd469501,
    0x698098d8, 0x8b44f7af, 0xffff5bb1, 0x895cd7be, 0x6b901122, 0xfd987193, 0xa679438e, 0x49b40821,
    0xf61e2562, 0xc040b340, 0x265e5a51, 0xe9b6c7aa, 0xd62f105d, 0x02441453, 0xd8a1e681, 0xe7d3fbc8,
    0x21e1cde6, 0xc33707d6, 0xf4d50d87, 0x455a14ed, 0xa9e3e905, 0xfcefa3f8, 0x676f02d9, 0x8d2a4c8a,
    0xfffa3942, 0x8771f681, 0x6d9d6122, 0xfde5380c, 0xa4beea44, 0x4bdecfa9, 0xf6bb4b60, 0xbebfbc70,
    0x289b7ec6, 0xeaa127fa, 0xd4ef3085, 0x04881d05, 0xd9d4d039, 0xe6db99e5, 0x1fa27cf8, 0xc4ac5665,
    0xf4292244, 0x432aff97, 0xab9423a7, 0xfc93a039, 0x655b59c3, 0x8f0ccc92, 0xffeff47d, 0x85845dd1,
    0x6fa87e4f, 0xfe2ce6e0, 0xa3014314, 0x4e0811a1, 0xf7537e82, 0xbd3af235, 0x2ad7d2bb, 0xeb86d391]

  const INITIAL: State := Registers(0x67452301, 0xefcdab89, 0x98badcfe, 0x10325476)

  type State = Registers<bv32>

  // ------------------------------------------------------------- one operation

  function F(x: bv32, y: bv32, z: bv32): bv32 {
    (x & y) | (!x & z)
  }

  function G(x: bv32, y: bv32, z: bv32): bv32 {
    (x & z) | (y & !z)
  }

  function H(x: bv32, y: bv32, z: bv32): bv32 {
    x ^ y ^ z
  }

  function I(x: bv32, y: bv32, z: bv32): bv32 {
    y ^ (x | !z)
  }

  function Mix(round: Round, x: bv32, y: bv32, z: bv32): bv32 {
    match round
    case First => F(x, y, z)
    case Second => G(x, y, z)
    case Third => H(x, y, z)
    case Fourth => I(x, y, z)
  }

  /** X <<< s */
  function Rotated(x: bv32, s: bv32): bv32
    requires 0 < s < 32
  {
    (x << s) | (x >> (32 - s))
  }

  /** b + ((a + mix(b,c,d) + X[k] + T[i]) <<< s) */
  function Value(op: Operation, p: State, word: bv32): bv32 {
    if Fits(op) then
      Combined(p.A, p.B, Mix(RoundOf(op.i - 1), p.B, p.C, p.D), word, TABLE[op.i - 1], op.s)
    else 0
  }

  function Combined(a: bv32, b: bv32, mixed: bv32, word: bv32, t: bv32, s: bv32): bv32
    requires 0 < s < 32
  {
    Plus(b, Rotated(Added(a, mixed, word, t), s))
  }

  function Added(a: bv32, mixed: bv32, word: bv32, t: bv32): bv32 {
    a + mixed + word + t
  }

  function Plus(x: bv32, y: bv32): bv32 {
    x + y
  }

  function Sum(r: State, s: State): State {
    Registers(Plus(r.A, s.A), Plus(r.B, s.B), Plus(r.C, s.C), Plus(r.D, s.D))
  }

  function Compressed(r: State, x: seq<bv32>): State
    requires |x| == 16
  {
    ListingIsRegular();
    Sum(r, Performed(LISTING, r, x, Value))
  }

  // ------------------------------------------------------- words and padding

  function Words(block: seq<bv8>): (x: seq<bv32>)
    requires |block| == 64
    ensures |x| == 16
  {
    seq(16, j requires 0 <= j < 16 => Word(block[4 * j], block[4 * j + 1], block[4 * j + 2], block[4 * j + 3]))
  }

  function Zeros(n: nat): (r: seq<bv8>)
    ensures |r| == n && forall i :: 0 <= i < n ==> r[i] == 0
  {
    seq(n, i => 0)
  }

  /** The fewest zero bytes that bring the length, with the 0x80 byte, to 56 modulo 64. */
  function ZeroCount(size: nat): (z: nat)
    ensures z < 64 && (size + 1 + z) % 64 == 56
  {
    (119 - size % 64) % 64
  }

  lemma WholeBlocks(size: nat)
    ensures (size + 1 + ZeroCount(size) + 8) % 64 == 0
  {}

  function Padded(message: seq<bv8>): (p: seq<bv8>)
    ensures |p| % 64 == 0
  {
    WholeBlocks(|message|);
    message + [0x80] + Zeros(ZeroCount(|message|)) + LittleEndian(8 * |message|, 8)
  }

  /** The whole blocks of a padded message, folded from the left. */
  function Folded(r: State, p: seq<bv8>): State
    decreases |p|
  {
    if |p| < 64 then r else Folded(Compressed(r, Words(p[..64])), p[64..])
  }

  function BytesOf(words: seq<bv32>): seq<bv8> {
    if words == [] then [] else BytesOf(words[..|words| - 1]) + Bytes(words[|words| - 1])
  }

  function Output(r: State): seq<bv8> {
    BytesOf([r.A, r.B, r.C, r.D])
  }

  function Digest(message: seq<bv8>): seq<bv8> {
    Output(Folded(INITIAL, Padded(message)))
  }

  // --------------------------------------------------- facts about the standard

  lemma {:induction false} FoldedConcatenation(r: State, p: seq<bv8>, blocks: nat, q: seq<bv8>)
    requires |p| == 64 * blocks
    ensures Folded(r, p + q) == Folded(Folded(r, p), q)
    decreases blocks
  {
    if blocks == 0 {
      assert p + q == q;
    } else {
      assert (p + q)[..64] == p[..64];
      assert (p + q)[64..] == p[64..] + q;
      FoldedConcatenation(Compressed(r, Words(p[..64])), p[64..], blocks - 1, q);
    }
  }

  lemma PaddedEnds(m: seq<bv8>)
    ensures var p := Padded(m); |p| >= |m| + 8 && p[..|m|] == m && p[|p| - 8..] == LittleEndian(8 * |m|, 8)
  {}

  /** Two messages of any length that are padded alike are the same message. */
  lemma PaddingIsInjective(m: seq<bv8>, n: seq<bv8>)
    requires Padded(m) == Padded(n)
    ensures m == n
  {
    PaddedEnds(m);
    PaddedEnds(n);
    LittleEndianTellsApart(8 * |m|, 8 * |n|, 8);
    SameLength(|m|, |n|);
  }

  lemma SameLength(m: nat, n: nat)
    requires m + 1 + ZeroCount(m) + 8 == n + 1 + ZeroCount(n) + 8
    requires (8 * m) % Power256(8) == (8 * n) % Power256(8)
    ensures m == n
  {
    WordSizes();
  }
}
