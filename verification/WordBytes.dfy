module OneByte {
  lemma ByteDenotes(n: nat)
    requires n < 256
    ensures (n as bv8) as nat == n
  {
    match n / 16
    case 0 => case 1 => case 2 => case 3 => case 4 => case 5 => case 6 => case 7 =>
    case 8 => case 9 => case 10 => case 11 => case 12 => case 13 => case 14 => case 15 =>
  }
}

// Bytes, 32-bit words and numbers written as bytes.
module WordBytes {
  import opened OneByte

  function Word(b0: bv8, b1: bv8, b2: bv8, b3: bv8): bv32 {
    (b0 as bv32) | (b1 as bv32 << 8) | (b2 as bv32 << 16) | (b3 as bv32 << 24)
  }

  function ByteAt(w: bv32, k: nat): bv8
    requires k < 4
  {
    ((w >> (8 * k)) & 0xff) as bv8
  }

  function Bytes(w: bv32): seq<bv8> {
    [ByteAt(w, 0), ByteAt(w, 1), ByteAt(w, 2), ByteAt(w, 3)]
  }

  // ------------------------------------------------------- numbers as bytes

  function Power256(size: nat): (p: nat)
    ensures p > 0
  {
    if size == 0 then 1 else 256 * Power256(size - 1)
  }

  lemma WordSizes()
    ensures Power256(2) == 0x1_0000 && Power256(8) == 0x1_0000_0000_0000_0000
  {
    assert Power256(2) == 0x1_0000;
    assert Power256(4) == 0x1_0000_0000;
    assert Power256(6) == 0x1_0000_0000_0000;
  }

  /** A number's low-order `size` bytes, lowest first. */
  function LittleEndian(n: nat, size: nat): (r: seq<bv8>)
    ensures |r| == size
  {
    if size == 0 then [] else [(n % 256) as bv8] + LittleEndian(n / 256, size - 1)
  }

  lemma {:induction false} LittleEndianTellsApart(m: nat, n: nat, size: nat)
    requires LittleEndian(m, size) == LittleEndian(n, size)
    ensures m % Power256(size) == n % Power256(size)
  {
    if size > 0 {
      assert ((m % 256) as bv8) == LittleEndian(m, size)[0] == LittleEndian(n, size)[0] == ((n % 256) as bv8);
      ByteDenotes(m % 256);
      ByteDenotes(n % 256);
      assert LittleEndian(m, size)[1..] == LittleEndian(m / 256, size - 1);
      assert LittleEndian(n, size)[1..] == LittleEndian(n / 256, size - 1);
      LittleEndianTellsApart(m / 256, n / 256, size - 1);
      SplitRemainder(m, Power256(size - 1));
      SplitRemainder(n, Power256(size - 1));
    }
  }

  lemma {:induction false} LittleEndianIsLow(n: nat, size: nat)
    ensures LittleEndian(n % Power256(size), size) == LittleEndian(n, size)
  {
    if size > 0 {
      SplitRemainder(n, Power256(size - 1));
      LittleEndianIsLow(n / 256, size - 1);
      var low := n % Power256(size);
      assert low / 256 == (n / 256) % Power256(size - 1) && low % 256 == n % 256;
    }
  }

  lemma SplitRemainder(n: nat, p: nat)
    requires p > 0
    ensures n % (256 * p) == 256 * ((n / 256) % p) + n % 256
  {
    var q, rest := n / 256 / p, (n / 256) % p;
    assert n / 256 == q * p + rest;
    assert n == (256 * p) * q + (256 * rest + n % 256) by {
      assert n == 256 * (n / 256) + n % 256;
      assert 256 * (q * p) == (256 * p) * q;
    }
    RemainderIs(n, 256 * p, q, 256 * rest + n % 256);
  }

  lemma Smaller(p: int, more: int)
    requires -p < p * more < p
    ensures more == 0
  {}

  lemma RemainderIs(n: nat, p: nat, q: nat, rest: nat)
    requires rest < p && n == p * q + rest
    ensures n % p == rest && n / p == q
  {
    var more := n / p - q;
    assert p * more == p * (n / p) - p * q == rest - n % p;
    Smaller(p, more);
  }
}
