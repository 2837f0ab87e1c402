/** The bit operations of src/linkCapability.ts:106-179, bit by bit and number by number, and the
    hash of one message worked out. */
module Sha256Bits {
  import opened Sha256Constants
  import opened Sha256

  /** Bit `k` of a word, from the least significant one; `k` counts modulo 32. */
  predicate Bit(x: bv32, k: bv5) {
    (x >> k) & 1 == 1
  }

  predicate Odd(p: bool, q: bool, r: bool) {
    (p != q) != r
  }

  // ----- gates -----

  lemma RawBits(x: bv32, y: bv32, k: bv5)
    ensures Bit(x & y, k) <==> Bit(x, k) && Bit(y, k)
    ensures Bit(x | y, k) <==> Bit(x, k) || Bit(y, k)
    ensures Bit(x ^ y, k) <==> Bit(x, k) != Bit(y, k)
    ensures Bit(!x, k) <==> !Bit(x, k)
  {
  }

  lemma GateBits(x: bv32, y: bv32, k: bv5)
    ensures Bit(And(x, y), k) <==> Bit(x, k) && Bit(y, k)
    ensures Bit(Or(x, y), k) <==> Bit(x, k) || Bit(y, k)
    ensures Bit(Xor(x, y), k) <==> Bit(x, k) != Bit(y, k)
    ensures Bit(Not(x), k) <==> !Bit(x, k)
  {
    hide Bit;
    RawBits(x, y, k);
  }

  lemma Xor3Bits(x: bv32, y: bv32, z: bv32, k: bv5)
    ensures Bit(Xor(Xor(x, y), z), k) == Odd(Bit(x, k), Bit(y, k), Bit(z, k))
  {
    hide Bit, Xor;
    GateBits(x, y, k);
    GateBits(Xor(x, y), z, k);
  }

  /** `Ch` chooses. */
  lemma ChBits(x: bv32, y: bv32, z: bv32, k: bv5)
    ensures Bit(Ch(x, y, z), k) == if Bit(x, k) then Bit(y, k) else Bit(z, k)
  {
    hide Bit, And, Xor, Not;
    GateBits(x, y, k);
    GateBits(Not(x), z, k);
    GateBits(And(x, y), And(Not(x), z), k);
  }

  /** `Maj` is the majority. */
  lemma MajBits(x: bv32, y: bv32, z: bv32, k: bv5)
    ensures Bit(Maj(x, y, z), k) <==> (Bit(x, k) && Bit(y, k)) || (Bit(x, k) && Bit(z, k)) || (Bit(y, k) && Bit(z, k))
  {
    hide Bit, And, Xor;
    GateBits(x, y, k);
    GateBits(x, z, k);
    GateBits(y, z, k);
    Xor3Bits(And(x, y), And(x, z), And(y, z), k);
  }

  // ----- shifts and rotations -----

  lemma RawRight(x: bv32, n: bv5, k: bv5)
    requires k <= 31 - n
    ensures Bit(x >> n as bv6, k) == Bit(x, k + n)
  {
  }

  lemma RawRightOut(x: bv32, n: bv5, k: bv5)
    requires k > 31 - n
    ensures !Bit(x >> n as bv6, k)
  {
  }

  lemma RawLeft(x: bv32, n: bv5, k: bv5)
    requires n > 0 && k > 31 - n
    ensures Bit(x << (32 - n as bv6), k) == Bit(x, k + n)
  {
  }

  lemma RawLeftOut(x: bv32, n: bv5, k: bv5)
    requires n > 0 && k <= 31 - n
    ensures !Bit(x << (32 - n as bv6), k)
  {
  }

  /** Section 3.2 of FIPS 180-4: SHR. */
  lemma ShrBits(x: bv32, n: bv5, k: bv5)
    ensures Bit(Shr(x, n as bv6), k) <==> k <= 31 - n && Bit(x, k + n)
  {
    hide Bit;
    if k <= 31 - n {
      RawRight(x, n, k);
    } else {
      RawRightOut(x, n, k);
    }
  }

  lemma ShlBits(x: bv32, n: bv5, k: bv5)
    requires n > 0
    ensures Bit(Shl(x, 32 - n as bv6), k) <==> k > 31 - n && Bit(x, k + n)
  {
    hide Bit;
    if k <= 31 - n {
      RawLeftOut(x, n, k);
    } else {
      RawLeft(x, n, k);
    }
  }

  /** Section 3.2: ROTR moves bit k + n to bit k, around the end. */
  lemma RotrBits(x: bv32, n: bv5, k: bv5)
    requires n > 0
    ensures Bit(Rotr(x, n as bv6), k) == Bit(x, k + n)
  {
    hide Bit, Or, Shr, Shl;
    GateBits(Shr(x, n as bv6), Shl(x, 32 - n as bv6), k);
    ShrBits(x, n, k);
    ShlBits(x, n, k);
  }

  lemma BigSigma0Bits(x: bv32, k: bv5)
    ensures Bit(BigSigma0(x), k) == Odd(Bit(x, k + 2), Bit(x, k + 13), Bit(x, k + 22))
  {
    hide Bit, Odd, Xor, Rotr, Shr;
    Xor3Bits(Rotr(x, 2), Rotr(x, 13), Rotr(x, 22), k);
    RotrBits(x, 2, k);
    RotrBits(x, 13, k);
    RotrBits(x, 22, k);
  }

  lemma BigSigma1Bits(x: bv32, k: bv5)
    ensures Bit(BigSigma1(x), k) == Odd(Bit(x, k + 6), Bit(x, k + 11), Bit(x, k + 25))
  {
    hide Bit, Odd, Xor, Rotr, Shr;
    Xor3Bits(Rotr(x, 6), Rotr(x, 11), Rotr(x, 25), k);
    RotrBits(x, 6, k);
    RotrBits(x, 11, k);
    RotrBits(x, 25, k);
  }

  lemma SmallSigma0Bits(x: bv32, k: bv5)
    ensures Bit(SmallSigma0(x), k) == Odd(Bit(x, k + 7), Bit(x, k + 18), k <= 28 && Bit(x, k + 3))
  {
    hide Bit, Odd, Xor, Rotr, Shr;
    Xor3Bits(Rotr(x, 7), Rotr(x, 18), Shr(x, 3), k);
    RotrBits(x, 7, k);
    RotrBits(x, 18, k);
    ShrBits(x, 3, k);
  }

  lemma SmallSigma1Bits(x: bv32, k: bv5)
    ensures Bit(SmallSigma1(x), k) == Odd(Bit(x, k + 17), Bit(x, k + 19), k <= 21 && Bit(x, k + 10))
  {
    hide Bit, Odd, Xor, Rotr, Shr;
    Xor3Bits(Rotr(x, 17), Rotr(x, 19), Shr(x, 10), k);
    RotrBits(x, 17, k);
    RotrBits(x, 19, k);
    ShrBits(x, 10, k);
  }

  /** Section 4.1.2: the four sigma functions, bit by bit. */
  lemma SigmaBits(x: bv32, k: bv5)
    ensures Bit(BigSigma0(x), k) == Odd(Bit(x, k + 2), Bit(x, k + 13), Bit(x, k + 22))
    ensures Bit(BigSigma1(x), k) == Odd(Bit(x, k + 6), Bit(x, k + 11), Bit(x, k + 25))
    ensures Bit(SmallSigma0(x), k) == Odd(Bit(x, k + 7), Bit(x, k + 18), k <= 28 && Bit(x, k + 3))
    ensures Bit(SmallSigma1(x), k) == Odd(Bit(x, k + 17), Bit(x, k + 19), k <= 21 && Bit(x, k + 10))
  {
    hide *;
    BigSigma0Bits(x, k);
    BigSigma1Bits(x, k);
    SmallSigma0Bits(x, k);
    SmallSigma1Bits(x, k);
  }

  // ----- words as numbers -----

  function Short(n: u8): bv8 { n as bv8 }

  lemma ByteFits(n: u8)
    ensures n as bv32 == (n as bv8) as bv32 && (n as bv8) as nat == n
  {
  }

  lemma OctetIsShort(n: u8)
    ensures Octet(n) == Short(n) as bv32 && Short(n) as nat == n
  {
    ByteFits(n);
  }

  lemma Joined(a: bv8, b: bv8, c: bv8, d: bv8)
    ensures Number(Join(a as bv32, b as bv32, c as bv32, d as bv32))
         == 0x100_0000 * (a as nat) + 0x1_0000 * (b as nat) + 0x100 * (c as nat) + d as nat
  {
  }

  lemma JoinedOctets(a: u8, b: u8, c: u8, d: u8)
    ensures Number(Join(Octet(a), Octet(b), Octet(c), Octet(d))) == 0x100_0000 * a as nat + 0x1_0000 * b as nat + 0x100 * c as nat + d
  {
    hide Octet, Short, Join, Number;
    OctetIsShort(a);
    OctetIsShort(b);
    OctetIsShort(c);
    OctetIsShort(d);
    Joined(Short(a), Short(b), Short(c), Short(d));
  }

  lemma FourBytes(bytes: Bytes)
    requires |bytes| == 4
    ensures FromBigEndian(bytes) == 0x100_0000 * bytes[0] as nat + 0x1_0000 * bytes[1] as nat + 0x100 * bytes[2] as nat + bytes[3]
  {
    assert bytes[..3][..2] == bytes[..2];
    assert bytes[..2][..1] == bytes[..1];
    assert bytes[..1][..0] == [];
    assert FromBigEndian(bytes[..1]) == bytes[0];
    assert FromBigEndian(bytes[..2]) == 256 * bytes[0] as nat + bytes[1];
    assert FromBigEndian(bytes[..3]) == 256 * FromBigEndian(bytes[..2]) + bytes[2];
  }

  lemma WordReads(bytes: Bytes, at: nat)
    requires at + 4 <= |bytes|
    ensures Number(Word(bytes, at)) == FromBigEndian(bytes[at..at + 4])
  {
    hide FromBigEndian, Octet, Join, Number;
    JoinedOctets(bytes[at], bytes[at + 1], bytes[at + 2], bytes[at + 3]);
    FourBytes(bytes[at..at + 4]);
  }

  /** Section 6.2.2: the first sixteen words of the schedule are the block's words, read
      big-endian. */
  lemma ScheduleReads(block: Bytes, t: nat)
    requires |block| == 64 && t < 16
    ensures Number(W(block, t)) == FromBigEndian(block[4 * t..4 * t + 4])
  {
    hide Word, Number, FromBigEndian;
    WordReads(block, 4 * t);
  }

  function Back(n: u32): bv32 { n as bv32 }

  lemma NumberBack(x: bv32)
    ensures Back(Number(x)) == x
  {
  }

  lemma SameNumber(x: bv32, y: bv32)
    requires Number(x) == Number(y)
    ensures x == y
  {
    hide Number, Back;
    NumberBack(x);
    NumberBack(y);
  }

  /** The constant of round `t`, as a word. */
  predicate IsConstant(t: nat, k: bv32) {
    t < 64 && K(t) == Number(k)
  }
}
