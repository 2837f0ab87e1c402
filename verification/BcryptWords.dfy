/** The bytes and words of src/keyVault/bcryptPbkdf.ts as numbers: everything is big-endian. */
module BcryptWords {
  import opened Collections
  import opened BcryptPbkdf

  const TWO_32: nat := 0x1_0000_0000

  /** The number four bytes stand for, the most significant first. */
  function Number(a: nat, b: nat, c: nat, d: nat): nat {
    0x100_0000 * a + 0x1_0000 * b + 0x100 * c + d
  }

  function Octet(b: bv8): (n: nat)
    ensures n < 256
  {
    b as nat
  }

  function Value(word: Word): (n: nat)
    ensures n < TWO_32
  {
    word as nat
  }

  // ----- the counter -----

  function Low(n: nat): bv8 {
    (n % 256) as bv8
  }

  lemma Fits(m: nat)
    requires m < 256
    ensures m as bv32 == (m as bv8) as bv32 && (m as bv8) as nat == m
  {
  }

  lemma LowIs(n: nat)
    ensures Octet(Low(n)) == n % 256
  {
    Fits(n % 256);
  }

  lemma Quotients(v: nat)
    ensures v / 256 / 256 == v / 0x1_0000 && v / 256 / 256 / 256 == v / 0x100_0000 && v / 256 / 256 / 256 / 256 == v / TWO_32
  {
  }

  lemma FourDigits(n: nat)
    ensures Number(n / 0x100_0000 % 256, n / 0x1_0000 % 256, n / 0x100 % 256, n % 256) == n % TWO_32
  {
    Quotients(n);
    var q1 := n / 256;
    var q2 := q1 / 256;
    var q3 := q2 / 256;
    assert n == 256 * q1 + n % 256 && q1 == 256 * q2 + q1 % 256 && q2 == 256 * q3 + q2 % 256 && q3 == 256 * (q3 / 256) + q3 % 256;
    Division(n, TWO_32, q3 / 256, Number(q3 % 256, q2 % 256, q1 % 256, n % 256));
  }

  /** The counter of a block is read back, modulo 2^32, from its four bytes. */
  lemma CounterReads(count: nat)
    ensures |Counter(count)| == 4
    ensures var bytes := Counter(count); Number(Octet(bytes[0]), Octet(bytes[1]), Octet(bytes[2]), Octet(bytes[3])) == count % TWO_32
  {
    assert Counter(count) == [Low(count / 0x100_0000), Low(count / 0x1_0000), Low(count / 0x100), Low(count)];
    hide Counter, Low, Octet, Number;
    LowIs(count / 0x100_0000);
    LowIs(count / 0x1_0000);
    LowIs(count / 0x100);
    LowIs(count);
    FourDigits(count);
  }

  /** A block's chain starts from the salt, followed by the block's number. */
  lemma ChainStarts(prf: Prf, salt: Bytes, count: nat)
    ensures exists message: Bytes ::
              && Link(prf, salt, count, 0) == prf(message) && |message| == |salt| + 4 && message[..|salt|] == salt
              && Number(Octet(message[|salt|]), Octet(message[|salt| + 1]), Octet(message[|salt| + 2]), Octet(message[|salt| + 3]))
                   == count % TWO_32
  {
    var message := salt + Counter(count);
    CounterReads(count);
    hide Counter, Octet, Number;
    assert Link(prf, salt, count, 0) == prf(message) && message[..|salt|] == salt;
  }

  // ----- words -----

  function Join(a: Word, b: Word, c: Word, d: Word): Word {
    (a << 24) | (b << 16) | (c << 8) | d
  }

  lemma Joined(a: bv8, b: bv8, c: bv8, d: bv8)
    ensures Value(Join(a as Word, b as Word, c as Word, d as Word)) == Number(Octet(a), Octet(b), Octet(c), Octet(d))
  {
  }

  lemma Rejoined(x: Word)
    ensures Join(OctetOf(x, 0) as Word, OctetOf(x, 1) as Word, OctetOf(x, 2) as Word, OctetOf(x, 3) as Word) == x
  {
  }

  /** A word is its four bytes, the most significant first. */
  lemma BytesOfWord(x: Word)
    ensures Value(x) == Number(ByteOf(x, 0), ByteOf(x, 1), ByteOf(x, 2), ByteOf(x, 3))
  {
    hide Value, Number, OctetOf, Join;
    Rejoined(x);
    Joined(OctetOf(x, 0), OctetOf(x, 1), OctetOf(x, 2), OctetOf(x, 3));
  }

  lemma NumberIsOne(a: nat, b: nat, c: nat, d: nat, a': nat, b': nat, c': nat, d': nat)
    requires a < 256 && b < 256 && c < 256 && d < 256 && a' < 256 && b' < 256 && c' < 256 && d' < 256
    requires Number(a, b, c, d) == Number(a', b', c', d')
    ensures a == a' && b == b' && c == c' && d == d'
  {
  }

  /** The round function of the textbook: the tables at the four bytes of the word, added modulo
      2^32, xored and added. */
  lemma RoundFunction(s: seq<Word>, x: Word, a: nat, b: nat, c: nat, d: nat)
    requires |s| == 1024 && a < 256 && b < 256 && c < 256 && d < 256 && Value(x) == Number(a, b, c, d)
    ensures F(s)(x) == Plus(Xor2(Plus(s[a], s[256 + b]), s[512 + c]), s[768 + d])
  {
    hide Value, Number, ByteOf, Plus, Xor2;
    BytesOfWord(x);
    NumberIsOne(a, b, c, d, ByteOf(x, 0), ByteOf(x, 1), ByteOf(x, 2), ByteOf(x, 3));
  }

  /** Addition counts up, around 2^32. */
  lemma PlusCounts(x: Word, y: Word)
    ensures Plus(x, 0) == x && Plus(x, y + 1) == Plus(x, y) + 1
  {
  }

  // ----- the cyclic stream -----

  lemma Pushes(word: Word, b: bv8)
    requires word < 0x100_0000
    ensures Value(ShiftIn(word, b)) == 256 * Value(word) + Octet(b)
  {
  }

  lemma Small(word: Word)
    ensures Value(word) < 0x100_0000 <==> word < 0x100_0000
  {
  }

  /** The four bytes of the stream from `n` on make the word, the first the most significant. */
  lemma StreamReads(data: Bytes, n: nat)
    requires data != []
    ensures Value(CyclicWord(data, n, 4))
         == Number(Octet(Cyclic(data, n)), Octet(Cyclic(data, n + 1)), Octet(Cyclic(data, n + 2)), Octet(Cyclic(data, n + 3)))
  {
    hide Value, Octet, ShiftIn, Cyclic;
    var w1, w2, w3 := CyclicWord(data, n, 1), CyclicWord(data, n, 2), CyclicWord(data, n, 3);
    ValueZero();
    OneMore(data, n, 0);
    OneMore(data, n, 1);
    OneMore(data, n, 2);
    OneMore(data, n, 3);
    Pushes(0, Cyclic(data, n));
    Small(w1);
    Pushes(w1, Cyclic(data, n + 1));
    Small(w2);
    Pushes(w2, Cyclic(data, n + 2));
    Small(w3);
    Pushes(w3, Cyclic(data, n + 3));
  }

  lemma OneMore(data: Bytes, n: nat, k: nat)
    requires data != []
    ensures CyclicWord(data, n, k + 1) == ShiftIn(CyclicWord(data, n, k), Cyclic(data, n + k)) && CyclicWord(data, n, 0) == 0
  {
  }

  lemma ValueZero()
    ensures Value(0) == 0
  {
  }

  // ----- xor -----

  /** Bit `k` of a word, and of a byte. */
  predicate Bit(word: Word, k: bv5) {
    (word >> k) & 1 == 1
  }

  predicate BitOf(b: bv8, k: bv3) {
    (b >> k) & 1 == 1
  }

  lemma RawXor(x: Word, y: Word, k: bv5)
    ensures Bit(x ^ y, k) <==> Bit(x, k) != Bit(y, k)
  {
  }

  /** A bit is set in the xor of two words exactly if it is set in one of them only. */
  lemma XorWords(x: Word, y: Word, k: bv5)
    ensures Bit(Xor2(x, y), k) <==> Bit(x, k) != Bit(y, k)
  {
    hide Bit;
    RawXor(x, y, k);
  }

  lemma XorOctets(a: bv8, b: bv8, k: bv3)
    ensures BitOf(a ^ b, k) <==> BitOf(a, k) != BitOf(b, k)
  {
  }

  /** How many of the first `rounds` links of a chain have bit `k` of byte `i` set. */
  function Ones(prf: Prf, salt: Bytes, count: nat, rounds: nat, i: nat, k: bv3): nat
    requires IsPrf(prf) && i < 32
  {
    if rounds == 0 then 0
    else Ones(prf, salt, count, rounds - 1, i, k) + if LinkBit(prf, salt, count, rounds - 1, i, k) then 1 else 0
  }

  predicate LinkBit(prf: Prf, salt: Bytes, count: nat, r: nat, i: nat, k: bv3)
    requires IsPrf(prf) && i < 32
  {
    BitOf(Link(prf, salt, count, r)[i], k)
  }

  lemma LinkFills(prf: Prf, salt: Bytes, count: nat, r: nat)
    requires IsPrf(prf)
    ensures |Link(prf, salt, count, r)| == 32
  {
  }

  lemma BlockGrows(prf: Prf, salt: Bytes, rounds: nat, count: nat, i: nat)
    requires IsPrf(prf) && i < 32
    ensures Block(prf, salt, 1, count)[i] == Link(prf, salt, count, 0)[i]
    ensures rounds >= 1 ==>
              Block(prf, salt, rounds + 1, count)[i] == Block(prf, salt, rounds, count)[i] ^ Link(prf, salt, count, rounds)[i]
  {
  }

  lemma OnesGrow(prf: Prf, salt: Bytes, count: nat, rounds: nat, i: nat, k: bv3)
    requires IsPrf(prf) && i < 32
    ensures Ones(prf, salt, count, rounds + 1, i, k) % 2 == 1
       <==> (Ones(prf, salt, count, rounds, i, k) % 2 == 1) != LinkBit(prf, salt, count, rounds, i, k)
    ensures Ones(prf, salt, count, 0, i, k) == 0
  {
    hide LinkBit, Link;
  }

  /** A bit of a block is set exactly if it is set in an odd number of the links of its chain. */
  lemma {:induction false} BlockIsParity(prf: Prf, salt: Bytes, rounds: nat, count: nat, i: nat, k: bv3)
    requires IsPrf(prf) && rounds >= 1 && i < 32
    ensures BitOf(Block(prf, salt, rounds, count)[i], k) <==> Ones(prf, salt, count, rounds, i, k) % 2 == 1
  {
    hide BitOf, Block, Link, Ones;
    LinkFills(prf, salt, count, rounds - 1);
    BlockGrows(prf, salt, rounds - 1, count, i);
    OnesGrow(prf, salt, count, rounds - 1, i, k);
    if rounds > 1 {
      BlockIsParity(prf, salt, rounds - 1, count, i, k);
      XorOctets(Block(prf, salt, rounds - 1, count)[i], Link(prf, salt, count, rounds - 1)[i], k);
    }
  }
}
