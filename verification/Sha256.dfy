/** src/linkCapability.ts:106-179: the hand-written SHA-256, against FIPS 180-4. */
module Sha256 {
  import opened Sha256Constants

  // ----- section 5.1.1: padding -----

  type u8 = x: nat | x < 256

  type Bytes = seq<u8>

  /** The number of zero bytes between the marker and the length. */
  function Zeros(n: nat): (z: nat)
    ensures z < 64 && (n + 1 + z) % 64 == 56
  {
    (119 - n % 64) % 64
  }

  function Repeat(b: u8, n: nat): (r: Bytes)
    ensures |r| == n && forall k | 0 <= k < n :: r[k] == b
  {
    seq(n, _ => b)
  }

  function Low(v: nat): u8 {
    v % 256
  }

  /** A number below 2^(8 * width), most significant byte first. */
  function BigEndian(v: nat, width: nat): (r: Bytes)
    ensures |r| == width
  {
    if width == 0 then [] else BigEndian(v / 256, width - 1) + [Low(v)]
  }

  lemma PadDivides(n: nat)
    ensures (n + 9 + Zeros(n)) % 64 == 0
  {
  }

  function Pad(data: Bytes): (r: Bytes)
    ensures |r| % 64 == 0 && |r| >= |data| + 9
  {
    PadDivides(|data|);
    hide Zeros, Repeat, BigEndian;
    data + [0x80] + Repeat(0, Zeros(|data|)) + BigEndian(8 * |data|, 8)
  }

  lemma LeastMultiple(n: nat, m: nat, k: nat)
    requires 64 * m < n + 9 + 64 && n + 9 <= 64 * k
    ensures 64 * m <= 64 * k
  {
  }

  /** The padded length is the least multiple of 64 that leaves room for marker and length. */
  lemma PadIsLeast(data: Bytes, length: nat)
    requires length % 64 == 0 && length >= |data| + 9
    ensures |Pad(data)| <= length
  {
    var padded := Pad(data);
    assert |padded| == |data| + 9 + Zeros(|data|);
    hide Pad, Zeros;
    LeastMultiple(|data|, |padded| / 64, length / 64);
  }

  function FromBigEndian(bytes: Bytes): nat {
    if bytes == [] then 0 else 256 * FromBigEndian(bytes[..|bytes| - 1]) + bytes[|bytes| - 1]
  }

  function Power256(n: nat): nat {
    if n == 0 then 1 else 256 * Power256(n - 1)
  }

  lemma {:induction false} BigEndianReads(v: nat, width: nat)
    requires v < Power256(width)
    ensures FromBigEndian(BigEndian(v, width)) == v
  {
    if width > 0 {
      var bytes := BigEndian(v, width);
      BigEndianReads(v / 256, width - 1);
      assert bytes[..|bytes| - 1] == BigEndian(v / 256, width - 1);
    }
  }

  /** Drop the zeros at the end, then the marker. */
  function Unmark(bytes: Bytes): Bytes {
    if bytes == [] then []
    else if bytes[|bytes| - 1] == 0 then Unmark(bytes[..|bytes| - 1])
    else bytes[..|bytes| - 1]
  }

  lemma {:induction false} UnmarkMarked(data: Bytes, zeros: nat)
    ensures Unmark(data + [0x80] + Repeat(0, zeros)) == data
  {
    var marked := data + [0x80] + Repeat(0, zeros);
    if zeros == 0 {
      assert marked[..|marked| - 1] == data;
    } else {
      assert marked[..|marked| - 1] == data + [0x80] + Repeat(0, zeros - 1);
      UnmarkMarked(data, zeros - 1);
    }
  }

  /** The message can be read back from its padding, and so can its length in bits. */
  lemma PadReads(data: Bytes)
    requires 8 * |data| < Power256(8)
    ensures var padded := Pad(data);
            && Unmark(padded[..|padded| - 8]) == data
            && FromBigEndian(padded[|padded| - 8..]) == 8 * |data|
  {
    var padded := Pad(data);
    assert padded[..|padded| - 8] == data + [0x80] + Repeat(0, Zeros(|data|));
    UnmarkMarked(data, Zeros(|data|));
    assert padded[|padded| - 8..] == BigEndian(8 * |data|, 8);
    BigEndianReads(8 * |data|, 8);
  }

  // ----- section 6.2.2: the hash -----

  function And(x: bv32, y: bv32): bv32 { x & y }
  function Or(x: bv32, y: bv32): bv32 { x | y }
  function Xor(x: bv32, y: bv32): bv32 { x ^ y }
  function Not(x: bv32): bv32 { !x }

  function Shr(x: bv32, n: bv6): bv32
    requires n <= 32
  {
    x >> n
  }

  function Shl(x: bv32, n: bv6): bv32
    requires n <= 32
  {
    x << n
  }

  function Rotr(x: bv32, n: bv6): bv32
    requires 0 < n < 32
  {
    Or(Shr(x, n), Shl(x, 32 - n))
  }

  function BigSigma0(x: bv32): bv32 { Xor(Xor(Rotr(x, 2), Rotr(x, 13)), Rotr(x, 22)) }
  function BigSigma1(x: bv32): bv32 { Xor(Xor(Rotr(x, 6), Rotr(x, 11)), Rotr(x, 25)) }
  function SmallSigma0(x: bv32): bv32 { Xor(Xor(Rotr(x, 7), Rotr(x, 18)), Shr(x, 3)) }
  function SmallSigma1(x: bv32): bv32 { Xor(Xor(Rotr(x, 17), Rotr(x, 19)), Shr(x, 10)) }
  function Ch(x: bv32, y: bv32, z: bv32): bv32 { Xor(And(x, y), And(Not(x), z)) }
  function Maj(x: bv32, y: bv32, z: bv32): bv32 { Xor(Xor(And(x, y), And(x, z)), And(y, z)) }

  function Octet(b: u8): bv32 { b as bv32 }

  function Join(a: bv32, b: bv32, c: bv32, d: bv32): bv32 {
    (a << 24) | (b << 16) | (c << 8) | d
  }

  /** Four bytes, most significant first. */
  function Word(bytes: Bytes, at: nat): bv32
    requires at + 4 <= |bytes|
  {
    Join(Octet(bytes[at]), Octet(bytes[at + 1]), Octet(bytes[at + 2]), Octet(bytes[at + 3]))
  }

  /** The message schedule of one block. */
  function W(block: Bytes, t: nat): bv32
    requires |block| == 64 && t < 64
  {
    if t < 16 then Word(block, 4 * t)
    else Mixed(W(block, t - 2), W(block, t - 7), W(block, t - 15), W(block, t - 16))
  }

  function Sum4(a: bv32, b: bv32, c: bv32, d: bv32): bv32 {
    a + b + c + d
  }

  function Mixed(w2: bv32, w7: bv32, w15: bv32, w16: bv32): bv32 {
    Sum4(SmallSigma1(w2), w7, SmallSigma0(w15), w16)
  }

  datatype Vars = Vars(a: bv32, b: bv32, c: bv32, d: bv32, e: bv32, f: bv32, g: bv32, h: bv32)

  function Plus(x: bv32, y: bv32): bv32 { x + y }

  function T1(e: bv32, f: bv32, g: bv32, h: bv32, k: bv32, w: bv32): bv32 {
    h + BigSigma1(e) + Ch(e, f, g) + k + w
  }

  function T2(a: bv32, b: bv32, c: bv32): bv32 {
    BigSigma0(a) + Maj(a, b, c)
  }

  function Round(v: Vars, k: bv32, w: bv32): Vars {
    var t1 := T1(v.e, v.f, v.g, v.h, k, w);
    var t2 := T2(v.a, v.b, v.c);
    Vars(Plus(t1, t2), v.a, v.b, v.c, Plus(v.d, t1), v.e, v.f, v.g)
  }

  function KWord(t: nat): bv32
    requires t < 64
  {
    K(t) as bv32
  }

  function HWord(i: nat): bv32
    requires i < 8
  {
    H0(i) as bv32
  }

  function Rounds(v: Vars, block: Bytes, t: nat): Vars
    requires |block| == 64 && t <= 64
  {
    if t == 0 then v else Round(Rounds(v, block, t - 1), KWord(t - 1), W(block, t - 1))
  }

  function Add(v: Vars, u: Vars): Vars {
    Vars(Plus(v.a, u.a), Plus(v.b, u.b), Plus(v.c, u.c), Plus(v.d, u.d),
         Plus(v.e, u.e), Plus(v.f, u.f), Plus(v.g, u.g), Plus(v.h, u.h))
  }

  function Compress(v: Vars, block: Bytes): Vars
    requires |block| == 64
  {
    Add(v, Rounds(v, block, 64))
  }

  const INITIAL: Vars := Vars(HWord(0), HWord(1), HWord(2), HWord(3), HWord(4), HWord(5), HWord(6), HWord(7))

  function HashBlocks(padded: Bytes, n: nat): Vars
    requires 64 * n <= |padded|
  {
    if n == 0 then INITIAL else Compress(HashBlocks(padded, n - 1), padded[64 * (n - 1)..64 * n])
  }

  function Sha256(data: Bytes): Vars {
    HashBlocks(Pad(data), |Pad(data)| / 64)
  }

  // ----- the source's loops -----

  /** The source pads to ((n + 8) >> 6 << 6) + 64 bytes. */
  lemma SourceLength(data: Bytes)
    ensures (|data| + 8) / 64 * 64 + 64 == |Pad(data)|
  {
    assert |Pad(data)| == |data| + 9 + Zeros(|data|);
    hide Pad, Zeros;
    LeastMultiple(|data|, |Pad(data)| / 64, (|data| + 8) / 64 + 1);
    assert (|data| + 8) / 64 * 64 <= |data| + 8;
  }

  /** `DataView.setUint32`, big-endian. */
  method SetUint32(a: array<u8>, at: nat, v: u32)
    requires at + 4 <= a.Length
    modifies a
    ensures a[..] == old(a[..at]) + BigEndian(v, 4) + old(a[at + 4..])
  {
    a[at] := Low(v / 0x100_0000);
    a[at + 1] := Low(v / 0x1_0000);
    a[at + 2] := Low(v / 0x100);
    a[at + 3] := Low(v);
    BigEndian4(v);
    assert a[..] == old(a[..at]) + a[at..at + 4] + old(a[at + 4..]);
    assert a[at..at + 4] == [a[at], a[at + 1], a[at + 2], a[at + 3]];
  }

  lemma Peel(v: nat, width: nat)
    ensures BigEndian(v, width + 1) == BigEndian(v / 256, width) + [Low(v)]
  {
  }

  lemma Quotients(v: nat)
    ensures v / 256 / 256 == v / 0x1_0000 && v / 256 / 256 / 256 == v / 0x100_0000 && v / 256 / 256 / 256 / 256 == v / TWO_32
  {
  }

  lemma LastFour(v: nat, width: nat)
    ensures BigEndian(v, width + 4) == BigEndian(v / TWO_32, width)
              + [Low(v / 0x100_0000), Low(v / 0x1_0000), Low(v / 0x100), Low(v)]
  {
    hide BigEndian, Low;
    Peel(v, width + 3);
    Peel(v / 256, width + 2);
    Peel(v / 256 / 256, width + 1);
    Peel(v / 256 / 256 / 256, width);
    Quotients(v);
  }

  lemma BigEndian4(v: u32)
    ensures BigEndian(v, 4) == [Low(v / 0x100_0000), Low(v / 0x1_0000), Low(v / 0x100), Low(v)]
  {
    LastFour(v, 0);
  }

  lemma LowByte(q: nat, r: nat)
    requires r < TWO_32
    ensures Low((TWO_32 * q + r) / 0x100_0000) == Low(r / 0x100_0000) && Low((TWO_32 * q + r) / 0x1_0000) == Low(r / 0x1_0000)
    ensures Low((TWO_32 * q + r) / 0x100) == Low(r / 0x100) && Low(TWO_32 * q + r) == Low(r)
  {
    assert (TWO_32 * q + r) / 0x100_0000 == 256 * q + r / 0x100_0000;
    assert (TWO_32 * q + r) / 0x1_0000 == 256 * (256 * q) + r / 0x1_0000;
    assert (TWO_32 * q + r) / 0x100 == 256 * (0x1_0000 * q) + r / 0x100;
    assert TWO_32 * q + r == 256 * (0x100_0000 * q) + r;
    LowShift(q, r / 0x100_0000);
    LowShift(256 * q, r / 0x1_0000);
    LowShift(0x1_0000 * q, r / 0x100);
    LowShift(0x100_0000 * q, r);
  }

  lemma LowShift(m: nat, v: nat)
    ensures Low(256 * m + v) == Low(v)
  {
  }

  /** The two halves the source writes make the 64-bit length. */
  lemma TwoHalves(v: nat)
    ensures BigEndian(v, 8) == BigEndian(v / TWO_32, 4) + BigEndian(v % TWO_32, 4)
  {
    hide BigEndian, Low;
    LastFour(v, 4);
    BigEndian4(v % TWO_32);
    LowByte(v / TWO_32, v % TWO_32);
    assert v == TWO_32 * (v / TWO_32) + v % TWO_32;
  }

  /** The message, the marker and the length, in a buffer of zeros. */
  method Padded(data: array<u8>) returns (padded: array<u8>)
    requires data.Length + 8 < 0x8000_0000
    ensures fresh(padded) && padded[..] == Pad(data[..])
  {
    hide Zeros, BigEndian;
    var n := data.Length;
    SourceLength(data[..]);
    padded := new u8[(n + 8) / 64 * 64 + 64](_ => 0);
    forall k | 0 <= k < n {
      padded[k] := data[k];
    }
    padded[n] := 0x80;
    ghost var zeros := Zeros(n);
    assert padded[..n] == data[..];
    assert padded[n + 1..padded.Length - 8] == Repeat(0, zeros);
    ghost var front := padded[..padded.Length - 8];
    assert front == data[..] + [0x80] + Repeat(0, zeros);
    SetUint32(padded, padded.Length - 8, 8 * n / TWO_32);
    assert padded[..padded.Length - 4] == front + BigEndian(8 * n / TWO_32, 4);
    SetUint32(padded, padded.Length - 4, 8 * n % TWO_32);
    TwoHalves(8 * n);
    assert padded[..] == front + BigEndian(8 * n / TWO_32, 4) + BigEndian(8 * n % TWO_32, 4);
  }

  /** The source adds the four parts of a scheduled word the other way round. */
  function NextWord(w16: bv32, w15: bv32, w7: bv32, w2: bv32): bv32 {
    Sum4(w16, SmallSigma0(w15), w7, SmallSigma1(w2))
  }

  lemma Sum4Reversed(a: bv32, b: bv32, c: bv32, d: bv32)
    ensures Sum4(a, b, c, d) == Sum4(d, c, b, a)
  {
  }

  lemma NextIsMixed(w16: bv32, w15: bv32, w7: bv32, w2: bv32)
    ensures NextWord(w16, w15, w7, w2) == Mixed(w2, w7, w15, w16)
  {
    hide Sum4, SmallSigma0, SmallSigma1;
    Sum4Reversed(w16, SmallSigma0(w15), w7, SmallSigma1(w2));
  }

  /** The message schedule, computed in place. */
  method Schedule(padded: array<u8>, block: nat, w: array<bv32>)
    requires block + 64 <= padded.Length && w.Length == 64 && (padded as object) != w
    modifies w
    ensures forall t | 0 <= t < 64 :: w[t] == W(padded[block..block + 64], t)
  {
    hide Mixed, Word, NextWord;
    ghost var bytes := padded[block..block + 64];
    for i := 0 to 16
      invariant forall t | 0 <= t < i :: w[t] == W(bytes, t)
    {
      w[i] := Word(padded[block..block + 64], 4 * i);
    }
    for i := 16 to 64
      invariant forall t | 0 <= t < i :: w[t] == W(bytes, t)
    {
      NextIsMixed(w[i - 16], w[i - 15], w[i - 7], w[i - 2]);
      w[i] := NextWord(w[i - 16], w[i - 15], w[i - 7], w[i - 2]);
    }
  }

  function Get(state: seq<bv32>): Vars
    requires |state| == 8
  {
    Vars(state[0], state[1], state[2], state[3], state[4], state[5], state[6], state[7])
  }

  /** One block, mixed into `state` in place. */
  method MixBlock(state: array<bv32>, w: array<bv32>, ghost block: Bytes)
    requires state.Length == 8 && w.Length == 64 && state != w && |block| == 64
    requires forall t | 0 <= t < 64 :: w[t] == W(block, t)
    modifies state
    ensures Get(state[..]) == Compress(old(Get(state[..])), block)
  {
    hide T1, T2, Plus, KWord, W;
    var a, b, c, d := state[0], state[1], state[2], state[3];
    var e, f, g, h := state[4], state[5], state[6], state[7];
    ghost var start := Get(state[..]);
    for i := 0 to 64
      invariant Vars(a, b, c, d, e, f, g, h) == Rounds(start, block, i)
    {
      var t1 := T1(e, f, g, h, KWord(i), w[i]);
      var t2 := T2(a, b, c);
      h, g, f := g, f, e;
      e := Plus(d, t1);
      d, c, b := c, b, a;
      a := Plus(t1, t2);
    }
    state[0], state[1], state[2], state[3] := Plus(state[0], a), Plus(state[1], b), Plus(state[2], c), Plus(state[3], d);
    state[4], state[5], state[6], state[7] := Plus(state[4], e), Plus(state[5], f), Plus(state[6], g), Plus(state[7], h);
  }

  method InitialState() returns (state: array<bv32>)
    ensures fresh(state) && state.Length == 8 && Get(state[..]) == INITIAL
  {
    hide HWord;
    state := new bv32[8](i requires 0 <= i < 8 => HWord(i));
  }

  /** The block loop of the source is the recursive definition of the hash. */
  method Hash(data: array<u8>) returns (state: array<bv32>)
    requires data.Length + 8 < 0x8000_0000
    ensures fresh(state) && state.Length == 8 && Get(state[..]) == Sha256(data[..])
  {
    hide Compress, Pad, INITIAL, W;
    state := InitialState();
    var padded := Padded(data);
    ghost var bytes := padded[..];
    var w := new bv32[64](_ => 0);
    var block := 0;
    ghost var n := 0;
    while block < padded.Length
      invariant block == 64 * n <= padded.Length == |bytes|
      invariant padded[..] == bytes
      invariant Get(state[..]) == HashBlocks(bytes, n)
    {
      assert bytes[64 * n..64 * (n + 1)] == padded[block..block + 64];
      Schedule(padded, block, w);
      MixBlock(state, w, padded[block..block + 64]);
      block, n := block + 64, n + 1;
    }
  }

  // ----- the hexadecimal digest -----

  function Digit(n: nat): char
    requires n < 16
  {
    "0123456789abcdef"[n]
  }

  /** `toString(16)`: no leading zeros. */
  function ToHex(v: nat): (r: string)
    ensures |r| >= 1
  {
    if v < 16 then [Digit(v)] else ToHex(v / 16) + [Digit(v % 16)]
  }

  function PadStart(text: string, width: nat): string {
    seq(if |text| < width then width - |text| else 0, _ => '0') + text
  }

  /** Exactly `width` digits. */
  function Digits(v: nat, width: nat): (r: string)
    ensures |r| == width
  {
    if width == 0 then "" else Digits(v / 16, width - 1) + [Digit(v % 16)]
  }

  function Power16(n: nat): nat {
    if n == 0 then 1 else 16 * Power16(n - 1)
  }

  lemma {:induction false} ZeroDigits(width: nat)
    ensures Digits(0, width) == seq(width, _ => '0')
  {
    if width > 0 {
      ZeroDigits(width - 1);
    }
  }

  lemma {:induction false} PaddedDigits(v: nat, width: nat)
    requires width >= 1 && v < Power16(width)
    ensures PadStart(ToHex(v), width) == Digits(v, width) && |ToHex(v)| <= width
    decreases width
  {
    if v < 16 {
      ZeroDigits(width - 1);
    } else {
      PaddedDigits(v / 16, width - 1);
    }
  }

  function Value(digit: char): nat {
    if '0' <= digit <= '9' then (digit - '0') as nat else if 'a' <= digit <= 'f' then (digit - 'a') as nat + 10 else 0
  }

  function FromHex(text: string): nat {
    if text == "" then 0 else 16 * FromHex(text[..|text| - 1]) + Value(text[|text| - 1])
  }

  lemma DigitReads(n: nat)
    requires n < 16
    ensures Value(Digit(n)) == n
  {
  }

  lemma {:induction false} DigitsRead(v: nat, width: nat)
    requires v < Power16(width)
    ensures FromHex(Digits(v, width)) == v
  {
    hide Digit, Value;
    if width > 0 {
      DigitReads(v % 16);
      DigitsRead(v / 16, width - 1);
      assert Digits(v, width)[..width - 1] == Digits(v / 16, width - 1);
    }
  }

  function Words(v: Vars): (r: seq<bv32>)
    ensures |r| == 8
  {
    [v.a, v.b, v.c, v.d, v.e, v.f, v.g, v.h]
  }

  function Number(w: bv32): u32 {
    w as u32
  }

  /** The first `n` words, eight digits each. */
  function Digest(words: seq<bv32>, n: nat): string
    requires n <= |words|
  {
    if n == 0 then "" else Digest(words, n - 1) + Digits(Number(words[n - 1]), 8)
  }

  lemma {:induction false} DigestSlice(words: seq<bv32>, n: nat, k: nat)
    requires k < n <= |words|
    ensures |Digest(words, n)| == 8 * n && Digest(words, n)[8 * k..8 * k + 8] == Digits(Number(words[k]), 8)
  {
    hide Digits, Number;
    var last := Digits(Number(words[n - 1]), 8);
    if n == 1 {
      assert Digest(words, 1) == Digest(words, 0) + last;
    } else {
      DigestSlice(words, n - 1, if k == n - 1 then 0 else k);
      assert Digest(words, n) == Digest(words, n - 1) + last;
    }
  }

  /** Every word of the hash can be read back from its place in the digest. */
  lemma DigestReads(data: Bytes, k: nat)
    requires k < 8
    ensures var words := Words(Sha256(data));
            |Digest(words, 8)| == 64 && FromHex(Digest(words, 8)[8 * k..8 * k + 8]) == Number(words[k])
  {
    hide Sha256, Digit, Value;
    DigestSlice(Words(Sha256(data)), 8, k);
    DigitsRead(Number(Words(Sha256(data))[k]), 8);
  }

  method Sha256Hex(data: array<u8>) returns (hex: string)
    requires data.Length + 8 < 0x8000_0000
    ensures hex == Digest(Words(Sha256(data[..])), 8)
  {
    hide Sha256, Number, Digits, ToHex, PadStart;
    var state := Hash(data);
    ghost var words := Words(Sha256(data[..]));
    assert state[..] == words;
    hex := "";
    for i := 0 to 8
      invariant state[..] == words
      invariant hex == Digest(words, i)
    {
      assert state[i] == words[i];
      PaddedDigits(Number(state[i]), 8);
      hex := hex + PadStart(ToHex(Number(state[i])), 8);
    }
  }
}
