/** src/keyVault/bcryptPbkdf.ts: the output loop of bcrypt_pbkdf, the Blowfish block cipher and
    the cyclic reading of keys. SHA-512 and the tables are parameters. */
module BcryptPbkdf {
  import opened Collections

  type Bytes = seq<bv8>

  // ----- the derived key -----

  const MAX_KEY: nat := 1024
  const MAX_SALT: nat := 0x10_0000

  predicate ValidParameters(pass: Bytes, salt: Bytes, keyLength: int, rounds: int) {
    rounds >= 1 && pass != [] && salt != [] && 0 < keyLength <= MAX_KEY && |salt| <= MAX_SALT
  }

  /** `bcryptHash` of SHA-512(pass), applied to SHA-512 of its argument: 32 bytes. */
  type Prf = Bytes -> Bytes

  ghost predicate IsPrf(prf: Prf) {
    forall data :: |prf(data)| == 32
  }

  function Xor(a: Bytes, b: Bytes): (r: Bytes)
    requires |a| == |b|
    ensures |r| == |a|
  {
    seq(|a|, i requires 0 <= i < |a| => a[i] ^ b[i])
  }

  /** The counter, most significant byte first. */
  function Counter(count: nat): Bytes {
    [(count / 0x100_0000 % 256) as bv8, (count / 0x1_0000 % 256) as bv8, (count / 0x100 % 256) as bv8, (count % 256) as bv8]
  }

  /** The r-th link of a block's chain. */
  function Link(prf: Prf, salt: Bytes, count: nat, r: nat): Bytes {
    if r == 0 then prf(salt + Counter(count)) else prf(Link(prf, salt, count, r - 1))
  }

  /** The first `r` links after the first, xored into it. */
  ghost function Chain(prf: Prf, salt: Bytes, count: nat, r: nat): (b: Bytes)
    requires IsPrf(prf)
    ensures |b| == 32
  {
    if r == 0 then Link(prf, salt, count, 0) else Xor(Chain(prf, salt, count, r - 1), Link(prf, salt, count, r))
  }

  ghost function Block(prf: Prf, salt: Bytes, rounds: nat, count: nat): (b: Bytes)
    requires IsPrf(prf) && rounds >= 1
    ensures |b| == 32
  {
    Chain(prf, salt, count, rounds - 1)
  }

  method ComputeBlock(prf: Prf, salt: Bytes, rounds: nat, count: nat) returns (out: Bytes)
    requires IsPrf(prf) && rounds >= 1
    ensures out == Block(prf, salt, rounds, count)
  {
    hide Xor, Counter;
    var tmp := prf(salt + Counter(count));
    out := tmp;
    for i := 1 to rounds
      invariant tmp == Link(prf, salt, count, i - 1) && out == Chain(prf, salt, count, i - 1)
    {
      tmp := prf(tmp);
      out := Xor(out, tmp);
    }
  }

  // ----- the scatter -----

  lemma Below(d: nat, a: nat, b: nat)
    requires a < b
    ensures d * a + d <= d * b
  {
    assert d * (b - a - 1) >= 0;
    assert d * (b - a - 1) == d * b - d * a - d;
  }

  lemma Division(n: nat, d: nat, q: nat, r: nat)
    requires r < d && n == d * q + r
    ensures n / d == q && n % d == r
  {
    var q', r' := n / d, n % d;
    assert n == d * q' + r';
    if q' < q {
      Below(d, q', q);
    } else if q < q' {
      Below(d, q, q');
    }
  }

  /** How many of the first `length` numbers are congruent to `c` modulo the stride. */
  function Share(length: nat, stride: nat, c: nat): nat
    requires stride > 0
  {
    length / stride + if c < length % stride then 1 else 0
  }

  lemma ShareIsExact(length: nat, stride: nat, c: nat, k: nat)
    requires c < stride
    ensures stride * k + c < length <==> k < Share(length, stride, c)
  {
    var q, r := length / stride, length % stride;
    assert length == stride * q + r;
    if k < q {
      Below(stride, k, q);
    } else if q < k {
      Below(stride, q, k);
    }
  }

  /** The bytes still missing once the first `c` blocks are written. */
  function Missing(length: nat, stride: nat, c: nat): int
    requires stride > 0
  {
    (stride - c) * (length / stride) + if c < length % stride then length % stride - c else 0
  }

  lemma MissingFalls(length: nat, stride: nat, c: nat)
    requires c < stride
    ensures Missing(length, stride, c) == Share(length, stride, c) + Missing(length, stride, c + 1)
    ensures Missing(length, stride, c + 1) >= 0
  {
    Distribute(stride - c - 1, length / stride);
  }

  lemma Distribute(m: nat, q: nat)
    ensures (m + 1) * q == m * q + q && m * q >= 0
  {
  }

  lemma MissingEnds(length: nat, stride: nat)
    requires stride > 0
    ensures Missing(length, stride, 0) == length && Missing(length, stride, stride) == 0
  {
    assert length == stride * (length / stride) + length % stride;
  }

  /** Stride and share of a key: every block has at least one byte of it and at most 32. */
  lemma SharesFit(length: nat, c: nat)
    requires 0 < length <= MAX_KEY && c < (length + 31) / 32
    ensures 1 <= Share(length, (length + 31) / 32, c) <= 32
  {
    var s := (length + 31) / 32;
    var q, r := length / s, length % s;
    assert length == s * q + r;
    assert q == 0 ==> s * q == 0;
    if q >= 33 {
      Below(s, 32, q);
    }
    assert 32 * s >= length && (q == 32 ==> s * q == 32 * s);
  }

  /** Where byte k of block c (from 0) goes. */
  function Place(stride: nat, c: nat, k: nat): nat {
    stride * k + c
  }

  lemma PlacesDiffer(stride: nat, c: nat, k: nat, c': nat, k': nat)
    requires c < stride && c' < stride && Place(stride, c, k) == Place(stride, c', k')
    ensures c == c' && k == k'
  {
    if k < k' {
      Below(stride, k, k');
    } else if k' < k {
      Below(stride, k', k);
    }
  }

  /** `key` holds the blocks `b` up to number `blocks`, and the first `i` bytes of the next. */
  ghost predicate Holds(key: seq<bv8>, stride: nat, b: nat -> Bytes, blocks: nat, i: nat) {
    forall c: nat, k: nat | c < stride && Place(stride, c, k) < |key| && (c < blocks || (c == blocks && k < i)) ::
      k < |b(c)| && key[Place(stride, c, k)] == b(c)[k]
  }

  /** One block, scattered over the key; `i` bytes of it were used. */
  method Scatter(key: array<bv8>, out: Bytes, stride: nat, amt: nat, c: nat, ghost b: nat -> Bytes) returns (i: nat)
    requires c < stride && |out| == 32 && amt <= 32 && b(c) == out && Holds(key[..], stride, b, c, 0)
    modifies key
    ensures i == if amt < Share(key.Length, stride, c) then amt else Share(key.Length, stride, c)
    ensures Holds(key[..], stride, b, c, i)
  {
    hide Share;
    i := 0;
    while i < amt
      invariant i <= amt && i <= Share(key.Length, stride, c)
      invariant Holds(key[..], stride, b, c, i)
    {
      var dest := i * stride + c;
      ShareIsExact(key.Length, stride, c, i);
      assert dest == Place(stride, c, i);
      if dest >= key.Length {
        break;
      }
      ghost var before := key[..];
      key[dest] := out[i];
      Stored(before, stride, b, c, i);
      i := i + 1;
    }
  }

  lemma Stored(key: seq<bv8>, stride: nat, b: nat -> Bytes, c: nat, i: nat)
    requires c < stride && Place(stride, c, i) < |key| && i < |b(c)| && Holds(key, stride, b, c, i)
    ensures Holds(key[Place(stride, c, i) := b(c)[i]], stride, b, c, i + 1)
  {
    hide Place;
    var after := key[Place(stride, c, i) := b(c)[i]];
    forall c': nat, k: nat | c' < stride && Place(stride, c', k) < |key| && (c' < c || (c' == c && k < i + 1))
      ensures k < |b(c')| && after[Place(stride, c', k)] == b(c')[k]
    {
      if Place(stride, c', k) == Place(stride, c, i) {
        PlacesDiffer(stride, c', k, c, i);
      }
    }
  }

  /** A block all of whose places are written. */
  lemma BlockDone(key: seq<bv8>, stride: nat, b: nat -> Bytes, c: nat)
    requires c < stride && Holds(key, stride, b, c, Share(|key|, stride, c))
    ensures Holds(key, stride, b, c + 1, 0)
  {
    forall k: nat | Place(stride, c, k) < |key|
      ensures k < Share(|key|, stride, c)
    {
      ShareIsExact(|key|, stride, c, k);
    }
  }

  ghost function Blocks(prf: Prf, salt: Bytes, rounds: nat): nat -> Bytes
    requires IsPrf(prf) && rounds >= 1
  {
    (c: nat) => Block(prf, salt, rounds, c + 1)
  }

  /** The output loop: exactly `stride` blocks are computed, and key byte d is byte
      d / stride of block d mod stride + 1. */
  method DeriveKey(prf: Prf, salt: Bytes, keyLength: nat, rounds: nat) returns (key: array<bv8>, blocks: nat)
    requires IsPrf(prf) && rounds >= 1 && 0 < keyLength <= MAX_KEY
    ensures fresh(key) && key.Length == keyLength && blocks == (keyLength + 31) / 32
    ensures Holds(key[..], blocks, Blocks(prf, salt, rounds), blocks, 0)
  {
    hide Share, Missing, Place, Block;
    key := new bv8[keyLength](_ => 0);
    var stride := (keyLength + 31) / 32;
    var amt := (keyLength + stride - 1) / stride;
    var remaining := keyLength;
    blocks := 0;
    ghost var b := Blocks(prf, salt, rounds);
    MissingEnds(keyLength, stride);
    FirstAmount(keyLength);
    while remaining > 0
      invariant blocks <= stride && remaining == Missing(keyLength, stride, blocks)
      invariant blocks < stride ==> Share(keyLength, stride, blocks) <= amt <= 32
      invariant Holds(key[..], stride, b, blocks, 0)
      decreases remaining
    {
      MissingFalls(keyLength, stride, blocks);
      SharesFit(keyLength, blocks);
      var out := ComputeBlock(prf, salt, rounds, blocks + 1);
      amt := if amt < remaining then amt else remaining;
      var i := Scatter(key, out, stride, amt, blocks, b);
      BlockDone(key[..], stride, b, blocks);
      NextAmount(keyLength, stride, blocks);
      remaining := remaining - i;
      blocks := blocks + 1;
    }
    AllDone(keyLength, blocks);
  }

  lemma FirstAmount(length: nat)
    requires 0 < length <= MAX_KEY
    ensures var s := (length + 31) / 32; Share(length, s, 0) == (length + s - 1) / s <= 32
  {
    var s := (length + 31) / 32;
    var q, r := length / s, length % s;
    assert length == s * q + r;
    SharesFit(length, 0);
    if r == 0 {
      Division(length + s - 1, s, q, s - 1);
    } else {
      assert s * (q + 1) == s * q + s;
      Division(length + s - 1, s, q + 1, r - 1);
    }
  }

  lemma NextAmount(length: nat, stride: nat, c: nat)
    requires c + 1 <= stride
    ensures Share(length, stride, c + 1) <= Share(length, stride, c)
  {
  }

  lemma AllDone(length: nat, c: nat)
    requires 0 < length <= MAX_KEY && c <= (length + 31) / 32 && Missing(length, (length + 31) / 32, c) <= 0
    ensures c == (length + 31) / 32
  {
    var s := (length + 31) / 32;
    if c < s {
      MissingFalls(length, s, c);
      SharesFit(length, c);
    }
  }

  function Quotient(d: nat, stride: nat): (k: nat)
    requires stride > 0
  {
    d / stride
  }

  function Residue(d: nat, stride: nat): (c: nat)
    requires stride > 0
    ensures c < stride
  {
    d % stride
  }

  lemma IsPlace(d: nat, stride: nat)
    requires stride > 0
    ensures d == Place(stride, Residue(d, stride), Quotient(d, stride))
  {
  }

  /** Byte by byte: key byte d is byte d / stride of block d mod stride + 1. */
  lemma EveryByte(key: seq<bv8>, stride: nat, prf: Prf, salt: Bytes, rounds: nat, d: nat)
    requires IsPrf(prf) && rounds >= 1 && d < |key| && 0 < stride
    requires Holds(key, stride, Blocks(prf, salt, rounds), stride, 0)
    ensures Quotient(d, stride) < 32
    ensures key[d] == Block(prf, salt, rounds, Residue(d, stride) + 1)[Quotient(d, stride)]
  {
    IsPlace(d, stride);
    hide Quotient, Residue, Place;
  }

  /** `bcryptPbkdf`: refuses bad parameters, and derives a key otherwise. */
  method Pbkdf(pass: Bytes, salt: Bytes, keyLength: int, rounds: int, prf: Prf) returns (key: Option<seq<bv8>>)
    requires IsPrf(prf)
    ensures key.Some? <==> ValidParameters(pass, salt, keyLength, rounds)
    ensures key.Some? ==> |key.value| == keyLength
    ensures key.Some? ==>
              forall d | 0 <= d < keyLength ::
                var stride := (keyLength + 31) / 32;
                && Quotient(d, stride) < 32
                && key.value[d] == Block(prf, salt, rounds, Residue(d, stride) + 1)[Quotient(d, stride)]
  {
    if rounds < 1 || |pass| == 0 || |salt| == 0 || keyLength <= 0 || keyLength > MAX_KEY || |salt| > MAX_SALT {
      return None;
    }
    var derived, stride := DeriveKey(prf, salt, keyLength, rounds);
    forall d | 0 <= d < keyLength
      ensures Quotient(d, stride) < 32
      ensures derived[..][d] == Block(prf, salt, rounds, Residue(d, stride) + 1)[Quotient(d, stride)]
    {
      EveryByte(derived[..], stride, prf, salt, rounds, d);
    }
    key := Some(derived[..]);
  }

  // ----- Blowfish -----

  type Word = bv32

  function Xor2(x: Word, y: Word): Word { x ^ y }

  function Plus(x: Word, y: Word): Word { x + y }

  lemma XorTwice(x: Word, y: Word)
    ensures Xor2(Xor2(x, y), y) == x
  {
  }

  /** The textbook rounds: xor in a subkey, mix, swap. */
  function Forward(f: Word -> Word, p: seq<Word>, n: nat, l: Word, r: Word): (Word, Word)
    requires n <= |p|
  {
    if n == 0 then (l, r)
    else
      var (l', r') := Forward(f, p, n - 1, l, r);
      var x := Xor2(l', p[n - 1]);
      (Xor2(r', f(x)), x)
  }

  /** Sixteen rounds, the last swap undone, and the two last subkeys. */
  function Encrypt(f: Word -> Word, p: seq<Word>, l: Word, r: Word): (Word, Word)
    requires |p| == 18
  {
    var (l', r') := Forward(f, p, 16, l, r);
    (Xor2(r', p[17]), Xor2(l', p[16]))
  }

  function Backward(f: Word -> Word, p: seq<Word>, n: nat, l: Word, r: Word): (Word, Word)
    requires n <= |p|
  {
    if n == 0 then (l, r) else Backward(f, p, n - 1, Xor2(r, p[n - 1]), Xor2(l, f(r)))
  }

  function Decrypt(f: Word -> Word, p: seq<Word>, l: Word, r: Word): (Word, Word)
    requires |p| == 18
  {
    Backward(f, p, 16, Xor2(r, p[16]), Xor2(l, p[17]))
  }

  lemma {:induction false} RoundsUndo(f: Word -> Word, p: seq<Word>, n: nat, l: Word, r: Word)
    requires n <= |p|
    ensures var (l', r') := Forward(f, p, n, l, r); Backward(f, p, n, l', r') == (l, r)
  {
    hide Xor2;
    if n > 0 {
      var (l', r') := Forward(f, p, n - 1, l, r);
      RoundsUndo(f, p, n - 1, l, r);
      XorTwice(l', p[n - 1]);
      XorTwice(r', f(Xor2(l', p[n - 1])));
    }
  }

  /** The cipher is a permutation whatever its tables: it can be undone. */
  lemma DecryptUndoes(f: Word -> Word, p: seq<Word>, l: Word, r: Word)
    requires |p| == 18
    ensures var (l', r') := Encrypt(f, p, l, r); Decrypt(f, p, l', r') == (l, r)
  {
    hide Xor2;
    var (l', r') := Forward(f, p, 16, l, r);
    RoundsUndo(f, p, 16, l, r);
    XorTwice(r', p[17]);
    XorTwice(l', p[16]);
  }

  /** Byte `k` of a word, counted from the top. */
  function OctetOf(x: Word, k: bv6): bv8
    requires k <= 3
  {
    ((x >> (24 - 8 * k)) & 0xff) as bv8
  }

  function ByteOf(x: Word, k: bv6): (i: nat)
    requires k <= 3
    ensures i < 256
  {
    OctetOf(x, k) as nat
  }

  /** The round function of four tables. */
  function F(s: seq<Word>): Word -> Word
    requires |s| == 1024
  {
    x => Plus(Xor2(Plus(s[ByteOf(x, 0)], s[256 + ByteOf(x, 1)]), s[512 + ByteOf(x, 2)]), s[768 + ByteOf(x, 3)])
  }

  class Blowfish {
    const p: array<Word>
    const s: array<Word>
    const block: array<Word>

    predicate Valid()
      reads this
    {
      p.Length == 18 && s.Length == 1024 && block.Length == 2 && p != s && p != block && s != block
    }

    constructor (p: array<Word>, s: array<Word>)
      requires p.Length == 18 && s.Length == 1024 && p != s
      ensures Valid() && this.p == p && this.s == s && fresh(block)
    {
      this.p, this.s := p, s;
      block := new Word[2](_ => 0);
    }

    /** Two rounds at a time, without swaps: the textbook cipher. */
    method Encipher()
      requires Valid()
      modifies block
      ensures (block[0], block[1]) == Encrypt(F(s[..]), p[..], old(block[0]), old(block[1]))
    {
      hide Xor2, F;
      ghost var f := F(s[..]);
      ghost var l, r := block[0], block[1];
      var xl, xr := Xor2(block[0], p[0]), block[1];
      var i := 1;
      while i < 16
        invariant 1 <= i <= 17 && i % 2 == 1
        invariant var (l', r') := Forward(f, p[..], i - 1, l, r); xl == Xor2(l', p[i - 1]) && xr == r'
      {
        xr := Xor2(Xor2(xr, F(s[..])(xl)), p[i]);
        xl := Xor2(Xor2(xl, F(s[..])(xr)), p[i + 1]);
        i := i + 2;
      }
      block[0] := Xor2(xr, p[17]);
      block[1] := xl;
    }

    /** The words of a buffer, enciphered pair by pair. */
    method EncryptWords(words: array<Word>)
      requires Valid() && words.Length % 2 == 0 && words != block && words != p && words != s
      modifies block, words
      ensures forall i | 0 <= i < words.Length / 2 ::
                (words[2 * i], words[2 * i + 1]) == Encrypt(F(s[..]), p[..], old(words[2 * i]), old(words[2 * i + 1]))
    {
      hide Encrypt, F;
      for i := 0 to words.Length / 2
        invariant p[..] == old(p[..]) && s[..] == old(s[..])
        invariant forall j | 0 <= j < words.Length / 2 ::
                    (words[2 * j], words[2 * j + 1])
                    == if j < i then Encrypt(F(s[..]), p[..], old(words[2 * j]), old(words[2 * j + 1]))
                       else (old(words[2 * j]), old(words[2 * j + 1]))
      {
        block[0], block[1] := words[2 * i], words[2 * i + 1];
        Encipher();
        words[2 * i], words[2 * i + 1] := block[0], block[1];
      }
    }
  }

  // ----- cyclic reading -----

  /** Byte n of the endless repetition of the data. */
  function Cyclic(data: Bytes, n: nat): bv8
    requires data != []
  {
    if n < |data| then data[n] else Cyclic(data, n - |data|)
  }

  /** The cursor after n bytes; it rests at the end before it wraps. */
  function Cursor(length: nat, n: nat): (j: nat)
    requires length > 0
    ensures j <= length
  {
    if n <= length then n else Cursor(length, n - length)
  }

  lemma {:induction false} CursorMoves(data: Bytes, n: nat)
    requires data != []
    ensures var j := Cursor(|data|, n);
            var at := if j >= |data| then 0 else j;
            data[at] == Cyclic(data, n) && Cursor(|data|, n + 1) == at + 1
    decreases n
  {
    if n > |data| {
      CursorMoves(data, n - |data|);
    }
  }

  function ShiftIn(word: Word, b: bv8): Word {
    (word << 8) | b as Word
  }

  /** The big-endian word of bytes n to n + k - 1 of the endless repetition. */
  function CyclicWord(data: Bytes, n: nat, k: nat): Word
    requires data != []
  {
    if k == 0 then 0 else ShiftIn(CyclicWord(data, n, k - 1), Cyclic(data, n + k - 1))
  }

  /** `streamToWord`: the next four bytes of the cyclic stream. */
  method StreamToWord(data: array<bv8>, from: nat, ghost n: nat) returns (word: Word, j: nat)
    requires data.Length > 0 && from == Cursor(data.Length, n)
    ensures word == CyclicWord(data[..], n, 4) && j == Cursor(data.Length, n + 4)
  {
    hide ShiftIn;
    word, j := 0, from;
    for i := 0 to 4
      invariant word == CyclicWord(data[..], n, i) && j == Cursor(data.Length, n + i)
    {
      CursorMoves(data[..], n + i);
      if j >= data.Length {
        j := 0;
      }
      word := ShiftIn(word, data[j]);
      j := j + 1;
    }
  }
}
