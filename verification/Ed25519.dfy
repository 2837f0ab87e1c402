/** src/keyVault/ed25519.ts: an Ed25519 public key from its seed, against RFC 8032.

    That P is prime (`Fermat`), that d is no square and that the addition is associative are
    hypotheses where a result needs them. */
module Ed25519 {
  import opened Multiples
  import opened Ed25519Curve
  import opened Ed25519Law

  // ----- multiples of a point -----

  /** k times the point, added up. */
  function Sum(k: nat, point: Point): Point {
    Multiple(Edwards(), k, point)
  }

  /** `multiply` is double-and-add, and so the k-fold sum of every point of the curve. */
  method Multiply(scalar: nat, point: Point) returns (result: Point)
    ensures result == DoubleAndAdd(Edwards(), scalar, ZERO, point)
    ensures Fermat() && NoSquare() && Associative() && OnCurve(point) ==>
              SamePoint(result, Sum(scalar, point)) && OnCurve(result) && OnCurve(Sum(scalar, point))
  {
    hide Add, OnCurve, SamePoint;
    result := ZERO;
    var addend, k := point, scalar;
    while k > 0
      invariant DoubleAndAdd(Edwards(), k, result, addend) == DoubleAndAdd(Edwards(), scalar, ZERO, point)
    {
      if k % 2 == 1 {
        result := Add(result, addend);
      }
      addend := Add(addend, addend);
      k := k / 2;
    }
    if Fermat() && NoSquare() && Associative() && OnCurve(point) {
      MultiplyMeans(scalar, point);
    }
  }

  lemma MultiplyMeans(scalar: nat, point: Point)
    requires Fermat() && NoSquare() && Associative() && OnCurve(point)
    ensures var result := DoubleAndAdd(Edwards(), scalar, ZERO, point);
            SamePoint(result, Sum(scalar, point)) && OnCurve(result) && OnCurve(Sum(scalar, point))
  {
    EdwardsIsMonoid();
    hide Add, OnCurve, SamePoint, IsMonoid;
    MultiplySums(Edwards(), scalar, point);
  }

  // ----- bytes -----

  type u8 = x: nat | x < 256

  /** Section 5.1.2 of RFC 8032: little-endian. */
  function LittleEndian(bytes: seq<u8>): nat {
    if bytes == [] then 0 else bytes[0] + 256 * LittleEndian(bytes[1..])
  }

  function Power256(n: nat): nat {
    if n == 0 then 1 else 256 * Power256(n - 1)
  }

  lemma {:induction false} LittleEndianSnoc(bytes: seq<u8>, b: u8)
    ensures LittleEndian(bytes + [b]) == LittleEndian(bytes) + Power256(|bytes|) * b
  {
    if bytes == [] {
      assert [b][1..] == [];
    } else {
      assert (bytes + [b])[1..] == bytes[1..] + [b];
      LittleEndianSnoc(bytes[1..], b);
      assert 256 * (Power256(|bytes| - 1) * b) == Power256(|bytes|) * b;
    }
  }

  lemma {:induction false} LittleEndianBound(bytes: seq<u8>)
    ensures LittleEndian(bytes) < Power256(|bytes|)
  {
    if bytes != [] {
      LittleEndianBound(bytes[1..]);
    }
  }

  /** `b | (bit << 7)` for a bit. */
  function SetTop(b: u8, bit: nat): u8
    requires bit < 2
  {
    if bit == 1 && b < 128 then b + 128 else b
  }

  lemma Powers()
    ensures Power256(31) == 0x1_00000000_00000000_00000000_00000000_00000000_00000000_00000000_000000
    ensures Power256(32) == 256 * Power256(31)
  {
    assert Power256(4) == 0x1_00000000;
    assert Power256(8) == 0x1_00000000_00000000;
    assert Power256(16) == 0x1_00000000_00000000_00000000_00000000;
    assert Power256(24) == 0x1_00000000_00000000_00000000_00000000_00000000_00000000;
  }

  // ----- encoding -----

  function X(p: Point): int {
    Mod(p.x * Inverse(p.z))
  }

  function Y(p: Point): int {
    Mod(p.y * Inverse(p.z))
  }

  /** The same point has the same affine coordinates. */
  lemma SameAffine(p: Point, q: Point)
    ensures Fermat() && OnCurve(p) && OnCurve(q) && SamePoint(p, q) ==> X(p) == X(q) && Y(p) == Y(q)
  {
    if Fermat() && OnCurve(p) && OnCurve(q) && SamePoint(p, q) {
      assert FermatAt(p.z) && FermatAt(q.z);
      InverseInverts(p.z);
      InverseInverts(q.z);
      SameQuotient(p.x, p.z, Inverse(p.z), q.x, q.z, Inverse(q.z));
      SameQuotient(p.y, p.z, Inverse(p.z), q.y, q.z, Inverse(q.z));
      hide Inverse, Power;
      ModIsModulo(p.x * Inverse(p.z));
      ModIsModulo(q.x * Inverse(q.z));
      ModIsModulo(p.y * Inverse(p.z));
      ModIsModulo(q.y * Inverse(q.z));
    }
  }

  lemma SameQuotient(a: int, z: int, i: int, b: int, w: int, j: int)
    requires Same(a * w, b * z) && Same(z * i, 1) && Same(w * j, 1)
    ensures Same(a * i, b * j)
  {
    hide Same;
    SameItself(i * j);
    SameMul(a * w, b * z, i * j, i * j);
    Times(a * i, w, j);
    Times(b * j, z, i);
    assert a * w * (i * j) == a * i * w * j && b * z * (i * j) == b * j * z * i;
    SameTrans(a * i, a * w * (i * j), b * z * (i * j));
    SameTrans(a * i, b * z * (i * j), b * j);
  }

  /** The y coordinate of an encoding, and the parity of x in its top bit. */
  function DecodedY(bytes: seq<u8>): nat
    requires |bytes| == 32
  {
    LittleEndian(bytes[..31] + [bytes[31] % 128])
  }

  function DecodedSign(bytes: seq<u8>): nat
    requires |bytes| == 32
  {
    bytes[31] / 128
  }

  lemma {:induction false} Chunk(y: nat, bytes: seq<u8>, rest: nat)
    requires y == LittleEndian(bytes) + Power256(|bytes|) * rest
    ensures y == LittleEndian(bytes + [rest % 256]) + Power256(|bytes| + 1) * (rest / 256)
  {
    LittleEndianSnoc(bytes, rest % 256);
    var p := Power256(|bytes|);
    assert p * rest == p * (rest % 256) + p * (256 * (rest / 256));
    assert p * (256 * (rest / 256)) == 256 * p * (rest / 256);
  }

  lemma Top(low: seq<u8>, top: u8)
    requires |low| == 31 && LittleEndian(low + [top]) < P
    ensures top < 128
  {
    LittleEndianSnoc(low, top);
    LittleEndianBound(low);
    Powers();
    PIs();
  }

  /** `encode` writes y and the parity of x so that both can be read back. */
  method Encode(point: Point) returns (out: seq<u8>)
    ensures |out| == 32 && DecodedY(out) == Y(point) && DecodedSign(out) == X(point) % 2
  {
    hide Inverse;
    var zi := InverseOf(point.z);
    var ax, y := Mod(point.x * zi), Mod(point.y * zi);
    ModIsModulo(point.y * zi);
    var ay := y;
    out := [];
    assert LittleEndian(out) == 0 && Power256(0) == 1;
    hide LittleEndian, Power256, Mod;
    for i := 0 to 32
      invariant |out| == i && ay >= 0 && y == LittleEndian(out) + Power256(i) * ay
    {
      Chunk(y, out, ay);
      out := out + [ay % 256];
      ay := ay / 256;
    }
    Whole(y, out, ay);
    var low, top := out[..31], out[31];
    assert out == low + [top];
    Top(low, top);
    out := out[31 := SetTop(top, ax % 2)];
    assert out[..31] == low;
  }

  lemma Whole(y: nat, bytes: seq<u8>, rest: nat)
    requires y < P && |bytes| == 32 && y == LittleEndian(bytes) + Power256(32) * rest
    ensures y == LittleEndian(bytes)
  {
    Powers();
    PIs();
    var p := 0x1_00000000_00000000_00000000_00000000_00000000_00000000_00000000_00000000;
    assert Power256(32) * rest == p * rest;
  }

  // ----- the scalar -----

  /** `& 248`, `& 127` and `| 64` on a byte. */
  function ClampLow(b: u8): u8 {
    b / 8 * 8
  }

  function ClampHigh(b: u8): u8 {
    if b % 128 < 64 then b % 128 + 64 else b % 128
  }

  /** Section 5.1.5 of RFC 8032. */
  function Clamped(h: seq<u8>): (r: seq<u8>)
    requires |h| == 32
    ensures |r| == 32
  {
    [ClampLow(h[0])] + h[1..31] + [ClampHigh(h[31])]
  }

  lemma Bounds(low: seq<u8>, top: u8)
    requires |low| == 31
    ensures var s := LittleEndian(low + [top]); Power256(31) * top <= s < Power256(31) * (top + 1)
  {
    LittleEndianSnoc(low, top);
    LittleEndianBound(low);
  }

  /** The clamped scalar is a multiple of 8 between 2^254 and 2^255. */
  lemma ClampedScalar(h: seq<u8>)
    requires |h| == 32
    ensures var s := LittleEndian(Clamped(h));
            && s % 8 == 0
            && 0x40000000_00000000_00000000_00000000_00000000_00000000_00000000_00000000 <= s
            && s < 0x80000000_00000000_00000000_00000000_00000000_00000000_00000000_00000000
  {
    var low, top := [ClampLow(h[0])] + h[1..31], ClampHigh(h[31]);
    assert Clamped(h) == low + [top];
    assert 64 <= top < 128;
    Bounds(low, top);
    Powers();
    hide LittleEndian, Clamped;
    var p := Power256(31);
    assert p * 64 <= p * top && p * (top + 1) <= p * 128;
  }

  /** Clamping clears the three lowest bits and the top bit, sets the next, and keeps all others. */
  lemma ClampKeeps(h: seq<u8>)
    requires |h| == 32
    ensures Clamped(h)[1..31] == h[1..31]
    ensures Clamped(h)[0] % 8 == 0 && Clamped(h)[0] / 8 == h[0] / 8
    ensures Clamped(h)[31] / 64 == 1 && Clamped(h)[31] % 64 == h[31] % 64
  {
  }

  method Clamp(h: array<u8>)
    requires h.Length == 64
    modifies h
    ensures h[..32] == Clamped(old(h[..32]))
  {
    h[0] := ClampLow(h[0]);
    h[31] := ClampHigh(h[31]);
  }

  lemma Prepended(bytes: seq<u8>, i: nat)
    requires i < |bytes|
    ensures LittleEndian(bytes[i..]) == LittleEndian(bytes[i + 1..]) * 256 + bytes[i]
  {
    assert bytes[i..][1..] == bytes[i + 1..];
  }

  /** The scalar, folded from the top byte down, and the hash wiped. */
  method FoldScalar(h: array<u8>) returns (scalar: nat)
    requires h.Length == 64
    modifies h
    ensures scalar == LittleEndian(Clamped(old(h[..32])))
    ensures forall i | 0 <= i < 64 :: h[i] == 0
  {
    hide LittleEndian, Clamped;
    Clamp(h);
    scalar := Fold(h);
    forall k | 0 <= k < 64 {
      h[k] := 0;
    }
  }

  method Fold(h: array<u8>) returns (scalar: nat)
    requires h.Length == 64
    ensures scalar == LittleEndian(h[..32])
  {
    hide LittleEndian;
    ghost var bytes := h[..32];
    scalar := 0;
    Empty(bytes);
    for i := 32 downto 0
      invariant scalar == LittleEndian(bytes[i..])
    {
      Prepended(bytes, i);
      scalar := scalar * 256 + h[i];
    }
    assert bytes[0..] == bytes;
  }

  lemma Empty(bytes: seq<u8>)
    requires |bytes| == 32
    ensures LittleEndian(bytes[32..]) == 0
  {
  }

  /** A solution of the affine curve equation, with Z = 1, is a point of the curve. */
  lemma PointOfCurve(x: int, y: int)
    requires Same(y * y - x * x, 1 + D() * (x * x) * (y * y))
    ensures OnCurve(Point(x, y, 1, Mod(x * y)))
  {
    var t, d := Mod(x * y), D();
    SameMod(x * y);
    Small(1);
    Small(0);
    hide Same, Mod, D;
    SameMul(t, x * y, t, x * y);
    SameItself(d);
    SameMul(d, d, t * t, (x * y) * (x * y));
    assert (x * y) * (x * y) == (x * x) * (y * y);
    assert d * ((x * x) * (y * y)) == d * (x * x) * (y * y);
    SameItself(1);
    SameAdd(1, 1, d * (t * t), d * (x * x) * (y * y));
    SameTrans(y * y - x * x, 1 + d * (x * x) * (y * y), 1 + d * (t * t));
    SameTrans(x * y, t, t);
    assert 1 * t == t && 1 * 1 == 1;
  }

  /** Fermat's theorem at 121666, by which the source finds d. */
  lemma FermatForD()
    requires Fermat()
    ensures Same(Power(121666, P - 1), 1)
  {
    PIs();
    Small(121666);
    Small(0);
    assert FermatAt(121666);
  }

  /** `ed25519PublicFromSeed`, after the seed was hashed into `h`: the encoding of the base
      point, added up as often as the clamped scalar says. */
  method PublicFromHash(h: array<u8>) returns (out: seq<u8>)
    requires h.Length == 64
    modifies h
    ensures |out| == 32 && forall i | 0 <= i < 64 :: h[i] == 0
    ensures Fermat() && NoSquare() && Associative() ==>
              var public := Sum(LittleEndian(Clamped(old(h[..32]))), BASE);
              DecodedY(out) == Y(public) && DecodedSign(out) == X(public) % 2
  {
    hide OnCurve, SamePoint, Add, Clamped, D, X, Y, DecodedY, DecodedSign, Same, Mod, Fermat, Power;
    var scalar := FoldScalar(h);
    var point := Multiply(scalar, BASE);
    out := Encode(point);
    if Fermat() && NoSquare() && Associative() {
      FermatForD();
      DIsRfc();
      BaseIsOnCurve();
      PointOfCurve(BASE_X, BASE_Y);
      SameAffine(point, Sum(scalar, BASE));
    }
  }
}
