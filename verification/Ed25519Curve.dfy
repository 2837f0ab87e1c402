/** src/keyVault/ed25519.ts:10-51: arithmetic modulo P, and the points of the curve with their
    addition, against RFC 8032. */
module Ed25519Curve {
  // ----- powers -----

  function Product(factors: seq<int>): int {
    if factors == [] then 1 else factors[0] * Product(factors[1..])
  }

  /** The product of `n` factors `b`. */
  function Power(b: int, n: nat): int {
    Product(seq(n, i => b))
  }

  lemma PowerStep(b: int, n: nat)
    ensures Power(b, 0) == 1 && Power(b, n + 1) == b * Power(b, n)
  {
    assert seq(n + 1, i => b)[1..] == seq(n, i => b);
  }

  lemma {:induction false} PowerSquares(b: int, n: nat)
    ensures Power(b, 2 * n) == Power(b * b, n)
  {
    hide Power;
    if n == 0 {
      PowerStep(b, 0);
      PowerStep(b * b, 0);
    } else {
      PowerSquares(b, n - 1);
      PowerStep(b, 2 * n - 1);
      PowerStep(b, 2 * n - 2);
      PowerStep(b * b, n - 1);
      Associates(b, b, Power(b, 2 * n - 2));
    }
  }

  lemma OddPower(b: int, n: nat)
    requires n % 2 == 1
    ensures Power(b, n) == b * Power(b, 2 * (n / 2))
  {
    assert n == 2 * (n / 2) + 1;
    PowerStep(b, 2 * (n / 2));
    hide Power;
  }

  lemma Associates(x: int, y: int, z: int)
    ensures x * y * z == x * (y * z)
  {
  }

  /** Two binary digits of an odd exponent at a time. */
  lemma OddSquares(b: int, n: nat)
    ensures Power(b, 2 * n + 1) == b * Power(b * b, n)
  {
    PowerStep(b, 2 * n);
    PowerSquares(b, n);
  }

  lemma TwoTo255()
    ensures Power(2, 255) == 0x80000000_00000000_00000000_00000000_00000000_00000000_00000000_00000000
  {
    OddSquares(2, 127);
    OddSquares(4, 63);
    OddSquares(16, 31);
    OddSquares(0x100, 15);
    OddSquares(0x1_0000, 7);
    OddSquares(0x1_00000000, 3);
    OddSquares(0x1_00000000_00000000, 1);
    PowerStep(0x1_00000000_00000000_00000000_00000000, 0);
    hide Power;
  }

  // ----- arithmetic modulo P -----

  type Modulus = m: int | m > 2 witness 3

  const P: Modulus := (TwoTo255(); Power(2, 255) - 19)

  lemma PIs()
    ensures P == 0x7fffffff_ffffffff_ffffffff_ffffffff_ffffffff_ffffffff_ffffffff_ffffffed
  {
    TwoTo255();
  }

  /** The remainder of a bigint division, which takes the sign of the dividend. */
  function Rem(a: int): int {
    if a >= 0 then a % P else -((-a) % P)
  }

  function Mod(a: int): int {
    var r := Rem(a);
    if r >= 0 then r else r + P
  }

  /** There is one remainder. */
  lemma Remainder(a: int, q: int, r: int)
    requires a == P * q + r && 0 <= r < P
    ensures a % P == r
  {
    var d := q - a / P;
    assert P * d == a % P - r;
  }

  lemma ModIsModulo(a: int)
    ensures Mod(a) == a % P && 0 <= Mod(a) < P
  {
    if a < 0 {
      var q, r := (-a) / P, (-a) % P;
      assert -a == P * q + r;
      if r == 0 {
        Remainder(a, -q, 0);
      } else {
        Remainder(a, -q - 1, P - r);
      }
    }
  }

  /** Congruent modulo P. */
  predicate Same(a: int, b: int) {
    a % P == b % P
  }

  lemma Shift(a: int, k: int)
    ensures Same(a + P * k, a)
  {
    assert a + P * k == P * (a / P + k) + a % P;
    Remainder(a + P * k, a / P + k, a % P);
  }

  /** By how many P two congruent numbers differ. */
  lemma Apart(a: int, b: int) returns (k: int)
    requires Same(a, b)
    ensures a == b + P * k
  {
    k := a / P - b / P;
    assert a == P * (a / P) + a % P && b == P * (b / P) + b % P;
  }

  lemma SameAdd(a: int, a': int, b: int, b': int)
    requires Same(a, a') && Same(b, b')
    ensures Same(a + b, a' + b') && Same(a - b, a' - b')
  {
    hide Same;
    var k := Apart(a, a');
    var l := Apart(b, b');
    assert P * (k + l) == P * k + P * l && P * (k - l) == P * k - P * l;
    Shift(a' + b', k + l);
    Shift(a' - b', k - l);
  }

  lemma SameTimes(a: int, a': int, b: int)
    requires Same(a, a')
    ensures Same(a * b, a' * b)
  {
    hide Same;
    var k := Apart(a, a');
    assert (a' + P * k) * b == a' * b + P * (k * b);
    Shift(a' * b, k * b);
  }

  lemma SameMul(a: int, a': int, b: int, b': int)
    requires Same(a, a') && Same(b, b')
    ensures Same(a * b, a' * b')
  {
    SameTimes(a, a', b);
    SameTimes(b, b', a');
    assert a' * b == b * a' && b' * a' == a' * b';
    hide Same;
    SameTrans(a * b, a' * b, a' * b');
  }

  lemma SameItself(a: int)
    ensures Same(a, a)
  {
  }

  lemma SameTrans(a: int, b: int, c: int)
    requires (Same(a, b) || Same(b, a)) && (Same(b, c) || Same(c, b))
    ensures Same(a, c) && Same(c, a)
  {
  }

  /** Numbers below P are their own remainders. */
  lemma Small(a: int)
    requires 0 <= a < P
    ensures a % P == a
  {
    assert P * 0 == 0;
    Remainder(a, 0, a);
  }

  lemma SameMod(a: int)
    ensures Same(Mod(a), a)
  {
    ModIsModulo(a);
    hide Mod;
    Small(Mod(a));
  }

  /** The remainder itself is the one congruent number below P. */
  lemma Reduced(r: int, a: int)
    ensures Same(a % P, a) && (Same(r, a) && 0 <= r < P ==> r == a % P)
  {
    Small(a % P);
    if 0 <= r < P {
      Small(r);
    }
  }

  // ----- exponentiation -----

  lemma {:induction false} PowerSame(a: int, b: int, n: nat)
    requires Same(a, b)
    ensures Same(Power(a, n), Power(b, n))
  {
    hide Power, Same;
    if n > 0 {
      PowerSame(a, b, n - 1);
      SameMul(a, b, Power(a, n - 1), Power(b, n - 1));
      PowerStep(a, n - 1);
      PowerStep(b, n - 1);
    } else {
      PowerStep(a, 0);
      PowerStep(b, 0);
      SameItself(1);
    }
  }

  /** One round of square-and-multiply keeps result * b^e. */
  lemma SquareAndMultiply(result: int, b: int, e: nat)
    requires e > 0
    ensures var next := if e % 2 == 1 then Mod(result * b) else result;
            Same(next * Power(Mod(b * b), e / 2), result * Power(b, e))
  {
    var half := e / 2;
    var squared, even := Power(Mod(b * b), half), Power(b, 2 * half);
    assert Same(squared, even) by {
      SameMod(b * b);
      PowerSame(Mod(b * b), b * b, half);
      PowerSquares(b, half);
    }
    if e % 2 == 1 {
      OddPower(b, e);
      SameMod(result * b);
      SameMul(Mod(result * b), result * b, squared, even);
      Associates(result, b, even);
    } else {
      assert e == 2 * half;
      SameMul(result, result, squared, even);
    }
  }

  /** `pow` is exponentiation modulo P, for every base and exponent. */
  method Pow(base: int, exp: nat) returns (result: int)
    ensures result == Power(base, exp) % P
  {
    hide Same, Mod, Power;
    result := 1;
    var b, e := Mod(base), exp;
    SameMod(base);
    PowerSame(b, base, exp);
    while e > 0
      invariant Same(result * Power(b, e), Power(base, exp)) && 0 <= result < P
    {
      SquareAndMultiply(result, b, e);
      ghost var before := result * Power(b, e);
      if e % 2 == 1 {
        ModIsModulo(result * b);
        result := Mod(result * b);
      }
      b := Mod(b * b);
      e := e / 2;
      SameTrans(result * Power(b, e), before, Power(base, exp));
    }
    PowerStep(b, 0);
    Reduced(result, Power(base, exp));
  }

  function Inverse(a: int): int {
    Power(a, P - 2) % P
  }

  method InverseOf(a: int) returns (result: int)
    ensures result == Inverse(a)
  {
    result := Pow(a, P - 2);
  }

  /** The inverse inverts exactly where Fermat's theorem holds. */
  lemma InverseInverts(a: int)
    ensures Same(a * Inverse(a), 1) <==> Same(Power(a, P - 1), 1)
  {
    PowerStep(a, P - 2);
    Reduced(0, Power(a, P - 2));
    SameItself(a);
    SameMul(a, a, Inverse(a), Power(a, P - 2));
    hide Same, Inverse, Power;
    if Same(a * Inverse(a), 1) {
      SameTrans(Power(a, P - 1), a * Inverse(a), 1);
    }
    if Same(Power(a, P - 1), 1) {
      SameTrans(a * Inverse(a), Power(a, P - 1), 1);
    }
  }

  // ----- the curve -----

  const BASE_X: int := 15112221349535400772501151409588531511454012693041857206046113283949847762202
  const BASE_Y: int := 46316835694926478169428394003475163141307993866256225615783033603165251855960

  /** The constant d of section 5.1 of RFC 8032. */
  const RFC_D: int := 37095705934669439343138083508754565189542113879843219016388785533085940283555

  function D(): int {
    Mod(-121665 * Inverse(121666))
  }

  function D2(): int {
    Mod(2 * D())
  }

  /** The source's d is that of the RFC. */
  lemma DIsRfc()
    requires Same(Power(121666, P - 1), 1)
    ensures D() == RFC_D
  {
    var i := Inverse(121666);
    InverseInverts(121666);
    RfcDIsAFraction();
    hide Inverse, Same, Power;
    SameItself(i);
    SameItself(RFC_D);
    SameMul(RFC_D * 121666, -121665, i, i);
    SameMul(RFC_D, RFC_D, 121666 * i, 1);
    Associates(RFC_D, 121666, i);
    SameTrans(RFC_D, RFC_D * (121666 * i), -121665 * i);
    PIs();
    Reduced(RFC_D, -121665 * i);
    ModIsModulo(-121665 * i);
  }

  lemma RfcDIsAFraction()
    ensures Same(RFC_D * 121666, -121665)
  {
    PIs();
    Shift(-121665, (RFC_D * 121666 + 121665) / 0x7fffffff_ffffffff_ffffffff_ffffffff_ffffffff_ffffffff_ffffffff_ffffffed);
  }

  /** The base point is on the curve and has y = 4/5. */
  lemma BaseIsOnCurve()
    ensures Same(BASE_Y * BASE_Y - BASE_X * BASE_X, 1 + RFC_D * (BASE_X * BASE_X) * (BASE_Y * BASE_Y))
    ensures Same(5 * BASE_Y, 4) && BASE_X % 2 == 0
  {
    PIs();
    var p := 0x7fffffff_ffffffff_ffffffff_ffffffff_ffffffff_ffffffff_ffffffff_ffffffed;
    var left, right := BASE_Y * BASE_Y - BASE_X * BASE_X, 1 + RFC_D * (BASE_X * BASE_X) * (BASE_Y * BASE_Y);
    Shift(left, (right - left) / p);
    Shift(4, (5 * BASE_Y - 4) / p);
  }

  /** Extended coordinates: x = X/Z, y = Y/Z, xy = T/Z. */
  datatype Point = Point(x: int, y: int, z: int, t: int)

  const ZERO: Point := Point(0, 1, 1, 0)
  const BASE: Point := Point(BASE_X, BASE_Y, 1, Mod(BASE_X * BASE_Y))

  function Add(p: Point, q: Point): Point {
    var a := Mod((p.y - p.x) * (q.y - q.x));
    var b := Mod((p.y + p.x) * (q.y + q.x));
    var c := Mod(p.t * D2() * q.t);
    var d := Mod(p.z * 2 * q.z);
    var e, f, g, h := b - a, d - c, d + c, b + a;
    Point(Mod(e * f), Mod(g * h), Mod(f * g), Mod(e * h))
  }

  /** The extended coordinate is kept: X * Y and Z * T agree. */
  predicate Extended(p: Point) {
    Same(p.x * p.y, p.z * p.t)
  }

  lemma AddIsExtended(p: Point, q: Point)
    ensures Extended(Add(p, q))
  {
    hide Mod, D2;
    var a, b := Mod((p.y - p.x) * (q.y - q.x)), Mod((p.y + p.x) * (q.y + q.x));
    var c, d := Mod(p.t * D2() * q.t), Mod(p.z * 2 * q.z);
    var e, f, g, h := b - a, d - c, d + c, b + a;
    SameMod(e * f);
    SameMod(g * h);
    SameMod(f * g);
    SameMod(e * h);
    SameMul(Mod(e * f), e * f, Mod(g * h), g * h);
    SameMul(Mod(f * g), f * g, Mod(e * h), e * h);
    Rearranged(e, f, g, h);
  }

  lemma Rearranged(e: int, f: int, g: int, h: int)
    ensures (e * f) * (g * h) == (f * g) * (e * h)
  {
  }

  /** The four intermediate values, up to congruence. */
  lemma Intermediates(p: Point, q: Point)
    ensures var a, b := Mod((p.y - p.x) * (q.y - q.x)), Mod((p.y + p.x) * (q.y + q.x));
            Same(b - a, 2 * (p.x * q.y + p.y * q.x)) && Same(b + a, 2 * (p.y * q.y + p.x * q.x))
    ensures var c, d := Mod(p.t * D2() * q.t), Mod(p.z * 2 * q.z);
            && Same(d - c, 2 * (p.z * q.z - D() * p.t * q.t))
            && Same(d + c, 2 * (p.z * q.z + D() * p.t * q.t))
  {
    hide Same, Mod, D, D2;
    SameMod((p.y - p.x) * (q.y - q.x));
    SameMod((p.y + p.x) * (q.y + q.x));
    SameAdd(Mod((p.y + p.x) * (q.y + q.x)), (p.y + p.x) * (q.y + q.x), Mod((p.y - p.x) * (q.y - q.x)), (p.y - p.x) * (q.y - q.x));
    TwiceD(p.t, q.t);
    SameMod(p.z * 2 * q.z);
    SameAdd(Mod(p.z * 2 * q.z), p.z * 2 * q.z, Mod(p.t * D2() * q.t), 2 * (D() * p.t * q.t));
    assert p.z * 2 * q.z == 2 * (p.z * q.z);
  }

  lemma TwiceD(t1: int, t2: int)
    ensures Same(Mod(t1 * D2() * t2), 2 * (D() * t1 * t2))
  {
    hide Same, Mod, D;
    SameMod(t1 * D2() * t2);
    Scaled(2 * D(), t1 * t2);
    assert t1 * D2() * t2 == D2() * (t1 * t2);
    assert 2 * D() * (t1 * t2) == 2 * (D() * t1 * t2);
    SameTrans(Mod(t1 * D2() * t2), D2() * (t1 * t2), 2 * (D() * t1 * t2));
  }

  /** `add` is the addition law of section 5.1.4 of RFC 8032: with x = X/Z and y = Y/Z, the
      new x is (x1 y2 + y1 x2) / (1 + d x1 x2 y1 y2), and the new y (y1 y2 + x1 x2) / (1 - d x1 x2 y1 y2). */
  lemma AddIsTheLaw(p: Point, q: Point)
    ensures var s := Add(p, q);
            var product := D() * p.t * q.t;
            && Same(s.x * (p.z * q.z + product), s.z * (p.x * q.y + p.y * q.x))
            && Same(s.y * (p.z * q.z - product), s.z * (p.y * q.y + p.x * q.x))
  {
    hide Same, Mod, D, D2;
    var a, b := Mod((p.y - p.x) * (q.y - q.x)), Mod((p.y + p.x) * (q.y + q.x));
    var c, d := Mod(p.t * D2() * q.t), Mod(p.z * 2 * q.z);
    var product := D() * p.t * q.t;
    Intermediates(p, q);
    Quotient(b - a, d - c, d + c, p.x * q.y + p.y * q.x, p.z * q.z + product);
    Quotient(b + a, d + c, d - c, p.y * q.y + p.x * q.x, p.z * q.z - product);
    assert (d + c) * (b + a) == (b + a) * (d + c) && (d - c) * (d + c) == (d + c) * (d - c);
  }

  /** From 2n / 2m: e f / (f g) is n / m. */
  lemma Quotient(e: int, f: int, g: int, n: int, m: int)
    requires Same(e, 2 * n) && Same(g, 2 * m)
    ensures Same(Mod(e * f) * m, Mod(f * g) * n)
  {
    hide Same, Mod;
    Scaled(e * f, m);
    Scaled(f * g, n);
    SameTimes(e, 2 * n, f * m);
    SameTimes(g, 2 * m, f * n);
    var left, middle, right := e * (f * m), 2 * n * (f * m), g * (f * n);
    assert e * f * m == left && f * g * n == right && 2 * m * (f * n) == middle;
    SameTrans(Mod(e * f) * m, left, middle);
    SameTrans(middle, right, Mod(f * g) * n);
    SameTrans(Mod(e * f) * m, middle, Mod(f * g) * n);
  }

  lemma Scaled(a: int, b: int)
    ensures Same(Mod(a) * b, a * b)
  {
    SameMod(a);
    SameTimes(Mod(a), a, b);
  }

  // ----- the points of the curve -----

  /** Extended coordinates of a point of the curve, with a Z that can be divided by. */
  predicate OnCurve(p: Point) {
    !Same(p.z, 0) && Extended(p) && Same(p.y * p.y - p.x * p.x, p.z * p.z + D() * (p.t * p.t))
  }

  /** The same point: the same X/Z and the same Y/Z. */
  predicate SamePoint(p: Point, q: Point) {
    Same(p.x * q.z, q.x * p.z) && Same(p.y * q.z, q.y * p.z)
  }

  /** Fermat's theorem for P. */
  ghost predicate Fermat() {
    forall a :: FermatAt(a)
  }

  ghost predicate FermatAt(a: int) {
    !Same(a, 0) ==> Same(Power(a, P - 1), 1)
  }

  /** What is not zero can be cancelled. */
  lemma Cancel(a: int, b: int, z: int)
    requires Same(a * z, b * z) && !Same(z, 0) && FermatAt(z)
    ensures Same(a, b)
  {
    var i := Inverse(z);
    InverseInverts(z);
    hide Inverse, Same;
    SameItself(i);
    SameMul(a * z, b * z, i, i);
    Times(a, z, i);
    Times(b, z, i);
    SameTrans(a, a * z * i, b * z * i);
    SameTrans(a, b * z * i, b);
  }

  /** Multiplied by a number and its inverse. */
  lemma Times(a: int, z: int, i: int)
    requires Same(z * i, 1)
    ensures Same(a * z * i, a)
  {
    SameItself(a);
    SameMul(a, a, z * i, 1);
    Associates(a, z, i);
  }

  lemma Swap(a: int, b: int, c: int)
    ensures a * b * c == a * c * b
  {
  }

  lemma CoordinateTrans(px: int, pz: int, qx: int, qz: int, rx: int, rz: int)
    requires Same(px * qz, qx * pz) && Same(qx * rz, rx * qz) && !Same(qz, 0) && FermatAt(qz)
    ensures Same(px * rz, rx * pz)
  {
    hide Same;
    SameItself(rz);
    SameItself(pz);
    SameMul(px * qz, qx * pz, rz, rz);
    SameMul(qx * rz, rx * qz, pz, pz);
    Swap(px, qz, rz);
    Swap(qx, pz, rz);
    Swap(rx, qz, pz);
    SameTrans(px * rz * qz, qx * rz * pz, rx * pz * qz);
    Cancel(px * rz, rx * pz, qz);
  }

  lemma SamePointTrans(p: Point, q: Point, r: Point)
    requires Fermat() && OnCurve(q) && SamePoint(p, q) && SamePoint(q, r)
    ensures SamePoint(p, r)
  {
    assert FermatAt(q.z);
    hide Same, FermatAt;
    CoordinateTrans(p.x, p.z, q.x, q.z, r.x, r.z);
    CoordinateTrans(p.y, p.z, q.y, q.z, r.y, r.z);
  }

  lemma ZeroIsOnCurve()
    ensures OnCurve(ZERO)
  {
    hide D;
    assert D() * (0 * 0) == 0;
  }

  lemma ZeroAdds(p: Point)
    ensures SamePoint(Add(ZERO, p), p) && SamePoint(Add(p, ZERO), p)
  {
    AddIsTheLaw(ZERO, p);
    AddIsTheLaw(p, ZERO);
    hide Add, Same, D;
    assert D() * 0 * p.t == 0 && D() * p.t * 0 == 0;
    var s, t := Add(ZERO, p), Add(p, ZERO);
    assert s.z * p.x == p.x * s.z && s.z * p.y == p.y * s.z && t.z * p.x == p.x * t.z && t.z * p.y == p.y * t.z;
  }
}
