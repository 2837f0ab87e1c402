/** What the addition of src/keyVault/ed25519.ts:41-51 is on the points of the curve. */
module Ed25519Law {
  import opened Multiples
  import opened Ed25519Curve

  function Edwards(): Addition<Point> {
    Addition(OnCurve, SamePoint, Add, ZERO)
  }

  /** Not proved here: on the points of the curve the addition is associative. */
  ghost predicate Associative() {
    forall p, q, r :: Reassociates(Edwards(), p, q, r)
  }

  // ----- polynomials modulo P -----

  /** What differs by a multiple of the difference of congruent numbers is congruent. */
  lemma Linear(left: int, right: int, c: int, a: int, b: int)
    requires Same(a, b) && left - right == c * (a - b)
    ensures Same(left, right)
  {
    var k := Apart(a, b);
    assert c * (P * k) == P * (c * k);
    hide Same;
    Shift(right, c * k);
  }

  /** The same of two. */
  lemma Linear2(left: int, right: int, c: int, a: int, b: int, c': int, a': int, b': int)
    requires Same(a, b) && Same(a', b') && left - right == c * (a - b) + c' * (a' - b')
    ensures Same(left, right)
  {
    var middle := right + c' * (a' - b');
    hide Same;
    Linear(left, middle, c, a, b);
    Linear(middle, right, c', a', b');
    SameTrans(left, middle, right);
  }

  // ----- the sum, in the terms of the law -----

  /** The four numerators and denominators of the addition law. */
  function E(p: Point, q: Point): int {
    p.x * q.y + p.y * q.x
  }

  function F(p: Point, q: Point): int {
    p.z * q.z - D() * (p.t * q.t)
  }

  function G(p: Point, q: Point): int {
    p.z * q.z + D() * (p.t * q.t)
  }

  function H(p: Point, q: Point): int {
    p.y * q.y + p.x * q.x
  }

  lemma Doubled(e: int, f: int, m: int, n: int)
    requires Same(e, 2 * m) && Same(f, 2 * n)
    ensures Same(Mod(e * f), 4 * (m * n))
  {
    hide Same, Mod;
    SameMod(e * f);
    SameMul(e, 2 * m, f, 2 * n);
    assert 2 * m * (2 * n) == 4 * (m * n);
    SameTrans(Mod(e * f), e * f, 4 * (m * n));
  }

  lemma AddIs(p: Point, q: Point)
    ensures var s := Add(p, q);
            && Same(s.x, 4 * (E(p, q) * F(p, q))) && Same(s.y, 4 * (G(p, q) * H(p, q)))
            && Same(s.z, 4 * (F(p, q) * G(p, q))) && Same(s.t, 4 * (E(p, q) * H(p, q)))
  {
    hide Same, Mod, D, D2;
    var a, b := Mod((p.y - p.x) * (q.y - q.x)), Mod((p.y + p.x) * (q.y + q.x));
    var c, d := Mod(p.t * D2() * q.t), Mod(p.z * 2 * q.z);
    Intermediates(p, q);
    assert D() * p.t * q.t == D() * (p.t * q.t);
    Doubled(b - a, d - c, E(p, q), F(p, q));
    Doubled(d + c, b + a, G(p, q), H(p, q));
    Doubled(d - c, d + c, F(p, q), G(p, q));
    Doubled(b - a, b + a, E(p, q), H(p, q));
  }

  // ----- the sum is on the curve -----

  lemma SquareIs(x: int, y: int)
    ensures (y * y + x * x) * (y * y + x * x) == (y * y - x * x) * (y * y - x * x) + 4 * (x * y * (x * y))
  {
  }

  lemma DifferenceIs(x1: int, y1: int, x2: int, y2: int)
    ensures var e, h := x1 * y2 + y1 * x2, y1 * y2 + x1 * x2;
            h * h - e * e == (y1 * y1 - x1 * x1) * (y2 * y2 - x2 * x2)
  {
  }

  lemma TotalIs(x1: int, y1: int, x2: int, y2: int)
    ensures var e, h := x1 * y2 + y1 * x2, y1 * y2 + x1 * x2;
            h * h + e * e == (y1 * y1 + x1 * x1) * (y2 * y2 + x2 * x2) + 4 * (x1 * y1 * (x2 * y2))
  {
  }

  lemma ProductIs(x1: int, y1: int, x2: int, y2: int)
    ensures var e, h := x1 * y2 + y1 * x2, y1 * y2 + x1 * x2;
            e * h == x1 * y1 * (y2 * y2 + x2 * x2) + x2 * y2 * (y1 * y1 + x1 * x1)
  {
  }

  lemma LeftIs(z: int, t: int, d: int, u: int, v: int)
    ensures var f, g := z - d * t, z + d * t;
            g * g * u - f * f * v == (z * z + d * t * (d * t)) * (u - v) + 2 * (d * t) * z * (u + v)
  {
    var m := d * t;
    assert (z + m) * (z + m) == z * z + 2 * m * z + m * m && (z - m) * (z - m) == z * z - 2 * m * z + m * m;
    assert (z * z + 2 * m * z + m * m) * u - (z * z - 2 * m * z + m * m) * v == (z * z + m * m) * (u - v) + 2 * m * z * (u + v);
  }

  /** The identity behind the curve equation of a sum, for a = z1², b = d t1², c = z2², e = d t2². */
  lemma Balance(a: int, b: int, c: int, e: int)
    ensures (a * c + b * e) * ((a + b) * (c + e)) == (a * c - b * e) * (a * c - b * e) + (a * b * ((c + e) * (c + e)) + c * e * ((a + b) * (a + b)))
  {
  }

  /** The right sides of the curve equation and of X Y = Z T. */
  function Right(p: Point): int {
    p.z * p.z + D() * (p.t * p.t)
  }

  function Left(p: Point): int {
    p.y * p.y - p.x * p.x
  }

  function Norm(p: Point): int {
    p.y * p.y + p.x * p.x
  }

  lemma NormSquare(p: Point)
    requires OnCurve(p)
    ensures Same(Norm(p) * Norm(p), Right(p) * Right(p) + 4 * (p.z * p.t * (p.z * p.t)))
  {
    hide Same, D;
    var c, x, n := Left(p), p.x * p.y, p.z * p.t;
    SameMul(c, Right(p), c, Right(p));
    SameMul(x, n, x, n);
    SquareIs(p.x, p.y);
    hide Left, Right;
    Linear2(Norm(p) * Norm(p), Right(p) * Right(p) + 4 * (n * n), 1, c * c, Right(p) * Right(p), 4, x * x, n * n);
  }

  /** The left side of the curve equation of a sum. */
  function SumLeft(p: Point, q: Point): int {
    G(p, q) * G(p, q) * (H(p, q) * H(p, q)) - F(p, q) * F(p, q) * (E(p, q) * E(p, q))
  }

  function SumMiddle(p: Point, q: Point): int {
    var z, m, n := p.z * q.z, D() * (p.t * q.t), p.z * p.t * (q.z * q.t);
    (z * z + m * m) * (Right(p) * Right(q)) + 2 * m * z * (Norm(p) * Norm(q) + 4 * n)
  }

  lemma LeftMiddle(p: Point, q: Point)
    requires OnCurve(p) && OnCurve(q)
    ensures Same(SumLeft(p, q), SumMiddle(p, q))
  {
    hide Same, D;
    var z, m, n := p.z * q.z, D() * (p.t * q.t), p.z * p.t * (q.z * q.t);
    var x := p.x * p.y * (q.x * q.y);
    var e, h := E(p, q), H(p, q);
    SameMul(Left(p), Right(p), Left(q), Right(q));
    SameMul(p.x * p.y, p.z * p.t, q.x * q.y, q.z * q.t);
    LeftIs(z, p.t * q.t, D(), h * h, e * e);
    DifferenceIs(p.x, p.y, q.x, q.y);
    TotalIs(p.x, p.y, q.x, q.y);
    var total := Norm(p) * Norm(q);
    assert SumLeft(p, q) == (z * z + m * m) * (Left(p) * Left(q)) + 2 * m * z * (total + 4 * x);
    hide E, F, G, H, Left, Right, Norm;
    LinearPair(z * z + m * m, Left(p) * Left(q), Right(p) * Right(q), 2 * m * z, total, x, n);
  }

  lemma LinearPair(k: int, a: int, b: int, l: int, total: int, x: int, n: int)
    requires Same(a, b) && Same(x, n)
    ensures Same(k * a + l * (total + 4 * x), k * b + l * (total + 4 * n))
  {
    hide Same;
    assert k * a + l * (total + 4 * x) - (k * b + l * (total + 4 * n)) == k * (a - b) + l * 4 * (x - n);
    Linear2(k * a + l * (total + 4 * x), k * b + l * (total + 4 * n), k, a, b, l * 4, x, n);
  }

  /** The right side of the curve equation of a sum. */
  function SumRight(p: Point, q: Point): int {
    F(p, q) * G(p, q) * (F(p, q) * G(p, q)) + D() * (E(p, q) * H(p, q) * (E(p, q) * H(p, q)))
  }

  /** The square of the fourth coordinate, with the squares of the norms written out. */
  function CrossSquare(p: Point, q: Point): int {
    var m, n := p.z * p.t, q.z * q.t;
    m * m * (Right(q) * Right(q) + 4 * (n * n)) + n * n * (Right(p) * Right(p) + 4 * (m * m)) + 2 * (m * n) * (Norm(p) * Norm(q))
  }

  lemma CrossMod(p: Point, q: Point)
    requires OnCurve(p) && OnCurve(q)
    ensures Same(E(p, q) * H(p, q) * (E(p, q) * H(p, q)), CrossSquare(p, q))
  {
    hide Same, D;
    var m, n, s, t := p.z * p.t, q.z * q.t, Norm(p), Norm(q);
    var cross, mixed := E(p, q) * H(p, q), m * t + n * s;
    ProductIs(p.x, p.y, q.x, q.y);
    assert cross == p.x * p.y * t + q.x * q.y * s;
    hide E, H;
    assert cross - mixed == t * (p.x * p.y - m) + s * (q.x * q.y - n);
    Linear2(cross, mixed, t, p.x * p.y, m, s, q.x * q.y, n);
    SameMul(cross, mixed, cross, mixed);
    NormSquare(p);
    NormSquare(q);
    hide Norm, Right, OnCurve;
    MixedSquare(m, n, s, t, Right(p) * Right(p) + 4 * (m * m), Right(q) * Right(q) + 4 * (n * n));
    SameTrans(cross * cross, mixed * mixed, CrossSquare(p, q));
  }

  lemma MixedSquare(m: int, n: int, s: int, t: int, a: int, b: int)
    requires Same(s * s, a) && Same(t * t, b)
    ensures Same((m * t + n * s) * (m * t + n * s), m * m * b + n * n * a + 2 * (m * n) * (s * t))
  {
    hide Same;
    var mixed := m * t + n * s;
    assert mixed * mixed == m * m * (t * t) + n * n * (s * s) + 2 * (m * n) * (s * t);
    Linear2(mixed * mixed, m * m * b + n * n * a + 2 * (m * n) * (s * t), m * m, t * t, b, n * n, s * s, a);
  }

  /** Both sides come to the same polynomial. */
  lemma MiddleIs(p: Point, q: Point)
    ensures SumMiddle(p, q) == F(p, q) * G(p, q) * (F(p, q) * G(p, q)) + D() * CrossSquare(p, q)
  {
    hide D, Norm;
    MiddleIdentity(p.z, p.t, q.z, q.t, D(), Norm(p) * Norm(q));
  }

  lemma Expanded(d: int, m: int, n: int, s: int, x: int, y: int)
    ensures d * (m * m * (x + 4 * (n * n)) + n * n * (y + 4 * (m * m)) + 2 * (m * n) * s)
         == d * (m * m) * x + d * (n * n) * y + 2 * (d * (m * n)) * (s + 4 * (m * n))
  {
  }

  lemma Exchanged(a: int, b: int, c: int, e: int)
    ensures a * b * (c * e) == a * c * (b * e)
  {
  }

  lemma Outside(d: int, a: int, b: int)
    ensures d * (a * b) == a * (d * b)
  {
  }

  lemma Regrouped(z1: int, t1: int, z2: int, t2: int, d: int)
    ensures var (z, k, m, n) := (z1 * z2, d * (t1 * t2), z1 * t1, z2 * t2);
            && z * z == z1 * z1 * (z2 * z2) && k * k == d * (t1 * t1) * (d * (t2 * t2)) && k * z == d * (m * n)
            && d * (m * m) == z1 * z1 * (d * (t1 * t1)) && d * (n * n) == z2 * z2 * (d * (t2 * t2))
  {
    Exchanged(z1, z2, z1, z2);
    Exchanged(t1, t2, t1, t2);
    Exchanged(d, t1 * t2, d, t1 * t2);
    Exchanged(d, t1 * t1, d, t2 * t2);
    Exchanged(z1, z2, t1, t2);
    Associates(d, t1 * t2, z1 * z2);
    Exchanged(z1, t1, z1, t1);
    Exchanged(z2, t2, z2, t2);
    Outside(d, z1 * z1, t1 * t1);
    Outside(d, z2 * z2, t2 * t2);
    assert t1 * t2 * (z1 * z2) == z1 * z2 * (t1 * t2);
  }

  lemma MiddleIdentity(z1: int, t1: int, z2: int, t2: int, d: int, s: int)
    ensures var (z, k, m, n) := (z1 * z2, d * (t1 * t2), z1 * t1, z2 * t2);
            var (right1, right2) := (z1 * z1 + d * (t1 * t1), z2 * z2 + d * (t2 * t2));
            (z * z + k * k) * (right1 * right2) + 2 * k * z * (s + 4 * (m * n))
              == (z - k) * (z + k) * ((z - k) * (z + k))
                 + d * (m * m * (right2 * right2 + 4 * (n * n)) + n * n * (right1 * right1 + 4 * (m * m)) + 2 * (m * n) * s)
  {
    var z, k, m, n := z1 * z2, d * (t1 * t2), z1 * t1, z2 * t2;
    var a, b, c, e := z1 * z1, d * (t1 * t1), z2 * z2, d * (t2 * t2);
    Regrouped(z1, t1, z2, t2, d);
    Balance(a, b, c, e);
    Expanded(d, m, n, s, (c + e) * (c + e), (a + b) * (a + b));
    Assembled(z, k, a, b, c, e, d * (m * n), m * n, s);
  }

  lemma Assembled(z: int, k: int, a: int, b: int, c: int, e: int, w: int, v: int, s: int)
    requires z * z == a * c && k * k == b * e && k * z == w
    ensures (z * z + k * k) * ((a + b) * (c + e)) + 2 * k * z * (s + 4 * v)
         == (z - k) * (z + k) * ((z - k) * (z + k)) + (a * b * ((c + e) * (c + e)) + c * e * ((a + b) * (a + b)) + 2 * w * (s + 4 * v))
  {
    Balance(a, b, c, e);
    assert (z - k) * (z + k) == a * c - b * e;
    assert 2 * k * z == 2 * w;
  }

  lemma SumOnCurve(p: Point, q: Point)
    requires OnCurve(p) && OnCurve(q)
    ensures Same(SumLeft(p, q), SumRight(p, q))
  {
    LeftMiddle(p, q);
    MiddleIs(p, q);
    CrossMod(p, q);
    hide Same, D, E, F, G, H, SumLeft, SumMiddle, CrossSquare, OnCurve;
    var cross := E(p, q) * H(p, q);
    Shifted(F(p, q) * G(p, q) * (F(p, q) * G(p, q)), D(), cross * cross, CrossSquare(p, q));
    SameTrans(SumLeft(p, q), SumMiddle(p, q), SumRight(p, q));
  }

  lemma Shifted(k: int, c: int, a: int, b: int)
    requires Same(a, b)
    ensures Same(k + c * a, k + c * b)
  {
    hide Same;
    assert k + c * a - (k + c * b) == c * (a - b);
    Linear(k + c * a, k + c * b, c, a, b);
  }

  lemma FourTimes(a: int, b: int)
    ensures 4 * (a * b) * (4 * (a * b)) == 16 * (a * a * (b * b)) && 4 * (a * b) * (4 * (a * b)) == 16 * (a * b * (a * b))
  {
    Exchanged(a, b, a, b);
  }

  /** The sum meets the curve equation. */
  lemma SumEquation(p: Point, q: Point)
    requires OnCurve(p) && OnCurve(q)
    ensures Same(Left(Add(p, q)), Right(Add(p, q)))
  {
    hide Same, D, Add, E, F, G, H;
    var s := Add(p, q);
    var e, f, g, h := E(p, q), F(p, q), G(p, q), H(p, q);
    AddIs(p, q);
    SumOnCurve(p, q);
    SameMul(s.x, 4 * (e * f), s.x, 4 * (e * f));
    SameMul(s.y, 4 * (g * h), s.y, 4 * (g * h));
    SameMul(s.z, 4 * (f * g), s.z, 4 * (f * g));
    SameMul(s.t, 4 * (e * h), s.t, 4 * (e * h));
    FourTimes(e, f);
    FourTimes(g, h);
    FourTimes(f, g);
    FourTimes(e, h);
    SixteenTimes(s, D(), g * g * (h * h), f * f * (e * e), f * g * (f * g), e * h * (e * h));
    assert e * e * (f * f) == f * f * (e * e);
  }

  lemma SixteenTimes(s: Point, d: int, yy: int, xx: int, zz: int, tt: int)
    requires Same(s.y * s.y, 16 * yy) && Same(s.x * s.x, 16 * xx) && Same(s.z * s.z, 16 * zz) && Same(s.t * s.t, 16 * tt)
    requires Same(yy - xx, zz + d * tt)
    ensures Same(s.y * s.y - s.x * s.x, s.z * s.z + d * (s.t * s.t))
  {
    hide Same;
    Linear2(s.y * s.y - s.x * s.x, 16 * (yy - xx), 1, s.y * s.y, 16 * yy, -1, s.x * s.x, 16 * xx);
    Linear(16 * (yy - xx), 16 * (zz + d * tt), 16, yy - xx, zz + d * tt);
    Linear2(s.z * s.z + d * (s.t * s.t), 16 * (zz + d * tt), 1, s.z * s.z, 16 * zz, d, s.t * s.t, 16 * tt);
    SameTrans(s.y * s.y - s.x * s.x, 16 * (yy - xx), 16 * (zz + d * tt));
    SameTrans(s.y * s.y - s.x * s.x, 16 * (zz + d * tt), s.z * s.z + d * (s.t * s.t));
  }

  // ----- and its Z is not zero -----

  /** A square root of -1. */
  const ROOT: int := 19681161376707505956807079304988542015446066515923890162744021073123829784752

  lemma RootIs()
    ensures Same(ROOT * ROOT, -1) && Same((-ROOT) * (-ROOT), -1)
  {
    PIs();
    var p := 0x7fffffff_ffffffff_ffffffff_ffffffff_ffffffff_ffffffff_ffffffff_ffffffed;
    Shift(-1, (ROOT * ROOT + 1) / p);
  }

  /** d is no square, and so the law is complete. */
  ghost predicate NoSquare() {
    forall r :: !IsSquareRoot(r)
  }

  predicate IsSquareRoot(r: int) {
    Same(r * r, D())
  }

  lemma NonZero(a: int, b: int)
    requires FermatAt(a) && !Same(a, 0) && !Same(b, 0)
    ensures !Same(a * b, 0)
  {
    hide Same, FermatAt;
    assert a * b == b * a && 0 * a == 0;
    if Same(a * b, 0) {
      Cancel(b, 0, a);
    }
  }

  lemma FactorSquare(p: Point, j: int)
    requires OnCurve(p) && Same(j * j, -1)
    ensures Same((p.y + j * p.x) * (p.y + j * p.x), Right(p) + 2 * j * (p.z * p.t))
  {
    hide Same, D;
    var w, middle := p.y + j * p.x, Left(p) + 2 * j * (p.x * p.y);
    FactorIs(p.x, p.y, j);
    Linear(w * w, middle, p.x * p.x, j * j, -1);
    assert middle - (Right(p) + 2 * j * (p.z * p.t)) == Left(p) - Right(p) + 2 * j * (p.x * p.y - p.z * p.t);
    Linear2(middle, Right(p) + 2 * j * (p.z * p.t), 1, Left(p), Right(p), 2 * j, p.x * p.y, p.z * p.t);
    SameTrans(w * w, middle, Right(p) + 2 * j * (p.z * p.t));
  }

  lemma FactorIs(x: int, y: int, j: int)
    ensures (y + j * x) * (y + j * x) - (y * y - x * x + 2 * j * (x * y)) == x * x * (j * j - -1)
  {
  }

  /** If z1 z2 is d t1 t2, or its opposite, then d is a square up to a factor. */
  lemma SquareOfD(p: Point, q: Point, sign: int, j: int)
    requires OnCurve(p) && OnCurve(q) && Same(j * j, -1) && (sign == 1 || sign == -1)
    requires Same(D() * (p.t * q.t), sign * (p.z * q.z))
    ensures var m, n := p.t * (q.y + j * q.x), q.z * (p.y + j * sign * p.x); Same(D() * (m * m), n * n)
  {
    hide Same, D;
    var v, w := p.y + j * sign * p.x, q.y + j * q.x;
    var m, n := p.t * w, q.z * v;
    var both := q.z * q.z * (Right(p) + 2 * (j * sign) * (p.z * p.t));
    assert j * sign * (j * sign) == j * j;
    FactorSquare(p, j * sign);
    FactorSquare(q, j);
    Exchanged(q.z, v, q.z, v);
    Linear(n * n, both, q.z * q.z, v * v, Right(p) + 2 * (j * sign) * (p.z * p.t));
    Exchanged(p.t, w, p.t, w);
    DenominatorSquare(p.z, p.t, q.z, q.t, D(), sign, j, w * w);
    SameTrans(D() * (m * m), both, n * n);
  }

  lemma DenominatorSquare(z1: int, t1: int, z2: int, t2: int, d: int, sign: int, j: int, ww: int)
    requires (sign == 1 || sign == -1) && Same(d * (t1 * t2), sign * (z1 * z2)) && Same(ww, z2 * z2 + d * (t2 * t2) + 2 * j * (z2 * t2))
    ensures Same(d * (t1 * t1 * ww), z2 * z2 * (z1 * z1 + d * (t1 * t1) + 2 * (j * sign) * (z1 * t1)))
  {
    hide Same;
    var k, z, b, c := d * (t1 * t2), z1 * z2, d * (t1 * t1), 2 * j * (t1 * z2);
    Associates(d, t1 * t1, ww);
    OpenedUp(t1, z2, t2, d, j);
    Shifted(0, b, ww, z2 * z2 + d * (t2 * t2) + 2 * j * (z2 * t2));
    Replaced(b * (z2 * z2), c, k, z, sign);
    ClosedUp(z1, t1, z2, b, j * sign);
    Signed(j, t1 * z2, z, sign);
    SameTrans(b * ww, b * (z2 * z2) + k * k + c * k, b * (z2 * z2) + z * z + c * (sign * z));
  }

  lemma Replaced(a: int, c: int, k: int, z: int, sign: int)
    requires (sign == 1 || sign == -1) && Same(k, sign * z)
    ensures Same(a + k * k + c * k, a + z * z + c * (sign * z))
  {
    hide Same;
    var w := sign * z;
    assert w * w == z * z;
    SameMul(k, w, k, w);
    assert a + k * k + c * k - (a + w * w + c * w) == 1 * (k * k - w * w) + c * (k - w);
    Linear2(a + k * k + c * k, a + w * w + c * w, 1, k * k, w * w, c, k, w);
  }

  lemma Signed(j: int, m: int, z: int, sign: int)
    ensures 2 * j * m * (sign * z) == 2 * (j * sign) * m * z
  {
  }

  lemma OpenedUp(t1: int, z2: int, t2: int, d: int, j: int)
    ensures var k := d * (t1 * t2);
            d * (t1 * t1) * (z2 * z2 + d * (t2 * t2) + 2 * j * (z2 * t2)) == d * (t1 * t1) * (z2 * z2) + k * k + 2 * j * (t1 * z2) * k
  {
    var k, u := d * (t1 * t2), d * (t1 * t1);
    Exchanged(t1, t2, t1, t2);
    Exchanged(d, t1 * t2, d, t1 * t2);
    Exchanged(d, t1 * t1, d, t2 * t2);
    Associates(d, t1, t1);
    Associates(d, t1, t2);
    Rotated(d * t1, t1, z2, t2);
    Spread(u, z2 * z2, d * (t2 * t2), j, z2 * t2);
    Associates(2 * j, t1 * z2, k);
  }

  lemma Rotated(a: int, b: int, c: int, e: int)
    ensures a * b * (c * e) == b * c * (a * e)
  {
  }

  lemma Spread(u: int, a: int, b: int, j: int, c: int)
    ensures u * (a + b + 2 * j * c) == u * a + u * b + 2 * j * (u * c)
  {
  }

  lemma ClosedUp(z1: int, t1: int, z2: int, b: int, i: int)
    ensures var z := z1 * z2;
            b * (z2 * z2) + z * z + 2 * i * (t1 * z2) * z == z2 * z2 * (z1 * z1 + b + 2 * i * (z1 * t1))
  {
  }

  lemma OtherIsZero(a: int, b: int)
    requires FermatAt(a) && !Same(a, 0) && Same(a * b, 0)
    ensures Same(b, 0)
  {
    hide Same, FermatAt;
    assert a * b == b * a && 0 * a == 0;
    Cancel(b, 0, a);
  }

  /** The quotient squares to d. */
  lemma RootOf(m: int, n: int)
    requires FermatAt(m) && !Same(m, 0) && Same(D() * (m * m), n * n)
    ensures IsSquareRoot(n * Inverse(m))
  {
    var i, d := Inverse(m), D();
    InverseInverts(m);
    hide Same, Inverse, D;
    Exchanged(n, i, n, i);
    Exchanged(m, m, i, i);
    SameMul(m * i, 1, m * i, 1);
    SameItself(i * i);
    SameMul(d * (m * m), n * n, i * i, i * i);
    Associates(d, m * m, i * i);
    assert m * m * (i * i) == m * i * (m * i) && d * (1 * 1) == d;
    Shifted(0, d, m * i * (m * i), 1 * 1);
    SameTrans(n * n * (i * i), d * (m * m) * (i * i), d);
  }

  lemma Vanishes(p: Point, q: Point, sign: int, j: int)
    requires Fermat() && NoSquare() && OnCurve(p) && OnCurve(q) && Same(j * j, -1) && (sign == 1 || sign == -1)
    requires Same(D() * (p.t * q.t), sign * (p.z * q.z))
    ensures Same(p.t * (q.y + j * q.x), 0)
  {
    var m, n := p.t * (q.y + j * q.x), q.z * (p.y + j * sign * p.x);
    SquareOfD(p, q, sign, j);
    assert FermatAt(m);
    hide Same, D, FermatAt, IsSquareRoot, OnCurve;
    if !Same(m, 0) {
      RootOf(m, n);
    }
  }

  /** Z1 Z2 would be zero with T1 T2. */
  lemma ZeroWithT(z: int, t: int, sign: int)
    requires Same(D() * t, sign * z) && (sign == 1 || sign == -1) && Same(t, 0)
    ensures Same(z, 0)
  {
    hide Same, D;
    Shifted(0, D(), t, 0);
    assert D() * 0 == 0 && 0 + D() * t == D() * t;
    SameTrans(sign * z, D() * t, 0);
    assert sign * (sign * z) == z && sign * 0 == 0;
    Linear(z, 0, sign, sign * z, 0);
  }

  lemma NoneIsZero(p: Point, q: Point, sign: int)
    requires Fermat() && OnCurve(p) && OnCurve(q) && (sign == 1 || sign == -1)
    requires Same(D() * (p.t * q.t), sign * (p.z * q.z))
    ensures !Same(p.t, 0) && !Same(q.t, 0)
  {
    assert FermatAt(p.z);
    NonZero(p.z, q.z);
    hide Same, D, FermatAt;
    if Same(p.t, 0) {
      SameTimes(p.t, 0, q.t);
      ZeroWithT(p.z * q.z, p.t * q.t, sign);
    } else if Same(q.t, 0) {
      SameTimes(q.t, 0, p.t);
      assert q.t * p.t == p.t * q.t;
      ZeroWithT(p.z * q.z, p.t * q.t, sign);
    }
  }

  lemma NothingLeft(q: Point, j: int)
    requires Fermat() && OnCurve(q) && Same(q.y + j * q.x, 0) && Same(q.y + (-j) * q.x, 0)
    ensures Same(q.t, 0)
  {
    assert FermatAt(2) && FermatAt(q.z);
    PIs();
    Small(2);
    Small(0);
    assert !Same(2, 0);
    hide Same, FermatAt, D;
    assert 2 * q.y - 0 == 1 * (q.y + j * q.x - 0) + 1 * (q.y + (-j) * q.x - 0);
    Linear2(2 * q.y, 0, 1, q.y + j * q.x, 0, 1, q.y + (-j) * q.x, 0);
    OtherIsZero(2, q.y);
    SameTimes(q.y, 0, q.x);
    assert q.y * q.x == q.x * q.y && 0 * q.x == 0;
    SameTrans(q.z * q.t, q.x * q.y, 0);
    OtherIsZero(q.z, q.t);
  }

  /** The law is complete: no denominator is zero. */
  lemma Complete(p: Point, q: Point, sign: int)
    requires Fermat() && NoSquare() && OnCurve(p) && OnCurve(q) && (sign == 1 || sign == -1)
    ensures !Same(D() * (p.t * q.t), sign * (p.z * q.z))
  {
    RootIs();
    hide Same, D, NoSquare;
    if Same(D() * (p.t * q.t), sign * (p.z * q.z)) {
      NoneIsZero(p, q, sign);
      Vanishes(p, q, sign, ROOT);
      Vanishes(p, q, sign, -ROOT);
      assert FermatAt(p.t);
      hide FermatAt, OnCurve;
      OtherIsZero(p.t, q.y + ROOT * q.x);
      OtherIsZero(p.t, q.y + (-ROOT) * q.x);
      NothingLeft(q, ROOT);
    }
  }

  lemma SumNotZero(p: Point, q: Point)
    requires Fermat() && NoSquare() && OnCurve(p) && OnCurve(q)
    ensures !Same(Add(p, q).z, 0)
  {
    var k, z := D() * (p.t * q.t), p.z * q.z;
    Complete(p, q, 1);
    Complete(p, q, -1);
    PIs();
    Small(4);
    Small(0);
    assert FermatAt(z - k) && FermatAt(4) && !Same(4, 0);
    AddIs(p, q);
    hide Same, D, FermatAt, OnCurve, Add;
    if Same(z - k, 0) {
      Linear(k, 1 * z, -1, z - k, 0);
    } else if Same(z + k, 0) {
      Linear(k, -1 * z, 1, z + k, 0);
    } else {
      NonZero(z - k, z + k);
      NonZero(4, (z - k) * (z + k));
      if Same(Add(p, q).z, 0) {
        SameTrans(4 * ((z - k) * (z + k)), Add(p, q).z, 0);
      }
    }
  }

  /** The sum of two points of the curve is one. */
  lemma SumCloses(p: Point, q: Point)
    requires Fermat() && NoSquare()
    ensures Closes(Edwards(), p, q)
  {
    hide Same, D, Fermat, NoSquare, Add, Extended;
    if OnCurve(p) && OnCurve(q) {
      AddIsExtended(p, q);
      SumEquation(p, q);
      SumNotZero(p, q);
    }
  }

  // ----- the same points have the same sum -----

  lemma Products(u1: int, w1: int, u1': int, w1': int, u2: int, w2: int, u2': int, w2': int)
    requires Same(u1 * w1', u1' * w1) && Same(u2 * w2', u2' * w2)
    ensures Same(u1 * u2 * (w1' * w2'), u1' * u2' * (w1 * w2))
  {
    hide Same;
    SameMul(u1 * w1', u1' * w1, u2 * w2', u2' * w2);
    Exchanged(u1, w1', u2, w2');
    Exchanged(u1', w1, u2', w2);
  }

  /** The fourth coordinates of one point are in the ratio of the others. */
  lemma FourthScales(p: Point, p': Point)
    requires Fermat() && OnCurve(p) && OnCurve(p') && SamePoint(p, p')
    ensures Same(p.t * p'.z, p'.t * p.z)
  {
    assert FermatAt(p.z) && FermatAt(p.z * p'.z);
    NonZero(p.z, p'.z);
    hide Same, D, FermatAt;
    Products(p.x, p.z, p'.x, p'.z, p.y, p.z, p'.y, p'.z);
    Fourth(p.x * p.y, p'.x * p'.y, p.z, p'.z, p.t, p'.t);
    hide OnCurve, SamePoint, Fermat;
    Cancel(p.t * p'.z, p'.t * p.z, p.z * p'.z);
  }

  lemma Fourth(xy: int, xy': int, z: int, z': int, t: int, t': int)
    requires Same(xy * (z' * z'), xy' * (z * z)) && Same(xy, z * t) && Same(xy', z' * t')
    ensures Same(t * z' * (z * z'), t' * z * (z * z'))
  {
    hide Same;
    SameTimes(xy, z * t, z' * z');
    SameTimes(xy', z' * t', z * z);
    Turned(z, t, z');
    Turned(z', t', z);
    assert t' * z * (z' * z) == t' * z * (z * z');
    SameTrans(t * z' * (z * z'), xy * (z' * z'), xy' * (z * z));
    SameTrans(t * z' * (z * z'), xy' * (z * z), t' * z * (z * z'));
  }

  lemma Turned(z: int, t: int, w: int)
    ensures z * t * (w * w) == t * w * (z * w)
  {
  }

  lemma Ratio(a: int, a': int, b: int, b': int, z: int, z': int)
    requires Same(a * z', a' * z) && Same(b * z', b' * z) && !Same(z * z', 0) && FermatAt(z * z')
    ensures Same(a * b', a' * b)
  {
    hide Same, FermatAt;
    SameItself(b * z');
    SameTrans(b' * z, b * z', b * z');
    SameMul(a * z', a' * z, b' * z, b * z');
    Exchanged(a, z', b', z);
    Exchanged(a', z, b, z');
    assert z' * z == z * z';
    Cancel(a * b', a' * b, z * z');
  }

  /** The numerators of the law scale alike. */
  lemma NumeratorsScale(p: Point, p': Point, q: Point, q': Point)
    requires SamePoint(p, p') && SamePoint(q, q')
    ensures Same(E(p, q) * (p'.z * q'.z), E(p', q') * (p.z * q.z)) && Same(H(p, q) * (p'.z * q'.z), H(p', q') * (p.z * q.z))
  {
    hide Same;
    var z, z' := p.z * q.z, p'.z * q'.z;
    Products(p.x, p.z, p'.x, p'.z, q.y, q.z, q'.y, q'.z);
    Products(p.y, p.z, p'.y, p'.z, q.x, q.z, q'.x, q'.z);
    Products(p.y, p.z, p'.y, p'.z, q.y, q.z, q'.y, q'.z);
    Products(p.x, p.z, p'.x, p'.z, q.x, q.z, q'.x, q'.z);
    SumsScale(p.x * q.y, p.y * q.x, p'.x * q'.y, p'.y * q'.x, 1, z, z');
    SumsScale(p.y * q.y, p.x * q.x, p'.y * q'.y, p'.x * q'.x, 1, z, z');
    assert 1 * (p.y * q.x) == p.y * q.x && 1 * (p'.y * q'.x) == p'.y * q'.x;
    assert 1 * (p.x * q.x) == p.x * q.x && 1 * (p'.x * q'.x) == p'.x * q'.x;
  }

  /** And so do the denominators. */
  lemma DenominatorsScale(p: Point, p': Point, q: Point, q': Point)
    requires Same(p.t * p'.z, p'.t * p.z) && Same(q.t * q'.z, q'.t * q.z)
    ensures Same(F(p, q) * (p'.z * q'.z), F(p', q') * (p.z * q.z)) && Same(G(p, q) * (p'.z * q'.z), G(p', q') * (p.z * q.z))
  {
    hide Same, D;
    var z, z', d := p.z * q.z, p'.z * q'.z, D();
    Products(p.t, p.z, p'.t, p'.z, q.t, q.z, q'.t, q'.z);
    assert z * z' == z' * z;
    SameItself(z * z');
    SumsScale(z, p.t * q.t, z', p'.t * q'.t, -d, z, z');
    SumsScale(z, p.t * q.t, z', p'.t * q'.t, d, z, z');
    Negated(z, d, p.t * q.t);
    Negated(z', d, p'.t * q'.t);
  }

  lemma Negated(z: int, d: int, t: int)
    ensures z + (-d) * t == z - d * t
  {
  }

  lemma SumsScale(a: int, b: int, a': int, b': int, c: int, z: int, z': int)
    requires Same(a * z', a' * z) && Same(b * z', b' * z)
    ensures Same((a + c * b) * z', (a' + c * b') * z)
  {
    hide Same;
    assert (a + c * b) * z' - (a' + c * b') * z == 1 * (a * z' - a' * z) + c * (b * z' - b' * z);
    Linear2((a + c * b) * z', (a' + c * b') * z, 1, a * z', a' * z, c, b * z', b' * z);
  }

  lemma SumRespects(p: Point, p': Point, q: Point, q': Point)
    requires Fermat()
    ensures Respects(Edwards(), p, p', q, q')
  {
    if OnCurve(p) && OnCurve(p') && OnCurve(q) && OnCurve(q') && SamePoint(p, p') && SamePoint(q, q') {
      var z, z' := p.z * q.z, p'.z * q'.z;
      assert FermatAt(p.z) && FermatAt(p'.z) && FermatAt(z) && FermatAt(z * z');
      NonZero(p.z, q.z);
      NonZero(p'.z, q'.z);
      NonZero(z, z');
      FourthScales(p, p');
      FourthScales(q, q');
      NumeratorsScale(p, p', q, q');
      DenominatorsScale(p, p', q, q');
      AddIs(p, q);
      AddIs(p', q');
      hide Same, D, FermatAt, Fermat, OnCurve, Add, E, F, G, H;
      var s, s' := Add(p, q), Add(p', q');
      Ratio(E(p, q), E(p', q'), G(p, q), G(p', q'), z, z');
      Ratio(H(p, q), H(p', q'), F(p, q), F(p', q'), z, z');
      Quotients(s.x, s.z, s'.x, s'.z, F(p, q), E(p, q), G(p, q), F(p', q'), E(p', q'), G(p', q'));
      assert F(p, q) * G(p, q) == G(p, q) * F(p, q) && F(p', q') * G(p', q') == G(p', q') * F(p', q');
      assert E(p, q) * F(p, q) == F(p, q) * E(p, q) && E(p', q') * F(p', q') == F(p', q') * E(p', q');
      Quotients(s.y, s.z, s'.y, s'.z, G(p, q), H(p, q), F(p, q), G(p', q'), H(p', q'), F(p', q'));
    }
  }

  /** 4 k a / 4 k b is 4 k' a' / 4 k' b' with a / b. */
  lemma Quotients(x: int, z: int, x': int, z': int, k: int, a: int, b: int, k': int, a': int, b': int)
    requires Same(x, 4 * (k * a)) && Same(z, 4 * (k * b)) && Same(x', 4 * (k' * a')) && Same(z', 4 * (k' * b'))
    requires Same(a * b', a' * b)
    ensures Same(x * z', x' * z)
  {
    hide Same;
    SameMul(x, 4 * (k * a), z', 4 * (k' * b'));
    SameMul(x', 4 * (k' * a'), z, 4 * (k * b));
    Exchanged(k, a, k', b');
    Exchanged(k', a', k, b);
    assert k' * k == k * k';
    var c := 16 * (k * k');
    assert 4 * (k * a) * (4 * (k' * b')) == c * (a * b') && 4 * (k' * a') * (4 * (k * b)) == c * (a' * b);
    Linear(c * (a * b'), c * (a' * b), c, a * b', a' * b);
    SameTrans(x * z', c * (a * b'), c * (a' * b));
    SameTrans(x * z', c * (a' * b), x' * z);
  }

  // ----- the monoid -----

  /** All but associativity is proved, for a prime P and a d that is no square: the points of
      the curve are closed under addition, addition respects sameness, which is an equivalence,
      and there is a unit. */
  lemma EdwardsIsMonoid()
    requires Fermat() && NoSquare() && Associative()
    ensures IsMonoid(Edwards())
  {
    ZeroIsOnCurve();
    hide Add, Same, Fermat, NoSquare, OnCurve, SamePoint, Closes, Respects, Reassociates;
    forall p, q
      ensures Closes(Edwards(), p, q)
    {
      SumCloses(p, q);
    }
    forall p, p', q, q'
      ensures Respects(Edwards(), p, p', q, q')
    {
      SumRespects(p, p', q, q');
    }
    forall p, q, r
      ensures Equivalent(Edwards(), p, q, r)
    {
      SamePointIsEquivalence(p, q, r);
    }
    forall p
      ensures HasZero(Edwards(), p)
    {
      ZeroAdds(p);
    }
  }

  lemma SamePointIsEquivalence(p: Point, q: Point, r: Point)
    requires Fermat()
    ensures Equivalent(Edwards(), p, q, r)
  {
    hide Fermat, OnCurve;
    SameItself(p.x * p.z);
    SameItself(p.y * p.z);
    if OnCurve(q) && SamePoint(p, q) && SamePoint(q, r) {
      SamePointTrans(p, q, r);
    }
  }
}
