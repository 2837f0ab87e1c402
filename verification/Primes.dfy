/** Primes below 18 * 18, by the primes below 18. */
module Primes {
  predicate IsPrime(n: nat) {
    n >= 2 && forall d | 2 <= d < n :: !Divides(d, n)
  }

  predicate Divides(d: nat, n: nat)
    requires d > 0
  {
    n % d == 0
  }

  predicate Passes(n: nat, p: nat)
    requires p > 0
  {
    n % p != 0 || n == p
  }

  /** No smaller prime below 18 divides it. */
  predicate Sifted(n: nat) {
    && n >= 2 && Passes(n, 2) && Passes(n, 3) && Passes(n, 5) && Passes(n, 7) && Passes(n, 11) && Passes(n, 13) && Passes(n, 17)
  }

  lemma AtLeast(p: nat, d: int)
    ensures (d >= 1 ==> p * d >= p) && (d <= -1 ==> p * d + p <= 0)
  {
  }

  lemma Stops(p: nat, k: nat)
    requires p > 0 && k >= 2
    ensures !Passes(p * k, p)
  {
    var d := k - p * k / p;
    assert p * d == p * k % p;
    AtLeast(p, d);
    assert p * k >= 2 * p;
  }

  function Factor(m: nat): (p: nat)
    requires 2 <= m < 18
    ensures (p == 2 || p == 3 || p == 5 || p == 7 || p == 11 || p == 13 || p == 17) && m % p == 0
  {
    if m % 2 == 0 then 2 else if m % 3 == 0 then 3 else if m % 5 == 0 then 5 else m
  }

  /** A product with a factor below 18 is sifted out. */
  lemma ProductFalls(m: nat, e: nat)
    requires 2 <= m < 18 && e >= 2
    ensures !Sifted(m * e)
  {
    hide Passes, Factor;
    var p := Factor(m);
    var k := m / p;
    assert m == p * k && k >= 1;
    assert m * e == p * (k * e) && k * e >= 2;
    Stops(p, k * e);
  }

  lemma SiftedIsPrime(n: nat)
    requires n < 18 * 18
    ensures Sifted(n) <==> IsPrime(n)
  {
    if Sifted(n) {
      hide Sifted;
      forall d | 2 <= d < n
        ensures !Divides(d, n)
      {
        if n % d == 0 {
          var e := n / d;
          assert n == d * e;
          if d < 18 {
            ProductFalls(d, e);
          } else {
            assert e < 18;
            ProductFalls(e, d);
          }
        }
      }
    }
    if IsPrime(n) {
      forall p | p in {2, 3, 5, 7, 11, 13, 17} && p < n
        ensures n % p != 0
      {
        assert !Divides(p, n);
      }
    }
  }

  /** Two primes with none in between. */
  predicate Neighbours(p: nat, q: nat) {
    IsPrime(p) && IsPrime(q) && p < q && forall n | p < n < q :: !IsPrime(n)
  }

  /** Two primes, when all that is left between them by 2 and 3 is sifted out. */
  lemma AreNeighbours(p: nat, q: nat, left: set<nat>)
    requires 3 <= p < q < 18 * 18 && Sifted(p) && Sifted(q)
    requires (forall n | p < n < q && n % 2 != 0 && n % 3 != 0 :: n in left) && forall n | n in left :: !Sifted(n)
    ensures Neighbours(p, q)
  {
    SiftedIsPrime(p);
    SiftedIsPrime(q);
    forall n: nat | p < n < q
      ensures !IsPrime(n)
    {
      SiftedIsPrime(n);
    }
    hide IsPrime;
  }

  // ----- the primes up to 311 -----

  lemma From2()
    ensures Neighbours(2, 3)
  {
    SiftedIsPrime(2);
    SiftedIsPrime(3);
    hide IsPrime;
  }

  lemma From3()
    ensures Neighbours(3, 5) && Neighbours(5, 7) && Neighbours(7, 11) && Neighbours(11, 13)
    ensures Neighbours(13, 17) && Neighbours(17, 19) && Neighbours(19, 23)
  {
    AreNeighbours(3, 5, {});
    AreNeighbours(5, 7, {});
    AreNeighbours(7, 11, {});
    AreNeighbours(11, 13, {});
    AreNeighbours(13, 17, {});
    AreNeighbours(17, 19, {});
    AreNeighbours(19, 23, {});
  }

  lemma From23()
    ensures Neighbours(23, 29) && Neighbours(29, 31) && Neighbours(31, 37) && Neighbours(37, 41)
    ensures Neighbours(41, 43) && Neighbours(43, 47) && Neighbours(47, 53)
  {
    AreNeighbours(23, 29, {25});
    AreNeighbours(29, 31, {});
    AreNeighbours(31, 37, {35});
    AreNeighbours(37, 41, {});
    AreNeighbours(41, 43, {});
    AreNeighbours(43, 47, {});
    AreNeighbours(47, 53, {49});
  }

  lemma From53()
    ensures Neighbours(53, 59) && Neighbours(59, 61) && Neighbours(61, 67) && Neighbours(67, 71)
    ensures Neighbours(71, 73) && Neighbours(73, 79) && Neighbours(79, 83)
  {
    AreNeighbours(53, 59, {55});
    AreNeighbours(59, 61, {});
    AreNeighbours(61, 67, {65});
    AreNeighbours(67, 71, {});
    AreNeighbours(71, 73, {});
    AreNeighbours(73, 79, {77});
    AreNeighbours(79, 83, {});
  }

  lemma From83()
    ensures Neighbours(83, 89) && Neighbours(89, 97) && Neighbours(97, 101) && Neighbours(101, 103)
    ensures Neighbours(103, 107) && Neighbours(107, 109) && Neighbours(109, 113)
  {
    AreNeighbours(83, 89, {85});
    AreNeighbours(89, 97, {91, 95});
    AreNeighbours(97, 101, {});
    AreNeighbours(101, 103, {});
    AreNeighbours(103, 107, {});
    AreNeighbours(107, 109, {});
    AreNeighbours(109, 113, {});
  }

  lemma From113()
    ensures Neighbours(113, 127) && Neighbours(127, 131) && Neighbours(131, 137) && Neighbours(137, 139)
    ensures Neighbours(139, 149) && Neighbours(149, 151) && Neighbours(151, 157)
  {
    AreNeighbours(113, 127, {115, 119, 121, 125});
    AreNeighbours(127, 131, {});
    AreNeighbours(131, 137, {133});
    AreNeighbours(137, 139, {});
    AreNeighbours(139, 149, {143, 145});
    AreNeighbours(149, 151, {});
    AreNeighbours(151, 157, {155});
  }

  lemma From157()
    ensures Neighbours(157, 163) && Neighbours(163, 167) && Neighbours(167, 173) && Neighbours(173, 179)
    ensures Neighbours(179, 181) && Neighbours(181, 191) && Neighbours(191, 193)
  {
    AreNeighbours(157, 163, {161});
    AreNeighbours(163, 167, {});
    AreNeighbours(167, 173, {169});
    AreNeighbours(173, 179, {175});
    AreNeighbours(179, 181, {});
    AreNeighbours(181, 191, {185, 187});
    AreNeighbours(191, 193, {});
  }

  lemma From193()
    ensures Neighbours(193, 197) && Neighbours(197, 199) && Neighbours(199, 211) && Neighbours(211, 223)
    ensures Neighbours(223, 227) && Neighbours(227, 229) && Neighbours(229, 233)
  {
    AreNeighbours(193, 197, {});
    AreNeighbours(197, 199, {});
    AreNeighbours(199, 211, {203, 205, 209});
    AreNeighbours(211, 223, {215, 217, 221});
    AreNeighbours(223, 227, {});
    AreNeighbours(227, 229, {});
    AreNeighbours(229, 233, {});
  }

  lemma From233()
    ensures Neighbours(233, 239) && Neighbours(239, 241) && Neighbours(241, 251) && Neighbours(251, 257)
    ensures Neighbours(257, 263) && Neighbours(263, 269) && Neighbours(269, 271)
  {
    AreNeighbours(233, 239, {235});
    AreNeighbours(239, 241, {});
    AreNeighbours(241, 251, {245, 247});
    AreNeighbours(251, 257, {253});
    AreNeighbours(257, 263, {259});
    AreNeighbours(263, 269, {265});
    AreNeighbours(269, 271, {});
  }

  lemma From271()
    ensures Neighbours(271, 277) && Neighbours(277, 281) && Neighbours(281, 283) && Neighbours(283, 293)
    ensures Neighbours(293, 307) && Neighbours(307, 311)
  {
    AreNeighbours(271, 277, {275});
    AreNeighbours(277, 281, {});
    AreNeighbours(281, 283, {});
    AreNeighbours(283, 293, {287, 289});
    AreNeighbours(293, 307, {295, 299, 301, 305});
    AreNeighbours(307, 311, {});
  }
}
