/** src/linkCapability.ts:106-127: the tables of the hand-written SHA-256. */
module Sha256Constants {
  import opened Primes

  const TWO_32: nat := 0x1_0000_0000

  type u32 = x: nat | x < TWO_32

  /** Section 4.2.2 of FIPS 180-4; the source's table. */
  function K(t: nat): u32
    requires t < 64
  {
    match t
    case 0 => 0x428a2f98 case 1 => 0x71374491 case 2 => 0xb5c0fbcf case 3 => 0xe9b5dba5
    case 4 => 0x3956c25b case 5 => 0x59f111f1 case 6 => 0x923f82a4 case 7 => 0xab1c5ed5
    case 8 => 0xd807aa98 case 9 => 0x12835b01 case 10 => 0x243185be case 11 => 0x550c7dc3
    case 12 => 0x72be5d74 case 13 => 0x80deb1fe case 14 => 0x9bdc06a7 case 15 => 0xc19bf174
    case 16 => 0xe49b69c1 case 17 => 0xefbe4786 case 18 => 0x0fc19dc6 case 19 => 0x240ca1cc
    case 20 => 0x2de92c6f case 21 => 0x4a7484aa case 22 => 0x5cb0a9dc case 23 => 0x76f988da
    case 24 => 0x983e5152 case 25 => 0xa831c66d case 26 => 0xb00327c8 case 27 => 0xbf597fc7
    case 28 => 0xc6e00bf3 case 29 => 0xd5a79147 case 30 => 0x06ca6351 case 31 => 0x14292967
    case 32 => 0x27b70a85 case 33 => 0x2e1b2138 case 34 => 0x4d2c6dfc case 35 => 0x53380d13
    case 36 => 0x650a7354 case 37 => 0x766a0abb case 38 => 0x81c2c92e case 39 => 0x92722c85
    case 40 => 0xa2bfe8a1 case 41 => 0xa81a664b case 42 => 0xc24b8b70 case 43 => 0xc76c51a3
    case 44 => 0xd192e819 case 45 => 0xd6990624 case 46 => 0xf40e3585 case 47 => 0x106aa070
    case 48 => 0x19a4c116 case 49 => 0x1e376c08 case 50 => 0x2748774c case 51 => 0x34b0bcb5
    case 52 => 0x391c0cb3 case 53 => 0x4ed8aa4a case 54 => 0x5b9cca4f case 55 => 0x682e6ff3
    case 56 => 0x748f82ee case 57 => 0x78a5636f case 58 => 0x84c87814 case 59 => 0x8cc70208
    case 60 => 0x90befffa case 61 => 0xa4506ceb case 62 => 0xbef9a3f7 case _ => 0xc67178f2
  }

  /** Section 5.3.3 of FIPS 180-4; the source's initial `state`. */
  function H0(i: nat): u32
    requires i < 8
  {
    match i
    case 0 => 0x6a09e667 case 1 => 0xbb67ae85 case 2 => 0x3c6ef372 case 3 => 0xa54ff53a
    case 4 => 0x510e527f case 5 => 0x9b05688c case 6 => 0x1f83d9ab case _ => 0x5be0cd19
  }

  function Prime(i: nat): nat
    requires i < 64
  {
    match i
    case 0 => 2 case 1 => 3 case 2 => 5 case 3 => 7 case 4 => 11 case 5 => 13 case 6 => 17 case 7 => 19
    case 8 => 23 case 9 => 29 case 10 => 31 case 11 => 37 case 12 => 41 case 13 => 43 case 14 => 47 case 15 => 53
    case 16 => 59 case 17 => 61 case 18 => 67 case 19 => 71 case 20 => 73 case 21 => 79 case 22 => 83 case 23 => 89
    case 24 => 97 case 25 => 101 case 26 => 103 case 27 => 107 case 28 => 109 case 29 => 113 case 30 => 127 case 31 => 131
    case 32 => 137 case 33 => 139 case 34 => 149 case 35 => 151 case 36 => 157 case 37 => 163 case 38 => 167 case 39 => 173
    case 40 => 179 case 41 => 181 case 42 => 191 case 43 => 193 case 44 => 197 case 45 => 199 case 46 => 211 case 47 => 223
    case 48 => 227 case 49 => 229 case 50 => 233 case 51 => 239 case 52 => 241 case 53 => 251 case 54 => 257 case 55 => 263
    case 56 => 269 case 57 => 271 case 58 => 277 case 59 => 281 case 60 => 283 case 61 => 293 case 62 => 307 case _ => 311
  }

  /** The list starts with the first prime, and leaves none out. */
  lemma PrimesInOrder()
    ensures Prime(0) == 2 && forall t | 0 <= t < 63 :: Neighbours(Prime(t), Prime(t + 1))
  {
    hide Neighbours;
    From2();
    From3(); From23(); From53(); From83(); From113(); From157(); From193(); From233(); From271();
  }

  /** The first 32 bits of the fraction of the cube root of `p` are `k`. */
  predicate IsCubeRoot(p: nat, whole: nat, k: nat) {
    var r := whole * TWO_32 + k;
    k < TWO_32 && r * r * r <= p * TWO_32 * TWO_32 * TWO_32 < (r + 1) * (r + 1) * (r + 1)
  }

  predicate IsSquareRoot(p: nat, whole: nat, k: nat) {
    var r := whole * TWO_32 + k;
    k < TWO_32 && r * r <= p * TWO_32 * TWO_32 < (r + 1) * (r + 1)
  }

  function WholeCubeRoot(p: nat): nat {
    if p < 8 then 1 else if p < 27 then 2 else if p < 64 then 3 else if p < 125 then 4 else if p < 216 then 5 else 6
  }

  function WholeSquareRoot(p: nat): nat {
    if p < 4 then 1 else if p < 9 then 2 else if p < 16 then 3 else 4
  }

  predicate IsRoundConstant(t: nat)
    requires t < 64
  {
    IsCubeRoot(Prime(t), WholeCubeRoot(Prime(t)), K(t))
  }

  lemma RoundConstants0()
    ensures IsRoundConstant(0) && IsRoundConstant(1) && IsRoundConstant(2) && IsRoundConstant(3)
  {}

  lemma RoundConstants4()
    ensures IsRoundConstant(4) && IsRoundConstant(5) && IsRoundConstant(6) && IsRoundConstant(7)
  {}

  lemma RoundConstants8()
    ensures IsRoundConstant(8) && IsRoundConstant(9) && IsRoundConstant(10) && IsRoundConstant(11)
  {}

  lemma RoundConstants12()
    ensures IsRoundConstant(12) && IsRoundConstant(13) && IsRoundConstant(14) && IsRoundConstant(15)
  {}

  lemma RoundConstants16()
    ensures IsRoundConstant(16) && IsRoundConstant(17) && IsRoundConstant(18) && IsRoundConstant(19)
  {}

  lemma RoundConstants20()
    ensures IsRoundConstant(20) && IsRoundConstant(21) && IsRoundConstant(22) && IsRoundConstant(23)
  {}

  lemma RoundConstants24()
    ensures IsRoundConstant(24) && IsRoundConstant(25) && IsRoundConstant(26) && IsRoundConstant(27)
  {}

  lemma RoundConstants28()
    ensures IsRoundConstant(28) && IsRoundConstant(29) && IsRoundConstant(30) && IsRoundConstant(31)
  {}

  lemma RoundConstants32()
    ensures IsRoundConstant(32) && IsRoundConstant(33) && IsRoundConstant(34) && IsRoundConstant(35)
  {}

  lemma RoundConstants36()
    ensures IsRoundConstant(36) && IsRoundConstant(37) && IsRoundConstant(38) && IsRoundConstant(39)
  {}

  lemma RoundConstants40()
    ensures IsRoundConstant(40) && IsRoundConstant(41) && IsRoundConstant(42) && IsRoundConstant(43)
  {}

  lemma RoundConstants44()
    ensures IsRoundConstant(44) && IsRoundConstant(45) && IsRoundConstant(46) && IsRoundConstant(47)
  {}

  lemma RoundConstants48()
    ensures IsRoundConstant(48) && IsRoundConstant(49) && IsRoundConstant(50) && IsRoundConstant(51)
  {}

  lemma RoundConstants52()
    ensures IsRoundConstant(52) && IsRoundConstant(53) && IsRoundConstant(54) && IsRoundConstant(55)
  {}

  lemma RoundConstants56()
    ensures IsRoundConstant(56) && IsRoundConstant(57)
  {}

  lemma RoundConstants58()
    ensures IsRoundConstant(58) && IsRoundConstant(59)
  {}

  lemma RoundConstants60()
    ensures IsRoundConstant(60) && IsRoundConstant(61)
  {}

  lemma RoundConstants62()
    ensures IsRoundConstant(62) && IsRoundConstant(63)
  {}

  predicate IsInitial(i: nat)
    requires i < 8
  {
    IsSquareRoot(Prime(i), WholeSquareRoot(Prime(i)), H0(i))
  }

  lemma InitialAreRoots()
    ensures IsInitial(0) && IsInitial(1) && IsInitial(2) && IsInitial(3)
    ensures IsInitial(4) && IsInitial(5) && IsInitial(6) && IsInitial(7)
  {
  }

  /** The tables are what sections 4.2.2 and 5.3.3 of FIPS 180-4 define them to be: the first
      32 bits of the fractions of the cube roots of the first 64 primes, and of the square roots
      of the first eight. */
  lemma ConstantsAreRoots()
    ensures Prime(0) == 2 && forall t | 0 <= t < 63 :: Neighbours(Prime(t), Prime(t + 1))
    ensures forall t | 0 <= t < 64 :: IsRoundConstant(t)
    ensures forall i | 0 <= i < 8 :: IsInitial(i)
  {
    PrimesInOrder();
    InitialAreRoots();
    hide IsRoundConstant, IsInitial, Prime, Neighbours;
    RoundConstants0(); RoundConstants4(); RoundConstants8(); RoundConstants12();
    RoundConstants16(); RoundConstants20(); RoundConstants24(); RoundConstants28();
    RoundConstants32(); RoundConstants36(); RoundConstants40(); RoundConstants44();
    RoundConstants48(); RoundConstants52(); RoundConstants56(); RoundConstants58(); RoundConstants60(); RoundConstants62();
  }
}
