/** The SHA-256 of src/linkCapability.ts:106-179, worked out on the three bytes "abc": the example
    of appendix B.1 of FIPS 180-2. */
module Sha256Example {
  import opened Sha256Constants
  import opened Sha256
  import opened Sha256Bits

  const ABC: Bytes := [0x61, 0x62, 0x63]

  /** The one block of the padded message. */
  const BLOCK: Bytes := ABC + [0x80] + Repeat(0, 59) + [24]

  lemma OneBlock()
    ensures |BLOCK| == 64 && Pad(ABC) == BLOCK
  {
    hide BigEndian;
    TwoHalves(24);
    BigEndian4(0);
    BigEndian4(24);
    assert Repeat(0, 52) + [0, 0, 0, 0, 0, 0, 0] == Repeat(0, 59);
  }

  // ----- the message schedule -----

  predicate IsWord(t: nat, w: bv32) {
    t < 64 && |BLOCK| == 64 && W(BLOCK, t) == w
  }

  lemma First(t: nat, w: bv32)
    requires t < 16 && |BLOCK| == 64
    requires var at := 4 * t;
             Number(w)
             == 0x100_0000 * BLOCK[at] as nat + 0x1_0000 * BLOCK[at + 1] as nat + 0x100 * BLOCK[at + 2] as nat + BLOCK[at + 3]
    ensures IsWord(t, w)
  {
    hide W, Number, FromBigEndian, BLOCK;
    ScheduleReads(BLOCK, t);
    FourBytes(BLOCK[4 * t..4 * t + 4]);
    SameNumber(W(BLOCK, t), w);
  }

  lemma Later(t: nat, w2: bv32, w7: bv32, w15: bv32, w16: bv32)
    requires 16 <= t < 64 && IsWord(t - 2, w2) && IsWord(t - 7, w7) && IsWord(t - 15, w15) && IsWord(t - 16, w16)
    ensures IsWord(t, Mixed(w2, w7, w15, w16))
  {
    hide Mixed;
  }

  lemma Words0()
    ensures IsWord(0, 0x61626380) && IsWord(1, 0x00000000) && IsWord(2, 0x00000000) && IsWord(3, 0x00000000)
    ensures IsWord(4, 0x00000000) && IsWord(5, 0x00000000) && IsWord(6, 0x00000000) && IsWord(7, 0x00000000)
    ensures IsWord(8, 0x00000000) && IsWord(9, 0x00000000) && IsWord(10, 0x00000000) && IsWord(11, 0x00000000)
    ensures IsWord(12, 0x00000000) && IsWord(13, 0x00000000) && IsWord(14, 0x00000000) && IsWord(15, 0x00000018)
  {
    OneBlock();
    First(0, 0x61626380); First(1, 0x00000000); First(2, 0x00000000); First(3, 0x00000000);
    First(4, 0x00000000); First(5, 0x00000000); First(6, 0x00000000); First(7, 0x00000000);
    First(8, 0x00000000); First(9, 0x00000000); First(10, 0x00000000); First(11, 0x00000000);
    First(12, 0x00000000); First(13, 0x00000000); First(14, 0x00000000); First(15, 0x00000018);
  }

  lemma Words16()
    ensures IsWord(16, 0x61626380) && IsWord(17, 0x000f0000) && IsWord(18, 0x7da86405) && IsWord(19, 0x600003c6)
    ensures IsWord(20, 0x3e9d7b78) && IsWord(21, 0x0183fc00) && IsWord(22, 0x12dcbfdb) && IsWord(23, 0xe2e2c38e)
  {
    hide IsWord;
    Words0();
    Later(16, 0x00000000, 0x00000000, 0x00000000, 0x61626380);
    Later(17, 0x00000018, 0x00000000, 0x00000000, 0x00000000);
    Later(18, 0x61626380, 0x00000000, 0x00000000, 0x00000000);
    Later(19, 0x000f0000, 0x00000000, 0x00000000, 0x00000000);
    Later(20, 0x7da86405, 0x00000000, 0x00000000, 0x00000000);
    Later(21, 0x600003c6, 0x00000000, 0x00000000, 0x00000000);
    Later(22, 0x3e9d7b78, 0x00000018, 0x00000000, 0x00000000);
    Later(23, 0x0183fc00, 0x61626380, 0x00000000, 0x00000000);
  }

  lemma Words24()
    ensures IsWord(24, 0xc8215c1a) && IsWord(25, 0xb73679a2) && IsWord(26, 0xe5bc3909) && IsWord(27, 0x32663c5b)
    ensures IsWord(28, 0x9d209d67) && IsWord(29, 0xec8726cb) && IsWord(30, 0x702138a4) && IsWord(31, 0xd3b7973b)
  {
    hide IsWord;
    Words0();
    Words16();
    Later(24, 0x12dcbfdb, 0x000f0000, 0x00000000, 0x00000000);
    Later(25, 0xe2e2c38e, 0x7da86405, 0x00000000, 0x00000000);
    Later(26, 0xc8215c1a, 0x600003c6, 0x00000000, 0x00000000);
    Later(27, 0xb73679a2, 0x3e9d7b78, 0x00000000, 0x00000000);
    Later(28, 0xe5bc3909, 0x0183fc00, 0x00000000, 0x00000000);
    Later(29, 0x32663c5b, 0x12dcbfdb, 0x00000000, 0x00000000);
    Later(30, 0x9d209d67, 0xe2e2c38e, 0x00000018, 0x00000000);
    Later(31, 0xec8726cb, 0xc8215c1a, 0x61626380, 0x00000018);
  }

  lemma Words32()
    ensures IsWord(32, 0x93f5997f) && IsWord(33, 0x3b68ba73) && IsWord(34, 0xaff4ffc1) && IsWord(35, 0xf10a5c62)
    ensures IsWord(36, 0x0a8b3996) && IsWord(37, 0x72af830a) && IsWord(38, 0x9409e33e) && IsWord(39, 0x24641522)
  {
    hide IsWord;
    Words16();
    Words24();
    Later(32, 0x702138a4, 0xb73679a2, 0x000f0000, 0x61626380);
    Later(33, 0xd3b7973b, 0xe5bc3909, 0x7da86405, 0x000f0000);
    Later(34, 0x93f5997f, 0x32663c5b, 0x600003c6, 0x7da86405);
    Later(35, 0x3b68ba73, 0x9d209d67, 0x3e9d7b78, 0x600003c6);
    Later(36, 0xaff4ffc1, 0xec8726cb, 0x0183fc00, 0x3e9d7b78);
    Later(37, 0xf10a5c62, 0x702138a4, 0x12dcbfdb, 0x0183fc00);
    Later(38, 0x0a8b3996, 0xd3b7973b, 0xe2e2c38e, 0x12dcbfdb);
    Later(39, 0x72af830a, 0x93f5997f, 0xc8215c1a, 0xe2e2c38e);
  }

  lemma Words40()
    ensures IsWord(40, 0x9f47bf94) && IsWord(41, 0xf0a64f5a) && IsWord(42, 0x3e246a79) && IsWord(43, 0x27333ba3)
    ensures IsWord(44, 0x0c4763f2) && IsWord(45, 0x840abf27) && IsWord(46, 0x7a290d5d) && IsWord(47, 0x065c43da)
  {
    hide IsWord;
    Words24();
    Words32();
    Later(40, 0x9409e33e, 0x3b68ba73, 0xb73679a2, 0xc8215c1a);
    Later(41, 0x24641522, 0xaff4ffc1, 0xe5bc3909, 0xb73679a2);
    Later(42, 0x9f47bf94, 0xf10a5c62, 0x32663c5b, 0xe5bc3909);
    Later(43, 0xf0a64f5a, 0x0a8b3996, 0x9d209d67, 0x32663c5b);
    Later(44, 0x3e246a79, 0x72af830a, 0xec8726cb, 0x9d209d67);
    Later(45, 0x27333ba3, 0x9409e33e, 0x702138a4, 0xec8726cb);
    Later(46, 0x0c4763f2, 0x24641522, 0xd3b7973b, 0x702138a4);
    Later(47, 0x840abf27, 0x9f47bf94, 0x93f5997f, 0xd3b7973b);
  }

  lemma Words48()
    ensures IsWord(48, 0xfb3e89cb) && IsWord(49, 0xcc7617db) && IsWord(50, 0xb9e66c34) && IsWord(51, 0xa9993667)
    ensures IsWord(52, 0x84badedd) && IsWord(53, 0xc21462bc) && IsWord(54, 0x1487472c) && IsWord(55, 0xb20f7a99)
  {
    hide IsWord;
    Words32();
    Words40();
    Later(48, 0x7a290d5d, 0xf0a64f5a, 0x3b68ba73, 0x93f5997f);
    Later(49, 0x065c43da, 0x3e246a79, 0xaff4ffc1, 0x3b68ba73);
    Later(50, 0xfb3e89cb, 0x27333ba3, 0xf10a5c62, 0xaff4ffc1);
    Later(51, 0xcc7617db, 0x0c4763f2, 0x0a8b3996, 0xf10a5c62);
    Later(52, 0xb9e66c34, 0x840abf27, 0x72af830a, 0x0a8b3996);
    Later(53, 0xa9993667, 0x7a290d5d, 0x9409e33e, 0x72af830a);
    Later(54, 0x84badedd, 0x065c43da, 0x24641522, 0x9409e33e);
    Later(55, 0xc21462bc, 0xfb3e89cb, 0x9f47bf94, 0x24641522);
  }

  lemma Words56()
    ensures IsWord(56, 0xef57b9cd) && IsWord(57, 0xebe6b238) && IsWord(58, 0x9fe3095e) && IsWord(59, 0x78bc8d4b)
    ensures IsWord(60, 0xa43fcf15) && IsWord(61, 0x668b2ff8) && IsWord(62, 0xeeaba2cc) && IsWord(63, 0x12b1edeb)
  {
    hide IsWord;
    Words40();
    Words48();
    Later(56, 0x1487472c, 0xcc7617db, 0xf0a64f5a, 0x9f47bf94);
    Later(57, 0xb20f7a99, 0xb9e66c34, 0x3e246a79, 0xf0a64f5a);
    Later(58, 0xef57b9cd, 0xa9993667, 0x27333ba3, 0x3e246a79);
    Later(59, 0xebe6b238, 0x84badedd, 0x0c4763f2, 0x27333ba3);
    Later(60, 0x9fe3095e, 0xc21462bc, 0x840abf27, 0x0c4763f2);
    Later(61, 0x78bc8d4b, 0x1487472c, 0x7a290d5d, 0x840abf27);
    Later(62, 0xa43fcf15, 0xb20f7a99, 0x065c43da, 0x7a290d5d);
    Later(63, 0x668b2ff8, 0xef57b9cd, 0xfb3e89cb, 0x065c43da);
  }

  // ----- the rounds -----

  function Now(t: nat): Vars
    requires t <= 64 && |BLOCK| == 64
  {
    Rounds(INITIAL, BLOCK, t)
  }

  predicate After(t: nat, v: Vars) {
    t <= 64 && |BLOCK| == 64 && Now(t) == v
  }

  lemma Constants0()
    ensures IsConstant(0, 0x428a2f98) && IsConstant(1, 0x71374491) && IsConstant(2, 0xb5c0fbcf) && IsConstant(3, 0xe9b5dba5)
  {
  }

  lemma Constants4()
    ensures IsConstant(4, 0x3956c25b) && IsConstant(5, 0x59f111f1) && IsConstant(6, 0x923f82a4) && IsConstant(7, 0xab1c5ed5)
  {
  }

  lemma Constants8()
    ensures IsConstant(8, 0xd807aa98) && IsConstant(9, 0x12835b01) && IsConstant(10, 0x243185be) && IsConstant(11, 0x550c7dc3)
  {
  }

  lemma Constants12()
    ensures IsConstant(12, 0x72be5d74) && IsConstant(13, 0x80deb1fe) && IsConstant(14, 0x9bdc06a7) && IsConstant(15, 0xc19bf174)
  {
  }

  lemma Constants16()
    ensures IsConstant(16, 0xe49b69c1) && IsConstant(17, 0xefbe4786) && IsConstant(18, 0x0fc19dc6) && IsConstant(19, 0x240ca1cc)
  {
  }

  lemma Constants20()
    ensures IsConstant(20, 0x2de92c6f) && IsConstant(21, 0x4a7484aa) && IsConstant(22, 0x5cb0a9dc) && IsConstant(23, 0x76f988da)
  {
  }

  lemma Constants24()
    ensures IsConstant(24, 0x983e5152) && IsConstant(25, 0xa831c66d) && IsConstant(26, 0xb00327c8) && IsConstant(27, 0xbf597fc7)
  {
  }

  lemma Constants28()
    ensures IsConstant(28, 0xc6e00bf3) && IsConstant(29, 0xd5a79147) && IsConstant(30, 0x06ca6351) && IsConstant(31, 0x14292967)
  {
  }

  lemma Constants32()
    ensures IsConstant(32, 0x27b70a85) && IsConstant(33, 0x2e1b2138) && IsConstant(34, 0x4d2c6dfc) && IsConstant(35, 0x53380d13)
  {
  }

  lemma Constants36()
    ensures IsConstant(36, 0x650a7354) && IsConstant(37, 0x766a0abb) && IsConstant(38, 0x81c2c92e) && IsConstant(39, 0x92722c85)
  {
  }

  lemma Constants40()
    ensures IsConstant(40, 0xa2bfe8a1) && IsConstant(41, 0xa81a664b) && IsConstant(42, 0xc24b8b70) && IsConstant(43, 0xc76c51a3)
  {
  }

  lemma Constants44()
    ensures IsConstant(44, 0xd192e819) && IsConstant(45, 0xd6990624) && IsConstant(46, 0xf40e3585) && IsConstant(47, 0x106aa070)
  {
  }

  lemma Constants48()
    ensures IsConstant(48, 0x19a4c116) && IsConstant(49, 0x1e376c08) && IsConstant(50, 0x2748774c) && IsConstant(51, 0x34b0bcb5)
  {
  }

  lemma Constants52()
    ensures IsConstant(52, 0x391c0cb3) && IsConstant(53, 0x4ed8aa4a) && IsConstant(54, 0x5b9cca4f) && IsConstant(55, 0x682e6ff3)
  {
  }

  lemma Constants56()
    ensures IsConstant(56, 0x748f82ee) && IsConstant(57, 0x78a5636f) && IsConstant(58, 0x84c87814) && IsConstant(59, 0x8cc70208)
  {
  }

  lemma Constants60()
    ensures IsConstant(60, 0x90befffa) && IsConstant(61, 0xa4506ceb) && IsConstant(62, 0xbef9a3f7) && IsConstant(63, 0xc67178f2)
  {
  }

  /** One round, by its constant, its word, and the two variables it computes. */
  lemma Step(t: nat, k: bv32, w: bv32, a: bv32, e: bv32)
    requires t < 64 && |BLOCK| == 64 && IsConstant(t, k) && IsWord(t, w)
    requires var v := Now(t);
             a == Plus(T1(v.e, v.f, v.g, v.h, k, w), T2(v.a, v.b, v.c)) && e == Plus(v.d, T1(v.e, v.f, v.g, v.h, k, w))
    ensures var v := Now(t); After(t + 1, Vars(a, v.a, v.b, v.c, e, v.e, v.f, v.g))
  {
    NumberBack(k);
    hide W, T1, T2, Plus, INITIAL, BLOCK;
  }

  lemma Initial()
    ensures INITIAL == Vars(0x6a09e667, 0xbb67ae85, 0x3c6ef372, 0xa54ff53a,
                            0x510e527f, 0x9b05688c, 0x1f83d9ab, 0x5be0cd19)
  {
    NumberBack(0x6a09e667); NumberBack(0xbb67ae85); NumberBack(0x3c6ef372); NumberBack(0xa54ff53a);
    NumberBack(0x510e527f); NumberBack(0x9b05688c); NumberBack(0x1f83d9ab); NumberBack(0x5be0cd19);
  }

  lemma After0()
    ensures After(0, Vars(0x6a09e667, 0xbb67ae85, 0x3c6ef372, 0xa54ff53a,
                           0x510e527f, 0x9b05688c, 0x1f83d9ab, 0x5be0cd19))
  {
    hide INITIAL, BLOCK;
    OneBlock();
    Initial();
  }

  lemma After8()
    ensures After(8, Vars(0x85a07b5f, 0xe5030380, 0x2b4209f5, 0x04409a6a,
                           0x0c657a79, 0x9b27a401, 0x714260ad, 0x43ada245))
  {
    hide W, INITIAL, Rounds, BLOCK, IsWord, Now, IsConstant;
    After0();
    Constants0();
    Constants4();
    Words0();
    Step(0, 0x428a2f98, 0x61626380, 0x5d6aebcd, 0xfa2a4622);
    Step(1, 0x71374491, 0x00000000, 0x5a6ad9ad, 0x78ce7989);
    Step(2, 0xb5c0fbcf, 0x00000000, 0xc8c347a7, 0xf92939eb);
    Step(3, 0xe9b5dba5, 0x00000000, 0xd550f666, 0x24e00850);
    Step(4, 0x3956c25b, 0x00000000, 0x04409a6a, 0x43ada245);
    Step(5, 0x59f111f1, 0x00000000, 0x2b4209f5, 0x714260ad);
    Step(6, 0x923f82a4, 0x00000000, 0xe5030380, 0x9b27a401);
    Step(7, 0xab1c5ed5, 0x00000000, 0x85a07b5f, 0x0c657a79);
  }

  lemma After16()
    ensures After(16, Vars(0xb0fa238e, 0xc0645fde, 0xd932eb16, 0x87912990,
                            0x07590dcd, 0x0b92f20c, 0x745a48de, 0x1e578218))
  {
    hide W, INITIAL, Rounds, BLOCK, IsWord, Now, IsConstant;
    After8();
    Constants8();
    Constants12();
    Words0();
    Step(8, 0xd807aa98, 0x00000000, 0x8e04ecb9, 0x32ca2d8c);
    Step(9, 0x12835b01, 0x00000000, 0x8c87346b, 0x1cc92596);
    Step(10, 0x243185be, 0x00000000, 0x4798a3f4, 0x436b23e8);
    Step(11, 0x550c7dc3, 0x00000000, 0xf71fc5a9, 0x816fd6e9);
    Step(12, 0x72be5d74, 0x00000000, 0x87912990, 0x1e578218);
    Step(13, 0x80deb1fe, 0x00000000, 0xd932eb16, 0x745a48de);
    Step(14, 0x9bdc06a7, 0x00000000, 0xc0645fde, 0x0b92f20c);
    Step(15, 0xc19bf174, 0x00000018, 0xb0fa238e, 0x07590dcd);
  }

  lemma After24()
    ensures After(24, Vars(0xc5d53d8d, 0xa7a3623f, 0xc2606d6d, 0x9dc68b63,
                            0xaa47c347, 0x49f5114a, 0xe1257970, 0x8ada8930))
  {
    hide W, INITIAL, Rounds, BLOCK, IsWord, Now, IsConstant;
    After16();
    Constants16();
    Constants20();
    Words16();
    Step(16, 0xe49b69c1, 0x61626380, 0x21da9a9b, 0x8034229c);
    Step(17, 0xefbe4786, 0x000f0000, 0xc2fbd9d1, 0x846ee454);
    Step(18, 0x0fc19dc6, 0x7da86405, 0xfe777bbf, 0xcc899961);
    Step(19, 0x240ca1cc, 0x600003c6, 0xe1f20c33, 0xb0638179);
    Step(20, 0x2de92c6f, 0x3e9d7b78, 0x9dc68b63, 0x8ada8930);
    Step(21, 0x4a7484aa, 0x0183fc00, 0xc2606d6d, 0xe1257970);
    Step(22, 0x5cb0a9dc, 0x12dcbfdb, 0xa7a3623f, 0x49f5114a);
    Step(23, 0x76f988da, 0xe2e2c38e, 0xc5d53d8d, 0xaa47c347);
  }

  lemma After32()
    ensures After(32, Vars(0x73b33bf5, 0xea992a22, 0xa0060b30, 0x363482c9,
                            0xba591112, 0x0109ab3a, 0xade79437, 0x6112a3b7))
  {
    hide W, INITIAL, Rounds, BLOCK, IsWord, Now, IsConstant;
    After24();
    Constants24();
    Constants28();
    Words24();
    Step(24, 0x983e5152, 0xc8215c1a, 0x1c2c2838, 0x2823ef91);
    Step(25, 0xa831c66d, 0xb73679a2, 0xcde8037d, 0x14383d8e);
    Step(26, 0xb00327c8, 0xe5bc3909, 0xb62ec4bc, 0xc74c6516);
    Step(27, 0xbf597fc7, 0x32663c5b, 0x77d37528, 0xedffbff8);
    Step(28, 0xc6e00bf3, 0x9d209d67, 0x363482c9, 0x6112a3b7);
    Step(29, 0xd5a79147, 0xec8726cb, 0xa0060b30, 0xade79437);
    Step(30, 0x06ca6351, 0x702138a4, 0xea992a22, 0x0109ab3a);
    Step(31, 0x14292967, 0xd3b7973b, 0x73b33bf5, 0xba591112);
  }

  lemma After40()
    ensures After(40, Vars(0x79ea687a, 0x6dc57a8a, 0x34df1604, 0x41a65cb1,
                            0x1efbc0a0, 0xf0781bc8, 0xa507a53d, 0x0772a26b))
  {
    hide W, INITIAL, Rounds, BLOCK, IsWord, Now, IsConstant;
    After32();
    Constants32();
    Constants36();
    Words32();
    Step(32, 0x27b70a85, 0x93f5997f, 0x98e12507, 0x9cd9f5f6);
    Step(33, 0x2e1b2138, 0x3b68ba73, 0xfe604df5, 0x59249dd3);
    Step(34, 0x4d2c6dfc, 0xaff4ffc1, 0xa9a7738c, 0x085f3833);
    Step(35, 0x53380d13, 0xf10a5c62, 0x65a0cfe4, 0xf4b002d6);
    Step(36, 0x650a7354, 0x0a8b3996, 0x41a65cb1, 0x0772a26b);
    Step(37, 0x766a0abb, 0x72af830a, 0x34df1604, 0xa507a53d);
    Step(38, 0x81c2c92e, 0x9409e33e, 0x6dc57a8a, 0xf0781bc8);
    Step(39, 0x92722c85, 0x24641522, 0x79ea687a, 0x1efbc0a0);
  }

  lemma After48()
    ensures After(48, Vars(0x4172328d, 0xa14c14b0, 0x72ab4b91, 0x26628815,
                            0xfecf0bc6, 0xd57b94a9, 0xb7755da1, 0xa80f11f0))
  {
    hide W, INITIAL, Rounds, BLOCK, IsWord, Now, IsConstant;
    After40();
    Constants40();
    Constants44();
    Words40();
    Step(40, 0xa2bfe8a1, 0x9f47bf94, 0xd6670766, 0x26352d63);
    Step(41, 0xa81a664b, 0xf0a64f5a, 0xdf46652f, 0x838b2711);
    Step(42, 0xc24b8b70, 0x3e246a79, 0x17aa0dfe, 0xdecd4715);
    Step(43, 0xc76c51a3, 0x27333ba3, 0x9d4baf93, 0xfda24c2e);
    Step(44, 0xd192e819, 0x0c4763f2, 0x26628815, 0xa80f11f0);
    Step(45, 0xd6990624, 0x840abf27, 0x72ab4b91, 0xb7755da1);
    Step(46, 0xf40e3585, 0x7a290d5d, 0xa14c14b0, 0xd57b94a9);
    Step(47, 0x106aa070, 0x065c43da, 0x4172328d, 0xfecf0bc6);
  }

  lemma After56()
    ensures After(56, Vars(0x38cc9913, 0x3ec45cdb, 0xf5702fdb, 0x101fd28f,
                            0x54cb266b, 0xe50e1b4f, 0x9f4787c3, 0x529e7d00))
  {
    hide W, INITIAL, Rounds, BLOCK, IsWord, Now, IsConstant;
    After48();
    Constants48();
    Constants52();
    Words48();
    Step(48, 0x19a4c116, 0xfb3e89cb, 0x05757ceb, 0xbd714038);
    Step(49, 0x1e376c08, 0xcc7617db, 0xf11bfaa8, 0x6e5c390c);
    Step(50, 0x2748774c, 0xb9e66c34, 0x7a0508a1, 0x52f1ccf7);
    Step(51, 0x34b0bcb5, 0xa9993667, 0x886e7a22, 0x49231c1e);
    Step(52, 0x391c0cb3, 0x84badedd, 0x101fd28f, 0x529e7d00);
    Step(53, 0x4ed8aa4a, 0xc21462bc, 0xf5702fdb, 0x9f4787c3);
    Step(54, 0x5b9cca4f, 0x1487472c, 0x3ec45cdb, 0xe50e1b4f);
    Step(55, 0x682e6ff3, 0xb20f7a99, 0x38cc9913, 0x54cb266b);
  }

  lemma After64()
    ensures After(64, Vars(0x506e3058, 0xd39a2165, 0x04d24d6c, 0xb85e2ce9,
                            0x5ef50f24, 0xfb121210, 0x948d25b6, 0x961f4894))
  {
    hide W, INITIAL, Rounds, BLOCK, IsWord, Now, IsConstant;
    After56();
    Constants56();
    Constants60();
    Words56();
    Step(56, 0x748f82ee, 0xef57b9cd, 0xfcd1887b, 0x9b5e906c);
    Step(57, 0x78a5636f, 0xebe6b238, 0xc062d46f, 0x7e44008e);
    Step(58, 0x84c87814, 0x9fe3095e, 0xffb70472, 0x6d83bfc6);
    Step(59, 0x8cc70208, 0x78bc8d4b, 0xb6ae8fff, 0xb21bad3d);
    Step(60, 0x90befffa, 0xa43fcf15, 0xb85e2ce9, 0x961f4894);
    Step(61, 0xa4506ceb, 0x668b2ff8, 0x04d24d6c, 0x948d25b6);
    Step(62, 0xbef9a3f7, 0xeeaba2cc, 0xd39a2165, 0xfb121210);
    Step(63, 0xc67178f2, 0x12b1edeb, 0x506e3058, 0x5ef50f24);
  }

  /** The hash of "abc". */
  lemma HashOfAbc()
    ensures Sha256.Sha256(ABC)
         == Vars(0xba7816bf, 0x8f01cfea, 0x414140de, 0x5dae2223,
                 0xb00361a3, 0x96177a9c, 0xb410ff61, 0xf20015ad)
  {
    hide Rounds, Pad, INITIAL, BLOCK;
    OneBlock();
    Initial();
    After64();
    assert BLOCK[64 * 0..64 * 1] == BLOCK;
    assert HashBlocks(BLOCK, 1) == Compress(HashBlocks(BLOCK, 0), BLOCK);
  }
}
