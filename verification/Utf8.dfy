/** src/composerSend.ts:82-104, 205-243: what the composer writes for a text, against section 3
    of RFC 3629. A text is a sequence of UTF-16 code units. */
module Utf8 {
  type u16 = x: nat | x < 0x1_0000

  type u8 = x: nat | x < 256

  type Text = seq<u16>

  type Bytes = seq<u8>

  /** Every code point but the surrogates. */
  type Scalar = x: nat | x < 0xd800 || 0xe000 <= x < 0x11_0000

  const REPLACEMENT: Scalar := 0xfffd

  predicate IsHigh(unit: u16) {
    0xd800 <= unit < 0xdc00
  }

  predicate IsLow(unit: u16) {
    0xdc00 <= unit < 0xe000
  }

  function Pair(high: u16, low: u16): (s: Scalar)
    requires IsHigh(high) && IsLow(low)
    ensures s >= 0x1_0000
  {
    0x1_0000 + (high - 0xd800) * 0x400 + (low - 0xdc00)
  }

  predicate StartsPaired(text: Text) {
    |text| >= 2 && IsHigh(text[0]) && IsLow(text[1])
  }

  function Width(text: Text): (n: nat)
    requires text != []
    ensures 1 <= n <= |text|
  {
    if StartsPaired(text) then 2 else 1
  }

  function FirstScalar(text: Text): Scalar
    requires text != []
  {
    if StartsPaired(text) then Pair(text[0], text[1])
    else if IsHigh(text[0]) || IsLow(text[0]) then REPLACEMENT
    else text[0]
  }

  /** The scalar values of a text; an unpaired surrogate reads as U+FFFD. */
  function Scalars(text: Text): seq<Scalar> {
    if text == [] then [] else [FirstScalar(text)] + Scalars(text[Width(text)..])
  }

  // ----- encoding -----

  function EncodeScalar(s: Scalar): (b: Bytes)
    ensures 1 <= |b| <= 4
  {
    if s <= 0x7f then [s]
    else if s <= 0x7ff then [0xc0 + s / 0x40, 0x80 + s % 0x40]
    else if s <= 0xffff then [0xe0 + s / 0x1000, 0x80 + s / 0x40 % 0x40, 0x80 + s % 0x40]
    else [0xf0 + s / 0x4_0000, 0x80 + s / 0x1000 % 0x40, 0x80 + s / 0x40 % 0x40, 0x80 + s % 0x40]
  }

  function Encode(scalars: seq<Scalar>): Bytes {
    if scalars == [] then [] else EncodeScalar(scalars[0]) + Encode(scalars[1..])
  }

  function EncodeText(text: Text): Bytes {
    Encode(Scalars(text))
  }

  lemma EncodeAppend(a: seq<Scalar>, b: seq<Scalar>)
    ensures Encode(a + b) == Encode(a) + Encode(b)
  {
    if a == [] {
      assert a + b == b;
    } else {
      assert (a + b)[1..] == a[1..] + b;
      EncodeAppend(a[1..], b);
    }
  }

  /** `encodeComposerText`. */
  method EncodeComposerText(text: Text) returns (bytes: Bytes)
    ensures bytes == EncodeText(text)
  {
    hide EncodeScalar;
    bytes := [];
    var index := 0;
    while index < |text|
      invariant index <= |text| && bytes + EncodeText(text[index..]) == EncodeText(text)
    {
      var first := text[index];
      var scalar: Scalar := REPLACEMENT;
      ghost var rest := text[index..];
      if IsHigh(first) && index + 1 < |text| && IsLow(text[index + 1]) {
        scalar := Pair(first, text[index + 1]);
        index := index + 1;
        assert text[index + 1..] == rest[2..];
      } else {
        if !IsHigh(first) && !IsLow(first) {
          scalar := first;
        }
        assert text[index + 1..] == rest[1..];
      }
      EncodeAppend([scalar], Scalars(text[index + 1..]));
      assert Scalars(rest) == [scalar] + Scalars(text[index + 1..]);
      One(scalar);
      bytes := bytes + EncodeScalar(scalar);
      index := index + 1;
    }
  }

  lemma One(s: Scalar)
    ensures Encode([s]) == EncodeScalar(s)
  {
    assert [s][1..] == [];
  }

  // ----- decoding -----

  predicate IsTail(b: u8) {
    0x80 <= b < 0xc0
  }

  datatype Decoded = Malformed | Decoded(scalars: seq<Scalar>)

  /** The length a first byte announces, or 0. */
  function Announced(first: u8): nat {
    if first < 0x80 then 1
    else if 0xc2 <= first < 0xe0 then 2
    else if 0xe0 <= first < 0xf0 then 3
    else if 0xf0 <= first < 0xf5 then 4
    else 0
  }

  /** The payload bits of a byte. */
  function Low(b: u8, m: nat): nat
    requires m > 0
  {
    b % m
  }

  function ValueOf(b: Bytes, n: nat): nat
    requires 1 <= n <= |b| && n <= 4
  {
    match n
    case 1 => b[0]
    case 2 => 0x40 * Low(b[0], 0x20) + Low(b[1], 0x40)
    case 3 => 0x1000 * Low(b[0], 0x10) + 0x40 * Low(b[1], 0x40) + Low(b[2], 0x40)
    case _ => 0x4_0000 * Low(b[0], 0x08) + 0x1000 * Low(b[1], 0x40) + 0x40 * Low(b[2], 0x40) + Low(b[3], 0x40)
  }

  /** The least value an encoding of n bytes may have: no overlong forms. */
  function Least(n: nat): nat {
    match n
    case 2 => 0x80
    case 3 => 0x800
    case 4 => 0x1_0000
    case _ => 0
  }

  predicate IsScalar(v: nat) {
    v < 0xd800 || 0xe000 <= v < 0x11_0000
  }

  /** The first character is well formed. */
  predicate StartsWell(b: Bytes) {
    && b != [] && Announced(b[0]) > 0 && Announced(b[0]) <= |b|
    && (forall i | 1 <= i < Announced(b[0]) :: IsTail(b[i]))
    && Least(Announced(b[0])) <= ValueOf(b, Announced(b[0])) && IsScalar(ValueOf(b, Announced(b[0])))
  }

  /** A strict decoder: section 4 of RFC 3629. */
  function Decode(b: Bytes): Decoded
    decreases |b|
  {
    if b == [] then Decoded([])
    else if !StartsWell(b) then Malformed
    else
      var n := Announced(b[0]);
      match Decode(b[n..])
      case Malformed => Malformed
      case Decoded(rest) => Decoded([ValueOf(b, n)] + rest)
  }

  lemma Value2(s: nat)
    requires 0x80 <= s <= 0x7ff
    ensures 0xc2 <= 0xc0 + s / 0x40 < 0xe0 && 0x40 * ((0xc0 + s / 0x40) % 0x20) + (0x80 + s % 0x40) % 0x40 == s
  {
  }

  lemma Value3(s: nat)
    requires 0x800 <= s <= 0xffff
    ensures 0xe0 <= 0xe0 + s / 0x1000 < 0xf0
    ensures 0x1000 * ((0xe0 + s / 0x1000) % 0x10) + 0x40 * ((0x80 + s / 0x40 % 0x40) % 0x40) + (0x80 + s % 0x40) % 0x40 == s
  {
    assert s == 0x40 * (s / 0x40) + s % 0x40 && s / 0x40 == 0x40 * (s / 0x1000) + s / 0x40 % 0x40;
  }

  lemma Value4(s: nat)
    requires 0x1_0000 <= s < 0x11_0000
    ensures 0xf0 <= 0xf0 + s / 0x4_0000 < 0xf5
    ensures 0x4_0000 * ((0xf0 + s / 0x4_0000) % 0x08) + 0x1000 * ((0x80 + s / 0x1000 % 0x40) % 0x40)
              + 0x40 * ((0x80 + s / 0x40 % 0x40) % 0x40) + (0x80 + s % 0x40) % 0x40 == s
  {
    assert s == 0x40 * (s / 0x40) + s % 0x40 && s / 0x40 == 0x40 * (s / 0x1000) + s / 0x40 % 0x40;
    assert s / 0x1000 == 0x40 * (s / 0x4_0000) + s / 0x1000 % 0x40;
  }

  lemma EncodedStartsWell(s: Scalar, rest: Bytes)
    ensures var b := EncodeScalar(s) + rest;
            StartsWell(b) && Announced(b[0]) == |EncodeScalar(s)| && ValueOf(b, |EncodeScalar(s)|) == s
  {
    if 0x80 <= s <= 0x7ff {
      Value2(s);
    } else if 0x800 <= s <= 0xffff {
      Value3(s);
    } else if 0x1_0000 <= s {
      Value4(s);
    }
  }

  /** The output is well formed and decodes to the scalar values. */
  lemma {:induction false} DecodeEncodes(scalars: seq<Scalar>)
    ensures Decode(Encode(scalars)) == Decoded(scalars)
  {
    if scalars != [] {
      var first, rest := EncodeScalar(scalars[0]), Encode(scalars[1..]);
      EncodedStartsWell(scalars[0], rest);
      hide EncodeScalar, StartsWell, Announced, ValueOf;
      DecodeEncodes(scalars[1..]);
      assert (first + rest)[|first|..] == rest;
      assert scalars == [scalars[0]] + scalars[1..];
    }
  }

  lemma Parts(s: nat, a: nat, b: nat, c: nat, d: nat)
    requires a < 8 && b < 0x40 && c < 0x40 && d < 0x40 && s == 0x4_0000 * a + 0x1000 * b + 0x40 * c + d
    ensures s % 0x40 == d && s / 0x40 % 0x40 == c && s / 0x1000 % 0x40 == b && s / 0x4_0000 == a && s / 0x1000 == 0x40 * a + b
    ensures s / 0x40 == 0x1000 * a + 0x40 * b + c
  {
  }

  lemma Bits(b: u8)
    ensures 0xc2 <= b < 0xe0 ==> Low(b, 0x20) == b - 0xc0
    ensures 0xe0 <= b < 0xf0 ==> Low(b, 0x10) == b - 0xe0
    ensures 0xf0 <= b < 0xf5 ==> Low(b, 0x08) == b - 0xf0
    ensures IsTail(b) ==> Low(b, 0x40) == b - 0x80
  {
  }

  lemma Well2(b: Bytes)
    requires StartsWell(b) && Announced(b[0]) == 2
    ensures EncodeScalar(ValueOf(b, 2)) == b[..2]
  {
    Bits(b[0]);
    Bits(b[1]);
    hide Low;
    Parts(ValueOf(b, 2), 0, 0, Low(b[0], 0x20), Low(b[1], 0x40));
  }

  lemma Well3(b: Bytes)
    requires StartsWell(b) && Announced(b[0]) == 3
    ensures EncodeScalar(ValueOf(b, 3)) == b[..3]
  {
    Bits(b[0]);
    Bits(b[1]);
    Bits(b[2]);
    hide Low;
    Parts(ValueOf(b, 3), 0, Low(b[0], 0x10), Low(b[1], 0x40), Low(b[2], 0x40));
  }

  lemma Well4(b: Bytes)
    requires StartsWell(b) && Announced(b[0]) == 4
    ensures EncodeScalar(ValueOf(b, 4)) == b[..4]
  {
    Bits(b[0]);
    Bits(b[1]);
    Bits(b[2]);
    Bits(b[3]);
    hide Low;
    Parts(ValueOf(b, 4), Low(b[0], 0x08), Low(b[1], 0x40), Low(b[2], 0x40), Low(b[3], 0x40));
  }

  lemma WellIsEncoded(b: Bytes)
    requires StartsWell(b)
    ensures EncodeScalar(ValueOf(b, Announced(b[0]))) == b[..Announced(b[0])]
  {
    if Announced(b[0]) == 2 {
      Well2(b);
    } else if Announced(b[0]) == 3 {
      Well3(b);
    } else if Announced(b[0]) == 4 {
      Well4(b);
    }
  }

  /** The decoder accepts nothing else: what it decodes is the encoding of the result. */
  lemma {:induction false} EncodeDecodes(b: Bytes)
    requires Decode(b).Decoded?
    ensures Encode(Decode(b).scalars) == b
    decreases |b|
  {
    if b != [] {
      var n := Announced(b[0]);
      WellIsEncoded(b);
      hide EncodeScalar, ValueOf;
      EncodeDecodes(b[n..]);
      assert Decode(b).scalars[1..] == Decode(b[n..]).scalars;
    }
  }

  // ----- back to UTF-16 -----

  function HighOf(s: nat): u16
    requires 0x1_0000 <= s < 0x11_0000
  {
    0xd800 + (s - 0x1_0000) / 0x400
  }

  function LowOf(s: nat): u16
    requires 0x1_0000 <= s < 0x11_0000
  {
    0xdc00 + (s - 0x1_0000) % 0x400
  }

  function ToUtf16(scalars: seq<Scalar>): Text {
    if scalars == [] then []
    else
      var s := scalars[0];
      (if s < 0x1_0000 then [s] else [HighOf(s), LowOf(s)]) + ToUtf16(scalars[1..])
  }

  /** A surrogate with no partner beside it. */
  predicate IsUnpaired(text: Text, i: nat)
    requires i < |text|
  {
    || (IsHigh(text[i]) && !(i + 1 < |text| && IsLow(text[i + 1])))
    || (IsLow(text[i]) && !(i > 0 && IsHigh(text[i - 1])))
  }

  /** The text with U+FFFD for every unpaired surrogate. */
  function Scrubbed(text: Text): (t: Text)
    ensures |t| == |text|
  {
    seq(|text|, i requires 0 <= i < |text| => if IsUnpaired(text, i) then REPLACEMENT else text[i])
  }

  lemma ScrubbedTail(text: Text)
    requires text != []
    ensures Scrubbed(text) == Scrubbed(text)[..Width(text)] + Scrubbed(text[Width(text)..])
  {
    var n := Width(text);
    forall i | n <= i < |text|
      ensures IsUnpaired(text, i) <==> IsUnpaired(text[n..], i - n)
    {
    }
  }

  lemma ScrubbedHead(text: Text)
    requires text != []
    ensures ToUtf16([FirstScalar(text)]) == Scrubbed(text)[..Width(text)]
  {
    assert ToUtf16([]) == [];
    if StartsPaired(text) {
      var s := FirstScalar(text);
      assert HighOf(s) == text[0] && LowOf(s) == text[1];
    }
  }

  lemma {:induction false} ScalarsReadBack(text: Text)
    ensures ToUtf16(Scalars(text)) == Scrubbed(text)
    decreases |text|
  {
    if text != [] {
      ScrubbedTail(text);
      ScrubbedHead(text);
      hide Scrubbed, FirstScalar, Width;
      ScalarsReadBack(text[Width(text)..]);
      ToUtf16Cons(FirstScalar(text), Scalars(text[Width(text)..]));
    }
  }

  lemma ToUtf16Cons(s: Scalar, rest: seq<Scalar>)
    ensures ToUtf16([s] + rest) == ToUtf16([s]) + ToUtf16(rest)
  {
    assert ([s] + rest)[1..] == rest && [s][1..] == [];
  }

  /** For every text, the bytes decode to that text with U+FFFD for unpaired surrogates. */
  lemma BytesReadBack(text: Text)
    ensures Decode(EncodeText(text)) == Decoded(Scalars(text)) && ToUtf16(Scalars(text)) == Scrubbed(text)
    ensures (forall i | 0 <= i < |text| :: !IsUnpaired(text, i)) ==> ToUtf16(Scalars(text)) == text
  {
    DecodeEncodes(Scalars(text));
    ScalarsReadBack(text);
  }

  // ----- pastes -----

  const BP_START: Text := [0x1b, '[' as u16, '2' as u16, '0' as u16, '0' as u16, '~' as u16]
  const BP_END: Text := [0x1b, '[' as u16, '2' as u16, '0' as u16, '1' as u16, '~' as u16]
  const SUBMIT_KEY: Text := [0x0d]

  predicate NeedsBracketedPaste(payload: Text) {
    0x0a in payload || 0x0d in payload
  }

  function FrameForPaste(payload: Text): Text {
    if NeedsBracketedPaste(payload) then BP_START + payload + BP_END else payload
  }

  function PayloadSegments(payload: Text): (segments: seq<Text>)
    ensures |segments| >= 1
  {
    if NeedsBracketedPaste(payload) then [BP_START, payload, BP_END] else [payload]
  }

  function EncodeAll(texts: seq<Text>): Bytes {
    if texts == [] then [] else EncodeText(texts[0]) + EncodeAll(texts[1..])
  }

  /** The cut between two texts does not part a surrogate pair. */
  predicate Cuttable(a: Text, b: Text) {
    a == [] || b == [] || !IsHigh(a[|a| - 1]) || !IsLow(b[0])
  }

  lemma HeadOfBoth(a: Text, b: Text)
    requires a != [] && Cuttable(a, b)
    ensures Width(a + b) == Width(a) && FirstScalar(a + b) == FirstScalar(a)
    ensures Cuttable(a[Width(a)..], b) && (a + b)[Width(a)..] == a[Width(a)..] + b
  {
    if |a| == 1 && b != [] {
      assert (a + b)[1] == b[0];
    }
  }

  /** A text may be encoded in two parts where it may be cut. */
  lemma {:induction false} ScalarsAppend(a: Text, b: Text)
    requires Cuttable(a, b)
    ensures Scalars(a + b) == Scalars(a) + Scalars(b)
    decreases |a|
  {
    if a == [] {
      assert a + b == b;
    } else {
      HeadOfBoth(a, b);
      ScalarsAppend(a[Width(a)..], b);
      Unfold(a);
      Unfold(a + b);
      hide Width, FirstScalar, Cuttable, Scalars;
      assert a + b != [];
    }
  }

  lemma Unfold(text: Text)
    requires text != []
    ensures Scalars(text) == [FirstScalar(text)] + Scalars(text[Width(text)..])
  {
  }

  /** The encoded segments are the encoded frame, cut in pieces. */
  lemma SegmentsMakeFrame(payload: Text)
    ensures EncodeAll(PayloadSegments(payload)) == EncodeText(FrameForPaste(payload))
  {
    if NeedsBracketedPaste(payload) {
      ScalarsAppend(BP_START, payload);
      ScalarsAppend(BP_START + payload, BP_END);
      EncodeAppend(Scalars(BP_START), Scalars(payload));
      EncodeAppend(Scalars(BP_START + payload), Scalars(BP_END));
      EncodeThree(BP_START, payload, BP_END);
    } else {
      EncodeOne(payload);
    }
  }

  lemma EncodeOne(a: Text)
    ensures EncodeAll([a]) == EncodeText(a)
  {
    assert |[a][1..]| == 0;
  }

  lemma EncodeThree(a: Text, b: Text, c: Text)
    ensures EncodeAll([a, b, c]) == EncodeText(a) + EncodeText(b) + EncodeText(c)
  {
    EncodeOne(c);
    assert [a, b, c][1..] == [b, c] && [b, c][1..] == [c];
  }
}
