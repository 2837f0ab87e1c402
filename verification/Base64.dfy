/** src/keyVault/bytes.ts and src/knownHostsCore.ts: base64 and strict base64url, sections 3.5,
    4 and 5 of RFC 4648. */
module Base64 {
  import opened Collections

  type Bytes = seq<bv8>

  // ----- the alphabets -----

  /** The table: A to Z, a to z, 0 to 9, plus and slash. */
  function Table(n: nat): char
    requires n < 64
  {
    if n < 26 then (n + 'A' as int) as char
    else if n < 52 then (n - 26 + 'a' as int) as char
    else if n < 62 then (n - 52 + '0' as int) as char
    else if n == 62 then '+' else '/'
  }

  predicate IsSextet(s: bv8) {
    s < 64
  }

  function Index(s: bv8): nat {
    s as nat
  }

  function Sextet(n: nat): bv8
    requires n < 64
  {
    n as bv8
  }

  lemma SextetOfIndex(s: bv8)
    requires IsSextet(s)
    ensures Index(s) < 64 && Sextet(Index(s)) == s
  {
  }

  lemma IndexOfSextet(n: nat)
    requires n < 64
    ensures IsSextet(Sextet(n)) && Index(Sextet(n)) == n
  {
  }

  function Symbol(s: bv8): char
    requires IsSextet(s)
  {
    Table(Index(s))
  }

  /** Where a character stands in the table. */
  function Position(c: char): (n: Option<nat>)
    ensures n.Some? ==> n.value < 64
  {
    if 'A' <= c <= 'Z' then Some(c as int - 'A' as int)
    else if 'a' <= c <= 'z' then Some(c as int - 'a' as int + 26)
    else if '0' <= c <= '9' then Some(c as int - '0' as int + 52)
    else if c == '+' then Some(62)
    else if c == '/' then Some(63)
    else None
  }

  /** The sextet a symbol stands for. */
  function Value(c: char): Option<bv8> {
    if Position(c).None? then None else Some(Sextet(Position(c).value))
  }

  // ----- encoding -----

  function First(b0: bv8): (s: bv8)
    ensures IsSextet(s)
  {
    b0 >> 2
  }

  function Second(b0: bv8, b1: bv8): (s: bv8)
    ensures IsSextet(s)
  {
    ((b0 & 0x03) << 4) | (b1 >> 4)
  }

  function Third(b1: bv8, b2: bv8): (s: bv8)
    ensures IsSextet(s)
  {
    ((b1 & 0x0f) << 2) | (b2 >> 6)
  }

  function Fourth(b2: bv8): (s: bv8)
    ensures IsSextet(s)
  {
    b2 & 0x3f
  }

  predicate AreSextets(s: Bytes) {
    forall i | 0 <= i < |s| :: IsSextet(s[i])
  }

  function Sextets(bytes: Bytes): (s: Bytes)
    ensures AreSextets(s)
  {
    if bytes == [] then []
    else if |bytes| == 1 then [First(bytes[0]), Second(bytes[0], 0)]
    else if |bytes| == 2 then [First(bytes[0]), Second(bytes[0], bytes[1]), Third(bytes[1], 0)]
    else
      [First(bytes[0]), Second(bytes[0], bytes[1]), Third(bytes[1], bytes[2]), Fourth(bytes[2])] + Sextets(bytes[3..])
  }

  function Symbols(s: Bytes): (text: string)
    requires AreSextets(s)
    ensures |text| == |s|
  {
    if s == [] then "" else [Symbol(s[0])] + Symbols(s[1..])
  }

  function Padding(length: nat): string {
    if length % 4 == 2 then "==" else if length % 4 == 3 then "=" else ""
  }

  /** Standard base64 with padding, as `btoa` gives it. */
  function Encode(bytes: Bytes): string {
    Symbols(Sextets(bytes)) + Padding(|Sextets(bytes)|)
  }

  // ----- decoding -----

  function Octet0(s0: bv8, s1: bv8): bv8 {
    (s0 << 2) | (s1 >> 4)
  }

  function Octet1(s1: bv8, s2: bv8): bv8 {
    (s1 << 4) | (s2 >> 2)
  }

  function Octet2(s2: bv8, s3: bv8): bv8 {
    (s2 << 6) | s3
  }

  /** The bytes of a run of sextets; bits left over at its end are dropped. */
  function Octets(s: Bytes): Bytes {
    if |s| < 2 then []
    else if |s| == 2 then [Octet0(s[0], s[1])]
    else if |s| == 3 then [Octet0(s[0], s[1]), Octet1(s[1], s[2])]
    else [Octet0(s[0], s[1]), Octet1(s[1], s[2]), Octet2(s[2], s[3])] + Octets(s[4..])
  }

  predicate IsWhitespace(c: char) {
    c == ' ' || c == '\t' || c == '\n' || c == '\r' || c as int == 12
  }

  function RemoveWhitespace(text: string): string {
    if text == "" then ""
    else if IsWhitespace(text[0]) then RemoveWhitespace(text[1..])
    else [text[0]] + RemoveWhitespace(text[1..])
  }

  function DropPadding(text: string): string {
    if |text| > 0 && text[|text| - 1] == '=' then
      if |text| > 1 && text[|text| - 2] == '=' then text[..|text| - 2] else text[..|text| - 1]
    else text
  }

  function Values(text: string): (s: Option<Bytes>)
    ensures s.Some? ==> |s.value| == |text|
  {
    if text == "" then Some([])
    else
      var rest := Values(text[1..]);
      if Value(text[0]).None? || rest.None? then None else Some([Value(text[0]).value] + rest.value)
  }

  /** `atob`: the forgiving decoder of the platform, which ignores leftover bits. */
  function Decode(text: string): Option<Bytes> {
    var plain := RemoveWhitespace(text);
    var body := if |plain| % 4 == 0 then DropPadding(plain) else plain;
    if |body| % 4 == 1 || Values(body).None? then None else Some(Octets(Values(body).value))
  }

  // ----- the url alphabet -----

  function UrlSymbol(c: char): char {
    if c == '+' then '-' else if c == '/' then '_' else c
  }

  function StandardSymbol(c: char): char {
    if c == '-' then '+' else if c == '_' then '/' else c
  }

  predicate IsUrlSymbol(c: char) {
    'A' <= c <= 'Z' || 'a' <= c <= 'z' || '0' <= c <= '9' || c == '_' || c == '-'
  }

  predicate IsUrlText(text: string) {
    forall i | 0 <= i < |text| :: IsUrlSymbol(text[i])
  }

  function ToUrl(text: string): (r: string)
    ensures |r| == |text| && forall i | 0 <= i < |text| :: r[i] == UrlSymbol(text[i])
  {
    seq(|text|, i requires 0 <= i < |text| => UrlSymbol(text[i]))
  }

  function ToStandard(text: string): (r: string)
    ensures |r| == |text| && forall i | 0 <= i < |text| :: r[i] == StandardSymbol(text[i])
  {
    seq(|text|, i requires 0 <= i < |text| => StandardSymbol(text[i]))
  }

  function StripPadding(text: string): string {
    if text != "" && text[|text| - 1] == '=' then StripPadding(text[..|text| - 1]) else text
  }

  function ToB64url(bytes: Bytes): string {
    StripPadding(ToUrl(Encode(bytes)))
  }

  function Equals(count: nat): (r: string)
    ensures |r| == count
  {
    if count == 0 then "" else Equals(count - 1) + "="
  }

  function FromB64url(text: string): Option<Bytes> {
    if !IsUrlText(text) || |text| % 4 == 1 then None
    else
      var bytes := Decode(ToStandard(text) + Equals((4 - |text| % 4) % 4));
      if bytes.None? || ToB64url(bytes.value) != text then None else bytes
  }

  // ----- the alphabet is read back -----

  lemma TablePosition(n: nat)
    requires n < 64
    ensures Position(Table(n)) == Some(n)
    ensures Table(n) !in {'-', '_', '='} && IsUrlSymbol(UrlSymbol(Table(n))) && !IsWhitespace(Table(n))
  {
  }

  lemma PositionTable(c: char)
    requires Position(c).Some?
    ensures Table(Position(c).value) == c
  {
  }

  lemma ValueOfSymbol(s: bv8)
    requires IsSextet(s)
    ensures Value(Symbol(s)) == Some(s)
    ensures Symbol(s) !in {'-', '_', '='} && IsUrlSymbol(UrlSymbol(Symbol(s))) && !IsWhitespace(Symbol(s))
  {
    hide Table, Sextet, Index, Position;
    SextetOfIndex(s);
    TablePosition(Index(s));
  }

  lemma SymbolOfValue(c: char)
    requires Value(c).Some?
    ensures IsSextet(Value(c).value) && Symbol(Value(c).value) == c
  {
    hide Table, Sextet, Index, Position;
    IndexOfSextet(Position(c).value);
    PositionTable(c);
  }

  // ----- decoding inverts encoding -----

  lemma GroupReads(b0: bv8, b1: bv8, b2: bv8)
    ensures Octet0(First(b0), Second(b0, b1)) == b0
    ensures Octet1(Second(b0, b1), Third(b1, b2)) == b1
    ensures Octet2(Third(b1, b2), Fourth(b2)) == b2
  {
  }

  lemma OctetsGroup(a: bv8, b: bv8, c: bv8, d: bv8, rest: Bytes)
    ensures Octets([a, b, c, d] + rest) == [Octet0(a, b), Octet1(b, c), Octet2(c, d)] + Octets(rest)
  {
    hide Octet0, Octet1, Octet2;
    assert ([a, b, c, d] + rest)[4..] == rest;
  }

  lemma {:induction false} OctetsOfSextets(bytes: Bytes)
    ensures Octets(Sextets(bytes)) == bytes
  {
    hide First, Second, Third, Fourth, Octet0, Octet1, Octet2;
    if bytes == [] {
    } else if |bytes| == 1 {
      GroupReads(bytes[0], 0, 0);
    } else if |bytes| == 2 {
      GroupReads(bytes[0], bytes[1], 0);
    } else {
      GroupReads(bytes[0], bytes[1], bytes[2]);
      OctetsOfSextets(bytes[3..]);
      OctetsGroup(First(bytes[0]), Second(bytes[0], bytes[1]), Third(bytes[1], bytes[2]), Fourth(bytes[2]), Sextets(bytes[3..]));
      assert [bytes[0], bytes[1], bytes[2]] + bytes[3..] == bytes;
    }
  }

  /** The bits of the last sextet that no byte uses are all zero. */
  predicate SpareBitsClear(s: Bytes) {
    && (|s| % 4 == 2 ==> s[|s| - 1] & 0x0f == 0)
    && (|s| % 4 == 3 ==> s[|s| - 1] & 0x03 == 0)
  }

  lemma GroupWrites(s0: bv8, s1: bv8, s2: bv8, s3: bv8)
    requires IsSextet(s0) && IsSextet(s1) && IsSextet(s2) && IsSextet(s3)
    ensures First(Octet0(s0, s1)) == s0
    ensures Second(Octet0(s0, s1), Octet1(s1, s2)) == s1
    ensures Third(Octet1(s1, s2), Octet2(s2, s3)) == s2
    ensures Fourth(Octet2(s2, s3)) == s3
    ensures Second(Octet0(s0, s1), 0) == s1 <==> s1 & 0x0f == 0
    ensures Third(Octet1(s1, s2), 0) == s2 <==> s2 & 0x03 == 0
  {
  }

  lemma SextetsGroup(a: bv8, b: bv8, c: bv8, rest: Bytes)
    ensures Sextets([a, b, c] + rest) == [First(a), Second(a, b), Third(b, c), Fourth(c)] + Sextets(rest)
  {
    hide First, Second, Third, Fourth;
    assert ([a, b, c] + rest)[3..] == rest;
  }

  lemma ZeroIsSextet()
    ensures IsSextet(0)
  {
  }

  lemma ShortWrites(s: Bytes)
    requires AreSextets(s) && |s| < 4 && |s| != 1
    ensures Sextets(Octets(s)) == s <==> SpareBitsClear(s)
  {
    hide First, Second, Third, Fourth, Octet0, Octet1, Octet2, IsSextet;
    ZeroIsSextet();
    if |s| == 2 {
      GroupWrites(s[0], s[1], 0, 0);
    } else if |s| == 3 {
      GroupWrites(s[0], s[1], s[2], 0);
    }
  }

  lemma SpareBitsOfRest(s: Bytes)
    requires |s| >= 4
    ensures SpareBitsClear(s) <==> SpareBitsClear(s[4..])
  {
  }

  lemma SextetsOfRest(s: Bytes)
    requires AreSextets(s) && |s| >= 4
    ensures AreSextets(s[4..]) && IsSextet(s[0]) && IsSextet(s[1]) && IsSextet(s[2]) && IsSextet(s[3])
  {
  }

  /** Encoding gives the sextets back exactly when their spare bits are clear. */
  lemma {:induction false} SextetsOfOctets(s: Bytes)
    requires AreSextets(s) && |s| % 4 != 1
    ensures Sextets(Octets(s)) == s <==> SpareBitsClear(s)
  {
    hide *;
    if |s| < 4 {
      ShortWrites(s);
    } else {
      var rest := s[4..];
      SextetsOfRest(s);
      assert s == [s[0], s[1], s[2], s[3]] + rest;
      SextetsOfOctets(rest);
      FullGroupWrites(s[0], s[1], s[2], s[3], rest);
      SpareBitsOfRest(s);
    }
  }

  lemma FullGroupWrites(a: bv8, b: bv8, c: bv8, d: bv8, rest: Bytes)
    requires IsSextet(a) && IsSextet(b) && IsSextet(c) && IsSextet(d)
    ensures Sextets(Octets([a, b, c, d] + rest)) == [a, b, c, d] + Sextets(Octets(rest))
  {
    hide *;
    OctetsGroup(a, b, c, d, rest);
    GroupWrites(a, b, c, d);
    SextetsGroup(Octet0(a, b), Octet1(b, c), Octet2(c, d), Octets(rest));
  }

  lemma {:induction false} ValuesOfSymbols(s: Bytes)
    requires AreSextets(s)
    ensures Values(Symbols(s)) == Some(s)
  {
    hide Symbol, Value, IsSextet;
    if s != [] {
      ValueOfSymbol(s[0]);
      ValuesOfSymbols(s[1..]);
      assert Symbols(s)[1..] == Symbols(s[1..]) && [s[0]] + s[1..] == s;
    }
  }

  lemma {:induction false} SymbolsOfValues(text: string)
    requires Values(text).Some?
    ensures AreSextets(Values(text).value) && Symbols(Values(text).value) == text
  {
    hide Symbol, Value, IsSextet;
    if text != "" {
      SymbolOfValue(text[0]);
      SymbolsOfValues(text[1..]);
      var s := Values(text).value;
      assert s[1..] == Values(text[1..]).value && [text[0]] + text[1..] == text;
    }
  }

  /** Text of the standard alphabet. */
  predicate IsStandardText(text: string) {
    forall i | 0 <= i < |text| :: Value(text[i]).Some?
  }

  lemma {:induction false} ValuesExist(text: string)
    ensures Values(text).Some? <==> IsStandardText(text)
  {
    hide Value;
    if text != "" {
      ValuesExist(text[1..]);
      assert IsStandardText(text) ==> Value(text[0]).Some? && IsStandardText(text[1..]);
      assert forall i | 0 < i < |text| :: text[i] == text[1..][i - 1];
    }
  }

  lemma StandardChar(c: char)
    requires Value(c).Some?
    ensures IsUrlSymbol(UrlSymbol(c)) && StandardSymbol(UrlSymbol(c)) == c && UrlSymbol(c) != '=' && c != '=' && !IsWhitespace(c)
  {
  }

  lemma UrlChar(c: char)
    requires IsUrlSymbol(c)
    ensures Value(StandardSymbol(c)).Some? && UrlSymbol(StandardSymbol(c)) == c
  {
  }

  lemma UrlAndBack(text: string)
    requires IsStandardText(text)
    ensures IsUrlText(ToUrl(text)) && ToStandard(ToUrl(text)) == text
  {
    hide Value, IsUrlSymbol, UrlSymbol, StandardSymbol;
    forall i | 0 <= i < |text|
      ensures IsUrlSymbol(ToUrl(text)[i]) && ToStandard(ToUrl(text))[i] == text[i]
    {
      StandardChar(text[i]);
    }
  }

  lemma StandardAndBack(text: string)
    requires IsUrlText(text)
    ensures IsStandardText(ToStandard(text)) && ToUrl(ToStandard(text)) == text
  {
    hide Value, IsUrlSymbol, UrlSymbol, StandardSymbol;
    forall i | 0 <= i < |text|
      ensures Value(ToStandard(text)[i]).Some? && ToUrl(ToStandard(text))[i] == text[i]
    {
      UrlChar(text[i]);
    }
  }

  // ----- padding comes and goes -----

  lemma StripAppended(text: string, padding: string)
    requires padding == "" || padding == "=" || padding == "=="
    requires text != "" ==> text[|text| - 1] != '='
    ensures StripPadding(text + padding) == text
  {
    assert (text + "==")[..|text| + 1] == text + "=" && (text + "=")[..|text|] == text && text + "" == text;
    assert StripPadding(text) == text;
    assert StripPadding(text + "=") == text;
  }

  /** Stripped and in the url alphabet, an encoding is just its symbols. */
  lemma UrlIsSymbols(bytes: Bytes)
    ensures IsStandardText(Symbols(Sextets(bytes)))
    ensures ToB64url(bytes) == ToUrl(Symbols(Sextets(bytes)))
  {
    hide Value, UrlSymbol, Sextets, StripPadding;
    var s := Sextets(bytes);
    var body, padding := Symbols(s), Padding(|s|);
    ValuesOfSymbols(s);
    ValuesExist(body);
    if body != "" {
      StandardChar(body[|body| - 1]);
    }
    EqualsStays();
    assert ToUrl(body + padding) == ToUrl(body) + padding;
    StripAppended(ToUrl(body), padding);
  }

  lemma EqualsStays()
    ensures UrlSymbol('=') == '='
  {
  }

  lemma {:induction false} NoWhitespace(text: string)
    requires forall i | 0 <= i < |text| :: !IsWhitespace(text[i])
    ensures RemoveWhitespace(text) == text
  {
    hide IsWhitespace;
    if text != "" {
      NoWhitespace(text[1..]);
      assert [text[0]] + text[1..] == text;
    }
  }

  lemma EqualsOf(length: nat)
    requires length % 4 != 1
    ensures Equals((4 - length % 4) % 4) == Padding(length)
    ensures (length + |Padding(length)|) % 4 == 0
  {
    assert Equals(0) == "" && Equals(1) == "=" && Equals(2) == "==";
  }

  lemma DropAppended(text: string, padding: string)
    requires padding == "" || padding == "=" || padding == "=="
    requires text != "" ==> text[|text| - 1] != '='
    ensures DropPadding(text + padding) == text
  {
  }

  lemma PaddedIsPlain(text: string)
    requires IsStandardText(text)
    ensures RemoveWhitespace(text + Padding(|text|)) == text + Padding(|text|)
    ensures DropPadding(text + Padding(|text|)) == text
  {
    hide Value, IsWhitespace, DropPadding, RemoveWhitespace;
    var padded := text + Padding(|text|);
    forall i | 0 <= i < |padded|
      ensures !IsWhitespace(padded[i])
    {
      if i < |text| { StandardChar(text[i]); } else { EqualsIsNoSpace(); }
    }
    NoWhitespace(padded);
    if text != "" {
      StandardChar(text[|text| - 1]);
    }
    DropAppended(text, Padding(|text|));
  }

  /** What the platform decoder gives for unpadded text padded again. */
  lemma DecodePadded(text: string)
    requires IsStandardText(text) && |text| % 4 != 1
    ensures Values(text).Some? && Decode(text + Equals((4 - |text| % 4) % 4)) == Some(Octets(Values(text).value))
  {
    hide IsStandardText, Values, Octets, DropPadding, Equals, RemoveWhitespace, Padding;
    EqualsOf(|text|);
    ValuesExist(text);
    PaddedIsPlain(text);
    assert |text + Padding(|text|)| % 4 == 0;
  }

  lemma EqualsIsNoSpace()
    ensures !IsWhitespace('=')
  {
  }

  // ----- strict base64url -----

  lemma {:induction false} SextetCount(bytes: Bytes)
    ensures |Sextets(bytes)| % 4 != 1
    ensures |Sextets(bytes)| + |Padding(|Sextets(bytes)|)| == 4 * ((|bytes| + 2) / 3)
  {
    hide First, Second, Third, Fourth;
    if |bytes| >= 3 {
      SextetCount(bytes[3..]);
    }
  }

  /** A canonical text: the url alphabet, no length that no bytes have, spare bits clear. */
  predicate IsCanonical(text: string) {
    && IsUrlText(text) && |text| % 4 != 1
    && Values(ToStandard(text)).Some? && SpareBitsClear(Values(ToStandard(text)).value)
  }

  lemma ReencodesAlike(text: string)
    requires IsUrlText(text) && |text| % 4 != 1
    ensures Values(ToStandard(text)).Some?
    ensures ToB64url(Octets(Values(ToStandard(text)).value)) == text <==> SpareBitsClear(Values(ToStandard(text)).value)
  {
    hide Value, Values, Octets, Sextets, IsUrlText, ToB64url, SpareBitsClear, Symbols, IsStandardText, IsSextet;
    var standard := ToStandard(text);
    StandardAndBack(text);
    ValuesExist(standard);
    SymbolsOfValues(standard);
    var s := Values(standard).value;
    var bytes := Octets(s);
    SextetsOfOctets(s);
    UrlIsSymbols(bytes);
    UrlAndBack(Symbols(Sextets(bytes)));
    ValuesOfSymbols(Sextets(bytes));
  }

  /** The decoder accepts exactly the canonical texts, and reads their bytes. */
  lemma AcceptsCanonical(text: string)
    ensures FromB64url(text).Some? <==> IsCanonical(text)
    ensures IsCanonical(text) ==> FromB64url(text) == Some(Octets(Values(ToStandard(text)).value))
  {
    hide Value, Values, Octets, Decode, IsUrlText, ToB64url, SpareBitsClear, ToStandard, IsStandardText, Equals;
    if IsUrlText(text) && |text| % 4 != 1 {
      StandardAndBack(text);
      DecodePadded(ToStandard(text));
      ReencodesAlike(text);
    }
  }

  /** A text decodes to some bytes exactly when it is their encoding: decoding inverts
      encoding and every other text is refused. */
  lemma StrictDecode(text: string, bytes: Bytes)
    ensures FromB64url(text) == Some(bytes) <==> text == ToB64url(bytes)
  {
    hide Value, Values, Octets, Decode, IsUrlText, ToB64url, SpareBitsClear, ToStandard, IsStandardText, Equals, Symbols, Sextets;
    if text == ToB64url(bytes) {
      UrlIsSymbols(bytes);
      var standard := Symbols(Sextets(bytes));
      UrlAndBack(standard);
      SextetCount(bytes);
      ValuesOfSymbols(Sextets(bytes));
      OctetsOfSextets(bytes);
      DecodePadded(standard);
    }
  }

  // ----- a base64 text carries the bits of its bytes -----

  predicate Bit(b: bv8, mask: bv8) {
    b & mask != 0
  }

  /** The bits of a byte, most significant first. */
  function ByteBits(b: bv8): seq<bool> {
    [Bit(b, 128), Bit(b, 64)] + SextetBits(b)
  }

  function SextetBits(s: bv8): seq<bool> {
    [Bit(s, 32), Bit(s, 16), Bit(s, 8), Bit(s, 4), Bit(s, 2), Bit(s, 1)]
  }

  function BitsOfBytes(bytes: Bytes): seq<bool> {
    if bytes == [] then [] else ByteBits(bytes[0]) + BitsOfBytes(bytes[1..])
  }

  function BitsOfSextets(s: Bytes): seq<bool> {
    if s == [] then [] else SextetBits(s[0]) + BitsOfSextets(s[1..])
  }

  function Zeros(count: nat): (r: seq<bool>)
    ensures |r| == count && forall i | 0 <= i < count :: !r[i]
  {
    if count == 0 then [] else [false] + Zeros(count - 1)
  }

  lemma FirstMasks(b: bv8)
    ensures Bit(First(b), 32) == Bit(b, 128) && Bit(First(b), 16) == Bit(b, 64) && Bit(First(b), 8) == Bit(b, 32)
    ensures Bit(First(b), 4) == Bit(b, 16) && Bit(First(b), 2) == Bit(b, 8) && Bit(First(b), 1) == Bit(b, 4)
  {
  }

  lemma SecondMasks(b0: bv8, b1: bv8)
    ensures Bit(Second(b0, b1), 32) == Bit(b0, 2) && Bit(Second(b0, b1), 16) == Bit(b0, 1) && Bit(Second(b0, b1), 8) == Bit(b1, 128)
    ensures Bit(Second(b0, b1), 4) == Bit(b1, 64) && Bit(Second(b0, b1), 2) == Bit(b1, 32) && Bit(Second(b0, b1), 1) == Bit(b1, 16)
  {
  }

  lemma ThirdMasks(b1: bv8, b2: bv8)
    ensures Bit(Third(b1, b2), 32) == Bit(b1, 8) && Bit(Third(b1, b2), 16) == Bit(b1, 4) && Bit(Third(b1, b2), 8) == Bit(b1, 2)
    ensures Bit(Third(b1, b2), 4) == Bit(b1, 1) && Bit(Third(b1, b2), 2) == Bit(b2, 128) && Bit(Third(b1, b2), 1) == Bit(b2, 64)
  {
  }

  lemma FourthMasks(b: bv8)
    ensures Bit(Fourth(b), 32) == Bit(b, 32) && Bit(Fourth(b), 16) == Bit(b, 16) && Bit(Fourth(b), 8) == Bit(b, 8)
    ensures Bit(Fourth(b), 4) == Bit(b, 4) && Bit(Fourth(b), 2) == Bit(b, 2) && Bit(Fourth(b), 1) == Bit(b, 1)
  {
  }

  lemma FirstBits(b: bv8)
    ensures SextetBits(First(b)) == ByteBits(b)[..6]
  {
    FirstMasks(b);
    hide Bit, First;
  }

  lemma Ends(b: bv8)
    ensures ByteBits(b)[6..] == [Bit(b, 2), Bit(b, 1)] && ByteBits(b)[4..] == [Bit(b, 8), Bit(b, 4), Bit(b, 2), Bit(b, 1)]
    ensures ByteBits(b)[..2] == [Bit(b, 128), Bit(b, 64)]
    ensures ByteBits(b)[..4] == [Bit(b, 128), Bit(b, 64), Bit(b, 32), Bit(b, 16)]
  {
    hide Bit;
  }

  lemma SecondBits(b0: bv8, b1: bv8)
    ensures SextetBits(Second(b0, b1)) == ByteBits(b0)[6..] + ByteBits(b1)[..4]
  {
    Ends(b0);
    Ends(b1);
    SecondMasks(b0, b1);
    hide Bit, Second, ByteBits;
  }

  lemma ThirdBits(b1: bv8, b2: bv8)
    ensures SextetBits(Third(b1, b2)) == ByteBits(b1)[4..] + ByteBits(b2)[..2]
  {
    Ends(b1);
    Ends(b2);
    ThirdMasks(b1, b2);
    hide Bit, Third, ByteBits;
  }

  lemma FourthBits(b: bv8)
    ensures SextetBits(Fourth(b)) == ByteBits(b)[2..]
  {
    FourthMasks(b);
    hide Bit, Fourth;
  }

  lemma EightBits(b: bv8)
    ensures |ByteBits(b)| == 8
  {
  }

  /** Four sextets carry the bits of the three bytes they come from. */
  lemma GroupBits(b0: bv8, b1: bv8, b2: bv8)
    ensures SextetBits(First(b0)) + SextetBits(Second(b0, b1)) + SextetBits(Third(b1, b2)) + SextetBits(Fourth(b2))
              == ByteBits(b0) + ByteBits(b1) + ByteBits(b2)
  {
    hide First, Second, Third, Fourth, SextetBits, ByteBits;
    EightBits(b0);
    EightBits(b1);
    EightBits(b2);
    FirstBits(b0);
    SecondBits(b0, b1);
    ThirdBits(b1, b2);
    FourthBits(b2);
  }

  lemma Associates4(a: seq<bool>, b: seq<bool>, c: seq<bool>, d: seq<bool>)
    ensures a + (b + (c + d)) == a + b + c + d
  {
  }

  lemma SextetsStep(a: bv8, rest: Bytes)
    ensures BitsOfSextets([a] + rest) == SextetBits(a) + BitsOfSextets(rest)
  {
    hide SextetBits;
    assert ([a] + rest)[1..] == rest;
  }

  lemma BytesStep(b: bv8, rest: Bytes)
    ensures BitsOfBytes([b] + rest) == ByteBits(b) + BitsOfBytes(rest)
  {
    hide ByteBits;
    assert ([b] + rest)[1..] == rest;
  }

  lemma BitsOfFour(a: bv8, b: bv8, c: bv8, d: bv8, rest: Bytes)
    ensures BitsOfSextets([a, b, c, d] + rest)
              == SextetBits(a) + SextetBits(b) + SextetBits(c) + (SextetBits(d) + BitsOfSextets(rest))
  {
    hide SextetBits, BitsOfSextets;
    var s3 := [d] + rest;
    var s2 := [c] + s3;
    var s1 := [b] + s2;
    SextetsStep(d, rest);
    SextetsStep(c, s3);
    SextetsStep(b, s2);
    SextetsStep(a, s1);
    assert [a] + s1 == [a, b, c, d] + rest;
    Associates4(SextetBits(a), SextetBits(b), SextetBits(c), BitsOfSextets(s3));
  }

  lemma BitsOfThree(a: bv8, b: bv8, c: bv8, rest: Bytes)
    ensures BitsOfBytes([a, b, c] + rest) == ByteBits(a) + ByteBits(b) + ByteBits(c) + BitsOfBytes(rest)
  {
    hide ByteBits, BitsOfBytes;
    var s2 := [c] + rest;
    var s1 := [b] + s2;
    BytesStep(c, rest);
    BytesStep(b, s2);
    BytesStep(a, s1);
    assert [a] + s1 == [a, b, c] + rest;
    Associates4(ByteBits(a), ByteBits(b), ByteBits(c), BitsOfBytes(rest));
  }

  /** The bits no byte of the last group fills. */
  function Spare(length: nat): nat {
    if length % 3 == 1 then 4 else if length % 3 == 2 then 2 else 0
  }

  lemma ZeroBits()
    ensures ByteBits(0)[..4] == Zeros(4) && ByteBits(0)[..2] == Zeros(2)
  {
    assert !Bit(0, 128) && !Bit(0, 64) && !Bit(0, 32) && !Bit(0, 16);
    hide Bit;
  }

  lemma OneBits(b: bv8)
    ensures SextetBits(First(b)) + SextetBits(Second(b, 0)) == ByteBits(b) + Zeros(4)
  {
    hide First, Second, SextetBits, ByteBits, Zeros;
    EightBits(b);
    EightBits(0);
    ZeroBits();
    FirstBits(b);
    SecondBits(b, 0);
  }

  lemma TwoBits(b0: bv8, b1: bv8)
    ensures SextetBits(First(b0)) + SextetBits(Second(b0, b1)) + SextetBits(Third(b1, 0))
              == ByteBits(b0) + ByteBits(b1) + Zeros(2)
  {
    hide First, Second, Third, SextetBits, ByteBits, Zeros;
    EightBits(b0);
    EightBits(b1);
    EightBits(0);
    ZeroBits();
    FirstBits(b0);
    SecondBits(b0, b1);
    ThirdBits(b1, 0);
  }

  lemma FewBits(b0: bv8, b1: bv8, a: bv8, b: bv8, c: bv8)
    ensures BitsOfBytes([b0]) == ByteBits(b0) && BitsOfBytes([b0, b1]) == ByteBits(b0) + ByteBits(b1)
    ensures BitsOfSextets([a, b]) == SextetBits(a) + SextetBits(b)
    ensures BitsOfSextets([a, b, c]) == SextetBits(a) + SextetBits(b) + SextetBits(c)
  {
    hide SextetBits, ByteBits;
    BytesStep(b1, []);
    BytesStep(b0, [b1]);
    assert [b0] + [b1] == [b0, b1] && [b1] + [] == [b1];
    SextetsStep(c, []);
    SextetsStep(b, [c]);
    SextetsStep(b, []);
    SextetsStep(a, [b, c]);
    SextetsStep(a, [b]);
    assert [a] + [b] == [a, b] && [b] + [c] == [b, c] && [a] + [b, c] == [a, b, c] && [b] + [] == [b] && [c] + [] == [c];
  }

  /** The text of some bytes carries exactly their bits, in order, and then only zeros. */
  lemma {:induction false} BitsKept(bytes: Bytes)
    ensures BitsOfSextets(Sextets(bytes)) == BitsOfBytes(bytes) + Zeros(Spare(|bytes|))
  {
    if bytes == [] {
      return;
    }
    hide First, Second, Third, Fourth, SextetBits, ByteBits, Zeros, BitsOfSextets, BitsOfBytes;
    var b0 := bytes[0];
    if |bytes| == 1 {
      OneBits(b0);
      assert bytes == [b0];
      FewBits(b0, 0, First(b0), Second(b0, 0), 0);
    } else if |bytes| == 2 {
      var b1 := bytes[1];
      TwoBits(b0, b1);
      assert bytes == [b0, b1];
      FewBits(b0, b1, First(b0), Second(b0, b1), Third(b1, 0));
    } else {
      FullGroupBits(b0, bytes[1], bytes[2], bytes[3..]);
      assert [b0, bytes[1], bytes[2]] + bytes[3..] == bytes;
      BitsKept(bytes[3..]);
      hide Sextets;
      Associates4(ByteBits(b0) + ByteBits(bytes[1]), ByteBits(bytes[2]), BitsOfBytes(bytes[3..]), Zeros(Spare(|bytes|)));
      assert Spare(|bytes[3..]|) == Spare(|bytes|);
    }
  }

  lemma FullGroupBits(b0: bv8, b1: bv8, b2: bv8, rest: Bytes)
    ensures BitsOfSextets(Sextets([b0, b1, b2] + rest)) == ByteBits(b0) + ByteBits(b1) + (ByteBits(b2) + BitsOfSextets(Sextets(rest)))
    ensures BitsOfBytes([b0, b1, b2] + rest) == ByteBits(b0) + ByteBits(b1) + ByteBits(b2) + BitsOfBytes(rest)
  {
    hide *;
    BitsOfThree(b0, b1, b2, rest);
    SextetsGroup(b0, b1, b2, rest);
    FourthRegrouped(b0, b1, b2, Sextets(rest));
  }

  lemma FourthRegrouped(b0: bv8, b1: bv8, b2: bv8, rest: Bytes)
    ensures BitsOfSextets([First(b0), Second(b0, b1), Third(b1, b2), Fourth(b2)] + rest)
              == ByteBits(b0) + ByteBits(b1) + (ByteBits(b2) + BitsOfSextets(rest))
  {
    hide First, Second, Third, Fourth, SextetBits, ByteBits, BitsOfSextets;
    var more := BitsOfSextets(rest);
    BitsOfFour(First(b0), Second(b0, b1), Third(b1, b2), Fourth(b2), rest);
    GroupBits(b0, b1, b2);
    Regroup(SextetBits(First(b0)) + SextetBits(Second(b0, b1)) + SextetBits(Third(b1, b2)), SextetBits(Fourth(b2)), more);
    Regroup(ByteBits(b0) + ByteBits(b1), ByteBits(b2), more);
  }

  lemma Regroup(a: seq<bool>, b: seq<bool>, c: seq<bool>)
    ensures a + (b + c) == a + b + c
  {
  }

  // ----- the loops of the source -----

  /** The four characters one turn of the loop writes. */
  function GroupText(bytes: Bytes): string
    requires bytes != []
  {
    var b1 := if |bytes| > 1 then bytes[1] else 0;
    var b2 := if |bytes| > 2 then bytes[2] else 0;
    [Symbol(First(bytes[0])), Symbol(Second(bytes[0], b1)),
     if |bytes| > 1 then Symbol(Third(b1, b2)) else '=', if |bytes| > 2 then Symbol(Fourth(b2)) else '=']
  }

  lemma SymbolsStep(a: bv8, rest: Bytes)
    requires IsSextet(a) && AreSextets(rest)
    ensures AreSextets([a] + rest) && Symbols([a] + rest) == [Symbol(a)] + Symbols(rest)
  {
    hide Symbol, IsSextet;
    assert ([a] + rest)[1..] == rest;
    assert forall i | 0 <= i < |[a] + rest| :: ([a] + rest)[i] == if i == 0 then a else rest[i - 1];
  }

  lemma SymbolsOfFour(a: bv8, b: bv8, c: bv8, d: bv8, rest: Bytes)
    requires IsSextet(a) && IsSextet(b) && IsSextet(c) && IsSextet(d) && AreSextets(rest)
    ensures AreSextets([a, b, c, d] + rest)
    ensures Symbols([a, b, c, d] + rest) == [Symbol(a), Symbol(b), Symbol(c), Symbol(d)] + Symbols(rest)
  {
    hide Symbol, IsSextet, Symbols, AreSextets;
    SymbolsStep(d, rest);
    SymbolsStep(c, [d] + rest);
    SymbolsStep(b, [c] + ([d] + rest));
    SymbolsStep(a, [b] + ([c] + ([d] + rest)));
    assert [a] + ([b] + ([c] + ([d] + rest))) == [a, b, c, d] + rest;
  }

  lemma EncodeGroup(bytes: Bytes)
    requires |bytes| >= 3
    ensures Encode(bytes) == GroupText(bytes) + Encode(bytes[3..])
  {
    hide First, Second, Third, Fourth, Symbol, Symbols;
    var rest := Sextets(bytes[3..]);
    SymbolsOfFour(First(bytes[0]), Second(bytes[0], bytes[1]), Third(bytes[1], bytes[2]), Fourth(bytes[2]), rest);
    assert |Sextets(bytes)| == |rest| + 4;
    assert Padding(|rest| + 4) == Padding(|rest|);
    hide Padding, Sextets;
  }

  lemma EncodeLast(bytes: Bytes)
    requires 0 < |bytes| < 3
    ensures Encode(bytes) == GroupText(bytes)
  {
    hide First, Second, Third, Fourth, Symbol;
    if |bytes| == 1 {
      SymbolsStep(Second(bytes[0], 0), []);
      SymbolsStep(First(bytes[0]), [Second(bytes[0], 0)]);
      assert Sextets(bytes) == [First(bytes[0])] + ([Second(bytes[0], 0)] + []);
    } else {
      SymbolsStep(Third(bytes[1], 0), []);
      SymbolsStep(Second(bytes[0], bytes[1]), [Third(bytes[1], 0)]);
      SymbolsStep(First(bytes[0]), [Second(bytes[0], bytes[1]), Third(bytes[1], 0)]);
      assert Sextets(bytes) == [First(bytes[0])] + ([Second(bytes[0], bytes[1])] + ([Third(bytes[1], 0)] + []));
    }
  }

  /** What the loop has left to write at some index. */
  function Remaining(bytes: Bytes, i: nat): string {
    if i < |bytes| then Encode(bytes[i..]) else ""
  }

  lemma LoopStep(bytes: Bytes, i: nat)
    requires i < |bytes|
    ensures Remaining(bytes, i) == GroupText(bytes[i..]) + Remaining(bytes, i + 3)
  {
    hide Encode, GroupText;
    var rest := bytes[i..];
    NothingLeft();
    if |rest| < 3 {
      EncodeLast(rest);
    } else {
      EncodeGroup(rest);
      assert rest[3..] == bytes[i + 3..];
      assert i + 3 == |bytes| ==> rest[3..] == [];
    }
  }

  lemma NothingLeft()
    ensures Encode([]) == ""
  {
  }

  /** The characters are appended one by one. */
  lemma Appended(before: string, c0: char, c1: char, c2: char, c3: char)
    ensures before + [c0] + [c1] + [c2] + [c3] == before + [c0, c1, c2, c3]
  {
  }

  lemma Concatenates(a: string, b: string, c: string)
    ensures a + b + c == a + (b + c)
  {
  }

  lemma GroupIs(bytes: Bytes, i: nat, b1: bv8, b2: bv8)
    requires i < |bytes|
    requires b1 == if i + 1 < |bytes| then bytes[i + 1] else 0
    requires b2 == if i + 2 < |bytes| then bytes[i + 2] else 0
    ensures GroupText(bytes[i..])
              == [Symbol(First(bytes[i])), Symbol(Second(bytes[i], b1)),
                  if i + 1 < |bytes| then Symbol(Third(b1, b2)) else '=',
                  if i + 2 < |bytes| then Symbol(Fourth(b2)) else '=']
  {
    hide Symbol, First, Second, Third, Fourth;
  }

  /** `bytesToBase64`: no platform encoder, and the same text. */
  method BytesToBase64(bytes: Bytes) returns (out: string)
    ensures out == Encode(bytes)
  {
    hide First, Second, Third, Fourth, Symbol, Encode;
    out := "";
    var i := 0;
    NothingLeft();
    assert bytes[0..] == bytes;
    while i < |bytes|
      invariant out + Remaining(bytes, i) == Encode(bytes)
    {
      hide *;
      LoopStep(bytes, i);
      ghost var before := out;
      var b0 := bytes[i];
      var has1 := i + 1 < |bytes|;
      var has2 := i + 2 < |bytes|;
      var b1 := if has1 then bytes[i + 1] else 0;
      var b2 := if has2 then bytes[i + 2] else 0;
      out := out + [Symbol(First(b0))];
      out := out + [Symbol(Second(b0, b1))];
      out := out + [if has1 then Symbol(Third(b1, b2)) else '='];
      out := out + [if has2 then Symbol(Fourth(b2)) else '='];
      Appended(before, Symbol(First(b0)), Symbol(Second(b0, b1)), if has1 then Symbol(Third(b1, b2)) else '=',
               if has2 then Symbol(Fourth(b2)) else '=');
      GroupIs(bytes, i, b1, b2);
      Concatenates(before, GroupText(bytes[i..]), Remaining(bytes, i + 3));
      i := i + 3;
    }
  }

  const CHUNK: nat := 0x8000

  /** `toB64`: the binary text is built in chunks, then encoded. */
  method ToB64(bytes: Bytes) returns (text: string)
    ensures text == Encode(bytes)
  {
    var binary: Bytes := [];
    var i := 0;
    while i < |bytes|
      invariant binary == bytes[..if i <= |bytes| then i else |bytes|]
    {
      binary := binary + bytes[i..if i + CHUNK <= |bytes| then i + CHUNK else |bytes|];
      i := i + CHUNK;
    }
    assert binary == bytes;
    text := Encode(binary);
  }

  /** An encoding has four characters for every three bytes begun. */
  lemma EncodeLength(bytes: Bytes)
    ensures |Encode(bytes)| == 4 * ((|bytes| + 2) / 3)
  {
    hide Sextets, Symbols;
    SextetCount(bytes);
  }

  /** Different bytes are never encoded alike. */
  lemma EncodeIsInjective(a: Bytes, b: Bytes)
    requires Encode(a) == Encode(b)
    ensures a == b
  {
    hide Encode, StripPadding, ToUrl, FromB64url;
    StrictDecode(ToB64url(a), a);
    StrictDecode(ToB64url(b), b);
  }

  // ----- host key pins -----

  datatype HostKeyPin = HostKeyPin(keyType: string, keyB64: string)

  datatype Verdict = Trusted | Mismatch | Unknown

  /** `verifyHostKeyPin`. */
  function VerifyHostKeyPin(pin: Option<HostKeyPin>, keyType: string, keyB64: string): Verdict {
    if pin.None? then Unknown
    else if pin.value.keyType != keyType || pin.value.keyB64 != keyB64 then Mismatch
    else Trusted
  }

  /** The big-endian length at the front of a key blob, read unsigned. */
  function BlobLength(blob: Bytes): nat {
    if |blob| < 4 then 0
    else 0x100_0000 * Index(blob[0]) + 0x1_0000 * Index(blob[1]) + 0x100 * Index(blob[2]) + Index(blob[3])
  }

  function CharOf(b: bv8): (c: char)
    ensures c as int == Index(b)
  {
    b as int as char
  }

  function CharsOf(bytes: Bytes): (text: string)
    ensures |text| == |bytes| && forall i | 0 <= i < |bytes| :: text[i] as int == Index(bytes[i])
  {
    if bytes == [] then "" else CharsOf(bytes[..|bytes| - 1]) + [CharOf(bytes[|bytes| - 1])]
  }

  function KeyTypeOf(blob: Bytes): string {
    var length := BlobLength(blob);
    if length == 0 || |blob| < 4 + length then "unknown" else CharsOf(blob[4..4 + length])
  }

  method DecodePublicKeyBlob(blob: Bytes) returns (pin: HostKeyPin)
    ensures pin == HostKeyPin(KeyTypeOf(blob), Encode(blob))
  {
    hide Encode, Index;
    var keyB64 := BytesToBase64(blob);
    var length := BlobLength(blob);
    if length == 0 || |blob| < 4 + length {
      return HostKeyPin("unknown", keyB64);
    }
    var keyType := "";
    var i := 4;
    while i < 4 + length
      invariant 4 <= i <= 4 + length
      invariant keyType == CharsOf(blob[4..i])
    {
      assert blob[4..i + 1][..i - 4] == blob[4..i];
      keyType := keyType + [CharOf(blob[i])];
      i := i + 1;
    }
    return HostKeyPin(keyType, keyB64);
  }

  /** A presented key is trusted against a stored pin exactly when it is the pinned key, byte
      for byte, and unknown exactly when nothing is pinned. */
  lemma TrustedIsTheSameKey(pinned: Option<Bytes>, blob: Bytes)
    ensures var pin := if pinned.None? then None else Some(HostKeyPin(KeyTypeOf(pinned.value), Encode(pinned.value)));
            var verdict := VerifyHostKeyPin(pin, KeyTypeOf(blob), Encode(blob));
            && (verdict == Trusted <==> pinned == Some(blob))
            && (verdict == Unknown <==> pinned == None)
  {
    hide Encode, KeyTypeOf;
    if pinned.Some? && Encode(pinned.value) == Encode(blob) {
      EncodeIsInjective(pinned.value, blob);
    }
  }
}
