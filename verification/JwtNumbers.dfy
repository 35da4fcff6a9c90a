/** Base64urlUInt, the number encoding of JSON Web Keys (section 2 of RFC 7518),
    as bridge/bridge/gateway_jwt.py writes it. */
module JwtNumbers {
  import opened BitPacking

  function BitLength(n: nat): nat {
    if n == 0 then 0 else 1 + BitLength(n / 2)
  }

  function Max(x: nat, y: nat): nat { if x > y then x else y }

  /** The octets of `n`, most significant first (int.to_bytes with "big"). */
  function ToBytes(n: nat, length: nat): (octets: seq<nat>)
    ensures |octets| == length && Digits(8, octets)
  {
    if length == 0 then [] else ToBytes(n / 256, length - 1) + [n % 256]
  }

  function FromBytes(octets: seq<nat>): nat {
    if octets == [] then 0 else 256 * FromBytes(octets[..|octets| - 1]) + octets[|octets| - 1]
  }

  /** The URL-safe alphabet of section 5 of RFC 4648. */
  function Base64UrlChar(digit: nat): char
    requires digit < 64
  {
    if digit < 26 then 'A' + digit as char
    else if digit < 52 then 'a' + (digit - 26) as char
    else if digit < 62 then '0' + (digit - 52) as char
    else if digit == 62 then '-' else '_'
  }

  /** The alphabet, character by character. */
  lemma Base64UrlAlphabet(digit: nat)
    requires digit < 64
    ensures digit < 26 ==> Base64UrlChar(digit) == "ABCDEFGHIJKLMNOPQRSTUVWXYZ"[digit]
    ensures 26 <= digit < 52 ==> Base64UrlChar(digit) == "abcdefghijklmnopqrstuvwxyz"[digit - 26]
    ensures digit >= 52 ==> Base64UrlChar(digit) == "0123456789-_"[digit - 52]
  {
  }

  predicate IsBase64UrlChar(c: char) {
    'A' <= c <= 'Z' || 'a' <= c <= 'z' || '0' <= c <= '9' || c == '-' || c == '_'
  }

  function Base64UrlDigit(c: char): (digit: nat)
    requires IsBase64UrlChar(c)
    ensures digit < 64
  {
    if 'A' <= c <= 'Z' then (c - 'A') as nat
    else if 'a' <= c <= 'z' then (c - 'a') as nat + 26
    else if '0' <= c <= '9' then (c - '0') as nat + 52
    else if c == '-' then 62 else 63
  }

  function ByteLength(n: nat): nat {
    Max((BitLength(n) + 7) / 8, 1)
  }

  function IntToBase64Url(n: nat): (text: string) {
    DecodeEncode(6, ToBytes(n, ByteLength(n)));
    var digits := Encode(6, ToBytes(n, ByteLength(n)));
    seq(|digits|, i requires 0 <= i < |digits| => Base64UrlChar(digits[i]))
  }

  /** How a verifier reads the text back. */
  function OctetsOfText(text: string): seq<nat>
    requires forall i | 0 <= i < |text| :: IsBase64UrlChar(text[i])
  {
    Decode(6, seq(|text|, i requires 0 <= i < |text| => Base64UrlDigit(text[i])))
  }

  lemma {:induction false} BitLengthBounds(n: nat)
    ensures n < Pow2(BitLength(n))
    ensures n > 0 ==> BitLength(n) > 0 && Pow2(BitLength(n) - 1) <= n
  {
    if n > 1 {
      BitLengthBounds(n / 2);
    }
  }

  lemma {:induction false} Pow2Mono(a: nat, b: nat)
    requires a <= b
    ensures Pow2(a) <= Pow2(b)
  {
    if a < b {
      Pow2Mono(a, b - 1);
    }
  }

  lemma {:induction false} BytesRoundTrip(n: nat, length: nat)
    requires n < Pow2(8 * length)
    ensures FromBytes(ToBytes(n, length)) == n
  {
    if length > 0 {
      var rest := 8 * (length - 1);
      Pow2Octet(rest);
      BytesRoundTrip(n / 256, length - 1);
      assert ToBytes(n, length)[..length - 1] == ToBytes(n / 256, length - 1);
    }
  }

  lemma Pow2Octet(n: nat)
    ensures Pow2(n + 8) == 256 * Pow2(n)
  {
    assert Pow2(n + 8) == 4 * Pow2(n + 6);
    assert Pow2(n + 6) == 4 * Pow2(n + 4);
    assert Pow2(n + 4) == 4 * Pow2(n + 2);
    assert Pow2(n + 2) == 4 * Pow2(n);
  }

  lemma {:induction false} LeadingOctet(n: nat, length: nat)
    requires length > 0 && Pow2(8 * (length - 1)) <= n
    ensures ToBytes(n, length)[0] == 0 ==> n >= Pow2(8 * length)
  {
    if length > 1 {
      Pow2Octet(8 * (length - 2));
      Pow2Octet(8 * (length - 1));
      LeadingOctet(n / 256, length - 1);
    } else {
      Pow2Octet(0);
    }
  }

  lemma AlphabetRoundTrip(digit: nat)
    requires digit < 64
    ensures IsBase64UrlChar(Base64UrlChar(digit)) && Base64UrlDigit(Base64UrlChar(digit)) == digit
  {
  }

  lemma TextReadsBack(n: nat)
    ensures var text := IntToBase64Url(n);
            && (forall i | 0 <= i < |text| :: IsBase64UrlChar(text[i]))
            && OctetsOfText(text) == ToBytes(n, ByteLength(n))
  {
    var octets := ToBytes(n, ByteLength(n));
    var digits := Encode(6, octets);
    var text := IntToBase64Url(n);
    DecodeEncode(6, octets);
    hide Encode, Decode, ToBytes, ByteLength;
    forall i | 0 <= i < |digits| ensures IsBase64UrlChar(text[i]) && Base64UrlDigit(text[i]) == digits[i] {
      AlphabetRoundTrip(digits[i]);
    }
    hide Base64UrlChar, Base64UrlDigit, IsBase64UrlChar;
    assert digits == seq(|text|, i requires 0 <= i < |text| => Base64UrlDigit(text[i]));
  }

  lemma OctetsAreLeast(n: nat)
    ensures var octets := ToBytes(n, ByteLength(n));
            |octets| > 0 && FromBytes(octets) == n && (octets[0] == 0 <==> n == 0)
  {
    var length := ByteLength(n);
    BitLengthBounds(n);
    Pow2Mono(BitLength(n), 8 * length);
    BytesRoundTrip(n, length);
    if n > 0 {
      Pow2Mono(8 * (length - 1), BitLength(n) - 1);
      LeadingOctet(n, length);
    } else {
      ZeroText();
    }
    hide ToBytes, FromBytes, Pow2, BitLength;
  }

  /** Reading the text back gives the number, from octets with no leading zero
      octet except for zero itself, which is the single octet "AA". The text is
      URL-safe and unpadded. */
  lemma Base64UrlUInt(n: nat)
    ensures var text := IntToBase64Url(n);
            && (forall i | 0 <= i < |text| :: IsBase64UrlChar(text[i]))
            && OctetsOfText(text) == ToBytes(n, ByteLength(n))
            && FromBytes(OctetsOfText(text)) == n
            && (OctetsOfText(text)[0] == 0 <==> n == 0)
            && (n == 0 ==> text == "AA")
  {
    hide *;
    TextReadsBack(n);
    OctetsAreLeast(n);
    ZeroText();
  }

  lemma ZeroText()
    ensures IntToBase64Url(0) == "AA" && ToBytes(0, ByteLength(0)) == [0]
  {
    assert ToBytes(0, 1) == [0];
    SpreadZero();
    DecodeEncode(6, [0]);
    GroupZeros();
  }

  lemma SpreadZero()
    ensures Spread(8, [0]) == Zeros(8)
  {
    assert Spread(8, [0]) == ToBits(8, 0) + Spread(8, [0][1..]);
    AllZero(8);
  }

  /** Eight zero bits are two zero digits. */
  lemma GroupZeros()
    ensures Group(6, Zeros(8)) == [0, 0]
  {
    assert Zeros(8)[..6] == Zeros(6) && Zeros(8)[6..] == Zeros(2) && Zeros(2) + Zeros(4) == Zeros(6);
    ZeroValue(6);
    assert Group(6, Zeros(2)) == [0];
  }

  lemma {:induction false} AllZero(width: nat)
    ensures ToBits(width, 0) == Zeros(width)
  {
    if width > 0 {
      AllZero(width - 1);
    }
  }

  lemma {:induction false} ZeroValue(width: nat)
    ensures FromBits(Zeros(width)) == 0
  {
    if width > 0 {
      ZeroValue(width - 1);
      assert Zeros(width)[..width - 1] == Zeros(width - 1);
    }
  }

  /** Such as here: the octets 1, 2 and 3. */
  lemma ThreeOctets()
    ensures IntToBase64Url(0x01_0203) == "AQID"
  {
    LengthBetween(0x01_0203);
    assert ByteLength(0x01_0203) == 3;
    OctetsOfThree();
    ThreeDigits();
    hide ToBytes, Encode, ByteLength, BitLength;
    Base64UrlAlphabet(0);
    Base64UrlAlphabet(16);
    Base64UrlAlphabet(8);
    Base64UrlAlphabet(3);
  }

  lemma OctetsOfThree()
    ensures ToBytes(0x01_0203, 3) == [1, 2, 3]
  {
    assert ToBytes(0x01, 1) == [1];
    assert ToBytes(0x0102, 2) == [1, 2];
  }

  lemma LengthBetween(n: nat)
    requires 0x1_0000 <= n < 0x2_0000
    ensures BitLength(n) == 17
  {
    BitLengthBounds(n);
    assert Pow2(16) == 0x1_0000 && Pow2(17) == 0x2_0000 by { Pow2Octet(0); Pow2Octet(8); }
    if BitLength(n) < 17 {
      Pow2Mono(BitLength(n), 16);
    } else if BitLength(n) > 17 {
      Pow2Mono(17, BitLength(n) - 1);
    }
  }

  /** Twenty-four bits are four digits of six. */
  lemma ThreeDigits()
    ensures Encode(6, [1, 2, 3]) == [0, 16, 8, 3]
  {
    hide *;
    NumberOfThree();
    DecodeEncode(6, [1, 2, 3]);
    var fill := EncodeKeepsNumber(6, [1, 2, 3]);
    var digits := Encode(6, [1, 2, 3]);
    assert |digits| == 4 && fill == 0;
    NumberOfFour(digits);
    SplitNumber(digits[0], digits[1], digits[2], digits[3]);
  }

  lemma SplitNumber(a: nat, b: nat, c: nat, d: nat)
    requires a < 64 && b < 64 && c < 64 && d < 64 && ((a * 64 + b) * 64 + c) * 64 + d == 0x01_0203
    ensures a == 0 && b == 16 && c == 8 && d == 3
  {
  }

  lemma NumberOfThree()
    ensures Digits(8, [1, 2, 3]) && Number(8, [1, 2, 3]) == 0x01_0203 && Pow2(0) == 1
  {
    assert Pow2(8) == 256 by { Pow2Octet(0); }
    assert [1, 2, 3][..2] == [1, 2] && [1, 2][..1] == [1] && [1][..0] == [];
    assert Number(8, [1]) == 1;
    assert Number(8, [1, 2]) == 258;
  }

  lemma NumberOfFour(digits: seq<nat>)
    requires |digits| == 4 && Digits(6, digits)
    ensures Number(6, digits) == ((digits[0] * 64 + digits[1]) * 64 + digits[2]) * 64 + digits[3]
    ensures forall i | 0 <= i < 4 :: digits[i] < 64
  {
    assert Pow2(6) == 64;
    assert digits[..3][..2] == digits[..2] && digits[..2][..1] == digits[..1] && digits[..1][..0] == [];
    assert Number(6, digits[..1]) == digits[0];
    assert Number(6, digits[..2]) == digits[0] * 64 + digits[1];
    assert Number(6, digits[..3]) == (digits[0] * 64 + digits[1]) * 64 + digits[2];
  }
}
