/** Regrouping octets into digits of another width, as sections 5 and 6 of
    RFC 4648 do for Base64 (six bits) and Base32 (five): the bits are read most
    significant first and zero bits fill the last digit. */
module BitPacking {

  function Pow2(n: nat): (p: nat)
    ensures p > 0
  {
    if n == 0 then 1 else 2 * Pow2(n - 1)
  }

  function ToBits(width: nat, n: nat): (bits: seq<bool>)
    ensures |bits| == width
  {
    if width == 0 then [] else ToBits(width - 1, n / 2) + [n % 2 == 1]
  }

  function FromBits(bits: seq<bool>): nat {
    if bits == [] then 0
    else 2 * FromBits(bits[..|bits| - 1]) + if bits[|bits| - 1] then 1 else 0
  }

  lemma {:induction false} BitsOfNumber(width: nat, n: nat)
    requires n < Pow2(width)
    ensures FromBits(ToBits(width, n)) == n
  {
    if width > 0 {
      BitsOfNumber(width - 1, n / 2);
      assert ToBits(width, n)[..width - 1] == ToBits(width - 1, n / 2);
    }
  }

  lemma {:induction false} NumberOfBits(bits: seq<bool>)
    ensures FromBits(bits) < Pow2(|bits|)
    ensures ToBits(|bits|, FromBits(bits)) == bits
  {
    if bits != [] {
      NumberOfBits(bits[..|bits| - 1]);
    }
  }

  /** Digits below Pow2(width). */
  predicate Digits(width: nat, ns: seq<nat>) {
    forall i | 0 <= i < |ns| :: ns[i] < Pow2(width)
  }

  function Spread(width: nat, ns: seq<nat>): seq<bool> {
    if ns == [] then [] else ToBits(width, ns[0]) + Spread(width, ns[1..])
  }

  function Zeros(n: nat): (bits: seq<bool>)
    ensures |bits| == n
  {
    seq(n, _ => false)
  }

  /** Group bits into digits of `width`, filling the last with zero bits. */
  function Group(width: nat, bits: seq<bool>): seq<nat>
    requires width > 0
  {
    if bits == [] then []
    else if |bits| <= width then [FromBits(bits + Zeros(width - |bits|))]
    else [FromBits(bits[..width])] + Group(width, bits[width..])
  }

  /** Group bits into octets, dropping bits short of one. */
  function Octets(bits: seq<bool>): seq<nat> {
    if |bits| < 8 then [] else [FromBits(bits[..8])] + Octets(bits[8..])
  }

  /** Octets to digits of `width` bits. */
  function Encode(width: nat, octets: seq<nat>): seq<nat>
    requires width > 0
  {
    Group(width, Spread(8, octets))
  }

  /** Digits of `width` bits back to octets. */
  function Decode(width: nat, digits: seq<nat>): seq<nat> {
    Octets(Spread(width, digits))
  }

  lemma {:induction false} SpreadLength(width: nat, ns: seq<nat>)
    ensures |Spread(width, ns)| == width * |ns|
  {
    if ns != [] {
      SpreadLength(width, ns[1..]);
    }
  }

  /** Grouping only adds zero bits at the end, fewer than fill one digit. */
  lemma {:induction false} SpreadGroup(width: nat, bits: seq<bool>) returns (fill: nat)
    requires width > 0
    ensures fill < width
    ensures Spread(width, Group(width, bits)) == bits + Zeros(fill)
    ensures Digits(width, Group(width, bits))
  {
    if bits == [] {
      fill := 0;
    } else if |bits| <= width {
      fill := width - |bits|;
      var digit := bits + Zeros(fill);
      NumberOfBits(digit);
      assert Group(width, bits)[1..] == [];
    } else {
      NumberOfBits(bits[..width]);
      fill := SpreadGroup(width, bits[width..]);
      assert Group(width, bits)[1..] == Group(width, bits[width..]);
      assert bits == bits[..width] + bits[width..];
    }
  }

  lemma {:induction false} OctetsOfSpread(octets: seq<nat>, tail: seq<bool>)
    requires Digits(8, octets) && |tail| < 8
    ensures Octets(Spread(8, octets) + tail) == octets
  {
    if octets == [] {
      assert Spread(8, octets) + tail == tail;
    } else {
      var head, rest := ToBits(8, octets[0]), Spread(8, octets[1..]);
      BitsOfNumber(8, octets[0]);
      OctetsOfSpread(octets[1..], tail);
      assert (head + rest + tail)[..8] == head;
      assert (head + rest + tail)[8..] == rest + tail;
    }
  }

  /** The regrouping is lossless and as short as it can be. */
  lemma DecodeEncode(width: nat, octets: seq<nat>)
    requires 0 < width <= 8 && Digits(8, octets)
    ensures Decode(width, Encode(width, octets)) == octets
    ensures Digits(width, Encode(width, octets))
    ensures 8 * |octets| <= width * |Encode(width, octets)| < 8 * |octets| + width
  {
    var fill := SpreadGroup(width, Spread(8, octets));
    OctetsOfSpread(octets, Zeros(fill));
    SpreadLength(8, octets);
    SpreadLength(width, Encode(width, octets));
  }

  // ------------------------------------------------------ the same number

  /** Digits read most significant first. */
  function Number(width: nat, ns: seq<nat>): nat {
    if ns == [] then 0 else Number(width, ns[..|ns| - 1]) * Pow2(width) + ns[|ns| - 1]
  }

  lemma {:induction false} FromBitsAppends(a: seq<bool>, b: seq<bool>)
    ensures FromBits(a + b) == FromBits(a) * Pow2(|b|) + FromBits(b)
  {
    if b == [] {
      assert a + b == a;
    } else {
      var n := |b| - 1;
      FromBitsAppends(a, b[..n]);
      assert (a + b)[..|a + b| - 1] == a + b[..n];
      Doubled(FromBits(a), Pow2(n));
    }
  }

  lemma Doubled(x: nat, p: nat)
    ensures 2 * (x * p) == x * (2 * p)
  {
  }

  lemma {:induction false} SpreadAppends(width: nat, a: seq<nat>, b: seq<nat>)
    ensures Spread(width, a + b) == Spread(width, a) + Spread(width, b)
  {
    if a == [] {
      assert a + b == b;
    } else {
      SpreadAppends(width, a[1..], b);
      assert (a + b)[1..] == a[1..] + b;
    }
  }

  lemma {:induction false} SpreadNumber(width: nat, ns: seq<nat>)
    requires Digits(width, ns)
    ensures FromBits(Spread(width, ns)) == Number(width, ns)
  {
    if ns != [] {
      var front, last := ns[..|ns| - 1], ns[|ns| - 1];
      SpreadNumber(width, front);
      SpreadAppends(width, front, [last]);
      assert ns == front + [last] && [last][1..] == [];
      assert Spread(width, [last]) == ToBits(width, last);
      BitsOfNumber(width, last);
      FromBitsAppends(Spread(width, front), ToBits(width, last));
    }
  }

  lemma {:induction false} ZerosNumber(n: nat)
    ensures FromBits(Zeros(n)) == 0
  {
    if n > 0 {
      ZerosNumber(n - 1);
      assert Zeros(n)[..n - 1] == Zeros(n - 1);
    }
  }

  /** Regrouping keeps the number that the octets are, read most significant first, but
      for the zero bits that fill the last digit. */
  lemma EncodeKeepsNumber(width: nat, octets: seq<nat>) returns (fill: nat)
    requires 0 < width <= 8 && Digits(8, octets)
    ensures fill < width && width * |Encode(width, octets)| == 8 * |octets| + fill
    ensures Number(width, Encode(width, octets)) == Number(8, octets) * Pow2(fill)
  {
    var bits := Spread(8, octets);
    fill := SpreadGroup(width, bits);
    SpreadLength(8, octets);
    SpreadLength(width, Encode(width, octets));
    SpreadNumber(8, octets);
    SpreadNumber(width, Encode(width, octets));
    FromBitsAppends(bits, Zeros(fill));
    ZerosNumber(fill);
  }
}
