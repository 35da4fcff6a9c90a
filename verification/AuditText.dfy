/** Truncating audit text to a number of UTF-8 octets without splitting a
    character (coreAgent/app/coreAgent/audit.py). UTF-8 is that of section 3 of
    RFC 3629; a Dafny `char` is a Unicode scalar value. */
module AuditText {
  import opened Options

  // ------------------------------------------------------------------ UTF-8

  function EncodeChar(c: char): (octets: seq<nat>)
    ensures 1 <= |octets| <= 4
  {
    var v := c as nat;
    if v < 0x80 then [v]
    else if v < 0x800 then [0xC0 + v / 64, 0x80 + v % 64]
    else if v < 0x1_0000 then [0xE0 + v / 64 / 64, 0x80 + v / 64 % 64, 0x80 + v % 64]
    else [0xF0 + v / 64 / 64 / 64, 0x80 + v / 64 / 64 % 64, 0x80 + v / 64 % 64, 0x80 + v % 64]
  }

  function Encode(s: string): seq<nat> {
    if s == "" then [] else EncodeChar(s[0]) + Encode(s[1..])
  }

  /** Such as here: one character of each length. */
  lemma OneOfEachLength()
    ensures EncodeChar('A') == [0x41]
    ensures EncodeChar('\U{E9}') == [0xC3, 0xA9]
    ensures EncodeChar('\U{20AC}') == [0xE2, 0x82, 0xAC]
    ensures EncodeChar('\U{1F600}') == [0xF0, 0x9F, 0x98, 0x80]
  {
  }

  predicate IsContinuation(b: nat) {
    0x80 <= b < 0xC0
  }

  /** The octets a leading octet announces; 0 when it cannot lead. */
  function Announced(lead: nat): nat {
    if lead < 0x80 then 1
    else if 0xC2 <= lead < 0xE0 then 2
    else if 0xE0 <= lead < 0xF0 then 3
    else if 0xF0 <= lead < 0xF5 then 4
    else 0
  }

  /** The number the first `n` octets carry, six bits in each continuation. */
  function Payload(octets: seq<nat>, n: nat): int
    requires 1 <= n <= 4 && n <= |octets|
  {
    var six := i requires 0 <= i < |octets| => octets[i] as int - 0x80;
    if n == 1 then octets[0]
    else if n == 2 then (octets[0] as int - 0xC0) * 64 + six(1)
    else if n == 3 then ((octets[0] as int - 0xE0) * 64 + six(1)) * 64 + six(2)
    else (((octets[0] as int - 0xF0) * 64 + six(1)) * 64 + six(2)) * 64 + six(3)
  }

  /** The character at the front, if a well-formed sequence starts there:
      no overlong form, no surrogate, nothing above U+10FFFF. */
  function DecodeFirst(octets: seq<nat>): (first: Option<(char, nat)>)
    requires octets != []
    ensures first.Some? ==> 1 <= first.value.1 <= |octets|
  {
    var n := Announced(octets[0]);
    if n == 0 || |octets| < n || exists i | 1 <= i < n :: !IsContinuation(octets[i]) then None
    else
      var v := Payload(octets, n);
      var least := if n == 1 then 0 else if n == 2 then 0x80 else if n == 3 then 0x800 else 0x1_0000;
      if v < least || 0xD800 <= v < 0xE000 || v > 0x10_FFFF then None else Some((v as char, n))
  }

  /** Decoding with errors ignored: octets that start no character are skipped. */
  function DecodeIgnore(octets: seq<nat>): string
    decreases |octets|
  {
    if octets == [] then ""
    else
      match DecodeFirst(octets)
      case None => DecodeIgnore(octets[1..])
      case Some((c, n)) => [c] + DecodeIgnore(octets[n..])
  }

  // -------------------------------------------------------------- truncation

  const ELLIPSIS := "..."

  /** Python's `octets[:end]`, where a negative end counts from the back. */
  function SliceTo(octets: seq<nat>, end: int): seq<nat> {
    if end > |octets| then octets
    else if end >= 0 then octets[..end]
    else if |octets| + end >= 0 then octets[..|octets| + end]
    else []
  }

  function Truncate(value: Option<string>, maxBytes: int): string {
    match value
    case None => ""
    case Some(s) =>
      var encoded := Encode(s);
      if |encoded| <= maxBytes then s
      else DecodeIgnore(SliceTo(encoded, maxBytes - 3)) + ELLIPSIS
  }

  lemma {:induction false} EncodeAppends(a: string, b: string)
    ensures Encode(a + b) == Encode(a) + Encode(b)
  {
    if a == "" {
      assert a + b == b;
    } else {
      assert (a + b)[1..] == a[1..] + b;
      EncodeAppends(a[1..], b);
    }
  }

  lemma DecodesFirst(c: char, rest: seq<nat>)
    ensures DecodeFirst(EncodeChar(c) + rest) == Some((c, |EncodeChar(c)|))
  {
    var octets := EncodeChar(c) + rest;
    var n := |EncodeChar(c)|;
    assert forall i | 0 <= i < n :: octets[i] == EncodeChar(c)[i];
    Announces(c);
    CarriesValue(c, rest);
    hide EncodeChar, Announced, Payload;
    assert forall i | 1 <= i < n :: IsContinuation(octets[i]);
  }

  lemma DecodesNext(c: char, rest: seq<nat>)
    ensures DecodeIgnore(EncodeChar(c) + rest) == [c] + DecodeIgnore(rest)
  {
    DecodesFirst(c, rest);
    hide DecodeFirst, EncodeChar;
    assert (EncodeChar(c) + rest)[|EncodeChar(c)|..] == rest;
  }

  lemma Announces(c: char)
    ensures Announced(EncodeChar(c)[0]) == |EncodeChar(c)|
    ensures forall i | 1 <= i < |EncodeChar(c)| :: IsContinuation(EncodeChar(c)[i])
    ensures |EncodeChar(c)| == if c as nat < 0x80 then 1 else if c as nat < 0x800 then 2 else if c as nat < 0x1_0000 then 3 else 4
  {
  }

  lemma CarriesValue(c: char, rest: seq<nat>)
    ensures Payload(EncodeChar(c) + rest, |EncodeChar(c)|) == c as int
  {
    var v := c as nat;
    var q := v / 64;
    assert v == 64 * q + v % 64;
    if v >= 0x800 {
      var p := q / 64;
      assert q == 64 * p + q % 64;
      if v >= 0x1_0000 {
        assert p == 64 * (p / 64) + p % 64;
      }
    }
  }

  /** Part of a character decodes to nothing. */
  lemma PartIsSkipped(c: char, k: nat)
    requires k < |EncodeChar(c)|
    ensures DecodeIgnore(EncodeChar(c)[..k]) == ""
  {
    var part := EncodeChar(c)[..k];
    if k > 0 {
      assert Announced(part[0]) == |EncodeChar(c)|;
      assert DecodeFirst(part) == None;
      ContinuationsAreSkipped(part[1..]);
    }
  }

  lemma {:induction false} ContinuationsAreSkipped(octets: seq<nat>)
    requires forall i | 0 <= i < |octets| :: IsContinuation(octets[i])
    ensures DecodeIgnore(octets) == ""
  {
    if octets != [] {
      ContinuationsAreSkipped(octets[1..]);
    }
  }

  /** `n` characters are all that fit whole into `room` octets. */
  ghost predicate LongestPrefix(s: string, n: nat, room: nat) {
    && n <= |s|
    && |Encode(s[..n])| <= room
    && (n < |s| ==> |Encode(s[..n + 1])| > room)
  }

  /** Cutting the octets anywhere and decoding what is left keeps exactly the
      characters that fit whole. */
  lemma {:induction false} CutKeepsWholeCharacters(s: string, room: nat) returns (n: nat)
    requires room <= |Encode(s)|
    ensures LongestPrefix(s, n, room)
    ensures DecodeIgnore(Encode(s)[..room]) == s[..n]
  {
    if s == "" {
      n := 0;
    } else if room < |EncodeChar(s[0])| {
      n := 0;
      NoCharacterFits(s, room);
    } else {
      var m := CutKeepsWholeCharacters(s[1..], room - |EncodeChar(s[0])|);
      n := m + 1;
      OneMoreFits(s, m, room);
    }
    hide *;
  }

  lemma NoCharacterFits(s: string, room: nat)
    requires s != "" && room < |EncodeChar(s[0])|
    ensures LongestPrefix(s, 0, room) && DecodeIgnore(Encode(s)[..room]) == s[..0]
  {
    PartIsSkipped(s[0], room);
    hide DecodeFirst, EncodeChar, DecodeIgnore;
    assert Encode(s)[..room] == EncodeChar(s[0])[..room];
    assert s[..1] == [s[0]] && Encode(s[..1]) == EncodeChar(s[0]) + Encode("");
  }

  lemma OneMoreFits(s: string, m: nat, room: nat)
    requires s != "" && |EncodeChar(s[0])| <= room <= |Encode(s)|
    requires LongestPrefix(s[1..], m, room - |EncodeChar(s[0])|)
    requires DecodeIgnore(Encode(s[1..])[..room - |EncodeChar(s[0])|]) == s[1..][..m]
    ensures LongestPrefix(s, m + 1, room) && DecodeIgnore(Encode(s)[..room]) == s[..m + 1]
  {
    hide DecodeFirst, EncodeChar, DecodeIgnore;
    OneMoreDecoded(s, m, room);
    PrefixEncoding(s, m + 1);
    if m + 1 < |s| {
      PrefixEncoding(s, m + 2);
    }
    hide Encode;
  }

  lemma OneMoreDecoded(s: string, m: nat, room: nat)
    requires s != "" && |EncodeChar(s[0])| <= room <= |Encode(s)| && m <= |s| - 1
    requires DecodeIgnore(Encode(s[1..])[..room - |EncodeChar(s[0])|]) == s[1..][..m]
    ensures DecodeIgnore(Encode(s)[..room]) == s[..m + 1]
  {
    hide DecodeFirst, EncodeChar, DecodeIgnore;
    var head, tail := EncodeChar(s[0]), Encode(s[1..]);
    assert Encode(s) == head + tail;
    hide Encode;
    assert (head + tail)[..room] == head + tail[..room - |head|];
    DecodesNext(s[0], tail[..room - |head|]);
    assert s[..m + 1] == [s[0]] + s[1..][..m];
  }

  lemma PrefixEncoding(s: string, n: nat)
    requires 0 < n <= |s|
    ensures Encode(s[..n]) == EncodeChar(s[0]) + Encode(s[1..][..n - 1])
  {
    assert s[..n][1..] == s[1..][..n - 1];
  }

  /** How many octets Python's slice to `maxBytes - 3` leaves: below zero it counts
      from the end. */
  function Room(octets: nat, maxBytes: int): int {
    if maxBytes >= 3 then maxBytes - 3 else if octets + maxBytes - 3 >= 0 then octets + maxBytes - 3 else 0
  }

  /** A text over the limit keeps exactly the longest prefix of whole characters that
      fits into what the slice leaves, which is room for the ellipsis when there is. */
  lemma TruncatesToLongestPrefix(s: string, maxBytes: int) returns (n: nat)
    requires maxBytes < |Encode(s)|
    ensures 0 <= Room(|Encode(s)|, maxBytes) && LongestPrefix(s, n, Room(|Encode(s)|, maxBytes))
    ensures Truncate(Some(s), maxBytes) == s[..n] + "..."
  {
    n := CutKeepsWholeCharacters(s, Room(|Encode(s)|, maxBytes));
  }

  /** The result fits into `maxBytes` octets whenever it can: the one exception
      is a text over a limit too small for the ellipsis itself. */
  lemma FitsExactly(s: string, maxBytes: int)
    ensures |Encode(Truncate(Some(s), maxBytes))| <= maxBytes <==> |Encode(s)| <= maxBytes || maxBytes >= 3
  {
    if |Encode(s)| > maxBytes {
      EllipsisLength();
      var n := TruncatesToLongestPrefix(s, maxBytes);
      EncodeAppends(s[..n], ELLIPSIS);
    }
  }

  /** What is no text becomes the empty one, and a text within the limit stays. */
  lemma KeepsWhatFits(value: Option<string>, maxBytes: int)
    ensures value.None? ==> Truncate(value, maxBytes) == ""
    ensures value.Some? && |Encode(value.value)| <= maxBytes ==> Truncate(value, maxBytes) == value.value
  {
  }

  lemma EllipsisLength()
    ensures |Encode(ELLIPSIS)| == 3
  {
    assert ELLIPSIS[1..] == ".." && ".."[1..] == "." && "."[1..] == "";
  }
}
