/** Gateway resource names: the encoder of bridge/bridge/gateway_provisioner.py
    and the decoder of workers/gateway_interceptor, which must agree. */
module TargetNames {
  import opened BitPacking
  import opened Options
  import opened Text

  const MAX_TENANT_ID_LENGTH := 40
  const MAX_INTEGRATION_LENGTH := 24
  const TARGET_PREFIX := "tenant-v1-"
  const CREDENTIAL_SUFFIX := "-apikey"

  predicate IsWordChar(c: char) {
    'a' <= c <= 'z' || '0' <= c <= '9'
  }

  predicate IsWord(w: string) {
    w != "" && forall i | 0 <= i < |w| :: IsWordChar(w[i])
  }

  /** The slug pattern: words of lowercase letters and digits joined by hyphens. */
  predicate MatchesSlug(s: string) {
    forall w | w in Split(s, '-') :: IsWord(w)
  }

  predicate ValidComponent(value: string, maxLength: nat) {
    value != "" && |value| <= maxLength && MatchesSlug(value)
  }

  /** The source raises ValueError where this gives Err. */
  function ValidateResourceComponent(value: string, field: string, maxLength: nat): (r: Result<string, string>)
    ensures r.Ok? <==> ValidComponent(value, maxLength)
    ensures r.Ok? ==> r.value == value
  {
    if !ValidComponent(value, maxLength) then Err(field) else Ok(value)
  }

  // ------------------------------------------------------ the Base32 segment

  function Bytes(s: string): seq<nat> {
    seq(|s|, i requires 0 <= i < |s| => s[i] as nat)
  }

  predicate IsBase32Char(c: char) {
    'a' <= c <= 'z' || '2' <= c <= '7'
  }

  /** The lowercased alphabet of section 6 of RFC 4648. */
  function Base32Char(digit: nat): (c: char)
    requires digit < 32
    ensures IsBase32Char(c)
  {
    if digit < 26 then 'a' + digit as char else '2' + (digit - 26) as char
  }

  function Base32Digit(c: char): (digit: nat)
    requires IsBase32Char(c)
    ensures digit < 32 && Base32Char(digit) == c
  {
    if c >= 'a' then (c - 'a') as nat else (c - '2') as nat + 26
  }

  function Base32Text(digits: seq<nat>): (s: string)
    requires Digits(5, digits)
    ensures |s| == |digits| && forall i | 0 <= i < |s| :: IsBase32Char(s[i])
  {
    seq(|digits|, i requires 0 <= i < |digits| => Base32Char(digits[i]))
  }

  /** The alphabet, character by character. */
  lemma Base32Alphabet(digit: nat)
    requires digit < 32
    ensures Base32Char(digit) == "abcdefghijklmnopqrstuvwxyz234567"[digit]
  {
  }

  function Base32Digits(s: string): (digits: seq<nat>)
    requires forall i | 0 <= i < |s| :: IsBase32Char(s[i])
    ensures |digits| == |s| && Digits(5, digits)
  {
    seq(|s|, i requires 0 <= i < |s| => Base32Digit(s[i]))
  }

  lemma DigitsOfText(digits: seq<nat>)
    requires Digits(5, digits)
    ensures Base32Digits(Base32Text(digits)) == digits
  {
  }

  /** Base32 without padding, in lower case. */
  function Base32Lower(s: string): (encoded: string)
    requires IsAscii(s)
    ensures forall i | 0 <= i < |encoded| :: IsBase32Char(encoded[i])
  {
    DecodeEncode(5, Bytes(s));
    Base32Text(Encode(5, Bytes(s)))
  }

  /** Python's b32decode once `=` has been put back: a last group of one, three
      or six characters is an error, and so is an octet outside ASCII. Bits
      that do not fill an octet are ignored. */
  function Base32Decode(encoded: string): Option<string>
    requires forall i | 0 <= i < |encoded| :: IsBase32Char(encoded[i])
  {
    if |encoded| % 8 in {1, 3, 6} then None
    else
      AsciiText(Decode(5, Base32Digits(encoded)))
  }

  function AsciiText(octets: seq<nat>): Option<string> {
    if exists i | 0 <= i < |octets| :: octets[i] >= 128 then None
    else Some(seq(|octets|, i requires 0 <= i < |octets| => octets[i] as char))
  }

  lemma AsciiRoundTrip(s: string)
    requires IsAscii(s)
    ensures AsciiText(Bytes(s)) == Some(s)
  {
    assert AsciiText(Bytes(s)).value == s;
  }

  lemma Base32RoundTrip(s: string)
    requires IsAscii(s)
    ensures Base32Decode(Base32Lower(s)) == Some(s)
    ensures 8 * |s| <= 5 * |Base32Lower(s)| < 8 * |s| + 5
  {
    var octets := Bytes(s);
    DecodeEncode(5, octets);
    DigitsOfText(Encode(5, octets));
    LastGroup(|s|, |Base32Lower(s)|);
    AsciiRoundTrip(s);
  }

  lemma LastGroup(octets: nat, digits: nat)
    requires 8 * octets <= 5 * digits < 8 * octets + 5
    ensures digits % 8 !in {1, 3, 6}
  {
    var q := digits / 8;
    assert digits == 8 * q + digits % 8;
    var r := octets - 5 * q;
  }

  // ---------------------------------------------------------------- encoder

  lemma SlugChars(s: string)
    requires MatchesSlug(s)
    ensures forall i | 0 <= i < |s| :: IsWordChar(s[i]) || s[i] == '-'
    ensures IsAscii(s)
  {
    SplitThenJoin(s, '-');
    JoinedChars(Split(s, '-'));
  }

  lemma {:induction false} JoinedChars(pieces: seq<string>)
    requires |pieces| > 0 && forall w | w in pieces :: IsWord(w)
    ensures forall i | 0 <= i < |Join(pieces, '-')| :: IsWordChar(Join(pieces, '-')[i]) || Join(pieces, '-')[i] == '-'
  {
    assert pieces[0] in pieces;
    if |pieces| > 1 {
      JoinedChars(pieces[1..]);
    }
  }

  function EncodeTenantOwner(tenantId: string): Result<string, string> {
    var valid := ValidateResourceComponent(tenantId, "tenant_id", MAX_TENANT_ID_LENGTH);
    if valid.Err? then valid
    else
      SlugChars(valid.value);
      Ok(Base32Lower(valid.value))
  }

  function TargetName(tenantId: string, integration: string): Result<string, string> {
    var owner := EncodeTenantOwner(tenantId);
    if owner.Err? then owner
    else
      var valid := ValidateResourceComponent(integration, "integration", MAX_INTEGRATION_LENGTH);
      if valid.Err? then valid else Ok(TARGET_PREFIX + owner.value + "-" + valid.value)
  }

  function CredentialProviderName(tenantId: string, integration: string): Result<string, string> {
    var owner := EncodeTenantOwner(tenantId);
    if owner.Err? then owner
    else
      var valid := ValidateResourceComponent(integration, "integration", MAX_INTEGRATION_LENGTH);
      if valid.Err? then valid else Ok(TARGET_PREFIX + owner.value + "-" + valid.value + CREDENTIAL_SUFFIX)
  }

  /** Such as here: `f` is `my` in Base32. */
  lemma NamesOfF()
    ensures TargetName("f", "github") == Ok("tenant-v1-my-github")
    ensures CredentialProviderName("f", "github") == Ok("tenant-v1-my-github-apikey")
  {
    FInBase32();
    OneWord("github");
    OneWord("f");
    hide Base32Lower, MatchesSlug, IsWord;
    assert TARGET_PREFIX + "my" + "-" + "github" == "tenant-v1-my-github";
    assert TARGET_PREFIX + "my" + "-" + "github" + CREDENTIAL_SUFFIX == "tenant-v1-my-github-apikey";
  }

  lemma {:induction false} SplitWord(w: string)
    requires forall i | 0 <= i < |w| :: w[i] != '-'
    ensures Split(w, '-') == [w]
  {
    if w != "" {
      SplitWord(w[1..]);
      assert [w[0]] + w[1..] == w;
    }
  }

  lemma OneWord(w: string)
    requires IsWord(w)
    ensures MatchesSlug(w)
  {
    SplitWord(w);
  }

  lemma FInBase32()
    ensures Base32Lower("f") == "my"
  {
    assert Bytes("f") == [102];
    DigitsOfF();
    Base32Alphabet(12);
    Base32Alphabet(24);
    hide Encode, Base32Char;
  }

  lemma DigitsOfF()
    ensures Encode(5, [102]) == [12, 24] && Digits(5, Encode(5, [102]))
  {
    NumberOfOne(102);
    hide *;
    DecodeEncode(5, [102]);
    var fill := EncodeKeepsNumber(5, [102]);
    FillsTwo(|Encode(5, [102])|, fill);
    NumberOfTwo(Encode(5, [102]));
    TwelveTwentyFour(Encode(5, [102]));
  }

  lemma FillsTwo(digits: nat, fill: nat)
    requires fill < 5 && 5 * digits == 8 + fill
    ensures digits == 2 && fill == 2
  {
  }

  lemma TwelveTwentyFour(digits: seq<nat>)
    requires |digits| == 2 && digits[0] * 32 + digits[1] == 408 && digits[0] < 32 && digits[1] < 32
    ensures digits == [12, 24]
  {
  }

  lemma NumberOfOne(n: nat)
    requires n < 256
    ensures Digits(8, [n]) && Number(8, [n]) == n && Pow2(2) == 4
  {
    assert Pow2(4) == 16 && Pow2(8) == 16 * Pow2(4);
    assert [n][..0] == [];
  }

  lemma NumberOfTwo(digits: seq<nat>)
    requires |digits| == 2 && Digits(5, digits)
    ensures Number(5, digits) == digits[0] * 32 + digits[1] && digits[0] < 32 && digits[1] < 32
  {
    assert Pow2(5) == 32;
    assert digits[..1][..0] == [];
    assert Number(5, digits[..1]) == digits[0];
  }

  // ---------------------------------------------------------------- decoder

  function DecodeTargetOwner(targetName: string): Option<(string, string)> {
    if !(TARGET_PREFIX <= targetName) then None
    else
      var rest := targetName[|TARGET_PREFIX|..];
      var hyphen := Find(rest, "-");
      if hyphen == -1 then None
      else
        var encodedOwner, integration := rest[..hyphen], rest[hyphen + 1..];
        if encodedOwner == "" || exists i | 0 <= i < |encodedOwner| :: !IsBase32Char(encodedOwner[i]) then None
        else if !ValidComponent(integration, MAX_INTEGRATION_LENGTH) then None
        else
          match Base32Decode(encodedOwner)
          case None => None
          case Some(tenantId) =>
            if !ValidComponent(tenantId, MAX_TENANT_ID_LENGTH) then None
            else
              SlugChars(tenantId);
              if Base32Lower(tenantId) != encodedOwner then None else Some((tenantId, integration))
  }

  /** Everything before a hyphen-free segment's hyphen is that segment. */
  lemma FirstHyphen(owner: string, integration: string)
    requires forall i | 0 <= i < |owner| :: owner[i] != '-'
    ensures Find(owner + "-" + integration, "-") == |owner|
  {
    var s := owner + "-" + integration;
    assert OccursAt(s, "-", |owner|);
    forall i | 0 <= i < |owner| ensures !OccursAt(s, "-", i) {
      assert s[i..i + 1][0] == owner[i];
    }
    FoundAt(s, "-", |owner|);
  }

  /** The encoder and the decoder are exact inverses: a name decodes to a tenant
      and an integration just when it is the name the encoder gives them. */
  lemma DecodesExactly(name: string, tenantId: string, integration: string)
    ensures DecodeTargetOwner(name) == Some((tenantId, integration)) <==> TargetName(tenantId, integration) == Ok(name)
  {
    if TargetName(tenantId, integration) == Ok(name) {
      EncodedDecodes(name, tenantId, integration);
    }
    if DecodeTargetOwner(name) == Some((tenantId, integration)) {
      DecodedEncodes(name, tenantId, integration);
    }
  }

  lemma EncodedDecodes(name: string, tenantId: string, integration: string)
    requires TargetName(tenantId, integration) == Ok(name)
    ensures DecodeTargetOwner(name) == Some((tenantId, integration))
  {
    SlugChars(tenantId);
    Base32RoundTrip(tenantId);
    var owner := Base32Lower(tenantId);
    hide Base32Lower, Base32Decode, MatchesSlug, Find, IsAscii, IsWordChar;
    var rest := owner + "-" + integration;
    assert name == TARGET_PREFIX + rest;
    assert name[|TARGET_PREFIX|..] == rest;
    FirstHyphen(owner, integration);
    assert rest[..|owner|] == owner && rest[|owner| + 1..] == integration;
  }

  lemma DecodedEncodes(name: string, tenantId: string, integration: string)
    requires DecodeTargetOwner(name) == Some((tenantId, integration))
    ensures TargetName(tenantId, integration) == Ok(name)
  {
    hide Base32Lower, Base32Decode, MatchesSlug, Find, IsAscii;
    var rest := name[|TARGET_PREFIX|..];
    var hyphen := Find(rest, "-");
    FindSplits(rest, "-");
    assert name == TARGET_PREFIX + rest;
    assert name == TARGET_PREFIX + rest[..hyphen] + "-" + rest[hyphen + 1..];
  }

  /** Names identify their tenant and integration, even by the segment alone. */
  lemma NamesAreInjective(tenantId: string, integration: string, other: string, otherIntegration: string)
    requires TargetName(tenantId, integration).Ok? && TargetName(other, otherIntegration).Ok?
    ensures TargetName(tenantId, integration) == TargetName(other, otherIntegration)
            <==> tenantId == other && integration == otherIntegration
    ensures CredentialProviderName(tenantId, integration) == CredentialProviderName(other, otherIntegration)
            <==> tenantId == other && integration == otherIntegration
    ensures TARGET_PREFIX + EncodeTenantOwner(tenantId).value + "-" <= TargetName(other, otherIntegration).value
            <==> tenantId == other
  {
    var name, otherName := TargetName(tenantId, integration).value, TargetName(other, otherIntegration).value;
    DecodesExactly(name, tenantId, integration);
    DecodesExactly(otherName, other, otherIntegration);
    DecodesExactly(name, other, otherIntegration);
    var credential := CredentialProviderName(tenantId, integration).value;
    var otherCredential := CredentialProviderName(other, otherIntegration).value;
    assert credential == name + CREDENTIAL_SUFFIX && otherCredential == otherName + CREDENTIAL_SUFFIX;
    assert credential[..|credential| - |CREDENTIAL_SUFFIX|] == name;
    assert otherCredential[..|otherCredential| - |CREDENTIAL_SUFFIX|] == otherName;
    SamePrefixSameOwner(tenantId, other, otherIntegration);
  }

  lemma SamePrefixSameOwner(tenantId: string, other: string, otherIntegration: string)
    requires EncodeTenantOwner(tenantId).Ok? && TargetName(other, otherIntegration).Ok?
    ensures TARGET_PREFIX + EncodeTenantOwner(tenantId).value + "-" <= TargetName(other, otherIntegration).value
            <==> tenantId == other
  {
    SlugChars(tenantId);
    SlugChars(other);
    Base32RoundTrip(tenantId);
    Base32RoundTrip(other);
    hide Base32Decode, MatchesSlug, IsAscii, Find;
    SameSegment(Base32Lower(tenantId), Base32Lower(other), otherIntegration);
    assert TargetName(other, otherIntegration).value == TARGET_PREFIX + Base32Lower(other) + "-" + otherIntegration;
  }

  lemma SameSegment(owner: string, other: string, integration: string)
    requires forall i | 0 <= i < |owner| :: owner[i] != '-'
    requires forall i | 0 <= i < |other| :: other[i] != '-'
    ensures TARGET_PREFIX + owner + "-" <= TARGET_PREFIX + other + "-" + integration <==> owner == other
  {
    var name, prefix := TARGET_PREFIX + other + "-" + integration, TARGET_PREFIX + owner + "-";
    if prefix <= name {
      var tail := name[|prefix|..];
      var rest := name[|TARGET_PREFIX|..];
      assert rest == owner + "-" + tail;
      assert rest == other + "-" + integration;
      FirstHyphen(owner, tail);
      FirstHyphen(other, integration);
      hide Find;
      assert rest[..|owner|] == owner && rest[..|other|] == other;
    }
    if owner == other {
      assert name[..|prefix|] == prefix;
    }
  }

  /** Target names fit the 100 characters the gateway allows. */
  lemma NameLength(tenantId: string, integration: string)
    requires TargetName(tenantId, integration).Ok?
    ensures |TargetName(tenantId, integration).value| == 11 + (8 * |tenantId| + 4) / 5 + |integration| <= 99
  {
    SlugChars(tenantId);
    Base32RoundTrip(tenantId);
  }

  // ------------------------------------------------------------ access check

  datatype Decision = Allowed | NoToolName | BadClaim | NoDelimiter | BadTarget | OtherOwner

  function CheckTenantMatch(claim: string, toolName: string, delimiter: string): Decision {
    if toolName == "" then NoToolName
    else if !ValidComponent(claim, MAX_TENANT_ID_LENGTH) then BadClaim
    else if delimiter == "" || Find(toolName, delimiter) == -1 then NoDelimiter
    else
      match DecodeTargetOwner(toolName[..Find(toolName, delimiter)])
      case None => BadTarget
      case Some((owner, _)) => if owner != claim then OtherOwner else Allowed
  }

  /** Which reason a call is refused for, the first of these. */
  lemma RefusedExactly(claim: string, toolName: string, delimiter: string)
    ensures var decision := CheckTenantMatch(claim, toolName, delimiter);
            var found := delimiter != "" && exists i :: OccursAt(toolName, delimiter, i);
            && (decision == NoToolName <==> toolName == "")
            && (decision == BadClaim <==> toolName != "" && !(claim != "" && |claim| <= 40 && MatchesSlug(claim)))
            && (decision == NoDelimiter <==> toolName != "" && claim != "" && |claim| <= 40 && MatchesSlug(claim) && !found)
            && (decision.BadTarget? || decision.OtherOwner? || decision.Allowed? ==> found)
  {
    FindsLeftmost(toolName, delimiter);
    hide Find, OccursAt, MatchesSlug, DecodeTargetOwner;
  }

  /** The two reasons that look at the target in front of the delimiter: it is no target
      name at all, or one of another tenant. */
  lemma RefusedTarget(claim: string, toolName: string, delimiter: string)
    requires CheckTenantMatch(claim, toolName, delimiter) in {BadTarget, OtherOwner}
    ensures var at := Find(toolName, delimiter);
            && at != -1
            && (CheckTenantMatch(claim, toolName, delimiter) == OtherOwner <==>
                  exists owner, integration :: owner != claim && TargetName(owner, integration) == Ok(toolName[..at]))
            && (CheckTenantMatch(claim, toolName, delimiter) == BadTarget <==>
                  forall owner, integration :: TargetName(owner, integration) != Ok(toolName[..at]))
  {
    var at := Find(toolName, delimiter);
    hide Find, MatchesSlug, DecodeTargetOwner, TargetName, ValidComponent;
    forall owner, integration
      ensures TargetName(owner, integration) == Ok(toolName[..at]) <==> DecodeTargetOwner(toolName[..at]) == Some((owner, integration))
    {
      DecodesExactly(toolName[..at], owner, integration);
    }
    if DecodeTargetOwner(toolName[..at]).Some? {
      var (owner, integration) := DecodeTargetOwner(toolName[..at]).value;
      assert TargetName(owner, integration) == Ok(toolName[..at]);
    }
  }

  predicate IsNameChar(c: char) {
    IsWordChar(c) || c == '-'
  }

  /** A call that is allowed is to a tool of one of the caller's own targets,
      whatever the delimiter is. */
  lemma AllowedIsOwn(claim: string, toolName: string, delimiter: string)
    requires CheckTenantMatch(claim, toolName, delimiter) == Allowed
    ensures exists integration, inner :: IsToolOf(claim, integration, delimiter, inner, toolName)
  {
    hide Base32Lower, Base32Decode, MatchesSlug, Find, IsAscii, DecodeTargetOwner;
    var at := Find(toolName, delimiter);
    var target := toolName[..at];
    var integration := DecodeTargetOwner(target).value.1;
    DecodesExactly(target, claim, integration);
    var inner := toolName[at + |delimiter|..];
    FindSplits(toolName, delimiter);
    assert toolName == target + delimiter + inner;
    assert IsToolOf(claim, integration, delimiter, inner, toolName);
  }

  ghost predicate IsToolOf(tenantId: string, integration: string, delimiter: string, inner: string, toolName: string) {
    TargetName(tenantId, integration).Ok? && toolName == TargetName(tenantId, integration).value + delimiter + inner
  }

  // ------------------------------------------------------------ delimiters

  /** Slugs in other words: name characters, hyphens only between others and single. */
  predicate Hyphenated(s: string) {
    && s != "" && s[0] != '-' && s[|s| - 1] != '-'
    && (forall i | 0 <= i < |s| :: IsNameChar(s[i]))
    && !Doubled(s)
  }

  /** Two hyphens in a row. */
  predicate Doubled(s: string) {
    exists i | 0 <= i < |s| - 1 :: DoubledAt(s, i)
  }

  predicate DoubledAt(s: string, i: int)
    requires 0 <= i < |s| - 1
  {
    s[i] == '-' && s[i + 1] == '-'
  }

  lemma HyphenatedStep(s: string)
    requires |s| > 1 && IsWordChar(s[0])
    ensures s[1] != '-' ==> (Hyphenated(s) <==> Hyphenated(s[1..]))
    ensures s[1] == '-' ==> (Hyphenated(s) <==> Hyphenated(s[2..]))
  {
    var cut := if s[1] == '-' then 2 else 1;
    var rest := s[cut..];
    if i :| 0 <= i < |rest| - 1 && DoubledAt(rest, i) {
      assert DoubledAt(s, i + cut);
    }
    if i :| 0 <= i < |s| - 1 && DoubledAt(s, i) {
      if i >= cut {
        assert DoubledAt(rest, i - cut);
      }
    }
    if Hyphenated(rest) {
      forall i | 0 <= i < |s| ensures IsNameChar(s[i]) {
        assert i >= cut ==> s[i] == rest[i - cut];
      }
    }
    if s[1] == '-' && |s| > 2 && s[2] == '-' {
      assert DoubledAt(s, 1);
    }
  }

  lemma {:induction false} SlugMeans(s: string)
    ensures MatchesSlug(s) <==> Hyphenated(s)
    decreases |s|
  {
    if s == "" {
      assert "" in Split(s, '-');
    } else if !IsWordChar(s[0]) {
      BadFirst(s);
    } else if |s| == 1 {
      assert Split(s[1..], '-') == [""];
      assert Split(s, '-') == [[s[0]] + ""] && [s[0]] + "" == s;
    } else {
      HyphenatedStep(s);
      SlugStep(s);
      if s[1] == '-' {
        SlugMeans(s[2..]);
      } else {
        SlugMeans(s[1..]);
      }
    }
  }

  lemma BadFirst(s: string)
    requires s != "" && !IsWordChar(s[0])
    ensures !MatchesSlug(s) && !Hyphenated(s)
  {
    var first := Split(s, '-')[0];
    assert first in Split(s, '-');
    assert first == "" || first[0] == s[0];
    assert !IsWord(first);
  }

  lemma SlugStep(s: string)
    requires |s| > 1 && IsWordChar(s[0])
    ensures s[1] != '-' ==> (MatchesSlug(s) <==> MatchesSlug(s[1..]))
    ensures s[1] == '-' ==> (MatchesSlug(s) <==> MatchesSlug(s[2..]))
  {
    var rest := Split(s[1..], '-');
    assert Split(s, '-') == [[s[0]] + rest[0]] + rest[1..];
    SameWords([[s[0]] + rest[0]], rest[1..]);
    assert IsWord([s[0]] + rest[0]) <==> forall i | 0 <= i < |rest[0]| :: IsWordChar(rest[0][i]) by {
      assert ([s[0]] + rest[0])[1..] == rest[0];
    }
    if s[1] == '-' {
      assert s[1..][1..] == s[2..];
      assert rest == [""] + Split(s[2..], '-');
    } else {
      SameWords([rest[0]], rest[1..]);
      assert rest == [rest[0]] + rest[1..];
      assert s[1..][0] == s[1] && rest[0] != "";
      assert MatchesSlug(s[1..]) <==> IsWord(rest[0]) && forall w | w in rest[1..] :: IsWord(w);
    }
  }

  lemma SameWords(a: seq<string>, b: seq<string>)
    ensures (forall w | w in a + b :: IsWord(w)) <==> (forall w | w in a :: IsWord(w)) && (forall w | w in b :: IsWord(w))
  {
    forall w ensures w in a + b <==> w in a || w in b {
    }
  }

  // --------------------------------------------- names and their delimiters

  /** A name exists exactly for two slugs within their limits. */
  lemma ValidNames(tenantId: string, integration: string)
    ensures TargetName(tenantId, integration).Ok? <==>
            && Hyphenated(tenantId) && |tenantId| <= 40
            && Hyphenated(integration) && |integration| <= 24
  {
    SlugMeans(tenantId);
    SlugMeans(integration);
    assert !Hyphenated("");
    hide Hyphenated, MatchesSlug, Base32Lower;
  }

  /** The part of a name in front of the integration, without the hyphen. */
  function OwnerPart(tenantId: string): string
    requires EncodeTenantOwner(tenantId).Ok?
  {
    TARGET_PREFIX + EncodeTenantOwner(tenantId).value
  }

  lemma NameParts(tenantId: string, integration: string)
    requires TargetName(tenantId, integration).Ok?
    ensures TargetName(tenantId, integration).value == OwnerPart(tenantId) + "-" + integration
    ensures integration != ""
  {
    ValidNames(tenantId, integration);
    hide Base32Lower, MatchesSlug;
  }

  lemma OwnerIsWord(tenantId: string)
    requires EncodeTenantOwner(tenantId).Ok?
    ensures var owner := EncodeTenantOwner(tenantId).value;
            owner != "" && forall i | 0 <= i < |owner| :: IsWordChar(owner[i])
  {
    SlugChars(tenantId);
    Base32RoundTrip(tenantId);
    hide Base32Lower, Base32Decode, MatchesSlug;
  }

  lemma JoinedHyphenated(a: string, b: string)
    requires Hyphenated(a) && Hyphenated(b)
    ensures Hyphenated(a + "-" + b)
  {
    var s := a + "-" + b;
    forall i | 0 <= i < |s| - 1 ensures !DoubledAt(s, i) {
      if i < |a| - 1 {
        assert !DoubledAt(a, i);
      } else if i > |a| {
        assert !DoubledAt(b, i - |a| - 1);
      }
    }
  }

  lemma WordHyphenated(w: string)
    requires w != "" && forall i | 0 <= i < |w| :: IsWordChar(w[i])
    ensures Hyphenated(w)
  {
  }

  /** A name is a slug itself. */
  lemma NameIsHyphenated(tenantId: string, integration: string)
    requires TargetName(tenantId, integration).Ok?
    ensures Hyphenated(TargetName(tenantId, integration).value)
  {
    ValidNames(tenantId, integration);
    NameParts(tenantId, integration);
    OwnerIsWord(tenantId);
    var owner := EncodeTenantOwner(tenantId).value;
    WordHyphenated(owner);
    WordHyphenated("tenant");
    WordHyphenated("v1");
    hide Hyphenated, TargetName, EncodeTenantOwner;
    JoinedHyphenated("tenant", "v1");
    JoinedHyphenated("tenant" + "-" + "v1", owner);
    JoinedHyphenated("tenant" + "-" + "v1" + "-" + owner, integration);
    assert TARGET_PREFIX + owner == "tenant" + "-" + "v1" + "-" + owner;
  }

  /** A delimiter that no name has in it: some character is none of a name's, or there
      are two hyphens in a row (the default is three underscores). */
  predicate Foreign(delimiter: string) {
    Doubled(delimiter) || exists k | 0 <= k < |delimiter| :: !IsNameChar(delimiter[k])
  }

  /** The delimiter behind a name starts inside the name already. */
  ghost predicate Early(delimiter: string, name: string, i: int) {
    0 <= i < |name| && OccursAt(name + delimiter, delimiter, i)
  }

  ghost predicate EarlyIn(delimiter: string, tenantId: string, integration: string, i: int) {
    TargetName(tenantId, integration).Ok? && Early(delimiter, TargetName(tenantId, integration).value, i)
  }

  ghost predicate NeverEarly(delimiter: string) {
    forall tenantId, integration, i :: !EarlyIn(delimiter, tenantId, integration, i)
  }

  /** Character by character an early delimiter is the name's, or its own once more. */
  lemma EarlyChar(delimiter: string, name: string, i: int, k: nat)
    requires Early(delimiter, name, i) && k < |delimiter|
    ensures delimiter[k] == if i + k < |name| then name[i + k] else delimiter[i + k - |name|]
  {
    assert (name + delimiter)[i..i + |delimiter|][k] == (name + delimiter)[i + k];
  }

  lemma {:induction false} EarlyIsName(delimiter: string, name: string, i: int, k: nat)
    requires Early(delimiter, name, i) && k < |delimiter| && Hyphenated(name)
    ensures IsNameChar(delimiter[k])
    ensures k + 1 < |delimiter| ==> !DoubledAt(delimiter, k)
    decreases k
  {
    EarlyChar(delimiter, name, i, k);
    if i + k >= |name| {
      EarlyIsName(delimiter, name, i, i + k - |name|);
    }
    if k + 1 < |delimiter| {
      EarlyChar(delimiter, name, i, k + 1);
      if i + k + 1 < |name| {
        assert !DoubledAt(name, i + k);
      }
    }
  }

  lemma ForeignIsNeverEarly(delimiter: string)
    requires Foreign(delimiter)
    ensures NeverEarly(delimiter)
  {
    forall tenantId, integration, i ensures !EarlyIn(delimiter, tenantId, integration, i) {
      if EarlyIn(delimiter, tenantId, integration, i) {
        var name := TargetName(tenantId, integration).value;
        NameIsHyphenated(tenantId, integration);
        hide Hyphenated, TargetName, Early;
        if k :| 0 <= k < |delimiter| && !IsNameChar(delimiter[k]) {
          EarlyIsName(delimiter, name, i, k);
        }
        if k :| 0 <= k < |delimiter| - 1 && DoubledAt(delimiter, k) {
          EarlyIsName(delimiter, name, i, k);
        }
      }
    }
  }

  /** A text that is not foreign begins some slug, perhaps behind a hyphen. */
  lemma BeginsSlug(s: string) returns (slug: string)
    requires s != "" && !Foreign(s)
    ensures Hyphenated(slug) && |slug| <= |s| + 1
    ensures s <= if s[0] == '-' then "-" + slug else slug
  {
    var shift := if s[0] == '-' then 1 else 0;
    var front := s[shift..];
    slug := front + if front == "" || front[|front| - 1] == '-' then "a" else "";
    forall k | 0 <= k < |slug| - 1 ensures !DoubledAt(slug, k) {
      if k + 1 < |front| {
        assert !DoubledAt(s, k + shift);
      }
    }
    if |s| > 1 {
      assert !DoubledAt(s, 0);
    }
  }

  lemma BeginsAt(s: string, text: string, at: nat)
    requires at <= |text| && s <= text[at..]
    ensures OccursAt(text, s, at)
  {
    assert text[at..at + |s|] == text[at..][..|s|];
  }

  /** A short delimiter that is not foreign starts inside some name. */
  lemma PlainIsEarly(delimiter: string)
    requires delimiter != "" && |delimiter| < MAX_INTEGRATION_LENGTH && !Foreign(delimiter)
    ensures !NeverEarly(delimiter)
  {
    var integration := BeginsSlug(delimiter);
    assert Hyphenated("a");
    hide Foreign, Hyphenated;
    ValidNames("a", integration);
    NameParts("a", integration);
    var owner := OwnerPart("a");
    hide TargetName, OwnerPart, OccursAt;
    var at := |owner| + if delimiter[0] == '-' then 0 else 1;
    TailsOf(owner, integration, delimiter);
    BeginsAt(delimiter, owner + "-" + integration + delimiter, at);
    assert EarlyIn(delimiter, "a", integration, at);
  }

  lemma TailsOf(owner: string, integration: string, rest: string)
    ensures (owner + "-" + integration + rest)[|owner|..] == "-" + integration + rest
    ensures (owner + "-" + integration + rest)[|owner| + 1..] == integration + rest
  {
  }

  // ------------------------------------------------ whose tools are reached

  ghost predicate OwnToolsAllowed(delimiter: string) {
    forall claim, integration, inner, toolName ::
      IsToolOf(claim, integration, delimiter, inner, toolName) ==> CheckTenantMatch(claim, toolName, delimiter) == Allowed
  }

  lemma OwnIsAllowed(claim: string, integration: string, delimiter: string, inner: string, toolName: string)
    requires delimiter != "" && NeverEarly(delimiter) && IsToolOf(claim, integration, delimiter, inner, toolName)
    ensures CheckTenantMatch(claim, toolName, delimiter) == Allowed
  {
    var target := TargetName(claim, integration).value;
    DecodesExactly(target, claim, integration);
    hide Base32Lower, Base32Decode, MatchesSlug, Find, IsAscii, DecodeTargetOwner;
    assert toolName[|target|..|target| + |delimiter|] == delimiter;
    forall i | 0 <= i < |target| ensures !OccursAt(toolName, delimiter, i) {
      assert !EarlyIn(delimiter, claim, integration, i);
      if i + |delimiter| <= |toolName| {
        assert toolName[i..i + |delimiter|] == (target + delimiter)[i..i + |delimiter|];
      }
    }
    FoundAt(toolName, delimiter, |target|);
    assert toolName[..|target|] == target;
  }

  /** A delimiter found before the integration has begun leaves no name. */
  lemma CutShort(claim: string, integration: string, delimiter: string, at: int)
    requires delimiter != "" && EarlyIn(delimiter, claim, integration, at) && at <= |OwnerPart(claim)| + 1
    ensures !OwnToolsAllowed(delimiter)
  {
    var toolName := TargetName(claim, integration).value + delimiter;
    FindAtMost(toolName, delimiter, at);
    var name := toolName[..Find(toolName, delimiter)];
    if CheckTenantMatch(claim, toolName, delimiter) == Allowed {
      var cut := DecodeTargetOwner(name).value.1;
      DecodesExactly(name, claim, cut);
      NameParts(claim, cut);
      assert false;
    }
    hide CheckTenantMatch, TargetName, Find;
    assert IsToolOf(claim, integration, delimiter, "", toolName);
  }

  lemma SuffixIsHyphenated(s: string, j: nat)
    requires Hyphenated(s) && j < |s| && s[j] != '-'
    ensures Hyphenated(s[j..])
  {
    var t := s[j..];
    forall i | 0 <= i < |t| - 1 ensures !DoubledAt(t, i) {
      assert !DoubledAt(s, i + j);
    }
  }

  /** If it starts inside some integration, it starts at the beginning of another. */
  lemma MovedForward(claim: string, integration: string, delimiter: string, i: int) returns (moved: string, at: int)
    requires delimiter != "" && EarlyIn(delimiter, claim, integration, i) && i > |OwnerPart(claim)| + 1
    ensures EarlyIn(delimiter, claim, moved, at) && at <= |OwnerPart(claim)| + 1
  {
    var owner := OwnerPart(claim);
    var j := i - |owner| - 1;
    ValidNames(claim, integration);
    NameParts(claim, integration);
    BeginsHere(delimiter, owner + "-" + integration + delimiter, i);
    SameTail(owner, integration, j, delimiter);
    if integration[j] == '-' {
      assert j + 1 < |integration| && !DoubledAt(integration, j);
      moved, at := integration[j + 1..], |owner|;
      SuffixIsHyphenated(integration, j + 1);
    } else {
      moved, at := integration[j..], |owner| + 1;
      SuffixIsHyphenated(integration, j);
    }
    ValidNames(claim, moved);
    NameParts(claim, moved);
    hide TargetName, Hyphenated, OwnerPart, OccursAt;
    BeginsAt(delimiter, owner + "-" + moved + delimiter, at);
  }

  lemma BeginsHere(s: string, text: string, at: int)
    requires OccursAt(text, s, at)
    ensures s <= text[at..]
  {
    assert text[at..at + |s|] == text[at..][..|s|];
  }

  /** Names that end alike. */
  lemma SameTail(owner: string, integration: string, j: nat, rest: string)
    requires j < |integration|
    ensures var tail := (owner + "-" + integration + rest)[|owner| + 1 + j..];
            && (owner + "-" + integration[j..] + rest)[|owner| + 1..] == tail
            && (integration[j] == '-' ==> (owner + "-" + integration[j + 1..] + rest)[|owner|..] == tail)
  {
    var tail := integration[j..] + rest;
    assert (owner + "-" + integration + rest)[|owner| + 1 + j..] == tail;
    if integration[j] == '-' {
      assert "-" + integration[j + 1..] + rest == tail;
    }
  }

  /** A tenant reaches all its tools under exactly the delimiters that never start inside
      a name; of those shorter than an integration can be, these are the foreign ones. */
  lemma DelimitersExactly(delimiter: string)
    ensures OwnToolsAllowed(delimiter) <==> delimiter != "" && NeverEarly(delimiter)
    ensures Foreign(delimiter) ==> OwnToolsAllowed(delimiter)
    ensures |delimiter| < 24 ==> (OwnToolsAllowed(delimiter) <==> Foreign(delimiter))
  {
    hide Find, MatchesSlug, Base32Lower, Base32Decode, IsAscii, DecodeTargetOwner;
    if delimiter == "" {
      NoDelimiterIsRefused();
    } else {
      if NeverEarly(delimiter) {
        forall claim, integration, inner, toolName | IsToolOf(claim, integration, delimiter, inner, toolName)
          ensures CheckTenantMatch(claim, toolName, delimiter) == Allowed
        {
          OwnIsAllowed(claim, integration, delimiter, inner, toolName);
        }
      } else {
        var claim, integration, i :| EarlyIn(delimiter, claim, integration, i);
        if i > |OwnerPart(claim)| + 1 {
          integration, i := MovedForward(claim, integration, delimiter, i);
        }
        CutShort(claim, integration, delimiter, i);
      }
      if Foreign(delimiter) {
        ForeignIsNeverEarly(delimiter);
      } else if |delimiter| < MAX_INTEGRATION_LENGTH {
        PlainIsEarly(delimiter);
      }
    }
    hide *;
  }

  lemma NoDelimiterIsRefused()
    ensures !OwnToolsAllowed("")
  {
    ValidNames("a", "a");
    var toolName := TargetName("a", "a").value;
    hide TargetName;
    assert toolName == toolName + "" + "";
    assert IsToolOf("a", "a", "", "", toolName);
  }

  /** A caller reaches only tools of its own targets; under a foreign delimiter it
      reaches all of them: every tool name made of a target name of the claimed tenant,
      the delimiter and any inner tool is allowed. */
  lemma AllowedExactly(claim: string, toolName: string, delimiter: string)
    ensures CheckTenantMatch(claim, toolName, delimiter) == Allowed ==>
            exists integration, inner :: IsToolOf(claim, integration, delimiter, inner, toolName)
    ensures Foreign(delimiter) ==>
            (CheckTenantMatch(claim, toolName, delimiter) == Allowed <==>
             exists integration, inner :: IsToolOf(claim, integration, delimiter, inner, toolName))
  {
    if CheckTenantMatch(claim, toolName, delimiter) == Allowed {
      AllowedIsOwn(claim, toolName, delimiter);
    }
    DelimitersExactly(delimiter);
    hide CheckTenantMatch, Foreign, TargetName;
  }
}
