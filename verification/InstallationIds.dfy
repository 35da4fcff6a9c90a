/** Canonical GitHub installation ids (bridge/bridge/github_app.py:105-120). */
module InstallationIds {
  import opened Options
  import opened Text

  const MAX_ID := 0x7FFF_FFFF_FFFF_FFFF

  predicate IsDigit(c: char) {
    '0' <= c <= '9'
  }

  /** A decimal numeral, leading zeros allowed. */
  predicate IsNumeral(s: string) {
    s != "" && forall i | 0 <= i < |s| :: IsDigit(s[i])
  }

  function DigitOf(c: char): nat
    requires IsDigit(c)
  {
    (c - '0') as nat
  }

  function Number(s: string): nat
    requires forall i | 0 <= i < |s| :: IsDigit(s[i])
  {
    if s == "" then 0 else 10 * Number(s[..|s| - 1]) + DigitOf(s[|s| - 1])
  }

  function Decimal(n: nat): (s: string)
    ensures IsNumeral(s)
  {
    var last := '0' + (n % 10) as char;
    if n < 10 then [last] else Decimal(n / 10) + [last]
  }

  /** The source raises ValueError where this gives None. */
  function Normalize(value: string): Option<string> {
    var raw := Strip(value);
    if !IsNumeral(raw) || Number(raw) == 0 || Number(raw) > MAX_ID then None else Some(Decimal(Number(raw)))
  }

  lemma {:induction false} NumberOfDecimal(n: nat)
    ensures Number(Decimal(n)) == n
    ensures n > 0 ==> Decimal(n)[0] != '0'
  {
    var s := Decimal(n);
    if n < 10 {
      assert s[..|s| - 1] == "";
    } else {
      NumberOfDecimal(n / 10);
      assert s[..|s| - 1] == Decimal(n / 10);
    }
  }

  /** A numeral with white space around it, for a number in range. */
  ghost predicate Spells(value: string, n: nat) {
    exists a, digits, b :: SpellsWith(value, a, digits, b) && Number(digits) == n
  }

  ghost predicate SpellsWith(value: string, a: string, digits: string, b: string) {
    AllSpace(a) && AllSpace(b) && IsNumeral(digits) && value == a + digits + b
  }

  lemma DigitsAreVisible(digits: string)
    requires IsNumeral(digits)
    ensures Trimmed(digits)
  {
  }

  lemma StripOfSpelling(value: string, a: string, digits: string, b: string)
    requires SpellsWith(value, a, digits, b)
    ensures Strip(value) == digits
  {
    DigitsAreVisible(digits);
    hide IsNumeral, IsSpace, AllSpace;
    StripSkips(a, digits, b);
  }

  /** Exactly the spellings of the numbers 1 to 2^63 - 1 are accepted, and each number
      has one canonical id, whatever its spelling. */
  lemma NormalizesExactly(value: string, n: nat)
    ensures Normalize(value) == Some(Decimal(n)) <==> 0 < n < 0x8000_0000_0000_0000 && Spells(value, n)
  {
    NumberOfDecimal(n);
    if Normalize(value) == Some(Decimal(n)) {
      NumberOfDecimal(Number(Strip(value)));
      StripIsTrimmed(value);
      var a, b :| AllSpace(a) && AllSpace(b) && value == a + Strip(value) + b;
      assert SpellsWith(value, a, Strip(value), b);
    }
    if Spells(value, n) {
      var a, digits, b :| SpellsWith(value, a, digits, b) && Number(digits) == n;
      StripOfSpelling(value, a, digits, b);
    }
    hide Strip, Decimal;
  }

  /** A canonical id is itself canonical, in plain digits without a leading zero. */
  lemma CanonicalIdIsFixed(value: string)
    requires Normalize(value).Some?
    ensures var id := Normalize(value).value;
            Normalize(id) == Some(id) && IsNumeral(id) && id[0] != '0' && IsAscii(id)
  {
    var n := Number(Strip(value));
    var id := Decimal(n);
    NumberOfDecimal(n);
    assert SpellsWith(id, "", id, "");
    StripOfSpelling(id, "", id, "");
  }

  /** Such as here: one spelling of forty-two. */
  lemma FortyTwo()
    ensures Normalize(" 0042\n") == Some("42")
  {
    NumberOfFortyTwo();
    var spelling, space, feed, digits := " 0042\n", " ", "\n", "0042";
    assert AllSpace(space) && AllSpace(feed) && spelling == space + digits + feed;
    hide IsNumeral, AllSpace, Strip;
    StripOfSpelling(spelling, space, digits, feed);
    hide Number;
    assert Decimal(4) == "4";
    assert Decimal(42) == Decimal(42 / 10) + ['2'];
    assert "4" + ['2'] == "42";
  }

  lemma NumberOfFortyTwo()
    ensures IsNumeral("0042") && Number("0042") == 42
  {
    assert "0042"[..3] == "004" && "004"[..2] == "00" && "00"[..1] == "0" && "0"[..0] == "";
    assert Number("0") == 0;
    assert Number("00") == 0;
    assert Number("004") == 4;
  }
}
