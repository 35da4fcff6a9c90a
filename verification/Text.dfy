/** Searching, splitting and trimming as Python's `str` does it. */
module Text {

  ghost predicate OccursAt<T>(s: seq<T>, pat: seq<T>, i: int) {
    0 <= i && i + |pat| <= |s| && s[i..i + |pat|] == pat
  }

  /** The leftmost place where `pat` starts in `s`, or -1 (Python's `str.find`). */
  function Find<T(==)>(s: seq<T>, pat: seq<T>): (at: int)
    ensures at == -1 || 0 <= at <= |s| - |pat|
  {
    if |s| < |pat| then -1
    else if pat <= s then 0
    else if s == [] then -1
    else
      var rest := Find(s[1..], pat);
      if rest == -1 then -1 else rest + 1
  }

  lemma {:induction false} FindsLeftmost<T>(s: seq<T>, pat: seq<T>)
    ensures Find(s, pat) == -1 || OccursAt(s, pat, Find(s, pat))
    ensures forall i | OccursAt(s, pat, i) :: 0 <= Find(s, pat) <= i
  {
    if |s| < |pat| || pat <= s || s == [] {
    } else {
      FindsLeftmost(s[1..], pat);
      var at := Find(s, pat);
      if at != -1 {
        OccursShift(s, pat, at);
      }
      forall i | OccursAt(s, pat, i) ensures 0 <= at <= i {
        OccursShift(s, pat, i);
      }
    }
  }

  lemma FindOccurs<T>(s: seq<T>, pat: seq<T>)
    requires Find(s, pat) != -1
    ensures OccursAt(s, pat, Find(s, pat))
  {
    FindsLeftmost(s, pat);
  }

  lemma FindAtMost<T>(s: seq<T>, pat: seq<T>, i: int)
    requires OccursAt(s, pat, i)
    ensures 0 <= Find(s, pat) <= i
  {
    FindsLeftmost(s, pat);
  }

  /** An element the text lacks keeps the pattern out. */
  lemma Absent<T>(s: seq<T>, pat: seq<T>, k: nat)
    requires k < |pat| && pat[k] !in s
    ensures Find(s, pat) == -1
  {
    forall i ensures !OccursAt(s, pat, i) {
      if 0 <= i && i + |pat| <= |s| {
        assert s[i..i + |pat|][k] == s[i + k];
      }
    }
    FindsLeftmost(s, pat);
  }

  /** The leftmost occurrence is found where one is and none is before it. */
  lemma FoundAt<T>(s: seq<T>, pat: seq<T>, at: nat)
    requires OccursAt(s, pat, at)
    requires forall i | 0 <= i < at :: !OccursAt(s, pat, i)
    ensures Find(s, pat) == at
  {
    FindsLeftmost(s, pat);
  }

  /** `s` taken apart at the leftmost occurrence. */
  lemma FindSplits<T>(s: seq<T>, pat: seq<T>)
    requires Find(s, pat) != -1
    ensures s == s[..Find(s, pat)] + pat + s[Find(s, pat) + |pat|..]
  {
    FindsLeftmost(s, pat);
  }

  lemma OccursShift<T>(s: seq<T>, pat: seq<T>, i: int)
    requires s != [] && (i == 0 ==> !(pat <= s))
    ensures OccursAt(s, pat, i) <==> OccursAt(s[1..], pat, i - 1)
  {
    if 0 < i && i + |pat| <= |s| {
      assert s[1..][i - 1..i - 1 + |pat|] == s[i..i + |pat|];
    }
  }

  /** Cut `s` at every `sep` (Python's `s.split(sep)` for one character): always
      at least one piece. */
  function Split(s: string, sep: char): (pieces: seq<string>)
    ensures |pieces| > 0
  {
    if s == "" then [""]
    else
      var rest := Split(s[1..], sep);
      if s[0] == sep then [""] + rest else [[s[0]] + rest[0]] + rest[1..]
  }

  function Join(pieces: seq<string>, sep: char): string
    requires |pieces| > 0
  {
    if |pieces| == 1 then pieces[0] else pieces[0] + [sep] + Join(pieces[1..], sep)
  }

  /** Splitting loses nothing and leaves no separator in a piece. */
  lemma {:induction false} SplitThenJoin(s: string, sep: char)
    ensures Join(Split(s, sep), sep) == s
    ensures forall p | p in Split(s, sep) :: sep !in p
  {
    if s != "" {
      SplitThenJoin(s[1..], sep);
      var rest := Split(s[1..], sep);
      assert s == [s[0]] + s[1..];
      if s[0] != sep {
        var pieces := [[s[0]] + rest[0]] + rest[1..];
        assert pieces[1..] == rest[1..];
        assert Split(s, sep) == pieces;
        forall p | p in pieces ensures sep !in p {
          assert p == pieces[0] || p in rest[1..];
          assert rest[0] in rest;
        }
      } else {
        assert ([""] + rest)[1..] == rest;
      }
    }
  }

  /** The pieces of `a + b`: those `a` completes, then those of what it leaves
      unfinished followed by `b`. */
  lemma {:induction false} SplitAppend(a: string, b: string, sep: char)
    ensures var pieces := Split(a, sep);
            Split(a + b, sep) == pieces[..|pieces| - 1] + Split(pieces[|pieces| - 1] + b, sep)
  {
    if a == "" {
      assert a + b == b;
    } else {
      SplitAppend(a[1..], b, sep);
      assert (a + b)[1..] == a[1..] + b && (a + b)[0] == a[0];
      var rest, pieces := Split(a[1..], sep), Split(a, sep);
      if a[0] == sep {
        assert pieces[..|pieces| - 1] == [""] + rest[..|rest| - 1];
      } else {
        Prepend(a[0], rest, b, sep);
      }
    }
  }

  /** A character in front of the first piece stays there. */
  lemma Prepend(c: char, rest: seq<string>, b: string, sep: char)
    requires c != sep && |rest| > 0
    ensures var pieces := [[c] + rest[0]] + rest[1..];
            var whole := rest[..|rest| - 1] + Split(rest[|rest| - 1] + b, sep);
            [[c] + whole[0]] + whole[1..] == pieces[..|pieces| - 1] + Split(pieces[|pieces| - 1] + b, sep)
  {
    var pieces := [[c] + rest[0]] + rest[1..];
    if |rest| == 1 {
      assert (pieces[0] + b)[1..] == rest[0] + b;
    } else {
      var tail := Split(rest[|rest| - 1] + b, sep);
      hide Split;
      assert pieces[..|pieces| - 1] == [[c] + rest[0]] + rest[1..|rest| - 1];
      assert (rest[..|rest| - 1] + tail)[1..] == rest[1..|rest| - 1] + tail;
    }
  }

  function Concat(parts: seq<string>): string {
    if parts == [] then "" else parts[0] + Concat(parts[1..])
  }

  lemma {:induction false} ConcatAppends(a: seq<string>, b: seq<string>)
    ensures Concat(a + b) == Concat(a) + Concat(b)
  {
    if a == [] {
      assert a + b == b;
    } else {
      assert (a + b)[1..] == a[1..] + b;
      ConcatAppends(a[1..], b);
    }
  }

  lemma ConcatPush(a: seq<string>, s: string)
    ensures Concat(a + [s]) == Concat(a) + s
  {
    ConcatAppends(a, [s]);
    assert Concat([s]) == s + Concat([]);
  }

  predicate IsAscii(s: string) {
    forall i | 0 <= i < |s| :: s[i] as int < 128
  }

  // ---------------------------------------------------------------- trimming

  /** The characters `str.strip()` removes. */
  predicate IsSpace(c: char) {
    || '\t' <= c <= '\r'
    || '\U{1C}' <= c <= ' '
    || c == '\U{85}' || c == '\U{A0}' || c == '\U{1680}'
    || '\U{2000}' <= c <= '\U{200A}'
    || c == '\U{2028}' || c == '\U{2029}' || c == '\U{202F}' || c == '\U{205F}' || c == '\U{3000}'
  }

  predicate AllSpace(s: string) {
    forall i | 0 <= i < |s| :: IsSpace(s[i])
  }

  function StripLeft(s: string): (t: string)
    ensures |t| <= |s|
  {
    if s == "" || !IsSpace(s[0]) then s else StripLeft(s[1..])
  }

  function StripRight(s: string): (t: string)
    ensures |t| <= |s|
  {
    if s == "" || !IsSpace(s[|s| - 1]) then s else StripRight(s[..|s| - 1])
  }

  /** Stripping on the left removes white space up to something visible. */
  lemma {:induction false} StripLeftIs(s: string)
    ensures var t := StripLeft(s);
            && s == s[..|s| - |t|] + t
            && AllSpace(s[..|s| - |t|])
            && (t != "" ==> !IsSpace(t[0]))
  {
    hide IsSpace;
    if s != "" && IsSpace(s[0]) {
      StripLeftIs(s[1..]);
      var t := StripLeft(s);
      assert s[..|s| - |t|] == [s[0]] + s[1..][..|s| - 1 - |t|];
    }
  }

  lemma {:induction false} StripRightIs(s: string)
    ensures var t := StripRight(s);
            && s == t + s[|t|..]
            && AllSpace(s[|t|..])
            && (t != "" ==> !IsSpace(t[|t| - 1]))
  {
    hide IsSpace;
    if s != "" && IsSpace(s[|s| - 1]) {
      StripRightIs(s[..|s| - 1]);
      var t := StripRight(s);
      assert s[|t|..] == s[..|s| - 1][|t|..] + [s[|s| - 1]];
    }
  }

  function Strip(s: string): string {
    StripRight(StripLeft(s))
  }

  /** Nothing to strip. */
  predicate Trimmed(s: string) {
    s != "" ==> !IsSpace(s[0]) && !IsSpace(s[|s| - 1])
  }

  lemma {:induction false} StripLeftSkips(a: string, s: string)
    requires AllSpace(a) && (s != "" ==> !IsSpace(s[0]))
    ensures StripLeft(a + s) == s
  {
    if a == "" {
      assert a + s == s;
    } else {
      assert (a + s)[1..] == a[1..] + s;
      StripLeftSkips(a[1..], s);
    }
  }

  lemma {:induction false} StripRightSkips(s: string, b: string)
    requires AllSpace(b) && (s != "" ==> !IsSpace(s[|s| - 1]))
    ensures StripRight(s + b) == s
  {
    if b == "" {
      assert s + b == s;
    } else {
      assert (s + b)[..|s + b| - 1] == s + b[..|b| - 1];
      StripRightSkips(s, b[..|b| - 1]);
    }
  }

  /** Stripping white space around a trimmed text gives the text back. */
  lemma StripSkips(a: string, s: string, b: string)
    requires AllSpace(a) && AllSpace(b) && Trimmed(s) && s != ""
    ensures Strip(a + s + b) == s
  {
    assert a + s + b == a + (s + b);
    StripLeftSkips(a, s + b);
    StripRightSkips(s, b);
  }

  /** Text in front of a visible end never makes the stripped text shorter. */
  lemma StripKeepsEnd(x: string, s: string)
    requires EndsVisibly(s)
    ensures |Strip(x + s)| >= |Strip(s)|
  {
    LeftKeepsEnd(x, s);
    hide IsSpace, StripLeft;
  }

  predicate EndsVisibly(s: string) {
    s != "" && !IsSpace(s[|s| - 1])
  }

  lemma {:induction false} LeftKeepsEnd(x: string, s: string)
    requires EndsVisibly(s)
    ensures |StripLeft(x + s)| >= |StripLeft(s)|
    ensures EndsVisibly(StripLeft(s)) && EndsVisibly(StripLeft(x + s))
  {
    hide IsSpace;
    if x == "" {
      assert x + s == s;
      LeftStaysVisible(s);
    } else {
      assert (x + s)[1..] == x[1..] + s;
      LeftKeepsEnd(x[1..], s);
    }
  }

  lemma {:induction false} LeftStaysVisible(s: string)
    requires EndsVisibly(s)
    ensures EndsVisibly(StripLeft(s))
  {
    hide IsSpace;
    if IsSpace(s[0]) {
      LeftStaysVisible(s[1..]);
    }
  }

  /** A text around a middle that is a beginning of an end of it. */
  lemma Around(s: string, left: string, kept: string)
    requires |left| <= |s| && s[|s| - |left|..] == left && |kept| <= |left| && left[..|kept|] == kept
    ensures s == s[..|s| - |left|] + kept + left[|kept|..]
    ensures kept != "" ==> left[0] == kept[0]
  {
    assert s == s[..|s| - |left|] + left;
    assert left == kept + left[|kept|..];
  }

  /** What stripping leaves is trimmed, and the text is it with white space around. */
  lemma StripIsTrimmed(s: string)
    ensures Trimmed(Strip(s))
    ensures exists a, b :: AllSpace(a) && AllSpace(b) && s == a + Strip(s) + b
  {
    var left, kept := StripLeft(s), Strip(s);
    StripLeftIs(s);
    StripRightIs(left);
    hide IsSpace, AllSpace, StripLeft, StripRight;
    Around(s, left, kept);
  }
}
