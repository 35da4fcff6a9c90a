/** Reading the pull-request text a model writes (infra/sandbox/agent.py). */
module PrMetadata {
  import opened Text

  datatype PRMetadata = PRMetadata(title: string, body: string, commitMessage: string)

  function Commit(): string { "COMMIT_MESSAGE:" }

  function Title(): string { "PR_TITLE:" }

  function Body(): string { "PR_BODY:" }

  predicate Has(text: string, marker: string) {
    Find(text, marker) != -1
  }

  /** `text.split(marker, 1)`: the two sides of the first marker. */
  function UpTo(text: string, marker: string): string
    requires Has(text, marker)
  {
    text[..Find(text, marker)]
  }

  function After(text: string, marker: string): string
    requires Has(text, marker)
  {
    text[Find(text, marker) + |marker|..]
  }

  function FirstLine(s: string): string {
    Split(s, '\n')[0]
  }

  /** A field between its marker and the next one, or one line without it. */
  function Field(text: string, marker: string, next: string): string {
    if !Has(text, marker) then ""
    else
      var after := After(text, marker);
      if Has(after, next) then Strip(UpTo(after, next)) else Strip(FirstLine(Strip(after)))
  }

  function OrElse(field: string, fallback: string): string {
    if field == "" then fallback else field
  }

  function FallbackBody(summary: string, diff: string): string {
    "## Summary\n" + summary + "\n\n## Diff\n```\n" + diff + "\n```"
  }

  function Parsed(text: string, summary: string, diff: string): PRMetadata {
    PRMetadata(
      OrElse(Field(text, Title(), Body()), "Agent: code change"),
      OrElse(if Has(text, Body()) then Strip(After(text, Body())) else "", FallbackBody(summary, diff)),
      OrElse(Field(text, Commit(), Title()), "Apply code changes"))
  }

  method ParsePrMetadata(text: string, fallbackSummary: string, fallbackDiff: string) returns (meta: PRMetadata)
    ensures meta == Parsed(text, fallbackSummary, fallbackDiff)
    ensures meta.commitMessage != "" && meta.title != "" && meta.body != ""
  {
    meta := PRMetadata("", "", "");
    if Has(text, Commit()) {
      var after := After(text, Commit());
      if Has(after, Title()) {
        meta := meta.(commitMessage := Strip(UpTo(after, Title())));
      } else {
        meta := meta.(commitMessage := Strip(FirstLine(Strip(after))));
      }
    }
    if Has(text, Title()) {
      var after := After(text, Title());
      if Has(after, Body()) {
        meta := meta.(title := Strip(UpTo(after, Body())));
      } else {
        meta := meta.(title := Strip(FirstLine(Strip(after))));
      }
    }
    if Has(text, Body()) {
      meta := meta.(body := Strip(After(text, Body())));
    }
    if meta.commitMessage == "" {
      meta := meta.(commitMessage := "Apply code changes");
    }
    if meta.title == "" {
      meta := meta.(title := "Agent: code change");
    }
    if meta.body == "" {
      meta := meta.(body := "## Summary\n" + fallbackSummary + "\n\n## Diff\n```\n" + fallbackDiff + "\n```");
    }
  }

  // ------------------------------------------------------------------ lines

  /** The text `rest` under one more line. */
  function Line(line: string, rest: string): string {
    line + "\n" + rest
  }

  ghost predicate OneLine(marker: string) {
    marker != "" && '\n' !in marker
  }

  /** A marker without a line feed lies on one side of a line feed. */
  lemma OccursOnOneSide(a: string, b: string, marker: string, i: int)
    requires OneLine(marker)
    ensures OccursAt(Line(a, b), marker, i) <==> OccursAt(a, marker, i) || OccursAt(b, marker, i - |a| - 1)
  {
    var s := Line(a, b);
    if 0 <= i && i + |marker| <= |s| {
      if i + |marker| <= |a| {
        assert s[i..i + |marker|] == a[i..i + |marker|];
      } else if i > |a| {
        assert s[i..i + |marker|] == b[i - |a| - 1..i - |a| - 1 + |marker|];
      } else {
        assert s[i..i + |marker|][|a| - i] == '\n';
      }
    }
  }

  lemma OccursInRest(a: string, b: string, marker: string, i: int)
    requires OneLine(marker) && OccursAt(b, marker, i)
    ensures OccursAt(Line(a, b), marker, |a| + 1 + i)
  {
    var at := |a| + 1 + i;
    assert at - |a| - 1 == i;
    OccursOnOneSide(a, b, marker, at);
  }

  /** A marker in the first line comes first. */
  lemma FindInLine(a: string, b: string, marker: string)
    requires OneLine(marker) && Has(a, marker)
    ensures Find(Line(a, b), marker) == Find(a, marker)
  {
    hide OccursAt, Find, OneLine, Line;
    FindOccurs(a, marker);
    OccursOnOneSide(a, b, marker, Find(a, marker));
    FindAtMost(Line(a, b), marker, Find(a, marker));
    NotEarlier(a, b, marker);
  }

  /** Without one, the first marker below comes first. */
  lemma FindBelow(a: string, b: string, marker: string)
    requires OneLine(marker) && !Has(a, marker) && Has(b, marker)
    ensures Find(Line(a, b), marker) == |a| + 1 + Find(b, marker)
  {
    hide OccursAt, Find, OneLine, Line;
    FindOccurs(b, marker);
    OccursInRest(a, b, marker, Find(b, marker));
    FindAtMost(Line(a, b), marker, |a| + 1 + Find(b, marker));
    NotEarlier(a, b, marker);
  }

  lemma NotEarlier(a: string, b: string, marker: string)
    requires OneLine(marker) && Has(Line(a, b), marker)
    ensures Find(Line(a, b), marker) >= if Has(a, marker) then Find(a, marker) else |a| + 1 + Find(b, marker)
  {
    hide OccursAt, Find, OneLine, Line;
    var at := Find(Line(a, b), marker);
    FindOccurs(Line(a, b), marker);
    OccursOnOneSide(a, b, marker, at);
    if OccursAt(a, marker, at) {
      FindAtMost(a, marker, at);
    } else {
      FindAtMost(b, marker, at - |a| - 1);
      FindInside(a, marker);
    }
  }

  lemma FindInside(a: string, marker: string)
    ensures Find(a, marker) <= |a|
  {
  }

  /** A marker on the first line: what follows it runs on into the rest. */
  lemma CutInLine(a: string, b: string, marker: string)
    requires OneLine(marker) && Has(a, marker)
    ensures Has(Line(a, b), marker)
    ensures After(Line(a, b), marker) == Line(After(a, marker), b)
    ensures UpTo(Line(a, b), marker) == UpTo(a, marker)
  {
    FindInLine(a, b, marker);
    hide Find;
  }

  /** No marker on the first line: cutting happens below it. */
  lemma CutBelow(a: string, b: string, marker: string)
    requires OneLine(marker) && !Has(a, marker) && Has(b, marker)
    ensures Has(Line(a, b), marker)
    ensures After(Line(a, b), marker) == After(b, marker)
    ensures UpTo(Line(a, b), marker) == Line(a, UpTo(b, marker))
  {
    FindBelow(a, b, marker);
    hide Find;
  }

  lemma CutAtLine(marker: string, rest: string)
    ensures Has(Line(marker, rest), marker)
    ensures After(Line(marker, rest), marker) == Line("", rest)
    ensures UpTo(Line(marker, rest), marker) == ""
  {
    assert marker <= Line(marker, rest);
    assert Find(Line(marker, rest), marker) == 0;
  }

  lemma CutSection(rest: string, marker: string)
    requires OneLine(marker)
    ensures Has(Line("", Line(marker, rest)), marker)
    ensures After(Line("", Line(marker, rest)), marker) == Line("", rest)
    ensures UpTo(Line("", Line(marker, rest)), marker) == Line("", "")
  {
    CutAtLine(marker, rest);
    EmptyHasNone(marker);
    CutBelow("", Line(marker, rest), marker);
  }

  lemma EmptyHasNone(marker: string)
    requires OneLine(marker)
    ensures !Has("", marker)
  {
  }

  lemma Markers()
    ensures OneLine(Commit()) && OneLine(Title()) && OneLine(Body())
    ensures !Has(Commit(), Title()) && !Has(Commit(), Body()) && !Has(Title(), Body())
  {
    hide Find;
    Absent(Commit(), Title(), 0);
    Absent(Commit(), Body(), 0);
    Absent(Title(), Body(), 3);
  }

  // ------------------------------------------------------------- round trip

  function BodyPart(m: PRMetadata): string {
    Line("", Line(Body(), m.body))
  }

  function TitlePart(m: PRMetadata): string {
    Line("", Line(Title(), Line(m.title, BodyPart(m))))
  }

  /** The layout the prompt asks for, line by line. */
  function Printed(m: PRMetadata): string {
    Line(Commit(), Line(m.commitMessage, TitlePart(m)))
  }

  /** The fields the parser does not cut: free of the markers it stops at. */
  ghost predicate Readable(m: PRMetadata) {
    !Has(m.commitMessage, Title()) && !Has(m.commitMessage, Body()) && !Has(m.title, Body())
  }

  ghost predicate Presentable(m: PRMetadata) {
    && m.commitMessage != "" && Trimmed(m.commitMessage)
    && m.title != "" && Trimmed(m.title)
    && m.body != "" && Trimmed(m.body)
  }

  lemma LineFeedsAreSpace()
    ensures AllSpace("") && AllSpace("\n") && AllSpace("\n\n")
  {
  }

  lemma StripsSection(field: string)
    requires field != "" && Trimmed(field)
    ensures Strip(Line("", Line(field, Line("", "")))) == field
    ensures Strip(Line("", field)) == field
  {
    LineFeedsAreSpace();
    hide IsSpace, AllSpace, Strip;
    StripSkips("\n", field, "\n\n");
    StripSkips("\n", field, "");
    assert Line("", Line(field, Line("", ""))) == "\n" + field + "\n\n";
    assert Line("", field) == "\n" + field + "";
  }

  lemma CommitComesBack(m: PRMetadata)
    requires Presentable(m) && !Has(m.commitMessage, Title())
    ensures Field(Printed(m), Commit(), Title()) == m.commitMessage
  {
    Markers();
    EmptyHasNone(Title());
    hide Find, Strip, Commit, Title, Body, OneLine, Line, Has, After, UpTo;
    var below := Line(m.commitMessage, TitlePart(m));
    CutAtLine(Commit(), below);
    CutSection(Line(m.title, BodyPart(m)), Title());
    CutBelow(m.commitMessage, TitlePart(m), Title());
    CutBelow("", below, Title());
    StripsSection(m.commitMessage);
  }

  lemma TitleComesBack(m: PRMetadata)
    requires Presentable(m) && !Has(m.commitMessage, Title()) && !Has(m.title, Body())
    ensures Field(Printed(m), Title(), Body()) == m.title
  {
    Markers();
    EmptyHasNone(Body());
    hide Find, Strip, Commit, Title, Body, OneLine, Line, Has, After, UpTo;
    var below := Line(m.title, BodyPart(m));
    CutSection(below, Title());
    CutBelow(m.commitMessage, TitlePart(m), Title());
    CutBelow(Commit(), Line(m.commitMessage, TitlePart(m)), Title());
    CutSection(m.body, Body());
    CutBelow(m.title, BodyPart(m), Body());
    CutBelow("", below, Body());
    StripsSection(m.title);
  }

  /** Where the body starts, if neither earlier field holds its marker. */
  lemma BodyComesBack(m: PRMetadata)
    requires Presentable(m) && !Has(m.commitMessage, Body()) && !Has(m.title, Body())
    ensures Has(Printed(m), Body()) && Strip(After(Printed(m), Body())) == m.body
  {
    Markers();
    EmptyHasNone(Body());
    hide Find, Strip, Commit, Title, Body, OneLine, Line, Has, After, UpTo;
    CutSection(m.body, Body());
    CutBelow(m.title, BodyPart(m), Body());
    BelowTitle(m);
    CutBelow(m.commitMessage, TitlePart(m), Body());
    CutBelow(Commit(), Line(m.commitMessage, TitlePart(m)), Body());
    StripsSection(m.body);
  }

  lemma BelowTitle(m: PRMetadata)
    requires Has(Line(m.title, BodyPart(m)), Body())
    ensures Has(TitlePart(m), Body())
    ensures After(TitlePart(m), Body()) == After(Line(m.title, BodyPart(m)), Body())
  {
    Markers();
    EmptyHasNone(Body());
    hide Find, Commit, Title, Body, OneLine, Line, Has, After, UpTo;
    var below := Line(m.title, BodyPart(m));
    CutBelow(Title(), below, Body());
    CutBelow("", Line(Title(), below), Body());
  }

  // ---------------------------------------------------- and nothing else does

  /** With a title marker inside it, the commit message is cut short. */
  lemma CommitIsCutShort(m: PRMetadata)
    requires Presentable(m) && Has(m.commitMessage, Title())
    ensures |Field(Printed(m), Commit(), Title())| <= |m.commitMessage| - |Title()| + 1
  {
    Markers();
    EmptyHasNone(Title());
    var length := |UpTo(m.commitMessage, Title())|;
    assert length <= |m.commitMessage| - |Title()|;
    hide Find, Strip, Commit, Title, Body, OneLine, Line, Has, After, UpTo;
    var below := Line(m.commitMessage, TitlePart(m));
    CutAtLine(Commit(), below);
    CutInLine(m.commitMessage, TitlePart(m), Title());
    CutBelow("", below, Title());
    LineLength(UpTo(m.commitMessage, Title()));
    StripShrinks(Line("", UpTo(m.commitMessage, Title())));
  }

  lemma LineLength(rest: string)
    ensures |Line("", rest)| == |rest| + 1
  {
  }

  lemma StripShrinks(s: string)
    ensures |Strip(s)| <= |s|
  {
  }

  /** Lines above a visible end never make the stripped text shorter. */
  lemma LongerUnderLine(line: string, s: string, n: nat)
    requires EndsVisibly(s) && |Strip(s)| > n
    ensures EndsVisibly(Line(line, s)) && |Strip(Line(line, s))| > n
  {
    hide IsSpace, Strip;
    StripKeepsEnd(line + "\n", s);
  }

  lemma BodyPartIsLong(m: PRMetadata)
    requires Presentable(m)
    ensures EndsVisibly(BodyPart(m)) && |Strip(BodyPart(m))| > |m.body|
  {
    hide IsSpace, AllSpace, Strip, Body;
    var s := Line(Body(), m.body);
    BodyIsVisible();
    LineFeedsAreSpace();
    assert EndsVisibly(s) && Trimmed(s);
    StripSkips("", s, "");
    assert "" + s + "" == s;
    LongerUnderLine("", s, |m.body|);
  }

  lemma BodyIsVisible()
    ensures |Body()| > 0 && !IsSpace(Body()[0])
  {
  }

  /** With a body marker before the body, the body comes back too long. */
  lemma BodyIsTooLong(m: PRMetadata)
    requires Presentable(m) && (Has(m.commitMessage, Body()) || Has(m.title, Body()))
    ensures Has(Printed(m), Body()) && |Strip(After(Printed(m), Body()))| > |m.body|
  {
    Markers();
    BodyPartIsLong(m);
    hide Find, Strip, Commit, Title, Body, OneLine, Line, Has, After, UpTo, BodyPart;
    if Has(m.commitMessage, Body()) {
      CutInLine(m.commitMessage, TitlePart(m), Body());
      LongerUnderLine(m.title, BodyPart(m), |m.body|);
      LongerUnderLine(Title(), Line(m.title, BodyPart(m)), |m.body|);
      LongerUnderLine("", Line(Title(), Line(m.title, BodyPart(m))), |m.body|);
      LongerUnderLine(After(m.commitMessage, Body()), TitlePart(m), |m.body|);
    } else {
      CutInLine(m.title, BodyPart(m), Body());
      LongerUnderLine(After(m.title, Body()), BodyPart(m), |m.body|);
      BelowTitle(m);
      CutBelow(m.commitMessage, TitlePart(m), Body());
    }
    CutBelow(Commit(), Line(m.commitMessage, TitlePart(m)), Body());
  }

  /** Printing and parsing gives the three fields back exactly when the commit
      message holds neither later marker and the title holds no body marker. */
  lemma RoundTripsExactly(m: PRMetadata, summary: string, diff: string)
    requires Presentable(m)
    ensures Parsed(Printed(m), summary, diff) == m <==> Readable(m)
  {
    hide Field, Find, Printed, Strip, After;
    if Readable(m) {
      CommitComesBack(m);
      TitleComesBack(m);
      BodyComesBack(m);
    } else if Has(m.commitMessage, Title()) {
      CommitIsCutShort(m);
      FallbackHasNoTitle();
    } else {
      BodyIsTooLong(m);
    }
  }

  lemma FallbackHasNoTitle()
    ensures !Has("Apply code changes", Title()) && |Title()| > 1
  {
    Absent("Apply code changes", Title(), 0);
  }

  // ------------------------------------------------- replies that fall short

  /** Where a marker is missing the field falls back on a fixed text, the body on one
      made of the summary and the diff. */
  lemma MissingMarkers(text: string, summary: string, diff: string)
    ensures var meta := Parsed(text, summary, diff);
            && (Find(text, "COMMIT_MESSAGE:") == -1 ==> meta.commitMessage == "Apply code changes")
            && (Find(text, "PR_TITLE:") == -1 ==> meta.title == "Agent: code change")
            && (Find(text, "PR_BODY:") == -1 ==>
                  meta.body == "## Summary\n" + summary + "\n\n## Diff\n```\n" + diff + "\n```")
  {
    hide Find, Strip, Split;
  }

  /** Stripping on the right ends inside what follows a visible end. */
  lemma {:induction false} StripRightKeeps(s: string, tail: string) returns (kept: string)
    requires EndsVisibly(s)
    ensures StripRight(s + tail) == s + kept && |kept| <= |tail| && kept == tail[..|kept|]
  {
    hide IsSpace;
    if tail == "" {
      assert s + tail == s;
      kept := "";
    } else {
      var all := s + tail;
      if IsSpace(all[|all| - 1]) {
        assert all[..|all| - 1] == s + tail[..|tail| - 1];
        kept := StripRightKeeps(s, tail[..|tail| - 1]);
      } else {
        kept := tail;
      }
    }
  }

  /** The first line of a text that continues with a line feed, if at all. */
  lemma {:induction false} FirstLineIs(line: string, rest: string)
    requires '\n' !in line && (rest != "" ==> rest[0] == '\n')
    ensures FirstLine(line + rest) == line
  {
    if line == "" {
      assert line + rest == rest;
    } else {
      assert (line + rest)[1..] == line[1..] + rest;
      FirstLineIs(line[1..], rest);
    }
  }

  /** Without the next marker a field is the first line of what follows its own. */
  lemma OneLineField(text: string, marker: string, next: string, space: string, line: string, more: string)
    requires Has(text, marker) && After(text, marker) == space + line + more && !Has(space + line + more, next)
    requires AllSpace(space) && line != "" && Trimmed(line) && '\n' !in line && (more != "" ==> more[0] == '\n')
    ensures Field(text, marker, next) == line
  {
    hide Has, Split;
    assert space + line + more == space + (line + more);
    StripLeftSkips(space, line + more);
    var kept := StripRightKeeps(line, more);
    FirstLineIs(line, kept);
    StripSkips("", line, "");
    assert "" + line + "" == line;
    hide IsSpace, AllSpace, StripLeft, StripRight, FirstLine, After;
  }

  /** Such as here: a reply without the body's marker, or with the commit message alone. */
  lemma ShortReplies(line: string, more: string, summary: string, diff: string)
    requires line != "" && Trimmed(line) && '\n' !in line
    requires !Has(Line("", Line(line, more)), Title()) && !Has(Line("", Line(line, more)), Body())
    ensures Parsed(Line("PR_TITLE:", Line(line, more)), summary, diff).title == line
    ensures Parsed(Line("COMMIT_MESSAGE:", Line(line, more)), summary, diff).commitMessage == line
  {
    var rest := Line(line, more);
    CutAtLine(Title(), rest);
    CutAtLine(Commit(), rest);
    LineFeedsAreSpace();
    assert Line("", rest) == "\n" + line + ("\n" + more);
    hide Find, Strip, AllSpace, Has, After;
    OneLineField(Line(Title(), rest), Title(), Body(), "\n", line, "\n" + more);
    OneLineField(Line(Commit(), rest), Commit(), Title(), "\n", line, "\n" + more);
  }
}
