/** The sandbox agent's edit_file tool (infra/sandbox/agent.py): replace the one
    place where a text occurs in a file. */
module EditTool {
  import opened Text

  /** Python's texts are sequences of code points, lone surrogates among them. */
  type Code = n: nat | n < 0x11_0000

  type Chars = seq<Code>

  predicate IsSurrogate(c: Code) {
    0xD800 <= c < 0xE000
  }

  /** UTF-8 has no form for surrogates. */
  predicate Encodable(s: Chars) {
    forall i | 0 <= i < |s| :: !IsSurrogate(s[i])
  }

  type FileText = s: Chars | Encodable(s) witness []

  datatype FileState = Missing | Undecodable | Holds(text: FileText)

  /** What the system does with the write: lets it through, refuses to open the file,
      or fails after `open` has already emptied it. */
  datatype WriteFate = Written | Refused | LostAfterOpen

  const LF: Code := 10
  const CR: Code := 13

  datatype Answer = NotFound | Identical | Unreadable | NoMatch | Ambiguous(count: nat) | Edited | Raised

  /** Python's text mode reads every line ending as a line feed. */
  function TranslateNewlines(raw: Chars): Chars {
    if raw == [] then []
    else if raw[0] == CR then
      [LF] + if |raw| > 1 && raw[1] == LF then TranslateNewlines(raw[2..]) else TranslateNewlines(raw[1..])
    else [raw[0]] + TranslateNewlines(raw[1..])
  }

  /** `str.count`: occurrences found one after the other, never overlapping. */
  function Count(s: Chars, pat: Chars): nat
    decreases |s|
  {
    if pat == [] then |s| + 1
    else
      var at := Find(s, pat);
      if at == -1 then 0 else 1 + Count(s[at + |pat|..], pat)
  }

  /** `str.replace(old, new, 1)`. */
  function ReplaceFirst(s: Chars, target: Chars, replacement: Chars): Chars {
    var at := Find(s, target);
    if at == -1 then s else s[..at] + replacement + s[at + |target|..]
  }

  /** Opening the file for writing empties it; only then is the new text encoded. */
  function Overwrite(file: FileState, text: Chars, fate: WriteFate): (FileState, Answer) {
    if fate == Refused then (file, Raised)
    else if fate == LostAfterOpen || !Encodable(text) then (Holds([]), Raised)
    else (Holds(text), Edited)
  }

  function Edit(file: FileState, target: Chars, replacement: Chars, fate: WriteFate): (FileState, Answer) {
    if file.Missing? then (file, NotFound)
    else if target == replacement then (file, Identical)
    else if file.Undecodable? then (file, Unreadable)
    else
      var content := TranslateNewlines(file.text);
      var count := Count(content, target);
      if count == 0 then (file, NoMatch)
      else if count > 1 then (file, Ambiguous(count))
      else Overwrite(file, ReplaceFirst(content, target, replacement), fate)
  }

  class WorkFile {
    var state: FileState

    method EditFile(oldString: Chars, newString: Chars, fate: WriteFate) returns (answer: Answer)
      modifies this
      ensures (state, answer) == Edit(old(state), oldString, newString, fate)
    {
      if state.Missing? {
        return NotFound;
      }
      if oldString == newString {
        return Identical;
      }
      if state.Undecodable? {
        return Unreadable;
      }
      var content := TranslateNewlines(state.text);
      var count := Count(content, oldString);
      if count == 0 {
        return NoMatch;
      }
      if count > 1 {
        return Ambiguous(count);
      }
      var newContent := ReplaceFirst(content, oldString, newString);
      if fate == Refused {
        return Raised;
      }
      state := Holds([]);
      if fate == LostAfterOpen || !Encodable(newContent) {
        return Raised;
      }
      state := Holds(newContent);
      return Edited;
    }
  }

  // ------------------------------------------------------- what an edit does

  /** `after` is `before` with one occurrence of `target` replaced. */
  ghost predicate Replaces(before: Chars, after: Chars, target: Chars, replacement: Chars) {
    exists p, s :: ReplacesAt(before, after, p, s, target, replacement)
  }

  ghost predicate ReplacesAt(before: Chars, after: Chars, p: Chars, s: Chars, target: Chars, replacement: Chars) {
    before == p + target + s && after == p + replacement + s
  }

  lemma {:induction false} CountPositive(s: Chars, pat: Chars)
    ensures Count(s, pat) > 0 <==> Find(s, pat) != -1
  {
    if pat == [] {
      assert OccursAt(s, pat, 0);
    }
  }

  lemma {:induction false} ReadsEncodable(raw: Chars)
    requires Encodable(raw)
    ensures Encodable(TranslateNewlines(raw))
  {
    if raw != [] {
      var rest := if raw[0] == CR && |raw| > 1 && raw[1] == LF then raw[2..] else raw[1..];
      ReadsEncodable(rest);
      assert TranslateNewlines(raw)[1..] == TranslateNewlines(rest);
    }
  }

  /** What is written can be encoded if and only if the replacement can. */
  lemma ReplacedEncodable(content: Chars, target: Chars, replacement: Chars)
    requires Encodable(content) && Find(content, target) != -1
    ensures Encodable(ReplaceFirst(content, target, replacement)) <==> Encodable(replacement)
  {
    var at, after := Find(content, target), ReplaceFirst(content, target, replacement);
    assert after[at..at + |replacement|] == replacement;
  }

  /** The checks before the write let the edit through. */
  predicate Passes(file: FileState, target: Chars, replacement: Chars) {
    file.Holds? && target != replacement && Count(TranslateNewlines(file.text), target) == 1
  }

  /** A successful edit replaces the leftmost occurrence in the text as read. It
      succeeds exactly if the checks pass, the system lets the write through and the
      replacement can be encoded. Any other answer leaves the file as it was, except
      exactly that of a write that was lost, or could not be encoded, once the file
      was open: the file, unless it had been empty, is then emptied. */
  lemma EditReplacesLeftmost(file: FileState, target: Chars, replacement: Chars, fate: WriteFate)
    ensures var (after, answer) := Edit(file, target, replacement, fate);
            && (answer == Edited ==>
                  && file.Holds? && after.Holds?
                  && var content := TranslateNewlines(file.text);
                  && var at := Find(content, target);
                  && at >= 0
                  && ReplacesAt(content, after.text, content[..at], content[at + |target|..], target, replacement))
            && (answer == Edited <==> Passes(file, target, replacement) && fate == Written && Encodable(replacement))
            && (answer == Raised <==> Passes(file, target, replacement) && (fate != Written || !Encodable(replacement)))
            && (answer != Edited ==>
                  && after in {file, Holds([])}
                  && (after == file <==> answer != Raised || fate == Refused || file == Holds([])))
  {
    WhenEdited(file, target, replacement, fate);
    hide TranslateNewlines, Count, Find, Encodable, ReplaceFirst;
    if Passes(file, target, replacement) {
      WrittenEncodable(file, target, replacement);
    }
  }

  lemma ReplacedThere(content: Chars, target: Chars, replacement: Chars)
    requires Find(content, target) != -1
    ensures var at := Find(content, target);
            ReplacesAt(content, ReplaceFirst(content, target, replacement), content[..at], content[at + |target|..], target, replacement)
  {
    FindSplits(content, target);
    hide Find;
  }

  lemma EditedIs(file: FileState, target: Chars, replacement: Chars, fate: WriteFate)
    requires Edit(file, target, replacement, fate).1 == Edited
    ensures file.Holds? && Count(TranslateNewlines(file.text), target) == 1
    ensures var after := Edit(file, target, replacement, fate).0;
            after.Holds? && after.text == ReplaceFirst(TranslateNewlines(file.text), target, replacement)
  {
    hide TranslateNewlines, Count, Encodable, ReplaceFirst;
  }

  lemma WhenEdited(file: FileState, target: Chars, replacement: Chars, fate: WriteFate)
    ensures var (after, answer) := Edit(file, target, replacement, fate);
            answer == Edited ==>
              && file.Holds? && after.Holds?
              && var content := TranslateNewlines(file.text);
              && var at := Find(content, target);
              && at >= 0
              && ReplacesAt(content, after.text, content[..at], content[at + |target|..], target, replacement)
  {
    hide *;
    if Edit(file, target, replacement, fate).1 == Edited {
      EditedIs(file, target, replacement, fate);
      var content := TranslateNewlines(file.text);
      CountPositive(content, target);
      ReplacedThere(content, target, replacement);
    }
  }

  lemma WrittenEncodable(file: FileState, target: Chars, replacement: Chars)
    requires Passes(file, target, replacement)
    ensures Encodable(ReplaceFirst(TranslateNewlines(file.text), target, replacement)) <==> Encodable(replacement)
  {
    var content := TranslateNewlines(file.text);
    CountPositive(content, target);
    ReadsEncodable(file.text);
    hide TranslateNewlines, Count, Find, Encodable;
    ReplacedEncodable(content, target, replacement);
  }

  /** Two occurrences that do not overlap. */
  ghost predicate Twice(s: Chars, pat: Chars) {
    exists i, j :: OccursAt(s, pat, i) && OccursAt(s, pat, j) && i + |pat| <= j
  }

  ghost predicate Nowhere(s: Chars, pat: Chars) {
    forall i :: !OccursAt(s, pat, i)
  }

  lemma CountsNone(s: Chars, pat: Chars)
    ensures Count(s, pat) == 0 <==> Nowhere(s, pat)
  {
    CountPositive(s, pat);
    FindsLeftmost(s, pat);
    hide Count, Find, OccursAt;
  }

  lemma CountsTwice(s: Chars, pat: Chars)
    requires pat != []
    ensures Count(s, pat) > 1 <==> Twice(s, pat)
  {
    if Count(s, pat) > 1 {
      TwoFound(s, pat);
    }
    if Twice(s, pat) {
      var i, j :| OccursAt(s, pat, i) && OccursAt(s, pat, j) && i + |pat| <= j;
      TwoCounted(s, pat, i, j);
    }
  }

  lemma TwoFound(s: Chars, pat: Chars)
    requires pat != [] && Count(s, pat) > 1
    ensures Twice(s, pat)
  {
    var at := Find(s, pat);
    var rest := s[at + |pat|..];
    assert Count(rest, pat) > 0;
    CountPositive(rest, pat);
    hide Count, Find, OccursAt;
    FindOccurs(s, pat);
    FindOccurs(rest, pat);
    OccursShifted(s, pat, at + |pat|, Find(rest, pat));
  }

  lemma TwoCounted(s: Chars, pat: Chars, i: int, j: int)
    requires pat != [] && OccursAt(s, pat, i) && OccursAt(s, pat, j) && i + |pat| <= j
    ensures Count(s, pat) > 1
  {
    FindAtMost(s, pat, i);
    var at := Find(s, pat);
    OccursLater(s, pat, at + |pat|, j);
    CountPositive(s[at + |pat|..], pat);
    hide Find, OccursAt;
  }

  lemma OccursShifted(s: Chars, pat: Chars, from: nat, i: int)
    requires from <= |s| && OccursAt(s[from..], pat, i)
    ensures OccursAt(s, pat, from + i)
  {
    assert s[from..][i..i + |pat|] == s[from + i..from + i + |pat|];
  }

  /** Which answer an edit gives before it comes to a write, the first of: there is no
      file, nothing would change, the file cannot be read, the text to replace is not in
      it, or it is there more than once without overlap, which is then counted. */
  lemma AnswersExactly(file: FileState, target: Chars, replacement: Chars, fate: WriteFate)
    ensures var answer := Edit(file, target, replacement, fate).1;
            && (answer == NotFound <==> file.Missing?)
            && (answer == Identical <==> !file.Missing? && target == replacement)
            && (answer == Unreadable <==> file.Undecodable? && target != replacement)
            && (answer == NoMatch <==>
                  file.Holds? && target != replacement && Nowhere(TranslateNewlines(file.text), target))
            && (answer.Ambiguous? ==>
                  file.Holds? && target != replacement && answer.count == Count(TranslateNewlines(file.text), target))
            && (target != [] ==>
                  (answer.Ambiguous? <==> file.Holds? && target != replacement && Twice(TranslateNewlines(file.text), target)))
            && (target == [] ==>
                  (answer.Ambiguous? <==> file.Holds? && target != replacement && TranslateNewlines(file.text) != []))
  {
    hide TranslateNewlines, Find, OccursAt, ReplaceFirst, Encodable, Twice, Nowhere;
    if file.Holds? {
      var content := TranslateNewlines(file.text);
      CountsNone(content, target);
      if target != [] {
        CountsTwice(content, target);
      }
    }
  }

  // --------------------------------------------------------- carriage returns

  function Returns(s: Chars): nat {
    if s == [] then 0 else (if s[0] == CR then 1 else 0) + Returns(s[1..])
  }

  lemma {:induction false} ReturnsAdd(a: Chars, b: Chars)
    ensures Returns(a + b) == Returns(a) + Returns(b)
  {
    if a == [] {
      assert a + b == b;
    } else {
      assert (a + b)[1..] == a[1..] + b;
      ReturnsAdd(a[1..], b);
    }
  }

  lemma {:induction false} NoReturns(s: Chars)
    ensures Returns(s) == 0 <==> CR !in s
  {
    if s != [] {
      NoReturns(s[1..]);
      assert s == [s[0]] + s[1..];
    }
  }

  lemma {:induction false} TranslatedHasNone(raw: Chars)
    ensures Returns(TranslateNewlines(raw)) == 0
    ensures CR !in raw ==> TranslateNewlines(raw) == raw
  {
    if raw != [] {
      var rest := if raw[0] == CR && |raw| > 1 && raw[1] == LF then raw[2..] else raw[1..];
      TranslatedHasNone(rest);
      var text := TranslateNewlines(raw);
      assert text[1..] == TranslateNewlines(rest);
    }
  }

  /** What reading makes of line endings: a carriage return with a line feed, or alone,
      becomes one line feed, and nothing else changes. */
  lemma {:induction false} NewlinesMean(a: Chars, b: Chars)
    requires CR !in a
    ensures TranslateNewlines(a) == a
    ensures TranslateNewlines(a + [CR, LF] + b) == a + [LF] + TranslateNewlines(b)
    ensures (b == [] || b[0] != LF) ==> TranslateNewlines(a + [CR] + b) == a + [LF] + TranslateNewlines(b)
  {
    if a == [] {
      assert [] + [CR, LF] + b == [CR, LF] + b && ([CR, LF] + b)[2..] == b;
      assert [] + [CR] + b == [CR] + b && ([CR] + b)[1..] == b;
    } else {
      assert (a + [CR, LF] + b)[1..] == a[1..] + [CR, LF] + b;
      assert (a + [CR] + b)[1..] == a[1..] + [CR] + b;
      NewlinesMean(a[1..], b);
    }
  }

  lemma ThreeReturns(a: Chars, b: Chars, c: Chars)
    ensures Returns(a + b + c) == Returns(a) + Returns(b) + Returns(c)
  {
    ReturnsAdd(a + b, c);
    ReturnsAdd(a, b);
  }

  /** The file outside the replaced text is kept exactly when it held no carriage
      return: reading turns every CRLF and CR into LF and writing keeps it so. */
  lemma EditIsLocalExactly(file: FileState, target: Chars, replacement: Chars, fate: WriteFate)
    requires Edit(file, target, replacement, fate).1 == Edited
    ensures file.Holds? && Edit(file, target, replacement, fate).0.Holds?
    ensures Replaces(file.text, Edit(file, target, replacement, fate).0.text, target, replacement) <==> CR !in file.text
  {
    EditReplacesLeftmost(file, target, replacement, fate);
    var raw, after := file.text, Edit(file, target, replacement, fate).0.text;
    var content := TranslateNewlines(raw);
    var at := Find(content, target);
    var p, s := content[..at], content[at + |target|..];
    TranslatedHasNone(raw);
    hide TranslateNewlines, Count, Find, Edit, Returns;
    if CR !in raw {
      assert ReplacesAt(raw, after, p, s, target, replacement);
    }
    if Replaces(raw, after, target, replacement) {
      var q, t :| ReplacesAt(raw, after, q, t, target, replacement);
      ThreeReturns(p, target, s);
      ThreeReturns(p, replacement, s);
      ThreeReturns(q, target, t);
      ThreeReturns(q, replacement, t);
      NoReturns(raw);
    }
  }

  /** The code points of a text without surrogates. */
  function Codes(s: string): (codes: FileText)
    ensures |codes| == |s|
  {
    seq(|s|, i requires 0 <= i < |s| => s[i] as int)
  }

  /** A one-letter edit of a file with CRLF line endings changes its line ending. */
  lemma CarriageReturnIsLost()
    ensures Edit(Holds(Codes("a\r\nb")), Codes("b"), Codes("c"), Written) == (Holds(Codes("a\nc")), Edited)
  {
    ReadsLineFeed(Codes("b"));
    EditsLetter(Codes("c"));
    hide TranslateNewlines, Count, Find, ReplaceFirst;
    assert Codes("a\r\nb") == Codes("a\r\n") + Codes("b");
    assert Codes("a\n") + Codes("c") == Codes("a\nc");
    assert Codes("b")[0] != Codes("c")[0];
  }

  /** A replacement that is a lone surrogate empties the file, although the system lets
      the write through. */
  lemma SurrogateEmptiesTheFile()
    ensures Edit(Holds(Codes("a\r\nb")), Codes("b"), [0xD800], Written) == (Holds([]), Raised)
  {
    ReadsLineFeed(Codes("b"));
    EditsLetter([0xD800]);
    hide TranslateNewlines, Count, Find, ReplaceFirst;
    assert Codes("a\r\nb") == Codes("a\r\n") + Codes("b");
    var lost: Chars := [0xD800];
    assert IsSurrogate((Codes("a\n") + lost)[2]);
    assert Codes("b")[0] != lost[0];
  }

  lemma EditsLetter(replacement: Chars)
    ensures Count(Codes("a\nb"), Codes("b")) == 1
    ensures ReplaceFirst(Codes("a\nb"), Codes("b"), replacement) == Codes("a\n") + replacement
  {
    var content := Codes("a\nb");
    assert content[..2] == Codes("a\n") && content[2..] == Codes("b") && content[3..] == [];
    FindLetter();
    assert Count([], Codes("b")) == 0;
  }

  lemma ReadsLineFeed(last: Chars)
    requires last == Codes("b")
    ensures TranslateNewlines(Codes("a\r\n") + last) == Codes("a\nb")
  {
    var text := Codes("a\r\n") + last;
    var tail := text[1..];
    assert tail[0] == CR && tail[1] == LF && tail[2..] == last && last[1..] == [];
    assert TranslateNewlines(last) == last;
    assert TranslateNewlines(tail) == [LF] + last;
  }

  lemma FindLetter()
    ensures Find(Codes("a\nb"), Codes("b")) == 2
  {
    var content, letter := Codes("a\nb"), Codes("b");
    assert content[2..3] == letter;
    assert OccursAt(content, letter, 2);
    assert content[0..1][0] != letter[0] && content[1..2][0] != letter[0];
    FoundAt(content, letter, 2);
  }

  // -------------------------------------------------------------- uniqueness

  /** No proper prefix of the text is also a suffix of it. */
  ghost predicate BorderFree(pat: Chars) {
    forall b | 0 < b < |pat| :: pat[..b] != pat[|pat| - b..]
  }

  ghost predicate OccursOnce(s: Chars, pat: Chars) {
    forall i, j | OccursAt(s, pat, i) && OccursAt(s, pat, j) :: i == j
  }

  lemma CountOneIsOnce(s: Chars, pat: Chars)
    requires pat != [] && BorderFree(pat) && Count(s, pat) == 1
    ensures OccursOnce(s, pat)
  {
    hide Count, BorderFree, Find, OccursAt;
    CountOneLeavesNone(s, pat);
    FindsLeftmost(s, pat);
    var at := Find(s, pat);
    forall j | OccursAt(s, pat, j) ensures j == at {
      if j >= at + |pat| {
        OccursLater(s, pat, at + |pat|, j);
      } else if j > at {
        OverlapIsBorder(s, pat, at, j);
      }
    }
  }

  lemma CountOneLeavesNone(s: Chars, pat: Chars)
    requires pat != [] && Count(s, pat) == 1
    ensures Find(s, pat) != -1 && Find(s[Find(s, pat) + |pat|..], pat) == -1
  {
    hide Find;
  }

  lemma OccursLater(s: Chars, pat: Chars, from: nat, j: int)
    requires from <= |s| && OccursAt(s, pat, j) && j >= from
    ensures Find(s[from..], pat) != -1
  {
    assert s[from..][j - from..j - from + |pat|] == s[j..j + |pat|];
    assert OccursAt(s[from..], pat, j - from);
    FindsLeftmost(s[from..], pat);
  }

  /** Two occurrences that overlap share a border. */
  lemma OverlapIsBorder(s: Chars, pat: Chars, i: int, j: int)
    requires OccursAt(s, pat, i) && OccursAt(s, pat, j) && i < j < i + |pat|
    ensures !BorderFree(pat)
  {
    var b := i + |pat| - j;
    assert pat[..b] == s[j..j + |pat|][..b] == s[j..j + b];
    assert pat[|pat| - b..] == s[i..i + |pat|][|pat| - b..] == s[j..j + b];
  }

  /** Two copies of a bordered text laid over its border. */
  lemma BorderedCountsOne(pat: Chars, b: nat) returns (s: Chars)
    requires 0 < b < |pat| && pat[..b] == pat[|pat| - b..]
    ensures Count(s, pat) == 1 && !OccursOnce(s, pat)
  {
    s := pat + pat[b..];
    assert s[0..|pat|] == pat;
    assert OccursAt(s, pat, 0);
    var shift := |pat| - b;
    assert s[shift..shift + |pat|] == pat[shift..] + pat[b..];
    assert pat[..b] + pat[b..] == pat;
    assert OccursAt(s, pat, shift);
    assert s[|pat|..] == pat[b..];
    assert Find(s, pat) == 0;
    assert Count(pat[b..], pat) == 0;
  }

  /** The count of one that lets an edit through means a single occurrence in
      every file, exactly when the searched text has no proper border. */
  lemma CountDecidesUniqueness(pat: Chars)
    requires pat != []
    ensures BorderFree(pat) <==> forall s :: Count(s, pat) == 1 ==> OccursOnce(s, pat)
  {
    if BorderFree(pat) {
      forall s | Count(s, pat) == 1 ensures OccursOnce(s, pat) {
        CountOneIsOnce(s, pat);
      }
    } else {
      var b :| 0 < b < |pat| && pat[..b] == pat[|pat| - b..];
      var s := BorderedCountsOne(pat, b);
    }
  }
}
