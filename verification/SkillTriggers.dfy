/** The skill-trigger scanner of bridge/bridge/api_models.py: one pass over the
    text of a regular expression that must find a repeated group. */
module SkillTriggers {

  // ------------------------------------------------------------- the scanner

  predicate IsRepetition(c: char) {
    c in {'*', '+', '{'}
  }

  /** What remains to be found in `text`, given what was just read. */
  function Scan(text: string, escaped: bool, inClass: bool): bool {
    if text == "" then false
    else if escaped then Scan(text[1..], false, inClass)
    else if text[0] == '\\' then Scan(text[1..], true, inClass)
    else if text[0] == '[' then Scan(text[1..], false, true)
    else if text[0] == ']' && inClass then Scan(text[1..], false, false)
    else if text[0] == ')' && !inClass && |text| > 1 && IsRepetition(text[1]) then true
    else Scan(text[1..], false, inClass)
  }

  method HasRepeatedSkillGroup(pattern: string) returns (found: bool)
    ensures found == Scan(pattern, false, false)
  {
    var escaped, inCharacterClass := false, false;
    assert pattern[0..] == pattern;
    for index := 0 to |pattern|
      invariant Scan(pattern, false, false) == Scan(pattern[index..], escaped, inCharacterClass)
    {
      var c := pattern[index];
      assert pattern[index..][1..] == pattern[index + 1..];
      if escaped {
        escaped := false;
        continue;
      }
      if c == '\\' {
        escaped := true;
        continue;
      }
      if c == '[' {
        inCharacterClass := true;
        continue;
      }
      if c == ']' && inCharacterClass {
        inCharacterClass := false;
        continue;
      }
      if c != ')' || inCharacterClass || index + 1 >= |pattern| {
        continue;
      }
      if IsRepetition(pattern[index + 1]) {
        return true;
      }
    }
    return false;
  }

  // ----------------------------------------------------- regular expressions

  /** One step of reading a text: a bare character or an escaped one. */
  datatype Piece = Bare(c: char) | Escaped(c: char)

  /** What verbose mode ignores. The text of a comment runs to the end of its line,
      the line feed (which a backslash may stand before) included. */
  datatype Ignored = Space(c: char) | Comment(text: seq<Piece>)

  type Gap = seq<Ignored>

  /** `(...)`, `(?P<name>...)` or `(?<name>...)`, and `(?on-off:...)`. */
  datatype GroupKind = Capturing | Named(withP: bool, name: string) | Flagged(on: string, off: string)

  /** `Directive` is `(?on-off)`, which sets flags for the rest of the group. How the
      engine reads a class (ranges, nested classes, a leading bracket, white space)
      does not matter here: `inside` is whatever stands between its outer brackets. */
  datatype Atom =
    | Literal(c: char)
    | EscapedLiteral(c: char)
    | Class(inside: seq<Piece>)
    | Group(gap: Gap, kind: GroupKind, body: Regex)
    | Directive(gap: Gap, on: string, off: string)

  datatype Quantifier = Star | Plus | Optional | Counted(bounds: seq<Piece>)

  /** A quantifier and the ignored text in front of it. */
  datatype Quantified = Quantified(gap: Gap, quantifier: Quantifier)

  /** The engine's syntax tree. It lets quantifiers follow each other, each repeating
      what is in front of it. A question mark behind a quantifier makes that one lazy
      or is a further optional; it repeats nothing either way, and here it is always
      the latter. */
  datatype Regex =
    | Empty
    | Blank(gap: Gap)
    | Single(atom: Atom)
    | Repeat(atom: Atom, stack: seq<Quantified>)
    | Then(first: Regex, second: Regex)
    | Either(left: Regex, right: Regex)

  /** Characters that stand for themselves, anchors and the dot among them. */
  predicate IsPlain(c: char) {
    c !in {'\\', '[', '(', ')', '*', '+', '?', '{', '|'}
  }

  /** Ignored in verbose mode. */
  predicate IsBlank(c: char) {
    || '\t' <= c <= '\r' || c == ' ' || c == '\U{85}'
    || c == '\U{200E}' || c == '\U{200F}' || c == '\U{2028}' || c == '\U{2029}'
  }

  /** Every backslash escapes something. */
  predicate Whole(text: seq<Piece>) {
    forall i | 0 <= i < |text| :: text[i] != Bare('\\')
  }

  predicate WellFormedIgnored(g: Ignored) {
    match g
    case Space(c) => IsBlank(c)
    case Comment(text) =>
      && Whole(text) && text != [] && text[|text| - 1].c == '\n'
      && forall i | 0 <= i < |text| - 1 :: text[i].c != '\n'
  }

  predicate WellFormedGap(gap: Gap, verbose: bool) {
    (gap != [] ==> verbose) && forall i | 0 <= i < |gap| :: WellFormedIgnored(gap[i])
  }

  predicate IsFlagText(text: string) {
    forall i | 0 <= i < |text| :: text[i] !in {'\\', '[', ']', '(', ')', '*', '+', '{'}
  }

  /** Names may hold square brackets. */
  predicate IsName(text: string) {
    forall i | 0 <= i < |text| :: text[i] !in {'\\', '(', ')', '*', '+', '{'}
  }

  /** Verbose mode inside a group, or after a directive. */
  predicate VerboseWith(on: string, off: string, verbose: bool) {
    'x' in on || (verbose && 'x' !in off)
  }

  predicate VerboseInside(kind: GroupKind, verbose: bool) {
    match kind
    case Flagged(on, off) => VerboseWith(on, off, verbose)
    case _ => verbose
  }

  /** Verbose mode behind an expression. */
  predicate VerboseAfter(r: Regex, verbose: bool) {
    match r
    case Single(Directive(_, on, off)) => VerboseWith(on, off, verbose)
    case Then(first, second) => VerboseAfter(second, VerboseAfter(first, verbose))
    case Either(left, right) => VerboseAfter(right, VerboseAfter(left, verbose))
    case _ => verbose
  }

  predicate WellFormedKind(kind: GroupKind) {
    match kind
    case Capturing => true
    case Named(_, name) => IsName(name)
    case Flagged(on, off) => IsFlagText(on) && IsFlagText(off)
  }

  predicate WellFormedAtom(a: Atom, verbose: bool) {
    match a
    case Literal(c) => IsPlain(c) && !(verbose && (IsBlank(c) || c == '#'))
    case EscapedLiteral(_) => true
    case Class(inside) => Whole(inside)
    case Group(gap, kind, body) =>
      WellFormedGap(gap, verbose) && WellFormedKind(kind) && WellFormed(body, VerboseInside(kind, verbose))
    case Directive(gap, on, off) => WellFormedGap(gap, verbose) && IsFlagText(on) && IsFlagText(off)
  }

  predicate WellFormedStack(stack: seq<Quantified>, verbose: bool) {
    forall i | 0 <= i < |stack| ::
      WellFormedGap(stack[i].gap, verbose) && (stack[i].quantifier.Counted? ==> Whole(stack[i].quantifier.bounds))
  }

  /** A tree the engine makes, in or out of verbose mode. */
  predicate WellFormed(r: Regex, verbose: bool) {
    match r
    case Empty => true
    case Blank(gap) => WellFormedGap(gap, verbose)
    case Single(a) => WellFormedAtom(a, verbose)
    case Repeat(a, stack) => WellFormedAtom(a, verbose) && !a.Directive? && stack != [] && WellFormedStack(stack, verbose)
    case Then(first, second) => WellFormed(first, verbose) && WellFormed(second, VerboseAfter(first, verbose))
    case Either(left, right) => WellFormed(left, verbose) && WellFormed(right, VerboseAfter(left, verbose))
  }

  // --------------------------------------------------------------- the text

  /** Nothing in it is escaped. */
  function Plainly(text: string): seq<Piece> {
    seq(|text|, i requires 0 <= i < |text| => Bare(text[i]))
  }

  function IgnoredText(g: Ignored): seq<Piece> {
    match g
    case Space(c) => [Bare(c)]
    case Comment(text) => [Bare('#')] + text
  }

  function GapText(gap: Gap): seq<Piece> {
    if gap == [] then [] else IgnoredText(gap[0]) + GapText(gap[1..])
  }

  function FlagText(on: string, off: string): string {
    "?" + on + (if off == "" then "" else "-" + off)
  }

  function KindText(kind: GroupKind): string {
    match kind
    case Capturing => ""
    case Named(withP, name) => (if withP then "?P<" else "?<") + name + ">"
    case Flagged(on, off) => FlagText(on, off) + ":"
  }

  function HeadText(gap: Gap, kind: GroupKind): seq<Piece> {
    [Bare('(')] + GapText(gap) + Plainly(KindText(kind))
  }

  function DirectiveText(gap: Gap, on: string, off: string): seq<Piece> {
    [Bare('(')] + GapText(gap) + Plainly(FlagText(on, off) + ")")
  }

  function ClassText(inside: seq<Piece>): seq<Piece> {
    [Bare('[')] + inside + [Bare(']')]
  }

  function AtomText(a: Atom): seq<Piece> {
    match a
    case Literal(c) => [Bare(c)]
    case EscapedLiteral(c) => [Escaped(c)]
    case Class(inside) => ClassText(inside)
    case Group(gap, kind, body) => HeadText(gap, kind) + TextOf(body) + [Bare(')')]
    case Directive(gap, on, off) => DirectiveText(gap, on, off)
  }

  function QuantifierText(q: Quantifier): seq<Piece> {
    match q
    case Star => [Bare('*')]
    case Plus => [Bare('+')]
    case Optional => [Bare('?')]
    case Counted(bounds) => [Bare('{')] + bounds + [Bare('}')]
  }

  function StackText(stack: seq<Quantified>): seq<Piece> {
    if stack == [] then [] else GapText(stack[0].gap) + QuantifierText(stack[0].quantifier) + StackText(stack[1..])
  }

  function TextOf(r: Regex): seq<Piece> {
    match r
    case Empty => []
    case Blank(gap) => GapText(gap)
    case Single(a) => AtomText(a)
    case Repeat(a, stack) => AtomText(a) + StackText(stack)
    case Then(first, second) => TextOf(first) + TextOf(second)
    case Either(left, right) => TextOf(left) + [Bare('|')] + TextOf(right)
  }

  function PrintPiece(p: Piece): string {
    match p
    case Bare(c) => [c]
    case Escaped(c) => ['\\', c]
  }

  function Written(text: seq<Piece>): string {
    if text == [] then "" else PrintPiece(text[0]) + Written(text[1..])
  }

  function Print(r: Regex): string {
    Written(TextOf(r))
  }

  // --------------------------------------------------- what is there to find

  /** The engine repeats the group by some quantifier of the stack. */
  predicate RepeatsIt(a: Atom, stack: seq<Quantified>) {
    a.Group? && exists i | 0 <= i < |stack| :: stack[i].quantifier != Optional
  }

  /** Somewhere in the tree a group is repeated by `*`, `+` or `{`. */
  predicate RepeatsGroup(r: Regex) {
    match r
    case Single(a) => a.Group? && RepeatsGroup(a.body)
    case Repeat(a, stack) => RepeatsIt(a, stack) || (a.Group? && RepeatsGroup(a.body))
    case Then(first, second) => RepeatsGroup(first) || RepeatsGroup(second)
    case Either(left, right) => RepeatsGroup(left) || RepeatsGroup(right)
    case _ => false
  }

  /** The scanner takes itself to be inside a class behind this text. */
  predicate Blinded(text: seq<Piece>, blind: bool) {
    if text == [] then blind
    else
      var last := text[|text| - 1];
      last == Bare('[') || (last != Bare(']') && Blinded(text[..|text| - 1], blind))
  }

  /** The scanner sees the group of `a` close with a repetition sign right behind. */
  predicate InSight(a: Atom, stack: seq<Quantified>, blind: bool) {
    a.Group? && stack != [] && stack[0].gap == [] && stack[0].quantifier != Optional && !Blinded(AtomText(a), blind)
  }

  /** Some group is repeated in sight. */
  predicate Sees(r: Regex, blind: bool) {
    match r
    case Single(a) => SeesInside(a, blind)
    case Repeat(a, stack) => InSight(a, stack, blind) || SeesInside(a, blind)
    case Then(first, second) => Sees(first, blind) || Sees(second, Blinded(TextOf(first), blind))
    case Either(left, right) => Sees(left, blind) || Sees(right, Blinded(TextOf(left), blind))
    case _ => false
  }

  predicate SeesInside(a: Atom, blind: bool) {
    match a
    case Group(gap, kind, body) => Sees(body, Blinded(HeadText(gap, kind), blind))
    case _ => false
  }

  /** Some group is repeated out of sight: by a quantifier behind an optional one or
      behind ignored text, or where a bracket in a class, a comment, a name or bounds
      has blinded the scanner. */
  predicate Misses(r: Regex, blind: bool) {
    match r
    case Single(a) => MissesInside(a, blind)
    case Repeat(a, stack) => (RepeatsIt(a, stack) && !InSight(a, stack, blind)) || MissesInside(a, blind)
    case Then(first, second) => Misses(first, blind) || Misses(second, Blinded(TextOf(first), blind))
    case Either(left, right) => Misses(left, blind) || Misses(right, Blinded(TextOf(left), blind))
    case _ => false
  }

  predicate MissesInside(a: Atom, blind: bool) {
    match a
    case Group(gap, kind, body) => Misses(body, Blinded(HeadText(gap, kind), blind))
    case _ => false
  }

  predicate IsSign(p: Piece) {
    p.Bare? && IsRepetition(p.c)
  }

  /** A text with a closing parenthesis, right before a repetition sign and where the
      scanner is not blind. */
  predicate Misleading(text: seq<Piece>, blind: bool) {
    exists k | 0 <= k < |text| - 1 :: MisleadsAt(text, k, blind)
  }

  predicate MisleadsAt(text: seq<Piece>, k: int, blind: bool)
    requires 0 <= k < |text| - 1
  {
    text[k] == Bare(')') && IsSign(text[k + 1]) && !Blinded(text[..k], blind)
  }

  /** Somewhere such a parenthesis stands in a class, a comment or bounds, where it
      closes no group. */
  predicate Misleads(r: Regex, blind: bool) {
    match r
    case Empty => false
    case Blank(gap) => Misleading(GapText(gap), blind)
    case Single(a) => MisleadsInside(a, blind)
    case Repeat(a, stack) => MisleadsInside(a, blind) || Misleading(StackText(stack), Blinded(AtomText(a), blind))
    case Then(first, second) => Misleads(first, blind) || Misleads(second, Blinded(TextOf(first), blind))
    case Either(left, right) => Misleads(left, blind) || Misleads(right, Blinded(TextOf(left), blind))
  }

  predicate MisleadsInside(a: Atom, blind: bool) {
    match a
    case Class(inside) => Misleading(ClassText(inside), blind)
    case Group(gap, kind, body) =>
      Misleading(HeadText(gap, kind), blind) || Misleads(body, Blinded(HeadText(gap, kind), blind))
    case Directive(gap, on, off) => Misleading(DirectiveText(gap, on, off), blind)
    case _ => false
  }

  // ------------------------------------------------- the scanner on a text

  lemma {:induction false} BlindedAppends(a: seq<Piece>, b: seq<Piece>, blind: bool)
    ensures Blinded(a + b, blind) == Blinded(b, Blinded(a, blind))
  {
    if b == [] {
      assert a + b == a;
    } else {
      BlindedAppends(a, b[..|b| - 1], blind);
      assert (a + b)[..|a + b| - 1] == a + b[..|b| - 1];
    }
  }

  /** There is an opening bracket with no closing one behind it. */
  predicate LeftOpen(text: seq<Piece>) {
    exists j | 0 <= j < |text| :: OpensAt(text, j)
  }

  predicate OpensAt(text: seq<Piece>, j: int)
    requires 0 <= j < |text|
  {
    text[j] == Bare('[') && Bare(']') !in text[j + 1..]
  }

  lemma LeftOpenStep(text: seq<Piece>, p: Piece)
    ensures LeftOpen(text + [p]) <==> p == Bare('[') || (p != Bare(']') && LeftOpen(text))
  {
    var all := text + [p];
    if j :| 0 <= j < |all| && OpensAt(all, j) {
      if j < |text| {
        assert all[j + 1..] == text[j + 1..] + [p];
        assert OpensAt(text, j);
      }
    }
    if p != Bare(']') {
      if j :| 0 <= j < |text| && OpensAt(text, j) {
        assert all[j + 1..] == text[j + 1..] + [p];
        assert OpensAt(all, j);
      }
    }
    if p == Bare('[') {
      assert all[|text| + 1..] == [];
      assert OpensAt(all, |text|);
    }
  }

  /** In plain words: the last bracket was an opening one, or there was none. */
  lemma {:induction false} BlindedMeans(text: seq<Piece>, blind: bool)
    ensures Blinded(text, blind) <==> LeftOpen(text) || (blind && Bare(']') !in text)
  {
    if text != [] {
      var n := |text| - 1;
      BlindedMeans(text[..n], blind);
      LeftOpenStep(text[..n], text[n]);
      assert text == text[..n] + [text[n]];
      hide LeftOpen;
    }
  }

  lemma MisleadingStep(p: Piece, text: seq<Piece>, blind: bool)
    ensures Misleading([p] + text, blind) <==>
            Misleading(text, Blinded([p], blind)) || (p == Bare(')') && !blind && text != [] && IsSign(text[0]))
  {
    hide Blinded;
    var all := [p] + text;
    if k :| 0 <= k < |all| - 1 && MisleadsAt(all, k, blind) {
      if k > 0 {
        assert all[..k] == [p] + text[..k - 1];
        BlindedAppends([p], text[..k - 1], blind);
        assert MisleadsAt(text, k - 1, Blinded([p], blind));
      } else {
        NothingBlinds(all[..0], blind);
      }
    }
    if k :| 0 <= k < |text| - 1 && MisleadsAt(text, k, Blinded([p], blind)) {
      assert all[..k + 1] == [p] + text[..k];
      BlindedAppends([p], text[..k], blind);
      assert MisleadsAt(all, k + 1, blind);
    }
    if p == Bare(')') && !blind && text != [] && IsSign(text[0]) {
      NothingBlinds(all[..0], blind);
      assert MisleadsAt(all, 0, blind);
    }
  }

  lemma NothingBlinds(text: seq<Piece>, blind: bool)
    requires text == []
    ensures Blinded(text, blind) == blind
  {
  }

  /** The scanner answers whether the text is misleading in this sense. */
  lemma {:induction false} ScanText(text: seq<Piece>, blind: bool)
    requires Whole(text)
    ensures Scan(Written(text), false, blind) <==> Misleading(text, blind)
  {
    if text != [] {
      var p, rest := text[0], text[1..];
      ScanText(rest, Blinded([p], blind));
      MisleadingStep(p, rest, blind);
      assert text == [p] + rest && [p][..0] == [];
      hide Misleading;
      if p.Escaped? {
        SkipEscape(p.c, Written(rest), blind);
      } else {
        assert ([p.c] + Written(rest))[1..] == Written(rest);
        NextSign(rest);
      }
    }
  }

  lemma SkipEscape(c: char, rest: string, blind: bool)
    ensures Scan(['\\', c] + rest, false, blind) == Scan(rest, false, blind)
  {
    assert (['\\', c] + rest)[1..] == [c] + rest;
    assert ([c] + rest)[1..] == rest;
  }

  lemma NextSign(text: seq<Piece>)
    requires Whole(text)
    ensures Written(text) == "" <==> text == []
    ensures text != [] ==> (IsRepetition(Written(text)[0]) <==> IsSign(text[0]))
  {
  }

  predicate StartsClean(text: seq<Piece>) {
    text != [] ==> !IsSign(text[0])
  }

  /** A closing parenthesis at the end of a text, in the scanner's sight. */
  predicate Closes(text: seq<Piece>, blind: bool) {
    text != [] && text[|text| - 1] == Bare(')') && !Blinded(text, blind)
  }

  lemma {:induction false} MisleadingAppends(a: seq<Piece>, b: seq<Piece>, blind: bool)
    ensures Misleading(a + b, blind) <==>
            Misleading(a, blind) || Misleading(b, Blinded(a, blind)) || (Closes(a, blind) && !StartsClean(b))
  {
    var all := a + b;
    hide Blinded;
    if k :| 0 <= k < |all| - 1 && MisleadsAt(all, k, blind) {
      if k < |a| - 1 {
        assert all[..k] == a[..k];
        assert MisleadsAt(a, k, blind);
      } else if k == |a| - 1 {
        assert all[..k] == a[..k];
        ClosingSees(a, blind);
      } else {
        assert all[..k] == a + b[..k - |a|];
        BlindedAppends(a, b[..k - |a|], blind);
        assert MisleadsAt(b, k - |a|, Blinded(a, blind));
      }
    }
    if k :| 0 <= k < |a| - 1 && MisleadsAt(a, k, blind) {
      assert all[..k] == a[..k];
      assert MisleadsAt(all, k, blind);
    }
    if k :| 0 <= k < |b| - 1 && MisleadsAt(b, k, Blinded(a, blind)) {
      assert all[..|a| + k] == a + b[..k];
      BlindedAppends(a, b[..k], blind);
      assert MisleadsAt(all, |a| + k, blind);
    }
    if Closes(a, blind) && !StartsClean(b) {
      ClosingSees(a, blind);
      assert all[..|a| - 1] == a[..|a| - 1];
      assert MisleadsAt(all, |a| - 1, blind);
    }
  }

  lemma ClosingSees(a: seq<Piece>, blind: bool)
    requires a != [] && a[|a| - 1] == Bare(')')
    ensures Blinded(a, blind) == Blinded(a[..|a| - 1], blind)
  {
  }

  // ------------------------------------------------- the scanner on a tree

  lemma IgnoredIsWhole(g: Ignored)
    requires WellFormedIgnored(g)
    ensures Whole(IgnoredText(g)) && StartsClean(IgnoredText(g)) && IgnoredText(g) != []
  {
  }

  lemma {:induction false} GapIsWhole(gap: Gap)
    requires forall i | 0 <= i < |gap| :: WellFormedIgnored(gap[i])
    ensures Whole(GapText(gap)) && StartsClean(GapText(gap)) && (gap == [] <==> GapText(gap) == [])
  {
    hide WellFormedIgnored, IgnoredText;
    if gap != [] {
      IgnoredIsWhole(gap[0]);
      GapIsWhole(gap[1..]);
    }
  }

  lemma {:induction false} StackIsWhole(stack: seq<Quantified>, verbose: bool)
    requires WellFormedStack(stack, verbose)
    ensures Whole(StackText(stack))
  {
    hide WellFormedGap;
    if stack != [] {
      assert Whole(QuantifierText(stack[0].quantifier));
      assert WellFormedGap(stack[0].gap, verbose);
      StackIsWhole(stack[1..], verbose);
      StackGap(stack[0].gap, verbose);
      hide QuantifierText;
    }
  }

  lemma StackGap(gap: Gap, verbose: bool)
    requires WellFormedGap(gap, verbose)
    ensures Whole(GapText(gap)) && StartsClean(GapText(gap)) && (gap == [] <==> GapText(gap) == [])
  {
    GapIsWhole(gap);
  }

  /** A stack begins with a sign exactly if its first quantifier is one that repeats
      and nothing is in front of it. */
  lemma StackStarts(stack: seq<Quantified>, verbose: bool)
    requires stack != [] && WellFormedStack(stack, verbose)
    ensures StartsClean(StackText(stack)) <==> stack[0].gap != [] || stack[0].quantifier == Optional
  {
    assert WellFormedGap(stack[0].gap, verbose);
    StackGap(stack[0].gap, verbose);
    hide WellFormedGap, GapText;
  }

  lemma HeadIsWhole(gap: Gap, kind: GroupKind, verbose: bool)
    requires WellFormedGap(gap, verbose) && WellFormedKind(kind)
    ensures Whole(HeadText(gap, kind)) && StartsClean(HeadText(gap, kind))
  {
    StackGap(gap, verbose);
    hide GapText;
    assert forall i | 0 <= i < |KindText(kind)| :: KindText(kind)[i] != '\\';
    hide KindText;
  }

  lemma DirectiveIsWhole(gap: Gap, on: string, off: string, verbose: bool)
    requires WellFormedGap(gap, verbose) && IsFlagText(on) && IsFlagText(off)
    ensures Whole(DirectiveText(gap, on, off)) && StartsClean(DirectiveText(gap, on, off))
  {
    StackGap(gap, verbose);
    hide GapText;
    assert forall i | 0 <= i < |FlagText(on, off)| :: FlagText(on, off)[i] != '\\';
    hide FlagText;
  }

  lemma {:induction false} AtomIsWhole(a: Atom, verbose: bool)
    requires WellFormedAtom(a, verbose)
    ensures Whole(AtomText(a)) && AtomText(a) != [] && StartsClean(AtomText(a))
    decreases a, 0
  {
    hide TextOf, HeadText, DirectiveText, WellFormedGap, WellFormedKind;
    match a {
      case Group(gap, kind, body) =>
        HeadIsWhole(gap, kind, verbose);
        TextIsWhole(body, VerboseInside(kind, verbose));
        assert HeadText(gap, kind) != [] by { HeadOpens(gap, kind); }
      case Directive(gap, on, off) =>
        DirectiveIsWhole(gap, on, off, verbose);
        assert DirectiveText(gap, on, off) != [] by { DirectiveOpens(gap, on, off); }
      case _ =>
    }
  }

  lemma HeadOpens(gap: Gap, kind: GroupKind)
    ensures HeadText(gap, kind) != []
  {
  }

  lemma DirectiveOpens(gap: Gap, on: string, off: string)
    ensures DirectiveText(gap, on, off) != []
  {
  }

  lemma {:induction false} TextIsWhole(r: Regex, verbose: bool)
    requires WellFormed(r, verbose)
    ensures Whole(TextOf(r)) && StartsClean(TextOf(r))
    decreases r, 1
  {
    hide AtomText, StackText, GapText, WellFormedAtom, WellFormedStack, WellFormedGap;
    match r
    case Empty =>
    case Blank(gap) => StackGap(gap, verbose);
    case Single(a) => AtomIsWhole(a, verbose);
    case Repeat(a, stack) =>
      AtomIsWhole(a, verbose);
      StackIsWhole(stack, verbose);
    case Then(first, second) =>
      TextIsWhole(first, verbose);
      TextIsWhole(second, VerboseAfter(first, verbose));
    case Either(left, right) =>
      TextIsWhole(left, verbose);
      TextIsWhole(right, VerboseAfter(left, verbose));
  }

  lemma GroupFinds(gap: Gap, kind: GroupKind, body: Regex, verbose: bool, blind: bool)
    requires WellFormedAtom(Group(gap, kind, body), verbose)
    ensures var a := Group(gap, kind, body);
            Misleading(AtomText(a), blind) <==> SeesInside(a, blind) || MisleadsInside(a, blind)
    decreases body, 2
  {
    hide HeadText, Blinded, Misleading, WellFormedGap, WellFormedKind;
    var head, inside := HeadText(gap, kind), TextOf(body);
    var behind := Blinded(head, blind);
    TreeFinds(body, VerboseInside(kind, verbose), behind);
    TextIsWhole(body, VerboseInside(kind, verbose));
    MisleadingAppends(head, inside, blind);
    MisleadingAppends(head + inside, [Bare(')')], blind);
    OneIsHarmless(Bare(')'), Blinded(head + inside, blind));
    hide TextOf, Sees, Misleads, Whole, Closes;
  }

  lemma OneIsHarmless(p: Piece, blind: bool)
    ensures !Misleading([p], blind)
  {
  }

  /** An atom by itself: a repeated group inside it, or a misleading stretch. */
  lemma AtomFinds(a: Atom, verbose: bool, blind: bool)
    requires WellFormedAtom(a, verbose)
    ensures Misleading(AtomText(a), blind) <==> SeesInside(a, blind) || MisleadsInside(a, blind)
    decreases a, 0
  {
    hide Misleading, ClassText, DirectiveText, HeadText, TextOf, Sees, Misleads, WellFormed, WellFormedGap, WellFormedKind, Whole;
    match a
    case Literal(c) => OneIsHarmless(Bare(c), blind);
    case EscapedLiteral(c) => OneIsHarmless(Escaped(c), blind);
    case Class(inside) =>
    case Group(gap, kind, body) => GroupFinds(gap, kind, body, verbose, blind);
    case Directive(gap, on, off) =>
  }

  lemma AtomCloses(a: Atom, verbose: bool, blind: bool)
    requires WellFormedAtom(a, verbose) && !a.Directive?
    ensures Closes(AtomText(a), blind) <==> a.Group? && !Blinded(AtomText(a), blind)
  {
    hide HeadText, TextOf, Blinded;
  }

  lemma RepeatFinds(a: Atom, stack: seq<Quantified>, verbose: bool, blind: bool)
    requires WellFormed(Repeat(a, stack), verbose)
    ensures var r := Repeat(a, stack);
            Misleading(TextOf(r), blind) <==> Sees(r, blind) || Misleads(r, blind)
    decreases Repeat(a, stack), 0
  {
    AtomFinds(a, verbose, blind);
    AtomCloses(a, verbose, blind);
    StackStarts(stack, verbose);
    MisleadingAppends(AtomText(a), StackText(stack), blind);
    hide AtomText, StackText, Misleading, Blinded, SeesInside, MisleadsInside, Closes, StartsClean, WellFormedAtom, WellFormedStack;
  }

  /** On a tree: a group repeated in sight, or a misleading stretch. */
  lemma {:induction false} TreeFinds(r: Regex, verbose: bool, blind: bool)
    requires WellFormed(r, verbose)
    ensures Misleading(TextOf(r), blind) <==> Sees(r, blind) || Misleads(r, blind)
    decreases r, 1
  {
    hide AtomText, StackText, GapText, Misleading, Blinded, SeesInside, MisleadsInside, WellFormedAtom, WellFormedGap, Closes;
    match r
    case Empty => assert !Misleading([], blind) by { NothingMisleads(blind); }
    case Blank(gap) =>
    case Single(a) => AtomFinds(a, verbose, blind);
    case Repeat(a, stack) => RepeatFinds(a, stack, verbose, blind);
    case Then(first, second) =>
      var behind := Blinded(TextOf(first), blind);
      TreeFinds(first, verbose, blind);
      TreeFinds(second, VerboseAfter(first, verbose), behind);
      TextIsWhole(second, VerboseAfter(first, verbose));
      MisleadingAppends(TextOf(first), TextOf(second), blind);
    case Either(left, right) =>
      var behind := Blinded(TextOf(left), blind);
      TreeFinds(left, verbose, blind);
      TreeFinds(right, VerboseAfter(left, verbose), behind);
      EitherFinds(TextOf(left), TextOf(right), blind);
      TextIsWhole(right, VerboseAfter(left, verbose));
  }

  lemma NothingMisleads(blind: bool)
    ensures !Misleading([], blind)
  {
  }

  lemma EitherFinds(a: seq<Piece>, b: seq<Piece>, blind: bool)
    ensures Misleading(a + [Bare('|')] + b, blind) <==> Misleading(a, blind) || Misleading(b, Blinded(a, blind))
  {
    var bar := [Bare('|')];
    MisleadingAppends(a, bar, blind);
    MisleadingAppends(a + bar, b, blind);
    OneIsHarmless(Bare('|'), Blinded(a, blind));
    BlindedAppends(a, bar, blind);
    assert bar[..0] == [] && Blinded(bar, Blinded(a, blind)) == Blinded(a, blind);
    assert (a + bar)[|a + bar| - 1] == Bare('|');
    hide Misleading, Blinded;
  }

  // ----------------------------------------------------------- main results

  /** On the text of any expression the scanner answers exactly whether some group is
      repeated in its sight or some stretch of text misleads it. */
  lemma ScannerFinds(r: Regex)
    requires WellFormed(r, false)
    ensures Scan(Print(r), false, false) <==> Sees(r, false) || Misleads(r, false)
  {
    TextIsWhole(r, false);
    ScanText(TextOf(r), false);
    TreeFinds(r, false, false);
    hide *;
  }

  lemma StackSeen(a: Atom, stack: seq<Quantified>, blind: bool)
    ensures InSight(a, stack, blind) ==> RepeatsIt(a, stack)
  {
    hide AtomText, Blinded;
  }

  /** A repeated group is in sight or out of sight. */
  lemma {:induction false} SeenOrMissed(r: Regex, blind: bool)
    ensures RepeatsGroup(r) <==> Sees(r, blind) || Misses(r, blind)
  {
    hide Blinded, TextOf, HeadText, InSight, RepeatsIt;
    match r
    case Single(a) =>
      if a.Group? {
        SeenOrMissed(a.body, Blinded(HeadText(a.gap, a.kind), blind));
      }
    case Repeat(a, stack) =>
      StackSeen(a, stack, blind);
      if a.Group? {
        SeenOrMissed(a.body, Blinded(HeadText(a.gap, a.kind), blind));
      }
    case Then(first, second) =>
      SeenOrMissed(first, blind);
      SeenOrMissed(second, Blinded(TextOf(first), blind));
    case Either(left, right) =>
      SeenOrMissed(left, blind);
      SeenOrMissed(right, Blinded(TextOf(left), blind));
    case _ =>
  }

  /** What the engine is given for a trigger. */
  function Compiled(trigger: string): string {
    "(?i:" + trigger + ")"
  }

  lemma {:induction false} LastParenthesis(text: string, escaped: bool, inClass: bool)
    ensures Scan(text + ")", escaped, inClass) == Scan(text, escaped, inClass)
  {
    if text == "" {
      assert text + ")" == ")";
    } else {
      assert (text + ")")[1..] == text[1..] + ")";
      if text[0] == '\\' || escaped {
        LastParenthesis(text[1..], !escaped, inClass);
      } else {
        LastParenthesis(text[1..], false, text[0] == '[' || (inClass && text[0] != ']'));
      }
    }
  }

  lemma SkipChar(c: char, rest: string)
    requires c !in {'\\', '[', ')'}
    ensures Scan([c] + rest, false, false) == Scan(rest, false, false)
  {
    assert ([c] + rest)[1..] == rest;
  }

  /** It makes no difference to the scanner. */
  lemma ScansCompiled(trigger: string)
    ensures Scan(Compiled(trigger), false, false) == Scan(trigger, false, false)
  {
    LastParenthesis(trigger, false, false);
    var rest := trigger + ")";
    hide Scan;
    SkipChar(':', rest);
    SkipChar('i', [':'] + rest);
    SkipChar('?', ['i'] + ([':'] + rest));
    SkipChar('(', ['?'] + (['i'] + ([':'] + rest)));
    assert Compiled(trigger) == ['('] + (['?'] + (['i'] + ([':'] + rest)));
  }

  /** So it is right about the repeated groups of a trigger, as the engine compiles it,
      if and only if one is repeated in sight, or misleading stretches and groups
      repeated out of sight occur both or neither. */
  lemma ScannerIsExact(trigger: string, r: Regex)
    requires WellFormed(r, false) && Print(r) == Compiled(trigger)
    ensures (Scan(trigger, false, false) <==> RepeatsGroup(r)) <==>
            Sees(r, false) || (Misleads(r, false) <==> Misses(r, false))
  {
    ScansCompiled(trigger);
    ScannerFinds(r);
    SeenOrMissed(r, false);
    hide *;
  }

  lemma {:induction false} WrittenAppends(a: seq<Piece>, b: seq<Piece>)
    ensures Written(a + b) == Written(a) + Written(b)
  {
    if a == [] {
      assert a + b == b;
    } else {
      assert (a + b)[1..] == a[1..] + b;
      WrittenAppends(a[1..], b);
    }
  }

  /** A trigger that is an expression by itself is compiled to one that repeats the
      same groups. */
  lemma CompiledTree(r: Regex)
    requires WellFormed(r, false)
    ensures var tree := Single(Group([], Flagged("i", ""), r));
            WellFormed(tree, false) && Print(tree) == Compiled(Print(r)) && RepeatsGroup(tree) == RepeatsGroup(r)
  {
    var head, inside := HeadText([], Flagged("i", "")), TextOf(r);
    CompiledHead();
    assert WellFormedKind(Flagged("i", "")) && !VerboseInside(Flagged("i", ""), false);
    hide WellFormed, HeadText, WellFormedKind;
    WrittenAppends(head + inside, [Bare(')')]);
    WrittenAppends(head, inside);
    assert Written([Bare(')')]) == ")";
    hide TextOf, Written, RepeatsGroup;
    GroupIs([], Flagged("i", ""), r);
  }

  lemma GroupIs(gap: Gap, kind: GroupKind, body: Regex)
    ensures var tree := Single(Group(gap, kind, body));
            && (WellFormed(tree, false) <==>
                  WellFormedGap(gap, false) && WellFormedKind(kind) && WellFormed(body, VerboseInside(kind, false)))
            && TextOf(tree) == HeadText(gap, kind) + TextOf(body) + [Bare(')')]
            && RepeatsGroup(tree) == RepeatsGroup(body)
  {
    hide WellFormedGap, WellFormedKind, VerboseInside, HeadText;
  }

  lemma CompiledHead()
    ensures Written(HeadText([], Flagged("i", ""))) == "(?i:"
    ensures VerboseInside(Flagged("i", ""), false) == false
  {
    assert KindText(Flagged("i", "")) == "?i:";
    var text := HeadText([], Flagged("i", ""));
    assert text == [Bare('('), Bare('?'), Bare('i'), Bare(':')];
    assert Written(text[3..]) == ":";
    assert Written(text[2..]) == "i:" by { assert text[2..][1..] == text[3..]; }
    assert Written(text[1..]) == "?i:" by { assert text[1..][1..] == text[2..]; }
  }

  // ------------------------------------------------- triggers it is wrong on

  /** `(a)`. */
  const LETTER := Group([], Capturing, Single(Literal('a')))

  lemma LetterInside(verbose: bool)
    ensures WellFormed(Single(Literal('a')), verbose) && TextOf(Single(Literal('a'))) == [Bare('a')]
  {
    assert !IsBlank('a') && IsPlain('a');
    hide IsBlank, IsPlain;
  }

  lemma LetterHead()
    ensures HeadText([], Capturing) == [Bare('(')]
  {
  }

  lemma LetterIs(verbose: bool)
    ensures AtomText(LETTER) == Plainly("(a)") && WellFormedAtom(LETTER, verbose)
  {
    LetterInside(verbose);
    LetterHead();
    var inside := Single(Literal('a'));
    assert WellFormedGap([], verbose);
    assert !VerboseInside(Capturing, false) && VerboseInside(Capturing, verbose) == verbose;
    hide WellFormed, TextOf, HeadText, WellFormedGap, VerboseInside;
    assert AtomText(LETTER) == HeadText([], Capturing) + TextOf(inside) + [Bare(')')];
  }

  /** ... repeated by the last of some quantifiers. */
  lemma LetterRepeated(stack: seq<Quantified>, text: string, verbose: bool)
    requires stack != [] && stack[|stack| - 1].quantifier != Optional
    requires StackText(stack) == Plainly(text) && WellFormedStack(stack, verbose)
    ensures var r := Repeat(LETTER, stack);
            WellFormed(r, verbose) && TextOf(r) == Plainly("(a)" + text) && RepeatsGroup(r)
  {
    LetterIs(verbose);
    hide AtomText, StackText, WellFormedAtom, WellFormedStack;
  }

  lemma OneStack(gap: Gap, quantifier: Quantifier)
    ensures StackText([Quantified(gap, quantifier)]) == GapText(gap) + QuantifierText(quantifier)
  {
    hide GapText, QuantifierText;
  }

  /** A text of bare characters prints as it stands. */
  lemma {:induction false} WrittenPlainly(text: string)
    ensures Written(Plainly(text)) == text
  {
    if text != "" {
      WrittenPlainly(text[1..]);
      assert Plainly(text)[1..] == Plainly(text[1..]);
    }
  }

  /** The scanner's answer on a plain text. */
  lemma PlainScan(r: Regex, text: string)
    requires TextOf(r) == Plainly(text) && '\\' !in text
    ensures Print(r) == text
    ensures Scan(text, false, false) <==> Misleading(Plainly(text), false)
  {
    WrittenPlainly(text);
    ScanText(Plainly(text), false);
  }

  /** No closing parenthesis with a sign behind it. */
  lemma Harmless(text: string)
    requires forall k | 0 <= k < |text| - 1 :: text[k] == ')' ==> !IsRepetition(text[k + 1])
    ensures !Misleading(Plainly(text), false)
  {
  }

  /** `(a)?*`: the engine repeats the optional group, the scanner does not see it. */
  lemma OptionalGroupIsMissed()
    ensures var r := Repeat(LETTER, [Quantified([], Optional), Quantified([], Star)]);
            WellFormed(r, false) && Print(r) == "(a)?*" && RepeatsGroup(r) && !Scan("(a)?*", false, false)
  {
    var stack := [Quantified([], Optional), Quantified([], Star)];
    assert StackText(stack) == Plainly("?*") by {
      assert stack[1..] == [Quantified([], Star)];
      OneStack([], Star);
    }
    hide StackText, TextOf, WellFormed, RepeatsGroup, Scan, Misleading, Print;
    LetterRepeated(stack, "?*", false);
    PlainScan(Repeat(LETTER, stack), "(a)?*");
    Harmless("(a)?*");
  }

  /** A group that is read in verbose mode. */
  lemma VerboseGroup(body: Regex, text: string)
    requires WellFormed(body, true) && TextOf(body) == Plainly(text)
    ensures var r := Single(Group([], Flagged("x", ""), body));
            WellFormed(r, false) && TextOf(r) == Plainly("(?x:" + text + ")") && RepeatsGroup(r) == RepeatsGroup(body)
  {
    var kind := Flagged("x", "");
    VerboseHead();
    hide WellFormed, TextOf, HeadText, WellFormedKind, VerboseInside, RepeatsGroup;
    GroupIs([], kind, body);
  }

  lemma VerboseHead()
    ensures VerboseInside(Flagged("x", ""), false) && WellFormedKind(Flagged("x", ""))
    ensures HeadText([], Flagged("x", "")) == Plainly("(?x:")
  {
    assert "x"[0] == 'x';
    assert KindText(Flagged("x", "")) == "?x:";
    hide KindText;
  }

  lemma SpacedPlus()
    ensures var stack := [Quantified([Space(' ')], Plus)];
            StackText(stack) == Plainly(" +") && WellFormedStack(stack, true)
  {
    OneStack([Space(' ')], Plus);
    assert GapText([Space(' ')]) == [Bare(' ')];
    assert WellFormedIgnored(Space(' '));
    hide StackText, GapText, WellFormedIgnored;
  }

  /** `(?x:(a) +)`: neither does it across white space in verbose mode. */
  lemma SpacedGroupIsMissed()
    ensures var r := Single(Group([], Flagged("x", ""), Repeat(LETTER, [Quantified([Space(' ')], Plus)])));
            WellFormed(r, false) && Print(r) == "(?x:(a) +)" && RepeatsGroup(r) && !Scan("(?x:(a) +)", false, false)
  {
    var stack := [Quantified([Space(' ')], Plus)];
    var r := Single(Group([], Flagged("x", ""), Repeat(LETTER, stack)));
    SpacedPlus();
    assert "(a)" + " +" == "(a) +" && "(?x:" + "(a) +" + ")" == "(?x:(a) +)";
    Harmless("(?x:(a) +)");
    assert '\\' !in "(?x:(a) +)";
    hide *;
    LetterRepeated(stack, " +", true);
    VerboseGroup(Repeat(LETTER, stack), "(a) +");
    PlainScan(r, "(?x:(a) +)");
  }

  lemma OpeningComment()
    ensures var gap := [Comment([Bare('['), Bare('\n')])];
            WellFormed(Blank(gap), true) && GapText(gap) == Plainly("#[\n")
  {
    var comment := Comment([Bare('['), Bare('\n')]);
    assert WellFormedIgnored(comment);
    assert IgnoredText(comment) == Plainly("#[\n");
    assert GapText([]) == [];
    assert [comment][1..] == [];
  }

  lemma PlainPlus()
    ensures var stack := [Quantified([], Plus)];
            StackText(stack) == Plainly("+") && WellFormedStack(stack, true)
  {
    OneStack([], Plus);
  }

  /** `(?x:#[` and on a new line `(a)+)`: a bracket in a comment blinds the scanner. */
  lemma CommentBlinds()
    ensures var comment := Comment([Bare('['), Bare('\n')]);
            var r := Single(Group([], Flagged("x", ""), Then(Blank([comment]), Repeat(LETTER, [Quantified([], Plus)]))));
            WellFormed(r, false) && Print(r) == "(?x:#[\n(a)+)" && RepeatsGroup(r) && !Scan("(?x:#[\n(a)+)", false, false)
  {
    var gap, stack := [Comment([Bare('['), Bare('\n')])], [Quantified([], Plus)];
    var body := Then(Blank(gap), Repeat(LETTER, stack));
    PlainPlus();
    OpeningComment();
    var text := "(?x:#[\n(a)+)";
    assert "(a)" + "+" == "(a)+" && "#[\n" + "(a)+" == "#[\n(a)+" && "(?x:" + "#[\n(a)+" + ")" == text;
    assert ']' !in text && '\\' !in text && forall k | 0 <= k < 5 :: text[k] != ')';
    hide *;
    BlindHere(text, 5);
    LetterRepeated(stack, "+", true);
    CommentFirst(gap, "#[\n", Repeat(LETTER, stack), "(a)+");
    VerboseGroup(body, "#[\n(a)+");
    PlainScan(Single(Group([], Flagged("x", ""), body)), text);
  }

  lemma CommentFirst(gap: Gap, comment: string, r: Regex, text: string)
    requires WellFormed(Blank(gap), true) && GapText(gap) == Plainly(comment)
    requires WellFormed(r, true) && TextOf(r) == Plainly(text)
    ensures var both := Then(Blank(gap), r);
            WellFormed(both, true) && TextOf(both) == Plainly(comment + text) && RepeatsGroup(both) == RepeatsGroup(r)
  {
    hide GapText, WellFormedGap, WellFormedAtom, WellFormedStack, AtomText, StackText, RepeatsIt;
    assert VerboseAfter(Blank(gap), true);
  }

  /** Nothing behind a bracket that is never closed is found. */
  lemma BlindHere(text: string, at: nat)
    requires at < |text| && text[at] == '[' && ']' !in text
    requires forall k | 0 <= k < |text| - 1 && k < at :: text[k] == ')' ==> !IsRepetition(text[k + 1])
    ensures !Misleading(Plainly(text), false)
  {
    var all := Plainly(text);
    forall k | 0 <= k < |all| - 1 ensures !MisleadsAt(all, k, false) {
      if k > at {
        assert all[..k][at] == Bare('[');
        BlindedMeans(all[..k], false);
        assert OpensAt(all[..k], at);
      }
    }
  }

  /** `[])*]`: a class of three characters, taken for a repeated group. */
  lemma ClassIsTakenForGroup()
    ensures var r := Single(Class(Plainly("])*")));
            WellFormed(r, false) && Print(r) == "[])*]" && !RepeatsGroup(r) && Scan("[])*]", false, false)
  {
    var text := "[])*]";
    var r := Single(Class(Plainly("])*")));
    assert TextOf(r) == Plainly(text);
    assert WellFormed(r, false) && !RepeatsGroup(r);
    hide TextOf, WellFormed, RepeatsGroup, Scan, Print;
    PlainScan(r, text);
    assert MisleadsAt(Plainly(text), 2, false) by {
      var before := Plainly(text)[..2];
      assert before[1] == Bare(']');
    }
  }
}
