/** The sandbox agent loop (infra/sandbox/agent.py): a budgeted conversation
    with a model that may answer anything. */
module AgentLoop {
  import opened Options

  // ------------------------------------------------------------- accounting

  datatype Usage = Usage(input: nat, output: nat, cacheWrite: nat, cacheRead: nat) {
    function Plus(u: Usage): Usage {
      Usage(input + u.input, output + u.output, cacheWrite + u.cacheWrite, cacheRead + u.cacheRead)
    }
  }

  const NOTHING := Usage(0, 0, 0, 0)

  /** Dollars per million tokens. */
  datatype Rates = Rates(input: real, output: real, cacheWrite: real, cacheRead: real)

  function Pricing(model: string): Rates {
    if model == "claude-opus-4-6" then Rates(5.0, 25.0, 6.25, 0.5) else Rates(3.0, 15.0, 3.75, 0.3)
  }

  function Cost(model: string, u: Usage): real {
    var rates := Pricing(model);
    ( u.input as real * rates.input
    + u.output as real * rates.output
    + u.cacheWrite as real * rates.cacheWrite
    + u.cacheRead as real * rates.cacheRead) / 1000000.0
  }

  lemma CostAdds(model: string, u: Usage, v: Usage)
    ensures Cost(model, u.Plus(v)) == Cost(model, u) + Cost(model, v)
    ensures Cost(model, u) >= 0.0 && Cost(model, NOTHING) == 0.0
  {
  }

  /** The share of the budget that is used; all of it when there is none. */
  function Fraction(model: string, budgetDollars: real, used: Usage): real {
    if budgetDollars <= 0.0 then 1.0 else Cost(model, used) / budgetDollars
  }

  class TokenBudget {
    var used: Usage
    const budgetDollars: real
    const model: string

    constructor (budgetDollars: real, model: string)
      ensures used == NOTHING && this.budgetDollars == budgetDollars && this.model == model
    {
      this.used := NOTHING;
      this.budgetDollars := budgetDollars;
      this.model := model;
    }

    function FractionUsed(): real
      reads this
    {
      Fraction(model, budgetDollars, used)
    }

    method Update(usage: Usage)
      modifies this
      ensures used == old(used).Plus(usage)
    {
      used := used.Plus(usage);
    }
  }

  // ------------------------------------------------------------- transcript

  datatype ToolInput = ToolInput(summary: Option<string>, filesChanged: Option<seq<string>>)

  datatype Block = Text(text: string) | ToolUse(id: string, name: string, input: ToolInput)

  datatype Reply = ApiError | Response(stopReason: string, content: seq<Block>, usage: Usage)

  datatype Part = Note(text: string) | ToolResult(toolUseId: string, content: string, isError: bool)

  datatype Content = Plain(text: string) | Parts(parts: seq<Part>)

  datatype Message = User(content: Content) | Assistant(blocks: seq<Block>)

  datatype ToolOutcome = Output(text: string) | Raises(error: string)

  const TOOL_HANDLERS := {"read_file", "write_file", "edit_file", "list_directory", "run_command"}

  /** The ids a model message asks for, in order. */
  function ToolIds(blocks: seq<Block>): seq<string> {
    if blocks == [] then []
    else
      var last := blocks[|blocks| - 1];
      ToolIds(blocks[..|blocks| - 1]) + if last.ToolUse? then [last.id] else []
  }

  /** The ids a user message answers, in order. */
  function AnsweredIds(parts: seq<Part>): seq<string> {
    if parts == [] then []
    else (if parts[0].ToolResult? then [parts[0].toolUseId] else []) + AnsweredIds(parts[1..])
  }

  /** Every tool request is answered once, in order, in the next message. */
  ghost predicate AnsweredAt(messages: seq<Message>, i: nat)
    requires i + 1 < |messages|
  {
    messages[i].Assistant? ==>
      && messages[i + 1].User?
      && messages[i + 1].content.Parts?
      && AnsweredIds(messages[i + 1].content.parts) == ToolIds(messages[i].blocks)
  }

  /** It alternates, starting with the user, and leaves no tool request unanswered. */
  ghost predicate WellFormed(messages: seq<Message>) {
    && messages != []
    && (forall i | 0 <= i < |messages| :: messages[i].User? <==> i % 2 == 0)
    && (forall i: nat {:trigger AnsweredAt(messages, i)} | i + 1 < |messages| :: AnsweredAt(messages, i))
  }

  /** ... and it is the model's turn. */
  ghost predicate ReadyToSend(messages: seq<Message>)
    ensures ReadyToSend(messages) ==> messages != []
  {
    WellFormed(messages) && |messages| % 2 == 1
  }

  /** The figures of the source's message are not modelled. */
  const BUDGET_WARNING := "[BUDGET WARNING: Wrap up your changes and call submit_changes soon.]"

  function WithWarning(content: Content, warning: string): Content {
    match content
    case Plain(text) => Plain(warning + "\n\n" + text)
    case Parts(parts) => Parts([Note(warning)] + parts)
  }

  /** The model's message alone keeps the transcript well formed. */
  lemma StopKeepsWellFormed(messages: seq<Message>, blocks: seq<Block>)
    requires ReadyToSend(messages)
    ensures WellFormed(messages) && WellFormed(messages + [Assistant(blocks)])
  {
    var asked := messages + [Assistant(blocks)];
    forall i: nat | i + 1 < |asked| ensures AnsweredAt(asked, i) {
      if i + 1 < |messages| {
        assert AnsweredAt(messages, i);
      }
    }
  }

  lemma TurnKeepsReady(messages: seq<Message>, blocks: seq<Block>, parts: seq<Part>)
    requires ReadyToSend(messages) && AnsweredIds(parts) == ToolIds(blocks)
    ensures ReadyToSend(messages + [Assistant(blocks)] + [User(Parts(parts))])
  {
    var asked := messages + [Assistant(blocks)];
    var answered := asked + [User(Parts(parts))];
    StopKeepsWellFormed(messages, blocks);
    hide ToolIds, AnsweredIds;
    forall i: nat | i + 1 < |answered| ensures AnsweredAt(answered, i) {
      if i + 1 < |asked| {
        assert AnsweredAt(asked, i);
      }
    }
  }

  // ------------------------------------------------------------- tool calls

  predicate IsSubmission(b: Block) {
    b.ToolUse? && b.name == "submit_changes"
  }

  predicate SubmitsAny(blocks: seq<Block>) {
    exists i :: 0 <= i < |blocks| && IsSubmission(blocks[i])
  }

  datatype Submission = Submission(summary: string, filesChanged: seq<string>)

  lemma {:induction false} AnsweredIdsAppend(a: seq<Part>, p: Part)
    requires p.ToolResult?
    ensures AnsweredIds(a + [p]) == AnsweredIds(a) + [p.toolUseId]
  {
    if a == [] {
      assert a + [p] == [p];
    } else {
      assert (a + [p])[1..] == a[1..] + [p];
      AnsweredIdsAppend(a[1..], p);
    }
  }

  function GetOr<T>(o: Option<T>, fallback: T): T {
    match o
    case None => fallback
    case Some(v) => v
  }

  /** The answer to one tool request, given what running the tool comes to. */
  function AnswerTo(block: Block, outcome: ToolOutcome): (part: Part)
    requires block.ToolUse?
    ensures part.ToolResult? && part.toolUseId == block.id
  {
    if block.name == "submit_changes" then
      ToolResult(block.id, "Changes submitted. Do not continue editing.", false)
    else if block.name !in TOOL_HANDLERS then
      ToolResult(block.id, "Error: unknown tool '" + block.name + "'.", true)
    else
      match outcome
      case Output(text) => ToolResult(block.id, text, false)
      case Raises(error) => ToolResult(block.id, "Error: " + error, false)
  }

  /** The answers to a model message; `tools(i)` is what running block `i` comes to. */
  function ToolResults(content: seq<Block>, tools: nat -> ToolOutcome): seq<Part> {
    if content == [] then []
    else
      var n := |content| - 1;
      ToolResults(content[..n], tools) + if content[n].ToolUse? then [AnswerTo(content[n], tools(n))] else []
  }

  /** What the last submission of a model message says. */
  function LastSubmission(content: seq<Block>): Option<Submission> {
    if content == [] then None
    else
      var last := content[|content| - 1];
      if IsSubmission(last) then Some(Submission(GetOr(last.input.summary, ""), GetOr(last.input.filesChanged, [])))
      else LastSubmission(content[..|content| - 1])
  }

  lemma {:induction false} ResultsAnswerAll(content: seq<Block>, tools: nat -> ToolOutcome)
    ensures AnsweredIds(ToolResults(content, tools)) == ToolIds(content)
  {
    if content != [] {
      var n := |content| - 1;
      ResultsAnswerAll(content[..n], tools);
      if content[n].ToolUse? {
        AnsweredIdsAppend(ToolResults(content[..n], tools), AnswerTo(content[n], tools(n)));
      } else {
        assert ToolResults(content, tools) == ToolResults(content[..n], tools);
      }
    }
  }

  lemma {:induction false} SubmissionIfAny(content: seq<Block>)
    ensures LastSubmission(content).Some? <==> SubmitsAny(content)
  {
    if content != [] {
      var n := |content| - 1;
      SubmissionIfAny(content[..n]);
      SubmitsOneMore(content[..n], content[n]);
      assert content[..n] + [content[n]] == content;
    }
  }

  lemma {:induction false} ResultsCount(content: seq<Block>, tools: nat -> ToolOutcome)
    ensures |ToolResults(content, tools)| == |ToolIds(content)|
  {
    if content != [] {
      ResultsCount(content[..|content| - 1], tools);
    }
  }

  /** What the model is told about running tool `name`: the tool's output, or its error
      behind "Error: ", or that there is no such tool, which alone is flagged. */
  predicate Tells(part: Part, name: string, outcome: ToolOutcome) {
    && part.ToolResult?
    && (part.isError <==>
          name !in {"submit_changes", "read_file", "write_file", "edit_file", "list_directory", "run_command"})
    && (part.isError ==> part.content == "Error: unknown tool '" + name + "'.")
    && (name == "submit_changes" ==> part.content == "Changes submitted. Do not continue editing.")
    && (name in {"read_file", "write_file", "edit_file", "list_directory", "run_command"} ==>
          part.content == if outcome.Output? then outcome.text else "Error: " + outcome.error)
  }

  /** The answers to a model message, by position: the tool request at block `i` is
      answered behind the answers to the requests before it, under its own id. */
  ghost predicate AnsweredByPosition(parts: seq<Part>, content: seq<Block>, tools: nat -> ToolOutcome) {
    && |parts| == |ToolIds(content)|
    && forall i: nat | i < |content| && content[i].ToolUse? :: AnswersBlock(parts, content, tools, i)
  }

  ghost predicate AnswersBlock(parts: seq<Part>, content: seq<Block>, tools: nat -> ToolOutcome, i: nat)
    requires i < |content| && content[i].ToolUse?
  {
    var at := |ToolIds(content[..i])|;
    at < |parts| && Tells(parts[at], content[i].name, tools(i)) && parts[at].toolUseId == content[i].id
  }

  lemma AnswerTells(block: Block, outcome: ToolOutcome)
    requires block.ToolUse?
    ensures Tells(AnswerTo(block, outcome), block.name, outcome)
  {
  }

  lemma {:induction false} ResultsTell(content: seq<Block>, tools: nat -> ToolOutcome)
    ensures AnsweredByPosition(ToolResults(content, tools), content, tools)
  {
    if content != [] {
      var n := |content| - 1;
      var earlier := ToolResults(content[..n], tools);
      ResultsTell(content[..n], tools);
      ResultsCount(content, tools);
      if content[n].ToolUse? {
        AnswerTells(content[n], tools(n));
      }
      hide Tells, AnswerTo;
      forall i: nat | i < |content| && content[i].ToolUse? ensures AnswersBlock(ToolResults(content, tools), content, tools, i) {
        if i < n {
          assert AnswersBlock(earlier, content[..n], tools, i);
          assert content[..n][..i] == content[..i];
        }
      }
    }
  }

  /** The submission taken is that of the last `submit_changes` block, with an empty
      summary or no files where it leaves them out. */
  ghost predicate SubmittedLast(content: seq<Block>, i: nat, submission: Submission) {
    && i < |content| && content[i].ToolUse? && content[i].name == "submit_changes"
    && (forall j | i < j < |content| && content[j].ToolUse? :: content[j].name != "submit_changes")
    && submission.summary == (if content[i].input.summary.Some? then content[i].input.summary.value else "")
    && submission.filesChanged == (if content[i].input.filesChanged.Some? then content[i].input.filesChanged.value else [])
  }

  lemma {:induction false} LastIsTaken(content: seq<Block>)
    ensures LastSubmission(content).Some? ==> exists i :: SubmittedLast(content, i, LastSubmission(content).value)
    ensures LastSubmission(content).None? ==> forall i | 0 <= i < |content| && content[i].ToolUse? :: content[i].name != "submit_changes"
  {
    if content != [] {
      var n := |content| - 1;
      if IsSubmission(content[n]) {
        assert SubmittedLast(content, n, LastSubmission(content).value);
      } else {
        LastIsTaken(content[..n]);
        if LastSubmission(content).Some? {
          var i :| SubmittedLast(content[..n], i, LastSubmission(content).value);
          assert SubmittedLast(content, i, LastSubmission(content).value);
        }
      }
    }
  }

  method RunTools(content: seq<Block>, tools: nat -> ToolOutcome) returns (results: seq<Part>, submission: Option<Submission>)
    ensures results == ToolResults(content, tools)
    ensures AnsweredIds(results) == ToolIds(content)
    ensures AnsweredByPosition(results, content, tools)
    ensures submission == LastSubmission(content)
    ensures submission.Some? <==> SubmitsAny(content)
    ensures submission.Some? ==> exists i :: SubmittedLast(content, i, submission.value)
  {
    results := [];
    submission := None;
    for i := 0 to |content|
      invariant results == ToolResults(content[..i], tools)
      invariant submission == LastSubmission(content[..i])
    {
      var block := content[i];
      assert content[..i + 1][..i] == content[..i];
      if !block.ToolUse? {
        continue;
      }
      if block.name == "submit_changes" {
        submission := Some(Submission(GetOr(block.input.summary, ""), GetOr(block.input.filesChanged, [])));
        results := results + [ToolResult(block.id, "Changes submitted. Do not continue editing.", false)];
      } else if block.name !in TOOL_HANDLERS {
        results := results + [ToolResult(block.id, "Error: unknown tool '" + block.name + "'.", true)];
      } else {
        match tools(i)
        case Output(text) => results := results + [ToolResult(block.id, text, false)];
        case Raises(error) => results := results + [ToolResult(block.id, "Error: " + error, false)];
      }
    }
    assert content[..|content|] == content;
    ResultsAnswerAll(content, tools);
    ResultsTell(content, tools);
    SubmissionIfAny(content);
    LastIsTaken(content);
    hide AnsweredByPosition, SubmittedLast;
  }

  lemma SubmitsOneMore(blocks: seq<Block>, b: Block)
    ensures SubmitsAny(blocks + [b]) <==> SubmitsAny(blocks) || IsSubmission(b)
  {
    var all := blocks + [b];
    if SubmitsAny(blocks) {
      var i :| 0 <= i < |blocks| && IsSubmission(blocks[i]);
      assert IsSubmission(all[i]);
    }
    if IsSubmission(b) {
      assert IsSubmission(all[|blocks|]);
    }
  }

  // --------------------------------------------------------------- the loop

  datatype LoopError =
    | NoError
    | BudgetExhausted
    | ApiFailed(turn: nat)
    | StoppedWithoutSubmitting
    | UnexpectedStop(reason: string)
    | TurnLimit

  datatype AgentResult = AgentResult(summary: string, filesChanged: seq<string>, error: LoopError)

  function UsageOf(reply: Reply): Usage {
    if reply.Response? then reply.usage else NOTHING
  }

  /** What the first `n` replies used together. */
  function TotalUsage(api: nat -> Reply, n: nat): Usage {
    if n == 0 then NOTHING else TotalUsage(api, n - 1).Plus(UsageOf(api(n - 1)))
  }

  /** The processed reply in which the agent submitted its changes. */
  ghost predicate Submits(reply: Reply) {
    reply.Response? && reply.stopReason == "tool_use" && SubmitsAny(reply.content)
  }

  function TextOf(content: seq<Block>): string {
    if content == [] then "" else (if content[0].Text? then content[0].text else "") + TextOf(content[1..])
  }

  /** All the texts of a message, in order, and nothing else. */
  lemma {:induction false} TextOfAll(a: seq<Block>, b: seq<Block>)
    ensures TextOf(a + b) == TextOf(a) + TextOf(b)
  {
    if a == [] {
      assert a + b == b;
    } else {
      assert (a + b)[1..] == a[1..] + b;
      TextOfAll(a[1..], b);
    }
  }

  lemma TextOfOne(block: Block)
    ensures TextOf([block]) == if block.Text? then block.text else ""
  {
    assert [block][1..] == [];
  }

  /** Passing the 95% check leaves the cost so far strictly below the cap. */
  lemma BelowCap(model: string, budgetDollars: real, used: Usage)
    requires Fraction(model, budgetDollars, used) < 0.95
    ensures budgetDollars > 0.0 && Cost(model, used) < 0.95 * budgetDollars
  {
    hide Cost;
    var cost := Cost(model, used);
    var fraction := cost / budgetDollars;
    assert cost == fraction * budgetDollars;
    assert (0.95 - fraction) * budgetDollars > 0.0;
  }

  /** What the first `n` requests cost: each was sent below 95% of the budget, so
      all of them together stay below that and the last one. */
  ghost predicate WithinBudget(api: nat -> Reply, n: nat, model: string, budgetDollars: real) {
    && (forall k: nat | k < n :: Cost(model, TotalUsage(api, k)) < 0.95 * budgetDollars)
    && (n == 0 ==> Cost(model, TotalUsage(api, n)) == 0.0)
    && (n > 0 ==> budgetDollars > 0.0)
    && (n > 0 ==> Cost(model, TotalUsage(api, n)) < 0.95 * budgetDollars + Cost(model, UsageOf(api(n - 1))))
  }

  lemma OneMoreRequest(api: nat -> Reply, n: nat, model: string, budgetDollars: real)
    requires WithinBudget(api, n, model, budgetDollars)
    requires budgetDollars > 0.0 && Cost(model, TotalUsage(api, n)) < 0.95 * budgetDollars
    ensures WithinBudget(api, n + 1, model, budgetDollars)
  {
    CostAdds(model, TotalUsage(api, n), UsageOf(api(n)));
    hide Cost;
  }

  /** No reply, or only the last of `n`, was a submission. */
  ghost predicate OnlyLastSubmits(api: nat -> Reply, n: nat, submitted: bool) {
    && (forall k: nat | k + 1 < n :: !Submits(api(k)))
    && (submitted <==> n > 0 && Submits(api(n - 1)))
  }

  /** A warning goes out with the requests made at 85% of the budget or more. */
  function WarnWhenDue(model: string, budgetDollars: real, api: nat -> Reply): nat -> bool {
    (k: nat) => Fraction(model, budgetDollars, TotalUsage(api, k)) >= 0.85
  }

  // ------------------------------------------------------------ transcripts

  /** What the tools come to: `tools(turn)(i)` for block `i` of the reply of `turn`. */
  type Tools = nat -> (nat -> ToolOutcome)

  const OPENING := Plain("Begin working on the task.")

  function BlocksOf(reply: Reply): seq<Block> {
    if reply.Response? then reply.content else []
  }

  /** What the model is told at the start of turn `k`, but for a warning. */
  function Told(api: nat -> Reply, tools: Tools, k: nat): Content {
    if k == 0 then OPENING else Parts(ToolResults(BlocksOf(api(k - 1)), tools(k - 1)))
  }

  /** Every reply so far, each with the answers to it; `warn(j)` says before which
      requests a warning was put in, and the last message is `last`. */
  function Conversation(api: nat -> Reply, tools: Tools, warn: nat -> bool, k: nat, last: Content): seq<Message> {
    if k == 0 then [User(last)]
    else
      Conversation(api, tools, warn, k - 1, Marked(warn(k - 1), Told(api, tools, k - 1)))
      + [Assistant(BlocksOf(api(k - 1)))] + [User(last)]
  }

  function Marked(warn: bool, content: Content): Content {
    if warn then WithWarning(content, BUDGET_WARNING) else content
  }

  /** The transcript of request `k`. */
  function Transcript(api: nat -> Reply, tools: Tools, warn: nat -> bool, k: nat): seq<Message> {
    Conversation(api, tools, warn, k, Marked(warn(k), Told(api, tools, k)))
  }

  lemma MarkedAnswers(warn: bool, parts: seq<Part>)
    ensures Marked(warn, Parts(parts)).Parts? && AnsweredIds(Marked(warn, Parts(parts)).parts) == AnsweredIds(parts)
  {
    assert ([Note(BUDGET_WARNING)] + parts)[1..] == parts;
  }

  /** Whatever the model and the tools do, every transcript is ready, before and
      after a warning is put in. */
  lemma {:induction false} ConversationIsReady(api: nat -> Reply, tools: Tools, warn: nat -> bool, k: nat, marked: bool)
    ensures ReadyToSend(Conversation(api, tools, warn, k, Marked(marked, Told(api, tools, k))))
  {
    if k > 0 {
      ConversationIsReady(api, tools, warn, k - 1, warn(k - 1));
      var results := ToolResults(BlocksOf(api(k - 1)), tools(k - 1));
      ResultsAnswerAll(BlocksOf(api(k - 1)), tools(k - 1));
      MarkedAnswers(marked, results);
      TurnKeepsReady(Transcript(api, tools, warn, k - 1), BlocksOf(api(k - 1)), Marked(marked, Parts(results)).parts);
      hide ReadyToSend, Marked, ToolResults, BlocksOf, AnsweredIds, ToolIds;
    }
  }

  /** A user message with an empty list of parts says nothing. */
  predicate SaysSomething(m: Message) {
    m != User(Parts([]))
  }

  ghost predicate NothingEmpty(messages: seq<Message>) {
    forall i | 0 <= i < |messages| :: SaysSomething(messages[i])
  }

  /** A transcript has an empty user message exactly if some reply before asked for
      no tool and no warning went in after it; the loop does not see to that. */
  lemma {:induction false} NothingEmptyExactly(api: nat -> Reply, tools: Tools, warn: nat -> bool, k: nat)
    ensures NothingEmpty(Transcript(api, tools, warn, k)) <==>
            forall j: nat | j < k :: warn(j + 1) || ToolIds(BlocksOf(api(j))) != []
  {
    if k > 0 {
      NothingEmptyExactly(api, tools, warn, k - 1);
      var asked, earlier := BlocksOf(api(k - 1)), Transcript(api, tools, warn, k - 1);
      var told := User(Marked(warn(k), Told(api, tools, k)));
      ResultsCount(asked, tools(k - 1));
      OneTurnEmpty(earlier, asked, told);
      assert warn(k - 1 + 1) == warn(k);
      hide ToolResults, ToolIds, BlocksOf, NothingEmpty;
    }
  }

  lemma OneTurnEmpty(earlier: seq<Message>, asked: seq<Block>, told: Message)
    ensures NothingEmpty(earlier + [Assistant(asked)] + [told]) <==> NothingEmpty(earlier) && SaysSomething(told)
  {
    var all := earlier + [Assistant(asked)] + [told];
    if NothingEmpty(all) {
      assert SaysSomething(all[|earlier| + 1]);
      forall i | 0 <= i < |earlier| ensures SaysSomething(earlier[i]) {
        assert SaysSomething(all[i]);
      }
    }
  }

  /** The next request ends with those answers, behind the warning if there is one. */
  lemma TranscriptTells(api: nat -> Reply, tools: Tools, warn: nat -> bool, k: nat)
    ensures var transcript := Transcript(api, tools, warn, k + 1);
            && transcript != []
            && var last := transcript[|transcript| - 1];
            && last.User? && last.content.Parts?
            && var parts := last.content.parts;
            && (warn(k + 1) ==> parts != [] && parts[0] == Note(BUDGET_WARNING))
            && AnsweredByPosition(if warn(k + 1) then parts[1..] else parts, BlocksOf(api(k)), tools(k))
  {
    ResultsTell(BlocksOf(api(k)), tools(k));
    hide AnsweredByPosition, ToolResults;
    assert ([Note(BUDGET_WARNING)] + ToolResults(BlocksOf(api(k)), tools(k)))[1..] == ToolResults(BlocksOf(api(k)), tools(k));
  }

  /** It begins with the instruction to start, and each message of the model is in it as
      it came. */
  lemma {:induction false} TranscriptQuotes(api: nat -> Reply, tools: Tools, warn: nat -> bool, k: nat, j: nat)
    requires j < k
    ensures var transcript := Transcript(api, tools, warn, k);
            && |transcript| == 2 * k + 1
            && transcript[2 * j + 1] == Assistant(BlocksOf(api(j)))
            && transcript[0] ==
               User(Plain((if warn(0) then BUDGET_WARNING + "\n\n" else "") + "Begin working on the task."))
  {
    hide ToolResults, BlocksOf;
    var earlier := Transcript(api, tools, warn, k - 1);
    assert Transcript(api, tools, warn, k) ==
           earlier + [Assistant(BlocksOf(api(k - 1)))] + [User(Marked(warn(k), Told(api, tools, k)))];
    if j < k - 1 {
      TranscriptQuotes(api, tools, warn, k - 1, j);
    } else if k > 1 {
      TranscriptQuotes(api, tools, warn, k - 1, 0);
    } else {
      assert earlier == [User(Marked(warn(0), OPENING))];
      assert "" + "Begin working on the task." == "Begin working on the task.";
    }
  }

  /** The prices: dollars per million tokens of each kind. */
  lemma PricesAre(model: string)
    ensures var million := 1000000;
            && Cost(model, Usage(million, 0, 0, 0)) == (if model == "claude-opus-4-6" then 5.0 else 3.0)
            && Cost(model, Usage(0, million, 0, 0)) == (if model == "claude-opus-4-6" then 25.0 else 15.0)
            && Cost(model, Usage(0, 0, million, 0)) == (if model == "claude-opus-4-6" then 6.25 else 3.75)
            && Cost(model, Usage(0, 0, 0, million)) == (if model == "claude-opus-4-6" then 0.5 else 0.3)
  {
  }

  // ---------------------------------------------------------------- the run

  /** What the result of a run of `n` requests says about the last reply. */
  ghost predicate Explains(result: AgentResult, api: nat -> Reply, n: nat) {
    match result.error
    case NoError =>
      n > 0 && Submits(api(n - 1)) &&
      LastSubmission(api(n - 1).content) == Some(Submission(result.summary, result.filesChanged))
    case ApiFailed(turn) => n == turn + 1 && api(turn).ApiError?
    case StoppedWithoutSubmitting =>
      n > 0 && api(n - 1).Response? && api(n - 1).stopReason == "end_turn" &&
      result.summary == if TextOf(api(n - 1).content) == "" then "(no final message)" else TextOf(api(n - 1).content)
    case UnexpectedStop(reason) =>
      n > 0 && api(n - 1).Response? && api(n - 1).stopReason == reason && reason !in {"end_turn", "tool_use"}
    case _ => true
  }

  lemma NextConversation(api: nat -> Reply, tools: Tools, warn: nat -> bool, k: nat)
    ensures Conversation(api, tools, warn, k + 1, Told(api, tools, k + 1)) ==
            Transcript(api, tools, warn, k) + [Assistant(BlocksOf(api(k)))] + [User(Parts(ToolResults(BlocksOf(api(k)), tools(k))))]
    ensures ReadyToSend(Transcript(api, tools, warn, k))
    ensures WellFormed(Transcript(api, tools, warn, k))
    ensures WellFormed(Conversation(api, tools, warn, k + 1, Told(api, tools, k + 1)))
  {
    ConversationIsReady(api, tools, warn, k, warn(k));
    ConversationIsReady(api, tools, warn, k + 1, false);
    hide AnsweredAt;
  }

  /** Take the reply to request `turn`: either the run stops with a result, or the
      tools have been run and the loop comes round. */
  method TakeReply(turn: nat, messages: seq<Message>, budget: TokenBudget, api: nat -> Reply, tools: Tools, ghost warn: nat -> bool)
    returns (stop: bool, result: AgentResult, next: seq<Message>)
    requires messages == Transcript(api, tools, warn, turn)
    requires OnlyLastSubmits(api, turn, false)
    modifies budget
    ensures budget.used == old(budget.used).Plus(UsageOf(api(turn)))
    ensures WellFormed(next)
    ensures stop ==> OnlyLastSubmits(api, turn + 1, result.error == NoError)
    ensures stop ==> result.error != TurnLimit && result.error != BudgetExhausted && Explains(result, api, turn + 1)
    ensures !stop ==> result == AgentResult("", [], NoError) && OnlyLastSubmits(api, turn + 1, false)
    ensures !stop ==> next == Conversation(api, tools, warn, turn + 1, Told(api, tools, turn + 1))
  {
    OneMoreReply(api, turn);
    NextConversation(api, tools, warn, turn);
    hide ReadyToSend, WellFormed, OnlyLastSubmits, ToolResults, LastSubmission, SubmitsAny, ToolIds, AnsweredIds,
      TextOf;
    hide Conversation, Transcript, Told;
    stop, result, next := true, AgentResult("", [], NoError), messages;
    var reply := api(turn);
    StopKeepsWellFormed(messages, BlocksOf(reply));
    if reply.ApiError? {
      result := result.(error := ApiFailed(turn));
      return;
    }
    budget.Update(reply.usage);

    if reply.stopReason == "end_turn" {
      next := messages + [Assistant(reply.content)];
      var finalText := TextOf(reply.content);
      result := result.(error := StoppedWithoutSubmitting, summary := if finalText == "" then "(no final message)" else finalText);
      return;
    }
    if reply.stopReason != "tool_use" {
      result := result.(error := UnexpectedStop(reply.stopReason));
      return;
    }

    var results, submission := RunTools(reply.content, tools(turn));
    next := messages + [Assistant(reply.content)] + [User(Parts(results))];
    if submission.Some? {
      result := result.(summary := submission.value.summary, filesChanged := submission.value.filesChanged);
      return;
    }
    stop := false;
  }

  /** The requests made so far, in order, each the model's turn. */
  ghost predicate AllSent(sent: seq<seq<Message>>, api: nat -> Reply, tools: Tools, warn: nat -> bool) {
    forall k | 0 <= k < |sent| :: sent[k] == Transcript(api, tools, warn, k) && ReadyToSend(sent[k])
  }

  lemma SendingOne(sent: seq<seq<Message>>, messages: seq<Message>, api: nat -> Reply, tools: Tools, warn: nat -> bool)
    requires AllSent(sent, api, tools, warn) && messages == Transcript(api, tools, warn, |sent|)
    ensures AllSent(sent + [messages], api, tools, warn)
  {
    ConversationIsReady(api, tools, warn, |sent|, warn(|sent|));
    hide ReadyToSend, Conversation;
  }

  /** Put the budget warning into the last user message when it is due. */
  method Warn(messages: seq<Message>, due: bool,
              ghost api: nat -> Reply, ghost tools: Tools, ghost warn: nat -> bool, ghost turn: nat)
    returns (warned: seq<Message>)
    requires messages == Conversation(api, tools, warn, turn, Told(api, tools, turn))
    requires due == warn(turn)
    ensures warned == Transcript(api, tools, warn, turn)
  {
    hide WithWarning, Told;
    warned := messages;
    var last := messages[|messages| - 1];
    if due && last.User? {
      warned := messages[..|messages| - 1] + [User(WithWarning(last.content, BUDGET_WARNING))];
    }
  }

  /** Run the agent. `api` is what the model answers on each turn and `tools`
      what each requested tool run of a turn comes to; both are arbitrary. The
      transcripts sent, one per request, are returned beside the source's results. */
  method RunAgentLoop(model: string, budgetDollars: real, maxTurns: int, api: nat -> Reply, tools: Tools)
    returns (result: AgentResult, budget: TokenBudget, messages: seq<Message>, sent: seq<seq<Message>>)
    ensures |sent| <= if maxTurns > 0 then maxTurns else 0
    ensures AllSent(sent, api, tools, WarnWhenDue(model, budgetDollars, api))
    ensures WellFormed(messages)
    ensures OnlyLastSubmits(api, |sent|, result.error == NoError) && Explains(result, api, |sent|)
    ensures result.error == TurnLimit ==> |sent| == if maxTurns > 0 then maxTurns else 0
    ensures result.error == BudgetExhausted ==> Fraction(model, budgetDollars, TotalUsage(api, |sent|)) >= 0.95
    ensures WithinBudget(api, |sent|, model, budgetDollars)
    ensures budget.used == TotalUsage(api, |sent|) && budget.model == model && budget.budgetDollars == budgetDollars
  {
    hide Fraction, WellFormed, Transcript, Told, WithinBudget, OnlyLastSubmits, Explains;
    hide Cost, TotalUsage, UsageOf, Usage.Plus, WarnWhenDue, TextOf;
    budget := new TokenBudget(budgetDollars, model);
    result := AgentResult("", [], NoError);
    messages := [User(OPENING)];
    sent := [];
    ghost var warn := WarnWhenDue(model, budgetDollars, api);
    Opening(api, tools, warn, model, budgetDollars);
    hide Conversation, AllSent;
    var turns := if maxTurns > 0 then maxTurns else 0;
    for turn := 0 to turns
      invariant |sent| == turn && result == AgentResult("", [], NoError)
      invariant AllSent(sent, api, tools, warn)
      invariant messages == Conversation(api, tools, warn, turn, Told(api, tools, turn)) && WellFormed(messages)
      invariant OnlyLastSubmits(api, turn, false) && WithinBudget(api, turn, model, budgetDollars)
      invariant budget.used == TotalUsage(api, turn) && budget.model == model && budget.budgetDollars == budgetDollars
    {
      if budget.FractionUsed() >= 0.95 {
        result := result.(error := BudgetExhausted);
        ExplainsStop(result, api, turn);
        return;
      }
      BelowCap(model, budgetDollars, budget.used);
      OneMoreRequest(api, turn, model, budgetDollars);
      NextUsage(model, budgetDollars, api, turn);
      messages := Warn(messages, budget.FractionUsed() >= 0.85, api, tools, warn, turn);
      SendingOne(sent, messages, api, tools, warn);
      sent := sent + [messages];
      var stop;
      stop, result, messages := TakeReply(turn, messages, budget, api, tools, warn);
      if stop {
        return;
      }
    }
    result := result.(error := TurnLimit);
    ExplainsStop(result, api, turns);
  }

  lemma Opening(api: nat -> Reply, tools: Tools, warn: nat -> bool, model: string, budgetDollars: real)
    ensures [User(OPENING)] == Conversation(api, tools, warn, 0, Told(api, tools, 0)) && WellFormed([User(OPENING)])
    ensures WithinBudget(api, 0, model, budgetDollars) && OnlyLastSubmits(api, 0, false) && AllSent([], api, tools, warn)
    ensures TotalUsage(api, 0) == NOTHING
  {
  }

  lemma NextUsage(model: string, budgetDollars: real, api: nat -> Reply, k: nat)
    ensures TotalUsage(api, k + 1) == TotalUsage(api, k).Plus(UsageOf(api(k)))
    ensures WarnWhenDue(model, budgetDollars, api)(k) <==> Fraction(model, budgetDollars, TotalUsage(api, k)) >= 0.85
  {
  }

  lemma OneMoreReply(api: nat -> Reply, n: nat)
    requires OnlyLastSubmits(api, n, false)
    ensures OnlyLastSubmits(api, n + 1, Submits(api(n)))
  {
  }

  lemma ExplainsStop(result: AgentResult, api: nat -> Reply, n: nat)
    requires result.error == TurnLimit || result.error == BudgetExhausted
    ensures Explains(result, api, n)
  {
  }
}
