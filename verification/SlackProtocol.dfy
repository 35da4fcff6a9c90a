/** The streaming reply as an interleaving of its three tasks and Slack. */
module SlackProtocol {
  import opened Options
  import opened Text
  import opened SlackStream

  // ------------------------------------------------------------------ state

  datatype Call = Start(text: string) | Append(text: string) | Stop | Post(text: string)

  /** What a call comes to. `Lost` is accepted by Slack all the same. */
  datatype Reply = Replied(ts: Option<string>) | Refused | Lost

  /** A call on Slack and what it came to. */
  datatype Event = Event(call: Call, reply: Reply) {
    predicate Accepted() {
      !reply.Refused?
    }
  }

  datatype Producer = Producing | Ended | Failing

  datatype Sender = Waiting | Sending(text: string) | SenderDone | SenderFailed

  datatype Stage =
    | AtHead | Waking | Draining | Joining | JoiningProducer
    | Posting | Stopping | Cleaning
    | Returned(text: string) | Raised

  /** `taken` are the slices the sender has taken so far, `log` the calls made. */
  datatype State = State(
    produced: seq<string>, producer: Producer,
    queue: Queue, pending: string, done: bool, sendQueue: Queue,
    sender: Sender, taken: seq<string>, streamTs: Option<string>,
    log: seq<Event>, stage: Stage)

  const INITIAL := State([], Producing, [], "", false, [], Waiting, [], None, [], AtHead)

  // ------------------------------------------------------------------ steps

  datatype Action =
    | Produce(chunk: string)
    | EndProducer(failing: bool)
    | Head
    | Wake(timedOut: bool, tooSoon: bool)
    | DrainOne
    | Take
    | Answer(reply: Reply)
    | Join
    | JoinProducer
    | Finish(reply: Reply)

  predicate SenderFinished(s: State) {
    s.sender.SenderDone? || s.sender.SenderFailed?
  }

  predicate Enabled(s: State, a: Action) {
    match a
    case Produce(_) => s.producer.Producing?
    case EndProducer(_) => s.producer.Producing?
    case Head => s.stage.AtHead?
    case Wake(timedOut, _) => s.stage.Waking? && (timedOut || s.queue != [])
    case DrainOne => s.stage.Draining?
    case Take => s.sender.Waiting? && s.sendQueue != []
    case Answer(_) => s.sender.Sending?
    case Join => s.stage.Joining? && SenderFinished(s)
    case JoinProducer => s.stage.JoiningProducer? && !s.producer.Producing?
    case Finish(_) => s.stage.Posting? || s.stage.Stopping? || s.stage.Cleaning?
  }

  /** The rest of a turn of the tick loop, once it wakes. */
  function Ticked(s: State, tooSoon: bool): State {
    var gathered := s.pending + TextIn(s.queue);
    var done := s.done || HasEnd(s.queue);
    var n := TickRelease(gathered, tooSoon, done);
    s.(queue := [], done := done, pending := gathered[n..],
       sendQueue := s.sendQueue + if n == 0 then [] else [Some(gathered[..n])],
       stage := if done then Draining else AtHead)
  }

  /** One slice of what is left, or the end marker when nothing is. */
  function Drained(s: State): State {
    if s.pending == "" then s.(sendQueue := s.sendQueue + [None], stage := Joining)
    else
      var n := PickRelease(s.pending);
      s.(pending := s.pending[n..], sendQueue := s.sendQueue + [Some(s.pending[..n])])
  }

  function Taken(s: State): State
    requires s.sendQueue != []
  {
    if s.sendQueue[0].None? then s.(sendQueue := s.sendQueue[1..], sender := SenderDone)
    else s.(sendQueue := s.sendQueue[1..], sender := Sending(s.sendQueue[0].value), taken := s.taken + [s.sendQueue[0].value])
  }

  /** The first text starts the stream, the others append to it. */
  function SendCall(s: State, text: string): Call {
    if s.streamTs.None? then Start(text) else Append(text)
  }

  function Answered(s: State, reply: Reply): State
    requires s.sender.Sending?
  {
    var call := SendCall(s, s.sender.text);
    var logged := s.(log := s.log + [Event(call, reply)]);
    if !reply.Replied? then logged.(sender := SenderFailed)
    else if call.Start? then logged.(sender := Waiting, streamTs := reply.ts)
    else logged.(sender := Waiting)
  }

  /** The last call: the post of a reply without a stream, the stop of a finished
      stream, or the stop that cleans up after an error. */
  function Finished(s: State, reply: Reply): State {
    var full := Concat(s.produced);
    if s.stage.Cleaning? then
      if s.streamTs.Some? then s.(log := s.log + [Event(Stop, reply)], stage := Raised) else s.(stage := Raised)
    else
      var call := if s.stage.Posting? then Post(if full == "" then "(empty response)" else full) else Stop;
      s.(log := s.log + [Event(call, reply)], stage := if reply.Replied? then Returned(full) else Cleaning)
  }

  function Apply(s: State, a: Action): State
    requires Enabled(s, a)
  {
    match a
    case Produce(chunk) => s.(produced := s.produced + [chunk], queue := s.queue + [Some(chunk)])
    case EndProducer(failing) => s.(producer := if failing then Failing else Ended, queue := s.queue + [None])
    case Head => s.(stage := if s.sender.SenderFailed? then Draining else Waking)
    case Wake(_, tooSoon) => Ticked(s, tooSoon)
    case DrainOne => Drained(s)
    case Take => Taken(s)
    case Answer(reply) => Answered(s, reply)
    case Join => s.(stage := if s.sender.SenderFailed? then Cleaning else JoiningProducer)
    case JoinProducer => s.(stage := if s.producer.Failing? then Cleaning else if s.streamTs.None? then Posting else Stopping)
    case Finish(reply) => Finished(s, reply)
  }

  // ----------------------------------------------------------- conservation

  /** Nothing the agent has produced is lost, doubled or reordered on its way: what the
      sender has taken, what it has yet to take, what is pending and what is queued
      make up the produced text. */
  predicate Conserved(s: State) {
    Flow(s.taken, s.sendQueue, s.pending, s.queue) == Concat(s.produced)
  }

  function Flow(taken: seq<string>, sendQueue: Queue, pending: string, queue: Queue): string {
    Concat(taken) + TextIn(sendQueue) + pending + TextIn(queue)
  }

  lemma ConservedOneMore(parts: seq<string>, part: string, queue: Queue)
    ensures Concat(parts + [part]) == Concat(parts) + part
    ensures TextIn(queue + [Some(part)]) == TextIn(queue) + part && TextIn(queue + [None]) == TextIn(queue)
  {
    ConcatPush(parts, part);
    TextInAppends(queue, Some(part));
    TextInAppends(queue, None);
  }

  /** Moving text from the front of what is pending and queued to the send queue. */
  lemma SliceFlows(taken: seq<string>, sendQueue: Queue, pending: string, queue: Queue, slice: string, rest: string)
    requires slice + rest == pending + TextIn(queue)
    ensures Flow(taken, sendQueue + [Some(slice)], rest, []) == Flow(taken, sendQueue, pending, queue)
  {
    ConservedOneMore([], slice, sendQueue);
    var a, b, t := Concat(taken), TextIn(sendQueue), TextIn(queue);
    assert TextIn([]) == "";
    hide Concat, TextIn;
    assert a + (b + slice) + rest == a + b + (slice + rest);
    assert a + b + (pending + t) == a + b + pending + t;
  }

  lemma GatherFlows(taken: seq<string>, sendQueue: Queue, pending: string, queue: Queue)
    ensures Flow(taken, sendQueue, pending + TextIn(queue), []) == Flow(taken, sendQueue, pending, queue)
  {
    var a, t := Concat(taken) + TextIn(sendQueue), TextIn(queue);
    assert TextIn([]) == "";
    hide Concat, TextIn;
    assert a + (pending + t) == a + pending + t;
  }

  lemma TickConserves(s: State, tooSoon: bool)
    requires Conserved(s)
    ensures Conserved(Ticked(s, tooSoon))
  {
    var gathered := s.pending + TextIn(s.queue);
    var n := TickRelease(gathered, tooSoon, s.done || HasEnd(s.queue));
    hide TickRelease, HasEnd;
    GatherFlows(s.taken, s.sendQueue, s.pending, s.queue);
    assert gathered == gathered[..n] + gathered[n..];
    SliceFlows(s.taken, s.sendQueue, s.pending, s.queue, gathered[..n], gathered[n..]);
    assert s.sendQueue + [] == s.sendQueue && gathered[0..] == gathered;
    hide Flow, Concat, TextIn;
  }

  lemma DrainFlows(taken: seq<string>, sendQueue: Queue, slice: string, rest: string, queue: Queue)
    ensures Flow(taken, sendQueue + [Some(slice)], rest, queue) == Flow(taken, sendQueue, slice + rest, queue)
  {
    ConservedOneMore([], slice, sendQueue);
    var a, b := Concat(taken), TextIn(sendQueue);
    hide Concat, TextIn;
    assert a + (b + slice) + rest == a + b + (slice + rest);
  }

  lemma DrainConserves(s: State)
    requires Conserved(s)
    ensures Conserved(Drained(s))
  {
    if s.pending == "" {
      TextInAppends(s.sendQueue, None);
      hide Concat, TextIn;
    } else {
      var n := PickRelease(s.pending);
      DrainFlows(s.taken, s.sendQueue, s.pending[..n], s.pending[n..], s.queue);
      assert s.pending == s.pending[..n] + s.pending[n..];
      hide Flow, Concat, TextIn, PickRelease;
    }
  }

  lemma TakeConserves(s: State)
    requires Conserved(s) && s.sendQueue != []
    ensures Conserved(Taken(s))
  {
    if s.sendQueue[0].Some? {
      ConservedOneMore(s.taken, s.sendQueue[0].value, []);
      hide Concat;
      var first, rest := s.sendQueue[0].value, TextIn(s.sendQueue[1..]);
      assert TextIn(s.sendQueue) == first + rest;
      hide TextIn;
      assert Concat(s.taken) + (first + rest) == Concat(s.taken) + first + rest;
    }
  }

  lemma ProduceConserves(s: State, a: Action)
    requires Conserved(s) && Enabled(s, a) && (a.Produce? || a.EndProducer?)
    ensures Conserved(Apply(s, a))
  {
    var chunk := if a.Produce? then a.chunk else "";
    ConservedOneMore(s.produced, chunk, s.queue);
    hide Concat, TextIn;
    var before := Concat(s.taken) + TextIn(s.sendQueue) + s.pending;
    assert before + (TextIn(s.queue) + chunk) == before + TextIn(s.queue) + chunk;
  }

  /** The other steps move no text. */
  lemma QuietStep(s: State, a: Action)
    requires Enabled(s, a) && (a.Head? || a.Answer? || a.Join? || a.JoinProducer? || a.Finish?)
    ensures var t := Apply(s, a);
            && t.produced == s.produced && t.producer == s.producer && t.queue == s.queue && t.pending == s.pending
            && t.done == s.done && t.sendQueue == s.sendQueue && t.taken == s.taken
  {
    hide Concat;
  }

  /** Every step of every task keeps the law. */
  lemma StepConserves(s: State, a: Action)
    requires Conserved(s) && Enabled(s, a)
    ensures Conserved(Apply(s, a))
  {
    if a.Produce? || a.EndProducer? {
      ProduceConserves(s, a);
    } else if a.Wake? {
      TickConserves(s, a.tooSoon);
    } else if a.DrainOne? {
      DrainConserves(s);
    } else if a.Take? {
      TakeConserves(s);
    } else {
      QuietStep(s, a);
      hide Apply, Concat, TextIn;
    }
    hide Conserved, Ticked, Drained, Taken;
  }
}
