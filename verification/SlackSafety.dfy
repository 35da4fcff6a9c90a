/** What every interleaving of the streaming reply keeps, and what its exits mean. */
module SlackSafety {
  import opened Options
  import opened Text
  import opened SlackStream
  import opened SlackProtocol

  // -------------------------------------------------------------- invariant

  predicate Slice(text: string) {
    1 <= |text| <= 60
  }

  /** Whatever goes to the sender is a slice of 1 to 60 characters. */
  predicate Sliced(s: State) {
    && (forall i | 0 <= i < |s.sendQueue| && s.sendQueue[i].Some? :: Slice(s.sendQueue[i].value))
    && (forall i | 0 <= i < |s.taken| :: Slice(s.taken[i]))
  }

  predicate LoopOver(s: State) {
    !s.stage.AtHead? && !s.stage.Waking? && !s.stage.Draining?
  }

  /** The producer's end marker comes last and ends the loop. */
  predicate ProducerOrdered(s: State) {
    && EndsLast(s.queue)
    && (s.producer.Producing? ==> !HasEnd(s.queue) && !s.done)
    && (!s.producer.Producing? ==> s.done || HasEnd(s.queue))
    && (s.done ==> s.queue == [])
  }

  /** The loop ends when the producer's marker has been seen or a send has failed; its
      own marker comes last and ends the sender. */
  predicate SenderOrdered(s: State) {
    && EndsLast(s.sendQueue)
    && (s.stage.AtHead? || s.stage.Waking? ==> !s.done)
    && (s.stage.Draining? ==> s.done || s.sender.SenderFailed?)
    && (LoopOver(s) ==> s.pending == "" && (s.done || s.sender.SenderFailed?) && (HasEnd(s.sendQueue) <==> !s.sender.SenderDone?))
    && (!LoopOver(s) ==> !HasEnd(s.sendQueue) && !s.sender.SenderDone?)
    && (s.sender.SenderDone? ==> s.sendQueue == [])
  }

  /** Which stages the sender has finished before, and how. */
  predicate Staged(s: State) {
    && (s.stage.JoiningProducer? || s.stage.Posting? || s.stage.Stopping? || s.stage.Returned? ==> s.sender.SenderDone?)
    && (s.stage.Cleaning? || s.stage.Raised? ==> SenderFinished(s))
    && (s.stage.Posting? ==> s.streamTs.None?)
    && (s.stage.Stopping? ==> s.streamTs.Some?)
  }

  predicate Closing(s: State) {
    s.stage.Posting? || s.stage.Stopping? || s.stage.Cleaning? || s.stage.Returned? || s.stage.Raised?
  }

  /** How many of the slices taken have been sent. */
  function Sends(s: State): nat {
    if s.sender.Sending? && s.taken != [] then |s.taken| - 1 else |s.taken|
  }

  predicate SendOf(call: Call, text: string) {
    call == Start(text) || call == Append(text)
  }

  predicate IsSend(call: Call) {
    call.Start? || call.Append?
  }

  /** Entry `i` of the log sends slice `i`, and only the last send may have failed. */
  predicate SentAt(s: State, i: nat)
    requires i < |s.log| && i < |s.taken|
  {
    SendOf(s.log[i].call, s.taken[i]) && (s.log[i].Accepted() || (s.sender.SenderFailed? && i == Sends(s) - 1))
  }

  predicate SendsLogged(s: State) {
    && (s.sender.Sending? ==> s.taken != [] && s.taken[|s.taken| - 1] == s.sender.text)
    && Sends(s) <= |s.log|
    && (s.sender.SenderFailed? ==> Sends(s) > 0 && !s.log[Sends(s) - 1].reply.Replied?)
    && (forall i: nat | i < Sends(s) :: SentAt(s, i))
    && (!Closing(s) ==> |s.log| == Sends(s))
  }

  /** A start call that was answered with a timestamp ... */
  predicate GivesTs(e: Event) {
    e.call.Start? && e.reply.Replied? && e.reply.ts.Some?
  }

  /** ... makes the stream known. */
  predicate Known(log: seq<Event>) {
    exists i :: 0 <= i < |log| && GivesTs(log[i])
  }

  /** The first call started a stream, and its answer had no timestamp. */
  predicate FirstUnknown(log: seq<Event>) {
    log != [] && log[0].call.Start? && log[0].reply == Replied(None)
  }

  /** Sends are start calls until one of them is answered with a timestamp. */
  predicate Starts(s: State) {
    && Sends(s) <= |s.log|
    && (s.streamTs.Some? <==> Known(s.log))
    && (s.streamTs.None? ==> forall i: nat | i < Sends(s) :: s.log[i].call.Start?)
    && (Sends(s) > 0 ==> GivesTs(s.log[0]) || FirstUnknown(s.log) || (Sends(s) == 1 && s.sender.SenderFailed?))
    && (Sends(s) > 0 && GivesTs(s.log[0]) ==> forall i: nat | 0 < i < Sends(s) :: s.log[i].call.Append?)
    && (Sends(s) > 1 && FirstUnknown(s.log) ==> s.log[1].call.Start?)
  }

  /** After the sends come only the calls that close the reply: stops of a known
      stream, or one post. */
  predicate ClosedBy(s: State) {
    && Sends(s) <= |s.log|
    && (forall i | Sends(s) <= i < |s.log| :: s.log[i].call == ClosingCall(s))
    && (|s.log| > Sends(s) && s.streamTs.None? ==> s.sender.SenderDone? && |s.log| == Sends(s) + 1)
    && (s.stage.Posting? || s.stage.Stopping? ==> |s.log| == Sends(s))
    && (s.stage.Raised? && s.streamTs.Some? ==> |s.log| > Sends(s))
    && (s.stage.Returned? ==>
          && s.stage.text == Concat(s.produced) && |s.log| == Sends(s) + 1 && s.log[Sends(s)].Accepted())
  }

  function ClosingCall(s: State): Call {
    var full := Concat(s.produced);
    if s.streamTs.Some? then Stop else Post(if full == "" then "(empty response)" else full)
  }

  predicate Inv(s: State) {
    Conserved(s) && Sliced(s) && ProducerOrdered(s) && SenderOrdered(s) && Staged(s) && SendsLogged(s) && Starts(s) && ClosedBy(s)
  }

  // ------------------------------------------------------------------ steps

  lemma StepKeepsSliced(s: State, a: Action)
    requires Sliced(s) && Enabled(s, a)
    ensures Sliced(Apply(s, a))
  {
    hide Concat, TextIn;
  }

  lemma EndOfRest(queue: Queue)
    requires queue != [] && EndsLast(queue)
    ensures queue[0].None? ==> queue[1..] == [] && HasEnd(queue)
    ensures queue[0].Some? ==> HasEnd(queue[1..]) == HasEnd(queue)
    ensures EndsLast(queue[1..])
  {
  }

  lemma EndOfLonger(queue: Queue, item: Option<string>)
    requires EndsLast(queue) && !HasEnd(queue)
    ensures EndsLast(queue + [item]) && (HasEnd(queue + [item]) <==> item.None?)
  {
  }

  lemma StepKeepsProducerOrdered(s: State, a: Action)
    requires ProducerOrdered(s) && Enabled(s, a)
    ensures ProducerOrdered(Apply(s, a))
  {
    if a.Produce? {
      EndOfLonger(s.queue, Some(a.chunk));
    } else if a.EndProducer? {
      EndOfLonger(s.queue, None);
    }
    assert EndsLast([]) && !HasEnd([]);
    hide Concat, TextIn, TickRelease, PickRelease, EndsLast, HasEnd;
  }

  lemma ReleasingKeepsSenderOrdered(s: State, a: Action)
    requires SenderOrdered(s) && Enabled(s, a) && (a.Wake? || a.DrainOne?)
    ensures SenderOrdered(Apply(s, a))
  {
    forall item ensures EndsLast(s.sendQueue + [item]) && (HasEnd(s.sendQueue + [item]) <==> item.None?) {
      EndOfLonger(s.sendQueue, item);
    }
    assert s.sendQueue + [] == s.sendQueue;
    hide TextIn, TickRelease, PickRelease, EndsLast, HasEnd;
  }

  lemma TakingKeepsSenderOrdered(s: State)
    requires SenderOrdered(s) && Staged(s) && Enabled(s, Take)
    ensures SenderOrdered(Taken(s))
  {
    EndOfRest(s.sendQueue);
    hide EndsLast, HasEnd;
  }

  lemma StepKeepsSenderOrdered(s: State, a: Action)
    requires SenderOrdered(s) && Staged(s) && Enabled(s, a)
    ensures SenderOrdered(Apply(s, a))
  {
    if a.Wake? || a.DrainOne? {
      ReleasingKeepsSenderOrdered(s, a);
    } else if a.Take? {
      TakingKeepsSenderOrdered(s);
    } else {
      hide EndsLast, HasEnd, Concat;
    }
    hide Taken, Ticked, Drained, EndsLast, HasEnd, Concat;
  }

  lemma StepKeepsStaged(s: State, a: Action)
    requires SenderOrdered(s) && Staged(s) && Enabled(s, a)
    ensures Staged(Apply(s, a))
  {
    hide Concat, TextIn, TickRelease, PickRelease, EndsLast, HasEnd;
  }

  /** The steps that make no call and finish none. */
  predicate Silent(a: Action) {
    !a.Take? && !a.Answer? && !a.Finish?
  }

  lemma SilentStep(s: State, a: Action)
    requires Enabled(s, a) && Silent(a)
    ensures var t := Apply(s, a);
            && t.sender == s.sender && t.taken == s.taken && t.log == s.log
            && t.streamTs == s.streamTs
            && (Closing(s) ==> t.stage == s.stage)
            && t.stage.Returned? == s.stage.Returned? && t.stage.Raised? == s.stage.Raised?
            && (Closing(t) && !Closing(s) ==> (s.stage.Joining? || s.stage.JoiningProducer?) && t.produced == s.produced)
  {
    hide Concat, TextIn, TickRelease, PickRelease, EndsLast, HasEnd;
  }

  lemma SilentKeepsLog(s: State, a: Action)
    requires SendsLogged(s) && Starts(s) && ClosedBy(s) && Staged(s) && ProducerOrdered(s) && SenderOrdered(s)
    requires Enabled(s, a) && Silent(a)
    ensures SendsLogged(Apply(s, a)) && Starts(Apply(s, a)) && ClosedBy(Apply(s, a))
  {
    var t := Apply(s, a);
    SilentStep(s, a);
    AllIsQuiet(s, a);
    hide Apply, Enabled, Concat, EndsLast, HasEnd;
    forall i: nat | i < Sends(t) ensures SentAt(t, i) {
      assert SentAt(s, i);
    }
  }

  /** Once the sender has finished normally nothing more is produced, and after a
      normal return no task has anything left to do. */
  lemma AllIsQuiet(s: State, a: Action)
    requires Staged(s) && ProducerOrdered(s) && SenderOrdered(s) && Enabled(s, a) && Silent(a)
    ensures !s.stage.Returned?
    ensures s.sender.SenderDone? ==> Apply(s, a).produced == s.produced
  {
    hide EndsLast, HasEnd, Concat, TickRelease, PickRelease;
  }

  lemma KnownOneMore(log: seq<Event>, e: Event)
    ensures Known(log + [e]) <==> Known(log) || GivesTs(e)
  {
    var all := log + [e];
    if Known(log) {
      var i :| 0 <= i < |log| && GivesTs(log[i]);
      assert GivesTs(all[i]);
    }
    if GivesTs(e) {
      assert GivesTs(all[|log|]);
    }
  }

  lemma TakingKeepsLog(s: State)
    requires SendsLogged(s) && Starts(s) && ClosedBy(s) && Staged(s) && SenderOrdered(s) && Enabled(s, Take)
    ensures SendsLogged(Taken(s)) && Starts(Taken(s)) && ClosedBy(Taken(s))
  {
    var t := Taken(s);
    hide Concat, EndsLast, HasEnd;
    assert Sends(t) == Sends(s);
    forall i: nat | i < Sends(t) ensures SentAt(t, i) {
      assert SentAt(s, i);
    }
  }

  lemma AnsweringKeepsLog(s: State, reply: Reply)
    requires SendsLogged(s) && Starts(s) && ClosedBy(s) && Staged(s) && Enabled(s, Answer(reply))
    ensures SendsLogged(Answered(s, reply)) && Starts(Answered(s, reply)) && ClosedBy(Answered(s, reply))
  {
    var t := Answered(s, reply);
    KnownOneMore(s.log, t.log[|s.log|]);
    hide Concat, Known;
    assert t.log == s.log + [t.log[|s.log|]];
    assert !Closing(s);
    assert Sends(t) == Sends(s) + 1 == |s.taken|;
    forall i: nat | i < Sends(t) ensures SentAt(t, i) {
      if i < Sends(s) {
        assert SentAt(s, i);
      }
    }
  }

  lemma FinishingKeepsLog(s: State, reply: Reply)
    requires SendsLogged(s) && Starts(s) && ClosedBy(s) && Staged(s) && Enabled(s, Finish(reply))
    ensures SendsLogged(Finished(s, reply)) && Starts(Finished(s, reply)) && ClosedBy(Finished(s, reply))
  {
    var t := Finished(s, reply);
    hide Concat, Known;
    if |t.log| > |s.log| {
      KnownOneMore(s.log, t.log[|s.log|]);
      assert t.log == s.log + [t.log[|s.log|]];
    }
    assert Sends(t) == Sends(s);
    hide ClosedBy, Staged;
    forall i: nat | i < Sends(t) ensures SentAt(t, i) {
      assert SentAt(s, i);
    }
    FinishingKeepsClosed(s, reply);
    hide Finished;
  }

  lemma FinishingKeepsClosed(s: State, reply: Reply)
    requires Sends(s) <= |s.log| && ClosedBy(s) && Staged(s) && Enabled(s, Finish(reply))
    ensures ClosedBy(Finished(s, reply))
  {
    hide Concat;
  }

  /** Every step of every task keeps the whole invariant. */
  lemma StepKeepsInv(s: State, a: Action)
    requires Inv(s) && Enabled(s, a)
    ensures Inv(Apply(s, a))
  {
    StepConserves(s, a);
    StepKeepsSliced(s, a);
    StepKeepsProducerOrdered(s, a);
    StepKeepsSenderOrdered(s, a);
    StepKeepsStaged(s, a);
    if a.Take? {
      TakingKeepsLog(s);
    } else if a.Answer? {
      AnsweringKeepsLog(s, a.reply);
    } else if a.Finish? {
      FinishingKeepsLog(s, a.reply);
    } else {
      SilentKeepsLog(s, a);
    }
    hide Conserved, Sliced, ProducerOrdered, SenderOrdered, Staged, SendsLogged, Starts, ClosedBy, Taken, Answered,
      Finished;
  }

  lemma InitialIsFine()
    ensures Inv(INITIAL)
  {
  }

  // ------------------------------------------------------------- whole runs

  ghost predicate Possible(s: State, run: seq<Action>)
    decreases |run|
  {
    run == [] || (Enabled(s, run[0]) && Possible(Apply(s, run[0]), run[1..]))
  }

  ghost function After(s: State, run: seq<Action>): State
    requires Possible(s, run)
    decreases |run|
  {
    if run == [] then s else After(Apply(s, run[0]), run[1..])
  }

  lemma {:induction false} RunKeepsInv(s: State, run: seq<Action>)
    requires Inv(s) && Possible(s, run)
    ensures Inv(After(s, run))
    decreases |run|
  {
    hide Inv, Apply, Enabled;
    if run != [] {
      StepKeepsInv(s, run[0]);
      RunKeepsInv(Apply(s, run[0]), run[1..]);
    }
  }

  /** The texts Slack has accepted on its streams, in order. */
  function AcceptedTexts(log: seq<Event>): seq<string> {
    if log == [] then []
    else
      var last := log[|log| - 1];
      AcceptedTexts(log[..|log| - 1]) + if last.Accepted() && IsSend(last.call) then [last.call.text] else []
  }

  predicate Prefix(a: string, b: string) {
    |a| <= |b| && b[..|a|] == a
  }

  lemma {:induction false} AcceptedSends(log: seq<Event>, taken: seq<string>, n: nat)
    requires n <= |log| && n <= |taken|
    requires forall i: nat | i < n :: SendOf(log[i].call, taken[i]) && log[i].Accepted()
    ensures AcceptedTexts(log[..n]) == taken[..n]
  {
    if n > 0 {
      AcceptedSends(log, taken, n - 1);
      assert log[..n][..n - 1] == log[..n - 1];
      assert taken[..n] == taken[..n - 1] + [taken[n - 1]];
    }
  }

  lemma {:induction false} ClosingAddsNoText(log: seq<Event>, n: nat)
    requires n <= |log| && forall i | n <= i < |log| :: !log[i].Accepted() || !IsSend(log[i].call)
    ensures AcceptedTexts(log) == AcceptedTexts(log[..n])
  {
    if n == |log| {
      assert log[..n] == log;
    } else {
      ClosingAddsNoText(log[..|log| - 1], n);
      assert log[..|log| - 1][..n] == log[..n];
    }
  }

  /** Slack's accepted texts are the slices sent, but for a last one that failed. */
  lemma AcceptedAreTaken(s: State)
    requires Inv(s)
    ensures exists n: nat ::
              n <= Sends(s) && n <= |s.taken| && AcceptedTexts(s.log) == s.taken[..n] && (!s.sender.SenderFailed? ==> n == Sends(s))
  {
    hide Conserved, Sliced, ProducerOrdered, SenderOrdered, Staged, Starts;
    var n: nat := Sends(s);
    if n > 0 {
      assert SentAt(s, n - 1);
      n := if s.log[n - 1].Accepted() then n else n - 1;
    }
    forall i: nat | i < n ensures SendOf(s.log[i].call, s.taken[i]) && s.log[i].Accepted() {
      assert SentAt(s, i);
    }
    AcceptedSends(s.log, s.taken, n);
    ClosingAddsNoText(s.log, n);
  }

  lemma SlicesHaveText(parts: seq<string>)
    requires parts != [] && forall i | 0 <= i < |parts| :: Slice(parts[i])
    ensures Concat(parts) != ""
  {
    assert |Concat(parts)| >= |parts[0]|;
  }

  // ----------------------------------------------------------- main results

  /** In every interleaving nothing is lost, doubled or reordered. */
  lemma AlwaysConserved(run: seq<Action>)
    requires Possible(INITIAL, run)
    ensures Conserved(After(INITIAL, run))
  {
    InitialIsFine();
    RunKeepsInv(INITIAL, run);
    hide Conserved, Possible, After;
  }

  lemma AllDelivered(s: State)
    requires Inv(s) && s.sender.SenderDone?
    ensures Concat(s.taken) == Concat(s.produced) && AcceptedTexts(s.log) == s.taken
  {
    AcceptedAreTaken(s);
    assert s.taken[..|s.taken|] == s.taken;
    assert TextIn([]) == "";
    hide SendsLogged, ClosedBy, Starts, Concat, TextIn, AcceptedTexts;
  }

  /** Every text Slack shows, streamed or posted. */
  function ReceivedTexts(log: seq<Event>): seq<string> {
    if log == [] then []
    else
      var last := log[|log| - 1];
      ReceivedTexts(log[..|log| - 1]) + if last.Accepted() && !last.call.Stop? then [last.call.text] else []
  }

  function Received(log: seq<Event>): string {
    Concat(ReceivedTexts(log))
  }

  predicate Posted(e: Event) {
    e.call.Post? && e.Accepted()
  }

  lemma {:induction false} StreamedAreReceived(log: seq<Event>)
    requires forall i | 0 <= i < |log| :: !Posted(log[i])
    ensures ReceivedTexts(log) == AcceptedTexts(log)
  {
    if log != [] {
      StreamedAreReceived(log[..|log| - 1]);
    }
  }

  /** What Slack shows: the streamed texts, and behind them the post if there is one. */
  lemma ReceivedIs(s: State)
    requires Inv(s)
    ensures (forall i | 0 <= i < |s.log| :: !Posted(s.log[i])) ==> Received(s.log) == Concat(AcceptedTexts(s.log))
    ensures (exists i :: 0 <= i < |s.log| && Posted(s.log[i])) ==>
              s.streamTs.None? && s.sender.SenderDone? && Received(s.log) == Concat(AcceptedTexts(s.log)) + ClosingCall(s).text
  {
    hide Conserved, Sliced, ProducerOrdered, SenderOrdered, Staged, Starts, Concat;
    forall i: nat | i < Sends(s) ensures !s.log[i].call.Post? {
      assert SentAt(s, i);
    }
    if exists i :: 0 <= i < |s.log| && Posted(s.log[i]) {
      var n := |s.log| - 1;
      assert n == Sends(s) && Posted(s.log[n]);
      StreamedAreReceived(s.log[..n]);
      ConcatPush(ReceivedTexts(s.log[..n]), s.log[n].call.text);
      assert AcceptedTexts(s.log) == AcceptedTexts(s.log[..n]);
      assert ReceivedTexts(s.log) == ReceivedTexts(s.log[..n]) + [s.log[n].call.text];
    } else {
      StreamedAreReceived(s.log);
    }
  }

  /** The calls of a reply that went well: one start, then appends, then the stop. */
  predicate StreamedWhole(s: State) {
    && |s.log| == |s.taken| + 1 && s.taken != []
    && s.log[0].call == Start(s.taken[0])
    && (forall i | 1 <= i < |s.taken| :: s.log[i].call == Append(s.taken[i]))
    && s.log[|s.taken|].call == Stop
    && (forall i | 0 <= i < |s.log| :: s.log[i].Accepted())
  }

  predicate AStop(log: seq<Event>) {
    exists i :: 0 <= i < |log| && log[i].call.Stop?
  }

  /** A normal return of the text `text`, which is all that was produced. Slack shows
      just that text, and the stream was stopped, if and only if some start call was
      answered with a timestamp; then it was in slices of 1 to 60 characters, as one
      start, appends and a stop if and only if that was the first. Without a timestamp
      the whole text is posted behind what was streamed, so Slack shows it twice; and
      if there is no text, the only call posts a stand-in. */
  lemma NormalCompletion(run: seq<Action>)
    requires Possible(INITIAL, run) && After(INITIAL, run).stage.Returned?
    ensures var s := After(INITIAL, run);
            var text := Concat(s.produced);
            && s.stage.text == text
            && (forall i | 0 <= i < |s.taken| :: Slice(s.taken[i]))
            && (Received(s.log) == text <==> Known(s.log))
            && (AStop(s.log) <==> Known(s.log))
            && (StreamedWhole(s) <==> text != "" && !FirstUnknown(s.log))
            && (text != "" && !Known(s.log) ==> Received(s.log) == text + text)
            && (text == "" ==> |s.log| == 1 && s.log[0].call == Post("(empty response)") && s.log[0].Accepted())
  {
    InitialIsFine();
    RunKeepsInv(INITIAL, run);
    hide Possible, After;
    var s := After(INITIAL, run);
    ReturnedIs(s);
    ReturnedCalls(s);
  }

  lemma ReturnedIs(s: State)
    requires Inv(s) && s.stage.Returned?
    ensures var text := Concat(s.produced);
            && s.stage.text == text
            && (Received(s.log) == text <==> Known(s.log))
            && (text != "" && !Known(s.log) ==> Received(s.log) == text + text)
            && (text == "" <==> s.taken == [])
  {
    AllDelivered(s);
    ReceivedIs(s);
    if s.taken != [] {
      SlicesHaveText(s.taken);
    } else {
      assert Concat([]) == "";
    }
    hide Conserved, ProducerOrdered, SenderOrdered, AcceptedTexts, Received, Concat, Known, SendsLogged, Sliced;
    if s.streamTs.None? {
      assert Posted(s.log[Sends(s)]);
      assert |ClosingCall(s).text| > 0;
    } else {
      forall i | 0 <= i < |s.log| ensures !Posted(s.log[i]) {
        NoPosts(s, i);
      }
    }
  }

  lemma NoPosts(s: State, i: nat)
    requires Inv(s) && s.streamTs.Some? && i < |s.log|
    ensures !s.log[i].call.Post?
  {
    hide Conserved, Sliced, ProducerOrdered, SenderOrdered, Staged, Starts, Concat;
    if i < Sends(s) {
      assert SentAt(s, i);
    }
  }

  lemma ReturnedCalls(s: State)
    requires Inv(s) && s.stage.Returned? && (Concat(s.produced) == "" <==> s.taken == [])
    ensures forall i | 0 <= i < |s.taken| :: Slice(s.taken[i])
    ensures AStop(s.log) <==> Known(s.log)
    ensures StreamedWhole(s) <==> Concat(s.produced) != "" && !FirstUnknown(s.log)
    ensures Concat(s.produced) == "" ==> |s.log| == 1 && s.log[0].call == Post("(empty response)") && s.log[0].Accepted()
  {
    hide Conserved, ProducerOrdered, SenderOrdered, Concat;
    forall i: nat | i < |s.taken| ensures SendOf(s.log[i].call, s.taken[i]) && s.log[i].Accepted() {
      assert SentAt(s, i);
    }
    if s.taken == [] {
      assert !Known(s.log);
    } else if GivesTs(s.log[0]) {
      assert Known(s.log);
    } else if |s.taken| > 1 {
      assert s.log[1].call.Start?;
    }
    if s.streamTs.Some? {
      assert s.log[|s.taken|].call.Stop?;
    }
  }

  predicate OneStartAtMost(log: seq<Event>) {
    forall i, j | 0 <= i < j < |log| :: !(log[i].call.Start? && log[j].call.Start?)
  }

  /** Whatever fails, and wherever the run is: what Slack shows is a beginning of the
      agent's text if and only if no post was accepted, and what was streamed always
      is, in slices of 1 to 60 characters; no text is sent after a stop; and before any
      exit the sender has finished, so the clean-up never has to cancel it. */
  lemma EveryExit(run: seq<Action>)
    requires Possible(INITIAL, run)
    ensures var s := After(INITIAL, run);
            && (Prefix(Received(s.log), Concat(s.produced)) <==> forall i | 0 <= i < |s.log| :: !Posted(s.log[i]))
            && Prefix(Concat(AcceptedTexts(s.log)), Concat(s.produced))
            && (forall i | 0 <= i < |AcceptedTexts(s.log)| :: Slice(AcceptedTexts(s.log)[i]))
            && (forall i, j | 0 <= i < j < |s.log| && s.log[i].call.Stop? :: !IsSend(s.log[j].call))
            && (s.stage.Cleaning? || s.stage.Raised? || s.stage.Returned? ==> SenderFinished(s))
  {
    InitialIsFine();
    RunKeepsInv(INITIAL, run);
    var s := After(INITIAL, run);
    hide Possible, After;
    AcceptedIsPrefix(s);
    AcceptedAreTaken(s);
    PostedIsNoPrefix(s);
    hide Conserved, ProducerOrdered, SenderOrdered, AcceptedTexts, Prefix, Received, Concat;
    forall i: nat | i < Sends(s) ensures !s.log[i].call.Stop? {
      assert SentAt(s, i);
    }
  }

  lemma PostedIsNoPrefix(s: State)
    requires Inv(s)
    ensures Prefix(Received(s.log), Concat(s.produced)) <==> forall i | 0 <= i < |s.log| :: !Posted(s.log[i])
  {
    ReceivedIs(s);
    AcceptedIsPrefix(s);
    if exists i :: 0 <= i < |s.log| && Posted(s.log[i]) {
      AllDelivered(s);
      hide Conserved, ProducerOrdered, SenderOrdered, AcceptedTexts, Received, Concat, Starts, SendsLogged, Sliced, Staged;
      assert |ClosingCall(s).text| > 0;
    }
  }

  lemma AcceptedIsPrefix(s: State)
    requires Inv(s)
    ensures Prefix(Concat(AcceptedTexts(s.log)), Concat(s.produced))
  {
    AcceptedAreTaken(s);
    hide SendsLogged, Starts, ClosedBy, AcceptedTexts, Sliced, ProducerOrdered, SenderOrdered, Staged;
    var n: nat :| n <= |s.taken| && AcceptedTexts(s.log) == s.taken[..n];
    assert s.taken == s.taken[..n] + s.taken[n..];
    ConcatAppends(s.taken[..n], s.taken[n..]);
    hide Concat, TextIn;
  }

  /** A second stream is started exactly when the first start call was answered
      without a timestamp and there was more to send. */
  lemma OneStartExactly(run: seq<Action>)
    requires Possible(INITIAL, run)
    ensures var s := After(INITIAL, run);
            OneStartAtMost(s.log) <==> !FirstUnknown(s.log) || Sends(s) <= 1
  {
    InitialIsFine();
    RunKeepsInv(INITIAL, run);
    var s := After(INITIAL, run);
    hide Possible, After, Conserved, ProducerOrdered, SenderOrdered, Staged, Concat, Sliced, Known;
    if FirstUnknown(s.log) && Sends(s) > 1 {
      assert s.log[0].call.Start? && s.log[1].call.Start?;
    }
  }

  /** Who goes on next, when everyone else waits. */
  function Unblocked(s: State): Action {
    match s.stage
    case AtHead => Head
    case Waking => Wake(true, false)
    case Draining => DrainOne
    case Joining => if s.sender.Waiting? then Take else if s.sender.Sending? then Answer(Refused) else Join
    case JoiningProducer => JoinProducer
    case _ => Finish(Refused)
  }

  /** The reply never hangs: until it has returned or raised, some task other than the
      producer can go on. */
  lemma NeverStuck(run: seq<Action>)
    requires Possible(INITIAL, run)
    ensures var s := After(INITIAL, run);
            var a := Unblocked(s);
            s.stage.Returned? || s.stage.Raised? || (Enabled(s, a) && !a.Produce? && !a.EndProducer?)
  {
    InitialIsFine();
    RunKeepsInv(INITIAL, run);
    hide Possible, After, Conserved, SendsLogged, Starts, ClosedBy, Sliced, ProducerOrdered, SenderOrdered, Staged,
      Enabled, Unblocked;
    var s := After(INITIAL, run);
    if !s.stage.Returned? && !s.stage.Raised? {
      SomeoneGoesOn(s);
    }
  }

  lemma SomeoneGoesOn(s: State)
    requires ProducerOrdered(s) && SenderOrdered(s) && Staged(s) && !s.stage.Returned? && !s.stage.Raised?
    ensures var a := Unblocked(s);
            Enabled(s, a) && !a.Produce? && !a.EndProducer?
  {
    hide EndsLast;
  }

  lemma Onward(s: State, a: Action, rest: seq<Action>)
    requires Enabled(s, a) && Possible(Apply(s, a), rest)
    ensures Possible(s, [a] + rest) && After(s, [a] + rest) == After(Apply(s, a), rest)
  {
    assert ([a] + rest)[1..] == rest;
    hide Apply, Enabled;
  }

  /** One text on its way to Slack, through all three tasks. */
  function OneTextSent(s: State, text: string): State {
    s.(produced := s.produced + [text], taken := s.taken + [text], sender := Sending(text))
  }

  lemma OneTextTicks(s: State, text: string)
    requires s.queue == [Some(text)] && s.pending == "" && !s.done && s.sendQueue == [] && |text| == 1
    ensures Ticked(s, false) == s.(queue := [], sendQueue := [Some(text)], stage := AtHead)
  {
    assert [Some(text)][1..] == [];
    assert s.pending + TextIn(s.queue) == text;
    assert TickRelease(text, false, false) == 1;
    assert text[1..] == "" && text[..1] == text;
  }

  lemma OneTextRuns(s: State, text: string, rest: seq<Action>)
    requires s.producer.Producing? && s.queue == [] && s.pending == "" && !s.done && s.sendQueue == []
    requires s.sender.Waiting? && s.stage.AtHead? && |text| == 1
    requires Possible(OneTextSent(s, text), rest)
    ensures exists run :: Possible(s, run) && After(s, run) == After(OneTextSent(s, text), rest)
  {
    var s1 := Apply(s, Produce(text));
    var s2 := Apply(s1, Head);
    OneTextTicks(s2, text);
    hide Ticked;
    var s3 := Apply(s2, Wake(false, false));
    assert Apply(s3, Take) == OneTextSent(s, text);
    hide TextIn, TickRelease, Apply, Enabled, Possible, After;
    Onward(s3, Take, rest);
    Onward(s2, Wake(false, false), [Take] + rest);
    Onward(s1, Head, [Wake(false, false)] + ([Take] + rest));
    Onward(s, Produce(text), [Head] + ([Wake(false, false)] + ([Take] + rest)));
  }

  /** A concrete run: the texts "a" and "b", each start call answered without a
      timestamp, start two streams. */
  lemma MissingTimestampStartsTwice()
    ensures exists run :: Possible(INITIAL, run) && !OneStartAtMost(After(INITIAL, run).log)
  {
    var answer := Answer(Replied(None));
    var first := OneTextSent(INITIAL, "a");
    var between := Apply(first, answer);
    var second := OneTextSent(between, "b");
    var last := Apply(second, answer);
    assert last.log[0].call.Start? && last.log[1].call.Start?;
    hide Apply;
    Onward(second, answer, []);
    OneTextRuns(between, "b", [answer] + []);
    var later :| Possible(between, later) && After(between, later) == last;
    Onward(first, answer, later);
    OneTextRuns(INITIAL, "a", [answer] + later);
  }

  /** At every exit a stop was attempted if and only if some start call was answered
      with a timestamp; if the first that was answered at all was, that means that the
      sending got past its first call. */
  lemma StoppedExactly(run: seq<Action>)
    requires Possible(INITIAL, run) && (After(INITIAL, run).stage.Raised? || After(INITIAL, run).stage.Returned?)
    ensures var s := After(INITIAL, run);
            && (AStop(s.log) <==> Known(s.log))
            && (!FirstUnknown(s.log) ==> (AStop(s.log) <==> Sends(s) > 1 || (Sends(s) == 1 && !s.sender.SenderFailed?)))
  {
    InitialIsFine();
    RunKeepsInv(INITIAL, run);
    hide Possible, After;
    ExitStops(After(INITIAL, run));
  }

  lemma ExitStops(s: State)
    requires Inv(s) && (s.stage.Raised? || s.stage.Returned?)
    ensures AStop(s.log) <==> Known(s.log)
    ensures !FirstUnknown(s.log) ==> (AStop(s.log) <==> Sends(s) > 1 || (Sends(s) == 1 && !s.sender.SenderFailed?))
  {
    hide Conserved, Sliced, ProducerOrdered, SenderOrdered, Staged, Concat;
    forall i: nat | i < Sends(s) ensures !s.log[i].call.Stop? {
      assert SentAt(s, i);
    }
    if s.streamTs.Some? {
      assert s.log[Sends(s)].call.Stop?;
    }
    if Sends(s) > 0 && GivesTs(s.log[0]) {
      assert Known(s.log);
      assert SentAt(s, 0);
    } else if Sends(s) == 1 && s.sender.SenderFailed? {
      OnlyStart(s);
    }
  }

  /** A first start call that failed leaves the stream unknown. */
  lemma OnlyStart(s: State)
    requires Inv(s) && Sends(s) == 1 && !GivesTs(s.log[0])
    ensures !FirstUnknown(s.log) ==> !Known(s.log)
  {
    hide Conserved, Sliced, ProducerOrdered, SenderOrdered, Staged, Concat;
  }

  /** A concrete run: Slack starts the stream but its reply is lost, and the stream is
      never stopped. */
  lemma LostStartIsNeverStopped()
    ensures exists run :: Possible(INITIAL, run) &&
              var s := After(INITIAL, run);
              s.stage.Raised? && s.log == [Event(Start("a"), Lost)]
  {
    var s0 := OneTextSent(INITIAL, "a");
    var s1 := Apply(s0, Answer(Lost));
    var s2 := Apply(s1, Head);
    var s3 := Apply(s2, DrainOne);
    var s4 := Apply(s3, Join);
    var s5 := Apply(s4, Finish(Refused));
    assert s5.stage.Raised? && s5.log == [Event(Start("a"), Lost)];
    hide Apply, Enabled;
    Onward(s4, Finish(Refused), []);
    Onward(s3, Join, [Finish(Refused)] + []);
    Onward(s2, DrainOne, [Join] + ([Finish(Refused)] + []));
    Onward(s1, Head, [DrainOne] + ([Join] + ([Finish(Refused)] + [])));
    Onward(s0, Answer(Lost), [Head] + ([DrainOne] + ([Join] + ([Finish(Refused)] + []))));
    OneTextRuns(INITIAL, "a", [Answer(Lost)] + ([Head] + ([DrainOne] + ([Join] + ([Finish(Refused)] + [])))));
  }

  /** A producer that ends, when everything is on its way, lets the reply come to its
      closing call. */
  function AtClosing(s: State): State {
    s.(producer := Ended, done := true, sender := SenderDone, stage := if s.streamTs.None? then Posting else Stopping)
  }

  lemma LastTick(s: State)
    requires s.queue == [None] && s.pending == ""
    ensures Ticked(s, false) == s.(queue := [], done := true, stage := Draining)
  {
    assert s.queue[1..] == [];
    assert s.pending + TextIn(s.queue) == "";
    assert s.sendQueue + [] == s.sendQueue;
  }

  lemma EndOfLoopRuns(s: State, rest: seq<Action>)
    requires s.producer.Producing? && s.queue == [] && s.pending == "" && !s.done && s.stage.AtHead? && !s.sender.SenderFailed?
    requires Possible(s.(producer := Ended, done := true, stage := Draining), rest)
    ensures exists run :: Possible(s, run) && After(s, run) == After(s.(producer := Ended, done := true, stage := Draining), rest)
  {
    var s1 := Apply(s, EndProducer(false));
    var s2 := Apply(s1, Head);
    LastTick(s2);
    hide Ticked;
    assert Apply(s2, Wake(false, false)) == s.(producer := Ended, done := true, stage := Draining);
    hide TextIn, TickRelease, Apply, Enabled, Possible, After;
    Onward(s2, Wake(false, false), rest);
    Onward(s1, Head, [Wake(false, false)] + rest);
    Onward(s, EndProducer(false), [Head] + ([Wake(false, false)] + rest));
  }

  lemma ClosingRuns(s: State, rest: seq<Action>)
    requires s.producer.Producing? && s.queue == [] && s.pending == "" && !s.done && s.sendQueue == []
    requires s.sender.Waiting? && s.stage.AtHead? && Possible(AtClosing(s), rest)
    ensures exists run :: Possible(s, run) && After(s, run) == After(AtClosing(s), rest)
  {
    hide TextIn, TickRelease, PickRelease, Possible, After;
    var s3 := s.(producer := Ended, done := true, stage := Draining);
    var s4 := Apply(s3, DrainOne);
    assert s4.sendQueue == [None] && s4.sendQueue[1..] == [];
    var s5 := Apply(s4, Take);
    var s6 := Apply(s5, Join);
    assert Apply(s6, JoinProducer) == AtClosing(s);
    hide Apply, Enabled, AtClosing;
    Onward(s6, JoinProducer, rest);
    Onward(s5, Join, [JoinProducer] + rest);
    Onward(s4, Take, [Join] + ([JoinProducer] + rest));
    Onward(s3, DrainOne, [Take] + ([Join] + ([JoinProducer] + rest)));
    EndOfLoopRuns(s, [DrainOne] + ([Take] + ([Join] + ([JoinProducer] + rest))));
  }

  /** A concrete run: one text, its start call answered without a timestamp. The reply
      returns normally, Slack shows the text twice, and the stream is never stopped. */
  lemma MissingTimestampRepeatsTheReply()
    ensures exists run :: Possible(INITIAL, run) &&
              var s := After(INITIAL, run);
              && s.stage == Returned("a") && Received(s.log) == "aa"
              && s.log == [Event(Start("a"), Replied(None)), Event(Post("a"), Replied(None))]
  {
    var unanswered := OneTextSent(INITIAL, "a");
    var s := Apply(unanswered, Answer(Replied(None)));
    var closing := AtClosing(s);
    assert Concat(["a"]) == "a" by { ConcatPush([], "a"); }
    assert closing.produced == ["a"];
    var end := Apply(closing, Finish(Replied(None)));
    assert end.stage == Returned("a");
    assert end.log == [Event(Start("a"), Replied(None)), Event(Post("a"), Replied(None))];
    ShownTwice(end.log);
    hide Apply, Enabled, AtClosing, Received;
    Onward(closing, Finish(Replied(None)), []);
    ClosingRuns(s, [Finish(Replied(None))] + []);
    var later :| Possible(s, later) && After(s, later) == end;
    Onward(unanswered, Answer(Replied(None)), later);
    OneTextRuns(INITIAL, "a", [Answer(Replied(None))] + later);
  }

  lemma ShownTwice(log: seq<Event>)
    requires log == [Event(Start("a"), Replied(None)), Event(Post("a"), Replied(None))]
    ensures Received(log) == "aa"
  {
    assert log[..1] == [log[0]] && log[..1][..0] == [];
    assert ReceivedTexts(log[..1]) == ["a"];
    assert ReceivedTexts(log) == ["a"] + ["a"];
    ConcatPush(["a"], "a");
    ConcatPush([], "a");
  }

  // ------------------------------------------------- how a reply may end

  predicate AllAnswered(log: seq<Event>) {
    forall i | 0 <= i < |log| :: log[i].reply.Replied?
  }

  /** The closing of a reply is only begun when the producer has ended without an error,
      and an error is only cleaned up after when there was one. */
  predicate Ends(s: State) {
    && (s.stage.Posting? || s.stage.Stopping? || s.stage.Returned? ==> s.producer.Ended?)
    && (s.stage.Cleaning? || s.stage.Raised? ==> s.producer.Failing? || !AllAnswered(s.log))
    && (!s.sender.SenderFailed? && !s.stage.Cleaning? && !s.stage.Raised? ==> AllAnswered(s.log))
    && (s.sender.SenderFailed? ==> !AllAnswered(s.log))
  }

  lemma AnsweredOneMore(log: seq<Event>, e: Event)
    ensures AllAnswered(log + [e]) <==> AllAnswered(log) && e.reply.Replied?
  {
    assert (log + [e])[|log|] == e;
    assert forall i | 0 <= i < |log| :: (log + [e])[i] == log[i];
  }

  lemma StepKeepsEnds(s: State, a: Action)
    requires Inv(s) && Ends(s) && Enabled(s, a)
    ensures Ends(Apply(s, a))
  {
    hide AllAnswered, Conserved, Sliced, ProducerOrdered, SenderOrdered, SendsLogged, Starts, ClosedBy, Concat, TextIn;
    var t := Apply(s, a);
    if |t.log| == |s.log| + 1 {
      AnsweredOneMore(s.log, t.log[|s.log|]);
    }
  }

  lemma {:induction false} RunKeepsEnds(s: State, run: seq<Action>)
    requires Inv(s) && Ends(s) && Possible(s, run)
    ensures Ends(After(s, run))
    decreases |run|
  {
    hide Inv, Ends, Apply, Enabled;
    if run != [] {
      StepKeepsInv(s, run[0]);
      StepKeepsEnds(s, run[0]);
      RunKeepsEnds(Apply(s, run[0]), run[1..]);
    }
  }

  /** What a run says of its producer. */
  function ProducerBy(was: Producer, run: seq<Action>): Producer {
    if EndProducer(true) in run then Failing else if EndProducer(false) in run then Ended else was
  }

  lemma StepProducer(s: State, a: Action)
    requires Enabled(s, a)
    ensures Apply(s, a).producer == ProducerBy(s.producer, [a])
    ensures a.EndProducer? ==> s.producer.Producing?
  {
    hide Concat, TextIn;
  }

  /** A producer ends once. */
  lemma {:induction false} RunProducer(s: State, run: seq<Action>)
    requires Possible(s, run)
    ensures After(s, run).producer == ProducerBy(s.producer, run)
    ensures !s.producer.Producing? ==> EndProducer(true) !in run && EndProducer(false) !in run
    decreases |run|
  {
    hide Apply, Enabled;
    if run != [] {
      StepProducer(s, run[0]);
      RunProducer(Apply(s, run[0]), run[1..]);
      assert run == [run[0]] + run[1..];
    }
  }

  /** Why a reply returns or raises: once it has done either, it has returned if and only
      if the chunks came to an end without an error and every call was answered. So an
      error of the agent is never taken for the end of its reply, at no point of any
      run. */
  lemma ReturnsExactly(run: seq<Action>)
    requires Possible(INITIAL, run)
    ensures var s := After(INITIAL, run);
            && (s.stage.Returned? || s.stage.Raised? ==>
                  (s.stage.Returned? <==> EndProducer(false) in run && AllAnswered(s.log)))
            && (EndProducer(true) in run ==> !s.stage.Returned? && !s.stage.Posting? && !s.stage.Stopping?)
            && !(EndProducer(true) in run && EndProducer(false) in run)
  {
    InitialIsFine();
    RunKeepsInv(INITIAL, run);
    RunKeepsEnds(INITIAL, run);
    RunProducer(INITIAL, run);
    NeverBoth(INITIAL, run);
    hide Possible, After, AllAnswered, Conserved, Sliced, ProducerOrdered, SenderOrdered, SendsLogged, Starts, ClosedBy;
  }

  lemma {:induction false} NeverBoth(s: State, run: seq<Action>)
    requires Possible(s, run)
    ensures !(EndProducer(true) in run && EndProducer(false) in run)
    decreases |run|
  {
    hide Apply, Enabled;
    if run != [] {
      StepProducer(s, run[0]);
      RunProducer(Apply(s, run[0]), run[1..]);
      NeverBoth(Apply(s, run[0]), run[1..]);
      assert run == [run[0]] + run[1..];
    }
  }
}
