/** The streaming reply (bridge/bridge/adapters/slack.py): a producer, a tick loop and
    a sender joined by two queues, over a Slack that may refuse a call, or accept it
    and lose the reply. */
module SlackStream {
  import opened Options
  import opened Text

  // ----------------------------------------------------------------- pacing

  const TARGET_CHARS := 10
  const MAX_CHARS := 60
  const CATCHUP_THRESHOLD := 100

  function Min(a: int, b: int): int {
    if a <= b then a else b
  }

  /** How many characters to release this tick. */
  function PickRelease(pending: string): (n: nat)
    ensures pending == "" ==> n == 0
    ensures pending != "" ==> 1 <= n <= 60 && n <= |pending|
    ensures |pending| <= 10 ==> n == |pending|
    ensures 10 < |pending| <= 100 ==> n == 10
    ensures |pending| > 100 ==> n == Min(60, |pending| / 10)
  {
    var target :=
      if |pending| > CATCHUP_THRESHOLD then Min(MAX_CHARS, TARGET_CHARS * |pending| / CATCHUP_THRESHOLD)
      else TARGET_CHARS;
    Min(|pending|, target)
  }

  // ----------------------------------------------------------------- queues

  /** A queue of texts; `None` is the end marker. */
  type Queue = seq<Option<string>>

  function TextIn(queue: Queue): string {
    if queue == [] then "" else (if queue[0].Some? then queue[0].value else "") + TextIn(queue[1..])
  }

  /** The end marker can only come last. */
  predicate EndsLast(queue: Queue) {
    forall i | 0 <= i < |queue| - 1 :: queue[i].Some?
  }

  predicate HasEnd(queue: Queue) {
    queue != [] && queue[|queue| - 1].None?
  }

  lemma {:induction false} TextInAppends(queue: Queue, item: Option<string>)
    ensures TextIn(queue + [item]) == TextIn(queue) + if item.Some? then item.value else ""
  {
    if queue == [] {
      assert queue + [item] == [item] && [item][1..] == [];
    } else {
      assert (queue + [item])[1..] == queue[1..] + [item];
      TextInAppends(queue[1..], item);
    }
  }

  /** The texts before the first end marker. */
  function Gathered(queue: Queue): string {
    if queue == [] || queue[0].None? then "" else queue[0].value + Gathered(queue[1..])
  }

  /** What the non-blocking drain leaves in the queue. */
  function Remaining(queue: Queue): Queue {
    if queue == [] then [] else if queue[0].None? then queue[1..] else Remaining(queue[1..])
  }

  lemma {:induction false} GatheringSplits(queue: Queue)
    requires EndsLast(queue)
    ensures TextIn(queue) == Gathered(queue) && Remaining(queue) == []
  {
    if queue != [] {
      GatheringSplits(queue[1..]);
    }
  }

  /** How much a tick releases of what it has gathered. */
  function TickRelease(gathered: string, tooSoon: bool, done: bool): (n: nat)
    ensures n <= |gathered| && n <= MAX_CHARS
    ensures n == 0 <==> gathered == "" || (tooSoon && !done)
    ensures n != 0 ==> n == PickRelease(gathered)
  {
    if gathered == "" || (tooSoon && !done) then 0 else PickRelease(gathered)
  }

  // ------------------------------------------------------- the release side

  /** The tick loop's variables, and the queues on either side of it. */
  class Releaser {
    var queue: Queue
    var pending: string
    var done: bool
    var sendQueue: Queue

    constructor ()
      ensures queue == [] && pending == "" && !done && sendQueue == []
    {
      queue := [];
      pending := "";
      done := false;
      sendQueue := [];
    }

    /** Take over everything queued, up to an end marker. */
    method DrainQueue()
      modifies this`queue, this`pending, this`done
      ensures pending == old(pending) + Gathered(old(queue))
      ensures queue == Remaining(old(queue))
      ensures done == (old(done) || None in old(queue))
    {
      while queue != []
        invariant pending + Gathered(queue) == old(pending) + Gathered(old(queue))
        invariant Remaining(queue) == Remaining(old(queue))
        invariant done == old(done) && (None in queue <==> None in old(queue))
        decreases |queue|
      {
        var item := queue[0];
        queue := queue[1..];
        if item.None? {
          done := true;
          break;
        }
        pending := pending + item.value;
      }
    }

    /** Release one slice to the sender. */
    method Release()
      requires pending != ""
      modifies this`pending, this`sendQueue
      ensures pending == old(pending)[PickRelease(old(pending))..]
      ensures sendQueue == old(sendQueue) + [Some(old(pending)[..PickRelease(old(pending))])]
    {
      var n := PickRelease(pending);
      var release := pending[..n];
      pending := pending[n..];
      sendQueue := sendQueue + [Some(release)];
    }

    /** The rest of a tick, after the wait for an item or the timeout. */
    method Tick(tooSoon: bool)
      requires EndsLast(queue)
      modifies this`queue, this`pending, this`done, this`sendQueue
      ensures queue == [] && done == (old(done) || HasEnd(old(queue)))
      ensures var gathered := old(pending) + TextIn(old(queue));
              var n := TickRelease(gathered, tooSoon, done);
              && pending == gathered[n..]
              && sendQueue == old(sendQueue) + if n == 0 then [] else [Some(gathered[..n])]
    {
      GatheringSplits(queue);
      DrainQueue();
      if pending == "" {
        return;
      }
      if tooSoon && !done {
        return;
      }
      Release();
    }

    /** Release all that is left, in at most a tenth as many slices as it has
        characters (rounded up), each of 1 to 60 characters, and lose none. */
    method DrainPending() returns (releases: nat)
      modifies this`pending, this`sendQueue
      ensures pending == "" && releases <= (|old(pending)| + TARGET_CHARS - 1) / TARGET_CHARS
      ensures |sendQueue| == |old(sendQueue)| + releases && sendQueue[..|old(sendQueue)|] == old(sendQueue)
      ensures TextIn(sendQueue) == TextIn(old(sendQueue)) + old(pending)
      ensures forall i | |old(sendQueue)| <= i < |sendQueue| :: sendQueue[i].Some? && 1 <= |sendQueue[i].value| <= MAX_CHARS
    {
      releases := 0;
      while pending != ""
        invariant releases + (|pending| + TARGET_CHARS - 1) / TARGET_CHARS <= (|old(pending)| + TARGET_CHARS - 1) / TARGET_CHARS
        invariant |sendQueue| == |old(sendQueue)| + releases && sendQueue[..|old(sendQueue)|] == old(sendQueue)
        invariant TextIn(sendQueue) + pending == TextIn(old(sendQueue)) + old(pending)
        invariant forall i | |old(sendQueue)| <= i < |sendQueue| :: sendQueue[i].Some? && 1 <= |sendQueue[i].value| <= MAX_CHARS
        decreases |pending|
      {
        ghost var before, sent := pending, sendQueue;
        Release();
        var n := PickRelease(before);
        assert before == before[..n] + pending;
        TextInAppends(sent, Some(before[..n]));
        releases := releases + 1;
      }
    }
  }
}
