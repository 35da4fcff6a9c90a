/** The per-key token bucket of bridge/bridge/rate_limit.py.

    The limiter keeps a bounded table of buckets and forgets the idle ones. The
    specification is `Call`, one call on the table as a value; the class below
    runs it in place. What callers rely on is stated against a reference that
    has no table at all: one bucket per key that never forgets (`Before`).
    Floats are modelled as reals. */
module RateLimiter {
  import opened Options

  datatype Limits = Limits(capacity: int, refillPeriod: real, maxKeys: int) {
    predicate Positive() {
      capacity >= 1 && refillPeriod > 0.0 && maxKeys >= 1
    }

    function Full(): real {
      capacity as real
    }

    function Rate(): real
      requires Positive()
    {
      capacity as real / refillPeriod
    }
  }

  datatype Level = Level(tokens: real, updatedAt: real)

  datatype Answer = Admitted | RetryIn(seconds: int)

  datatype Outcome = Outcome(table: map<string, Level>, answer: Answer, tableFull: bool)

  function Max(x: int, y: int): int { if x > y then x else y }

  function MaxReal(x: real, y: real): real { if x > y then x else y }

  function MinReal(x: real, y: real): real { if x < y then x else y }

  function Ceil(x: real): (n: int)
    ensures (n - 1) as real < x <= n as real
  {
    -((-x).Floor)
  }

  // ---------------------------------------------------------------- one call

  /** The tokens that trickle in over `span` seconds. */
  function Refill(lim: Limits, span: real): real
    requires lim.Positive()
  {
    span * lim.Rate()
  }

  function Available(lim: Limits, level: Level, now: real): real
    requires lim.Positive()
  {
    MinReal(lim.Full(), level.tokens + Refill(lim, MaxReal(0.0, now - level.updatedAt)))
  }

  /** The seconds a caller is told to wait for a bucket short of one token. */
  function Wait(lim: Limits, available: real): int
    requires lim.Positive()
  {
    Max(1, Ceil((1.0 - available) / lim.Rate()))
  }

  /** What a call does to the bucket it finds, and what it answers. */
  function Spend(lim: Limits, level: Level, now: real): (Level, Answer)
    requires lim.Positive()
  {
    var available := Available(lim, level, now);
    if available < 1.0 then
      (Level(available, now), RetryIn(Wait(lim, available)))
    else
      (Level(available - 1.0, now), Admitted)
  }

  function Live(lim: Limits, table: map<string, Level>, now: real): map<string, Level> {
    map k | k in table && now - table[k].updatedAt < lim.refillPeriod :: table[k]
  }

  function Call(lim: Limits, table: map<string, Level>, key: string, now: real): Outcome
    requires lim.Positive()
  {
    if key in table then
      var (level, answer) := Spend(lim, table[key], now);
      Outcome(table[key := level], answer, false)
    else
      var live := Live(lim, table, now);
      if |live| >= lim.maxKeys then
        Outcome(live, RetryIn(Max(1, Ceil(1.0 / lim.Rate()))), true)
      else
        var (level, answer) := Spend(lim, Level(lim.Full(), now), now);
        Outcome(live[key := level], answer, false)
  }

  // ------------------------------------------------------------- the limiter

  class Bucket {
    var tokens: real
    var updatedAt: real

    constructor (tokens: real, updatedAt: real)
      ensures this.tokens == tokens && this.updatedAt == updatedAt
    {
      this.tokens := tokens;
      this.updatedAt := updatedAt;
    }

    /** Refill for the time gone by, then consume one token or say how long to wait. */
    method Draw(limits: Limits, now: real) returns (answer: Answer)
      requires limits.Positive()
      modifies this
      ensures var (level, expected) := Spend(limits, old(Level(tokens, updatedAt)), now);
              tokens == level.tokens && updatedAt == level.updatedAt && answer == expected
    {
      var elapsed := MaxReal(0.0, now - updatedAt);
      var available := MinReal(limits.Full(), tokens + elapsed * limits.Rate());
      if available < 1.0 {
        tokens := available;
        updatedAt := now;
        return RetryIn(Max(1, Ceil((1.0 - available) / limits.Rate())));
      }
      tokens := available - 1.0;
      updatedAt := now;
      return Admitted;
    }
  }

  class TokenBucketRateLimiter {
    const limits: Limits
    var buckets: map<string, Bucket>

    /** No two keys share a bucket. */
    ghost predicate Valid()
      reads this
    {
      && limits.Positive()
      && forall k, j | k in buckets && j in buckets && k != j :: buckets[k] != buckets[j]
    }

    ghost function Table(): map<string, Level>
      reads this, buckets.Values
    {
      map k | k in buckets :: Level(buckets[k].tokens, buckets[k].updatedAt)
    }

    constructor (limits: Limits)
      requires limits.Positive()
      ensures Valid() && this.limits == limits && Table() == map[]
    {
      this.limits := limits;
      this.buckets := map[];
    }

    /** The checked constructor: the source raises ValueError where this gives None. */
    static method Create(limits: Limits) returns (limiter: Option<TokenBucketRateLimiter>)
      ensures limiter.Some? <==> limits.capacity >= 1 && limits.refillPeriod > 0.0 && limits.maxKeys >= 1
      ensures limiter.Some? ==> limiter.value.Valid() && limiter.value.limits == limits && limiter.value.Table() == map[]
      ensures limiter.Some? ==> fresh(limiter.value)
    {
      if !limits.Positive() {
        return None;
      }
      var created := new TokenBucketRateLimiter(limits);
      return Some(created);
    }

    method RetryAfter(key: string, now: real) returns (answer: Answer)
      requires Valid()
      modifies `buckets, buckets.Values
      ensures Valid() && fresh(buckets.Values - old(buckets.Values))
      ensures var call := Call(limits, old(Table()), key, now);
              Table() == call.table && answer == call.answer
    {
      var bucket := FindOrAdmit(key, now);
      if bucket.None? {
        return RetryIn(Max(1, Ceil(1.0 / limits.Rate())));
      }
      answer := Consume(key, bucket.value, now);
    }

    /** The bucket a call is charged to: the key's own, a full new one, or none
        when the table has no room even after pruning. */
    method FindOrAdmit(key: string, now: real) returns (bucket: Option<Bucket>)
      requires Valid()
      modifies `buckets
      ensures Valid() && buckets.Values <= old(buckets.Values)
      ensures Table() == if key in old(buckets) then old(Table()) else Live(limits, old(Table()), now)
      ensures bucket.None? <==> key !in old(buckets) && |Table()| >= limits.maxKeys
      ensures key in old(buckets) ==> key in buckets && bucket == Some(buckets[key])
      ensures key !in old(buckets) && bucket.Some? ==>
                && fresh(bucket.value) && key !in buckets
                && bucket.value.tokens == limits.Full() && bucket.value.updatedAt == now
    {
      if key in buckets {
        return Some(buckets[key]);
      }
      PruneIdle(now);
      assert Table().Keys == buckets.Keys;
      if |buckets| >= limits.maxKeys {
        return None;
      }
      var added := new Bucket(limits.Full(), now);
      return Some(added);
    }

    /** Charge the call to `bucket` and file it under `key`. */
    method Consume(key: string, bucket: Bucket, now: real) returns (answer: Answer)
      requires Valid()
      requires if key in buckets then bucket == buckets[key] else bucket !in buckets.Values
      modifies `buckets, bucket
      ensures Valid() && buckets == old(buckets)[key := bucket]
      ensures var (level, expected) := Spend(limits, old(Level(bucket.tokens, bucket.updatedAt)), now);
              Table() == old(Table())[key := level] && answer == expected
    {
      answer := bucket.Draw(limits, now);
      buckets := buckets[key := bucket];
    }

    /** Forget every bucket that has been idle for a whole refill period. */
    method PruneIdle(now: real)
      requires Valid()
      modifies `buckets
      ensures Valid() && buckets.Values <= old(buckets.Values)
      ensures forall k | k in buckets :: k in old(buckets) && buckets[k] == old(buckets[k])
      ensures Table() == Live(limits, old(Table()), now)
    {
      var stale := set k | k in buckets && now - buckets[k].updatedAt >= limits.refillPeriod;
      ghost var all := stale;
      while stale != {}
        invariant stale <= all
        invariant buckets == old(buckets) - (all - stale)
        decreases stale
      {
        var key :| key in stale;
        buckets := buckets - {key};
        stale := stale - {key};
      }
    }

    /** Clear process-local state. */
    method Reset()
      requires Valid()
      modifies `buckets
      ensures Valid() && Table() == map[]
    {
      buckets := map[];
    }
  }

  // ------------------------------------------------------------ runs of calls

  datatype Request = Request(key: string, now: real)

  datatype Entry = Entry(key: string, now: real, answer: Answer, tableFull: bool)

  datatype RunState = RunState(table: map<string, Level>, log: seq<Entry>)

  ghost predicate Ordered(reqs: seq<Request>) {
    forall i, j | 0 <= i <= j < |reqs| :: reqs[i].now <= reqs[j].now
  }

  /** The limiter after serving `reqs` in order, with what it answered. */
  function Run(lim: Limits, reqs: seq<Request>): RunState
    requires lim.Positive()
  {
    if reqs == [] then RunState(map[], [])
    else
      var last := reqs[|reqs| - 1];
      var earlier := Run(lim, reqs[..|reqs| - 1]);
      var call := Call(lim, earlier.table, last.key, last.now);
      RunState(call.table, earlier.log + [Entry(last.key, last.now, call.answer, call.tableFull)])
  }

  /** The times at which `key` was answered by its bucket, that is, without the
      calls turned away because the table was full. */
  function OwnTimes(log: seq<Entry>, key: string): seq<real> {
    if log == [] then []
    else
      var last := log[|log| - 1];
      var earlier := OwnTimes(log[..|log| - 1], key);
      if last.key == key && !last.tableFull then earlier + [last.now] else earlier
  }

  /** The reference: the bucket of one key, alone and never forgotten, as a call
      at `now` finds it after calls at `times`. It starts full. */
  function Before(lim: Limits, times: seq<real>, now: real): Level
    requires lim.Positive()
    decreases |times|
  {
    if times == [] then Level(lim.Full(), now)
    else
      var t := times[|times| - 1];
      Spend(lim, Before(lim, times[..|times| - 1], t), t).0
  }

  function ReferenceAnswer(lim: Limits, times: seq<real>, now: real): Answer
    requires lim.Positive()
  {
    Spend(lim, Before(lim, times, now), now).1
  }

  lemma RefillMono(lim: Limits, span: real, longer: real)
    requires lim.Positive() && span <= longer
    ensures Refill(lim, span) <= Refill(lim, longer)
    ensures span < longer ==> Refill(lim, span) < Refill(lim, longer)
  {
    var rate := lim.Rate();
    assert rate > 0.0;
    if span < longer {
      assert (longer - span) * rate > 0.0;
    }
  }

  /** Refill amounts add up over adjacent spans. */
  lemma RefillAdds(lim: Limits, span: real, next: real)
    requires lim.Positive()
    ensures Refill(lim, span) + Refill(lim, next) == Refill(lim, span + next)
    ensures Refill(lim, 0.0) == 0.0
  {
  }

  lemma RefillPeriod(lim: Limits)
    requires lim.Positive()
    ensures Refill(lim, lim.refillPeriod) == lim.Full()
  {
  }

  lemma RefillDue(lim: Limits, tokens: real)
    requires lim.Positive()
    ensures Refill(lim, tokens / lim.Rate()) == tokens
  {
  }

  lemma RefillNonNegative(lim: Limits, span: real)
    requires lim.Positive() && span >= 0.0
    ensures Refill(lim, span) >= 0.0
  {
    RefillAdds(lim, 0.0, 0.0);
    RefillMono(lim, 0.0, span);
  }

  /** A bucket idle for a whole period has refilled: it behaves like a new one. */
  lemma IdleIsFull(lim: Limits, level: Level, now: real)
    requires lim.Positive() && level.tokens >= 0.0
    requires now - level.updatedAt >= lim.refillPeriod
    ensures Available(lim, level, now) == lim.Full()
  {
    RefillPeriod(lim);
    RefillMono(lim, lim.refillPeriod, now - level.updatedAt);
    hide Refill;
  }

  lemma NewIsFull(lim: Limits, now: real)
    requires lim.Positive()
    ensures Available(lim, Level(lim.Full(), now), now) == lim.Full()
  {
    RefillAdds(lim, 0.0, 0.0);
    hide Refill;
  }

  lemma SpendKeepsBounds(lim: Limits, level: Level, now: real)
    requires lim.Positive() && level.tokens >= 0.0
    ensures 0.0 <= Spend(lim, level, now).0.tokens <= lim.Full()
    ensures Spend(lim, level, now).0.updatedAt == now
  {
    RefillNonNegative(lim, MaxReal(0.0, now - level.updatedAt));
    hide Refill;
  }

  lemma {:induction false} BeforeBounds(lim: Limits, times: seq<real>, now: real)
    requires lim.Positive()
    ensures 0.0 <= Before(lim, times, now).tokens <= lim.Full()
    ensures Before(lim, times, now).updatedAt == if times == [] then now else times[|times| - 1]
    decreases |times|
  {
    hide Spend;
    if times != [] {
      var t := times[|times| - 1];
      BeforeBounds(lim, times[..|times| - 1], t);
      SpendKeepsBounds(lim, Before(lim, times[..|times| - 1], t), t);
    }
  }

  /** A key that used its bucket less than one idle period before `now`. */
  predicate Active(lim: Limits, log: seq<Entry>, key: string, now: real) {
    var own := OwnTimes(log, key);
    own != [] && now - own[|own| - 1] < lim.refillPeriod
  }

  /** The table agrees with the reference bucket by bucket; a key it does not
      hold never used its bucket, or left it idle long enough to refill. */
  ghost predicate Faithful(lim: Limits, s: RunState, now: real)
    requires lim.Positive()
  {
    |s.table| <= lim.maxKeys && forall k :: FaithfulAt(lim, s.table, s.log, k, now)
  }

  ghost predicate FaithfulAt(lim: Limits, table: map<string, Level>, log: seq<Entry>, k: string, now: real)
    requires lim.Positive()
  {
    if k in table then OwnTimes(log, k) != [] && table[k] == Before(lim, OwnTimes(log, k), now)
    else !Active(lim, log, k, now)
  }

  lemma OwnTimesStep(log: seq<Entry>, e: Entry, k: string)
    ensures OwnTimes(log + [e], k) == if e.key == k && !e.tableFull then OwnTimes(log, k) + [e.now] else OwnTimes(log, k)
  {
    assert (log + [e])[..|log|] == log;
  }

  lemma LiveFits(lim: Limits, table: map<string, Level>, now: real)
    ensures |Live(lim, table, now)| <= |table|
  {
    var live := Live(lim, table, now);
    assert live.Keys <= table.Keys;
    SubsetSize(live.Keys, table.Keys);
  }

  lemma {:induction false} SubsetSize<T>(a: set<T>, b: set<T>)
    requires a <= b
    ensures |a| <= |b|
  {
    if a != {} {
      var x :| x in a;
      SubsetSize(a - {x}, b - {x});
    }
  }

  /** Between two calls time only passes. */
  lemma FaithfulLater(lim: Limits, s: RunState, now: real, later: real)
    requires lim.Positive() && now <= later && Faithful(lim, s, now)
    ensures Faithful(lim, s, later)
  {
    forall k ensures FaithfulAt(lim, s.table, s.log, k, later) {
      assert FaithfulAt(lim, s.table, s.log, k, now);
      if k in s.table {
        BeforeIgnoresNow(lim, OwnTimes(s.log, k), now, later);
      }
    }
  }

  lemma BeforeIgnoresNow(lim: Limits, own: seq<real>, now: real, other: real)
    requires lim.Positive() && own != []
    ensures Before(lim, own, now) == Before(lim, own, other)
  {
  }

  lemma NotActiveIsFull(lim: Limits, log: seq<Entry>, key: string, now: real)
    requires lim.Positive() && !Active(lim, log, key, now)
    ensures Spend(lim, Before(lim, OwnTimes(log, key), now), now) == Spend(lim, Level(lim.Full(), now), now)
  {
    var own := OwnTimes(log, key);
    NewIsFull(lim, now);
    if own != [] {
      BeforeBounds(lim, own, now);
      hide Before, Refill;
      IdleIsFull(lim, Before(lim, own, now), now);
    }
  }

  /** Pruning drops just the keys that are not active. */
  lemma PrunedAt(lim: Limits, table: map<string, Level>, log: seq<Entry>, k: string, now: real)
    requires lim.Positive() && FaithfulAt(lim, table, log, k, now)
    ensures k in Live(lim, table, now) <==> Active(lim, log, k, now)
    ensures FaithfulAt(lim, Live(lim, table, now), log, k, now)
  {
    if k in table {
      BeforeBounds(lim, OwnTimes(log, k), now);
    }
    hide Before;
  }

  lemma PrunedIsFaithful(lim: Limits, s: RunState, now: real)
    requires lim.Positive() && Faithful(lim, s, now)
    ensures Faithful(lim, RunState(Live(lim, s.table, now), s.log), now)
    ensures forall k :: k in Live(lim, s.table, now) <==> Active(lim, s.log, k, now)
  {
    LiveFits(lim, s.table, now);
    forall k
      ensures FaithfulAt(lim, Live(lim, s.table, now), s.log, k, now)
      ensures k in Live(lim, s.table, now) <==> Active(lim, s.log, k, now)
    {
      PrunedAt(lim, s.table, s.log, k, now);
    }
  }

  /** Filing the answered key under its new level keeps the table faithful. */
  lemma FiledAt(lim: Limits, table: map<string, Level>, log: seq<Entry>, e: Entry, level: Level, k: string)
    requires lim.Positive() && FaithfulAt(lim, table, log, k, e.now) && !e.tableFull
    requires level == Spend(lim, Before(lim, OwnTimes(log, e.key), e.now), e.now).0
    ensures FaithfulAt(lim, table[e.key := level], log + [e], k, e.now)
  {
    OwnTimesStep(log, e, k);
    BeforeStep(lim, OwnTimes(log, e.key), e.now, e.now);
    hide Spend, Before;
  }

  lemma FilingIsFaithful(lim: Limits, s: RunState, e: Entry, level: Level)
    requires lim.Positive() && Faithful(lim, s, e.now) && !e.tableFull
    requires |s.table[e.key := level]| <= lim.maxKeys
    requires level == Spend(lim, Before(lim, OwnTimes(s.log, e.key), e.now), e.now).0
    ensures Faithful(lim, RunState(s.table[e.key := level], s.log + [e]), e.now)
  {
    hide FaithfulAt, Spend, Before;
    var table, log := s.table[e.key := level], s.log + [e];
    forall k ensures FaithfulAt(lim, table, log, k, e.now) {
      FiledAt(lim, s.table, s.log, e, level, k);
    }
  }

  /** A call turned away adds nothing to any bucket. */
  lemma TurnedAwayIsFaithful(lim: Limits, s: RunState, e: Entry)
    requires lim.Positive() && Faithful(lim, s, e.now) && e.tableFull
    ensures Faithful(lim, RunState(s.table, s.log + [e]), e.now)
  {
    hide Before;
    var log := s.log + [e];
    forall k ensures FaithfulAt(lim, s.table, log, k, e.now) {
      assert FaithfulAt(lim, s.table, s.log, k, e.now);
      OwnTimesStep(s.log, e, k);
    }
  }

  lemma FilingSize<V>(table: map<string, V>, key: string, v: V)
    ensures |table[key := v]| == |table| + if key in table then 0 else 1
  {
    assert table[key := v].Keys == table.Keys + {key};
  }

  /** One call from a faithful state: the answer is the reference's, unless the
      table is full, and then it holds `maxKeys` other keys that are all active. */
  lemma CallIsFaithful(lim: Limits, s: RunState, key: string, now: real)
    requires lim.Positive() && Faithful(lim, s, now)
    ensures var call := Call(lim, s.table, key, now);
            && Faithful(lim, RunState(call.table, s.log + [Entry(key, now, call.answer, call.tableFull)]), now)
            && (!call.tableFull ==> call.answer == ReferenceAnswer(lim, OwnTimes(s.log, key), now))
            && (call.tableFull ==> call.answer != Admitted && !Active(lim, s.log, key, now)
                                   && AllActive(lim, s.log, now, call.table.Keys))
  {
    var call := Call(lim, s.table, key, now);
    var e := Entry(key, now, call.answer, call.tableFull);
    assert FaithfulAt(lim, s.table, s.log, key, now);
    if key in s.table {
      FilingSize(s.table, key, call.table[key]);
      BeforeIgnoresNow(lim, OwnTimes(s.log, key), now, now);
      hide FaithfulAt, Spend, Before;
      FilingIsFaithful(lim, s, e, call.table[key]);
    } else {
      var live := Live(lim, s.table, now);
      PrunedIsFaithful(lim, s, now);
      NotActiveIsFull(lim, s.log, key, now);
      hide FaithfulAt, Spend, Before, Live, Active;
      if call.tableFull {
        TurnedAwayIsFaithful(lim, RunState(live, s.log), e);
      } else {
        FilingSize(live, key, call.table[key]);
        FilingIsFaithful(lim, RunState(live, s.log), e, call.table[key]);
      }
    }
  }

  ghost predicate AllActive(lim: Limits, log: seq<Entry>, now: real, keys: set<string>) {
    |keys| >= lim.maxKeys && forall k | k in keys :: Active(lim, log, k, now)
  }

  // ------------------------------------------------------------ main results

  lemma {:induction false} RunIsFaithful(lim: Limits, reqs: seq<Request>, now: real)
    requires lim.Positive() && Ordered(reqs)
    requires reqs != [] ==> reqs[|reqs| - 1].now <= now
    ensures Faithful(lim, Run(lim, reqs), now)
  {
    if reqs != [] {
      var last := reqs[|reqs| - 1];
      RunIsFaithful(lim, reqs[..|reqs| - 1], last.now);
      CallIsFaithful(lim, Run(lim, reqs[..|reqs| - 1]), last.key, last.now);
      FaithfulLater(lim, Run(lim, reqs), last.now, now);
    }
  }

  lemma {:induction false} LogFollowsRequests(lim: Limits, reqs: seq<Request>, n: nat)
    requires lim.Positive() && n <= |reqs|
    ensures |Run(lim, reqs).log| == |reqs|
    ensures Run(lim, reqs).log[..n] == Run(lim, reqs[..n]).log
    ensures forall i | 0 <= i < |reqs| ::
              Run(lim, reqs).log[i].key == reqs[i].key && Run(lim, reqs).log[i].now == reqs[i].now
  {
    hide Call;
    if reqs != [] {
      var front := reqs[..|reqs| - 1];
      if n < |reqs| {
        LogFollowsRequests(lim, front, n);
        assert front[..n] == reqs[..n];
        assert Run(lim, reqs).log[..n] == Run(lim, front).log[..n];
      } else {
        LogFollowsRequests(lim, front, |front|);
        assert reqs[..n] == reqs;
      }
    }
  }

  /** Pruning is invisible. In every run with a clock that does not go back, each
      call is answered as by a bucket of its key alone that is never forgotten;
      the exception is a call that finds the table full, which happens exactly
      when the key is not in use and `maxKeys` other keys are. */
  lemma PruningIsInvisible(lim: Limits, reqs: seq<Request>, i: nat)
    requires lim.Positive() && Ordered(reqs) && i < |reqs|
    ensures |Run(lim, reqs).table| <= lim.maxKeys
    ensures var log := Run(lim, reqs).log;
            && |log| == |reqs|
            && (!log[i].tableFull ==> log[i].answer == ReferenceAnswer(lim, OwnTimes(log[..i], reqs[i].key), reqs[i].now))
            && (log[i].tableFull ==> log[i].answer != Admitted)
            && (log[i].tableFull <==>
                  && !Active(lim, log[..i], reqs[i].key, reqs[i].now)
                  && exists busy: set<string> :: AllActive(lim, log[..i], reqs[i].now, busy))
  {
    RunIsFaithful(lim, reqs, reqs[|reqs| - 1].now);
    var earlier := reqs[..i];
    RunIsFaithful(lim, earlier, reqs[i].now);
    CallIsFaithful(lim, Run(lim, earlier), reqs[i].key, reqs[i].now);
    LogEntry(lim, reqs, i);
    forall busy | AllActive(lim, Run(lim, earlier).log, reqs[i].now, busy) {
      BusyTableIsFull(lim, Run(lim, earlier), reqs[i].key, reqs[i].now, busy);
    }
    hide Call, Spend, Before, Active, FaithfulAt, Run;
  }

  /** With `maxKeys` keys in use a call for any other key finds no room. */
  lemma BusyTableIsFull(lim: Limits, s: RunState, key: string, now: real, busy: set<string>)
    requires lim.Positive() && Faithful(lim, s, now) && AllActive(lim, s.log, now, busy)
    ensures Active(lim, s.log, key, now) || Call(lim, s.table, key, now).tableFull
  {
    PrunedIsFaithful(lim, s, now);
    hide Active, FaithfulAt, Spend;
    SubsetSize(busy, Live(lim, s.table, now).Keys);
    if key in s.table && key !in Live(lim, s.table, now) {
      SubsetSize(busy + {key}, s.table.Keys);
    }
  }

  /** The log entry of call `i`, made on the table its predecessors left. */
  lemma LogEntry(lim: Limits, reqs: seq<Request>, i: nat)
    requires lim.Positive() && i < |reqs|
    ensures |Run(lim, reqs).log| == |reqs|
    ensures Run(lim, reqs).log[..i] == Run(lim, reqs[..i]).log
    ensures var call := Call(lim, Run(lim, reqs[..i]).table, reqs[i].key, reqs[i].now);
            Run(lim, reqs).log[i] == Entry(reqs[i].key, reqs[i].now, call.answer, call.tableFull)
  {
    hide Call;
    LogFollowsRequests(lim, reqs, i);
    LogFollowsRequests(lim, reqs, i + 1);
    var through := reqs[..i + 1];
    LogFollowsRequests(lim, through, i);
    assert through[..i] == reqs[..i];
    assert Run(lim, reqs).log[i] == Run(lim, reqs).log[..i + 1][i];
  }

  /** What `PruningIsInvisible` says of a whole log, freed of the table. */
  ghost predicate Explained(lim: Limits, log: seq<Entry>)
    requires lim.Positive()
  {
    && (forall i, j | 0 <= i <= j < |log| :: log[i].now <= log[j].now)
    && forall i | 0 <= i < |log| :: ExplainedIn(lim, log, i)
  }

  ghost predicate ExplainedIn(lim: Limits, log: seq<Entry>, i: nat)
    requires lim.Positive() && i < |log|
  {
    ExplainedAt(lim, log[..i], log[i])
  }

  ghost predicate ExplainedAt(lim: Limits, earlier: seq<Entry>, e: Entry)
    requires lim.Positive()
  {
    if e.tableFull then e.answer != Admitted
    else e.answer == ReferenceAnswer(lim, OwnTimes(earlier, e.key), e.now)
  }

  lemma {:induction false} RunIsExplained(lim: Limits, reqs: seq<Request>)
    requires lim.Positive() && Ordered(reqs)
    ensures Explained(lim, Run(lim, reqs).log)
  {
    LogFollowsRequests(lim, reqs, |reqs|);
    hide Run, Before, Spend, Active, OwnTimes;
    forall i | 0 <= i < |reqs| ensures ExplainedIn(lim, Run(lim, reqs).log, i) {
      PruningIsInvisible(lim, reqs, i);
    }
  }

  lemma ExplainedPrefix(lim: Limits, log: seq<Entry>, n: nat)
    requires lim.Positive() && Explained(lim, log) && n <= |log|
    ensures Explained(lim, log[..n])
  {
    forall i | 0 <= i < n ensures ExplainedIn(lim, log[..n], i) {
      assert ExplainedIn(lim, log, i);
      assert log[..n][..i] == log[..i];
    }
  }

  lemma {:induction false} OwnTimesBound(log: seq<Entry>, key: string, now: real)
    requires forall i | 0 <= i < |log| :: log[i].now <= now
    ensures forall i | 0 <= i < |OwnTimes(log, key)| :: OwnTimes(log, key)[i] <= now
  {
    if log != [] {
      OwnTimesBound(log[..|log| - 1], key, now);
    }
  }

  /** The bucket after an own call. */
  lemma BeforeStep(lim: Limits, own: seq<real>, t: real, now: real)
    requires lim.Positive()
    ensures Before(lim, own + [t], now) == Spend(lim, Before(lim, own, t), t).0
  {
    assert (own + [t])[..|own|] == own;
  }

  /** How many calls of `key` at times in [from, upto] were admitted. */
  function AdmittedIn(log: seq<Entry>, key: string, from: real, upto: real): nat {
    if log == [] then 0
    else
      var last := log[|log| - 1];
      AdmittedIn(log[..|log| - 1], key, from, upto)
      + if last.key == key && last.answer == Admitted && from <= last.now <= upto then 1 else 0
  }

  function Spent(answer: Answer): nat { if answer == Admitted then 1 else 0 }

  /** One own call: a token spent is a token the bucket had or one it refilled. */
  lemma SpendBudget(lim: Limits, level: Level, now: real)
    requires lim.Positive()
    ensures var (next, answer) := Spend(lim, level, now);
            && next.tokens + Spent(answer) as real <= lim.Full()
            && (level.updatedAt <= now ==>
                  next.tokens + Spent(answer) as real <= level.tokens + Refill(lim, now - level.updatedAt))
  {
    hide Refill;
  }

  /** Admissions since `from` and tokens left are covered by a full bucket and
      what was refilled since `from`. */
  ghost predicate Covered(lim: Limits, own: seq<real>, n: nat, from: real)
    requires lim.Positive()
  {
    n == 0 ||
    (own != [] && from <= own[|own| - 1] &&
     n as real + Before(lim, own, from).tokens <= lim.Full() + Refill(lim, own[|own| - 1] - from))
  }

  lemma CoveredStep(lim: Limits, own: seq<real>, n: nat, from: real, now: real)
    requires lim.Positive() && Covered(lim, own, n, from)
    requires own != [] ==> own[|own| - 1] <= now
    requires from <= now
    ensures Covered(lim, own + [now], n + Spent(ReferenceAnswer(lim, own, now)), from)
  {
    var level := Before(lim, own, now);
    SpendBudget(lim, level, now);
    BeforeStep(lim, own, now, from);
    BeforeBounds(lim, own, now);
    RefillNonNegative(lim, now - from);
    if n != 0 {
      BeforeIgnoresNow(lim, own, now, from);
      RefillAdds(lim, own[|own| - 1] - from, now - own[|own| - 1]);
    }
    hide Spend, Available, Before, Refill;
  }

  lemma {:induction false} WindowInvariant(lim: Limits, log: seq<Entry>, key: string, from: real, upto: real)
    requires lim.Positive() && Explained(lim, log)
    requires forall i | 0 <= i < |log| :: log[i].now <= upto
    ensures Covered(lim, OwnTimes(log, key), AdmittedIn(log, key, from, upto), from)
  {
    if log != [] {
      var earlier, e := log[..|log| - 1], log[|log| - 1];
      ExplainedPrefix(lim, log, |earlier|);
      assert ExplainedIn(lim, log, |earlier|);
      assert forall i | 0 <= i < |earlier| :: earlier[i] == log[i] && log[i].now <= log[|earlier|].now;
      assert log == earlier + [e];
      hide Explained, ExplainedAt, Covered, OwnTimes, AdmittedIn;
      WindowInvariant(lim, earlier, key, from, upto);
      WindowStep(lim, earlier, e, key, from, upto);
    }
  }

  lemma WindowStep(lim: Limits, earlier: seq<Entry>, e: Entry, key: string, from: real, upto: real)
    requires lim.Positive() && ExplainedAt(lim, earlier, e)
    requires forall i | 0 <= i < |earlier| :: earlier[i].now <= e.now
    requires Covered(lim, OwnTimes(earlier, key), AdmittedIn(earlier, key, from, upto), from) && e.now <= upto
    ensures Covered(lim, OwnTimes(earlier + [e], key), AdmittedIn(earlier + [e], key, from, upto), from)
  {
    assert (earlier + [e])[..|earlier|] == earlier;
    OwnTimesStep(earlier, e, key);
    OwnTimesBound(earlier, key, e.now);
    if e.key == key && !e.tableFull {
      if from <= e.now {
        CoveredStep(lim, OwnTimes(earlier, key), AdmittedIn(earlier, key, from, upto), from, e.now);
      } else {
        NoneBefore(earlier, key, from, upto);
      }
    }
    hide Spend, Before, Refill, Covered;
  }

  lemma {:induction false} NoneBefore(log: seq<Entry>, key: string, from: real, upto: real)
    requires forall i | 0 <= i < |log| :: log[i].now < from
    ensures AdmittedIn(log, key, from, upto) == 0
  {
    if log != [] {
      NoneBefore(log[..|log| - 1], key, from, upto);
    }
  }

  lemma CoveredBound(lim: Limits, own: seq<real>, n: nat, from: real, upto: real)
    requires lim.Positive() && Covered(lim, own, n, from) && from <= upto
    requires own != [] ==> own[|own| - 1] <= upto
    ensures n as real <= lim.Full() + Refill(lim, upto - from)
  {
    BeforeBounds(lim, own, from);
    RefillNonNegative(lim, upto - from);
    if n != 0 {
      RefillMono(lim, own[|own| - 1] - from, upto - from);
    }
    hide Spend, Available, Before, Refill;
  }

  lemma {:induction false} LogWindowBound(lim: Limits, log: seq<Entry>, key: string, from: real, upto: real)
    requires lim.Positive() && Explained(lim, log) && from <= upto
    ensures AdmittedIn(log, key, from, upto) as real <= lim.Full() + Refill(lim, upto - from)
  {
    hide Refill;
    assert forall i | 0 <= i < |log| :: log[i].now <= log[|log| - 1].now;
    if log != [] && log[|log| - 1].now > upto {
      ExplainedPrefix(lim, log, |log| - 1);
      LogWindowBound(lim, log[..|log| - 1], key, from, upto);
    } else {
      WindowInvariant(lim, log, key, from, upto);
      OwnTimesBound(log, key, upto);
      CoveredBound(lim, OwnTimes(log, key), AdmittedIn(log, key, from, upto), from, upto);
    }
  }

  /** In any time window of any run, one key is admitted at most `capacity` times
      plus once per token refilled in the window, whatever the other keys do. */
  lemma WindowBound(lim: Limits, reqs: seq<Request>, key: string, from: real, upto: real)
    requires lim.Positive() && Ordered(reqs) && from <= upto
    ensures AdmittedIn(Run(lim, reqs).log, key, from, upto) as real
            <= lim.capacity as real + (upto - from) * (lim.capacity as real / lim.refillPeriod)
  {
    hide Spend, Available, Before, Explained, Run, AdmittedIn;
    RunIsExplained(lim, reqs);
    LogWindowBound(lim, Run(lim, reqs).log, key, from, upto);
  }

  // ----------------------------------------------- what a key is sure to get

  /** How many calls of `key` were admitted after `since`. */
  function AdmittedAfter(log: seq<Entry>, key: string, since: real): nat {
    if log == [] then 0
    else
      var last := log[|log| - 1];
      AdmittedAfter(log[..|log| - 1], key, since) + if last.key == key && last.answer == Admitted && last.now > since then 1 else 0
  }

  /** A call takes the token it is answered for and no other. */
  lemma SpendTakes(lim: Limits, level: Level, now: real)
    requires lim.Positive()
    ensures var (next, answer) := Spend(lim, level, now);
            && next.tokens + Spent(answer) as real == Available(lim, level, now) && next.updatedAt == now
            && (answer == Admitted <==> Available(lim, level, now) >= 1.0)
  {
    hide Available;
  }

  /** The tokens left and those spent after `since` make up what was refilled since
      then, or a full bucket. */
  ghost predicate LeftOver(lim: Limits, own: seq<real>, n: nat, since: real)
    requires lim.Positive()
  {
    if own == [] || own[|own| - 1] <= since then n == 0
    else Before(lim, own, since).tokens + n as real >= MinReal(lim.Full(), Refill(lim, own[|own| - 1] - since))
  }

  lemma AvailableAfter(lim: Limits, own: seq<real>, n: nat, since: real, now: real)
    requires lim.Positive() && LeftOver(lim, own, n, since) && since <= now
    requires own != [] ==> own[|own| - 1] <= now
    ensures Available(lim, Before(lim, own, now), now) + n as real >= MinReal(lim.Full(), Refill(lim, now - since))
  {
    BeforeBounds(lim, own, now);
    if own == [] {
      NewIsFull(lim, now);
    } else {
      var last := own[|own| - 1];
      BeforeIgnoresNow(lim, own, now, since);
      RefillNonNegative(lim, now - last);
      if last <= since {
        RefillMono(lim, now - since, now - last);
      } else {
        RefillAdds(lim, last - since, now - last);
      }
    }
    hide Before, Spend, Refill;
  }

  lemma LeftOverStep(lim: Limits, own: seq<real>, n: nat, since: real, now: real)
    requires lim.Positive() && LeftOver(lim, own, n, since) && since < now
    requires own != [] ==> own[|own| - 1] <= now
    ensures LeftOver(lim, own + [now], n + Spent(ReferenceAnswer(lim, own, now)), since)
  {
    AvailableAfter(lim, own, n, since, now);
    BeforeStep(lim, own, now, since);
    SpendTakes(lim, Before(lim, own, now), now);
    hide Before, Spend, Refill, Available;
  }

  lemma {:induction false} LeftOverInvariant(lim: Limits, log: seq<Entry>, key: string, since: real)
    requires lim.Positive() && Explained(lim, log)
    ensures LeftOver(lim, OwnTimes(log, key), AdmittedAfter(log, key, since), since)
  {
    if log != [] {
      var earlier, e := log[..|log| - 1], log[|log| - 1];
      ExplainedPrefix(lim, log, |earlier|);
      assert ExplainedIn(lim, log, |earlier|);
      assert forall i | 0 <= i < |earlier| :: earlier[i] == log[i] && log[i].now <= log[|earlier|].now;
      hide Explained, ExplainedAt, LeftOver, OwnTimes, AdmittedAfter;
      LeftOverInvariant(lim, earlier, key, since);
      LeftOverEntry(lim, earlier, e, key, since);
      assert log == earlier + [e];
    }
  }

  lemma LeftOverEntry(lim: Limits, earlier: seq<Entry>, e: Entry, key: string, since: real)
    requires lim.Positive() && ExplainedAt(lim, earlier, e)
    requires forall i | 0 <= i < |earlier| :: earlier[i].now <= e.now
    requires LeftOver(lim, OwnTimes(earlier, key), AdmittedAfter(earlier, key, since), since)
    ensures LeftOver(lim, OwnTimes(earlier + [e], key), AdmittedAfter(earlier + [e], key, since), since)
  {
    assert (earlier + [e])[..|earlier|] == earlier;
    OwnTimesStep(earlier, e, key);
    OwnTimesBound(earlier, key, e.now);
    if e.key == key && !e.tableFull {
      if since < e.now {
        LeftOverStep(lim, OwnTimes(earlier, key), AdmittedAfter(earlier, key, since), since, e.now);
        hide LeftOver;
      }
    }
    hide Spend, Before, Refill;
  }

  /** The other side of `WindowBound`: whatever other keys do, a key is sure of its
      burst. A call that finds room in the table is admitted if fewer than `capacity`
      calls of its key were admitted in the refill period before it. */
  lemma BurstIsAdmitted(lim: Limits, reqs: seq<Request>, i: nat)
    requires lim.Positive() && Ordered(reqs) && i < |reqs|
    ensures |Run(lim, reqs).log| == |reqs|
    ensures var log := Run(lim, reqs).log;
            !log[i].tableFull && AdmittedAfter(log[..i], reqs[i].key, reqs[i].now - lim.refillPeriod) < lim.capacity ==>
              log[i].answer == Admitted
  {
    hide Run, Explained, AdmittedAfter;
    RunIsExplained(lim, reqs);
    LogFollowsRequests(lim, reqs, |reqs|);
    var log := Run(lim, reqs).log;
    if !log[i].tableFull && AdmittedAfter(log[..i], log[i].key, log[i].now - lim.refillPeriod) < lim.capacity {
      LogBurst(lim, log, i);
    }
  }

  lemma LogBurst(lim: Limits, log: seq<Entry>, i: nat)
    requires lim.Positive() && Explained(lim, log) && i < |log| && !log[i].tableFull
    requires AdmittedAfter(log[..i], log[i].key, log[i].now - lim.refillPeriod) < lim.capacity
    ensures log[i].answer == Admitted
  {
    var earlier, key, now := log[..i], log[i].key, log[i].now;
    var since := now - lim.refillPeriod;
    assert ExplainedIn(lim, log, i);
    assert forall j | 0 <= j < i :: earlier[j] == log[j] && log[j].now <= log[i].now;
    ExplainedPrefix(lim, log, i);
    hide Explained;
    LeftOverInvariant(lim, earlier, key, since);
    OwnTimesBound(earlier, key, now);
    var own := OwnTimes(earlier, key);
    AvailableAfter(lim, own, AdmittedAfter(earlier, key, since), since, now);
    RefillPeriod(lim);
    SpendTakes(lim, Before(lim, own, now), now);
    hide Before, Spend, Refill, Available, OwnTimes, AdmittedAfter, LeftOver;
  }

  /** The least whole number of seconds in which one token is refilled. */
  predicate RefillsOne(lim: Limits, seconds: int) {
    && seconds >= 1
    && seconds as real * lim.capacity as real >= lim.refillPeriod
    && (seconds - 1) as real * lim.capacity as real < lim.refillPeriod
  }

  /** A call that finds no room is told to wait just that. */
  lemma TurnedAwayWait(lim: Limits, reqs: seq<Request>, i: nat)
    requires lim.Positive() && i < |reqs|
    ensures |Run(lim, reqs).log| == |reqs|
    ensures var e := Run(lim, reqs).log[i];
            e.tableFull ==> e.answer.RetryIn? && RefillsOne(lim, e.answer.seconds)
  {
    hide Run, Call;
    LogEntry(lim, reqs, i);
    CallTurnedAway(lim, Run(lim, reqs[..i]).table, reqs[i].key, reqs[i].now);
    hide RefillsOne;
  }

  lemma CallTurnedAway(lim: Limits, table: map<string, Level>, key: string, now: real)
    requires lim.Positive()
    ensures var call := Call(lim, table, key, now);
            call.tableFull ==> call.answer.RetryIn? && RefillsOne(lim, call.answer.seconds)
  {
    OneTokenWait(lim);
    hide Spend, Live, RefillsOne;
  }

  lemma OneTokenWait(lim: Limits)
    requires lim.Positive()
    ensures RefillsOne(lim, Max(1, Ceil(1.0 / lim.Rate())))
  {
    Inverse(lim.capacity as real, lim.refillPeriod);
    var one := lim.refillPeriod / lim.capacity as real;
    var seconds := Max(1, Ceil(1.0 / lim.Rate()));
    assert (seconds - 1) as real < one <= seconds as real by {
      PositiveQuotient(lim.refillPeriod, lim.capacity as real);
    }
    Crosswise(seconds as real, lim.refillPeriod, lim.capacity as real);
    Crosswise((seconds - 1) as real, lim.refillPeriod, lim.capacity as real);
  }

  lemma Inverse(a: real, b: real)
    requires a > 0.0 && b > 0.0
    ensures 1.0 / (a / b) == b / a
  {
    assert (a / b) * (b / a) == 1.0;
  }

  lemma PositiveQuotient(a: real, b: real)
    requires a > 0.0 && b > 0.0
    ensures a / b > 0.0
  {
  }

  /** Comparing with a quotient is comparing products. */
  lemma Crosswise(x: real, a: real, b: real)
    requires b > 0.0
    ensures x < a / b <==> x * b < a
  {
    var q := a / b;
    assert q * b == a;
    assert (q - x) * b == a - x * b;
    if x < q {
      assert (q - x) * b > 0.0;
    } else {
      assert (x - q) * b >= 0.0;
    }
  }

  /** Refilling up to `mid` and then up to `now` is refilling up to `now`. */
  lemma RefillComposes(lim: Limits, level: Level, mid: real, now: real)
    requires lim.Positive() && level.updatedAt <= mid <= now
    ensures Available(lim, Level(Available(lim, level, mid), mid), now) == Available(lim, level, now)
  {
    RefillAdds(lim, mid - level.updatedAt, now - mid);
    RefillNonNegative(lim, now - mid);
    hide Refill;
  }

  /** No call of `key` from `i` up to `j` got through. */
  ghost predicate DeniedFrom(log: seq<Entry>, i: nat, j: nat, key: string) {
    && i < j <= |log|
    && log[i].key == key && !log[i].tableFull
    && forall m | i <= m < j && log[m].key == key :: log[m].answer != Admitted
  }

  /** Denied probes after a denial do not change what the bucket will have. */
  lemma {:induction false} ProbesDoNotPostpone(lim: Limits, log: seq<Entry>, i: nat, j: nat, key: string, now: real)
    requires lim.Positive() && Explained(lim, log) && DeniedFrom(log, i, j, key) && log[j - 1].now <= now
    ensures OwnTimes(log[..j], key) != []
    ensures log[i].now <= Before(lim, OwnTimes(log[..j], key), now).updatedAt <= log[j - 1].now
    ensures Available(lim, Before(lim, OwnTimes(log[..j], key), now), now)
            == Available(lim, Before(lim, OwnTimes(log[..i + 1], key), now), now)
  {
    var m := j - 1;
    var earlier, e := log[..m], log[m];
    var own := OwnTimes(earlier, key);
    assert log[..j] == earlier + [e];
    OwnTimesStep(earlier, e, key);
    assert ExplainedIn(lim, log, m);
    hide OwnTimes;
    BeforeBounds(lim, own + [e.now], now);
    if m != i {
      assert log[m - 1].now <= e.now <= now;
      hide Explained, Before, Available, Spend;
      ProbesDoNotPostpone(lim, log, i, m, key, now);
      if e.key == key && !e.tableFull {
        ProbeOnlyRefills(lim, own, e.now, now);
      }
    }
  }

  lemma ProbeOnlyRefills(lim: Limits, own: seq<real>, t: real, now: real)
    requires lim.Positive() && own != [] && Before(lim, own, now).updatedAt <= t <= now
    requires ReferenceAnswer(lim, own, t) != Admitted
    ensures Available(lim, Before(lim, own + [t], now), now) == Available(lim, Before(lim, own, now), now)
  {
    BeforeStep(lim, own, t, now);
    BeforeIgnoresNow(lim, own, t, now);
    hide Before;
    RefillComposes(lim, Before(lim, own, now), t, now);
    hide Available;
  }

  /** When a bucket that held `available` tokens less than one admits again. */
  lemma WaitIsLeast(lim: Limits, available: real, since: real, now: real)
    requires lim.Positive() && available < 1.0 && since <= now
    ensures now >= since + Wait(lim, available) as real ==> Available(lim, Level(available, since), now) >= 1.0
    ensures now <= since + (Wait(lim, available) - 1) as real ==> Available(lim, Level(available, since), now) < 1.0
  {
    var due := (1.0 - available) / lim.Rate();
    RefillDue(lim, 1.0 - available);
    RefillAdds(lim, 0.0, 0.0);
    if due <= 0.0 {
      RefillMono(lim, due, 0.0);
    }
    var elapsed := now - since;
    if elapsed >= due {
      RefillMono(lim, due, elapsed);
    } else {
      RefillMono(lim, elapsed, due);
    }
    hide Refill, Limits.Rate;
  }

  /** The wait a denied call is told is exact: after it, the next call of the key
      is admitted, and up to one second before it the call is denied. Denied
      probes in between change nothing; only a full table can. */
  lemma RetryAfterIsExact(lim: Limits, reqs: seq<Request>, i: nat, j: nat, key: string)
    requires lim.Positive() && Ordered(reqs)
    requires DeniedFrom(Run(lim, reqs).log, i, j, key) && j < |Run(lim, reqs).log|
    requires Run(lim, reqs).log[j].key == key && !Run(lim, reqs).log[j].tableFull
    ensures var denied, retry := Run(lim, reqs).log[i], Run(lim, reqs).log[j];
            && denied.answer.RetryIn?
            && (retry.now >= denied.now + denied.answer.seconds as real ==> retry.answer == Admitted)
            && (retry.now <= denied.now + (denied.answer.seconds - 1) as real ==> retry.answer != Admitted)
  {
    var log := Run(lim, reqs).log;
    RunIsExplained(lim, reqs);
    LogRetryAfterIsExact(lim, log, i, j, key);
  }

  lemma LogRetryAfterIsExact(lim: Limits, log: seq<Entry>, i: nat, j: nat, key: string)
    requires lim.Positive() && Explained(lim, log)
    requires DeniedFrom(log, i, j, key) && j < |log|
    requires log[j].key == key && !log[j].tableFull
    ensures log[i].answer.RetryIn?
    ensures log[j].now >= log[i].now + log[i].answer.seconds as real ==> log[j].answer == Admitted
    ensures log[j].now <= log[i].now + (log[i].answer.seconds - 1) as real ==> log[j].answer != Admitted
  {
    var now := log[j].now;
    assert log[i].now <= log[j - 1].now <= now;
    assert ExplainedIn(lim, log, i) && ExplainedIn(lim, log, j);
    var own := OwnTimes(log[..i], key);
    var found, refound := Before(lim, own, log[i].now), Before(lim, OwnTimes(log[..j], key), now);
    assert log[..i + 1] == log[..i] + [log[i]];
    OwnTimesStep(log[..i], log[i], key);
    ProbesDoNotPostpone(lim, log, i, j, key, now);
    BeforeStep(lim, own, log[i].now, now);
    hide Explained, Before, Available, Wait, OwnTimes;
    WaitIsLeast(lim, Available(lim, found, log[i].now), log[i].now, now);
  }
}
