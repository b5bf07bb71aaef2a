/** One job through the processor: retries, backoff, final failure. */
module Retries {
  import opened Basics
  import opened Jobs
  import opened MemoryQueues

  // ---------- Backoff ----------

  function Pow2(n: nat): (p: nat)
    ensures p >= 1
  {
    if n == 0 then 1 else 2 * Pow2(n - 1)
  }

  const LIMIT := 0x8000_0000_0000_0000

  datatype Backoff = Delay(nanos: int) | Panic

  /** The doubling is exact as a float and fits the integer it is turned into. */
  predicate Exact(attempt: int, base: int) {
    attempt <= 0 || (-0x20_0000_0000_0000 < base < 0x20_0000_0000_0000 && -LIMIT <= base * Pow2(attempt - 1) < LIMIT)
  }

  /** The delay before jitter: doubled with each attempt, cut off at the maximum; wild is what
      the machine makes of a product that is not exact. */
  function Base(attempt: int, base: int, maxDelay: int, wild: int): int {
    if attempt <= 0 then base
    else
      var delay := if Exact(attempt, base) then base * Pow2(attempt - 1) else wild;
      if delay > maxDelay then maxDelay else delay
  }

  /** The jitter is drawn from below a tenth of the delay; there must be a tenth. */
  method CalculateBackoffDelay(attempt: int, base: int, maxDelay: int, jitter: nat, wild: int) returns (r: Backoff)
    ensures r.Panic? <==> attempt > 0 && Base(attempt, base, maxDelay, wild) < 10
    ensures r.Delay? && attempt <= 0 ==> r.nanos == base
    ensures r.Delay? && attempt > 0 ==>
              var d := Base(attempt, base, maxDelay, wild);
              d <= r.nanos < d + d / 10 && r.nanos == d + jitter % (d / 10)
  {
    if attempt <= 0 {
      return Delay(base);
    }
    var delay := wild;
    if Exact(attempt, base) {
      delay := base * Pow2(attempt - 1);
    }
    if delay > maxDelay {
      delay := maxDelay;
    }
    var bound := GoDiv(delay, 10);
    if bound <= 0 {
      return Panic;
    }
    r := Delay(delay + jitter % bound);
  }

  lemma DoubledBase(attempt: int, base: int, maxDelay: int, wild: int, wilder: int)
    requires attempt >= 1 && base >= 10 && 10 <= maxDelay < LIMIT && Exact(attempt, base)
    requires 2 * Base(attempt, base, maxDelay, wild) <= maxDelay
    ensures Base(attempt + 1, base, maxDelay, wilder) == 2 * Base(attempt, base, maxDelay, wild) >= 20
  {
    var p := Pow2(attempt - 1);
    assert Pow2(attempt) == 2 * p;
    Grows(base, p);
  }

  lemma Grows(base: int, p: nat)
    requires base >= 10 && p >= 1
    ensures base * p >= 10 && base * (2 * p) == 2 * (base * p)
  {
  }

  /** While twice the delay still fits, the next delay is longer whatever the two jitters. */
  lemma DelaysGrow(attempt: int, base: int, maxDelay: int, wild: int, wilder: int, first: int, second: int)
    requires attempt >= 1 && base >= 10 && 10 <= maxDelay < LIMIT && Exact(attempt, base)
    requires var d := Base(attempt, base, maxDelay, wild); 2 * d <= maxDelay && d <= first < d + d / 10
    requires var e := Base(attempt + 1, base, maxDelay, wilder); e <= second < e + e / 10
    ensures first < second
  {
    DoubledBase(attempt, base, maxDelay, wild, wilder);
  }

  // ---------- The processor ----------

  datatype Metrics = Metrics(processed: nat, completed: nat, failed: nat, retried: nat)

  /** What ProcessJob returns; Panicked when drawing the jitter panics. */
  datatype Outcome = Completed | RetryScheduled | NoHandler | FailedForGood | Panicked

  /** The counters after a call. */
  function Counted(m: Metrics, outcome: Outcome): Metrics {
    var failed := outcome in {RetryScheduled, FailedForGood, Panicked};
    var retried := outcome in {RetryScheduled, Panicked};
    Metrics(m.processed + 1, m.completed + if outcome == Outcome.Completed then 1 else 0,
            m.failed + if failed then 1 else 0, m.retried + if retried then 1 else 0)
  }

  /** The fields of a job that a call may change. */
  datatype Progress = Progress(status: Status, attempts: int, scheduledAt: Option<int>)

  ghost function Seen(job: Job): Progress
    reads job
  {
    Progress(job.status, job.attempts, job.scheduledAt)
  }

  /** What a call makes of them; at: the time it schedules a retry for. */
  function Turned(before: Progress, outcome: Outcome, at: Option<int>): Progress {
    match outcome
    case Completed => before.(status := Status.Completed)
    case NoHandler => before.(status := Failed)
    case FailedForGood => before.(status := Failed)
    case Panicked => before.(status := Retrying, attempts := before.attempts + 1)
    case RetryScheduled => Progress(Scheduled, before.attempts + 1, at)
  }

  class JobProcessor {
    const baseDelay: int
    const maxDelay: int
    const maxAttempts: int
    var handlers: set<string>
    var deadLetterQueue: MemoryQueue?
    var metrics: Metrics

    constructor (baseDelay: int, maxDelay: int, maxAttempts: int)
      ensures this.baseDelay == baseDelay && this.maxDelay == maxDelay && this.maxAttempts == maxAttempts
      ensures handlers == {} && deadLetterQueue == null && metrics == Metrics(0, 0, 0, 0)
    {
      this.baseDelay, this.maxDelay, this.maxAttempts := baseDelay, maxDelay, maxAttempts;
      handlers, deadLetterQueue, metrics := {}, null, Metrics(0, 0, 0, 0);
    }

    predicate Retries(job: Job)
      reads job
    {
      job.attempts < MaxAttempts(job.maxAttempts, maxAttempts)
    }

    /** How one call ends; base is the delay configured or taken from the payload. */
    function EndOf(job: Job, fails: bool, base: int, wild: int): Outcome
      reads this, job
    {
      if job.kind !in handlers then NoHandler
      else if !fails then Outcome.Completed
      else if !Retries(job) then FailedForGood
      else if job.attempts >= 0 && Base(job.attempts + 1, base, maxDelay, wild) < 10 then Panicked
      else RetryScheduled
    }

    /** The handler's verdict, the clock, the jitter and inexact products come from outside. */
    method ProcessJob(job: Job, fails: bool, base: int, now: int, jitter: nat, wild: int) returns (outcome: Outcome)
      requires deadLetterQueue != null ==> deadLetterQueue.Valid()
      modifies this`metrics, job, deadLetterQueue
      ensures outcome == old(EndOf(job, fails, base, wild))
      ensures fails && old(job.kind in handlers) && outcome != Panicked ==>
                FailingCall(Call(old(job.attempts), outcome, job.attempts), MaxAttempts(job.maxAttempts, maxAttempts))
      ensures deadLetterQueue != null ==> deadLetterQueue.Valid()
      ensures metrics == Counted(old(metrics), outcome)
      ensures Seen(job) == Turned(old(Seen(job)), outcome, job.scheduledAt)
      ensures outcome == RetryScheduled ==> job.scheduledAt.Some?
      ensures outcome == RetryScheduled && old(job.attempts) >= 0 ==>
                var d := Base(job.attempts, base, maxDelay, wild);
                now + d <= job.scheduledAt.value < now + d + d / 10
      ensures deadLetterQueue != null ==>
                multiset(deadLetterQueue.jobs)
                == old(multiset(deadLetterQueue.jobs)) + if outcome == FailedForGood then multiset{job} else multiset{}
    {
      metrics := metrics.(processed := metrics.processed + 1);
      job.MarkRunning();
      if job.kind !in handlers {
        job.MarkFailed();
        return NoHandler;
      }
      if fails {
        outcome := HandleJobFailure(job, base, now, jitter, wild);
        return;
      }
      job.MarkCompleted();
      metrics := metrics.(completed := metrics.completed + 1);
      return Outcome.Completed;
    }

    method HandleJobFailure(job: Job, base: int, now: int, jitter: nat, wild: int) returns (outcome: Outcome)
      requires deadLetterQueue != null ==> deadLetterQueue.Valid()
      modifies this`metrics, job, deadLetterQueue
      ensures deadLetterQueue != null ==> deadLetterQueue.Valid()
      ensures outcome == if !old(Retries(job)) then FailedForGood
                         else if old(job.attempts) >= 0
                                 && Base(old(job.attempts) + 1, base, maxDelay, wild) < 10 then Panicked
                         else RetryScheduled
      ensures metrics == old(metrics).(failed := old(metrics.failed) + 1,
                                       retried := old(metrics.retried) + if outcome == FailedForGood then 0 else 1)
      ensures job.attempts == old(job.attempts) + if outcome == FailedForGood then 0 else 1
      ensures job.status == match outcome case RetryScheduled => Scheduled case Panicked => Retrying case _ => Failed
      ensures outcome == RetryScheduled ==> job.scheduledAt.Some?
      ensures outcome == RetryScheduled && old(job.attempts) >= 0 ==>
                var d := Base(job.attempts, base, maxDelay, wild);
                now + d <= job.scheduledAt.value < now + d + d / 10
      ensures outcome != RetryScheduled ==> job.scheduledAt == old(job.scheduledAt)
      ensures deadLetterQueue != null ==>
                multiset(deadLetterQueue.jobs)
                == old(multiset(deadLetterQueue.jobs)) + if outcome == FailedForGood then multiset{job} else multiset{}
    {
      metrics := metrics.(failed := metrics.failed + 1);
      if Retries(job) {
        outcome := ScheduleRetry(job, base, now, jitter, wild);
        return;
      }
      job.MarkFailed();
      if deadLetterQueue != null {
        deadLetterQueue.Push(job);
      }
      return FailedForGood;
    }

    method ScheduleRetry(job: Job, base: int, now: int, jitter: nat, wild: int) returns (outcome: Outcome)
      modifies this`metrics, job`status, job`attempts, job`scheduledAt
      ensures outcome == if old(job.attempts) >= 0
              && Base(old(job.attempts) + 1, base, maxDelay, wild) < 10 then Panicked else RetryScheduled
      ensures metrics == old(metrics).(retried := old(metrics.retried) + 1)
      ensures job.attempts == old(job.attempts) + 1
      ensures job.status == if outcome == RetryScheduled then Scheduled else Retrying
      ensures outcome == Panicked ==> job.scheduledAt == old(job.scheduledAt)
      ensures outcome == RetryScheduled ==> job.scheduledAt.Some?
      ensures outcome == RetryScheduled && old(job.attempts) >= 0 ==>
                var d := Base(job.attempts, base, maxDelay, wild);
                now + d <= job.scheduledAt.value < now + d + d / 10
    {
      job.MarkRetrying();
      metrics := metrics.(retried := metrics.retried + 1);
      var delay := CalculateBackoffDelay(job.attempts, base, maxDelay, jitter, wild);
      if delay.Panic? {
        return Panicked;
      }
      job.scheduledAt := Some(now + delay.nanos);
      job.status := Scheduled;
      return RetryScheduled;
    }
  }

  // ---------- A job that always fails ----------

  /** One call: the attempts before it and after it. */
  datatype Call = Call(before: int, outcome: Outcome, after: int)

  /** What ProcessJob guarantees of a call whose handler fails. */
  predicate FailingCall(call: Call, max: int) {
    if call.before < max then call.outcome == RetryScheduled && call.after == call.before + 1
    else call.outcome == FailedForGood && call.after == call.before
  }

  /** Who calls ProcessJob n times on a job that always fails, and the waits until its retries: the job's own
      maximum counts if it has one, whatever is configured. */
  method ProcessRepeatedly(jp: JobProcessor, job: Job, n: nat, base: int, now: seq<int>, jitter: seq<nat>,
                           wild: seq<int>)
    returns (outcomes: seq<Outcome>, waits: seq<int>)
    requires jp.deadLetterQueue != null ==> jp.deadLetterQueue.Valid()
    requires job.kind in jp.handlers && |now| == |jitter| == |wild| == n
    requires 0 <= job.attempts <= if job.maxAttempts > 0 then job.maxAttempts else jp.maxAttempts
    requires forall k | 0 <= k < n
             && job.attempts + k < (if job.maxAttempts > 0 then job.maxAttempts else jp.maxAttempts) ::
               Base(job.attempts + k + 1, base, jp.maxDelay, wild[k]) >= 10
    modifies jp`metrics, job, jp.deadLetterQueue
    ensures |outcomes| == n
    ensures var max := if job.maxAttempts > 0 then job.maxAttempts else jp.maxAttempts;
            var left := max - old(job.attempts);
            && (forall k | 0 <= k < n :: outcomes[k] == if k < left then RetryScheduled else FailedForGood)
            && job.attempts == (if n <= left then old(job.attempts) + n else max)
            && |waits| == (if n <= left then n else left)
            && forall k | 0 <= k < |waits| ::
                 var d := Base(old(job.attempts) + k + 1, base, jp.maxDelay, wild[k]); d <= waits[k] < d + d / 10
    ensures n > 0 ==> job.status == if outcomes[n - 1] == RetryScheduled then Scheduled else Failed
  {
    outcomes, waits := [], [];
    ghost var first, max := job.attempts, MaxAttempts(job.maxAttempts, jp.maxAttempts);
    for i := 0 to n
      invariant jp.deadLetterQueue != null ==> jp.deadLetterQueue.Valid()
      invariant |outcomes| == i && job.attempts == if i <= max - first then first + i else max
      invariant |waits| == if i <= max - first then i else max - first
      invariant forall k | 0 <= k < i :: outcomes[k] == if k < max - first then RetryScheduled else FailedForGood
      invariant forall k | 0 <= k < |waits| ::
                  var d := Base(first + k + 1, base, jp.maxDelay, wild[k]); d <= waits[k] < d + d / 10
      invariant i > 0 ==> job.status == if outcomes[i - 1] == RetryScheduled then Scheduled else Failed
    {
      assert i < max - first ==> Base(first + i + 1, base, jp.maxDelay, wild[i]) >= 10;
      var outcome := jp.ProcessJob(job, true, base, now[i], jitter[i], wild[i]);
      outcomes := outcomes + [outcome];
      if outcome == RetryScheduled {
        waits := waits + [job.scheduledAt.value - now[i]];
      }
    }
  }

  lemma AtLeastTen(base: int, p: nat)
    requires base >= 10 && p >= 1
    ensures base * p >= 10 && base * p >= p
  {
  }

  lemma {:induction false} PowGrows(m: nat, n: nat)
    requires m <= n
    ensures Pow2(m) <= Pow2(n)
  {
    if m < n {
      PowGrows(m, n - 1);
    }
  }

  /** As long as a later doubling is exact, the earlier ones are. */
  lemma ExactBefore(attempt: int, n: int, base: int)
    requires 1 <= attempt <= n && base >= 10 && Exact(n, base)
    ensures Exact(attempt, base)
  {
    PowGrows(attempt - 1, n - 1);
    MulGrows(base, Pow2(attempt - 1), Pow2(n - 1));
  }

  lemma MulGrows(base: int, p: nat, q: nat)
    requires base >= 10 && p <= q
    ensures 0 <= base * p <= base * q
  {
  }

  /** Drawing the jitter panics in none of n attempts exactly when maximum and base are at
      least ten nanoseconds and, should a product within these attempts not be exact, so is
      what the machine makes of it. */
  lemma NeverPanicsWithinIff(n: nat, base: int, maxDelay: int, wild: int)
    requires n >= 1
    ensures (forall attempt | 1 <= attempt <= n :: Base(attempt, base, maxDelay, wild) >= 10)
            <==> maxDelay >= 10 && (Exact(1, base) ==> base >= 10) && (Exact(n, base) || wild >= 10)
  {
    assert Pow2(0) == 1;
    assert Base(1, base, maxDelay, wild) >= 10 ==> Exact(1, base) ==> base >= 10;
    if maxDelay >= 10 && (Exact(1, base) ==> base >= 10) && (Exact(n, base) || wild >= 10) {
      forall attempt | 1 <= attempt <= n ensures Base(attempt, base, maxDelay, wild) >= 10 {
        if Exact(1, base) {
          AtLeastTen(base, Pow2(attempt - 1));
          if Exact(n, base) {
            ExactBefore(attempt, n, base);
          }
        }
      }
    } else {
      assert Base(n, base, maxDelay, wild) < 10 || Base(1, base, maxDelay, wild) < 10;
    }
  }

  lemma {:induction false} PowAtLeast(n: nat)
    ensures Pow2(n) > n
  {
    if n > 0 {
      PowAtLeast(n - 1);
    }
  }

  /** No delay of at least ten nanoseconds can be doubled for ever. */
  lemma ExactEnds(base: int)
    requires base >= 10
    ensures !Exact(LIMIT + 1, base)
  {
    PowAtLeast(LIMIT);
    AtLeastTen(base, Pow2(LIMIT));
  }

  /** And so, whatever the attempt, exactly when the machine's result is never below ten. */
  lemma NeverPanicsIff(base: int, maxDelay: int, wild: int)
    ensures (forall attempt | attempt >= 1 :: Base(attempt, base, maxDelay, wild) >= 10)
            <==> maxDelay >= 10 && wild >= 10 && (Exact(1, base) ==> base >= 10)
  {
    var n := LIMIT + 1;
    NeverPanicsWithinIff(n, base, maxDelay, wild);
    if base >= 10 {
      ExactEnds(base);
    }
    if maxDelay >= 10 && wild >= 10 && (Exact(1, base) ==> base >= 10) {
      forall attempt | attempt >= 1 ensures Base(attempt, base, maxDelay, wild) >= 10 {
        NeverPanicsWithinIff(attempt, base, maxDelay, wild);
      }
    }
  }

  lemma {:induction false} PowAdd(m: nat, n: nat)
    ensures Pow2(m + n) == Pow2(m) * Pow2(n)
  {
    if n > 0 {
      PowAdd(m, n - 1);
    }
  }

  const DEFAULT_BASE := 5_000_000_000
  const DEFAULT_MAX := 3_600_000_000_000

  /** With the default delays 31 attempts are safe everywhere. The 32nd panics where a float
      out of range is turned into the least integer, as amd64 does. */
  lemma DefaultsPanicAt32(wild: int)
    ensures forall attempt | 1 <= attempt <= 31 :: Base(attempt, DEFAULT_BASE, DEFAULT_MAX, wild) >= 10
    ensures Base(32, DEFAULT_BASE, DEFAULT_MAX, -LIMIT) < 10
  {
    PowAdd(10, 10);
    PowAdd(20, 10);
    assert Pow2(10) == 1024 && Pow2(31) == 2 * Pow2(30);
    assert Exact(31, DEFAULT_BASE) && !Exact(32, DEFAULT_BASE);
    NeverPanicsWithinIff(31, DEFAULT_BASE, DEFAULT_MAX, wild);
  }
}
