/** The token bucket limiter of api/ratelimit.go: whole tokens, refilled in steps that
    drop the fractional interval, and a cleanup that deletes idle buckets. */
module TokenBuckets {
  import opened Basics
  import opened RateLimit

  datatype Config = Config(rate: int, capacity: int, interval: int)

  datatype BucketState = BucketState(tokens: int, lastRefill: int)

  datatype Served = Served(bucket: BucketState, answer: Answer)

  // ---------- One key ----------

  /** Whole intervals between two times. */
  function Intervals(cfg: Config, since: int, now: int): int
    requires cfg.interval > 0
  {
    (now - since) / cfg.interval
  }

  function FullBucket(cfg: Config, now: int): BucketState {
    BucketState(cfg.capacity, now)
  }

  function Min(a: int, b: int): int {
    if a < b then a else b
  }

  function Refilled(cfg: Config, b: BucketState, now: int): BucketState
    requires cfg.interval > 0
  {
    var tokensToAdd := Intervals(cfg, b.lastRefill, now) * cfg.rate;
    if tokensToAdd > 0 then BucketState(Min(b.tokens + tokensToAdd, cfg.capacity), now) else b
  }

  function Serve(cfg: Config, b: BucketState, now: int): Served
    requires cfg.interval > 0
  {
    var r := Refilled(cfg, b, now);
    var reset := r.lastRefill + cfg.interval;
    if r.tokens > 0 then
      Served(r.(tokens := r.tokens - 1), Answer(true, Info(cfg.capacity, r.tokens - 1, reset, 0)))
    else
      Served(r, Answer(false, Info(cfg.capacity, r.tokens, reset, RetrySeconds(reset, now))))
  }

  /** The bucket a call works on: a missing one is made full. */
  function Found(cfg: Config, o: Option<BucketState>, now: int): BucketState {
    if o.Some? then o.value else FullBucket(cfg, now)
  }

  /** Whether cleanup deletes a bucket. */
  predicate Idle(cfg: Config, b: BucketState, now: int) {
    now - b.lastRefill > 10 * cfg.interval
  }

  function AfterEvent(cfg: Config, o: Option<BucketState>, e: Event, key: Key): Option<BucketState>
    requires cfg.interval > 0
  {
    match e
    case Call(k, now) => if k == key then Some(Serve(cfg, Found(cfg, o, now), now).bucket) else o
    case Tick(now) => if o.Some? && Idle(cfg, o.value, now) then None else o
    case Reset(k, _) => if k == key then None else o
  }

  /** The bucket of a key after a run. */
  function BucketOf(cfg: Config, es: seq<Event>, key: Key): Option<BucketState>
    requires cfg.interval > 0
  {
    if es == [] then None
    else AfterEvent(cfg, BucketOf(cfg, es[..|es| - 1], key), es[|es| - 1], key)
  }

  /** The answer to the call es[i]. */
  function AnswerAt(cfg: Config, es: seq<Event>, i: nat): Answer
    requires cfg.interval > 0 && i < |es| && es[i].Call?
  {
    Serve(cfg, Found(cfg, BucketOf(cfg, es[..i], es[i].key), es[i].now), es[i].now).answer
  }

  lemma BucketExtend(cfg: Config, es: seq<Event>, e: Event, key: Key)
    requires cfg.interval > 0
    ensures BucketOf(cfg, es + [e], key) == AfterEvent(cfg, BucketOf(cfg, es, key), e, key)
  {
    assert (es + [e])[..|es|] == es;
  }

  lemma AnswerExtend(cfg: Config, es: seq<Event>, key: Key, now: int)
    requires cfg.interval > 0
    ensures AnswerAt(cfg, es + [Call(key, now)], |es|) ==
            Serve(cfg, Found(cfg, BucketOf(cfg, es, key), now), now).answer
  {
    assert (es + [Call(key, now)])[..|es|] == es;
  }

  // ---------- Arithmetic of whole intervals ----------

  lemma IntervalBounds(cfg: Config, since: int, now: int)
    requires cfg.interval > 0
    ensures Intervals(cfg, since, now) * cfg.interval <= now - since
    ensures now - since < Intervals(cfg, since, now) * cfg.interval + cfg.interval
  {
  }

  lemma IntervalsAtLeast(cfg: Config, since: int, now: int, n: int)
    requires cfg.interval > 0 && n * cfg.interval <= now - since
    ensures n <= Intervals(cfg, since, now)
  {
    IntervalBounds(cfg, since, now);
    if Intervals(cfg, since, now) + 1 <= n {
      MulMonotone(Intervals(cfg, since, now) + 1, n, cfg.interval);
    }
  }

  lemma MulMonotone(a: int, b: int, c: int)
    requires a <= b && 0 <= c
    ensures a * c <= b * c
  {
  }

  /** Dropping fractions never gains an interval. */
  lemma IntervalsAdd(cfg: Config, s: int, t: int, u: int)
    requires cfg.interval > 0
    ensures Intervals(cfg, s, t) + Intervals(cfg, t, u) <= Intervals(cfg, s, u)
  {
    IntervalBounds(cfg, s, t);
    IntervalBounds(cfg, t, u);
    IntervalsAtLeast(cfg, s, u, Intervals(cfg, s, t) + Intervals(cfg, t, u));
  }

  lemma IntervalsMonotone(cfg: Config, s: int, t: int, u: int)
    requires cfg.interval > 0 && t <= u
    ensures Intervals(cfg, s, t) <= Intervals(cfg, s, u)
  {
    IntervalBounds(cfg, s, t);
    IntervalsAtLeast(cfg, s, u, Intervals(cfg, s, t));
  }

  // ---------- Reachable buckets ----------

  ghost predicate WellFormed(cfg: Config, b: BucketState, clock: int) {
    Min(0, cfg.capacity) <= b.tokens <= cfg.capacity && b.lastRefill <= clock
  }

  lemma {:induction false} BucketWellFormed(cfg: Config, es: seq<Event>, key: Key)
    requires cfg.interval > 0 && Chronological(es)
    ensures var o := BucketOf(cfg, es, key);
            o.Some? ==> es != [] && WellFormed(cfg, o.value, es[|es| - 1].now)
  {
    if es != [] {
      var n := |es| - 1;
      BucketWellFormed(cfg, es[..n], key);
      if n > 0 {
        assert es[..n][n - 1].now <= es[n].now;
      }
    }
  }

  // ---------- Cleanup is invisible, and exactly when ----------

  function WithoutTicks(es: seq<Event>): seq<Event> {
    if es == [] then []
    else
      var rest := WithoutTicks(es[..|es| - 1]);
      if es[|es| - 1].Tick? then rest else rest + [es[|es| - 1]]
  }

  /** All answers a key is given in a run. */
  function Answers(cfg: Config, es: seq<Event>, key: Key): seq<Answer>
    requires cfg.interval > 0
  {
    if es == [] then []
    else
      var n := |es| - 1;
      var before := Answers(cfg, es[..n], key);
      if es[n].Call? && es[n].key == key then before + [AnswerAt(cfg, es, n)] else before
  }

  /** The refills that any deleted bucket has missed: 10, or 11 for one-nanosecond intervals. */
  function MissedRefills(cfg: Config): int
    requires cfg.interval > 0
  {
    Intervals(cfg, 0, 10 * cfg.interval + 1)
  }

  /** Idle long enough to be deleted means idle long enough to be full again. */
  predicate Forgettable(cfg: Config)
    requires cfg.interval > 0
  {
    cfg.rate >= 1 && cfg.capacity <= MissedRefills(cfg) * cfg.rate
  }

  /** The bucket o of the run with cleanup against the bucket u of the run without. */
  ghost predicate Agree(cfg: Config, o: Option<BucketState>, u: Option<BucketState>, clock: int) {
    o == u || (o.None? && u.Some? && Idle(cfg, u.value, clock))
  }

  lemma IdleRefillsToFull(cfg: Config, b: BucketState, clock: int, now: int)
    requires cfg.interval > 0 && Forgettable(cfg)
    requires WellFormed(cfg, b, clock) && Idle(cfg, b, clock) && clock <= now
    ensures Refilled(cfg, b, now) == Refilled(cfg, FullBucket(cfg, now), now) == FullBucket(cfg, now)
  {
    var q := Intervals(cfg, b.lastRefill, now);
    var missed := MissedRefills(cfg);
    IntervalBounds(cfg, 0, 10 * cfg.interval + 1);
    IntervalsAtLeast(cfg, b.lastRefill, now, missed);
    IntervalsAtLeast(cfg, 0, 10 * cfg.interval + 1, 10);
    MulMonotone(missed, q, cfg.rate);
    MulMonotone(10, missed, cfg.rate);
    assert Intervals(cfg, now, now) * cfg.rate == 0;
  }

  lemma AgreeStep(cfg: Config, o: Option<BucketState>, u: Option<BucketState>, clock: int, e: Event, key: Key)
    requires cfg.interval > 0 && Forgettable(cfg)
    requires Agree(cfg, o, u, clock) && clock <= e.now
    requires u.Some? ==> WellFormed(cfg, u.value, clock)
    ensures Agree(cfg, AfterEvent(cfg, o, e, key), if e.Tick? then u else AfterEvent(cfg, u, e, key), e.now)
    ensures IsCall(e, key) ==> Serve(cfg, Found(cfg, o, e.now), e.now) == Serve(cfg, Found(cfg, u, e.now), e.now)
  {
    if IsCall(e, key) && o != u {
      IdleRefillsToFull(cfg, u.value, clock, e.now);
    }
  }

  /** The runs with cleanup (o) and without (u) so far, at the time of the last event. */
  ghost predicate Together(cfg: Config, es: seq<Event>, thin: seq<Event>, key: Key, clock: int)
    requires cfg.interval > 0
  {
    var u := BucketOf(cfg, thin, key);
    && Agree(cfg, BucketOf(cfg, es, key), u, clock) && (u.Some? ==> WellFormed(cfg, u.value, clock))
    && Answers(cfg, es, key) == Answers(cfg, thin, key)
  }

  lemma TogetherTick(cfg: Config, es: seq<Event>, thin: seq<Event>, key: Key, clock: int, now: int)
    requires cfg.interval > 0 && Forgettable(cfg) && clock <= now && Together(cfg, es, thin, key, clock)
    ensures Together(cfg, es + [Tick(now)], thin, key, now)
  {
    BucketExtend(cfg, es, Tick(now), key);
    AnswersExtend(cfg, es, Tick(now), key);
    AgreeStep(cfg, BucketOf(cfg, es, key), BucketOf(cfg, thin, key), clock, Tick(now), key);
  }

  /** A call of the key is answered alike. */
  lemma AnswersAlike(cfg: Config, es: seq<Event>, thin: seq<Event>, key: Key, clock: int, e: Event)
    requires cfg.interval > 0 && Forgettable(cfg) && clock <= e.now && Together(cfg, es, thin, key, clock) && !e.Tick?
    ensures Answers(cfg, es + [e], key) == Answers(cfg, thin + [e], key)
  {
    AnswersExtend(cfg, es, e, key);
    AnswersExtend(cfg, thin, e, key);
    AgreeStep(cfg, BucketOf(cfg, es, key), BucketOf(cfg, thin, key), clock, e, key);
  }

  lemma ServedFits(cfg: Config, u: Option<BucketState>, clock: int, e: Event, key: Key)
    requires cfg.interval > 0 && Forgettable(cfg) && clock <= e.now && (u.Some? ==> WellFormed(cfg, u.value, clock))
    ensures var after := AfterEvent(cfg, u, e, key); after.Some? ==> WellFormed(cfg, after.value, e.now)
  {
  }

  lemma TogetherNext(cfg: Config, es: seq<Event>, thin: seq<Event>, key: Key, clock: int, e: Event)
    requires cfg.interval > 0 && Forgettable(cfg) && clock <= e.now && Together(cfg, es, thin, key, clock)
    ensures Together(cfg, es + [e], if e.Tick? then thin else thin + [e], key, e.now)
  {
    if e.Tick? {
      TogetherTick(cfg, es, thin, key, clock, e.now);
    } else {
      BucketExtend(cfg, es, e, key);
      BucketExtend(cfg, thin, e, key);
      AnswersAlike(cfg, es, thin, key, clock, e);
      AgreeStep(cfg, BucketOf(cfg, es, key), BucketOf(cfg, thin, key), clock, e, key);
      ServedFits(cfg, BucketOf(cfg, thin, key), clock, e, key);
    }
  }

  lemma {:induction false} RunsAgree(cfg: Config, es: seq<Event>, key: Key)
    requires cfg.interval > 0 && Forgettable(cfg) && Chronological(es)
    ensures es != [] ==> Together(cfg, es, WithoutTicks(es), key, es[|es| - 1].now)
    ensures Answers(cfg, es, key) == Answers(cfg, WithoutTicks(es), key)
  {
    if es != [] {
      var front, e := es[..|es| - 1], es[|es| - 1];
      RunsAgree(cfg, front, key);
      assert es == front + [e];
      var clock := if front == [] then e.now else front[|front| - 1].now;
      assert front != [] ==> es[|front| - 1].now <= es[|front|].now;
      TogetherNext(cfg, front, WithoutTicks(front), key, clock, e);
    }
  }

  lemma WithoutTicksExtend(es: seq<Event>, e: Event)
    ensures WithoutTicks(es + [e]) == if e.Tick? then WithoutTicks(es) else WithoutTicks(es) + [e]
  {
    assert (es + [e])[..|es|] == es;
  }

  lemma AnswersExtend(cfg: Config, es: seq<Event>, e: Event, key: Key)
    requires cfg.interval > 0
    ensures Answers(cfg, es + [e], key) ==
            if IsCall(e, key)
            then Answers(cfg, es, key) + [Serve(cfg, Found(cfg, BucketOf(cfg, es, key), e.now), e.now).answer]
            else Answers(cfg, es, key)
  {
    assert (es + [e])[..|es|] == es;
  }

  /** Tokens are taken one by one at one instant. */
  lemma {:induction false} Drain(cfg: Config, n: nat, key: Key)
    requires cfg.interval > 0 && n >= 1 && (n > 1 ==> cfg.capacity >= n)
    ensures BucketOf(cfg, Repeat(Call(key, 0), n), key) ==
            Some(BucketState(if cfg.capacity >= n then cfg.capacity - n else cfg.capacity, 0))
  {
    BucketExtend(cfg, Repeat(Call(key, 0), n - 1), Call(key, 0), key);
    assert Intervals(cfg, 0, 0) * cfg.rate == 0;
    if n > 1 {
      Drain(cfg, n - 1, key);
    }
  }

  lemma RepeatPlain(e: Event, n: nat)
    requires !e.Tick?
    ensures WithoutTicks(Repeat(e, n)) == Repeat(e, n)
  {
    if n > 0 {
      RepeatPlain(e, n - 1);
      WithoutTicksExtend(Repeat(e, n - 1), e);
    }
  }

  /** A run in which cleanup shows: use up the bucket, let it be deleted, call again. */
  function Telltale(cfg: Config, key: Key): seq<Event> {
    Repeat(Call(key, 0), Draining(cfg)) + [Tick(10 * cfg.interval + 1)] + [Call(key, 10 * cfg.interval + 1)]
  }

  function Draining(cfg: Config): nat {
    if cfg.rate < 1 || cfg.capacity < 1 then 1 else cfg.capacity
  }

  lemma TelltaleChronological(cfg: Config, key: Key)
    requires cfg.interval > 0
    ensures Chronological(Telltale(cfg, key))
  {
    var es := Telltale(cfg, key);
    var n := |es| - 2;
    RepeatPlain(Call(key, 0), Draining(cfg));
    assert forall i | 0 <= i < n :: es[i] in Repeat(Call(key, 0), Draining(cfg));
    assert forall i | 0 <= i < n :: es[i].now == 0;
  }

  /** With too slow a refill the last answer of that run depends on cleanup. */
  lemma CleanupShows(cfg: Config, key: Key)
    requires cfg.interval > 0 && !Forgettable(cfg)
    ensures Answers(cfg, Telltale(cfg, key), key) != Answers(cfg, WithoutTicks(Telltale(cfg, key)), key)
  {
    var t := 10 * cfg.interval + 1;
    var es := Repeat(Call(key, 0), Draining(cfg));
    RepeatPlain(Call(key, 0), Draining(cfg));
    Drain(cfg, Draining(cfg), key);
    WithoutTicksExtend(es, Tick(t));
    WithoutTicksExtend(es + [Tick(t)], Call(key, t));
    LastAnswersDiffer(cfg, t);
    AfterForgetting(cfg, es, BucketOf(cfg, es, key).value, key, t);
  }

  /** When es leaves an idle bucket, a tick gives the next call the answer of a full one. */
  lemma AfterForgetting(cfg: Config, es: seq<Event>, b: BucketState, key: Key, t: int)
    requires cfg.interval > 0 && BucketOf(cfg, es, key) == Some(b) && Idle(cfg, b, t)
    requires Serve(cfg, b, t).answer != Serve(cfg, FullBucket(cfg, t), t).answer
    ensures Answers(cfg, es + [Tick(t)] + [Call(key, t)], key) != Answers(cfg, es + [Call(key, t)], key)
  {
    BucketExtend(cfg, es, Tick(t), key);
    AnswersExtend(cfg, es, Tick(t), key);
    AnswersExtend(cfg, es + [Tick(t)], Call(key, t), key);
    AnswersExtend(cfg, es, Call(key, t), key);
    LastDiffers(Answers(cfg, es, key), Serve(cfg, FullBucket(cfg, t), t).answer, Serve(cfg, b, t).answer);
  }

  lemma LastDiffers(before: seq<Answer>, a: Answer, b: Answer)
    requires a != b
    ensures before + [a] != before + [b]
  {
    assert (before + [a])[|before|] == a;
    assert (before + [b])[|before|] == b;
  }

  lemma LastAnswersDiffer(cfg: Config, t: int)
    requires cfg.interval > 0 && !Forgettable(cfg) && t == 10 * cfg.interval + 1
    ensures var n := Draining(cfg);
            var b := BucketState(if cfg.capacity >= n then cfg.capacity - n else cfg.capacity, 0);
            Idle(cfg, b, t) && Serve(cfg, b, t).answer != Serve(cfg, FullBucket(cfg, t), t).answer
  {
    assert Intervals(cfg, t, t) * cfg.rate == 0;
    var q := MissedRefills(cfg);
    IntervalsAtLeast(cfg, 0, t, 10);
    if cfg.rate < 1 {
      assert q * cfg.rate <= 0;
    } else {
      MulMonotone(10, q, cfg.rate);
    }
  }

  /** Cleanup is invisible in every run exactly when a deleted bucket would be full again. */
  lemma CleanupInvisibleIff(cfg: Config)
    requires cfg.interval > 0
    ensures Forgettable(cfg) <==>
            forall es, key | Chronological(es) :: Answers(cfg, es, key) == Answers(cfg, WithoutTicks(es), key)
  {
    if Forgettable(cfg) {
      forall es, key | Chronological(es)
        ensures Answers(cfg, es, key) == Answers(cfg, WithoutTicks(es), key)
      {
        RunsAgree(cfg, es, key);
      }
    } else {
      TelltaleChronological(cfg, "k");
      CleanupShows(cfg, "k");
    }
  }

  // ---------- The bound over any stretch of time ----------

  ghost predicate CountsIn(cfg: Config, es: seq<Event>, i: nat, key: Key, s: int, e: int)
    requires cfg.interval > 0 && i < |es|
  {
    IsCall(es[i], key) && s <= es[i].now <= e && AnswerAt(cfg, es, i).allowed
  }

  /** The calls of a key accepted in [s, e]. */
  ghost function AcceptedIn(cfg: Config, es: seq<Event>, key: Key, s: int, e: int): nat
    requires cfg.interval > 0
  {
    if es == [] then 0
    else AcceptedIn(cfg, es[..|es| - 1], key, s, e) + if CountsIn(cfg, es, |es| - 1, key, s, e) then 1 else 0
  }

  ghost predicate CalledBefore(es: seq<Event>, key: Key, s: int) {
    exists i | 0 <= i < |es| :: IsCall(es[i], key) && es[i].now < s
  }

  /** What acc accepted calls since s allow the bucket to hold; carry is 1 when the key
      was called before s. */
  ghost predicate Paid(cfg: Config, o: Option<BucketState>, acc: nat, s: int, clock: int, carry: nat)
    requires cfg.interval > 0
  {
    match o
    case None => acc == 0 || (s <= clock && acc <= cfg.rate * (Intervals(cfg, s, clock) + carry))
    case Some(b) =>
      if b.lastRefill < s then
        carry == 1 && acc + b.tokens <= cfg.capacity && (acc > 0 ==> s < b.lastRefill + cfg.interval)
      else
        acc + b.tokens <= cfg.capacity + cfg.rate * (Intervals(cfg, s, b.lastRefill) + carry)
  }

  /** The stretch of time and the rates the bound speaks about. */
  ghost predicate Bounded(cfg: Config, carry: nat) {
    cfg.interval > 0 && cfg.rate >= 1 && cfg.capacity >= 1 && carry <= 1
  }

  /** Refilling q whole intervals keeps within the budget of base + q intervals. */
  lemma BudgetGrows(rate: int, base: int, q: int, total: int)
    requires rate >= 0 && base + q <= total
    ensures rate * base + q * rate <= rate * total
  {
    assert rate * (total - base - q) >= 0;
  }

  lemma PaidByFull(cfg: Config, acc: nat, s: int, clock: int, now: int, carry: nat)
    requires Bounded(cfg, carry) && Paid(cfg, None, acc, s, clock, carry) && clock <= now && s <= now
    ensures Paid(cfg, Some(FullBucket(cfg, now)), acc, s, now, carry)
  {
    IntervalsAtLeast(cfg, s, now, 0);
    var total := Intervals(cfg, s, now) + carry;
    BudgetGrows(cfg.rate, 0, 0, total);
    if acc > 0 {
      IntervalsMonotone(cfg, s, clock, now);
      BudgetGrows(cfg.rate, Intervals(cfg, s, clock) + carry, 0, total);
    }
  }

  /** The intervals since the last refill fit into the stretch since s, up to the carry. */
  lemma RefillFits(cfg: Config, b: BucketState, acc: nat, s: int, now: int, carry: nat) returns (base: int)
    requires Bounded(cfg, carry) && Paid(cfg, Some(b), acc, s, b.lastRefill, carry)
    requires b.lastRefill <= now && s <= now && b.tokens <= cfg.capacity
    requires acc > 0 || b.lastRefill >= s
    ensures base + Intervals(cfg, b.lastRefill, now) <= Intervals(cfg, s, now) + carry
    ensures acc + b.tokens <= cfg.capacity + cfg.rate * base
  {
    var q := Intervals(cfg, b.lastRefill, now);
    if b.lastRefill >= s {
      IntervalsAdd(cfg, s, b.lastRefill, now);
      base := Intervals(cfg, s, b.lastRefill) + carry;
    } else {
      IntervalBounds(cfg, b.lastRefill, now);
      Shift(q, 1, cfg.interval);
      IntervalsAtLeast(cfg, s, now, q - 1);
      base := 0;
    }
  }

  lemma PaidRefill(cfg: Config, b: BucketState, acc: nat, s: int, now: int, carry: nat)
    requires Bounded(cfg, carry) && Paid(cfg, Some(b), acc, s, b.lastRefill, carry)
    requires WellFormed(cfg, b, now) && s <= now
    ensures Paid(cfg, Some(Refilled(cfg, b, now)), acc, s, now, carry)
    ensures Refilled(cfg, b, now).lastRefill < s ==> s < b.lastRefill + cfg.interval
  {
    var q := Intervals(cfg, b.lastRefill, now);
    var total := Intervals(cfg, s, now) + carry;
    IntervalsAtLeast(cfg, b.lastRefill, now, 0);
    IntervalsAtLeast(cfg, s, now, 0);
    if q == 0 {
      IntervalBounds(cfg, b.lastRefill, now);
    } else {
      BudgetGrows(cfg.rate, 0, 1, q);
      BudgetGrows(cfg.rate, 0, 0, total);
      if acc > 0 || b.lastRefill >= s {
        var base := RefillFits(cfg, b, acc, s, now, carry);
        BudgetGrows(cfg.rate, base, q, total);
      }
    }
  }

  lemma Shift(a: int, b: int, c: int)
    ensures (a - b) * c == a * c - b * c
  {
  }

  /** A forgotten bucket had missed enough refills to pay for a full new one. */
  lemma PaidForget(cfg: Config, b: BucketState, acc: nat, s: int, now: int, carry: nat)
    requires Bounded(cfg, carry) && Forgettable(cfg) && Paid(cfg, Some(b), acc, s, b.lastRefill, carry)
    requires WellFormed(cfg, b, now) && Idle(cfg, b, now)
    ensures Paid(cfg, None, acc, s, now, carry)
  {
    if acc > 0 {
      var missed := MissedRefills(cfg);
      IntervalBounds(cfg, 0, 10 * cfg.interval + 1);
      IntervalsAtLeast(cfg, b.lastRefill, now, missed);
      var base := RefillFits(cfg, b, acc, s, now, carry);
      BudgetGrows(cfg.rate, base, missed, Intervals(cfg, s, now) + carry);
    }
  }

  lemma PaidCall(cfg: Config, o: Option<BucketState>, acc: nat, s: int, clock: int, carry: nat, now: int)
    requires Bounded(cfg, carry) && Paid(cfg, o, acc, s, clock, carry) && clock <= now
    requires o.Some? ==> WellFormed(cfg, o.value, clock)
    requires now < s ==> acc == 0 && carry == 1
    ensures var served := Serve(cfg, Found(cfg, o, now), now);
            Paid(cfg, Some(served.bucket), acc + if s <= now && served.answer.allowed then 1 else 0, s, now, carry)
  {
    if s <= now {
      if o.None? {
        PaidByFull(cfg, acc, s, clock, now, carry);
      }
      PaidRefill(cfg, Found(cfg, o, now), acc, s, now, carry);
    } else if o.Some? {
      PaidEarly(cfg, o.value, now);
    }
  }

  /** A call before s leaves at most the capacity. */
  lemma PaidEarly(cfg: Config, b: BucketState, now: int)
    requires cfg.interval > 0 && cfg.rate >= 1 && cfg.capacity >= 1 && WellFormed(cfg, b, now)
    ensures Serve(cfg, b, now).bucket.tokens <= cfg.capacity && Serve(cfg, b, now).bucket.lastRefill <= now
  {
  }

  lemma PaidTick(cfg: Config, o: Option<BucketState>, acc: nat, s: int, clock: int, carry: nat, now: int)
    requires Bounded(cfg, carry) && Paid(cfg, o, acc, s, clock, carry) && clock <= now
    requires o.Some? ==> WellFormed(cfg, o.value, clock)
    requires if now < s then acc == 0 else Forgettable(cfg)
    ensures Paid(cfg, if o.Some? && Idle(cfg, o.value, now) then None else o, acc, s, now, carry)
  {
    if o.Some? && Idle(cfg, o.value, now) && acc > 0 {
      PaidForget(cfg, o.value, acc, s, now, carry);
    } else if o.None? {
      PaidLater(cfg, acc, s, clock, now, carry);
    }
  }

  lemma PaidLater(cfg: Config, acc: nat, s: int, clock: int, now: int, carry: nat)
    requires Bounded(cfg, carry) && Paid(cfg, None, acc, s, clock, carry) && clock <= now
    ensures Paid(cfg, None, acc, s, now, carry)
  {
    if acc > 0 {
      IntervalsMonotone(cfg, s, clock, now);
      BudgetGrows(cfg.rate, Intervals(cfg, s, clock) + carry, 0, Intervals(cfg, s, now) + carry);
    }
  }

  lemma PaidStep(cfg: Config, o: Option<BucketState>, acc: nat, s: int, clock: int, carry: nat, e: Event, key: Key)
    requires Bounded(cfg, carry) && Paid(cfg, o, acc, s, clock, carry) && clock <= e.now
    requires o.Some? ==> WellFormed(cfg, o.value, clock)
    requires s <= e.now ==> !(e.Reset? && e.key == key) && (e.Tick? ==> Forgettable(cfg))
    requires e.now < s ==> acc == 0 && (IsCall(e, key) ==> carry == 1)
    ensures var more := if IsCall(e, key) && s <= e.now && Serve(cfg, Found(cfg, o, e.now), e.now).answer.allowed
                        then 1 else 0;
            Paid(cfg, AfterEvent(cfg, o, e, key), acc + more, s, e.now, carry)
  {
    if IsCall(e, key) {
      PaidCall(cfg, o, acc, s, clock, carry, e.now);
    } else if e.Tick? {
      PaidTick(cfg, o, acc, s, clock, carry, e.now);
    } else if o.None? {
      PaidLater(cfg, acc, s, clock, e.now, carry);
    }
  }

  /** In [s, e] the key is not reset, and cleanup is absent or harmless. */
  ghost predicate Undisturbed(cfg: Config, es: seq<Event>, key: Key, s: int, e: int)
    requires cfg.interval > 0
  {
    NotReset(es, key, s, e) && (Forgettable(cfg) || forall i | 0 <= i < |es| && s <= es[i].now <= e :: !es[i].Tick?)
  }

  ghost predicate NotReset(es: seq<Event>, key: Key, s: int, e: int) {
    forall i | 0 <= i < |es| && s <= es[i].now <= e :: !(es[i].Reset? && es[i].key == key)
  }

  lemma CalledBeforeGrows(es: seq<Event>, n: nat, key: Key, s: int)
    requires n <= |es| && CalledBefore(es[..n], key, s)
    ensures CalledBefore(es, key, s)
  {
    var i :| 0 <= i < n && IsCall(es[..n][i], key) && es[..n][i].now < s;
    assert IsCall(es[i], key);
  }

  lemma {:induction false} PaidRun(cfg: Config, es: seq<Event>, key: Key, s: int, e: int, carry: nat)
    requires Bounded(cfg, carry) && Chronological(es) && Undisturbed(cfg, es, key, s, e)
    requires CalledBefore(es, key, s) ==> carry == 1
    requires es != [] ==> es[|es| - 1].now <= e
    ensures es == [] ==> AcceptedIn(cfg, es, key, s, e) == 0
    ensures es != [] ==>
              && Paid(cfg, BucketOf(cfg, es, key), AcceptedIn(cfg, es, key, s, e), s, es[|es| - 1].now, carry)
              && (es[|es| - 1].now < s ==> AcceptedIn(cfg, es, key, s, e) == 0)
  {
    if es != [] {
      var n := |es| - 1;
      var before := es[..n];
      assert n > 0 ==> before[n - 1] == es[n - 1] && es[n - 1].now <= es[n].now;
      if CalledBefore(before, key, s) {
        CalledBeforeGrows(es, n, key, s);
      }
      PaidRun(cfg, before, key, s, e, carry);
      BucketWellFormed(cfg, before, key);
      var clock := if n == 0 then es[n].now else before[n - 1].now;
      PaidStep(cfg, BucketOf(cfg, before, key), AcceptedIn(cfg, before, key, s, e), s, clock, carry, es[n], key);
    }
  }

  /** The most a key can be granted in [s, e]: its capacity, the refills of the whole intervals
      in it, and one more refill only if the key was in use before. */
  ghost function Allowance(cfg: Config, es: seq<Event>, key: Key, s: int, e: int): int
    requires cfg.interval > 0
  {
    cfg.capacity + cfg.rate * (Intervals(cfg, s, e) + if CalledBefore(es, key, s) then 1 else 0)
  }

  lemma {:induction false} AcceptedBound(cfg: Config, es: seq<Event>, key: Key, s: int, e: int)
    requires cfg.interval > 0 && cfg.rate >= 1 && cfg.capacity >= 1 && s <= e
    requires Chronological(es) && Undisturbed(cfg, es, key, s, e)
    ensures AcceptedIn(cfg, es, key, s, e) <= Allowance(cfg, es, key, s, e)
  {
    var carry := if CalledBefore(es, key, s) then 1 else 0;
    IntervalsAtLeast(cfg, s, e, 0);
    MulMonotone(0, Intervals(cfg, s, e) + carry, cfg.rate);
    if es != [] {
      var n := |es| - 1;
      if e < es[n].now {
        AcceptedBound(cfg, es[..n], key, s, e);
        if CalledBefore(es[..n], key, s) {
          CalledBeforeGrows(es, n, key, s);
        }
        MulMonotone(Intervals(cfg, s, e), Intervals(cfg, s, e) + carry, cfg.rate);
      } else {
        PaidRun(cfg, es, key, s, e, carry);
        BucketWellFormed(cfg, es, key);
        PaidTotal(cfg, BucketOf(cfg, es, key), AcceptedIn(cfg, es, key, s, e), s, es[n].now, e, carry);
      }
    }
  }

  lemma PaidTotal(cfg: Config, o: Option<BucketState>, acc: nat, s: int, clock: int, e: int, carry: nat)
    requires Bounded(cfg, carry) && Paid(cfg, o, acc, s, clock, carry) && clock <= e && s <= e
    requires o.Some? ==> WellFormed(cfg, o.value, clock)
    ensures acc <= cfg.capacity + cfg.rate * (Intervals(cfg, s, e) + carry)
  {
    IntervalsAtLeast(cfg, s, e, 0);
    MulMonotone(0, Intervals(cfg, s, e) + carry, cfg.rate);
    var t := if o.Some? then o.value.lastRefill else clock;
    if t <= e {
      IntervalsMonotone(cfg, s, t, e);
      MulMonotone(Intervals(cfg, s, t) + carry, Intervals(cfg, s, e) + carry, cfg.rate);
    }
  }

  /** A key without a bucket is granted its capacity at one instant. */
  lemma {:induction false} FreshDrain(cfg: Config, es: seq<Event>, n: nat, key: Key, now: int, s: int, e: int)
    requires cfg.interval > 0 && 1 <= n <= cfg.capacity && s <= now <= e
    requires BucketOf(cfg, es, key) == None
    ensures var more := es + Repeat(Call(key, now), n);
            && BucketOf(cfg, more, key) == Some(BucketState(cfg.capacity - n, now))
            && AcceptedIn(cfg, more, key, s, e) == AcceptedIn(cfg, es, key, s, e) + n
  {
    var call := Call(key, now);
    var before := es + Repeat(call, n - 1);
    if n > 1 {
      FreshDrain(cfg, es, n - 1, key, now, s, e);
    } else {
      assert before == es;
    }
    assert es + Repeat(call, n) == before + [call];
    DrainOne(cfg, BucketOf(cfg, before, key), n, now);
    BucketExtend(cfg, before, call, key);
    AcceptedExtend(cfg, before, call, key, s, e);
  }

  lemma DrainOne(cfg: Config, o: Option<BucketState>, n: nat, now: int)
    requires cfg.interval > 0 && 1 <= n <= cfg.capacity
    requires Found(cfg, o, now) == BucketState(cfg.capacity - (n - 1), now)
    ensures var served := Serve(cfg, Found(cfg, o, now), now);
            served.bucket == BucketState(cfg.capacity - n, now) && served.answer.allowed
  {
    assert Intervals(cfg, now, now) * cfg.rate == 0;
  }

  lemma AcceptedExtend(cfg: Config, es: seq<Event>, ev: Event, key: Key, s: int, e: int)
    requires cfg.interval > 0
    ensures AcceptedIn(cfg, es + [ev], key, s, e) == AcceptedIn(cfg, es, key, s, e) +
            if IsCall(ev, key) && s <= ev.now <= e
               && Serve(cfg, Found(cfg, BucketOf(cfg, es, key), ev.now), ev.now).answer.allowed
            then 1 else 0
  {
    assert (es + [ev])[..|es|] == es;
  }

  /** Use up n tokens at time 0, run cleanup at t, and use up n more at once. */
  function TwoDrains(n: nat, key: Key, t: int): seq<Event> {
    Repeat(Call(key, 0), n) + [Tick(t)] + Repeat(Call(key, t), n)
  }

  lemma TwoDrainsAt(n: nat, key: Key, t: int, i: nat)
    requires i < |TwoDrains(n, key, t)|
    ensures var e, m := TwoDrains(n, key, t)[i], |Repeat(Call(key, 0), n)|;
            if i < m then e == Call(key, 0) else if i == m then e == Tick(t) else e == Call(key, t)
  {
    var first, last := Repeat(Call(key, 0), n), Repeat(Call(key, t), n);
    RepeatPlain(Call(key, 0), n);
    RepeatPlain(Call(key, t), n);
    if i < |first| {
      assert first[i] in first;
    } else if i > |first| {
      assert last[i - |first| - 1] in last;
    }
  }

  lemma TwoDrainsRun(cfg: Config, key: Key, t: int)
    requires cfg.interval > 0 && cfg.capacity >= 1 && t == 10 * cfg.interval + 1
    ensures var es := TwoDrains(cfg.capacity, key, t);
            && Chronological(es) && NotReset(es, key, 0, t) && !CalledBefore(es, key, 0)
            && AcceptedIn(cfg, es, key, 0, t) == 2 * cfg.capacity
  {
    var first := Repeat(Call(key, 0), cfg.capacity);
    FreshDrain(cfg, [], cfg.capacity, key, 0, 0, t);
    assert [] + first == first;
    DrainAgain(cfg, first, key, t);
    TwoDrainsShape(cfg.capacity, key, t);
  }

  /** A bucket used up at time 0 and deleted at t is replaced by a full one. */
  lemma DrainAgain(cfg: Config, es: seq<Event>, key: Key, t: int)
    requires cfg.interval > 0 && cfg.capacity >= 1 && t == 10 * cfg.interval + 1
    requires BucketOf(cfg, es, key) == Some(BucketState(0, 0))
    ensures AcceptedIn(cfg, es + [Tick(t)] + Repeat(Call(key, t), cfg.capacity), key, 0, t) ==
            AcceptedIn(cfg, es, key, 0, t) + cfg.capacity
  {
    BucketExtend(cfg, es, Tick(t), key);
    AcceptedExtend(cfg, es, Tick(t), key, 0, t);
    FreshDrain(cfg, es + [Tick(t)], cfg.capacity, key, t, 0, t);
  }

  lemma TwoDrainsShape(n: nat, key: Key, t: int)
    requires t > 0
    ensures var es := TwoDrains(n, key, t); Chronological(es) && NotReset(es, key, 0, t) && !CalledBefore(es, key, 0)
  {
    var es := TwoDrains(n, key, t);
    forall i | 0 <= i < |es|
      ensures !es[i].Reset? && es[i].now == if i < |Repeat(Call(key, 0), n)| then 0 else t
    {
      TwoDrainsAt(n, key, t, i);
    }
  }

  /** The bound survives cleanup in every run exactly when a deleted bucket would be full again. */
  lemma CleanupKeepsBoundIff(cfg: Config)
    requires cfg.interval > 0 && cfg.rate >= 1 && cfg.capacity >= 1
    ensures Forgettable(cfg) <==>
            forall es, key, s, e | s <= e && Chronological(es) && NotReset(es, key, s, e) ::
              AcceptedIn(cfg, es, key, s, e) <= Allowance(cfg, es, key, s, e)
  {
    if Forgettable(cfg) {
      forall es, key, s, e | s <= e && Chronological(es) && NotReset(es, key, s, e)
        ensures AcceptedIn(cfg, es, key, s, e) <= Allowance(cfg, es, key, s, e)
      {
        AcceptedBound(cfg, es, key, s, e);
      }
    } else {
      TwoDrainsRun(cfg, "k", 10 * cfg.interval + 1);
      assert cfg.rate * MissedRefills(cfg) < cfg.capacity;
    }
  }

  // ---------- Reset is the exact frontier ----------

  /** After a denial the bucket is empty and has seen no whole interval. */
  lemma DeniedBucket(cfg: Config, es: seq<Event>, i: nat) returns (b: BucketState)
    requires cfg.interval > 0 && cfg.rate >= 1 && cfg.capacity >= 1
    requires Chronological(es) && i < |es| && es[i].Call?
    requires !AnswerAt(cfg, es, i).allowed
    ensures BucketOf(cfg, es[..i + 1], es[i].key) == Some(b) && b.tokens == 0
    ensures AnswerAt(cfg, es, i).info.reset == b.lastRefill + cfg.interval
    ensures es[i].now < b.lastRefill + cfg.interval
  {
    var found := Found(cfg, BucketOf(cfg, es[..i], es[i].key), es[i].now);
    b := Refilled(cfg, found, es[i].now);
    BucketWellFormed(cfg, es[..i], es[i].key);
    if i > 0 {
      assert es[..i][i - 1].now <= es[i].now;
    }
    assert es[..i + 1][..i] == es[..i];
    var q := Intervals(cfg, found.lastRefill, es[i].now);
    IntervalBounds(cfg, found.lastRefill, es[i].now);
    if q > 0 {
      MulMonotone(1, q, cfg.rate);
    } else {
      MulMonotone(q, 0, cfg.interval);
    }
  }

  lemma ServeEmpty(cfg: Config, b: BucketState, now: int)
    requires cfg.interval > 0 && cfg.rate >= 1 && cfg.capacity >= 1 && b.tokens == 0 && b.lastRefill <= now
    ensures var reset := b.lastRefill + cfg.interval;
            && Serve(cfg, b, now).answer.allowed == (reset <= now)
            && (now < reset ==> Serve(cfg, b, now).bucket == b && Serve(cfg, b, now).answer.info.reset == reset)
  {
    var q := Intervals(cfg, b.lastRefill, now);
    IntervalBounds(cfg, b.lastRefill, now);
    if now < b.lastRefill + cfg.interval {
      if q > 0 {
        MulMonotone(1, q, cfg.interval);
      } else {
        MulMonotone(q, 0, cfg.rate);
      }
    } else {
      IntervalsAtLeast(cfg, b.lastRefill, now, 1);
      MulMonotone(1, q, cfg.rate);
    }
  }

  /** Until the reset the bucket stays empty; only after it can cleanup delete it. */
  lemma {:induction false} BucketFrozen(cfg: Config, es: seq<Event>, i: nat, j: nat, b: BucketState)
    requires cfg.interval > 0 && cfg.rate >= 1 && cfg.capacity >= 1
    requires Chronological(es) && i < j <= |es| && es[i].Call?
    requires BucketOf(cfg, es[..i + 1], es[i].key) == Some(b) && b.tokens == 0 && b.lastRefill <= es[i].now
    requires NoResetBetween(es, es[i].key, i, j)
    requires forall k | i < k < j && IsCall(es[k], es[i].key) :: es[k].now < b.lastRefill + cfg.interval
    ensures var o := BucketOf(cfg, es[..j], es[i].key);
            o == Some(b) || (o == None && es[j - 1].now >= b.lastRefill + cfg.interval)
  {
    if i + 1 < j {
      BucketFrozen(cfg, es, i, j - 1, b);
      assert es[..j][..j - 1] == es[..j - 1];
      assert es[i].now <= es[j - 2].now <= es[j - 1].now;
      if IsCall(es[j - 1], es[i].key) {
        ServeEmpty(cfg, b, es[j - 1].now);
      }
    }
  }

  /** After a denial the reset it announced is exact: calls before it are denied with the
      same reset, and the first call from then on is allowed, cleanup or not. */
  lemma ResetIsExact(cfg: Config, es: seq<Event>, i: nat, j: nat)
    requires cfg.interval > 0 && cfg.rate >= 1 && cfg.capacity >= 1
    requires Chronological(es) && i < j < |es| && es[i].Call? && IsCall(es[j], es[i].key)
    requires !AnswerAt(cfg, es, i).allowed
    requires NoResetBetween(es, es[i].key, i, j)
    requires forall k | i < k < j && IsCall(es[k], es[i].key) :: es[k].now < AnswerAt(cfg, es, i).info.reset
    ensures var reset := AnswerAt(cfg, es, i).info.reset;
            && AnswerAt(cfg, es, j).allowed == (reset <= es[j].now)
            && (es[j].now < reset ==> AnswerAt(cfg, es, j).info.reset == reset)
  {
    var b := DeniedBucket(cfg, es, i);
    BucketWellFormed(cfg, es[..i + 1], es[i].key);
    BucketFrozen(cfg, es, i, j, b);
    assert es[i].now <= es[j - 1].now <= es[j].now;
    if BucketOf(cfg, es[..j], es[i].key) == Some(b) {
      ServeEmpty(cfg, b, es[j].now);
    } else {
      assert Intervals(cfg, es[j].now, es[j].now) * cfg.rate == 0;
    }
  }

  /** A client that waits for the announced number of seconds is let in exactly when no
      fraction of a second was cut off. */
  lemma RetryAfterExact(cfg: Config, es: seq<Event>, i: nat)
    requires cfg.interval > 0 && cfg.rate >= 1 && cfg.capacity >= 1
    requires Chronological(es) && i + 1 < |es| && es[i].Call? && IsCall(es[i + 1], es[i].key)
    requires !AnswerAt(cfg, es, i).allowed
    requires es[i + 1].now == es[i].now + AnswerAt(cfg, es, i).info.retryAfter * SECOND
    ensures var wait := AnswerAt(cfg, es, i).info.reset - es[i].now;
            AnswerAt(cfg, es, i + 1).allowed <==> wait <= SECOND || wait % SECOND == 0
  {
    var b := DeniedBucket(cfg, es, i);
    ResetIsExact(cfg, es, i, i + 1);
    RetryReachesReset(AnswerAt(cfg, es, i).info.reset, es[i].now);
  }

  /** es[i] is a denied call, and es[i + 1] its repetition after the announced seconds. */
  ghost predicate WaitedOut(cfg: Config, es: seq<Event>, i: nat)
    requires cfg.interval > 0
  {
    && Chronological(es) && i + 1 < |es| && es[i].Call? && IsCall(es[i + 1], es[i].key)
    && !AnswerAt(cfg, es, i).allowed
    && es[i + 1].now == es[i].now + AnswerAt(cfg, es, i).info.retryAfter * SECOND
  }

  /** The announced seconds are enough in every run exactly when the interval is at most one. */
  lemma RetryAfterSufficesIff(cfg: Config)
    requires cfg.interval > 0 && cfg.rate >= 1 && cfg.capacity >= 1
    ensures cfg.interval <= SECOND
            <==> forall es: seq<Event>, i: nat | WaitedOut(cfg, es, i) :: AnswerAt(cfg, es, i + 1).allowed
  {
    if cfg.interval <= SECOND {
      forall es: seq<Event>, i: nat | WaitedOut(cfg, es, i) ensures AnswerAt(cfg, es, i + 1).allowed {
        var b := DeniedBucket(cfg, es, i);
        BucketWellFormed(cfg, es[..i + 1], es[i].key);
        RetryAfterExact(cfg, es, i);
      }
    } else {
      var es, i := TooShort(cfg, "k");
      assert !AnswerAt(cfg, es, i + 1).allowed;
    }
  }

  /** With longer intervals: use up the bucket, come back a second and a nanosecond before the
      refill, and again after the one second announced then. */
  lemma TooShort(cfg: Config, key: Key) returns (es: seq<Event>, i: nat)
    requires cfg.interval > SECOND && cfg.rate >= 1 && cfg.capacity >= 1
    ensures WaitedOut(cfg, es, i) && !AnswerAt(cfg, es, i + 1).allowed
  {
    var first := Repeat(Call(key, 0), cfg.capacity);
    var t := cfg.interval - SECOND - 1;
    i := cfg.capacity;
    es := first + [Call(key, t)] + [Call(key, t + SECOND)];
    Drain(cfg, cfg.capacity, key);
    TwoDenials(cfg, first, key, t, t + SECOND);
    LateCallsInOrder(key, cfg.capacity, t, t + SECOND);
    assert RetrySeconds(cfg.interval, t) == 1;
  }

  lemma LateCallsInOrder(key: Key, n: nat, t: int, u: int)
    requires 0 <= t <= u
    ensures var es := Repeat(Call(key, 0), n) + [Call(key, t)] + [Call(key, u)];
            Chronological(es) && es[n] == Call(key, t) && es[n + 1] == Call(key, u)
  {
  }

  /** Calls before the first refill of a bucket emptied at time 0. */
  lemma TwoDenials(cfg: Config, es: seq<Event>, key: Key, t: int, u: int)
    requires cfg.interval > 0 && cfg.rate >= 1 && cfg.capacity >= 1 && 0 <= t <= u < cfg.interval
    requires BucketOf(cfg, es, key) == Some(BucketState(0, 0))
    ensures var run := es + [Call(key, t)] + [Call(key, u)];
            && !AnswerAt(cfg, run, |es|).allowed
            && AnswerAt(cfg, run, |es|).info.retryAfter == RetrySeconds(cfg.interval, t)
            && !AnswerAt(cfg, run, |es| + 1).allowed
  {
    var b := BucketState(0, 0);
    ServeEmpty(cfg, b, t);
    ServeEmpty(cfg, b, u);
    BucketExtend(cfg, es, Call(key, t), key);
    AnswerExtend(cfg, es + [Call(key, t)], key, u);
    assert (es + [Call(key, t)] + [Call(key, u)])[..|es|] == es;
  }

  // ---------- The limiter ----------

  class Bucket {
    var tokens: int
    var lastRefill: int

    ghost function State(): BucketState
      reads this
    {
      BucketState(tokens, lastRefill)
    }

    constructor (tokens: int, lastRefill: int)
      ensures State() == BucketState(tokens, lastRefill)
    {
      this.tokens, this.lastRefill := tokens, lastRefill;
    }

    /** The part of Allow that works on one bucket. */
    method Take(rate: int, capacity: int, interval: int, now: int) returns (allowed: bool, info: Info)
      requires interval > 0
      modifies this
      ensures Served(State(), Answer(allowed, info)) == Serve(Config(rate, capacity, interval), old(State()), now)
    {
      var elapsed := now - lastRefill;
      var tokensToAdd := elapsed / interval * rate;
      if tokensToAdd > 0 {
        tokens := if tokens + tokensToAdd < capacity then tokens + tokensToAdd else capacity;
        lastRefill := now;
      }
      allowed := tokens > 0;
      if allowed {
        tokens := tokens - 1;
      }
      var reset := lastRefill + interval;
      var retryAfter := 0;
      if !allowed {
        retryAfter := RetrySeconds(reset, now);
      }
      info := Info(capacity, tokens, reset, retryAfter);
    }
  }

  function Find(m: map<Key, BucketState>, key: Key): Option<BucketState> {
    if key in m then Some(m[key]) else None
  }

  /** The map holds for every key the bucket its run of events leads to. */
  ghost predicate Tracks(cfg: Config, m: map<Key, BucketState>, es: seq<Event>)
    requires cfg.interval > 0
  {
    forall k: Key :: Find(m, k) == BucketOf(cfg, es, k)
  }

  function AfterCall(cfg: Config, m: map<Key, BucketState>, key: Key, now: int): map<Key, BucketState>
    requires cfg.interval > 0
  {
    m[key := Serve(cfg, Found(cfg, Find(m, key), now), now).bucket]
  }

  function AfterTick(cfg: Config, m: map<Key, BucketState>, now: int): map<Key, BucketState> {
    map k | k in m && !Idle(cfg, m[k], now) :: m[k]
  }

  lemma TracksCall(cfg: Config, m: map<Key, BucketState>, es: seq<Event>, key: Key, now: int)
    requires cfg.interval > 0 && Tracks(cfg, m, es)
    ensures Tracks(cfg, AfterCall(cfg, m, key, now), es + [Call(key, now)])
  {
    forall k: Key ensures Find(AfterCall(cfg, m, key, now), k) == BucketOf(cfg, es + [Call(key, now)], k) {
      BucketExtend(cfg, es, Call(key, now), k);
      assert Find(m, k) == BucketOf(cfg, es, k);
    }
  }

  lemma TracksReset(cfg: Config, m: map<Key, BucketState>, es: seq<Event>, key: Key, now: int)
    requires cfg.interval > 0 && Tracks(cfg, m, es)
    ensures Tracks(cfg, m - {key}, es + [Reset(key, now)])
  {
    forall k: Key ensures Find(m - {key}, k) == BucketOf(cfg, es + [Reset(key, now)], k) {
      BucketExtend(cfg, es, Reset(key, now), k);
      assert Find(m, k) == BucketOf(cfg, es, k);
    }
  }

  lemma TracksTick(cfg: Config, m: map<Key, BucketState>, es: seq<Event>, now: int)
    requires cfg.interval > 0 && Tracks(cfg, m, es)
    ensures Tracks(cfg, AfterTick(cfg, m, now), es + [Tick(now)])
  {
    forall k: Key ensures Find(AfterTick(cfg, m, now), k) == BucketOf(cfg, es + [Tick(now)], k) {
      BucketExtend(cfg, es, Tick(now), k);
      assert Find(m, k) == BucketOf(cfg, es, k);
    }
  }

  class TokenBucket {
    var buckets: map<Key, Bucket>
    const rate: int
    const capacity: int
    const interval: int
    const cleanup: int
    ghost var trace: seq<Event>

    ghost function Cfg(): Config {
      Config(rate, capacity, interval)
    }

    ghost function Contents(): map<Key, BucketState>
      reads this, buckets.Values
    {
      map k | k in buckets :: buckets[k].State()
    }

    ghost predicate Valid()
      reads this, buckets.Values
    {
      && interval > 0 && cleanup == 10 * interval
      && Chronological(trace)
      && Unshared()
      && Tracks(Cfg(), Contents(), trace)
    }

    /** No two keys share a bucket object. */
    ghost predicate Unshared()
      reads this
    {
      forall k, l | k in buckets && l in buckets && k != l :: buckets[k] != buckets[l]
    }

    constructor (rate: int, capacity: int, interval: int)
      requires interval > 0
      ensures Valid() && trace == [] && buckets == map[] && Cfg() == Config(rate, capacity, interval)
    {
      this.rate, this.capacity, this.interval := rate, capacity, interval;
      cleanup := interval * 10;
      buckets := map[];
      trace := [];
    }

    /** The bucket of a key, made full on its first call. */
    method BucketFor(key: Key, now: int) returns (b: Bucket)
      requires Unshared()
      modifies this`buckets
      ensures Unshared() && key in buckets && b == buckets[key]
      ensures b.State() == Found(Cfg(), Find(old(Contents()), key), now)
      ensures Contents() == old(Contents())[key := b.State()]
      ensures fresh(buckets.Values - old(buckets.Values))
    {
      if key !in buckets {
        var created := new Bucket(capacity, now);
        buckets := buckets[key := created];
      }
      b := buckets[key];
    }

    /** The part of Allow that works on the map. */
    method TakeFor(key: Key, now: int) returns (allowed: bool, info: Info)
      requires interval > 0 && Unshared()
      modifies this`buckets, buckets.Values
      ensures Unshared()
      ensures Contents() == AfterCall(Cfg(), old(Contents()), key, now)
      ensures Answer(allowed, info) == Serve(Cfg(), Found(Cfg(), Find(old(Contents()), key), now), now).answer
      ensures fresh(buckets.Values - old(buckets.Values))
    {
      var b := BucketFor(key, now);
      allowed, info := TakeKnown(key, now);
    }

    method TakeKnown(key: Key, now: int) returns (allowed: bool, info: Info)
      requires interval > 0 && Unshared() && key in buckets
      modifies buckets[key]
      ensures var served := Serve(Cfg(), old(Contents())[key], now);
              Contents() == old(Contents())[key := served.bucket] && Answer(allowed, info) == served.answer
    {
      var b := buckets[key];
      allowed, info := b.Take(rate, capacity, interval, now);
      assert Contents() == old(Contents())[key := b.State()];
    }

    method Allow(key: Key, now: int) returns (allowed: bool, info: Info)
      requires Valid() && Chronological(trace + [Call(key, now)])
      modifies this, buckets.Values
      ensures Valid() && trace == old(trace) + [Call(key, now)]
      ensures Answer(allowed, info) == AnswerAt(Cfg(), trace, |trace| - 1)
      ensures fresh(buckets.Values - old(buckets.Values))
    {
      TracksCall(Cfg(), Contents(), trace, key, now);
      AnswerExtend(Cfg(), trace, key, now);
      assert Find(Contents(), key) == BucketOf(Cfg(), trace, key);
      allowed, info := TakeFor(key, now);
      trace := trace + [Call(key, now)];
    }

    method Reset(key: Key, ghost now: int)
      requires Valid() && Chronological(trace + [Event.Reset(key, now)])
      modifies this
      ensures Valid() && trace == old(trace) + [Event.Reset(key, now)]
      ensures buckets == old(buckets) - {key}
    {
      TracksReset(Cfg(), Contents(), trace, key, now);
      buckets := buckets - {key};
      trace := trace + [Event.Reset(key, now)];
      assert Contents() == old(Contents()) - {key};
    }

    /** One tick of cleanupRoutine. */
    method Cleanup(now: int)
      requires Valid() && Chronological(trace + [Tick(now)])
      modifies this
      ensures Valid() && trace == old(trace) + [Tick(now)]
      ensures buckets == map k | k in old(buckets) && !Idle(Cfg(), old(buckets)[k].State(), now) :: old(buckets)[k]
    {
      DropIdle(now);
      TracksTick(Cfg(), old(Contents()), trace, now);
      trace := trace + [Tick(now)];
      assert Contents() == AfterTick(Cfg(), old(Contents()), now);
    }

    /** The loop of a tick. */
    method DropIdle(now: int)
      requires interval > 0 && cleanup == 10 * interval
      modifies this`buckets
      ensures buckets == map k | k in old(buckets) && !Idle(Cfg(), old(buckets)[k].State(), now) :: old(buckets)[k]
    {
      var todo := buckets.Keys;
      while todo != {}
        invariant todo <= buckets.Keys
        invariant buckets == map k | k in old(buckets)
                  && (k in todo || !Idle(Cfg(), old(buckets)[k].State(), now)) :: old(buckets)[k]
      {
        var key :| key in todo;
        if now - buckets[key].lastRefill > cleanup {
          buckets := buckets - {key};
        }
        todo := todo - {key};
      }
    }
  }
}
