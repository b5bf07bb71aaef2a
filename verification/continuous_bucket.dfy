/** A token bucket over the reals: it refills continuously, at a rate that may vary up
    to a maximum, and is capped. */
module ContinuousBuckets {
  import opened Basics

  datatype Level = Level(tokens: real, lastUpdate: real)

  function Capped(x: real, cap: real): real {
    if x > cap then cap else x
  }

  /** The level after refilling at rate tokens per second. */
  function Refill(b: Level, rate: real, cap: real, now: real): Level {
    Level(Capped(b.tokens + (now - b.lastUpdate) * rate, cap), now)
  }

  lemma RefillIs(b: Level, rate: real, cap: real, now: real, gain: real)
    requires gain == (now - b.lastUpdate) * rate
    ensures Refill(b, rate, cap, now) == Level(Capped(b.tokens + gain, cap), now)
  {
  }

  ghost predicate WellFormed(b: Level, cap: real, clock: real) {
    0.0 <= b.tokens <= cap && b.lastUpdate <= clock
  }

  /** What a bucket of this capacity and rate may hand out during [s, t]. */
  function Budget(cap: real, rate: real, s: real, t: real): real {
    cap + (t - s) * rate
  }

  /** acc tokens were handed out at refill times in [s, e]; the bucket is missing when it
      has not been made yet or was forgotten. */
  ghost predicate Paid(o: Option<Level>, acc: nat, cap: real, rate: real, s: real, e: real, clock: real) {
    && s <= e
    && acc as real <= Budget(cap, rate, s, e)
    && match o
       case None => acc == 0 || e < clock || (s <= clock && acc as real <= Budget(0.0, rate, s, clock))
       case Some(b) =>
         && (b.lastUpdate < s ==> acc == 0)
         && (s <= b.lastUpdate <= e ==> acc as real + b.tokens <= Budget(cap, rate, s, b.lastUpdate))
  }

  lemma BudgetMonotone(cap: real, rate: real, s: real, t: real, u: real)
    requires t <= u && 0.0 <= rate
    ensures Budget(cap, rate, s, t) <= Budget(cap, rate, s, u)
    ensures Budget(cap, rate, s, s) == cap
  {
    assert (u - t) * rate >= 0.0;
  }

  lemma BudgetAdd(cap: real, rate: real, s: real, t: real, gain: real, u: real)
    requires gain <= (u - t) * rate
    ensures Budget(cap, rate, s, t) + gain <= Budget(cap, rate, s, u)
    ensures Budget(cap, rate, s, t) == cap + Budget(0.0, rate, s, t)
  {
    assert (u - s) * rate == (t - s) * rate + (u - t) * rate;
  }

  lemma PaidAtFirst(cap: real, rate: real, s: real, e: real, clock: real)
    requires 0.0 <= cap && 0.0 <= rate && s <= e
    ensures Paid(None, 0, cap, rate, s, e, clock)
  {
    BudgetMonotone(cap, rate, s, s, e);
  }

  lemma PaidLater(acc: nat, cap: real, rate: real, s: real, e: real, clock: real, now: real)
    requires Paid(None, acc, cap, rate, s, e, clock) && clock <= now && 0.0 <= rate
    ensures Paid(None, acc, cap, rate, s, e, now)
  {
    BudgetMonotone(0.0, rate, s, clock, now);
  }

  lemma PaidMake(acc: nat, cap: real, rate: real, s: real, e: real, clock: real, now: real)
    requires Paid(None, acc, cap, rate, s, e, clock) && clock <= now && 0.0 <= cap && 0.0 <= rate
    ensures Paid(Some(Level(cap, now)), acc, cap, rate, s, e, now)
  {
    if s <= now {
      BudgetMonotone(0.0, rate, s, s, now);
    }
    BudgetMonotone(0.0, rate, s, clock, now);
    BudgetAdd(cap, rate, s, now, 0.0, now);
  }

  lemma ProductNonNegative(x: real, y: real)
    requires 0.0 <= x && 0.0 <= y
    ensures 0.0 <= x * y
  {
  }

  lemma GainBounds(time: real, r: real, rate: real)
    requires 0.0 <= time && 0.0 <= r <= rate
    ensures 0.0 <= time * r <= time * rate
  {
    ProductNonNegative(time, r);
    ProductNonNegative(time, rate - r);
    assert time * (rate - r) == time * rate - time * r;
  }

  /** No time passes, nothing is refilled. */
  lemma RefillAtOnce(b: Level, rate: real, cap: real)
    requires b.tokens <= cap
    ensures Refill(b, rate, cap, b.lastUpdate) == b
  {
    assert (b.lastUpdate - b.lastUpdate) * rate == 0.0 * rate == 0.0;
  }

  /** Refilling at any rate up to the maximum stays within the budget. */
  lemma PaidRefill(b: Level, r: real, acc: nat, cap: real, rate: real, s: real, e: real, now: real)
    requires Paid(Some(b), acc, cap, rate, s, e, b.lastUpdate)
    requires WellFormed(b, cap, now) && 0.0 <= r <= rate
    ensures Paid(Some(Refill(b, r, cap, now)), acc, cap, rate, s, e, now)
    ensures WellFormed(Refill(b, r, cap, now), cap, now)
  {
    var gain := (now - b.lastUpdate) * r;
    GainBounds(now - b.lastUpdate, r, rate);
    assert 0.0 <= gain;
    assert Refill(b, r, cap, now) == Level(Capped(b.tokens + gain, cap), now);
    BudgetAdd(cap, rate, s, b.lastUpdate, gain, now);
    if s <= now {
      BudgetMonotone(cap, rate, s, s, now);
    }
  }

  /** Taking a token that was refilled in [s, e] counts; taking any other does not. */
  lemma PaidTake(b: Level, acc: nat, cap: real, rate: real, s: real, e: real, clock: real)
    requires Paid(Some(b), acc, cap, rate, s, e, clock) && b.tokens >= 1.0 && 0.0 <= rate
    ensures Paid(Some(b.(tokens := b.tokens - 1.0)), acc + if s <= b.lastUpdate <= e then 1 else 0,
                 cap, rate, s, e, clock)
  {
    if s <= b.lastUpdate <= e {
      BudgetMonotone(cap, rate, s, b.lastUpdate, e);
    }
  }

  /** Taking a token without handing it out only lowers the level. */
  lemma PaidDrop(b: Level, acc: nat, cap: real, rate: real, s: real, e: real, clock: real)
    requires Paid(Some(b), acc, cap, rate, s, e, clock)
    ensures Paid(Some(b.(tokens := b.tokens - 1.0)), acc, cap, rate, s, e, clock)
  {
  }

  /** The bucket a request works on: a missing one is made full. */
  function Found(o: Option<Level>, cap: real, now: real): Level {
    if o.Some? then o.value else Level(cap, now)
  }

  /** Finding, refilling and taking in one go. */
  lemma PaidServe(o: Option<Level>, acc: nat, cap: real, r: real, rate: real, s: real, e: real, clock: real, now: real)
    requires Paid(o, acc, cap, rate, s, e, clock) && (o.Some? ==> WellFormed(o.value, cap, clock))
    requires clock <= now && 0.0 <= cap && 0.0 <= r <= rate
    ensures var b := Refill(Found(o, cap, now), r, cap, now);
            && WellFormed(b, cap, now) && Paid(Some(b), acc, cap, rate, s, e, now)
            && (b.tokens >= 1.0 ==>
                  && Paid(Some(b.(tokens := b.tokens - 1.0)), acc, cap, rate, s, e, now)
                  && Paid(Some(b.(tokens := b.tokens - 1.0)), acc +
                          if s <= now <= e then 1 else 0, cap, rate, s, e, now))
  {
    if o.None? {
      PaidMake(acc, cap, rate, s, e, clock, now);
    }
    var found := Found(o, cap, now);
    PaidRefill(found, r, acc, cap, rate, s, e, now);
    var b := Refill(found, r, cap, now);
    if b.tokens >= 1.0 {
      PaidTake(b, acc, cap, rate, s, e, now);
      PaidDrop(b, acc, cap, rate, s, e, now);
    }
  }

  /** Forgetting a bucket idle for longer than it takes to fill it is paid for. */
  lemma PaidForget(b: Level, acc: nat, cap: real, rate: real, s: real, e: real, now: real, idle: real)
    requires Paid(Some(b), acc, cap, rate, s, e, b.lastUpdate)
    requires WellFormed(b, cap, now) && 0.0 <= rate
    requires now - b.lastUpdate > idle && idle * rate >= cap
    ensures Paid(None, acc, cap, rate, s, e, now)
  {
    if s <= b.lastUpdate <= e {
      assert cap <= (now - b.lastUpdate) * rate by {
        assert (now - b.lastUpdate - idle) * rate >= 0.0;
      }
      BudgetAdd(0.0, rate, s, b.lastUpdate, cap, now);
      BudgetAdd(cap, rate, s, b.lastUpdate, 0.0, b.lastUpdate);
    }
  }

  /** A bucket, if there is one, is well formed and its hand-outs are paid for. */
  ghost predicate OnBudget(o: Option<Level>, acc: nat, cap: real, rate: real, s: real, e: real, clock: real) {
    (o.Some? ==> WellFormed(o.value, cap, clock)) && Paid(o, acc, cap, rate, s, e, clock)
  }

  // ---------- What a bucket has to hand out ----------

  function Least(x: real, y: real): real {
    if x < y then x else y
  }

  /** With acc tokens taken since s the bucket holds at least what the refills since s brought, or
      its capacity if that is less. */
  ghost predicate Serves(b: Level, acc: nat, cap: real, rate: real, s: real) {
    b.tokens >= Least(cap, Budget(0.0, rate, s, b.lastUpdate)) - acc as real
  }

  /** With acc tokens taken since s, when it was full, it holds at least the rest of that and of
      all the refills since. */
  ghost predicate Owes(b: Level, acc: nat, cap: real, rate: real, s: real) {
    s <= b.lastUpdate && b.tokens >= Budget(cap, rate, s, b.lastUpdate) - acc as real
  }

  lemma FullServes(acc: nat, cap: real, rate: real, s: real, now: real)
    ensures Serves(Level(cap, now), acc, cap, rate, s)
    ensures Owes(Level(cap, now), acc, cap, rate, now)
  {
    assert (now - now) * rate == 0.0;
  }

  lemma BudgetSplit(cap: real, rate: real, s: real, t: real, u: real)
    ensures Budget(cap, rate, s, u) == Budget(cap, rate, s, t) + (u - t) * rate
  {
    assert (u - s) * rate == (t - s) * rate + (u - t) * rate;
  }

  lemma GainServes(tokens: real, before: real, low: real, gain: real, acc: nat, cap: real)
    requires tokens >= Least(cap, before) - acc as real && 0.0 <= low <= gain
    ensures Capped(tokens + gain, cap) >= Least(cap, before + low) - acc as real
  {
  }

  /** A refill at this rate or a higher one. */
  lemma RefillServes(b: Level, r: real, acc: nat, cap: real, rate: real, s: real, now: real)
    requires 0.0 <= rate <= r && b.lastUpdate <= now && Serves(b, acc, cap, rate, s)
    ensures Serves(Refill(b, r, cap, now), acc, cap, rate, s)
  {
    var low, gain := RefillGains(b, r, cap, rate, now);
    BudgetSplit(0.0, rate, s, b.lastUpdate, now);
    GainServes(b.tokens, Budget(0.0, rate, s, b.lastUpdate), low, gain, acc, cap);
  }

  /** A refill brings gain, of which low is certain. */
  lemma RefillGains(b: Level, r: real, cap: real, rate: real, now: real) returns (low: real, gain: real)
    requires 0.0 <= rate <= r && b.lastUpdate <= now
    ensures 0.0 <= low <= gain && low == (now - b.lastUpdate) * rate
    ensures Refill(b, r, cap, now) == Level(Capped(b.tokens + gain, cap), now)
  {
    low, gain := (now - b.lastUpdate) * rate, (now - b.lastUpdate) * r;
    GainBounds(now - b.lastUpdate, rate, r);
  }

  lemma RefillOwes(b: Level, r: real, acc: nat, cap: real, rate: real, s: real, now: real)
    requires 0.0 <= rate <= r && b.lastUpdate <= now && Owes(b, acc, cap, rate, s)
    ensures var full := Refill(b, r, cap, now);
            Owes(full, acc, cap, rate, s) || (full.tokens == cap && Owes(full, acc, cap, rate, now))
  {
    var low, gain := RefillGains(b, r, cap, rate, now);
    BudgetSplit(cap, rate, s, b.lastUpdate, now);
    if b.tokens + gain > cap {
      FullServes(acc, cap, rate, s, now);
    } else {
      GainOwes(b.tokens, Budget(cap, rate, s, b.lastUpdate), low, gain, acc);
    }
  }

  lemma GainOwes(tokens: real, before: real, low: real, gain: real, acc: nat)
    requires tokens >= before - acc as real && low <= gain
    ensures tokens + gain >= before + low - acc as real
  {
  }

  /** A token taken counts if it was refilled since s. */
  lemma TakeServes(b: Level, acc: nat, cap: real, rate: real, s: real)
    requires b.tokens >= 1.0 && 0.0 <= rate && Serves(b, acc, cap, rate, s)
    ensures Serves(b.(tokens := b.tokens - 1.0), acc + if s <= b.lastUpdate then 1 else 0, cap, rate, s)
  {
    if b.lastUpdate < s {
      ProductNonNegative(s - b.lastUpdate, rate);
      assert (b.lastUpdate - s) * rate == -((s - b.lastUpdate) * rate);
    }
  }

  lemma TakeOwes(b: Level, acc: nat, cap: real, rate: real, s: real)
    requires Owes(b, acc, cap, rate, s)
    ensures Owes(b.(tokens := b.tokens - 1.0), acc + 1, cap, rate, s)
  {
  }
}
