/** What the two rate limiters of api/ratelimit.go share: keys, answers and the
    events that their mutex puts in order.  Times are nanoseconds. */
module RateLimit {

  type Key = string

  const SECOND: int := 1_000_000_000

  /** The numbers behind the X-RateLimit headers. */
  datatype Info = Info(limit: int, remaining: int, reset: int, retryAfter: int)

  datatype Answer = Answer(allowed: bool, info: Info)

  /** One critical section of a limiter, at the instant its clock is read. */
  datatype Event =
    | Call(key: Key, now: int)
    | Tick(now: int)
    | Reset(key: Key, now: int)

  ghost predicate Chronological(es: seq<Event>) {
    forall i, j | 0 <= i <= j < |es| :: es[i].now <= es[j].now
  }

  /** No call of Reset for this key in es[lo..hi]. */
  ghost predicate NoResetBetween(es: seq<Event>, key: Key, lo: nat, hi: nat)
    requires lo <= hi <= |es|
  {
    forall m | lo <= m < hi :: !(es[m].Reset? && es[m].key == key)
  }

  predicate IsCall(e: Event, key: Key) {
    e.Call? && e.key == key
  }

  /** The same event n times. */
  function Repeat(e: Event, n: nat): (es: seq<Event>)
    ensures |es| == n && forall i | 0 <= i < n :: es[i] == e
  {
    if n == 0 then [] else Repeat(e, n - 1) + [e]
  }

  /** Whole seconds from now until the reset, but never less than one. */
  function RetrySeconds(reset: int, now: int): int {
    var seconds := (reset - now) / 1_000_000_000;
    if seconds < 1 then 1 else seconds
  }

  /** n is the number of whole seconds in the wait, but never less than one. */
  predicate WholeSeconds(n: int, wait: int) {
    n >= 1 && (if wait < SECOND then n == 1 else n * SECOND <= wait < (n + 1) * SECOND)
  }

  lemma RetrySecondsAreWhole(reset: int, now: int)
    ensures WholeSeconds(RetrySeconds(reset, now), reset - now)
  {
  }

  /** Waiting for the advertised number of seconds reaches the reset exactly when
      nothing was cut off by rounding down. */
  lemma RetryReachesReset(reset: int, now: int)
    requires now <= reset
    ensures reset <= now + RetrySeconds(reset, now) * SECOND
            <==> reset - now <= SECOND || (reset - now) % SECOND == 0
  {
  }
}
