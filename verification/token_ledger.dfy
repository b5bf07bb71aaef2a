/** The token bucket's answers from the calls alone: what a key may still take is what is
    left, over every stretch of calls up to now, of a full bucket and the refills credited in
    it.  No bucket appears in this account. */
module TokenLedger {
  import opened Basics
  import opened RateLimit
  import opened TokenBuckets

  // ---------- When refills are credited ----------

  /** What the whole intervals since the last credit bring. */
  function Gain(cfg: Config, since: Option<int>, now: int): int
    requires cfg.interval > 0
  {
    if since.None? then 0 else (now - since.value) / cfg.interval * cfg.rate
  }

  function ClockAfter(cfg: Config, since: Option<int>, e: Event, key: Key): Option<int>
    requires cfg.interval > 0
  {
    match e
    case Call(k, now) => if k == key && (since.None? || Gain(cfg, since, now) > 0) then Some(now) else since
    case Tick(now) => if since.Some? && now - since.value > 10 * cfg.interval then None else since
    case Reset(k, _) => if k == key then None else since
  }

  /** The time of the key's last credit; there is none before its first call, after a reset,
      and after a tick of cleanup more than ten intervals later. */
  function Clock(cfg: Config, es: seq<Event>, key: Key): Option<int>
    requires cfg.interval > 0
  {
    if es == [] then None
    else ClockAfter(cfg, Clock(cfg, es[..|es| - 1], key), es[|es| - 1], key)
  }

  /** What the event e credits after the run es. */
  function Credit(cfg: Config, es: seq<Event>, e: Event, key: Key): nat
    requires cfg.interval > 0
  {
    if IsCall(e, key) && Gain(cfg, Clock(cfg, es, key), e.now) > 0 then Gain(cfg, Clock(cfg, es, key), e.now) else 0
  }

  /** The credits after event j. */
  function Credited(cfg: Config, es: seq<Event>, key: Key, j: nat): nat
    requires cfg.interval > 0
    decreases |es|
  {
    if |es| <= j + 1 then 0
    else Credited(cfg, es[..|es| - 1], key, j) + Credit(cfg, es[..|es| - 1], es[|es| - 1], key)
  }

  /** The calls of the key accepted from event j on. */
  function Accepted(cfg: Config, es: seq<Event>, key: Key, j: nat): nat
    requires cfg.interval > 0
    decreases |es|
  {
    if |es| <= j then 0
    else
      var n := |es| - 1;
      Accepted(cfg, es[..n], key, j) + if IsCall(es[n], key) && AnswerAt(cfg, es, n).allowed then 1 else 0
  }

  /** From the call at j to the end of the run the key was neither reset nor forgotten. */
  predicate Stretch(cfg: Config, es: seq<Event>, key: Key, j: nat)
    requires cfg.interval > 0
    decreases |es|
  {
    && j < |es|
    && if |es| == j + 1 then IsCall(es[j], key)
       else Stretch(cfg, es[..|es| - 1], key, j) && Clock(cfg, es, key).Some?
  }

  /** What a bucket full at call j would have left. */
  function Room(cfg: Config, es: seq<Event>, key: Key, j: nat): int
    requires cfg.interval > 0
  {
    cfg.capacity + Credited(cfg, es, key, j) - Accepted(cfg, es, key, j)
  }

  // ---------- The bucket keeps this account ----------

  /** left is the least that any stretch leaves. */
  ghost predicate LeastRoom(cfg: Config, es: seq<Event>, key: Key, left: int)
    requires cfg.interval > 0
  {
    && (forall j: nat | Stretch(cfg, es, key, j) :: left <= Room(cfg, es, key, j))
    && exists j: nat :: Stretch(cfg, es, key, j) && Room(cfg, es, key, j) == left
  }

  ghost predicate Accounts(cfg: Config, es: seq<Event>, key: Key)
    requires cfg.interval > 0
  {
    match BucketOf(cfg, es, key)
    case None => Clock(cfg, es, key) == None && forall j: nat :: !Stretch(cfg, es, key, j)
    case Some(b) => Clock(cfg, es, key) == Some(b.lastRefill) && LeastRoom(cfg, es, key, b.tokens)
  }

  lemma ClockExtend(cfg: Config, es: seq<Event>, e: Event, key: Key)
    requires cfg.interval > 0
    ensures Clock(cfg, es + [e], key) == ClockAfter(cfg, Clock(cfg, es, key), e, key)
  {
    assert (es + [e])[..|es|] == es;
  }

  /** Whether the call e after es is accepted. */
  function Takes(cfg: Config, es: seq<Event>, e: Event, key: Key): nat
    requires cfg.interval > 0
  {
    if IsCall(e, key) && Serve(cfg, Found(cfg, BucketOf(cfg, es, key), e.now), e.now).answer.allowed then 1 else 0
  }

  lemma RoomExtend(cfg: Config, es: seq<Event>, e: Event, key: Key, j: nat)
    requires cfg.interval > 0 && j < |es|
    ensures Stretch(cfg, es + [e], key, j) <==> Stretch(cfg, es, key, j) && Clock(cfg, es + [e], key).Some?
    ensures Room(cfg, es + [e], key, j)
            == Room(cfg, es, key, j) + Credit(cfg, es, e, key) - Takes(cfg, es, e, key)
  {
    assert (es + [e])[..|es|] == es;
  }

  /** The stretch that starts with the new event. */
  lemma RoomAtOnce(cfg: Config, es: seq<Event>, e: Event, key: Key)
    requires cfg.interval > 0
    ensures Stretch(cfg, es + [e], key, |es|) <==> IsCall(e, key)
    ensures Room(cfg, es + [e], key, |es|) == cfg.capacity - Takes(cfg, es, e, key)
  {
    assert (es + [e])[..|es|] == es;
    assert Accepted(cfg, es, key, |es|) == 0;
  }

  /** A stretch ends where the clock is lost. */
  lemma Lost(cfg: Config, es: seq<Event>, e: Event, key: Key)
    requires cfg.interval > 0 && Clock(cfg, es + [e], key).None?
    ensures forall j: nat :: !Stretch(cfg, es + [e], key, j)
  {
    forall j: nat ensures !Stretch(cfg, es + [e], key, j) {
      if j < |es| {
        RoomExtend(cfg, es, e, key, j);
      } else if j == |es| {
        RoomAtOnce(cfg, es, e, key);
        ClockExtend(cfg, es, e, key);
      }
    }
  }

  /** The refilled bucket a call is served from holds the least room of all stretches, its own
      among them. */
  ghost predicate Before(cfg: Config, es: seq<Event>, key: Key, now: int, left: int)
    requires cfg.interval > 0
  {
    var credit := Credit(cfg, es, Call(key, now), key);
    && left <= cfg.capacity
    && (forall j: nat | Stretch(cfg, es, key, j) :: left <= Room(cfg, es, key, j) + credit)
    && (left == cfg.capacity || exists j: nat :: Stretch(cfg, es, key, j) && Room(cfg, es, key, j) + credit == left)
  }

  lemma RefillAccounts(cfg: Config, es: seq<Event>, key: Key, now: int)
    requires cfg.interval > 0 && Accounts(cfg, es, key)
    requires BucketOf(cfg, es, key).Some? ==> BucketOf(cfg, es, key).value.tokens <= cfg.capacity
    ensures var r := Refilled(cfg, Found(cfg, BucketOf(cfg, es, key), now), now);
            && Before(cfg, es, key, now, r.tokens)
            && Some(r.lastRefill) == ClockAfter(cfg, Clock(cfg, es, key), Call(key, now), key)
  {
    assert Intervals(cfg, now, now) * cfg.rate == 0;
    if BucketOf(cfg, es, key).Some? {
      var tokens := BucketOf(cfg, es, key).value.tokens;
      var j: nat :| Stretch(cfg, es, key, j) && Room(cfg, es, key, j) == tokens;
    }
  }

  lemma CallAccounts(cfg: Config, es: seq<Event>, key: Key, now: int, left: int, taken: nat)
    requires cfg.interval > 0 && Before(cfg, es, key, now, left) && taken == Takes(cfg, es, Call(key, now), key)
    requires Clock(cfg, es + [Call(key, now)], key).Some?
    ensures LeastRoom(cfg, es + [Call(key, now)], key, left - taken)
  {
    var e := Call(key, now);
    RoomAtOnce(cfg, es, e, key);
    forall j: nat | Stretch(cfg, es + [e], key, j) ensures left - taken <= Room(cfg, es + [e], key, j) {
      if j < |es| {
        RoomExtend(cfg, es, e, key, j);
      }
    }
    if left != cfg.capacity {
      var j: nat :| Stretch(cfg, es, key, j) && Room(cfg, es, key, j) + Credit(cfg, es, e, key) == left;
      RoomExtend(cfg, es, e, key, j);
    }
  }

  /** Events that leave the key's bucket alone leave its account alone. */
  lemma OtherAccounts(cfg: Config, es: seq<Event>, e: Event, key: Key, left: int)
    requires cfg.interval > 0 && LeastRoom(cfg, es, key, left) && !IsCall(e, key)
    requires Clock(cfg, es + [e], key).Some?
    ensures LeastRoom(cfg, es + [e], key, left)
  {
    RoomAtOnce(cfg, es, e, key);
    forall j: nat | Stretch(cfg, es + [e], key, j) ensures left <= Room(cfg, es + [e], key, j) {
      if j < |es| {
        RoomExtend(cfg, es, e, key, j);
      }
    }
    var j: nat :| Stretch(cfg, es, key, j) && Room(cfg, es, key, j) == left;
    RoomExtend(cfg, es, e, key, j);
  }

  lemma AccountsExtend(cfg: Config, es: seq<Event>, e: Event, key: Key)
    requires cfg.interval > 0 && Accounts(cfg, es, key)
    requires BucketOf(cfg, es, key).Some? ==> BucketOf(cfg, es, key).value.tokens <= cfg.capacity
    ensures Accounts(cfg, es + [e], key)
  {
    BucketExtend(cfg, es, e, key);
    ClockExtend(cfg, es, e, key);
    if IsCall(e, key) {
      var r := Refilled(cfg, Found(cfg, BucketOf(cfg, es, key), e.now), e.now);
      RefillAccounts(cfg, es, key, e.now);
      CallAccounts(cfg, es, key, e.now, r.tokens, Takes(cfg, es, e, key));
    } else if Clock(cfg, es + [e], key).None? {
      Lost(cfg, es, e, key);
    } else {
      OtherAccounts(cfg, es, e, key, BucketOf(cfg, es, key).value.tokens);
    }
  }

  lemma {:induction false} RunAccounts(cfg: Config, es: seq<Event>, key: Key)
    requires cfg.interval > 0 && Chronological(es)
    ensures Accounts(cfg, es, key)
  {
    if es != [] {
      var front := es[..|es| - 1];
      RunAccounts(cfg, front, key);
      BucketWellFormed(cfg, front, key);
      AccountsExtend(cfg, front, es[|es| - 1], key);
      assert es == front + [es[|es| - 1]];
    }
  }

  // ---------- The answers ----------

  /** What a call still finds, itself included. */
  function Left(a: Answer): int {
    a.info.remaining + if a.allowed then 1 else 0
  }

  /** Every answer, from the calls, ticks and resets alone: Remaining is the least room that any
      stretch of calls up to this one leaves, a call is accepted exactly when that is positive,
      and the reset lies one interval after the last credit. */
  lemma AnswerIsExact(cfg: Config, es: seq<Event>, i: nat)
    requires cfg.interval > 0 && Chronological(es) && i < |es| && es[i].Call?
    ensures var a, key := AnswerAt(cfg, es, i), es[i].key;
            && Before(cfg, es[..i], key, es[i].now, Left(a)) && (a.allowed <==> Left(a) > 0)
            && Some(a.info.reset - cfg.interval) == Clock(cfg, es[..i + 1], key)
            && a.info.limit == cfg.capacity
            && (if a.allowed then a.info.retryAfter == 0 else WholeSeconds(a.info.retryAfter, a.info.reset - es[i].now))
  {
    var key := es[i].key;
    RunAccounts(cfg, es[..i], key);
    BucketWellFormed(cfg, es[..i], key);
    RefillAccounts(cfg, es[..i], key, es[i].now);
    ClockExtend(cfg, es[..i], es[i], key);
    RetrySecondsAreWhole(AnswerAt(cfg, es, i).info.reset, es[i].now);
    assert es[..i] + [es[i]] == es[..i + 1];
  }

  /** In the stretch from j on the key has used up a whole bucket and all that was credited
      since, up to a call at this time. */
  ghost predicate UsedUp(cfg: Config, es: seq<Event>, key: Key, now: int, j: nat)
    requires cfg.interval > 0
  {
    && Stretch(cfg, es, key, j)
    && Accepted(cfg, es, key, j) >= cfg.capacity + Credited(cfg, es, key, j) + Credit(cfg, es, Call(key, now), key)
  }

  lemma UsedUpIff(cfg: Config, es: seq<Event>, key: Key, now: int, left: int)
    requires cfg.interval > 0 && cfg.capacity >= 1 && Before(cfg, es, key, now, left)
    ensures left <= 0 <==> exists j: nat :: UsedUp(cfg, es, key, now, j)
  {
    var credit := Credit(cfg, es, Call(key, now), key);
    if left <= 0 {
      var j: nat :| Stretch(cfg, es, key, j) && Room(cfg, es, key, j) + credit == left;
      assert UsedUp(cfg, es, key, now, j);
    }
    if j: nat :| UsedUp(cfg, es, key, now, j) {
      assert left <= Room(cfg, es, key, j) + credit;
    }
  }

  /** So a call is denied exactly when some stretch up to it is used up. */
  lemma DeniedIff(cfg: Config, es: seq<Event>, i: nat)
    requires cfg.interval > 0 && cfg.capacity >= 1 && Chronological(es) && i < |es| && es[i].Call?
    ensures !AnswerAt(cfg, es, i).allowed <==> exists j: nat :: UsedUp(cfg, es[..i], es[i].key, es[i].now, j)
  {
    AnswerIsExact(cfg, es, i);
    UsedUpIff(cfg, es[..i], es[i].key, es[i].now, Left(AnswerAt(cfg, es, i)));
  }
}
