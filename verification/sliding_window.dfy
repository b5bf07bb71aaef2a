/** The sliding window limiter of api/ratelimit.go.  The limiter keeps a pruned list
    of accepted times for each key and forgets idle keys; the specification answers
    from the complete list of accepted times. */
module SlidingWindows {
  import opened RateLimit

  datatype Config = Config(limit: nat, duration: int)

  // ---------- Specification: answers from the complete history ----------

  /** The first index from i on whose time is after lo. */
  function CutFrom(h: seq<int>, lo: int, i: nat): (m: nat)
    requires i <= |h|
    ensures i <= m <= |h|
    decreases |h| - i
  {
    if i == |h| || lo < h[i] then i else CutFrom(h, lo, i + 1)
  }

  /** The number of leading times of h that are not after lo. */
  function Cut(h: seq<int>, lo: int): nat {
    CutFrom(h, lo, 0)
  }

  /** How many accepted calls still count at time now, when h lists them all. */
  function Used(cfg: Config, h: seq<int>, now: int): nat {
    |h| - Cut(h, now - cfg.duration)
  }

  predicate Admits(cfg: Config, h: seq<int>, now: int) {
    Used(cfg, h, now) < cfg.limit
  }

  /** The answer at time now: the oldest call that still counts sets the reset. */
  function Decide(cfg: Config, h: seq<int>, now: int): Answer {
    var used := Used(cfg, h, now);
    if Admits(cfg, h, now) then
      Answer(true, Info(cfg.limit, cfg.limit - used - 1, now + cfg.duration, 0))
    else if used == 0 then
      Answer(false, Info(cfg.limit, cfg.limit, now + cfg.duration, 0))
    else
      var reset := h[|h| - used] + cfg.duration;
      Answer(false, Info(cfg.limit, cfg.limit - used, reset, RetrySeconds(reset, now)))
  }

  /** Every accepted time of a key since its last Reset; nothing is ever pruned. */
  function History(cfg: Config, es: seq<Event>, key: Key): seq<int> {
    if es == [] then []
    else AfterEvent(cfg, History(cfg, es[..|es| - 1], key), es[|es| - 1], key)
  }

  function AfterEvent(cfg: Config, h: seq<int>, e: Event, key: Key): seq<int> {
    if e.Reset? && e.key == key then []
    else if e.Call? && e.key == key && Admits(cfg, h, e.now) then h + [e.now]
    else h
  }

  lemma HistoryExtend(cfg: Config, es: seq<Event>, e: Event, key: Key)
    ensures History(cfg, es + [e], key) == AfterEvent(cfg, History(cfg, es, key), e, key)
  {
    assert (es + [e])[..|es|] == es;
  }

  /** The answer to the call es[i]. */
  function AnswerAt(cfg: Config, es: seq<Event>, i: nat): Answer
    requires i < |es| && es[i].Call?
  {
    Decide(cfg, History(cfg, es[..i], es[i].key), es[i].now)
  }

  ghost predicate Sorted(h: seq<int>) {
    forall i, j | 0 <= i <= j < |h| :: h[i] <= h[j]
  }

  ghost predicate NoneAfter(h: seq<int>, now: int) {
    forall i | 0 <= i < |h| :: h[i] <= now
  }

  lemma {:induction false} HistorySorted(cfg: Config, es: seq<Event>, key: Key)
    requires Chronological(es)
    ensures Sorted(History(cfg, es, key))
    ensures es == [] ==> History(cfg, es, key) == []
    ensures es != [] ==> NoneAfter(History(cfg, es, key), es[|es| - 1].now)
  {
    if es != [] {
      HistorySorted(cfg, es[..|es| - 1], key);
    }
  }

  lemma HistoryBefore(cfg: Config, es: seq<Event>, i: nat, key: Key)
    requires Chronological(es) && i < |es|
    ensures var h := History(cfg, es[..i], key); Sorted(h) && NoneAfter(h, es[i].now)
  {
    HistorySorted(cfg, es[..i], key);
    if i > 0 {
      assert es[..i][i - 1] == es[i - 1];
    }
  }

  /** What counts for a call are the accepted times of the key in (now - duration, now]. */
  lemma RecentIsWindow(cfg: Config, es: seq<Event>, i: nat, k: nat)
    requires Chronological(es) && i < |es| && es[i].Call?
    requires k < |History(cfg, es[..i], es[i].key)|
    ensures var h := History(cfg, es[..i], es[i].key);
            Cut(h, es[i].now - cfg.duration) <= k <==> es[i].now - cfg.duration < h[k] <= es[i].now
  {
    CutSplits(History(cfg, es[..i], es[i].key), es[i].now - cfg.duration);
    HistoryBefore(cfg, es, i, es[i].key);
  }

  // ---------- The answers from the answers before ----------

  /** The times of the calls of a key that were answered with yes since its last Reset. */
  function AcceptedTimes(cfg: Config, es: seq<Event>, key: Key): seq<int> {
    if es == [] then []
    else
      var n := |es| - 1;
      var before := AcceptedTimes(cfg, es[..n], key);
      if es[n].Reset? && es[n].key == key then []
      else if es[n].Call? && es[n].key == key && AnswerAt(cfg, es, n).allowed then before + [es[n].now]
      else before
  }

  lemma {:induction false} AcceptedIsHistory(cfg: Config, es: seq<Event>, key: Key)
    ensures AcceptedTimes(cfg, es, key) == History(cfg, es, key)
  {
    if es != [] {
      AcceptedIsHistory(cfg, es[..|es| - 1], key);
    }
  }

  /** How many of these times are after lo. */
  function After(h: seq<int>, lo: int): nat {
    if h == [] then 0 else After(h[..|h| - 1], lo) + if h[|h| - 1] > lo then 1 else 0
  }

  lemma {:induction false} AfterSplit(h: seq<int>, lo: int, m: nat)
    requires m <= |h| && forall k | 0 <= k < |h| :: h[k] > lo <==> m <= k
    ensures After(h, lo) == |h| - m
  {
    if h != [] {
      AfterSplit(h[..|h| - 1], lo, if m < |h| then m else |h| - 1);
    }
  }

  /** The earliest of the times after lo. */
  ghost predicate Oldest(h: seq<int>, lo: int, t: int) {
    t in h && t > lo && forall u | u in h && u > lo :: t <= u
  }

  /** Every answer from the ones before: a call is accepted exactly when fewer than limit accepted
      calls lie within the duration before it, Remaining is what is left of the limit, and the
      oldest of them sets the reset of a denial. */
  lemma AnswerIsExact(cfg: Config, es: seq<Event>, i: nat)
    requires Chronological(es) && i < |es| && es[i].Call? && cfg.duration > 0
    ensures var a, now, h := AnswerAt(cfg, es, i), es[i].now, AcceptedTimes(cfg, es[..i], es[i].key);
            var recent := After(h, now - cfg.duration);
            && (a.allowed <==> recent < cfg.limit) && a.info.limit == cfg.limit
            && a.info.remaining == cfg.limit - recent - (if a.allowed then 1 else 0)
            && if a.allowed || recent == 0 then a.info.reset == now + cfg.duration && a.info.retryAfter == 0
               else Oldest(h, now - cfg.duration, a.info.reset - cfg.duration)
                    && WholeSeconds(a.info.retryAfter, a.info.reset - now)
  {
    var key, now := es[i].key, es[i].now;
    AcceptedIsHistory(cfg, es[..i], key);
    var h := History(cfg, es[..i], key);
    var m := Cut(h, now - cfg.duration);
    HistoryBefore(cfg, es, i, key);
    CutSplits(h, now - cfg.duration);
    AfterSplit(h, now - cfg.duration, m);
    RetrySecondsAreWhole(AnswerAt(cfg, es, i).info.reset, now);
  }

  // ---------- Spacing of accepted calls ----------

  /** Any limit + 1 consecutive accepted calls of a key span at least the duration. */
  lemma {:induction false} AcceptedAreSpaced(cfg: Config, es: seq<Event>, key: Key, i: nat)
    requires Chronological(es) && cfg.duration > 0
    requires i + cfg.limit < |History(cfg, es, key)|
    ensures History(cfg, es, key)[i + cfg.limit] - History(cfg, es, key)[i] >= cfg.duration
  {
    var n := |es| - 1;
    var h := History(cfg, es[..n], key);
    if i + cfg.limit < |h| {
      AcceptedAreSpaced(cfg, es[..n], key, i);
    } else {
      CutSplits(h, es[n].now - cfg.duration);
    }
  }

  /** No span shorter than the duration holds more than limit accepted calls. */
  lemma BurstBound(cfg: Config, es: seq<Event>, key: Key, i: nat, j: nat)
    requires Chronological(es) && cfg.duration > 0
    requires i <= j < |History(cfg, es, key)|
    requires History(cfg, es, key)[j] - History(cfg, es, key)[i] < cfg.duration
    ensures j - i + 1 <= cfg.limit
  {
    HistorySorted(cfg, es, key);
    if j - i >= cfg.limit {
      AcceptedAreSpaced(cfg, es, key, i);
    }
  }

  // ---------- Reset is the exact frontier ----------

  /** A denial finds exactly limit recent calls, and the oldest of them sets the reset. */
  lemma DenialWindow(cfg: Config, es: seq<Event>, i: nat) returns (m: nat)
    requires Chronological(es) && i < |es| && es[i].Call? && cfg.duration > 0 && cfg.limit >= 1
    requires !AnswerAt(cfg, es, i).allowed
    ensures var h := History(cfg, es[..i], es[i].key);
            && m == Cut(h, es[i].now - cfg.duration)
            && m + cfg.limit == |h|
            && AnswerAt(cfg, es, i).info.reset == h[m] + cfg.duration
  {
    var h := History(cfg, es[..i], es[i].key);
    m := Cut(h, es[i].now - cfg.duration);
    HistoryBefore(cfg, es, i, es[i].key);
    CutSplits(h, es[i].now - cfg.duration);
    if m + cfg.limit < |h| {
      AcceptedAreSpaced(cfg, es[..i], es[i].key, m);
    }
  }

  /** With an unchanged history, times before the reset are denied and later ones allowed. */
  lemma DeniedOn(cfg: Config, es: seq<Event>, i: nat, now: int)
    requires Chronological(es) && i < |es| && es[i].Call? && es[i].now <= now
    requires cfg.duration > 0 && cfg.limit >= 1
    requires !AnswerAt(cfg, es, i).allowed
    ensures var a := Decide(cfg, History(cfg, es[..i], es[i].key), now);
            var reset := AnswerAt(cfg, es, i).info.reset;
            && a.allowed == (reset <= now)
            && (now < reset ==> a.info.reset == reset)
  {
    var m := DenialWindow(cfg, es, i);
    var h := History(cfg, es[..i], es[i].key);
    CutMonotone(h, es[i].now - cfg.duration, now - cfg.duration);
    CutSplits(h, now - cfg.duration);
  }

  /** While every call of the key comes before the reset, nothing is accepted. */
  lemma {:induction false} HistoryFrozen(cfg: Config, es: seq<Event>, i: nat, j: nat)
    requires Chronological(es) && i <= j <= |es| && i < |es| && es[i].Call?
    requires cfg.duration > 0 && cfg.limit >= 1
    requires !AnswerAt(cfg, es, i).allowed
    requires NoResetBetween(es, es[i].key, i, j)
    requires forall k | i < k < j && IsCall(es[k], es[i].key) :: es[k].now < AnswerAt(cfg, es, i).info.reset
    ensures History(cfg, es[..j], es[i].key) == History(cfg, es[..i], es[i].key)
    decreases j
  {
    if i < j {
      HistoryFrozen(cfg, es, i, j - 1);
      assert es[..j][..j - 1] == es[..j - 1];
      if i < j - 1 && IsCall(es[j - 1], es[i].key) {
        DeniedOn(cfg, es, i, es[j - 1].now);
      }
    }
  }

  /** After a denial the reset it announced is exact: calls before it are denied with
      the same reset, and the first call from then on is allowed. */
  lemma ResetIsExact(cfg: Config, es: seq<Event>, i: nat, j: nat)
    requires Chronological(es) && i < j < |es| && es[i].Call? && IsCall(es[j], es[i].key)
    requires cfg.duration > 0 && cfg.limit >= 1
    requires !AnswerAt(cfg, es, i).allowed
    requires NoResetBetween(es, es[i].key, i, j)
    requires forall k | i < k < j && IsCall(es[k], es[i].key) :: es[k].now < AnswerAt(cfg, es, i).info.reset
    ensures var reset := AnswerAt(cfg, es, i).info.reset;
            && AnswerAt(cfg, es, j).allowed == (reset <= es[j].now)
            && (es[j].now < reset ==> AnswerAt(cfg, es, j).info.reset == reset)
  {
    HistoryFrozen(cfg, es, i, j);
    DeniedOn(cfg, es, i, es[j].now);
  }

  /** A client that waits for the announced number of seconds is let in exactly when no
      fraction of a second was cut off. */
  lemma RetryAfterExact(cfg: Config, es: seq<Event>, i: nat)
    requires Chronological(es) && i + 1 < |es| && es[i].Call? && IsCall(es[i + 1], es[i].key)
    requires cfg.duration > 0 && cfg.limit >= 1
    requires !AnswerAt(cfg, es, i).allowed
    requires es[i + 1].now == es[i].now + AnswerAt(cfg, es, i).info.retryAfter * SECOND
    ensures var wait := AnswerAt(cfg, es, i).info.reset - es[i].now;
            AnswerAt(cfg, es, i + 1).allowed <==> wait <= SECOND || wait % SECOND == 0
  {
    var m := DenialWindow(cfg, es, i);
    CutSplits(History(cfg, es[..i], es[i].key), es[i].now - cfg.duration);
    ResetIsExact(cfg, es, i, i + 1);
    RetryReachesReset(AnswerAt(cfg, es, i).info.reset, es[i].now);
  }

  /** es[i] is a denied call, and es[i + 1] its repetition after the announced seconds. */
  ghost predicate WaitedOut(cfg: Config, es: seq<Event>, i: nat) {
    && Chronological(es) && i + 1 < |es| && es[i].Call? && IsCall(es[i + 1], es[i].key)
    && !AnswerAt(cfg, es, i).allowed
    && es[i + 1].now == es[i].now + AnswerAt(cfg, es, i).info.retryAfter * SECOND
  }

  /** The announced seconds are enough in every run exactly when the window is at most one. */
  lemma RetryAfterSufficesIff(cfg: Config)
    requires cfg.duration > 0 && cfg.limit >= 1
    ensures cfg.duration <= SECOND
            <==> forall es: seq<Event>, i: nat | WaitedOut(cfg, es, i) :: AnswerAt(cfg, es, i + 1).allowed
  {
    if cfg.duration <= SECOND {
      forall es: seq<Event>, i: nat | WaitedOut(cfg, es, i) ensures AnswerAt(cfg, es, i + 1).allowed {
        var m := DenialWindow(cfg, es, i);
        HistoryBefore(cfg, es, i, es[i].key);
        RetryAfterExact(cfg, es, i);
      }
    } else {
      var es, i := TooShort(cfg, "k");
      assert !AnswerAt(cfg, es, i + 1).allowed;
    }
  }

  /** With longer windows: use up the limit, come back a second and a nanosecond before those
      calls leave the window, and again after the one second announced then. */
  lemma TooShort(cfg: Config, key: Key) returns (es: seq<Event>, i: nat)
    requires cfg.duration > SECOND && cfg.limit >= 1
    ensures WaitedOut(cfg, es, i) && !AnswerAt(cfg, es, i + 1).allowed
  {
    var first := Repeat(Call(key, 0), cfg.limit);
    var t := cfg.duration - SECOND - 1;
    i := cfg.limit;
    es := first + [Call(key, t)] + [Call(key, t + SECOND)];
    FullHistory(cfg, cfg.limit, key);
    var h := History(cfg, first, key);
    CutSplits(h, t - cfg.duration);
    CutSplits(h, t + SECOND - cfg.duration);
    HistoryExtend(cfg, first, Call(key, t), key);
    assert es[..i] == first && es[..i + 1] == first + [Call(key, t)];
  }

  /** Below its limit a call at the instant of all earlier ones is accepted. */
  lemma AdmitsAtZero(cfg: Config, h: seq<int>)
    requires |h| < cfg.limit && cfg.duration > 0 && forall i | 0 <= i < |h| :: h[i] == 0
    ensures Admits(cfg, h, 0)
  {
    CutSplits(h, -cfg.duration);
  }

  lemma {:induction false} FullHistory(cfg: Config, n: nat, key: Key)
    requires n <= cfg.limit && cfg.duration > 0
    ensures var h := History(cfg, Repeat(Call(key, 0), n), key); |h| == n && forall i | 0 <= i < n :: h[i] == 0
  {
    if n > 0 {
      var before := Repeat(Call(key, 0), n - 1);
      FullHistory(cfg, n - 1, key);
      HistoryExtend(cfg, before, Call(key, 0), key);
      AdmitsAtZero(cfg, History(cfg, before, key));
    }
  }

  // ---------- What the limiter keeps ----------

  lemma {:induction false} CutFromIs(h: seq<int>, lo: int, i: nat, m: nat)
    requires i <= m <= |h|
    requires forall k | i <= k < m :: h[k] <= lo
    requires m < |h| ==> lo < h[m]
    ensures CutFrom(h, lo, i) == m
    decreases m - i
  {
    if i < m {
      CutFromIs(h, lo, i + 1, m);
    }
  }

  lemma {:induction false} CutFromBounds(h: seq<int>, lo: int, i: nat)
    requires i <= |h|
    ensures forall k | i <= k < CutFrom(h, lo, i) :: h[k] <= lo
    ensures CutFrom(h, lo, i) < |h| ==> lo < h[CutFrom(h, lo, i)]
    decreases |h| - i
  {
    if i < |h| && h[i] <= lo {
      CutFromBounds(h, lo, i + 1);
    }
  }

  /** What Cut means: everything before it is old, and it is not. */
  lemma CutSplits(h: seq<int>, lo: int)
    ensures Cut(h, lo) <= |h|
    ensures forall k | 0 <= k < Cut(h, lo) :: h[k] <= lo
    ensures Cut(h, lo) < |h| ==> lo < h[Cut(h, lo)]
  {
    CutFromBounds(h, lo, 0);
  }

  lemma CutMonotone(h: seq<int>, lo: int, lo': int)
    requires lo <= lo'
    ensures Cut(h, lo) <= Cut(h, lo')
  {
    CutSplits(h, lo);
    CutSplits(h, lo');
  }

  lemma CutOfAppend(h: seq<int>, t: int, lo: int)
    requires lo < t
    ensures Cut(h + [t], lo) == Cut(h, lo)
  {
    CutSplits(h, lo);
    CutFromIs(h + [t], lo, 0, Cut(h, lo));
  }

  /** p is a suffix of the complete list h, and what is missing no longer counts. */
  ghost predicate Pruned(p: seq<int>, h: seq<int>, lo: int) {
    && |p| <= |h|
    && (forall i | 0 <= i < |p| :: p[i] == h[|h| - |p| + i])
    && |h| - |p| <= Cut(h, lo)
  }

  /** p holds everything of the key's history that can matter after the events es. */
  ghost predicate Kept(cfg: Config, p: seq<int>, es: seq<Event>, key: Key) {
    if es == [] then p == []
    else Pruned(p, History(cfg, es, key), es[|es| - 1].now - cfg.duration)
  }

  /** The list left behind by a call. */
  function KeepCall(cfg: Config, p: seq<int>, now: int): seq<int> {
    var recent := p[Cut(p, now - cfg.duration)..];
    if Admits(cfg, p, now) then recent + [now] else recent
  }

  /** Pruning changes neither how many calls count nor which is the oldest of them. */
  lemma PrunedCut(p: seq<int>, h: seq<int>, lo: int, lo': int)
    requires Pruned(p, h, lo) && lo <= lo'
    ensures |p| - Cut(p, lo') == |h| - Cut(h, lo')
    ensures Pruned(p[Cut(p, lo')..], h, lo')
  {
    CutMonotone(h, lo, lo');
    CutSplits(h, lo');
    CutFromIs(p, lo', 0, Cut(h, lo') - (|h| - |p|));
  }

  /** From a pruned list a call gets the answer of the complete one, and prunes it again. */
  lemma PrunedCall(cfg: Config, p: seq<int>, h: seq<int>, lo: int, now: int)
    requires Pruned(p, h, lo) && lo <= now - cfg.duration && cfg.duration > 0
    ensures Decide(cfg, p, now) == Decide(cfg, h, now)
    ensures Pruned(KeepCall(cfg, p, now), if Admits(cfg, h, now) then h + [now] else h, now - cfg.duration)
  {
    PrunedCut(p, h, lo, now - cfg.duration);
    CutOfAppend(h, now, now - cfg.duration);
  }

  lemma LastTime(es: seq<Event>, e: Event)
    requires Chronological(es + [e]) && es != []
    ensures es[|es| - 1].now <= e.now
  {
    assert (es + [e])[|es| - 1].now <= (es + [e])[|es|].now;
  }

  /** A call answers from what is kept as from the history, and keeps enough again. */
  lemma KeptCall(cfg: Config, p: seq<int>, es: seq<Event>, now: int, key: Key)
    requires Kept(cfg, p, es, key) && Chronological(es + [Call(key, now)]) && cfg.duration > 0
    ensures Decide(cfg, p, now) == Decide(cfg, History(cfg, es, key), now)
    ensures Kept(cfg, KeepCall(cfg, p, now), es + [Call(key, now)], key)
  {
    HistoryExtend(cfg, es, Call(key, now), key);
    var h := History(cfg, es, key);
    if es == [] {
      PrunedCall(cfg, p, h, now - cfg.duration, now);
    } else {
      LastTime(es, Call(key, now));
      PrunedCall(cfg, p, h, es[|es| - 1].now - cfg.duration, now);
    }
  }

  /** An event of another key, or a tick, leaves what is kept sufficient. */
  lemma KeptLater(cfg: Config, p: seq<int>, es: seq<Event>, e: Event, key: Key)
    requires Kept(cfg, p, es, key) && Chronological(es + [e])
    requires e.Tick? || e.key != key
    ensures Kept(cfg, p, es + [e], key)
  {
    HistoryExtend(cfg, es, e, key);
    if es != [] {
      LastTime(es, e);
      CutMonotone(History(cfg, es, key), es[|es| - 1].now - cfg.duration, e.now - cfg.duration);
    }
  }

  /** Whether cleanup forgets a key: it looks at the last accepted time only. */
  predicate Idle(cfg: Config, p: seq<int>, now: int) {
    p == [] || p[|p| - 1] < now - 2 * cfg.duration
  }

  /** Because the list is sorted, forgetting an idle key loses nothing that counts. */
  lemma KeptForgotten(cfg: Config, p: seq<int>, es: seq<Event>, now: int, key: Key)
    requires Kept(cfg, p, es, key) && Chronological(es + [Tick(now)]) && cfg.duration > 0
    requires Idle(cfg, p, now)
    ensures Kept(cfg, [], es + [Tick(now)], key)
  {
    KeptLater(cfg, p, es, Tick(now), key);
    HistorySorted(cfg, es + [Tick(now)], key);
    var h := History(cfg, es + [Tick(now)], key);
    CutSplits(h, now - cfg.duration);
    if p != [] {
      assert h[|h| - 1] == p[|p| - 1];
    }
  }

  /** The list kept for a key; a forgotten key keeps nothing. */
  function Lookup(m: map<Key, seq<int>>, key: Key): seq<int> {
    if key in m then m[key] else []
  }

  /** What is kept for every key is enough to answer as the complete history would. */
  ghost predicate AllKept(cfg: Config, m: map<Key, seq<int>>, es: seq<Event>) {
    forall k: Key :: Kept(cfg, Lookup(m, k), es, k)
  }

  lemma AllKeptCall(cfg: Config, m: map<Key, seq<int>>, es: seq<Event>, key: Key, now: int)
    requires AllKept(cfg, m, es) && Chronological(es + [Call(key, now)]) && cfg.duration > 0
    ensures AllKept(cfg, m[key := KeepCall(cfg, Lookup(m, key), now)], es + [Call(key, now)])
    ensures Decide(cfg, Lookup(m, key), now) == Decide(cfg, History(cfg, es, key), now)
  {
    var m' := m[key := KeepCall(cfg, Lookup(m, key), now)];
    KeptCall(cfg, Lookup(m, key), es, now, key);
    forall k: Key ensures Kept(cfg, Lookup(m', k), es + [Call(key, now)], k) {
      if k != key {
        KeptLater(cfg, Lookup(m, k), es, Call(key, now), k);
      }
    }
  }

  lemma AllKeptReset(cfg: Config, m: map<Key, seq<int>>, es: seq<Event>, key: Key, now: int)
    requires AllKept(cfg, m, es) && Chronological(es + [Reset(key, now)])
    ensures AllKept(cfg, m - {key}, es + [Reset(key, now)])
  {
    HistoryExtend(cfg, es, Reset(key, now), key);
    forall k: Key | k != key ensures Kept(cfg, Lookup(m - {key}, k), es + [Reset(key, now)], k) {
      KeptLater(cfg, Lookup(m, k), es, Reset(key, now), k);
    }
    assert Kept(cfg, [], es + [Reset(key, now)], key);
  }

  lemma AllKeptTick(cfg: Config, m: map<Key, seq<int>>, gone: set<Key>, es: seq<Event>, now: int)
    requires AllKept(cfg, m, es) && Chronological(es + [Tick(now)]) && cfg.duration > 0
    requires forall k | k in gone :: Idle(cfg, Lookup(m, k), now)
    ensures AllKept(cfg, m - gone, es + [Tick(now)])
  {
    forall k: Key ensures Kept(cfg, Lookup(m - gone, k), es + [Tick(now)], k) {
      if k in gone {
        KeptForgotten(cfg, Lookup(m, k), es, now, k);
      } else {
        KeptLater(cfg, Lookup(m, k), es, Tick(now), k);
      }
    }
  }

  // ---------- The limiter ----------

  /** The loop of Allow that drops what has left the window. */
  method KeepAfter(requests: seq<int>, cutoff: int) returns (valid: seq<int>)
    requires Sorted(requests)
    ensures valid == requests[Cut(requests, cutoff)..]
  {
    valid := [];
    ghost var m := Cut(requests, cutoff);
    CutSplits(requests, cutoff);
    for i := 0 to |requests|
      invariant valid == if i < m then [] else requests[m..i]
    {
      if requests[i] > cutoff {
        valid := valid + [requests[i]];
      }
    }
  }

  class Window {
    var requests: seq<int>

    constructor ()
      ensures requests == []
    {
      requests := [];
    }

    /** The part of Allow that works on one window. */
    method Admit(limit: nat, duration: int, now: int) returns (allowed: bool, info: Info)
      requires Sorted(requests)
      modifies this
      ensures requests == KeepCall(Config(limit, duration), old(requests), now)
      ensures Answer(allowed, info) == Decide(Config(limit, duration), old(requests), now)
    {
      requests := KeepAfter(requests, now - duration);
      allowed := |requests| < limit;
      if allowed {
        requests := requests + [now];
      }
      var reset := now + duration;
      var retryAfter := 0;
      if !allowed && |requests| > 0 {
        var oldestRequest := requests[0];
        retryAfter := RetrySeconds(oldestRequest + duration, now);
        reset := oldestRequest + duration;
      }
      info := Info(limit, limit - |requests|, reset, retryAfter);
    }
  }

  class SlidingWindow {
    var windows: map<Key, Window>
    const limit: nat
    const duration: int
    const cleanup: int
    ghost var trace: seq<Event>

    ghost function Cfg(): Config {
      Config(limit, duration)
    }

    ghost function Contents(): map<Key, seq<int>>
      reads this, windows.Values
    {
      map k | k in windows :: windows[k].requests
    }

    ghost predicate Valid()
      reads this, windows.Values
    {
      && duration > 0 && cleanup == 2 * duration
      && Chronological(trace)
      && (forall k, l | k in windows && l in windows && k != l :: windows[k] != windows[l])
      && AllKept(Cfg(), Contents(), trace)
    }

    constructor (limit: nat, duration: int)
      requires duration > 0
      ensures Valid() && trace == [] && windows == map[] && Cfg() == Config(limit, duration)
    {
      this.limit := limit;
      this.duration := duration;
      cleanup := duration * 2;
      windows := map[];
      trace := [];
    }

    /** Answers exactly as the complete history would, whatever was pruned or forgotten. */
    method Allow(key: Key, now: int) returns (allowed: bool, info: Info)
      requires Valid() && Chronological(trace + [Call(key, now)])
      modifies this, windows.Values
      ensures Valid() && trace == old(trace) + [Call(key, now)]
      ensures Answer(allowed, info) == Decide(Cfg(), History(Cfg(), old(trace), key), now)
      ensures Contents() == old(Contents())[key := KeepCall(Cfg(), old(Lookup(Contents(), key)), now)]
      ensures fresh(windows.Values - old(windows.Values))
    {
      ghost var kept := Lookup(Contents(), key);
      AllKeptCall(Cfg(), Contents(), trace, key, now);
      KeptSorted(Cfg(), kept, trace, key);
      if key !in windows {
        var created := new Window();
        windows := windows[key := created];
      }
      var w := windows[key];
      assert w.requests == kept;
      allowed, info := w.Admit(limit, duration, now);
      trace := trace + [Call(key, now)];
      assert Contents() == old(Contents())[key := KeepCall(Cfg(), kept, now)];
    }

    /** Forgets a key; its history starts again. */
    method Reset(key: Key, ghost now: int)
      requires Valid() && Chronological(trace + [Event.Reset(key, now)])
      modifies this
      ensures Valid() && trace == old(trace) + [Event.Reset(key, now)]
      ensures windows == old(windows) - {key}
    {
      AllKeptReset(Cfg(), Contents(), trace, key, now);
      windows := windows - {key};
      trace := trace + [Event.Reset(key, now)];
      assert Contents() == old(Contents()) - {key};
    }

    /** One tick of cleanupRoutine.  By the postcondition of Allow no answer depends on it. */
    method Cleanup(now: int)
      requires Valid() && Chronological(trace + [Tick(now)])
      modifies this
      ensures Valid() && trace == old(trace) + [Tick(now)]
      ensures windows == map k | k in old(windows) && !Idle(Cfg(), old(windows)[k].requests, now) :: old(windows)[k]
    {
      DropIdle(now);
      ghost var gone := old(windows.Keys) - windows.Keys;
      AllKeptTick(Cfg(), old(Contents()), gone, trace, now);
      trace := trace + [Tick(now)];
      assert Contents() == old(Contents()) - gone;
    }

    /** The loop of a tick. */
    method DropIdle(now: int)
      requires cleanup == 2 * duration
      modifies this`windows
      ensures windows == map k | k in old(windows) && !Idle(Cfg(), old(windows)[k].requests, now) :: old(windows)[k]
    {
      var cutoff := now - cleanup;
      var todo := windows.Keys;
      while todo != {}
        invariant todo <= windows.Keys
        invariant windows == map k | k in old(windows)
                  && (k in todo || !Idle(Cfg(), old(windows)[k].requests, now)) :: old(windows)[k]
      {
        var key :| key in todo;
        var w := windows[key];
        if |w.requests| == 0 || w.requests[|w.requests| - 1] < cutoff {
          windows := windows - {key};
        }
        todo := todo - {key};
      }
    }
  }

  lemma KeptSorted(cfg: Config, p: seq<int>, es: seq<Event>, key: Key)
    requires Kept(cfg, p, es, key) && Chronological(es)
    ensures Sorted(p)
  {
    HistorySorted(cfg, es, key);
  }
}
