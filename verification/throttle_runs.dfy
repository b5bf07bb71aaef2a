/** Runs that show where the throttler's bounds are tight and where cleanup breaks them. */
module ThrottleRuns {
  import opened ContinuousBuckets
  import opened Throttle

  /** Entries are numbered in these runs. */
  type Steps = seq<Step<nat, nat>>
  type Numbered = State<nat, nat>

  // ---------- Requests without interruption ----------

  datatype Request = Request(c: nat, ip: string, subnet: string, entry: nat, bucket: nat)

  function StepsOf(cfg: Config, r: Request, now: real): Steps {
    [Lookup(r.c, r.ip, r.subnet, r.entry, now), Lock(r.c, false, now)]
    + (if Limited(cfg, r.subnet) then [Ask(r.c, r.bucket, now)] else []) + [Settle(r.c, now)]
  }

  /** The caller is new, and the request finds left tokens of its address and room tokens of
      its subnet, in the map or in entries yet to be made. */
  ghost predicate Ready(cfg: Config, st: Numbered, r: Request, left: int, room: int, now: real) {
    && r.c !in st.calls
    && (if r.ip in st.ipOf then st.ipOf[r.ip] == r.entry && r.entry in st.ips && !Locked(st, r.entry)
                                && st.ips[r.entry].level == Level(left as real, now)
        else r.entry !in st.ips && left == cfg.burstSize)
    && (forall c | c in st.calls :: st.calls[c].entry != r.entry)
    && (Limited(cfg, r.subnet) ==>
          if r.subnet in st.subnetOf then st.subnetOf[r.subnet] == r.bucket && r.bucket in st.subnets
                                          && st.subnets[r.bucket] == Level(room as real, now)
          else r.bucket !in st.subnets && room == cfg.subnetRequestsPerMinute)
  }

  /** What the request leaves: one token less in each bucket, one entry more in the log. */
  ghost function Served(cfg: Config, st: Numbered, r: Request, left: int, room: int, now: real): Numbered {
    var s := if r.ip in st.ipOf && r.entry in st.ips then st.ips[r.entry] else NewIp(cfg, now);
    State(st.ips[r.entry := IpState(Level((left - 1) as real, now), s.totalRequests + 1, s.failedRequests)],
          st.ipOf[r.ip := r.entry],
          if Limited(cfg, r.subnet) then st.subnets[r.bucket := Level((room - 1) as real, now)] else st.subnets,
          if Limited(cfg, r.subnet) then st.subnetOf[r.subnet := r.bucket] else st.subnetOf,
          st.calls,
          st.log + [Entry(r.ip, r.subnet, now, now, false, false)])
  }

  ghost function Looked(cfg: Config, st: Numbered, r: Request, now: real): Numbered {
    DoLookup(cfg, st, r.c, r.ip, r.subnet, r.entry, now)
  }

  lemma LookupServes(cfg: Config, st: Numbered, r: Request, left: int, room: int, now: real)
    requires Ready(cfg, st, r, left, room, now) && left <= cfg.burstSize
    ensures Next(cfg, st, Lookup(r.c, r.ip, r.subnet, r.entry, now)) == Looked(cfg, st, r, now)
    ensures var t := Looked(cfg, st, r, now);
            && r.entry in t.ips && t.ips[r.entry].level == Level(left as real, now) && !Locked(t, r.entry)
            && Next(cfg, t, Lock(r.c, false, now)) == t.(calls := t.calls[r.c := Holding(r.ip, r.subnet, r.entry, now)])
  {
    var t := Looked(cfg, st, r, now);
    RefillAtOnce(t.ips[r.entry].level, CurrentLimit(cfg, t.ips[r.entry]) as real / 60.0, cfg.burstSize as real);
    assert t.ips[r.entry := t.ips[r.entry]] == t.ips;
  }

  ghost function Held(cfg: Config, st: Numbered, r: Request, now: real): Numbered {
    var t := Looked(cfg, st, r, now);
    t.(calls := t.calls[r.c := Holding(r.ip, r.subnet, r.entry, now)])
  }

  /** From the lock on. */
  lemma SettleServes(cfg: Config, st: Numbered, r: Request, left: int, room: int, now: real)
    requires Ready(cfg, st, r, left, room, now) && 1 <= left && !Limited(cfg, r.subnet)
    ensures Next(cfg, Held(cfg, st, r, now), Settle(r.c, now)) == Served(cfg, st, r, left, room, now)
  {
    assert Held(cfg, st, r, now).calls - {r.c} == st.calls;
  }

  ghost function AskedOf(cfg: Config, st: Numbered, r: Request, now: real): Numbered {
    DoAsk(cfg, Held(cfg, st, r, now), r.c, r.bucket, now)
  }

  lemma AskServes(cfg: Config, st: Numbered, r: Request, left: int, room: int, now: real)
    requires Ready(cfg, st, r, left, room, now) && Limited(cfg, r.subnet) && room <= cfg.subnetRequestsPerMinute
    ensures Next(cfg, Held(cfg, st, r, now), Ask(r.c, r.bucket, now)) == AskedOf(cfg, st, r, now)
    ensures var asking := AskedOf(cfg, st, r, now);
            && asking.calls[r.c] == Asking(r.ip, r.subnet, r.entry, now, r.bucket) && r.bucket in asking.subnets
            && asking.subnets[r.bucket] == Level(room as real, now)
            && Asked(cfg, asking, r.c, now) == Level(room as real, now)
  {
    var asking := AskedOf(cfg, st, r, now);
    assert asking.subnets[r.bucket] == Level(room as real, now);
    RefillAtOnce(asking.subnets[r.bucket], cfg.subnetRequestsPerMinute as real / 60.0,
                 cfg.subnetRequestsPerMinute as real);
  }

  lemma AskSettles(cfg: Config, asking: Numbered, r: Request, left: int, room: int, now: real)
    requires Limited(cfg, r.subnet) && 1 <= left && 1 <= room
    requires r.c in asking.calls && asking.calls[r.c] == Asking(r.ip, r.subnet, r.entry, now, r.bucket)
    requires r.entry in asking.ips && asking.ips[r.entry].level == Level(left as real, now)
             && r.bucket in asking.subnets
    requires Asked(cfg, asking, r.c, now) == Level(room as real, now)
    requires CurrentIp(asking, r.ip, r.entry) && CurrentSubnet(asking, r.subnet, r.bucket)
    ensures var s := asking.ips[r.entry];
            Next(cfg, asking, Settle(r.c, now))
            == State(asking.ips[r.entry := s.(level := Level((left - 1) as real, now),
                                              totalRequests := s.totalRequests + 1)],
                     asking.ipOf, asking.subnets[r.bucket := Level((room - 1) as real, now)], asking.subnetOf,
                     asking.calls - {r.c}, asking.log + [Entry(r.ip, r.subnet, now, now, false, false)])
  {
  }

  lemma AskedIs(cfg: Config, st: Numbered, r: Request, left: int, room: int, now: real)
    requires Ready(cfg, st, r, left, room, now) && Limited(cfg, r.subnet) && left <= cfg.burstSize
    ensures var asking, t := AskedOf(cfg, st, r, now), Looked(cfg, st, r, now);
            && asking.ips == t.ips && asking.ipOf == st.ipOf[r.ip := r.entry] && r.entry in asking.ips
            && asking.ips[r.entry].level == Level(left as real, now)
            && asking.subnetOf == st.subnetOf[r.subnet := r.bucket]
            && asking.calls - {r.c} == st.calls && asking.log == st.log
  {
    LookupServes(cfg, st, r, left, room, now);
  }

  lemma AskedServed(cfg: Config, st: Numbered, r: Request, left: int, room: int, now: real)
    requires Ready(cfg, st, r, left, room, now) && Limited(cfg, r.subnet)
    requires 1 <= left <= cfg.burstSize && 1 <= room <= cfg.subnetRequestsPerMinute
    ensures Next(cfg, AskedOf(cfg, st, r, now), Settle(r.c, now)) == Served(cfg, st, r, left, room, now)
  {
    AskServes(cfg, st, r, left, room, now);
    AskedIs(cfg, st, r, left, room, now);
    AskSettles(cfg, AskedOf(cfg, st, r, now), r, left, room, now);
  }

  lemma LockServed(cfg: Config, steps: Steps, r: Request, left: int, room: int, now: real)
    requires Ready(cfg, Run(cfg, steps), r, left, room, now) && left <= cfg.burstSize
    ensures Run(cfg, steps + [Lookup(r.c, r.ip, r.subnet, r.entry, now)] + [Lock(r.c, false, now)])
            == Held(cfg, Run(cfg, steps), r, now)
  {
    LookupServes(cfg, Run(cfg, steps), r, left, room, now);
    RunExtend(cfg, steps, Lookup(r.c, r.ip, r.subnet, r.entry, now));
    RunExtend(cfg, steps + [Lookup(r.c, r.ip, r.subnet, r.entry, now)], Lock(r.c, false, now));
  }

  lemma StepsSplit(cfg: Config, steps: Steps, r: Request, now: real)
    ensures var locked := steps + [Lookup(r.c, r.ip, r.subnet, r.entry, now)] + [Lock(r.c, false, now)];
            steps + StepsOf(cfg, r, now)
            == if Limited(cfg, r.subnet) then locked + [Ask(r.c, r.bucket, now)] + [Settle(r.c, now)]
               else locked + [Settle(r.c, now)]
  {
  }

  lemma RequestServed(cfg: Config, steps: Steps, r: Request, left: int, room: int, now: real)
    requires Ready(cfg, Run(cfg, steps), r, left, room, now) && 1 <= left <= cfg.burstSize
    requires Limited(cfg, r.subnet) ==> 1 <= room <= cfg.subnetRequestsPerMinute
    ensures Run(cfg, steps + StepsOf(cfg, r, now)) == Served(cfg, Run(cfg, steps), r, left, room, now)
  {
    var locked := steps + [Lookup(r.c, r.ip, r.subnet, r.entry, now)] + [Lock(r.c, false, now)];
    LockServed(cfg, steps, r, left, room, now);
    StepsSplit(cfg, steps, r, now);
    if Limited(cfg, r.subnet) {
      AskServes(cfg, Run(cfg, steps), r, left, room, now);
      AskedServed(cfg, Run(cfg, steps), r, left, room, now);
      RunExtend(cfg, locked, Ask(r.c, r.bucket, now));
      RunExtend(cfg, locked + [Ask(r.c, r.bucket, now)], Settle(r.c, now));
    } else {
      SettleServes(cfg, Run(cfg, steps), r, left, room, now);
      RunExtend(cfg, locked, Settle(r.c, now));
    }
  }

  // ---------- A burst of one address ----------

  /** n requests of an address at one instant, its subnet unknown. */
  function Spend(cfg: Config, r: Request, now: real, n: nat): Steps {
    if n == 0 then [] else Spend(cfg, r, now, n - 1) + StepsOf(cfg, r, now)
  }

  /** What n requests of an address make of the state. */
  ghost predicate Burst(st: Numbered, st': Numbered, r: Request, n: nat, s: real, e: real) {
    && (n > 0 ==> r.ip in st'.ipOf) && st'.calls == st.calls && st'.subnetOf == st.subnetOf
    && Allowed(st'.log, OfIp(r.ip), s, e) == Allowed(st.log, OfIp(r.ip), s, e) + n
    && Overtaken(st'.log, OfIp(r.ip), s, e) == Overtaken(st.log, OfIp(r.ip), s, e)
    && st'.ips.Keys <= st.ips.Keys + {r.entry}
    && (forall h | h in st.ips && h != r.entry :: h in st'.ips && st'.ips[h] == st.ips[h])
    && (forall ip | ip != r.ip :: (ip in st'.ipOf <==> ip in st.ipOf))
  }

  lemma OneMore(cfg: Config, st0: Numbered, st: Numbered, r: Request, left: int, now: real, n: nat, s: real, e: real)
    requires Ready(cfg, st, r, left, 0, now) && r.subnet == "" && s <= now <= e && Burst(st0, st, r, n, s, e)
    ensures Burst(st0, Served(cfg, st, r, left, 0, now), r, n + 1, s, e)
    ensures Ready(cfg, Served(cfg, st, r, left, 0, now), r, left - 1, 0, now)
  {
    CountExtend(st.log, Entry(r.ip, r.subnet, now, now, false, false), OfIp(r.ip), s, e);
  }

  lemma SpendStep(cfg: Config, st0: Numbered, steps: Steps, r: Request, left: int, now: real, n: nat, s: real, e: real)
    requires Ready(cfg, Run(cfg, steps), r, left, 0, now) && r.subnet == "" && 1 <= left <= cfg.burstSize
    requires s <= now <= e && Burst(st0, Run(cfg, steps), r, n, s, e)
    ensures Burst(st0, Run(cfg, steps + StepsOf(cfg, r, now)), r, n + 1, s, e)
    ensures Ready(cfg, Run(cfg, steps + StepsOf(cfg, r, now)), r, left - 1, 0, now)
  {
    RequestServed(cfg, steps, r, left, 0, now);
    OneMore(cfg, st0, Run(cfg, steps), r, left, now, n, s, e);
  }

  lemma {:induction false} SpendServes(cfg: Config, steps: Steps, r: Request, now: real, n: nat, s: real, e: real)
    requires Ready(cfg, Run(cfg, steps), r, cfg.burstSize, 0, now)
    requires r.subnet == "" && s <= now <= e && n <= cfg.burstSize
    ensures Burst(Run(cfg, steps), Run(cfg, steps + Spend(cfg, r, now, n)), r, n, s, e)
    ensures Ready(cfg, Run(cfg, steps + Spend(cfg, r, now, n)), r, cfg.burstSize - n, 0, now)
  {
    if n == 0 {
      assert steps + [] == steps;
    } else {
      SpendServes(cfg, steps, r, now, n - 1, s, e);
      SpendStep(cfg, Run(cfg, steps), steps + Spend(cfg, r, now, n - 1), r, cfg.burstSize - (n - 1), now, n - 1, s, e);
      SpendSplit(cfg, steps, r, now, n);
    }
  }

  lemma Chain(a: Steps, b: Steps, c: Steps)
    ensures a + (b + c) == a + b + c
  {
  }

  lemma SpendSplit(cfg: Config, steps: Steps, r: Request, now: real, n: nat)
    requires n > 0
    ensures steps + Spend(cfg, r, now, n) == steps + Spend(cfg, r, now, n - 1) + StepsOf(cfg, r, now)
  {
    Chain(steps, Spend(cfg, r, now, n - 1), StepsOf(cfg, r, now));
  }

  lemma {:induction false} SpendTimes(cfg: Config, r: Request, now: real, n: nat)
    ensures forall i | 0 <= i < |Spend(cfg, r, now, n)| :: Spend(cfg, r, now, n)[i].now == now
  {
    if n > 0 {
      SpendTimes(cfg, r, now, n - 1);
    }
  }

  // ---------- Exactly when cleanup keeps the bound for addresses ----------

  /** A little more than half an hour: in the excess less than one token is refilled. */
  function JustIdle(cfg: Config): real
    requires cfg.requestsPerMinute >= 0
  {
    IDLE + 30.0 / (cfg.requestsPerMinute + 1) as real
  }

  lemma JustIdleIs(cfg: Config)
    requires cfg.requestsPerMinute >= 0
    ensures JustIdle(cfg) > IDLE
    ensures cfg.requestsPerMinute as real * ((JustIdle(cfg) - 0.0) / 60.0)
            < 30.0 * cfg.requestsPerMinute as real + 1.0
  {
    var excess := 30.0 / (cfg.requestsPerMinute + 1) as real;
    assert excess * (cfg.requestsPerMinute + 1) as real == 30.0;
    assert excess > 0.0;
    var r := cfg.requestsPerMinute as real;
    assert r * ((1800.0 + excess) / 60.0) == 30.0 * r + r * excess / 60.0;
  }

  const FIRST: Request := Request(0, "a", "", 0, 0)
  const SECOND: Request := Request(0, "a", "", 1, 0)

  /** Two bursts with a cleanup between them. */
  function TwoBursts(cfg: Config, t: real): Steps
    requires cfg.burstSize >= 0
  {
    Spend(cfg, FIRST, 0.0, cfg.burstSize) + [CleanIps({}, t)] + Spend(cfg, SECOND, t, cfg.burstSize)
  }

  lemma TwoBurstsChronological(cfg: Config, t: real)
    requires cfg.burstSize >= 0 && t >= 0.0
    ensures Chronological(TwoBursts(cfg, t))
  {
    SpendTimes(cfg, FIRST, 0.0, cfg.burstSize);
    SpendTimes(cfg, SECOND, t, cfg.burstSize);
  }

  /** Cleanup forgets an idle address that nobody holds. */
  lemma Forgets(cfg: Config, st: Numbered, t: real)
    requires Placed(st) && st.calls == map[] && st.ips.Keys <= {0}
    requires forall ip | ip in st.ipOf :: t - st.ips[st.ipOf[ip]].level.lastUpdate > IDLE
    ensures Next(cfg, st, CleanIps({}, t)) == st.(ipOf := map[])
    ensures Ready(cfg, st.(ipOf := map[]), SECOND, cfg.burstSize, 0, t)
  {
    assert Next(cfg, st, CleanIps({}, t)).ipOf == map[];
  }

  lemma FirstBurst(cfg: Config, t: real)
    requires cfg.burstSize >= 0 && t > IDLE
    ensures var st := Run(cfg, Spend(cfg, FIRST, 0.0, cfg.burstSize));
            && Placed(st) && st.calls == map[] && st.ips.Keys <= {0}
            && (forall ip | ip in st.ipOf :: t - st.ips[st.ipOf[ip]].level.lastUpdate > IDLE)
            && Allowed(st.log, OfIp("a"), 0.0, t) == cfg.burstSize && Overtaken(st.log, OfIp("a"), 0.0, t) == 0
  {
    var first := Spend(cfg, FIRST, 0.0, cfg.burstSize);
    assert [] + first == first;
    SpendServes(cfg, [], FIRST, 0.0, cfg.burstSize, 0.0, t);
    RunPlaced(cfg, first);
  }

  lemma TwoBurstsRun(cfg: Config, t: real)
    requires cfg.burstSize >= 0 && t > IDLE
    ensures var log := Run(cfg, TwoBursts(cfg, t)).log;
            Allowed(log, OfIp("a"), 0.0, t) == 2 * cfg.burstSize && Overtaken(log, OfIp("a"), 0.0, t) == 0
  {
    var first := Spend(cfg, FIRST, 0.0, cfg.burstSize);
    FirstBurst(cfg, t);
    Forgets(cfg, Run(cfg, first), t);
    RunExtend(cfg, first, CleanIps({}, t));
    SpendServes(cfg, first + [CleanIps({}, t)], SECOND, t, cfg.burstSize, 0.0, t);
  }

  /** Runs with cleanup keep the bound for addresses exactly when half an hour refills a
      whole burst. */
  lemma CleanupKeepsIpBoundIff(cfg: Config)
    requires cfg.requestsPerMinute >= 0 && cfg.burstSize >= 0
    ensures Forgettable(cfg) <==>
            forall steps: Steps, ip, s, e | Chronological(steps)
              && s <= e :: IpWithin(cfg, Run(cfg, steps).log, ip, s, e)
  {
    if Forgettable(cfg) {
      forall steps: Steps, ip, s, e | Chronological(steps) && s <= e
        ensures IpWithin(cfg, Run(cfg, steps).log, ip, s, e)
      {
        IpBound(cfg, steps, ip, s, e);
      }
    } else {
      var steps := TwoBursts(cfg, JustIdle(cfg));
      JustIdleIs(cfg);
      TwoBurstsRun(cfg, JustIdle(cfg));
      TwoBurstsChronological(cfg, JustIdle(cfg));
      assert !IpWithin(cfg, Run(cfg, steps).log, "a", 0.0, JustIdle(cfg));
    }
  }

  // ---------- Overtaken requests: the bounds are reached ----------

  /** A bucket that has been left alone is full again after any refill. */
  lemma RefillsToFull(b: Level, rate: real, cap: real, now: real)
    requires b.tokens == cap && 0.0 <= rate && b.lastUpdate <= now
    ensures Refill(b, rate, cap, now) == Level(cap, now)
  {
    ProductNonNegative(now - b.lastUpdate, rate);
  }

  const LATER := IDLE + 1.0
  const LATEST := 2.0 * IDLE + 2.0

  function Found(subnet: string): Step<nat, nat> {
    Lookup(1, "a", subnet, 0, 0.0)
  }

  const FORGOTTEN: Step<nat, nat> := CleanIps({}, LATER)

  /** Caller 1 looks its address up and waits; cleanup deletes the entry. */
  function Lost(subnet: string): Steps {
    [Found(subnet)] + [FORGOTTEN]
  }

  ghost function LostState(cfg: Config, subnet: string): Numbered {
    State(map[0 := NewIp(cfg, 0.0)], map[], map[], map[], map[1 := Seen("a", subnet, 0)], [])
  }

  lemma LostRun(cfg: Config, subnet: string)
    ensures Run(cfg, Lost(subnet)) == LostState(cfg, subnet)
    ensures Ready(cfg, LostState(cfg, subnet), SECOND, cfg.burstSize, 0, LATER)
  {
    var start: Numbered := Run(cfg, []);
    var looked := DoLookup(cfg, start, 1, "a", subnet, 0, 0.0);
    RunExtend(cfg, [], Found(subnet));
    assert [] + [Found(subnet)] == [Found(subnet)];
    RunExtend(cfg, [Found(subnet)], FORGOTTEN);
    assert Next(cfg, looked, FORGOTTEN).ipOf == map[];
  }

  /** Then the address spends a whole burst from a new entry, and caller 1 goes on. */
  function IpRace(cfg: Config): Steps
    requires cfg.burstSize >= 0
  {
    Lost("") + Spend(cfg, SECOND, LATER, cfg.burstSize) + [Lock(1, false, LATER)] + [Settle(1, LATER)]
  }

  /** The overtaken caller takes a token of the deleted entry. */
  lemma LateTakes(cfg: Config, st: Numbered)
    requires cfg.requestsPerMinute >= 0 && cfg.burstSize >= 1
    requires st.calls == map[1 := Seen("a", "", 0)] && 0 in st.ips && st.ips[0] == NewIp(cfg, 0.0)
             && !CurrentIp(st, "a", 0)
    ensures Next(cfg, Next(cfg, st, Lock(1, false, LATER)), Settle(1, LATER)).log
            == st.log + [Entry("a", "", LATER, LATER, true, false)]
  {
    LimitBounds(cfg, st.ips[0]);
    RefillsToFull(st.ips[0].level, CurrentLimit(cfg, st.ips[0]) as real / 60.0, cfg.burstSize as real, LATER);
    var locked := Next(cfg, st, Lock(1, false, LATER));
    assert locked == DoLock(cfg, st, 1, false, LATER);
  }

  lemma IpRaceChronological(cfg: Config)
    requires cfg.burstSize >= 0
    ensures Chronological(IpRace(cfg))
  {
    SpendTimes(cfg, SECOND, LATER, cfg.burstSize);
  }

  lemma BurstWhileWaiting(cfg: Config)
    requires cfg.burstSize >= 1
    ensures var st := Run(cfg, Lost("") + Spend(cfg, SECOND, LATER, cfg.burstSize));
            && st.calls == map[1 := Seen("a", "", 0)] && 0 in st.ips && st.ips[0] == NewIp(cfg, 0.0)
            && !CurrentIp(st, "a", 0)
            && Allowed(st.log, OfIp("a"), LATER, LATER) == cfg.burstSize
            && Overtaken(st.log, OfIp("a"), LATER, LATER) == 0
  {
    LostRun(cfg, "");
    SpendServes(cfg, Lost(""), SECOND, LATER, cfg.burstSize, LATER, LATER);
  }

  /** One request more than a burst at one instant, for the one request that was overtaken. */
  lemma IpBoundIsReached(cfg: Config)
    requires cfg.requestsPerMinute >= 0 && cfg.burstSize >= 1
    ensures Chronological(IpRace(cfg))
    ensures var log := Run(cfg, IpRace(cfg)).log;
            && Overtaken(log, OfIp("a"), LATER, LATER) == 1
            && Allowed(log, OfIp("a"), LATER, LATER) == cfg.burstSize + Overtaken(log, OfIp("a"), LATER, LATER)
  {
    var burst := Lost("") + Spend(cfg, SECOND, LATER, cfg.burstSize);
    IpRaceChronological(cfg);
    BurstWhileWaiting(cfg);
    LateTakes(cfg, Run(cfg, burst));
    RunExtend(cfg, burst, Lock(1, false, LATER));
    RunExtend(cfg, burst + [Lock(1, false, LATER)], Settle(1, LATER));
    CountExtend(Run(cfg, burst).log, Entry("a", "", LATER, LATER, true, false), OfIp("a"), LATER, LATER);
  }

  // ---------- The same for a subnet ----------

  /** Caller 1 loses its address entry to one cleanup and its subnet entry to the next. */
  function Before(subnet: string): Steps {
    Lost(subnet) + [Lock(1, false, LATER)] + [Ask(1, 0, LATER)] + [CleanSubnets({}, LATEST)]
  }

  /** The k-th of as many addresses as needed. */
  function Name(k: nat): (name: string)
    ensures |name| == k + 1 && name != "a"
  {
    if k == 0 then "b" else Name(k - 1) + "b"
  }

  function NthRequest(subnet: string, k: nat): Request {
    Request(0, Name(k), subnet, k + 1, 1)
  }

  /** n addresses of the subnet send one request each. */
  function Crowd(cfg: Config, subnet: string, n: nat): Steps {
    if n == 0 then [] else Crowd(cfg, subnet, n - 1) + StepsOf(cfg, NthRequest(subnet, n - 1), LATEST)
  }

  function SubnetRace(cfg: Config, subnet: string): Steps
    requires cfg.subnetRequestsPerMinute >= 0
  {
    Before(subnet) + Crowd(cfg, subnet, cfg.subnetRequestsPerMinute) + [Settle(1, LATEST)]
  }

  ghost function BeforeState(cfg: Config, subnet: string): Numbered {
    State(map[0 := NewIp(cfg, 0.0).(level := Level(cfg.burstSize as real, LATER))], map[],
          map[0 := Level(cfg.subnetRequestsPerMinute as real, LATER)], map[],
          map[1 := Asking("a", subnet, 0, LATER, 0)], [])
  }

  lemma AskRun(cfg: Config, subnet: string)
    requires cfg.requestsPerMinute >= 0 && Limited(cfg, subnet)
    ensures var t := Next(cfg, Next(cfg, LostState(cfg, subnet), Lock(1, false, LATER)), Ask(1, 0, LATER));
            t == BeforeState(cfg, subnet).(subnetOf := map[subnet := 0])
  {
    var looked := LostState(cfg, subnet);
    LimitBounds(cfg, looked.ips[0]);
    RefillsToFull(looked.ips[0].level, CurrentLimit(cfg, looked.ips[0]) as real / 60.0, cfg.burstSize as real, LATER);
    assert Next(cfg, looked, Lock(1, false, LATER)) == DoLock(cfg, looked, 1, false, LATER);
  }

  lemma BeforeRun(cfg: Config, subnet: string)
    requires cfg.requestsPerMinute >= 0 && Limited(cfg, subnet)
    ensures Run(cfg, Before(subnet)) == BeforeState(cfg, subnet)
  {
    var first := Lost(subnet);
    LostRun(cfg, subnet);
    AskRun(cfg, subnet);
    RunExtend(cfg, first, Lock(1, false, LATER));
    RunExtend(cfg, first + [Lock(1, false, LATER)], Ask(1, 0, LATER));
    RunExtend(cfg, first + [Lock(1, false, LATER)] + [Ask(1, 0, LATER)], CleanSubnets({}, LATEST));
    var asked := BeforeState(cfg, subnet).(subnetOf := map[subnet := 0]);
    assert Next(cfg, asked, CleanSubnets({}, LATEST)).subnetOf == map[];
  }

  /** What the first n of the crowd make of the state. */
  ghost predicate Crowded(cfg: Config, st: Numbered, subnet: string, n: nat) {
    var before := BeforeState(cfg, subnet);
    && st.calls == before.calls && 0 in st.ips && st.ips[0] == before.ips[0] && 0 in st.subnets
    && st.subnets[0] == before.subnets[0]
    && (forall h | h in st.ips :: h <= n) && (forall ip | ip in st.ipOf :: ip != "a" && |ip| <= n)
    && (if n == 0 then st.subnetOf == map[] && 1 !in st.subnets
        else st.subnetOf == map[subnet := 1] && 1 in st.subnets
             && st.subnets[1] == Level((cfg.subnetRequestsPerMinute - n) as real, LATEST))
    && Allowed(st.log, OfSubnet(subnet), LATEST, LATEST) == n
    && Overtaken(st.log, OfSubnet(subnet), LATEST, LATEST) == 0
  }

  lemma CrowdNext(cfg: Config, st: Numbered, subnet: string, n: nat)
    requires Limited(cfg, subnet) && Crowded(cfg, st, subnet, n) && cfg.burstSize >= 1
             && n < cfg.subnetRequestsPerMinute
    ensures var r := NthRequest(subnet, n);
            && Ready(cfg, st, r, cfg.burstSize, cfg.subnetRequestsPerMinute - n, LATEST)
            && Crowded(cfg, Served(cfg, st, r, cfg.burstSize, cfg.subnetRequestsPerMinute - n, LATEST), subnet, n + 1)
  {
    CountExtend(st.log, Entry(Name(n), subnet, LATEST, LATEST, false, false), OfSubnet(subnet), LATEST, LATEST);
  }

  lemma CrowdStep(cfg: Config, steps: Steps, subnet: string, n: nat)
    requires Limited(cfg, subnet) && Crowded(cfg, Run(cfg, steps), subnet, n)
    requires cfg.burstSize >= 1 && n < cfg.subnetRequestsPerMinute
    ensures Crowded(cfg, Run(cfg, steps + StepsOf(cfg, NthRequest(subnet, n), LATEST)), subnet, n + 1)
  {
    CrowdNext(cfg, Run(cfg, steps), subnet, n);
    RequestServed(cfg, steps, NthRequest(subnet, n), cfg.burstSize, cfg.subnetRequestsPerMinute - n, LATEST);
  }

  lemma NobodyYet(cfg: Config, subnet: string)
    requires cfg.requestsPerMinute >= 0 && Limited(cfg, subnet)
    ensures Crowded(cfg, Run(cfg, Before(subnet) + Crowd(cfg, subnet, 0)), subnet, 0)
  {
    BeforeRun(cfg, subnet);
    assert Before(subnet) + [] == Before(subnet);
  }

  lemma CrowdSplit(cfg: Config, subnet: string, n: nat)
    requires n > 0
    ensures Before(subnet) + Crowd(cfg, subnet, n)
            == Before(subnet) + Crowd(cfg, subnet, n - 1) + StepsOf(cfg, NthRequest(subnet, n - 1), LATEST)
  {
    Chain(Before(subnet), Crowd(cfg, subnet, n - 1), StepsOf(cfg, NthRequest(subnet, n - 1), LATEST));
  }

  lemma {:induction false} CrowdServed(cfg: Config, subnet: string, n: nat)
    requires cfg.requestsPerMinute >= 0 && Limited(cfg, subnet) && cfg.burstSize >= 1
             && n <= cfg.subnetRequestsPerMinute
    ensures Crowded(cfg, Run(cfg, Before(subnet) + Crowd(cfg, subnet, n)), subnet, n)
  {
    if n == 0 {
      NobodyYet(cfg, subnet);
    } else {
      CrowdServed(cfg, subnet, n - 1);
      CrowdStep(cfg, Before(subnet) + Crowd(cfg, subnet, n - 1), subnet, n - 1);
      CrowdSplit(cfg, subnet, n);
    }
  }

  lemma {:induction false} CrowdTimes(cfg: Config, subnet: string, n: nat)
    ensures forall i | 0 <= i < |Crowd(cfg, subnet, n)| :: Crowd(cfg, subnet, n)[i].now == LATEST
  {
    if n > 0 {
      CrowdTimes(cfg, subnet, n - 1);
    }
  }

  /** The overtaken caller takes a token of the deleted subnet entry. */
  lemma LateAsks(cfg: Config, st: Numbered, subnet: string)
    requires cfg.burstSize >= 1 && cfg.subnetRequestsPerMinute >= 1
    requires Crowded(cfg, st, subnet, cfg.subnetRequestsPerMinute)
    ensures Next(cfg, st, Settle(1, LATEST)).log == st.log + [Entry("a", subnet, LATER, LATEST, true, true)]
  {
    RefillsToFull(st.subnets[0], cfg.subnetRequestsPerMinute as real / 60.0, cfg.subnetRequestsPerMinute as real,
                  LATEST);
  }

  lemma SubnetRaceChronological(cfg: Config, subnet: string)
    requires cfg.subnetRequestsPerMinute >= 0
    ensures Chronological(SubnetRace(cfg, subnet))
  {
    CrowdTimes(cfg, subnet, cfg.subnetRequestsPerMinute);
  }

  /** One request more than the subnet's minute at one instant, for the one overtaken. */
  lemma SubnetBoundIsReached(cfg: Config, subnet: string)
    requires cfg.requestsPerMinute >= 0 && Limited(cfg, subnet) && cfg.burstSize >= 1
             && cfg.subnetRequestsPerMinute >= 1
    ensures Chronological(SubnetRace(cfg, subnet))
    ensures var log := Run(cfg, SubnetRace(cfg, subnet)).log;
            && Overtaken(log, OfSubnet(subnet), LATEST, LATEST) == 1
            && Allowed(log, OfSubnet(subnet), LATEST, LATEST)
               == cfg.subnetRequestsPerMinute + Overtaken(log, OfSubnet(subnet), LATEST, LATEST)
  {
    var steps := Before(subnet) + Crowd(cfg, subnet, cfg.subnetRequestsPerMinute);
    SubnetRaceChronological(cfg, subnet);
    CrowdServed(cfg, subnet, cfg.subnetRequestsPerMinute);
    LateAsks(cfg, Run(cfg, steps), subnet);
    RunExtend(cfg, steps, Settle(1, LATEST));
    CountExtend(Run(cfg, steps).log, Entry("a", subnet, LATER, LATEST, true, true), OfSubnet(subnet), LATEST, LATEST);
  }
}
