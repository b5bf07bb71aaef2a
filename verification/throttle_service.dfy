/** What the throttler has to let through: a request is turned away only if its address, or
    its subnet, has used up a burst and what was refilled since. */
module ThrottleService {
  import opened Basics
  import opened ContinuousBuckets
  import opened Throttle

  // ---------- The limit after failures ----------

  /** The share of failed requests decides: more than a half leaves a quarter of the limit,
      more than a fifth a half of it. */
  lemma LimitByShare(cfg: Config, s: IpState)
    requires cfg.enableProgressive && s.totalRequests > 0
    ensures var share := s.failedRequests as real / s.totalRequests as real;
            && (share > 0.5 ==> CurrentLimit(cfg, s) == GoDiv(cfg.requestsPerMinute, 4))
            && (0.2 < share <= 0.5 ==> CurrentLimit(cfg, s) == GoDiv(cfg.requestsPerMinute, 2))
            && (share <= 0.2 ==> CurrentLimit(cfg, s) == cfg.requestsPerMinute)
  {
    var f, t := s.failedRequests as real, s.totalRequests as real;
    assert f == (f / t) * t;
    ShareOf(f, t, 0.5);
    ShareOf(f, t, 0.2);
  }

  /** The two counts of an entry: its failures, and its requests that were allowed. */
  lemma CountersMove<H, G>(cfg: Config, st: State<H, G>, step: Step<H, G>, h: H)
    requires IpsPlaced(st) && h in st.ips
    ensures var t, mine := Next(cfg, st, step), Enabled(cfg, st, step) && (step.Fail? || step.Settle?)
                                                && st.calls[step.c].entry == h;
            && h in t.ips
            && t.ips[h].failedRequests == st.ips[h].failedRequests + One(mine && step.Fail?)
            && t.ips[h].totalRequests
               == st.ips[h].totalRequests + One(mine && step.Settle? && Passes(cfg, st, step.c, step.now))
  {
  }

  lemma ShareOf(f: real, t: real, x: real)
    requires t > 0.0
    ensures f / t > x <==> f > x * t
  {
    var share := f / t;
    assert f == share * t;
    SignOf(share - x, t);
    assert (share - x) * t == share * t - x * t;
  }

  lemma SignOf(y: real, t: real)
    requires t > 0.0
    ensures y * t > 0.0 <==> y > 0.0
  {
    if y <= 0.0 {
      ProductNonNegative(-y, t);
      assert (-y) * t == -(y * t);
    }
  }

  /** The lowest limit that failures can bring about. */
  function Slowest(cfg: Config): int {
    if cfg.enableProgressive then GoDiv(cfg.requestsPerMinute, 4) else cfg.requestsPerMinute
  }

  lemma AtLeastSlowest(cfg: Config, s: IpState)
    requires cfg.requestsPerMinute >= 0
    ensures 0 <= Slowest(cfg) <= CurrentLimit(cfg, s)
    ensures s.failedRequests == 0 ==> CurrentLimit(cfg, s) == cfg.requestsPerMinute
    ensures 0.0 <= Slowest(cfg) as real / 60.0 <= CurrentLimit(cfg, s) as real / 60.0
  {
  }

  // ---------- The address's bucket ----------

  ghost predicate Fits(o: Option<Level>, cap: real, clock: real) {
    o.Some? ==> WellFormed(o.value, cap, clock)
  }

  ghost predicate OnService(o: Option<Level>, acc: nat, cap: real, rate: real, s: real, clock: real) {
    Fits(o, cap, clock) && (o.Some? ==> Serves(o.value, acc, cap, rate, s))
  }

  lemma RefillFits(b: Level, r: real, cap: real, now: real)
    requires WellFormed(b, cap, now) && 0.0 <= r
    ensures WellFormed(Refill(b, r, cap, now), cap, now)
  {
    var gain := (now - b.lastUpdate) * r;
    ProductNonNegative(now - b.lastUpdate, r);
    assert Refill(b, r, cap, now) == Level(Capped(b.tokens + gain, cap), now);
  }

  /** Finding a bucket or making a full one, and refilling it. */
  lemma FoundServes(o: Option<Level>, acc: nat, cap: real, r: real, rate: real, s: real, clock: real, now: real)
    requires OnService(o, acc, cap, rate, s, clock) && clock <= now && 0.0 <= cap && 0.0 <= rate <= r
    ensures OnService(Some(Found(o, cap, now)), acc, cap, rate, s, now)
    ensures OnService(Some(Refill(Found(o, cap, now), r, cap, now)), acc, cap, rate, s, now)
  {
    FullServes(acc, cap, rate, s, now);
    RefillServes(Found(o, cap, now), r, acc, cap, rate, s, now);
    RefillFits(Found(o, cap, now), r, cap, now);
  }

  lemma IpMoveServes(o: Option<Level>, acc: nat, o': Option<Level>, acc': nat, cap: real, r: real, rate: real,
                     s: real, e: real, clock: real, now: real)
    requires OnService(o, acc, cap, rate, s, clock) && clock <= now <= e && 0.0 <= cap && 0.0 <= rate <= r
    requires IpMove(o, acc, o', acc', Refill(Found(o, cap, now), r, cap, now), Found(o, cap, now), s, e, now)
    ensures OnService(o', acc', cap, rate, s, now)
  {
    FoundServes(o, acc, cap, r, rate, s, clock, now);
    if o.Some? && o.value.tokens >= 1.0 {
      TakeServes(o.value, acc, cap, rate, s);
    }
  }

  ghost predicate IpOnService<H, G>(cfg: Config, st: State<H, G>, ip: string, s: real, e: real, clock: real)
    requires IpsPlaced(st)
  {
    OnService(IpLevel(st, ip), Fresh(st.log, OfIp(ip), s, e), cfg.burstSize as real, Slowest(cfg) as real / 60.0, s,
              clock)
  }

  lemma {:induction false} IpServesRun<H, G>(cfg: Config, steps: seq<Step<H, G>>, ip: string, s: real, e: real)
    requires cfg.requestsPerMinute >= 0 && cfg.burstSize >= 0 && Chronological(steps)
    requires steps != [] ==> steps[|steps| - 1].now <= e
    ensures Placed(Run(cfg, steps))
    ensures IpOnService(cfg, Run(cfg, steps), ip, s, e, if steps == [] then e else steps[|steps| - 1].now)
  {
    RunPlaced(cfg, steps);
    if steps != [] {
      var n := |steps| - 1;
      assert n > 0 ==> steps[n - 1].now <= steps[n].now;
      IpServesRun(cfg, steps[..n], ip, s, e);
      var st, now := Run(cfg, steps[..n]), steps[n].now;
      var clock := if n == 0 then now else steps[..n][n - 1].now;
      IpMoves(cfg, st, steps[n], ip, s, e);
      IpServesNext(cfg, st, Run(cfg, steps), ip, s, e, clock, now);
    }
  }

  lemma IpServesNext<H, G>(cfg: Config, st: State<H, G>, st': State<H, G>, ip: string, s: real, e: real, clock: real,
                           now: real)
    requires cfg.requestsPerMinute >= 0 && cfg.burstSize >= 0 && IpsPlaced(st) && IpsPlaced(st')
    requires IpOnService(cfg, st, ip, s, e, clock) && clock <= now <= e
    requires var found := IpFound(cfg, st, ip, now);
             IpMove(IpLevel(st, ip), Fresh(st.log, OfIp(ip), s, e), IpLevel(st', ip), Fresh(st'.log, OfIp(ip), s, e),
                    RefillIp(cfg, found, now).level, found.level, s, e, now)
    ensures IpOnService(cfg, st', ip, s, e, now)
  {
    var found := IpFound(cfg, st, ip, now);
    AtLeastSlowest(cfg, found);
    IpMoveServes(IpLevel(st, ip), Fresh(st.log, OfIp(ip), s, e), IpLevel(st', ip), Fresh(st'.log, OfIp(ip), s, e),
                 cfg.burstSize as real, CurrentLimit(cfg, found) as real / 60.0, Slowest(cfg) as real / 60.0,
                 s, e, clock, now);
  }

  /** The same from the time the bucket was last full: it may have been refilled since. */
  ghost predicate IpOwed<H, G>(cfg: Config, st: State<H, G>, ip: string, s: real, e: real)
    requires IpsPlaced(st)
  {
    var cap, rate := cfg.burstSize as real, Slowest(cfg) as real / 60.0;
    IpLevel(st, ip).Some? ==> Owes(IpLevel(st, ip).value, Fresh(st.log, OfIp(ip), s, e), cap, rate, s)
  }

  lemma IpMoveOwes(o: Option<Level>, acc: nat, o': Option<Level>, acc': nat, acc'': nat, cap: real, r: real, rate: real,
                   s: real, e: real, clock: real, now: real) returns (full: bool)
    requires Fits(o, cap, clock) && clock <= now <= e && 0.0 <= cap && 0.0 <= rate <= r
    requires o.Some? ==> Owes(o.value, acc, cap, rate, s)
    requires IpMove(o, acc, o', acc', Refill(Found(o, cap, now), r, cap, now), Found(o, cap, now), s, e, now)
    ensures o'.Some? ==> if full then Owes(o'.value, acc'', cap, rate, now) else Owes(o'.value, acc', cap, rate, s)
  {
    full := o'.Some? && o'.value.tokens == cap && o'.value.lastUpdate == now;
    if full {
      FullServes(acc'', cap, rate, s, now);
    } else if o.Some? {
      RefillOwes(o.value, r, acc, cap, rate, s, now);
      TakeOwes(o.value, acc, cap, rate, s);
    } else {
      RefillAtOnce(Level(cap, now), r, cap);
    }
  }

  /** Since when the bucket owes the address what was refilled: the last time it was full. */
  lemma {:induction false} IpOwesRun<H, G>(cfg: Config, steps: seq<Step<H, G>>, ip: string, e: real) returns (s: real)
    requires cfg.requestsPerMinute >= 0 && cfg.burstSize >= 0 && Chronological(steps)
    requires steps != [] ==> steps[|steps| - 1].now <= e
    ensures Placed(Run(cfg, steps)) && IpOwed(cfg, Run(cfg, steps), ip, s, e)
  {
    RunPlaced(cfg, steps);
    if steps == [] {
      s := e;
    } else {
      var n := |steps| - 1;
      assert n > 0 ==> steps[n - 1].now <= steps[n].now;
      s := IpOwesRun(cfg, steps[..n], ip, e);
      IpServesRun(cfg, steps[..n], ip, s, e);
      var st, now := Run(cfg, steps[..n]), steps[n].now;
      var clock := if n == 0 then now else steps[..n][n - 1].now;
      IpMoves(cfg, st, steps[n], ip, s, e);
      s := IpOwesNext(cfg, st, Run(cfg, steps), ip, s, e, clock, now);
    }
  }

  lemma IpOwesNext<H, G>(cfg: Config, st: State<H, G>, st': State<H, G>, ip: string, s: real, e: real, clock: real,
                         now: real) returns (since: real)
    requires cfg.requestsPerMinute >= 0 && cfg.burstSize >= 0 && IpsPlaced(st) && IpsPlaced(st')
    requires Fits(IpLevel(st, ip), cfg.burstSize as real, clock) && clock <= now <= e && IpOwed(cfg, st, ip, s, e)
    requires var found := IpFound(cfg, st, ip, now);
             IpMove(IpLevel(st, ip), Fresh(st.log, OfIp(ip), s, e), IpLevel(st', ip), Fresh(st'.log, OfIp(ip), s, e),
                    RefillIp(cfg, found, now).level, found.level, s, e, now)
    ensures IpOwed(cfg, st', ip, since, e)
  {
    var found := IpFound(cfg, st, ip, now);
    AtLeastSlowest(cfg, found);
    var full := IpMoveOwes(IpLevel(st, ip), Fresh(st.log, OfIp(ip), s, e), IpLevel(st', ip),
                           Fresh(st'.log, OfIp(ip), s, e), Fresh(st'.log, OfIp(ip), now, e), cfg.burstSize as real,
                           CurrentLimit(cfg, found) as real / 60.0, Slowest(cfg) as real / 60.0, s, e, clock, now);
    since := if full then now else s;
  }

  // ---------- An address turned away ----------

  /** A caller that settles finds no token of its address, whose entry is the one in the map. */
  ghost predicate IpDenies<H, G>(cfg: Config, st: State<H, G>, c: nat, now: real) {
    && Enabled(cfg, st, Settle(c, now)) && CurrentIp(st, st.calls[c].ip, st.calls[c].entry)
    && st.ips[st.calls[c].entry].level.tokens < 1.0
  }

  lemma DeniedLevel<H, G>(cfg: Config, st: State<H, G>, c: nat, now: real) returns (b: Level)
    requires Placed(st) && IpDenies(cfg, st, c, now)
    ensures IpLevel(st, st.calls[c].ip) == Some(b) && b.tokens < 1.0 && b.lastUpdate == st.calls[c].at
  {
    b := st.ips[st.calls[c].entry].level;
  }

  /** n requests are all but one of a burst and the refills of [s, t] at this rate. */
  predicate GotBurst(n: nat, burst: int, perMinute: int, s: real, t: real) {
    n as real + 1.0 > burst as real + perMinute as real * ((t - s) / 60.0)
  }

  /** n requests are all but one of these refills, or of a burst if that is less. */
  predicate GotShare(n: nat, burst: int, perMinute: int, s: real, t: real) {
    n as real + 1.0 > Least(burst as real, perMinute as real * ((t - s) / 60.0))
  }

  lemma PerMinute(time: real, limit: real)
    ensures time * (limit / 60.0) == limit * (time / 60.0)
  {
  }

  /** An empty bucket has handed out what it owed. */
  lemma Spent(b: Level, acc: nat, n: nat, burst: int, perMinute: int, s: real)
    requires b.tokens < 1.0 && Owes(b, acc, burst as real, perMinute as real / 60.0, s) && acc <= n
    ensures GotBurst(n, burst, perMinute, s, b.lastUpdate)
  {
    PerMinute(b.lastUpdate - s, perMinute as real);
    var gain := (b.lastUpdate - s) * (perMinute as real / 60.0);
    assert Budget(burst as real, perMinute as real / 60.0, s, b.lastUpdate) == burst as real + gain;
  }

  lemma Shared(b: Level, acc: nat, n: nat, burst: int, perMinute: int, s: real)
    requires b.tokens < 1.0 && Serves(b, acc, burst as real, perMinute as real / 60.0, s) && acc <= n
    ensures GotShare(n, burst, perMinute, s, b.lastUpdate)
  {
    PerMinute(b.lastUpdate - s, perMinute as real);
    var gain := (b.lastUpdate - s) * (perMinute as real / 60.0);
    assert Budget(0.0, perMinute as real / 60.0, s, b.lastUpdate) == gain;
  }

  /** In whatever interleaving, an address is denied only after it has got, since some time at
      which its bucket was full, the whole burst and all refills at the slowest rate. */
  lemma IpDeniedSpent<H, G>(cfg: Config, steps: seq<Step<H, G>>, c: nat, now: real) returns (s: real)
    requires cfg.requestsPerMinute >= 0 && cfg.burstSize >= 0 && Chronological(steps + [Settle(c, now)])
    requires IpDenies(cfg, Run(cfg, steps), c, now)
    ensures var st := Run(cfg, steps);
            var call := st.calls[c];
            && s <= call.at
            && GotBurst(Allowed(st.log, OfIp(call.ip), s, now), cfg.burstSize, Slowest(cfg), s, call.at)
  {
    var st := Run(cfg, steps);
    var ip := st.calls[c].ip;
    LastNow(steps, Settle(c, now));
    s := IpOwesRun(cfg, steps, ip, now);
    var b := DeniedLevel(cfg, st, c, now);
    FreshOrOvertaken(st.log, OfIp(ip), s, now);
    Spent(b, Fresh(st.log, OfIp(ip), s, now), Allowed(st.log, OfIp(ip), s, now), cfg.burstSize, Slowest(cfg), s);
  }

  lemma LastNow<H, G>(steps: seq<Step<H, G>>, step: Step<H, G>)
    requires Chronological(steps + [step])
    ensures Chronological(steps) && (steps != [] ==> steps[|steps| - 1].now <= step.now)
  {
    var all := steps + [step];
    assert forall i | 0 <= i < |steps| :: all[i] == steps[i];
    assert all[|steps|] == step;
    if steps != [] {
      assert all[|steps| - 1].now <= all[|steps|].now;
    }
  }

  /** And over any stretch of time before: a denied address has got there all that was refilled in
      it at the slowest rate, or a burst if that is less. */
  lemma IpDeniedServed<H, G>(cfg: Config, steps: seq<Step<H, G>>, c: nat, now: real, s: real)
    requires cfg.requestsPerMinute >= 0 && cfg.burstSize >= 0 && Chronological(steps + [Settle(c, now)])
    requires IpDenies(cfg, Run(cfg, steps), c, now)
    ensures var st := Run(cfg, steps);
            var call := st.calls[c];
            GotShare(Allowed(st.log, OfIp(call.ip), s, now), cfg.burstSize, Slowest(cfg), s, call.at)
  {
    var st := Run(cfg, steps);
    var ip := st.calls[c].ip;
    LastNow(steps, Settle(c, now));
    IpServesRun(cfg, steps, ip, s, now);
    var b := DeniedLevel(cfg, st, c, now);
    FreshOrOvertaken(st.log, OfIp(ip), s, now);
    Shared(b, Fresh(st.log, OfIp(ip), s, now), Allowed(st.log, OfIp(ip), s, now), cfg.burstSize, Slowest(cfg), s);
  }

  /** The time of one token at the full rate if no failure was counted, at the slowest otherwise. */
  predicate Waited(cfg: Config, entry: IpState, now: real) {
    (if entry.failedRequests == 0 then cfg.requestsPerMinute else Slowest(cfg)) as real
    * (now - entry.level.lastUpdate) >= 60.0
  }

  /** Whoever has waited that long since the last request finds a token. */
  lemma WaitIsEnough<H, G>(cfg: Config, steps: seq<Step<H, G>>, c: nat, now: real)
    requires cfg.requestsPerMinute >= 0 && cfg.burstSize >= 1 && Chronological(steps + [Lock(c, false, now)])
    requires var st := Run(cfg, steps);
             && Enabled(cfg, st, Lock(c, false, now)) && CurrentIp(st, st.calls[c].ip, st.calls[c].entry)
             && Waited(cfg, st.ips[st.calls[c].entry], now)
    ensures var st, st' := Run(cfg, steps), Run(cfg, steps + [Lock(c, false, now)]);
            st.calls[c].entry in st'.ips && st'.ips[st.calls[c].entry].level.tokens >= 1.0
  {
    var st := Run(cfg, steps);
    LastNow(steps, Lock(c, false, now));
    IpServesRun(cfg, steps, st.calls[c].ip, now, now);
    RunExtend(cfg, steps, Lock(c, false, now));
    LockFills(cfg, st, c, now);
  }

  lemma LockFills<H, G>(cfg: Config, st: State<H, G>, c: nat, now: real)
    requires cfg.requestsPerMinute >= 0 && cfg.burstSize >= 1 && IpsPlaced(st)
    requires Enabled(cfg, st, Lock(c, false, now)) && CurrentIp(st, st.calls[c].ip, st.calls[c].entry)
    requires Fits(IpLevel(st, st.calls[c].ip), cfg.burstSize as real, now)
             && Waited(cfg, st.ips[st.calls[c].entry], now)
    ensures var h, st' := st.calls[c].entry, Next(cfg, st, Lock(c, false, now));
            h in st'.ips && st'.ips[h].level.tokens >= 1.0
  {
    var entry := st.ips[st.calls[c].entry];
    AtLeastSlowest(cfg, entry);
    OneToken(cfg, entry, if entry.failedRequests == 0 then cfg.requestsPerMinute else Slowest(cfg), now);
  }

  lemma OneToken(cfg: Config, entry: IpState, rate: int, now: real)
    requires cfg.burstSize >= 1 && 0.0 <= entry.level.tokens && entry.level.lastUpdate <= now
    requires 0 <= rate <= CurrentLimit(cfg, entry) && rate as real * (now - entry.level.lastUpdate) >= 60.0
    ensures RefillIp(cfg, entry, now).level.tokens >= 1.0
  {
    var wait, limit := now - entry.level.lastUpdate, CurrentLimit(cfg, entry) as real;
    GainBounds(wait, rate as real, limit);
    var gain := wait * (limit / 60.0);
    PerMinute(wait, limit);
    assert limit * (wait / 60.0) == limit * wait / 60.0;
    assert RefillIp(cfg, entry, now).level == Level(Capped(entry.level.tokens + gain, cfg.burstSize as real), now);
  }

  // ---------- The subnet's bucket ----------

  /** The step takes a token of the subnet's bucket in the map. */
  ghost predicate Charges<H, G>(cfg: Config, st: State<H, G>, step: Step<H, G>, subnet: string) {
    && step.Settle? && Enabled(cfg, st, step)
    && var call := st.calls[step.c];
    call.Asking? && call.subnet == subnet && CurrentSubnet(st, subnet, call.bucket)
    && Asked(cfg, st, step.c, step.now).tokens >= 1.0
  }

  /** The steps from time s on that do. */
  ghost function Charged<H, G>(cfg: Config, steps: seq<Step<H, G>>, subnet: string, s: real): nat {
    if steps == [] then 0
    else
      var n := |steps| - 1;
      Charged(cfg, steps[..n], subnet, s)
      + One(s <= steps[n].now && Charges(cfg, Run(cfg, steps[..n]), steps[n], subnet))
  }

  /** Those of them that go to waste: the address has no token left. */
  ghost function Wasted<H, G>(cfg: Config, steps: seq<Step<H, G>>, subnet: string, s: real): nat {
    if steps == [] then 0
    else
      var n := |steps| - 1;
      var st := Run(cfg, steps[..n]);
      Wasted(cfg, steps[..n], subnet, s)
      + One(s <= steps[n].now && Charges(cfg, st, steps[n], subnet) && !Passes(cfg, st, steps[n].c, steps[n].now))
  }

  /** The subnet's tokens go to the requests that are allowed, and to those that the address turns
      away afterwards. */
  lemma {:induction false} ChargedAre<H, G>(cfg: Config, steps: seq<Step<H, G>>, subnet: string, s: real, e: real)
    requires Limited(cfg, subnet) && Chronological(steps) && (steps != [] ==> steps[|steps| - 1].now <= e)
    ensures Charged(cfg, steps, subnet, s)
            == Fresh(Run(cfg, steps).log, OfSubnet(subnet), s, e) + Wasted(cfg, steps, subnet, s)
  {
    if steps != [] {
      var n := |steps| - 1;
      assert n > 0 ==> steps[n - 1].now <= steps[n].now;
      ChargedAre(cfg, steps[..n], subnet, s, e);
      RunPlaced(cfg, steps[..n]);
      LogGrows(cfg, Run(cfg, steps[..n]), steps[n], subnet, s, e);
    }
  }

  lemma LogGrows<H, G>(cfg: Config, st: State<H, G>, step: Step<H, G>, subnet: string, s: real, e: real)
    requires Placed(st) && Limited(cfg, subnet) && step.now <= e
    ensures Fresh(Next(cfg, st, step).log, OfSubnet(subnet), s, e)
            == Fresh(st.log, OfSubnet(subnet), s, e)
               + One(s <= step.now && Charges(cfg, st, step, subnet) && Passes(cfg, st, step.c, step.now))
  {
    if step.Settle? && Enabled(cfg, st, step) {
      CountExtend(st.log, Logged(st, step.c, step.now), OfSubnet(subnet), s, e);
    }
  }

  /** What one step can do to the subnet's bucket in the map. */
  ghost predicate SubnetStep(o: Option<Level>, o': Option<Level>, charged: bool, found: Level, served: Level) {
    if charged then served.tokens >= 1.0 && o' == Some(Taken(served))
    else o' == o || o' == Some(found) || o' == Some(served) || o' == None
  }

  ghost predicate SubnetStepped<H, G>(cfg: Config, st: State<H, G>, st': State<H, G>, subnet: string, charged: bool,
                                      now: real)
    requires SubnetsPlaced(st) && SubnetsPlaced(st')
  {
    var found := Found(SubnetLevel(st, subnet), cfg.subnetRequestsPerMinute as real, now);
    SubnetStep(SubnetLevel(st, subnet), SubnetLevel(st', subnet), charged, found, RefillSubnet(cfg, found, now))
  }

  lemma SubnetSteps<H, G>(cfg: Config, st: State<H, G>, step: Step<H, G>, subnet: string)
    requires Placed(st) && Placed(Next(cfg, st, step))
    ensures SubnetStepped(cfg, st, Next(cfg, st, step), subnet, Charges(cfg, st, step, subnet), step.now)
  {
  }

  lemma SubnetStepServes(o: Option<Level>, acc: nat, o': Option<Level>, charged: bool, cap: real, rate: real,
                         s: real, clock: real, now: real)
    requires OnService(o, acc, cap, rate, s, clock) && clock <= now && 0.0 <= cap && 0.0 <= rate
    requires SubnetStep(o, o', charged, Found(o, cap, now), Refill(Found(o, cap, now), rate, cap, now))
    ensures OnService(o', acc + One(s <= now && charged), cap, rate, s, now)
  {
    FoundServes(o, acc, cap, rate, rate, s, clock, now);
    if charged {
      TakeServes(Refill(Found(o, cap, now), rate, cap, now), acc, cap, rate, s);
    }
  }

  ghost predicate SubnetOnService<H, G>(cfg: Config, st: State<H, G>, subnet: string, acc: nat, s: real, clock: real)
    requires SubnetsPlaced(st)
  {
    var cap := cfg.subnetRequestsPerMinute as real;
    OnService(SubnetLevel(st, subnet), acc, cap, cap / 60.0, s, clock)
  }

  lemma SubnetServesNext<H, G>(cfg: Config, st: State<H, G>, st': State<H, G>, subnet: string, charged: bool, acc: nat,
                               s: real, now: real)
    requires cfg.subnetRequestsPerMinute >= 0 && SubnetsPlaced(st) && SubnetsPlaced(st')
    requires SubnetStepped(cfg, st, st', subnet, charged, now) && SubnetOnService(cfg, st, subnet, acc, s, now)
    ensures SubnetOnService(cfg, st', subnet, acc + One(s <= now && charged), s, now)
  {
    var cap := cfg.subnetRequestsPerMinute as real;
    SubnetStepServes(SubnetLevel(st, subnet), acc, SubnetLevel(st', subnet), charged, cap, cap / 60.0, s, now, now);
  }

  lemma {:induction false} SubnetServesRun<H, G>(cfg: Config, steps: seq<Step<H, G>>, subnet: string, s: real, e: real)
    requires cfg.subnetRequestsPerMinute >= 0 && Chronological(steps)
    requires steps != [] ==> steps[|steps| - 1].now <= e
    ensures Placed(Run(cfg, steps))
    ensures SubnetOnService(cfg, Run(cfg, steps), subnet, Charged(cfg, steps, subnet, s), s, e)
  {
    RunPlaced(cfg, steps);
    if steps != [] {
      var n := |steps| - 1;
      assert n > 0 ==> steps[n - 1].now <= steps[n].now;
      SubnetServesRun(cfg, steps[..n], subnet, s, steps[n].now);
      var st := Run(cfg, steps[..n]);
      SubnetSteps(cfg, st, steps[n], subnet);
      SubnetServesNext(cfg, st, Run(cfg, steps), subnet, Charges(cfg, st, steps[n], subnet),
                       Charged(cfg, steps[..n], subnet, s), s, steps[n].now);
    }
  }

  ghost predicate SubnetOwed<H, G>(cfg: Config, st: State<H, G>, subnet: string, acc: nat, s: real)
    requires SubnetsPlaced(st)
  {
    var cap, o := cfg.subnetRequestsPerMinute as real, SubnetLevel(st, subnet);
    o.Some? ==> Owes(o.value, acc, cap, cap / 60.0, s)
  }

  /** Refilled now, the bucket owes from s on or is full. */
  lemma RefilledOwes(o: Option<Level>, acc: nat, acc': nat, cap: real, rate: real, s: real, clock: real, now: real)
    returns (full: bool)
    requires Fits(o, cap, clock) && clock <= now && 0.0 <= cap && 0.0 <= rate
    requires o.Some? ==> Owes(o.value, acc, cap, rate, s)
    ensures var b := Refill(Found(o, cap, now), rate, cap, now);
            if full then b.tokens == cap && Owes(b, acc', cap, rate, now) else Owes(b, acc, cap, rate, s)
  {
    var b := Refill(Found(o, cap, now), rate, cap, now);
    full := b.tokens == cap;
    if full {
      FullServes(acc', cap, rate, s, now);
    } else if o.Some? {
      RefillOwes(o.value, rate, acc, cap, rate, s, now);
    } else {
      RefillAtOnce(Level(cap, now), rate, cap);
    }
  }

  lemma SubnetStepOwes(o: Option<Level>, acc: nat, o': Option<Level>, acc0: nat, charged: bool, cap: real, rate: real,
                       s: real, clock: real, now: real) returns (full: bool)
    requires Fits(o, cap, clock) && clock <= now && 0.0 <= cap && 0.0 <= rate
    requires o.Some? ==> Owes(o.value, acc, cap, rate, s)
    requires SubnetStep(o, o', charged, Found(o, cap, now), Refill(Found(o, cap, now), rate, cap, now))
    ensures o'.Some? ==> if full then Owes(o'.value, acc0 + One(charged), cap, rate, now)
                         else Owes(o'.value, acc + One(s <= now && charged), cap, rate, s)
  {
    full := RefilledOwes(o, acc, acc0, cap, rate, s, clock, now);
    var b := Refill(Found(o, cap, now), rate, cap, now);
    if charged {
      TakeOwes(b, if full then acc0 else acc, cap, rate, if full then now else s);
    } else if o' == o {
      full := false;
    } else if o' == Some(Level(cap, now)) {
      FullServes(acc0, cap, rate, s, now);
      full := true;
    }
  }

  /** acc: what was taken since s; acc0: what was taken from now on before this step. */
  lemma SubnetOwesNext<H, G>(cfg: Config, st: State<H, G>, st': State<H, G>, subnet: string, charged: bool, acc: nat,
                             acc0: nat, s: real, now: real) returns (full: bool)
    requires cfg.subnetRequestsPerMinute >= 0 && SubnetsPlaced(st) && SubnetsPlaced(st')
    requires SubnetStepped(cfg, st, st', subnet, charged, now) && SubnetOwed(cfg, st, subnet, acc, s)
    requires Fits(SubnetLevel(st, subnet), cfg.subnetRequestsPerMinute as real, now)
    ensures if full then SubnetOwed(cfg, st', subnet, acc0 + One(charged), now)
            else SubnetOwed(cfg, st', subnet, acc + One(s <= now && charged), s)
  {
    var cap := cfg.subnetRequestsPerMinute as real;
    full := SubnetStepOwes(SubnetLevel(st, subnet), acc, SubnetLevel(st', subnet), acc0, charged, cap, cap / 60.0,
                           s, now, now);
  }

  lemma {:induction false} SubnetOwesRun<H, G>(cfg: Config, steps: seq<Step<H, G>>, subnet: string, e: real)
    returns (s: real)
    requires cfg.subnetRequestsPerMinute >= 0 && Chronological(steps)
    requires steps != [] ==> steps[|steps| - 1].now <= e
    ensures Placed(Run(cfg, steps)) && SubnetOwed(cfg, Run(cfg, steps), subnet, Charged(cfg, steps, subnet, s), s)
  {
    RunPlaced(cfg, steps);
    if steps == [] {
      s := e;
    } else {
      var n, now := |steps| - 1, steps[|steps| - 1].now;
      assert n > 0 ==> steps[n - 1].now <= steps[n].now;
      var since := SubnetOwesRun(cfg, steps[..n], subnet, now);
      SubnetServesRun(cfg, steps[..n], subnet, since, now);
      var st := Run(cfg, steps[..n]);
      SubnetSteps(cfg, st, steps[n], subnet);
      var full := SubnetOwesNext(cfg, st, Run(cfg, steps), subnet, Charges(cfg, st, steps[n], subnet),
                                 Charged(cfg, steps[..n], subnet, since), Charged(cfg, steps[..n], subnet, now),
                                 since, now);
      s := if full then now else since;
    }
  }

  // ---------- A subnet turned away ----------

  /** A caller that settles finds no token of its subnet, whose entry is the one in the map. */
  ghost predicate SubnetDenies<H, G>(cfg: Config, st: State<H, G>, c: nat, now: real) {
    && Enabled(cfg, st, Settle(c, now)) && st.calls[c].Asking?
    && CurrentSubnet(st, st.calls[c].subnet, st.calls[c].bucket) && Asked(cfg, st, c, now).tokens < 1.0
  }

  /** A subnet is denied only after its requests have taken, since some time at which its bucket
      was full, a whole minute's tokens and all refills. */
  lemma SubnetDeniedSpent<H, G>(cfg: Config, steps: seq<Step<H, G>>, c: nat, now: real) returns (s: real)
    requires cfg.subnetRequestsPerMinute >= 0 && Chronological(steps + [Settle(c, now)])
    requires SubnetDenies(cfg, Run(cfg, steps), c, now)
    ensures var subnet, perMinute := Run(cfg, steps).calls[c].subnet, cfg.subnetRequestsPerMinute;
            s <= now && GotBurst(Charged(cfg, steps, subnet, s), perMinute, perMinute, s, now)
  {
    var st := Run(cfg, steps);
    var subnet, cap := st.calls[c].subnet, cfg.subnetRequestsPerMinute as real;
    LastNow(steps, Settle(c, now));
    s := SubnetOwesRun(cfg, steps, subnet, now);
    SubnetServesRun(cfg, steps, subnet, s, now);
    var o := SubnetLevel(st, subnet);
    var full := RefilledOwes(o, Charged(cfg, steps, subnet, s), Charged(cfg, steps, subnet, now), cap, cap / 60.0, s,
                             now, now);
    s := if full then now else s;
    var acc := Charged(cfg, steps, subnet, s);
    Spent(Asked(cfg, st, c, now), acc, acc, cfg.subnetRequestsPerMinute, cfg.subnetRequestsPerMinute, s);
  }

  /** And over any stretch of time before, they have taken what was refilled in it. */
  lemma SubnetDeniedServed<H, G>(cfg: Config, steps: seq<Step<H, G>>, c: nat, now: real, s: real)
    requires cfg.subnetRequestsPerMinute >= 0 && Chronological(steps + [Settle(c, now)])
    requires SubnetDenies(cfg, Run(cfg, steps), c, now)
    ensures var subnet, perMinute := Run(cfg, steps).calls[c].subnet, cfg.subnetRequestsPerMinute;
            GotShare(Charged(cfg, steps, subnet, s), perMinute, perMinute, s, now)
  {
    var st := Run(cfg, steps);
    var subnet, cap := st.calls[c].subnet, cfg.subnetRequestsPerMinute as real;
    LastNow(steps, Settle(c, now));
    SubnetServesRun(cfg, steps, subnet, s, now);
    var acc := Charged(cfg, steps, subnet, s);
    FoundServes(SubnetLevel(st, subnet), acc, cap, cap / 60.0, cap / 60.0, s, now, now);
    Shared(Asked(cfg, st, c, now), acc, acc, cfg.subnetRequestsPerMinute, cfg.subnetRequestsPerMinute, s);
  }

  /** There is no other reason: a request whose entries are those in the maps is left out of the
      log exactly when one of the two denies it. */
  lemma DeniedByOne<H, G>(cfg: Config, st: State<H, G>, c: nat, now: real)
    requires Enabled(cfg, st, Settle(c, now)) && CurrentIp(st, st.calls[c].ip, st.calls[c].entry)
    requires st.calls[c].Asking? ==> CurrentSubnet(st, st.calls[c].subnet, st.calls[c].bucket)
    ensures Next(cfg, st, Settle(c, now)).log == st.log <==> IpDenies(cfg, st, c, now) || SubnetDenies(cfg, st, c, now)
  {
    assert st.log + [Logged(st, c, now)] != st.log;
  }
}
