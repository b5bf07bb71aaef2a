/** The IP throttler of security/throttle.go: one bucket per address, nested in one
    bucket per subnet.  Times are seconds; real numbers stand for the floats. */
module Throttle {
  import opened Basics
  import opened ContinuousBuckets

  datatype Config = Config(
    requestsPerMinute: int,
    burstSize: int,
    enableProgressive: bool,
    enableSubnetLimiting: bool,
    subnetRequestsPerMinute: int)

  /** The bucket of an address and the counters its refill rate depends on. */
  datatype IpState = IpState(level: Level, totalRequests: nat, failedRequests: nat)

  /** An allowed request: when its two buckets were refilled for it, and whether the entries
      it took from had been deleted from their maps since it looked them up. */
  datatype Entry = Entry(ip: string, subnet: string, at: real, subnetAt: real, ipStale: bool, subnetStale: bool)

  /** How far a caller has come: it has looked its address up; it holds that entry's lock and
      has refilled it; it still does and has looked its subnet up too. */
  datatype Call<H, G> =
    | Seen(ip: string, subnet: string, entry: H)
    | Holding(ip: string, subnet: string, entry: H, at: real)
    | Asking(ip: string, subnet: string, entry: H, at: real, bucket: G)

  /** ips, subnets: every entry ever made, by its pointer; ipOf, subnetOf: the two maps, from
      which cleanup deletes while callers may still have a pointer. */
  datatype State<H, G> = State(
    ips: map<H, IpState>,
    ipOf: map<string, H>,
    subnets: map<G, Level>,
    subnetOf: map<string, G>,
    calls: map<nat, Call<H, G>>,
    log: seq<Entry>)

  /** What a caller c, or cleanup, does between two points where others may come in. */
  datatype Step<H, G> =
    | Lookup(c: nat, ip: string, subnet: string, entry: H, now: real)
    | Lock(c: nat, refused: bool, now: real)
    | Ask(c: nat, bucket: G, now: real)
    | Settle(c: nat, now: real)
    | Fail(c: nat, now: real)
    | CleanIps(spared: set<string>, now: real)
    | CleanSubnets(spared: set<string>, now: real)

  const IDLE: real := 1800.0

  /** The rate limit after failures. */
  function CurrentLimit(cfg: Config, s: IpState): int {
    if cfg.enableProgressive && s.totalRequests > 0 then
      if 2 * s.failedRequests > s.totalRequests then GoDiv(cfg.requestsPerMinute, 4)
      else if 5 * s.failedRequests > s.totalRequests then GoDiv(cfg.requestsPerMinute, 2)
      else cfg.requestsPerMinute
    else cfg.requestsPerMinute
  }

  function NewIp(cfg: Config, now: real): IpState {
    IpState(Level(cfg.burstSize as real, now), 0, 0)
  }

  function RefillIp(cfg: Config, s: IpState, now: real): IpState {
    s.(level := Refill(s.level, CurrentLimit(cfg, s) as real / 60.0, cfg.burstSize as real, now))
  }

  function RefillSubnet(cfg: Config, b: Level, now: real): Level {
    Refill(b, cfg.subnetRequestsPerMinute as real / 60.0, cfg.subnetRequestsPerMinute as real, now)
  }

  function Taken(b: Level): Level {
    if b.tokens >= 1.0 then b.(tokens := b.tokens - 1.0) else b
  }

  /** Whether the subnet is asked at all. */
  predicate Limited(cfg: Config, subnet: string) {
    cfg.enableSubnetLimiting && subnet != ""
  }

  ghost predicate Locked<H, G>(st: State<H, G>, h: H) {
    exists c | c in st.calls :: !st.calls[c].Seen? && st.calls[c].entry == h
  }

  ghost predicate CurrentIp<H, G>(st: State<H, G>, ip: string, h: H) {
    ip in st.ipOf && st.ipOf[ip] == h
  }

  ghost predicate CurrentSubnet<H, G>(st: State<H, G>, subnet: string, g: G) {
    subnet in st.subnetOf && st.subnetOf[subnet] == g
  }

  /** A lookup finds the entry in the map or makes a new one; a lock must be free. Cleanup
      takes the lock of every address in the map before it comes to the subnets, so by then
      no caller that has looked a subnet up holds one of them. */
  ghost predicate Enabled<H, G>(cfg: Config, st: State<H, G>, step: Step<H, G>) {
    match step
    case Lookup(c, ip, _, h, _) => c !in st.calls && if ip in st.ipOf then h == st.ipOf[ip] else h !in st.ips
    case Lock(c, _, _) => c in st.calls && st.calls[c].Seen? && st.calls[c].entry in st.ips
         && !Locked(st, st.calls[c].entry)
    case Ask(c, g, _) =>
      && c in st.calls && st.calls[c].Holding? && Limited(cfg, st.calls[c].subnet)
      && if st.calls[c].subnet in st.subnetOf then g == st.subnetOf[st.calls[c].subnet] else g !in st.subnets
    case Settle(c, _) =>
      && c in st.calls && st.calls[c].entry in st.ips
      && ((st.calls[c].Holding? && !Limited(cfg, st.calls[c].subnet))
          || (st.calls[c].Asking? && st.calls[c].bucket in st.subnets))
    case Fail(c, _) => c in st.calls && st.calls[c].Seen? && st.calls[c].entry in st.ips
         && !Locked(st, st.calls[c].entry)
    case CleanIps(_, _) => forall ip | ip in st.ipOf :: st.ipOf[ip] in st.ips
    case CleanSubnets(_, _) =>
      && (forall n | n in st.subnetOf :: st.subnetOf[n] in st.subnets)
      && forall c | c in st.calls && st.calls[c].Asking? :: !CurrentIp(st, st.calls[c].ip, st.calls[c].entry)
  }

  ghost function DoLookup<H, G>(cfg: Config, st: State<H, G>, c: nat, ip: string, subnet: string, h: H,
                                now: real): State<H, G> {
    st.(ips := if ip in st.ipOf then st.ips else st.ips[h := NewIp(cfg, now)],
        ipOf := st.ipOf[ip := h], calls := st.calls[c := Seen(ip, subnet, h)])
  }

  /** Refused: under a penalty or temporarily blacklisted. */
  ghost function DoLock<H, G>(cfg: Config, st: State<H, G>, c: nat, refused: bool, now: real): State<H, G>
    requires c in st.calls && st.calls[c].entry in st.ips
  {
    var call := st.calls[c];
    if refused then st.(calls := st.calls - {c})
    else st.(ips := st.ips[call.entry := RefillIp(cfg, st.ips[call.entry], now)],
             calls := st.calls[c := Holding(call.ip, call.subnet, call.entry, now)])
  }

  ghost function DoAsk<H, G>(cfg: Config, st: State<H, G>, c: nat, g: G, now: real): State<H, G>
    requires c in st.calls && st.calls[c].Holding?
  {
    var call := st.calls[c];
    st.(subnets := if call.subnet in st.subnetOf then st.subnets
                   else st.subnets[g := Level(cfg.subnetRequestsPerMinute as real, now)],
        subnetOf := st.subnetOf[call.subnet := g],
        calls := st.calls[c := Asking(call.ip, call.subnet, call.entry, call.at, g)])
  }

  /** The subnet's bucket, refilled for a caller that asks it. */
  ghost function Asked<H, G>(cfg: Config, st: State<H, G>, c: nat, now: real): Level
    requires c in st.calls && st.calls[c].Asking? && st.calls[c].bucket in st.subnets
  {
    RefillSubnet(cfg, st.subnets[st.calls[c].bucket], now)
  }

  /** What a request that gets its tokens leaves in the log. */
  ghost function Logged<H, G>(st: State<H, G>, c: nat, now: real): Entry
    requires c in st.calls && !st.calls[c].Seen?
  {
    var call := st.calls[c];
    Entry(call.ip, call.subnet, call.at, now, !CurrentIp(st, call.ip, call.entry),
          call.Asking? && !CurrentSubnet(st, call.subnet, call.bucket))
  }

  /** First the subnet's token, if it is asked at all, then the address's. */
  ghost function DoSettle<H, G>(cfg: Config, st: State<H, G>, c: nat, now: real): State<H, G>
    requires c in st.calls && !st.calls[c].Seen? && st.calls[c].entry in st.ips
    requires st.calls[c].Asking? ==> st.calls[c].bucket in st.subnets
  {
    var call := st.calls[c];
    var t := st.(calls := st.calls - {c},
                 subnets := if call.Asking? then st.subnets[call.bucket := Taken(Asked(cfg, st, c, now))]
                   else st.subnets);
    var s := st.ips[call.entry];
    if (call.Asking? && Asked(cfg, st, c, now).tokens < 1.0) || s.level.tokens < 1.0 then t
    else t.(ips := st.ips[call.entry := s.(level := Taken(s.level), totalRequests := s.totalRequests + 1)],
            log := st.log + [Logged(st, c, now)])
  }

  ghost function DoFail<H, G>(st: State<H, G>, c: nat): State<H, G>
    requires c in st.calls && st.calls[c].entry in st.ips
  {
    var h := st.calls[c].entry;
    st.(ips := st.ips[h := st.ips[h].(failedRequests := st.ips[h].failedRequests + 1)], calls := st.calls - {c})
  }

  /** Any of the idle entries may be spared: blacklisted ones are, and while cleanup works
      through the map it has not come to the others yet. */
  ghost function DoCleanIps<H, G>(st: State<H, G>, spared: set<string>, now: real): State<H, G>
    requires forall ip | ip in st.ipOf :: st.ipOf[ip] in st.ips
  {
    st.(ipOf := map ip | ip in st.ipOf &&
                  (now - st.ips[st.ipOf[ip]].level.lastUpdate <= IDLE || ip in spared || Locked(st, st.ipOf[ip])) ::
                      st.ipOf[ip])
  }

  ghost function DoCleanSubnets<H, G>(st: State<H, G>, spared: set<string>, now: real): State<H, G>
    requires forall n | n in st.subnetOf :: st.subnetOf[n] in st.subnets
  {
    st.(subnetOf := map n | n in st.subnetOf && (now - st.subnets[st.subnetOf[n]].lastUpdate <= IDLE || n in spared)
                      :: st.subnetOf[n])
  }

  ghost function Do<H, G>(cfg: Config, st: State<H, G>, step: Step<H, G>): State<H, G>
    requires Enabled(cfg, st, step)
  {
    match step
    case Lookup(c, ip, subnet, h, now) => DoLookup(cfg, st, c, ip, subnet, h, now)
    case Lock(c, refused, now) => DoLock(cfg, st, c, refused, now)
    case Ask(c, g, now) => DoAsk(cfg, st, c, g, now)
    case Settle(c, now) => DoSettle(cfg, st, c, now)
    case Fail(c, _) => DoFail(st, c)
    case CleanIps(spared, now) => DoCleanIps(st, spared, now)
    case CleanSubnets(spared, now) => DoCleanSubnets(st, spared, now)
  }

  /** A step that has to wait, or has nothing to do, does not happen. */
  ghost function Next<H, G>(cfg: Config, st: State<H, G>, step: Step<H, G>): State<H, G> {
    if Enabled(cfg, st, step) then Do(cfg, st, step) else st
  }

  ghost function Run<H, G>(cfg: Config, steps: seq<Step<H, G>>): State<H, G> {
    if steps == [] then State(map[], map[], map[], map[], map[], [])
    else Next(cfg, Run(cfg, steps[..|steps| - 1]), steps[|steps| - 1])
  }

  lemma RunExtend<H, G>(cfg: Config, steps: seq<Step<H, G>>, step: Step<H, G>)
    ensures Run(cfg, steps + [step]) == Next(cfg, Run(cfg, steps), step)
  {
    assert (steps + [step])[..|steps|] == steps;
  }

  ghost predicate Chronological<H, G>(steps: seq<Step<H, G>>) {
    forall i, j | 0 <= i <= j < |steps| :: steps[i].now <= steps[j].now
  }

  // ---------- The requests that were allowed ----------

  /** Whose bucket a count is about. */
  datatype Scope = OfIp(ip: string) | OfSubnet(subnet: string)

  /** The request took a token of this bucket, refilled in [s, e]. */
  predicate Took(x: Entry, scope: Scope, s: real, e: real) {
    match scope
    case OfIp(ip) => x.ip == ip && s <= x.at <= e
    case OfSubnet(subnet) => x.subnet == subnet && s <= x.subnetAt <= e
  }

  /** The entry it took from had been deleted between its lookup and its lock. */
  predicate Stale(x: Entry, scope: Scope) {
    match scope
    case OfIp(_) => x.ipStale
    case OfSubnet(_) => x.subnetStale
  }

  function One(b: bool): nat {
    if b then 1 else 0
  }

  function Allowed(log: seq<Entry>, scope: Scope, s: real, e: real): nat {
    if log == [] then 0
    else Allowed(log[..|log| - 1], scope, s, e) + One(Took(log[|log| - 1], scope, s, e))
  }

  function Fresh(log: seq<Entry>, scope: Scope, s: real, e: real): nat {
    if log == [] then 0
    else Fresh(log[..|log| - 1], scope, s, e) + One(Took(log[|log| - 1], scope, s, e) && !Stale(log[|log| - 1], scope))
  }

  function Overtaken(log: seq<Entry>, scope: Scope, s: real, e: real): nat {
    if log == [] then 0
    else Overtaken(log[..|log| - 1], scope, s, e)
         + One(Took(log[|log| - 1], scope, s, e) && Stale(log[|log| - 1], scope))
  }

  lemma {:induction false} FreshOrOvertaken(log: seq<Entry>, scope: Scope, s: real, e: real)
    ensures Allowed(log, scope, s, e) == Fresh(log, scope, s, e) + Overtaken(log, scope, s, e)
  {
    if log != [] {
      FreshOrOvertaken(log[..|log| - 1], scope, s, e);
    }
  }

  lemma CountExtend(log: seq<Entry>, x: Entry, scope: Scope, s: real, e: real)
    ensures Allowed(log + [x], scope, s, e) == Allowed(log, scope, s, e) + One(Took(x, scope, s, e))
    ensures Fresh(log + [x], scope, s, e) == Fresh(log, scope, s, e) + One(Took(x, scope, s, e) && !Stale(x, scope))
    ensures Overtaken(log + [x], scope, s, e)
            == Overtaken(log, scope, s, e) + One(Took(x, scope, s, e) && Stale(x, scope))
  {
    assert (log + [x])[..|log|] == log;
  }

  // ---------- Entries and pointers ----------

  ghost predicate IpsPlaced<H, G>(st: State<H, G>) {
    && (forall ip | ip in st.ipOf :: st.ipOf[ip] in st.ips)
    && (forall a, b | a in st.ipOf && b in st.ipOf && a != b :: st.ipOf[a] != st.ipOf[b])
    && (forall c | c in st.calls :: st.calls[c].entry in st.ips)
    && (forall c, ip | c in st.calls && ip in st.ipOf && st.ipOf[ip] == st.calls[c].entry :: ip == st.calls[c].ip)
  }

  ghost predicate SubnetsPlaced<H, G>(st: State<H, G>) {
    && (forall n | n in st.subnetOf :: st.subnetOf[n] in st.subnets)
    && (forall a, b | a in st.subnetOf && b in st.subnetOf && a != b :: st.subnetOf[a] != st.subnetOf[b])
    && (forall c | c in st.calls && st.calls[c].Asking? :: st.calls[c].bucket in st.subnets)
    && (forall c, n | c in st.calls && st.calls[c].Asking? && n in st.subnetOf
        && st.subnetOf[n] == st.calls[c].bucket ::
          n == st.calls[c].subnet)
  }

  /** One holder for each lock, and the entry is as the holder refilled it. */
  ghost predicate LocksHeld<H, G>(st: State<H, G>) {
    && (forall c, d | c in st.calls && d in st.calls && c != d && !st.calls[c].Seen? && !st.calls[d].Seen? ::
          st.calls[c].entry != st.calls[d].entry)
    && (forall c | c in st.calls && !st.calls[c].Seen? && st.calls[c].entry in st.ips ::
          st.ips[st.calls[c].entry].level.lastUpdate == st.calls[c].at)
  }

  /** A caller whose subnet entry was deleted had lost its address entry before. */
  ghost predicate BothLost<H, G>(st: State<H, G>) {
    && (forall c | c in st.calls && st.calls[c].Asking? && CurrentIp(st, st.calls[c].ip, st.calls[c].entry) ::
          CurrentSubnet(st, st.calls[c].subnet, st.calls[c].bucket))
    && (forall x | x in st.log && x.subnetStale :: x.ipStale)
  }

  ghost predicate Placed<H, G>(st: State<H, G>) {
    IpsPlaced(st) && SubnetsPlaced(st) && LocksHeld(st) && BothLost(st)
  }

  lemma LookupPlaces<H, G>(cfg: Config, st: State<H, G>, step: Step<H, G>)
    requires Placed(st) && step.Lookup? && Enabled(cfg, st, step)
    ensures IpsPlaced(Do(cfg, st, step)) && SubnetsPlaced(Do(cfg, st, step))
  {
  }

  lemma LookupLocks<H, G>(cfg: Config, st: State<H, G>, step: Step<H, G>)
    requires Placed(st) && step.Lookup? && Enabled(cfg, st, step)
    ensures LocksHeld(Do(cfg, st, step)) && BothLost(Do(cfg, st, step))
  {
  }

  lemma LockPlaces<H, G>(cfg: Config, st: State<H, G>, step: Step<H, G>)
    requires Placed(st) && step.Lock? && Enabled(cfg, st, step)
    ensures IpsPlaced(Do(cfg, st, step)) && SubnetsPlaced(Do(cfg, st, step))
  {
  }

  lemma LockLocks<H, G>(cfg: Config, st: State<H, G>, step: Step<H, G>)
    requires Placed(st) && step.Lock? && Enabled(cfg, st, step)
    ensures LocksHeld(Do(cfg, st, step)) && BothLost(Do(cfg, st, step))
  {
  }

  lemma AskPlaces<H, G>(cfg: Config, st: State<H, G>, step: Step<H, G>)
    requires Placed(st) && step.Ask? && Enabled(cfg, st, step)
    ensures IpsPlaced(Do(cfg, st, step)) && SubnetsPlaced(Do(cfg, st, step))
  {
  }

  lemma AskLocks<H, G>(cfg: Config, st: State<H, G>, step: Step<H, G>)
    requires Placed(st) && step.Ask? && Enabled(cfg, st, step)
    ensures LocksHeld(Do(cfg, st, step)) && BothLost(Do(cfg, st, step))
  {
  }

  lemma SettlePlaces<H, G>(cfg: Config, st: State<H, G>, step: Step<H, G>)
    requires Placed(st) && step.Settle? && Enabled(cfg, st, step)
    ensures IpsPlaced(Do(cfg, st, step)) && SubnetsPlaced(Do(cfg, st, step))
  {
  }

  lemma SettleLocks<H, G>(cfg: Config, st: State<H, G>, step: Step<H, G>)
    requires Placed(st) && step.Settle? && Enabled(cfg, st, step)
    ensures LocksHeld(Do(cfg, st, step)) && BothLost(Do(cfg, st, step))
  {
  }

  lemma CleanPlaced<H, G>(cfg: Config, st: State<H, G>, step: Step<H, G>)
    requires Placed(st) && (step.CleanIps? || step.CleanSubnets?) && Enabled(cfg, st, step)
    ensures Placed(Do(cfg, st, step))
  {
  }

  lemma NextPlaced<H, G>(cfg: Config, st: State<H, G>, step: Step<H, G>)
    requires Placed(st)
    ensures Placed(Next(cfg, st, step))
  {
    if Enabled(cfg, st, step) {
      match step
      case Lookup(_, _, _, _, _) =>
        LookupPlaces(cfg, st, step);
        LookupLocks(cfg, st, step);
      case Lock(_, _, _) =>
        LockPlaces(cfg, st, step);
        LockLocks(cfg, st, step);
      case Ask(_, _, _) =>
        AskPlaces(cfg, st, step);
        AskLocks(cfg, st, step);
      case Settle(_, _) =>
        SettlePlaces(cfg, st, step);
        SettleLocks(cfg, st, step);
      case Fail(_, _) =>
      case _ => CleanPlaced(cfg, st, step);
    }
  }

  lemma {:induction false} RunPlaced<H, G>(cfg: Config, steps: seq<Step<H, G>>)
    ensures Placed(Run(cfg, steps))
  {
    if steps != [] {
      RunPlaced(cfg, steps[..|steps| - 1]);
      NextPlaced(cfg, Run(cfg, steps[..|steps| - 1]), steps[|steps| - 1]);
    }
  }

  /** As long as a caller holds an address entry, that entry does not leave the map nor come
      back: whether it is stale was decided when the lock was taken. */
  lemma HeldStays<H, G>(cfg: Config, st: State<H, G>, step: Step<H, G>, c: nat)
    requires IpsPlaced(st) && c in st.calls && !st.calls[c].Seen?
    ensures var call, st' := st.calls[c], Next(cfg, st, step);
            CurrentIp(st', call.ip, call.entry) <==> CurrentIp(st, call.ip, call.entry)
  {
    assert Locked(st, st.calls[c].entry);
  }

  /** The request at c gets both tokens. */
  ghost predicate Passes<H, G>(cfg: Config, st: State<H, G>, c: nat, now: real)
    requires Enabled(cfg, st, Settle(c, now))
  {
    (st.calls[c].Asking? ==> Asked(cfg, st, c, now).tokens >= 1.0) && st.ips[st.calls[c].entry].level.tokens >= 1.0
  }

  // ---------- The bound for a subnet ----------

  ghost function SubnetLevel<H, G>(st: State<H, G>, subnet: string): Option<Level>
    requires SubnetsPlaced(st)
  {
    if subnet in st.subnetOf then Some(st.subnets[st.subnetOf[subnet]]) else None
  }

  ghost predicate SubnetPaid<H, G>(cfg: Config, st: State<H, G>, subnet: string, s: real, e: real, clock: real)
    requires SubnetsPlaced(st)
  {
    var cap := cfg.subnetRequestsPerMinute as real;
    OnBudget(SubnetLevel(st, subnet), Fresh(st.log, OfSubnet(subnet), s, e), cap, cap / 60.0, s, e, clock)
  }

  /** What one step can do to the bucket in the map and to its count of fresh requests. */
  ghost predicate SubnetMove(o: Option<Level>, acc: nat, o': Option<Level>, acc': nat, found: Level, served: Level,
                             s: real, e: real, now: real)
  {
    || (o' == o && acc' == acc)
    || ((o' == Some(found) || o' == Some(served)) && acc' == acc)
    || (served.tokens >= 1.0 && o' == Some(Taken(served)) && (acc' == acc || acc' == acc + One(s <= now <= e)))
    || (o.Some? && now - o.value.lastUpdate > IDLE && o' == None && acc' == acc)
  }

  /** Asking a bucket that cleanup has deleted moves nothing that counts. */
  lemma SettleMovesSubnet<H, G>(cfg: Config, st: State<H, G>, c: nat, now: real, subnet: string, s: real, e: real)
    requires Limited(cfg, subnet) && Placed(st) && Enabled(cfg, st, Settle(c, now))
             && SubnetsPlaced(DoSettle(cfg, st, c, now))
    ensures var found := Found(SubnetLevel(st, subnet), cfg.subnetRequestsPerMinute as real, now);
            var st' := DoSettle(cfg, st, c, now);
            SubnetMove(SubnetLevel(st, subnet), Fresh(st.log, OfSubnet(subnet), s, e),
                       SubnetLevel(st', subnet), Fresh(st'.log, OfSubnet(subnet), s, e),
                       found, RefillSubnet(cfg, found, now), s, e, now)
  {
    CountExtend(st.log, Logged(st, c, now), OfSubnet(subnet), s, e);
  }

  /** Requests with a deleted entry move neither the bucket in the map nor the count. */
  lemma SubnetMoves<H, G>(cfg: Config, st: State<H, G>, step: Step<H, G>, subnet: string, s: real, e: real)
    requires Limited(cfg, subnet) && Placed(st) && Placed(Next(cfg, st, step))
    ensures var found := Found(SubnetLevel(st, subnet), cfg.subnetRequestsPerMinute as real, step.now);
            var st' := Next(cfg, st, step);
            SubnetMove(SubnetLevel(st, subnet), Fresh(st.log, OfSubnet(subnet), s, e),
                       SubnetLevel(st', subnet), Fresh(st'.log, OfSubnet(subnet), s, e),
                       found, RefillSubnet(cfg, found, step.now), s, e, step.now)
  {
    if step.Settle? && Enabled(cfg, st, step) {
      SettleMovesSubnet(cfg, st, step.c, step.now, subnet, s, e);
    }
  }

  lemma SubnetMovePaid(o: Option<Level>, acc: nat, o': Option<Level>, acc': nat, cap: real, rate: real,
                       s: real, e: real, clock: real, now: real)
    requires OnBudget(o, acc, cap, rate, s, e, clock)
    requires clock <= now && 0.0 <= cap && 0.0 <= rate && IDLE * rate >= cap
    requires SubnetMove(o, acc, o', acc', Found(o, cap, now), Refill(Found(o, cap, now), rate, cap, now), s, e, now)
    ensures OnBudget(o', acc', cap, rate, s, e, now)
  {
    PaidServe(o, acc, cap, rate, rate, s, e, clock, now);
    if o.None? {
      PaidLater(acc, cap, rate, s, e, clock, now);
      PaidMake(acc, cap, rate, s, e, clock, now);
    } else if now - o.value.lastUpdate > IDLE {
      PaidForget(o.value, acc, cap, rate, s, e, now, IDLE);
    }
  }

  lemma SubnetPaidNext<H, G>(cfg: Config, st: State<H, G>, st': State<H, G>, subnet: string, s: real, e: real,
                             clock: real, now: real)
    requires cfg.subnetRequestsPerMinute >= 0 && SubnetsPlaced(st) && SubnetsPlaced(st')
    requires SubnetPaid(cfg, st, subnet, s, e, clock) && clock <= now
    requires var found := Found(SubnetLevel(st, subnet), cfg.subnetRequestsPerMinute as real, now);
             SubnetMove(SubnetLevel(st, subnet), Fresh(st.log, OfSubnet(subnet), s, e),
                        SubnetLevel(st', subnet), Fresh(st'.log, OfSubnet(subnet), s, e),
                        found, RefillSubnet(cfg, found, now), s, e, now)
    ensures SubnetPaid(cfg, st', subnet, s, e, now)
  {
    var cap := cfg.subnetRequestsPerMinute as real;
    SubnetMovePaid(SubnetLevel(st, subnet), Fresh(st.log, OfSubnet(subnet), s, e),
                   SubnetLevel(st', subnet), Fresh(st'.log, OfSubnet(subnet), s, e),
                   cap, cap / 60.0, s, e, clock, now);
  }

  lemma {:induction false} SubnetPaidRun<H, G>(cfg: Config, steps: seq<Step<H, G>>, subnet: string, s: real, e: real)
    requires cfg.subnetRequestsPerMinute >= 0 && Limited(cfg, subnet) && s <= e && Chronological(steps)
    ensures Placed(Run(cfg, steps))
    ensures SubnetPaid(cfg, Run(cfg, steps), subnet, s, e, if steps == [] then s else steps[|steps| - 1].now)
  {
    var cap := cfg.subnetRequestsPerMinute as real;
    RunPlaced(cfg, steps);
    if steps == [] {
      PaidAtFirst(cap, cap / 60.0, s, e, s);
    } else {
      var n := |steps| - 1;
      SubnetPaidRun(cfg, steps[..n], subnet, s, e);
      var clock := if n == 0 then steps[n].now else steps[..n][n - 1].now;
      if n == 0 {
        PaidAtFirst(cap, cap / 60.0, s, e, clock);
      }
      SubnetMoves(cfg, Run(cfg, steps[..n]), steps[n], subnet, s, e);
      SubnetPaidNext(cfg, Run(cfg, steps[..n]), Run(cfg, steps), subnet, s, e, clock, steps[n].now);
    }
  }

  /** However many addresses of a subnet send requests, in whatever interleaving with
      failures and cleanup: the subnet never gets more than its budget for [s, e], and one
      request more for each that was overtaken by the deletion of its subnet entry. */
  lemma SubnetBound<H, G>(cfg: Config, steps: seq<Step<H, G>>, subnet: string, s: real, e: real)
    requires cfg.subnetRequestsPerMinute >= 0 && Limited(cfg, subnet) && s <= e && Chronological(steps)
    ensures var log := Run(cfg, steps).log;
            Allowed(log, OfSubnet(subnet), s, e) as real
            <= cfg.subnetRequestsPerMinute as real * (1.0 + (e - s) / 60.0)
              + Overtaken(log, OfSubnet(subnet), s, e) as real
  {
    var log := Run(cfg, steps).log;
    assert Fresh(log, OfSubnet(subnet), s, e) as real
           <= Budget(cfg.subnetRequestsPerMinute as real, cfg.subnetRequestsPerMinute as real / 60.0, s, e) by {
      SubnetPaidRun(cfg, steps, subnet, s, e);
    }
    InMinutes(Fresh(log, OfSubnet(subnet), s, e) as real,
              cfg.subnetRequestsPerMinute as real, cfg.subnetRequestsPerMinute as real, s, e);
    OnePlus(cfg.subnetRequestsPerMinute as real, (e - s) / 60.0);
    FreshOrOvertaken(log, OfSubnet(subnet), s, e);
  }

  /** Such a request must have lost its address entry to an earlier cleanup: in a run in
      which no address entry is overtaken the subnet keeps to its budget alone. */
  lemma OvertakenTwice<H, G>(cfg: Config, steps: seq<Step<H, G>>)
    ensures forall x | x in Run(cfg, steps).log && x.subnetStale :: x.ipStale
  {
    RunPlaced(cfg, steps);
  }

  lemma {:induction false} NoneOvertaken(log: seq<Entry>, scope: Scope, s: real, e: real)
    requires forall x | x in log :: !Stale(x, scope)
    ensures Overtaken(log, scope, s, e) == 0
  {
    if log != [] {
      NoneOvertaken(log[..|log| - 1], scope, s, e);
    }
  }

  lemma SubnetBoundFresh<H, G>(cfg: Config, steps: seq<Step<H, G>>, subnet: string, s: real, e: real)
    requires cfg.subnetRequestsPerMinute >= 0 && Limited(cfg, subnet) && s <= e && Chronological(steps)
    requires forall x | x in Run(cfg, steps).log :: !x.ipStale
    ensures Allowed(Run(cfg, steps).log, OfSubnet(subnet), s, e) as real
            <= cfg.subnetRequestsPerMinute as real * (1.0 + (e - s) / 60.0)
  {
    OvertakenTwice(cfg, steps);
    NoneOvertaken(Run(cfg, steps).log, OfSubnet(subnet), s, e);
    SubnetBound(cfg, steps, subnet, s, e);
  }

  lemma InMinutes(n: real, cap: real, perMinute: real, s: real, e: real)
    requires n <= Budget(cap, perMinute / 60.0, s, e)
    ensures n <= cap + perMinute * ((e - s) / 60.0)
  {
    assert (e - s) * (perMinute / 60.0) == perMinute * ((e - s) / 60.0);
  }

  lemma OnePlus(a: real, b: real)
    ensures a + a * b == a * (1.0 + b)
  {
  }

  // ---------- The bound for an address ----------

  ghost function IpLevel<H, G>(st: State<H, G>, ip: string): Option<Level>
    requires IpsPlaced(st)
  {
    if ip in st.ipOf then Some(st.ips[st.ipOf[ip]].level) else None
  }

  /** The statistics a step at this time works on if it works on the entry in the map. */
  ghost function IpFound<H, G>(cfg: Config, st: State<H, G>, ip: string, now: real): IpState
    requires IpsPlaced(st)
  {
    if ip in st.ipOf then st.ips[st.ipOf[ip]] else NewIp(cfg, now)
  }

  ghost predicate IpPaid<H, G>(cfg: Config, st: State<H, G>, ip: string, s: real, e: real, clock: real)
    requires IpsPlaced(st)
  {
    var cap, rate := cfg.burstSize as real, cfg.requestsPerMinute as real / 60.0;
    OnBudget(IpLevel(st, ip), Fresh(st.log, OfIp(ip), s, e), cap, rate, s, e, clock)
  }

  /** Failures only ever slow an address down. */
  lemma LimitBounds(cfg: Config, s: IpState)
    requires cfg.requestsPerMinute >= 0
    ensures 0 <= CurrentLimit(cfg, s) <= cfg.requestsPerMinute
    ensures 0.0 <= CurrentLimit(cfg, s) as real / 60.0 <= cfg.requestsPerMinute as real / 60.0
  {
  }

  /** What one step can do to the bucket in the map and to its count of fresh requests. */
  ghost predicate IpMove(o: Option<Level>, acc: nat, o': Option<Level>, acc': nat, refilled: Level, found: Level,
                         s: real, e: real, now: real)
  {
    || (o' == o && acc' == acc)
    || ((o' == Some(refilled) || o' == Some(found)) && acc' == acc)
    || (o.Some? && o.value.tokens >= 1.0 && o' == Some(Taken(o.value))
        && acc' == acc + One(s <= o.value.lastUpdate <= e))
    || (o.Some? && now - o.value.lastUpdate > IDLE && o' == None && acc' == acc)
  }

  /** Settling works on an entry that is in the map under its own address or under none. */
  lemma SettleLevel<H, G>(cfg: Config, st: State<H, G>, c: nat, now: real, ip: string)
    requires Placed(st) && Enabled(cfg, st, Settle(c, now))
    ensures var st', call := DoSettle(cfg, st, c, now), st.calls[c];
            && IpsPlaced(st')
            && st'.log == (if Passes(cfg, st, c, now) then st.log + [Logged(st, c, now)] else st.log)
            && IpLevel(st', ip) == if Passes(cfg, st, c, now) && call.ip == ip && CurrentIp(st, ip, call.entry)
                                   then Some(Taken(IpLevel(st, ip).value)) else IpLevel(st, ip)
  {
    SettlePlaces(cfg, st, Settle(c, now));
  }

  lemma SettleMovesIp<H, G>(cfg: Config, st: State<H, G>, c: nat, now: real, ip: string, s: real, e: real)
    requires Placed(st) && Enabled(cfg, st, Settle(c, now)) && IpsPlaced(DoSettle(cfg, st, c, now))
    ensures var st' := DoSettle(cfg, st, c, now);
            IpMove(IpLevel(st, ip), Fresh(st.log, OfIp(ip), s, e), IpLevel(st', ip), Fresh(st'.log, OfIp(ip), s, e),
                   RefillIp(cfg, IpFound(cfg, st, ip, now), now).level, IpFound(cfg, st, ip, now).level, s, e, now)
  {
    SettleLevel(cfg, st, c, now, ip);
    CountExtend(st.log, Logged(st, c, now), OfIp(ip), s, e);
    if st.calls[c].ip == ip && CurrentIp(st, ip, st.calls[c].entry) {
      assert IpLevel(st, ip) == Some(st.ips[st.calls[c].entry].level);
      assert st.calls[c].at == st.ips[st.calls[c].entry].level.lastUpdate;
    }
  }

  lemma IpMoves<H, G>(cfg: Config, st: State<H, G>, step: Step<H, G>, ip: string, s: real, e: real)
    requires Placed(st) && Placed(Next(cfg, st, step))
    ensures var found := IpFound(cfg, st, ip, step.now);
            var st' := Next(cfg, st, step);
            && IpMove(IpLevel(st, ip), Fresh(st.log, OfIp(ip), s, e), IpLevel(st', ip), Fresh(st'.log, OfIp(ip), s, e),
                      RefillIp(cfg, found, step.now).level, found.level, s, e, step.now)
            && (IpLevel(st', ip) == None && IpLevel(st, ip) != None ==> step.CleanIps?)
  {
    if step.Settle? && Enabled(cfg, st, step) {
      SettleMovesIp(cfg, st, step.c, step.now, ip, s, e);
    }
  }

  lemma IpMovePaid(o: Option<Level>, acc: nat, o': Option<Level>, acc': nat, cap: real, r: real, rate: real,
                   s: real, e: real, clock: real, now: real)
    requires OnBudget(o, acc, cap, rate, s, e, clock)
    requires clock <= now && 0.0 <= cap && 0.0 <= r <= rate
    requires o'.None? && o.Some? ==> IDLE * rate >= cap
    requires IpMove(o, acc, o', acc', Refill(Found(o, cap, now), r, cap, now), Found(o, cap, now), s, e, now)
    ensures OnBudget(o', acc', cap, rate, s, e, now)
  {
    PaidServe(o, acc, cap, r, rate, s, e, clock, now);
    if o.None? {
      PaidLater(acc, cap, rate, s, e, clock, now);
      PaidMake(acc, cap, rate, s, e, clock, now);
    } else {
      if o.value.tokens >= 1.0 {
        PaidTake(o.value, acc, cap, rate, s, e, now);
      }
      if o'.None? {
        PaidForget(o.value, acc, cap, rate, s, e, now, IDLE);
      }
    }
  }

  /** A forgotten address bucket would have been full again. */
  predicate Forgettable(cfg: Config) {
    cfg.burstSize <= 30 * cfg.requestsPerMinute
  }

  lemma IpPaidNext<H, G>(cfg: Config, st: State<H, G>, st': State<H, G>, ip: string, s: real, e: real, clock: real,
                         now: real)
    requires cfg.requestsPerMinute >= 0 && cfg.burstSize >= 0 && IpsPlaced(st) && IpsPlaced(st')
    requires IpLevel(st', ip) == None && IpLevel(st, ip) != None ==> Forgettable(cfg)
    requires IpPaid(cfg, st, ip, s, e, clock) && clock <= now
    requires var found := IpFound(cfg, st, ip, now);
             IpMove(IpLevel(st, ip), Fresh(st.log, OfIp(ip), s, e), IpLevel(st', ip), Fresh(st'.log, OfIp(ip), s, e),
                    RefillIp(cfg, found, now).level, found.level, s, e, now)
    ensures IpPaid(cfg, st', ip, s, e, now)
  {
    var found := IpFound(cfg, st, ip, now);
    LimitBounds(cfg, found);
    IpMovePaid(IpLevel(st, ip), Fresh(st.log, OfIp(ip), s, e), IpLevel(st', ip), Fresh(st'.log, OfIp(ip), s, e),
               cfg.burstSize as real, CurrentLimit(cfg, found) as real / 60.0, cfg.requestsPerMinute as real / 60.0,
               s, e, clock, now);
  }

  lemma {:induction false} IpPaidRun<H, G>(cfg: Config, steps: seq<Step<H, G>>, ip: string, s: real, e: real)
    requires cfg.requestsPerMinute >= 0 && cfg.burstSize >= 0 && s <= e && Chronological(steps)
    requires Forgettable(cfg) || forall i | 0 <= i < |steps| :: !steps[i].CleanIps?
    ensures Placed(Run(cfg, steps))
    ensures IpPaid(cfg, Run(cfg, steps), ip, s, e, if steps == [] then s else steps[|steps| - 1].now)
  {
    var cap, rate := cfg.burstSize as real, cfg.requestsPerMinute as real / 60.0;
    RunPlaced(cfg, steps);
    if steps == [] {
      PaidAtFirst(cap, rate, s, e, s);
    } else {
      var n := |steps| - 1;
      IpPaidRun(cfg, steps[..n], ip, s, e);
      var clock := if n == 0 then steps[n].now else steps[..n][n - 1].now;
      if n == 0 {
        PaidAtFirst(cap, rate, s, e, clock);
      }
      IpMoves(cfg, Run(cfg, steps[..n]), steps[n], ip, s, e);
      IpPaidNext(cfg, Run(cfg, steps[..n]), Run(cfg, steps), ip, s, e, clock, steps[n].now);
    }
  }

  ghost predicate IpWithin(cfg: Config, log: seq<Entry>, ip: string, s: real, e: real) {
    Allowed(log, OfIp(ip), s, e) as real
    <= cfg.burstSize as real + cfg.requestsPerMinute as real * ((e - s) / 60.0) + Overtaken(log, OfIp(ip), s, e) as real
  }

  lemma WithinBudget(cfg: Config, log: seq<Entry>, ip: string, s: real, e: real)
    requires Fresh(log, OfIp(ip), s, e) as real <= Budget(cfg.burstSize as real, cfg.requestsPerMinute as real / 60.0,
                                                          s, e)
    ensures IpWithin(cfg, log, ip, s, e)
  {
    InMinutes(Fresh(log, OfIp(ip), s, e) as real, cfg.burstSize as real, cfg.requestsPerMinute as real, s, e);
    FreshOrOvertaken(log, OfIp(ip), s, e);
  }

  /** One address never gets more than a burst and its refills, in any interleaving, and one
      request more for each that was overtaken by the deletion of its entry; with cleanup
      this needs bursts that half an hour of refilling covers. */
  lemma IpBound<H, G>(cfg: Config, steps: seq<Step<H, G>>, ip: string, s: real, e: real)
    requires cfg.requestsPerMinute >= 0 && cfg.burstSize >= 0 && s <= e && Chronological(steps)
    requires Forgettable(cfg) || forall i | 0 <= i < |steps| :: !steps[i].CleanIps?
    ensures IpWithin(cfg, Run(cfg, steps).log, ip, s, e)
  {
    IpPaidRun(cfg, steps, ip, s, e);
    WithinBudget(cfg, Run(cfg, steps).log, ip, s, e);
  }

  lemma IpBoundFresh<H, G>(cfg: Config, steps: seq<Step<H, G>>, ip: string, s: real, e: real)
    requires cfg.requestsPerMinute >= 0 && cfg.burstSize >= 0 && s <= e && Chronological(steps)
    requires Forgettable(cfg) || forall i | 0 <= i < |steps| :: !steps[i].CleanIps?
    requires forall x | x in Run(cfg, steps).log :: !x.ipStale
    ensures Allowed(Run(cfg, steps).log, OfIp(ip), s, e) as real
            <= cfg.burstSize as real + cfg.requestsPerMinute as real * ((e - s) / 60.0)
  {
    NoneOvertaken(Run(cfg, steps).log, OfIp(ip), s, e);
    IpBound(cfg, steps, ip, s, e);
  }
}
