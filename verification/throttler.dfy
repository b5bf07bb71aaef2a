/** The throttler as objects: a request that nobody interrupts does exactly the steps of the
    machine, on entries that are the statistics objects themselves. */
module IPThrottlers {
  import opened Basics
  import opened ContinuousBuckets
  import opened Throttle

  class IpStatistics {
    var tokens: real
    var lastUpdate: real
    var totalRequests: nat
    var failedRequests: nat

    ghost function State(): IpState
      reads this
    {
      IpState(Level(tokens, lastUpdate), totalRequests, failedRequests)
    }

    constructor (tokens: real, now: real)
      ensures State() == IpState(Level(tokens, now), 0, 0)
    {
      this.tokens, lastUpdate, totalRequests, failedRequests := tokens, now, 0, 0;
    }

    /** Failures slow the refill down to a half or a quarter. */
    method GetCurrentLimit(config: Config) returns (limit: int)
      ensures limit == CurrentLimit(config, State())
    {
      limit := config.requestsPerMinute;
      if config.enableProgressive && totalRequests > 0 {
        if 2 * failedRequests > totalRequests {
          limit := GoDiv(limit, 4);
        } else if 5 * failedRequests > totalRequests {
          limit := GoDiv(limit, 2);
        }
      }
    }

    method Update(config: Config, now: real)
      modifies this
      ensures State() == RefillIp(config, old(State()), now)
    {
      var limit := GetCurrentLimit(config);
      var gain := (now - lastUpdate) * (limit as real / 60.0);
      RefillIpIs(config, State(), limit, gain, now);
      tokens := tokens + gain;
      lastUpdate := now;
      if tokens > config.burstSize as real {
        tokens := config.burstSize as real;
      }
    }

    /** Takes a token if there is one. */
    method Take() returns (allowed: bool)
      modifies this
      ensures allowed <==> old(tokens) >= 1.0
      ensures State() == if allowed then old(State()).(level := Taken(old(State()).level),
                                                       totalRequests := old(totalRequests) + 1)
                         else old(State())
    {
      allowed := tokens >= 1.0;
      if allowed {
        tokens := tokens - 1.0;
        totalRequests := totalRequests + 1;
      }
    }

    method AddFailure()
      modifies this`failedRequests
      ensures State() == old(State()).(failedRequests := old(failedRequests) + 1)
    {
      failedRequests := failedRequests + 1;
    }
  }

  class SubnetStatistics {
    var tokens: real
    var lastUpdate: real

    ghost function State(): Level
      reads this
    {
      Level(tokens, lastUpdate)
    }

    constructor (tokens: real, now: real)
      ensures State() == Level(tokens, now)
    {
      this.tokens, lastUpdate := tokens, now;
    }

    method Take(config: Config, now: real) returns (allowed: bool)
      modifies this
      ensures var b := RefillSubnet(config, old(State()), now);
              allowed == (b.tokens >= 1.0) && State() == Taken(b)
    {
      tokens := tokens + (now - lastUpdate) * (config.subnetRequestsPerMinute as real / 60.0);
      lastUpdate := now;
      if tokens > config.subnetRequestsPerMinute as real {
        tokens := config.subnetRequestsPerMinute as real;
      }
      allowed := tokens >= 1.0;
      if allowed {
        tokens := tokens - 1.0;
      }
    }
  }

  datatype Listing = Unlisted | Blacklisted | Whitelisted

  type Calls = map<nat, Call<IpStatistics, SubnetStatistics>>
  type Snapshot = State<IpStatistics, SubnetStatistics>

  class IPThrottler {
    const config: Config
    var ipStats: map<string, IpStatistics>
    var subnetStats: map<string, SubnetStatistics>
    ghost var ipEntries: set<IpStatistics>
    ghost var subnetEntries: set<SubnetStatistics>
    ghost var history: seq<Step<IpStatistics, SubnetStatistics>>
    ghost var log: seq<Entry>

    ghost function Ips(): map<IpStatistics, IpState>
      reads this`ipEntries, ipEntries
    {
      map h | h in ipEntries :: h.State()
    }

    ghost function Subnets(): map<SubnetStatistics, Level>
      reads this`subnetEntries, subnetEntries
    {
      map g | g in subnetEntries :: g.State()
    }

    ghost function Now(calls: Calls): Snapshot
      reads this, ipEntries, subnetEntries
    {
      State(Ips(), ipStats, Subnets(), subnetStats, calls, log)
    }

    /** The state is the one the steps so far lead to, with these callers under way. */
    ghost predicate At(calls: Calls)
      reads this, ipEntries, subnetEntries
    {
      ipStats.Values <= ipEntries && subnetStats.Values <= subnetEntries && Now(calls) == Run(config, history)
    }

    ghost predicate Valid()
      reads this, ipEntries, subnetEntries
    {
      At(map[])
    }

    constructor (config: Config)
      ensures Valid() && history == [] && log == [] && this.config == config
      ensures ipEntries == {} && subnetEntries == {}
    {
      this.config := config;
      ipStats, subnetStats, ipEntries, subnetEntries := map[], map[], {}, {};
      history, log := [], [];
    }

    /** Notes the step that has just been done. */
    ghost method Record(step: Step<IpStatistics, SubnetStatistics>, calls: Calls)
      requires ipStats.Values <= ipEntries && subnetStats.Values <= subnetEntries
      requires Now(calls) == Next(config, Run(config, history), step)
      modifies this`history
      ensures At(calls) && history == old(history) + [step]
    {
      RunExtend(config, history, step);
      history := history + [step];
    }

    /** The entry of an address, made on first use. */
    method FindIp(ip: string, now: real) returns (stats: IpStatistics)
      requires ipStats.Values <= ipEntries
      modifies this`ipStats, this`ipEntries
      ensures ipStats.Values <= ipEntries && stats in ipEntries && ipStats == old(ipStats)[ip := stats]
      ensures if ip in old(ipStats) then stats == old(ipStats)[ip] && ipEntries == old(ipEntries) && Ips() == old(Ips())
              else fresh(stats) && ipEntries == old(ipEntries) + {stats}
                   && Ips() == old(Ips())[stats := NewIp(config, now)]
      ensures Subnets() == old(Subnets())
    {
      if ip !in ipStats {
        var created := new IpStatistics(config.burstSize as real, now);
        ipEntries := ipEntries + {created};
        ipStats := ipStats[ip := created];
        assert Ips() == old(Ips())[created := NewIp(config, now)];
      }
      stats := ipStats[ip];
    }

    /** The statistics of an address, as the machine's first step. */
    method GetIPStats(ip: string, now: real, ghost subnet: string) returns (stats: IpStatistics)
      requires Valid()
      modifies this`ipStats, this`ipEntries, this`history
      ensures At(map[0 := Seen(ip, subnet, stats)]) && history == old(history) + [Lookup(0, ip, subnet, stats, now)]
      ensures ip in ipStats && ipStats[ip] == stats && stats in ipEntries
      ensures fresh(ipEntries - old(ipEntries)) && old(ipEntries) <= ipEntries
    {
      stats := FindIp(ip, now);
      Record(Lookup(0, ip, subnet, stats, now), map[0 := Seen(ip, subnet, stats)]);
    }

    /** Locks the entry and refills it, unless a penalty turns the request away. */
    method LockStats(stats: IpStatistics, refused: bool, now: real, ghost ip: string, ghost subnet: string)
      requires At(map[0 := Seen(ip, subnet, stats)]) && stats in ipEntries
      modifies this`history, stats
      ensures At(if refused then map[] else map[0 := Holding(ip, subnet, stats, now)])
      ensures history == old(history) + [Lock(0, refused, now)]
    {
      ghost var before := Now(map[0 := Seen(ip, subnet, stats)]);
      LockIs(config, before, ip, subnet, stats, refused, now);
      if !refused {
        stats.Update(config, now);
        assert Ips() == before.ips[stats := stats.State()];
      }
      Record(Lock(0, refused, now), if refused then map[] else map[0 := Holding(ip, subnet, stats, now)]);
    }

    /** The entry of a subnet, made on first use. */
    method FindSubnet(subnet: string, now: real) returns (bucket: SubnetStatistics)
      requires subnetStats.Values <= subnetEntries
      modifies this`subnetStats, this`subnetEntries
      ensures subnetStats.Values <= subnetEntries && bucket in subnetEntries
              && subnetStats == old(subnetStats)[subnet := bucket]
      ensures if subnet in old(subnetStats)
              then bucket == old(subnetStats)[subnet] && subnetEntries == old(subnetEntries)
                   && Subnets() == old(Subnets())
              else fresh(bucket) && subnetEntries == old(subnetEntries) + {bucket}
                   && Subnets() == old(Subnets())[bucket := Level(config.subnetRequestsPerMinute as real, now)]
      ensures Ips() == old(Ips())
    {
      if subnet !in subnetStats {
        var created := new SubnetStatistics(config.subnetRequestsPerMinute as real, now);
        subnetEntries := subnetEntries + {created};
        subnetStats := subnetStats[subnet := created];
        assert Subnets() == old(Subnets())[created := Level(config.subnetRequestsPerMinute as real, now)];
      }
      bucket := subnetStats[subnet];
    }

    /** The statistics of a subnet, as the machine's step. */
    method GetSubnetStats(subnet: string, now: real, ghost ip: string, ghost stats: IpStatistics, ghost at: real)
      returns (bucket: SubnetStatistics)
      requires At(map[0 := Holding(ip, subnet, stats, at)]) && Limited(config, subnet)
      modifies this`subnetStats, this`subnetEntries, this`history
      ensures At(map[0 := Asking(ip, subnet, stats, at, bucket)]) && history == old(history) + [Ask(0, bucket, now)]
      ensures subnet in subnetStats && subnetStats[subnet] == bucket && bucket in subnetEntries
      ensures fresh(subnetEntries - old(subnetEntries)) && old(subnetEntries) <= subnetEntries
    {
      ghost var before := Now(map[0 := Holding(ip, subnet, stats, at)]);
      bucket := FindSubnet(subnet, now);
      AskIs(config, before, ip, subnet, stats, at, bucket, now);
      Record(Ask(0, bucket, now), map[0 := Asking(ip, subnet, stats, at, bucket)]);
    }

    method TakeSubnet(bucket: SubnetStatistics, now: real) returns (allowed: bool)
      requires bucket in subnetEntries
      modifies bucket
      ensures var b := RefillSubnet(config, old(Subnets())[bucket], now);
              allowed == (b.tokens >= 1.0) && Subnets() == old(Subnets())[bucket := Taken(b)]
      ensures Ips() == old(Ips())
    {
      allowed := bucket.Take(config, now);
      assert Subnets() == old(Subnets())[bucket := bucket.State()];
    }

    method TakeIp(stats: IpStatistics) returns (allowed: bool)
      requires stats in ipEntries
      modifies stats
      ensures var s := old(Ips())[stats];
              && (allowed <==> s.level.tokens >= 1.0)
              && Ips() == if allowed then old(Ips())[stats := s.(level := Taken(s.level),
                                                                 totalRequests := s.totalRequests + 1)] else old(Ips())
      ensures Subnets() == old(Subnets())
    {
      allowed := stats.Take();
      assert Ips() == old(Ips())[stats := stats.State()];
    }

    method TakeBoth(stats: IpStatistics, bucket: SubnetStatistics?, now: real) returns (allowed: bool)
      requires stats in ipEntries && (bucket != null ==> bucket in subnetEntries)
      modifies stats, bucket
      ensures var s := old(Ips())[stats];
              var asked := if bucket == null then Level(1.0, now)
                  else RefillSubnet(config, old(Subnets())[bucket], now);
              && (allowed <==> asked.tokens >= 1.0 && s.level.tokens >= 1.0)
              && Ips() == (if allowed then old(Ips())[stats := s.(level := Taken(s.level),
                                                                  totalRequests := s.totalRequests + 1)]
                           else old(Ips()))
              && Subnets() == if bucket == null then old(Subnets()) else old(Subnets())[bucket := Taken(asked)]
    {
      allowed := true;
      if bucket != null {
        allowed := TakeSubnet(bucket, now);
      }
      if allowed {
        allowed := TakeIp(stats);
      }
    }

    /** Takes a token of the subnet, if it is asked, and then one of the address. */
    method Charge(stats: IpStatistics, bucket: SubnetStatistics?, now: real,
                  ghost call: Call<IpStatistics, SubnetStatistics>)
      returns (allowed: bool)
      requires At(map[0 := call]) && stats in ipEntries && call.entry == stats
      requires if bucket == null then call.Holding? && !Limited(config, call.subnet)
               else call.Asking? && call.bucket == bucket && bucket in subnetEntries
      modifies this`history, this`log, stats, bucket
      ensures Valid() && history == old(history) + [Settle(0, now)]
      ensures Grew(old(log), log, allowed, call.ip, call.subnet)
    {
      allowed := TakeAndLog(stats, bucket, now, call);
      Record(Settle(0, now), map[]);
    }

    method TakeAndLog(stats: IpStatistics, bucket: SubnetStatistics?, now: real,
                      ghost call: Call<IpStatistics, SubnetStatistics>)
      returns (allowed: bool)
      requires stats in ipEntries && call.entry == stats
      requires if bucket == null then call.Holding? && !Limited(config, call.subnet)
               else call.Asking? && call.bucket == bucket && bucket in subnetEntries
      modifies this`log, stats, bucket
      ensures Now(map[]) == Next(config, old(Now(map[0 := call])), Settle(0, now))
      ensures Grew(old(log), log, allowed, call.ip, call.subnet)
    {
      ghost var before := Now(map[0 := call]);
      SettleIs(config, before, call, now);
      allowed := TakeBoth(stats, bucket, now);
      if allowed {
        log := log + [Logged(before, 0, now)];
      }
    }

    /** One request: list checks, the penalties (refused), then both buckets.  It is allowed
        by its buckets exactly when it joins the log that the bounds are about. */
    method Allow(ip: string, subnet: string, listing: Listing, refused: bool, now: real, later: real)
      returns (allowed: bool, ghost steps: seq<Step<IpStatistics, SubnetStatistics>>)
      requires Valid()
      modifies this, ipEntries, subnetEntries
      ensures Valid() && history == old(history) + steps
      ensures listing != Unlisted ==> allowed == (listing == Whitelisted) && steps == [] && log == old(log)
      ensures listing == Unlisted ==> IsRequest(config, steps, ip, subnet, refused, now, later)
      ensures listing == Unlisted ==> Grew(old(log), log, allowed, ip, subnet) && (refused ==> !allowed)
      ensures fresh(ipEntries - old(ipEntries)) && fresh(subnetEntries - old(subnetEntries))
    {
      steps := [];
      if listing != Unlisted {
        return listing == Whitelisted, [];
      }
      allowed, steps := Request(ip, subnet, refused, now, later);
    }

    method Request(ip: string, subnet: string, refused: bool, now: real, later: real)
      returns (allowed: bool, ghost steps: seq<Step<IpStatistics, SubnetStatistics>>)
      requires Valid()
      modifies this, ipEntries, subnetEntries
      ensures Valid() && history == old(history) + steps && IsRequest(config, steps, ip, subnet, refused, now, later)
      ensures Grew(old(log), log, allowed, ip, subnet) && (refused ==> !allowed)
      ensures fresh(ipEntries - old(ipEntries)) && fresh(subnetEntries - old(subnetEntries))
    {
      ghost var before := history;
      var stats := GetIPStats(ip, now, subnet);
      LockStats(stats, refused, now, ip, subnet);
      ghost var rest := [];
      allowed := false;
      if !refused {
        allowed, rest := Spend(stats, now, later, ip, subnet);
      }
      steps := RequestSteps(config, before, ip, subnet, stats, refused, now, later, rest);
    }

    /** From the refilled address on. */
    method Spend(stats: IpStatistics, now: real, later: real, ip: string, subnet: string)
      returns (allowed: bool, ghost steps: seq<Step<IpStatistics, SubnetStatistics>>)
      requires At(map[0 := Holding(ip, subnet, stats, now)]) && stats in ipEntries
      modifies this`subnetStats, this`subnetEntries, this`history, this`log, stats, subnetEntries
      ensures Valid() && history == old(history) + steps && Grew(old(log), log, allowed, ip, subnet)
      ensures IsRest(config, steps, subnet, later)
      ensures fresh(subnetEntries - old(subnetEntries))
    {
      if config.enableSubnetLimiting && subnet != "" {
        var bucket := GetSubnetStats(subnet, later, ip, stats, now);
        allowed := Charge(stats, bucket, later, Asking(ip, subnet, stats, now, bucket));
        steps := [Ask(0, bucket, later)] + [Settle(0, later)];
        Chain(old(history), [Ask(0, bucket, later)], [Settle(0, later)]);
      } else {
        allowed := Charge(stats, null, later, Holding(ip, subnet, stats, now));
        steps := [Settle(0, later)];
      }
    }

    /** Counts a failed request; the penalties it may start are not part of the model. */
    method RecordFailure(ip: string, statusCode: int, now: real)
      requires Valid()
      modifies this, ipEntries
      ensures Valid() && log == old(log) && subnetStats == old(subnetStats)
      ensures if statusCode < 400 then history == old(history)
              else ip in ipStats && history == old(history) + [Lookup(0, ip, "", ipStats[ip], now)] + [Fail(0, now)]
      ensures fresh(ipEntries - old(ipEntries))
    {
      if statusCode < 400 {
        return;
      }
      var stats := GetIPStats(ip, now, "");
      CountFailure(stats, now, ip);
    }

    method CountFailure(stats: IpStatistics, now: real, ghost ip: string)
      requires At(map[0 := Seen(ip, "", stats)]) && stats in ipEntries
      modifies this`history, stats
      ensures Valid() && history == old(history) + [Fail(0, now)]
    {
      ghost var before := Now(map[0 := Seen(ip, "", stats)]);
      FailIs(config, before, ip, stats, now);
      stats.AddFailure();
      assert Ips() == before.ips[stats := stats.State()];
      Record(Fail(0, now), map[]);
    }

    /** One tick of the cleanup loop; temporarily blacklisted addresses are spared. */
    method CleanupTick(spared: set<string>, now: real)
      requires Valid()
      modifies this`ipStats, this`subnetStats, this`history
      ensures Valid() && history == old(history) + [CleanIps(spared, now)] + [CleanSubnets({}, now)]
    {
      CleanupIps(spared, now);
      CleanupSubnets(now);
    }

    method CleanupIps(spared: set<string>, now: real)
      requires Valid()
      modifies this`ipStats, this`history
      ensures Valid() && history == old(history) + [CleanIps(spared, now)]
    {
      CleanIpsIs(config, Now(map[]), spared, now);
      DropIdleIps(spared, now);
      Record(CleanIps(spared, now), map[]);
    }

    method CleanupSubnets(now: real)
      requires Valid()
      modifies this`subnetStats, this`history
      ensures Valid() && history == old(history) + [CleanSubnets({}, now)]
    {
      CleanSubnetsIs(config, Now(map[]), now);
      DropIdleSubnets(now);
      Record(CleanSubnets({}, now), map[]);
    }

    /** The first loop of cleanup. */
    method DropIdleIps(spared: set<string>, now: real)
      modifies this`ipStats
      ensures ipStats == map ip | ip in old(ipStats)
              && (now - old(ipStats)[ip].lastUpdate <= IDLE || ip in spared) :: old(ipStats)[ip]
    {
      var todo := ipStats.Keys;
      while todo != {}
        invariant todo <= ipStats.Keys
        invariant ipStats == map ip | ip in old(ipStats) &&
                    (ip in todo || now - old(ipStats)[ip].lastUpdate <= IDLE || ip in spared) :: old(ipStats)[ip]
      {
        var ip :| ip in todo;
        if now - ipStats[ip].lastUpdate > IDLE && ip !in spared {
          ipStats := ipStats - {ip};
        }
        todo := todo - {ip};
      }
    }

    /** The second loop of cleanup. */
    method DropIdleSubnets(now: real)
      modifies this`subnetStats
      ensures subnetStats == map n | n in old(subnetStats)
              && now - old(subnetStats)[n].lastUpdate <= IDLE :: old(subnetStats)[n]
    {
      var todo := subnetStats.Keys;
      while todo != {}
        invariant todo <= subnetStats.Keys
        invariant subnetStats == map n | n in old(subnetStats) &&
                    (n in todo || now - old(subnetStats)[n].lastUpdate <= IDLE) :: old(subnetStats)[n]
      {
        var n :| n in todo;
        if now - subnetStats[n].lastUpdate > IDLE {
          subnetStats := subnetStats - {n};
        }
        todo := todo - {n};
      }
    }
  }

  lemma RefillIpIs(cfg: Config, s: IpState, limit: int, gain: real, now: real)
    requires limit == CurrentLimit(cfg, s) && gain == (now - s.level.lastUpdate) * (limit as real / 60.0)
    ensures RefillIp(cfg, s, now) == s.(level := Level(Capped(s.level.tokens + gain, cfg.burstSize as real), now))
  {
    RefillIs(s.level, limit as real / 60.0, cfg.burstSize as real, now, gain);
  }

  lemma FailIs(cfg: Config, st: Snapshot, ip: string, h: IpStatistics, now: real)
    requires st.calls == map[0 := Seen(ip, "", h)] && h in st.ips
    ensures Next(cfg, st, Fail(0, now))
            == st.(ips := st.ips[h := st.ips[h].(failedRequests := st.ips[h].failedRequests + 1)], calls := map[])
  {
    assert st.calls - {0} == map[];
    assert !Locked(st, h);
  }

  lemma CleanIpsIs(cfg: Config, st: Snapshot, spared: set<string>, now: real)
    requires st.calls == map[] && st.ipOf.Values <= st.ips.Keys
    ensures Next(cfg, st, CleanIps(spared, now))
            == st.(ipOf := map ip | ip in st.ipOf
                   && (now - st.ips[st.ipOf[ip]].level.lastUpdate <= IDLE || ip in spared) :: st.ipOf[ip])
  {
  }

  lemma CleanSubnetsIs(cfg: Config, st: Snapshot, now: real)
    requires st.calls == map[] && st.subnetOf.Values <= st.subnets.Keys
    ensures Next(cfg, st, CleanSubnets({}, now))
            == st.(subnetOf := map n | n in st.subnetOf
                   && now - st.subnets[st.subnetOf[n]].lastUpdate <= IDLE :: st.subnetOf[n])
  {
  }

  /** Nobody else holds the entry of the only caller. */
  lemma LockIs(cfg: Config, st: Snapshot, ip: string, subnet: string, h: IpStatistics, refused: bool, now: real)
    requires st.calls == map[0 := Seen(ip, subnet, h)] && h in st.ips
    ensures Next(cfg, st, Lock(0, refused, now))
            == if refused then st.(calls := map[])
               else st.(ips := st.ips[h := RefillIp(cfg, st.ips[h], now)],
                        calls := map[0 := Holding(ip, subnet, h, now)])
  {
    assert st.calls - {0} == map[];
    assert !Locked(st, h);
  }

  /** Asking for the only caller: the entry in the map, or a new full one. */
  lemma AskIs(cfg: Config, st: Snapshot, ip: string, subnet: string, h: IpStatistics, at: real, g: SubnetStatistics,
              now: real)
    requires st.calls == map[0 := Holding(ip, subnet, h, at)] && Limited(cfg, subnet)
    requires if subnet in st.subnetOf then g == st.subnetOf[subnet] else g !in st.subnets
    ensures Next(cfg, st, Ask(0, g, now))
            == st.(subnets := if subnet in st.subnetOf then st.subnets
                   else st.subnets[g := Level(cfg.subnetRequestsPerMinute as real, now)],
                   subnetOf := st.subnetOf[subnet := g], calls := map[0 := Asking(ip, subnet, h, at, g)])
  {
  }

  /** The steps of one request: fewer if it is refused, one more if its subnet is asked. */
  ghost predicate IsRequest(cfg: Config, steps: seq<Step<IpStatistics, SubnetStatistics>>, ip: string, subnet: string,
                            refused: bool, now: real, later: real)
  {
    && |steps| == (if refused then 2 else if Limited(cfg, subnet) then 4 else 3)
    && steps[0].Lookup? && steps[0] == Lookup(0, ip, subnet, steps[0].entry, now) && steps[1] == Lock(0, refused, now)
    && (!refused ==> steps[|steps| - 1] == Settle(0, later))
    && (!refused && Limited(cfg, subnet) ==> steps[2].Ask? && steps[2] == Ask(0, steps[2].bucket, later))
  }

  /** The part of them from the refilled address on. */
  ghost predicate IsRest(cfg: Config, steps: seq<Step<IpStatistics, SubnetStatistics>>, subnet: string, later: real) {
    if Limited(cfg, subnet) then |steps| == 2 && steps[0].Ask? && steps[0] == Ask(0, steps[0].bucket, later)
       && steps[1] == Settle(0, later)
    else steps == [Settle(0, later)]
  }

  lemma RequestSteps(cfg: Config, before: seq<Step<IpStatistics, SubnetStatistics>>, ip: string, subnet: string,
                     h: IpStatistics,
                     refused: bool, now: real, later: real, rest: seq<Step<IpStatistics, SubnetStatistics>>)
    returns (steps: seq<Step<IpStatistics, SubnetStatistics>>)
    requires if refused then rest == [] else IsRest(cfg, rest, subnet, later)
    ensures IsRequest(cfg, steps, ip, subnet, refused, now, later)
    ensures before + steps == before + [Lookup(0, ip, subnet, h, now)] + [Lock(0, refused, now)] + rest
  {
    steps := [Lookup(0, ip, subnet, h, now)] + [Lock(0, refused, now)] + rest;
  }

  lemma Chain<T>(a: seq<T>, b: seq<T>, c: seq<T>)
    ensures a + b + c == a + (b + c)
  {
  }

  /** The log has one entry more, of this address and subnet, exactly if the request was allowed. */
  ghost predicate Grew(before: seq<Entry>, after: seq<Entry>, allowed: bool, ip: string, subnet: string) {
    if allowed then |after| == |before| + 1 && before <= after && after[|before|].ip == ip
       && after[|before|].subnet == subnet
    else after == before
  }

  /** Settling the only call. */
  lemma SettleIs(cfg: Config, st: Snapshot, call: Call<IpStatistics, SubnetStatistics>, now: real)
    requires st.calls == map[0 := call] && call.entry in st.ips
    requires (call.Holding? && !Limited(cfg, call.subnet)) || (call.Asking? && call.bucket in st.subnets)
    ensures var s := st.ips[call.entry];
            var asked := if call.Asking? then RefillSubnet(cfg, st.subnets[call.bucket], now) else Level(1.0, now);
            var subnets := if call.Asking? then st.subnets[call.bucket := Taken(asked)] else st.subnets;
            Next(cfg, st, Settle(0, now))
            == if asked.tokens >= 1.0 && s.level.tokens >= 1.0
               then State(st.ips[call.entry := s.(level := Taken(s.level), totalRequests := s.totalRequests + 1)],
                          st.ipOf,
                          subnets, st.subnetOf, map[], st.log + [Logged(st, 0, now)])
               else State(st.ips, st.ipOf, subnets, st.subnetOf, map[], st.log)
  {
    assert st.calls - {0} == map[];
  }
}
