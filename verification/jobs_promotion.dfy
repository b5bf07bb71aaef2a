/** The scheduled-job pass of the manager: it renames jobs from scheduled to pending, and
    no Pop or Peek can tell, unless the write comes after the job has changed. */
module Promotion {
  import opened Basics
  import opened Jobs
  import opened MemoryQueues

  /** One pass over one queue; the clock is read anew for each scheduled job. */
  method ProcessScheduledJobs(queue: MemoryQueue, readings: seq<int>)
    requires queue.Valid() && |readings| >= |queue.jobs|
    modifies set job | job in queue.jobs :: job`status
    ensures queue.Valid()
    ensures forall job, now | job in queue.jobs :: job.IsReady(now) <==> old(job.IsReady(now))
    ensures forall job | job in queue.jobs ::
              job.status == old(job.status)
              || (job.status == Pending && old(job.status) == Scheduled && job.scheduledAt.Some?)
    ensures forall job | job in queue.jobs && old(job.status) == Scheduled && job.status == Scheduled ::
              exists k | 0 <= k < |readings| :: !job.IsReady(readings[k])
  {
    var scheduled := queue.GetJobsByStatus(Scheduled);
    MatchingIs(queue.jobs, Scheduled);
    for i := 0 to |scheduled|
      invariant forall job, now | job in queue.jobs :: job.IsReady(now) <==> old(job.IsReady(now))
      invariant forall job | job in queue.jobs ::
                  job.status == old(job.status)
                  || (job.status == Pending && old(job.status) == Scheduled && job.scheduledAt.Some?)
      invariant forall k | 0 <= k < i :: scheduled[k].status == Pending || !scheduled[k].IsReady(readings[k])
    {
      var job := scheduled[i];
      if job.IsReady(readings[i]) {
        job.status := Pending;
      }
    }
    forall job | job in queue.jobs && old(job.status) == Scheduled && job.status == Scheduled
      ensures exists k | 0 <= k < |readings| :: !job.IsReady(readings[k])
    {
      assert job in scheduled;
      var k :| 0 <= k < |scheduled| && scheduled[k] == job;
    }
  }

  // ---------- Whole runs ----------

  /** A queued job as it is when looked at; job tells which object it is. */
  datatype Entry = Entry(job: nat, id: string, key: Key, status: Status, scheduledAt: Option<int>)

  /** The clock reading made for the job at an index. */
  type Readings = nat -> int

  datatype Event =
    | Push(entry: Entry)
    | Pop(now: Readings)
    | Peek(now: Readings)
    | Remove(id: string)
    | Clear
    | Rename(job: nat)

  /** Any sorting algorithm that looks at nothing but the keys: the new place of each. */
  type Sorter = seq<Key> -> seq<nat>

  ghost predicate Permutes(sorter: Sorter) {
    forall keys :: |sorter(keys)| == |keys| && forall i | 0 <= i < |keys| :: sorter(keys)[i] < |keys|
  }

  function EntryKeys(q: seq<Entry>): seq<Key> {
    seq(|q|, i requires 0 <= i < |q| => q[i].key)
  }

  ghost function Arrange(q: seq<Entry>, sorter: Sorter): seq<Entry>
    requires Permutes(sorter)
  {
    var order := sorter(EntryKeys(q));
    seq(|q|, i requires 0 <= i < |q| => q[order[i]])
  }

  predicate EntryReady(e: Entry, now: int) {
    Ready(e.status, e.scheduledAt, now)
  }

  /** The index at which a scan from i stops. */
  function Found(q: seq<Entry>, now: Readings, i: nat): (r: nat)
    requires i <= |q|
    ensures i <= r <= |q|
    decreases |q| - i
  {
    if i == |q| || EntryReady(q[i], now(i)) then i else Found(q, now, i + 1)
  }

  function WithId(q: seq<Entry>, id: string, i: nat): (r: nat)
    requires i <= |q|
    ensures i <= r <= |q|
    decreases |q| - i
  {
    if i == |q| || q[i].id == id then i else WithId(q, id, i + 1)
  }

  /** The pass's write, which takes no lock and does not look again. */
  function Renamed(e: Entry, job: nat): Entry {
    if e.job == job then e.(status := Pending) else e
  }

  /** Still as the pass found it: pending, or scheduled for a time. */
  predicate Steady(e: Entry) {
    e.status == Pending || (e.status == Scheduled && e.scheduledAt.Some?)
  }

  /** The write leaves a job's readiness at all times as it was exactly when it is steady. */
  lemma RenameUnseenIff(e: Entry)
    ensures (forall now :: EntryReady(Renamed(e, e.job), now) == EntryReady(e, now)) <==> Steady(e)
  {
    var after := if e.scheduledAt.Some? then e.scheduledAt.value + 1 else 0;
    assert EntryReady(Renamed(e, e.job), after);
  }

  function Cut(q: seq<Entry>, i: nat): seq<Entry>
    requires i <= |q|
  {
    if i < |q| then Without(q, i) else q
  }

  ghost function After(q: seq<Entry>, sorter: Sorter, event: Event): seq<Entry>
    requires Permutes(sorter)
  {
    match event
    case Push(e) => Arrange(q + [e], sorter)
    case Pop(now) => Cut(q, Found(q, now, 0))
    case Peek(_) => q
    case Remove(id) => Cut(q, WithId(q, id, 0))
    case Clear => []
    case Rename(job) => seq(|q|, i requires 0 <= i < |q| => Renamed(q[i], job))
  }

  /** What a caller learns: the id popped, seen or removed, or that there is none. */
  ghost function Outcome(q: seq<Entry>, event: Event): Option<string> {
    match event
    case Pop(now) => var i := Found(q, now, 0); if i < |q| then Some(q[i].id) else None
    case Peek(now) => var i := Found(q, now, 0); if i < |q| then Some(q[i].id) else None
    case Remove(id) => var i := WithId(q, id, 0); if i < |q| then Some(q[i].id) else None
    case _ => None
  }

  /** The outcomes of a run, renamings left out as they have none. */
  ghost function Outcomes(q: seq<Entry>, sorter: Sorter, events: seq<Event>): seq<Option<string>>
    requires Permutes(sorter)
    decreases |events|
  {
    if events == [] then []
    else
      var rest := Outcomes(After(q, sorter, events[0]), sorter, events[1..]);
      if events[0].Rename? then rest else [Outcome(q, events[0])] + rest
  }

  function Unpromoted(events: seq<Event>): seq<Event> {
    if events == [] then []
    else (if events[0].Rename? then [] else [events[0]]) + Unpromoted(events[1..])
  }

  /** Every write finds its job steady, if the job is in the queue at all. */
  ghost predicate Timely(q: seq<Entry>, sorter: Sorter, events: seq<Event>)
    requires Permutes(sorter)
    decreases |events|
  {
    events == []
    || ((events[0].Rename? ==> forall i | 0 <= i < |q| && q[i].job == events[0].job :: Steady(q[i]))
        && Timely(After(q, sorter, events[0]), sorter, events[1..]))
  }

  /** Equal but for pending against scheduled where a time is set. */
  predicate AlikeEntries(a: Entry, b: Entry) {
    a == b || (a.scheduledAt.Some? && a.status in {Pending, Scheduled} && b.status in {Pending, Scheduled}
               && a == b.(status := a.status))
  }

  predicate Alike(p: seq<Entry>, q: seq<Entry>) {
    |p| == |q| && forall i | 0 <= i < |p| :: AlikeEntries(p[i], q[i])
  }

  lemma {:induction false} AlikeFound(p: seq<Entry>, q: seq<Entry>, now: Readings, i: nat)
    requires Alike(p, q) && i <= |p|
    ensures Found(p, now, i) == Found(q, now, i)
    decreases |p| - i
  {
    if i < |p| {
      assert AlikeEntries(p[i], q[i]);
      AlikeFound(p, q, now, i + 1);
    }
  }

  lemma {:induction false} AlikeWithId(p: seq<Entry>, q: seq<Entry>, id: string, i: nat)
    requires Alike(p, q) && i <= |p|
    ensures WithId(p, id, i) == WithId(q, id, i)
    decreases |p| - i
  {
    if i < |p| {
      assert AlikeEntries(p[i], q[i]);
      AlikeWithId(p, q, id, i + 1);
    }
  }

  lemma AlikeArrange(p: seq<Entry>, q: seq<Entry>, sorter: Sorter)
    requires Permutes(sorter) && Alike(p, q)
    ensures Alike(Arrange(p, sorter), Arrange(q, sorter))
  {
    assert EntryKeys(p) == EntryKeys(q) by {
      assert forall i | 0 <= i < |p| :: AlikeEntries(p[i], q[i]);
    }
    var order := sorter(EntryKeys(p));
    forall i | 0 <= i < |p| ensures AlikeEntries(Arrange(p, sorter)[i], Arrange(q, sorter)[i]) {
      assert AlikeEntries(p[order[i]], q[order[i]]);
    }
  }

  lemma AlikeCut(p: seq<Entry>, q: seq<Entry>, i: nat)
    requires Alike(p, q) && i <= |p|
    ensures Alike(Cut(p, i), Cut(q, i))
  {
    forall k | 0 <= k < |Cut(p, i)| ensures AlikeEntries(Cut(p, i)[k], Cut(q, i)[k]) {
      var from := if k < i || i == |p| then k else k + 1;
      assert AlikeEntries(p[from], q[from]);
    }
  }

  lemma AlikeStep(p: seq<Entry>, q: seq<Entry>, sorter: Sorter, event: Event)
    requires Permutes(sorter) && Alike(p, q) && !event.Rename?
    ensures Alike(After(p, sorter, event), After(q, sorter, event))
    ensures Outcome(p, event) == Outcome(q, event)
  {
    match event
    case Push(e) =>
      assert Alike(p + [e], q + [e]);
      AlikeArrange(p + [e], q + [e], sorter);
    case Pop(now) =>
      AlikeFound(p, q, now, 0);
      AlikeCut(p, q, Found(p, now, 0));
    case Peek(now) => AlikeFound(p, q, now, 0);
    case Remove(id) =>
      AlikeWithId(p, q, id, 0);
      AlikeCut(p, q, WithId(p, id, 0));
    case Clear =>
  }

  /** A timely write changes nothing that the likeness looks at. */
  lemma AlikeRenamed(p: seq<Entry>, q: seq<Entry>, sorter: Sorter, job: nat)
    requires Permutes(sorter) && Alike(p, q)
    requires forall i | 0 <= i < |p| && p[i].job == job :: Steady(p[i])
    ensures Alike(After(p, sorter, Rename(job)), q)
  {
    var t := After(p, sorter, Rename(job));
    forall i | 0 <= i < |p| ensures AlikeEntries(t[i], q[i]) {
      assert AlikeEntries(p[i], q[i]);
      assert t[i] == Renamed(p[i], job);
    }
  }

  lemma {:induction false} AlikeOutcomes(p: seq<Entry>, q: seq<Entry>, sorter: Sorter, events: seq<Event>)
    requires Permutes(sorter) && Alike(p, q) && Timely(p, sorter, events)
    ensures Outcomes(p, sorter, events) == Outcomes(q, sorter, Unpromoted(events))
    decreases |events|
  {
    if events != [] {
      var event := events[0];
      if event.Rename? {
        AlikeRenamed(p, q, sorter, event.job);
        AlikeOutcomes(After(p, sorter, event), q, sorter, events[1..]);
        assert Unpromoted(events) == Unpromoted(events[1..]);
      } else {
        AlikeStep(p, q, sorter, event);
        AlikeOutcomes(After(p, sorter, event), After(q, sorter, event), sorter, events[1..]);
        var shorter := Unpromoted(events);
        assert shorter[0] == event && shorter[1..] == Unpromoted(events[1..]);
      }
    }
  }

  /** Timely writes of the scheduler put in anywhere leave every outcome of a run as it was. */
  lemma PromotionIsInvisible(q: seq<Entry>, sorter: Sorter, events: seq<Event>)
    requires Permutes(sorter) && Timely(q, sorter, events)
    ensures Outcomes(q, sorter, events) == Outcomes(q, sorter, Unpromoted(events))
  {
    AlikeOutcomes(q, q, sorter, events);
  }

  /** A write that finds its job changed shows: whatever is wrong with the only job of a
      queue, some next Pop takes it that would have left it. */
  lemma LateWriteShows(e: Entry, sorter: Sorter)
    requires Permutes(sorter) && !Steady(e)
    ensures exists now: Readings ::
              Outcomes([e], sorter, [Rename(e.job), Pop(now)]) != Outcomes([e], sorter,
                  Unpromoted([Rename(e.job), Pop(now)]))
  {
    var after := if e.scheduledAt.Some? then e.scheduledAt.value + 1 else 0;
    var now: Readings := i => after;
    var events := [Rename(e.job), Pop(now)];
    assert events[1..] == [Pop(now)] && [Pop(now)][1..] == [];
    var t := After([e], sorter, Rename(e.job));
    assert t == [Renamed(e, e.job)];
    assert Found(t, now, 0) == 0 && Found([e], now, 0) == 1;
    assert Outcome(t, Pop(now)) == Some(e.id) && Outcome([e], Pop(now)) == None;
    assert Outcomes(t, sorter, [Pop(now)]) == [Some(e.id)];
    assert Unpromoted([Pop(now)]) == [Pop(now)] + Unpromoted([]);
    assert Unpromoted(events) == [Pop(now)];
    assert Outcomes([e], sorter, [Pop(now)]) == [None];
    assert Outcomes([e], sorter, events) != Outcomes([e], sorter, Unpromoted(events));
  }
}
