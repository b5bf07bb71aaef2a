/** Who has each job, and what the processor's counters say, while any number of workers
    run: the steps are those of Enqueue, Pop, ProcessJob and its helpers between two
    points where another goroutine may come in. */
module JobCustody {
  import opened Basics
  import opened Jobs
  import Retries

  datatype Config = Config(maxAttempts: int, deadLetter: Option<string>)

  datatype Record = Record(status: Status, attempts: int, maxAttempts: int, scheduledAt: Option<int>)

  /** How far a worker is with the job it has popped. */
  datatype Work =
    | Holding(id: string)
    | Executing(id: string)
    | Succeeding(id: string)
    | Failing(id: string)
    | Missing(id: string)
    | Deciding(id: string)
    | Retrying(id: string)
    | Parking(id: string)
    | Burying(id: string)

  /** How a job leaves the queues and the workers.  Parked: marked for a retry and put in
      no queue.  Lost: failed for good with no dead-letter queue set. */
  datatype End = Done | Parked | NoHandler | Lost | Removed

  datatype Place = InQueue(queue: string) | HeldBy(worker: nat) | Left(end: End)

  datatype Metrics = Metrics(processed: nat, completed: nat, failed: nat, retried: nat)

  /** ledger: the one place of each job.  popped, dead: the jobs that were ever popped, and
      ever pushed to the dead-letter queue.  checked: the scheduled-job passes that have
      found a job ready and not yet renamed it.  failed: the jobs that have failed for good
      since they were last popped.  revived: those of them renamed since then.  unhandled,
      finals, pushes: jobs without handler, final failures, and dead-letter pushes so far. */
  datatype State = State(
    records: map<string, Record>,
    queues: map<string, multiset<string>>,
    work: map<nat, Work>,
    ledger: map<string, Place>,
    popped: set<string>,
    dead: set<string>,
    checked: map<nat, string>,
    failed: set<string>,
    revived: set<string>,
    metrics: Metrics,
    unhandled: nat,
    finals: nat,
    pushes: nat)

  datatype Step =
    | Enqueue(id: string, queue: string, record: Record)
    | Pop(worker: nat, queue: string, id: string, now: int)
    | Begin(worker: nat)
    | Succeed(worker: nat)
    | Fail(worker: nat)
    | MissHandler(worker: nat)
    | Report(worker: nat)
    | CountCompleted(worker: nat)
    | CountFailed(worker: nat)
    | Decide(worker: nat)
    | CountRetried(worker: nat)
    | Park(worker: nat, at: int)
    | Bury(worker: nat)
    | Check(pass: nat, id: string, now: int)
    | Rename(pass: nat)
    | Remove(queue: string, id: string)
    | Clear(queue: string)

  const START: State := State(map[], map[], map[], map[], {}, {}, map[], {}, {}, Metrics(0, 0, 0, 0), 0, 0, 0)

  function Queued(s: State, queue: string): multiset<string> {
    Contents(s.queues, queue)
  }

  function Contents(queues: map<string, multiset<string>>, queue: string): multiset<string> {
    if queue in queues then queues[queue] else multiset{}
  }

  predicate Phase(s: State, w: nat, p: Work -> bool) {
    w in s.work && p(s.work[w]) && s.work[w].id in s.records
  }

  predicate Enabled(s: State, step: Step) {
    match step
    case Enqueue(id, _, _) => id !in s.records
    case Pop(w, queue, id, now) =>
      && w !in s.work && id in Queued(s, queue) && id in s.records
      && Ready(s.records[id].status, s.records[id].scheduledAt, now)
    case Begin(w) => Phase(s, w, (x: Work) => x.Holding?)
    case Succeed(w) => Phase(s, w, (x: Work) => x.Executing?)
    case Fail(w) => Phase(s, w, (x: Work) => x.Executing?)
    case MissHandler(w) => Phase(s, w, (x: Work) => x.Executing?)
    case Report(w) => Phase(s, w, (x: Work) => x.Missing?)
    case CountCompleted(w) => Phase(s, w, (x: Work) => x.Succeeding?)
    case CountFailed(w) => Phase(s, w, (x: Work) => x.Failing?)
    case Decide(w) => Phase(s, w, (x: Work) => x.Deciding?)
    case CountRetried(w) => Phase(s, w, (x: Work) => x.Retrying?)
    case Park(w, _) => Phase(s, w, (x: Work) => x.Parking?)
    case Bury(w) => Phase(s, w, (x: Work) => x.Burying?)
    case Check(p, id, now) => p !in s.checked && id in s.records
         && Ready(s.records[id].status, s.records[id].scheduledAt, now)
    case Rename(p) => p in s.checked && s.checked[p] in s.records
    case Remove(queue, id) => id in Queued(s, queue)
    case Clear(_) => true
  }

  // ---------- Steps ----------

  /** The worker goes on with its job, whose record may change. */
  function Advance(s: State, w: nat, work: Work, status: Status): State
    requires w in s.work && s.work[w].id in s.records
  {
    var id := s.work[w].id;
    s.(work := s.work[w := work], records := s.records[id := s.records[id].(status := status)])
  }

  /** The worker is done with its job, which leaves. */
  function Release(s: State, w: nat, end: End): State
    requires w in s.work
  {
    s.(work := s.work - {w}, ledger := s.ledger[s.work[w].id := Left(end)])
  }

  function StatusOf(s: State, w: nat): Status
    requires w in s.work && s.work[w].id in s.records
  {
    s.records[s.work[w].id].status
  }

  function DoPop(s: State, w: nat, queue: string, id: string): State {
    s.(queues := s.queues[queue := Queued(s, queue) - multiset{id}], work := s.work[w := Holding(id)],
       ledger := s.ledger[id := HeldBy(w)], popped := s.popped + {id}, failed := s.failed - {id},
         revived := s.revived - {id})
  }

  function DoDecide(s: State, cfg: Config, w: nat): State
    requires w in s.work && s.work[w].id in s.records
  {
    var id := s.work[w].id;
    var r := s.records[id];
    if r.attempts < MaxAttempts(r.maxAttempts, cfg.maxAttempts) then
      s.(work := s.work[w := Work.Retrying(id)],
         records := s.records[id := r.(status := Status.Retrying, attempts := r.attempts + 1)])
    else Advance(s, w, Burying(id), Failed).(finals := s.finals + 1, failed := s.failed + {id},
                                             revived := s.revived - {id})
  }

  function DoPark(s: State, w: nat, at: int): State
    requires w in s.work && s.work[w].id in s.records
  {
    var id := s.work[w].id;
    Release(s, w, Parked).(records := s.records[id := s.records[id].(status := Scheduled, scheduledAt := Some(at))])
  }

  function DoBury(s: State, cfg: Config, w: nat): State
    requires w in s.work
  {
    var id := s.work[w].id;
    match cfg.deadLetter
    case None => Release(s, w, Lost)
    case Some(queue) =>
      s.(work := s.work - {w}, ledger := s.ledger[id := InQueue(queue)], dead := s.dead + {id},
         queues := s.queues[queue := Queued(s, queue) + multiset{id}], pushes := s.pushes + 1)
  }

  /** The write that makes a job pending, whatever has become of it since it was found ready. */
  function DoRename(s: State, p: nat): State
    requires p in s.checked && s.checked[p] in s.records
  {
    var id := s.checked[p];
    s.(records := s.records[id := s.records[id].(status := Pending)], checked := s.checked - {p},
       revived := if id in s.failed then s.revived + {id} else s.revived)
  }

  /** A job without handler has been marked failed; if it no longer is, it counts as a failure. */
  function DoReport(s: State, w: nat): State
    requires w in s.work && s.work[w].id in s.records
  {
    if StatusOf(s, w) == Failed then Release(s, w, NoHandler).(unhandled := s.unhandled + 1)
    else Advance(s, w, Failing(s.work[w].id), StatusOf(s, w))
  }

  function DoClear(s: State, queue: string): State {
    s.(queues := s.queues[queue := multiset{}],
       ledger := map id | id in s.ledger :: if s.ledger[id] == InQueue(queue) then Left(Removed) else s.ledger[id])
  }

  function Next(s: State, cfg: Config, step: Step): State
    requires Enabled(s, step)
  {
    match step
    case Enqueue(id, queue, record) =>
      s.(records := s.records[id := record], queues := s.queues[queue := Queued(s, queue) + multiset{id}],
         ledger := s.ledger[id := InQueue(queue)])
    case Pop(w, queue, id, _) => DoPop(s, w, queue, id)
    case Begin(w) =>
      Advance(s, w, Executing(s.work[w].id), Running).(metrics := s.metrics.(processed := s.metrics.processed + 1))
    case Succeed(w) => Advance(s, w, Succeeding(s.work[w].id), Completed)
    case Fail(w) => Advance(s, w, Failing(s.work[w].id), StatusOf(s, w))
    case MissHandler(w) => Advance(s, w, Missing(s.work[w].id), Failed)
    case Report(w) => DoReport(s, w)
    case CountCompleted(w) => Release(s, w, Done).(metrics := s.metrics.(completed := s.metrics.completed + 1))
    case CountFailed(w) =>
      Advance(s, w, Deciding(s.work[w].id), StatusOf(s, w)).(metrics := s.metrics.(failed := s.metrics.failed + 1))
    case Decide(w) => DoDecide(s, cfg, w)
    case CountRetried(w) =>
      Advance(s, w, Parking(s.work[w].id), StatusOf(s, w)).(metrics := s.metrics.(retried := s.metrics.retried + 1))
    case Park(w, at) => DoPark(s, w, at)
    case Bury(w) => DoBury(s, cfg, w)
    case Check(p, id, _) => s.(checked := s.checked[p := id])
    case Rename(p) => DoRename(s, p)
    case Remove(queue, id) =>
      s.(queues := s.queues[queue := Queued(s, queue) - multiset{id}], ledger := s.ledger[id := Left(Removed)])
    case Clear(queue) => DoClear(s, queue)
  }

  ghost predicate Leads(s: State, cfg: Config, steps: seq<Step>, t: State)
    decreases |steps|
  {
    if steps == [] then s == t
    else Enabled(s, steps[0]) && Leads(Next(s, cfg, steps[0]), cfg, steps[1..], t)
  }

  // ---------- Every job is in one place ----------

  function Times(queues: map<string, multiset<string>>, queue: string, id: string): nat {
    Contents(queues, queue)[id]
  }

  function Expected(ledger: map<string, Place>, queue: string, id: string): nat {
    if id in ledger && ledger[id] == InQueue(queue) then 1 else 0
  }

  /** The queues hold what the ledger says, each job once. */
  ghost predicate QueuesAgree(queues: map<string, multiset<string>>, ledger: map<string, Place>) {
    forall queue, id :: Times(queues, queue, id) == Expected(ledger, queue, id)
  }

  /** So do the workers. */
  ghost predicate WorkersAgree(work: map<nat, Work>, ledger: map<string, Place>) {
    && (forall w | w in work :: work[w].id in ledger && ledger[work[w].id] == HeldBy(w))
    && (forall id | id in ledger && ledger[id].HeldBy? ::
          ledger[id].worker in work && work[ledger[id].worker].id == id)
  }

  /** A dead-lettered job in a queue has failed since its last Pop, and is marked failed
      unless it was renamed since. */
  ghost predicate DeadAreBuried(dead: set<string>, failed: set<string>, revived: set<string>,
                                records: map<string, Record>,
                                ledger: map<string, Place>) {
    forall id | id in dead ::
      && id in records && id in ledger
      && (ledger[id].InQueue? ==> id in failed && records[id].status == if id in revived then Pending else Failed)
  }

  /** A popped job is with a worker, has left, or lies in the dead-letter queue. */
  ghost predicate PoppedOnce(popped: set<string>, dead: set<string>, ledger: map<string, Place>) {
    forall id | id in popped :: id in ledger && (ledger[id].InQueue? ==> id in dead)
  }

  /** A worker's job has been popped, and is failed when about to be dead-lettered, unless
      it was renamed since. */
  ghost predicate Working(s: State) {
    forall w | w in s.work ::
      && s.work[w].id in s.popped && s.work[w].id in s.records
      && (s.work[w].Burying? ==>
            s.work[w].id in s.failed
              && s.records[s.work[w].id].status == if s.work[w].id in s.revived then Pending else Failed)
  }

  ghost predicate Custody(s: State) {
    && s.ledger.Keys == s.records.Keys && s.dead <= s.popped <= s.records.Keys && s.revived <= s.failed <= s.popped
    && Working(s)
    && QueuesAgree(s.queues, s.ledger) && WorkersAgree(s.work, s.ledger)
    && DeadAreBuried(s.dead, s.failed, s.revived, s.records, s.ledger) && PoppedOnce(s.popped, s.dead, s.ledger)
  }

  // ---------- Moves of one job between places ----------

  lemma QueuePut(queues: map<string, multiset<string>>, ledger: map<string, Place>, queue: string, id: string)
    requires QueuesAgree(queues, ledger) && (id in ledger ==> !ledger[id].InQueue?)
    ensures QueuesAgree(queues[queue := Contents(queues, queue) + multiset{id}], ledger[id := InQueue(queue)])
  {
    var after := queues[queue := Contents(queues, queue) + multiset{id}];
    forall q, j ensures Times(after, q, j) == Expected(ledger[id := InQueue(queue)], q, j) {
      assert Times(queues, q, j) == Expected(ledger, q, j);
    }
  }

  lemma QueueTake(queues: map<string, multiset<string>>, ledger: map<string, Place>, queue: string, id: string,
                  place: Place)
    requires QueuesAgree(queues, ledger) && id in Contents(queues, queue) && !place.InQueue?
    ensures id in ledger && ledger[id] == InQueue(queue)
    ensures QueuesAgree(queues[queue := Contents(queues, queue) - multiset{id}], ledger[id := place])
  {
    var after := queues[queue := Contents(queues, queue) - multiset{id}];
    assert Times(queues, queue, id) == Expected(ledger, queue, id);
    forall q, j ensures Times(after, q, j) == Expected(ledger[id := place], q, j) {
      assert Times(queues, q, j) == Expected(ledger, q, j);
    }
  }

  lemma QueueSpared(queues: map<string, multiset<string>>, ledger: map<string, Place>, id: string, place: Place)
    requires QueuesAgree(queues, ledger) && id in ledger && !ledger[id].InQueue? && !place.InQueue?
    ensures QueuesAgree(queues, ledger[id := place])
  {
    forall q, j ensures Times(queues, q, j) == Expected(ledger[id := place], q, j) {
      assert Times(queues, q, j) == Expected(ledger, q, j);
    }
  }

  lemma WorkerTakes(work: map<nat, Work>, ledger: map<string, Place>, w: nat, id: string)
    requires WorkersAgree(work, ledger) && w !in work && id in ledger && !ledger[id].HeldBy?
    ensures WorkersAgree(work[w := Holding(id)], ledger[id := HeldBy(w)])
  {
  }

  lemma WorkerDrops(work: map<nat, Work>, ledger: map<string, Place>, w: nat, place: Place)
    requires WorkersAgree(work, ledger) && w in work && !place.HeldBy?
    ensures WorkersAgree(work - {w}, ledger[work[w].id := place])
  {
  }

  lemma WorkerSpared(work: map<nat, Work>, ledger: map<string, Place>, id: string, place: Place)
    requires WorkersAgree(work, ledger) && (id in ledger ==> !ledger[id].HeldBy?) && !place.HeldBy?
    ensures WorkersAgree(work, ledger[id := place])
  {
  }

  // ---------- Every step keeps it ----------

  /** A worker's move that leaves the ledger alone; only its own job's record may change. */
  lemma AdvanceKeeps(s: State, w: nat, work: Work, record: Record)
    requires Custody(s) && w in s.work && work.id == s.work[w].id && !work.Burying?
    ensures Custody(s.(work := s.work[w := work], records := s.records[work.id := record]))
  {
  }

  /** The move with which a job fails for good. */
  lemma FailKeeps(s: State, w: nat, id: string, record: Record)
    requires Custody(s) && w in s.work && id == s.work[w].id && record.status == Failed
    ensures Custody(s.(work := s.work[w := Burying(id)], records := s.records[id := record],
                       failed := s.failed + {id}, revived := s.revived - {id}))
  {
  }

  lemma ReleaseKeeps(s: State, w: nat, end: End, record: Record)
    requires Custody(s) && w in s.work
    ensures Custody(Release(s, w, end).(records := s.records[s.work[w].id := record]))
  {
    var id := s.work[w].id;
    QueueSpared(s.queues, s.ledger, id, Left(end));
    WorkerDrops(s.work, s.ledger, w, Left(end));
  }

  lemma EnqueueKeeps(s: State, id: string, queue: string, record: Record)
    requires Custody(s) && id !in s.records
    ensures Custody(s.(records := s.records[id := record], queues := s.queues[queue := Queued(s, queue) + multiset{id}],
                       ledger := s.ledger[id := InQueue(queue)]))
  {
    QueuePut(s.queues, s.ledger, queue, id);
    WorkerSpared(s.work, s.ledger, id, InQueue(queue));
  }

  lemma PopKeeps(s: State, w: nat, queue: string, id: string, now: int)
    requires Custody(s) && Enabled(s, Pop(w, queue, id, now))
    ensures Custody(DoPop(s, w, queue, id))
    ensures id in s.popped <==> id in s.revived
    ensures s.ledger[id] == InQueue(queue)
  {
    QueueTake(s.queues, s.ledger, queue, id, HeldBy(w));
    WorkerTakes(s.work, s.ledger, w, id);
  }

  lemma BuryKeeps(s: State, cfg: Config, w: nat)
    requires Custody(s) && w in s.work && s.work[w].Burying?
    ensures Custody(DoBury(s, cfg, w))
  {
    var id := s.work[w].id;
    match cfg.deadLetter
    case None =>
      QueueSpared(s.queues, s.ledger, id, Left(Lost));
      WorkerDrops(s.work, s.ledger, w, Left(Lost));
    case Some(queue) =>
      QueuePut(s.queues, s.ledger, queue, id);
      WorkerDrops(s.work, s.ledger, w, InQueue(queue));
  }

  lemma RemoveKeeps(s: State, queue: string, id: string)
    requires Custody(s) && id in Queued(s, queue)
    ensures Custody(s.(queues := s.queues[queue := Queued(s, queue) - multiset{id}],
                       ledger := s.ledger[id := Left(Removed)]))
  {
    QueueTake(s.queues, s.ledger, queue, id, Left(Removed));
    WorkerSpared(s.work, s.ledger, id, Left(Removed));
  }

  lemma ClearKeeps(s: State, queue: string)
    requires Custody(s)
    ensures Custody(DoClear(s, queue))
  {
    var t := DoClear(s, queue);
    forall q, j ensures Times(t.queues, q, j) == Expected(t.ledger, q, j) {
      assert Times(s.queues, q, j) == Expected(s.ledger, q, j);
    }
  }

  lemma RenameKeeps(s: State, p: nat)
    requires Custody(s) && p in s.checked && s.checked[p] in s.records
    ensures Custody(DoRename(s, p))
  {
  }

  /** Steps in which a worker goes on with its job. */
  lemma StepKeeps(s: State, cfg: Config, step: Step)
    requires Custody(s) && Enabled(s, step)
    requires step.Begin? || step.Succeed? || step.Fail? || step.MissHandler? || step.CountFailed? || step.CountRetried?
    ensures Custody(Next(s, cfg, step))
  {
    var w := step.worker;
    var id := s.work[w].id;
    var t := Next(s, cfg, step);
    AdvanceKeeps(s, w, t.work[w], t.records[id]);
  }

  lemma NextKeepsCustody(s: State, cfg: Config, step: Step)
    requires Custody(s) && Enabled(s, step)
    ensures Custody(Next(s, cfg, step))
  {
    match step
    case Enqueue(id, queue, record) => EnqueueKeeps(s, id, queue, record);
    case Pop(w, queue, id, now) => PopKeeps(s, w, queue, id, now);
    case Check(_, _, _) =>
    case Rename(p) => RenameKeeps(s, p);
    case Remove(queue, id) => RemoveKeeps(s, queue, id);
    case Clear(queue) => ClearKeeps(s, queue);
    case Bury(w) => BuryKeeps(s, cfg, w);
    case Park(_, _) => LeaveKeeps(s, cfg, step);
    case CountCompleted(_) => LeaveKeeps(s, cfg, step);
    case Report(w) => ReportKeeps(s, w);
    case Decide(w) => DecideKeeps(s, cfg, w);
    case _ => StepKeeps(s, cfg, step);
  }

  /** Steps with which a worker is done. */
  lemma LeaveKeeps(s: State, cfg: Config, step: Step)
    requires Custody(s) && Enabled(s, step) && (step.Park? || step.CountCompleted?)
    ensures Custody(Next(s, cfg, step))
  {
    var w := step.worker;
    var r := s.records[s.work[w].id];
    if step.Park? {
      ReleaseKeeps(s, w, Parked, r.(status := Scheduled, scheduledAt := Some(step.at)));
    } else {
      ReleaseKeeps(s, w, Done, r);
      assert s.records == s.records[s.work[w].id := r];
    }
  }

  lemma ReportKeeps(s: State, w: nat)
    requires Custody(s) && Enabled(s, Report(w))
    ensures Custody(DoReport(s, w))
  {
    var id := s.work[w].id;
    if StatusOf(s, w) == Failed {
      ReleaseKeeps(s, w, NoHandler, s.records[id]);
      assert s.records == s.records[id := s.records[id]];
    } else {
      AdvanceKeeps(s, w, Failing(id), s.records[id]);
    }
  }

  lemma DecideKeeps(s: State, cfg: Config, w: nat)
    requires Custody(s) && Enabled(s, Decide(w))
    ensures Custody(DoDecide(s, cfg, w))
  {
    var id := s.work[w].id;
    var r := s.records[id];
    if r.attempts < MaxAttempts(r.maxAttempts, cfg.maxAttempts) {
      AdvanceKeeps(s, w, Work.Retrying(id), r.(status := Status.Retrying, attempts := r.attempts + 1));
    } else {
      FailKeeps(s, w, id, r.(status := Failed));
    }
  }

  lemma {:induction false} RunKeepsCustody(s: State, cfg: Config, steps: seq<Step>, t: State)
    requires Custody(s) && Leads(s, cfg, steps, t)
    ensures Custody(t)
    decreases |steps|
  {
    if steps != [] {
      NextKeepsCustody(s, cfg, steps[0]);
      RunKeepsCustody(Next(s, cfg, steps[0]), cfg, steps[1..], t);
    }
  }

  lemma ReachedCustody(cfg: Config, steps: seq<Step>, s: State)
    requires Leads(START, cfg, steps, s)
    ensures Custody(s)
  {
    RunKeepsCustody(START, cfg, steps, s);
  }

  lemma QueuesMean(queues: map<string, multiset<string>>, ledger: map<string, Place>)
    requires QueuesAgree(queues, ledger)
    ensures forall queue, id ::
              Contents(queues, queue)[id] == if id in ledger && ledger[id] == InQueue(queue) then 1 else 0
  {
    forall queue, id
      ensures Contents(queues, queue)[id] == if id in ledger && ledger[id] == InQueue(queue) then 1 else 0
    {
      assert Times(queues, queue, id) == Expected(ledger, queue, id);
    }
  }

  lemma WorkersMean(work: map<nat, Work>, ledger: map<string, Place>)
    requires WorkersAgree(work, ledger)
    ensures forall w, id :: (w in work && work[w].id == id) <==> (id in ledger && ledger[id] == HeldBy(w))
  {
  }

  lemma CustodyMeans(s: State)
    requires Custody(s)
    ensures s.ledger.Keys == s.records.Keys
    ensures forall queue, id ::
              Contents(s.queues, queue)[id] == if id in s.ledger && s.ledger[id] == InQueue(queue) then 1 else 0
    ensures forall w, id :: (w in s.work && s.work[w].id == id) <==> (id in s.ledger && s.ledger[id] == HeldBy(w))
  {
    QueuesMean(s.queues, s.ledger);
    WorkersMean(s.work, s.ledger);
  }

  /** However the workers interleave: every job enqueued is in exactly one place, once: one
      queue, one worker, or gone in one way; and only jobs that were enqueued are anywhere. */
  lemma EveryJobInOnePlace(cfg: Config, steps: seq<Step>, s: State)
    requires Leads(START, cfg, steps, s)
    ensures s.ledger.Keys == s.records.Keys
    ensures forall queue, id ::
              Contents(s.queues, queue)[id] == if id in s.ledger && s.ledger[id] == InQueue(queue) then 1 else 0
    ensures forall w, id :: (w in s.work && s.work[w].id == id) <==> (id in s.ledger && s.ledger[id] == HeldBy(w))
  {
    ReachedCustody(cfg, steps, s);
    CustodyMeans(s);
  }

  // ---------- Which jobs are run again ----------

  /** What has become of a job since its last Pop: it has failed for good, and a pass has
      written to it since. */
  datatype Fate = Open | FailedForGood | Revived

  function FateAfter(s: State, cfg: Config, step: Step, id: string, fate: Fate): Fate
    requires Enabled(s, step)
  {
    match step
    case Pop(_, _, other, _) => if other == id then Open else fate
    case Decide(w) => if s.work[w].id == id && Next(s, cfg, step).work[w].Burying? then FailedForGood else fate
    case Rename(p) => if s.checked[p] == id && fate == FailedForGood then Revived else fate
    case _ => fate
  }

  /** The same for the steps of a run. */
  ghost function FateOf(s: State, cfg: Config, steps: seq<Step>, id: string, fate: Fate): Fate
    decreases |steps|
  {
    if steps == [] || !Enabled(s, steps[0]) then fate
    else FateOf(Next(s, cfg, steps[0]), cfg, steps[1..], id, FateAfter(s, cfg, steps[0], id, fate))
  }

  function Noted(s: State, id: string): Fate {
    if id !in s.failed then Open else if id in s.revived then Revived else FailedForGood
  }

  lemma NotedAfter(s: State, cfg: Config, step: Step, id: string)
    requires Enabled(s, step)
    ensures Noted(Next(s, cfg, step), id) == FateAfter(s, cfg, step, id, Noted(s, id))
  {
  }

  lemma {:induction false} FateIsNoted(s: State, cfg: Config, steps: seq<Step>, t: State, id: string)
    requires Leads(s, cfg, steps, t)
    ensures FateOf(s, cfg, steps, id, Noted(s, id)) == Noted(t, id)
    decreases |steps|
  {
    if steps != [] {
      NotedAfter(s, cfg, steps[0], id);
      FateIsNoted(Next(s, cfg, steps[0]), cfg, steps[1..], t, id);
    }
  }

  /** However the workers interleave: a Pop returns a job for the second time exactly when a
      pass has written to it after it failed for good.  Retries are no second time: a job
      marked for one is put in no queue. */
  lemma PoppedAgainIff(cfg: Config, steps: seq<Step>, s: State, w: nat, queue: string, id: string, now: int)
    requires Leads(START, cfg, steps, s) && Enabled(s, Pop(w, queue, id, now))
    ensures id in s.popped <==> FateOf(START, cfg, steps, id, Open) == Revived
    ensures id in s.popped <==> id in s.dead
  {
    ReachedCustody(cfg, steps, s);
    FateIsNoted(START, cfg, steps, s, id);
    PopKeeps(s, w, queue, id, now);
  }

  /** Some worker has no job. */
  lemma {:induction false} FreeWorker(busy: set<nat>) returns (w: nat)
    ensures forall b | b in busy :: b < w
  {
    if busy == {} {
      w := 0;
    } else {
      var b :| b in busy;
      var free := FreeWorker(busy - {b});
      w := if free <= b then b + 1 else free;
      assert forall c | c in busy :: c == b || c in busy - {b};
    }
  }

  /** Conversely every such job, as long as it is in its queue, can be popped again. */
  lemma RevivedCanBePopped(cfg: Config, steps: seq<Step>, s: State, id: string)
    returns (w: nat, queue: string, now: int)
    requires Leads(START, cfg, steps, s) && FateOf(START, cfg, steps, id, Open) == Revived
    requires id in s.ledger && s.ledger[id].InQueue?
    ensures id in s.popped && Enabled(s, Pop(w, queue, id, now))
  {
    ReachedCustody(cfg, steps, s);
    FateIsNoted(START, cfg, steps, s, id);
    w := FreeWorker(s.work.Keys);
    queue := s.ledger[id].queue;
    var at := s.records[id].scheduledAt;
    now := if at.Some? then at.value + 1 else 0;
    assert Times(s.queues, queue, id) == Expected(s.ledger, queue, id);
  }

  lemma {:induction false} NoneDead(s: State, cfg: Config, steps: seq<Step>, t: State)
    requires cfg.deadLetter.None? && s.dead == {} && Leads(s, cfg, steps, t)
    ensures t.dead == {}
    decreases |steps|
  {
    if steps != [] {
      NoneDead(Next(s, cfg, steps[0]), cfg, steps[1..], t);
    }
  }

  ghost predicate NeverAgain(cfg: Config) {
    forall steps, s, w, queue, id, now | Leads(START, cfg, steps, s) && Enabled(s, Pop(w, queue, id, now)) ::
      id !in s.popped
  }

  /** No run at all pops a job twice exactly when no dead-letter queue is set. */
  lemma NoJobRunsTwiceIff(cfg: Config)
    ensures NeverAgain(cfg) <==> cfg.deadLetter.None?
  {
    if cfg.deadLetter.None? {
      forall steps, s, w, queue, id, now | Leads(START, cfg, steps, s) && Enabled(s, Pop(w, queue, id, now))
        ensures id !in s.popped
      {
        NoneDead(START, cfg, steps, s);
        PoppedAgainIff(cfg, steps, s, w, queue, id, now);
      }
    } else {
      var s := LateRenameRunsTwice(cfg);
      assert Enabled(s, Pop(1, cfg.deadLetter.value, "j", 1));
    }
  }

  lemma LeadsOn(s: State, cfg: Config, step: Step, steps: seq<Step>, t: State)
    requires Enabled(s, step) && Leads(Next(s, cfg, step), cfg, steps, t)
    ensures Leads(s, cfg, [step] + steps, t)
  {
    assert ([step] + steps)[1..] == steps;
  }

  /** A scheduled job whose attempts are used up. */
  function UsedUp(cfg: Config): Record {
    Record(Scheduled, cfg.maxAttempts, 0, Some(0))
  }

  /** A pass finds the job ready; a worker pops it, its handler fails, it is dead-lettered;
      then the pass renames it. */
  function LateRename(cfg: Config): seq<Step> {
    [Enqueue("j", "q", UsedUp(cfg))]
    + ([Check(0, "j", 1)] + ([Pop(0, "q", "j", 1)] + ([Begin(0)] + ([Fail(0)] + ([CountFailed(0)]
    + ([Decide(0)] + ([Bury(0)] + ([Rename(0)] + []))))))))
  }

  /** That run's states from the Pop on, the pass still to write. */
  ghost function Taken(cfg: Config, status: Status, work: Work, metrics: Metrics, finals: nat): State {
    State(map["j" := UsedUp(cfg).(status := status)], map["q" := multiset{}], map[0 := work], map["j" := HeldBy(0)],
          {"j"}, {}, map[0 := "j"], if work.Burying? then {"j"} else {}, {}, metrics, 0, finals, 0)
  }

  const NONE := Metrics(0, 0, 0, 0)
  const ONE := Metrics(1, 0, 0, 0)
  const FAILED := Metrics(1, 0, 1, 0)

  lemma TakenSteps(cfg: Config)
    ensures var s1 := Next(START, cfg, Enqueue("j", "q", UsedUp(cfg)));
            && Enabled(s1, Check(0, "j", 1))
            && var s2 := Next(s1, cfg, Check(0, "j", 1));
            Enabled(s2, Pop(0, "q", "j", 1))
              && Next(s2, cfg, Pop(0, "q", "j", 1)) == Taken(cfg, Scheduled, Holding("j"), NONE, 0)
  {
    var s2 := Next(Next(START, cfg, Enqueue("j", "q", UsedUp(cfg))), cfg, Check(0, "j", 1));
    assert Queued(s2, "q") == multiset{"j"};
  }

  lemma BeginStep(cfg: Config)
    ensures var s := Taken(cfg, Scheduled, Holding("j"), NONE, 0);
            Enabled(s, Begin(0)) && Next(s, cfg, Begin(0)) == Taken(cfg, Running, Executing("j"), ONE, 0)
  {
  }

  lemma FailSteps(cfg: Config)
    ensures var s := Taken(cfg, Running, Executing("j"), ONE, 0);
            Enabled(s, Fail(0)) && Next(s, cfg, Fail(0)) == Taken(cfg, Running, Failing("j"), ONE, 0)
    ensures var s := Taken(cfg, Running, Failing("j"), ONE, 0);
            Enabled(s, CountFailed(0)) && Next(s, cfg, CountFailed(0)) == Taken(cfg, Running, Deciding("j"), FAILED, 0)
  {
  }

  lemma DecideStep(cfg: Config)
    ensures var s := Taken(cfg, Running, Deciding("j"), FAILED, 0);
            Enabled(s, Decide(0)) && Next(s, cfg, Decide(0)) == Taken(cfg, Failed, Burying("j"), FAILED, 1)
  {
  }

  lemma LateRenameLeads(cfg: Config, rest: seq<Step>, t: State)
    requires Leads(Taken(cfg, Failed, Burying("j"), FAILED, 1), cfg, rest, t)
    ensures Leads(START, cfg, [Enqueue("j", "q", UsedUp(cfg))]
                  + ([Check(0, "j", 1)] + ([Pop(0, "q", "j", 1)] + ([Begin(0)]
                  + ([Fail(0)] + ([CountFailed(0)] + ([Decide(0)] + rest)))))), t)
  {
    var decide := [Decide(0)] + rest;
    var begin := [Begin(0)] + ([Fail(0)] + ([CountFailed(0)] + decide));
    DecideStep(cfg);
    LeadsOn(Taken(cfg, Running, Deciding("j"), FAILED, 0), cfg, Decide(0), rest, t);
    FailSteps(cfg);
    LeadsOn(Taken(cfg, Running, Failing("j"), ONE, 0), cfg, CountFailed(0), decide, t);
    LeadsOn(Taken(cfg, Running, Executing("j"), ONE, 0), cfg, Fail(0), [CountFailed(0)] + decide, t);
    BeginStep(cfg);
    LeadsOn(Taken(cfg, Scheduled, Holding("j"), NONE, 0), cfg, Begin(0), [Fail(0)] + ([CountFailed(0)] + decide), t);
    TakenSteps(cfg);
    var s1 := Next(START, cfg, Enqueue("j", "q", UsedUp(cfg)));
    LeadsOn(Next(s1, cfg, Check(0, "j", 1)), cfg, Pop(0, "q", "j", 1), begin, t);
    LeadsOn(s1, cfg, Check(0, "j", 1), [Pop(0, "q", "j", 1)] + begin, t);
    LeadsOn(START, cfg, Enqueue("j", "q", UsedUp(cfg)), [Check(0, "j", 1)] + ([Pop(0, "q", "j", 1)] + begin), t);
  }

  /** With a dead-letter queue a job can be run a second time, out of that queue. */
  lemma LateRenameRunsTwice(cfg: Config) returns (s: State)
    requires cfg.deadLetter.Some?
    ensures Leads(START, cfg, LateRename(cfg), s)
    ensures "j" in s.dead && "j" in s.popped && Enabled(s, Pop(1, cfg.deadLetter.value, "j", 1))
  {
    var decided := Taken(cfg, Failed, Burying("j"), FAILED, 1);
    var buried := Next(decided, cfg, Bury(0));
    s := Next(buried, cfg, Rename(0));
    LeadsOn(buried, cfg, Rename(0), [], s);
    LeadsOn(decided, cfg, Bury(0), [Rename(0)] + [], s);
    LateRenameLeads(cfg, [Bury(0)] + ([Rename(0)] + []), s);
    assert "j" in Queued(s, cfg.deadLetter.value);
  }

  /** A job that has left, parked ones among them, stays where it is. */
  lemma {:induction false} LeftForGood(s: State, cfg: Config, steps: seq<Step>, t: State, id: string)
    requires Custody(s) && Leads(s, cfg, steps, t) && id in s.ledger && s.ledger[id].Left?
    ensures id in t.ledger && t.ledger[id] == s.ledger[id]
    decreases |steps|
  {
    if steps != [] {
      NextKeepsCustody(s, cfg, steps[0]);
      if Works(steps[0]) {
        WorkSpares(s, cfg, steps[0], id);
      } else {
        OthersSpare(s, cfg, steps[0], id);
      }
      LeftForGood(Next(s, cfg, steps[0]), cfg, steps[1..], t, id);
    }
  }

  /** Steps that a worker takes with its job. */
  predicate Works(step: Step) {
    !step.Pop? && !step.Remove? && !step.Enqueue? && !step.Check? && !step.Rename? && !step.Clear?
  }

  lemma OthersSpare(s: State, cfg: Config, step: Step, id: string)
    requires Custody(s) && Enabled(s, step) && !Works(step) && id in s.ledger && s.ledger[id].Left?
    ensures id in Next(s, cfg, step).ledger && Next(s, cfg, step).ledger[id] == s.ledger[id]
  {
    match step
    case Pop(w, queue, other, now) => PopKeeps(s, w, queue, other, now);
    case Remove(queue, other) => QueueTake(s.queues, s.ledger, queue, other, Left(Removed));
    case _ =>
  }

  /** A worker moves no job but its own. */
  lemma WorkSpares(s: State, cfg: Config, step: Step, id: string)
    requires Custody(s) && Enabled(s, step) && Works(step) && id in s.ledger && !s.ledger[id].HeldBy?
    ensures id in Next(s, cfg, step).ledger && Next(s, cfg, step).ledger[id] == s.ledger[id]
  {
  }

  /** The step that decides about a retry does what a call of the processor's method does
      to the attempts of a job whose handler failed. */
  lemma DecideAgrees(s: State, cfg: Config, w: nat)
    requires Enabled(s, Decide(w))
    ensures var t, id := Next(s, cfg, Decide(w)), s.work[w].id;
            && w in t.work && t.work[w].id == id && id in t.records
            && (t.work[w].Retrying? || t.work[w].Burying?)
            && Retries.FailingCall(
                 Retries.Call(s.records[id].attempts,
                              if t.work[w].Retrying? then Retries.RetryScheduled else Retries.FailedForGood,
                              t.records[id].attempts),
                 MaxAttempts(s.records[id].maxAttempts, cfg.maxAttempts))
  {
  }

  // ---------- The counters ----------

  /** What a worker's job is still to be counted for. */
  datatype Stage = NotYet | InFlight | Undecided | Unburied | Counted

  function StageOf(work: Work): Stage {
    match work
    case Holding(_) => NotYet
    case Executing(_) => InFlight
    case Succeeding(_) => InFlight
    case Failing(_) => InFlight
    case Missing(_) => InFlight
    case Deciding(_) => Undecided
    case Retrying(_) => Undecided
    case Parking(_) => Counted
    case Burying(_) => Unburied
  }

  ghost function At(work: map<nat, Work>, stage: Stage): set<nat> {
    set w | w in work && StageOf(work[w]) == stage
  }

  /** How many workers are at a stage. */
  ghost function Count(work: map<nat, Work>, stage: Stage): nat {
    |At(work, stage)|
  }

  function One(b: bool): nat {
    if b then 1 else 0
  }

  lemma WithoutOne(a: set<nat>, w: nat)
    ensures |a - {w}| + One(w in a) == |a|
  {
    if w !in a {
      assert a - {w} == a;
    }
  }

  lemma AtPut(work: map<nat, Work>, w: nat, next: Work, stage: Stage)
    ensures At(work[w := next], stage) - {w} == At(work, stage) - {w}
    ensures w in At(work[w := next], stage) <==> StageOf(next) == stage
    ensures w in At(work, stage) <==> w in work && StageOf(work[w]) == stage
  {
  }

  lemma CountPut(work: map<nat, Work>, w: nat, next: Work, stage: Stage)
    ensures Count(work[w := next], stage) + One(w in work && StageOf(work[w]) == stage)
            == Count(work, stage) + One(StageOf(next) == stage)
  {
    AtPut(work, w, next, stage);
    WithoutOne(At(work, stage), w);
    WithoutOne(At(work[w := next], stage), w);
  }

  lemma CountDrop(work: map<nat, Work>, w: nat, stage: Stage)
    requires w in work
    ensures Count(work - {w}, stage) + One(StageOf(work[w]) == stage) == Count(work, stage)
  {
    assert At(work - {w}, stage) == At(work, stage) - {w};
    WithoutOne(At(work, stage), w);
  }

  /** Jobs counted as processed are completed, failed, without handler, or in flight;
      failures are retried, final or undecided; each final failure is pushed once to the
      dead-letter queue if there is one. */
  ghost predicate Balanced(s: State, cfg: Config) {
    && s.metrics.processed == s.metrics.completed + s.metrics.failed + s.unhandled + Count(s.work, InFlight)
    && s.metrics.failed == s.metrics.retried + s.finals + Count(s.work, Undecided)
    && (if cfg.deadLetter.Some? then s.finals == s.pushes + Count(s.work, Unburied) else s.pushes == 0)
  }

  /** The counters after a worker moved from one stage to the next, or finished. */
  ghost predicate Moved(s: State, t: State, from: Stage, to: Stage) {
    && Count(t.work, InFlight) + One(from == InFlight) == Count(s.work, InFlight) + One(to == InFlight)
    && Count(t.work, Undecided) + One(from == Undecided) == Count(s.work, Undecided) + One(to == Undecided)
    && Count(t.work, Unburied) + One(from == Unburied) == Count(s.work, Unburied) + One(to == Unburied)
  }

  lemma Put(s: State, t: State, w: nat, next: Work)
    requires t.work == s.work[w := next]
    ensures Moved(s, t, if w in s.work then StageOf(s.work[w]) else NotYet, StageOf(next))
  {
    CountPut(s.work, w, next, InFlight);
    CountPut(s.work, w, next, Undecided);
    CountPut(s.work, w, next, Unburied);
  }

  lemma Drop(s: State, t: State, w: nat)
    requires w in s.work && t.work == s.work - {w}
    ensures Moved(s, t, StageOf(s.work[w]), Counted)
  {
    CountDrop(s.work, w, InFlight);
    CountDrop(s.work, w, Undecided);
    CountDrop(s.work, w, Unburied);
  }

  lemma DecideBalances(s: State, cfg: Config, w: nat)
    requires Balanced(s, cfg) && Enabled(s, Decide(w))
    ensures Balanced(DoDecide(s, cfg, w), cfg)
  {
    var t := DoDecide(s, cfg, w);
    Put(s, t, w, t.work[w]);
    DecideCounts(s, cfg, w);
  }

  lemma DecideCounts(s: State, cfg: Config, w: nat)
    requires Enabled(s, Decide(w))
    ensures var t := DoDecide(s, cfg, w);
            && t.metrics == s.metrics && t.unhandled == s.unhandled && t.pushes == s.pushes
            && if t.work[w].Burying? then t.finals == s.finals + 1 else t.work[w].Retrying? && t.finals == s.finals
  {
  }

  lemma BuryBalances(s: State, cfg: Config, w: nat)
    requires Balanced(s, cfg) && Enabled(s, Bury(w))
    ensures Balanced(DoBury(s, cfg, w), cfg)
  {
    Drop(s, DoBury(s, cfg, w), w);
  }

  lemma ReportBalances(s: State, cfg: Config, w: nat)
    requires Balanced(s, cfg) && Enabled(s, Report(w))
    ensures Balanced(DoReport(s, w), cfg)
  {
    var t := DoReport(s, w);
    if StatusOf(s, w) == Failed {
      Drop(s, t, w);
    } else {
      Put(s, t, w, t.work[w]);
    }
  }

  /** Steps in which a worker goes on with its job and one counter at most is raised. */
  lemma AdvanceBalances(s: State, cfg: Config, step: Step)
    requires Balanced(s, cfg) && Enabled(s, step)
    requires step.Begin? || step.Succeed? || step.Fail? || step.MissHandler? || step.CountFailed? || step.CountRetried?
    ensures Balanced(Next(s, cfg, step), cfg)
  {
    var t, w := Next(s, cfg, step), step.worker;
    Put(s, t, w, t.work[w]);
  }

  lemma LeaveBalances(s: State, cfg: Config, step: Step)
    requires Balanced(s, cfg) && Enabled(s, step) && (step.Park? || step.CountCompleted?)
    ensures Balanced(Next(s, cfg, step), cfg)
  {
    Drop(s, Next(s, cfg, step), step.worker);
  }

  /** Steps that change neither the workers nor the counters. */
  lemma OthersBalance(s: State, cfg: Config, step: Step)
    requires Balanced(s, cfg) && Enabled(s, step)
    requires step.Enqueue? || step.Check? || step.Rename? || step.Remove? || step.Clear?
    ensures Balanced(Next(s, cfg, step), cfg)
  {
  }

  lemma NextBalances(s: State, cfg: Config, step: Step)
    requires Balanced(s, cfg) && Enabled(s, step)
    ensures Balanced(Next(s, cfg, step), cfg)
  {
    match step
    case Pop(w, _, id, _) => Put(s, Next(s, cfg, step), w, Holding(id));
    case Report(w) => ReportBalances(s, cfg, w);
    case CountCompleted(_) => LeaveBalances(s, cfg, step);
    case Park(_, _) => LeaveBalances(s, cfg, step);
    case Decide(w) => DecideBalances(s, cfg, w);
    case Bury(w) => BuryBalances(s, cfg, w);
    case _ =>
      if Works(step) {
        AdvanceBalances(s, cfg, step);
      } else {
        OthersBalance(s, cfg, step);
      }
  }

  /** In every run the processor's counters add up, at every step of every interleaving. */
  lemma {:induction false} CountersBalance(s: State, cfg: Config, steps: seq<Step>, t: State)
    requires Balanced(s, cfg) && Leads(s, cfg, steps, t)
    ensures Balanced(t, cfg)
    decreases |steps|
  {
    if steps != [] {
      NextBalances(s, cfg, steps[0]);
      CountersBalance(Next(s, cfg, steps[0]), cfg, steps[1..], t);
    }
  }

  lemma StartBalanced(cfg: Config)
    ensures Balanced(START, cfg)
  {
  }

  /** When no worker holds a job the counters add up by themselves. */
  lemma CountersAtRest(cfg: Config, steps: seq<Step>, s: State)
    requires Leads(START, cfg, steps, s) && s.work == map[]
    ensures s.metrics.processed == s.metrics.completed + s.metrics.failed + s.unhandled
    ensures s.metrics.failed == s.metrics.retried + s.finals
    ensures s.pushes == if cfg.deadLetter.Some? then s.finals else 0
  {
    StartBalanced(cfg);
    CountersBalance(START, cfg, steps, s);
  }
}
