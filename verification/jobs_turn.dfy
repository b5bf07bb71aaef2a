/** What a worker's turn is on the custody machine, and how its objects show in a state. */
module JobTurns {
  import opened Basics
  import opened Jobs
  import opened JobCustody
  import Retries

  // ---------- The steps of one turn ----------

  /** A worker begins with the job it has popped and ends with this outcome; at: when the job
      is to be retried. */
  function WorkSteps(w: nat, outcome: Retries.Outcome, at: Option<int>): seq<Step> {
    [Begin(w)] + EndSteps(w, outcome, if at.Some? then at.value else 0)
  }

  /** The steps of a worker's turn on a job, found ready at some time. */
  ghost predicate IsTurn(steps: seq<Step>, w: nat, queue: string, id: string, outcome: Retries.Outcome,
                         at: Option<int>) {
    && steps != [] && steps[0].Pop? && steps[0] == Pop(w, queue, id, steps[0].now)
    && steps[1..] == WorkSteps(w, outcome, at)
  }

  function EndSteps(w: nat, outcome: Retries.Outcome, at: int): seq<Step> {
    match outcome
    case Completed => [Succeed(w)] + ([CountCompleted(w)] + [])
    case NoHandler => [MissHandler(w)] + ([Report(w)] + [])
    case FailedForGood => FailSteps(w) + ([Bury(w)] + [])
    case RetryScheduled => FailSteps(w) + ([CountRetried(w)] + ([Park(w, at)] + []))
    case Panicked => FailSteps(w) + ([CountRetried(w)] + [])
  }

  function FailSteps(w: nat): seq<Step> {
    [Fail(w)] + ([CountFailed(w)] + [Decide(w)])
  }

  function ProgressOf(r: Record): Retries.Progress {
    Retries.Progress(r.status, r.attempts, r.scheduledAt)
  }

  function With(r: Record, p: Retries.Progress): Record {
    r.(status := p.status, attempts := p.attempts, scheduledAt := p.scheduledAt)
  }

  /** Whether a failed call is followed by a retry depends on the attempts. */
  predicate Fitting(cfg: Config, r: Record, outcome: Retries.Outcome) {
    var retries := r.attempts < MaxAttempts(r.maxAttempts, cfg.maxAttempts);
    match outcome
    case FailedForGood => !retries
    case RetryScheduled => retries
    case Panicked => retries
    case _ => true
  }

  function MetricsOf(m: Retries.Metrics): Metrics {
    Metrics(m.processed, m.completed, m.failed, m.retried)
  }

  function AfterTurn(m: Metrics, outcome: Retries.Outcome): Metrics {
    MetricsOf(Retries.Counted(Retries.Metrics(m.processed, m.completed, m.failed, m.retried), outcome))
  }

  /** The queues after a job was processed: only a final failure puts it into one. */
  function Buried(cfg: Config, queues: map<string, multiset<string>>, id: string, outcome: Retries.Outcome)
    : map<string, multiset<string>>
  {
    if outcome == Retries.FailedForGood && cfg.deadLetter.Some? then
      queues[cfg.deadLetter.value := Contents(queues, cfg.deadLetter.value) + multiset{id}]
    else queues
  }

  /** What the objects show of a state after the job id was processed. */
  ghost predicate Processed(s: State, cfg: Config, id: string, outcome: Retries.Outcome, after: Retries.Progress,
                            t: State)
    requires id in s.records
  {
    && t.records == s.records[id := With(s.records[id], after)]
    && t.metrics == AfterTurn(s.metrics, outcome)
    && t.queues == Buried(cfg, s.queues, id, outcome)
  }

  lemma LeadsMore(s: State, cfg: Config, a: seq<Step>, t: State, b: seq<Step>, u: State)
    requires Leads(s, cfg, a, t) && Leads(t, cfg, b, u)
    ensures Leads(s, cfg, a + b, u)
    decreases |a|
  {
    if a == [] {
      assert a + b == b;
    } else {
      LeadsMore(Next(s, cfg, a[0]), cfg, a[1..], t, b, u);
      assert (a + b)[1..] == a[1..] + b;
    }
  }

  lemma TwoSteps(s: State, cfg: Config, a: Step, b: Step)
    requires Enabled(s, a) && Enabled(Next(s, cfg, a), b)
    ensures Leads(s, cfg, [a] + ([b] + []), Next(Next(s, cfg, a), cfg, b))
  {
    var u := Next(s, cfg, a);
    LeadsOn(u, cfg, b, [], Next(u, cfg, b));
    LeadsOn(s, cfg, a, [b] + [], Next(u, cfg, b));
  }

  /** The worker executes the job, whose record is marked running. */
  predicate Executes(s: State, w: nat, id: string) {
    w in s.work && s.work[w] == Executing(id) && id in s.records && s.records[id].status == Running
  }

  lemma Completes(s: State, cfg: Config, w: nat, id: string) returns (t: State)
    requires Executes(s, w, id)
    ensures Leads(s, cfg, [Succeed(w)] + ([CountCompleted(w)] + []), t)
    ensures t.records == s.records[id := s.records[id].(status := Completed)] && t.queues == s.queues
    ensures t.metrics == s.metrics.(completed := s.metrics.completed + 1)
  {
    TwoSteps(s, cfg, Succeed(w), CountCompleted(w));
    t := Next(Next(s, cfg, Succeed(w)), cfg, CountCompleted(w));
  }

  lemma Misses(s: State, cfg: Config, w: nat, id: string) returns (t: State)
    requires Executes(s, w, id)
    ensures Leads(s, cfg, [MissHandler(w)] + ([Report(w)] + []), t)
    ensures t.records == s.records[id := s.records[id].(status := Failed)] && t.queues == s.queues
            && t.metrics == s.metrics
  {
    TwoSteps(s, cfg, MissHandler(w), Report(w));
    t := Next(Next(s, cfg, MissHandler(w)), cfg, Report(w));
  }

  /** A failing handler, up to the decision about a retry. */
  lemma Fails(s: State, cfg: Config, w: nat, id: string) returns (t: State)
    requires Executes(s, w, id)
    ensures Leads(s, cfg, FailSteps(w), t) && w in t.work
    ensures t.queues == s.queues && t.metrics == s.metrics.(failed := s.metrics.failed + 1)
    ensures var r := s.records[id];
            if r.attempts < MaxAttempts(r.maxAttempts, cfg.maxAttempts)
            then t.work[w] == Work.Retrying(id)
                 && t.records == s.records[id := r.(status := Status.Retrying, attempts := r.attempts + 1)]
            else t.work[w] == Burying(id) && t.records == s.records[id := r.(status := Failed)]
  {
    var d := Counts(s, cfg, w, id);
    t := Next(d, cfg, Decide(w));
    LeadsOn(d, cfg, Decide(w), [], t);
    LeadsMore(s, cfg, [Fail(w)] + ([CountFailed(w)] + []), d, [Decide(w)] + [], t);
    assert [Fail(w)] + ([CountFailed(w)] + []) + ([Decide(w)] + []) == FailSteps(w);
  }

  lemma Counts(s: State, cfg: Config, w: nat, id: string) returns (t: State)
    requires Executes(s, w, id)
    ensures Leads(s, cfg, [Fail(w)] + ([CountFailed(w)] + []), t)
    ensures t == s.(work := s.work[w := Deciding(id)], metrics := s.metrics.(failed := s.metrics.failed + 1))
  {
    TwoSteps(s, cfg, Fail(w), CountFailed(w));
    t := Next(Next(s, cfg, Fail(w)), cfg, CountFailed(w));
    assert s.records[id := s.records[id]] == s.records;
  }

  lemma Buries(s: State, cfg: Config, w: nat, id: string) returns (t: State)
    requires w in s.work && s.work[w] == Burying(id) && id in s.records
    ensures Leads(s, cfg, [Bury(w)] + [], t)
    ensures t.records == s.records && t.metrics == s.metrics
            && t.queues == Buried(cfg, s.queues, id, Retries.FailedForGood)
  {
    t := Next(s, cfg, Bury(w));
    LeadsOn(s, cfg, Bury(w), [], t);
  }

  /** The counter, up to where drawing the jitter may panic. */
  lemma Recounts(s: State, cfg: Config, w: nat, id: string) returns (t: State)
    requires w in s.work && s.work[w] == Work.Retrying(id) && id in s.records
    ensures Leads(s, cfg, [CountRetried(w)] + [], t)
    ensures t == s.(work := s.work[w := Parking(id)], metrics := s.metrics.(retried := s.metrics.retried + 1))
  {
    t := Next(s, cfg, CountRetried(w));
    LeadsOn(s, cfg, CountRetried(w), [], t);
    assert s.records[id := s.records[id]] == s.records;
  }

  lemma Parks(s: State, cfg: Config, w: nat, id: string, at: int) returns (t: State)
    requires w in s.work && s.work[w] == Parking(id) && id in s.records
    ensures Leads(s, cfg, [Park(w, at)] + [], t)
    ensures t.records == s.records[id := s.records[id].(status := Scheduled, scheduledAt := Some(at))]
    ensures t.metrics == s.metrics && t.queues == s.queues
  {
    t := Next(s, cfg, Park(w, at));
    LeadsOn(s, cfg, Park(w, at), [], t);
  }

  /** From the executing worker on. */
  lemma Ends(s: State, cfg: Config, w: nat, id: string, outcome: Retries.Outcome, after: Retries.Progress)
    returns (t: State)
    requires Executes(s, w, id) && Fitting(cfg, s.records[id], outcome)
    requires after == Retries.Turned(ProgressOf(s.records[id]), outcome, after.scheduledAt)
    requires outcome == Retries.RetryScheduled ==> after.scheduledAt.Some?
    ensures Leads(s, cfg, EndSteps(w, outcome, if after.scheduledAt.Some? then after.scheduledAt.value else 0), t)
    ensures t.records == s.records[id := With(s.records[id], after)] && t.queues == Buried(cfg, s.queues, id, outcome)
    ensures t.metrics == AfterTurn(s.metrics, outcome).(processed := s.metrics.processed)
  {
    match outcome
    case Completed => t := Completes(s, cfg, w, id);
    case NoHandler => t := Misses(s, cfg, w, id);
    case FailedForGood =>
      var d := Fails(s, cfg, w, id);
      t := Buries(d, cfg, w, id);
      LeadsMore(s, cfg, FailSteps(w), d, [Bury(w)] + [], t);
    case RetryScheduled => t := Reschedules(s, cfg, w, id, after);
    case Panicked =>
      var d := Fails(s, cfg, w, id);
      t := Recounts(d, cfg, w, id);
      LeadsMore(s, cfg, FailSteps(w), d, [CountRetried(w)] + [], t);
  }

  lemma Reschedules(s: State, cfg: Config, w: nat, id: string, after: Retries.Progress) returns (t: State)
    requires Executes(s, w, id) && Fitting(cfg, s.records[id], Retries.RetryScheduled)
    requires after.scheduledAt.Some?
    requires after == Retries.Turned(ProgressOf(s.records[id]), Retries.RetryScheduled, after.scheduledAt)
    ensures Leads(s, cfg, EndSteps(w, Retries.RetryScheduled, after.scheduledAt.value), t)
    ensures t.records == s.records[id := With(s.records[id], after)] && t.queues == s.queues
    ensures t.metrics == s.metrics.(failed := s.metrics.failed + 1, retried := s.metrics.retried + 1)
  {
    var at := after.scheduledAt.value;
    var d := Fails(s, cfg, w, id);
    var e := Recounts(d, cfg, w, id);
    t := Parks(e, cfg, w, id, at);
    LeadsOn(d, cfg, CountRetried(w), [Park(w, at)] + [], t) by {
      assert Next(d, cfg, CountRetried(w)) == e by {
        assert d.records[id := d.records[id]] == d.records;
      }
    }
    LeadsMore(s, cfg, FailSteps(w), d, [CountRetried(w)] + ([Park(w, at)] + []), t);
  }

  /** The work on a popped job, whatever comes of it, is a run of the machine. */
  lemma WorkIsRun(s: State, cfg: Config, w: nat, id: string, outcome: Retries.Outcome, after: Retries.Progress)
    returns (t: State)
    requires w in s.work && s.work[w] == Holding(id) && id in s.records && Fitting(cfg, s.records[id], outcome)
    requires after == Retries.Turned(ProgressOf(s.records[id]), outcome, after.scheduledAt)
    requires outcome == Retries.RetryScheduled ==> after.scheduledAt.Some?
    ensures Leads(s, cfg, WorkSteps(w, outcome, after.scheduledAt), t) && Processed(s, cfg, id, outcome, after, t)
  {
    var e := Next(s, cfg, Begin(w));
    t := Ends(e, cfg, w, id, outcome, after);
    LeadsOn(s, cfg, Begin(w), EndSteps(w, outcome, if after.scheduledAt.Some? then after.scheduledAt.value else 0), t);
    var r := s.records[id];
    assert s.records[id := r.(status := Running)][id := With(r, after)] == s.records[id := With(r, after)];
  }

  // ---------- The objects ----------

  ghost function RecordOf(job: Job): Record
    reads job
  {
    Record(job.status, job.attempts, job.maxAttempts, job.scheduledAt)
  }

  ghost predicate Has(jobs: multiset<Job>, id: string) {
    exists job :: job in jobs && job.id == id
  }

  /** Each job once, and no two with the same id. */
  ghost predicate Distinct(jobs: multiset<Job>) {
    forall a, b | a in jobs && b in jobs && a.id == b.id :: a == b && jobs[a] == 1
  }

  ghost predicate Shows(ids: multiset<string>, jobs: multiset<Job>) {
    forall id :: ids[id] == if Has(jobs, id) then 1 else 0
  }

  lemma TakeShows(ids: multiset<string>, jobs: multiset<Job>, job: Job, rest: multiset<Job>)
    requires Distinct(jobs) && Shows(ids, jobs) && rest + multiset{job} == jobs
    ensures job in jobs && ids[job.id] == 1
    ensures Distinct(rest) && Shows(ids - multiset{job.id}, rest) && !Has(rest, job.id)
  {
    assert job in jobs;
    assert forall a | a in rest :: a in jobs;
    assert job !in rest;
    forall id ensures (ids - multiset{job.id})[id] == if Has(rest, id) then 1 else 0 {
      if id != job.id && Has(jobs, id) {
        var a :| a in jobs && a.id == id;
        assert a in rest;
      }
    }
  }

  lemma PutShows(ids: multiset<string>, jobs: multiset<Job>, job: Job)
    requires Distinct(jobs) && Shows(ids, jobs) && !Has(jobs, job.id)
    ensures Distinct(jobs + multiset{job}) && Shows(ids + multiset{job.id}, jobs + multiset{job})
  {
    var all := jobs + multiset{job};
    forall id ensures (ids + multiset{job.id})[id] == if Has(all, id) then 1 else 0 {
      if Has(jobs, id) {
        var a :| a in jobs && a.id == id;
        assert a in all;
      }
      if id == job.id {
        assert job in all;
      }
    }
  }

  /** What one turn can change, besides the job and the worker's own counters. */
  datatype Sight = Sight(queue: multiset<Job>, deadLetters: multiset<Job>, buries: bool, metrics: Retries.Metrics)

  /** After a popped job was processed: nothing is put back, whatever came of it, unless the
      job failed for good, and then into the dead-letter queue only, if there is one. */
  ghost function Finished(v: Sight, onDeadLetters: bool, job: Job, outcome: Retries.Outcome): Sight {
    var buried := if outcome == Retries.FailedForGood && v.buries then multiset{job} else multiset{};
    Sight(v.queue + (if onDeadLetters then buried else multiset{}),
          v.deadLetters + (if onDeadLetters then multiset{} else buried), v.buries, Retries.Counted(v.metrics, outcome))
  }

  function Taken(v: Sight, job: Job): Sight {
    v.(queue := v.queue - multiset{job})
  }

  /** A state of the machine shows what the worker of this queue can change. */
  ghost predicate InState(s: State, cfg: Config, queue: string, v: Sight) {
    && s.metrics == MetricsOf(v.metrics) && (v.buries <==> cfg.deadLetter.Some?)
    && Distinct(v.queue) && Shows(Contents(s.queues, queue), v.queue)
    && match cfg.deadLetter
       case None => v.deadLetters == multiset{}
       case Some(dead) =>
         if dead == queue then v.deadLetters == multiset{}
         else Distinct(v.deadLetters) && Shows(Contents(s.queues, dead), v.deadLetters)
  }

  /** The job is in none of these queues. */
  ghost predicate Away(v: Sight, job: Job) {
    !Has(v.queue, job.id) && !Has(v.deadLetters, job.id)
  }

  lemma PopShows(s: State, cfg: Config, w: nat, queue: string, job: Job, v: Sight)
    requires Custody(s) && InState(s, cfg, queue, v) && job in v.queue
    ensures job.id in Contents(s.queues, queue)
    ensures InState(DoPop(s, w, queue, job.id), cfg, queue, Taken(v, job)) && Away(Taken(v, job), job)
  {
    TakeShows(Contents(s.queues, queue), v.queue, job, Taken(v, job).queue);
    if cfg.deadLetter.Some? && cfg.deadLetter.value != queue {
      Elsewhere(s, queue, cfg.deadLetter.value, job.id, v.deadLetters);
    }
  }

  lemma WorkShows(s: State, cfg: Config, queue: string, job: Job, v: Sight, outcome: Retries.Outcome,
                  after: Retries.Progress, t: State)
    requires InState(s, cfg, queue, v) && Away(v, job) && job.id in s.records
             && Processed(s, cfg, job.id, outcome, after, t)
    ensures InState(t, cfg, queue, Finished(v, cfg.deadLetter == Some(queue), job, outcome))
  {
    BurialShows(s.queues, cfg, job, outcome, queue, v.queue);
    if cfg.deadLetter.Some? && cfg.deadLetter.value != queue {
      BurialShows(s.queues, cfg, job, outcome, cfg.deadLetter.value, v.deadLetters);
    }
  }

  /** A job is in one queue at most. */
  lemma Elsewhere(s: State, queue: string, other: string, id: string, jobs: multiset<Job>)
    requires Custody(s) && id in Contents(s.queues, queue) && other != queue && Shows(Contents(s.queues, other), jobs)
    ensures !Has(jobs, id)
  {
    assert Times(s.queues, queue, id) == Expected(s.ledger, queue, id);
    assert Times(s.queues, other, id) == Expected(s.ledger, other, id);
  }

  /** After the work on the job each queue has got it exactly when it is the dead-letter queue
      and the job has failed for good. */
  lemma BurialShows(queues: map<string, multiset<string>>, cfg: Config, job: Job, outcome: Retries.Outcome,
                    name: string,
                    jobs: multiset<Job>)
    requires Distinct(jobs) && Shows(Contents(queues, name), jobs) && !Has(jobs, job.id)
    ensures var after := jobs + if outcome == Retries.FailedForGood
            && cfg.deadLetter == Some(name) then multiset{job} else multiset{};
            Distinct(after) && Shows(Contents(Buried(cfg, queues, job.id, outcome), name), after)
  {
    if outcome == Retries.FailedForGood && cfg.deadLetter == Some(name) {
      PutShows(Contents(queues, name), jobs, job);
    } else {
      assert jobs + multiset{} == jobs;
    }
  }

  /** One turn of a worker, whatever comes of it, is a run of the machine: the popped job's
      record, the counters and the queues come out as its contract says. */
  lemma TurnIsRun(s: State, cfg: Config, w: nat, queue: string, v: Sight, job: Job, now: int, outcome: Retries.Outcome,
                  after: Retries.Progress) returns (steps: seq<Step>, t: State)
    requires Custody(s) && InState(s, cfg, queue, v) && w !in s.work && job in v.queue && job.id in s.records
    requires var r := s.records[job.id]; Ready(r.status, r.scheduledAt, now) && Fitting(cfg, r, outcome)
    requires after == Retries.Turned(ProgressOf(s.records[job.id]), outcome, after.scheduledAt)
    requires outcome == Retries.RetryScheduled ==> after.scheduledAt.Some?
    ensures Leads(s, cfg, steps, t) && IsTurn(steps, w, queue, job.id, outcome, after.scheduledAt)
    ensures InState(t, cfg, queue, Finished(Taken(v, job), cfg.deadLetter == Some(queue), job, outcome))
    ensures t.records == s.records[job.id := With(s.records[job.id], after)]
  {
    var step := Pop(w, queue, job.id, now);
    PopShows(s, cfg, w, queue, job, v);
    var popped := Next(s, cfg, step);
    t := WorkIsRun(popped, cfg, w, job.id, outcome, after);
    WorkShows(popped, cfg, queue, job, Taken(v, job), outcome, after, t);
    LeadsOn(s, cfg, step, WorkSteps(w, outcome, after.scheduledAt), t);
    steps := [step] + WorkSteps(w, outcome, after.scheduledAt);
  }
}
