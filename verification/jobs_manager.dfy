/** Enqueue and the worker's turn, as objects. */
module JobManagers {
  import opened Basics
  import opened Jobs
  import opened MemoryQueues
  import opened Retries
  import opened JobTurns
  import JobCustody
  import Promotion

  class JobManager {
    const maxQueueSize: int
    const defaultQueue: string
    var queues: map<string, MemoryQueue>

    /** Every queue goes by its own name. */
    ghost predicate Valid()
      reads this
    {
      forall name | name in queues :: queues[name].name == name
    }

    function QueueName(job: Job): string
      reads job
    {
      if job.queue == "" then defaultQueue else job.queue
    }

    /** The queue that a job goes to, if it exists already. */
    ghost function Target(job: Job): set<MemoryQueue>
      reads this, job
    {
      if QueueName(job) in queues then {queues[QueueName(job)]} else {}
    }

    constructor (maxQueueSize: int, defaultQueue: string)
      ensures Valid() && queues == map[]
      ensures this.maxQueueSize == maxQueueSize && this.defaultQueue == defaultQueue
    {
      this.maxQueueSize, this.defaultQueue, queues := maxQueueSize, defaultQueue, map[];
    }

    method GetOrCreateQueue(name: string) returns (queue: MemoryQueue)
      requires Valid()
      modifies this`queues
      ensures Valid() && name in queues && queues[name] == queue
      ensures if name in old(queues) then queues == old(queues)
              else fresh(queue) && queue.Valid() && queue.jobs == [] && queues == old(queues)[name := queue]
    {
      if name in queues {
        return queues[name];
      }
      queue := new MemoryQueue(name);
      queues := queues[name := queue];
    }

    /** Uninterrupted, the check and the push keep the limit; no other queue changes. */
    method Enqueue(job: Job) returns (ok: bool, queue: MemoryQueue)
      requires Valid() && forall q | q in Target(job) :: q.Valid()
      modifies this`queues, job`queue, Target(job)
      ensures Valid() && queue.Valid()
      ensures job.queue == old(QueueName(job)) && job.queue in queues && queues[job.queue] == queue
      ensures if old(QueueName(job)) in old(queues) then queue in old(Target(job))
              && queues == old(queues) else fresh(queue)
      ensures var before := if old(QueueName(job)) in old(queues) then old(queue.jobs) else [];
              && (ok <==> maxQueueSize <= 0 || |before| < maxQueueSize)
              && multiset(queue.jobs) == multiset(before) + (if ok then multiset{job} else multiset{})
    {
      if job.queue == "" {
        job.queue := defaultQueue;
      }
      queue := GetOrCreateQueue(job.queue);
      if maxQueueSize > 0 && |queue.jobs| >= maxQueueSize {
        return false, queue;
      }
      queue.Push(job);
      ok := true;
    }

    ghost function AllJobs(): set<Job>
      reads this, queues.Values
    {
      set name, job | name in queues && job in queues[name].jobs :: job
    }

    /** One pass over every queue, uninterrupted: no job's readiness changes at any time, and
        every scheduled job that was ready all through the pass becomes pending. */
    method ProcessScheduledJobs(readings: map<string, seq<int>>)
      requires forall name | name in queues ::
                 queues[name].Valid() && name in readings && |readings[name]| >= |queues[name].jobs|
      modifies AllJobs()`status
      ensures forall job, now | job in AllJobs() :: job.IsReady(now) <==> old(job.IsReady(now))
      ensures forall name | name in queues :: Passed(queues[name].jobs, readings[name])
    {
      PassAll(readings, AllJobs());
    }

    /** In these queues no job is left scheduled that was ready all through the pass. */
    ghost predicate AllPassed(names: set<string>, readings: map<string, seq<int>>, all: set<Job>)
      reads this, queues.Values, all
    {
      forall name, job | name in names && name in queues && name in readings && job in queues[name].jobs
        && job in all ::
        job.status == Scheduled ==> !Overdue(job.scheduledAt, readings[name])
    }

    /** The loop over the queues. */
    method PassAll(readings: map<string, seq<int>>, ghost all: set<Job>)
      requires forall name | name in queues ::
                 queues[name].Valid() && name in readings && |readings[name]| >= |queues[name].jobs|
      requires forall name, job | name in queues && job in queues[name].jobs :: job in all
      modifies all`status
      ensures forall job | job in all :: job.status == old(job.status) || Renamed(job, old(job.status))
      ensures AllPassed(queues.Keys, readings, all)
    {
      var todo := queues.Keys;
      while todo != {}
        invariant todo <= queues.Keys
        invariant forall job | job in all :: job.status == old(job.status) || Renamed(job, old(job.status))
        invariant AllPassed(queues.Keys - todo, readings, all)
      {
        var name :| name in todo;
        PassQueue(name, readings, all, todo);
        todo := todo - {name};
      }
    }

    /** One queue's part of the pass, when only the queues in todo are left. */
    method PassQueue(name: string, readings: map<string, seq<int>>, ghost all: set<Job>, ghost todo: set<string>)
      requires name in queues && queues[name].Valid() && queues.Keys <= readings.Keys
      requires |readings[name]| >= |queues[name].jobs|
      requires forall other, job | other in queues && job in queues[other].jobs :: job in all
      requires AllPassed(queues.Keys - todo, readings, all)
      modifies all`status
      ensures forall job | job in all :: job.status == old(job.status) || Renamed(job, old(job.status))
      ensures AllPassed(queues.Keys - (todo - {name}), readings, all)
    {
      Promotion.ProcessScheduledJobs(queues[name], readings[name]);
    }
  }

  /** A job scheduled for this time is ready whenever it is looked at. */
  predicate Overdue(scheduledAt: Option<int>, readings: seq<int>) {
    forall k | 0 <= k < |readings| :: Ready(Scheduled, scheduledAt, readings[k])
  }

  /** No job is left scheduled that is ready at all these times. */
  ghost predicate Passed(jobs: seq<Job>, readings: seq<int>)
    reads jobs
  {
    forall job | job in jobs && job.status == Scheduled :: !Overdue(job.scheduledAt, readings)
  }

  ghost predicate Renamed(job: Job, before: Status)
    reads job
  {
    job.status == Pending && before == Scheduled && job.scheduledAt.Some?
  }

  class Worker {
    const queue: MemoryQueue
    const processor: JobProcessor
    var currentJob: Job?
    var completedJobs: nat
    var failedJobs: nat

    constructor (queue: MemoryQueue, processor: JobProcessor)
      ensures this.queue == queue && this.processor == processor
      ensures currentJob == null && completedJobs == 0 && failedJobs == 0
    {
      this.queue, this.processor := queue, processor;
      currentJob, completedJobs, failedJobs := null, 0, 0;
    }

    ghost predicate Valid()
      reads this, queue, processor, processor.deadLetterQueue
    {
      queue.Valid() && (processor.deadLetterQueue != null ==> processor.deadLetterQueue.Valid())
    }

    /** Whether the worker works on the dead-letter queue itself. */
    ghost predicate OnDeadLetters()
      reads processor
    {
      queue == processor.deadLetterQueue
    }

    /** The worker's queue, another dead-letter queue, and the counters. */
    ghost function View(): Sight
      reads queue, processor, processor.deadLetterQueue
    {
      var deadLetters := processor.deadLetterQueue;
      Sight(multiset(queue.jobs),
            if deadLetters != null && deadLetters != queue then multiset(deadLetters.jobs) else multiset{},
            deadLetters != null, processor.metrics)
    }

    /** Processes a popped job. A scheduled retry counts as completed here, and puts the
        job in no queue. */
    method Work(job: Job, fails: bool, base: int, now: int, jitter: nat, wild: int) returns (outcome: Outcome)
      requires Valid()
      modifies this, processor`metrics, processor.deadLetterQueue, job
      ensures Valid() && currentJob == null
      ensures View() == Finished(old(View()), OnDeadLetters(), job, outcome)
      ensures outcome == old(processor.EndOf(job, fails, base, wild))
      ensures Seen(job) == Turned(old(Seen(job)), outcome, job.scheduledAt)
      ensures outcome == RetryScheduled ==> job.scheduledAt.Some?
      ensures completedJobs == old(completedJobs) + (if outcome in {Outcome.Completed, RetryScheduled} then 1 else 0)
      ensures failedJobs == old(failedJobs) + (if outcome in {NoHandler, FailedForGood} then 1 else 0)
    {
      currentJob := job;
      outcome := processor.ProcessJob(job, fails, base, now, jitter, wild);
      Count(outcome);
      currentJob := null;
    }

    method Count(outcome: Outcome)
      modifies this`completedJobs, this`failedJobs
      ensures completedJobs == old(completedJobs) + (if outcome in {Outcome.Completed, RetryScheduled} then 1 else 0)
      ensures failedJobs == old(failedJobs) + (if outcome in {NoHandler, FailedForGood} then 1 else 0)
    {
      if outcome == Outcome.Completed || outcome == RetryScheduled {
        completedJobs := completedJobs + 1;
      } else if outcome != Panicked {
        failedJobs := failedJobs + 1;
      }
    }

    ghost predicate FoundReady(job: Job, readings: seq<int>)
      reads job
    {
      exists k | 0 <= k < |readings| :: job.IsReady(readings[k])
    }

    /** What the turn needs to know of Pop. */
    method Take(readings: seq<int>) returns (job: Job?)
      requires queue.Valid() && (queue.jobs != [] ==> Clock(readings, |queue.jobs|))
      modifies queue
      ensures queue.Valid()
      ensures job == null ==> queue.jobs == old(queue.jobs)
      ensures job != null ==>
                && job in old(queue.jobs) && FoundReady(job, readings)
                && multiset(queue.jobs) == old(multiset(queue.jobs)) - multiset{job}
    {
      ghost var before := multiset(queue.jobs);
      job := queue.TryPop(readings);
      if job != null {
        assert job in before;
        assert multiset(queue.jobs) == before - multiset{job};
      }
    }

    method PopJob(readings: seq<int>) returns (job: Job?)
      requires Valid() && (queue.jobs != [] ==> Clock(readings, |queue.jobs|))
      modifies queue
      ensures Valid()
      ensures job == null ==> View() == old(View()) && queue.jobs == old(queue.jobs)
      ensures job != null ==>
                && job in old(queue.jobs) && FoundReady(job, readings)
                && View() == Taken(old(View()), job)
    {
      job := Take(readings);
    }

    /** One turn: nothing, if no job is ready; otherwise one job is taken and processed. */
    method ProcessNextJob(readings: seq<int>, fails: bool, base: int, now: int, jitter: nat, wild: int)
      returns (job: Job?, outcome: Outcome)
      requires Valid() && (queue.jobs != [] ==> Clock(readings, |queue.jobs|))
      modifies this, queue, processor`metrics, processor.deadLetterQueue, queue.jobs
      ensures Valid()
      ensures job == null ==> View() == old(View()) && queue.jobs == old(queue.jobs) && currentJob == old(currentJob)
      ensures job != null ==>
                && job in old(queue.jobs) && old(FoundReady(job, readings)) && currentJob == null
                && outcome == old(processor.EndOf(job, fails, base, wild))
                && Seen(job) == Turned(old(Seen(job)), outcome, job.scheduledAt)
                && (outcome == RetryScheduled ==> job.scheduledAt.Some?)
                && View() == Finished(Taken(old(View()), job), OnDeadLetters(), job, outcome)
    {
      outcome := NoHandler;
      job := PopJob(readings);
      if job != null {
        outcome := Work(job, fails, base, now, jitter, wild);
      }
    }

    // ---------- The turn on the custody machine ----------

    /** The machine is configured as the worker is. */
    ghost predicate Configured(cfg: JobCustody.Config)
      reads processor
    {
      var deadLetters := processor.deadLetterQueue;
      && cfg.maxAttempts == processor.maxAttempts
      && cfg.deadLetter == (if deadLetters == null then None else Some(deadLetters.name))
      && (deadLetters != null && deadLetters != queue ==> deadLetters.name != queue.name)
    }

    /** The state shows the worker's queues and the counters. */
    ghost predicate Matches(cfg: JobCustody.Config, s: JobCustody.State)
      reads queue, processor, processor.deadLetterQueue
    {
      Configured(cfg) && InState(s, cfg, queue.name, View())
    }

    ghost predicate Recorded(s: JobCustody.State)
      reads queue, queue.jobs
    {
      forall job | job in queue.jobs :: job.id in s.records && s.records[job.id] == RecordOf(job)
    }

    /** The same turn, with the run of the machine that it is. */
    method Turn(readings: seq<int>, fails: bool, base: int, now: int, jitter: nat, wild: int,
                ghost cfg: JobCustody.Config, ghost s: JobCustody.State, ghost w: nat)
      returns (job: Job?, outcome: Outcome, ghost steps: seq<JobCustody.Step>, ghost t: JobCustody.State)
      requires Valid() && (queue.jobs != [] ==> Clock(readings, |queue.jobs|))
      requires JobCustody.Custody(s) && w !in s.work && Matches(cfg, s) && Recorded(s)
      modifies this, queue, processor`metrics, processor.deadLetterQueue, queue.jobs
      ensures Valid() && Matches(cfg, t) && JobCustody.Leads(s, cfg, steps, t)
      ensures if job == null then steps == []
              else job in old(queue.jobs) && IsTurn(steps, w, queue.name, job.id, outcome, job.scheduledAt)
                   && t.records == s.records[job.id := RecordOf(job)]
    {
      ghost var at;
      job, outcome, at := Proceed(readings, fails, base, now, jitter, wild, cfg);
      steps, t := [], s;
      if job != null {
        steps, t := TurnIsRun(s, cfg, w, queue.name, old(View()), job, at, outcome, Seen(job));
      }
    }

    /** The turn as the machine sees it; at: when the job was found ready. */
    method Proceed(readings: seq<int>, fails: bool, base: int, now: int, jitter: nat, wild: int,
                   ghost cfg: JobCustody.Config)
      returns (job: Job?, outcome: Outcome, ghost at: int)
      requires Valid() && (queue.jobs != [] ==> Clock(readings, |queue.jobs|)) && Configured(cfg)
      modifies this, queue, processor`metrics, processor.deadLetterQueue, queue.jobs
      ensures Valid() && Configured(cfg)
      ensures job == null ==> View() == old(View())
      ensures job != null ==>
                && job in old(queue.jobs) && old(job.IsReady(at)) && Fitting(cfg, old(RecordOf(job)), outcome)
                && RecordOf(job) == With(old(RecordOf(job)), Seen(job))
                && Seen(job) == Turned(ProgressOf(old(RecordOf(job))), outcome, job.scheduledAt)
                && (outcome == RetryScheduled ==> job.scheduledAt.Some?)
                && View() == Finished(Taken(old(View()), job), cfg.deadLetter == Some(queue.name), job, outcome)
    {
      ghost var onDeadLetters := OnDeadLetters();
      assert onDeadLetters <==> cfg.deadLetter == Some(queue.name);
      forall job: Job ensures Fitting(cfg, RecordOf(job), processor.EndOf(job, fails, base, wild)) {
        EndFits(cfg, job, fails, base, wild);
      }
      job, outcome := ProcessNextJob(readings, fails, base, now, jitter, wild);
      at := 0;
      if job != null {
        ghost var k :| 0 <= k < |readings| && old(job.IsReady(readings[k]));
        at := readings[k];
      }
    }

    lemma EndFits(cfg: JobCustody.Config, job: Job, fails: bool, base: int, wild: int)
      requires cfg.maxAttempts == processor.maxAttempts
      ensures Fitting(cfg, RecordOf(job), processor.EndOf(job, fails, base, wild))
    {
    }
  }
}
