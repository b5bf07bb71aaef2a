/** The in-memory priority queue of jobs/queue.go. */
module MemoryQueues {
  import opened Jobs

  function Keys(jobs: seq<Job>): (keys: seq<Key>)
    ensures |keys| == |jobs| && forall i | 0 <= i < |jobs| :: keys[i] == jobs[i].SortKey()
  {
    seq(|jobs|, i requires 0 <= i < |jobs| => jobs[i].SortKey())
  }

  /** The jobs' priorities have pairwise different weights, as those of the declared ones do. */
  ghost predicate Comparable(jobs: multiset<Job>) {
    forall a, b | a in jobs && b in jobs && a.priority != b.priority :: Weight(a.priority) != Weight(b.priority)
  }

  lemma DeclaredAreComparable(jobs: multiset<Job>)
    requires forall job | job in jobs :: Declared(job.priority)
    ensures Comparable(jobs)
  {
  }

  function Without<T>(s: seq<T>, i: nat): seq<T>
    requires i < |s|
  {
    s[..i] + s[i + 1..]
  }

  lemma WithoutContents<T>(s: seq<T>, i: nat)
    requires i < |s|
    ensures multiset(Without(s, i)) + multiset{s[i]} == multiset(s)
  {
    assert s == s[..i] + [s[i]] + s[i + 1..];
  }

  lemma Conserved<T>(rest: multiset<T>, popped: multiset<T>, removed: multiset<T>, item: T, all: multiset<T>)
    requires rest + multiset{item} == all
    ensures rest + (popped + multiset{item}) + removed == all + popped + removed
    ensures rest + popped + (removed + multiset{item}) == all + popped + removed
  {
  }

  /** A clock read once per job of a scan, never going back. */
  ghost predicate Clock(readings: seq<int>, n: nat) {
    |readings| >= n && n > 0 && forall i, j | 0 <= i < j < |readings| :: readings[i] <= readings[j]
  }

  // ---------- Sorting ----------

  /** Puts a job into a sequence, behind those that it does not precede: stands in for one
      round of the library's sort. */
  method Insert(jobs: seq<Job>, job: Job) returns (out: seq<Job>)
    ensures multiset(out) == multiset(jobs) + multiset{job}
    ensures Sorted(Keys(jobs)) && Comparable(multiset(jobs) + multiset{job}) ==> Sorted(Keys(out))
  {
    var i := 0;
    while i < |jobs| && !Precedes(job.SortKey(), jobs[i].SortKey())
      invariant 0 <= i <= |jobs|
      invariant forall k | 0 <= k < i :: !Precedes(job.SortKey(), jobs[k].SortKey())
    {
      i := i + 1;
    }
    out := jobs[..i] + [job] + jobs[i..];
    assert jobs == jobs[..i] + jobs[i..];
    if Sorted(Keys(jobs)) && Comparable(multiset(jobs) + multiset{job}) {
      InsertSorted(jobs, job, i);
    }
  }

  lemma InsertSorted(jobs: seq<Job>, job: Job, i: nat)
    requires Sorted(Keys(jobs)) && i <= |jobs| && Comparable(multiset(jobs) + multiset{job})
    requires forall k | 0 <= k < i :: !Precedes(job.SortKey(), jobs[k].SortKey())
    requires i < |jobs| ==> Precedes(job.SortKey(), jobs[i].SortKey())
    ensures Sorted(Keys(jobs[..i] + [job] + jobs[i..]))
  {
    var out := jobs[..i] + [job] + jobs[i..];
    forall a, b | 0 <= a < b < |out| ensures !Precedes(Keys(out)[b], Keys(out)[a]) {
      if a == i {
        Behind(jobs, job, i, b - 1);
      } else if b != i {
        assert !Precedes(Keys(jobs)[if b < i then b else b - 1], Keys(jobs)[if a < i then a else a - 1]);
      }
    }
  }

  /** What comes after the first job that the new one precedes does not precede the new one. */
  lemma Behind(jobs: seq<Job>, job: Job, i: nat, k: nat)
    requires Sorted(Keys(jobs)) && i <= k < |jobs| && Comparable(multiset(jobs) + multiset{job})
    requires Precedes(job.SortKey(), jobs[i].SortKey())
    ensures !Precedes(jobs[k].SortKey(), job.SortKey())
  {
    assert k == i || !Precedes(Keys(jobs)[k], Keys(jobs)[i]);
    var all := multiset(jobs) + multiset{job};
    assert job in all && jobs[i] in all && jobs[k] in all;
    assert job.priority != jobs[i].priority ==> Weight(job.priority) != Weight(jobs[i].priority);
    assert job.priority != jobs[k].priority ==> Weight(job.priority) != Weight(jobs[k].priority);
    assert jobs[i].priority != jobs[k].priority ==> Weight(jobs[i].priority) != Weight(jobs[k].priority);
  }

  /** What the library's sort promises: a permutation, which is ordered if the comparison is
      a strict weak order on these jobs. */
  method SortJobs(jobs: seq<Job>) returns (out: seq<Job>)
    ensures multiset(out) == multiset(jobs)
    ensures Comparable(multiset(jobs)) ==> Sorted(Keys(out))
  {
    out := [];
    for i := 0 to |jobs|
      invariant multiset(out) == multiset(jobs[..i])
      invariant Comparable(multiset(jobs)) ==> Sorted(Keys(out))
    {
      assert jobs[..i + 1] == jobs[..i] + [jobs[i]];
      PartComparable(jobs, i + 1);
      out := Insert(out, jobs[i]);
    }
    assert jobs[..|jobs|] == jobs;
  }

  lemma PartComparable(jobs: seq<Job>, i: nat)
    requires i <= |jobs|
    ensures Comparable(multiset(jobs)) ==> Comparable(multiset(jobs[..i]))
  {
    assert jobs == jobs[..i] + jobs[i..];
  }

  // ---------- The queue ----------

  class MemoryQueue {
    const name: string
    var jobs: seq<Job>
    ghost var pushed: multiset<Job>
    ghost var popped: multiset<Job>
    ghost var removed: multiset<Job>

    /** No job lost or made up since the queue was created, and sorted as long as only jobs of
        comparable priorities were pushed. */
    ghost predicate Valid()
      reads this
    {
      && multiset(jobs) + popped + removed == pushed
      && (Comparable(pushed) ==> Sorted(Keys(jobs)))
    }

    constructor (name: string)
      ensures Valid() && this.name == name && jobs == [] && pushed == multiset{}
    {
      this.name := name;
      jobs, pushed, popped, removed := [], multiset{}, multiset{}, multiset{};
    }

    method Push(job: Job)
      requires Valid()
      modifies this`jobs, this`pushed, job`queue
      ensures Valid() && job.queue == name
      ensures multiset(jobs) == old(multiset(jobs)) + multiset{job}
      ensures pushed == old(pushed) + multiset{job}
    {
      job.queue := name;
      jobs := jobs + [job];
      jobs := SortJobs(jobs);
      pushed := pushed + multiset{job};
      assert multiset(jobs) <= pushed;
    }

    /** The index of the first job found ready; the clock is read anew for each job. */
    method Scan(readings: seq<int>) returns (i: nat)
      requires jobs != [] ==> Clock(readings, |jobs|)
      ensures i <= |jobs| && (i < |jobs| ==> jobs[i].IsReady(readings[i]))
      ensures forall k | 0 <= k < i :: !jobs[k].IsReady(readings[k])
    {
      i := 0;
      while i < |jobs| && !jobs[i].IsReady(readings[i])
        invariant 0 <= i <= |jobs|
        invariant forall k | 0 <= k < i :: !jobs[k].IsReady(readings[k])
      {
        i := i + 1;
      }
    }

    /** One turn of Pop's polling loop. */
    method TryPop(readings: seq<int>) returns (job: Job?)
      requires Valid() && (jobs != [] ==> Clock(readings, |jobs|))
      modifies this`jobs, this`popped
      ensures Valid()
      ensures job == null ==> jobs == old(jobs) && popped == old(popped)
                              && forall k | 0 <= k < |jobs| :: !jobs[k].IsReady(readings[k])
      ensures job != null ==>
                && popped == old(popped) + multiset{job} && multiset(jobs) + multiset{job} == old(multiset(jobs))
                && TakesFirst(old(jobs), readings, job, jobs)
    {
      var i := Scan(readings);
      if i == |jobs| {
        return null;
      }
      assert First(jobs, readings, i);
      job := TakeAt(i);
    }

    method TakeAt(i: nat) returns (job: Job)
      requires Valid() && i < |jobs|
      modifies this`jobs, this`popped
      ensures Valid() && job == old(jobs)[i] && jobs == Without(old(jobs), i)
      ensures popped == old(popped) + multiset{job} && multiset(jobs) + multiset{job} == old(multiset(jobs))
    {
      job := jobs[i];
      Cut(i);
      Conserved(multiset(jobs), popped, removed, job, old(multiset(jobs)));
      popped := popped + multiset{job};
    }

    method Cut(i: nat)
      requires Valid() && i < |jobs|
      modifies this`jobs
      ensures jobs == Without(old(jobs), i) && multiset(jobs) + multiset{old(jobs)[i]} == old(multiset(jobs))
      ensures Comparable(pushed) ==> Sorted(Keys(jobs))
    {
      WithoutContents(jobs, i);
      if Comparable(pushed) {
        WithoutSorted(jobs, i);
      }
      jobs := Without(jobs, i);
    }

    method Peek(readings: seq<int>) returns (job: Job?)
      requires Valid() && (jobs != [] ==> Clock(readings, |jobs|))
      ensures job == null ==> forall k | 0 <= k < |jobs| :: !jobs[k].IsReady(readings[k])
      ensures job != null ==> exists i | 0 <= i < |jobs| :: First(jobs, readings, i) && job == jobs[i]
    {
      var i := Scan(readings);
      if i == |jobs| {
        return null;
      }
      assert First(jobs, readings, i);
      return jobs[i];
    }

    method Clear()
      requires Valid()
      modifies this`jobs, this`removed
      ensures Valid() && jobs == [] && removed == old(removed) + old(multiset(jobs))
    {
      removed := removed + multiset(jobs);
      jobs := [];
    }

    method RemoveJob(id: string) returns (found: bool)
      requires Valid()
      modifies this`jobs, this`removed
      ensures Valid()
      ensures found <==> exists i | 0 <= i < |old(jobs)| :: old(jobs)[i].id == id
      ensures !found ==> jobs == old(jobs) && removed == old(removed)
      ensures found ==> exists i | 0 <= i < |old(jobs)| ::
                          && old(jobs)[i].id == id && (forall k | 0 <= k < i :: old(jobs)[k].id != id)
                          && jobs == Without(old(jobs), i) && removed == old(removed) + multiset{old(jobs)[i]}
    {
      var i := IndexOf(id);
      if i == |jobs| {
        return false;
      }
      ghost var job := jobs[i];
      Cut(i);
      Conserved(multiset(jobs), popped, removed, job, old(multiset(jobs)));
      removed := removed + multiset{job};
      return true;
    }

    /** The index of the first job with the id, or the length. */
    method IndexOf(id: string) returns (i: nat)
      ensures i <= |jobs| && (i < |jobs| ==> jobs[i].id == id)
      ensures forall k | 0 <= k < i :: jobs[k].id != id
    {
      i := 0;
      while i < |jobs| && jobs[i].id != id
        invariant 0 <= i <= |jobs|
        invariant forall k | 0 <= k < i :: jobs[k].id != id
      {
        i := i + 1;
      }
    }

    method GetJobsByStatus(status: Status) returns (found: seq<Job>)
      ensures found == Matching(jobs, status)
    {
      found := [];
      for i := 0 to |jobs|
        invariant found == Matching(jobs[..i], status)
      {
        assert jobs[..i + 1][..i] == jobs[..i];
        if jobs[i].status == status {
          found := found + [jobs[i]];
        }
      }
      assert jobs[..|jobs|] == jobs;
    }
  }

  /** The jobs with a status, in their order. */
  ghost function Matching(jobs: seq<Job>, status: Status): seq<Job>
    reads jobs
  {
    if jobs == [] then []
    else
      var front, last := jobs[..|jobs| - 1], jobs[|jobs| - 1];
      Matching(front, status) + if last.status == status then [last] else []
  }

  lemma {:induction false} MatchingIs(jobs: seq<Job>, status: Status)
    ensures forall job :: job in Matching(jobs, status) <==> job in jobs && job.status == status
    ensures |Matching(jobs, status)| <= |jobs|
  {
    if jobs != [] {
      MatchingIs(jobs[..|jobs| - 1], status);
      assert jobs == jobs[..|jobs| - 1] + [jobs[|jobs| - 1]];
    }
  }

  /** Job i is the first found ready, each with its own clock reading. */
  ghost predicate First(jobs: seq<Job>, readings: seq<int>, i: nat)
    requires i < |jobs| && Clock(readings, |jobs|)
    reads jobs
  {
    jobs[i].IsReady(readings[i]) && forall k | 0 <= k < i :: !jobs[k].IsReady(readings[k])
  }

  /** What is left when the first job found ready is taken. */
  ghost predicate TakesFirst(jobs: seq<Job>, readings: seq<int>, job: Job, rest: seq<Job>)
    requires jobs != [] ==> Clock(readings, |jobs|)
    reads jobs
  {
    exists i | 0 <= i < |jobs| :: First(jobs, readings, i) && job == jobs[i] && rest == Without(jobs, i)
  }

  /** In a valid queue of comparable jobs none that was ready when the scan began beats the
      chosen one: that has the greatest priority, and of its priority it is the earliest
      created; and it is chosen only after its scheduled time. */
  lemma FirstIsBest(queue: MemoryQueue, readings: seq<int>, i: nat)
    requires queue.Valid() && i < |queue.jobs| && Clock(readings, |queue.jobs|) && First(queue.jobs, readings, i)
    requires Comparable(queue.pushed)
    ensures forall k | 0 <= k < |queue.jobs| && queue.jobs[k].IsReady(readings[0]) ::
              var other, chosen := queue.jobs[k], queue.jobs[i];
              && !Precedes(other.SortKey(), chosen.SortKey())
              && if other.priority == chosen.priority then chosen.createdAt <= other.createdAt
                 else Rank(other.priority) < Rank(chosen.priority)
    ensures queue.jobs[i].scheduledAt.Some? ==> queue.jobs[i].scheduledAt.value < readings[i]
  {
    var jobs := queue.jobs;
    forall k | 0 <= k < |jobs| && jobs[k].IsReady(readings[0])
      ensures !Precedes(jobs[k].SortKey(), jobs[i].SortKey())
      ensures jobs[k].priority != jobs[i].priority ==> Rank(jobs[k].priority) < Rank(jobs[i].priority)
    {
      OrderIs(jobs[i].SortKey(), jobs[k].SortKey());
      assert jobs[k] in multiset(jobs) && jobs[i] in multiset(jobs);
      assert jobs[k] in queue.pushed && jobs[i] in queue.pushed;
      if k > i {
        assert !Precedes(Keys(jobs)[k], Keys(jobs)[i]);
      }
    }
  }

  lemma WithoutSorted(jobs: seq<Job>, i: nat)
    requires i < |jobs| && Sorted(Keys(jobs))
    ensures Sorted(Keys(Without(jobs, i)))
  {
    var rest := Without(jobs, i);
    forall a, b | 0 <= a < b < |rest| ensures !Precedes(Keys(rest)[b], Keys(rest)[a]) {
      var a', b' := if a < i then a else a + 1, if b < i then b else b + 1;
      assert !Precedes(Keys(jobs)[b'], Keys(jobs)[a']);
    }
  }
}
