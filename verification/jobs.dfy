/** Background jobs: their states, readiness, and the order in which a queue keeps them.
    Times and durations are whole nanoseconds. */
module Jobs {
  import opened Basics

  datatype Status = Pending | Running | Completed | Failed | Retrying | Cancelled | Scheduled

  const LOW := 0
  const NORMAL := 1
  const HIGH := 2
  const CRITICAL := 3

  function Weight(priority: int): int {
    if priority == CRITICAL then 1000
    else if priority == HIGH then 100
    else if priority == NORMAL then 10
    else if priority == LOW then 1
    else 10
  }

  predicate Declared(priority: int) {
    LOW <= priority <= CRITICAL
  }

  // ---------- The order of a queue ----------

  /** What the order looks at. */
  datatype Key = Key(priority: int, createdAt: int)

  /** The comparison that Push hands to the sort. */
  predicate Precedes(a: Key, b: Key) {
    if a.priority != b.priority then Weight(a.priority) > Weight(b.priority) else a.createdAt < b.createdAt
  }

  /** The place of a priority among the declared ones; an undeclared one counts as normal. */
  function Rank(priority: int): int {
    if Declared(priority) then priority else NORMAL
  }

  /** The order that the weights bring about: the greater priority first, the earlier creation
      first among jobs of one priority, and nothing between undeclared and normal ones. */
  lemma OrderIs(a: Key, b: Key)
    ensures Precedes(a, b) <==> if a.priority == b.priority then a.createdAt < b.createdAt
                                else Rank(a.priority) > Rank(b.priority)
    ensures Declared(a.priority) && Declared(b.priority) ==>
              (Precedes(a, b)
               <==> a.priority > b.priority || (a.priority == b.priority && a.createdAt < b.createdAt))
  {
  }

  predicate Tied(a: Key, b: Key) {
    !Precedes(a, b) && !Precedes(b, a)
  }

  /** A sort promises something only for a strict weak order: ties must be transitive. */
  predicate Consistent(a: Key, b: Key, c: Key) {
    && !Precedes(a, a)
    && (Precedes(a, b) && Precedes(b, c) ==> Precedes(a, c))
    && (Tied(a, b) && Tied(b, c) ==> Tied(a, c))
  }

  ghost predicate StrictWeak(priorities: set<int>) {
    forall a: Key, b: Key, c: Key |
      a.priority in priorities && b.priority in priorities && c.priority in priorities :: Consistent(a, b, c)
  }

  ghost predicate Apart(priorities: set<int>) {
    forall p, q | p in priorities && q in priorities && p != q :: Weight(p) != Weight(q)
  }

  /** The comparison is a strict weak order exactly on priorities of different weights. */
  lemma StrictWeakIff(priorities: set<int>)
    ensures StrictWeak(priorities) <==> Apart(priorities)
  {
    if Apart(priorities) {
      forall a: Key, b: Key, c: Key | a.priority in priorities && b.priority in priorities && c.priority in priorities
        ensures Consistent(a, b, c)
      {
        assert a.priority != b.priority ==> Weight(a.priority) != Weight(b.priority);
        assert b.priority != c.priority ==> Weight(b.priority) != Weight(c.priority);
        assert a.priority != c.priority ==> Weight(a.priority) != Weight(c.priority);
      }
    } else {
      var p, q :| p in priorities && q in priorities && p != q && Weight(p) == Weight(q);
      assert !Consistent(Key(p, 0), Key(q, 0), Key(p, 1));
    }
  }

  /** The four declared priorities are such a set; an undeclared one goes neither with
      another undeclared one nor with the normal one. */
  lemma DeclaredIsStrictWeak()
    ensures StrictWeak({LOW, NORMAL, HIGH, CRITICAL})
    ensures forall p, q | !Declared(p) && !Declared(q) && p != q :: !StrictWeak({p, q})
    ensures forall p | !Declared(p) :: !StrictWeak({NORMAL, p})
  {
    StrictWeakIff({LOW, NORMAL, HIGH, CRITICAL});
    forall p, q | !Declared(p) && !Declared(q) && p != q ensures !StrictWeak({p, q}) {
      StrictWeakIff({p, q});
      assert Weight(p) == Weight(q);
    }
    forall p | !Declared(p) ensures !StrictWeak({NORMAL, p}) {
      StrictWeakIff({NORMAL, p});
      assert Weight(p) == Weight(NORMAL);
    }
  }

  /** No later job strictly precedes an earlier one. */
  ghost predicate Sorted(keys: seq<Key>) {
    forall i, j | 0 <= i < j < |keys| :: !Precedes(keys[j], keys[i])
  }

  // ---------- Readiness ----------

  /** After, not at, the scheduled time; a scheduled job without a time is never ready. */
  predicate Ready(status: Status, scheduledAt: Option<int>, now: int) {
    (status == Pending || status == Scheduled)
    && if scheduledAt.Some? then now > scheduledAt.value else status == Pending
  }

  /** Status Pending and Scheduled do not differ once a time is set. */
  lemma ReadyAlike(scheduledAt: Option<int>, now: int)
    ensures Ready(Pending, scheduledAt, now) == Ready(Scheduled, scheduledAt, now)
            <==> scheduledAt.Some?
  {
  }

  /** A job's own maximum counts when it has one. */
  function MaxAttempts(ofJob: int, ofConfig: int): int {
    if ofJob > 0 then ofJob else ofConfig
  }

  class Job {
    const id: string
    const kind: string
    const priority: int
    const maxAttempts: int
    const createdAt: int
    var queue: string
    var status: Status
    var attempts: int
    var scheduledAt: Option<int>

    constructor (id: string, kind: string, queue: string, priority: int, maxAttempts: int, now: int)
      ensures this.id == id && this.kind == kind && this.priority == priority && this.maxAttempts == maxAttempts
      ensures createdAt == now && this.queue == queue && status == Pending && attempts == 0 && scheduledAt == None
    {
      this.id, this.kind, this.priority, this.maxAttempts, createdAt := id, kind, priority, maxAttempts, now;
      this.queue, status, attempts, scheduledAt := queue, Pending, 0, None;
    }

    function SortKey(): Key {
      Key(priority, createdAt)
    }

    predicate IsReady(now: int)
      reads this
    {
      Ready(status, scheduledAt, now)
    }

    method WithScheduledAt(at: int)
      modifies this`scheduledAt, this`status
      ensures scheduledAt == Some(at) && status == Scheduled
      ensures forall now :: IsReady(now) <==> now > at
    {
      scheduledAt := Some(at);
      status := Scheduled;
    }

    method MarkRunning()
      modifies this`status
      ensures status == Running && forall now :: !IsReady(now)
    {
      status := Running;
    }

    method MarkCompleted()
      modifies this`status
      ensures status == Completed && forall now :: !IsReady(now)
    {
      status := Completed;
    }

    method MarkFailed()
      modifies this`status
      ensures status == Failed && forall now :: !IsReady(now)
    {
      status := Failed;
    }

    method MarkRetrying()
      modifies this`status, this`attempts
      ensures status == Retrying && attempts == old(attempts) + 1
    {
      status := Retrying;
      attempts := attempts + 1;
    }
  }
}
