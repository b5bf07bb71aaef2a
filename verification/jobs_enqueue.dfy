/** Enqueue looks at the queue's size and pushes later: how far concurrent callers can
    overshoot the maximum. */
module BoundedEnqueue {

  /** passed: the callers that saw room and have not pushed yet. */
  datatype State = State(size: nat, passed: set<nat>, rejected: nat)

  datatype Step =
    | Check(caller: nat)
    | Push(caller: nat)
    | Pop
    | Clear

  const START: State := State(0, {}, 0)

  /** Callers are numbered below callers; each is in at most one Enqueue. */
  predicate Enabled(s: State, callers: nat, step: Step) {
    match step
    case Check(c) => c < callers && c !in s.passed
    case Push(c) => c in s.passed
    case Pop => s.size > 0
    case Clear => true
  }

  /** A maximum below one means no limit. */
  function Next(s: State, max: int, step: Step): State {
    match step
    case Check(c) =>
      if max > 0 && s.size >= max then s.(rejected := s.rejected + 1) else s.(passed := s.passed + {c})
    case Push(c) => s.(passed := s.passed - {c}, size := s.size + 1)
    case Pop => if s.size > 0 then s.(size := s.size - 1) else s
    case Clear => s.(size := 0)
  }

  function Run(s: State, max: int, steps: seq<Step>): State
    decreases |steps|
  {
    if steps == [] then s else Run(Next(s, max, steps[0]), max, steps[1..])
  }

  predicate Legal(s: State, callers: nat, max: int, steps: seq<Step>)
    decreases |steps|
  {
    steps == [] || (Enabled(s, callers, steps[0]) && Legal(Next(s, max, steps[0]), callers, max, steps[1..]))
  }

  /** Jobs queued and jobs about to be pushed never exceed max - 1 + callers. */
  ghost predicate Within(s: State, callers: nat, max: int) {
    && (forall c | c in s.passed :: c < callers)
    && s.size + |s.passed| <= max - 1 + callers
  }

  lemma {:induction false} Below(n: nat) returns (all: set<nat>)
    ensures |all| == n && forall c: nat :: c in all <==> c < n
  {
    all := {};
    for i := 0 to n
      invariant |all| == i && forall c: nat :: c in all <==> c < i
    {
      all := all + {i};
    }
  }

  lemma FewPass(passed: set<nat>, callers: nat)
    requires forall c | c in passed :: c < callers
    ensures |passed| <= callers
  {
    var all := Below(callers);
    assert passed <= all;
    Subset(passed, all);
  }

  lemma {:induction false} Subset(a: set<nat>, b: set<nat>)
    requires a <= b
    ensures |a| <= |b|
    decreases |a|
  {
    if x :| x in a {
      Subset(a - {x}, b - {x});
    }
  }

  lemma StepWithin(s: State, callers: nat, max: int, step: Step)
    requires max >= 1 && Within(s, callers, max) && Enabled(s, callers, step)
    ensures Within(Next(s, max, step), callers, max)
  {
    if step.Check? && s.size < max {
      FewPass(s.passed + {step.caller}, callers);
    }
  }

  lemma {:induction false} RunWithin(s: State, callers: nat, max: int, steps: seq<Step>)
    requires max >= 1 && Within(s, callers, max) && Legal(s, callers, max, steps)
    ensures Within(Run(s, max, steps), callers, max)
    decreases |steps|
  {
    if steps != [] {
      StepWithin(s, callers, max, steps[0]);
      RunWithin(Next(s, max, steps[0]), callers, max, steps[1..]);
    }
  }

  /** The bound: with a limit and at least one caller, whatever pops come between. */
  lemma Overshoot(callers: nat, max: int, steps: seq<Step>)
    requires max >= 1 && callers >= 1 && Legal(START, callers, max, steps)
    ensures Run(START, max, steps).size <= max - 1 + callers
    ensures callers == 1 ==> Run(START, max, steps).size <= max
  {
    RunWithin(START, callers, max, steps);
  }

  // ---------- The bound is reached ----------

  /** Callers from up to below callers check one after the other. */
  function Checks(from: nat, callers: nat): seq<Step>
    requires from <= callers
    decreases callers - from
  {
    if from == callers then [] else [Check(from)] + Checks(from + 1, callers)
  }

  function Pushes(from: nat, callers: nat): seq<Step>
    requires from <= callers
    decreases callers - from
  {
    if from == callers then [] else [Push(from)] + Pushes(from + 1, callers)
  }

  /** One caller fills the queue. */
  function Fill(n: nat): seq<Step> {
    if n == 0 then [] else [Check(0), Push(0)] + Fill(n - 1)
  }

  lemma {:induction false} RunAppend(s: State, callers: nat, max: int, a: seq<Step>, b: seq<Step>)
    requires Legal(s, callers, max, a) && Legal(Run(s, max, a), callers, max, b)
    ensures Legal(s, callers, max, a + b) && Run(s, max, a + b) == Run(Run(s, max, a), max, b)
    decreases |a|
  {
    if a == [] {
      assert a + b == b;
    } else {
      assert (a + b)[1..] == a[1..] + b;
      RunAppend(Next(s, max, a[0]), callers, max, a[1..], b);
    }
  }

  lemma {:induction false} FillRuns(s: State, callers: nat, max: int, n: nat)
    requires callers >= 1 && s.passed == {} && s.size + n < max
    ensures Legal(s, callers, max, Fill(n)) && Run(s, max, Fill(n)) == s.(size := s.size + n)
    decreases n
  {
    if n > 0 {
      var t := s.(size := s.size + 1);
      var u := Next(s, max, Check(0));
      assert u.passed == {0} && Next(u, max, Push(0)) == t;
      FillRuns(t, callers, max, n - 1);
      assert Fill(n)[1..] == [Push(0)] + Fill(n - 1);
      assert Fill(n)[1..][1..] == Fill(n - 1);
    }
  }

  lemma {:induction false} ChecksRun(s: State, callers: nat, max: int, from: nat)
    requires from <= callers && s.size < max && forall c: nat :: c in s.passed <==> c < from
    ensures Legal(s, callers, max, Checks(from, callers))
    ensures var t := Run(s, max, Checks(from, callers));
            t.size == s.size && forall c: nat :: c in t.passed <==> c < callers
    decreases callers - from
  {
    if from < callers {
      ChecksRun(Next(s, max, Check(from)), callers, max, from + 1);
      assert Checks(from, callers)[1..] == Checks(from + 1, callers);
    }
  }

  lemma {:induction false} PushesRun(s: State, callers: nat, max: int, from: nat)
    requires from <= callers && forall c: nat :: c in s.passed <==> from <= c < callers
    ensures Legal(s, callers, max, Pushes(from, callers))
    ensures Run(s, max, Pushes(from, callers)).size == s.size + callers - from
    decreases callers - from
  {
    if from < callers {
      PushesRun(Next(s, max, Push(from)), callers, max, from + 1);
      assert Pushes(from, callers)[1..] == Pushes(from + 1, callers);
    }
  }

  /** For every limit and number of callers some run ends with max - 1 + callers jobs. */
  lemma OvershootIsReached(callers: nat, max: int) returns (steps: seq<Step>)
    requires max >= 1 && callers >= 1
    ensures Legal(START, callers, max, steps) && Run(START, max, steps).size == max - 1 + callers
  {
    var full := START.(size := max - 1);
    FillRuns(START, callers, max, max - 1);
    ChecksRun(full, callers, max, 0);
    var checked := Run(full, max, Checks(0, callers));
    PushesRun(checked, callers, max, 0);
    RunAppend(START, callers, max, Fill(max - 1), Checks(0, callers));
    steps := Fill(max - 1) + Checks(0, callers) + Pushes(0, callers);
    RunAppend(START, callers, max, Fill(max - 1) + Checks(0, callers), Pushes(0, callers));
  }
}
