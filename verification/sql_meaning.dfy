/** Which rows a printed condition list picks: AND before OR, with three truth values
    (section 8.12 of ISO/IEC 9075:1992). */
module SqlMeaning {
  import opened Sql
  import opened SqlGrammar
  import opened SqlParser
  import opened SqlReading
  import opened SqlRoundTrip
  import opened SqlStatements

  datatype Truth = True | False | Unknown

  function Conjunction(a: Truth, b: Truth): Truth {
    if a == False || b == False then False else if a == True && b == True then True else Unknown
  }

  function Disjunction(a: Truth, b: Truth): Truth {
    if a == True || b == True then True else if a == False && b == False then False else Unknown
  }

  /** A condition without its connective; a verdict says how each test comes out on a row. */
  function Test(c: Cond): Cond {
    c.(logic := And)
  }

  // ---------- The grammar: a tree over the flat list ----------

  datatype Tree = Leaf(test: Cond) | Both(left: Tree, right: Tree) | Either(left: Tree, right: Tree)

  function Link(logic: Logic, cs: seq<Cond>): seq<Cond>
    requires cs != []
  {
    [cs[0].(logic := logic)] + cs[1..]
  }

  /** The conditions as a reader meets them, each with the connective before it. */
  function Yield(t: Tree): (cs: seq<Cond>)
    ensures cs != [] && cs[0].logic == And
  {
    match t
    case Leaf(c) => [Test(c)]
    case Both(l, r) => Yield(l) + Link(And, Yield(r))
    case Either(l, r) => Yield(l) + Link(Or, Yield(r))
  }

  predicate OnlyAnds(t: Tree) {
    match t
    case Leaf(_) => true
    case Both(l, r) => OnlyAnds(l) && OnlyAnds(r)
    case Either(_, _) => false
  }

  /** No parentheses are printed, so AND binds before OR. */
  predicate Grouped(t: Tree) {
    match t
    case Leaf(_) => true
    case Both(_, _) => OnlyAnds(t)
    case Either(l, r) => Grouped(l) && Grouped(r)
  }

  function Eval(t: Tree, verdict: Cond -> Truth): Truth {
    match t
    case Leaf(c) => verdict(Test(c))
    case Both(l, r) => Conjunction(Eval(l, verdict), Eval(r, verdict))
    case Either(l, r) => Disjunction(Eval(l, verdict), Eval(r, verdict))
  }

  // ---------- The flat reading: some AND-group holds ----------

  /** Conditions i up to j form a maximal group joined by AND. */
  predicate Group(cs: seq<Cond>, i: nat, j: nat) {
    && i < j <= |cs|
    && (i == 0 || cs[i].logic == Or) && (j == |cs| || cs[j].logic == Or)
    && forall k | i < k < j :: cs[k].logic == And
  }

  predicate Holds(cs: seq<Cond>, i: nat, j: nat, verdict: Cond -> Truth)
    requires i <= j <= |cs|
  {
    forall k | i <= k < j :: verdict(Test(cs[k])) == True
  }

  ghost predicate Satisfied(cs: seq<Cond>, verdict: Cond -> Truth) {
    exists i: nat, j: nat :: Group(cs, i, j) && Holds(cs, i, j, verdict)
  }

  /** A statement without conditions picks every row. */
  ghost predicate Picks(cs: seq<Cond>, verdict: Cond -> Truth) {
    cs == [] || Satisfied(cs, verdict)
  }

  lemma {:induction false} OnlyAndsEval(t: Tree, verdict: Cond -> Truth)
    requires OnlyAnds(t)
    ensures forall k | 0 <= k < |Yield(t)| :: Yield(t)[k].logic == And
    ensures Eval(t, verdict) == True <==> Holds(Yield(t), 0, |Yield(t)|, verdict)
  {
    if t.Both? {
      OnlyAndsEval(t.left, verdict);
      OnlyAndsEval(t.right, verdict);
      var l, r := Yield(t.left), Yield(t.right);
      assert Link(And, r) == r;
      HoldsAppend(l, r, verdict);
    }
  }

  lemma HoldsAppend(l: seq<Cond>, r: seq<Cond>, verdict: Cond -> Truth)
    ensures Holds(l + r, 0, |l + r|, verdict) <==> Holds(l, 0, |l|, verdict) && Holds(r, 0, |r|, verdict)
  {
    var cs := l + r;
    if Holds(cs, 0, |cs|, verdict) {
      forall k | 0 <= k < |l| ensures verdict(Test(l[k])) == True {
        assert cs[k] == l[k];
      }
      forall k | 0 <= k < |r| ensures verdict(Test(r[k])) == True {
        assert cs[|l| + k] == r[k];
      }
    }
  }

  lemma OneGroup(cs: seq<Cond>, verdict: Cond -> Truth)
    requires cs != [] && forall k | 0 <= k < |cs| :: cs[k].logic == And
    ensures Satisfied(cs, verdict) <==> Holds(cs, 0, |cs|, verdict)
  {
    assert Group(cs, 0, |cs|);
  }

  /** A group on one side of an OR is a group of the whole list. */
  lemma GroupAcross(l: seq<Cond>, r: seq<Cond>, i: nat, j: nat)
    requires l != [] && r != []
    ensures j <= |l| ==> (Group(l + Link(Or, r), i, j) <==> Group(l, i, j))
    ensures Group(l + Link(Or, r), |l| + i, |l| + j) <==> Group(r, i, j)
    ensures Group(l + Link(Or, r), i, j) ==> j <= |l| || i >= |l|
  {
    var cs := l + Link(Or, r);
    assert cs[|l|].logic == Or && |cs| == |l| + |r|;
    assert forall k | 0 <= k < |l| :: cs[k] == l[k];
    assert forall k | 0 < k < |r| :: cs[|l| + k] == r[k];
    if Group(cs, |l| + i, |l| + j) {
      forall k | i < k < j ensures r[k].logic == And {
        assert cs[|l| + k].logic == And;
      }
    }
    if Group(r, i, j) {
      forall k | |l| + i < k < |l| + j ensures cs[k].logic == And {
        assert r[k - |l|].logic == And;
      }
    }
  }

  lemma HoldsAcross(l: seq<Cond>, r: seq<Cond>, i: nat, j: nat, verdict: Cond -> Truth)
    requires l != [] && r != [] && i <= j
    ensures j <= |l| ==> (Holds(l + Link(Or, r), i, j, verdict) <==> Holds(l, i, j, verdict))
    ensures j <= |r| ==> (Holds(l + Link(Or, r), |l| + i, |l| + j, verdict) <==> Holds(r, i, j, verdict))
  {
    var cs := l + Link(Or, r);
    assert forall k | 0 <= k < |l| :: cs[k] == l[k];
    assert forall k | 0 <= k < |r| :: Test(cs[|l| + k]) == Test(r[k]);
    if j <= |r| && Holds(r, i, j, verdict) {
      forall k | |l| + i <= k < |l| + j ensures verdict(Test(cs[k])) == True {
        assert verdict(Test(r[k - |l|])) == True;
      }
    }
    if j <= |r| && Holds(cs, |l| + i, |l| + j, verdict) {
      forall k | i <= k < j ensures verdict(Test(r[k])) == True {
        assert verdict(Test(cs[|l| + k])) == True;
      }
    }
  }

  lemma SatisfiedSplits(l: seq<Cond>, r: seq<Cond>, verdict: Cond -> Truth)
    requires l != [] && r != []
    ensures Satisfied(l + Link(Or, r), verdict) <==> Satisfied(l, verdict) || Satisfied(r, verdict)
  {
    var cs := l + Link(Or, r);
    if Satisfied(cs, verdict) {
      var i: nat, j: nat :| Group(cs, i, j) && Holds(cs, i, j, verdict);
      GroupAcross(l, r, i, j);
      if j <= |l| {
        HoldsAcross(l, r, i, j, verdict);
        assert Group(l, i, j) && Holds(l, i, j, verdict);
      } else {
        var a, b := i - |l|, j - |l|;
        assert |l| + a == i && |l| + b == j;
        GroupAcross(l, r, a, b);
        HoldsAcross(l, r, a, b, verdict);
        assert Group(r, a, b) && Holds(r, a, b, verdict);
      }
    }
    if Satisfied(l, verdict) {
      var i: nat, j: nat :| Group(l, i, j) && Holds(l, i, j, verdict);
      GroupAcross(l, r, i, j);
      HoldsAcross(l, r, i, j, verdict);
      assert Group(cs, i, j) && Holds(cs, i, j, verdict);
    }
    if Satisfied(r, verdict) {
      var i: nat, j: nat :| Group(r, i, j) && Holds(r, i, j, verdict);
      GroupAcross(l, r, i, j);
      HoldsAcross(l, r, i, j, verdict);
      assert Group(cs, |l| + i, |l| + j) && Holds(cs, |l| + i, |l| + j, verdict);
    }
  }

  /** However a reader parses the flat list, as long as AND binds first, a row is picked
      exactly when every test of some maximal AND-group is true on it. */
  lemma {:induction false} TreeMeans(t: Tree, verdict: Cond -> Truth)
    requires Grouped(t)
    ensures Eval(t, verdict) == True <==> Satisfied(Yield(t), verdict)
  {
    if t.Either? {
      TreeMeans(t.left, verdict);
      TreeMeans(t.right, verdict);
      SatisfiedSplits(Yield(t.left), Yield(t.right), verdict);
    } else {
      OnlyAndsEval(t, verdict);
      OneGroup(Yield(t), verdict);
    }
  }

  // ---------- Every list has such a tree ----------

  /** One more condition joined by AND belongs to the last group. */
  function Attach(t: Tree, c: Cond): Tree {
    if t.Either? then Either(t.left, Attach(t.right, c)) else Both(t, Leaf(c))
  }

  lemma {:induction false} AttachYields(t: Tree, c: Cond)
    requires Grouped(t)
    ensures Grouped(Attach(t, c)) && Yield(Attach(t, c)) == Yield(t) + [Test(c)]
  {
    if t.Either? {
      AttachYields(t.right, c);
      assert Link(Or, Yield(t.right) + [Test(c)]) == Link(Or, Yield(t.right)) + [Test(c)];
      Assoc(Yield(t.left), Link(Or, Yield(t.right)), [Test(c)]);
    }
  }

  function TreeOf(cs: seq<Cond>): Tree
    requires cs != []
  {
    var c := cs[|cs| - 1];
    if |cs| == 1 then Leaf(c)
    else if c.logic == And then Attach(TreeOf(cs[..|cs| - 1]), c)
    else Either(TreeOf(cs[..|cs| - 1]), Leaf(c))
  }

  lemma {:induction false} TreeOfYields(cs: seq<Cond>)
    requires cs != [] && cs[0].logic == And
    ensures Grouped(TreeOf(cs)) && Yield(TreeOf(cs)) == cs
  {
    var c, front := cs[|cs| - 1], cs[..|cs| - 1];
    assert cs == front + [c];
    if |cs| > 1 {
      TreeOfYields(front);
      if c.logic == And {
        AttachYields(TreeOf(front), c);
      }
    }
  }

  /** The tree a database builds and the flat reading agree, on every list of conditions. */
  lemma PicksIsTree(cs: seq<Cond>, verdict: Cond -> Truth)
    requires cs != [] && cs[0].logic == And
    ensures Picks(cs, verdict) <==> Eval(TreeOf(cs), verdict) == True
  {
    TreeOfYields(cs);
    TreeMeans(TreeOf(cs), verdict);
  }

  // ---------- The three statements ----------

  /** SELECT, UPDATE and DELETE printed from the same conditions are read with the same
      conditions, so they pick the same rows. */
  lemma SameRows(s: Select, data: seq<Assignment>, verdict: Cond -> Truth)
    requires WellBuiltSelect(s)
    ensures var selected := Parse(Tokens(Single(s)), Params(Single(s)));
            var update, delete := Update(s.table, data, s.wheres), Delete(s.table, s.wheres);
            var updated := ParseStatement(StatementTokens(update), StatementParams(update));
            var deleted := ParseStatement(StatementTokens(delete), StatementParams(delete));
            && selected.Some? && updated.Some? && deleted.Some?
            && (Picks(selected.value.select.wheres, verdict) <==> Picks(updated.value.wheres, verdict))
            && (Picks(selected.value.select.wheres, verdict) <==> Picks(deleted.value.wheres, verdict))
  {
    RoundTrip(Single(s));
    StatementRoundTrip(Update(s.table, data, s.wheres));
    StatementRoundTrip(Delete(s.table, s.wheres));
  }
}
