/** What a builder prints: only checked names and operators, never a caller's value. */
module SqlChecked {
  import opened Basics
  import opened Sql
  import opened SqlGrammar
  import opened SqlParser
  import opened SqlReading
  import opened SqlRoundTrip
  import opened SqlPlaceholders
  import opened SqlBuilder

  /** A token that passed its check, or is no text of the caller's at all. */
  predicate TokenChecked(r: Rules, t: Token) {
    match t
    case Name(text) => Selectable(r, text)
    case Operator(text) => text in OPERATORS || ValidOperator(text)
    case JoinCondition(text) => r.joinCondition(text)
    case Opaque(_) => false
    case _ => true
  }

  predicate AllChecked(r: Rules, ts: seq<Token>) {
    forall i | 0 <= i < |ts| :: TokenChecked(r, ts[i])
  }

  predicate CheckedQuery(r: Rules, q: Query) {
    && Checked(r, q.select) && q.select.table != ""
    && (q.Union? ==> CheckedQuery(r, q.rest))
  }

  lemma {:induction false} PlaceholdersChecked(r: Rules, n: nat)
    ensures AllChecked(r, Placeholders(n))
  {
    if n > 1 {
      PlaceholdersChecked(r, n - 1);
    }
  }

  lemma CondChecked(r: Rules, c: Cond)
    requires CheckedCond(r, c) && Shaped(c)
    ensures AllChecked(r, CondTokens(c))
  {
    if c.operator == IN {
      PlaceholdersChecked(r, |c.params.value|);
    }
  }

  lemma {:induction false} TailChecked(r: Rules, cs: seq<Cond>)
    requires forall i | 0 <= i < |cs| :: CheckedCond(r, cs[i]) && Shaped(cs[i])
    ensures AllChecked(r, TailTokens(cs))
  {
    if cs != [] {
      CondChecked(r, cs[0]);
      TailChecked(r, cs[1..]);
    }
  }

  lemma WhereChecked(r: Rules, cs: seq<Cond>)
    requires forall i | 0 <= i < |cs| :: CheckedCond(r, cs[i]) && Shaped(cs[i])
    ensures AllChecked(r, WhereTokens(cs))
  {
    if cs != [] {
      CondChecked(r, cs[0]);
      TailChecked(r, cs[1..]);
    }
  }

  lemma {:induction false} CommaTailChecked(r: Rules, names: seq<string>)
    requires forall i | 0 <= i < |names| :: Selectable(r, names[i])
    ensures AllChecked(r, CommaTail(names))
  {
    if names != [] {
      CommaTailChecked(r, names[1..]);
    }
  }

  lemma {:induction false} JoinsChecked(r: Rules, js: seq<JoinClause>)
    requires forall i | 0 <= i < |js| :: CheckedJoin(r, js[i])
    ensures AllChecked(r, JoinTokens(js))
  {
    if js != [] {
      JoinsChecked(r, js[1..]);
    }
  }

  lemma {:induction false} HavingTailChecked(r: Rules, cs: seq<Cond>)
    requires forall i | 0 <= i < |cs| :: CheckedHaving(r, cs[i])
    ensures AllChecked(r, HavingTail(cs))
  {
    if cs != [] {
      HavingTailChecked(r, cs[1..]);
    }
  }

  lemma {:induction false} OrderTailChecked(r: Rules, os: seq<Order>)
    requires forall i | 0 <= i < |os| :: r.identifier(os[i].column)
    ensures AllChecked(r, OrderTail(os))
  {
    if os != [] {
      OrderTailChecked(r, os[1..]);
    }
  }

  lemma ColumnsChecked(r: Rules, columns: seq<string>)
    requires forall i | 0 <= i < |columns| :: Selectable(r, columns[i])
    ensures AllChecked(r, ColumnTokens(columns)) && AllChecked(r, GroupTokens(columns))
  {
    if columns != [] {
      CommaTailChecked(r, columns[1..]);
    }
  }

  lemma HavingsChecked(r: Rules, cs: seq<Cond>)
    requires forall i | 0 <= i < |cs| :: CheckedHaving(r, cs[i])
    ensures AllChecked(r, HavingTokens(cs))
  {
    if cs != [] {
      HavingTailChecked(r, cs[1..]);
    }
  }

  lemma OrdersChecked(r: Rules, os: seq<Order>)
    requires forall i | 0 <= i < |os| :: r.identifier(os[i].column)
    ensures AllChecked(r, OrderTokens(os))
  {
    if os != [] {
      OrderTailChecked(r, os[1..]);
    }
  }

  lemma FiveChecked(r: Rules, a: seq<Token>, b: seq<Token>, c: seq<Token>, d: seq<Token>, e: seq<Token>)
    requires AllChecked(r, a) && AllChecked(r, b) && AllChecked(r, c) && AllChecked(r, d) && AllChecked(r, e)
    ensures AllChecked(r, a + b + c + d + e)
  {
  }

  lemma SelectChecked(r: Rules, s: Select)
    requires Checked(r, s) && s.table != "" && forall i | 0 <= i < |s.wheres| :: Shaped(s.wheres[i])
    ensures AllChecked(r, SelectTokens(s))
  {
    ColumnsChecked(r, s.columns);
    JoinsChecked(r, s.joins);
    WhereChecked(r, s.wheres);
    ColumnsChecked(r, s.groups);
    HavingsChecked(r, s.havings);
    OrdersChecked(r, s.orders);
    var front := [Kw(SELECT)] + ColumnTokens(s.columns) + FromTokens(s.table) + JoinTokens(s.joins)
        + WhereTokens(s.wheres);
    FiveChecked(r, [Kw(SELECT)], ColumnTokens(s.columns), FromTokens(s.table), JoinTokens(s.joins),
                WhereTokens(s.wheres));
    FiveChecked(r, front + GroupTokens(s.groups), HavingTokens(s.havings), OrderTokens(s.orders),
                CountTokens(LIMIT, s.limit), CountTokens(OFFSET, s.offset));
  }

  lemma TwoChecked(r: Rules, a: seq<Token>, b: seq<Token>)
    requires AllChecked(r, a) && AllChecked(r, b)
    ensures AllChecked(r, a + b)
  {
  }

  /** Without raw splices every name, operator and join condition in the text passed its
      check, and none of the caller's values is in it. */
  lemma {:induction false} PrintsOnlyChecked(r: Rules, q: Query)
    requires CheckedQuery(r, q) && AllShaped(q)
    ensures AllChecked(r, Tokens(q))
  {
    SelectChecked(r, q.select);
    if q.Union? {
      PrintsOnlyChecked(r, q.rest);
      TwoChecked(r, UnionWord(q.all), Tokens(q.rest));
      TwoChecked(r, SelectTokens(q.select), UnionWord(q.all) + Tokens(q.rest));
    }
  }

  /** Whatever a builder without error prints satisfies what the theorems about queries ask. */
  lemma {:induction false} SnapshotChecked(b: QueryBuilder, n: nat)
    requires b.Chain(n) && b.Snapshot(n).Ok?
    ensures CheckedQuery(b.rules, b.Snapshot(n).value) && BuiltQuery(b.Snapshot(n).value)
    decreases n
  {
    if b.unionQuery != null {
      SnapshotChecked(b.unionQuery, n - 1);
    }
  }

  /** A condition has the operands its operator takes: the method that added it was made for
      the operator, or the operator takes the one value it was given. */
  predicate Fits(c: Cond) {
    c.params.Some? || NullTest(c.operator) || Takes(c.operator) == One
  }

  /** So have all conditions of this builder and the unions below it. */
  predicate OperandsFit(q: Query) {
    && (forall i | 0 <= i < |q.select.wheres| :: Fits(q.select.wheres[i]))
    && (forall i | 0 <= i < |q.select.havings| :: Takes(q.select.havings[i].operator) == One)
    && (q.Union? ==> OperandsFit(q.rest))
  }

  lemma FitsIff(r: Rules, c: Cond)
    requires CheckedCond(r, c)
    ensures WellBuilt(c) <==> Fits(c)
  {
    OwnOperators();
  }

  lemma {:induction false} OperandsFitIff(r: Rules, q: Query)
    requires CheckedQuery(r, q)
    ensures WellBuiltQuery(q) <==> OperandsFit(q)
  {
    if q.Union? {
      OperandsFitIff(r, q.rest);
    }
    forall i | 0 <= i < |q.select.wheres| ensures WellBuilt(q.select.wheres[i]) <==> Fits(q.select.wheres[i]) {
      FitsIff(r, q.select.wheres[i]);
    }
    forall i | 0 <= i < |q.select.havings|
      ensures WellBuiltHaving(q.select.havings[i]) <==> Takes(q.select.havings[i].operator) == One
    {
      assert CheckedHaving(r, q.select.havings[i]);
    }
  }

  /** What ToSQL returns can be read back exactly when Where, OrWhere and Having were given
      only operators that take one value, or the two null tests as the printers spell them. */
  lemma PrintedComesBackIff(b: QueryBuilder, n: nat)
    requires b.Chain(n) && b.Snapshot(n).Ok?
    ensures var q := b.Snapshot(n).value;
            Parse(Tokens(q), Params(q)) == Some(Normal(q)) <==> OperandsFit(q)
  {
    var q := b.Snapshot(n).value;
    SnapshotChecked(b, n);
    OperandsFitIff(b.rules, q);
    RoundTripIff(q);
  }

  // ---------- Operators that pass their check and cannot be read ----------

  /** One condition, in WHERE or HAVING, on a table. */
  function OneCondition(table: string, word: Keyword, c: Cond): Query {
    Single(EMPTY.(table := table, wheres := if word == WHERE then [c] else [],
                  havings := if word == HAVING then [c] else []))
  }

  /** A value after an operator that takes none or several: no statement reads like that. */
  lemma NotRead(table: string, word: Keyword, c: Cond)
    requires word == HAVING || (word == WHERE && !NullTest(c.operator) && !Spliced(c.operator))
    requires Takes(c.operator) != One
    ensures var q := OneCondition(table, word, c); Parse(Tokens(q), Params(q)) == None
  {
    PrintsOne(table, word, c);
    StuckText(table, word, c, [Kw(word), Name(c.column), Operator(c.operator), Placeholder]);
  }

  lemma StuckText(table: string, word: Keyword, c: Cond, tail: seq<Token>)
    requires word in {WHERE, HAVING} && Takes(c.operator) != One
    requires tail == [Kw(word), Name(c.column), Operator(c.operator), Placeholder]
    ensures Parse([Kw(SELECT)] + (ColumnTokens(["*"]) + (FromTokens(table) + tail)), [c.value]) == None
  {
    HeadParses(["*"], table, tail, [c.value]);
    NoJoins(word, tail);
    ClauseStuck(word, c, tail, [c.value]);
    SelectStuck(table, word, tail, [c.value]);
  }

  lemma NoJoins(word: Keyword, tail: seq<Token>)
    requires word in {WHERE, HAVING} && StartsWith(tail, word)
    ensures ParseJoins(tail) == ([], tail)
  {
    assert ParseKind(tail[0]) == None;
  }

  lemma PrintsOne(table: string, word: Keyword, c: Cond)
    requires word == HAVING || (word == WHERE && !NullTest(c.operator) && !Spliced(c.operator))
    ensures var q := OneCondition(table, word, c);
            var tail := [Kw(word), Name(c.column), Operator(c.operator), Placeholder];
            && Tokens(q) == [Kw(SELECT)] + (ColumnTokens(["*"]) + (FromTokens(table) + tail)) && Params(q) == [c.value]
  {
    assert [c][1..] == [];
    if word == WHERE {
      assert WhereTokens([c]) == [Kw(word), Name(c.column), Operator(c.operator), Placeholder];
      assert TailParams([c]) == [c.value];
    } else {
      assert HavingTokens([c]) == [Kw(word), Name(c.column), Operator(c.operator), Placeholder];
      assert HavingParams([c]) == [c.value];
    }
  }

  lemma ClauseStuck(word: Keyword, c: Cond, tail: seq<Token>, ps: seq<Value>)
    requires Takes(c.operator) != One && tail == [Kw(word), Name(c.column), Operator(c.operator), Placeholder]
    ensures ParseClause(word, tail, ps).Got? ==> ParseClause(word, tail, ps).tokens == [Placeholder]
  {
    var cond := [Name(c.column), Operator(c.operator), Placeholder];
    assert tail[1..] == cond && cond[2..] == [Placeholder];
  }

  /** A statement cannot go on with a placeholder after its conditions. */
  lemma SelectStuck(table: string, word: Keyword, tail: seq<Token>, ps: seq<Value>)
    requires word in {WHERE, HAVING} && StartsWith(tail, word)
    requires ParseNames(ColumnTokens(["*"]) + (FromTokens(table) + tail), ps)
             == Got(["*"], FromTokens(table) + tail, ps)
    requires ParseFrom(FromTokens(table) + tail, ps) == Got(table, tail, ps) && ParseJoins(tail) == ([], tail)
    requires ParseClause(word, tail, ps).Got? ==> ParseClause(word, tail, ps).tokens == [Placeholder]
    ensures Parse([Kw(SELECT)] + (ColumnTokens(["*"]) + (FromTokens(table) + tail)), ps) == None
  {
    var body := ColumnTokens(["*"]) + (FromTokens(table) + tail);
    assert ([Kw(SELECT)] + body)[1..] == body;
  }

  lemma UpperIs(s: string, t: string)
    requires |s| == |t| && forall i | 0 <= i < |s| :: UpperChar(s[i]) == t[i]
    ensures Upper(s) == t
  {
  }

  /** Some of them, all accepted by Where and by Having; the last has a dotless i. */
  lemma AcceptedAndNotRead()
    ensures forall op | op in {"is null", "between", "in", "NOT IN", "l\U{0131}ke"} ::
              ValidOperator(op) && Takes(op) != One && !NullTest(op) && !Spliced(op)
  {
    UpperIs("is null", IS_NULL);
    FoldIs("is null", IS_NULL);
    UpperIs("between", BETWEEN);
    FoldIs("between", BETWEEN);
    UpperIs("in", IN);
    FoldIs("in", IN);
    UpperIs(NOT_IN, NOT_IN);
    FoldIs(NOT_IN, NOT_IN);
    var dotless := "l\U{0131}ke";
    UpperIs(dotless, "LIKE");
    assert Fold(dotless)[1] == '\U{0131}';
  }

  // ---------- The check against the language ----------

  predicate Ascii(s: string) {
    forall i | 0 <= i < |s| :: s[i] < '\U{0080}'
  }

  /** On the letters of ASCII the two ways of folding agree. */
  lemma AsciiFolds(s: string)
    requires Ascii(s)
    ensures Upper(s) == Fold(s)
  {
  }

  /** Folding never makes an ASCII text out of another one. */
  lemma FoldsToAscii(s: string)
    requires Ascii(Fold(s))
    ensures Ascii(s)
  {
    forall i | 0 <= i < |s| ensures s[i] < '\U{0080}' {
      assert FoldChar(s[i]) == Fold(s)[i];
    }
  }

  lemma WordsAreAscii()
    ensures forall op | op in OPERATORS :: Ascii(op)
    ensures forall op | op in COMPARISONS + {IS_NULL, IS_NOT_NULL, IN, NOT_IN, BETWEEN} :: Ascii(op) && op in OPERATORS
    ensures forall op | op in OPERATORS :: op in COMPARISONS + {IS_NULL, IS_NOT_NULL, IN, NOT_IN, BETWEEN}
  {
  }

  /** The builder accepts every operator of the language in any spelling, and nothing else that
      is written in ASCII. */
  lemma AcceptsOperators(op: string)
    ensures Takes(op) != NoOperator ==> ValidOperator(op)
    ensures ValidOperator(op) && Ascii(op) ==> Takes(op) != NoOperator
  {
    WordsAreAscii();
    if Takes(op) != NoOperator {
      FoldsToAscii(op);
      AsciiFolds(op);
    } else if Ascii(op) {
      AsciiFolds(op);
    }
  }
}
