/** Printing loses nothing exactly when every operator gets the operands it takes: the
    builder's tokens and parameters are then the text of the query. */
module SqlRoundTrip {
  import opened Basics
  import opened Sql
  import opened SqlGrammar
  import opened SqlParser
  import opened SqlReading

  // ---------- Well built queries are printed as their text ----------

  lemma PrintsCond(c: Cond)
    requires WellBuilt(c)
    ensures Readable(NormalCond(c))
    ensures CondTokens(c) == CondText(NormalCond(c)) && CondParams(c) == CondArgs(NormalCond(c))
  {
    OwnOperators();
  }

  lemma {:induction false} PrintsTail(cs: seq<Cond>)
    requires AllWellBuilt(cs)
    ensures AllReadable(NormalTail(cs))
    ensures TailTokens(cs) == TailText(NormalTail(cs)) && TailParams(cs) == TailArgs(NormalTail(cs))
  {
    if cs != [] {
      PrintsCond(cs[0]);
      PrintsTail(cs[1..]);
      OneMore(NormalCond(cs[0]), NormalTail(cs[1..]));
    }
  }

  /** The first condition reads the same whatever logic it was added with. */
  lemma FirstText(word: Keyword, cs: seq<Cond>)
    requires cs != [] && AllReadable(cs)
    ensures var first := FirstAnd(cs);
            && ReadableClause(first) && TailArgs(first) == CondArgs(cs[0]) + TailArgs(cs[1..])
            && ClauseText(word, first) == [Kw(word)] + (CondText(cs[0]) + TailText(cs[1..]))
  {
    var first := FirstAnd(cs);
    assert first[1..] == cs[1..] && CondText(first[0]) == CondText(cs[0]) && CondArgs(first[0]) == CondArgs(cs[0]);
    assert Readable(first[0]) by {
      assert Readable(cs[0]);
    }
  }

  lemma FirstNormal(cs: seq<Cond>)
    requires cs != []
    ensures FirstAnd(NormalTail(cs)) == [NormalCond(cs[0].(logic := And))] + NormalTail(cs[1..])
  {
    assert NormalTail(cs)[1..] == NormalTail(cs[1..]);
  }

  lemma {:induction false} NormalTailAt(cs: seq<Cond>, i: nat)
    requires i < |cs|
    ensures |NormalTail(cs)| == |cs| && NormalTail(cs)[i] == NormalCond(cs[i])
  {
    if i > 0 {
      NormalTailAt(cs[1..], i - 1);
    } else if |cs| > 1 {
      NormalTailAt(cs[1..], 0);
    }
  }

  lemma PrintsWhere(cs: seq<Cond>)
    requires AllWellBuilt(cs)
    ensures var read := FirstAnd(NormalTail(cs));
            ReadableClause(read) && WhereTokens(cs) == ClauseText(WHERE, read) && TailParams(cs) == TailArgs(read)
  {
    if cs != [] {
      PrintsCond(cs[0]);
      PrintsTail(cs);
      PrintsTail(cs[1..]);
      assert NormalTail(cs)[1..] == NormalTail(cs[1..]);
      FirstText(WHERE, NormalTail(cs));
    }
  }

  lemma PrintsHavingCond(c: Cond)
    requires WellBuiltHaving(c)
    ensures Readable(c) && CondText(c) == [Name(c.column), Operator(c.operator), Placeholder]
            && CondArgs(c) == [c.value]
  {
  }

  lemma {:induction false} PrintsHavingTail(cs: seq<Cond>)
    requires AllWellBuiltHaving(cs)
    ensures AllReadable(cs) && HavingTail(cs) == TailText(cs) && HavingParams(cs) == TailArgs(cs)
  {
    if cs != [] {
      PrintsHavingCond(cs[0]);
      PrintsHavingTail(cs[1..]);
      OneMore(cs[0], cs[1..]);
      HeadTail(cs);
    }
  }

  lemma HavingSplits(c: Cond, ts: seq<Token>)
    ensures [Kw(HAVING), Name(c.column), Operator(c.operator), Placeholder] + ts
            == [Kw(HAVING)] + ([Name(c.column), Operator(c.operator), Placeholder] + ts)
  {
  }

  lemma PrintsHaving(cs: seq<Cond>)
    requires AllWellBuiltHaving(cs)
    ensures var read := FirstAnd(cs);
            ReadableClause(read) && HavingTokens(cs) == ClauseText(HAVING, read) && HavingParams(cs) == TailArgs(read)
  {
    if cs != [] {
      PrintsHavingCond(cs[0]);
      PrintsHavingTail(cs);
      PrintsHavingTail(cs[1..]);
      HavingSplits(cs[0], HavingTail(cs[1..]));
      FirstText(HAVING, cs);
    }
  }

  lemma PrintsSelect(s: Select)
    requires WellBuiltSelect(s)
    ensures ReadableSelect(NormalSelect(s))
    ensures SelectTokens(s) == SelectText(NormalSelect(s)) && SelectParams(s) == SelectArgs(NormalSelect(s))
  {
    PrintsWhere(s.wheres);
    PrintsHaving(s.havings);
    SamePieces(s);
  }

  /** What is dropped from a SELECT outside its conditions does not show. */
  lemma SamePieces(s: Select)
    ensures var n := NormalSelect(s);
            && ColumnTokens(s.columns) == ColumnTokens(n.columns)
            && CountTokens(LIMIT, s.limit) == CountTokens(LIMIT, n.limit)
            && CountTokens(OFFSET, s.offset) == CountTokens(OFFSET, n.offset)
  {
  }

  lemma {:induction false} PrintsText(q: Query)
    requires WellBuiltQuery(q)
    ensures IsTextOf(Tokens(q), Params(q), Normal(q))
  {
    PrintsSelect(q.select);
    if q.Union? {
      PrintsText(q.rest);
    }
  }

  /** For every query whose operators have the operands they take, at every union depth:
      parsing the printed tokens and parameters gives the query back. */
  lemma RoundTrip(q: Query)
    requires WellBuiltQuery(q)
    ensures Parse(Tokens(q), Params(q)) == Some(Normal(q))
  {
    PrintsText(q);
    ReadsText(Normal(q));
  }

  // ---------- No other query is ----------

  /** Tokens and parameters printed, against those of the text: no condition printed with the
      wrong operands has fewer parameters and as many other tokens. */
  datatype Counts = Counts(tokens: nat, params: nat, text: nat, args: nat)

  predicate Within(n: Counts) {
    && n.tokens - n.params <= n.text - n.args
    && (n.tokens - n.params == n.text - n.args ==> n.args <= n.params)
  }

  predicate Same(n: Counts) {
    n.tokens == n.text && n.params == n.args
  }

  function Sum(m: Counts, n: Counts): Counts {
    Counts(m.tokens + n.tokens, m.params + n.params, m.text + n.text, m.args + n.args)
  }

  lemma SumWithin(m: Counts, n: Counts)
    requires Within(m) && Within(n)
    ensures Within(Sum(m, n)) && (Same(Sum(m, n)) ==> Same(m) && Same(n))
  {
  }

  function CondCounts(c: Cond): Counts {
    Counts(1 + |CondTokens(c)|, |CondParams(c)|, 1 + |CondText(NormalCond(c))|, |CondArgs(NormalCond(c))|)
  }

  function HavingCounts(c: Cond): Counts {
    Counts(4, 1, 1 + |CondText(c)|, |CondArgs(c)|)
  }

  lemma {:induction false} PlaceholdersLength(n: nat)
    ensures |Placeholders(n)| == if n == 0 then 0 else 2 * n - 1
  {
    if n > 1 {
      PlaceholdersLength(n - 1);
    }
  }

  lemma OperandsLength(c: Cond)
    requires Readable(c)
    ensures match Takes(c.operator)
            case Bare => |CondText(c)| == 2 && |CondArgs(c)| == 0
            case List => |CondText(c)| == 4 + (if c.params.value == [] then 0 else 2 * |c.params.value| - 1)
                         && |CondArgs(c)| == |c.params.value|
            case Range => |CondText(c)| == 5 && |CondArgs(c)| == 2
            case One => |CondText(c)| == 3 && |CondArgs(c)| == 1
            case NoOperator => true
  {
    if Takes(c.operator) == List {
      PlaceholdersLength(|c.params.value|);
    }
  }

  lemma CondWithin(c: Cond)
    requires Readable(NormalCond(c))
    ensures Within(CondCounts(c)) && (Same(CondCounts(c)) ==> WellBuilt(c))
  {
    OwnOperators();
    OperandsLength(NormalCond(c));
  }

  lemma HavingWithin(c: Cond)
    requires Readable(c)
    ensures Within(HavingCounts(c)) && (Same(HavingCounts(c)) ==> WellBuiltHaving(c))
  {
    OperandsLength(c);
  }

  function TailCounts(cs: seq<Cond>): Counts {
    Counts(|TailTokens(cs)|, |TailParams(cs)|, |TailText(NormalTail(cs))|, |TailArgs(NormalTail(cs))|)
  }

  lemma {:induction false} TailWithin(cs: seq<Cond>)
    requires AllReadable(NormalTail(cs))
    ensures Within(TailCounts(cs)) && (Same(TailCounts(cs)) ==> AllWellBuilt(cs))
  {
    if cs != [] {
      var rest := NormalTail(cs[1..]);
      assert NormalTail(cs)[0] == NormalCond(cs[0]) && NormalTail(cs)[1..] == rest;
      assert AllReadable(rest) by {
        assert forall i | 0 <= i < |rest| :: rest[i] == NormalTail(cs)[i + 1];
      }
      CondWithin(cs[0]);
      TailWithin(cs[1..]);
      assert TailCounts(cs) == Sum(CondCounts(cs[0]), TailCounts(cs[1..]));
      SumWithin(CondCounts(cs[0]), TailCounts(cs[1..]));
      if Same(TailCounts(cs)) {
        assert forall i | 0 < i < |cs| :: cs[i] == cs[1..][i - 1];
      }
    }
  }

  function HavingTailCounts(cs: seq<Cond>): Counts {
    Counts(|HavingTail(cs)|, |HavingParams(cs)|, |TailText(cs)|, |TailArgs(cs)|)
  }

  lemma {:induction false} HavingTailWithin(cs: seq<Cond>)
    requires AllReadable(cs)
    ensures Within(HavingTailCounts(cs)) && (Same(HavingTailCounts(cs)) ==> AllWellBuiltHaving(cs))
  {
    if cs != [] {
      HavingWithin(cs[0]);
      HavingTailWithin(cs[1..]);
      assert HavingTailCounts(cs) == Sum(HavingCounts(cs[0]), HavingTailCounts(cs[1..]));
      SumWithin(HavingCounts(cs[0]), HavingTailCounts(cs[1..]));
      if Same(HavingTailCounts(cs)) {
        assert forall i | 0 < i < |cs| :: cs[i] == cs[1..][i - 1];
      }
    }
  }

  /** The word before the first condition counts as much as AND or OR. */
  lemma ClauseCounts(word: Keyword, cs: seq<Cond>)
    requires ReadableClause(FirstAnd(cs))
    ensures AllReadable(cs)
    ensures |ClauseText(word, FirstAnd(cs))| == |TailText(cs)| && |TailArgs(FirstAnd(cs))| == |TailArgs(cs)|
  {
    if cs != [] {
      var first := FirstAnd(cs);
      assert first[1..] == cs[1..] && CondText(first[0]) == CondText(cs[0]) && CondArgs(first[0]) == CondArgs(cs[0]);
      assert Readable(first[0]) ==> Readable(cs[0]);
      assert forall i | 0 < i < |cs| :: first[i] == cs[i];
    }
  }

  /** The clauses without conditions. */
  function OtherTokens(s: Select): nat {
    1 + |ColumnTokens(s.columns)| + 2 + |JoinTokens(s.joins)| + |GroupTokens(s.groups)| + |OrderTokens(s.orders)|
    + |CountTokens(LIMIT, s.limit)| + |CountTokens(OFFSET, s.offset)|
  }

  function SelectCounts(s: Select): Counts {
    Counts(|SelectTokens(s)|, |SelectParams(s)|, |SelectText(NormalSelect(s))|, |SelectArgs(NormalSelect(s))|)
  }

  lemma ClauseLengths(cs: seq<Cond>)
    ensures |WhereTokens(cs)| == |TailTokens(cs)| && |HavingTokens(cs)| == |HavingTail(cs)|
  {
  }

  lemma TextLength(s: Select)
    ensures |SelectTokens(s)| == OtherTokens(s) + |WhereTokens(s.wheres)| + |HavingTokens(s.havings)|
    ensures |SelectText(s)| == OtherTokens(s) + |ClauseText(WHERE, s.wheres)| + |ClauseText(HAVING, s.havings)|
  {
  }

  lemma SelectParts(s: Select)
    requires ReadableSelect(NormalSelect(s))
    ensures SelectCounts(s)
            == Sum(Counts(OtherTokens(s), 0, OtherTokens(s), 0), Sum(TailCounts(s.wheres), HavingTailCounts(s.havings)))
  {
    ClauseCounts(WHERE, NormalTail(s.wheres));
    ClauseCounts(HAVING, s.havings);
    ClauseLengths(s.wheres);
    ClauseLengths(s.havings);
    TextLength(s);
    TextLength(NormalSelect(s));
    SamePieces(s);
  }

  lemma SelectWithin(s: Select)
    requires ReadableSelect(NormalSelect(s))
    ensures Within(SelectCounts(s)) && (Same(SelectCounts(s)) ==> WellBuiltSelect(s))
  {
    ClauseCounts(WHERE, NormalTail(s.wheres));
    ClauseCounts(HAVING, s.havings);
    TailWithin(s.wheres);
    HavingTailWithin(s.havings);
    SumWithin(TailCounts(s.wheres), HavingTailCounts(s.havings));
    SelectParts(s);
    var others := Counts(OtherTokens(s), 0, OtherTokens(s), 0);
    SumWithin(others, Sum(TailCounts(s.wheres), HavingTailCounts(s.havings)));
  }

  function QueryCounts(q: Query): Counts {
    Counts(|Tokens(q)|, |Params(q)|, |Text(Normal(q))|, |Args(Normal(q))|)
  }

  lemma UnionCounts(s: Select, all: bool, rest: Query)
    ensures var n := |UnionWord(all)|;
            QueryCounts(Union(s, all, rest)) == Sum(SelectCounts(s), Sum(Counts(n, 0, n, 0), QueryCounts(rest)))
  {
    var n := NormalSelect(s);
    Lengths(SelectTokens(s), UnionWord(all), Tokens(rest));
    Lengths(SelectText(n), UnionWord(all), Text(Normal(rest)));
  }

  lemma Lengths<T>(a: seq<T>, b: seq<T>, c: seq<T>)
    ensures |a + (b + c)| == |a| + (|b| + |c|)
  {
  }

  lemma {:induction false} QueryWithin(q: Query)
    requires ReadableQuery(Normal(q))
    ensures Within(QueryCounts(q)) && (Same(QueryCounts(q)) ==> WellBuiltQuery(q))
  {
    SelectWithin(q.select);
    if q.Union? {
      var n := |UnionWord(q.all)|;
      QueryWithin(q.rest);
      UnionCounts(q.select, q.all, q.rest);
      SumWithin(Counts(n, 0, n, 0), QueryCounts(q.rest));
      SumWithin(SelectCounts(q.select), Sum(Counts(n, 0, n, 0), QueryCounts(q.rest)));
    }
  }

  /** Printing can be undone exactly when every operator was given the operands it takes. */
  lemma RoundTripIff(q: Query)
    ensures Parse(Tokens(q), Params(q)) == Some(Normal(q)) <==> WellBuiltQuery(q)
  {
    if WellBuiltQuery(q) {
      RoundTrip(q);
    } else if Parse(Tokens(q), Params(q)) == Some(Normal(q)) {
      ReadsOnlyText(Tokens(q), Params(q));
      QueryWithin(q);
    }
  }
}
