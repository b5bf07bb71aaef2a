/** As many parameters as placeholders, unless a condition was spliced in raw. */
module SqlPlaceholders {
  import opened Basics
  import opened Sql
  import opened SqlGrammar
  import opened SqlParser
  import opened SqlRoundTrip

  function Holes(ts: seq<Token>): nat {
    if ts == [] then 0 else (if ts[0] == Placeholder then 1 else 0) + Holes(ts[1..])
  }

  lemma {:induction false} HolesAppend(a: seq<Token>, b: seq<Token>)
    ensures Holes(a + b) == Holes(a) + Holes(b)
  {
    if a == [] {
      assert a + b == b;
    } else {
      HolesAppend(a[1..], b);
      assert (a + b)[1..] == a[1..] + b;
    }
  }

  lemma {:induction false} NoHoles(ts: seq<Token>)
    requires forall i | 0 <= i < |ts| :: ts[i] != Placeholder
    ensures Holes(ts) == 0
  {
    if ts != [] {
      NoHoles(ts[1..]);
    }
  }

  lemma OneHole(ts: seq<Token>)
    requires forall i | 0 <= i < |ts| :: ts[i] != Placeholder
    ensures Holes(ts + [Placeholder]) == 1
  {
    NoHoles(ts);
    HolesAppend(ts, [Placeholder]);
    assert [Placeholder][1..] == [];
  }

  /** Placeholders that the value of one condition, spliced in raw, brings along. */
  function RawHoles(c: Cond): nat {
    if RawSplice(c) then Holes(Raw(c.value)) else 0
  }

  function AllRawHoles(cs: seq<Cond>): nat {
    if cs == [] then 0 else RawHoles(cs[0]) + AllRawHoles(cs[1..])
  }

  lemma {:induction false} PlaceholdersHoles(n: nat)
    ensures Holes(Placeholders(n)) == n
  {
    if n == 1 {
      OneHole([]);
      assert [] + [Placeholder] == Placeholders(1);
    } else if n > 1 {
      PlaceholdersHoles(n - 1);
      assert Placeholders(n) == [Placeholder] + ([Comma] + Placeholders(n - 1));
      assert Placeholders(n)[1..][1..] == Placeholders(n - 1);
    }
  }

  lemma ClauseHoles(c: Cond)
    requires Shaped(c) && Spliced(c.operator)
    ensures Holes(Raw(c.value)) == |c.params.value|
  {
    if c.operator == IN {
      var n := |c.params.value|;
      PlaceholdersHoles(n);
      NoHoles([LParen]);
      NoHoles([RParen]);
      HolesAppend([LParen] + Placeholders(n), [RParen]);
      HolesAppend([LParen], Placeholders(n));
    } else {
      OneHole([]);
      OneHole([Kw(AND)]);
      HolesAppend([] + [Placeholder], [Kw(AND)] + [Placeholder]);
      assert RANGE.tokens == [] + [Placeholder] + ([Kw(AND)] + [Placeholder]);
    }
  }

  lemma CondHoles(c: Cond)
    requires Built(c)
    ensures Holes(CondTokens(c)) == |CondParams(c)| + RawHoles(c)
  {
    var head := [Name(c.column), Operator(c.operator)];
    NoHoles(head);
    if Spliced(c.operator) {
      HolesAppend(head, Raw(c.value));
      if Shaped(c) {
        ClauseHoles(c);
      }
    } else if !NullTest(c.operator) {
      OneHole(head);
      assert CondTokens(c) == head + [Placeholder];
    }
  }

  lemma {:induction false} TailHoles(cs: seq<Cond>)
    requires forall i | 0 <= i < |cs| :: Built(cs[i])
    ensures Holes(TailTokens(cs)) == |TailParams(cs)| + AllRawHoles(cs)
  {
    if cs != [] {
      var word := [Kw(LogicKeyword(cs[0].logic))];
      CondHoles(cs[0]);
      TailHoles(cs[1..]);
      NoHoles(word);
      HolesAppend(word + CondTokens(cs[0]), TailTokens(cs[1..]));
      HolesAppend(word, CondTokens(cs[0]));
    }
  }

  lemma WhereHoles(cs: seq<Cond>)
    requires forall i | 0 <= i < |cs| :: Built(cs[i])
    ensures Holes(WhereTokens(cs)) == |TailParams(cs)| + AllRawHoles(cs)
  {
    if cs != [] {
      CondHoles(cs[0]);
      TailHoles(cs[1..]);
      NoHoles([Kw(WHERE)]);
      HolesAppend([Kw(WHERE)], CondsTokens(cs));
      HolesAppend(CondTokens(cs[0]), TailTokens(cs[1..]));
    }
  }

  lemma {:induction false} CommaTailFree(names: seq<string>)
    ensures forall i | 0 <= i < |CommaTail(names)| :: CommaTail(names)[i] != Placeholder
  {
    if names != [] {
      CommaTailFree(names[1..]);
    }
  }

  lemma {:induction false} JoinsFree(js: seq<JoinClause>)
    ensures forall i | 0 <= i < |JoinTokens(js)| :: JoinTokens(js)[i] != Placeholder
  {
    if js != [] {
      JoinsFree(js[1..]);
    }
  }

  lemma {:induction false} OrderTailFree(os: seq<Order>)
    ensures forall i | 0 <= i < |OrderTail(os)| :: OrderTail(os)[i] != Placeholder
  {
    if os != [] {
      OrderTailFree(os[1..]);
    }
  }

  lemma ColumnsHoles(columns: seq<string>)
    ensures Holes(ColumnTokens(columns)) == 0
  {
    if columns != [] {
      CommaTailFree(columns[1..]);
    }
    NoHoles(ColumnTokens(columns));
  }

  lemma GroupsHoles(groups: seq<string>)
    ensures Holes(GroupTokens(groups)) == 0
  {
    if groups != [] {
      CommaTailFree(groups[1..]);
    }
    NoHoles(GroupTokens(groups));
  }

  lemma OrdersHoles(os: seq<Order>)
    ensures Holes(OrderTokens(os)) == 0
  {
    if os != [] {
      OrderTailFree(os[1..]);
    }
    NoHoles(OrderTokens(os));
  }

  lemma JoinsHoles(js: seq<JoinClause>)
    ensures Holes(JoinTokens(js)) == 0
  {
    JoinsFree(js);
    NoHoles(JoinTokens(js));
  }

  lemma HavingHole(word: Keyword, c: Cond, ts: seq<Token>)
    ensures Holes([Kw(word), Name(c.column), Operator(c.operator), Placeholder] + ts) == 1 + Holes(ts)
  {
    var head := [Kw(word), Name(c.column), Operator(c.operator)];
    OneHole(head);
    HolesAppend(head + [Placeholder], ts);
    assert head + [Placeholder] == [Kw(word), Name(c.column), Operator(c.operator), Placeholder];
  }

  lemma {:induction false} HavingTailHoles(cs: seq<Cond>)
    ensures Holes(HavingTail(cs)) == |HavingParams(cs)|
  {
    if cs != [] {
      HavingTailHoles(cs[1..]);
      HavingHole(LogicKeyword(cs[0].logic), cs[0], HavingTail(cs[1..]));
    }
  }

  lemma HavingHoles(cs: seq<Cond>)
    ensures Holes(HavingTokens(cs)) == |HavingParams(cs)|
  {
    if cs != [] {
      HavingTailHoles(cs[1..]);
      HavingHole(HAVING, cs[0], HavingTail(cs[1..]));
    }
  }

  lemma FiveHoles(a: seq<Token>, b: seq<Token>, c: seq<Token>, d: seq<Token>, e: seq<Token>)
    ensures Holes(a + b + c + d + e) == Holes(a) + Holes(b) + Holes(c) + Holes(d) + Holes(e)
  {
    HolesAppend(a + b + c + d, e);
    HolesAppend(a + b + c, d);
    HolesAppend(a + b, c);
    HolesAppend(a, b);
  }

  function Front(s: Select): seq<Token> {
    [Kw(SELECT)] + ColumnTokens(s.columns) + FromTokens(s.table) + JoinTokens(s.joins) + WhereTokens(s.wheres)
  }

  lemma FrontHoles(s: Select)
    requires forall i | 0 <= i < |s.wheres| :: Built(s.wheres[i])
    ensures Holes(Front(s)) == |TailParams(s.wheres)| + AllRawHoles(s.wheres)
  {
    NoHoles([Kw(SELECT)]);
    ColumnsHoles(s.columns);
    NoHoles(FromTokens(s.table));
    JoinsHoles(s.joins);
    WhereHoles(s.wheres);
    FiveHoles([Kw(SELECT)], ColumnTokens(s.columns), FromTokens(s.table), JoinTokens(s.joins), WhereTokens(s.wheres));
  }

  lemma BackHoles(s: Select, front: seq<Token>)
    ensures Holes(front + HavingTokens(s.havings) + OrderTokens(s.orders) + CountTokens(LIMIT, s.limit)
                  + CountTokens(OFFSET, s.offset))
            == Holes(front) + |HavingParams(s.havings)|
  {
    HavingHoles(s.havings);
    OrdersHoles(s.orders);
    NoHoles(CountTokens(LIMIT, s.limit));
    NoHoles(CountTokens(OFFSET, s.offset));
    FiveHoles(front, HavingTokens(s.havings), OrderTokens(s.orders), CountTokens(LIMIT, s.limit),
              CountTokens(OFFSET, s.offset));
  }

  lemma SelectHoles(s: Select)
    requires forall i | 0 <= i < |s.wheres| :: Built(s.wheres[i])
    ensures Holes(SelectTokens(s)) == |SelectParams(s)| + AllRawHoles(s.wheres)
  {
    FrontHoles(s);
    GroupsHoles(s.groups);
    HolesAppend(Front(s), GroupTokens(s.groups));
    BackHoles(s, Front(s) + GroupTokens(s.groups));
  }

  function QueryRawHoles(q: Query): nat {
    AllRawHoles(q.select.wheres) + if q.Union? then QueryRawHoles(q.rest) else 0
  }

  predicate BuiltQuery(q: Query) {
    && (forall i | 0 <= i < |q.select.wheres| :: Built(q.select.wheres[i]))
    && (q.Union? ==> BuiltQuery(q.rest))
  }

  /** At every union depth, a printed query has as many parameters as placeholders, and
      one placeholder too many for each that came inside a raw value. */
  lemma {:induction false} PlaceholdersMatchParams(q: Query)
    requires BuiltQuery(q)
    ensures Holes(Tokens(q)) == |Params(q)| + QueryRawHoles(q)
  {
    SelectHoles(q.select);
    if q.Union? {
      PlaceholdersMatchParams(q.rest);
      NoHoles(UnionWord(q.all));
      HolesAppend(UnionWord(q.all), Tokens(q.rest));
      HolesAppend(SelectTokens(q.select), UnionWord(q.all) + Tokens(q.rest));
    }
  }

  lemma BracketedHole()
    ensures Holes([LParen, Placeholder, RParen]) == 1
  {
    OneHole([LParen]);
    NoHoles([RParen]);
    HolesAppend([LParen] + [Placeholder], [RParen]);
    assert [LParen] + [Placeholder] + [RParen] == [LParen, Placeholder, RParen];
  }

  /** The condition that Where(column, "IN", "(?)") adds. */
  function RawIn(column: string): Cond {
    Cond(column, IN, Fragment([LParen, Placeholder, RParen]), And, None)
  }

  lemma RawInAlone(column: string)
    ensures !Shaped(RawIn(column)) && !WellBuilt(RawIn(column)) && TailParams([RawIn(column)]) == []
            && AllRawHoles([RawIn(column)]) == 1
  {
    var c := RawIn(column);
    BracketedHole();
    assert [c][1..] == [];
    assert CondParams(c) == [];
  }

  /** It prints a placeholder and passes no parameter for it. */
  lemma RawInLosesParameter(table: string, column: string)
    ensures var q := Single(Select(table, [], [], [RawIn(column)], [], [], [], 0, 0));
            Holes(Tokens(q)) == 1 && Params(q) == [] && Parse(Tokens(q), Params(q)) != Some(Normal(q))
  {
    var s := Select(table, [], [], [RawIn(column)], [], [], [], 0, 0);
    RawInAlone(column);
    SelectHoles(s);
    assert !WellBuiltQuery(Single(s)) by {
      assert !WellBuilt(s.wheres[0]);
    }
    RoundTripIff(Single(s));
  }
}
