/** The parser reads the text of every statement of the language, and nothing else. */
module SqlReading {
  import opened Basics
  import opened Sql
  import opened SqlGrammar
  import opened SqlParser

  /** Where the first token of a continuation stands in the order of clauses. */
  function Rank(ts: seq<Token>): nat {
    if ts == [] then 8
    else if !ts[0].Kw? then 0
    else match ts[0].keyword
      case WHERE => 1
      case GROUP_BY => 2
      case HAVING => 3
      case ORDER_BY => 4
      case LIMIT => 5
      case OFFSET => 6
      case UNION => 7
      case _ => 0
  }

  lemma Assoc<T>(a: seq<T>, b: seq<T>, c: seq<T>)
    ensures a + b + c == a + (b + c)
  {
  }

  lemma HeadTail<T>(s: seq<T>)
    requires s != []
    ensures [s[0]] + s[1..] == s
  {
  }

  // ---------- Conditions ----------

  lemma {:induction false} PlaceholdersParse(n: nat, rest: seq<Token>)
    requires n >= 1
    ensures |Placeholders(n)| == 2 * n - 1
    ensures ParsePlaceholders(Placeholders(n) + [RParen] + rest) == Some(n)
  {
    if n > 1 {
      PlaceholdersParse(n - 1, rest);
      assert (Placeholders(n) + [RParen] + rest)[2..] == Placeholders(n - 1) + [RParen] + rest;
    }
  }

  lemma ListParses(column: string, operator: string, values: seq<Value>, logic: Logic, rest: seq<Token>, ps: seq<Value>)
    ensures ParseList(column, operator, InClause(|values|).tokens + rest, values + ps, logic)
            == Got(Cond(column, operator, InClause(|values|), logic, Some(values)), rest, ps)
  {
    var n := |values|;
    var clause := InClause(n).tokens;
    var ts := clause + rest;
    assert ts[|clause|..] == rest && ts[|clause| - 1] == RParen && ts[0] == LParen;
    assert (values + ps)[..n] == values && (values + ps)[n..] == ps;
    if n == 0 {
      assert clause == [LParen, RParen];
    } else {
      PlaceholdersParse(n, rest);
      assert ts[1..] == Placeholders(n) + [RParen] + rest;
      assert ts[1] == Placeholders(n)[0];
    }
  }

  lemma RangeParses(column: string, operator: string, values: seq<Value>, logic: Logic, rest: seq<Token>,
                    ps: seq<Value>)
    requires |values| == 2
    ensures ParseRange(column, operator, RANGE.tokens + rest, values + ps, logic)
            == Got(Cond(column, operator, RANGE, logic, Some(values)), rest, ps)
  {
    var ts := RANGE.tokens + rest;
    assert ts[..3] == RANGE.tokens && ts[3..] == rest;
    assert (values + ps)[..2] == values && (values + ps)[2..] == ps;
  }

  lemma OneParses(column: string, operator: string, value: Value, logic: Logic, rest: seq<Token>, ps: seq<Value>)
    ensures ParseOne(column, operator, [Placeholder] + rest, [value] + ps, logic)
            == Got(Cond(column, operator, value, logic, None), rest, ps)
  {
    assert ([Placeholder] + rest)[1..] == rest && ([value] + ps)[1..] == ps;
  }

  /** The operands of a condition, as the parser finds them after its operator. */
  lemma CondTail(c: Cond, rest: seq<Token>)
    ensures var operands := match Takes(c.operator) case Bare => [] case One => [Placeholder] case _ => Raw(c.value);
            var ts := CondText(c) + rest;
            |ts| >= 2 && ts[0] == Name(c.column) && ts[1] == Operator(c.operator) && ts[2..] == operands + rest
  {
  }

  lemma CondParses(c: Cond, rest: seq<Token>, ps: seq<Value>)
    requires Readable(c)
    ensures ParseCond(CondText(c) + rest, CondArgs(c) + ps, c.logic) == Got(c, rest, ps)
  {
    CondTail(c, rest);
    match Takes(c.operator)
    case Bare => assert CondArgs(c) + ps == ps && [] + rest == rest;
    case List => ListParses(c.column, c.operator, c.params.value, c.logic, rest, ps);
    case Range => RangeParses(c.column, c.operator, c.params.value, c.logic, rest, ps);
    case One => OneParses(c.column, c.operator, c.value, c.logic, rest, ps);
  }

  lemma TailStep(logic: Logic, ts: seq<Token>, ps: seq<Value>, c: Cond, more: seq<Token>, moreParams: seq<Value>)
    requires ParseCond(ts, ps, logic) == Got(c, more, moreParams) && |more| <= |ts|
    requires ParseTail(more, moreParams).Got?
    ensures var tail := ParseTail(more, moreParams);
            ParseTail([Kw(LogicKeyword(logic))] + ts, ps) == Got([c] + tail.value, tail.tokens, tail.params)
  {
    assert ([Kw(LogicKeyword(logic))] + ts)[1..] == ts;
  }

  lemma {:induction false} TailParses(cs: seq<Cond>, rest: seq<Token>, ps: seq<Value>)
    requires AllReadable(cs) && Rank(rest) >= 2
    ensures ParseTail(TailText(cs) + rest, TailArgs(cs) + ps) == Got(cs, rest, ps)
  {
    if cs == [] {
      assert TailText(cs) + rest == rest && TailArgs(cs) + ps == ps;
    } else {
      var c := cs[0];
      var more := TailText(cs[1..]) + rest;
      var moreParams := TailArgs(cs[1..]) + ps;
      CondParses(c, more, moreParams);
      TailParses(cs[1..], rest, ps);
      TailStep(c.logic, CondText(c) + more, CondArgs(c) + moreParams, c, more, moreParams);
      Assoc([Kw(LogicKeyword(c.logic))] + CondText(c), TailText(cs[1..]), rest);
      Assoc([Kw(LogicKeyword(c.logic))], CondText(c), more);
      Assoc(CondArgs(c), TailArgs(cs[1..]), ps);
      HeadTail(cs);
    }
  }

  lemma CondsStep(word: Keyword, ts: seq<Token>, ps: seq<Value>, c: Cond, more: seq<Token>, moreParams: seq<Value>)
    requires ParseCond(ts, ps, And) == Got(c, more, moreParams)
    requires ParseTail(more, moreParams).Got?
    ensures var tail := ParseTail(more, moreParams);
            ParseClause(word, [Kw(word)] + ts, ps) == Got([c] + tail.value, tail.tokens, tail.params)
  {
    assert ([Kw(word)] + ts)[1..] == ts;
  }

  lemma ClauseSplits(word: Keyword, cs: seq<Cond>, rest: seq<Token>, ps: seq<Value>)
    requires cs != []
    ensures ClauseText(word, cs) + rest == [Kw(word)] + (CondText(cs[0]) + (TailText(cs[1..]) + rest))
    ensures TailArgs(cs) + ps == CondArgs(cs[0]) + (TailArgs(cs[1..]) + ps)
  {
    Assoc([Kw(word)], CondText(cs[0]) + TailText(cs[1..]), rest);
    Assoc(CondText(cs[0]), TailText(cs[1..]), rest);
    Assoc(CondArgs(cs[0]), TailArgs(cs[1..]), ps);
  }

  lemma SomeClauseParses(word: Keyword, cs: seq<Cond>, rest: seq<Token>, ps: seq<Value>, ts: seq<Token>, qs: seq<Value>)
    requires ReadableClause(cs) && cs != [] && Rank(rest) >= 2
    requires ts == [Kw(word)] + (CondText(cs[0]) + (TailText(cs[1..]) + rest))
    requires qs == CondArgs(cs[0]) + (TailArgs(cs[1..]) + ps)
    ensures ParseClause(word, ts, qs) == Got(cs, rest, ps)
  {
    var c := cs[0];
    var more := TailText(cs[1..]) + rest;
    var moreParams := TailArgs(cs[1..]) + ps;
    CondParses(c, more, moreParams);
    TailParses(cs[1..], rest, ps);
    CondsStep(word, CondText(c) + more, CondArgs(c) + moreParams, c, more, moreParams);
    HeadTail(cs);
  }

  lemma WordRank(word: Keyword, ts: seq<Token>)
    ensures word == WHERE ==> Rank([Kw(word)] + ts) == 1
    ensures word == HAVING ==> Rank([Kw(word)] + ts) == 3
  {
  }

  lemma ClauseParses(word: Keyword, cs: seq<Cond>, rest: seq<Token>, ps: seq<Value>)
    requires ReadableClause(cs)
    requires (word == WHERE && Rank(rest) >= 2) || (word == HAVING && Rank(rest) >= 4)
    ensures ParseClause(word, ClauseText(word, cs) + rest, TailArgs(cs) + ps) == Got(cs, rest, ps)
    ensures Rank(ClauseText(word, cs) + rest) >= if word == WHERE then 1 else 3
  {
    if cs == [] {
      assert ClauseText(word, cs) + rest == rest && TailArgs(cs) + ps == ps;
    } else {
      ClauseSplits(word, cs, rest, ps);
      WordRank(word, CondText(cs[0]) + (TailText(cs[1..]) + rest));
      SomeClauseParses(word, cs, rest, ps, ClauseText(word, cs) + rest, TailArgs(cs) + ps);
    }
  }

  // ---------- Lists ----------

  lemma {:induction false} CommaTailParses(names: seq<string>, rest: seq<Token>)
    requires !StartsWithComma(rest)
    ensures ParseCommaTail(CommaTail(names) + rest) == (names, rest)
  {
    if names == [] {
      assert CommaTail(names) + rest == rest;
    } else {
      CommaTailParses(names[1..], rest);
      HeadTail(names);
      assert (CommaTail(names) + rest)[2..] == CommaTail(names[1..]) + rest;
    }
  }

  lemma NamesParse(names: seq<string>, rest: seq<Token>, ps: seq<Value>)
    requires names != [] && !StartsWithComma(rest)
    ensures ParseNames(NameList(names) + rest, ps) == Got(names, rest, ps)
  {
    CommaTailParses(names[1..], rest);
    HeadTail(names);
    assert (NameList(names) + rest)[1..] == CommaTail(names[1..]) + rest;
  }

  lemma JoinStep(j: JoinClause, ts: seq<Token>)
    ensures ParseJoins([Kw(KindKeyword(j.kind)), Kw(JOIN), Name(j.table), Kw(ON), JoinCondition(j.on)] + ts)
            == ([j] + ParseJoins(ts).0, ParseJoins(ts).1)
  {
    var head := [Kw(KindKeyword(j.kind)), Kw(JOIN), Name(j.table), Kw(ON), JoinCondition(j.on)];
    assert (head + ts)[5..] == ts;
  }

  lemma {:induction false} JoinsParse(js: seq<JoinClause>, rest: seq<Token>)
    requires Rank(rest) >= 1
    ensures ParseJoins(JoinTokens(js) + rest) == (js, rest)
    ensures js != [] ==> !StartsWithComma(JoinTokens(js) + rest)
  {
    if js == [] {
      assert JoinTokens(js) + rest == rest;
    } else {
      var j := js[0];
      JoinsParse(js[1..], rest);
      JoinStep(j, JoinTokens(js[1..]) + rest);
      Assoc([Kw(KindKeyword(j.kind)), Kw(JOIN), Name(j.table), Kw(ON), JoinCondition(j.on)], JoinTokens(js[1..]), rest);
      HeadTail(js);
    }
  }

  lemma SomeGroupsParse(groups: seq<string>, rest: seq<Token>, ps: seq<Value>, ts: seq<Token>)
    requires groups != [] && Rank(rest) >= 3 && ts == [Kw(GROUP_BY)] + (NameList(groups) + rest)
    ensures ParseGroups(ts, ps) == Got(groups, rest, ps) && Rank(ts) == 2
  {
    NamesParse(groups, rest, ps);
    assert ts[1..] == NameList(groups) + rest;
  }

  lemma GroupsParse(groups: seq<string>, rest: seq<Token>, ps: seq<Value>)
    requires Rank(rest) >= 3
    ensures ParseGroups(GroupTokens(groups) + rest, ps) == Got(groups, rest, ps)
    ensures Rank(GroupTokens(groups) + rest) >= 2
  {
    if groups == [] {
      assert GroupTokens(groups) + rest == rest;
    } else {
      Assoc([Kw(GROUP_BY)], NameList(groups), rest);
      SomeGroupsParse(groups, rest, ps, GroupTokens(groups) + rest);
    }
  }

  lemma OrderStep(first: Token, o: Order, ts: seq<Token>)
    ensures var head := [first, Name(o.column), Direction(o.descending)];
            first == Comma ==> ParseOrderTail(head + ts) == ([o] + ParseOrderTail(ts).0, ParseOrderTail(ts).1)
    ensures forall ps :: first == Kw(ORDER_BY) ==>
              ParseOrder([first, Name(o.column), Direction(o.descending)] + ts, ps)
              == Got([o] + ParseOrderTail(ts).0, ParseOrderTail(ts).1, ps)
  {
    assert ([first, Name(o.column), Direction(o.descending)] + ts)[3..] == ts;
  }

  lemma {:induction false} OrderTailParses(os: seq<Order>, rest: seq<Token>)
    requires !StartsWithComma(rest)
    ensures ParseOrderTail(OrderTail(os) + rest) == (os, rest)
  {
    if os == [] {
      assert OrderTail(os) + rest == rest;
    } else {
      OrderTailParses(os[1..], rest);
      OrderStep(Comma, os[0], OrderTail(os[1..]) + rest);
      Assoc([Comma, Name(os[0].column), Direction(os[0].descending)], OrderTail(os[1..]), rest);
      HeadTail(os);
    }
  }

  lemma OrderParses(os: seq<Order>, rest: seq<Token>, ps: seq<Value>)
    requires Rank(rest) >= 5
    ensures ParseOrder(OrderTokens(os) + rest, ps) == Got(os, rest, ps)
    ensures Rank(OrderTokens(os) + rest) >= 4
  {
    if os == [] {
      assert OrderTokens(os) + rest == rest;
    } else {
      OrderTailParses(os[1..], rest);
      OrderStep(Kw(ORDER_BY), os[0], OrderTail(os[1..]) + rest);
      Assoc([Kw(ORDER_BY), Name(os[0].column), Direction(os[0].descending)], OrderTail(os[1..]), rest);
      HeadTail(os);
    }
  }

  lemma CountParses(k: Keyword, n: int, rest: seq<Token>, ps: seq<Value>)
    requires (k == LIMIT && Rank(rest) >= 6) || (k == OFFSET && Rank(rest) >= 7)
    requires n >= 0
    ensures ParseCount(k, CountTokens(k, n) + rest, ps) == Got(n, rest, ps)
    ensures Rank(CountTokens(k, n) + rest) >= if k == LIMIT then 5 else 6
  {
    if n > 0 {
      assert (CountTokens(k, n) + rest)[2..] == rest;
    } else {
      assert CountTokens(k, n) + rest == rest;
    }
  }

  lemma HeadParses(columns: seq<string>, table: string, rest: seq<Token>, ps: seq<Value>)
    requires columns != []
    ensures ParseNames(ColumnTokens(columns) + (FromTokens(table) + rest), ps)
            == Got(columns, FromTokens(table) + rest, ps)
    ensures ParseFrom(FromTokens(table) + rest, ps) == Got(table, rest, ps)
  {
    NamesParse(columns, FromTokens(table) + rest, ps);
    assert (FromTokens(table) + rest)[2..] == rest;
  }

  // ---------- Whole statements ----------

  /** The text of a SELECT with what follows, clause after clause. */
  function Nested(s: Select, rest: seq<Token>): seq<Token> {
    [Kw(SELECT)] + (ColumnTokens(s.columns) + (FromTokens(s.table) + (JoinTokens(s.joins) + (ClauseText(WHERE, s.wheres)
    + (GroupTokens(s.groups) + (ClauseText(HAVING, s.havings) + (OrderTokens(s.orders)
    + (CountTokens(LIMIT, s.limit) + (CountTokens(OFFSET, s.offset) + rest)))))))))
  }

  lemma NestedIs(s: Select, rest: seq<Token>)
    ensures SelectText(s) + rest == Nested(s, rest)
  {
    var a1 := [Kw(SELECT)] + ColumnTokens(s.columns);
    var a2 := a1 + FromTokens(s.table);
    var a3 := a2 + JoinTokens(s.joins);
    var a4 := a3 + ClauseText(WHERE, s.wheres);
    var a5 := a4 + GroupTokens(s.groups);
    var a6 := a5 + ClauseText(HAVING, s.havings);
    var a7 := a6 + OrderTokens(s.orders);
    var a8 := a7 + CountTokens(LIMIT, s.limit);
    var r9 := CountTokens(OFFSET, s.offset) + rest;
    var r8 := CountTokens(LIMIT, s.limit) + r9;
    var r7 := OrderTokens(s.orders) + r8;
    var r6 := ClauseText(HAVING, s.havings) + r7;
    var r5 := GroupTokens(s.groups) + r6;
    var r4 := ClauseText(WHERE, s.wheres) + r5;
    var r3 := JoinTokens(s.joins) + r4;
    var r2 := FromTokens(s.table) + r3;
    Assoc(a8, CountTokens(OFFSET, s.offset), rest);
    Assoc(a7, CountTokens(LIMIT, s.limit), r9);
    Assoc(a6, OrderTokens(s.orders), r8);
    Assoc(a5, ClauseText(HAVING, s.havings), r7);
    Assoc(a4, GroupTokens(s.groups), r6);
    Assoc(a3, ClauseText(WHERE, s.wheres), r5);
    Assoc(a2, JoinTokens(s.joins), r4);
    Assoc(a1, FromTokens(s.table), r3);
    Assoc([Kw(SELECT)], ColumnTokens(s.columns), r2);
  }

  /** The parser's steps over one SELECT, whatever its clauses are. */
  lemma SelectSteps(s: Select, ts: seq<Token>, r2: seq<Token>, r3: seq<Token>, r4: seq<Token>, r5: seq<Token>,
                    r6: seq<Token>, r7: seq<Token>, r8: seq<Token>, r9: seq<Token>, rest: seq<Token>,
                    ps0: seq<Value>, ps1: seq<Value>, ps: seq<Value>)
    requires ParseNames(ts, ps0) == Got(s.columns, r2, ps0)
    requires ParseFrom(r2, ps0) == Got(s.table, r3, ps0)
    requires ParseJoins(r3) == (s.joins, r4)
    requires ParseClause(WHERE, r4, ps0) == Got(s.wheres, r5, ps1)
    requires ParseGroups(r5, ps1) == Got(s.groups, r6, ps1)
    requires ParseClause(HAVING, r6, ps1) == Got(s.havings, r7, ps)
    requires ParseOrder(r7, ps) == Got(s.orders, r8, ps)
    requires ParseCount(LIMIT, r8, ps) == Got(s.limit, r9, ps)
    requires ParseCount(OFFSET, r9, ps) == Got(s.offset, rest, ps)
    ensures ParseSelect([Kw(SELECT)] + ts, ps0) == Got(s, rest, ps)
  {
    assert ([Kw(SELECT)] + ts)[1..] == ts;
  }

  lemma SelectParses(s: Select, rest: seq<Token>, ps: seq<Value>)
    requires ReadableSelect(s) && Rank(rest) >= 7
    ensures ParseSelect(SelectText(s) + rest, SelectArgs(s) + ps) == Got(s, rest, ps)
  {
    var ps1 := TailArgs(s.havings) + ps;
    var ps0 := TailArgs(s.wheres) + ps1;
    var r9 := CountTokens(OFFSET, s.offset) + rest;
    var r8 := CountTokens(LIMIT, s.limit) + r9;
    var r7 := OrderTokens(s.orders) + r8;
    var r6 := ClauseText(HAVING, s.havings) + r7;
    var r5 := GroupTokens(s.groups) + r6;
    var r4 := ClauseText(WHERE, s.wheres) + r5;
    var r3 := JoinTokens(s.joins) + r4;
    var r2 := FromTokens(s.table) + r3;
    CountParses(OFFSET, s.offset, rest, ps);
    CountParses(LIMIT, s.limit, r9, ps);
    OrderParses(s.orders, r8, ps);
    ClauseParses(HAVING, s.havings, r7, ps);
    GroupsParse(s.groups, r6, ps1);
    ClauseParses(WHERE, s.wheres, r5, ps1);
    JoinsParse(s.joins, r4);
    HeadParses(s.columns, s.table, r3, ps0);
    SelectSteps(s, ColumnTokens(s.columns) + r2, r2, r3, r4, r5, r6, r7, r8, r9, rest, ps0, ps1, ps);
    NestedIs(s, rest);
    Assoc(TailArgs(s.wheres), TailArgs(s.havings), ps);
  }

  lemma StartsSelect(q: Query)
    ensures StartsWith(Text(q), SELECT)
  {
    NestedIs(q.select, if q.Single? then [] else UnionWord(q.all) + Text(q.rest));
    assert SelectText(q.select) + [] == SelectText(q.select);
  }

  lemma UnionRest(all: bool, ts: seq<Token>)
    requires StartsWith(ts, SELECT)
    ensures var rest := UnionWord(all) + ts;
            && Rank(rest) == 7 && |rest| >= 2 && (rest[1] == Kw(ALL) <==> all)
            && rest[|UnionWord(all)|..] == ts
  {
  }

  lemma ParseSingle(ts: seq<Token>, ps: seq<Value>, s: Select)
    requires ParseSelect(ts, ps) == Got(s, [], [])
    ensures Parse(ts, ps) == Some(Single(s))
  {
  }

  lemma ParseUnion(ts: seq<Token>, ps: seq<Value>, s: Select, all: bool, rest: seq<Token>,
                   more: seq<Token>, moreParams: seq<Value>)
    requires ParseSelect(ts, ps) == Got(s, rest, moreParams)
    requires StartsWith(rest, UNION) && |rest| >= 2 && (rest[1] == Kw(ALL) <==> all)
    requires more == rest[|UnionWord(all)|..] && |more| < |ts|
    ensures Parse(ts, ps) == match Parse(more, moreParams)
                             case Some(q) => Some(Union(s, all, q))
                             case None => None
  {
  }

  lemma SingleReads(s: Select)
    requires ReadableSelect(s)
    ensures Parse(SelectText(s), SelectArgs(s)) == Some(Single(s))
  {
    SelectParses(s, [], []);
    assert SelectText(s) + [] == SelectText(s) && SelectArgs(s) + [] == SelectArgs(s);
    ParseSingle(SelectText(s), SelectArgs(s), s);
  }

  lemma UnionReads(s: Select, all: bool, more: Query)
    requires ReadableSelect(s) && Parse(Text(more), Args(more)) == Some(more)
    ensures Parse(SelectText(s) + (UnionWord(all) + Text(more)), SelectArgs(s) + Args(more))
            == Some(Union(s, all, more))
  {
    var rest := UnionWord(all) + Text(more);
    StartsSelect(more);
    UnionRest(all, Text(more));
    SelectParses(s, rest, Args(more));
    ParseUnion(SelectText(s) + rest, SelectArgs(s) + Args(more), s, all, rest, Text(more), Args(more));
  }

  /** The parser reads the text of every statement of the language, at every union depth. */
  lemma {:induction false} ReadsText(q: Query)
    requires ReadableQuery(q)
    ensures Parse(Text(q), Args(q)) == Some(q)
  {
    match q
    case Single(s) => SingleReads(s);
    case Union(s, all, more) =>
      ReadsText(more);
      UnionReads(s, all, more);
  }

  // ---------- Nothing else is read ----------

  /** What was read is the text of the result, followed by what remains. */
  predicate Exactly(text: seq<Token>, args: seq<Value>, ts: seq<Token>, ps: seq<Value>, rest: seq<Token>,
                    left: seq<Value>) {
    ts == text + rest && ps == args + left
  }

  lemma {:induction false} PlaceholdersExact(ts: seq<Token>)
    requires ParsePlaceholders(ts).Some?
    ensures var n := ParsePlaceholders(ts).value;
            n >= 1 && |Placeholders(n)| == 2 * n - 1 <= |ts| && ts[..2 * n - 1] == Placeholders(n)
  {
    if |ts| >= 2 && ts[1] == Comma {
      PlaceholdersExact(ts[2..]);
      var n := ParsePlaceholders(ts[2..]).value;
      assert ts[..2 * n + 1] == [Placeholder, Comma] + ts[2..][..2 * n - 1];
    }
  }

  lemma ListExact(column: string, operator: string, ts: seq<Token>, ps: seq<Value>, logic: Logic)
    requires ParseList(column, operator, ts, ps, logic).Got?
    ensures var r := ParseList(column, operator, ts, ps, logic);
            && r.value.params.Some? && r.value.value == InClause(|r.value.params.value|)
            && Exactly(r.value.value.tokens, r.value.params.value, ts, ps, r.tokens, r.params)
  {
    if ts[1] == RParen {
      assert InClause(0).tokens == [LParen, RParen];
      assert ts == [LParen, RParen] + ts[2..];
    } else {
      PlaceholdersExact(ts[1..]);
      var n := ParsePlaceholders(ts[1..]).value;
      assert ts == [LParen] + ts[1..][..2 * n - 1] + [ts[2 * n]] + ts[2 * n + 1..];
    }
  }

  lemma CondExact(ts: seq<Token>, ps: seq<Value>, logic: Logic)
    requires ParseCond(ts, ps, logic).Got?
    ensures var r := ParseCond(ts, ps, logic);
            && Readable(r.value) && r.value.logic == logic
            && Exactly(CondText(r.value), CondArgs(r.value), ts, ps, r.tokens, r.params)
  {
    var column, operator := ts[0].text, ts[1].text;
    var head := [Name(column), Operator(operator)];
    assert ts == head + ts[2..];
    match Takes(operator)
    case Bare => assert head + [] == head && [] + ps == ps;
    case List =>
      ListExact(column, operator, ts[2..], ps, logic);
      var r := ParseList(column, operator, ts[2..], ps, logic);
      Assoc(head, r.value.value.tokens, r.tokens);
    case Range =>
      assert ts[2..] == RANGE.tokens + ts[2..][3..] && ps == ps[..2] + ps[2..];
      Assoc(head, RANGE.tokens, ts[2..][3..]);
    case One =>
      assert ts[2..] == [Placeholder] + ts[2..][1..] && ps == [ps[0]] + ps[1..];
      Assoc(head, [Placeholder], ts[2..][1..]);
  }

  lemma LogicHead(ts: seq<Token>)
    requires StartsWithLogic(ts)
    ensures var logic := if ts[0] == Kw(AND) then And else Or; ts == [Kw(LogicKeyword(logic))] + ts[1..]
  {
  }

  /** One condition and the tail after it. */
  lemma ChainExact(first: seq<Token>, args: seq<Value>, ts: seq<Token>, ps: seq<Value>, cs: seq<Cond>,
                   mid: seq<Token>, midParams: seq<Value>, rest: seq<Token>, left: seq<Value>)
    requires Exactly(first, args, ts, ps, mid, midParams)
             && Exactly(TailText(cs), TailArgs(cs), mid, midParams, rest, left)
    ensures Exactly(first + TailText(cs), args + TailArgs(cs), ts, ps, rest, left)
  {
    Assoc(first, TailText(cs), rest);
    Assoc(args, TailArgs(cs), left);
  }

  lemma OneMore(c: Cond, cs: seq<Cond>)
    requires Readable(c) && AllReadable(cs)
    ensures AllReadable([c] + cs) && ([c] + cs)[1..] == cs
  {
  }

  lemma {:induction false} TailExact(ts: seq<Token>, ps: seq<Value>)
    requires ParseTail(ts, ps).Got?
    ensures var r := ParseTail(ts, ps);
            AllReadable(r.value) && Exactly(TailText(r.value), TailArgs(r.value), ts, ps, r.tokens, r.params)
    decreases |ts|
  {
    if StartsWithLogic(ts) {
      var logic := if ts[0] == Kw(AND) then And else Or;
      var c := ParseCond(ts[1..], ps, logic);
      CondExact(ts[1..], ps, logic);
      TailExact(c.tokens, c.params);
      var more := ParseTail(c.tokens, c.params);
      OneMore(c.value, more.value);
      LogicHead(ts);
      Assoc([Kw(LogicKeyword(logic))], CondText(c.value), c.tokens);
      ChainExact([Kw(LogicKeyword(logic))] + CondText(c.value), CondArgs(c.value), ts, ps, more.value,
                 c.tokens, c.params, more.tokens, more.params);
    }
  }

  lemma ClauseExact(word: Keyword, ts: seq<Token>, ps: seq<Value>)
    requires ParseClause(word, ts, ps).Got?
    ensures var r := ParseClause(word, ts, ps);
            ReadableClause(r.value) && Exactly(ClauseText(word, r.value), TailArgs(r.value), ts, ps, r.tokens, r.params)
  {
    if StartsWith(ts, word) {
      var c := ParseCond(ts[1..], ps, And);
      CondExact(ts[1..], ps, And);
      TailExact(c.tokens, c.params);
      var more := ParseTail(c.tokens, c.params);
      OneMore(c.value, more.value);
      ChainExact(CondText(c.value), CondArgs(c.value), ts[1..], ps, more.value, c.tokens, c.params, more.tokens,
                 more.params);
      HeadTail(ts);
      Assoc([Kw(word)], CondText(c.value) + TailText(more.value), more.tokens);
    }
  }

  lemma {:induction false} CommaTailExact(ts: seq<Token>)
    ensures ts == CommaTail(ParseCommaTail(ts).0) + ParseCommaTail(ts).1
  {
    if |ts| >= 2 && ts[0] == Comma && ts[1].Name? {
      CommaTailExact(ts[2..]);
      var (names, rest) := ParseCommaTail(ts[2..]);
      assert ([ts[1].text] + names)[1..] == names;
      assert ts == [Comma, Name(ts[1].text)] + ts[2..];
    }
  }

  lemma NamesExact(ts: seq<Token>, ps: seq<Value>)
    requires ParseNames(ts, ps).Got?
    ensures var r := ParseNames(ts, ps);
            r.value != [] && ts == NameList(r.value) + r.tokens && r.params == ps
  {
    CommaTailExact(ts[1..]);
    var (names, rest) := ParseCommaTail(ts[1..]);
    assert ([ts[0].text] + names)[1..] == names;
    HeadTail(ts);
  }

  lemma {:induction false} JoinsExact(ts: seq<Token>)
    ensures ts == JoinTokens(ParseJoins(ts).0) + ParseJoins(ts).1
  {
    if |ts| >= 5 && ParseKind(ts[0]).Some? && ts[1] == Kw(JOIN) && ts[2].Name? && ts[3] == Kw(ON)
       && ts[4].JoinCondition? {
      JoinsExact(ts[5..]);
      var (js, rest) := ParseJoins(ts[5..]);
      var j := JoinClause(ParseKind(ts[0]).value, ts[2].text, ts[4].text);
      assert ([j] + js)[1..] == js;
      assert ts == [Kw(KindKeyword(j.kind)), Kw(JOIN), Name(j.table), Kw(ON), JoinCondition(j.on)] + ts[5..];
    }
  }

  lemma ThreeTokens(ts: seq<Token>)
    requires |ts| >= 3
    ensures ts == [ts[0], ts[1], ts[2]] + ts[3..]
  {
  }

  lemma {:induction false} OrderTailExact(ts: seq<Token>)
    ensures ts == OrderTail(ParseOrderTail(ts).0) + ParseOrderTail(ts).1
  {
    if |ts| >= 3 && ts[0] == Comma && ts[1].Name? && ts[2].Direction? {
      OrderTailExact(ts[3..]);
      var (os, rest) := ParseOrderTail(ts[3..]);
      var o := Order(ts[1].text, ts[2].descending);
      assert ([o] + os)[1..] == os;
      ThreeTokens(ts);
    }
  }

  lemma OrderExact(ts: seq<Token>, ps: seq<Value>)
    requires ParseOrder(ts, ps).Got?
    ensures var r := ParseOrder(ts, ps); ts == OrderTokens(r.value) + r.tokens && r.params == ps
  {
    if StartsWith(ts, ORDER_BY) {
      OrderTailExact(ts[3..]);
      var (os, rest) := ParseOrderTail(ts[3..]);
      var o := Order(ts[1].text, ts[2].descending);
      assert ([o] + os)[1..] == os;
      ThreeTokens(ts);
    }
  }

  lemma GroupsExact(ts: seq<Token>, ps: seq<Value>)
    requires ParseGroups(ts, ps).Got?
    ensures var r := ParseGroups(ts, ps); ts == GroupTokens(r.value) + r.tokens && r.params == ps
  {
    if StartsWith(ts, GROUP_BY) {
      NamesExact(ts[1..], ps);
      var r := ParseNames(ts[1..], ps);
      HeadTail(ts);
      Assoc([Kw(GROUP_BY)], NameList(r.value), r.tokens);
    }
  }

  lemma CountExact(k: Keyword, ts: seq<Token>, ps: seq<Value>)
    ensures var r := ParseCount(k, ts, ps);
            r.Got? && r.value >= 0 && ts == CountTokens(k, r.value) + r.tokens && r.params == ps
  {
    if ParseCount(k, ts, ps).value > 0 {
      assert ts == [Kw(k), Number(ts[1].n)] + ts[2..];
    }
  }

  lemma FromExact(ts: seq<Token>, ps: seq<Value>)
    requires ParseFrom(ts, ps).Got?
    ensures var r := ParseFrom(ts, ps); ts == FromTokens(r.value) + r.tokens && r.params == ps
  {
    assert ts == [Kw(FROM), Name(ts[1].text)] + ts[2..];
  }

  lemma SelectGlue(s: Select, ts: seq<Token>, r2: seq<Token>, r3: seq<Token>, r4: seq<Token>, r5: seq<Token>,
                   r6: seq<Token>,
                   r7: seq<Token>, r8: seq<Token>, r9: seq<Token>, rest: seq<Token>)
    requires ts == [Kw(SELECT)] + (ColumnTokens(s.columns) + r2) && r2 == FromTokens(s.table) + r3
    requires r3 == JoinTokens(s.joins) + r4 && r4 == ClauseText(WHERE, s.wheres) + r5
    requires r5 == GroupTokens(s.groups) + r6 && r6 == ClauseText(HAVING, s.havings) + r7
    requires r7 == OrderTokens(s.orders) + r8 && r8 == CountTokens(LIMIT, s.limit) + r9
    requires r9 == CountTokens(OFFSET, s.offset) + rest
    ensures ts == SelectText(s) + rest
  {
    NestedIs(s, rest);
  }

  lemma SelectExact(ts: seq<Token>, ps: seq<Value>)
    requires ParseSelect(ts, ps).Got?
    ensures var r := ParseSelect(ts, ps);
            ReadableSelect(r.value) && Exactly(SelectText(r.value), SelectArgs(r.value), ts, ps, r.tokens, r.params)
  {
    var columns := ParseNames(ts[1..], ps);
    NamesExact(ts[1..], ps);
    var table := ParseFrom(columns.tokens, ps);
    FromExact(columns.tokens, ps);
    var (joins, afterJoins) := ParseJoins(table.tokens);
    JoinsExact(table.tokens);
    var wheres := ParseClause(WHERE, afterJoins, ps);
    ClauseExact(WHERE, afterJoins, ps);
    var groups := ParseGroups(wheres.tokens, wheres.params);
    GroupsExact(wheres.tokens, wheres.params);
    var havings := ParseClause(HAVING, groups.tokens, groups.params);
    ClauseExact(HAVING, groups.tokens, groups.params);
    var orders := ParseOrder(havings.tokens, havings.params);
    OrderExact(havings.tokens, havings.params);
    var limit := ParseCount(LIMIT, orders.tokens, orders.params);
    CountExact(LIMIT, orders.tokens, orders.params);
    var offset := ParseCount(OFFSET, limit.tokens, limit.params);
    CountExact(OFFSET, limit.tokens, limit.params);
    var s := ParseSelect(ts, ps).value;
    HeadTail(ts);
    SelectGlue(s, ts, columns.tokens, table.tokens, afterJoins, wheres.tokens, groups.tokens, havings.tokens,
               orders.tokens, limit.tokens, offset.tokens);
    Assoc(TailArgs(s.wheres), TailArgs(s.havings), offset.params);
  }

  /** The statement that was read has this text. */
  predicate IsTextOf(ts: seq<Token>, ps: seq<Value>, q: Query) {
    ReadableQuery(q) && ts == Text(q) && ps == Args(q)
  }

  lemma UnionExact(s: Select, all: bool, more: Query, ts: seq<Token>, ps: seq<Value>, rest: seq<Token>,
                   next: seq<Token>, left: seq<Value>)
    requires Exactly(SelectText(s), SelectArgs(s), ts, ps, rest, left)
    requires ReadableSelect(s) && IsTextOf(next, left, more) && rest == UnionWord(all) + next
    ensures IsTextOf(ts, ps, Union(s, all, more))
  {
  }

  lemma UnionHead(ts: seq<Token>, all: bool)
    requires StartsWith(ts, UNION) && (all <==> |ts| >= 2 && ts[1] == Kw(ALL))
    ensures ts == UnionWord(all) + if all then ts[2..] else ts[1..]
  {
  }

  /** After a SELECT with a union: the rest that is read next. */
  lemma ParseRest(ts: seq<Token>, ps: seq<Value>) returns (all: bool, next: seq<Token>)
    requires Parse(ts, ps).Some? && ParseSelect(ts, ps).tokens != []
    ensures var s := ParseSelect(ts, ps);
            && s.tokens == UnionWord(all) + next && |next| < |ts| && Parse(next, s.params).Some?
            && Parse(ts, ps) == Some(Union(s.value, all, Parse(next, s.params).value))
  {
    var s := ParseSelect(ts, ps);
    all := |s.tokens| >= 2 && s.tokens[1] == Kw(ALL);
    next := if all then s.tokens[2..] else s.tokens[1..];
    UnionHead(s.tokens, all);
  }

  lemma ParseLast(ts: seq<Token>, ps: seq<Value>)
    requires Parse(ts, ps).Some? && ParseSelect(ts, ps).tokens == []
    ensures ParseSelect(ts, ps).params == [] && Parse(ts, ps) == Some(Single(ParseSelect(ts, ps).value))
  {
  }

  lemma {:induction false} ReadsOnlyText(ts: seq<Token>, ps: seq<Value>)
    requires Parse(ts, ps).Some?
    ensures IsTextOf(ts, ps, Parse(ts, ps).value)
    decreases |ts|
  {
    SelectExact(ts, ps);
    var s := ParseSelect(ts, ps);
    if s.tokens == [] {
      ParseLast(ts, ps);
    } else {
      var all, next := ParseRest(ts, ps);
      ReadsOnlyText(next, s.params);
      UnionExact(s.value, all, Parse(next, s.params).value, ts, ps, s.tokens, next, s.params);
    }
  }

  /** Reading and writing are inverse to each other: tokens and parameters are read as a
      statement exactly when they are its text, each operator with the operands it takes. */
  lemma ParseIff(ts: seq<Token>, ps: seq<Value>, q: Query)
    ensures Parse(ts, ps) == Some(q) <==> IsTextOf(ts, ps, q)
  {
    if Parse(ts, ps) == Some(q) {
      ReadsOnlyText(ts, ps);
    } else if ReadableQuery(q) {
      ReadsText(q);
    }
  }
}
