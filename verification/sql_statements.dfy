/** UPDATE and DELETE as the builder prints them, and their way back. */
module SqlStatements {
  import opened Basics
  import opened Sql
  import opened SqlGrammar
  import opened SqlParser
  import opened SqlReading
  import opened SqlRoundTrip

  datatype Assignment = Assignment(column: string, value: Value)

  const EQUALS := "="

  datatype Statement =
    | Update(table: string, data: seq<Assignment>, wheres: seq<Cond>)
    | Delete(table: string, wheres: seq<Cond>)

  // ---------- Printing ----------

  function AssignmentTail(data: seq<Assignment>): seq<Token> {
    if data == [] then [] else [Comma, Name(data[0].column), Operator(EQUALS), Placeholder] + AssignmentTail(data[1..])
  }

  function AssignmentTokens(data: seq<Assignment>): seq<Token> {
    if data == [] then [] else [Name(data[0].column), Operator(EQUALS), Placeholder] + AssignmentTail(data[1..])
  }

  function AssignmentParams(data: seq<Assignment>): seq<Value> {
    if data == [] then [] else [data[0].value] + AssignmentParams(data[1..])
  }

  function StatementTokens(s: Statement): seq<Token> {
    match s
    case Update(table, data, wheres) => [Kw(UPDATE), Name(table), Kw(SET)]
         + (AssignmentTokens(data) + WhereTokens(wheres))
    case Delete(table, wheres) => [Kw(DELETE), Kw(FROM), Name(table)] + WhereTokens(wheres)
  }

  function StatementParams(s: Statement): seq<Value> {
    match s
    case Update(_, data, wheres) => AssignmentParams(data) + TailParams(wheres)
    case Delete(_, wheres) => TailParams(wheres)
  }

  // ---------- Parsing ----------

  function ParseAssignmentTail(ts: seq<Token>, ps: seq<Value>): Parsed<seq<Assignment>>
    decreases |ts|
  {
    if !StartsWithComma(ts) then Got([], ts, ps)
    else if |ts| >= 4 && ts[1].Name? && ts[2] == Operator(EQUALS) && ts[3] == Placeholder && |ps| >= 1 then
      var more := ParseAssignmentTail(ts[4..], ps[1..]);
      if more.Stuck? then Stuck else Got([Assignment(ts[1].text, ps[0])] + more.value, more.tokens, more.params)
    else Stuck
  }

  function ParseAssignments(ts: seq<Token>, ps: seq<Value>): Parsed<seq<Assignment>> {
    if ts == [] || !ts[0].Name? then Got([], ts, ps)
    else if |ts| >= 3 && ts[1] == Operator(EQUALS) && ts[2] == Placeholder && |ps| >= 1 then
      var more := ParseAssignmentTail(ts[3..], ps[1..]);
      if more.Stuck? then Stuck else Got([Assignment(ts[0].text, ps[0])] + more.value, more.tokens, more.params)
    else Stuck
  }

  function ParseConditions(ts: seq<Token>, ps: seq<Value>): Option<seq<Cond>> {
    var wheres := ParseClause(WHERE, ts, ps);
    if wheres.Got? && wheres.tokens == [] && wheres.params == [] then Some(wheres.value) else None
  }

  function ParseStatement(ts: seq<Token>, ps: seq<Value>): Option<Statement> {
    if |ts| < 3 then None
    else if ts[0] == Kw(UPDATE) && ts[1].Name? && ts[2] == Kw(SET) then
      var data := ParseAssignments(ts[3..], ps);
      if data.Stuck? then None
      else
        var wheres := ParseConditions(data.tokens, data.params);
        if wheres.Some? then Some(Update(ts[1].text, data.value, wheres.value)) else None
    else if ts[0] == Kw(DELETE) && ts[1] == Kw(FROM) && ts[2].Name? then
      var wheres := ParseConditions(ts[3..], ps);
      if wheres.Some? then Some(Delete(ts[2].text, wheres.value)) else None
    else None
  }

  // ---------- There and back ----------

  lemma AssignmentStep(a: Assignment, ts: seq<Token>, ps: seq<Value>)
    requires ParseAssignmentTail(ts, ps).Got?
    ensures var head := [Name(a.column), Operator(EQUALS), Placeholder];
            var more := ParseAssignmentTail(ts, ps);
            var r := Got([a] + more.value, more.tokens, more.params);
            && ParseAssignments(head + ts, [a.value] + ps) == r
            && ParseAssignmentTail([Comma] + head + ts, [a.value] + ps) == r
  {
    var head := [Name(a.column), Operator(EQUALS), Placeholder];
    assert (head + ts)[3..] == ts && ([Comma] + head + ts)[4..] == ts && ([a.value] + ps)[1..] == ps;
  }

  lemma {:induction false} AssignmentTailParses(data: seq<Assignment>, rest: seq<Token>, ps: seq<Value>)
    requires !StartsWithComma(rest)
    ensures ParseAssignmentTail(AssignmentTail(data) + rest, AssignmentParams(data) + ps) == Got(data, rest, ps)
  {
    if data == [] {
      assert AssignmentTail(data) + rest == rest && AssignmentParams(data) + ps == ps;
    } else {
      var head := [Name(data[0].column), Operator(EQUALS), Placeholder];
      AssignmentTailParses(data[1..], rest, ps);
      AssignmentStep(data[0], AssignmentTail(data[1..]) + rest, AssignmentParams(data[1..]) + ps);
      assert [Comma] + head == [Comma, Name(data[0].column), Operator(EQUALS), Placeholder];
      Assoc([Comma] + head, AssignmentTail(data[1..]), rest);
      Assoc([data[0].value], AssignmentParams(data[1..]), ps);
      HeadTail(data);
    }
  }

  lemma AssignmentsParse(data: seq<Assignment>, rest: seq<Token>, ps: seq<Value>)
    requires Rank(rest) >= 1
    ensures ParseAssignments(AssignmentTokens(data) + rest, AssignmentParams(data) + ps) == Got(data, rest, ps)
  {
    if data == [] {
      assert AssignmentTokens(data) + rest == rest && AssignmentParams(data) + ps == ps;
    } else {
      AssignmentTailParses(data[1..], rest, ps);
      AssignmentStep(data[0], AssignmentTail(data[1..]) + rest, AssignmentParams(data[1..]) + ps);
      Assoc([Name(data[0].column), Operator(EQUALS), Placeholder], AssignmentTail(data[1..]), rest);
      Assoc([data[0].value], AssignmentParams(data[1..]), ps);
      HeadTail(data);
    }
  }

  lemma ConditionsIff(cs: seq<Cond>)
    ensures ParseConditions(WhereTokens(cs), TailParams(cs)) == Some(FirstAnd(NormalTail(cs))) <==> AllWellBuilt(cs)
  {
    var read := FirstAnd(NormalTail(cs));
    if AllWellBuilt(cs) {
      PrintsWhere(cs);
      ClauseParses(WHERE, read, [], []);
      assert ClauseText(WHERE, read) + [] == WhereTokens(cs) && TailArgs(read) + [] == TailParams(cs);
    } else if ParseConditions(WhereTokens(cs), TailParams(cs)) == Some(read) {
      ClauseExact(WHERE, WhereTokens(cs), TailParams(cs));
      ClauseCounts(WHERE, NormalTail(cs));
      ClauseLengths(cs);
      TailWithin(cs);
    }
  }

  function NormalStatement(s: Statement): Statement {
    s.(wheres := FirstAnd(NormalTail(s.wheres)))
  }

  /** Whatever the conditions are, SET is read first, with the first parameters. */
  lemma ReadsConditions(s: Statement)
    ensures ParseStatement(StatementTokens(s), StatementParams(s))
            == match ParseConditions(WhereTokens(s.wheres), TailParams(s.wheres))
               case Some(cs) => Some(s.(wheres := cs))
               case None => None
  {
    match s
    case Update(table, data, wheres) =>
      var ts := AssignmentTokens(data) + WhereTokens(wheres);
      AssignmentsParse(data, WhereTokens(wheres), TailParams(wheres));
      assert ([Kw(UPDATE), Name(table), Kw(SET)] + ts)[3..] == ts;
    case Delete(table, wheres) =>
      assert StatementTokens(s)[3..] == WhereTokens(wheres);
  }

  /** UPDATE and DELETE print their conditions as SELECT does, and lose nothing; the
      parameters of SET come before those of WHERE. */
  lemma StatementRoundTrip(s: Statement)
    requires AllWellBuilt(s.wheres)
    ensures ParseStatement(StatementTokens(s), StatementParams(s)) == Some(NormalStatement(s))
  {
    ConditionsIff(s.wheres);
    ReadsConditions(s);
  }

  /** The way back exists exactly when every operator was given the operands it takes. */
  lemma StatementRoundTripIff(s: Statement)
    ensures ParseStatement(StatementTokens(s), StatementParams(s)) == Some(NormalStatement(s))
            <==> AllWellBuilt(s.wheres)
  {
    ConditionsIff(s.wheres);
    ReadsConditions(s);
  }
}
