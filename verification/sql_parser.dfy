/** A recursive descent parser for the printed statements; parameters are consumed in
    the order of the placeholders. */
module SqlParser {
  import opened Basics
  import opened Sql
  import opened SqlGrammar

  /** A parsed piece with the tokens and parameters that remain. */
  datatype Parsed<+T> = Stuck | Got(value: T, tokens: seq<Token>, params: seq<Value>)

  predicate StartsWith(ts: seq<Token>, k: Keyword) {
    ts != [] && ts[0] == Kw(k)
  }

  predicate StartsWithLogic(ts: seq<Token>) {
    StartsWith(ts, AND) || StartsWith(ts, OR)
  }

  predicate StartsWithComma(ts: seq<Token>) {
    ts != [] && ts[0] == Comma
  }

  /** The number of placeholders up to the closing parenthesis. */
  function ParsePlaceholders(ts: seq<Token>): Option<nat> {
    if ts == [] || ts[0] != Placeholder then None
    else if |ts| >= 2 && ts[1] == Comma then
      var more := ParsePlaceholders(ts[2..]);
      if more.Some? then Some(more.value + 1) else None
    else Some(1)
  }

  /** The operands of IN and NOT IN. */
  function ParseList(column: string, operator: string, ts: seq<Token>, ps: seq<Value>, logic: Logic): Parsed<Cond> {
    if |ts| < 2 || ts[0] != LParen then Stuck
    else
      var n := if ts[1] == RParen then Some(0) else ParsePlaceholders(ts[1..]);
      if n.None? || n.value > |ps| then Stuck
      else
        var used := |InClause(n.value).tokens|;
        if used > |ts| || ts[used - 1] != RParen then Stuck
        else Got(Cond(column, operator, InClause(n.value), logic, Some(ps[..n.value])), ts[used..], ps[n.value..])
  }

  function ParseRange(column: string, operator: string, ts: seq<Token>, ps: seq<Value>, logic: Logic): Parsed<Cond> {
    if |ts| >= 3 && ts[..3] == RANGE.tokens && |ps| >= 2 then
      Got(Cond(column, operator, RANGE, logic, Some(ps[..2])), ts[3..], ps[2..])
    else Stuck
  }

  function ParseOne(column: string, operator: string, ts: seq<Token>, ps: seq<Value>, logic: Logic): Parsed<Cond> {
    if |ts| >= 1 && ts[0] == Placeholder && |ps| >= 1 then
      Got(Cond(column, operator, ps[0], logic, None), ts[1..], ps[1..])
    else Stuck
  }

  /** A condition with as many operands as its operator takes. */
  function ParseCond(ts: seq<Token>, ps: seq<Value>, logic: Logic): Parsed<Cond> {
    if |ts| < 2 || !ts[0].Name? || !ts[1].Operator? then Stuck
    else
      var column, operator := ts[0].text, ts[1].text;
      match Takes(operator)
      case Bare => Got(Cond(column, operator, NOTHING, logic, None), ts[2..], ps)
      case List => ParseList(column, operator, ts[2..], ps, logic)
      case Range => ParseRange(column, operator, ts[2..], ps, logic)
      case One => ParseOne(column, operator, ts[2..], ps, logic)
      case NoOperator => Stuck
  }

  function ParseTail(ts: seq<Token>, ps: seq<Value>): Parsed<seq<Cond>>
    decreases |ts|
  {
    if !StartsWithLogic(ts) then Got([], ts, ps)
    else
      var c := ParseCond(ts[1..], ps, if ts[0] == Kw(AND) then And else Or);
      if c.Stuck? || |c.tokens| >= |ts| then Stuck
      else
        var more := ParseTail(c.tokens, c.params);
        if more.Stuck? then Stuck else Got([c.value] + more.value, more.tokens, more.params)
  }

  function ParseConds(ts: seq<Token>, ps: seq<Value>): Parsed<seq<Cond>> {
    var c := ParseCond(ts, ps, And);
    if c.Stuck? then Stuck
    else
      var more := ParseTail(c.tokens, c.params);
      if more.Stuck? then Stuck else Got([c.value] + more.value, more.tokens, more.params)
  }

  /** The conditions of WHERE or HAVING. */
  function ParseClause(word: Keyword, ts: seq<Token>, ps: seq<Value>): Parsed<seq<Cond>> {
    if StartsWith(ts, word) then ParseConds(ts[1..], ps) else Got([], ts, ps)
  }

  function ParseCommaTail(ts: seq<Token>): (r: (seq<string>, seq<Token>)) {
    if |ts| >= 2 && ts[0] == Comma && ts[1].Name? then
      var (names, rest) := ParseCommaTail(ts[2..]);
      ([ts[1].text] + names, rest)
    else ([], ts)
  }

  function ParseNames(ts: seq<Token>, ps: seq<Value>): Parsed<seq<string>> {
    if ts == [] || !ts[0].Name? then Stuck
    else
      var (names, rest) := ParseCommaTail(ts[1..]);
      Got([ts[0].text] + names, rest, ps)
  }

  function ParseFrom(ts: seq<Token>, ps: seq<Value>): Parsed<string> {
    if |ts| >= 2 && ts[0] == Kw(FROM) && ts[1].Name? then Got(ts[1].text, ts[2..], ps) else Stuck
  }

  function ParseKind(t: Token): Option<JoinKind> {
    if t == Kw(INNER) then Some(Inner)
    else if t == Kw(LEFT) then Some(Left)
    else if t == Kw(RIGHT) then Some(Right)
    else None
  }

  function ParseJoins(ts: seq<Token>): (r: (seq<JoinClause>, seq<Token>)) {
    if |ts| >= 5 && ParseKind(ts[0]).Some? && ts[1] == Kw(JOIN) && ts[2].Name? && ts[3] == Kw(ON)
       && ts[4].JoinCondition? then
      var (js, rest) := ParseJoins(ts[5..]);
      ([JoinClause(ParseKind(ts[0]).value, ts[2].text, ts[4].text)] + js, rest)
    else ([], ts)
  }

  function ParseGroups(ts: seq<Token>, ps: seq<Value>): Parsed<seq<string>> {
    if StartsWith(ts, GROUP_BY) then ParseNames(ts[1..], ps) else Got([], ts, ps)
  }

  function ParseOrderTail(ts: seq<Token>): (r: (seq<Order>, seq<Token>)) {
    if |ts| >= 3 && ts[0] == Comma && ts[1].Name? && ts[2].Direction? then
      var (os, rest) := ParseOrderTail(ts[3..]);
      ([Order(ts[1].text, ts[2].descending)] + os, rest)
    else ([], ts)
  }

  function ParseOrder(ts: seq<Token>, ps: seq<Value>): Parsed<seq<Order>> {
    if !StartsWith(ts, ORDER_BY) then Got([], ts, ps)
    else if |ts| >= 3 && ts[1].Name? && ts[2].Direction? then
      var (os, rest) := ParseOrderTail(ts[3..]);
      Got([Order(ts[1].text, ts[2].descending)] + os, rest, ps)
    else Stuck
  }

  function ParseCount(k: Keyword, ts: seq<Token>, ps: seq<Value>): Parsed<int> {
    if |ts| >= 2 && ts[0] == Kw(k) && ts[1].Number? && ts[1].n > 0 then Got(ts[1].n, ts[2..], ps) else Got(0, ts, ps)
  }

  function ParseSelect(ts: seq<Token>, ps: seq<Value>): Parsed<Select> {
    if !StartsWith(ts, SELECT) then Stuck
    else
      var columns := ParseNames(ts[1..], ps);
      if columns.Stuck? then Stuck
      else
        var table := ParseFrom(columns.tokens, ps);
        if table.Stuck? then Stuck
        else
          var (joins, afterJoins) := ParseJoins(table.tokens);
          var wheres := ParseClause(WHERE, afterJoins, ps);
          if wheres.Stuck? then Stuck
          else
            var groups := ParseGroups(wheres.tokens, wheres.params);
            if groups.Stuck? then Stuck
            else
              var havings := ParseClause(HAVING, groups.tokens, groups.params);
              if havings.Stuck? then Stuck
              else
                var orders := ParseOrder(havings.tokens, havings.params);
                if orders.Stuck? then Stuck
                else
                  var limit := ParseCount(LIMIT, orders.tokens, orders.params);
                  var offset := ParseCount(OFFSET, limit.tokens, limit.params);
                  Got(Select(table.value, columns.value, joins, wheres.value, groups.value, havings.value,
                             orders.value, limit.value, offset.value),
                      offset.tokens, offset.params)
  }

  function Parse(ts: seq<Token>, ps: seq<Value>): Option<Query>
    decreases |ts|
  {
    var s := ParseSelect(ts, ps);
    if s.Stuck? then None
    else if s.tokens == [] then if s.params == [] then Some(Single(s.value)) else None
    else if !StartsWith(s.tokens, UNION) then None
    else
      var all := |s.tokens| >= 2 && s.tokens[1] == Kw(ALL);
      var next := if all then s.tokens[2..] else s.tokens[1..];
      if |next| >= |ts| then None
      else
        var rest := Parse(next, s.params);
        if rest.Some? then Some(Union(s.value, all, rest.value)) else None
  }
}
