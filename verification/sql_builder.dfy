/** The mutable query builder and its printers. */
module SqlBuilder {
  import opened Basics
  import opened Sql
  import opened SqlReading
  import opened SqlStatements

  datatype Problem =
    | BadTable(text: string)
    | BadColumn(text: string)
    | BadOperator(text: string)
    | BadJoin(text: string)
    | BadDirection(text: string)
    | NoTable

  datatype Result<+T> = Ok(value: T) | Err(problem: Problem)

  /** The text checks made with regular expressions. */
  datatype Rules = Rules(
    identifier: string -> bool,
    expression: string -> bool,
    joinCondition: string -> bool)

  /** Upper-casing as far as it can yield ASCII text: besides the small letters of ASCII only
      the dotless i and the long s become capital letters of ASCII. */
  function UpperChar(c: char): char {
    if 'a' <= c <= 'z' then c - 'a' + 'A'
    else if c == '\U{0131}' then 'I'
    else if c == '\U{017F}' then 'S'
    else c
  }

  function Upper(s: string): string {
    seq(|s|, i requires 0 <= i < |s| => UpperChar(s[i]))
  }

  const OPERATORS: set<string> := {
    "=", "!=", "<>", "<", ">", "<=", ">=", "LIKE", "NOT LIKE", "IN", "NOT IN", "BETWEEN",
    "IS NULL", "IS NOT NULL", "REGEXP"}

  const ASC := "ASC"
  const DESC := "DESC"
  const DELETED_AT := "deleted_at"

  predicate ValidOperator(op: string) {
    Upper(op) in OPERATORS
  }

  predicate Selectable(r: Rules, column: string) {
    column == "*" || r.expression(column) || r.identifier(column)
  }

  predicate Countable(r: Rules, column: string) {
    r.identifier(column) || r.expression(column)
  }

  /** What a WHERE condition may hold: checked names, and the shape its method gives it. */
  predicate CheckedCond(r: Rules, c: Cond) {
    r.identifier(c.column) && (c.operator in OPERATORS || ValidOperator(c.operator)) && Built(c)
  }

  predicate CheckedHaving(r: Rules, c: Cond) {
    Countable(r, c.column) && ValidOperator(c.operator) && HavingBuilt(c) && c.logic == And
  }

  predicate CheckedJoin(r: Rules, j: JoinClause) {
    r.identifier(j.table) && r.joinCondition(j.on)
  }

  /** What every builder keeps: nothing unchecked is ever stored. */
  predicate Checked(r: Rules, s: Select) {
    && (s.table == "" || r.identifier(s.table))
    && (forall i | 0 <= i < |s.columns| :: Selectable(r, s.columns[i]))
    && (forall i | 0 <= i < |s.joins| :: CheckedJoin(r, s.joins[i]))
    && (forall i | 0 <= i < |s.wheres| :: CheckedCond(r, s.wheres[i]))
    && (forall i | 0 <= i < |s.groups| :: r.identifier(s.groups[i]))
    && (forall i | 0 <= i < |s.havings| :: CheckedHaving(r, s.havings[i]))
    && (forall i | 0 <= i < |s.orders| :: r.identifier(s.orders[i].column))
  }

  const EMPTY: Select := Select("", [], [], [], [], [], [], 0, 0)

  /** Page number page of perPage rows. */
  function Paged(s: Select, page: int, perPage: int): (p: Select)
    ensures p.limit >= 1 && p.offset >= 0
  {
    var size := if perPage < 1 then 15 else perPage;
    s.(limit := size, offset := if page <= 1 then 0 else (page - 1) * size)
  }

  class QueryBuilder {
    const rules: Rules
    var table: string
    var selectCols: seq<string>
    var whereConds: seq<Cond>
    var orderBy: seq<Order>
    var groupBy: seq<string>
    var having: seq<Cond>
    var joins: seq<JoinClause>
    var limitCount: int
    var offsetCount: int
    var unionQuery: QueryBuilder?
    var unionAll: bool
    var err: Option<Problem>
    var includeTrashed: bool

    /** The builder's own SELECT. */
    ghost function Head(): Select
      reads this
    {
      Sql.Select(table, selectCols, joins, whereConds, groupBy, having, orderBy, limitCount, offsetCount)
    }

    ghost predicate Valid()
      reads this
    {
      Checked(rules, Head())
    }

    /** At most n unions hang below this builder. */
    ghost predicate Chain(n: nat)
      reads *
    {
      Valid() && (unionQuery == null || (n > 0 && unionQuery.rules == rules && unionQuery.Chain(n - 1)))
    }

    /** The query the builder and its unions stand for, or the first problem met. */
    ghost function Snapshot(n: nat): Result<Query>
      requires Chain(n)
      reads *
    {
      if err.Some? then Err(err.value)
      else if table == "" then Err(NoTable)
      else if unionQuery == null then Ok(Single(Head()))
      else match unionQuery.Snapshot(n - 1)
        case Ok(q) => Ok(Union(Head(), unionAll, q))
        case Err(p) => Err(p)
    }

    constructor (rules: Rules)
      ensures this.rules == rules && Valid() && Head() == EMPTY
      ensures unionQuery == null && !unionAll && err == None && !includeTrashed
    {
      this.rules := rules;
      table, selectCols, whereConds, orderBy, groupBy, having, joins := "", [], [], [], [], [], [];
      limitCount, offsetCount, unionQuery, unionAll, err, includeTrashed := 0, 0, null, false, None, false;
    }

    /** The copy that Chunk makes: another page, and neither error nor union. */
    constructor ForChunk(qb: QueryBuilder, limit: int, offset: int)
      requires qb.Valid()
      ensures rules == qb.rules && Valid() && Head() == qb.Head().(limit := limit, offset := offset)
      ensures unionQuery == null && !unionAll && err == None && includeTrashed == qb.includeTrashed
    {
      rules := qb.rules;
      table, selectCols, whereConds := qb.table, qb.selectCols, qb.whereConds;
      orderBy, groupBy, having, joins := qb.orderBy, qb.groupBy, qb.having, qb.joins;
      limitCount, offsetCount, unionQuery, unionAll, err,
        includeTrashed := limit, offset, null, false, None, qb.includeTrashed;
    }

    method Table(name: string)
      requires Valid()
      modifies this`table, this`err
      ensures Valid()
      ensures if rules.identifier(name) then err == old(err) && table == name
              else err == Some(BadTable(name)) && table == old(table)
    {
      if !rules.identifier(name) {
        err := Some(BadTable(name));
        return;
      }
      table := name;
    }

    method Select(columns: seq<string>)
      requires Valid()
      modifies this`selectCols, this`err
      ensures Valid()
      ensures if forall i | 0 <= i < |columns| :: Selectable(rules, columns[i])
              then err == old(err) && selectCols == columns
              else selectCols == old(selectCols)
                   && exists i | 0 <= i < |columns| :: !Selectable(rules, columns[i])
                        && err == Some(BadColumn(columns[i]))
                        && forall j | 0 <= j < i :: Selectable(rules, columns[j])
    {
      for i := 0 to |columns|
        invariant forall j | 0 <= j < i :: Selectable(rules, columns[j])
        invariant err == old(err) && selectCols == old(selectCols)
      {
        if columns[i] == "*" || rules.expression(columns[i]) {
          continue;
        }
        if !rules.identifier(columns[i]) {
          err := Some(BadColumn(columns[i]));
          return;
        }
      }
      selectCols := columns;
    }

    /** Where and OrWhere. */
    method AddCondition(column: string, operator: string, value: Value, logic: Logic)
      requires Valid()
      modifies this`whereConds, this`err
      ensures Valid()
      ensures if rules.identifier(column) && ValidOperator(operator)
              then err == old(err) && whereConds == old(whereConds) + [Cond(column, operator, value, logic, None)]
              else whereConds == old(whereConds)
                   && err == Some(if rules.identifier(column) then BadOperator(operator) else BadColumn(column))
    {
      if !rules.identifier(column) {
        err := Some(BadColumn(column));
        return;
      }
      if Upper(operator) !in OPERATORS {
        err := Some(BadOperator(operator));
        return;
      }
      whereConds := whereConds + [Cond(column, operator, value, logic, None)];
    }

    method Where(column: string, operator: string, value: Value)
      requires Valid()
      modifies this`whereConds, this`err
      ensures Valid()
      ensures if rules.identifier(column) && ValidOperator(operator)
              then err == old(err) && whereConds == old(whereConds) + [Cond(column, operator, value, And, None)]
              else whereConds == old(whereConds)
                   && err == Some(if rules.identifier(column) then BadOperator(operator) else BadColumn(column))
    {
      AddCondition(column, operator, value, And);
    }

    method OrWhere(column: string, operator: string, value: Value)
      requires Valid()
      modifies this`whereConds, this`err
      ensures Valid()
      ensures if rules.identifier(column) && ValidOperator(operator)
              then err == old(err) && whereConds == old(whereConds) + [Cond(column, operator, value, Or, None)]
              else whereConds == old(whereConds)
                   && err == Some(if rules.identifier(column) then BadOperator(operator) else BadColumn(column))
    {
      AddCondition(column, operator, value, Or);
    }

    /** A condition of a fixed shape on a checked column. */
    method AddShaped(c: Cond)
      requires Valid() && c.operator in OPERATORS && Built(c)
      modifies this`whereConds, this`err
      ensures Valid()
      ensures if rules.identifier(c.column) then err == old(err) && whereConds == old(whereConds) + [c]
              else err == Some(BadColumn(c.column)) && whereConds == old(whereConds)
    {
      if !rules.identifier(c.column) {
        err := Some(BadColumn(c.column));
        return;
      }
      whereConds := whereConds + [c];
    }

    method WhereIn(column: string, values: seq<Value>)
      requires Valid()
      modifies this`whereConds, this`err
      ensures Valid()
      ensures if rules.identifier(column)
              then err == old(err) && whereConds
                   == old(whereConds) + [Cond(column, IN, InClause(|values|), And, Some(values))]
              else err == Some(BadColumn(column)) && whereConds == old(whereConds)
    {
      var clause := InText(|values|);
      AddShaped(Cond(column, IN, clause, And, Some(values)));
    }

    static method InText(n: nat) returns (clause: Value)
      ensures clause == InClause(n)
    {
      var marks: seq<Token> := [];
      for i := 0 to n
        invariant marks == Placeholders(i)
      {
        PlaceholdersSnoc(i);
        marks := marks + (if i > 0 then [Comma] else []) + [Placeholder];
      }
      clause := Fragment([LParen] + marks + [RParen]);
    }

    method WhereBetween(column: string, start: Value, end: Value)
      requires Valid()
      modifies this`whereConds, this`err
      ensures Valid()
      ensures if rules.identifier(column)
              then err == old(err) && whereConds
                   == old(whereConds) + [Cond(column, BETWEEN, RANGE, And, Some([start, end]))]
              else err == Some(BadColumn(column)) && whereConds == old(whereConds)
    {
      AddShaped(Cond(column, BETWEEN, RANGE, And, Some([start, end])));
    }

    method WhereNull(column: string)
      requires Valid()
      modifies this`whereConds, this`err
      ensures Valid()
      ensures if rules.identifier(column)
              then err == old(err) && whereConds == old(whereConds) + [Cond(column, IS_NULL, NOTHING, And, None)]
              else err == Some(BadColumn(column)) && whereConds == old(whereConds)
    {
      AddShaped(Cond(column, IS_NULL, NOTHING, And, None));
    }

    method WhereNotNull(column: string)
      requires Valid()
      modifies this`whereConds, this`err
      ensures Valid()
      ensures if rules.identifier(column)
              then err == old(err) && whereConds == old(whereConds) + [Cond(column, IS_NOT_NULL, NOTHING, And, None)]
              else err == Some(BadColumn(column)) && whereConds == old(whereConds)
    {
      AddShaped(Cond(column, IS_NOT_NULL, NOTHING, And, None));
    }

    /** Join, LeftJoin and RightJoin. */
    method Join(kind: JoinKind, name: string, on: string)
      requires Valid()
      modifies this`joins, this`err
      ensures Valid()
      ensures if rules.identifier(name) && rules.joinCondition(on)
              then err == old(err) && joins == old(joins) + [JoinClause(kind, name, on)]
              else joins == old(joins) && err == Some(if rules.identifier(name) then BadJoin(on) else BadTable(name))
    {
      if !rules.identifier(name) {
        err := Some(BadTable(name));
        return;
      }
      if !rules.joinCondition(on) {
        err := Some(BadJoin(on));
        return;
      }
      joins := joins + [JoinClause(kind, name, on)];
    }

    method OrderBy(column: string, direction: string)
      requires Valid()
      modifies this`orderBy, this`err
      ensures Valid()
      ensures if rules.identifier(column) && (direction == "" || Upper(direction) == "ASC")
              then err == old(err) && orderBy == old(orderBy) + [Order(column, false)]
              else if rules.identifier(column) && Upper(direction) == "DESC"
              then err == old(err) && orderBy == old(orderBy) + [Order(column, true)]
              else orderBy == old(orderBy)
                   && err == Some(if rules.identifier(column) then BadDirection(direction) else BadColumn(column))
    {
      if !rules.identifier(column) {
        err := Some(BadColumn(column));
        return;
      }
      var text := direction;
      if text == "" {
        text := ASC;
      }
      var dir := Upper(text);
      assert direction == "" ==> dir == ASC;
      if dir != ASC && dir != DESC {
        err := Some(BadDirection(direction));
        return;
      }
      orderBy := orderBy + [Order(column, dir == DESC)];
    }

    method GroupBy(columns: seq<string>)
      requires Valid()
      modifies this`groupBy, this`err
      ensures Valid()
      ensures if forall i | 0 <= i < |columns| :: rules.identifier(columns[i])
              then err == old(err) && groupBy == old(groupBy) + columns
              else groupBy == old(groupBy)
                   && exists i | 0 <= i < |columns| :: !rules.identifier(columns[i])
                        && err == Some(BadColumn(columns[i]))
                        && forall j | 0 <= j < i :: rules.identifier(columns[j])
    {
      for i := 0 to |columns|
        invariant forall j | 0 <= j < i :: rules.identifier(columns[j])
        invariant err == old(err) && groupBy == old(groupBy)
      {
        if !rules.identifier(columns[i]) {
          err := Some(BadColumn(columns[i]));
          return;
        }
      }
      groupBy := groupBy + columns;
    }

    method Having(column: string, operator: string, value: Value)
      requires Valid()
      modifies this`having, this`err
      ensures Valid()
      ensures if Countable(rules, column) && ValidOperator(operator)
              then err == old(err) && having == old(having) + [Cond(column, operator, value, And, None)]
              else having == old(having)
                   && err == Some(if Countable(rules, column) then BadOperator(operator) else BadColumn(column))
    {
      if !rules.identifier(column) && !rules.expression(column) {
        err := Some(BadColumn(column));
        return;
      }
      if Upper(operator) !in OPERATORS {
        err := Some(BadOperator(operator));
        return;
      }
      having := having + [Cond(column, operator, value, And, None)];
    }

    method Limit(count: int)
      requires Valid()
      modifies this`limitCount
      ensures Valid() && limitCount == count
    {
      limitCount := count;
    }

    method Offset(count: int)
      requires Valid()
      modifies this`offsetCount
      ensures Valid() && offsetCount == count
    {
      offsetCount := count;
    }

    /** Pages are counted from one; page and size below one fall back to 1 and 15. */
    method Paginate(page: int, perPage: int)
      requires Valid()
      modifies this`limitCount, this`offsetCount
      ensures Valid() && Head() == Paged(old(Head()), page, perPage)
    {
      var p, size := page, perPage;
      if p < 1 {
        p := 1;
      }
      if size < 1 {
        size := 15;
      }
      Limit(size);
      Offset((p - 1) * size);
    }

    /** Union and UnionAll. */
    method Combine(query: QueryBuilder, all: bool)
      requires Valid()
      modifies this`unionQuery, this`unionAll
      ensures Valid() && unionQuery == query && unionAll == all
    {
      unionQuery := query;
      unionAll := all;
    }

    /** Sets a flag; SameWhateverTrashed shows that nothing printed depends on it. */
    method WithTrashed()
      requires Valid()
      modifies this`includeTrashed
      ensures Valid() && includeTrashed
    {
      includeTrashed := true;
    }

    // ---------- Printing ----------

    method WriteJoins(sql: seq<Token>) returns (out: seq<Token>)
      ensures out == sql + JoinTokens(joins)
    {
      out := sql;
      for i := 0 to |joins|
        invariant out + JoinTokens(joins[i..]) == sql + JoinTokens(joins)
      {
        var j := joins[i];
        var text := [Kw(KindKeyword(j.kind)), Kw(JOIN), Name(j.table), Kw(ON), JoinCondition(j.on)];
        assert joins[i..][0] == j && joins[i..][1..] == joins[i + 1..];
        Assoc(out, text, JoinTokens(joins[i + 1..]));
        out := out + text;
      }
      assert joins[|joins|..] == [];
      assert out + [] == out;
    }

    /** The switch over the operator of one condition. */
    static method WriteCondition(c: Cond, sql: seq<Token>, params: seq<Value>)
      returns (out: seq<Token>, outParams: seq<Value>)
      ensures out == sql + CondTokens(c) && outParams == params + CondParams(c)
    {
      if c.operator == IS_NULL || c.operator == IS_NOT_NULL {
        out, outParams := sql + [Name(c.column), Operator(c.operator)], params;
      } else if c.operator == IN || c.operator == BETWEEN {
        out, outParams := sql + ([Name(c.column), Operator(c.operator)] + Raw(c.value)), params;
        if c.params.Some? {
          outParams := outParams + c.params.value;
        }
      } else {
        out, outParams := sql + [Name(c.column), Operator(c.operator), Placeholder], params + [c.value];
      }
    }

    /** The WHERE loop that ToSQL, Update and Delete share. */
    static method WriteWhere(conds: seq<Cond>, sql: seq<Token>, params: seq<Value>)
      returns (out: seq<Token>, outParams: seq<Value>)
      ensures out == sql + WhereTokens(conds) && outParams == params + TailParams(conds)
    {
      out, outParams := sql, params;
      if |conds| > 0 {
        out, outParams := WriteCondition(conds[0], out + [Kw(WHERE)], outParams);
        out, outParams := WriteTail(conds, out, outParams);
        FirstWritten(conds, sql, params);
      }
    }

    static method WriteTail(conds: seq<Cond>, sql: seq<Token>, params: seq<Value>)
      returns (out: seq<Token>, outParams: seq<Value>)
      requires |conds| > 0
      ensures out == sql + TailTokens(conds[1..]) && outParams == params + TailParams(conds[1..])
    {
      out, outParams := sql, params;
      ghost var whole, wholeParams := sql + TailTokens(conds[1..]), params + TailParams(conds[1..]);
      for i := 1 to |conds|
        invariant out + TailTokens(conds[i..]) == whole && outParams + TailParams(conds[i..]) == wholeParams
      {
        TailWritten(conds, i, out, outParams);
        out, outParams := WriteCondition(conds[i], out + [Kw(LogicKeyword(conds[i].logic))], outParams);
      }
      assert conds[|conds|..] == [];
    }

    method WriteHaving(sql: seq<Token>, params: seq<Value>) returns (out: seq<Token>, outParams: seq<Value>)
      ensures out == sql + HavingTokens(having) && outParams == params + HavingParams(having)
    {
      out, outParams := sql, params;
      if |having| > 0 {
        out := out + [Kw(HAVING)] + [Name(having[0].column), Operator(having[0].operator), Placeholder];
        outParams := outParams + [having[0].value];
        for i := 1 to |having|
          invariant out + HavingTail(having[i..]) == sql + HavingTokens(having)
          invariant outParams + HavingParams(having[i..]) == params + HavingParams(having)
        {
          var c := having[i];
          var text := [Kw(LogicKeyword(c.logic)), Name(c.column), Operator(c.operator), Placeholder];
          assert having[i..][0] == c && having[i..][1..] == having[i + 1..];
          Assoc(out, text, HavingTail(having[i + 1..]));
          Assoc(outParams, [c.value], HavingParams(having[i + 1..]));
          out := out + text;
          outParams := outParams + [c.value];
        }
        assert having[|having|..] == [];
      }
    }

    /** Prints the builder and the unions below it; n bounds the length of the chain. */
    method ToSQL(ghost n: nat) returns (sql: seq<Token>, params: seq<Value>, problem: Option<Problem>)
      requires Chain(n)
      ensures match Snapshot(n)
              case Ok(q) => problem == None && sql == Tokens(q) && params == Params(q)
              case Err(p) => problem == Some(p) && sql == [] && params == []
      decreases n
    {
      sql, params := [], [];
      if err.Some? {
        return [], [], err;
      }
      if table == "" {
        return [], [], Some(NoTable);
      }
      sql, params := WriteSelect();
      problem := None;
      if unionQuery != null {
        var unionSQL, unionParams, unionProblem := unionQuery.ToSQL(n - 1);
        if unionProblem.Some? {
          return [], [], unionProblem;
        }
        sql := sql + (UnionWord(unionAll) + unionSQL);
        params := params + unionParams;
      }
    }

    /** The builder's own SELECT, clause by clause. */
    method WriteSelect() returns (sql: seq<Token>, params: seq<Value>)
      ensures sql == SelectTokens(Head()) && params == SelectParams(Head())
    {
      sql := [Kw(SELECT)] + ColumnTokens(selectCols) + FromTokens(table);
      sql := WriteJoins(sql);
      sql, params := WriteWhere(whereConds, sql, []);
      assert [] + TailParams(whereConds) == TailParams(whereConds);
      sql := sql + GroupTokens(groupBy);
      sql, params := WriteHaving(sql, params);
      sql := sql + OrderTokens(orderBy);
      sql := WriteCount(LIMIT, limitCount, sql);
      sql := WriteCount(OFFSET, offsetCount, sql);
    }

    /** LIMIT and OFFSET are printed when positive. */
    static method WriteCount(k: Keyword, n: int, sql: seq<Token>) returns (out: seq<Token>)
      ensures out == sql + CountTokens(k, n)
    {
      out := sql;
      if n > 0 {
        out := out + [Kw(k), Number(n)];
      }
    }

    /** The SET parts, up to the first column that fails its check. */
    method WriteAssignments(data: seq<Assignment>)
      returns (parts: seq<Token>, params: seq<Value>, problem: Option<Problem>)
      ensures if forall i | 0 <= i < |data| :: rules.identifier(data[i].column)
              then problem == None && parts == AssignmentTokens(data) && params == AssignmentParams(data)
              else exists i | 0 <= i < |data| :: !rules.identifier(data[i].column)
                     && problem == Some(BadColumn(data[i].column))
    {
      parts, params, problem := [], [], None;
      for i := 0 to |data|
        invariant forall j | 0 <= j < i :: rules.identifier(data[j].column)
        invariant if i == 0 then parts == [] else parts + AssignmentTail(data[i..]) == AssignmentTokens(data)
        invariant params + AssignmentParams(data[i..]) == AssignmentParams(data)
      {
        if !rules.identifier(data[i].column) {
          problem := Some(BadColumn(data[i].column));
          return;
        }
        AssignmentWritten(data, i, parts, params);
        parts := parts + (if i > 0 then [Comma] else []) + [Name(data[i].column), Operator(EQUALS), Placeholder];
        params := params + [data[i].value];
      }
      assert data[|data|..] == [];
    }

    /** The statement handed to the database; the data come in the order the map is walked. */
    method Update(data: seq<Assignment>) returns (sql: seq<Token>, params: seq<Value>, problem: Option<Problem>)
      requires Valid()
      ensures if err.Some? then problem == err
              else if table == "" then problem == Some(NoTable)
              else if forall i | 0 <= i < |data| :: rules.identifier(data[i].column) then
                var s := Statement.Update(table, data, whereConds);
                problem == None && sql == StatementTokens(s) && params == StatementParams(s)
              else exists i | 0 <= i < |data| :: !rules.identifier(data[i].column)
                     && problem == Some(BadColumn(data[i].column))
    {
      sql, params := [], [];
      if err.Some? {
        return [], [], err;
      }
      if table == "" {
        return [], [], Some(NoTable);
      }
      var parts: seq<Token>;
      parts, params, problem := WriteAssignments(data);
      if problem.Some? {
        return [], [], problem;
      }
      sql, params := WriteWhere(whereConds, [Kw(UPDATE), Name(table), Kw(SET)] + parts, params);
      problem := None;
      Assoc([Kw(UPDATE), Name(table), Kw(SET)], AssignmentTokens(data), WhereTokens(whereConds));
    }

    method Delete() returns (sql: seq<Token>, params: seq<Value>, problem: Option<Problem>)
      requires Valid()
      ensures if err.Some? then problem == err
              else if table == "" then problem == Some(NoTable)
              else
                var s := Statement.Delete(table, whereConds);
                problem == None && sql == StatementTokens(s) && params == StatementParams(s)
    {
      if err.Some? {
        return [], [], err;
      }
      if table == "" {
        return [], [], Some(NoTable);
      }
      sql, params := WriteWhere(whereConds, [Kw(DELETE), Kw(FROM), Name(table)], []);
      problem := None;
    }
  }

  /** Two builders that differ in nothing but includeTrashed stand for the same query. */
  lemma SameWhateverTrashed(a: QueryBuilder, b: QueryBuilder, n: nat)
    requires a.rules == b.rules && a.Head() == b.Head() && a.err == b.err
    requires a.unionQuery == b.unionQuery && a.unionAll == b.unionAll
    ensures a.Chain(n) <==> b.Chain(n)
    ensures a.Chain(n) ==> a.Snapshot(n) == b.Snapshot(n)
  {
  }

  lemma {:induction false} PlaceholdersSnoc(n: nat)
    ensures Placeholders(n + 1) == Placeholders(n) + (if n > 0 then [Comma] else []) + [Placeholder]
  {
    if n > 1 {
      PlaceholdersSnoc(n - 1);
      assert Placeholders(n + 1) == [Placeholder, Comma] + Placeholders(n);
      assert Placeholders(n) == [Placeholder, Comma] + Placeholders(n - 1);
    }
  }

  lemma TailWritten(cs: seq<Cond>, i: nat, sql: seq<Token>, params: seq<Value>)
    requires i < |cs|
    ensures sql + TailTokens(cs[i..])
            == sql + [Kw(LogicKeyword(cs[i].logic))] + CondTokens(cs[i]) + TailTokens(cs[i + 1..])
    ensures params + TailParams(cs[i..]) == params + CondParams(cs[i]) + TailParams(cs[i + 1..])
  {
    var word := [Kw(LogicKeyword(cs[i].logic))];
    assert cs[i..][0] == cs[i] && cs[i..][1..] == cs[i + 1..];
    Assoc(sql, word, CondTokens(cs[i]));
    Assoc(sql, word + CondTokens(cs[i]), TailTokens(cs[i + 1..]));
    Assoc(params, CondParams(cs[i]), TailParams(cs[i + 1..]));
  }

  lemma FirstWritten(cs: seq<Cond>, sql: seq<Token>, params: seq<Value>)
    requires cs != []
    ensures sql + WhereTokens(cs) == sql + [Kw(WHERE)] + CondTokens(cs[0]) + TailTokens(cs[1..])
    ensures params + TailParams(cs) == params + CondParams(cs[0]) + TailParams(cs[1..])
  {
    Assoc([Kw(WHERE)], CondTokens(cs[0]), TailTokens(cs[1..]));
    Assoc(sql, [Kw(WHERE)], CondTokens(cs[0]));
    Assoc(sql, [Kw(WHERE)] + CondTokens(cs[0]), TailTokens(cs[1..]));
    Assoc(params, CondParams(cs[0]), TailParams(cs[1..]));
  }

  lemma AssignmentWritten(data: seq<Assignment>, i: nat, parts: seq<Token>, params: seq<Value>)
    requires i < |data|
    ensures var text := [Name(data[i].column), Operator(EQUALS), Placeholder];
            && parts + AssignmentTail(data[i..]) == parts + [Comma] + text + AssignmentTail(data[i + 1..])
            && (i == 0 ==> AssignmentTokens(data) == [] + [] + text + AssignmentTail(data[i + 1..]))
    ensures params + AssignmentParams(data[i..]) == params + [data[i].value] + AssignmentParams(data[i + 1..])
  {
    var text := [Name(data[i].column), Operator(EQUALS), Placeholder];
    assert data[i..][0] == data[i] && data[i..][1..] == data[i + 1..];
    assert [Comma] + text == [Comma, Name(data[i].column), Operator(EQUALS), Placeholder];
    Assoc(parts, [Comma], text);
    Assoc(parts, [Comma] + text, AssignmentTail(data[i + 1..]));
    Assoc(params, [data[i].value], AssignmentParams(data[i + 1..]));
    assert [] + [] + text == text;
  }
}
