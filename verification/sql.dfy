/** The SQL that database/query_builder.go prints, as typed tokens with parameters, and
    a parser that reads it back. */
module Sql {
  import opened Basics

  // ---------- Queries ----------

  datatype Keyword =
    | SELECT | FROM | INNER | LEFT | RIGHT | JOIN | ON | WHERE | AND | OR | GROUP_BY | HAVING
    | ORDER_BY | LIMIT | OFFSET | UNION | ALL | UPDATE | SET | DELETE

  datatype Token =
    | Kw(keyword: Keyword)
    | Name(text: string)
    | Operator(text: string)
    | JoinCondition(text: string)
    | Direction(descending: bool)
    | Number(n: int)
    | Opaque(id: int)
    | Comma
    | LParen
    | RParen
    | Placeholder

  /** A value the caller passes; a fragment is one that, printed raw, reads as SQL. */
  datatype Value = Plain(id: int) | Fragment(tokens: seq<Token>)

  datatype Logic = And | Or

  /** A condition as the builder stores it; params is set by WhereIn and WhereBetween. */
  datatype Cond = Cond(column: string, operator: string, value: Value, logic: Logic, params: Option<seq<Value>>)

  datatype JoinKind = Inner | Left | Right

  datatype JoinClause = JoinClause(kind: JoinKind, table: string, on: string)

  datatype Order = Order(column: string, descending: bool)

  datatype Select = Select(
    table: string,
    columns: seq<string>,
    joins: seq<JoinClause>,
    wheres: seq<Cond>,
    groups: seq<string>,
    havings: seq<Cond>,
    orders: seq<Order>,
    limit: int,
    offset: int)

  datatype Query = Single(select: Select) | Union(select: Select, all: bool, rest: Query)

  // ---------- Printing ----------

  const IS_NULL := "IS NULL"
  const IS_NOT_NULL := "IS NOT NULL"
  const IN := "IN"
  const BETWEEN := "BETWEEN"
  const NOTHING: Value := Fragment([])
  const RANGE: Value := Fragment([Placeholder, Kw(AND), Placeholder])

  predicate NullTest(op: string) {
    op == IS_NULL || op == IS_NOT_NULL
  }

  predicate Spliced(op: string) {
    op == IN || op == BETWEEN
  }

  /** What printing a value raw writes. */
  function Raw(v: Value): seq<Token> {
    match v
    case Plain(id) => [Opaque(id)]
    case Fragment(tokens) => tokens
  }

  function CondTokens(c: Cond): seq<Token> {
    if NullTest(c.operator) then [Name(c.column), Operator(c.operator)]
    else if Spliced(c.operator) then [Name(c.column), Operator(c.operator)] + Raw(c.value)
    else [Name(c.column), Operator(c.operator), Placeholder]
  }

  function CondParams(c: Cond): seq<Value> {
    if NullTest(c.operator) then []
    else if Spliced(c.operator) then if c.params.Some? then c.params.value else []
    else [c.value]
  }

  function LogicKeyword(l: Logic): Keyword {
    match l case And => AND case Or => OR
  }

  /** Further conditions, each after its own AND or OR. */
  function TailTokens(cs: seq<Cond>): seq<Token> {
    if cs == [] then [] else [Kw(LogicKeyword(cs[0].logic))] + CondTokens(cs[0]) + TailTokens(cs[1..])
  }

  function TailParams(cs: seq<Cond>): seq<Value> {
    if cs == [] then [] else CondParams(cs[0]) + TailParams(cs[1..])
  }

  /** The logic of the first condition is not printed. */
  function CondsTokens(cs: seq<Cond>): seq<Token> {
    if cs == [] then [] else CondTokens(cs[0]) + TailTokens(cs[1..])
  }

  function WhereTokens(cs: seq<Cond>): seq<Token> {
    if cs == [] then [] else [Kw(WHERE)] + CondsTokens(cs)
  }

  function CommaTail(names: seq<string>): seq<Token> {
    if names == [] then [] else [Comma, Name(names[0])] + CommaTail(names[1..])
  }

  function NameList(names: seq<string>): seq<Token>
    requires names != []
  {
    [Name(names[0])] + CommaTail(names[1..])
  }

  function KindKeyword(k: JoinKind): Keyword {
    match k case Inner => INNER case Left => LEFT case Right => RIGHT
  }

  function JoinTokens(js: seq<JoinClause>): seq<Token> {
    if js == [] then []
    else [Kw(KindKeyword(js[0].kind)), Kw(JOIN), Name(js[0].table), Kw(ON), JoinCondition(js[0].on)]
         + JoinTokens(js[1..])
  }

  function ColumnTokens(columns: seq<string>): seq<Token> {
    if columns == [] then [Name("*")] else NameList(columns)
  }

  function GroupTokens(groups: seq<string>): seq<Token> {
    if groups == [] then [] else [Kw(GROUP_BY)] + NameList(groups)
  }

  /** HAVING prints a placeholder whatever the operator is. */
  function HavingTail(cs: seq<Cond>): seq<Token> {
    if cs == [] then []
    else [Kw(LogicKeyword(cs[0].logic)), Name(cs[0].column), Operator(cs[0].operator), Placeholder]
         + HavingTail(cs[1..])
  }

  function HavingTokens(cs: seq<Cond>): seq<Token> {
    if cs == [] then []
    else [Kw(HAVING), Name(cs[0].column), Operator(cs[0].operator), Placeholder] + HavingTail(cs[1..])
  }

  function HavingParams(cs: seq<Cond>): seq<Value> {
    if cs == [] then [] else [cs[0].value] + HavingParams(cs[1..])
  }

  function OrderTail(os: seq<Order>): seq<Token> {
    if os == [] then [] else [Comma, Name(os[0].column), Direction(os[0].descending)] + OrderTail(os[1..])
  }

  function OrderTokens(os: seq<Order>): seq<Token> {
    if os == [] then []
    else [Kw(ORDER_BY), Name(os[0].column), Direction(os[0].descending)] + OrderTail(os[1..])
  }

  function CountTokens(k: Keyword, n: int): seq<Token> {
    if n > 0 then [Kw(k), Number(n)] else []
  }

  function FromTokens(table: string): seq<Token> {
    [Kw(FROM), Name(table)]
  }

  /** One SELECT without its union. */
  function SelectTokens(s: Select): seq<Token> {
    [Kw(SELECT)] + ColumnTokens(s.columns) + FromTokens(s.table) + JoinTokens(s.joins) + WhereTokens(s.wheres)
    + GroupTokens(s.groups) + HavingTokens(s.havings) + OrderTokens(s.orders)
    + CountTokens(LIMIT, s.limit) + CountTokens(OFFSET, s.offset)
  }

  function SelectParams(s: Select): seq<Value> {
    TailParams(s.wheres) + HavingParams(s.havings)
  }

  function UnionWord(all: bool): seq<Token> {
    if all then [Kw(UNION), Kw(ALL)] else [Kw(UNION)]
  }

  function Tokens(q: Query): seq<Token> {
    match q
    case Single(s) => SelectTokens(s)
    case Union(s, all, rest) => SelectTokens(s) + (UnionWord(all) + Tokens(rest))
  }

  function Params(q: Query): seq<Value> {
    match q
    case Single(s) => SelectParams(s)
    case Union(s, _, rest) => SelectParams(s) + Params(rest)
  }

  // ---------- What the tokens keep of a query ----------

  function InClause(n: nat): Value {
    Fragment([LParen] + Placeholders(n) + [RParen])
  }

  function Placeholders(n: nat): seq<Token> {
    if n == 0 then [] else if n == 1 then [Placeholder] else [Placeholder, Comma] + Placeholders(n - 1)
  }

  /** What is printed for the value belongs to the condition's own parameters. */
  predicate Shaped(c: Cond) {
    if c.operator == IN then c.params.Some? && c.value == InClause(|c.params.value|)
    else if c.operator == BETWEEN then c.params.Some? && |c.params.value| == 2 && c.value == RANGE
    else c.params.None?
  }

  /** IN or BETWEEN passed to Where or OrWhere: the value is printed raw, without parameter. */
  predicate RawSplice(c: Cond) {
    Spliced(c.operator) && c.params.None?
  }

  /** Every condition a builder can hold. */
  predicate Built(c: Cond) {
    Shaped(c) || RawSplice(c)
  }

  function NormalCond(c: Cond): Cond {
    if NullTest(c.operator) then c.(value := NOTHING) else c
  }

  function NormalTail(cs: seq<Cond>): seq<Cond> {
    if cs == [] then [] else [NormalCond(cs[0])] + NormalTail(cs[1..])
  }

  function FirstAnd(cs: seq<Cond>): seq<Cond> {
    if cs == [] then [] else [cs[0].(logic := And)] + cs[1..]
  }

  function AtLeastZero(n: int): int {
    if n > 0 then n else 0
  }

  /** The query with everything dropped that does not show: the values of null tests, the
      logic of first conditions, limits and offsets below one; no columns means all. */
  function NormalSelect(s: Select): Select {
    s.(columns := if s.columns == [] then ["*"] else s.columns,
       wheres := FirstAnd(NormalTail(s.wheres)),
       havings := FirstAnd(s.havings),
       limit := AtLeastZero(s.limit), offset := AtLeastZero(s.offset))
  }

  function Normal(q: Query): Query {
    match q
    case Single(s) => Single(NormalSelect(s))
    case Union(s, all, rest) => Union(NormalSelect(s), all, Normal(rest))
  }

  /** HAVING conditions never carry params. */
  predicate HavingBuilt(c: Cond) {
    c.params.None?
  }

  /** No value is printed raw. */
  predicate AllShaped(q: Query) {
    (forall i | 0 <= i < |q.select.wheres| :: Shaped(q.select.wheres[i])) && (q.Union? ==> AllShaped(q.rest))
  }
}
