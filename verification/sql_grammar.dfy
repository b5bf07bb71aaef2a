/** The language that the printed statements are read in: how many operands each operator
    takes, and the text of a statement whose conditions have them. */
module SqlGrammar {
  import opened Sql

  // ---------- Operators ----------

  datatype Operands = Bare | List | Range | One | NoOperator

  const NOT_IN := "NOT IN"
  const COMPARISONS: set<string> := {"=", "!=", "<>", "<", ">", "<=", ">=", "LIKE", "NOT LIKE", "REGEXP"}

  function FoldChar(c: char): char {
    if 'a' <= c <= 'z' then c - 'a' + 'A' else c
  }

  /** Keywords are read in either case (section 5.2 of ISO/IEC 9075:1992); only ASCII letters
      have two. */
  function Fold(s: string): string {
    seq(|s|, i requires 0 <= i < |s| => FoldChar(s[i]))
  }

  /** What has to follow an operator, however it is spelled. */
  function Takes(op: string): Operands {
    var word := Fold(op);
    if word == IS_NULL || word == IS_NOT_NULL then Bare
    else if word == IN || word == NOT_IN then List
    else if word == BETWEEN then Range
    else if word in COMPARISONS then One
    else NoOperator
  }

  // ---------- Statements with a text ----------

  /** A condition with the operands that its operator takes. */
  predicate Readable(c: Cond) {
    match Takes(c.operator)
    case Bare => c.params.None? && c.value == NOTHING
    case List => c.params.Some? && c.value == InClause(|c.params.value|)
    case Range => c.params.Some? && |c.params.value| == 2 && c.value == RANGE
    case One => c.params.None?
    case NoOperator => false
  }

  predicate AllReadable(cs: seq<Cond>) {
    forall i | 0 <= i < |cs| :: Readable(cs[i])
  }

  /** The first condition of a clause has no AND or OR before it. */
  predicate ReadableClause(cs: seq<Cond>) {
    AllReadable(cs) && (cs != [] ==> cs[0].logic == And)
  }

  predicate ReadableSelect(s: Select) {
    s.columns != [] && ReadableClause(s.wheres) && ReadableClause(s.havings) && s.limit >= 0 && s.offset >= 0
  }

  predicate ReadableQuery(q: Query) {
    ReadableSelect(q.select) && (q.Union? ==> ReadableQuery(q.rest))
  }

  // ---------- Their texts ----------

  function CondText(c: Cond): seq<Token> {
    [Name(c.column), Operator(c.operator)]
    + match Takes(c.operator)
      case Bare => []
      case One => [Placeholder]
      case _ => Raw(c.value)
  }

  function CondArgs(c: Cond): seq<Value> {
    if Takes(c.operator) == One then [c.value] else if c.params.Some? then c.params.value else []
  }

  function TailText(cs: seq<Cond>): seq<Token> {
    if cs == [] then [] else [Kw(LogicKeyword(cs[0].logic))] + CondText(cs[0]) + TailText(cs[1..])
  }

  function TailArgs(cs: seq<Cond>): seq<Value> {
    if cs == [] then [] else CondArgs(cs[0]) + TailArgs(cs[1..])
  }

  /** The conditions after WHERE or HAVING. */
  function ClauseText(word: Keyword, cs: seq<Cond>): seq<Token> {
    if cs == [] then [] else [Kw(word)] + (CondText(cs[0]) + TailText(cs[1..]))
  }

  function SelectText(s: Select): seq<Token> {
    [Kw(SELECT)] + ColumnTokens(s.columns) + FromTokens(s.table) + JoinTokens(s.joins) + ClauseText(WHERE, s.wheres)
    + GroupTokens(s.groups) + ClauseText(HAVING, s.havings) + OrderTokens(s.orders)
    + CountTokens(LIMIT, s.limit) + CountTokens(OFFSET, s.offset)
  }

  function SelectArgs(s: Select): seq<Value> {
    TailArgs(s.wheres) + TailArgs(s.havings)
  }

  function Text(q: Query): seq<Token> {
    match q
    case Single(s) => SelectText(s)
    case Union(s, all, rest) => SelectText(s) + (UnionWord(all) + Text(rest))
  }

  function Args(q: Query): seq<Value> {
    match q
    case Single(s) => SelectArgs(s)
    case Union(s, _, rest) => SelectArgs(s) + Args(rest)
  }

  // ---------- Which conditions the builder prints with the right operands ----------

  /** Through the method made for its operator, or through Where with one that takes a value. */
  predicate WellBuilt(c: Cond) {
    Shaped(c) && (NullTest(c.operator) || Spliced(c.operator) || Takes(c.operator) == One)
  }

  /** HAVING prints one placeholder whatever the operator. */
  predicate WellBuiltHaving(c: Cond) {
    c.params.None? && Takes(c.operator) == One
  }

  predicate AllWellBuilt(cs: seq<Cond>) {
    forall i | 0 <= i < |cs| :: WellBuilt(cs[i])
  }

  predicate AllWellBuiltHaving(cs: seq<Cond>) {
    forall i | 0 <= i < |cs| :: WellBuiltHaving(cs[i])
  }

  predicate WellBuiltSelect(s: Select) {
    AllWellBuilt(s.wheres) && AllWellBuiltHaving(s.havings)
  }

  predicate WellBuiltQuery(q: Query) {
    WellBuiltSelect(q.select) && (q.Union? ==> WellBuiltQuery(q.rest))
  }

  lemma FoldIs(s: string, t: string)
    requires |s| == |t| && forall i | 0 <= i < |s| :: FoldChar(s[i]) == t[i]
    ensures Fold(s) == t
  {
  }

  /** The builder's own operators take what its methods give them. */
  lemma OwnOperators()
    ensures Takes(IS_NULL) == Bare && Takes(IS_NOT_NULL) == Bare && Takes(IN) == List && Takes(BETWEEN) == Range
  {
    FoldIs(IS_NULL, IS_NULL);
    FoldIs(IS_NOT_NULL, IS_NOT_NULL);
    FoldIs(IN, IN);
    FoldIs(BETWEEN, BETWEEN);
  }
}
