/** Models with soft deletion: which queries keep deleted rows out. */
module Models {
  import opened Basics
  import opened Sql
  import opened SqlGrammar
  import opened SqlParser
  import opened SqlRoundTrip
  import opened SqlMeaning
  import opened SqlBuilder

  const NOT_DELETED: Cond := Cond(DELETED_AT, IS_NULL, NOTHING, And, None)

  class Model {
    var table: string
    var primaryKey: string
    var softDelete: bool

    constructor (table: string)
      ensures this.table == table && primaryKey == "id" && !softDelete
    {
      this.table, primaryKey, softDelete := table, "id", false;
    }

    method WithPrimaryKey(pk: string)
      modifies this`primaryKey
      ensures primaryKey == pk
    {
      primaryKey := pk;
    }

    method WithSoftDelete()
      modifies this`softDelete
      ensures softDelete
    {
      softDelete := true;
    }

    /** A fresh builder on the table, with the soft-delete condition first. */
    method Query(rules: Rules) returns (qb: QueryBuilder)
      ensures fresh(qb) && qb.rules == rules && qb.Valid() && qb.unionQuery == null
      ensures if !rules.identifier(table) then qb.err == Some(BadTable(table)) && qb.Head() == EMPTY
              else if softDelete && !rules.identifier(DELETED_AT) then qb.err == Some(BadColumn(DELETED_AT))
              else qb.err == None
                   && qb.Head() == EMPTY.(table := table, wheres := if softDelete then [NOT_DELETED] else [])
    {
      qb := new QueryBuilder(rules);
      if !rules.identifier(table) {
        qb.err := Some(BadTable(table));
        return;
      }
      qb.Table(table);
      if softDelete {
        qb.WhereNull(DELETED_AT);
      }
    }
  }

  /** A row is deleted when its deletion time is set, so IS NULL is false on it. */
  predicate Deleted(verdict: Cond -> Truth) {
    verdict(NOT_DELETED) == False
  }

  ghost predicate HidesDeleted(cs: seq<Cond>) {
    forall verdict: Cond -> Truth | Deleted(verdict) :: !Picks(cs, verdict)
  }

  /** Every maximal AND-group asks for rows that are not deleted. */
  ghost predicate Guarded(cs: seq<Cond>) {
    forall i: nat, j: nat | Group(cs, i, j) :: exists k | i <= k < j :: Test(cs[k]) == NOT_DELETED
  }

  lemma UnguardedShows(cs: seq<Cond>, i: nat, j: nat)
    requires Group(cs, i, j) && forall k | i <= k < j :: Test(cs[k]) != NOT_DELETED
    ensures !HidesDeleted(cs)
  {
    var verdict := (c: Cond) => if c == NOT_DELETED then False else True;
    assert Holds(cs, i, j, verdict);
    assert Picks(cs, verdict) && Deleted(verdict);
  }

  /** Deleted rows stay out of every query exactly when each AND-group holds the soft-delete
      condition; tests other than that one may come out in any way. */
  lemma HidesDeletedIff(cs: seq<Cond>)
    ensures HidesDeleted(cs) <==> cs != [] && Guarded(cs)
  {
    if cs == [] {
      var verdict := (c: Cond) => False;
      assert Deleted(verdict) && Picks(cs, verdict);
    } else if !Guarded(cs) {
      var i: nat, j: nat :| Group(cs, i, j) && forall k | i <= k < j :: Test(cs[k]) != NOT_DELETED;
      UnguardedShows(cs, i, j);
    }
  }

  lemma AndOnlyGuarded(s: Select, more: seq<Cond>)
    requires s.wheres == [NOT_DELETED] + more && forall k | 0 <= k < |more| :: more[k].logic == And
    ensures HidesDeleted(NormalSelect(s).wheres)
  {
    var cs := NormalSelect(s).wheres;
    FirstNormal(s.wheres);
    assert cs[0] == NOT_DELETED;
    NormalTailAt(s.wheres, 0);
    forall k | 0 <= k < |cs| ensures cs[k].logic == And {
      NormalTailAt(s.wheres, k);
      if k > 0 {
        assert s.wheres[k] == more[k - 1];
      }
    }
    forall i: nat, j: nat | Group(cs, i, j) ensures exists k | i <= k < j :: Test(cs[k]) == NOT_DELETED {
      assert i == 0;
      assert Test(cs[0]) == NOT_DELETED;
    }
    HidesDeletedIff(cs);
  }

  /** A model's query extended by calls that add AND conditions only never picks a deleted
      row: the conditions that the database reads in its text and parameters hide them. */
  lemma AndOnlyHidesDeleted(s: Select, more: seq<Cond>)
    requires s.wheres == [NOT_DELETED] + more && WellBuiltSelect(s)
    requires forall k | 0 <= k < |more| :: more[k].logic == And
    ensures var read := Parse(Tokens(Single(s)), Params(Single(s)));
            read.Some? && HidesDeleted(read.value.select.wheres)
  {
    RoundTrip(Single(s));
    AndOnlyGuarded(s, more);
  }

  /** What a caller gets who asks for the deleted rows as WithTrashed's comment says: they
      stay hidden, just as without it. */
  method QueryWithTrashed(model: Model, rules: Rules) returns (qb: QueryBuilder)
    requires rules.identifier(model.table) && rules.identifier(DELETED_AT) && model.softDelete
    ensures fresh(qb) && qb.Valid() && qb.err == None && qb.includeTrashed
    ensures qb.whereConds == [NOT_DELETED] && HidesDeleted(qb.whereConds)
  {
    qb := model.Query(rules);
    qb.WithTrashed();
    OnlyNotDeleted();
  }

  lemma OnlyNotDeleted()
    ensures HidesDeleted([NOT_DELETED])
  {
    var cs := [NOT_DELETED];
    forall i: nat, j: nat | Group(cs, i, j) ensures exists k | i <= k < j :: Test(cs[k]) == NOT_DELETED {
      assert Test(cs[0]) == NOT_DELETED;
    }
    HidesDeletedIff(cs);
  }

  /** One OrWhere opens a group without the soft-delete condition: deleted rows show. */
  lemma OrWhereShowsDeleted(column: string, operator: string, value: Value)
    requires !Spliced(operator) && !NullTest(operator)
    ensures !HidesDeleted([NOT_DELETED, Cond(column, operator, value, Or, None)])
  {
    var cs := [NOT_DELETED, Cond(column, operator, value, Or, None)];
    assert Group(cs, 1, 2);
    UnguardedShows(cs, 1, 2);
  }
}
