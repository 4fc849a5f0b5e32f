/**
 * What the body of a `CREATE TABLE` promises: which clauses a column line
 * carries, that the columns come in id order, that the key lists exactly the
 * key columns by key order, and where the constraint lines sit.
 */
module TableProperties {
  import opened Wrappers
  import opened Text
  import opened Entities
  import opened StableSort
  import opened Literals
  import opened Oracles
  import opened TableDefinition

  // ---------------------------------------------------------------------------
  // One column line
  // ---------------------------------------------------------------------------

  /** The identity clause is present exactly for identity columns, and it
      tells seed and increment apart: two identity columns get the same clause
      exactly when both numbers agree. */
  lemma IdentityClauseSpec(c: Column, d: Column)
    ensures IdentityClause(c) != "" <==> c.isIdentity
    ensures c.isIdentity && d.isIdentity ==>
      (IdentityClause(c) == IdentityClause(d) <==>
         c.identitySeed == d.identitySeed && c.identityIncrement == d.identityIncrement)
  {
    if c.isIdentity && d.isIdentity && IdentityClause(c) == IdentityClause(d) {
      WrappedPairInjective(" IDENTITY(", c.identitySeed, c.identityIncrement, d.identitySeed, d.identityIncrement);
    }
  }

  /** Every column line states its nullability, one way or the other; it has
      a DEFAULT clause exactly when the column has a default, and a column
      UNIQUE clause exactly for unique columns outside the primary key. */
  lemma ColumnLineClauses(t: Table, c: Column, parsesAsDecimal: string -> bool)
    ensures NullabilityClause(c) == " NULL" <==> c.isNullable
    ensures NullabilityClause(c) == " NOT NULL" <==> !c.isNullable
    ensures DefaultClause(t, c, parsesAsDecimal) != "" <==> HasDefault(c)
    ensures UniqueClause(t, c) != "" <==> c.isUnique && !c.isPrimaryKey
    ensures ColumnLine(t, c, parsesAsDecimal)
      == ColumnHead(c) + IdentityClause(c) + NullabilityClause(c) + DefaultClause(t, c, parsesAsDecimal) + UniqueClause(t, c)
  {
  }

  /** A raw default is copied verbatim; a literal default is copied when it
      is passed through, and otherwise becomes a string literal that SQL
      Server reads back as the default text. */
  lemma DefaultExpressionReadsBack(c: Column, parsesAsDecimal: string -> bool)
    requires HasDefault(c)
    ensures c.defaultKind == SqlDefaultKind.RawExpression ==> DefaultExpression(c, parsesAsDecimal) == c.defaultSql.value
    ensures c.defaultKind == SqlDefaultKind.Literal ==>
      (DefaultExpression(c, parsesAsDecimal) == c.defaultSql.value <==> IsPassedThrough(c.defaultSql.value, parsesAsDecimal))
    ensures c.defaultKind == SqlDefaultKind.Literal && !IsPassedThrough(c.defaultSql.value, parsesAsDecimal) ==>
      ReadStringLiteral(DefaultExpression(c, parsesAsDecimal)) == Some(c.defaultSql.value)
  {
    WrapLiteralReadsBack(c.defaultSql.value, parsesAsDecimal);
  }

  // ---------------------------------------------------------------------------
  // Column order
  // ---------------------------------------------------------------------------

  /** The body opens with one line per column, the columns taken in id order:
      sorted by id, a permutation of the table's columns, and columns that
      share an id keep their relative order. */
  lemma ColumnsInIdOrder(t: Table, env: Environment)
    ensures var ordered := SortBy(t.columns, ColumnId);
            |TableItems(t, env)| >= |t.columns|
            && SortedBy(ordered, ColumnId)
            && multiset(ordered) == multiset(t.columns)
            && (forall k :: WithKey(ordered, ColumnId, k) == WithKey(t.columns, ColumnId, k))
            && (forall i :: 0 <= i < |t.columns| ==> TableItems(t, env)[i] == ColumnLine(t, ordered[i], env.parsesAsDecimal))
  {
    var ordered := SortBy(t.columns, ColumnId);
    SortBySorted(t.columns, ColumnId);
    SortByPermutation(t.columns, ColumnId);
    forall k ensures WithKey(ordered, ColumnId, k) == WithKey(t.columns, ColumnId, k) {
      SortByStable(t.columns, ColumnId, k);
    }
    forall i | 0 <= i < |t.columns|
      ensures TableItems(t, env)[i] == ColumnLine(t, ordered[i], env.parsesAsDecimal)
    {
      ColumnLinesAt(t, ordered, env.parsesAsDecimal, i);
    }
  }

  // ---------------------------------------------------------------------------
  // Primary key
  // ---------------------------------------------------------------------------

  predicate HasKeyColumn(t: Table) {
    exists i :: 0 <= i < |t.columns| && t.columns[i].isPrimaryKey
  }

  /** The key lists the key columns, each of them as often as it occurs and
      nothing else, sorted by key order, with columns of equal key order
      (those without one all
      count as `int.MaxValue`) kept in table order. */
  lemma KeyColumnsSpec(t: Table)
    ensures var keys := KeyColumns(t);
            SortedBy(keys, KeyOrder)
            && multiset(keys) == multiset(Where(t.columns, IsKeyColumn))
            && (forall i :: 0 <= i < |keys| ==> keys[i].isPrimaryKey && keys[i] in t.columns)
            && (forall i :: 0 <= i < |t.columns| && t.columns[i].isPrimaryKey ==> t.columns[i] in keys)
            && (forall k :: WithKey(keys, KeyOrder, k) == WithKey(Where(t.columns, IsKeyColumn), KeyOrder, k))
    ensures forall c :: multiset(KeyColumns(t))[c] == if c.isPrimaryKey then multiset(t.columns)[c] else 0
  {
    var pks := Where(t.columns, IsKeyColumn);
    SortBySorted(pks, KeyOrder);
    SortByPermutation(pks, KeyOrder);
    KeyColumnsMembers(t);
    forall k ensures WithKey(KeyColumns(t), KeyOrder, k) == WithKey(pks, KeyOrder, k) {
      SortByStable(pks, KeyOrder, k);
    }
    KeyColumnsCount(t);
  }

  /** Every key column is a primary-key column of the table, and every
      primary-key column of the table is in the key. */
  lemma KeyColumnsMembers(t: Table)
    ensures var keys := KeyColumns(t);
            (forall i :: 0 <= i < |keys| ==> keys[i].isPrimaryKey && keys[i] in t.columns)
            && (forall i :: 0 <= i < |t.columns| && t.columns[i].isPrimaryKey ==> t.columns[i] in keys)
  {
    var pks := Where(t.columns, IsKeyColumn);
    var keys := KeyColumns(t);
    WhereMembers(t.columns, IsKeyColumn);
    SortByPermutation(pks, KeyOrder);
    forall i | 0 <= i < |keys| ensures keys[i].isPrimaryKey && keys[i] in t.columns {
      var x := keys[i];
      assert x in multiset(keys);
      assert x in multiset(pks);
      var j :| 0 <= j < |pks| && pks[j] == x;
      assert IsKeyColumn(pks[j]) && pks[j] in t.columns;
    }
    forall i | 0 <= i < |t.columns| && t.columns[i].isPrimaryKey ensures t.columns[i] in keys {
      var x := t.columns[i];
      assert IsKeyColumn(t.columns[i]);
      assert x in pks;
      assert x in multiset(pks);
      assert x in multiset(keys);
    }
  }

  /** Each key column occurs in the key as often as in the table. */
  lemma KeyColumnsCount(t: Table)
    ensures forall c :: multiset(KeyColumns(t))[c] == if c.isPrimaryKey then multiset(t.columns)[c] else 0
  {
    SortByPermutation(Where(t.columns, IsKeyColumn), KeyOrder);
    WhereCount(t.columns, IsKeyColumn);
  }

  /** The PRIMARY KEY line is there exactly when some column is a key column,
      and then it is a single line. */
  lemma PrimaryKeyPresence(t: Table)
    ensures |PrimaryKeyLines(t)| == (if HasKeyColumn(t) then 1 else 0)
  {
    WhereMembers(t.columns, IsKeyColumn);
  }

  // ---------------------------------------------------------------------------
  // Where the constraint lines sit
  // ---------------------------------------------------------------------------

  lemma {:induction false} CheckLinesAt(t: Table, ccs: seq<CheckConstraint>, hashCode: string -> HashCode, i: nat)
    requires i < |ccs|
    ensures CheckLines(t, ccs, hashCode)[i] == CheckLine(t, ccs[i], hashCode)
  {
    if i < |ccs| - 1 {
      CheckLinesAt(t, ccs[..|ccs| - 1], hashCode, i);
    }
  }

  lemma {:induction false} UniqueLinesAt(t: Table, ucs: seq<UniqueConstraint>, hashCode: string -> HashCode, i: nat)
    requires i < |ucs|
    ensures UniqueLines(t, ucs, hashCode)[i] == UniqueLine(t, ucs[i], hashCode)
  {
    if i < |ucs| - 1 {
      UniqueLinesAt(t, ucs[..|ucs| - 1], hashCode, i);
    }
  }

  /** The constraint lines are the optional key line, a line per check
      constraint and a line per unique constraint, and nothing else. */
  lemma ConstraintLinesLength(t: Table, hashCode: string -> HashCode)
    ensures |ConstraintLines(t, hashCode)|
      == (if HasKeyColumn(t) then 1 else 0) + |t.checkConstraints| + |t.uniqueConstraints|
  {
    PrimaryKeyPresence(t);
  }

  /** After the optional key line come the CHECK lines, one per check
      constraint in the table's order. */
  lemma ConstraintCheckAt(t: Table, hashCode: string -> HashCode, j: nat)
    requires j < |t.checkConstraints|
    ensures var at := (if HasKeyColumn(t) then 1 else 0) + j;
            at < |ConstraintLines(t, hashCode)| && ConstraintLines(t, hashCode)[at] == CheckLine(t, t.checkConstraints[j], hashCode)
  {
    var key := PrimaryKeyLines(t);
    var checks := CheckLines(t, t.checkConstraints, hashCode);
    PrimaryKeyPresence(t);
    CheckLinesAt(t, t.checkConstraints, hashCode, j);
    SecondOfThreeAt(ConstraintLines(t, hashCode), key, checks, UniqueLines(t, t.uniqueConstraints, hashCode), j);
  }

  /** Last come the UNIQUE lines, one per unique constraint in the table's order. */
  lemma ConstraintUniqueAt(t: Table, hashCode: string -> HashCode, j: nat)
    requires j < |t.uniqueConstraints|
    ensures var at := (if HasKeyColumn(t) then 1 else 0) + |t.checkConstraints| + j;
            at < |ConstraintLines(t, hashCode)| && ConstraintLines(t, hashCode)[at] == UniqueLine(t, t.uniqueConstraints[j], hashCode)
  {
    var key := PrimaryKeyLines(t);
    var checks := CheckLines(t, t.checkConstraints, hashCode);
    PrimaryKeyPresence(t);
    UniqueLinesAt(t, t.uniqueConstraints, hashCode, j);
    ThirdOfThreeAt(ConstraintLines(t, hashCode), key, checks, UniqueLines(t, t.uniqueConstraints, hashCode), j);
  }

  /** The body is a line per column followed by the constraint lines. */
  lemma TableItemsLength(t: Table, env: Environment)
    ensures |TableItems(t, env)| == |t.columns| + |ConstraintLines(t, env.hashCode)|
  {
  }

  /** After the column lines, the body continues with the constraint lines. */
  lemma TableConstraintAt(t: Table, env: Environment, k: nat)
    requires k < |ConstraintLines(t, env.hashCode)|
    ensures |t.columns| + k < |TableItems(t, env)|
    ensures TableItems(t, env)[|t.columns| + k] == ConstraintLines(t, env.hashCode)[k]
  {
    SecondOfTwoAt(TableItems(t, env), ColumnLines(t, SortBy(t.columns, ColumnId), env.parsesAsDecimal), ConstraintLines(t, env.hashCode), k);
  }
}
