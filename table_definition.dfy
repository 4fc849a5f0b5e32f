/**
 * The body of one `CREATE TABLE` statement: a line per column in id order,
 * then the primary key, the table-level CHECK constraints and the
 * multi-column UNIQUE constraints, every line indented by four spaces.
 */
module TableDefinition {
  import opened Wrappers
  import opened Text
  import opened Entities
  import opened StableSort
  import opened ColumnTypes
  import opened Literals
  import opened Oracles
  import opened ConstraintNames

  const Indent: string := "    "

  /** `[schema].[name]`. */
  function FullName(schema: string, name: string): string {
    "[" + schema + "].[" + name + "]"
  }

  /** Each name in square brackets. */
  function Bracketed(names: seq<string>): (r: seq<string>)
    ensures |r| == |names|
  {
    if names == [] then [] else ["[" + names[0] + "]"] + Bracketed(names[1..])
  }

  /** Each name in square brackets, separated by ", ". */
  function BracketList(names: seq<string>): string {
    Join(Bracketed(names), ", ")
  }

  // ---------------------------------------------------------------------------
  // Column lines
  // ---------------------------------------------------------------------------

  /** The column name in brackets and its SQL type. */
  function ColumnHead(c: Column): string
  {
    Indent + "[" + c.name + "] " + BuildColumnType(c)
  }

  /** ` IDENTITY(seed,increment)`, present exactly for identity columns, with
      seed and increment printed so that they read back. */
  function IdentityClause(c: Column): string {
    if c.isIdentity then " IDENTITY(" + IntToString(c.identitySeed) + "," + IntToString(c.identityIncrement) + ")"
    else ""
  }

  /** Exactly one of ` NULL` and ` NOT NULL`, following the nullability flag. */
  function NullabilityClause(c: Column): string {
    if c.isNullable then " NULL" else " NOT NULL"
  }

  /** A column default is emitted when its text is not blank and its kind is not None. */
  predicate HasDefault(c: Column) {
    !IsNullOrWhiteSpace(c.defaultSql) && c.defaultKind != SqlDefaultKind.None
  }

  /** The DEFAULT expression: a literal default is wrapped, a raw one is copied. */
  function DefaultExpression(c: Column, parsesAsDecimal: string -> bool): string
    requires HasDefault(c)
  {
    if c.defaultKind == SqlDefaultKind.Literal then WrapLiteral(c.defaultSql.value, parsesAsDecimal)
    else c.defaultSql.value
  }

  /** ` CONSTRAINT [DF_t_c] DEFAULT (expr)`, present exactly when the column has a default. */
  function DefaultClause(t: Table, c: Column, parsesAsDecimal: string -> bool): string {
    if HasDefault(c) then
      " CONSTRAINT [" + DefaultConstraintName(t, c) + "] DEFAULT (" + DefaultExpression(c, parsesAsDecimal) + ")"
    else ""
  }

  /** ` CONSTRAINT [UQ_t_c] UNIQUE`, present exactly for unique columns that
      are not part of the primary key. */
  function UniqueClause(t: Table, c: Column): string {
    if c.isUnique && !c.isPrimaryKey then " CONSTRAINT [" + ColumnUniqueName(t, c) + "] UNIQUE" else ""
  }

  function ColumnLine(t: Table, c: Column, parsesAsDecimal: string -> bool): string
  {
    ColumnHead(c) + IdentityClause(c) + NullabilityClause(c) + DefaultClause(t, c, parsesAsDecimal) + UniqueClause(t, c)
  }

  /** One line per column, in the given order. */
  function ColumnLines(t: Table, cols: seq<Column>, parsesAsDecimal: string -> bool): (r: seq<string>)
    ensures |r| == |cols|
  {
    if cols == [] then []
    else
      ColumnLines(t, cols[..|cols| - 1], parsesAsDecimal) + [ColumnLine(t, cols[|cols| - 1], parsesAsDecimal)]
  }

  /** The `i`-th column line renders the `i`-th column. */
  lemma {:induction false} ColumnLinesAt(t: Table, cols: seq<Column>, parsesAsDecimal: string -> bool, i: nat)
    requires i < |cols|
    ensures ColumnLines(t, cols, parsesAsDecimal)[i] == ColumnLine(t, cols[i], parsesAsDecimal)
  {
    if i < |cols| - 1 {
      ColumnLinesAt(t, cols[..|cols| - 1], parsesAsDecimal, i);
    }
  }

  // ---------------------------------------------------------------------------
  // Primary key
  // ---------------------------------------------------------------------------

  function ColumnId(c: Column): int { c.id }
  function IsKeyColumn(c: Column): bool { c.isPrimaryKey }
  /** Columns without an explicit key order go last. */
  function KeyOrder(c: Column): int { c.primaryKeyOrder.GetOr(Int32MaxValue) }

  /** The key columns, stably sorted by their key order. */
  function KeyColumns(t: Table): seq<Column> {
    SortBy(Where(t.columns, IsKeyColumn), KeyOrder)
  }

  function KeyItems(cols: seq<Column>): (r: seq<string>)
    ensures |r| == |cols|
  {
    if cols == [] then [] else ["[" + cols[0].name + "] ASC"] + KeyItems(cols[1..])
  }

  /** `[c] ASC, ...` over the key columns. */
  function KeyList(cols: seq<Column>): string {
    Join(KeyItems(cols), ", ")
  }

  /** The PRIMARY KEY line, present exactly when some column is a key column. */
  function PrimaryKeyLines(t: Table): seq<string> {
    var cols := KeyColumns(t);
    if |cols| > 0 then [Indent + "CONSTRAINT [" + PrimaryKeyName(t) + "] PRIMARY KEY (" + KeyList(cols) + ")"]
    else []
  }

  // ---------------------------------------------------------------------------
  // Table-level constraints
  // ---------------------------------------------------------------------------

  function CheckLine(t: Table, cc: CheckConstraint, hashCode: string -> HashCode): string
  {
    Indent + "CONSTRAINT [" + CheckConstraintName(t, cc, hashCode) + "] CHECK (" + cc.expression + ")"
  }

  function CheckLines(t: Table, ccs: seq<CheckConstraint>, hashCode: string -> HashCode): (r: seq<string>)
    ensures |r| == |ccs|
  {
    if ccs == [] then []
    else
      CheckLines(t, ccs[..|ccs| - 1], hashCode) + [CheckLine(t, ccs[|ccs| - 1], hashCode)]
  }

  /** The column names of a UNIQUE constraint: the comma-separated entries,
      trimmed, with the empty ones dropped. */
  function UniqueColumns(uc: UniqueConstraint): seq<string>
  {
    SplitEntries(uc.columnsCsv, ',')
  }

  function UniqueLine(t: Table, uc: UniqueConstraint, hashCode: string -> HashCode): string
  {
    Indent + "CONSTRAINT [" + UniqueConstraintName(t, uc, hashCode) + "] UNIQUE (" + BracketList(UniqueColumns(uc)) + ")"
  }

  function UniqueLines(t: Table, ucs: seq<UniqueConstraint>, hashCode: string -> HashCode): (r: seq<string>)
    ensures |r| == |ucs|
  {
    if ucs == [] then []
    else
      UniqueLines(t, ucs[..|ucs| - 1], hashCode) + [UniqueLine(t, ucs[|ucs| - 1], hashCode)]
  }

  // ---------------------------------------------------------------------------
  // The whole body
  // ---------------------------------------------------------------------------

  /** The table-level constraints that follow the columns: the key, the
      checks and the unique constraints. */
  function ConstraintLines(t: Table, hashCode: string -> HashCode): seq<string> {
    PrimaryKeyLines(t) + CheckLines(t, t.checkConstraints, hashCode) + UniqueLines(t, t.uniqueConstraints, hashCode)
  }

  /** The lines between the parentheses of `CREATE TABLE`: columns by id,
      then the table-level constraints, all indented. */
  function TableItems(t: Table, env: Environment): seq<string> {
    ColumnLines(t, SortBy(t.columns, ColumnId), env.parsesAsDecimal) + ConstraintLines(t, env.hashCode)
  }

  /** Builds one column line piece by piece. */
  method BuildColumnLine(t: Table, c: Column, parsesAsDecimal: string -> bool) returns (line: string)
    ensures line == ColumnLine(t, c, parsesAsDecimal)
  {
    line := Indent + "[" + c.name + "] " + BuildColumnType(c);
    assert line == ColumnHead(c);
    if c.isIdentity {
      line := line + (" IDENTITY(" + IntToString(c.identitySeed) + "," + IntToString(c.identityIncrement) + ")");
    }
    assert line == ColumnHead(c) + IdentityClause(c);
    line := line + (if c.isNullable then " NULL" else " NOT NULL");
    ghost var upToNull := line;
    if !IsNullOrWhiteSpace(c.defaultSql) && c.defaultKind != SqlDefaultKind.None {
      var defaultExpr := if c.defaultKind == SqlDefaultKind.Literal
        then WrapLiteral(c.defaultSql.value, parsesAsDecimal)
        else c.defaultSql.value;
      line := line + (" CONSTRAINT [" + DefaultConstraintName(t, c) + "] DEFAULT (" + defaultExpr + ")");
    }
    assert line == upToNull + DefaultClause(t, c, parsesAsDecimal);
    ghost var upToDefault := line;
    if c.isUnique && !c.isPrimaryKey {
      line := line + (" CONSTRAINT [" + ColumnUniqueName(t, c) + "] UNIQUE");
    }
    assert line == upToDefault + UniqueClause(t, c);
  }

  /** One line per column, in the order given. */
  method BuildColumnLines(t: Table, ordered: seq<Column>, parsesAsDecimal: string -> bool)
    returns (columnLines: seq<string>)
    ensures columnLines == ColumnLines(t, ordered, parsesAsDecimal)
  {
    columnLines := [];
    for i := 0 to |ordered|
      invariant columnLines == ColumnLines(t, ordered[..i], parsesAsDecimal)
    {
      var c := ordered[i];
      assert ordered[..i + 1][..i] == ordered[..i];
      var line := BuildColumnLine(t, c, parsesAsDecimal);
      columnLines := columnLines + [line];
    }
    assert ordered[..|ordered|] == ordered;
  }

  lemma CheckLinesSnoc(t: Table, ccs: seq<CheckConstraint>, i: nat, hashCode: string -> HashCode)
    requires i < |ccs|
    ensures CheckLines(t, ccs[..i + 1], hashCode) == CheckLines(t, ccs[..i], hashCode) + [CheckLine(t, ccs[i], hashCode)]
  {
    assert ccs[..i + 1][..i] == ccs[..i];
  }

  lemma UniqueLinesSnoc(t: Table, ucs: seq<UniqueConstraint>, i: nat, hashCode: string -> HashCode)
    requires i < |ucs|
    ensures UniqueLines(t, ucs[..i + 1], hashCode) == UniqueLines(t, ucs[..i], hashCode) + [UniqueLine(t, ucs[i], hashCode)]
  {
    assert ucs[..i + 1][..i] == ucs[..i];
  }

  /** Adds a CHECK line per table-level check constraint. */
  method AppendCheckLines(t: Table, lines: seq<string>, hashCode: string -> HashCode)
    returns (columnLines: seq<string>)
    ensures columnLines == lines + CheckLines(t, t.checkConstraints, hashCode)
  {
    columnLines := lines;
    for i := 0 to |t.checkConstraints|
      invariant columnLines == lines + CheckLines(t, t.checkConstraints[..i], hashCode)
    {
      var cc := t.checkConstraints[i];
      var line := CheckLine(t, cc, hashCode);
      CheckLinesSnoc(t, t.checkConstraints, i, hashCode);
      AppendAssoc(lines, CheckLines(t, t.checkConstraints[..i], hashCode), [line]);
      columnLines := columnLines + [line];
    }
    assert t.checkConstraints[..|t.checkConstraints|] == t.checkConstraints;
  }

  /** Adds a UNIQUE line per multi-column unique constraint. */
  method AppendUniqueLines(t: Table, lines: seq<string>, hashCode: string -> HashCode)
    returns (columnLines: seq<string>)
    ensures columnLines == lines + UniqueLines(t, t.uniqueConstraints, hashCode)
  {
    columnLines := lines;
    for i := 0 to |t.uniqueConstraints|
      invariant columnLines == lines + UniqueLines(t, t.uniqueConstraints[..i], hashCode)
    {
      var uc := t.uniqueConstraints[i];
      var line := UniqueLine(t, uc, hashCode);
      UniqueLinesSnoc(t, t.uniqueConstraints, i, hashCode);
      AppendAssoc(lines, UniqueLines(t, t.uniqueConstraints[..i], hashCode), [line]);
      columnLines := columnLines + [line];
    }
    assert t.uniqueConstraints[..|t.uniqueConstraints|] == t.uniqueConstraints;
  }

  /** Builds the body line by line, as the script builder does. */
  method BuildTableItems(t: Table, env: Environment) returns (columnLines: seq<string>)
    ensures columnLines == TableItems(t, env)
  {
    columnLines := BuildColumnLines(t, SortBy(t.columns, ColumnId), env.parsesAsDecimal);
    ghost var columnsOnly := columnLines;
    var pkCols := KeyColumns(t);
    if |pkCols| > 0 {
      var pkName := PrimaryKeyName(t);
      columnLines := columnLines + [Indent + "CONSTRAINT [" + pkName + "] PRIMARY KEY (" + KeyList(pkCols) + ")"];
    }
    assert columnLines == columnsOnly + PrimaryKeyLines(t);
    columnLines := AppendCheckLines(t, columnLines, env.hashCode);
    columnLines := AppendUniqueLines(t, columnLines, env.hashCode);
    var key, checks := PrimaryKeyLines(t), CheckLines(t, t.checkConstraints, env.hashCode);
    AppendAssoc(columnsOnly, key, checks);
    AppendAssoc(columnsOnly, key + checks, UniqueLines(t, t.uniqueConstraints, env.hashCode));
  }
}
