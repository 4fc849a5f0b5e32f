/**
 * The script as data. A project's script is a header followed by a plan of
 * statements: schema guards, then one CREATE TABLE per table, then one
 * ALTER TABLE per foreign key, then one CREATE INDEX per index, each in
 * project order. Every statement renders to the lines the builder appends,
 * and the text is every line followed by the platform line terminator.
 */
module ScriptPlan {
  import opened Wrappers
  import opened Text
  import opened Entities
  import opened Oracles
  import opened ConstraintNames
  import opened TableDefinition

  /** What one block of the script does. A foreign key carries the GUID
      drawn for it, which names it when it has no name of its own. */
  datatype Action =
    | SchemaGuard(schema: string)
    | CreateTable(table: Table)
    | AddForeignKey(table: Table, key: ForeignKey, guid: GuidText)
    | CreateIndex(table: Table, index: Index)

  /** The section an action belongs to, in script order. */
  function Rank(a: Action): nat {
    match a
    case SchemaGuard(_) => 0
    case CreateTable(_) => 1
    case AddForeignKey(_, _, _) => 2
    case CreateIndex(_, _) => 3
  }

  // ---------------------------------------------------------------------------
  // Schemas
  // ---------------------------------------------------------------------------

  function TableSchemas(ts: seq<Table>): (r: seq<string>)
    ensures |r| == |ts|
    ensures forall i :: 0 <= i < |ts| ==> r[i] == ts[i].schema
  {
    if ts == [] then [] else [ts[0].schema] + TableSchemas(ts[1..])
  }

  predicate ContainsIgnoreCase(xs: seq<string>, x: string) {
    exists j :: 0 <= j < |xs| && EqualsIgnoreCase(xs[j], x)
  }

  /** LINQ `Distinct(StringComparer.OrdinalIgnoreCase)`: the first of every
      group of names equal ignoring case, in order of first appearance. */
  function DistinctIgnoreCase(xs: seq<string>): seq<string> {
    if xs == [] then []
    else
      var d := DistinctIgnoreCase(xs[..|xs| - 1]);
      var x := xs[|xs| - 1];
      if ContainsIgnoreCase(d, x) then d else d + [x]
  }

  /** Every kept name is one of the input names, as written. */
  lemma {:induction false} DistinctFromInput(xs: seq<string>)
    ensures forall i :: 0 <= i < |DistinctIgnoreCase(xs)| ==> DistinctIgnoreCase(xs)[i] in xs
  {
    if xs != [] {
      var init := xs[..|xs| - 1];
      DistinctFromInput(init);
      var d := DistinctIgnoreCase(init);
      assert forall i :: 0 <= i < |d| ==> d[i] in init;
      assert forall i :: 0 <= i < |init| ==> init[i] == xs[i];
    }
  }

  /** Every input name is represented, ignoring case. */
  lemma {:induction false} DistinctCovers(xs: seq<string>)
    ensures forall i :: 0 <= i < |xs| ==> ContainsIgnoreCase(DistinctIgnoreCase(xs), xs[i])
  {
    if xs != [] {
      var init := xs[..|xs| - 1];
      var x := xs[|xs| - 1];
      var d := DistinctIgnoreCase(init);
      DistinctCovers(init);
      var r := DistinctIgnoreCase(xs);
      assert d <= r;
      forall i | 0 <= i < |xs| ensures ContainsIgnoreCase(r, xs[i]) {
        if i < |xs| - 1 {
          assert xs[i] == init[i];
          var j :| 0 <= j < |d| && EqualsIgnoreCase(d[j], xs[i]);
          assert r[j] == d[j];
        } else if !ContainsIgnoreCase(d, x) {
          assert r[|d|] == x;
          assert EqualsIgnoreCase(x, x);
        }
      }
    }
  }

  predicate NoDuplicatesIgnoreCase(xs: seq<string>) {
    forall i, j :: 0 <= i < j < |xs| ==> !EqualsIgnoreCase(xs[i], xs[j])
  }

  /** No two kept names are equal ignoring case. */
  lemma {:induction false} DistinctUnique(xs: seq<string>)
    ensures NoDuplicatesIgnoreCase(DistinctIgnoreCase(xs))
  {
    if xs != [] {
      var init := xs[..|xs| - 1];
      var x := xs[|xs| - 1];
      var d := DistinctIgnoreCase(init);
      DistinctUnique(init);
      var r := DistinctIgnoreCase(xs);
      if !ContainsIgnoreCase(d, x) {
        assert r == d + [x];
        forall i, j | 0 <= i < j < |r| ensures !EqualsIgnoreCase(r[i], r[j]) {
          if j == |d| {
            assert r[j] == x && r[i] == d[i];
            assert !EqualsIgnoreCase(d[i], x);
          } else {
            assert r[i] == d[i] && r[j] == d[j];
          }
        }
      } else {
        assert r == d;
      }
    }
  }

  predicate IsDbo(schema: string) { EqualsIgnoreCase(schema, "dbo") }

  /** A guard for every listed schema that is not `dbo` (ignoring case). */
  function SchemaStatements(schemas: seq<string>): seq<Action> {
    if schemas == [] then []
    else
      var last := schemas[|schemas| - 1];
      SchemaStatements(schemas[..|schemas| - 1]) + (if IsDbo(last) then [] else [SchemaGuard(last)])
  }

  /** The guards are exactly those of the listed schemas other than `dbo`. */
  lemma {:induction false} SchemaStatementsSpec(schemas: seq<string>)
    ensures var r := SchemaStatements(schemas);
            (forall i :: 0 <= i < |r| ==> r[i].SchemaGuard? && r[i].schema in schemas && !IsDbo(r[i].schema))
            && (forall i :: 0 <= i < |schemas| && !IsDbo(schemas[i]) ==> SchemaGuard(schemas[i]) in r)
  {
    if schemas != [] {
      var init := schemas[..|schemas| - 1];
      var last := schemas[|schemas| - 1];
      SchemaStatementsSpec(init);
      var d := SchemaStatements(init);
      var r := SchemaStatements(schemas);
      assert forall i :: 0 <= i < |init| ==> init[i] == schemas[i];
      assert forall i :: 0 <= i < |d| ==> r[i] == d[i];
      if !IsDbo(last) {
        assert r[|d|] == SchemaGuard(last);
      }
    }
  }

  // ---------------------------------------------------------------------------
  // Tables, keys and indexes
  // ---------------------------------------------------------------------------

  /** One CREATE TABLE per table, in project order. */
  function TableStatements(ts: seq<Table>, n: nat): (r: seq<Action>)
    requires n <= |ts|
    ensures |r| == n
  {
    if n == 0 then [] else TableStatements(ts, n - 1) + [CreateTable(ts[n - 1])]
  }

  /** The foreign keys of table `t`, the table at position `a`, in order. */
  function KeyStatements(t: Table, a: nat, m: nat, newGuid: (nat, nat) -> GuidText): (r: seq<Action>)
    requires m <= |t.foreignKeys|
    ensures |r| == m
  {
    if m == 0 then [] else KeyStatements(t, a, m - 1, newGuid) + [AddForeignKey(t, t.foreignKeys[m - 1], newGuid(a, m - 1))]
  }

  /** The foreign keys of the first `n` tables, table by table. */
  function ForeignKeyStatements(ts: seq<Table>, n: nat, newGuid: (nat, nat) -> GuidText): seq<Action>
    requires n <= |ts|
  {
    if n == 0 then []
    else ForeignKeyStatements(ts, n - 1, newGuid) + KeyStatements(ts[n - 1], n - 1, |ts[n - 1].foreignKeys|, newGuid)
  }

  /** The indexes of table `t`, in order. */
  function IndexStatementsOf(t: Table, m: nat): (r: seq<Action>)
    requires m <= |t.indexes|
    ensures |r| == m
  {
    if m == 0 then [] else IndexStatementsOf(t, m - 1) + [CreateIndex(t, t.indexes[m - 1])]
  }

  /** The indexes of the first `n` tables, table by table. */
  function IndexStatements(ts: seq<Table>, n: nat): seq<Action>
    requires n <= |ts|
  {
    if n == 0 then []
    else IndexStatements(ts, n - 1) + IndexStatementsOf(ts[n - 1], |ts[n - 1].indexes|)
  }

  /** The schemas to guard, deduplicated ignoring case. */
  function ProjectSchemas(p: Project): seq<string> {
    DistinctIgnoreCase(TableSchemas(p.tables))
  }

  /** Every statement of the script, in order. */
  function Plan(p: Project, env: Environment): seq<Action> {
    SchemaStatements(ProjectSchemas(p))
      + TableStatements(p.tables, |p.tables|)
      + ForeignKeyStatements(p.tables, |p.tables|, env.newGuid)
      + IndexStatements(p.tables, |p.tables|)
  }

  // ---------------------------------------------------------------------------
  // Rendering
  // ---------------------------------------------------------------------------

  function HeaderLines(p: Project, env: Environment): seq<string> {
    [ "-- SQL generated for project: " + p.name,
      "-- Generated at: " + env.generatedAt,
      "SET ANSI_NULLS ON;",
      "SET QUOTED_IDENTIFIER ON;",
      "" ]
  }

  /** The guard is one entry holding two source lines, separated by LF. */
  function SchemaGuardLines(schema: string): seq<string> {
    [ "IF NOT EXISTS (SELECT * FROM sys.schemas WHERE name = N'" + schema + "')\n    EXEC('CREATE SCHEMA [" + schema + "]');",
      "" ]
  }

  /** Drop the table if it exists, then create it with the given items,
      one per line, separated by commas. */
  function TableBlock(t: Table, items: seq<string>): seq<string> {
    var fullName := FullName(t.schema, t.name);
    [ "-- Table " + fullName,
      "IF OBJECT_ID(N'" + fullName + "', N'U') IS NOT NULL DROP TABLE " + fullName + ";",
      "GO",
      "" ]
    + [ "CREATE TABLE " + fullName, "(", Join(items, ",\n") ]
    + [ ");", "GO", "" ]
  }

  function CreateTableLines(t: Table, env: Environment): seq<string> {
    TableBlock(t, TableItems(t, env))
  }

  /** The referencing column names, in key order. */
  function ForeignKeyColumnNames(cols: seq<ForeignKeyColumn>): (names: seq<string>)
    ensures |names| == |cols|
    ensures forall i :: 0 <= i < |names| ==> names[i] == cols[i].columnName
  {
    if cols == [] then [] else [cols[0].columnName] + ForeignKeyColumnNames(cols[1..])
  }

  /** The referenced column names, in the same order. */
  function ForeignKeyRefColumnNames(cols: seq<ForeignKeyColumn>): (names: seq<string>)
    ensures |names| == |cols|
    ensures forall i :: 0 <= i < |names| ==> names[i] == cols[i].refColumnName
  {
    if cols == [] then [] else [cols[0].refColumnName] + ForeignKeyRefColumnNames(cols[1..])
  }

  function OnDeleteClause(fk: ForeignKey): (r: string)
    ensures r != "" <==> !IsNullOrWhiteSpace(fk.onDeleteAction)
  {
    if !IsNullOrWhiteSpace(fk.onDeleteAction) then " ON DELETE " + fk.onDeleteAction.value else ""
  }

  function AddConstraintLine(t: Table, fkName: string): string {
    "ALTER TABLE " + FullName(t.schema, t.name) + " ADD CONSTRAINT [" + fkName + "]"
  }

  function ReferencesLine(fk: ForeignKey): string {
    "    FOREIGN KEY (" + BracketList(ForeignKeyColumnNames(fk.columns)) + ") REFERENCES "
      + FullName(fk.refSchema, fk.refTable) + " (" + BracketList(ForeignKeyRefColumnNames(fk.columns)) + ")"
      + OnDeleteClause(fk) + ";"
  }

  function ForeignKeyLines(t: Table, fk: ForeignKey, guid: GuidText): seq<string> {
    [AddConstraintLine(t, ForeignKeyName(t, fk, guid)), ReferencesLine(fk), "GO", ""]
  }

  /** `[c] ASC` or `[c] DESC` per index column. */
  function IndexColumnItems(cols: seq<IndexColumn>): (r: seq<string>)
    ensures |r| == |cols|
  {
    if cols == [] then []
    else ["[" + cols[0].columnName + "] " + (if cols[0].descending then "DESC" else "ASC")] + IndexColumnItems(cols[1..])
  }

  function IndexColumnList(ix: Index): string {
    Join(IndexColumnItems(ix.columns), ", ")
  }

  function IncludeClause(ix: Index): (r: string)
    ensures r != "" <==> !IsNullOrWhiteSpace(ix.includeColumnsCsv)
  {
    if !IsNullOrWhiteSpace(ix.includeColumnsCsv) then
      " INCLUDE (" + BracketList(SplitEntries(ix.includeColumnsCsv.value, ',')) + ")"
    else ""
  }

  function CreateIndexLine(t: Table, ix: Index): string {
    "CREATE " + (if ix.isUnique then "UNIQUE " else "") + "INDEX [" + IndexName(t, ix) + "] ON "
      + FullName(t.schema, t.name) + " (" + IndexColumnList(ix) + ")" + IncludeClause(ix) + ";"
  }

  function IndexLines(t: Table, ix: Index): seq<string> {
    [CreateIndexLine(t, ix), "GO", ""]
  }

  /** The lines an action renders to. */
  function Render(a: Action, env: Environment): seq<string> {
    match a
    case SchemaGuard(schema) => SchemaGuardLines(schema)
    case CreateTable(t) => CreateTableLines(t, env)
    case AddForeignKey(t, fk, guid) => ForeignKeyLines(t, fk, guid)
    case CreateIndex(t, ix) => IndexLines(t, ix)
  }

  /** Every block ends with an empty line; every block but a schema guard
      ends its batch with `GO` just before it. */
  lemma RenderEnding(a: Action, env: Environment)
    ensures var r := Render(a, env);
            |r| >= 2 && r[|r| - 1] == ""
            && (r[|r| - 2] == "GO" <==> !a.SchemaGuard?)
  {
  }

  /** The lines of the first `i` actions of a plan, each rendered by
      `render`, in order. */
  function RenderPrefix(plan: seq<Action>, i: nat, render: Action -> seq<string>): seq<string>
    requires i <= |plan|
  {
    if i == 0 then [] else RenderPrefix(plan, i - 1, render) + render(plan[i - 1])
  }

  /** How the builder renders one action. */
  function Renderer(env: Environment): Action -> seq<string> {
    a => Render(a, env)
  }

  /** The lines of a sequence of actions, in order. */
  function RenderAll(plan: seq<Action>, env: Environment): seq<string> {
    RenderPrefix(plan, |plan|, Renderer(env))
  }

  lemma {:induction false} RenderPrefixAgree(p: seq<Action>, q: seq<Action>, i: nat, render: Action -> seq<string>)
    requires i <= |p| && i <= |q|
    requires forall k :: 0 <= k < i ==> p[k] == q[k]
    ensures RenderPrefix(p, i, render) == RenderPrefix(q, i, render)
  {
    if i > 0 {
      RenderPrefixAgree(p, q, i - 1, render);
    }
  }

  lemma {:induction false} RenderPrefixAppend(a: seq<Action>, b: seq<Action>, i: nat, render: Action -> seq<string>)
    requires i <= |b|
    ensures RenderPrefix(a + b, |a| + i, render) == RenderPrefix(a, |a|, render) + RenderPrefix(b, i, render)
  {
    if i == 0 {
      RenderPrefixAgree(a + b, a, |a|, render);
      AppendEmpty(RenderPrefix(a, |a|, render));
    } else {
      RenderPrefixAppend(a, b, i - 1, render);
      assert (a + b)[|a| + i - 1] == b[i - 1];
      AppendAssoc(RenderPrefix(a, |a|, render), RenderPrefix(b, i - 1, render), render(b[i - 1]));
    }
  }

  lemma RenderAllAppend(a: seq<Action>, b: seq<Action>, env: Environment)
    ensures RenderAll(a + b, env) == RenderAll(a, env) + RenderAll(b, env)
  {
    RenderPrefixAppend(a, b, |b|, Renderer(env));
  }

  lemma RenderAllSnoc(plan: seq<Action>, s: Action, env: Environment)
    ensures RenderAll(plan + [s], env) == RenderAll(plan, env) + Render(s, env)
  {
    RenderPrefixAppend(plan, [s], 1, Renderer(env));
    assert RenderPrefix([s], 1, Renderer(env)) == [] + Render(s, env);
    AppendEmpty(Render(s, env));
  }

  // ---------------------------------------------------------------------------
  // The lines of each section, as the builder's loops produce them
  // ---------------------------------------------------------------------------

  /** The guards of the listed schemas, `dbo` skipped. */
  function SchemaSection(schemas: seq<string>, env: Environment): seq<string> {
    RenderAll(SchemaStatements(schemas), env)
  }

  /** The CREATE TABLE blocks of the first `n` tables. */
  function TableSection(ts: seq<Table>, n: nat, env: Environment): seq<string>
    requires n <= |ts|
  {
    RenderAll(TableStatements(ts, n), env)
  }

  /** The ALTER TABLE blocks of the first `m` foreign keys of `t`, the table at position `a`. */
  function KeyBlock(t: Table, a: nat, m: nat, env: Environment): seq<string>
    requires m <= |t.foreignKeys|
  {
    RenderAll(KeyStatements(t, a, m, env.newGuid), env)
  }

  /** The foreign key blocks of the first `n` tables. */
  function ForeignKeySection(ts: seq<Table>, n: nat, env: Environment): seq<string>
    requires n <= |ts|
  {
    RenderAll(ForeignKeyStatements(ts, n, env.newGuid), env)
  }

  /** The CREATE INDEX blocks of the first `m` indexes of `t`. */
  function IndexBlock(t: Table, m: nat, env: Environment): seq<string>
    requires m <= |t.indexes|
  {
    RenderAll(IndexStatementsOf(t, m), env)
  }

  /** The index blocks of the first `n` tables. */
  function IndexSection(ts: seq<Table>, n: nat, env: Environment): seq<string>
    requires n <= |ts|
  {
    RenderAll(IndexStatements(ts, n), env)
  }

  lemma SchemaSectionStep(prefix: seq<string>, before: seq<string>, after: seq<string>, schemas: seq<string>, i: nat, env: Environment)
    requires i < |schemas|
    requires before == prefix + SchemaSection(schemas[..i], env)
    requires after == if IsDbo(schemas[i]) then before else before + SchemaGuardLines(schemas[i])
    ensures after == prefix + SchemaSection(schemas[..i + 1], env)
  {
    var init := SchemaStatements(schemas[..i]);
    assert schemas[..i + 1][..i] == schemas[..i];
    if IsDbo(schemas[i]) {
      AppendEmpty(init);
    } else {
      RenderAllSnoc(init, SchemaGuard(schemas[i]), env);
      AppendAssoc(prefix, SchemaSection(schemas[..i], env), SchemaGuardLines(schemas[i]));
    }
  }

  // Each builder step: lines that hold a section so far, followed by one
  // more block, hold the section one block longer.

  lemma TableSectionStep(prefix: seq<string>, before: seq<string>, after: seq<string>, ts: seq<Table>, a: nat, env: Environment)
    requires a < |ts|
    requires before == prefix + TableSection(ts, a, env)
    requires after == before + CreateTableLines(ts[a], env)
    ensures after == prefix + TableSection(ts, a + 1, env)
  {
    RenderAllSnoc(TableStatements(ts, a), CreateTable(ts[a]), env);
    AppendAssoc(prefix, TableSection(ts, a, env), CreateTableLines(ts[a], env));
  }

  lemma KeyBlockStep(prefix: seq<string>, before: seq<string>, after: seq<string>, t: Table, a: nat, k: nat, env: Environment)
    requires k < |t.foreignKeys|
    requires before == prefix + KeyBlock(t, a, k, env)
    requires after == before + ForeignKeyLines(t, t.foreignKeys[k], env.newGuid(a, k))
    ensures after == prefix + KeyBlock(t, a, k + 1, env)
  {
    var s := AddForeignKey(t, t.foreignKeys[k], env.newGuid(a, k));
    RenderAllSnoc(KeyStatements(t, a, k, env.newGuid), s, env);
    AppendAssoc(prefix, KeyBlock(t, a, k, env), Render(s, env));
  }

  lemma ForeignKeySectionStep(prefix: seq<string>, before: seq<string>, after: seq<string>, ts: seq<Table>, a: nat, env: Environment)
    requires a < |ts|
    requires before == prefix + ForeignKeySection(ts, a, env)
    requires after == before + KeyBlock(ts[a], a, |ts[a].foreignKeys|, env)
    ensures after == prefix + ForeignKeySection(ts, a + 1, env)
  {
    RenderAllAppend(ForeignKeyStatements(ts, a, env.newGuid), KeyStatements(ts[a], a, |ts[a].foreignKeys|, env.newGuid), env);
    AppendAssoc(prefix, ForeignKeySection(ts, a, env), KeyBlock(ts[a], a, |ts[a].foreignKeys|, env));
  }

  lemma IndexBlockStep(prefix: seq<string>, before: seq<string>, after: seq<string>, t: Table, k: nat, env: Environment)
    requires k < |t.indexes|
    requires before == prefix + IndexBlock(t, k, env)
    requires after == before + IndexLines(t, t.indexes[k])
    ensures after == prefix + IndexBlock(t, k + 1, env)
  {
    RenderAllSnoc(IndexStatementsOf(t, k), CreateIndex(t, t.indexes[k]), env);
    AppendAssoc(prefix, IndexBlock(t, k, env), IndexLines(t, t.indexes[k]));
  }

  lemma IndexSectionStep(prefix: seq<string>, before: seq<string>, after: seq<string>, ts: seq<Table>, a: nat, env: Environment)
    requires a < |ts|
    requires before == prefix + IndexSection(ts, a, env)
    requires after == before + IndexBlock(ts[a], |ts[a].indexes|, env)
    ensures after == prefix + IndexSection(ts, a + 1, env)
  {
    RenderAllAppend(IndexStatements(ts, a), IndexStatementsOf(ts[a], |ts[a].indexes|), env);
    AppendAssoc(prefix, IndexSection(ts, a, env), IndexBlock(ts[a], |ts[a].indexes|, env));
  }

  /** Every entry the builder appends, in order: the header, then the
      rendering of every statement of the plan. */
  function ScriptLines(p: Project, env: Environment): seq<string> {
    HeaderLines(p, env) + RenderAll(Plan(p, env), env)
  }

  /** Appending the header and then the four sections, one after another,
      yields exactly the header followed by the rendering of the plan. */
  lemma PlanRendersSections(h: seq<string>, g: seq<string>, c: seq<string>, k: seq<string>, x: seq<string>,
                            p: Project, env: Environment)
    requires h == HeaderLines(p, env)
    requires g == h + SchemaSection(ProjectSchemas(p), env)
    requires c == g + TableSection(p.tables, |p.tables|, env)
    requires k == c + ForeignKeySection(p.tables, |p.tables|, env)
    requires x == k + IndexSection(p.tables, |p.tables|, env)
    ensures x == ScriptLines(p, env)
  {
    var ts := p.tables;
    var guards := SchemaStatements(ProjectSchemas(p));
    var creates := TableStatements(ts, |ts|);
    var keys := ForeignKeyStatements(ts, |ts|, env.newGuid);
    var indexes := IndexStatements(ts, |ts|);
    RenderAllAppend(guards, creates, env);
    RenderAllAppend(guards + creates, keys, env);
    RenderAllAppend(guards + creates + keys, indexes, env);
    AppendAssoc(h, RenderAll(guards, env), RenderAll(creates, env));
    AppendAssoc(h, RenderAll(guards + creates, env), RenderAll(keys, env));
    AppendAssoc(h, RenderAll(guards + creates + keys, env), RenderAll(indexes, env));
  }

  /** `StringBuilder.AppendLine`: each entry followed by the line terminator. */
  function ScriptText(lines: seq<string>, newLine: string): string {
    if lines == [] then ""
    else ScriptText(lines[..|lines| - 1], newLine) + (lines[|lines| - 1] + newLine)
  }

  /** Appending lines one after another appends their texts. */
  lemma {:induction false} ScriptTextAppend(a: seq<string>, b: seq<string>, newLine: string)
    ensures ScriptText(a + b, newLine) == ScriptText(a, newLine) + ScriptText(b, newLine)
    decreases |b|
  {
    if b == [] {
      assert a + b == a;
    } else {
      var init := b[..|b| - 1];
      assert (a + b)[..|a + b| - 1] == a + init;
      ScriptTextAppend(a, init, newLine);
      AppendAssoc(ScriptText(a, newLine), ScriptText(init, newLine), b[|b| - 1] + newLine);
    }
  }

  /** Every line is terminated: the text of one line is that line followed
      by the terminator. */
  lemma ScriptTextLine(line: string, newLine: string)
    ensures ScriptText([line], newLine) == line + newLine
  {
    assert [line][..0] == [];
  }
}
