/**
 * `SqlServerScriptBuilder.BuildProjectScript`: appends the header, the schema
 * guards, the tables, the foreign keys and the indexes to a string builder,
 * section by section, and returns its text. Each loop is proved to append
 * exactly the rendering of its part of the statement plan.
 */
module ScriptBuilder {
  import opened Wrappers
  import opened Text
  import opened Entities
  import opened Oracles
  import opened ConstraintNames
  import opened TableDefinition
  import opened ScriptPlan

  // Each loop below only calls a method for one item. That method appends the
  // item's block and states the step from the section over the items before
  // it to the section including it; `prefix` names what the builder held when
  // the section began.

  /** The guard for the `i`-th schema, unless it is `dbo` (in any case): a
      single entry holding both source lines, then a blank line. */
  method AppendSchemaGuard(lines: seq<string>, ghost prefix: seq<string>, schemas: seq<string>, i: nat, env: Environment)
    returns (lines': seq<string>)
    requires i < |schemas|
    requires lines == prefix + SchemaSection(schemas[..i], env)
    ensures lines' == lines + (if IsDbo(schemas[i]) then [] else SchemaGuardLines(schemas[i]))
    ensures lines' == prefix + SchemaSection(schemas[..i + 1], env)
  {
    var schema := schemas[i];
    lines' := lines;
    if !EqualsIgnoreCase(schema, "dbo") {
      lines' := lines' + ["IF NOT EXISTS (SELECT * FROM sys.schemas WHERE name = N'" + schema + "')\n    EXEC('CREATE SCHEMA [" + schema + "]');"];
      lines' := lines' + [""];
    }
    SchemaSectionStep(prefix, lines, lines', schemas, i, env);
  }

  /** A guard for every distinct schema other than `dbo`. */
  method AppendSchemaGuards(lines: seq<string>, p: Project, env: Environment) returns (lines': seq<string>)
    ensures lines' == lines + SchemaSection(ProjectSchemas(p), env)
  {
    var schemas := ProjectSchemas(p);
    lines' := lines;
    assert schemas[..0] == [];
    assert lines + [] == lines;
    for i := 0 to |schemas|
      invariant lines' == lines + SchemaSection(schemas[..i], env)
    {
      lines' := AppendSchemaGuard(lines', lines, schemas, i, env);
    }
    assert schemas[..|schemas|] == schemas;
  }

  /** The CREATE TABLE block of the `a`-th table: drop it if it exists, then
      create it with its column, key and constraint lines. */
  method AppendTable(lines: seq<string>, ghost prefix: seq<string>, ts: seq<Table>, a: nat, env: Environment)
    returns (lines': seq<string>)
    requires a < |ts|
    requires lines == prefix + TableSection(ts, a, env)
    ensures lines' == lines + CreateTableLines(ts[a], env)
    ensures lines' == prefix + TableSection(ts, a + 1, env)
  {
    var t := ts[a];
    var fullName := FullName(t.schema, t.name);
    var dropLine := "IF OBJECT_ID(N'" + fullName + "', N'U') IS NOT NULL DROP TABLE " + fullName + ";";
    var drop := ["-- Table " + fullName, dropLine, "GO", ""];
    lines' := lines + drop;
    var columnLines := BuildTableItems(t, env);
    var head := ["CREATE TABLE " + fullName, "(", Join(columnLines, ",\n")];
    lines' := lines' + head;
    var tail := [");", "GO", ""];
    lines' := lines' + tail;
    assert CreateTableLines(t, env) == drop + head + tail;
    AppendAssoc(lines, drop, head);
    AppendAssoc(lines, drop + head, tail);
    TableSectionStep(prefix, lines, lines', ts, a, env);
  }

  /** Drops and re-creates every table, in project order. */
  method AppendTables(lines: seq<string>, p: Project, env: Environment) returns (lines': seq<string>)
    ensures lines' == lines + TableSection(p.tables, |p.tables|, env)
  {
    lines' := lines;
    assert lines + [] == lines;
    for a := 0 to |p.tables|
      invariant lines' == lines + TableSection(p.tables, a, env)
    {
      lines' := AppendTable(lines', lines, p.tables, a, env);
    }
  }

  /** The ALTER TABLE block of the `k`-th foreign key of `t`, the table at
      position `a`; the GUID drawn for it is used only when the key is unnamed. */
  method AppendForeignKey(lines: seq<string>, ghost prefix: seq<string>, t: Table, a: nat, k: nat, env: Environment)
    returns (lines': seq<string>)
    requires k < |t.foreignKeys|
    requires lines == prefix + KeyBlock(t, a, k, env)
    ensures lines' == lines + ForeignKeyLines(t, t.foreignKeys[k], env.newGuid(a, k))
    ensures lines' == prefix + KeyBlock(t, a, k + 1, env)
  {
    var fk := t.foreignKeys[k];
    var fkName := ForeignKeyName(t, fk, env.newGuid(a, k));
    lines' := lines + [AddConstraintLine(t, fkName), ReferencesLine(fk), "GO", ""];
    KeyBlockStep(prefix, lines, lines', t, a, k, env);
  }

  /** The foreign keys of the `a`-th table, in order. */
  method AppendTableForeignKeys(lines: seq<string>, ghost prefix: seq<string>, ts: seq<Table>, a: nat, env: Environment)
    returns (lines': seq<string>)
    requires a < |ts|
    requires lines == prefix + ForeignKeySection(ts, a, env)
    ensures lines' == lines + KeyBlock(ts[a], a, |ts[a].foreignKeys|, env)
    ensures lines' == prefix + ForeignKeySection(ts, a + 1, env)
  {
    var t := ts[a];
    lines' := lines;
    assert lines + [] == lines;
    for k := 0 to |t.foreignKeys|
      invariant lines' == lines + KeyBlock(t, a, k, env)
    {
      lines' := AppendForeignKey(lines', lines, t, a, k, env);
    }
    ForeignKeySectionStep(prefix, lines, lines', ts, a, env);
  }

  /** Every foreign key of every table, table by table. */
  method AppendForeignKeys(lines: seq<string>, p: Project, env: Environment) returns (lines': seq<string>)
    ensures lines' == lines + ForeignKeySection(p.tables, |p.tables|, env)
  {
    lines' := lines;
    assert lines + [] == lines;
    for a := 0 to |p.tables|
      invariant lines' == lines + ForeignKeySection(p.tables, a, env)
    {
      lines' := AppendTableForeignKeys(lines', lines, p.tables, a, env);
    }
  }

  /** The CREATE INDEX block of the `k`-th index of `t`. */
  method AppendIndex(lines: seq<string>, ghost prefix: seq<string>, t: Table, k: nat, env: Environment)
    returns (lines': seq<string>)
    requires k < |t.indexes|
    requires lines == prefix + IndexBlock(t, k, env)
    ensures lines' == lines + IndexLines(t, t.indexes[k])
    ensures lines' == prefix + IndexBlock(t, k + 1, env)
  {
    lines' := lines + [CreateIndexLine(t, t.indexes[k]), "GO", ""];
    IndexBlockStep(prefix, lines, lines', t, k, env);
  }

  /** The indexes of the `a`-th table, in order. */
  method AppendTableIndexes(lines: seq<string>, ghost prefix: seq<string>, ts: seq<Table>, a: nat, env: Environment)
    returns (lines': seq<string>)
    requires a < |ts|
    requires lines == prefix + IndexSection(ts, a, env)
    ensures lines' == lines + IndexBlock(ts[a], |ts[a].indexes|, env)
    ensures lines' == prefix + IndexSection(ts, a + 1, env)
  {
    var t := ts[a];
    lines' := lines;
    assert lines + [] == lines;
    for k := 0 to |t.indexes|
      invariant lines' == lines + IndexBlock(t, k, env)
    {
      lines' := AppendIndex(lines', lines, t, k, env);
    }
    IndexSectionStep(prefix, lines, lines', ts, a, env);
  }

  /** Every index of every table, table by table. */
  method AppendIndexes(lines: seq<string>, p: Project, env: Environment) returns (lines': seq<string>)
    ensures lines' == lines + IndexSection(p.tables, |p.tables|, env)
  {
    lines' := lines;
    assert lines + [] == lines;
    for a := 0 to |p.tables|
      invariant lines' == lines + IndexSection(p.tables, a, env)
    {
      lines' := AppendTableIndexes(lines', lines, p.tables, a, env);
    }
  }

  /** The whole script: the header, then the rendering of every statement of
      the plan, each entry followed by the line terminator. */
  method BuildProjectScript(project: Project, env: Environment) returns (script: string)
    ensures script == ScriptText(ScriptLines(project, env), env.newLine)
  {
    var lines := [ "-- SQL generated for project: " + project.name,
                   "-- Generated at: " + env.generatedAt,
                   "SET ANSI_NULLS ON;",
                   "SET QUOTED_IDENTIFIER ON;",
                   "" ];
    ghost var h := lines;
    lines := AppendSchemaGuards(lines, project, env);
    ghost var afterGuards := lines;
    lines := AppendTables(lines, project, env);
    ghost var afterTables := lines;
    lines := AppendForeignKeys(lines, project, env);
    ghost var afterKeys := lines;
    lines := AppendIndexes(lines, project, env);
    PlanRendersSections(h, afterGuards, afterTables, afterKeys, lines, project, env);
    script := ScriptText(lines, env.newLine);
  }
}
