# SQLDesigner script builder, modelled in Dafny

SQLDesigner is a web application for designing SQL Server schemas. A user edits
a project of tables, columns, keys, indexes and constraints. The API stores the
project and, on request, turns it into a T-SQL script that the user downloads
as `<project name>.sql`. This project models the core of that path and proves
what it promises:

- **The script builder** (`SqlServerScriptBuilder.BuildProjectScript`). It writes:
  - a header;
  - one `CREATE SCHEMA` guard per non-`dbo` schema, with schemas deduplicated
    ignoring case;
  - per table, a drop-and-create block with column lines in `Id` order, the
    primary key in key order, then CHECK and multi-column UNIQUE constraints;
  - then every foreign key;
  - then every index.

  Unnamed constraints get generated names. Column types are normalised
  (`BuildColumnType`). Literal defaults are quoted (`WrapLiteral`).
- **The DTO mapping** (`DtoMap.ToEntity` / `ToDto`) between the API's
  transfer objects and the stored entities, and the entities' defaults.
- **The download name** (`ProjectsController.SanitizeFileName`).
- **The type mapper of the template generator** (`SqlGenerator.MapType`).

The builder is proved against a specification of the script. A plan is a
sequence of statements: schema guards, then CREATE TABLE, then ALTER TABLE …
FOREIGN KEY, then CREATE INDEX, each section in project order. Each statement
renders to the lines the builder appends. `BuildProjectScript` is a method whose
loops append one block per item. Its postcondition says the text equals the
rendering of that plan, each line followed by the platform line terminator.
Lemmas about the plan state the ordering, where each table, key and index sits,
and that the schema guards are complete and distinct.

The things the builder reads from its surroundings are one explicit
`Environment` input. It holds:
- the line terminator;
- the UTC timestamp;
- the GUID drawn for each foreign key;
- `string.GetHashCode`;
- `decimal.TryParse` under the current culture.

With this input, a script is a function of project and environment. A lemma
shows that two runs in one process, over a project whose foreign keys are all
named, differ only in the timestamp line.

Module layout:
- `entities.dfy` holds the domain records.
- `project_dtos.dfy` holds the transfer objects and the mapping.
- `column_types.dfy`, `literals.dfy`, `constraint_names.dfy` and
  `table_definition.dfy` model the per-column and per-table parts of the
  builder.
- `script_plan.dfy` holds the statement plan and its rendering.
- `script_builder.dfy` holds the imperative builder.
- `script_properties.dfy` and `script_determinism.dfy` hold properties of the
  whole script.
- `file_names.dfy` models the download name.
- `sql_generator.dfy` models the template type mapper.
- `text.dfy`, `stable_sort.dfy`, `oracles.dfy` and `wrappers.dfy` hold the
  .NET string and LINQ operations the code relies on, stated once.

One discrepancy is recorded. For a fixed-length type above its cap, the code
writes `char(9000)`, which SQL Server refuses. The evidently intended result is
width 1, as for a `max` length. The model follows the code. See "## Findings".

## Model

| member | source | states |
|---|---|---|
| ScriptBuilder.BuildProjectScript | SQLDesigner/SqlGen.Api/Services/SqlServerScriptBuilder.cs:12-151 | The returned text is the header plus the rendering of the plan: guards, then tables, then foreign keys, then indexes. Every entry is followed by the line terminator. |
| ScriptBuilder.AppendSchemaGuards | SQLDesigner/SqlGen.Api/Services/SqlServerScriptBuilder.cs:22-31 | The loop over the deduplicated schemas appends exactly the guard section of the plan. |
| ScriptBuilder.AppendSchemaGuard | SQLDesigner/SqlGen.Api/Services/SqlServerScriptBuilder.cs:25-30 | A `dbo` schema (any case) appends nothing. Any other schema appends its two-entry guard, and the lines then hold the guard section one schema longer. |
| ScriptBuilder.AppendTables | SQLDesigner/SqlGen.Api/Services/SqlServerScriptBuilder.cs:34-107 | The table loop appends one CREATE TABLE block per table, in project order. |
| ScriptBuilder.AppendTable | SQLDesigner/SqlGen.Api/Services/SqlServerScriptBuilder.cs:36-106 | Appends a table's drop-and-create block: the item lines joined by `,\n`, then `);` and `GO`. |
| ScriptBuilder.AppendForeignKeys | SQLDesigner/SqlGen.Api/Services/SqlServerScriptBuilder.cs:110-128 | The nested loop appends every foreign key block, table by table and key by key. |
| ScriptBuilder.AppendTableForeignKeys | SQLDesigner/SqlGen.Api/Services/SqlServerScriptBuilder.cs:112-127 | Appends the blocks of one table's keys in order. |
| ScriptBuilder.AppendForeignKey | SQLDesigner/SqlGen.Api/Services/SqlServerScriptBuilder.cs:114-126 | Appends the ALTER TABLE … ADD CONSTRAINT block of one key, named by the GUID drawn for it when it has no name. |
| ScriptBuilder.AppendIndexes | SQLDesigner/SqlGen.Api/Services/SqlServerScriptBuilder.cs:131-148 | The nested loop appends every CREATE INDEX block, table by table. |
| ScriptBuilder.AppendTableIndexes | SQLDesigner/SqlGen.Api/Services/SqlServerScriptBuilder.cs:133-147 | Appends the blocks of one table's indexes in order. |
| ScriptBuilder.AppendIndex | SQLDesigner/SqlGen.Api/Services/SqlServerScriptBuilder.cs:135-146 | Appends one CREATE [UNIQUE] INDEX line, then `GO` and an empty line. |
| ScriptPlan.PlanRendersSections | SQLDesigner/SqlGen.Api/Services/SqlServerScriptBuilder.cs:14-148 | The header followed by the four sections, appended one after another, is exactly the header followed by the rendering of the whole plan. |
| ScriptPlan.Plan | SQLDesigner/SqlGen.Api/Services/SqlServerScriptBuilder.cs:21-148 | The statements of the script in the order the builder emits them: a guard per deduplicated schema, a CREATE TABLE per table, an ALTER TABLE per key, a CREATE INDEX per index. Its shape is stated by ScriptProperties.PlanSections, PlanOrdered, PlanLength and the Plan…At lemmas; BuildProjectScript is proved against it. |
| ScriptPlan.Render | SQLDesigner/SqlGen.Api/Services/SqlServerScriptBuilder.cs:25-146 | The lines one statement appends. RenderEnding states how every block ends; ScriptProperties and ScriptDeterminism state what rendering the whole plan depends on. |
| ScriptPlan.ScriptLines | SQLDesigner/SqlGen.Api/Services/SqlServerScriptBuilder.cs:12-151 | The header followed by the rendering of the plan: the entries of the script. BuildProjectScript returns their text; ScriptDeterminism.ScriptIgnoresGuidAndClock states they depend on the clock only through the timestamp entry. |
| ScriptPlan.SchemaSectionStep | SQLDesigner/SqlGen.Api/Services/SqlServerScriptBuilder.cs:23-31 | Loop-invariant step of AppendSchemaGuard (proof glue for BuildProjectScript): one more schema extends the guard section by its guard, or by nothing for `dbo`. |
| ScriptPlan.TableSectionStep | SQLDesigner/SqlGen.Api/Services/SqlServerScriptBuilder.cs:34-107 | Loop-invariant step of AppendTable (proof glue for BuildProjectScript): one more table extends the table section by its block. |
| ScriptPlan.KeyBlockStep | SQLDesigner/SqlGen.Api/Services/SqlServerScriptBuilder.cs:112-127 | Loop-invariant step of AppendForeignKey (proof glue for BuildProjectScript): one more key extends a table's key block by that key's lines. |
| ScriptPlan.ForeignKeySectionStep | SQLDesigner/SqlGen.Api/Services/SqlServerScriptBuilder.cs:110-128 | Loop-invariant step of AppendTableForeignKeys (proof glue for BuildProjectScript): one more table extends the foreign key section by its key block. |
| ScriptPlan.IndexBlockStep | SQLDesigner/SqlGen.Api/Services/SqlServerScriptBuilder.cs:133-147 | Loop-invariant step of AppendIndex (proof glue for BuildProjectScript): one more index extends a table's index block by its lines. |
| ScriptPlan.IndexSectionStep | SQLDesigner/SqlGen.Api/Services/SqlServerScriptBuilder.cs:131-148 | Loop-invariant step of AppendTableIndexes (proof glue for BuildProjectScript): one more table extends the index section by its index block. |
| ScriptPlan.TableSchemas | SQLDesigner/SqlGen.Api/Services/SqlServerScriptBuilder.cs:22 | The schema of every table, in table order. |
| ScriptPlan.DistinctFromInput | SQLDesigner/SqlGen.Api/Services/SqlServerScriptBuilder.cs:22 | Every schema kept by the case-insensitive `Distinct` is one of the input schemas. |
| ScriptPlan.DistinctCovers | SQLDesigner/SqlGen.Api/Services/SqlServerScriptBuilder.cs:22 | Every input schema is kept up to case. |
| ScriptPlan.DistinctUnique | SQLDesigner/SqlGen.Api/Services/SqlServerScriptBuilder.cs:22 | No two kept schemas are equal ignoring case. |
| ScriptPlan.SchemaStatementsSpec | SQLDesigner/SqlGen.Api/Services/SqlServerScriptBuilder.cs:23-31 | Every guard is for a listed non-`dbo` schema, and every listed non-`dbo` schema gets a guard. |
| ScriptPlan.OnDeleteClause | SQLDesigner/SqlGen.Api/Services/SqlServerScriptBuilder.cs:121 | The ON DELETE clause is present exactly when the action is not null or blank. |
| ScriptPlan.ForeignKeyColumnNames | SQLDesigner/SqlGen.Api/Services/SqlServerScriptBuilder.cs:118 | The referencing column names, one per key column, in key order. |
| ScriptPlan.ForeignKeyRefColumnNames | SQLDesigner/SqlGen.Api/Services/SqlServerScriptBuilder.cs:119 | The referenced column names, one per key column, in the same order. |
| ScriptPlan.IncludeClause | SQLDesigner/SqlGen.Api/Services/SqlServerScriptBuilder.cs:140-142 | The INCLUDE clause is present exactly when the include list is not null or blank. |
| ScriptPlan.RenderEnding | SQLDesigner/SqlGen.Api/Services/SqlServerScriptBuilder.cs:29-146 | Every block ends with an empty line. The entry before it is `GO` exactly when the block is not a schema guard. |
| ScriptPlan.RenderAllAppend | SQLDesigner/SqlGen.Api/Services/SqlServerScriptBuilder.cs:14-150 | Rendering two statement sequences one after the other renders their concatenation. |
| ScriptPlan.ScriptTextAppend | SQLDesigner/SqlGen.Api/Services/SqlServerScriptBuilder.cs:150 | The text of appended lines is the concatenation of their texts. |
| ScriptPlan.ScriptTextLine | SQLDesigner/SqlGen.Api/Services/SqlServerScriptBuilder.cs:15 | `AppendLine` writes the line followed by the terminator. |
| ScriptProperties.PlanSections | SQLDesigner/SqlGen.Api/Services/SqlServerScriptBuilder.cs:21-148 | The plan is guards, then tables, then keys, then indexes. Each part holds only statements of its own kind. |
| ScriptProperties.PlanOrdered | SQLDesigner/SqlGen.Api/Services/SqlServerScriptBuilder.cs:21-148 | No statement comes after a statement of a later section. Every table is created before any foreign key, and every key before any index. |
| ScriptProperties.PlanLength | SQLDesigner/SqlGen.Api/Services/SqlServerScriptBuilder.cs:21-148 | The plan has one statement per guard, table, foreign key and index. |
| ScriptProperties.PlanTableAt | SQLDesigner/SqlGen.Api/Services/SqlServerScriptBuilder.cs:34 | Table `i` is created at position guards + `i`. |
| ScriptProperties.PlanForeignKeyAt | SQLDesigner/SqlGen.Api/Services/SqlServerScriptBuilder.cs:110-112 | Key `k` of table `a` is added at its exact position, with the GUID drawn for it. |
| ScriptProperties.PlanIndexAt | SQLDesigner/SqlGen.Api/Services/SqlServerScriptBuilder.cs:131-133 | Index `k` of table `a` is created at its exact position. |
| ScriptProperties.PlanGuardAt | SQLDesigner/SqlGen.Api/Services/SqlServerScriptBuilder.cs:22-31 | The guards open the plan, in order. |
| ScriptProperties.GuardFromTable | SQLDesigner/SqlGen.Api/Services/SqlServerScriptBuilder.cs:22-28 | Every guard is for a non-`dbo` schema that some table uses. |
| ScriptProperties.TableSchemaGuarded | SQLDesigner/SqlGen.Api/Services/SqlServerScriptBuilder.cs:22-28 | Every table outside `dbo` has a guard for its schema, up to case. |
| ScriptProperties.GuardsDistinct | SQLDesigner/SqlGen.Api/Services/SqlServerScriptBuilder.cs:22-28 | No schema is guarded twice, ignoring case. |
| ScriptProperties.SchemaStatementsUnique | SQLDesigner/SqlGen.Api/Services/SqlServerScriptBuilder.cs:23-31 | Schemas without duplicates up to case give guards without duplicates up to case. |
| ScriptProperties.ForeignKeyStatementsAt | SQLDesigner/SqlGen.Api/Services/SqlServerScriptBuilder.cs:110-112 | Key `k` of table `a` sits after the keys of the earlier tables. |
| ScriptProperties.IndexStatementsAt | SQLDesigner/SqlGen.Api/Services/SqlServerScriptBuilder.cs:131-133 | Index `k` of table `a` sits after the indexes of the earlier tables. |
| ScriptDeterminism.ScriptIgnoresGuidAndClock | SQLDesigner/SqlGen.Api/Services/SqlServerScriptBuilder.cs:12-151 | Two runs in one process, over a project whose keys are all named, give entries that differ at most in the second one, the timestamp line. |
| ScriptDeterminism.ScriptTextIgnoresGuidAndClock | SQLDesigner/SqlGen.Api/Services/SqlServerScriptBuilder.cs:12-151 | In text, both such scripts are a common first line, each run's timestamp line, then a common remainder. |
| ScriptDeterminism.BodyIgnoresGuid | SQLDesigner/SqlGen.Api/Services/SqlServerScriptBuilder.cs:21-148 | Everything after the header is the same in both runs. |
| ScriptDeterminism.KeyBlockIgnoresGuid | SQLDesigner/SqlGen.Api/Services/SqlServerScriptBuilder.cs:112-127 | The blocks of named keys do not depend on the GUIDs drawn. |
| ScriptDeterminism.ForeignKeyNameIgnoresGuid | SQLDesigner/SqlGen.Api/Services/SqlServerScriptBuilder.cs:114-116 | A named key is called by its own name, whatever GUID is drawn. |
| ScriptDeterminism.RenderAllSameCulture | SQLDesigner/SqlGen.Api/Services/SqlServerScriptBuilder.cs:56-101 | Statements render alike under any two environments that hash and parse decimals alike. |
| TableDefinition.BuildTableItems | SQLDesigner/SqlGen.Api/Services/SqlServerScriptBuilder.cs:45-101 | The item list is the column lines of the columns sorted by `Id`, then the primary key line, then the CHECK lines, then the UNIQUE lines. |
| TableDefinition.BuildColumnLine | SQLDesigner/SqlGen.Api/Services/SqlServerScriptBuilder.cs:48-69 | One column line: name and type, optional IDENTITY, nullability, optional DEFAULT, optional inline UNIQUE. |
| TableDefinition.BuildColumnLines | SQLDesigner/SqlGen.Api/Services/SqlServerScriptBuilder.cs:45-70 | One line per column, in the given order. |
| TableDefinition.AppendCheckLines | SQLDesigner/SqlGen.Api/Services/SqlServerScriptBuilder.cs:87-91 | Appends one CHECK line per constraint, in order. |
| TableDefinition.AppendUniqueLines | SQLDesigner/SqlGen.Api/Services/SqlServerScriptBuilder.cs:94-101 | Appends one UNIQUE line per constraint, with the trimmed, non-empty CSV entries bracketed. |
| TableDefinition.ColumnLinesAt | SQLDesigner/SqlGen.Api/Services/SqlServerScriptBuilder.cs:46-69 | Line `i` is the line of column `i`. |
| TableDefinition.ColumnLine | SQLDesigner/SqlGen.Api/Services/SqlServerScriptBuilder.cs:48-69 | One column line: `[name] type`, IDENTITY, nullability, DEFAULT and inline UNIQUE clauses. BuildColumnLine computes it; TableProperties.ColumnLineClauses, IdentityClauseSpec and DefaultExpressionReadsBack state when each clause appears and what it holds. |
| TableDefinition.TableItems | SQLDesigner/SqlGen.Api/Services/SqlServerScriptBuilder.cs:45-101 | The items inside `CREATE TABLE ( … )`: column lines in `Id` order, then the key, CHECK and UNIQUE lines. BuildTableItems computes it; TableProperties.ColumnsInIdOrder, KeyColumnsSpec, TableItemsLength and TableConstraintAt state its order and contents. |
| TableProperties.IdentityClauseSpec | SQLDesigner/SqlGen.Api/Services/SqlServerScriptBuilder.cs:51-52 | The IDENTITY clause is present exactly for identity columns. Two clauses are equal exactly when seed and increment are. |
| TableProperties.ColumnLineClauses | SQLDesigner/SqlGen.Api/Services/SqlServerScriptBuilder.cs:49-67 | ` NULL`/` NOT NULL` follows nullability. DEFAULT is present exactly when the default text is not blank and the kind is not None. Inline UNIQUE is present exactly for unique non-key columns. The last clause ties these clause facts to the line, which is the clauses in source order. |
| TableProperties.DefaultExpressionReadsBack | SQLDesigner/SqlGen.Api/Services/SqlServerScriptBuilder.cs:56-61 | A raw default is emitted as written. A literal default is emitted as written exactly when it passes through; otherwise it is a string literal that reads back as the value. |
| TableProperties.ColumnsInIdOrder | SQLDesigner/SqlGen.Api/Services/SqlServerScriptBuilder.cs:46 | The columns are written sorted by `Id`, as a permutation. The sort is stable for equal ids. The column lines come first. |
| TableProperties.KeyColumnsSpec | SQLDesigner/SqlGen.Api/Services/SqlServerScriptBuilder.cs:73-76 | The key columns are exactly the primary-key columns, each as often as it occurs in the table and no other column, sorted by key order (an absent order counts as `int.MaxValue`), and stable. |
| TableProperties.PrimaryKeyPresence | SQLDesigner/SqlGen.Api/Services/SqlServerScriptBuilder.cs:78-84 | A primary key line is written exactly when some column is a key column. |
| TableProperties.ConstraintLinesLength | SQLDesigner/SqlGen.Api/Services/SqlServerScriptBuilder.cs:73-101 | One line for the key (if any), then one per CHECK and one per UNIQUE constraint. |
| TableProperties.ConstraintCheckAt | SQLDesigner/SqlGen.Api/Services/SqlServerScriptBuilder.cs:87-91 | CHECK `j` follows the key line. |
| TableProperties.ConstraintUniqueAt | SQLDesigner/SqlGen.Api/Services/SqlServerScriptBuilder.cs:94-101 | UNIQUE `j` follows all CHECK lines. |
| TableProperties.CheckLinesAt | SQLDesigner/SqlGen.Api/Services/SqlServerScriptBuilder.cs:87-91 | Line `i` is the line of CHECK constraint `i`. |
| TableProperties.UniqueLinesAt | SQLDesigner/SqlGen.Api/Services/SqlServerScriptBuilder.cs:94-101 | Line `i` is the line of UNIQUE constraint `i`. |
| TableProperties.TableItemsLength | SQLDesigner/SqlGen.Api/Services/SqlServerScriptBuilder.cs:45-103 | One item per column plus one per constraint line. |
| TableProperties.TableConstraintAt | SQLDesigner/SqlGen.Api/Services/SqlServerScriptBuilder.cs:73-103 | The constraint lines follow the column lines. |
| ColumnTypes.DecimalParameters | SQLDesigner/SqlGen.Api/Services/SqlServerScriptBuilder.cs:195-200 | The result is always valid for SQL Server: 1 ≤ precision ≤ 38 and 0 ≤ scale ≤ precision. Precision is kept when in 1..38, else 18. Scale is kept when in 0..precision, else min(precision, 2). |
| ColumnTypes.VarLengthType | SQLDesigner/SqlGen.Api/Services/SqlServerScriptBuilder.cs:161-192 | For `varchar`, `nvarchar` and `varbinary`, the result is `(max)` exactly when the length is absent, not positive or above the cap (8000, or 4000 for `nvarchar`). Otherwise it is the length, within 1..cap. |
| ColumnTypes.FixedLengthType | SQLDesigner/SqlGen.Api/Services/SqlServerScriptBuilder.cs:161-192 | For `char` and `nchar`: an absent length gives 50, a non-positive one gives 1, and a positive one is kept with no cap. |
| ColumnTypes.FixedLengthNeverMax | SQLDesigner/SqlGen.Api/Services/SqlServerScriptBuilder.cs:188-189 | A fixed-length clause never contains `max`. |
| ColumnTypes.ScalarAndCustomTypes | SQLDesigner/SqlGen.Api/Services/SqlServerScriptBuilder.cs:203-209 | An allow-listed scalar comes out trimmed and lower-cased. Any other unsized token comes out exactly as written. |
| ColumnTypes.FixedLengthOverCap | SQLDesigner/SqlGen.Api/Services/SqlServerScriptBuilder.cs:182-191 | As written, a `char` of length 9000 is declared `char(9000)`, above the 8000 cap. |
| ColumnTypes.ClampedFixedLengthValid | SQLDesigner/SqlGen.Api/Services/SqlServerScriptBuilder.cs:182-191 | The clamped variant always declares a width in 1..cap. It differs from the code exactly for lengths above the cap, where it gives width 1. |
| ColumnTypes.ClampedFixedWidth | SQLDesigner/SqlGen.Api/Services/SqlServerScriptBuilder.cs:182-191 | The clamped width lies in 1..cap, and keeps every length already in range. |
| ColumnTypes.BuildColumnType | SQLDesigner/SqlGen.Api/Services/SqlServerScriptBuilder.cs:153-210 | The type clause of a column. VarLengthType, FixedLengthType, FixedLengthNeverMax, DecimalParameters and ScalarAndCustomTypes state its result for each kind of type token. |
| Literals.WrapLiteralReadsBack | SQLDesigner/SqlGen.Api/Services/SqlServerScriptBuilder.cs:212-222 | A decimal, a parenthesised value, `GETDATE()` or `NEWID()` is kept exactly as written. Any other value is quoted with its quotes doubled, and SQL Server reads it back as the value. |
| Literals.QuotedReadsBack | SQLDesigner/SqlGen.Api/Services/SqlServerScriptBuilder.cs:220-221 | A quoted, escaped value is framed by quotes and reads back as the value. |
| Literals.EscapeQuotes | SQLDesigner/SqlGen.Api/Services/SqlServerScriptBuilder.cs:220 | Doubling quotes never shortens the text. It changes the text exactly when it holds a quote. Collapsing the doubled quotes restores the value. |
| Literals.WrapLiteral | SQLDesigner/SqlGen.Api/Services/SqlServerScriptBuilder.cs:212-222 | A literal default as SQL text. WrapLiteralReadsBack states which values pass through and that every other one reads back as itself. |
| ConstraintNames.AbsHash | SQLDesigner/SqlGen.Api/Services/SqlServerScriptBuilder.cs:89-96 | `Math.Abs` of a hash is the hash or its negation and fits in an `int`. |
| ConstraintNames.PrimaryKeyNameShape | SQLDesigner/SqlGen.Api/Services/SqlServerScriptBuilder.cs:80-82 | The key is named by its own non-blank name, else `PK_` followed by the table name (the table name reads back from position 3); never blank. |
| ConstraintNames.ColumnConstraintNamesShape | SQLDesigner/SqlGen.Api/Services/SqlServerScriptBuilder.cs:61-66 | Default and inline unique names start with `DF_` and `UQ_`. |
| ConstraintNames.HashedNameShape | SQLDesigner/SqlGen.Api/Services/SqlServerScriptBuilder.cs:89-96 | A hashed name is `<prefix><table>_` then decimal digits that read back as the absolute hash. |
| ConstraintNames.TableConstraintNamesShape | SQLDesigner/SqlGen.Api/Services/SqlServerScriptBuilder.cs:89-96 | A non-blank user name is kept. An unnamed CHECK is `CK_<table>_` then digits that read back as the absolute hash of its expression; an unnamed UNIQUE is `UQ_<table>_` then the absolute hash of its column list. Neither name is blank. |
| ConstraintNames.IndexNameShape | SQLDesigner/SqlGen.Api/Services/SqlServerScriptBuilder.cs:135-136 | A non-blank user name is kept. An unnamed index is `IX_<table>_` followed by exactly its column names joined by `_`. Never blank. |
| ConstraintNames.IndexColumnNamesAt | SQLDesigner/SqlGen.Api/Services/SqlServerScriptBuilder.cs:135 | The generated index name lists the columns in index order. |
| ConstraintNames.ForeignKeyNameShape | SQLDesigner/SqlGen.Api/Services/SqlServerScriptBuilder.cs:114-116 | An unnamed key gets the first 20 characters of `FK_<table>_<ref table>_<guid>`; it is never blank. |
| ConstraintNames.ForeignKeyNameSource | SQLDesigner/SqlGen.Api/Services/SqlServerScriptBuilder.cs:115 | The source text always has at least 20 characters, so `Substring(0, 20)` never fails. |
| ConstraintNames.PrimaryKeyName | SQLDesigner/SqlGen.Api/Services/SqlServerScriptBuilder.cs:80-82 | The primary key name; PrimaryKeyNameShape states it. |
| ConstraintNames.CheckConstraintName | SQLDesigner/SqlGen.Api/Services/SqlServerScriptBuilder.cs:89 | The CHECK constraint name; TableConstraintNamesShape and HashedNameShape state it. |
| ConstraintNames.UniqueConstraintName | SQLDesigner/SqlGen.Api/Services/SqlServerScriptBuilder.cs:96 | The multi-column UNIQUE constraint name; TableConstraintNamesShape and HashedNameShape state it. |
| ConstraintNames.IndexName | SQLDesigner/SqlGen.Api/Services/SqlServerScriptBuilder.cs:135-136 | The index name; IndexNameShape and IndexColumnNamesAt state it. |
| ConstraintNames.ForeignKeyName | SQLDesigner/SqlGen.Api/Services/SqlServerScriptBuilder.cs:114-116 | The foreign key name; ForeignKeyNameShape and ScriptDeterminism.ForeignKeyNameIgnoresGuid state it. |
| StableSort.SortByPermutation | SQLDesigner/SqlGen.Api/Services/SqlServerScriptBuilder.cs:46-76 | `OrderBy` returns a permutation of its input. |
| StableSort.SortBySorted | SQLDesigner/SqlGen.Api/Services/SqlServerScriptBuilder.cs:46-76 | `OrderBy` returns its input sorted by the key. |
| StableSort.SortByStable | SQLDesigner/SqlGen.Api/Services/SqlServerScriptBuilder.cs:46-76 | `OrderBy` is stable: elements with equal keys keep their input order. |
| StableSort.WhereSpec | SQLDesigner/SqlGen.Api/Services/SqlServerScriptBuilder.cs:73 | `Where` keeps exactly the elements that satisfy the filter: each kept value as often as it occurs in the input, and in input order (appending an element appends it to the result exactly when it is kept). |
| ProjectDtos.ProjectToEntity | SQLDesigner/SqlGen.Api/DTOs/ProjectDtos.cs:100-106 | Copies name and description, maps every table in order and leaves ids at 0. |
| ProjectDtos.TableToEntity | SQLDesigner/SqlGen.Api/DTOs/ProjectDtos.cs:108-119 | Copies schema, name and key name, maps every child list in order and leaves ids at 0. |
| ProjectDtos.ColumnToEntity | SQLDesigner/SqlGen.Api/DTOs/ProjectDtos.cs:121-138 | Copies every field, leaves ids at 0, and maps back to the same DTO. |
| ProjectDtos.ForeignKeyToEntity | SQLDesigner/SqlGen.Api/DTOs/ProjectDtos.cs:140-152 | Copies the key and its column pairs in order, and maps back to the same DTO. |
| ProjectDtos.IndexToEntity | SQLDesigner/SqlGen.Api/DTOs/ProjectDtos.cs:154-165 | Copies the index and its columns in order, and maps back to the same DTO. |
| ProjectDtos.ForeignKeyToDto | SQLDesigner/SqlGen.Api/DTOs/ProjectDtos.cs:222-234 | Copies the column pairs in order. |
| ProjectDtos.IndexToDto | SQLDesigner/SqlGen.Api/DTOs/ProjectDtos.cs:236-247 | Copies the index columns in order. |
| ProjectDtos.ColumnToDto | SQLDesigner/SqlGen.Api/DTOs/ProjectDtos.cs:203-220 | Copies every column field. ColumnToEntity and ColumnEntityRoundTrip state that it inverts `ToEntity` both ways. |
| ProjectDtos.TableToDto | SQLDesigner/SqlGen.Api/DTOs/ProjectDtos.cs:190-201 | Copies schema, name and key name and maps every child list in order. TableToEntity and TableEntityRoundTrip state that it inverts `ToEntity` both ways. |
| ProjectDtos.ProjectToDto | SQLDesigner/SqlGen.Api/DTOs/ProjectDtos.cs:182-188 | Copies name and description and maps every table in order. DtoRoundTrip and EntityRoundTrip state that it inverts `ToEntity` both ways. |
| ProjectDtos.DtoRoundTrip | SQLDesigner/SqlGen.Api/DTOs/ProjectDtos.cs:100-253 | `ToDto(ToEntity(d)) == d` for every DTO. |
| ProjectDtos.EntityRoundTrip | SQLDesigner/SqlGen.Api/DTOs/ProjectDtos.cs:100-253 | `ToEntity(ToDto(e)) == e` exactly when every id in `e` is unset. |
| ProjectDtos.TableEntityRoundTrip | SQLDesigner/SqlGen.Api/DTOs/ProjectDtos.cs:108-201 | A table with unset ids survives the round trip. |
| ProjectDtos.ColumnEntityRoundTrip | SQLDesigner/SqlGen.Api/DTOs/ProjectDtos.cs:121-220 | A column with unset ids survives the round trip. |
| ProjectDtos.ForeignKeyEntityRoundTrip | SQLDesigner/SqlGen.Api/DTOs/ProjectDtos.cs:140-234 | A foreign key with unset ids survives the round trip. |
| ProjectDtos.IndexEntityRoundTrip | SQLDesigner/SqlGen.Api/DTOs/ProjectDtos.cs:154-247 | An index with unset ids survives the round trip. |
| ProjectDtos.DefaultsAgree | SQLDesigner/SqlGen.Api/DTOs/ProjectDtos.cs:17-96 | A freshly constructed DTO of every kind maps to the freshly constructed entity of that kind. |
| Entities.NewProject | SQLDesigner/SqlGen.Api/Domain/Entities.cs:3-9 | A new project has no description and no tables. |
| Entities.NewTable | SQLDesigner/SqlGen.Api/Domain/Entities.cs:11-28 | A new table is in schema `dbo`, has no key name and has no children. |
| Entities.NewColumn | SQLDesigner/SqlGen.Api/Domain/Entities.cs:39-65 | A new column has identity seed and increment 1, default kind None, no sizes, and every flag false. |
| Entities.NewForeignKey | SQLDesigner/SqlGen.Api/Domain/Entities.cs:67-79 | A new key references schema `dbo`, has no name, no action and no columns. |
| Entities.NewIndex | SQLDesigner/SqlGen.Api/Domain/Entities.cs:91-101 | A new index is unnamed, not unique, has no columns and has no include list. |
| Entities.NewIndexColumn | SQLDesigner/SqlGen.Api/Domain/Entities.cs:103-111 | A new index column sorts ascending. |
| Entities.NewCheckConstraint | SQLDesigner/SqlGen.Api/Domain/Entities.cs:113-121 | A new CHECK constraint is unnamed. |
| Entities.NewUniqueConstraint | SQLDesigner/SqlGen.Api/Domain/Entities.cs:123-131 | A new UNIQUE constraint is unnamed. |
| FileNames.SanitizeFileName | SQLDesigner/SqlGen.Api/Controllers/ProjectsController.cs:154-159 | The replace loop, one invalid character at a time, followed by `Trim`, returns the scrubbed and trimmed name. |
| FileNames.ScrubPointwise | SQLDesigner/SqlGen.Api/Controllers/ProjectsController.cs:156-157 | Each invalid character becomes `_`; every other character and the length are kept. |
| FileNames.SanitizedShape | SQLDesigner/SqlGen.Api/Controllers/ProjectsController.cs:154-159 | The result is trimmed and no longer than the name. Each of its characters is `_` or a valid character of the name. |
| FileNames.SanitizedIsValid | SQLDesigner/SqlGen.Api/Controllers/ProjectsController.cs:154-159 | When `_` is itself valid, the result contains no invalid character. |
| FileNames.SanitizeIdempotent | SQLDesigner/SqlGen.Api/Controllers/ProjectsController.cs:154-159 | Sanitising twice gives the same name as sanitising once. |
| FileNames.SanitizedName | SQLDesigner/SqlGen.Api/Controllers/ProjectsController.cs:154-159 | The returned file name: the scrubbed name, trimmed. SanitizeFileName is proved to compute it; ScrubPointwise, SanitizedShape, SanitizedIsValid and SanitizeIdempotent state its properties. |
| SqlGenerator.NewFieldDto | SqlDesigner.Api/Model/MetaModel.cs:15-28 | A new field has type `string`, an empty name, no sizes or default, and every flag false. |
| SqlGenerator.StringFieldType | SqlDesigner.Api/Services/SqlGenerator.cs:24 | A string field maps to `NVARCHAR(MAX)` exactly when it has no length. Two lengths give the same type exactly when they are equal. |
| SqlGenerator.NumberFieldType | SqlDesigner.Api/Services/SqlGenerator.cs:26 | A number maps to `DECIMAL(p,s)` when both are present, else `DECIMAL(18,2)`. |
| SqlGenerator.FixedFieldTypes | SqlDesigner.Api/Services/SqlGenerator.cs:25-29 | `int`, `bool`, `date` and `datetime` map to `INT`, `BIT`, `DATE` and `DATETIME2`, and only they do. |
| SqlGenerator.UnknownTokenFieldType | SqlDesigner.Api/Services/SqlGenerator.cs:30 | An unknown token maps to `NVARCHAR(MAX)`, like a string without a length. |
| SqlGenerator.MapType | SqlDesigner.Api/Services/SqlGenerator.cs:22-31 | The column type of a template field. StringFieldType, NumberFieldType, FixedFieldTypes and UnknownTokenFieldType state it token by token. |

## Findings

| source | as written | input that shows it | evidently intended | confidence | as-written member | corrected member |
|---|---|---|---|---|---|---|
| SQLDesigner/SqlGen.Api/Services/SqlServerScriptBuilder.cs:182-191 | A positive length of a `char`/`nchar` column is printed with no upper cap. | A `char` column of length 9000 is declared `char(9000)`, which SQL Server refuses (`char` allows at most 8000). | Fixed-length types above their cap fall back to width 1, as a `max` length does. | medium; not executed | ColumnTypes.FixedLengthOverCap | ColumnTypes.ClampedFixedLengthValid |

`BuildColumnType` and the script keep the code's behaviour, so the model
describes the script that is actually produced. `ClampedFixedLengthType` is the
clamped definition. `ClampedFixedLengthValid` relates it to the code.

## Left out

- Text.EqualsIgnoreCase: `StringComparison.OrdinalIgnoreCase` and
  `ToLowerInvariant` fold only ASCII letters here. .NET also folds non-ASCII
  letters. This affects:
  - ScriptPlan.DistinctIgnoreCase: schemas "Ärzte" and "ärzte" get one guard
    from the code but two in the model.
  - ScriptPlan.IsDbo.
  - Literals.IsGeneratorCall: for example "newıd()" with a dotless i.
  - ColumnTypes.NormalizedType.
- ConstraintNames.ForeignKeyName: `Substring(0, 20)` counts UTF-16 code units,
  while the model counts Unicode scalar values. A table name outside the Basic
  Multilingual Plane changes how many GUID digits are kept, and .NET may cut a
  surrogate pair in half. A Dafny `char` cannot hold half a pair.
- Literals.IsParenthesised: `StartsWith("(")` and `EndsWith(")")` are
  culture-sensitive in .NET and may skip characters that the culture ignores.
  The model compares ordinally.
- Text.IntToString: integers interpolated into the script (identity seed and
  increment, lengths, precision, scale, hash values) are formatted under the
  current culture in .NET. The model always uses ASCII digits and `-`.
- Oracles.HashCode: `Math.Abs(int.MinValue)` throws in .NET. The model
  excludes that hash value, so an expression hashing to it is not modelled.
- Entities: C# strings may be null, Dafny strings may not. The model omits:
  - a null `Expression` or `ColumnsCsv`, which throws during generation;
  - a null `DataType`, which the type resolver treats as empty text;
  - a null `Name`, `Schema` or `RefTable`.

  Optional strings are `Option<string>`.
- Entities.SqlDefaultKind: an out-of-range enum value, which the code treats as
  a raw expression, cannot be represented. The datatype has the three declared
  cases.
- ScriptBuilder.BuildProjectScript: the `StringBuilder` is a `seq<string>` of
  appended entries, threaded through the builder methods by value rather than
  mutated in place, and its text is formed at the end. This does not capture
  aliasing of the builder.
- ScriptPlan.SchemaGuardLines: the line break inside the verbatim guard literal
  is LF, as in the source file. A checkout with CRLF line endings would embed
  CRLF.
- Oracles.Environment: the clock, `Guid.NewGuid`, `Environment.NewLine`,
  `string.GetHashCode` and `decimal.TryParse` are inputs, not modelled.
- FileNames.SanitizeFileName: `Path.GetInvalidFileNameChars()` is a parameter,
  because it differs by platform.
- Entities: `int` fields are 32-bit values. The builder does no arithmetic on
  them other than `Math.Abs` of a hash, so no wrap-around is modelled.
- Entities: navigation properties (`Table.Project`, `Column.Table` and so on)
  and the database context are persistence plumbing, not modelled.
- The validation attributes on the DTOs (`[Required]`, `[MaxLength]`) are
  enforced by ASP.NET model binding, not modelled.
- The other controller actions, `Program`, the EF Core context, the migrations
  and the web front end are outside the script-building core.
- SqlGenerator.Generate and its Scriban template are not modelled; only
  `MapType` is.
