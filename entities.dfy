/**
 * The schema model: a project, its tables and each table's columns, foreign
 * keys, indexes, check constraints and unique constraints. These are plain
 * records; the `New…` functions give the values a freshly constructed object
 * holds (the property initialisers), with the required text fields as
 * parameters. Ids are the database keys; the ORM back-references
 * (`Table.Project`, `Column.Table`, …) are not part of the model.
 */
module Entities {
  import opened Wrappers
  import opened Text

  datatype SqlDefaultKind = None | RawExpression | Literal

  datatype Project = Project(
    id: Int32,
    name: string,
    description: Option<string>,
    tables: seq<Table>)

  datatype Table = Table(
    id: Int32,
    projectId: Int32,
    schema: string,
    name: string,
    primaryKeyName: Option<string>,
    columns: seq<Column>,
    foreignKeys: seq<ForeignKey>,
    indexes: seq<Index>,
    checkConstraints: seq<CheckConstraint>,
    uniqueConstraints: seq<UniqueConstraint>)

  datatype Column = Column(
    id: Int32,
    tableId: Int32,
    name: string,
    dataType: string,
    length: Option<Int32>,
    precision: Option<Int32>,
    scale: Option<Int32>,
    isNullable: bool,
    isPrimaryKey: bool,
    primaryKeyOrder: Option<Int32>,
    isIdentity: bool,
    identitySeed: Int32,
    identityIncrement: Int32,
    defaultSql: Option<string>,
    defaultKind: SqlDefaultKind,
    isUnique: bool)

  datatype ForeignKey = ForeignKey(
    id: Int32,
    tableId: Int32,
    name: Option<string>,
    refSchema: string,
    refTable: string,
    onDeleteAction: Option<string>,
    columns: seq<ForeignKeyColumn>)

  datatype ForeignKeyColumn = ForeignKeyColumn(
    id: Int32,
    foreignKeyId: Int32,
    columnName: string,
    refColumnName: string)

  datatype Index = Index(
    id: Int32,
    tableId: Int32,
    name: Option<string>,
    isUnique: bool,
    columns: seq<IndexColumn>,
    includeColumnsCsv: Option<string>)

  datatype IndexColumn = IndexColumn(
    id: Int32,
    indexId: Int32,
    columnName: string,
    descending: bool)

  datatype CheckConstraint = CheckConstraint(
    id: Int32,
    tableId: Int32,
    name: Option<string>,
    expression: string)

  datatype UniqueConstraint = UniqueConstraint(
    id: Int32,
    tableId: Int32,
    name: Option<string>,
    columnsCsv: string)

  /** A new project: no tables yet. */
  function NewProject(name: string): (p: Project)
    ensures p.name == name && p.description.None? && p.tables == []
  {
    Project(0, name, Option.None, [])
  }

  /** A new table lives in schema `dbo` and owns no children yet. */
  function NewTable(name: string): (t: Table)
    ensures t.schema == "dbo" && t.name == name && t.primaryKeyName.None?
    ensures t.columns == [] && t.foreignKeys == [] && t.indexes == []
    ensures t.checkConstraints == [] && t.uniqueConstraints == []
  {
    Table(0, 0, "dbo", name, Option.None, [], [], [], [], [])
  }

  /** A new column: identity (1,1) but not an identity column, no default,
      no sizes, not part of the primary key, not nullable, not unique. */
  function NewColumn(name: string, dataType: string): (c: Column)
    ensures c.name == name && c.dataType == dataType
    ensures c.identitySeed == 1 && c.identityIncrement == 1 && c.defaultKind == SqlDefaultKind.None
    ensures c.length.None? && c.precision.None? && c.scale.None? && c.primaryKeyOrder.None?
    ensures !c.isNullable && !c.isPrimaryKey && !c.isIdentity && !c.isUnique && c.defaultSql.None?
  {
    Column(0, 0, name, dataType, Option.None, Option.None, Option.None, false, false, Option.None, false, 1, 1, Option.None, SqlDefaultKind.None, false)
  }

  /** A new foreign key references schema `dbo` and pairs no columns yet. */
  function NewForeignKey(refTable: string): (fk: ForeignKey)
    ensures fk.refSchema == "dbo" && fk.refTable == refTable && fk.columns == []
    ensures fk.name.None? && fk.onDeleteAction.None?
  {
    ForeignKey(0, 0, Option.None, "dbo", refTable, Option.None, [])
  }

  /** A new index is unnamed, not unique, has no columns and no INCLUDE list. */
  function NewIndex(): (ix: Index)
    ensures ix.name.None? && !ix.isUnique && ix.columns == [] && ix.includeColumnsCsv.None?
  {
    Index(0, 0, Option.None, false, [], Option.None)
  }

  /** A new index column sorts ascending. */
  function NewIndexColumn(columnName: string): (ic: IndexColumn)
    ensures ic.columnName == columnName && !ic.descending
  {
    IndexColumn(0, 0, columnName, false)
  }

  /** A new check constraint is unnamed. */
  function NewCheckConstraint(expression: string): (cc: CheckConstraint)
    ensures cc.name.None? && cc.expression == expression
  {
    CheckConstraint(0, 0, Option.None, expression)
  }

  /** A new multi-column unique constraint is unnamed. */
  function NewUniqueConstraint(columnsCsv: string): (uc: UniqueConstraint)
    ensures uc.name.None? && uc.columnsCsv == columnsCsv
  {
    UniqueConstraint(0, 0, Option.None, columnsCsv)
  }
}
