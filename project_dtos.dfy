/**
 * The request/response shapes of the project API and the field-for-field
 * mappings between them and the schema model (`DtoMap.ToEntity` and
 * `DtoMap.ToDto`). Mapping to an entity leaves every id at its default 0,
 * so reading an entity back as a DTO and mapping it again restores exactly
 * the entities whose ids were never set.
 */
module ProjectDtos {
  import opened Wrappers
  import opened Text
  import opened Entities

  datatype ProjectListItemDto = ProjectListItemDto(id: Int32, name: string, tablesCount: Int32)

  datatype IdResponse = IdResponse(id: Int32)

  datatype ProjectUpsertDto = ProjectUpsertDto(
    name: string,
    description: Option<string>,
    tables: seq<TableDto>)

  datatype TableDto = TableDto(
    schema: string,
    name: string,
    primaryKeyName: Option<string>,
    columns: seq<ColumnDto>,
    foreignKeys: seq<ForeignKeyDto>,
    indexes: seq<IndexDto>,
    checkConstraints: seq<CheckConstraintDto>,
    uniqueConstraints: seq<UniqueConstraintDto>)

  datatype ColumnDto = ColumnDto(
    name: string,
    dataType: string,
    length: Option<Int32>,
    precision: Option<Int32>,
    scale: Option<Int32>,
    isNullable: bool,
    isPrimaryKey: bool,
    primaryKeyOrder: Option<Int32>,
    isIdentity: bool,
    identitySeed: Int32,
    identityIncrement: Int32,
    defaultSql: Option<string>,
    defaultKind: SqlDefaultKind,
    isUnique: bool)

  datatype ForeignKeyDto = ForeignKeyDto(
    name: Option<string>,
    refSchema: string,
    refTable: string,
    onDeleteAction: Option<string>,
    columns: seq<ForeignKeyColumnDto>)

  datatype ForeignKeyColumnDto = ForeignKeyColumnDto(columnName: string, refColumnName: string)

  datatype IndexDto = IndexDto(
    name: Option<string>,
    isUnique: bool,
    columns: seq<IndexColumnDto>,
    includeColumnsCsv: Option<string>)

  datatype IndexColumnDto = IndexColumnDto(columnName: string, descending: bool)

  datatype CheckConstraintDto = CheckConstraintDto(name: Option<string>, expression: string)

  datatype UniqueConstraintDto = UniqueConstraintDto(name: Option<string>, columnsCsv: string)

  // ---------------------------------------------------------------------------
  // Defaults of freshly constructed DTOs
  // ---------------------------------------------------------------------------

  function NewTableDto(name: string): TableDto {
    TableDto("dbo", name, Option.None, [], [], [], [], [])
  }

  function NewColumnDto(name: string, dataType: string): ColumnDto {
    ColumnDto(name, dataType, Option.None, Option.None, Option.None, false, false, Option.None,
              false, 1, 1, Option.None, SqlDefaultKind.None, false)
  }

  function NewForeignKeyDto(refTable: string): ForeignKeyDto {
    ForeignKeyDto(Option.None, "dbo", refTable, Option.None, [])
  }

  function NewIndexDto(): IndexDto {
    IndexDto(Option.None, false, [], Option.None)
  }

  function NewIndexColumnDto(columnName: string): IndexColumnDto {
    IndexColumnDto(columnName, false)
  }

  function NewCheckConstraintDto(expression: string): CheckConstraintDto {
    CheckConstraintDto(Option.None, expression)
  }

  function NewUniqueConstraintDto(columnsCsv: string): UniqueConstraintDto {
    UniqueConstraintDto(Option.None, columnsCsv)
  }

  // ---------------------------------------------------------------------------
  // Ids left at their defaults
  // ---------------------------------------------------------------------------

  predicate ColumnIdsUnset(c: Column) { c.id == 0 && c.tableId == 0 }

  predicate ForeignKeyIdsUnset(fk: ForeignKey) {
    fk.id == 0 && fk.tableId == 0
    && forall i :: 0 <= i < |fk.columns| ==> fk.columns[i].id == 0 && fk.columns[i].foreignKeyId == 0
  }

  predicate IndexIdsUnset(ix: Index) {
    ix.id == 0 && ix.tableId == 0
    && forall i :: 0 <= i < |ix.columns| ==> ix.columns[i].id == 0 && ix.columns[i].indexId == 0
  }

  predicate TableIdsUnset(t: Table) {
    && t.id == 0 && t.projectId == 0
    && (forall i :: 0 <= i < |t.columns| ==> ColumnIdsUnset(t.columns[i]))
    && (forall i :: 0 <= i < |t.foreignKeys| ==> ForeignKeyIdsUnset(t.foreignKeys[i]))
    && (forall i :: 0 <= i < |t.indexes| ==> IndexIdsUnset(t.indexes[i]))
    && (forall i :: 0 <= i < |t.checkConstraints| ==>
          t.checkConstraints[i].id == 0 && t.checkConstraints[i].tableId == 0)
    && (forall i :: 0 <= i < |t.uniqueConstraints| ==>
          t.uniqueConstraints[i].id == 0 && t.uniqueConstraints[i].tableId == 0)
  }

  predicate ProjectIdsUnset(p: Project) {
    p.id == 0 && forall i :: 0 <= i < |p.tables| ==> TableIdsUnset(p.tables[i])
  }

  // ---------------------------------------------------------------------------
  // DTO -> entity
  // ---------------------------------------------------------------------------

  /** Copies all fourteen column fields; ids stay 0. */
  function ColumnToEntity(d: ColumnDto): (e: Column)
    ensures ColumnIdsUnset(e)
    ensures ColumnToDto(e) == d
  {
    Column(0, 0, d.name, d.dataType, d.length, d.precision, d.scale, d.isNullable, d.isPrimaryKey,
           d.primaryKeyOrder, d.isIdentity, d.identitySeed, d.identityIncrement, d.defaultSql,
           d.defaultKind, d.isUnique)
  }

  function ForeignKeyColumnToEntity(d: ForeignKeyColumnDto): ForeignKeyColumn {
    ForeignKeyColumn(0, 0, d.columnName, d.refColumnName)
  }

  /** Keeps the column pairs in order, each pair's two names together. */
  function ForeignKeyToEntity(d: ForeignKeyDto): (e: ForeignKey)
    ensures ForeignKeyIdsUnset(e)
    ensures |e.columns| == |d.columns|
    ensures forall i :: 0 <= i < |d.columns| ==>
              e.columns[i].columnName == d.columns[i].columnName
              && e.columns[i].refColumnName == d.columns[i].refColumnName
    ensures ForeignKeyToDto(e) == d
  {
    var e := ForeignKey(0, 0, d.name, d.refSchema, d.refTable, d.onDeleteAction,
      seq(|d.columns|, i requires 0 <= i < |d.columns| => ForeignKeyColumnToEntity(d.columns[i])));
    assert ForeignKeyToDto(e).columns == d.columns;
    e
  }

  function IndexColumnToEntity(d: IndexColumnDto): IndexColumn {
    IndexColumn(0, 0, d.columnName, d.descending)
  }

  /** Keeps the index columns in order with their directions. */
  function IndexToEntity(d: IndexDto): (e: Index)
    ensures IndexIdsUnset(e)
    ensures |e.columns| == |d.columns|
    ensures forall i :: 0 <= i < |d.columns| ==>
              e.columns[i].columnName == d.columns[i].columnName
              && e.columns[i].descending == d.columns[i].descending
    ensures IndexToDto(e) == d
  {
    var e := Index(0, 0, d.name, d.isUnique,
      seq(|d.columns|, i requires 0 <= i < |d.columns| => IndexColumnToEntity(d.columns[i])),
      d.includeColumnsCsv);
    assert IndexToDto(e).columns == d.columns;
    e
  }

  function CheckConstraintToEntity(d: CheckConstraintDto): CheckConstraint {
    CheckConstraint(0, 0, d.name, d.expression)
  }

  function UniqueConstraintToEntity(d: UniqueConstraintDto): UniqueConstraint {
    UniqueConstraint(0, 0, d.name, d.columnsCsv)
  }

  /** Maps every child list element by element, keeping length and order. */
  function TableToEntity(d: TableDto): (e: Table)
    ensures TableIdsUnset(e)
    ensures e.schema == d.schema && e.name == d.name && e.primaryKeyName == d.primaryKeyName
    ensures |e.columns| == |d.columns| && |e.foreignKeys| == |d.foreignKeys| && |e.indexes| == |d.indexes|
    ensures |e.checkConstraints| == |d.checkConstraints| && |e.uniqueConstraints| == |d.uniqueConstraints|
    ensures forall i :: 0 <= i < |d.columns| ==> ColumnToDto(e.columns[i]) == d.columns[i]
    ensures forall i :: 0 <= i < |d.foreignKeys| ==> ForeignKeyToDto(e.foreignKeys[i]) == d.foreignKeys[i]
    ensures forall i :: 0 <= i < |d.indexes| ==> IndexToDto(e.indexes[i]) == d.indexes[i]
    ensures TableToDto(e) == d
  {
    var e := Table(0, 0, d.schema, d.name, d.primaryKeyName,
      seq(|d.columns|, i requires 0 <= i < |d.columns| => ColumnToEntity(d.columns[i])),
      seq(|d.foreignKeys|, i requires 0 <= i < |d.foreignKeys| => ForeignKeyToEntity(d.foreignKeys[i])),
      seq(|d.indexes|, i requires 0 <= i < |d.indexes| => IndexToEntity(d.indexes[i])),
      seq(|d.checkConstraints|, i requires 0 <= i < |d.checkConstraints| =>
        CheckConstraintToEntity(d.checkConstraints[i])),
      seq(|d.uniqueConstraints|, i requires 0 <= i < |d.uniqueConstraints| =>
        UniqueConstraintToEntity(d.uniqueConstraints[i])));
    assert TableToDto(e).columns == d.columns;
    assert TableToDto(e).foreignKeys == d.foreignKeys;
    assert TableToDto(e).indexes == d.indexes;
    assert TableToDto(e).checkConstraints == d.checkConstraints;
    assert TableToDto(e).uniqueConstraints == d.uniqueConstraints;
    e
  }

  /** `ToEntity` on a project: tables in the same order, ids left unset. */
  function ProjectToEntity(d: ProjectUpsertDto): (e: Project)
    ensures ProjectIdsUnset(e)
    ensures e.name == d.name && e.description == d.description && |e.tables| == |d.tables|
    ensures forall i :: 0 <= i < |d.tables| ==> e.tables[i] == TableToEntity(d.tables[i])
  {
    Project(0, d.name, d.description,
      seq(|d.tables|, i requires 0 <= i < |d.tables| => TableToEntity(d.tables[i])))
  }

  // ---------------------------------------------------------------------------
  // Entity -> DTO
  // ---------------------------------------------------------------------------

  /** Copies all fourteen column fields; the ids are not part of a DTO. */
  function ColumnToDto(e: Column): ColumnDto {
    ColumnDto(e.name, e.dataType, e.length, e.precision, e.scale, e.isNullable, e.isPrimaryKey,
              e.primaryKeyOrder, e.isIdentity, e.identitySeed, e.identityIncrement, e.defaultSql,
              e.defaultKind, e.isUnique)
  }

  function ForeignKeyToDto(e: ForeignKey): (d: ForeignKeyDto)
    ensures |d.columns| == |e.columns|
    ensures forall i :: 0 <= i < |e.columns| ==>
              d.columns[i].columnName == e.columns[i].columnName
              && d.columns[i].refColumnName == e.columns[i].refColumnName
  {
    ForeignKeyDto(e.name, e.refSchema, e.refTable, e.onDeleteAction,
      seq(|e.columns|, i requires 0 <= i < |e.columns| =>
        ForeignKeyColumnDto(e.columns[i].columnName, e.columns[i].refColumnName)))
  }

  function IndexToDto(e: Index): (d: IndexDto)
    ensures |d.columns| == |e.columns|
    ensures forall i :: 0 <= i < |e.columns| ==>
              d.columns[i].columnName == e.columns[i].columnName
              && d.columns[i].descending == e.columns[i].descending
  {
    IndexDto(e.name, e.isUnique,
      seq(|e.columns|, i requires 0 <= i < |e.columns| =>
        IndexColumnDto(e.columns[i].columnName, e.columns[i].descending)),
      e.includeColumnsCsv)
  }

  function TableToDto(e: Table): TableDto {
    TableDto(e.schema, e.name, e.primaryKeyName,
      seq(|e.columns|, i requires 0 <= i < |e.columns| => ColumnToDto(e.columns[i])),
      seq(|e.foreignKeys|, i requires 0 <= i < |e.foreignKeys| => ForeignKeyToDto(e.foreignKeys[i])),
      seq(|e.indexes|, i requires 0 <= i < |e.indexes| => IndexToDto(e.indexes[i])),
      seq(|e.checkConstraints|, i requires 0 <= i < |e.checkConstraints| =>
        CheckConstraintDto(e.checkConstraints[i].name, e.checkConstraints[i].expression)),
      seq(|e.uniqueConstraints|, i requires 0 <= i < |e.uniqueConstraints| =>
        UniqueConstraintDto(e.uniqueConstraints[i].name, e.uniqueConstraints[i].columnsCsv)))
  }

  function ProjectToDto(e: Project): ProjectUpsertDto {
    ProjectUpsertDto(e.name, e.description,
      seq(|e.tables|, i requires 0 <= i < |e.tables| => TableToDto(e.tables[i])))
  }

  // ---------------------------------------------------------------------------
  // Round trips
  // ---------------------------------------------------------------------------

  /** Mapping a request to entities and reading them back loses nothing. */
  lemma DtoRoundTrip(d: ProjectUpsertDto)
    ensures ProjectToDto(ProjectToEntity(d)) == d
  {
    assert ProjectToDto(ProjectToEntity(d)).tables == d.tables;
  }

  lemma ColumnEntityRoundTrip(e: Column)
    requires ColumnIdsUnset(e)
    ensures ColumnToEntity(ColumnToDto(e)) == e
  {
  }

  lemma ForeignKeyEntityRoundTrip(e: ForeignKey)
    requires ForeignKeyIdsUnset(e)
    ensures ForeignKeyToEntity(ForeignKeyToDto(e)) == e
  {
    assert ForeignKeyToEntity(ForeignKeyToDto(e)).columns == e.columns;
  }

  lemma IndexEntityRoundTrip(e: Index)
    requires IndexIdsUnset(e)
    ensures IndexToEntity(IndexToDto(e)) == e
  {
    assert IndexToEntity(IndexToDto(e)).columns == e.columns;
  }

  lemma TableEntityRoundTrip(e: Table)
    requires TableIdsUnset(e)
    ensures TableToEntity(TableToDto(e)) == e
  {
    var r := TableToEntity(TableToDto(e));
    forall i | 0 <= i < |e.columns| ensures r.columns[i] == e.columns[i] {
      ColumnEntityRoundTrip(e.columns[i]);
    }
    forall i | 0 <= i < |e.foreignKeys| ensures r.foreignKeys[i] == e.foreignKeys[i] {
      ForeignKeyEntityRoundTrip(e.foreignKeys[i]);
    }
    forall i | 0 <= i < |e.indexes| ensures r.indexes[i] == e.indexes[i] {
      IndexEntityRoundTrip(e.indexes[i]);
    }
    assert r.columns == e.columns;
    assert r.foreignKeys == e.foreignKeys;
    assert r.indexes == e.indexes;
    assert r.checkConstraints == e.checkConstraints;
    assert r.uniqueConstraints == e.uniqueConstraints;
  }

  /** Reading a project as a DTO and mapping it back restores it exactly when
      none of its ids were set: `ToEntity` never sets an id. */
  lemma EntityRoundTrip(e: Project)
    ensures ProjectToEntity(ProjectToDto(e)) == e <==> ProjectIdsUnset(e)
  {
    if ProjectIdsUnset(e) {
      var r := ProjectToEntity(ProjectToDto(e));
      forall i | 0 <= i < |e.tables| ensures r.tables[i] == e.tables[i] {
        TableEntityRoundTrip(e.tables[i]);
      }
      assert r.tables == e.tables;
    }
  }

  /** The DTO defaults and the entity defaults agree. */
  lemma DefaultsAgree(name: string, dataType: string, refTable: string, text: string)
    ensures TableToEntity(NewTableDto(name)) == NewTable(name)
    ensures ColumnToEntity(NewColumnDto(name, dataType)) == NewColumn(name, dataType)
    ensures ForeignKeyToEntity(NewForeignKeyDto(refTable)) == NewForeignKey(refTable)
    ensures IndexToEntity(NewIndexDto()) == NewIndex()
    ensures IndexColumnToEntity(NewIndexColumnDto(name)) == NewIndexColumn(name)
    ensures CheckConstraintToEntity(NewCheckConstraintDto(text)) == NewCheckConstraint(text)
    ensures UniqueConstraintToEntity(NewUniqueConstraintDto(text)) == NewUniqueConstraint(text)
  {
    assert IndexToEntity(NewIndexDto()).columns == [];
    assert TableToEntity(NewTableDto(name)).columns == [];
    assert TableToEntity(NewTableDto(name)).foreignKeys == [];
    assert TableToEntity(NewTableDto(name)).indexes == [];
    assert TableToEntity(NewTableDto(name)).checkConstraints == [];
    assert TableToEntity(NewTableDto(name)).uniqueConstraints == [];
    assert ForeignKeyToEntity(NewForeignKeyDto(refTable)).columns == [];
  }
}
