/**
 * The type mapper of the template-based generator (`SqlGenerator.MapType`):
 * a field of the meta-model is given a SQL Server type from its type token.
 * The match on the token is ordinal, so `"String"` is not `"string"`.
 */
module SqlGenerator {
  import opened Wrappers
  import opened Text

  /** A field of an entity in the meta-model; identifiers are opaque text. */
  datatype FieldDto = FieldDto(
    id: string,
    name: string,
    fieldType: string,
    length: Option<Int32>,
    precision: Option<Int32>,
    scale: Option<Int32>,
    isNullable: bool,
    isPrimaryKey: bool,
    isIdentity: bool,
    defaultExpression: Option<string>,
    isUnique: bool)

  /** The defaults a new field starts with. */
  function NewFieldDto(id: string): (f: FieldDto)
    ensures f.id == id && f.fieldType == "string" && f.name == ""
    ensures f.length.None? && f.precision.None? && f.scale.None? && f.defaultExpression.None?
    ensures !f.isNullable && !f.isPrimaryKey && !f.isIdentity && !f.isUnique
  {
    FieldDto(id, "", "string", None, None, None, false, false, false, None, false)
  }

  /** The type tokens the mapper recognises. */
  const KnownTokens: set<string> := {"string", "int", "number", "bool", "date", "datetime"}

  function MapType(f: FieldDto): string {
    match f.fieldType
    case "string" => if f.length.Some? then "NVARCHAR(" + IntToString(f.length.value) + ")" else "NVARCHAR(MAX)"
    case "int" => "INT"
    case "number" =>
      if f.precision.Some? && f.scale.Some? then
        "DECIMAL(" + IntToString(f.precision.value) + "," + IntToString(f.scale.value) + ")"
      else "DECIMAL(18,2)"
    case "bool" => "BIT"
    case "date" => "DATE"
    case "datetime" => "DATETIME2"
    case _ => "NVARCHAR(MAX)"
  }

  /** A string field gets `NVARCHAR(MAX)` exactly when it has no length; a
      given length is printed, so different lengths give different types. */
  lemma StringFieldType(f: FieldDto, g: FieldDto)
    requires f.fieldType == "string" && g.fieldType == "string"
    ensures MapType(f) == "NVARCHAR(MAX)" <==> f.length.None?
    ensures f.length.Some? && g.length.Some? ==>
      (MapType(f) == MapType(g) <==> f.length.value == g.length.value)
  {
    if f.length.Some? {
      var t := IntToString(f.length.value);
      if MapType(f) == "NVARCHAR(MAX)" {
        WrappedInjective("NVARCHAR(", t, "MAX");
      }
      if g.length.Some? && MapType(f) == MapType(g) {
        WrappedInjective("NVARCHAR(", t, IntToString(g.length.value));
        IntToStringInjective(f.length.value, g.length.value);
      }
    }
  }

  /** A number field gets `DECIMAL(p,s)` from its precision and scale, as
      given and unclamped, when both are present, and `DECIMAL(18,2)` otherwise. */
  lemma NumberFieldType(f: FieldDto)
    requires f.fieldType == "number"
    ensures f.precision.None? || f.scale.None? ==> MapType(f) == "DECIMAL(18,2)"
    ensures f.precision.Some? && f.scale.Some? ==>
      MapType(f) == "DECIMAL(" + IntToString(f.precision.value) + "," + IntToString(f.scale.value) + ")"
    ensures f.precision.Some? && f.scale.Some? ==>
      (MapType(f) == "DECIMAL(18,2)" <==> f.precision.value == 18 && f.scale.value == 2)
  {
    if f.precision.Some? && f.scale.Some? {
      if MapType(f) == "DECIMAL(18,2)" {
        assert IntToString(18) == "18" && IntToString(2) == "2";
        assert "DECIMAL(" + IntToString(18) + "," + IntToString(2) + ")" == "DECIMAL(18,2)";
        WrappedPairInjective("DECIMAL(", f.precision.value, f.scale.value, 18, 2);
      }
    }
  }

  /** The parameter-free tokens map to fixed, pairwise different types, none
      of which a string or number field can produce. */
  lemma FixedFieldTypes(f: FieldDto)
    ensures f.fieldType == "int" <==> MapType(f) == "INT"
    ensures f.fieldType == "bool" <==> MapType(f) == "BIT"
    ensures f.fieldType == "date" <==> MapType(f) == "DATE"
    ensures f.fieldType == "datetime" <==> MapType(f) == "DATETIME2"
  {
    var r := MapType(f);
    if f.fieldType == "string" && f.length.Some? {
      assert r[..9] == "NVARCHAR(";
    } else if f.fieldType == "number" && f.precision.Some? && f.scale.Some? {
      assert r[..8] == "DECIMAL(";
    }
  }

  /** Any other token, including a differently cased known one, is treated
      like a string field without a length. */
  lemma UnknownTokenFieldType(f: FieldDto)
    requires f.fieldType !in KnownTokens
    ensures MapType(f) == MapType(f.(fieldType := "string", length := None))
    ensures MapType(f) == "NVARCHAR(MAX)"
  {
  }
}
