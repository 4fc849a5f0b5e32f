/**
 * The type resolver of the script builder (`BuildColumnType`): the column's
 * type token is trimmed and lower-cased; sized text and binary families get a
 * length, `decimal`/`numeric` get a precision and scale, an allow-list of
 * scalar types is emitted as the normalised token, and any other token is
 * emitted exactly as the user wrote it.
 */
module ColumnTypes {
  import opened Wrappers
  import opened Text
  import opened Entities

  /** Families whose length may be `max`; each has a hard cap on explicit lengths. */
  predicate IsVarLength(dt: string) { dt == "varchar" || dt == "nvarchar" || dt == "varbinary" }

  /** Families with a fixed width; SQL Server refuses `max` for them. */
  predicate IsFixedLength(dt: string) { dt == "char" || dt == "nchar" }

  predicate HasLength(dt: string) { IsVarLength(dt) || IsFixedLength(dt) }

  predicate HasPrecisionScale(dt: string) { dt == "decimal" || dt == "numeric" }

  const ScalarTypes: set<string> := {
    "datetime", "smalldatetime", "date", "time", "datetime2", "datetimeoffset", "bit", "int",
    "bigint", "smallint", "tinyint", "uniqueidentifier", "text", "ntext", "image", "float",
    "real", "money", "smallmoney", "xml", "geography", "geometry" }

  /** The largest explicit length of a var-length family: 4000 for the
      double-byte `nvarchar`, 8000 for the single-byte families. */
  function VarLengthCap(dt: string): int
    requires IsVarLength(dt)
  {
    if dt == "nvarchar" then 4000 else 8000
  }

  /** The type token as compared: trimmed and lower-cased. */
  function NormalizedType(dataType: string): string {
    ToLowerInvariant(Trim(dataType))
  }

  /** The length text chosen before the fixed-length fix-up. */
  function LengthText(dt: string, length: Option<Int32>): string {
    if length.None? then
      (if IsVarLength(dt) then "max" else "50")
    else if length.value <= 0 then
      "max"
    else if (dt == "varchar" || dt == "varbinary") && length.value > 8000 then
      "max"
    else if dt == "nvarchar" && length.value > 4000 then
      "max"
    else
      IntToString(length.value)
  }

  /** Precision and scale of a decimal family: in-range values are kept, an
      out-of-range precision becomes 18, an out-of-range scale min(precision, 2). */
  function DecimalParameters(precision: Option<Int32>, scale: Option<Int32>): (ps: (int, int))
    ensures 1 <= ps.0 <= 38 && 0 <= ps.1 <= ps.0
    ensures ps.0 == (if precision.Some? && 1 <= precision.value <= 38 then precision.value else 18)
    ensures scale.Some? && 0 <= scale.value <= ps.0 ==> ps.1 == scale.value
    ensures !(scale.Some? && 0 <= scale.value <= ps.0) ==> ps.1 == if ps.0 < 2 then ps.0 else 2
  {
    var prec := if precision.Some? && 1 <= precision.value <= 38 then precision.value else 18;
    var sc := if scale.Some? && 0 <= scale.value <= prec then scale.value
              else if prec < 2 then prec else 2;
    (prec, sc)
  }

  /** The length text after the fix-up that turns `max` into `1` for the
      fixed-length families. */
  function FinalLengthText(dt: string, length: Option<Int32>): string {
    var len := LengthText(dt, length);
    if IsFixedLength(dt) && EqualsIgnoreCase(len, "max") then "1" else len
  }

  /** The clause of a sized family. */
  function SizedType(dt: string, length: Option<Int32>): string {
    dt + "(" + FinalLengthText(dt, length) + ")"
  }

  /** The clause of a decimal family. */
  function DecimalType(dt: string, precision: Option<Int32>, scale: Option<Int32>): string {
    var ps := DecimalParameters(precision, scale);
    dt + "(" + IntToString(ps.0) + "," + IntToString(ps.1) + ")"
  }

  /** The type clause of a column. */
  function BuildColumnType(c: Column): string {
    var dt := NormalizedType(c.dataType);
    if HasLength(dt) then
      SizedType(dt, c.length)
    else if HasPrecisionScale(dt) then
      DecimalType(dt, c.precision, c.scale)
    else if dt in ScalarTypes then
      dt
    else
      c.dataType
  }

  lemma ParenthesisedInjective(dt: string, x: string, y: string)
    requires dt + "(" + x + ")" == dt + "(" + y + ")"
    ensures x == y
  {
    var a := dt + "(" + x + ")";
    var b := dt + "(" + y + ")";
    assert x == a[|dt| + 1..|a| - 1];
    assert y == b[|dt| + 1..|b| - 1];
  }

  /** Whether a var-length column falls back to `max`: no length, a length of
      zero or less, or one above the family's cap. */
  predicate VarLengthIsMax(dt: string, length: Option<Int32>)
    requires IsVarLength(dt)
  {
    length.None? || length.value <= 0 || length.value > VarLengthCap(dt)
  }

  lemma DigitsAreNotMax(n: int)
    requires n > 0
    ensures !EqualsIgnoreCase(IntToString(n), "max")
  {
    var s := IntToString(n);
    if |s| == 3 {
      assert IsDigit(s[0]);
      assert !SameCharIgnoreCase(s[0], 'm');
    }
  }

  /** Var-length families: `max` exactly when the length is absent, not
      positive or above the cap; otherwise the length itself, within 1..cap. */
  lemma VarLengthType(dt: string, length: Option<Int32>)
    requires IsVarLength(dt)
    ensures SizedType(dt, length) == dt + "(max)" <==> VarLengthIsMax(dt, length)
    ensures !VarLengthIsMax(dt, length) ==>
              1 <= length.value <= VarLengthCap(dt)
              && SizedType(dt, length) == dt + "(" + IntToString(length.value) + ")"
  {
    var len := FinalLengthText(dt, length);
    assert dt + "(max)" == dt + "(" + "max" + ")";
    if VarLengthIsMax(dt, length) {
      assert len == "max";
    } else {
      var n := length.value;
      assert len == IntToString(n);
      DigitsAreNotMax(n);
      assert EqualsIgnoreCase("max", "max");
      if SizedType(dt, length) == dt + "(max)" {
        ParenthesisedInjective(dt, len, "max");
        assert false;
      }
    }
  }

  /** Fixed-length families never get `max`: an absent length gives width 50,
      a length of zero or less width 1, and a positive length is printed as is,
      with no upper cap. */
  lemma FixedLengthType(dt: string, length: Option<Int32>)
    requires IsFixedLength(dt)
    ensures SizedType(dt, length) == dt + "(" + (
              if length.None? then "50"
              else if length.value <= 0 then "1"
              else IntToString(length.value)) + ")"
  {
    if length.None? {
      assert LengthText(dt, length) == "50";
      assert !SameCharIgnoreCase('5', 'm');
    } else if length.value <= 0 {
      assert LengthText(dt, length) == "max";
      assert EqualsIgnoreCase("max", "max");
    } else {
      assert LengthText(dt, length) == IntToString(length.value);
      DigitsAreNotMax(length.value);
    }
  }

  predicate NoLetterM(s: string) {
    forall i :: 0 <= i < |s| ==> s[i] !in "mM"
  }

  lemma ClauseNoLetterM(dt: string, len: string)
    requires NoLetterM(dt) && NoLetterM(len)
    ensures NoLetterM(dt + "(" + len + ")")
  {
    var r := dt + "(" + len + ")";
    forall i | 0 <= i < |r| ensures r[i] !in "mM" {
      if i < |dt| { assert r[i] == dt[i]; }
      else if i == |dt| { assert r[i] == '('; }
      else if i < |r| - 1 { assert r[i] == len[i - |dt| - 1]; }
      else { assert r[i] == ')'; }
    }
  }

  /** Hence no `m` or `M` appears in a fixed-length clause: never `max`. */
  lemma FixedLengthNeverMax(dt: string, length: Option<Int32>)
    requires IsFixedLength(dt)
    ensures NoLetterM(SizedType(dt, length))
  {
    FixedLengthType(dt, length);
    var len := if length.None? then "50" else if length.value <= 0 then "1" else IntToString(length.value);
    assert AllDigits(len);
    assert NoLetterM(len) by {
      forall i | 0 <= i < |len| ensures len[i] !in "mM" {
        assert IsDigit(len[i]);
      }
    }
    assert NoLetterM(dt);
    ClauseNoLetterM(dt, len);
  }

  /** Allow-listed scalar types come out as the trimmed, lower-cased token;
      any other token that is not a sized or decimal family comes out exactly
      as the user wrote it (custom and engine-specific types). */
  lemma ScalarAndCustomTypes(c: Column)
    requires !HasLength(NormalizedType(c.dataType)) && !HasPrecisionScale(NormalizedType(c.dataType))
    ensures NormalizedType(c.dataType) in ScalarTypes ==> BuildColumnType(c) == NormalizedType(c.dataType)
    ensures NormalizedType(c.dataType) !in ScalarTypes ==> BuildColumnType(c) == c.dataType
  {
  }

  // ---------------------------------------------------------------------------
  // Over-long fixed-length types
  // ---------------------------------------------------------------------------

  /** The widest explicit length SQL Server accepts for a fixed-length
      family: 8000 bytes for `char`, 4000 characters for `nchar`. */
  function FixedLengthCap(dt: string): int
    requires IsFixedLength(dt)
  {
    if dt == "nchar" then 4000 else 8000
  }

  /** As written, a fixed-length type keeps a length above its cap: a `char`
      column of length 9000 is declared `char(9000)`, which SQL Server refuses. */
  lemma FixedLengthOverCap()
    ensures 9000 > FixedLengthCap("char")
    ensures SizedType("char", Some(9000)) == "char(9000)"
  {
    FixedLengthType("char", Some(9000));
    assert IntToString(9000) == "9000";
  }

  /** The width of a fixed-length family clamped like the var-length ones:
      50 when absent, the length itself when within 1..cap, otherwise 1. */
  function ClampedFixedWidth(dt: string, length: Option<Int32>): (w: int)
    requires IsFixedLength(dt)
    ensures 1 <= w <= FixedLengthCap(dt)
    ensures length.Some? && 1 <= length.value <= FixedLengthCap(dt) ==> w == length.value
    ensures length.Some? && !(1 <= length.value <= FixedLengthCap(dt)) ==> w == 1
  {
    if length.None? then 50
    else if 1 <= length.value <= FixedLengthCap(dt) then length.value
    else 1
  }

  /** The fixed-length clause with the over-cap clamp. */
  function ClampedFixedLengthType(dt: string, length: Option<Int32>): string
    requires IsFixedLength(dt)
  {
    dt + "(" + IntToString(ClampedFixedWidth(dt, length)) + ")"
  }

  /** The clamped clause always declares a width SQL Server accepts, and it
      differs from the clause as written exactly for lengths above the cap,
      where it declares width 1. */
  lemma ClampedFixedLengthValid(dt: string, length: Option<Int32>)
    requires IsFixedLength(dt)
    ensures (ClampedFixedLengthType(dt, length) != SizedType(dt, length))
              == (length.Some? && length.value > FixedLengthCap(dt))
    ensures length.Some? && length.value > FixedLengthCap(dt) ==> ClampedFixedLengthType(dt, length) == dt + "(1)"
  {
    FixedLengthType(dt, length);
    assert IntToString(1) == "1";
    if length.None? {
      assert IntToString(50) == "50";
    } else if length.value > FixedLengthCap(dt) {
      if ClampedFixedLengthType(dt, length) == SizedType(dt, length) {
        ParenthesisedInjective(dt, IntToString(1), IntToString(length.value));
        IntToStringInjective(1, length.value);
        assert false;
      }
    }
  }
}
