/**
 * The fallback names the script builder gives to constraints and indexes the
 * user left unnamed. The hash-derived and random parts are inputs: a
 * `string.GetHashCode` value and the 32 hex digits of `Guid.ToString("N")`.
 */
module ConstraintNames {
  import opened Wrappers
  import opened Text
  import opened Entities
  import opened Oracles

  /** `Math.Abs` on a hash code. */
  function AbsHash(h: HashCode): (r: nat)
    ensures r <= Int32MaxValue && (r == h || r == -h)
  {
    if h < 0 then -h else h
  }

  predicate IsBlank(s: string) { IsNullOrWhiteSpace(Some(s)) }

  /** A name that starts with a non-blank character is not blank. */
  lemma NotBlankByFirst(s: string)
    requires s != [] && !IsWhiteSpace(s[0])
    ensures !IsBlank(s)
  {
  }

  /** `PK_<table>` unless the table names its key. */
  function PrimaryKeyName(t: Table): string {
    if IsNullOrWhiteSpace(t.primaryKeyName) then "PK_" + t.name else t.primaryKeyName.value
  }

  /** The primary key name is never blank; a non-blank user name is kept as
      given, and otherwise the name is `PK_` followed by the table name. */
  lemma PrimaryKeyNameShape(t: Table)
    ensures !IsBlank(PrimaryKeyName(t))
    ensures !IsNullOrWhiteSpace(t.primaryKeyName) ==> PrimaryKeyName(t) == t.primaryKeyName.value
    ensures IsNullOrWhiteSpace(t.primaryKeyName) ==>
              "PK_" <= PrimaryKeyName(t) && PrimaryKeyName(t)[3..] == t.name
  {
    if IsNullOrWhiteSpace(t.primaryKeyName) {
      NotBlankByFirst("PK_" + t.name);
      assert ("PK_" + t.name)[3..] == t.name;
    }
  }

  /** The name of a column's DEFAULT constraint. */
  function DefaultConstraintName(t: Table, c: Column): string {
    "DF_" + t.name + "_" + c.name
  }

  /** The name of a column's inline UNIQUE constraint. */
  function ColumnUniqueName(t: Table, c: Column): string {
    "UQ_" + t.name + "_" + c.name
  }

  /** Both per-column constraint names are non-blank and carry their kind's prefix. */
  lemma ColumnConstraintNamesShape(t: Table, c: Column)
    ensures !IsBlank(DefaultConstraintName(t, c)) && "DF_" <= DefaultConstraintName(t, c)
    ensures !IsBlank(ColumnUniqueName(t, c)) && "UQ_" <= ColumnUniqueName(t, c)
  {
    NotBlankByFirst(DefaultConstraintName(t, c));
    NotBlankByFirst(ColumnUniqueName(t, c));
  }

  /** `<prefix><table>_<|hash|>`: the hash suffix is printed without sign. */
  function HashedName(prefix: string, t: Table, text: string, hashCode: string -> HashCode): string {
    prefix + t.name + "_" + NatToString(AbsHash(hashCode(text)))
  }

  /** A hashed name starts with `<prefix><table>_` and the rest reads back as the
      absolute value of the hash code of `text`. */
  lemma HashedNameShape(prefix: string, t: Table, text: string, hashCode: string -> HashCode)
    ensures var r := HashedName(prefix, t, text, hashCode);
            prefix + t.name + "_" <= r
            && var suffix := r[|prefix + t.name + "_"|..];
               AllDigits(suffix) && |suffix| >= 1
               && ParseNat(suffix) == AbsHash(hashCode(text))
  {
    var suffix := NatToString(AbsHash(hashCode(text)));
    var r := prefix + t.name + "_" + suffix;
    assert r[|prefix + t.name + "_"|..] == suffix;
  }

  /** `CK_<table>_<|hash of the expression|>` unless the check is named. */
  function CheckConstraintName(t: Table, cc: CheckConstraint, hashCode: string -> HashCode): string {
    if IsNullOrWhiteSpace(cc.name) then HashedName("CK_", t, cc.expression, hashCode) else cc.name.value
  }

  /** `UQ_<table>_<|hash of the column list text|>` unless the constraint is named. */
  function UniqueConstraintName(t: Table, uc: UniqueConstraint, hashCode: string -> HashCode): string {
    if IsNullOrWhiteSpace(uc.name) then HashedName("UQ_", t, uc.columnsCsv, hashCode) else uc.name.value
  }

  /** Table-level constraint names are never blank, a non-blank user name is
      kept, and a generated one is `<prefix><table>_` followed by digits that
      read back as the absolute hash: of the expression for a check, of the
      column list for a unique constraint. */
  lemma TableConstraintNamesShape(t: Table, cc: CheckConstraint, uc: UniqueConstraint, hashCode: string -> HashCode)
    ensures !IsBlank(CheckConstraintName(t, cc, hashCode))
    ensures !IsNullOrWhiteSpace(cc.name) ==> CheckConstraintName(t, cc, hashCode) == cc.name.value
    ensures IsNullOrWhiteSpace(cc.name) ==>
              var r := CheckConstraintName(t, cc, hashCode);
              "CK_" + t.name + "_" <= r && AllDigits(r[|"CK_" + t.name + "_"|..])
              && ParseNat(r[|"CK_" + t.name + "_"|..]) == AbsHash(hashCode(cc.expression))
    ensures !IsBlank(UniqueConstraintName(t, uc, hashCode))
    ensures !IsNullOrWhiteSpace(uc.name) ==> UniqueConstraintName(t, uc, hashCode) == uc.name.value
    ensures IsNullOrWhiteSpace(uc.name) ==>
              var r := UniqueConstraintName(t, uc, hashCode);
              "UQ_" + t.name + "_" <= r && AllDigits(r[|"UQ_" + t.name + "_"|..])
              && ParseNat(r[|"UQ_" + t.name + "_"|..]) == AbsHash(hashCode(uc.columnsCsv))
  {
    if IsNullOrWhiteSpace(cc.name) {
      HashedNameShape("CK_", t, cc.expression, hashCode);
      NotBlankByFirst(CheckConstraintName(t, cc, hashCode));
    }
    if IsNullOrWhiteSpace(uc.name) {
      HashedNameShape("UQ_", t, uc.columnsCsv, hashCode);
      NotBlankByFirst(UniqueConstraintName(t, uc, hashCode));
    }
  }

  /** The index column names in index order. */
  function IndexColumnNames(cols: seq<IndexColumn>): (names: seq<string>)
    ensures |names| == |cols|
  {
    if cols == [] then [] else [cols[0].columnName] + IndexColumnNames(cols[1..])
  }

  /** Entry `i` of the name list is the name of index column `i`. */
  lemma {:induction false} IndexColumnNamesAt(cols: seq<IndexColumn>, i: nat)
    requires i < |cols|
    ensures IndexColumnNames(cols)[i] == cols[i].columnName
  {
    if i > 0 {
      IndexColumnNamesAt(cols[1..], i - 1);
    }
  }

  /** `IX_<table>_<column names joined by _>` unless the index is named. */
  function IndexName(t: Table, ix: Index): string {
    if IsNullOrWhiteSpace(ix.name) then "IX_" + t.name + "_" + Join(IndexColumnNames(ix.columns), "_")
    else ix.name.value
  }

  /** An index name is never blank; a non-blank user name is kept, and a
      generated one is `IX_<table>_` followed by the index column names joined
      by `_`. */
  lemma IndexNameShape(t: Table, ix: Index)
    ensures !IsBlank(IndexName(t, ix))
    ensures !IsNullOrWhiteSpace(ix.name) ==> IndexName(t, ix) == ix.name.value
    ensures IsNullOrWhiteSpace(ix.name) ==>
              var prefix := "IX_" + t.name + "_";
              prefix <= IndexName(t, ix) && IndexName(t, ix)[|prefix|..] == Join(IndexColumnNames(ix.columns), "_")
  {
    if IsNullOrWhiteSpace(ix.name) {
      NotBlankByFirst(IndexName(t, ix));
      var prefix := "IX_" + t.name + "_";
      assert (prefix + Join(IndexColumnNames(ix.columns), "_"))[|prefix|..] == Join(IndexColumnNames(ix.columns), "_");
    }
  }

  /** The text whose first 20 characters name an unnamed foreign key. */
  function ForeignKeyNameSource(t: Table, fk: ForeignKey, guid: GuidText): (s: string)
    ensures |s| >= 20
  {
    "FK_" + t.name + "_" + fk.refTable + "_" + guid
  }

  /** An unnamed foreign key is named by the first 20 characters of
      `FK_<table>_<referenced table>_<guid>`; the substring is always in range. */
  function ForeignKeyName(t: Table, fk: ForeignKey, guid: GuidText): string {
    if IsNullOrWhiteSpace(fk.name) then ForeignKeyNameSource(t, fk, guid)[..20] else fk.name.value
  }

  /** A foreign key name is never blank; a generated one is exactly 20 characters,
      a prefix of its source text, and starts with `FK_`. */
  lemma ForeignKeyNameShape(t: Table, fk: ForeignKey, guid: GuidText)
    ensures !IsBlank(ForeignKeyName(t, fk, guid))
    ensures IsNullOrWhiteSpace(fk.name) ==>
              var r := ForeignKeyName(t, fk, guid);
              |r| == 20 && r <= ForeignKeyNameSource(t, fk, guid) && "FK_" <= r
  {
    if IsNullOrWhiteSpace(fk.name) {
      NotBlankByFirst(ForeignKeyName(t, fk, guid));
    }
  }
}
