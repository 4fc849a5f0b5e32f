/**
 * What a script depends on besides the project. The rendering reads the
 * string hash and the decimal parser, which are fixed within one process,
 * the clock, which only fills the `-- Generated at:` header line, and the
 * GUIDs drawn for foreign keys, which only name keys that have no name of
 * their own. So two runs over a project whose foreign keys are all named
 * produce the same entries except for the timestamp line.
 */
module ScriptDeterminism {
  import opened Text
  import opened Entities
  import opened Oracles
  import opened ConstraintNames
  import opened TableDefinition
  import opened ScriptPlan

  /** Two environments that hash strings and parse decimals alike. */
  ghost predicate SameCulture(env1: Environment, env2: Environment) {
    env1.hashCode == env2.hashCode && env1.parsesAsDecimal == env2.parsesAsDecimal
  }

  /** Every foreign key of every table carries a non-blank name. */
  predicate KeysNamed(ts: seq<Table>) {
    forall a, k :: 0 <= a < |ts| && 0 <= k < |ts[a].foreignKeys| ==> !IsNullOrWhiteSpace(ts[a].foreignKeys[k].name)
  }

  /** A named foreign key keeps its name whatever GUID is drawn for it. */
  lemma ForeignKeyNameIgnoresGuid(t: Table, fk: ForeignKey, g1: GuidText, g2: GuidText)
    requires !IsNullOrWhiteSpace(fk.name)
    ensures ForeignKeyName(t, fk, g1) == ForeignKeyName(t, fk, g2) == fk.name.value
  {
  }

  /** An action renders alike in two environments that hash and parse alike. */
  lemma RenderSameCulture(s: Action, env1: Environment, env2: Environment)
    requires SameCulture(env1, env2)
    ensures Render(s, env1) == Render(s, env2)
  {
    match s
    case CreateTable(t) =>
      assert TableItems(t, env1) == TableItems(t, env2);
    case _ =>
  }

  lemma {:induction false} RenderPrefixSameCulture(plan: seq<Action>, i: nat, env1: Environment, env2: Environment)
    requires i <= |plan|
    requires SameCulture(env1, env2)
    ensures RenderPrefix(plan, i, Renderer(env1)) == RenderPrefix(plan, i, Renderer(env2))
  {
    if i > 0 {
      RenderPrefixSameCulture(plan, i - 1, env1, env2);
      RenderSameCulture(plan[i - 1], env1, env2);
    }
  }

  /** A sequence of actions renders alike in two such environments. */
  lemma RenderAllSameCulture(plan: seq<Action>, env1: Environment, env2: Environment)
    requires SameCulture(env1, env2)
    ensures RenderAll(plan, env1) == RenderAll(plan, env2)
  {
    RenderPrefixSameCulture(plan, |plan|, env1, env2);
  }

  /** The lines of a named foreign key do not depend on the GUID drawn. */
  lemma ForeignKeyLinesIgnoreGuid(t: Table, fk: ForeignKey, g1: GuidText, g2: GuidText)
    requires !IsNullOrWhiteSpace(fk.name)
    ensures ForeignKeyLines(t, fk, g1) == ForeignKeyLines(t, fk, g2)
  {
    ForeignKeyNameIgnoresGuid(t, fk, g1, g2);
  }

  lemma KeyBlockSnoc(t: Table, a: nat, m: nat, env: Environment)
    requires 0 < m <= |t.foreignKeys|
    ensures KeyBlock(t, a, m, env) == KeyBlock(t, a, m - 1, env) + ForeignKeyLines(t, t.foreignKeys[m - 1], env.newGuid(a, m - 1))
  {
    RenderAllSnoc(KeyStatements(t, a, m - 1, env.newGuid), AddForeignKey(t, t.foreignKeys[m - 1], env.newGuid(a, m - 1)), env);
  }

  lemma ForeignKeySectionSnoc(ts: seq<Table>, n: nat, env: Environment)
    requires 0 < n <= |ts|
    ensures ForeignKeySection(ts, n, env) == ForeignKeySection(ts, n - 1, env) + KeyBlock(ts[n - 1], n - 1, |ts[n - 1].foreignKeys|, env)
  {
    var t := ts[n - 1];
    RenderAllAppend(ForeignKeyStatements(ts, n - 1, env.newGuid), KeyStatements(t, n - 1, |t.foreignKeys|, env.newGuid), env);
  }

  /** The blocks of named foreign keys do not depend on the GUIDs drawn. */
  lemma {:induction false} KeyBlockIgnoresGuid(ts: seq<Table>, a: nat, m: nat, env1: Environment, env2: Environment)
    requires a < |ts| && m <= |ts[a].foreignKeys|
    requires KeysNamed(ts)
    ensures KeyBlock(ts[a], a, m, env1) == KeyBlock(ts[a], a, m, env2)
  {
    if m > 0 {
      var t := ts[a];
      KeyBlockIgnoresGuid(ts, a, m - 1, env1, env2);
      KeyBlockSnoc(t, a, m, env1);
      KeyBlockSnoc(t, a, m, env2);
      ForeignKeyLinesIgnoreGuid(t, t.foreignKeys[m - 1], env1.newGuid(a, m - 1), env2.newGuid(a, m - 1));
    }
  }

  lemma {:induction false} ForeignKeySectionIgnoresGuid(ts: seq<Table>, n: nat, env1: Environment, env2: Environment)
    requires n <= |ts|
    requires KeysNamed(ts)
    ensures ForeignKeySection(ts, n, env1) == ForeignKeySection(ts, n, env2)
  {
    if n > 0 {
      var t := ts[n - 1];
      ForeignKeySectionIgnoresGuid(ts, n - 1, env1, env2);
      KeyBlockIgnoresGuid(ts, n - 1, |t.foreignKeys|, env1, env2);
      ForeignKeySectionSnoc(ts, n, env1);
      ForeignKeySectionSnoc(ts, n, env2);
    }
  }

  /** Everything after the header renders alike in two runs over a project
      whose foreign keys are all named. */
  lemma BodyIgnoresGuid(p: Project, env1: Environment, env2: Environment)
    requires SameCulture(env1, env2)
    requires KeysNamed(p.tables)
    ensures RenderAll(Plan(p, env1), env1) == RenderAll(Plan(p, env2), env2)
  {
    var ts := p.tables;
    var guards, creates, indexes := SchemaStatements(ProjectSchemas(p)), TableStatements(ts, |ts|), IndexStatements(ts, |ts|);
    var keys1, keys2 := ForeignKeyStatements(ts, |ts|, env1.newGuid), ForeignKeyStatements(ts, |ts|, env2.newGuid);
    RenderAllAppend(guards + creates + keys1, indexes, env1);
    RenderAllAppend(guards + creates + keys2, indexes, env2);
    RenderAllAppend(guards + creates, keys1, env1);
    RenderAllAppend(guards + creates, keys2, env2);
    RenderAllAppend(guards, creates, env1);
    RenderAllAppend(guards, creates, env2);
    RenderAllSameCulture(guards, env1, env2);
    RenderAllSameCulture(creates, env1, env2);
    ForeignKeySectionIgnoresGuid(ts, |ts|, env1, env2);
    RenderAllSameCulture(indexes, env1, env2);
  }

  /** Replacing an entry of the first part of a concatenation. */
  lemma UpdateFirstPart<T>(a: seq<T>, b: seq<T>, i: nat, x: T)
    requires i < |a|
    ensures (a + b)[i := x] == a[i := x] + b
  {
  }

  /** Two runs over a project whose foreign keys are all named, in the same
      process, give scripts that differ at most in their second entry, the
      `-- Generated at:` line. */
  lemma ScriptIgnoresGuidAndClock(p: Project, env1: Environment, env2: Environment)
    requires SameCulture(env1, env2)
    requires KeysNamed(p.tables)
    ensures ScriptLines(p, env2) == ScriptLines(p, env1)[1 := "-- Generated at: " + env2.generatedAt]
  {
    var h1, h2 := HeaderLines(p, env1), HeaderLines(p, env2);
    BodyIgnoresGuid(p, env1, env2);
    assert h2 == h1[1 := "-- Generated at: " + env2.generatedAt];
    UpdateFirstPart(h1, RenderAll(Plan(p, env1), env1), 1, "-- Generated at: " + env2.generatedAt);
  }

  /** The same at the level of text: both scripts are one common first
      line, then each run's timestamp line, then one common remainder. */
  lemma ScriptTextIgnoresGuidAndClock(p: Project, env1: Environment, env2: Environment)
    requires SameCulture(env1, env2)
    requires KeysNamed(p.tables)
    requires env1.newLine == env2.newLine
    ensures var lines, nl := ScriptLines(p, env1), env1.newLine;
            var first, rest := ScriptText(lines[..1], nl), ScriptText(lines[2..], nl);
            ScriptText(lines, nl) == first + ("-- Generated at: " + env1.generatedAt + nl) + rest
            && ScriptText(ScriptLines(p, env2), nl) == first + ("-- Generated at: " + env2.generatedAt + nl) + rest
  {
    var lines, nl := ScriptLines(p, env1), env1.newLine;
    ScriptIgnoresGuidAndClock(p, env1, env2);
    ScriptTextAround(lines, "-- Generated at: " + env1.generatedAt, nl);
    ScriptTextAround(lines[1 := "-- Generated at: " + env2.generatedAt], "-- Generated at: " + env2.generatedAt, nl);
    assert lines[1 := "-- Generated at: " + env2.generatedAt][..1] == lines[..1];
    assert lines[1 := "-- Generated at: " + env2.generatedAt][2..] == lines[2..];
  }

  /** The text of lines whose second entry is `line`. */
  lemma ScriptTextAround(lines: seq<string>, line: string, nl: string)
    requires |lines| >= 2 && lines[1] == line
    ensures ScriptText(lines, nl) == ScriptText(lines[..1], nl) + (line + nl) + ScriptText(lines[2..], nl)
  {
    assert lines == lines[..1] + [line] + lines[2..];
    ScriptTextAppend(lines[..1] + [line], lines[2..], nl);
    ScriptTextAppend(lines[..1], [line], nl);
    ScriptTextLine(line, nl);
  }
}
