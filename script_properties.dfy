/**
 * What the plan of a script promises: its statements come section by
 * section (schema guards, tables, foreign keys, indexes), every table,
 * foreign key and index appears at a known position in project order, and
 * the guards cover the project's schemas other than `dbo`, once each
 * ignoring case.
 */
module ScriptProperties {
  import opened Wrappers
  import opened Text
  import opened Entities
  import opened Oracles
  import opened TableDefinition
  import opened ScriptPlan

  /** Actions of one section: all of rank `k`. */
  predicate Section(s: seq<Action>, k: nat) {
    forall i :: 0 <= i < |s| ==> Rank(s[i]) == k
  }

  lemma SectionAppend(a: seq<Action>, b: seq<Action>, k: nat)
    requires Section(a, k) && Section(b, k)
    ensures Section(a + b, k)
  {
  }

  lemma SchemaStatementsSection(schemas: seq<string>)
    ensures Section(SchemaStatements(schemas), 0)
  {
    SchemaStatementsSpec(schemas);
  }

  lemma {:induction false} TableStatementsSection(ts: seq<Table>, n: nat)
    requires n <= |ts|
    ensures Section(TableStatements(ts, n), 1)
  {
    if n > 0 {
      TableStatementsSection(ts, n - 1);
      SectionAppend(TableStatements(ts, n - 1), [CreateTable(ts[n - 1])], 1);
    }
  }

  lemma {:induction false} KeyStatementsSection(t: Table, a: nat, m: nat, newGuid: (nat, nat) -> GuidText)
    requires m <= |t.foreignKeys|
    ensures Section(KeyStatements(t, a, m, newGuid), 2)
  {
    if m > 0 {
      KeyStatementsSection(t, a, m - 1, newGuid);
      SectionAppend(KeyStatements(t, a, m - 1, newGuid), [AddForeignKey(t, t.foreignKeys[m - 1], newGuid(a, m - 1))], 2);
    }
  }

  lemma {:induction false} ForeignKeyStatementsSection(ts: seq<Table>, n: nat, newGuid: (nat, nat) -> GuidText)
    requires n <= |ts|
    ensures Section(ForeignKeyStatements(ts, n, newGuid), 2)
  {
    if n > 0 {
      ForeignKeyStatementsSection(ts, n - 1, newGuid);
      KeyStatementsSection(ts[n - 1], n - 1, |ts[n - 1].foreignKeys|, newGuid);
      SectionAppend(ForeignKeyStatements(ts, n - 1, newGuid), KeyStatements(ts[n - 1], n - 1, |ts[n - 1].foreignKeys|, newGuid), 2);
    }
  }

  lemma {:induction false} IndexStatementsOfSection(t: Table, m: nat)
    requires m <= |t.indexes|
    ensures Section(IndexStatementsOf(t, m), 3)
  {
    if m > 0 {
      IndexStatementsOfSection(t, m - 1);
      SectionAppend(IndexStatementsOf(t, m - 1), [CreateIndex(t, t.indexes[m - 1])], 3);
    }
  }

  lemma {:induction false} IndexStatementsSection(ts: seq<Table>, n: nat)
    requires n <= |ts|
    ensures Section(IndexStatements(ts, n), 3)
  {
    if n > 0 {
      IndexStatementsSection(ts, n - 1);
      IndexStatementsOfSection(ts[n - 1], |ts[n - 1].indexes|);
      SectionAppend(IndexStatements(ts, n - 1), IndexStatementsOf(ts[n - 1], |ts[n - 1].indexes|), 3);
    }
  }

  /** The plan is its four sections, one after another. */
  lemma PlanSections(p: Project, env: Environment)
    returns (a: seq<Action>, b: seq<Action>, c: seq<Action>, d: seq<Action>)
    ensures Plan(p, env) == a + b + c + d
    ensures a == SchemaStatements(ProjectSchemas(p))
    ensures Section(a, 0) && Section(b, 1) && Section(c, 2) && Section(d, 3)
  {
    var ts := p.tables;
    a := SchemaStatements(ProjectSchemas(p));
    b := TableStatements(ts, |ts|);
    c := ForeignKeyStatements(ts, |ts|, env.newGuid);
    d := IndexStatements(ts, |ts|);
    SchemaStatementsSection(ProjectSchemas(p));
    TableStatementsSection(ts, |ts|);
    ForeignKeyStatementsSection(ts, |ts|, env.newGuid);
    IndexStatementsSection(ts, |ts|);
  }

  /** The rank of a statement of four consecutive sections is its section. */
  lemma SectionRankAt(a: seq<Action>, b: seq<Action>, c: seq<Action>, d: seq<Action>, i: nat)
    requires Section(a, 0) && Section(b, 1) && Section(c, 2) && Section(d, 3)
    requires i < |a + b + c + d|
    ensures var s := (a + b + c + d)[i];
            Rank(s) == (if i < |a| then 0 else if i < |a| + |b| then 1 else if i < |a| + |b| + |c| then 2 else 3)
  {
    var s := a + b + c + d;
    if i < |a| {
      assert s[i] == a[i];
    } else if i < |a| + |b| {
      assert s[i] == b[i - |a|];
    } else if i < |a| + |b| + |c| {
      assert s[i] == c[i - |a| - |b|];
    } else {
      assert s[i] == d[i - |a| - |b| - |c|];
    }
  }

  /** The plan is ordered by section: no statement precedes one of an
      earlier section. */
  lemma PlanOrdered(p: Project, env: Environment, i: nat, j: nat)
    requires i < j < |Plan(p, env)|
    ensures Rank(Plan(p, env)[i]) <= Rank(Plan(p, env)[j])
  {
    var a, b, c, d := PlanSections(p, env);
    SectionRankAt(a, b, c, d, i);
    SectionRankAt(a, b, c, d, j);
  }

  // ---------------------------------------------------------------------------
  // Project order
  // ---------------------------------------------------------------------------

  lemma SnocAt<T>(s: seq<T>, x: T, i: nat)
    requires i <= |s|
    ensures (s + [x])[i] == if i == |s| then x else s[i]
  {
  }

  lemma {:induction false} TableStatementsAt(ts: seq<Table>, n: nat, i: nat)
    requires i < n <= |ts|
    ensures TableStatements(ts, n)[i] == CreateTable(ts[i])
  {
    if i < n - 1 {
      TableStatementsAt(ts, n - 1, i);
    }
    SnocAt(TableStatements(ts, n - 1), CreateTable(ts[n - 1]), i);
  }

  lemma {:induction false} KeyStatementsAt(t: Table, a: nat, m: nat, newGuid: (nat, nat) -> GuidText, k: nat)
    requires k < m <= |t.foreignKeys|
    ensures KeyStatements(t, a, m, newGuid)[k] == AddForeignKey(t, t.foreignKeys[k], newGuid(a, k))
  {
    if k < m - 1 {
      KeyStatementsAt(t, a, m - 1, newGuid, k);
    }
    SnocAt(KeyStatements(t, a, m - 1, newGuid), AddForeignKey(t, t.foreignKeys[m - 1], newGuid(a, m - 1)), k);
  }

  lemma {:induction false} IndexStatementsOfAt(t: Table, m: nat, k: nat)
    requires k < m <= |t.indexes|
    ensures IndexStatementsOf(t, m)[k] == CreateIndex(t, t.indexes[k])
  {
    if k < m - 1 {
      IndexStatementsOfAt(t, m - 1, k);
    }
    SnocAt(IndexStatementsOf(t, m - 1), CreateIndex(t, t.indexes[m - 1]), k);
  }

  /** The number of foreign keys of the first `n` tables. */
  function KeyCount(ts: seq<Table>, n: nat): nat
    requires n <= |ts|
  {
    if n == 0 then 0 else KeyCount(ts, n - 1) + |ts[n - 1].foreignKeys|
  }

  /** The number of indexes of the first `n` tables. */
  function IndexCount(ts: seq<Table>, n: nat): nat
    requires n <= |ts|
  {
    if n == 0 then 0 else IndexCount(ts, n - 1) + |ts[n - 1].indexes|
  }

  lemma {:induction false} KeyCountMonotone(ts: seq<Table>, a: nat, n: nat)
    requires a < n <= |ts|
    ensures KeyCount(ts, a) + |ts[a].foreignKeys| <= KeyCount(ts, n)
  {
    if a < n - 1 {
      KeyCountMonotone(ts, a, n - 1);
    }
  }

  lemma {:induction false} IndexCountMonotone(ts: seq<Table>, a: nat, n: nat)
    requires a < n <= |ts|
    ensures IndexCount(ts, a) + |ts[a].indexes| <= IndexCount(ts, n)
  {
    if a < n - 1 {
      IndexCountMonotone(ts, a, n - 1);
    }
  }

  lemma {:induction false} ForeignKeyStatementsLength(ts: seq<Table>, n: nat, newGuid: (nat, nat) -> GuidText)
    requires n <= |ts|
    ensures |ForeignKeyStatements(ts, n, newGuid)| == KeyCount(ts, n)
  {
    if n > 0 {
      ForeignKeyStatementsLength(ts, n - 1, newGuid);
    }
  }

  lemma {:induction false} IndexStatementsLength(ts: seq<Table>, n: nat)
    requires n <= |ts|
    ensures |IndexStatements(ts, n)| == IndexCount(ts, n)
  {
    if n > 0 {
      IndexStatementsLength(ts, n - 1);
    }
  }

  lemma AppendAt<T>(a: seq<T>, b: seq<T>, i: nat)
    requires i < |a + b|
    ensures (a + b)[i] == if i < |a| then a[i] else b[i - |a|]
  {
  }

  /** Foreign keys come table by table: the `k`-th key of table `a` sits right
      after the keys of the tables before it, with the GUID drawn for `(a, k)`. */
  lemma {:induction false} ForeignKeyStatementsAt(ts: seq<Table>, n: nat, newGuid: (nat, nat) -> GuidText, a: nat, k: nat)
    requires a < n <= |ts| && k < |ts[a].foreignKeys|
    ensures KeyCount(ts, a) + k < |ForeignKeyStatements(ts, n, newGuid)|
    ensures ForeignKeyStatements(ts, n, newGuid)[KeyCount(ts, a) + k]
      == AddForeignKey(ts[a], ts[a].foreignKeys[k], newGuid(a, k))
  {
    var before := ForeignKeyStatements(ts, n - 1, newGuid);
    var keys := KeyStatements(ts[n - 1], n - 1, |ts[n - 1].foreignKeys|, newGuid);
    ForeignKeyStatementsLength(ts, n - 1, newGuid);
    KeyCountMonotone(ts, a, n);
    if a < n - 1 {
      KeyCountMonotone(ts, a, n - 1);
      ForeignKeyStatementsAt(ts, n - 1, newGuid, a, k);
    } else {
      KeyStatementsAt(ts[a], a, |ts[a].foreignKeys|, newGuid, k);
    }
    AppendAt(before, keys, KeyCount(ts, a) + k);
  }

  /** Indexes come table by table, in each table's order. */
  lemma {:induction false} IndexStatementsAt(ts: seq<Table>, n: nat, a: nat, k: nat)
    requires a < n <= |ts| && k < |ts[a].indexes|
    ensures IndexCount(ts, a) + k < |IndexStatements(ts, n)|
    ensures IndexStatements(ts, n)[IndexCount(ts, a) + k] == CreateIndex(ts[a], ts[a].indexes[k])
  {
    var before := IndexStatements(ts, n - 1);
    var block := IndexStatementsOf(ts[n - 1], |ts[n - 1].indexes|);
    IndexStatementsLength(ts, n - 1);
    IndexCountMonotone(ts, a, n);
    if a < n - 1 {
      IndexCountMonotone(ts, a, n - 1);
      IndexStatementsAt(ts, n - 1, a, k);
    } else {
      IndexStatementsOfAt(ts[a], |ts[a].indexes|, k);
    }
    AppendAt(before, block, IndexCount(ts, a) + k);
  }

  /** The plan is as long as its guards, tables, keys and indexes together. */
  lemma PlanLength(p: Project, env: Environment)
    ensures |Plan(p, env)| == |SchemaStatements(ProjectSchemas(p))| + |p.tables| + KeyCount(p.tables, |p.tables|) + IndexCount(p.tables, |p.tables|)
  {
    ForeignKeyStatementsLength(p.tables, |p.tables|, env.newGuid);
    IndexStatementsLength(p.tables, |p.tables|);
  }

  /** After the schema guards, the plan creates the tables in project order. */
  lemma PlanTableAt(p: Project, env: Environment, i: nat)
    requires i < |p.tables|
    ensures var g := |SchemaStatements(ProjectSchemas(p))|;
            g + i < |Plan(p, env)|
            && Plan(p, env)[g + i] == CreateTable(p.tables[i])
  {
    var ts := p.tables;
    TableStatementsAt(ts, |ts|, i);
    SecondPartAt(Plan(p, env), SchemaStatements(ProjectSchemas(p)), TableStatements(ts, |ts|),
                 ForeignKeyStatements(ts, |ts|, env.newGuid), IndexStatements(ts, |ts|), i);
  }

  /** After the tables, the plan adds the foreign keys table by table, each
      table's keys in order, each with the GUID drawn for it. */
  lemma PlanForeignKeyAt(p: Project, env: Environment, a: nat, k: nat)
    requires a < |p.tables| && k < |p.tables[a].foreignKeys|
    ensures var ts := p.tables;
            var at := |SchemaStatements(ProjectSchemas(p))| + |ts| + KeyCount(ts, a) + k;
            at < |Plan(p, env)|
            && Plan(p, env)[at] == AddForeignKey(ts[a], ts[a].foreignKeys[k], env.newGuid(a, k))
  {
    var ts := p.tables;
    var g, b, c, d := SchemaStatements(ProjectSchemas(p)), TableStatements(ts, |ts|),
                      ForeignKeyStatements(ts, |ts|, env.newGuid), IndexStatements(ts, |ts|);
    var j := KeyCount(ts, a) + k;
    assert |g| + |b| + j == |g| + |ts| + KeyCount(ts, a) + k;
    ForeignKeyStatementsAt(ts, |ts|, env.newGuid, a, k);
    ThirdPartAt(Plan(p, env), g, b, c, d, j);
  }

  /** Last, the plan creates the indexes table by table, each table's
      indexes in order. */
  lemma PlanIndexAt(p: Project, env: Environment, a: nat, k: nat)
    requires a < |p.tables| && k < |p.tables[a].indexes|
    ensures var ts := p.tables;
            var at := |SchemaStatements(ProjectSchemas(p))| + |ts| + KeyCount(ts, |ts|) + IndexCount(ts, a) + k;
            at < |Plan(p, env)|
            && Plan(p, env)[at] == CreateIndex(ts[a], ts[a].indexes[k])
  {
    var ts := p.tables;
    var g, b, c, d := SchemaStatements(ProjectSchemas(p)), TableStatements(ts, |ts|),
                      ForeignKeyStatements(ts, |ts|, env.newGuid), IndexStatements(ts, |ts|);
    var j := IndexCount(ts, a) + k;
    ForeignKeyStatementsLength(ts, |ts|, env.newGuid);
    assert |g| + |b| + |c| + j == |g| + |ts| + KeyCount(ts, |ts|) + IndexCount(ts, a) + k;
    IndexStatementsAt(ts, |ts|, a, k);
    FourthPartAt(Plan(p, env), g, b, c, d, j);
  }

  // ---------------------------------------------------------------------------
  // Schema guards
  // ---------------------------------------------------------------------------

  /** No two statements guard schemas equal ignoring case. */
  predicate DistinctGuards(r: seq<Action>) {
    forall i, j :: 0 <= i < j < |r| ==>
      r[i].SchemaGuard? && r[j].SchemaGuard?
      && !EqualsIgnoreCase(r[i].schema, r[j].schema)
  }

  lemma SchemaStatementsUniqueStep(schemas: seq<string>)
    requires schemas != [] && NoDuplicatesIgnoreCase(schemas)
    requires DistinctGuards(SchemaStatements(schemas[..|schemas| - 1]))
    ensures DistinctGuards(SchemaStatements(schemas))
  {
    var init := schemas[..|schemas| - 1];
    var last := schemas[|schemas| - 1];
    SchemaStatementsSpec(init);
    var d := SchemaStatements(init);
    var r := SchemaStatements(schemas);
    if !IsDbo(last) {
      assert r == d + [SchemaGuard(last)];
      forall i, j | 0 <= i < j < |r|
        ensures r[i].SchemaGuard? && r[j].SchemaGuard?
                && !EqualsIgnoreCase(r[i].schema, r[j].schema)
      {
        if j == |d| {
          var x := d[i].schema;
          var m :| 0 <= m < |init| && init[m] == x;
          assert schemas[m] == x && schemas[|schemas| - 1] == last;
        } else {
          assert r[i] == d[i] && r[j] == d[j];
        }
      }
    } else {
      assert r == d + [];
    }
  }

  lemma NoDuplicatesPrefix(schemas: seq<string>)
    requires schemas != [] && NoDuplicatesIgnoreCase(schemas)
    ensures NoDuplicatesIgnoreCase(schemas[..|schemas| - 1])
  {
    var init := schemas[..|schemas| - 1];
    forall i, j | 0 <= i < j < |init| ensures !EqualsIgnoreCase(init[i], init[j]) {
      assert init[i] == schemas[i] && init[j] == schemas[j];
    }
  }

  /** Guards are taken from the listed schemas in order, so a list without
      two names equal ignoring case gives guards without such a pair. */
  lemma {:induction false} SchemaStatementsUnique(schemas: seq<string>)
    requires NoDuplicatesIgnoreCase(schemas)
    ensures DistinctGuards(SchemaStatements(schemas))
  {
    if schemas != [] {
      NoDuplicatesPrefix(schemas);
      SchemaStatementsUnique(schemas[..|schemas| - 1]);
      SchemaStatementsUniqueStep(schemas);
    }
  }

  /** The plan opens with the schema guards. */
  lemma PlanGuardAt(p: Project, env: Environment, i: nat)
    requires i < |SchemaStatements(ProjectSchemas(p))|
    ensures i < |Plan(p, env)| && Plan(p, env)[i] == SchemaStatements(ProjectSchemas(p))[i]
  {
    var ts := p.tables;
    FirstPartAt(Plan(p, env), SchemaStatements(ProjectSchemas(p)), TableStatements(ts, |ts|),
                ForeignKeyStatements(ts, |ts|, env.newGuid), IndexStatements(ts, |ts|), i);
  }

  /** Each guard guards the schema of some table, and that schema is not `dbo`. */
  lemma GuardFromTable(p: Project, i: nat)
    requires i < |SchemaStatements(ProjectSchemas(p))|
    ensures var s := SchemaStatements(ProjectSchemas(p))[i];
            s.SchemaGuard? && !IsDbo(s.schema)
            && exists a :: 0 <= a < |p.tables| && p.tables[a].schema == s.schema
  {
    var names := TableSchemas(p.tables);
    var schemas := ProjectSchemas(p);
    var s := SchemaStatements(schemas)[i];
    SchemaStatementsSpec(schemas);
    DistinctFromInput(names);
    var m :| 0 <= m < |schemas| && schemas[m] == s.schema;
    var a :| 0 <= a < |names| && names[a] == schemas[m];
    assert p.tables[a].schema == names[a];
  }

  /** Text equal to `dbo` ignoring case makes every text equal to it
      ignoring case `dbo` too. */
  lemma DboIgnoreCase(x: string, y: string)
    requires EqualsIgnoreCase(x, y) && IsDbo(x)
    ensures IsDbo(y)
  {
  }

  /** Every table outside `dbo` has its schema guarded, ignoring case. */
  lemma TableSchemaGuarded(p: Project, a: nat)
    requires a < |p.tables| && !IsDbo(p.tables[a].schema)
    ensures var guards := SchemaStatements(ProjectSchemas(p));
            exists i :: 0 <= i < |guards| && guards[i].SchemaGuard?
                        && EqualsIgnoreCase(guards[i].schema, p.tables[a].schema)
  {
    var names := TableSchemas(p.tables);
    var schemas := ProjectSchemas(p);
    var guards := SchemaStatements(schemas);
    DistinctCovers(names);
    SchemaStatementsSpec(schemas);
    assert names[a] == p.tables[a].schema;
    var j :| 0 <= j < |schemas| && EqualsIgnoreCase(schemas[j], names[a]);
    if IsDbo(schemas[j]) {
      DboIgnoreCase(schemas[j], names[a]);
    }
    var s := SchemaGuard(schemas[j]);
    var i :| 0 <= i < |guards| && guards[i] == s;
  }

  /** No schema is guarded twice, ignoring case. */
  lemma GuardsDistinct(p: Project)
    ensures DistinctGuards(SchemaStatements(ProjectSchemas(p)))
  {
    DistinctUnique(TableSchemas(p.tables));
    SchemaStatementsUnique(ProjectSchemas(p));
  }
}
