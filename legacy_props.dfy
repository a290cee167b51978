/**
 * What the older migration list promises: the create-only migrations can
 * run again, the column-adding ones cannot, migration 5 leaves neither
 * superseded table and its `down` brings them back, migration 6 leaves both
 * FTS tables in step with their sources and fed by triggers (and needs the
 * hierarchical observation columns to exist), and migration 8 repairs what
 * it can, touches nothing else, settles after one run and reports exactly
 * the FTS tables that are missing or out of step.
 */
module LegacyProps {
  import opened Wrappers
  import opened Text
  import opened Schema
  import opened LegacyMigrations
  import MigrationRunner

  // ------------------------------------------------------------- 001, 003, 004

  lemma Up001CreatesOnly()
    ensures CreatesOnly(Up001())
  {
  }

  /** Migration 1 runs again without failing and without changing anything. */
  lemma Up001Idempotent(d: Db)
    requires ExecAll(d, Up001()).ok
    ensures var d1 := ExecAll(d, Up001()).db; ExecAll(d1, Up001()) == Outcome(d1, true)
  {
    Up001CreatesOnly();
    CreatesOnlyIdempotent(d, Up001());
  }

  lemma Up003CreatesOnly()
    ensures CreatesOnly(Up003())
  {
  }

  /** Migration 3 runs again without failing and without changing anything. */
  lemma Up003Idempotent(d: Db)
    requires ExecAll(d, Up003()).ok
    ensures var d1 := ExecAll(d, Up003()).db; ExecAll(d1, Up003()) == Outcome(d1, true)
  {
    Up003CreatesOnly();
    CreatesOnlyIdempotent(d, Up003());
  }

  lemma Up004CreatesOnly()
    ensures CreatesOnly(Up004())
  {
  }

  /** Migration 4 runs again without failing and without changing anything. */
  lemma Up004Idempotent(d: Db)
    requires ExecAll(d, Up004()).ok
    ensures var d1 := ExecAll(d, Up004()).db; ExecAll(d1, Up004()) == Outcome(d1, true)
  {
    Up004CreatesOnly();
    CreatesOnlyIdempotent(d, Up004());
  }

  // ------------------------------------------------------------- 002, 007

  /** Index creation leaves every table and FTS table as it was. */
  lemma {:induction false} IndexesKeepTables(d: Db, stmts: seq<Stmt>)
    requires forall i :: 0 <= i < |stmts| ==> stmts[i].CreateIndex?
    ensures ExecAll(d, stmts).db.tables == d.tables && ExecAll(d, stmts).db.fts == d.fts
    decreases |stmts|
  {
    if stmts != [] && Exec(d, stmts[0]).Ok? {
      IndexesKeepTables(Exec(d, stmts[0]).value, stmts[1..]);
    }
  }

  /**
   * Migration 2 is not re-runnable: once it has succeeded the five
   * hierarchical columns exist on `memories`, and a second run fails on the
   * first of them.
   */
  lemma Up002NotRerunnable(d: Db)
    requires ExecAll(d, Up002()).ok
    ensures var d1 := ExecAll(d, Up002()).db;
      (forall i :: 0 <= i < |MemoryHierarchyColumns| ==> HasColumn(d1, "memories", MemoryHierarchyColumns[i]))
      && ExecAll(d1, Up002()) == Outcome(d1, false)
  {
    var adds := HierarchyColumns002();
    var ix := IndexesOn("memories", [IndexDef("idx_memories_title", ["title"]),
        IndexDef("idx_memories_concepts", ["concepts"])], true);
    assert Up002() == adds + ix;
    ColumnsThenIndexes(d, adds, ix);
    HierarchyAdded(d);
    var da := ExecAll(d, adds).db;
    var d1 := ExecAll(d, Up002()).db;
    assert d1.tables == da.tables;
    forall i | 0 <= i < |MemoryHierarchyColumns|
      ensures HasColumn(d1, "memories", MemoryHierarchyColumns[i])
    {
      assert HasColumn(da, "memories", MemoryHierarchyColumns[i]);
    }
    assert HasColumn(d1, "memories", MemoryHierarchyColumns[0]);
    SecondUp002Fails(d1);
  }

  /** After a successful run of column additions then index creations, the tables are as the additions left them. */
  lemma ColumnsThenIndexes(d: Db, adds: seq<Stmt>, ix: seq<Stmt>)
    requires forall i :: 0 <= i < |ix| ==> ix[i].CreateIndex?
    requires ExecAll(d, adds + ix).ok
    ensures ExecAll(d, adds).ok && ExecAll(d, adds + ix).db.tables == ExecAll(d, adds).db.tables
  {
    ExecAllAppend(d, adds, ix);
    IndexesKeepTables(ExecAll(d, adds).db, ix);
  }

  lemma HierarchyAdded(d: Db)
    requires ExecAll(d, HierarchyColumns002()).ok
    ensures forall i :: 0 <= i < |MemoryHierarchyColumns| ==>
      HasColumn(ExecAll(d, HierarchyColumns002()).db, "memories", MemoryHierarchyColumns[i])
  {
    HierarchyStmts();
    ColumnsAdded(d, HierarchyColumns002(), "memories", MemoryHierarchyColumns);
  }

  /** The statements of migration 2's first batch add the hierarchical columns to `memories`, in order. */
  lemma HierarchyStmts()
    ensures var adds := HierarchyColumns002();
      |adds| == |MemoryHierarchyColumns|
      && forall i :: 0 <= i < |adds| ==>
           adds[i].AddColumn? && adds[i].table == "memories" && adds[i].column.name == MemoryHierarchyColumns[i]
  {
  }

  /** A successful run of column additions leaves each named column on its table. */
  lemma ColumnsAdded(d: Db, stmts: seq<Stmt>, table: string, names: seq<string>)
    requires |stmts| == |names|
    requires forall i :: 0 <= i < |stmts| ==> stmts[i].AddColumn? && stmts[i].table == table && stmts[i].column.name == names[i]
    requires ExecAll(d, stmts).ok
    ensures forall i :: 0 <= i < |names| ==> HasColumn(ExecAll(d, stmts).db, table, names[i])
  {
    AddColumnsEffect(d, stmts);
  }

  lemma SecondUp002Fails(d: Db)
    requires HasColumn(d, "memories", "title")
    ensures ExecAll(d, Up002()) == Outcome(d, false)
  {
    assert Up002()[0] == AddColumn("memories", Plain("title"));
  }

  /**
   * Migration 7 on tables without `discovery_tokens` succeeds, and every
   * row already there reads the column's default, 0.
   */
  lemma Up007Defaults(d: Db)
    requires "observations" in d.tables && "session_summaries" in d.tables
    requires !HasColumn(d, "observations", "discovery_tokens") && !HasColumn(d, "session_summaries", "discovery_tokens")
    ensures var o := ExecAll(d, Up007());
      o.ok && o.db.tables.Keys == d.tables.Keys
      && HasColumn(o.db, "observations", "discovery_tokens") && HasColumn(o.db, "session_summaries", "discovery_tokens")
      && |o.db.tables["observations"].rows| == |d.tables["observations"].rows|
      && (forall k :: 0 <= k < |o.db.tables["observations"].rows| ==>
            o.db.tables["observations"].rows[k] == d.tables["observations"].rows[k]["discovery_tokens" := Int(0)])
      && |o.db.tables["session_summaries"].rows| == |d.tables["session_summaries"].rows|
      && (forall k :: 0 <= k < |o.db.tables["session_summaries"].rows| ==>
            o.db.tables["session_summaries"].rows[k] == d.tables["session_summaries"].rows[k]["discovery_tokens" := Int(0)])
  {
    var col := Column("discovery_tokens", false, false, None, Int(0));
    assert Exec(d, AddColumn("observations", col)).Ok?;
    AddColumnStep(d, "observations", col);
    var d1 := Exec(d, AddColumn("observations", col)).value;
    assert d1.tables["session_summaries"] == d.tables["session_summaries"];
    assert Exec(d1, AddColumn("session_summaries", col)).Ok?;
    AddColumnStep(d1, "session_summaries", col);
    var d2 := Exec(d1, AddColumn("session_summaries", col)).value;
    assert ExecAll(d, Up007()) == ExecAll(d1, Up007()[1..]);
    assert ExecAll(d1, Up007()[1..]) == Outcome(d2, true);
    assert d2.tables["observations"] == d1.tables["observations"];
  }

  /** Migration 7 is not re-runnable: a second run fails on the column the first added. */
  lemma Up007NotRerunnable(d: Db)
    requires ExecAll(d, Up007()).ok
    ensures var d1 := ExecAll(d, Up007()).db;
      HasColumn(d1, "observations", "discovery_tokens") && HasColumn(d1, "session_summaries", "discovery_tokens")
      && ExecAll(d1, Up007()) == Outcome(d1, false)
  {
    AddColumnsEffect(d, Up007());
    var d1 := ExecAll(d, Up007()).db;
    assert HasColumn(d1, Up007()[0].table, Up007()[0].column.name);
    assert HasColumn(d1, Up007()[1].table, Up007()[1].column.name);
    assert Exec(d1, Up007()[0]).Err?;
  }

  // ------------------------------------------------------------- 005

  /** Migration 5 never fails, and afterwards neither superseded table exists; every other table stays. */
  lemma Up005Drops(d: Db)
    requires Wf(d)
    ensures var o := ExecAll(d, Up005());
      o.ok && !Exists(o.db, "streaming_sessions") && !Exists(o.db, "observation_queue")
      && (forall n :: n in d.tables && n != "streaming_sessions" && n != "observation_queue" ==>
            n in o.db.tables && o.db.tables[n] == d.tables[n])
  {
    var d1 := Exec(d, DropTable("streaming_sessions", true)).value;
    assert !Exists(d1, "streaming_sessions");
    assert ExecAll(d, Up005()) == ExecAll(d1, Up005()[1..]);
    assert "observation_queue" in d1.tables ==> "observation_queue" !in d1.fts;
    var d2 := Exec(d1, DropTable("observation_queue", true)).value;
    assert ExecAll(d1, Up005()[1..]) == Outcome(d2, true);
  }

  /** Migration 5's `down` after its `up` brings back both tables, empty and with their original columns. */
  lemma Down005Restores(d: Db)
    requires Wf(d)
    ensures var o := ExecAll(ExecAll(d, Up005()).db, Down005());
      o.ok && "streaming_sessions" in o.db.tables && "observation_queue" in o.db.tables
      && o.db.tables["streaming_sessions"] == Table(StreamingSessionsColumns, [])
      && o.db.tables["observation_queue"] == Table(ObservationQueueColumns, [])
  {
    Up005Drops(d);
    var d1 := ExecAll(d, Up005()).db;
    var d2 := Exec(d1, Down005()[0]).value;
    assert ExecAll(d1, Down005()) == ExecAll(d2, Down005()[1..]);
    assert !Exists(d2, "observation_queue");
  }

  // ------------------------------------------------------------- 006

  /** An FTS table in step with its source, with all three triggers feeding it. */
  predicate Searchable(d: Db, fts: string, source: string)
  {
    InSync(d, fts) && d.fts[fts].source == source
    && Fires(d, source, fts, OnInsert) && Fires(d, source, fts, OnDelete) && Fires(d, source, fts, OnUpdate)
  }

  /** What an FTS setup needs: a new name, the source with every column, new trigger names. */
  predicate SetupReady(d: Db, fts: string, source: string, cols: seq<string>, ai: string, ad: string, au: string)
  {
    !Exists(d, fts) && source in d.tables
    && (forall i :: 0 <= i < |cols| ==> cols[i] in Names(d.tables[source].columns))
    && ai !in d.triggers && ad !in d.triggers && au !in d.triggers && ai != ad && ai != au && ad != au
  }

  lemma FtsFill(d: Db, fts: string, source: string, cols: seq<string>)
    requires !Exists(d, fts) && source in d.tables
    requires forall i :: 0 <= i < |cols| ==> cols[i] in Names(d.tables[source].columns)
    ensures ExecAll(d, [CreateFts(fts, source, cols, true), PopulateFts(fts)])
      == Outcome(d.(fts := d.fts[fts := Fts(source, cols, MirrorAll(d.tables[source].rows, cols))]), true)
  {
    var d1 := d.(fts := d.fts[fts := Fts(source, cols, [])]);
    assert Exec(d, CreateFts(fts, source, cols, true)) == Ok(d1);
    assert [] + MirrorAll(d.tables[source].rows, cols) == MirrorAll(d.tables[source].rows, cols);
    assert Exec(d1, PopulateFts(fts)).Ok?;
  }

  lemma TriggersAdded(d: Db, fts: string, source: string, ai: string, ad: string, au: string)
    requires source in d.tables
    requires ai !in d.triggers && ad !in d.triggers && au !in d.triggers && ai != ad && ai != au && ad != au
    ensures ExecAll(d, [CreateTrigger(ai, Trigger(source, fts, OnInsert), true),
                        CreateTrigger(ad, Trigger(source, fts, OnDelete), true),
                        CreateTrigger(au, Trigger(source, fts, OnUpdate), true)])
      == Outcome(d.(triggers := d.triggers[ai := Trigger(source, fts, OnInsert)][ad := Trigger(source, fts, OnDelete)]
                                          [au := Trigger(source, fts, OnUpdate)]), true)
  {
    var s := [CreateTrigger(ai, Trigger(source, fts, OnInsert), true),
              CreateTrigger(ad, Trigger(source, fts, OnDelete), true),
              CreateTrigger(au, Trigger(source, fts, OnUpdate), true)];
    var d1 := d.(triggers := d.triggers[ai := Trigger(source, fts, OnInsert)]);
    var d2 := d1.(triggers := d1.triggers[ad := Trigger(source, fts, OnDelete)]);
    assert Exec(d, s[0]) == Ok(d1);
    assert Exec(d1, s[1]) == Ok(d2);
    assert ExecAll(d, s) == ExecAll(d1, s[1..]);
    assert ExecAll(d1, s[1..]) == ExecAll(d2, s[2..]);
  }

  /**
   * On a ready database the setup succeeds: the FTS table holds exactly the
   * mirrors of the source's rows and every trigger is in place; nothing
   * that existed changes.
   */
  lemma FtsSetupEffect(d: Db, fts: string, source: string, cols: seq<string>, ai: string, ad: string, au: string)
    requires SetupReady(d, fts, source, cols, ai, ad, au)
    ensures var o := ExecAll(d, FtsSetup(fts, source, cols, ai, ad, au));
      o.ok && Searchable(o.db, fts, source) && o.db.fts[fts].columns == cols
      && o.db.tables == d.tables && o.db.indexes == d.indexes
      && o.db.fts.Keys == d.fts.Keys + {fts}
      && (forall f :: f in d.fts ==> o.db.fts[f] == d.fts[f])
      && o.db.triggers.Keys == d.triggers.Keys + {ai, ad, au}
      && (forall n :: n in d.triggers ==> o.db.triggers[n] == d.triggers[n])
  {
    SetupOutcome(d, fts, source, cols, ai, ad, au);
    SetupDbFacts(d, fts, source, cols, ai, ad, au);
  }

  /** The database an FTS setup leaves: the filled FTS table and the three triggers added. */
  function SetupDb(d: Db, fts: string, source: string, cols: seq<string>, ai: string, ad: string, au: string): Db
    requires source in d.tables
  {
    d.(fts := d.fts[fts := Fts(source, cols, MirrorAll(d.tables[source].rows, cols))],
       triggers := d.triggers[ai := Trigger(source, fts, OnInsert)][ad := Trigger(source, fts, OnDelete)]
                             [au := Trigger(source, fts, OnUpdate)])
  }

  lemma SetupOutcome(d: Db, fts: string, source: string, cols: seq<string>, ai: string, ad: string, au: string)
    requires SetupReady(d, fts, source, cols, ai, ad, au)
    ensures ExecAll(d, FtsSetup(fts, source, cols, ai, ad, au)) == Outcome(SetupDb(d, fts, source, cols, ai, ad, au), true)
  {
    var a := [CreateFts(fts, source, cols, true), PopulateFts(fts)];
    var b := [CreateTrigger(ai, Trigger(source, fts, OnInsert), true),
              CreateTrigger(ad, Trigger(source, fts, OnDelete), true),
              CreateTrigger(au, Trigger(source, fts, OnUpdate), true)];
    assert FtsSetup(fts, source, cols, ai, ad, au) == a + b;
    ExecAllAppend(d, a, b);
    FtsFill(d, fts, source, cols);
    TriggersAdded(ExecAll(d, a).db, fts, source, ai, ad, au);
  }

  lemma SetupDbFacts(d: Db, fts: string, source: string, cols: seq<string>, ai: string, ad: string, au: string)
    requires SetupReady(d, fts, source, cols, ai, ad, au)
    ensures var d2 := SetupDb(d, fts, source, cols, ai, ad, au);
      Searchable(d2, fts, source) && d2.fts[fts].columns == cols
      && d2.tables == d.tables && d2.indexes == d.indexes
      && d2.fts.Keys == d.fts.Keys + {fts}
      && (forall f :: f in d.fts ==> d2.fts[f] == d.fts[f])
      && d2.triggers.Keys == d.triggers.Keys + {ai, ad, au}
      && (forall n :: n in d.triggers ==> d2.triggers[n] == d.triggers[n])
  {
    var d2 := SetupDb(d, fts, source, cols, ai, ad, au);
    assert d2.triggers[ai] == Trigger(source, fts, OnInsert);
    assert d2.triggers[ad] == Trigger(source, fts, OnDelete);
    assert d2.triggers[au] == Trigger(source, fts, OnUpdate);
  }

  /** What migration 6 needs: both FTS names new, both sources with every column, all six trigger names new. */
  predicate Ready006(d: Db)
  {
    SetupReady(d, "observations_fts", "observations", ObservationFtsColumns,
      "observations_ai", "observations_ad", "observations_au")
    && SetupReady(d, "session_summaries_fts", "session_summaries", SummaryFtsColumns,
      "session_summaries_ai", "session_summaries_ad", "session_summaries_au")
  }

  /** On a ready database migration 6 succeeds and both FTS tables are searchable; no table or index changes. */
  lemma Up006Effect(d: Db)
    requires Ready006(d)
    ensures var o := ExecAll(d, Up006());
      o.ok && Searchable(o.db, "observations_fts", "observations")
      && Searchable(o.db, "session_summaries_fts", "session_summaries")
      && o.db.tables == d.tables && o.db.indexes == d.indexes
      && o.db.fts.Keys == d.fts.Keys + {"observations_fts", "session_summaries_fts"}
  {
    Up006NamesDistinct();
    TwoSetups(d, "observations_fts", "observations", ObservationFtsColumns,
      "observations_ai", "observations_ad", "observations_au",
      "session_summaries_fts", "session_summaries", SummaryFtsColumns,
      "session_summaries_ai", "session_summaries_ad", "session_summaries_au");
  }

  /** Two FTS setups in a row over distinct names: both tables end up searchable, nothing else changes but the FTS names. */
  lemma TwoSetups(d: Db, f1: string, s1: string, c1: seq<string>, ai1: string, ad1: string, au1: string,
                  f2: string, s2: string, c2: seq<string>, ai2: string, ad2: string, au2: string)
    requires SetupReady(d, f1, s1, c1, ai1, ad1, au1) && SetupReady(d, f2, s2, c2, ai2, ad2, au2)
    requires f2 != f1
    requires ai2 !in {ai1, ad1, au1} && ad2 !in {ai1, ad1, au1} && au2 !in {ai1, ad1, au1}
    ensures var o := ExecAll(d, FtsSetup(f1, s1, c1, ai1, ad1, au1) + FtsSetup(f2, s2, c2, ai2, ad2, au2));
      o.ok && Searchable(o.db, f1, s1) && Searchable(o.db, f2, s2)
      && o.db.tables == d.tables && o.db.indexes == d.indexes
      && o.db.fts.Keys == d.fts.Keys + {f1, f2}
  {
    var a := FtsSetup(f1, s1, c1, ai1, ad1, au1);
    var b := FtsSetup(f2, s2, c2, ai2, ad2, au2);
    ExecAllAppend(d, a, b);
    SetupOutcome(d, f1, s1, c1, ai1, ad1, au1);
    SetupDbFacts(d, f1, s1, c1, ai1, ad1, au1);
    var d1 := SetupDb(d, f1, s1, c1, ai1, ad1, au1);
    ReadyKept(d, d1, f2, s2, c2, ai2, ad2, au2);
    SetupOutcome(d1, f2, s2, c2, ai2, ad2, au2);
    SetupDbFacts(d1, f2, s2, c2, ai2, ad2, au2);
    SearchableKept(d1, SetupDb(d1, f2, s2, c2, ai2, ad2, au2), f1, s1);
  }

  /** The names the second setup of migration 6 uses differ from those of the first. */
  lemma Up006NamesDistinct()
    ensures "session_summaries_fts" != "observations_fts"
    ensures "session_summaries_ai" !in {"observations_ai", "observations_ad", "observations_au"}
    ensures "session_summaries_ad" !in {"observations_ai", "observations_ad", "observations_au"}
    ensures "session_summaries_au" !in {"observations_ai", "observations_ad", "observations_au"}
  {
    assert |"session_summaries_fts"| == 21 && |"observations_fts"| == 16;
    assert |"session_summaries_ai"| == 20 && |"observations_ai"| == 15;
  }

  /** A setup stays ready while the tables stay and its names stay free. */
  lemma ReadyKept(d: Db, d1: Db, fts: string, source: string, cols: seq<string>, ai: string, ad: string, au: string)
    requires SetupReady(d, fts, source, cols, ai, ad, au)
    requires d1.tables == d.tables && fts !in d1.fts
    requires ai !in d1.triggers && ad !in d1.triggers && au !in d1.triggers
    ensures SetupReady(d1, fts, source, cols, ai, ad, au)
  {
  }

  /** An FTS table stays searchable while its table, its own entry and every existing trigger stay. */
  lemma SearchableKept(d: Db, d2: Db, f: string, source: string)
    requires Searchable(d, f, source)
    requires d2.tables == d.tables && f in d2.fts && d2.fts[f] == d.fts[f]
    requires forall n :: n in d.triggers ==> n in d2.triggers && d2.triggers[n] == d.triggers[n]
    ensures Searchable(d2, f, source)
  {
    var ai :| ai in d.triggers && d.triggers[ai] == Trigger(source, f, OnInsert);
    var ad :| ad in d.triggers && d.triggers[ad] == Trigger(source, f, OnDelete);
    var au :| au in d.triggers && d.triggers[au] == Trigger(source, f, OnUpdate);
    assert d2.triggers[ai] == Trigger(source, f, OnInsert);
    assert d2.triggers[ad] == Trigger(source, f, OnDelete);
    assert d2.triggers[au] == Trigger(source, f, OnUpdate);
  }

  /**
   * Migration 6 reads `narrative` from `observations`: on an `observations`
   * table without it (as migration 4 creates it) the migration fails.
   */
  lemma Up006NeedsHierarchy(d: Db)
    requires "observations" in d.tables && !Exists(d, "observations_fts")
    requires "narrative" !in Names(d.tables["observations"].columns)
    ensures !ExecAll(d, Up006()).ok
  {
    var a := FtsSetup("observations_fts", "observations", ObservationFtsColumns,
      "observations_ai", "observations_ad", "observations_au");
    var b := FtsSetup("session_summaries_fts", "session_summaries", SummaryFtsColumns,
      "session_summaries_ai", "session_summaries_ad", "session_summaries_au");
    ExecAllAppend(d, a, b);
    var d1 := Exec(d, a[0]).value;
    assert ObservationFtsColumns[2] == "narrative";
    assert Exec(d1, a[1]).Err?;
    assert ExecAll(d, a) == ExecAll(d1, a[1..]);
  }

  /** Migration 4's `observations` has no `narrative`, so on it alone migration 6 fails. */
  lemma BaselineObservationsLackNarrative()
    ensures "narrative" !in Names(MigrationRunner.BaselineObservationColumns)
  {
    var ns := Names(MigrationRunner.BaselineObservationColumns);
    assert ns == ["id", "sdk_session_id", "project", "text", "type", "created_at", "created_at_epoch"];
  }

  /** The six triggers migration 6 creates. */
  const Down006Triggers: set<string> := {"observations_ai", "observations_ad", "observations_au",
    "session_summaries_ai", "session_summaries_ad", "session_summaries_au"}

  lemma DropTriggerStep(d: Db, name: string)
    ensures Exec(d, DropTrigger(name)) == Ok(d.(triggers := d.triggers - {name}))
  {
  }

  lemma DropFtsStep(d: Db, name: string)
    requires name !in d.tables
    ensures Exec(d, DropTable(name, true)) == Ok(d.(fts := d.fts - {name}))
  {
    if name !in d.fts {
      assert d.fts - {name} == d.fts;
    }
  }

  /** One table's half of migration 6's `down`: its three triggers, then its FTS table. */
  lemma FtsTeardown(d: Db, au: string, ad: string, ai: string, fts: string)
    requires fts !in d.tables
    ensures ExecAll(d, [DropTrigger(au), DropTrigger(ad), DropTrigger(ai), DropTable(fts, true)])
      == Outcome(d.(triggers := d.triggers - {au, ad, ai}, fts := d.fts - {fts}), true)
  {
    var s := [DropTrigger(au), DropTrigger(ad), DropTrigger(ai), DropTable(fts, true)];
    var d1 := d.(triggers := d.triggers - {au});
    var d2 := d1.(triggers := d1.triggers - {ad});
    var d3 := d2.(triggers := d2.triggers - {ai});
    var d4 := d3.(fts := d3.fts - {fts});
    DropTriggerStep(d, au);
    DropTriggerStep(d1, ad);
    DropTriggerStep(d2, ai);
    DropFtsStep(d3, fts);
    assert ExecAll(d, s) == ExecAll(d1, s[1..]);
    assert ExecAll(d1, s[1..]) == ExecAll(d2, s[2..]);
    assert ExecAll(d2, s[2..]) == ExecAll(d3, s[3..]);
    assert ExecAll(d3, s[3..]) == ExecAll(d4, s[4..]);
    assert d3.triggers == d.triggers - {au, ad, ai};
  }

  /** Migration 6's `down` never fails and leaves neither FTS table nor any of its six triggers; tables stay. */
  lemma Down006Removes(d: Db)
    requires "observations_fts" !in d.tables && "session_summaries_fts" !in d.tables
    ensures var o := ExecAll(d, Down006());
      o.ok && !Exists(o.db, "observations_fts") && !Exists(o.db, "session_summaries_fts")
      && o.db.tables == d.tables && o.db.indexes == d.indexes
      && (forall n :: n in o.db.triggers <==> (n in d.triggers && n !in Down006Triggers))
  {
    var h1 := [DropTrigger("observations_au"), DropTrigger("observations_ad"), DropTrigger("observations_ai"),
               DropTable("observations_fts", true)];
    var h2 := [DropTrigger("session_summaries_au"), DropTrigger("session_summaries_ad"),
               DropTrigger("session_summaries_ai"), DropTable("session_summaries_fts", true)];
    assert Down006() == h1 + h2;
    ExecAllAppend(d, h1, h2);
    FtsTeardown(d, "observations_au", "observations_ad", "observations_ai", "observations_fts");
    var d1 := ExecAll(d, h1).db;
    FtsTeardown(d1, "session_summaries_au", "session_summaries_ad", "session_summaries_ai", "session_summaries_fts");
  }

  // ------------------------------------------------------------- 008

  /**
   * A name the check knows how to recreate, on a table that exists and has
   * every column the statement indexes; otherwise the statement is not run
   * or fails, and the failure is only logged.
   */
  predicate Repairable(d: Db, name: string)
  {
    Owner(name).Some? && Owner(name).value.table in d.tables
    && Covers(d.tables[Owner(name).value.table].columns, Owner(name).value.columns)
  }

  /** Recreating one name adds at most that index, on its owner table; nothing else changes. */
  lemma RecreateOneEffect(d: Db, name: string)
    ensures var d1 := RecreateOne(d, name);
      d1.tables == d.tables && d1.fts == d.fts && d1.triggers == d.triggers
      && (forall n :: n in d.indexes ==> n in d1.indexes && d1.indexes[n] == d.indexes[n])
      && (forall n :: n in d1.indexes ==> n in d.indexes || (n == name && Repairable(d, name)))
      && (Repairable(d, name) ==> name in d1.indexes)
  {
  }

  /**
   * Recreating a list adds at most its names, each when its owner table
   * exists and has the indexed columns; nothing else changes.
   */
  lemma {:induction false} RecreateAllEffect(d: Db, names: seq<string>)
    ensures var d1 := RecreateAll(d, names);
      d1.tables == d.tables && d1.fts == d.fts && d1.triggers == d.triggers
      && (forall n :: n in d.indexes ==> n in d1.indexes && d1.indexes[n] == d.indexes[n])
      && (forall n :: n in d1.indexes ==> n in d.indexes || (n in names && Repairable(d, n)))
      && (forall n :: n in names && Repairable(d, n) ==> n in d1.indexes)
    decreases |names|
  {
    if names != [] {
      RecreateOneEffect(d, names[0]);
      RecreateAllEffect(RecreateOne(d, names[0]), names[1..]);
      assert forall n :: n in names ==> n == names[0] || n in names[1..];
    }
  }

  /**
   * Names that cannot be recreated (no branch knows them, their table is
   * gone, or it lacks an indexed column) leave the database alone.
   */
  lemma {:induction false} RecreateAllNoop(d: Db, names: seq<string>)
    requires forall i :: 0 <= i < |names| ==> names[i] !in d.indexes && !Repairable(d, names[i])
    ensures RecreateAll(d, names) == d
    decreases |names|
  {
    if names != [] {
      assert RecreateOne(d, names[0]) == d;
      RecreateAllNoop(d, names[1..]);
    }
  }

  lemma DiffersAt(s: string, p: string, k: nat)
    requires k < |p| && k < |s| && s[k] != p[k]
    ensures !StartsWith(s, p)
  {
  }

  lemma SessionsOwned(i: nat)
    requires i < 3
    ensures Owner(Expected[i]).Some? && Owner(Expected[i]).value.table == "sessions"
  {
    assert StartsWith(Expected[i], "idx_sessions_");
  }

  lemma MemoriesOwned(i: nat)
    requires 3 <= i < 11
    ensures Owner(Expected[i]).Some? && Owner(Expected[i]).value.table == "memories"
  {
    var n := Expected[i];
    DiffersAt(n, "idx_sessions_", 4);
    assert StartsWith(n, "idx_memories_");
  }

  lemma SdkSessionsOwned(i: nat)
    requires 11 <= i < 16
    ensures Owner(Expected[i]).Some? && Owner(Expected[i]).value.table == "sdk_sessions"
  {
    var n := Expected[i];
    DiffersAt(n, "idx_sessions_", 5);
    DiffersAt(n, "idx_memories_", 4);
    assert StartsWith(n, "idx_sdk_sessions_");
  }

  lemma ObservationsOwned(i: nat)
    requires 16 <= i < 20
    ensures Owner(Expected[i]).Some? && Owner(Expected[i]).value.table == "observations"
  {
    var n := Expected[i];
    DiffersAt(n, "idx_sessions_", 4);
    DiffersAt(n, "idx_memories_", 4);
    DiffersAt(n, "idx_sdk_sessions_", 4);
    assert StartsWith(n, "idx_observations_");
  }

  lemma SummariesOwned(i: nat)
    requires 20 <= i < |Expected|
    ensures Owner(Expected[i]).Some? && Owner(Expected[i]).value.table == "session_summaries"
  {
    var n := Expected[i];
    DiffersAt(n, "idx_sessions_", 11);
    DiffersAt(n, "idx_memories_", 4);
    DiffersAt(n, "idx_sdk_sessions_", 5);
    DiffersAt(n, "idx_observations_", 4);
    assert StartsWith(n, "idx_session_summaries_");
  }

  /** Every expected name has a recreate statement. */
  lemma ExpectedOwned()
    ensures forall i :: 0 <= i < |Expected| ==> Owner(Expected[i]).Some?
  {
    forall i | 0 <= i < |Expected|
      ensures Owner(Expected[i]).Some?
    {
      if i < 3 {
        SessionsOwned(i);
      } else if i < 11 {
        MemoriesOwned(i);
      } else if i < 16 {
        SdkSessionsOwned(i);
      } else if i < 20 {
        ObservationsOwned(i);
      } else {
        SummariesOwned(i);
      }
    }
  }

  /**
   * The health check repairs and touches nothing else: every expected index
   * whose table exists and has the indexed columns is there afterwards, every index that existed is
   * unchanged, the only new ones are expected names, and tables, FTS tables
   * and triggers are untouched.
   */
  lemma HealthCheckRepairs(d: Db)
    ensures var c := HealthCheckSpec(d);
      c.db.tables == d.tables && c.db.fts == d.fts && c.db.triggers == d.triggers
      && (forall n :: n in d.indexes ==> n in c.db.indexes && c.db.indexes[n] == d.indexes[n])
      && (forall n :: n in c.db.indexes ==> n in d.indexes || (n in Expected && Repairable(d, n)))
      && (forall i :: 0 <= i < |Expected| && Repairable(d, Expected[i]) ==> Expected[i] in c.db.indexes)
  {
    RepairAll(d, Expected);
  }

  /** Recreating the missing names of a list: the repair half of the health check. */
  lemma RepairAll(d: Db, names: seq<string>)
    ensures var db := RecreateAll(d, Missing(d.indexes, names));
      db.tables == d.tables && db.fts == d.fts && db.triggers == d.triggers
      && (forall n :: n in d.indexes ==> n in db.indexes && db.indexes[n] == d.indexes[n])
      && (forall n :: n in db.indexes ==> n in d.indexes || (n in names && Repairable(d, n)))
      && (forall i :: 0 <= i < |names| && Repairable(d, names[i]) ==> names[i] in db.indexes)
  {
    var missing := Missing(d.indexes, names);
    RecreateAllEffect(d, missing);
    forall i | 0 <= i < |names| && Repairable(d, names[i])
      ensures names[i] in RecreateAll(d, missing).indexes
    {
      if names[i] !in d.indexes {
        assert names[i] in missing;
      }
    }
  }

  /** Repairing twice is repairing once; the second pass finds exactly the names it cannot repair. */
  lemma RepairTwice(d: Db, names: seq<string>)
    ensures var db := RecreateAll(d, Missing(d.indexes, names));
      RecreateAll(db, Missing(db.indexes, names)) == db
      && (forall n :: n in Missing(db.indexes, names) <==> n in names && n !in d.indexes && !Repairable(d, n))
  {
    RepairAll(d, names);
    var db := RecreateAll(d, Missing(d.indexes, names));
    var m2 := Missing(db.indexes, names);
    forall i | 0 <= i < |m2|
      ensures m2[i] !in db.indexes && !Repairable(db, m2[i])
    {
      assert m2[i] in m2;
      var j :| 0 <= j < |names| && names[j] == m2[i];
    }
    RecreateAllNoop(db, m2);
    RecreateAllEffect(d, Missing(d.indexes, names));
    forall n | n in names && n !in d.indexes && !Repairable(d, n)
      ensures n in m2
    {
      var j :| 0 <= j < |names| && names[j] == n;
    }
  }

  /**
   * A second health check finds only the expected names it cannot
   * repair, changes nothing, and reports the same.
   */
  lemma HealthCheckIdempotent(d: Db)
    ensures var c1 := HealthCheckSpec(d);
      var c2 := HealthCheckSpec(c1.db);
      c2.db == c1.db && c2.warnings == c1.warnings && c2.ok == c1.ok
      && (forall n :: n in c2.missing <==> n in Expected && n !in d.indexes && !Repairable(d, n))
  {
    RepairTwice(d, Expected);
  }

  /**
   * A `memories` table from migration 1 alone has no `title`: the health
   * check finds `idx_memories_title` missing, its `CREATE INDEX` fails on
   * the absent column, and the next check finds it missing again.
   */
  lemma TitleIndexNeedsTitle(d: Db)
    requires "memories" in d.tables && !HasColumn(d, "memories", "title")
    requires "idx_memories_title" !in d.indexes
    ensures var c := HealthCheckSpec(d);
      "idx_memories_title" in c.missing && "idx_memories_title" !in c.db.indexes
      && "idx_memories_title" in HealthCheckSpec(c.db).missing
  {
    var n := "idx_memories_title";
    assert Expected[9] == n;
    MemoriesOwned(9);
    assert Owner(n) == Some(Target("memories", ["title"]));
    assert ["title"][0] !in Names(d.tables["memories"].columns);
    HealthCheckIdempotent(d);
    HealthCheckRepairs(d);
  }

  /** Both counts of an existing expected table can be taken, and they differ. */
  predicate Differs(d: Db, name: string, byEntries: bool)
  {
    Count(d, FtsSource(name)).Some? && Counted(d, name, byEntries).Some?
    && Count(d, FtsSource(name)).value != Counted(d, name, byEntries).value
  }

  /** The FTS phase completes exactly when both counts of every expected table that exists can be taken. */
  lemma {:induction false} FtsCheckOk(d: Db, names: seq<string>, byEntries: bool)
    ensures FtsCheck(d, names, byEntries).ok <==>
      forall i :: 0 <= i < |names| && Exists(d, names[i]) ==>
        Count(d, FtsSource(names[i])).Some? && Counted(d, names[i], byEntries).Some?
    decreases |names|
  {
    if names != [] {
      FtsCheckOk(d, names[1..], byEntries);
      assert forall i :: 0 < i < |names| ==> names[i] == names[1..][i - 1];
    }
  }

  /** What a warning of the FTS phase claims about the database holds. */
  predicate SoundWarning(d: Db, names: seq<string>, byEntries: bool, x: Warning)
  {
    x.name in names && (x.MissingFts? ==> !Exists(d, x.name))
    && (x.OutOfSync? ==>
          Exists(d, x.name) && Counted(d, x.name, byEntries) == Some(x.indexed)
          && Count(d, FtsSource(x.name)) == Some(x.total) && x.indexed != x.total)
  }

  /** Every warning of a completed FTS phase is about an expected name and states what is wrong with it. */
  lemma {:induction false} FtsWarningsSound(d: Db, names: seq<string>, byEntries: bool)
    requires FtsCheck(d, names, byEntries).ok
    ensures forall k :: 0 <= k < |FtsCheck(d, names, byEntries).warnings| ==>
      SoundWarning(d, names, byEntries, FtsCheck(d, names, byEntries).warnings[k])
    decreases |names|
  {
    if names != [] {
      var first := FtsCheckOne(d, names[0], byEntries);
      var rest := FtsCheck(d, names[1..], byEntries);
      FtsWarningsSound(d, names[1..], byEntries);
      var w := first.warnings + rest.warnings;
      assert FtsCheck(d, names, byEntries).warnings == w;
      forall k | 0 <= k < |w| ensures SoundWarning(d, names, byEntries, w[k]) {
        if k >= |first.warnings| {
          var x := rest.warnings[k - |first.warnings|];
          assert w[k] == x;
          assert SoundWarning(d, names[1..], byEntries, x);
          assert x.name in names[1..];
        }
      }
    }
  }

  /** A completed FTS phase names every missing expected table. */
  lemma {:induction false} FtsWarnsMissing(d: Db, names: seq<string>, byEntries: bool)
    requires FtsCheck(d, names, byEntries).ok
    ensures forall i :: 0 <= i < |names| && !Exists(d, names[i]) ==>
      MissingFts(names[i]) in FtsCheck(d, names, byEntries).warnings
    decreases |names|
  {
    if names != [] {
      var first := FtsCheckOne(d, names[0], byEntries);
      var rest := FtsCheck(d, names[1..], byEntries);
      FtsWarnsMissing(d, names[1..], byEntries);
      assert FtsCheck(d, names, byEntries).warnings == first.warnings + rest.warnings;
      forall i | 0 < i < |names| && !Exists(d, names[i])
        ensures MissingFts(names[i]) in rest.warnings
      {
        assert names[i] == names[1..][i - 1];
      }
    }
  }

  /** A completed FTS phase reports every expected table whose count differs from its source's. */
  lemma {:induction false} FtsWarnsOutOfSync(d: Db, names: seq<string>, byEntries: bool)
    requires FtsCheck(d, names, byEntries).ok
    ensures forall i :: 0 <= i < |names| && Exists(d, names[i]) && Differs(d, names[i], byEntries) ==>
      OutOfSync(names[i], Counted(d, names[i], byEntries).value, Count(d, FtsSource(names[i])).value)
        in FtsCheck(d, names, byEntries).warnings
    decreases |names|
  {
    if names != [] {
      var first := FtsCheckOne(d, names[0], byEntries);
      var rest := FtsCheck(d, names[1..], byEntries);
      FtsWarnsOutOfSync(d, names[1..], byEntries);
      assert FtsCheck(d, names, byEntries).warnings == first.warnings + rest.warnings;
      forall i | 0 < i < |names| && Exists(d, names[i]) && Differs(d, names[i], byEntries)
        ensures OutOfSync(names[i], Counted(d, names[i], byEntries).value, Count(d, FtsSource(names[i])).value)
          in rest.warnings
      {
        assert names[i] == names[1..][i - 1];
      }
    }
  }

  /**
   * When the FTS phase completes it warns exactly about the expected tables
   * that are missing and those whose count differs from their source's,
   * with both counts.  Which count that is decides what it can see: see
   * `SyncWarningUnreachable`.
   */
  lemma FtsCheckWarnings(d: Db, names: seq<string>, byEntries: bool)
    requires FtsCheck(d, names, byEntries).ok
    ensures var w := FtsCheck(d, names, byEntries).warnings;
      (forall i :: 0 <= i < |names| ==> (MissingFts(names[i]) in w <==> !Exists(d, names[i])))
      && (forall i :: 0 <= i < |names| && Exists(d, names[i]) && Differs(d, names[i], byEntries) ==>
            OutOfSync(names[i], Counted(d, names[i], byEntries).value, Count(d, FtsSource(names[i])).value) in w)
      && (forall k :: 0 <= k < |w| ==> w[k].name in names && (w[k].MissingFts? ==> !Exists(d, w[k].name)))
      && (forall k :: 0 <= k < |w| && w[k].OutOfSync? ==>
            Exists(d, w[k].name) && Counted(d, w[k].name, byEntries) == Some(w[k].indexed)
            && Count(d, FtsSource(w[k].name)) == Some(w[k].total) && w[k].indexed != w[k].total)
  {
    var w := FtsCheck(d, names, byEntries).warnings;
    FtsWarningsSound(d, names, byEntries);
    FtsWarnsMissing(d, names, byEntries);
    FtsWarnsOutOfSync(d, names, byEntries);
    forall i | 0 <= i < |names| && MissingFts(names[i]) in w
      ensures !Exists(d, names[i])
    {
      var k :| 0 <= k < |w| && w[k] == MissingFts(names[i]);
      assert SoundWarning(d, names, byEntries, w[k]);
    }
    forall k | 0 <= k < |w|
      ensures w[k].name in names && (w[k].MissingFts? ==> !Exists(d, w[k].name))
    {
      assert SoundWarning(d, names, byEntries, w[k]);
    }
  }

  /** Each expected name is an FTS table, if anything, whose content table is the name's stem. */
  predicate ContentIsSource(d: Db, names: seq<string>)
  {
    forall i :: 0 <= i < |names| ==>
      names[i] !in d.tables && (names[i] in d.fts ==> d.fts[names[i]].source == FtsSource(names[i]))
  }

  /**
   * As written, the sync warning never fires: `COUNT(*)` of an FTS table
   * declared with `content=` counts the content table itself, so the two
   * counts the check compares are always the same, however many entries
   * the index has lost.
   */
  lemma {:induction false} SyncWarningUnreachable(d: Db, names: seq<string>)
    requires ContentIsSource(d, names)
    ensures forall k :: 0 <= k < |FtsCheck(d, names, false).warnings| ==>
      FtsCheck(d, names, false).warnings[k].MissingFts?
    decreases |names|
  {
    if names != [] {
      var n := names[0];
      assert n !in d.tables && (n in d.fts ==> d.fts[n].source == FtsSource(n));
      var first := FtsCheckOne(d, n, false);
      assert forall k :: 0 <= k < |first.warnings| ==> first.warnings[k].MissingFts?;
      assert ContentIsSource(d, names[1..]) by {
        forall i | 0 <= i < |names[1..]|
          ensures names[1..][i] !in d.tables
            && (names[1..][i] in d.fts ==> d.fts[names[1..][i]].source == FtsSource(names[1..][i]))
        {
          assert names[1..][i] == names[i + 1];
        }
      }
      SyncWarningUnreachable(d, names[1..]);
    }
  }

  /**
   * Counting the index's own entries catches an FTS table that lost one:
   * with one entry fewer than its source has rows, the corrected check
   * warns and the check as written does not.
   */
  lemma LostEntryCaught(d: Db, f: string)
    requires f == "observations_fts" && f !in d.tables && f in d.fts && d.fts[f].source == "observations"
    requires "observations" in d.tables && |d.fts[f].entries| + 1 == |d.tables["observations"].rows|
    ensures FtsCheckOne(d, f, false) == FtsReport([], true)
    ensures FtsCheckOne(d, f, true) == FtsReport([OutOfSync(f, |d.fts[f].entries|, |d.tables["observations"].rows|)], true)
  {
    ExpectedSources();
  }

  /** `replace('_fts', '')` on a name ending in `_fts` with no earlier `_f` gives the name's stem. */
  lemma SourceOfStem(base: string)
    requires forall j :: 0 <= j < |base| && base[j] == '_' ==> j + 1 < |base| && base[j + 1] != 'f'
    ensures FtsSource(base + "_fts") == base
  {
    var s := base + "_fts";
    forall j | 0 <= j < |base|
      ensures !OccursAt(s, "_fts", j)
    {
      assert s[j] == base[j];
      if j + 1 < |base| {
        assert s[j + 1] == base[j + 1];
      } else {
        assert s[j + 1] == '_';
      }
    }
    assert s[|base|..|base| + 4] == "_fts";
    IndexOfAt(s, "_fts", |base|);
    assert s[..|base|] + s[|base| + 4..] == base;
  }

  /** The count query reads the two source tables. */
  lemma ExpectedSources()
    ensures FtsSource("observations_fts") == "observations"
    ensures FtsSource("session_summaries_fts") == "session_summaries"
  {
    SourceOfStem("observations");
    assert "observations" + "_fts" == "observations_fts";
    SourceOfStem("session_summaries");
    assert "session_summaries" + "_fts" == "session_summaries_fts";
  }

  /** An FTS table in step with its source draws no warning from either count check. */
  lemma InSyncNoWarning(d: Db, f: string, byEntries: bool)
    requires InSync(d, f) && d.fts[f].source == FtsSource(f) && f !in d.tables
    ensures FtsCheckOne(d, f, byEntries) == FtsReport([], true)
  {
    var src := d.tables[FtsSource(f)];
    assert |multiset(d.fts[f].entries)| == |multiset(MirrorAll(src.rows, d.fts[f].columns))|;
  }

  /** With both FTS tables searchable, the FTS phase completes without a warning, whichever count it compares. */
  lemma FtsPhaseClean(db: Db, byEntries: bool)
    requires Searchable(db, "observations_fts", "observations")
    requires Searchable(db, "session_summaries_fts", "session_summaries")
    requires "observations_fts" !in db.tables && "session_summaries_fts" !in db.tables
    ensures FtsCheck(db, ExpectedFts, byEntries) == FtsReport([], true)
  {
    ExpectedSources();
    InSyncNoWarning(db, "observations_fts", byEntries);
    InSyncNoWarning(db, "session_summaries_fts", byEntries);
    assert ExpectedFts[0] == "observations_fts";
    assert ExpectedFts[1..] == ["session_summaries_fts"];
    assert ExpectedFts[1..][1..] == [];
  }

  /**
   * After migration 6 on a ready database the health check's FTS phase
   * completes and reports nothing.
   */
  lemma HealthyAfterUp006(d: Db)
    requires Ready006(d)
    ensures var c := HealthCheckSpec(ExecAll(d, Up006()).db); c.ok && c.warnings == []
  {
    Up006Effect(d);
    var d1 := ExecAll(d, Up006()).db;
    HealthCheckRepairs(d1);
    var db := HealthCheckSpec(d1).db;
    assert InSync(db, "observations_fts") && InSync(db, "session_summaries_fts");
    FtsPhaseClean(db, false);
  }
}
