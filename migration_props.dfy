/**
 * What the migration runner promises: the registry, the ledger it keeps,
 * what a failure leaves behind, the idempotence of a second run and of each
 * self-guarding migration, and what the two table rebuilds do to rows and
 * indexes.
 */
module MigrationProps {
  import opened Wrappers
  import opened Schema
  import opened MigrationRunner

  // ------------------------------------------------------------- the registry

  /** The registry holds exactly the versions 5 to 17, once each, ascending. */
  lemma RegistryShape()
    ensures |Registry()| == 13 && Ascending(Registry())
    ensures forall v :: v in Registry() <==> 5 <= v <= 17
  {
    forall v | 5 <= v <= 17
      ensures v in Registry()
    {
      assert Registry()[v - 5] == v;
    }
  }

  /** Filtering keeps the order. */
  lemma {:induction false} DueAscending(vs: seq<int>, level: int)
    requires Ascending(vs)
    ensures Ascending(Due(vs, level))
    decreases |vs|
  {
    if vs != [] {
      var rest := Due(vs[1..], level);
      DueAscending(vs[1..], level);
      if vs[0] > level {
        forall x | x in rest
          ensures vs[0] < x
        {
          var j :| 0 <= j < |vs[1..]| && vs[1..][j] == x;
          assert vs[j + 1] == x;
        }
        forall i, j | 0 <= i < j < |[vs[0]] + rest|
          ensures ([vs[0]] + rest)[i] < ([vs[0]] + rest)[j]
        {
          assert ([vs[0]] + rest)[j] == rest[j - 1];
          assert rest[j - 1] in rest;
          if i > 0 {
            assert ([vs[0]] + rest)[i] == rest[i - 1];
          }
        }
      }
    }
  }

  /** When every registration is above the level, all of them are due. */
  lemma {:induction false} DueAll(vs: seq<int>, level: int)
    requires forall i :: 0 <= i < |vs| ==> vs[i] > level
    ensures Due(vs, level) == vs
    decreases |vs|
  {
    if vs != [] {
      DueAll(vs[1..], level);
      assert [vs[0]] + vs[1..] == vs;
    }
  }

  // ------------------------------------------------------------- the ledger

  /**
   * The runner records, in order, a prefix of the due versions: all of them
   * when it succeeds, those before the failing one when it does not.
   */
  lemma {:induction false} RunFromLedger(d: Db, versions: seq<int>, vs: seq<int>, level: int, now: string)
      returns (k: nat)
    requires forall i :: 0 <= i < |vs| ==> 5 <= vs[i] <= 17
    requires Ascending(vs)
    requires forall i :: 0 <= i < |vs| && vs[i] > level ==> vs[i] !in versions
    ensures k <= |Due(vs, level)|
    ensures RunFrom(d, versions, vs, level, now).versions == versions + Due(vs, level)[..k]
    ensures RunFrom(d, versions, vs, level, now).ok <==> k == |Due(vs, level)|
    decreases |vs|
  {
    if vs == [] {
      k := 0;
    } else if vs[0] <= level {
      k := RunFromLedger(d, versions, vs[1..], level, now);
    } else {
      var u := Up(vs[0], d, now);
      if !u.ok {
        k := 0;
      } else {
        var v1 := versions + [vs[0]];
        assert RecordVersion(versions, vs[0]) == v1;
        LedgerStaysFresh(versions, vs, level);
        var k1 := RunFromLedger(u.db, v1, vs[1..], level, now);
        k := k1 + 1;
        DuePrefixStep(versions, vs, level, k1);
      }
    }
  }

  /** Recording a due version keeps the later due versions out of the ledger. */
  lemma LedgerStaysFresh(versions: seq<int>, vs: seq<int>, level: int)
    requires vs != [] && Ascending(vs)
    requires forall i :: 0 <= i < |vs| && vs[i] > level ==> vs[i] !in versions
    ensures forall i :: 0 <= i < |vs[1..]| && vs[1..][i] > level ==> vs[1..][i] !in versions + [vs[0]]
  {
    forall i | 0 <= i < |vs[1..]| && vs[1..][i] > level
      ensures vs[1..][i] !in versions + [vs[0]]
    {
      assert vs[1..][i] == vs[i + 1] && vs[0] < vs[i + 1];
    }
  }

  /** A due first version followed by a prefix of the rest is a prefix of all that is due. */
  lemma DuePrefixStep(versions: seq<int>, vs: seq<int>, level: int, k1: nat)
    requires vs != [] && vs[0] > level && k1 <= |Due(vs[1..], level)|
    ensures k1 + 1 <= |Due(vs, level)|
    ensures versions + [vs[0]] + Due(vs[1..], level)[..k1] == versions + Due(vs, level)[..k1 + 1]
    ensures k1 == |Due(vs[1..], level)| <==> k1 + 1 == |Due(vs, level)|
  {
    var rest := Due(vs[1..], level);
    var due := Due(vs, level);
    assert due == [vs[0]] + rest;
    assert due[..k1 + 1] == [vs[0]] + rest[..k1];
  }

  /** Running only the due registrations is the same as running them all. */
  lemma {:induction false} RunFromDue(d: Db, versions: seq<int>, vs: seq<int>, level: int, now: string)
    requires forall i :: 0 <= i < |vs| ==> 5 <= vs[i] <= 17
    ensures forall i :: 0 <= i < |Due(vs, level)| ==> 5 <= Due(vs, level)[i] <= 17
    ensures RunFrom(d, versions, vs, level, now) == RunFrom(d, versions, Due(vs, level), level, now)
    decreases |vs|
  {
    var due := Due(vs, level);
    forall i | 0 <= i < |due|
      ensures 5 <= due[i] <= 17
    {
      assert due[i] in vs;
    }
    if vs != [] {
      RunFromDue(d, versions, vs[1..], level, now);
      if vs[0] > level {
        var u := Up(vs[0], d, now);
        assert due[0] == vs[0] && due[1..] == Due(vs[1..], level);
        if u.ok {
          RunFromDue(u.db, RecordVersion(versions, vs[0]), vs[1..], level, now);
        }
      }
    }
  }

  /** Running `a + b` is running `a`, then `b` from where `a` stopped, if it succeeded. */
  lemma {:induction false} RunFromAppend(d: Db, versions: seq<int>, a: seq<int>, b: seq<int>, level: int, now: string)
    requires forall i :: 0 <= i < |a| ==> 5 <= a[i] <= 17
    requires forall i :: 0 <= i < |b| ==> 5 <= b[i] <= 17
    ensures forall i :: 0 <= i < |a + b| ==> 5 <= (a + b)[i] <= 17
    ensures var p := RunFrom(d, versions, a, level, now);
      RunFrom(d, versions, a + b, level, now) == if p.ok then RunFrom(p.db, p.versions, b, level, now) else p
    decreases |a|
  {
    if a == [] {
      assert a + b == b;
    } else {
      assert (a + b)[0] == a[0] && (a + b)[1..] == a[1..] + b;
      if a[0] <= level {
        RunFromAppend(d, versions, a[1..], b, level, now);
      } else {
        var u := Up(a[0], d, now);
        if u.ok {
          RunFromAppend(u.db, RecordVersion(versions, a[0]), a[1..], b, level, now);
        }
      }
    }
  }

  /**
   * `runPendingMigrations` records exactly the due versions up to the first
   * failure, in ascending order; the failing one and every later one stay
   * unrecorded.
   */
  lemma RunPendingLedger(d: Db, versions: seq<int>, now: string) returns (k: nat)
    ensures k <= |Pending(Level(versions))|
    ensures RunPending(d, versions, now).versions == versions + Pending(Level(versions))[..k]
    ensures RunPending(d, versions, now).ok <==> k == |Pending(Level(versions))|
    ensures forall j :: k <= j < |Pending(Level(versions))| ==>
      Pending(Level(versions))[j] !in RunPending(d, versions, now).versions
  {
    var level := Level(versions);
    var o := RunPending(d, versions, now);
    var due := Pending(level);
    RegistryShape();
    DueAscending(Registry(), level);
    k := RunFromLedger(d, versions, Registry(), level, now);
    forall j | k <= j < |due|
      ensures due[j] !in o.versions
    {
      assert due[j] !in versions;
      forall i | 0 <= i < k
        ensures due[..k][i] != due[j]
      {
        assert due[..k][i] == due[i];
      }
      assert due[j] !in due[..k];
    }
  }

  /**
   * A failing migration stops the run: everything before it ran and
   * succeeded, and the run ends with what the failing migration left and the
   * ledger as it stood before it.
   */
  lemma StopsAtFailure(d: Db, versions: seq<int>, now: string) returns (k: nat)
    requires !RunPending(d, versions, now).ok
    ensures k < |Pending(Level(versions))|
    ensures var due := Pending(Level(versions)); var p := RunFrom(d, versions, due[..k], Level(versions), now);
      p.ok && !Up(due[k], p.db, now).ok
      && RunPending(d, versions, now) == Migrated(Up(due[k], p.db, now).db, p.versions, false)
  {
    var level := Level(versions);
    var due := Pending(level);
    RegistryShape();
    RunFromDue(d, versions, Registry(), level, now);
    k := FirstFailure(d, versions, due, level, now);
  }

  /** The index of the failing registration in a failing run over due versions. */
  lemma {:induction false} FirstFailure(d: Db, versions: seq<int>, ws: seq<int>, level: int, now: string)
      returns (k: nat)
    requires forall i :: 0 <= i < |ws| ==> 5 <= ws[i] <= 17 && ws[i] > level
    requires !RunFrom(d, versions, ws, level, now).ok
    ensures k < |ws| && RunFrom(d, versions, ws[..k], level, now).ok
    ensures !Up(ws[k], RunFrom(d, versions, ws[..k], level, now).db, now).ok
    ensures RunFrom(d, versions, ws, level, now)
      == Migrated(Up(ws[k], RunFrom(d, versions, ws[..k], level, now).db, now).db,
                  RunFrom(d, versions, ws[..k], level, now).versions, false)
    decreases |ws|
  {
    var u := Up(ws[0], d, now);
    if !u.ok {
      k := 0;
    } else {
      var v1 := RecordVersion(versions, ws[0]);
      var k1 := FirstFailure(u.db, v1, ws[1..], level, now);
      k := k1 + 1;
      assert ws[..k][0] == ws[0] && ws[..k][1..] == ws[1..][..k1];
      assert ws[k] == ws[1..][k1];
    }
  }

  /** When nothing is due the runner changes nothing. */
  lemma {:induction false} NothingDue(d: Db, versions: seq<int>, vs: seq<int>, level: int, now: string)
    requires forall i :: 0 <= i < |vs| ==> 5 <= vs[i] <= level && vs[i] <= 17
    ensures RunFrom(d, versions, vs, level, now) == Migrated(d, versions, true)
    decreases |vs|
  {
    if vs != [] {
      NothingDue(d, versions, vs[1..], level, now);
    }
  }

  /** After a successful run, a second run finds nothing due and changes nothing. */
  lemma RerunNoop(d: Db, versions: seq<int>, now: string)
    requires RunPending(d, versions, now).ok
    ensures var o := RunPending(d, versions, now);
      RunPending(o.db, o.versions, now) == Migrated(o.db, o.versions, true)
  {
    var level := Level(versions);
    var o := RunPending(d, versions, now);
    var due := Pending(level);
    RegistryShape();
    var k := RunPendingLedger(d, versions, now);
    assert due[..k] == due;
    if due == [] {
      assert o.versions == versions;
      forall i | 0 <= i < |Registry()|
        ensures Registry()[i] <= level
      {
        assert Registry()[i] !in due;
      }
    } else {
      assert due[0] in Registry();
      assert 17 in due;
      assert 17 in o.versions;
    }
    NothingDue(o.db, o.versions, Registry(), Level(o.versions), now);
  }

  /** The ledger never holds a version twice. */
  lemma LedgerDistinct(d: Db, versions: seq<int>, now: string)
    requires NoDuplicates(versions)
    ensures NoDuplicates(RunPending(d, versions, now).versions)
  {
    var level := Level(versions);
    var o := RunPending(d, versions, now);
    var due := Pending(level);
    RegistryShape();
    DueAscending(Registry(), level);
    var k := RunPendingLedger(d, versions, now);
    var n := |versions|;
    forall i, j | 0 <= i < j < |o.versions|
      ensures o.versions[i] != o.versions[j]
    {
      if j >= n {
        assert o.versions[j] == due[j - n];
        if i < n {
          assert o.versions[i] in versions;
        } else {
          assert o.versions[i] == due[i - n];
        }
      }
    }
  }

  /** A ledger holding only versions below 5 makes every registered migration due. */
  lemma AllPending(versions: seq<int>)
    requires forall i :: 0 <= i < |versions| ==> versions[i] < 5
    ensures Pending(Level(versions)) == Registry()
  {
    var level := Level(versions);
    assert level < 5 by {
      if versions != [] {
        var j :| 0 <= j < |versions| && versions[j] == level;
      }
    }
    RegistryShape();
    forall i | 0 <= i < |Registry()|
      ensures Registry()[i] > level
    {
      assert Registry()[i] in Registry();
    }
    DueAll(Registry(), level);
  }

  /** A ledger holding only versions below 5 makes every migration due; success records all of them. */
  lemma AllDueLedger(d: Db, versions: seq<int>, now: string)
    requires forall i :: 0 <= i < |versions| ==> versions[i] < 5
    requires RunPending(d, versions, now).ok
    ensures RunPending(d, versions, now).versions == versions + Registry()
  {
    AllPending(versions);
    var k := RunPendingLedger(d, versions, now);
    assert Pending(Level(versions))[..k] == Registry();
  }

  /** After a baseline recorded as version 4 on a level-0 ledger, a successful run records 5 to 17. */
  lemma RunAfterBaseline(init: Migrated, versions: seq<int>, now: string)
    requires Level(versions) == 0 && init.versions == versions + [4]
    requires RunPending(init.db, init.versions, now).ok
    ensures RunPending(init.db, init.versions, now).versions == versions + [4] + Registry()
  {
    forall i | 0 <= i < |init.versions|
      ensures init.versions[i] < 5
    {
      if i < |versions| {
        assert versions[i] in versions;
      }
    }
    AllDueLedger(init.db, init.versions, now);
  }

  /**
   * A database with an empty ledger (level 0) gets the baseline and then
   * every migration: on success its ledger gains 4, 5, ..., 17.
   */
  lemma FreshOpen(d: Db, versions: seq<int>, now: string)
    requires Level(versions) == 0
    requires OpenSpec(d, versions, now).ok
    ensures OpenSpec(d, versions, now).versions == versions + [4] + Registry()
  {
    var init := InitializeSchema(d, versions);
    RunAfterBaseline(init, versions, now);
  }

  // ------------------------------------------------------------- the rebuilds

  /** No column of the rebuilt `session_summaries` is UNIQUE. */
  lemma SummaryColumnsNotUnique()
    ensures forall i :: 0 <= i < |SummaryColumns| ==> !SummaryColumns[i].unique
  {
  }

  /**
   * Migration 7, as evidently intended: nothing happens without a unique
   * index; a row that does not fit rolls everything back; on success the
   * table holds every row's 14 columns in order, no unique index is left,
   * and all four baseline indexes are back.
   */
  lemma RemoveUniqueFixedEffect(d: Db)
    requires Wf(d)
    ensures var o := RemoveSummariesUniqueConstraintFixed(d); var t := "session_summaries";
      (!HasUniqueIndex(d, t) ==> o == Outcome(d, true))
      && (HasUniqueIndex(d, t) && !RebuildFits(d, t, SummaryColumns) ==> o == Outcome(d, false))
      && (o.ok && HasUniqueIndex(d, t) ==> (
        o.db.tables == d.tables[t := Table(SummaryColumns, ProjectAll(d.tables[t].rows, Names(SummaryColumns)))]
        && o.db.fts == d.fts
        && !HasUniqueIndex(o.db, t)
        && forall n :: n in IndexNames(SummaryIndexes) ==> n in o.db.indexes && o.db.indexes[n] == Index(t, false)))
  {
    var t := "session_summaries";
    RebuildWithIndexes(d, t, "session_summaries_new", SummaryColumns, SummaryIndexes);
    SummaryColumnsNotUnique();
  }

  /**
   * Migration 7 as written recreates only three of the four indexes the
   * baseline puts on `session_summaries`: after it succeeds, no index on the
   * table is named `idx_session_summaries_project_created`.
   */
  lemma RemoveUniqueAsWrittenLosesIndex(d: Db)
    requires Wf(d) && HasUniqueIndex(d, "session_summaries")
    requires RemoveSummariesUniqueConstraint(d).ok
    ensures "idx_session_summaries_project_created" in IndexNames(SummaryIndexes)
    ensures var o := RemoveSummariesUniqueConstraint(d);
      forall n :: n in o.db.indexes && o.db.indexes[n].table == "session_summaries" ==>
        n != "idx_session_summaries_project_created"
  {
    var t := "session_summaries";
    LastSummaryIndex();
    RebuildWithIndexes(d, t, "session_summaries_new", SummaryColumns, SummaryIndexes[..3]);
    var o := RemoveSummariesUniqueConstraint(d);
    assert o == ExecAll(d, RemoveUniqueStmts());
    forall n | n in o.db.indexes && o.db.indexes[n].table == t
      ensures n != "idx_session_summaries_project_created"
    {
      assert n in IndexNames(SummaryIndexes[..3]);
    }
  }

  /**
   * Migration 7 as written: a no-op without a unique index; a row that does
   * not fit rolls back; on success every row keeps its 14 columns in order,
   * no unique index is left, and the indexes on the table are the first
   * three baseline ones.
   */
  lemma RemoveUniqueEffect(d: Db)
    requires Wf(d)
    ensures var o := RemoveSummariesUniqueConstraint(d); var t := "session_summaries";
      (!HasUniqueIndex(d, t) ==> o == Outcome(d, true))
      && (HasUniqueIndex(d, t) && !RebuildFits(d, t, SummaryColumns) ==> o == Outcome(d, false))
      && (o.ok && HasUniqueIndex(d, t) ==> (
        o.db.tables == d.tables[t := Table(SummaryColumns, ProjectAll(d.tables[t].rows, Names(SummaryColumns)))]
        && o.db.fts == d.fts
        && !HasUniqueIndex(o.db, t)
        && (forall n :: n in o.db.indexes && o.db.indexes[n].table == t ==> n in IndexNames(SummaryIndexes[..3]))
        && forall n :: n in IndexNames(SummaryIndexes[..3]) ==> n in o.db.indexes && o.db.indexes[n] == Index(t, false)))
  {
    var t := "session_summaries";
    LastSummaryIndex();
    RebuildWithIndexes(d, t, "session_summaries_new", SummaryColumns, SummaryIndexes[..3]);
    SummaryColumnsNotUnique();
  }

  /** The index migration 7 leaves out is the last of the four, and none of the first three. */
  lemma LastSummaryIndex()
    ensures "session_summaries" != "session_summaries_new"
    ensures SummaryIndexes[3].name == "idx_session_summaries_project_created"
    ensures "idx_session_summaries_project_created" !in IndexNames(SummaryIndexes[..3])
  {
    assert |"idx_session_summaries_project_created"| == 37;
    assert |SummaryIndexes[0].name| == 33 && |SummaryIndexes[1].name| == 29 && |SummaryIndexes[2].name| == 29;
  }

  /** `text` is the fourth column of the rebuilt `observations`, and it is nullable. */
  lemma ObservationTextNullable()
    ensures forall i :: 0 <= i < |ObservationColumns| && ObservationColumns[i].name == "text" ==>
      !ObservationColumns[i].notNull
  {
  }

  /**
   * Migration 9, as evidently intended: nothing happens unless `text` is NOT
   * NULL; a row that does not fit rolls everything back; on success the
   * table holds every row's 15 columns in order, `text` is nullable, and the
   * six baseline indexes are back.
   */
  lemma TextNullableFixedEffect(d: Db)
    requires Wf(d)
    ensures var o := MakeObservationsTextNullableFixed(d); var t := "observations";
      (!TextNotNull(d) ==> o == Outcome(d, true))
      && (TextNotNull(d) && !RebuildFits(d, t, ObservationColumns) ==> o == Outcome(d, false))
      && (o.ok && TextNotNull(d) ==> (
        o.db.tables == d.tables[t := Table(ObservationColumns, ProjectAll(d.tables[t].rows, Names(ObservationColumns)))]
        && o.db.fts == d.fts
        && !TextNotNull(o.db)
        && forall n :: n in IndexNames(ObservationIndexes) ==> n in o.db.indexes && o.db.indexes[n] == Index(t, false)))
  {
    RebuildWithIndexes(d, "observations", "observations_new", ObservationColumns, ObservationIndexes);
    ObservationTextNullable();
  }

  /**
   * Migration 9 as written recreates no index: after it rewrites the table,
   * no index at all is on `observations`, although the baseline created six.
   */
  lemma TextNullableAsWrittenDropsIndexes(d: Db)
    requires Wf(d) && TextNotNull(d)
    requires MakeObservationsTextNullable(d).ok
    ensures |ObservationIndexes| == 6
    ensures var o := MakeObservationsTextNullable(d);
      forall n :: n in o.db.indexes ==> o.db.indexes[n].table != "observations"
  {
    var r := Rebuild("observations", "observations_new", ObservationColumns);
    assert IndexesOn("observations", [], false) == [];
    assert r + IndexesOn("observations", [], false) == r;
    RebuildWithIndexes(d, "observations", "observations_new", ObservationColumns, []);
  }

  /**
   * Migration 9 as written: a no-op unless `text` is NOT NULL; a row that
   * does not fit rolls back; on success every row keeps its 15 columns in
   * order, `text` is nullable, and no index is left on the table.
   */
  lemma TextNullableEffect(d: Db)
    requires Wf(d)
    ensures var o := MakeObservationsTextNullable(d); var t := "observations";
      (!TextNotNull(d) ==> o == Outcome(d, true))
      && (TextNotNull(d) && !RebuildFits(d, t, ObservationColumns) ==> o == Outcome(d, false))
      && (o.ok && TextNotNull(d) ==> (
        o.db.tables == d.tables[t := Table(ObservationColumns, ProjectAll(d.tables[t].rows, Names(ObservationColumns)))]
        && o.db.fts == d.fts
        && !TextNotNull(o.db)
        && forall n :: n in o.db.indexes ==> o.db.indexes[n].table != t))
  {
    var r := Rebuild("observations", "observations_new", ObservationColumns);
    assert IndexesOn("observations", [], false) == [];
    assert r + IndexesOn("observations", [], false) == r;
    RebuildWithIndexes(d, "observations", "observations_new", ObservationColumns, []);
    ObservationTextNullable();
  }

  // ------------------------------------------------------------- idempotence

  /** The default-tag inserts keep every table, FTS table, index and trigger. */
  lemma {:induction false} InsertIgnoringKeeps(d: Db, table: string, rows: seq<Record>)
    ensures var d1 := InsertIgnoring(d, table, rows);
      d1.tables.Keys == d.tables.Keys && d1.fts.Keys == d.fts.Keys
      && d1.indexes == d.indexes && d1.triggers == d.triggers
    decreases |rows|
  {
    if rows != [] {
      match InsertRow(d, table, rows[0]) {
        case Ok(d1) =>
          InsertRowKeeps(d, table, rows[0]);
          InsertIgnoringKeeps(d1, table, rows[1..]);
        case Err(_) =>
          InsertIgnoringKeeps(d, table, rows[1..]);
      }
    }
  }

  lemma PromptTrackingIdempotent(d: Db)
    requires AddPromptTrackingColumns(d).ok
    ensures var d1 := AddPromptTrackingColumns(d).db; AddPromptTrackingColumns(d1) == Outcome(d1, true)
  {
    var a := AddIfMissing(d, "sdk_sessions", Column("prompt_counter", false, false, None, Int(0)));
    var b := AddIfMissing(a.db, "observations", Plain("prompt_number"));
    var c := AddIfMissing(b.db, "session_summaries", Plain("prompt_number"));
    assert HasColumn(c.db, "sdk_sessions", "prompt_counter");
    assert HasColumn(c.db, "observations", "prompt_number");
  }

  lemma HierarchicalIdempotent(d: Db)
    requires AddObservationHierarchicalFields(d).ok
    ensures var d1 := AddObservationHierarchicalFields(d).db;
      AddObservationHierarchicalFields(d1) == Outcome(d1, true)
  {
    if !HasColumn(d, "observations", "title") {
      HierarchicalStmtsShape();
      FirstColumnAdded(d, HierarchicalStmts());
    }
  }

  /** Version 8 only adds columns, the first of them `observations.title`. */
  lemma HierarchicalStmtsShape()
    ensures forall i :: 0 <= i < |HierarchicalStmts()| ==> HierarchicalStmts()[i].AddColumn?
    ensures |HierarchicalStmts()| > 0 && HierarchicalStmts()[0].table == "observations"
      && HierarchicalStmts()[0].column.name == "title"
  {
  }

  /** Once a run of column additions succeeds, the first column it adds is there. */
  lemma FirstColumnAdded(d: Db, stmts: seq<Stmt>)
    requires forall i :: 0 <= i < |stmts| ==> stmts[i].AddColumn?
    requires ExecAll(d, stmts).ok && |stmts| > 0
    ensures HasColumn(ExecAll(d, stmts).db, stmts[0].table, stmts[0].column.name)
  {
    AddColumnsEffect(d, stmts);
  }

  lemma AiResponsesIdempotent(d: Db)
    requires CreateAiResponsesAndToolExecutionsTables(d).ok
    ensures var d1 := CreateAiResponsesAndToolExecutionsTables(d).db;
      CreateAiResponsesAndToolExecutionsTables(d1) == Outcome(d1, true)
  {
    var s1 := [CreateTable("ai_responses", [Plain("id"), Required("sdk_session_id"),
             Required("prompt_number"), Required("response_text"), Required("created_at"),
             Required("created_at_epoch")], false)]
           + IndexesOn("ai_responses", [IndexDef("idx_ai_responses_session", ["sdk_session_id"])], false);
    var s2 := [CreateTable("tool_executions", [Plain("id"), Required("sdk_session_id"),
           Required("prompt_number"), Required("tool_name"), Plain("tool_input"), Plain("tool_output"),
           Plain("duration_ms"), Required("created_at"), Required("created_at_epoch")], false)]
         + IndexesOn("tool_executions", [IndexDef("idx_tool_executions_session", ["sdk_session_id"]),
             IndexDef("idx_tool_executions_tool", ["tool_name"])], false);
    var a := if Exists(d, "ai_responses") then Outcome(d, true) else ExecAll(d, s1);
    if !Exists(d, "ai_responses") {
      AdditiveCreated(d, s1);
      assert s1[0].name == "ai_responses";
    }
    if !Exists(d, "tool_executions") {
      AdditiveCreated(a.db, s2);
      assert s2[0].name == "tool_executions";
    }
  }

  lemma ContentTagsIdempotent(d: Db, now: string)
    requires CreateContentTagsTable(d, now).ok
    ensures var d1 := CreateContentTagsTable(d, now).db; CreateContentTagsTable(d1, now) == Outcome(d1, true)
  {
    if !Exists(d, "content_tags") {
      ContentTagsStmtsShape();
      SeededTableExists(d, "content_tags", ContentTagsStmts(), DefaultTagRows(now));
    }
  }

  /** The statements of version 15 only create, and the first creates the table itself. */
  lemma ContentTagsStmtsShape()
    ensures Additive(ContentTagsStmts())
    ensures |ContentTagsStmts()| > 0 && ContentTagsStmts()[0].CreateTable? && ContentTagsStmts()[0].name == "content_tags"
  {
  }

  /** Creating a table with additive statements and seeding it leaves the table in place. */
  lemma SeededTableExists(d: Db, name: string, stmts: seq<Stmt>, rows: seq<Record>)
    requires Additive(stmts) && ExecAll(d, stmts).ok
    requires |stmts| > 0 && stmts[0].CreateTable? && stmts[0].name == name
    ensures Exists(InsertIgnoring(ExecAll(d, stmts).db, name, rows), name)
  {
    var o := ExecAll(d, stmts);
    AdditiveCreated(d, stmts);
    assert Exists(o.db, name);
    InsertIgnoringKeeps(o.db, name, rows);
  }

  /** The thirteen default tag names are pairwise different. */
  lemma DefaultTagNamesDistinct()
    ensures forall j, k :: 0 <= j < k < |DefaultTags| ==> DefaultTags[j].0 != DefaultTags[k].0
  {
  }

  /**
   * A default tag as the table stores it: the listed name, category,
   * description and colour, a system tag, and a usage count of 0 from the
   * column's default; it meets every constraint of the table.
   */
  lemma DefaultTagStored(now: string, k: nat)
    requires k < |DefaultTags|
    ensures var row := WithDefaults(ContentTagsColumns, DefaultTagRows(now)[k]);
      Get(row, "tag_name") == Text(DefaultTags[k].0) && Get(row, "tag_category") == Text(DefaultTags[k].1)
      && Get(row, "description") == Text(DefaultTags[k].2) && Get(row, "color_code") == Text(DefaultTags[k].3)
      && Get(row, "usage_count") == Int(0) && Get(row, "is_system_tag") == Int(1)
      && Fits(ContentTagsColumns, row)
  {
    var r := DefaultTagRows(now)[k];
    assert "tag_name" in r && "tag_category" in r && "description" in r && "color_code" in r && "is_system_tag" in r;
    StoredTagCounted(r);
    StoredTagFits(r);
  }

  /** A tag inserted without a usage count is stored with the column's default, 0. */
  lemma StoredTagCounted(r: Record)
    requires "usage_count" !in r
    ensures Get(WithDefaults(ContentTagsColumns, r), "usage_count") == Int(0)
  {
    UsageCountColumn();
  }

  /** Column 7 of `content_tags` is the first named `usage_count`, with default 0. */
  lemma UsageCountColumn()
    ensures |ContentTagsColumns| == 12 && ContentTagsColumns[7].name == "usage_count"
      && ContentTagsColumns[7].dflt == Int(0) && FirstNamed(ContentTagsColumns, 7)
  {
  }

  /** A tag with a textual name and creation time meets the table's NOT NULL constraints. */
  lemma StoredTagFits(r: Record)
    requires Get(r, "tag_name").Text? && Get(r, "created_at").Text?
    ensures Fits(ContentTagsColumns, WithDefaults(ContentTagsColumns, r))
  {
    ContentTagsRequired();
    FitsWhenRequiredGiven(ContentTagsColumns, r, {"tag_name", "created_at"});
  }

  /** `content_tags` has no CHECK, and only `tag_name` and `created_at` are NOT NULL. */
  lemma ContentTagsRequired()
    ensures forall i :: 0 <= i < |ContentTagsColumns| ==>
      ContentTagsColumns[i].allowed.None?
      && (ContentTagsColumns[i].notNull ==> ContentTagsColumns[i].name in {"tag_name", "created_at"})
  {
  }

  /** Without CHECK columns, a row giving a value to every NOT NULL column fits once completed. */
  lemma FitsWhenRequiredGiven(cols: seq<Column>, r: Record, required: set<string>)
    requires forall i :: 0 <= i < |cols| ==> cols[i].allowed.None? && (cols[i].notNull ==> cols[i].name in required)
    requires forall c :: c in required ==> c in r && !r[c].Null?
    ensures Fits(cols, WithDefaults(cols, r))
  {
  }

  /** Rows as a table stores them, each missing column filled with its default. */
  ghost function StoredRows(cols: seq<Column>, rows: seq<Record>): (r: seq<Record>)
    ensures |r| == |rows| && forall k :: 0 <= k < |rows| ==> r[k] == WithDefaults(cols, rows[k])
  {
    seq(|rows|, k requires 0 <= k < |rows| => WithDefaults(cols, rows[k]))
  }

  /**
   * Rows that each fit and clash with nothing before them are all inserted:
   * the ignored failures never happen, and the table gains every row in order.
   */
  lemma {:induction false} InsertIgnoringAll(d: Db, table: string, rows: seq<Record>)
    requires table in d.tables
    requires Insertable(d.tables[table], rows)
    ensures var t := d.tables[table];
      table in InsertIgnoring(d, table, rows).tables
      && InsertIgnoring(d, table, rows).tables[table] == Table(t.columns, t.rows + StoredRows(t.columns, rows))
    decreases |rows|
  {
    var t := d.tables[table];
    if rows == [] {
      assert t.rows + StoredRows(t.columns, rows) == t.rows;
    } else {
      var d1 := InsertFirst(d, table, rows);
      InsertableRest(t, rows);
      InsertIgnoringAll(d1, table, rows[1..]);
      StoredRowsSplit(t.columns, t.rows, rows);
    }
  }

  /** Every row fits, and none clashes with the table's rows or the rows stored before it. */
  ghost predicate Insertable(t: Table, rows: seq<Record>)
  {
    forall k :: 0 <= k < |rows| ==>
      Fits(t.columns, WithDefaults(t.columns, rows[k]))
      && !Clashes(Table(t.columns, t.rows + StoredRows(t.columns, rows[..k])), WithDefaults(t.columns, rows[k]))
  }

  /** The first of insertable rows is inserted, and the inserts go on from there. */
  lemma InsertFirst(d: Db, table: string, rows: seq<Record>) returns (d1: Db)
    requires table in d.tables && rows != [] && Insertable(d.tables[table], rows)
    ensures var t := d.tables[table];
      table in d1.tables && d1.tables[table] == Table(t.columns, t.rows + [WithDefaults(t.columns, rows[0])])
      && InsertIgnoring(d, table, rows) == InsertIgnoring(d1, table, rows[1..])
  {
    var t := d.tables[table];
    assert t.rows + StoredRows(t.columns, rows[..0]) == t.rows;
    d1 := InsertRow(d, table, rows[0]).value;
  }

  /** Once the first row is stored, the rest are insertable. */
  lemma InsertableRest(t: Table, rows: seq<Record>)
    requires rows != [] && Insertable(t, rows)
    ensures Insertable(Table(t.columns, t.rows + [WithDefaults(t.columns, rows[0])]), rows[1..])
  {
    var first := WithDefaults(t.columns, rows[0]);
    forall k | 0 <= k < |rows[1..]|
      ensures Fits(t.columns, WithDefaults(t.columns, rows[1..][k]))
        && !Clashes(Table(t.columns, t.rows + [first] + StoredRows(t.columns, rows[1..][..k])),
                    WithDefaults(t.columns, rows[1..][k]))
    {
      assert rows[1..][k] == rows[k + 1];
      StoredRowsCons(t.columns, rows, k);
      assert t.rows + [first] + StoredRows(t.columns, rows[1..][..k]) == t.rows + StoredRows(t.columns, rows[..k + 1]);
    }
  }

  /** Storing a list after some rows is storing its first row, then the rest. */
  lemma StoredRowsSplit(cols: seq<Column>, before: seq<Record>, rows: seq<Record>)
    requires rows != []
    ensures before + [WithDefaults(cols, rows[0])] + StoredRows(cols, rows[1..]) == before + StoredRows(cols, rows)
  {
    StoredRowsCons(cols, rows, |rows| - 1);
    assert rows[1..][..|rows| - 1] == rows[1..] && rows[..|rows|] == rows;
  }

  /** Storing a list's first row, then a prefix of the rest, stores the longer prefix. */
  lemma StoredRowsCons(cols: seq<Column>, rows: seq<Record>, k: nat)
    requires k < |rows|
    ensures [WithDefaults(cols, rows[0])] + StoredRows(cols, rows[1..][..k]) == StoredRows(cols, rows[..k + 1])
  {
    var a := [WithDefaults(cols, rows[0])] + StoredRows(cols, rows[1..][..k]);
    var b := StoredRows(cols, rows[..k + 1]);
    forall i | 0 <= i < |a|
      ensures a[i] == b[i]
    {
      if i > 0 {
        assert rows[1..][..k][i - 1] == rows[..k + 1][i];
      }
    }
  }

  /** Version 15's statements on a database without `content_tags` leave it empty, with its twelve columns. */
  lemma ContentTagsCreatedEmpty(d: Db)
    requires !Exists(d, "content_tags") && ExecAll(d, ContentTagsStmts()).ok
    ensures var db := ExecAll(d, ContentTagsStmts()).db;
      "content_tags" in db.tables && db.tables["content_tags"] == Table(ContentTagsColumns, [])
  {
    var stmts := ContentTagsStmts();
    var d1 := Exec(d, stmts[0]).value;
    assert d1.tables == d.tables["content_tags" := Table(ContentTagsColumns, [])];
    assert ExecAll(d, stmts) == ExecAll(d1, stmts[1..]);
    ContentTagsStmtsTail();
    AuxiliaryKeepTables(d1, stmts[1..]);
  }

  /** After the table, version 15 creates only indexes, an FTS table and a trigger. */
  lemma ContentTagsStmtsTail()
    ensures var rest := ContentTagsStmts()[1..];
      forall i :: 0 <= i < |rest| ==> rest[i].CreateIndex? || rest[i].CreateFts? || rest[i].CreateTrigger?
  {
  }

  /** Creating indexes, FTS tables and triggers leaves every table as it was. */
  lemma {:induction false} AuxiliaryKeepTables(d: Db, stmts: seq<Stmt>)
    requires forall i :: 0 <= i < |stmts| ==> stmts[i].CreateIndex? || stmts[i].CreateFts? || stmts[i].CreateTrigger?
    ensures ExecAll(d, stmts).db.tables == d.tables
    decreases |stmts|
  {
    if stmts != [] && Exec(d, stmts[0]).Ok? {
      AuxiliaryKeepTables(Exec(d, stmts[0]).value, stmts[1..]);
    }
  }

  /**
   * Version 15 on a database without `content_tags`: when it succeeds, the
   * table holds exactly the thirteen default tags, in order, each stored
   * with its listed name and a usage count of 0.
   */
  lemma DefaultTagsSeeded(d: Db, now: string)
    requires !Exists(d, "content_tags") && CreateContentTagsTable(d, now).ok
    ensures var db := CreateContentTagsTable(d, now).db;
      "content_tags" in db.tables
      && db.tables["content_tags"] == Table(ContentTagsColumns, StoredRows(ContentTagsColumns, DefaultTagRows(now)))
      && |db.tables["content_tags"].rows| == |DefaultTags|
      && forall k :: 0 <= k < |DefaultTags| ==>
           Get(db.tables["content_tags"].rows[k], "tag_name") == Text(DefaultTags[k].0)
           && Get(db.tables["content_tags"].rows[k], "usage_count") == Int(0)
  {
    SeededTagTable(d, now);
    StoredDefaultTags(now);
  }

  /** The seeded table is the fresh one with every default tag appended. */
  lemma SeededTagTable(d: Db, now: string)
    requires !Exists(d, "content_tags") && CreateContentTagsTable(d, now).ok
    ensures var db := CreateContentTagsTable(d, now).db;
      "content_tags" in db.tables
      && db.tables["content_tags"] == Table(ContentTagsColumns, StoredRows(ContentTagsColumns, DefaultTagRows(now)))
  {
    var o := ContentTagsUnfold(d, now);
    ContentTagsCreatedEmpty(d);
    DefaultTagsInsertable(now);
    SeedEmptyTable(o.db, "content_tags", ContentTagsColumns, DefaultTagRows(now));
  }

  /** Version 15 on a database without `content_tags` runs its statements, then the inserts. */
  lemma ContentTagsUnfold(d: Db, now: string) returns (o: Outcome)
    requires !Exists(d, "content_tags") && CreateContentTagsTable(d, now).ok
    ensures o == ExecAll(d, ContentTagsStmts()) && o.ok
    ensures CreateContentTagsTable(d, now).db == InsertIgnoring(o.db, "content_tags", DefaultTagRows(now))
  {
    o := ExecAll(d, ContentTagsStmts());
  }

  /** Insertable rows put into an empty table become its whole contents. */
  lemma SeedEmptyTable(d: Db, table: string, cols: seq<Column>, rows: seq<Record>)
    requires table in d.tables && d.tables[table] == Table(cols, [])
    requires Insertable(Table(cols, []), rows)
    ensures table in InsertIgnoring(d, table, rows).tables
    ensures InsertIgnoring(d, table, rows).tables[table] == Table(cols, StoredRows(cols, rows))
  {
    InsertIgnoringAll(d, table, rows);
    assert [] + StoredRows(cols, rows) == StoredRows(cols, rows);
  }

  /** Each stored default tag has its listed name and a usage count of 0. */
  lemma StoredDefaultTags(now: string)
    ensures var stored := StoredRows(ContentTagsColumns, DefaultTagRows(now));
      |stored| == |DefaultTags|
      && forall k :: 0 <= k < |DefaultTags| ==>
           Get(stored[k], "tag_name") == Text(DefaultTags[k].0) && Get(stored[k], "usage_count") == Int(0)
  {
    var stored := StoredRows(ContentTagsColumns, DefaultTagRows(now));
    forall k | 0 <= k < |DefaultTags|
      ensures Get(stored[k], "tag_name") == Text(DefaultTags[k].0) && Get(stored[k], "usage_count") == Int(0)
    {
      DefaultTagStored(now, k);
    }
  }

  /** The default tags fit the fresh table and never repeat a name, so none is ignored. */
  lemma DefaultTagsInsertable(now: string)
    ensures Insertable(Table(ContentTagsColumns, []), DefaultTagRows(now))
  {
    var cols := ContentTagsColumns;
    var rows := DefaultTagRows(now);
    forall k | 0 <= k < |rows|
      ensures Fits(cols, WithDefaults(cols, rows[k]))
        && !Clashes(Table(cols, StoredRows(cols, rows[..k])), WithDefaults(cols, rows[k]))
    {
      DefaultTagFits(now, k);
      DefaultTagFresh(now, k);
    }
    InsertableIntoEmpty(cols, rows);
  }

  /** Into an empty table, rows are insertable when each fits and clashes with none before it. */
  lemma InsertableIntoEmpty(cols: seq<Column>, rows: seq<Record>)
    requires forall k :: 0 <= k < |rows| ==>
      (Fits(cols, WithDefaults(cols, rows[k])) && !Clashes(Table(cols, StoredRows(cols, rows[..k])), WithDefaults(cols, rows[k])))
    ensures Insertable(Table(cols, []), rows)
  {
    forall k | 0 <= k < |rows|
      ensures [] + StoredRows(cols, rows[..k]) == StoredRows(cols, rows[..k])
    {
    }
  }

  lemma DefaultTagFits(now: string, k: nat)
    requires k < |DefaultTags|
    ensures Fits(ContentTagsColumns, WithDefaults(ContentTagsColumns, DefaultTagRows(now)[k]))
  {
    DefaultTagStored(now, k);
  }

  /** A default tag clashes with none stored before it. */
  lemma DefaultTagFresh(now: string, k: nat)
    requires k < |DefaultTags|
    ensures var cols := ContentTagsColumns; var rows := DefaultTagRows(now);
      !Clashes(Table(cols, StoredRows(cols, rows[..k])), WithDefaults(cols, rows[k]))
  {
    var cols := ContentTagsColumns;
    var rows := DefaultTagRows(now);
    forall m | 0 <= m < k
      ensures Get(WithDefaults(cols, rows[m]), "tag_name") != Get(WithDefaults(cols, rows[k]), "tag_name")
    {
      DefaultTagNamesKept(now, m, k);
    }
    OnlyTagNameUnique();
    FreshByKey(cols, rows, k, "tag_name");
  }

  /** A row whose only UNIQUE column differs from every row stored before it does not clash with them. */
  lemma FreshByKey(cols: seq<Column>, rows: seq<Record>, k: nat, key: string)
    requires k < |rows|
    requires forall i :: 0 <= i < |cols| && cols[i].unique ==> cols[i].name == key
    requires forall m :: 0 <= m < k ==> Get(WithDefaults(cols, rows[m]), key) != Get(WithDefaults(cols, rows[k]), key)
    ensures !Clashes(Table(cols, StoredRows(cols, rows[..k])), WithDefaults(cols, rows[k]))
  {
    var prior := StoredRows(cols, rows[..k]);
    forall m | 0 <= m < |prior|
      ensures Get(prior[m], key) != Get(WithDefaults(cols, rows[k]), key)
    {
      assert prior[m] == WithDefaults(cols, rows[m]);
    }
    NoClashByKey(cols, prior, WithDefaults(cols, rows[k]), key);
  }

  /** Rows that all differ from a new row on the only UNIQUE column do not clash with it. */
  lemma NoClashByKey(cols: seq<Column>, prior: seq<Record>, row: Record, key: string)
    requires forall i :: 0 <= i < |cols| && cols[i].unique ==> cols[i].name == key
    requires forall m :: 0 <= m < |prior| ==> Get(prior[m], key) != Get(row, key)
    ensures !Clashes(Table(cols, prior), row)
  {
  }

  /** Two default tags keep their different names once stored. */
  lemma DefaultTagNamesKept(now: string, j: nat, k: nat)
    requires j < k < |DefaultTags|
    ensures var cols := ContentTagsColumns; var rows := DefaultTagRows(now);
      Get(WithDefaults(cols, rows[j]), "tag_name") != Get(WithDefaults(cols, rows[k]), "tag_name")
  {
    var rows := DefaultTagRows(now);
    DefaultTagNameDiffers(j, k);
    assert "tag_name" in rows[j] && "tag_name" in rows[k];
  }

  lemma DefaultTagNameDiffers(j: nat, k: nat)
    requires j < k < |DefaultTags|
    ensures DefaultTags[j].0 != DefaultTags[k].0
  {
    DefaultTagNamesDistinct();
  }

  /** `tag_name` is the only UNIQUE column of `content_tags`. */
  lemma OnlyTagNameUnique()
    ensures forall i :: 0 <= i < |ContentTagsColumns| && ContentTagsColumns[i].unique ==>
      ContentTagsColumns[i].name == "tag_name"
  {
  }

  /**
   * Every registered migration guards itself: once it has succeeded,
   * running it again succeeds and changes nothing.
   */
  lemma UpIdempotent(v: int, d: Db, now: string)
    requires 5 <= v <= 17 && Wf(d)
    requires Up(v, d, now).ok
    ensures Up(v, Up(v, d, now).db, now) == Outcome(Up(v, d, now).db, true)
  {
    if 6 <= v <= 9 {
      RebuildsIdempotent(v, d, now);
    } else if v == 13 || v == 15 {
      CreatesIdempotent(v, d, now);
    } else {
      GuardedIdempotent(v, d, now);
    }
  }

  /** The corrected migrations 7 and 9 guard themselves just as well. */
  lemma UpIntendedIdempotent(v: int, d: Db, now: string)
    requires 5 <= v <= 17 && Wf(d)
    requires UpIntended(v, d, now).ok
    ensures UpIntended(v, UpIntended(v, d, now).db, now) == Outcome(UpIntended(v, d, now).db, true)
  {
    if v == 7 {
      RemoveUniqueFixedIdempotent(d);
    } else if v == 9 {
      TextNullableFixedIdempotent(d);
    } else {
      UpIdempotent(v, d, now);
    }
  }

  lemma RebuildsIdempotent(v: int, d: Db, now: string)
    requires 6 <= v <= 9 && Wf(d)
    requires Up(v, d, now).ok
    ensures Up(v, Up(v, d, now).db, now) == Outcome(Up(v, d, now).db, true)
  {
    if v == 6 {
      PromptTrackingIdempotent(d);
    } else if v == 7 {
      RemoveUniqueIdempotent(d);
    } else if v == 8 {
      HierarchicalIdempotent(d);
    } else {
      TextNullableIdempotent(d);
    }
  }

  lemma CreatesIdempotent(v: int, d: Db, now: string)
    requires v == 13 || v == 15
    requires Up(v, d, now).ok
    ensures Up(v, Up(v, d, now).db, now) == Outcome(Up(v, d, now).db, true)
  {
    if v == 13 {
      Up13Idempotent(d, now);
    } else {
      Up15Idempotent(d, now);
    }
  }

  lemma Up13Idempotent(d: Db, now: string)
    requires Up(13, d, now).ok
    ensures Up(13, Up(13, d, now).db, now) == Outcome(Up(13, d, now).db, true)
  {
    AiResponsesIdempotent(d);
  }

  lemma Up15Idempotent(d: Db, now: string)
    requires Up(15, d, now).ok
    ensures Up(15, Up(15, d, now).db, now) == Outcome(Up(15, d, now).db, true)
  {
    var o := Up(15, d, now);
    UpFifteen(d, now);
    UpFifteen(o.db, now);
    ContentTagsIdempotent(d, now);
  }

  lemma UpFifteen(d: Db, now: string)
    ensures Up(15, d, now) == CreateContentTagsTable(d, now)
  {
  }


  /** The migrations guarded by a single existence check are idempotent through their guard alone. */
  lemma GuardedIdempotent(v: int, d: Db, now: string)
    requires v == 5 || 10 <= v <= 12 || v == 14 || v == 16 || v == 17
    requires Up(v, d, now).ok
    ensures Up(v, Up(v, d, now).db, now) == Outcome(Up(v, d, now).db, true)
  {
    if v == 5 || v == 11 {
      ColumnGuardIdempotent(v, d, now);
    } else {
      TableGuardIdempotent(v, d, now);
    }
  }

  lemma ColumnGuardIdempotent(v: int, d: Db, now: string)
    requires v == 5 || v == 11
    requires Up(v, d, now).ok
    ensures Up(v, Up(v, d, now).db, now) == Outcome(Up(v, d, now).db, true)
  {
    var d1 := Up(v, d, now).db;
    if v == 5 {
      assert Up(5, d, now) == AddIfMissing(d, "sdk_sessions", Plain("worker_port"));
      assert Up(5, d1, now) == AddIfMissing(d1, "sdk_sessions", Plain("worker_port"));
    } else {
      assert Up(11, d, now) == AddIfMissing(d, "observations", Plain("discovery_tokens"));
      assert Up(11, d1, now) == AddIfMissing(d1, "observations", Plain("discovery_tokens"));
    }
  }

  lemma TableGuardIdempotent(v: int, d: Db, now: string)
    requires v == 10 || v == 12 || v == 14 || v == 16 || v == 17
    requires Up(v, d, now).ok
    ensures Up(v, Up(v, d, now).db, now) == Outcome(Up(v, d, now).db, true)
  {
    if v == 10 {
      Up10Idempotent(d, now);
    } else if v == 12 {
      Up12Idempotent(d, now);
    } else if v == 14 {
      Up14Idempotent(d, now);
    } else if v == 16 {
      Up16Idempotent(d, now);
    } else {
      Up17Idempotent(d, now);
    }
  }

  lemma Up10Idempotent(d: Db, now: string)
    requires Up(10, d, now).ok
    ensures Up(10, Up(10, d, now).db, now) == Outcome(Up(10, d, now).db, true)
  {
    var d1 := Up(10, d, now).db;
    assert Up(10, d, now) == CreateUserPromptsTable(d);
    assert Up(10, d1, now) == CreateUserPromptsTable(d1);
  }

  lemma Up12Idempotent(d: Db, now: string)
    requires Up(12, d, now).ok
    ensures Up(12, Up(12, d, now).db, now) == Outcome(Up(12, d, now).db, true)
  {
    var d1 := Up(12, d, now).db;
    assert Up(12, d, now) == CreatePendingMessagesTable(d);
    assert Up(12, d1, now) == CreatePendingMessagesTable(d1);
  }

  lemma Up14Idempotent(d: Db, now: string)
    requires Up(14, d, now).ok
    ensures Up(14, Up(14, d, now).db, now) == Outcome(Up(14, d, now).db, true)
  {
    var d1 := Up(14, d, now).db;
    assert Up(14, d, now) == CreateConversationSummariesTable(d);
    assert Up(14, d1, now) == CreateConversationSummariesTable(d1);
  }

  lemma Up16Idempotent(d: Db, now: string)
    requires Up(16, d, now).ok
    ensures Up(16, Up(16, d, now).db, now) == Outcome(Up(16, d, now).db, true)
  {
    var d1 := Up(16, d, now).db;
    assert Up(16, d, now) == CreateConversationTagsTable(d);
    assert Up(16, d1, now) == CreateConversationTagsTable(d1);
  }

  lemma Up17Idempotent(d: Db, now: string)
    requires Up(17, d, now).ok
    ensures Up(17, Up(17, d, now).db, now) == Outcome(Up(17, d, now).db, true)
  {
    var d1 := Up(17, d, now).db;
    assert Up(17, d, now) == CreateAnalysisTasksTable(d);
    assert Up(17, d1, now) == CreateAnalysisTasksTable(d1);
  }

  lemma RemoveUniqueIdempotent(d: Db)
    requires Wf(d) && RemoveSummariesUniqueConstraint(d).ok
    ensures var d1 := RemoveSummariesUniqueConstraint(d).db;
      RemoveSummariesUniqueConstraint(d1) == Outcome(d1, true)
  {
    RemoveUniqueEffect(d);
  }

  lemma TextNullableIdempotent(d: Db)
    requires Wf(d) && MakeObservationsTextNullable(d).ok
    ensures var d1 := MakeObservationsTextNullable(d).db;
      MakeObservationsTextNullable(d1) == Outcome(d1, true)
  {
    TextNullableEffect(d);
  }

  lemma RemoveUniqueFixedIdempotent(d: Db)
    requires Wf(d) && RemoveSummariesUniqueConstraintFixed(d).ok
    ensures var d1 := RemoveSummariesUniqueConstraintFixed(d).db;
      RemoveSummariesUniqueConstraintFixed(d1) == Outcome(d1, true)
  {
    RemoveUniqueFixedEffect(d);
  }

  lemma TextNullableFixedIdempotent(d: Db)
    requires Wf(d) && MakeObservationsTextNullableFixed(d).ok
    ensures var d1 := MakeObservationsTextNullableFixed(d).db;
      MakeObservationsTextNullableFixed(d1) == Outcome(d1, true)
  {
    TextNullableFixedEffect(d);
  }

  /** The baseline only creates tables and indexes, each IF NOT EXISTS. */
  lemma BaselineCreatesOnly()
    ensures CreatesOnly(Baseline())
  {
  }

  /** Running the baseline over a database it already built changes nothing. */
  lemma BaselineIdempotent(d: Db)
    requires ExecAll(d, Baseline()).ok
    ensures var d1 := ExecAll(d, Baseline()).db; ExecAll(d1, Baseline()) == Outcome(d1, true)
  {
    BaselineCreatesOnly();
    CreatesOnlyIdempotent(d, Baseline());
  }
}
