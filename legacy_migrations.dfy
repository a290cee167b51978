/**
 * The older migration list: migrations 1 to 8, each with an `up` and a
 * `down`, over the same database model as the runner.  Migrations 1, 3 and 4
 * only create, IF NOT EXISTS; 2 and 7 add columns without a guard; 5 drops
 * two superseded tables; 6 creates two external-content FTS5 tables, fills
 * them from their source tables and adds the triggers that keep them in
 * step; 8 changes no schema of its own: it checks that the expected indexes
 * exist, recreates the missing ones, and reports FTS tables whose row count
 * differs from their source's.
 */
module LegacyMigrations {
  import opened Wrappers
  import opened Text
  import opened Schema
  import MigrationRunner

  /** What an `up` does: run statements, or the index and FTS health check. */
  datatype Body = Stmts(stmts: seq<Stmt>) | HealthCheck

  datatype Migration = Migration(version: int, up: Body, down: seq<Stmt>)

  // ------------------------------------------------------------- 001

  const SessionsColumns: seq<Column> := [
    Plain("id"), UniqueCol("session_id", true), Required("project"), Required("created_at"),
    Required("created_at_epoch"), Column("source", true, false, None, Text("compress")),
    Plain("archive_path"), Plain("archive_bytes"), Plain("archive_checksum"), Plain("archived_at"),
    Plain("metadata_json")]

  const MemoriesColumns: seq<Column> := [
    Plain("id"), Required("session_id"), Required("text"), UniqueCol("document_id", false),
    Plain("keywords"), Required("created_at"), Required("created_at_epoch"), Required("project"),
    Plain("archive_basename"), Column("origin", true, false, None, Text("transcript"))]

  const OverviewsColumns: seq<Column> := [
    Plain("id"), Required("session_id"), Required("content"), Required("created_at"),
    Required("created_at_epoch"), Required("project"), Column("origin", true, false, None, Text("claude"))]

  const DiagnosticsColumns: seq<Column> := [
    Plain("id"), Plain("session_id"), Required("message"), Column("severity", true, false, None, Text("info")),
    Required("created_at"), Required("created_at_epoch"), Required("project"),
    Column("origin", true, false, None, Text("system"))]

  const TranscriptEventsColumns: seq<Column> := [
    Plain("id"), Required("session_id"), Plain("project"), Required("event_index"), Plain("event_type"),
    Required("raw_json"), Required("captured_at"), Required("captured_at_epoch")]

  function Up001(): seq<Stmt>
  {
    [CreateTable("sessions", SessionsColumns, true)]
    + IndexesOn("sessions", [IndexDef("idx_sessions_project", ["project"]),
        IndexDef("idx_sessions_created_at", ["created_at_epoch"]),
        IndexDef("idx_sessions_project_created", ["project", "created_at_epoch"])], true)
    + [CreateTable("memories", MemoriesColumns, true)]
    + IndexesOn("memories", [IndexDef("idx_memories_session", ["session_id"]),
        IndexDef("idx_memories_project", ["project"]), IndexDef("idx_memories_created_at", ["created_at_epoch"]),
        IndexDef("idx_memories_project_created", ["project", "created_at_epoch"]),
        IndexDef("idx_memories_document_id", ["document_id"]), IndexDef("idx_memories_origin", ["origin"])], true)
    + [CreateTable("overviews", OverviewsColumns, true)]
    + IndexesOn("overviews", [IndexDef("idx_overviews_session", ["session_id"]),
        IndexDef("idx_overviews_project", ["project"]), IndexDef("idx_overviews_created_at", ["created_at_epoch"]),
        IndexDef("idx_overviews_project_created", ["project", "created_at_epoch"])], true)
    + [CreateIndex("idx_overviews_project_latest", "overviews", ["project", "created_at_epoch"], true, true)]
    + [CreateTable("diagnostics", DiagnosticsColumns, true)]
    + IndexesOn("diagnostics", [IndexDef("idx_diagnostics_session", ["session_id"]),
        IndexDef("idx_diagnostics_project", ["project"]), IndexDef("idx_diagnostics_severity", ["severity"]),
        IndexDef("idx_diagnostics_created", ["created_at_epoch"])], true)
    + [CreateTable("transcript_events", TranscriptEventsColumns, true)]
    + IndexesOn("transcript_events", [IndexDef("idx_transcript_events_session", ["session_id", "event_index"]),
        IndexDef("idx_transcript_events_project", ["project"]),
        IndexDef("idx_transcript_events_type", ["event_type"]),
        IndexDef("idx_transcript_events_captured", ["captured_at_epoch"])], true)
  }

  function Down001(): seq<Stmt>
  {
    [DropTable("transcript_events", true), DropTable("diagnostics", true), DropTable("overviews", true),
     DropTable("memories", true), DropTable("sessions", true)]
  }

  // ------------------------------------------------------------- 002

  const MemoryHierarchyColumns: seq<string> := ["title", "subtitle", "facts", "concepts", "files_touched"]

  /** The first statement batch of migration 2: the five columns, without a guard. */
  function HierarchyColumns002(): seq<Stmt>
  {
    [AddColumn("memories", Plain("title")), AddColumn("memories", Plain("subtitle")),
     AddColumn("memories", Plain("facts")), AddColumn("memories", Plain("concepts")),
     AddColumn("memories", Plain("files_touched"))]
  }

  function Up002(): seq<Stmt>
  {
    HierarchyColumns002() + IndexesOn("memories", [IndexDef("idx_memories_title", ["title"]),
        IndexDef("idx_memories_concepts", ["concepts"])], true)
  }

  // ------------------------------------------------------------- 003

  const StreamingSessionsColumns: seq<Column> := [
    Plain("id"), UniqueCol("claude_session_id", true), Plain("sdk_session_id"), Required("project"),
    Plain("title"), Plain("subtitle"), Plain("user_prompt"), Required("started_at"), Required("started_at_epoch"),
    Plain("updated_at"), Plain("updated_at_epoch"), Plain("completed_at"), Plain("completed_at_epoch"),
    Column("status", true, false, None, Text("active"))]

  function Up003(): seq<Stmt>
  {
    [CreateTable("streaming_sessions", StreamingSessionsColumns, true)]
    + IndexesOn("streaming_sessions", [IndexDef("idx_streaming_sessions_claude_id", ["claude_session_id"]),
        IndexDef("idx_streaming_sessions_sdk_id", ["sdk_session_id"]),
        IndexDef("idx_streaming_sessions_project", ["project"]),
        IndexDef("idx_streaming_sessions_status", ["status"]),
        IndexDef("idx_streaming_sessions_started", ["started_at_epoch"])], true)
  }

  // ------------------------------------------------------------- 004

  const ObservationQueueColumns: seq<Column> := [
    Plain("id"), Required("sdk_session_id"), Required("tool_name"), Required("tool_input"),
    Required("tool_output"), Required("created_at_epoch"), Plain("processed_at_epoch")]

  function Up004(): seq<Stmt>
  {
    [CreateTable("sdk_sessions", MigrationRunner.SessionColumns, true)]
    + IndexesOn("sdk_sessions", [IndexDef("idx_sdk_sessions_claude_id", ["claude_session_id"]),
        IndexDef("idx_sdk_sessions_sdk_id", ["sdk_session_id"]),
        IndexDef("idx_sdk_sessions_project", ["project"]), IndexDef("idx_sdk_sessions_status", ["status"]),
        IndexDef("idx_sdk_sessions_started", ["started_at_epoch"])], true)
    + [CreateTable("observation_queue", ObservationQueueColumns, true)]
    + IndexesOn("observation_queue", [IndexDef("idx_observation_queue_sdk_session", ["sdk_session_id"]),
        IndexDef("idx_observation_queue_processed", ["processed_at_epoch"]),
        IndexDef("idx_observation_queue_pending", ["sdk_session_id", "processed_at_epoch"])], true)
    + [CreateTable("observations", MigrationRunner.BaselineObservationColumns, true)]
    + IndexesOn("observations", MigrationRunner.ObservationIndexes[..4], true)
    + [CreateTable("session_summaries", MigrationRunner.BaselineSummaryColumns, true)]
    + IndexesOn("session_summaries", MigrationRunner.SummaryIndexes[..3], true)
  }

  function Down004(): seq<Stmt>
  {
    [DropTable("session_summaries", true), DropTable("observations", true),
     DropTable("observation_queue", true), DropTable("sdk_sessions", true)]
  }

  // ------------------------------------------------------------- 005

  function Up005(): seq<Stmt>
  {
    [DropTable("streaming_sessions", true), DropTable("observation_queue", true)]
  }

  function Down005(): seq<Stmt>
  {
    [CreateTable("streaming_sessions", StreamingSessionsColumns, true),
     CreateTable("observation_queue", ObservationQueueColumns, true)]
  }

  // ------------------------------------------------------------- 006

  const ObservationFtsColumns: seq<string> := ["title", "subtitle", "narrative", "text", "facts", "concepts"]
  const SummaryFtsColumns: seq<string> := ["request", "investigated", "learned", "completed", "next_steps", "notes"]

  /**
   * An FTS table over `source`, filled with the rows already there, and its
   * insert, delete and update triggers, all IF NOT EXISTS.
   */
  function FtsSetup(fts: string, source: string, cols: seq<string>, ai: string, ad: string, au: string): seq<Stmt>
  {
    [CreateFts(fts, source, cols, true), PopulateFts(fts),
     CreateTrigger(ai, Trigger(source, fts, OnInsert), true),
     CreateTrigger(ad, Trigger(source, fts, OnDelete), true),
     CreateTrigger(au, Trigger(source, fts, OnUpdate), true)]
  }

  function Up006(): seq<Stmt>
  {
    FtsSetup("observations_fts", "observations", ObservationFtsColumns,
      "observations_ai", "observations_ad", "observations_au")
    + FtsSetup("session_summaries_fts", "session_summaries", SummaryFtsColumns,
      "session_summaries_ai", "session_summaries_ad", "session_summaries_au")
  }

  function Down006(): seq<Stmt>
  {
    [DropTrigger("observations_au"), DropTrigger("observations_ad"), DropTrigger("observations_ai"),
     DropTable("observations_fts", true),
     DropTrigger("session_summaries_au"), DropTrigger("session_summaries_ad"), DropTrigger("session_summaries_ai"),
     DropTable("session_summaries_fts", true)]
  }

  // ------------------------------------------------------------- 007

  function Up007(): seq<Stmt>
  {
    [AddColumn("observations", Column("discovery_tokens", false, false, None, Int(0))),
     AddColumn("session_summaries", Column("discovery_tokens", false, false, None, Int(0)))]
  }

  // ------------------------------------------------------------- the list

  /** The exported list, in order. */
  function Migrations(): seq<Migration>
  {
    [Migration(1, Stmts(Up001()), Down001()),
     Migration(2, Stmts(Up002()), []),
     Migration(3, Stmts(Up003()), [DropTable("streaming_sessions", true)]),
     Migration(4, Stmts(Up004()), Down004()),
     Migration(5, Stmts(Up005()), Down005()),
     Migration(6, Stmts(Up006()), Down006()),
     Migration(7, Stmts(Up007()), []),
     Migration(8, HealthCheck, [])]
  }

  // ------------------------------------------------------------- 008

  /** The 23 index names the health check expects. */
  const Expected: seq<string> := [
    "idx_sessions_project", "idx_sessions_created_at", "idx_sessions_project_created",
    "idx_memories_session", "idx_memories_project", "idx_memories_created_at", "idx_memories_project_created",
    "idx_memories_document_id", "idx_memories_origin", "idx_memories_title", "idx_memories_concepts",
    "idx_sdk_sessions_claude_id", "idx_sdk_sessions_sdk_id", "idx_sdk_sessions_project",
    "idx_sdk_sessions_status", "idx_sdk_sessions_started",
    "idx_observations_sdk_session", "idx_observations_project", "idx_observations_type",
    "idx_observations_created",
    "idx_session_summaries_sdk_session", "idx_session_summaries_project", "idx_session_summaries_created"]

  /** The FTS tables the health check expects. */
  const ExpectedFts: seq<string> := ["observations_fts", "session_summaries_fts"]

  /** The table and the columns of the `CREATE INDEX IF NOT EXISTS` a branch of the repair runs. */
  datatype Target = Target(table: string, columns: seq<string>)

  /**
   * The statement a missing index is recreated with: the prefix picks the
   * group, then the exact name picks the statement; a name no branch knows
   * gets no statement.
   */
  function Owner(name: string): Option<Target>
  {
    if StartsWith(name, "idx_sessions_") then
      (if name == "idx_sessions_project" then Some(Target("sessions", ["project"]))
       else if name == "idx_sessions_created_at" then Some(Target("sessions", ["created_at_epoch"]))
       else if name == "idx_sessions_project_created" then Some(Target("sessions", ["project", "created_at_epoch"]))
       else None)
    else if StartsWith(name, "idx_memories_") then
      (if name == "idx_memories_session" then Some(Target("memories", ["session_id"]))
       else if name == "idx_memories_project" then Some(Target("memories", ["project"]))
       else if name == "idx_memories_created_at" then Some(Target("memories", ["created_at_epoch"]))
       else if name == "idx_memories_project_created" then Some(Target("memories", ["project", "created_at_epoch"]))
       else if name == "idx_memories_document_id" then Some(Target("memories", ["document_id"]))
       else if name == "idx_memories_origin" then Some(Target("memories", ["origin"]))
       else if name == "idx_memories_title" then Some(Target("memories", ["title"]))
       else if name == "idx_memories_concepts" then Some(Target("memories", ["concepts"]))
       else None)
    else if StartsWith(name, "idx_sdk_sessions_") then
      (if name == "idx_sdk_sessions_claude_id" then Some(Target("sdk_sessions", ["claude_session_id"]))
       else if name == "idx_sdk_sessions_sdk_id" then Some(Target("sdk_sessions", ["sdk_session_id"]))
       else if name == "idx_sdk_sessions_project" then Some(Target("sdk_sessions", ["project"]))
       else if name == "idx_sdk_sessions_status" then Some(Target("sdk_sessions", ["status"]))
       else if name == "idx_sdk_sessions_started" then Some(Target("sdk_sessions", ["started_at_epoch"]))
       else None)
    else if StartsWith(name, "idx_observations_") then
      (if name == "idx_observations_sdk_session" then Some(Target("observations", ["sdk_session_id"]))
       else if name == "idx_observations_project" then Some(Target("observations", ["project"]))
       else if name == "idx_observations_type" then Some(Target("observations", ["type"]))
       else if name == "idx_observations_created" then Some(Target("observations", ["created_at_epoch"]))
       else None)
    else if StartsWith(name, "idx_session_summaries_") then
      (if name == "idx_session_summaries_sdk_session" then Some(Target("session_summaries", ["sdk_session_id"]))
       else if name == "idx_session_summaries_project" then Some(Target("session_summaries", ["project"]))
       else if name == "idx_session_summaries_created" then Some(Target("session_summaries", ["created_at_epoch"]))
       else None)
    else None
  }

  /** The names absent from `sqlite_master`, in the order checked. */
  function Missing(indexes: map<string, Index>, names: seq<string>): (r: seq<string>)
    ensures forall n :: n in r <==> n in names && n !in indexes
    ensures |r| <= |names|
  {
    if names == [] then []
    else
      var last := names[|names| - 1];
      assert forall n :: n in names <==> n in names[..|names| - 1] || n == last;
      Missing(indexes, names[..|names| - 1]) + (if last in indexes then [] else [last])
  }

  /** `CREATE INDEX IF NOT EXISTS` for one missing name; a failure is logged and leaves the database alone. */
  function RecreateOne(d: Db, name: string): Db
  {
    match Owner(name)
    case None => d
    case Some(t) =>
      match Exec(d, CreateIndex(name, t.table, t.columns, false, true))
      case Ok(d1) => d1
      case Err(_) => d
  }

  function RecreateAll(d: Db, names: seq<string>): Db
    decreases |names|
  {
    if names == [] then d else RecreateAll(RecreateOne(d, names[0]), names[1..])
  }

  datatype Warning = MissingFts(name: string) | OutOfSync(name: string, indexed: nat, total: nat)

  /** What the FTS check reports, and whether it ran to the end. */
  datatype FtsReport = FtsReport(warnings: seq<Warning>, ok: bool)

  /** `name.replace('_fts', '')`: the first occurrence removed. */
  function FtsSource(name: string): string
  {
    var i := IndexOf(name, "_fts");
    if i < 0 then name else name[..i] + name[i + 4..]
  }

  /**
   * `SELECT COUNT(*) FROM name`, `None` when the query fails.  Each FTS5
   * table here is declared with `content=` its source table, and a full
   * scan of such a table reads the content table: its count is the content
   * table's row count, and without that table the query fails.
   */
  function Count(d: Db, name: string): Option<nat>
  {
    if name in d.tables then Some(|d.tables[name].rows|)
    else if name in d.fts && d.fts[name].source in d.tables then Some(|d.tables[d.fts[name].source].rows|)
    else None
  }

  /** The number of entries an FTS table holds in its own index. */
  function Indexed(d: Db, name: string): Option<nat>
  {
    if name in d.tables then Some(|d.tables[name].rows|)
    else if name in d.fts then Some(|d.fts[name].entries|)
    else None
  }

  /**
   * The count the check compares with its source's: the `COUNT(*)` it runs
   * (`byEntries` false), or the index's own entries, which it evidently
   * means to compare (`byEntries` true).
   */
  function Counted(d: Db, name: string, byEntries: bool): Option<nat>
  {
    if byEntries then Indexed(d, name) else Count(d, name)
  }

  /**
   * One expected FTS table: a warning when it is missing; otherwise the
   * count query, which fails when either count cannot be taken, and a
   * warning when the counts differ.
   */
  function FtsCheckOne(d: Db, name: string, byEntries: bool): FtsReport
  {
    if !Exists(d, name) then FtsReport([MissingFts(name)], true)
    else
      var total, indexed := Count(d, FtsSource(name)), Counted(d, name, byEntries);
      if total.None? || indexed.None? then FtsReport([], false)
      else if total.value != indexed.value then FtsReport([OutOfSync(name, indexed.value, total.value)], true)
      else FtsReport([], true)
  }

  function FtsCheck(d: Db, names: seq<string>, byEntries: bool): FtsReport
    decreases |names|
  {
    if names == [] then FtsReport([], true)
    else
      var first := FtsCheckOne(d, names[0], byEntries);
      if !first.ok then first
      else
        var rest := FtsCheck(d, names[1..], byEntries);
        FtsReport(first.warnings + rest.warnings, rest.ok)
  }

  /** The health check's outcome: the repaired database, the missing names, the warnings, and whether it returned. */
  datatype Check = Check(db: Db, missing: seq<string>, warnings: seq<Warning>, ok: bool)

  function HealthCheckSpec(d: Db): Check
  {
    var missing := Missing(d.indexes, Expected);
    var db := RecreateAll(d, missing);
    var report := FtsCheck(db, ExpectedFts, false);
    Check(db, missing, report.warnings, report.ok)
  }

  /** The lookup loop: each name queried in turn, the absent ones collected. */
  method CollectMissing(indexes: map<string, Index>, names: seq<string>) returns (missing: seq<string>)
    ensures missing == Missing(indexes, names)
  {
    missing := [];
    var i := 0;
    while i < |names|
      invariant 0 <= i <= |names|
      invariant missing == Missing(indexes, names[..i])
    {
      assert names[..i + 1][..i] == names[..i];
      if names[i] !in indexes {
        missing := missing + [names[i]];
      }
      i := i + 1;
    }
    assert names[..i] == names;
  }

  /** The repair loop: each missing name recreated in turn. */
  method RecreateEach(d: Db, missing: seq<string>) returns (db: Db)
    ensures db == RecreateAll(d, missing)
  {
    db := d;
    var j := 0;
    while j < |missing|
      invariant 0 <= j <= |missing|
      invariant RecreateAll(db, missing[j..]) == RecreateAll(d, missing)
    {
      assert missing[j..][1..] == missing[j + 1..];
      db := RecreateOne(db, missing[j]);
      j := j + 1;
    }
  }

  /** The check of `names[k..]`: the first table's failure ends it, otherwise its warnings come first. */
  lemma FtsCheckStep(db: Db, names: seq<string>, byEntries: bool, k: nat)
    requires k < |names|
    ensures var one, rest := FtsCheckOne(db, names[k], byEntries), FtsCheck(db, names[k + 1..], byEntries);
      FtsCheck(db, names[k..], byEntries) == if !one.ok then FtsReport([], false)
                                  else FtsReport(one.warnings + rest.warnings, rest.ok)
  {
    assert names[k..][0] == names[k];
    assert names[k..][1..] == names[k + 1..];
  }

  /** The FTS loop: each expected table checked in turn; a failed count query ends it. */
  method CheckEach(db: Db, names: seq<string>, byEntries: bool) returns (report: FtsReport)
    ensures report == FtsCheck(db, names, byEntries)
  {
    var warnings: seq<Warning> := [];
    var k := 0;
    while k < |names|
      invariant 0 <= k <= |names|
      invariant FtsCheck(db, names, byEntries) == FtsReport(warnings + FtsCheck(db, names[k..], byEntries).warnings,
                                                 FtsCheck(db, names[k..], byEntries).ok)
    {
      var one := FtsCheckOne(db, names[k], byEntries);
      FtsCheckStep(db, names, byEntries, k);
      if !one.ok {
        return FtsReport(warnings, false);
      }
      var rest := FtsCheck(db, names[k + 1..], byEntries).warnings;
      assert warnings + (one.warnings + rest) == (warnings + one.warnings) + rest;
      warnings := warnings + one.warnings;
      k := k + 1;
    }
    return FtsReport(warnings, true);
  }

  /** The health check as the migration runs it: collect, recreate, then check the FTS tables. */
  method RunHealthCheck(d: Db) returns (c: Check)
    ensures c == HealthCheckSpec(d)
  {
    var missing := CollectMissing(d.indexes, Expected);
    var db := RecreateEach(d, missing);
    var report := CheckEach(db, ExpectedFts, false);
    c := Check(db, missing, report.warnings, report.ok);
  }

  /** `up` of a migration on a database. */
  function Apply(m: Migration, d: Db): Outcome
  {
    match m.up
    case Stmts(stmts) => ExecAll(d, stmts)
    case HealthCheck =>
      var c := HealthCheckSpec(d);
      Outcome(c.db, c.ok)
  }
}
