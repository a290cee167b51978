/**
 * The schema migration runner.  Thirteen migrations are registered under
 * versions 5 to 17; `runPendingMigrations` reads the `schema_versions`
 * ledger, takes its largest version (0 when empty) as the applied level, and
 * runs, in registration order, every migration whose version is above that
 * level, recording each version after its migration returns.  A migration
 * that fails stops the run: its version is not recorded and no later
 * migration runs.  Every migration guards itself by inspecting the schema,
 * so that it is a no-op when what it adds is already there.
 *
 * The ledger is kept beside the schema as the sequence of recorded versions;
 * the clock reading stored with each version is not modelled, and the one
 * the content-tags migration writes into its rows is a parameter `now`.
 *
 * Also here: the fresh-database baseline that the session store runs before
 * the runner (it creates the version-4 tables and records version 4), and the
 * store's opening sequence, baseline then runner.
 */
module MigrationRunner {
  import opened Wrappers
  import opened Schema

  // ------------------------------------------------------------- table shapes

  const ObservationTypes: set<string> := {"decision", "bugfix", "feature", "refactor", "discovery"}

  /** The baseline `sdk_sessions` table. */
  const SessionColumns: seq<Column> := [
    Plain("id"), UniqueCol("claude_session_id", true), UniqueCol("sdk_session_id", false),
    Required("project"), Plain("user_prompt"), Required("started_at"), Required("started_at_epoch"),
    Plain("completed_at"), Plain("completed_at_epoch"),
    Checked("status", {"active", "completed", "failed"}, true, Text("active"))]

  /** The baseline `observations` table, before the hierarchical fields. */
  const BaselineObservationColumns: seq<Column> := [
    Plain("id"), Required("sdk_session_id"), Required("project"), Required("text"),
    Checked("type", ObservationTypes, true, Null), Required("created_at"), Required("created_at_epoch")]

  /** The baseline `session_summaries` table, one summary per session. */
  const BaselineSummaryColumns: seq<Column> := [
    Plain("id"), UniqueCol("sdk_session_id", true), Required("project"),
    Plain("request"), Plain("investigated"), Plain("learned"), Plain("completed"), Plain("next_steps"),
    Plain("files_read"), Plain("files_edited"), Plain("notes"),
    Required("created_at"), Required("created_at_epoch")]

  /** `session_summaries` as migration 7 rebuilds it: the same 14 columns, none UNIQUE. */
  const SummaryColumns: seq<Column> := [
    Plain("id"), Required("sdk_session_id"), Required("project"),
    Plain("request"), Plain("investigated"), Plain("learned"), Plain("completed"), Plain("next_steps"),
    Plain("files_read"), Plain("files_edited"), Plain("notes"), Plain("prompt_number"),
    Required("created_at"), Required("created_at_epoch")]

  /** `observations` as migration 9 rebuilds it: 15 columns, `text` nullable, the type CHECK kept. */
  const ObservationColumns: seq<Column> := [
    Plain("id"), Required("sdk_session_id"), Required("project"), Plain("text"),
    Checked("type", ObservationTypes, true, Null),
    Plain("title"), Plain("subtitle"), Plain("facts"), Plain("narrative"), Plain("concepts"),
    Plain("files_read"), Plain("files_modified"), Plain("prompt_number"),
    Required("created_at"), Required("created_at_epoch")]

  /** The observation indexes the baseline creates. */
  const ObservationIndexes: seq<IndexDef> := [
    IndexDef("idx_observations_sdk_session", ["sdk_session_id"]), IndexDef("idx_observations_project", ["project"]),
    IndexDef("idx_observations_type", ["type"]), IndexDef("idx_observations_created", ["created_at_epoch"]),
    IndexDef("idx_observations_project_type_created", ["project", "type", "created_at_epoch"]),
    IndexDef("idx_observations_covering", ["created_at_epoch", "id", "project", "type"])]

  /** The session-summary indexes the baseline creates. */
  const SummaryIndexes: seq<IndexDef> := [
    IndexDef("idx_session_summaries_sdk_session", ["sdk_session_id"]),
    IndexDef("idx_session_summaries_project", ["project"]),
    IndexDef("idx_session_summaries_created", ["created_at_epoch"]),
    IndexDef("idx_session_summaries_project_created", ["project", "created_at_epoch"])]

  // ------------------------------------------------------------- the baseline

  /** The tables and indexes a fresh database gets, all IF NOT EXISTS. */
  function Baseline(): seq<Stmt>
  {
    [CreateTable("sdk_sessions", SessionColumns, true)]
    + IndexesOn("sdk_sessions", [IndexDef("idx_sdk_sessions_claude_id", ["claude_session_id"]),
        IndexDef("idx_sdk_sessions_sdk_id", ["sdk_session_id"]),
        IndexDef("idx_sdk_sessions_project", ["project"]), IndexDef("idx_sdk_sessions_status", ["status"]),
        IndexDef("idx_sdk_sessions_started", ["started_at_epoch"])], true)
    + [CreateTable("observations", BaselineObservationColumns, true)]
    + IndexesOn("observations", ObservationIndexes, true)
    + [CreateTable("session_summaries", BaselineSummaryColumns, true)]
    + IndexesOn("session_summaries", SummaryIndexes, true)
  }

  /** A database and its ledger after some migrations, and whether all of them succeeded. */
  datatype Migrated = Migrated(db: Db, versions: seq<int>, ok: bool)

  // ------------------------------------------------------------- the ledger

  /** The applied level: the largest recorded version, or 0 for an empty ledger. */
  function Level(versions: seq<int>): (m: int)
    ensures versions == [] ==> m == 0
    ensures versions != [] ==> m in versions && forall x :: x in versions ==> x <= m
  {
    if versions == [] then 0
    else if |versions| == 1 then versions[0]
    else
      var rest := Level(versions[1..]);
      assert forall x :: x in versions ==> x == versions[0] || x in versions[1..];
      if versions[0] >= rest then versions[0] else rest
  }

  /** `INSERT OR IGNORE INTO schema_versions`: the version is added unless it is already there. */
  function RecordVersion(versions: seq<int>, v: int): (r: seq<int>)
    ensures v in r && forall x :: x in versions ==> x in r
    ensures forall x :: x in r ==> x in versions || x == v
    ensures v !in versions ==> r == versions + [v]
  {
    if v in versions then versions else versions + [v]
  }

  predicate NoDuplicates(s: seq<int>)
  {
    forall i, j :: 0 <= i < j < |s| ==> s[i] != s[j]
  }

  /** The ledger never holds a version twice. */
  lemma RecordVersionDistinct(versions: seq<int>, v: int)
    requires NoDuplicates(versions)
    ensures NoDuplicates(RecordVersion(versions, v))
  {
  }

  /**
   * Initializes the schema: when the applied level is 0 the baseline runs and
   * version 4 is inserted; otherwise nothing happens.  A failing statement is
   * rethrown, leaving what ran before it.
   */
  function InitializeSchema(d: Db, versions: seq<int>): (out: Migrated)
    ensures Level(versions) != 0 ==> out == Migrated(d, versions, true)
    ensures out.ok && Level(versions) == 0 ==> out.versions == versions + [4] && Level(out.versions) == 4
    ensures !out.ok ==> out.versions == versions
  {
    if Level(versions) != 0 then Migrated(d, versions, true)
    else
      var o := ExecAll(d, Baseline());
      if !o.ok then Migrated(o.db, versions, false)
      else
        LevelAppend(versions, 4);
        Migrated(o.db, versions + [4], true)
  }

  /** A version above every recorded one becomes the level. */
  lemma LevelAppend(versions: seq<int>, v: int)
    requires forall x :: x in versions ==> x < v
    ensures Level(versions + [v]) == v
  {
    var m := Level(versions + [v]);
    assert v in versions + [v];
    assert m in versions + [v];
  }

  // ------------------------------------------------------------- migrations

  /** `PRAGMA table_info` shows no such column: add it; a missing table makes the ALTER fail. */
  function AddIfMissing(d: Db, table: string, col: Column): (out: Outcome)
    ensures HasColumn(d, table, col.name) ==> out == Outcome(d, true)
    ensures out.ok ==> HasColumn(out.db, table, col.name)
    ensures out.ok ==> forall t, c :: HasColumn(d, t, c) ==> HasColumn(out.db, t, c)
    ensures out.ok ==> out.db.tables.Keys == d.tables.Keys && out.db.fts == d.fts
    ensures !out.ok ==> out.db == d && table !in d.tables
  {
    if HasColumn(d, table, col.name) then Outcome(d, true)
    else
      var o := ExecAll(d, [AddColumn(table, col)]);
      if o.ok then
        AddColumnsEffect(d, [AddColumn(table, col)]);
        o
      else o
  }

  /** The table is not yet in `sqlite_master`: run the statements that create it. */
  function CreateIfMissing(d: Db, table: string, stmts: seq<Stmt>): (out: Outcome)
    requires Additive(stmts) && |stmts| > 0 && stmts[0].CreateTable? && stmts[0].name == table
    ensures Exists(d, table) ==> out == Outcome(d, true)
    ensures out.ok ==> Exists(out.db, table) && forall n :: Exists(d, n) ==> Exists(out.db, n)
  {
    if Exists(d, table) then Outcome(d, true)
    else
      var o := ExecAll(d, stmts);
      if o.ok then
        AdditiveCreated(d, stmts);
        o
      else o
  }

  /** Version 5. */
  function AddWorkerPortColumn(d: Db): Outcome
  {
    AddIfMissing(d, "sdk_sessions", Plain("worker_port"))
  }

  /** Version 6: three columns, each checked for separately. */
  function AddPromptTrackingColumns(d: Db): Outcome
  {
    var a := AddIfMissing(d, "sdk_sessions", Column("prompt_counter", false, false, None, Int(0)));
    if !a.ok then a
    else
      var b := AddIfMissing(a.db, "observations", Plain("prompt_number"));
      if !b.ok then b
      else AddIfMissing(b.db, "session_summaries", Plain("prompt_number"))
  }

  /** The rebuild of `session_summaries` without its UNIQUE column, as written. */
  function RemoveUniqueStmts(): seq<Stmt>
  {
    Rebuild("session_summaries", "session_summaries_new", SummaryColumns)
    + IndexesOn("session_summaries", SummaryIndexes[..3], false)
  }

  /** The same rebuild, recreating every index the baseline puts on `session_summaries`. */
  function RemoveUniqueStmtsFixed(): seq<Stmt>
  {
    Rebuild("session_summaries", "session_summaries_new", SummaryColumns)
    + IndexesOn("session_summaries", SummaryIndexes, false)
  }

  /** Version 7 as written: only when `PRAGMA index_list` shows a unique index, in a transaction. */
  function RemoveSummariesUniqueConstraint(d: Db): Outcome
  {
    if !HasUniqueIndex(d, "session_summaries") then Outcome(d, true)
    else Transaction(d, RemoveUniqueStmts())
  }

  /** Version 7 as evidently intended: the rewritten table keeps all four of its indexes. */
  function RemoveSummariesUniqueConstraintFixed(d: Db): Outcome
  {
    if !HasUniqueIndex(d, "session_summaries") then Outcome(d, true)
    else Transaction(d, RemoveUniqueStmtsFixed())
  }

  /** The seven hierarchical columns, added in one multi-statement run. */
  function HierarchicalStmts(): seq<Stmt>
  {
    [AddColumn("observations", Plain("title")), AddColumn("observations", Plain("subtitle")),
     AddColumn("observations", Plain("facts")), AddColumn("observations", Plain("narrative")),
     AddColumn("observations", Plain("concepts")), AddColumn("observations", Plain("files_read")),
     AddColumn("observations", Plain("files_modified"))]
  }

  /** Version 8: guarded by `title` alone. */
  function AddObservationHierarchicalFields(d: Db): Outcome
  {
    if HasColumn(d, "observations", "title") then Outcome(d, true)
    else ExecAll(d, HierarchicalStmts())
  }

  /** `observations.text` exists and is NOT NULL. */
  predicate TextNotNull(d: Db)
  {
    "observations" in d.tables
    && exists i :: 0 <= i < |d.tables["observations"].columns|
         && d.tables["observations"].columns[i].name == "text" && d.tables["observations"].columns[i].notNull
  }

  /** The rebuild of `observations` with a nullable `text`, as written. */
  function TextNullableStmts(): seq<Stmt>
  {
    Rebuild("observations", "observations_new", ObservationColumns)
  }

  /** The same rebuild, recreating the indexes the baseline puts on `observations`. */
  function TextNullableStmtsFixed(): seq<Stmt>
  {
    TextNullableStmts() + IndexesOn("observations", ObservationIndexes, false)
  }

  /** Version 9 as written: only when `text` is NOT NULL, in a transaction. */
  function MakeObservationsTextNullable(d: Db): Outcome
  {
    if !TextNotNull(d) then Outcome(d, true)
    else Transaction(d, TextNullableStmts())
  }

  /** Version 9 as evidently intended: the rewritten table keeps all six of its indexes. */
  function MakeObservationsTextNullableFixed(d: Db): Outcome
  {
    if !TextNotNull(d) then Outcome(d, true)
    else Transaction(d, TextNullableStmtsFixed())
  }

  /** Version 10. */
  function CreateUserPromptsTable(d: Db): Outcome
  {
    CreateIfMissing(d, "user_prompts",
      [CreateTable("user_prompts", [Plain("id"), Required("sdk_session_id"), Required("prompt_number"),
         Required("prompt_text"), Required("timestamp"), Required("timestamp_epoch")], false)]
      + IndexesOn("user_prompts", [IndexDef("idx_user_prompts_session", ["sdk_session_id"]),
          IndexDef("idx_user_prompts_number", ["sdk_session_id", "prompt_number"])], false))
  }

  /** Version 11: added as TEXT. */
  function EnsureDiscoveryTokensColumn(d: Db): Outcome
  {
    AddIfMissing(d, "observations", Plain("discovery_tokens"))
  }

  /** Version 12. */
  function CreatePendingMessagesTable(d: Db): Outcome
  {
    CreateIfMissing(d, "pending_messages",
      [CreateTable("pending_messages", [Plain("id"), Required("sdk_session_id"), Required("message"),
         Required("created_at"), Required("created_at_epoch")], false)]
      + IndexesOn("pending_messages", [IndexDef("idx_pending_messages_session", ["sdk_session_id"])], false))
  }

  /** Version 13: two tables, each guarded by the table list read once at the start. */
  function CreateAiResponsesAndToolExecutionsTables(d: Db): Outcome
  {
    var a := if Exists(d, "ai_responses") then Outcome(d, true)
      else ExecAll(d, [CreateTable("ai_responses", [Plain("id"), Required("sdk_session_id"),
             Required("prompt_number"), Required("response_text"), Required("created_at"),
             Required("created_at_epoch")], false)]
           + IndexesOn("ai_responses", [IndexDef("idx_ai_responses_session", ["sdk_session_id"])], false));
    if !a.ok || Exists(d, "tool_executions") then a
    else ExecAll(a.db, [CreateTable("tool_executions", [Plain("id"), Required("sdk_session_id"),
           Required("prompt_number"), Required("tool_name"), Plain("tool_input"), Plain("tool_output"),
           Plain("duration_ms"), Required("created_at"), Required("created_at_epoch")], false)]
         + IndexesOn("tool_executions", [IndexDef("idx_tool_executions_session", ["sdk_session_id"]),
             IndexDef("idx_tool_executions_tool", ["tool_name"])], false))
  }

  /** Version 14. */
  function CreateConversationSummariesTable(d: Db): Outcome
  {
    CreateIfMissing(d, "conversation_summaries",
      [CreateTable("conversation_summaries", [Plain("id"), Required("sdk_session_id"), Required("project"),
         Checked("summary_type", {"auto", "manual", "ai_enhanced", "template"}, true, Text("auto")),
         Required("content"), Plain("keywords"), Plain("key_points"), Plain("summary_length"),
         Plain("confidence_score"), Plain("ai_model"), Required("created_at"), Required("created_at_epoch"),
         Plain("updated_at"), Plain("updated_at_epoch")], false)]
      + IndexesOn("conversation_summaries", [IndexDef("idx_conversation_summaries_session", ["sdk_session_id"]),
          IndexDef("idx_conversation_summaries_project", ["project"]),
          IndexDef("idx_conversation_summaries_type", ["summary_type"]),
          IndexDef("idx_conversation_summaries_created", ["created_at_epoch"])], false))
  }

  const ContentTagsColumns: seq<Column> := [
    Plain("id"), UniqueCol("tag_name", true), Plain("tag_category"),
    Plain("parent_tag_id"), Plain("description"), Plain("color_code"), Plain("icon_name"),
    Column("usage_count", false, false, None, Int(0)), Column("is_auto_generated", false, false, None, Int(1)),
    Column("is_system_tag", false, false, None, Int(0)), Required("created_at"), Plain("updated_at")]

  /** The content-tags table, its indexes, its FTS table and its insert trigger. */
  function ContentTagsStmts(): seq<Stmt>
  {
    [CreateTable("content_tags", ContentTagsColumns, false)]
    + IndexesOn("content_tags", [IndexDef("idx_content_tags_category", ["tag_category"]),
        IndexDef("idx_content_tags_parent", ["parent_tag_id"]),
        IndexDef("idx_content_tags_usage", ["usage_count"])], false)
    + [CreateFts("content_tags_fts", "content_tags", ["tag_name", "description"], false),
       CreateTrigger("content_tags_ai", Trigger("content_tags", "content_tags_fts", OnInsert), false)]
  }

  /** The thirteen default tags: name, category, description, colour. */
  const DefaultTags: seq<(string, string, string, string)> := [
    ("bugfix", "type", "Bug fixes and repairs", "#ef4444"),
    ("feature", "type", "New features and functionality", "#22c55e"),
    ("refactor", "type", "Code refactoring", "#3b82f6"),
    ("decision", "type", "Architecture decisions", "#a855f7"),
    ("discovery", "type", "Findings and discoveries", "#f59e0b"),
    ("documentation", "type", "Documentation updates", "#06b6d4"),
    ("testing", "type", "Tests and QA", "#ec4899"),
    ("optimization", "type", "Performance optimizations", "#84cc16"),
    ("security", "type", "Security improvements", "#ef4444"),
    ("frontend", "area", "Frontend related", "#8b5cf6"),
    ("backend", "area", "Backend related", "#6366f1"),
    ("database", "area", "Database related", "#14b8a6"),
    ("api", "area", "API related", "#f97316")]

  /**
   * The default tags as inserted into the fresh table, which numbers them
   * from 1: name, category, description and colour as listed, both flags
   * set, the current time, and no usage count, so the column's default
   * applies.
   */
  function DefaultTagRows(now: string): (r: seq<Record>)
    ensures |r| == |DefaultTags|
    ensures forall k :: 0 <= k < |r| ==>
      Get(r[k], "id") == Int(k + 1)
      && Get(r[k], "tag_name") == Text(DefaultTags[k].0) && Get(r[k], "tag_category") == Text(DefaultTags[k].1)
      && Get(r[k], "description") == Text(DefaultTags[k].2) && Get(r[k], "color_code") == Text(DefaultTags[k].3)
      && Get(r[k], "is_auto_generated") == Int(1) && Get(r[k], "is_system_tag") == Int(1)
      && Get(r[k], "created_at") == Text(now) && "usage_count" !in r[k]
  {
    seq(|DefaultTags|, k requires 0 <= k < |DefaultTags| =>
      map["id" := Int(k + 1), "tag_name" := Text(DefaultTags[k].0), "tag_category" := Text(DefaultTags[k].1),
          "description" := Text(DefaultTags[k].2), "color_code" := Text(DefaultTags[k].3),
          "is_auto_generated" := Int(1), "is_system_tag" := Int(1), "created_at" := Text(now)])
  }

  /** One insert per row, a failing insert ignored. */
  function InsertIgnoring(d: Db, table: string, rows: seq<Record>): Db
    decreases |rows|
  {
    if rows == [] then d
    else
      match InsertRow(d, table, rows[0])
      case Ok(d1) => InsertIgnoring(d1, table, rows[1..])
      case Err(_) => InsertIgnoring(d, table, rows[1..])
  }

  /** Version 15. */
  function CreateContentTagsTable(d: Db, now: string): Outcome
  {
    if Exists(d, "content_tags") then Outcome(d, true)
    else
      var o := ExecAll(d, ContentTagsStmts());
      if !o.ok then o else Outcome(InsertIgnoring(o.db, "content_tags", DefaultTagRows(now)), true)
  }

  /** Version 16. */
  function CreateConversationTagsTable(d: Db): Outcome
  {
    CreateIfMissing(d, "conversation_tags",
      [CreateTable("conversation_tags", [Plain("id"), Required("sdk_session_id"),
         Checked("item_type", {"user_prompt", "ai_response", "observation", "summary"}, true, Null),
         Required("item_id"), Required("tag_id"), Plain("confidence_score"),
         Column("is_auto_generated", false, false, None, Int(1)), Plain("created_by"),
         Required("created_at"), Required("created_at_epoch")], false)]
      + IndexesOn("conversation_tags", [IndexDef("idx_conversation_tags_session", ["sdk_session_id"]),
          IndexDef("idx_conversation_tags_item", ["item_type", "item_id"]),
          IndexDef("idx_conversation_tags_tag", ["tag_id"]),
          IndexDef("idx_conversation_tags_created", ["created_at_epoch"])], false))
  }

  /** Version 17. */
  function CreateAnalysisTasksTable(d: Db): Outcome
  {
    CreateIfMissing(d, "analysis_tasks",
      [CreateTable("analysis_tasks", [Plain("id"), Required("sdk_session_id"),
         Checked("task_type", {"summary_generation", "auto_tagging", "sentiment_analysis"}, true, Null),
         Checked("status", {"pending", "processing", "completed", "failed"}, true, Text("pending")),
         Column("priority", false, false, None, Int(5)), Plain("input_data"), Plain("output_data"),
         Plain("error_message"), Column("retry_count", false, false, None, Int(0)),
         Column("max_retries", false, false, None, Int(3)), Required("created_at"), Required("created_at_epoch"),
         Plain("started_at"), Plain("completed_at")], false)]
      + IndexesOn("analysis_tasks", [IndexDef("idx_analysis_tasks_status", ["status"]),
          IndexDef("idx_analysis_tasks_priority", ["priority"]),
          IndexDef("idx_analysis_tasks_session", ["sdk_session_id"]),
          IndexDef("idx_analysis_tasks_type", ["task_type"])], false))
  }

  // ------------------------------------------------------------- the registry

  /** The registered versions in insertion order. */
  function Registry(): (r: seq<int>)
    ensures |r| == 13 && forall i :: 0 <= i < 13 ==> r[i] == i + 5
  {
    seq(13, i => i + 5)
  }

  /** The `up` of a registered migration, as the runner executes it. */
  function Up(v: int, d: Db, now: string): Outcome
    requires 5 <= v <= 17
  {
    if v == 5 then AddWorkerPortColumn(d)
    else if v == 6 then AddPromptTrackingColumns(d)
    else if v == 7 then RemoveSummariesUniqueConstraint(d)
    else if v == 8 then AddObservationHierarchicalFields(d)
    else if v == 9 then MakeObservationsTextNullable(d)
    else if v == 10 then CreateUserPromptsTable(d)
    else if v == 11 then EnsureDiscoveryTokensColumn(d)
    else if v == 12 then CreatePendingMessagesTable(d)
    else if v == 13 then CreateAiResponsesAndToolExecutionsTables(d)
    else if v == 14 then CreateConversationSummariesTable(d)
    else if v == 15 then CreateContentTagsTable(d, now)
    else if v == 16 then CreateConversationTagsTable(d)
    else CreateAnalysisTasksTable(d)
  }

  /** The `up` of a registered migration with 7 and 9 recreating every index of the table they rewrite. */
  function UpIntended(v: int, d: Db, now: string): Outcome
    requires 5 <= v <= 17
  {
    if v == 7 then RemoveSummariesUniqueConstraintFixed(d)
    else if v == 9 then MakeObservationsTextNullableFixed(d)
    else Up(v, d, now)
  }

  /** The versions in `vs` above `level`, in order. */
  function Due(vs: seq<int>, level: int): (r: seq<int>)
    ensures forall x :: x in r <==> x in vs && x > level
    ensures |r| <= |vs|
  {
    if vs == [] then []
    else if vs[0] > level then [vs[0]] + Due(vs[1..], level)
    else Due(vs[1..], level)
  }

  /** The registered versions above `level`, in registration order. */
  function Pending(level: int): (r: seq<int>)
    ensures forall i :: 0 <= i < |r| ==> 5 <= r[i] <= 17 && r[i] > level
  {
    var r := Due(Registry(), level);
    assert forall i :: 0 <= i < |r| ==> r[i] in Registry();
    r
  }

  predicate Ascending(vs: seq<int>)
  {
    forall i, j :: 0 <= i < j < |vs| ==> vs[i] < vs[j]
  }

  /** The loop of `runPendingMigrations` over the registrations `vs`, from a ledger and a level. */
  function RunFrom(d: Db, versions: seq<int>, vs: seq<int>, level: int, now: string): Migrated
    requires forall i :: 0 <= i < |vs| ==> 5 <= vs[i] <= 17
    decreases |vs|
  {
    if vs == [] then Migrated(d, versions, true)
    else if vs[0] <= level then RunFrom(d, versions, vs[1..], level, now)
    else
      var o := Up(vs[0], d, now);
      if !o.ok then Migrated(o.db, versions, false)
      else RunFrom(o.db, RecordVersion(versions, vs[0]), vs[1..], level, now)
  }

  /** `runPendingMigrations` on a database and its ledger. */
  function RunPending(d: Db, versions: seq<int>, now: string): Migrated
  {
    RunFrom(d, versions, Registry(), Level(versions), now)
  }

  class MigrationRunner {
    var db: Db
    var versions: seq<int>
    const migrations: seq<int>

    constructor (db0: Db, versions0: seq<int>)
      ensures db == db0 && versions == versions0 && migrations == Registry()
    {
      db := db0;
      versions := versions0;
      migrations := Registry();
    }

    method RunPendingMigrations(now: string) returns (ok: bool)
      requires migrations == Registry()
      modifies this
      ensures Migrated(db, versions, ok) == RunPending(old(db), old(versions), now)
    {
      var maxApplied := Level(versions);
      var m := RunLoop(db, versions, migrations, maxApplied, now);
      db, versions, ok := m.db, m.versions, m.ok;
    }
  }

  /**
   * The loop of `runPendingMigrations`: each registration above the level is
   * applied and recorded in turn, and the first failure stops the run.
   */
  method RunLoop(d: Db, versions0: seq<int>, vs: seq<int>, level: int, now: string) returns (m: Migrated)
    requires forall i :: 0 <= i < |vs| ==> 5 <= vs[i] <= 17
    ensures m == RunFrom(d, versions0, vs, level, now)
  {
    var db, versions := d, versions0;
    var i := 0;
    while i < |vs|
      invariant 0 <= i <= |vs|
      invariant RunFrom(db, versions, vs[i..], level, now) == RunFrom(d, versions0, vs, level, now)
    {
      assert vs[i..] == [vs[i]] + vs[i + 1..];
      var version := vs[i];
      if version > level {
        var o := Up(version, db, now);
        if !o.ok {
          return Migrated(o.db, versions, false);
        }
        db := o.db;
        versions := RecordVersion(versions, version);
      }
      i := i + 1;
    }
    return Migrated(db, versions, true);
  }

  /** What opening the session store does to the schema: the baseline, then the runner. */
  function OpenSpec(d: Db, versions: seq<int>, now: string): Migrated
  {
    var init := InitializeSchema(d, versions);
    if !init.ok then init else RunPending(init.db, init.versions, now)
  }

  method Open(d: Db, versions0: seq<int>, now: string) returns (db: Db, versions: seq<int>, ok: bool)
    ensures Migrated(db, versions, ok) == OpenSpec(d, versions0, now)
  {
    var init := InitializeSchema(d, versions0);
    if !init.ok {
      return init.db, init.versions, false;
    }
    var runner := new MigrationRunner(init.db, init.versions);
    ok := runner.RunPendingMigrations(now);
    db, versions := runner.db, runner.versions;
  }
}
