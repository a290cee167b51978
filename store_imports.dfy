/**
 * The store's `import*` operations, which copy exported rows into the
 * database unless a matching row is already there.  Each looks the row up by
 * its natural key and reports `{imported: false, id}` for a match, or inserts
 * it and reports `{imported: true, id}`.
 *
 * `importObservation` matches on `title = ?`, and in SQL a NULL title equals
 * nothing, so an exported observation without a title is inserted again on
 * every import.  `ImportObservation` is that lookup as written;
 * `ImportObservationNullSafe` is the same operation matching titles with `IS`,
 * which makes every import idempotent.
 *
 * The store opens with `PRAGMA foreign_keys = ON`, and both `observations`
 * and `session_summaries` reference `sdk_sessions(sdk_session_id)`, so an
 * exported row of a session the database does not know fails to insert.
 */
module StoreImports {
  import opened Wrappers
  import opened Store

  datatype ImportOutcome = ImportOutcome(imported: bool, id: int, db: Tables)

  /** An exported `sdk_sessions` row. */
  datatype SessionRecord = SessionRecord(
    claudeId: string, sdkId: Option<string>, project: string, userPrompt: Option<string>,
    startedEpoch: int, completedEpoch: Option<int>, status: Status)

  /** An exported `session_summaries` row; JSON columns travel as raw text. */
  datatype SummaryRecord = SummaryRecord(
    sdkId: string, project: string, request: Option<string>, investigated: Option<string>,
    learned: Option<string>, completed: Option<string>, nextSteps: Option<string>,
    filesRead: Option<string>, filesEdited: Option<string>, notes: Option<string>,
    promptNumber: Option<int>, discoveryTokens: Option<int>, epoch: int)

  /** An exported `observations` row. */
  datatype ObservationRecord = ObservationRecord(
    sdkId: string, project: string, text: Option<string>, kind: string, title: Option<string>,
    subtitle: Option<string>, facts: Option<string>, narrative: Option<string>, concepts: Option<string>,
    filesRead: Option<string>, filesModified: Option<string>, promptNumber: Option<int>,
    discoveryTokens: Option<int>, epoch: int)

  /** An exported `user_prompts` row. */
  datatype PromptRecord = PromptRecord(claudeId: string, promptNumber: int, text: string, epoch: int)

  function RawColumn(c: Option<string>): Option<JsonText>
  {
    match c
    case None => None
    case Some(x) => Some(Raw(x))
  }

  /** `discovery_tokens || 0`. */
  function TokensColumn(n: Option<int>): (r: int)
    ensures n.Some? ==> r == n.value
    ensures n.None? ==> r == 0
  {
    if n.Some? then n.value else 0
  }

  // ------------------------------------------------------------ sessions

  /** `importSdkSession`: keyed on the Claude session id; the insert can still clash on the SDK session id. */
  function ImportSession(t: Tables, rec: SessionRecord): (r: Result<ImportOutcome>)
    ensures SessionFor(t, rec.claudeId).Some? ==>
      r == Ok(ImportOutcome(false, SessionFor(t, rec.claudeId).value.id, t))
    ensures r.Err? <==> (SessionFor(t, rec.claudeId).None? && rec.sdkId.Some? &&
                         FindFirst(t.sessions, SdkIs(rec.sdkId.value)).Some?)
  {
    match FindFirst(t.sessions, ClaudeIs(rec.claudeId))
    case Some(i) => Ok(ImportOutcome(false, t.sessions[i].id, t))
    case None =>
      if rec.sdkId.Some? && FindFirst(t.sessions, SdkIs(rec.sdkId.value)).Some? then Err(UniqueSdkSessionId)
      else
        var id := NextId(t.sessions, SessionRowId());
        var row := Session(id, rec.claudeId, rec.sdkId, rec.project, rec.userPrompt, rec.startedEpoch,
                           rec.completedEpoch, rec.status, 0, None);
        Ok(ImportOutcome(true, id, t.(sessions := t.sessions + [row])))
  }

  /** An inserted session is the record with a new rowid, the rows stay valid, and its Claude id now finds it. */
  lemma ImportSessionEffect(t: Tables, rec: SessionRecord)
    requires Valid(t) && ImportSession(t, rec).Ok? && ImportSession(t, rec).value.imported
    ensures var o := ImportSession(t, rec).value;
      && Valid(o.db)
      && o.db.sessions == t.sessions + [Session(o.id, rec.claudeId, rec.sdkId, rec.project, rec.userPrompt,
                                                rec.startedEpoch, rec.completedEpoch, rec.status, 0, None)]
      && SessionFor(o.db, rec.claudeId) == Some(o.db.sessions[|t.sessions|])
  {
    var o := ImportSession(t, rec).value;
    var row := Session(o.id, rec.claudeId, rec.sdkId, rec.project, rec.userPrompt,
                       rec.startedEpoch, rec.completedEpoch, rec.status, 0, None);
    assert FindFirst(t.sessions, ClaudeIs(rec.claudeId)).None?;
    assert o.db == t.(sessions := t.sessions + [row]);
    forall j | 0 <= j < |t.sessions| && t.sessions[j].sdkId.Some?
      ensures t.sessions[j].sdkId != row.sdkId
    {
      if rec.sdkId.Some? {
        assert !SdkIs(rec.sdkId.value)(t.sessions[j]);
      }
    }
    AppendSessionValid(t, row);
    FindFirstAppend(t.sessions, row, ClaudeIs(rec.claudeId));
  }

  /** Appending a session row with the next rowid and fresh Claude and SDK session ids keeps the rows valid. */
  lemma AppendSessionValid(t: Tables, row: Session)
    requires Valid(t) && row.id == NextId(t.sessions, SessionRowId()) && row.promptCounter >= 0
    requires forall j :: 0 <= j < |t.sessions| ==> t.sessions[j].claudeId != row.claudeId
    requires forall j :: 0 <= j < |t.sessions| && t.sessions[j].sdkId.Some? ==> t.sessions[j].sdkId != row.sdkId
    ensures Valid(t.(sessions := t.sessions + [row]))
  {
    var u := t.sessions + [row];
    AscendingAppend(t.sessions, SessionRowId(), row);
    assert forall j :: 0 <= j < |t.sessions| ==> u[j] == t.sessions[j];
    assert u[|t.sessions|] == row;
  }

  /** Importing a session a second time finds the first import's row and writes nothing. */
  lemma ImportSessionTwice(t: Tables, rec: SessionRecord)
    requires Valid(t) && ImportSession(t, rec).Ok?
    ensures var o := ImportSession(t, rec).value;
      ImportSession(o.db, rec) == Ok(ImportOutcome(false, o.id, o.db))
  {
    if ImportSession(t, rec).value.imported {
      ImportSessionEffect(t, rec);
    }
  }

  // ------------------------------------------------------------ summaries

  function SummarySdkIs(sdk: string): Summary -> bool
  {
    (s: Summary) => s.sdkId == sdk
  }

  /** The foreign key of an imported row: some `sdk_sessions` row owns its SDK session id. */
  predicate KnownSdkSession(t: Tables, sdkId: string)
  {
    FindFirst(t.sessions, SdkIs(sdkId)).Some?
  }

  function SummaryRow(id: int, rec: SummaryRecord): Summary
  {
    Summary(id, rec.sdkId, rec.project, rec.request, rec.investigated, rec.learned, rec.completed,
            rec.nextSteps, RawColumn(rec.filesRead), RawColumn(rec.filesEdited), rec.notes,
            rec.promptNumber, TokensColumn(rec.discoveryTokens), rec.epoch)
  }

  /**
   * `importSessionSummary`: keyed on the SDK session id alone; the insert
   * fails on the foreign key when no session owns that id.
   */
  function ImportSummary(t: Tables, rec: SummaryRecord): (r: Result<ImportOutcome>)
    ensures FindFirst(t.summaries, SummarySdkIs(rec.sdkId)).Some? ==>
      r == Ok(ImportOutcome(false, t.summaries[FindFirst(t.summaries, SummarySdkIs(rec.sdkId)).value].id, t))
    ensures r.Err? <==> FindFirst(t.summaries, SummarySdkIs(rec.sdkId)).None? && !KnownSdkSession(t, rec.sdkId)
    ensures r.Err? ==> r.error == ForeignKeyFailed
    ensures r.Ok? && r.value.imported ==>
      r.value.db == t.(summaries := t.summaries + [SummaryRow(r.value.id, rec)]) &&
      r.value.id == NextId(t.summaries, SummaryRowId())
  {
    match FindFirst(t.summaries, SummarySdkIs(rec.sdkId))
    case Some(i) => Ok(ImportOutcome(false, t.summaries[i].id, t))
    case None =>
      if !KnownSdkSession(t, rec.sdkId) then Err(ForeignKeyFailed)
      else
        var id := NextId(t.summaries, SummaryRowId());
        Ok(ImportOutcome(true, id, t.(summaries := t.summaries + [SummaryRow(id, rec)])))
  }

  /** Importing a summary keeps the rows valid, and a second import of it finds the first and writes nothing. */
  lemma ImportSummaryTwice(t: Tables, rec: SummaryRecord)
    requires Valid(t) && ImportSummary(t, rec).Ok?
    ensures var o := ImportSummary(t, rec).value;
      Valid(o.db) && ImportSummary(o.db, rec) == Ok(ImportOutcome(false, o.id, o.db))
  {
    var o := ImportSummary(t, rec).value;
    if o.imported {
      var row := o.db.summaries[|t.summaries|];
      AscendingAppend(t.summaries, SummaryRowId(), row);
      FindFirstAppend(t.summaries, row, SummarySdkIs(rec.sdkId));
    }
  }

  // ------------------------------------------------------------ observations

  /** SQL's `a = b` on nullable text: NULL on either side matches nothing. */
  predicate SqlEquals(a: Option<string>, b: Option<string>)
  {
    a.Some? && b.Some? && a.value == b.value
  }

  /** The lookup `importObservation` runs, as written: `sdk_session_id = ? AND title = ? AND created_at_epoch = ?`. */
  function SameObservation(rec: ObservationRecord): Observation -> bool
  {
    (o: Observation) => o.sdkId == rec.sdkId && SqlEquals(o.title, rec.title) && o.epoch == rec.epoch
  }

  /** The same lookup with `title IS ?`, which treats two NULL titles as equal. */
  function SameObservationNullSafe(rec: ObservationRecord): Observation -> bool
  {
    (o: Observation) => o.sdkId == rec.sdkId && o.title == rec.title && o.epoch == rec.epoch
  }

  function RecordRow(id: int, rec: ObservationRecord): Observation
  {
    Observation(id, rec.sdkId, rec.project, rec.text, rec.kind, rec.title, rec.subtitle, RawColumn(rec.facts),
                rec.narrative, RawColumn(rec.concepts), RawColumn(rec.filesRead), RawColumn(rec.filesModified),
                rec.promptNumber, TokensColumn(rec.discoveryTokens), rec.epoch)
  }

  /**
   * Look a record up with `matches`; insert it when nothing matches, its kind
   * passes the CHECK and its session exists.
   */
  function ImportObservationBy(t: Tables, checkedKinds: set<string>, rec: ObservationRecord,
                               matches: Observation -> bool): (r: Result<ImportOutcome>)
    ensures FindFirst(t.observations, matches).Some? ==>
      r == Ok(ImportOutcome(false, t.observations[FindFirst(t.observations, matches).value].id, t))
    ensures r.Err? <==> FindFirst(t.observations, matches).None? &&
                        (rec.kind !in checkedKinds || !KnownSdkSession(t, rec.sdkId))
    ensures r.Err? ==> r.error == (if rec.kind !in checkedKinds then TypeCheckFailed else ForeignKeyFailed)
    ensures r.Ok? && r.value.imported ==>
      r.value.db == t.(observations := t.observations + [RecordRow(r.value.id, rec)]) &&
      r.value.id == NextId(t.observations, ObservationRowId())
  {
    match FindFirst(t.observations, matches)
    case Some(i) => Ok(ImportOutcome(false, t.observations[i].id, t))
    case None =>
      if rec.kind !in checkedKinds then Err(TypeCheckFailed)
      else if !KnownSdkSession(t, rec.sdkId) then Err(ForeignKeyFailed)
      else
        var id := NextId(t.observations, ObservationRowId());
        Ok(ImportOutcome(true, id, t.(observations := t.observations + [RecordRow(id, rec)])))
  }

  /** `importObservation` as written. */
  function ImportObservation(t: Tables, checkedKinds: set<string>, rec: ObservationRecord): (r: Result<ImportOutcome>)
  {
    ImportObservationBy(t, checkedKinds, rec, SameObservation(rec))
  }

  /** `importObservation` with a NULL-safe title comparison: what its `{imported: false}` answer is for. */
  function ImportObservationNullSafe(t: Tables, checkedKinds: set<string>, rec: ObservationRecord): (r: Result<ImportOutcome>)
    ensures r.Ok? && !r.value.imported ==> r.value.db == t
  {
    ImportObservationBy(t, checkedKinds, rec, SameObservationNullSafe(rec))
  }

  /** With a NULL title the as-written lookup matches no row at all. */
  lemma NoNullTitleMatch(s: seq<Observation>, rec: ObservationRecord)
    requires rec.title.None?
    ensures FindFirst(s, SameObservation(rec)).None?
  {
  }

  /** Inserting a row keeps the table valid, and the row then matches any lookup it satisfies. */
  lemma ImportObservationByEffect(t: Tables, checkedKinds: set<string>, rec: ObservationRecord, matches: Observation -> bool)
    requires Valid(t) && ImportObservationBy(t, checkedKinds, rec, matches).Ok?
    ensures var o := ImportObservationBy(t, checkedKinds, rec, matches).value;
      Valid(o.db) &&
      (matches(RecordRow(o.id, rec)) ==> ImportObservationBy(o.db, checkedKinds, rec, matches) == Ok(ImportOutcome(false, o.id, o.db)))
  {
    var o := ImportObservationBy(t, checkedKinds, rec, matches).value;
    if o.imported {
      var row := RecordRow(o.id, rec);
      AscendingAppend(t.observations, ObservationRowId(), row);
      FindFirstAppend(t.observations, row, matches);
    }
  }

  /** With the NULL-safe lookup every successful import is idempotent: the second finds the first's row. */
  lemma ImportObservationNullSafeTwice(t: Tables, checkedKinds: set<string>, rec: ObservationRecord)
    requires Valid(t) && ImportObservationNullSafe(t, checkedKinds, rec).Ok?
    ensures var o := ImportObservationNullSafe(t, checkedKinds, rec).value;
      Valid(o.db) && ImportObservationNullSafe(o.db, checkedKinds, rec) == Ok(ImportOutcome(false, o.id, o.db))
  {
    ImportObservationByEffect(t, checkedKinds, rec, SameObservationNullSafe(rec));
  }

  /** As written, the import is idempotent only for records that carry a title. */
  lemma ImportObservationTitledTwice(t: Tables, checkedKinds: set<string>, rec: ObservationRecord)
    requires Valid(t) && rec.title.Some? && ImportObservation(t, checkedKinds, rec).Ok?
    ensures var o := ImportObservation(t, checkedKinds, rec).value;
      Valid(o.db) && ImportObservation(o.db, checkedKinds, rec) == Ok(ImportOutcome(false, o.id, o.db))
  {
    ImportObservationByEffect(t, checkedKinds, rec, SameObservation(rec));
  }

  /**
   * The discrepancy: importing an untitled observation twice inserts it twice,
   * and both calls report `imported: true`.
   */
  lemma ImportObservationNullTitleDuplicates(t: Tables, checkedKinds: set<string>, rec: ObservationRecord)
    requires Valid(t) && rec.title.None? && rec.kind in checkedKinds && KnownSdkSession(t, rec.sdkId)
    ensures var o1 := ImportObservation(t, checkedKinds, rec);
      && o1.Ok? && o1.value.imported
      && var o2 := ImportObservation(o1.value.db, checkedKinds, rec);
      && o2.Ok? && o2.value.imported && o2.value.id != o1.value.id
      && |o2.value.db.observations| == |t.observations| + 2
      && o2.value.db.observations[|t.observations|..] == [RecordRow(o1.value.id, rec), RecordRow(o2.value.id, rec)]
  {
    NoNullTitleMatch(t.observations, rec);
    var o1 := ImportObservation(t, checkedKinds, rec).value;
    ImportObservationByEffect(t, checkedKinds, rec, SameObservation(rec));
    NoNullTitleMatch(o1.db.observations, rec);
    var o2 := ImportObservation(o1.db, checkedKinds, rec).value;
    assert o1.id < o2.id;
  }

  /**
   * Importing the session first satisfies the foreign key: its summary and
   * observations, of a kind the CHECK admits, are then accepted.
   */
  lemma SessionFirstSatisfiesKey(t: Tables, srec: SessionRecord, sdkId: string)
    requires Valid(t) && srec.sdkId == Some(sdkId)
    requires ImportSession(t, srec).Ok? && ImportSession(t, srec).value.imported
    ensures KnownSdkSession(ImportSession(t, srec).value.db, sdkId)
    ensures forall rec: SummaryRecord :: rec.sdkId == sdkId ==> ImportSummary(ImportSession(t, srec).value.db, rec).Ok?
    ensures forall checkedKinds, rec: ObservationRecord, matches ::
      rec.sdkId == sdkId && rec.kind in checkedKinds ==>
      ImportObservationBy(ImportSession(t, srec).value.db, checkedKinds, rec, matches).Ok?
  {
    var db := ImportSession(t, srec).value.db;
    ImportSessionEffect(t, srec);
    assert SdkIs(sdkId)(db.sessions[|t.sessions|]);
  }

  // ------------------------------------------------------------ prompts

  function SamePrompt(rec: PromptRecord): Prompt -> bool
  {
    (p: Prompt) => p.claudeId == rec.claudeId && p.promptNumber == rec.promptNumber
  }

  /** `importUserPrompt`: keyed on the Claude session id and the prompt number. */
  function ImportPrompt(t: Tables, rec: PromptRecord): (r: ImportOutcome)
    ensures !r.imported <==> FindFirst(t.prompts, SamePrompt(rec)).Some?
    ensures !r.imported ==> r.db == t
  {
    match FindFirst(t.prompts, SamePrompt(rec))
    case Some(i) => ImportOutcome(false, t.prompts[i].id, t)
    case None =>
      var id := NextId(t.prompts, PromptRowId());
      ImportOutcome(true, id, t.(prompts := t.prompts + [Prompt(id, rec.claudeId, rec.promptNumber, rec.text, rec.epoch)]))
  }

  /** Importing a prompt keeps the rows valid, and a second import of it finds the first and writes nothing. */
  lemma ImportPromptTwice(t: Tables, rec: PromptRecord)
    requires Valid(t)
    ensures var o := ImportPrompt(t, rec);
      Valid(o.db) && ImportPrompt(o.db, rec) == ImportOutcome(false, o.id, o.db)
  {
    var o := ImportPrompt(t, rec);
    if o.imported {
      var row := o.db.prompts[|t.prompts|];
      AscendingAppend(t.prompts, PromptRowId(), row);
      FindFirstAppend(t.prompts, row, SamePrompt(rec));
    }
  }
}
