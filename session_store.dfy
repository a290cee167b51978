/**
 * `SessionStore`, the object the worker holds: one database whose tables its
 * methods update in place.  Each method runs the statements of the source
 * method, in order, against the tables and keeps them valid; what those
 * statements mean is proved about the functions in the Store, StoreImports
 * and StoreQueries modules, which each method's postcondition names.
 */
module SessionDb {
  import opened Wrappers
  import opened Json
  import opened Store
  import opened StoreImports
  import opened StoreQueries

  class SessionStore {
    var db: Tables
    /** The kinds the `observations.type` CHECK admits. */
    const checkedKinds: set<string>

    predicate Valid()
      reads this
    {
      Store.Valid(db)
    }

    constructor (checkedKinds: set<string>)
      ensures Valid() && db == Tables([], [], [], []) && this.checkedKinds == checkedKinds
    {
      db := Tables([], [], [], []);
      this.checkedKinds := checkedKinds;
    }

    /** `createSDKSession`: the upsert, answering the row id. */
    method CreateSDKSession(claudeId: string, project: string, prompt: string, now: int) returns (r: Result<int>)
      requires Valid()
      modifies this
      ensures Valid()
      ensures var c := CreateSession(old(db), claudeId, project, prompt, now);
        && (c.Ok? ==> r == Ok(c.value.id) && db == c.value.db)
        && (c.Err? ==> r.Err? && db == old(db))
    {
      var c := CreateSession(db, claudeId, project, prompt, now);
      if c.Ok? {
        CreateSessionEffect(db, claudeId, project, prompt, now);
        db := c.value.db;
        r := Ok(c.value.id);
      } else {
        r := Err(c.error);
      }
    }

    /** `updateSDKSessionId`: whether the still-NULL SDK session id was set. */
    method UpdateSDKSessionId(id: int, sdkId: string) returns (r: Result<bool>)
      requires Valid()
      modifies this
      ensures Valid()
      ensures var u := UpdateSdkId(old(db), id, sdkId);
        && (u.Ok? ==> r == Ok(u.value.changed) && db == u.value.db)
        && (u.Err? ==> r.Err? && db == old(db))
    {
      var u := UpdateSdkId(db, id, sdkId);
      if u.Ok? {
        if u.value.changed {
          var i := FindFirst(db.sessions, SessionIdIs(id)).value;
          AscendingUpdate(db.sessions, SessionRowId(), i, db.sessions[i].(sdkId := Some(sdkId)));
        }
        db := u.value.db;
        r := Ok(u.value.changed);
      } else {
        r := Err(u.error);
      }
    }

    /** `incrementPromptCounter`. */
    method IncrementPromptCounter(id: int) returns (n: int)
      requires Valid()
      modifies this
      ensures Valid()
      ensures n == Store.IncrementPromptCounter(old(db), id).value && db == Store.IncrementPromptCounter(old(db), id).db
    {
      IncrementThenRead(db, id);
      var c := Store.IncrementPromptCounter(db, id);
      db := c.db;
      n := c.value;
    }

    /** `getPromptCounter`. */
    function GetPromptCounter(id: int): (n: int)
      reads this
      ensures SessionById(db, id).None? ==> n == 0
    {
      PromptCounter(db, id)
    }

    /** `reactivateSession`. */
    method ReactivateSession(id: int, prompt: string)
      requires Valid()
      modifies this
      ensures Valid() && db == Reactivate(old(db), id, prompt)
    {
      UpdateRowEffect(db, id, (s: Session) => s.(status := Active, userPrompt := Some(prompt), workerPort := None));
      db := Reactivate(db, id, prompt);
    }

    /** `markSessionCompleted`. */
    method MarkSessionCompleted(id: int, now: int)
      requires Valid()
      modifies this
      ensures Valid() && db == Finish(old(db), id, Completed, now)
    {
      FinishEffect(db, id, Completed, now);
      db := Finish(db, id, Completed, now);
    }

    /** `markSessionFailed`. */
    method MarkSessionFailed(id: int, now: int)
      requires Valid()
      modifies this
      ensures Valid() && db == Finish(old(db), id, Failed, now)
    {
      FinishEffect(db, id, Failed, now);
      db := Finish(db, id, Failed, now);
    }

    /** `getSessionById`. */
    function GetSessionById(id: int): (r: Option<Session>)
      reads this
      ensures r.Some? ==> r.value in db.sessions && r.value.id == id
    {
      SessionById(db, id)
    }

    /** `findActiveSDKSession`. */
    function FindActiveSDKSession(claudeId: string): (r: Option<Session>)
      reads this
      ensures r.Some? ==> r.value in db.sessions && r.value.claudeId == claudeId && r.value.status == Active
    {
      FindActive(db, claudeId)
    }

    /** `findAnySDKSession`: the row of this Claude session id, whatever its status. */
    function FindAnySDKSession(claudeId: string): (r: Option<Session>)
      reads this
      ensures r.Some? ==> r.value in db.sessions && r.value.claudeId == claudeId
    {
      SessionFor(db, claudeId)
    }

    /**
     * `storeObservation`: the auto-create statement, then the insert.  A
     * failing insert leaves the auto-created row behind.
     */
    method StoreObservation(sdkId: string, project: string, obs: ObservationInput,
                            promptNumber: Option<int>, tokens: int, now: int) returns (r: Result<StoredId>)
      requires Valid()
      modifies this
      ensures Valid()
      ensures var s := Store.StoreObservation(old(db), checkedKinds, sdkId, project, obs, promptNumber, tokens, now);
        r == s.result && db == s.db
    {
      StoreObservationEffect(db, checkedKinds, sdkId, project, obs, promptNumber, tokens, now);
      var ensured := EnsureSession(db, sdkId, project, now);
      if ensured.Err? {
        return Err(ensured.error);
      }
      db := ensured.value;
      if obs.kind !in checkedKinds {
        return Err(TypeCheckFailed);
      }
      var id := NextId(db.observations, ObservationRowId());
      var row := Observation(id, sdkId, project, None, obs.kind, obs.title, obs.subtitle,
                             Some(Stringified(obs.facts)), obs.narrative, Some(Stringified(obs.concepts)),
                             Some(Stringified(obs.filesRead)), Some(Stringified(obs.filesModified)),
                             PromptNumberColumn(promptNumber), tokens, now);
      db := db.(observations := db.observations + [row]);
      r := Ok(StoredId(id, now));
    }

    /** `storeSummary`: the auto-create statement, then the insert. */
    method StoreSummary(sdkId: string, project: string, sum: SummaryInput,
                        promptNumber: Option<int>, tokens: int, now: int) returns (r: Result<StoredId>)
      requires Valid()
      modifies this
      ensures Valid()
      ensures var s := Store.StoreSummary(old(db), sdkId, project, sum, promptNumber, tokens, now);
        r == s.result && db == s.db
    {
      StoreSummaryEffect(db, sdkId, project, sum, promptNumber, tokens, now);
      var ensured := EnsureSession(db, sdkId, project, now);
      if ensured.Err? {
        return Err(ensured.error);
      }
      db := ensured.value;
      var id := NextId(db.summaries, SummaryRowId());
      var row := Summary(id, sdkId, project, sum.request, sum.investigated, sum.learned, sum.completed,
                         sum.nextSteps, None, None, sum.notes, PromptNumberColumn(promptNumber), tokens, now);
      db := db.(summaries := db.summaries + [row]);
      r := Ok(StoredId(id, now));
    }

    /** `importSdkSession`. */
    method ImportSdkSession(rec: SessionRecord) returns (r: Result<ImportOutcome>)
      requires Valid()
      modifies this
      ensures Valid()
      ensures r == ImportSession(old(db), rec) && (r.Ok? ==> db == r.value.db) && (r.Err? ==> db == old(db))
    {
      r := ImportSession(db, rec);
      if r.Ok? {
        if r.value.imported {
          ImportSessionEffect(db, rec);
        }
        db := r.value.db;
      }
    }

    /** `importSessionSummary`. */
    method ImportSessionSummary(rec: SummaryRecord) returns (r: Result<ImportOutcome>)
      requires Valid()
      modifies this
      ensures Valid()
      ensures r == ImportSummary(old(db), rec)
      ensures r.Ok? ==> db == r.value.db
      ensures r.Err? ==> db == old(db)
    {
      r := ImportSummary(db, rec);
      if r.Ok? {
        ImportSummaryTwice(db, rec);
        db := r.value.db;
      }
    }

    /** `importObservation`, with its title lookup as written. */
    method ImportObservation(rec: ObservationRecord) returns (r: Result<ImportOutcome>)
      requires Valid()
      modifies this
      ensures Valid()
      ensures r == StoreImports.ImportObservation(old(db), checkedKinds, rec)
      ensures r.Ok? ==> db == r.value.db
      ensures r.Err? ==> db == old(db)
    {
      r := StoreImports.ImportObservation(db, checkedKinds, rec);
      if r.Ok? {
        ImportObservationByEffect(db, checkedKinds, rec, SameObservation(rec));
        db := r.value.db;
      }
    }

    /** `importUserPrompt`. */
    method ImportUserPrompt(rec: PromptRecord) returns (r: ImportOutcome)
      requires Valid()
      modifies this
      ensures Valid()
      ensures r == ImportPrompt(old(db), rec) && db == r.db
    {
      ImportPromptTwice(db, rec);
      r := ImportPrompt(db, rec);
      db := r.db;
    }

    /** `getFilesForSession`. */
    method GetFilesForSession(sdkId: string, parse: string -> Option<Value>)
      returns (filesRead: seq<Value>, filesModified: seq<Value>)
      ensures filesRead == Union(OfSession(db, sdkId), FilesReadColumn, parse)
      ensures filesModified == Union(OfSession(db, sdkId), FilesModifiedColumn, parse)
    {
      filesRead, filesModified := StoreQueries.GetFilesForSession(db, sdkId, parse);
    }

    /** `getTimelineAroundObservation` / `getTimelineAroundTimestamp`. */
    function GetTimeline(anchorId: Option<int>, epoch: int, before: nat, after: nat, project: string): (w: Window)
      reads this
      ensures forall o :: o in w.observations ==> o in db.observations && InProject(o.project, project)
    {
      TimelineMembers(db, anchorId, epoch, before, after, project);
      Timeline(db, anchorId, epoch, before, after, project)
    }
  }
}
