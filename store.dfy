/**
 * The session store's tables and the writes the worker makes to them:
 * `createSDKSession`'s upsert, `updateSDKSessionId`, the prompt counter,
 * reactivation, marking a session completed or failed, and
 * `storeObservation` / `storeSummary` with their auto-created session row.
 *
 * Each table is a sequence of rows in rowid order.  A new row gets rowid
 * one past the last one, as SQLite's `INTEGER PRIMARY KEY AUTOINCREMENT`
 * does while nothing is deleted.  Each operation is a function from the
 * tables before to its answer and the tables after; a constraint violation
 * is an `Err` that leaves the statement's table as it was.  The schema is
 * the one the migrations leave behind: `claude_session_id` and
 * `sdk_session_id` are unique on `sdk_sessions`, and the `observations.type`
 * CHECK admits the set of kinds the store was opened with.
 */
module Store {
  import opened Wrappers

  datatype Status = Active | Completed | Failed

  /** An `sdk_sessions` row.  `prompt_counter` is never NULL: its column defaults to 0. */
  datatype Session = Session(
    id: int, claudeId: string, sdkId: Option<string>, project: string,
    userPrompt: Option<string>, startedEpoch: int, completedEpoch: Option<int>,
    status: Status, promptCounter: int, workerPort: Option<int>)

  /**
   * A JSON text column.  `Stringified(items)` is what `JSON.stringify` wrote for
   * a list of strings, so parsing it gives that list back; `Raw(text)` is text
   * that arrived by import and is parsed by whatever the reader's parser says.
   */
  datatype JsonText = Stringified(items: seq<string>) | Raw(text: string)

  /** An `observations` row. */
  datatype Observation = Observation(
    id: int, sdkId: string, project: string, text: Option<string>, kind: string,
    title: Option<string>, subtitle: Option<string>, facts: Option<JsonText>,
    narrative: Option<string>, concepts: Option<JsonText>, filesRead: Option<JsonText>,
    filesModified: Option<JsonText>, promptNumber: Option<int>, discoveryTokens: int, epoch: int)

  /** A `session_summaries` row. */
  datatype Summary = Summary(
    id: int, sdkId: string, project: string, request: Option<string>,
    investigated: Option<string>, learned: Option<string>, completed: Option<string>,
    nextSteps: Option<string>, filesRead: Option<JsonText>, filesEdited: Option<JsonText>,
    notes: Option<string>, promptNumber: Option<int>, discoveryTokens: int, epoch: int)

  /** A `user_prompts` row. */
  datatype Prompt = Prompt(id: int, claudeId: string, promptNumber: int, text: string, epoch: int)

  datatype Tables = Tables(
    sessions: seq<Session>, observations: seq<Observation>,
    summaries: seq<Summary>, prompts: seq<Prompt>)

  // ------------------------------------------------------------ row lookup

  /** The first row satisfying `p`: what `.get()` returns for a query whose rows are in rowid order. */
  function FindFirst<T>(s: seq<T>, p: T -> bool): (r: Option<nat>)
    ensures r.Some? ==> r.value < |s| && p(s[r.value]) && forall j :: 0 <= j < r.value ==> !p(s[j])
    ensures r.None? ==> forall j :: 0 <= j < |s| ==> !p(s[j])
  {
    if s == [] then None
    else if p(s[0]) then Some(0)
    else match FindFirst(s[1..], p)
      case None => None
      case Some(k) => Some(k + 1)
  }

  function ClaudeIs(c: string): Session -> bool
  {
    (s: Session) => s.claudeId == c
  }

  function SdkIs(sdk: string): Session -> bool
  {
    (s: Session) => s.sdkId == Some(sdk)
  }

  function SessionIdIs(id: int): Session -> bool
  {
    (s: Session) => s.id == id
  }

  /** Rowids strictly increase along the table. */
  predicate Ascending<T>(s: seq<T>, id: T -> int)
  {
    forall i, j :: 0 <= i < j < |s| ==> id(s[i]) < id(s[j])
  }

  /** The rowid the next insert gets. */
  function NextId<T>(s: seq<T>, id: T -> int): (r: int)
    ensures Ascending(s, id) ==> forall i :: 0 <= i < |s| ==> id(s[i]) < r
  {
    if s == [] then 1 else id(s[|s| - 1]) + 1
  }

  function SessionRowId(): Session -> int { (s: Session) => s.id }
  function ObservationRowId(): Observation -> int { (o: Observation) => o.id }
  function SummaryRowId(): Summary -> int { (s: Summary) => s.id }
  function PromptRowId(): Prompt -> int { (p: Prompt) => p.id }

  /** The constraints every state of the store meets. */
  predicate Valid(t: Tables)
  {
    && Ascending(t.sessions, SessionRowId())
    && Ascending(t.observations, ObservationRowId())
    && Ascending(t.summaries, SummaryRowId())
    && Ascending(t.prompts, PromptRowId())
    && (forall i, j :: 0 <= i < j < |t.sessions| ==> t.sessions[i].claudeId != t.sessions[j].claudeId)
    && (forall i, j :: 0 <= i < j < |t.sessions| && t.sessions[i].sdkId.Some? ==>
          t.sessions[i].sdkId != t.sessions[j].sdkId)
    && (forall i :: 0 <= i < |t.sessions| ==> t.sessions[i].promptCounter >= 0)
  }

  /** Replacing a row by one with the same rowid keeps the rowids ascending. */
  lemma AscendingUpdate<T>(s: seq<T>, id: T -> int, i: nat, x: T)
    requires Ascending(s, id) && i < |s| && id(x) == id(s[i])
    ensures Ascending(s[i := x], id)
  {
    var u := s[i := x];
    assert forall a :: 0 <= a < |u| ==> id(u[a]) == id(s[a]);
  }

  /** Appending a row with the next rowid keeps the rowids ascending. */
  lemma AscendingAppend<T>(s: seq<T>, id: T -> int, x: T)
    requires Ascending(s, id) && id(x) == NextId(s, id)
    ensures Ascending(s + [x], id)
  {
  }

  /** Two tables on which a predicate holds at the same positions have the same first match. */
  lemma {:induction false} FindFirstAgree<T>(s: seq<T>, u: seq<T>, p: T -> bool)
    requires |s| == |u| && forall j :: 0 <= j < |s| ==> p(s[j]) == p(u[j])
    ensures FindFirst(s, p) == FindFirst(u, p)
  {
    if s != [] {
      FindFirstAgree(s[1..], u[1..], p);
    }
  }

  /** The first match after an append: the old one, else the new row if it matches. */
  lemma {:induction false} FindFirstAppend<T>(s: seq<T>, x: T, p: T -> bool)
    ensures FindFirst(s + [x], p) ==
      if FindFirst(s, p).Some? then FindFirst(s, p) else if p(x) then Some(|s|) else None
  {
    var u := s + [x];
    if s == [] {
      assert u == [x] && u[1..] == [];
    } else {
      assert u[0] == s[0] && u[1..] == s[1..] + [x];
      if !p(s[0]) {
        FindFirstAppend(s[1..], x, p);
      }
    }
  }

  // ------------------------------------------------------------ sessions

  /** The row of the session with this Claude session id. */
  function SessionFor(t: Tables, claudeId: string): (r: Option<Session>)
    ensures r.Some? ==> r.value in t.sessions && r.value.claudeId == claudeId
    ensures r.None? ==> forall s :: s in t.sessions ==> s.claudeId != claudeId
  {
    match FindFirst(t.sessions, ClaudeIs(claudeId))
    case None => None
    case Some(i) => Some(t.sessions[i])
  }

  /** `findActiveSDKSession`: the row with this Claude session id, if its status is active. */
  function FindActive(t: Tables, claudeId: string): (r: Option<Session>)
    ensures r.Some? <==> SessionFor(t, claudeId).Some? && SessionFor(t, claudeId).value.status == Active
    ensures r.Some? ==> r == SessionFor(t, claudeId)
  {
    match SessionFor(t, claudeId)
    case None => None
    case Some(s) => if s.status == Active then Some(s) else None
  }

  /** `getSessionById`. */
  function SessionById(t: Tables, id: int): (r: Option<Session>)
    ensures r.Some? ==> r.value in t.sessions && r.value.id == id
    ensures r.None? ==> forall s :: s in t.sessions ==> s.id != id
  {
    match FindFirst(t.sessions, SessionIdIs(id))
    case None => None
    case Some(i) => Some(t.sessions[i])
  }

  /** A fresh `sdk_sessions` row as the store's INSERTs write it: active, counter 0, no port. */
  function NewSession(t: Tables, claudeId: string, sdkId: string, project: string,
                      prompt: Option<string>, now: int): Session
  {
    Session(NextId(t.sessions, SessionRowId()), claudeId, Some(sdkId), project, prompt, now, None, Active, 0, None)
  }

  datatype Created = Created(id: int, db: Tables)

  /** `ON CONFLICT DO UPDATE SET x = COALESCE(NULLIF(?, ''), x)`: a blank argument keeps the old value. */
  function Coalesce(arg: string, current: string): string
  {
    if arg != "" then arg else current
  }

  /**
   * `createSDKSession`: insert an active row whose `sdk_session_id` is the
   * Claude session id; when that Claude session id already has a row, only
   * its project and user prompt are overwritten, and only by non-blank
   * arguments.  The insert fails when another row already owns the id as
   * its `sdk_session_id` (a unique column outside the ON CONFLICT target).
   */
  function CreateSession(t: Tables, claudeId: string, project: string, prompt: string, now: int): (r: Result<Created>)
    ensures r.Err? <==> SessionFor(t, claudeId).None? && FindFirst(t.sessions, SdkIs(claudeId)).Some?
    ensures r.Err? ==> r.error == UniqueSdkSessionId
  {
    match FindFirst(t.sessions, ClaudeIs(claudeId))
    case Some(i) =>
      var s := t.sessions[i];
      var userPrompt := if prompt != "" then Some(prompt) else s.userPrompt;
      Ok(Created(s.id, t.(sessions := t.sessions[i := s.(project := Coalesce(project, s.project), userPrompt := userPrompt)])))
    case None =>
      if FindFirst(t.sessions, SdkIs(claudeId)).Some? then Err(UniqueSdkSessionId)
      else
        var s := NewSession(t, claudeId, claudeId, project, Some(prompt), now);
        Ok(Created(s.id, t.(sessions := t.sessions + [s])))
  }

  const UniqueSdkSessionId := "UNIQUE constraint failed: sdk_sessions.sdk_session_id"
  const UniqueClaudeSessionId := "UNIQUE constraint failed: sdk_sessions.claude_session_id"
  const TypeCheckFailed := "CHECK constraint failed: observations.type"
  const ForeignKeyFailed := "FOREIGN KEY constraint failed"

  /** The row a successful upsert leaves for the Claude session id, given the row it had before. */
  function Upserted(before: Option<Session>, id: int, claudeId: string, project: string, prompt: string, now: int): Session
  {
    match before
    case None => Session(id, claudeId, Some(claudeId), project, Some(prompt), now, None, Active, 0, None)
    case Some(s) =>
      s.(project := if project == "" then s.project else project,
         userPrompt := if prompt == "" then s.userPrompt else Some(prompt))
  }

  /**
   * After a successful upsert the Claude session id has exactly the row whose
   * id was returned: a new active one carrying the arguments, or the old one
   * with non-blank arguments written over its project and prompt.  Every other
   * row stays where it was, the table grows only by an insert, and the rows
   * stay valid.
   */
  lemma CreateSessionEffect(t: Tables, claudeId: string, project: string, prompt: string, now: int)
    requires Valid(t)
    requires CreateSession(t, claudeId, project, prompt, now).Ok?
    ensures var c := CreateSession(t, claudeId, project, prompt, now).value;
      && Valid(c.db)
      && SessionFor(c.db, claudeId) == Some(Upserted(SessionFor(t, claudeId), c.id, claudeId, project, prompt, now))
      && c.db.observations == t.observations && c.db.summaries == t.summaries && c.db.prompts == t.prompts
      && |c.db.sessions| == |t.sessions| + (if SessionFor(t, claudeId).None? then 1 else 0)
      && (forall j :: 0 <= j < |t.sessions| && t.sessions[j].claudeId != claudeId ==> c.db.sessions[j] == t.sessions[j])
  {
    match FindFirst(t.sessions, ClaudeIs(claudeId))
    case Some(i) => UpsertExisting(t, i, claudeId, project, prompt);
    case None => UpsertNew(t, claudeId, project, prompt, now);
  }

  lemma UpsertExisting(t: Tables, i: nat, claudeId: string, project: string, prompt: string)
    requires Valid(t) && FindFirst(t.sessions, ClaudeIs(claudeId)) == Some(i)
    ensures var s := t.sessions[i];
      var s' := s.(project := Coalesce(project, s.project), userPrompt := if prompt != "" then Some(prompt) else s.userPrompt);
      var d := t.(sessions := t.sessions[i := s']);
      Valid(d) && FindFirst(d.sessions, ClaudeIs(claudeId)) == Some(i)
  {
    var s := t.sessions[i];
    var s' := s.(project := Coalesce(project, s.project), userPrompt := if prompt != "" then Some(prompt) else s.userPrompt);
    var d := t.(sessions := t.sessions[i := s']);
    AscendingUpdate(t.sessions, SessionRowId(), i, s');
    FindFirstAgree(t.sessions, d.sessions, ClaudeIs(claudeId));
    assert forall j :: 0 <= j < |d.sessions| ==>
      d.sessions[j].claudeId == t.sessions[j].claudeId && d.sessions[j].sdkId == t.sessions[j].sdkId &&
      d.sessions[j].promptCounter == t.sessions[j].promptCounter;
  }

  lemma UpsertNew(t: Tables, claudeId: string, project: string, prompt: string, now: int)
    requires Valid(t) && FindFirst(t.sessions, ClaudeIs(claudeId)).None? && FindFirst(t.sessions, SdkIs(claudeId)).None?
    ensures var d := t.(sessions := t.sessions + [NewSession(t, claudeId, claudeId, project, Some(prompt), now)]);
      Valid(d) && FindFirst(d.sessions, ClaudeIs(claudeId)) == Some(|t.sessions|)
  {
    var s := NewSession(t, claudeId, claudeId, project, Some(prompt), now);
    var d := t.(sessions := t.sessions + [s]);
    AscendingAppend(t.sessions, SessionRowId(), s);
    FindFirstAppend(t.sessions, s, ClaudeIs(claudeId));
    assert forall j :: 0 <= j < |t.sessions| ==> d.sessions[j] == t.sessions[j];
  }

  /** Repeating the same upsert returns the same id and changes nothing more. */
  lemma CreateSessionTwice(t: Tables, claudeId: string, project: string, prompt: string, now: int, later: int)
    requires Valid(t)
    requires CreateSession(t, claudeId, project, prompt, now).Ok?
    ensures var c := CreateSession(t, claudeId, project, prompt, now).value;
      CreateSession(c.db, claudeId, project, prompt, later) == Ok(c)
  {
    var c := CreateSession(t, claudeId, project, prompt, now).value;
    CreateSessionEffect(t, claudeId, project, prompt, now);
    var i := FindFirst(c.db.sessions, ClaudeIs(claudeId)).value;
    var s := c.db.sessions[i];
    assert s.project == Coalesce(project, s.project);
    assert c.db.sessions[i := s] == c.db.sessions;
  }

  datatype Updated = Updated(changed: bool, db: Tables)

  /**
   * `updateSDKSessionId`: set the SDK session id of row `id` only while it is
   * still NULL, reporting whether a row changed; an id another row already
   * owns violates its uniqueness.
   */
  function UpdateSdkId(t: Tables, id: int, sdkId: string): (r: Result<Updated>)
    ensures r.Ok? && !r.value.changed ==> r.value.db == t
    ensures r.Ok? && r.value.changed <==>
      SessionById(t, id).Some? && SessionById(t, id).value.sdkId.None? && FindFirst(t.sessions, SdkIs(sdkId)).None?
    ensures r.Err? <==>
      SessionById(t, id).Some? && SessionById(t, id).value.sdkId.None? && FindFirst(t.sessions, SdkIs(sdkId)).Some?
  {
    match FindFirst(t.sessions, SessionIdIs(id))
    case None => Ok(Updated(false, t))
    case Some(i) =>
      if t.sessions[i].sdkId.Some? then Ok(Updated(false, t))
      else if FindFirst(t.sessions, SdkIs(sdkId)).Some? then Err(UniqueSdkSessionId)
      else Ok(Updated(true, t.(sessions := t.sessions[i := t.sessions[i].(sdkId := Some(sdkId))])))
  }

  /** Once set, the SDK session id is never overwritten: a second update reports no change. */
  lemma UpdateSdkIdOnce(t: Tables, id: int, sdkId: string, other: string)
    requires UpdateSdkId(t, id, sdkId).Ok? && UpdateSdkId(t, id, sdkId).value.changed
    ensures var u := UpdateSdkId(t, id, sdkId).value;
      && SessionById(u.db, id) == Some(SessionById(t, id).value.(sdkId := Some(sdkId)))
      && UpdateSdkId(u.db, id, other) == Ok(Updated(false, u.db))
  {
    var i := FindFirst(t.sessions, SessionIdIs(id)).value;
    var u := UpdateSdkId(t, id, sdkId).value;
    FindFirstAgree(t.sessions, u.db.sessions, SessionIdIs(id));
  }

  /**
   * `createSDKSession` already writes the Claude session id into
   * `sdk_session_id`, so a session it inserted can never take an SDK session
   * id through `updateSDKSessionId`.
   */
  lemma CreatedSessionKeepsSdkId(t: Tables, claudeId: string, project: string, prompt: string, now: int, sdkId: string)
    requires Valid(t) && SessionFor(t, claudeId).None?
    requires CreateSession(t, claudeId, project, prompt, now).Ok?
    ensures var c := CreateSession(t, claudeId, project, prompt, now).value;
      UpdateSdkId(c.db, c.id, sdkId) == Ok(Updated(false, c.db))
  {
    var c := CreateSession(t, claudeId, project, prompt, now).value;
    CreateSessionEffect(t, claudeId, project, prompt, now);
    var s := SessionFor(c.db, claudeId).value;
    var i := FindFirst(c.db.sessions, SessionIdIs(c.id)).value;
    assert c.db.sessions[i] == s by {
      var k :| 0 <= k < |c.db.sessions| && c.db.sessions[k] == s;
      assert c.db.sessions[k].id == c.db.sessions[i].id;
    }
  }

  datatype Counted = Counted(value: int, db: Tables)

  /** `getPromptCounter`: the counter of row `id` (`|| 0` maps only 0 to 0), or 0 when there is no such row. */
  function PromptCounter(t: Tables, id: int): (r: int)
    ensures SessionById(t, id).None? ==> r == 0
  {
    match SessionById(t, id)
    case None => 0
    case Some(s) => s.promptCounter
  }

  /**
   * `incrementPromptCounter`: add one to the row's counter and read it back;
   * `|| 1` turns a missing row (and a counter that came out 0) into 1.
   */
  function IncrementPromptCounter(t: Tables, id: int): (r: Counted)
    ensures SessionById(t, id).None? ==> r == Counted(1, t)
  {
    match FindFirst(t.sessions, SessionIdIs(id))
    case None => Counted(1, t)
    case Some(i) =>
      var n := t.sessions[i].promptCounter + 1;
      Counted(if n != 0 then n else 1, t.(sessions := t.sessions[i := t.sessions[i].(promptCounter := n)]))
  }

  /**
   * Incrementing an existing session's counter returns the new count, which
   * the getter then reads, one more than before; only that counter changes and
   * the rows stay valid.  Without a row it answers 1 but stores nothing, so the
   * getter still says 0.
   */
  lemma IncrementThenRead(t: Tables, id: int)
    requires Valid(t)
    ensures var c := IncrementPromptCounter(t, id);
      && Valid(c.db)
      && (SessionById(t, id).Some? ==>
            c.value == PromptCounter(c.db, id) == PromptCounter(t, id) + 1 &&
            SessionById(c.db, id) == Some(SessionById(t, id).value.(promptCounter := c.value)))
      && (SessionById(t, id).None? ==> c.value == 1 && PromptCounter(c.db, id) == 0)
  {
    var c := IncrementPromptCounter(t, id);
    match FindFirst(t.sessions, SessionIdIs(id))
    case None =>
    case Some(i) =>
      var s' := t.sessions[i].(promptCounter := t.sessions[i].promptCounter + 1);
      assert c.db.sessions == t.sessions[i := s'];
      SessionUpdateValid(t, i, s');
      assert FindFirst(c.db.sessions, SessionIdIs(id)) == Some(i) by {
        assert SessionIdIs(id)(c.db.sessions[i]);
        assert forall j :: 0 <= j < i ==> c.db.sessions[j] == t.sessions[j];
      }
  }

  /** The row with id `id` replaced by `f` of itself (an UPDATE ... WHERE id = ?). */
  function UpdateRow(t: Tables, id: int, f: Session -> Session): (r: Tables)
    ensures |r.sessions| == |t.sessions|
  {
    match FindFirst(t.sessions, SessionIdIs(id))
    case None => t
    case Some(i) => t.(sessions := t.sessions[i := f(t.sessions[i])])
  }

  /** `reactivateSession`: active again, with the new prompt and no worker port. */
  function Reactivate(t: Tables, id: int, prompt: string): (r: Tables)
  {
    UpdateRow(t, id, (s: Session) => s.(status := Active, userPrompt := Some(prompt), workerPort := None))
  }

  /** `markSessionCompleted` / `markSessionFailed`: the final status and the completion time. */
  function Finish(t: Tables, id: int, status: Status, now: int): (r: Tables)
    requires status != Active
  {
    UpdateRow(t, id, (s: Session) => s.(status := status, completedEpoch := Some(now)))
  }

  /** Replacing a session row by one with the same keys and a non-negative prompt counter keeps the tables valid. */
  lemma SessionUpdateValid(t: Tables, i: nat, x: Session)
    requires Valid(t) && i < |t.sessions|
    requires x.id == t.sessions[i].id && x.claudeId == t.sessions[i].claudeId && x.sdkId == t.sessions[i].sdkId
    requires x.promptCounter >= 0
    ensures Valid(t.(sessions := t.sessions[i := x]))
  {
    AscendingUpdate(t.sessions, SessionRowId(), i, x);
  }

  /** An update of non-key columns touches only row `id` and keeps the rows valid. */
  lemma UpdateRowEffect(t: Tables, id: int, f: Session -> Session)
    requires Valid(t)
    requires forall s :: f(s).id == s.id && f(s).claudeId == s.claudeId && f(s).sdkId == s.sdkId
    requires forall s: Session :: s.promptCounter >= 0 ==> f(s).promptCounter >= 0
    ensures Valid(UpdateRow(t, id, f))
    ensures SessionById(t, id).Some? ==> SessionById(UpdateRow(t, id, f), id) == Some(f(SessionById(t, id).value))
    ensures SessionById(t, id).None? ==> UpdateRow(t, id, f) == t
    ensures forall j :: 0 <= j < |t.sessions| && t.sessions[j].id != id ==> UpdateRow(t, id, f).sessions[j] == t.sessions[j]
  {
    match FindFirst(t.sessions, SessionIdIs(id))
    case None =>
    case Some(i) =>
      var r := UpdateRow(t, id, f);
      SessionUpdateValid(t, i, f(t.sessions[i]));
      assert FindFirst(r.sessions, SessionIdIs(id)) == Some(i) by {
        assert r.sessions[i] == f(t.sessions[i]);
        assert SessionIdIs(id)(r.sessions[i]);
        assert forall j :: 0 <= j < i ==> r.sessions[j] == t.sessions[j];
      }
      forall j | 0 <= j < |t.sessions| && t.sessions[j].id != id
        ensures r.sessions[j] == t.sessions[j]
      {
        assert j != i;
      }
  }

  /** Reactivating makes the session active with the new prompt and no port; nothing else moves. */
  lemma ReactivateEffect(t: Tables, id: int, prompt: string)
    requires Valid(t) && SessionById(t, id).Some?
    ensures var r := Reactivate(t, id, prompt);
      && Valid(r)
      && SessionById(r, id) == Some(SessionById(t, id).value.(status := Active, userPrompt := Some(prompt), workerPort := None))
      && r.observations == t.observations && r.summaries == t.summaries && r.prompts == t.prompts
  {
    UpdateRowEffect(t, id, (s: Session) => s.(status := Active, userPrompt := Some(prompt), workerPort := None));
  }

  /** Marking a session sets its final status and completion time; a missing id changes nothing. */
  lemma FinishEffect(t: Tables, id: int, status: Status, now: int)
    requires Valid(t) && status != Active
    ensures var r := Finish(t, id, status, now);
      && Valid(r)
      && (SessionById(t, id).Some? ==>
            SessionById(r, id) == Some(SessionById(t, id).value.(status := status, completedEpoch := Some(now))))
      && (SessionById(t, id).None? ==> r == t)
  {
    UpdateRowEffect(t, id, (s: Session) => s.(status := status, completedEpoch := Some(now)));
  }

  /** A completed session that is reactivated is found as active again. */
  lemma ReactivateAfterFinish(t: Tables, id: int, now: int, prompt: string)
    requires Valid(t) && SessionById(t, id).Some?
    ensures var s := SessionById(t, id).value;
      var r := Reactivate(Finish(t, id, Completed, now), id, prompt);
      FindActive(Finish(t, id, Completed, now), s.claudeId).None? &&
      FindActive(r, s.claudeId).Some? && FindActive(r, s.claudeId).value.id == id
  {
    var s := SessionById(t, id).value;
    FinishEffect(t, id, Completed, now);
    var f := Finish(t, id, Completed, now);
    ReactivateEffect(f, id, prompt);
    SessionOfClaude(f, s.claudeId, id);
    SessionOfClaude(Reactivate(f, id, prompt), s.claudeId, id);
  }

  /** In a valid store the row with a given id is the row of its Claude session id. */
  lemma SessionOfClaude(t: Tables, claudeId: string, id: int)
    requires Valid(t) && SessionById(t, id).Some? && SessionById(t, id).value.claudeId == claudeId
    ensures SessionFor(t, claudeId) == SessionById(t, id)
  {
    var s := SessionById(t, id).value;
    var k :| 0 <= k < |t.sessions| && t.sessions[k] == s;
    var i := FindFirst(t.sessions, ClaudeIs(claudeId)).value;
    assert i == k;
  }

  // ------------------------------------------------------------ storing records

  /** The fields of a parsed observation, as the SDK agent hands them to the store. */
  datatype ObservationInput = ObservationInput(
    kind: string, title: Option<string>, subtitle: Option<string>, facts: seq<string>,
    narrative: Option<string>, concepts: seq<string>, filesRead: seq<string>, filesModified: seq<string>)

  /** The fields of a parsed summary. */
  datatype SummaryInput = SummaryInput(
    request: Option<string>, investigated: Option<string>, learned: Option<string>,
    completed: Option<string>, nextSteps: Option<string>, notes: Option<string>)

  datatype StoredId = StoredId(id: int, epoch: int)

  /** What a store call returns, and the tables after it: a failing insert can follow a committed auto-create. */
  datatype Stored = Stored(result: Result<StoredId>, db: Tables)

  /** `n || null` for the prompt number. */
  function PromptNumberColumn(n: Option<int>): (r: Option<int>)
    ensures r.Some? <==> n.Some? && n.value != 0
    ensures r.Some? ==> r == n
  {
    if n.Some? && n.value != 0 then n else None
  }

  /**
   * The auto-create step of `storeObservation` / `storeSummary`: when no row
   * has this `sdk_session_id`, insert an active one using it as both ids.
   * That insert fails when the id is already some row's Claude session id.
   */
  function EnsureSession(t: Tables, sdkId: string, project: string, now: int): (r: Result<Tables>)
    ensures r.Ok? && FindFirst(t.sessions, SdkIs(sdkId)).Some? ==> r.value == t
    ensures r.Err? <==> FindFirst(t.sessions, SdkIs(sdkId)).None? && SessionFor(t, sdkId).Some?
  {
    if FindFirst(t.sessions, SdkIs(sdkId)).Some? then Ok(t)
    else if FindFirst(t.sessions, ClaudeIs(sdkId)).Some? then Err(UniqueClaudeSessionId)
    else Ok(t.(sessions := t.sessions + [NewSession(t, sdkId, sdkId, project, None, now)]))
  }

  /** After the auto-create step some row owns the SDK session id, and the rows stay valid. */
  lemma EnsureSessionEffect(t: Tables, sdkId: string, project: string, now: int)
    requires Valid(t) && EnsureSession(t, sdkId, project, now).Ok?
    ensures var d := EnsureSession(t, sdkId, project, now).value;
      && Valid(d)
      && FindFirst(d.sessions, SdkIs(sdkId)).Some?
      && d.observations == t.observations && d.summaries == t.summaries && d.prompts == t.prompts
      && (forall s :: s in t.sessions ==> s in d.sessions)
      && (FindFirst(t.sessions, SdkIs(sdkId)).None? ==>
            d.sessions == t.sessions + [NewSession(t, sdkId, sdkId, project, None, now)])
  {
    var d := EnsureSession(t, sdkId, project, now).value;
    if FindFirst(t.sessions, SdkIs(sdkId)).None? {
      var s := NewSession(t, sdkId, sdkId, project, None, now);
      AscendingAppend(t.sessions, SessionRowId(), s);
      assert SdkIs(sdkId)(d.sessions[|t.sessions|]);
    }
  }

  /**
   * `storeObservation`: make sure the session row exists, then append the
   * observation with its lists JSON-encoded, `text` left NULL and the current
   * time.  The insert fails when the kind is outside the table's CHECK; the
   * auto-created session row stays, since it was a statement of its own.
   */
  function StoreObservation(t: Tables, checkedKinds: set<string>, sdkId: string, project: string,
                            obs: ObservationInput, promptNumber: Option<int>, tokens: int, now: int): (r: Stored)
    ensures r.result.Err? <==> EnsureSession(t, sdkId, project, now).Err? || obs.kind !in checkedKinds
  {
    match EnsureSession(t, sdkId, project, now)
    case Err(e) => Stored(Err(e), t)
    case Ok(d) =>
      if obs.kind !in checkedKinds then Stored(Err(TypeCheckFailed), d)
      else
        var id := NextId(d.observations, ObservationRowId());
        var row := Observation(id, sdkId, project, None, obs.kind, obs.title, obs.subtitle,
                               Some(Stringified(obs.facts)), obs.narrative, Some(Stringified(obs.concepts)),
                               Some(Stringified(obs.filesRead)), Some(Stringified(obs.filesModified)),
                               PromptNumberColumn(promptNumber), tokens, now);
        Stored(Ok(StoredId(id, now)), d.(observations := d.observations + [row]))
  }

  /**
   * A stored observation is the one new row of the table, carries the
   * returned id and the input's fields, and belongs to a session row that now
   * owns the SDK session id; summaries and prompts do not move and the rows
   * stay valid.  A failing call adds no observation.
   */
  /** The part of `StoreObservationEffect` about the tables other than the new observation. */
  lemma StoreObservationFrame(t: Tables, checkedKinds: set<string>, sdkId: string, project: string,
                              obs: ObservationInput, promptNumber: Option<int>, tokens: int, now: int)
    requires Valid(t)
    ensures var r := StoreObservation(t, checkedKinds, sdkId, project, obs, promptNumber, tokens, now);
      && Valid(r.db)
      && r.db.summaries == t.summaries && r.db.prompts == t.prompts
      && |r.db.sessions| >= |t.sessions| && r.db.sessions[..|t.sessions|] == t.sessions
  {
    StoreObservationEffect(t, checkedKinds, sdkId, project, obs, promptNumber, tokens, now);
  }

  lemma StoreObservationEffect(t: Tables, checkedKinds: set<string>, sdkId: string, project: string,
                               obs: ObservationInput, promptNumber: Option<int>, tokens: int, now: int)
    requires Valid(t)
    ensures var r := StoreObservation(t, checkedKinds, sdkId, project, obs, promptNumber, tokens, now);
      && Valid(r.db)
      && r.db.summaries == t.summaries && r.db.prompts == t.prompts
      && |r.db.sessions| >= |t.sessions| && r.db.sessions[..|t.sessions|] == t.sessions
      && (r.result.Err? ==> r.db.observations == t.observations)
      && (r.result.Ok? ==>
            && |r.db.observations| == |t.observations| + 1
            && r.db.observations[..|t.observations|] == t.observations
            && var o := r.db.observations[|t.observations|];
            && o.id == r.result.value.id && r.result.value.epoch == now
            && o.sdkId == sdkId && o.project == project && o.kind == obs.kind && o.title == obs.title
            && o.subtitle == obs.subtitle && o.narrative == obs.narrative
            && o.facts == Some(Stringified(obs.facts)) && o.concepts == Some(Stringified(obs.concepts))
            && o.filesRead == Some(Stringified(obs.filesRead))
            && o.filesModified == Some(Stringified(obs.filesModified))
            && o.discoveryTokens == tokens && o.epoch == now
            && FindFirst(r.db.sessions, SdkIs(sdkId)).Some?)
  {
    if EnsureSession(t, sdkId, project, now).Ok? {
      EnsureSessionEffect(t, sdkId, project, now);
      var d := EnsureSession(t, sdkId, project, now).value;
      if obs.kind in checkedKinds {
        var r := StoreObservation(t, checkedKinds, sdkId, project, obs, promptNumber, tokens, now);
        AscendingAppend(d.observations, ObservationRowId(), r.db.observations[|d.observations|]);
      }
    }
  }

  /**
   * The session row the auto-create writes: when no row had the SDK session id
   * and no row clashes on the Claude session id, the call adds exactly one
   * active row with both ids set to it, whether or not the observation insert
   * then succeeds.
   */
  lemma StoreAutoCreates(t: Tables, checkedKinds: set<string>, sdkId: string, project: string,
                         obs: ObservationInput, promptNumber: Option<int>, tokens: int, now: int)
    requires Valid(t)
    requires FindFirst(t.sessions, SdkIs(sdkId)).None? && SessionFor(t, sdkId).None?
    ensures var r := StoreObservation(t, checkedKinds, sdkId, project, obs, promptNumber, tokens, now);
      && |r.db.sessions| == |t.sessions| + 1
      && r.db.sessions[..|t.sessions|] == t.sessions
      && var s := r.db.sessions[|t.sessions|];
      && s.claudeId == sdkId && s.sdkId == Some(sdkId) && s.project == project
      && s.status == Active && s.userPrompt.None? && s.startedEpoch == now
      && (r.result.Err? <==> obs.kind !in checkedKinds)
  {
    EnsureSessionEffect(t, sdkId, project, now);
  }

  /** `storeSummary`: the same auto-create, then the summary row; `session_summaries` has no CHECK to fail. */
  function StoreSummary(t: Tables, sdkId: string, project: string, sum: SummaryInput,
                        promptNumber: Option<int>, tokens: int, now: int): (r: Stored)
    ensures r.result.Err? <==> EnsureSession(t, sdkId, project, now).Err?
  {
    match EnsureSession(t, sdkId, project, now)
    case Err(e) => Stored(Err(e), t)
    case Ok(d) =>
      var id := NextId(d.summaries, SummaryRowId());
      var row := Summary(id, sdkId, project, sum.request, sum.investigated, sum.learned, sum.completed,
                         sum.nextSteps, None, None, sum.notes, PromptNumberColumn(promptNumber), tokens, now);
      Stored(Ok(StoredId(id, now)), d.(summaries := d.summaries + [row]))
  }

  /** A stored summary is the one new row of its table, with the returned id and the input's fields. */
  lemma StoreSummaryEffect(t: Tables, sdkId: string, project: string, sum: SummaryInput,
                           promptNumber: Option<int>, tokens: int, now: int)
    requires Valid(t)
    ensures var r := StoreSummary(t, sdkId, project, sum, promptNumber, tokens, now);
      && Valid(r.db)
      && r.db.observations == t.observations && r.db.prompts == t.prompts
      && (r.result.Err? ==> r.db == t)
      && (r.result.Ok? ==>
            && r.db.summaries[..|t.summaries|] == t.summaries
            && |r.db.summaries| == |t.summaries| + 1
            && var s := r.db.summaries[|t.summaries|];
            && s.id == r.result.value.id && s.sdkId == sdkId && s.project == project
            && s.request == sum.request && s.learned == sum.learned && s.completed == sum.completed
            && s.nextSteps == sum.nextSteps && s.investigated == sum.investigated && s.notes == sum.notes
            && s.promptNumber == PromptNumberColumn(promptNumber) && s.epoch == now
            && FindFirst(r.db.sessions, SdkIs(sdkId)).Some?)
  {
    if EnsureSession(t, sdkId, project, now).Ok? {
      EnsureSessionEffect(t, sdkId, project, now);
      var d := EnsureSession(t, sdkId, project, now).value;
      var r := StoreSummary(t, sdkId, project, sum, promptNumber, tokens, now);
      AscendingAppend(d.summaries, SummaryRowId(), r.db.summaries[|d.summaries|]);
    }
  }
}
