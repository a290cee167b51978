/**
 * The session completion handler: before a session is closed, the messages
 * still queued for it are drained, tool observations becoming stored
 * observations of type `change` and summarize requests being dropped, then
 * the session leaves the session manager, is marked completed and the
 * completion is broadcast.
 *
 * The collaborators the handler calls are state here: the pending-message
 * queue is a sequence of rows with a status, the session manager is the set of
 * session ids it holds, the database is a `SessionStore`, and every call the
 * handler makes on a collaborator is appended to a call log, which is what
 * fixes the order of the steps.
 */
module Completion {
  import opened Wrappers
  import opened Json
  import opened Text
  import opened Lists
  import opened Store
  import opened SessionDb
  import MigrationRunner

  datatype MessageStatus = Pending | Processed

  /** A row of the pending-message queue. */
  datatype PendingMessage = PendingMessage(
    id: int, sessionDbId: int, messageType: string, toolName: Option<string>,
    toolResponse: Option<string>, promptNumber: Option<int>, status: MessageStatus)

  /** The collaborator calls the handler makes, in the order it makes them. */
  datatype Call =
    | ReadPending(sessionDbId: int)
    | DeleteSession(sessionDbId: int)
    | MarkComplete(sessionDbId: int)
    | BroadcastCompleted(sessionDbId: int)

  /** Everything the handler can change: the queue, the tables, the manager's sessions, the call log. */
  datatype World = World(queue: seq<PendingMessage>, db: Tables, managed: set<int>, calls: seq<Call>)

  /**
   * What a drain depends on besides the world: the kinds the observations
   * table admits, `JSON.parse`, `JSON.stringify`, and the clock.
   */
  datatype Env = Env(kinds: set<string>, parse: string -> Option<Value>, stringify: Value -> string, now: int)

  /**
   * The kinds the observation type of the codebase lists: the five the
   * `observations.type` CHECK admits, and `change`, which the drain writes.
   */
  const ObservationKinds: set<string> := MigrationRunner.ObservationTypes + {"change"}

  /** JavaScript truthiness of an optional string column. */
  predicate Present(s: Option<string>)
  {
    s.Some? && s.value != ""
  }

  /** The messages the drain turns into observations. */
  predicate IsToolObservation(m: PendingMessage)
  {
    m.messageType == "observation" && Present(m.toolName) && Present(m.toolResponse)
  }

  function PendingFor(sessionDbId: int): PendingMessage -> bool
  {
    (m: PendingMessage) => m.sessionDbId == sessionDbId && m.status == Pending
  }

  /** `getAllPending`: the session's pending messages, in queue order. */
  function PendingOf(q: seq<PendingMessage>, sessionDbId: int): (r: seq<PendingMessage>)
    ensures forall m :: m in r ==> m in q && m.sessionDbId == sessionDbId && m.status == Pending
  {
    Filter(q, PendingFor(sessionDbId))
  }

  /** No two queue rows share an id. */
  predicate UniqueIds(q: seq<PendingMessage>)
  {
    forall i, j :: 0 <= i < j < |q| ==> q[i].id != q[j].id
  }

  /** `markProcessed(id)`: the row with that id is processed, every other row is as it was. */
  function MarkProcessed(q: seq<PendingMessage>, id: int): (r: seq<PendingMessage>)
    ensures |r| == |q|
    ensures forall j :: 0 <= j < |q| && q[j].id != id ==> r[j] == q[j]
    ensures forall j :: 0 <= j < |q| && q[j].id == id ==> r[j] == q[j].(status := Processed)
  {
    if q == [] then []
    else [if q[0].id == id then q[0].(status := Processed) else q[0]] + MarkProcessed(q[1..], id)
  }

  // ------------------------------------------------------------ tool output

  /** JavaScript `a || b` where `a` may be undefined. */
  function Or(a: Option<Value>, b: Value): Value
  {
    if a.Some? && Truthy(a.value) then a.value else b
  }

  /**
   * The text stored for a tool response: `stdout`, else `stderr`, else the
   * re-serialised response.  A payload that does not parse, or parses to
   * `null` (reading a field of it throws inside the same `try`), falls back
   * to the raw text.  When the chosen field is truthy but not a string,
   * `substring` throws in the outer `try` and there is no output.
   */
  function ToolOutput(raw: string, env: Env): (r: Option<string>)
    ensures env.parse(raw).None? || env.parse(raw) == Some(Null) ==> r == Some(raw)
    ensures env.parse(raw).Some? && env.parse(raw).value != Null ==>
      var v := env.parse(raw).value;
      var out := Get(v, "stdout");
      var err := Get(v, "stderr");
      && (out.Some? && out.value.Str? && out.value.s != "" ==> r == Some(out.value.s))
      && (out.Some? && Truthy(out.value) && !out.value.Str? ==> r.None?)
      && (!(out.Some? && Truthy(out.value)) && err.Some? && err.value.Str? && err.value.s != "" ==> r == Some(err.value.s))
      && (!(out.Some? && Truthy(out.value)) && !(err.Some? && Truthy(err.value)) ==> r == Some(env.stringify(v)))
    ensures r.Some? ==> r.value == raw || (env.parse(raw).Some? && env.parse(raw).value != Null)
  {
    match env.parse(raw)
    case None => Some(raw)
    case Some(v) =>
      if v == Null then Some(raw)
      else
        var chosen := Or(Get(v, "stdout"), Or(Get(v, "stderr"), Str(env.stringify(v))));
        if chosen.Str? then Some(chosen.s) else None
  }

  /** The observation the drain stores for a tool call. */
  function ChangeObservation(toolName: string, output: string): ObservationInput
  {
    ObservationInput("change", Some("Tool: " + toolName), Some(Prefix(output, 100)), [], Some(output), [], [], [])
  }

  // ------------------------------------------------------------ the drain

  /**
   * The store call for one tool message: keyed by the session's Claude
   * session id, in its project, with no discovery tokens.  The message's
   * `prompt_number || undefined` is passed on; the store's own `|| null`
   * treats it the same.
   */
  function DrainStore(db: Tables, s: Session, m: PendingMessage, output: string, env: Env): Stored
    requires m.toolName.Some?
  {
    Store.StoreObservation(db, env.kinds, s.claudeId, s.project, ChangeObservation(m.toolName.value, output),
                           m.promptNumber, 0, env.now)
  }

  /** One pass of the loop body of `processPendingMessages`. */
  function DrainOne(sessionDbId: int, m: PendingMessage, w: World, env: Env): World
  {
    if IsToolObservation(m) then
      match SessionById(w.db, sessionDbId)
      case None => w
      case Some(s) =>
        match ToolOutput(m.toolResponse.value, env)
        case None => w
        case Some(output) =>
          var stored := DrainStore(w.db, s, m, output, env);
          if stored.result.Ok? then w.(queue := MarkProcessed(w.queue, m.id), db := stored.db)
          else w.(db := stored.db)
    else if m.messageType == "summarize" then w.(queue := MarkProcessed(w.queue, m.id))
    else w
  }

  /** The loop over `msgs`, first to last. */
  function DrainAll(sessionDbId: int, msgs: seq<PendingMessage>, w: World, env: Env): World
    decreases |msgs|
  {
    if msgs == [] then w
    else DrainOne(sessionDbId, msgs[|msgs| - 1], DrainAll(sessionDbId, msgs[..|msgs| - 1], w, env), env)
  }

  /** `processPendingMessages`: read the session's pending messages, then handle each. */
  function Drained(w: World, sessionDbId: int, env: Env): World
  {
    DrainAll(sessionDbId, PendingOf(w.queue, sessionDbId), w.(calls := w.calls + [ReadPending(sessionDbId)]), env)
  }

  /** `completeByDbId`: drain, leave the manager, mark completed, broadcast. */
  function CompletedByDbId(w: World, sessionDbId: int, env: Env): World
  {
    var d := Drained(w, sessionDbId, env);
    d.(managed := d.managed - {sessionDbId},
       db := Finish(d.db, sessionDbId, Completed, env.now),
       calls := d.calls + [DeleteSession(sessionDbId), MarkComplete(sessionDbId), BroadcastCompleted(sessionDbId)])
  }

  datatype Outcome = Outcome(completed: bool, world: World)

  /**
   * `completeByClaudeId`: an active session is completed; otherwise the row
   * of that Claude session id, if any, only has its queue drained.
   */
  function CompletedByClaudeId(w: World, claudeId: string, env: Env): Outcome
  {
    match FindActive(w.db, claudeId)
    case Some(s) => Outcome(true, CompletedByDbId(w, s.id, env))
    case None =>
      match SessionFor(w.db, claudeId)
      case Some(s) => Outcome(false, Drained(w, s.id, env))
      case None => Outcome(false, w)
  }

  // ------------------------------------------------------------ properties

  /** A first match in a prefix is the first match of the longer sequence. */
  lemma FindFirstPrefix<T>(s: seq<T>, u: seq<T>, p: T -> bool)
    requires |s| <= |u| && u[..|s|] == s && FindFirst(s, p).Some?
    ensures FindFirst(u, p) == FindFirst(s, p)
  {
    var k := FindFirst(s, p).value;
    assert u[k] == s[k];
  }

  /** Growing the sessions table at its end keeps every row found by id where it was. */
  lemma SessionByIdKept(t: Tables, d: Tables, id: int)
    requires |t.sessions| <= |d.sessions| && d.sessions[..|t.sessions|] == t.sessions
    requires SessionById(t, id).Some?
    ensures SessionById(d, id) == SessionById(t, id)
  {
    FindFirstPrefix(t.sessions, d.sessions, SessionIdIs(id));
  }

  /**
   * One message: the tables stay valid, only the observations table and the
   * end of the sessions table can change, and the queue either stays or has
   * exactly that message marked processed.
   */
  lemma DrainOneFrame(sessionDbId: int, m: PendingMessage, w: World, env: Env)
    requires Valid(w.db)
    ensures var r := DrainOne(sessionDbId, m, w, env);
      && Valid(r.db)
      && r.managed == w.managed && r.calls == w.calls
      && r.db.summaries == w.db.summaries && r.db.prompts == w.db.prompts
      && |r.db.sessions| >= |w.db.sessions| && r.db.sessions[..|w.db.sessions|] == w.db.sessions
      && (r.queue == w.queue || r.queue == MarkProcessed(w.queue, m.id))
  {
    if IsToolObservation(m) && SessionById(w.db, sessionDbId).Some? {
      var s := SessionById(w.db, sessionDbId).value;
      if ToolOutput(m.toolResponse.value, env).Some? {
        var output := ToolOutput(m.toolResponse.value, env).value;
        var stored := DrainStore(w.db, s, m, output, env);
        StoreObservationFrame(w.db, env.kinds, s.claudeId, s.project, ChangeObservation(m.toolName.value, output),
                              m.promptNumber, 0, env.now);
        assert DrainOne(sessionDbId, m, w, env) ==
          if stored.result.Ok? then w.(queue := MarkProcessed(w.queue, m.id), db := stored.db) else w.(db := stored.db);
      }
    }
  }

  /**
   * A summarize request is marked processed and stores nothing; a message
   * that is neither a summarize request nor a tool observation with both
   * fields present is left as it is, and so is a tool observation whose
   * session row is missing or whose output throws.
   */
  lemma DrainOneSkips(sessionDbId: int, m: PendingMessage, w: World, env: Env)
    ensures var r := DrainOne(sessionDbId, m, w, env);
      && (m.messageType == "summarize" ==> r == w.(queue := MarkProcessed(w.queue, m.id)))
      && (!IsToolObservation(m) && m.messageType != "summarize" ==> r == w)
      && (IsToolObservation(m) && SessionById(w.db, sessionDbId).None? ==> r == w)
      && (IsToolObservation(m) && ToolOutput(m.toolResponse.value, env).None? ==> r == w)
  {
  }

  /**
   * A tool observation whose session row exists and whose output is a
   * string: when the store accepts it, the message is marked processed and
   * exactly one observation is added, of type `change`, titled after the
   * tool, with the first 100 characters of the output as subtitle, the whole
   * output as narrative, empty fact, concept and file lists and no discovery
   * tokens, under the session's Claude session id and project.  When the
   * store throws, the message stays pending and no observation is added.
   * The store accepts it exactly when `change` is an admitted kind and the
   * auto-create step succeeds.
   */
  lemma DrainObservation(sessionDbId: int, m: PendingMessage, w: World, env: Env)
    requires Valid(w.db) && IsToolObservation(m)
    requires SessionById(w.db, sessionDbId).Some? && ToolOutput(m.toolResponse.value, env).Some?
    ensures var s := SessionById(w.db, sessionDbId).value;
      var output := ToolOutput(m.toolResponse.value, env).value;
      var stored := DrainStore(w.db, s, m, output, env);
      var r := DrainOne(sessionDbId, m, w, env);
      && (stored.result.Ok? <==> "change" in env.kinds && EnsureSession(w.db, s.claudeId, s.project, env.now).Ok?)
      && (stored.result.Err? ==> r.queue == w.queue && r.db.observations == w.db.observations)
      && (stored.result.Ok? ==>
            && r.queue == MarkProcessed(w.queue, m.id)
            && |r.db.observations| == |w.db.observations| + 1
            && r.db.observations[..|w.db.observations|] == w.db.observations
            && var o := r.db.observations[|w.db.observations|];
            && o.kind == "change" && o.title == Some("Tool: " + m.toolName.value)
            && o.subtitle == Some(Prefix(output, 100)) && o.narrative == Some(output)
            && o.facts == Some(Stringified([])) && o.concepts == Some(Stringified([]))
            && o.filesRead == Some(Stringified([])) && o.filesModified == Some(Stringified([]))
            && o.discoveryTokens == 0 && o.sdkId == s.claudeId && o.project == s.project)
  {
    var s := SessionById(w.db, sessionDbId).value;
    var output := ToolOutput(m.toolResponse.value, env).value;
    StoreObservationEffect(w.db, env.kinds, s.claudeId, s.project, ChangeObservation(m.toolName.value, output),
                           m.promptNumber, 0, env.now);
  }

  /**
   * The whole loop on the tables: they stay valid, the manager and the call
   * log do not move, and summaries, prompts and the existing session rows
   * are kept.
   */
  lemma {:induction false} DrainAllTables(sessionDbId: int, msgs: seq<PendingMessage>, w: World, env: Env)
    requires Valid(w.db)
    ensures var r := DrainAll(sessionDbId, msgs, w, env);
      && Valid(r.db)
      && r.managed == w.managed && r.calls == w.calls
      && r.db.summaries == w.db.summaries && r.db.prompts == w.db.prompts
      && |r.db.sessions| >= |w.db.sessions| && r.db.sessions[..|w.db.sessions|] == w.db.sessions
  {
    if msgs != [] {
      var init := msgs[..|msgs| - 1];
      DrainAllTables(sessionDbId, init, w, env);
      var mid := DrainAll(sessionDbId, init, w, env);
      DrainOneFrame(sessionDbId, msgs[|msgs| - 1], mid, env);
    }
  }

  /**
   * The whole loop on the queue: each row is either as it was or the same
   * row marked processed, and a row whose id no handled message carries is
   * as it was.
   */
  lemma {:induction false} DrainAllQueue(sessionDbId: int, msgs: seq<PendingMessage>, w: World, env: Env)
    requires Valid(w.db)
    ensures var r := DrainAll(sessionDbId, msgs, w, env);
      && |r.queue| == |w.queue|
      && (forall j :: 0 <= j < |w.queue| ==> r.queue[j] == w.queue[j] || r.queue[j] == w.queue[j].(status := Processed))
      && (forall j :: 0 <= j < |w.queue| && (forall k :: 0 <= k < |msgs| ==> msgs[k].id != w.queue[j].id) ==>
            r.queue[j] == w.queue[j])
  {
    if msgs != [] {
      var init := msgs[..|msgs| - 1];
      var m := msgs[|msgs| - 1];
      DrainAllQueue(sessionDbId, init, w, env);
      DrainAllTables(sessionDbId, init, w, env);
      var mid := DrainAll(sessionDbId, init, w, env);
      DrainOneFrame(sessionDbId, m, mid, env);
      var r := DrainAll(sessionDbId, msgs, w, env);
      assert r == DrainOne(sessionDbId, m, mid, env);
      forall j | 0 <= j < |w.queue| && (forall k :: 0 <= k < |msgs| ==> msgs[k].id != w.queue[j].id)
        ensures r.queue[j] == w.queue[j]
      {
        assert forall k :: 0 <= k < |init| ==> init[k] == msgs[k];
        assert m.id != w.queue[j].id;
      }
    }
  }

  /**
   * Draining one session leaves the rows of every other session as they
   * were, when the queue's ids are distinct.
   */
  lemma DrainedOtherSessions(w: World, sessionDbId: int, env: Env)
    requires Valid(w.db) && UniqueIds(w.queue)
    ensures var r := Drained(w, sessionDbId, env);
      && r.calls == w.calls + [ReadPending(sessionDbId)] && r.managed == w.managed
      && |r.queue| == |w.queue|
      && forall j :: 0 <= j < |w.queue| && w.queue[j].sessionDbId != sessionDbId ==> r.queue[j] == w.queue[j]
  {
    var msgs := PendingOf(w.queue, sessionDbId);
    var w1 := w.(calls := w.calls + [ReadPending(sessionDbId)]);
    DrainAllQueue(sessionDbId, msgs, w1, env);
    DrainAllTables(sessionDbId, msgs, w1, env);
    forall j | 0 <= j < |w.queue| && w.queue[j].sessionDbId != sessionDbId
      ensures forall k :: 0 <= k < |msgs| ==> msgs[k].id != w.queue[j].id
    {
      forall k | 0 <= k < |msgs|
        ensures msgs[k].id != w.queue[j].id
      {
        assert msgs[k] in msgs;
        var i :| 0 <= i < |w.queue| && w.queue[i] == msgs[k];
        assert i != j;
      }
    }
  }

  /** One message, when `change` is not an admitted kind: no observation is added and a tool observation is not marked. */
  lemma DrainOneRejects(sessionDbId: int, m: PendingMessage, w: World, env: Env)
    requires Valid(w.db) && "change" !in env.kinds
    ensures var r := DrainOne(sessionDbId, m, w, env);
      && r.db.observations == w.db.observations
      && (IsToolObservation(m) ==> r.queue == w.queue)
      && (!IsToolObservation(m) ==> r.queue == w.queue || m.messageType == "summarize")
  {
    if IsToolObservation(m) && SessionById(w.db, sessionDbId).Some? && ToolOutput(m.toolResponse.value, env).Some? {
      DrainObservation(sessionDbId, m, w, env);
    }
  }

  /**
   * As written: with the kinds the CHECK admits, no drained observation is
   * ever stored.  Every tool observation in the queue stays pending and the
   * observations table does not change, whatever else the drain does.
   */
  lemma {:induction false} DrainRejectsChange(sessionDbId: int, msgs: seq<PendingMessage>, w: World, env: Env)
    requires Valid(w.db) && UniqueIds(w.queue) && env.kinds == MigrationRunner.ObservationTypes
    requires forall m :: m in msgs ==> m in w.queue
    ensures var r := DrainAll(sessionDbId, msgs, w, env);
      && r.db.observations == w.db.observations
      && |r.queue| == |w.queue|
      && forall j :: 0 <= j < |w.queue| && IsToolObservation(w.queue[j]) ==> r.queue[j] == w.queue[j]
  {
    if msgs != [] {
      var init := msgs[..|msgs| - 1];
      var m := msgs[|msgs| - 1];
      assert forall x :: x in init ==> x in msgs;
      DrainRejectsChange(sessionDbId, init, w, env);
      DrainAllTables(sessionDbId, init, w, env);
      DrainAllQueue(sessionDbId, init, w, env);
      var mid := DrainAll(sessionDbId, init, w, env);
      DrainOneRejects(sessionDbId, m, mid, env);
      var r := DrainAll(sessionDbId, msgs, w, env);
      assert r == DrainOne(sessionDbId, m, mid, env);
      forall j | 0 <= j < |w.queue| && IsToolObservation(w.queue[j])
        ensures r.queue[j] == w.queue[j]
      {
        if r.queue != mid.queue {
          assert m.messageType == "summarize";
          assert m in w.queue;
          var i :| 0 <= i < |w.queue| && w.queue[i] == m;
          assert i != j;
        }
      }
    }
  }

  /**
   * Corrected: when `change` is an admitted kind, a tool observation of a
   * session whose SDK session id is its Claude session id (every session
   * `createSDKSession` opens) is stored and its message marked processed.
   */
  lemma DrainStoresChange(sessionDbId: int, m: PendingMessage, w: World, env: Env)
    requires Valid(w.db) && IsToolObservation(m) && env.kinds == ObservationKinds
    requires SessionById(w.db, sessionDbId).Some?
    requires SessionById(w.db, sessionDbId).value.sdkId == Some(SessionById(w.db, sessionDbId).value.claudeId)
    requires ToolOutput(m.toolResponse.value, env).Some?
    ensures var r := DrainOne(sessionDbId, m, w, env);
      && r.queue == MarkProcessed(w.queue, m.id)
      && |r.db.observations| == |w.db.observations| + 1
      && r.db.observations[|w.db.observations|].kind == "change"
  {
    var s := SessionById(w.db, sessionDbId).value;
    var k :| 0 <= k < |w.db.sessions| && w.db.sessions[k] == s;
    assert SdkIs(s.claudeId)(w.db.sessions[k]);
    DrainObservation(sessionDbId, m, w, env);
  }

  lemma AppendAssoc<T>(a: seq<T>, b: seq<T>, c: seq<T>)
    ensures (a + b) + c == a + (b + c)
  {
  }

  lemma AppendThree<T>(s: seq<T>, x: T, y: T, z: T)
    ensures s + [x] + [y] + [z] == s + [x, y, z]
  {
  }

  /** `completeByDbId` makes its four collaborator calls in order and leaves the session completed. */
  lemma CompletedByDbIdEffect(w: World, sessionDbId: int, env: Env)
    requires Valid(w.db)
    ensures var r := CompletedByDbId(w, sessionDbId, env);
      && Valid(r.db)
      && r.calls == w.calls + [ReadPending(sessionDbId), DeleteSession(sessionDbId),
                               MarkComplete(sessionDbId), BroadcastCompleted(sessionDbId)]
      && r.managed == w.managed - {sessionDbId}
      && (SessionById(w.db, sessionDbId).Some? ==>
            SessionById(r.db, sessionDbId) ==
              Some(SessionById(w.db, sessionDbId).value.(status := Completed, completedEpoch := Some(env.now))))
  {
    CompletedByDbIdCalls(w, sessionDbId, env);
    CompletedByDbIdRow(w, sessionDbId, env);
  }

  lemma CompletedByDbIdCalls(w: World, sessionDbId: int, env: Env)
    requires Valid(w.db)
    ensures var r := CompletedByDbId(w, sessionDbId, env);
      && r.calls == w.calls + [ReadPending(sessionDbId), DeleteSession(sessionDbId),
                               MarkComplete(sessionDbId), BroadcastCompleted(sessionDbId)]
      && r.managed == w.managed - {sessionDbId}
  {
    var w1 := w.(calls := w.calls + [ReadPending(sessionDbId)]);
    DrainAllTables(sessionDbId, PendingOf(w.queue, sessionDbId), w1, env);
    var d := Drained(w, sessionDbId, env);
    var r := CompletedByDbId(w, sessionDbId, env);
    var tail := [DeleteSession(sessionDbId), MarkComplete(sessionDbId), BroadcastCompleted(sessionDbId)];
    assert d.calls == w.calls + [ReadPending(sessionDbId)];
    assert r.calls == d.calls + tail;
    var all := [ReadPending(sessionDbId), DeleteSession(sessionDbId), MarkComplete(sessionDbId), BroadcastCompleted(sessionDbId)];
    assert [ReadPending(sessionDbId)] + tail == all;
    AppendAssoc(w.calls, [ReadPending(sessionDbId)], tail);
  }

  lemma CompletedByDbIdRow(w: World, sessionDbId: int, env: Env)
    requires Valid(w.db)
    ensures var r := CompletedByDbId(w, sessionDbId, env);
      && Valid(r.db)
      && (SessionById(w.db, sessionDbId).Some? ==>
            SessionById(r.db, sessionDbId) ==
              Some(SessionById(w.db, sessionDbId).value.(status := Completed, completedEpoch := Some(env.now))))
  {
    var w1 := w.(calls := w.calls + [ReadPending(sessionDbId)]);
    DrainAllTables(sessionDbId, PendingOf(w.queue, sessionDbId), w1, env);
    var d := Drained(w, sessionDbId, env);
    FinishEffect(d.db, sessionDbId, Completed, env.now);
    if SessionById(w.db, sessionDbId).Some? {
      SessionByIdKept(w.db, d.db, sessionDbId);
    }
  }

  /**
   * `completeByClaudeId` reports true exactly when the Claude session id has
   * an active row, and then completes that row.  Otherwise it neither removes
   * anything from the manager, nor marks, nor broadcasts: its only call is
   * the read of the matching row's queue, when there is such a row, and that
   * row keeps its status.
   */
  lemma CompletedByClaudeIdEffect(w: World, claudeId: string, env: Env)
    requires Valid(w.db)
    ensures var r := CompletedByClaudeId(w, claudeId, env);
      && Valid(r.world.db)
      && (r.completed <==> FindActive(w.db, claudeId).Some?)
      && (r.completed ==>
            var id := FindActive(w.db, claudeId).value.id;
            && r.world.calls == w.calls + [ReadPending(id), DeleteSession(id), MarkComplete(id), BroadcastCompleted(id)]
            && r.world.managed == w.managed - {id}
            && SessionById(r.world.db, id).Some? && SessionById(r.world.db, id).value.status == Completed)
      && (!r.completed ==>
            && r.world.managed == w.managed
            && r.world.calls == w.calls + (if SessionFor(w.db, claudeId).Some? then [ReadPending(SessionFor(w.db, claudeId).value.id)] else [])
            && SessionFor(r.world.db, claudeId) == SessionFor(w.db, claudeId))
  {
    match FindActive(w.db, claudeId)
    case Some(s) =>
      SessionOfClaudeById(w.db, claudeId);
      CompletedByDbIdEffect(w, s.id, env);
    case None =>
      match SessionFor(w.db, claudeId)
      case Some(s) =>
        var w1 := w.(calls := w.calls + [ReadPending(s.id)]);
        DrainAllTables(s.id, PendingOf(w.queue, s.id), w1, env);
        FindFirstPrefix(w.db.sessions, Drained(w, s.id, env).db.sessions, ClaudeIs(claudeId));
      case None =>
  }

  /** The row found for a Claude session id is the row found by its own id. */
  lemma SessionOfClaudeById(t: Tables, claudeId: string)
    requires Valid(t) && SessionFor(t, claudeId).Some?
    ensures SessionById(t, SessionFor(t, claudeId).value.id) == SessionFor(t, claudeId)
  {
    var s := SessionFor(t, claudeId).value;
    var i := FindFirst(t.sessions, ClaudeIs(claudeId)).value;
    assert SessionIdIs(s.id)(t.sessions[i]);
  }

  // ------------------------------------------------------------ the handler

  class CompletionHandler {
    /** The pending-message store's rows. */
    var queue: seq<PendingMessage>
    /** The session ids the session manager holds. */
    var managed: set<int>
    /** The calls made on the collaborators, oldest first. */
    var calls: seq<Call>
    const store: SessionStore
    const parse: string -> Option<Value>
    const stringify: Value -> string

    predicate Valid()
      reads this, store
    {
      store.Valid()
    }

    function State(): World
      reads this, store
    {
      World(queue, store.db, managed, calls)
    }

    function EnvAt(now: int): Env
    {
      Env(store.checkedKinds, parse, stringify, now)
    }

    constructor (store: SessionStore, parse: string -> Option<Value>, stringify: Value -> string,
                 queue: seq<PendingMessage>, managed: set<int>)
      requires store.Valid()
      ensures Valid()
      ensures this.store == store && this.parse == parse && this.stringify == stringify
      ensures this.queue == queue && this.managed == managed && calls == []
    {
      this.store := store;
      this.parse := parse;
      this.stringify := stringify;
      this.queue := queue;
      this.managed := managed;
      calls := [];
    }

    /** `processPendingMessages`. */
    method ProcessPendingMessages(sessionDbId: int, now: int)
      requires Valid()
      modifies this, store
      ensures Valid() && State() == Drained(old(State()), sessionDbId, EnvAt(now))
    {
      var msgs := PendingOf(queue, sessionDbId);
      calls := calls + [ReadPending(sessionDbId)];
      ghost var start := State();
      if |msgs| == 0 {
        return;
      }
      var i := 0;
      while i < |msgs|
        invariant 0 <= i <= |msgs|
        invariant Valid()
        invariant State() == DrainAll(sessionDbId, msgs[..i], start, EnvAt(now))
      {
        assert msgs[..i + 1][..i] == msgs[..i];
        HandleMessage(sessionDbId, msgs[i], now);
        i := i + 1;
      }
      assert msgs[..|msgs|] == msgs;
    }

    /** The body of the loop of `processPendingMessages`, for one message. */
    method HandleMessage(sessionDbId: int, m: PendingMessage, now: int)
      requires Valid()
      modifies this, store
      ensures Valid() && State() == DrainOne(sessionDbId, m, old(State()), EnvAt(now))
    {
      if IsToolObservation(m) {
        var dbSession := store.GetSessionById(sessionDbId);
        if dbSession.Some? {
          var output := ToolOutput(m.toolResponse.value, EnvAt(now));
          if output.Some? {
            var r := store.StoreObservation(dbSession.value.claudeId, dbSession.value.project,
                                            ChangeObservation(m.toolName.value, output.value),
                                            m.promptNumber, 0, now);
            if r.Ok? {
              queue := MarkProcessed(queue, m.id);
            }
          }
        }
      } else if m.messageType == "summarize" {
        queue := MarkProcessed(queue, m.id);
      }
    }

    /** `completeByDbId`. */
    method CompleteByDbId(sessionDbId: int, now: int)
      requires Valid()
      modifies this, store
      ensures Valid() && State() == CompletedByDbId(old(State()), sessionDbId, EnvAt(now))
    {
      ProcessPendingMessages(sessionDbId, now);
      ghost var d := State();
      managed := managed - {sessionDbId};
      calls := calls + [DeleteSession(sessionDbId)];
      store.MarkSessionCompleted(sessionDbId, now);
      calls := calls + [MarkComplete(sessionDbId)];
      calls := calls + [BroadcastCompleted(sessionDbId)];
      AppendThree(d.calls, DeleteSession(sessionDbId), MarkComplete(sessionDbId), BroadcastCompleted(sessionDbId));
      assert State() == d.(managed := d.managed - {sessionDbId}, db := Finish(d.db, sessionDbId, Completed, now),
                           calls := d.calls + [DeleteSession(sessionDbId), MarkComplete(sessionDbId), BroadcastCompleted(sessionDbId)]);
    }

    /** `completeByClaudeId`. */
    method CompleteByClaudeId(claudeId: string, now: int) returns (completed: bool)
      requires Valid()
      modifies this, store
      ensures Valid()
      ensures CompletedByClaudeId(old(State()), claudeId, EnvAt(now)) == Outcome(completed, State())
    {
      var session := store.FindActiveSDKSession(claudeId);
      if session.None? {
        var dbSession := store.FindAnySDKSession(claudeId);
        if dbSession.Some? {
          ProcessPendingMessages(dbSession.value.id, now);
        }
        return false;
      }
      CompleteByDbId(session.value.id, now);
      return true;
    }
  }
}
