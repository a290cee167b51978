/**
 * The enhancement service: analysis tasks with a status machine and a retry
 * bound, content tags with usage counts, tags attached to conversation items,
 * keyword auto-tagging, and the text of an automatic session summary.
 *
 * The three tables the service updates are fields of a class whose methods
 * rewrite them as the service's UPDATE and INSERT statements do; what those
 * statements mean is stated about the functions in this module.  Timestamps
 * are the `now` argument.
 */
module Enhancement {
  import opened Wrappers
  import opened Json
  import opened Text
  import opened Lists

  // ------------------------------------------------------------ analysis tasks

  datatype TaskStatus = Pending | Processing | Completed | Failed

  /** A row of `analysis_tasks`. */
  datatype Task = Task(
    id: int, sdkSessionId: string, taskType: string, status: TaskStatus, priority: int,
    inputData: Option<string>, outputData: Option<string>, errorMessage: Option<string>,
    retryCount: int, maxRetries: int, startedAt: Option<int>, completedAt: Option<int>)

  /** What an UPDATE answers (`result.changes > 0`), and the table after it. */
  datatype TaskUpdate = TaskUpdate(changed: bool, tasks: seq<Task>)

  /** `UPDATE analysis_tasks SET … WHERE id = ? AND <guard>`. */
  function UpdateWhere(ts: seq<Task>, id: int, guard: Task -> bool, f: Task -> Task): (r: seq<Task>)
    ensures |r| == |ts|
    ensures forall j :: 0 <= j < |ts| && ts[j].id == id && guard(ts[j]) ==> r[j] == f(ts[j])
    ensures forall j :: 0 <= j < |ts| && !(ts[j].id == id && guard(ts[j])) ==> r[j] == ts[j]
  {
    if ts == [] then []
    else [if ts[0].id == id && guard(ts[0]) then f(ts[0]) else ts[0]] + UpdateWhere(ts[1..], id, guard, f)
  }

  /** Whether the UPDATE touches a row. */
  predicate Matches(ts: seq<Task>, id: int, guard: Task -> bool)
  {
    exists j :: 0 <= j < |ts| && ts[j].id == id && guard(ts[j])
  }

  function IsPending(): Task -> bool
  {
    (t: Task) => t.status == Pending
  }

  function AnyStatus(): Task -> bool
  {
    (t: Task) => true
  }

  /** `status = 'failed' AND retry_count < max_retries`. */
  function Retryable(): Task -> bool
  {
    (t: Task) => t.status == Failed && t.retryCount < t.maxRetries
  }

  function StartRow(now: int): Task -> Task
  {
    (t: Task) => t.(status := Processing, startedAt := Some(now))
  }

  function CompleteRow(output: string, now: int): Task -> Task
  {
    (t: Task) => t.(status := Completed, outputData := Some(output), completedAt := Some(now))
  }

  function FailRow(message: string, now: int): Task -> Task
  {
    (t: Task) => t.(status := Failed, errorMessage := Some(message), retryCount := t.retryCount + 1, completedAt := Some(now))
  }

  function RetryRow(): Task -> Task
  {
    (t: Task) => t.(status := Pending, startedAt := None, completedAt := None)
  }

  /** `startTask`: only a pending task starts. */
  function StartTask(ts: seq<Task>, id: int, now: int): (r: TaskUpdate)
    ensures |r.tasks| == |ts|
    ensures r.changed <==> exists j :: 0 <= j < |ts| && ts[j].id == id && ts[j].status == Pending
    ensures forall j :: 0 <= j < |ts| ==>
      if ts[j].id == id && ts[j].status == Pending
      then r.tasks[j] == ts[j].(status := Processing, startedAt := Some(now))
      else r.tasks[j] == ts[j]
  {
    TaskUpdate(Matches(ts, id, IsPending()), UpdateWhere(ts, id, IsPending(), StartRow(now)))
  }

  /** `completeTask`: whatever the status, the task is completed with its output. */
  function CompleteTask(ts: seq<Task>, id: int, output: string, now: int): (r: TaskUpdate)
    ensures |r.tasks| == |ts|
    ensures r.changed <==> exists j :: 0 <= j < |ts| && ts[j].id == id
    ensures forall j :: 0 <= j < |ts| ==>
      if ts[j].id == id
      then r.tasks[j] == ts[j].(status := Completed, outputData := Some(output), completedAt := Some(now))
      else r.tasks[j] == ts[j]
  {
    TaskUpdate(Matches(ts, id, AnyStatus()), UpdateWhere(ts, id, AnyStatus(), CompleteRow(output, now)))
  }

  /** `failTask`: whatever the status, the task fails and its retry count goes up by one. */
  function FailTask(ts: seq<Task>, id: int, message: string, now: int): (r: TaskUpdate)
    ensures |r.tasks| == |ts|
    ensures r.changed <==> exists j :: 0 <= j < |ts| && ts[j].id == id
    ensures forall j :: 0 <= j < |ts| ==>
      if ts[j].id == id
      then r.tasks[j] == ts[j].(status := Failed, errorMessage := Some(message),
                                retryCount := ts[j].retryCount + 1, completedAt := Some(now))
      else r.tasks[j] == ts[j]
  {
    TaskUpdate(Matches(ts, id, AnyStatus()), UpdateWhere(ts, id, AnyStatus(), FailRow(message, now)))
  }

  /** `retryTask`: a failed task with retries left goes back to pending, its start and end cleared. */
  function RetryTask(ts: seq<Task>, id: int): (r: TaskUpdate)
    ensures |r.tasks| == |ts|
    ensures r.changed <==> exists j :: 0 <= j < |ts| && ts[j].id == id && ts[j].status == Failed && ts[j].retryCount < ts[j].maxRetries
    ensures forall j :: 0 <= j < |ts| ==>
      if ts[j].id == id && ts[j].status == Failed && ts[j].retryCount < ts[j].maxRetries
      then r.tasks[j] == ts[j].(status := Pending, startedAt := None, completedAt := None)
      else r.tasks[j] == ts[j]
  {
    TaskUpdate(Matches(ts, id, Retryable()), UpdateWhere(ts, id, Retryable(), RetryRow()))
  }

  /** A started task cannot be started again. */
  lemma StartOnce(ts: seq<Task>, id: int, now: int, later: int)
    ensures !StartTask(StartTask(ts, id, now).tasks, id, later).changed
  {
    var r := StartTask(ts, id, now).tasks;
    forall j | 0 <= j < |r| && r[j].id == id
      ensures r[j].status != Pending
    {
    }
  }

  /** A completed task can be neither started nor retried until it fails. */
  lemma CompletedIsFinal(ts: seq<Task>, id: int, output: string, now: int, later: int)
    ensures var r := CompleteTask(ts, id, output, now).tasks;
      !StartTask(r, id, later).changed && !RetryTask(r, id).changed
  {
    var r := CompleteTask(ts, id, output, now).tasks;
    forall j | 0 <= j < |r| && r[j].id == id
      ensures r[j].status == Completed
    {
    }
  }

  /** After a failure the task can be retried exactly when it still had more than one retry left. */
  lemma RetryAfterFail(ts: seq<Task>, id: int, message: string, now: int)
    ensures RetryTask(FailTask(ts, id, message, now).tasks, id).changed <==>
      exists j :: 0 <= j < |ts| && ts[j].id == id && ts[j].retryCount + 1 < ts[j].maxRetries
  {
    var f := FailTask(ts, id, message, now).tasks;
    if RetryTask(f, id).changed {
      var j :| 0 <= j < |f| && f[j].id == id && f[j].status == Failed && f[j].retryCount < f[j].maxRetries;
      assert ts[j].id == id;
    }
    if exists j :: 0 <= j < |ts| && ts[j].id == id && ts[j].retryCount + 1 < ts[j].maxRetries {
      var j :| 0 <= j < |ts| && ts[j].id == id && ts[j].retryCount + 1 < ts[j].maxRetries;
      assert f[j].status == Failed && f[j].retryCount < f[j].maxRetries;
    }
  }

  /** One task after `n` rounds of failing and being retried; `None` once a retry is refused. */
  function FailRetry(t: Task, n: nat, message: string, now: int): Option<Task>
  {
    if n == 0 then Some(t)
    else match FailRetry(t, n - 1, message, now)
      case None => None
      case Some(u) =>
        var failed := FailRow(message, now)(u);
        if Retryable()(failed) then Some(RetryRow()(failed)) else None
  }

  /**
   * The retry bound: a task survives `n` rounds of failure and retry exactly
   * when its retry count plus `n` stays below its maximum, and then it is
   * pending again with `n` more retries counted.
   */
  lemma {:induction false} RetryBudget(t: Task, n: nat, message: string, now: int)
    ensures FailRetry(t, n, message, now).Some? <==> n == 0 || t.retryCount + n < t.maxRetries
    ensures FailRetry(t, n, message, now).Some? && n > 0 ==>
      var u := FailRetry(t, n, message, now).value;
      u.status == Pending && u.retryCount == t.retryCount + n && u.maxRetries == t.maxRetries && u.id == t.id
  {
    if n > 0 {
      RetryBudget(t, n - 1, message, now);
      if FailRetry(t, n - 1, message, now).Some? && n - 1 > 0 {
        var u := FailRetry(t, n - 1, message, now).value;
        assert u.retryCount == t.retryCount + n - 1;
      }
    }
  }

  // ------------------------------------------------------------ content tags

  /** A row of `content_tags`. */
  datatype Tag = Tag(
    id: int, name: string, category: Option<string>, parentId: Option<int>, description: Option<string>,
    color: Option<string>, usage: int, updatedAt: Option<int>)

  /** A row of `conversation_tags`. */
  datatype ItemTag = ItemTag(id: int, sdkSessionId: string, itemType: string, itemId: int, tagId: int, isAuto: bool, epoch: int)

  /** The `item_type` CHECK of `conversation_tags`. */
  const ItemTypes: set<string> := {"user_prompt", "ai_response", "observation", "summary"}

  /** `UNIQUE(tag_name)`. */
  predicate UniqueNames(tags: seq<Tag>)
  {
    forall i, j :: 0 <= i < j < |tags| ==> tags[i].name != tags[j].name
  }

  predicate HasTag(tags: seq<Tag>, id: int)
  {
    exists j :: 0 <= j < |tags| && tags[j].id == id
  }

  /** `updateTagUsage`: the usage count of that tag goes up by one. */
  function BumpUsage(tags: seq<Tag>, id: int): (r: seq<Tag>)
    ensures |r| == |tags|
    ensures forall j :: 0 <= j < |tags| ==> r[j] == if tags[j].id == id then tags[j].(usage := tags[j].usage + 1) else tags[j]
  {
    if tags == [] then []
    else [if tags[0].id == id then tags[0].(usage := tags[0].usage + 1) else tags[0]] + BumpUsage(tags[1..], id)
  }

  datatype TagRequest = TagRequest(sdkSessionId: string, itemType: string, itemId: int, tagIds: seq<int>, isAuto: bool)

  /**
   * Whether the INSERT into `conversation_tags` succeeds: the item type passes
   * the CHECK and both foreign keys, the tag and the SDK session, resolve.
   */
  predicate Inserts(tags: seq<Tag>, sessions: set<string>, req: TagRequest, tagId: int)
  {
    req.itemType in ItemTypes && req.sdkSessionId in sessions && HasTag(tags, tagId)
  }

  /** The tag tables and the count `tagConversation` is accumulating. */
  datatype Tagging = Tagging(tags: seq<Tag>, itemTags: seq<ItemTag>, lastItemTagId: int, count: nat)

  /** One pass of the loop of `tagConversation`: a failed insert is skipped. */
  function TagOne(s: Tagging, sessions: set<string>, req: TagRequest, tagId: int, now: int): Tagging
  {
    if Inserts(s.tags, sessions, req, tagId) then
      var row := ItemTag(s.lastItemTagId + 1, req.sdkSessionId, req.itemType, req.itemId, tagId, req.isAuto, now);
      Tagging(BumpUsage(s.tags, tagId), s.itemTags + [row], s.lastItemTagId + 1, s.count + 1)
    else s
  }

  /** The tag tables after the loop of `tagConversation` has run over the first `n` tag ids. */
  function Tagged(s: Tagging, sessions: set<string>, req: TagRequest, ids: seq<int>, n: nat, now: int): Tagging
    requires n <= |ids|
  {
    if n == 0 then s
    else TagOne(Tagged(s, sessions, req, ids, n - 1, now), sessions, req, ids[n - 1], now)
  }

  function InsertsFn(tags: seq<Tag>, sessions: set<string>, req: TagRequest): int -> bool
  {
    (tagId: int) => Inserts(tags, sessions, req, tagId)
  }

  /** Two tag tables with the same ids, row by row, hold the same tags. */
  lemma SameIdsHasTag(a: seq<Tag>, b: seq<Tag>, x: int)
    requires |a| == |b| && forall j :: 0 <= j < |a| ==> b[j].id == a[j].id
    ensures HasTag(a, x) <==> HasTag(b, x)
  {
    if HasTag(a, x) {
      var j :| 0 <= j < |a| && a[j].id == x;
      assert b[j].id == x;
    }
    if HasTag(b, x) {
      var j :| 0 <= j < |b| && b[j].id == x;
      assert a[j].id == x;
    }
  }

  /** The loop only raises usage counts: ids stay row by row, so whether an insert succeeds does not change. */
  lemma {:induction false} TaggedUsage(s: Tagging, sessions: set<string>, req: TagRequest, ids: seq<int>, n: nat, now: int)
    requires n <= |ids|
    ensures var r := Tagged(s, sessions, req, ids, n, now);
      && |r.tags| == |s.tags|
      && (forall j :: 0 <= j < |s.tags| ==>
            r.tags[j] == s.tags[j].(usage := s.tags[j].usage +
              if Inserts(s.tags, sessions, req, s.tags[j].id) then multiset(ids[..n])[s.tags[j].id] else 0))
  {
    if n > 0 {
      var x := ids[n - 1];
      assert ids[..n] == ids[..n - 1] + [x];
      TaggedUsage(s, sessions, req, ids, n - 1, now);
      SameIdsHasTag(s.tags, Tagged(s, sessions, req, ids, n - 1, now).tags, x);
      assert multiset(ids[..n]) == multiset(ids[..n - 1]) + multiset{x};
    }
  }

  /** Whether an insert succeeds is the same at every step of the loop as before it. */
  lemma InsertsStable(s: Tagging, sessions: set<string>, req: TagRequest, ids: seq<int>, n: nat, now: int, x: int)
    requires n <= |ids|
    ensures Inserts(Tagged(s, sessions, req, ids, n, now).tags, sessions, req, x) <==> Inserts(s.tags, sessions, req, x)
  {
    TaggedUsage(s, sessions, req, ids, n, now);
    SameIdsHasTag(s.tags, Tagged(s, sessions, req, ids, n, now).tags, x);
  }

  /** The loop counts, and adds a row for, exactly the tag ids whose insert succeeds. */
  lemma {:induction false} TaggedCount(s: Tagging, sessions: set<string>, req: TagRequest, ids: seq<int>, n: nat, now: int)
    requires n <= |ids|
    ensures var r := Tagged(s, sessions, req, ids, n, now);
      && r.count == s.count + |Filter(ids[..n], InsertsFn(s.tags, sessions, req))|
      && |r.itemTags| == |s.itemTags| + |Filter(ids[..n], InsertsFn(s.tags, sessions, req))|
  {
    if n > 0 {
      var keep := InsertsFn(s.tags, sessions, req);
      var x := ids[n - 1];
      assert ids[..n] == ids[..n - 1] + [x];
      TaggedCount(s, sessions, req, ids, n - 1, now);
      FilterAppend(ids[..n - 1], [x], keep);
      FilterOne(x, keep);
      InsertsStable(s, sessions, req, ids, n - 1, now, x);
    }
  }

  /** The rows the loop adds follow the old ones, each for the requested item and a tag whose insert succeeds. */
  lemma {:induction false} TaggedRows(s: Tagging, sessions: set<string>, req: TagRequest, ids: seq<int>, n: nat, now: int)
    requires n <= |ids|
    ensures var r := Tagged(s, sessions, req, ids, n, now);
      && |s.itemTags| <= |r.itemTags|
      && r.itemTags[..|s.itemTags|] == s.itemTags
      && (forall k :: |s.itemTags| <= k < |r.itemTags| ==>
            && r.itemTags[k].tagId in ids[..n] && Inserts(s.tags, sessions, req, r.itemTags[k].tagId)
            && r.itemTags[k].sdkSessionId == req.sdkSessionId && r.itemTags[k].itemType == req.itemType
            && r.itemTags[k].itemId == req.itemId && r.itemTags[k].isAuto == req.isAuto)
  {
    if n > 0 {
      var x := ids[n - 1];
      assert ids[..n] == ids[..n - 1] + [x];
      TaggedRows(s, sessions, req, ids, n - 1, now);
      InsertsStable(s, sessions, req, ids, n - 1, now, x);
    }
  }

  /**
   * `tagConversation` counts exactly the inserts that succeed, adds one
   * `conversation_tags` row for each, for that item and that tag, and raises
   * each tag's usage count once per successful insert of it; nothing else in
   * the tag table changes.
   */
  lemma TagAllEffect(s: Tagging, sessions: set<string>, req: TagRequest, ids: seq<int>, now: int)
    ensures var r := Tagged(s, sessions, req, ids, |ids|, now);
      && r.count == s.count + |Filter(ids, InsertsFn(s.tags, sessions, req))|
      && |r.itemTags| == |s.itemTags| + |Filter(ids, InsertsFn(s.tags, sessions, req))|
      && r.itemTags[..|s.itemTags|] == s.itemTags
      && (forall k :: |s.itemTags| <= k < |r.itemTags| ==>
            && r.itemTags[k].tagId in ids && Inserts(s.tags, sessions, req, r.itemTags[k].tagId)
            && r.itemTags[k].sdkSessionId == req.sdkSessionId && r.itemTags[k].itemType == req.itemType
            && r.itemTags[k].itemId == req.itemId && r.itemTags[k].isAuto == req.isAuto)
      && |r.tags| == |s.tags|
      && (forall j :: 0 <= j < |s.tags| ==>
            r.tags[j] == s.tags[j].(usage := s.tags[j].usage +
              if Inserts(s.tags, sessions, req, s.tags[j].id) then multiset(ids)[s.tags[j].id] else 0))
  {
    assert ids[..|ids|] == ids;
    TaggedUsage(s, sessions, req, ids, |ids|, now);
    TaggedCount(s, sessions, req, ids, |ids|, now);
    TaggedRows(s, sessions, req, ids, |ids|, now);
  }

  /** The fields `updateTag` may set; an absent one is left alone. */
  datatype TagChanges = TagChanges(name: Option<string>, category: Option<string>, description: Option<string>, color: Option<string>)

  const UniqueTagName := "UNIQUE constraint failed: content_tags.tag_name"

  function ApplyChanges(t: Tag, u: TagChanges, now: int): Tag
  {
    t.(name := if u.name.Some? then u.name.value else t.name,
       category := if u.category.Some? then u.category else t.category,
       description := if u.description.Some? then u.description else t.description,
       color := if u.color.Some? then u.color else t.color,
       updatedAt := Some(now))
  }

  /** The tag table after `updateTag`, and whether a row changed. */
  datatype TagUpdate = TagUpdate(changed: bool, tags: seq<Tag>)

  function UpdateTags(tags: seq<Tag>, id: int, u: TagChanges, now: int): (r: seq<Tag>)
    ensures |r| == |tags|
    ensures forall j :: 0 <= j < |tags| ==> r[j] == if tags[j].id == id then ApplyChanges(tags[j], u, now) else tags[j]
  {
    if tags == [] then []
    else [if tags[0].id == id then ApplyChanges(tags[0], u, now) else tags[0]] + UpdateTags(tags[1..], id, u, now)
  }

  /** Whether a row other than `id` already has the new name, while row `id` exists. */
  predicate NameTaken(tags: seq<Tag>, id: int, u: TagChanges)
  {
    u.name.Some? && HasTag(tags, id) && exists j :: 0 <= j < |tags| && tags[j].id != id && tags[j].name == u.name.value
  }

  /**
   * `updateTag`: nothing provided answers false and writes nothing; a new
   * name another tag already has violates `UNIQUE(tag_name)`; otherwise the
   * provided fields and the update time are written to the row and the
   * answer is whether the row exists.
   */
  function ChangeTag(tags: seq<Tag>, id: int, u: TagChanges, now: int): (r: Result<TagUpdate>)
    ensures u == TagChanges(None, None, None, None) ==> r == Ok(TagUpdate(false, tags))
    ensures r.Err? <==> u != TagChanges(None, None, None, None) && NameTaken(tags, id, u)
    ensures r.Ok? && u != TagChanges(None, None, None, None) ==>
      && r.value.changed == HasTag(tags, id)
      && |r.value.tags| == |tags|
      && forall j :: 0 <= j < |tags| && tags[j].id != id ==> r.value.tags[j] == tags[j]
  {
    if u == TagChanges(None, None, None, None) then Ok(TagUpdate(false, tags))
    else if NameTaken(tags, id, u) then Err(UniqueTagName)
    else Ok(TagUpdate(HasTag(tags, id), UpdateTags(tags, id, u, now)))
  }

  /** An accepted `updateTag` keeps tag names unique when ids are. */
  lemma UpdateTagKeepsNamesUnique(tags: seq<Tag>, id: int, u: TagChanges, now: int)
    requires UniqueNames(tags) && forall i, j :: 0 <= i < j < |tags| ==> tags[i].id != tags[j].id
    requires ChangeTag(tags, id, u, now).Ok?
    ensures UniqueNames(ChangeTag(tags, id, u, now).value.tags)
  {
    var r := ChangeTag(tags, id, u, now).value.tags;
    if u != TagChanges(None, None, None, None) {
      forall i, j | 0 <= i < j < |r|
        ensures r[i].name != r[j].name
      {
        if u.name.Some? && tags[i].id == id {
          assert tags[j].id != id;
        } else if u.name.Some? && tags[j].id == id {
          assert tags[i].id != id;
        }
      }
    }
  }

  // ------------------------------------------------------------ auto-tagging

  /** The keyword table of `autoTagContent`, in its declaration order. */
  const TagPatterns: seq<(string, seq<string>)> := [
    ("bugfix", ["bug", "fix", "error", "issue", "problem", "crash", "fail", "exception"]),
    ("feature", ["add", "implement", "new", "create", "introduce", "feature", "functionality"]),
    ("refactor", ["refactor", "restructure", "reorganize", "rewrite", "improve"]),
    ("decision", ["decision", "choose", "select", "adopt", "architecture", "design"]),
    ("discovery", ["discover", "find", "learn", "understand", "explore", "investigate"]),
    ("documentation", ["doc", "comment", "readme", "documentation", "explain"]),
    ("testing", ["test", "spec", "verify", "validate", "coverage", "unit"]),
    ("optimization", ["optimize", "performance", "speed", "efficient", "cache", "memory"]),
    ("security", ["security", "auth", "permission", "access", "token", "secure"]),
    ("frontend", ["ui", "react", "component", "css", "html", "browser", "dom"]),
    ("backend", ["api", "server", "database", "sql", "endpoint", "request"]),
    ("database", ["query", "table", "schema", "migration", "index", "sqlite"]),
    ("api", ["endpoint", "rest", "graphql", "http", "request", "response"])
  ]

  /** `getTagByName`: the row with that name. */
  function TagByName(tags: seq<Tag>, name: string): (r: Option<Tag>)
    ensures r.Some? ==> r.value in tags && r.value.name == name
    ensures r.None? ==> forall t :: t in tags ==> t.name != name
  {
    if tags == [] then None
    else if tags[0].name == name then Some(tags[0])
    else TagByName(tags[1..], name)
  }

  /** Whether some pattern is a substring of the lower-cased content. */
  predicate AnyIncluded(lower: string, patterns: seq<string>)
  {
    exists p :: p in patterns && Contains(lower, p)
  }

  /** Whether one entry of the table yields its tag. */
  predicate Qualifies(lower: string, existing: seq<string>, tags: seq<Tag>, entry: (string, seq<string>))
  {
    AnyIncluded(lower, entry.1) && TagByName(tags, entry.0).Some? && entry.0 !in existing
  }

  function QualifiesFn(lower: string, existing: seq<string>, tags: seq<Tag>): ((string, seq<string>)) -> bool
  {
    (e: (string, seq<string>)) => Qualifies(lower, existing, tags, e)
  }

  /** The tags the first `n` entries of a keyword table yield, in table order. */
  function AutoTags(lower: string, existing: seq<string>, tags: seq<Tag>, table: seq<(string, seq<string>)>, n: nat): (r: seq<Tag>)
    requires n <= |table|
  {
    if n == 0 then []
    else
      var e := table[n - 1];
      AutoTags(lower, existing, tags, table, n - 1) + if QualifiesFn(lower, existing, tags)(e) then [TagByName(tags, e.0).value] else []
  }

  function Names(ts: seq<Tag>): (r: seq<string>)
    ensures |r| == |ts| && forall i :: 0 <= i < |ts| ==> r[i] == ts[i].name
  {
    if ts == [] then [] else [ts[0].name] + Names(ts[1..])
  }

  /** The first components of a list of pairs: a table's names, a tally's kinds. */
  function Firsts<A, B>(ps: seq<(A, B)>): (r: seq<A>)
    ensures |r| == |ps| && forall i :: 0 <= i < |ps| ==> r[i] == ps[i].0
  {
    if ps == [] then [] else [ps[0].0] + Firsts(ps[1..])
  }

  lemma NamesAppend(a: seq<Tag>, b: seq<Tag>)
    ensures Names(a + b) == Names(a) + Names(b)
  {
  }

  lemma FirstsAppend<A, B>(a: seq<(A, B)>, b: seq<(A, B)>)
    ensures Firsts(a + b) == Firsts(a) + Firsts(b)
  {
  }

  /**
   * The auto-tags are, in table order, the stored tags of exactly those
   * entries one of whose patterns occurs in the lower-cased content and
   * whose name is not among the existing tags.
   */
  lemma {:induction false} AutoTagsAre(lower: string, existing: seq<string>, tags: seq<Tag>, table: seq<(string, seq<string>)>, n: nat)
    requires n <= |table|
    ensures Names(AutoTags(lower, existing, tags, table, n)) ==
      Firsts(Filter(table[..n], QualifiesFn(lower, existing, tags)))
  {
    if n > 0 {
      var q := QualifiesFn(lower, existing, tags);
      AutoTagsAre(lower, existing, tags, table, n - 1);
      var e := table[n - 1];
      assert table[..n] == table[..n - 1] + [e];
      FilterAppend(table[..n - 1], [e], q);
      FilterOne(e, q);
      var a := AutoTags(lower, existing, tags, table, n - 1);
      var b: seq<Tag> := if q(e) then [TagByName(tags, e.0).value] else [];
      assert AutoTags(lower, existing, tags, table, n) == a + b;
      NamesAppend(a, b);
      FirstsAppend(Filter(table[..n - 1], q), if q(e) then [e] else []);
    }
  }

  /** Every auto-tag is a stored tag that the item does not already carry. */
  lemma {:induction false} AutoTagsStored(lower: string, existing: seq<string>, tags: seq<Tag>, table: seq<(string, seq<string>)>, n: nat)
    requires n <= |table|
    ensures forall t :: t in AutoTags(lower, existing, tags, table, n) ==> t in tags && t.name !in existing
  {
    if n > 0 {
      AutoTagsStored(lower, existing, tags, table, n - 1);
    }
  }

  // ------------------------------------------------------------ automatic summaries

  /** What `generateAutoSummary` reads of an observation. */
  datatype Entry = Entry(kind: string, content: string, createdAt: string)

  function IsKind(k: string): Entry -> bool
  {
    (e: Entry) => e.kind == k
  }

  function IsChange(): Entry -> bool
  {
    (e: Entry) => e.kind == "change" || e.kind == "bugfix"
  }

  /** `content.substring(0, 200)` of each entry. */
  function Cut(es: seq<Entry>): (r: seq<string>)
    ensures |r| == |es|
    ensures forall i :: 0 <= i < |es| ==> r[i] == Prefix(es[i].content, 200)
  {
    if es == [] then [] else [Prefix(es[0].content, 200)] + Cut(es[1..])
  }

  function Count(es: seq<Entry>, k: string): nat
  {
    if es == [] then 0 else Count(es[..|es| - 1], k) + if es[|es| - 1].kind == k then 1 else 0
  }

  /** `typeCounts[type] = (typeCounts[type] || 0) + 1`, keeping first-insertion order. */
  function Tally(counts: seq<(string, nat)>, k: string): seq<(string, nat)>
  {
    if counts == [] then [(k, 1)]
    else if counts[0].0 == k then [(k, counts[0].1 + 1)] + counts[1..]
    else [counts[0]] + Tally(counts[1..], k)
  }

  function Counts(es: seq<Entry>): seq<(string, nat)>
  {
    if es == [] then [] else Tally(Counts(es[..|es| - 1]), es[|es| - 1].kind)
  }

  lemma {:induction false} TallyEffect(counts: seq<(string, nat)>, k: string)
    requires DistinctKinds(counts)
    ensures var r := Tally(counts, k);
      && Firsts(r) == (if k in Firsts(counts) then Firsts(counts) else Firsts(counts) + [k])
      && forall i :: 0 <= i < |r| ==> r[i].1 == (if i < |counts| then counts[i].1 else 0) + (if r[i].0 == k then 1 else 0)
  {
    if counts != [] && counts[0].0 != k {
      TallyEffect(counts[1..], k);
      var r := Tally(counts, k);
      assert r == [counts[0]] + Tally(counts[1..], k);
      assert Firsts(counts) == [counts[0].0] + Firsts(counts[1..]);
      assert Firsts(r) == [counts[0].0] + Firsts(Tally(counts[1..], k));
      if k !in Firsts(counts[1..]) {
        assert k !in Firsts(counts);
      }
    } else if counts != [] {
      var r := Tally(counts, k);
      assert Firsts(r) == [k] + Firsts(counts[1..]);
      assert Firsts(counts) == [k] + Firsts(counts[1..]);
    }
  }

  predicate DistinctKinds(c: seq<(string, nat)>)
  {
    forall i, j :: 0 <= i < j < |c| ==> c[i].0 != c[j].0
  }

  /** The kinds of the breakdown are distinct. */
  lemma {:induction false} CountsDistinct(es: seq<Entry>)
    ensures DistinctKinds(Counts(es))
  {
    if es != [] {
      var init := es[..|es| - 1];
      var k := es[|es| - 1].kind;
      CountsDistinct(init);
      var c0 := Counts(init);
      TallyEffect(c0, k);
      var c := Counts(es);
      forall i, j | 0 <= i < j < |c|
        ensures c[i].0 != c[j].0
      {
        assert Firsts(c)[i] == c[i].0 && Firsts(c)[j] == c[j].0;
        if j >= |c0| {
          assert Firsts(c0)[i] == c[i].0;
        } else {
          assert Firsts(c0)[i] == c[i].0 && Firsts(c0)[j] == c[j].0;
        }
      }
    }
  }

  /** The kinds of the breakdown are exactly the kinds that occur. */
  lemma {:induction false} CountsKinds(es: seq<Entry>)
    ensures forall k :: k in Firsts(Counts(es)) <==> exists e :: e in es && e.kind == k
  {
    if es != [] {
      var init := es[..|es| - 1];
      var last := es[|es| - 1];
      CountsKinds(init);
      CountsDistinct(init);
      TallyEffect(Counts(init), last.kind);
      forall k
        ensures k in Firsts(Counts(es)) <==> exists e :: e in es && e.kind == k
      {
        KindOccursStep(es, k);
      }
    }
  }

  /** A kind occurs in `es` exactly when it is the last entry's or occurs before it. */
  lemma KindOccursStep(es: seq<Entry>, k: string)
    requires es != []
    ensures (exists e :: e in es && e.kind == k)
      <==> es[|es| - 1].kind == k || exists e :: e in es[..|es| - 1] && e.kind == k
  {
    var init := es[..|es| - 1];
    var last := es[|es| - 1];
    assert es == init + [last];
    if exists e :: e in init && e.kind == k {
      var e :| e in init && e.kind == k;
      assert e in es;
    }
  }

  /**
   * The activity breakdown lists every kind that occurs, each once, in the
   * order of first occurrence, with the number of entries of that kind.
   */
  lemma {:induction false} CountsAreCounts(es: seq<Entry>)
    ensures var c := Counts(es);
      && DistinctKinds(c)
      && (forall i :: 0 <= i < |c| ==> c[i].1 == Count(es, c[i].0) && c[i].1 > 0)
      && (forall k :: k in Firsts(c) <==> exists e :: e in es && e.kind == k)
  {
    CountsDistinct(es);
    CountsKinds(es);
    CountsTallied(es);
  }

  /** Each entry of the breakdown holds the number of entries of its kind. */
  lemma {:induction false} CountsTallied(es: seq<Entry>)
    ensures forall i :: 0 <= i < |Counts(es)| ==> Counts(es)[i].1 == Count(es, Counts(es)[i].0) && Counts(es)[i].1 > 0
    decreases |es|, 1
  {
    forall i | 0 <= i < |Counts(es)|
      ensures Counts(es)[i].1 == Count(es, Counts(es)[i].0) && Counts(es)[i].1 > 0
    {
      CountsTalliedAt(es, i);
    }
  }

  /** One entry of `CountsTallied`, from the breakdown of all but the last entry. */
  lemma {:induction false} CountsTalliedAt(es: seq<Entry>, i: nat)
    requires i < |Counts(es)|
    ensures Counts(es)[i].1 == Count(es, Counts(es)[i].0) && Counts(es)[i].1 > 0
    decreases |es|, 0
  {
    var init := es[..|es| - 1];
    var k := es[|es| - 1].kind;
    var c0 := Counts(init);
    var c := Counts(es);
    assert c == Tally(c0, k);
    CountsDistinct(init);
    TallyEffect(c0, k);
    assert Firsts(c)[i] == c[i].0;
    assert c[i].1 == (if i < |c0| then c0[i].1 else 0) + (if c[i].0 == k then 1 else 0);
    assert Count(es, c[i].0) == Count(init, c[i].0) + (if k == c[i].0 then 1 else 0);
    if i < |c0| {
      CountsTallied(init);
      assert Firsts(c0)[i] == c0[i].0;
      assert c0[i].1 == Count(init, c0[i].0) && c0[i].1 > 0;
    } else {
      assert k !in Firsts(c0) && c[i].0 == k;
      CountsKinds(init);
      CountAbsent(init, k);
    }
  }

  /** A kind that never occurs counts zero. */
  lemma {:induction false} CountAbsent(es: seq<Entry>, k: string)
    requires forall e :: e in es ==> e.kind != k
    ensures Count(es, k) == 0
  {
    if es != [] {
      assert forall e :: e in es[..|es| - 1] ==> e in es;
      CountAbsent(es[..|es| - 1], k);
      assert es[|es| - 1] in es;
    }
  }

  /** The facts a summary is assembled from: every list is complete; at most three of each are shown. */
  datatype Report = Report(
    total: nat, counts: seq<(string, nat)>, decisions: seq<string>, changes: seq<string>,
    discoveries: seq<string>, basedOn: Option<string>)

  function MakeReport(es: seq<Entry>, prompt: Option<string>): Report
  {
    Report(|es|, Counts(es), Cut(Filter(es, IsKind("decision"))), Cut(Filter(es, IsChange())),
           Cut(Filter(es, IsKind("discovery"))), if prompt.Some? && prompt.value != "" then prompt else None)
  }

  /** `list.slice(0, 3)`. */
  function Shown(items: seq<string>): (r: seq<string>)
    ensures |r| <= 3 && |r| <= |items| && r == items[..|r|]
  {
    if |items| <= 3 then items else items[..3]
  }

  function Bullets(items: seq<string>): string
  {
    if items == [] then "" else "  - " + items[0] + "\n" + Bullets(items[1..])
  }

  function BreakdownLines(counts: seq<(string, nat)>): string
  {
    if counts == [] then "" else "  - " + counts[0].0 + ": " + IntToString(counts[0].1) + "\n" + BreakdownLines(counts[1..])
  }

  function Section(title: string, items: seq<string>, gap: string): string
  {
    if items == [] then "" else title + " (" + IntToString(|items|) + "):\n" + Bullets(Shown(items)) + gap
  }

  const NoObservations := "No observations recorded for this session."

  /** The text of a report, section by section. */
  function Render(r: Report): string
  {
    "Session summary based on " + IntToString(r.total) + " observations.\n\n"
    + (if r.counts != [] then "Activity breakdown:\n" + BreakdownLines(r.counts) + "\n" else "")
    + Section("Key decisions", r.decisions, "\n")
    + Section("Changes made", r.changes, "\n")
    + Section("Discoveries", r.discoveries, "")
    + (if r.basedOn.Some? then "\nBased on: " + r.basedOn.value else "")
  }

  /**
   * What a summary reports: the number of entries, the breakdown by kind,
   * and per category the number of entries in it; the items shown are at
   * most three, each at most 200 characters and the start of the content of
   * an entry of that category, in entry order.
   */
  lemma ReportFacts(es: seq<Entry>, prompt: Option<string>)
    ensures var r := MakeReport(es, prompt);
      && r.total == |es|
      && |r.decisions| == |Filter(es, IsKind("decision"))|
      && |r.changes| == |Filter(es, IsChange())|
      && |r.discoveries| == |Filter(es, IsKind("discovery"))|
      && (forall s :: s in Shown(r.decisions) ==>
            (|s| <= 200 && exists e :: e in es && e.kind == "decision" && StartsWith(e.content, s)))
      && (forall s :: s in Shown(r.changes) ==>
            (|s| <= 200 && exists e :: e in es && (e.kind == "change" || e.kind == "bugfix") && StartsWith(e.content, s)))
      && (forall s :: s in Shown(r.discoveries) ==>
            (|s| <= 200 && exists e :: e in es && e.kind == "discovery" && StartsWith(e.content, s)))
      && (es != [] ==> r.counts != [])
  {
    var r := MakeReport(es, prompt);
    CutFrom(Filter(es, IsKind("decision")), r.decisions);
    CutFrom(Filter(es, IsChange()), r.changes);
    CutFrom(Filter(es, IsKind("discovery")), r.discoveries);
    if es != [] {
      CountsKinds(es);
      assert es[0] in es;
    }
  }

  /** Every item of a cut list starts the content of one of its entries. */
  lemma CutFrom(es: seq<Entry>, r: seq<string>)
    requires r == Cut(es)
    ensures forall s :: s in Shown(r) ==> |s| <= 200 && exists e :: e in es && StartsWith(e.content, s)
  {
    forall s | s in Shown(r)
      ensures |s| <= 200 && exists e :: e in es && StartsWith(e.content, s)
    {
      var i :| 0 <= i < |Shown(r)| && Shown(r)[i] == s;
      assert r[i] == Prefix(es[i].content, 200);
      assert es[i] in es;
    }
  }

  /** `generateAutoSummary` as text. */
  function AutoSummary(es: seq<Entry>, prompt: Option<string>): string
  {
    if es == [] then NoObservations else Render(MakeReport(es, prompt))
  }

  // ------------------------------------------------------------ the service

  class EnhancementService {
    var tasks: seq<Task>
    var tags: seq<Tag>
    var itemTags: seq<ItemTag>
    /** The last id `conversation_tags` handed out (its AUTOINCREMENT sequence). */
    var lastItemTagId: int
    /** The SDK session ids `sdk_sessions` holds, which `conversation_tags` rows must reference. */
    const sessions: set<string>

    constructor (sessions: set<string>, tags: seq<Tag>)
      ensures this.sessions == sessions && this.tags == tags
      ensures tasks == [] && itemTags == [] && lastItemTagId == 0
    {
      this.sessions := sessions;
      this.tags := tags;
      tasks := [];
      itemTags := [];
      lastItemTagId := 0;
    }

    /** `startTask`. */
    method Start(id: int, now: int) returns (changed: bool)
      modifies this
      ensures TaskUpdate(changed, tasks) == StartTask(old(tasks), id, now)
      ensures tags == old(tags) && itemTags == old(itemTags)
    {
      var r := StartTask(tasks, id, now);
      tasks := r.tasks;
      changed := r.changed;
    }

    /** `completeTask`. */
    method Complete(id: int, output: string, now: int) returns (changed: bool)
      modifies this
      ensures TaskUpdate(changed, tasks) == CompleteTask(old(tasks), id, output, now)
      ensures tags == old(tags) && itemTags == old(itemTags)
    {
      var r := CompleteTask(tasks, id, output, now);
      tasks := r.tasks;
      changed := r.changed;
    }

    /** `failTask`. */
    method Fail(id: int, message: string, now: int) returns (changed: bool)
      modifies this
      ensures TaskUpdate(changed, tasks) == FailTask(old(tasks), id, message, now)
      ensures tags == old(tags) && itemTags == old(itemTags)
    {
      var r := FailTask(tasks, id, message, now);
      tasks := r.tasks;
      changed := r.changed;
    }

    /** `retryTask`. */
    method Retry(id: int) returns (changed: bool)
      modifies this
      ensures TaskUpdate(changed, tasks) == RetryTask(old(tasks), id)
      ensures tags == old(tags) && itemTags == old(itemTags)
    {
      var r := RetryTask(tasks, id);
      tasks := r.tasks;
      changed := r.changed;
    }

    /** `tagConversation`: one INSERT per tag id, a failing one skipped, counting the rest. */
    method TagConversation(req: TagRequest, now: int) returns (taggedCount: nat)
      modifies this
      ensures var r := Tagged(Tagging(old(tags), old(itemTags), old(lastItemTagId), 0), sessions, req, req.tagIds, |req.tagIds|, now);
        tags == r.tags && itemTags == r.itemTags && lastItemTagId == r.lastItemTagId && taggedCount == r.count
      ensures tasks == old(tasks)
    {
      tags, itemTags, lastItemTagId, taggedCount := TagLoop(tags, itemTags, lastItemTagId, sessions, req, now);
    }

    /** `updateTag`. */
    method UpdateTag(id: int, u: TagChanges, now: int) returns (r: Result<bool>)
      modifies this
      ensures var s := ChangeTag(old(tags), id, u, now);
        && (s.Ok? ==> r == Ok(s.value.changed) && tags == s.value.tags)
        && (s.Err? ==> r.Err? && tags == old(tags))
      ensures tasks == old(tasks) && itemTags == old(itemTags)
    {
      var s := ChangeTag(tags, id, u, now);
      if s.Ok? {
        tags := s.value.tags;
        r := Ok(s.value.changed);
      } else {
        r := Err(s.error);
      }
    }

    /** `autoTagContent`: the table walked in order, each qualifying tag looked up by name. */
    method AutoTagContent(content: string, existing: seq<string>) returns (matched: seq<Tag>)
      ensures matched == AutoTags(Lower(content), existing, tags, TagPatterns, |TagPatterns|)
    {
      matched := MatchTable(Lower(content), existing, tags, TagPatterns);
    }

    /** `generateAutoSummary`: one pass over the entries, then the text. */
    method GenerateAutoSummary(es: seq<Entry>, prompt: Option<string>) returns (summary: string)
      ensures summary == AutoSummary(es, prompt)
    {
      if |es| == 0 {
        return NoObservations;
      }
      var counts: seq<(string, nat)> := [];
      var decisions: seq<string> := [];
      var changes: seq<string> := [];
      var discoveries: seq<string> := [];
      var i := 0;
      while i < |es|
        invariant 0 <= i <= |es|
        invariant counts == Counts(es[..i])
        invariant decisions == Cut(Filter(es[..i], IsKind("decision")))
        invariant changes == Cut(Filter(es[..i], IsChange()))
        invariant discoveries == Cut(Filter(es[..i], IsKind("discovery")))
      {
        var e := es[i];
        SummaryStep(es, i);
        counts := Tally(counts, e.kind);
        if e.kind == "decision" {
          decisions := decisions + [Prefix(e.content, 200)];
        } else if e.kind == "change" || e.kind == "bugfix" {
          changes := changes + [Prefix(e.content, 200)];
        } else if e.kind == "discovery" {
          discoveries := discoveries + [Prefix(e.content, 200)];
        }
        i := i + 1;
      }
      assert es[..|es|] == es;
      var basedOn := if prompt.Some? && prompt.value != "" then prompt else None;
      summary := Render(Report(|es|, counts, decisions, changes, discoveries, basedOn));
    }
  }

  /** The loop of `tagConversation` over the tag tables. */
  method TagLoop(tags0: seq<Tag>, itemTags0: seq<ItemTag>, last0: int, sessions: set<string>, req: TagRequest, now: int)
    returns (tags: seq<Tag>, itemTags: seq<ItemTag>, lastItemTagId: int, taggedCount: nat)
    ensures var r := Tagged(Tagging(tags0, itemTags0, last0, 0), sessions, req, req.tagIds, |req.tagIds|, now);
      tags == r.tags && itemTags == r.itemTags && lastItemTagId == r.lastItemTagId && taggedCount == r.count
  {
    ghost var start := Tagging(tags0, itemTags0, last0, 0);
    tags, itemTags, lastItemTagId, taggedCount := tags0, itemTags0, last0, 0;
    var i := 0;
    while i < |req.tagIds|
      invariant 0 <= i <= |req.tagIds|
      invariant Tagging(tags, itemTags, lastItemTagId, taggedCount) == Tagged(start, sessions, req, req.tagIds, i, now)
    {
      var tagId := req.tagIds[i];
      if Inserts(tags, sessions, req, tagId) {
        itemTags := itemTags + [ItemTag(lastItemTagId + 1, req.sdkSessionId, req.itemType, req.itemId, tagId, req.isAuto, now)];
        lastItemTagId := lastItemTagId + 1;
        tags := BumpUsage(tags, tagId);
        taggedCount := taggedCount + 1;
      }
      i := i + 1;
    }
  }

  /** The inner loop of `autoTagContent`: whether any pattern occurs in the content. */
  method AnyMatch(lower: string, patterns: seq<string>) returns (hit: bool)
    ensures hit == AnyIncluded(lower, patterns)
  {
    hit := false;
    var k := 0;
    while k < |patterns|
      invariant 0 <= k <= |patterns|
      invariant hit <==> exists p :: p in patterns[..k] && Contains(lower, p)
    {
      assert patterns[..k + 1] == patterns[..k] + [patterns[k]];
      if Contains(lower, patterns[k]) {
        hit := true;
      }
      k := k + 1;
    }
    assert patterns[..k] == patterns;
  }

  /** The outer loop of `autoTagContent` over a keyword table. */
  method MatchTable(lower: string, existing: seq<string>, tags: seq<Tag>, table: seq<(string, seq<string>)>)
    returns (matched: seq<Tag>)
    ensures matched == AutoTags(lower, existing, tags, table, |table|)
  {
    matched := [];
    var i := 0;
    while i < |table|
      invariant 0 <= i <= |table|
      invariant matched == AutoTags(lower, existing, tags, table, i)
    {
      var (name, patterns) := table[i];
      var hit := AnyMatch(lower, patterns);
      if hit {
        var tag := TagByName(tags, name);
        if tag.Some? && name !in existing {
          matched := matched + [tag.value];
        }
      }
      i := i + 1;
    }
  }

  lemma CutAppend(a: seq<Entry>, b: seq<Entry>)
    ensures Cut(a + b) == Cut(a) + Cut(b)
  {
  }

  /** The cut list of one category grows by the entry's cut content exactly when the entry is of that category. */
  lemma CutStep(es: seq<Entry>, i: nat, keep: Entry -> bool)
    requires i < |es|
    ensures Cut(Filter(es[..i + 1], keep)) ==
      Cut(Filter(es[..i], keep)) + if keep(es[i]) then [Prefix(es[i].content, 200)] else []
  {
    assert es[..i + 1] == es[..i] + [es[i]];
    FilterAppend(es[..i], [es[i]], keep);
    FilterOne(es[i], keep);
    CutAppend(Filter(es[..i], keep), Filter([es[i]], keep));
  }

  /** One pass of the loop of `generateAutoSummary`. */
  lemma SummaryStep(es: seq<Entry>, i: nat)
    requires i < |es|
    ensures Counts(es[..i + 1]) == Tally(Counts(es[..i]), es[i].kind)
    ensures Cut(Filter(es[..i + 1], IsKind("decision"))) ==
      Cut(Filter(es[..i], IsKind("decision"))) + if es[i].kind == "decision" then [Prefix(es[i].content, 200)] else []
    ensures Cut(Filter(es[..i + 1], IsChange())) ==
      Cut(Filter(es[..i], IsChange())) + if es[i].kind == "change" || es[i].kind == "bugfix" then [Prefix(es[i].content, 200)] else []
    ensures Cut(Filter(es[..i + 1], IsKind("discovery"))) ==
      Cut(Filter(es[..i], IsKind("discovery"))) + if es[i].kind == "discovery" then [Prefix(es[i].content, 200)] else []
  {
    assert es[..i + 1][..i] == es[..i];
    CutStep(es, i, IsKind("decision"));
    CutStep(es, i, IsChange());
    CutStep(es, i, IsKind("discovery"));
  }
}
