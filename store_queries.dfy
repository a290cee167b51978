/**
 * Two read paths of the session store: `getFilesForSession`, which unions
 * the JSON file lists of a session's observations, and
 * `getTimelineAroundObservation` / `getTimelineAroundTimestamp`, which pick a
 * time window around an anchor and return the observations, summaries and
 * prompts inside it.
 */
module StoreQueries {
  import opened Wrappers
  import opened Json
  import opened Lists
  import opened Sorting
  import opened Store

  // ------------------------------------------------------------ files of a session

  function StrValues(l: seq<string>): (r: seq<Value>)
    ensures |r| == |l| && forall i :: 0 <= i < |l| ==> r[i] == Str(l[i])
  {
    if l == [] then [] else [Str(l[0])] + StrValues(l[1..])
  }

  /**
   * The elements `if (col) try { JSON.parse(col) }` contributes: nothing for
   * NULL or empty text, for text that does not parse, or for a parsed
   * non-array.  Text the store wrote itself parses back to its list.
   */
  function ColumnItems(c: Option<JsonText>, parse: string -> Option<Value>): (r: seq<Value>)
    ensures c.Some? && c.value.Stringified? ==> r == StrValues(c.value.items)
  {
    match c
    case None => []
    case Some(Stringified(l)) => StrValues(l)
    case Some(Raw(x)) =>
      if x == [] then []
      else match parse(x)
        case Some(Arr(xs)) => xs
        case _ => []
  }

  /** `set.add(v)`: appended unless already present (a JavaScript Set keeps insertion order). */
  function Add(acc: seq<Value>, v: Value): (r: seq<Value>)
    ensures forall x :: x in r <==> x in acc || x == v
    ensures Distinct(acc) ==> Distinct(r)
    ensures |r| >= |acc| && r[..|acc|] == acc
  {
    if v in acc then acc else acc + [v]
  }

  /** `xs.forEach(p => set.add(p))`. */
  function AddAll(acc: seq<Value>, xs: seq<Value>): (r: seq<Value>)
    ensures forall v :: v in r <==> v in acc || v in xs
    ensures Distinct(acc) ==> Distinct(r)
    ensures |r| >= |acc| && r[..|acc|] == acc
  {
    if xs == [] then acc else Add(AddAll(acc, xs[..|xs| - 1]), xs[|xs| - 1])
  }

  datatype Which = FilesReadColumn | FilesModifiedColumn

  function Column(o: Observation, which: Which): Option<JsonText>
  {
    match which
    case FilesReadColumn => o.filesRead
    case FilesModifiedColumn => o.filesModified
  }

  /** What the set holds after the loop has seen `rows` (the session's observations, in rowid order). */
  function Union(rows: seq<Observation>, which: Which, parse: string -> Option<Value>): (r: seq<Value>)
  {
    if rows == [] then []
    else AddAll(Union(rows[..|rows| - 1], which, parse), ColumnItems(Column(rows[|rows| - 1], which), parse))
  }

  /** The session's observations, as `WHERE sdk_session_id = ?` selects them. */
  function OfSession(t: Tables, sdkId: string): seq<Observation>
  {
    Filter(t.observations, (o: Observation) => o.sdkId == sdkId)
  }

  /** Each value appears once. */
  lemma {:induction false} UnionDistinct(rows: seq<Observation>, which: Which, parse: string -> Option<Value>)
    ensures Distinct(Union(rows, which, parse))
  {
    if rows != [] {
      UnionDistinct(rows[..|rows| - 1], which, parse);
    }
  }

  /** Some row of the list contributes `v`. */
  predicate Contributes(rows: seq<Observation>, which: Which, parse: string -> Option<Value>, v: Value)
  {
    exists j :: 0 <= j < |rows| && v in ColumnItems(Column(rows[j], which), parse)
  }

  /** Exactly the values some row of the list contributes appear. */
  lemma {:induction false} UnionMember(rows: seq<Observation>, which: Which, parse: string -> Option<Value>, v: Value)
    ensures v in Union(rows, which, parse) <==> Contributes(rows, which, parse, v)
  {
    if rows != [] {
      var init := rows[..|rows| - 1];
      var last := ColumnItems(Column(rows[|rows| - 1], which), parse);
      UnionMember(init, which, parse, v);
      assert v in Union(rows, which, parse) <==> v in Union(init, which, parse) || v in last;
      if Contributes(init, which, parse, v) {
        var j :| 0 <= j < |init| && v in ColumnItems(Column(init[j], which), parse);
        assert rows[j] == init[j];
      }
      if Contributes(rows, which, parse, v) && v !in last {
        var j :| 0 <= j < |rows| && v in ColumnItems(Column(rows[j], which), parse);
        assert init[j] == rows[j];
      }
    }
  }

  /**
   * `getFilesForSession`: walk the session's observations and add each
   * element of each parsed list to one insertion-ordered set per column.
   */
  method GetFilesForSession(t: Tables, sdkId: string, parse: string -> Option<Value>)
    returns (filesRead: seq<Value>, filesModified: seq<Value>)
    ensures filesRead == Union(OfSession(t, sdkId), FilesReadColumn, parse)
    ensures filesModified == Union(OfSession(t, sdkId), FilesModifiedColumn, parse)
  {
    var rows := OfSession(t, sdkId);
    filesRead, filesModified := [], [];
    var i := 0;
    while i < |rows|
      invariant 0 <= i <= |rows|
      invariant filesRead == Union(rows[..i], FilesReadColumn, parse)
      invariant filesModified == Union(rows[..i], FilesModifiedColumn, parse)
    {
      UnionStep(rows, i, FilesReadColumn, parse);
      UnionStep(rows, i, FilesModifiedColumn, parse);
      filesRead := AddEach(filesRead, ColumnItems(rows[i].filesRead, parse));
      filesModified := AddEach(filesModified, ColumnItems(rows[i].filesModified, parse));
      i := i + 1;
    }
    assert rows[..i] == rows;
  }

  /** One more observation adds the items of its column to the union of those before it. */
  lemma UnionStep(rows: seq<Observation>, i: nat, which: Which, parse: string -> Option<Value>)
    requires i < |rows|
    ensures Union(rows[..i + 1], which, parse) == AddAll(Union(rows[..i], which, parse), ColumnItems(Column(rows[i], which), parse))
  {
    assert rows[..i + 1][..i] == rows[..i];
  }

  /** The `forEach` over one parsed list. */
  method AddEach(acc: seq<Value>, xs: seq<Value>) returns (r: seq<Value>)
    ensures r == AddAll(acc, xs)
  {
    r := acc;
    var k := 0;
    while k < |xs|
      invariant 0 <= k <= |xs|
      invariant r == AddAll(acc, xs[..k])
    {
      assert xs[..k + 1][..k] == xs[..k];
      if xs[k] !in r {
        r := r + [xs[k]];
      }
      k := k + 1;
    }
    assert xs[..k] == xs;
  }

  /**
   * Each file appears once in each answer, and a file is listed exactly when
   * some observation of the session lists it in that column.
   */
  lemma FilesForSessionMembers(t: Tables, sdkId: string, parse: string -> Option<Value>, which: Which, v: Value)
    ensures Distinct(Union(OfSession(t, sdkId), which, parse))
    ensures v in Union(OfSession(t, sdkId), which, parse) <==>
      exists o :: o in t.observations && o.sdkId == sdkId && v in ColumnItems(Column(o, which), parse)
  {
    var rows := OfSession(t, sdkId);
    UnionDistinct(rows, which, parse);
    UnionMember(rows, which, parse, v);
    if v in Union(rows, which, parse) {
      var j :| 0 <= j < |rows| && v in ColumnItems(Column(rows[j], which), parse);
      FilterMember(t.observations, (o: Observation) => o.sdkId == sdkId, rows[j]);
    }
    if exists o :: o in t.observations && o.sdkId == sdkId && v in ColumnItems(Column(o, which), parse) {
      var o :| o in t.observations && o.sdkId == sdkId && v in ColumnItems(Column(o, which), parse);
      FilterMember(t.observations, (o: Observation) => o.sdkId == sdkId, o);
      var j :| 0 <= j < |rows| && rows[j] == o;
    }
  }

  /** Every file an observation was stored with is reported for its session afterwards. */
  lemma StoredFilesReported(t: Tables, checkedKinds: set<string>, sdkId: string, project: string,
                            obs: ObservationInput, promptNumber: Option<int>, tokens: int, now: int,
                            parse: string -> Option<Value>, f: string)
    requires Valid(t) && f in obs.filesRead
    requires StoreObservation(t, checkedKinds, sdkId, project, obs, promptNumber, tokens, now).result.Ok?
    ensures Str(f) in Union(OfSession(StoreObservation(t, checkedKinds, sdkId, project, obs, promptNumber, tokens, now).db, sdkId),
                            FilesReadColumn, parse)
  {
    var r := StoreObservation(t, checkedKinds, sdkId, project, obs, promptNumber, tokens, now);
    StoreObservationEffect(t, checkedKinds, sdkId, project, obs, promptNumber, tokens, now);
    var o := r.db.observations[|t.observations|];
    var k :| 0 <= k < |obs.filesRead| && obs.filesRead[k] == f;
    assert ColumnItems(Column(o, FilesReadColumn), parse)[k] == Str(f);
    FilesForSessionMembers(r.db, sdkId, parse, FilesReadColumn, Str(f));
  }

  // ------------------------------------------------------------ timeline

  /** `project ? "AND project = ?" : ""`: an empty project filters nothing. */
  predicate InProject(p: string, project: string)
  {
    project == "" || p == project
  }

  function IdAtMost(anchor: int, project: string): Observation -> bool
  {
    (o: Observation) => o.id <= anchor && InProject(o.project, project)
  }

  function IdAtLeast(anchor: int, project: string): Observation -> bool
  {
    (o: Observation) => o.id >= anchor && InProject(o.project, project)
  }

  function EpochAtMost(t: int, project: string): Observation -> bool
  {
    (o: Observation) => o.epoch <= t && InProject(o.project, project)
  }

  function EpochAtLeast(t: int, project: string): Observation -> bool
  {
    (o: Observation) => o.epoch >= t && InProject(o.project, project)
  }

  function ById(): Observation -> int { (o: Observation) => o.id }
  function ByEpoch(): Observation -> int { (o: Observation) => o.epoch }

  function Min(a: nat, b: nat): nat { if a <= b then a else b }

  /**
   * The boundary a `ORDER BY key DESC LIMIT n` query yields: the epoch of its
   * last row, i.e. of the `n`-th largest key in `asc` (the candidates sorted
   * ascending), or `fallback` when it returns nothing.
   */
  function LowerBound(asc: seq<Observation>, n: nat, fallback: int): int
  {
    if Min(n, |asc|) == 0 then fallback else asc[|asc| - Min(n, |asc|)].epoch
  }

  /** The boundary a `ORDER BY key ASC LIMIT n` query yields. */
  function UpperBound(asc: seq<Observation>, n: nat, fallback: int): int
  {
    if Min(n, |asc|) == 0 then fallback else asc[Min(n, |asc|) - 1].epoch
  }

  /** A prompt with the project and SDK session id of its session (an inner join on the Claude session id). */
  datatype PromptView = PromptView(prompt: Prompt, project: string, sdkId: Option<string>)

  datatype Window = Window(observations: seq<Observation>, summaries: seq<Summary>, prompts: seq<PromptView>)

  function EpochIn(lo: int, hi: int, project: string): Observation -> bool
  {
    (o: Observation) => lo <= o.epoch <= hi && InProject(o.project, project)
  }

  function SummaryEpochIn(lo: int, hi: int, project: string): Summary -> bool
  {
    (s: Summary) => lo <= s.epoch <= hi && InProject(s.project, project)
  }

  function SummaryEpoch(): Summary -> int { (s: Summary) => s.epoch }

  /** The prompts in the window, joined to their session; a prompt without a session row is dropped. */
  function PromptsIn(t: Tables, ps: seq<Prompt>, lo: int, hi: int, project: string): (r: seq<PromptView>)
    ensures forall v :: v in r ==> v.prompt in ps && lo <= v.prompt.epoch <= hi && InProject(v.project, project)
  {
    if ps == [] then []
    else
      var p := ps[0];
      var rest := PromptsIn(t, ps[1..], lo, hi, project);
      match SessionFor(t, p.claudeId)
      case Some(s) =>
        if lo <= p.epoch <= hi && InProject(s.project, project)
        then [PromptView(p, s.project, s.sdkId)] + rest
        else rest
      case None => rest
  }

  function ViewEpoch(): PromptView -> int { (v: PromptView) => v.prompt.epoch }

  /** The three `created_at_epoch BETWEEN lo AND hi ORDER BY created_at_epoch ASC` queries. */
  function WindowBetween(t: Tables, lo: int, hi: int, project: string): Window
  {
    Window(SortBy(Filter(t.observations, EpochIn(lo, hi, project)), ByEpoch()),
           SortBy(Filter(t.summaries, SummaryEpochIn(lo, hi, project)), SummaryEpoch()),
           SortBy(PromptsIn(t, t.prompts, lo, hi, project), ViewEpoch()))
  }

  const EmptyWindow := Window([], [], [])

  /** The candidates for the older bound, sorted ascending by the anchor's key. */
  function Older(t: Tables, anchorId: Option<int>, epoch: int, project: string): seq<Observation>
  {
    if anchorId.Some? then SortBy(Filter(t.observations, IdAtMost(anchorId.value, project)), ById())
    else SortBy(Filter(t.observations, EpochAtMost(epoch, project)), ByEpoch())
  }

  /** The candidates for the newer bound, sorted ascending by the anchor's key. */
  function Newer(t: Tables, anchorId: Option<int>, epoch: int, project: string): seq<Observation>
  {
    if anchorId.Some? then SortBy(Filter(t.observations, IdAtLeast(anchorId.value, project)), ById())
    else SortBy(Filter(t.observations, EpochAtLeast(epoch, project)), ByEpoch())
  }

  /** The older query's LIMIT: `before + 1` around an id, `before` around a timestamp. */
  function OlderLimit(anchorId: Option<int>, before: nat): nat
  {
    if anchorId.Some? then before + 1 else before
  }

  function Lo(t: Tables, anchorId: Option<int>, epoch: int, before: nat, project: string): int
  {
    LowerBound(Older(t, anchorId, epoch, project), OlderLimit(anchorId, before), epoch)
  }

  function Hi(t: Tables, anchorId: Option<int>, epoch: int, after: nat, project: string): int
  {
    UpperBound(Newer(t, anchorId, epoch, project), after + 1, epoch)
  }

  /** Both boundary queries come back empty. */
  predicate NoBoundary(t: Tables, anchorId: Option<int>, epoch: int, before: nat, after: nat, project: string)
  {
    Min(OlderLimit(anchorId, before), |Older(t, anchorId, epoch, project)|) == 0 &&
    Min(after + 1, |Newer(t, anchorId, epoch, project)|) == 0
  }

  /**
   * `getTimelineAroundObservation(anchorId, epoch, before, after, project)`,
   * and with no anchor id `getTimelineAroundTimestamp`.  An id anchor fetches
   * `before + 1` rows with `id <= anchor` (the anchor and `before` older ones)
   * and `after + 1` with `id >= anchor`; a timestamp anchor fetches only
   * `before` rows with `epoch <= t` and `after + 1` with `epoch >= t`.  The
   * last row of each sets a bound, `epoch` standing in for an empty side; when
   * both sides are empty the answer is empty.
   */
  function Timeline(t: Tables, anchorId: Option<int>, epoch: int, before: nat, after: nat, project: string): (r: Window)
  {
    if NoBoundary(t, anchorId, epoch, before, after, project) then EmptyWindow
    else WindowBetween(t, Lo(t, anchorId, epoch, before, project), Hi(t, anchorId, epoch, after, project), project)
  }

  /** The window holds exactly the project's rows between its bounds, each table in epoch order. */
  lemma WindowBetweenMembers(t: Tables, lo: int, hi: int, project: string)
    ensures var w := WindowBetween(t, lo, hi, project);
      && (forall o :: o in w.observations <==> o in t.observations && lo <= o.epoch <= hi && InProject(o.project, project))
      && (forall s :: s in w.summaries <==> s in t.summaries && lo <= s.epoch <= hi && InProject(s.project, project))
      && (forall v :: v in w.prompts ==> v.prompt in t.prompts && lo <= v.prompt.epoch <= hi)
      && SortedBy(w.observations, ByEpoch()) && SortedBy(w.summaries, SummaryEpoch()) && SortedBy(w.prompts, ViewEpoch())
  {
    var w := WindowBetween(t, lo, hi, project);
    SortBySorted(Filter(t.observations, EpochIn(lo, hi, project)), ByEpoch());
    SortBySorted(Filter(t.summaries, SummaryEpochIn(lo, hi, project)), SummaryEpoch());
    SortBySorted(PromptsIn(t, t.prompts, lo, hi, project), ViewEpoch());
    forall o
      ensures o in w.observations <==> o in t.observations && lo <= o.epoch <= hi && InProject(o.project, project)
    {
      FilterMember(t.observations, EpochIn(lo, hi, project), o);
      assert o in w.observations <==> o in multiset(w.observations);
    }
    forall s
      ensures s in w.summaries <==> s in t.summaries && lo <= s.epoch <= hi && InProject(s.project, project)
    {
      FilterMember(t.summaries, SummaryEpochIn(lo, hi, project), s);
      assert s in w.summaries <==> s in multiset(w.summaries);
    }
    forall v | v in w.prompts
      ensures v.prompt in t.prompts && lo <= v.prompt.epoch <= hi
    {
      assert v in multiset(w.prompts);
    }
  }

  /**
   * Whatever the anchor, the answer holds only the project's rows, each table
   * in epoch order, and every observation of the project between the two
   * bounds is in it unless both boundary queries came back empty.
   */
  lemma TimelineMembers(t: Tables, anchorId: Option<int>, epoch: int, before: nat, after: nat, project: string)
    ensures var w := Timeline(t, anchorId, epoch, before, after, project);
      && (forall o :: o in w.observations ==> o in t.observations && InProject(o.project, project))
      && (forall s :: s in w.summaries ==> s in t.summaries && InProject(s.project, project))
      && SortedBy(w.observations, ByEpoch()) && SortedBy(w.summaries, SummaryEpoch())
      && (!NoBoundary(t, anchorId, epoch, before, after, project) ==>
            forall o :: (o in t.observations && InProject(o.project, project) &&
                         Lo(t, anchorId, epoch, before, project) <= o.epoch <= Hi(t, anchorId, epoch, after, project))
                        ==> o in w.observations)
  {
    WindowBetweenMembers(t, Lo(t, anchorId, epoch, before, project), Hi(t, anchorId, epoch, after, project), project);
  }

  /** Around a timestamp the older bound is an observation at or before it, or the timestamp itself. */
  lemma TimestampLo(t: Tables, epoch: int, before: nat, project: string)
    ensures Lo(t, None, epoch, before, project) <= epoch
    ensures Min(before, |Older(t, None, epoch, project)|) > 0 ==>
      exists o :: o in t.observations && InProject(o.project, project) && o.epoch == Lo(t, None, epoch, before, project)
  {
    var older := Older(t, None, epoch, project);
    if Min(before, |older|) > 0 {
      var o := older[|older| - Min(before, |older|)];
      assert o in multiset(older);
      FilterMember(t.observations, EpochAtMost(epoch, project), o);
    }
  }

  /** Around a timestamp the newer bound is an observation at or after it, or the timestamp itself. */
  lemma TimestampHi(t: Tables, epoch: int, after: nat, project: string)
    ensures Hi(t, None, epoch, after, project) >= epoch
    ensures |Newer(t, None, epoch, project)| > 0 ==>
      exists o :: o in t.observations && InProject(o.project, project) && o.epoch == Hi(t, None, epoch, after, project)
  {
    var newer := Newer(t, None, epoch, project);
    if |newer| > 0 {
      var o := newer[Min(after + 1, |newer|) - 1];
      assert o in multiset(newer);
      FilterMember(t.observations, EpochAtLeast(epoch, project), o);
    }
  }

  /** The candidate lists hold the project's observations on each side of the timestamp. */
  lemma TimestampCandidates(t: Tables, epoch: int, project: string)
    ensures |Older(t, None, epoch, project)| == 0 <==>
      forall o :: o in t.observations && InProject(o.project, project) ==> o.epoch > epoch
    ensures |Newer(t, None, epoch, project)| == 0 <==>
      forall o :: o in t.observations && InProject(o.project, project) ==> o.epoch < epoch
  {
    var f := Filter(t.observations, EpochAtMost(epoch, project));
    var g := Filter(t.observations, EpochAtLeast(epoch, project));
    assert |f| == 0 <==> |multiset(f)| == 0;
    assert |g| == 0 <==> |multiset(g)| == 0;
    forall o
      ensures o in f <==> o in t.observations && o.epoch <= epoch && InProject(o.project, project)
      ensures o in g <==> o in t.observations && o.epoch >= epoch && InProject(o.project, project)
    {
      FilterMember(t.observations, EpochAtMost(epoch, project), o);
      FilterMember(t.observations, EpochAtLeast(epoch, project), o);
    }
    if f != [] {
      assert f[0] in f;
    }
    if g != [] {
      assert g[0] in g;
    }
  }

  /**
   * Around a timestamp the bounds always enclose the anchor time.  The answer
   * is empty exactly when the project has no observation at or after the
   * anchor and either `before` is 0 or nothing lies at or before it; otherwise
   * it holds at least the observation that set one of the bounds.
   */
  lemma TimestampWindow(t: Tables, epoch: int, before: nat, after: nat, project: string)
    ensures Lo(t, None, epoch, before, project) <= epoch <= Hi(t, None, epoch, after, project)
    ensures NoBoundary(t, None, epoch, before, after, project) <==>
      ((before == 0 || forall o :: o in t.observations && InProject(o.project, project) ==> o.epoch > epoch) &&
       forall o :: o in t.observations && InProject(o.project, project) ==> o.epoch < epoch)
    ensures !NoBoundary(t, None, epoch, before, after, project) ==>
      Timeline(t, None, epoch, before, after, project).observations != []
  {
    TimestampLo(t, epoch, before, project);
    TimestampHi(t, epoch, after, project);
    TimestampCandidates(t, epoch, project);
    var lo := Lo(t, None, epoch, before, project);
    var hi := Hi(t, None, epoch, after, project);
    if !NoBoundary(t, None, epoch, before, after, project) {
      var o :| o in t.observations && InProject(o.project, project) && (o.epoch == lo || o.epoch == hi);
      WindowBetweenMembers(t, lo, hi, project);
      assert o in Timeline(t, None, epoch, before, after, project).observations;
    }
  }

  /** An observation of project "p" at the given rowid and time, for worked examples. */
  function Sample(id: int, epoch: int): Observation
  {
    Observation(id, "s", "p", None, "discovery", None, None, None, None, None, None, None, None, 0, epoch)
  }

  /**
   * The two anchors with the same `before` reach different distances: around
   * observation 2 with `before = 1` the window starts at the older
   * observation 1, while around observation 2's timestamp it starts at that
   * timestamp, since the anchor row itself fills the one row fetched.
   */
  lemma AnchorKindsDiffer()
    ensures var t := Tables([], [Sample(1, 100), Sample(2, 200)], [], []);
      && Timeline(t, Some(2), 200, 1, 0, "").observations == [Sample(1, 100), Sample(2, 200)]
      && Timeline(t, None, 200, 1, 0, "").observations == [Sample(2, 200)]
  {
    var t := Tables([], [Sample(1, 100), Sample(2, 200)], [], []);
    var rows := t.observations;
    assert Filter(rows, IdAtMost(2, "")) == rows;
    assert Filter(rows, IdAtLeast(2, "")) == [Sample(2, 200)];
    assert Filter(rows, EpochAtMost(200, "")) == rows;
    assert Filter(rows, EpochAtLeast(200, "")) == [Sample(2, 200)];
    assert Filter(rows, EpochIn(100, 200, "")) == rows;
    assert Filter(rows, EpochIn(200, 200, "")) == [Sample(2, 200)];
    assert Lo(t, Some(2), 200, 1, "") == 100;
    assert Lo(t, None, 200, 1, "") == 200;
  }
}
