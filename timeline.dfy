/**
 * The timeline `tt` renders: the selected observations and the shown
 * summaries merged by epoch, bucketed by day, and rendered day by day into
 * rows, with observations clustered under their file label and the first
 * few observations rendered in full.  Rows are structured values; colours,
 * Markdown, blank lines and locale formatting are not modelled.  Days and
 * clock times are taken in UTC.
 */
module Timeline {
  import opened Wrappers
  import opened Json
  import opened Text
  import opened Sorting
  import opened Context
  import Settings

  datatype Entry = Obs(o: Observation) | Sum(shown: Shown)

  /** The sort key: an observation's own epoch, a summary's display epoch. */
  function EntryEpoch(e: Entry): int
  {
    match e
    case Obs(o) => o.epoch
    case Sum(s) => s.displayEpoch
  }

  const DayMillis: int := 86400000

  function DayOf(epoch: int): int
  {
    epoch / DayMillis
  }

  function EntryDay(e: Entry): int
  {
    DayOf(EntryEpoch(e))
  }

  /** The minute of the day an entry's time column shows. */
  function ClockOf(epoch: int): int
  {
    (epoch % DayMillis) / 60000
  }

  lemma DayOfMonotone(a: int, b: int)
    requires a <= b
    ensures DayOf(a) <= DayOf(b)
  {
  }

  function ObsEntries(m: seq<Observation>): (r: seq<Entry>)
    ensures |r| == |m| && forall i :: 0 <= i < |m| ==> r[i] == Obs(m[i])
  {
    seq(|m|, i requires 0 <= i < |m| => Obs(m[i]))
  }

  function SumEntries(shown: seq<Shown>): (r: seq<Entry>)
    ensures |r| == |shown| && forall i :: 0 <= i < |shown| ==> r[i] == Sum(shown[i])
  {
    seq(|shown|, i requires 0 <= i < |shown| => Sum(shown[i]))
  }

  /** Observations, then summaries, stably sorted by epoch. */
  function Merged(m: seq<Observation>, shown: seq<Shown>): seq<Entry>
  {
    SortBy(ObsEntries(m) + SumEntries(shown), EntryEpoch)
  }

  /**
   * The merged list is ordered by epoch, holds every entry once, and at any
   * one epoch lists the observations (in their own order) before the summaries.
   */
  lemma MergedOrder(m: seq<Observation>, shown: seq<Shown>, k: int)
    ensures var r := Merged(m, shown);
      SortedBy(r, EntryEpoch)
      && multiset(r) == multiset(ObsEntries(m)) + multiset(SumEntries(shown))
      && WithKey(r, EntryEpoch, k) == WithKey(ObsEntries(m), EntryEpoch, k) + WithKey(SumEntries(shown), EntryEpoch, k)
  {
    var s := ObsEntries(m) + SumEntries(shown);
    SortBySorted(s, EntryEpoch);
    SortByStable(s, EntryEpoch, k);
    WithKeyAppend(ObsEntries(m), SumEntries(shown), EntryEpoch, k);
  }

  // ---------------------------------------------------------------- day buckets

  datatype Bucket = Bucket(day: int, items: seq<Entry>)

  function BucketDay(b: Bucket): int
  {
    b.day
  }

  /** `W.has(R) || W.set(R, []); W.get(R).push(u)` on buckets kept in insertion order. */
  function AddTo(bs: seq<Bucket>, e: Entry): (r: seq<Bucket>)
    ensures |r| == |bs| || |r| == |bs| + 1
  {
    if bs == [] then [Bucket(EntryDay(e), [e])]
    else if bs[0].day == EntryDay(e) then [Bucket(bs[0].day, bs[0].items + [e])] + bs[1..]
    else [bs[0]] + AddTo(bs[1..], e)
  }

  /** The buckets of a list of entries, days in order of first appearance. */
  function Group(s: seq<Entry>): seq<Bucket>
  {
    if s == [] then [] else AddTo(Group(s[..|s| - 1]), s[|s| - 1])
  }

  /** The days of the buckets, in order. */
  function Days(bs: seq<Bucket>): (r: seq<int>)
    ensures |r| == |bs| && forall k :: 0 <= k < |bs| ==> r[k] == bs[k].day
  {
    seq(|bs|, k requires 0 <= k < |bs| => bs[k].day)
  }

  predicate DistinctDays(bs: seq<Bucket>)
  {
    forall i, j :: 0 <= i < j < |bs| ==> bs[i].day != bs[j].day
  }

  /** An entry of a day that has a bucket is appended to that bucket. */
  lemma {:induction false} AddToExisting(bs: seq<Bucket>, e: Entry, k: nat)
    requires DistinctDays(bs)
    requires k < |bs| && bs[k].day == EntryDay(e)
    ensures AddTo(bs, e) == bs[k := Bucket(bs[k].day, bs[k].items + [e])]
  {
    if k > 0 {
      assert bs[0].day != bs[k].day;
      AddToExisting(bs[1..], e, k - 1);
      assert bs[1..][k - 1 := Bucket(bs[k].day, bs[k].items + [e])]
        == bs[k := Bucket(bs[k].day, bs[k].items + [e])][1..];
    }
  }

  /** An entry of a new day opens a last bucket. */
  lemma {:induction false} AddToFresh(bs: seq<Bucket>, e: Entry)
    requires EntryDay(e) !in Days(bs)
    ensures AddTo(bs, e) == bs + [Bucket(EntryDay(e), [e])]
  {
    if bs != [] {
      assert bs[0].day == Days(bs)[0];
      assert Days(bs[1..]) == Days(bs)[1..];
      AddToFresh(bs[1..], e);
      assert [bs[0]] + (bs[1..] + [Bucket(EntryDay(e), [e])]) == bs + [Bucket(EntryDay(e), [e])];
    }
  }

  /** The buckets `bs` group the entries `s` by day: distinct days, every day present, each bucket its day's entries. */
  ghost predicate Groups(s: seq<Entry>, bs: seq<Bucket>)
  {
    && DistinctDays(bs)
    && (forall e :: e in s ==> EntryDay(e) in Days(bs))
    && (forall k :: 0 <= k < |bs| ==> bs[k].items == WithKey(s, EntryDay, bs[k].day))
  }

  /** An entry of a day already present joins that day's bucket. */
  lemma GroupStepExisting(init: seq<Entry>, e: Entry, bs: seq<Bucket>, k: nat)
    requires Groups(init, bs) && k < |bs| && bs[k].day == EntryDay(e)
    ensures Groups(init + [e], AddTo(bs, e))
  {
    var s, r, d := init + [e], AddTo(bs, e), EntryDay(e);
    AddToExisting(bs, e, k);
    assert Days(r) == Days(bs);
    forall j | 0 <= j < |r| ensures r[j].items == WithKey(s, EntryDay, r[j].day)
    {
      WithKeyAppend(init, [e], EntryDay, bs[j].day);
      assert r[j].day == bs[j].day;
    }
    forall x | x in s ensures EntryDay(x) in Days(r) {
      if x != e { assert x in init; }
    }
  }

  /** An entry of a new day opens a last bucket holding just that entry. */
  lemma GroupStepFresh(init: seq<Entry>, e: Entry, bs: seq<Bucket>)
    requires Groups(init, bs) && EntryDay(e) !in Days(bs)
    ensures Groups(init + [e], AddTo(bs, e))
  {
    var s, r, d := init + [e], AddTo(bs, e), EntryDay(e);
    AddToFresh(bs, e);
    assert Days(r) == Days(bs) + [d];
    WithKeyAppend(init, [e], EntryDay, d);
    WithKeyEmpty(init, d, bs);
    forall j | 0 <= j < |r| ensures r[j].items == WithKey(s, EntryDay, r[j].day)
    {
      if j < |bs| {
        assert r[j] == bs[j];
        WithKeyAppend(init, [e], EntryDay, bs[j].day);
      }
    }
    forall x | x in s ensures EntryDay(x) in Days(r) {
      if x != e { assert x in init; }
    }
  }

  /**
   * The buckets' days are distinct, each entry's day has a bucket, and the
   * bucket of a day holds exactly the entries of that day, in their order.
   */
  lemma {:induction false} GroupSpec(s: seq<Entry>)
    ensures DistinctDays(Group(s))
    ensures forall e :: e in s ==> EntryDay(e) in Days(Group(s))
    ensures forall k :: 0 <= k < |Group(s)| ==> Group(s)[k].items == WithKey(s, EntryDay, Group(s)[k].day)
  {
    if s != [] {
      var init := s[..|s| - 1];
      var e := s[|s| - 1];
      GroupSpec(init);
      var bs := Group(init);
      assert Groups(init, bs);
      assert s == init + [e];
      if EntryDay(e) in Days(bs) {
        var k :| 0 <= k < |bs| && Days(bs)[k] == EntryDay(e);
        GroupStepExisting(init, e, bs, k);
      } else {
        GroupStepFresh(init, e, bs);
      }
      assert Groups(s, Group(s));
    }
  }

  lemma {:induction false} WithKeyEmpty(s: seq<Entry>, d: int, bs: seq<Bucket>)
    requires forall e :: e in s ==> EntryDay(e) in Days(bs)
    requires d !in Days(bs)
    ensures WithKey(s, EntryDay, d) == []
  {
    if s != [] {
      assert s[0] in s;
      WithKeyEmpty(s[1..], d, bs);
    }
  }

  predicate Ascending(bs: seq<Bucket>)
  {
    forall i, j :: 0 <= i < j < |bs| ==> bs[i].day < bs[j].day
  }

  lemma AddToAscending(bs: seq<Bucket>, e: Entry)
    requires Ascending(bs)
    requires bs != [] ==> bs[|bs| - 1].day <= EntryDay(e)
    ensures Ascending(AddTo(bs, e)) && AddTo(bs, e)[|AddTo(bs, e)| - 1].day == EntryDay(e)
  {
    if bs != [] {
      var last := |bs| - 1;
      if bs[last].day == EntryDay(e) {
        AddToExisting(bs, e, last);
      } else {
        assert EntryDay(e) !in Days(bs);
        AddToFresh(bs, e);
      }
    }
  }

  /** For entries ordered by epoch, the buckets come out in ascending day order already. */
  lemma {:induction false} GroupAscending(s: seq<Entry>)
    requires SortedBy(s, EntryEpoch)
    ensures Ascending(Group(s))
    ensures s != [] ==> Group(s)[|Group(s)| - 1].day == EntryDay(s[|s| - 1])
  {
    if s != [] {
      var init := s[..|s| - 1];
      var e := s[|s| - 1];
      assert SortedBy(init, EntryEpoch);
      GroupAscending(init);
      if init != [] {
        DayOfMonotone(EntryEpoch(init[|init| - 1]), EntryEpoch(e));
      }
      AddToAscending(Group(init), e);
    }
  }

  /** The buckets as the source holds them: a map from day to entries and the order the days were inserted. */
  function Materialize(order: seq<int>, w: map<int, seq<Entry>>): (r: seq<Bucket>)
    requires forall k :: 0 <= k < |order| ==> order[k] in w
    ensures |r| == |order| && forall k :: 0 <= k < |order| ==> r[k] == Bucket(order[k], w[order[k]])
  {
    seq(|order|, k requires 0 <= k < |order| => Bucket(order[k], w[order[k]]))
  }

  /**
   * The day buckets of `tt`: a map from day to entries filled in list order,
   * then its entries sorted by day.
   */
  method GroupByDay(s: seq<Entry>) returns (buckets: seq<Bucket>)
    ensures buckets == SortBy(Group(s), BucketDay)
  {
    var w: map<int, seq<Entry>> := map[];
    var order: seq<int> := [];
    var i := 0;
    while i < |s|
      invariant 0 <= i <= |s|
      invariant forall k :: 0 <= k < |order| ==> order[k] in w
      invariant forall d :: d in w ==> d in order
      invariant Materialize(order, w) == Group(s[..i])
    {
      var e := s[i];
      var d := EntryDay(e);
      GroupStep(s, i);
      ghost var next := AddTo(Materialize(order, w), e);
      if d !in w {
        MaterializeFresh(order, w, e);
        w := w[d := [e]];
        order := order + [d];
      } else {
        var k :| 0 <= k < |order| && order[k] == d;
        GroupSpec(s[..i]);
        MaterializeExisting(order, w, e, k);
        w := w[d := w[d] + [e]];
      }
      assert Materialize(order, w) == next == Group(s[..i + 1]);
      i := i + 1;
    }
    assert s[..i] == s;
    buckets := SortBy(Materialize(order, w), BucketDay);
  }

  lemma GroupStep(s: seq<Entry>, i: nat)
    requires i < |s|
    ensures Group(s[..i + 1]) == AddTo(Group(s[..i]), s[i])
  {
    assert s[..i + 1][..i] == s[..i];
  }

  lemma MaterializeFresh(order: seq<int>, w: map<int, seq<Entry>>, e: Entry)
    requires forall k :: 0 <= k < |order| ==> order[k] in w
    requires EntryDay(e) !in w
    ensures var g := Materialize(order, w);
      AddTo(g, e) == Materialize(order + [EntryDay(e)], w[EntryDay(e) := [e]])
  {
    var g := Materialize(order, w);
    assert Days(g) == order;
    AddToFresh(g, e);
  }

  lemma MaterializeExisting(order: seq<int>, w: map<int, seq<Entry>>, e: Entry, k: nat)
    requires forall j :: 0 <= j < |order| ==> order[j] in w
    requires DistinctDays(Materialize(order, w))
    requires k < |order| && order[k] == EntryDay(e)
    ensures var g := Materialize(order, w);
      AddTo(g, e) == Materialize(order, w[EntryDay(e) := w[EntryDay(e)] + [e]])
  {
    var g := Materialize(order, w);
    AddToExisting(g, e, k);
  }

  /** For entries ordered by epoch the final sort of the buckets is the identity. */
  lemma GroupSortIdentity(s: seq<Entry>)
    requires SortedBy(s, EntryEpoch)
    ensures SortBy(Group(s), BucketDay) == Group(s)
  {
    GroupAscending(s);
    SortBySortedIdentity(Group(s), BucketDay);
  }

  // ---------------------------------------------------------------- rows of a day

  /**
   * What a day's table shows.  A summary row carries its request and display
   * time; a file row opens a cluster of observations under a file label; an
   * observation row carries its time only when it differs from the row
   * before, a body only when rendered in full, and the read and work
   * columns the flags switch on.
   */
  datatype Row =
    | SummaryRow(id: int, request: string, shownAt: int)
    | FileRow(file: string)
    | ObservationRow(id: int, time: Option<int>, title: string, kind: string, full: bool,
                     body: Option<string>, read: Option<nat>, work: Option<int>)

  /** What rendering needs besides the entries. */
  datatype Style = Style(
    fullIds: set<int>, fullField: Value, colors: bool, showRead: bool, showWork: bool,
    cwd: string, windows: bool, parse: string -> Option<Value>, relative: (string, string) -> string)

  /** The three variables the day loop carries: the current file label, the last time shown, an open table. */
  datatype Tracker = Tracker(file: Option<string>, lastTime: Option<int>, open: bool)

  const Fresh := Tracker(None, None, false)

  datatype Emitted = Emitted(rows: seq<Row>, tracker: Tracker)

  function RequestText(s: Summary): (r: string)
    ensures r != []
  {
    if s.request.Some? && s.request.value != [] then s.request.value else "Session started"
  }

  function TitleText(o: Observation): (r: string)
    ensures r != []
  {
    if o.title.Some? && o.title.value != [] then o.title.value else "Untitled"
  }

  /**
   * The body of a full observation: its narrative when the configured field
   * is "narrative", otherwise its facts joined by new lines; nothing when
   * that text is missing or empty.
   */
  function Body(o: Observation, field: Value, parse: string -> Option<Value>): (r: Option<string>)
    ensures r.Some? ==> r.value != []
    ensures field == Str("narrative") ==> r == (if o.narrative == Some("") then None else o.narrative)
  {
    var k :=
      if field == Str("narrative") then o.narrative
      else if o.facts.Some? && o.facts.value != [] then Some(Join(ElementStrings(ArrayColumn(o.facts, parse)), "\n"))
      else None;
    if k.Some? && k.value != [] then k else None
  }

  predicate LabelOk(e: Entry, parse: string -> Option<Value>)
  {
    e.Obs? ==> !LabelThrows(e.o.filesModified, parse)
  }

  predicate LabelsOk(s: seq<Entry>, parse: string -> Option<Value>)
  {
    forall e :: e in s ==> LabelOk(e, parse)
  }

  /** One iteration of the day loop. */
  function Step(e: Entry, t: Tracker, st: Style): (r: Emitted)
    requires LabelOk(e, st.parse)
  {
    match e
    case Sum(sh) =>
      Emitted([SummaryRow(sh.summary.id, RequestText(sh.summary), sh.displayEpoch)],
              if t.open then Fresh else t)
    case Obs(o) =>
      var file := FileLabel(o.filesModified, st.cwd, st.windows, st.parse, st.relative);
      var relabel := t.file != Some(file);
      var t1 := if relabel then Tracker(Some(file), None, true) else t;
      var x := ClockOf(o.epoch);
      var full := o.id in st.fullIds;
      var row := ObservationRow(o.id, if t1.lastTime != Some(x) then Some(x) else None,
        TitleText(o), o.kind, full, if full then Body(o, st.fullField, st.parse) else None,
        if st.showRead then Some(ReadTokens(o)) else None,
        if st.showWork && (!st.colors || WorkTokens(o) > 0) then Some(WorkTokens(o)) else None);
      Emitted((if relabel then [FileRow(file)] else []) + [row],
              if full && !st.colors then Tracker(None, Some(x), false) else Tracker(t1.file, Some(x), t1.open))
  }

  /** The rows of a day's entries, from a tracker state. */
  function DayRows(items: seq<Entry>, t: Tracker, st: Style): seq<Row>
    requires LabelsOk(items, st.parse)
  {
    if items == [] then []
    else
      assert items[0] in items;
      var out := Step(items[0], t, st);
      out.rows + DayRows(items[1..], out.tracker, st)
  }

  /** The body of the day loop for one entry: the rows it pushes and the trackers it leaves. */
  method StepEntry(e: Entry, file0: Option<string>, last0: Option<int>, open0: bool, st: Style)
    returns (emitted: seq<Row>, file: Option<string>, last: Option<int>, open: bool)
    requires LabelOk(e, st.parse)
    ensures Step(e, Tracker(file0, last0, open0), st) == Emitted(emitted, Tracker(file, last, open))
  {
    file, last, open := file0, last0, open0;
    match e {
      case Sum(sh) =>
        if open {
          open := false;
          file := None;
          last := None;
        }
        emitted := [SummaryRow(sh.summary.id, RequestText(sh.summary), sh.displayEpoch)];
      case Obs(o) =>
        emitted := [];
        var l := FileLabel(o.filesModified, st.cwd, st.windows, st.parse, st.relative);
        if file != Some(l) {
          emitted := [FileRow(l)];
          file := Some(l);
          open := true;
          last := None;
        }
        var x := ClockOf(o.epoch);
        var time := if last != Some(x) then Some(x) else None;
        last := Some(x);
        var full := o.id in st.fullIds;
        var body := if full then Body(o, st.fullField, st.parse) else None;
        var read := if st.showRead then Some(ReadTokens(o)) else None;
        var work := if st.showWork && (!st.colors || WorkTokens(o) > 0) then Some(WorkTokens(o)) else None;
        emitted := emitted + [ObservationRow(o.id, time, TitleText(o), o.kind, full, body, read, work)];
        if full && !st.colors {
          open := false;
          file := None;
        }
    }
  }

  /** The inner loop of `tt` over one day's entries. */
  method RenderDay(items: seq<Entry>, st: Style) returns (rows: seq<Row>)
    requires LabelsOk(items, st.parse)
    ensures rows == DayRows(items, Fresh, st)
  {
    rows := [];
    var file: Option<string> := None;
    var last: Option<int> := None;
    var open := false;
    var i := 0;
    while i < |items|
      invariant 0 <= i <= |items|
      invariant rows + DayRows(items[i..], Tracker(file, last, open), st) == DayRows(items, Fresh, st)
    {
      DayRowsUnfold(items, i, Tracker(file, last, open), st);
      var emitted: seq<Row>;
      emitted, file, last, open := StepEntry(items[i], file, last, open, st);
      ghost var rest := DayRows(items[i + 1..], Tracker(file, last, open), st);
      assert (rows + emitted) + rest == rows + (emitted + rest);
      rows := rows + emitted;
      i := i + 1;
    }
    assert items[i..] == [];
  }

  lemma DayRowsUnfold(items: seq<Entry>, i: nat, t: Tracker, st: Style)
    requires LabelsOk(items, st.parse) && i < |items|
    ensures LabelsOk(items[i..], st.parse) && LabelOk(items[i], st.parse) && LabelsOk(items[i + 1..], st.parse)
    ensures var out := Step(items[i], t, st);
      DayRows(items[i..], t, st) == out.rows + DayRows(items[i + 1..], out.tracker, st)
  {
    assert items[i] in items;
    assert items[i..][0] == items[i];
    assert items[i..][1..] == items[i + 1..];
  }

  // ---------------------------------------------------------------- what a day shows

  /** The ids of the observation rows, in order. */
  function ObservationIds(rows: seq<Row>): seq<int>
  {
    if rows == [] then []
    else (if rows[0].ObservationRow? then [rows[0].id] else []) + ObservationIds(rows[1..])
  }

  /** The ids of the summary rows, in order. */
  function SummaryIds(rows: seq<Row>): seq<int>
  {
    if rows == [] then []
    else (if rows[0].SummaryRow? then [rows[0].id] else []) + SummaryIds(rows[1..])
  }

  /** The labels of the file rows, in order. */
  function FileLabels(rows: seq<Row>): seq<string>
  {
    if rows == [] then []
    else (if rows[0].FileRow? then [rows[0].file] else []) + FileLabels(rows[1..])
  }

  /** The ids of the observation entries, in order. */
  function EntryObservationIds(items: seq<Entry>): seq<int>
  {
    if items == [] then []
    else (if items[0].Obs? then [items[0].o.id] else []) + EntryObservationIds(items[1..])
  }

  /** The ids of the summary entries, in order. */
  function EntrySummaryIds(items: seq<Entry>): seq<int>
  {
    if items == [] then []
    else (if items[0].Sum? then [items[0].shown.summary.id] else []) + EntrySummaryIds(items[1..])
  }

  lemma {:induction false} ObservationIdsAppend(a: seq<Row>, b: seq<Row>)
    ensures ObservationIds(a + b) == ObservationIds(a) + ObservationIds(b)
  {
    if a == [] {
      assert a + b == b;
    } else {
      assert (a + b)[0] == a[0];
      assert (a + b)[1..] == a[1..] + b;
      ObservationIdsAppend(a[1..], b);
    }
  }

  lemma {:induction false} SummaryIdsAppend(a: seq<Row>, b: seq<Row>)
    ensures SummaryIds(a + b) == SummaryIds(a) + SummaryIds(b)
  {
    if a == [] {
      assert a + b == b;
    } else {
      assert (a + b)[0] == a[0];
      assert (a + b)[1..] == a[1..] + b;
      SummaryIdsAppend(a[1..], b);
    }
  }

  lemma {:induction false} FileLabelsAppend(a: seq<Row>, b: seq<Row>)
    ensures FileLabels(a + b) == FileLabels(a) + FileLabels(b)
  {
    if a == [] {
      assert a + b == b;
    } else {
      assert (a + b)[0] == a[0];
      assert (a + b)[1..] == a[1..] + b;
      FileLabelsAppend(a[1..], b);
    }
  }

  /**
   * A day shows every one of its observations and summaries exactly once,
   * in the order of the entries.
   */
  lemma {:induction false} DayRowsIds(items: seq<Entry>, t: Tracker, st: Style)
    requires LabelsOk(items, st.parse)
    ensures ObservationIds(DayRows(items, t, st)) == EntryObservationIds(items)
    ensures SummaryIds(DayRows(items, t, st)) == EntrySummaryIds(items)
  {
    if items != [] {
      assert items[0] in items;
      var out := Step(items[0], t, st);
      DayRowsIds(items[1..], out.tracker, st);
      ObservationIdsAppend(out.rows, DayRows(items[1..], out.tracker, st));
      SummaryIdsAppend(out.rows, DayRows(items[1..], out.tracker, st));
      if items[0].Obs? {
        var file := FileLabel(items[0].o.filesModified, st.cwd, st.windows, st.parse, st.relative);
        if t.file != Some(file) {
          ObservationIdsAppend([FileRow(file)], out.rows[1..]);
          SummaryIdsAppend([FileRow(file)], out.rows[1..]);
          assert out.rows == [FileRow(file)] + out.rows[1..];
        }
      }
    }
  }

  /** An observation row is in full exactly when its id is among the full ids. */
  lemma {:induction false} DayRowsFull(items: seq<Entry>, t: Tracker, st: Style)
    requires LabelsOk(items, st.parse)
    ensures forall r :: r in DayRows(items, t, st) && r.ObservationRow? ==> (r.full <==> r.id in st.fullIds)
    ensures forall r :: r in DayRows(items, t, st) && r.ObservationRow? && !r.full ==> r.body.None?
  {
    if items != [] {
      assert items[0] in items;
      var out := Step(items[0], t, st);
      DayRowsFull(items[1..], out.tracker, st);
    }
  }

  /** Each label once for a run of observations carrying it: consecutive duplicates dropped. */
  function Runs(labels: seq<string>, prev: Option<string>): seq<string>
  {
    if labels == [] then []
    else (if prev != Some(labels[0]) then [labels[0]] else []) + Runs(labels[1..], Some(labels[0]))
  }

  function EntryLabels(items: seq<Entry>, st: Style): (r: seq<string>)
    requires LabelsOk(items, st.parse)
  {
    if items == [] then []
    else
      assert items[0] in items;
      (if items[0].Obs? then [FileLabel(items[0].o.filesModified, st.cwd, st.windows, st.parse, st.relative)] else [])
      + EntryLabels(items[1..], st)
  }

  /**
   * Clustering: in a run of observations with no summary between them and
   * no full row closing the table in Markdown, a file row opens exactly
   * where the label differs from the one before.
   */
  lemma {:induction false} DayRowsClusters(items: seq<Entry>, t: Tracker, st: Style)
    requires LabelsOk(items, st.parse)
    requires forall e :: e in items ==> e.Obs? && (st.colors || e.o.id !in st.fullIds)
    ensures FileLabels(DayRows(items, t, st)) == Runs(EntryLabels(items, st), t.file)
  {
    if items != [] {
      assert items[0] in items;
      var out := Step(items[0], t, st);
      var file := FileLabel(items[0].o.filesModified, st.cwd, st.windows, st.parse, st.relative);
      assert out.tracker.file == Some(file);
      DayRowsClusters(items[1..], out.tracker, st);
      FileLabelsAppend(out.rows, DayRows(items[1..], out.tracker, st));
      assert EntryLabels(items, st) == [file] + EntryLabels(items[1..], st);
      if t.file != Some(file) {
        FileLabelsAppend([FileRow(file)], out.rows[1..]);
        assert out.rows == [FileRow(file)] + out.rows[1..];
      }
    }
  }

  // ---------------------------------------------------------------- the whole context

  /**
   * What `tt` takes from its surroundings: the working directory and the
   * platform's path flavour, the current session, whether to colour, and
   * the functions it calls out to (`JSON.parse`, `path.relative`, and the
   * read of the last assistant message from a session's transcript, which
   * gives "" when there is none).
   */
  datatype Env = Env(cwd: string, windows: bool, session: Option<string>, colors: bool,
                     parse: string -> Option<Value>, relative: (string, string) -> string,
                     transcript: string -> string)

  /**
   * Both counts bound into the two queries parsed to integers.  `parseInt`
   * gives NaN otherwise, which is bound as NULL, and `LIMIT NULL` makes the
   * query throw.
   */
  predicate QueriesRun(c: Settings.ContextConfig)
  {
    c.totalObservationCount.Some? && c.sessionCount.Some?
  }

  /**
   * The length of `a.slice(0, end)` for an array of `len` items: a negative
   * end counts back from the length, and NaN (`None`) slices nothing.
   */
  function SliceEnd(len: nat, end: Option<int>): (n: nat)
    ensures n <= len
    ensures end.Some? && 0 <= end.value ==> n == if end.value <= len then end.value else len
    ensures end.Some? && end.value < 0 ==> n == if len + end.value < 0 then 0 else len + end.value
    ensures end.None? ==> n == 0
  {
    if end.None? then 0
    else if end.value < 0 then (if len + end.value < 0 then 0 else len + end.value)
    else if end.value <= len then end.value else len
  }

  datatype Day = Day(day: int, rows: seq<Row>)

  datatype Output =
    | NoHistory(project: string)
    | HeaderOnly(project: string)
    | Threw
    | Rendered(project: string, economics: Option<Economics>, days: seq<Day>,
               lastSummary: seq<(string, string)>, previously: Option<string>, footer: Option<Footer>)

  /** The observation rows the context works on; a negative `LIMIT` means no limit. */
  function Selected(obs: seq<Observation>, c: Settings.ContextConfig, project: string): seq<Observation>
    requires QueriesRun(c)
  {
    var n := c.totalObservationCount.value;
    if n >= 0 then Candidates(obs, project, c.observationTypes, c.observationConcepts, n)
    else SortBy(Eligible(obs, project, c.observationTypes, c.observationConcepts), Age)
  }

  /** The summary rows fetched: `LIMIT sessionCount + 1`, no limit when that is negative. */
  function Summaries(sums: seq<Summary>, c: Settings.ContextConfig, project: string): seq<Summary>
    requires QueriesRun(c)
  {
    var n := c.sessionCount.value + 1;
    if n >= 0 then Fetched(sums, project, n)
    else SortBy(OfProject(sums, project), SummaryAge)
  }

  /** The summaries rendered: `g.slice(0, sessionCount)`. */
  function ShownOf(g: seq<Summary>, c: Settings.ContextConfig): seq<Shown>
  {
    Anchor(g, SliceEnd(|g|, c.sessionCount))
  }

  /**
   * A negative observation count selects every qualifying observation of
   * the project.
   */
  lemma NegativeTotalSelectsAll(obs: seq<Observation>, c: Settings.ContextConfig, project: string, o: Observation)
    requires QueriesRun(c) && c.totalObservationCount.value < 0
    requires o in obs && Qualifies(o, project, c.observationTypes, c.observationConcepts)
    ensures o in Selected(obs, c, project)
  {
    var e := Eligible(obs, project, c.observationTypes, c.observationConcepts);
    assert o in multiset(e);
    assert o in multiset(SortBy(e, Age));
  }

  /**
   * A session count of -1 fetches no summary (`LIMIT 0`); one below -1
   * fetches them all and renders all but the last `-sessionCount` of them.
   */
  lemma NegativeSessionCount(sums: seq<Summary>, c: Settings.ContextConfig, project: string)
    requires QueriesRun(c) && c.sessionCount.value < 0
    ensures c.sessionCount.value == -1 ==> Summaries(sums, c, project) == []
    ensures c.sessionCount.value < -1 ==>
      var g := Summaries(sums, c, project);
      (forall x :: x in g <==> x in sums && x.project == project)
      && |ShownOf(g, c)| == if |g| + c.sessionCount.value < 0 then 0 else |g| + c.sessionCount.value
  {
    if c.sessionCount.value < -1 {
      var e := OfProject(sums, project);
      var g := SortBy(e, SummaryAge);
      forall x ensures x in g <==> x in sums && x.project == project {
        assert x in g <==> x in multiset(g);
        assert x in e <==> x in multiset(e);
      }
    }
  }

  /** The ids of the first `n` observations, those rendered in full. */
  function FullIds(m: seq<Observation>, n: nat): set<int>
  {
    set i | 0 <= i < |m| && i < n :: m[i].id
  }

  function FlagsOf(c: Settings.ContextConfig): Flags
  {
    Flags(c.showReadTokens, c.showWorkTokens, c.showSavingsAmount, c.showSavingsPercent)
  }

  /** `m.slice(0, fullObservationCount)` gives the full rows. */
  function StyleOf(m: seq<Observation>, c: Settings.ContextConfig, env: Env): Style
  {
    Style(FullIds(m, SliceEnd(|m|, c.fullObservationCount)), c.fullObservationField, env.colors,
          c.showReadTokens, c.showWorkTokens, env.cwd, env.windows, env.parse, env.relative)
  }

  predicate AnyThrows(m: seq<Observation>, parse: string -> Option<Value>)
  {
    exists i :: 0 <= i < |m| && LabelThrows(m[i].filesModified, parse)
  }

  /** A labelled line of the last summary, when its value is non-empty. */
  function Line(name: string, value: Option<string>): (r: seq<(string, string)>)
    ensures r != [] <==> value.Some? && value.value != []
    ensures r != [] ==> r == [(name, value.value)]
  {
    if value.Some? && value.value != [] then [(name, value.value)] else []
  }

  /**
   * The last summary's four fields: shown when enabled, when the newest
   * fetched summary has one of them, and when it is newer than the newest
   * observation.
   */
  function LastSummaryLines(g: seq<Summary>, m: seq<Observation>, c: Settings.ContextConfig)
    : (r: seq<(string, string)>)
    ensures r != [] <==> (c.showLastSummary && |g| > 0 && (|m| == 0 || g[0].epoch > m[0].epoch)
      && (Line("", g[0].investigated) != [] || Line("", g[0].learned) != []
          || Line("", g[0].completed) != [] || Line("", g[0].nextSteps) != []))
    ensures |r| <= 4 && forall i :: 0 <= i < |r| ==> r[i].1 != []
  {
    if c.showLastSummary && |g| > 0 && (|m| == 0 || g[0].epoch > m[0].epoch) then
      var s := g[0];
      Line("Investigated", s.investigated) + Line("Learned", s.learned)
      + Line("Completed", s.completed) + Line("Next Steps", s.nextSteps)
    else []
  }

  /** `m.find(O => O.sdk_session_id !== b)`. */
  function FirstOther(m: seq<Observation>, session: Option<string>): (r: Option<nat>)
    ensures r.Some? ==> (r.value < |m| && Some(m[r.value].sessionId) != session
      && forall j :: 0 <= j < r.value ==> Some(m[j].sessionId) == session)
    ensures r.None? ==> forall j :: 0 <= j < |m| ==> Some(m[j].sessionId) == session
  {
    if m == [] then None
    else if Some(m[0].sessionId) != session then Some(0)
    else match FirstOther(m[1..], session)
      case None => None
      case Some(k) => Some(k + 1)
  }

  /**
   * The "Previously" block: the last assistant message of the newest
   * observation's session that is not the current one, when enabled and
   * non-empty.
   */
  function Previously(m: seq<Observation>, c: Settings.ContextConfig, env: Env): (r: Option<string>)
    ensures r.Some? ==> (c.showLastMessage && r.value != []
      && exists i :: 0 <= i < |m| && Some(m[i].sessionId) != env.session && r.value == env.transcript(m[i].sessionId))
  {
    if !c.showLastMessage || m == [] then None
    else match FirstOther(m, env.session)
      case None => None
      case Some(i) =>
        var f := env.transcript(m[i].sessionId);
        if f == [] then None else Some(f)
  }

  lemma MergedLabelsOk(m: seq<Observation>, shown: seq<Shown>, parse: string -> Option<Value>)
    requires !AnyThrows(m, parse)
    ensures LabelsOk(Merged(m, shown), parse)
  {
    var s := ObsEntries(m) + SumEntries(shown);
    forall e | e in Merged(m, shown) ensures LabelOk(e, parse) {
      assert e in multiset(Merged(m, shown));
      assert e in multiset(s);
      var i :| 0 <= i < |s| && s[i] == e;
      if i < |m| {
        assert s[i] == Obs(m[i]);
      }
    }
  }

  lemma BucketsLabelsOk(merged: seq<Entry>, parse: string -> Option<Value>)
    requires LabelsOk(merged, parse)
    ensures forall b :: b in SortBy(Group(merged), BucketDay) ==> LabelsOk(b.items, parse)
  {
    GroupSpec(merged);
    var g := Group(merged);
    forall b | b in SortBy(g, BucketDay) ensures LabelsOk(b.items, parse) {
      assert b in multiset(SortBy(g, BucketDay));
      assert b in multiset(g);
      var k :| 0 <= k < |g| && g[k] == b;
      forall e | e in b.items ensures LabelOk(e, parse) {
        WithKeyMember(merged, EntryDay, b.day, e);
      }
    }
  }

  /** Each bucket's rows, in bucket order. */
  function RenderAll(buckets: seq<Bucket>, st: Style): (r: seq<Day>)
    requires forall b :: b in buckets ==> LabelsOk(b.items, st.parse)
    ensures |r| == |buckets|
    ensures forall k :: 0 <= k < |buckets| ==> r[k] == Day(buckets[k].day, DayRows(buckets[k].items, Fresh, st))
  {
    seq(|buckets|, k requires 0 <= k < |buckets| =>
      assert buckets[k] in buckets;
      Day(buckets[k].day, DayRows(buckets[k].items, Fresh, st)))
  }

  /** The outer loop of `tt` over the days. */
  method RenderDays(buckets: seq<Bucket>, st: Style) returns (days: seq<Day>)
    requires forall b :: b in buckets ==> LabelsOk(b.items, st.parse)
    ensures days == RenderAll(buckets, st)
  {
    ghost var all := RenderAll(buckets, st);
    days := [];
    var k := 0;
    while k < |buckets|
      invariant 0 <= k <= |buckets|
      invariant days == all[..k]
    {
      assert buckets[k] in buckets;
      var rows := RenderDay(buckets[k].items, st);
      assert all[..k + 1] == all[..k] + [all[k]];
      days := days + [Day(buckets[k].day, rows)];
      k := k + 1;
    }
    assert days == all;
  }

  /**
   * The context `tt` produces, as structured output: nothing to show when
   * there are no rows at all; the header alone when there are summaries but
   * no observations; an error when a file label cannot be computed;
   * otherwise the economics, the days, the last summary, the previous
   * assistant message and the footer.
   */
  function ContextOf(obs: seq<Observation>, sums: seq<Summary>, c: Settings.ContextConfig, env: Env): (out: Output)
    ensures !QueriesRun(c) ==> out == Threw
    ensures QueriesRun(c) ==>
      var m := Selected(obs, c, ProjectName(env.cwd, env.windows));
      var g := Summaries(sums, c, ProjectName(env.cwd, env.windows));
      (out.NoHistory? <==> m == [] && g == [])
      && (out.HeaderOnly? <==> m == [] && g != [])
      && (out.Threw? <==> m != [] && AnyThrows(m, env.parse))
      && (out.Rendered? ==> (out.project == ProjectName(env.cwd, env.windows)
            && out.economics == EconomicsOf(m, FlagsOf(c)) && out.footer == FooterOf(m, FlagsOf(c))))
  {
    var project := ProjectName(env.cwd, env.windows);
    if !QueriesRun(c) then Threw
    else
      var m := Selected(obs, c, project);
      var g := Summaries(sums, c, project);
      if m == [] && g == [] then NoHistory(project)
      else if m == [] then HeaderOnly(project)
      else if AnyThrows(m, env.parse) then Threw
      else
        var merged := Merged(m, ShownOf(g, c));
        MergedLabelsOk(m, ShownOf(g, c), env.parse);
        BucketsLabelsOk(merged, env.parse);
        Rendered(project, EconomicsOf(m, FlagsOf(c)),
                 RenderAll(SortBy(Group(merged), BucketDay), StyleOf(m, c, env)),
                 LastSummaryLines(g, m, c), Previously(m, c, env), FooterOf(m, FlagsOf(c)))
  }

  /** `tt`: select, merge, bucket by day and render each day in turn. */
  method Generate(obs: seq<Observation>, sums: seq<Summary>, c: Settings.ContextConfig, env: Env)
    returns (out: Output)
    ensures out == ContextOf(obs, sums, c, env)
  {
    var project := ProjectName(env.cwd, env.windows);
    if !QueriesRun(c) {
      return Threw;
    }
    var m := Selected(obs, c, project);
    var g := Summaries(sums, c, project);
    if m == [] && g == [] {
      return NoHistory(project);
    }
    if m == [] {
      return HeaderOnly(project);
    }
    if AnyThrows(m, env.parse) {
      return Threw;
    }
    var shown := ShownOf(g, c);
    var merged := Merged(m, shown);
    MergedLabelsOk(m, shown, env.parse);
    BucketsLabelsOk(merged, env.parse);
    var buckets := GroupByDay(merged);
    var st := StyleOf(m, c, env);
    var days := RenderDays(buckets, st);
    out := Rendered(project, EconomicsOf(m, FlagsOf(c)), days,
                    LastSummaryLines(g, m, c), Previously(m, c, env), FooterOf(m, FlagsOf(c)));
  }

  /** The entries a rendered context is built from. */
  function MergedOf(obs: seq<Observation>, sums: seq<Summary>, c: Settings.ContextConfig, env: Env): seq<Entry>
    requires QueriesRun(c)
  {
    var project := ProjectName(env.cwd, env.windows);
    Merged(Selected(obs, c, project), ShownOf(Summaries(sums, c, project), c))
  }

  /**
   * Rendering the day buckets of a merged, epoch-ordered stream gives its
   * days in ascending order, a day for every entry, and each day exactly the
   * observations and summaries that fall on it.
   */
  lemma RenderAllDays(merged: seq<Entry>, st: Style)
    requires SortedBy(merged, EntryEpoch)
    requires forall b :: b in Group(merged) ==> LabelsOk(b.items, st.parse)
    ensures var days := RenderAll(Group(merged), st);
      (forall i, j :: 0 <= i < j < |days| ==> days[i].day < days[j].day)
      && (forall e :: e in merged ==> exists k :: 0 <= k < |days| && days[k].day == EntryDay(e))
      && (forall k :: 0 <= k < |days| ==>
            ObservationIds(days[k].rows) == EntryObservationIds(WithKey(merged, EntryDay, days[k].day))
            && SummaryIds(days[k].rows) == EntrySummaryIds(WithKey(merged, EntryDay, days[k].day)))
  {
    GroupAscending(merged);
    GroupSpec(merged);
    var bs := Group(merged);
    var days := RenderAll(bs, st);
    forall e | e in merged ensures exists k :: 0 <= k < |days| && days[k].day == EntryDay(e) {
      var k :| 0 <= k < |bs| && Days(bs)[k] == EntryDay(e);
      assert days[k].day == bs[k].day;
    }
    forall k | 0 <= k < |days| ensures
      ObservationIds(days[k].rows) == EntryObservationIds(WithKey(merged, EntryDay, days[k].day))
      && SummaryIds(days[k].rows) == EntrySummaryIds(WithKey(merged, EntryDay, days[k].day))
    {
      assert bs[k] in bs;
      DayRowsIds(bs[k].items, Fresh, st);
    }
  }

  /**
   * The days of a rendered context are in ascending order, one per day any
   * selected observation or shown summary falls on, and each day lists
   * exactly the observations and the summaries of that day, in epoch order.
   */
  lemma RenderedDays(obs: seq<Observation>, sums: seq<Summary>, c: Settings.ContextConfig, env: Env)
    requires QueriesRun(c)
    requires ContextOf(obs, sums, c, env).Rendered?
    ensures var days := ContextOf(obs, sums, c, env).days;
      var merged := MergedOf(obs, sums, c, env);
      (forall i, j :: 0 <= i < j < |days| ==> days[i].day < days[j].day)
      && (forall e :: e in merged ==> exists k :: 0 <= k < |days| && days[k].day == EntryDay(e))
      && (forall k :: 0 <= k < |days| ==>
            ObservationIds(days[k].rows) == EntryObservationIds(WithKey(merged, EntryDay, days[k].day))
            && SummaryIds(days[k].rows) == EntrySummaryIds(WithKey(merged, EntryDay, days[k].day)))
  {
    var project := ProjectName(env.cwd, env.windows);
    var m := Selected(obs, c, project);
    var shown := ShownOf(Summaries(sums, c, project), c);
    var merged := Merged(m, shown);
    assert merged == MergedOf(obs, sums, c, env);
    var st := StyleOf(m, c, env);
    MergedOrder(m, shown, 0);
    GroupSortIdentity(merged);
    MergedLabelsOk(m, shown, env.parse);
    BucketsLabelsOk(merged, env.parse);
    assert ContextOf(obs, sums, c, env).days == RenderAll(Group(merged), st);
    RenderAllDays(merged, st);
  }

  /**
   * In a rendered context, an observation row is in full exactly when it is
   * among the first `fullObservationCount` selected observations.
   */
  lemma RenderedFull(obs: seq<Observation>, sums: seq<Summary>, c: Settings.ContextConfig, env: Env)
    requires QueriesRun(c)
    requires ContextOf(obs, sums, c, env).Rendered?
    ensures var days := ContextOf(obs, sums, c, env).days;
      var m := Selected(obs, c, ProjectName(env.cwd, env.windows));
      forall k, r :: 0 <= k < |days| && r in days[k].rows && r.ObservationRow? ==>
        (r.full <==> exists i :: 0 <= i < |m| && i < SliceEnd(|m|, c.fullObservationCount) && m[i].id == r.id)
  {
    var project := ProjectName(env.cwd, env.windows);
    var m := Selected(obs, c, project);
    var shown := ShownOf(Summaries(sums, c, project), c);
    var merged := Merged(m, shown);
    var out := ContextOf(obs, sums, c, env);
    var st := StyleOf(m, c, env);
    MergedLabelsOk(m, shown, env.parse);
    BucketsLabelsOk(merged, env.parse);
    var bs := SortBy(Group(merged), BucketDay);
    forall k, r | 0 <= k < |out.days| && r in out.days[k].rows && r.ObservationRow?
      ensures r.full <==> exists i :: 0 <= i < |m| && i < SliceEnd(|m|, c.fullObservationCount) && m[i].id == r.id
    {
      assert bs[k] in bs;
      DayRowsFull(bs[k].items, Fresh, st);
    }
  }
}
