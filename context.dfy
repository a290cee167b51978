/**
 * The pure parts of the context generator `tt`: the rows it selects from the
 * observation and summary tables, the token economics it reports over the
 * selected observations, the display time it gives each summary, and the
 * helpers it uses for the project name (`Me`), JSON array columns (`de`) and
 * file labels (`ve`).  Rendering the selected rows into a timeline is in
 * the Timeline module.
 */
module Context {
  import opened Wrappers
  import opened Text
  import opened Json
  import opened Lists
  import opened Sorting

  /** An `observations` row, as the context query selects it; `concepts` is the decoded JSON list. */
  datatype Observation = Observation(
    id: int, sessionId: string, project: string, kind: string,
    title: Option<string>, subtitle: Option<string>, narrative: Option<string>,
    facts: Option<string>, concepts: seq<string>, filesModified: Option<string>,
    discoveryTokens: Option<int>, epoch: int)

  /** A `session_summaries` row. */
  datatype Summary = Summary(
    id: int, sessionId: string, project: string, request: Option<string>,
    investigated: Option<string>, learned: Option<string>, completed: Option<string>,
    nextSteps: Option<string>, epoch: int)

  // ---------------------------------------------------------------- helpers

  predicate IsAsciiLetter(c: char)
  {
    ('a' <= c <= 'z') || ('A' <= c <= 'Z')
  }

  function UpperChar(c: char): (r: char)
    ensures 'a' <= c <= 'z' ==> r as int == c as int - 32
    ensures !('a' <= c <= 'z') ==> r == c
  {
    if 'a' <= c <= 'z' then (c as int - 32) as char else c
  }

  predicate IsSeparator(c: char, windows: bool)
  {
    c == '/' || (windows && c == '\\')
  }

  /** The path with its trailing separators removed. */
  function StripTrailing(p: string, windows: bool): (r: string)
    ensures |r| <= |p| && r == p[..|r|]
    ensures r == [] || !IsSeparator(r[|r| - 1], windows)
  {
    if p != [] && IsSeparator(p[|p| - 1], windows) then StripTrailing(p[..|p| - 1], windows) else p
  }

  /** The part of `p` after its last separator (all of it when there is none). */
  function LastSegment(p: string, windows: bool): (r: string)
    ensures |r| <= |p| && r == p[|p| - |r|..]
    ensures forall i :: 0 <= i < |r| ==> !IsSeparator(r[i], windows)
  {
    if p == [] || IsSeparator(p[|p| - 1], windows) then []
    else LastSegment(p[..|p| - 1], windows) + [p[|p| - 1]]
  }

  /**
   * `path.basename`: trailing separators are ignored; on Windows `\` also
   * separates and a leading drive (`C:`) is not part of any segment.
   */
  function Basename(p: string, windows: bool): string
  {
    var body := if windows && |p| >= 2 && IsAsciiLetter(p[0]) && p[1] == ':' then p[2..] else p;
    LastSegment(StripTrailing(body, windows), windows)
  }

  /**
   * `Me`: the project name for a working directory.  A blank directory and a
   * root directory give "unknown-project", except that on Windows a drive
   * root (`C:\`) gives "drive-C".
   */
  function ProjectName(cwd: string, windows: bool): (r: string)
    ensures r != []
    ensures IsBlank(cwd) ==> r == "unknown-project"
  {
    if IsBlank(cwd) then "unknown-project"
    else
      var base := Basename(cwd, windows);
      if base != [] then base
      else if windows && |cwd| >= 3 && IsAsciiLetter(cwd[0]) && cwd[1] == ':' && cwd[2] == '\\' then
        "drive-" + [UpperChar(cwd[0])]
      else "unknown-project"
  }

  /** The project of a POSIX directory is its last component, whatever the parent. */
  lemma ProjectNameOfDirectory(parent: string, name: string)
    requires name != [] && forall i :: 0 <= i < |name| ==> name[i] != '/'
    ensures ProjectName(parent + "/" + name, false) == name
  {
    var p := parent + "/" + name;
    assert !IsJsSpace(p[|parent|]);
    assert StripTrailing(p, false) == p;
    LastSegmentAfter(parent, name);
  }

  lemma {:induction false} LastSegmentAfter(parent: string, name: string)
    requires forall i :: 0 <= i < |name| ==> name[i] != '/'
    ensures LastSegment(parent + "/" + name, false) == name
  {
    var p := parent + "/" + name;
    if name == [] {
      assert p[|p| - 1] == '/';
    } else {
      var shorter := name[..|name| - 1];
      assert p[..|p| - 1] == parent + "/" + shorter;
      LastSegmentAfter(parent, shorter);
      assert name == shorter + [name[|name| - 1]];
    }
  }

  /** The POSIX root has no name of its own. */
  lemma ProjectNameOfRoot()
    ensures ProjectName("/", false) == "unknown-project"
  {
    assert !IsJsSpace('/');
    assert StripTrailing("/", false) == [];
  }

  /** A Windows drive root is named after its drive letter, upper-cased. */
  lemma ProjectNameOfDriveRoot(letter: char)
    requires IsAsciiLetter(letter)
    ensures ProjectName([letter, ':', '\\'], true) == "drive-" + [UpperChar(letter)]
  {
    var cwd := [letter, ':', '\\'];
    assert !IsJsSpace(cwd[0]);
    assert cwd[2..] == ['\\'];
    assert StripTrailing(['\\'], true) == [];
  }

  /**
   * `de`: the elements of a JSON array column; a null or empty column, text
   * that does not parse and a parsed non-array all give the empty list.
   */
  function ArrayColumn(column: Option<string>, parse: string -> Option<Value>): (r: seq<Value>)
    ensures column.None? || column == Some("") ==> r == []
    ensures column.Some? && column.value != [] && parse(column.value).Some? && parse(column.value).value.Arr? ==>
      r == parse(column.value).value.items
    ensures r != [] ==> column.Some? && parse(column.value) == Some(Arr(r))
  {
    if column.None? || column.value == [] then []
    else
      match parse(column.value)
      case Some(Arr(items)) => items
      case _ => []
  }

  /**
   * `path.isAbsolute`.  On POSIX a path is absolute when it starts with '/';
   * on Windows when it starts with either separator, or with a drive letter,
   * a colon and a separator ("C:\\x", "C:/x", but not the drive-relative "C:x").
   */
  predicate IsAbsolute(p: string, windows: bool)
  {
    (p != [] && IsSeparator(p[0], windows)) ||
    (windows && |p| > 2 && IsAsciiLetter(p[0]) && p[1] == ':' && IsSeparator(p[2], windows))
  }

  /**
   * Whether `ve` throws on this column: the first element of the array is
   * not a string, which `path.isAbsolute` rejects.
   */
  predicate LabelThrows(files: Option<string>, parse: string -> Option<Value>)
  {
    var t := ArrayColumn(files, parse);
    |t| > 0 && !t[0].Str?
  }

  /**
   * `ve`: the first modified file, made relative to the working directory
   * when it is absolute (`path.relative` is a parameter), or "General" when
   * the list is empty.  It is the file itself, not its directory.
   */
  function FileLabel(files: Option<string>, cwd: string, windows: bool, parse: string -> Option<Value>,
                     relative: (string, string) -> string): (r: string)
    requires !LabelThrows(files, parse)
    ensures ArrayColumn(files, parse) == [] ==> r == "General"
    ensures ArrayColumn(files, parse) != [] && !IsAbsolute(ArrayColumn(files, parse)[0].s, windows) ==>
      r == ArrayColumn(files, parse)[0].s
    ensures ArrayColumn(files, parse) != [] && IsAbsolute(ArrayColumn(files, parse)[0].s, windows) ==>
      r == relative(cwd, ArrayColumn(files, parse)[0].s)
  {
    var t := ArrayColumn(files, parse);
    if |t| > 0 then (if IsAbsolute(t[0].s, windows) then relative(cwd, t[0].s) else t[0].s) else "General"
  }

  /**
   * The two platforms disagree only on paths with a backslash or a drive:
   * every POSIX-absolute path is Windows-absolute, and a path that starts
   * with a drive letter, a colon and a backslash is absolute only on Windows.
   */
  lemma AbsoluteOnWindows(p: string)
    ensures IsAbsolute(p, false) ==> IsAbsolute(p, true)
    ensures |p| > 2 && IsAsciiLetter(p[0]) && p[1] == ':' && p[2] == '\\' ==>
      IsAbsolute(p, true) && !IsAbsolute(p, false)
    ensures |p| > 1 && IsAsciiLetter(p[0]) && p[1] == ':' && (|p| == 2 || !IsSeparator(p[2], true)) ==>
      !IsAbsolute(p, true)
  {
  }

  // ---------------------------------------------------------------- selection

  /** The observation query's WHERE clause: project, an enabled type, and a shared concept. */
  predicate Qualifies(o: Observation, project: string, types: set<string>, concepts: set<string>)
  {
    o.project == project && o.kind in types && exists c :: c in o.concepts && c in concepts
  }

  function Eligible(table: seq<Observation>, project: string, types: set<string>, concepts: set<string>)
    : (r: seq<Observation>)
    ensures forall o :: o in r <==> o in table && Qualifies(o, project, types, concepts)
  {
    if table == [] then []
    else
      (if Qualifies(table[0], project, types, concepts) then [table[0]] else [])
      + Eligible(table[1..], project, types, concepts)
  }

  /** The sort key of `ORDER BY created_at_epoch DESC`. */
  function Age(o: Observation): int
  {
    -o.epoch
  }

  /** The observations `tt` works on: qualifying rows, newest first, at most `limit` of them. */
  function Candidates(table: seq<Observation>, project: string, types: set<string>, concepts: set<string>,
                      limit: nat): seq<Observation>
  {
    Take(SortBy(Eligible(table, project, types, concepts), Age), limit)
  }

  /**
   * Every candidate is a qualifying row of the table; there are at most
   * `limit` of them, newest first.
   */
  lemma CandidatesQualify(table: seq<Observation>, project: string, types: set<string>,
                          concepts: set<string>, limit: nat)
    ensures var r := Candidates(table, project, types, concepts, limit);
      |r| <= limit
      && (forall o :: o in r ==> o in table && Qualifies(o, project, types, concepts))
      && (forall i, j :: 0 <= i < j < |r| ==> r[i].epoch >= r[j].epoch)
  {
    var e := Eligible(table, project, types, concepts);
    var s := SortBy(e, Age);
    SortBySorted(e, Age);
    forall o | o in Take(s, limit) ensures o in e {
      assert o in multiset(s);
    }
  }

  /** An observation with no concepts is never a candidate. */
  lemma ConceptlessNeverSelected(table: seq<Observation>, project: string, types: set<string>,
                                 concepts: set<string>, limit: nat, o: Observation)
    requires o.concepts == []
    ensures o !in Candidates(table, project, types, concepts, limit)
  {
    CandidatesQualify(table, project, types, concepts, limit);
  }

  /** A qualifying row left out by the limit is no newer than any candidate. */
  lemma CandidatesNewest(table: seq<Observation>, project: string, types: set<string>,
                         concepts: set<string>, limit: nat, o: Observation)
    requires o in table && Qualifies(o, project, types, concepts)
    requires o !in Candidates(table, project, types, concepts, limit)
    ensures forall x :: x in Candidates(table, project, types, concepts, limit) ==> x.epoch >= o.epoch
  {
    var e := Eligible(table, project, types, concepts);
    var s := SortBy(e, Age);
    SortBySorted(e, Age);
    assert o in multiset(e);
    var j :| 0 <= j < |s| && s[j] == o;
    assert j >= limit;
    forall x | x in Take(s, limit) ensures x.epoch >= o.epoch {
      var i :| 0 <= i < |Take(s, limit)| && Take(s, limit)[i] == x;
      assert s[i] == x && Age(s[i]) <= Age(s[j]);
    }
  }

  /** The summaries of the project, newest first, `count` of them (the query over-fetches by one). */
  function Fetched(table: seq<Summary>, project: string, count: nat): (r: seq<Summary>)
    ensures |r| <= count
  {
    Take(SortBy(OfProject(table, project), SummaryAge), count)
  }

  function OfProject(table: seq<Summary>, project: string): (r: seq<Summary>)
    ensures forall s :: s in r <==> s in table && s.project == project
  {
    if table == [] then []
    else (if table[0].project == project then [table[0]] else []) + OfProject(table[1..], project)
  }

  function SummaryAge(s: Summary): int
  {
    -s.epoch
  }

  lemma FetchedNewestFirst(table: seq<Summary>, project: string, count: nat)
    ensures var r := Fetched(table, project, count);
      (forall s :: s in r ==> s in table && s.project == project)
      && forall i, j :: 0 <= i < j < |r| ==> r[i].epoch >= r[j].epoch
  {
    var e := OfProject(table, project);
    var s := SortBy(e, SummaryAge);
    SortBySorted(e, SummaryAge);
    forall x | x in Take(s, count) ensures x in e {
      assert x in multiset(s);
    }
  }

  // ---------------------------------------------------------------- economics

  /** `.length` of a JavaScript string: characters outside the BMP take two UTF-16 units. */
  function Utf16Length(s: string): (n: nat)
    ensures |s| <= n <= 2 * |s|
  {
    if s == [] then 0 else (if s[0] as int >= 0x10000 then 2 else 1) + Utf16Length(s[1..])
  }

  /** `x?.length || 0` for a nullable text column. */
  function FieldLength(f: Option<string>): nat
  {
    if f.Some? then Utf16Length(f.value) else 0
  }

  /** The UTF-16 length of one character as `JSON.stringify` writes it inside a string literal. */
  function EscapedLength(c: char): nat
  {
    var n := c as int;
    if c == '"' || c == '\\' || n == 8 || n == 9 || n == 10 || n == 12 || n == 13 then 2
    else if n < 0x20 then 6
    else if n >= 0x10000 then 2
    else 1
  }

  function EscapedTotal(s: string): (n: nat)
    ensures n >= |s|
  {
    if s == [] then 0 else EscapedLength(s[0]) + EscapedTotal(s[1..])
  }

  /** `JSON.stringify(facts || []).length`: a non-empty facts column is stringified as a string. */
  function FactsLength(facts: Option<string>): (n: nat)
    ensures n >= 2
    ensures facts.None? || facts == Some("") ==> n == 2
  {
    if facts.None? || facts.value == [] then 2 else 2 + EscapedTotal(facts.value)
  }

  /** The characters the read estimate counts. */
  function ReadChars(o: Observation): nat
  {
    FieldLength(o.title) + FieldLength(o.subtitle) + FieldLength(o.narrative) + FactsLength(o.facts)
  }

  /** `Math.ceil(chars / 4)`: the tokens needed to read an observation. */
  function ReadTokens(o: Observation): (t: nat)
    ensures 4 * t >= ReadChars(o) && 4 * t < ReadChars(o) + 4
    ensures t >= 1
  {
    (ReadChars(o) + 3) / 4
  }

  /** An observation with only null text columns still costs one token: "[]" is two characters. */
  lemma BareObservationReadsOneToken(o: Observation)
    requires o.title.None? && o.subtitle.None? && o.narrative.None? && o.facts.None?
    ensures ReadTokens(o) == 1
  {
  }

  /** `discovery_tokens || 0`. */
  function WorkTokens(o: Observation): int
  {
    if o.discoveryTokens.Some? then o.discoveryTokens.value else 0
  }

  function ReadTotal(m: seq<Observation>): (n: nat)
    ensures n >= |m|
  {
    if m == [] then 0 else ReadTokens(m[0]) + ReadTotal(m[1..])
  }

  function WorkTotal(m: seq<Observation>): int
  {
    if m == [] then 0 else WorkTokens(m[0]) + WorkTotal(m[1..])
  }

  /** Both totals add up over a split of the list, so their order of reduction does not matter. */
  lemma {:induction false} TotalsAppend(a: seq<Observation>, b: seq<Observation>)
    ensures ReadTotal(a + b) == ReadTotal(a) + ReadTotal(b)
    ensures WorkTotal(a + b) == WorkTotal(a) + WorkTotal(b)
  {
    if a == [] {
      assert a + b == b;
    } else {
      assert (a + b)[0] == a[0] && (a + b)[1..] == a[1..] + b;
      TotalsAppend(a[1..], b);
    }
  }

  /** `Math.round(savings / work * 100)`, or 0 without work; half-way cases round up. */
  function Percent(savings: int, work: int): (p: int)
    ensures work > 0 ==> 2 * work * p <= 200 * savings + work < 2 * work * (p + 1)
    ensures work <= 0 ==> p == 0
  {
    if work > 0 then (200 * savings + work) / (2 * work) else 0
  }

  /** Savings never exceed the work, so the percentage is at most 100; it is negative only with a loss. */
  lemma PercentBounds(savings: int, work: int)
    requires work > 0 && savings <= work
    ensures Percent(savings, work) <= 100
    ensures savings >= 0 ==> Percent(savings, work) >= 0
  {
    var p := Percent(savings, work);
    if p > 100 {
      MulNonNegative(2 * work, p - 101);
    }
    if savings >= 0 && p < 0 {
      MulNonNegative(2 * work, -(p + 1));
    }
  }

  lemma MulNonNegative(a: int, b: int)
    requires a >= 0 && b >= 0
    ensures a * b >= 0
  {
  }

  /** `Math.round(work / 1000)`: the thousands shown in the footer. */
  function Thousands(work: int): (k: int)
    ensures 2 * 1000 * k <= 2 * work + 1000 < 2 * 1000 * (k + 1)
  {
    (2 * work + 1000) / 2000
  }

  datatype SavingsLine = SavingsLine(amount: Option<int>, percent: Option<int>)

  /** The "Context Economics" block. */
  datatype Economics = Economics(observations: nat, readTokens: int, workTokens: int, savings: Option<SavingsLine>)

  /** The closing line: thousands of work tokens reachable for the read cost. */
  datatype Footer = Footer(workThousands: int, readTokens: int)

  datatype Flags = Flags(showRead: bool, showWork: bool, showAmount: bool, showPercent: bool)
  {
    predicate Any() { showRead || showWork || showAmount || showPercent }
  }

  /**
   * The economics block over the selected observations: shown when any of
   * the four flags is on; the savings line only with positive work and a
   * savings flag, carrying the amount and/or the percentage the flags ask for.
   */
  function EconomicsOf(m: seq<Observation>, f: Flags): Option<Economics>
  {
    if !f.Any() then None
    else
      var read := ReadTotal(m);
      var work := WorkTotal(m);
      var savings := work - read;
      Some(Economics(|m|, read, work,
        if work > 0 && (f.showAmount || f.showPercent) then
          Some(SavingsLine(if f.showAmount then Some(savings) else None,
                           if f.showPercent then Some(Percent(savings, work)) else None))
        else None))
  }

  /** The footer: flags on, positive work and positive savings. */
  function FooterOf(m: seq<Observation>, f: Flags): Option<Footer>
  {
    var read := ReadTotal(m);
    var work := WorkTotal(m);
    if f.Any() && work > 0 && work - read > 0 then Some(Footer(Thousands(work), read)) else None
  }

  /**
   * How the economics lines relate: the read cost is at least one token per
   * observation; a savings line needs work; a footer needs positive savings
   * and comes with a savings line whenever a savings flag is on; a shown
   * percentage is at most 100, and non-negative when there is a footer.
   */
  lemma EconomicsConsistent(m: seq<Observation>, f: Flags)
    ensures var e := EconomicsOf(m, f);
      (e.Some? <==> f.Any())
      && (e.Some? ==> e.value.readTokens >= e.value.observations == |m|)
      && (e.Some? && e.value.savings.Some? ==> e.value.workTokens > 0)
      && (e.Some? && e.value.savings.Some? && e.value.savings.value.amount.Some? ==>
            e.value.savings.value.amount.value == e.value.workTokens - e.value.readTokens)
      && (e.Some? && e.value.savings.Some? && e.value.savings.value.percent.Some? ==>
            e.value.savings.value.percent.value <= 100)
  {
    var read := ReadTotal(m);
    var work := WorkTotal(m);
    if work > 0 {
      PercentBounds(work - read, work);
    }
  }

  lemma FooterNeedsSavings(m: seq<Observation>, f: Flags)
    ensures var ft := FooterOf(m, f);
      var e := EconomicsOf(m, f);
      ft.Some? ==> e.Some? && WorkTotal(m) > ReadTotal(m) >= |m|
                   && ft.value.readTokens == e.value.readTokens
                   && (f.showAmount || f.showPercent ==> e.value.savings.Some?)
                   && (f.showPercent ==> e.value.savings.value.percent.value >= 0)
  {
    var read := ReadTotal(m);
    var work := WorkTotal(m);
    if work > 0 {
      PercentBounds(work - read, work);
    }
  }

  // ---------------------------------------------------------------- summaries

  /** A summary with the time it is shown at. */
  datatype Shown = Shown(summary: Summary, displayEpoch: int)

  /**
   * The summaries rendered: the first `count` of those fetched; the newest
   * keeps its own time and each later one takes the time of the summary
   * fetched after it, when there is one.
   */
  function Anchor(g: seq<Summary>, count: nat): (r: seq<Shown>)
    ensures |r| == if count <= |g| then count else |g|
    ensures forall h :: 0 <= h < |r| ==> r[h].summary == g[h]
  {
    var n := if count <= |g| then count else |g|;
    seq(n, h requires 0 <= h < n =>
      Shown(g[h], if h > 0 && h + 1 < |g| then g[h + 1].epoch else g[h].epoch))
  }

  /**
   * With the summaries fetched newest first and one more than rendered, every
   * rendered summary but the newest is shown at the time of the next older
   * one, never later than its own time; the newest keeps its own.
   */
  lemma AnchorShiftsBack(table: seq<Summary>, project: string, count: nat)
    ensures var g := Fetched(table, project, count + 1);
      var r := Anchor(g, count);
      (|r| > 0 ==> r[0].displayEpoch == g[0].epoch)
      && (forall h :: 1 <= h < |r| && h + 1 < |g| ==> r[h].displayEpoch == g[h + 1].epoch)
      && (forall h :: 0 <= h < |r| ==> r[h].displayEpoch <= r[h].summary.epoch)
  {
    FetchedNewestFirst(table, project, count + 1);
    AnchorOrdered(Fetched(table, project, count + 1), count);
  }

  lemma AnchorOrdered(g: seq<Summary>, count: nat)
    requires forall i, j :: 0 <= i < j < |g| ==> g[i].epoch >= g[j].epoch
    ensures var r := Anchor(g, count);
      (|r| > 0 ==> r[0].displayEpoch == g[0].epoch)
      && (forall h :: 1 <= h < |r| && h + 1 < |g| ==> r[h].displayEpoch == g[h + 1].epoch)
      && (forall h :: 0 <= h < |r| ==> r[h].displayEpoch <= r[h].summary.epoch)
  {
    var r := Anchor(g, count);
    forall h | 0 <= h < |r| ensures r[h].displayEpoch <= r[h].summary.epoch {
      if h > 0 && h + 1 < |g| {
        assert g[h].epoch >= g[h + 1].epoch;
      }
    }
  }
}
