/**
 * The demo mode of the Python database tool: when no database is present,
 * statistics, AI-response search and tool-execution listing run over an
 * in-memory list of records.  Python's truthiness of an optional argument is
 * `Given`; `str.lower`/`str.upper` are taken on ASCII letters.
 */
module Demo {
  import opened Wrappers
  import opened Text
  import opened Lists

  datatype AiResponse = AiResponse(
    id: int, sessionId: string, project: string,
    responseText: string, responseType: string, createdAt: string)

  /** A tool execution; a field the record lacks reads as "" (`e.get(key, "")`). */
  datatype ToolExecution = ToolExecution(
    id: int, project: string, toolName: string,
    toolInput: string, toolOutput: string, errorMessage: string, success: bool)

  /** Python truthiness of an optional string or list argument. */
  predicate Given<T>(o: Option<seq<T>>)
  {
    o.Some? && o.value != []
  }

  function UpperChar(c: char): char
  {
    if 'a' <= c <= 'z' then (c as int - 32) as char else c
  }

  function Upper(s: string): (r: string)
    ensures |r| == |s|
  {
    seq(|s|, i requires 0 <= i < |s| => UpperChar(s[i]))
  }

  /** `keyword.lower() in text.lower()`. */
  predicate ContainsCi(text: string, keyword: string)
  {
    Contains(Lower(text), Lower(keyword))
  }

  predicate MatchesAll(text: string, keywords: seq<string>)
  {
    forall k :: k in keywords ==> ContainsCi(text, k)
  }

  predicate MatchesAny(text: string, keywords: seq<string>)
  {
    exists k :: k in keywords && ContainsCi(text, k)
  }

  /** Python's `s[lo:hi]`: negative bounds count from the end, and both are clamped to the length. */
  function PySlice<T>(s: seq<T>, lo: int, hi: int): (r: seq<T>)
    ensures |r| <= |s|
    ensures forall x :: x in r ==> x in s
  {
    var a := if lo < 0 then (if lo + |s| < 0 then 0 else lo + |s|) else (if lo > |s| then |s| else lo);
    var b := if hi < 0 then (if hi + |s| < 0 then 0 else hi + |s|) else (if hi > |s| then |s| else hi);
    if a < b then s[a..b] else []
  }

  /** For non-negative bounds Python slicing is the clamped slice. */
  lemma PySliceNatural<T>(s: seq<T>, lo: nat, hi: nat)
    ensures PySlice(s, lo, hi) == Slice(s, lo, hi)
  {
  }

  function ProjectIs(p: string): AiResponse -> bool
  {
    (r: AiResponse) => r.project == p
  }

  function TypeIs(t: string): AiResponse -> bool
  {
    (r: AiResponse) => r.responseType == t
  }

  function TextMatches(keywords: seq<string>, allOf: bool): AiResponse -> bool
  {
    (r: AiResponse) => if allOf then MatchesAll(r.responseText, keywords) else MatchesAny(r.responseText, keywords)
  }

  /**
   * The demo branch of `search_ai_responses`: project, then response type,
   * then keywords (every keyword under "AND" in any case, at least one
   * under any other logic), then the page `[offset:offset + limit]`.
   */
  function SearchAiResponses(data: seq<AiResponse>, keywords: Option<seq<string>>, logic: string,
                             project: Option<string>, limit: int, offset: int,
                             responseType: Option<string>): (r: seq<AiResponse>)
  {
    var byProject := if Given(project) then Filter(data, ProjectIs(project.value)) else data;
    var byType := if Given(responseType) then Filter(byProject, TypeIs(responseType.value)) else byProject;
    var byText := if Given(keywords) then Filter(byType, TextMatches(keywords.value, Upper(logic) == "AND")) else byType;
    PySlice(byText, offset, offset + limit)
  }

  /** Whether one response passes all of the search's criteria. */
  predicate Selected(r: AiResponse, keywords: Option<seq<string>>, logic: string,
                     project: Option<string>, responseType: Option<string>)
  {
    (!Given(project) || r.project == project.value)
    && (!Given(responseType) || r.responseType == responseType.value)
    && (!Given(keywords) ||
        (if Upper(logic) == "AND" then MatchesAll(r.responseText, keywords.value)
         else MatchesAny(r.responseText, keywords.value)))
  }

  function SelectedBy(keywords: Option<seq<string>>, logic: string,
                      project: Option<string>, responseType: Option<string>): AiResponse -> bool
  {
    (r: AiResponse) => Selected(r, keywords, logic, project, responseType)
  }

  /**
   * The search is one order-preserving filter by all criteria at once,
   * followed by the page slice.
   */
  lemma SearchAiResponsesSpec(data: seq<AiResponse>, keywords: Option<seq<string>>, logic: string,
                              project: Option<string>, limit: int, offset: int, responseType: Option<string>)
    ensures SearchAiResponses(data, keywords, logic, project, limit, offset, responseType)
         == PySlice(Filter(data, SelectedBy(keywords, logic, project, responseType)), offset, offset + limit)
  {
    var p := ProjectIs(if Given(project) then project.value else []);
    var t := TypeIs(if Given(responseType) then responseType.value else []);
    var k := TextMatches(if Given(keywords) then keywords.value else [], Upper(logic) == "AND");
    FilterWhen(data, Given(project), p);
    var byProject := Filter(data, Unless(Given(project), p));
    FilterWhen(byProject, Given(responseType), t);
    FilterFilter(data, Unless(Given(project), p), Unless(Given(responseType), t));
    var pt := Both(Unless(Given(project), p), Unless(Given(responseType), t));
    var byType := Filter(data, pt);
    FilterWhen(byType, Given(keywords), k);
    FilterFilter(data, pt, Unless(Given(keywords), k));
    var all := Both(pt, Unless(Given(keywords), k));
    var sel := SelectedBy(keywords, logic, project, responseType);
    forall x ensures all(x) == sel(x) {
      assert Unless(Given(project), p)(x) == (!Given(project) || x.project == project.value);
      assert Unless(Given(responseType), t)(x) == (!Given(responseType) || x.responseType == responseType.value);
      assert Unless(Given(keywords), k)(x) == (!Given(keywords) || k(x));
      assert sel(x) == Selected(x, keywords, logic, project, responseType);
    }
    FilterCongruent(data, all, sel);
  }

  /** An empty or absent keyword list leaves the text unfiltered, whatever the logic. */
  lemma NoKeywordsNoTextFilter(r: AiResponse, keywords: Option<seq<string>>, logic: string, other: string,
                               project: Option<string>, responseType: Option<string>)
    requires !Given(keywords)
    ensures Selected(r, keywords, logic, project, responseType) == Selected(r, keywords, other, project, responseType)
  {
  }

  /** With one keyword the two logics agree. */
  lemma OneKeywordLogicsAgree(r: AiResponse, keyword: string, logic: string,
                              project: Option<string>, responseType: Option<string>)
    ensures Selected(r, Some([keyword]), logic, project, responseType)
         == Selected(r, Some([keyword]), "AND", project, responseType)
  {
    assert keyword in [keyword];
    assert forall k :: k in [keyword] ==> k == keyword;
  }

  /**
   * Python's string order: code point by code point, a proper prefix first.
   */
  predicate LexLe(a: string, b: string)
    decreases |a|
  {
    a == [] || (b != [] && (a[0] < b[0] || (a[0] == b[0] && LexLe(a[1..], b[1..]))))
  }

  lemma {:induction false} LexLeTotal(a: string, b: string)
    ensures LexLe(a, b) || LexLe(b, a)
    decreases |a|
  {
    if a != [] && b != [] && a[0] == b[0] {
      LexLeTotal(a[1..], b[1..]);
    }
  }

  lemma {:induction false} LexLeTrans(a: string, b: string, c: string)
    requires LexLe(a, b) && LexLe(b, c)
    ensures LexLe(a, c)
    decreases |a|
  {
    if a != [] && a[0] == b[0] && b[0] == c[0] {
      LexLeTrans(a[1..], b[1..], c[1..]);
    }
  }

  /** Python's `min` over a non-empty list of strings. */
  function MinStr(s: seq<string>): (m: string)
    requires |s| > 0
    ensures m in s && forall x :: x in s ==> LexLe(m, x)
  {
    if |s| == 1 then
      LexLeReflexive(s[0]);
      s[0]
    else
      var rest := MinStr(s[1..]);
      assert forall x :: x in s ==> x == s[0] || x in s[1..];
      LexLeTotal(s[0], rest);
      if LexLe(rest, s[0]) && rest != s[0] then
        forall x | x in s[1..] ensures LexLe(rest, x) { }
        rest
      else
        forall x | x in s[1..] ensures LexLe(s[0], x) {
          LexLeTrans(s[0], rest, x);
        }
        LexLeReflexive(s[0]);
        s[0]
  }

  /** Python's `max` over a non-empty list of strings. */
  function MaxStr(s: seq<string>): (m: string)
    requires |s| > 0
    ensures m in s && forall x :: x in s ==> LexLe(x, m)
  {
    if |s| == 1 then
      LexLeReflexive(s[0]);
      s[0]
    else
      var rest := MaxStr(s[1..]);
      assert forall x :: x in s ==> x == s[0] || x in s[1..];
      LexLeTotal(s[0], rest);
      if LexLe(s[0], rest) && rest != s[0] then
        rest
      else
        forall x | x in s[1..] ensures LexLe(x, s[0]) {
          LexLeTrans(x, rest, s[0]);
        }
        LexLeReflexive(s[0]);
        s[0]
  }

  lemma {:induction false} LexLeReflexive(a: string)
    ensures LexLe(a, a)
    decreases |a|
  {
    if a != [] {
      LexLeReflexive(a[1..]);
    }
  }

  /** What `get_project_stats` returns in demo mode. */
  datatype Stats = Stats(responseCount: nat, sessionCount: nat, earliest: Option<string>, latest: Option<string>)

  function CreatedAt(r: AiResponse): string
  {
    r.createdAt
  }

  /** The distinct session ids of some responses. */
  function SessionIds(rs: seq<AiResponse>): set<string>
  {
    set r | r in rs :: r.sessionId
  }

  /**
   * `get_project_stats` on demo data: the matching responses (all of them when
   * no project is given), their number, their number of distinct sessions,
   * and the least and greatest `created_at`, or `None` when nothing matches.
   */
  function ProjectStats(data: seq<AiResponse>, project: Option<string>): (st: Stats)
  {
    var rs := if Given(project) then Filter(data, ProjectIs(project.value)) else data;
    var times := Map(rs, CreatedAt);
    Stats(|rs|, |SessionIds(rs)|,
          if rs != [] then Some(MinStr(times)) else None,
          if rs != [] then Some(MaxStr(times)) else None)
  }

  /** There are never more sessions than responses. */
  lemma {:induction false} SessionIdsBound(rs: seq<AiResponse>)
    ensures |SessionIds(rs)| <= |rs|
  {
    if rs != [] {
      SessionIdsBound(rs[1..]);
      assert SessionIds(rs) == {rs[0].sessionId} + SessionIds(rs[1..]);
    }
  }

  /**
   * The statistics describe exactly the matching responses: the count, at
   * least one session whenever there is a response and never more sessions
   * than responses, and bounds that are attained and enclose every
   * matching timestamp; both bounds are absent exactly when nothing matches.
   */
  lemma ProjectStatsSpec(data: seq<AiResponse>, project: Option<string>)
    ensures var st := ProjectStats(data, project);
      var rs := if Given(project) then Filter(data, ProjectIs(project.value)) else data;
      st.responseCount == |rs|
      && st.sessionCount <= st.responseCount
      && (st.responseCount > 0 ==> st.sessionCount > 0)
      && (st.earliest.None? <==> st.responseCount == 0)
      && (st.latest.None? <==> st.responseCount == 0)
      && (st.earliest.Some? ==> (exists r :: r in rs && r.createdAt == st.earliest.value)
                                && forall r :: r in rs ==> LexLe(st.earliest.value, r.createdAt))
      && (st.latest.Some? ==> (exists r :: r in rs && r.createdAt == st.latest.value)
                              && forall r :: r in rs ==> LexLe(r.createdAt, st.latest.value))
  {
    var rs := if Given(project) then Filter(data, ProjectIs(project.value)) else data;
    SessionIdsBound(rs);
    if rs != [] {
      assert rs[0].sessionId in SessionIds(rs);
      var times := Map(rs, CreatedAt);
      forall r | r in rs ensures r.createdAt in times {
        var i :| 0 <= i < |rs| && rs[i] == r;
        assert times[i] == r.createdAt;
      }
      forall t | t in times ensures exists r :: r in rs && r.createdAt == t {
        var i :| 0 <= i < |times| && times[i] == t;
        assert rs[i] in rs;
      }
    }
  }

  function ToolProjectIs(p: string): ToolExecution -> bool
  {
    (e: ToolExecution) => e.project == p
  }

  function ToolNameIs(n: string): ToolExecution -> bool
  {
    (e: ToolExecution) => e.toolName == n
  }

  function Succeeded(e: ToolExecution): bool
  {
    e.success
  }

  /** Some keyword occurs, in any case, in the input, the output or the error message. */
  predicate ExecutionMatches(e: ToolExecution, keywords: seq<string>)
  {
    exists k :: k in keywords &&
      (ContainsCi(e.toolInput, k) || ContainsCi(e.toolOutput, k) || ContainsCi(e.errorMessage, k))
  }

  function ExecutionMatchesAny(keywords: seq<string>): ToolExecution -> bool
  {
    (e: ToolExecution) => ExecutionMatches(e, keywords)
  }

  /**
   * The demo branch of `get_tool_executions`: project, tool name, success,
   * any-keyword filters in turn, then the first `limit` (`[:limit]`).
   */
  function ToolExecutions(data: seq<ToolExecution>, keywords: Option<seq<string>>, project: Option<string>,
                          toolName: Option<string>, successOnly: bool, limit: int): (r: seq<ToolExecution>)
  {
    var e1 := if Given(project) then Filter(data, ToolProjectIs(project.value)) else data;
    var e2 := if Given(toolName) then Filter(e1, ToolNameIs(toolName.value)) else e1;
    var e3 := if successOnly then Filter(e2, Succeeded) else e2;
    var e4 := if Given(keywords) then Filter(e3, ExecutionMatchesAny(keywords.value)) else e3;
    PySlice(e4, 0, limit)
  }

  /**
   * Every execution listed is a record of the data meeting every given
   * criterion, and for a non-negative limit no more than `limit` are listed.
   */
  lemma ToolExecutionsSound(data: seq<ToolExecution>, keywords: Option<seq<string>>, project: Option<string>,
                            toolName: Option<string>, successOnly: bool, limit: int)
    ensures var r := ToolExecutions(data, keywords, project, toolName, successOnly, limit);
      (limit >= 0 ==> |r| <= limit)
      && forall e :: e in r ==>
        e in data
        && (Given(project) ==> e.project == project.value)
        && (Given(toolName) ==> e.toolName == toolName.value)
        && (successOnly ==> e.success)
        && (Given(keywords) ==> ExecutionMatches(e, keywords.value))
  {
  }

  /** Whether one execution passes all of `get_tool_executions`'s criteria. */
  predicate ToolSelected(e: ToolExecution, keywords: Option<seq<string>>, project: Option<string>,
                         toolName: Option<string>, successOnly: bool)
  {
    (!Given(project) || e.project == project.value)
    && (!Given(toolName) || e.toolName == toolName.value)
    && (!successOnly || e.success)
    && (!Given(keywords) || ExecutionMatches(e, keywords.value))
  }

  function ToolSelectedBy(keywords: Option<seq<string>>, project: Option<string>,
                          toolName: Option<string>, successOnly: bool): ToolExecution -> bool
  {
    (e: ToolExecution) => ToolSelected(e, keywords, project, toolName, successOnly)
  }

  /** The four filters of `get_tool_executions` as one conjunction, in the order they run. */
  function ToolStages(keywords: Option<seq<string>>, project: Option<string>,
                      toolName: Option<string>, successOnly: bool): ToolExecution -> bool
  {
    Both(Both(Both(Unless(Given(project), ToolProjectIs(if Given(project) then project.value else [])),
                   Unless(Given(toolName), ToolNameIs(if Given(toolName) then toolName.value else []))),
              Unless(successOnly, Succeeded)),
         Unless(Given(keywords), ExecutionMatchesAny(if Given(keywords) then keywords.value else [])))
  }

  /** Filtering in four passes is filtering once by their conjunction. */
  lemma ToolExecutionsStaged(data: seq<ToolExecution>, keywords: Option<seq<string>>, project: Option<string>,
                             toolName: Option<string>, successOnly: bool, limit: int)
    ensures ToolExecutions(data, keywords, project, toolName, successOnly, limit)
         == PySlice(Filter(data, ToolStages(keywords, project, toolName, successOnly)), 0, limit)
  {
    var p := ToolProjectIs(if Given(project) then project.value else []);
    var n := ToolNameIs(if Given(toolName) then toolName.value else []);
    var k := ExecutionMatchesAny(if Given(keywords) then keywords.value else []);
    FilterWhen(data, Given(project), p);
    var e1 := Filter(data, Unless(Given(project), p));
    FilterWhen(e1, Given(toolName), n);
    FilterFilter(data, Unless(Given(project), p), Unless(Given(toolName), n));
    var pn := Both(Unless(Given(project), p), Unless(Given(toolName), n));
    var e2 := Filter(data, pn);
    FilterWhen(e2, successOnly, Succeeded);
    FilterFilter(data, pn, Unless(successOnly, Succeeded));
    var pns := Both(pn, Unless(successOnly, Succeeded));
    var e3 := Filter(data, pns);
    FilterWhen(e3, Given(keywords), k);
    FilterFilter(data, pns, Unless(Given(keywords), k));
  }

  /**
   * The listing is one order-preserving filter by all given criteria at
   * once, followed by Python's `[:limit]`.
   */
  lemma ToolExecutionsSpec(data: seq<ToolExecution>, keywords: Option<seq<string>>, project: Option<string>,
                           toolName: Option<string>, successOnly: bool, limit: int)
    ensures ToolExecutions(data, keywords, project, toolName, successOnly, limit)
         == PySlice(Filter(data, ToolSelectedBy(keywords, project, toolName, successOnly)), 0, limit)
  {
    ToolExecutionsStaged(data, keywords, project, toolName, successOnly, limit);
    var all, sel := ToolStages(keywords, project, toolName, successOnly), ToolSelectedBy(keywords, project, toolName, successOnly);
    forall x ensures all(x) == sel(x) {
      ToolStagesSelect(x, keywords, project, toolName, successOnly);
    }
    FilterCongruent(data, all, sel);
  }

  /** The staged conjunction and the one-pass criteria agree on every execution. */
  lemma ToolStagesSelect(x: ToolExecution, keywords: Option<seq<string>>, project: Option<string>,
                         toolName: Option<string>, successOnly: bool)
    ensures ToolStages(keywords, project, toolName, successOnly)(x)
         == ToolSelectedBy(keywords, project, toolName, successOnly)(x)
  {
    ToolStagesApply(x, keywords, project, toolName, successOnly);
    ToolStagePart(x, keywords, project, toolName, successOnly);
    assert ToolSelectedBy(keywords, project, toolName, successOnly)(x) == ToolSelected(x, keywords, project, toolName, successOnly);
  }

  /** Applying the staged conjunction is applying each of its four stages. */
  lemma ToolStagesApply(x: ToolExecution, keywords: Option<seq<string>>, project: Option<string>,
                        toolName: Option<string>, successOnly: bool)
    ensures ToolStages(keywords, project, toolName, successOnly)(x) ==
      (Unless(Given(project), ToolProjectIs(if Given(project) then project.value else []))(x) &&
       Unless(Given(toolName), ToolNameIs(if Given(toolName) then toolName.value else []))(x) &&
       Unless(successOnly, Succeeded)(x) &&
       Unless(Given(keywords), ExecutionMatchesAny(if Given(keywords) then keywords.value else []))(x))
  {
  }

  /** What each stage asks of one execution. */
  lemma ToolStagePart(x: ToolExecution, keywords: Option<seq<string>>, project: Option<string>,
                      toolName: Option<string>, successOnly: bool)
    ensures Unless(Given(project), ToolProjectIs(if Given(project) then project.value else []))(x)
         == (!Given(project) || x.project == project.value)
    ensures Unless(Given(toolName), ToolNameIs(if Given(toolName) then toolName.value else []))(x)
         == (!Given(toolName) || x.toolName == toolName.value)
    ensures Unless(successOnly, Succeeded)(x) == (!successOnly || x.success)
    ensures Unless(Given(keywords), ExecutionMatchesAny(if Given(keywords) then keywords.value else []))(x)
         == (!Given(keywords) || ExecutionMatches(x, keywords.value))
  {
    assert Succeeded(x) == x.success;
  }
}
