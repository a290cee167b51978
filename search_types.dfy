/**
 * The viewer's typed search: query validation against FTS5 operator
 * injection, the endpoint each search type routes to, and the
 * sequence-number check that discards the answer of a search overtaken by a
 * newer one.  The network is a parameter: a started search is finished with
 * the outcome its fetch had.  Query-string percent-encoding is left out, so
 * parameters are kept as decoded name/value pairs.
 */
module SearchTypes {
  import opened Wrappers
  import opened Text
  import Keywords

  const MaxQueryLength: nat := 500
  const DefaultLimit: int := 20

  datatype Validation = Valid | Invalid(error: string)

  /** The anchored `FTS5_ALLOWED_PATTERN`, the same class the store's keyword whitelist uses. */
  predicate AllowedQuery(q: string)
  {
    Keywords.Whitelisted(q, Keywords.Bundled)
  }

  /**
   * `validateQuery`: blank is valid; then length, then the operator patterns
   * (whole-word or/not, `NEAR(`, `*`), then the character class.
   */
  function ValidateQuery(q: string): (r: Validation)
    ensures Trim(q) == [] ==> r == Valid
    ensures Trim(q) != [] && |q| > MaxQueryLength ==> r == Invalid("Query too long")
    ensures r == Invalid("Invalid search operator") <==>
      Trim(q) != [] && |q| <= MaxQueryLength && Keywords.HasDangerousOperator(q)
    ensures r == Invalid("Invalid characters in query") <==>
      Trim(q) != [] && |q| <= MaxQueryLength && !Keywords.HasDangerousOperator(q) && !AllowedQuery(q)
    ensures r.Valid? <==>
      Trim(q) == [] || (|q| <= MaxQueryLength && !Keywords.HasDangerousOperator(q) && AllowedQuery(q))
  {
    if Trim(q) == [] then Valid
    else if |q| > MaxQueryLength then Invalid("Query too long")
    else if Keywords.HasDangerousOperator(q) then Invalid("Invalid search operator")
    else if !AllowedQuery(q) then Invalid("Invalid characters in query")
    else Valid
  }

  /**
   * A non-blank query of keyword length passes the viewer's check exactly
   * when the store's keyword validator would keep it.
   */
  lemma ValidQueryIsKeptKeyword(q: string)
    requires Trim(q) != [] && |q| <= Keywords.MaxKeywordLength
    ensures ValidateQuery(q).Valid? <==> Keywords.Admissible(q, Keywords.Bundled)
  {
  }

  /** The cheap conditions of a query that passes: no outer blanks, allowed characters, no `o` or no `r`, no `n`, `o` or `t`. */
  lemma QueryValidWhen(q: string, j1: nat, j2: nat)
    requires |q| > 0 && !IsJsSpace(q[0]) && !IsJsSpace(q[|q| - 1]) && |q| <= Keywords.MaxKeywordLength
    requires AllowedQuery(q)
    requires j1 < 2 && "or"[j1] !in Lower(q) && j2 < 3 && "not"[j2] !in Lower(q)
    ensures ValidateQuery(q) == Valid
  {
    Keywords.AdmissibleWhen(q, Keywords.Bundled, j1, j2);
  }

  /** A rejected query is never blank, so an `INVALID_QUERY` error never says "empty". */
  lemma InvalidQueryNotBlank(q: string)
    requires ValidateQuery(q).Invalid?
    ensures Trim(q) != [] && !IsBlank(q)
  {
    TrimEmptyIffBlank(q);
  }

  datatype SearchType =
    | Standard | Timeline | Decisions | Changes | HowItWorks | ByConcept | ByFile | ByType
    | Other(name: string)

  datatype Value = Text(s: string) | Number(n: int)

  datatype Param = Param(name: string, value: Value)

  /** `SearchFilters`; an absent field is `None`. */
  datatype Filters = Filters(project: Option<string>, limit: Option<int>, concepts: Option<seq<string>>,
                             files: Option<seq<string>>, kind: Option<string>)

  datatype Endpoint = Endpoint(path: string, params: seq<Param>)

  /** The value of the first parameter called `name`. */
  function Lookup(params: seq<Param>, name: string): Option<Value>
  {
    if params == [] then None
    else if params[0].name == name then Some(params[0].value)
    else Lookup(params[1..], name)
  }

  /** `Lookup` finds a parameter of that name exactly when there is one, and the first one. */
  lemma {:induction false} LookupSpec(params: seq<Param>, name: string)
    ensures Lookup(params, name).None? <==> forall i :: 0 <= i < |params| ==> params[i].name != name
    ensures Lookup(params, name).Some? ==>
      exists i :: 0 <= i < |params| && params[i] == Param(name, Lookup(params, name).value)
        && forall j :: 0 <= j < i ==> params[j].name != name
  {
    if params != [] && params[0].name != name {
      LookupSpec(params[1..], name);
      if Lookup(params, name).Some? {
        var i :| 0 <= i < |params[1..]| && params[1..][i] == Param(name, Lookup(params, name).value)
          && forall j :: 0 <= j < i ==> params[1..][j].name != name;
        assert params[i + 1] == Param(name, Lookup(params, name).value);
        assert forall j :: 0 <= j < i + 1 ==> params[j].name != name by {
          forall j | 0 <= j < i + 1 ensures params[j].name != name {
            if j > 0 { assert params[j] == params[1..][j - 1]; }
          }
        }
      }
    }
  }

  predicate Truthy(s: Option<string>)
  {
    s.Some? && s.value != []
  }

  predicate NonEmptyList(s: Option<seq<string>>)
  {
    s.Some? && s.value != []
  }

  /** `filters.limit || DEFAULT_LIMIT`: an absent or zero limit falls back. */
  function EffectiveLimit(limit: Option<int>): (n: int)
    ensures limit.Some? && limit.value != 0 ==> n == limit.value
    ensures limit.None? || limit.value == 0 ==> n == DefaultLimit
  {
    if limit.Some? && limit.value != 0 then limit.value else DefaultLimit
  }

  /** The optional parameter `name`, present when `on`. */
  function When(on: bool, name: string, v: Value): seq<Param>
  {
    if on then [Param(name, v)] else []
  }

  /** The six optional parameters of the shared query string, in the order they are set. */
  function BaseParamsParts(query: string, f: Filters): (ps: seq<seq<Param>>)
    ensures |ps| == 6
  {
    [When(query != [], "query", Text(query)),
     When(Truthy(f.project), "project", if f.project.Some? then Text(f.project.value) else Text("")),
     When(f.limit.Some? && f.limit.value != 0, "limit", if f.limit.Some? then Number(f.limit.value) else Number(0)),
     When(NonEmptyList(f.concepts), "concepts", if f.concepts.Some? then Text(Join(f.concepts.value, ",")) else Text("")),
     When(NonEmptyList(f.files), "files", if f.files.Some? then Text(Join(f.files.value, ",")) else Text("")),
     When(Truthy(f.kind), "type", if f.kind.Some? then Text(f.kind.value) else Text(""))]
  }

  /** The shared query string: query, project, limit, concepts, files, type, each only when set. */
  function BaseParams(query: string, f: Filters): seq<Param>
  {
    var ps := BaseParamsParts(query, f);
    ps[0] + (ps[1] + (ps[2] + (ps[3] + (ps[4] + ps[5]))))
  }

  lemma {:induction false} LookupAppend(a: seq<Param>, b: seq<Param>, name: string)
    ensures Lookup(a + b, name) == if Lookup(a, name).Some? then Lookup(a, name) else Lookup(b, name)
  {
    if a == [] {
      assert a + b == b;
    } else {
      assert (a + b)[1..] == a[1..] + b;
      LookupAppend(a[1..], b, name);
    }
  }

  lemma LookupWhen(on: bool, key: string, v: Value, name: string)
    ensures Lookup(When(on, key, v), name) == if on && key == name then Some(v) else None
  {
  }

  /** The first of the six optional parameters that is present under `name`. */
  lemma BaseParamsLookup(query: string, f: Filters, name: string)
    ensures var ps := BaseParamsParts(query, f);
      Lookup(BaseParams(query, f), name) ==
        if Lookup(ps[0], name).Some? then Lookup(ps[0], name)
        else if Lookup(ps[1], name).Some? then Lookup(ps[1], name)
        else if Lookup(ps[2], name).Some? then Lookup(ps[2], name)
        else if Lookup(ps[3], name).Some? then Lookup(ps[3], name)
        else if Lookup(ps[4], name).Some? then Lookup(ps[4], name)
        else Lookup(ps[5], name)
  {
    var ps := BaseParamsParts(query, f);
    assert BaseParams(query, f) == ps[0] + (ps[1] + (ps[2] + (ps[3] + (ps[4] + ps[5]))));
    LookupAppend(ps[4], ps[5], name);
    LookupAppend(ps[3], ps[4] + ps[5], name);
    LookupAppend(ps[2], ps[3] + (ps[4] + ps[5]), name);
    LookupAppend(ps[1], ps[2] + (ps[3] + (ps[4] + ps[5])), name);
    LookupAppend(ps[0], ps[1] + (ps[2] + (ps[3] + (ps[4] + ps[5]))), name);
  }

  /** The query, project and limit are sent exactly when set (a non-empty string, a non-zero limit). */
  lemma BaseParamsScalars(query: string, f: Filters)
    ensures Lookup(BaseParams(query, f), "query") == (if query != [] then Some(Text(query)) else None)
    ensures Lookup(BaseParams(query, f), "project") == (if Truthy(f.project) then Some(Text(f.project.value)) else None)
    ensures Lookup(BaseParams(query, f), "limit") == (if f.limit.Some? && f.limit.value != 0 then Some(Number(f.limit.value)) else None)
  {
    BaseParamsLookup(query, f, "query");
    BaseParamsLookup(query, f, "project");
    BaseParamsLookup(query, f, "limit");
  }

  /** Concepts and files are sent comma-joined exactly when non-empty, and the type exactly when non-empty. */
  lemma BaseParamsLists(query: string, f: Filters)
    ensures Lookup(BaseParams(query, f), "concepts") == (if NonEmptyList(f.concepts) then Some(Text(Join(f.concepts.value, ","))) else None)
    ensures Lookup(BaseParams(query, f), "files") == (if NonEmptyList(f.files) then Some(Text(Join(f.files.value, ","))) else None)
    ensures Lookup(BaseParams(query, f), "type") == (if Truthy(f.kind) then Some(Text(f.kind.value)) else None)
  {
    BaseParamsLookup(query, f, "concepts");
    BaseParamsLookup(query, f, "files");
    BaseParamsLookup(query, f, "type");
  }

  /** The by-concept/by-file/by-type form: the query under its own key, then the limit. */
  function ByParams(key: string, query: string, f: Filters): seq<Param>
  {
    When(query != [], key, Text(query)) + [Param("limit", Number(EffectiveLimit(f.limit)))]
  }

  /** `buildEndpoint`. */
  function BuildEndpoint(t: SearchType, query: string, f: Filters): (r: Endpoint)
  {
    match t
    case Timeline => Endpoint("/api/timeline", BaseParams(query, f))
    case Decisions => Endpoint("/api/decisions", BaseParams(query, f))
    case Changes => Endpoint("/api/changes", BaseParams(query, f))
    case HowItWorks => Endpoint("/api/how-it-works", BaseParams(query, f))
    case ByConcept => Endpoint("/api/search/by-concept", ByParams("concept", query, f))
    case ByFile => Endpoint("/api/search/by-file", ByParams("filePath", query, f))
    case ByType => Endpoint("/api/search/by-type", ByParams("type", query, f))
    case Standard => Endpoint("/api/search", BaseParams(query, f))
    case Other(_) => Endpoint("/api/search", BaseParams(query, f))
  }

  /** The four listing types keep the shared query string; standard and unknown types go to `/api/search`. */
  lemma RoutesGeneral(t: SearchType, query: string, f: Filters)
    requires !(t.ByConcept? || t.ByFile? || t.ByType?)
    ensures var r := BuildEndpoint(t, query, f);
      r.params == BaseParams(query, f)
      && (t.Timeline? ==> r.path == "/api/timeline")
      && (t.Decisions? ==> r.path == "/api/decisions")
      && (t.Changes? ==> r.path == "/api/changes")
      && (t.HowItWorks? ==> r.path == "/api/how-it-works")
      && (t.Standard? || t.Other? ==> r.path == "/api/search")
  {
  }

  /**
   * The by-types send only the query, under their own key and only when
   * non-empty, and a limit that is always present (default 20); every other
   * filter is dropped.
   */
  lemma RoutesBy(t: SearchType, query: string, f: Filters)
    requires t.ByConcept? || t.ByFile? || t.ByType?
    ensures var r := BuildEndpoint(t, query, f);
      var key := if t.ByConcept? then "concept" else if t.ByFile? then "filePath" else "type";
      Lookup(r.params, key) == (if query != [] then Some(Text(query)) else None)
      && Lookup(r.params, "limit") == Some(Number(EffectiveLimit(f.limit)))
      && Lookup(r.params, "project").None? && Lookup(r.params, "query").None?
      && |r.params| == (if query != [] then 2 else 1)
  {
    var key := if t.ByConcept? then "concept" else if t.ByFile? then "filePath" else "type";
    var head := When(query != [], key, Text(query));
    var tail := [Param("limit", Number(EffectiveLimit(f.limit)))];
    assert BuildEndpoint(t, query, f).params == head + tail;
    LookupAppend(head, tail, key);
    LookupAppend(head, tail, "limit");
    LookupAppend(head, tail, "project");
    LookupAppend(head, tail, "query");
  }

  datatype SearchError = SearchError(message: string, code: string, isEmpty: bool)

  /** The body of a successful answer; a missing list or total is `None`. */
  datatype Data = Data(observations: Option<seq<int>>, summaries: Option<seq<int>>,
                       prompts: Option<seq<int>>, total: Option<int>)

  datatype SearchResult = SearchResult(observations: seq<int>, summaries: seq<int>, prompts: seq<int>, total: int)

  /** How a started fetch ended. */
  datatype Outcome =
    | Aborted
    | NotOk(status: string)
    | Body(data: Data)
    | BadJson(message: string)
    | NetworkError(message: string)

  /** A search past validation: its sequence number, type and request. */
  datatype Ticket = Ticket(sequence: nat, kind: SearchType, query: string, endpoint: Endpoint)

  function OrEmpty(s: Option<seq<int>>): seq<int>
  {
    if s.Some? then s.value else []
  }

  /** `data.x || []` and `data.total || 0`. */
  function ResultOf(d: Data): (r: SearchResult)
    ensures d.observations.Some? ==> r.observations == d.observations.value
    ensures d.observations.None? ==> r.observations == []
    ensures d.total.None? ==> r.total == 0
    ensures d.total.Some? ==> r.total == d.total.value
  {
    SearchResult(OrEmpty(d.observations), OrEmpty(d.summaries), OrEmpty(d.prompts),
                 if d.total.Some? && d.total.value != 0 then d.total.value else 0)
  }

  /** The message of the error a failed latest search reports. */
  function FailureMessage(o: Outcome): string
  {
    match o
    case NotOk(status) => "Search failed: " + status
    case BadJson(m) => m
    case NetworkError(m) => m
    case _ => ""
  }

  /**
   * `searchImpl`'s state: the sequence counter, the controller registered per
   * search type (named by the sequence number that registered it), the
   * sequence numbers whose controllers were aborted, and the hook's
   * `isLoading` and `error`.
   */
  class Searcher {
    var sequence: nat
    var controllers: map<SearchType, nat>
    var aborted: set<nat>
    var isLoading: bool
    var error: Option<SearchError>

    constructor()
      ensures sequence == 0 && controllers == map[] && aborted == {}
      ensures !isLoading && error.None?
    {
      sequence := 0;
      controllers := map[];
      aborted := {};
      isLoading := false;
      error := None;
    }

    /**
     * The synchronous part of `searchImpl`: take the next sequence number;
     * an invalid query ends here with an `INVALID_QUERY` error and no
     * request; otherwise abort the type's previous controller and register
     * this one.
     */
    method Begin(t: SearchType, query: string, f: Filters) returns (ticket: Option<Ticket>)
      modifies this
      ensures sequence == old(sequence) + 1
      ensures ValidateQuery(query).Invalid? ==>
        ticket.None? && !isLoading
        && error == Some(SearchError(ValidateQuery(query).error, "INVALID_QUERY", Trim(query) == []))
        && controllers == old(controllers) && aborted == old(aborted)
      ensures ValidateQuery(query).Valid? ==>
        ticket == Some(Ticket(sequence, t, query, BuildEndpoint(t, query, f)))
        && isLoading && error.None?
        && controllers == old(controllers)[t := sequence]
        && aborted == old(aborted) + (if t in old(controllers) then {old(controllers)[t]} else {})
    {
      sequence := sequence + 1;
      isLoading := true;
      error := None;
      var v := ValidateQuery(query);
      if v.Invalid? {
        error := Some(SearchError(v.error, "INVALID_QUERY", Trim(query) == []));
        isLoading := false;
        return None;
      }
      if t in controllers {
        aborted := aborted + {controllers[t]};
      }
      controllers := controllers[t := sequence];
      ticket := Some(Ticket(sequence, t, query, BuildEndpoint(t, query, f)));
    }

    /**
     * The part of `searchImpl` after the fetch settles.  An abort yields
     * nothing; so does an answer overtaken by a newer search, before its
     * status is even looked at.  Only the latest search reports errors,
     * clears `isLoading` and unregisters its controller.
     */
    method Finish(ticket: Ticket, outcome: Outcome) returns (result: Option<SearchResult>)
      modifies this
      ensures sequence == old(sequence) && aborted == old(aborted)
      ensures result.Some? <==> outcome.Body? && ticket.sequence == sequence
      ensures result.Some? ==> result.value == ResultOf(outcome.data)
      ensures ticket.sequence != sequence ==>
        isLoading == old(isLoading) && error == old(error) && controllers == old(controllers)
      ensures ticket.sequence == sequence ==>
        !isLoading && controllers == old(controllers) - {ticket.kind}
        && error == (if outcome.Aborted? then old(error)
                     else if outcome.Body? then None
                     else Some(SearchError(FailureMessage(outcome), "SEARCH_ERROR", Trim(ticket.query) == [])))
    {
      var latest := ticket.sequence == sequence;
      result := None;
      match outcome {
        case Aborted =>
        case Body(data) =>
          if latest {
            error := None;
            result := Some(ResultOf(data));
          }
        case _ =>
          if latest {
            error := Some(SearchError(FailureMessage(outcome), "SEARCH_ERROR", Trim(ticket.query) == []));
          }
      }
      if latest {
        isLoading := false;
        controllers := controllers - {ticket.kind};
      }
    }
  }

  /** Two searches in flight: the first one's answer arrives last and is dropped. */
  method OvertakenSearchDiscarded() returns (first: Option<SearchResult>, second: Option<SearchResult>)
    ensures first.None? && second == Some(SearchResult([2], [], [], 0))
  {
    var s := new Searcher();
    var f := Filters(None, None, None, None, None);
    QueryValidWhen("auth", 0, 0);
    QueryValidWhen("cache", 0, 0);
    var a := s.Begin(Timeline, "auth", f);
    var b := s.Begin(Decisions, "cache", f);
    second := s.Finish(b.value, Body(Data(Some([2]), None, None, None)));
    first := s.Finish(a.value, Body(Data(Some([1]), None, None, None)));
  }

  /** A new search of the same type aborts the previous one's controller. */
  method SameTypeAborts() returns (aborted: set<nat>)
    ensures aborted == {1}
  {
    var s := new Searcher();
    var f := Filters(None, None, None, None, None);
    QueryValidWhen("auth", 0, 0);
    var a := s.Begin(ByFile, "auth", f);
    var b := s.Begin(ByFile, "auth", f);
    aborted := s.aborted;
  }
}
