/**
 * The settings file and the context-injection settings read from it: the
 * defaults table, the overlay `loadFromFile` applies to a parsed file (with
 * its migration of a nested `env` object to the flat form), and `Qe`, which
 * turns the loaded strings into counts, flags and type/concept sets.  The
 * file system is a parameter (the file's text, or its absence), and so is
 * `JSON.parse`; the rewrite of a nested file is returned instead of written.
 */
module Settings {
  import opened Wrappers
  import opened Text
  import opened Json

  const ObservationTypes: seq<string> := ["bugfix", "feature", "refactor", "discovery", "decision", "change"]
  const ObservationConcepts: seq<string> :=
    ["how-it-works", "why-it-exists", "what-changed", "problem-solution", "gotcha", "pattern", "trade-off"]

  /** The keys of the defaults table; `Name` is the key as it appears in the file. */
  datatype Key =
    | Model | ContextObservations | WorkerPort | WorkerHost | SkipTools | DataDir | LogLevel
    | PythonVersion | CodePath | ShowReadTokens | ShowWorkTokens | ShowSavingsAmount
    | ShowSavingsPercent | ContextObservationTypes | ContextObservationConcepts | FullCount
    | FullField | SessionCount | ShowLastSummary | ShowLastMessage
  {
    function Name(): (s: string)
      ensures |s| >= 16
    {
      match this
      case Model => "CLAUDE_MEM_MODEL"
      case ContextObservations => "CLAUDE_MEM_CONTEXT_OBSERVATIONS"
      case WorkerPort => "CLAUDE_MEM_WORKER_PORT"
      case WorkerHost => "CLAUDE_MEM_WORKER_HOST"
      case SkipTools => "CLAUDE_MEM_SKIP_TOOLS"
      case DataDir => "CLAUDE_MEM_DATA_DIR"
      case LogLevel => "CLAUDE_MEM_LOG_LEVEL"
      case PythonVersion => "CLAUDE_MEM_PYTHON_VERSION"
      case CodePath => "CLAUDE_CODE_PATH"
      case ShowReadTokens => "CLAUDE_MEM_CONTEXT_SHOW_READ_TOKENS"
      case ShowWorkTokens => "CLAUDE_MEM_CONTEXT_SHOW_WORK_TOKENS"
      case ShowSavingsAmount => "CLAUDE_MEM_CONTEXT_SHOW_SAVINGS_AMOUNT"
      case ShowSavingsPercent => "CLAUDE_MEM_CONTEXT_SHOW_SAVINGS_PERCENT"
      case ContextObservationTypes => "CLAUDE_MEM_CONTEXT_OBSERVATION_TYPES"
      case ContextObservationConcepts => "CLAUDE_MEM_CONTEXT_OBSERVATION_CONCEPTS"
      case FullCount => "CLAUDE_MEM_CONTEXT_FULL_COUNT"
      case FullField => "CLAUDE_MEM_CONTEXT_FULL_FIELD"
      case SessionCount => "CLAUDE_MEM_CONTEXT_SESSION_COUNT"
      case ShowLastSummary => "CLAUDE_MEM_CONTEXT_SHOW_LAST_SUMMARY"
      case ShowLastMessage => "CLAUDE_MEM_CONTEXT_SHOW_LAST_MESSAGE"
    }
  }

  /** A loaded settings object: a value for every key. */
  type Settings = map<Key, Value>

  predicate Complete(e: Settings)
  {
    forall k: Key :: k in e
  }

  /**
   * The entry of `DEFAULTS` for one key, always a string; the data directory
   * is `.mem-claude` under the home directory (path normalisation is not
   * modelled).
   */
  function DefaultFor(k: Key, home: string): (v: Value)
    ensures v.Str?
  {
    match k
    case Model => Str("claude-sonnet-4-5")
    case ContextObservations => Str("50")
    case WorkerPort => Str("37777")
    case WorkerHost => Str("127.0.0.1")
    case SkipTools => Str("ListMcpResourcesTool,SlashCommand,Skill,TodoWrite,AskUserQuestion")
    case DataDir => Str(home + "/.mem-claude")
    case LogLevel => Str("INFO")
    case PythonVersion => Str("3.13")
    case CodePath => Str("")
    case ShowReadTokens => Str("true")
    case ShowWorkTokens => Str("true")
    case ShowSavingsAmount => Str("true")
    case ShowSavingsPercent => Str("true")
    case ContextObservationTypes => Str(Join(ObservationTypes, ","))
    case ContextObservationConcepts => Str(Join(ObservationConcepts, ","))
    case FullCount => Str("5")
    case FullField => Str("narrative")
    case SessionCount => Str("10")
    case ShowLastSummary => Str("true")
    case ShowLastMessage => Str("false")
  }

  /** `DEFAULTS`: every key, every value a string. */
  function Defaults(home: string): (d: Settings)
    ensures Complete(d)
    ensures forall k :: k in d ==> d[k].Str?
  {
    map k: Key | true :: DefaultFor(k, home)
  }

  datatype File = Missing | Present(text: string)

  /** What loading produced, and the flat object written back when the file was nested. */
  datatype Loaded = Loaded(settings: Settings, rewrite: Option<Value>)

  /** Whether a parsed file keeps its settings under a truthy object-valued `env`. */
  predicate Nested(s: Value)
  {
    var env := Get(s, "env");
    env.Some? && Truthy(env.value) && (env.value.Obj? || env.value.Arr?)
  }

  /** The defaults, each overridden by the source's own value under that key's name when it has one. */
  function Overlay(source: Value, home: string): (r: Settings)
    ensures Complete(r)
    ensures forall k :: k in r ==>
      r[k] == if Get(source, k.Name()).Some? then Get(source, k.Name()).value else Defaults(home)[k]
  {
    var d := Defaults(home);
    map k | k in d :: if Get(source, k.Name()).Some? then Get(source, k.Name()).value else d[k]
  }

  /**
   * `loadFromFile`.  A missing file, text the parser rejects and a parsed
   * `null` (whose `.env` throws) all give the defaults; a rewrite happens
   * exactly for a nested file.
   */
  function LoadFromFile(file: File, parse: string -> Option<Value>, home: string): (r: Loaded)
    ensures Complete(r.settings)
    ensures file.Missing? || parse(file.text).None? || parse(file.text) == Some(Null) ==>
      r == Loaded(Defaults(home), None)
    ensures r.rewrite.Some? <==> file.Present? && parse(file.text).Some? && Nested(parse(file.text).value)
  {
    match file
    case Missing => Loaded(Defaults(home), None)
    case Present(text) =>
      match parse(text)
      case None => Loaded(Defaults(home), None)
      case Some(s) =>
        if s.Null? then Loaded(Defaults(home), None)
        else
          var n := if Nested(s) then Get(s, "env").value else s;
          Loaded(Overlay(n, home), if Nested(s) then Some(n) else None)
  }

  /**
   * For a parsed file, each setting comes from the flat object (the nested
   * `env` when there is one) when it holds that key, else from the defaults;
   * keys the defaults do not know are dropped.
   */
  lemma LoadFromFileOverlay(text: string, parse: string -> Option<Value>, home: string)
    requires parse(text).Some? && parse(text) != Some(Null)
    ensures var s := parse(text).value;
      var n := if Nested(s) then Get(s, "env").value else s;
      var r := LoadFromFile(Present(text), parse, home);
      r.rewrite == (if Nested(s) then Some(n) else None)
      && forall k :: k in r.settings ==>
           r.settings[k] == if Get(n, k.Name()).Some? then Get(n, k.Name()).value else Defaults(home)[k]
  {
  }

  /** An object holding every setting under its name. */
  predicate Holds(saved: Value, e: Settings)
  {
    forall k :: k in e ==> Get(saved, k.Name()) == Some(e[k])
  }

  /**
   * Writing the loaded settings out flat (no `env` field) and loading again
   * gives the same settings, with no rewrite.
   */
  lemma SaveThenLoad(file: File, parse: string -> Option<Value>, home: string, saved: string)
    requires parse(saved).Some? && parse(saved).value.Obj?
    requires Holds(parse(saved).value, LoadFromFile(file, parse, home).settings)
    requires "env" !in parse(saved).value.fields
    ensures LoadFromFile(Present(saved), parse, home) == Loaded(LoadFromFile(file, parse, home).settings, None)
  {
    var m := LoadFromFile(file, parse, home).settings;
    assert Overlay(parse(saved).value, home) == m;
  }

  /**
   * The migration of a nested file is idempotent: once the flat object is
   * written back, loading it yields the same settings and no further rewrite,
   * provided the flat object does not itself carry an `env` object.
   */
  lemma MigrationIdempotent(text: string, parse: string -> Option<Value>, home: string, rewritten: string)
    requires parse(text).Some? && Nested(parse(text).value)
    requires parse(rewritten) == Some(Get(parse(text).value, "env").value)
    requires !Nested(Get(parse(text).value, "env").value)
    ensures LoadFromFile(Present(rewritten), parse, home) == Loaded(LoadFromFile(Present(text), parse, home).settings, None)
  {
  }

  /** The settings the context injection uses; a count `None` stands for NaN. */
  datatype ContextConfig = ContextConfig(
    totalObservationCount: Option<int>, fullObservationCount: Option<int>, sessionCount: Option<int>,
    showReadTokens: bool, showWorkTokens: bool, showSavingsAmount: bool, showSavingsPercent: bool,
    observationTypes: set<string>, observationConcepts: set<string>, fullObservationField: Value,
    showLastSummary: bool, showLastMessage: bool)

  /** The configuration `Qe` falls back to when reading the settings throws. */
  const Fallback: ContextConfig := ContextConfig(
    Some(50), Some(5), Some(10), true, true, true, true,
    NameSet(ObservationTypes), NameSet(ObservationConcepts), Str("narrative"), true, false)

  /** The names of a list, as a set. */
  function NameSet(names: seq<string>): set<string>
  {
    set n | n in names
  }

  /** `s.split(",").map(t => t.trim()).filter(Boolean)` collected into a set. */
  function ListSetting(s: string): set<string>
  {
    set p | p in Split(s, ',') && Trim(p) != [] :: Trim(p)
  }

  /** `=== "true"`: only the string itself, not a JSON boolean. */
  predicate Flag(v: Value)
  {
    v == Str("true")
  }

  /**
   * `Qe` on the loaded settings.  `parseInt` never throws, but `split` does
   * on anything but a string, and then the whole configuration is the
   * fallback.
   */
  function ContextSettings(e: Settings): (c: ContextConfig)
    requires Complete(e)
    ensures !e[ContextObservationTypes].Str? || !e[ContextObservationConcepts].Str? ==> c == Fallback
    ensures e[ContextObservationTypes].Str? && e[ContextObservationConcepts].Str? ==>
      c.totalObservationCount == ParseInt(ToJsString(e[ContextObservations]))
      && c.fullObservationCount == ParseInt(ToJsString(e[FullCount]))
      && c.sessionCount == ParseInt(ToJsString(e[SessionCount]))
      && (c.showReadTokens <==> e[ShowReadTokens] == Str("true"))
      && (c.showWorkTokens <==> e[ShowWorkTokens] == Str("true"))
      && (c.showSavingsAmount <==> e[ShowSavingsAmount] == Str("true"))
      && (c.showSavingsPercent <==> e[ShowSavingsPercent] == Str("true"))
      && (c.showLastSummary <==> e[ShowLastSummary] == Str("true"))
      && (c.showLastMessage <==> e[ShowLastMessage] == Str("true"))
      && c.observationTypes == ListSetting(e[ContextObservationTypes].s)
      && c.observationConcepts == ListSetting(e[ContextObservationConcepts].s)
      && c.fullObservationField == e[FullField]
  {
    var types := e[ContextObservationTypes];
    var concepts := e[ContextObservationConcepts];
    if !types.Str? || !concepts.Str? then Fallback
    else ContextConfig(
      ParseInt(ToJsString(e[ContextObservations])),
      ParseInt(ToJsString(e[FullCount])),
      ParseInt(ToJsString(e[SessionCount])),
      Flag(e[ShowReadTokens]),
      Flag(e[ShowWorkTokens]),
      Flag(e[ShowSavingsAmount]),
      Flag(e[ShowSavingsPercent]),
      ListSetting(types.s),
      ListSetting(concepts.s),
      e[FullField],
      Flag(e[ShowLastSummary]),
      Flag(e[ShowLastMessage]))
  }

  /** `Qe` as a whole: load the settings file, then read the context settings from it. */
  function LoadContextSettings(file: File, parse: string -> Option<Value>, home: string): ContextConfig
  {
    ContextSettings(LoadFromFile(file, parse, home).settings)
  }

  /** Lower-case letters and hyphens: the alphabet of the type and concept names. */
  predicate CleanName(n: string)
  {
    n != [] && forall i :: 0 <= i < |n| ==> ('a' <= n[i] <= 'z' || n[i] == '-')
  }

  /** Comma-joining clean names and reading them back as a list setting gives the same names. */
  lemma {:induction false} ListSettingOfJoin(names: seq<string>)
    requires |names| >= 1
    requires forall i :: 0 <= i < |names| ==> CleanName(names[i])
    ensures ListSetting(Join(names, ",")) == NameSet(names)
  {
    assert "," == [','];
    forall i | 0 <= i < |names| ensures ',' !in names[i] {
      assert CleanName(names[i]);
    }
    SplitJoin(names, ',');
    forall n | n in names ensures Trim(n) == n {
      TrimUnchanged(n);
    }
  }

  lemma DefaultListsClean()
    ensures forall i :: 0 <= i < |ObservationTypes| ==> CleanName(ObservationTypes[i])
    ensures forall i :: 0 <= i < |ObservationConcepts| ==> CleanName(ObservationConcepts[i])
  {
    assert CleanName("bugfix") && CleanName("feature") && CleanName("refactor");
    assert CleanName("discovery") && CleanName("decision") && CleanName("change");
    assert CleanName("how-it-works") && CleanName("why-it-exists") && CleanName("what-changed");
    assert CleanName("problem-solution") && CleanName("gotcha") && CleanName("pattern") && CleanName("trade-off");
  }

  /**
   * Settings holding counts as decimal strings and lists as comma-joined
   * clean names read back as exactly those counts and name sets.
   */
  lemma ReadBack(e: Settings, total: int, full: int, sessions: int, types: seq<string>, concepts: seq<string>)
    requires Complete(e)
    requires e[ContextObservations] == Str(IntToString(total))
    requires e[FullCount] == Str(IntToString(full))
    requires e[SessionCount] == Str(IntToString(sessions))
    requires |types| >= 1 && forall i :: 0 <= i < |types| ==> CleanName(types[i])
    requires |concepts| >= 1 && forall i :: 0 <= i < |concepts| ==> CleanName(concepts[i])
    requires e[ContextObservationTypes] == Str(Join(types, ","))
    requires e[ContextObservationConcepts] == Str(Join(concepts, ","))
    ensures var c := ContextSettings(e);
      c.totalObservationCount == Some(total) && c.fullObservationCount == Some(full)
      && c.sessionCount == Some(sessions)
      && c.observationTypes == NameSet(types) && c.observationConcepts == NameSet(concepts)
  {
    ParseIntOfString(total);
    ParseIntOfString(full);
    ParseIntOfString(sessions);
    ListSettingOfJoin(types);
    ListSettingOfJoin(concepts);
  }

  /** Settings that spell out the fallback's values read back as the fallback. */
  lemma ReadsAsFallback(e: Settings)
    requires Complete(e)
    requires e[ContextObservations] == Str(IntToString(50))
    requires e[FullCount] == Str(IntToString(5))
    requires e[SessionCount] == Str(IntToString(10))
    requires e[ContextObservationTypes] == Str(Join(ObservationTypes, ","))
    requires e[ContextObservationConcepts] == Str(Join(ObservationConcepts, ","))
    requires e[ShowReadTokens] == e[ShowWorkTokens] == e[ShowSavingsAmount] == e[ShowSavingsPercent] == Str("true")
    requires e[ShowLastSummary] == Str("true") && e[ShowLastMessage] == Str("false")
    requires e[FullField] == Str("narrative")
    ensures ContextSettings(e) == Fallback
  {
    DefaultListsClean();
    ReadBack(e, 50, 5, 10, ObservationTypes, ObservationConcepts);
  }

  /** Without a settings file the configuration agrees with the fallback, value for value. */
  lemma DefaultsMatchFallback(home: string)
    ensures ContextSettings(Defaults(home)) == Fallback
  {
    DefaultsEncoded(home);
    DefaultsTypes(home);
    DefaultsConcepts(home);
    DefaultsTokens(home);
    DefaultsSavings(home);
    DefaultsLast(home);
    ReadsAsFallback(Defaults(home));
  }

  lemma DefaultsTypes(home: string)
    ensures Defaults(home)[ContextObservationTypes] == Str(Join(ObservationTypes, ","))
  {
  }

  lemma DefaultsConcepts(home: string)
    ensures Defaults(home)[ContextObservationConcepts] == Str(Join(ObservationConcepts, ","))
  {
  }

  lemma DefaultsTokens(home: string)
    ensures Defaults(home)[ShowReadTokens] == Defaults(home)[ShowWorkTokens] == Str("true")
  {
  }

  lemma DefaultsSavings(home: string)
    ensures Defaults(home)[ShowSavingsAmount] == Defaults(home)[ShowSavingsPercent] == Str("true")
  {
  }

  lemma DefaultsLast(home: string)
    ensures Defaults(home)[ShowLastSummary] == Str("true") && Defaults(home)[ShowLastMessage] == Str("false")
    ensures Defaults(home)[FullField] == Str("narrative")
  {
  }

  lemma DefaultsEncoded(home: string)
    ensures Defaults(home)[ContextObservations] == Str(IntToString(50))
    ensures Defaults(home)[FullCount] == Str(IntToString(5))
    ensures Defaults(home)[SessionCount] == Str(IntToString(10))
  {
  }

  /** A count set as a JSON number or as its decimal string is read as that number. */
  lemma NumericCount(e: Settings, n: int)
    requires Complete(e)
    requires e[ContextObservationTypes].Str? && e[ContextObservationConcepts].Str?
    requires e[ContextObservations] in {Num(n), Str(IntToString(n))}
    ensures ContextSettings(e).totalObservationCount == Some(n)
  {
    ParseIntOfString(n);
  }
}
