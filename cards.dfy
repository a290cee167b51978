/**
 * The read-only helpers of the viewer's tool-execution and AI-response
 * cards: shortening a file path for display, tolerant JSON parsing, and the
 * icon and colour tables.  `JSON.parse` is a parameter (a partial function
 * answering `None` where it would throw).
 */
module Cards {
  import opened Wrappers
  import opened Text

  /** The project markers, in the order `stripProjectRoot` tries them. */
  const Markers: seq<string> := ["/Scripts/", "/src/", "/plugin/", "/docs/"]

  const ProjectDir: string := "claude-mem/"

  /**
   * The position, from `i` on, of the first marker in list order that occurs
   * anywhere in `path`; `|Markers|` when none does.
   */
  function FirstMarker(path: string, i: nat): (k: nat)
    requires i <= |Markers|
    ensures i <= k <= |Markers|
    ensures forall j :: i <= j < k ==> !Contains(path, Markers[j])
    ensures k < |Markers| ==> Contains(path, Markers[k])
    decreases |Markers| - i
  {
    IndexOfContains(path, if i < |Markers| then Markers[i] else "");
    if i == |Markers| then i
    else if IndexOf(path, Markers[i]) != -1 then i
    else FirstMarker(path, i + 1)
  }

  /**
   * `stripProjectRoot`: after the first marker (in list order) that occurs,
   * keeping the marker without its leading slash; else after the first
   * `claude-mem/`; else the last three `/`-segments when there are more
   * than three; else the path itself.
   */
  function StripProjectRoot(path: string): (r: string)
  {
    var k := FirstMarker(path, 0);
    if k < |Markers| then
      IndexOfContains(path, Markers[k]);
      assert |Markers[k]| >= 1;
      path[IndexOf(path, Markers[k]) + 1..]
    else if IndexOf(path, ProjectDir) != -1 then
      path[IndexOf(path, ProjectDir) + |ProjectDir|..]
    else
      var parts := Split(path, '/');
      if |parts| > 3 then Join(parts[|parts| - 3..], "/") else path
  }

  /** Every branch returns a suffix of the path. */
  lemma StripProjectRootSuffix(path: string)
    ensures EndsWith(path, StripProjectRoot(path))
  {
    var parts := Split(path, '/');
    if FirstMarker(path, 0) == |Markers| && IndexOf(path, ProjectDir) == -1 && |parts| > 3 {
      JoinSuffix(parts, "/", |parts| - 3);
    }
  }

  /**
   * When some marker occurs, the result starts at the first occurrence of the
   * first such marker in list order, just after its leading slash.
   */
  lemma StripProjectRootMarker(path: string)
    requires exists m :: 0 <= m < |Markers| && Contains(path, Markers[m])
    ensures var k := FirstMarker(path, 0);
      k < |Markers|
      && (forall j :: 0 <= j < k ==> !Contains(path, Markers[j]))
      && (exists i :: OccursAt(path, Markers[k], i)
           && (forall j :: 0 <= j < i ==> !OccursAt(path, Markers[k], j))
           && StripProjectRoot(path) == path[i + 1..])
  {
    var k := FirstMarker(path, 0);
    IndexOfContains(path, Markers[k]);
    IndexOfFirst(path, Markers[k]);
    var i := IndexOf(path, Markers[k]);
    assert OccursAt(path, Markers[k], i);
  }

  const Example: string := "/a/docs/src/x"

  lemma ExampleHasNoScripts()
    ensures !Contains(Example, Markers[0])
  {
    forall i | 0 <= i <= |Example| ensures !OccursAt(Example, Markers[0], i) {
      if i + 9 <= |Example| {
        assert Example[i..i + 9][1] == Example[i + 1] != 'S';
      }
    }
  }

  lemma ExampleSrcAt()
    ensures IndexOf(Example, Markers[1]) == 7
  {
    assert OccursAt(Example, Markers[1], 7);
    forall j | 0 <= j < 7 ensures !OccursAt(Example, Markers[1], j) {
      assert Example[j..j + 5][0] == Example[j] && Example[j..j + 5][1] == Example[j + 1];
    }
    IndexOfAt(Example, Markers[1], 7);
  }

  /** List order, not position, decides: `/src/` wins over an earlier `/docs/`. */
  lemma StripProjectRootListOrder()
    ensures StripProjectRoot(Example) == "src/x"
  {
    ExampleHasNoScripts();
    ExampleSrcAt();
    IndexOfContains(Example, Markers[0]);
    assert FirstMarker(Example, 0) == 1;
  }

  /**
   * Without a marker but with `claude-mem/`, the result is what follows its
   * first occurrence.
   */
  lemma StripProjectRootProjectDir(path: string)
    requires forall m :: m in Markers ==> !Contains(path, m)
    requires Contains(path, ProjectDir)
    ensures exists i :: (OccursAt(path, ProjectDir, i)
      && (forall j :: 0 <= j < i ==> !OccursAt(path, ProjectDir, j))
      && StripProjectRoot(path) == path[i + |ProjectDir|..])
  {
    IndexOfContains(path, ProjectDir);
    IndexOfFirst(path, ProjectDir);
    assert OccursAt(path, ProjectDir, IndexOf(path, ProjectDir));
  }

  /**
   * With neither, a path of more than three segments comes back as exactly
   * its last three segments, and a shorter one unchanged.
   */
  lemma StripProjectRootSegments(path: string)
    requires forall m :: m in Markers ==> !Contains(path, m)
    requires !Contains(path, ProjectDir)
    ensures var parts, r := Split(path, '/'), StripProjectRoot(path);
      (|parts| > 3 ==> Split(r, '/') == parts[|parts| - 3..])
      && (|parts| <= 3 ==> r == path)
  {
    IndexOfContains(path, ProjectDir);
    var parts := Split(path, '/');
    if |parts| > 3 {
      SplitJoin(parts[|parts| - 3..], '/');
    }
  }

  /**
   * `parseJsonSafely`: `[]` for a null or empty string and for text the
   * parser rejects; the parsed value otherwise.
   */
  function ParseJsonSafely<J>(text: Option<string>, parse: string -> Option<J>, emptyArray: J): (r: J)
    ensures r == emptyArray || (text.Some? && parse(text.value) == Some(r))
    ensures text.None? || text.value == [] || parse(text.value).None? ==> r == emptyArray
    ensures text.Some? && text.value != [] && parse(text.value).Some? ==> r == parse(text.value).value
  {
    match text
    case None => emptyArray
    case Some(s) =>
      if s == [] then emptyArray
      else match parse(s)
        case None => emptyArray
        case Some(v) => v
  }

  /** The card parses a tool field only when it is present and non-empty; otherwise it shows null. */
  function ToolField<J>(field: Option<string>, parse: string -> Option<J>, emptyArray: J): (r: Option<J>)
    ensures r.Some? <==> field.Some? && field.value != []
    ensures r.Some? ==> r.value == ParseJsonSafely(field, parse, emptyArray)
  {
    if field.Some? && field.value != [] then Some(ParseJsonSafely(field, parse, emptyArray)) else None
  }

  datatype FileOperation = Created | Modified | Read | Deleted

  /** The operation named by a string, if it is one of the four. */
  function OperationOf(op: string): (r: Option<FileOperation>)
    ensures r == Some(Created) <==> op == "created"
    ensures r == Some(Modified) <==> op == "modified"
    ensures r == Some(Read) <==> op == "read"
    ensures r == Some(Deleted) <==> op == "deleted"
  {
    if op == "created" then Some(Created)
    else if op == "modified" then Some(Modified)
    else if op == "read" then Some(Read)
    else if op == "deleted" then Some(Deleted)
    else None
  }

  /** Sparkles, memo, open book, wastebasket; page for anything else. */
  const IconCreated: string := "\U{2728}"
  const IconModified: string := "\U{1F4DD}"
  const IconRead: string := "\U{1F4D6}"
  const IconDeleted: string := "\U{1F5D1}\U{FE0F}"
  const IconOther: string := "\U{1F4C4}"

  /** `getFileOperationIcon`. */
  function FileOperationIcon(op: string): (icon: string)
    ensures icon == IconOther <==> OperationOf(op).None?
  {
    match OperationOf(op)
    case Some(Created) => IconCreated
    case Some(Modified) => IconModified
    case Some(Read) => IconRead
    case Some(Deleted) => IconDeleted
    case None => IconOther
  }

  /** Each of the four operations has an icon of its own, and every other string shares the page icon. */
  lemma FileOperationIconDistinct(a: string, b: string)
    ensures OperationOf(a).Some? && OperationOf(a) != OperationOf(b) ==> FileOperationIcon(a) != FileOperationIcon(b)
    ensures OperationOf(a).None? && OperationOf(b).None? ==> FileOperationIcon(a) == FileOperationIcon(b)
  {
  }

  /** A background and a text colour. */
  datatype Style = Style(bg: string, color: string)

  const Blue := Style("#1e40af", "#dbeafe")
  const Green := Style("#059669", "#d1fae5")
  const Red := Style("#dc2626", "#fecaca")
  const Gray := Style("#6b7280", "#f3f4f6")

  /** `getExecutionStatusStyle`: green exactly for a success, red otherwise. */
  function ExecutionStatusStyle(success: bool): (s: Style)
    ensures s == Green <==> success
    ensures s == Red <==> !success
  {
    if success then Green else Red
  }

  /** `getResponseTypeStyle`. */
  function ResponseTypeStyle(responseType: string): (s: Style)
    ensures s == Blue <==> responseType == "assistant"
    ensures s == Green <==> responseType == "tool_result"
    ensures s == Red <==> responseType == "error"
    ensures s == Gray <==> responseType !in {"assistant", "tool_result", "error"}
  {
    if responseType == "assistant" then Blue
    else if responseType == "tool_result" then Green
    else if responseType == "error" then Red
    else Gray
  }

  /** A tool result and a successful execution are drawn alike, an error and a failure alike. */
  lemma StylesAgree(responseType: string, success: bool)
    ensures ResponseTypeStyle(responseType) == ExecutionStatusStyle(success) <==>
      (responseType == "tool_result" && success) || (responseType == "error" && !success)
  {
  }
}
