/**
 * The search box's suggestion hook: a most-recent-first search history with
 * case-insensitive move-to-front, its persisted copy (the first ten
 * entries), and the suggestion list assembled from history, matching tags
 * and the `type:` shortcuts.  The tag fetch is a parameter (`None` when the
 * request itself fails); the 200 ms debounce is left out, so a call takes
 * effect at once.  Case folding is ASCII.
 */
module Suggestions {
  import opened Wrappers
  import opened Text
  import opened Lists

  const MaxHistory: nat := 10

  datatype Kind = HistoryEntry | TagEntry | TypeEntry

  /** A suggestion; `count` is the tag's usage count, for tag suggestions. */
  datatype Suggestion = Suggestion(text: string, kind: Kind, count: Option<int>)

  /** A tag as the tag-search endpoint returns it. */
  datatype Tag = Tag(tagName: string, usageCount: int)

  /** `h.toLowerCase() === cleaned`. */
  function SameQuery(cleaned: string): string -> bool
  {
    (h: string) => Lower(h) == cleaned
  }

  function OtherQuery(cleaned: string): string -> bool
  {
    (h: string) => Lower(h) != cleaned
  }

  /** `history.find(h => h.toLowerCase() === cleaned)`. */
  function Find(history: seq<string>, cleaned: string): (r: Option<string>)
    ensures r.Some? ==> exists i :: 0 <= i < |history| && history[i] == r.value && Lower(r.value) == cleaned
                          && forall j :: 0 <= j < i ==> Lower(history[j]) != cleaned
    ensures r.None? ==> forall h :: h in history ==> Lower(h) != cleaned
  {
    if history == [] then None
    else if Lower(history[0]) == cleaned then Some(history[0])
    else
      var r := Find(history[1..], cleaned);
      assert forall h :: h in history ==> h == history[0] || h in history[1..];
      if r.Some? then
        var i :| 0 <= i < |history[1..]| && history[1..][i] == r.value && Lower(r.value) == cleaned
                 && forall j :: 0 <= j < i ==> Lower(history[1..][j]) != cleaned;
        assert history[i + 1] == r.value;
        r
      else r
  }

  /**
   * `addToHistory` on the list: a blank query changes nothing; otherwise the
   * first entry equal to the trimmed query ignoring case moves to the front
   * (in its own casing) and every other such entry goes, or, when there is
   * none, the trimmed query is prepended.
   */
  function AddedToHistory(history: seq<string>, query: string): (r: seq<string>)
    ensures IsBlank(query) ==> r == history
    ensures !IsBlank(query) ==> |r| <= |history| + 1
  {
    if IsBlank(query) then history
    else
      var cleaned := Lower(Trim(query));
      match Find(history, cleaned)
      case Some(e) => [e] + Filter(history, OtherQuery(cleaned))
      case None => [Trim(query)] + history
  }

  /**
   * After a non-blank query is added, the front entry is that query up to
   * case and it is the only such entry; the rest of the list is the old
   * list minus its matches, in order.
   */
  lemma AddedToHistorySpec(history: seq<string>, query: string)
    requires !IsBlank(query)
    ensures var r, cleaned := AddedToHistory(history, query), Lower(Trim(query));
      |r| > 0 && Lower(r[0]) == cleaned
      && r[1..] == Filter(history, OtherQuery(cleaned))
      && forall i :: 0 < i < |r| ==> Lower(r[i]) != cleaned
  {
    var cleaned := Lower(Trim(query));
    var r := AddedToHistory(history, query);
    if Find(history, cleaned).None? {
      FilterAll(history, OtherQuery(cleaned));
      assert r[1..] == history;
    } else {
      assert r[1..] == Filter(history, OtherQuery(cleaned));
    }
    forall i | 0 < i < |r| ensures Lower(r[i]) != cleaned {
      assert r[i] in r[1..];
    }
  }

  /** Adding the same query twice in a row is adding it once. */
  lemma AddedToHistoryIdempotent(history: seq<string>, query: string)
    ensures AddedToHistory(AddedToHistory(history, query), query) == AddedToHistory(history, query)
  {
    if !IsBlank(query) {
      var cleaned := Lower(Trim(query));
      var r := AddedToHistory(history, query);
      AddedToHistorySpec(history, query);
      assert Find(r, cleaned) == Some(r[0]);
      FilterAll(r[1..], OtherQuery(cleaned));
      assert r == [r[0]] + r[1..];
      FilterAppend([r[0]], r[1..], OtherQuery(cleaned));
      FilterOne(r[0], OtherQuery(cleaned));
    }
  }

  /** Entries other than the query are kept, in order: nothing else is lost. */
  lemma AddedToHistoryKeeps(history: seq<string>, query: string, h: string)
    requires !IsBlank(query) && h in history && Lower(h) != Lower(Trim(query))
    ensures h in AddedToHistory(history, query)
  {
    FilterMember(history, OtherQuery(Lower(Trim(query))), h);
  }

  const PopularTypes: seq<string> := ["decision", "bugfix", "feature", "refactor", "discovery"]

  function AsHistory(q: string): Suggestion
  {
    Suggestion(q, HistoryEntry, None)
  }

  function AsTag(t: Tag): Suggestion
  {
    Suggestion(t.tagName, TagEntry, Some(t.usageCount))
  }

  function MatchesInput(input: string): string -> bool
  {
    (h: string) => Contains(Lower(h), Lower(input))
  }

  function TypeShortcut(t: string): Suggestion
  {
    Suggestion("type:" + t, TypeEntry, None)
  }

  function TypeMatches(input: string): string -> bool
  {
    (t: string) => Contains(t, Lower(input))
  }

  /** How many of `n` candidates a `.slice(0, 3)` keeps. */
  function UpToThree(n: nat): nat
  {
    if n <= 3 then n else 3
  }

  /** Up to three history entries containing the input, ignoring case. */
  function HistoryPart(history: seq<string>, input: string): (r: seq<Suggestion>)
    ensures |r| <= 3
    ensures |r| == UpToThree(|Filter(history, MatchesInput(input))|)
    ensures forall i :: 0 <= i < |r| ==> r[i] == AsHistory(Filter(history, MatchesInput(input))[i])
    ensures forall i :: 0 <= i < |r| ==>
      r[i].kind == HistoryEntry && r[i].text in history && Contains(Lower(r[i].text), Lower(input))
  {
    var matches := Filter(history, MatchesInput(input));
    var firstThree := Take(matches, 3);
    forall i | 0 <= i < |firstThree| ensures firstThree[i] in matches {
    }
    Map(firstThree, AsHistory)
  }

  /** `s` is the shortcut of a popular type containing the lower-cased input. */
  predicate ShortcutFor(s: Suggestion, input: string)
  {
    exists t :: t in PopularTypes && Contains(t, Lower(input)) && s.text == "type:" + t
  }

  /** The popular types containing the lower-cased input, as `type:` shortcuts. */
  function TypePart(input: string): (r: seq<Suggestion>)
    ensures forall i :: 0 <= i < |r| ==> r[i].kind == TypeEntry && ShortcutFor(r[i], input)
  {
    var types := Filter(PopularTypes, TypeMatches(input));
    var r := Map(types, TypeShortcut);
    forall i | 0 <= i < |r| ensures ShortcutFor(r[i], input) {
      assert types[i] in types;
    }
    r
  }

  /** Tags and type shortcuts, asked for only when the input has two or more characters. */
  function ResultsPart(input: string, tags: seq<Tag>): (r: seq<Suggestion>)
    ensures |input| < 2 ==> r == []
    ensures forall i :: 0 <= i < |r| ==> r[i].kind != HistoryEntry
    ensures forall i :: 0 <= i < |r| && r[i].kind == TypeEntry ==> ShortcutFor(r[i], input)
    ensures |input| >= 2 ==> |r| == UpToThree(|tags|) + |TypePart(input)|
    ensures forall i :: 0 <= i < |r| ==> (r[i].kind == TagEntry <==> i < UpToThree(|tags|))
    ensures forall i :: 0 <= i < |r| && i < UpToThree(|tags|) ==> r[i] == AsTag(tags[i])
  {
    if |input| >= 2 then
      var tagPart, types := Map(Take(tags, 3), AsTag), TypePart(input);
      TagPartFacts(tags);
      forall i | 0 <= i < |tagPart + types|
        ensures (tagPart + types)[i].kind != HistoryEntry
        ensures (tagPart + types)[i].kind == TypeEntry ==> ShortcutFor((tagPart + types)[i], input)
        ensures (tagPart + types)[i].kind == TagEntry <==> i < |tagPart|
        ensures i < |tagPart| ==> (tagPart + types)[i] == AsTag(tags[i])
      {
        PartsAt(tags, tagPart, types, input, i);
      }
      tagPart + types
    else []
  }

  /** The first three tags, as tag suggestions in the endpoint's order. */
  lemma TagPartFacts(tags: seq<Tag>)
    ensures |Map(Take(tags, 3), AsTag)| == UpToThree(|tags|)
    ensures forall i :: 0 <= i < UpToThree(|tags|) ==>
      Map(Take(tags, 3), AsTag)[i] == AsTag(tags[i]) && Map(Take(tags, 3), AsTag)[i].kind == TagEntry
  {
  }

  /** One position of the tags followed by the type shortcuts. */
  lemma PartsAt(tags: seq<Tag>, tagPart: seq<Suggestion>, types: seq<Suggestion>, input: string, i: nat)
    requires |tagPart| <= |tags|
    requires forall j :: 0 <= j < |tagPart| ==> tagPart[j] == AsTag(tags[j]) && tagPart[j].kind == TagEntry
    requires forall j :: 0 <= j < |types| ==> types[j].kind == TypeEntry && ShortcutFor(types[j], input)
    requires i < |tagPart + types|
    ensures (tagPart + types)[i].kind != HistoryEntry
    ensures (tagPart + types)[i].kind == TypeEntry ==> ShortcutFor((tagPart + types)[i], input)
    ensures (tagPart + types)[i].kind == TagEntry <==> i < |tagPart|
    ensures i < |tagPart| ==> (tagPart + types)[i] == AsTag(tags[i])
  {
    if i >= |tagPart| {
      assert (tagPart + types)[i] == types[i - |tagPart|];
    }
  }

  /**
   * The suggestions for a non-blank input once the tags are in: up to three
   * matching history entries, then (for inputs of two or more characters)
   * up to three tags and the matching `type:` shortcuts, cut to eight.
   */
  function Assemble(history: seq<string>, input: string, tags: seq<Tag>): (r: seq<Suggestion>)
    ensures |r| <= 8
  {
    Take(HistoryPart(history, input) + ResultsPart(input, tags), 8)
  }

  /** For a blank input: the five most recent history entries. */
  function Recent(history: seq<string>): (r: seq<Suggestion>)
    ensures |r| <= 5 && |r| <= |history|
    ensures forall i :: 0 <= i < |r| ==> r[i] == AsHistory(history[i])
  {
    Map(Take(history, 5), AsHistory)
  }

  /**
   * What the assembled list holds: history matches come first and number at
   * most three, each of them containing the input up to case; a one-character
   * input gets history suggestions only; every `type:` suggestion names a
   * popular type containing the lower-cased input.
   */
  lemma AssembleSpec(history: seq<string>, input: string, tags: seq<Tag>)
    ensures var r := Assemble(history, input, tags);
      (forall i, j :: 0 <= i < j < |r| && r[j].kind == HistoryEntry ==> r[i].kind == HistoryEntry)
      && (forall i :: 0 <= i < |r| && r[i].kind == HistoryEntry ==> i < 3 && r[i].text in history && Contains(Lower(r[i].text), Lower(input)))
      && (|input| < 2 ==> forall i :: 0 <= i < |r| ==> r[i].kind == HistoryEntry)
      && (forall i :: 0 <= i < |r| && r[i].kind == TypeEntry ==> ShortcutFor(r[i], input))
  {
    var r := Assemble(history, input, tags);
    forall i | 0 <= i < |r|
      ensures (r[i].kind == HistoryEntry <==> i < |HistoryPart(history, input)|)
      ensures r[i].kind == HistoryEntry ==> i < 3 && r[i].text in history && Contains(Lower(r[i].text), Lower(input))
      ensures |input| < 2 ==> r[i].kind == HistoryEntry
      ensures r[i].kind == TypeEntry ==> ShortcutFor(r[i], input)
    {
      AssembleEntry(history, input, tags, i);
    }
  }

  /**
   * How long the assembled list is: up to three history matches plus the
   * results part, cut to eight.
   */
  lemma AssembleLength(history: seq<string>, input: string, tags: seq<Tag>)
    ensures |Assemble(history, input, tags)| ==
      var n := UpToThree(|Filter(history, MatchesInput(input))|) + |ResultsPart(input, tags)|;
      if n <= 8 then n else 8
  {
  }

  /**
   * The history entries shown are the first three that contain the input
   * (ignoring case), in history order.
   */
  lemma AssembleHistoryShown(history: seq<string>, input: string, tags: seq<Tag>)
    ensures forall i :: 0 <= i < |Assemble(history, input, tags)| && i < UpToThree(|Filter(history, MatchesInput(input))|) ==>
      Assemble(history, input, tags)[i] == AsHistory(Filter(history, MatchesInput(input))[i])
  {
    var h := HistoryPart(history, input);
    forall i | 0 <= i < |Assemble(history, input, tags)| && i < |h|
      ensures Assemble(history, input, tags)[i] == h[i]
    {
      AssembleAt(history, input, tags, i);
    }
  }

  /**
   * The tag suggestions sit right after the history matches and number at
   * most three: the positions they take are exactly the next `min(3, |tags|)`.
   */
  lemma AssembleTagPositions(history: seq<string>, input: string, tags: seq<Tag>)
    ensures forall i :: 0 <= i < |Assemble(history, input, tags)| ==>
      (Assemble(history, input, tags)[i].kind == TagEntry <==>
       UpToThree(|Filter(history, MatchesInput(input))|) <= i < UpToThree(|Filter(history, MatchesInput(input))|) + UpToThree(|tags|))
  {
    var h, res := HistoryPart(history, input), ResultsPart(input, tags);
    forall i | 0 <= i < |Assemble(history, input, tags)|
      ensures Assemble(history, input, tags)[i].kind == TagEntry <==> |h| <= i < |h| + UpToThree(|tags|)
    {
      AssembleAt(history, input, tags, i);
      if i >= |h| {
        assert res[i - |h|].kind == TagEntry <==> i - |h| < UpToThree(|tags|);
      }
    }
  }

  /** The tags shown are the first three the endpoint returned, in its order. */
  lemma AssembleTagsShown(history: seq<string>, input: string, tags: seq<Tag>)
    ensures forall j :: 0 <= j < UpToThree(|tags|) && UpToThree(|Filter(history, MatchesInput(input))|) + j < |Assemble(history, input, tags)| ==>
      Assemble(history, input, tags)[UpToThree(|Filter(history, MatchesInput(input))|) + j] == AsTag(tags[j])
  {
    var h, res := HistoryPart(history, input), ResultsPart(input, tags);
    forall j | 0 <= j < UpToThree(|tags|) && |h| + j < |Take(h + res, 8)|
      ensures Take(h + res, 8)[|h| + j] == AsTag(tags[j])
    {
      TakeAfterPrefix(h, res, 8, j);
    }
  }

  /** Past the first part, a cut concatenation holds the second part. */
  lemma TakeAfterPrefix<T>(a: seq<T>, b: seq<T>, k: nat, j: nat)
    requires |a| + j < |Take(a + b, k)|
    ensures j < |b| && Take(a + b, k)[|a| + j] == b[j]
  {
  }

  /** What one position of the list holds, by the part it comes from. */
  lemma AssembleEntry(history: seq<string>, input: string, tags: seq<Tag>, i: nat)
    requires i < |Assemble(history, input, tags)|
    ensures var r := Assemble(history, input, tags);
      && (r[i].kind == HistoryEntry <==> i < |HistoryPart(history, input)|)
      && (r[i].kind == HistoryEntry ==> i < 3 && r[i].text in history && Contains(Lower(r[i].text), Lower(input)))
      && (|input| < 2 ==> r[i].kind == HistoryEntry)
      && (r[i].kind == TypeEntry ==> ShortcutFor(r[i], input))
  {
    var h, res := HistoryPart(history, input), ResultsPart(input, tags);
    AssembleAt(history, input, tags, i);
    if i >= |h| {
      assert res[i - |h|].kind != HistoryEntry;
    }
  }

  /** Position `i` of the list comes from the history part exactly when `i` is within it. */
  lemma AssembleAt(history: seq<string>, input: string, tags: seq<Tag>, i: nat)
    requires i < |Assemble(history, input, tags)|
    ensures var r, h, res := Assemble(history, input, tags), HistoryPart(history, input), ResultsPart(input, tags);
      (i < |h| ==> r[i] == h[i]) && (i >= |h| ==> r[i] == res[i - |h|])
  {
    var h, res := HistoryPart(history, input), ResultsPart(input, tags);
    assert Assemble(history, input, tags)[i] == (h + res)[i];
  }

  /** The hook's state: `historyRef`, the stored copy, and what is shown. */
  class SearchSuggestions {
    var history: seq<string>
    var stored: Option<seq<string>>
    var suggestions: seq<Suggestion>
    var query: string
    var isLoading: bool
    const storageAvailable: bool

    /**
     * Mounting: with storage available and a non-empty saved value, the
     * history is what the saved text parses to, or empty when it does not
     * parse.
     */
    constructor(storageAvailable: bool, saved: Option<string>, stored: Option<seq<string>>,
                parse: string -> Option<seq<string>>)
      ensures this.storageAvailable == storageAvailable && this.stored == stored
      ensures history == (if storageAvailable && saved.Some? && saved.value != [] then parse(saved.value).GetOr([]) else [])
      ensures suggestions == [] && query == [] && !isLoading
    {
      this.storageAvailable := storageAvailable;
      this.stored := stored;
      suggestions := [];
      query := [];
      isLoading := false;
      if storageAvailable && saved.Some? && saved.value != [] {
        history := parse(saved.value).GetOr([]);
      } else {
        history := [];
      }
    }

    /** `saveHistory`: persist the first ten entries, when storage exists. */
    method SaveHistory()
      modifies this
      ensures history == old(history) && suggestions == old(suggestions) && query == old(query)
      ensures isLoading == old(isLoading)
      ensures stored == if storageAvailable then Some(Take(history, MaxHistory)) else old(stored)
      ensures stored.Some? && storageAvailable ==> |stored.value| <= MaxHistory
    {
      if storageAvailable {
        stored := Some(Take(history, MaxHistory));
      }
    }

    /** `addToHistory`: move to front (or prepend), then save. */
    method AddToHistory(searchQuery: string)
      modifies this
      ensures history == AddedToHistory(old(history), searchQuery)
      ensures suggestions == old(suggestions) && query == old(query) && isLoading == old(isLoading)
      ensures IsBlank(searchQuery) ==> stored == old(stored)
      ensures !IsBlank(searchQuery) && storageAvailable ==> stored == Some(Take(history, MaxHistory))
      ensures !IsBlank(searchQuery) && !storageAvailable ==> stored == old(stored)
    {
      if IsBlank(searchQuery) {
        return;
      }
      var cleaned := Lower(Trim(searchQuery));
      var found := Find(history, cleaned);
      if found.Some? {
        history := [found.value] + Filter(history, OtherQuery(cleaned));
      } else {
        history := [Trim(searchQuery)] + history;
      }
      SaveHistory();
    }

    /**
     * `getSuggestions`, with the tag search's answer given (`None` when the
     * request fails, which leaves the shown list as it was).
     */
    method GetSuggestions(input: string, tagResults: Option<seq<Tag>>)
      modifies this
      ensures query == input && history == old(history) && stored == old(stored)
      ensures IsBlank(input) ==> suggestions == Recent(history) && isLoading == old(isLoading)
      ensures !IsBlank(input) ==> !isLoading
      ensures !IsBlank(input) && (|input| < 2 || tagResults.Some?) ==>
        suggestions == Assemble(history, input, tagResults.GetOr([]))
      ensures !IsBlank(input) && |input| >= 2 && tagResults.None? ==> suggestions == old(suggestions)
    {
      query := input;
      if IsBlank(input) {
        suggestions := Recent(history);
        return;
      }
      isLoading := true;
      if |input| >= 2 && tagResults.None? {
        isLoading := false;
        return;
      }
      suggestions := Assemble(history, input, tagResults.GetOr([]));
      isLoading := false;
    }

    /** `clearSuggestions`: nothing shown, the query emptied. */
    method ClearSuggestions()
      modifies this
      ensures suggestions == [] && query == []
      ensures history == old(history) && stored == old(stored) && isLoading == old(isLoading)
    {
      suggestions := [];
      query := [];
    }
  }
}
