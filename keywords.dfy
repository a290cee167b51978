/**
 * Keyword query compilation for SQLite FTS5: the store's `validateKeywords`,
 * `buildFTS5Query` and the paging of `getAiResponsesWithKeywords`, plus the
 * stand-alone copy of the validator kept beside its unit tests, whose
 * whitelist also admits the single quote.
 */
module Keywords {
  import opened Text
  import opened Wrappers
  import opened Lists

  /** Which copy of the validator: the bundled store's, or the test file's wider one. */
  datatype Whitelist = Bundled | TestCopy

  datatype Logic = And | Or
  {
    function Name(): string
    {
      match this
      case And => "AND"
      case Or => "OR"
    }
  }

  const MaxKeywordLength: nat := 100

  /** One character of `[a-zA-Z0-9\s\-_\.@:,]` (and `'` in the test copy). */
  predicate AllowedChar(c: char, w: Whitelist)
  {
    ('a' <= c <= 'z') || ('A' <= c <= 'Z') || ('0' <= c <= '9') || IsJsSpace(c)
    || c == '-' || c == '_' || c == '.' || c == '@' || c == ':' || c == ','
    || (w == TestCopy && c == '\'')
  }

  predicate AllAllowed(k: seq<char>, w: Whitelist)
  {
    forall c :: c in k ==> AllowedChar(c, w)
  }

  /** The anchored pattern `^[...]+$`: non-empty and every character allowed. */
  predicate Whitelisted(k: seq<char>, w: Whitelist)
  {
    |k| > 0 && AllAllowed(k, w)
  }

  lemma {:induction false} AllAllowedAt(k: seq<char>, w: Whitelist, i: int)
    requires AllAllowed(k, w) && 0 <= i < |k|
    ensures AllowedChar(k[i], w)
  {
    if i > 0 {
      AllAllowedAt(k[1..], w, i - 1);
    }
  }

  /** The four "dangerous operator" tests, in the order the source runs them. */
  predicate HasDangerousOperator(k: seq<char>)
  {
    HasWholeWord(k, "or") || HasWholeWord(k, "not") || IndexOf(Lower(k), "near(") != -1 || IndexOf(k, "*") != -1
  }

  /** The filter predicate of `validateKeywords`: which keywords survive. */
  predicate Admissible(k: seq<char>, w: Whitelist)
  {
    Trim(k) != [] && |k| <= MaxKeywordLength && Whitelisted(k, w) && !HasDangerousOperator(k)
  }

  /** The filter callback of `validateKeywords`, as a value. */
  function KeepUnder(w: Whitelist): seq<char> -> bool
  {
    k => Admissible(k, w)
  }

  /** `keywords.filter(admissible).map(trim)`. */
  function ValidateKeywords(ks: seq<seq<char>>, w: Whitelist): (r: seq<seq<char>>)
    ensures |r| <= |ks|
  {
    Map(Filter(ks, KeepUnder(w)), Trim)
  }

  /** Every survivor is the trimmed form of an admissible input keyword. */
  lemma ValidateSound(ks: seq<seq<char>>, w: Whitelist, j: nat) returns (i: nat)
    requires j < |ValidateKeywords(ks, w)|
    ensures i < |ks| && Admissible(ks[i], w) && ValidateKeywords(ks, w)[j] == Trim(ks[i])
  {
    i := FilterOrigin(ks, KeepUnder(w), j);
  }

  /** Every admissible input keyword survives, trimmed. */
  lemma ValidateComplete(ks: seq<seq<char>>, w: Whitelist, i: nat)
    requires i < |ks| && Admissible(ks[i], w)
    ensures Trim(ks[i]) in ValidateKeywords(ks, w)
  {
    FilterKeeps(ks, KeepUnder(w), i);
    var f := Filter(ks, KeepUnder(w));
    var j :| 0 <= j < |f| && f[j] == ks[i];
    assert ValidateKeywords(ks, w)[j] == Trim(ks[i]);
  }

  /** Validation goes keyword by keyword: it distributes over concatenation, so input order is kept. */
  lemma ValidateAppend(a: seq<seq<char>>, b: seq<seq<char>>, w: Whitelist)
    ensures ValidateKeywords(a + b, w) == ValidateKeywords(a, w) + ValidateKeywords(b, w)
  {
    FilterAppend(a, b, KeepUnder(w));
    var fa, fb := Filter(a, KeepUnder(w)), Filter(b, KeepUnder(w));
    assert Map(fa + fb, Trim) == Map(fa, Trim) + Map(fb, Trim);
  }

  /** A single keyword survives, trimmed, exactly when it is admissible. */
  lemma ValidateOne(k: seq<char>, w: Whitelist)
    ensures ValidateKeywords([k], w) == if Admissible(k, w) then [Trim(k)] else []
  {
    FilterOne(k, KeepUnder(w));
  }

  lemma CharNotInSeq(s: seq<char>, sub: seq<char>, c: char, j: nat)
    requires j < |sub| && sub[j] == c && c !in s
    ensures IndexOf(s, sub) == -1
  {
  }

  /**
   * Neither whitelist admits `"`, `(` or `*`, so for a whitelisted keyword the
   * `NEAR(` test and the wildcard test can never fire.
   */
  lemma {:induction false} WhitelistExcludesOperatorChars(k: seq<char>, w: Whitelist)
    requires Whitelisted(k, w)
    ensures '"' !in k && '(' !in k && '*' !in k
    ensures IndexOf(Lower(k), "near(") == -1 && IndexOf(k, "*") == -1
  {
    forall i | 0 <= i < |k| ensures k[i] != '"' && k[i] != '(' && k[i] != '*' {
      AllAllowedAt(k, w, i);
    }
    assert '(' !in Lower(k) by {
      forall i | 0 <= i < |k| ensures Lower(k)[i] != '(' {
        assert Lower(k)[i] == LowerChar(k[i]);
      }
    }
    CharNotInSeq(Lower(k), "near(", '(', 4);
    CharNotInSeq(k, "*", '*', 0);
  }

  /** The filter therefore reduces to blank, length, whitelist and the two whole-word tests. */
  lemma AdmissibleReduced(k: seq<char>, w: Whitelist)
    ensures Admissible(k, w) <==>
      (Trim(k) != [] && |k| <= MaxKeywordLength && Whitelisted(k, w)
       && !HasWholeWord(k, "or") && !HasWholeWord(k, "not"))
  {
    if Whitelisted(k, w) {
      WhitelistExcludesOperatorChars(k, w);
    }
  }

  /** `s.replace(/"/g, '""')`. */
  function EscapeQuotes(s: seq<char>): (r: seq<char>)
    ensures |r| >= |s|
    ensures '"' !in s ==> r == s
  {
    if s == [] then []
    else if s[0] == '"' then "\"\"" + EscapeQuotes(s[1..])
    else [s[0]] + EscapeQuotes(s[1..])
  }

  /** `"<keyword>"`: an FTS5 phrase. */
  function Phrase(k: seq<char>): seq<char>
  {
    "\"" + EscapeQuotes(k) + "\""
  }

  function Phrases(ks: seq<seq<char>>): (r: seq<seq<char>>)
    ensures |r| == |ks|
    ensures forall i :: 0 <= i < |ks| ==> r[i] == Phrase(ks[i])
  {
    if ks == [] then [] else [Phrase(ks[0])] + Phrases(ks[1..])
  }

  /** `buildFTS5Query`: throws when no keyword survives, else joins the phrases with " AND " / " OR ". */
  function BuildFTS5Query(ks: seq<seq<char>>, logic: Logic, w: Whitelist): (r: Result<seq<char>>)
    ensures r.Err? <==> ValidateKeywords(ks, w) == []
    ensures r.Err? ==> r.error == "No valid keywords after validation"
  {
    var validated := ValidateKeywords(ks, w);
    if |validated| == 0 then Err("No valid keywords after validation")
    else Ok(Join(Phrases(validated), " " + logic.Name() + " "))
  }

  /** Every survivor is free of `"`, so the quote-doubling never changes it. */
  lemma SurvivorsNeedNoEscaping(ks: seq<seq<char>>, w: Whitelist, j: nat)
    requires j < |ValidateKeywords(ks, w)|
    ensures '"' !in ValidateKeywords(ks, w)[j]
    ensures Phrase(ValidateKeywords(ks, w)[j]) == "\"" + ValidateKeywords(ks, w)[j] + "\""
  {
    var i := ValidateSound(ks, w, j);
    WhitelistExcludesOperatorChars(ks[i], w);
    TrimSubseq(ks[i]);
  }

  // Reading a compiled query back.

  /** The position of the first `c` in `s`, or -1. */
  function FindChar(s: seq<char>, c: char): (r: int)
    ensures -1 <= r < |s|
    ensures r == -1 <==> c !in s
    ensures r >= 0 ==> s[r] == c && c !in s[..r]
  {
    if s == [] then -1
    else if s[0] == c then 0
    else
      var k := FindChar(s[1..], c);
      if k == -1 then -1
      else
        assert s[..k + 1] == [s[0]] + s[1..][..k];
        k + 1
  }

  lemma {:induction false} FindCharAfter(a: seq<char>, b: seq<char>, c: char)
    requires c !in a
    ensures FindChar(a + [c] + b, c) == |a|
  {
    if a != [] {
      assert (a + [c] + b)[1..] == a[1..] + [c] + b;
      FindCharAfter(a[1..], b, c);
    }
  }

  /**
   * A reader for the query language the compiler emits: one or more `"`-quoted
   * phrases, consecutive ones separated by exactly `sep`.  `None` when the text
   * is not of that form.
   */
  function ReadPhrases(q: seq<char>, sep: seq<char>): Option<seq<seq<char>>>
    decreases |q|
  {
    if |q| == 0 || q[0] != '"' then None
    else
      var body := q[1..];
      var k := FindChar(body, '"');
      if k == -1 then None
      else
        var rest := body[k + 1..];
        if rest == [] then Some([body[..k]])
        else if StartsWith(rest, sep) then
          match ReadPhrases(rest[|sep|..], sep)
          case None => None
          case Some(more) => Some([body[..k]] + more)
        else None
  }

  /** Reading one phrase `"k"` off the front of a query. */
  lemma ReadFirstPhrase(k: seq<char>, rest: seq<char>, sep: seq<char>)
    requires '"' !in k
    ensures var q := "\"" + k + "\"" + rest;
      ReadPhrases(q, sep) ==
        if rest == [] then Some([k])
        else if StartsWith(rest, sep) then
          match ReadPhrases(rest[|sep|..], sep)
          case None => None
          case Some(more) => Some([k] + more)
        else None
  {
    var q := "\"" + k + "\"" + rest;
    var body := k + ['"'] + rest;
    assert q == ['"'] + body;
    assert q[0] == '"' && q[1..] == body;
    FindCharAfter(k, rest, '"');
    assert body[..|k|] == k;
    assert body[|k| + 1..] == rest;
  }

  lemma {:induction false} ReadJoinedPhrases(ks: seq<seq<char>>, sep: seq<char>)
    requires |ks| > 0
    requires forall i :: 0 <= i < |ks| ==> '"' !in ks[i]
    ensures ReadPhrases(Join(Phrases(ks), sep), sep) == Some(ks)
  {
    var k0 := ks[0];
    assert Phrases(ks)[0] == "\"" + k0 + "\"";
    if |ks| == 1 {
      ReadFirstPhrase(k0, [], sep);
      assert "\"" + k0 + "\"" + [] == "\"" + k0 + "\"";
      assert ks == [k0];
    } else {
      var tail := Join(Phrases(ks[1..]), sep);
      assert Phrases(ks)[1..] == Phrases(ks[1..]);
      assert Join(Phrases(ks), sep) == "\"" + k0 + "\"" + (sep + tail);
      ReadFirstPhrase(k0, sep + tail, sep);
      assert (sep + tail)[|sep|..] == tail;
      ReadJoinedPhrases(ks[1..], sep);
      assert ks == [k0] + ks[1..];
    }
  }

  /**
   * Round trip: reading the compiled query back as `"`-quoted phrases separated
   * by " AND " / " OR " yields exactly the validated keywords, in input order.
   */
  lemma BuildFTS5QueryReadsBack(ks: seq<seq<char>>, logic: Logic, w: Whitelist)
    requires BuildFTS5Query(ks, logic, w).Ok?
    ensures ReadPhrases(BuildFTS5Query(ks, logic, w).value, " " + logic.Name() + " ") == Some(ValidateKeywords(ks, w))
  {
    var v := ValidateKeywords(ks, w);
    forall i | 0 <= i < |v| ensures '"' !in v[i] {
      SurvivorsNeedNoEscaping(ks, w, i);
    }
    ReadJoinedPhrases(v, " " + logic.Name() + " ");
  }

  // Examples from the validator's unit tests (tests/fts5-validation.test.ts).

  /** A word cannot occur, in any case, if one of its letters is absent in both cases. */
  lemma AbsentLetterNoWord(s: seq<char>, word: seq<char>, j: nat)
    requires j < |word| && word[j] !in Lower(s)
    ensures !HasWholeWord(s, word)
  {
  }

  /** The word `w` as a whole word at position `i` puts the keyword through the operator filter. */
  lemma WholeWordDrops(k: seq<char>, w: Whitelist, word: seq<char>, i: nat)
    requires word == "or" || word == "not"
    requires WholeWordAt(k, word, i) && i <= |k|
    ensures ValidateKeywords([k], w) == []
  {
    ValidateOne(k, w);
  }

  /** A character outside the whitelist drops the keyword. */
  lemma OutsideCharDrops(k: seq<char>, w: Whitelist, i: nat)
    requires i < |k| && !AllowedChar(k[i], w)
    ensures ValidateKeywords([k], w) == []
  {
    if Whitelisted(k, w) {
      AllAllowedAt(k, w, i);
    }
    ValidateOne(k, w);
  }

  /** Over 100 characters drops the keyword, whatever its content. */
  lemma TooLongDrops(k: seq<char>, w: Whitelist)
    requires |k| > MaxKeywordLength
    ensures ValidateKeywords([k], w) == []
  {
    ValidateOne(k, w);
  }

  /** Blank keywords are dropped. */
  lemma BlankDrops(k: seq<char>, w: Whitelist)
    requires IsBlank(k)
    ensures ValidateKeywords([k], w) == []
  {
    TrimEmptyIffBlank(k);
    ValidateOne(k, w);
  }

  lemma NoOperatorWhen(k: seq<char>, w: Whitelist, j1: nat, j2: nat)
    requires Whitelisted(k, w)
    requires j1 < 2 && "or"[j1] !in Lower(k) && j2 < 3 && "not"[j2] !in Lower(k)
    ensures !HasDangerousOperator(k)
  {
    AbsentLetterNoWord(k, "or", j1);
    AbsentLetterNoWord(k, "not", j2);
    WhitelistExcludesOperatorChars(k, w);
  }

  lemma AdmissibleWhen(k: seq<char>, w: Whitelist, j1: nat, j2: nat)
    requires |k| > 0 && !IsJsSpace(k[0]) && !IsJsSpace(k[|k| - 1]) && |k| <= MaxKeywordLength
    requires Whitelisted(k, w)
    requires j1 < 2 && "or"[j1] !in Lower(k) && j2 < 3 && "not"[j2] !in Lower(k)
    ensures Admissible(k, w) && Trim(k) == k
  {
    TrimUnchanged(k);
    NoOperatorWhen(k, w, j1, j2);
  }

  lemma KeptUnchanged(k: seq<char>, w: Whitelist)
    requires Admissible(k, w) && Trim(k) == k
    ensures ValidateKeywords([k], w) == [k]
  {
    ValidateOne(k, w);
  }

  /** The cheap conditions under which a keyword survives unchanged. */
  lemma SurvivesWhen(k: seq<char>, w: Whitelist, j1: nat, j2: nat)
    requires |k| > 0 && !IsJsSpace(k[0]) && !IsJsSpace(k[|k| - 1]) && |k| <= MaxKeywordLength
    requires Whitelisted(k, w)
    requires j1 < 2 && "or"[j1] !in Lower(k) && j2 < 3 && "not"[j2] !in Lower(k)
    ensures ValidateKeywords([k], w) == [k]
  {
    AdmissibleWhen(k, w, j1, j2);
    KeptUnchanged(k, w);
  }

  lemma ExampleAlphanumericPasses()
    ensures ValidateKeywords(["user123"], TestCopy) == ["user123"]
  {
    SurvivesWhen("user123", TestCopy, 0, 0);
  }

  lemma ExampleEmailPasses()
    ensures ValidateKeywords(["test@email.com"], TestCopy) == ["test@email.com"]
  {
    SurvivesWhen("test@email.com", TestCopy, 1, 0);
  }

  /** Only the test copy's whitelist admits the single quote. */
  lemma ExampleSingleQuotePassesTestCopy()
    ensures ValidateKeywords(["test'quote"], TestCopy) == ["test'quote"]
  {
    SurvivesWhen("test'quote", TestCopy, 1, 0);
  }

  lemma ExampleSingleQuoteDroppedBundled()
    ensures ValidateKeywords(["test'quote"], Bundled) == []
  {
    OutsideCharDrops("test'quote", Bundled, 4);
  }

  lemma ExampleNearWithoutParenthesisSurvives()
    ensures ValidateKeywords(["test NEAR query"], TestCopy) == ["test NEAR query"]
  {
    SurvivesWhen("test NEAR query", TestCopy, 0, 1);
  }

  lemma ExampleLowerCaseOrDropped()
    ensures ValidateKeywords(["test or"], TestCopy) == []
  {
    assert Lower("test or")[5..7] == "or";
    WholeWordDrops("test or", TestCopy, "or", 5);
  }

  lemma ExampleUpperCaseNotDropped()
    ensures ValidateKeywords(["TEST NOT"], TestCopy) == []
  {
    assert Lower("TEST NOT")[5..8] == "not";
    WholeWordDrops("TEST NOT", TestCopy, "not", 5);
  }

  lemma ExampleNearCallDropped()
    ensures ValidateKeywords(["test NEAR(query)"], TestCopy) == []
    ensures ValidateKeywords(["test NEAR/5 password"], TestCopy) == []
  {
    OutsideCharDrops("test NEAR(query)", TestCopy, 9);
    OutsideCharDrops("test NEAR/5 password", TestCopy, 9);
  }

  lemma ExampleWildcardDropped()
    ensures ValidateKeywords(["TeSt*"], TestCopy) == []
  {
    OutsideCharDrops("TeSt*", TestCopy, 4);
  }

  lemma ExampleOutsideCharactersDropped()
    ensures ValidateKeywords(["test$keyword"], TestCopy) == []
    ensures ValidateKeywords(["test#tag"], TestCopy) == []
    ensures ValidateKeywords(["test\U{0131}"], TestCopy) == []
  {
    OutsideCharDrops("test$keyword", TestCopy, 4);
    OutsideCharDrops("test#tag", TestCopy, 4);
    OutsideCharDrops("test\U{0131}", TestCopy, 4);
  }

  lemma ExampleLongAndBlankDropped()
    ensures ValidateKeywords([seq(101, _ => 'a')], TestCopy) == []
    ensures ValidateKeywords([""], TestCopy) == []
    ensures ValidateKeywords(["   "], TestCopy) == []
  {
    TooLongDrops(seq(101, _ => 'a'), TestCopy);
    BlankDrops("", TestCopy);
    BlankDrops("   ", TestCopy);
  }

  // Paging of `getAiResponsesWithKeywords`.

  /** The fields of an ai_responses row that paging looks at. */
  datatype AiResponse = AiResponse(id: int, project: seq<char>, createdAtEpoch: int)

  datatype Page = Page(items: seq<AiResponse>, total: nat, hasMore: bool)

  function InProject(project: seq<char>): AiResponse -> bool
  {
    (r: AiResponse) => r.project == project
  }

  /** `project ? rows.filter(r => r.project === project) : rows` (an empty project filters nothing). */
  function ForProject(rows: seq<AiResponse>, project: seq<char>): seq<AiResponse>
  {
    if project != [] then Filter(rows, InProject(project)) else rows
  }

  /**
   * The keyword path: fetch `limit + 1` rows from `offset`, report `hasMore`
   * when the extra row came back, and return the first `limit`.
   */
  function SearchPage(matching: seq<AiResponse>, total: nat, offset: nat, limit: nat): (r: Page)
    ensures |r.items| <= limit
  {
    var rows := Slice(matching, offset, offset + limit + 1);
    var more := |rows| > limit;
    Page(if more then rows[..limit] else rows, total, more)
  }

  /** Fetching one row more than a page is exact: the page is the window, and `hasMore` says rows lie beyond it. */
  lemma SearchPageWindow(matching: seq<AiResponse>, total: nat, offset: nat, limit: nat)
    ensures SearchPage(matching, total, offset, limit).items == Slice(matching, offset, offset + limit)
    ensures SearchPage(matching, total, offset, limit).hasMore <==> |matching| > offset + limit
  {
    var rows := Slice(matching, offset, offset + limit + 1);
    if |rows| > limit {
      assert rows[..limit] == Slice(matching, offset, offset + limit);
    } else {
      assert rows == Slice(matching, offset, offset + limit);
    }
  }

  /**
   * The no-keyword path as the bundle writes it: take the `offset + limit + 1`
   * most recent rows of ALL projects, then filter by project, then page.
   */
  function RecentPageAsWritten(recent: seq<AiResponse>, project: seq<char>, offset: nat, limit: nat): Page
  {
    var e := ForProject(Take(recent, limit + offset + 1), project);
    Page(Slice(e, offset, offset + limit), |e|, |e| > offset + limit)
  }

  /** The no-keyword path with the project filter applied before the window is cut. */
  function RecentPage(recent: seq<AiResponse>, project: seq<char>, offset: nat, limit: nat): (r: Page)
    ensures |r.items| <= limit && r.total == |ForProject(recent, project)|
    ensures r.hasMore <==> |ForProject(recent, project)| > offset + limit
  {
    var e := ForProject(recent, project);
    Page(Slice(e, offset, offset + limit), |e|, |e| > offset + limit)
  }

  /** Consecutive pages of the corrected path tile the project's rows, and `hasMore` is false only on the last. */
  lemma RecentPagesTile(recent: seq<AiResponse>, project: seq<char>, offset: nat, limit: nat)
    ensures var e := ForProject(recent, project);
      RecentPage(recent, project, offset, limit).items + RecentPage(recent, project, offset + limit, limit).items
        == Slice(e, offset, offset + 2 * limit)
    ensures !RecentPage(recent, project, offset, limit).hasMore ==> RecentPage(recent, project, offset + limit, limit).items == []
  {
    var e := ForProject(recent, project);
    var a, b := Slice(e, offset, offset + limit), Slice(e, offset + limit, offset + 2 * limit);
    if offset + limit <= |e| {
      assert a + b == Slice(e, offset, offset + 2 * limit);
    }
  }

  /** Without a project filter the bundle's window and `hasMore` agree with the corrected path. */
  lemma RecentPageAgreesWithoutProject(recent: seq<AiResponse>, offset: nat, limit: nat)
    ensures RecentPageAsWritten(recent, [], offset, limit).items == RecentPage(recent, [], offset, limit).items
    ensures RecentPageAsWritten(recent, [], offset, limit).hasMore == RecentPage(recent, [], offset, limit).hasMore
  {
  }

  /**
   * With a project filter the bundle loses rows: two newer rows of project B
   * hide project A's only row from a one-row first page, which comes back
   * empty with `hasMore` false and `total` 0.
   */
  lemma RecentPageAsWrittenLosesRows()
    ensures var recent := [AiResponse(3, "B", 30), AiResponse(2, "B", 20), AiResponse(1, "A", 10)];
      RecentPageAsWritten(recent, "A", 0, 1) == Page([], 0, false)
      && RecentPage(recent, "A", 0, 1) == Page([AiResponse(1, "A", 10)], 1, false)
  {
    var recent := [AiResponse(3, "B", 30), AiResponse(2, "B", 20), AiResponse(1, "A", 10)];
    assert Take(recent, 2) == [recent[0], recent[1]];
    assert Filter([recent[0], recent[1]], InProject("A")) == [];
    assert Filter(recent, InProject("A")) == [recent[2]] by {
      assert recent == [recent[0], recent[1]] + [recent[2]];
      FilterAppend([recent[0], recent[1]], [recent[2]], InProject("A"));
    }
  }

  /**
   * `getAiResponsesWithKeywords(keywords, logic, project, offset, limit)`.
   * `recent` is the ai_responses table newest first; `search(q)` stands for the
   * rows the FTS index matches for query `q`, in rank order (FTS5 matching and
   * bm25 ranking are not modelled).  The no-keyword path is the bundle's, which
   * cuts the window before filtering by project (`RecentPage` is the corrected one).
   */
  function GetAiResponsesWithKeywords(keywords: seq<seq<char>>, logic: Logic, project: seq<char>, offset: nat, limit: nat,
                                      recent: seq<AiResponse>, search: seq<char> -> seq<AiResponse>): (r: Page)
    ensures |r.items| <= limit
    ensures |keywords| == 0 ==>
      var window := ForProject(Take(recent, offset + limit + 1), project);
      r.total == |window| <= offset + limit + 1 && (r.hasMore <==> |window| > offset + limit)
      && r.items == Slice(window, offset, offset + limit)
      && (project != [] ==> forall i :: 0 <= i < |r.items| ==> r.items[i].project == project)
    ensures |keywords| == 0 && project == [] ==>
      r.items == Slice(recent, offset, offset + limit) && (r.hasMore <==> |recent| > offset + limit)
    ensures |keywords| > 0 && ValidateKeywords(keywords, Bundled) == [] ==> r == Page([], 0, false)
    ensures |keywords| > 0 && ValidateKeywords(keywords, Bundled) != [] ==>
      var matching := ForProject(search(BuildFTS5Query(keywords, logic, Bundled).value), project);
      r.total == |matching| && (r.hasMore <==> |matching| > offset + limit)
      && r.items == Slice(matching, offset, offset + limit)
  {
    if |keywords| == 0 then
      RecentPageAgreesWithoutProject(recent, offset, limit);
      var window := ForProject(Take(recent, offset + limit + 1), project);
      var p := RecentPageAsWritten(recent, project, offset, limit);
      assert forall i :: 0 <= i < |p.items| ==> p.items[i] in window;
      p
    else
      match BuildFTS5Query(keywords, logic, Bundled)
      case Err(_) => Page([], 0, false)
      case Ok(q) =>
        var matching := ForProject(search(q), project);
        SearchPageWindow(matching, |matching|, offset, limit);
        SearchPage(matching, |matching|, offset, limit)
  }
}
