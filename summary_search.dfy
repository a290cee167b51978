/**
 * `searchSummaries` of the enhancement service: the conversation summaries
 * that match the optional project, text query and summary type, newest
 * first, one page of them.  The text query is a SQL `LIKE '%query%'` on
 * three columns, so the module also gives `LIKE` its meaning.
 */
module SummarySearch {
  import opened Wrappers
  import opened Text
  import opened Lists
  import opened Sorting

  /** A row of `conversation_summaries`, with the columns the search reads. */
  datatype ConversationSummary = ConversationSummary(
    id: int, project: string, summaryType: string, content: string,
    keywords: Option<string>, keyPoints: Option<string>, epoch: int)

  // ------------------------------------------------------------------ LIKE

  /**
   * SQLite's `LIKE` without ESCAPE: `%` matches any run of characters, `_`
   * any one character, and any other character itself up to ASCII case.
   */
  predicate Like(s: string, p: string)
    decreases |s| + |p|
  {
    if p == [] then s == []
    else if p[0] == '%' then Like(s, p[1..]) || (s != [] && Like(s[1..], p))
    else if s == [] then false
    else (p[0] == '_' || LowerChar(s[0]) == LowerChar(p[0])) && Like(s[1..], p[1..])
  }

  /** A pattern with neither wildcard. */
  predicate Literal(q: string)
  {
    forall i :: 0 <= i < |q| ==> q[i] != '%' && q[i] != '_'
  }

  lemma LowerCons(s: string)
    requires s != []
    ensures Lower(s) == [LowerChar(s[0])] + Lower(s[1..])
  {
  }

  lemma LowerSlice(s: string, i: nat, j: nat)
    requires i <= j <= |s|
    ensures Lower(s)[i..j] == Lower(s[i..j])
  {
  }

  /** `%` alone matches every string. */
  lemma {:induction false} LikeAnything(s: string)
    ensures Like(s, "%")
    decreases |s|
  {
    if s != [] {
      LikeAnything(s[1..]);
    }
  }

  /** `q%` with a literal `q` matches exactly the strings that start with `q`, ignoring case. */
  lemma {:induction false} LikePrefix(s: string, q: string)
    requires Literal(q)
    ensures Like(s, q + "%") <==> |q| <= |s| && Lower(s[..|q|]) == Lower(q)
    decreases |q|
  {
    if q == [] {
      assert q + "%" == "%";
      LikeAnything(s);
    } else {
      assert (q + "%")[0] == q[0] && (q + "%")[1..] == q[1..] + "%";
      assert Literal(q[1..]) by {
        forall i | 0 <= i < |q[1..]| ensures q[1..][i] != '%' && q[1..][i] != '_' {
          assert q[1..][i] == q[i + 1];
        }
      }
      LowerCons(q);
      assert q[0] != '%' && q[0] != '_';
      if s != [] {
        LikePrefix(s[1..], q[1..]);
        assert Like(s, q + "%") <==> LowerChar(s[0]) == LowerChar(q[0]) && Like(s[1..], q[1..] + "%");
        if |q| <= |s| {
          var t := s[..|q|];
          LowerCons(t);
          assert t[0] == s[0] && t[1..] == s[1..][..|q| - 1];
          assert Lower(t) == Lower(q) <==> LowerChar(s[0]) == LowerChar(q[0]) && Lower(t[1..]) == Lower(q[1..]) by {
            if Lower(t) == Lower(q) {
              assert Lower(t)[0] == Lower(q)[0];
              assert Lower(t)[1..] == Lower(q)[1..];
            }
          }
        }
      }
    }
  }

  /** The literal `q` occurs in `s` at `i`, ignoring case. */
  predicate MatchesAt(s: string, q: string, i: int)
  {
    0 <= i && i + |q| <= |s| && Lower(s[i..i + |q|]) == Lower(q)
  }

  lemma MatchesAtShift(s: string, q: string, i: int)
    requires s != [] && 0 <= i
    ensures MatchesAt(s, q, i + 1) <==> MatchesAt(s[1..], q, i)
  {
    if i + |q| <= |s| - 1 {
      assert s[1..][i..i + |q|] == s[i + 1..i + 1 + |q|];
    }
  }

  /**
   * `%q%` with a literal `q` matches exactly the strings that contain `q`,
   * ignoring case.
   */
  lemma {:induction false} LikeInfix(s: string, q: string)
    requires Literal(q)
    ensures Like(s, "%" + q + "%") <==> exists i :: MatchesAt(s, q, i)
    decreases |s|
  {
    var p := "%" + q + "%";
    assert p[0] == '%' && p[1..] == q + "%";
    LikePrefix(s, q);
    if |q| <= |s| {
      assert s[0..|q|] == s[..|q|];
    }
    if Like(s, q + "%") {
      assert MatchesAt(s, q, 0);
    }
    if s != [] {
      LikeInfix(s[1..], q);
      if Like(s[1..], p) {
        var i :| MatchesAt(s[1..], q, i);
        MatchesAtShift(s, q, i);
      }
      if exists i :: MatchesAt(s, q, i) && i > 0 {
        var i :| MatchesAt(s, q, i) && i > 0;
        MatchesAtShift(s, q, i - 1);
      }
    }
  }

  lemma MatchesAtLower(s: string, q: string, i: int)
    ensures MatchesAt(s, q, i) <==> OccursAt(Lower(s), Lower(q), i)
  {
    if 0 <= i && i + |q| <= |s| {
      LowerSlice(s, i, i + |q|);
    }
  }

  /** `LIKE '%q%'` with a literal `q` is a case-insensitive `includes`. */
  lemma LikeContains(s: string, q: string)
    requires Literal(q)
    ensures Like(s, "%" + q + "%") <==> Contains(Lower(s), Lower(q))
  {
    LikeInfix(s, q);
    if Like(s, "%" + q + "%") {
      var i :| MatchesAt(s, q, i);
      MatchesAtLower(s, q, i);
    }
    if Contains(Lower(s), Lower(q)) {
      var i :| 0 <= i <= |Lower(s)| && OccursAt(Lower(s), Lower(q), i);
      MatchesAtLower(s, q, i);
    }
  }

  /** A wildcard in the query is a wildcard: `_` stands for any character. */
  lemma UnderscoreMatchesAny()
    ensures Like("abc", "%a_c%") && Like("axc", "%a_c%")
    ensures !Contains(Lower("abc"), Lower("a_c"))
  {
    assert Like("c", "c%") by { LikeAnything([]); }
    assert Like("abc", "a_c%");
    assert Like("abc", "%a_c%");
    assert Like("axc", "a_c%");
    assert Like("axc", "%a_c%");
    forall i | 0 <= i <= 3 ensures !OccursAt(Lower("abc"), Lower("a_c"), i) {
      if i == 0 {
        assert Lower("abc")[1] == 'b' && Lower("a_c")[1] == '_';
      }
    }
  }

  // ---------------------------------------------------------------- search

  /** The optional arguments of `searchSummaries`. */
  datatype Filters = Filters(project: Option<string>, query: Option<string>, summaryType: Option<string>)

  /** JavaScript truthiness of an optional string: present and non-empty. */
  predicate Given(v: Option<string>)
  {
    v.Some? && v.value != []
  }

  /** `col LIKE ?` on a nullable column: NULL never matches. */
  predicate LikeColumn(v: Option<string>, pattern: string)
  {
    v.Some? && Like(v.value, pattern)
  }

  /** The WHERE clause the service assembles: only the filters that were given. */
  predicate Wanted(r: ConversationSummary, f: Filters)
  {
    (Given(f.project) ==> r.project == f.project.value)
    && (Given(f.query) ==>
          var pattern := "%" + f.query.value + "%";
          Like(r.content, pattern) || LikeColumn(r.keywords, pattern) || LikeColumn(r.keyPoints, pattern))
    && (Given(f.summaryType) ==> r.summaryType == f.summaryType.value)
  }

  function WantedFn(f: Filters): ConversationSummary -> bool
  {
    (r: ConversationSummary) => Wanted(r, f)
  }

  /** The sort key of `ORDER BY created_at_epoch DESC`. */
  function Newest(r: ConversationSummary): int
  {
    -r.epoch
  }

  /** How many rows `LIMIT limit OFFSET offset` keeps of `n`: a negative limit means no limit, a negative offset is 0. */
  function PageSize(n: nat, limit: int, offset: int): nat
  {
    var lo := if offset < 0 then 0 else offset;
    var rest := if lo <= n then n - lo else 0;
    if limit < 0 || limit >= rest then rest else limit
  }

  /** `LIMIT limit OFFSET offset` applied to the ordered rows. */
  function Window<T>(s: seq<T>, limit: int, offset: int): seq<T>
  {
    var lo := if offset < 0 then 0 else offset;
    var rest := if lo <= |s| then s[lo..] else [];
    if limit < 0 || limit >= |rest| then rest else rest[..limit]
  }

  /** `searchSummaries(project, query, summary_type, limit, offset)` over the table's rows. */
  function SearchSummaries(rows: seq<ConversationSummary>, f: Filters, limit: int, offset: int)
    : seq<ConversationSummary>
  {
    Window(SortBy(Filter(rows, WantedFn(f)), Newest), limit, offset)
  }

  lemma WindowFrom<T>(s: seq<T>, limit: int, offset: int)
    ensures |Window(s, limit, offset)| == PageSize(|s|, limit, offset)
    ensures forall x :: x in Window(s, limit, offset) ==> x in s
    ensures forall i :: 0 <= i < |Window(s, limit, offset)| ==>
      Window(s, limit, offset)[i] == s[i + (if offset < 0 then 0 else offset)]
  {
  }

  /**
   * Every row returned is a row of the table that passes every given
   * filter; the rows come newest first; the page is the run of the
   * matching rows, sorted newest first, that starts at the offset (0 when
   * negative) and holds as many as `LIMIT` keeps; and with no limit and no
   * offset every matching row is returned.
   */
  lemma SearchSummariesSpec(rows: seq<ConversationSummary>, f: Filters, limit: int, offset: int)
    ensures var r := SearchSummaries(rows, f, limit, offset);
      (forall x :: x in r ==> x in rows && Wanted(x, f))
      && (forall i, j :: 0 <= i < j < |r| ==> r[i].epoch >= r[j].epoch)
      && |r| == PageSize(|Filter(rows, WantedFn(f))|, limit, offset)
      && (forall i :: 0 <= i < |r| ==>
            r[i] == SortBy(Filter(rows, WantedFn(f)), Newest)[i + (if offset < 0 then 0 else offset)])
      && (limit < 0 && offset <= 0 ==> forall x :: x in rows && Wanted(x, f) ==> x in r)
  {
    var hits := Filter(rows, WantedFn(f));
    var sorted := SortBy(hits, Newest);
    var r := SearchSummaries(rows, f, limit, offset);
    SortBySorted(hits, Newest);
    WindowFrom(sorted, limit, offset);
    forall x | x in r ensures x in rows && Wanted(x, f) {
      assert x in multiset(sorted);
      assert x in hits;
    }
    forall i, j | 0 <= i < j < |r| ensures r[i].epoch >= r[j].epoch {
      var lo := if offset < 0 then 0 else offset;
      assert Newest(sorted[i + lo]) <= Newest(sorted[j + lo]);
    }
    if limit < 0 && offset <= 0 {
      assert r == sorted;
      forall x | x in rows && Wanted(x, f) ensures x in r {
        FilterMember(rows, WantedFn(f), x);
        assert x in multiset(hits);
      }
    }
  }

  /**
   * With a literal query, a row matches the text filter exactly when its
   * content, keywords or key points contain the query, ignoring case.
   */
  lemma QueryIsCaseInsensitiveIncludes(r: ConversationSummary, q: string)
    requires Literal(q)
    ensures Like(r.content, "%" + q + "%") <==> Contains(Lower(r.content), Lower(q))
    ensures LikeColumn(r.keywords, "%" + q + "%") <==> r.keywords.Some? && Contains(Lower(r.keywords.value), Lower(q))
    ensures LikeColumn(r.keyPoints, "%" + q + "%") <==> r.keyPoints.Some? && Contains(Lower(r.keyPoints.value), Lower(q))
  {
    LikeContains(r.content, q);
    if r.keywords.Some? {
      LikeContains(r.keywords.value, q);
    }
    if r.keyPoints.Some? {
      LikeContains(r.keyPoints.value, q);
    }
  }
}
