/**
 * JavaScript string primitives the rest of the model relies on.  Strings are
 * `seq<char>`, one element per character; surrogate pairs, Unicode case
 * folding and normalisation are not modelled, so length, indexOf, substring
 * and case-insensitive comparison agree with the source on ASCII text.
 * `trim` and `\s` use ECMAScript's full white-space set.
 */
module Text {

  /** The characters ECMAScript's `\s` class and `String.prototype.trim` treat as white space. */
  predicate IsJsSpace(c: char)
  {
    var n := c as int;
    (9 <= n <= 13) || n == 32 || n == 0xA0 || n == 0x1680 || (0x2000 <= n <= 0x200A)
    || n == 0x2028 || n == 0x2029 || n == 0x202F || n == 0x205F || n == 0x3000 || n == 0xFEFF
  }

  /** ECMAScript `\w`: ASCII letters, digits and underscore. */
  predicate IsWordChar(c: char)
  {
    ('a' <= c <= 'z') || ('A' <= c <= 'Z') || ('0' <= c <= '9') || c == '_'
  }

  predicate IsBlank(s: seq<char>)
  {
    forall i :: 0 <= i < |s| ==> IsJsSpace(s[i])
  }

  function TrimStart(s: seq<char>): (r: seq<char>)
    ensures |r| <= |s|
  {
    if s == [] || !IsJsSpace(s[0]) then s else TrimStart(s[1..])
  }

  function TrimEnd(s: seq<char>): (r: seq<char>)
    ensures |r| <= |s|
  {
    if s == [] || !IsJsSpace(s[|s| - 1]) then s else TrimEnd(s[..|s| - 1])
  }

  /** `String.prototype.trim`. */
  function Trim(s: seq<char>): (r: seq<char>)
    ensures |r| <= |s|
  {
    TrimEnd(TrimStart(s))
  }

  lemma {:induction false} TrimStartSpec(s: seq<char>)
    ensures var r := TrimStart(s);
      r == s[|s| - |r|..] && (r == [] || !IsJsSpace(r[0])) && IsBlank(s[..|s| - |r|])
  {
    if s != [] && IsJsSpace(s[0]) {
      TrimStartSpec(s[1..]);
      var t := TrimStart(s[1..]);
      assert s[..|s| - |t|] == [s[0]] + s[1..][..|s[1..]| - |t|];
    }
  }

  lemma {:induction false} TrimEndSpec(s: seq<char>)
    ensures var r := TrimEnd(s);
      r == s[..|r|] && (r == [] || !IsJsSpace(r[|r| - 1])) && IsBlank(s[|r|..])
  {
    if s != [] && IsJsSpace(s[|s| - 1]) {
      TrimEndSpec(s[..|s| - 1]);
      var t := TrimEnd(s[..|s| - 1]);
      assert s[|t|..] == s[..|s| - 1][|t|..] + [s[|s| - 1]];
    }
  }

  /**
   * `trim` removes exactly the white space at both ends: the result is the
   * slice `s[a..b]`, everything before `a` and after `b` is white space, and the
   * result neither starts nor ends with white space.
   */
  lemma TrimSpec(s: seq<char>) returns (a: nat, b: nat)
    ensures a <= b <= |s| && Trim(s) == s[a..b]
    ensures IsBlank(s[..a]) && IsBlank(s[b..])
    ensures Trim(s) == [] || (!IsJsSpace(Trim(s)[0]) && !IsJsSpace(Trim(s)[|Trim(s)| - 1]))
  {
    TrimStartSpec(s);
    var t := TrimStart(s);
    TrimEndSpec(t);
    a := |s| - |t|;
    b := a + |TrimEnd(t)|;
    assert t[..|TrimEnd(t)|] == s[a..b];
    assert t[|TrimEnd(t)|..] == s[b..];
  }

  /** `!s.trim()` holds exactly for the all-white-space strings, the empty one included. */
  lemma TrimEmptyIffBlank(s: seq<char>)
    ensures Trim(s) == [] <==> IsBlank(s)
  {
    var a, b := TrimSpec(s);
    if Trim(s) == [] {
      assert s == s[..a] + s[b..];
    } else {
      assert s[a] == Trim(s)[0];
    }
  }

  /** A string with no white space at either end is its own trim. */
  lemma TrimUnchanged(s: seq<char>)
    requires s == [] || (!IsJsSpace(s[0]) && !IsJsSpace(s[|s| - 1]))
    ensures Trim(s) == s
  {
  }

  /** Every character of `Trim(s)` is a character of `s`. */
  lemma TrimSubseq(s: seq<char>)
    ensures forall c :: c in Trim(s) ==> c in s
  {
    var a, b := TrimSpec(s);
    forall c | c in Trim(s) ensures c in s {
      var i :| 0 <= i < |Trim(s)| && Trim(s)[i] == c;
      assert s[a + i] == c;
    }
  }

  /** ASCII-only lower-casing, what `toLowerCase` does on the ASCII range. */
  function LowerChar(c: char): (r: char)
    ensures ('A' <= c <= 'Z') ==> r as int == c as int + 32
    ensures !('A' <= c <= 'Z') ==> r == c
  {
    if 'A' <= c <= 'Z' then (c as int + 32) as char else c
  }

  function Lower(s: seq<char>): (r: seq<char>)
  {
    seq(|s|, i requires 0 <= i < |s| => LowerChar(s[i]))
  }

  predicate OccursAt(s: seq<char>, sub: seq<char>, i: int)
  {
    0 <= i && i + |sub| <= |s| && s[i..i + |sub|] == sub
  }

  /** `s.includes(sub)`. */
  predicate Contains(s: seq<char>, sub: seq<char>)
  {
    exists i :: 0 <= i <= |s| && OccursAt(s, sub, i)
  }

  lemma OccursShift(s: seq<char>, sub: seq<char>, j: int)
    requires |s| > 0 && j > 0
    ensures OccursAt(s, sub, j) <==> OccursAt(s[1..], sub, j - 1)
  {
    if j + |sub| <= |s| {
      assert s[1..][j - 1..j - 1 + |sub|] == s[j..j + |sub|];
    }
  }

  /** `s.indexOf(sub)`: the position of the first occurrence of `sub` in `s`, or -1. */
  function IndexOf(s: seq<char>, sub: seq<char>): (r: int)
    ensures r == -1 || (0 <= r <= |s| - |sub| && OccursAt(s, sub, r))
    decreases |s|
  {
    if |sub| > |s| then -1
    else if s[..|sub|] == sub then 0
    else
      var k := IndexOf(s[1..], sub);
      if k == -1 then -1
      else
        OccursShift(s, sub, k + 1);
        k + 1
  }

  /** The answer is the FIRST occurrence, and -1 only when there is none. */
  lemma {:induction false} IndexOfFirst(s: seq<char>, sub: seq<char>)
    ensures IndexOf(s, sub) == -1 ==> forall j :: 0 <= j <= |s| ==> !OccursAt(s, sub, j)
    ensures forall j :: 0 <= j < IndexOf(s, sub) ==> !OccursAt(s, sub, j)
    decreases |s|
  {
    if |sub| <= |s| && s[..|sub|] != sub {
      IndexOfFirst(s[1..], sub);
      forall j | 0 < j <= |s| ensures OccursAt(s, sub, j) <==> OccursAt(s[1..], sub, j - 1) {
        OccursShift(s, sub, j);
      }
    }
  }

  /** An occurrence with none before it is what `indexOf` answers. */
  lemma IndexOfAt(s: seq<char>, sub: seq<char>, i: int)
    requires OccursAt(s, sub, i)
    requires forall j :: 0 <= j < i ==> !OccursAt(s, sub, j)
    ensures IndexOf(s, sub) == i
  {
    IndexOfFirst(s, sub);
  }

  /** `indexOf` answers -1 exactly when `includes` is false. */
  lemma IndexOfContains(s: seq<char>, sub: seq<char>)
    ensures IndexOf(s, sub) == -1 <==> !Contains(s, sub)
  {
    IndexOfFirst(s, sub);
  }

  predicate StartsWith(s: seq<char>, prefix: seq<char>)
  {
    |prefix| <= |s| && s[..|prefix|] == prefix
  }

  predicate EndsWith(s: seq<char>, suffix: seq<char>)
  {
    |suffix| <= |s| && s[|s| - |suffix|..] == suffix
  }

  /**
   * The regex `/\bw\b/i` for a lower-case ASCII word `w`: some occurrence of
   * `w`, ignoring ASCII case, with no word character on either side.
   */
  predicate WholeWordAt(s: seq<char>, w: seq<char>, i: int)
  {
    OccursAt(Lower(s), w, i)
    && (i == 0 || !IsWordChar(s[i - 1]))
    && (i + |w| == |s| || !IsWordChar(s[i + |w|]))
  }

  predicate HasWholeWord(s: seq<char>, w: seq<char>)
  {
    exists i :: 0 <= i <= |s| && WholeWordAt(s, w, i)
  }

  /** `parts.join(sep)`. */
  function Join(parts: seq<seq<char>>, sep: seq<char>): (r: seq<char>)
    ensures |parts| == 1 ==> r == parts[0]
    ensures |parts| == 0 ==> r == []
  {
    if |parts| == 0 then []
    else if |parts| == 1 then parts[0]
    else parts[0] + sep + Join(parts[1..], sep)
  }

  /** `s.split(sep)` for a one-character separator. */
  function Split(s: seq<char>, sep: char): (r: seq<seq<char>>)
    ensures |r| >= 1
    ensures Join(r, [sep]) == s
    ensures forall k :: 0 <= k < |r| ==> sep !in r[k]
  {
    if s == [] then [[]]
    else
      var rest := Split(s[1..], sep);
      if s[0] == sep then
        [[]] + rest
      else
        var r := [[s[0]] + rest[0]] + rest[1..];
        assert r[1..] == rest[1..];
        r
  }

  /** The last parts of a join are a suffix of it. */
  lemma {:induction false} JoinSuffix(parts: seq<seq<char>>, sep: seq<char>, k: nat)
    requires k < |parts|
    ensures EndsWith(Join(parts, sep), Join(parts[k..], sep))
  {
    if k > 0 {
      JoinSuffix(parts[1..], sep, k - 1);
      assert parts[1..][k - 1..] == parts[k..];
    }
  }

  /** A part free of the separator, then the separator, splits off as one part. */
  lemma {:induction false} SplitCons(a: seq<char>, t: seq<char>, sep: char)
    requires sep !in a
    ensures Split(a + [sep] + t, sep) == [a] + Split(t, sep)
  {
    var s := a + [sep] + t;
    if a == [] {
      assert s[1..] == t;
    } else {
      assert s[1..] == a[1..] + [sep] + t;
      SplitCons(a[1..], t, sep);
      assert [a[0]] + a[1..] == a;
    }
  }

  /** A string free of the separator splits into itself. */
  lemma {:induction false} SplitNone(a: seq<char>, sep: char)
    requires sep !in a
    ensures Split(a, sep) == [a]
  {
    if a != [] {
      SplitNone(a[1..], sep);
      assert [a[0]] + a[1..] == a;
    }
  }

  /** Splitting a join of separator-free parts gives the parts back. */
  lemma {:induction false} SplitJoin(parts: seq<seq<char>>, sep: char)
    requires |parts| >= 1
    requires forall k :: 0 <= k < |parts| ==> sep !in parts[k]
    ensures Split(Join(parts, [sep]), sep) == parts
  {
    if |parts| == 1 {
      SplitNone(parts[0], sep);
    } else {
      SplitJoin(parts[1..], sep);
      SplitCons(parts[0], Join(parts[1..], [sep]), sep);
      assert [parts[0]] + parts[1..] == parts;
    }
  }

  /** `s.substring(0, n)` for a non-negative `n`. */
  function Prefix(s: seq<char>, n: nat): (r: seq<char>)
    ensures |r| == if n < |s| then n else |s|
    ensures StartsWith(s, r)
  {
    if n < |s| then s[..n] else s
  }
}
