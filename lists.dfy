/** Generic list operations shaped like the JavaScript array methods the source chains. */
module Lists {

  /** `s.filter(keep)`. */
  function Filter<T>(s: seq<T>, keep: T -> bool): (r: seq<T>)
    ensures |r| <= |s|
    ensures forall x :: x in r ==> x in s && keep(x)
  {
    if s == [] then []
    else if keep(s[0]) then [s[0]] + Filter(s[1..], keep)
    else Filter(s[1..], keep)
  }

  /** Filtering works element by element, so it distributes over concatenation and keeps order. */
  lemma {:induction false} FilterAppend<T>(a: seq<T>, b: seq<T>, keep: T -> bool)
    ensures Filter(a + b, keep) == Filter(a, keep) + Filter(b, keep)
  {
    if a == [] {
      assert a + b == b;
    } else {
      assert (a + b)[1..] == a[1..] + b;
      FilterAppend(a[1..], b, keep);
    }
  }

  lemma FilterOne<T>(x: T, keep: T -> bool)
    ensures Filter([x], keep) == if keep(x) then [x] else []
  {
    assert [x][1..] == [];
  }

  /** Every kept element is in the result. */
  lemma {:induction false} FilterKeeps<T>(s: seq<T>, keep: T -> bool, i: nat)
    requires i < |s| && keep(s[i])
    ensures s[i] in Filter(s, keep)
  {
    if i > 0 {
      FilterKeeps(s[1..], keep, i - 1);
    }
  }

  /** Membership in the result is exactly membership in the input plus the predicate. */
  lemma FilterMember<T>(s: seq<T>, keep: T -> bool, x: T)
    ensures x in Filter(s, keep) <==> x in s && keep(x)
  {
    if x in s && keep(x) {
      var i :| 0 <= i < |s| && s[i] == x;
      FilterKeeps(s, keep, i);
    }
  }

  /** A filter that keeps everything is the identity. */
  lemma {:induction false} FilterAll<T>(s: seq<T>, keep: T -> bool)
    requires forall x :: x in s ==> keep(x)
    ensures Filter(s, keep) == s
  {
    if s != [] {
      FilterAll(s[1..], keep);
    }
  }

  /**
   * Where the `j`-th survivor of a filter came from.  Origins are at least `j`
   * and strictly increase with `j` (FilterOrdered): the filter keeps input order.
   */
  ghost function {:induction false} FilterOrigin<T>(s: seq<T>, keep: T -> bool, j: nat): (i: nat)
    requires j < |Filter(s, keep)|
    ensures j <= i < |s| && keep(s[i]) && Filter(s, keep)[j] == s[i]
  {
    if keep(s[0]) then
      if j == 0 then 0 else FilterOrigin(s[1..], keep, j - 1) + 1
    else FilterOrigin(s[1..], keep, j) + 1
  }

  lemma {:induction false} FilterOrdered<T>(s: seq<T>, keep: T -> bool, j1: nat, j2: nat)
    requires j1 < j2 < |Filter(s, keep)|
    ensures FilterOrigin(s, keep, j1) < FilterOrigin(s, keep, j2)
  {
    if keep(s[0]) {
      if j1 > 0 {
        FilterOrdered(s[1..], keep, j1 - 1, j2 - 1);
      }
    } else {
      FilterOrdered(s[1..], keep, j1, j2);
    }
  }

  /** The conjunction of two predicates. */
  function Both<T>(p: T -> bool, q: T -> bool): T -> bool
  {
    (x: T) => p(x) && q(x)
  }

  /** Two filters in a row are one filter by the conjunction. */
  lemma {:induction false} FilterFilter<T>(s: seq<T>, p: T -> bool, q: T -> bool)
    ensures Filter(Filter(s, p), q) == Filter(s, Both(p, q))
  {
    if s != [] {
      FilterFilter(s[1..], p, q);
      if p(s[0]) {
        assert Filter(s, p) == [s[0]] + Filter(s[1..], p);
        assert ([s[0]] + Filter(s[1..], p))[1..] == Filter(s[1..], p);
      }
    }
  }

  /** Filters by predicates that agree everywhere agree. */
  lemma {:induction false} FilterCongruent<T>(s: seq<T>, p: T -> bool, q: T -> bool)
    requires forall x :: p(x) == q(x)
    ensures Filter(s, p) == Filter(s, q)
  {
    if s != [] {
      FilterCongruent(s[1..], p, q);
    }
  }

  /** `on ? s.filter(p) : s` is a filter by `!on || p`. */
  function Unless<T>(on: bool, p: T -> bool): T -> bool
  {
    (x: T) => !on || p(x)
  }

  lemma FilterWhen<T>(s: seq<T>, on: bool, p: T -> bool)
    ensures (if on then Filter(s, p) else s) == Filter(s, Unless(on, p))
  {
    if on {
      FilterCongruent(s, p, Unless(on, p));
    } else {
      FilterAll(s, Unless(on, p));
    }
  }

  /** `s.map(f)`. */
  function Map<T, U>(s: seq<T>, f: T -> U): (r: seq<U>)
    ensures |r| == |s|
    ensures forall i :: 0 <= i < |s| ==> r[i] == f(s[i])
  {
    if s == [] then [] else [f(s[0])] + Map(s[1..], f)
  }

  /** Python's `s[lo:hi]` and JavaScript's `s.slice(lo, hi)` for non-negative bounds: clamped to the length. */
  function Slice<T>(s: seq<T>, lo: nat, hi: nat): (r: seq<T>)
    ensures |r| == if lo <= hi && lo <= |s| then (if hi <= |s| then hi else |s|) - lo else 0
    ensures forall i :: 0 <= i < |r| ==> r[i] == s[lo + i]
  {
    var h := if hi <= |s| then hi else |s|;
    if lo <= h then s[lo..h] else []
  }

  /** `s.slice(0, n)`. */
  function Take<T>(s: seq<T>, n: nat): (r: seq<T>)
    ensures |r| == if n <= |s| then n else |s|
    ensures r == s[..|r|]
  {
    if n <= |s| then s[..n] else s
  }

  function Sum(s: seq<int>): int
  {
    if s == [] then 0 else s[0] + Sum(s[1..])
  }

  lemma {:induction false} SumAppend(a: seq<int>, b: seq<int>)
    ensures Sum(a + b) == Sum(a) + Sum(b)
  {
    if a == [] {
      assert a + b == b;
    } else {
      assert (a + b)[1..] == a[1..] + b;
      SumAppend(a[1..], b);
    }
  }

  /** The elements of `s` are pairwise distinct. */
  predicate Distinct<T(==)>(s: seq<T>)
  {
    forall i, j :: 0 <= i < j < |s| ==> s[i] != s[j]
  }
}
