/**
 * The duplicate-cleanup script: group the rows of a table by their grouping
 * key, and in every group with more than one row keep the smallest id and
 * delete the others.  A table is a map from row id to that row's grouping
 * key ((sdk_session_id, title, subtitle, type) for observations,
 * (sdk_session_id, request, completed, learned) for summaries); the other
 * columns play no part.
 */
module Cleanup {
  import opened Lists

  /**
   * One row of the `GROUP BY … HAVING count > 1` query: a key, the ids of its
   * rows, and whether the key's title (request, for summaries) is non-null.
   */
  datatype Group<K> = Group(key: K, ids: seq<int>, labelled: bool)

  /** Ids of the rows carrying key `k`. */
  function IdsWithKey<K(==)>(table: map<int, K>, k: K): set<int>
  {
    set id | id in table && table[id] == k
  }

  /** Some other row carries the same key as row `id`. */
  ghost predicate Duplicated<K>(table: map<int, K>, id: int)
    requires id in table
  {
    exists j :: j in table && j != id && table[j] == table[id]
  }

  /** Each group has at least two distinct ids, all of rows carrying its key. */
  ghost predicate GroupsMatch<K>(table: map<int, K>, groups: seq<Group<K>>)
  {
    forall k :: 0 <= k < |groups| ==>
      |groups[k].ids| > 1 && Distinct(groups[k].ids)
      && forall id :: id in groups[k].ids ==> id in table && table[id] == groups[k].key
  }

  /** No key is reported twice. */
  ghost predicate KeysDistinct<K>(groups: seq<Group<K>>)
  {
    forall i, j :: 0 <= i < j < |groups| ==> groups[i].key != groups[j].key
  }

  /** Each group lists every row of its key, and every duplicated key has a group. */
  ghost predicate GroupsComplete<K>(table: map<int, K>, groups: seq<Group<K>>)
  {
    (forall k, id :: 0 <= k < |groups| && id in table && table[id] == groups[k].key ==> id in groups[k].ids)
    && (forall id :: id in table && Duplicated(table, id) ==> exists k :: 0 <= k < |groups| && groups[k].key == table[id])
  }

  /**
   * What the grouping query returns, in whatever order SQLite picks: every
   * key that occurs more than once, once each, with exactly the ids of its rows.
   */
  ghost predicate QueryResult<K>(table: map<int, K>, groups: seq<Group<K>>)
  {
    GroupsMatch(table, groups) && KeysDistinct(groups) && GroupsComplete(table, groups)
  }

  /** `Math.min(...ids)`. */
  function MinOf(ids: seq<int>): (m: int)
    requires |ids| > 0
    ensures m in ids && forall x :: x in ids ==> m <= x
  {
    if |ids| == 1 then ids[0]
    else
      var rest := MinOf(ids[1..]);
      assert forall x :: x in ids ==> x == ids[0] || x in ids[1..];
      if ids[0] <= rest then ids[0] else rest
  }

  /** Row `id` has the smallest id among the rows sharing its key. */
  ghost predicate IsGroupMin<K>(table: map<int, K>, id: int)
    requires id in table
  {
    forall j :: j in table && table[j] == table[id] ==> id <= j
  }

  /** The intended end state: the minimum-id row of every key. */
  ghost function KeepMin<K>(table: map<int, K>): (r: map<int, K>)
    ensures forall id :: id in r <==> id in table && IsGroupMin(table, id)
    ensures forall id :: id in r ==> r[id] == table[id]
  {
    map id | id in table && IsGroupMin(table, id) :: table[id]
  }

  /** After a complete run no two rows share a grouping key, and every key present before is still present. */
  lemma KeepMinUnique<K>(table: map<int, K>)
    ensures forall a, b :: a in KeepMin(table) && b in KeepMin(table) && a != b ==> KeepMin(table)[a] != KeepMin(table)[b]
    ensures forall id :: id in table ==> exists j :: j in KeepMin(table) && KeepMin(table)[j] == table[id]
  {
    forall id | id in table ensures exists j :: j in KeepMin(table) && KeepMin(table)[j] == table[id] {
      var ids := IdsWithKey(table, table[id]);
      var m := SetMin(ids, id);
      assert m in table && table[m] == table[id];
      assert IsGroupMin(table, m) by {
        forall j | j in table && table[j] == table[m] ensures m <= j { assert j in ids; }
      }
      assert m in KeepMin(table) && KeepMin(table)[m] == table[id];
    }
  }

  /** The least element of a finite set that holds `x`. */
  lemma SetMin(s: set<int>, x: int) returns (m: int)
    requires x in s
    ensures m in s && forall y :: y in s ==> m <= y
    decreases |s|
  {
    if forall y :: y in s ==> x <= y {
      m := x;
    } else {
      var y :| y in s && y < x;
      m := SetMin(s - {x}, y);
      forall z | z in s ensures m <= z {
        if z != x { assert z in s - {x}; }
      }
    }
  }

  /** A sequence without repeats has as many distinct elements as positions. */
  lemma {:induction false} DistinctCard(ids: seq<int>)
    requires Distinct(ids)
    ensures |set x | x in ids| == |ids|
  {
    if ids != [] {
      var t := ids[1..];
      DistinctCard(t);
      assert (set x | x in ids) == {ids[0]} + (set x | x in t);
      assert ids[0] !in t;
    }
  }

  /** The predicate `id => id !== keepId`. */
  function Other(keepId: int): int -> bool
  {
    (id: int) => id != keepId
  }

  /** `deleteIds`: the group's ids other than its minimum, in query order. */
  function DeleteIds<K>(g: Group<K>): (r: seq<int>)
    requires |g.ids| > 0
    ensures forall x :: x in r <==> x in g.ids && x != MinOf(g.ids)
  {
    var keepId := MinOf(g.ids);
    forall x ensures x in Filter(g.ids, Other(keepId)) <==> x in g.ids && x != keepId {
      FilterMember(g.ids, Other(keepId), x);
    }
    Filter(g.ids, Other(keepId))
  }

  /** Without repeats, dropping one present value shortens the list by exactly one. */
  lemma {:induction false} FilterDropsOne(s: seq<int>, x: int)
    requires Distinct(s) && x in s
    ensures |Filter(s, Other(x))| == |s| - 1
  {
    if s[0] == x {
      assert x !in s[1..];
      FilterAll(s[1..], Other(x));
    } else {
      FilterDropsOne(s[1..], x);
    }
  }

  /** A group without repeated ids deletes all of them but one. */
  lemma DeleteIdsCount<K>(g: Group<K>)
    requires |g.ids| > 0 && Distinct(g.ids)
    ensures |DeleteIds(g)| == |g.ids| - 1
  {
    FilterDropsOne(g.ids, MinOf(g.ids));
  }

  /** Every group lists at least one id. */
  predicate NonEmpty<K>(groups: seq<Group<K>>)
  {
    forall k :: 0 <= k < |groups| ==> |groups[k].ids| > 0
  }

  /** The ids listed in `ids`, as the `IN (…)` of a DELETE. */
  function IdSet(ids: seq<int>): set<int>
  {
    set x | x in ids
  }

  /** The ids one group's pass deletes. */
  function Doomed<K>(g: Group<K>): set<int>
    requires |g.ids| > 0
  {
    IdSet(DeleteIds(g))
  }

  /** The ids removed by the passes over the first `i` groups. */
  function Removed<K>(groups: seq<Group<K>>, i: nat): set<int>
    requires i <= |groups|
    requires NonEmpty(groups)
  {
    if i == 0 then {} else Removed(groups, i - 1) + Doomed(groups[i - 1])
  }

  /** After `i` passes, exactly the non-minimal ids of the first `i` groups are gone. */
  lemma {:induction false} RemovedIff<K>(groups: seq<Group<K>>, i: nat)
    requires i <= |groups|
    requires NonEmpty(groups)
    ensures forall id :: id in Removed(groups, i) <==>
      exists k :: 0 <= k < i && id in groups[k].ids && id != MinOf(groups[k].ids)
  {
    if i > 0 {
      RemovedIff(groups, i - 1);
    }
  }

  /** Only rows of the table are removed. */
  lemma RemovedInTable<K>(table: map<int, K>, groups: seq<Group<K>>, i: nat)
    requires GroupsMatch(table, groups) && i <= |groups|
    ensures Removed(groups, i) <= table.Keys
  {
    RemovedIff(groups, i);
  }

  /** Only rows of duplicated keys are removed, and never the minimum of a key. */
  lemma RemovedNotMin<K>(table: map<int, K>, groups: seq<Group<K>>, i: nat)
    requires GroupsMatch(table, groups) && i <= |groups|
    ensures forall id :: id in Removed(groups, i) ==> id in table && Duplicated(table, id) && !IsGroupMin(table, id)
  {
    RemovedIff(groups, i);
    forall id | id in Removed(groups, i) ensures id in table && Duplicated(table, id) && !IsGroupMin(table, id) {
      var k :| 0 <= k < i && id in groups[k].ids && id != MinOf(groups[k].ids);
      var g := groups[k];
      var m := MinOf(g.ids);
      assert m in table && table[m] == table[id] && m < id;
    }
  }

  lemma MinusTwice<K>(m: map<int, K>, a: set<int>, b: set<int>)
    ensures (m - a) - b == m - (a + b)
  {
  }

  lemma SubsetDiffCard(a: set<int>, b: set<int>)
    requires b <= a
    ensures |a - b| == |a| - |b|
  {
    assert a == (a - b) + b;
    assert (a - b) * b == {};
  }

  /** The next pass removes `|ids| - 1` ids, none removed before. */
  lemma RemovedStep<K>(table: map<int, K>, groups: seq<Group<K>>, i: nat)
    requires GroupsMatch(table, groups) && KeysDistinct(groups) && i < |groups|
    ensures |Removed(groups, i + 1)| == |Removed(groups, i)| + |groups[i].ids| - 1
    ensures |Removed(groups, i + 1)| == |Removed(groups, i)| + |DeleteIds(groups[i])|
  {
    DeleteIdsCount(groups[i]);
    RemovedIff(groups, i);
    var g := groups[i];
    DistinctCard(g.ids);
    var r, d := Removed(groups, i), Doomed(g);
    assert d == (set x | x in g.ids) - {MinOf(g.ids)};
    assert r * d == {} by {
      forall id | id in r && id in d ensures false {
      }
    }
    assert |r + d| == |r| + |d|;
  }

  /** Every row that is not the minimum of its key lies in some group, below its minimum. */
  lemma NonMinRemoved<K>(table: map<int, K>, groups: seq<Group<K>>)
    requires QueryResult(table, groups)
    ensures forall id :: id in table && !IsGroupMin(table, id) ==> id in Removed(groups, |groups|)
  {
    RemovedIff(groups, |groups|);
    forall id | id in table && !IsGroupMin(table, id) ensures id in Removed(groups, |groups|) {
      var j :| j in table && table[j] == table[id] && j < id;
      assert Duplicated(table, id);
      var k :| 0 <= k < |groups| && groups[k].key == table[id];
      assert j in groups[k].ids && id in groups[k].ids;
    }
  }

  /** Removing exactly the non-minimal rows leaves the minimum-id row of every key. */
  lemma RemoveNonMin<K>(table: map<int, K>, r: set<int>)
    requires forall id :: id in r ==> id in table && !IsGroupMin(table, id)
    requires forall id :: id in table && !IsGroupMin(table, id) ==> id in r
    ensures table - r == KeepMin(table)
  {
    var left, keep := table - r, KeepMin(table);
    assert left.Keys == keep.Keys;
  }

  /** After every pass, what is left is the minimum-id row of every key. */
  lemma RemovedAll<K>(table: map<int, K>, groups: seq<Group<K>>)
    requires QueryResult(table, groups)
    ensures table - Removed(groups, |groups|) == KeepMin(table)
  {
    RemovedNotMin(table, groups, |groups|);
    NonMinRemoved(table, groups);
    RemoveNonMin(table, Removed(groups, |groups|));
  }

  /** How many groups the loop gets through: up to the first group without a title. */
  function Reached<K>(groups: seq<Group<K>>): (n: nat)
    ensures n <= |groups|
    ensures forall k :: 0 <= k < n ==> groups[k].labelled
    ensures n < |groups| ==> !groups[n].labelled
  {
    if groups == [] || !groups[0].labelled then 0 else 1 + Reached(groups[1..])
  }

  /** Up to the first unlabelled group, a group is reached exactly when it is labelled. */
  lemma ReachedAt<K>(groups: seq<Group<K>>, i: nat)
    requires i <= Reached(groups) && i < |groups|
    ensures groups[i].labelled <==> i < Reached(groups)
  {
  }

  /** `deletedObs` (or `deletedSum`) after the first `i` groups: the sum of their `deleteIds.length`. */
  function Tally<K>(groups: seq<Group<K>>, i: nat): nat
    requires i <= |groups|
    requires NonEmpty(groups)
  {
    if i == 0 then 0 else Tally(groups, i - 1) + |DeleteIds(groups[i - 1])|
  }

  /** Pass `k` removes exactly its `deleteIds`, none of them removed before. */
  ghost predicate StepCounted<K>(groups: seq<Group<K>>, k: nat)
    requires k < |groups|
    requires NonEmpty(groups)
  {
    |Removed(groups, k + 1)| == |Removed(groups, k)| + |DeleteIds(groups[k])|
  }

  /** Step by step, the tally follows the number of ids removed. */
  lemma {:induction false} TallyCounts<K>(groups: seq<Group<K>>, i: nat)
    requires i <= |groups|
    requires NonEmpty(groups)
    requires forall k :: 0 <= k < i ==> StepCounted(groups, k)
    ensures Tally(groups, i) == |Removed(groups, i)|
  {
    if i > 0 {
      var j := i - 1;
      TallyCounts(groups, j);
      var a, b := Tally(groups, j), |Removed(groups, j)|;
      assert StepCounted(groups, j);
      var c := |DeleteIds(groups[j])|;
      assert |Removed(groups, i)| == b + c;
      assert Tally(groups, i) == a + c;
    }
  }

  /** The count reported is the number of rows actually removed. */
  lemma TallyRemoved<K>(table: map<int, K>, groups: seq<Group<K>>, i: nat)
    requires GroupsMatch(table, groups) && KeysDistinct(groups) && i <= |groups|
    ensures Tally(groups, i) == |Removed(groups, i)|
  {
    forall k | 0 <= k < i
      ensures StepCounted(groups, k)
    {
      RemovedStep(table, groups, k);
    }
    TallyCounts(groups, i);
  }

  /** One more pass removes the group's `deleteIds` from what is left and adds their number to the count. */
  lemma PassStep<K>(table: map<int, K>, groups: seq<Group<K>>, i: nat)
    requires i < |groups|
    requires NonEmpty(groups)
    ensures table - Removed(groups, i + 1) == (table - Removed(groups, i)) - Doomed(groups[i])
    ensures Tally(groups, i + 1) == Tally(groups, i) + |DeleteIds(groups[i])|
  {
    MinusTwice(table, Removed(groups, i), Doomed(groups[i]));
  }

  /** The body of one table's loop for a labelled group: keep the minimum id, delete the rest. */
  method DeleteGroup<K>(ghost table: map<int, K>, groups: seq<Group<K>>, i: nat, t: map<int, K>, deleted: nat)
    returns (t': map<int, K>, deleted': nat)
    requires i < |groups|
    requires NonEmpty(groups)
    requires t == table - Removed(groups, i) && deleted == Tally(groups, i)
    ensures t' == table - Removed(groups, i + 1) && deleted' == Tally(groups, i + 1)
  {
    var g := groups[i];
    var keepId := MinOf(g.ids);
    var deleteIds := Filter(g.ids, Other(keepId));
    PassStep(table, groups, i);
    assert deleteIds == DeleteIds(g);
    t', deleted' := t, deleted;
    if |deleteIds| > 0 {
      t' := t - IdSet(deleteIds);
      deleted' := deleted + |deleteIds|;
    }
  }

  /**
   * One table's loop.  For a group whose title (or request) is null the log
   * line's `substring` throws, before that group is deleted, and the run
   * stops with `aborted`.
   */
  method DeleteDuplicates<K(==)>(table: map<int, K>, groups: seq<Group<K>>)
    returns (t: map<int, K>, deleted: nat, aborted: bool)
    requires NonEmpty(groups)
    ensures aborted <==> Reached(groups) < |groups|
    ensures t == table - Removed(groups, Reached(groups))
    ensures deleted == Tally(groups, Reached(groups))
  {
    t := table;
    deleted := 0;
    var i := 0;
    while i < |groups|
      invariant 0 <= i <= Reached(groups)
      invariant t == table - Removed(groups, i)
      invariant deleted == Tally(groups, i)
    {
      ReachedAt(groups, i);
      if !groups[i].labelled {
        break;
      }
      t, deleted := DeleteGroup(table, groups, i, t, deleted);
      i := i + 1;
    }
    assert i == Reached(groups);
    aborted := i < |groups|;
  }

  /** The rows a partial run removes are a subset of the table, counted exactly. */
  lemma DeletedCount<K>(table: map<int, K>, groups: seq<Group<K>>, i: nat)
    requires GroupsMatch(table, groups) && KeysDistinct(groups) && i <= |groups|
    ensures Tally(groups, i) + |(table - Removed(groups, i)).Keys| == |table.Keys|
  {
    TallyRemoved(table, groups, i);
    RemovedInTable(table, groups, i);
    SubsetDiffCard(table.Keys, Removed(groups, i));
    assert (table - Removed(groups, i)).Keys == table.Keys - Removed(groups, i);
  }

  /**
   * What a pass over a table guarantees, complete or not: rows are only
   * removed, the count reported is the number removed, a row whose key is
   * unique or which is the minimum of its key survives, and a complete run
   * leaves exactly the minimum-id row of every key.
   */
  lemma DeleteDuplicatesSpec<K>(table: map<int, K>, groups: seq<Group<K>>, i: nat)
    requires QueryResult(table, groups) && i <= |groups|
    ensures var t := table - Removed(groups, i);
      t.Keys <= table.Keys
      && Tally(groups, i) + |t.Keys| == |table.Keys|
      && (forall id :: id in table && !Duplicated(table, id) ==> id in t)
      && (forall id :: id in table && IsGroupMin(table, id) ==> id in t)
      && (i == |groups| ==> t == KeepMin(table))
  {
    DeletedCount(table, groups, i);
    RemovedNotMin(table, groups, i);
    if i == |groups| {
      RemovedAll(table, groups);
    }
  }

  /**
   * `main`: observations first, then summaries; the total reported is the sum
   * of both counts.  An abort in the observation pass skips the summary pass.
   */
  method RunCleanup<K(==), L(==)>(observations: map<int, K>, obsGroups: seq<Group<K>>,
                    summaries: map<int, L>, sumGroups: seq<Group<L>>)
    returns (obs: map<int, K>, sums: map<int, L>, total: nat, aborted: bool)
    requires QueryResult(observations, obsGroups) && QueryResult(summaries, sumGroups)
    ensures !aborted ==> obs == KeepMin(observations) && sums == KeepMin(summaries)
    ensures !aborted ==> total == (|observations.Keys| - |obs.Keys|) + (|summaries.Keys| - |sums.Keys|)
    ensures Reached(obsGroups) < |obsGroups| ==> aborted && sums == summaries
  {
    var deletedObs, deletedSum;
    obs, deletedObs, aborted := DeleteDuplicates(observations, obsGroups);
    DeleteDuplicatesSpec(observations, obsGroups, Reached(obsGroups));
    if aborted {
      return obs, summaries, deletedObs, true;
    }
    sums, deletedSum, aborted := DeleteDuplicates(summaries, sumGroups);
    DeleteDuplicatesSpec(summaries, sumGroups, Reached(sumGroups));
    total := deletedObs + deletedSum;
  }
}
