/**
 * The viewer's list utilities: the size guard and truncation, first-occurrence
 * de-duplication by id, the live/paginated merge, batch processing and the
 * variadic merge.  Items are rows with an integer `id` and an opaque payload.
 */
module ViewerData {
  import opened Wrappers
  import opened Lists

  datatype Row<T> = Row(id: int, data: T)

  const MaxArraySize: nat := 1000

  /** `isSafeArraySize`: strictly fewer than 1000 items. */
  predicate IsSafeArraySize(n: nat)
  {
    n < MaxArraySize
  }

  /** `truncateArray`: unchanged when short enough, otherwise its first `maxSize` items. */
  function TruncateArray<T>(arr: seq<T>, maxSize: nat): (r: seq<T>)
    ensures |arr| <= maxSize ==> r == arr
    ensures |arr| > maxSize ==> |r| == maxSize && r == arr[..maxSize]
  {
    if |arr| <= maxSize then arr else arr[..maxSize]
  }

  /** The ids occurring in `s`. */
  function IdsOf<T>(s: seq<Row<T>>): set<int>
  {
    set i | 0 <= i < |s| :: s[i].id
  }

  /**
   * The `seen`-set scan shared by the merge and by `deduplicateById`: walk the
   * items in order and keep an item exactly when its id has not been seen yet.
   */
  function DedupeFrom<T>(s: seq<Row<T>>, seen: set<int>): (r: seq<Row<T>>)
    ensures |r| <= |s|
  {
    if s == [] then []
    else if s[0].id in seen then DedupeFrom(s[1..], seen)
    else [s[0]] + DedupeFrom(s[1..], seen + {s[0].id})
  }

  function Dedupe<T>(s: seq<Row<T>>): seq<Row<T>>
  {
    DedupeFrom(s, {})
  }

  /** No two items of `s` share an id. */
  predicate DistinctIds<T>(s: seq<Row<T>>)
  {
    forall i, j :: 0 <= i < j < |s| ==> s[i].id != s[j].id
  }

  /** No kept id was already seen, and no two kept items share an id. */
  lemma {:induction false} DedupeDistinct<T>(s: seq<Row<T>>, seen: set<int>)
    ensures DistinctIds(DedupeFrom(s, seen))
    ensures forall i :: 0 <= i < |DedupeFrom(s, seen)| ==> DedupeFrom(s, seen)[i].id !in seen
  {
    if s != [] {
      if s[0].id in seen {
        DedupeDistinct(s[1..], seen);
      } else {
        var seen' := seen + {s[0].id};
        DedupeDistinct(s[1..], seen');
        var t := DedupeFrom(s[1..], seen');
        var r := DedupeFrom(s, seen);
        assert r == [s[0]] + t;
        forall i, j | 0 <= i < j < |r| ensures r[i].id != r[j].id {
          assert r[j] == t[j - 1];
          if i > 0 { assert r[i] == t[i - 1]; }
        }
        forall i | 0 <= i < |r| ensures r[i].id !in seen {
          if i > 0 { assert r[i] == t[i - 1]; }
        }
      }
    }
  }

  /** The ids of a non-empty list: its head's id and the ids of its tail. */
  lemma IdsOfCons<T>(s: seq<Row<T>>)
    requires s != []
    ensures IdsOf(s) == {s[0].id} + IdsOf(s[1..])
  {
    forall x | x in IdsOf(s) ensures x in {s[0].id} + IdsOf(s[1..]) {
      var i :| 0 <= i < |s| && s[i].id == x;
      if i > 0 { assert s[1..][i - 1] == s[i]; }
    }
    forall x | x in IdsOf(s[1..]) ensures x in IdsOf(s) {
      var i :| 0 <= i < |s[1..]| && s[1..][i].id == x;
      assert s[i + 1].id == x;
    }
  }

  /** Exactly the unseen ids of the input survive: nothing is lost, nothing is invented. */
  lemma {:induction false} DedupeIds<T>(s: seq<Row<T>>, seen: set<int>)
    ensures IdsOf(DedupeFrom(s, seen)) == IdsOf(s) - seen
  {
    if s != [] {
      var seen' := if s[0].id in seen then seen else seen + {s[0].id};
      DedupeIds(s[1..], seen');
      IdsOfCons(s);
      if s[0].id !in seen {
        var r := DedupeFrom(s, seen);
        assert r == [s[0]] + DedupeFrom(s[1..], seen');
        assert r[1..] == DedupeFrom(s[1..], seen');
        IdsOfCons(r);
      }
    }
  }

  /**
   * Where the `k`-th kept item came from: an index holding that very item,
   * before which its id never occurs, so the kept item is the FIRST
   * occurrence of its id.  Origins increase with `k` (DedupeOrdered).
   */
  ghost function {:induction false} DedupeOrigin<T>(s: seq<Row<T>>, seen: set<int>, k: nat): (i: nat)
    requires k < |DedupeFrom(s, seen)|
    ensures i < |s| && s[i] == DedupeFrom(s, seen)[k]
    ensures forall j :: 0 <= j < i ==> s[j].id != s[i].id
  {
    DedupeDistinct(s, seen);
    if s[0].id in seen then
      DedupeDistinct(s[1..], seen);
      var i := DedupeOrigin(s[1..], seen, k) + 1;
      assert s[i].id !in seen;
      i
    else if k == 0 then 0
    else
      var seen' := seen + {s[0].id};
      DedupeDistinct(s[1..], seen');
      var i := DedupeOrigin(s[1..], seen', k - 1) + 1;
      assert s[i].id !in seen';
      i
  }

  lemma {:induction false} DedupeOrdered<T>(s: seq<Row<T>>, seen: set<int>, k1: nat, k2: nat)
    requires k1 < k2 < |DedupeFrom(s, seen)|
    ensures DedupeOrigin(s, seen, k1) < DedupeOrigin(s, seen, k2)
  {
    if s[0].id in seen {
      DedupeOrdered(s[1..], seen, k1, k2);
    } else if k1 > 0 {
      DedupeOrdered(s[1..], seen + {s[0].id}, k1 - 1, k2 - 1);
    }
  }

  /** `deduplicateById`: `filter` with a closure that records each id it lets through. */
  method DeduplicateById<T>(arr: seq<Row<T>>) returns (result: seq<Row<T>>)
    ensures result == Dedupe(arr)
  {
    var seen: set<int> := {};
    result := [];
    var i := 0;
    while i < |arr|
      invariant 0 <= i <= |arr|
      invariant result + DedupeFrom(arr[i..], seen) == Dedupe(arr)
    {
      assert arr[i..][1..] == arr[i + 1..];
      if arr[i].id !in seen {
        seen := seen + {arr[i].id};
        result := result + [arr[i]];
      }
      i := i + 1;
    }
  }

  /**
   * `mergeAndDeduplicateByProject` AS WRITTEN.  `paginated` is `None` when
   * the argument is `undefined`.  An oversized input is truncated to exactly
   * 1000 items and passed to a recursive call, which meets the same guard
   * again; `fuel` bounds the call depth, and running out of it stands for the
   * stack overflow.  Touching `undefined.length` is a TypeError.
   */
  function MergeAsWritten<T>(live: seq<Row<T>>, paginated: Option<seq<Row<T>>>, fuel: nat): (r: Result<seq<Row<T>>>)
    decreases fuel
  {
    if !IsSafeArraySize(|live|) then
      if paginated.None? then Err("TypeError")
      else if fuel == 0 then Err("RangeError")
      else MergeAsWritten(TruncateArray(live, MaxArraySize), Some(TruncateArray(paginated.value, MaxArraySize)), fuel - 1)
    else if paginated.None? then Err("TypeError")
    else if !IsSafeArraySize(|paginated.value|) then
      if fuel == 0 then Err("RangeError")
      else MergeAsWritten(TruncateArray(live, MaxArraySize), Some(TruncateArray(paginated.value, MaxArraySize)), fuel - 1)
    else Ok(Dedupe(live + paginated.value))
  }

  /** With 1000 or more items on either side, no call depth is ever enough: the merge never returns. */
  lemma {:induction false} MergeAsWrittenNeverReturns<T>(live: seq<Row<T>>, paginated: seq<Row<T>>, fuel: nat)
    requires |live| >= MaxArraySize || |paginated| >= MaxArraySize
    ensures MergeAsWritten(live, Some(paginated), fuel) == Err("RangeError")
  {
    if fuel > 0 {
      MergeAsWrittenNeverReturns(TruncateArray(live, MaxArraySize), TruncateArray(paginated, MaxArraySize), fuel - 1);
    }
  }

  /** Two 1000-item lists: the as-written merge overflows at every depth, the corrected one keeps every id. */
  lemma MergeCounterexample(fuel: nat)
    ensures var big := seq(1000, i => Row(i, 0));
      MergeAsWritten(big, Some(big), fuel) == Err("RangeError") && IdsOf(MergeSpec(big, big)) == IdsOf(big)
  {
    var big := seq(1000, i => Row(i, 0));
    MergeAsWrittenNeverReturns(big, big, fuel);
    MergeSpecProperties(big, big, fuel);
    assert IdsOf(big + big) == IdsOf(big) by {
      forall x | x in IdsOf(big + big) ensures x in IdsOf(big) {
        var i :| 0 <= i < 2000 && (big + big)[i].id == x;
        if i >= 1000 { assert (big + big)[i] == big[i - 1000]; }
      }
      forall x | x in IdsOf(big) ensures x in IdsOf(big + big) {
        var i :| 0 <= i < 1000 && big[i].id == x;
        assert (big + big)[i] == big[i];
      }
    }
  }

  /**
   * The evidently intended merge: truncate oversized inputs to 1000 items
   * and then scan live items before paginated ones, keeping the first item
   * of each id.
   */
  function MergeSpec<T>(live: seq<Row<T>>, paginated: seq<Row<T>>): seq<Row<T>>
  {
    Dedupe(TruncateArray(live, MaxArraySize) + TruncateArray(paginated, MaxArraySize))
  }

  /**
   * The intended merge returns pairwise-distinct ids, exactly the ids of the
   * (truncated) inputs, each item being the first of its id with live items
   * scanned first; on inputs within the limit it agrees with the code as written.
   */
  lemma MergeSpecProperties<T>(live: seq<Row<T>>, paginated: seq<Row<T>>, fuel: nat)
    ensures var r := MergeSpec(live, paginated);
      DistinctIds(r) && IdsOf(r) == IdsOf(TruncateArray(live, MaxArraySize) + TruncateArray(paginated, MaxArraySize))
    ensures IsSafeArraySize(|live|) && IsSafeArraySize(|paginated|) ==>
      MergeAsWritten(live, Some(paginated), fuel) == Ok(MergeSpec(live, paginated))
  {
    var all := TruncateArray(live, MaxArraySize) + TruncateArray(paginated, MaxArraySize);
    DedupeDistinct(all, {});
    DedupeIds(all, {});
  }

  /** The corrected `mergeAndDeduplicateByProject`: the same scan as `deduplicateById` over the truncated concatenation. */
  method MergeAndDeduplicateByProject<T>(live: seq<Row<T>>, paginated: seq<Row<T>>) returns (result: seq<Row<T>>)
    ensures result == MergeSpec(live, paginated)
    ensures DistinctIds(result)
  {
    var l := TruncateArray(live, MaxArraySize);
    var p := TruncateArray(paginated, MaxArraySize);
    result := DeduplicateById(l + p);
    DedupeDistinct(l + p, {});
  }

  /** `arrays.flat()`. */
  function Flatten<T>(arrays: seq<seq<T>>): seq<T>
  {
    if arrays == [] then [] else arrays[0] + Flatten(arrays[1..])
  }

  /**
   * `mergeMultiple` AS WRITTEN passes the flattened list as the only argument,
   * so `paginatedItems` is `undefined`: the call throws whatever the arrays hold.
   */
  lemma MergeMultipleAsWrittenThrows<T>(arrays: seq<seq<Row<T>>>, fuel: nat)
    ensures MergeAsWritten(Flatten(arrays), None, fuel).Err?
  {
  }

  /** The evidently intended `mergeMultiple`: merge the flattened lists with nothing paginated. */
  method MergeMultiple<T>(arrays: seq<seq<Row<T>>>) returns (result: seq<Row<T>>)
    ensures result == MergeSpec(Flatten(arrays), [])
    ensures DistinctIds(result)
  {
    result := MergeAndDeduplicateByProject(Flatten(arrays), []);
  }

  function Min(a: int, b: int): int
  {
    if a <= b then a else b
  }

  /** What `processInBatches` computes: the processor's outputs on consecutive `batchSize` slices, concatenated. */
  function Batched<T, R>(arr: seq<T>, processor: seq<T> -> seq<R>, batchSize: nat): seq<R>
    requires batchSize > 0
    decreases |arr|
  {
    if arr == [] then []
    else processor(arr[..Min(batchSize, |arr|)]) + Batched(arr[Min(batchSize, |arr|)..], processor, batchSize)
  }

  /** `processInBatches`: the `for (i = 0; i < arr.length; i += batchSize)` loop. */
  method ProcessInBatches<T, R>(arr: seq<T>, processor: seq<T> -> seq<R>, batchSize: nat) returns (results: seq<R>)
    requires batchSize > 0
    ensures results == Batched(arr, processor, batchSize)
  {
    results := [];
    var i := 0;
    while i < |arr|
      invariant 0 <= i
      invariant results + Batched(arr[Min(i, |arr|)..], processor, batchSize) == Batched(arr, processor, batchSize)
      decreases |arr| - i
    {
      var batch := Slice(arr, i, i + batchSize);
      assert batch == arr[i..][..Min(batchSize, |arr| - i)];
      assert arr[i..][Min(batchSize, |arr| - i)..] == arr[Min(i + batchSize, |arr|)..];
      results := results + processor(batch);
      i := i + batchSize;
    }
  }

  /** A JavaScript `slice` bound: a negative one counts back from the end, and both are clamped to the array. */
  function SliceBound(len: nat, k: int): (n: nat)
    ensures n <= len
  {
    if k < 0 then (if len + k < 0 then 0 else len + k) else if k <= len then k else len
  }

  /** `arr.slice(lo, hi)` for any integer bounds. */
  function JsSlice<T>(arr: seq<T>, lo: int, hi: int): seq<T>
  {
    var a := SliceBound(|arr|, lo);
    var b := SliceBound(|arr|, hi);
    if a <= b then arr[a..b] else []
  }

  /**
   * The `processInBatches` loop as written, for any `batchSize` and at most
   * `fuel` iterations from index `i`: the concatenated outputs, or `None`
   * when the loop is still running after `fuel` iterations.
   */
  function BatchLoopAsWritten<T, R>(arr: seq<T>, processor: seq<T> -> seq<R>, batchSize: int, i: int, fuel: nat)
    : Option<seq<R>>
    decreases fuel
  {
    if i >= |arr| then Some([])
    else if fuel == 0 then None
    else match BatchLoopAsWritten(arr, processor, batchSize, i + batchSize, fuel - 1)
      case None => None
      case Some(rest) => Some(processor(JsSlice(arr, i, i + batchSize)) + rest)
  }

  /**
   * With a `batchSize` of 0 (or below) and a non-empty array, `i += batchSize`
   * never brings `i` up to the length: however many iterations are allowed,
   * the loop is still running.
   */
  lemma {:induction false} BatchSizeZeroNeverEnds<T, R>(arr: seq<T>, processor: seq<T> -> seq<R>, batchSize: int, i: int, fuel: nat)
    requires batchSize <= 0 && i <= 0 && |arr| > 0
    ensures BatchLoopAsWritten(arr, processor, batchSize, i, fuel) == None
    decreases fuel
  {
    if fuel > 0 {
      BatchSizeZeroNeverEnds(arr, processor, batchSize, i + batchSize, fuel - 1);
    }
  }

  /**
   * With a positive `batchSize` the loop as written ends within
   * `ceil((|arr| - i) / batchSize)` iterations and computes `Batched` of the
   * rest of the array.
   */
  lemma {:induction false} BatchLoopAgrees<T, R>(arr: seq<T>, processor: seq<T> -> seq<R>, batchSize: int, i: nat, fuel: nat)
    requires batchSize > 0 && i + fuel * batchSize >= |arr|
    ensures BatchLoopAsWritten(arr, processor, batchSize, i, fuel) == Some(Batched(arr[Min(i, |arr|)..], processor, batchSize))
    decreases fuel
  {
    if i < |arr| {
      assert fuel > 0;
      BatchLoopAgrees(arr, processor, batchSize, i + batchSize, fuel - 1);
      assert JsSlice(arr, i, i + batchSize) == arr[i..][..Min(batchSize, |arr| - i)];
      assert arr[i..][Min(batchSize, |arr| - i)..] == arr[Min(i + batchSize, |arr|)..];
    }
  }

  function MapWith<T, R>(g: T -> R): seq<T> -> seq<R>
  {
    xs => Map(xs, g)
  }

  lemma MapAppend<T, R>(a: seq<T>, b: seq<T>, g: T -> R)
    ensures Map(a + b, g) == Map(a, g) + Map(b, g)
  {
  }

  /** Batching is invisible to an element-wise processor: the result is the plain `map`. */
  lemma {:induction false} BatchedElementwise<T, R>(arr: seq<T>, g: T -> R, batchSize: nat)
    requires batchSize > 0
    ensures Batched(arr, MapWith(g), batchSize) == Map(arr, g)
    decreases |arr|
  {
    if arr != [] {
      var m := Min(batchSize, |arr|);
      BatchedElementwise(arr[m..], g, batchSize);
      MapAppend(arr[..m], arr[m..], g);
      assert arr[..m] + arr[m..] == arr;
    }
  }
}
