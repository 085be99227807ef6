/**
 * The array operations the front end builds everything from: `filter`,
 * `find` and the id-matching `map` and `filter` of the reducer, as
 * functions on sequences with the properties callers rely on.
 */
module Lists {
  import opened Types

  /** `xs` can be obtained from `ys` by deleting elements (order is kept). */
  predicate IsSubsequence<T(==)>(xs: seq<T>, ys: seq<T>)
    decreases |ys|
  {
    if |ys| == 0 then |xs| == 0
    else
      IsSubsequence(xs, ys[..|ys| - 1])
      || (|xs| > 0 && xs[|xs| - 1] == ys[|ys| - 1] && IsSubsequence(xs[..|xs| - 1], ys[..|ys| - 1]))
  }

  lemma ConcatAssoc<T>(a: seq<T>, b: seq<T>, c: seq<T>)
    ensures a + (b + c) == (a + b) + c
  {
  }

  lemma InitLast<T>(s: seq<T>)
    requires |s| > 0
    ensures s == s[..|s| - 1] + [s[|s| - 1]]
  {
  }

  lemma {:induction false} SubsequenceReflexive<T>(xs: seq<T>)
    ensures IsSubsequence(xs, xs)
    decreases |xs|
  {
    if |xs| > 0 {
      SubsequenceReflexive(xs[..|xs| - 1]);
    }
  }

  /** `xs.filter(p)`: the elements satisfying `p`, in their original order. */
  function Filter<T(==,!new)>(xs: seq<T>, p: T -> bool): (r: seq<T>)
    ensures |r| <= |xs|
    ensures forall i :: 0 <= i < |r| ==> p(r[i])
    ensures forall x :: multiset(r)[x] == if p(x) then multiset(xs)[x] else 0
    ensures IsSubsequence(r, xs)
    decreases |xs|
  {
    if |xs| == 0 then []
    else
      var init, last := xs[..|xs| - 1], xs[|xs| - 1];
      assert xs == init + [last];
      var kept := Filter(init, p);
      if p(last) then
        assert (kept + [last])[..|kept|] == kept;
        kept + [last]
      else
        kept
  }

  /** Filtering a non-empty sequence: filter all but the last element, then keep or drop the last. */
  lemma FilterLast<T(!new)>(xs: seq<T>, p: T -> bool)
    requires |xs| > 0
    ensures Filter(xs, p) == var kept := Filter(xs[..|xs| - 1], p); if p(xs[|xs| - 1]) then kept + [xs[|xs| - 1]] else kept
  {
  }

  /** Filtering a non-empty sequence: the first element's part, then the rest's. */
  lemma FilterFirst<T(!new)>(xs: seq<T>, p: T -> bool)
    requires |xs| > 0
    ensures Filter(xs, p) == Filter([xs[0]], p) + Filter(xs[1..], p)
  {
    assert xs == [xs[0]] + xs[1..];
    FilterAppend([xs[0]], xs[1..], p);
  }

  lemma {:induction false} FilterAppend<T(!new)>(xs: seq<T>, ys: seq<T>, p: T -> bool)
    ensures Filter(xs + ys, p) == Filter(xs, p) + Filter(ys, p)
    decreases |ys|
  {
    if |ys| == 0 {
      assert xs + ys == xs;
    } else {
      var ys' := ys[..|ys| - 1];
      assert (xs + ys)[..|xs + ys| - 1] == xs + ys';
      FilterAppend(xs, ys', p);
    }
  }

  /** Filtering twice by the same predicate is the same as filtering once. */
  lemma {:induction false} FilterIdempotent<T(!new)>(xs: seq<T>, p: T -> bool)
    ensures Filter(Filter(xs, p), p) == Filter(xs, p)
    decreases |xs|
  {
    if |xs| > 0 {
      var init, last := xs[..|xs| - 1], xs[|xs| - 1];
      FilterIdempotent(init, p);
      var kept := Filter(init, p);
      if p(last) {
        FilterAppend(kept, [last], p);
      }
    }
  }

  /** A filter that keeps every element returns the list itself. */
  lemma {:induction false} FilterKeepsAll<T(!new)>(xs: seq<T>, p: T -> bool)
    requires forall i :: 0 <= i < |xs| ==> p(xs[i])
    ensures Filter(xs, p) == xs
    decreases |xs|
  {
    if |xs| > 0 {
      var init := xs[..|xs| - 1];
      FilterKeepsAll(init, p);
      assert init + [xs[|xs| - 1]] == xs;
    }
  }

  /** Two complementary filters split the list: their lengths add up to its length. */
  lemma {:induction false} FilterPartitionLength<T(!new)>(xs: seq<T>, p: T -> bool, q: T -> bool)
    requires forall x :: q(x) == !p(x)
    ensures |Filter(xs, p)| + |Filter(xs, q)| == |xs|
    decreases |xs|
  {
    if |xs| > 0 {
      FilterPartitionLength(xs[..|xs| - 1], p, q);
    }
  }

  /**
   * `xs.findIndex(x => idOf(x) === id)`: the first position whose id is
   * `id`, or -1 when there is none.
   */
  function FindIndex<T>(xs: seq<T>, idOf: T -> string, id: string): (k: int)
    ensures -1 <= k < |xs|
    ensures k >= 0 ==> idOf(xs[k]) == id
    ensures forall j :: 0 <= j < |xs| && (k < 0 || j < k) ==> idOf(xs[j]) != id
    decreases |xs|
  {
    if |xs| == 0 then -1
    else if idOf(xs[0]) == id then 0
    else
      var k := FindIndex(xs[1..], idOf, id);
      if k < 0 then -1 else k + 1
  }

  /** `xs.find(x => idOf(x) === id)`: the first record with that id, if any. */
  function FindById<T>(xs: seq<T>, idOf: T -> string, id: string): (r: Option<T>)
    ensures r.None? <==> forall i :: 0 <= i < |xs| ==> idOf(xs[i]) != id
    ensures r.Some? ==> r.value in xs && idOf(r.value) == id
    ensures r.Some? ==> exists i :: 0 <= i < |xs| && xs[i] == r.value && forall j :: 0 <= j < i ==> idOf(xs[j]) != id
  {
    var k := FindIndex(xs, idOf, id);
    if k < 0 then None else Some(xs[k])
  }

  /**
   * `xs.map(x => idOf(x) === idOf(y) ? y : x)`: every record carrying the
   * id of `y` is replaced by `y`; the others stay where they are.
   */
  function ReplaceById<T>(xs: seq<T>, idOf: T -> string, y: T): (r: seq<T>)
    ensures |r| == |xs|
    ensures forall i :: 0 <= i < |xs| ==> r[i] == if idOf(xs[i]) == idOf(y) then y else xs[i]
    decreases |xs|
  {
    if |xs| == 0 then []
    else
      var init, last := xs[..|xs| - 1], xs[|xs| - 1];
      ReplaceById(init, idOf, y) + [if idOf(last) == idOf(y) then y else last]
  }

  /** Replacing an id that no record carries leaves the list unchanged. */
  lemma ReplaceByIdNoMatch<T>(xs: seq<T>, idOf: T -> string, y: T)
    requires forall i :: 0 <= i < |xs| ==> idOf(xs[i]) != idOf(y)
    ensures ReplaceById(xs, idOf, y) == xs
  {
  }

  /** Replacing by id is idempotent. */
  lemma ReplaceByIdIdempotent<T>(xs: seq<T>, idOf: T -> string, y: T)
    ensures ReplaceById(ReplaceById(xs, idOf, y), idOf, y) == ReplaceById(xs, idOf, y)
  {
  }

  /** The id test the reducer's DELETE filters with. */
  function KeepOtherIds<T(!new)>(idOf: T -> string, id: string): (p: T -> bool)
    ensures forall x :: p(x) <==> idOf(x) != id
  {
    x => idOf(x) != id
  }

  /** `xs.filter(x => idOf(x) !== id)`: drops every record carrying `id`. */
  function RemoveById<T(==,!new)>(xs: seq<T>, idOf: T -> string, id: string): (r: seq<T>)
    ensures forall i :: 0 <= i < |r| ==> idOf(r[i]) != id
    ensures forall x :: idOf(x) != id ==> multiset(r)[x] == multiset(xs)[x]
    ensures IsSubsequence(r, xs)
  {
    Filter(xs, KeepOtherIds(idOf, id))
  }

  /** No record left after removing `id` carries it. */
  lemma RemovedIdsGone<T(!new)>(xs: seq<T>, idOf: T -> string, id: string)
    ensures forall x :: x in RemoveById(xs, idOf, id) ==> idOf(x) != id
  {
    var r := RemoveById(xs, idOf, id);
    forall x | x in r ensures idOf(x) != id {
      var i :| 0 <= i < |r| && r[i] == x;
    }
  }

  /** Removing the same id twice is the same as removing it once. */
  lemma RemoveByIdIdempotent<T(!new)>(xs: seq<T>, idOf: T -> string, id: string)
    ensures RemoveById(RemoveById(xs, idOf, id), idOf, id) == RemoveById(xs, idOf, id)
  {
    FilterIdempotent(xs, KeepOtherIds(idOf, id));
  }

  /** Removing an id that no record carries leaves the list unchanged. */
  lemma RemoveByIdNoMatch<T(!new)>(xs: seq<T>, idOf: T -> string, id: string)
    requires forall i :: 0 <= i < |xs| ==> idOf(xs[i]) != id
    ensures RemoveById(xs, idOf, id) == xs
  {
    FilterKeepsAll(xs, KeepOtherIds(idOf, id));
  }
}
