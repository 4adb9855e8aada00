/**
 * The scan objects counted by Insights and the distribution storage that
 * maps each of them to a count. The storage classes themselves are not part
 * of this model; a storage is a map from scan object to count, and merging one
 * storage into another adds the counts key by key.
 */
module Storage {

  /** Whether a scan object stands for a block material or an entity type. */
  datatype ScanObjectType = MaterialType | EntityType

  /** A countable kind of content, identified by its type and its name. */
  datatype ScanObject = ScanObject(kind: ScanObjectType, name: string)

  /** A distribution storage: how many of each scan object were found. */
  type Distribution = map<ScanObject, nat>

  /** `count(item)`: the count of one scan object, zero when it was never seen. */
  function Count(s: Distribution, item: ScanObject): (r: nat)
    ensures item in s ==> r == s[item]
    ensures item !in s ==> r == 0
  {
    if item in s then s[item] else 0
  }

  /** `mergeRight`: add every count of `from` into `into`. */
  function Merge(into: Distribution, from: Distribution): (r: Distribution)
    ensures r.Keys == into.Keys + from.Keys
    ensures forall item :: Count(r, item) == Count(into, item) + Count(from, item)
  {
    map item | item in into.Keys + from.Keys :: Count(into, item) + Count(from, item)
  }

  /** Two storages are equal when they have the same keys and the same counts. */
  lemma SameCounts(a: Distribution, b: Distribution)
    requires a.Keys == b.Keys
    requires forall item :: Count(a, item) == Count(b, item)
    ensures a == b
  {
    forall item | item in a
      ensures a[item] == b[item]
    {
      assert Count(a, item) == Count(b, item);
    }
  }

  /** The order of a merge does not matter. */
  lemma MergeCommutes(a: Distribution, b: Distribution)
    ensures Merge(a, b) == Merge(b, a)
  {
    SameCounts(Merge(a, b), Merge(b, a));
  }

  /** Nor does the grouping of a chain of merges. */
  lemma MergeAssociates(a: Distribution, b: Distribution, c: Distribution)
    ensures Merge(Merge(a, b), c) == Merge(a, Merge(b, c))
  {
    SameCounts(Merge(Merge(a, b), c), Merge(a, Merge(b, c)));
  }

  /** Merging an empty storage changes nothing. */
  lemma MergeEmpty(a: Distribution)
    ensures Merge(a, map[]) == a
  {
    SameCounts(Merge(a, map[]), a);
  }

  /** The running aggregate after the storages `parts` were merged, in that order, into an empty one. */
  function MergeAll(parts: seq<Distribution>): Distribution
  {
    if parts == [] then map[] else Merge(MergeAll(parts[..|parts| - 1]), parts[|parts| - 1])
  }

  /** The sum of the counts of one scan object over several storages. */
  function SumCounts(parts: seq<Distribution>, item: ScanObject): nat
  {
    if parts == [] then 0 else SumCounts(parts[..|parts| - 1], item) + Count(parts[|parts| - 1], item)
  }

  /** The aggregate holds, for each scan object, the sum of its counts over the merged storages. */
  lemma {:induction false} MergeAllCounts(parts: seq<Distribution>, item: ScanObject)
    ensures Count(MergeAll(parts), item) == SumCounts(parts, item)
  {
    if parts != [] {
      MergeAllCounts(parts[..|parts| - 1], item);
    }
  }

  lemma {:induction false} SumCountsAppend(a: seq<Distribution>, b: seq<Distribution>, item: ScanObject)
    ensures SumCounts(a + b, item) == SumCounts(a, item) + SumCounts(b, item)
    decreases |b|
  {
    if b == [] {
      assert a + b == a;
    } else {
      assert (a + b)[..|a + b| - 1] == a + b[..|b| - 1];
      SumCountsAppend(a, b[..|b| - 1], item);
    }
  }

  /** Summing counts does not depend on the order of the storages. */
  lemma {:induction false} SumCountsPermutation(a: seq<Distribution>, b: seq<Distribution>, item: ScanObject)
    requires multiset(a) == multiset(b)
    ensures SumCounts(a, item) == SumCounts(b, item)
    decreases |a|
  {
    if a != [] {
      var last := a[|a| - 1];
      assert a == a[..|a| - 1] + [last];
      assert last in multiset(b);
      var k :| 0 <= k < |b| && b[k] == last;
      assert b == b[..k] + [last] + b[k + 1..];
      var rest := b[..k] + b[k + 1..];
      assert multiset(a) == multiset(a[..|a| - 1]) + multiset{last};
      assert multiset(b) == multiset(b[..k]) + multiset{last} + multiset(b[k + 1..]);
      assert multiset(rest) == multiset(b[..k]) + multiset(b[k + 1..]);
      assert multiset(a[..|a| - 1]) == multiset(a) - multiset{last};
      assert multiset(rest) == multiset(b) - multiset{last};
      SumCountsPermutation(a[..|a| - 1], rest, item);
      SumCountsAppend(b[..k] + [last], b[k + 1..], item);
      SumCountsAppend(b[..k], [last], item);
      SumCountsAppend(b[..k], b[k + 1..], item);
      assert SumCounts([last], item) == Count(last, item) by {
        var empty: seq<Distribution> := [];
        assert [last][..0] == empty;
      }
    } else {
      assert b == [];
    }
  }

  lemma {:induction false} MergeAllKeys(parts: seq<Distribution>, item: ScanObject)
    ensures item in MergeAll(parts) <==> exists i :: 0 <= i < |parts| && item in parts[i]
  {
    if parts != [] {
      MergeAllKeys(parts[..|parts| - 1], item);
      if item in MergeAll(parts[..|parts| - 1]) {
        var i :| 0 <= i < |parts| - 1 && item in parts[..|parts| - 1][i];
        assert item in parts[i];
      }
    }
  }

  /**
   * The aggregate does not depend on the order in which the storages were
   * merged: completions may arrive in any order.
   */
  lemma MergeAllPermutation(a: seq<Distribution>, b: seq<Distribution>)
    requires multiset(a) == multiset(b)
    ensures MergeAll(a) == MergeAll(b)
  {
    forall item
      ensures Count(MergeAll(a), item) == Count(MergeAll(b), item)
      ensures item in MergeAll(a) <==> item in MergeAll(b)
    {
      MergeAllCounts(a, item);
      MergeAllCounts(b, item);
      SumCountsPermutation(a, b, item);
      MergeAllKeys(a, item);
      MergeAllKeys(b, item);
      if exists i :: 0 <= i < |a| && item in a[i] {
        var i :| 0 <= i < |a| && item in a[i];
        assert a[i] in multiset(b);
      }
      if exists i :: 0 <= i < |b| && item in b[i] {
        var i :| 0 <= i < |b| && item in b[i];
        assert b[i] in multiset(a);
      }
    }
    SameCounts(MergeAll(a), MergeAll(b));
  }
}
