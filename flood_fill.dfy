/**
 * The flood-fill connected-region counter of BlockLimiter's `ScanChunksTask`.
 *
 * A breadth-first search over a grid of voxels laid over a two-dimensional
 * array of chunk snapshots. The grid is 16 voxels per chunk row wide along
 * both x and z, and a cell past the end of a short row reads no material.
 * It starts at the top of the column at the array's corner,
 * spreads through the six axis-adjacent neighbours of every voxel that holds
 * some material, and counts the voxels whose material is the target.
 */
module FloodFill {
  import opened Wrappers
  import opened Sequences

  /** Width of a chunk along x and along z, in voxels. */
  const ChunkSize: int := 16

  /** A voxel coordinate, relative to the corner of the chunk array. */
  datatype Position = Position(x: int, y: int, z: int)

  /**
   * What the search reads: the chunk snapshots, the world's height, and the
   * material lookup on one snapshot at local coordinates. The lookup is a
   * foreign call of the plugin, so it is left uninterpreted: any function will do.
   */
  datatype Volume<!Snapshot, Material> = Volume(
    chunks: seq<seq<Snapshot>>,
    maxHeight: int,
    lookup: (Snapshot, int, int, int) -> Option<Material>)

  // ---------------------------------------------------------------------
  // Coordinates
  // ---------------------------------------------------------------------

  /** Java's integer `/`, which truncates toward zero. */
  function JavaDiv(a: int, b: int): int
    requires b > 0
  {
    if a >= 0 then a / b else -((-a) / b)
  }

  /** Java's integer `%`, whose result takes the sign of the dividend. */
  function JavaRem(a: int, b: int): int
    requires b > 0
  {
    if a >= 0 then a % b else -((-a) % b)
  }

  /** Side of the `examined` grid along x and along z: both use the number of chunk rows. */
  function Width<S, M>(v: Volume<S, M>): int
  {
    |v.chunks| * ChunkSize
  }

  /** The index checks of `examined[x][y][z]`, which throw when they fail. */
  predicate InBounds<S, M>(v: Volume<S, M>, p: Position)
  {
    0 <= p.x < Width(v) && 0 <= p.y < v.maxHeight && 0 <= p.z < Width(v)
  }

  /** Where the search starts: the topmost voxel of the corner column. */
  function Seed<S, M>(v: Volume<S, M>): Position
  {
    Position(0, v.maxHeight - 1, 0)
  }

  /** The cells of the `examined` grid. */
  ghost function Cells<S, M>(v: Volume<S, M>): set<Position>
  {
    set x, y, z | 0 <= x < Width(v) && 0 <= y < v.maxHeight && 0 <= z < Width(v) :: Position(x, y, z)
  }

  /** Every position the search can ever put in its queue. */
  ghost function Universe<S, M>(v: Volume<S, M>): set<Position>
  {
    Cells(v) + {Seed(v)}
  }

  /**
   * `getMaterialAt`: the material at a position, read from chunk
   * (x / 16, z / 16) at local coordinates (x % 16, y, z % 16), with Java's
   * truncating division; absent when the chunk index falls outside the array.
   */
  function MaterialAt<S, M>(v: Volume<S, M>, p: Position): (r: Option<M>)
    ensures r.Some? ==>
      && 0 <= JavaDiv(p.x, ChunkSize) < |v.chunks|
      && 0 <= JavaDiv(p.z, ChunkSize) < |v.chunks[JavaDiv(p.x, ChunkSize)]|
  {
    var cx, cz := JavaDiv(p.x, ChunkSize), JavaDiv(p.z, ChunkSize);
    if 0 <= cx < |v.chunks| && 0 <= cz < |v.chunks[cx]| then
      v.lookup(v.chunks[cx][cz], JavaRem(p.x, ChunkSize), p.y, JavaRem(p.z, ChunkSize))
    else
      None
  }

  /**
   * On a cell of the grid, the lookup reads the chunk that holds the cell, at
   * local coordinates inside that chunk that put the cell back together, as long
   * as the chunk array is square.
   */
  lemma MaterialAtCell<S, M>(v: Volume<S, M>, p: Position)
    requires InBounds(v, p)
    requires forall i :: 0 <= i < |v.chunks| ==> |v.chunks[i]| == |v.chunks|
    ensures var cx, cz, lx, lz := p.x / ChunkSize, p.z / ChunkSize, p.x % ChunkSize, p.z % ChunkSize;
      && 0 <= cx < |v.chunks| && 0 <= cz < |v.chunks|
      && 0 <= lx < ChunkSize && 0 <= lz < ChunkSize
      && p.x == cx * ChunkSize + lx && p.z == cz * ChunkSize + lz
      && MaterialAt(v, p) == v.lookup(v.chunks[cx][cz], lx, p.y, lz)
  {
  }

  /** A column x that lies one chunk row beyond the array reads nothing. */
  lemma MaterialAtPastLastRow<S, M>(v: Volume<S, M>, p: Position)
    requires Width(v) <= p.x
    ensures MaterialAt(v, p) == None
  {
  }

  // ---------------------------------------------------------------------
  // Neighbours and the region the search spreads through
  // ---------------------------------------------------------------------

  /**
   * The six neighbours of a voxel, in the order the source queues them:
   * one step up and down x, then z, then y; each shares a face with `p`, and
   * none repeats.
   */
  function Neighbours(p: Position): (r: seq<Position>)
    ensures |r| == 6 && Distinct(r)
    ensures forall i :: 0 <= i < |r| ==> Adjacent(p, r[i])
    ensures r[0].x > p.x && r[1].x < p.x && r[2].z > p.z && r[3].z < p.z && r[4].y > p.y && r[5].y < p.y
  {
    [ Position(p.x + 1, p.y, p.z), Position(p.x - 1, p.y, p.z),
      Position(p.x, p.y, p.z + 1), Position(p.x, p.y, p.z - 1),
      Position(p.x, p.y + 1, p.z), Position(p.x, p.y - 1, p.z) ]
  }

  function Distance(a: int, b: int): nat
  {
    if a <= b then b - a else a - b
  }

  /** Two voxels share a face: they differ by one along exactly one axis. */
  predicate Adjacent(p: Position, q: Position)
  {
    Distance(p.x, q.x) + Distance(p.y, q.y) + Distance(p.z, q.z) == 1
  }

  /** The neighbours are exactly the face-adjacent voxels. */
  lemma NeighboursAreAdjacent(p: Position, q: Position)
    ensures q in Neighbours(p) <==> Adjacent(p, q)
  {
    if Adjacent(p, q) {
      if q.x != p.x {
        assert q.y == p.y && q.z == p.z;
        assert q == Neighbours(p)[if q.x > p.x then 0 else 1];
      } else if q.z != p.z {
        assert q.y == p.y;
        assert q == Neighbours(p)[if q.z > p.z then 2 else 3];
      } else {
        assert q == Neighbours(p)[if q.y > p.y then 4 else 5];
      }
    }
  }

  /**
   * A dequeued voxel spreads to its neighbours only when it holds some
   * material and lies at or above the floor.
   */
  predicate Expands<S, M>(v: Volume<S, M>, p: Position)
    ensures Expands(v, p) ==> p.y >= 0 && 0 <= JavaDiv(p.x, ChunkSize) < |v.chunks|
  {
    MaterialAt(v, p).Some? && p.y >= 0
  }

  /** The search may move from `p` to `q`. */
  predicate Step<S, M>(v: Volume<S, M>, p: Position, q: Position)
  {
    Expands(v, p) && q in Neighbours(p) && InBounds(v, q)
  }

  /** `path` leads from the seed to `p` by steps of the search. */
  ghost predicate IsPathTo<S, M>(v: Volume<S, M>, path: seq<Position>, p: Position)
  {
    && |path| > 0 && path[0] == Seed(v) && path[|path| - 1] == p
    && forall i :: 0 <= i < |path| - 1 ==> Step(v, path[i], path[i + 1])
  }

  /** The connected region of the seed. */
  ghost predicate Reachable<S, M>(v: Volume<S, M>, p: Position)
  {
    exists path :: IsPathTo(v, path, p)
  }

  /** A region no step of the search leaves. */
  ghost predicate Closed<S, M>(v: Volume<S, M>, region: seq<Position>)
  {
    forall p, q :: p in region && Step(v, p, q) ==> q in region
  }

  /** A region that holds the seed and that no step leaves holds every reachable voxel. */
  lemma {:induction false} ClosedHoldsPath<S, M>(v: Volume<S, M>, region: seq<Position>, path: seq<Position>, p: Position)
    requires Seed(v) in region && Closed(v, region)
    requires IsPathTo(v, path, p)
    ensures p in region
    decreases |path|
  {
    if |path| > 1 {
      var prefix := path[..|path| - 1];
      var last := prefix[|prefix| - 1];
      assert IsPathTo(v, prefix, last);
      ClosedHoldsPath(v, region, prefix, last);
      assert Step(v, last, p);
    }
  }

  /**
   * A closed region around the seed whose voxels are all reachable is exactly
   * the connected region of the seed.
   */
  lemma RegionIsConnectedRegion<S, M>(v: Volume<S, M>, region: seq<Position>)
    requires Seed(v) in region && Closed(v, region)
    requires forall p :: p in region ==> Reachable(v, p)
    ensures forall p :: p in region <==> Reachable(v, p)
  {
    forall p | Reachable(v, p)
      ensures p in region
    {
      var path :| IsPathTo(v, path, p);
      ClosedHoldsPath(v, region, path, p);
    }
  }

  /** Extending a path by one step gives a path. */
  lemma PathExtends<S, M>(v: Volume<S, M>, path: seq<Position>, p: Position, q: Position)
    requires IsPathTo(v, path, p) && Step(v, p, q)
    ensures IsPathTo(v, path + [q], q)
  {
  }

  // ---------------------------------------------------------------------
  // Counting
  // ---------------------------------------------------------------------

  /** A dequeued voxel adds one to the count: it expands and its material is the target. */
  predicate Matches<S, M(==)>(v: Volume<S, M>, target: M, p: Position)
    ensures Matches(v, target, p) ==> Expands(v, p)
  {
    p.y >= 0 && MaterialAt(v, p) == Some(target)
  }

  /** How many voxels of `s` match the target. */
  function CountMatching<S, M(==)>(v: Volume<S, M>, target: M, s: seq<Position>): nat
  {
    if s == [] then 0
    else CountMatching(v, target, s[..|s| - 1]) + (if Matches(v, target, s[|s| - 1]) then 1 else 0)
  }

  /** Taking one more position off the queue adds one to the count exactly when it matches. */
  lemma CountMatchingTake<S, M>(v: Volume<S, M>, target: M, s: seq<Position>, n: nat)
    requires 1 <= n <= |s|
    ensures CountMatching(v, target, s[..n])
      == CountMatching(v, target, s[..n - 1]) + (if Matches(v, target, s[n - 1]) then 1 else 0)
  {
    assert s[..n][..n - 1] == s[..n - 1];
  }

  /** On a sequence without repeats, the count is the number of distinct matching voxels. */
  lemma {:induction false} CountMatchingIsCardinality<S, M>(v: Volume<S, M>, target: M, s: seq<Position>)
    requires Distinct(s)
    ensures CountMatching(v, target, s) == |set p | p in s && Matches(v, target, p)|
    ensures CountMatching(v, target, s) <= |s|
  {
    if s != [] {
      var init, last := s[..|s| - 1], s[|s| - 1];
      assert s == init + [last];
      assert last !in init;
      CountMatchingIsCardinality(v, target, init);
      var before := set p | p in init && Matches(v, target, p);
      var after := set p | p in s && Matches(v, target, p);
      var added := if Matches(v, target, last) then {last} else {};
      forall p | p in after
        ensures p in before + added
      {
        if p != last {
          assert p in init;
        }
      }
      assert after == before + added;
      assert before !! added;
    }
  }

  // ---------------------------------------------------------------------
  // The size of the grid
  // ---------------------------------------------------------------------

  ghost function Row(x: int, y: int, d: nat): set<Position>
  {
    set z | 0 <= z < d :: Position(x, y, z)
  }

  ghost function Slab(x: int, h: nat, d: nat): set<Position>
  {
    set y, z | 0 <= y < h && 0 <= z < d :: Position(x, y, z)
  }

  ghost function Box(w: nat, h: nat, d: nat): set<Position>
  {
    set x, y, z | 0 <= x < w && 0 <= y < h && 0 <= z < d :: Position(x, y, z)
  }

  lemma {:induction false} RowSize(x: int, y: int, d: nat)
    ensures |Row(x, y, d)| == d
  {
    if d > 0 {
      RowSize(x, y, d - 1);
      assert Row(x, y, d) == Row(x, y, d - 1) + {Position(x, y, d - 1)};
    }
  }

  lemma MultiplyBySuccessor(a: nat, b: nat)
    ensures a * b + b == (a + 1) * b
  {
  }

  lemma {:induction false} SlabSize(x: int, h: nat, d: nat)
    ensures |Slab(x, h, d)| == h * d
  {
    if h > 0 {
      SlabSize(x, h - 1, d);
      RowSize(x, h - 1, d);
      SlabSplits(x, h, d);
      MultiplyBySuccessor(h - 1, d);
    }
  }

  lemma SlabSplits(x: int, h: nat, d: nat)
    requires h > 0
    ensures Slab(x, h, d) == Slab(x, h - 1, d) + Row(x, h - 1, d)
    ensures Slab(x, h - 1, d) !! Row(x, h - 1, d)
  {
    forall p | p in Slab(x, h, d)
      ensures p in Slab(x, h - 1, d) + Row(x, h - 1, d)
    {
      if p.y < h - 1 {
        assert p in Slab(x, h - 1, d);
      } else {
        assert p in Row(x, h - 1, d);
      }
    }
  }

  lemma {:induction false} BoxSize(w: nat, h: nat, d: nat)
    ensures |Box(w, h, d)| == w * (h * d)
  {
    if w > 0 {
      BoxSize(w - 1, h, d);
      SlabSize(w - 1, h, d);
      BoxSplits(w, h, d);
      MultiplyBySuccessor(w - 1, h * d);
    }
  }

  lemma BoxSplits(w: nat, h: nat, d: nat)
    requires w > 0
    ensures Box(w, h, d) == Box(w - 1, h, d) + Slab(w - 1, h, d)
    ensures Box(w - 1, h, d) !! Slab(w - 1, h, d)
  {
    forall p | p in Box(w, h, d)
      ensures p in Box(w - 1, h, d) + Slab(w - 1, h, d)
    {
      if p.x < w - 1 {
        assert p in Box(w - 1, h, d);
      } else {
        assert p in Slab(w - 1, h, d);
      }
    }
  }

  /**
   * The grid has `width × maxHeight × width` cells; the seed is one of them
   * unless the grid is empty.
   */
  lemma UniverseSize<S, M>(v: Volume<S, M>)
    requires v.maxHeight >= 0
    ensures |Cells(v)| == Width(v) * (v.maxHeight * Width(v))
    ensures |Universe(v)| == Width(v) * (v.maxHeight * Width(v)) + (if InBounds(v, Seed(v)) then 0 else 1)
  {
    BoxSize(Width(v), v.maxHeight, Width(v));
    assert Cells(v) == Box(Width(v), v.maxHeight, Width(v));
    if InBounds(v, Seed(v)) {
      assert Position(0, v.maxHeight - 1, 0) in Cells(v);
      assert Universe(v) == Cells(v);
    } else {
      assert Seed(v) !in Cells(v);
    }
  }

  // ---------------------------------------------------------------------
  // The search
  // ---------------------------------------------------------------------

  /** `examined` has the shape `width × maxHeight × width`. */
  predicate GridShaped<S, M>(v: Volume<S, M>, examined: array3<bool>)
  {
    examined.Length0 == Width(v) && examined.Length1 == v.maxHeight && examined.Length2 == Width(v)
  }

  /**
   * What holds of the search between two steps: `enqueued` lists, in order,
   * every position ever queued, without repeats, starting at the seed; a cell
   * is marked exactly when it has been queued; and each queued position has a
   * path from the seed.
   */
  ghost predicate Searching<S, M>(v: Volume<S, M>, examined: array3<bool>,
                                  enqueued: seq<Position>, paths: map<Position, seq<Position>>)
    reads examined
  {
    && GridShaped(v, examined)
    && enqueued != [] && enqueued[0] == Seed(v)
    && Distinct(enqueued)
    && (forall i :: 0 <= i < |enqueued| ==> enqueued[i] in Universe(v))
    && |enqueued| <= |Universe(v)|
    && (forall i, j, k :: 0 <= i < Width(v) && 0 <= j < v.maxHeight && 0 <= k < Width(v) ==>
          (examined[i, j, k] <==> Position(i, j, k) in enqueued))
    && (forall i :: 0 <= i < |enqueued| ==> enqueued[i] in paths && IsPathTo(v, paths[enqueued[i]], enqueued[i]))
  }

  /** The nested loops of `run` that set every cell of `examined` to false. */
  method ClearGrid(examined: array3<bool>)
    modifies examined
    ensures forall i, j, k :: 0 <= i < examined.Length0 && 0 <= j < examined.Length1 && 0 <= k < examined.Length2 ==>
      !examined[i, j, k]
  {
    var x := 0;
    while x < examined.Length0
      invariant 0 <= x <= examined.Length0
      invariant forall i, j, k :: 0 <= i < x && 0 <= j < examined.Length1 && 0 <= k < examined.Length2 ==> !examined[i, j, k]
    {
      var y := 0;
      while y < examined.Length1
        invariant 0 <= y <= examined.Length1
        invariant forall i, j, k :: 0 <= i < x && 0 <= j < examined.Length1 && 0 <= k < examined.Length2 ==> !examined[i, j, k]
        invariant forall j, k :: 0 <= j < y && 0 <= k < examined.Length2 ==> !examined[x, j, k]
      {
        var z := 0;
        while z < examined.Length2
          invariant 0 <= z <= examined.Length2
          invariant forall i, j, k :: 0 <= i < x && 0 <= j < examined.Length1 && 0 <= k < examined.Length2 ==> !examined[i, j, k]
          invariant forall j, k :: 0 <= j < y && 0 <= k < examined.Length2 ==> !examined[x, j, k]
          invariant forall k :: 0 <= k < z ==> !examined[x, y, k]
        {
          examined[x, y, z] := false;
          z := z + 1;
        }
        y := y + 1;
      }
      x := x + 1;
    }
  }

  /** Mark `next`, a neighbour of `current` inside the grid and not yet marked, and queue it. */
  method Enqueue<S, M>(v: Volume<S, M>, examined: array3<bool>, current: Position, next: Position, queue: seq<Position>,
                       ghost enqueued: seq<Position>, ghost paths: map<Position, seq<Position>>)
    returns (queue': seq<Position>, ghost enqueued': seq<Position>, ghost paths': map<Position, seq<Position>>)
    requires Searching(v, examined, enqueued, paths)
    requires current in enqueued && Step(v, current, next)
    requires !examined[next.x, next.y, next.z]
    modifies examined
    ensures Searching(v, examined, enqueued', paths')
    ensures enqueued' == enqueued + [next] && queue' == queue + [next]
  {
    examined[next.x, next.y, next.z] := true;
    PathExtends(v, paths[current], current, next);
    paths' := paths[next := paths[current] + [next]];
    enqueued' := enqueued + [next];
    queue' := queue + [next];
    assert next in Cells(v);
    DistinctWithin(enqueued', Universe(v));
  }

  /**
   * The inner loop of `run`: go through the six neighbours of `current` and
   * queue (and mark) each one that is inside the grid and not yet marked.
   * Neighbours outside the grid are dropped, as the source drops the index
   * exception. Afterwards every step out of `current` lands on a queued position.
   */
  method ExamineNeighbours<S, M>(v: Volume<S, M>, examined: array3<bool>, current: Position, queue: seq<Position>,
                                 ghost enqueued: seq<Position>, ghost paths: map<Position, seq<Position>>)
    returns (queue': seq<Position>, ghost enqueued': seq<Position>, ghost paths': map<Position, seq<Position>>)
    requires Searching(v, examined, enqueued, paths)
    requires current in enqueued && Expands(v, current)
    modifies examined
    ensures Searching(v, examined, enqueued', paths')
    ensures |enqueued| <= |enqueued'| && enqueued'[..|enqueued|] == enqueued
    ensures queue' == queue + enqueued'[|enqueued|..]
    ensures forall i :: |enqueued| <= i < |enqueued'| ==> Step(v, current, enqueued'[i]) && enqueued'[i] !in enqueued
    ensures forall q :: Step(v, current, q) ==> q in enqueued'
  {
    queue', enqueued', paths' := queue, enqueued, paths;
    var adjacent := Neighbours(current);
    ghost var done := 0;
    while adjacent != []
      invariant 0 <= done <= 6 && adjacent == Neighbours(current)[done..]
      invariant Searching(v, examined, enqueued', paths')
      invariant |enqueued| <= |enqueued'| && enqueued'[..|enqueued|] == enqueued
      invariant queue' == queue + enqueued'[|enqueued|..]
      invariant forall i :: |enqueued| <= i < |enqueued'| ==> Step(v, current, enqueued'[i]) && enqueued'[i] !in enqueued
      invariant forall k :: 0 <= k < done && InBounds(v, Neighbours(current)[k]) ==> Neighbours(current)[k] in enqueued'
    {
      var next := adjacent[0];
      adjacent := adjacent[1..];
      queue', enqueued', paths' := TryEnqueue(v, examined, current, next, queue', enqueued', paths');
      done := done + 1;
    }
  }

  /**
   * The `try` block of the inner loop: a neighbour inside the grid that is
   * not yet marked is marked and queued; one outside the grid is dropped.
   * Either way a neighbour inside the grid is queued afterwards.
   */
  method TryEnqueue<S, M>(v: Volume<S, M>, examined: array3<bool>, current: Position, next: Position, queue: seq<Position>,
                          ghost enqueued: seq<Position>, ghost paths: map<Position, seq<Position>>)
    returns (queue': seq<Position>, ghost enqueued': seq<Position>, ghost paths': map<Position, seq<Position>>)
    requires Searching(v, examined, enqueued, paths)
    requires current in enqueued && Expands(v, current) && next in Neighbours(current)
    modifies examined
    ensures Searching(v, examined, enqueued', paths')
    ensures || (enqueued' == enqueued && queue' == queue)
            || (enqueued' == enqueued + [next] && queue' == queue + [next] && Step(v, current, next) && next !in enqueued)
    ensures InBounds(v, next) ==> next in enqueued'
  {
    queue', enqueued', paths' := queue, enqueued, paths;
    if InBounds(v, next) && !examined[next.x, next.y, next.z] {
      queue', enqueued', paths' := Enqueue(v, examined, current, next, queue, enqueued, paths);
    }
  }

  /**
   * The start of the search: mark the seed, when it lies inside the grid (the
   * source catches the index exception otherwise), and queue it either way.
   */
  method MarkSeed<S, M>(v: Volume<S, M>, examined: array3<bool>)
    returns (queue: seq<Position>, ghost enqueued: seq<Position>, ghost paths: map<Position, seq<Position>>)
    requires GridShaped(v, examined) && v.maxHeight >= 0
    requires forall i, j, k :: 0 <= i < Width(v) && 0 <= j < v.maxHeight && 0 <= k < Width(v) ==> !examined[i, j, k]
    modifies examined
    ensures Searching(v, examined, enqueued, paths)
    ensures queue == enqueued == [Seed(v)]
  {
    var seed := Seed(v);
    if InBounds(v, seed) {
      examined[seed.x, seed.y, seed.z] := true;
      assert Position(0, v.maxHeight - 1, 0) in Cells(v);
    }
    queue, enqueued, paths := [seed], [seed], map[seed := [seed]];
    DistinctWithin(enqueued, Universe(v));
  }

  /**
   * Once every queued position has been taken off the queue, the positions
   * taken form a closed region of reachable voxels.
   */
  lemma SearchFinished<S, M>(v: Volume<S, M>, examined: array3<bool>,
                             enqueued: seq<Position>, paths: map<Position, seq<Position>>)
    requires Searching(v, examined, enqueued, paths)
    requires forall i, q :: 0 <= i < |enqueued| && Step(v, enqueued[i], q) ==> q in enqueued
    ensures Closed(v, enqueued)
    ensures forall p :: p in enqueued ==> Reachable(v, p)
  {
    forall p | p in enqueued
      ensures Reachable(v, p)
    {
      assert IsPathTo(v, paths[p], p);
    }
  }

  /**
   * After the neighbours of the position taken last (at `head - 1`) are
   * queued, every position taken so far has all its steps queued, and the
   * queue is the old one followed by the new positions.
   */
  lemma QueueGrows<S, M>(v: Volume<S, M>, before: seq<Position>, after: seq<Position>, head: nat)
    requires 1 <= head <= |before| <= |after| && after[..|before|] == before
    requires forall i, q :: 0 <= i < head - 1 && Step(v, before[i], q) ==> q in before
    requires forall q :: Step(v, before[head - 1], q) ==> q in after
    ensures after[..head] == before[..head]
    ensures after[head..] == before[head..] + after[|before|..]
    ensures forall i, q :: 0 <= i < head && Step(v, after[i], q) ==> q in after
  {
    assert after == before + after[|before|..];
    forall i, q | 0 <= i < head && Step(v, after[i], q)
      ensures q in after
    {
      assert after[i] == before[i];
      if i < head - 1 {
        assert q in before;
      }
    }
  }

  // ---------------------------------------------------------------------
  // The task
  // ---------------------------------------------------------------------

  /**
   * `ScanChunksTask`: the chunk snapshots, the material to count and the
   * running count. The lookup stands for the plugin's `getMaterial`.
   */
  class ScanChunksTask<Snapshot, Material(==)> {
    const chunks: seq<seq<Snapshot>>
    const material: Material
    const lookup: (Snapshot, int, int, int) -> Option<Material>
    var materialCount: int

    /** The positions the last run took off its queue, in order. */
    ghost var region: seq<Position>

    constructor (chunks: seq<seq<Snapshot>>, material: Material, lookup: (Snapshot, int, int, int) -> Option<Material>)
      ensures this.chunks == chunks && this.material == material && this.lookup == lookup
      ensures materialCount == 0 && region == []
    {
      this.chunks := chunks;
      this.material := material;
      this.lookup := lookup;
      materialCount := 0;
      region := [];
    }

    /**
     * `run`: clear the `examined` grid, mark and queue the seed, then take
     * positions off the queue until it is empty. A position with no material
     * (or below the floor) is dropped; any other has its neighbours examined
     * and adds one to the count when its material is the target.
     */
    method Run(maxHeight: int)
      requires maxHeight >= 0
      modifies this
      ensures var v := Volume(chunks, maxHeight, lookup);
        && region != [] && region[0] == Seed(v)
        && Distinct(region)
        && (forall i :: 0 <= i < |region| ==> region[i] in Universe(v))
        && |region| <= |Universe(v)|
        && Closed(v, region)
        && (forall p :: p in region <==> Reachable(v, p))
        && materialCount == old(materialCount) + CountMatching(v, material, region)
        && materialCount == old(materialCount) + |set p | p in region && Matches(v, material, p)|
    {
      var v := Volume(chunks, maxHeight, lookup);
      var examined := new bool[|chunks| * ChunkSize, maxHeight, |chunks| * ChunkSize];
      ClearGrid(examined);

      var current := Seed(v);
      var queue;
      ghost var enqueued, paths;
      queue, enqueued, paths := MarkSeed(v, examined);
      ghost var head := 0;

      while queue != []
        invariant Searching(v, examined, enqueued, paths)
        invariant 0 <= head <= |enqueued| && queue == enqueued[head..]
        invariant forall i, q :: 0 <= i < head && Step(v, enqueued[i], q) ==> q in enqueued
        invariant materialCount == old(materialCount) + CountMatching(v, material, enqueued[..head])
        decreases |Universe(v)| - head
      {
        current := queue[0];
        queue := queue[1..];
        head := head + 1;
        CountMatchingTake(v, material, enqueued, head);
        var examinedMaterial := MaterialAt(v, current);
        if examinedMaterial == None || current.y < 0 {
          continue;
        }

        ghost var before := enqueued;
        queue, enqueued, paths := ExamineNeighbours(v, examined, current, queue, enqueued, paths);
        QueueGrows(v, before, enqueued, head);

        if examinedMaterial == Some(material) {
          materialCount := materialCount + 1;
        }
      }
      region := enqueued;
      assert enqueued[..head] == enqueued;
      SearchFinished(v, examined, enqueued, paths);
      RegionIsConnectedRegion(v, enqueued);
      CountMatchingIsCardinality(v, material, enqueued);
    }
  }
}
