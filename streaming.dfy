/** The streaming queries of WorldHelper.cs: the grid of chunk origins a render distance asks for around an
    observer, and the four selections a streaming cycle works from (the positions to render and to generate, the
    renderers and the chunk datas to drop). */
module Streaming {
  import opened Vectors
  import opened ChunkMath
  import opened WorldState

  // ---------------------------------------------------------------- the wanted grid

  /** The chunk origins the inner loop of GetChunkPositionsByRenderDistance adds for one world x: z runs from `z`
      to `endZ` in steps of the chunk size, at world y 0. */
  function GridColumn(d: Dims, x: int, z: int, endZ: int): seq<Vec3>
    requires d.Positive()
    decreases endZ - z
  {
    if z > endZ then [] else [ChunkOrigin(d, Vec3(x, 0, z))] + GridColumn(d, x, z + d.size, endZ)
  }

  /** The chunk origins of the outer loop: x runs from `x` to `endX` in steps of the chunk size, each with a whole
      column. */
  function GridRows(d: Dims, x: int, endX: int, startZ: int, endZ: int): seq<Vec3>
    requires d.Positive()
    decreases endX - x
  {
    if x > endX then [] else GridColumn(d, x, startZ, endZ) + GridRows(d, x + d.size, endX, startZ, endZ)
  }

  /** The positions GetChunkPositionsByRenderDistance lists: both loops run from the observer's coordinate minus
      renderDistance chunk sizes to the coordinate plus as many. */
  function WantedGrid(d: Dims, position: Vec3, renderDistance: int): seq<Vec3>
    requires d.Positive()
  {
    var reach := renderDistance * d.size;
    GridRows(d, position.x - reach, position.x + reach, position.z - reach, position.z + reach)
  }

  /** GetChunkPositionsByRenderDistance: the two nested loops, each adding the chunk origin of (x, 0, z). */
  method GetChunkPositionsByRenderDistance(world: World, position: Vec3, renderDistance: int)
    returns (chunkPositions: seq<Vec3>)
    requires world.Shape().Positive()
    ensures chunkPositions == WantedGrid(world.Shape(), position, renderDistance)
  {
    var d := world.Shape();
    var startX := position.x - renderDistance * world.chunkSize;
    var startZ := position.z - renderDistance * world.chunkSize;
    var endX := position.x + renderDistance * world.chunkSize;
    var endZ := position.z + renderDistance * world.chunkSize;
    chunkPositions := [];
    ghost var grid := GridRows(d, startX, endX, startZ, endZ);
    var x := startX;
    while x <= endX
      invariant chunkPositions + GridRows(d, x, endX, startZ, endZ) == grid
      decreases endX - x
    {
      RowNext(d, x, endX, startZ, endZ, chunkPositions);
      chunkPositions := AddColumn(d, x, startZ, endZ, chunkPositions);
      x := x + world.chunkSize;
    }
  }

  /** The inner loop of GetChunkPositionsByRenderDistance, for one world x. */
  method AddColumn(d: Dims, x: int, startZ: int, endZ: int, listed: seq<Vec3>) returns (chunkPositions: seq<Vec3>)
    requires d.Positive()
    ensures chunkPositions == listed + GridColumn(d, x, startZ, endZ)
  {
    chunkPositions := listed;
    var z := startZ;
    while z <= endZ
      invariant chunkPositions + GridColumn(d, x, z, endZ) == listed + GridColumn(d, x, startZ, endZ)
      decreases endZ - z
    {
      var chunkPosition := ChunkOrigin(d, Vec3(x, 0, z));
      ColumnNext(d, x, z, endZ, chunkPositions);
      chunkPositions := chunkPositions + [chunkPosition];
      z := z + d.size;
    }
  }

  /** One step of the outer loop: the next column moves from the rows to the positions listed. */
  lemma RowNext(d: Dims, x: int, endX: int, startZ: int, endZ: int, listed: seq<Vec3>)
    requires d.Positive() && x <= endX
    ensures listed + GridRows(d, x, endX, startZ, endZ)
      == (listed + GridColumn(d, x, startZ, endZ)) + GridRows(d, x + d.size, endX, startZ, endZ)
  {
  }

  /** One step of the inner loop: the next origin moves from the column to the positions listed. */
  lemma ColumnNext(d: Dims, x: int, z: int, endZ: int, listed: seq<Vec3>)
    requires d.Positive() && z <= endZ
    ensures listed + GridColumn(d, x, z, endZ)
      == (listed + [ChunkOrigin(d, Vec3(x, 0, z))]) + GridColumn(d, x, z + d.size, endZ)
  {
  }

  /** The order the loops list positions in: by x, then by z. */
  predicate Before(a: Vec3, b: Vec3) {
    a.x < b.x || (a.x == b.x && a.z < b.z)
  }

  predicate Increasing(s: seq<Vec3>) {
    forall i, j :: 0 <= i < j < |s| ==> Before(s[i], s[j])
  }

  /** For r >= 0 the grid holds (2r+1)^2 positions, without repetition, ordered by x and then z; they are exactly
      the chunk origins at y 0 that lie at most r chunks from the observer's chunk along x and along z. */
  lemma WantedGridSpec(d: Dims, position: Vec3, r: int)
    requires d.Positive() && r >= 0
    ensures var g := WantedGrid(d, position, r);
      && |g| == (2 * r + 1) * (2 * r + 1)
      && Increasing(g)
      && (forall i, j :: 0 <= i < j < |g| ==> g[i] != g[j])
    ensures var g := WantedGrid(d, position, r);
      var o := ChunkOrigin(d, position);
      forall q :: q in g <==>
        && Aligned(d, q) && q.y == 0
        && o.x - r * d.size <= q.x <= o.x + r * d.size
        && o.z - r * d.size <= q.z <= o.z + r * d.size
  {
    WantedGridOrdered(d, position, r);
    WantedGridMembers(d, position, r);
  }

  /** The count and the order of the grid, which make its positions distinct. */
  lemma WantedGridOrdered(d: Dims, position: Vec3, r: int)
    requires d.Positive() && r >= 0
    ensures var g := WantedGrid(d, position, r);
      && |g| == (2 * r + 1) * (2 * r + 1)
      && Increasing(g)
      && (forall i, j :: 0 <= i < j < |g| ==> g[i] != g[j])
  {
    var reach := r * d.size;
    WantedGridRows(d, position, r);
    RowsCount(d, position.x - reach, 2 * r, position.z - reach, 2 * r);
    RowsIncreasing(d, position.x - reach, 2 * r, position.z - reach, 2 * r);
    var g := WantedGrid(d, position, r);
    forall i, j | 0 <= i < j < |g| ensures g[i] != g[j] {
      assert Before(g[i], g[j]);
    }
  }

  /** The members of the grid. */
  lemma WantedGridMembers(d: Dims, position: Vec3, r: int)
    requires d.Positive() && r >= 0
    ensures var g := WantedGrid(d, position, r);
      var o := ChunkOrigin(d, position);
      forall q :: q in g <==>
        && Aligned(d, q) && q.y == 0
        && o.x - r * d.size <= q.x <= o.x + r * d.size
        && o.z - r * d.size <= q.z <= o.z + r * d.size
  {
    var s := d.size;
    var reach := r * s;
    WantedGridRows(d, position, r);
    assert (2 * r) * s == reach + reach by { Distrib(r, r, s); }
    RowsMembers(d, position.x - reach, 2 * r, position.z - reach, 2 * r);
    WantedGridCorner(d, position, r);
  }

  /** The grid is the rows of 2r + 1 steps from the observer moved back r chunk sizes. */
  lemma WantedGridRows(d: Dims, position: Vec3, r: int)
    requires d.Positive() && r >= 0
    ensures var lo, s := r * d.size, d.size;
      WantedGrid(d, position, r)
      == GridRows(d, position.x - lo, position.x - lo + (2 * r) * s, position.z - lo, position.z - lo + (2 * r) * s)
  {
    Distrib(r, r, d.size);
  }

  /** The floors of the grid's first corner are those of the observer's chunk moved back r chunk sizes. */
  lemma WantedGridCorner(d: Dims, position: Vec3, r: int)
    requires d.Positive() && r >= 0
    ensures var o, lo := ChunkOrigin(d, position), r * d.size;
      && FloorTo(position.x - lo, d.size) == o.x - lo && FloorTo(position.z - lo, d.size) == o.z - lo
  {
    FloorShift(position.x, -r, d.size);
    FloorShift(position.z, -r, d.size);
    assert (-r) * d.size == -(r * d.size);
  }

  /** A negative render distance asks for nothing: both loops stop at once. */
  lemma WantedGridEmpty(d: Dims, position: Vec3, r: int)
    requires d.Positive() && r < 0
    ensures WantedGrid(d, position, r) == []
  {
    MulAtLeast(-r, d.size);
    assert r * d.size == -((-r) * d.size);
  }

  /** Moving a coordinate by whole chunk sizes moves its floor by as much. */
  lemma FloorShift(v: int, k: int, n: int)
    requires n > 0
    ensures FloorTo(v + k * n, n) == FloorTo(v, n) + k * n
  {
    DivModUnique(v + k * n, n, v / n + k, v % n);
    Distrib(v / n, k, n);
  }

  /** Two different multiples of n are at least n apart. */
  lemma AlignedGap(a: int, b: int, n: int)
    requires n > 0 && a % n == 0 && b % n == 0 && a < b
    ensures a + n <= b
  {
    var qa, qb := a / n, b / n;
    assert a == qa * n && b == qb * n;
    if qb - qa <= 0 {
      MulMono(0, qa - qb, n);
      Distrib(qa - qb, qb, n);
    } else {
      MulAtLeast(qb - qa, n);
      Distrib(qb - qa, qa, n);
    }
  }

  /** One column with n + 1 steps: n + 1 positions, all at the floor of x and y 0, and exactly the aligned z
      from the floor of z up n chunk sizes, in increasing z. */
  lemma ColumnShape(d: Dims, x: int, z: int, n: nat)
    requires d.Positive()
    ensures var c := GridColumn(d, x, z, z + n * d.size);
      && |c| == n + 1
      && (forall q :: q in c <==>
            && q.x == FloorTo(x, d.size) && q.y == 0 && q.z % d.size == 0
            && FloorTo(z, d.size) <= q.z <= FloorTo(z, d.size) + n * d.size)
      && Increasing(c)
  {
    ColumnMembers(d, x, z, n);
    ColumnIncreasing(d, x, z, n);
  }

  /** The column's first position is the chunk origin of (x, 0, z), followed by the column one chunk size on. */
  lemma ColumnUnfold(d: Dims, x: int, z: int, n: nat)
    requires d.Positive()
    ensures GridColumn(d, x, z, z + n * d.size)
      == [Vec3(FloorTo(x, d.size), 0, FloorTo(z, d.size))] + GridColumn(d, x, z + d.size, z + n * d.size)
    ensures n > 0 ==> z + n * d.size == z + d.size + (n - 1) * d.size
  {
    FloorToSpec(z, d.size);
    if n > 0 {
      Distrib(n - 1, 1, d.size);
    }
  }

  /** The length and the members of a column. */
  lemma {:induction false} ColumnMembers(d: Dims, x: int, z: int, n: nat)
    requires d.Positive()
    decreases n
    ensures var c := GridColumn(d, x, z, z + n * d.size);
      && |c| == n + 1
      && (forall q :: q in c <==>
            && q.x == FloorTo(x, d.size) && q.y == 0 && q.z % d.size == 0
            && FloorTo(z, d.size) <= q.z <= FloorTo(z, d.size) + n * d.size)
  {
    var s := d.size;
    var fz := FloorTo(z, s);
    var c := GridColumn(d, x, z, z + n * s);
    ColumnUnfold(d, x, z, n);
    FloorToSpec(z, s);
    if n == 0 {
      assert GridColumn(d, x, z + s, z + n * s) == [];
    } else {
      ColumnMembers(d, x, z + s, n - 1);
      FloorShift(z, 1, s);
      assert fz + s + (n - 1) * s == fz + n * s by { Distrib(n - 1, 1, s); }
      forall q ensures q in c <==>
        q.x == FloorTo(x, s) && q.y == 0 && q.z % s == 0 && fz <= q.z <= fz + n * s
      {
        if q.x == FloorTo(x, s) && q.y == 0 && q.z % s == 0 && fz < q.z <= fz + n * s {
          AlignedGap(fz, q.z, s);
        }
      }
    }
  }

  /** A column runs in increasing z. */
  lemma {:induction false} ColumnIncreasing(d: Dims, x: int, z: int, n: nat)
    requires d.Positive()
    decreases n
    ensures Increasing(GridColumn(d, x, z, z + n * d.size))
  {
    var s := d.size;
    var head := [Vec3(FloorTo(x, s), 0, FloorTo(z, s))];
    var t := GridColumn(d, x, z + s, z + n * s);
    ColumnUnfold(d, x, z, n);
    if n > 0 {
      ColumnIncreasing(d, x, z + s, n - 1);
      ColumnFrom(d, x, z + s, n - 1);
      FloorShift(z, 1, s);
      ConcatIncreasing(head, t);
    }
  }

  /** A column lies at the floor of its x, at or beyond the floor of its first z. */
  lemma ColumnFrom(d: Dims, x: int, z: int, n: nat)
    requires d.Positive()
    ensures forall p :: p in GridColumn(d, x, z, z + n * d.size) ==>
      p.x == FloorTo(x, d.size) && p.z >= FloorTo(z, d.size)
  {
    ColumnMembers(d, x, z, n);
  }

  /** Rows with m + 1 and n + 1 steps: (m + 1)(n + 1) positions, exactly the aligned positions at y 0 in the
      rectangle from the floors of x and z, in increasing x and then z. */
  lemma RowsShape(d: Dims, x: int, m: nat, z: int, n: nat)
    requires d.Positive()
    ensures var g := GridRows(d, x, x + m * d.size, z, z + n * d.size);
      && |g| == (m + 1) * (n + 1)
      && (forall q :: q in g <==>
            && q.y == 0 && q.x % d.size == 0 && q.z % d.size == 0
            && FloorTo(x, d.size) <= q.x <= FloorTo(x, d.size) + m * d.size
            && FloorTo(z, d.size) <= q.z <= FloorTo(z, d.size) + n * d.size)
      && Increasing(g)
  {
    RowsMembers(d, x, m, z, n);
    RowsIncreasing(d, x, m, z, n);
  }

  /** The length and the members of the rows. */
  lemma RowsMembers(d: Dims, x: int, m: nat, z: int, n: nat)
    requires d.Positive()
    ensures var g := GridRows(d, x, x + m * d.size, z, z + n * d.size);
      && |g| == (m + 1) * (n + 1)
      && (forall q :: q in g <==>
            && q.y == 0 && q.x % d.size == 0 && q.z % d.size == 0
            && FloorTo(x, d.size) <= q.x <= FloorTo(x, d.size) + m * d.size
            && FloorTo(z, d.size) <= q.z <= FloorTo(z, d.size) + n * d.size)
  {
    RowsLength(d, x, m, z, n);
    RowsIn(d, x, m, z, n);
  }

  /** The length of a column. */
  lemma ColumnLength(d: Dims, x: int, z: int, n: nat)
    requires d.Positive()
    ensures |GridColumn(d, x, z, z + n * d.size)| == n + 1
  {
    ColumnMembers(d, x, z, n);
  }

  /** Each of the m + 1 rows adds a column of n + 1. */
  lemma {:induction false} RowsLength(d: Dims, x: int, m: nat, z: int, n: nat)
    requires d.Positive()
    decreases m
    ensures |GridRows(d, x, x + m * d.size, z, z + n * d.size)| == (m + 1) * (n + 1)
  {
    var s := d.size;
    var rest := GridRows(d, x + s, x + m * s, z, z + n * s);
    assert GridRows(d, x, x + m * s, z, z + n * s) == GridColumn(d, x, z, z + n * s) + rest;
    ColumnLength(d, x, z, n);
    if m == 0 {
      assert rest == [];
    } else {
      assert x + s + (m - 1) * s == x + m * s by { Distrib(m - 1, 1, s); }
      RowsLength(d, x + s, m - 1, z, n);
      Distrib(m, 1, n + 1);
    }
  }

  /** The members of the rows: the column of the first x, then the rows after it. */
  lemma {:induction false} RowsIn(d: Dims, x: int, m: nat, z: int, n: nat)
    requires d.Positive()
    decreases m
    ensures forall q :: q in GridRows(d, x, x + m * d.size, z, z + n * d.size) <==>
      && q.y == 0 && q.x % d.size == 0 && q.z % d.size == 0
      && FloorTo(x, d.size) <= q.x <= FloorTo(x, d.size) + m * d.size
      && FloorTo(z, d.size) <= q.z <= FloorTo(z, d.size) + n * d.size
  {
    var s := d.size;
    var fx := FloorTo(x, s);
    var g := GridRows(d, x, x + m * s, z, z + n * s);
    var c := GridColumn(d, x, z, z + n * s);
    var rest := GridRows(d, x + s, x + m * s, z, z + n * s);
    assert g == c + rest;
    ColumnMembers(d, x, z, n);
    FloorToSpec(x, s);
    if m == 0 {
      assert rest == [];
    } else {
      assert x + s + (m - 1) * s == x + m * s by { Distrib(m - 1, 1, s); }
      RowsIn(d, x + s, m - 1, z, n);
      FloorShift(x, 1, s);
      assert fx + s + (m - 1) * s == fx + m * s by { Distrib(m - 1, 1, s); }
      forall q ensures q in g <==>
        && q.y == 0 && q.x % s == 0 && q.z % s == 0
        && fx <= q.x <= fx + m * s
        && FloorTo(z, s) <= q.z <= FloorTo(z, s) + n * s
      {
        assert q in g <==> q in c || q in rest;
        if q.y == 0 && q.x % s == 0 && fx < q.x <= fx + m * s {
          AlignedGap(fx, q.x, s);
        }
      }
    }
  }

  /** The length of the rows. */
  lemma RowsCount(d: Dims, x: int, m: nat, z: int, n: nat)
    requires d.Positive()
    ensures |GridRows(d, x, x + m * d.size, z, z + n * d.size)| == (m + 1) * (n + 1)
  {
    RowsMembers(d, x, m, z, n);
  }

  /** Rows lie at or beyond the floor of their first x. */
  lemma RowsAtLeast(d: Dims, x: int, m: nat, z: int, n: nat)
    requires d.Positive()
    ensures forall q :: q in GridRows(d, x, x + m * d.size, z, z + n * d.size) ==> q.x >= FloorTo(x, d.size)
  {
    RowsMembers(d, x, m, z, n);
  }

  /** Two increasing runs, every position of the first before every position of the second, make one. */
  lemma ConcatIncreasing(a: seq<Vec3>, b: seq<Vec3>)
    requires Increasing(a) && Increasing(b)
    requires forall p, q :: p in a && q in b ==> Before(p, q)
    ensures Increasing(a + b)
  {
    var g := a + b;
    forall i, j | 0 <= i < j < |g| ensures Before(g[i], g[j]) {
      if j < |a| {
        assert g[i] == a[i] && g[j] == a[j];
      } else if i >= |a| {
        assert g[i] == b[i - |a|] && g[j] == b[j - |a|];
      } else {
        assert g[i] == a[i] && g[j] == b[j - |a|];
      }
    }
  }

  /** The rows run in increasing x and then z: each column does, and every later column lies at a greater x. */
  lemma {:induction false} RowsIncreasing(d: Dims, x: int, m: nat, z: int, n: nat)
    requires d.Positive()
    decreases m
    ensures Increasing(GridRows(d, x, x + m * d.size, z, z + n * d.size))
  {
    var s := d.size;
    var fx := FloorTo(x, s);
    var c := GridColumn(d, x, z, z + n * s);
    var rest := GridRows(d, x + s, x + m * s, z, z + n * s);
    assert GridRows(d, x, x + m * s, z, z + n * s) == c + rest;
    ColumnIncreasing(d, x, z, n);
    if m == 0 {
      assert rest == [];
      assert c + rest == c;
    } else {
      assert x + s + (m - 1) * s == x + m * s by { Distrib(m - 1, 1, s); }
      RowsIncreasing(d, x + s, m - 1, z, n);
      RowsAtLeast(d, x + s, m - 1, z, n);
      ColumnFrom(d, x, z, n);
      FloorShift(x, 1, s);
      ConcatIncreasing(c, rest);
    }
  }

  // ---------------------------------------------------------------- selections to generate

  /** Vector3Int.Distance to the observer, squared: OrderBy compares the square roots of these integers. */
  function SquaredDistance(a: Vec3, b: Vec3): int {
    (a.x - b.x) * (a.x - b.x) + (a.y - b.y) * (a.y - b.y) + (a.z - b.z) * (a.z - b.z)
  }

  /** The Where of both ToGenerate selections: the positions, in order, that have no renderer. */
  function Unrendered(positions: seq<Vec3>, rendered: set<Vec3>): seq<Vec3>
    decreases |positions|
  {
    if positions == [] then []
    else
      var last := positions[|positions| - 1];
      Unrendered(positions[..|positions| - 1], rendered) + (if last in rendered then [] else [last])
  }

  /** The positions of a list at one squared distance from the observer, in their order. */
  function AtDistance(s: seq<Vec3>, position: Vec3, k: int): seq<Vec3>
    decreases |s|
  {
    if s == [] then []
    else
      var last := s[|s| - 1];
      AtDistance(s[..|s| - 1], position, k) + (if SquaredDistance(last, position) == k then [last] else [])
  }

  /** Placing one position into a list ordered by distance: after every position at most as far. */
  function Insert(sorted: seq<Vec3>, p: Vec3, position: Vec3): seq<Vec3>
    decreases |sorted|
  {
    if sorted == [] || SquaredDistance(sorted[|sorted| - 1], position) <= SquaredDistance(p, position) then
      sorted + [p]
    else
      Insert(sorted[..|sorted| - 1], p, position) + [sorted[|sorted| - 1]]
  }

  /** OrderBy distance to the observer: a stable sort, each position placed after the earlier ones at most as
      far. */
  function OrderByDistance(s: seq<Vec3>, position: Vec3): seq<Vec3>
    decreases |s|
  {
    if s == [] then [] else Insert(OrderByDistance(s[..|s| - 1], position), s[|s| - 1], position)
  }

  /** SelectChunkPositionsToGenerate and SelectChunkDataPositionsToGenerate, whose bodies are the same query: the
      needed positions without a renderer, nearest first. Both look at the renderers only, never at the chunk
      datas. */
  function SelectPositionsToGenerate(world: World, chunkPositionsNeeded: seq<Vec3>, position: Vec3): seq<Vec3>
    reads world
  {
    OrderByDistance(Unrendered(chunkPositionsNeeded, world.chunkRenderers.Keys), position)
  }

  predicate SortedByDistance(s: seq<Vec3>, position: Vec3) {
    forall i, j :: 0 <= i < j < |s| ==> SquaredDistance(s[i], position) <= SquaredDistance(s[j], position)
  }

  /** The selection to generate holds each needed position without a renderer as often as it is needed, and
      nothing else; it is sorted by distance to the observer; and it is stable: the positions at any one distance
      keep the order the filter left them in. A position that has chunk data but no renderer is selected too. */
  lemma SelectPositionsToGenerateSpec(world: World, chunkPositionsNeeded: seq<Vec3>, position: Vec3)
    ensures var r := SelectPositionsToGenerate(world, chunkPositionsNeeded, position);
      forall q :: multiset(r)[q] == if q in world.chunkRenderers then 0 else multiset(chunkPositionsNeeded)[q]
    ensures SortedByDistance(SelectPositionsToGenerate(world, chunkPositionsNeeded, position), position)
    ensures var r := SelectPositionsToGenerate(world, chunkPositionsNeeded, position);
      var f := Unrendered(chunkPositionsNeeded, world.chunkRenderers.Keys);
      forall k :: AtDistance(r, position, k) == AtDistance(f, position, k)
    ensures forall q :: q in chunkPositionsNeeded && q !in world.chunkRenderers ==>
      q in SelectPositionsToGenerate(world, chunkPositionsNeeded, position)
  {
    var f := Unrendered(chunkPositionsNeeded, world.chunkRenderers.Keys);
    var r := OrderByDistance(f, position);
    UnrenderedCount(chunkPositionsNeeded, world.chunkRenderers.Keys);
    OrderByDistanceSpec(f, position);
    forall q | q in chunkPositionsNeeded && q !in world.chunkRenderers ensures q in r {
      assert multiset(chunkPositionsNeeded)[q] > 0;
    }
  }

  /** The filter keeps each unrendered position with its multiplicity and drops every rendered one. */
  lemma {:induction false} UnrenderedCount(s: seq<Vec3>, rendered: set<Vec3>)
    ensures forall q :: multiset(Unrendered(s, rendered))[q] == if q in rendered then 0 else multiset(s)[q]
    decreases |s|
  {
    if s != [] {
      var init, last := s[..|s| - 1], s[|s| - 1];
      assert s == init + [last];
      UnrenderedCount(init, rendered);
    }
  }

  /** Sorting keeps the positions with their multiplicities, orders them by distance, and keeps the order of the
      positions at each distance. */
  lemma {:induction false} OrderByDistanceSpec(s: seq<Vec3>, position: Vec3)
    ensures multiset(OrderByDistance(s, position)) == multiset(s)
    ensures SortedByDistance(OrderByDistance(s, position), position)
    ensures forall k :: AtDistance(OrderByDistance(s, position), position, k) == AtDistance(s, position, k)
    decreases |s|
  {
    if s != [] {
      var init, last := s[..|s| - 1], s[|s| - 1];
      assert s == init + [last];
      OrderByDistanceSpec(init, position);
      var t := OrderByDistance(init, position);
      InsertSpec(t, last, position);
      forall k ensures AtDistance(OrderByDistance(s, position), position, k) == AtDistance(s, position, k) {
        InsertAtDistance(t, last, position, k);
      }
    }
  }

  /** Inserting adds the one position and keeps a sorted list sorted. */
  lemma InsertSpec(sorted: seq<Vec3>, p: Vec3, position: Vec3)
    requires SortedByDistance(sorted, position)
    ensures multiset(Insert(sorted, p, position)) == multiset(sorted) + multiset{p}
    ensures SortedByDistance(Insert(sorted, p, position), position)
  {
    InsertCount(sorted, p, position);
    InsertSorted(sorted, p, position);
  }

  /** Inserting adds the one position, wherever it lands. */
  lemma {:induction false} InsertCount(sorted: seq<Vec3>, p: Vec3, position: Vec3)
    ensures multiset(Insert(sorted, p, position)) == multiset(sorted) + multiset{p}
    decreases |sorted|
  {
    if sorted != [] && SquaredDistance(sorted[|sorted| - 1], position) > SquaredDistance(p, position) {
      var init, last := sorted[..|sorted| - 1], sorted[|sorted| - 1];
      assert sorted == init + [last];
      InsertCount(init, p, position);
    }
  }

  /** Every position of an insertion is the inserted one or one of the list's. */
  lemma {:induction false} InsertFrom(sorted: seq<Vec3>, p: Vec3, position: Vec3)
    ensures forall x :: x in Insert(sorted, p, position) ==> x == p || x in sorted
    decreases |sorted|
  {
    if sorted != [] && SquaredDistance(sorted[|sorted| - 1], position) > SquaredDistance(p, position) {
      var init := sorted[..|sorted| - 1];
      InsertFrom(init, p, position);
      forall x | x in init ensures x in sorted {
        var i :| 0 <= i < |init| && init[i] == x;
        assert sorted[i] == x;
      }
    }
  }

  /** Inserting keeps a sorted list sorted. */
  lemma {:induction false} InsertSorted(sorted: seq<Vec3>, p: Vec3, position: Vec3)
    requires SortedByDistance(sorted, position)
    ensures SortedByDistance(Insert(sorted, p, position), position)
    decreases |sorted|
  {
    if sorted != [] && SquaredDistance(sorted[|sorted| - 1], position) > SquaredDistance(p, position) {
      var init, last := sorted[..|sorted| - 1], sorted[|sorted| - 1];
      var bound := SquaredDistance(last, position);
      InsertSorted(init, p, position);
      InsertFrom(init, p, position);
      var t := Insert(init, p, position);
      forall i' | 0 <= i' < |init| ensures SquaredDistance(init[i'], position) <= bound {
        assert init[i'] == sorted[i'];
      }
      var r := Insert(sorted, p, position);
      assert r == t + [last];
      forall i, j | 0 <= i < j < |r| ensures SquaredDistance(r[i], position) <= SquaredDistance(r[j], position) {
        assert r[i] == t[i] && r[i] in t;
        if j < |r| - 1 {
          assert r[j] == t[j];
        }
      }
    }
  }

  /** Inserting puts the new position after the others at its own distance. */
  lemma {:induction false} InsertAtDistance(sorted: seq<Vec3>, p: Vec3, position: Vec3, k: int)
    ensures AtDistance(Insert(sorted, p, position), position, k)
      == AtDistance(sorted, position, k) + (if SquaredDistance(p, position) == k then [p] else [])
    decreases |sorted|
  {
    if sorted == [] || SquaredDistance(sorted[|sorted| - 1], position) <= SquaredDistance(p, position) {
      AtDistanceAppend(sorted, p, position, k);
    } else {
      var init, last := sorted[..|sorted| - 1], sorted[|sorted| - 1];
      assert sorted == init + [last];
      InsertAtDistance(init, p, position, k);
      var t := Insert(init, p, position);
      AtDistanceAppend(t, last, position, k);
      AtDistanceAppend(init, last, position, k);
    }
  }

  /** The positions at one distance of a list with one more position at its end. */
  lemma AtDistanceAppend(s: seq<Vec3>, p: Vec3, position: Vec3, k: int)
    ensures AtDistance(s + [p], position, k)
      == AtDistance(s, position, k) + (if SquaredDistance(p, position) == k then [p] else [])
  {
    assert (s + [p])[..|s + [p]| - 1] == s;
  }

  // ---------------------------------------------------------------- selections to destroy

  /** SelectChunkPositionsToDestroy: the renderer keys that are not needed, then filtered again on being a
      renderer key. */
  function SelectChunkPositionsToDestroy(world: World, chunkPositionsNeeded: seq<Vec3>): set<Vec3>
    reads world
  {
    var unneeded := set k | k in world.chunkRenderers && k !in chunkPositionsNeeded;
    set k | k in unneeded && k in world.chunkRenderers
  }

  /** The second filter drops nothing: the selection is exactly the renderer keys that are not needed. */
  lemma SelectChunkPositionsToDestroySpec(world: World, chunkPositionsNeeded: seq<Vec3>)
    ensures forall k :: k in SelectChunkPositionsToDestroy(world, chunkPositionsNeeded) <==>
      k in world.chunkRenderers && k !in chunkPositionsNeeded
  {
  }

  /** SelectChunkDataPositionsToDestroy: the chunk data keys that are neither needed nor modified. */
  function SelectChunkDataPositionsToDestroy(world: World, chunkPositionsNeeded: seq<Vec3>): set<Vec3>
    reads world, world.chunkDatas.Values
  {
    set k | k in world.chunkDatas && k !in chunkPositionsNeeded && !world.chunkDatas[k].isModified
  }

  /** What the data selection spares: nothing needed and nothing modified is destroyed, only stored keys are
      selected, and every stored key that is left is needed or modified. */
  lemma SelectChunkDataPositionsToDestroySpares(world: World, chunkPositionsNeeded: seq<Vec3>)
    ensures SelectChunkDataPositionsToDestroy(world, chunkPositionsNeeded) <= world.chunkDatas.Keys
    ensures forall k :: k in chunkPositionsNeeded ==> k !in SelectChunkDataPositionsToDestroy(world, chunkPositionsNeeded)
    ensures forall k :: k in world.chunkDatas && world.chunkDatas[k].isModified ==>
      k !in SelectChunkDataPositionsToDestroy(world, chunkPositionsNeeded)
    ensures forall k :: k in world.chunkDatas && k !in SelectChunkDataPositionsToDestroy(world, chunkPositionsNeeded) ==>
      k in chunkPositionsNeeded || world.chunkDatas[k].isModified
  {
  }
}
