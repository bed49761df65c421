/** The position arithmetic of ChunkHelper.cs and WorldHelper.cs: block index <-> local position, bounds, world ->
    local, the chunk origin of a world position and the chunk edge test. */
module ChunkMath {
  import opened Vectors

  /** The chunk dimensions: `size` along x and z, `height` along y. */
  datatype Dims = Dims(size: int, height: int)
  {
    predicate Positive() { size > 0 && height > 0 }
    /** The length of a chunk's block array. */
    function Volume(): int { size * height * size }
  }

  /** GetIndexFromBlockLocalPosition. */
  function IndexOf(d: Dims, p: Vec3): int {
    p.x + d.size * p.y + d.size * d.height * p.z
  }

  /** GetBlockLocalPositionFromIndex, on the non-negative indices its one caller passes. */
  function LocalFromIndex(d: Dims, index: nat): Vec3
    requires d.Positive()
  {
    Vec3(index % d.size, index / d.size % d.height, index / (d.size * d.height))
  }

  /** InBounds. */
  predicate InBounds(d: Dims, p: Vec3) {
    0 <= p.x < d.size && 0 <= p.y < d.height && 0 <= p.z < d.size
  }

  /** GetBlockLocalPositionFromWorldPosition: the world position relative to the chunk's origin. */
  function LocalFromWorld(chunkPosition: Vec3, worldPosition: Vec3): (r: Vec3)
    ensures r.Plus(chunkPosition) == worldPosition
  {
    worldPosition.Minus(chunkPosition)
  }

  /** Mathf.FloorToInt(v / (float)n) * n: the largest multiple of n not above v (Dafny's division rounds down
      for a positive divisor). */
  function FloorTo(v: int, n: int): int
    requires n > 0
  {
    v / n * n
  }

  /** GetChunkPositionFromWorldPosition. */
  function ChunkOrigin(d: Dims, p: Vec3): Vec3
    requires d.Positive()
  {
    Vec3(FloorTo(p.x, d.size), FloorTo(p.y, d.height), FloorTo(p.z, d.size))
  }

  /** A position that is its own chunk origin. */
  predicate Aligned(d: Dims, p: Vec3)
    requires d.Positive()
  {
    p.x % d.size == 0 && p.y % d.height == 0 && p.z % d.size == 0
  }

  /** IsOnEdgeOfTheChunk, on the local position. */
  predicate OnEdge(d: Dims, local: Vec3) {
    local.x == 0 || local.x == d.size - 1 || local.y == 0 || local.y == d.height - 1
    || local.z == 0 || local.z == d.size - 1
  }

  // ---------------------------------------------------------------- arithmetic helpers

  lemma DivModUnique(n: int, m: int, q: int, r: int)
    requires m > 0 && 0 <= r < m && n == q * m + r
    ensures n / m == q && n % m == r
  {
    var q' := n / m;
    var r' := n % m;
    assert n == q' * m + r';
    if q' < q {
      MulAtLeast(q - q', m);
      Distrib(q - q', q', m);
    } else if q' > q {
      MulAtLeast(q' - q, m);
      Distrib(q' - q, q, m);
    }
  }

  lemma MulAtLeast(a: int, m: int)
    requires a >= 1 && m > 0
    ensures a * m >= m
  {
  }

  lemma MulMono(a: int, b: int, m: int)
    requires 0 <= a <= b && m >= 0
    ensures a * m <= b * m
  {
  }

  lemma Distrib(a: int, b: int, m: int)
    ensures (a + b) * m == a * m + b * m
  {
  }

  /** With x < s and y < h, the first two terms of an index stay below s * h. */
  lemma RowBelowLayer(s: int, h: int, x: int, y: int)
    requires 0 <= x < s && 0 <= y < h
    ensures 0 <= x + s * y < s * h
  {
    MulMono(y, h - 1, s);
    Distrib(h - 1, 1, s);
    assert y * s >= 0 by { MulMono(0, y, s); }
  }

  /** x + S*y + S*H*z is below S*H*S when each coordinate is in range. */
  lemma IndexBelowVolume(d: Dims, p: Vec3)
    requires d.Positive() && InBounds(d, p)
    ensures 0 <= IndexOf(d, p) < d.Volume()
  {
    var s, h := d.size, d.height;
    var sh := s * h;
    RowBelowLayer(s, h, p.x, p.y);
    MulMono(p.z, s - 1, sh);
    MulMono(0, p.z, sh);
    Distrib(s - 1, 1, sh);
    assert d.Volume() == sh * s;
    assert IndexOf(d, p) == (p.x + s * p.y) + p.z * sh;
  }

  // ---------------------------------------------------------------- round trips

  /** Every in-bounds local position has an index inside the block array, and that index maps back to it. */
  lemma IndexRoundTrip(d: Dims, p: Vec3)
    requires d.Positive() && InBounds(d, p)
    ensures 0 <= IndexOf(d, p) < d.Volume()
    ensures LocalFromIndex(d, IndexOf(d, p)) == p
  {
    IndexBelowVolume(d, p);
    var s, h := d.size, d.height;
    var i := IndexOf(d, p);
    RowBelowLayer(s, h, p.x, p.y);
    assert i == (p.y + h * p.z) * s + p.x;
    DivModUnique(i, s, p.y + h * p.z, p.x);
    assert p.y + h * p.z == p.z * h + p.y;
    DivModUnique(p.y + h * p.z, h, p.z, p.y);
    assert i == p.z * (s * h) + (p.x + s * p.y);
    DivModUnique(i, s * h, p.z, p.x + s * p.y);
  }

  /** Every index inside the block array maps to an in-bounds local position whose index is that index. */
  lemma LocalFromIndexRoundTrip(d: Dims, i: nat)
    requires d.Positive() && i < d.Volume()
    ensures InBounds(d, LocalFromIndex(d, i))
    ensures IndexOf(d, LocalFromIndex(d, i)) == i
  {
    var s, h := d.size, d.height;
    var x, y, z := i % s, i / s % h, i / s / h;
    LayerDecomposition(s, h, i);
    DivModUnique(i, s * h, z, x + s * y);
    assert LocalFromIndex(d, i) == Vec3(x, y, z);
    assert IndexOf(d, Vec3(x, y, z)) == x + s * y + s * h * z;
    if z >= s {
      MulMono(s, z, s * h);
      assert false;
    }
  }

  /** An index splits into its layer z = i / s / h and its place x + s * y inside the layer. */
  lemma LayerDecomposition(s: int, h: int, i: int)
    requires s > 0 && h > 0 && i >= 0
    ensures var x, y, z := i % s, i / s % h, i / s / h;
      && 0 <= x < s && 0 <= y < h && 0 <= z
      && 0 <= x + s * y < s * h
      && i == z * (s * h) + (x + s * y)
  {
    var q := i / s;
    var x, y, z := i % s, q % h, q / h;
    assert i == q * s + x;
    assert q >= 0 && q == z * h + y;
    RowBelowLayer(s, h, x, y);
    Distrib(z * h, y, s);
    assert q * s == z * h * s + y * s;
    assert z * h * s == z * (s * h) && y * s == s * y;
  }

  /** LocalFromWorld undoes the translation by the origin. */
  lemma LocalFromWorldOfTranslation(origin: Vec3, local: Vec3)
    ensures LocalFromWorld(origin, local.Plus(origin)) == local
  {
  }

  // ---------------------------------------------------------------- chunk origins

  lemma FloorToSpec(v: int, n: int)
    requires n > 0
    ensures FloorTo(v, n) % n == 0
    ensures 0 <= v - FloorTo(v, n) < n
    ensures FloorTo(FloorTo(v, n), n) == FloorTo(v, n)
  {
    var q := v / n;
    DivModUnique(q * n, n, q, 0);
  }

  /** The chunk origin of a world position is aligned to the chunk grid and lies at most one chunk size below the
      position on every axis, negative coordinates included. */
  lemma ChunkOriginSpec(d: Dims, p: Vec3)
    requires d.Positive()
    ensures Aligned(d, ChunkOrigin(d, p))
    ensures InBounds(d, LocalFromWorld(ChunkOrigin(d, p), p))
  {
    FloorToSpec(p.x, d.size);
    FloorToSpec(p.y, d.height);
    FloorToSpec(p.z, d.size);
  }

  /** The origin of an origin is itself. */
  lemma ChunkOriginIdempotent(d: Dims, p: Vec3)
    requires d.Positive()
    ensures ChunkOrigin(d, ChunkOrigin(d, p)) == ChunkOrigin(d, p)
  {
    FloorToSpec(p.x, d.size);
    FloorToSpec(p.y, d.height);
    FloorToSpec(p.z, d.size);
  }

  /** An aligned position q is the chunk origin of exactly the positions inside its box. */
  lemma ChunkOriginOfBox(d: Dims, q: Vec3, p: Vec3)
    requires d.Positive() && Aligned(d, q)
    ensures ChunkOrigin(d, p) == q <==> InBounds(d, LocalFromWorld(q, p))
  {
    ChunkOriginSpec(d, p);
    if InBounds(d, LocalFromWorld(q, p)) {
      DivModUnique(p.x, d.size, q.x / d.size, p.x - q.x);
      DivModUnique(p.y, d.height, q.y / d.height, p.y - q.y);
      DivModUnique(p.z, d.size, q.z / d.size, p.z - q.z);
    }
  }

  /** A position outside an aligned chunk's box has a different chunk origin. */
  lemma OutsideHasOtherOrigin(d: Dims, q: Vec3, local: Vec3)
    requires d.Positive() && Aligned(d, q) && !InBounds(d, local)
    ensures ChunkOrigin(d, local.Plus(q)) != q
  {
    ChunkOriginOfBox(d, q, local.Plus(q));
  }
}
