/** DataProcessing.FindLocalMaxima: the cells of a matrix that are strictly greater than each in-bounds neighbour
    at the eight offsets of the Directions table, as the table is written (see Offsets). */
module DataProcessing {
  import opened Vectors

  /** The offset table as written: (1,-1) appears twice and (-1,1) not at all. */
  const Offsets: seq<Vec2> := [
    Vec2(0, 1), Vec2(1, 1), Vec2(1, 0), Vec2(1, -1),
    Vec2(-1, 0), Vec2(-1, -1), Vec2(0, -1), Vec2(1, -1)]

  /** The table checks seven distinct offsets: one is listed twice and the north-west neighbour (-1,1) never. */
  lemma OffsetsAsWritten()
    ensures |Offsets| == 8 && Offsets[3] == Offsets[7]
    ensures Vec2(-1, 1) !in Offsets
    ensures forall dx, dy :: -1 <= dx <= 1 && -1 <= dy <= 1 && (dx, dy) != (0, 0) && (dx, dy) != (-1, 1) ==>
      Vec2(dx, dy) in Offsets
  {
  }

  /** A matrix of values, as its rows (the first index of the C# float[,]). */
  type Grid = seq<seq<real>>

  ghost predicate Rectangular(g: Grid) {
    forall i :: 0 <= i < |g| ==> |g[i]| == Cols(g)
  }

  /** GetLength(1). */
  function Cols(g: Grid): nat {
    if g == [] then 0 else |g[0]|
  }

  predicate InGrid(g: Grid, x: int, y: int) {
    0 <= x < |g| && 0 <= y < |g[x]|
  }

  /** The contents of a C# float[,] as a grid. */
  ghost function GridOf(m: array2<real>): (g: Grid)
    reads m
    ensures |g| == m.Length0 && Rectangular(g) && (m.Length0 > 0 ==> Cols(g) == m.Length1)
    ensures forall i, j :: 0 <= i < m.Length0 && 0 <= j < m.Length1 ==> g[i][j] == m[i, j]
  {
    seq(m.Length0, i requires 0 <= i < m.Length0 reads m => seq(m.Length1, j requires 0 <= j < m.Length1 reads m => m[i, j]))
  }

  /** The neighbour at offset k is checked: it lies inside the matrix; a checked neighbour must be below the centre. */
  predicate NeighbourBelow(g: Grid, x: int, y: int, k: int)
    requires InGrid(g, x, y) && 0 <= k < |Offsets|
  {
    var nx, ny := x + Offsets[k].x, y + Offsets[k].y;
    InGrid(g, nx, ny) ==> g[nx][ny] < g[x][y]
  }

  /** The success of CheckNeighbours for a cell with the "strictly less than the centre" condition. */
  predicate IsLocalMax(g: Grid, x: int, y: int)
    requires InGrid(g, x, y)
  {
    forall k :: 0 <= k < |Offsets| ==> NeighbourBelow(g, x, y, k)
  }

  /** The maxima of row x among its first n cells, in increasing y. */
  function RowMaxima(g: Grid, x: int, n: int): seq<Vec2>
    requires 0 <= x < |g| && 0 <= n <= |g[x]|
    decreases n
  {
    if n == 0 then [] else RowMaxima(g, x, n - 1) + (if IsLocalMax(g, x, n - 1) then [Vec2(x, n - 1)] else [])
  }

  /** The maxima of the first n rows, rows in order. */
  function Maxima(g: Grid, n: int): seq<Vec2>
    requires 0 <= n <= |g|
    decreases n
  {
    if n == 0 then [] else Maxima(g, n - 1) + RowMaxima(g, n - 1, |g[n - 1]|)
  }

  /** The result of FindLocalMaxima. */
  function LocalMaxima(g: Grid): seq<Vec2> {
    Maxima(g, |g|)
  }

  /** Ordered by x, then y. */
  predicate Before(a: Vec2, b: Vec2) {
    a.x < b.x || (a.x == b.x && a.y < b.y)
  }

  predicate StrictlyOrdered(s: seq<Vec2>) {
    forall i, j :: 0 <= i < j < |s| ==> Before(s[i], s[j])
  }

  lemma {:induction false} RowMaximaSpec(g: Grid, x: int, n: int)
    requires 0 <= x < |g| && 0 <= n <= |g[x]|
    ensures forall v :: v in RowMaxima(g, x, n) <==> v.x == x && 0 <= v.y < n && IsLocalMax(g, x, v.y)
    ensures StrictlyOrdered(RowMaxima(g, x, n))
    ensures forall k :: 0 <= k < |RowMaxima(g, x, n)| ==> RowMaxima(g, x, n)[k].x == x && RowMaxima(g, x, n)[k].y < n
    decreases n
  {
    if n > 0 {
      RowMaximaSpec(g, x, n - 1);
    }
  }

  /** A cell is returned iff it is in the matrix and strictly greater than every checked in-bounds neighbour; the
      result is ordered by x then y, hence free of duplicates. */
  lemma {:induction false} MaximaSpec(g: Grid, n: int)
    requires 0 <= n <= |g|
    ensures forall v :: v in Maxima(g, n) <==> 0 <= v.x < n && InGrid(g, v.x, v.y) && IsLocalMax(g, v.x, v.y)
    ensures StrictlyOrdered(Maxima(g, n))
    ensures forall k :: 0 <= k < |Maxima(g, n)| ==> Maxima(g, n)[k].x < n
    decreases n
  {
    if n > 0 {
      MaximaSpec(g, n - 1);
      RowMaximaSpec(g, n - 1, |g[n - 1]|);
    }
  }

  /** The whole result: exactly the local maxima, in order, each once. */
  lemma LocalMaximaSpec(g: Grid)
    ensures forall v :: v in LocalMaxima(g) <==> InGrid(g, v.x, v.y) && IsLocalMax(g, v.x, v.y)
    ensures StrictlyOrdered(LocalMaxima(g))
  {
    MaximaSpec(g, |g|);
  }

  /** CheckNeighbours with the "less than the centre" condition: the offsets in table order, out-of-bounds ones
      skipped, returning false at the first checked neighbour that is not below the centre. */
  method CheckNeighbours(m: array2<real>, x: int, z: int) returns (r: bool)
    requires 0 <= x < m.Length0 && 0 <= z < m.Length1
    ensures r == IsLocalMax(GridOf(m), x, z)
  {
    ghost var g := GridOf(m);
    var k := 0;
    while k < |Offsets|
      invariant 0 <= k <= |Offsets|
      invariant forall j :: 0 <= j < k ==> NeighbourBelow(g, x, z, j)
    {
      var nx, nz := x + Offsets[k].x, z + Offsets[k].y;
      if nx < 0 || nx >= m.Length0 || nz < 0 || nz >= m.Length1 {
        k := k + 1;
        continue;
      }
      if !(m[nx, nz] < m[x, z]) {
        assert !NeighbourBelow(g, x, z, k);
        return false;
      }
      k := k + 1;
    }
    r := true;
  }

  /** The inner loop of FindLocalMaxima over one row. */
  method RowLocalMaxima(m: array2<real>, x: int) returns (r: seq<Vec2>)
    requires 0 <= x < m.Length0
    ensures |GridOf(m)[x]| == m.Length1
    ensures r == RowMaxima(GridOf(m), x, m.Length1)
  {
    ghost var g := GridOf(m);
    assert |g[x]| == m.Length1;
    r := [];
    var y := 0;
    while y < m.Length1
      invariant 0 <= y <= m.Length1
      invariant r == RowMaxima(g, x, y)
    {
      var ok := CheckNeighbours(m, x, y);
      assert RowMaxima(g, x, y + 1) == RowMaxima(g, x, y) + (if ok then [Vec2(x, y)] else []);
      if ok {
        r := r + [Vec2(x, y)];
      }
      y := y + 1;
    }
  }

  /** FindLocalMaxima: x outer, y inner, appending each cell that passes CheckNeighbours. */
  method FindLocalMaxima(m: array2<real>) returns (r: seq<Vec2>)
    ensures r == LocalMaxima(GridOf(m))
  {
    ghost var g := GridOf(m);
    r := [];
    var x := 0;
    while x < m.Length0
      invariant 0 <= x <= m.Length0
      invariant r == Maxima(g, x)
    {
      var row := RowLocalMaxima(m, x);
      r := r + row;
      x := x + 1;
    }
  }

  // ---------------------------------------------------------------- consequences of the table as written

  /** A single cell has no neighbour in bounds, so it is returned. */
  lemma SingleCellIsMaximum(v: real)
    ensures LocalMaxima([[v]]) == [Vec2(0, 0)]
  {
    assert IsLocalMax([[v]], 0, 0) by {
      forall k | 0 <= k < |Offsets| ensures NeighbourBelow([[v]], 0, 0, k) {
        assert !InGrid([[v]], Offsets[k].x, Offsets[k].y);
      }
    }
  }

  /** Every cell of a rectangular matrix with at least two cells has a checked neighbour in bounds. */
  lemma HasCheckedNeighbour(g: Grid, x: int, y: int) returns (k: int)
    requires Rectangular(g) && |g| * Cols(g) >= 2 && InGrid(g, x, y)
    ensures 0 <= k < |Offsets| && InGrid(g, x + Offsets[k].x, y + Offsets[k].y)
  {
    if Cols(g) >= 2 {
      if y + 1 < Cols(g) {
        k := 0;
      } else {
        k := 6;
      }
    } else {
      assert |g| >= 2;
      if x + 1 < |g| {
        k := 2;
      } else {
        k := 4;
      }
    }
  }

  /** No cell of a constant matrix with at least two cells passes the strict comparison. */
  lemma ConstantCellIsNotMaximum(g: Grid, c: real, x: int, y: int)
    requires Rectangular(g) && |g| * Cols(g) >= 2 && InGrid(g, x, y)
    requires forall i, j :: InGrid(g, i, j) ==> g[i][j] == c
    ensures !IsLocalMax(g, x, y)
  {
    var k := HasCheckedNeighbour(g, x, y);
    assert !NeighbourBelow(g, x, y, k);
  }

  lemma {:induction false} ConstantRowHasNoMaximum(g: Grid, c: real, x: int, n: int)
    requires Rectangular(g) && |g| * Cols(g) >= 2 && 0 <= x < |g| && 0 <= n <= |g[x]|
    requires forall i, j :: InGrid(g, i, j) ==> g[i][j] == c
    ensures RowMaxima(g, x, n) == []
    decreases n
  {
    if n > 0 {
      ConstantRowHasNoMaximum(g, c, x, n - 1);
      ConstantCellIsNotMaximum(g, c, x, n - 1);
    }
  }

  lemma {:induction false} ConstantRowsHaveNoMaximum(g: Grid, c: real, n: int)
    requires Rectangular(g) && |g| * Cols(g) >= 2 && 0 <= n <= |g|
    requires forall i, j :: InGrid(g, i, j) ==> g[i][j] == c
    ensures Maxima(g, n) == []
    decreases n
  {
    if n > 0 {
      ConstantRowsHaveNoMaximum(g, c, n - 1);
      ConstantRowHasNoMaximum(g, c, n - 1, |g[n - 1]|);
    }
  }

  /** Because the comparison is strict, a constant matrix with at least two cells has no maximum. */
  lemma ConstantGridHasNoMaximum(g: Grid, c: real)
    requires Rectangular(g) && |g| * Cols(g) >= 2
    requires forall i, j :: InGrid(g, i, j) ==> g[i][j] == c
    ensures LocalMaxima(g) == []
  {
    ConstantRowsHaveNoMaximum(g, c, |g|);
  }

  /** The 3x3 matrix with a strictly greatest centre and 4 in the corner (2,0): the centre is a maximum, and so is
      the corner, though the centre is its diagonal neighbour, because (-1,1) is not in the table. */
  const Sample: Grid := [[0.0, 0.0, 0.0], [0.0, 5.0, 0.0], [4.0, 0.0, 0.0]]

  lemma CornerNeverComparedWithCentre()
    ensures Vec2(1, 1) in LocalMaxima(Sample)
    ensures Vec2(2, 0) in LocalMaxima(Sample)
    ensures Sample[1][1] > Sample[2][0]
  {
    StrictCentreIsMaximum(Sample);
    assert IsLocalMax(Sample, 2, 0) by {
      forall k | 0 <= k < |Offsets| ensures NeighbourBelow(Sample, 2, 0, k) {
        CornerNeighbour(k);
      }
    }
    LocalMaximaSpec(Sample);
  }

  /** Each neighbour the table checks for the corner (2,0) of Sample is below it. */
  lemma CornerNeighbour(k: int)
    requires 0 <= k < |Offsets|
    ensures NeighbourBelow(Sample, 2, 0, k)
  {
    if k == 0 {} else if k == 1 {} else if k == 2 {} else if k == 3 {}
    else if k == 4 {} else if k == 5 {} else if k == 6 {} else {}
  }

  lemma CentreNeighbour(g: Grid, k: int)
    requires |g| == 3 && |g[0]| == 3 && |g[1]| == 3 && |g[2]| == 3
    requires g[0][0] < g[1][1] && g[0][1] < g[1][1] && g[0][2] < g[1][1]
    requires g[1][0] < g[1][1] && g[1][2] < g[1][1]
    requires g[2][0] < g[1][1] && g[2][1] < g[1][1] && g[2][2] < g[1][1]
    requires 0 <= k < |Offsets|
    ensures NeighbourBelow(g, 1, 1, k)
  {
    if k == 0 {} else if k == 1 {} else if k == 2 {} else if k == 3 {}
    else if k == 4 {} else if k == 5 {} else if k == 6 {} else {}
  }

  /** In any 3x3 matrix whose centre is strictly greater than the other eight cells, the centre is returned. */
  lemma StrictCentreIsMaximum(g: Grid)
    requires |g| == 3 && |g[0]| == 3 && |g[1]| == 3 && |g[2]| == 3
    requires g[0][0] < g[1][1] && g[0][1] < g[1][1] && g[0][2] < g[1][1]
    requires g[1][0] < g[1][1] && g[1][2] < g[1][1]
    requires g[2][0] < g[1][1] && g[2][1] < g[1][1] && g[2][2] < g[1][1]
    ensures Vec2(1, 1) in LocalMaxima(g)
  {
    assert IsLocalMax(g, 1, 1) by {
      forall k | 0 <= k < |Offsets| ensures NeighbourBelow(g, 1, 1, k) {
        CentreNeighbour(g, k);
      }
    }
    LocalMaximaSpec(g);
  }
}
