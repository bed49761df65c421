/** TreeGenerator: the tree noise matrix of a chunk and the tree positions found in it. The domain-warped noise
    itself is a parameter. */
module TreeGeneration {
  import opened Vectors
  import opened DataProcessing

  /** TreeData: the local columns (x, z) of a chunk where trees grow. */
  datatype TreeData = TreeData(treePositions: seq<Vec2>)

  /** The tree noise of a world column (DomainWarping.GenerateDomainNoise with the tree settings and world seed). */
  type ColumnNoise = (int, int) -> real

  /** The matrix GenerateTreeNoise fills: entry [i][j] is the noise at world column (origin.x + i, origin.z + j). */
  function NoiseGrid(noise: ColumnNoise, size: nat, worldPosition: Vec3): (g: Grid)
    ensures |g| == size && forall i :: 0 <= i < size ==> |g[i]| == size
    ensures forall i, j :: 0 <= i < size && 0 <= j < size ==> g[i][j] == noise(worldPosition.x + i, worldPosition.z + j)
  {
    seq(size, i => seq(size, j => noise(worldPosition.x + i, worldPosition.z + j)))
  }

  /** GenerateTreeNoise: world x and z run over the chunk's columns while xIndex and zIndex count the matrix
      entries, zIndex restarting at 0 after every row. */
  method GenerateTreeNoise(chunkSize: nat, worldPosition: Vec3, noise: ColumnNoise) returns (m: array2<real>)
    ensures fresh(m) && m.Length0 == chunkSize && m.Length1 == chunkSize
    ensures GridOf(m) == NoiseGrid(noise, chunkSize, worldPosition)
  {
    m := new real[chunkSize, chunkSize];
    var xMax := worldPosition.x + chunkSize;
    var xMin := worldPosition.x;
    var zMax := worldPosition.z + chunkSize;
    var zMin := worldPosition.z;
    var xIndex := 0;
    var zIndex := 0;
    var x := xMin;
    while x < xMax
      invariant xMin <= x <= xMax && xIndex == x - xMin && zIndex == 0
      invariant forall i, j :: 0 <= i < xIndex && 0 <= j < chunkSize ==> m[i, j] == noise(xMin + i, zMin + j)
    {
      var z := zMin;
      while z < zMax
        invariant zMin <= z <= zMax && zIndex == z - zMin
        invariant forall i, j :: 0 <= i < xIndex && 0 <= j < chunkSize ==> m[i, j] == noise(xMin + i, zMin + j)
        invariant forall j :: 0 <= j < zIndex ==> m[xIndex, j] == noise(x, zMin + j)
      {
        m[xIndex, zIndex] := noise(x, z);
        zIndex := zIndex + 1;
        z := z + 1;
      }
      xIndex := xIndex + 1;
      zIndex := 0;
      x := x + 1;
    }
    assert GridOf(m) == NoiseGrid(noise, chunkSize, worldPosition) by {
      var g, h := GridOf(m), NoiseGrid(noise, chunkSize, worldPosition);
      forall i | 0 <= i < chunkSize ensures g[i] == h[i] {
      }
    }
  }

  /** GenerateTreeData: the tree positions are the local maxima of the chunk's tree noise matrix. */
  method GenerateTreeData(chunkSize: nat, worldPosition: Vec3, noise: ColumnNoise) returns (treeData: TreeData)
    ensures treeData.treePositions == LocalMaxima(NoiseGrid(noise, chunkSize, worldPosition))
  {
    var treeNoise := GenerateTreeNoise(chunkSize, worldPosition, noise);
    var positions := FindLocalMaxima(treeNoise);
    treeData := TreeData(positions);
  }

  /** Every tree position is a local column of the chunk, listed once, and a local maximum of the noise. */
  lemma TreePositionsInChunk(noise: ColumnNoise, chunkSize: nat, worldPosition: Vec3)
    ensures var g := NoiseGrid(noise, chunkSize, worldPosition);
      forall v: Vec2 :: v in LocalMaxima(g) <==> 0 <= v.x < chunkSize && 0 <= v.y < chunkSize && IsLocalMax(g, v.x, v.y)
    ensures StrictlyOrdered(LocalMaxima(NoiseGrid(noise, chunkSize, worldPosition)))
  {
    LocalMaximaSpec(NoiseGrid(noise, chunkSize, worldPosition));
  }
}
