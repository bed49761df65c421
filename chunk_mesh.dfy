/** Meshing a whole chunk: ChunkHelper.UpdateMeshData, which walks every cell of the block array in index order
    (IterateBlockLocalPosition), and ChunkRenderer.UpdateMesh(), which meshes the renderer's chunk and shows it. */
module ChunkMesh {
  import opened Wrappers
  import opened Vectors
  import opened ChunkMath
  import opened MeshBuffers
  import opened WorldState
  import opened ChunkAccess
  import opened BlockMesh

  /** IterateBlockLocalPosition visits every local position of the chunk, each at exactly one index. */
  lemma IterationCoversChunk(d: Dims)
    requires d.Positive()
    ensures forall i: nat :: i < d.Volume() ==> InBounds(d, LocalFromIndex(d, i))
    ensures forall i: nat, j: nat :: i < j < d.Volume() ==> LocalFromIndex(d, i) != LocalFromIndex(d, j)
    ensures forall p :: InBounds(d, p) ==> exists i: nat :: i < d.Volume() && LocalFromIndex(d, i) == p
  {
    forall i: nat | i < d.Volume() ensures InBounds(d, LocalFromIndex(d, i)) {
      LocalFromIndexRoundTrip(d, i);
    }
    forall i: nat, j: nat | i < j < d.Volume() ensures LocalFromIndex(d, i) != LocalFromIndex(d, j) {
      LocalFromIndexRoundTrip(d, i);
      LocalFromIndexRoundTrip(d, j);
    }
    forall p | InBounds(d, p) ensures exists i: nat :: i < d.Volume() && LocalFromIndex(d, i) == p {
      IndexRoundTrip(d, p);
      var i: nat := IndexOf(d, p);
      assert LocalFromIndex(d, i) == p;
    }
  }

  /** The faces of the first n cells in index order, opaque and transparent, or the first exception. */
  function ChunkFaces(c: ChunkData, n: nat): Result<(seq<Face>, seq<Face>)>
    requires c.Valid() && c.world.Valid() && n <= c.blocks.Length
    reads c.blocks, c.world, c.world.Arrays(), c.world.blockManager
  {
    if n == 0 then Ok(([], []))
    else
      var before := ChunkFaces(c, n - 1);
      var local := LocalFromIndex(c.Shape(), n - 1);
      var id := GetBlockIdInChunk(c, local);
      if before.Err? then before
      else if id.Err? then Err(id.error)
      else
        var faces := BlockFacesOf(c, id.value, local);
        if faces.Err? then Err(faces.error)
        else Ok((before.value.0 + faces.value.0, before.value.1 + faces.value.1))
  }

  /** A chunk of n cells yields whole faces only, at most six per cell. */
  lemma {:induction false} ChunkFacesBound(c: ChunkData, n: nat)
    requires c.Valid() && c.world.Valid() && n <= c.blocks.Length
    ensures ChunkFaces(c, n).Ok? ==>
      var (fo, ft) := ChunkFaces(c, n).value;
      && |fo| + |ft| <= 6 * n
      && (forall k :: 0 <= k < |fo| ==> fo[k].Valid()) && (forall k :: 0 <= k < |ft| ==> ft[k].Valid())
  {
    if n > 0 {
      ChunkFacesBound(c, n - 1);
      var local := LocalFromIndex(c.Shape(), n - 1);
      var id := GetBlockIdInChunk(c, local);
      if ChunkFaces(c, n).Ok? {
        BlockFacesOfBound(c, id.value, local);
        var (fo, ft) := ChunkFaces(c, n).value;
        var (bo, bt) := ChunkFaces(c, n - 1).value;
        var (no, nt) := BlockFacesOf(c, id.value, local).value;
        assert fo == bo + no && ft == bt + nt;
        forall k | 0 <= k < |fo| ensures fo[k].Valid() {
          if k >= |bo| {
            assert fo[k] == no[k - |bo|] && fo[k] in no;
          }
        }
        forall k | 0 <= k < |ft| ensures ft[k].Valid() {
          if k >= |bt| {
            assert ft[k] == nt[k - |bt|] && ft[k] in nt;
          }
        }
      }
    }
  }

  /** The faces one cell contributes: its id read through the chunk (which may throw), then its block's faces. */
  function CellFaces(c: ChunkData, index: nat): Result<(seq<Face>, seq<Face>)>
    requires c.Valid() && c.world.Valid()
    reads c.blocks, c.world, c.world.Arrays(), c.world.blockManager
  {
    var local := LocalFromIndex(c.Shape(), index);
    var id := GetBlockIdInChunk(c, local);
    if id.Err? then Err(id.error) else BlockFacesOf(c, id.value, local)
  }

  /** The body of the lambda UpdateMeshData passes to IterateBlockLocalPosition, for the cell at `index`. */
  method MeshCell(meshData: MeshData, c: ChunkData, index: nat) returns (r: Outcome)
    requires c.Valid() && c.world.Valid()
    requires meshData.transparentMeshData != null && meshData.transparentMeshData != meshData
    requires meshData !in c.world.Arrays() && meshData.transparentMeshData !in c.world.Arrays()
    modifies meshData, meshData.transparentMeshData
    ensures meshData.transparentMeshData == old(meshData.transparentMeshData)
    ensures CellFaces(c, index).Err? ==> r == Fail(CellFaces(c, index).error)
    ensures CellFaces(c, index).Ok? ==>
      && r == Pass
      && meshData.Contents() == PushFaces(old(meshData.Contents()), CellFaces(c, index).value.0)
      && meshData.transparentMeshData.Contents() ==
        PushFaces(old(meshData.transparentMeshData.Contents()), CellFaces(c, index).value.1)
  {
    var local := LocalFromIndex(c.Shape(), index);
    var blockId := GetBlockIdInChunk(c, local);
    if blockId.Err? {
      return Fail(blockId.error);
    }
    r := UpdateBlockMeshData(meshData, c, blockId.value, local);
  }

  /** The faces of one more cell: an exception there is the exception of the whole chunk, otherwise its faces
      follow those of the cells before it. */
  lemma ChunkFacesNext(c: ChunkData, index: nat)
    requires c.Valid() && c.world.Valid() && index < c.blocks.Length && ChunkFaces(c, index).Ok?
    ensures CellFaces(c, index).Err? ==> ChunkFaces(c, c.blocks.Length) == Err(CellFaces(c, index).error)
    ensures CellFaces(c, index).Ok? ==>
      ChunkFaces(c, index + 1) == Ok((ChunkFaces(c, index).value.0 + CellFaces(c, index).value.0,
                                      ChunkFaces(c, index).value.1 + CellFaces(c, index).value.1))
  {
    if CellFaces(c, index).Err? {
      ChunkFacesStop(c, index + 1, c.blocks.Length);
    }
  }

  /** One turn of UpdateMeshData's iteration: the cell at `index` meshed into buffers that hold the faces of the
      cells before it, after which they hold the faces of the cells up to and including it. An exception here is
      the exception of the whole chunk. */
  method MeshNextCell(meshData: MeshData, c: ChunkData, index: nat) returns (r: Outcome)
    requires c.Valid() && c.world.Valid() && index < c.blocks.Length
    requires meshData.transparentMeshData != null && meshData.transparentMeshData != meshData
    requires meshData !in c.world.Arrays() && meshData.transparentMeshData !in c.world.Arrays()
    requires var before := ChunkFaces(c, index);
      && before.Ok?
      && meshData.Contents() == PushFaces(Empty, before.value.0)
      && meshData.transparentMeshData.Contents() == PushFaces(Empty, before.value.1)
    modifies meshData, meshData.transparentMeshData
    ensures meshData.transparentMeshData == old(meshData.transparentMeshData)
    ensures r.Fail? ==> ChunkFaces(c, c.blocks.Length) == Err(r.error)
    ensures r.Pass? ==>
      var after := ChunkFaces(c, index + 1);
      && after.Ok?
      && meshData.Contents() == PushFaces(Empty, after.value.0)
      && meshData.transparentMeshData.Contents() == PushFaces(Empty, after.value.1)
  {
    ghost var (fo, ft) := ChunkFaces(c, index).value;
    ghost var faces := CellFaces(c, index);
    ChunkFacesNext(c, index);
    r := MeshCell(meshData, c, index);
    if r.Pass? {
      PushFacesAppend(Empty, fo, faces.value.0);
      PushFacesAppend(Empty, ft, faces.value.1);
    }
  }

  /** IterateBlockLocalPosition with UpdateMeshData's lambda: every cell in index order meshed into empty buffers
      until one raises an exception. */
  method MeshAllCells(meshData: MeshData, c: ChunkData) returns (r: Outcome)
    requires c.Valid() && c.world.Valid()
    requires meshData.transparentMeshData != null && meshData.transparentMeshData != meshData
    requires meshData !in c.world.Arrays() && meshData.transparentMeshData !in c.world.Arrays()
    requires meshData.Contents() == Empty && meshData.transparentMeshData.Contents() == Empty
    modifies meshData, meshData.transparentMeshData
    ensures meshData.transparentMeshData == old(meshData.transparentMeshData)
    ensures var faces := ChunkFaces(c, c.blocks.Length);
      && (faces.Err? ==> r == Fail(faces.error))
      && (faces.Ok? ==>
        && r == Pass
        && meshData.Contents() == PushFaces(Empty, faces.value.0)
        && meshData.transparentMeshData.Contents() == PushFaces(Empty, faces.value.1))
  {
    var index := 0;
    var transparent := meshData.transparentMeshData;
    while index < c.blocks.Length
      invariant 0 <= index <= c.blocks.Length
      invariant meshData.transparentMeshData == transparent
      invariant meshData !in c.world.Arrays() && transparent !in c.world.Arrays()
      invariant var before := ChunkFaces(c, index);
        && before.Ok?
        && meshData.Contents() == PushFaces(Empty, before.value.0)
        && transparent.Contents() == PushFaces(Empty, before.value.1)
    {
      r := MeshNextCell(meshData, c, index);
      if r.Fail? {
        return;
      }
      index := index + 1;
    }
    r := Pass;
  }

  /** ChunkHelper.UpdateMeshData: a fresh MeshData, then every cell in index order meshed into it; an exception
      (an unknown id while reading a cell or a neighbour) ends it. */
  method UpdateMeshData(c: ChunkData) returns (r: Result<MeshData>)
    requires c.Valid() && c.world.Valid()
    ensures var faces := ChunkFaces(c, c.blocks.Length);
      && (faces.Err? ==> r == Err(faces.error))
      && (faces.Ok? ==>
        && r.Ok? && fresh(r.value) && r.value.transparentMeshData != null && fresh(r.value.transparentMeshData)
        && r.value.Contents() == PushFaces(Empty, faces.value.0)
        && r.value.transparentMeshData.Contents() == PushFaces(Empty, faces.value.1))
  {
    var meshData := new MeshData();
    var meshed := MeshAllCells(meshData, c);
    r := if meshed.Fail? then Err(meshed.error) else Ok(meshData);
  }

  /** Once the first n cells raise an exception, every longer prefix raises the same one. */
  lemma {:induction false} ChunkFacesStop(c: ChunkData, n: nat, m: nat)
    requires c.Valid() && c.world.Valid() && 0 < n <= m <= c.blocks.Length && ChunkFaces(c, n).Err?
    ensures ChunkFaces(c, m) == ChunkFaces(c, n)
    decreases m - n
  {
    if m > n {
      ChunkFacesStop(c, n + 1, m);
    }
  }

  /** ChunkRenderer.UpdateMesh(): mesh the renderer's own chunk and show it. Without chunk data it throws before
      touching the mesh; an exception while meshing leaves the mesh as it was. */
  method UpdateMesh(renderer: ChunkRenderer) returns (r: Outcome)
    requires renderer.chunkData != null ==> renderer.chunkData.Valid() && renderer.chunkData.world.Valid()
    modifies renderer
    ensures renderer.chunkData == old(renderer.chunkData) && renderer.active == old(renderer.active)
    ensures renderer.position == old(renderer.position) && renderer.destroyed == old(renderer.destroyed)
    ensures renderer.chunkData == null ==> r == Fail(NullReference) && renderer.mesh == old(renderer.mesh)
    ensures renderer.chunkData != null ==>
      var c := renderer.chunkData;
      var faces := ChunkFaces(c, c.blocks.Length);
      && (faces.Err? ==> r == Fail(faces.error) && renderer.mesh == old(renderer.mesh))
      && (faces.Ok? ==> r == Pass && renderer.mesh == Merge(PushFaces(Empty, faces.value.0), PushFaces(Empty, faces.value.1)))
  {
    if renderer.chunkData == null {
      return Fail(NullReference);
    }
    assert renderer !in renderer.chunkData.world.Arrays();
    var meshData := UpdateMeshData(renderer.chunkData);
    if meshData.Err? {
      return Fail(meshData.error);
    }
    r := renderer.UpdateMeshWith(meshData.value);
  }

  /** The mesh a chunk renders is consistent: both submeshes index the merged vertices, the transparent one exactly
      the transparent vertices, with one UV per vertex, and there are four vertices per face drawn. */
  lemma RenderedMeshConsistent(c: ChunkData)
    requires c.Valid() && c.world.Valid() && ChunkFaces(c, c.blocks.Length).Ok?
    ensures var (fo, ft) := ChunkFaces(c, c.blocks.Length).value;
      var solid, transparent := PushFaces(Empty, fo), PushFaces(Empty, ft);
      var m := Merge(solid, transparent);
      && |m.vertices| == 4 * (|fo| + |ft|) && |m.uvs| == |m.vertices|
      && (forall k :: 0 <= k < |m.opaqueTriangles| ==> 0 <= m.opaqueTriangles[k] < |solid.vertices|)
      && (forall k :: 0 <= k < |m.transparentTriangles| ==>
            |solid.vertices| <= m.transparentTriangles[k] < |m.vertices|)
  {
    var (fo, ft) := ChunkFaces(c, c.blocks.Length).value;
    ChunkFacesBound(c, c.blocks.Length);
    EmptyWellFormed();
    PushFacesWellFormed(Empty, fo);
    PushFacesWellFormed(Empty, ft);
    MergeRenderIndices(PushFaces(Empty, fo), PushFaces(Empty, ft));
  }
}
