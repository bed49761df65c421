/** The objects of the world and their fields: ChunkData.cs, ChunkRenderer.cs, WorldRenderer.cs and the state of
    World.cs (its WorldData dictionaries and loaded flag). They refer to each other, so they share one module; the
    behaviour of WorldHelper, ChunkHelper and World that spans several of them lives in later modules. */
module WorldState {
  import opened Wrappers
  import opened Vectors
  import opened ChunkMath
  import opened BlockRegistry
  import opened MeshBuffers
  import opened TreeGeneration

  // ---------------------------------------------------------------- ChunkData

  /** A chunk's blocks and bookkeeping. Everything but IsModified and TreeData is fixed at construction. */
  class ChunkData {
    const world: World
    const worldPosition: Vec3
    const chunkSize: int
    const chunkHeight: int
    const blocks: array<ushort>
    var isModified: bool
    /** TreeData, null until the biome generator assigns it. */
    var treeData: Option<TreeData>

    function Shape(): Dims {
      Dims(chunkSize, chunkHeight)
    }

    /** The block array has one cell per local position. */
    predicate Valid() {
      Shape().Positive() && blocks.Length == Shape().Volume()
    }

    /** A fresh chunk: the given world, origin and sizes, a zeroed block array of S*H*S cells, not modified. */
    constructor (world: World, worldPosition: Vec3, chunkSize: int, chunkHeight: int)
      requires chunkSize * chunkHeight * chunkSize >= 0
      ensures this.world == world && this.worldPosition == worldPosition
      ensures this.chunkSize == chunkSize && this.chunkHeight == chunkHeight
      ensures fresh(blocks) && blocks.Length == chunkSize * chunkHeight * chunkSize
      ensures forall i :: 0 <= i < blocks.Length ==> blocks[i] == 0
      ensures !isModified && treeData == None
    {
      this.world := world;
      this.worldPosition := worldPosition;
      this.chunkSize := chunkSize;
      this.chunkHeight := chunkHeight;
      blocks := new ushort[chunkSize * chunkHeight * chunkSize](_ => 0);
      isModified := false;
      treeData := None;
    }
  }

  // ---------------------------------------------------------------- ChunkRenderer

  /** What RecalculateMesh hands to the Mesh and the collision mesh: merged vertices, the two submeshes, merged
      UVs, and the merged collider lists. */
  datatype ChunkMesh = ChunkMesh(
    vertices: seq<Vec3>, opaqueTriangles: seq<int>, transparentTriangles: seq<int>, uvs: seq<Uv>,
    colliderVertices: seq<Vec3>, colliderTriangles: seq<int>)

  const EmptyMesh := ChunkMesh([], [], [], [], [], [])

  function Shifted(s: seq<int>, offset: int): (r: seq<int>)
    ensures |r| == |s| && forall k :: 0 <= k < |s| ==> r[k] == s[k] + offset
  {
    if s == [] then [] else [s[0] + offset] + Shifted(s[1..], offset)
  }

  /** The merge of RecalculateMesh: solid lists first, transparent ones after; the transparent submesh indices are
      shifted by the number of solid vertices; the collider triangle lists are concatenated without a shift. */
  function Merge(solid: Buffers, transparent: Buffers): ChunkMesh {
    ChunkMesh(
      solid.vertices + transparent.vertices,
      solid.triangles,
      Shifted(transparent.triangles, |solid.vertices|),
      solid.uvs + transparent.uvs,
      solid.colliderVertices + transparent.colliderVertices,
      solid.colliderTriangles + transparent.colliderTriangles)
  }

  /** For well-formed buffers, both submeshes index the merged vertex list: submesh 0 exactly the solid vertices,
      submesh 1 exactly the transparent ones, which follow them; there is one UV per merged vertex. */
  lemma MergeRenderIndices(solid: Buffers, transparent: Buffers)
    requires MeshBuffers.WellFormed(solid) && MeshBuffers.WellFormed(transparent)
    ensures var m := Merge(solid, transparent);
      && m.vertices[..|solid.vertices|] == solid.vertices
      && m.vertices[|solid.vertices|..] == transparent.vertices
      && (forall k :: 0 <= k < |m.opaqueTriangles| ==> 0 <= m.opaqueTriangles[k] < |solid.vertices|)
      && (forall k :: 0 <= k < |m.transparentTriangles| ==>
            |solid.vertices| <= m.transparentTriangles[k] < |m.vertices|
            && m.vertices[m.transparentTriangles[k]] == transparent.vertices[transparent.triangles[k]])
      && |m.uvs| == |m.vertices|
  {
    var m := Merge(solid, transparent);
    forall k | 0 <= k < |m.transparentTriangles|
      ensures |solid.vertices| <= m.transparentTriangles[k] < |m.vertices|
      ensures m.vertices[m.transparentTriangles[k]] == transparent.vertices[transparent.triangles[k]]
    {
      assert 0 <= transparent.triangles[k] < |transparent.vertices|;
    }
  }

  /** The collider merge as written: the transparent collider indices keep their own numbering, so when the opaque
      part has at least as many collider vertices, no collider triangle uses a transparent collider vertex. */
  lemma MergeColliderIndicesNotShifted(solid: Buffers, transparent: Buffers)
    requires MeshBuffers.WellFormed(solid) && MeshBuffers.WellFormed(transparent)
    requires |transparent.colliderVertices| <= |solid.colliderVertices|
    ensures var m := Merge(solid, transparent);
      forall k :: 0 <= k < |m.colliderTriangles| ==> 0 <= m.colliderTriangles[k] < |solid.colliderVertices|
  {
    var m := Merge(solid, transparent);
    forall k | 0 <= k < |m.colliderTriangles| ensures 0 <= m.colliderTriangles[k] < |solid.colliderVertices| {
      if k >= |solid.colliderTriangles| {
        assert m.colliderTriangles[k] == transparent.colliderTriangles[k - |solid.colliderTriangles|];
      }
    }
  }

  /** One collidable opaque face and one collidable transparent face: the merged collider mesh draws the opaque
      quad twice and leaves the transparent quad's four vertices unused. */
  lemma MergeColliderExample(a: seq<Vec3>, b: seq<Vec3>, ua: seq<Uv>, ub: seq<Uv>)
    requires |a| == 4 && |b| == 4 && |ua| == 4 && |ub| == 4
    ensures var m := Merge(PushFace(Empty, Face(a, ua, true)), PushFace(Empty, Face(b, ub, true)));
      m.colliderVertices == a + b && m.colliderTriangles == [0, 1, 2, 0, 2, 3, 0, 1, 2, 0, 2, 3]
      && m.transparentTriangles == [4, 5, 6, 4, 6, 7]
  {
    OneColliderFace(a, ua);
    OneColliderFace(b, ub);
    ShiftedQuad();
    var m := Merge(PushFace(Empty, Face(a, ua, true)), PushFace(Empty, Face(b, ub, true)));
    assert m.colliderTriangles == [0, 1, 2, 0, 2, 3] + [0, 1, 2, 0, 2, 3];
    TwoQuads();
  }

  /** Two copies of the first quad's indices, written out. */
  lemma TwoQuads()
    ensures [0, 1, 2, 0, 2, 3] + [0, 1, 2, 0, 2, 3] == [0, 1, 2, 0, 2, 3, 0, 1, 2, 0, 2, 3]
  {
  }

  /** The buffers of one collider face pushed into empty buffers. */
  lemma OneColliderFace(a: seq<Vec3>, ua: seq<Uv>)
    requires |a| == 4 && |ua| == 4
    ensures PushFace(Empty, Face(a, ua, true)) == Buffers(a, [0, 1, 2, 0, 2, 3], ua, a, [0, 1, 2, 0, 2, 3])
  {
    assert QuadIndices(4) == [0, 1, 2, 0, 2, 3];
  }

  /** The first quad's indices moved past four vertices. */
  lemma ShiftedQuad()
    ensures Shifted([0, 1, 2, 0, 2, 3], 4) == [4, 5, 6, 4, 6, 7]
  {
    var r := Shifted([0, 1, 2, 0, 2, 3], 4);
    assert |r| == 6 && r[0] == 4 && r[1] == 5 && r[2] == 6 && r[3] == 4 && r[4] == 6 && r[5] == 7;
  }

  /** A chunk's renderer (a pooled game object with its mesh). */
  class ChunkRenderer {
    var chunkData: ChunkData?
    var mesh: ChunkMesh
    /** gameObject.activeSelf */
    var active: bool
    /** The game object has been destroyed. */
    var destroyed: bool
    /** transform.position */
    var position: Vec3

    /** Everything about the renderer except whether its game object is destroyed. */
    ghost function Shown(): (bool, Vec3, ChunkData?, ChunkMesh)
      reads this
    {
      (active, position, chunkData, mesh)
    }

    /** Instantiate of the chunk prefab at a position: no chunk data and an empty mesh yet. */
    constructor (position: Vec3)
      ensures chunkData == null && mesh == EmptyMesh && active && !destroyed && this.position == position
    {
      chunkData := null;
      mesh := EmptyMesh;
      active := true;
      destroyed := false;
      this.position := position;
    }

    /** The IsModified getter forwards to the chunk data; with none it throws. */
    function IsModified(): (r: Result<bool>)
      reads this, chunkData
      ensures chunkData == null <==> r == Err(NullReference)
      ensures chunkData != null ==> r == Ok(chunkData.isModified)
    {
      if chunkData == null then Err(NullReference) else Ok(chunkData.isModified)
    }

    /** The IsModified setter writes through to the chunk data; with none it throws. */
    method SetIsModified(value: bool) returns (r: Outcome)
      modifies chunkData
      ensures chunkData == null ==> r == Fail(NullReference)
      ensures chunkData != null ==> r == Pass && chunkData.isModified == value
      ensures chunkData != null ==> chunkData.treeData == old(chunkData.treeData)
    {
      if chunkData == null {
        return Fail(NullReference);
      }
      chunkData.isModified := value;
      r := Pass;
    }

    /** Initialize: bind the renderer to its chunk data. */
    method Initialize(chunkData: ChunkData)
      modifies this
      ensures this.chunkData == chunkData
      ensures mesh == old(mesh) && active == old(active) && destroyed == old(destroyed) && position == old(position)
    {
      this.chunkData := chunkData;
    }

    /** RecalculateMesh, and UpdateMesh(meshData) which calls it: the mesh is cleared, then becomes the merge of
        the main buffers and the nested transparent ones. A renderer without chunk data (whose materials it reads)
        or a mesh data without nested transparent data throws, leaving the cleared mesh. */
    method UpdateMeshWith(meshData: MeshData) returns (r: Outcome)
      modifies this
      ensures chunkData == null ==> r == Fail(NullReference) && mesh == EmptyMesh
      ensures chunkData != null && meshData.transparentMeshData == null ==> r == Fail(NullReference) && mesh == EmptyMesh
      ensures chunkData != null && meshData.transparentMeshData != null ==>
        r == Pass && mesh == Merge(meshData.Contents(), meshData.transparentMeshData.Contents())
      ensures chunkData == old(chunkData) && active == old(active) && destroyed == old(destroyed)
      ensures position == old(position)
    {
      mesh := EmptyMesh;
      if chunkData == null || meshData.transparentMeshData == null {
        return Fail(NullReference);
      }
      var solid := meshData.Contents();
      var transparent := meshData.transparentMeshData.Contents();
      mesh := ChunkMesh(
        solid.vertices + transparent.vertices,
        solid.triangles,
        Shifted(transparent.triangles, |solid.vertices|),
        solid.uvs + transparent.uvs,
        solid.colliderVertices + transparent.colliderVertices,
        solid.colliderTriangles + transparent.colliderTriangles);
      r := Pass;
    }
  }

  // ---------------------------------------------------------------- World

  /** The state of a World: the fixed chunk dimensions and collaborators, the WorldData dictionaries and the loaded
      flag. */
  class World {
    const chunkSize: int
    const chunkHeight: int
    const blockManager: BlockManager
    const worldRenderer: WorldRenderer
    var chunkDatas: map<Vec3, ChunkData>
    var chunkRenderers: map<Vec3, ChunkRenderer>
    var isWorldLoaded: bool
    /** The block arrays of the chunk datas, kept beside the map. */
    ghost var arrays: set<array<ushort>>

    function Shape(): Dims {
      Dims(chunkSize, chunkHeight)
    }

    /** Every chunk data sits under its own origin, which is on the chunk grid, belongs to this world and has its
        sizes. */
    ghost predicate Valid()
      reads this
    {
      StoredIn(this, Shape(), chunkDatas, arrays)
    }

    /** The block arrays of the chunk datas, the frame of a write into the world. */
    ghost function Arrays(): set<object>
      reads this
    {
      arrays
    }

    /** Awake with the block manager wired in: empty dictionaries, not loaded. */
    constructor (chunkSize: int, chunkHeight: int, blockManager: BlockManager, worldRenderer: WorldRenderer)
      requires chunkSize > 0 && chunkHeight > 0
      ensures this.chunkSize == chunkSize && this.chunkHeight == chunkHeight
      ensures this.blockManager == blockManager && this.worldRenderer == worldRenderer
      ensures chunkDatas == map[] && chunkRenderers == map[] && !isWorldLoaded
      ensures Valid()
    {
      this.chunkSize := chunkSize;
      this.chunkHeight := chunkHeight;
      this.blockManager := blockManager;
      this.worldRenderer := worldRenderer;
      chunkDatas := map[];
      arrays := {};
      chunkRenderers := map[];
      isWorldLoaded := false;
    }
  }

  /** Every chunk data of a map sits under its own origin, which is on the chunk grid of `d`, belongs to `world`,
      has the sizes of `d` and its block array among `arrays`. It reads no state, so it is kept by any change
      that leaves the map and the arrays alone. */
  ghost predicate StoredIn(world: World, d: Dims, chunkDatas: map<Vec3, ChunkData>, arrays: set<array<ushort>>) {
    && d.Positive()
    && forall k :: k in chunkDatas ==>
      var c := chunkDatas[k];
      c.worldPosition == k && Aligned(d, k) && c.world == world && c.Shape() == d && c.Valid() && c.blocks in arrays
  }

  // ---------------------------------------------------------------- WorldRenderer

  /** The renderer pool of WorldRenderer. */
  class WorldRenderer {
    /** renderQueue, front first. */
    var renderQueue: seq<ChunkRenderer>

    constructor ()
      ensures renderQueue == []
    {
      renderQueue := [];
    }

    /** RemoveChunkRenderer: deactivate the renderer and put it at the back of the pool. */
    method RemoveChunkRenderer(chunkRenderer: ChunkRenderer)
      modifies this, chunkRenderer
      ensures !chunkRenderer.active && renderQueue == old(renderQueue) + [chunkRenderer]
      ensures chunkRenderer.chunkData == old(chunkRenderer.chunkData) && chunkRenderer.mesh == old(chunkRenderer.mesh)
      ensures chunkRenderer.destroyed == old(chunkRenderer.destroyed)
      ensures chunkRenderer.position == old(chunkRenderer.position)
    {
      chunkRenderer.active := false;
      renderQueue := renderQueue + [chunkRenderer];
    }

    /** Clear: destroy the renderers in the world's render map and empty the pool. Pooled renderers are dropped from
        the pool without being destroyed; the render map itself is left as it is. */
    method Clear(world: World)
      modifies this, world.chunkRenderers.Values
      ensures renderQueue == []
      ensures forall r :: r in old(world.chunkRenderers.Values) ==> r.destroyed
      ensures forall r :: r in old(world.chunkRenderers.Values) ==>
        && r.active == old(r.active) && r.position == old(r.position)
        && r.chunkData == old(r.chunkData) && r.mesh == old(r.mesh)
      ensures world.chunkRenderers == old(world.chunkRenderers)
    {
      var pending := world.chunkRenderers.Values;
      ghost var all := pending;
      while pending != {}
        invariant pending <= all
        invariant forall r :: r in all - pending ==> r.destroyed
        invariant forall r :: r in all ==> r.Shown() == old(r.Shown())
        decreases |pending|
      {
        var r :| r in pending;
        r.destroyed := true;
        pending := pending - {r};
      }
      renderQueue := [];
    }

    /** RenderChunk: take the front of the pool, or create a renderer when the pool is empty; then look up the chunk
        data (a missing key throws, after the pool was already popped); bind it, set the mesh and activate. */
    method RenderChunk(world: World, chunkPosition: Vec3, chunkMeshData: MeshData) returns (r: Result<ChunkRenderer>)
      modifies this, if renderQueue == [] then {} else {renderQueue[0]}
      ensures renderQueue == if old(renderQueue) == [] then [] else old(renderQueue)[1..]
      ensures chunkPosition !in world.chunkDatas ==> r == Err(KeyNotFound)
      ensures chunkPosition in world.chunkDatas && chunkMeshData.transparentMeshData == null ==>
        r == Err(NullReference)
      ensures chunkPosition in world.chunkDatas && chunkMeshData.transparentMeshData != null ==>
        && r.Ok?
        && (if old(renderQueue) == [] then fresh(r.value) && !r.value.destroyed
            else r.value == old(renderQueue)[0] && r.value.destroyed == old(renderQueue[0].destroyed))
        && r.value.chunkData == world.chunkDatas[chunkPosition] && r.value.position == chunkPosition
        && r.value.active
        && r.value.mesh == Merge(chunkMeshData.Contents(), chunkMeshData.transparentMeshData.Contents())
    {
      var chunkRenderer: ChunkRenderer;
      if |renderQueue| > 0 {
        chunkRenderer := renderQueue[0];
        renderQueue := renderQueue[1..];
        chunkRenderer.position := chunkPosition;
      } else {
        chunkRenderer := new ChunkRenderer(chunkPosition);
      }
      if chunkPosition !in world.chunkDatas {
        return Err(KeyNotFound);
      }
      var chunkData := world.chunkDatas[chunkPosition];
      chunkRenderer.Initialize(chunkData);
      var updated := chunkRenderer.UpdateMeshWith(chunkMeshData);
      if updated.Fail? {
        return Err(updated.error);
      }
      chunkRenderer.active := true;
      r := Ok(chunkRenderer);
    }
  }
}
