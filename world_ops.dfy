/** World.cs, viewed sequentially: SetBlock and GetBlockId on the loaded world, DestroyWorld, CreateChunk, and the
    steps of a streaming cycle (removing renderers and chunk datas, generating and adding chunk datas, meshing them,
    and the chunk creation of ChunkGenerationCoroutine). The cycle itself is composed in WorldGeneration. */
module WorldOps {
  import opened Wrappers
  import opened Vectors
  import opened ChunkMath
  import opened BlockRegistry
  import opened MeshBuffers
  import opened WorldState
  import opened ChunkAccess
  import Meshing = ChunkMesh
  import opened Streaming
  import TerrainGeneration

  // ---------------------------------------------------------------- the render map

  /** The render map agrees with the chunk datas and the pool: every rendered key has chunk data, which its
      renderer shows; no renderer serves two keys; no rendered renderer waits in the pool; and the pool holds each
      renderer at most once. */
  ghost predicate Linked(world: World)
    reads world, world.chunkRenderers.Values, world.worldRenderer
  {
    var pool := world.worldRenderer.renderQueue;
    && (forall k :: k in world.chunkRenderers ==>
          k in world.chunkDatas && world.chunkRenderers[k].chunkData == world.chunkDatas[k])
    && (forall k, k' :: k in world.chunkRenderers && k' in world.chunkRenderers && k != k' ==>
          world.chunkRenderers[k] != world.chunkRenderers[k'])
    && (forall k :: k in world.chunkRenderers ==> world.chunkRenderers[k] !in pool)
    && (forall i, j :: 0 <= i < j < |pool| ==> pool[i] != pool[j])
  }

  /** The mesh UpdateMesh gives a chunk from its current blocks, or None when meshing throws. */
  ghost function MeshOf(c: ChunkData): Option<ChunkMesh>
    requires c.Valid() && c.world.Valid()
    reads c.blocks, c.world, c.world.Arrays(), c.world.blockManager
  {
    var faces := Meshing.ChunkFaces(c, c.blocks.Length);
    if faces.Err? then None else Some(Merge(PushFaces(Empty, faces.value.0), PushFaces(Empty, faces.value.1)))
  }

  /** The chunk data a block position falls in, as a frame. */
  ghost function Owner(world: World, p: Vec3): set<object>
    requires world.Shape().Positive()
    reads world
  {
    if GetChunkData(world, p).Some? then {GetChunkData(world, p).value} else {}
  }

  /** The renderers waiting in the pool, as a frame. */
  ghost function Pooled(world: World): set<object>
    reads world.worldRenderer
  {
    set x | x in world.worldRenderer.renderQueue
  }

  /** The front of the pool, which RenderChunk takes, as a frame. */
  ghost function PoolHead(world: World): set<object>
    reads world.worldRenderer
  {
    if world.worldRenderer.renderQueue == [] then {} else {world.worldRenderer.renderQueue[0]}
  }

  // ---------------------------------------------------------------- reading and writing blocks

  /** World.GetBlockId: throws when the world is not loaded; null when no renderer covers the position; otherwise
      the block id WorldHelper reads there. */
  function GetBlockId(world: World, blockPosition: Vec3): Result<Option<string>>
    requires world.Valid()
    reads world, world.Arrays(), world.blockManager
  {
    if !world.isWorldLoaded then Err(NotLoaded)
    else if GetChunk(world, blockPosition).None? then Ok(None)
    else GetBlockIdInWorld(world, blockPosition)
  }

  /** On a loaded world, a position covered by a renderer reads the cell of the chunk data that renderer shows;
      a position no renderer covers reads null, even where chunk data without a renderer is loaded. */
  lemma GetBlockIdSpec(world: World, p: Vec3)
    requires world.Valid() && Linked(world)
    ensures !world.isWorldLoaded ==> GetBlockId(world, p) == Err(NotLoaded)
    ensures world.isWorldLoaded && GetChunk(world, p).None? ==> GetBlockId(world, p) == Ok(None)
    ensures world.isWorldLoaded && GetChunk(world, p).Some? ==>
      var c := GetChunk(world, p).value.chunkData;
      && c != null && InBounds(c.Shape(), LocalFromWorld(c.worldPosition, p))
      && var i := IndexOf(c.Shape(), LocalFromWorld(c.worldPosition, p));
         0 <= i < c.blocks.Length && GetBlockId(world, p) == BlockIdOf(world.blockManager.View(), c.blocks[i])
  {
    GetBlockIdInWorldSpec(world, p);
    GetChunkDataSpec(world, p);
  }

  /** The neighbour loop of World.SetBlock: each neighbour is dereferenced (a null one throws) and the renderer
      at its position, if any, rebuilds its mesh. Only meshes change. */
  method UpdateNeighbours(world: World, neighbours: seq<Option<ChunkData>>) returns (r: Outcome)
    requires world.Valid() && Linked(world)
    modifies world.chunkRenderers.Values
    ensures Linked(world)
    ensures forall x :: x in world.chunkRenderers.Values ==>
      x.chunkData == old(x.chunkData) && x.active == old(x.active) && x.destroyed == old(x.destroyed)
      && x.position == old(x.position)
    ensures r == Pass ==> forall k :: 0 <= k < |neighbours| ==> neighbours[k].Some?
  {
    var k := 0;
    while k < |neighbours|
      invariant 0 <= k <= |neighbours|
      invariant Linked(world)
      invariant forall x :: x in world.chunkRenderers.Values ==>
        x.chunkData == old(x.chunkData) && x.active == old(x.active) && x.destroyed == old(x.destroyed)
        && x.position == old(x.position)
      invariant forall j :: 0 <= j < k ==> neighbours[j].Some?
    {
      if neighbours[k].None? {
        return Fail(NullReference);
      }
      var updated := UpdateNeighbour(world, neighbours[k].value.worldPosition);
      if updated.Fail? {
        return updated;
      }
      k := k + 1;
    }
    r := Pass;
  }

  /** One step of the neighbour loop: the renderer at a position, if any, rebuilds its mesh. */
  method UpdateNeighbour(world: World, p: Vec3) returns (r: Outcome)
    requires world.Valid() && Linked(world)
    modifies world.chunkRenderers.Values
    ensures Linked(world)
    ensures forall x :: x in world.chunkRenderers.Values ==>
      x.chunkData == old(x.chunkData) && x.active == old(x.active) && x.destroyed == old(x.destroyed)
      && x.position == old(x.position)
    ensures GetChunk(world, p).None? ==> r == Pass
    ensures GetChunk(world, p).Some? ==>
      var x := GetChunk(world, p).value;
      r == Pass ==> MeshOf(x.chunkData) == Some(x.mesh)
  {
    var neighbourRenderer := GetChunk(world, p);
    r := Pass;
    if neighbourRenderer.Some? {
      r := Meshing.UpdateMesh(neighbourRenderer.value);
    }
  }

  /** The remeshing that ends World.SetBlock: the neighbours of an edge block, then the chunk's own renderer. A
      missing neighbour throws; on success the renderer shows the mesh of its chunk's current blocks. */
  method Remesh(world: World, renderer: ChunkRenderer, blockPosition: Vec3) returns (r: Outcome)
    requires world.Valid() && Linked(world)
    requires renderer in world.chunkRenderers.Values && renderer.chunkData != null
    modifies world.chunkRenderers.Values
    ensures Linked(world)
    ensures forall x :: x in world.chunkRenderers.Values ==>
      x.chunkData == old(x.chunkData) && x.active == old(x.active) && x.destroyed == old(x.destroyed)
      && x.position == old(x.position)
    ensures var c := renderer.chunkData;
      IsOnEdgeOfTheChunk(c, blockPosition) && MissingNeighbour(c, blockPosition) ==> r.Fail?
    ensures r == Pass ==> MeshOf(renderer.chunkData) == Some(renderer.mesh)
  {
    var c := renderer.chunkData;
    assert c.Valid() && c.world.Valid();
    var updated := RemeshNeighbours(world, c, blockPosition);
    if updated.Fail? {
      return updated;
    }
    r := Meshing.UpdateMesh(renderer);
  }

  /** The neighbour part of Remesh: only an edge block looks its neighbours up, and a missing one throws. */
  method RemeshNeighbours(world: World, c: ChunkData, blockPosition: Vec3) returns (r: Outcome)
    requires world.Valid() && Linked(world) && c.world == world
    modifies world.chunkRenderers.Values
    ensures Linked(world)
    ensures forall x :: x in world.chunkRenderers.Values ==>
      x.chunkData == old(x.chunkData) && x.active == old(x.active) && x.destroyed == old(x.destroyed)
      && x.position == old(x.position)
    ensures !IsOnEdgeOfTheChunk(c, blockPosition) ==> r == Pass
    ensures IsOnEdgeOfTheChunk(c, blockPosition) && MissingNeighbour(c, blockPosition) ==> r.Fail?
  {
    r := Pass;
    if IsOnEdgeOfTheChunk(c, blockPosition) {
      var neighbours := GetNeighbourChunks(c, blockPosition);
      r := UpdateNeighbours(world, neighbours);
    }
  }

  /** World.SetBlock past its early returns, as a change of state: the chunk data covering the position gets
      exactly the target cell written and is marked modified, or, for an id that does not convert, nothing
      changes and the exception is the result. A written edge block with a missing neighbour throws, and no
      result other than true is a success. */
  twostate predicate CoveredWrite(world: World, blockPosition: Vec3, blockId: Option<string>, new r: Result<bool>)
    requires world.Valid() && unchanged(world)
    reads world, world.blockManager, world.Arrays(), world.chunkRenderers.Values, world.chunkDatas.Values
  {
    && GetChunkData(world, blockPosition).Some? && WorldTarget(world, blockPosition).Some?
    && var c := GetChunkData(world, blockPosition).value;
       var (a, i) := WorldTarget(world, blockPosition).value;
       match ConvertToShortId(world.blockManager.View(), blockId)
       case Err(e) =>
         && r == Err(e) && unchanged(world.chunkRenderers.Values, Owner(world, blockPosition))
         && forall b: array<ushort> :: b in world.Arrays() ==> b[..] == old(b[..])
       case Ok(s) =>
         && 0 <= i < a.Length && a[i] == s
         && (forall j :: 0 <= j < a.Length && j != i ==> a[j] == old(a[j]))
         && (forall b: array<ushort> :: b in world.Arrays() && b != a ==> b[..] == old(b[..]))
         && c.isModified
         && (r.Ok? ==> r == Ok(true))
         && (IsOnEdgeOfTheChunk(c, blockPosition) && MissingNeighbour(c, blockPosition) ==> r.Err?)
  }

  /** A true SetBlock reads back: the position holds the block written, and the covering chunk shows the mesh of
      its current blocks. */
  ghost predicate ShowsWrite(world: World, blockPosition: Vec3, blockId: Option<string>)
    requires world.Valid()
    reads world, world.blockManager, world.Arrays(), world.chunkRenderers.Values, world.chunkDatas.Values
  {
    && blockId.Some? && blockId.value in world.blockManager.blockDatas
    && GetBlockId(world, blockPosition) == Ok(Some(world.blockManager.blockDatas[blockId.value].blockId))
    && GetChunkData(world, blockPosition).Some?
    && var c := GetChunkData(world, blockPosition).value;
       c.worldPosition in world.chunkRenderers && MeshOf(c) == Some(world.chunkRenderers[c.worldPosition].mesh)
  }

  /** World.SetBlock. Not loaded, or no renderer covering the position: false and nothing changes. Otherwise the
      write of WorldHelper.SetBlock (replacing) goes to the cell of the renderer's chunk data, which is marked
      modified; an edge block makes every neighbour lookup be dereferenced, so a missing neighbour throws after
      the write; then the neighbours' meshes and the chunk's own mesh are rebuilt, and the result is true. */
  method SetBlock(world: World, blockPosition: Vec3, blockId: Option<string>) returns (r: Result<bool>)
    requires world.Valid() && Linked(world)
    modifies world.Arrays(), world.chunkRenderers.Values, Owner(world, blockPosition)
    ensures Linked(world)
    ensures !world.isWorldLoaded || GetChunk(world, blockPosition).None? ==>
      r == Ok(false) && unchanged(world.Arrays(), world.chunkRenderers.Values, Owner(world, blockPosition))
    ensures world.isWorldLoaded && GetChunk(world, blockPosition).Some? ==> CoveredWrite(world, blockPosition, blockId, r)
    ensures r == Ok(true) ==> ShowsWrite(world, blockPosition, blockId)
  {
    if !world.isWorldLoaded {
      return Ok(false);
    }
    var chunk := GetChunk(world, blockPosition);
    if chunk.None? {
      return Ok(false);
    }
    r := SetCoveredBlock(world, chunk.value, blockPosition, blockId);
  }

  /** World.SetBlock past its two early returns: the write, then the remeshing. */
  method SetCoveredBlock(world: World, renderer: ChunkRenderer, blockPosition: Vec3, blockId: Option<string>)
    returns (r: Result<bool>)
    requires world.Valid() && Linked(world) && world.isWorldLoaded && GetChunk(world, blockPosition) == Some(renderer)
    modifies world.Arrays(), world.chunkRenderers.Values, Owner(world, blockPosition)
    ensures Linked(world)
    ensures CoveredWrite(world, blockPosition, blockId, r)
    ensures r == Ok(true) ==> ShowsWrite(world, blockPosition, blockId)
  {
    var written := WriteBlock(world, renderer, blockPosition, blockId);
    if written.Err? {
      return written;
    }
    ghost var readBack := GetBlockId(world, blockPosition);
    label written:
    var meshed := Remesh(world, renderer, blockPosition);
    assert unchanged@written(world, world.Arrays(), world.blockManager);
    assert GetBlockId(world, blockPosition) == readBack;
    if meshed.Fail? {
      return Err(meshed.error);
    }
    r := Ok(true);
  }

  /** The write of World.SetBlock: WorldHelper.SetBlock (replacing) into the covering renderer's chunk data, and
      the chunk marked modified. Exactly the target cell can change; a true write reads back. */
  method WriteBlock(world: World, renderer: ChunkRenderer, blockPosition: Vec3, blockId: Option<string>)
    returns (r: Result<bool>)
    requires world.Valid() && Linked(world) && GetChunk(world, blockPosition) == Some(renderer)
    modifies world.Arrays(), Owner(world, blockPosition)
    ensures GetChunkData(world, blockPosition).Some? && WorldTarget(world, blockPosition).Some?
    ensures var c := GetChunkData(world, blockPosition).value;
      var (a, i) := WorldTarget(world, blockPosition).value;
      match ConvertToShortId(world.blockManager.View(), blockId)
      case Err(e) =>
        && r == Err(e) && unchanged(Owner(world, blockPosition))
        && forall b: array<ushort> :: b in world.Arrays() ==> b[..] == old(b[..])
      case Ok(s) =>
        && r == Ok(true) && 0 <= i < a.Length && a[i] == s
        && (forall j :: 0 <= j < a.Length && j != i ==> a[j] == old(a[j]))
        && (forall b: array<ushort> :: b in world.Arrays() && b != a ==> b[..] == old(b[..]))
        && c.isModified && c == renderer.chunkData
    ensures r == Ok(true) ==>
      && blockId.Some? && blockId.value in world.blockManager.blockDatas
      && GetBlockIdInWorld(world, blockPosition) == Ok(Some(world.blockManager.blockDatas[blockId.value].blockId))
  {
    GetChunkDataSpec(world, blockPosition);
    WorldTargetInRange(world, blockPosition);
    r := SetBlockInWorld(world, blockPosition, blockId, true);
    if r.Err? {
      ghost var (a, i) := WorldTarget(world, blockPosition).value;
      assert a[..] == old(a[..]);
      return;
    }
    label written:
    var marked := renderer.SetIsModified(true);
    assert unchanged@written(world, world.Arrays(), world.blockManager);
  }

  /** In a world whose chunk datas all sit at y 0, as the streaming grid places them, a block on the bottom layer of
      a chunk has no chunk data below it, so World.SetBlock there throws after writing the block. */
  lemma BottomLayerHasNoNeighbourBelow(world: World, p: Vec3)
    requires world.Valid() && GetChunkData(world, p).Some?
    requires forall k :: k in world.chunkDatas ==> k.y == 0
    requires LocalFromWorld(GetChunkData(world, p).value.worldPosition, p).y == 0
    ensures var c := GetChunkData(world, p).value;
      IsOnEdgeOfTheChunk(c, p)
      && MissingNeighbour(c, p)
  {
    var c := GetChunkData(world, p).value;
    var d := world.Shape();
    var local := LocalFromWorld(c.worldPosition, p);
    var steps := NeighbourSteps(c.Shape(), local);
    var k := (if local.x == 0 then 1 else 0) + (if local.x == d.size - 1 then 1 else 0);
    assert steps[k] == Vec3(0, -1, 0);
    var below := p.Plus(steps[k]);
    assert below.y == p.y - 1 && p.y == c.worldPosition.y && c.worldPosition.y == 0;
    FloorToSpec(below.y, d.height);
    assert ChunkOrigin(d, below).y != 0;
    assert GetNeighbourChunks(c, p)[k] == GetChunkData(world, below);
  }

  // ---------------------------------------------------------------- creating and destroying chunks

  /** CreateChunk: RenderChunk, then Dictionary.Add of the renderer, which throws for a key already rendered. On
      success exactly that key joins the render map, showing the chunk data under it with the given mesh. */
  method CreateChunk(world: World, chunkPosition: Vec3, chunkMeshData: MeshData) returns (r: Outcome)
    requires world.Valid() && Linked(world)
    modifies world, world.worldRenderer, PoolHead(world)
    ensures world.Valid() && Linked(world)
    ensures world.chunkDatas == old(world.chunkDatas) && world.isWorldLoaded == old(world.isWorldLoaded)
    ensures world.worldRenderer.renderQueue ==
      if old(world.worldRenderer.renderQueue) == [] then [] else old(world.worldRenderer.renderQueue)[1..]
    ensures forall x :: x in world.worldRenderer.renderQueue ==> x in old(world.worldRenderer.renderQueue)
    ensures chunkPosition !in world.chunkDatas ==> r == Fail(KeyNotFound)
    ensures chunkPosition in world.chunkDatas && chunkMeshData.transparentMeshData == null ==>
      r == Fail(NullReference)
    ensures (chunkPosition in world.chunkDatas && chunkMeshData.transparentMeshData != null
             && chunkPosition in old(world.chunkRenderers)) ==> r == Fail(DuplicateKey)
    ensures r.Fail? ==> world.chunkRenderers == old(world.chunkRenderers)
    ensures r == Pass <==>
      chunkPosition in world.chunkDatas && chunkMeshData.transparentMeshData != null
      && chunkPosition !in old(world.chunkRenderers)
    ensures r == Pass ==>
      && (forall k :: k in world.chunkRenderers <==> k in old(world.chunkRenderers) || k == chunkPosition)
      && (forall k :: k in old(world.chunkRenderers) ==> world.chunkRenderers[k] == old(world.chunkRenderers[k]))
      && var x := world.chunkRenderers[chunkPosition];
         && x.active && x.position == chunkPosition
         && x.mesh == Merge(chunkMeshData.Contents(), chunkMeshData.transparentMeshData.Contents())
  {
    var rendered := world.worldRenderer.RenderChunk(world, chunkPosition, chunkMeshData);
    if rendered.Err? {
      return Fail(rendered.error);
    }
    if chunkPosition in world.chunkRenderers {
      return Fail(DuplicateKey);
    }
    world.chunkRenderers := world.chunkRenderers[chunkPosition := rendered.value];
    r := Pass;
  }

  /** CreateChunk as one step of the coroutine, seen only through the render map and the pool. */
  method CreateChunkOf(world: World, chunkPosition: Vec3, chunkMeshData: MeshData) returns (r: Outcome)
    requires world.Valid() && Linked(world)
    modifies world, world.worldRenderer, PoolHead(world)
    ensures world.Valid() && Linked(world)
    ensures world.chunkDatas == old(world.chunkDatas) && world.isWorldLoaded == old(world.isWorldLoaded)
    ensures forall x :: x in world.worldRenderer.renderQueue ==> x in old(world.worldRenderer.renderQueue)
    ensures chunkMeshData.transparentMeshData == old(chunkMeshData.transparentMeshData)
    ensures r == Pass <==>
      chunkPosition in world.chunkDatas && chunkMeshData.transparentMeshData != null
      && chunkPosition !in old(world.chunkRenderers)
    ensures r.Fail? ==> world.chunkRenderers == old(world.chunkRenderers)
    ensures r == Pass ==>
      && (forall k :: k in world.chunkRenderers <==> k in old(world.chunkRenderers) || k == chunkPosition)
      && (forall k :: k in old(world.chunkRenderers) ==> world.chunkRenderers[k] == old(world.chunkRenderers[k]))
  {
    r := CreateChunk(world, chunkPosition, chunkMeshData);
  }

  /** The foreach of ChunkGenerationCoroutine: CreateChunk for every mesh (in the dictionary's order); an exception
      ends it. It succeeds exactly when every key has chunk data, no renderer yet, and a mesh with transparent data;
      then every key is rendered. Renderers already rendered stay. */
  method CreateChunks(world: World, chunkMeshDatas: map<Vec3, MeshData>) returns (r: Outcome)
    requires world.Valid() && Linked(world)
    modifies world, world.worldRenderer, Pooled(world)
    ensures world.Valid() && Linked(world)
    ensures world.chunkDatas == old(world.chunkDatas) && world.isWorldLoaded == old(world.isWorldLoaded)
    ensures r == Pass <==> forall k :: k in chunkMeshDatas ==>
      k in world.chunkDatas && k !in old(world.chunkRenderers) && old(chunkMeshDatas[k].transparentMeshData) != null
    ensures forall k :: k in old(world.chunkRenderers) ==>
      k in world.chunkRenderers && world.chunkRenderers[k] == old(world.chunkRenderers[k])
    ensures forall k :: k in world.chunkRenderers ==> k in old(world.chunkRenderers) || k in chunkMeshDatas
    ensures r == Pass ==> forall k :: k in chunkMeshDatas ==> k in world.chunkRenderers
  {
    var pending := chunkMeshDatas.Keys;
    ghost var done: set<Vec3> := {};
    while pending != {}
      invariant pending <= chunkMeshDatas.Keys && forall k :: k in pending ==> k !in done
      invariant forall k :: k in chunkMeshDatas ==> k in pending || k in done
      invariant world.Valid() && Linked(world)
      invariant world.chunkDatas == old(world.chunkDatas) && world.isWorldLoaded == old(world.isWorldLoaded)
      invariant forall x :: x in world.worldRenderer.renderQueue ==> x in old(world.worldRenderer.renderQueue)
      invariant forall k :: k in world.chunkRenderers <==> k in old(world.chunkRenderers) || k in done
      invariant forall k :: k in old(world.chunkRenderers) ==> world.chunkRenderers[k] == old(world.chunkRenderers[k])
      invariant forall k :: k in done ==>
        k in chunkMeshDatas && k in world.chunkDatas && k !in old(world.chunkRenderers)
        && old(chunkMeshDatas[k].transparentMeshData) != null
      decreases |pending|
    {
      var k :| k in pending;
      r := CreateChunkOf(world, k, chunkMeshDatas[k]);
      if r.Fail? {
        assert k !in world.chunkDatas || old(chunkMeshDatas[k].transparentMeshData) == null
          || k in old(world.chunkRenderers);
        return;
      }
      pending := pending - {k};
      done := done + {k};
    }
    r := Pass;
  }

  /** ChunkGenerationCoroutine: CreateChunks, then, unless an exception ended it, the world becomes loaded; a loaded
      world stays loaded. */
  method ChunkGenerationCoroutine(world: World, chunkMeshDatas: map<Vec3, MeshData>) returns (r: Outcome)
    requires world.Valid() && Linked(world)
    modifies world, world.worldRenderer, Pooled(world)
    ensures world.Valid() && Linked(world)
    ensures world.chunkDatas == old(world.chunkDatas)
    ensures old(world.isWorldLoaded) ==> world.isWorldLoaded
    ensures r == Pass ==> world.isWorldLoaded
    ensures r.Fail? ==> world.isWorldLoaded == old(world.isWorldLoaded)
    ensures r == Pass <==> forall k :: k in chunkMeshDatas ==>
      k in world.chunkDatas && k !in old(world.chunkRenderers) && old(chunkMeshDatas[k].transparentMeshData) != null
    ensures forall k :: k in old(world.chunkRenderers) ==>
      k in world.chunkRenderers && world.chunkRenderers[k] == old(world.chunkRenderers[k])
    ensures forall k :: k in world.chunkRenderers ==> k in old(world.chunkRenderers) || k in chunkMeshDatas
    ensures r == Pass ==> forall k :: k in chunkMeshDatas ==> k in world.chunkRenderers
  {
    r := CreateChunks(world, chunkMeshDatas);
    if r.Fail? || world.isWorldLoaded {
      return;
    }
    world.isWorldLoaded := true;
  }

  /** DestroyWorld: WorldRenderer.Clear, then both dictionaries are emptied. The loaded flag stays as it was. */
  method DestroyWorld(world: World)
    requires world.Valid()
    modifies world, world.worldRenderer, world.chunkRenderers.Values
    ensures world.chunkDatas == map[] && world.chunkRenderers == map[] && world.worldRenderer.renderQueue == []
    ensures forall x :: x in old(world.chunkRenderers.Values) ==> x.destroyed
    ensures world.isWorldLoaded == old(world.isWorldLoaded)
    ensures world.Valid() && Linked(world)
  {
    world.worldRenderer.Clear(world);
    world.chunkDatas := map[];
    world.arrays := {};
    world.chunkRenderers := map[];
  }

  // ---------------------------------------------------------------- the stages of a streaming cycle

  /** The first loop of a cycle: RemoveChunk for every position (in the list's order), so their renderers leave
      the map for the pool. */
  method RemoveChunks(world: World, positions: set<Vec3>)
    requires world.Valid() && Linked(world)
    modifies world, world.worldRenderer, world.chunkRenderers.Values
    ensures world.Valid() && Linked(world)
    ensures world.chunkDatas == old(world.chunkDatas) && world.arrays == old(world.arrays)
    ensures world.isWorldLoaded == old(world.isWorldLoaded)
    ensures world.chunkRenderers == old(world.chunkRenderers) - positions
    ensures forall x :: x in world.worldRenderer.renderQueue ==>
      x in old(world.worldRenderer.renderQueue) || x in old(world.chunkRenderers.Values)
  {
    var pending := positions;
    ghost var served := old(world.chunkRenderers.Values);
    while pending != {}
      invariant pending <= positions
      invariant world.Valid() && Linked(world)
      invariant world.chunkDatas == old(world.chunkDatas) && world.arrays == old(world.arrays)
      invariant world.isWorldLoaded == old(world.isWorldLoaded)
      invariant world.chunkRenderers == old(world.chunkRenderers) - (positions - pending)
      invariant forall x :: x in world.worldRenderer.renderQueue ==>
        x in old(world.worldRenderer.renderQueue) || x in served
      decreases |pending|
    {
      var p :| p in pending;
      ghost var before := world.chunkRenderers;
      assert p in before ==> before[p] in served;
      RemoveLinkedChunk(world, p);
      RemovedStep(old(world.chunkRenderers), positions, pending, p);
      pending := pending - {p};
    }
  }

  lemma RemovedStep<K, V>(m0: map<K, V>, gone: set<K>, pending: set<K>, p: K)
    requires p in pending && pending <= gone
    ensures m0 - (gone - pending) - {p} == m0 - (gone - (pending - {p}))
  {
  }

  /** RemoveChunk keeps the render map linked: the renderer it returns to the pool served only its key. */
  method RemoveLinkedChunk(world: World, chunkPosition: Vec3)
    requires world.Valid() && Linked(world)
    modifies world, world.worldRenderer
    modifies if chunkPosition in world.chunkRenderers then {world.chunkRenderers[chunkPosition]} else {}
    ensures world.Valid() && Linked(world)
    ensures world.chunkDatas == old(world.chunkDatas) && world.arrays == old(world.arrays)
    ensures world.isWorldLoaded == old(world.isWorldLoaded)
    ensures world.chunkRenderers == old(world.chunkRenderers) - {chunkPosition}
    ensures world.worldRenderer.renderQueue == old(world.worldRenderer.renderQueue) +
      if chunkPosition in old(world.chunkRenderers) then [old(world.chunkRenderers[chunkPosition])] else []
  {
    if chunkPosition in world.chunkRenderers {
      PoolStep(world.chunkRenderers, world.worldRenderer.renderQueue, chunkPosition);
    }
    RemoveChunk(world, chunkPosition);
  }

  /** Moving the renderer of p from the map to the back of the pool keeps the map injective, the map and the
      pool apart, and the pool free of repeats. */
  lemma PoolStep(m: map<Vec3, ChunkRenderer>, pool: seq<ChunkRenderer>, p: Vec3)
    requires p in m
    requires forall k, k' :: k in m && k' in m && k != k' ==> m[k] != m[k']
    requires forall k :: k in m ==> m[k] !in pool
    requires forall i, j :: 0 <= i < j < |pool| ==> pool[i] != pool[j]
    ensures var m', pool' := m - {p}, pool + [m[p]];
      && (forall k, k' :: k in m' && k' in m' && k != k' ==> m'[k] != m'[k'])
      && (forall k :: k in m' ==> m'[k] !in pool')
      && (forall i, j :: 0 <= i < j < |pool'| ==> pool'[i] != pool'[j])
  {
  }

  /** The second loop of a cycle: RemoveChunkData for every position. None of them may be rendered. */
  method RemoveChunkDatas(world: World, positions: set<Vec3>)
    requires world.Valid() && Linked(world)
    requires forall k :: k in positions ==> k !in world.chunkRenderers
    modifies world
    ensures world.Valid() && Linked(world)
    ensures world.chunkDatas == old(world.chunkDatas) - positions && world.Arrays() <= old(world.Arrays())
    ensures world.chunkRenderers == old(world.chunkRenderers) && world.isWorldLoaded == old(world.isWorldLoaded)
  {
    var pending := positions;
    while pending != {}
      invariant pending <= positions
      invariant world.Valid() && Linked(world)
      invariant world.chunkDatas == old(world.chunkDatas) - (positions - pending)
      invariant world.Arrays() <= old(world.Arrays())
      invariant world.chunkRenderers == old(world.chunkRenderers) && world.isWorldLoaded == old(world.isWorldLoaded)
      decreases |pending|
    {
      var p :| p in pending;
      RemoveChunkData(world, p);
      pending := pending - {p};
    }
  }

  /** GenerateChunkDatas: a fresh chunk data for every position, generated by the terrain generator and kept
      with TryAdd (the first one per position). It throws when a generation throws. */
  method GenerateChunkDatas(world: World, terrain: TerrainGeneration.TerrainGenerator, positions: seq<Vec3>)
    returns (r: Result<map<Vec3, ChunkData>>)
    requires world.Valid()
    modifies world.Arrays()
    ensures terrain.terrainType.OtherTerrain? && positions != [] ==> r == Err(NotImplemented)
    ensures r.Ok? ==> r.value.Keys == set p | p in positions
    ensures r.Ok? ==> forall k :: k in r.value ==>
      var c := r.value[k];
      && fresh(c) && fresh(c.blocks) && c.world == world && c.worldPosition == k && c.Shape() == world.Shape()
      && c.Valid() && !c.isModified
  {
    var chunkDatas: map<Vec3, ChunkData> := map[];
    var i := 0;
    while i < |positions|
      invariant 0 <= i <= |positions|
      invariant terrain.terrainType.OtherTerrain? ==> i == 0
      invariant chunkDatas.Keys == set p | p in positions[..i]
      invariant forall k :: k in chunkDatas ==>
        var c := chunkDatas[k];
        && fresh(c) && fresh(c.blocks) && c.world == world && c.worldPosition == k && c.Shape() == world.Shape()
        && c.Valid() && !c.isModified
    {
      var chunkData := new ChunkData(world, positions[i], world.chunkSize, world.chunkHeight);
      var generated := terrain.GenerateChunkData(chunkData);
      if generated.Fail? {
        return Err(generated.error);
      }
      if positions[i] !in chunkDatas {
        chunkDatas := chunkDatas[positions[i] := chunkData];
      }
      assert positions[..i + 1] == positions[..i] + [positions[i]];
      i := i + 1;
    }
    assert positions[..i] == positions;
    r := Ok(chunkDatas);
  }

  /** The block arrays of some chunk datas. */
  ghost function BlocksOf(chunkDatas: map<Vec3, ChunkData>): set<object> {
    set k | k in chunkDatas :: chunkDatas[k].blocks
  }

  /** The Dictionary.Add loop of a cycle: every generated chunk data joins the world (in the dictionary's order);
      a key that already has chunk data throws. It succeeds exactly when no key collides. */
  method AddChunkDatas(world: World, chunkDatas: map<Vec3, ChunkData>) returns (r: Outcome)
    requires world.Valid() && Linked(world)
    requires forall k :: k in chunkDatas ==>
      var c := chunkDatas[k];
      c.worldPosition == k && Aligned(world.Shape(), k) && c.world == world && c.Shape() == world.Shape() && c.Valid()
    modifies world
    ensures world.Valid() && Linked(world)
    ensures world.chunkRenderers == old(world.chunkRenderers) && world.isWorldLoaded == old(world.isWorldLoaded)
    ensures r == Pass <==> forall k :: k in chunkDatas ==> k !in old(world.chunkDatas)
    ensures r.Fail? ==> r == Fail(DuplicateKey)
    ensures r == Pass ==> world.chunkDatas == old(world.chunkDatas) + chunkDatas
    ensures forall k :: k in old(world.chunkDatas) ==>
      k in world.chunkDatas && world.chunkDatas[k] == old(world.chunkDatas[k])
    ensures forall k :: k in world.chunkDatas ==>
      k in old(world.chunkDatas) || (k in chunkDatas && world.chunkDatas[k] == chunkDatas[k])
    ensures world.Arrays() <= old(world.Arrays()) + BlocksOf(chunkDatas)
  {
    var pending := chunkDatas.Keys;
    ghost var added: map<Vec3, ChunkData> := map[];
    while pending != {}
      invariant world.Valid() && Linked(world)
      invariant pending <= chunkDatas.Keys && forall k :: k in pending ==> k !in added
      invariant forall k :: k in chunkDatas ==> k in pending || k in added
      invariant forall k :: k in added ==> k in chunkDatas && added[k] == chunkDatas[k] && k !in old(world.chunkDatas)
      invariant world.chunkDatas == old(world.chunkDatas) + added
      invariant world.chunkRenderers == old(world.chunkRenderers) && world.isWorldLoaded == old(world.isWorldLoaded)
      invariant world.Arrays() <= old(world.Arrays()) + BlocksOf(chunkDatas)
      decreases |pending|
    {
      var k :| k in pending;
      var c := chunkDatas[k];
      assert c.blocks in BlocksOf(chunkDatas);
      r := AddChunkData(world, k, c);
      if r.Fail? {
        return;
      }
      UnionUpdate(old(world.chunkDatas), added, k, c);
      added := added[k := c];
      pending := pending - {k};
    }
    assert added == chunkDatas;
    r := Pass;
  }

  /** Adding a key after a union is adding it to the right operand. */
  lemma UnionUpdate(m: map<Vec3, ChunkData>, added: map<Vec3, ChunkData>, k: Vec3, c: ChunkData)
    ensures (m + added)[k := c] == m + added[k := c]
  {
  }

  /** Dictionary.Add of one chunk data under its key, which throws for a key already present. */
  method AddChunkData(world: World, k: Vec3, c: ChunkData) returns (r: Outcome)
    requires world.Valid() && Linked(world)
    requires c.worldPosition == k && Aligned(world.Shape(), k) && c.world == world && c.Shape() == world.Shape()
    requires c.Valid()
    modifies world
    ensures world.Valid() && Linked(world)
    ensures world.chunkRenderers == old(world.chunkRenderers) && world.isWorldLoaded == old(world.isWorldLoaded)
    ensures k in old(world.chunkDatas) ==>
      r == Fail(DuplicateKey) && world.chunkDatas == old(world.chunkDatas) && world.arrays == old(world.arrays)
    ensures k !in old(world.chunkDatas) ==>
      r == Pass && world.chunkDatas == old(world.chunkDatas)[k := c] && world.arrays == old(world.arrays) + {c.blocks}
  {
    if k in world.chunkDatas {
      return Fail(DuplicateKey);
    }
    world.chunkDatas := world.chunkDatas[k := c];
    world.arrays := world.arrays + {c.blocks};
    r := Pass;
  }

  /** GenerateAdditionalChunkDatas: the additional terrain pass for every generated chunk data (in the
      dictionary's order); it throws when a pass throws. Only block arrays of the world change. */
  method GenerateAdditionalChunkDatas(world: World, terrain: TerrainGeneration.TerrainGenerator,
                                      chunkDatas: set<ChunkData>)
    returns (r: Outcome)
    requires world.Valid()
    requires forall c :: c in chunkDatas ==> c.world == world && c.Valid() && c.blocks in world.Arrays()
    modifies world.Arrays()
    ensures chunkDatas == {} ==> r == Pass
    ensures world.Arrays() == old(world.Arrays())
  {
    var pending := chunkDatas;
    while pending != {}
      invariant pending <= chunkDatas
      invariant world.Arrays() == old(world.Arrays())
      decreases |pending|
    {
      var c :| c in pending;
      r := terrain.GenerateAdditionalChunkData(c);
      if r.Fail? {
        return;
      }
      pending := pending - {c};
    }
    r := Pass;
  }

  /** `meshData` holds the solid and the nested transparent buffers of the given faces. */
  ghost predicate HoldsFaces(meshData: MeshData, faces: Result<(seq<Face>, seq<Face>)>)
    reads meshData, meshData.transparentMeshData
  {
    && faces.Ok? && meshData.transparentMeshData != null
    && meshData.Contents() == PushFaces(Empty, faces.value.0)
    && meshData.transparentMeshData.Contents() == PushFaces(Empty, faces.value.1)
  }

  /** One turn of CreateChunkMeshDatas: UpdateMeshData of a chunk, kept with TryAdd under its position. */
  method AddChunkMeshData(c: ChunkData, meshes: map<Vec3, MeshData>) returns (r: Result<map<Vec3, MeshData>>)
    requires c.Valid() && c.world.Valid()
    requires forall p :: p in meshes ==> meshes[p].transparentMeshData != null
    ensures r.Ok? ==> forall p :: p in r.value ==> r.value[p].transparentMeshData != null
    ensures var faces := Meshing.ChunkFaces(c, c.blocks.Length);
      && (faces.Err? ==> r == Err(faces.error))
      && (faces.Ok? ==> r.Ok? && c.worldPosition in r.value && r.value == meshes[c.worldPosition := r.value[c.worldPosition]])
      && (faces.Ok? && c.worldPosition in meshes ==> r == Ok(meshes))
      && (faces.Ok? && c.worldPosition !in meshes ==> HoldsFaces(r.value[c.worldPosition], faces))
  {
    var meshData := Meshing.UpdateMeshData(c);
    if meshData.Err? {
      return Err(meshData.error);
    }
    if c.worldPosition in meshes {
      return Ok(meshes);
    }
    r := Ok(meshes[c.worldPosition := meshData.value]);
  }

  /** CreateChunkMeshDatas: UpdateMeshData for every chunk data in the list's order, kept with TryAdd under the
      chunk's position. An exception is the meshing exception of a listed chunk, so a list whose chunks all mesh
      succeeds; then the positions are exactly those of the listed chunks, each with nested transparent data. */
  method CreateChunkMeshDatas(world: World, chunkDatasToRender: seq<ChunkData>)
    returns (r: Result<map<Vec3, MeshData>>)
    requires world.Valid()
    requires forall k :: 0 <= k < |chunkDatasToRender| ==>
      var c := chunkDatasToRender[k];
      c.Valid() && c.world == world && c.blocks in world.Arrays()
    ensures r.Err? ==> exists k ::
      && 0 <= k < |chunkDatasToRender|
      && Meshing.ChunkFaces(chunkDatasToRender[k], chunkDatasToRender[k].blocks.Length) == Err(r.error)
    ensures r.Ok? ==> forall k :: 0 <= k < |chunkDatasToRender| ==> chunkDatasToRender[k].worldPosition in r.value
    ensures r.Ok? ==> forall p :: p in r.value ==>
      && r.value[p].transparentMeshData != null
      && exists k :: 0 <= k < |chunkDatasToRender| && chunkDatasToRender[k].worldPosition == p
  {
    var meshes: map<Vec3, MeshData> := map[];
    ghost var first: map<Vec3, nat> := map[];
    var i := 0;
    while i < |chunkDatasToRender|
      invariant 0 <= i <= |chunkDatasToRender|
      invariant forall k :: 0 <= k < i ==> chunkDatasToRender[k].worldPosition in meshes
      invariant forall p :: p in meshes <==> p in first
      invariant forall p :: p in first ==> first[p] < i && chunkDatasToRender[first[p]].worldPosition == p
      invariant forall p :: p in meshes ==> meshes[p].transparentMeshData != null
    {
      var c := chunkDatasToRender[i];
      var added := AddChunkMeshData(c, meshes);
      if added.Err? {
        assert Meshing.ChunkFaces(chunkDatasToRender[i], chunkDatasToRender[i].blocks.Length) == Err(added.error);
        return Err(added.error);
      }
      if c.worldPosition !in meshes {
        first := first[c.worldPosition := i];
      }
      meshes := added.value;
      i := i + 1;
    }
    r := Ok(meshes);
  }
}
