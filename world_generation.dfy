/** One streaming cycle of World.cs (HandleWorldGeneration): select what the render distance needs, drop the
    renderers and the chunk datas it no longer needs, generate and add the new chunk datas, run the additional
    terrain pass on them, mesh the chunk datas to show and hand the meshes to ChunkGenerationCoroutine. The stages
    run one after the other here; cancellation is a parameter naming the stage at which the cancelled token is
    first seen. */
module WorldGeneration {
  import opened Wrappers
  import opened Vectors
  import opened ChunkMath
  import opened MeshBuffers
  import opened WorldState
  import opened Streaming
  import opened WorldOps
  import TerrainGeneration

  /** WorldGenerationData: the four selections of a cycle. */
  datatype WorldGenerationData = WorldGenerationData(
    chunkPositionsToGenerate: seq<Vec3>,
    chunkDataPositionsToGenerate: seq<Vec3>,
    chunkPositionsToDestroy: set<Vec3>,
    chunkDataPositionsToDestroy: set<Vec3>)

  /** Where the cycle first sees its token cancelled: never, at the selection task, or at the start of the
      generation, additional generation or meshing task. */
  datatype Cancellation = NotCancelled | AtSelection | AtGeneration | AtAdditional | AtMeshing

  // ---------------------------------------------------------------- selecting

  /** Every listed position is a chunk origin at y 0, whatever the render distance. */
  lemma WantedGridAligned(d: Dims, position: Vec3, renderDistance: int)
    requires d.Positive()
    ensures forall q :: q in WantedGrid(d, position, renderDistance) ==> Aligned(d, q) && q.y == 0
  {
    if renderDistance >= 0 {
      WantedGridSpec(d, position, renderDistance);
    } else {
      WantedGridEmpty(d, position, renderDistance);
    }
  }

  /** GetChunkPositionByRenderDistance: the needed grid, then the four selections from it. Both selections to
      generate are the same list: the needed positions without a renderer, nearest first, whether or not they have
      chunk data. */
  method GetChunkPositionByRenderDistance(world: World, position: Vec3, renderDistance: int)
    returns (data: WorldGenerationData)
    requires world.Valid()
    ensures var needed := WantedGrid(world.Shape(), position, renderDistance);
      && data.chunkDataPositionsToGenerate == data.chunkPositionsToGenerate
      && (forall q :: q in data.chunkPositionsToGenerate <==> q in needed && q !in world.chunkRenderers)
      && SortedByDistance(data.chunkPositionsToGenerate, position)
      && (forall q :: q in data.chunkPositionsToGenerate ==> Aligned(world.Shape(), q) && q.y == 0)
      && (forall k :: k in data.chunkPositionsToDestroy <==> k in world.chunkRenderers && k !in needed)
      && (forall k :: k in data.chunkDataPositionsToDestroy <==>
            k in world.chunkDatas && k !in needed && !world.chunkDatas[k].isModified)
  {
    var needed := GetChunkPositionsByRenderDistance(world, position, renderDistance);
    var toGenerate := SelectPositionsToGenerate(world, needed, position);
    var dataToGenerate := SelectPositionsToGenerate(world, needed, position);
    SelectPositionsToGenerateSpec(world, needed, position);
    SelectChunkPositionsToDestroySpec(world, needed);
    WantedGridAligned(world.Shape(), position, renderDistance);
    forall q | q in toGenerate ensures q in needed && q !in world.chunkRenderers {
      assert multiset(toGenerate)[q] > 0;
    }
    data := WorldGenerationData(toGenerate, dataToGenerate, SelectChunkPositionsToDestroy(world, needed),
                                SelectChunkDataPositionsToDestroy(world, needed));
  }

  /** The chunk datas to render, as the ToList over the chunk data dictionary (in its order) of the values whose key
      is a position to generate: each such chunk data exactly once. */
  method SelectChunkDatasToRender(world: World, chunkPositionsToGenerate: seq<Vec3>)
    returns (chunkDatasToRender: seq<ChunkData>)
    requires world.Valid()
    ensures forall j :: 0 <= j < |chunkDatasToRender| ==>
      var c := chunkDatasToRender[j];
      c.worldPosition in world.chunkDatas && world.chunkDatas[c.worldPosition] == c
      && c.worldPosition in chunkPositionsToGenerate
    ensures forall k :: k in world.chunkDatas && k in chunkPositionsToGenerate ==>
      world.chunkDatas[k] in chunkDatasToRender
    ensures forall i, j :: 0 <= i < j < |chunkDatasToRender| ==>
      chunkDatasToRender[i].worldPosition != chunkDatasToRender[j].worldPosition
  {
    chunkDatasToRender := [];
    var pending := world.chunkDatas.Keys;
    while pending != {}
      invariant pending <= world.chunkDatas.Keys
      invariant forall j :: 0 <= j < |chunkDatasToRender| ==>
        var c := chunkDatasToRender[j];
        c.worldPosition in world.chunkDatas && world.chunkDatas[c.worldPosition] == c
        && c.worldPosition in chunkPositionsToGenerate && c.worldPosition !in pending
      invariant forall k :: k in world.chunkDatas && k in chunkPositionsToGenerate ==>
        k in pending || world.chunkDatas[k] in chunkDatasToRender
      invariant forall i, j :: 0 <= i < j < |chunkDatasToRender| ==>
        chunkDatasToRender[i].worldPosition != chunkDatasToRender[j].worldPosition
      decreases |pending|
    {
      var k :| k in pending;
      if k in chunkPositionsToGenerate {
        chunkDatasToRender := chunkDatasToRender + [world.chunkDatas[k]];
      }
      pending := pending - {k};
    }
  }

  // ---------------------------------------------------------------- the stages

  /** The two removal loops: the renderers to destroy go back to the pool, then the chunk datas to destroy leave
      the map. No chunk data to destroy may keep a renderer. */
  method RemoveOldChunks(world: World, chunkPositionsToDestroy: set<Vec3>, chunkDataPositionsToDestroy: set<Vec3>)
    requires world.Valid() && Linked(world)
    requires forall k :: k in chunkDataPositionsToDestroy && k in world.chunkRenderers ==> k in chunkPositionsToDestroy
    modifies world, world.worldRenderer, world.chunkRenderers.Values
    ensures world.Valid() && Linked(world) && world.isWorldLoaded == old(world.isWorldLoaded)
    ensures world.chunkRenderers == old(world.chunkRenderers) - chunkPositionsToDestroy
    ensures world.chunkDatas == old(world.chunkDatas) - chunkDataPositionsToDestroy
    ensures world.Arrays() <= old(world.Arrays())
    ensures forall x :: x in world.worldRenderer.renderQueue ==>
      x in old(world.worldRenderer.renderQueue) || x in old(world.chunkRenderers.Values)
  {
    RemoveChunks(world, chunkPositionsToDestroy);
    label removed:
    RemoveChunkDatas(world, chunkDataPositionsToDestroy);
    assert unchanged@removed(world.worldRenderer);
  }

  /** GenerateChunkDatas, then the Dictionary.Add loop. Other terrain throws when there is anything to generate; a
      position that already has chunk data makes the cycle throw once its generation succeeds. On success exactly
      the listed positions gain fresh, unmodified chunk datas. The render map and the pool are left alone. */
  method GenerateNewChunkDatas(world: World, terrain: TerrainGeneration.TerrainGenerator, positions: seq<Vec3>)
    returns (r: Result<map<Vec3, ChunkData>>)
    requires world.Valid() && Linked(world)
    requires forall q :: q in positions ==> Aligned(world.Shape(), q)
    modifies world, world.Arrays()
    ensures world.Valid() && Linked(world)
    ensures world.chunkRenderers == old(world.chunkRenderers) && world.isWorldLoaded == old(world.isWorldLoaded)
    ensures forall b :: b in world.Arrays() ==> b in old(world.Arrays()) || fresh(b)
    ensures terrain.terrainType.OtherTerrain? && positions != [] ==> r == Err(NotImplemented)
    ensures (exists q :: q in positions && q in old(world.chunkDatas)) ==> r.Err?
    ensures forall k :: k in old(world.chunkDatas) ==>
      k in world.chunkDatas && world.chunkDatas[k] == old(world.chunkDatas[k])
    ensures forall k :: k in world.chunkDatas && k !in old(world.chunkDatas) ==> k in positions
    ensures r.Ok? ==>
      && (forall k :: k in world.chunkDatas <==> k in old(world.chunkDatas) || k in positions)
      && (forall k :: k in r.value <==> k in positions)
      && forall k :: k in r.value ==>
        var c := r.value[k];
        && world.chunkDatas[k] == c && fresh(c) && fresh(c.blocks) && !c.isModified
        && c.world == world && c.Valid() && c.blocks in world.Arrays()
  {
    var generated := GenerateChunkDatas(world, terrain, positions);
    if generated.Err? {
      return Err(generated.error);
    }
    var added := AddChunkDatas(world, generated.value);
    if added.Fail? {
      return Err(added.error);
    }
    r := generated;
  }

  /** The meshing task and the coroutine: the chunk datas to render are selected, meshed, and handed to
      ChunkGenerationCoroutine, unless the token is seen cancelled at the start of the meshing task. The chunk
      datas are left alone; renderers only appear, at positions to render. */
  method RenderChunkDatas(world: World, chunkPositionsToGenerate: seq<Vec3>, cancelled: bool)
    returns (r: Outcome, coroutine: Option<Outcome>)
    requires world.Valid() && Linked(world)
    modifies world, world.worldRenderer, Pooled(world)
    ensures world.Valid() && Linked(world)
    ensures world.chunkDatas == old(world.chunkDatas)
    ensures cancelled ==> r == Pass && coroutine == None && world.chunkRenderers == old(world.chunkRenderers)
    ensures r.Fail? ==> coroutine == None
    ensures !cancelled && r == Pass ==> coroutine.Some?
    ensures old(world.isWorldLoaded) ==> world.isWorldLoaded
    ensures coroutine != Some(Pass) ==> world.isWorldLoaded == old(world.isWorldLoaded)
    ensures forall k :: k in old(world.chunkRenderers) ==>
      k in world.chunkRenderers && world.chunkRenderers[k] == old(world.chunkRenderers[k])
    ensures forall k :: k in world.chunkRenderers ==> k in old(world.chunkRenderers) || k in chunkPositionsToGenerate
    ensures coroutine == Some(Pass) ==>
      && world.isWorldLoaded
      && forall q :: q in chunkPositionsToGenerate && q in world.chunkDatas ==> q in world.chunkRenderers
  {
    var chunkDataToRender := SelectChunkDatasToRender(world, chunkPositionsToGenerate);
    if cancelled {
      return Pass, None;
    }
    var chunkMeshDatas := CreateChunkMeshDatas(world, chunkDataToRender);
    if chunkMeshDatas.Err? {
      return Fail(chunkMeshDatas.error), None;
    }
    var loaded := ChunkGenerationCoroutine(world, chunkMeshDatas.value);
    r, coroutine := Pass, Some(loaded);
  }

  /** Everything after the removals: the generation task, the additional generation task and RenderChunkDatas,
      each first looking at the token. Chunk datas only appear, at the positions to generate data for, and
      renderers only appear, at the positions to render. */
  method GenerateAndRender(world: World, terrain: TerrainGeneration.TerrainGenerator,
                           chunkPositionsToGenerate: seq<Vec3>, chunkDataPositionsToGenerate: seq<Vec3>,
                           cancel: Cancellation)
    returns (r: Outcome, coroutine: Option<Outcome>)
    requires world.Valid() && Linked(world) && cancel != AtSelection
    requires forall q :: q in chunkDataPositionsToGenerate ==> Aligned(world.Shape(), q)
    modifies world, world.worldRenderer, world.Arrays(), Pooled(world)
    ensures world.Valid() && Linked(world)
    ensures r.Fail? || cancel != NotCancelled ==> coroutine == None
    ensures cancel == NotCancelled && r == Pass ==> coroutine.Some?
    ensures old(world.isWorldLoaded) ==> world.isWorldLoaded
    ensures coroutine != Some(Pass) ==> world.isWorldLoaded == old(world.isWorldLoaded)
    ensures forall k :: k in old(world.chunkRenderers) ==>
      k in world.chunkRenderers && world.chunkRenderers[k] == old(world.chunkRenderers[k])
    ensures forall k :: k in world.chunkRenderers ==> k in old(world.chunkRenderers) || k in chunkPositionsToGenerate
    ensures forall k :: k in old(world.chunkDatas) ==>
      k in world.chunkDatas && world.chunkDatas[k] == old(world.chunkDatas[k])
    ensures forall k :: k in world.chunkDatas ==> k in old(world.chunkDatas) || k in chunkDataPositionsToGenerate
    ensures cancel != AtGeneration && terrain.terrainType.OtherTerrain? && chunkDataPositionsToGenerate != [] ==>
      r == Fail(NotImplemented)
    ensures cancel != AtGeneration && (exists q :: q in chunkDataPositionsToGenerate && q in old(world.chunkDatas)) ==>
      r.Fail?
    ensures coroutine == Some(Pass) ==>
      && world.isWorldLoaded
      && forall q :: q in chunkPositionsToGenerate && q in chunkDataPositionsToGenerate ==> q in world.chunkRenderers
  {
    coroutine := None;
    if cancel == AtGeneration {
      return Pass, None;
    }
    var generated := GenerateNewChunkDatas(world, terrain, chunkDataPositionsToGenerate);
    if generated.Err? {
      return Fail(generated.error), None;
    }
    if cancel == AtAdditional {
      return Pass, None;
    }
    var additional := GenerateAdditionalChunkDatas(world, terrain, generated.value.Values);
    if additional.Fail? {
      return additional, None;
    }
    r, coroutine := RenderChunkDatas(world, chunkPositionsToGenerate, cancel == AtMeshing);
  }

  // ---------------------------------------------------------------- the cycle

  /** HandleWorldGeneration for an observer at `position`. A cancelled selection task throws out of the cycle and
      changes nothing; a later cancellation is caught and ends the cycle where it is seen; any other exception
      ends it too and is thrown on. The last stage starts ChunkGenerationCoroutine, whose outcome is returned beside
      the cycle's own (an exception in a coroutine does not reach the cycle). */
  method HandleWorldGeneration(world: World, terrain: TerrainGeneration.TerrainGenerator, position: Vec3,
                               renderDistance: int, cancel: Cancellation)
    returns (r: Outcome, coroutine: Option<Outcome>)
    requires world.Valid() && Linked(world)
    modifies world, world.worldRenderer, world.chunkRenderers.Values, world.Arrays(), Pooled(world)
    ensures world.Valid() && Linked(world)
    ensures cancel == AtSelection ==>
      && r == Fail(Cancelled) && coroutine == None
      && world.chunkDatas == old(world.chunkDatas) && world.chunkRenderers == old(world.chunkRenderers)
    ensures r.Fail? || cancel != NotCancelled ==> coroutine == None
    ensures cancel == NotCancelled && r == Pass ==> coroutine.Some?
    ensures old(world.isWorldLoaded) ==> world.isWorldLoaded
    ensures coroutine != Some(Pass) ==> world.isWorldLoaded == old(world.isWorldLoaded)
    ensures var needed := WantedGrid(world.Shape(), position, renderDistance);
      cancel != AtSelection ==>
        && (forall k :: k in world.chunkRenderers ==> k in needed)
        && (forall k :: k in old(world.chunkRenderers) && k in needed ==>
              k in world.chunkRenderers && world.chunkRenderers[k] == old(world.chunkRenderers[k]))
        && (forall k :: k in old(world.chunkDatas) ==>
              (k in world.chunkDatas <==> k in needed || old(world.chunkDatas[k].isModified)))
    ensures var needed := WantedGrid(world.Shape(), position, renderDistance);
      (&& cancel != AtSelection && cancel != AtGeneration && terrain.terrainType.OtherTerrain?
       && exists q :: q in needed && q !in old(world.chunkRenderers)) ==> r == Fail(NotImplemented)
    ensures var needed := WantedGrid(world.Shape(), position, renderDistance);
      (&& cancel != AtSelection && cancel != AtGeneration
       && exists q :: q in needed && q !in old(world.chunkRenderers) && q in old(world.chunkDatas)) ==> r.Fail?
    ensures coroutine == Some(Pass) ==>
      && world.isWorldLoaded
      && forall q :: q in WantedGrid(world.Shape(), position, renderDistance) ==> q in world.chunkRenderers
  {
    if cancel == AtSelection {
      return Fail(Cancelled), None;
    }
    var data := GetChunkPositionByRenderDistance(world, position, renderDistance);
    RemoveOldChunks(world, data.chunkPositionsToDestroy, data.chunkDataPositionsToDestroy);
    r, coroutine := GenerateAndRender(world, terrain, data.chunkPositionsToGenerate,
                                      data.chunkDataPositionsToGenerate, cancel);
  }
}
