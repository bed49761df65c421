/** Block and chunk access of ChunkHelper.cs and WorldHelper.cs: finding the chunk that holds a world position,
    reading and writing a block through a chunk or through the world (a position outside a chunk is forwarded to
    the world, which forwards it to the chunk that holds it), removing chunks, and the chunk edge and its
    neighbours. */
module ChunkAccess {
  import opened Wrappers
  import opened Vectors
  import opened ChunkMath
  import opened BlockRegistry
  import opened WorldState

  // ---------------------------------------------------------------- finding chunks

  /** GetChunkData: the chunk data stored under the chunk origin of `p`, or null. */
  function GetChunkData(world: World, p: Vec3): Option<ChunkData>
    requires world.Shape().Positive()
    reads world
  {
    var k := ChunkOrigin(world.Shape(), p);
    if k in world.chunkDatas then Some(world.chunkDatas[k]) else None
  }

  /** GetChunk: the renderer stored under the chunk origin of `p`, or null. */
  function GetChunk(world: World, p: Vec3): Option<ChunkRenderer>
    requires world.Shape().Positive()
    reads world
  {
    var k := ChunkOrigin(world.Shape(), p);
    if k in world.chunkRenderers then Some(world.chunkRenderers[k]) else None
  }

  /** In a valid world, GetChunkData finds a chunk whose box holds `p`, and it finds the chunk stored under any key
      whose box holds `p`. */
  lemma GetChunkDataSpec(world: World, p: Vec3)
    requires world.Valid()
    ensures GetChunkData(world, p).Some? ==>
      var d := GetChunkData(world, p).value;
      d.worldPosition in world.chunkDatas && world.chunkDatas[d.worldPosition] == d
      && InBounds(d.Shape(), LocalFromWorld(d.worldPosition, p))
    ensures forall k :: k in world.chunkDatas && InBounds(world.Shape(), LocalFromWorld(k, p)) ==>
      GetChunkData(world, p) == Some(world.chunkDatas[k])
  {
    ChunkOriginSpec(world.Shape(), p);
    forall k | k in world.chunkDatas && InBounds(world.Shape(), LocalFromWorld(k, p))
      ensures GetChunkData(world, p) == Some(world.chunkDatas[k])
    {
      ChunkOriginOfBox(world.Shape(), k, p);
    }
  }

  /** GetChunk returns the renderer stored under an aligned key for every position in that key's box, and looks
      under another key for every position outside it. */
  lemma GetChunkSpec(world: World, k: Vec3, p: Vec3)
    requires world.Shape().Positive() && Aligned(world.Shape(), k) && k in world.chunkRenderers
    ensures InBounds(world.Shape(), LocalFromWorld(k, p)) ==> GetChunk(world, p) == Some(world.chunkRenderers[k])
    ensures !InBounds(world.Shape(), LocalFromWorld(k, p)) ==> ChunkOrigin(world.Shape(), p) != k
  {
    ChunkOriginOfBox(world.Shape(), k, p);
  }

  // ---------------------------------------------------------------- reading blocks

  /** The block id a short id stands for: GetBlockDataById(ushort).BlockId, which is the block data's own id. */
  function BlockIdOf(reg: Registry, shortBlockId: ushort): (r: Result<Option<string>>)
    ensures r.Ok? <==> GetBlockDataByShortId(reg, shortBlockId).Ok?
    ensures r.Ok? ==> r.value == Some(GetBlockDataByShortId(reg, shortBlockId).value.blockId)
  {
    match GetBlockDataByShortId(reg, shortBlockId)
    case Ok(b) => Ok(Some(b.blockId))
    case Err(e) => Err(e)
  }

  /** ChunkHelper.GetBlockId: a position inside the chunk reads its cell; any other is read through the world.
      Ok(None) is a null id; Err is a thrown exception. */
  function GetBlockIdInChunk(c: ChunkData, local: Vec3): Result<Option<string>>
    requires c.Valid() && c.world.Valid()
    reads c.blocks, c.world, c.world.Arrays(), c.world.blockManager
    decreases if InBounds(c.Shape(), local) then 0 else 2
  {
    if !InBounds(c.Shape(), local) then GetBlockIdInWorld(c.world, local.Plus(c.worldPosition))
    else
      IndexBelowVolume(c.Shape(), local);
      BlockIdOf(c.world.blockManager.View(), c.blocks[IndexOf(c.Shape(), local)])
  }

  /** WorldHelper.GetBlockId: null when no chunk data holds the position, else the chunk's block there. */
  function GetBlockIdInWorld(world: World, p: Vec3): Result<Option<string>>
    requires world.Valid()
    reads world, world.Arrays(), world.blockManager
    decreases 1
  {
    match GetChunkData(world, p)
    case None => Ok(None)
    case Some(d) =>
      GetChunkDataSpec(world, p);
      GetBlockIdInChunk(d, LocalFromWorld(d.worldPosition, p))
  }

  /** The block id a world reports for a position is that of the cell which holds it, or null when no chunk data is
      loaded there. */
  lemma GetBlockIdInWorldSpec(world: World, p: Vec3)
    requires world.Valid()
    ensures GetChunkData(world, p).None? ==> GetBlockIdInWorld(world, p) == Ok(None)
    ensures GetChunkData(world, p).Some? ==>
      var d := GetChunkData(world, p).value;
      var i := IndexOf(d.Shape(), LocalFromWorld(d.worldPosition, p));
      0 <= i < d.blocks.Length && GetBlockIdInWorld(world, p) == BlockIdOf(world.blockManager.View(), d.blocks[i])
  {
    GetChunkDataSpec(world, p);
    if GetChunkData(world, p).Some? {
      var d := GetChunkData(world, p).value;
      IndexBelowVolume(d.Shape(), LocalFromWorld(d.worldPosition, p));
    }
  }

  /** Reading through a chunk stored in the world under its origin agrees with reading through the world. */
  lemma ChunkAndWorldAgree(c: ChunkData, local: Vec3)
    requires c.Valid() && c.world.Valid()
    requires c.worldPosition in c.world.chunkDatas && c.world.chunkDatas[c.worldPosition] == c
    ensures GetBlockIdInChunk(c, local) == GetBlockIdInWorld(c.world, local.Plus(c.worldPosition))
  {
    if InBounds(c.Shape(), local) {
      var p := local.Plus(c.worldPosition);
      LocalFromWorldOfTranslation(c.worldPosition, local);
      GetChunkDataSpec(c.world, p);
    }
  }

  /** A cell holding 0 reads as the first block in the id table, not as an empty cell; with no ids it throws. */
  lemma ZeroCellReadsFirstBlock(c: ChunkData, local: Vec3)
    requires c.Valid() && c.world.Valid() && InBounds(c.Shape(), local)
    requires 0 <= IndexOf(c.Shape(), local) < c.blocks.Length && c.blocks[IndexOf(c.Shape(), local)] == 0
    requires WellFormed(c.world.blockManager.View())
    ensures var reg := c.world.blockManager.View();
      && (|reg.blockIds| > 0 ==> GetBlockIdInChunk(c, local) == Ok(Some(reg.blockDatas[reg.blockIds[0]].blockId)))
      && (|reg.blockIds| == 0 ==> GetBlockIdInChunk(c, local) == Err(UnknownBlock))
  {
  }

  // ---------------------------------------------------------------- writing blocks

  /** The value a SetBlock leaves in a cell: the new id when replacing or when the cell holds 0, the old one else. */
  function Written(current: ushort, shortBlockId: ushort, replace: bool): ushort {
    if replace || current == 0 then shortBlockId else current
  }

  /** The cell a write at `p` through the world reaches: the cell of the chunk data that holds `p`, if any. */
  ghost function WorldTarget(world: World, p: Vec3): Option<(array<ushort>, int)>
    requires world.Valid()
    reads world
  {
    match GetChunkData(world, p)
    case None => None
    case Some(d) => Some((d.blocks, IndexOf(d.Shape(), LocalFromWorld(d.worldPosition, p))))
  }

  /** The cell a write at `local` through chunk `c` reaches: its own cell inside the chunk, the world's otherwise. */
  ghost function Target(c: ChunkData, local: Vec3): Option<(array<ushort>, int)>
    requires c.Valid() && c.world.Valid()
    reads c.world
  {
    if InBounds(c.Shape(), local) then Some((c.blocks, IndexOf(c.Shape(), local)))
    else WorldTarget(c.world, local.Plus(c.worldPosition))
  }

  /** Every target is a cell of an array of the world, or of the chunk. */
  lemma TargetInRange(c: ChunkData, local: Vec3)
    requires c.Valid() && c.world.Valid()
    ensures Target(c, local).Some? ==>
      var (a, i) := Target(c, local).value;
      0 <= i < a.Length && (a == c.blocks || a in c.world.Arrays())
  {
    if InBounds(c.Shape(), local) {
      IndexBelowVolume(c.Shape(), local);
    } else {
      WorldTargetInRange(c.world, local.Plus(c.worldPosition));
    }
  }

  lemma WorldTargetInRange(world: World, p: Vec3)
    requires world.Valid()
    ensures WorldTarget(world, p).Some? ==>
      var (a, i) := WorldTarget(world, p).value;
      0 <= i < a.Length && a in world.Arrays()
  {
    GetChunkDataSpec(world, p);
    if GetChunkData(world, p).Some? {
      var d := GetChunkData(world, p).value;
      IndexBelowVolume(d.Shape(), LocalFromWorld(d.worldPosition, p));
    }
  }

  /** ChunkHelper.SetBlock: a null id throws; a position inside the chunk converts the id (which throws for one the
      block manager does not know) and writes its cell, unless replace is off and the cell is not 0; any other
      position is written through the world. Exactly the target cell can change. */
  method SetBlockInChunk(c: ChunkData, local: Vec3, blockId: Option<string>, replace: bool) returns (r: Outcome)
    requires c.Valid() && c.world.Valid()
    modifies c.blocks, c.world.Arrays()
    ensures forall b: array<ushort> :: (b in c.world.Arrays() + {c.blocks} && (Target(c, local).None? || b != Target(c, local).value.0)
      ==> b[..] == old(b[..]))
    ensures blockId.None? ==> r == Fail(ArgumentNull) && c.blocks[..] == old(c.blocks[..])
    ensures blockId.Some? && Target(c, local).None? ==> r == Pass
    ensures blockId.Some? && Target(c, local).Some? ==>
      var (a, i) := Target(c, local).value;
      match ConvertToShortId(c.world.blockManager.View(), blockId)
      case Err(e) => r == Fail(e) && a[..] == old(a[..])
      case Ok(s) =>
        && r == Pass && 0 <= i < a.Length && a[i] == Written(old(a[i]), s, replace)
        && forall j :: 0 <= j < a.Length && j != i ==> a[j] == old(a[j])
    decreases if InBounds(c.Shape(), local) then 0 else 2
  {
    TargetInRange(c, local);
    if blockId.None? {
      return Fail(ArgumentNull);
    }
    if !InBounds(c.Shape(), local) {
      var written := SetBlockInWorld(c.world, local.Plus(c.worldPosition), blockId, replace);
      r := if written.Err? then Fail(written.error) else Pass;
      return;
    }
    var converted := ConvertToShortId(c.world.blockManager.View(), blockId);
    if converted.Err? {
      return Fail(converted.error);
    }
    var i := IndexOf(c.Shape(), local);
    if replace || c.blocks[i] == 0 {
      c.blocks[i] := converted.value;
    }
    r := Pass;
  }

  /** WorldHelper.SetBlock: a null id throws; false when no chunk data holds the position; else the write goes to
      that chunk and the result is true. After a true, replacing write, the world reads back the data's own id of
      the block written. */
  method SetBlockInWorld(world: World, p: Vec3, blockId: Option<string>, replace: bool) returns (r: Result<bool>)
    requires world.Valid()
    modifies world.Arrays()
    ensures forall b: array<ushort> :: (b in world.Arrays() && (WorldTarget(world, p).None? || b != WorldTarget(world, p).value.0)
      ==> b[..] == old(b[..]))
    ensures blockId.None? ==> r == Err(ArgumentNull) && forall b: array<ushort> :: b in world.Arrays() ==> b[..] == old(b[..])
    ensures blockId.Some? && WorldTarget(world, p).None? ==> r == Ok(false)
    ensures blockId.Some? && WorldTarget(world, p).Some? ==>
      var (a, i) := WorldTarget(world, p).value;
      match ConvertToShortId(world.blockManager.View(), blockId)
      case Err(e) => r == Err(e) && a[..] == old(a[..])
      case Ok(s) =>
        && r == Ok(true) && 0 <= i < a.Length && a[i] == Written(old(a[i]), s, replace)
        && forall j :: 0 <= j < a.Length && j != i ==> a[j] == old(a[j])
    ensures r == Ok(true) && replace ==>
      GetBlockIdInWorld(world, p) == Ok(Some(world.blockManager.blockDatas[blockId.value].blockId))
    decreases 1
  {
    WorldTargetInRange(world, p);
    GetChunkDataSpec(world, p);
    if blockId.None? {
      return Err(ArgumentNull);
    }
    var chunkData := GetChunkData(world, p);
    if chunkData.None? {
      return Ok(false);
    }
    var d := chunkData.value;
    var local := LocalFromWorld(d.worldPosition, p);
    var written := SetBlockInChunk(d, local, blockId, replace);
    if written.Fail? {
      return Err(written.error);
    }
    r := Ok(true);
    GetBlockIdInWorldSpec(world, p);
  }

  // ---------------------------------------------------------------- removing chunks

  /** RemoveChunk: a renderer under the key goes back to the pool and leaves the map; with none nothing happens. */
  method RemoveChunk(world: World, chunkPosition: Vec3)
    modifies world, world.worldRenderer
    modifies if chunkPosition in world.chunkRenderers then {world.chunkRenderers[chunkPosition]} else {}
    ensures chunkPosition !in old(world.chunkRenderers) ==>
      world.chunkRenderers == old(world.chunkRenderers)
      && world.worldRenderer.renderQueue == old(world.worldRenderer.renderQueue)
    ensures chunkPosition in old(world.chunkRenderers) ==>
      var r := old(world.chunkRenderers[chunkPosition]);
      && world.chunkRenderers == old(world.chunkRenderers) - {chunkPosition}
      && world.worldRenderer.renderQueue == old(world.worldRenderer.renderQueue) + [r]
      && !r.active && r.chunkData == old(r.chunkData) && r.destroyed == old(r.destroyed)
    ensures world.chunkDatas == old(world.chunkDatas) && world.isWorldLoaded == old(world.isWorldLoaded)
    ensures world.arrays == old(world.arrays)
  {
    if chunkPosition !in world.chunkRenderers {
      return;
    }
    var chunkRenderer := world.chunkRenderers[chunkPosition];
    world.worldRenderer.RemoveChunkRenderer(chunkRenderer);
    world.chunkRenderers := world.chunkRenderers - {chunkPosition};
  }

  /** RemoveChunkData: drop the key from the chunk data map; the world stays valid. */
  method RemoveChunkData(world: World, chunkPosition: Vec3)
    requires world.Valid()
    modifies world
    ensures world.chunkDatas == old(world.chunkDatas) - {chunkPosition}
    ensures world.chunkRenderers == old(world.chunkRenderers) && world.isWorldLoaded == old(world.isWorldLoaded)
    ensures world.Valid() && world.Arrays() <= old(world.Arrays())
  {
    world.chunkDatas := world.chunkDatas - {chunkPosition};
    world.arrays := set k | k in world.chunkDatas :: world.chunkDatas[k].blocks;
  }

  // ---------------------------------------------------------------- edges and neighbours

  /** IsOnEdgeOfTheChunk. */
  predicate IsOnEdgeOfTheChunk(c: ChunkData, p: Vec3) {
    OnEdge(c.Shape(), LocalFromWorld(c.worldPosition, p))
  }

  /** The steps GetNeighbourChunks takes from a block, in its order: -x, +x, -y, +y, -z, +z, each when the block
      lies on that face of the chunk. */
  function NeighbourSteps(d: Dims, local: Vec3): seq<Vec3> {
    (if local.x == 0 then [Vec3(-1, 0, 0)] else [])
    + (if local.x == d.size - 1 then [Vec3(1, 0, 0)] else [])
    + (if local.y == 0 then [Vec3(0, -1, 0)] else [])
    + (if local.y == d.height - 1 then [Vec3(0, 1, 0)] else [])
    + (if local.z == 0 then [Vec3(0, 0, -1)] else [])
    + (if local.z == d.size - 1 then [Vec3(0, 0, 1)] else [])
  }

  /** GetNeighbourChunks: the chunk data (or null) across each face the block touches. */
  function GetNeighbourChunks(c: ChunkData, p: Vec3): (r: seq<Option<ChunkData>>)
    requires c.world.Shape().Positive()
    reads c.world
    ensures var steps := NeighbourSteps(c.Shape(), LocalFromWorld(c.worldPosition, p));
      |r| == |steps| && forall k :: 0 <= k < |r| ==> r[k] == GetChunkData(c.world, p.Plus(steps[k]))
  {
    var steps := NeighbourSteps(c.Shape(), LocalFromWorld(c.worldPosition, p));
    seq(|steps|, k requires 0 <= k < |steps| reads c.world => GetChunkData(c.world, p.Plus(steps[k])))
  }

  /** Some neighbour lookup of the block finds no chunk data (and a caller dereferencing it throws). */
  predicate MissingNeighbour(c: ChunkData, p: Vec3)
    requires c.world.Shape().Positive()
    reads c.world
  {
    exists k :: 0 <= k < |GetNeighbourChunks(c, p)| && GetNeighbourChunks(c, p)[k].None?
  }

  /** For a block inside a chunk, the steps are exactly the unit steps that leave the chunk, there is at least one
      exactly when the block is on the edge, and each leads into another chunk. */
  lemma NeighbourStepsSpec(d: Dims, q: Vec3, local: Vec3)
    requires d.Positive() && Aligned(d, q) && InBounds(d, local)
    ensures forall dir: Direction :: ToVector3Int(dir) in NeighbourSteps(d, local) <==>
      !InBounds(d, local.Plus(ToVector3Int(dir)))
    ensures forall k :: 0 <= k < |NeighbourSteps(d, local)| ==> IsUnitAxis(NeighbourSteps(d, local)[k])
    ensures |NeighbourSteps(d, local)| > 0 <==> OnEdge(d, local)
    ensures forall k :: 0 <= k < |NeighbourSteps(d, local)| ==>
      ChunkOrigin(d, local.Plus(NeighbourSteps(d, local)[k]).Plus(q)) != q
  {
    var steps := NeighbourSteps(d, local);
    forall dir: Direction
      ensures ToVector3Int(dir) in steps <==> !InBounds(d, local.Plus(ToVector3Int(dir)))
    {
      StepLeavesChunk(d, local, dir);
    }
    forall k | 0 <= k < |steps|
      ensures IsUnitAxis(steps[k]) && !InBounds(d, local.Plus(steps[k]))
    {
      StepIsUnitAndLeaves(d, local, k);
    }
    forall k | 0 <= k < |steps| ensures ChunkOrigin(d, local.Plus(steps[k]).Plus(q)) != q {
      OutsideHasOtherOrigin(d, q, local.Plus(steps[k]));
    }
  }

  /** The step of one direction is listed exactly when it leaves the chunk. */
  lemma StepLeavesChunk(d: Dims, local: Vec3, dir: Direction)
    requires d.Positive() && InBounds(d, local)
    ensures ToVector3Int(dir) in NeighbourSteps(d, local) <==> !InBounds(d, local.Plus(ToVector3Int(dir)))
  {
    StepMembers(d, local, ToVector3Int(dir));
    match dir
    case Right => {}
    case Left => {}
    case Down => {}
    case Up => {}
    case Forward => {}
    case Back => {}
  }

  /** A vector is listed exactly when it is the step across one of the faces the block lies on. */
  lemma StepMembers(d: Dims, local: Vec3, v: Vec3)
    ensures v in NeighbourSteps(d, local) <==>
      || (local.x == 0 && v == Vec3(-1, 0, 0)) || (local.x == d.size - 1 && v == Vec3(1, 0, 0))
      || (local.y == 0 && v == Vec3(0, -1, 0)) || (local.y == d.height - 1 && v == Vec3(0, 1, 0))
      || (local.z == 0 && v == Vec3(0, 0, -1)) || (local.z == d.size - 1 && v == Vec3(0, 0, 1))
  {
  }

  /** Every listed step is a unit step out of the chunk. */
  lemma StepIsUnitAndLeaves(d: Dims, local: Vec3, k: int)
    requires d.Positive() && InBounds(d, local) && 0 <= k < |NeighbourSteps(d, local)|
    ensures IsUnitAxis(NeighbourSteps(d, local)[k]) && !InBounds(d, local.Plus(NeighbourSteps(d, local)[k]))
  {
    var steps := NeighbourSteps(d, local);
    assert steps[k] in steps;
  }
}
