/** SurfaceLayerHandler: the surface block at the ground and the subsurface blocks just below it. */
module SurfaceLayer {
  import opened Wrappers
  import opened Vectors
  import opened WorldState
  import opened TerrainCells

  /** The inspector settings, with their defaults "grass", "dirt" and 4. */
  datatype Settings = Settings(surfaceBlockId: string, surfaceUndergroundBlockId: string, surfaceUndergroundDepth: int)

  const Defaults := Settings("grass", "dirt", 4)

  /** The local position of a world y in the handler's column. */
  function ColumnCell(chunkOrigin: Vec3, blockPosition: Vec3): Vec3 {
    Vec3(blockPosition.x, blockPosition.y - chunkOrigin.y, blockPosition.z)
  }

  /** At the ground the surface id is written; in the `depth` blocks below it the subsurface id; both at the local
      y of the world y. */
  function Decide(settings: Settings, chunkOrigin: Vec3, blockPosition: Vec3, groundPosition: int): Decision {
    if blockPosition.y == groundPosition then
      Decision(true, [Put(ColumnCell(chunkOrigin, blockPosition), settings.surfaceBlockId)])
    else if blockPosition.y < groundPosition && blockPosition.y >= groundPosition - settings.surfaceUndergroundDepth then
      Decision(true, [Put(ColumnCell(chunkOrigin, blockPosition), settings.surfaceUndergroundBlockId)])
    else Declined
  }

  /** The ground cell of the column becomes the surface block, the `depth` cells below it the subsurface block, and
      every other position is declined with nothing changed; either write reaches exactly one cell. */
  lemma Effect(s: Cells, r: Reach, c: ChunkData, settings: Settings, blockPosition: Vec3, groundPosition: int)
    ensures var run := Run(s, r, c, Ok(Decide(settings, c.worldPosition, blockPosition, groundPosition)));
      var local := Vec3(blockPosition.x, blockPosition.y - c.worldPosition.y, blockPosition.z);
      && (blockPosition.y == groundPosition ==> WritesOneCell(s, r, c, run, Write(local, settings.surfaceBlockId, true)))
      && (groundPosition - settings.surfaceUndergroundDepth <= blockPosition.y < groundPosition ==>
            WritesOneCell(s, r, c, run, Write(local, settings.surfaceUndergroundBlockId, true)))
      && (blockPosition.y != groundPosition &&
          !(groundPosition - settings.surfaceUndergroundDepth <= blockPosition.y < groundPosition) ==>
            run == Ok((false, s)))
  {
    var local := ColumnCell(c.worldPosition, blockPosition);
    var d := Decide(settings, c.worldPosition, blockPosition, groundPosition);
    if blockPosition.y == groundPosition {
      assert d == Decision(true, [Put(local, settings.surfaceBlockId)]);
      OneWriteRun(s, r, c, Put(local, settings.surfaceBlockId));
    } else if groundPosition - settings.surfaceUndergroundDepth <= blockPosition.y < groundPosition {
      assert d == Decision(true, [Put(local, settings.surfaceUndergroundBlockId)]);
      OneWriteRun(s, r, c, Put(local, settings.surfaceUndergroundBlockId));
    } else {
      assert d == Declined;
    }
  }

  /** With the defaults: grass at the ground, dirt in the four blocks below. */
  lemma DefaultLayers(chunkOrigin: Vec3, blockPosition: Vec3, groundPosition: int)
    ensures var d := Decide(Defaults, chunkOrigin, blockPosition, groundPosition);
      && (d.handled <==> groundPosition - 4 <= blockPosition.y <= groundPosition)
      && (d.handled ==> |d.writes| == 1 && d.writes[0].local.y == blockPosition.y - chunkOrigin.y)
      && (d.handled ==> d.writes[0].blockId == if blockPosition.y == groundPosition then "grass" else "dirt")
  {
  }

  /** TryHandling. */
  method TryHandling(c: ChunkData, settings: Settings, blockPosition: Vec3, groundPosition: int)
    returns (r: Result<bool>)
    requires c.Valid() && c.world.Valid()
    modifies c.blocks, c.world.Arrays()
    ensures Reports(r, CellsOf(c), Run(old(CellsOf(c)), ReachOf(c), c, Ok(Decide(settings, c.worldPosition, blockPosition, groundPosition))))
  {
    var localPosition := Vec3(blockPosition.x, blockPosition.y - c.worldPosition.y, blockPosition.z);
    ghost var d := Decide(settings, c.worldPosition, blockPosition, groundPosition);
    var w: Write;
    if blockPosition.y == groundPosition {
      w := Put(localPosition, settings.surfaceBlockId);
    } else if blockPosition.y < groundPosition && blockPosition.y >= groundPosition - settings.surfaceUndergroundDepth {
      w := Put(localPosition, settings.surfaceUndergroundBlockId);
    } else {
      return Ok(false);
    }
    assert d == Decision(true, [w]);
    r := WriteAndAccept(c, w);
  }
}
