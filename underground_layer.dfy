/** UndergroundLayerHandler: bedrock at world y -200 and the underground block below the ground. */
module UndergroundLayer {
  import opened Wrappers
  import opened Vectors
  import opened WorldState
  import opened TerrainCells

  /** The world y of the bedrock layer. */
  const BedrockY := -200

  /** At y = -200 bedrock, whatever the ground; otherwise below the ground the underground id (default "stone"); both
      at the local y of the world y. */
  function Decide(undergroundBlockId: string, chunkOrigin: Vec3, blockPosition: Vec3, groundPosition: int): Decision {
    var localPosition := Vec3(blockPosition.x, blockPosition.y - chunkOrigin.y, blockPosition.z);
    if blockPosition.y == BedrockY then Decision(true, [Put(localPosition, "bedrock")])
    else if blockPosition.y < groundPosition then Decision(true, [Put(localPosition, undergroundBlockId)])
    else Declined
  }

  /** Bedrock is checked before the ground: at y = -200 the column cell becomes bedrock even above the ground;
      elsewhere below the ground it becomes the underground block; any other position is declined unchanged. */
  lemma Effect(s: Cells, r: Reach, c: ChunkData, undergroundBlockId: string, blockPosition: Vec3, groundPosition: int)
    ensures var run := Run(s, r, c, Ok(Decide(undergroundBlockId, c.worldPosition, blockPosition, groundPosition)));
      var local := Vec3(blockPosition.x, blockPosition.y - c.worldPosition.y, blockPosition.z);
      && (blockPosition.y == -200 ==> WritesOneCell(s, r, c, run, Write(local, "bedrock", true)))
      && (blockPosition.y != -200 && blockPosition.y < groundPosition ==>
            WritesOneCell(s, r, c, run, Write(local, undergroundBlockId, true)))
      && (blockPosition.y != -200 && blockPosition.y >= groundPosition ==> run == Ok((false, s)))
  {
    var local := Vec3(blockPosition.x, blockPosition.y - c.worldPosition.y, blockPosition.z);
    if blockPosition.y == -200 {
      OneWriteRun(s, r, c, Put(local, "bedrock"));
    } else if blockPosition.y < groundPosition {
      OneWriteRun(s, r, c, Put(local, undergroundBlockId));
    }
  }

  /** TryHandling. */
  method TryHandling(c: ChunkData, undergroundBlockId: string, blockPosition: Vec3, groundPosition: int)
    returns (r: Result<bool>)
    requires c.Valid() && c.world.Valid()
    modifies c.blocks, c.world.Arrays()
    ensures Reports(r, CellsOf(c),
      Run(old(CellsOf(c)), ReachOf(c), c, Ok(Decide(undergroundBlockId, c.worldPosition, blockPosition, groundPosition))))
  {
    var localPosition := Vec3(blockPosition.x, blockPosition.y - c.worldPosition.y, blockPosition.z);
    ghost var d := Decide(undergroundBlockId, c.worldPosition, blockPosition, groundPosition);
    var w: Write;
    if blockPosition.y == BedrockY {
      w := Put(localPosition, "bedrock");
    } else if blockPosition.y < groundPosition {
      w := Put(localPosition, undergroundBlockId);
    } else {
      return Ok(false);
    }
    assert d == Decision(true, [w]);
    r := WriteAndAccept(c, w);
  }
}
