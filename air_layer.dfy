/** AirLayerHandler: air above the ground. */
module AirLayer {
  import opened Wrappers
  import opened Vectors
  import opened WorldState
  import opened ChunkAccess
  import opened TerrainCells

  /** Above the ground, "air" is written at the block position as given (its world y used as a local y). */
  function Decide(blockPosition: Vec3, groundPosition: int): Decision {
    if blockPosition.y > groundPosition then Decision(true, [Put(blockPosition, "air")]) else Declined
  }

  /** Below or at the ground nothing changes and the handler declines; above it, exactly the cell the block
      position reaches through the chunk becomes "air" and the handler returns true. */
  lemma Effect(s: Cells, r: Reach, c: ChunkData, blockPosition: Vec3, groundPosition: int)
    ensures var run := Run(s, r, c, Ok(Decide(blockPosition, groundPosition)));
      && (blockPosition.y <= groundPosition ==> run == Ok((false, s)))
      && (blockPosition.y > groundPosition ==> WritesOneCell(s, r, c, run, Write(blockPosition, "air", true)))
  {
    OneWriteRun(s, r, c, Put(blockPosition, "air"));
  }

  /** TryHandling. */
  method TryHandling(c: ChunkData, blockPosition: Vec3, groundPosition: int) returns (r: Result<bool>)
    requires c.Valid() && c.world.Valid()
    modifies c.blocks, c.world.Arrays()
    ensures Reports(r, CellsOf(c), Run(old(CellsOf(c)), ReachOf(c), c, Ok(Decide(blockPosition, groundPosition))))
  {
    if blockPosition.y > groundPosition {
      r := WriteAndAccept(c, Put(blockPosition, "air"));
      return;
    }
    return Ok(false);
  }
}
