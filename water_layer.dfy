/** WaterLayerHandler: water up to the water threshold over low ground, with sand at the shore. */
module WaterLayer {
  import opened Wrappers
  import opened Vectors
  import opened WorldState
  import opened TerrainCells

  /** Above the ground and up to the threshold: sand just above the ground, water higher up. Otherwise, up to the
      threshold and no more than 4 blocks below the ground: sand. Writes use the block position as given. */
  function Decide(waterThreshold: int, blockPosition: Vec3, groundPosition: int): Decision {
    if blockPosition.y > groundPosition && blockPosition.y <= waterThreshold then
      if blockPosition.y == groundPosition + 1 then Decision(true, [Put(blockPosition, "sand")])
      else Decision(true, [Put(blockPosition, "water")])
    else if blockPosition.y <= waterThreshold && blockPosition.y >= groundPosition - 4 then
      Decision(true, [Put(blockPosition, "sand")])
    else Declined
  }

  /** The one cell the block position reaches becomes sand at the shore (from 4 below the ground to 1 above it, up
      to the threshold) and water from 2 above the ground to the threshold; every other position is declined with
      nothing changed. */
  lemma Effect(s: Cells, r: Reach, c: ChunkData, waterThreshold: int, blockPosition: Vec3, groundPosition: int)
    ensures var run := Run(s, r, c, Ok(Decide(waterThreshold, blockPosition, groundPosition)));
      var y := blockPosition.y;
      && (groundPosition - 4 <= y <= groundPosition + 1 && y <= waterThreshold ==>
            WritesOneCell(s, r, c, run, Write(blockPosition, "sand", true)))
      && (groundPosition + 1 < y <= waterThreshold ==> WritesOneCell(s, r, c, run, Write(blockPosition, "water", true)))
      && (y > waterThreshold || y < groundPosition - 4 ==> run == Ok((false, s)))
  {
    var y := blockPosition.y;
    if groundPosition - 4 <= y <= groundPosition + 1 && y <= waterThreshold {
      OneWriteRun(s, r, c, Put(blockPosition, "sand"));
    } else if groundPosition + 1 < y <= waterThreshold {
      OneWriteRun(s, r, c, Put(blockPosition, "water"));
    }
  }

  /** TryHandling; the threshold is TerrainGenerator.WaterThreshold. */
  method TryHandling(c: ChunkData, waterThreshold: int, blockPosition: Vec3, groundPosition: int) returns (r: Result<bool>)
    requires c.Valid() && c.world.Valid()
    modifies c.blocks, c.world.Arrays()
    ensures Reports(r, CellsOf(c), Run(old(CellsOf(c)), ReachOf(c), c, Ok(Decide(waterThreshold, blockPosition, groundPosition))))
  {
    ghost var d := Decide(waterThreshold, blockPosition, groundPosition);
    var w: Write;
    if blockPosition.y > groundPosition && blockPosition.y <= waterThreshold {
      if blockPosition.y == groundPosition + 1 {
        w := Put(blockPosition, "sand");
      } else {
        w := Put(blockPosition, "water");
      }
    } else if blockPosition.y <= waterThreshold && blockPosition.y >= groundPosition - 4 {
      w := Put(blockPosition, "sand");
    } else {
      return Ok(false);
    }
    assert d == Decision(true, [w]);
    r := WriteAndAccept(c, w);
  }
}
