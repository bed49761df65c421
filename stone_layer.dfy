/** StoneLayerHandler: a stone column wherever the stone noise of the column exceeds the threshold. */
module StoneLayer {
  import opened Wrappers
  import opened Vectors
  import opened WorldState
  import opened TreeGeneration
  import opened TerrainCells

  /** The threshold (default 0.5) and the handler's domain-warped stone noise of a world column. */
  datatype Settings = Settings(stoneThreshold: real, stoneNoise: ColumnNoise)

  /** The last world y the column reaches: the ground, or for a chunk below 0 the chunk's top plus one. */
  function EndPosition(chunkOrigin: Vec3, chunkHeight: int, groundPosition: int): int {
    if chunkOrigin.y < 0 then chunkOrigin.y + chunkHeight else groundPosition
  }

  /** The stone writes for world y = from, from + 1, ..., from + count - 1, each at local y equal to the world y. */
  function StoneColumn(x: int, z: int, from: int, count: nat): (ws: seq<Write>)
    ensures |ws| == count
    ensures forall k :: 0 <= k < count ==> ws[k] == Put(Vec3(x, from + k, z), "stone")
  {
    seq(count, k => Put(Vec3(x, from + k, z), "stone"))
  }

  /** How many y values the loop visits from `from` to `endPosition`, both included. */
  function ColumnCount(from: int, endPosition: int): nat {
    if endPosition >= from then endPosition - from + 1 else 0
  }

  /** Declined when the chunk starts above the ground or the noise is not above the threshold; otherwise stone for
      every y from the chunk's origin y to the end position. */
  function Decide(settings: Settings, chunkOrigin: Vec3, chunkHeight: int, blockPosition: Vec3, groundPosition: int)
    : Decision
  {
    if chunkOrigin.y > groundPosition then Declined
    else if settings.stoneNoise(chunkOrigin.x + blockPosition.x, chunkOrigin.z + blockPosition.z) > settings.stoneThreshold then
      var endPosition := EndPosition(chunkOrigin, chunkHeight, groundPosition);
      Decision(true, StoneColumn(blockPosition.x, blockPosition.z, chunkOrigin.y, ColumnCount(chunkOrigin.y, endPosition)))
    else Declined
  }

  /** The decision depends on the column, never on the y it is called with. */
  lemma IgnoresY(settings: Settings, chunkOrigin: Vec3, chunkHeight: int, blockPosition: Vec3, groundPosition: int,
                 y: int)
    ensures Decide(settings, chunkOrigin, chunkHeight, blockPosition, groundPosition) ==
      Decide(settings, chunkOrigin, chunkHeight, Vec3(blockPosition.x, y, blockPosition.z), groundPosition)
  {
  }

  /** A handled column is stone at every y from the origin y to the end, in order: up to the ground for a chunk at
      or above 0, and H + 1 positions, one more than the chunk's height, for a chunk below 0. */
  lemma ColumnSpec(settings: Settings, chunkOrigin: Vec3, chunkHeight: int, blockPosition: Vec3, groundPosition: int)
    requires chunkHeight > 0
    ensures var d := Decide(settings, chunkOrigin, chunkHeight, blockPosition, groundPosition);
      && (d.handled <==>
            (chunkOrigin.y <= groundPosition &&
             settings.stoneNoise(chunkOrigin.x + blockPosition.x, chunkOrigin.z + blockPosition.z) > settings.stoneThreshold))
      && (!d.handled ==> d.writes == [])
      && (d.handled ==>
            && (forall k :: 0 <= k < |d.writes| ==>
                  d.writes[k] == Write(Vec3(blockPosition.x, chunkOrigin.y + k, blockPosition.z), "stone", true))
            && (chunkOrigin.y >= 0 ==> |d.writes| == groundPosition - chunkOrigin.y + 1)
            && (chunkOrigin.y < 0 ==> |d.writes| == chunkHeight + 1))
  {
    var d := Decide(settings, chunkOrigin, chunkHeight, blockPosition, groundPosition);
    if d.handled {
      var endPosition := EndPosition(chunkOrigin, chunkHeight, groundPosition);
      assert d.writes == StoneColumn(blockPosition.x, blockPosition.z, chunkOrigin.y, ColumnCount(chunkOrigin.y, endPosition));
    }
  }

  /** The first n writes of a column are the column of n. */
  lemma ColumnPrefix(x: int, z: int, from: int, n: nat, count: nat)
    requires n <= count
    ensures StoneColumn(x, z, from, count)[..n] == StoneColumn(x, z, from, n)
  {
  }

  /** The loop of TryHandling: SetBlock with "stone" at every y from `from` to `endPosition`, in order, stopping at
      the first exception. */
  method PlaceColumn(c: ChunkData, x: int, z: int, from: int, endPosition: int) returns (r: Outcome)
    requires c.Valid() && c.world.Valid()
    modifies c.blocks, c.world.Arrays()
    ensures Continues(old(CellsOf(c)), ReachOf(c), c, CellsOf(c), StoneColumn(x, z, from, ColumnCount(from, endPosition)), r)
  {
    ghost var s := CellsOf(c);
    ghost var count := ColumnCount(from, endPosition);
    ghost var done: seq<Write> := [];
    var y := from;
    while y <= endPosition
      invariant from <= y && y - from <= count
      invariant y <= endPosition ==> y - from < count
      invariant done == StoneColumn(x, z, from, y - from)
      invariant Holds(s, ReachOf(c), c, CellsOf(c), done)
    {
      var w := Put(Vec3(x, y, z), "stone");
      var o := WriteNext(c, s, done, w);
      assert done + [w] == StoneColumn(x, z, from, y + 1 - from);
      if o.Fail? {
        ColumnPrefix(x, z, from, |done| + 1, count);
        PrefixFailure(s, ReachOf(c), c, StoneColumn(x, z, from, count), |done| + 1);
        return o;
      }
      done := done + [w];
      y := y + 1;
    }
    assert y - from == count;
    assert done == StoneColumn(x, z, from, count);
    return Pass;
  }

  /** TryHandling: the result and the new cells are those of the decision's run. */
  method TryHandling(c: ChunkData, settings: Settings, blockPosition: Vec3, groundPosition: int) returns (r: Result<bool>)
    requires c.Valid() && c.world.Valid()
    modifies c.blocks, c.world.Arrays()
    ensures Reports(r, CellsOf(c),
      Run(old(CellsOf(c)), ReachOf(c), c, Ok(Decide(settings, c.worldPosition, c.chunkHeight, blockPosition, groundPosition))))
  {
    if c.worldPosition.y > groundPosition {
      return Ok(false);
    }
    var stoneNoise := settings.stoneNoise(c.worldPosition.x + blockPosition.x, c.worldPosition.z + blockPosition.z);
    var endPosition := groundPosition;
    if c.worldPosition.y < 0 {
      endPosition := c.worldPosition.y + c.chunkHeight;
    }
    if stoneNoise > settings.stoneThreshold {
      assert endPosition == EndPosition(c.worldPosition, c.chunkHeight, groundPosition);
      var o := PlaceColumn(c, blockPosition.x, blockPosition.z, c.worldPosition.y, endPosition);
      if o.Fail? {
        return Err(o.error);
      }
      return Ok(true);
    }
    return Ok(false);
  }
}
