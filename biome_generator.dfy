/** BiomeGenerator: for one column of a chunk, the ground height and the tree data, then the chain of block layer
    handlers at every world y of the chunk; and the additional pass, which gives every additional handler one call
    per column. The handler lists come from the inspector and are parameters. */
module BiomeGeneration {
  import opened Wrappers
  import opened Vectors
  import opened WorldState
  import opened TreeGeneration
  import opened DataProcessing
  import opened TerrainCells
  import AirLayer
  import StoneLayer
  import SurfaceLayer
  import TreeLayer
  import WaterLayer
  import UndergroundLayer

  /** A BlockLayerHandler component of the inspector lists, with its own settings. */
  datatype Handler =
    | Air
    | Stone(stoneSettings: StoneLayer.Settings)
    | Surface(surfaceSettings: SurfaceLayer.Settings)
    | Tree(treeSettings: TreeLayer.Settings)
    | Water
    | Underground(undergroundBlockId: string)

  /** The noises of a world column and the two handler lists. `groundNoise` is GetGroundPosition: the domain-warped
      biome noise, redistributed, remapped onto the chunk height and cast to int; `treeNoise` is the tree
      generator's domain-warped noise. */
  datatype Settings = Settings(
    groundNoise: (int, int) -> int,
    treeNoise: ColumnNoise,
    blockLayerHandlers: seq<Handler>,
    additionalBlockLayerHandlers: seq<Handler>)

  /** The ground of a local column: the noise height of its world column plus the distance of the chunk's origin
      from y = 0. */
  function GroundPosition(settings: Settings, chunkOrigin: Vec3, x: int, z: int): int {
    settings.groundNoise(chunkOrigin.x + x, chunkOrigin.z + z) + Abs(chunkOrigin.y)
  }

  /** The tree data GenerateTreeData computes for a chunk. */
  function TreeDataFor(settings: Settings, chunkSize: nat, chunkOrigin: Vec3): TreeData {
    TreeData(LocalMaxima(NoiseGrid(settings.treeNoise, chunkSize, chunkOrigin)))
  }

  // ---------------------------------------------------------------- one handler

  /** What the handlers read besides the cells: the terrain generator's water threshold, the chunk's tree data and
      the reach of its writes. */
  datatype Env = Env(waterThreshold: int, treeData: Option<TreeData>, reach: Reach)

  /** What one handler decides at a block position. */
  ghost function HandlerDecision(h: Handler, env: Env, s: Cells, c: ChunkData, blockPosition: Vec3,
                                 groundPosition: int): Result<Decision>
  {
    match h
    case Air => Ok(AirLayer.Decide(blockPosition, groundPosition))
    case Stone(settings) =>
      Ok(StoneLayer.Decide(settings, c.worldPosition, c.chunkHeight, blockPosition, groundPosition))
    case Surface(settings) => Ok(SurfaceLayer.Decide(settings, c.worldPosition, blockPosition, groundPosition))
    case Tree(settings) => TreeLayer.Decide(settings, env.treeData, s, env.reach, c, blockPosition, groundPosition)
    case Water => Ok(WaterLayer.Decide(env.waterThreshold, blockPosition, groundPosition))
    case Underground(id) => Ok(UndergroundLayer.Decide(id, c.worldPosition, blockPosition, groundPosition))
  }

  /** layer.TryHandling: the handler's own TryHandling. */
  method TryHandling(h: Handler, waterThreshold: int, c: ChunkData, blockPosition: Vec3, groundPosition: int)
    returns (r: Result<bool>)
    requires c.Valid() && c.world.Valid()
    modifies c.blocks, c.world.Arrays()
    ensures Reports(r, CellsOf(c), Run(old(CellsOf(c)), ReachOf(c), c,
      HandlerDecision(h, Env(waterThreshold, c.treeData, ReachOf(c)), old(CellsOf(c)), c, blockPosition, groundPosition)))
  {
    match h
    case Air => r := AirLayer.TryHandling(c, blockPosition, groundPosition);
    case Stone(settings) => r := StoneLayer.TryHandling(c, settings, blockPosition, groundPosition);
    case Surface(settings) => r := SurfaceLayer.TryHandling(c, settings, blockPosition, groundPosition);
    case Tree(settings) => r := TreeLayer.TryHandling(c, settings, blockPosition, groundPosition);
    case Water => r := WaterLayer.TryHandling(c, waterThreshold, blockPosition, groundPosition);
    case Underground(id) => r := UndergroundLayer.TryHandling(c, id, blockPosition, groundPosition);
  }

  // ---------------------------------------------------------------- the chain at one block position

  /** The handlers in list order at one block position: the first one that returns true ends the chain, and so does
      an exception. The flag says whether some handler returned true. */
  ghost function Chain(handlers: seq<Handler>, env: Env, s: Cells, c: ChunkData, blockPosition: Vec3,
                       groundPosition: int): Result<(bool, Cells)>
    decreases |handlers|
  {
    if handlers == [] then Ok((false, s))
    else
      match Run(s, env.reach, c, HandlerDecision(handlers[0], env, s, c, blockPosition, groundPosition))
      case Err(e) => Err(e)
      case Ok((handled, t)) =>
        if handled then Ok((true, t)) else Chain(handlers[1..], env, t, c, blockPosition, groundPosition)
  }

  /** A chain over two lists is the chain over the first, and, when no handler in it returned true, the chain over
      the second from its cells. */
  lemma {:induction false} ChainAppend(a: seq<Handler>, b: seq<Handler>, env: Env, s: Cells, c: ChunkData,
                                       blockPosition: Vec3, groundPosition: int)
    ensures Chain(a + b, env, s, c, blockPosition, groundPosition) ==
      match Chain(a, env, s, c, blockPosition, groundPosition)
      case Err(e) => Err(e)
      case Ok((handled, t)) =>
        if handled then Ok((true, t)) else Chain(b, env, t, c, blockPosition, groundPosition)
    decreases |a|
  {
    if a == [] {
      assert a + b == b;
    } else {
      assert (a + b)[0] == a[0];
      assert (a + b)[1..] == a[1..] + b;
      var run := Run(s, env.reach, c, HandlerDecision(a[0], env, s, c, blockPosition, groundPosition));
      if run.Ok? && !run.value.0 {
        ChainAppend(a[1..], b, env, run.value.1, c, blockPosition, groundPosition);
      }
    }
  }

  /** Once a handler returns true, the handlers after it are never consulted: whatever follows, the chain ends
      with that handler's cells. */
  lemma FirstHandlerWins(before: seq<Handler>, h: Handler, after: seq<Handler>, env: Env, s: Cells,
                         c: ChunkData, blockPosition: Vec3, groundPosition: int)
    requires Chain(before, env, s, c, blockPosition, groundPosition).Ok?
    requires var u := Chain(before, env, s, c, blockPosition, groundPosition).value;
      !u.0 && Run(u.1, env.reach, c, HandlerDecision(h, env, u.1, c, blockPosition, groundPosition)).Ok?
      && Run(u.1, env.reach, c, HandlerDecision(h, env, u.1, c, blockPosition, groundPosition)).value.0
    ensures var u := Chain(before, env, s, c, blockPosition, groundPosition).value;
      Chain(before + [h] + after, env, s, c, blockPosition, groundPosition) ==
        Ok((true, Run(u.1, env.reach, c, HandlerDecision(h, env, u.1, c, blockPosition, groundPosition)).value.1))
  {
    var u := Chain(before, env, s, c, blockPosition, groundPosition).value;
    assert before + [h] + after == before + ([h] + after);
    ChainAppend(before, [h] + after, env, s, c, blockPosition, groundPosition);
    assert ([h] + after)[0] == h;
  }

  /** A method's outcome and new cells are those a chain ends with. */
  ghost predicate ChainReports(r: Outcome, now: Cells, run: Result<(bool, Cells)>) {
    && (run.Err? ==> r == Fail(run.error))
    && (run.Ok? ==> r == Pass && now == run.value.1)
  }

  /** The foreach over the handlers at one block position, with its break. */
  method HandleBlock(handlers: seq<Handler>, waterThreshold: int, c: ChunkData, blockPosition: Vec3,
                     groundPosition: int) returns (r: Outcome)
    requires c.Valid() && c.world.Valid()
    modifies c.blocks, c.world.Arrays()
    ensures ChainReports(r, CellsOf(c),
      Chain(handlers, Env(waterThreshold, c.treeData, ReachOf(c)), old(CellsOf(c)), c, blockPosition, groundPosition))
  {
    ghost var s := CellsOf(c);
    ghost var env := Env(waterThreshold, c.treeData, ReachOf(c));
    var k := 0;
    while k < |handlers|
      invariant 0 <= k <= |handlers| && c.Valid() && c.world.Valid()
      invariant Chain(handlers, env, s, c, blockPosition, groundPosition) ==
        Chain(handlers[k..], env, CellsOf(c), c, blockPosition, groundPosition)
    {
      ghost var before := CellsOf(c);
      var handled := TryHandling(handlers[k], waterThreshold, c, blockPosition, groundPosition);
      ChainNext(handlers, k, env, before, CellsOf(c), c, blockPosition, groundPosition, handled);
      if handled.Err? {
        return Fail(handled.error);
      }
      if handled.value {
        return Pass;
      }
      k := k + 1;
    }
    assert handlers[k..] == [];
    return Pass;
  }

  /** One more handler of the chain, as its TryHandling reported it. */
  lemma ChainNext(handlers: seq<Handler>, k: int, env: Env, before: Cells, now: Cells, c: ChunkData,
                  blockPosition: Vec3, groundPosition: int, handled: Result<bool>)
    requires 0 <= k < |handlers|
    requires Reports(handled, now,
      Run(before, env.reach, c, HandlerDecision(handlers[k], env, before, c, blockPosition, groundPosition)))
    ensures var chain := Chain(handlers[k..], env, before, c, blockPosition, groundPosition);
      && (handled.Err? ==> chain == Err(handled.error))
      && (handled == Ok(true) ==> chain == Ok((true, now)))
      && (handled == Ok(false) ==> chain == Chain(handlers[k + 1..], env, now, c, blockPosition, groundPosition))
  {
    assert handlers[k..][0] == handlers[k] && handlers[k..][1..] == handlers[k + 1..];
  }

  // ---------------------------------------------------------------- the column

  /** The chain at every world y from `y` up to `top`, in order, with local x and z; the first exception ends the
      column. */
  ghost function Column(handlers: seq<Handler>, env: Env, s: Cells, c: ChunkData, x: int, z: int,
                        groundPosition: int, y: int, top: int): Result<Cells>
    decreases top - y
  {
    if y >= top then Ok(s)
    else
      match Chain(handlers, env, s, c, Vec3(x, y, z), groundPosition)
      case Err(e) => Err(e)
      case Ok((_, t)) => Column(handlers, env, t, c, x, z, groundPosition, y + 1, top)
  }

  /** The column is processed bottom to top: the column up to any y, then the rest from its cells. */
  lemma {:induction false} ColumnSplit(handlers: seq<Handler>, env: Env, s: Cells, c: ChunkData, x: int,
                                       z: int, groundPosition: int, y: int, m: int, top: int)
    requires y <= m <= top
    ensures Column(handlers, env, s, c, x, z, groundPosition, y, top) ==
      match Column(handlers, env, s, c, x, z, groundPosition, y, m)
      case Err(e) => Err(e)
      case Ok(t) => Column(handlers, env, t, c, x, z, groundPosition, m, top)
    decreases m - y
  {
    if y < m {
      var run := Chain(handlers, env, s, c, Vec3(x, y, z), groundPosition);
      if run.Ok? {
        ColumnSplit(handlers, env, run.value.1, c, x, z, groundPosition, y + 1, m, top);
      }
    }
  }

  /** A method's outcome and new cells are those of a run: its exception, or passing with its cells. */
  ghost predicate Ends(r: Outcome, now: Cells, run: Result<Cells>) {
    && (run.Err? ==> r == Fail(run.error))
    && (run.Ok? ==> r == Pass && now == run.value)
  }

  /** One more world y of the column, as HandleBlock reported it: its exception ends the column, or the column
      goes on from the next y. */
  lemma ColumnNext(handlers: seq<Handler>, env: Env, column: Result<Cells>, before: Cells, now: Cells,
                   c: ChunkData, x: int, z: int, groundPosition: int, y: int, top: int, o: Outcome)
    requires y < top
    requires column == Column(handlers, env, before, c, x, z, groundPosition, y, top)
    requires ChainReports(o, now, Chain(handlers, env, before, c, Vec3(x, y, z), groundPosition))
    ensures o.Fail? ==> Ends(o, now, column)
    ensures o.Pass? ==> column == Column(handlers, env, now, c, x, z, groundPosition, y + 1, top)
  {
  }

  /** The column past its top leaves the cells as they are. */
  lemma ColumnDone(handlers: seq<Handler>, env: Env, column: Result<Cells>, now: Cells, c: ChunkData,
                   x: int, z: int, groundPosition: int, y: int, top: int)
    requires y >= top
    requires column == Column(handlers, env, now, c, x, z, groundPosition, y, top)
    ensures Ends(Pass, now, column)
  {
  }

  /** The y loop of GenerateChunkData: the chain at every world y of the chunk, from its origin's y up to the
      world's chunk height above it. */
  method HandleColumn(handlers: seq<Handler>, waterThreshold: int, c: ChunkData, x: int, z: int, groundPosition: int)
    returns (r: Outcome)
    requires c.Valid() && c.world.Valid()
    modifies c.blocks, c.world.Arrays()
    ensures Ends(r, CellsOf(c),
      Column(handlers, Env(waterThreshold, c.treeData, ReachOf(c)), old(CellsOf(c)), c, x, z, groundPosition,
             c.worldPosition.y, c.worldPosition.y + c.world.chunkHeight))
  {
    ghost var s := CellsOf(c);
    ghost var env := Env(waterThreshold, c.treeData, ReachOf(c));
    ghost var top := c.worldPosition.y + c.world.chunkHeight;
    ghost var column := Column(handlers, env, s, c, x, z, groundPosition, c.worldPosition.y, top);
    var y := c.worldPosition.y;
    while y < c.worldPosition.y + c.world.chunkHeight
      invariant c.worldPosition.y <= y <= top
      invariant column == Column(handlers, env, CellsOf(c), c, x, z, groundPosition, y, top)
      invariant column == Column(handlers, env, s, c, x, z, groundPosition, c.worldPosition.y, top)
      decreases top - y
    {
      var blockPosition := Vec3(x, y, z);
      ghost var before := CellsOf(c);
      var o := HandleBlock(handlers, waterThreshold, c, blockPosition, groundPosition);
      ColumnNext(handlers, env, column, before, CellsOf(c), c, x, z, groundPosition, y, top, o);
      if o.Fail? {
        return o;
      }
      y := y + 1;
    }
    ColumnDone(handlers, env, column, CellsOf(c), c, x, z, groundPosition, y, top);
    return Pass;
  }

  /** GenerateChunkData for the column (x, z): the ground, then the tree data, then the column. */
  method GenerateChunkData(settings: Settings, waterThreshold: int, c: ChunkData, x: int, z: int)
    returns (r: Outcome)
    requires c.Valid() && c.world.Valid()
    modifies c, c.blocks, c.world.Arrays()
    ensures c.treeData == Some(TreeDataFor(settings, c.chunkSize, c.worldPosition))
    ensures c.isModified == old(c.isModified)
    ensures Ends(r, CellsOf(c),
      Column(settings.blockLayerHandlers, Env(waterThreshold, c.treeData, ReachOf(c)), old(CellsOf(c)), c, x, z,
             GroundPosition(settings, c.worldPosition, x, z), c.worldPosition.y, c.worldPosition.y + c.world.chunkHeight))
  {
    ghost var s := CellsOf(c);
    var groundPosition := settings.groundNoise(c.worldPosition.x + x, c.worldPosition.z + z);
    groundPosition := groundPosition + Abs(c.worldPosition.y);
    var treeData := GenerateTreeData(c.chunkSize, c.worldPosition, settings.treeNoise);
    c.treeData := Some(treeData);
    assert CellsOf(c) == s && groundPosition == GroundPosition(settings, c.worldPosition, x, z);
    r := HandleColumn(settings.blockLayerHandlers, waterThreshold, c, x, z, groundPosition);
  }

  // ---------------------------------------------------------------- the additional pass

  /** Every handler in list order at one block position, whatever each returns; the first exception ends it. */
  ghost function Additional(handlers: seq<Handler>, env: Env, s: Cells, c: ChunkData, blockPosition: Vec3,
                            groundPosition: int): Result<Cells>
    decreases |handlers|
  {
    if handlers == [] then Ok(s)
    else
      match Run(s, env.reach, c, HandlerDecision(handlers[0], env, s, c, blockPosition, groundPosition))
      case Err(e) => Err(e)
      case Ok((_, t)) => Additional(handlers[1..], env, t, c, blockPosition, groundPosition)
  }

  /** The additional pass differs from the chain only once a handler returns true: up to then they leave the same
      cells and the same exception, and when no handler returns true they agree. */
  lemma {:induction false} AdditionalAgreesWithChain(handlers: seq<Handler>, env: Env, s: Cells,
                                                     c: ChunkData, blockPosition: Vec3, groundPosition: int)
    ensures var chain := Chain(handlers, env, s, c, blockPosition, groundPosition);
      var extra := Additional(handlers, env, s, c, blockPosition, groundPosition);
      && (chain.Err? ==> extra == Err(chain.error))
      && (chain.Ok? && !chain.value.0 ==> extra == Ok(chain.value.1))
    decreases |handlers|
  {
    if handlers != [] {
      var run := Run(s, env.reach, c, HandlerDecision(handlers[0], env, s, c, blockPosition, groundPosition));
      if run.Ok? && !run.value.0 {
        AdditionalAgreesWithChain(handlers[1..], env, run.value.1, c, blockPosition, groundPosition);
      }
    }
  }

  /** One more handler of the additional pass, as its TryHandling reported it. */
  lemma AdditionalNext(handlers: seq<Handler>, k: int, env: Env, before: Cells, now: Cells, c: ChunkData,
                       blockPosition: Vec3, groundPosition: int, handled: Result<bool>)
    requires 0 <= k < |handlers|
    requires Reports(handled, now,
      Run(before, env.reach, c, HandlerDecision(handlers[k], env, before, c, blockPosition, groundPosition)))
    ensures handled.Err? ==>
      Additional(handlers[k..], env, before, c, blockPosition, groundPosition) == Err(handled.error)
    ensures handled.Ok? ==>
      Additional(handlers[k..], env, before, c, blockPosition, groundPosition) ==
      Additional(handlers[k + 1..], env, now, c, blockPosition, groundPosition)
  {
    assert handlers[k..][0] == handlers[k] && handlers[k..][1..] == handlers[k + 1..];
  }

  /** GenerateAdditionalChunkData for the column (x, z): every additional handler once, at the chunk origin's y,
      its result ignored. */
  method GenerateAdditionalChunkData(settings: Settings, waterThreshold: int, c: ChunkData, x: int, z: int)
    returns (r: Outcome)
    requires c.Valid() && c.world.Valid()
    modifies c.blocks, c.world.Arrays()
    ensures Ends(r, CellsOf(c),
      Additional(settings.additionalBlockLayerHandlers, Env(waterThreshold, c.treeData, ReachOf(c)), old(CellsOf(c)), c,
                 Vec3(x, c.worldPosition.y, z), GroundPosition(settings, c.worldPosition, x, z)))
  {
    ghost var s := CellsOf(c);
    var groundPosition := settings.groundNoise(c.worldPosition.x + x, c.worldPosition.z + z);
    groundPosition := groundPosition + Abs(c.worldPosition.y);
    var handlers := settings.additionalBlockLayerHandlers;
    ghost var at := Vec3(x, c.worldPosition.y, z);
    ghost var env := Env(waterThreshold, c.treeData, ReachOf(c));
    assert groundPosition == GroundPosition(settings, c.worldPosition, x, z);
    ghost var extra := Additional(handlers, env, s, c, at, groundPosition);
    var k := 0;
    while k < |handlers|
      invariant 0 <= k <= |handlers|
      invariant extra == Additional(handlers[k..], env, CellsOf(c), c, at, groundPosition)
    {
      var blockPosition := Vec3(x, c.worldPosition.y, z);
      ghost var before := CellsOf(c);
      var handled := TryHandling(handlers[k], waterThreshold, c, blockPosition, groundPosition);
      AdditionalNext(handlers, k, env, before, CellsOf(c), c, at, groundPosition, handled);
      if handled.Err? {
        return Fail(handled.error);
      }
      k := k + 1;
    }
    assert handlers[k..] == [];
    return Pass;
  }
}
