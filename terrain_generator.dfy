/** TerrainGenerator: the terrain type switch and the two passes over the columns of a chunk, x outer and z inner,
    each column handed to the default biome generator. */
module TerrainGeneration {
  import opened Wrappers
  import opened Vectors
  import opened WorldState
  import opened TreeGeneration
  import opened DataProcessing
  import opened TerrainCells
  import opened BiomeGeneration

  /** The terrain types; only Procedural is implemented (TerrainType.cs is not part of this model, so every other
      member is one value carrying its ordinal). */
  datatype TerrainType = Procedural | OtherTerrain(ordinal: int)

  /** The inspector default of waterThreshold. */
  const DefaultWaterThreshold: int := 34

  // ---------------------------------------------------------------- the column order

  /** The columns (x, z) of row x from z on, z counting up to n; a column is a Vec2 whose y is the local z. */
  function RowFrom(x: int, z: int, n: int): seq<Vec2>
    decreases n - z
  {
    if z >= n then [] else [Vec2(x, z)] + RowFrom(x, z + 1, n)
  }

  /** The rows from x on, each in full, x counting up to n. */
  function RowsFrom(x: int, n: int): seq<Vec2>
    decreases n - x
  {
    if x >= n then [] else RowFrom(x, 0, n) + RowsFrom(x + 1, n)
  }

  /** The columns of a chunk of size n in the order of the nested loops. */
  function GridColumns(n: int): seq<Vec2> {
    RowsFrom(0, n)
  }

  /** Two ordered sequences, the first wholly before the second, concatenate to an ordered sequence. */
  lemma OrderedConcat(a: seq<Vec2>, b: seq<Vec2>)
    requires StrictlyOrdered(a) && StrictlyOrdered(b)
    requires forall i, j :: 0 <= i < |a| && 0 <= j < |b| ==> Before(a[i], b[j])
    ensures StrictlyOrdered(a + b)
  {
    forall i, j | 0 <= i < j < |a + b|
      ensures Before((a + b)[i], (a + b)[j])
    {
      if j < |a| {
        assert (a + b)[i] == a[i] && (a + b)[j] == a[j];
      } else if i < |a| {
        assert (a + b)[i] == a[i] && (a + b)[j] == b[j - |a|];
      } else {
        assert (a + b)[i] == b[i - |a|] && (a + b)[j] == b[j - |a|];
      }
    }
  }

  /** Row x from z holds exactly the columns (x, z') with z <= z' < n, z' increasing. */
  lemma {:induction false} RowFromSpec(x: int, z: int, n: int)
    requires 0 <= z
    ensures forall v :: v in RowFrom(x, z, n) <==> v.x == x && z <= v.y < n
    ensures StrictlyOrdered(RowFrom(x, z, n))
    ensures |RowFrom(x, z, n)| == if z >= n then 0 else n - z
    decreases n - z
  {
    if z < n {
      RowFromSpec(x, z + 1, n);
      OrderedConcat([Vec2(x, z)], RowFrom(x, z + 1, n));
    }
  }

  /** The rows from x hold exactly the columns with x <= x' < n and 0 <= z < n. */
  lemma {:induction false} RowsFromMembers(x: int, n: int)
    requires 0 <= x
    ensures forall v :: v in RowsFrom(x, n) <==> x <= v.x < n && 0 <= v.y < n
    decreases n - x
  {
    if x < n {
      RowFromSpec(x, 0, n);
      RowsFromMembers(x + 1, n);
    }
  }

  /** The rows from x are in order: row by row, and within a row by z. */
  lemma {:induction false} RowsFromOrdered(x: int, n: int)
    requires 0 <= x
    ensures StrictlyOrdered(RowsFrom(x, n))
    decreases n - x
  {
    if x < n {
      RowFromSpec(x, 0, n);
      RowsFromOrdered(x + 1, n);
      RowsFromMembers(x + 1, n);
      var row, rest := RowFrom(x, 0, n), RowsFrom(x + 1, n);
      forall i, j | 0 <= i < |row| && 0 <= j < |rest|
        ensures Before(row[i], rest[j])
      {
        assert row[i] in row && rest[j] in rest;
      }
      OrderedConcat(row, rest);
    }
  }

  /** The rows from x hold n columns each. */
  lemma {:induction false} RowsFromLength(x: int, n: int)
    requires 0 <= x <= n
    ensures |RowsFrom(x, n)| == (n - x) * n
    decreases n - x
  {
    if x < n {
      var row, rest := RowFrom(x, 0, n), RowsFrom(x + 1, n);
      assert RowsFrom(x, n) == row + rest;
      RowFromSpec(x, 0, n);
      RowsFromLength(x + 1, n);
      MulStep(n - x - 1, n);
    }
  }

  lemma MulStep(a: int, n: int)
    ensures (a + 1) * n == n + a * n
  {
  }

  /** Both passes visit every column of the chunk exactly once: all n * n of them, nothing outside, x outer and z
      inner, so no column comes twice. */
  lemma GridColumnsSpec(n: int)
    requires n >= 0
    ensures |GridColumns(n)| == n * n
    ensures forall v :: v in GridColumns(n) <==> 0 <= v.x < n && 0 <= v.y < n
    ensures StrictlyOrdered(GridColumns(n))
    ensures forall i, j :: 0 <= i < j < |GridColumns(n)| ==> GridColumns(n)[i] != GridColumns(n)[j]
  {
    RowsFromMembers(0, n);
    RowsFromOrdered(0, n);
    RowsFromLength(0, n);
  }

  // ---------------------------------------------------------------- the passes

  /** Which biome generator call a pass makes per column. */
  datatype Stage = MainPass | AdditionalPass

  /** The biome generator's call for one column (x, z): the main pass runs the column of handler chains, the
      additional pass runs the additional handlers once at the chunk origin's y. */
  ghost function ColumnStep(stage: Stage, settings: BiomeGeneration.Settings, env: Env, s: Cells, c: ChunkData,
                            column: Vec2): Result<Cells>
  {
    var groundPosition := GroundPosition(settings, c.worldPosition, column.x, column.y);
    match stage
    case MainPass =>
      Column(settings.blockLayerHandlers, env, s, c, column.x, column.y, groundPosition,
             c.worldPosition.y, c.worldPosition.y + c.world.chunkHeight)
    case AdditionalPass =>
      BiomeGeneration.Additional(settings.additionalBlockLayerHandlers, env, s, c,
                                 Vec3(column.x, c.worldPosition.y, column.y), groundPosition)
  }

  /** A pass over some columns in order; the first exception ends it. */
  ghost function Sweep(stage: Stage, settings: BiomeGeneration.Settings, env: Env, s: Cells, c: ChunkData,
                       columns: seq<Vec2>): Result<Cells>
    decreases |columns|, 1
  {
    if columns == [] then Ok(s) else SweepFrom(stage, settings, env, s, c, columns)
  }

  /** A pass over some columns, at its first one: that column, then the rest from the cells it leaves. */
  ghost function SweepFrom(stage: Stage, settings: BiomeGeneration.Settings, env: Env, s: Cells, c: ChunkData,
                           columns: seq<Vec2>): Result<Cells>
    requires columns != []
    decreases |columns|, 0
  {
    match ColumnStep(stage, settings, env, s, c, columns[0])
    case Err(e) => Err(e)
    case Ok(t) => Sweep(stage, settings, env, t, c, columns[1..])
  }

  /** A pass over two lists of columns is the pass over the first, then over the second from its cells. */
  lemma {:induction false} SweepAppend(stage: Stage, settings: BiomeGeneration.Settings, env: Env, s: Cells,
                                       c: ChunkData, a: seq<Vec2>, b: seq<Vec2>)
    ensures Sweep(stage, settings, env, s, c, a + b) ==
      match Sweep(stage, settings, env, s, c, a)
      case Err(e) => Err(e)
      case Ok(t) => Sweep(stage, settings, env, t, c, b)
    decreases |a|
  {
    if a == [] {
      assert a + b == b;
    } else {
      assert (a + b)[0] == a[0] && (a + b)[1..] == a[1..] + b;
      assert Sweep(stage, settings, env, s, c, a + b) == SweepFrom(stage, settings, env, s, c, a + b);
      assert Sweep(stage, settings, env, s, c, a) == SweepFrom(stage, settings, env, s, c, a);
      var step := ColumnStep(stage, settings, env, s, c, a[0]);
      if step.Ok? {
        SweepAppend(stage, settings, env, step.value, c, a[1..], b);
      }
    }
  }

  /** The tree data every main-pass column assigns, and the threshold the handlers read. */
  function MainEnv(settings: BiomeGeneration.Settings, waterThreshold: int, reach: Reach, c: ChunkData): Env
    requires c.Valid()
  {
    Env(waterThreshold, Some(TreeDataFor(settings, c.chunkSize, c.worldPosition)), reach)
  }

  /** One more column of a pass, as the biome generator reported it. */
  lemma SweepNext(stage: Stage, settings: BiomeGeneration.Settings, env: Env, sweep: Result<Cells>, before: Cells,
                  now: Cells, c: ChunkData, x: int, z: int, n: int, o: Outcome)
    requires z < n
    requires sweep == Sweep(stage, settings, env, before, c, RowFrom(x, z, n))
    requires Ends(o, now, ColumnStep(stage, settings, env, before, c, Vec2(x, z)))
    ensures o.Fail? ==> Ends(o, now, sweep)
    ensures o.Pass? ==> sweep == Sweep(stage, settings, env, now, c, RowFrom(x, z + 1, n))
  {
    var rest := RowFrom(x, z + 1, n);
    assert RowFrom(x, z, n) == [Vec2(x, z)] + rest;
    assert ([Vec2(x, z)] + rest)[0] == Vec2(x, z) && ([Vec2(x, z)] + rest)[1..] == rest;
    assert sweep == SweepFrom(stage, settings, env, before, c, RowFrom(x, z, n));
  }

  /** The end of a row: the pass over its remaining columns leaves the cells as they are. */
  lemma RowDone(stage: Stage, settings: BiomeGeneration.Settings, env: Env, sweep: Result<Cells>, now: Cells,
                c: ChunkData, x: int, z: int, n: int)
    requires z >= n
    requires sweep == Sweep(stage, settings, env, now, c, RowFrom(x, z, n))
    ensures Ends(Pass, now, sweep)
  {
  }

  /** A pass row by row from row x: each row's columns in order, then the next row from its cells. */
  ghost function SweepRows(stage: Stage, settings: BiomeGeneration.Settings, env: Env, s: Cells, c: ChunkData, x: int,
                           n: int): Result<Cells>
    decreases n - x
  {
    if x >= n then Ok(s)
    else
      match Sweep(stage, settings, env, s, c, RowFrom(x, 0, n))
      case Err(e) => Err(e)
      case Ok(t) => SweepRows(stage, settings, env, t, c, x + 1, n)
  }

  /** Row by row is the pass over the columns of the rows in the nested loop order. */
  lemma {:induction false} SweepRowsIsSweep(stage: Stage, settings: BiomeGeneration.Settings, env: Env, s: Cells,
                                            c: ChunkData, x: int, n: int)
    ensures SweepRows(stage, settings, env, s, c, x, n) == Sweep(stage, settings, env, s, c, RowsFrom(x, n))
    decreases n - x
  {
    if x < n {
      SweepAppend(stage, settings, env, s, c, RowFrom(x, 0, n), RowsFrom(x + 1, n));
      var row := Sweep(stage, settings, env, s, c, RowFrom(x, 0, n));
      if row.Ok? {
        SweepRowsIsSweep(stage, settings, env, row.value, c, x + 1, n);
      }
    }
  }

  /** A whole pass, row by row, is the pass over the chunk's columns in the order GridColumnsSpec describes. */
  lemma PassIsSweep(stage: Stage, settings: BiomeGeneration.Settings, env: Env, s: Cells, c: ChunkData, n: int)
    ensures SweepRows(stage, settings, env, s, c, 0, n) == Sweep(stage, settings, env, s, c, GridColumns(n))
  {
    SweepRowsIsSweep(stage, settings, env, s, c, 0, n);
  }

  /** One more row of a pass, as its inner loop reported it. */
  lemma SweepRowNext(stage: Stage, settings: BiomeGeneration.Settings, env: Env, sweep: Result<Cells>, before: Cells,
                     now: Cells, c: ChunkData, x: int, n: int, o: Outcome)
    requires x < n
    requires sweep == SweepRows(stage, settings, env, before, c, x, n)
    requires Ends(o, now, Sweep(stage, settings, env, before, c, RowFrom(x, 0, n)))
    ensures o.Fail? ==> Ends(o, now, sweep)
    ensures o.Pass? ==> sweep == SweepRows(stage, settings, env, now, c, x + 1, n)
  {
  }

  /** The end of the rows: the pass over none leaves the cells as they are. */
  lemma RowsDone(stage: Stage, settings: BiomeGeneration.Settings, env: Env, sweep: Result<Cells>, now: Cells,
                 c: ChunkData, x: int, n: int)
    requires x >= n
    requires sweep == SweepRows(stage, settings, env, now, c, x, n)
    ensures Ends(Pass, now, sweep)
  {
  }

  // ---------------------------------------------------------------- the component

  /** The TerrainGenerator component: a settable terrain type, the default biome generator and the read-only water
      threshold. */
  class TerrainGenerator {
    var terrainType: TerrainType
    const defaultBiomeGenerator: BiomeGeneration.Settings
    const waterThreshold: int

    /** The inspector defaults: procedural terrain and a water threshold of 34. */
    constructor (defaultBiomeGenerator: BiomeGeneration.Settings)
      ensures terrainType == Procedural && waterThreshold == DefaultWaterThreshold
      ensures this.defaultBiomeGenerator == defaultBiomeGenerator
    {
      terrainType := Procedural;
      this.defaultBiomeGenerator := defaultBiomeGenerator;
      waterThreshold := DefaultWaterThreshold;
    }

    /** The TerrainType setter. */
    method SetTerrainType(value: TerrainType)
      modifies this
      ensures terrainType == value
    {
      terrainType := value;
    }

    /** One column of procedural generation, as a step of the pass over the rest of its row. */
    method ProceduralColumn(c: ChunkData, x: int, z: int, ghost env: Env, ghost row: Result<Cells>)
      returns (o: Outcome)
      requires c.Valid() && c.world.Valid() && z < c.world.chunkSize
      requires env == MainEnv(defaultBiomeGenerator, waterThreshold, ReachOf(c), c)
      requires row == Sweep(MainPass, defaultBiomeGenerator, env, CellsOf(c), c, RowFrom(x, z, c.world.chunkSize))
      modifies c, c.blocks, c.world.Arrays()
      ensures c.treeData == env.treeData && c.isModified == old(c.isModified)
      ensures o.Fail? ==> Ends(o, CellsOf(c), row)
      ensures o.Pass? ==> row == Sweep(MainPass, defaultBiomeGenerator, env, CellsOf(c), c, RowFrom(x, z + 1, c.world.chunkSize))
    {
      ghost var before := CellsOf(c);
      o := BiomeGeneration.GenerateChunkData(defaultBiomeGenerator, waterThreshold, c, x, z);
      SweepNext(MainPass, defaultBiomeGenerator, env, row, before, CellsOf(c), c, x, z, c.world.chunkSize, o);
    }

    /** The inner loop of ProceduralGeneration: the columns of row x, z counting up. */
    method ProceduralRow(c: ChunkData, x: int, ghost env: Env) returns (r: Outcome)
      requires c.Valid() && c.world.Valid()
      requires env == MainEnv(defaultBiomeGenerator, waterThreshold, ReachOf(c), c)
      modifies c, c.blocks, c.world.Arrays()
      ensures c.treeData == env.treeData && c.isModified == old(c.isModified)
      ensures Ends(r, CellsOf(c), Sweep(MainPass, defaultBiomeGenerator, env, old(CellsOf(c)), c,
                                        RowFrom(x, 0, c.world.chunkSize)))
    {
      ghost var n := c.world.chunkSize;
      ghost var row := Sweep(MainPass, defaultBiomeGenerator, env, CellsOf(c), c, RowFrom(x, 0, n));
      var z := 0;
      while z < c.world.chunkSize
        invariant 0 <= z <= n
        invariant z > 0 ==> c.treeData == env.treeData
        invariant c.isModified == old(c.isModified)
        invariant row == Sweep(MainPass, defaultBiomeGenerator, env, CellsOf(c), c, RowFrom(x, z, n))
        decreases n - z
      {
        var o := ProceduralColumn(c, x, z, env, row);
        if o.Fail? {
          return o;
        }
        z := z + 1;
      }
      RowDone(MainPass, defaultBiomeGenerator, env, row, CellsOf(c), c, x, z, n);
      return Pass;
    }

    /** One row of ProceduralGeneration: rows x.. before it are rows x+1.. after it, unless it fails. */
    method ProceduralRowStep(c: ChunkData, x: int, ghost env: Env, ghost grid: Result<Cells>) returns (o: Outcome)
      requires c.Valid() && c.world.Valid() && x < c.world.chunkSize
      requires env == MainEnv(defaultBiomeGenerator, waterThreshold, ReachOf(c), c)
      requires grid == SweepRows(MainPass, defaultBiomeGenerator, env, CellsOf(c), c, x, c.world.chunkSize)
      modifies c, c.blocks, c.world.Arrays()
      ensures c.treeData == env.treeData && c.isModified == old(c.isModified)
      ensures o.Fail? ==> Ends(o, CellsOf(c), grid)
      ensures o.Pass? ==> grid == SweepRows(MainPass, defaultBiomeGenerator, env, CellsOf(c), c, x + 1, c.world.chunkSize)
    {
      ghost var before := CellsOf(c);
      o := ProceduralRow(c, x, env);
      SweepRowNext(MainPass, defaultBiomeGenerator, env, grid, before, CellsOf(c), c, x, c.world.chunkSize, o);
    }

    /** ProceduralGeneration: every column of the chunk, x outer and z inner. Every column assigns the same tree
        data; an exception ends the pass. */
    method ProceduralGeneration(c: ChunkData) returns (r: Outcome)
      requires c.Valid() && c.world.Valid()
      modifies c, c.blocks, c.world.Arrays()
      ensures c.treeData == Some(TreeDataFor(defaultBiomeGenerator, c.chunkSize, c.worldPosition))
      ensures c.isModified == old(c.isModified)
      ensures Ends(r, CellsOf(c), SweepRows(MainPass, defaultBiomeGenerator,
                                            MainEnv(defaultBiomeGenerator, waterThreshold, ReachOf(c), c),
                                            old(CellsOf(c)), c, 0, c.world.chunkSize))
    {
      ghost var env := MainEnv(defaultBiomeGenerator, waterThreshold, ReachOf(c), c);
      ghost var n := c.world.chunkSize;
      ghost var grid := SweepRows(MainPass, defaultBiomeGenerator, env, CellsOf(c), c, 0, n);
      var x := 0;
      while x < c.world.chunkSize
        invariant 0 <= x <= n
        invariant x > 0 ==> c.treeData == env.treeData
        invariant c.isModified == old(c.isModified)
        invariant grid == SweepRows(MainPass, defaultBiomeGenerator, env, CellsOf(c), c, x, n)
        decreases n - x
      {
        var o := ProceduralRowStep(c, x, env, grid);
        if o.Fail? {
          return o;
        }
        x := x + 1;
      }
      RowsDone(MainPass, defaultBiomeGenerator, env, grid, CellsOf(c), c, x, n);
      return Pass;
    }

    /** GenerateChunkData: procedural generation, or an exception for any other terrain type, with nothing
        changed. */
    method GenerateChunkData(c: ChunkData) returns (r: Outcome)
      requires c.Valid() && c.world.Valid()
      modifies c, c.blocks, c.world.Arrays()
      ensures terrainType.OtherTerrain? ==>
        r == Fail(NotImplemented) && CellsOf(c) == old(CellsOf(c)) && c.treeData == old(c.treeData)
      ensures terrainType == Procedural ==>
        c.treeData == Some(TreeDataFor(defaultBiomeGenerator, c.chunkSize, c.worldPosition))
      ensures terrainType == Procedural ==>
        Ends(r, CellsOf(c), SweepRows(MainPass, defaultBiomeGenerator, MainEnv(defaultBiomeGenerator, waterThreshold, ReachOf(c), c),
                                  old(CellsOf(c)), c, 0, c.world.chunkSize))
      ensures c.isModified == old(c.isModified)
    {
      match terrainType
      case Procedural =>
        r := ProceduralGeneration(c);
      case OtherTerrain(_) =>
        r := Fail(NotImplemented);
    }

    /** One column of the additional pass, as a step of the pass over the rest of its row. */
    method AdditionalColumn(c: ChunkData, x: int, z: int, ghost env: Env, ghost row: Result<Cells>)
      returns (o: Outcome)
      requires c.Valid() && c.world.Valid() && z < c.world.chunkSize
      requires env == Env(waterThreshold, c.treeData, ReachOf(c))
      requires row == Sweep(AdditionalPass, defaultBiomeGenerator, env, CellsOf(c), c, RowFrom(x, z, c.world.chunkSize))
      modifies c.blocks, c.world.Arrays()
      ensures o.Fail? ==> Ends(o, CellsOf(c), row)
      ensures o.Pass? ==>
        row == Sweep(AdditionalPass, defaultBiomeGenerator, env, CellsOf(c), c, RowFrom(x, z + 1, c.world.chunkSize))
    {
      ghost var before := CellsOf(c);
      o := BiomeGeneration.GenerateAdditionalChunkData(defaultBiomeGenerator, waterThreshold, c, x, z);
      SweepNext(AdditionalPass, defaultBiomeGenerator, env, row, before, CellsOf(c), c, x, z, c.world.chunkSize, o);
    }

    /** The inner loop of GenerateAdditionalChunkData: the columns of row x, z counting up. */
    method AdditionalRow(c: ChunkData, x: int, ghost env: Env, ghost row: Result<Cells>) returns (r: Outcome)
      requires c.Valid() && c.world.Valid()
      requires env == Env(waterThreshold, c.treeData, ReachOf(c))
      requires row == Sweep(AdditionalPass, defaultBiomeGenerator, env, CellsOf(c), c, RowFrom(x, 0, c.world.chunkSize))
      modifies c.blocks, c.world.Arrays()
      ensures Ends(r, CellsOf(c), row)
    {
      ghost var n := c.world.chunkSize;
      var z := 0;
      while z < c.world.chunkSize
        invariant 0 <= z <= n
        invariant env == Env(waterThreshold, c.treeData, ReachOf(c))
        invariant row == Sweep(AdditionalPass, defaultBiomeGenerator, env, CellsOf(c), c, RowFrom(x, z, n))
        decreases n - z
      {
        var o := AdditionalColumn(c, x, z, env, row);
        if o.Fail? {
          return o;
        }
        z := z + 1;
      }
      RowDone(AdditionalPass, defaultBiomeGenerator, env, row, CellsOf(c), c, x, z, n);
      return Pass;
    }

    /** One row of GenerateAdditionalChunkData, in the terms of its loop invariant. */
    method AdditionalRowStep(c: ChunkData, x: int, ghost env: Env, ghost grid: Result<Cells>) returns (o: Outcome)
      requires c.Valid() && c.world.Valid() && x < c.world.chunkSize
      requires env == Env(waterThreshold, c.treeData, ReachOf(c))
      requires grid == SweepRows(AdditionalPass, defaultBiomeGenerator, env, CellsOf(c), c, x, c.world.chunkSize)
      modifies c.blocks, c.world.Arrays()
      ensures o.Fail? ==> Ends(o, CellsOf(c), grid)
      ensures o.Pass? ==> grid == SweepRows(AdditionalPass, defaultBiomeGenerator, env, CellsOf(c), c, x + 1, c.world.chunkSize)
    {
      ghost var before := CellsOf(c);
      o := AdditionalRow(c, x, env, Sweep(AdditionalPass, defaultBiomeGenerator, env, CellsOf(c), c, RowFrom(x, 0, c.world.chunkSize)));
      SweepRowNext(AdditionalPass, defaultBiomeGenerator, env, grid, before, CellsOf(c), c, x, c.world.chunkSize, o);
    }

    /** GenerateAdditionalChunkData: the additional handlers for every column of the chunk, x outer and z inner,
        whatever the terrain type; an exception ends the pass. */
    method GenerateAdditionalChunkData(c: ChunkData) returns (r: Outcome)
      requires c.Valid() && c.world.Valid()
      modifies c.blocks, c.world.Arrays()
      ensures Ends(r, CellsOf(c), SweepRows(AdditionalPass, defaultBiomeGenerator, Env(waterThreshold, c.treeData, ReachOf(c)),
                                            old(CellsOf(c)), c, 0, c.world.chunkSize))
    {
      ghost var env := Env(waterThreshold, c.treeData, ReachOf(c));
      ghost var n := c.world.chunkSize;
      ghost var grid := SweepRows(AdditionalPass, defaultBiomeGenerator, env, CellsOf(c), c, 0, n);
      var x := 0;
      while x < c.world.chunkSize
        invariant 0 <= x <= n
        invariant env == Env(waterThreshold, c.treeData, ReachOf(c))
        invariant grid == SweepRows(AdditionalPass, defaultBiomeGenerator, env, CellsOf(c), c, x, n)
        decreases n - x
      {
        var o := AdditionalRowStep(c, x, env, grid);
        if o.Fail? {
          return o;
        }
        x := x + 1;
      }
      RowsDone(AdditionalPass, defaultBiomeGenerator, env, grid, CellsOf(c), c, x, n);
      return Pass;
    }
  }
}
