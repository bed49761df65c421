/** TreeLayerHandler: on a tree position of a low enough chunk column, the grass or dirt at the ground becomes dirt
    and GenerateTree builds a five-block trunk with two canopies of leaves above it. */
module TreeLayer {
  import opened Wrappers
  import opened Vectors
  import opened WorldState
  import opened TreeGeneration
  import opened ChunkAccess
  import opened TerrainCells

  /** terrainHeightLimit, a float field compared with the integer ground. */
  datatype Settings = Settings(terrainHeightLimit: real)

  const Defaults := Settings(25.0)

  /** trunkHeight of GenerateTree. */
  const TrunkHeight := 5

  /** C#'s integer remainder, which truncates toward zero and so takes the sign of the dividend. */
  function CsRemainder(a: int, b: int): (r: int)
    requires b > 0
    ensures a >= 0 ==> 0 <= r < b
    ensures a < 0 ==> -b < r <= 0
  {
    if a >= 0 then a % b else -((-a) % b)
  }

  /** On -1, 0 and 1 the remainder by 2 is zero only at 0 (-1 % 2 is -1 in C#). */
  lemma EvenUnit(a: int)
    requires -1 <= a <= 1
    ensures CsRemainder(a, 2) == 0 <==> a == 0
    ensures CsRemainder(a, 2) == a
  {
  }

  /** A position relative to the ground block. */
  function Offset(g: Vec3, x: int, y: int, z: int): Vec3 {
    Vec3(g.x + x, g.y + y, g.z + z)
  }

  /** The two leaf loops of GenerateTree. */
  datatype Canopy = Lower | Upper

  /** The cells of a canopy that take leaves: the lower canopy skips its centre and its four corners; the upper one
      skips its centre below y = trunkHeight + 1 and keeps a cell when x or z is even. */
  predicate Keep(canopy: Canopy, x: int, y: int, z: int) {
    match canopy
    case Lower =>
      && !(x == 0 && z == 0)
      && !((x == -2 && z == -2) || (x == -2 && z == 2) || (x == 2 && z == -2) || (x == 2 && z == 2))
    case Upper =>
      && !(x == 0 && z == 0 && y < TrunkHeight + 1)
      && (CsRemainder(x, 2) == 0 || CsRemainder(z, 2) == 0)
  }

  /** A leaf at a local position: "oak_leaves" without replacing. */
  function Leaf(p: Vec3): Write {
    Write(p, "oak_leaves", false)
  }

  /** The first n logs of the trunk, upwards from the block above the ground. */
  function Trunk(g: Vec3, n: nat): (ws: seq<Write>)
    ensures |ws| == n
    ensures forall k :: 0 <= k < n ==> ws[k] == Put(Offset(g, 0, k + 1, 0), "log")
  {
    seq(n, k => Put(Offset(g, 0, k + 1, 0), "log"))
  }

  // The leaf sequences range over local positions (x, y, z) of the chunk; which cells are kept depends on their
  // offsets from the ground block g.

  /** The leaves of one row of a canopy, z from zFrom up to zTo (excluded). */
  function LeafRow(canopy: Canopy, g: Vec3, y: int, x: int, zFrom: int, zTo: int): seq<Write>
    decreases zTo - zFrom
  {
    if zTo <= zFrom then []
    else
      LeafRow(canopy, g, y, x, zFrom, zTo - 1)
      + (if Keep(canopy, x - g.x, y - g.y, zTo - 1 - g.z) then [Leaf(Vec3(x, y, zTo - 1))] else [])
  }

  /** The leaves of one layer, row by row, x from xFrom up to xTo (excluded), each row from zFrom up to zTo. */
  function LeafLayer(canopy: Canopy, g: Vec3, y: int, xFrom: int, xTo: int, zFrom: int, zTo: int): seq<Write>
    decreases xTo - xFrom
  {
    if xTo <= xFrom then []
    else LeafLayer(canopy, g, y, xFrom, xTo - 1, zFrom, zTo) + LeafRow(canopy, g, y, xTo - 1, zFrom, zTo)
  }

  /** The leaves of a canopy, layer by layer, y from yFrom up to yTo (excluded). */
  function LeafBox(canopy: Canopy, g: Vec3, yFrom: int, yTo: int, xFrom: int, xTo: int, zFrom: int, zTo: int)
    : seq<Write>
    decreases yTo - yFrom
  {
    if yTo <= yFrom then []
    else LeafBox(canopy, g, yFrom, yTo - 1, xFrom, xTo, zFrom, zTo) + LeafLayer(canopy, g, yTo - 1, xFrom, xTo, zFrom, zTo)
  }

  /** The lower canopy: offsets trunkHeight - 2 and trunkHeight - 1 in y, -2 to 2 in x and z. */
  function LowerCanopy(g: Vec3): seq<Write> {
    LeafBox(Lower, g, g.y + TrunkHeight - 2, g.y + TrunkHeight, g.x - 2, g.x + 3, g.z - 2, g.z + 3)
  }

  /** The upper canopy: offsets trunkHeight and trunkHeight + 1 in y, -1 to 1 in x and z. */
  function UpperCanopy(g: Vec3): seq<Write> {
    LeafBox(Upper, g, g.y + TrunkHeight, g.y + TrunkHeight + 2, g.x - 1, g.x + 2, g.z - 1, g.z + 2)
  }

  /** The SetBlock calls of GenerateTree, in order. */
  function TreeWrites(g: Vec3): seq<Write> {
    Trunk(g, TrunkHeight) + LowerCanopy(g) + UpperCanopy(g)
  }

  // ---------------------------------------------------------------- the shape of a tree

  /** A row holds exactly the leaves of its kept cells. */
  lemma {:induction false} LeafRowMembers(canopy: Canopy, g: Vec3, y: int, x: int, zFrom: int, zTo: int, w: Write)
    ensures w in LeafRow(canopy, g, y, x, zFrom, zTo) <==>
      && w.local.x == x && w.local.y == y && zFrom <= w.local.z < zTo
      && Keep(canopy, x - g.x, y - g.y, w.local.z - g.z) && w == Leaf(w.local)
    decreases zTo - zFrom
  {
    if zTo > zFrom {
      LeafRowMembers(canopy, g, y, x, zFrom, zTo - 1, w);
    }
  }

  /** A layer holds exactly the leaves of its kept cells. */
  lemma {:induction false} LeafLayerMembers(canopy: Canopy, g: Vec3, y: int, xFrom: int, xTo: int, zFrom: int, zTo: int,
                                            w: Write)
    ensures w in LeafLayer(canopy, g, y, xFrom, xTo, zFrom, zTo) <==>
      && w.local.y == y && xFrom <= w.local.x < xTo && zFrom <= w.local.z < zTo
      && Keep(canopy, w.local.x - g.x, y - g.y, w.local.z - g.z) && w == Leaf(w.local)
    decreases xTo - xFrom
  {
    if xTo > xFrom {
      LeafLayerMembers(canopy, g, y, xFrom, xTo - 1, zFrom, zTo, w);
      LeafRowMembers(canopy, g, y, xTo - 1, zFrom, zTo, w);
    }
  }

  /** A canopy holds exactly one leaf per kept cell of its box, and nothing else. */
  lemma {:induction false} LeafBoxMembers(canopy: Canopy, g: Vec3, yFrom: int, yTo: int, xFrom: int, xTo: int,
                                          zFrom: int, zTo: int, w: Write)
    ensures w in LeafBox(canopy, g, yFrom, yTo, xFrom, xTo, zFrom, zTo) <==>
      && yFrom <= w.local.y < yTo && xFrom <= w.local.x < xTo && zFrom <= w.local.z < zTo
      && Keep(canopy, w.local.x - g.x, w.local.y - g.y, w.local.z - g.z) && w == Leaf(w.local)
    decreases yTo - yFrom
  {
    if yTo > yFrom {
      LeafBoxMembers(canopy, g, yFrom, yTo - 1, xFrom, xTo, zFrom, zTo, w);
      LeafLayerMembers(canopy, g, yTo - 1, xFrom, xTo, zFrom, zTo, w);
    }
  }

  /** The trunk is a column of logs from one to trunkHeight blocks above the ground, each replacing what is
      there. */
  lemma TrunkShape(g: Vec3, w: Write)
    ensures var (dx, dy, dz) := (w.local.x - g.x, w.local.y - g.y, w.local.z - g.z);
      w in Trunk(g, TrunkHeight) <==> dx == 0 && dz == 0 && 1 <= dy <= TrunkHeight && w == Put(w.local, "log")
  {
    var dy := w.local.y - g.y;
    if w in Trunk(g, TrunkHeight) {
      var k :| 0 <= k < TrunkHeight && Trunk(g, TrunkHeight)[k] == w;
    }
    if w.local.x == g.x && w.local.z == g.z && 1 <= dy <= TrunkHeight && w == Put(w.local, "log") {
      assert Trunk(g, TrunkHeight)[dy - 1] == w;
    }
  }

  /** The lower canopy fills the 5 by 5 layers 3 and 4 above the ground but for their centre, where the trunk is,
      and their four corners; its leaves never replace a block. */
  lemma LowerCanopyShape(g: Vec3, w: Write)
    ensures var (dx, dy, dz) := (w.local.x - g.x, w.local.y - g.y, w.local.z - g.z);
      w in LowerCanopy(g) <==>
      && 3 <= dy <= 4 && -2 <= dx <= 2 && -2 <= dz <= 2 && (dx, dz) != (0, 0)
      && !((dx == -2 || dx == 2) && (dz == -2 || dz == 2)) && w.blockId == "oak_leaves" && !w.replace
  {
    LeafBoxMembers(Lower, g, g.y + TrunkHeight - 2, g.y + TrunkHeight, g.x - 2, g.x + 3, g.z - 2, g.z + 3, w);
  }

  /** The upper canopy holds the four blocks beside the trunk's top at layer 5 and a plus of five blocks at layer 6,
      the centre one above the trunk; its leaves never replace a block. */
  lemma UpperCanopyShape(g: Vec3, w: Write)
    ensures var (dx, dy, dz) := (w.local.x - g.x, w.local.y - g.y, w.local.z - g.z);
      w in UpperCanopy(g) <==>
      && 5 <= dy <= 6 && -1 <= dx <= 1 && -1 <= dz <= 1 && (dx == 0 || dz == 0)
      && (dy == 5 ==> (dx, dz) != (0, 0)) && w.blockId == "oak_leaves" && !w.replace
  {
    var (dx, dz) := (w.local.x - g.x, w.local.z - g.z);
    LeafBoxMembers(Upper, g, g.y + TrunkHeight, g.y + TrunkHeight + 2, g.x - 1, g.x + 2, g.z - 1, g.z + 2, w);
    if -1 <= dx <= 1 && -1 <= dz <= 1 {
      EvenUnit(dx);
      EvenUnit(dz);
    }
  }

  /** No leaf falls on the trunk: every leaf position lies off the trunk's column or above its top. */
  lemma CanopyClearsTrunk(g: Vec3, w: Write, t: Write)
    requires (w in LowerCanopy(g) || w in UpperCanopy(g)) && t in Trunk(g, TrunkHeight)
    ensures w.local != t.local
  {
    TrunkShape(g, t);
    if w in LowerCanopy(g) {
      LowerCanopyShape(g, w);
    } else {
      UpperCanopyShape(g, w);
    }
    assert w.local.x != g.x || w.local.z != g.z || w.local.y > g.y + TrunkHeight;
    assert t.local.x == g.x && t.local.z == g.z && t.local.y <= g.y + TrunkHeight;
    assert w.local.x != t.local.x || w.local.z != t.local.z || w.local.y != t.local.y;
  }

  // ---------------------------------------------------------------- the loops, step by step

  /** A prefix stays a prefix when the longer sequence grows. */
  lemma PrefixGrows(a: seq<Write>, b: seq<Write>, more: seq<Write>)
    requires a <= b
    ensures a <= b + more
  {
    assert (b + more)[..|a|] == b[..|a|];
  }

  /** An exception after `done + part` is the exception of `done + whole` for any `whole` that `part` starts. */
  lemma FailureOfPrefix(s: Cells, r: Reach, c: ChunkData, done: seq<Write>, part: seq<Write>, whole: seq<Write>)
    requires part <= whole && ApplyAll(s, r, c, done + part).Err?
    ensures ApplyAll(s, r, c, done + whole) == ApplyAll(s, r, c, done + part)
  {
    assert done + whole == (done + part) + whole[|part|..];
    ApplyAllFailureSticks(s, r, c, done + part, whole[|part|..]);
  }

  /** One more log extends the trunk by one. */
  lemma TrunkStep(done: seq<Write>, g: Vec3, y: int)
    requires 1 <= y
    ensures done + Trunk(g, y - 1) + [Put(Vec3(g.x, g.y + y, g.z), "log")] == done + Trunk(g, y)
  {
    assert Trunk(g, y - 1) + [Put(Vec3(g.x, g.y + y, g.z), "log")] == Trunk(g, y);
  }

  /** An exception at log y is the exception of the whole trunk. */
  lemma TrunkFailure(s: Cells, r: Reach, c: ChunkData, done: seq<Write>, g: Vec3, y: int)
    requires 1 <= y <= TrunkHeight && ApplyAll(s, r, c, done + Trunk(g, y)).Err?
    ensures ApplyAll(s, r, c, done + Trunk(g, TrunkHeight)) == ApplyAll(s, r, c, done + Trunk(g, y))
  {
    assert Trunk(g, TrunkHeight)[..y] == Trunk(g, y);
    FailureOfPrefix(s, r, c, done, Trunk(g, y), Trunk(g, TrunkHeight));
  }

  /** A kept cell extends its row by its leaf. */
  lemma RowStep(done: seq<Write>, canopy: Canopy, g: Vec3, y: int, x: int, zFrom: int, z: int)
    requires zFrom <= z && Keep(canopy, x - g.x, y - g.y, z - g.z)
    ensures done + LeafRow(canopy, g, y, x, zFrom, z) + [Leaf(Vec3(x, y, z))] == done + LeafRow(canopy, g, y, x, zFrom, z + 1)
  {
  }

  /** A row so far is a prefix of the whole row. */
  lemma {:induction false} RowPrefix(canopy: Canopy, g: Vec3, y: int, x: int, zFrom: int, z: int, zTo: int)
    requires z <= zTo
    ensures LeafRow(canopy, g, y, x, zFrom, z) <= LeafRow(canopy, g, y, x, zFrom, zTo)
    decreases zTo - z
  {
    if z < zTo && zTo > zFrom {
      RowPrefix(canopy, g, y, x, zFrom, z, zTo - 1);
      PrefixGrows(LeafRow(canopy, g, y, x, zFrom, z), LeafRow(canopy, g, y, x, zFrom, zTo - 1),
                  if Keep(canopy, x - g.x, y - g.y, zTo - 1 - g.z) then [Leaf(Vec3(x, y, zTo - 1))] else []);
    }
  }

  /** An exception within a row is the exception of the whole row. */
  lemma RowFailure(s: Cells, r: Reach, c: ChunkData, done: seq<Write>, canopy: Canopy, g: Vec3, y: int, x: int, zFrom: int,
                   z: int, zTo: int)
    requires z <= zTo
    requires ApplyAll(s, r, c, done + LeafRow(canopy, g, y, x, zFrom, z)).Err?
    ensures ApplyAll(s, r, c, done + LeafRow(canopy, g, y, x, zFrom, zTo)) ==
      ApplyAll(s, r, c, done + LeafRow(canopy, g, y, x, zFrom, z))
  {
    RowPrefix(canopy, g, y, x, zFrom, z, zTo);
    FailureOfPrefix(s, r, c, done, LeafRow(canopy, g, y, x, zFrom, z), LeafRow(canopy, g, y, x, zFrom, zTo));
  }

  /** A row extends its layer. */
  lemma LayerStep(done: seq<Write>, canopy: Canopy, g: Vec3, y: int, xFrom: int, x: int, zFrom: int, zTo: int)
    requires xFrom <= x
    ensures done + LeafLayer(canopy, g, y, xFrom, x, zFrom, zTo) + LeafRow(canopy, g, y, x, zFrom, zTo) ==
      done + LeafLayer(canopy, g, y, xFrom, x + 1, zFrom, zTo)
  {
  }

  /** A layer so far is a prefix of the whole layer. */
  lemma {:induction false} LayerPrefix(canopy: Canopy, g: Vec3, y: int, xFrom: int, x: int, xTo: int, zFrom: int,
                                       zTo: int)
    requires x <= xTo
    ensures LeafLayer(canopy, g, y, xFrom, x, zFrom, zTo) <= LeafLayer(canopy, g, y, xFrom, xTo, zFrom, zTo)
    decreases xTo - x
  {
    if x < xTo && xTo > xFrom {
      LayerPrefix(canopy, g, y, xFrom, x, xTo - 1, zFrom, zTo);
      PrefixGrows(LeafLayer(canopy, g, y, xFrom, x, zFrom, zTo), LeafLayer(canopy, g, y, xFrom, xTo - 1, zFrom, zTo),
                  LeafRow(canopy, g, y, xTo - 1, zFrom, zTo));
    }
  }

  /** An exception within a layer is the exception of the whole layer. */
  lemma LayerFailure(s: Cells, r: Reach, c: ChunkData, done: seq<Write>, canopy: Canopy, g: Vec3, y: int, xFrom: int, x: int,
                     xTo: int, zFrom: int, zTo: int)
    requires x <= xTo
    requires ApplyAll(s, r, c, done + LeafLayer(canopy, g, y, xFrom, x, zFrom, zTo)).Err?
    ensures ApplyAll(s, r, c, done + LeafLayer(canopy, g, y, xFrom, xTo, zFrom, zTo)) ==
      ApplyAll(s, r, c, done + LeafLayer(canopy, g, y, xFrom, x, zFrom, zTo))
  {
    LayerPrefix(canopy, g, y, xFrom, x, xTo, zFrom, zTo);
    FailureOfPrefix(s, r, c, done, LeafLayer(canopy, g, y, xFrom, x, zFrom, zTo), LeafLayer(canopy, g, y, xFrom, xTo, zFrom, zTo));
  }

  /** A layer extends its canopy. */
  lemma BoxStep(done: seq<Write>, canopy: Canopy, g: Vec3, yFrom: int, y: int, xFrom: int, xTo: int, zFrom: int,
                zTo: int)
    requires yFrom <= y
    ensures done + LeafBox(canopy, g, yFrom, y, xFrom, xTo, zFrom, zTo) + LeafLayer(canopy, g, y, xFrom, xTo, zFrom, zTo) ==
      done + LeafBox(canopy, g, yFrom, y + 1, xFrom, xTo, zFrom, zTo)
  {
  }

  /** A canopy so far is a prefix of the whole canopy. */
  lemma {:induction false} BoxPrefix(canopy: Canopy, g: Vec3, yFrom: int, y: int, yTo: int, xFrom: int, xTo: int,
                                     zFrom: int, zTo: int)
    requires y <= yTo
    ensures LeafBox(canopy, g, yFrom, y, xFrom, xTo, zFrom, zTo) <= LeafBox(canopy, g, yFrom, yTo, xFrom, xTo, zFrom, zTo)
    decreases yTo - y
  {
    if y < yTo && yTo > yFrom {
      BoxPrefix(canopy, g, yFrom, y, yTo - 1, xFrom, xTo, zFrom, zTo);
      PrefixGrows(LeafBox(canopy, g, yFrom, y, xFrom, xTo, zFrom, zTo), LeafBox(canopy, g, yFrom, yTo - 1, xFrom, xTo, zFrom, zTo),
                  LeafLayer(canopy, g, yTo - 1, xFrom, xTo, zFrom, zTo));
    }
  }

  /** An exception within a canopy is the exception of the whole canopy. */
  lemma BoxFailure(s: Cells, r: Reach, c: ChunkData, done: seq<Write>, canopy: Canopy, g: Vec3, yFrom: int, y: int, yTo: int,
                   xFrom: int, xTo: int, zFrom: int, zTo: int)
    requires y <= yTo
    requires ApplyAll(s, r, c, done + LeafBox(canopy, g, yFrom, y, xFrom, xTo, zFrom, zTo)).Err?
    ensures ApplyAll(s, r, c, done + LeafBox(canopy, g, yFrom, yTo, xFrom, xTo, zFrom, zTo)) ==
      ApplyAll(s, r, c, done + LeafBox(canopy, g, yFrom, y, xFrom, xTo, zFrom, zTo))
  {
    BoxPrefix(canopy, g, yFrom, y, yTo, xFrom, xTo, zFrom, zTo);
    FailureOfPrefix(s, r, c, done, LeafBox(canopy, g, yFrom, y, xFrom, xTo, zFrom, zTo),
                    LeafBox(canopy, g, yFrom, yTo, xFrom, xTo, zFrom, zTo));
  }

  /** A loop that starts with no writes so far holds what held before it. */
  lemma StartEmpty(s: Cells, r: Reach, c: ChunkData, now: Cells, done: seq<Write>, none: seq<Write>)
    requires none == [] && Holds(s, r, c, now, done)
    ensures Holds(s, r, c, now, done + none)
  {
    assert done + none == done;
  }

  /** After log y: on success the trunk so far has grown by one; an exception is the whole trunk's. */
  lemma TrunkNext(s: Cells, r: Reach, c: ChunkData, now: Cells, done: seq<Write>, g: Vec3, y: int, o: Outcome)
    requires 1 <= y <= TrunkHeight
    requires Continues(s, r, c, now, done + Trunk(g, y - 1) + [Put(Vec3(g.x, g.y + y, g.z), "log")], o)
    ensures o.Pass? ==> Holds(s, r, c, now, done + Trunk(g, y))
    ensures o.Fail? ==> Continues(s, r, c, now, done + Trunk(g, TrunkHeight), o)
  {
    TrunkStep(done, g, y);
    if o.Fail? {
      TrunkFailure(s, r, c, done, g, y);
    }
  }

  /** After the leaf at offset (x, y, z): on success the row so far has grown by it; an exception is the whole
      row's. */
  lemma RowNext(s: Cells, r: Reach, c: ChunkData, now: Cells, done: seq<Write>, canopy: Canopy, g: Vec3, y: int, x: int,
                zFrom: int, z: int, zTo: int, o: Outcome)
    requires zFrom <= z < zTo && Keep(canopy, x, y, z)
    requires Continues(s, r, c, now, done + LeafRow(canopy, g, g.y + y, g.x + x, g.z + zFrom, g.z + z)
                                       + [Write(Vec3(g.x + x, g.y + y, g.z + z), "oak_leaves", false)], o)
    ensures o.Pass? ==> Holds(s, r, c, now, done + LeafRow(canopy, g, g.y + y, g.x + x, g.z + zFrom, g.z + z + 1))
    ensures o.Fail? ==> Continues(s, r, c, now, done + LeafRow(canopy, g, g.y + y, g.x + x, g.z + zFrom, g.z + zTo), o)
  {
    RowStep(done, canopy, g, g.y + y, g.x + x, g.z + zFrom, g.z + z);
    if o.Fail? {
      RowFailure(s, r, c, done, canopy, g, g.y + y, g.x + x, g.z + zFrom, g.z + z + 1, g.z + zTo);
    }
  }

  /** A cell at offset (x, y, z) the canopy does not keep leaves the row so far as it was. */
  lemma RowSkip(canopy: Canopy, g: Vec3, y: int, x: int, zFrom: int, z: int)
    requires zFrom <= z && !Keep(canopy, x, y, z)
    ensures LeafRow(canopy, g, g.y + y, g.x + x, g.z + zFrom, g.z + z + 1) ==
      LeafRow(canopy, g, g.y + y, g.x + x, g.z + zFrom, g.z + z)
  {
  }

  /** After row x: on success the layer so far has grown by it; an exception is the whole layer's. */
  lemma LayerNext(s: Cells, r: Reach, c: ChunkData, now: Cells, done: seq<Write>, canopy: Canopy, g: Vec3, y: int, xFrom: int,
                  x: int, xTo: int, zFrom: int, zTo: int, o: Outcome)
    requires xFrom <= x < xTo
    requires Continues(s, r, c, now, done + LeafLayer(canopy, g, y, xFrom, x, zFrom, zTo) + LeafRow(canopy, g, y, x, zFrom, zTo), o)
    ensures o.Pass? ==> Holds(s, r, c, now, done + LeafLayer(canopy, g, y, xFrom, x + 1, zFrom, zTo))
    ensures o.Fail? ==> Continues(s, r, c, now, done + LeafLayer(canopy, g, y, xFrom, xTo, zFrom, zTo), o)
  {
    LayerStep(done, canopy, g, y, xFrom, x, zFrom, zTo);
    if o.Fail? {
      LayerFailure(s, r, c, done, canopy, g, y, xFrom, x + 1, xTo, zFrom, zTo);
    }
  }

  /** After layer y: on success the canopy so far has grown by it; an exception is the whole canopy's. */
  lemma BoxNext(s: Cells, r: Reach, c: ChunkData, now: Cells, done: seq<Write>, canopy: Canopy, g: Vec3, yFrom: int, y: int,
                yTo: int, xFrom: int, xTo: int, zFrom: int, zTo: int, o: Outcome)
    requires yFrom <= y < yTo
    requires Continues(s, r, c, now, done + LeafBox(canopy, g, yFrom, y, xFrom, xTo, zFrom, zTo)
                                       + LeafLayer(canopy, g, y, xFrom, xTo, zFrom, zTo), o)
    ensures o.Pass? ==> Holds(s, r, c, now, done + LeafBox(canopy, g, yFrom, y + 1, xFrom, xTo, zFrom, zTo))
    ensures o.Fail? ==> Continues(s, r, c, now, done + LeafBox(canopy, g, yFrom, yTo, xFrom, xTo, zFrom, zTo), o)
  {
    BoxStep(done, canopy, g, yFrom, y, xFrom, xTo, zFrom, zTo);
    if o.Fail? {
      BoxFailure(s, r, c, done, canopy, g, yFrom, y + 1, yTo, xFrom, xTo, zFrom, zTo);
    }
  }

  /** The stages of a concatenation are its prefixes, and it regroups. */
  lemma Stages(done: seq<Write>, a: seq<Write>, b: seq<Write>, d: seq<Write>)
    ensures a <= a + b + d && a + b <= a + b + d
    ensures done + a + b + d == done + (a + b + d) && done + a + b == done + (a + b)
  {
    assert (a + b + d)[..|a|] == a;
    assert (a + b + d)[..|a + b|] == a + b;
  }

  /** An exception after the first stage or after the first two is the exception of all three. */
  lemma StagesFailure(s: Cells, r: Reach, c: ChunkData, now: Cells, done: seq<Write>, a: seq<Write>, b: seq<Write>,
                      d: seq<Write>, o: Outcome)
    requires o.Fail?
    requires Continues(s, r, c, now, done + a, o) || Continues(s, r, c, now, done + a + b, o)
    ensures Continues(s, r, c, now, done + (a + b + d), o)
  {
    Stages(done, a, b, d);
    if Continues(s, r, c, now, done + a, o) {
      FailureOfPrefix(s, r, c, done, a, a + b + d);
    } else {
      FailureOfPrefix(s, r, c, done, a + b, a + b + d);
    }
  }

  // ---------------------------------------------------------------- GenerateTree
  // The loop variables are offsets from the ground block, as in the source; the leaf sequences they are proved
  // against range over the positions ground + offset.

  /** The trunk loop: "log" at 1 to trunkHeight blocks above the ground. */
  method PlaceTrunk(c: ChunkData, ghost s: Cells, ghost reach: Reach, ghost done: seq<Write>, g: Vec3) returns (r: Outcome)
    requires c.Valid() && c.world.Valid() && reach == ReachOf(c) && Holds(s, reach, c, CellsOf(c), done)
    modifies c.blocks, c.world.Arrays()
    ensures Continues(s, reach, c, CellsOf(c), done + Trunk(g, TrunkHeight), r)
  {
    StartEmpty(s, reach, c, CellsOf(c), done, Trunk(g, 0));
    var trunkHeight := TrunkHeight;
    var y := 1;
    while y <= trunkHeight
      invariant 1 <= y <= trunkHeight + 1
      invariant Holds(s, reach, c, CellsOf(c), done + Trunk(g, y - 1))
    {
      var blockPosition := Vec3(g.x, g.y + y, g.z);
      var o := WriteNext(c, s, done + Trunk(g, y - 1), Put(blockPosition, "log"));
      TrunkNext(s, reach, c, CellsOf(c), done, g, y, o);
      if o.Fail? {
        return o;
      }
      y := y + 1;
    }
    return Pass;
  }

  /** The body of the innermost leaf loop: the leaf at offset (x, y, z) when the canopy keeps that cell, nothing
      otherwise. */
  method PlaceLeaf(c: ChunkData, ghost s: Cells, ghost reach: Reach, ghost done: seq<Write>, canopy: Canopy, g: Vec3, y: int, x: int,
                   zFrom: int, z: int, zTo: int) returns (r: Outcome)
    requires c.Valid() && c.world.Valid() && reach == ReachOf(c) && zFrom <= z < zTo
    requires Holds(s, reach, c, CellsOf(c), done + LeafRow(canopy, g, g.y + y, g.x + x, g.z + zFrom, g.z + z))
    modifies c.blocks, c.world.Arrays()
    ensures r.Pass? ==> Holds(s, reach, c, CellsOf(c), done + LeafRow(canopy, g, g.y + y, g.x + x, g.z + zFrom, g.z + z + 1))
    ensures r.Fail? ==> Continues(s, reach, c, CellsOf(c), done + LeafRow(canopy, g, g.y + y, g.x + x, g.z + zFrom, g.z + zTo), r)
  {
    if !Keep(canopy, x, y, z) {
      RowSkip(canopy, g, y, x, zFrom, z);
      return Pass;
    }
    var blockPosition := Vec3(g.x + x, g.y + y, g.z + z);
    r := WriteNext(c, s, done + LeafRow(canopy, g, g.y + y, g.x + x, g.z + zFrom, g.z + z),
                   Write(blockPosition, "oak_leaves", false));
    RowNext(s, reach, c, CellsOf(c), done, canopy, g, y, x, zFrom, z, zTo, r);
  }

  /** The innermost leaf loop: z from zFrom up to zTo, skipping the cells the canopy does not keep. */
  method PlaceLeafRow(c: ChunkData, ghost s: Cells, ghost reach: Reach, ghost done: seq<Write>, canopy: Canopy, g: Vec3, y: int, x: int,
                      zFrom: int, zTo: int) returns (r: Outcome)
    requires c.Valid() && c.world.Valid() && reach == ReachOf(c) && Holds(s, reach, c, CellsOf(c), done) && zFrom <= zTo
    modifies c.blocks, c.world.Arrays()
    ensures Continues(s, reach, c, CellsOf(c), done + LeafRow(canopy, g, g.y + y, g.x + x, g.z + zFrom, g.z + zTo), r)
  {
    StartEmpty(s, reach, c, CellsOf(c), done, LeafRow(canopy, g, g.y + y, g.x + x, g.z + zFrom, g.z + zFrom));
    var z := zFrom;
    while z < zTo
      invariant zFrom <= z <= zTo
      invariant Holds(s, reach, c, CellsOf(c), done + LeafRow(canopy, g, g.y + y, g.x + x, g.z + zFrom, g.z + z))
    {
      var o := PlaceLeaf(c, s, reach, done, canopy, g, y, x, zFrom, z, zTo);
      if o.Fail? {
        return o;
      }
      z := z + 1;
    }
    return Pass;
  }

  /** One row of a layer, as a step of the middle leaf loop: the layer so far grows by row x, or the row's exception
      is the whole layer's. */
  method PlaceLayerRow(c: ChunkData, ghost s: Cells, ghost reach: Reach, ghost done: seq<Write>, canopy: Canopy, g: Vec3,
                       y: int, xFrom: int, x: int, xTo: int, zFrom: int, zTo: int) returns (r: Outcome)
    requires c.Valid() && c.world.Valid() && reach == ReachOf(c) && xFrom <= x < xTo && zFrom <= zTo
    requires Holds(s, reach, c, CellsOf(c), done + LeafLayer(canopy, g, g.y + y, g.x + xFrom, g.x + x, g.z + zFrom, g.z + zTo))
    modifies c.blocks, c.world.Arrays()
    ensures r.Pass? ==>
      Holds(s, reach, c, CellsOf(c), done + LeafLayer(canopy, g, g.y + y, g.x + xFrom, g.x + x + 1, g.z + zFrom, g.z + zTo))
    ensures r.Fail? ==>
      Continues(s, reach, c, CellsOf(c), done + LeafLayer(canopy, g, g.y + y, g.x + xFrom, g.x + xTo, g.z + zFrom, g.z + zTo), r)
  {
    r := PlaceLeafRow(c, s, reach, done + LeafLayer(canopy, g, g.y + y, g.x + xFrom, g.x + x, g.z + zFrom, g.z + zTo),
                      canopy, g, y, x, zFrom, zTo);
    LayerNext(s, reach, c, CellsOf(c), done, canopy, g, g.y + y, g.x + xFrom, g.x + x, g.x + xTo, g.z + zFrom, g.z + zTo, r);
  }

  /** The middle leaf loop: x from xFrom up to xTo, one row each. */
  method PlaceLeafLayer(c: ChunkData, ghost s: Cells, ghost reach: Reach, ghost done: seq<Write>, canopy: Canopy, g: Vec3, y: int,
                        xFrom: int, xTo: int, zFrom: int, zTo: int) returns (r: Outcome)
    requires c.Valid() && c.world.Valid() && reach == ReachOf(c) && Holds(s, reach, c, CellsOf(c), done) && xFrom <= xTo && zFrom <= zTo
    modifies c.blocks, c.world.Arrays()
    ensures Continues(s, reach, c, CellsOf(c),
      done + LeafLayer(canopy, g, g.y + y, g.x + xFrom, g.x + xTo, g.z + zFrom, g.z + zTo), r)
  {
    StartEmpty(s, reach, c, CellsOf(c), done, LeafLayer(canopy, g, g.y + y, g.x + xFrom, g.x + xFrom, g.z + zFrom, g.z + zTo));
    var x := xFrom;
    while x < xTo
      invariant xFrom <= x <= xTo
      invariant Holds(s, reach, c, CellsOf(c), done + LeafLayer(canopy, g, g.y + y, g.x + xFrom, g.x + x, g.z + zFrom, g.z + zTo))
    {
      var o := PlaceLayerRow(c, s, reach, done, canopy, g, y, xFrom, x, xTo, zFrom, zTo);
      if o.Fail? {
        return o;
      }
      x := x + 1;
    }
    return Pass;
  }

  /** One layer of a canopy, as a step of the outer leaf loop: the canopy so far grows by layer y, or the layer's
      exception is the whole canopy's. */
  method PlaceBoxLayer(c: ChunkData, ghost s: Cells, ghost reach: Reach, ghost done: seq<Write>, canopy: Canopy, g: Vec3,
                       yFrom: int, y: int, yTo: int, from: int, to: int) returns (r: Outcome)
    requires c.Valid() && c.world.Valid() && reach == ReachOf(c) && yFrom <= y < yTo && from <= to
    requires Holds(s, reach, c, CellsOf(c), done + LeafBox(canopy, g, g.y + yFrom, g.y + y, g.x + from, g.x + to, g.z + from, g.z + to))
    modifies c.blocks, c.world.Arrays()
    ensures r.Pass? ==>
      Holds(s, reach, c, CellsOf(c), done + LeafBox(canopy, g, g.y + yFrom, g.y + y + 1, g.x + from, g.x + to, g.z + from, g.z + to))
    ensures r.Fail? ==>
      Continues(s, reach, c, CellsOf(c), done + LeafBox(canopy, g, g.y + yFrom, g.y + yTo, g.x + from, g.x + to, g.z + from, g.z + to), r)
  {
    r := PlaceLeafLayer(c, s, reach, done + LeafBox(canopy, g, g.y + yFrom, g.y + y, g.x + from, g.x + to, g.z + from, g.z + to),
                        canopy, g, y, from, to, from, to);
    BoxNext(s, reach, c, CellsOf(c), done, canopy, g, g.y + yFrom, g.y + y, g.y + yTo, g.x + from, g.x + to, g.z + from, g.z + to, r);
  }

  /** The outer leaf loop: y from yFrom up to yTo, one layer each over the square from `from` up to `to`. */
  method PlaceLeafBox(c: ChunkData, ghost s: Cells, ghost reach: Reach, ghost done: seq<Write>, canopy: Canopy, g: Vec3, yFrom: int,
                      yTo: int, from: int, to: int) returns (r: Outcome)
    requires c.Valid() && c.world.Valid() && reach == ReachOf(c) && Holds(s, reach, c, CellsOf(c), done) && yFrom <= yTo && from <= to
    modifies c.blocks, c.world.Arrays()
    ensures Continues(s, reach, c, CellsOf(c),
      done + LeafBox(canopy, g, g.y + yFrom, g.y + yTo, g.x + from, g.x + to, g.z + from, g.z + to), r)
  {
    StartEmpty(s, reach, c, CellsOf(c), done, LeafBox(canopy, g, g.y + yFrom, g.y + yFrom, g.x + from, g.x + to, g.z + from, g.z + to));
    var y := yFrom;
    while y < yTo
      invariant yFrom <= y <= yTo
      invariant Holds(s, reach, c, CellsOf(c), done + LeafBox(canopy, g, g.y + yFrom, g.y + y, g.x + from, g.x + to, g.z + from, g.z + to))
    {
      var o := PlaceBoxLayer(c, s, reach, done, canopy, g, yFrom, y, yTo, from, to);
      if o.Fail? {
        return o;
      }
      y := y + 1;
    }
    return Pass;
  }

  /** GenerateTree: the trunk, then the lower canopy, then the upper canopy, the first exception ending it. */
  method GenerateTree(c: ChunkData, ghost s: Cells, ghost reach: Reach, ghost done: seq<Write>, g: Vec3) returns (r: Outcome)
    requires c.Valid() && c.world.Valid() && reach == ReachOf(c) && Holds(s, reach, c, CellsOf(c), done)
    modifies c.blocks, c.world.Arrays()
    ensures Continues(s, reach, c, CellsOf(c), done + TreeWrites(g), r)
  {
    var trunkHeight := TrunkHeight;
    r := PlaceTrunk(c, s, reach, done, g);
    if r.Fail? {
      StagesFailure(s, reach, c, CellsOf(c), done, Trunk(g, TrunkHeight), LowerCanopy(g), UpperCanopy(g), r);
      return;
    }
    r := PlaceLeafBox(c, s, reach, done + Trunk(g, TrunkHeight), Lower, g, trunkHeight - 2, trunkHeight, -2, 3);
    if r.Fail? {
      StagesFailure(s, reach, c, CellsOf(c), done, Trunk(g, TrunkHeight), LowerCanopy(g), UpperCanopy(g), r);
      return;
    }
    r := PlaceLeafBox(c, s, reach, done + Trunk(g, TrunkHeight) + LowerCanopy(g), Upper, g, trunkHeight, trunkHeight + 2, -1, 2);
    Stages(done, Trunk(g, TrunkHeight), LowerCanopy(g), UpperCanopy(g));
  }

  // ---------------------------------------------------------------- TryHandling

  /** The ground block of a tree position: the column at the ground's local y. */
  function GroundBlock(chunkOrigin: Vec3, blockPosition: Vec3, groundPosition: int): Vec3 {
    Vec3(blockPosition.x, groundPosition - chunkOrigin.y, blockPosition.z)
  }

  /** The writes of a tree grown on the ground block g: g becomes dirt, then the tree. */
  function GrowthWrites(g: Vec3): seq<Write> {
    [Put(g, "dirt")] + TreeWrites(g)
  }

  /** On a tree position: the ground block is read (which may throw), then the column is handled, with a tree only
      on grass or dirt. */
  ghost function Plant(s: Cells, r: Reach, c: ChunkData, g: Vec3): Result<Decision>
  {
    match ReadAt(s, r, c, g)
    case Err(e) => Err(e)
    case Ok(blockId) =>
      if blockId == Some("grass") || blockId == Some("dirt") then Ok(Decision(true, GrowthWrites(g)))
      else Ok(Decision(true, []))
  }

  /** Declined for a chunk below 0 or a ground above the height limit; a chunk without tree data throws; declined
      off the tree positions; planted on them. */
  ghost function Decide(settings: Settings, treeData: Option<TreeData>, s: Cells, r: Reach, c: ChunkData, blockPosition: Vec3,
                        groundPosition: int): Result<Decision>
  {
    if c.worldPosition.y < 0 || groundPosition as real > settings.terrainHeightLimit then Ok(Declined)
    else if treeData.None? then Err(NullReference)
    else if Vec2(blockPosition.x, blockPosition.z) !in treeData.value.treePositions then Ok(Declined)
    else Plant(s, r, c, GroundBlock(c.worldPosition, blockPosition, groundPosition))
  }

  /** The growth step of TryHandling: the ground block becomes dirt, then the tree is generated above it. */
  method GrowTree(c: ChunkData, g: Vec3) returns (r: Outcome)
    requires c.Valid() && c.world.Valid()
    modifies c.blocks, c.world.Arrays()
    ensures Continues(old(CellsOf(c)), ReachOf(c), c, CellsOf(c), GrowthWrites(g), r)
  {
    ghost var s := CellsOf(c);
    StartEmpty(s, ReachOf(c), c, s, [], []);
    r := WriteNext(c, s, [], Put(g, "dirt"));
    FirstWrite(s, ReachOf(c), c, CellsOf(c), Put(g, "dirt"), TreeWrites(g), r);
    if r.Fail? {
      return;
    }
    r := GenerateTree(c, s, ReachOf(c), [Put(g, "dirt")], g);
  }

  /** After a first write: its exception is that of any sequence it starts. */
  lemma FirstWrite(s: Cells, r: Reach, c: ChunkData, now: Cells, w: Write, rest: seq<Write>, o: Outcome)
    requires Continues(s, r, c, now, [] + [w], o)
    ensures o.Pass? ==> Holds(s, r, c, now, [w])
    ensures o.Fail? ==> Continues(s, r, c, now, [w] + rest, o)
  {
    assert [] + [w] == [w];
    if o.Fail? {
      ApplyAllFailureSticks(s, r, c, [w], rest);
    }
  }

  /** A run that returns true after the writes `ws` is reported by their outcome. */
  lemma ReportsOutcome(s: Cells, r: Reach, c: ChunkData, now: Cells, ws: seq<Write>, o: Outcome)
    requires Continues(s, r, c, now, ws, o)
    ensures Reports(if o.Fail? then Err(o.error) else Ok(true), now, Run(s, r, c, Ok(Decision(true, ws))))
  {
  }

  /** The planting step of TryHandling: read the ground block, and grow a tree when it is grass or dirt. */
  method PlantAt(c: ChunkData, g: Vec3) returns (r: Result<bool>)
    requires c.Valid() && c.world.Valid()
    modifies c.blocks, c.world.Arrays()
    ensures Reports(r, CellsOf(c), Run(old(CellsOf(c)), ReachOf(c), c, Plant(old(CellsOf(c)), ReachOf(c), c, g)))
  {
    ghost var s := CellsOf(c);
    ReadAtAgrees(c, g);
    var blockId := GetBlockIdInChunk(c, g);
    if blockId.Err? {
      return Err(blockId.error);
    }
    if blockId.value == Some("grass") || blockId.value == Some("dirt") {
      var o := GrowTree(c, g);
      ReportsOutcome(s, ReachOf(c), c, CellsOf(c), GrowthWrites(g), o);
      if o.Fail? {
        return Err(o.error);
      }
      return Ok(true);
    }
    assert Plant(s, ReachOf(c), c, g) == Ok(Decision(true, []));
    return Ok(true);
  }

  /** TryHandling: the result and the new cells are those of the decision's run. */
  method TryHandling(c: ChunkData, settings: Settings, blockPosition: Vec3, groundPosition: int)
    returns (r: Result<bool>)
    requires c.Valid() && c.world.Valid()
    modifies c.blocks, c.world.Arrays()
    ensures Reports(r, CellsOf(c), Run(old(CellsOf(c)), ReachOf(c), c, Decide(settings, c.treeData, old(CellsOf(c)), ReachOf(c), c, blockPosition, groundPosition)))
  {
    ghost var s := CellsOf(c);
    ghost var reach := ReachOf(c);
    ghost var d := Decide(settings, c.treeData, s, reach, c, blockPosition, groundPosition);
    if c.worldPosition.y < 0 || groundPosition as real > settings.terrainHeightLimit {
      assert d == Ok(Declined) && Run(s, reach, c, d) == Ok((false, s));
      return Ok(false);
    }
    if c.treeData.None? {
      assert d == Err(NullReference) && Run(s, reach, c, d) == Err(NullReference);
      return Err(NullReference);
    }
    if Vec2(blockPosition.x, blockPosition.z) !in c.treeData.value.treePositions {
      assert d == Ok(Declined) && Run(s, reach, c, d) == Ok((false, s));
      return Ok(false);
    }
    var groundBlockPosition := Vec3(blockPosition.x, groundPosition - c.worldPosition.y, blockPosition.z);
    assert d == Plant(s, ReachOf(c), c, groundBlockPosition);
    r := PlantAt(c, groundBlockPosition);
  }
}
