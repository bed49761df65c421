/** The pure parts of BlockHelper (BlockRendererHelper.cs): the six directions in meshing order, the atlas tile of a
    side, the four corners of a side, and the rule that decides whether a side is drawn and into which buffer. */
module BlockFaces {
  import opened Wrappers
  import opened Vectors
  import opened BlockRegistry
  import opened MeshBuffers

  /** The order in which UpdateBlockMeshData visits the sides of a block. */
  const Directions: seq<Direction> := [Up, Down, Right, Left, Forward, Back]

  /** The six directions, each once. */
  lemma DirectionsArePermutation()
    ensures |Directions| == 6
    ensures forall d: Direction :: d in Directions
    ensures forall i, j :: 0 <= i < j < 6 ==> Directions[i] != Directions[j]
  {
    forall d: Direction ensures d in Directions {
      match d
      case Up => assert Directions[0] == d;
      case Down => assert Directions[1] == d;
      case Right => assert Directions[2] == d;
      case Left => assert Directions[3] == d;
      case Forward => assert Directions[4] == d;
      case Back => assert Directions[5] == d;
    }
  }

  /** GetBlockSideTexturePositionByDirection: the top tile for Up, the bottom tile for Down, the side tile else. */
  function SideTile(direction: Direction, blockData: BlockData): (r: Vec2)
    ensures direction == Up ==> r == blockData.textures.topOffset
    ensures direction == Down ==> r == blockData.textures.bottomOffset
    ensures direction !in {Up, Down} ==> r == blockData.textures.sideOffset
  {
    match direction
    case Up => blockData.textures.topOffset
    case Down => blockData.textures.bottomOffset
    case _ => blockData.textures.sideOffset
  }

  /** GetBlockSideUVs: the four corners of the side's tile, in the order the vertices are emitted. */
  function SideUvs(direction: Direction, blockData: BlockData): (r: seq<Uv>)
    ensures |r| == 4
    ensures forall k :: 0 <= k < 4 ==> r[k] == Uv(SideTile(direction, blockData), k)
  {
    var t := SideTile(direction, blockData);
    [Uv(t, 0), Uv(t, 1), Uv(t, 2), Uv(t, 3)]
  }

  /** A block's centre in half-block units. */
  function Centre(local: Vec3): Vec3 {
    Vec3(2 * local.x, 2 * local.y, 2 * local.z)
  }

  /** The corner offsets (in half-block units) of GetBlockSideVertices, in emission order. */
  function CornerOffsets(direction: Direction): seq<Vec3> {
    match direction
    case Right => [Vec3(1, -1, -1), Vec3(1, 1, -1), Vec3(1, 1, 1), Vec3(1, -1, 1)]
    case Left => [Vec3(-1, -1, 1), Vec3(-1, 1, 1), Vec3(-1, 1, -1), Vec3(-1, -1, -1)]
    case Down => [Vec3(-1, -1, -1), Vec3(1, -1, -1), Vec3(1, -1, 1), Vec3(-1, -1, 1)]
    case Up => [Vec3(-1, 1, 1), Vec3(1, 1, 1), Vec3(1, 1, -1), Vec3(-1, 1, -1)]
    case Forward => [Vec3(1, -1, 1), Vec3(1, 1, 1), Vec3(-1, 1, 1), Vec3(-1, -1, 1)]
    case Back => [Vec3(-1, -1, -1), Vec3(-1, 1, -1), Vec3(1, 1, -1), Vec3(1, -1, -1)]
  }

  /** GetBlockSideVertices, in half-block units. */
  function SideVertices(direction: Direction, local: Vec3): (r: seq<Vec3>)
    ensures |r| == 4
  {
    var o := CornerOffsets(direction);
    [Centre(local).Plus(o[0]), Centre(local).Plus(o[1]), Centre(local).Plus(o[2]), Centre(local).Plus(o[3])]
  }

  predicate IsPlusMinusOne(v: int) { v == 1 || v == -1 }

  /** Every corner of a side sits half a block out along the side's direction and half a block either way on the
      other two axes; the four corners are distinct. */
  lemma SideVerticesOnFace(direction: Direction, local: Vec3)
    ensures forall k :: 0 <= k < 4 ==>
      var o := SideVertices(direction, local)[k].Minus(Centre(local));
      var n := ToVector3Int(direction);
      && IsPlusMinusOne(o.x) && IsPlusMinusOne(o.y) && IsPlusMinusOne(o.z)
      && (n.x != 0 ==> o.x == n.x) && (n.y != 0 ==> o.y == n.y) && (n.z != 0 ==> o.z == n.z)
    ensures forall i, j :: 0 <= i < j < 4 ==> SideVertices(direction, local)[i] != SideVertices(direction, local)[j]
  {
    match direction
    case Right =>
    case Left =>
    case Down =>
    case Up =>
    case Forward =>
    case Back =>
  }

  /** The face SetBlockMeshData appends for one side of a block. */
  function SideFace(direction: Direction, blockData: BlockData, local: Vec3): (f: Face)
    ensures f.Valid() && f.isCollider == blockData.isCollidable
  {
    Face(SideVertices(direction, local), SideUvs(direction, blockData), blockData.isCollidable)
  }

  /** Where a side goes: nowhere, the opaque buffer or the transparent buffer. */
  datatype FaceTarget = NoFace | OpaqueFace | TransparentFace

  /** The culling rule of UpdateBlockMeshData for one side, given the neighbour's data, or None when the neighbour
      is in no loaded chunk. */
  function FaceTargetOf(blockData: BlockData, neighbour: Option<BlockData>): FaceTarget {
    match neighbour
    case None => NoFace
    case Some(n) =>
      if blockData.isTransparent && !n.isSolid then TransparentFace
      else if !n.isSolid || (!blockData.isTransparent && n.isTransparent) then OpaqueFace
      else NoFace
  }

  /** The rule, stated per outcome: a transparent block draws exactly the sides facing a loaded non-solid
      neighbour, into the transparent buffer, and never into the opaque one; an opaque block draws, into the opaque
      buffer, exactly the sides facing a loaded neighbour that is non-solid or transparent. */
  lemma FaceTargetSpec(blockData: BlockData, neighbour: Option<BlockData>)
    ensures FaceTargetOf(blockData, neighbour) == TransparentFace <==>
      blockData.isTransparent && neighbour.Some? && !neighbour.value.isSolid
    ensures FaceTargetOf(blockData, neighbour) == OpaqueFace <==>
      !blockData.isTransparent && neighbour.Some? && (!neighbour.value.isSolid || neighbour.value.isTransparent)
    ensures neighbour.None? ==> FaceTargetOf(blockData, neighbour) == NoFace
  {
  }

  /** Two opaque solid blocks hide the side between them. */
  lemma SolidNeighboursHideSide(blockData: BlockData, n: BlockData)
    requires !blockData.isTransparent && n.isSolid && !n.isTransparent
    ensures FaceTargetOf(blockData, Some(n)) == NoFace
  {
  }
}
