/** UpdateBlockMeshData of BlockHelper (BlockRendererHelper.cs): the sides of one block that face a loaded
    neighbour which does not hide them, appended to the opaque or the nested transparent mesh data. */
module BlockMesh {
  import opened Wrappers
  import opened Vectors
  import opened ChunkMath
  import opened BlockRegistry
  import opened MeshBuffers
  import opened BlockFaces
  import opened WorldState
  import opened ChunkAccess

  /** The neighbour's block data as UpdateBlockMeshData finds it: its id through the chunk, None for a null id,
      and the block data stored under that id (which throws for an id that is not a key). */
  function NeighbourData(c: ChunkData, neighbourPosition: Vec3): (r: Result<Option<BlockData>>)
    requires c.Valid() && c.world.Valid()
    reads c.blocks, c.world, c.world.Arrays(), c.world.blockManager
    ensures GetBlockIdInChunk(c, neighbourPosition) == Ok(None) ==> r == Ok(None)
    ensures GetBlockIdInChunk(c, neighbourPosition).Err? ==> r == Err(GetBlockIdInChunk(c, neighbourPosition).error)
    ensures r.Ok? && r.value.Some? ==>
      var id := GetBlockIdInChunk(c, neighbourPosition);
      && id.Ok? && id.value.Some? && id.value.value in c.world.blockManager.blockDatas
      && r.value.value == c.world.blockManager.blockDatas[id.value.value]
  {
    match GetBlockIdInChunk(c, neighbourPosition)
    case Err(e) => Err(e)
    case Ok(None) => Ok(None)
    case Ok(Some(id)) =>
      match GetBlockDataById(c.world.blockManager.View(), Some(id))
      case Err(e) => Err(e)
      case Ok(n) => Ok(Some(n))
  }

  /** Where each side in `dirs` goes, in order, or the first exception raised while looking at the neighbours. */
  function SideTargets(c: ChunkData, blockData: BlockData, local: Vec3, dirs: seq<Direction>)
    : (r: Result<seq<FaceTarget>>)
    requires c.Valid() && c.world.Valid()
    reads c.blocks, c.world, c.world.Arrays(), c.world.blockManager
    ensures r.Ok? ==> |r.value| == |dirs|
    decreases |dirs|
  {
    if dirs == [] then Ok([])
    else
      match SideTargets(c, blockData, local, dirs[..|dirs| - 1])
      case Err(e) => Err(e)
      case Ok(ts) =>
        match NeighbourData(c, local.Plus(ToVector3Int(dirs[|dirs| - 1])))
        case Err(e) => Err(e)
        case Ok(n) => Ok(ts + [FaceTargetOf(blockData, n)])
  }

  /** Without an exception there is one target per side, the culling rule applied to that side's neighbour; an
      exception comes from some side's neighbour. */
  lemma {:induction false} SideTargetsSpec(c: ChunkData, blockData: BlockData, local: Vec3, dirs: seq<Direction>)
    requires c.Valid() && c.world.Valid()
    ensures var r := SideTargets(c, blockData, local, dirs);
      && (r.Ok? ==> |r.value| == |dirs| && forall k :: 0 <= k < |dirs| ==>
           var n := NeighbourData(c, local.Plus(ToVector3Int(dirs[k])));
           n.Ok? && r.value[k] == FaceTargetOf(blockData, n.value))
      && (r.Err? ==> exists k :: 0 <= k < |dirs| && NeighbourData(c, local.Plus(ToVector3Int(dirs[k]))).Err?)
    decreases |dirs|
  {
    if dirs != [] {
      var n := |dirs| - 1;
      SideTargetsSpec(c, blockData, local, dirs[..n]);
      var r := SideTargets(c, blockData, local, dirs);
      if r.Ok? {
        forall k | 0 <= k < |dirs|
          ensures var nd := NeighbourData(c, local.Plus(ToVector3Int(dirs[k])));
            nd.Ok? && r.value[k] == FaceTargetOf(blockData, nd.value)
        {
          if k < n {
            assert dirs[..n][k] == dirs[k];
          }
        }
      } else if SideTargets(c, blockData, local, dirs[..n]).Err? {
        var k :| 0 <= k < n && NeighbourData(c, local.Plus(ToVector3Int(dirs[..n][k]))).Err?;
        assert dirs[..n][k] == dirs[k];
      }
    }
  }

  /** One more side: its neighbour is looked at only when the earlier sides raised nothing. */
  lemma SideTargetsSnoc(c: ChunkData, blockData: BlockData, local: Vec3, dirs: seq<Direction>, d: Direction)
    requires c.Valid() && c.world.Valid()
    ensures var before := SideTargets(c, blockData, local, dirs);
      var n := NeighbourData(c, local.Plus(ToVector3Int(d)));
      SideTargets(c, blockData, local, dirs + [d]) ==
        if before.Err? then before
        else if n.Err? then Err(n.error)
        else Ok(before.value + [FaceTargetOf(blockData, n.value)])
  {
    assert (dirs + [d])[..|dirs|] == dirs;
  }

  /** The first exception ends the walk: once the neighbour of side k throws, every longer prefix throws it. */
  lemma {:induction false} SideTargetsStop(c: ChunkData, blockData: BlockData, local: Vec3, dirs: seq<Direction>,
                                            k: nat, j: nat)
    requires c.Valid() && c.world.Valid() && k < j <= |dirs|
    requires SideTargets(c, blockData, local, dirs[..k]).Ok?
    requires NeighbourData(c, local.Plus(ToVector3Int(dirs[k]))).Err?
    ensures SideTargets(c, blockData, local, dirs[..j]) == Err(NeighbourData(c, local.Plus(ToVector3Int(dirs[k]))).error)
    decreases j
  {
    assert dirs[..j][..j - 1] == dirs[..j - 1];
    if j > k + 1 {
      SideTargetsStop(c, blockData, local, dirs, k, j - 1);
    }
  }

  /** The faces of the sides whose target is `want`, in the order of `dirs`. */
  function FacesFor(blockData: BlockData, local: Vec3, dirs: seq<Direction>, ts: seq<FaceTarget>, want: FaceTarget)
    : seq<Face>
    requires |ts| == |dirs|
    decreases |dirs|
  {
    if dirs == [] then []
    else
      var n := |dirs| - 1;
      FacesFor(blockData, local, dirs[..n], ts[..n], want) + (if ts[n] == want then [SideFace(dirs[n], blockData, local)] else [])
  }

  /** Every face kept is the face of a side with that target. */
  lemma {:induction false} FacesForSound(blockData: BlockData, local: Vec3, dirs: seq<Direction>, ts: seq<FaceTarget>,
                                          want: FaceTarget)
    requires |ts| == |dirs|
    ensures forall f :: f in FacesFor(blockData, local, dirs, ts, want) ==>
      exists k :: 0 <= k < |dirs| && ts[k] == want && f == SideFace(dirs[k], blockData, local)
    decreases |dirs|
  {
    if dirs != [] {
      var n := |dirs| - 1;
      var ds, us := dirs[..n], ts[..n];
      FacesForSound(blockData, local, ds, us, want);
      var fs, prev := FacesFor(blockData, local, dirs, ts, want), FacesFor(blockData, local, ds, us, want);
      forall f | f in fs
        ensures exists k :: 0 <= k < |dirs| && ts[k] == want && f == SideFace(dirs[k], blockData, local)
      {
        if f in prev {
          var k :| 0 <= k < n && us[k] == want && f == SideFace(ds[k], blockData, local);
          assert ts[k] == want && dirs[k] == ds[k];
        } else {
          assert ts[n] == want && f == SideFace(dirs[n], blockData, local);
        }
      }
    }
  }

  /** The face of every side with that target is kept. */
  lemma {:induction false} FacesForComplete(blockData: BlockData, local: Vec3, dirs: seq<Direction>, ts: seq<FaceTarget>,
                                             want: FaceTarget)
    requires |ts| == |dirs|
    ensures forall k :: 0 <= k < |dirs| && ts[k] == want ==>
      SideFace(dirs[k], blockData, local) in FacesFor(blockData, local, dirs, ts, want)
    decreases |dirs|
  {
    if dirs != [] {
      var n := |dirs| - 1;
      var ds, us := dirs[..n], ts[..n];
      FacesForComplete(blockData, local, ds, us, want);
      var fs := FacesFor(blockData, local, dirs, ts, want);
      forall k | 0 <= k < |dirs| && ts[k] == want ensures SideFace(dirs[k], blockData, local) in fs {
        if k < n {
          assert us[k] == ts[k] && ds[k] == dirs[k];
        }
      }
    }
  }

  /** At most one face per side. */
  lemma {:induction false} FacesForLength(blockData: BlockData, local: Vec3, dirs: seq<Direction>, ts: seq<FaceTarget>,
                                           want: FaceTarget)
    requires |ts| == |dirs|
    ensures |FacesFor(blockData, local, dirs, ts, want)| <= |dirs|
    decreases |dirs|
  {
    if dirs != [] {
      FacesForLength(blockData, local, dirs[..|dirs| - 1], ts[..|dirs| - 1], want);
    }
  }

  /** The faces kept are those of exactly the sides with that target, each a whole face, at most one per side. */
  lemma FacesForSpec(blockData: BlockData, local: Vec3, dirs: seq<Direction>, ts: seq<FaceTarget>, want: FaceTarget)
    requires |ts| == |dirs|
    ensures |FacesFor(blockData, local, dirs, ts, want)| <= |dirs|
    ensures forall f :: f in FacesFor(blockData, local, dirs, ts, want) ==> f.Valid()
    ensures forall k :: 0 <= k < |dirs| && ts[k] == want ==>
      SideFace(dirs[k], blockData, local) in FacesFor(blockData, local, dirs, ts, want)
    ensures forall f :: f in FacesFor(blockData, local, dirs, ts, want) ==>
      exists k :: 0 <= k < |dirs| && ts[k] == want && f == SideFace(dirs[k], blockData, local)
  {
    FacesForLength(blockData, local, dirs, ts, want);
    FacesForComplete(blockData, local, dirs, ts, want);
    FacesForSound(blockData, local, dirs, ts, want);
  }

  /** The faces one block contributes, opaque and transparent: none for a null or "air" id; else the block data
      under the id (which throws for an id that is not a key) and its visible sides. */
  function BlockFacesOf(c: ChunkData, blockId: Option<string>, local: Vec3): Result<(seq<Face>, seq<Face>)>
    requires c.Valid() && c.world.Valid()
    reads c.blocks, c.world, c.world.Arrays(), c.world.blockManager
  {
    if blockId == None || blockId == Some("air") then Ok(([], []))
    else
      match GetBlockDataById(c.world.blockManager.View(), blockId)
      case Err(e) => Err(e)
      case Ok(blockData) =>
        match SideTargets(c, blockData, local, Directions)
        case Err(e) => Err(e)
        case Ok(ts) =>
          Ok((FacesFor(blockData, local, Directions, ts, OpaqueFace), FacesFor(blockData, local, Directions, ts, TransparentFace)))
  }

  /** A block contributes at most six faces in all, and all of its faces are whole faces. */
  lemma BlockFacesOfBound(c: ChunkData, blockId: Option<string>, local: Vec3)
    requires c.Valid() && c.world.Valid()
    ensures BlockFacesOf(c, blockId, local).Ok? ==>
      var (fo, ft) := BlockFacesOf(c, blockId, local).value;
      && |fo| + |ft| <= 6
      && (forall f :: f in fo ==> f.Valid()) && (forall f :: f in ft ==> f.Valid())
  {
    if blockId != None && blockId != Some("air") {
      var bd := GetBlockDataById(c.world.blockManager.View(), blockId);
      if bd.Ok? {
        var ts := SideTargets(c, bd.value, local, Directions);
        if ts.Ok? {
          FacesForSpec(bd.value, local, Directions, ts.value, OpaqueFace);
          FacesForSpec(bd.value, local, Directions, ts.value, TransparentFace);
          FacesSplit(bd.value, local, Directions, ts.value);
        }
      }
    }
  }

  /** No side goes to both buffers: the opaque and transparent faces together number at most the sides. */
  lemma {:induction false} FacesSplit(blockData: BlockData, local: Vec3, dirs: seq<Direction>, ts: seq<FaceTarget>)
    requires |ts| == |dirs|
    ensures |FacesFor(blockData, local, dirs, ts, OpaqueFace)| + |FacesFor(blockData, local, dirs, ts, TransparentFace)|
      <= |dirs|
    decreases |dirs|
  {
    if dirs != [] {
      var n := |dirs| - 1;
      FacesSplit(blockData, local, dirs[..n], ts[..n]);
    }
  }

  /** A block whose six neighbours are all loaded, solid and opaque draws no side; a transparent block draws none of
      its sides into the opaque mesh. */
  lemma HiddenBlockDrawsNothing(blockData: BlockData, local: Vec3, ts: seq<FaceTarget>)
    requires |ts| == |Directions|
    ensures (forall k :: 0 <= k < |ts| ==> ts[k] == NoFace) ==>
      FacesFor(blockData, local, Directions, ts, OpaqueFace) == []
      && FacesFor(blockData, local, Directions, ts, TransparentFace) == []
  {
    if forall k :: 0 <= k < |ts| ==> ts[k] == NoFace {
      FacesForSpec(blockData, local, Directions, ts, OpaqueFace);
      FacesForSpec(blockData, local, Directions, ts, TransparentFace);
      NoFacesWhenNoneWanted(blockData, local, Directions, ts, OpaqueFace);
      NoFacesWhenNoneWanted(blockData, local, Directions, ts, TransparentFace);
    }
  }

  lemma {:induction false} NoFacesWhenNoneWanted(blockData: BlockData, local: Vec3, dirs: seq<Direction>,
                                                  ts: seq<FaceTarget>, want: FaceTarget)
    requires |ts| == |dirs| && forall k :: 0 <= k < |ts| ==> ts[k] != want
    ensures FacesFor(blockData, local, dirs, ts, want) == []
    decreases |dirs|
  {
    if dirs != [] {
      var n := |dirs| - 1;
      NoFacesWhenNoneWanted(blockData, local, dirs[..n], ts[..n], want);
    }
  }

  /** One more side: its face is pushed after the earlier ones exactly when its target is `want`. */
  lemma PushFacesStep(b: Buffers, blockData: BlockData, local: Vec3, dirs: seq<Direction>, ts: seq<FaceTarget>,
                      d: Direction, t: FaceTarget, want: FaceTarget)
    requires |ts| == |dirs|
    ensures PushFaces(b, FacesFor(blockData, local, dirs + [d], ts + [t], want)) ==
      if t == want then PushFace(PushFaces(b, FacesFor(blockData, local, dirs, ts, want)), SideFace(d, blockData, local))
      else PushFaces(b, FacesFor(blockData, local, dirs, ts, want))
  {
    assert (dirs + [d])[..|dirs|] == dirs;
    assert (ts + [t])[..|ts|] == ts;
    var before := FacesFor(blockData, local, dirs, ts, want);
    if t == want {
      var face := SideFace(d, blockData, local);
      PushFacesAppend(b, before, [face]);
      assert PushFaces(PushFaces(b, before), [face]) == PushFace(PushFaces(b, before), face);
    } else {
      assert before + [] == before;
    }
  }

  /** One side of SetBlockMeshData's caller: look up the neighbour, then append the side's face to the buffer the
      culling rule picks, if any. */
  method DrawSide(meshData: MeshData, transparent: MeshData, c: ChunkData, blockData: BlockData, local: Vec3,
                  direction: Direction) returns (r: Result<FaceTarget>)
    requires c.Valid() && c.world.Valid() && transparent != meshData
    modifies meshData, transparent
    ensures meshData.transparentMeshData == old(meshData.transparentMeshData)
    ensures var n := NeighbourData(c, local.Plus(ToVector3Int(direction)));
      && (n.Err? ==> r == Err(n.error))
      && (n.Ok? ==> r == Ok(FaceTargetOf(blockData, n.value)))
    ensures r.Ok? ==>
      && meshData.Contents() ==
        (if r.value == OpaqueFace then PushFace(old(meshData.Contents()), SideFace(direction, blockData, local))
         else old(meshData.Contents()))
      && transparent.Contents() ==
        (if r.value == TransparentFace then PushFace(old(transparent.Contents()), SideFace(direction, blockData, local))
         else old(transparent.Contents()))
  {
    var neighbourPosition := local.Plus(ToVector3Int(direction));
    ghost var n := NeighbourData(c, neighbourPosition);
    assert meshData !in c.world.Arrays() && transparent !in c.world.Arrays();
    var neighbourBlockId := GetBlockIdInChunk(c, neighbourPosition);
    if neighbourBlockId.Err? {
      return Err(neighbourBlockId.error);
    }
    if neighbourBlockId.value.None? {
      return Ok(NoFace);
    }
    var neighbourFound := GetBlockDataById(c.world.blockManager.View(), neighbourBlockId.value);
    if neighbourFound.Err? {
      return Err(neighbourFound.error);
    }
    var neighbour := neighbourFound.value;
    assert n == Ok(Some(neighbour));
    var face := SideFace(direction, blockData, local);
    if blockData.isTransparent && !neighbour.isSolid {
      transparent.AddFace(face);
      return Ok(TransparentFace);
    }
    if !neighbour.isSolid || (!blockData.isTransparent && neighbour.isTransparent) {
      meshData.AddFace(face);
      return Ok(OpaqueFace);
    }
    r := Ok(NoFace);
  }

  /** One pass of the foreach over Directions, on values: side k, drawn after the sides before it have succeeded,
      extends the side targets when its neighbour lookup succeeds. */
  lemma SideStep(c: ChunkData, blockData: BlockData, local: Vec3, k: nat, ts: seq<FaceTarget>, target: FaceTarget)
    requires c.Valid() && c.world.Valid() && k < |Directions|
    requires SideTargets(c, blockData, local, Directions[..k]) == Ok(ts)
    requires var n := NeighbourData(c, local.Plus(ToVector3Int(Directions[k])));
      n.Ok? && target == FaceTargetOf(blockData, n.value)
    ensures SideTargets(c, blockData, local, Directions[..k + 1]) == Ok(ts + [target])
  {
    assert Directions[..k + 1] == Directions[..k] + [Directions[k]];
    SideTargetsSnoc(c, blockData, local, Directions[..k], Directions[k]);
  }

  /** The same pass for one buffer: the side's face is appended exactly when its target is the buffer's. */
  lemma BufferStep(b0: Buffers, bPrev: Buffers, bNew: Buffers, blockData: BlockData, local: Vec3, k: nat,
                   ts: seq<FaceTarget>, target: FaceTarget, want: FaceTarget)
    requires k < |Directions| && |ts| == k
    requires bPrev == PushFaces(b0, FacesFor(blockData, local, Directions[..k], ts, want))
    requires bNew == (if target == want then PushFace(bPrev, SideFace(Directions[k], blockData, local)) else bPrev)
    ensures bNew == PushFaces(b0, FacesFor(blockData, local, Directions[..k + 1], ts + [target], want))
  {
    assert Directions[..k + 1] == Directions[..k] + [Directions[k]];
    PushFacesStep(b0, blockData, local, Directions[..k], ts, Directions[k], target, want);
  }

  /** The side whose neighbour lookup throws ends the whole walk with that exception. */
  lemma SideStop(c: ChunkData, blockData: BlockData, local: Vec3, k: nat, ts: seq<FaceTarget>)
    requires c.Valid() && c.world.Valid() && k < |Directions|
    requires SideTargets(c, blockData, local, Directions[..k]) == Ok(ts)
    requires NeighbourData(c, local.Plus(ToVector3Int(Directions[k]))).Err?
    ensures SideTargets(c, blockData, local, Directions) ==
      Err(NeighbourData(c, local.Plus(ToVector3Int(Directions[k]))).error)
  {
    SideTargetsStop(c, blockData, local, Directions, k, |Directions|);
    assert Directions[..|Directions|] == Directions;
  }

  /** The foreach over Directions of UpdateBlockMeshData, for a block with data: the side targets in order, or the
      first exception, with the faces of the sides handled so far appended. */
  method DrawSides(meshData: MeshData, transparent: MeshData, c: ChunkData, blockData: BlockData, local: Vec3)
    returns (r: Result<seq<FaceTarget>>)
    requires c.Valid() && c.world.Valid() && transparent != meshData
    modifies meshData, transparent
    ensures meshData.transparentMeshData == old(meshData.transparentMeshData)
    ensures r == SideTargets(c, blockData, local, Directions)
    ensures r.Ok? ==>
      && meshData.Contents() == PushFaces(old(meshData.Contents()), FacesFor(blockData, local, Directions, r.value, OpaqueFace))
      && transparent.Contents() ==
        PushFaces(old(transparent.Contents()), FacesFor(blockData, local, Directions, r.value, TransparentFace))
  {
    var ts: seq<FaceTarget> := [];
    ghost var b0, t0 := meshData.Contents(), transparent.Contents();
    var k := 0;
    while k < |Directions|
      invariant 0 <= k <= |Directions| && |ts| == k
      invariant meshData.transparentMeshData == old(meshData.transparentMeshData)
      invariant SideTargets(c, blockData, local, Directions[..k]) == Ok(ts)
      invariant meshData.Contents() == PushFaces(b0, FacesFor(blockData, local, Directions[..k], ts, OpaqueFace))
      invariant transparent.Contents() == PushFaces(t0, FacesFor(blockData, local, Directions[..k], ts, TransparentFace))
    {
      ghost var bPrev, tPrev := meshData.Contents(), transparent.Contents();
      assert meshData !in c.world.Arrays() && transparent !in c.world.Arrays();
      var target := DrawSide(meshData, transparent, c, blockData, local, Directions[k]);
      if target.Err? {
        SideStop(c, blockData, local, k, ts);
        return Err(target.error);
      }
      SideStep(c, blockData, local, k, ts, target.value);
      BufferStep(b0, bPrev, meshData.Contents(), blockData, local, k, ts, target.value, OpaqueFace);
      BufferStep(t0, tPrev, transparent.Contents(), blockData, local, k, ts, target.value, TransparentFace);
      ts := ts + [target.value];
      k := k + 1;
    }
    assert Directions[..k] == Directions;
    r := Ok(ts);
  }

  /** UpdateBlockMeshData: for a null or "air" id nothing happens; otherwise each side, in the order of Directions,
      looks up its neighbour and, unless the neighbour is null or hides it, is appended to the transparent mesh data
      (a transparent block facing a non-solid neighbour) or to the main one. An exception stops the walk; the faces
      appended before it stay. */
  method UpdateBlockMeshData(meshData: MeshData, c: ChunkData, blockId: Option<string>, local: Vec3) returns (r: Outcome)
    requires c.Valid() && c.world.Valid()
    requires meshData.transparentMeshData != null && meshData.transparentMeshData != meshData
    modifies meshData, meshData.transparentMeshData
    ensures meshData.transparentMeshData == old(meshData.transparentMeshData)
    ensures BlockFacesOf(c, blockId, local).Err? ==> r == Fail(BlockFacesOf(c, blockId, local).error)
    ensures BlockFacesOf(c, blockId, local).Ok? ==>
      var (fo, ft) := BlockFacesOf(c, blockId, local).value;
      && r == Pass
      && meshData.Contents() == PushFaces(old(meshData.Contents()), fo)
      && meshData.transparentMeshData.Contents() == PushFaces(old(meshData.transparentMeshData.Contents()), ft)
  {
    var transparent := meshData.transparentMeshData;
    if blockId == None || blockId == Some("air") {
      return Pass;
    }
    var found := GetBlockDataById(c.world.blockManager.View(), blockId);
    if found.Err? {
      return Fail(found.error);
    }
    var drawn := DrawSides(meshData, transparent, c, found.value, local);
    r := if drawn.Err? then Fail(drawn.error) else Pass;
  }
}
