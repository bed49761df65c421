/** The block arrays a chunk can reach, seen as one value, and ChunkHelper.SetBlock and ChunkHelper.GetBlockId on
    that value. The terrain handlers write through ChunkHelper.SetBlock, which forwards a position outside the chunk
    to the world; their effect is stated as a sequence of writes applied to this value. */
module TerrainCells {
  import opened Wrappers
  import opened Vectors
  import opened ChunkMath
  import opened BlockRegistry
  import opened WorldState
  import opened ChunkAccess

  /** The contents of some block arrays. */
  type Cells = map<array<ushort>, seq<ushort>>

  /** The arrays a write through chunk `c` can reach, with their contents: its own and those of the world's chunks. */
  ghost function CellsOf(c: ChunkData): (s: Cells)
    reads c.world, c.world.Arrays(), c.blocks
    ensures c.blocks in s
  {
    map b: array<ushort> | b in c.world.Arrays() + {c.blocks} :: b[..]
  }

  /** What a write through a chunk depends on besides the cells, as a value: the world's chunk data map, which
      decides where a position outside the chunk goes, and the block manager's registry, which converts ids. */
  datatype Reach = Reach(chunkDatas: map<Vec3, ChunkData>, registry: Registry)

  /** The reach of chunk `c` in the current state. */
  ghost function ReachOf(c: ChunkData): Reach
    reads c.world, c.world.blockManager
  {
    Reach(c.world.chunkDatas, c.world.blockManager.View())
  }

  /** Target on a reach: the chunk's own cell inside it, else the cell of the chunk data stored under the chunk
      origin of the world position, if any. */
  function TargetIn(r: Reach, c: ChunkData, local: Vec3): Option<(array<ushort>, int)> {
    if InBounds(c.Shape(), local) then Some((c.blocks, IndexOf(c.Shape(), local)))
    else if !c.world.Shape().Positive() then None
    else
      var p := local.Plus(c.worldPosition);
      var k := ChunkOrigin(c.world.Shape(), p);
      if k in r.chunkDatas then
        var d := r.chunkDatas[k];
        Some((d.blocks, IndexOf(d.Shape(), LocalFromWorld(d.worldPosition, p))))
      else None
  }

  /** On the chunk's own reach, TargetIn is Target. */
  lemma TargetInAgrees(c: ChunkData, local: Vec3)
    requires c.Valid() && c.world.Valid()
    ensures TargetIn(ReachOf(c), c, local) == Target(c, local)
  {
  }

  /** One ChunkHelper.SetBlock call: a local position, a (non-null) block id and the replace flag. */
  datatype Write = Write(local: Vec3, blockId: string, replace: bool)

  /** A replacing SetBlock, the default of the optional parameter. */
  function Put(local: Vec3, blockId: string): Write {
    Write(local, blockId, true)
  }

  /** ChunkHelper.SetBlock on cells: the target cell takes the converted id (when replacing or when it holds 0);
      an id the block manager does not know throws; a position no chunk holds is ignored. */
  ghost function Apply(s: Cells, r: Reach, c: ChunkData, w: Write): Result<Cells> {
    match TargetIn(r, c, w.local)
    case None => Ok(s)
    case Some((a, i)) =>
      match ConvertToShortId(r.registry, Some(w.blockId))
      case Err(e) => Err(e)
      case Ok(id) =>
        if a in s && 0 <= i < |s[a]| then
          var row: seq<ushort> := s[a][i := Written(s[a][i], id, w.replace)];
          Ok(s[a := row])
        else Ok(s)
  }

  /** The writes in order; the first exception ends the sequence. */
  ghost function ApplyAll(s: Cells, r: Reach, c: ChunkData, ws: seq<Write>): Result<Cells> {
    if ws == [] then Ok(s)
    else
      match Apply(s, r, c, ws[0])
      case Err(e) => Err(e)
      case Ok(t) => ApplyAll(t, r, c, ws[1..])
  }

  /** ChunkHelper.GetBlockId on cells: the id of the target cell, or null when no chunk holds the position. */
  ghost function ReadAt(s: Cells, r: Reach, c: ChunkData, local: Vec3): Result<Option<string>> {
    match TargetIn(r, c, local)
    case None => Ok(None)
    case Some((a, i)) => if a in s && 0 <= i < |s[a]| then BlockIdOf(r.registry, s[a][i]) else Ok(None)
  }

  /** Reading the chunk's cells through the snapshot is ChunkHelper.GetBlockId. */
  lemma ReadAtAgrees(c: ChunkData, local: Vec3)
    requires c.Valid() && c.world.Valid()
    ensures ReadAt(CellsOf(c), ReachOf(c), c, local) == GetBlockIdInChunk(c, local)
  {
    TargetInAgrees(c, local);
    TargetInRange(c, local);
    if !InBounds(c.Shape(), local) {
      GetBlockIdInWorldSpec(c.world, local.Plus(c.worldPosition));
    }
  }

  /** A write changes the target cell and nothing else; a write no chunk holds changes nothing. */
  lemma ApplySpec(s: Cells, r: Reach, c: ChunkData, w: Write)
    requires Apply(s, r, c, w).Ok?
    ensures var t := Apply(s, r, c, w).value;
      && t.Keys == s.Keys
      && (forall b :: b in s ==> |t[b]| == |s[b]|)
      && (forall b, j :: b in s && 0 <= j < |s[b]| && TargetIn(r, c, w.local) != Some((b, j)) ==> t[b][j] == s[b][j])
      && (TargetIn(r, c, w.local).Some? ==>
            var (a, i) := TargetIn(r, c, w.local).value;
            a in s && 0 <= i < |s[a]| ==>
            t[a][i] == Written(s[a][i], ConvertToShortId(r.registry, Some(w.blockId)).value, w.replace))
  {
  }

  /** Applying a concatenation applies the first part, then the second. */
  lemma {:induction false} ApplyAllAppend(s: Cells, r: Reach, c: ChunkData, a: seq<Write>, b: seq<Write>)
    ensures ApplyAll(s, r, c, a + b) ==
      match ApplyAll(s, r, c, a)
      case Err(e) => Err(e)
      case Ok(t) => ApplyAll(t, r, c, b)
    decreases |a|
  {
    if a == [] {
      assert a + b == b;
    } else {
      assert (a + b)[0] == a[0];
      assert (a + b)[1..] == a[1..] + b;
      if Apply(s, r, c, a[0]).Ok? {
        ApplyAllAppend(Apply(s, r, c, a[0]).value, r, c, a[1..], b);
      }
    }
  }

  /** Appending one write to a sequence that succeeded applies that write to its result. */
  lemma ApplyAllSnoc(s: Cells, r: Reach, c: ChunkData, ws: seq<Write>, w: Write)
    requires ApplyAll(s, r, c, ws).Ok?
    ensures ApplyAll(s, r, c, ws + [w]) == Apply(ApplyAll(s, r, c, ws).value, r, c, w)
  {
    ApplyAllAppend(s, r, c, ws, [w]);
    assert [w][1..] == [];
  }

  /** After an exception, longer write sequences throw the same exception. */
  lemma {:induction false} ApplyAllFailureSticks(s: Cells, r: Reach, c: ChunkData, ws: seq<Write>, more: seq<Write>)
    requires ApplyAll(s, r, c, ws).Err?
    ensures ApplyAll(s, r, c, ws + more) == ApplyAll(s, r, c, ws)
  {
    ApplyAllAppend(s, r, c, ws, more);
  }

  /** Cells whose arrays all keep their contents but for the cell a write targets, which takes the written value,
      are the cells of Apply. */
  lemma ApplyOnCells(before: Cells, now: Cells, r: Reach, c: ChunkData, w: Write)
    requires Apply(before, r, c, w).Ok?
    requires now.Keys == before.Keys
    requires forall b :: b in before && (TargetIn(r, c, w.local).None? || b != TargetIn(r, c, w.local).value.0) ==>
      now[b] == before[b]
    requires TargetIn(r, c, w.local).Some? ==>
      var (a, i) := TargetIn(r, c, w.local).value;
      a in before && 0 <= i < |before[a]| &&
      now[a] == before[a][i := Written(before[a][i], ConvertToShortId(r.registry, Some(w.blockId)).value, w.replace)]
    ensures now == Apply(before, r, c, w).value
  {
    var after := Apply(before, r, c, w).value;
    forall b | b in before ensures now[b] == after[b] {
    }
  }

  /** ChunkHelper.SetBlock with a non-null id, seen on the cells: the outcome and the new cells are those of Apply. */
  method WriteBlock(c: ChunkData, w: Write) returns (o: Outcome)
    requires c.Valid() && c.world.Valid()
    modifies c.blocks, c.world.Arrays()
    ensures var after := Apply(old(CellsOf(c)), ReachOf(c), c, w);
      && (after.Err? ==> o == Fail(after.error))
      && (after.Ok? ==> o == Pass && CellsOf(c) == after.value)
  {
    ghost var before := CellsOf(c);
    TargetInRange(c, w.local);
    TargetInAgrees(c, w.local);
    o := SetBlockInChunk(c, w.local, Some(w.blockId), w.replace);
    if Apply(before, ReachOf(c), c, w).Ok? {
      ghost var now := CellsOf(c);
      if Target(c, w.local).Some? {
        var (a, i) := Target(c, w.local).value;
        assert now[a] == before[a][i := now[a][i]];
      }
      ApplyOnCells(before, now, ReachOf(c), c, w);
    }
  }

  /** An exception within a prefix of a write sequence is the exception of the whole sequence. */
  lemma PrefixFailure(s: Cells, r: Reach, c: ChunkData, ws: seq<Write>, n: nat)
    requires n <= |ws| && ApplyAll(s, r, c, ws[..n]).Err?
    ensures ApplyAll(s, r, c, ws) == ApplyAll(s, r, c, ws[..n])
  {
    assert ws == ws[..n] + ws[n..];
    ApplyAllFailureSticks(s, r, c, ws[..n], ws[n..]);
  }

  /** The cells `now` are those the writes `ws` leave behind, none of them having thrown. */
  ghost predicate Holds(s: Cells, r: Reach, c: ChunkData, now: Cells, ws: seq<Write>) {
    ApplyAll(s, r, c, ws).Ok? && now == ApplyAll(s, r, c, ws).value
  }

  /** A run of SetBlock calls reported as `o` went as the writes `ws` say: it threw their exception, or it passed
      and left their cells. */
  ghost predicate Continues(s: Cells, r: Reach, c: ChunkData, now: Cells, ws: seq<Write>, o: Outcome) {
    && (o.Fail? ==> ApplyAll(s, r, c, ws) == Err(o.error))
    && (o.Pass? ==> Holds(s, r, c, now, ws))
  }

  /** One more SetBlock after a sequence of writes that succeeded: the cells are those of the longer sequence, or
      its exception. */
  method WriteNext(c: ChunkData, ghost s: Cells, ghost done: seq<Write>, w: Write) returns (o: Outcome)
    requires c.Valid() && c.world.Valid() && Holds(s, ReachOf(c), c, CellsOf(c), done)
    modifies c.blocks, c.world.Arrays()
    ensures Continues(s, ReachOf(c), c, CellsOf(c), done + [w], o)
  {
    ApplyAllSnoc(s, ReachOf(c), c, done, w);
    o := WriteBlock(c, w);
  }

  // ---------------------------------------------------------------- handler decisions

  /** What a BlockLayerHandler.TryHandling call decides: its return value and the SetBlock calls it makes, in order. */
  datatype Decision = Decision(handled: bool, writes: seq<Write>)

  /** The decision of a handler that returns false without writing. */
  const Declined := Decision(false, [])

  /** A TryHandling call on cells: the decision (or the exception taken before any write), then its writes. */
  ghost function Run(s: Cells, r: Reach, c: ChunkData, d: Result<Decision>): Result<(bool, Cells)> {
    match d
    case Err(e) => Err(e)
    case Ok(decision) =>
      match ApplyAll(s, r, c, decision.writes)
      case Err(e) => Err(e)
      case Ok(t) => Ok((decision.handled, t))
  }

  /** A method's result and new cells are those of a run: its exception, or its return value and cells. */
  ghost predicate Reports(r: Result<bool>, now: Cells, run: Result<(bool, Cells)>) {
    && (run.Err? ==> r == Err(run.error))
    && (run.Ok? ==> r == Ok(run.value.0) && now == run.value.1)
  }

  /** The write of a handler that returns true after one SetBlock. */
  method WriteAndAccept(c: ChunkData, w: Write) returns (r: Result<bool>)
    requires c.Valid() && c.world.Valid()
    modifies c.blocks, c.world.Arrays()
    ensures Reports(r, CellsOf(c), Run(old(CellsOf(c)), ReachOf(c), c, Ok(Decision(true, [w]))))
  {
    ApplyAllSnoc(CellsOf(c), ReachOf(c), c, [], w);
    assert [] + [w] == [w];
    var o := WriteBlock(c, w);
    if o.Fail? {
      return Err(o.error);
    }
    r := Ok(true);
  }

  /** A run that returns true after one write `w`: a position no chunk holds changes nothing; an unknown id throws;
      otherwise the target cell takes the written value and every other cell keeps its own. */
  ghost predicate WritesOneCell(s: Cells, r: Reach, c: ChunkData, run: Result<(bool, Cells)>, w: Write) {
    var converted := ConvertToShortId(r.registry, Some(w.blockId));
    && (TargetIn(r, c, w.local).None? ==> run == Ok((true, s)))
    && (TargetIn(r, c, w.local).Some? && converted.Err? ==> run == Err(converted.error))
    && (TargetIn(r, c, w.local).Some? && converted.Ok? ==>
          var (a, i) := TargetIn(r, c, w.local).value;
          && run.Ok? && run.value.0
          && var t := run.value.1;
          && t.Keys == s.Keys && (forall b :: b in s ==> |t[b]| == |s[b]|)
          && (forall b, j :: b in s && 0 <= j < |s[b]| && (b, j) != (a, i) ==> t[b][j] == s[b][j])
          && (a in s && 0 <= i < |s[a]| ==> t[a][i] == Written(s[a][i], converted.value, w.replace)))
  }

  /** A decision to return true after one write runs as WritesOneCell says. */
  lemma OneWriteRun(s: Cells, r: Reach, c: ChunkData, w: Write)
    ensures WritesOneCell(s, r, c, Run(s, r, c, Ok(Decision(true, [w]))), w)
  {
    ApplyAllSnoc(s, r, c, [], w);
    assert [] + [w] == [w];
    if Apply(s, r, c, w).Ok? {
      ApplySpec(s, r, c, w);
    }
  }
}
