/** The block registry (BlockManager.cs, with BlockData.cs and BlockList.cs as data). */
module BlockRegistry {
  import opened Wrappers
  import opened Vectors

  /** A block id stored in a chunk (C# ushort). */
  type ushort = x: int | 0 <= x < 0x1_0000

  /** Which of the three textures a block has, and the atlas tile offsets assigned to them. */
  datatype TextureData = TextureData(
    hasTop: bool, hasBottom: bool, hasSide: bool,
    topOffset: Vec2, bottomOffset: Vec2, sideOffset: Vec2)

  /** A block definition as authored (BlockData.cs). `blockId` is the raw, unformatted id. */
  datatype BlockData = BlockData(
    blockId: string, blockName: string,
    isSolid: bool, isTransparent: bool, isCollidable: bool,
    textures: TextureData)

  const AtlasTextureSize := 256
  const AtlasTileTextureSize := 16
  /** AtlasTextureSize / AtlasTileTextureSize: the tile column at which the layout wraps. */
  const AtlasTilesPerRow := 16

  // ---------------------------------------------------------------- ids

  function ToLowerChar(c: char): char {
    if 'A' <= c <= 'Z' then (c as int + 32) as char else c
  }

  /** Replace every space by an underscore (string.Replace(" ", "_")). */
  function ReplaceSpaces(s: string): (r: string)
    ensures |r| == |s|
    ensures forall i :: 0 <= i < |s| ==> r[i] == (if s[i] == ' ' then '_' else s[i])
  {
    if s == [] then [] else (if s[0] == ' ' then "_" else [s[0]]) + ReplaceSpaces(s[1..])
  }

  /** string.ToLower, on ASCII letters only. */
  function Lower(s: string): (r: string)
    ensures |r| == |s|
    ensures forall i :: 0 <= i < |s| ==> r[i] == ToLowerChar(s[i])
  {
    if s == [] then [] else [ToLowerChar(s[0])] + Lower(s[1..])
  }

  /** The key a block is registered under: every space becomes an underscore, and every other character is
      lower-cased as Lower does. */
  function FormatBlockId(blockId: string): (r: string)
    ensures |r| == |blockId|
    ensures forall i :: 0 <= i < |blockId| ==> r[i] == if blockId[i] == ' ' then '_' else ToLowerChar(blockId[i])
  {
    Lower(ReplaceSpaces(blockId))
  }

  /** A formatted id holds no space and no ASCII upper-case letter; every other character is kept, lower-cased. */
  lemma FormatBlockIdShape(blockId: string)
    ensures |FormatBlockId(blockId)| == |blockId|
    ensures forall i :: 0 <= i < |blockId| ==>
      var c := FormatBlockId(blockId)[i];
      c != ' ' && !('A' <= c <= 'Z') &&
      (blockId[i] == ' ' ==> c == '_') &&
      (blockId[i] != ' ' ==> c == ToLowerChar(blockId[i]))
  {
  }

  /** Formatting a formatted id changes nothing. */
  lemma FormatBlockIdIdempotent(blockId: string)
    ensures FormatBlockId(FormatBlockId(blockId)) == FormatBlockId(blockId)
  {
    var f := FormatBlockId(blockId);
    var g := FormatBlockId(f);
    assert |g| == |f|;
    forall i | 0 <= i < |f| ensures g[i] == f[i] {
      assert ReplaceSpaces(f)[i] == f[i];
    }
  }

  // ---------------------------------------------------------------- registration

  /** The block dictionary after registering a list: its entries, their enumeration (insertion) order, and whether
      an Add hit a key that was already present (which throws and ends the loop). */
  datatype Registration = Registration(datas: map<string, BlockData>, order: seq<string>, failed: bool)

  /** The foreach over the block list adding every block under its formatted id. */
  function Registered(blocks: seq<BlockData>): Registration
    decreases |blocks|
  {
    if blocks == [] then Registration(map[], [], false)
    else
      var prev := Registered(blocks[..|blocks| - 1]);
      var b := blocks[|blocks| - 1];
      var k := FormatBlockId(b.blockId);
      if prev.failed then prev
      else if k in prev.datas then prev.(failed := true)
      else Registration(prev.datas[k := b], prev.order + [k], false)
  }

  function FormattedIds(blocks: seq<BlockData>): (r: seq<string>)
    ensures |r| == |blocks|
    ensures forall i :: 0 <= i < |blocks| ==> r[i] == FormatBlockId(blocks[i].blockId)
  {
    if blocks == [] then [] else FormattedIds(blocks[..|blocks| - 1]) + [FormatBlockId(blocks[|blocks| - 1].blockId)]
  }

  predicate Distinct<T(==)>(s: seq<T>) {
    forall i, j :: 0 <= i < j < |s| ==> s[i] != s[j]
  }

  /** While registration has not failed, the enumeration order is the list of formatted ids and the keys are
      exactly the formatted ids. */
  lemma {:induction false} RegisteredOrder(blocks: seq<BlockData>)
    ensures !Registered(blocks).failed ==> Registered(blocks).order == FormattedIds(blocks)
    ensures !Registered(blocks).failed ==> forall k :: k in Registered(blocks).datas <==> k in FormattedIds(blocks)
  {
    if blocks != [] {
      var init := blocks[..|blocks| - 1];
      RegisteredOrder(init);
      assert FormattedIds(init) == FormattedIds(blocks)[..|blocks| - 1];
    }
  }

  /** Registration succeeds exactly when the formatted ids are pairwise distinct. */
  /** A successful registration keeps the formatted ids in list order. */
  lemma RegisteredKeys(blocks: seq<BlockData>)
    ensures !Registered(blocks).failed ==> Registered(blocks).order == FormattedIds(blocks)
  {
    RegisteredOrder(blocks);
  }

  lemma {:induction false} RegisteredFailsIffDuplicate(blocks: seq<BlockData>)
    ensures !Registered(blocks).failed <==> Distinct(FormattedIds(blocks))
  {
    if blocks != [] {
      var init := blocks[..|blocks| - 1];
      RegisteredFailsIffDuplicate(init);
      RegisteredOrder(init);
      var ids := FormattedIds(blocks);
      var k := ids[|blocks| - 1];
      assert ids == FormattedIds(init) + [k];
      DistinctSnoc(FormattedIds(init), k);
    }
  }

  /** A sequence with one more element is duplicate-free exactly when the prefix is and lacks that element. */
  lemma DistinctSnoc<T>(s: seq<T>, x: T)
    ensures Distinct(s + [x]) <==> Distinct(s) && x !in s
  {
    var t := s + [x];
    if Distinct(s) && x !in s {
      forall i, j | 0 <= i < j < |t| ensures t[i] != t[j] {
        if j == |s| {
          assert t[i] == s[i];
        }
      }
    }
    if Distinct(t) {
      assert forall i, j :: 0 <= i < j < |s| ==> t[i] == s[i] && t[j] == s[j];
      assert forall i :: 0 <= i < |s| ==> t[i] == s[i] && t[|s|] == x;
    }
  }

  /** After a successful registration every block is found under its formatted id. */
  lemma {:induction false} RegisteredData(blocks: seq<BlockData>, i: int)
    requires 0 <= i < |blocks|
    requires !Registered(blocks).failed
    ensures FormatBlockId(blocks[i].blockId) in Registered(blocks).datas
    ensures Registered(blocks).datas[FormatBlockId(blocks[i].blockId)] == blocks[i]
  {
    var init := blocks[..|blocks| - 1];
    if i < |blocks| - 1 {
      RegisteredData(init, i);
      RegisteredFailsIffDuplicate(blocks);
      assert FormattedIds(blocks)[i] != FormattedIds(blocks)[|blocks| - 1];
    }
  }

  /** Two blocks whose ids format to the same key cannot both be registered. */
  lemma DuplicateFormattedIdFails(blocks: seq<BlockData>, i: int, j: int)
    requires 0 <= i < j < |blocks|
    requires FormatBlockId(blocks[i].blockId) == FormatBlockId(blocks[j].blockId)
    ensures Registered(blocks).failed
  {
    RegisteredFailsIffDuplicate(blocks);
    assert FormattedIds(blocks)[i] == FormattedIds(blocks)[j];
  }

  // ---------------------------------------------------------------- atlas layout

  /** The tile cursor (x, y) of GenerateAtlasTexture. */
  datatype Cursor = Cursor(x: int, y: int)

  /** The outcome of laying out the textures of one solid block at the cursor. */
  datatype Placement = Placement(textures: TextureData, next: Cursor, missingTop: bool)

  /** One iteration of the atlas loop: the top texture must exist; a present texture takes the next tile, a missing
      bottom or side reuses the top tile; after the block the cursor wraps to the next row once x reaches 16. */
  function PlaceTextures(t: TextureData, c: Cursor): Placement {
    if !t.hasTop then Placement(t, c, true)
    else
      var top := Vec2(c.x, c.y);
      var x1 := c.x + 1;
      var bottom := if t.hasBottom then Vec2(x1, c.y) else top;
      var x2 := if t.hasBottom then x1 + 1 else x1;
      var side := if t.hasSide then Vec2(x2, c.y) else top;
      var x3 := if t.hasSide then x2 + 1 else x2;
      var next := if x3 >= AtlasTilesPerRow then Cursor(0, c.y + 1) else Cursor(x3, c.y);
      Placement(t.(topOffset := top, bottomOffset := bottom, sideOffset := side), next, false)
  }

  /** The block dictionary, cursor and failure flag of the atlas loop after the first blocks of `order`. */
  datatype Atlas = Atlas(datas: map<string, BlockData>, cursor: Cursor, failed: bool)

  /** The atlas loop over the registered blocks that are solid, in enumeration order. */
  function AtlasLayout(datas: map<string, BlockData>, order: seq<string>): Atlas
    decreases |order|
  {
    if order == [] then Atlas(datas, Cursor(0, 0), false)
    else
      var prev := AtlasLayout(datas, order[..|order| - 1]);
      var k := order[|order| - 1];
      if prev.failed || k !in prev.datas || !prev.datas[k].isSolid then prev
      else
        var p := PlaceTextures(prev.datas[k].textures, prev.cursor);
        if p.missingTop then prev.(failed := true)
        else Atlas(prev.datas[k := prev.datas[k].(textures := p.textures)], p.next, false)
  }

  /** Offsets that the layout can assign: every column is in 0..17 and every row is non-negative. */
  predicate OffsetInRange(v: Vec2) {
    0 <= v.x <= AtlasTilesPerRow + 1 && 0 <= v.y
  }

  /** Two blocks that differ at most in their texture offsets. */
  predicate SameButOffsets(a: BlockData, b: BlockData) {
    && a.blockId == b.blockId && a.blockName == b.blockName
    && a.isSolid == b.isSolid && a.isTransparent == b.isTransparent && a.isCollidable == b.isCollidable
    && a.textures.hasTop == b.textures.hasTop && a.textures.hasBottom == b.textures.hasBottom
    && a.textures.hasSide == b.textures.hasSide
  }

  /** One placement from a cursor in column 0..15: the flags stay, the offsets are in range with the top inside
      the row, a missing bottom or side shares the top tile, and the next cursor is again in column 0..15. */
  lemma PlaceTexturesSpec(t: TextureData, c: Cursor)
    requires 0 <= c.x < AtlasTilesPerRow && 0 <= c.y
    ensures var p := PlaceTextures(t, c);
      && (p.textures.hasTop, p.textures.hasBottom, p.textures.hasSide) == (t.hasTop, t.hasBottom, t.hasSide)
      && 0 <= p.next.x < AtlasTilesPerRow && 0 <= p.next.y
      && (!p.missingTop ==>
        && OffsetInRange(p.textures.topOffset) && OffsetInRange(p.textures.bottomOffset)
        && OffsetInRange(p.textures.sideOffset) && p.textures.topOffset.x < AtlasTilesPerRow
        && (!t.hasBottom ==> p.textures.bottomOffset == p.textures.topOffset)
        && (!t.hasSide ==> p.textures.sideOffset == p.textures.topOffset))
  {
  }

  /** The layout keeps the set of keys and leaves the cursor's column in 0..15 between blocks. */
  lemma {:induction false} AtlasKeysAndCursor(datas: map<string, BlockData>, order: seq<string>)
    ensures AtlasLayout(datas, order).datas.Keys == datas.Keys
    ensures 0 <= AtlasLayout(datas, order).cursor.x < AtlasTilesPerRow && 0 <= AtlasLayout(datas, order).cursor.y
  {
    if order != [] {
      var init := order[..|order| - 1];
      AtlasKeysAndCursor(datas, init);
      var prev := AtlasLayout(datas, init);
      var k := order[|order| - 1];
      if !prev.failed && k in prev.datas && prev.datas[k].isSolid {
        PlaceTexturesSpec(prev.datas[k].textures, prev.cursor);
      }
    }
  }

  /** The layout changes only the offsets, and only of solid blocks it has visited. */
  lemma {:induction false} AtlasKeepsBlocks(datas: map<string, BlockData>, order: seq<string>)
    ensures forall k :: k in datas ==>
      (k in AtlasLayout(datas, order).datas &&
       var b := AtlasLayout(datas, order).datas[k];
       SameButOffsets(datas[k], b) && (!datas[k].isSolid || k !in order ==> b == datas[k]))
  {
    if order != [] {
      var init := order[..|order| - 1];
      AtlasKeepsBlocks(datas, init);
      AtlasKeysAndCursor(datas, init);
      var prev := AtlasLayout(datas, init);
      var k := order[|order| - 1];
      if !prev.failed && k in prev.datas && prev.datas[k].isSolid {
        PlaceTexturesSpec(prev.datas[k].textures, prev.cursor);
        var next := AtlasLayout(datas, order);
        forall k' | k' in datas && k' != k
          ensures k' in next.datas && next.datas[k'] == prev.datas[k']
          ensures k' !in order ==> k' !in init
        {
        }
      } else {
        assert AtlasLayout(datas, order).datas == prev.datas;
        assert forall k' :: k' !in order ==> k' !in init;
      }
    }
  }

  /** Once the layout has visited a solid block without failing, its offsets are in range and a missing bottom or
      side shares the top tile. */
  lemma {:induction false} AtlasOffsets(datas: map<string, BlockData>, order: seq<string>)
    ensures !AtlasLayout(datas, order).failed ==> forall k :: k in datas && k in order && datas[k].isSolid ==>
      k in AtlasLayout(datas, order).datas &&
      var t := AtlasLayout(datas, order).datas[k].textures;
      && OffsetInRange(t.topOffset) && OffsetInRange(t.bottomOffset) && OffsetInRange(t.sideOffset)
      && t.topOffset.x < AtlasTilesPerRow
      && (!t.hasBottom ==> t.bottomOffset == t.topOffset)
      && (!t.hasSide ==> t.sideOffset == t.topOffset)
  {
    if order != [] {
      var init := order[..|order| - 1];
      AtlasOffsets(datas, init);
      AtlasKeysAndCursor(datas, init);
      AtlasKeepsBlocks(datas, init);
      var prev := AtlasLayout(datas, init);
      var k := order[|order| - 1];
      if !prev.failed && k in prev.datas && prev.datas[k].isSolid {
        PlaceTexturesSpec(prev.datas[k].textures, prev.cursor);
        assert forall k' :: k' in order && k' != k ==> k' in init;
      }
    }
  }

  /** The layout leaves the cursor's column in 0..15 between blocks, never touches a non-solid block, keeps the
      set of keys, and gives every solid block offsets in range, with a missing bottom or side sharing the top. */
  lemma AtlasLayoutSpec(datas: map<string, BlockData>, order: seq<string>)
    ensures AtlasLayout(datas, order).datas.Keys == datas.Keys
    ensures 0 <= AtlasLayout(datas, order).cursor.x < AtlasTilesPerRow && 0 <= AtlasLayout(datas, order).cursor.y
    ensures forall k :: k in datas ==>
      var b := AtlasLayout(datas, order).datas[k];
      SameButOffsets(datas[k], b) && (!datas[k].isSolid || k !in order ==> b == datas[k])
    ensures !AtlasLayout(datas, order).failed ==> forall k :: k in datas && k in order && datas[k].isSolid ==>
      var t := AtlasLayout(datas, order).datas[k].textures;
      && OffsetInRange(t.topOffset) && OffsetInRange(t.bottomOffset) && OffsetInRange(t.sideOffset)
      && t.topOffset.x < AtlasTilesPerRow
      && (!t.hasBottom ==> t.bottomOffset == t.topOffset)
      && (!t.hasSide ==> t.sideOffset == t.topOffset)
  {
    AtlasKeysAndCursor(datas, order);
    AtlasKeepsBlocks(datas, order);
    AtlasOffsets(datas, order);
  }

  /** A block that is solid and lacks a top texture makes the layout throw. */
  lemma MissingTopTextureFails(datas: map<string, BlockData>, order: seq<string>)
    requires order != [] && order[|order| - 1] in datas
    requires datas[order[|order| - 1]].isSolid && !datas[order[|order| - 1]].textures.hasTop
    requires forall i :: 0 <= i < |order| - 1 ==> order[i] != order[|order| - 1]
    ensures AtlasLayout(datas, order).failed
  {
    var init := order[..|order| - 1];
    AtlasLayoutSpec(datas, init);
    var k := order[|order| - 1];
    assert k !in init;
  }

  /** The wrap test runs only after a whole block, so a block with three textures starting at column 15 gets
      tiles 15, 16 and 17 of the current row. */
  lemma AtlasColumnReaches17()
    ensures var p := PlaceTextures(TextureData(true, true, true, Vec2(0, 0), Vec2(0, 0), Vec2(0, 0)), Cursor(15, 3));
      p.textures.topOffset == Vec2(15, 3) && p.textures.bottomOffset == Vec2(16, 3)
      && p.textures.sideOffset == Vec2(17, 3) && p.next == Cursor(0, 4)
  {
  }

  // ---------------------------------------------------------------- lookups

  /** The ushort-keyed dictionary of short ids: entry `i` holds the formatted id with short id `i`. */
  type IdTable = s: seq<string> | |s| <= 0x1_0000

  /** The two dictionaries of a BlockManager. */
  datatype Registry = Registry(blockDatas: map<string, BlockData>, blockIds: IdTable)

  /** The state InitializeBlocks leaves on success: short ids 0..n-1 name the registered keys, one each. */
  ghost predicate WellFormed(reg: Registry) {
    && Distinct(reg.blockIds)
    && (forall i :: 0 <= i < |reg.blockIds| ==> reg.blockIds[i] in reg.blockDatas)
    && (forall k :: k in reg.blockDatas ==> k in reg.blockIds)
  }

  /** GetBlockDataById(string): null and unknown ids throw. */
  function GetBlockDataById(reg: Registry, blockId: Option<string>): (r: Result<BlockData>)
    ensures r.Ok? <==> blockId.Some? && blockId.value in reg.blockDatas
    ensures r.Ok? ==> r.value == reg.blockDatas[blockId.value]
    ensures blockId.None? ==> r == Err(ArgumentNull)
    ensures blockId.Some? && blockId.value !in reg.blockDatas ==> r == Err(UnknownBlock)
  {
    match blockId
    case None => Err(ArgumentNull)
    case Some(id) => if id in reg.blockDatas then Ok(reg.blockDatas[id]) else Err(UnknownBlock)
  }

  /** GetBlockDataById(ushort): an unknown short id throws; otherwise the data of the key it names. */
  function GetBlockDataByShortId(reg: Registry, shortBlockId: ushort): (r: Result<BlockData>)
    ensures shortBlockId >= |reg.blockIds| ==> r == Err(UnknownBlock)
    ensures shortBlockId < |reg.blockIds| ==> r == GetBlockDataById(reg, Some(reg.blockIds[shortBlockId]))
  {
    if shortBlockId < |reg.blockIds| then GetBlockDataById(reg, Some(reg.blockIds[shortBlockId]))
    else Err(UnknownBlock)
  }

  /** The first position of `x` in `s`, or |s| when it does not occur. */
  function FirstIndexOf(s: seq<string>, x: string): (r: nat)
    ensures r <= |s|
    ensures r < |s| ==> s[r] == x
    ensures forall j :: 0 <= j < r ==> s[j] != x
  {
    if s == [] then 0 else if s[0] == x then 0 else 1 + FirstIndexOf(s[1..], x)
  }

  /** ConvertToShortId: null and unknown ids throw; the result is the key of the first short-id entry naming the id,
      and First throws when there is none. */
  function ConvertToShortId(reg: Registry, blockId: Option<string>): (r: Result<ushort>)
    ensures blockId.None? ==> r == Err(ArgumentNull)
    ensures blockId.Some? && blockId.value !in reg.blockDatas ==> r == Err(UnknownBlock)
    ensures r.Ok? ==>
      && blockId.Some? && blockId.value in reg.blockDatas
      && r.value < |reg.blockIds| && reg.blockIds[r.value] == blockId.value
      && forall j :: 0 <= j < r.value ==> reg.blockIds[j] != blockId.value
    ensures blockId.Some? && blockId.value in reg.blockDatas && blockId.value !in reg.blockIds ==>
      r == Err(InvalidOperation)
  {
    match blockId
    case None => Err(ArgumentNull)
    case Some(id) =>
      if id !in reg.blockDatas then Err(UnknownBlock)
      else
        var i := FirstIndexOf(reg.blockIds, id);
        if i < |reg.blockIds| then Ok(i) else Err(InvalidOperation)
  }

  /** In a well-formed registry the two lookups agree: the data under the short id of a registered key is the data
      of that key, and the key's short id names it back. */
  lemma ShortIdRoundTrip(reg: Registry, id: string)
    requires WellFormed(reg)
    requires id in reg.blockDatas
    ensures ConvertToShortId(reg, Some(id)).Ok?
    ensures GetBlockDataByShortId(reg, ConvertToShortId(reg, Some(id)).value) == GetBlockDataById(reg, Some(id))
    ensures reg.blockIds[ConvertToShortId(reg, Some(id)).value] == id
  {
  }

  /** In a well-formed registry every short id below the table size converts back to itself. */
  lemma ShortIdIsDense(reg: Registry, s: ushort)
    requires WellFormed(reg)
    requires s < |reg.blockIds|
    ensures ConvertToShortId(reg, Some(reg.blockIds[s])) == Ok(s)
    ensures GetBlockDataByShortId(reg, s).Ok?
  {
  }

  // ---------------------------------------------------------------- the manager

  /** BlockManager: the block dictionary in its enumeration order and the short-id dictionary. */
  class BlockManager {
    var blockDatas: map<string, BlockData>
    /** The enumeration order of blockDatas (insertion order: entries are only added or cleared). */
    var blockOrder: seq<string>
    var blockIds: IdTable

    /** The enumeration order lists every key once. */
    ghost predicate Valid()
      reads this
    {
      Distinct(blockOrder) && (forall i :: 0 <= i < |blockOrder| ==> blockOrder[i] in blockDatas)
      && (forall k :: k in blockDatas ==> k in blockOrder)
    }

    function View(): Registry
      reads this
    {
      Registry(blockDatas, blockIds)
    }

    constructor ()
      ensures Valid() && blockDatas == map[] && blockOrder == [] && blockIds == []
    {
      blockDatas, blockOrder, blockIds := map[], [], [];
    }

    /** The first loop of InitializeBlocks: clear the dictionary, then Add every block under its formatted id.
        A duplicate key throws, leaving the blocks added before it. */
    method RegisterBlocks(blocks: seq<BlockData>) returns (r: Outcome)
      modifies this
      ensures Valid()
      ensures blockDatas == Registered(blocks).datas && blockOrder == Registered(blocks).order
      ensures r == if Registered(blocks).failed then Fail(DuplicateKey) else Pass
      ensures blockIds == old(blockIds)
    {
      blockDatas, blockOrder := map[], [];
      var i := 0;
      while i < |blocks|
        invariant 0 <= i <= |blocks|
        invariant Registered(blocks[..i]) == Registration(blockDatas, blockOrder, false)
        invariant Valid()
        invariant blockIds == old(blockIds)
      {
        assert blocks[..i + 1][..i] == blocks[..i];
        var id := FormatBlockId(blocks[i].blockId);
        if id in blockDatas {
          RegisteredFailureSticks(blocks, i + 1);
          return Fail(DuplicateKey);
        }
        blockDatas := blockDatas[id := blocks[i]];
        blockOrder := blockOrder + [id];
        i := i + 1;
      }
      assert blocks[..i] == blocks;
      r := Pass;
    }

    /** GenerateAtlasTexture's tile counter loop over the solid blocks (the pixel copying is not modelled). */
    method GenerateAtlasTexture() returns (r: Outcome)
      modifies this
      ensures blockDatas == AtlasLayout(old(blockDatas), old(blockOrder)).datas
      ensures r == if AtlasLayout(old(blockDatas), old(blockOrder)).failed then Fail(MissingTopTexture) else Pass
      ensures blockOrder == old(blockOrder) && blockIds == old(blockIds)
    {
      var x, y := 0, 0;
      var i := 0;
      while i < |blockOrder|
        invariant 0 <= i <= |blockOrder|
        invariant blockOrder == old(blockOrder) && blockIds == old(blockIds)
        invariant AtlasLayout(old(blockDatas), blockOrder[..i]) == Atlas(blockDatas, Cursor(x, y), false)
      {
        assert blockOrder[..i + 1][..i] == blockOrder[..i];
        var k := blockOrder[i];
        if k in blockDatas && blockDatas[k].isSolid {
          var t := blockDatas[k].textures;
          if !t.hasTop {
            AtlasFailureSticks(old(blockDatas), blockOrder, i + 1);
            return Fail(MissingTopTexture);
          }
          t := t.(topOffset := Vec2(x, y));
          x := x + 1;
          if t.hasBottom {
            t := t.(bottomOffset := Vec2(x, y));
            x := x + 1;
          } else {
            t := t.(bottomOffset := t.topOffset);
          }
          if t.hasSide {
            t := t.(sideOffset := Vec2(x, y));
            x := x + 1;
          } else {
            t := t.(sideOffset := t.topOffset);
          }
          blockDatas := blockDatas[k := blockDatas[k].(textures := t)];
          if x >= AtlasTilesPerRow {
            x := 0;
            y := y + 1;
          }
        }
        i := i + 1;
      }
      assert blockOrder[..i] == blockOrder;
      r := Pass;
    }

    /** GenerateBlockIds: clear the short-id dictionary, then Add (id, key) for every key in enumeration order with
        a ushort counter. Past 65536 keys the counter wraps to 0 and the Add of a present key throws. */
    method GenerateBlockIds() returns (r: Outcome)
      modifies this`blockIds
      ensures |old(blockOrder)| <= 0x1_0000 ==> r == Pass && blockIds == blockOrder
      ensures |old(blockOrder)| > 0x1_0000 ==> r == Fail(DuplicateKey) && blockIds == blockOrder[..0x1_0000]
    {
      blockIds := [];
      var id: ushort := 0;
      var i := 0;
      while i < |blockOrder|
        invariant 0 <= i <= |blockOrder| && i <= 0x1_0000
        invariant id == i % 0x1_0000
        invariant blockIds == blockOrder[..i]
      {
        if id < |blockIds| {
          return Fail(DuplicateKey);
        }
        blockIds := blockIds + [blockOrder[i]];
        id := (id + 1) % 0x1_0000;
        i := i + 1;
      }
      assert blockOrder[..i] == blockOrder;
      r := Pass;
    }

    /** InitializeBlocks without the asset database and material steps: register, lay out the atlas, number the
        blocks. An exception in one step skips the rest. */
    method InitializeBlocks(blocks: seq<BlockData>) returns (r: Outcome)
      modifies this
      ensures Valid()
      ensures r == Pass <==>
        && !Registered(blocks).failed
        && !AtlasLayout(Registered(blocks).datas, Registered(blocks).order).failed
        && |Registered(blocks).order| <= 0x1_0000
      ensures r == Pass ==>
        && blockOrder == FormattedIds(blocks) && blockIds == blockOrder
        && blockDatas == AtlasLayout(Registered(blocks).datas, FormattedIds(blocks)).datas
        && WellFormed(View())
    {
      r := RegisterBlocks(blocks);
      if r.Fail? {
        return;
      }
      ghost var registered := blockDatas;
      r := GenerateAtlasTexture();
      AtlasKeysAndCursor(registered, blockOrder);
      assert Valid();
      if r.Fail? {
        return;
      }
      r := GenerateBlockIds();
      if r.Fail? {
        return;
      }
      assert blockIds == blockOrder;
      RegisteredKeys(blocks);
    }
  }

  /** Once an Add has thrown, the loop state is what Registered gives for every longer prefix's last step. */
  lemma RegisteredFailureSticks(blocks: seq<BlockData>, n: int)
    requires 0 < n <= |blocks|
    requires !Registered(blocks[..n - 1]).failed && FormatBlockId(blocks[n - 1].blockId) in Registered(blocks[..n - 1]).datas
    ensures Registered(blocks) == Registered(blocks[..n - 1]).(failed := true)
    decreases |blocks|
  {
    var init := blocks[..|blocks| - 1];
    if n < |blocks| {
      assert init[..n - 1] == blocks[..n - 1];
      RegisteredFailureSticks(init, n);
      assert Registered(init).failed;
      assert Registered(blocks) == Registered(init);
    } else {
      assert init == blocks[..n - 1];
      assert FormatBlockId(blocks[|blocks| - 1].blockId) in Registered(init).datas;
    }
  }

  lemma AtlasFailureSticks(datas: map<string, BlockData>, order: seq<string>, n: int)
    requires 0 < n <= |order|
    requires var prev := AtlasLayout(datas, order[..n - 1]);
      !prev.failed && order[n - 1] in prev.datas && prev.datas[order[n - 1]].isSolid
      && !prev.datas[order[n - 1]].textures.hasTop
    ensures AtlasLayout(datas, order) == AtlasLayout(datas, order[..n - 1]).(failed := true)
    decreases |order|
  {
    var init := order[..|order| - 1];
    if n < |order| {
      assert init[..n - 1] == order[..n - 1];
      AtlasFailureSticks(datas, init, n);
      assert AtlasLayout(datas, init).failed;
    } else {
      assert init == order[..n - 1];
    }
  }
}
