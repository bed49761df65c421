# MinecraftUnity core in Dafny

This project models the voxel-world core of MinecraftUnity, a Unity game in C#, and proves properties of the model:

- storing blocks in chunks;
- registering blocks;
- building chunk meshes;
- the terrain pipeline;
- the bookkeeping that streams chunks in and out around the player.

Every `.dfy` file is one module, and the modules follow the program's own components:

| module (file) | models |
|---|---|
| `Wrappers` (`wrappers.dfy`) | `Option`, `Result` and `Outcome`, and the exceptions the C# code throws, as values |
| `Vectors` (`vectors.dfy`) | `Vector3Int`, `Direction` and `DirectionExtentions.ToVector3Int` |
| `ChunkMath` (`chunk_math.dfy`) | the index math of `ChunkHelper` and the floor-division chunk origin of `WorldHelper` |
| `BlockRegistry` (`block_manager.dfy`) | `BlockManager`: formatted ids, registration, dense `ushort` short ids, the lookups, and the tile counter of the atlas layout |
| `BlockFaces`, `MeshBuffers`, `BlockMesh` (`block_faces.dfy`, `mesh_data.dfy`, `block_mesh.dfy`) | `BlockHelper`, with its face-culling rule, vertices in half-units and tiles, and the list-append buffers of `MeshData` |
| `WorldState` (`world_state.dfy`) | the classes whose fields change in place: `ChunkData` (a `ushort` array), `ChunkRenderer` (its mesh merge), `WorldRenderer` (its FIFO reuse pool) and `World` (its two dictionaries and loaded flag) |
| `ChunkAccess`, `ChunkMesh` (`chunk_access.dfy`, `chunk_mesh.dfy`) | reads and writes through `ChunkHelper` and `WorldHelper`, which delegate out-of-bounds accesses to the world; the neighbour lookups; `UpdateMeshData` |
| `DataProcessing`, `TreeGeneration` (`data_processing.dfy`, `tree_generator.dfy`) | the local-maxima search that places trees, over its literal offset table |
| `TerrainCells`, the six `*Layer` modules, `BiomeGeneration`, `TerrainGeneration` | the per-column chain of layer handlers and the two terrain passes; a handler's writes are first a list of `Write`s, then applied to the block arrays |
| `Streaming` (`streaming.dfy`) | the needed grid around the observer and the four generate/destroy selections |
| `WorldOps`, `WorldGeneration` (`world_ops.dfy`, `world_generation.dfy`) | `World`: `SetBlock`, `GetBlockId`, `CreateChunk`, `DestroyWorld`, the chunk-creation coroutine, and one streaming cycle (`HandleWorldGeneration`) run stage by stage |

The model follows the code as written, including behaviour the code's authors may not have meant. Each such behaviour is stated as a proved property of the model, and the rows below name the member:

- The neighbour table of `DataProcessing` lists (1,-1) twice and never (-1,1). As a result, in a 3x3 matrix the corner (2,0) is returned even though its diagonal neighbour, the centre, is greater (`DataProcessing.CornerNeverComparedWithCentre`).
- A fresh chunk holds short id 0 in every cell, which names the first block registered, not necessarily air (`ChunkAccess.ZeroCellReadsFirstBlock`).
- `ChunkRenderer` concatenates the collider triangles without shifting the transparent ones, so those indices point into the opaque vertices (`WorldState.MergeColliderIndicesNotShifted`, `WorldState.MergeColliderExample`).
- For a chunk below y 0, the stone column has H + 1 cells, so its last write lands one cell past the chunk top (`StoneLayer.ColumnSpec`).
- A block can be placed on the bottom layer of a chunk sitting at y 0. `World.SetBlock` then dereferences the missing chunk below and throws (`WorldOps.BottomLayerHasNoNeighbourBelow`).
- A streaming cycle inserts generated chunk data with `Dictionary.Add`. It therefore throws whenever a needed position has no renderer but still holds chunk data, for example a modified chunk that was scrolled out of view and back (`WorldGeneration.HandleWorldGeneration`).
- Two block ids that format to the same key, such as "Oak Log" and "oak_log", cannot both be registered (`BlockRegistry.DuplicateFormattedIdFails`).

Noise enters as function values. The order of the layer handlers comes from the Unity inspector, so it is a parameter. The point at which the cancellation token is first seen is a parameter of the cycle.

## Model

| member | source | states |
|---|---|---|
| Vectors.ToVector3Int | Assets/Scripts/Minecraft/DirectionExtentions.cs:11-21 | every direction maps to a vector with exactly one nonzero component, which is 1 or -1 |
| Vectors.ToVector3IntOfOrdinal | Assets/Scripts/Minecraft/DirectionExtentions.cs:12-19 | an enum value outside the six named ordinals takes the throwing default arm, and only such a value does; a named one gives that direction's vector |
| Vectors.ToVector3IntInjective | Assets/Scripts/Minecraft/DirectionExtentions.cs:13-18 | distinct directions map to distinct vectors |
| Vectors.OppositeIsNegated | Assets/Scripts/Minecraft/DirectionExtentions.cs:13-18 | Right/Left, Up/Down and Forward/Back map to negated vectors |
| Vectors.AgreesWithEnumComments | Assets/Scripts/Minecraft/Direction.cs:3-8 | the vectors point the way the enum's comments say: +x, -x, -y, +y, +z, -z |
| ChunkMath.LocalFromWorld | Assets/Scripts/Minecraft/World/Chunk/ChunkHelper.cs:38-44 | the local position plus the chunk origin is the world position again |
| ChunkMath.LocalFromWorldOfTranslation | Assets/Scripts/Minecraft/World/Chunk/ChunkHelper.cs:38-44 | the local position of origin + local is local: world -> local undoes the translation used when delegating to the world |
| ChunkMath.IndexRoundTrip | Assets/Scripts/Minecraft/World/Chunk/ChunkHelper.cs:13-30 | every in-bounds local position has an index in [0, S*H*S) and the index maps back to that position |
| ChunkMath.LocalFromIndexRoundTrip | Assets/Scripts/Minecraft/World/Chunk/ChunkHelper.cs:13-30 | every index in [0, S*H*S) maps to an in-bounds local position whose index is that index |
| ChunkMath.IndexBelowVolume | Assets/Scripts/Minecraft/World/Chunk/ChunkHelper.cs:13-16 | x + S*y + S*H*z lies in [0, S*H*S) for an in-bounds position |
| ChunkMath.FloorToSpec | Assets/Scripts/Minecraft/World/WorldHelper.cs:17-19 | FloorToInt(v / n) * n is a multiple of n at most n - 1 below v, negative v included, and flooring it again changes nothing |
| ChunkMath.ChunkOriginSpec | Assets/Scripts/Minecraft/World/WorldHelper.cs:15-21 | the chunk origin is aligned (x, z multiples of S, y of H) and the position minus its origin is in bounds on every axis |
| ChunkMath.ChunkOriginIdempotent | Assets/Scripts/Minecraft/World/WorldHelper.cs:15-21 | the origin of an origin is itself |
| ChunkMath.ChunkOriginOfBox | Assets/Scripts/Minecraft/World/WorldHelper.cs:15-21 | an aligned position is the chunk origin of a position iff that position lies in its box, both directions |
| ChunkMath.OutsideHasOtherOrigin | Assets/Scripts/Minecraft/World/Chunk/ChunkHelper.cs:117-119 | an out-of-bounds local position of a chunk lies in another chunk, so the delegated world write never targets the chunk itself |
| WorldState.ChunkData.constructor | Assets/Scripts/Minecraft/World/Chunk/ChunkData.cs:6-13 | a fresh chunk keeps the given world, origin and sizes, has a new block array of S*H*S cells all holding short id 0, is not modified and has no tree data |
| WorldState.Shifted | Assets/Scripts/Minecraft/World/Chunk/ChunkRenderer.cs:76-78 | the Select(val => val + n) of the transparent submesh: same length, every index moved by n |
| WorldState.MergeRenderIndices | Assets/Scripts/Minecraft/World/Chunk/ChunkRenderer.cs:71-80 | for well-formed buffers the merged vertices are the opaque ones followed by the transparent ones; submesh 0 indexes exactly the opaque vertices, submesh 1 exactly the transparent ones and picks the same vertex as the transparent buffer did; one UV per merged vertex |
| WorldState.MergeColliderIndicesNotShifted | Assets/Scripts/Minecraft/World/Chunk/ChunkRenderer.cs:86-89 | the collider triangles are concatenated without an offset: with no more transparent than opaque collider vertices, every merged collider index points into the opaque range |
| WorldState.MergeColliderExample | Assets/Scripts/Minecraft/World/Chunk/ChunkRenderer.cs:86-89 | one collidable face in each buffer: the collider mesh draws the opaque quad twice and never uses the transparent quad's vertices, while the render submesh 1 is shifted to 4..7 |
| WorldState.ChunkRenderer.constructor | Assets/Scripts/Minecraft/World/WorldRenderer.cs:47-51 | an instantiated chunk renderer is active, at the given position, with no chunk data and an empty mesh |
| WorldState.ChunkRenderer.IsModified | Assets/Scripts/Minecraft/World/Chunk/ChunkRenderer.cs:18-21 | the getter reads the chunk data's flag, and throws exactly when there is no chunk data |
| WorldState.ChunkRenderer.SetIsModified | Assets/Scripts/Minecraft/World/Chunk/ChunkRenderer.cs:18-21 | the setter writes the chunk data's flag only, and throws when there is no chunk data |
| WorldState.ChunkRenderer.Initialize | Assets/Scripts/Minecraft/World/Chunk/ChunkRenderer.cs:48-51 | binds the chunk data and changes nothing else |
| WorldState.ChunkRenderer.UpdateMeshWith | Assets/Scripts/Minecraft/World/Chunk/ChunkRenderer.cs:53-92 | the mesh is cleared; without chunk data (the material lookup) or without nested transparent data it throws leaving the cleared mesh, otherwise the mesh becomes the merge of the two buffers; the binding, activity and position stay |
| WorldState.World.constructor | Assets/Scripts/Minecraft/World/World.cs:57-61 | a new world has empty dictionaries, is not loaded and satisfies the storage invariant |
| WorldState.WorldRenderer.constructor | Assets/Scripts/Minecraft/World/WorldRenderer.cs:13 | the pool starts empty |
| WorldState.WorldRenderer.RemoveChunkRenderer | Assets/Scripts/Minecraft/World/WorldRenderer.cs:30-33 | the renderer is deactivated and appended at the back of the pool; its binding, mesh and position stay |
| WorldState.WorldRenderer.Clear | Assets/Scripts/Minecraft/World/WorldRenderer.cs:19-24 | every renderer of the render map is destroyed, the pool is emptied (pooled renderers are not destroyed by it) and the render map is left as it is |
| WorldState.WorldRenderer.RenderChunk | Assets/Scripts/Minecraft/World/WorldRenderer.cs:42-62 | the front of the pool is reused (FIFO) or a new renderer made; a missing chunk data throws after the pool was popped; otherwise the renderer is bound to the position's chunk data, placed at the position, active, and shows the merge of the mesh data |
| BlockRegistry.ReplaceSpaces | Assets/Scripts/Minecraft/Block/BlockManager.cs:127 | same length; every space becomes '_' and every other character is kept |
| BlockRegistry.Lower | Assets/Scripts/Minecraft/Block/BlockManager.cs:128 | same length; every ASCII upper-case letter becomes its lower-case letter, every other character is kept |
| BlockRegistry.FormatBlockId | Assets/Scripts/Minecraft/Block/BlockManager.cs:125-129 | position by position: a space becomes '_', every other character is lower-cased; the length is kept |
| BlockRegistry.FormatBlockIdShape | Assets/Scripts/Minecraft/Block/BlockManager.cs:125-129 | a formatted id has the input's length, no space and no ASCII upper-case letter; spaces became '_', other characters are lower-cased |
| BlockRegistry.FormatBlockIdIdempotent | Assets/Scripts/Minecraft/Block/BlockManager.cs:125-129 | formatting a formatted id changes nothing |
| BlockRegistry.FormattedIds | Assets/Scripts/Minecraft/Block/BlockManager.cs:38-41 | the keys the registration loop adds: one formatted id per block, in list order |
| BlockRegistry.RegisteredOrder | Assets/Scripts/Minecraft/Block/BlockManager.cs:38-41 | a successful registration enumerates the formatted ids in list order, and its keys are exactly those ids |
| BlockRegistry.RegisteredFailsIffDuplicate | Assets/Scripts/Minecraft/Block/BlockManager.cs:38-41 | registration throws (Dictionary.Add) exactly when two blocks share a formatted id |
| BlockRegistry.DuplicateFormattedIdFails | Assets/Scripts/Minecraft/Block/BlockManager.cs:38-41 | two blocks whose ids format to the same key, such as "Oak Log" and "oak_log", cannot both be registered |
| BlockRegistry.RegisteredData | Assets/Scripts/Minecraft/Block/BlockManager.cs:38-41 | after a successful registration every block is found under its formatted id |
| BlockRegistry.PlaceTexturesSpec | Assets/Scripts/Minecraft/Block/BlockManager.cs:75-102 | one solid block from a cursor column in 0..15: the texture flags stay, offsets are within columns 0..17 with the top inside the row, a missing bottom or side reuses the top offset, and the next cursor column is in 0..15 again |
| BlockRegistry.AtlasKeysAndCursor | Assets/Scripts/Minecraft/Block/BlockManager.cs:72-103 | the layout keeps the set of block keys and the cursor column stays in 0..15 between blocks |
| BlockRegistry.AtlasKeepsBlocks | Assets/Scripts/Minecraft/Block/BlockManager.cs:74 | only texture offsets change, and only for solid blocks the loop visited; non-solid blocks are untouched |
| BlockRegistry.AtlasOffsets | Assets/Scripts/Minecraft/Block/BlockManager.cs:74-96 | after a layout that did not throw, every visited solid block has offsets in range and a missing bottom or side shares the top tile |
| BlockRegistry.AtlasLayoutSpec | Assets/Scripts/Minecraft/Block/BlockManager.cs:72-103 | the layout's whole contract: keys kept, cursor in range, only solid visited blocks change and only in their offsets, offsets in range with shared top tiles |
| BlockRegistry.MissingTopTextureFails | Assets/Scripts/Minecraft/Block/BlockManager.cs:79-81 | a solid block without a top texture makes the layout throw |
| BlockRegistry.AtlasColumnReaches17 | Assets/Scripts/Minecraft/Block/BlockManager.cs:98-102 | the wrap test runs only after a whole block: a three-texture block at column 15 gets tiles 15, 16 and 17, and the cursor then wraps to the next row |
| BlockRegistry.GetBlockDataById | Assets/Scripts/Minecraft/Block/BlockManager.cs:136-144 | succeeds exactly for a registered id, with its data; null throws ArgumentNull, an unknown id throws |
| BlockRegistry.GetBlockDataByShortId | Assets/Scripts/Minecraft/Block/BlockManager.cs:151-156 | an unknown short id throws; a known one gives the string lookup of the key it names |
| BlockRegistry.FirstIndexOf | Assets/Scripts/Minecraft/Block/BlockManager.cs:165 | the first position holding the value, or the length when none does |
| BlockRegistry.ConvertToShortId | Assets/Scripts/Minecraft/Block/BlockManager.cs:158-166 | null throws ArgumentNull, an unregistered id throws; the result is the first short id naming the id, and First throws when no short id names it |
| BlockRegistry.ShortIdRoundTrip | Assets/Scripts/Minecraft/Block/BlockManager.cs:151-166 | in a well-formed registry GetBlockDataById(ConvertToShortId(id)) == GetBlockDataById(id), and the short id names the id back |
| BlockRegistry.ShortIdIsDense | Assets/Scripts/Minecraft/Block/BlockManager.cs:109-118 | in a well-formed registry every short id below the count converts back to itself and has data |
| BlockRegistry.BlockManager.constructor | Assets/Scripts/Minecraft/Block/BlockManager.cs:16-17 | both dictionaries start empty |
| BlockRegistry.BlockManager.RegisterBlocks | Assets/Scripts/Minecraft/Block/BlockManager.cs:33-41 | the dictionary and its enumeration order become those of the registration function, and the call throws DuplicateKey exactly when that registration fails; the short-id table is untouched |
| BlockRegistry.BlockManager.GenerateAtlasTexture | Assets/Scripts/Minecraft/Block/BlockManager.cs:69-107 | the blocks become those of the atlas layout over the enumeration order, and the call throws MissingTopTexture exactly when the layout fails |
| BlockRegistry.BlockManager.GenerateBlockIds | Assets/Scripts/Minecraft/Block/BlockManager.cs:109-118 | short id i names the i-th key in enumeration order; past 65536 keys the ushort counter wraps and the Add throws DuplicateKey, leaving the first 65536 |
| BlockRegistry.BlockManager.InitializeBlocks | Assets/Scripts/Minecraft/Block/BlockManager.cs:30-67 | succeeds exactly when registration and atlas layout do not throw and there are at most 65536 blocks; then the short ids are the formatted ids in list order and the registry is well formed |
| BlockRegistry.RegisteredFailureSticks | Assets/Scripts/Minecraft/Block/BlockManager.cs:38-41 | once an Add throws, the registration of the whole list is the state at that Add |
| BlockRegistry.AtlasFailureSticks | Assets/Scripts/Minecraft/Block/BlockManager.cs:74-81 | once a solid block without a top texture is reached, the layout of the whole order is the state at that block |
| BlockFaces.DirectionsArePermutation | Assets/Scripts/Minecraft/Block/BlockRendererHelper.cs:8-15 | the meshing order Up, Down, Right, Left, Forward, Back lists each of the six directions exactly once |
| BlockFaces.SideTile | Assets/Scripts/Minecraft/Block/BlockRendererHelper.cs:23-29 | the top tile for Up, the bottom tile for Down, the side tile for the four others |
| BlockFaces.SideUvs | Assets/Scripts/Minecraft/Block/BlockRendererHelper.cs:37-57 | four UVs, corner k of the tile of that side, in emission order |
| BlockFaces.SideVertices | Assets/Scripts/Minecraft/Block/BlockRendererHelper.cs:65-109 | four corners per side |
| BlockFaces.SideVerticesOnFace | Assets/Scripts/Minecraft/Block/BlockRendererHelper.cs:65-109 | each corner lies half a block out along the side's direction and half a block either way on the two other axes; the four corners are distinct |
| BlockFaces.SideFace | Assets/Scripts/Minecraft/Block/BlockRendererHelper.cs:119-127 | the appended face has four vertices and four UVs and is a collider face iff the block is collidable |
| BlockFaces.FaceTargetSpec | Assets/Scripts/Minecraft/Block/BlockRendererHelper.cs:149-166 | a side goes to the transparent buffer iff the block is transparent and the loaded neighbour is not solid; to the opaque buffer iff the block is opaque and the loaded neighbour is non-solid or transparent; an unloaded neighbour gives no face |
| BlockFaces.SolidNeighboursHideSide | Assets/Scripts/Minecraft/Block/BlockRendererHelper.cs:163-166 | an opaque block next to an opaque solid block draws no side there |
| MeshBuffers.QuadIndices | Assets/Scripts/Minecraft/World/Chunk/MeshData.cs:44-50 | six indices, all among the last four of n vertices |
| MeshBuffers.PushFace | Assets/Scripts/Minecraft/Block/BlockRendererHelper.cs:119-127 | the face's corners and UVs are appended, the triangle list gains the quad of the new last four vertices, and the collider lists grow the same way iff the face is collidable |
| MeshBuffers.IndicesBelowAppend | Assets/Scripts/Minecraft/World/Chunk/MeshData.cs:43-50 | appending the quad of the last four vertices keeps every index in range |
| MeshBuffers.PushFaceWellFormed | Assets/Scripts/Minecraft/World/Chunk/MeshData.cs:36-64 | whole faces keep the buffers well formed: vertices in groups of four, six indices per group, all in range, one UV per vertex, the same for the collider lists |
| MeshBuffers.PushFacesWellFormed | Assets/Scripts/Minecraft/World/Chunk/MeshData.cs:36-64 | any run of faces keeps the buffers well formed and adds 4 vertices and 6 indices per face |
| MeshBuffers.PushFacesAppend | Assets/Scripts/Minecraft/Block/BlockRendererHelper.cs:119-127 | pushing two runs of faces one after the other is pushing their concatenation |
| MeshBuffers.EmptyWellFormed | Assets/Scripts/Minecraft/World/Chunk/MeshData.cs:8-26 | empty buffers are well formed |
| MeshBuffers.MeshData.constructor | Assets/Scripts/Minecraft/World/Chunk/MeshData.cs:8-17 | empty lists and a fresh nested transparent mesh data with empty lists and no nested data of its own |
| MeshBuffers.MeshData.Nested | Assets/Scripts/Minecraft/World/Chunk/MeshData.cs:19-26 | empty lists, the given transparency flag and no nested data |
| MeshBuffers.MeshData.AddVertex | Assets/Scripts/Minecraft/World/Chunk/MeshData.cs:36-41 | appends to the vertices, and to the collider vertices iff asked; nothing else changes |
| MeshBuffers.MeshData.AddQuadTriangles | Assets/Scripts/Minecraft/World/Chunk/MeshData.cs:43-64 | appends [n-4, n-3, n-2, n-4, n-2, n-1] over the vertex count, and the same over the collider vertex count iff asked; nothing else changes |
| MeshBuffers.MeshData.AddUvs | Assets/Scripts/Minecraft/Block/BlockRendererHelper.cs:125 | appends the UVs; nothing else changes |
| MeshBuffers.MeshData.AddFace | Assets/Scripts/Minecraft/Block/BlockRendererHelper.cs:119-127 | the four AddVertex calls, AddQuadTriangles and the UVs leave the lists as PushFace says |
| BlockMesh.NeighbourData | Assets/Scripts/Minecraft/Block/BlockRendererHelper.cs:146-155 | a null neighbour id gives None, an exception of the chunk lookup is passed on, and a found block data is the registry's entry for the neighbour's id |
| BlockMesh.SideTargets | Assets/Scripts/Minecraft/Block/BlockRendererHelper.cs:145-166 | without an exception, one target per side visited |
| BlockMesh.SideTargetsSpec | Assets/Scripts/Minecraft/Block/BlockRendererHelper.cs:145-166 | each side's target is the culling rule applied to that side's neighbour; an exception comes from the lookup of some side's neighbour |
| BlockMesh.SideTargetsSnoc | Assets/Scripts/Minecraft/Block/BlockRendererHelper.cs:145-155 | one more side is looked at only if the earlier sides raised nothing, and its exception or target is appended |
| BlockMesh.SideTargetsStop | Assets/Scripts/Minecraft/Block/BlockRendererHelper.cs:145-155 | the first neighbour lookup that throws ends the walk with that exception |
| BlockMesh.FacesForSound | Assets/Scripts/Minecraft/Block/BlockRendererHelper.cs:158-166 | every face kept is the face of a side with the buffer's target |
| BlockMesh.FacesForComplete | Assets/Scripts/Minecraft/Block/BlockRendererHelper.cs:158-166 | the face of every side with the buffer's target is kept |
| BlockMesh.FacesForLength | Assets/Scripts/Minecraft/Block/BlockRendererHelper.cs:145-166 | at most one face per side |
| BlockMesh.FacesForSpec | Assets/Scripts/Minecraft/Block/BlockRendererHelper.cs:145-166 | the faces kept are whole faces of exactly the sides with the buffer's target, at most one per side |
| BlockMesh.FacesSplit | Assets/Scripts/Minecraft/Block/BlockRendererHelper.cs:158-166 | no side goes to both buffers: opaque and transparent faces together number at most the sides |
| BlockMesh.BlockFacesOfBound | Assets/Scripts/Minecraft/Block/BlockRendererHelper.cs:138-169 | one block contributes at most six faces in all, each a whole face |
| BlockMesh.HiddenBlockDrawsNothing | Assets/Scripts/Minecraft/Block/BlockRendererHelper.cs:150-166 | when every side is hidden or faces an unloaded neighbour, neither buffer gets a face |
| BlockMesh.NoFacesWhenNoneWanted | Assets/Scripts/Minecraft/Block/BlockRendererHelper.cs:158-166 | with no side targeting a buffer that buffer gets nothing |
| BlockMesh.PushFacesStep | Assets/Scripts/Minecraft/Block/BlockRendererHelper.cs:145-166 | one more side appends its face after the earlier ones exactly when its target is the buffer's |
| BlockMesh.DrawSide | Assets/Scripts/Minecraft/Block/BlockRendererHelper.cs:146-166 | the side's target is the culling rule over the neighbour's data (or the lookup's exception), and only the buffer it names gains the side's face |
| BlockMesh.SideStep | Assets/Scripts/Minecraft/Block/BlockRendererHelper.cs:145-155 | a side whose lookup succeeds extends the side targets by its target |
| BlockMesh.BufferStep | Assets/Scripts/Minecraft/Block/BlockRendererHelper.cs:158-166 | one pass of the loop leaves each buffer as the faces chosen so far pushed in order |
| BlockMesh.SideStop | Assets/Scripts/Minecraft/Block/BlockRendererHelper.cs:145-155 | a side whose lookup throws makes the whole walk throw that exception |
| BlockMesh.DrawSides | Assets/Scripts/Minecraft/Block/BlockRendererHelper.cs:145-166 | the loop over Directions returns the side targets or the first exception, and each buffer holds the faces of the sides aimed at it, in order |
| BlockMesh.UpdateBlockMeshData | Assets/Scripts/Minecraft/Block/BlockRendererHelper.cs:138-169 | null or "air" adds nothing; an unregistered id or a failing neighbour lookup raises; otherwise the opaque and the transparent mesh data gain exactly the visible sides' faces in the order of Directions |
| ChunkAccess.GetChunkDataSpec | Assets/Scripts/Minecraft/World/WorldHelper.cs:41-45 | in a valid world the chunk data found holds the position in its box and is stored under its own origin, and any chunk data whose box holds the position is the one found |
| ChunkAccess.GetChunkSpec | Assets/Scripts/Minecraft/World/WorldHelper.cs:29-33 | every position in an aligned key's box finds that key's renderer; a position outside it looks under another key |
| ChunkAccess.BlockIdOf | Assets/Scripts/Minecraft/World/Chunk/ChunkHelper.cs:99-100 | a short id reads as the id of the block data it indexes, and throws exactly when the block manager has no such index |
| ChunkAccess.GetBlockIdInWorldSpec | Assets/Scripts/Minecraft/World/WorldHelper.cs:104-112 | null when no chunk data holds the position, else the id of the cell of the chunk data that holds it |
| ChunkAccess.ChunkAndWorldAgree | Assets/Scripts/Minecraft/World/Chunk/ChunkHelper.cs:94-101 | reading through a chunk stored under its origin agrees with reading its world position through the world, inside and outside the chunk |
| ChunkAccess.ZeroCellReadsFirstBlock | Assets/Scripts/Minecraft/World/Chunk/ChunkHelper.cs:99-100 | a cell still holding 0 reads as the first registered block, and throws with no blocks registered |
| ChunkAccess.TargetInRange | Assets/Scripts/Minecraft/World/Chunk/ChunkHelper.cs:117-125 | the cell a chunk write reaches lies in the chunk's own array or in a loaded chunk's array |
| ChunkAccess.WorldTargetInRange | Assets/Scripts/Minecraft/World/WorldHelper.cs:85-91 | the cell a world write reaches lies in a loaded chunk's array |
| ChunkAccess.SetBlockInChunk | Assets/Scripts/Minecraft/World/Chunk/ChunkHelper.cs:112-126 | a null id throws and writes nothing; an unknown id throws and writes nothing; otherwise exactly the target cell changes, to the new short id when replacing or when it held 0; all other arrays are unchanged |
| ChunkAccess.SetBlockInWorld | Assets/Scripts/Minecraft/World/WorldHelper.cs:80-93 | a null id throws; false when no chunk data holds the position; otherwise true after writing exactly the target cell, and a replacing write reads back as the written block's own id |
| ChunkAccess.RemoveChunk | Assets/Scripts/Minecraft/World/WorldHelper.cs:52-59 | with no renderer under the key nothing changes; otherwise the renderer is deactivated, pooled and removed from the map, and the chunk datas are kept |
| ChunkAccess.RemoveChunkData | Assets/Scripts/Minecraft/World/WorldHelper.cs:66-68 | the key leaves the chunk data map, the renderers are kept and the world stays valid |
| ChunkAccess.GetNeighbourChunks | Assets/Scripts/Minecraft/World/WorldHelper.cs:193-215 | one lookup per face the block touches, in the order -x, +x, -y, +y, -z, +z, each the chunk data across that face |
| ChunkAccess.NeighbourStepsSpec | Assets/Scripts/Minecraft/World/WorldHelper.cs:180-215 | the steps are exactly the unit steps that leave the chunk, there is one exactly when IsOnEdgeOfTheChunk holds, and each leads to another chunk origin |
| ChunkAccess.StepLeavesChunk | Assets/Scripts/Minecraft/World/WorldHelper.cs:196-213 | a direction's step is listed exactly when it leaves the chunk |
| ChunkAccess.StepMembers | Assets/Scripts/Minecraft/World/WorldHelper.cs:196-213 | the steps listed are the six face steps, each guarded by the block lying on that face |
| ChunkAccess.StepIsUnitAndLeaves | Assets/Scripts/Minecraft/World/WorldHelper.cs:196-213 | every listed step is a unit step out of the chunk |
| ChunkMesh.IterationCoversChunk | Assets/Scripts/Minecraft/World/Chunk/ChunkHelper.cs:63-67 | the walk over indices visits every local position of the chunk, each in bounds and each exactly once |
| ChunkMesh.ChunkFacesBound | Assets/Scripts/Minecraft/World/Chunk/ChunkHelper.cs:75-82 | meshing n cells yields only whole faces, at most six per cell |
| ChunkMesh.MeshCell | Assets/Scripts/Minecraft/World/Chunk/ChunkHelper.cs:77-80 | one cell's id is read through the chunk and its visible faces are appended to the two buffers, or the exception of the read or of UpdateBlockMeshData is returned |
| ChunkMesh.ChunkFacesNext | Assets/Scripts/Minecraft/World/Chunk/ChunkHelper.cs:63-67 | an exception in one cell is the exception of the whole chunk; otherwise its faces follow those of the cells before it |
| ChunkMesh.MeshNextCell | Assets/Scripts/Minecraft/World/Chunk/ChunkHelper.cs:63-80 | one turn of the walk takes buffers holding the faces of the earlier cells to buffers holding the faces up to this cell, or ends with the chunk's exception |
| ChunkMesh.MeshAllCells | Assets/Scripts/Minecraft/World/Chunk/ChunkHelper.cs:63-80 | every cell in index order is meshed into the empty buffers, which end holding the chunk's faces, or the first exception is returned |
| ChunkMesh.UpdateMeshData | Assets/Scripts/Minecraft/World/Chunk/ChunkHelper.cs:75-82 | a fresh mesh data and its fresh transparent one hold the opaque and transparent faces of all cells in index order, or the first exception is returned |
| ChunkMesh.ChunkFacesStop | Assets/Scripts/Minecraft/World/Chunk/ChunkHelper.cs:63-67 | once a prefix of cells throws, every longer prefix throws the same exception |
| ChunkMesh.UpdateMesh | Assets/Scripts/Minecraft/World/Chunk/ChunkRenderer.cs:97-99 | with no chunk data it throws and keeps the mesh; an exception while meshing keeps the mesh; otherwise the mesh is the merge of the chunk's opaque and transparent buffers; chunk, position and activity are kept |
| ChunkMesh.RenderedMeshConsistent | Assets/Scripts/Minecraft/World/Chunk/ChunkRenderer.cs:70-80 | the rendered mesh has four vertices per face and one UV per vertex; submesh 0 indexes the opaque vertices and submesh 1 exactly the transparent vertices after them |
| DataProcessing.OffsetsAsWritten | Assets/Scripts/Minecraft/World/DataProcessing.cs:7-16 | the table has eight entries, the last repeating (1,-1), so it checks every off-centre offset except (-1,1) |
| DataProcessing.GridOf | Assets/Scripts/Minecraft/World/DataProcessing.cs:18-21 | a matrix read as rows: rectangular, one row per first index, cell for cell equal |
| DataProcessing.RowMaximaSpec | Assets/Scripts/Minecraft/World/DataProcessing.cs:21-26 | the row pass returns exactly the row's cells that pass the neighbour check, in increasing y |
| DataProcessing.MaximaSpec | Assets/Scripts/Minecraft/World/DataProcessing.cs:18-29 | after n rows the result holds exactly the passing cells of those rows, ordered by x then y |
| DataProcessing.LocalMaximaSpec | Assets/Scripts/Minecraft/World/DataProcessing.cs:18-29 | a cell is returned iff it is in the matrix and strictly above every in-bounds neighbour the table checks; the result is ordered and free of duplicates |
| DataProcessing.CheckNeighbours | Assets/Scripts/Minecraft/World/DataProcessing.cs:31-43 | true iff every in-bounds neighbour at the table's offsets is strictly below the centre; out-of-bounds offsets are skipped |
| DataProcessing.RowLocalMaxima | Assets/Scripts/Minecraft/World/DataProcessing.cs:21-26 | the inner loop returns the row's passing cells in increasing y |
| DataProcessing.FindLocalMaxima | Assets/Scripts/Minecraft/World/DataProcessing.cs:18-29 | the result is exactly the local maxima of the matrix, rows in order |
| DataProcessing.SingleCellIsMaximum | Assets/Scripts/Minecraft/World/DataProcessing.cs:31-43 | a one-cell matrix has no neighbour in bounds, so its cell is returned |
| DataProcessing.HasCheckedNeighbour | Assets/Scripts/Minecraft/World/DataProcessing.cs:7-16 | in a matrix of at least two cells every cell has a checked neighbour in bounds |
| DataProcessing.ConstantCellIsNotMaximum | Assets/Scripts/Minecraft/World/DataProcessing.cs:23 | no cell of a constant matrix of at least two cells passes the strict comparison |
| DataProcessing.ConstantRowHasNoMaximum | Assets/Scripts/Minecraft/World/DataProcessing.cs:21-26 | no row of such a matrix yields a cell |
| DataProcessing.ConstantRowsHaveNoMaximum | Assets/Scripts/Minecraft/World/DataProcessing.cs:20-27 | no prefix of its rows yields a cell |
| DataProcessing.ConstantGridHasNoMaximum | Assets/Scripts/Minecraft/World/DataProcessing.cs:18-29 | a constant matrix of at least two cells has no local maximum |
| DataProcessing.CornerNeverComparedWithCentre | Assets/Scripts/Minecraft/World/DataProcessing.cs:15 | in a 3x3 matrix the corner (2,0) is returned next to its strictly greater diagonal neighbour (1,1), because the offset (-1,1) is missing |
| DataProcessing.CornerNeighbour | Assets/Scripts/Minecraft/World/DataProcessing.cs:7-16 | each neighbour the table checks for that corner is below it |
| DataProcessing.CentreNeighbour | Assets/Scripts/Minecraft/World/DataProcessing.cs:7-16 | each neighbour the table checks for a strictly greatest centre is below it |
| DataProcessing.StrictCentreIsMaximum | Assets/Scripts/Minecraft/World/DataProcessing.cs:18-29 | the strictly greatest centre of a 3x3 matrix is returned |
| StoneLayer.IgnoresY | Assets/Scripts/Minecraft/World/Biome/BlockLayers/StoneLayerHandler.cs:22-42 | the handler's decision depends on the column and the ground, never on the y it is called with |
| StoneLayer.ColumnSpec | Assets/Scripts/Minecraft/World/Biome/BlockLayers/StoneLayerHandler.cs:22-42 | handled iff the chunk starts at or below the ground and the noise exceeds the threshold; then stone replaces every y from the origin's y upward, ground − origin + 1 cells for a chunk at or above 0 and H + 1 cells for a chunk below 0 |
| StoneLayer.ColumnPrefix | Assets/Scripts/Minecraft/World/Biome/BlockLayers/StoneLayerHandler.cs:36-38 | the first n writes of the column are the column of n |
| StoneLayer.PlaceColumn | Assets/Scripts/Minecraft/World/Biome/BlockLayers/StoneLayerHandler.cs:36-38 | the loop's writes are applied in order, and the first one that throws ends it with that exception |
| StoneLayer.TryHandling | Assets/Scripts/Minecraft/World/Biome/BlockLayers/StoneLayerHandler.cs:22-42 | the result and the new cells are those of running the decision's writes |
| AirLayer.Effect | Assets/Scripts/Minecraft/World/Biome/BlockLayers/AirLayerHandler.cs:6-12 | at or below the ground nothing changes and the handler declines; above it exactly the cell the position reaches becomes "air" and the handler returns true |
| AirLayer.TryHandling | Assets/Scripts/Minecraft/World/Biome/BlockLayers/AirLayerHandler.cs:6-12 | the result and the new cells are those of running the decision's write |
| TerrainCells.TargetInAgrees | Assets/Scripts/Minecraft/World/Chunk/ChunkHelper.cs:117-124 | the target computed on the chunk's own reach is the cell a write through the chunk reaches |
| TerrainCells.ReadAtAgrees | Assets/Scripts/Minecraft/World/Chunk/ChunkHelper.cs:94-101 | reading the chunk's cells through the snapshot is ChunkHelper.GetBlockId |
| TerrainCells.ApplySpec | Assets/Scripts/Minecraft/World/Chunk/ChunkHelper.cs:112-126 | a write keeps every array and its length, changes at most the target cell, and leaves there the converted id when replacing or when it held 0 |
| TerrainCells.ApplyAllAppend | Assets/Scripts/Minecraft/World/Chunk/ChunkHelper.cs:112-126 | applying a concatenation of writes applies the first part, then the second, unless the first throws |
| TerrainCells.ApplyAllSnoc | Assets/Scripts/Minecraft/World/Chunk/ChunkHelper.cs:112-126 | one more write after a sequence that succeeded applies to that sequence's cells |
| TerrainCells.ApplyAllFailureSticks | Assets/Scripts/Minecraft/World/Chunk/ChunkHelper.cs:112-126 | after an exception, longer write sequences throw the same exception |
| TerrainCells.ApplyOnCells | Assets/Scripts/Minecraft/World/Chunk/ChunkHelper.cs:122-125 | cells that changed only at the target, to the written value, are the cells the write gives |
| TerrainCells.WriteBlock | Assets/Scripts/Minecraft/World/Chunk/ChunkHelper.cs:112-126 | a SetBlock through the chunk with a non-null id throws what the write throws, or leaves the reachable arrays exactly as the write says |
| TerrainCells.PrefixFailure | Assets/Scripts/Minecraft/World/Chunk/ChunkHelper.cs:112-126 | an exception within a prefix of the writes is the exception of the whole sequence |
| TerrainCells.WriteNext | Assets/Scripts/Minecraft/World/Chunk/ChunkHelper.cs:112-126 | one more SetBlock after writes that succeeded leaves the cells of the longer sequence, or its exception |
| TerrainCells.WriteAndAccept | Assets/Scripts/Minecraft/World/Biome/BlockLayers/AirLayerHandler.cs:8-9 | a handler that writes once and returns true reports that write's exception, or true and the written cells |
| TerrainCells.OneWriteRun | Assets/Scripts/Minecraft/World/Chunk/ChunkHelper.cs:112-126 | a decision to write once and return true changes exactly the target cell, throws for an unknown id, and changes nothing for a position no chunk holds |
| SurfaceLayer.Effect | Assets/Scripts/Minecraft/World/Biome/BlockLayers/SurfaceLayerHandler.cs:10-23 | the ground cell of the column becomes the surface block and the `depth` cells below it the subsurface block, each one cell written at the world y minus the chunk's y; any other position is declined with nothing changed |
| SurfaceLayer.DefaultLayers | Assets/Scripts/Minecraft/World/Biome/BlockLayers/SurfaceLayerHandler.cs:6-23 | with the defaults, handled exactly from 4 below the ground to the ground: grass at the ground, dirt beneath |
| SurfaceLayer.TryHandling | Assets/Scripts/Minecraft/World/Biome/BlockLayers/SurfaceLayerHandler.cs:10-23 | the result and the new cells are those of running the decision's write |
| WaterLayer.Effect | Assets/Scripts/Minecraft/World/Biome/BlockLayers/WaterLayerHandler.cs:6-22 | up to the water threshold, sand from 4 below the ground to 1 above it and water from 2 above the ground, each one cell written at the position as given; above the threshold or deeper than 4 below the ground, declined with nothing changed |
| WaterLayer.TryHandling | Assets/Scripts/Minecraft/World/Biome/BlockLayers/WaterLayerHandler.cs:6-22 | the result and the new cells are those of running the decision's write |
| UndergroundLayer.Effect | Assets/Scripts/Minecraft/World/Biome/BlockLayers/UndergroundLayerHandler.cs:8-20 | at y = -200 bedrock even above the ground; elsewhere below the ground the underground block; each one cell at the world y minus the chunk's y; any other position declined with nothing changed |
| UndergroundLayer.TryHandling | Assets/Scripts/Minecraft/World/Biome/BlockLayers/UndergroundLayerHandler.cs:8-20 | the result and the new cells are those of running the decision's write |
| TreeLayer.CsRemainder | Assets/Scripts/Minecraft/World/Biome/BlockLayers/TreeLayerHandler.cs:58 | C#'s remainder takes the sign of the dividend: in [0, b) for a non-negative one, in (-b, 0] for a negative one |
| TreeLayer.EvenUnit | Assets/Scripts/Minecraft/World/Biome/BlockLayers/TreeLayerHandler.cs:53-58 | on the offsets -1, 0 and 1, `x % 2 == 0` holds exactly at 0 |
| TreeLayer.LeafRowMembers | Assets/Scripts/Minecraft/World/Biome/BlockLayers/TreeLayerHandler.cs:39-48 | one row of a canopy holds exactly the non-replacing leaves of its kept cells |
| TreeLayer.LeafLayerMembers | Assets/Scripts/Minecraft/World/Biome/BlockLayers/TreeLayerHandler.cs:38-49 | one layer holds exactly the leaves of its kept cells |
| TreeLayer.LeafBoxMembers | Assets/Scripts/Minecraft/World/Biome/BlockLayers/TreeLayerHandler.cs:37-50 | a canopy holds exactly one leaf per kept cell of its box, and nothing else |
| TreeLayer.TrunkShape | Assets/Scripts/Minecraft/World/Biome/BlockLayers/TreeLayerHandler.cs:28-34 | the trunk is exactly the replacing "log" writes from 1 to 5 blocks above the ground block |
| TreeLayer.LowerCanopyShape | Assets/Scripts/Minecraft/World/Biome/BlockLayers/TreeLayerHandler.cs:37-50 | the lower canopy is exactly the 5x5 layers 3 and 4 above the ground less their centre and four corners, all non-replacing "oak_leaves" |
| TreeLayer.UpperCanopyShape | Assets/Scripts/Minecraft/World/Biome/BlockLayers/TreeLayerHandler.cs:52-64 | the upper canopy is exactly the four blocks beside the trunk top at layer 5 and a plus of five at layer 6, all non-replacing "oak_leaves" |
| TreeLayer.CanopyClearsTrunk | Assets/Scripts/Minecraft/World/Biome/BlockLayers/TreeLayerHandler.cs:26-65 | no leaf position is a trunk position |
| TreeLayer.PlaceTrunk | Assets/Scripts/Minecraft/World/Biome/BlockLayers/TreeLayerHandler.cs:31-34 | the trunk loop applies the trunk's writes in order, ending at the first exception |
| TreeLayer.PlaceLeaf | Assets/Scripts/Minecraft/World/Biome/BlockLayers/TreeLayerHandler.cs:40-47 | a cell the canopy skips writes nothing; a kept cell writes its leaf, an exception being the whole row's |
| TreeLayer.PlaceLeafRow | Assets/Scripts/Minecraft/World/Biome/BlockLayers/TreeLayerHandler.cs:39-48 | the innermost loop applies the row's leaves in order, ending at the first exception |
| TreeLayer.PlaceLayerRow | Assets/Scripts/Minecraft/World/Biome/BlockLayers/TreeLayerHandler.cs:38-49 | one row extends the layer so far, or its exception is the whole layer's |
| TreeLayer.PlaceLeafLayer | Assets/Scripts/Minecraft/World/Biome/BlockLayers/TreeLayerHandler.cs:38-49 | the middle loop applies the layer's leaves in order, ending at the first exception |
| TreeLayer.PlaceBoxLayer | Assets/Scripts/Minecraft/World/Biome/BlockLayers/TreeLayerHandler.cs:37-50 | one layer extends the canopy so far, or its exception is the whole canopy's |
| TreeLayer.PlaceLeafBox | Assets/Scripts/Minecraft/World/Biome/BlockLayers/TreeLayerHandler.cs:37-50 | one canopy's outer loop applies its leaves in order, ending at the first exception |
| TreeLayer.GenerateTree | Assets/Scripts/Minecraft/World/Biome/BlockLayers/TreeLayerHandler.cs:26-65 | the trunk, the lower canopy and the upper canopy are applied in that order, the first exception ending it |
| TreeLayer.GrowTree | Assets/Scripts/Minecraft/World/Biome/BlockLayers/TreeLayerHandler.cs:17-18 | the ground block becomes dirt, then the tree grows, the first exception ending it |
| TreeLayer.PlantAt | Assets/Scripts/Minecraft/World/Biome/BlockLayers/TreeLayerHandler.cs:14-20 | the ground block is read (which may throw); grass or dirt grows a tree; any other block writes nothing; both return true |
| TreeLayer.TryHandling | Assets/Scripts/Minecraft/World/Biome/BlockLayers/TreeLayerHandler.cs:8-23 | declined for a chunk below 0 or a ground above the height limit; a missing tree data throws; declined off the tree positions; otherwise the result and cells are those of PlantAt |
| TreeGeneration.NoiseGrid | Assets/Scripts/Minecraft/World/Biome/Tree/TreeGenerator.cs:16-35 | the noise matrix of a chunk: size rows of size entries, entry [i][j] being the noise of world column (origin.x + i, origin.z + j) |
| TreeGeneration.GenerateTreeNoise | Assets/Scripts/Minecraft/World/Biome/Tree/TreeGenerator.cs:16-35 | a fresh size-by-size matrix whose entry [i, j] is the noise of world column (origin.x + i, origin.z + j), the two counters staying in step with the loops |
| TreeGeneration.GenerateTreeData | Assets/Scripts/Minecraft/World/Biome/Tree/TreeGenerator.cs:9-14 | the tree positions are the local maxima of the chunk's noise matrix |
| TreeGeneration.TreePositionsInChunk | Assets/Scripts/Minecraft/World/Biome/Tree/TreeGenerator.cs:9-14 | every tree position is a local column of the chunk and a local maximum of the noise, all such columns are listed, each once and in order |
| TerrainGeneration.RowFromSpec | Assets/Scripts/Minecraft/World/TerrainGenerator.cs:50-52 | the inner loop from z visits exactly the columns (x, z') with z <= z' < n, in increasing z' |
| TerrainGeneration.RowsFromMembers | Assets/Scripts/Minecraft/World/TerrainGenerator.cs:49-53 | the rows from x cover exactly the columns with x <= x' < n and 0 <= z < n |
| TerrainGeneration.RowsFromOrdered | Assets/Scripts/Minecraft/World/TerrainGenerator.cs:49-53 | the rows come in order: row by row, and within a row by z |
| TerrainGeneration.RowsFromLength | Assets/Scripts/Minecraft/World/TerrainGenerator.cs:49-53 | the rows from x hold n columns each |
| TerrainGeneration.GridColumnsSpec | Assets/Scripts/Minecraft/World/TerrainGenerator.cs:35-39 | both passes visit all n·n columns of the chunk, nothing outside, x outer and z inner, no column twice |
| TerrainGeneration.SweepAppend | Assets/Scripts/Minecraft/World/TerrainGenerator.cs:49-53 | a pass over two lists of columns is the pass over the first, then over the second from its cells |
| TerrainGeneration.SweepNext | Assets/Scripts/Minecraft/World/TerrainGenerator.cs:51 | one more column of a pass: its exception is the row's, otherwise the rest of the row continues from its cells |
| TerrainGeneration.SweepRowsIsSweep | Assets/Scripts/Minecraft/World/TerrainGenerator.cs:49-53 | the row-by-row pass is the pass over the rows' columns in loop order |
| TerrainGeneration.PassIsSweep | Assets/Scripts/Minecraft/World/TerrainGenerator.cs:48-55 | a whole pass, row by row, is the pass over the chunk's columns in the order GridColumnsSpec describes |
| TerrainGeneration.SweepRowNext | Assets/Scripts/Minecraft/World/TerrainGenerator.cs:49-53 | one more row: its exception is the pass's, otherwise the remaining rows continue from its cells |
| TerrainGeneration.TerrainGenerator.constructor | Assets/Scripts/Minecraft/World/TerrainGenerator.cs:9-12 | procedural terrain, the given biome generator and a water threshold of 34 |
| TerrainGeneration.TerrainGenerator.SetTerrainType | Assets/Scripts/Minecraft/World/TerrainGenerator.cs:14-17 | the setter stores the terrain type |
| TerrainGeneration.TerrainGenerator.ProceduralColumn | Assets/Scripts/Minecraft/World/TerrainGenerator.cs:51 | one column of the main pass is the biome generator's column, with the same tree data every time |
| TerrainGeneration.TerrainGenerator.ProceduralRow | Assets/Scripts/Minecraft/World/TerrainGenerator.cs:50-52 | the inner loop leaves the cells of the pass over row x, or its first exception |
| TerrainGeneration.TerrainGenerator.ProceduralRowStep | Assets/Scripts/Minecraft/World/TerrainGenerator.cs:49-53 | one row of the main pass takes the remaining rows from x to those from x + 1, or ends with their exception |
| TerrainGeneration.TerrainGenerator.ProceduralGeneration | Assets/Scripts/Minecraft/World/TerrainGenerator.cs:48-55 | every column of the chunk in loop order through the biome generator, the first exception ending it; the tree data is that of the chunk's noise; IsModified is kept |
| TerrainGeneration.TerrainGenerator.GenerateChunkData | Assets/Scripts/Minecraft/World/TerrainGenerator.cs:27-32 | Procedural runs the procedural pass; any other terrain type throws with nothing changed |
| TerrainGeneration.TerrainGenerator.AdditionalColumn | Assets/Scripts/Minecraft/World/TerrainGenerator.cs:37 | one column of the additional pass is the biome generator's additional call |
| TerrainGeneration.TerrainGenerator.AdditionalRow | Assets/Scripts/Minecraft/World/TerrainGenerator.cs:36-38 | the inner loop leaves the cells of the additional pass over row x, or its first exception |
| TerrainGeneration.TerrainGenerator.AdditionalRowStep | Assets/Scripts/Minecraft/World/TerrainGenerator.cs:35-39 | one row of the additional pass takes the remaining rows from x to those from x + 1, or ends with their exception |
| TerrainGeneration.TerrainGenerator.GenerateAdditionalChunkData | Assets/Scripts/Minecraft/World/TerrainGenerator.cs:34-40 | the additional handlers for every column in loop order, whatever the terrain type, the first exception ending it |
| BiomeGeneration.TryHandling | Assets/Scripts/Minecraft/World/Biome/BlockLayerHandler.cs:6 | dispatch to the handler's own TryHandling: its result and new cells are those of that handler's decision |
| BiomeGeneration.ChainAppend | Assets/Scripts/Minecraft/World/Biome/BiomeGenerator.cs:31-36 | the chain over two handler lists is the chain over the first and, when none of it returned true, the chain over the second from its cells |
| BiomeGeneration.FirstHandlerWins | Assets/Scripts/Minecraft/World/Biome/BiomeGenerator.cs:31-36 | once a handler returns true the handlers after it are never consulted: the chain ends with that handler's cells whatever follows |
| BiomeGeneration.HandleBlock | Assets/Scripts/Minecraft/World/Biome/BiomeGenerator.cs:31-36 | the foreach with its break: handlers in list order until one returns true or throws, the cells being those the chain leaves |
| BiomeGeneration.ChainNext | Assets/Scripts/Minecraft/World/Biome/BiomeGenerator.cs:33-35 | a handler's exception ends the chain, true ends it with its cells, false passes on to the next handler |
| BiomeGeneration.ColumnSplit | Assets/Scripts/Minecraft/World/Biome/BiomeGenerator.cs:30-37 | the column is processed bottom to top: up to any y, then the rest from its cells |
| BiomeGeneration.ColumnNext | Assets/Scripts/Minecraft/World/Biome/BiomeGenerator.cs:30-37 | one more y: its exception ends the column, otherwise the column goes on from the next y |
| BiomeGeneration.ColumnDone | Assets/Scripts/Minecraft/World/Biome/BiomeGenerator.cs:30 | the column past its top leaves the cells as they are |
| BiomeGeneration.HandleColumn | Assets/Scripts/Minecraft/World/Biome/BiomeGenerator.cs:30-37 | the chain at every world y from the chunk's y up to the world's chunk height above it, in order, the first exception ending it |
| BiomeGeneration.GenerateChunkData | Assets/Scripts/Minecraft/World/Biome/BiomeGenerator.cs:22-39 | the ground is the column's noise height plus the distance of the chunk from y = 0, the tree data is that of the chunk's noise, then the column is handled; IsModified is kept |
| BiomeGeneration.AdditionalAgreesWithChain | Assets/Scripts/Minecraft/World/Biome/BiomeGenerator.cs:41-51 | the additional pass differs from the chain only after a handler returns true: the same exception before that, the same cells when none returns true |
| BiomeGeneration.AdditionalNext | Assets/Scripts/Minecraft/World/Biome/BiomeGenerator.cs:46-49 | an additional handler's exception ends the pass; its result is otherwise ignored |
| BiomeGeneration.GenerateAdditionalChunkData | Assets/Scripts/Minecraft/World/Biome/BiomeGenerator.cs:41-51 | every additional handler once, in list order, at the chunk's y, results ignored, the first exception ending it |
| Streaming.GetChunkPositionsByRenderDistance | Assets/Scripts/Minecraft/World/WorldHelper.cs:114-144 | the two loops list the chunk origins of the wanted grid, x outer and z inner |
| Streaming.AddColumn | Assets/Scripts/Minecraft/World/WorldHelper.cs:122-125 | the inner loop appends the column of chunk origins for one world x |
| Streaming.RowNext | Assets/Scripts/Minecraft/World/WorldHelper.cs:121 | one step of the outer loop moves the next column from the grid to the positions listed |
| Streaming.ColumnNext | Assets/Scripts/Minecraft/World/WorldHelper.cs:122-125 | one step of the inner loop moves the next origin from the column to the positions listed |
| Streaming.WantedGridSpec | Assets/Scripts/Minecraft/World/WorldHelper.cs:114-144 | for r >= 0: (2r+1)² positions, no repetition, ordered by x then z, exactly the chunk origins at y 0 within r chunks of the observer's chunk along x and along z |
| Streaming.WantedGridEmpty | Assets/Scripts/Minecraft/World/WorldHelper.cs:115-122 | a negative render distance lists nothing |
| Streaming.FloorShift | Assets/Scripts/Minecraft/World/WorldHelper.cs:17-19 | moving a coordinate by whole chunk sizes moves its chunk origin by as much |
| Streaming.AlignedGap | Assets/Scripts/Minecraft/World/WorldHelper.cs:121-122 | two different multiples of the chunk size are at least one chunk size apart |
| Streaming.ColumnShape | Assets/Scripts/Minecraft/World/WorldHelper.cs:122-125 | a column of n + 1 steps holds n + 1 origins at the floor of x and y 0, exactly the aligned z from the floor of z up n chunk sizes, in increasing z |
| Streaming.ColumnUnfold | Assets/Scripts/Minecraft/World/WorldHelper.cs:122-125 | a column starts with the chunk origin of (x, 0, z), followed by the column one chunk size on |
| Streaming.ColumnMembers | Assets/Scripts/Minecraft/World/WorldHelper.cs:122-125 | the length and the members of a column |
| Streaming.ColumnIncreasing | Assets/Scripts/Minecraft/World/WorldHelper.cs:122-125 | a column is in increasing z |
| Streaming.RowsShape | Assets/Scripts/Minecraft/World/WorldHelper.cs:121-142 | m + 1 rows of n + 1 steps hold (m + 1)(n + 1) origins, exactly the aligned ones at y 0 in the rectangle from the floors of x and z, in increasing x then z |
| Streaming.SelectPositionsToGenerateSpec | Assets/Scripts/Minecraft/World/WorldHelper.cs:146-158 | each needed position without a renderer appears as often as it is needed and nothing else does, sorted by distance to the observer and stable within a distance; a position with chunk data but no renderer is selected too |
| Streaming.UnrenderedCount | Assets/Scripts/Minecraft/World/WorldHelper.cs:148 | the Where keeps each position without a renderer with its multiplicity and drops every rendered one |
| Streaming.OrderByDistanceSpec | Assets/Scripts/Minecraft/World/WorldHelper.cs:149 | OrderBy is a permutation, sorted by distance, and stable |
| Streaming.InsertSpec | Assets/Scripts/Minecraft/World/WorldHelper.cs:149 | placing one position adds exactly it and keeps the list sorted |
| Streaming.InsertAtDistance | Assets/Scripts/Minecraft/World/WorldHelper.cs:149 | the placed position comes after the others at its own distance |
| Streaming.AtDistanceAppend | Assets/Scripts/Minecraft/World/WorldHelper.cs:149 | the positions at one distance of a list with one more at its end |
| Streaming.SelectChunkPositionsToDestroySpec | Assets/Scripts/Minecraft/World/WorldHelper.cs:160-165 | the second filter drops nothing: exactly the renderer keys that are not needed |
| Streaming.SelectChunkDataPositionsToDestroySpares | Assets/Scripts/Minecraft/World/WorldHelper.cs:167-172 | only stored keys are selected; no needed and no modified chunk data is selected; every stored key left out is needed or modified |
| WorldOps.GetBlockIdSpec | Assets/Scripts/Minecraft/World/World.cs:316-326 | an unloaded world throws; on a loaded world a position no renderer covers reads null (even where chunk data is loaded), and a covered position reads the block id of its cell in the chunk data that renderer shows |
| WorldOps.UpdateNeighbours | Assets/Scripts/Minecraft/World/World.cs:298-304 | every neighbour is dereferenced, so success means none of them was null; only renderer meshes change: bindings, activity, destruction and positions stay |
| WorldOps.UpdateNeighbour | Assets/Scripts/Minecraft/World/World.cs:300-303 | a position no renderer covers is skipped; a covered one rebuilds its renderer's mesh, which on success is the mesh of that chunk's current blocks |
| WorldOps.Remesh | Assets/Scripts/Minecraft/World/World.cs:296-307 | an edge block with a missing neighbour throws; on success the chunk's own renderer shows the mesh of its current blocks; only meshes change |
| WorldOps.RemeshNeighbours | Assets/Scripts/Minecraft/World/World.cs:296-305 | a block off the chunk's edge looks up no neighbour and succeeds; an edge block with a missing neighbour throws |
| WorldOps.SetBlock | Assets/Scripts/Minecraft/World/World.cs:282-309 | not loaded or no covering renderer: false and nothing changes; otherwise exactly the target cell of the covering chunk data is written and the chunk is marked modified; an edge block with a missing neighbour throws after the write; a true result means the id is registered, reads back through GetBlockId, and the chunk's renderer shows the mesh of its current blocks |
| WorldOps.SetCoveredBlock | Assets/Scripts/Minecraft/World/World.cs:293-308 | with a covering renderer: an unknown id throws and changes nothing; otherwise exactly the target cell is written and the chunk data marked modified, an edge block with a missing neighbour throws, and true means the position reads back the new block and the chunk shows the mesh of its current blocks |
| WorldOps.WriteBlock | Assets/Scripts/Minecraft/World/World.cs:293-294 | the replacing write of WorldHelper.SetBlock into the covering renderer's chunk data: only its target cell can change, the chunk is marked modified, an unknown id throws with every array unchanged, and a true write reads back |
| WorldOps.BottomLayerHasNoNeighbourBelow | Assets/Scripts/Minecraft/World/World.cs:297-299 | when every chunk data sits at y 0, a block on a chunk's bottom layer is on its edge and has a missing neighbour below, so SetBlock there throws |
| WorldOps.CreateChunk | Assets/Scripts/Minecraft/World/World.cs:271-274 | a key without chunk data throws KeyNotFound, a mesh without transparent data throws NullReference, a key already rendered throws DuplicateKey, and a failure leaves the render map as it was; success happens exactly otherwise and adds just that key, whose renderer is active at the key and shows the merge of the two buffers; chunk datas, the loaded flag and the other renderers stay |
| WorldOps.CreateChunkOf | Assets/Scripts/Minecraft/World/World.cs:271-274 | CreateChunk seen through the render map: success exactly when the key has chunk data, no renderer yet and transparent data, and then only that key joins |
| WorldOps.CreateChunks | Assets/Scripts/Minecraft/World/World.cs:258-261 | success exactly when every key has chunk data, no renderer yet and transparent data; renderers already present stay, new keys come only from the mesh map, and on success every key is rendered |
| WorldOps.ChunkGenerationCoroutine | Assets/Scripts/Minecraft/World/World.cs:257-269 | CreateChunks, and the world becomes loaded exactly when no exception ended it (a world already loaded stays loaded); chunk datas are untouched |
| WorldOps.DestroyWorld | Assets/Scripts/Minecraft/World/World.cs:162-166 | every renderer of the render map is destroyed, both dictionaries and the pool are empty, and the loaded flag is untouched |
| WorldOps.RemoveChunks | Assets/Scripts/Minecraft/World/World.cs:111-113 | the render map loses exactly the given positions, their renderers go to the pool, and chunk datas and the loaded flag stay |
| WorldOps.RemoveLinkedChunk | Assets/Scripts/Minecraft/World/WorldHelper.cs:52-59 | RemoveChunk keeps the render map linked to the chunk datas and the pool: exactly that key leaves the map and its renderer, if it had one, goes to the back of the pool |
| WorldOps.RemoveChunkDatas | Assets/Scripts/Minecraft/World/World.cs:115-117 | the chunk datas lose exactly the given unrendered positions, together with their storage; renderers and the loaded flag stay |
| WorldOps.GenerateChunkDatas | Assets/Scripts/Minecraft/World/World.cs:205-222 | an unimplemented terrain type throws for a non-empty list; on success the keys are exactly the listed positions, each holding a fresh, unmodified chunk data of the world's shape at that position |
| WorldOps.UnionUpdate | Assets/Scripts/Minecraft/World/World.cs:129-131 | adding one key after a union is adding it to the right-hand map, the step that makes the Add loop a union |
| WorldOps.AddChunkDatas | Assets/Scripts/Minecraft/World/World.cs:129-131 | the Add loop succeeds exactly when no key already has chunk data, and then the chunk datas are the old ones united with the generated ones; a failure is DuplicateKey; old entries are never replaced and every new entry is a generated one |
| WorldOps.AddChunkData | Assets/Scripts/Minecraft/World/World.cs:130 | Dictionary.Add of one chunk data: a present key throws DuplicateKey and changes nothing, an absent key is added with its block storage |
| WorldOps.GenerateAdditionalChunkDatas | Assets/Scripts/Minecraft/World/World.cs:224-236 | an empty set of chunk datas succeeds; only block arrays of the world change, and the set of arrays stays |
| WorldOps.AddChunkMeshData | Assets/Scripts/Minecraft/World/World.cs:250-251 | a meshing exception is passed on; otherwise TryAdd keeps an existing entry and adds an absent position with the solid and nested transparent buffers of the chunk's faces |
| WorldOps.CreateChunkMeshDatas | Assets/Scripts/Minecraft/World/World.cs:238-255 | an exception is the meshing exception of some listed chunk; on success the keys are exactly the positions of the listed chunks, each with nested transparent data |
| WorldGeneration.WantedGridAligned | Assets/Scripts/Minecraft/World/WorldHelper.cs:114-144 | every position of the needed grid is a chunk origin at y 0, for every render distance, a negative one included |
| WorldGeneration.GetChunkPositionByRenderDistance | Assets/Scripts/Minecraft/World/World.cs:183-203 | both lists to generate are the same: exactly the needed positions without a renderer, nearest first, all chunk origins at y 0; the renderers to destroy are exactly the rendered keys not needed; the chunk datas to destroy are exactly the unmodified ones not needed |
| WorldGeneration.SelectChunkDatasToRender | Assets/Scripts/Minecraft/World/World.cs:141-144 | every chunk data stored under a position to generate is selected, each exactly once, and nothing else is |
| WorldGeneration.RemoveOldChunks | Assets/Scripts/Minecraft/World/World.cs:110-117 | the render map loses exactly the renderers to destroy and the chunk datas lose exactly the positions to destroy; the pool gains only old renderers and the render map stays linked |
| WorldGeneration.GenerateNewChunkDatas | Assets/Scripts/Minecraft/World/World.cs:119-131 | other terrain throws when anything is to be generated; a position that already has chunk data makes the Add loop throw; old chunk datas stay, new ones appear only at listed positions, and on success exactly the listed positions gain fresh, unmodified chunk datas |
| WorldGeneration.RenderChunkDatas | Assets/Scripts/Minecraft/World/World.cs:140-156 | a cancellation seen by the meshing task changes no renderer and starts no coroutine; otherwise the coroutine is started after successful meshing; old renderers stay and new ones appear only at positions to render; a coroutine that completes leaves the world loaded with every position to render that has chunk data rendered; the loaded flag changes only then and is never reset |
| WorldGeneration.GenerateAndRender | Assets/Scripts/Minecraft/World/World.cs:119-156 | the stages after the removals: chunk datas and renderers only appear, at the positions to generate; a failed or cancelled cycle starts no coroutine; other terrain and a colliding chunk data make it throw; a completed coroutine renders every position that had both lists and is the only way the loaded flag changes, which never goes back to false |
| WorldGeneration.HandleWorldGeneration | Assets/Scripts/Minecraft/World/World.cs:103-157 | a cancelled selection throws and changes nothing; otherwise every remaining renderer is needed, needed renderers stay, and an old chunk data survives exactly when it is needed or modified; other terrain throws when a needed position has no renderer, and so does a needed unrendered position that still holds chunk data (its Dictionary.Add collides); a completed coroutine leaves the world loaded with every needed position rendered; otherwise the loaded flag is as before, and a loaded world stays loaded |

## Left out

- Noise: `NoiseHelper`, `DomainWarping` and `NoiseSettings` use Perlin noise, float octave sums and `Pow`. The ground height, stone noise and tree noise are function values, and the float-to-int cast of the ground height is part of that function.
- Floating point: the float UVs and the atlas epsilon of `GetBlockSideUVs` become tile corners. Vertices are in half-units. `Vector3Int.Distance` is replaced by the integer squared distance, which orders positions the same way.
- `Mathf.FloorToInt(v / (float)n)` is exact floor division. Single-precision rounding for coordinates beyond 2^24 is not modelled.
- C# `int` is 32 bits; the model's integers are unbounded. Positions, indices and counters are assumed not to overflow. The `ushort` short-id counter does wrap, and the model wraps it.
- Concurrency: `Task.Run`, `ConcurrentDictionary`, `CancellationTokenSource`, `WaitForEndOfFrame` and the coroutine scheduler are not modelled. The model runs one cycle sequentially. A cancellation is seen at the start of a stage. Cancellation part-way through a stage's loop is not modelled.
- Dictionary enumeration order: the dictionaries a cycle enumerates are maps and sets, and their loops pick elements in any order. The contracts hold for every order. An order-dependent partial state after an exception in such a loop is described only by what every order shares.
- `TerrainType.cs` is not part of this model. Every terrain type other than `Procedural` is one constructor, which throws as the generator's `default` arm does.
- Unity: the object lifecycle, `Instantiate`, `Destroy`, `SetActive`, transforms, the `Mesh` API, `RecalculateNormals`, materials, colliders, events, `Debug.Log` and `Debug.Assert` are not modelled. A renderer's active and destroyed state are fields.
- `AtlasTexture.cs` (pixel copying and file output), `BlockMaterialHelper.cs` and the asset-database steps of `BlockManager.InitializeBlocks` are not modelled. Only their tile counter and offsets are.
- `GameManager.cs`, `FreeCam.cs` and the editor UI handle input and inspection, and are not modelled. `World.GenerateWorldAsync`, `World.LoadAdditionalChunksAsync`, `Awake` and `OnDisable` are Unity entry points around `HandleWorldGeneration`, and are not modelled beyond that method.
- BlockRegistry.Lower: lowers only the ASCII letters 'A' to 'Z'. The culture-sensitive `string.ToLower` of other cased letters (such as 'Ä', or the Turkish dotted and dotless I) is not modelled, so two ids that differ only in such letters do not collide in the model.
- BlockRegistry.FormatBlockIdShape: "no upper-case letter" covers the ASCII letters only, for the reason given for `BlockRegistry.Lower`.
- TerrainCells.ApplyOnCells: when a write in a handler throws, the model states only the exception. It does not state which earlier writes of that handler took effect. The same holds for the layer `TryHandling` methods, `BiomeGeneration.GenerateChunkData` and the `TerrainGeneration` passes.
- WorldOps.GenerateChunkDatas: states the keys, freshness and shape of the generated chunk datas. It does not state their block contents, which `TerrainGeneration.TerrainGenerator.GenerateChunkData` specifies for one chunk.
- WorldOps.GenerateAdditionalChunkDatas: states only which arrays may change. The contents of one chunk after the pass are stated by `TerrainGeneration.TerrainGenerator.GenerateAdditionalChunkData`.
- WorldOps.CreateChunkMeshDatas: states the key set and the nested transparent data of the result. It does not state that each mesh is the one `ChunkMesh.UpdateMeshData` builds, which `WorldOps.AddChunkMeshData` states for one step.
- WorldOps.UpdateNeighbours: states that success means no neighbour was null and that only meshes change. It does not state each neighbour's new mesh, which `WorldOps.UpdateNeighbour` states for one step.
- WorldGeneration.HandleWorldGeneration: states the render map, the chunk-data keys, the error cases and the loaded flag. Block contents are left to the generation members above.
