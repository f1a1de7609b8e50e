# RPGCraft voxel world, modelled in Dafny

This project models the voxel-world core of RPGCraft, a Unity voxel game
written in C#. It covers the sequential data model in `Assets/Scripts` and
the earlier block and chunk classes in `Assets/Block.cs` and `Assets/Chunk.cs`.

- **Coordinates** (`coordinates.dfy`):
  - voxel `Coords` and column `ChunkCoords`, with their sums and differences;
  - `GetChunk` as floor division and `GetStartPos`;
  - the six `Direction`s, their offsets, `Opposite`, and the `directions` order.
- **Block types** (`block_type.dfy`): `BlockType`, `BlockModel` and `BlockFace` are immutable values. The first-match search `GetFace` and the face-to-direction switch are modelled.
- **Face tables** (`block_metrics.dfy`): the eight unit-cube corners and the six four-corner face tables.
- **Mesh buffers** (`meshing.dfy`):
  - `FaceData`;
  - the specification function `MeshOf(quads)`, which gives the five buffers that `GenerateMesh` fills when it emits a given list of faces in order;
  - facts about the sizes and index values of those buffers.
- **Enumeration order** (`cells.dfy`): the row-major order in which C# `foreach` visits a three-dimensional array.
- **World, chunk and block** (`engine.dfy`):
  - `World` is a class holding its map of chunks.
  - `Chunk` holds its `ChunkSize`³ block array and its `loaded` flag.
  - `Block` holds its type and its neighbour map.
  - Each chunk's request to rebuild its mesh is recorded as that chunk's position, appended to the world's `rebuildRequests` log.
  - `BandTypes` (the triple loop of `GenerateChunk`), `CreateBlocks`, `SetBlocks` and `GenerateMesh` are loops over the array. Each loop is proved against a specification function or predicate.
- **Mesh scheduler** (`chunk_builder.dfy`): the nearest-first selection of `ChunkBuilder.Update` and the removal of the chosen entry.
- **Earlier version** (`legacy.dfy`): the earlier `Block` has an insert-only `SetNeighbor` and a simpler visibility test. The earlier `Chunk` emits six faces for every visible block, with no culling per face.

The environment appears as parameters or constants:
- the chunk size is `ChunkSize`, a positive constant with no fixed value;
- the block-type catalogue is a `Catalogue` value;
- the distance of a queued mesh's chunk from the centre is a function parameter.

## Model

| member | source | states |
|---|---|---|
| Coordinates.Coords.Neighbor | Assets/Scripts/World.cs:135-138 | the neighbour minus the voxel is the direction's offset, and it differs from the voxel |
| Coordinates.Coords.GetChunk | Assets/Scripts/World.cs:130-133 | the voxel's x and z lie in the column of the returned chunk, whose start position has y = 0 (y is ignored) |
| Coordinates.ChunkCoords.GetStartPos | Assets/Scripts/World.cs:201-204 | the corner voxel is (x·ChunkSize, 0, z·ChunkSize) |
| Coordinates.FloorDivBounds | Assets/Scripts/World.cs:132 | floor division by the chunk size leaves a remainder in [0, ChunkSize) |
| Coordinates.FloorDivUnique | Assets/Scripts/World.cs:132 | q is the floor quotient of v exactly when v lies in [q·ChunkSize, (q+1)·ChunkSize) |
| Coordinates.GetChunkUnique | Assets/Scripts/World.cs:130-133 | any chunk whose column holds the voxel is the voxel's `GetChunk()` |
| Coordinates.StartPosRoundTrip | Assets/Scripts/World.cs:201-204 | every local offset in a chunk's column added to its start position maps back to that chunk |
| Coordinates.Direction.Offset | Assets/Scripts/World.cs:99-104 | each offset is a unit vector on one axis: up and down on y, north and south on z, east and west on x, with up, north and east positive |
| Coordinates.Direction.Index | Assets/Scripts/World.cs:106-114 | the direction's position in `directions` |
| Coordinates.Direction.Opposite | Assets/Scripts/World.cs:91-104 | the opposite is another direction whose offset is the negated offset, so the two sum to (0, 0, 0) |
| Coordinates.DirectionsEnumerate | Assets/Scripts/World.cs:106-114 | `directions` has six pairwise distinct entries, and every direction is one of them |
| Coordinates.IndexInverse | Assets/Scripts/World.cs:106-114 | `Index` inverts indexing into `directions` |
| Coordinates.OppositeInvolution | Assets/Scripts/World.cs:99-104 | Opposite of Opposite is the identity |
| Coordinates.OppositeInjective | Assets/Scripts/World.cs:99-104 | no two directions share an opposite |
| Coordinates.OffsetInjective | Assets/Scripts/World.cs:99-104 | the six offsets are distinct |
| Coordinates.NeighborOpposite | Assets/Scripts/World.cs:135-138 | stepping to the neighbour in d and then in Opposite(d) returns to the start |
| Coordinates.AddSub | Assets/Scripts/World.cs:140-148 | (a + b) − b = a and (a − b) + b = a |
| Coordinates.ChunkAddSub | Assets/Scripts/World.cs:211-219 | the same for chunk positions |
| BlockTypes.NewBlockFace | Assets/Scripts/BlockType.cs:50-55 | a new face has `adjacent` true, plus the given atlas cell and face |
| BlockTypes.NewBlockType | Assets/Scripts/BlockType.cs:8-14 | a new block type is solid and not transparent |
| BlockTypes.GetDirectionFromFace | Assets/Scripts/BlockType.cs:34-46 | the mapping top→up, bottom→down, front→north, left→east, back→south, right→west, inverted by `FaceOfDirection` |
| BlockTypes.DirectionFromFaceBijective | Assets/Scripts/BlockType.cs:34-46 | the face-to-direction mapping is a bijection |
| BlockTypes.BlockModel.GetFace | Assets/Scripts/BlockType.cs:24-32 | None iff no face maps to d; otherwise the first face in the list that maps to d, so the result maps back to d |
| BlockMetrics.GetFaceVertices | Assets/Scripts/BlockMetrics.cs:73-104 | every direction gets its own table of four corners |
| BlockMetrics.FaceGeometry | Assets/Scripts/BlockMetrics.cs:20-66 | each table has four distinct cube corners on the side its direction points to; corners 0 and 3 are diagonal, and so are 1 and 2 |
| BlockMetrics.CornersAreUnit | Assets/Scripts/BlockMetrics.cs:11-18 | every corner coordinate is 0 or 1 |
| Meshing.FaceTris | Assets/Scripts/Chunk.cs:193-196 | face k's triangles are [4k, 4k+3, 4k+1, 4k, 4k+2, 4k+3], all in [4k, 4k+4) |
| Meshing.NewFaceData | Assets/Scripts/Chunk.cs:173-197 | four vertices, each a corner of the direction's table moved to the block; one UV per atlas-cell corner; the face's triangles |
| Meshing.SolidCount | Assets/Scripts/Chunk.cs:116-120 | at most as many solid faces as faces |
| Meshing.MeshOf | Assets/Scripts/Chunk.cs:94-126 | with F faces, S of them solid: 4F vertices, 4F UVs, 6F indices, 4S collision vertices, 6S collision indices |
| Meshing.MeshOfAppend | Assets/Scripts/Chunk.cs:112-121 | emitting one more face appends its face data, numbered by the face counter, to the render buffers, and also to the collision buffers when the face is solid |
| Meshing.MeshOfStep | Assets/Scripts/Chunk.cs:113-115 | the render buffers only grow at the end |
| Meshing.ColliderStep | Assets/Scripts/Chunk.cs:116-120 | the collision buffers grow only for solid faces |
| Meshing.MeshOfPrefix | Assets/Scripts/Chunk.cs:113-115 | the buffers of the first n faces are prefixes of the full buffers |
| Meshing.TrisOfFace | Assets/Scripts/Chunk.cs:112-121 | the k-th emitted face holds render indices 6k .. 6k+5, equal to `FaceTris(k)` |
| Meshing.TrisInRange | Assets/Scripts/Chunk.cs:193-196 | every render index is below the render vertex count |
| Meshing.VerticesOfFace | Assets/Scripts/Chunk.cs:188-192 | vertex 4k+c is corner c of face k's direction table, moved to face k's block |
| Meshing.ColliderTrisCopied | Assets/Scripts/Chunk.cs:119 | the s-th solid face (face k overall) has collision indices 6s .. 6s+5, copied unchanged from its render indices |
| Meshing.ColliderTrisCopiedEarlier | Assets/Scripts/Chunk.cs:119 | the same, for a face that is not the last one |
| Meshing.TrisKept | Assets/Scripts/Chunk.cs:113-119 | a later face leaves the earlier render and collision indices in place |
| Meshing.ColliderTrisKept | Assets/Scripts/Chunk.cs:119 | a later face leaves the earlier collision indices in place |
| Meshing.RenderTrisKept | Assets/Scripts/Chunk.cs:115 | a later face leaves the earlier render indices in place |
| Meshing.LastColliderTris | Assets/Scripts/Chunk.cs:119 | a solid last face's collision indices equal its render indices |
| Meshing.ColliderIndicesOverrun | Assets/Scripts/Chunk.cs:118-119 | as written, a non-solid face followed by a solid one gives 4 collision vertices and collision indices 4 .. 7 |
| Meshing.ColliderMeshOf | Assets/Scripts/Chunk.cs:118-119 | corrected collision buffers: the same vertices, with indices renumbered so that each one names a collision vertex |
| Meshing.ColliderMeshAllSolid | Assets/Scripts/Chunk.cs:116-120 | when every face is solid, the copied indices already equal the renumbered ones |
| Cells.RowUpTo | Assets/Scripts/Chunk.cs:56-60 | the cells (x, y, 0) .. (x, y, z−1) |
| Cells.PlaneUpTo | Assets/Scripts/Chunk.cs:54-61 | exactly the cells of the first y rows of plane x |
| Cells.GridUpTo | Assets/Scripts/Chunk.cs:52-62 | exactly the cells of the first x planes |
| Cells.RowMajor | Assets/Scripts/Chunk.cs:104 | exactly the cells of the array |
| Cells.Visited | Assets/Scripts/Chunk.cs:104 | exactly the cells before (x, y, z) in row-major order |
| Cells.VisitedStep | Assets/Scripts/Chunk.cs:104 | visiting (x, y, z) appends it to the visited cells |
| Cells.VisitedRowEnd | Assets/Scripts/Chunk.cs:56 | the end of a row is the start of the next row |
| Cells.VisitedPlaneEnd | Assets/Scripts/Chunk.cs:54 | the end of a plane is the start of the next plane |
| Cells.VisitedAll | Assets/Scripts/Chunk.cs:104 | a finished scan has visited every cell in row-major order |
| ChunkBuilding.NearestIndex | Assets/Scripts/ChunkBuilder.cs:14-23 | an index of least distance, before which every entry is strictly farther (the first minimum wins) |
| ChunkBuilding.NearestIndexUnique | Assets/Scripts/ChunkBuilder.cs:18-22 | the first-minimum property determines the index |
| ChunkBuilding.SelectNearest | Assets/Scripts/ChunkBuilder.cs:14-23 | the scan with `minDist`/`minId` returns `NearestIndex` |
| ChunkBuilding.ChunkBuilder.constructor | Assets/Scripts/ChunkBuilder.cs:8 | the queue starts empty |
| ChunkBuilding.ChunkBuilder.Enqueue | Assets/Scripts/ChunkBuilder.cs:8 | a finished mesh is appended to the queue |
| ChunkBuilding.ChunkBuilder.Update | Assets/Scripts/ChunkBuilder.cs:10-28 | empty queue: nothing changes; otherwise the nearest entry is returned for applying and removed, the rest keep their order, and the queue loses exactly that entry |
| Engine.AroundOthers | Assets/Scripts/Chunk.cs:149-152 | a chunk is not one of its four horizontal neighbours |
| Engine.BandType | Assets/Scripts/World.cs:53-58 | grass at local height ChunkSize−1, dirt at ChunkSize−2 and ChunkSize−3, stone below |
| Engine.BandTypes | Assets/Scripts/World.cs:46-61 | the triple loop gives every cell the band type of its height |
| Engine.PlacedChunksAdd | Assets/Scripts/World.cs:63 | adding a placed chunk under its own key keeps every chunk placed |
| Engine.VisitedInGrid | Assets/Scripts/Chunk.cs:104 | every visited cell is an index of the array |
| Engine.LinksUpToAt | Assets/Scripts/Block.cs:23-26 | after k constructor steps, each direction before k holds what was found there, and the other entries are unchanged |
| Engine.BackLinksUpToAt | Assets/Scripts/Block.cs:27-28 | after k steps, a found block holds the new block under the opposite direction, and its other entries are unchanged |
| Engine.VisibleSomewhere | Assets/Scripts/Block.cs:45-52 | some direction sees out iff one in `directions` does |
| Engine.NeighborRequestsExact | Assets/Scripts/Block.cs:76-77 | the neighbour requests are exactly the positions of the loaded chunks of linked blocks, at most one per direction |
| Engine.OneHop | Assets/Scripts/Block.cs:71-79 | `BlockUpdate(true)` makes at most 7 requests, for the own chunk or a linked block's chunk; `BlockUpdate(false)` requests only the own chunk |
| Engine.FacesAlongStep | Assets/Scripts/Chunk.cs:108 | one more direction appends the face shown there |
| Engine.FacesAlongExact | Assets/Scripts/Chunk.cs:108-111 | a face is emitted along the directions iff its direction is among them and the block shows it there |
| Engine.BlockFacesExact | Assets/Scripts/Chunk.cs:104-112 | a block emits at most 6 faces; face q is emitted iff it is at the block's position, the block is visible from q's direction, and the model has a face there whose atlas cell q carries |
| Engine.World.constructor | Assets/Scripts/World.cs:14 | the map and the log start empty, and the invariant holds |
| Engine.World.GetChunk | Assets/Scripts/World.cs:78-83 | null iff the key is absent, else the stored chunk |
| Engine.World.GetBlock | Assets/Scripts/World.cs:70-76 | null when the voxel's chunk is absent, else that chunk's `GetBlock` |
| Engine.World.NeighborsOf | Assets/Scripts/Block.cs:23-25 | entry j is what the world holds at the neighbour in `directions[j]` |
| Engine.World.AroundWithin | Assets/Scripts/Block.cs:25 | every block the world finds next to a voxel is one the map holds |
| Engine.World.RequestsFor | Assets/Scripts/Chunk.cs:149-152 | at most one request per key |
| Engine.World.RequestsForExact | Assets/Scripts/Chunk.cs:149-152 | a position is requested iff some key names an existing, loaded chunk at it |
| Engine.World.RequestsForAbsent | Assets/Scripts/Chunk.cs:149-152 | absent keys request nothing |
| Engine.World.UpdateChunkAt | Assets/Scripts/Chunk.cs:149 | `GetChunk(key)?.UpdateChunk()` logs the key's chunk exactly when that chunk exists and is loaded |
| Engine.World.ClearWorld | Assets/Scripts/World.cs:19-26 | the map is empty afterwards |
| Engine.World.GetBlockLocates | Assets/Scripts/World.cs:70-76 | under the invariant, a block is found iff its chunk exists and 0 ≤ y < ChunkSize; the block found sits at that voxel and belongs to that chunk |
| Engine.World.GenerateChunk | Assets/Scripts/World.cs:41-68 | the invariant is kept, so every block is typed and linked to the block next to it, and the chunk at the key can be meshed; existing key: nothing changes and every block keeps its links; otherwise only that key is added, with a fresh loaded chunk typed in bands by height, the rebuilds of the loaded horizontal neighbours are logged, and every earlier block keeps its links except null ones that now name a block of the new chunk |
| Engine.World.BuildChunk | Assets/Scripts/World.cs:45-67 | the new-key branch: the key gains a fresh, loaded chunk typed in bands, the neighbour rebuilds are logged, and the invariant is kept |
| Engine.World.AddChunk | Assets/Scripts/World.cs:62-63 | the map gains exactly the new, unloaded chunk under its key; the world stays linked and typed, since the chunk holds no blocks yet |
| Engine.World.LinksGrown | Assets/Scripts/World.cs:62-64 | when a chunk is added and every other array keeps its contents, each earlier block keeps its links, except null ones that now name a block of the new chunk |
| Engine.World.LinkedResolved | Assets/Scripts/Block.cs:23-26 | under the invariant, every block's entry for each direction is what `GetBlock` finds next to it, null included |
| Engine.World.LinksSymmetric | Assets/Scripts/Block.cs:25-28 | under the invariant, a block that b links to in direction d links back to b in the opposite direction |
| Engine.World.ValidMeshable | Assets/Scripts/Chunk.cs:104-110 | under the invariant, every chunk has all its blocks, each typed and linked only to typed blocks, which is what `GenerateMesh` needs |
| Engine.World.LookupLocates | Assets/Scripts/World.cs:70-76 | a block found at a voxel sits at that voxel and belongs to that voxel's chunk |
| Engine.World.LookupFinds | Assets/Scripts/World.cs:70-76 | looking a held block up by its own position finds it |
| Engine.World.LookupFacts | Assets/Scripts/World.cs:70-76 | both facts for every voxel and held block; with every array present, `GetBlock` is the lookup |
| Engine.World.LinkedKept | Assets/Scripts/World.cs:63-65 | the world stays linked when what it holds at every voxel and the links of its blocks are unchanged |
| Engine.World.Relinked | Assets/Scripts/Block.cs:19-31 | the constructor of a block at an empty voxel leaves the world linked as it will be once that block is stored there |
| Engine.World.StoreLookup | Assets/Scripts/Chunk.cs:59 | storing the block changes what the world holds at its voxel only, where it now finds that block |
| Engine.World.Settle | Assets/Scripts/Chunk.cs:58-59 | once the new block is stored, the world is linked |
| Engine.World.GenerateWorld | Assets/Scripts/World.cs:31-35 | afterwards the map holds exactly key (0, 0), its chunk is loaded and can be meshed, the invariant holds, and nothing was logged |
| Engine.Chunk.constructor | Assets/Scripts/Chunk.cs:23-30 | sets the position and the world; the chunk is not loaded |
| Engine.Chunk.CreateBlocks | Assets/Scripts/Chunk.cs:48-63 | a fresh array of fresh blocks; the block at local (x, y, z) belongs to this chunk and sits at (x, y, z) + start position; a linked world is linked again, the new blocks included; every other chunk stays placed and its blocks keep their types |
| Engine.Chunk.FillPlanes | Assets/Scripts/Chunk.cs:52-62 | the plane loop leaves every cell holding its fresh, placed block and the world linked |
| Engine.Chunk.Allocate | Assets/Scripts/Chunk.cs:51 | a fresh array of empty cells, which keeps the world linked |
| Engine.Chunk.Populate | Assets/Scripts/World.cs:64-67 | after `CreateBlocks`, `SetBlocks` and `Load`, each block has its type from the array, the chunk is loaded, every other chunk is still placed, exactly the neighbour rebuilds are logged, and the world is linked and typed |
| Engine.Chunk.CreateTypedBlocks | Assets/Scripts/World.cs:64-65 | after `CreateBlocks` and `SetBlocks` on a chunk not loaded yet, the chunk is placed with fresh blocks typed from the array, every other chunk is still placed, the world is linked and typed, and nothing is logged |
| Engine.Chunk.TypeBlocks | Assets/Scripts/World.cs:65 | `SetBlocks` on the new, unloaded chunk: each block gets its type, the links and the log are unchanged, and every block of the world is typed |
| Engine.Chunk.CreatePlane | Assets/Scripts/Chunk.cs:52-62 | one more plane is filled with placed, fresh blocks |
| Engine.Chunk.CreateRow | Assets/Scripts/Chunk.cs:54-61 | one more row is filled with placed, fresh blocks |
| Engine.Chunk.CreateBlock | Assets/Scripts/Chunk.cs:58-59 | one more cell holds its fresh block, and the world is linked again |
| Engine.Chunk.NewBlock | Assets/Scripts/Chunk.cs:58 | a fresh block of this chunk at the voxel of (x, y, z), with the world linked as it will be once the block is stored; the map, every array and every cell are as they were |
| Engine.Chunk.Store | Assets/Scripts/Chunk.cs:59 | storing the new block fills one more cell, leaving every other cell unchanged, and the world is then linked |
| Engine.Chunk.SetBlocks | Assets/Scripts/Chunk.cs:69-82 | each block at (x, y, z) gets type t[x, y, z], and only those types and the log change; the log only grows, and stays unchanged when the chunk is unloaded |
| Engine.Chunk.SetPlane | Assets/Scripts/Chunk.cs:72-81 | one more plane is typed |
| Engine.Chunk.SetRow | Assets/Scripts/Chunk.cs:74-80 | one more row is typed |
| Engine.Chunk.SetCell | Assets/Scripts/Chunk.cs:78 | one more cell is typed, and the earlier cells keep their types |
| Engine.Chunk.GetBlock | Assets/Scripts/Chunk.cs:37-43 | null unless every component of coords − start position is in [0, ChunkSize), else the block at that local index |
| Engine.Chunk.GetBlockPlaced | Assets/Scripts/Chunk.cs:58 | after placement, looking a block up by its own position finds that block |
| Engine.Chunk.GenerateMesh | Assets/Scripts/Chunk.cs:94-126 | the buffers are `MeshOf` of the faces of all blocks in array order, and within a block in `directions` order |
| Engine.Chunk.ScanPlane | Assets/Scripts/Chunk.cs:104-123 | the buffers cover one more plane |
| Engine.Chunk.ScanRow | Assets/Scripts/Chunk.cs:104-123 | the buffers cover one more row |
| Engine.Chunk.ScanCell | Assets/Scripts/Chunk.cs:104-123 | the buffers cover one more cell |
| Engine.Chunk.CellTyped | Assets/Scripts/Chunk.cs:104-110 | a meshable chunk's block is present and typed |
| Engine.Chunk.EmitBlock | Assets/Scripts/Chunk.cs:106-122 | an invisible block adds nothing; a visible one adds its faces, numbered on from the counter |
| Engine.Chunk.EmitFaces | Assets/Scripts/Chunk.cs:108-122 | the direction loop adds the faces shown along the directions |
| Engine.Chunk.EmitDirection | Assets/Scripts/Chunk.cs:108-122 | one iteration adds the face for one more direction |
| Engine.Chunk.EmitFace | Assets/Scripts/Chunk.cs:110-121 | writes the face if it is visible and modelled (also to the collision buffers when solid), otherwise nothing; the counter follows |
| Engine.Chunk.ScanStep | Assets/Scripts/Chunk.cs:104-123 | buffers holding the visited faces plus the current block's faces are the state after the current cell |
| Engine.Chunk.QuadsOfAppend | Assets/Scripts/Chunk.cs:104 | one more cell appends its block's faces |
| Engine.Chunk.UpdateChunk | Assets/Scripts/Chunk.cs:84-89 | logs the chunk's position when loaded, and nothing otherwise |
| Engine.Chunk.Load | Assets/Scripts/Chunk.cs:143-153 | on a loaded chunk: no-op; otherwise sets `loaded` and logs exactly the loaded chunks at +x, −x, +z, −z; no array, cell, link or type changes |
| Engine.Chunk.Unload | Assets/Scripts/Chunk.cs:155-165 | on an unloaded chunk: no-op; otherwise clears `loaded` and logs exactly the loaded chunks at +x, −x, +z, −z |
| Engine.Chunk.RequestAround | Assets/Scripts/Chunk.cs:149-152 | the four calls log the requests for the four neighbour keys, in order |
| Engine.Block.constructor | Assets/Scripts/Block.cs:19-31 | all six directions are keys, each holding what the world found there (null included); each found block holds the new block under the opposite direction; nothing else changes in found blocks |
| Engine.Block.LinkAll | Assets/Scripts/Block.cs:23-30 | the constructor's loop: the same entries and back links |
| Engine.Block.Link | Assets/Scripts/Block.cs:25-28 | one step: the entry, and the back link of a found block |
| Engine.Block.SetNeighbor | Assets/Scripts/Block.cs:33-39 | the key set gains the direction, which maps to the block; other entries are unchanged |
| Engine.Block.IsVisibleFrom | Assets/Scripts/Block.cs:56-62 | hidden iff an entry exists, is non-null and opaque, and is in the same chunk or a loaded one |
| Engine.Block.AnyVisibleFrom | Assets/Scripts/Block.cs:45-52 | true iff some listed direction sees out |
| Engine.Block.IsVisible | Assets/Scripts/Block.cs:41-54 | visible iff visible from some direction |
| Engine.Block.SetType | Assets/Scripts/Block.cs:64-69 | sets the type; logs `BlockUpdate(true)`'s requests when the chunk is loaded, and nothing otherwise |
| Engine.Block.BlockUpdate | Assets/Scripts/Block.cs:71-79 | logs the own chunk's request, then, when asked, each linked block's own request |
| Engine.Block.UpdateNeighbors | Assets/Scripts/Block.cs:74-78 | the neighbour loop logs each linked block's own request, in `directions` order |
| Engine.Block.UpdateNeighborAt | Assets/Scripts/Block.cs:77 | `block?.BlockUpdate(false)` logs only that block's own request |
| LegacyVoxels.Block.constructor | Assets/Block.cs:36-39 | a new block has no neighbour entries and is visible |
| LegacyVoxels.Block.SetNeighbor | Assets/Block.cs:16-19 | for an absent direction, adds exactly that entry |
| LegacyVoxels.Block.AnyOpen | Assets/Block.cs:25-32 | true iff some listed direction has no entry or a null entry |
| LegacyVoxels.Block.IsVisible | Assets/Block.cs:21-34 | visible iff some direction has no entry or a null entry; with six non-null entries it is not |
| LegacyVoxels.OpenSomewhere | Assets/Block.cs:25-32 | some direction is open iff one in `directions` is |
| LegacyVoxels.QuadsAlong | Assets/Chunk.cs:44-46 | one face per direction, in order, all with atlas cell (0, 0) |
| LegacyVoxels.QuadsOfCount | Assets/Chunk.cs:40-53 | with V visible blocks: 6V faces, 24V vertices, 24V UVs, 36V indices |
| LegacyVoxels.Chunk.constructor | Assets/Chunk.cs:12 | no blocks yet |
| LegacyVoxels.Chunk.SetBlocks | Assets/Chunk.cs:24-27 | stores the given array itself |
| LegacyVoxels.Chunk.GenerateMesh | Assets/Chunk.cs:32-63 | the render buffers are `MeshOf` of the six faces of every visible block, in array order |
| LegacyVoxels.Chunk.ScanPlane | Assets/Chunk.cs:40-53 | the buffers cover one more plane |
| LegacyVoxels.Chunk.ScanRow | Assets/Chunk.cs:40-53 | the buffers cover one more row |
| LegacyVoxels.Chunk.EmitCell | Assets/Chunk.cs:40-53 | the buffers cover one more cell |
| LegacyVoxels.Chunk.EmitBlock | Assets/Chunk.cs:42-52 | an invisible block adds nothing, a visible one adds its six faces |
| LegacyVoxels.Chunk.EmitFaces | Assets/Chunk.cs:44-52 | the direction loop adds one face per direction, numbered on from the counter |
| LegacyVoxels.Chunk.ScanStep | Assets/Chunk.cs:40-53 | buffers holding the visited faces plus the current block's faces are the state after the current cell |

## Left out

- Threads: `GenerateMeshThreaded` runs `GenerateMesh` on a worker thread and hands the result over through an unsynchronised queue. The model only logs the request in `World.rebuildRequests`. `ChunkObject` and its mesh queue are not part of this model.
- Unity glue: GameObject creation, layer and parent; `SetActive`; the `DestroyImmediate` loop of `ClearWorld`; `ApplyMesh`; `GenerateMeshImmediate`; `Mesh`, `MeshFilter` and `subMeshCount` in the earlier chunk. These are engine calls with no effect on the modelled state.
- World.cs:66 calls `GenerateMesh` and discards the result, so `GenerateChunk` does not call it.
- Float arithmetic: the UV values of `FaceData` are abstract `Uv(cell, corner)` values, so they are counted but their numbers are not computed. Atlas cells are `real` pairs that are only stored.
- The `Vector3` ↔ `Coords` conversions and `ToString` are left out: floats and text.
- Coordinates.Coords.GetChunk: the source divides in floating point (`x * 1f / chunkSize`) and then floors. The model uses exact integer floor division, which agrees except where float rounding would differ.
- 32-bit integer overflow is not modelled: coordinates are unbounded integers.
- `Coords` equality and hashing (`==`, `Equals`, `GetHashCode`) are Dafny's structural equality of the datatype. This is what `Equals` compares.
- `Player.cs` (input, physics, ray picking), `GameController.cs` (bootstrapping) and `WorldEditor.cs` (editor UI) are not part of this model.
- `Reference` and `Blocks` are singletons. They become the constant `ChunkSize` (positive, value unspecified) and a `Catalogue` value.
- ChunkBuilding.ChunkBuilder.Update: `DistanceFromCenter` and `MeshThreadData` are not shown in the source. The queue is generic, and the distance is a function parameter.
- ChunkBuilding.ChunkBuilder.Enqueue: the code that fills `buildQueue` is not shown; this method stands for that append.
- Engine.Block.BlockUpdate: the neighbours are visited in `directions` order. This is the order in which the constructor inserted them into the dictionary, and that is the order .NET enumerates a dictionary with no removals.
- Engine.Block.IsVisibleFrom: requires every linked block to have a type. The source would throw on a neighbour whose type is still null.
- Engine.Block.constructor: requires every chunk of the world to have its block array. The source would throw in `GetBlock` on a chunk whose `CreateBlocks` has not run; `GenerateChunk` never lets that happen.
- Engine.Chunk.SetBlocks: for a loaded chunk, states only that the log grows, not which requests are added. `GenerateChunk` only calls it on an unloaded chunk, where the log is stated exactly. A loaded chunk also requires every block to link within its own world.
- Engine.Chunk.GenerateMesh: requires every block to be present and typed, with every linked block typed. The source would throw on a null type. `World.ValidMeshable` derives this from the world invariant for every chunk, so it holds after `GenerateChunk`.
- Engine.World.GenerateChunk: requires the world invariant `Valid`. It says every chunk sits under its own key, belongs to this world, and holds its blocks at their local indices; every block has a type; and every block links, in each direction, to the block the world holds next to it. The constructor, `ClearWorld` and `GenerateChunk` keep it.
- Engine.Chunk.constructor: the block array starts as null and is allocated by `CreateBlocks`, as in the source.
- The mesher writes into one `MeshData` value holding the five lists, rather than into five separate lists.
- BlockMetrics.GetFaceVertices: the source's fallback that logs an error for an unknown direction cannot be taken, because every `Direction` is one of the six.
- LegacyVoxels.Block.SetNeighbor: requires the direction to be absent. `Dictionary.Add` throws on a present key.
- LegacyVoxels.Chunk.GenerateMesh: requires the array to be set, and the element type `Block` is non-null, so every slot holds a block. In the source, `foreach` over an unset array and `block.IsVisible` on an empty slot both throw (Assets/Chunk.cs:40-43). Those throwing paths are not modelled.
- LegacyVoxels.Chunk.SetBlocks: takes an array of non-null blocks, so an array with empty slots, which the source accepts and `GenerateMesh` then trips over, cannot be passed.

## Findings

| source | as written | input that shows it | evidently intended | confidence | as-written member | corrected member |
|---|---|---|---|---|---|---|
| Assets/Scripts/Chunk.cs:119 | the collision triangles are the render triangles copied unchanged, so they are numbered by the face counter over all faces | a non-solid face followed by a solid face: 4 collision vertices but collision indices 4, 7, 5, 4, 6, 7 | number the s-th solid face's triangles from 4s, so every collision index names a collision vertex | not executed | Meshing.ColliderIndicesOverrun | Meshing.ColliderMeshOf |

`Meshing.MeshOf` builds the buffers as written. `Meshing.ColliderMeshOf` builds the corrected collision buffers. `Meshing.ColliderMeshAllSolid` shows the two agree when every face is solid.
