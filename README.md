# YAMC voxel terrain core in Dafny

This project models the core of YAMC, a voxel terrain generator and renderer, and proves properties of the model. The model covers:

- **Coordinates.** A world block position splits into a 32x32x32 chunk and an offset, and the offset packs into a 15-bit index (`Utils`). `ChunkCoords` and `RenderCoords` model the two `ChunkCoordinates` types.
- **Blocks.** There are two block catalogs of ten block types, and equality compares ids only (`Blocks`, `BlockTypes`). Four classification groups sort the block types.
- **Terrain generation.**
  - `Biomes` is the biome table over `i8` temperature and height samples.
  - `NoiseMapWrappers` and `NoiseMapsTopping` are the noise layers. The `i8` topping arithmetic panics on overflow in a debug build, and the model returns `None` there.
  - `Generator` is `get_chunk`. It fills every column with bedrock, then stone, then the biome's topping block, and skips cave voxels.
- **Voxel stores.**
  - `VoxelChunk` is the flat 32768-cell store, with its block counter and its `is_updated` flag.
  - `GenChunk` is the generator's `[y][z][x]` store, whose `set` keeps the counter exact.
- **Meshing.** `CulledMesher` builds a triangle mesh. Each occupied voxel gets one quad per side whose neighbour is not an occupied cell of the chunk. `StaticVoxelRender` models `From<&Chunk> for Mesh`, which runs the same loop, and `update_mesh`, which rebuilds the mesh of flagged chunks.
- **Streaming.**
  - `Streaming` has the shared logic: the visible columns (a square of radius R, minus an optional inner square), the first missing column each camera spawns, and the fold that picks the despawn centre.
  - `RenderStreaming` and `MapStreaming` apply that logic with each plugin's own constants and coordinate types.
  - `RenderStreaming` also models the block filter and the cuboid scan of `spawn_chunk`.

Rust's integer semantics are written out:

- `/` and `%` truncate toward zero (`RustInt.Quot` and `RustInt.Rem`).
- `i8` overflow and `u32` underflow panic; the model returns `None` for them.
- Bit operations on block indices are written as arithmetic that is equal on the valid range.

Quirks of the source that the model keeps and proves:

- A biome sample of exactly 127 falls outside every half-open range that ends at `i8::MAX` (`Biomes.MaxSampleEdges`).
- A terrain height of -101 puts a topping voxel at the bedrock's own height (`Generator.BedrockOverlap`).
- `spawn_block_unchecked` counts one block too many when it writes over a block (`VoxelChunk.Chunk.SpawnBlockUnchecked`).
- The despawn centre is the last camera only, or the origin when there is no camera (`Streaming.LastCamera`).

## Model

| member | source | states |
|---|---|---|
| Utils.FromIndex | src/utils/mod.rs:59-65 | every index unpacks to a position inside the chunk |
| Utils.ToIndex | src/utils/mod.rs:67-69 | a valid position packs to an index below 32768 |
| Utils.ChunkAxis | src/utils/mod.rs:92-94 | the chunk of a coordinate is its floor division by 32, negative coordinates included (c*32 <= v < c*32 + 32) |
| Utils.LocalAxis | src/utils/mod.rs:102-104 | the offset lies in [0, 32) and is the coordinate minus its chunk's origin |
| Utils.ChunkPosFrom | src/utils/mod.rs:89-97 | each axis of the chunk position is the floor quotient of the world coordinate by 32 |
| Utils.BlockPosFrom | src/utils/mod.rs:99-107 | the offset is always valid, and each axis is the non-negative remainder modulo 32 |
| Utils.WorldBlockPosFrom | src/utils/mod.rs:25-31 | the chunk's origin plus the offset; `Utils.WorldRoundTrip` and `Utils.SplitRoundTrip` prove it inverts the split into chunk and offset |
| Utils.IsValid | src/utils/mod.rs:71-74 | every axis in [0, 32); `Utils.IndexBijection` proves the valid positions are exactly the images of the indices below 32768 |
| Utils.WorldRoundTrip | src/utils/mod.rs:89-107 | splitting a world position into chunk and offset and joining them with `WorldBlockPos::from` gives it back |
| Utils.SplitRoundTrip | src/utils/mod.rs:26-32 | joining a chunk and a valid offset and splitting again returns both parts |
| Utils.NegativeAxisExamples | src/utils/mod.rs:92-104 | -1 and -32 lie in chunk -1 at offsets 31 and 0; -33 lies in chunk -2 at offset 31 |
| Utils.FromToIndex | src/utils/mod.rs:59-69 | unpacking the packing of a valid position gives the position back |
| Utils.ToFromIndex | src/utils/mod.rs:59-69 | packing the unpacking of an index below 32768 gives the index back |
| Utils.IndexBijection | src/utils/mod.rs:59-69 | distinct indices unpack to distinct positions; distinct valid positions pack to distinct indices |
| Utils.IndexBijectionAll | src/utils/mod.rs:59-69 | unpacking is injective on [0, 32768), and packing inverts it on all valid positions |
| Utils.PlanarDistance | src/utils/mod.rs:40-42 | |dx| + |dz|; its properties are `Utils.PlanarDistanceProperties` |
| Utils.PlanarDistanceProperties | src/utils/mod.rs:40-42 | planar distance is symmetric, non-negative, blind to y, and zero exactly on the same column |
| ChunkCoords.New | src/map/chunk/chunk_coordinates.rs:13-15 | stores its three arguments; `ChunkCoords.NewEquality` |
| ChunkCoords.NewEquality | src/map/chunk/chunk_coordinates.rs:13-15 | coordinates built by `new` are equal exactly when all three arguments are |
| ChunkCoords.Distance | src/map/chunk/chunk_coordinates.rs:17-19 | |dx| + |dz| to a column; its properties are `ChunkCoords.DistanceProperties` |
| ChunkCoords.DistanceProperties | src/map/chunk/chunk_coordinates.rs:17-19 | distance is non-negative, symmetric, zero exactly on the same column, and independent of y |
| ChunkCoords.FromGlobalBlockPosAxis | src/map/chunk/chunk_coordinates.rs:34-40 | the offset lies in [0, size) and chunk * size + offset is the coordinate, for negative coordinates too |
| ChunkCoords.MinusOneAxis | src/map/chunk/chunk_coordinates.rs:34-40 | block -1 lies in chunk -1 at the chunk's last offset |
| ChunkCoords.FromGlobalBlockPos | src/map/chunk/chunk_coordinates.rs:25-32 | all three offsets lie inside the chunk extents |
| ChunkCoords.GetGlobalBlockPos | src/map/chunk/chunk_coordinates.rs:42-46 | chunk times extent plus offset on each axis; `ChunkCoords.GlobalRoundTrip` proves it joins what `from_global_block_pos` splits |
| ChunkCoords.GlobalRoundTrip | src/map/chunk/chunk_coordinates.rs:42-46 | `get_global_block_pos` inverts `from_global_block_pos` |
| RenderCoords.New | src/map/render/chunk_coordinates.rs:10-12 | stores the column; `RenderCoords.Distance` states its distance from every other column |
| RenderCoords.Distance | src/map/render/chunk_coordinates.rs:14-16 | the distance is non-negative, zero exactly on the same column, and at least each axis difference |
| RenderCoords.DistanceTriangle | src/map/render/chunk_coordinates.rs:14-16 | distance obeys the triangle inequality |
| RenderCoords.DistanceSymmetric | src/map/render/chunk_coordinates.rs:14-16 | the distance between two chunks does not depend on which one is asked |
| Blocks.Eq | src/map/blocks.rs:10-14 | id equality; `Blocks.EqIsEquivalence` proves it an equivalence |
| Blocks.EqIsEquivalence | src/map/blocks.rs:10-18 | id equality is reflexive, symmetric and transitive, as `Eq` promises |
| Blocks.CatalogIds | src/map/blocks.rs:20-80 | the ten constants carry pairwise distinct ids below 10 |
| Blocks.SameCatalogAsBlockTypes | src/map/blocks.rs:20-80 | each constant has the id, name and colour of its namesake in the voxel store's catalog |
| BlockTypes.Eq | src/map/chunk/block_type.rs:10-14 | id equality; `BlockTypes.EqIsIdEquality` |
| BlockTypes.Id | src/map/chunk/block_type.rs:81-83 | the id field; `BlockTypes.CatalogIds` pins the ten constants' ids |
| BlockTypes.EqIsIdEquality | src/map/chunk/block_type.rs:10-14 | equality is decided by `id()` alone; name and colour do not matter |
| BlockTypes.CatalogIds | src/map/chunk/block_type.rs:20-80 | the ten constants are pairwise unequal, and their ids are exactly 0..9 |
| BlockTypes.Contains | src/map/chunk/block_type.rs:94-96 | slice `contains`, element by element from the front; `BlockTypes.ContainsIff` |
| BlockTypes.BlockKind.ContainsBlock | src/map/chunk/block_type.rs:94-96 | `BlockKind::contains` delegates to the slice; `BlockTypes.ContainsIff` and the per-group id lemmas |
| BlockTypes.ContainsIff | src/map/chunk/block_type.rs:94-96 | a group contains a block exactly when one of its members is equal to it, that is, has its id |
| BlockTypes.ResourceIds | src/map/chunk/block_type.rs:89 | the resources group holds exactly the ids 7, 8 and 9 |
| BlockTypes.CrustIds | src/map/chunk/block_type.rs:90 | the crust group holds exactly the ids 0 and 1 |
| BlockTypes.ToppingIds | src/map/chunk/block_type.rs:91 | the topping group holds exactly the ids 2, 3, 4 and 6 |
| BlockTypes.FluidIds | src/map/chunk/block_type.rs:92 | the fluid group holds exactly the id 5 |
| BlockTypes.GroupIds | src/map/chunk/block_type.rs:89-92 | the four group memberships by id, together |
| BlockTypes.GroupsDisjoint | src/map/chunk/block_type.rs:89-92 | no block type belongs to two groups |
| BlockTypes.GroupsCoverCatalog | src/map/chunk/block_type.rs:89-92 | a block type is in some group exactly when its id is a catalog id (below 10) |
| Biomes.FromMap | src/map/generator/biome.rs:25-37 | a sample is an ocean biome exactly when it is below the ocean height and its temperature is not 127 |
| Biomes.FromMapRegions | src/map/generator/biome.rs:25-37 | the exact input region of each of the eight biomes under first-match-wins; the regions partition all inputs |
| Biomes.MaxSampleEdges | src/map/generator/biome.rs:27-35 | at temperature 127 low ground and plain ground are forest, and height 127 is never an ice pike |
| NoiseMapWrappers.BiomeMap.Get | src/map/generator/noise_map_wrappers.rs:42-44 | a column is an ocean biome exactly when its height is below -25 and its temperature is below 127 |
| NoiseMapWrappers.AbsDiv20 | src/map/generator/noise_map_wrappers.rs:69-74 | `abs() / 20` panics only on -128 and otherwise lies in [0, 6] |
| NoiseMapWrappers.AddI8 | src/map/generator/noise_map_wrappers.rs:69-76 | an `i8` sum is defined exactly when both operands are and the sum fits, and then it is the sum |
| NoiseMapWrappers.ToppingMap.Get | src/map/generator/noise_map_wrappers.rs:67-78 | per biome: oceans at -23; frozen oceans -23 to -17; land 2 to 8 above the terrain; mountains 0 to 6 above it; each with its exact panic condition |
| NoiseMapWrappers.ToppingNeverPanicsOnModerateTerrain | src/map/generator/noise_map_wrappers.rs:67-78 | no overflow happens when the terrain is at most 119 and no noise sample is -128 |
| NoiseMapWrappers.CaveMap.Get | src/map/generator/noise_map_wrappers.rs:104-117 | ocean columns are never carved; elsewhere the cave noise decides |
| NoiseMapWrappers.FrozenOceanCanBeCarved | src/map/generator/noise_map_wrappers.rs:104-107 | only `Ocean` is exempt: a frozen-ocean voxel is carved where the noise carves |
| NoiseMapWrappers.CaveSeeds | src/map/generator/noise_map_wrappers.rs:93-102 | the second permutation seed is `seed - 758`, which panics below 758 |
| NoiseMapsTopping.ToppingMap.Get | src/map/generator/noise_maps/topping_map.rs:25-37 | the `Noise2D` topping map agrees with the generator's topping map on every column |
| NoiseMapsTopping.DependsOnlyOnSelectedNoise | src/map/generator/noise_maps/topping_map.rs:26-37 | a column's topping depends only on its biome, its height and the one noise layer that biome reads |
| NoiseMapsTopping.OceanIsFixed | src/map/generator/noise_maps/topping_map.rs:35 | an ocean column's topping is -23 whatever the noise |
| Generator.LayerSeeds | src/map/generator/mod.rs:33-36 | the layer seeds are seed - 100, seed - 200 and seed - 758, and they exist exactly when seed >= 758 |
| Generator.ToppingBlock | src/map/generator/mod.rs:65-78 | the topping block of a biome at height y; its table is `Generator.ToppingBlockTable` |
| Generator.ToppingBlockTable | src/map/generator/mod.rs:65-78 | the biome-to-block table; frozen oceans are ice in their top three voxels and water below |
| Generator.SamplesAt | src/map/generator/mod.rs:59-60 | the column's topping sample is defined exactly when the topping map does not panic |
| Generator.CarvedIsCaveMapGet | src/map/generator/mod.rs:52 | the per-column cave test is `CaveMap::get` |
| Generator.StoneRunContents | src/map/generator/mod.rs:51-57 | the stone loop yields exactly the uncarved heights of [-100, terrain) as stone |
| Generator.ToppingRunContents | src/map/generator/mod.rs:61-82 | the topping loop yields exactly the uncarved heights of [terrain, topping] with their topping block |
| Generator.StoneRunIncreasing | src/map/generator/mod.rs:51-57 | the stone heights strictly increase and stay in range |
| Generator.ToppingRunIncreasing | src/map/generator/mod.rs:61-82 | the topping heights strictly increase and stay in range |
| Generator.ColumnContents | src/map/generator/mod.rs:45-82 | a column is bedrock at -101 followed by exactly the placed stone and topping voxels |
| Generator.ColumnIncreasing | src/map/generator/mod.rs:45-82 | when the terrain is not below -100, a column's heights strictly increase |
| Generator.BedrockOverlap | src/map/generator/mod.rs:45-61 | a terrain height of -101 puts an uncarved topping voxel at the bedrock's own height, right after it |
| Generator.OceanColumnsAreWater | src/map/generator/mod.rs:59-82 | an ocean column tops out at -23, holds water from the terrain up to it and stone below from -100 |
| Generator.PushStone | src/map/generator/mod.rs:51-57 | the stone loop appends the stone run and counts its voxels |
| Generator.PushTopping | src/map/generator/mod.rs:61-82 | the topping loop appends the topping run and counts its voxels |
| Generator.FillColumn | src/map/generator/mod.rs:43-82 | a column is built exactly when its topping does not overflow; it is the specified column, and the counter counts its voxels |
| Generator.FillRow | src/map/generator/mod.rs:43-83 | row z holds the specified column at each x, and the counter is the row's voxel count |
| Generator.FillRows | src/map/generator/mod.rs:42-84 | the rows exist exactly when no topping overflows; each row matches, and the counter is the chunk's voxel count |
| Generator.GetChunk | src/map/generator/mod.rs:29-93 | a chunk is returned exactly when seed >= 758 and no topping overflows; it holds the specified columns, `i` is its voxel count, and x, y are the chunk's x and z |
| GenChunk.WithCellProperties | src/map/generator/chunk.rs:26-35 | replacing one cell keeps the shape, changes the occupied count by the difference in occupancy, and changes no other cell |
| GenChunk.Chunk.constructor | src/map/generator/chunk.rs:14-24 | a new store is all air, shaped 256 x 16 x 16, with counter 0 |
| GenChunk.Chunk.Set | src/map/generator/chunk.rs:26-35 | the counter follows the air/block transition of the cell and stays exact; the cell reads back the new value and no other cell changes |
| GenChunk.Chunk.Get | src/map/generator/chunk.rs:37-39 | the cell at [y][z][x]; `GenChunk.Chunk.Set` and the constructor state what it reads back |
| GenChunk.Chunk.GetAmountOfCubes | src/map/generator/chunk.rs:41-43 | the counter is the number of occupied cells |
| VoxelChunk.Chunk.GetBlockAt | src/map/chunk/mod.rs:67-74 | reads the array through `VoxelChunk.BlockAt`, whose contract gives the error for an invalid position and the packed cell otherwise |
| VoxelChunk.BlockAt | src/map/chunk/mod.rs:67-74 | the lookup fails exactly for a position outside the chunk, and otherwise returns the cell at the packed index |
| VoxelChunk.Chunk.IterWithPos | src/map/chunk/mod.rs:54-58 | the array's contents through `VoxelChunk.WithPos`, whose contract pairs each cell with `from_index` of its index |
| VoxelChunk.WithPos | src/map/chunk/mod.rs:54-58 | entry i pairs `from_index(i)` with cell i; every valid position appears once, at its packed index |
| VoxelChunk.Chunk.constructor | src/map/chunk/mod.rs:28-34 | a new chunk is all air, not updated, with counter 0, and the counter is exact |
| VoxelChunk.Chunk.SpawnBlockUnchecked | src/map/chunk/mod.rs:36-40 | writes the cell and adds one to the counter; the counter stays exact only when the cell was air |
| VoxelChunk.Chunk.GetAmountOfBlocks | src/map/chunk/mod.rs:42-44 | returns the counter in every state; it is the number of occupied cells exactly when the counter invariant holds, which a spawn over an occupied cell breaks |
| VoxelChunk.Chunk.GetUnchecked | src/map/chunk/mod.rs:76-78 | agrees with the checked lookup and with `iter_with_pos` on every valid position |
| CulledMesher.SidesGeometry | src/map/render/culled_chunk_mesher.rs:10-50 | each side's four corners lie in the plane facing its neighbour, and the six offsets are distinct |
| CulledMesher.Translate | src/map/render/culled_chunk_mesher.rs:78-82 | moving a side's corners keeps their number |
| CulledMesher.FaceIndices | src/map/render/culled_chunk_mesher.rs:84 | each face contributes six indices |
| CulledMesher.MeshOf | src/map/render/culled_chunk_mesher.rs:76-91 | each face contributes 4 positions, 4 colours and 6 indices |
| CulledMesher.MeshOfSnoc | src/map/render/culled_chunk_mesher.rs:76-91 | one more face extends the three buffers by its corners, its shifted indices and four copies of its colour |
| CulledMesher.SidesBound | src/map/render/culled_chunk_mesher.rs:68-74 | a voxel contributes at most one face per side |
| CulledMesher.SidesMembership | src/map/render/culled_chunk_mesher.rs:68-74 | a voxel's faces are exactly its visible sides, carrying its position and block |
| CulledMesher.FacesMembership | src/map/render/culled_chunk_mesher.rs:67-74 | a face is emitted exactly when its voxel is occupied by its block and the neighbour across the side is not an occupied cell of the chunk |
| CulledMesher.FacesBound | src/map/render/culled_chunk_mesher.rs:67-91 | at most six faces per occupied cell |
| CulledMesher.MeshContents | src/map/render/culled_chunk_mesher.rs:76-91 | position j and colour j belong to face j/4; index j is `SIDES_INDICES[j % 6] + 4 * (j / 6)` |
| CulledMesher.IndicesInRange | src/map/render/culled_chunk_mesher.rs:84-85 | every index names a position already emitted |
| CulledMesher.ChunkIndicesFitU32 | src/map/render/culled_chunk_mesher.rs:84-85 | `current_index * 4` and every index of a chunk mesh fit in `u32` |
| CulledMesher.IsolatedVoxel | src/map/render/culled_chunk_mesher.rs:68-74 | a voxel with no occupied neighbour shows all six faces, in side order |
| CulledMesher.EnclosedVoxel | src/map/render/culled_chunk_mesher.rs:68-74 | a voxel whose six neighbours are occupied cells shows no face |
| CulledMesher.EmptyChunk | src/map/render/culled_chunk_mesher.rs:57-104 | a chunk of air meshes to three empty buffers |
| CulledMesher.SingleBlockFaces | src/map/render/culled_chunk_mesher.rs:67-91 | in a chunk with a single block, the faces are that block's six |
| CulledMesher.SingleBlockChunk | src/map/render/culled_chunk_mesher.rs:57-104 | a single block meshes to 6 faces, 24 positions and 36 indices |
| CulledMesher.LookupDecidesVisibility | src/map/render/culled_chunk_mesher.rs:72-73 | `get_block_at(..).map(is_some).unwrap_or(false)` is the negation of the culling rule |
| CulledMesher.CreateMeshCulled | src/map/render/culled_chunk_mesher.rs:57-104 | the mesh is the mesh of exactly the culled faces, in `iter_with_pos` order |
| CulledMesher.EmitVisibleSides | src/map/render/culled_chunk_mesher.rs:76-91 | one voxel's pass appends the mesh of its visible faces and advances `current_index` by their number |
| StaticVoxelRender.MeshHandle.constructor | src/map/render/static_voxel_render.rs:131 | a handle holds the mesh it is given |
| StaticVoxelRender.MeshFromChunk | src/map/render/static_voxel_render.rs:51-95 | the mesh is the culled mesh of the chunk, the same as `create_mesh_culled` builds |
| StaticVoxelRender.UpdateMesh | src/map/render/static_voxel_render.rs:124-133 | afterwards every flag is clear; flagged chunks have their mesh rebuilt, the others keep theirs, and the counters are untouched |
| StaticVoxelRender.RefreshEntity | src/map/render/static_voxel_render.rs:125-132 | one entity: skipped when not flagged; otherwise the flag is cleared and the mesh rebuilt |
| Streaming.VisibleChunks | src/map/render/mod.rs:87-106 | the push and retain loops build the specified visible list |
| Streaming.CutInnerSquare | src/map/render/mod.rs:99-103 | the retain loops remove exactly the inner square, keeping order |
| Streaming.CutColumn | src/map/render/mod.rs:100-102 | the inner retain loop for one x removes that x's column of the inner square and nothing else |
| Streaming.KeepMembership | src/map/render/mod.rs:99-103 | a column survives the cut exactly when it was present and lies outside the inner square |
| Streaming.SquareMembership | src/map/render/mod.rs:89-93 | the push loops produce exactly the columns of the square |
| Streaming.SquareLength | src/map/render/mod.rs:89-93 | the square has (2R+1) columns per row |
| Streaming.SquareOrdered | src/map/render/mod.rs:89-93 | the square is listed x-major without repeats |
| Streaming.KeepOrdered | src/map/render/mod.rs:99-103 | the cut keeps the order of what remains |
| Streaming.VisibleSpec | src/map/render/mod.rs:87-106 | the square of radius R, cut when the cut distance is positive; `Streaming.VisibleMembership` and `Streaming.VisibleShape` |
| Streaming.VisibleMembership | src/map/render/mod.rs:87-106 | a column is visible exactly when it is within R of the centre and, when there is a cut, not within the cut |
| Streaming.VisibleShape | src/map/render/mod.rs:87-106 | without a cut there are (2R+1)² columns; the list is always x-major without repeats |
| Streaming.VisibleManhattan | src/map/render/mod.rs:89-93 | every visible column is within Manhattan distance 2R of the centre |
| Streaming.MissingMembership | src/map/render/mod.rs:70-72 | the filter keeps exactly the visible columns that no chunk occupies |
| Streaming.FirstMissingIsFirst | src/map/render/mod.rs:70-76 | nothing is chosen exactly when every visible column is occupied; otherwise the choice is the first unoccupied one |
| Streaming.PassCameras | src/map/render/mod.rs:63-84 | for any per-camera choice, camera k contributes the k-th spawn and the pass stops exactly at the first camera with no choice |
| Streaming.SpawnPlanCameras | src/map/render/mod.rs:63-84 | at most one spawn per camera, camera k spawns its own choice, and the pass ends early exactly at a camera with nothing missing |
| Streaming.SpawnPlanSpawnsMissing | src/map/render/mod.rs:63-84 | each spawned column is visible from its camera and not occupied |
| Streaming.ChunkSpawner | src/map/render/mod.rs:63-84 | the loop with its early return computes the spawn plan |
| Streaming.FoldLatest | src/map/render/mod.rs:111-113 | `fold` keeping the newer element; `Streaming.LastCamera` proves it yields the last camera or the start |
| Streaming.LastCamera | src/map/render/mod.rs:111-115 | the fold yields the last camera, or the origin when there is none |
| RenderStreaming.ShouldRenderBlock | src/map/render/mod.rs:149-163 | the filter test in the order Water, Topping, Stone, Resources; `RenderStreaming.ShouldRenderIff`, `ShouldRenderByIds` and `FilterExtremes` |
| RenderStreaming.ShouldRenderIff | src/map/render/mod.rs:149-163 | a block renders exactly when some enabled flag's group contains it |
| RenderStreaming.ShouldRenderByIds | src/map/render/mod.rs:149-163 | the filter by id: water 5; toppings 2, 3, 4, 6; stone 0, 1; resources 7, 8, 9 |
| RenderStreaming.FilterExtremes | src/map/render/mod.rs:149-163 | with the default filter exactly the catalog ids render, including all ten constants; with no flag nothing renders |
| RenderStreaming.GetVisibleChunks | src/map/render/mod.rs:87-106 | radius 10, no cut: exactly the 441 columns within 10 of the camera column, x-major |
| RenderStreaming.Columns | src/map/render/mod.rs:71 | the spawner compares chunks by (x, z) |
| RenderStreaming.ChunkSpawnerPass | src/map/render/mod.rs:57-85 | at most one spawn per camera, each visible from its camera and not yet spawned, in the spawner's order |
| RenderStreaming.ShouldDespawn | src/map/render/mod.rs:118-119 | the despawn test, distance above 3R or below the cut; `RenderStreaming.DespawnRule` |
| RenderStreaming.DespawnRule | src/map/render/mod.rs:118-119 | a chunk is despawned exactly when it is more than 30 away, so no chunk visible from the same column is despawned |
| RenderStreaming.ChunkDespawner | src/map/render/mod.rs:108-126 | the despawned chunks are exactly those of the query that meet the test around the fold's centre |
| RenderStreaming.ScanMembership | src/map/render/mod.rs:131-144 | the scan up to a cursor emits a cuboid exactly for each earlier cell that holds a block the filter passes, at height y - 127 |
| RenderStreaming.ScanOrdered | src/map/render/mod.rs:131-144 | the cuboids come in scan order (x, then y, then z), so no cell is emitted twice |
| RenderStreaming.SpawnedCuboids | src/map/render/mod.rs:131-144 | on a full store, `spawn_chunk` emits exactly the filter-passing blocks of the chunk, each once and in scan order |
| RenderStreaming.SpawnChunk | src/map/render/mod.rs:128-147 | the coordinates are the chunk's (x, y), and the cuboids are the full scan |
| RenderStreaming.ScanSlice | src/map/render/mod.rs:132-143 | the y loop takes the scan from the start of slice x to the start of slice x + 1 |
| RenderStreaming.ScanLine | src/map/render/mod.rs:133-142 | the z loop takes the scan from the start of line (x, y) to the start of line (x, y + 1) |
| MapStreaming.GetVisibleChunks | src/map/mod.rs:52-71 | radius 10, no cut: exactly the 441 columns within 10 of the camera column, x-major |
| MapStreaming.Columns | src/map/mod.rs:39 | the spawner compares chunks by (x, z) and ignores y |
| MapStreaming.ChunkSpawnerPass | src/map/mod.rs:26-50 | at most one spawn per camera, each visible from its camera and on a column with no chunk |
| MapStreaming.ShouldDespawn | src/map/mod.rs:83-84 | the despawn test, distance above 3R or below the cut; `MapStreaming.DespawnRule` |
| MapStreaming.DespawnRule | src/map/mod.rs:83-84 | a chunk is despawned exactly when it is more than 30 away, so no chunk visible from the same column is despawned |
| MapStreaming.ChunkDespawner | src/map/mod.rs:73-91 | the despawned chunks are exactly those of the query that meet the test around the fold's centre |

## Left out

- Floating point is not modelled:
  - Perlin and fBm sampling (`generate_noise`, `HeightMap::get`'s scaling and rounding) and the cave probability test are inputs. A height map is a function from a column to its `i8` sample, and the cave noise is a boolean function of a voxel.
  - Camera positions are inputs: each camera is given as the chunk column it stands in (the floored column for spawning, the rounded column for despawning).
  - `WorldPos` conversions, `global_pos`, `From<ChunkCoordinates> for Vec3`, `create_cuboid`'s float corners and the biome display colours are not modelled.
- Mesh positions are integers in half-voxel units instead of `f32`, which is exact because the corners are ±0.5 around integer centres. Colours are the block's named colour instead of its sRGBA floats.
- Bevy and engine glue is not modelled: plugins, `Commands`, queries, `spawn_mesh`, `spawn_cuboids`, `setup`, `RendererMetadata`, mesh and material assets, `Instant` timing and `info!` logging. The map plugin's `spawn_chunk` (src/map/mod.rs:93-97) is also glue. It calls `ChunkCoordinates::new` with two arguments, while the constructor at src/map/chunk/chunk_coordinates.rs:13 takes three.
- The noise map constructors (`HeightMap::new`, `BiomeMap::new`, `ToppingMap::new`, `CaveMap::new`) are modelled only through the seed arithmetic of `Generator.LayerSeeds` and `NoiseMapWrappers.CaveSeeds`. The zoom factors shape the noise and are not modelled.
- `Chunk::iter`, `iter_mut`, `iter_mut_with_pos` and `get_unchecked_mut` hand out references into the store. They are not modelled; the store is the array itself.
- Coordinates are unbounded integers: `i32` overflow of `ch ± R`, of `distance` and of `to_index` on huge coordinates is not modelled.
- `Vec::with_capacity` hints are not modelled (`spawn_chunk` sizes its buffer by `get_amount_of_cubes()`).
- The render-side flags are modelled as a set of four flags, not the `u8` bit representation.
- RenderStreaming.SpawnChunk: a cuboid carries the block it shows, not the packed RGBA of its colour.
- RenderStreaming.SpawnChunk: the renderer calls `get(x, y, z)` and `get_amount_of_cubes()` on the chunk that `get_chunk` returns. src/map/generator/mod.rs:22-26 defines that chunk as columns of (height, block) pairs, but only the store in src/map/generator/chunk.rs has those methods. The scan therefore takes the `[y][z][x]` store (`GenChunk.Chunk`), and the conversion between the two is not modelled.
- RenderStreaming.ShouldRenderIff: src/map/render/mod.rs:8 imports `BlockKind` from `map::blocks`, which defines none. The groups of src/map/chunk/block_type.rs are used, and a block of src/map/blocks.rs is matched by id, which is exactly how `PartialEq` compares block types.
- CulledMesher.CreateMeshCulled: the mesher calls `get_block_at` with three integers and destructures a `BlockPos` as a tuple (src/map/render/culled_chunk_mesher.rs:67-72). src/map/chunk/mod.rs:67 takes a `&BlockPos`, so the lookup is modelled on the neighbour's `BlockPos`.
- ChunkCoords.FromGlobalBlockPos: `Chunk::WIDTH`, `Chunk::HEIGHT` and `Chunk::LENGTH` are not defined in the source, so the extents are a parameter.
- RenderStreaming.ChunkSpawnerPass: models only which chunks the pass selects. The `get_chunk` call on the selected column (src/map/render/mod.rs:77) is not composed into the pass. That call panics for a seed below 758 or an undefined topping (see `Generator.GetChunk`), which would end the pass before the chunk and any later camera's chunk are spawned.
- MapStreaming.ChunkSpawnerPass: models only which chunks the pass selects, not the generation inside `spawn_chunk` (src/map/mod.rs:45, 93-97).
- RenderStreaming.ChunkDespawner: states which chunks are despawned, not the order in which the despawn commands are queued.
- MapStreaming.ChunkDespawner: states which chunks are despawned, not the order in which the despawn commands are queued.
- StaticVoxelRender.MeshFromChunk: `From<&Chunk> for Mesh` repeats the mesher's loop line for line. It is modelled as a call to `CulledMesher.CreateMeshCulled` rather than a second copy of the loop.
