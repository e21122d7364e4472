/**
 * The chunk systems of the cuboid renderer (src/map/render/mod.rs): which
 * chunk columns are visible, which chunk a camera spawns next, which chunks
 * are despawned, which blocks the filter lets through, and the cuboids
 * `spawn_chunk` emits for a generated chunk.
 *
 * Camera positions are floats: each camera enters as the chunk column it
 * stands in (for spawning) or the rounded column (for despawning).
 */
module RenderStreaming {

  import opened Wrappers
  import opened Streaming
  import opened Blocks
  import BlockTypes
  import RenderCoords
  import GenChunk
  import Generator

  const VISIBLE_CHUNKS_DISTANCE: nat := 10 * Generator.DEBUG_WORLD_SCALE
  const CHUNKS_CUT_DISTANCE: nat := 0 * Generator.DEBUG_WORLD_SCALE

  /** The render filter flags (bits 0b0001, 0b0010, 0b0100, 0b1000). */
  datatype BlockFilter = Stone | Topping | Resources | Water

  /** `BitFlags::default()`: all four flags. */
  const DEFAULT_FILTER: set<BlockFilter> := {Stone, Topping, Resources, Water}

  /**
   * The block as a member of the classification groups. The groups hold
   * the voxel store's block types, and membership compares ids only.
   */
  function AsGroupMember(block: BlockType): BlockTypes.BlockType {
    BlockTypes.BlockType(block.id, block.name, block.color)
  }

  /** The group a flag lets through. */
  function Group(flag: BlockFilter): BlockTypes.BlockKind {
    match flag
    case Water => BlockTypes.BlockKind(BlockTypes.FLUID)
    case Topping => BlockTypes.BlockKind(BlockTypes.TOPPING)
    case Stone => BlockTypes.BlockKind(BlockTypes.CRUST)
    case Resources => BlockTypes.BlockKind(BlockTypes.RESOURCES)
  }

  /** `should_render_block`: the flags are tried in the order Water, Topping, Stone, Resources. */
  function ShouldRenderBlock(block: BlockType, filter: set<BlockFilter>): bool {
    if Water in filter && Group(Water).ContainsBlock(AsGroupMember(block)) then true
    else if Topping in filter && Group(Topping).ContainsBlock(AsGroupMember(block)) then true
    else if Stone in filter && Group(Stone).ContainsBlock(AsGroupMember(block)) then true
    else if Resources in filter && Group(Resources).ContainsBlock(AsGroupMember(block)) then true
    else false
  }

  /** A block renders exactly when some enabled flag's group holds it. */
  lemma ShouldRenderIff(block: BlockType, filter: set<BlockFilter>)
    ensures ShouldRenderBlock(block, filter) <==> exists f :: f in filter && Group(f).ContainsBlock(AsGroupMember(block))
  {
    if ShouldRenderBlock(block, filter) {
      if Water in filter && Group(Water).ContainsBlock(AsGroupMember(block)) {
      } else if Topping in filter && Group(Topping).ContainsBlock(AsGroupMember(block)) {
      } else if Stone in filter && Group(Stone).ContainsBlock(AsGroupMember(block)) {
      } else {
        assert Resources in filter && Group(Resources).ContainsBlock(AsGroupMember(block));
      }
    }
  }

  /** The filter by block id: water 5; toppings 2, 3, 4, 6; crust 0, 1; resources 7, 8, 9. */
  lemma ShouldRenderByIds(block: BlockType, filter: set<BlockFilter>)
    ensures ShouldRenderBlock(block, filter) <==>
      (Water in filter && block.id == 5) ||
      (Topping in filter && block.id in {2, 3, 4, 6}) ||
      (Stone in filter && block.id in {0, 1}) ||
      (Resources in filter && block.id in {7, 8, 9})
  {
    BlockTypes.GroupIds(AsGroupMember(block));
  }

  /** With the default filter exactly the ten catalog ids render, so every catalog block does; with no flag nothing does. */
  lemma FilterExtremes(block: BlockType)
    ensures ShouldRenderBlock(block, DEFAULT_FILTER) <==> block.id < 10
    ensures !ShouldRenderBlock(block, {})
    ensures forall i :: 0 <= i < |ALL| ==> ShouldRenderBlock(ALL[i], DEFAULT_FILTER)
  {
    ShouldRenderByIds(block, DEFAULT_FILTER);
    forall i | 0 <= i < |ALL|
      ensures ShouldRenderBlock(ALL[i], DEFAULT_FILTER)
    {
      ShouldRenderByIds(ALL[i], DEFAULT_FILTER);
    }
  }

  /** `get_visible_chunks` with radius 10 and no cut: the 21 x 21 square around the camera's column, x-major. */
  method GetVisibleChunks(chX: int, chZ: int) returns (result: seq<Column>)
    ensures forall p :: p in result <==> Within(p, chX, chZ, VISIBLE_CHUNKS_DISTANCE)
    ensures |result| == 441
    ensures Ordered(result)
  {
    result := VisibleChunks(chX, chZ, VISIBLE_CHUNKS_DISTANCE, CHUNKS_CUT_DISTANCE);
    forall p
      ensures p in result <==> Within(p, chX, chZ, VISIBLE_CHUNKS_DISTANCE)
    {
      VisibleMembership(chX, chZ, VISIBLE_CHUNKS_DISTANCE, CHUNKS_CUT_DISTANCE, p);
    }
    VisibleShape(chX, chZ, VISIBLE_CHUNKS_DISTANCE, CHUNKS_CUT_DISTANCE);
  }

  /** The (x, z) columns of the spawned chunks, as the spawner's `any` compares them. */
  function Columns(query: seq<RenderCoords.ChunkCoordinates>): (cols: seq<Column>)
    ensures |cols| == |query|
    ensures forall i :: 0 <= i < |query| ==> cols[i] == (query[i].x, query[i].z)
  {
    seq(|query|, i requires 0 <= i < |query| => (query[i].x, query[i].z))
  }

  /**
   * `chunk_spawner`: each camera, in order, spawns the first visible
   * column that no chunk occupies; the pass stops at a camera with nothing
   * missing. The chunk itself comes from `Generator.GetChunk` and is handed
   * to `SpawnChunk`.
   */
  method ChunkSpawnerPass(cameras: seq<Column>, query: seq<RenderCoords.ChunkCoordinates>) returns (spawned: seq<Column>)
    ensures spawned == SpawnPlan(cameras, Columns(query), VISIBLE_CHUNKS_DISTANCE, CHUNKS_CUT_DISTANCE)
    ensures |spawned| <= |cameras|
    ensures forall k :: 0 <= k < |spawned| ==>
      Within(spawned[k], cameras[k].0, cameras[k].1, VISIBLE_CHUNKS_DISTANCE) && spawned[k] !in Columns(query)
  {
    spawned := ChunkSpawner(cameras, Columns(query), VISIBLE_CHUNKS_DISTANCE, CHUNKS_CUT_DISTANCE);
    SpawnPlanCameras(cameras, Columns(query), VISIBLE_CHUNKS_DISTANCE, CHUNKS_CUT_DISTANCE);
    forall k | 0 <= k < |spawned|
      ensures Within(spawned[k], cameras[k].0, cameras[k].1, VISIBLE_CHUNKS_DISTANCE) && spawned[k] !in Columns(query)
    {
      SpawnPlanSpawnsMissing(cameras, Columns(query), VISIBLE_CHUNKS_DISTANCE, CHUNKS_CUT_DISTANCE, k);
      VisibleMembership(cameras[k].0, cameras[k].1, VISIBLE_CHUNKS_DISTANCE, CHUNKS_CUT_DISTANCE, spawned[k]);
    }
  }

  /** The despawn test of `chunk_despawner` against the rounded camera column (px, pz). */
  predicate ShouldDespawn(coords: RenderCoords.ChunkCoordinates, px: int, pz: int) {
    RenderCoords.Distance(coords, px, pz) > VISIBLE_CHUNKS_DISTANCE * 3 ||
    RenderCoords.Distance(coords, px, pz) < CHUNKS_CUT_DISTANCE
  }

  /**
   * With no cut the second test never fires: a chunk goes exactly when it
   * is more than 30 columns away in Manhattan distance. So a chunk that is
   * visible from the same column is never despawned.
   */
  lemma DespawnRule(coords: RenderCoords.ChunkCoordinates, px: int, pz: int)
    ensures ShouldDespawn(coords, px, pz) <==> RenderCoords.Distance(coords, px, pz) > 30
    ensures (coords.x, coords.z) in VisibleSpec(px, pz, VISIBLE_CHUNKS_DISTANCE, CHUNKS_CUT_DISTANCE) ==> !ShouldDespawn(coords, px, pz)
  {
    if (coords.x, coords.z) in VisibleSpec(px, pz, VISIBLE_CHUNKS_DISTANCE, CHUNKS_CUT_DISTANCE) {
      VisibleManhattan(px, pz, VISIBLE_CHUNKS_DISTANCE, CHUNKS_CUT_DISTANCE, (coords.x, coords.z));
    }
  }

  /** `chunk_despawner`: the chunks despawned around the fold of the camera columns (see `LastCamera`). */
  method ChunkDespawner(cameras: seq<Column>, query: seq<RenderCoords.ChunkCoordinates>)
    returns (despawned: seq<RenderCoords.ChunkCoordinates>)
    ensures forall c :: c in despawned <==> c in query && ShouldDespawn(c, FoldLatest((0, 0), cameras).0, FoldLatest((0, 0), cameras).1)
    ensures |despawned| <= |query|
  {
    var (px, pz) := FoldLatest((0, 0), cameras);
    despawned := [];
    var i := 0;
    while i < |query|
      invariant i <= |query| && |despawned| <= i
      invariant forall c :: c in despawned <==> c in query[..i] && ShouldDespawn(c, px, pz)
    {
      assert query[..i + 1] == query[..i] + [query[i]];
      if ShouldDespawn(query[i], px, pz) {
        despawned := despawned + [query[i]];
      }
      i := i + 1;
    }
    assert query[..i] == query;
  }

  /** One cuboid of `spawn_chunk`: its cell in the chunk, with y shifted down by 127, and the block that colours it. */
  datatype Cuboid = Cuboid(x: int, y: int, z: int, block: BlockType)

  /** The cell at (x, y, z) of a store indexed `[y][z][x]`; air outside the chunk's bounds. */
  function CellAt(cubes: seq<seq<seq<GenChunk.Cube>>>, x: int, y: int, z: int): GenChunk.Cube {
    if 0 <= x < GenChunk.CHUNK_RESOLUTION && 0 <= y < GenChunk.HEIGHT && 0 <= z < GenChunk.CHUNK_RESOLUTION &&
       y < |cubes| && z < |cubes[y]| && x < |cubes[y][z]|
    then cubes[y][z][x]
    else None
  }

  /** The filter as a test on blocks. */
  function Keep(filter: set<BlockFilter>): BlockType -> bool {
    b => ShouldRenderBlock(b, filter)
  }

  /** The cuboid of the cell (x, y, z): none for air or a block `keep` rejects. */
  function CellCuboid(cubes: seq<seq<seq<GenChunk.Cube>>>, keep: BlockType -> bool, x: nat, y: nat, z: nat): seq<Cuboid> {
    match CellAt(cubes, x, y, z)
    case None => []
    case Some(b) => if keep(b) then [Cuboid(x, y - 127, z, b)] else []
  }

  /**
   * The cuboids of `spawn_chunk`'s scan (x outermost, then y, then z) up to,
   * not including, the cursor (x, y, z). The cursor (x, y, CHUNK_RESOLUTION)
   * is the end of line (x, y), and (x, HEIGHT, 0) the end of slice x.
   */
  function ScanCuboids(cubes: seq<seq<seq<GenChunk.Cube>>>, keep: BlockType -> bool, x: nat, y: nat, z: nat): seq<Cuboid>
    decreases x, y, z
  {
    if z > 0 then ScanCuboids(cubes, keep, x, y, z - 1) + CellCuboid(cubes, keep, x, y, z - 1)
    else if y > 0 then ScanCuboids(cubes, keep, x, y - 1, GenChunk.CHUNK_RESOLUTION)
    else if x > 0 then ScanCuboids(cubes, keep, x - 1, GenChunk.HEIGHT, 0)
    else []
  }

  /** The cell (x, y, z) comes before the cursor (cx, cy, cz) in scan order. */
  predicate ScannedBefore(x: int, y: int, z: int, cx: int, cy: int, cz: int) {
    x < cx || (x == cx && (y < cy || (y == cy && z < cz)))
  }

  /** The cuboid stands on a cell of the store that holds its block, and `keep` accepts that block. */
  predicate Emitted(cubes: seq<seq<seq<GenChunk.Cube>>>, keep: BlockType -> bool, c: Cuboid) {
    0 <= c.x < GenChunk.CHUNK_RESOLUTION && 0 <= c.y + 127 < GenChunk.HEIGHT && 0 <= c.z < GenChunk.CHUNK_RESOLUTION &&
    CellAt(cubes, c.x, c.y + 127, c.z) == Some(c.block) && keep(c.block)
  }

  lemma CellMembership(cubes: seq<seq<seq<GenChunk.Cube>>>, keep: BlockType -> bool, x: nat, y: nat, z: nat, c: Cuboid)
    ensures c in CellCuboid(cubes, keep, x, y, z) <==> c.x == x && c.y + 127 == y && c.z == z && Emitted(cubes, keep, c)
  {
  }

  /** The scan up to a cursor emits exactly the cuboids of the earlier cells that hold a block `keep` accepts. */
  lemma {:induction false} ScanMembership(cubes: seq<seq<seq<GenChunk.Cube>>>, keep: BlockType -> bool, x: nat, y: nat, z: nat, c: Cuboid)
    requires z <= GenChunk.CHUNK_RESOLUTION && y <= GenChunk.HEIGHT
    ensures c in ScanCuboids(cubes, keep, x, y, z) <==> ScannedBefore(c.x, c.y + 127, c.z, x, y, z) && Emitted(cubes, keep, c)
    decreases x, y, z
  {
    if z > 0 {
      ScanMembership(cubes, keep, x, y, z - 1, c);
      CellMembership(cubes, keep, x, y, z - 1, c);
    } else if y > 0 {
      ScanMembership(cubes, keep, x, y - 1, GenChunk.CHUNK_RESOLUTION, c);
    } else if x > 0 {
      ScanMembership(cubes, keep, x - 1, GenChunk.HEIGHT, 0, c);
    }
  }

  /** Each cuboid's cell comes strictly before the next one's in scan order. */
  predicate InScanOrder(cuboids: seq<Cuboid>) {
    forall i, j :: 0 <= i < j < |cuboids| ==>
      ScannedBefore(cuboids[i].x, cuboids[i].y + 127, cuboids[i].z, cuboids[j].x, cuboids[j].y + 127, cuboids[j].z)
  }

  /** The scan emits its cuboids in scan order, so no cell is emitted twice. */
  lemma {:induction false} ScanOrdered(cubes: seq<seq<seq<GenChunk.Cube>>>, keep: BlockType -> bool, x: nat, y: nat, z: nat)
    requires z <= GenChunk.CHUNK_RESOLUTION && y <= GenChunk.HEIGHT
    ensures InScanOrder(ScanCuboids(cubes, keep, x, y, z))
    decreases x, y, z
  {
    if z > 0 {
      ScanOrdered(cubes, keep, x, y, z - 1);
      var prefix, s := ScanCuboids(cubes, keep, x, y, z - 1), ScanCuboids(cubes, keep, x, y, z);
      forall i, j | 0 <= i < j < |s|
        ensures ScannedBefore(s[i].x, s[i].y + 127, s[i].z, s[j].x, s[j].y + 127, s[j].z)
      {
        if j >= |prefix| {
          assert s[i] == prefix[i];
          ScanMembership(cubes, keep, x, y, z - 1, prefix[i]);
          CellMembership(cubes, keep, x, y, z - 1, s[j]);
        }
      }
    } else if y > 0 {
      ScanOrdered(cubes, keep, x, y - 1, GenChunk.CHUNK_RESOLUTION);
    } else if x > 0 {
      ScanOrdered(cubes, keep, x - 1, GenChunk.HEIGHT, 0);
    }
  }

  /**
   * `spawn_chunk` emits one cuboid for every cell of the store that holds a
   * block the filter lets through, at that cell with y shifted by 127, and no
   * other cuboid; they come in scan order, each cell at most once.
   */
  lemma SpawnedCuboids(cubes: seq<seq<seq<GenChunk.Cube>>>, filter: set<BlockFilter>, c: Cuboid)
    requires GenChunk.Shaped(cubes)
    ensures c in ScanCuboids(cubes, Keep(filter), GenChunk.CHUNK_RESOLUTION, 0, 0) <==>
      0 <= c.x < GenChunk.CHUNK_RESOLUTION && 0 <= c.y + 127 < GenChunk.HEIGHT && 0 <= c.z < GenChunk.CHUNK_RESOLUTION &&
      cubes[c.y + 127][c.z][c.x] == Some(c.block) && ShouldRenderBlock(c.block, filter)
    ensures InScanOrder(ScanCuboids(cubes, Keep(filter), GenChunk.CHUNK_RESOLUTION, 0, 0))
  {
    ScanMembership(cubes, Keep(filter), GenChunk.CHUNK_RESOLUTION, 0, 0, c);
    ScanOrdered(cubes, Keep(filter), GenChunk.CHUNK_RESOLUTION, 0, 0);
  }

  /**
   * `spawn_chunk`: scans x, then y from 0 to 255, then z, and emits a
   * cuboid for each block the filter lets through, at height y - 127, in
   * the chunk's `ChunkCoordinates::new(chunk.x, chunk.y)`.
   */
  method SpawnChunk(chunk: GenChunk.Chunk, filter: set<BlockFilter>)
    returns (coords: RenderCoords.ChunkCoordinates, cuboids: seq<Cuboid>)
    requires chunk.Valid()
    ensures coords == RenderCoords.ChunkCoordinates(chunk.x, chunk.y)
    ensures cuboids == ScanCuboids(chunk.cubes, Keep(filter), GenChunk.CHUNK_RESOLUTION, 0, 0)
  {
    coords := RenderCoords.New(chunk.x, chunk.y);
    cuboids := [];
    var x := 0;
    while x < GenChunk.CHUNK_RESOLUTION
      invariant x <= GenChunk.CHUNK_RESOLUTION
      invariant cuboids == ScanCuboids(chunk.cubes, Keep(filter), x, 0, 0)
    {
      cuboids := ScanSlice(chunk, filter, x, cuboids);
      x := x + 1;
    }
  }

  /** The y and z loops of `spawn_chunk` for one x. */
  method ScanSlice(chunk: GenChunk.Chunk, filter: set<BlockFilter>, x: nat, before: seq<Cuboid>) returns (cuboids: seq<Cuboid>)
    requires chunk.Valid() && x < GenChunk.CHUNK_RESOLUTION
    requires before == ScanCuboids(chunk.cubes, Keep(filter), x, 0, 0)
    ensures cuboids == ScanCuboids(chunk.cubes, Keep(filter), x + 1, 0, 0)
  {
    cuboids := before;
    var y := 0;
    while y < GenChunk.HEIGHT
      invariant y <= GenChunk.HEIGHT
      invariant cuboids == ScanCuboids(chunk.cubes, Keep(filter), x, y, 0)
    {
      cuboids := ScanLine(chunk, filter, x, y, cuboids);
      y := y + 1;
    }
  }

  /** The z loop of `spawn_chunk` for one x and y. */
  method ScanLine(chunk: GenChunk.Chunk, filter: set<BlockFilter>, x: nat, y: nat, before: seq<Cuboid>) returns (cuboids: seq<Cuboid>)
    requires chunk.Valid() && x < GenChunk.CHUNK_RESOLUTION && y < GenChunk.HEIGHT
    requires before == ScanCuboids(chunk.cubes, Keep(filter), x, y, 0)
    ensures cuboids == ScanCuboids(chunk.cubes, Keep(filter), x, y + 1, 0)
  {
    cuboids := before;
    var z := 0;
    while z < GenChunk.CHUNK_RESOLUTION
      invariant z <= GenChunk.CHUNK_RESOLUTION
      invariant cuboids == ScanCuboids(chunk.cubes, Keep(filter), x, y, z)
    {
      var cube := chunk.Get(x, y, z);
      assert cube == CellAt(chunk.cubes, x, y, z);
      assert cube.Some? ==> Keep(filter)(cube.value) == ShouldRenderBlock(cube.value, filter);
      if cube.Some? && ShouldRenderBlock(cube.value, filter) {
        cuboids := cuboids + [Cuboid(x, y - 127, z, cube.value)];
      }
      z := z + 1;
    }
  }
}
