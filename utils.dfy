/**
 * Block, chunk and world coordinates of the 32x32x32 voxel chunks
 * (src/utils/mod.rs). A world block position splits into the chunk that
 * holds it and the block's offset inside that chunk; the offset packs into
 * a 15-bit linear index.
 */
module Utils {

  import opened RustInt

  const CHUNK_SIZE: int := 32

  /** Number of blocks in one chunk, and the bound of every linear index. */
  const CHUNK_VOLUME: int := CHUNK_SIZE * CHUNK_SIZE * CHUNK_SIZE

  /** Block coordinates in world space. */
  datatype WorldBlockPos = WorldBlockPos(x: int, y: int, z: int)

  /** Chunk coordinates in world space. */
  datatype ChunkPos = ChunkPos(x: int, y: int, z: int)

  /** Block coordinates in chunk space. */
  datatype BlockPos = BlockPos(x: int, y: int, z: int)

  /** `WorldBlockPos::from(chunk, block)`: the chunk's origin plus the block offset. */
  function WorldBlockPosFrom(chunk: ChunkPos, block: BlockPos): WorldBlockPos {
    WorldBlockPos(chunk.x * CHUNK_SIZE + block.x,
                  chunk.y * CHUNK_SIZE + block.y,
                  chunk.z * CHUNK_SIZE + block.z)
  }

  /** `ChunkPos::planar_distance`: Manhattan distance over x and z. */
  function PlanarDistance(a: ChunkPos, b: ChunkPos): int {
    Abs(a.x - b.x) + Abs(a.z - b.z)
  }

  /** `BlockPos::is_valid`: every axis lies inside the chunk. */
  predicate IsValid(p: BlockPos) {
    p.x >= 0 && p.y >= 0 && p.z >= 0 &&
    p.x < CHUNK_SIZE && p.y < CHUNK_SIZE && p.z < CHUNK_SIZE
  }

  /**
   * `BlockPos::from_index`: x is bits 0-4 (`i & 0b11111`), z is bits 5-9
   * (`(i >> 5) & 0b11111`) and y is bits 10-14 (`(i >> 10) & 0b11111`);
   * on a non-negative index the mask of the shift is the remainder of the quotient.
   */
  function FromIndex(i: nat): (p: BlockPos)
    ensures IsValid(p)
  {
    BlockPos(i % 32, (i / 1024) % 32, (i / 32) % 32)
  }

  /**
   * `BlockPos::to_index`: `(y << 10) | (z << 5) | x`. For a valid position
   * the three fields do not overlap, so the bitwise or is a sum.
   */
  function ToIndex(p: BlockPos): (i: nat)
    requires IsValid(p)
    ensures i < CHUNK_VOLUME
  {
    p.y * 1024 + p.z * 32 + p.x
  }

  /** One axis of `ChunkPos::from`: floor division written for Rust's truncating `/`. */
  function ChunkAxis(v: int): (c: int)
    ensures c * CHUNK_SIZE <= v < c * CHUNK_SIZE + CHUNK_SIZE
  {
    if v >= 0 then Quot(v, CHUNK_SIZE) else Quot(v + 1, CHUNK_SIZE) - 1
  }

  /** One axis of `BlockPos::from`: a remainder in [0, 32) written for Rust's truncating `%`. */
  function LocalAxis(v: int): (l: int)
    ensures 0 <= l < CHUNK_SIZE
    ensures l == v - ChunkAxis(v) * CHUNK_SIZE
  {
    if v >= 0 then Rem(v, CHUNK_SIZE) else (Rem(v + 1, CHUNK_SIZE) - 1) + CHUNK_SIZE
  }

  /** `From<WorldBlockPos> for ChunkPos`: floor division by 32 on every axis. */
  function ChunkPosFrom(w: WorldBlockPos): (c: ChunkPos)
    ensures c.x == w.x / CHUNK_SIZE && c.y == w.y / CHUNK_SIZE && c.z == w.z / CHUNK_SIZE
  {
    ChunkPos(ChunkAxis(w.x), ChunkAxis(w.y), ChunkAxis(w.z))
  }

  /** `From<WorldBlockPos> for BlockPos`: the offset inside the chunk, always valid. */
  function BlockPosFrom(w: WorldBlockPos): (b: BlockPos)
    ensures IsValid(b)
    ensures b.x == w.x % CHUNK_SIZE && b.y == w.y % CHUNK_SIZE && b.z == w.z % CHUNK_SIZE
  {
    BlockPos(LocalAxis(w.x), LocalAxis(w.y), LocalAxis(w.z))
  }

  /** Splitting a world position into chunk and offset and joining them again is the identity. */
  lemma WorldRoundTrip(w: WorldBlockPos)
    ensures WorldBlockPosFrom(ChunkPosFrom(w), BlockPosFrom(w)) == w
  {
  }

  /** Joining a chunk and a valid offset and splitting again gives back both parts. */
  lemma SplitRoundTrip(c: ChunkPos, b: BlockPos)
    requires IsValid(b)
    ensures ChunkPosFrom(WorldBlockPosFrom(c, b)) == c
    ensures BlockPosFrom(WorldBlockPosFrom(c, b)) == b
  {
    AxisSplit(c.x, b.x);
    AxisSplit(c.y, b.y);
    AxisSplit(c.z, b.z);
  }

  lemma AxisSplit(c: int, l: int)
    requires 0 <= l < CHUNK_SIZE
    ensures ChunkAxis(c * CHUNK_SIZE + l) == c && LocalAxis(c * CHUNK_SIZE + l) == l
  {
  }

  /** Negative coordinates: -1 and -32 lie in chunk -1, -33 in chunk -2. */
  lemma NegativeAxisExamples()
    ensures ChunkAxis(-1) == -1 && LocalAxis(-1) == 31
    ensures ChunkAxis(-32) == -1 && LocalAxis(-32) == 0
    ensures ChunkAxis(-33) == -2 && LocalAxis(-33) == 31
  {
  }

  /** Packing a valid position and unpacking it gives the position back. */
  lemma FromToIndex(p: BlockPos)
    requires IsValid(p)
    ensures FromIndex(ToIndex(p)) == p
  {
    var i := ToIndex(p);
    assert i == (p.y * 32 + p.z) * 32 + p.x;
    assert i / 32 == p.y * 32 + p.z;
    assert i / 1024 == p.y;
  }

  /** Every index below 32768 is the packing of the position it unpacks to. */
  lemma ToFromIndex(i: nat)
    requires i < CHUNK_VOLUME
    ensures ToIndex(FromIndex(i)) == i
  {
    var q := i / 32;
    assert i == q * 32 + i % 32;
    assert q == (q / 32) * 32 + q % 32;
    assert q / 32 == i / 1024;
  }

  /** A position sits at index i exactly when it is the position i unpacks to. */
  lemma IndexMatch(i: nat, q: BlockPos)
    requires i < CHUNK_VOLUME
    ensures IsValid(q) && ToIndex(q) == i <==> q == FromIndex(i)
  {
    ToFromIndex(i);
    if IsValid(q) {
      FromToIndex(q);
    }
  }

  /** Distinct indices unpack to distinct positions, and distinct valid positions pack to distinct indices. */
  lemma IndexBijection(i: nat, j: nat, p: BlockPos, q: BlockPos)
    requires i < CHUNK_VOLUME && j < CHUNK_VOLUME && i != j
    requires IsValid(p) && IsValid(q) && p != q
    ensures FromIndex(i) != FromIndex(j)
    ensures ToIndex(p) != ToIndex(q)
  {
    ToFromIndex(i);
    ToFromIndex(j);
    FromToIndex(p);
    FromToIndex(q);
  }

  /** Unpacking is injective on [0, 32768), and packing inverts it on every valid position. */
  lemma IndexBijectionAll()
    ensures forall i, j :: 0 <= i < j < CHUNK_VOLUME ==> FromIndex(i) != FromIndex(j)
    ensures forall p :: IsValid(p) ==> FromIndex(ToIndex(p)) == p
  {
    forall i, j | 0 <= i < j < CHUNK_VOLUME
      ensures FromIndex(i) != FromIndex(j)
    {
      ToFromIndex(i);
      ToFromIndex(j);
    }
    forall p | IsValid(p)
      ensures FromIndex(ToIndex(p)) == p
    {
      FromToIndex(p);
    }
  }

  /** Planar distance is symmetric, ignores y and is zero exactly on the same column. */
  lemma PlanarDistanceProperties(a: ChunkPos, b: ChunkPos, y: int)
    ensures PlanarDistance(a, b) == PlanarDistance(b, a)
    ensures PlanarDistance(a, b) == PlanarDistance(a.(y := y), b)
    ensures PlanarDistance(a, b) >= 0
    ensures PlanarDistance(a, b) == 0 <==> a.x == b.x && a.z == b.z
  {
  }
}
