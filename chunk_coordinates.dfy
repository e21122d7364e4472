/**
 * Three-axis chunk coordinates (src/map/chunk/chunk_coordinates.rs). The
 * chunk extents `Chunk::WIDTH`, `Chunk::HEIGHT` and `Chunk::LENGTH` are not
 * defined in the code that uses them, so they are a parameter here.
 */
module ChunkCoords {

  import opened RustInt

  datatype ChunkCoordinates = ChunkCoordinates(x: int, y: int, z: int)

  /** The chunk extents along x, y and z. */
  datatype Dims = Dims(width: int, height: int, length: int) {
    predicate Positive() {
      width > 0 && height > 0 && length > 0
    }
  }

  /** `ChunkCoordinates::new`. */
  function New(x: int, y: int, z: int): ChunkCoordinates {
    ChunkCoordinates(x, y, z)
  }

  /** Coordinates built by `new` are equal exactly when all three arguments are. */
  lemma NewEquality(x: int, y: int, z: int, x': int, y': int, z': int)
    ensures New(x, y, z) == New(x', y', z') <==> x == x' && y == y' && z == z'
  {
  }

  /** `distance`: Manhattan distance in the x/z plane to the column (x, z). */
  function Distance(c: ChunkCoordinates, x: int, z: int): int {
    Abs(c.x - x) + Abs(c.z - z)
  }

  /** Distance is non-negative, symmetric between two chunks, zero on the same column and blind to y. */
  lemma DistanceProperties(a: ChunkCoordinates, b: ChunkCoordinates, y: int)
    ensures Distance(a, b.x, b.z) >= 0
    ensures Distance(a, b.x, b.z) == Distance(b, a.x, a.z)
    ensures Distance(a, b.x, b.z) == 0 <==> a.x == b.x && a.z == b.z
    ensures Distance(a.(y := y), b.x, b.z) == Distance(a, b.x, b.z)
  {
  }

  /**
   * `from_global_block_pos_axis`: the chunk index and the offset inside the
   * chunk along one axis, with the negative branch written for Rust's
   * truncating `/` and `%`.
   */
  function FromGlobalBlockPosAxis(x: int, size: int): (r: (int, int))
    requires size > 0
    ensures 0 <= r.1 < size
    ensures r.0 * size + r.1 == x
  {
    if x >= 0 then
      (Quot(x, size), Rem(x, size))
    else
      (Quot(x + 1, size) - 1, ((Rem(x + 1, size)) - 1) + size)
  }

  /** The block just below the origin lies in chunk -1 at the chunk's last offset. */
  lemma MinusOneAxis(size: int)
    requires size > 0
    ensures FromGlobalBlockPosAxis(-1, size) == (-1, size - 1)
  {
  }

  /** `from_global_block_pos`: the chunk holding a world block and the block's offset in it. */
  function FromGlobalBlockPos(d: Dims, x: int, y: int, z: int): (r: (ChunkCoordinates, int, int, int))
    requires d.Positive()
    ensures 0 <= r.1 < d.width && 0 <= r.2 < d.height && 0 <= r.3 < d.length
  {
    var (chX, bX) := FromGlobalBlockPosAxis(x, d.width);
    var (chY, bY) := FromGlobalBlockPosAxis(y, d.height);
    var (chZ, bZ) := FromGlobalBlockPosAxis(z, d.length);
    (New(chX, chY, chZ), bX, bY, bZ)
  }

  /** `get_global_block_pos`: the world block at offset (dx, dy, dz) of this chunk. */
  function GetGlobalBlockPos(c: ChunkCoordinates, d: Dims, dx: int, dy: int, dz: int): (int, int, int) {
    (c.x * d.width + dx, c.y * d.height + dy, c.z * d.length + dz)
  }

  /** Splitting a world block position and joining the parts again gives the position back. */
  lemma GlobalRoundTrip(d: Dims, x: int, y: int, z: int)
    requires d.Positive()
    ensures var r := FromGlobalBlockPos(d, x, y, z);
            GetGlobalBlockPos(r.0, d, r.1, r.2, r.3) == (x, y, z)
  {
  }
}
