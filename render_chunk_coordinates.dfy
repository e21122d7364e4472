/** Two-axis chunk coordinates used by the cuboid renderer (src/map/render/chunk_coordinates.rs). */
module RenderCoords {

  import opened RustInt

  datatype ChunkCoordinates = ChunkCoordinates(x: int, z: int)

  /** `ChunkCoordinates::new`. */
  function New(x: int, z: int): ChunkCoordinates {
    ChunkCoordinates(x, z)
  }

  /** `distance`: Manhattan distance to the column (x, z). */
  function Distance(c: ChunkCoordinates, x: int, z: int): (d: int)
    ensures d >= 0
    ensures d == 0 <==> c.x == x && c.z == z
    ensures d >= Abs(c.x - x) && d >= Abs(c.z - z)
  {
    Abs(c.x - x) + Abs(c.z - z)
  }

  /** The distance between chunks obeys the triangle inequality. */
  lemma DistanceTriangle(a: ChunkCoordinates, b: ChunkCoordinates, c: ChunkCoordinates)
    ensures Distance(a, c.x, c.z) <= Distance(a, b.x, b.z) + Distance(b, c.x, c.z)
  {
  }

  /** The distance between two chunks does not depend on which one is asked. */
  lemma DistanceSymmetric(a: ChunkCoordinates, b: ChunkCoordinates)
    ensures Distance(a, b.x, b.z) == Distance(b, a.x, a.z)
  {
  }
}
