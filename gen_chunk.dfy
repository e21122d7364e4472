/**
 * The generator's voxel store (src/map/generator/chunk.rs): 256 layers of
 * CHUNK_RESOLUTION x CHUNK_RESOLUTION optional blocks, indexed
 * `[y][z][x]`, and a counter of the occupied cells that `set` keeps
 * up to date by the occupancy transition of the overwritten cell.
 */
module GenChunk {

  import opened Wrappers
  import opened Counting
  import opened Blocks
  import Generator

  const CHUNK_RESOLUTION: nat := Generator.CHUNK_RESOLUTION

  /** The number of layers. */
  const HEIGHT: nat := 256

  type Cube = Option<BlockType>

  function RowCount(row: seq<Cube>): nat {
    Occupied(row)
  }

  function LayerCount(layer: seq<seq<Cube>>): nat {
    Sum(layer, RowCount)
  }

  /** The number of occupied cells of the whole store. */
  function CubeCount(cubes: seq<seq<seq<Cube>>>): nat {
    Sum(cubes, LayerCount)
  }

  /** 256 layers of CHUNK_RESOLUTION rows of CHUNK_RESOLUTION cells. */
  ghost predicate Shaped(cubes: seq<seq<seq<Cube>>>) {
    |cubes| == HEIGHT &&
    forall y :: 0 <= y < HEIGHT ==>
      |cubes[y]| == CHUNK_RESOLUTION && forall z :: 0 <= z < CHUNK_RESOLUTION ==> |cubes[y][z]| == CHUNK_RESOLUTION
  }

  /** `cubes` with the cell at (x, y, z) replaced by v. */
  function WithCell(cubes: seq<seq<seq<Cube>>>, x: nat, y: nat, z: nat, v: Cube): seq<seq<seq<Cube>>>
    requires y < |cubes| && z < |cubes[y]| && x < |cubes[y][z]|
  {
    cubes[y := cubes[y][z := cubes[y][z][x := v]]]
  }

  /**
   * Replacing one cell keeps the shape, changes the occupied count by the
   * difference of the two cells' occupancy and changes no other cell.
   */
  lemma WithCellProperties(cubes: seq<seq<seq<Cube>>>, x: nat, y: nat, z: nat, v: Cube)
    requires Shaped(cubes) && x < CHUNK_RESOLUTION && y < HEIGHT && z < CHUNK_RESOLUTION
    ensures Shaped(WithCell(cubes, x, y, z, v))
    ensures CubeCount(WithCell(cubes, x, y, z, v)) + Occ(cubes[y][z][x]) == CubeCount(cubes) + Occ(v)
    ensures WithCell(cubes, x, y, z, v)[y][z][x] == v
    ensures forall a, b, c :: 0 <= a < CHUNK_RESOLUTION && 0 <= b < HEIGHT && 0 <= c < CHUNK_RESOLUTION && (a, b, c) != (x, y, z) ==>
              WithCell(cubes, x, y, z, v)[b][c][a] == cubes[b][c][a]
  {
    var row := cubes[y][z];
    var layer := cubes[y];
    var newRow := row[x := v];
    var newLayer := layer[z := newRow];
    SumUpdate(row, x, v, Occ);
    SumUpdate(layer, z, newRow, RowCount);
    SumUpdate(cubes, y, newLayer, LayerCount);
  }

  class Chunk {
    var x: int
    var y: int
    var cubes: seq<seq<seq<Cube>>>
    var amountOfCubes: nat

    /** The store has its shape and the counter is the number of occupied cells. */
    ghost predicate Valid()
      reads this
    {
      Shaped(cubes) && amountOfCubes == CubeCount(cubes)
    }

    /** `Chunk::new`: every cell is air and the counter is 0. */
    constructor (x: int, y: int)
      ensures Valid()
      ensures this.x == x && this.y == y && amountOfCubes == 0
      ensures forall a, b, c :: 0 <= a < CHUNK_RESOLUTION && 0 <= b < HEIGHT && 0 <= c < CHUNK_RESOLUTION ==>
                Get(a, b, c) == None
    {
      this.x := x;
      this.y := y;
      var row: seq<Cube> := seq(CHUNK_RESOLUTION, _ => None);
      var layer: seq<seq<Cube>> := seq(CHUNK_RESOLUTION, _ => row);
      cubes := seq(HEIGHT, _ => layer);
      amountOfCubes := 0;
      new;
      SumZero(row, Occ);
      SumZero(layer, RowCount);
      SumZero(cubes, LayerCount);
    }

    /** `Chunk::get`: the cell at (x, y, z). */
    function Get(x: nat, y: nat, z: nat): Cube
      reads this
      requires Valid() && x < CHUNK_RESOLUTION && y < HEIGHT && z < CHUNK_RESOLUTION
    {
      cubes[y][z][x]
    }

    /**
     * `Chunk::set`. Air to block adds one to the counter, block to air
     * subtracts one, anything else leaves it; the counter stays accurate,
     * the cell reads back as the new value and no other cell changes.
     */
    method Set(x: nat, y: nat, z: nat, value: Cube)
      requires Valid() && x < CHUNK_RESOLUTION && y < HEIGHT && z < CHUNK_RESOLUTION
      modifies this
      ensures Valid()
      ensures cubes == WithCell(old(cubes), x, y, z, value)
      ensures old(cubes[y][z][x]).None? && value.Some? ==> amountOfCubes == old(amountOfCubes) + 1
      ensures old(cubes[y][z][x]).Some? && value.None? ==> amountOfCubes == old(amountOfCubes) - 1
      ensures old(cubes[y][z][x]).Some? == value.Some? ==> amountOfCubes == old(amountOfCubes)
      ensures this.x == old(this.x) && this.y == old(this.y)
      ensures Get(x, y, z) == value
      ensures forall a, b, c :: 0 <= a < CHUNK_RESOLUTION && 0 <= b < HEIGHT && 0 <= c < CHUNK_RESOLUTION && (a, b, c) != (x, y, z) ==>
                Get(a, b, c) == old(Get(a, b, c))
    {
      WithCellProperties(cubes, x, y, z, value);
      match (cubes[y][z][x], value) {
        case (Some(_), Some(_)) =>
        case (Some(_), None) => amountOfCubes := amountOfCubes - 1;
        case (None, Some(_)) => amountOfCubes := amountOfCubes + 1;
        case (None, None) =>
      }
      cubes := WithCell(cubes, x, y, z, value);
    }

    /** `Chunk::get_amount_of_cubes`: the number of occupied cells. */
    method GetAmountOfCubes() returns (n: nat)
      requires Valid()
      ensures n == CubeCount(cubes)
    {
      n := amountOfCubes;
    }
  }
}
