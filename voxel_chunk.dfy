/**
 * The voxel store of one 32x32x32 chunk (src/map/chunk/mod.rs): a flat
 * buffer of optional blocks indexed by `BlockPos::to_index`, an occupancy
 * counter and a flag that asks for a new mesh.
 */
module VoxelChunk {

  import opened Wrappers
  import opened Utils
  import opened Counting
  import opened BlockTypes

  /** `Chunk::SIZE`: 32 * 32 * 32 cells. */
  const SIZE: nat := 32768

  /** A cell: `None` is air. The `Block` newtype around a block type reference is the block type itself. */
  type Voxel = Option<BlockType>

  datatype PositionNotInChunkError = PositionNotInChunkError

  /** The cell at a block position of a flat store; a position outside the chunk is an error. */
  function BlockAt(cells: seq<Voxel>, pos: BlockPos): (r: Result<Voxel, PositionNotInChunkError>)
    requires |cells| == SIZE
    ensures r.Err? <==> !IsValid(pos)
    ensures r.Ok? ==> r.value == cells[ToIndex(pos)]
  {
    if !IsValid(pos) then Err(PositionNotInChunkError) else Ok(cells[ToIndex(pos)])
  }

  /**
   * The cells of a flat store paired with their positions, in index order.
   * Every valid position occurs exactly once, at its packed index.
   */
  function WithPos(cells: seq<Voxel>): (r: seq<(BlockPos, Voxel)>)
    requires |cells| == SIZE
    ensures |r| == SIZE
    ensures forall i :: 0 <= i < SIZE ==> r[i] == (FromIndex(i), cells[i])
    ensures forall p :: IsValid(p) ==> r[ToIndex(p)] == (p, BlockAt(cells, p).value)
    ensures forall i, j :: 0 <= i < j < SIZE ==> r[i].0 != r[j].0
  {
    IndexBijectionAll();
    seq(SIZE, i requires 0 <= i < SIZE => (FromIndex(i), cells[i]))
  }

  class Chunk {
    const blocks: array<Voxel>
    var isUpdated: bool
    var amountOfBlocks: nat

    ghost predicate Valid()
      reads this
    {
      blocks.Length == SIZE
    }

    /** The class invariant the counter is meant to keep: it equals the number of occupied cells. */
    ghost predicate CountAccurate()
      reads this, blocks
    {
      Valid() && amountOfBlocks == Occupied(blocks[..])
    }

    /** `Chunk::new`: all air, not updated, counter 0. */
    constructor ()
      ensures Valid() && CountAccurate() && fresh(blocks)
      ensures forall i :: 0 <= i < blocks.Length ==> blocks[i] == None
      ensures !isUpdated && amountOfBlocks == 0
    {
      blocks := new Voxel[SIZE](_ => None);
      isUpdated := false;
      amountOfBlocks := 0;
      new;
      SumZero(blocks[..], Occ);
    }

    /**
     * `spawn_block_unchecked`: writes the block at the packed index and
     * always adds one to the counter. The counter stays accurate only when
     * the cell was air; spawning over a block leaves it one too high.
     */
    method SpawnBlockUnchecked(pos: BlockPos, value: BlockType)
      requires Valid() && IsValid(pos)
      modifies blocks, this`amountOfBlocks
      ensures blocks[..] == old(blocks[..])[ToIndex(pos) := Some(value)]
      ensures amountOfBlocks == old(amountOfBlocks) + 1
      ensures isUpdated == old(isUpdated)
      ensures old(CountAccurate()) && old(blocks[ToIndex(pos)]).None? ==> CountAccurate()
      ensures old(CountAccurate()) && old(blocks[ToIndex(pos)]).Some? ==> !CountAccurate()
    {
      var i := ToIndex(pos);
      SumUpdate(blocks[..], i, Some(value), Occ);
      blocks[i] := Some(value);
      amountOfBlocks := amountOfBlocks + 1;
    }

    /**
     * `get_amount_of_blocks`: the counter, in any state. It is the number of
     * occupied cells whenever the counter invariant holds; after a spawn
     * over an occupied cell it is not.
     */
    function GetAmountOfBlocks(): (n: nat)
      reads this, blocks
      requires Valid()
      ensures n == amountOfBlocks
      ensures CountAccurate() ==> n == Occupied(blocks[..])
      ensures !CountAccurate() ==> n != Occupied(blocks[..])
    {
      amountOfBlocks
    }

    /** `iter_with_pos`: every cell with its position, in index order. */
    function IterWithPos(): seq<(BlockPos, Voxel)>
      reads this, blocks
      requires Valid()
    {
      WithPos(blocks[..])
    }

    /** `get_block_at`: bounds-checked access. */
    function GetBlockAt(pos: BlockPos): Result<Voxel, PositionNotInChunkError>
      reads this, blocks
      requires Valid()
    {
      BlockAt(blocks[..], pos)
    }

    /** `get_unchecked`: access whose caller guarantees a valid position. */
    function GetUnchecked(pos: BlockPos): (v: Voxel)
      reads this, blocks
      requires Valid() && IsValid(pos)
      ensures GetBlockAt(pos) == Ok(v)
      ensures IterWithPos()[ToIndex(pos)] == (pos, v)
    {
      blocks[ToIndex(pos)]
    }
  }
}
