/**
 * The earlier block catalog (src/map/blocks.rs) that the terrain generator
 * and the cuboid renderer use: the same ten constants, equality by id.
 */
module Blocks {

  import BlockTypes

  type Color = BlockTypes.Color

  datatype BlockType = BlockType(id: nat, name: string, color: Color)

  /** `PartialEq for BlockType`: equal ids. */
  predicate Eq(a: BlockType, b: BlockType) {
    a.id == b.id
  }

  const ICE: BlockType := BlockType(3, "Ice", BlockTypes.Aquamarine)
  const STONE: BlockType := BlockType(1, "Stone", BlockTypes.DarkGray)
  const DIRT: BlockType := BlockType(2, "Dirt", BlockTypes.Green)
  const FOREST_DIRT: BlockType := BlockType(4, "ForestDirt", BlockTypes.DarkGreen)
  const WATER: BlockType := BlockType(5, "Water", BlockTypes.Navy)
  const SAND: BlockType := BlockType(6, "Sand", BlockTypes.Gold)
  const IRON: BlockType := BlockType(7, "Iron", BlockTypes.Gray)
  const COPPER: BlockType := BlockType(8, "Copper", BlockTypes.Orange)
  const COAL: BlockType := BlockType(9, "Coal", BlockTypes.Black)
  const UNBREAKABLE: BlockType := BlockType(0, "Unbreakable", BlockTypes.Black)

  /** The ten constants, in declaration order. */
  const ALL: seq<BlockType> := [ICE, STONE, DIRT, FOREST_DIRT, WATER, SAND, IRON, COPPER, COAL, UNBREAKABLE]

  /** Id equality is reflexive, symmetric and transitive, as `Eq for BlockType` promises. */
  lemma EqIsEquivalence(a: BlockType, b: BlockType, c: BlockType)
    ensures Eq(a, a)
    ensures Eq(a, b) ==> Eq(b, a)
    ensures Eq(a, b) && Eq(b, c) ==> Eq(a, c)
    ensures Eq(a, b) <==> a.id == b.id
  {
  }

  /** The ten constants carry the pairwise distinct ids 0..9. */
  lemma CatalogIds()
    ensures |ALL| == 10
    ensures forall i, j :: 0 <= i < j < |ALL| ==> !Eq(ALL[i], ALL[j])
    ensures forall i :: 0 <= i < |ALL| ==> ALL[i].id < 10
  {
  }

  /** Each constant has the id, name and colour of its namesake in the voxel store's catalog. */
  lemma SameCatalogAsBlockTypes()
    ensures |ALL| == |BlockTypes.ALL|
    ensures forall i :: 0 <= i < |ALL| ==>
      ALL[i].id == BlockTypes.ALL[i].id && ALL[i].name == BlockTypes.ALL[i].name && ALL[i].color == BlockTypes.ALL[i].color
  {
  }
}
