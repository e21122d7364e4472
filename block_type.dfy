/**
 * The block catalog of the voxel store (src/map/chunk/block_type.rs): ten
 * constants, equality by id only, and four classification groups.
 */
module BlockTypes {

  /** The named render colours the constants use. */
  datatype Color = Aquamarine | DarkGray | Green | DarkGreen | Navy | Gold | Gray | Orange | Black

  datatype BlockType = BlockType(id: nat, name: string, color: Color)

  /** `PartialEq for BlockType`: two block types are equal when their ids are. */
  predicate Eq(a: BlockType, b: BlockType) {
    a.id == b.id
  }

  const ICE: BlockType := BlockType(3, "Ice", Aquamarine)
  const STONE: BlockType := BlockType(1, "Stone", DarkGray)
  const DIRT: BlockType := BlockType(2, "Dirt", Green)
  const FOREST_DIRT: BlockType := BlockType(4, "ForestDirt", DarkGreen)
  const WATER: BlockType := BlockType(5, "Water", Navy)
  const SAND: BlockType := BlockType(6, "Sand", Gold)
  const IRON: BlockType := BlockType(7, "Iron", Gray)
  const COPPER: BlockType := BlockType(8, "Copper", Orange)
  const COAL: BlockType := BlockType(9, "Coal", Black)
  const UNBREAKABLE: BlockType := BlockType(0, "Unbreakable", Black)

  /** The ten constants, in declaration order. */
  const ALL: seq<BlockType> := [ICE, STONE, DIRT, FOREST_DIRT, WATER, SAND, IRON, COPPER, COAL, UNBREAKABLE]

  /** `BlockType::id`. */
  function Id(b: BlockType): nat {
    b.id
  }

  /** Equality ignores the name and the colour: it is decided by `id()` alone. */
  lemma EqIsIdEquality(a: BlockType, b: BlockType)
    ensures Eq(a, b) <==> Id(a) == Id(b)
    ensures Eq(a, b) ==> Eq(a.(name := b.name, color := b.color), b) && Eq(a, b.(name := a.name, color := a.color))
  {
  }

  /** The ids of the ten constants are exactly 0..9, pairwise distinct, so distinct constants are unequal. */
  lemma CatalogIds()
    ensures |ALL| == 10
    ensures forall i, j :: 0 <= i < j < |ALL| ==> !Eq(ALL[i], ALL[j])
    ensures (set i | 0 <= i < |ALL| :: ALL[i].id) == {0, 1, 2, 3, 4, 5, 6, 7, 8, 9}
  {
    assert ALL[9].id == 0 && ALL[1].id == 1 && ALL[2].id == 2 && ALL[0].id == 3 && ALL[3].id == 4;
    assert ALL[4].id == 5 && ALL[5].id == 6 && ALL[6].id == 7 && ALL[7].id == 8 && ALL[8].id == 9;
  }

  /** `slice::contains` under `PartialEq`, element by element from the front. */
  function Contains(members: seq<BlockType>, b: BlockType): bool {
    if members == [] then false else Eq(members[0], b) || Contains(members[1..], b)
  }

  /** Containment holds exactly when some element is equal to the block, that is, has its id. */
  lemma {:induction false} ContainsIff(members: seq<BlockType>, b: BlockType)
    ensures Contains(members, b) <==> exists i :: 0 <= i < |members| && Eq(members[i], b)
  {
    if members != [] {
      ContainsIff(members[1..], b);
      if Contains(members[1..], b) {
        var i :| 0 <= i < |members[1..]| && Eq(members[1..][i], b);
        assert members[i + 1] == members[1..][i];
      }
      forall i | 1 <= i < |members| && Eq(members[i], b)
        ensures Contains(members[1..], b)
      {
        assert members[1..][i - 1] == members[i];
      }
    }
  }

  const RESOURCES: seq<BlockType> := [IRON, COPPER, COAL]
  const CRUST: seq<BlockType> := [STONE, UNBREAKABLE]
  const TOPPING: seq<BlockType> := [ICE, DIRT, FOREST_DIRT, SAND]
  const FLUID: seq<BlockType> := [WATER]

  /** A classification group of block types. */
  datatype BlockKind = BlockKind(members: seq<BlockType>) {
    /** `BlockKind::contains`: membership under id equality (see `ContainsIff`). */
    function ContainsBlock(b: BlockType): bool {
      Contains(members, b)
    }
  }

  /** The ids each group holds. */
  lemma ResourceIds(b: BlockType)
    ensures Contains(RESOURCES, b) <==> b.id == 7 || b.id == 8 || b.id == 9
  {
    var tail1, tail2 := [COPPER, COAL], [COAL];
    assert RESOURCES[1..] == tail1 && tail1[1..] == tail2 && tail2[1..] == [];
    assert Contains(tail2, b) <==> b.id == 9;
    assert Contains(tail1, b) <==> b.id == 8 || b.id == 9;
  }

  lemma CrustIds(b: BlockType)
    ensures Contains(CRUST, b) <==> b.id == 1 || b.id == 0
  {
    var tail := [UNBREAKABLE];
    assert CRUST[1..] == tail && tail[1..] == [];
    assert Contains(tail, b) <==> b.id == 0;
  }

  lemma ToppingIds(b: BlockType)
    ensures Contains(TOPPING, b) <==> b.id == 3 || b.id == 2 || b.id == 4 || b.id == 6
  {
    var tail1, tail2, tail3 := [DIRT, FOREST_DIRT, SAND], [FOREST_DIRT, SAND], [SAND];
    assert TOPPING[1..] == tail1 && tail1[1..] == tail2 && tail2[1..] == tail3 && tail3[1..] == [];
    assert Contains(tail3, b) <==> b.id == 6;
    assert Contains(tail2, b) <==> b.id == 4 || b.id == 6;
    assert Contains(tail1, b) <==> b.id == 2 || b.id == 4 || b.id == 6;
  }

  lemma FluidIds(b: BlockType)
    ensures Contains(FLUID, b) <==> b.id == 5
  {
    assert FLUID[1..] == [];
  }

  lemma GroupIds(b: BlockType)
    ensures Contains(RESOURCES, b) <==> b.id == 7 || b.id == 8 || b.id == 9
    ensures Contains(CRUST, b) <==> b.id == 1 || b.id == 0
    ensures Contains(TOPPING, b) <==> b.id == 3 || b.id == 2 || b.id == 4 || b.id == 6
    ensures Contains(FLUID, b) <==> b.id == 5
  {
    ResourceIds(b);
    CrustIds(b);
    ToppingIds(b);
    FluidIds(b);
  }

  /** No block type belongs to two of the four groups. */
  lemma GroupsDisjoint(b: BlockType)
    ensures !(Contains(RESOURCES, b) && Contains(CRUST, b))
    ensures !(Contains(RESOURCES, b) && Contains(TOPPING, b))
    ensures !(Contains(RESOURCES, b) && Contains(FLUID, b))
    ensures !(Contains(CRUST, b) && Contains(TOPPING, b))
    ensures !(Contains(CRUST, b) && Contains(FLUID, b))
    ensures !(Contains(TOPPING, b) && Contains(FLUID, b))
  {
    GroupIds(b);
  }

  /** A block type is in one of the groups exactly when its id is one of the ten catalog ids. */
  lemma GroupsCoverCatalog(b: BlockType)
    ensures Contains(RESOURCES, b) || Contains(CRUST, b) || Contains(TOPPING, b) || Contains(FLUID, b)
            <==> b.id < 10
  {
    GroupIds(b);
  }
}
