/**
 * The terrain generator (src/map/generator/mod.rs). `get_chunk` fills
 * each of the 16x16 columns of a chunk with bedrock, then stone up to the
 * terrain height, then the biome's topping block up to the topping height,
 * skipping every voxel the cave map carves out. Each column is a list of
 * (height, block) pairs. The noise layers are built from the sampled noise
 * (an input) exactly as the source wires them: the biome, topping and
 * cave maps all read the same base heights and biome map.
 */
module Generator {

  import opened RustInt
  import opened Wrappers
  import opened Biomes
  import opened Blocks
  import opened Counting
  import N = NoiseMapWrappers

  const DEBUG_WORLD_SCALE: nat := 1
  const CHUNK_RESOLUTION: nat := 16 / DEBUG_WORLD_SCALE

  /** The single bedrock voxel of every column (`for y in -101..-100`). */
  const BEDROCK_Y: int := -101

  /** The lowest stone voxel of every column. */
  const STONE_FLOOR: int := -100

  type Cell = (int, BlockType)

  type Column = seq<Cell>

  /** The generator's `Chunk`: columns indexed `[z][x]`, and the chunk's (x, z) as `x` and `y`. */
  datatype Chunk = Chunk(x: int, y: int, cubes: seq<seq<Column>>)

  /** The sampled noise of one chunk: four column layers and the cave noise. */
  datatype Noise = Noise(baseHeights: N.HeightMap, temperature: N.HeightMap, desert: N.HeightMap,
                         forest: N.HeightMap, mountain: N.HeightMap, carve: (int, int, int) -> bool)

  datatype Layers = Layers(baseHeights: N.HeightMap, biomeMap: N.BiomeMap, toppingMap: N.ToppingMap, caveMap: N.CaveMap)

  /** The maps `get_chunk` builds before filling the columns. */
  function LayersOf(n: Noise): Layers {
    var biomeMap := N.BiomeMap(n.temperature, n.baseHeights);
    Layers(n.baseHeights, biomeMap,
           N.ToppingMap(n.desert, n.forest, n.mountain, n.baseHeights, biomeMap),
           N.CaveMap(biomeMap, n.carve))
  }

  /** The seeds of the height, biome, topping and cave layers and of the cave's second table. */
  datatype Seeds = Seeds(height: U32, biome: U32, topping: U32, cave: U32, cave2: U32)

  /**
   * `get_chunk` seeds the biome map with `seed - 100`, the topping map with
   * `seed - 200` and the cave map with `seed` (whose second table takes
   * `seed - 758`); each subtraction panics on `u32` underflow.
   */
  function LayerSeeds(seed: U32): (r: Option<Seeds>)
    ensures r.Some? <==> seed >= 758
    ensures r.Some? ==> r.value.biome == seed - 100 && r.value.topping == seed - 200 && r.value.cave2 == seed - 758
  {
    if seed < 100 || seed < 200 then None
    else match N.CaveSeeds(seed)
      case None => None
      case Some(cs) => Some(Seeds(seed, seed - 100, seed - 200, cs.0, cs.1))
  }

  /** The biome's topping block before the frozen-ocean rule. */
  function SurfaceBlock(biome: Biome): BlockType {
    match biome
    case Tundra => ICE
    case Plains => DIRT
    case Forest => FOREST_DIRT
    case Desert => SAND
    case Mountain => STONE
    case IcePike => ICE
    case FrozenOcean => ICE
    case Ocean => WATER
  }

  /** The topping block at height y of a column whose topping height is ty. */
  function ToppingBlock(biome: Biome, y: int, ty: int): BlockType {
    var block := SurfaceBlock(biome);
    if Eq(block, ICE) && biome == FrozenOcean && y < ty - 2 then WATER else block
  }

  /** The biome-to-block table; frozen oceans are ice only in their top three voxels and water below. */
  lemma ToppingBlockTable(biome: Biome, y: int, ty: int)
    ensures biome == Tundra || biome == IcePike ==> ToppingBlock(biome, y, ty) == ICE
    ensures biome == Plains ==> ToppingBlock(biome, y, ty) == DIRT
    ensures biome == Forest ==> ToppingBlock(biome, y, ty) == FOREST_DIRT
    ensures biome == Desert ==> ToppingBlock(biome, y, ty) == SAND
    ensures biome == Mountain ==> ToppingBlock(biome, y, ty) == STONE
    ensures biome == Ocean ==> ToppingBlock(biome, y, ty) == WATER
    ensures biome == FrozenOcean ==>
              (ToppingBlock(biome, y, ty) == WATER <==> y < ty - 2) && (ToppingBlock(biome, y, ty) == ICE <==> y >= ty - 2)
  {
  }

  /** What `get_chunk` reads from the layers at one column: the terrain height, biome, topping height and cave noise. */
  datatype ColumnSamples = ColumnSamples(height: I8, biome: Biome, topping: Option<I8>,
                                         caveExempt: bool, carve: (int, int, int) -> bool, x: int, z: int)
  {
    /** `CaveMap::get` at height y of this column, its ocean test read once per column (see `CarvedIsCaveMapGet`). */
    predicate Carved(y: I8) {
      !caveExempt && carve(x, y, z)
    }
  }

  function SamplesAt(l: Layers, x: int, z: int): (s: ColumnSamples)
    ensures s.topping.Some? <==> l.toppingMap.Get(x, z).Some?
  {
    var t: Option<I8> := match l.toppingMap.Get(x, z) case None => None case Some(v) => Some(v);
    ColumnSamples(l.baseHeights.Get(x, z), l.biomeMap.Get(x, z), t,
                  l.caveMap.biomeMap.Get(x, z) == Ocean, l.caveMap.carve, x, z)
  }

  /** The samples' cave test is the cave map's. */
  lemma CarvedIsCaveMapGet(l: Layers, x: int, z: int, y: I8)
    ensures SamplesAt(l, x, z).Carved(y) == l.caveMap.Get(x, y, z)
  {
  }

  /** The stone voxels of a column for heights in [-100, hi), skipping caves. */
  function StoneRun(s: ColumnSamples, hi: int): Column
    requires hi <= I8_MAX + 1
    decreases hi - STONE_FLOOR
  {
    if hi <= STONE_FLOOR then []
    else StoneRun(s, hi - 1) + (if s.Carved(hi - 1) then [] else [(hi - 1, STONE)])
  }

  /** The topping voxels of a column for heights in [lo, hi), skipping caves. */
  function ToppingRun(s: ColumnSamples, lo: int, hi: int): Column
    requires s.topping.Some? && I8_MIN <= lo && hi <= I8_MAX + 1
    decreases hi - lo
  {
    if hi <= lo then []
    else ToppingRun(s, lo, hi - 1) +
         (if s.Carved(hi - 1) then [] else [(hi - 1, ToppingBlock(s.biome, hi - 1, s.topping.value))])
  }

  /** The column built from one column's samples, when the topping height does not overflow. */
  function ColumnOf(s: ColumnSamples): Column
    requires s.topping.Some?
  {
    [(BEDROCK_Y, UNBREAKABLE)] + StoneRun(s, s.height) + ToppingRun(s, s.height, s.topping.value + 1)
  }

  /** The column `get_chunk` builds at (x, z). */
  function ColumnAt(l: Layers, x: int, z: int): Column
    requires SamplesAt(l, x, z).topping.Some?
  {
    ColumnOf(SamplesAt(l, x, z))
  }

  /** Cell c is one `get_chunk` places above the bedrock: stone below the terrain height, topping up to the topping height, never in a cave. */
  predicate Placed(s: ColumnSamples, c: Cell)
    requires s.topping.Some?
  {
    InI8(c.0) && !s.Carved(c.0) &&
    ((STONE_FLOOR <= c.0 < s.height && c.1 == STONE) ||
     (s.height <= c.0 <= s.topping.value && c.1 == ToppingBlock(s.biome, c.0, s.topping.value)))
  }

  /** A cell is in the stone run exactly when it is stone at an uncarved height of [-100, hi). */
  lemma {:induction false} StoneRunContents(s: ColumnSamples, hi: int, c: Cell)
    requires hi <= I8_MAX + 1
    ensures c in StoneRun(s, hi) <==> STONE_FLOOR <= c.0 < hi && c.1 == STONE && !s.Carved(c.0)
    decreases hi - STONE_FLOOR
  {
    if hi > STONE_FLOOR {
      StoneRunContents(s, hi - 1, c);
    }
  }

  /** A cell is in the topping run exactly when it holds the topping block of an uncarved height of [lo, hi). */
  lemma {:induction false} ToppingRunContents(s: ColumnSamples, lo: int, hi: int, c: Cell)
    requires s.topping.Some? && I8_MIN <= lo && hi <= I8_MAX + 1
    ensures c in ToppingRun(s, lo, hi) <==>
              lo <= c.0 < hi && !s.Carved(c.0) && c.1 == ToppingBlock(s.biome, c.0, s.topping.value)
    decreases hi - lo
  {
    if hi > lo {
      ToppingRunContents(s, lo, hi - 1, c);
    }
  }

  /** The stone run's heights increase and stay in [-100, hi). */
  lemma {:induction false} StoneRunIncreasing(s: ColumnSamples, hi: int)
    requires hi <= I8_MAX + 1
    ensures forall k :: 0 <= k < |StoneRun(s, hi)| ==> STONE_FLOOR <= StoneRun(s, hi)[k].0 < hi
    ensures Increasing(StoneRun(s, hi))
    decreases hi - STONE_FLOOR
  {
    if hi > STONE_FLOOR {
      StoneRunIncreasing(s, hi - 1);
    }
  }

  /** The topping run's heights increase and stay in [lo, hi). */
  lemma {:induction false} ToppingRunIncreasing(s: ColumnSamples, lo: int, hi: int)
    requires s.topping.Some? && I8_MIN <= lo && hi <= I8_MAX + 1
    ensures forall k :: 0 <= k < |ToppingRun(s, lo, hi)| ==> lo <= ToppingRun(s, lo, hi)[k].0 < hi
    ensures Increasing(ToppingRun(s, lo, hi))
    decreases hi - lo
  {
    if hi > lo {
      ToppingRunIncreasing(s, lo, hi - 1);
    }
  }

  /** A column is the bedrock voxel followed by exactly the placed voxels. */
  lemma ColumnContents(s: ColumnSamples)
    requires s.topping.Some?
    ensures ColumnOf(s)[0] == (BEDROCK_Y, UNBREAKABLE)
    ensures forall c :: c in ColumnOf(s)[1..] <==> Placed(s, c)
  {
    var stone := StoneRun(s, s.height);
    var top := ToppingRun(s, s.height, s.topping.value + 1);
    assert ColumnOf(s)[1..] == stone + top;
    forall c
      ensures c in ColumnOf(s)[1..] <==> Placed(s, c)
    {
      StoneRunContents(s, s.height, c);
      ToppingRunContents(s, s.height, s.topping.value + 1, c);
    }
  }


  /** Two increasing runs, the first entirely below the second, concatenate to an increasing run. */
  lemma IncreasingConcat(a: Column, b: Column)
    requires Increasing(a) && Increasing(b)
    requires forall i, j :: 0 <= i < |a| && 0 <= j < |b| ==> a[i].0 < b[j].0
    ensures Increasing(a + b)
  {
    forall i, j | 0 <= i < j < |a + b|
      ensures (a + b)[i].0 < (a + b)[j].0
    {
      if j < |a| {
        assert (a + b)[i] == a[i] && (a + b)[j] == a[j];
      } else if i >= |a| {
        assert (a + b)[i] == b[i - |a|] && (a + b)[j] == b[j - |a|];
      } else {
        assert (a + b)[i] == a[i] && (a + b)[j] == b[j - |a|];
      }
    }
  }

  /** A column's heights increase when its terrain is not below the stone floor. */
  lemma ColumnIncreasing(s: ColumnSamples)
    requires s.topping.Some? && s.height >= STONE_FLOOR
    ensures Increasing(ColumnOf(s))
  {
    var stone := StoneRun(s, s.height);
    var top := ToppingRun(s, s.height, s.topping.value + 1);
    StoneRunIncreasing(s, s.height);
    ToppingRunIncreasing(s, s.height, s.topping.value + 1);
    IncreasingConcat(stone, top);
    assert forall j :: 0 <= j < |stone + top| ==> BEDROCK_Y < (stone + top)[j].0 by {
      forall j | 0 <= j < |stone + top|
        ensures BEDROCK_Y < (stone + top)[j].0
      {
        if j < |stone| {
          assert (stone + top)[j] == stone[j];
        } else {
          assert (stone + top)[j] == top[j - |stone|];
        }
      }
    }
    IncreasingConcat([(BEDROCK_Y, UNBREAKABLE)], stone + top);
    assert ColumnOf(s) == [(BEDROCK_Y, UNBREAKABLE)] + (stone + top);
  }

  /** A terrain height of -101 puts an uncarved topping voxel at the bedrock's own height, right after it. */
  lemma BedrockOverlap(s: ColumnSamples)
    requires s.topping.Some? && s.height == BEDROCK_Y <= s.topping.value && !s.Carved(BEDROCK_Y)
    ensures |ColumnOf(s)| >= 2
    ensures ColumnOf(s)[0].0 == ColumnOf(s)[1].0 == BEDROCK_Y
    ensures ColumnOf(s)[1] == (BEDROCK_Y, ToppingBlock(s.biome, BEDROCK_Y, s.topping.value))
  {
    var top := ToppingRun(s, s.height, s.topping.value + 1);
    ToppingRunContents(s, s.height, s.topping.value + 1, (BEDROCK_Y, ToppingBlock(s.biome, BEDROCK_Y, s.topping.value)));
    ToppingRunIncreasing(s, s.height, s.topping.value + 1);
    assert StoneRun(s, s.height) == [];
    assert (BEDROCK_Y, ToppingBlock(s.biome, BEDROCK_Y, s.topping.value)) in top;
    assert top[0] in top;
    assert ColumnOf(s) == [(BEDROCK_Y, UNBREAKABLE)] + top;
  }

  /**
   * Ocean columns are never carved: their topping height is -23 and every
   * height from the terrain up to it is water, with stone below from -100.
   */
  lemma OceanColumnsAreWater(noise: Noise, x: int, z: int)
    requires LayersOf(noise).biomeMap.Get(x, z) == Ocean
    ensures SamplesAt(LayersOf(noise), x, z).topping == Some(OCEAN_HEIGHT + 2)
    ensures forall y :: noise.baseHeights.Get(x, z) <= y <= OCEAN_HEIGHT + 2 ==>
              (y, WATER) in ColumnAt(LayersOf(noise), x, z)
    ensures forall y :: STONE_FLOOR <= y < noise.baseHeights.Get(x, z) ==>
              (y, STONE) in ColumnAt(LayersOf(noise), x, z)
  {
    var s := SamplesAt(LayersOf(noise), x, z);
    ColumnContents(s);
    forall y | noise.baseHeights.Get(x, z) <= y <= OCEAN_HEIGHT + 2
      ensures (y, WATER) in ColumnAt(LayersOf(noise), x, z)
    {
      assert Placed(s, (y, WATER));
    }
    forall y | STONE_FLOOR <= y < noise.baseHeights.Get(x, z)
      ensures (y, STONE) in ColumnAt(LayersOf(noise), x, z)
    {
      assert Placed(s, (y, STONE));
    }
  }


  function ColumnLength(c: Column): nat {
    |c|
  }

  function RowVolume(row: seq<Column>): nat {
    Sum(row, ColumnLength)
  }

  /** The number of voxels in all columns. */
  function Volume(cubes: seq<seq<Column>>): nat {
    Sum(cubes, RowVolume)
  }

  /** The heights of a column strictly increase. */
  predicate Increasing(c: Column) {
    forall i, j :: 0 <= i < j < |c| ==> c[i].0 < c[j].0
  }

  /** `get_chunk`'s stone loop: pushes the uncarved heights of [-100, bh) as stone. */
  method PushStone(s: ColumnSamples, c0: Column) returns (c: Column, pushed: nat)
    ensures c == c0 + StoneRun(s, s.height) && pushed == |StoneRun(s, s.height)|
  {
    c := c0;
    pushed := 0;
    var y := STONE_FLOOR;
    while y < s.height
      invariant STONE_FLOOR <= y && (y <= s.height || y == STONE_FLOOR)
      invariant c == c0 + StoneRun(s, y) && pushed == |StoneRun(s, y)|
    {
      if !s.Carved(y) {
        c := c + [(y, STONE)];
        pushed := pushed + 1;
      }
      y := y + 1;
    }
    assert StoneRun(s, y) == StoneRun(s, s.height);
  }

  /** `get_chunk`'s topping loop: pushes the uncarved heights of [bh, ty] with their topping blocks. */
  method PushTopping(s: ColumnSamples, c0: Column) returns (c: Column, pushed: nat)
    requires s.topping.Some?
    ensures c == c0 + ToppingRun(s, s.height, s.topping.value + 1) && pushed == |ToppingRun(s, s.height, s.topping.value + 1)|
  {
    var biome := s.biome;
    var ty: int := s.topping.value;
    c := c0;
    pushed := 0;
    var y: int := s.height;
    while y <= ty
      invariant s.height <= y && (y <= ty + 1 || y == s.height)
      invariant c == c0 + ToppingRun(s, s.height, y) && pushed == |ToppingRun(s, s.height, y)|
    {
      if !s.Carved(y) {
        var block := SurfaceBlock(biome);
        if Eq(block, ICE) && biome == FrozenOcean && y < ty - 2 {
          block := WATER;
        }
        c := c + [(y, block)];
        pushed := pushed + 1;
      }
      y := y + 1;
    }
    assert ToppingRun(s, s.height, y) == ToppingRun(s, s.height, ty + 1);
  }

  /**
   * The body of `get_chunk`'s column loop, on the samples of its column:
   * the bedrock loop, then the stone and topping loops. `None` stands for
   * the topping height overflowing `i8`; `pushed` counts the voxels pushed.
   */
  method FillColumn(s: ColumnSamples) returns (col: Option<Column>, pushed: nat)
    ensures col.Some? <==> s.topping.Some?
    ensures col.Some? ==> col.value == ColumnOf(s) && pushed == |col.value|
  {
    var c: Column := [];
    pushed := 0;
    var y := BEDROCK_Y;
    while y < STONE_FLOOR
      invariant BEDROCK_Y <= y <= STONE_FLOOR
      invariant c == if y == BEDROCK_Y then [] else [(BEDROCK_Y, UNBREAKABLE)]
      invariant pushed == |c|
    {
      c := c + [(y, UNBREAKABLE)];
      pushed := pushed + 1;
      y := y + 1;
    }
    var n;
    c, n := PushStone(s, c);
    pushed := pushed + n;
    if s.topping.None? {
      return None, pushed;
    }
    c, n := PushTopping(s, c);
    pushed := pushed + n;
    col := Some(c);
  }

  /** The samples of every column. */
  type Sampler = (int, int) -> ColumnSamples

  function Sampling(l: Layers): Sampler {
    (x: int, z: int) => SamplesAt(l, x, z)
  }

  /** Row z of a generated chunk holds, in order of x, the columns built from the samples. */
  predicate RowMatches(samples: Sampler, z: int, row: seq<Column>) {
    |row| == CHUNK_RESOLUTION &&
    forall x :: 0 <= x < CHUNK_RESOLUTION ==> samples(x, z).topping.Some? && row[x] == ColumnOf(samples(x, z))
  }

  /**
   * One pass of `get_chunk`'s outer loop: the columns of row z, in order
   * of x. `None` stands for a topping overflow in one of them.
   */
  method FillRow(samples: Sampler, z: int) returns (row: Option<seq<Column>>, pushed: nat)
    ensures row.Some? <==> forall x :: 0 <= x < CHUNK_RESOLUTION ==> samples(x, z).topping.Some?
    ensures row.Some? ==> RowMatches(samples, z, row.value) && RowVolume(row.value) == pushed
  {
    var r: seq<Column> := [];
    pushed := 0;
    var x := 0;
    while x < CHUNK_RESOLUTION
      invariant 0 <= x <= CHUNK_RESOLUTION && |r| == x
      invariant forall xx :: 0 <= xx < x ==> samples(xx, z).topping.Some? && r[xx] == ColumnOf(samples(xx, z))
      invariant pushed == RowVolume(r)
    {
      var col, n := FillColumn(samples(x, z));
      if col.None? {
        return None, pushed + n;
      }
      SumSnoc(r, col.value, ColumnLength);
      ghost var previous := r;
      r := r + [col.value];
      forall xx | 0 <= xx <= x
        ensures samples(xx, z).topping.Some? && r[xx] == ColumnOf(samples(xx, z))
      {
        if xx < x {
          assert r[xx] == previous[xx];
        }
      }
      pushed := pushed + n;
      x := x + 1;
    }
    row := Some(r);
  }


  /** No column of the chunk overflows its topping height. */
  predicate ToppingsDefined(samples: Sampler) {
    forall x, z :: 0 <= x < CHUNK_RESOLUTION && 0 <= z < CHUNK_RESOLUTION ==> samples(x, z).topping.Some?
  }

  /** `get_chunk`'s outer loop: the rows of the chunk, in order of z. `None` stands for a topping overflow. */
  method FillRows(samples: Sampler) returns (rows: Option<seq<seq<Column>>>, pushed: nat)
    ensures rows.Some? <==> ToppingsDefined(samples)
    ensures rows.Some? ==> |rows.value| == CHUNK_RESOLUTION
    ensures rows.Some? ==> forall z :: 0 <= z < CHUNK_RESOLUTION ==> RowMatches(samples, z, rows.value[z])
    ensures rows.Some? ==> pushed == Volume(rows.value)
  {
    var result: seq<seq<Column>> := [];
    pushed := 0;
    var z := 0;
    while z < CHUNK_RESOLUTION
      invariant 0 <= z <= CHUNK_RESOLUTION && |result| == z
      invariant forall zz :: 0 <= zz < z ==> RowMatches(samples, zz, result[zz])
      invariant pushed == Volume(result)
    {
      var row, n := FillRow(samples, z);
      if row.None? {
        var x :| 0 <= x < CHUNK_RESOLUTION && !samples(x, z).topping.Some?;
        return None, pushed + n;
      }
      SumSnoc(result, row.value, RowVolume);
      ghost var previous := result;
      result := result + [row.value];
      forall zz | 0 <= zz <= z
        ensures RowMatches(samples, zz, result[zz])
      {
        if zz < z {
          assert result[zz] == previous[zz];
        }
      }
      pushed := pushed + n;
      z := z + 1;
    }
    forall x, z | 0 <= x < CHUNK_RESOLUTION && 0 <= z < CHUNK_RESOLUTION
      ensures samples(x, z).topping.Some?
    {
      assert RowMatches(samples, z, result[z]);
    }
    rows := Some(result);
  }

  /**
   * `Generator::get_chunk`. `None` stands for a panic: a seed below 758 or
   * a topping height that overflows `i8`. Otherwise column (x, z) is the
   * column of its samples, and `count` (the source's `i`) is the number of
   * voxels pushed.
   */
  method GetChunk(seed: U32, noise: Noise, chX: int, chZ: int) returns (r: Option<Chunk>, count: nat)
    ensures r.Some? <==> seed >= 758 && ToppingsDefined(Sampling(LayersOf(noise)))
    ensures r.Some? ==> r.value.x == chX && r.value.y == chZ
    ensures r.Some? ==> |r.value.cubes| == CHUNK_RESOLUTION
    ensures r.Some? ==> forall z :: 0 <= z < CHUNK_RESOLUTION ==> RowMatches(Sampling(LayersOf(noise)), z, r.value.cubes[z])
    ensures r.Some? ==> count == Volume(r.value.cubes)
  {
    var seeds := LayerSeeds(seed);
    if seeds.None? {
      return None, 0;
    }
    var rows, n := FillRows(Sampling(LayersOf(noise)));
    if rows.None? {
      return None, n;
    }
    r := Some(Chunk(chX, chZ, rows.value));
    count := n;
  }
}
