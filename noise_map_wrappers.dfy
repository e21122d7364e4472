/**
 * The noise layers the terrain generator reads (src/map/generator/noise_map_wrappers.rs).
 * The Perlin/fBm samples themselves are inputs: a `HeightMap` is the
 * function from a column to its rounded `i8` sample, and the cave noise is
 * a boolean function of a voxel. What is modelled is the integer logic on
 * top of the samples.
 */
module NoiseMapWrappers {

  import opened RustInt
  import opened Wrappers
  import opened Biomes

  /** `HeightMap`: the rounded noise sample of each column. */
  datatype HeightMap = HeightMap(sample: (int, int) -> I8) {
    /** `HeightMap::get`. */
    function Get(x: int, z: int): I8 {
      sample(x, z)
    }
  }

  /** `BiomeMap`: a temperature layer classified together with the terrain height. */
  datatype BiomeMap = BiomeMap(temperature: HeightMap, heightMap: HeightMap) {
    /**
     * `BiomeMap::get`: `Biome::from_map(temperature, height)`. A column is
     * an ocean biome exactly when it lies below the ocean height and its
     * temperature is not 127.
     */
    function Get(x: int, z: int): (b: Biome)
      ensures (b == Ocean || b == FrozenOcean) <==>
                heightMap.Get(x, z) < OCEAN_HEIGHT && temperature.Get(x, z) < I8_MAX
    {
      FromMap(temperature.Get(x, z), heightMap.Get(x, z))
    }
  }

  /** `n.abs() / 20` on an `i8`: `abs` of -128 overflows, a panic in a debug build. */
  function AbsDiv20(n: I8): (r: Option<int>)
    ensures r.Some? <==> n != I8_MIN
    ensures r.Some? ==> 0 <= r.value <= 6
  {
    if n == I8_MIN then None else Some(Abs(n) / 20)
  }

  /** `a + b` on `i8` operands: `None` when an operand already panicked or the sum overflows. */
  function AddI8(a: Option<int>, b: Option<int>): (r: Option<int>)
    ensures r.Some? <==> a.Some? && b.Some? && InI8(a.value + b.value)
    ensures r.Some? ==> r.value == a.value + b.value
  {
    if a.Some? && b.Some? && InI8(a.value + b.value) then Some(a.value + b.value) else None
  }

  /** `ToppingMap`: the top of the surface layer, from a per-biome noise added to the terrain height. */
  datatype ToppingMap = ToppingMap(desertNoise: HeightMap, forestNoise: HeightMap, mountainNoise: HeightMap,
                                   heightMap: HeightMap, biomeMap: BiomeMap)
  {
    /**
     * `ToppingMap::get`; `None` stands for the debug-build panic of the `i8`
     * arithmetic. Oceans sit at a fixed height; frozen oceans a little
     * above it; land biomes 2..8 (mountains 0..6) above the terrain.
     */
    function Get(x: int, z: int): (r: Option<int>)
      ensures r.Some? ==> InI8(r.value)
      ensures biomeMap.Get(x, z) == Ocean ==> r == Some(OCEAN_HEIGHT + 2)
      ensures biomeMap.Get(x, z) == FrozenOcean ==>
                (r.Some? <==> desertNoise.Get(x, z) != I8_MIN) &&
                (r.Some? ==> OCEAN_HEIGHT + 2 <= r.value <= OCEAN_HEIGHT + 8)
      ensures biomeMap.Get(x, z) in {Tundra, Forest} ==>
                (r.Some? <==> forestNoise.Get(x, z) != I8_MIN &&
                              Abs(forestNoise.Get(x, z)) / 20 + heightMap.Get(x, z) + 2 <= I8_MAX) &&
                (r.Some? ==> heightMap.Get(x, z) + 2 <= r.value <= heightMap.Get(x, z) + 8)
      ensures biomeMap.Get(x, z) in {Plains, Desert} ==>
                (r.Some? <==> desertNoise.Get(x, z) != I8_MIN &&
                              Abs(desertNoise.Get(x, z)) / 20 + heightMap.Get(x, z) + 2 <= I8_MAX) &&
                (r.Some? ==> heightMap.Get(x, z) + 2 <= r.value <= heightMap.Get(x, z) + 8)
      ensures biomeMap.Get(x, z) in {Mountain, IcePike} ==>
                (r.Some? <==> mountainNoise.Get(x, z) != I8_MIN &&
                              Abs(mountainNoise.Get(x, z)) / 20 + heightMap.Get(x, z) <= I8_MAX) &&
                (r.Some? ==> heightMap.Get(x, z) <= r.value <= heightMap.Get(x, z) + 6)
    {
      match biomeMap.Get(x, z)
      case Tundra => AddI8(AddI8(AbsDiv20(forestNoise.Get(x, z)), Some(heightMap.Get(x, z))), Some(2))
      case Plains => AddI8(AddI8(AbsDiv20(desertNoise.Get(x, z)), Some(heightMap.Get(x, z))), Some(2))
      case Forest => AddI8(AddI8(AbsDiv20(forestNoise.Get(x, z)), Some(heightMap.Get(x, z))), Some(2))
      case Desert => AddI8(AddI8(AbsDiv20(desertNoise.Get(x, z)), Some(heightMap.Get(x, z))), Some(2))
      case Mountain => AddI8(AbsDiv20(mountainNoise.Get(x, z)), Some(heightMap.Get(x, z)))
      case IcePike => AddI8(AbsDiv20(mountainNoise.Get(x, z)), Some(heightMap.Get(x, z)))
      case FrozenOcean => AddI8(AddI8(Some(OCEAN_HEIGHT), AbsDiv20(desertNoise.Get(x, z))), Some(2))
      case Ocean => AddI8(Some(OCEAN_HEIGHT), Some(2))
    }
  }

  /** No overflow can happen while the terrain is at most 119 and no noise sample is -128. */
  lemma ToppingNeverPanicsOnModerateTerrain(t: ToppingMap, x: int, z: int)
    requires t.heightMap.Get(x, z) <= I8_MAX - 8
    requires t.desertNoise.Get(x, z) != I8_MIN && t.forestNoise.Get(x, z) != I8_MIN && t.mountainNoise.Get(x, z) != I8_MIN
    ensures t.Get(x, z).Some?
  {
  }

  /** `CaveMap`: whether a voxel is carved out, from two combined 3-D noises (an input here). */
  datatype CaveMap = CaveMap(biomeMap: BiomeMap, carve: (int, int, int) -> bool) {
    /** `CaveMap::get`: never carves an ocean column; elsewhere the noise decides. */
    function Get(x: int, y: I8, z: int): (r: bool)
      ensures biomeMap.Get(x, z) == Ocean ==> !r
      ensures biomeMap.Get(x, z) != Ocean ==> r == carve(x, y, z)
    {
      if biomeMap.Get(x, z) == Ocean then false else carve(x, y, z)
    }
  }

  /** Frozen oceans are not exempt: where the noise carves, a frozen-ocean column is carved. */
  lemma FrozenOceanCanBeCarved(c: CaveMap, x: int, y: I8, z: int)
    requires c.biomeMap.Get(x, z) == FrozenOcean && c.carve(x, y, z)
    ensures c.Get(x, y, z)
  {
  }

  /**
   * The two permutation-table seeds of `CaveMap::new`: the world seed and
   * `seed - 758`, which underflows a `u32` (a debug-build panic) below 758.
   */
  function CaveSeeds(seed: U32): (r: Option<(U32, U32)>)
    ensures r.Some? <==> seed >= 758
    ensures r.Some? ==> r.value.0 == seed && r.value.0 - r.value.1 == 758
  {
    if seed >= 758 then Some((seed, seed - 758)) else None
  }
}
