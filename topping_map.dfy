/**
 * The later `ToppingMap` (src/map/generator/noise_maps/topping_map.rs),
 * written against the `Noise2D` trait. It reads the biome of the column
 * once and picks one noise source by biome family.
 */
module NoiseMapsTopping {

  import opened RustInt
  import opened Wrappers
  import opened Biomes
  import W = NoiseMapWrappers

  type HeightMap = W.HeightMap
  type BiomeMap = W.BiomeMap

  /** The noise layer a biome's topping reads. */
  datatype NoiseSource = ForestNoise | DesertNoise | MountainNoise | NoNoise

  /** Tundra and forest share one noise, plains, desert and frozen ocean another, mountains a third. */
  function SourceOf(b: Biome): NoiseSource {
    match b
    case Tundra | Forest => ForestNoise
    case Plains | Desert | FrozenOcean => DesertNoise
    case Mountain | IcePike => MountainNoise
    case Ocean => NoNoise
  }

  datatype ToppingMap = ToppingMap(desertNoise: HeightMap, forestNoise: HeightMap, mountainNoise: HeightMap,
                                   heightMap: HeightMap, biomeMap: BiomeMap)
  {
    /** The sample of the given noise layer at a column (0 for none). */
    function Sample(source: NoiseSource, x: int, z: int): I8 {
      match source
      case ForestNoise => forestNoise.Get(x, z)
      case DesertNoise => desertNoise.Get(x, z)
      case MountainNoise => mountainNoise.Get(x, z)
      case NoNoise => 0
    }

    /**
     * `Noise2D::get` for `ToppingMap`. It agrees with the generator's
     * `ToppingMap` on every column, so the per-biome heights and panics
     * stated there hold here too.
     */
    function Get(x: int, z: int): (r: Option<int>)
      ensures r == W.ToppingMap(desertNoise, forestNoise, mountainNoise, heightMap, biomeMap).Get(x, z)
    {
      match biomeMap.Get(x, z)
      case Tundra => W.AddI8(W.AddI8(W.AbsDiv20(forestNoise.Get(x, z)), Some(heightMap.Get(x, z))), Some(2))
      case Plains => W.AddI8(W.AddI8(W.AbsDiv20(desertNoise.Get(x, z)), Some(heightMap.Get(x, z))), Some(2))
      case Forest => W.AddI8(W.AddI8(W.AbsDiv20(forestNoise.Get(x, z)), Some(heightMap.Get(x, z))), Some(2))
      case Desert => W.AddI8(W.AddI8(W.AbsDiv20(desertNoise.Get(x, z)), Some(heightMap.Get(x, z))), Some(2))
      case Mountain => W.AddI8(W.AbsDiv20(mountainNoise.Get(x, z)), Some(heightMap.Get(x, z)))
      case IcePike => W.AddI8(W.AbsDiv20(mountainNoise.Get(x, z)), Some(heightMap.Get(x, z)))
      case FrozenOcean => W.AddI8(W.AddI8(Some(OCEAN_HEIGHT), W.AbsDiv20(desertNoise.Get(x, z))), Some(2))
      case Ocean => W.AddI8(Some(OCEAN_HEIGHT), Some(2))
    }
  }

  /**
   * The topping of a column depends only on its biome, its terrain height
   * and the one noise layer `SourceOf` names for that biome: two maps that
   * agree on those agree on the result, whatever their other layers hold.
   */
  lemma DependsOnlyOnSelectedNoise(a: ToppingMap, b: ToppingMap, x: int, z: int)
    requires a.biomeMap.Get(x, z) == b.biomeMap.Get(x, z)
    requires a.heightMap.Get(x, z) == b.heightMap.Get(x, z)
    requires a.Sample(SourceOf(a.biomeMap.Get(x, z)), x, z) == b.Sample(SourceOf(a.biomeMap.Get(x, z)), x, z)
    ensures a.Get(x, z) == b.Get(x, z)
  {
  }

  /** Ocean columns ignore every noise layer and the terrain height. */
  lemma OceanIsFixed(t: ToppingMap, x: int, z: int)
    requires t.biomeMap.Get(x, z) == Ocean
    ensures t.Get(x, z) == Some(-23)
  {
  }
}
