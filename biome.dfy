/**
 * The biome classifier (src/map/generator/biome.rs): an ordered,
 * first-match-wins table over a temperature sample and a height sample,
 * both `i8`. The table's ranges are Rust's half-open `a..b`, so `i8::MAX`
 * (127) is outside every range that ends at `i8::MAX`.
 */
module Biomes {

  import opened RustInt

  datatype Biome = Tundra | Plains | Forest | Desert | Mountain | IcePike | FrozenOcean | Ocean

  const OCEAN_HEIGHT: int := -25
  const MOUNTAIN_HEIGHT: int := 70
  const ICE_PIKE_HEIGHT: int := 80
  const MAX_DESERT_HEIGHT: int := 60

  const FREEZE_TEMP: int := -40
  const FOREST_TEMP: int := 0
  const PLAINS_TEMP: int := 40

  /**
   * `Biome::from_map`: an ordered, first-match table. The inputs that
   * produce each biome are given by `FromMapRegions`.
   */
  function FromMap(temperature: I8, vertical: I8): (b: Biome)
    ensures b in {Ocean, FrozenOcean} <==> vertical < OCEAN_HEIGHT && temperature < I8_MAX
  {
    if I8_MIN <= temperature < FREEZE_TEMP && I8_MIN <= vertical < OCEAN_HEIGHT then FrozenOcean
    else if FREEZE_TEMP <= temperature < I8_MAX && I8_MIN <= vertical < OCEAN_HEIGHT then Ocean
    else if I8_MIN <= temperature < FREEZE_TEMP then Tundra
    else if MOUNTAIN_HEIGHT <= vertical < ICE_PIKE_HEIGHT then Mountain
    else if ICE_PIKE_HEIGHT <= vertical < I8_MAX then IcePike
    else if FREEZE_TEMP <= temperature < FOREST_TEMP then Forest
    else if FOREST_TEMP <= temperature < PLAINS_TEMP then Plains
    else if PLAINS_TEMP <= temperature < I8_MAX && OCEAN_HEIGHT <= vertical < MAX_DESERT_HEIGHT then Desert
    else Forest
  }

  /**
   * Which inputs produce each biome; together the clauses partition all
   * 256 x 256 input pairs.
   */
  lemma FromMapRegions(temperature: I8, vertical: I8)
    ensures FromMap(temperature, vertical) == FrozenOcean <==> temperature < FREEZE_TEMP && vertical < OCEAN_HEIGHT
    ensures FromMap(temperature, vertical) == Ocean <==> FREEZE_TEMP <= temperature < I8_MAX && vertical < OCEAN_HEIGHT
    ensures FromMap(temperature, vertical) == Tundra <==> temperature < FREEZE_TEMP && vertical >= OCEAN_HEIGHT
    ensures FromMap(temperature, vertical) == Mountain <==> temperature >= FREEZE_TEMP && MOUNTAIN_HEIGHT <= vertical < ICE_PIKE_HEIGHT
    ensures FromMap(temperature, vertical) == IcePike <==> temperature >= FREEZE_TEMP && ICE_PIKE_HEIGHT <= vertical < I8_MAX
    ensures FromMap(temperature, vertical) == Plains <==>
      FOREST_TEMP <= temperature < PLAINS_TEMP && vertical >= OCEAN_HEIGHT && !(MOUNTAIN_HEIGHT <= vertical < I8_MAX)
    ensures FromMap(temperature, vertical) == Desert <==> PLAINS_TEMP <= temperature < I8_MAX && OCEAN_HEIGHT <= vertical < MAX_DESERT_HEIGHT
    ensures FromMap(temperature, vertical) == Forest <==>
      (temperature == I8_MAX && vertical < OCEAN_HEIGHT) ||
      (temperature >= FREEZE_TEMP && vertical >= OCEAN_HEIGHT && !(MOUNTAIN_HEIGHT <= vertical < I8_MAX) &&
       (temperature < FOREST_TEMP || (temperature >= PLAINS_TEMP && (temperature == I8_MAX || vertical >= MAX_DESERT_HEIGHT))))
  {
  }

  /** The edges the half-open ranges create at `i8::MAX`. */
  lemma MaxSampleEdges(t: I8, v: I8)
    ensures v < OCEAN_HEIGHT ==> FromMap(I8_MAX, v) == Forest
    ensures t >= FREEZE_TEMP ==> FromMap(t, I8_MAX) != IcePike
    ensures v >= OCEAN_HEIGHT && !(MOUNTAIN_HEIGHT <= v < I8_MAX) ==> FromMap(I8_MAX, v) == Forest
  {
  }
}
