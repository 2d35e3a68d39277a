/** The record shapes shared by the engine, the game state and the charts (src/types.ts). */
module Types {

  /**
   * One competing region ("Area"): identifier, seed as a fraction of the map's width and
   * height, its power and acc stats (exact reals here), and a `#RRGGBB` display colour.
   */
  datatype Area = Area(id: string, startX: real, startY: real, power: real, acc: real, color: string)

  /** Per-area values recorded in the history after a round. */
  datatype AreaSnapshot = AreaSnapshot(areaId: string, acc: real, power: real, populationValue: real)

  /** All areas' values after one round (round 0 is the starting state). */
  datatype RoundSnapshot = RoundSnapshot(round: int, areas: seq<AreaSnapshot>)

  /** Barrier-crossing thresholds from the game configuration. */
  datatype BarrierThresholds = BarrierThresholds(river: real, mountain: real, ocean: real)

  /**
   * The fields of the game configuration the engine reads. `opacityByRank` is keyed by the
   * rank number whose decimal spelling is the configuration's key ("1", "2", ...).
   */
  datatype LogicData = LogicData(
    opacityByRank: map<nat, real>,
    barrierThresholds: BarrierThresholds,
    turns: int,
    baseGrowthRadius: real,
    growthMultiplier: real)

  /** Sort key of `sort((a, b) => a.round - b.round)` over snapshots. */
  function RoundKey(s: RoundSnapshot): real
  {
    s.round as real
  }
}
