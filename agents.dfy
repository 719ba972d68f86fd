/**
 * The entities the farming agents share: cells reduced to the outputs the
 * agents read, farmers as values, and the world that holds both.
 */
module Agents {

  datatype Option<T> = None | Some(value: T)

  /** Agent functional type: the farmer archetype. */
  datatype Aft = Traditionalist | Pioneer

  /**
   * A grid cell, reduced to three outputs of the crop and soil simulation:
   * the cropland fraction summed over crop bands, the mean of the harvest
   * output, and the soil carbon of the first agricultural layer.
   */
  datatype Cell = Cell(croplandFraction: real, meanHarvest: real, topsoilCarbon: real)

  /**
   * A farmer as the farming component and the lobby groups see it: its AFT,
   * its average harvest date (the update-order key) and its tillage practice,
   * None when the farmer has no tillage attribute (0 is conventional,
   * 1 conservation tillage).
   */
  datatype Farmer = Farmer(aft: Aft, avgHdate: real, tillage: Option<int>)

  /**
   * The simulation context that world-level agents refer to. Its collections
   * change between ticks, so agents read them through the reference.
   */
  class World {
    var cells: seq<Cell>
    var farmers: seq<Farmer>
    /** All individuals of the world, of whatever entity class. */
    var individuals: seq<object>
  }
}
