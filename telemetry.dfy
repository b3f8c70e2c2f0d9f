/**
 * The records that both copies of the drone utilities work on. The two source
 * files declare the same interfaces; TypeScript types are structural, so a
 * record of one is a record of the other, and the model declares them once.
 */
module Telemetry {
  import opened Wrappers

  /** Geographic position in decimal degrees. */
  datatype Coordinates = Coordinates(latitude: real, longitude: real)

  /** The closed set of states a drone reports. */
  datatype DroneStatus = Idle | Moving | Jammed

  /**
   * One telemetry reading. `coordinates` is optional because the validator
   * tests for its absence; units: metres, km/h, dB, MHz.
   */
  datatype DroneTelemetry = DroneTelemetry(
    id: string,
    coordinates: Option<Coordinates>,
    altitude: real,
    speed: real,
    signalStrength: real,
    frequency: real,
    status: DroneStatus)

  /** An axis-aligned rectangle given by its four named bounds, in degrees. */
  datatype Zone = Zone(north: real, south: real, east: real, west: real)

  /** The rectangle test both copies perform, comparison for comparison. */
  predicate ZoneContains(zone: Zone, c: Coordinates) {
    c.latitude >= zone.south && c.latitude <= zone.north &&
    c.longitude >= zone.west && c.longitude <= zone.east
  }

  /**
   * A rectangle contains some point exactly when its south bound is not above
   * its north bound and its west bound is not east of its east bound.
   */
  lemma {:induction false} ZoneInhabitedIff(zone: Zone)
    ensures (exists c :: ZoneContains(zone, c)) <==>
            zone.south <= zone.north && zone.west <= zone.east
  {
    if zone.south <= zone.north && zone.west <= zone.east {
      var corner := Coordinates(zone.south, zone.west);
      assert ZoneContains(zone, corner);
    }
  }
}
