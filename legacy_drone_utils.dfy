/**
 * The older copy of the drone utilities. It has no schemas; its two
 * validators are private to the file and, of its functions, only the
 * no-fly-zone check is exported. The model declares them side by side with
 * the current copy and proves that the two copies agree on every input.
 */
module LegacyDroneUtils {
  import opened Wrappers
  import opened Telemetry
  import DroneUtils

  /** Both coordinates lie within their inclusive ranges. */
  function IsValidCoordinates(c: Coordinates): (r: bool)
    ensures r <==> -90.0 <= c.latitude <= 90.0 && -180.0 <= c.longitude <= 180.0
  {
    var latitude, longitude := c.latitude, c.longitude;
    latitude >= -90.0 && latitude <= 90.0 && longitude >= -180.0 && longitude <= 180.0
  }

  /** The telemetry validator of this copy. */
  function IsValidDroneTelemetry(telemetry: Option<DroneTelemetry>): (r: bool)
    ensures telemetry.None? ==> !r
    ensures telemetry.Some? &&
            (telemetry.value.coordinates.None? || !IsValidCoordinates(telemetry.value.coordinates.value))
            ==> !r
    ensures telemetry.Some? &&
            (telemetry.value.altitude < 0.0 || telemetry.value.speed < 0.0 ||
             telemetry.value.signalStrength < 0.0 || telemetry.value.frequency < 0.0)
            ==> !r
    ensures r <==> telemetry.Some? && DroneUtils.ConformsToSchema(telemetry.value) &&
                   telemetry.value.signalStrength >= 0.0
  {
    if telemetry.None? then false
    else
      var t := telemetry.value;
      if t.coordinates.None? || !IsValidCoordinates(t.coordinates.value) then false
      else if t.altitude < 0.0 || t.speed < 0.0 || t.signalStrength < 0.0 || t.frequency < 0.0 then false
      else true
  }

  /** This copy's zone, with the same swapped bounds as the current one. */
  const NO_FLY_ZONE: Zone := Zone(north := 10.5, south := 50.5, east := 30.5, west := 40.5)

  /** The no-fly-zone check of this copy: with these bounds it never flags a drone. */
  function IsDroneInNoFlyZone(telemetry: Option<DroneTelemetry>): (r: bool)
    ensures !IsValidDroneTelemetry(telemetry) ==> !r
    ensures !r
  {
    if !IsValidDroneTelemetry(telemetry) then false
    else
      ZoneContains(NO_FLY_ZONE, telemetry.value.coordinates.value)
  }

  /** The two copies compute the same answers on every input. */
  lemma AgreesWithCurrentCopy(c: Coordinates, telemetry: Option<DroneTelemetry>)
    ensures IsValidCoordinates(c) == DroneUtils.IsValidCoordinates(c)
    ensures IsValidDroneTelemetry(telemetry) == DroneUtils.IsValidDroneTelemetry(telemetry)
    ensures IsDroneInNoFlyZone(telemetry) == DroneUtils.IsDroneInNoFlyZone(telemetry)
    ensures NO_FLY_ZONE == DroneUtils.NO_FLY_ZONE
  {
  }
}
