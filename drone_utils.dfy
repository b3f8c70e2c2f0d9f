/**
 * The current drone utilities: the status enumeration, the coordinate and
 * telemetry schemas, the two validators and the no-fly-zone check.
 *
 * A schema is modelled by the list of issues its parser reports for a record:
 * the record conforms exactly when that list is empty. The parser looks at
 * every key of the object, so it reports all failing fields, in the order
 * the schema declares them, rather than stopping at the first.
 */
module DroneUtils {
  import opened Wrappers
  import opened Telemetry

  // ---------------------------------------------------------------------------
  // Status enumeration

  /** The literal each status is written as. */
  function StatusName(st: DroneStatus): string {
    match st
    case Idle => "IDLE"
    case Moving => "MOVING"
    case Jammed => "JAMMED"
  }

  /** The enumeration schema: it accepts exactly the three status literals. */
  function ParseStatus(s: string): (r: Option<DroneStatus>)
    ensures r.Some? <==> s == "IDLE" || s == "MOVING" || s == "JAMMED"
    ensures r.Some? ==> StatusName(r.value) == s
  {
    if s == "IDLE" then Some(Idle)
    else if s == "MOVING" then Some(Moving)
    else if s == "JAMMED" then Some(Jammed)
    else None
  }

  /** Parsing a status's own literal gives that status back. */
  lemma ParseStatusName(st: DroneStatus)
    ensures ParseStatus(StatusName(st)) == Some(st)
  {
  }

  // ---------------------------------------------------------------------------
  // Schemas

  /** The schema keys that carry a constraint a typed record can violate. */
  datatype Field = CoordinatesField | LatitudeField | LongitudeField
                 | AltitudeField | SpeedField | FrequencyField

  /** Why a field was refused: missing, below its minimum, above its maximum. */
  datatype IssueCode = Missing | TooSmall | TooBig

  /** One problem the schema parser reports. */
  datatype Issue = Issue(field: Field, code: IssueCode)

  /** Issues of a number constrained to `[lo, hi]` by a minimum and a maximum check. */
  function RangeIssues(x: real, lo: real, hi: real, field: Field): (r: seq<Issue>)
    ensures r == [] <==> lo <= x && x <= hi
    ensures Issue(field, TooSmall) in r <==> x < lo
    ensures Issue(field, TooBig) in r <==> x > hi
    ensures forall k :: 0 <= k < |r| ==> r[k].field == field
  {
    (if x < lo then [Issue(field, TooSmall)] else []) +
    (if x > hi then [Issue(field, TooBig)] else [])
  }

  /** Issues of a number constrained to be non-negative. */
  function NonNegativeIssues(x: real, field: Field): (r: seq<Issue>)
    ensures r == [] <==> x >= 0.0
    ensures r != [] ==> r == [Issue(field, TooSmall)]
  {
    if x < 0.0 then [Issue(field, TooSmall)] else []
  }

  /**
   * The coordinates schema applied to the `coordinates` key: a missing object
   * is one "required" issue, otherwise latitude must lie in [-90, 90] and
   * longitude in [-180, 180].
   */
  function CoordinatesIssues(c: Option<Coordinates>): (r: seq<Issue>)
    ensures r == [] <==>
            c.Some? && -90.0 <= c.value.latitude <= 90.0 && -180.0 <= c.value.longitude <= 180.0
    ensures c.None? ==> r == [Issue(CoordinatesField, Missing)]
  {
    match c
    case None => [Issue(CoordinatesField, Missing)]
    case Some(p) =>
      RangeIssues(p.latitude, -90.0, 90.0, LatitudeField) +
      RangeIssues(p.longitude, -180.0, 180.0, LongitudeField)
  }

  /**
   * The telemetry schema, key by key: `id` must be a string and `status` one
   * of the three literals, which the record's types already guarantee;
   * `coordinates` follows the coordinates schema; `altitude`, `speed` and
   * `frequency` must be non-negative; `signalStrength` may be any number.
   */
  function TelemetryIssues(t: DroneTelemetry): (r: seq<Issue>)
    ensures r == [] <==>
            CoordinatesIssues(t.coordinates) == [] &&
            t.altitude >= 0.0 && t.speed >= 0.0 && t.frequency >= 0.0
    ensures Issue(AltitudeField, TooSmall) in r <==> t.altitude < 0.0
    ensures Issue(SpeedField, TooSmall) in r <==> t.speed < 0.0
    ensures Issue(FrequencyField, TooSmall) in r <==> t.frequency < 0.0
  {
    CoordinatesIssues(t.coordinates) +
    NonNegativeIssues(t.altitude, AltitudeField) +
    NonNegativeIssues(t.speed, SpeedField) +
    NonNegativeIssues(t.frequency, FrequencyField)
  }

  /** The telemetry schema accepts a record: its parser reports no issue. */
  predicate ConformsToSchema(t: DroneTelemetry) {
    TelemetryIssues(t) == []
  }

  /** The schema places no bound on signal strength. */
  lemma SchemaIgnoresSignalStrength(t: DroneTelemetry, s: real)
    ensures TelemetryIssues(t.(signalStrength := s)) == TelemetryIssues(t)
  {
  }

  // ---------------------------------------------------------------------------
  // Validators

  /** Both coordinates lie within their inclusive ranges. */
  function IsValidCoordinates(c: Coordinates): (r: bool)
    ensures r <==> -90.0 <= c.latitude <= 90.0 && -180.0 <= c.longitude <= 180.0
    ensures r <==> CoordinatesIssues(Some(c)) == []
  {
    var latitude, longitude := c.latitude, c.longitude;
    latitude >= -90.0 && latitude <= 90.0 && longitude >= -180.0 && longitude <= 180.0
  }

  /** The four corners of the valid range are themselves valid. */
  lemma CoordinateBoundsInclusive()
    ensures IsValidCoordinates(Coordinates(-90.0, -180.0))
    ensures IsValidCoordinates(Coordinates(-90.0, 180.0))
    ensures IsValidCoordinates(Coordinates(90.0, -180.0))
    ensures IsValidCoordinates(Coordinates(90.0, 180.0))
  {
  }

  /**
   * The telemetry validator. Absent records, absent or out-of-range
   * coordinates and a negative altitude, speed, signal strength or frequency
   * make it return false; it never fails.
   */
  function IsValidDroneTelemetry(telemetry: Option<DroneTelemetry>): (r: bool)
    ensures telemetry.None? ==> !r
    ensures telemetry.Some? && telemetry.value.coordinates.None? ==> !r
    ensures r <==>
            telemetry.Some? && telemetry.value.coordinates.Some? &&
            IsValidCoordinates(telemetry.value.coordinates.value) &&
            telemetry.value.altitude >= 0.0 && telemetry.value.speed >= 0.0 &&
            telemetry.value.signalStrength >= 0.0 && telemetry.value.frequency >= 0.0
    ensures r <==>
            telemetry.Some? && ConformsToSchema(telemetry.value) &&
            telemetry.value.signalStrength >= 0.0
  {
    if telemetry.None? then false
    else
      var t := telemetry.value;
      if t.coordinates.None? || !IsValidCoordinates(t.coordinates.value) then false
      else if t.altitude < 0.0 || t.speed < 0.0 || t.signalStrength < 0.0 || t.frequency < 0.0 then false
      else true
  }

  /** Every record the validator accepts also conforms to the schema. */
  lemma ValidImpliesConforms(t: DroneTelemetry)
    requires IsValidDroneTelemetry(Some(t))
    ensures ConformsToSchema(t)
  {
  }

  /**
   * The converse fails exactly on negative signal strength: a conforming
   * record is refused by the validator if and only if its signal strength
   * is below zero.
   */
  lemma ConformsButInvalidIff(t: DroneTelemetry)
    requires ConformsToSchema(t)
    ensures !IsValidDroneTelemetry(Some(t)) <==> t.signalStrength < 0.0
  {
  }

  /** A conforming record that the validator refuses exists. */
  lemma SchemaAdmitsInvalidRecord()
    ensures exists t :: ConformsToSchema(t) && !IsValidDroneTelemetry(Some(t))
  {
    var t := DroneTelemetry("x", Some(Coordinates(0.0, 0.0)), 0.0, 0.0, -1.0, 0.0, Idle);
    assert ConformsToSchema(t) && !IsValidDroneTelemetry(Some(t));
  }

  /** Neither the identifier nor the status takes part in validation. */
  lemma ValidityIgnoresIdAndStatus(t: DroneTelemetry, id: string, status: DroneStatus)
    ensures IsValidDroneTelemetry(Some(t.(id := id, status := status))) ==
            IsValidDroneTelemetry(Some(t))
  {
  }

  // ---------------------------------------------------------------------------
  // No-fly zone

  /** The fixed zone, with the bounds exactly as written: north below south, east below west. */
  const NO_FLY_ZONE: Zone := Zone(north := 10.5, south := 50.5, east := 30.5, west := 40.5)

  /**
   * The geofence test against a given rectangle, run only on valid telemetry.
   * It flags a record only if the record is valid and the rectangle is
   * well ordered, and it flags every valid record the rectangle contains.
   */
  function IsDroneInZone(zone: Zone, telemetry: Option<DroneTelemetry>): (r: bool)
    ensures r ==> IsValidDroneTelemetry(telemetry)
    ensures r ==> zone.south <= zone.north && zone.west <= zone.east
    ensures IsValidDroneTelemetry(telemetry) ==>
              (r <==> ZoneContains(zone, telemetry.value.coordinates.value))
  {
    if !IsValidDroneTelemetry(telemetry) then false
    else
      ZoneContains(zone, telemetry.value.coordinates.value)
  }

  /** The fixed zone holds no point at all. */
  lemma NoFlyZoneIsEmpty()
    ensures forall c :: !ZoneContains(NO_FLY_ZONE, c)
  {
    ZoneInhabitedIff(NO_FLY_ZONE);
  }

  /** The no-fly-zone check: with the bounds as written it never flags a drone. */
  function IsDroneInNoFlyZone(telemetry: Option<DroneTelemetry>): (r: bool)
    ensures !IsValidDroneTelemetry(telemetry) ==> !r
    ensures !r
  {
    IsDroneInZone(NO_FLY_ZONE, telemetry)
  }
}
