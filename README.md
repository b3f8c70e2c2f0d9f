# Drone telemetry validation and geofence, modelled in Dafny

The dashboard receives a batch of drone telemetry records from a mock data
source and marks each drone that lies inside a fixed rectangular no-fly zone.
This project models the logic under that view:

- the status enumeration `IDLE | MOVING | JAMMED` and its schema;
- the coordinate and telemetry schemas, as the list of issues their parser
  reports (a record conforms exactly when the list is empty);
- the two validators, `isValidCoordinates` and `isValidDroneTelemetry`,
  which return `false` rather than fail;
- the no-fly-zone constant and check, in both the current copy
  (`src/lib/droneUtils.ts`) and the older copy (`lib/droneUtils.ts`);
- the six-record sample batch and the decision the fetch makes: simulated
  failure, success with the whole batch, or rejection of the whole batch.

Modules: `Wrappers` (`Option`, `Result`), `Telemetry` (the record types both
copies declare, and the rectangle test), `DroneUtils` (the current copy),
`LegacyDroneUtils` (the older copy) and `Api` (the array schema, the sample
batch and the fetch decision).

Encoding: numbers are `real`; a `null` or `undefined` record and an absent
`coordinates` object are `None`; the random draw of the fetch (`Math.random()`)
is the parameter `random` of `Api.FetchTelemetryData` and `Api.Resolve`, so
the 5% failure chance becomes the test `random < 0.05`.

What the proofs establish, in short:

- A record is valid exactly when it conforms to the schema and its signal
  strength is non-negative. So validity implies conformance, and the converse
  fails exactly on negative signal strength.
- The no-fly-zone rectangle has its south bound (50.5) above its north bound
  (10.5) and its west bound (40.5) east of its east bound (30.5). A rectangle
  contains a point only when both pairs of bounds are ordered. So both copies
  of `isDroneInNoFlyZone` return `false` on every input, and the two copies
  agree everywhere.
- All six sample records conform to the schema. All six have negative signal
  strength, so the validator refuses each one and none is flagged.
- The fetch either fails with the simulated error, returns all six records
  in order, or rejects the whole batch with every schema issue. It never
  returns part of the batch.

- Signal strength is in decibels (src/lib/droneUtils.ts:30) and every sample
  value is negative, yet `isValidDroneTelemetry` rejects negative values
  (src/lib/droneUtils.ts:57). So it refuses all six sample records, although
  src/lib/api.ts:4 says they conform to the schema, which they do.
  `Api.MockDataNeverValid` proves this.
- The JSDoc calls `id` a unique identifier (src/lib/droneUtils.ts:26). The
  schema accepts any string (`z.string()`, line 38), and so does the model.

The no-fly-zone bounds are kept exactly as written. The model does not
correct them.

## Model

| member | source | states |
|---|---|---|
| `DroneUtils.ParseStatus` | src/lib/droneUtils.ts:8 | the status schema accepts exactly the strings "IDLE", "MOVING" and "JAMMED", and the status it yields is written as the accepted string (`DroneUtils.StatusName`) |
| `DroneUtils.ParseStatusName` | src/lib/droneUtils.ts:8-9 | parsing any status's own literal gives that status back |
| `DroneUtils.RangeIssues` | src/lib/droneUtils.ts:18-19 | a number with a minimum and a maximum check has no issue iff it lies in the inclusive range; "too small" is reported iff it is below the minimum, "too big" iff above the maximum |
| `DroneUtils.NonNegativeIssues` | src/lib/droneUtils.ts:40-43 | a non-negative number has no issue iff it is at least 0; otherwise exactly one "too small" issue |
| `DroneUtils.CoordinatesIssues` | src/lib/droneUtils.ts:17-20 | the coordinates key has no issue iff the object is present with latitude in [-90, 90] and longitude in [-180, 180]; a missing object is one "missing" issue |
| `DroneUtils.TelemetryIssues` | src/lib/droneUtils.ts:37-45 | a record passes the telemetry schema (the predicate `DroneUtils.ConformsToSchema`: no issue reported) iff its coordinates pass and altitude, speed and frequency are non-negative; each of those three is reported as too small exactly when it is negative |
| `DroneUtils.SchemaIgnoresSignalStrength` | src/lib/droneUtils.ts:42 | changing only the signal strength never changes the issues the schema reports |
| `DroneUtils.IsValidCoordinates` | src/lib/droneUtils.ts:66-69 | true iff latitude is in [-90, 90] and longitude in [-180, 180], inclusive; agrees exactly with the coordinates schema |
| `DroneUtils.CoordinateBoundsInclusive` | src/lib/droneUtils.ts:68 | the corner values ±90 and ±180 are accepted |
| `DroneUtils.IsValidDroneTelemetry` | src/lib/droneUtils.ts:53-59 | false for an absent record and for absent coordinates; true iff the coordinates are present and valid and altitude, speed, signal strength and frequency are all non-negative; equivalently iff the record conforms to the schema and its signal strength is non-negative |
| `DroneUtils.ValidImpliesConforms` | src/lib/droneUtils.ts:37-58 | every record the validator accepts conforms to the telemetry schema |
| `DroneUtils.ConformsButInvalidIff` | src/lib/droneUtils.ts:42-57 | a conforming record is refused by the validator iff its signal strength is negative |
| `DroneUtils.SchemaAdmitsInvalidRecord` | src/lib/droneUtils.ts:42-57 | some record conforms to the schema and is still refused by the validator |
| `DroneUtils.ValidityIgnoresIdAndStatus` | src/lib/droneUtils.ts:55-58 | changing a record's id or status never changes its validity |
| `Telemetry.ZoneInhabitedIff` | src/lib/droneUtils.ts:93-98 | the rectangle test `Telemetry.ZoneContains` (the four comparisons, shared by both copies) accepts some point iff south ≤ north and west ≤ east |
| `DroneUtils.IsDroneInZone` | src/lib/droneUtils.ts:89-98 | the geofence test flags only valid records and only in a well-ordered rectangle, and for a valid record it flags it iff the rectangle contains its coordinates |
| `DroneUtils.NoFlyZoneIsEmpty` | src/lib/droneUtils.ts:77-82 | the constant `DroneUtils.NO_FLY_ZONE`, with north 10.5, south 50.5, east 30.5 and west 40.5 the rectangle contains no point |
| `DroneUtils.IsDroneInNoFlyZone` | src/lib/droneUtils.ts:77-99 | false for every invalid or absent record and, with the bounds as written, false for every input |
| `LegacyDroneUtils.IsValidCoordinates` | lib/droneUtils.ts:59-62 | true iff both coordinates lie in their inclusive ranges |
| `LegacyDroneUtils.IsValidDroneTelemetry` | lib/droneUtils.ts:46-52 | false for an absent record, for absent or out-of-range coordinates, and for any negative altitude, speed, signal strength or frequency; true iff the record conforms to the current copy's schema (`DroneUtils.ConformsToSchema`) and its signal strength is non-negative |
| `LegacyDroneUtils.IsDroneInNoFlyZone` | lib/droneUtils.ts:70-92 | false whenever validation fails and, with north 10.5 below south 50.5, false for every input |
| `LegacyDroneUtils.AgreesWithCurrentCopy` | lib/droneUtils.ts:46-92 | the older copy's coordinate validator, telemetry validator, zone constant `LegacyDroneUtils.NO_FLY_ZONE` (lib/droneUtils.ts:70-75) and no-fly-zone check equal the current copy's on every input |
| `Api.IssuesFrom` | src/lib/api.ts:83 | the array schema reports no issue for the elements from a position on iff every one of them conforms |
| `Api.IssueFromAt` | src/lib/api.ts:83 | every reported issue is tagged with the position of an element that has that issue |
| `Api.IssuesFromOrdered` | src/lib/api.ts:83 | issues are reported in element order |
| `Api.IssueFromReported` | src/lib/api.ts:83 | every issue of every element is reported, tagged with that element's position |
| `Api.ParseArrayFailure` | src/lib/api.ts:83 | the issues of a whole array are sound, ordered and complete at once |
| `Api.ParseArray` | src/lib/api.ts:83-89 | parsing succeeds iff every element conforms, and then returns the array unchanged; a failure carries a non-empty, ordered list of every issue of every element, each at a non-conforming position |
| `Api.ErrorMessage` | src/lib/api.ts:78-89 | the simulated failure's message is "Simulated API fetch error."; a validation failure's message starts with "Data validation failed: "; for a single issue it is that prefix followed by the issue's text, and with two or more issues it is the message for all but the last issue, then ", " and the last issue's text, so every issue's text appears in order with ", " between neighbours (each issue's text by `Api.IssueTexts`, joined by `Api.Join`) |
| `Api.JoinSnoc` | src/lib/api.ts:89 | joining one more part onto a non-empty list appends the separator and that part |
| `Api.Resolve` | src/lib/api.ts:74-93 | the outcome is the simulated error iff the draw is below 0.05; success iff the draw is at least 0.05 and every record conforms, and then the data is exactly the batch in order; otherwise the whole batch is rejected with a non-empty list of issues, each at a non-conforming record, in record order, containing every issue of every record |
| `Api.FetchTelemetryData` | src/lib/api.ts:70-96 | with the sample batch the fetch fails with the simulated error when the draw is below 0.05 and otherwise succeeds with exactly the six sample records |
| `Api.MockDataConforms` | src/lib/api.ts:4-60 | every sample record conforms to the telemetry schema |
| `Api.MockDataIds` | src/lib/api.ts:5-60 | the sample batch `Api.MockDronesData` has six records with ids alpha-001, bravo-002, charlie-003, delta-004, echo-005 and foxtrot-006, in this order, pairwise distinct |
| `Api.MockDataNeverValid` | src/lib/api.ts:5-60 | every sample record has negative signal strength, is refused by the validator and is not flagged by the no-fly-zone check |

## Left out

- The fetch's delay (`setTimeout`), its `Promise` plumbing and its console logging (src/lib/api.ts:71-94): these are asynchronous I/O. `Math.random()` is replaced by the `random` parameter.
- The "unknown error" branch (src/lib/api.ts:90-91): in the model the schema parser fails only with schema issues, so this branch cannot be reached.
- The exact wording of the schema library's issue messages (src/lib/api.ts:89): it belongs to the library and is the `describe` parameter of `Api.ErrorMessage`.
- The difference between a `null` and an `undefined` `coordinates` object: the schema library reports them with the same issue code but different messages, while the model has one absent value and one "missing" issue for both.
- IEEE-754 behaviour of JavaScript numbers (NaN, infinities, e.g. `NaN < 0` being false): numbers are `real`, so every comparison is exact.
- Records of the wrong shape at run time (a missing numeric field, a non-string id, an unknown status string inside a record): the record's types rule these out, as they do for the typed sample batch. The status schema on its own is modelled by `DroneUtils.ParseStatus`.
- The module privacy of the older copy's validators: Dafny modules here export everything.
- All React components, DOM bootstrap and the UI tests (`src/ui/…`, `ui/…`, `src/main.tsx`, `src/test/DroneDashboard.test.tsx`): they only present data, and the tests check nothing about validation. This includes the `toFixed(4)` formatting of coordinates.
