/**
 * The mock data source: a fixed batch of six records and the decision the
 * fetch makes once its delay has passed (fail at random, or parse the whole
 * batch against the telemetry schema and either return it or reject it).
 */
module Api {
  import opened Wrappers
  import opened Telemetry
  import opened DroneUtils

  /** The sample batch, in order. */
  const MockDronesData: seq<DroneTelemetry> := [
    DroneTelemetry("alpha-001", Some(Coordinates(34.025, -118.275)), 100.0, 10.0, -60.0, 2.4, Moving),
    DroneTelemetry("bravo-002", Some(Coordinates(37.7749, -122.4194)), 200.0, 25.0, -45.0, 5.8, Idle),
    DroneTelemetry("charlie-003", Some(Coordinates(36.1699, -115.1398)), 150.0, 0.0, -70.0, 2.4, Idle),
    DroneTelemetry("delta-004", Some(Coordinates(40.7128, -74.006)), 300.0, 40.0, -50.0, 5.8, Moving),
    DroneTelemetry("echo-005", Some(Coordinates(47.6062, -122.3321)), 120.0, 5.0, -65.0, 2.4, Jammed),
    DroneTelemetry("foxtrot-006", Some(Coordinates(25.7617, -80.1918)), 90.0, 15.0, -55.0, 5.0, Moving)
  ]

  /** A draw of the random source below this value simulates a failed fetch. */
  const SimulatedFailureRate: real := 0.05

  // ---------------------------------------------------------------------------
  // The array schema, over any element schema given by its issue function

  /** An issue of one element of an array, with that element's position. */
  datatype Located<I> = Located(index: nat, issue: I)

  /** The issues of the element at `index`, each tagged with that position. */
  function Tagged<I>(index: nat, issues: seq<I>): (r: seq<Located<I>>)
    ensures |r| == |issues|
    ensures forall k :: 0 <= k < |r| ==> r[k] == Located(index, issues[k])
  {
    seq(|issues|, k requires 0 <= k < |issues| => Located(index, issues[k]))
  }

  /**
   * The issues the array schema reports for the elements from `start` on:
   * each element's issues in turn, the array parser does not stop at the
   * first failing element. None are reported exactly when every such
   * element conforms.
   */
  function IssuesFrom<T, I>(element: T -> seq<I>, batch: seq<T>, start: nat): (r: seq<Located<I>>)
    requires start <= |batch|
    ensures r == [] <==> forall i :: start <= i < |batch| ==> element(batch[i]) == []
    decreases |batch| - start
  {
    if start == |batch| then []
    else Tagged(start, element(batch[start])) + IssuesFrom(element, batch, start + 1)
  }

  /** Every reported issue names an element at or after `start` that has that issue. */
  lemma {:induction false} IssueFromAt<T, I>(element: T -> seq<I>, batch: seq<T>, start: nat, k: nat)
    requires start <= |batch| && k < |IssuesFrom(element, batch, start)|
    ensures start <= IssuesFrom(element, batch, start)[k].index < |batch|
    ensures IssuesFrom(element, batch, start)[k].issue in
              element(batch[IssuesFrom(element, batch, start)[k].index])
    decreases |batch| - start
  {
    var first := Tagged(start, element(batch[start]));
    var rest := IssuesFrom(element, batch, start + 1);
    if k < |first| {
      assert IssuesFrom(element, batch, start)[k] == first[k];
    } else {
      IssueFromAt(element, batch, start + 1, k - |first|);
      assert IssuesFrom(element, batch, start)[k] == rest[k - |first|];
    }
  }

  /** Issues are reported in element order. */
  lemma {:induction false} IssuesFromOrdered<T, I>(element: T -> seq<I>, batch: seq<T>, start: nat, j: nat, k: nat)
    requires start <= |batch| && j < k < |IssuesFrom(element, batch, start)|
    ensures IssuesFrom(element, batch, start)[j].index <= IssuesFrom(element, batch, start)[k].index
    decreases |batch| - start
  {
    var first := Tagged(start, element(batch[start]));
    var rest := IssuesFrom(element, batch, start + 1);
    var r := IssuesFrom(element, batch, start);
    if k < |first| {
      assert r[j] == first[j] && r[k] == first[k];
    } else {
      IssueFromAt(element, batch, start + 1, k - |first|);
      assert r[k] == rest[k - |first|];
      if j < |first| {
        assert r[j] == first[j];
      } else {
        IssuesFromOrdered(element, batch, start + 1, j - |first|, k - |first|);
        assert r[j] == rest[j - |first|];
      }
    }
  }

  /** Every issue of every element at or after `start` is reported, with its position. */
  lemma {:induction false} IssueFromReported<T, I>(element: T -> seq<I>, batch: seq<T>, start: nat, i: nat, q: I)
    requires start <= i < |batch| && q in element(batch[i])
    ensures Located(i, q) in IssuesFrom(element, batch, start)
    decreases |batch| - start
  {
    var first := Tagged(start, element(batch[start]));
    var rest := IssuesFrom(element, batch, start + 1);
    assert IssuesFrom(element, batch, start) == first + rest;
    if i == start {
      var j :| 0 <= j < |element(batch[i])| && element(batch[i])[j] == q;
      assert first[j] == Located(i, q);
    } else {
      IssueFromReported(element, batch, start + 1, i, q);
    }
  }

  /**
   * Parsing an array: the array itself when every element conforms,
   * otherwise a failure carrying every issue of every element, in order,
   * each naming an element that does not conform. There is no partial result.
   */
  function ParseArray<T, I>(element: T -> seq<I>, batch: seq<T>): (r: Result<seq<T>, seq<Located<I>>>)
    ensures r.Success? <==> forall i :: 0 <= i < |batch| ==> element(batch[i]) == []
    ensures r.Success? ==> r.value == batch
    ensures r.Failure? ==>
              r.error != [] &&
              (forall k :: 0 <= k < |r.error| ==>
                 r.error[k].index < |batch| && r.error[k].issue in element(batch[r.error[k].index])) &&
              (forall j, k :: 0 <= j < k < |r.error| ==> r.error[j].index <= r.error[k].index) &&
              (forall i, q :: 0 <= i < |batch| && q in element(batch[i]) ==> Located(i, q) in r.error)
  {
    var issues := IssuesFrom(element, batch, 0);
    if issues == [] then Success(batch)
    else
      ParseArrayFailure(element, batch, issues);
      Failure(issues)
  }

  /** The three facts about a failed parse, for all positions at once. */
  lemma ParseArrayFailure<T, I>(element: T -> seq<I>, batch: seq<T>, r: seq<Located<I>>)
    requires r == IssuesFrom(element, batch, 0)
    ensures forall k :: 0 <= k < |r| ==> r[k].index < |batch| && r[k].issue in element(batch[r[k].index])
    ensures forall j, k :: 0 <= j < k < |r| ==> r[j].index <= r[k].index
    ensures forall i, q :: 0 <= i < |batch| && q in element(batch[i]) ==> Located(i, q) in r
  {
    forall k | 0 <= k < |r| ensures r[k].index < |batch| && r[k].issue in element(batch[r[k].index]) {
      IssueFromAt(element, batch, 0, k);
    }
    forall j, k | 0 <= j < k < |r| ensures r[j].index <= r[k].index {
      IssuesFromOrdered(element, batch, 0, j, k);
    }
    forall i, q | 0 <= i < |batch| && q in element(batch[i]) ensures Located(i, q) in r {
      IssueFromReported(element, batch, 0, i, q);
    }
  }

  /** Why a fetch was rejected. */
  datatype FetchError = SimulatedFetchError | DataValidationFailed(issues: seq<Located<Issue>>)

  /** The strings joined with a separator between neighbours. */
  function Join(parts: seq<string>, sep: string): string {
    if |parts| == 0 then ""
    else if |parts| == 1 then parts[0]
    else parts[0] + sep + Join(parts[1..], sep)
  }

  /** Joining one more part appends the separator and that part. */
  lemma {:induction false} JoinSnoc(parts: seq<string>, p: string, sep: string)
    requires |parts| >= 1
    ensures Join(parts + [p], sep) == Join(parts, sep) + sep + p
    decreases |parts|
  {
    if |parts| == 1 {
      assert parts + [p] == [parts[0], p];
      assert Join([p], sep) == p;
    } else {
      assert (parts + [p])[1..] == parts[1..] + [p];
      JoinSnoc(parts[1..], p, sep);
    }
  }

  /** The texts of the issues, one per issue, in order. */
  function IssueTexts(issues: seq<Located<Issue>>, describe: Issue -> string): (texts: seq<string>)
    ensures |texts| == |issues|
    ensures forall k :: 0 <= k < |issues| ==> texts[k] == describe(issues[k].issue)
  {
    seq(|issues|, k requires 0 <= k < |issues| => describe(issues[k].issue))
  }

  const ValidationFailedPrefix: string := "Data validation failed: "

  /**
   * The message of the rejection. The wording of each schema issue belongs
   * to the schema library and is passed in as `describe`.
   */
  function ErrorMessage(e: FetchError, describe: Issue -> string): (msg: string)
    ensures e == SimulatedFetchError ==> msg == "Simulated API fetch error."
    ensures e.DataValidationFailed? ==> ValidationFailedPrefix <= msg
    ensures e.DataValidationFailed? && |e.issues| == 1 ==>
              msg == ValidationFailedPrefix + describe(e.issues[0].issue)
    ensures e.DataValidationFailed? && |e.issues| >= 2 ==>
              msg == ErrorMessage(DataValidationFailed(e.issues[..|e.issues| - 1]), describe) +
                     ", " + describe(e.issues[|e.issues| - 1].issue)
    decreases if e.DataValidationFailed? then |e.issues| else 0
  {
    match e
    case SimulatedFetchError => "Simulated API fetch error."
    case DataValidationFailed(issues) =>
      if |issues| >= 2 then
        var n := |issues| - 1;
        assert IssueTexts(issues, describe) == IssueTexts(issues[..n], describe) + [describe(issues[n].issue)];
        JoinSnoc(IssueTexts(issues[..n], describe), describe(issues[n].issue), ", ");
        ValidationFailedPrefix + Join(IssueTexts(issues, describe), ", ")
      else
        ValidationFailedPrefix + Join(IssueTexts(issues, describe), ", ")
  }

  /**
   * The decision a fetch makes for a draw `random` of the random source and
   * a batch: a simulated failure with no data, or the whole batch, or a
   * validation failure naming only non-conforming records. There is no
   * partial result.
   */
  function Resolve(random: real, batch: seq<DroneTelemetry>): (r: Result<seq<DroneTelemetry>, FetchError>)
    ensures r == Failure(SimulatedFetchError) <==> random < SimulatedFailureRate
    ensures r.Success? <==>
              random >= SimulatedFailureRate &&
              forall i :: 0 <= i < |batch| ==> ConformsToSchema(batch[i])
    ensures r.Success? ==> r.value == batch
    ensures r.Failure? && r.error.DataValidationFailed? ==>
              r.error.issues != [] &&
              (forall k :: 0 <= k < |r.error.issues| ==>
                 r.error.issues[k].index < |batch| &&
                 !ConformsToSchema(batch[r.error.issues[k].index])) &&
              (forall j, k :: 0 <= j < k < |r.error.issues| ==>
                 r.error.issues[j].index <= r.error.issues[k].index) &&
              (forall i, q :: 0 <= i < |batch| && q in TelemetryIssues(batch[i]) ==>
                 Located(i, q) in r.error.issues)
  {
    if random < SimulatedFailureRate then Failure(SimulatedFetchError)
    else
      match ParseArray(TelemetryIssues, batch)
      case Success(data) => Success(data)
      case Failure(issues) => Failure(DataValidationFailed(issues))
  }

  /** Every sample record conforms to the telemetry schema. */
  lemma MockDataConforms()
    ensures forall i :: 0 <= i < |MockDronesData| ==> ConformsToSchema(MockDronesData[i])
  {
  }

  /**
   * The fetch of the sample batch: it fails only when the draw simulates a
   * failure, and otherwise returns the six records unchanged.
   */
  function FetchTelemetryData(random: real): (r: Result<seq<DroneTelemetry>, FetchError>)
    ensures random < SimulatedFailureRate ==> r == Failure(SimulatedFetchError)
    ensures random >= SimulatedFailureRate ==> r == Success(MockDronesData)
  {
    MockDataConforms();
    Resolve(random, MockDronesData)
  }

  /** The sample batch holds six records with the identifiers below, in this order, all distinct. */
  lemma MockDataIds()
    ensures |MockDronesData| == 6
    ensures MockDronesData[0].id == "alpha-001" && MockDronesData[1].id == "bravo-002"
    ensures MockDronesData[2].id == "charlie-003" && MockDronesData[3].id == "delta-004"
    ensures MockDronesData[4].id == "echo-005" && MockDronesData[5].id == "foxtrot-006"
    ensures forall i, j :: 0 <= i < j < |MockDronesData| ==> MockDronesData[i].id != MockDronesData[j].id
  {
  }

  /**
   * Every sample record reports a negative signal strength, so the validator
   * refuses each one and the no-fly-zone check flags none.
   */
  lemma MockDataNeverValid()
    ensures forall i :: 0 <= i < |MockDronesData| ==>
              MockDronesData[i].signalStrength < 0.0 &&
              !IsValidDroneTelemetry(Some(MockDronesData[i])) &&
              !IsDroneInNoFlyZone(Some(MockDronesData[i]))
  {
  }
}
