/**
 * The simulator property snapshot (`SimProperties`) and how the BlueSky
 * adapter builds it from one SIMINFO telemetry sample plus the state the
 * adapter tracks itself.
 */
module Props {
  import opened Wrappers

  /** Agent mode drives the simulator step by step; Sandbox mode lets it run freely. */
  datatype SimMode = Sandbox | Agent

  datatype SimState = Init | Run | Hold | End

  /** A sector: the airspace a scenario is played in, identified by its name. */
  datatype Sector = Sector(name: string)

  /** A scenario: a name and its content, here the lines of its serialised form. */
  datatype Scenario = Scenario(name: string, content: seq<string>)

  /**
   * One sample of BlueSky's SIMINFO stream, its seven fields in the order the
   * stream sends them: speed, dt, elapsed simulation time, UTC date-time text,
   * number of aircraft, state code, name of the running scenario.
   */
  datatype SimInfo = SimInfo(
    speed: real,
    dt: real,
    simTime: real,
    utcDatetime: string,
    aircraftCount: int,
    stateCode: int,
    scenarioName: string)

  /** The snapshot returned by `properties`; the UTC date-time is carried as its text. */
  datatype SimProperties = SimProperties(
    dt: real,
    scenarioName: Option<string>,
    scenarioTime: real,
    sectorName: Option<string>,
    seed: Option<int>,
    speed: real,
    state: SimState,
    utcDatetime: string)

  /** What the adapter keeps because BlueSky does not report it. */
  datatype Tracked = Tracked(
    dtMult: real,
    sectorName: Option<string>,
    scenarioName: Option<string>,
    seed: Option<int>)

  /** The tracked state of a freshly built adapter. */
  const InitialTracked := Tracked(1.0, None, None, None)

  /** Why no snapshot can be built: no telemetry yet, or a state code BlueSky does not define. */
  datatype PropertiesError = NoTelemetry | UnknownState(code: int)

  /** BlueSky's numbering of its run states (INIT, HOLD, OP, END); OP is the running state. */
  function StateCode(s: SimState): int
  {
    match s
    case Init => 0
    case Hold => 1
    case Run => 2
    case End => 3
  }

  /** Reads a telemetry state code. */
  function StateFromCode(code: int): (r: Option<SimState>)
    ensures r.Some? <==> 0 <= code <= 3
    ensures r.Some? ==> StateCode(r.value) == code
  {
    if code == 0 then Some(Init)
    else if code == 1 then Some(Hold)
    else if code == 2 then Some(Run)
    else if code == 3 then Some(End)
    else None
  }

  /**
   * Python's round(x, 2) on the exact value: the nearest multiple of 0.01,
   * a tie going to the even multiple.
   */
  function RoundHundredths(x: real): (r: real)
    ensures (r * 100.0).Floor as real == r * 100.0
    ensures -0.005 <= r - x <= 0.005
  {
    var y := x * 100.0;
    var f := y.Floor;
    var frac := y - f as real;
    var k := if frac < 0.5 then f
             else if frac > 0.5 then f + 1
             else if f % 2 == 0 then f
             else f + 1;
    k as real / 100.0
  }

  /** The one mode-dependent field: Agent mode reports the tracked multiplier, Sandbox the telemetry speed. */
  function ReportedSpeed(sample: SimInfo, tracked: Tracked, mode: SimMode): (r: real)
    ensures mode == Agent ==> r == tracked.dtMult
    ensures mode == Sandbox ==> (r * 100.0).Floor as real == r * 100.0 && -0.005 <= r - sample.speed <= 0.005
  {
    match mode
    case Agent => tracked.dtMult
    case Sandbox => RoundHundredths(sample.speed)
  }

  /** `properties`: the snapshot built from the latest sample and the tracked state. */
  function Snapshot(sample: Option<SimInfo>, tracked: Tracked, mode: SimMode): (r: Result<SimProperties, PropertiesError>)
    ensures sample.None? ==> r == Failure(NoTelemetry)
    ensures sample.Some? ==> (r.Success? <==> 0 <= sample.value.stateCode <= 3)
    ensures r.Success? ==> StateCode(r.value.state) == sample.value.stateCode
  {
    match sample
    case None => Failure(NoTelemetry)
    case Some(info) =>
      match StateFromCode(info.stateCode)
      case None => Failure(UnknownState(info.stateCode))
      case Some(state) =>
        Success(SimProperties(
          dt := info.dt,
          scenarioName := tracked.scenarioName,
          scenarioTime := info.simTime,
          sectorName := tracked.sectorName,
          seed := tracked.seed,
          speed := ReportedSpeed(info, tracked, mode),
          state := state,
          utcDatetime := info.utcDatetime))
  }

  // ---------------------------------------------------------------------------
  // Lemmas

  /** StateFromCode reads back every code StateCode writes, and nothing else. */
  lemma StateCodeRoundTrip(s: SimState, code: int)
    ensures StateFromCode(StateCode(s)) == Some(s)
    ensures StateFromCode(code) == Some(s) <==> StateCode(s) == code
  {
  }

  /** round(x, 2) is the multiple of 0.01 nearest to x. */
  lemma RoundHundredthsNearest(x: real, k: int)
    ensures var r := RoundHundredths(x);
      (r - x) * (r - x) <= (k as real / 100.0 - x) * (k as real / 100.0 - x)
  {
    var r := RoundHundredths(x);
    var y := x * 100.0;
    var kr := (r * 100.0).Floor;
    assert kr as real == r * 100.0;
    // Scaled by 100: |kr - y| <= 1/2 and every other integer is at least as far.
    assert -0.5 <= kr as real - y <= 0.5;
    if k < kr {
      SquareMonotone(kr as real - y, k as real - y);
    } else if k > kr {
      SquareMonotone(kr as real - y, k as real - y);
    }
    assert r - x == (kr as real - y) / 100.0;
    assert k as real / 100.0 - x == (k as real - y) / 100.0;
  }

  lemma SquareMonotone(a: real, b: real)
    requires -0.5 <= a <= 0.5
    requires b <= -0.5 || b >= 0.5
    ensures a * a <= b * b
  {
    var pa := if a < 0.0 then -a else a;
    var pb := if b < 0.0 then -b else b;
    assert a * a == pa * pa && b * b == pb * pb;
    assert pa * pa <= pa * pb;
    assert pa * pb <= pb * pb;
  }

  /** A value already on the hundredths grid is left alone, so rounding twice is rounding once. */
  lemma RoundHundredthsIdempotent(x: real)
    ensures RoundHundredths(RoundHundredths(x)) == RoundHundredths(x)
  {
    var r := RoundHundredths(x);
    var k := (r * 100.0).Floor;
    assert (r * 100.0).Floor == k;
    assert RoundHundredths(r) * 100.0 == k as real;
  }

  /**
   * With a sample whose state code is known, the snapshot copies dt, elapsed
   * time, date-time and state from the sample, and scenario name, sector name
   * and seed from the tracked state; field 6 of the sample (the scenario name
   * BlueSky reports) and the aircraft count are not used.
   */
  lemma SnapshotFields(info: SimInfo, tracked: Tracked, mode: SimMode, otherName: string, otherCount: int)
    requires 0 <= info.stateCode <= 3
    ensures var r := Snapshot(Some(info), tracked, mode);
      && r.Success?
      && r.value.dt == info.dt
      && r.value.scenarioTime == info.simTime
      && r.value.utcDatetime == info.utcDatetime
      && Some(r.value.state) == StateFromCode(info.stateCode)
      && r.value.scenarioName == tracked.scenarioName
      && r.value.sectorName == tracked.sectorName
      && r.value.seed == tracked.seed
    ensures Snapshot(Some(info.(scenarioName := otherName, aircraftCount := otherCount)), tracked, mode)
      == Snapshot(Some(info), tracked, mode)
  {
  }

  /**
   * In Agent mode the reported speed is the tracked multiplier, whatever speed
   * the sample carries.
   */
  lemma AgentSpeedIsTracked(info: SimInfo, tracked: Tracked, otherSpeed: real)
    requires 0 <= info.stateCode <= 3
    ensures Snapshot(Some(info), tracked, Agent).Success?
    ensures Snapshot(Some(info), tracked, Agent).value.speed == tracked.dtMult
    ensures Snapshot(Some(info.(speed := otherSpeed)), tracked, Agent) == Snapshot(Some(info), tracked, Agent)
  {
  }

  /**
   * In Sandbox mode the reported speed is the sample's speed rounded to two
   * decimals, whatever multiplier the adapter tracks.
   */
  lemma SandboxSpeedIsTelemetry(info: SimInfo, tracked: Tracked, otherMult: real)
    requires 0 <= info.stateCode <= 3
    ensures Snapshot(Some(info), tracked, Sandbox).Success?
    ensures Snapshot(Some(info), tracked, Sandbox).value.speed == RoundHundredths(info.speed)
    ensures Snapshot(Some(info), tracked.(dtMult := otherMult), Sandbox) == Snapshot(Some(info), tracked, Sandbox)
  {
  }

  /** The telemetry sample the unit tests use: speed 1.123, dt 0.05, 1234 s, state code 2. */
  const TestSample := SimInfo(1.123, 0.05, 1234.0, "2020-01-02 12:34:56", 4, 2, "test-scenario")

  lemma RoundsTestSpeed()
    ensures RoundHundredths(1.123) == 1.12
  {
    assert (1.123 * 100.0).Floor == 112;
  }

  /**
   * The test's expected snapshots of a fresh adapter: speed 1.0 in Agent mode
   * and 1.12 in Sandbox mode, state RUN, no scenario, sector or seed.
   */
  lemma TestSampleSnapshots()
    ensures Snapshot(Some(TestSample), InitialTracked, Agent)
      == Success(SimProperties(0.05, None, 1234.0, None, None, 1.0, Run, "2020-01-02 12:34:56"))
    ensures Snapshot(Some(TestSample), InitialTracked, Sandbox)
      == Success(SimProperties(0.05, None, 1234.0, None, None, 1.12, Run, "2020-01-02 12:34:56"))
  {
    RoundsTestSpeed();
  }
}
