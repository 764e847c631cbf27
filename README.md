# BlueSky simulator controls

A Dafny model of `BlueSkySimulatorControls` from BlueBird. This is the adapter that sits between BlueBird's
simulator-level operations and a BlueSky client. It does five jobs:

- It sends the lifecycle commands `start`, `pause`, `resume` and `stop` as the stack commands `OP`, `HOLD`, `OP` and `STOP`.
- It passes `step` and `reset` straight to the client.
- A speed change (`DTMULT`) or seed change (`SEED`) succeeds only when BlueSky's reply confirms it.
- A scenario is loaded only after a sector. The load runs three steps in order (translate, upload, load) and stops at the first error.
- It tracks what BlueSky does not report: the speed multiplier, the loaded sector and scenario, and the seed. It combines these with the latest SIMINFO telemetry sample in the `properties` snapshot. In Agent mode the snapshot's speed is the tracked multiplier. In Sandbox mode it is the telemetry speed rounded to two decimals.

The adapter's implementation file is not part of this model. The model follows the behaviour that
`tests/unit/sim_client/bluesky/bluesky_simulator_controls_test.py` asserts for it. Where the tests say
nothing, the model makes the choices listed after the table below (for example, a reset clears the
tracked state whatever its result and keeps the seed).

Files:

- `wrappers.dfy`: `Option` and `Result`.
- `text.dfy` (module `Text`): the decimal text Python's `str()` gives for the numbers sent in `DTMULT` and `SEED`. It also has parsers that read those texts back, with round-trip lemmas.
- `properties.dfy` (module `Props`): `SimInfo` (the seven SIMINFO fields), `SimProperties`, rounding to hundredths and the `properties` snapshot.
- `client.dfy` (module `BlueSkyClient`): the client's side of the interface as a class. Each kind of request answers with the reply held in a field, as the tests' mock does, so every contract holds for every reply. The ghost field `calls` logs every request together with the reply or result the client gave for it.
- `controls.dfy` (module `SimulatorControls`): the adapter as a class, plus the pure functions and lemmas it is specified with. Its invariant `Valid()` ties the tracked multiplier, seed and scenario to functions of the requests made since the adapter was built:
  - `MultiplierAfter`: 1 after a reset request, otherwise the last confirmed `DTMULT` value.
  - `SeedAfter`: the last confirmed `SEED` value.
  - `ScenarioAfter`: the name in the last load request that reported no error, unless a reset request came after it.

  `MultiplierAfter` and `SeedAfter` read the value back from the command text; `ScenarioAfter` takes the name the load request carried. A reset request counts as a reset whatever result the client reported for it: the adapter forgets its multiplier and scenario on every reset, and these functions take BlueSky to have done the same. Under that assumption the invariant says that the adapter's tracked state is the state the simulator was put in.
- `scenarios.dfy` (module `ControlsScenarios`): the unit tests' sequences, replayed against the model with the tests' assertions.

## Model

| member | source | states |
|---|---|---|
| SimulatorControls.BlueSkySimulatorControls.constructor | tests/unit/sim_client/bluesky/bluesky_simulator_controls_test.py:52-53 | A new adapter tracks multiplier 1 and no sector, scenario or seed, and its invariant holds. |
| SimulatorControls.BlueSkySimulatorControls.Properties | tests/unit/sim_client/bluesky/bluesky_simulator_controls_test.py:55-90 | With no telemetry sample the result is an error. Sector name, scenario name and seed come from the tracked state. Agent-mode speed is the tracked multiplier, which under the invariant is the multiplier the simulator was last set to. Sandbox-mode speed is the sample's speed rounded to 0.01. |
| Props.ReportedSpeed | tests/unit/sim_client/bluesky/bluesky_simulator_controls_test.py:60-90 | Agent mode reports the tracked multiplier; Sandbox mode reports a multiple of 0.01 within 0.005 of the telemetry speed. |
| Props.Snapshot | tests/unit/sim_client/bluesky/bluesky_simulator_controls_test.py:55-90 | There is no snapshot without a sample, and none for an unknown state code. Otherwise the snapshot's state is the one the sample's code names. |
| Props.SnapshotFields | tests/unit/sim_client/bluesky/bluesky_simulator_controls_test.py:21-29 | dt, elapsed time, date-time and state are copied from sample fields 1, 2, 3 and 5. Scenario name, sector name and seed are copied from the tracked state. Sample field 6 (BlueSky's scenario name) and field 4 (aircraft count) do not affect the snapshot. |
| Props.AgentSpeedIsTracked | tests/unit/sim_client/bluesky/bluesky_simulator_controls_test.py:60-74 | In Agent mode the speed is the tracked multiplier, whatever speed the sample reports. |
| Props.SandboxSpeedIsTelemetry | tests/unit/sim_client/bluesky/bluesky_simulator_controls_test.py:76-90 | In Sandbox mode the speed is the sample's speed rounded to two decimals, whatever multiplier is tracked. |
| Props.TestSampleSnapshots | tests/unit/sim_client/bluesky/bluesky_simulator_controls_test.py:60-90 | For the tests' sample, a fresh adapter's snapshot has speed 1.0 in Agent mode and 1.12 in Sandbox mode. In both it has state RUN, dt 0.05, time 1234, and no scenario, sector or seed. |
| Props.RoundHundredths | tests/unit/sim_client/bluesky/bluesky_simulator_controls_test.py:87 | The result is a multiple of 0.01 within 0.005 of the input. |
| Props.RoundHundredthsNearest | tests/unit/sim_client/bluesky/bluesky_simulator_controls_test.py:87 | No multiple of 0.01 is closer to the input than the rounded value. |
| Props.RoundHundredthsIdempotent | tests/unit/sim_client/bluesky/bluesky_simulator_controls_test.py:87 | Rounding an already rounded speed changes nothing. |
| Props.RoundsTestSpeed | tests/unit/sim_client/bluesky/bluesky_simulator_controls_test.py:22 | 1.123 rounds to 1.12. |
| Props.StateFromCode | tests/unit/sim_client/bluesky/bluesky_simulator_controls_test.py:27 | A code reads as a state exactly when it is in 0..3, and then as the state whose code it is. |
| Props.StateCodeRoundTrip | tests/unit/sim_client/bluesky/bluesky_simulator_controls_test.py:72 | Reading codes inverts BlueSky's state numbering. In particular code 2 is RUN. |
| SimulatorControls.BlueSkySimulatorControls.LoadSector | tests/unit/sim_client/bluesky/bluesky_simulator_controls_test.py:107 | Loading a sector returns no error and records the sector. |
| SimulatorControls.BlueSkySimulatorControls.LoadScenario | tests/unit/sim_client/bluesky/bluesky_simulator_controls_test.py:99-129 | Requires a loaded sector. The returned error and the requests made (upload, then load) follow `LoadScenarioOutcome` and `LoadScenarioCalls`. The scenario becomes the loaded one only on success. |
| SimulatorControls.BlueSkySimulatorControls.UploadAndLoad | tests/unit/sim_client/bluesky/bluesky_simulator_controls_test.py:112-129 | The upload and load steps once translation has succeeded, with a sector loaded: the upload's error, else the load's, is returned; the load is requested only after a successful upload; the scenario becomes the loaded one only when both succeed. |
| SimulatorControls.BlueSkySimulatorControls.LoadUploaded | tests/unit/sim_client/bluesky/bluesky_simulator_controls_test.py:118-129 | With a sector loaded, the load step makes exactly one load request and returns its result unchanged; the scenario becomes the loaded one exactly when that result is no error. |
| SimulatorControls.LoadScenarioOutcome | tests/unit/sim_client/bluesky/bluesky_simulator_controls_test.py:105-129 | A translation failure gives an error starting "Could not parse a BlueSky scenario". Otherwise an upload error is returned unchanged. Otherwise the load step's result is returned unchanged. |
| SimulatorControls.LoadScenarioCalls | tests/unit/sim_client/bluesky/bluesky_simulator_controls_test.py:105-129 | A translation failure makes no request. An upload error stops before the load request. Otherwise the upload of the translated content comes first and the load follows it. |
| SimulatorControls.LoadScenarioSucceedsIff | tests/unit/sim_client/bluesky/bluesky_simulator_controls_test.py:125-129 | `load_scenario` returns no error exactly when translation, upload and load all succeed. |
| SimulatorControls.UploadErrorIgnoresLoad | tests/unit/sim_client/bluesky/bluesky_simulator_controls_test.py:112-116 | After an upload error the load step is not requested, for any scenario name, and its result does not matter. |
| SimulatorControls.BlueSkySimulatorControls.Start | tests/unit/sim_client/bluesky/bluesky_simulator_controls_test.py:132-146 | Exactly one request is made: the stack command `OP`. The client's error is returned unchanged, and none is returned when the client gives none. |
| SimulatorControls.BlueSkySimulatorControls.Pause | tests/unit/sim_client/bluesky/bluesky_simulator_controls_test.py:166-180 | Exactly one request is made: the stack command `HOLD`. The client's error is returned unchanged. |
| SimulatorControls.BlueSkySimulatorControls.Resume | tests/unit/sim_client/bluesky/bluesky_simulator_controls_test.py:183-197 | Exactly one request is made: the stack command `OP`. The client's error is returned unchanged. |
| SimulatorControls.BlueSkySimulatorControls.Stop | tests/unit/sim_client/bluesky/bluesky_simulator_controls_test.py:200-214 | Exactly one request is made: the stack command `STOP`. The client's error is returned unchanged. |
| SimulatorControls.BlueSkySimulatorControls.Step | tests/unit/sim_client/bluesky/bluesky_simulator_controls_test.py:217-231 | Exactly one request is made: the client's step. Its error is returned unchanged. |
| SimulatorControls.BlueSkySimulatorControls.Reset | tests/unit/sim_client/bluesky/bluesky_simulator_controls_test.py:149-163 | Exactly one request is made: the client's reset. Its error is returned unchanged. The multiplier becomes 1 and the sector and scenario are forgotten. |
| SimulatorControls.BlueSkySimulatorControls.SetSpeed | tests/unit/sim_client/bluesky/bluesky_simulator_controls_test.py:234-251 | Exactly one request is made: `DTMULT <m>`, expecting a response. There is no error exactly when the reply lines hold `Speed set to <m>`, and then the tracked multiplier becomes m. Otherwise the error is the no-confirmation message. |
| SimulatorControls.BlueSkySimulatorControls.SetSeed | tests/unit/sim_client/bluesky/bluesky_simulator_controls_test.py:254-271 | Exactly one request is made: `SEED <s>`, expecting a response. There is no error exactly when the reply lines hold `Seed set to <s>`, and then the tracked seed becomes s. Otherwise the error is the no-confirmation message. |
| SimulatorControls.SpeedCommand | tests/unit/sim_client/bluesky/bluesky_simulator_controls_test.py:249-251 | The speed command starts with `DTMULT ` and the rest of it reads back as exactly the multiplier sent. |
| SimulatorControls.SeedCommand | tests/unit/sim_client/bluesky/bluesky_simulator_controls_test.py:269-271 | The seed command starts with `SEED ` and the rest of it reads back as exactly the seed sent. |
| SimulatorControls.ConfirmationNamesTheValue | tests/unit/sim_client/bluesky/bluesky_simulator_controls_test.py:244-248 | `Confirms`: a reply confirms a speed when the line `Speed set to <m>` stands anywhere among its lines. A reply whose only `Speed set to` lines name m (the one-line reply `Speed set to <m>`, for one) confirms no other multiplier; a reply holding lines for several values confirms each of them. |
| SimulatorControls.NoConfirmation | tests/unit/sim_client/bluesky/bluesky_simulator_controls_test.py:240-242 | The no-confirmation error is the prefix `No confirmation received from BlueSky. Received: "`, then the raw reply's text, then a closing quote; the raw text can be cut back out of it. |
| SimulatorControls.ReplyText | tests/unit/sim_client/bluesky/bluesky_simulator_controls_test.py:240-242 | Python's `str()` of the reply: an error string verbatim, `None` for no reply, and a list of lines inside brackets, whose text starts and ends with a quote when there are lines. |
| SimulatorControls.QuotedList | tests/unit/sim_client/bluesky/bluesky_simulator_controls_test.py:240-246 | The body of a list's `str()`: empty exactly for no lines, otherwise it starts and ends with a quote and has at least 4n - 2 characters for n lines (two quotes per line, a two-character separator between lines). |
| SimulatorControls.ConfirmationOutcome | tests/unit/sim_client/bluesky/bluesky_simulator_controls_test.py:240-242 | There is no error exactly when the reply confirms. Otherwise the error starts with `No confirmation received from BlueSky. Received: "`. |
| SimulatorControls.RejectedIsUnconfirmed | tests/unit/sim_client/bluesky/bluesky_simulator_controls_test.py:240-242 | A rejection never confirms. The error quotes it: `No confirmation received from BlueSky. Received: "<rejection>"`. |
| SimulatorControls.SpeedSetBySpeedCommand | tests/unit/sim_client/bluesky/bluesky_simulator_controls_test.py:244-251 | A `DTMULT <m>` request sets the multiplier to exactly m when confirmed, sets nothing when not, and never sets the seed. |
| SimulatorControls.SeedSetBySeedCommand | tests/unit/sim_client/bluesky/bluesky_simulator_controls_test.py:264-271 | A `SEED <s>` request sets the seed to exactly s when confirmed, sets nothing when not, and never sets the multiplier. |
| SimulatorControls.AfterSpeedCommand | tests/unit/sim_client/bluesky/bluesky_simulator_controls_test.py:274-293 | After a speed change the simulator's multiplier is the new value if confirmed, and unchanged if not. Seed and scenario are unchanged. |
| SimulatorControls.AfterSeedCommand | tests/unit/sim_client/bluesky/bluesky_simulator_controls_test.py:254-271 | After a seed change the seed is the new value if confirmed. Multiplier and scenario are unchanged. |
| SimulatorControls.AfterReset | tests/unit/sim_client/bluesky/bluesky_simulator_controls_test.py:295-304 | After a reset request the multiplier is 1 and no scenario is loaded. A reset is taken to restore BlueSky's multiplier whatever result the client reported (the test's own note says BlueSky sets it to 1 after a reset); the seed is unchanged. |
| SimulatorControls.AfterLoad | tests/unit/sim_client/bluesky/bluesky_simulator_controls_test.py:125-129 | A load without error makes that scenario the loaded one. Multiplier and seed are unchanged. |
| SimulatorControls.AfterUnrelated | tests/unit/sim_client/bluesky/bluesky_simulator_controls_test.py:132-231 | Lifecycle commands, steps, uploads and failed loads change none of the tracked values. `SendUnrelated`, which sends the lifecycle commands, accepts only `OP`, `HOLD` and `STOP`. |
| Text.IntToString | tests/unit/sim_client/bluesky/bluesky_simulator_controls_test.py:264-271 | Python's `str()` of a seed: a minus sign exactly when negative, then a non-empty run of digits whose value is the magnitude. |
| Text.DecimalText | tests/unit/sim_client/bluesky/bluesky_simulator_controls_test.py:244-251 | Python's `str()` of a multiplier: a minus sign exactly when negative and, when it has decimal places, a point followed by exactly that many characters. |
| SimulatorControls.MultiplierComesFromHistory | tests/unit/sim_client/bluesky/bluesky_simulator_controls_test.py:274-304 | `MultiplierAfter`: the simulator's multiplier is 1 or a value that some confirmed `DTMULT` in the history set. |
| SimulatorControls.SeedComesFromHistory | tests/unit/sim_client/bluesky/bluesky_simulator_controls_test.py:254-271 | `SeedAfter`: there is a seed exactly when some `SEED` in the history was confirmed, and it is the value one of them set. |
| SimulatorControls.ScenarioComesFromHistory | tests/unit/sim_client/bluesky/bluesky_simulator_controls_test.py:99-129 | `ScenarioAfter`: a loaded scenario is the name of some load request in the history that reported no error. |
| Text.IntToStringRoundTrip | tests/unit/sim_client/bluesky/bluesky_simulator_controls_test.py:268-271 | The seed's text in `SEED <s>` reads back as s. |
| Text.DecimalRoundTrip | tests/unit/sim_client/bluesky/bluesky_simulator_controls_test.py:244-251 | The multiplier's text in `DTMULT <m>` reads back as m, with the same digits and places. |
| Text.DecimalTextInjective | tests/unit/sim_client/bluesky/bluesky_simulator_controls_test.py:249-251 | Two different multipliers never produce the same `DTMULT` command. |
| ControlsScenarios.TenPointOneText | tests/unit/sim_client/bluesky/bluesky_simulator_controls_test.py:244-251 | The multiplier 10.1 is written `10.1`, so its command is `DTMULT 10.1`. |
| ControlsScenarios.FourText | tests/unit/sim_client/bluesky/bluesky_simulator_controls_test.py:281-285 | The integer multiplier 4 is written `4`, so its command is `DTMULT 4`. |
| ControlsScenarios.SeedTexts | tests/unit/sim_client/bluesky/bluesky_simulator_controls_test.py:260-271 | The seeds 4444 and 0 give the commands `SEED 4444` and `SEED 0`. |
| ControlsScenarios.ErrorReplyText | tests/unit/sim_client/bluesky/bluesky_simulator_controls_test.py:240-242 | A change rejected with the error `Error` fails with exactly `No confirmation received from BlueSky. Received: "Error"`. |
| ControlsScenarios.ConfirmationTexts | tests/unit/sim_client/bluesky/bluesky_simulator_controls_test.py:244-251 | The tests' replies `Speed set to 10.1` and `Seed set to 4444` confirm the changes to 10.1 and 4444. |

The methods of `ControlsScenarios` have no contract or only the one a caller in the same module needs.
Each replays one test function, or one part of it, and verifies its assertions: for example
`DtMultHandlingTest` replays `test_dt_mult_handling`, and `SetSpeedRejectedTest` and
`SetSpeedConfirmedTest` replay the two halves of `test_set_speed`.

Where the tests say nothing, the model makes the following choices:

- `reset` puts the tracked state back to its initial values (multiplier 1, no sector, no scenario) whether or not the client reports an error. It does not clear the seed.
- `load_sector` makes no request and returns no error. The test asserts only `not load_sector(...)` against a mock client; since any value the mock returned would be truthy, the adapter does not return a client result, and making no request at all is this model's choice.
- A speed or seed change counts as confirmed when the reply lines contain the phrase followed by the value as it was sent (`Speed set to 10.1`).
- A successful `set_seed` records the seed that `properties` reports.
- State codes follow BlueSky's numbering INIT 0, HOLD 1, OP 2, END 3. The tests show only 2 → RUN. Any other code makes `properties` fail.

## Left out

- The adapter's implementation file is not part of this model. The behaviour comes from the unit test's assertions, completed by the choices listed above.
- Translating a scenario into BlueSky's stack commands, which needs the sector's geometry, is foreign code. `LoadScenario` takes the translation as a function argument, and the model knows a sector only by its name.
- The mode setting (`Settings.SIM_MODE`, `in_agent_mode`) is global state in the source. Here it is an explicit argument of `Properties`.
- Parsing the UTC date-time is left out. The snapshot carries the telemetry's date-time text unchanged.
- Telemetry arrives asynchronously in the source. Here it is the client field `simInfo`, set between calls.
- Props.RoundHundredths: rounds the exact real value with ties to even. It does not model the binary floating-point representation that Python's `round` sees.
- Text.DecimalText: a float multiplier is a `Decimal` that carries the digits Python prints. Choosing Python's shortest representation of a binary float is not modelled.
- SimulatorControls.ReplyText: Python's `str()` of a list of reply lines is modelled without escaping the quote characters inside a line.
- SimulatorControls.MultiplierAfter: takes BlueSky's multiplier to be set only by a confirmed `DTMULT` and a reset, and takes every reset request to reset it, even one for which the client reported an error. Any effect that loading a scenario might have on it is not modelled.
- SimulatorControls.ScenarioAfter: likewise takes every reset request, whatever its result, to unload the scenario.
- The check that the adapter implements every abstract method of `AbstractSimulatorControls` (the first test) is a Python class-hierarchy fact with no counterpart here.
- Connecting, timers, shutdown, logging and the REST layer are outside the adapter and are left out.
