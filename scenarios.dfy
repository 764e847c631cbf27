/**
 * The unit-test sequences for BlueSkySimulatorControls, replayed against the
 * model: each method drives a fresh adapter over a client whose replies are
 * set as the test sets its mock's, and asserts what the test asserts.
 */
module ControlsScenarios {
  import opened Wrappers
  import opened Text
  import opened Props
  import opened BlueSkyClient
  import opened SimulatorControls

  /** The command texts of the tests, as the model writes them. */
  lemma TenPointOneText()
    ensures DecimalText(Decimal(101, 1)) == "10.1"
    ensures SpeedCommand(Decimal(101, 1)) == "DTMULT 10.1"
  {
    HundredOneDigits();
    assert Padded(101, 2) == "101";
    assert UnsignedDecimalText(101, 1) == WithPoint("101", 1) == "10" + "." + "1";
  }

  lemma HundredOneDigits()
    ensures NatToString(101) == "101"
  {
    assert NatToString(1) == "1";
    assert NatToString(10) == NatToString(1) + "0" == "10";
    assert NatToString(101) == NatToString(10) + "1";
  }

  lemma FourText()
    ensures DecimalText(Decimal(4, 0)) == "4"
    ensures SpeedCommand(Decimal(4, 0)) == "DTMULT 4"
    ensures Decimal(4, 0).Value() == 4.0
    ensures Confirms(Lines(["Speed set to 4"]), SpeedConfirmation + DecimalText(Decimal(4, 0)))
  {
    FourDigits();
    assert SpeedConfirmation + "4" == "Speed set to 4";
  }

  lemma FourDigits()
    ensures DecimalText(Decimal(4, 0)) == "4"
  {
    assert NatToString(4) == "4";
    assert Padded(4, 1) == "4";
    assert UnsignedDecimalText(4, 0) == WithPoint("4", 0) == "4";
  }

  lemma SeedTexts()
    ensures IntToString(4444) == "4444" && SeedCommand(4444) == "SEED 4444"
    ensures IntToString(0) == "0" && SeedCommand(0) == "SEED 0"
  {
    assert NatToString(4) == "4";
    assert NatToString(44) == NatToString(4) + "4" == "44";
    assert NatToString(444) == NatToString(44) + "4" == "444";
    assert NatToString(4444) == NatToString(444) + "4" == "4444";
    assert NatToString(0) == "0";
  }

  method PropertiesTest()
  {
    var client := new SimClient();
    var controls := new BlueSkySimulatorControls(client);
    assert controls.Properties(Agent) == Failure(NoTelemetry);

    client.simInfo := Some(TestSample);
    TestSampleSnapshots();
    assert controls.Properties(Agent)
      == Success(SimProperties(0.05, None, 1234.0, None, None, 1.0, Run, "2020-01-02 12:34:56"));
    assert controls.Properties(Sandbox)
      == Success(SimProperties(0.05, None, 1234.0, None, None, 1.12, Run, "2020-01-02 12:34:56"));
  }

  /** Content ["a", "b", "c"] does not translate; any other content translates to itself. */
  function TestTranslate(s: Sector, content: seq<string>): Result<seq<string>, string>
  {
    if content == ["a", "b", "c"] then Failure("not a scenario") else Success(content)
  }

  const TestScenario := Scenario("test-scenario", ["00:00:00>CRE SCN1 B744 0 0 0 FL250 250"])

  method LoadScenarioTest()
  {
    var client := new SimClient();
    var controls := new BlueSkySimulatorControls(client);
    var err := controls.LoadSector(Sector("test-sector"));
    assert err.None?;

    err := controls.LoadScenario(Scenario("TEST", ["a", "b", "c"]), TestTranslate);
    assert err.Some? && err.value[..|ParseErrorPrefix|] == ParseErrorPrefix;

    client.uploadReply := Some("Error 1");
    err := controls.LoadScenario(TestScenario, TestTranslate);
    assert err == Some("Error 1");

    client.uploadReply := None;
    LoadStepTest(controls);
  }

  /** With the upload accepted, the load step's error is returned. */
  method LoadStepTest(controls: BlueSkySimulatorControls)
    requires controls.Valid() && controls.sector.Some? && controls.client.uploadReply == None
    modifies controls, controls.client
  {
    controls.client.loadReply := Some("Error 2");
    var err := controls.LoadScenario(TestScenario, TestTranslate);
    assert err == Some("Error 2");
    LoadSucceedsTest(controls);
  }

  /** With upload and load accepted, there is no error and the scenario is the loaded one. */
  method LoadSucceedsTest(controls: BlueSkySimulatorControls)
    requires controls.Valid() && controls.sector.Some? && controls.client.uploadReply == None
    modifies controls, controls.client
  {
    controls.client.loadReply := None;
    var err := controls.LoadScenario(TestScenario, TestTranslate);
    assert err.None?;
    assert controls.scenarioName == Some("test-scenario");
  }

  method LifecycleTest()
  {
    var client := new SimClient();
    var controls := new BlueSkySimulatorControls(client);

    client.commandReply := Some("Error");
    var err := controls.Start();
    assert err == Some("Error");
    err := controls.Pause();
    assert err == Some("Error");
    err := controls.Resume();
    assert err == Some("Error");
    err := controls.Stop();
    assert err == Some("Error");

    client.commandReply := None;
    ghost var mark := |client.calls|;
    err := controls.Start();
    assert err.None? && client.calls[mark..] == [StackCmd("OP", None)];
    mark := |client.calls|;
    err := controls.Pause();
    assert err.None? && client.calls[mark..] == [StackCmd("HOLD", None)];
    mark := |client.calls|;
    err := controls.Resume();
    assert err.None? && client.calls[mark..] == [StackCmd("OP", None)];
    mark := |client.calls|;
    err := controls.Stop();
    assert err.None? && client.calls[mark..] == [StackCmd("STOP", None)];
  }

  method StepAndResetTest()
  {
    var client := new SimClient();
    var controls := new BlueSkySimulatorControls(client);

    client.stepReply := Some("Error");
    var err := controls.Step();
    assert err == Some("Error");
    client.stepReply := None;
    ghost var mark := |client.calls|;
    err := controls.Step();
    assert err.None? && client.calls[mark..] == [StepSim(None)];

    client.resetReply := Some("Error");
    err := controls.Reset();
    assert err == Some("Error");
    client.resetReply := None;
    mark := |client.calls|;
    err := controls.Reset();
    assert err.None? && client.calls[mark..] == [ResetSimCall(None)];
  }

  /** The error text the tests expect when BlueSky answers a change with the error "Error". */
  lemma ErrorReplyText(line: string)
    ensures ConfirmationOutcome(Rejected("Error"), line)
      == Some("No confirmation received from BlueSky. Received: \"Error\"")
  {
    RejectedIsUnconfirmed("Error", line);
    assert NoConfirmationPrefix + "Error" + "\"" == "No confirmation received from BlueSky. Received: \"Error\"";
  }

  lemma ConfirmationTexts()
    ensures Confirms(Lines(["Speed set to 10.1"]), SpeedConfirmation + DecimalText(Decimal(101, 1)))
    ensures Confirms(Lines(["Seed set to 4444"]), SeedConfirmation + IntToString(4444))
  {
    TenPointOneText();
    SeedTexts();
    assert SpeedConfirmation + "10.1" == "Speed set to 10.1";
    assert SeedConfirmation + "4444" == "Seed set to 4444";
  }

  method SetSpeedRejectedTest()
  {
    var client := new SimClient();
    var controls := new BlueSkySimulatorControls(client);
    client.queryReply := Rejected("Error");
    var err := controls.SetSpeed(Decimal(123, 2));
    ErrorReplyText(SpeedConfirmation + DecimalText(Decimal(123, 2)));
    assert err == Some("No confirmation received from BlueSky. Received: \"Error\"");
  }

  method SetSpeedConfirmedTest()
  {
    var client := new SimClient();
    var controls := new BlueSkySimulatorControls(client);
    client.queryReply := Lines(["Speed set to 10.1"]);
    TenPointOneText();
    ConfirmationTexts();
    var err := controls.SetSpeed(Decimal(101, 1));
    assert err.None?;
    assert client.calls == [StackQuery("DTMULT 10.1", Lines(["Speed set to 10.1"]))];
  }

  method SetSeedRejectedTest()
  {
    var client := new SimClient();
    var controls := new BlueSkySimulatorControls(client);
    client.queryReply := Rejected("Error");
    var err := controls.SetSeed(0);
    ErrorReplyText(SeedConfirmation + IntToString(0));
    assert err == Some("No confirmation received from BlueSky. Received: \"Error\"");
  }

  method SetSeedConfirmedTest()
  {
    var client := new SimClient();
    var controls := new BlueSkySimulatorControls(client);
    client.queryReply := Lines(["Seed set to 4444"]);
    SeedTexts();
    ConfirmationTexts();
    var err := controls.SetSeed(4444);
    assert err.None?;
    assert client.calls == [StackQuery("SEED 4444", Lines(["Seed set to 4444"]))];
  }

  method DtMultHandlingTest()
  {
    var client := new SimClient();
    var controls := new BlueSkySimulatorControls(client);
    client.queryReply := Lines(["Speed set to 4"]);
    SetSpeedFour(controls);
    client.simInfo := Some(TestSample);
    AgentModeSpeed(controls, 4.0);
    ResetRestoresSpeed(controls);
  }

  /** `set_speed(4)` confirmed by BlueSky leaves the tracked multiplier at 4. */
  method SetSpeedFour(controls: BlueSkySimulatorControls)
    requires controls.Valid() && controls.client.queryReply == Lines(["Speed set to 4"])
    modifies controls, controls.client`calls
    ensures controls.Valid() && controls.dtMult == 4.0
  {
    FourText();
    var err := controls.SetSpeed(Decimal(4, 0));
    assert err.None?;
  }

  /** After a reset, Agent-mode `properties` reports speed 1 again. */
  method ResetRestoresSpeed(controls: BlueSkySimulatorControls)
    requires controls.Valid() && controls.client.resetReply == None
    requires controls.client.simInfo == Some(TestSample)
    modifies controls, controls.client`calls
  {
    var err := controls.Reset();
    assert err.None?;
    AgentModeSpeed(controls, 1.0);
  }

  /** With the tests' sample present, Agent-mode `properties` reports the tracked multiplier. */
  method AgentModeSpeed(controls: BlueSkySimulatorControls, expected: real)
    requires controls.client.simInfo == Some(TestSample) && controls.dtMult == expected
  {
    var snapshot := controls.Properties(Agent);
    assert snapshot.Success? && snapshot.value.speed == expected;
  }
}
