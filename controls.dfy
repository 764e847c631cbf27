/**
 * BlueSkySimulatorControls: the simulator controls of the BlueSky client.
 * Lifecycle commands become fixed stack commands, speed and seed changes must
 * be confirmed by BlueSky's reply, a scenario is loaded only after a sector,
 * and the state BlueSky does not report (the speed multiplier, the loaded
 * sector and scenario, the seed) is tracked by the adapter itself.
 *
 * The tracked multiplier, seed and scenario are tied, by the class invariant,
 * to what the simulator was told: functions of the log of requests the client
 * made since the adapter was built (MultiplierAfter, SeedAfter, ScenarioAfter).
 */
module SimulatorControls {
  import opened Wrappers
  import opened Text
  import opened Props
  import opened BlueSkyClient

  // ---------------------------------------------------------------------------
  // Command texts and confirmations

  const SpeedConfirmation := "Speed set to "
  const SeedConfirmation := "Seed set to "
  const ParseErrorPrefix := "Could not parse a BlueSky scenario"

  /** The stack command that sets the speed multiplier: `DTMULT <m>`; m reads back from its text. */
  function SpeedCommand(m: Decimal): (r: string)
    ensures |r| > 7 && r[..7] == "DTMULT " && ParseDecimal(r[7..]) == Some(m)
  {
    DecimalRoundTrip(m);
    var r := "DTMULT " + DecimalText(m);
    assert r[7..] == DecimalText(m);
    r
  }

  /** The stack command that sets the random seed: `SEED <s>`; s reads back from its text. */
  function SeedCommand(s: int): (r: string)
    ensures |r| > 5 && r[..5] == "SEED " && ParseInt(r[5..]) == Some(s)
  {
    IntToStringRoundTrip(s);
    var r := "SEED " + IntToString(s);
    assert r[5..] == IntToString(s);
    r
  }

  /** A reply confirms when it is a list of response lines holding the expected line. */
  predicate Confirms(reply: StackReply, line: string)
  {
    reply.Lines? && line in reply.lines
  }

  /** Python's str() of a list of strings (quote characters inside a line are not escaped). */
  function QuotedList(lines: seq<string>): (r: string)
    ensures r == [] <==> lines == []
    ensures lines != [] ==> |r| >= 4 * |lines| - 2 && r[0] == '\'' && r[|r| - 1] == '\''
  {
    if lines == [] then ""
    else if |lines| == 1 then "'" + lines[0] + "'"
    else "'" + lines[0] + "', " + QuotedList(lines[1..])
  }

  /** Python's str() of what the client answered. */
  function ReplyText(reply: StackReply): (r: string)
    ensures reply.Rejected? ==> r == reply.error
    ensures reply.NoReply? ==> r == "None"
    ensures reply.Lines? ==> |r| >= 2 && r[0] == '[' && r[|r| - 1] == ']'
    ensures reply.Lines? && reply.lines != [] ==> r[1] == '\'' && r[|r| - 2] == '\''
  {
    match reply
    case Rejected(e) => e
    case NoReply => "None"
    case Lines(lines) => "[" + QuotedList(lines) + "]"
  }

  const NoConfirmationPrefix := "No confirmation received from BlueSky. Received: \""

  /** The error of a speed or seed change BlueSky did not confirm; it quotes the raw reply. */
  function NoConfirmation(reply: StackReply): (e: Error)
    ensures |e| == |NoConfirmationPrefix| + |ReplyText(reply)| + 1
    ensures e[..|NoConfirmationPrefix|] == NoConfirmationPrefix && e[|e| - 1] == '"'
    ensures e[|NoConfirmationPrefix|..|e| - 1] == ReplyText(reply)
  {
    NoConfirmationPrefix + ReplyText(reply) + "\""
  }

  /** The outcome of a change that needs `line` among the reply lines. */
  function ConfirmationOutcome(reply: StackReply, line: string): (r: Option<Error>)
    ensures r.None? <==> Confirms(reply, line)
    ensures r.Some? ==> |r.value| > |NoConfirmationPrefix| && r.value[..|NoConfirmationPrefix|] == NoConfirmationPrefix
  {
    if Confirms(reply, line) then None else Some(NoConfirmation(reply))
  }

  // ---------------------------------------------------------------------------
  // What the simulator was told: the state BlueSky keeps but does not report

  /** The value a confirmed `DTMULT` request set, read back from its text. */
  function SpeedSetBy(c: Call): Option<Decimal>
  {
    match c
    case StackQuery(text, reply) =>
      if |text| >= 7 && text[..7] == "DTMULT " && Confirms(reply, SpeedConfirmation + text[7..])
      then ParseDecimal(text[7..]) else None
    case _ => None
  }

  /** The value a confirmed `SEED` request set, read back from its text. */
  function SeedSetBy(c: Call): Option<int>
  {
    match c
    case StackQuery(text, reply) =>
      if |text| >= 5 && text[..5] == "SEED " && Confirms(reply, SeedConfirmation + text[5..])
      then ParseInt(text[5..]) else None
    case _ => None
  }

  /**
   * BlueSky's speed multiplier after the requests `h`: 1 at the start,
   * otherwise the value of the last confirmed DTMULT. A reset request is
   * taken to restore 1 whatever result the client reported for it: the
   * adapter forgets its multiplier on every reset, and this function states
   * the assumption that makes that right.
   */
  function MultiplierAfter(h: seq<Call>): real
    decreases |h|
  {
    if h == [] then 1.0
    else
      var last := h[|h| - 1];
      if last.ResetSimCall? then 1.0
      else match SpeedSetBy(last)
        case Some(m) => m.Value()
        case None => MultiplierAfter(h[..|h| - 1])
  }

  /** The seed after the requests `h`: the value of the last confirmed SEED, if any. */
  function SeedAfter(h: seq<Call>): Option<int>
    decreases |h|
  {
    if h == [] then None
    else match SeedSetBy(h[|h| - 1])
      case Some(s) => Some(s)
      case None => SeedAfter(h[..|h| - 1])
  }

  /**
   * The loaded scenario after the requests `h`: the name in the last load
   * request that reported no error, unless a reset request came after it
   * (again whatever the reset reported).
   */
  function ScenarioAfter(h: seq<Call>): Option<string>
    decreases |h|
  {
    if h == [] then None
    else
      var last := h[|h| - 1];
      if last.ResetSimCall? then None
      else if last.LoadScenarioCall? && last.result.None? then Some(last.name)
      else ScenarioAfter(h[..|h| - 1])
  }

  // ---------------------------------------------------------------------------
  // load_scenario: parse, upload, load

  /** The error `load_scenario` returns: the first step that fails decides it. */
  function LoadScenarioOutcome(parsed: Result<seq<string>, string>, upload: Option<Error>, load: Option<Error>): (r: Option<Error>)
    ensures parsed.Failure? ==>
      r.Some? && |r.value| >= |ParseErrorPrefix| && r.value[..|ParseErrorPrefix|] == ParseErrorPrefix
    ensures parsed.Success? && upload.Some? ==> r == upload
    ensures parsed.Success? && upload.None? ==> r == load
  {
    match parsed
    case Failure(reason) => Some(ParseErrorPrefix + ": " + reason)
    case Success(_) => if upload.Some? then upload else load
  }

  /** The requests `load_scenario` makes: none when parsing fails, no load when the upload fails. */
  function LoadScenarioCalls(name: string, parsed: Result<seq<string>, string>, upload: Option<Error>, load: Option<Error>): (calls: seq<Call>)
    ensures parsed.Failure? ==> calls == []
    ensures parsed.Success? ==> |calls| >= 1 && calls[0] == UploadScenario(name, parsed.value, upload)
    ensures parsed.Success? && upload.Some? ==> |calls| == 1
    ensures parsed.Success? && upload.None? ==> calls == [UploadScenario(name, parsed.value, None), LoadScenarioCall(name, load)]
  {
    match parsed
    case Failure(_) => []
    case Success(content) =>
      if upload.Some? then [UploadScenario(name, content, upload)]
      else [UploadScenario(name, content, upload), LoadScenarioCall(name, load)]
  }

  // ---------------------------------------------------------------------------
  // The adapter

  class BlueSkySimulatorControls {
    const client: SimClient
    /** Length of the client's log when the adapter was built: its history starts there. */
    ghost const origin: nat
    /** The speed multiplier last set; BlueSky cannot be asked for it. */
    var dtMult: real
    var sector: Option<Sector>
    var scenarioName: Option<string>
    var seed: Option<int>

    /** The requests made since the adapter was built. */
    ghost function History(): seq<Call>
      reads this, client`calls
      requires origin <= |client.calls|
    {
      client.calls[origin..]
    }

    /** The tracked state agrees with what the simulator was told. */
    ghost predicate Valid()
      reads this, client`calls
    {
      && origin <= |client.calls|
      && dtMult == MultiplierAfter(History())
      && seed == SeedAfter(History())
      && scenarioName == ScenarioAfter(History())
    }

    constructor (client: SimClient)
      ensures this.client == client && origin == |client.calls|
      ensures dtMult == 1.0 && sector == None && scenarioName == None && seed == None
      ensures Valid()
    {
      this.client := client;
      origin := |client.calls|;
      dtMult := 1.0;
      sector, scenarioName, seed := None, None, None;
    }

    function Tracking(): Tracked
      reads this
    {
      Tracked(dtMult, if sector.Some? then Some(sector.value.name) else None, scenarioName, seed)
    }

    /**
     * `properties`: a snapshot of the latest telemetry sample and the tracked
     * state. In Agent mode its speed is the multiplier the simulator was last
     * set to; in Sandbox mode it is the sample's speed rounded to 0.01.
     */
    function Properties(mode: SimMode): (r: Result<SimProperties, PropertiesError>)
      reads this, client`simInfo, client`calls
      ensures client.simInfo.None? ==> r == Failure(NoTelemetry)
      ensures r.Success? ==> client.simInfo.Some?
      ensures r.Success? ==> r.value.sectorName == (if sector.Some? then Some(sector.value.name) else None)
      ensures r.Success? ==> r.value.scenarioName == scenarioName && r.value.seed == seed
      ensures r.Success? && mode == Agent ==> r.value.speed == dtMult
      ensures r.Success? && mode == Agent && Valid() ==> r.value.speed == MultiplierAfter(History())
      ensures r.Success? && mode == Sandbox ==> r.value.speed == RoundHundredths(client.simInfo.value.speed)
    {
      Snapshot(client.simInfo, Tracking(), mode)
    }

    /** `load_sector`: records the sector; nothing is sent to BlueSky. */
    method LoadSector(s: Sector) returns (err: Option<Error>)
      requires Valid()
      modifies this`sector
      ensures Valid()
      ensures err == None && sector == Some(s)
    {
      sector := Some(s);
      err := None;
    }

    /**
     * `load_scenario`: needs a loaded sector; translates the content against
     * it, uploads the result and loads it, stopping at the first error.
     */
    method LoadScenario(scenario: Scenario, translate: (Sector, seq<string>) -> Result<seq<string>, string>)
      returns (err: Option<Error>)
      requires Valid()
      requires sector.Some?
      modifies this`scenarioName, client`calls
      ensures Valid()
      ensures var parsed := translate(sector.value, scenario.content);
        && err == LoadScenarioOutcome(parsed, client.uploadReply, client.loadReply)
        && client.calls == old(client.calls) + LoadScenarioCalls(scenario.name, parsed, client.uploadReply, client.loadReply)
      ensures scenarioName == if err.None? then Some(scenario.name) else old(scenarioName)
    {
      match translate(sector.value, scenario.content)
      case Failure(reason) =>
        err := Some(ParseErrorPrefix + ": " + reason);
      case Success(content) =>
        err := UploadAndLoad(scenario.name, content);
    }

    /** The upload and load steps of `load_scenario`, made once the content has been translated. */
    method UploadAndLoad(name: string, content: seq<string>) returns (err: Option<Error>)
      requires Valid()
      requires sector.Some?
      modifies this`scenarioName, client`calls
      ensures Valid()
      ensures err == LoadScenarioOutcome(Success(content), client.uploadReply, client.loadReply)
      ensures client.calls == old(client.calls) + LoadScenarioCalls(name, Success(content), client.uploadReply, client.loadReply)
      ensures scenarioName == if err.None? then Some(name) else old(scenarioName)
    {
      ghost var h := History();
      err := client.UploadNewScenario(name, content);
      HistoryAppend(client.calls, origin, old(client.calls));
      AfterUnrelated(h, UploadScenario(name, content, err));
      if err.None? {
        err := LoadUploaded(name);
        assert client.calls == old(client.calls) + [UploadScenario(name, content, None), LoadScenarioCall(name, err)];
      }
    }

    /** The load step of `load_scenario`: the scenario becomes the loaded one when the load reports no error. */
    method LoadUploaded(name: string) returns (err: Option<Error>)
      requires Valid()
      requires sector.Some?
      modifies this`scenarioName, client`calls
      ensures Valid()
      ensures err == client.loadReply
      ensures client.calls == old(client.calls) + [LoadScenarioCall(name, client.loadReply)]
      ensures scenarioName == if err.None? then Some(name) else old(scenarioName)
    {
      ghost var h := History();
      err := client.LoadScenario(name);
      HistoryAppend(client.calls, origin, old(client.calls));
      AfterLoad(h, name, err);
      if err.None? {
        scenarioName := Some(name);
      }
    }

    /** `start`: sends `OP`. */
    method Start() returns (err: Option<Error>)
      requires Valid()
      modifies client`calls
      ensures Valid()
      ensures client.calls == old(client.calls) + [StackCmd("OP", client.commandReply)]
      ensures err == client.commandReply
    {
      err := SendUnrelated("OP");
    }

    /** `pause`: sends `HOLD`. */
    method Pause() returns (err: Option<Error>)
      requires Valid()
      modifies client`calls
      ensures Valid()
      ensures client.calls == old(client.calls) + [StackCmd("HOLD", client.commandReply)]
      ensures err == client.commandReply
    {
      err := SendUnrelated("HOLD");
    }

    /** `resume`: sends `OP`, as `start` does. */
    method Resume() returns (err: Option<Error>)
      requires Valid()
      modifies client`calls
      ensures Valid()
      ensures client.calls == old(client.calls) + [StackCmd("OP", client.commandReply)]
      ensures err == client.commandReply
    {
      err := SendUnrelated("OP");
    }

    /** `stop`: sends `STOP`. */
    method Stop() returns (err: Option<Error>)
      requires Valid()
      modifies client`calls
      ensures Valid()
      ensures client.calls == old(client.calls) + [StackCmd("STOP", client.commandReply)]
      ensures err == client.commandReply
    {
      err := SendUnrelated("STOP");
    }

    /** Sends one of the lifecycle stack commands, which change none of the tracked state. */
    method SendUnrelated(text: string) returns (err: Option<Error>)
      requires Valid()
      requires text == "OP" || text == "HOLD" || text == "STOP"
      modifies client`calls
      ensures Valid()
      ensures client.calls == old(client.calls) + [StackCmd(text, client.commandReply)]
      ensures err == client.commandReply
    {
      ghost var h := History();
      err := client.SendStackCmd(text);
      HistoryAppend(client.calls, origin, old(client.calls));
      AfterUnrelated(h, StackCmd(text, err));
    }

    /** `step`: passes the client's step result through. */
    method Step() returns (err: Option<Error>)
      requires Valid()
      modifies client`calls
      ensures Valid()
      ensures client.calls == old(client.calls) + [StepSim(client.stepReply)]
      ensures err == client.stepReply
    {
      ghost var h := History();
      err := client.Step();
      HistoryAppend(client.calls, origin, old(client.calls));
      AfterUnrelated(h, StepSim(err));
    }

    /**
     * `reset`: resets the simulator and passes its result through; the
     * multiplier goes back to 1 and the sector and scenario are forgotten
     * whether or not the reset reported an error.
     */
    method Reset() returns (err: Option<Error>)
      requires Valid()
      modifies this`dtMult, this`sector, this`scenarioName, client`calls
      ensures Valid()
      ensures client.calls == old(client.calls) + [ResetSimCall(client.resetReply)]
      ensures err == client.resetReply
      ensures dtMult == 1.0 && sector == None && scenarioName == None
    {
      ghost var h := History();
      err := client.ResetSim();
      HistoryAppend(client.calls, origin, old(client.calls));
      AfterReset(h, err);
      dtMult := 1.0;
      sector, scenarioName := None, None;
    }

    /**
     * `set_speed`: sends `DTMULT <m>` expecting a response; only a reply
     * holding `Speed set to <m>` counts as success and updates the tracked
     * multiplier, any other reply gives the no-confirmation error.
     */
    method SetSpeed(m: Decimal) returns (err: Option<Error>)
      requires Valid()
      modifies this`dtMult, client`calls
      ensures Valid()
      ensures client.calls == old(client.calls) + [StackQuery(SpeedCommand(m), client.queryReply)]
      ensures err == ConfirmationOutcome(client.queryReply, SpeedConfirmation + DecimalText(m))
      ensures dtMult == if err.None? then m.Value() else old(dtMult)
    {
      ghost var h := History();
      var reply := client.SendStackQuery(SpeedCommand(m));
      HistoryAppend(client.calls, origin, old(client.calls));
      AfterSpeedCommand(h, m, reply);
      err := ConfirmationOutcome(reply, SpeedConfirmation + DecimalText(m));
      if err.None? {
        dtMult := m.Value();
      }
    }

    /**
     * `set_seed`: sends `SEED <s>` expecting a response; only a reply holding
     * `Seed set to <s>` counts as success.
     */
    method SetSeed(s: int) returns (err: Option<Error>)
      requires Valid()
      modifies this`seed, client`calls
      ensures Valid()
      ensures client.calls == old(client.calls) + [StackQuery(SeedCommand(s), client.queryReply)]
      ensures err == ConfirmationOutcome(client.queryReply, SeedConfirmation + IntToString(s))
      ensures seed == if err.None? then Some(s) else old(seed)
    {
      ghost var h := History();
      var reply := client.SendStackQuery(SeedCommand(s));
      HistoryAppend(client.calls, origin, old(client.calls));
      AfterSeedCommand(h, s, reply);
      err := ConfirmationOutcome(reply, SeedConfirmation + IntToString(s));
      if err.None? {
        seed := Some(s);
      }
    }
  }

  // ---------------------------------------------------------------------------
  // Lemmas

  /** The multiplier is 1 or a value that some confirmed DTMULT in the history set. */
  lemma {:induction false} MultiplierComesFromHistory(h: seq<Call>)
    ensures var r := MultiplierAfter(h);
      r == 1.0 || exists i | 0 <= i < |h| :: SpeedSetBy(h[i]).Some? && SpeedSetBy(h[i]).value.Value() == r
    decreases |h|
  {
    if h != [] && !h[|h| - 1].ResetSimCall? && SpeedSetBy(h[|h| - 1]).None? {
      var front := h[..|h| - 1];
      MultiplierComesFromHistory(front);
      assert forall i | 0 <= i < |front| :: front[i] == h[i];
    }
  }

  /** There is a seed exactly when some SEED in the history was confirmed, and it is one of those. */
  lemma {:induction false} SeedComesFromHistory(h: seq<Call>)
    ensures SeedAfter(h).None? <==> forall i | 0 <= i < |h| :: SeedSetBy(h[i]).None?
    ensures SeedAfter(h).Some? ==> exists i | 0 <= i < |h| :: SeedSetBy(h[i]) == SeedAfter(h)
    decreases |h|
  {
    if h != [] && SeedSetBy(h[|h| - 1]).None? {
      var front := h[..|h| - 1];
      SeedComesFromHistory(front);
      assert forall i | 0 <= i < |front| :: front[i] == h[i];
    }
  }

  /** A loaded scenario is the name of some load request in the history that reported no error. */
  lemma {:induction false} ScenarioComesFromHistory(h: seq<Call>)
    ensures ScenarioAfter(h).Some? ==> exists i | 0 <= i < |h| :: h[i] == LoadScenarioCall(ScenarioAfter(h).value, None)
    decreases |h|
  {
    if h != [] {
      var last := h[|h| - 1];
      if !last.ResetSimCall? && !(last.LoadScenarioCall? && last.result.None?) {
        var front := h[..|h| - 1];
        ScenarioComesFromHistory(front);
        assert forall i | 0 <= i < |front| :: front[i] == h[i];
      } else if !last.ResetSimCall? {
        assert h[|h| - 1] == LoadScenarioCall(ScenarioAfter(h).value, None);
      }
    }
  }

  lemma HistoryAppend(calls: seq<Call>, origin: nat, before: seq<Call>)
    requires origin <= |before| && |calls| == |before| + 1 && calls[..|before|] == before
    ensures calls[origin..] == before[origin..] + [calls[|before|]]
  {
  }

  /** A request that sets nothing the adapter tracks leaves all three histories' values alone. */
  lemma AfterUnrelated(h: seq<Call>, c: Call)
    requires !c.ResetSimCall? && !c.StackQuery? && !(c.LoadScenarioCall? && c.result.None?)
    ensures MultiplierAfter(h + [c]) == MultiplierAfter(h)
    ensures SeedAfter(h + [c]) == SeedAfter(h)
    ensures ScenarioAfter(h + [c]) == ScenarioAfter(h)
  {
    assert (h + [c])[..|h|] == h;
  }

  lemma AfterReset(h: seq<Call>, result: Option<Error>)
    ensures MultiplierAfter(h + [ResetSimCall(result)]) == 1.0
    ensures SeedAfter(h + [ResetSimCall(result)]) == SeedAfter(h)
    ensures ScenarioAfter(h + [ResetSimCall(result)]) == None
  {
    assert (h + [ResetSimCall(result)])[..|h|] == h;
  }

  /** Loading a scenario without error makes it the loaded one; nothing else changes. */
  lemma AfterLoad(h: seq<Call>, name: string, result: Option<Error>)
    ensures MultiplierAfter(h + [LoadScenarioCall(name, result)]) == MultiplierAfter(h)
    ensures SeedAfter(h + [LoadScenarioCall(name, result)]) == SeedAfter(h)
    ensures ScenarioAfter(h + [LoadScenarioCall(name, result)])
      == if result.None? then Some(name) else ScenarioAfter(h)
  {
    assert (h + [LoadScenarioCall(name, result)])[..|h|] == h;
  }

  /** A DTMULT request sets exactly the multiplier it names, and only when confirmed. */
  lemma SpeedSetBySpeedCommand(m: Decimal, reply: StackReply)
    ensures SpeedSetBy(StackQuery(SpeedCommand(m), reply))
      == if Confirms(reply, SpeedConfirmation + DecimalText(m)) then Some(m) else None
    ensures SeedSetBy(StackQuery(SpeedCommand(m), reply)) == None
  {
    var text := SpeedCommand(m);
    assert text[..7] == "DTMULT " && text[7..] == DecimalText(m);
    assert text[0] != "SEED "[0];
    DecimalRoundTrip(m);
  }

  /** A SEED request sets exactly the seed it names, and only when confirmed. */
  lemma SeedSetBySeedCommand(s: int, reply: StackReply)
    ensures SeedSetBy(StackQuery(SeedCommand(s), reply))
      == if Confirms(reply, SeedConfirmation + IntToString(s)) then Some(s) else None
    ensures SpeedSetBy(StackQuery(SeedCommand(s), reply)) == None
  {
    var text := SeedCommand(s);
    assert text[..5] == "SEED " && text[5..] == IntToString(s);
    assert text[0] != "DTMULT "[0];
    IntToStringRoundTrip(s);
  }

  /** After `set_speed(m)` the simulator runs at m if BlueSky confirmed it, and as before if not. */
  lemma AfterSpeedCommand(h: seq<Call>, m: Decimal, reply: StackReply)
    ensures MultiplierAfter(h + [StackQuery(SpeedCommand(m), reply)])
      == if Confirms(reply, SpeedConfirmation + DecimalText(m)) then m.Value() else MultiplierAfter(h)
    ensures SeedAfter(h + [StackQuery(SpeedCommand(m), reply)]) == SeedAfter(h)
    ensures ScenarioAfter(h + [StackQuery(SpeedCommand(m), reply)]) == ScenarioAfter(h)
  {
    assert (h + [StackQuery(SpeedCommand(m), reply)])[..|h|] == h;
    SpeedSetBySpeedCommand(m, reply);
  }

  /** After `set_seed(s)` the seed is s if BlueSky confirmed it; the multiplier is untouched. */
  lemma AfterSeedCommand(h: seq<Call>, s: int, reply: StackReply)
    ensures SeedAfter(h + [StackQuery(SeedCommand(s), reply)])
      == if Confirms(reply, SeedConfirmation + IntToString(s)) then Some(s) else SeedAfter(h)
    ensures MultiplierAfter(h + [StackQuery(SeedCommand(s), reply)]) == MultiplierAfter(h)
    ensures ScenarioAfter(h + [StackQuery(SeedCommand(s), reply)]) == ScenarioAfter(h)
  {
    assert (h + [StackQuery(SeedCommand(s), reply)])[..|h|] == h;
    SeedSetBySeedCommand(s, reply);
  }

  /** A rejected change is never confirmed, and its error quotes the rejection verbatim. */
  lemma RejectedIsUnconfirmed(e: Error, line: string)
    ensures ConfirmationOutcome(Rejected(e), line) == Some(NoConfirmationPrefix + e + "\"")
  {
  }

  /** A `Speed set to ...` line: the kind of line that confirms a speed change. */
  predicate IsSpeedLine(line: string)
  {
    |line| >= |SpeedConfirmation| && line[..|SpeedConfirmation|] == SpeedConfirmation
  }

  /**
   * A reply confirms the value that was sent, wherever its line stands among
   * the reply lines; and a reply whose only `Speed set to` lines name m
   * confirms no other multiplier.
   */
  lemma ConfirmationNamesTheValue(m: Decimal, other: Decimal, before: seq<string>, after: seq<string>, lines: seq<string>)
    ensures Confirms(Lines(before + [SpeedConfirmation + DecimalText(m)] + after), SpeedConfirmation + DecimalText(m))
    ensures m != other && (forall i | 0 <= i < |lines| :: IsSpeedLine(lines[i]) ==> lines[i] == SpeedConfirmation + DecimalText(m))
      ==> !Confirms(Lines(lines), SpeedConfirmation + DecimalText(other))
  {
    var confirming := before + [SpeedConfirmation + DecimalText(m)] + after;
    assert confirming[|before|] == SpeedConfirmation + DecimalText(m);
    var line := SpeedConfirmation + DecimalText(other);
    if m != other && (forall i | 0 <= i < |lines| :: IsSpeedLine(lines[i]) ==> lines[i] == SpeedConfirmation + DecimalText(m))
      && Confirms(Lines(lines), line) {
      var j :| 0 <= j < |lines| && lines[j] == line;
      var n := |SpeedConfirmation|;
      assert line[..n] == SpeedConfirmation;
      assert IsSpeedLine(lines[j]);
      assert (SpeedConfirmation + DecimalText(m))[n..] == DecimalText(m);
      assert line[n..] == DecimalText(other);
      DecimalTextInjective(m, other);
    }
  }

  /** `load_scenario` succeeds exactly when parsing, upload and load all succeed. */
  lemma LoadScenarioSucceedsIff(parsed: Result<seq<string>, string>, upload: Option<Error>, load: Option<Error>)
    ensures LoadScenarioOutcome(parsed, upload, load).None? <==> parsed.Success? && upload.None? && load.None?
  {
  }

  /** When the upload fails the load step is never made, so its result cannot matter. */
  lemma UploadErrorIgnoresLoad(name: string, parsed: Result<seq<string>, string>, e: Error, load1: Option<Error>, load2: Option<Error>)
    requires parsed.Success?
    ensures LoadScenarioOutcome(parsed, Some(e), load1) == LoadScenarioOutcome(parsed, Some(e), load2) == Some(e)
    ensures forall c :: c in LoadScenarioCalls(name, parsed, Some(e), load1) ==> !c.LoadScenarioCall?
  {
  }
}
