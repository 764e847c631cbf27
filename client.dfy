/**
 * The part of the BlueSky client the simulator controls use. Its answers are
 * whatever the connected simulator sends; here each kind of request answers
 * with the reply held in a field, so every contract about the adapter holds
 * for every reply. The client records each request, with the reply it got, in
 * the ghost log `calls`.
 */
module BlueSkyClient {
  import opened Wrappers
  import opened Props

  /** An error description: never empty. */
  type Error = s: string | s != [] witness "error"

  /** What `send_stack_cmd(..., response_expected=True)` answers: an error, nothing, or response lines. */
  datatype StackReply = Rejected(error: Error) | NoReply | Lines(lines: seq<string>)

  /** One request made to the client. */
  datatype Call =
    | StackCmd(text: string, result: Option<Error>)
    | StackQuery(text: string, reply: StackReply)
    | ResetSimCall(result: Option<Error>)
    | StepSim(result: Option<Error>)
    | UploadScenario(name: string, content: seq<string>, result: Option<Error>)
    | LoadScenarioCall(name: string, result: Option<Error>)

  class SimClient {
    /** Reply to a stack command sent without expecting a response. */
    var commandReply: Option<Error>
    /** Reply to a stack command sent with `response_expected=True`. */
    var queryReply: StackReply
    var resetReply: Option<Error>
    var stepReply: Option<Error>
    var uploadReply: Option<Error>
    var loadReply: Option<Error>
    /** `sim_info_stream_data`: the latest SIMINFO sample, absent until the first one arrives. */
    var simInfo: Option<SimInfo>
    /** Every request made so far, oldest first. */
    ghost var calls: seq<Call>

    constructor ()
      ensures commandReply == None && queryReply == NoReply
      ensures resetReply == None && stepReply == None
      ensures uploadReply == None && loadReply == None
      ensures simInfo == None && calls == []
    {
      commandReply, queryReply := None, NoReply;
      resetReply, stepReply := None, None;
      uploadReply, loadReply := None, None;
      simInfo := None;
      calls := [];
    }

    /** `send_stack_cmd(text)` */
    method SendStackCmd(text: string) returns (err: Option<Error>)
      modifies this`calls
      ensures err == commandReply
      ensures calls == old(calls) + [StackCmd(text, commandReply)]
    {
      err := commandReply;
      calls := calls + [StackCmd(text, err)];
    }

    /** `send_stack_cmd(text, response_expected=True)` */
    method SendStackQuery(text: string) returns (reply: StackReply)
      modifies this`calls
      ensures reply == queryReply
      ensures calls == old(calls) + [StackQuery(text, queryReply)]
    {
      reply := queryReply;
      calls := calls + [StackQuery(text, reply)];
    }

    /** `reset_sim()` */
    method ResetSim() returns (err: Option<Error>)
      modifies this`calls
      ensures err == resetReply
      ensures calls == old(calls) + [ResetSimCall(resetReply)]
    {
      err := resetReply;
      calls := calls + [ResetSimCall(err)];
    }

    /** `step()` */
    method Step() returns (err: Option<Error>)
      modifies this`calls
      ensures err == stepReply
      ensures calls == old(calls) + [StepSim(stepReply)]
    {
      err := stepReply;
      calls := calls + [StepSim(err)];
    }

    /** `upload_new_scenario(name, content)` */
    method UploadNewScenario(name: string, content: seq<string>) returns (err: Option<Error>)
      modifies this`calls
      ensures err == uploadReply
      ensures calls == old(calls) + [UploadScenario(name, content, uploadReply)]
    {
      err := uploadReply;
      calls := calls + [UploadScenario(name, content, err)];
    }

    /** `load_scenario(name)` */
    method LoadScenario(name: string) returns (err: Option<Error>)
      modifies this`calls
      ensures err == loadReply
      ensures calls == old(calls) + [LoadScenarioCall(name, loadReply)]
    {
      err := loadReply;
      calls := calls + [LoadScenarioCall(name, err)];
    }
  }
}
