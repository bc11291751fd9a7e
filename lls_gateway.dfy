/** The Llama Stack helpers of the chatbot (chatbot/src/lls_gateway.py):
    listing the LLM models, reading and validating the configured model
    name, finding that model, validating the arguments of a new agent, and
    turning the agent's streamed turn into display text. The Llama Stack
    client is replaced by the model list it serves. */
module LlsGateway {
  import opened PyRuntime
  import opened PyStrings

  const ENV_LLAMA_STACK_URL := "LLAMA_STACK_URL"
  const ENV_LLAMA_STACK_MODEL := "LLAMA_STACK_MODEL"

  const MISSING_MODEL := ValueError("LLama Stack Model is a required environment variable.  'LLAMA_STACK_MODEL' missing.")
  const EMPTY_MODEL := ValueError("LLama Stack Model is a required environment variable.  'LLAMA_STACK_MODEL' an empty string.")
  const MISSING_URL := ValueError("LLama Stack URL is a required environment variable.  'LLAMA_STACK_URL' missing.")
  const NO_CLIENT := ValueError("llama_stack_client is required and cannot be empty.")
  const NO_PROMPT := ValueError("prompt is required and cannot be empty.")
  const NO_MODEL_NAME := ValueError("model_name is required and cannot be empty")

  function ModelNotFound(name: string): Exception
  {
    ValueError("Model Not Found!  name=" + name)
  }

  /** A model registered with Llama Stack. */
  datatype LlsModel = LlsModel(identifier: string, apiModelType: string)

  /** The identifiers of the LLM models, in list order. */
  function LlmIdentifiers(models: seq<LlsModel>): (r: seq<string>)
    ensures |r| <= |models|
  {
    if models == [] then []
    else
      var m := models[|models| - 1];
      LlmIdentifiers(models[..|models| - 1]) + (if m.apiModelType == "llm" then [m.identifier] else [])
  }

  /** Lines 18-32: the identifiers appended model by model. */
  method GetAllLlsModelNames(models: seq<LlsModel>) returns (responseList: seq<string>)
    ensures responseList == LlmIdentifiers(models)
  {
    responseList := [];
    for i := 0 to |models|
      invariant responseList == LlmIdentifiers(models[..i])
    {
      assert models[..i + 1][..i] == models[..i];
      if models[i].apiModelType == "llm" {
        responseList := responseList + [models[i].identifier];
      }
    }
    assert models[..|models|] == models;
  }

  /** A name is listed exactly when some LLM model carries it. */
  lemma {:induction false} LlmIdentifiersMembership(models: seq<LlsModel>, name: string)
    ensures name in LlmIdentifiers(models) <==>
      exists i :: 0 <= i < |models| && models[i].apiModelType == "llm" && models[i].identifier == name
    decreases |models|
  {
    if models != [] {
      var front := models[..|models| - 1];
      LlmIdentifiersMembership(front, name);
      if exists i :: 0 <= i < |models| && models[i].apiModelType == "llm" && models[i].identifier == name {
        var i :| 0 <= i < |models| && models[i].apiModelType == "llm" && models[i].identifier == name;
        if i < |models| - 1 {
          assert front[i] == models[i];
        }
      }
    }
  }

  /** The listing of a concatenation is the listings of its parts, in order. */
  lemma {:induction false} LlmIdentifiersAppend(a: seq<LlsModel>, b: seq<LlsModel>)
    ensures LlmIdentifiers(a + b) == LlmIdentifiers(a) + LlmIdentifiers(b)
    decreases |b|
  {
    if b == [] {
      assert a + b == a;
    } else {
      var b' := b[..|b| - 1];
      var m := b[|b| - 1];
      var last := if m.apiModelType == "llm" then [m.identifier] else [];
      LlmIdentifiersAppend(a, b');
      assert (a + b)[..|a + b| - 1] == a + b';
      assert (a + b)[|a + b| - 1] == m;
      calc {
        LlmIdentifiers(a + b);
        LlmIdentifiers(a + b') + last;
        (LlmIdentifiers(a) + LlmIdentifiers(b')) + last;
        LlmIdentifiers(a) + (LlmIdentifiers(b') + last);
        LlmIdentifiers(a) + LlmIdentifiers(b);
      }
    }
  }

  /** Lines 34-47: the configured name with surrounding whitespace removed;
      missing, or nothing but whitespace, is an error. */
  function GetLlsModelName(env: Env): (r: Result<string>)
    ensures ENV_LLAMA_STACK_MODEL !in env ==> r == Failure(MISSING_MODEL)
    ensures ENV_LLAMA_STACK_MODEL in env ==> (r.Success? <==> !AllSpace(env[ENV_LLAMA_STACK_MODEL]))
    ensures ENV_LLAMA_STACK_MODEL in env && r.Failure? ==> r.error == EMPTY_MODEL
    ensures r.Success? ==>
      && r.value == Strip(env[ENV_LLAMA_STACK_MODEL])
      && |r.value| > 0
      && !IsSpace(r.value[0]) && !IsSpace(r.value[|r.value| - 1])
  {
    if ENV_LLAMA_STACK_MODEL !in env then Failure(MISSING_MODEL)
    else
      var name := Strip(env[ENV_LLAMA_STACK_MODEL]);
      StripEmptyIffAllSpace(env[ENV_LLAMA_STACK_MODEL]);
      if |name| == 0 then Failure(EMPTY_MODEL) else Success(name)
  }

  /** Lines 73-79: the first model whose identifier is the name. */
  method FindModel(models: seq<LlsModel>, name: string) returns (r: Result<LlsModel>)
    ensures r.Success? <==> exists i :: 0 <= i < |models| && models[i].identifier == name
    ensures r.Failure? ==> r.error == ModelNotFound(name)
    ensures r.Success? ==>
      exists i :: 0 <= i < |models| && models[i] == r.value && r.value.identifier == name
        && forall j :: 0 <= j < i ==> models[j].identifier != name
  {
    var found: Option<LlsModel> := None;
    var i := 0;
    while i < |models|
      invariant 0 <= i <= |models|
      invariant found.None?
      invariant forall j :: 0 <= j < i ==> models[j].identifier != name
    {
      if models[i].identifier == name {
        found := Some(models[i]);
        break;
      }
      i := i + 1;
    }
    if found.None? {
      return Failure(ModelNotFound(name));
    }
    return Success(found.value);
  }

  /** The client, reduced to the URL it talks to. */
  datatype LlsClient = LlsClient(baseUrl: string)

  datatype Connection = Connection(client: LlsClient, model: LlsModel)

  /** Lines 49-81: the URL is required, then the model name, then a model
      of that name among those the server lists. `listModels` is what the
      server behind a URL lists. */
  method LlsConnect(env: Env, listModels: string -> seq<LlsModel>) returns (r: Result<Connection>)
    ensures ENV_LLAMA_STACK_URL !in env ==> r == Failure(MISSING_URL)
    ensures ENV_LLAMA_STACK_URL in env && GetLlsModelName(env).Failure? ==> r == Failure(GetLlsModelName(env).error)
    ensures ENV_LLAMA_STACK_URL in env && GetLlsModelName(env).Success? ==>
      var url := env[ENV_LLAMA_STACK_URL];
      var name := GetLlsModelName(env).value;
      && (r.Success? <==> exists i :: 0 <= i < |listModels(url)| && listModels(url)[i].identifier == name)
      && (r.Failure? ==> r.error == ModelNotFound(name))
      && (r.Success? ==> r.value.client == LlsClient(url) && r.value.model.identifier == name)
      && (r.Success? ==>
            exists i :: (0 <= i < |listModels(url)| && listModels(url)[i] == r.value.model
              && forall j :: 0 <= j < i ==> listModels(url)[j].identifier != name))
  {
    if ENV_LLAMA_STACK_URL !in env {
      return Failure(MISSING_URL);
    }
    var url := env[ENV_LLAMA_STACK_URL];
    var client := LlsClient(url);
    var name := GetLlsModelName(env);
    if name.Failure? {
      return Failure(name.error);
    }
    var model := FindModel(listModels(url), name.value);
    if model.Failure? {
      return Failure(model.error);
    }
    return Success(Connection(client, model.value));
  }

  /** The sampling parameters of a new agent. */
  datatype SamplingParams = SamplingParams(maxTokens: int, repetitionPenalty: real, strategy: string, temperature: real, topP: real)

  datatype AgentConfig = AgentConfig(
    toolChoice: string,
    toolConfigChoice: string,
    toolgroups: Option<seq<string>>,
    model: string,
    instructions: string,
    enableSessionPersistence: bool,
    samplingParams: SamplingParams,
    maxInferIters: int)

  datatype Agent = Agent(client: LlsClient, config: AgentConfig)

  /** Lines 92-97: the client, then the prompt, then the model name. */
  function AgentArgumentError(client: Option<LlsClient>, modelName: Option<string>, prompt: Option<string>): (r: Option<Exception>)
    ensures r.None? <==> client.Some? && Given(prompt) && Given(modelName)
    ensures client.None? ==> r == Some(NO_CLIENT)
    ensures client.Some? && !Given(prompt) ==> r == Some(NO_PROMPT)
    ensures client.Some? && Given(prompt) && !Given(modelName) ==> r == Some(NO_MODEL_NAME)
  {
    if client.None? then Some(NO_CLIENT)
    else if prompt.None? || |prompt.value| == 0 then Some(NO_PROMPT)
    else if modelName.None? || |modelName.value| == 0 then Some(NO_MODEL_NAME)
    else None
  }

  /** Lines 106-120: the configuration of an agent with the given tool groups. */
  function AgentConfigFor(toolgroups: Option<seq<string>>, modelName: string, prompt: string): AgentConfig
  {
    AgentConfig("auto", "auto", toolgroups, modelName, prompt, true, SamplingParams(1000, 1.1, "top_p", 0.1, 0.1), 10)
  }

  /** Lines 83-128 as written: the fallback meant for an absent tool list
      (lines 99-102) tests the client again, which line 92 has already
      ruled out, so an absent tool list reaches the configuration as `None`. */
  function CreateAgentAsWritten(client: Option<LlsClient>, modelName: Option<string>, prompt: Option<string>, toolsList: Option<seq<string>>): (r: Result<Agent>)
    ensures r.Success? <==> AgentArgumentError(client, modelName, prompt).None?
    ensures r.Failure? ==> r.error == AgentArgumentError(client, modelName, prompt).value
    ensures r.Success? ==>
      && r.value.client == client.value
      && r.value.config.model == modelName.value
      && r.value.config.instructions == prompt.value
      && r.value.config.toolgroups == toolsList
  {
    var err := AgentArgumentError(client, modelName, prompt);
    if err.Some? then Failure(err.value)
    else Success(Agent(client.value, AgentConfigFor(toolsList, modelName.value, prompt.value)))
  }

  /** The discrepancy: valid arguments with no tool list give an agent whose
      tool groups are `None`, not the empty list the warning at line 101 announces. */
  lemma AsWrittenKeepsNoneTools(client: LlsClient, modelName: string, prompt: string)
    requires |modelName| > 0 && |prompt| > 0
    ensures CreateAgentAsWritten(Some(client), Some(modelName), Some(prompt), None).Success?
    ensures CreateAgentAsWritten(Some(client), Some(modelName), Some(prompt), None).value.config.toolgroups.None?
  {
  }

  /** `lls_create_agent` with the fallback applied to the tool list: the
      agent always gets a list of tool groups, the given one or none. */
  function CreateAgent(client: Option<LlsClient>, modelName: Option<string>, prompt: Option<string>, toolsList: Option<seq<string>>): (r: Result<Agent>)
    ensures r.Success? <==> AgentArgumentError(client, modelName, prompt).None?
    ensures r.Failure? ==> r.error == AgentArgumentError(client, modelName, prompt).value
    ensures r.Success? ==>
      && r.value.client == client.value
      && r.value.config.model == modelName.value
      && r.value.config.instructions == prompt.value
      && r.value.config.toolgroups.Some?
      && (toolsList.Some? ==> r.value.config.toolgroups == toolsList)
      && (toolsList.None? ==> r.value.config.toolgroups == Some([]))
  {
    var err := AgentArgumentError(client, modelName, prompt);
    if err.Some? then Failure(err.value)
    else
      var toolgroups := if toolsList.None? then [] else toolsList.value;
      Success(Agent(client.value, AgentConfigFor(Some(toolgroups), modelName.value, prompt.value)))
  }

  /** The corrected creation differs from the written one only where a tool
      list is absent. */
  lemma CreateAgentAgreesWhenToolsGiven(client: Option<LlsClient>, modelName: Option<string>, prompt: Option<string>, toolsList: seq<string>)
    ensures CreateAgent(client, modelName, prompt, Some(toolsList)) == CreateAgentAsWritten(client, modelName, prompt, Some(toolsList))
  {
  }

  /** `step_details` of a completed step; the tool calls by tool name. */
  datatype StepDetails = StepDetails(stepType: string, toolCalls: seq<string>)

  /** The payload of a turn event; `deltaText` is `None` when the delta has no text. */
  datatype Payload = Payload(eventType: string, deltaText: Option<string>, stepDetails: StepDetails)

  /** A chunk of the turn stream: its event's payload, when it has one, and
      the chunk's printed form. */
  datatype TurnChunk = TurnChunk(payload: Option<Payload>, display: string)

  const NO_TOOL_CALLS := "No tool_calls present in step_details"
  const CLUSTER_ERROR := "Error occurred in the Llama Stack Cluster: "

  /** The tool-use marker of line 155. The source file holds the hammer and
      wrench emoji mis-encoded as the four characters U+00F0 U+0178 U+203A
      U+00A0, and the model keeps them. */
  function ToolMarker(toolName: string): string
  {
    "\n\n\U{00F0}\U{0178}\U{203A}\U{00A0} :grey[_Using \"" + toolName + "\" tool:_]\n\n"
  }

  /** The marker names its tool: different tools give different markers. */
  lemma ToolMarkerInjective(a: string, b: string)
    requires ToolMarker(a) == ToolMarker(b)
    ensures a == b
  {
    var prefix := "\n\n\U{00F0}\U{0178}\U{203A}\U{00A0} :grey[_Using \"";
    var suffix := "\" tool:_]\n\n";
    assert ToolMarker(a) == prefix + a + suffix && ToolMarker(b) == prefix + b + suffix;
    assert ToolMarker(a)[|prefix|..|prefix| + |a|] == a;
    assert ToolMarker(b)[|prefix|..|prefix| + |b|] == b;
  }

  /** Lines 145-159: what one chunk yields, none or one string. */
  function ChunkOutputs(c: TurnChunk): (out: seq<string>)
    ensures |out| <= 1
    ensures c.payload.None? ==> out == [CLUSTER_ERROR + c.display]
    ensures c.payload.Some? && c.payload.value.eventType == "step_progress" ==>
      out == (if c.payload.value.deltaText.Some? then [c.payload.value.deltaText.value] else [])
    ensures c.payload.Some? && c.payload.value.eventType == "step_complete" && c.payload.value.stepDetails.stepType == "tool_execution" ==>
      out == (if |c.payload.value.stepDetails.toolCalls| > 0 then [ToolMarker(c.payload.value.stepDetails.toolCalls[0])] else [NO_TOOL_CALLS])
    ensures (&& c.payload.Some?
             && c.payload.value.eventType != "step_progress"
             && !(c.payload.value.eventType == "step_complete" && c.payload.value.stepDetails.stepType == "tool_execution"))
      ==> out == []
  {
    if c.payload.None? then [CLUSTER_ERROR + c.display]
    else
      var p := c.payload.value;
      var progress := if p.eventType == "step_progress" && p.deltaText.Some? then [p.deltaText.value] else [];
      var complete :=
        if p.eventType == "step_complete" && p.stepDetails.stepType == "tool_execution" then
          if |p.stepDetails.toolCalls| > 0 then [ToolMarker(p.stepDetails.toolCalls[0])] else [NO_TOOL_CALLS]
        else [];
      progress + complete
  }

  /** The outputs of `f` on each element, concatenated in order. */
  function FlatMap<T, U>(f: T -> seq<U>, xs: seq<T>): seq<U>
  {
    if xs == [] then [] else FlatMap(f, xs[..|xs| - 1]) + f(xs[|xs| - 1])
  }

  lemma {:induction false} FlatMapAppend<T, U>(f: T -> seq<U>, a: seq<T>, b: seq<T>)
    ensures FlatMap(f, a + b) == FlatMap(f, a) + FlatMap(f, b)
    decreases |b|
  {
    if b == [] {
      assert a + b == a;
    } else {
      var b' := b[..|b| - 1];
      FlatMapAppend(f, a, b');
      assert (a + b)[..|a + b| - 1] == a + b';
      assert (a + b)[|a + b| - 1] == b[|b| - 1];
    }
  }

  /** Everything the generator yields for a turn, in order. */
  function TurnOutputs(chunks: seq<TurnChunk>): seq<string>
  {
    FlatMap(ChunkOutputs, chunks)
  }

  /** The output of a split stream is the outputs of its parts, in order. */
  lemma TurnOutputsAppend(a: seq<TurnChunk>, b: seq<TurnChunk>)
    ensures TurnOutputs(a + b) == TurnOutputs(a) + TurnOutputs(b)
  {
    FlatMapAppend(ChunkOutputs, a, b);
  }

  /** Every chunk without a payload shows up as an error line. */
  lemma {:induction false} ErrorsAreReported(chunks: seq<TurnChunk>, k: nat)
    requires k < |chunks| && chunks[k].payload.None?
    ensures CLUSTER_ERROR + chunks[k].display in TurnOutputs(chunks)
    decreases |chunks|
  {
    var front := chunks[..|chunks| - 1];
    if k < |chunks| - 1 {
      assert front[k] == chunks[k];
      ErrorsAreReported(front, k);
    }
  }
}
