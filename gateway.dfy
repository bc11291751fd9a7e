/** The chatbot's gateway object (chatbot/src/gateway.py) together with
    what the Responses API subclass (chatbot/src/responses_gateway.py)
    overrides and adds. The base class and the subclass are one class here,
    told apart by `provider`: a `Base` gateway raises where the base class
    leaves a method unimplemented, a `Responses` gateway does what the
    subclass does. The OpenAI client, the `/toolgroups` listing and the
    response stream are parameters. */
module Gateway {
  import opened PyRuntime
  import opened StringOrder
  import PyStrings
  import RG = ResponsesGateway
  import RA = ResponsesApiGateway

  const ENV_DEFAULT_MODEL := "DEFAULT_MODEL"

  const NO_DEFAULT_MODEL := ValueError("Default model not set and all_models list is empty or not provided!")
  const GET_MODELS_NOT_IMPLEMENTED := NotImplementedError("get_models() is not implemented!")
  const PREFERRED_NOT_IMPLEMENTED := NotImplementedError("get_preferred_default_model() is not implemented!")
  const CONNECT_NOT_IMPLEMENTED := NotImplementedError("connect() is not implemented!")

  /** Reading `openai_base_url` or `openai_client` before `connect` has
      assigned it: the class only annotates these attributes. */
  const NO_BASE_URL_ATTRIBUTE := AttributeError("'ResponsesGateway' object has no attribute 'openai_base_url'")
  const NO_CLIENT_ATTRIBUTE := AttributeError("'ResponsesGateway' object has no attribute 'openai_client'")

  /** Which class the gateway is an instance of. */
  datatype Provider = Base | Responses

  class Gateway {
    const provider: Provider
    /** The selected model; `None` until chosen. */
    var modelName: Option<string>
    /** The id of the last completed response, continuing the conversation. */
    var previousResponseId: Option<string>
    /** Whether `connect` has assigned `openai_base_url`; it does so
        before the API key is checked. */
    var baseUrlAssigned: bool
    /** The base URL `connect` assigned; `None` when none is configured. */
    var openaiBaseUrl: Option<string>
    var openaiApiKey: Option<string>
    /** The OpenAI client; present once `connect` has succeeded, and
        unassigned (an `AttributeError` when read) before that. */
    var client: Option<RA.OpenAIClient>

    /** A base gateway has no connection state; a client holds the key it was made with. */
    predicate Valid()
      reads this
    {
      && (provider == Base ==> client.None? && previousResponseId.None? && !baseUrlAssigned && openaiApiKey.None?)
      && (!baseUrlAssigned ==> openaiBaseUrl.None? && client.None?)
      && (client.Some? ==> openaiApiKey == Some(client.value.apiKey))
    }

    constructor (provider: Provider)
      ensures this.provider == provider
      ensures modelName.None? && previousResponseId.None?
      ensures !baseUrlAssigned && openaiBaseUrl.None? && openaiApiKey.None? && client.None?
      ensures Valid()
    {
      this.provider := provider;
      baseUrlAssigned := false;
      modelName := None;
      previousResponseId := None;
      openaiBaseUrl := None;
      openaiApiKey := None;
      client := None;
    }

    /** chatbot/src/gateway.py lines 36-38, overridden at
        chatbot/src/responses_gateway.py lines 55-58. */
    function PreferredDefaultModel(env: Env): (r: Result<string>)
      ensures provider == Base ==> r == Failure(PREFERRED_NOT_IMPLEMENTED)
      ensures provider == Responses ==> r.Success? && |r.value| > 0
      ensures provider == Responses ==> r.value == RG.PreferredDefaultModel(env)
    {
      match provider
      case Base => Failure(PREFERRED_NOT_IMPLEMENTED)
      case Responses => Success(RG.PreferredDefaultModel(env))
    }

    /** chatbot/src/gateway.py lines 46-69: the configured model whenever
        set; else, from a non-empty list, the preferred model if listed and
        the first one if not; else an error. */
    function GetDefaultModel(env: Env, allModels: Option<seq<string>>): (r: Result<string>)
      ensures ENV_DEFAULT_MODEL in env ==> r == Success(env[ENV_DEFAULT_MODEL])
      ensures ENV_DEFAULT_MODEL !in env && (allModels.None? || |allModels.value| == 0) ==> r == Failure(NO_DEFAULT_MODEL)
      ensures ENV_DEFAULT_MODEL !in env && r.Success? ==> allModels.Some? && r.value in allModels.value
      ensures ENV_DEFAULT_MODEL !in env && allModels.Some? && |allModels.value| > 0 && provider == Base ==>
        r == Failure(PREFERRED_NOT_IMPLEMENTED)
    {
      if ENV_DEFAULT_MODEL !in env then
        if allModels.Some? && |allModels.value| > 0 then
          var preferred :- PreferredDefaultModel(env);
          if preferred in allModels.value then Success(preferred) else Success(allModels.value[0])
        else Failure(NO_DEFAULT_MODEL)
      else Success(env[ENV_DEFAULT_MODEL])
    }

    /** The Responses gateway chooses its default model exactly as the
        module-level `get_default_model` of the Responses API chatbot. */
    lemma ResponsesDefaultModelAgrees(env: Env, allModels: Option<seq<string>>)
      requires provider == Responses
      ensures GetDefaultModel(env, allModels) == RA.GetDefaultModel(env, allModels)
    {
      if ENV_DEFAULT_MODEL !in env {
        assert RG.PreferredDefaultModel(env) == RA.PREFERRED_DEFAULT_MODEL;
      }
    }

    /** chatbot/src/gateway.py lines 18-20: the model is chosen on first use
        and kept afterwards; a failed choice leaves it unset. */
    method GetSelectedModel(env: Env) returns (r: Result<string>)
      modifies this`modelName
      ensures old(modelName).Some? ==> r == Success(old(modelName).value) && modelName == old(modelName)
      ensures old(modelName).None? ==> r == PreferredDefaultModel(env)
      ensures r.Success? ==> modelName == Some(r.value)
      ensures r.Failure? ==> modelName.None?
    {
      if modelName.None? {
        var preferred := PreferredDefaultModel(env);
        if preferred.Failure? {
          return Failure(preferred.error);
        }
        modelName := Some(preferred.value);
      }
      return Success(modelName.value);
    }

    /** chatbot/src/gateway.py line 77, extended at
        chatbot/src/responses_gateway.py lines 95-96: the new model is the
        selected one and a Responses conversation starts afresh. */
    method OnModelChange(newModelName: string)
      modifies this`modelName, this`previousResponseId
      ensures modelName == Some(newModelName)
      ensures provider == Responses ==> previousResponseId.None?
      ensures provider == Base ==> previousResponseId == old(previousResponseId)
    {
      modelName := Some(newModelName);
      if provider == Responses {
        previousResponseId := None;
      }
    }

    /** chatbot/src/gateway.py lines 27-29, overridden at
        chatbot/src/responses_gateway.py lines 38-47: the ids of the models
        the client lists, sorted; without a client, the `AttributeError`
        of line 38. */
    method GetModels(listed: seq<RA.OpenAIModel>) returns (r: Result<seq<string>>)
      ensures provider == Base ==> r == Failure(GET_MODELS_NOT_IMPLEMENTED)
      ensures provider == Responses && client.None? ==> r == Failure(NO_CLIENT_ATTRIBUTE)
      ensures provider == Responses && client.Some? ==>
        r.Success? && Sorted(r.value) && multiset(r.value) == multiset(RA.ModelIds(listed))
    {
      if provider == Base {
        return Failure(GET_MODELS_NOT_IMPLEMENTED);
      }
      if client.None? {
        return Failure(NO_CLIENT_ATTRIBUTE);
      }
      var responseList := RA.GetModels(listed);
      return Success(responseList);
    }

    /** chatbot/src/gateway.py lines 43-44, overridden at
        chatbot/src/responses_gateway.py lines 61-87: the base URL is
        recorded first, then the API key is required. */
    method Connect(env: Env) returns (err: Option<Exception>)
      requires Valid()
      modifies this`baseUrlAssigned, this`openaiBaseUrl, this`openaiApiKey, this`client
      ensures Valid()
      ensures provider == Base ==> err == Some(CONNECT_NOT_IMPLEMENTED) && unchanged(this)
      ensures provider == Responses ==> baseUrlAssigned && openaiBaseUrl == Lookup(env, RA.ENV_OPENAI_BASE_URL)
      ensures provider == Responses ==> (err.None? <==> RA.OpenAIConnect(env).Success?)
      ensures provider == Responses && err.None? ==>
        client == Some(RA.OpenAIConnect(env).value) && openaiApiKey == Some(env[RA.ENV_OPENAI_API_KEY])
      ensures provider == Responses && err.Some? ==>
        err == Some(RA.MISSING_API_KEY) && client == old(client) && openaiApiKey == old(openaiApiKey)
    {
      if provider == Base {
        return Some(CONNECT_NOT_IMPLEMENTED);
      }
      var baseUrl: Option<string> := None;
      if RA.ENV_OPENAI_BASE_URL in env {
        baseUrl := Some(env[RA.ENV_OPENAI_BASE_URL]);
      }
      openaiBaseUrl := baseUrl;
      baseUrlAssigned := true;
      if RA.ENV_OPENAI_API_KEY !in env {
        return Some(RA.MISSING_API_KEY);
      }
      var apiKey := env[RA.ENV_OPENAI_API_KEY];
      openaiApiKey := Some(apiKey);
      client := Some(RA.OpenAIClient(baseUrl, apiKey));
      return None;
    }

    /** chatbot/src/responses_gateway.py lines 182-232: the MCP groups of the
        `/toolgroups` listing at the base URL, as tool entries. Line 193
        reads `openai_base_url`: unassigned before `connect`, and `None`
        when `connect` found no base URL. */
    method GetAllMcpsAsTools(matchList: Option<seq<string>>, fetch: string -> seq<RG.ToolGroup>) returns (r: Result<seq<RG.McpServer>>)
      requires provider == Responses
      ensures !baseUrlAssigned ==> r == Failure(NO_BASE_URL_ATTRIBUTE)
      ensures baseUrlAssigned && openaiBaseUrl.None? ==> r == Failure(RG.NO_BASE_URL)
      ensures baseUrlAssigned && openaiBaseUrl.Some? ==>
        r == Success(RG.McpToolsOf(fetch(openaiBaseUrl.value + "/toolgroups"), matchList))
    {
      if !baseUrlAssigned {
        return Failure(NO_BASE_URL_ATTRIBUTE);
      }
      if openaiBaseUrl.None? {
        return Failure(RG.NO_BASE_URL);
      }
      var toolGroups := fetch(openaiBaseUrl.value + "/toolgroups");
      var mcpServerList: seq<RG.McpServer> := [];
      for i := 0 to |toolGroups|
        invariant mcpServerList == RG.McpToolsOf(toolGroups[..i], matchList)
      {
        var tool := toolGroups[i];
        ghost var before := mcpServerList;
        RG.McpToolsPrefixStep(toolGroups, i, matchList);
        if tool.kind.Some? && tool.kind.value == "tool_group" &&
           tool.providerId.Some? && tool.providerId.value == "model-context-protocol" {
          var resourceId := tool.providerResourceId;
          if matchList.None? || |matchList.value| == 0 || (resourceId.Some? && resourceId.value in matchList.value) {
            var uri: Option<string> := None;
            if tool.mcpEndpoint.Some? {
              uri := tool.mcpEndpoint.value.uri;
            }
            if uri.Some? && |uri.value| > 0 {
              mcpServerList := mcpServerList + [RG.McpServer("mcp", resourceId, uri.value, "never")];
            }
          }
        }
        assert mcpServerList == if RG.Kept(tool, matchList) then before + [RG.EntryFor(tool)] else before;
      }
      assert toolGroups[..|toolGroups|] == toolGroups;
      return Success(mcpServerList);
    }

    /** The tool list of lines 107-151: the configured entries, else the
        listing `GetAllMcpsAsTools` fetches, failing when `connect` has not
        assigned the base URL. */
    function Tools(env: Env, labels: RG.AgentLabels, fetch: string -> seq<RG.ToolGroup>): Result<seq<RG.McpServer>>
      reads this
    {
      if RG.EnvMcpServers(env, labels).None? && !baseUrlAssigned then Failure(NO_BASE_URL_ATTRIBUTE)
      else RG.ToolList(env, labels, openaiBaseUrl, fetch)
    }

    /** chatbot/src/responses_gateway.py lines 99-179: build the tool list,
        send the question with the selected model and the previous response
        id, concatenate the streamed text, and remember the id of the
        completed response. `stream` is the Responses API. The client is
        read (line 155) before the model is selected, so without one the
        call fails with no state changed. */
    method ProcessUserChat(env: Env, userInput: string, instructions: string, labels: RG.AgentLabels,
                           fetch: string -> seq<RG.ToolGroup>, stream: RG.ChatRequest -> seq<RG.ResponseEvent>)
      returns (r: Result<string>)
      requires provider == Responses && Valid()
      modifies this`modelName, this`previousResponseId
      ensures Valid()
      ensures Tools(env, labels, fetch).Failure? ==>
        r == Failure(Tools(env, labels, fetch).error) && unchanged(this)
      ensures Tools(env, labels, fetch).Success? && client.None? ==>
        r == Failure(NO_CLIENT_ATTRIBUTE) && unchanged(this)
      ensures Tools(env, labels, fetch).Success? && client.Some? ==>
        var model := if old(modelName).Some? then old(modelName).value else RG.PreferredDefaultModel(env);
        var request := RG.ChatRequestFor(model, instructions, userInput, Tools(env, labels, fetch).value, old(previousResponseId));
        && modelName == Some(model)
        && r == Success(RG.Transcript(stream(request)))
        && previousResponseId == RG.LastResponseId(stream(request), old(previousResponseId))
    {
      var mcpList: seq<RG.McpServer>;
      var configured := RG.EnvMcpServers(env, labels);
      if configured.Some? {
        mcpList := configured.value;
      } else {
        var fetched := GetAllMcpsAsTools(Some(labels.all), fetch);
        if fetched.Failure? {
          return Failure(fetched.error);
        }
        mcpList := fetched.value;
      }
      if client.None? {
        return Failure(NO_CLIENT_ATTRIBUTE);
      }
      var model := GetSelectedModel(env);
      var request := RG.ChatRequestFor(model.value, instructions, userInput, mcpList, previousResponseId);
      var events := stream(request);
      ghost var initialId := previousResponseId;
      var aiResponse := "";
      for i := 0 to |events|
        invariant aiResponse == RG.Transcript(events[..i])
        invariant previousResponseId == RG.LastResponseId(events[..i], initialId)
        invariant modelName == Some(model.value)
      {
        var event := events[i];
        RG.StreamPrefixStep(events, i, initialId);
        if event.kind.Some? && PyStrings.Contains(event.kind.value, "text.delta") {
          aiResponse := aiResponse + event.delta;
        } else if event.kind.Some? && PyStrings.Contains(event.kind.value, "response.completed") {
          previousResponseId := Some(event.responseId);
        }
        assert aiResponse == RG.Transcript(events[..i + 1]);
      }
      assert events[..|events|] == events;
      return Success(aiResponse);
    }
  }
}
