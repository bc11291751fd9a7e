/** The module-level helpers of the Responses API chatbot
    (chatbot.responses-api/src/gateway.py): the sorted model list, the
    choice of a default model, and the configuration an OpenAI client is
    created from. */
module ResponsesApiGateway {
  import opened PyRuntime
  import opened StringOrder

  const ENV_OPENAI_BASE_URL := "OPENAI_BASE_URL"
  const ENV_OPENAI_API_KEY := "OPENAI_API_KEY"
  const ENV_DEFAULT_MODEL := "DEFAULT_MODEL"

  const PREFERRED_DEFAULT_MODEL := "openai/gpt-4"

  const NO_DEFAULT_MODEL := ValueError("Default model not set and all_models list is empty or not provided!")

  const MISSING_API_KEY := ValueError("OpenAI API Key is a required environment variable.  'OPENAI_API_KEY' missing.")

  /** A model as the provider lists it. */
  datatype OpenAIModel = OpenAIModel(id: string)

  function ModelIds(models: seq<OpenAIModel>): seq<string>
  {
    seq(|models|, i requires 0 <= i < |models| => models[i].id)
  }

  /** Lines 29-34: the listed ids, appended one by one and then sorted. */
  method GetModels(models: seq<OpenAIModel>) returns (responseList: seq<string>)
    ensures Sorted(responseList)
    ensures multiset(responseList) == multiset(ModelIds(models))
  {
    responseList := [];
    for i := 0 to |models|
      invariant responseList == ModelIds(models[..i])
    {
      responseList := responseList + [models[i].id];
    }
    assert models[..|models|] == models;
    responseList := SortStrings(responseList);
  }

  /** Sorted and a permutation of the ids is all there is to know: any two
      results of `GetModels` on the same list agree. */
  lemma GetModelsDeterminate(models: seq<OpenAIModel>, a: seq<string>, b: seq<string>)
    requires Sorted(a) && multiset(a) == multiset(ModelIds(models))
    requires Sorted(b) && multiset(b) == multiset(ModelIds(models))
    ensures a == b
  {
    SortedPermutationUnique(a, b);
  }

  /** Lines 36-58: the configured model if the variable is set (even to the
      empty string); else the preferred model when listed, else the first
      listed one; with no list to choose from, an error. */
  function GetDefaultModel(env: Env, allModels: Option<seq<string>>): (r: Result<string>)
    ensures ENV_DEFAULT_MODEL in env ==> r == Success(env[ENV_DEFAULT_MODEL])
    ensures ENV_DEFAULT_MODEL !in env ==> (r.Success? <==> allModels.Some? && |allModels.value| > 0)
    ensures ENV_DEFAULT_MODEL !in env && r.Success? ==>
      && r.value in allModels.value
      && (PREFERRED_DEFAULT_MODEL in allModels.value ==> r.value == PREFERRED_DEFAULT_MODEL)
      && (PREFERRED_DEFAULT_MODEL !in allModels.value ==> r.value == allModels.value[0])
    ensures r.Failure? ==> r.error == NO_DEFAULT_MODEL
  {
    if ENV_DEFAULT_MODEL !in env then
      if allModels.Some? && |allModels.value| > 0 then
        if PREFERRED_DEFAULT_MODEL in allModels.value then Success(PREFERRED_DEFAULT_MODEL)
        else Success(allModels.value[0])
      else Failure(NO_DEFAULT_MODEL)
    else Success(env[ENV_DEFAULT_MODEL])
  }

  /** What the OpenAI client is created with. */
  datatype OpenAIClient = OpenAIClient(baseUrl: Option<string>, apiKey: string)

  /** Lines 60-87: the API key is required; the base URL is optional and,
      when absent, the client talks to OpenAI directly. */
  function OpenAIConnect(env: Env): (r: Result<OpenAIClient>)
    ensures r.Success? <==> ENV_OPENAI_API_KEY in env
    ensures r.Success? ==> r.value.apiKey == env[ENV_OPENAI_API_KEY]
    ensures r.Success? ==> (r.value.baseUrl.Some? <==> ENV_OPENAI_BASE_URL in env)
    ensures r.Success? && ENV_OPENAI_BASE_URL in env ==> r.value.baseUrl == Some(env[ENV_OPENAI_BASE_URL])
    ensures r.Failure? ==> r.error == MISSING_API_KEY
  {
    var baseUrl := if ENV_OPENAI_BASE_URL !in env then None else Some(env[ENV_OPENAI_BASE_URL]);
    if ENV_OPENAI_API_KEY !in env then Failure(MISSING_API_KEY)
    else Success(OpenAIClient(baseUrl, env[ENV_OPENAI_API_KEY]))
  }
}
