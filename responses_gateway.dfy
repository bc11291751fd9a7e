/** The value-level logic of the Responses API gateway
    (chatbot/src/responses_gateway.py): the preferred default model, the MCP
    server entries handed to the Responses API as tools, and the fold over
    the streamed response events. The gateway object itself, whose fields
    these change, is the `Gateway` class. */
module ResponsesGateway {
  import opened PyRuntime
  import opened PyStrings

  const ENV_DEFAULT_MODEL := "DEFAULT_MODEL"
  const ENV_AGENT_UTILITIES_URL := "AGENT_UTILITIES_URL"
  const ENV_AGENT_TEAM_URL := "AGENT_TEAM_URL"
  const ENV_AGENT_GAME_URL := "AGENT_GAME_URL"

  const PREFERRED_DEFAULT_MODEL := "openai/gpt-4"

  /** What `None + "/toolgroups"` raises when no base URL was configured. */
  const NO_BASE_URL := TypeError("unsupported operand type(s) for +: 'NoneType' and 'str'")

  /** Lines 55-58: the configured model when set to something, else the preferred one. */
  function PreferredDefaultModel(env: Env): (r: string)
    ensures |r| > 0
    ensures r == PREFERRED_DEFAULT_MODEL || (ENV_DEFAULT_MODEL in env && r == env[ENV_DEFAULT_MODEL])
    ensures ENV_DEFAULT_MODEL in env && |env[ENV_DEFAULT_MODEL]| > 0 ==> r == env[ENV_DEFAULT_MODEL]
    ensures ENV_DEFAULT_MODEL !in env ==> r == PREFERRED_DEFAULT_MODEL
  {
    if ENV_DEFAULT_MODEL in env && |env[ENV_DEFAULT_MODEL]| > 0 then env[ENV_DEFAULT_MODEL]
    else PREFERRED_DEFAULT_MODEL
  }

  /** An MCP server entry of the Responses API `tools` list. */
  datatype McpServer = McpServer(kind: string, serverLabel: Option<string>, serverUrl: string, requireApproval: string)

  function McpEntry(serverLabel: Option<string>, url: string): McpServer
  {
    McpServer("mcp", serverLabel, url, "never")
  }

  /** The labels the chatbot gives its three agents, and all of them as a match list. */
  datatype AgentLabels = AgentLabels(utilities: string, team: string, game: string, all: seq<string>)

  /** An agent URL set in the environment to something non-empty. */
  predicate UrlGiven(env: Env, key: string)
  {
    key in env && |env[key]| > 0
  }

  /** Lines 108-148: the three agents' entries, in the order utilities, team,
      game, when all three URLs are configured; `None` otherwise. */
  function EnvMcpServers(env: Env, labels: AgentLabels): (r: Option<seq<McpServer>>)
    ensures r.Some? <==> UrlGiven(env, ENV_AGENT_UTILITIES_URL) && UrlGiven(env, ENV_AGENT_TEAM_URL) && UrlGiven(env, ENV_AGENT_GAME_URL)
    ensures r.Some? ==>
      && |r.value| == 3
      && (forall e :: e in r.value ==> e.kind == "mcp" && e.requireApproval == "never" && |e.serverUrl| > 0)
      && r.value[0].serverLabel == Some(labels.utilities) && r.value[0].serverUrl == env[ENV_AGENT_UTILITIES_URL]
      && r.value[1].serverLabel == Some(labels.team) && r.value[1].serverUrl == env[ENV_AGENT_TEAM_URL]
      && r.value[2].serverLabel == Some(labels.game) && r.value[2].serverUrl == env[ENV_AGENT_GAME_URL]
  {
    var utilities := Lookup(env, ENV_AGENT_UTILITIES_URL);
    var team := Lookup(env, ENV_AGENT_TEAM_URL);
    var game := Lookup(env, ENV_AGENT_GAME_URL);
    if utilities.Some? && |utilities.value| > 0 && team.Some? && |team.value| > 0 && game.Some? && |game.value| > 0 then
      Some([McpEntry(Some(labels.utilities), utilities.value),
            McpEntry(Some(labels.team), team.value),
            McpEntry(Some(labels.game), game.value)])
    else None
  }

  /** The `mcp_endpoint` object of a tool group. */
  datatype Endpoint = Endpoint(uri: Option<string>)

  /** A record of the `/toolgroups` listing; JSON `null` is `None`. */
  datatype ToolGroup = ToolGroup(
    kind: Option<string>,
    providerId: Option<string>,
    providerResourceId: Option<string>,
    mcpEndpoint: Option<Endpoint>)

  /** Lines 202-203: a tool group served over the Model Context Protocol. */
  predicate IsMcpGroup(t: ToolGroup)
  {
    t.kind == Some("tool_group") && t.providerId == Some("model-context-protocol")
  }

  /** Line 209: no match list, or an empty one, lets every group through. */
  predicate InMatchList(t: ToolGroup, matchList: Option<seq<string>>)
  {
    matchList.None? || |matchList.value| == 0
    || (t.providerResourceId.Some? && t.providerResourceId.value in matchList.value)
  }

  function EndpointUri(t: ToolGroup): Option<string>
  {
    if t.mcpEndpoint.None? then None else t.mcpEndpoint.value.uri
  }

  /** A group that yields an entry: an MCP group in the match list with a non-empty URI. */
  predicate Kept(t: ToolGroup, matchList: Option<seq<string>>)
  {
    IsMcpGroup(t) && InMatchList(t, matchList) && EndpointUri(t).Some? && |EndpointUri(t).value| > 0
  }

  function EntryFor(t: ToolGroup): McpServer
    requires EndpointUri(t).Some?
  {
    McpEntry(t.providerResourceId, EndpointUri(t).value)
  }

  /** The entries `get_all_mcps_as_tools` builds from a listing, in listing order. */
  function McpToolsOf(groups: seq<ToolGroup>, matchList: Option<seq<string>>): (r: seq<McpServer>)
    ensures |r| <= |groups|
    ensures forall e :: e in r ==> e.kind == "mcp" && e.requireApproval == "never" && |e.serverUrl| > 0
  {
    if groups == [] then []
    else
      var front := McpToolsOf(groups[..|groups| - 1], matchList);
      var t := groups[|groups| - 1];
      if Kept(t, matchList) then front + [EntryFor(t)] else front
  }

  /** One more group of a listing adds its entry when it is kept, and nothing otherwise. */
  lemma McpToolsPrefixStep(groups: seq<ToolGroup>, i: nat, matchList: Option<seq<string>>)
    requires i < |groups|
    ensures McpToolsOf(groups[..i + 1], matchList) ==
      if Kept(groups[i], matchList) then McpToolsOf(groups[..i], matchList) + [EntryFor(groups[i])]
      else McpToolsOf(groups[..i], matchList)
  {
    assert groups[..i + 1][..i] == groups[..i];
  }

  /** The entries of a concatenated listing are those of its parts, in order. */
  lemma {:induction false} McpToolsAppend(a: seq<ToolGroup>, b: seq<ToolGroup>, matchList: Option<seq<string>>)
    ensures McpToolsOf(a + b, matchList) == McpToolsOf(a, matchList) + McpToolsOf(b, matchList)
    decreases |b|
  {
    if b == [] {
      assert a + b == a;
    } else {
      var b' := b[..|b| - 1];
      var t := b[|b| - 1];
      var last := if Kept(t, matchList) then [EntryFor(t)] else [];
      McpToolsAppend(a, b', matchList);
      assert (a + b)[..|a + b| - 1] == a + b';
      assert (a + b)[|a + b| - 1] == t;
      calc {
        McpToolsOf(a + b, matchList);
        McpToolsOf(a + b', matchList) + last;
        (McpToolsOf(a, matchList) + McpToolsOf(b', matchList)) + last;
        McpToolsOf(a, matchList) + (McpToolsOf(b', matchList) + last);
        McpToolsOf(a, matchList) + McpToolsOf(b, matchList);
      }
    }
  }

  /** An entry is produced exactly for the kept groups of the listing. */
  lemma {:induction false} McpToolsMembership(groups: seq<ToolGroup>, matchList: Option<seq<string>>, e: McpServer)
    ensures e in McpToolsOf(groups, matchList) <==>
      exists i :: 0 <= i < |groups| && Kept(groups[i], matchList) && e == EntryFor(groups[i])
    decreases |groups|
  {
    if groups != [] {
      var front := groups[..|groups| - 1];
      McpToolsMembership(front, matchList, e);
      if e in McpToolsOf(groups, matchList) && e !in McpToolsOf(front, matchList) {
        var last := |groups| - 1;
        assert Kept(groups[last], matchList) && e == EntryFor(groups[last]);
      }
      if exists i :: 0 <= i < |groups| && Kept(groups[i], matchList) && e == EntryFor(groups[i]) {
        var i :| 0 <= i < |groups| && Kept(groups[i], matchList) && e == EntryFor(groups[i]);
        if i < |groups| - 1 {
          assert front[i] == groups[i];
        }
      }
    }
  }

  /** An absent match list and an empty one select the same groups. */
  lemma {:induction false} EmptyMatchListAcceptsAll(groups: seq<ToolGroup>)
    ensures McpToolsOf(groups, None) == McpToolsOf(groups, Some([]))
    decreases |groups|
  {
    if groups != [] {
      EmptyMatchListAcceptsAll(groups[..|groups| - 1]);
    }
  }

  /** Lines 117-151: the configured agents when all three are set, else the
      MCP groups registered with the server behind the base URL, matched
      against all agent labels. `fetch` is the `data` list of the
      `/toolgroups` listing at a URL. */
  function ToolList(env: Env, labels: AgentLabels, baseUrl: Option<string>, fetch: string -> seq<ToolGroup>): (r: Result<seq<McpServer>>)
    ensures EnvMcpServers(env, labels).Some? ==> r == Success(EnvMcpServers(env, labels).value)
    ensures EnvMcpServers(env, labels).None? && baseUrl.None? ==> r == Failure(NO_BASE_URL)
    ensures EnvMcpServers(env, labels).None? && baseUrl.Some? ==>
      r == Success(McpToolsOf(fetch(baseUrl.value + "/toolgroups"), Some(labels.all)))
    ensures r.Success? ==> forall e :: e in r.value ==> e.kind == "mcp" && e.requireApproval == "never" && |e.serverUrl| > 0
  {
    var configured := EnvMcpServers(env, labels);
    if configured.Some? then Success(configured.value)
    else if baseUrl.None? then Failure(NO_BASE_URL)
    else Success(McpToolsOf(fetch(baseUrl.value + "/toolgroups"), Some(labels.all)))
  }

  /** What the gateway sends to the Responses API. */
  datatype ChatRequest = ChatRequest(
    model: string,
    instructions: string,
    input: string,
    tools: seq<McpServer>,
    temperature: real,
    store: bool,
    previousResponseId: Option<string>,
    parallelToolCalls: bool,
    stream: bool)

  /** Lines 155-166: the request for one user message. */
  function ChatRequestFor(model: string, instructions: string, userInput: string, tools: seq<McpServer>, previousResponseId: Option<string>): ChatRequest
  {
    ChatRequest(model, instructions, "Question:\n" + userInput, tools, 0.3, true, previousResponseId, true, true)
  }

  /** A streamed event: its `type` (absent when the event has none), the
      text delta, and the id of the response it completes. */
  datatype ResponseEvent = ResponseEvent(kind: Option<string>, delta: string, responseId: string)

  /** Line 172: an event carrying output text. */
  predicate IsTextDelta(e: ResponseEvent)
  {
    e.kind.Some? && Contains(e.kind.value, "text.delta")
  }

  /** Line 176: a completion event, recognised only when the event is not a text delta. */
  predicate IsCompletion(e: ResponseEvent)
  {
    !IsTextDelta(e) && e.kind.Some? && Contains(e.kind.value, "response.completed")
  }

  /** The reply accumulated from the stream. */
  function Transcript(events: seq<ResponseEvent>): string
  {
    if events == [] then ""
    else
      var e := events[|events| - 1];
      Transcript(events[..|events| - 1]) + (if IsTextDelta(e) then e.delta else "")
  }

  /** The `previous_response_id` after the stream, starting from `initial`. */
  function LastResponseId(events: seq<ResponseEvent>, initial: Option<string>): Option<string>
  {
    if events == [] then initial
    else
      var e := events[|events| - 1];
      if IsCompletion(e) then Some(e.responseId) else LastResponseId(events[..|events| - 1], initial)
  }

  /** One more event of a stream adds its delta to the reply when it is a
      text delta, and sets the id when it is a completion. */
  lemma StreamPrefixStep(events: seq<ResponseEvent>, i: nat, initial: Option<string>)
    requires i < |events|
    ensures Transcript(events[..i + 1]) ==
      Transcript(events[..i]) + (if IsTextDelta(events[i]) then events[i].delta else "")
    ensures LastResponseId(events[..i + 1], initial) ==
      if IsCompletion(events[i]) then Some(events[i].responseId) else LastResponseId(events[..i], initial)
  {
    assert events[..i + 1][..i] == events[..i];
  }

  /** The reply to a split stream is the replies to its parts, concatenated. */
  lemma {:induction false} TranscriptAppend(a: seq<ResponseEvent>, b: seq<ResponseEvent>)
    ensures Transcript(a + b) == Transcript(a) + Transcript(b)
    decreases |b|
  {
    if b == [] {
      assert a + b == a;
    } else {
      var b' := b[..|b| - 1];
      var e := b[|b| - 1];
      var d := if IsTextDelta(e) then e.delta else "";
      TranscriptAppend(a, b');
      assert (a + b)[..|a + b| - 1] == a + b';
      assert (a + b)[|a + b| - 1] == e;
      calc {
        Transcript(a + b);
        Transcript(a + b') + d;
        (Transcript(a) + Transcript(b')) + d;
        Transcript(a) + (Transcript(b') + d);
        Transcript(a) + Transcript(b);
      }
    }
  }

  /** A single event contributes its delta when it is a text delta, else nothing. */
  lemma TranscriptOfOne(e: ResponseEvent)
    ensures Transcript([e]) == if IsTextDelta(e) then e.delta else ""
  {
    assert [e][..0] == [];
  }

  /** A stream with no text delta leaves the reply empty. */
  lemma {:induction false} NoDeltaNoText(events: seq<ResponseEvent>)
    requires forall j :: 0 <= j < |events| ==> !IsTextDelta(events[j])
    ensures Transcript(events) == ""
    decreases |events|
  {
    if events != [] {
      var front := events[..|events| - 1];
      assert forall j :: 0 <= j < |front| ==> front[j] == events[j];
      NoDeltaNoText(front);
    }
  }

  /** The id remembered is the one of the last completion event. */
  lemma {:induction false} LastCompletionWins(events: seq<ResponseEvent>, initial: Option<string>, k: nat)
    requires k < |events| && IsCompletion(events[k])
    requires forall j :: k < j < |events| ==> !IsCompletion(events[j])
    ensures LastResponseId(events, initial) == Some(events[k].responseId)
    decreases |events|
  {
    if k < |events| - 1 {
      var front := events[..|events| - 1];
      assert front[k] == events[k];
      assert forall j :: k < j < |front| ==> front[j] == events[j];
      LastCompletionWins(front, initial, k);
    }
  }

  /** Without a completion event the remembered id stays as it was. */
  lemma {:induction false} NoCompletionKeepsId(events: seq<ResponseEvent>, initial: Option<string>)
    requires forall j :: 0 <= j < |events| ==> !IsCompletion(events[j])
    ensures LastResponseId(events, initial) == initial
    decreases |events|
  {
    if events != [] {
      var front := events[..|events| - 1];
      assert forall j :: 0 <= j < |front| ==> front[j] == events[j];
      NoCompletionKeepsId(front, initial);
    }
  }
}
