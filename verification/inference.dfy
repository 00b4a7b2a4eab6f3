/**
 * `configure_llm` and `generate_llm_response`: the closed table of LLM
 * providers with the fields each requires and the endpoints each uses, the
 * proxy set/clear bracket around building the model, and the choice between a
 * tool-using agent and a direct model call.
 *
 * Building a provider's client, loading a server's tools and invoking the
 * model or the agent are foreign code; their results are inputs here.
 */
module Inference {
  import opened Wrappers
  import opened Text
  import opened Proxy
  import McpTool

  /** A message handed to the model: LangChain's system, human, AI and tool messages. */
  datatype Prompt =
    | SystemPrompt(content: string)
    | HumanPrompt(content: string)
    | AiPrompt(content: string)
    | ToolPrompt(content: string, toolCallId: string)

  /** The model client `configure_llm` builds, with the settings it passes (temperature aside). */
  datatype ChatModel =
    | Ollama(model: string)
    | OpenAI(model: string, apiKey: string, baseUrl: Option<string>, streaming: bool)
    | Groq(model: string, apiKey: string, streaming: bool)
    | Azure(model: string, endpoint: string)
    | HuggingFace(model: string, apiKey: string, streaming: bool)
    | Cerebras(model: string, apiKey: string, streaming: bool)
    | OpenRouter(model: string, apiKey: string, url: string, streaming: bool)
    | Anthropic(model: string, apiKey: string, streaming: bool)

  const OpenRouterUrl: string := "https://openrouter.ai/api/v1"
  const AzureDefaultEndpoint: string := "https://models.github.ai/inference"
  const AzureCredentialKey: string := "AZURE_INFERENCE_CREDENTIAL"

  /** The provider tags `configure_llm` recognises, after lower-casing. */
  datatype Provider =
    | OllamaTag | OpenAITag | GroqTag | AzureTag | HuggingFaceTag | CerebrasTag
    | OpenRouterTag | AnthropicTag | AwsTag | GoogleTag | UnknownTag(raw: string)

  /** The tags that need an API key and then a model name, in that order. */
  predicate KeyThenModel(p: Provider) {
    p in {OpenAITag, GroqTag, CerebrasTag, OpenRouterTag, AnthropicTag}
  }

  const KnownTags: set<string> :=
    {"ollama", "openai", "groq", "azure", "huggingface", "cerebras", "openrouter", "anthropic", "aws", "google"}

  /** The provider a tag names, compared after lower-casing. */
  function ProviderOf(provider: string): (p: Provider)
    ensures p == OllamaTag <==> Lower(provider) == "ollama"
    ensures p == OpenAITag <==> Lower(provider) == "openai"
    ensures p == GroqTag <==> Lower(provider) == "groq"
    ensures p == AzureTag <==> Lower(provider) == "azure"
    ensures p == HuggingFaceTag <==> Lower(provider) == "huggingface"
    ensures p == CerebrasTag <==> Lower(provider) == "cerebras"
    ensures p == OpenRouterTag <==> Lower(provider) == "openrouter"
    ensures p == AnthropicTag <==> Lower(provider) == "anthropic"
    ensures p == AwsTag <==> Lower(provider) == "aws"
    ensures p == GoogleTag <==> Lower(provider) == "google"
    ensures p.UnknownTag? <==> Lower(provider) !in KnownTags
    ensures p.UnknownTag? ==> p.raw == provider
  {
    var tag := Lower(provider);
    if tag == "ollama" then OllamaTag
    else if tag == "openai" then OpenAITag
    else if tag == "groq" then GroqTag
    else if tag == "azure" then AzureTag
    else if tag == "huggingface" then HuggingFaceTag
    else if tag == "cerebras" then CerebrasTag
    else if tag == "openrouter" then OpenRouterTag
    else if tag == "anthropic" then AnthropicTag
    else if tag == "aws" then AwsTag
    else if tag == "google" then GoogleTag
    else UnknownTag(provider)
  }

  /** Python truthiness of an optional string: present and non-empty. */
  predicate Given(o: Option<string>) {
    o.Some? && o.value != ""
  }

  /** Whether a built model streams. */
  function Streams(m: ChatModel): bool {
    match m
    case Ollama(_) => false
    case Azure(_, _) => false
    case OpenAI(_, _, _, s) => s
    case Groq(_, _, s) => s
    case HuggingFace(_, _, s) => s
    case Cerebras(_, _, s) => s
    case OpenRouter(_, _, _, s) => s
    case Anthropic(_, _, s) => s
  }

  /** The `ValueError`s `configure_llm` raises, by kind; `ErrorMessage` gives their text. */
  datatype ConfigError =
    | ModelRequired(provider: Provider)
    | KeyRequired(provider: Provider)
    | NotSupported(provider: Provider)
    | UnsupportedProvider(raw: string)

  /** How the messages name each provider. */
  function Label(p: Provider): string {
    match p
    case OllamaTag => "Ollama"
    case OpenAITag => "OpenAI"
    case GroqTag => "Groq"
    case AzureTag => "Azure AI"
    case HuggingFaceTag => "HuggingFace"
    case CerebrasTag => "Cerebras"
    case OpenRouterTag => "OpenRouter"
    case AnthropicTag => "Anthropic"
    case AwsTag => "AWS"
    case GoogleTag => "Google"
    case UnknownTag(raw) => raw
  }

  /** The text of the raised `ValueError`. */
  function ErrorMessage(e: ConfigError): string {
    match e
    case ModelRequired(p) => "Model name is required for " + Label(p)
    case KeyRequired(p) => "API key is required for " + Label(p)
    case NotSupported(p) => Label(p) + " provider is currently not supported due to parameter compatibility issues"
    case UnsupportedProvider(raw) => "Unsupported LLM provider: " + raw
  }

  /** The provider branches of `configure_llm`: the model it builds or the `ValueError` it raises. */
  function SelectModel(provider: string, modelName: string, apiKey: Option<string>, baseUrl: Option<string>, streaming: bool)
    : (r: Result<ChatModel, ConfigError>)
    ensures r.Ok? ==> var p := ProviderOf(provider); !p.AwsTag? && !p.GoogleTag? && !p.UnknownTag?
    ensures r.Ok? ==> Streams(r.value) ==> streaming
  {
    Build(ProviderOf(provider), modelName, apiKey, baseUrl, streaming)
  }

  /** The branch for one provider: the client it builds or the first missing field. */
  function Build(p: Provider, modelName: string, apiKey: Option<string>, baseUrl: Option<string>, streaming: bool)
    : Result<ChatModel, ConfigError>
  {
    match p
    case OllamaTag =>
      if modelName == "" then Err(ModelRequired(p)) else Ok(Ollama(modelName))
    case OpenAITag =>
      if !Given(apiKey) then Err(KeyRequired(p))
      else if modelName == "" then Err(ModelRequired(p))
      else Ok(OpenAI(modelName, apiKey.value, if Given(baseUrl) then baseUrl else None, streaming))
    case GroqTag =>
      if !Given(apiKey) then Err(KeyRequired(p))
      else if modelName == "" then Err(ModelRequired(p))
      else Ok(Groq(modelName, apiKey.value, streaming))
    case AzureTag =>
      if !Given(apiKey) then Err(KeyRequired(p))
      else Ok(Azure(modelName, if Given(baseUrl) then baseUrl.value else AzureDefaultEndpoint))
    case HuggingFaceTag =>
      if modelName == "" then Err(ModelRequired(p))
      else if !Given(apiKey) then Err(KeyRequired(p))
      else Ok(HuggingFace(modelName, apiKey.value, streaming))
    case CerebrasTag =>
      if !Given(apiKey) then Err(KeyRequired(p))
      else if modelName == "" then Err(ModelRequired(p))
      else Ok(Cerebras(modelName, apiKey.value, streaming))
    case OpenRouterTag =>
      if !Given(apiKey) then Err(KeyRequired(p))
      else if modelName == "" then Err(ModelRequired(p))
      else Ok(OpenRouter(modelName, apiKey.value, OpenRouterUrl, streaming))
    case AnthropicTag =>
      if !Given(apiKey) then Err(KeyRequired(p))
      else if modelName == "" then Err(ModelRequired(p))
      else Ok(Anthropic(modelName, apiKey.value, streaming))
    case AwsTag => Err(NotSupported(p))
    case GoogleTag => Err(NotSupported(p))
    case UnknownTag(raw) => Err(UnsupportedProvider(raw))
  }

  /**
   * Which fields each provider insists on: ollama a model name; openai, groq,
   * cerebras, openrouter and anthropic an API key, checked before the model
   * name; huggingface a model name, then a key; azure only a key. "aws" and
   * "google" never build, and every other tag is unsupported.
   */
  lemma ProviderRequirements(provider: string, modelName: string, apiKey: Option<string>, baseUrl: Option<string>, streaming: bool)
    ensures var p := ProviderOf(provider); var r := SelectModel(provider, modelName, apiKey, baseUrl, streaming);
      && (p == OllamaTag ==> (r.Ok? <==> modelName != ""))
      && (KeyThenModel(p) ==> (r.Ok? <==> Given(apiKey) && modelName != ""))
      && (p == HuggingFaceTag ==> (r.Ok? <==> modelName != "" && Given(apiKey)))
      && (p == HuggingFaceTag && modelName == "" ==> r == Err(ModelRequired(HuggingFaceTag)))
      && (KeyThenModel(p) && !Given(apiKey) ==> r == Err(KeyRequired(p)))
      && (p == AzureTag ==> (r.Ok? <==> Given(apiKey)))
      && (p == AwsTag || p == GoogleTag ==> r.Err?)
      && (p.UnknownTag? ==> r == Err(UnsupportedProvider(provider)))
  {
    match ProviderOf(provider)
    case OllamaTag =>
    case AzureTag =>
    case HuggingFaceTag =>
    case UnknownTag(_) =>
    case _ =>
  }

  /**
   * Endpoints: openrouter always uses its fixed URL; azure uses the given base
   * URL or else the GitHub models endpoint; openai passes a base URL only when
   * one is given.
   */
  lemma ProviderEndpoints(provider: string, modelName: string, apiKey: Option<string>, baseUrl: Option<string>, streaming: bool)
    ensures var r := SelectModel(provider, modelName, apiKey, baseUrl, streaming);
      && (r.Ok? && r.value.OpenRouter? ==> r.value.url == OpenRouterUrl)
      && (r.Ok? && r.value.Azure? ==> r.value.endpoint == if Given(baseUrl) then baseUrl.value else AzureDefaultEndpoint)
      && (r.Ok? && r.value.OpenAI? ==> r.value.baseUrl == if Given(baseUrl) then baseUrl else None)
  {
  }

  /** Tags that differ only in the case of ASCII letters select the same model and fail for the same reason. */
  lemma CaseInsensitiveProvider(a: string, b: string, modelName: string, apiKey: Option<string>, baseUrl: Option<string>, streaming: bool)
    requires Lower(a) == Lower(b)
    ensures var ra := SelectModel(a, modelName, apiKey, baseUrl, streaming);
            var rb := SelectModel(b, modelName, apiKey, baseUrl, streaming);
      && (ra.Ok? <==> rb.Ok?)
      && (ra.Ok? ==> ra.value == rb.value)
      && (!ProviderOf(a).UnknownTag? ==> ra == rb)
  {
    if Lower(a) in KnownTags {
      assert ProviderOf(a) == ProviderOf(b);
    }
  }

  /** The environment `configure_llm` leaves behind. */
  function ConfiguredEnv(env: map<string, string>, proxy: ProxySettings, built: Result<ChatModel, ConfigError>,
                         apiKey: Option<string>, proxyRequired: bool): map<string, string>
  {
    var e1 := if proxyRequired then Updated(env, proxy) else env;
    var e2 := if built.Ok? && built.value.Azure? && apiKey.Some? then e1[AzureCredentialKey := apiKey.value] else e1;
    if proxyRequired then Cleared(e2) else e2
  }

  /**
   * The proxy bracket: with `proxy_required`, none of the six proxy keys is left
   * set, whether the model was built or not; without it they are untouched.
   * Apart from them only the Azure credential key can change.
   */
  lemma ProxyBracket(env: map<string, string>, proxy: ProxySettings, built: Result<ChatModel, ConfigError>,
                     apiKey: Option<string>, proxyRequired: bool)
    ensures var e := ConfiguredEnv(env, proxy, built, apiKey, proxyRequired);
      && (proxyRequired ==> forall k :: k in ProxyKeys ==> k !in e)
      && (!proxyRequired ==> forall k :: k in ProxyKeys ==> SameAt(env, e, k))
      && (forall k :: k !in ProxyKeys && k != AzureCredentialKey ==> SameAt(env, e, k))
      && (built.Ok? && built.value.Azure? && apiKey.Some? ==> AzureCredentialKey in e && e[AzureCredentialKey] == apiKey.value)
  {
    assert AzureCredentialKey !in ProxyKeys;
  }

  /**
   * `configure_llm`. Besides the outcome it returns `buildEnv`, the environment
   * in force while the client is built (after the proxy keys were set).
   */
  method ConfigureLlm(env: Environ, proxy: ProxySettings, provider: string, modelName: string,
                      apiKey: Option<string>, baseUrl: Option<string>, proxyRequired: bool, streaming: bool)
    returns (r: Result<ChatModel, ConfigError>, buildEnv: map<string, string>)
    modifies env
    ensures r == SelectModel(provider, modelName, apiKey, baseUrl, streaming)
    ensures buildEnv == if proxyRequired then Updated(old(env.vars), proxy) else old(env.vars)
    ensures env.vars == ConfiguredEnv(old(env.vars), proxy, r, apiKey, proxyRequired)
  {
    if proxyRequired {
      env.UpdateProxyConfig(proxy);
    }
    buildEnv := env.vars;
    r := SelectModel(provider, modelName, apiKey, baseUrl, streaming);
    if r.Ok? && r.value.Azure? && apiKey.Some? {
      env.Set(AzureCredentialKey, apiKey.value);
    }
    if proxyRequired {
      env.DeleteProxyConfig();
    }
  }

  /** One entry of `mcp_servers`; a missing key is `None`. */
  datatype ServerConfig = ServerConfig(
    transport: Option<string>,
    command: Option<string>,
    args: Option<seq<string>>,
    env: Option<map<string, string>>)

  /** The command string built for a stdio server: the command alone, or the command and its arguments joined by single spaces. */
  function StdioCommand(command: string, args: seq<string>): (cmd: string)
    ensures cmd == JoinSpaced([command] + args)
  {
    if |args| > 0 then command + " " + JoinSpaced(args) else command
  }

  /**
   * A stdio server's command string, once split as `test_mcp_configuration`
   * does, gives back the command and the arguments, provided none of them is
   * empty or contains whitespace.
   */
  lemma StdioCommandRoundTrip(command: string, args: seq<string>, toolEnv: map<string, string>, processEnv: map<string, string>)
    requires IsToken(command) && forall i :: 0 <= i < |args| ==> IsToken(args[i])
    ensures McpTool.PrepareServer(StdioCommand(command, args), toolEnv, processEnv)
            == Some(McpTool.ServerParams(command, args, McpTool.Overlay(processEnv, toolEnv)))
  {
    McpTool.PrepareJoinedCommand(command, args, toolEnv, processEnv);
  }

  /** The tools one server contributes: only a stdio server whose loading succeeds contributes any. */
  function ServerTools(cfg: ServerConfig, load: (string, map<string, string>) -> Option<seq<McpTool.ToolInfo>>)
    : (tools: seq<McpTool.ToolInfo>)
    ensures cfg.transport != Some("stdio") ==> tools == []
    ensures cfg.transport == Some("stdio") ==>
      var loaded := load(StdioCommand(cfg.command.GetOr(""), cfg.args.GetOr([])), cfg.env.GetOr(map[]));
      tools == if loaded.Some? then loaded.value else []
  {
    if cfg.transport == Some("stdio") then
      var loaded := load(StdioCommand(cfg.command.GetOr(""), cfg.args.GetOr([])), cfg.env.GetOr(map[]));
      if loaded.Some? then loaded.value else []
    else []
  }

  /** All tools collected from the servers, in server order. */
  function CollectedTools(servers: seq<(string, ServerConfig)>,
                          load: (string, map<string, string>) -> Option<seq<McpTool.ToolInfo>>)
    : seq<McpTool.ToolInfo>
  {
    if servers == [] then []
    else CollectedTools(servers[..|servers| - 1], load) + ServerTools(servers[|servers| - 1].1, load)
  }

  /**
   * Collection is server by server: the tools of a list of servers are those of
   * its first part followed by those of the rest, so a server that fails or is
   * not stdio adds nothing and does not stop later servers from loading.
   */
  lemma {:induction false} CollectedToolsAppend(a: seq<(string, ServerConfig)>, b: seq<(string, ServerConfig)>,
                                                load: (string, map<string, string>) -> Option<seq<McpTool.ToolInfo>>)
    ensures CollectedTools(a + b, load) == CollectedTools(a, load) + CollectedTools(b, load)
    decreases |b|
  {
    if b == [] {
      assert a + b == a;
    } else {
      var b' := b[..|b| - 1];
      var last := ServerTools(b[|b| - 1].1, load);
      assert (a + b)[..|a + b| - 1] == a + b';
      assert (a + b)[|a + b| - 1] == b[|b| - 1];
      assert CollectedTools(a + b, load) == CollectedTools(a + b', load) + last;
      assert CollectedTools(b, load) == CollectedTools(b', load) + last;
      CollectedToolsAppend(a, b', load);
      Associative(CollectedTools(a, load), CollectedTools(b', load), last);
    }
  }

  /** A server that contributes nothing leaves the collected tools as they were. */
  lemma SilentServerSkipped(a: seq<(string, ServerConfig)>, s: (string, ServerConfig), b: seq<(string, ServerConfig)>,
                            load: (string, map<string, string>) -> Option<seq<McpTool.ToolInfo>>)
    requires ServerTools(s.1, load) == []
    ensures CollectedTools(a + [s] + b, load) == CollectedTools(a, load) + CollectedTools(b, load)
  {
    assert CollectedTools([s], load) == [] by {
      assert [s][..0] == [];
    }
    CollectedToolsAppend(a, [s], load);
    CollectedToolsAppend(a + [s], b, load);
  }

  /** The loop of `run_with_mcp_tools` that extends `all_tools` server by server. */
  method CollectTools(servers: seq<(string, ServerConfig)>,
                      load: (string, map<string, string>) -> Option<seq<McpTool.ToolInfo>>)
    returns (tools: seq<McpTool.ToolInfo>)
    ensures tools == CollectedTools(servers, load)
  {
    tools := [];
    for i := 0 to |servers|
      invariant tools == CollectedTools(servers[..i], load)
    {
      assert servers[..i + 1][..i] == servers[..i];
      tools := tools + ServerTools(servers[i].1, load);
    }
    assert servers[..|servers|] == servers;
  }

  /** What the model or the agent is asked to do. */
  datatype Invocation =
    | DirectCall(model: ChatModel, messages: seq<Prompt>)
    | AgentCall(model: ChatModel, tools: seq<McpTool.ToolInfo>, messages: seq<Prompt>)

  /** What an invocation returns: a reply message (with content), or the agent's state (a dict without `content`). */
  datatype Response = ReplyMessage(content: string) | AgentState(messages: seq<Prompt>)

  /** How `generate_llm_response` ends: it raises the configuration error, or returns `None` or a response. */
  datatype GenOutcome =
    | ConfigFailed(error: ConfigError)
    | NoMessages
    | Invoked(call: Invocation, response: Option<Response>)

  /** The value `generate_llm_response` returns when it does not raise. */
  function Returned(o: GenOutcome): Option<Response> {
    if o.Invoked? then o.response else None
  }

  /**
   * The reply text a caller can store: present only when the model was
   * invoked and answered with a message that has content.
   */
  function ReplyContent(o: GenOutcome): (text: Option<string>)
    ensures text.Some? <==> o.Invoked? && o.response.Some? && o.response.value.ReplyMessage?
    ensures text.Some? ==> o.response.value.content == text.value
  {
    if o.Invoked? && o.response.Some? && o.response.value.ReplyMessage? then Some(o.response.value.content) else None
  }

  /** The specification of `generate_llm_response`. */
  function Generate(provider: string, modelName: string, apiKey: Option<string>, baseUrl: Option<string>,
                    servers: Option<seq<(string, ServerConfig)>>, messages: Option<seq<Prompt>>,
                    load: (string, map<string, string>) -> Option<seq<McpTool.ToolInfo>>,
                    invoke: Invocation -> Option<Response>): GenOutcome
  {
    var built := SelectModel(provider, modelName, apiKey, baseUrl, false);
    if built.Err? then ConfigFailed(built.error)
    else if messages.None? then NoMessages
    else
      var call :=
        if servers.Some? && |servers.value| > 0 && |CollectedTools(servers.value, load)| > 0
        then AgentCall(built.value, CollectedTools(servers.value, load), messages.value)
        else DirectCall(built.value, messages.value);
      Invoked(call, invoke(call))
  }

  /**
   * The invocation paths: a configuration error propagates; `None` messages
   * return `None`; otherwise the agent is used exactly when at least one tool
   * was collected, a direct call is made when the server map is absent or
   * empty, and a failed invocation returns `None`. The model is never built to
   * stream.
   */
  lemma GenerateChoice(provider: string, modelName: string, apiKey: Option<string>, baseUrl: Option<string>,
                       servers: Option<seq<(string, ServerConfig)>>, messages: Option<seq<Prompt>>,
                       load: (string, map<string, string>) -> Option<seq<McpTool.ToolInfo>>,
                       invoke: Invocation -> Option<Response>)
    ensures var built := SelectModel(provider, modelName, apiKey, baseUrl, false);
            var r := Generate(provider, modelName, apiKey, baseUrl, servers, messages, load, invoke);
      && (r.ConfigFailed? <==> built.Err?)
      && (built.Ok? && messages.None? ==> r == NoMessages && Returned(r).None?)
      && (r.Invoked? ==> r.call.model == built.value && !Streams(r.call.model) && r.call.messages == messages.value)
      && (r.Invoked? ==> (r.call.AgentCall? <==> servers.Some? && |CollectedTools(servers.value, load)| > 0))
      && (r.Invoked? && (servers.None? || servers.value == []) ==> r.call.DirectCall?)
      && (r.Invoked? ==> Returned(r) == invoke(r.call))
  {
    if servers.Some? && servers.value == [] {
      assert CollectedTools(servers.value, load) == [];
    }
  }

  /**
   * `generate_llm_response`. `streaming` is accepted and ignored, as in the
   * source, which does not pass it on to `configure_llm`.
   */
  method GenerateLlmResponse(env: Environ, proxy: ProxySettings, provider: string, modelName: string,
                             apiKey: Option<string>, baseUrl: Option<string>, proxyRequired: bool, streaming: bool,
                             servers: Option<seq<(string, ServerConfig)>>, messages: Option<seq<Prompt>>,
                             load: (string, map<string, string>) -> Option<seq<McpTool.ToolInfo>>,
                             invoke: Invocation -> Option<Response>)
    returns (r: GenOutcome)
    modifies env
    ensures r == Generate(provider, modelName, apiKey, baseUrl, servers, messages, load, invoke)
    ensures env.vars == ConfiguredEnv(old(env.vars), proxy, SelectModel(provider, modelName, apiKey, baseUrl, false),
                                      apiKey, proxyRequired)
  {
    var built, _ := ConfigureLlm(env, proxy, provider, modelName, apiKey, baseUrl, proxyRequired, false);
    if built.Err? {
      return ConfigFailed(built.error);
    }
    if messages.None? {
      return NoMessages;
    }
    var call := DirectCall(built.value, messages.value);
    if servers.Some? && |servers.value| > 0 {
      var tools := CollectTools(servers.value, load);
      if |tools| > 0 {
        call := AgentCall(built.value, tools, messages.value);
      }
    }
    return Invoked(call, invoke(call));
  }
}
