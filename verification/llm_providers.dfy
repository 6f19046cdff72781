/**
 * The provider handles of `llm_providers`: choosing a provider by name
 * (`Provider::new`), asking it for its name, and the Anthropic provider's
 * `send_message` up to and after the network call, which is a parameter.
 */
module LlmProviders {
  import opened Wrappers
  import opened Strings
  import opened Types

  const OPENAI_URL := "https://api.openai.com/v1/chat/completions"

  /**
   * `LLMConfig`. Only `max_tokens` is kept: the temperature and `top_p`
   * are floating-point values that no modelled behaviour depends on.
   */
  datatype LlmConfig = LlmConfig(maxTokens: U32)

  /** `LLMConfig::default()`. */
  const DEFAULT_CONFIG := LlmConfig(4096)

  /** The OpenAI-compatible provider of `default.rs`, built from a name, a key and an endpoint. */
  datatype DefaultProvider = DefaultProvider(name: string, apiKey: string, url: string)

  datatype AnthropicProvider = AnthropicProvider(apiKey: string)

  datatype Provider = Default(default: DefaultProvider) | Anthropic(anthropic: AnthropicProvider)

  /** What the Claude client is invoked with: its key, its call options' `max_tokens`, and the flattened history. */
  datatype ClaudeCall = ClaudeCall(apiKey: string, maxTokens: Option<U32>, history: string)

  /**
   * The network. `defaultSend` is `DefaultProvider::send_message`, whose
   * source is not part of this model; `claudeInvoke` is `Claude::invoke`.
   */
  datatype Network = Network(
    defaultSend: (DefaultProvider, MessageHistory, string, LlmConfig) -> Result<string, string>,
    claudeInvoke: ClaudeCall -> Result<string, string>)

  /** `Provider::new`: a name other than the two supported ones is the panic, here a failure. */
  function NewProvider(name: string, apiKey: string): (r: Result<Provider, string>)
    ensures r.Ok? <==> name == "openai" || name == "anthropic"
    ensures r.Ok? ==> ProviderName(r.value) == name && ApiKey(r.value) == apiKey
    ensures name == "openai" ==> r.Ok? && r.value.Default? && r.value.default.url == OPENAI_URL
    ensures name == "anthropic" ==> r.Ok? && r.value.Anthropic?
    ensures r.Err? ==> r.error == "Unsupported provider: " + name
  {
    if name == "openai" then Ok(Default(DefaultProvider(name, apiKey, OPENAI_URL)))
    else if name == "anthropic" then Ok(Anthropic(AnthropicProvider(apiKey)))
    else Err("Unsupported provider: " + name)
  }

  /** `provider_name`; a default provider reports the name it was built with. */
  function ProviderName(p: Provider): string
  {
    match p
    case Default(d) => d.name
    case Anthropic(_) => "anthropic"
  }

  function ApiKey(p: Provider): string
  {
    match p
    case Default(d) => d.apiKey
    case Anthropic(a) => a.apiKey
  }

  /** `send_message` hands its arguments unchanged to the wrapped provider. */
  function SendMessage(p: Provider, messages: MessageHistory, model: string, config: LlmConfig, net: Network)
    : (r: Result<string, string>)
    ensures p.Default? ==> r == net.defaultSend(p.default, messages, model, config)
    ensures p.Anthropic? ==> r == AnthropicSend(p.anthropic, messages, model, config, net.claudeInvoke)
  {
    match p
    case Default(d) => net.defaultSend(d, messages, model, config)
    case Anthropic(a) => AnthropicSend(a, messages, model, config, net.claudeInvoke)
  }

  // ---------------------------------------------------------------------
  // The Anthropic provider

  /** A message as the JSON request body holds it: `msg["role"]` and `msg["content"]` may be absent. */
  datatype JsonMessage = JsonMessage(role: Option<string>, content: Option<string>)

  /** The JSON request body: the serialized messages, the model and `max_tokens`. */
  datatype RequestBody = RequestBody(messages: seq<JsonMessage>, model: string, maxTokens: U32)

  /** Serializing a `Message` always writes its role and content as strings. */
  function Serialize(m: Message): JsonMessage
  {
    JsonMessage(Some(m.role), Some(m.content))
  }

  function Body(messages: MessageHistory, model: string, config: LlmConfig): (b: RequestBody)
    ensures |b.messages| == |messages|
    ensures forall i :: 0 <= i < |messages| ==> b.messages[i] == Serialize(messages[i])
    ensures b.model == model && b.maxTokens == config.maxTokens
  {
    RequestBody(seq(|messages|, i requires 0 <= i < |messages| => Serialize(messages[i])), model, config.maxTokens)
  }

  function OrEmpty(s: Option<string>): string
  {
    match s
    case Some(v) => v
    case None => ""
  }

  /** One history line, `role: content`, with a missing field read as `""`. */
  function HistoryLine(m: JsonMessage): string
  {
    OrEmpty(m.role) + ": " + OrEmpty(m.content)
  }

  function HistoryLines(ms: seq<JsonMessage>): (r: seq<string>)
    ensures |r| == |ms|
    ensures forall i :: 0 <= i < |ms| ==> r[i] == HistoryLine(ms[i])
  {
    seq(|ms|, i requires 0 <= i < |ms| => HistoryLine(ms[i]))
  }

  /** The history handed to Claude: one line per message, joined by `'\n'`. */
  function History(ms: seq<JsonMessage>): string
  {
    Join(HistoryLines(ms), "\n")
  }

  /** The text `to_lowercase` of which contains `"authentication"`. */
  predicate MentionsAuthentication(e: string)
  {
    Contains(Lower(e), "authentication")
  }

  const AUTH_FAILED := "Invalid API key or authentication failed"

  /** The text an invoke error is replaced with. */
  function ClassifyError(e: string): string
  {
    if MentionsAuthentication(e) then AUTH_FAILED else "An error occurred: " + e
  }

  function ClaudeCallFor(p: AnthropicProvider, body: RequestBody): (c: ClaudeCall)
    ensures c.apiKey == p.apiKey && c.maxTokens == Some(body.maxTokens)
    ensures c.history == History(body.messages)
  {
    ClaudeCall(p.apiKey, Some(body.maxTokens), History(body.messages))
  }

  /**
   * `AnthropicProvider::send_message`: the response passes through
   * unchanged, and an error is reported as `ClassifyError` of its text.
   */
  function AnthropicSend(p: AnthropicProvider, messages: MessageHistory, model: string, config: LlmConfig,
                         invoke: ClaudeCall -> Result<string, string>): (r: Result<string, string>)
    ensures r.Ok? <==> invoke(ClaudeCallFor(p, Body(messages, model, config))).Ok?
    ensures r.Ok? ==> r.value == invoke(ClaudeCallFor(p, Body(messages, model, config))).value
    ensures r.Err? ==> r.error == ClassifyError(invoke(ClaudeCallFor(p, Body(messages, model, config))).error)
  {
    match invoke(ClaudeCallFor(p, Body(messages, model, config)))
    case Ok(response) => Ok(response)
    case Err(e) => Err(ClassifyError(e))
  }

  // ---------------------------------------------------------------------
  // Properties

  /** Only `"openai"` and `"anthropic"` build a provider; the names the store also knows do not. */
  lemma OtherNamesUnsupported(key: string)
    ensures NewProvider("mistralai", key).Err? && NewProvider("groqcloud", key).Err?
    ensures NewProvider("local", key).Err? && NewProvider("google", key).Err?
  {
    assert "mistralai"[0] != "anthropic"[0] && |"mistralai"| != |"openai"|;
    assert "groqcloud"[0] != "anthropic"[0] && |"groqcloud"| != |"openai"|;
    assert |"local"| != |"anthropic"| && |"local"| != |"openai"|;
    assert |"google"| != |"anthropic"| && "google"[0] != "openai"[0];
  }

  /** The history of a serialized conversation lists one `role: content` line per message. */
  lemma SerializedHistory(messages: MessageHistory)
    ensures HistoryLines(Body(messages, "", DEFAULT_CONFIG).messages)
            == seq(|messages|, i requires 0 <= i < |messages| => messages[i].role + ": " + messages[i].content)
  {
  }

  /**
   * Splitting the history at `'\n'` gives back the lines, one per message and
   * in order, as long as no role or content holds a `'\n'` of its own.
   */
  lemma HistoryRoundTrip(ms: seq<JsonMessage>)
    requires ms != []
    requires forall i :: 0 <= i < |ms| ==> '\n' !in HistoryLine(ms[i])
    ensures Split(History(ms), '\n') == HistoryLines(ms)
  {
    SplitJoin(HistoryLines(ms), '\n');
  }

  /** The model name is put in the request body but never reaches Claude. */
  lemma ModelNotSent(p: AnthropicProvider, messages: MessageHistory, m1: string, m2: string, config: LlmConfig)
    ensures ClaudeCallFor(p, Body(messages, m1, config)) == ClaudeCallFor(p, Body(messages, m2, config))
  {
  }

  /** Lower-casing works character by character, so it distributes over concatenation. */
  lemma LowerConcat(a: string, b: string)
    ensures Lower(a + b) == Lower(a) + Lower(b)
  {
  }

  /** The word `authentication` in any mix of cases, anywhere in the error, makes it an authentication failure. */
  lemma AuthenticationInAnyCase(before: string, word: string, after: string)
    requires Lower(word) == "authentication"
    ensures MentionsAuthentication(before + word + after)
  {
    LowerConcat(before + word, after);
    LowerConcat(before, word);
    var low := Lower(before + word + after);
    assert low == Lower(before) + "authentication" + Lower(after);
    assert low[|before|..|before| + 14] == "authentication";
    assert OccursAt(low, "authentication", |before|);
  }

  /** An error is reported as the authentication failure exactly when it mentions authentication. */
  lemma ClassifyAuthIff(e: string)
    ensures ClassifyError(e) == AUTH_FAILED <==> MentionsAuthentication(e)
  {
    if !MentionsAuthentication(e) {
      assert ClassifyError(e)[0] == 'A' != AUTH_FAILED[0];
    }
  }

  /** Any other error keeps its full text after the `An error occurred: ` prefix. */
  lemma OtherErrorKept(e: string)
    requires !MentionsAuthentication(e)
    ensures StartsWith(ClassifyError(e), "An error occurred: ")
    ensures ClassifyError(e)[19..] == e
  {
    assert ClassifyError(e)[..19] == "An error occurred: ";
  }
}
