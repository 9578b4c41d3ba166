/**
 * The page script's provider configuration (`AI_CONFIG`) and what changes
 * it: the stored preferences read at start-up, the popup's `updateModel`
 * and `userLoggedOut` messages, the API-key loader with its retry counter,
 * the plan-based key resolution, and `callAIAPI`, which picks the provider
 * named by `activeModel`.
 */
module Dispatcher {
  import opened Options
  import opened JsStrings
  import opened Providers

  /** The four provider entries of the configuration object. */
  datatype Provider = Gemini | Gpt4 | Claude | Custom

  function ProviderName(p: Provider): string {
    match p
    case Gemini => "gemini"
    case Gpt4 => "gpt4"
    case Claude => "claude"
    case Custom => "custom"
  }

  /**
   * The other property names that `AI_CONFIG[name]` finds: the object's own
   * `activeModel` (a non-empty string) and the methods and accessor it
   * inherits from `Object.prototype`. All of them are truthy.
   */
  const OtherProperties: set<string> := {
    "activeModel", "constructor", "hasOwnProperty", "isPrototypeOf", "propertyIsEnumerable",
    "toLocaleString", "toString", "valueOf", "__proto__",
    "__defineGetter__", "__defineSetter__", "__lookupGetter__", "__lookupSetter__"
  }

  /** What `AI_CONFIG[name]` is: a provider entry, some other truthy value, or `undefined`. */
  datatype Entry = ProviderEntry(provider: Provider) | OtherEntry | NoEntry

  function Lookup(name: string): (e: Entry)
    ensures e.ProviderEntry? ==> ProviderName(e.provider) == name
    ensures e.OtherEntry? <==> name in OtherProperties
  {
    if name == "gemini" then ProviderEntry(Gemini)
    else if name == "gpt4" then ProviderEntry(Gpt4)
    else if name == "claude" then ProviderEntry(Claude)
    else if name == "custom" then ProviderEntry(Custom)
    else if name in OtherProperties then OtherEntry
    else NoEntry
  }

  /** The lookup finds each provider under its own name and nothing else. */
  lemma LookupFindsProviders(name: string)
    ensures forall p :: Lookup(ProviderName(p)) == ProviderEntry(p)
    ensures Lookup(name).NoEntry? <==> name !in OtherProperties && forall p :: name != ProviderName(p)
  {
    assert ProviderName(Gemini) == "gemini";
  }

  const KeysNotLoaded: string := "Could not load API keys. Please check your extension configuration."
  const NoModelConfig: string := "Invalid AI model selected. Please check your model configuration."
  const NotAModel: string := "Invalid AI model selected. Please choose a valid model."

  const GeminiThinkingUrl: string :=
    "https://generativelanguage.googleapis.com/v1beta/models/gemini-2.0-flash-thinking-exp-01-21:generateContent"
  const OpenAIChatUrl: string := "https://api.openai.com/v1/chat/completions"
  const GeminiFlashUrl: string :=
    "https://generativelanguage.googleapis.com/v1/models/gemini-2.0-flash:generateContent"
  const DefaultOpenAIModel: string := "gpt-4o-mini"

  const MaxApiKeyRetries: int := 3

  /** The key loader's two globals: whether keys are ready and how many retries were spent. */
  datatype Loader = Loader(loaded: bool, retries: int)

  /** What the background script's `getApiKeys` answer brings. */
  datatype KeysReply =
    | ContextLost
    | LastError
    | Keys(geminiKey: string, openaiKey: string, claudeKey: string)

  /**
   * The loader after one reply: an error retries while fewer than three
   * retries were spent and gives up (marking the keys loaded) after that; a
   * reply or a lost extension context marks the keys loaded.
   */
  function AfterReply(l: Loader, reply: KeysReply): Loader {
    if reply.LastError? then
      if l.retries < MaxApiKeyRetries then Loader(l.loaded, l.retries + 1) else Loader(true, l.retries)
    else Loader(true, l.retries)
  }

  /** The loader after `n` error replies in a row. */
  function AfterErrors(l: Loader, n: nat): Loader
    decreases n
  {
    if n == 0 then l else AfterErrors(AfterReply(l, LastError), n - 1)
  }

  /**
   * The waiting always ends: from a fresh loader, error replies keep the
   * retry counter within bounds and the keys count as loaded exactly once
   * more errors arrived than retries were left.
   */
  lemma {:induction false} ErrorsEndWaiting(l: Loader, n: nat)
    requires 0 <= l.retries <= MaxApiKeyRetries
    ensures 0 <= AfterErrors(l, n).retries <= MaxApiKeyRetries
    ensures AfterErrors(l, n).loaded <==> l.loaded || n > MaxApiKeyRetries - l.retries
    ensures !l.loaded && n <= MaxApiKeyRetries - l.retries ==> AfterErrors(l, n).retries == l.retries + n
    decreases n
  {
    if n > 0 {
      ErrorsEndWaiting(AfterReply(l, LastError), n - 1);
    }
  }

  /** What `setApiKeysBasedOnPlan` reads: the synced model choice, the user's plan and the keys the user stored (`None` when not a string). */
  datatype PlanInputs = PlanInputs(
    syncedModel: Option<string>,
    userPlan: Option<string>,
    geminiApiKey: Option<string>,
    openaiApiKey: Option<string>,
    claudeApiKey: Option<string>)

  /** The plan name: the user's plan lower-cased when it is set and non-empty, "free" otherwise. */
  function EffectivePlan(userPlan: Option<string>): (plan: string)
    ensures userPlan.None? || userPlan.value == "" ==> plan == "free"
    ensures userPlan.Some? && userPlan.value != "" ==> |plan| == |userPlan.value| && forall k :: 0 <= k < |plan| ==> !('A' <= plan[k] <= 'Z')
    ensures userPlan.Some? && userPlan.value != "" ==> plan == ToLower(userPlan.value)
    ensures plan == "free" <==> userPlan.None? || userPlan.value == "" || ToLower(userPlan.value) == "free"
  {
    if userPlan.Some? && userPlan.value != "" then ToLower(userPlan.value) else "free"
  }

  /** The plan is read case-insensitively: "FREE" and "Free" are the free plan. */
  lemma PlanIgnoresCase()
    ensures EffectivePlan(Some("FREE")) == "free" && EffectivePlan(Some("Free")) == "free"
    ensures EffectivePlan(None) == "free" && EffectivePlan(Some("")) == "free"
  {
    assert ToLower("FREE") == "free";
    assert ToLower("Free") == "free";
  }

  /** `typeof k === "string" ? k : ""`. */
  function StringOrEmpty(k: Option<string>): string {
    if k.Some? then k.value else ""
  }

  /** The three key fields and the Claude URL, the part of the configuration a plan decides. */
  datatype Credentials = Credentials(geminiKey: string, openaiKey: string, claudeKey: string, claudeUrl: string)

  /**
   * A free plan uses only the keys the user stored (or "") and the Anthropic
   * endpoint; any other plan keeps the current keys and uses the Gemini
   * flash endpoint for Claude.
   */
  function PlanCredentials(inputs: PlanInputs, current: Credentials): (c: Credentials)
    ensures EffectivePlan(inputs.userPlan) == "free" ==>
              c == Credentials(StringOrEmpty(inputs.geminiApiKey), StringOrEmpty(inputs.openaiApiKey),
                               StringOrEmpty(inputs.claudeApiKey), AnthropicUrl)
    ensures EffectivePlan(inputs.userPlan) != "free" ==> c == current.(claudeUrl := GeminiFlashUrl)
  {
    if EffectivePlan(inputs.userPlan) == "free" then
      Credentials(StringOrEmpty(inputs.geminiApiKey), StringOrEmpty(inputs.openaiApiKey), StringOrEmpty(inputs.claudeApiKey), AnthropicUrl)
    else current.(claudeUrl := GeminiFlashUrl)
  }

  /**
   * The plan decides which API the Claude call talks to: with a key, a free
   * user's Claude call sends an Anthropic messages request and any other
   * user's a Gemini request; a free user who stored no key of their own
   * sends nothing, whatever keys the extension bundles.
   */
  lemma PlanSelectsClaudeApi(inputs: PlanInputs, current: Credentials, config: ProviderConfig,
                             systemPrompt: string, userPrompt: string, transport: Transport)
    ensures var c := PlanCredentials(inputs, current);
            var sent := CallClaude(config.(apiKey := c.claudeKey, apiUrl := c.claudeUrl), systemPrompt, userPrompt, transport).sent;
            sent.Some? ==> (sent.value.body.AnthropicBody? <==> EffectivePlan(inputs.userPlan) == "free")
    ensures var c := PlanCredentials(inputs, current);
            EffectivePlan(inputs.userPlan) == "free" && inputs.claudeApiKey.None? ==>
              CallClaude(config.(apiKey := c.claudeKey, apiUrl := c.claudeUrl), systemPrompt, userPrompt, transport).sent.None?
  {
    assert |AnthropicUrl| != |GeminiFlashUrl|;
  }

  /** The mutable configuration object and the key loader's globals. */
  class AiConfig {
    var activeModel: string
    var gemini: ProviderConfig
    var gpt4: ProviderConfig
    var claude: ProviderConfig
    var custom: ProviderConfig
    var apiKeysLoaded: bool
    var apiKeyRetryCount: int

    /** The retry counter never exceeds its maximum. */
    predicate Valid()
      reads this
    {
      0 <= apiKeyRetryCount <= MaxApiKeyRetries
    }

    function LoaderState(): Loader
      reads this
    {
      Loader(apiKeysLoaded, apiKeyRetryCount)
    }

    function CurrentCredentials(): Credentials
      reads this
    {
      Credentials(gemini.apiKey, gpt4.apiKey, claude.apiKey, claude.apiUrl)
    }

    /** The configuration as the script starts: Gemini active, no keys, temperatures 0.2, 0.7, 0.5 and 0.7. */
    constructor ()
      ensures Valid() && activeModel == "gemini" && !apiKeysLoaded && apiKeyRetryCount == 0
      ensures gemini == ProviderConfig("", GeminiThinkingUrl, "", "", 20)
      ensures gpt4 == ProviderConfig("", OpenAIChatUrl, DefaultOpenAIModel, "", 70)
      ensures claude == ProviderConfig("", GeminiFlashUrl, "", "", 50)
      ensures custom == ProviderConfig("", "", "", "", 70)
    {
      activeModel := "gemini";
      gemini := ProviderConfig("", GeminiThinkingUrl, "", "", 20);
      gpt4 := ProviderConfig("", OpenAIChatUrl, DefaultOpenAIModel, "", 70);
      claude := ProviderConfig("", GeminiFlashUrl, "", "", 50);
      custom := ProviderConfig("", "", "", "", 70);
      apiKeysLoaded := false;
      apiKeyRetryCount := 0;
    }

    /** The start-up read of the synced `activeModel` and `customModel`. */
    method LoadPreferences(syncedModel: Option<string>, stored: Option<StoredCustomModel>)
      modifies this
      ensures activeModel == (if syncedModel.Some? && syncedModel.value != "" then syncedModel.value else old(activeModel))
      ensures custom == (if stored.Some? then old(custom).(apiKey := stored.value.key, apiUrl := stored.value.endpoint,
                                                            modelName := stored.value.name)
                         else old(custom))
      ensures gemini == old(gemini) && gpt4 == old(gpt4) && claude == old(claude) && LoaderState() == old(LoaderState())
    {
      if syncedModel.Some? && syncedModel.value != "" {
        activeModel := syncedModel.value;
      }
      if stored.Some? {
        custom := custom.(apiKey := stored.value.key, apiUrl := stored.value.endpoint, modelName := stored.value.name);
      }
    }

    /**
     * The popup's `updateModel` message: the named model becomes active; for
     * "custom" the stored key and endpoint (but not the model name) are
     * copied into the custom entry.
     */
    method OnUpdateModel(model: string, stored: Option<StoredCustomModel>)
      modifies this
      ensures activeModel == model
      ensures custom == (if model == "custom" && stored.Some? then old(custom).(apiKey := stored.value.key, apiUrl := stored.value.endpoint)
                         else old(custom))
      ensures gemini == old(gemini) && gpt4 == old(gpt4) && claude == old(claude) && LoaderState() == old(LoaderState())
    {
      activeModel := model;
      if model == "custom" && stored.Some? {
        custom := custom.(apiKey := stored.value.key, apiUrl := stored.value.endpoint);
      }
    }

    /** The popup's `userLoggedOut` message resets the active model to Gemini. */
    method OnUserLoggedOut()
      modifies this
      ensures activeModel == "gemini"
      ensures gemini == old(gemini) && gpt4 == old(gpt4) && claude == old(claude) && custom == old(custom)
      ensures LoaderState() == old(LoaderState())
    {
      activeModel := "gemini";
    }

    /**
     * One answer to the `getApiKeys` request. `retry` says whether another
     * request is scheduled; `resolvePlan` whether the plan-based resolution
     * is started. Non-empty keys in a reply replace the configured ones.
     */
    method OnKeysReply(reply: KeysReply) returns (retry: bool, resolvePlan: bool)
      requires Valid()
      modifies this
      ensures Valid()
      ensures LoaderState() == AfterReply(old(LoaderState()), reply)
      ensures retry <==> reply.LastError? && old(apiKeyRetryCount) < MaxApiKeyRetries
      ensures resolvePlan <==> reply.Keys?
      ensures gemini.apiKey == (if reply.Keys? && reply.geminiKey != "" then reply.geminiKey else old(gemini.apiKey))
      ensures gpt4.apiKey == (if reply.Keys? && reply.openaiKey != "" then reply.openaiKey else old(gpt4.apiKey))
      ensures claude.apiKey == (if reply.Keys? && reply.claudeKey != "" then reply.claudeKey else old(claude.apiKey))
      ensures gemini == old(gemini).(apiKey := gemini.apiKey) && gpt4 == old(gpt4).(apiKey := gpt4.apiKey)
      ensures claude == old(claude).(apiKey := claude.apiKey)
      ensures activeModel == old(activeModel) && custom == old(custom)
    {
      retry, resolvePlan := false, false;
      match reply
      case ContextLost =>
        apiKeysLoaded := true;
      case LastError =>
        if apiKeyRetryCount < MaxApiKeyRetries {
          apiKeyRetryCount := apiKeyRetryCount + 1;
          retry := true;
        } else {
          apiKeysLoaded := true;
        }
      case Keys(g, o, c) =>
        if g != "" {
          gemini := gemini.(apiKey := g);
        }
        if o != "" {
          gpt4 := gpt4.(apiKey := o);
        }
        if c != "" {
          claude := claude.(apiKey := c);
        }
        apiKeysLoaded := true;
        resolvePlan := true;
    }

    /** `setApiKeysBasedOnPlan`: the synced model choice, then the plan's keys and Claude endpoint. */
    method ApplyPlan(inputs: PlanInputs)
      modifies this
      ensures activeModel == (if inputs.syncedModel.Some? && inputs.syncedModel.value != "" then inputs.syncedModel.value
                              else old(activeModel))
      ensures CurrentCredentials() == PlanCredentials(inputs, old(CurrentCredentials()))
      ensures gemini == old(gemini).(apiKey := gemini.apiKey) && gpt4 == old(gpt4).(apiKey := gpt4.apiKey)
      ensures claude == old(claude).(apiKey := claude.apiKey, apiUrl := claude.apiUrl)
      ensures custom == old(custom) && LoaderState() == old(LoaderState())
    {
      if inputs.syncedModel.Some? && inputs.syncedModel.value != "" {
        activeModel := inputs.syncedModel.value;
      }
      if EffectivePlan(inputs.userPlan) == "free" {
        gemini := gemini.(apiKey := StringOrEmpty(inputs.geminiApiKey));
        gpt4 := gpt4.(apiKey := StringOrEmpty(inputs.openaiApiKey));
        claude := claude.(apiKey := StringOrEmpty(inputs.claudeApiKey), apiUrl := AnthropicUrl);
      } else {
        claude := claude.(apiUrl := GeminiFlashUrl);
      }
    }

    /** The call of one provider with its entry; only the custom call writes its (possibly reloaded) entry back. */
    method CallProvider(p: Provider, systemPrompt: string, userPrompt: string, stored: Option<StoredCustomModel>,
                        transport: Transport) returns (exchange: Exchange)
      modifies this
      ensures p == Gemini ==> exchange == CallGemini(gemini, systemPrompt, userPrompt, transport)
      ensures p == Gpt4 ==> exchange == CallOpenAI(gpt4, systemPrompt, userPrompt, transport)
      ensures p == Claude ==> exchange == CallClaude(claude, systemPrompt, userPrompt, transport)
      ensures p == Custom ==> (custom, exchange) == CallCustom(old(custom), stored, systemPrompt, userPrompt, transport)
      ensures p != Custom ==> custom == old(custom)
      ensures activeModel == old(activeModel) && gemini == old(gemini) && gpt4 == old(gpt4) && claude == old(claude)
      ensures LoaderState() == old(LoaderState())
    {
      match p
      case Gemini => exchange := CallGemini(gemini, systemPrompt, userPrompt, transport);
      case Gpt4 => exchange := CallOpenAI(gpt4, systemPrompt, userPrompt, transport);
      case Claude => exchange := CallClaude(claude, systemPrompt, userPrompt, transport);
      case Custom =>
        var r := CallCustom(custom, stored, systemPrompt, userPrompt, transport);
        custom, exchange := r.0, r.1;
    }

    /**
     * `callAIAPI`: unless the keys are loaded or arrive in time, an error;
     * otherwise the call of the provider `activeModel` names, or an error
     * when the name finds no entry or a value that is not a provider.
     */
    method CallAI(systemPrompt: string, userPrompt: string, keysArrive: bool, stored: Option<StoredCustomModel>,
                  transport: Transport) returns (sent: Option<Request>, answer: Answer)
      modifies this
      ensures !old(apiKeysLoaded) && !keysArrive ==> sent == None && answer == Failure(KeysNotLoaded)
      ensures (old(apiKeysLoaded) || keysArrive) && Lookup(activeModel).NoEntry? ==> sent == None && answer == Failure(NoModelConfig)
      ensures (old(apiKeysLoaded) || keysArrive) && Lookup(activeModel).OtherEntry? ==> sent == None && answer == Failure(NotAModel)
      ensures (old(apiKeysLoaded) || keysArrive) && Lookup(activeModel) == ProviderEntry(Gemini) ==>
                Exchange(sent, answer) == CallGemini(gemini, systemPrompt, userPrompt, transport)
      ensures (old(apiKeysLoaded) || keysArrive) && Lookup(activeModel) == ProviderEntry(Gpt4) ==>
                Exchange(sent, answer) == CallOpenAI(gpt4, systemPrompt, userPrompt, transport)
      ensures (old(apiKeysLoaded) || keysArrive) && Lookup(activeModel) == ProviderEntry(Claude) ==>
                Exchange(sent, answer) == CallClaude(claude, systemPrompt, userPrompt, transport)
      ensures (old(apiKeysLoaded) || keysArrive) && Lookup(activeModel) == ProviderEntry(Custom) ==>
                (custom, Exchange(sent, answer)) == CallCustom(old(custom), stored, systemPrompt, userPrompt, transport)
      ensures sent.None? ==> IsError(answer)
      ensures custom != old(custom) ==> Lookup(activeModel) == ProviderEntry(Custom)
      ensures activeModel == old(activeModel) && gemini == old(gemini) && gpt4 == old(gpt4) && claude == old(claude)
      ensures LoaderState() == old(LoaderState())
    {
      if !apiKeysLoaded && !keysArrive {
        return None, Failure(KeysNotLoaded);
      }
      match Lookup(activeModel)
      case NoEntry =>
        sent, answer := None, Failure(NoModelConfig);
      case OtherEntry =>
        sent, answer := None, Failure(NotAModel);
      case ProviderEntry(p) =>
        var exchange := CallProvider(p, systemPrompt, userPrompt, stored, transport);
        sent, answer := exchange.sent, exchange.answer;
    }
  }
}
