/**
 * The four provider calls of the page script (Gemini, OpenAI, "Claude" and a
 * user-configured custom endpoint): the request each one sends, the error
 * message each one makes of an HTTP status, and how each one extracts the
 * reply from the parsed response body. The network is an abstract input:
 * one `Transport` outcome per call.
 */
module Providers {
  import opened Options
  import opened JsStrings
  import opened JsValues

  /** A provider's entry in the configuration object. Temperatures are in hundredths. */
  datatype ProviderConfig = ProviderConfig(
    apiKey: string,
    apiUrl: string,
    /** `model` (the OpenAI entry only); "" elsewhere. */
    model: string,
    /** `modelName` (the custom entry only); "" when unset. */
    modelName: string,
    temperature: int)

  /** The custom model saved by the popup (`customModel`); falsy fields are "". */
  datatype StoredCustomModel = StoredCustomModel(key: string, endpoint: string, name: string)

  /** The parsed body of a response, or the message `response.json()` threw with. */
  datatype Body = Json(value: Js) | Unparsable(message: string)

  /** What one `fetch` gives: a rejection with a message, or a status and a body. */
  datatype Transport = Rejected(message: string) | Response(status: int, body: Body)

  /** `response.ok`. */
  predicate Ok(status: int) {
    200 <= status <= 299
  }

  datatype Header = Header(name: string, value: string)

  datatype Message = Message(role: string, content: string)

  /** The JSON bodies the calls send. */
  datatype RequestBody =
    | GeminiBody(text: string, temperature: int)
    | ChatBody(model: string, messages: seq<Message>, temperature: int)
    | AnthropicBody(model: string, maxTokens: int, temperature: int, messages: seq<Message>)
    | GenericBody(prompt: string, temperature: int, modelField: Option<string>)

  /** A POST request. */
  datatype Request = Request(url: string, headers: seq<Header>, body: RequestBody)

  /** What a call returns: a value, or (custom endpoint only) the whole body to be JSON-serialised. */
  datatype Answer = Returned(value: Js) | StringifiedBody(body: Js)

  /** A call: the request it sent, if it got that far, and what it returned. */
  datatype Exchange = Exchange(sent: Option<Request>, answer: Answer)

  /** The string a caught error becomes. */
  function Failure(message: string): (a: Answer)
    ensures IsError(a)
  {
    var t := "Error: " + message;
    assert t[..7] == "Error: ";
    Returned(Str(t))
  }

  /** The answer is an error report. */
  predicate IsError(a: Answer) {
    a.Returned? && a.value.Str? && StartsWith(a.value.s, "Error: ")
  }

  const JsonContentType: Header := Header("Content-Type", "application/json")
  const AnthropicUrl: string := "https://api.anthropic.com/v1/messages"
  const AnthropicVersion: string := "2023-06-01"
  const DefaultClaudeModel: string := "claude-3-haiku-20240307"
  const DefaultCustomChatModel: string := "gpt-4o"
  const MaxTokens: int := 1024

  /** What separates the system prompt from the query where both travel in one text. */
  const QuerySeparator: string := "\n\nUser query: "

  /** The single user turn sent to Gemini, Anthropic and generic endpoints: the system prompt, then the query. */
  function PromptText(systemPrompt: string, userPrompt: string): string {
    systemPrompt + QuerySeparator + userPrompt
  }

  /** A Gemini `generateContent` request: the key travels in the query string. */
  function GeminiRequest(config: ProviderConfig, systemPrompt: string, userPrompt: string): Request {
    Request(config.apiUrl + "?key=" + config.apiKey, [JsonContentType],
            GeminiBody(PromptText(systemPrompt, userPrompt), config.temperature))
  }

  /** An OpenAI chat-completions request with a bearer token and separate system and user messages. */
  function ChatRequest(config: ProviderConfig, model: string, systemPrompt: string, userPrompt: string): Request {
    Request(config.apiUrl, [JsonContentType, Header("Authorization", "Bearer " + config.apiKey)],
            ChatBody(model, [Message("system", systemPrompt), Message("user", userPrompt)], config.temperature))
  }

  /** An Anthropic messages request. */
  function AnthropicRequest(config: ProviderConfig, model: string, systemPrompt: string, userPrompt: string): Request {
    Request(config.apiUrl,
            [JsonContentType, Header("x-api-key", config.apiKey), Header("anthropic-version", AnthropicVersion)],
            AnthropicBody(model, MaxTokens, config.temperature, [Message("user", PromptText(systemPrompt, userPrompt))]))
  }

  /** The request sent to an endpoint of no known kind. */
  function GenericRequest(config: ProviderConfig, systemPrompt: string, userPrompt: string): Request {
    Request(config.apiUrl, [JsonContentType, Header("Authorization", "Bearer " + config.apiKey)],
            GenericBody(PromptText(systemPrompt, userPrompt), config.temperature,
                        if config.modelName != "" then Some(config.modelName) else None))
  }

  // ---------------------------------------------------------------- status tables

  /** The five status-to-message tables: one per call, two for the Claude call (one per endpoint it may use). */
  datatype Table = GeminiTable | OpenAITable | AnthropicTable | ClaudeViaGeminiTable | CustomTable

  /** The branch of a table's `if` chain that a failing status takes. */
  datatype StatusClass = Forbidden | RateLimited | BadRequest | NotFound | ServerError | Unlisted(status: int)

  /**
   * The `if` chains: Gemini's (and the Claude call's Gemini one) tests 403,
   * 429, 400, then 5xx; OpenAI's (and the Claude call's Anthropic one) tests
   * 401 or 403, 429, 400, then 5xx; the custom one tests 401 or 403, 404,
   * then 5xx. Any other status falls through to the last branch.
   */
  function Classify(table: Table, status: int): StatusClass {
    match table
    case GeminiTable | ClaudeViaGeminiTable =>
      if status == 403 then Forbidden
      else if status == 429 then RateLimited
      else if status == 400 then BadRequest
      else if status >= 500 then ServerError
      else Unlisted(status)
    case OpenAITable | AnthropicTable =>
      if status == 401 || status == 403 then Forbidden
      else if status == 429 then RateLimited
      else if status == 400 then BadRequest
      else if status >= 500 then ServerError
      else Unlisted(status)
    case CustomTable =>
      if status == 401 || status == 403 then Forbidden
      else if status == 404 then NotFound
      else if status >= 500 then ServerError
      else Unlisted(status)
  }

  /** The statuses below 500 that a table lists explicitly. */
  function Listed(table: Table): set<int> {
    match table
    case GeminiTable | ClaudeViaGeminiTable => {400, 403, 429}
    case OpenAITable | AnthropicTable => {400, 401, 403, 429}
    case CustomTable => {401, 403, 404}
  }

  /** A status falls through to a table's last branch exactly when it is below 500 and not listed; it then keeps its value. */
  lemma ClassifyUnlisted(table: Table, status: int)
    ensures Classify(table, status).Unlisted? <==> status < 500 && status !in Listed(table)
    ensures Classify(table, status).Unlisted? ==> Classify(table, status).status == status
  {
  }

  /** 401 falls through Gemini's tables but shares 403's branch in OpenAI's, Anthropic's and the custom one. */
  lemma UnauthorizedStatus()
    ensures Classify(GeminiTable, 401) == Unlisted(401) && Classify(ClaudeViaGeminiTable, 401) == Unlisted(401)
    ensures Classify(OpenAITable, 401) == Classify(OpenAITable, 403) == Forbidden
    ensures Classify(AnthropicTable, 401) == Classify(AnthropicTable, 403) == Forbidden
    ensures Classify(CustomTable, 401) == Classify(CustomTable, 403) == Forbidden
  {
  }

  // The fixed message texts.
  const GeminiForbiddenText: string :=
    "API access forbidden. This could be due to an invalid Gemini API key or you've reached your quota limit. Please check your API key in the extension settings."
  const GeminiRateLimitedText: string :=
    "Too many requests. You've reached the rate limit for the Gemini API. Please try again later."
  const GeminiBadRequestText: string :=
    "Invalid or missing Gemini API key. Please check your API key in the extension settings."
  const GeminiServerErrorText: string :=
    "Gemini API server error. Please try again later."
  const OpenAIForbiddenText: string :=
    "API access forbidden. This could be due to an invalid OpenAI API key or you've reached your quota limit. Please check your API key in the extension settings."
  const OpenAIRateLimitedText: string :=
    "Too many requests. You've reached the rate limit for the OpenAI API. Please try again later."
  const OpenAIBadRequestText: string :=
    "Invalid or missing OpenAI API key or model. Please check your API key and model configuration in the extension settings."
  const OpenAIServerErrorText: string :=
    "OpenAI API server error. Please try again later."
  const AnthropicForbiddenText: string :=
    "API access forbidden. This could be due to an invalid Claude API key or you've reached your quota limit. Please check your API key in the extension settings."
  const AnthropicRateLimitedText: string :=
    "Too many requests. You've reached the rate limit for the Claude API. Please try again later."
  const AnthropicBadRequestText: string :=
    "Invalid or missing Claude API key. Please check your API key in the extension settings."
  const AnthropicServerErrorText: string :=
    "Claude API server error. Please try again later."
  const ClaudeViaGeminiForbiddenText: string :=
    "API access forbidden. This could be due to an invalid API key or you've reached your quota limit. Please check your API key in the extension settings."
  const ClaudeViaGeminiRateLimitedText: string :=
    "Too many requests. You've reached the rate limit for the API. Please try again later."
  const ClaudeViaGeminiBadRequestText: string :=
    "Invalid or missing Claude API key. Please check your API key in the extension settings."
  const ClaudeViaGeminiServerErrorText: string :=
    "API server error. Please try again later."
  const CustomForbiddenText: string :=
    "Authentication error. Please check your API key."
  const CustomNotFoundText: string :=
    "API endpoint not found. Please check your endpoint URL."
  const CustomServerErrorText: string :=
    "Custom model server error. Please try again later."

  /** The tail of every fall-through message except the custom one. */
  const KeyCheckSuffix: string := "). Please check your API key and try again."

  /** The message of each branch of each table; the last branch embeds the status. */
  function BranchMessage(table: Table, c: StatusClass, status: int): string {
    match (table, c)
    case (GeminiTable, Forbidden) => GeminiForbiddenText
    case (GeminiTable, RateLimited) => GeminiRateLimitedText
    case (GeminiTable, BadRequest) => GeminiBadRequestText
    case (GeminiTable, ServerError) => GeminiServerErrorText
    case (GeminiTable, _) => "Gemini API error (" + IntToString(status) + KeyCheckSuffix
    case (OpenAITable, Forbidden) => OpenAIForbiddenText
    case (OpenAITable, RateLimited) => OpenAIRateLimitedText
    case (OpenAITable, BadRequest) => OpenAIBadRequestText
    case (OpenAITable, ServerError) => OpenAIServerErrorText
    case (OpenAITable, _) => "OpenAI API error (" + IntToString(status) + KeyCheckSuffix
    case (AnthropicTable, Forbidden) => AnthropicForbiddenText
    case (AnthropicTable, RateLimited) => AnthropicRateLimitedText
    case (AnthropicTable, BadRequest) => AnthropicBadRequestText
    case (AnthropicTable, ServerError) => AnthropicServerErrorText
    case (AnthropicTable, _) => "Claude API error (" + IntToString(status) + KeyCheckSuffix
    case (ClaudeViaGeminiTable, Forbidden) => ClaudeViaGeminiForbiddenText
    case (ClaudeViaGeminiTable, RateLimited) => ClaudeViaGeminiRateLimitedText
    case (ClaudeViaGeminiTable, BadRequest) => ClaudeViaGeminiBadRequestText
    case (ClaudeViaGeminiTable, ServerError) => ClaudeViaGeminiServerErrorText
    case (ClaudeViaGeminiTable, _) => "Claude API error (" + IntToString(status) + KeyCheckSuffix
    case (CustomTable, Forbidden) => CustomForbiddenText
    case (CustomTable, NotFound) => CustomNotFoundText
    case (CustomTable, ServerError) => CustomServerErrorText
    case (CustomTable, _) => "Custom model API error (" + IntToString(status) + ")"
  }

  /** The message a call throws for a non-2xx status. */
  function StatusMessage(table: Table, status: int): string {
    BranchMessage(table, Classify(table, status), status)
  }

  /** The status text embedded in a fall-through message tells two statuses apart. */
  lemma EmbeddedStatusDiffers(prefix: string, suffix: string, a: int, b: int)
    requires prefix + IntToString(a) + suffix == prefix + IntToString(b) + suffix
    ensures a == b
  {
    var x := prefix + IntToString(a) + suffix;
    assert IntToString(a) == x[|prefix|..|x| - |suffix|] == IntToString(b);
    IntToStringInjective(a, b);
  }

  /** Different statuses that fall through a table get different messages, since each embeds its status. */
  lemma UnlistedMessagesDiffer(table: Table, a: int, b: int)
    requires Classify(table, a).Unlisted? && Classify(table, b).Unlisted? && a != b
    ensures StatusMessage(table, a) != StatusMessage(table, b)
  {
    if StatusMessage(table, a) == StatusMessage(table, b) {
      match table
      case GeminiTable => EmbeddedStatusDiffers("Gemini API error (", KeyCheckSuffix, a, b);
      case OpenAITable => EmbeddedStatusDiffers("OpenAI API error (", KeyCheckSuffix, a, b);
      case AnthropicTable => EmbeddedStatusDiffers("Claude API error (", KeyCheckSuffix, a, b);
      case ClaudeViaGeminiTable => EmbeddedStatusDiffers("Claude API error (", KeyCheckSuffix, a, b);
      case CustomTable => EmbeddedStatusDiffers("Custom model API error (", ")", a, b);
    }
  }

  /** Lengths and closing characters of the fixed texts. */
  lemma TextFacts()
    ensures |GeminiForbiddenText| == 157 && GeminiForbiddenText[155] == 's'
    ensures |GeminiRateLimitedText| == 92 && GeminiRateLimitedText[90] == 'r'
    ensures |GeminiBadRequestText| == 87 && GeminiBadRequestText[85] == 's'
    ensures |GeminiServerErrorText| == 48 && GeminiServerErrorText[46] == 'r'
    ensures |OpenAIForbiddenText| == 157 && OpenAIForbiddenText[155] == 's'
    ensures |OpenAIRateLimitedText| == 92 && OpenAIRateLimitedText[90] == 'r'
    ensures |OpenAIBadRequestText| == 120 && OpenAIBadRequestText[118] == 's'
    ensures |OpenAIServerErrorText| == 48 && OpenAIServerErrorText[46] == 'r'
    ensures |AnthropicForbiddenText| == 157 && AnthropicForbiddenText[155] == 's'
    ensures |AnthropicRateLimitedText| == 92 && AnthropicRateLimitedText[90] == 'r'
    ensures |AnthropicBadRequestText| == 87 && AnthropicBadRequestText[85] == 's'
    ensures |AnthropicServerErrorText| == 48 && AnthropicServerErrorText[46] == 'r'
    ensures |ClaudeViaGeminiForbiddenText| == 150 && ClaudeViaGeminiForbiddenText[148] == 's'
    ensures |ClaudeViaGeminiRateLimitedText| == 85 && ClaudeViaGeminiRateLimitedText[83] == 'r'
    ensures |ClaudeViaGeminiBadRequestText| == 87 && ClaudeViaGeminiBadRequestText[85] == 's'
    ensures |ClaudeViaGeminiServerErrorText| == 41 && ClaudeViaGeminiServerErrorText[39] == 'r'
    ensures |CustomForbiddenText| == 48 && CustomForbiddenText[47] == '.'
    ensures |CustomNotFoundText| == 55 && CustomNotFoundText[54] == '.'
    ensures |CustomServerErrorText| == 50 && CustomServerErrorText[49] == '.'
    ensures |KeyCheckSuffix| == 43 && KeyCheckSuffix[41] == 'n'
  {
  }

  /** A fall-through message ends like its suffix: "...try again." or, for the custom table, ")". */
  lemma FallThroughTail(table: Table, status: int)
    requires Classify(table, status).Unlisted?
    ensures var m := StatusMessage(table, status);
            if table == CustomTable then m[|m| - 1] == ')' else m[|m| - 2] == 'n'
  {
    TextFacts();
  }

  /** The character that ends a table's messages: the last for the custom table, the one before the final period otherwise. */
  function Closing(table: Table, m: string): char {
    if |m| < 2 then ' ' else if table == CustomTable then m[|m| - 1] else m[|m| - 2]
  }

  /** Each branch's text length (-1 for the fall-through branch, whose length varies) and closing character. */
  function Fingerprint(table: Table, c: StatusClass): (int, char) {
    match (table, c)
    case (GeminiTable, Forbidden) => (157, 's')
    case (GeminiTable, RateLimited) => (92, 'r')
    case (GeminiTable, BadRequest) => (87, 's')
    case (GeminiTable, ServerError) => (48, 'r')
    case (GeminiTable, Unlisted(_)) => (-1, 'n')
    case (OpenAITable, Forbidden) => (157, 's')
    case (OpenAITable, RateLimited) => (92, 'r')
    case (OpenAITable, BadRequest) => (120, 's')
    case (OpenAITable, ServerError) => (48, 'r')
    case (OpenAITable, Unlisted(_)) => (-1, 'n')
    case (AnthropicTable, Forbidden) => (157, 's')
    case (AnthropicTable, RateLimited) => (92, 'r')
    case (AnthropicTable, BadRequest) => (87, 's')
    case (AnthropicTable, ServerError) => (48, 'r')
    case (AnthropicTable, Unlisted(_)) => (-1, 'n')
    case (ClaudeViaGeminiTable, Forbidden) => (150, 's')
    case (ClaudeViaGeminiTable, RateLimited) => (85, 'r')
    case (ClaudeViaGeminiTable, BadRequest) => (87, 's')
    case (ClaudeViaGeminiTable, ServerError) => (41, 'r')
    case (ClaudeViaGeminiTable, Unlisted(_)) => (-1, 'n')
    case (CustomTable, Forbidden) => (48, '.')
    case (CustomTable, NotFound) => (55, '.')
    case (CustomTable, ServerError) => (50, '.')
    case (CustomTable, Unlisted(_)) => (-1, ')')
    case _ => (0, ' ')
  }

  /** The fingerprint of the Gemini table's messages. */
  lemma GeminiFingerprint(status: int)
    ensures Closing(GeminiTable, StatusMessage(GeminiTable, status)) == Fingerprint(GeminiTable, Classify(GeminiTable, status)).1
    ensures !Classify(GeminiTable, status).Unlisted? ==> |StatusMessage(GeminiTable, status)| == Fingerprint(GeminiTable, Classify(GeminiTable, status)).0
  {
    TextFacts();
    if Classify(GeminiTable, status).Unlisted? {
      FallThroughTail(GeminiTable, status);
    }
  }

  /** The fingerprint of the OpenAI table's messages. */
  lemma OpenAIFingerprint(status: int)
    ensures Closing(OpenAITable, StatusMessage(OpenAITable, status)) == Fingerprint(OpenAITable, Classify(OpenAITable, status)).1
    ensures !Classify(OpenAITable, status).Unlisted? ==> |StatusMessage(OpenAITable, status)| == Fingerprint(OpenAITable, Classify(OpenAITable, status)).0
  {
    TextFacts();
    if Classify(OpenAITable, status).Unlisted? {
      FallThroughTail(OpenAITable, status);
    }
  }

  /** The fingerprint of the Anthropic table's messages. */
  lemma AnthropicFingerprint(status: int)
    ensures Closing(AnthropicTable, StatusMessage(AnthropicTable, status)) == Fingerprint(AnthropicTable, Classify(AnthropicTable, status)).1
    ensures !Classify(AnthropicTable, status).Unlisted? ==> |StatusMessage(AnthropicTable, status)| == Fingerprint(AnthropicTable, Classify(AnthropicTable, status)).0
  {
    TextFacts();
    if Classify(AnthropicTable, status).Unlisted? {
      FallThroughTail(AnthropicTable, status);
    }
  }

  /** The fingerprint of the ClaudeViaGemini table's messages. */
  lemma ClaudeViaGeminiFingerprint(status: int)
    ensures Closing(ClaudeViaGeminiTable, StatusMessage(ClaudeViaGeminiTable, status)) == Fingerprint(ClaudeViaGeminiTable, Classify(ClaudeViaGeminiTable, status)).1
    ensures !Classify(ClaudeViaGeminiTable, status).Unlisted? ==> |StatusMessage(ClaudeViaGeminiTable, status)| == Fingerprint(ClaudeViaGeminiTable, Classify(ClaudeViaGeminiTable, status)).0
  {
    TextFacts();
    if Classify(ClaudeViaGeminiTable, status).Unlisted? {
      FallThroughTail(ClaudeViaGeminiTable, status);
    }
  }

  /** The fingerprint of the Custom table's messages. */
  lemma CustomFingerprint(status: int)
    ensures Closing(CustomTable, StatusMessage(CustomTable, status)) == Fingerprint(CustomTable, Classify(CustomTable, status)).1
    ensures !Classify(CustomTable, status).Unlisted? ==> |StatusMessage(CustomTable, status)| == Fingerprint(CustomTable, Classify(CustomTable, status)).0
  {
    TextFacts();
    if Classify(CustomTable, status).Unlisted? {
      FallThroughTail(CustomTable, status);
    }
  }

  /** Every message has its branch's closing character and, for a fixed text, its length. */
  lemma MessageFingerprint(table: Table, status: int)
    ensures Closing(table, StatusMessage(table, status)) == Fingerprint(table, Classify(table, status)).1
    ensures !Classify(table, status).Unlisted? ==> |StatusMessage(table, status)| == Fingerprint(table, Classify(table, status)).0
  {
    match table
    case GeminiTable => GeminiFingerprint(status);
    case OpenAITable => OpenAIFingerprint(status);
    case AnthropicTable => AnthropicFingerprint(status);
    case ClaudeViaGeminiTable => ClaudeViaGeminiFingerprint(status);
    case CustomTable => CustomFingerprint(status);
  }

  /** Within a table, two branches, not both the fall-through one, differ in closing character or in fixed length. */
  lemma FingerprintsDistinct(table: Table, a: int, b: int)
    requires Classify(table, a) != Classify(table, b)
    requires !Classify(table, a).Unlisted? || !Classify(table, b).Unlisted?
    ensures var fc, fd := Fingerprint(table, Classify(table, a)), Fingerprint(table, Classify(table, b));
            fc.1 != fd.1 || (fc.0 != fd.0 && fc.0 != -1 && fd.0 != -1)
  {
    match table
    case GeminiTable =>
    case OpenAITable =>
    case AnthropicTable =>
    case ClaudeViaGeminiTable =>
    case CustomTable =>
  }

  /** Two branches of a table, not both the fall-through one, have different messages. */
  lemma FixedBranchesDistinct(table: Table, a: int, b: int)
    requires Classify(table, a) != Classify(table, b)
    requires !Classify(table, a).Unlisted? || !Classify(table, b).Unlisted?
    ensures StatusMessage(table, a) != StatusMessage(table, b)
  {
    var c, d := Classify(table, a), Classify(table, b);
    MessageFingerprint(table, a);
    MessageFingerprint(table, b);
    FingerprintsDistinct(table, a, b);
    var ma, mb := StatusMessage(table, a), StatusMessage(table, b);
    if Fingerprint(table, c).1 != Fingerprint(table, d).1 {
      assert Closing(table, ma) != Closing(table, mb);
    } else {
      assert |ma| != |mb|;
    }
  }

  /**
   * Each table gives different branches different messages: the fixed texts
   * differ in length, a fall-through text ends differently from all of them,
   * and two fall-through texts embed different statuses.
   */
  lemma BranchesDistinct(table: Table, a: int, b: int)
    requires Classify(table, a) != Classify(table, b)
    ensures StatusMessage(table, a) != StatusMessage(table, b)
  {
    if Classify(table, a).Unlisted? && Classify(table, b).Unlisted? {
      UnlistedMessagesDiffer(table, a, b);
    } else {
      FixedBranchesDistinct(table, a, b);
    }
  }

  // ---------------------------------------------------------------- response extraction

  /** How a call reads the reply out of a parsed 2xx body. */
  datatype Extraction = GeminiParts | ChatMessage | AnthropicContent | CustomCascade

  /** `data.candidates[0].content.parts[0].text`. */
  function GeminiText(data: Js): Completion<Js> {
    Path(data, [Name("candidates"), Index(0), Name("content"), Name("parts"), Index(0), Name("text")])
  }

  const InvalidOpenAIFormat: string := "Invalid response format from OpenAI API"
  const InvalidClaudeFormat: string := "Invalid response format from Claude API"

  /** `data.choices[0].message`, each step read as `?.` reads it. */
  function ChatMessageOf(data: Js): Js {
    OptGet(OptGet(OptGet(data, Name("choices")).value, Index(0)).value, Name("message")).value
  }

  /** The guard `data.choices && data.choices[0] && data.choices[0].message`. */
  predicate HasChatMessage(data: Js) {
    var choices := OptGet(data, Name("choices")).value;
    Truthy(choices) && Truthy(OptGet(choices, Index(0)).value) && Truthy(ChatMessageOf(data))
  }

  /**
   * `data.choices[0].message.content`, after checking that `choices`, its
   * first entry and that entry's `message` are truthy; a body failing the
   * check is an invalid format, and an `undefined` or `null` body throws on
   * the first read.
   */
  function ChatContent(data: Js): (r: Completion<Js>)
    ensures r.Threw? && !(data.Undefined? || data.Null?) ==> r.message == InvalidOpenAIFormat
    ensures data.Undefined? || data.Null? ==> r.Threw?
    ensures !(data.Undefined? || data.Null?) ==> (r.Normal? <==> HasChatMessage(data))
    ensures r.Normal? ==> r == Get(ChatMessageOf(data), Name("content"))
    ensures !(data.Undefined? || data.Null?) && !HasChatMessage(data) ==> r == Threw(InvalidOpenAIFormat)
  {
    var choices :- Get(data, Name("choices"));
    if !Truthy(choices) then Threw(InvalidOpenAIFormat)
    else
      var first := Get(choices, Index(0)).value;
      if !Truthy(first) then Threw(InvalidOpenAIFormat)
      else
        var message := Get(first, Name("message")).value;
        if !Truthy(message) then Threw(InvalidOpenAIFormat)
        else Get(message, Name("content"))
  }

  /** `parts.map(part => part.text)`: throws at the first part that is `undefined` or `null`. */
  function PartTexts(parts: seq<Js>): (r: Completion<seq<Js>>)
    ensures r.Normal? <==> forall i :: 0 <= i < |parts| ==> !(parts[i].Undefined? || parts[i].Null?)
    ensures r.Normal? ==> |r.value| == |parts| && forall i :: 0 <= i < |parts| ==> Get(parts[i], Name("text")) == Normal(r.value[i])
  {
    if parts == [] then Normal([])
    else
      var t :- Get(parts[0], Name("text"));
      var rest :- PartTexts(parts[1..]);
      Normal([t] + rest)
  }

  /** The body is an object whose `content` is a non-empty array. */
  predicate HasContentArray(data: Js) {
    data.Obj? && "content" in data.fields && data.fields["content"].Arr? && |data.fields["content"].items| > 0
  }

  /**
   * The Anthropic reply: the texts of the non-empty `content` array joined
   * with no separator; any other body is an invalid format.
   */
  function AnthropicText(data: Js): (r: Completion<Js>)
    ensures r.Normal? <==> HasContentArray(data) && PartTexts(data.fields["content"].items).Normal?
    ensures r.Normal? ==> r.value == Str(JoinTexts(PartTexts(data.fields["content"].items).value, ""))
    ensures !HasContentArray(data) ==> r == Threw(InvalidClaudeFormat)
  {
    if !Truthy(data) then Threw(InvalidClaudeFormat)
    else
      var content := Get(data, Name("content")).value;
      if !content.Arr? || |content.items| == 0 then Threw(InvalidClaudeFormat)
      else
        var texts :- PartTexts(content.items);
        Normal(Str(JoinTexts(texts, "")))
  }

  /**
   * The custom cascade's tail: the first of `keys` whose property is truthy,
   * else the whole body, to be serialised.
   */
  function FirstTruthy(data: Js, keys: seq<Key>): (a: Answer)
    requires !(data.Undefined? || data.Null?)
    ensures a.StringifiedBody? <==> forall i :: 0 <= i < |keys| ==> !Truthy(Get(data, keys[i]).value)
    ensures a.StringifiedBody? ==> a.body == data
    ensures a.Returned? ==> exists i :: 0 <= i < |keys| && a.value == Get(data, keys[i]).value && Truthy(a.value)
                                       && forall j :: 0 <= j < i ==> !Truthy(Get(data, keys[j]).value)
    decreases |keys|
  {
    if keys == [] then StringifiedBody(data)
    else
      var v := Get(data, keys[0]).value;
      if Truthy(v) then Returned(v)
      else
        var a := FirstTruthy(data, keys[1..]);
        assert forall i :: 1 <= i < |keys| ==> keys[i] == keys[1..][i - 1];
        a
  }

  /** The four fallback fields of the custom cascade, in the order they are tried. */
  const FallbackFields: seq<Key> := [Name("result"), Name("response"), Name("output"), Name("generated_text")]

  /** A non-empty array-like value: `v && v.length > 0`. */
  predicate NonEmptyList(v: Js) {
    Truthy(v) && LengthPositive(v)
  }

  /**
   * The first property `data.candidates`, `data.choices`, `data.result`,
   * `data.response`, `data.output`, `data.generated_text` that applies: the
   * first candidate's first part text (empty when that candidate has no
   * `content.parts`), the first choice's `text` or else its
   * `message?.content`, the first truthy fallback field, or the whole body.
   */
  function CustomText(data: Js): (r: Completion<Answer>)
    ensures r.Threw? ==> !Truthy(data) || Truthy(Get(data, Name("candidates")).value) || Truthy(Get(data, Name("choices")).value)
    ensures data.Undefined? || data.Null? ==> r.Threw?
    ensures var candidates := OptGet(data, Name("candidates")).value;
            var first := OptGet(candidates, Index(0)).value;
            var content := OptGet(first, Name("content")).value;
            !(data.Undefined? || data.Null?) && NonEmptyList(candidates) && !(first.Undefined? || first.Null?) ==>
              if Truthy(content) && Truthy(OptGet(content, Name("parts")).value) then
                (r.Normal? <==> Path(content, [Name("parts"), Index(0), Name("text")]).Normal?) &&
                (r.Normal? ==> r.value == Returned(Path(content, [Name("parts"), Index(0), Name("text")]).value))
              else r == Normal(Returned(Str("")))
    ensures var candidates := OptGet(data, Name("candidates")).value;
            var choices := OptGet(data, Name("choices")).value;
            var first := OptGet(choices, Index(0)).value;
            !(data.Undefined? || data.Null?) && !NonEmptyList(candidates) && NonEmptyList(choices) && !(first.Undefined? || first.Null?) ==>
              r == Normal(Returned(Or(Get(first, Name("text")).value, OptGet(Get(first, Name("message")).value, Name("content")).value)))
    ensures !(data.Undefined? || data.Null?) && !NonEmptyList(OptGet(data, Name("candidates")).value)
              && !NonEmptyList(OptGet(data, Name("choices")).value) ==>
              r == Normal(FirstTruthy(data, FallbackFields))
  {
    var candidates :- Get(data, Name("candidates"));
    if NonEmptyList(candidates) then
      var first := Get(candidates, Index(0)).value;
      var content :- Get(first, Name("content"));
      if Truthy(content) && Truthy(Get(content, Name("parts")).value) then
        var text :- Path(content, [Name("parts"), Index(0), Name("text")]);
        Normal(Returned(text))
      else Normal(Returned(Str("")))
    else
      var choices := Get(data, Name("choices")).value;
      if NonEmptyList(choices) then
        var first := Get(choices, Index(0)).value;
        var text :- Get(first, Name("text"));
        var message := Get(first, Name("message")).value;
        Normal(Returned(Or(text, OptGet(message, Name("content")).value)))
      else
        Normal(FirstTruthy(data, FallbackFields))
  }

  /** What each extraction makes of a parsed body. */
  function Extract(ex: Extraction, data: Js): Completion<Answer> {
    match ex
    case GeminiParts => var t :- GeminiText(data); Normal(Returned(t))
    case ChatMessage => var t :- ChatContent(data); Normal(Returned(t))
    case AnthropicContent => var t :- AnthropicText(data); Normal(Returned(t))
    case CustomCascade => CustomText(data)
  }

  /** The request reached a 2xx response whose body parsed as JSON. */
  predicate OkJson(transport: Transport) {
    transport.Response? && Ok(transport.status) && transport.body.Json?
  }

  /** The request reached a 2xx response with a JSON body from which the reply could be extracted. */
  predicate Delivered(transport: Transport, ex: Extraction) {
    transport.Response? && Ok(transport.status) && transport.body.Json? && Extract(ex, transport.body.value).Normal?
  }

  /**
   * How a call ends once its request is sent: a rejected fetch, a non-2xx
   * status, an unparsable body and a throwing extraction each become an
   * `Error: ` text; otherwise the extracted answer.
   */
  function Receive(transport: Transport, table: Table, ex: Extraction): (a: Answer)
    ensures Delivered(transport, ex) ==> a == Extract(ex, transport.body.value).value
    ensures !Delivered(transport, ex) ==> IsError(a)
    ensures transport.Response? && !Ok(transport.status) ==> a == Failure(StatusMessage(table, transport.status))
  {
    match transport
    case Rejected(m) => Failure(m)
    case Response(status, body) =>
      if !Ok(status) then Failure(StatusMessage(table, status))
      else match body
        case Unparsable(m) => Failure(m)
        case Json(data) =>
          match Extract(ex, data)
          case Normal(a) => a
          case Threw(m) => Failure(m)
  }

  // ---------------------------------------------------------------- the calls

  const GeminiKeyMissing: string := "Gemini API key is missing. Please add your API key in the extension settings."
  const OpenAIKeyMissing: string := "OpenAI API key is missing. Please add your API key in the extension settings."
  const ClaudeKeyMissing: string := "Claude API key is missing. Please add your API key in the extension settings."
  const CustomSettingsMissing: string := "Custom model API key or endpoint is missing. Please add them in the extension settings."

  /** `callGeminiAPI`: no request without a key; otherwise the Gemini request and the Gemini table and extraction. */
  function CallGemini(config: ProviderConfig, systemPrompt: string, userPrompt: string, transport: Transport): (r: Exchange)
    ensures r.sent.None? <==> config.apiKey == ""
    ensures r.sent.None? ==> r.answer == Failure(GeminiKeyMissing)
    ensures r.sent.Some? ==> r.sent.value.url == config.apiUrl + "?key=" + config.apiKey
    ensures r.sent.Some? ==>
              r.sent.value.headers == [JsonContentType] &&
              r.sent.value.body == GeminiBody(systemPrompt + QuerySeparator + userPrompt, config.temperature)
    ensures r.sent.Some? && Delivered(transport, GeminiParts) ==> r.answer == Returned(GeminiText(transport.body.value).value)
    ensures r.sent.Some? && !Delivered(transport, GeminiParts) ==> IsError(r.answer)
    ensures r.sent.Some? && transport.Response? && !Ok(transport.status) ==>
              r.answer == Failure(StatusMessage(GeminiTable, transport.status))
  {
    if config.apiKey == "" then Exchange(None, Failure(GeminiKeyMissing))
    else Exchange(Some(GeminiRequest(config, systemPrompt, userPrompt)), Receive(transport, GeminiTable, GeminiParts))
  }

  /** `callOpenAIAPI`: the configured model, a bearer token, and the reply in the first choice's message. */
  function CallOpenAI(config: ProviderConfig, systemPrompt: string, userPrompt: string, transport: Transport): (r: Exchange)
    ensures r.sent.None? <==> config.apiKey == ""
    ensures r.sent.None? ==> r.answer == Failure(OpenAIKeyMissing)
    ensures r.sent.Some? ==> r.sent.value.url == config.apiUrl && r.sent.value.body.ChatBody? && r.sent.value.body.model == config.model
    ensures r.sent.Some? ==>
              r.sent.value.headers == [JsonContentType, Header("Authorization", "Bearer " + config.apiKey)] &&
              r.sent.value.body.ChatBody? &&
              r.sent.value.body.messages == [Message("system", systemPrompt), Message("user", userPrompt)] &&
              r.sent.value.body.temperature == config.temperature
    ensures r.sent.Some? && Delivered(transport, ChatMessage) ==> r.answer == Returned(ChatContent(transport.body.value).value)
    ensures r.sent.Some? && !Delivered(transport, ChatMessage) ==> IsError(r.answer)
    ensures r.sent.Some? && transport.Response? && !Ok(transport.status) ==>
              r.answer == Failure(StatusMessage(OpenAITable, transport.status))
    ensures r.sent.Some? && OkJson(transport) && HasChatMessage(transport.body.value) ==>
              r.answer == Returned(Get(ChatMessageOf(transport.body.value), Name("content")).value)
    ensures r.sent.Some? && OkJson(transport) && !HasChatMessage(transport.body.value)
              && !(transport.body.value.Undefined? || transport.body.value.Null?) ==>
              r.answer == Failure(InvalidOpenAIFormat)
  {
    if config.apiKey == "" then Exchange(None, Failure(OpenAIKeyMissing))
    else Exchange(Some(ChatRequest(config, config.model, systemPrompt, userPrompt)), Receive(transport, OpenAITable, ChatMessage))
  }

  /**
   * `callClaudeAPI`: the Anthropic messages API when the configured URL is
   * exactly the Anthropic endpoint (the free plan), otherwise a Gemini-format
   * request to the configured URL with its own status table.
   */
  function CallClaude(config: ProviderConfig, systemPrompt: string, userPrompt: string, transport: Transport): (r: Exchange)
    ensures r.sent.None? <==> config.apiKey == ""
    ensures r.sent.None? ==> r.answer == Failure(ClaudeKeyMissing)
    ensures r.sent.Some? && config.apiUrl == AnthropicUrl ==>
              r.sent.value.url == AnthropicUrl && r.sent.value.body.AnthropicBody? && r.sent.value.body.model == DefaultClaudeModel
    ensures r.sent.Some? && config.apiUrl == AnthropicUrl ==>
              r.sent.value.headers == [JsonContentType, Header("x-api-key", config.apiKey), Header("anthropic-version", AnthropicVersion)] &&
              r.sent.value.body == AnthropicBody(DefaultClaudeModel, MaxTokens, config.temperature,
                                                 [Message("user", systemPrompt + QuerySeparator + userPrompt)])
    ensures r.sent.Some? && config.apiUrl != AnthropicUrl ==>
              r.sent.value.url == config.apiUrl + "?key=" + config.apiKey && r.sent.value.headers == [JsonContentType] &&
              r.sent.value.body == GeminiBody(systemPrompt + QuerySeparator + userPrompt, config.temperature)
    ensures r.sent.Some? && config.apiUrl != AnthropicUrl ==> r.sent.value == GeminiRequest(config, systemPrompt, userPrompt)
    ensures r.sent.Some? && config.apiUrl != AnthropicUrl && transport.Response? && !Ok(transport.status) ==>
              r.answer == Failure(StatusMessage(ClaudeViaGeminiTable, transport.status))
    ensures r.sent.Some? && config.apiUrl == AnthropicUrl && transport.Response? && !Ok(transport.status) ==>
              r.answer == Failure(StatusMessage(AnthropicTable, transport.status))
    ensures r.sent.Some? && config.apiUrl == AnthropicUrl && Delivered(transport, AnthropicContent) ==>
              r.answer == Returned(AnthropicText(transport.body.value).value)
    ensures r.sent.Some? && config.apiUrl == AnthropicUrl && !Delivered(transport, AnthropicContent) ==> IsError(r.answer)
    ensures r.sent.Some? && config.apiUrl != AnthropicUrl && Delivered(transport, GeminiParts) ==>
              r.answer == Returned(GeminiText(transport.body.value).value)
    ensures r.sent.Some? && config.apiUrl != AnthropicUrl && !Delivered(transport, GeminiParts) ==> IsError(r.answer)
  {
    if config.apiKey == "" then Exchange(None, Failure(ClaudeKeyMissing))
    else if config.apiUrl == AnthropicUrl then
      Exchange(Some(AnthropicRequest(config, DefaultClaudeModel, systemPrompt, userPrompt)), Receive(transport, AnthropicTable, AnthropicContent))
    else
      Exchange(Some(GeminiRequest(config, systemPrompt, userPrompt)), Receive(transport, ClaudeViaGeminiTable, GeminiParts))
  }

  /** The request format a custom endpoint gets, chosen by substrings of its URL. */
  datatype Dialect = GeminiDialect | OpenAIDialect | AnthropicDialect | GenericDialect

  const GoogleHost: string := "generativelanguage.googleapis.com"
  const OpenAIHost: string := "api.openai.com"
  const AnthropicHost: string := "api.anthropic.com"

  /** The first of Google, OpenAI and Anthropic whose host name occurs in the URL; generic otherwise. */
  function SelectDialect(url: string): (d: Dialect)
    ensures d == GeminiDialect <==> Contains(url, GoogleHost)
    ensures d == OpenAIDialect <==> !Contains(url, GoogleHost) && Contains(url, OpenAIHost)
    ensures d == AnthropicDialect <==> !Contains(url, GoogleHost) && !Contains(url, OpenAIHost) && Contains(url, AnthropicHost)
  {
    if Contains(url, GoogleHost) then GeminiDialect
    else if Contains(url, OpenAIHost) then OpenAIDialect
    else if Contains(url, AnthropicHost) then AnthropicDialect
    else GenericDialect
  }

  /** `x || fallback` on strings. */
  function OrDefault(x: string, fallback: string): string {
    if x != "" then x else fallback
  }

  /** The request a custom endpoint is sent: the matching provider's format, with the custom model name where the format carries one. */
  function CustomRequest(config: ProviderConfig, systemPrompt: string, userPrompt: string): Request {
    match SelectDialect(config.apiUrl)
    case GeminiDialect => GeminiRequest(config, systemPrompt, userPrompt)
    case OpenAIDialect => ChatRequest(config, OrDefault(config.modelName, DefaultCustomChatModel), systemPrompt, userPrompt)
    case AnthropicDialect => AnthropicRequest(config, OrDefault(config.modelName, DefaultClaudeModel), systemPrompt, userPrompt)
    case GenericDialect => GenericRequest(config, systemPrompt, userPrompt)
  }

  /**
   * The custom entry after the reload: when its key or URL is empty and a
   * custom model is stored, all three fields are taken from the stored one.
   */
  function ReloadedCustom(config: ProviderConfig, stored: Option<StoredCustomModel>): (c: ProviderConfig)
    ensures config.apiKey != "" && config.apiUrl != "" ==> c == config
    ensures (config.apiKey == "" || config.apiUrl == "") && stored.Some? ==>
              c == config.(apiKey := stored.value.key, apiUrl := stored.value.endpoint, modelName := stored.value.name)
    ensures stored.None? ==> c == config
    ensures c.temperature == config.temperature && c.model == config.model
  {
    if config.apiKey != "" && config.apiUrl != "" then config
    else if stored.Some? then config.(apiKey := stored.value.key, apiUrl := stored.value.endpoint, modelName := stored.value.name)
    else config
  }

  /**
   * `callCustomModelAPI`: the (possibly reloaded) custom entry, which the
   * call writes back, and the exchange.
   */
  function CallCustom(config: ProviderConfig, stored: Option<StoredCustomModel>, systemPrompt: string, userPrompt: string,
                      transport: Transport): (r: (ProviderConfig, Exchange))
    ensures r.0 == ReloadedCustom(config, stored)
    ensures r.1.sent.None? <==> r.0.apiKey == "" || r.0.apiUrl == ""
    ensures r.1.sent.None? ==> r.1.answer == Failure(CustomSettingsMissing)
    ensures r.1.sent.Some? ==> r.1.sent.value == CustomRequest(r.0, systemPrompt, userPrompt)
    ensures r.1.sent.Some? && SelectDialect(r.0.apiUrl) == GeminiDialect ==>
              r.1.sent.value == Request(r.0.apiUrl + "?key=" + r.0.apiKey, [JsonContentType],
                                        GeminiBody(systemPrompt + QuerySeparator + userPrompt, r.0.temperature))
    ensures r.1.sent.Some? && SelectDialect(r.0.apiUrl) == OpenAIDialect ==>
              r.1.sent.value == Request(r.0.apiUrl, [JsonContentType, Header("Authorization", "Bearer " + r.0.apiKey)],
                                        ChatBody(if r.0.modelName != "" then r.0.modelName else DefaultCustomChatModel,
                                                 [Message("system", systemPrompt), Message("user", userPrompt)], r.0.temperature))
    ensures r.1.sent.Some? && SelectDialect(r.0.apiUrl) == AnthropicDialect ==>
              r.1.sent.value == Request(r.0.apiUrl,
                                        [JsonContentType, Header("x-api-key", r.0.apiKey), Header("anthropic-version", AnthropicVersion)],
                                        AnthropicBody(if r.0.modelName != "" then r.0.modelName else DefaultClaudeModel, MaxTokens,
                                                      r.0.temperature, [Message("user", systemPrompt + QuerySeparator + userPrompt)]))
    ensures r.1.sent.Some? && SelectDialect(r.0.apiUrl) == GenericDialect ==>
              r.1.sent.value == Request(r.0.apiUrl, [JsonContentType, Header("Authorization", "Bearer " + r.0.apiKey)],
                                        GenericBody(systemPrompt + QuerySeparator + userPrompt, r.0.temperature,
                                                    if r.0.modelName != "" then Some(r.0.modelName) else None))
    ensures r.1.sent.Some? && Delivered(transport, CustomCascade) ==> r.1.answer == CustomText(transport.body.value).value
    ensures r.1.sent.Some? && !Delivered(transport, CustomCascade) ==> IsError(r.1.answer)
    ensures r.1.sent.Some? && transport.Response? && !Ok(transport.status) ==>
              r.1.answer == Failure(StatusMessage(CustomTable, transport.status))
  {
    var c := ReloadedCustom(config, stored);
    if c.apiKey == "" || c.apiUrl == "" then (c, Exchange(None, Failure(CustomSettingsMissing)))
    else (c, Exchange(Some(CustomRequest(c, systemPrompt, userPrompt)), Receive(transport, CustomTable, CustomCascade)))
  }

  // ---------------------------------------------------------------- properties of the calls

  /** The body a Gemini endpoint sends back with one candidate carrying one text part. */
  function GeminiReply(text: string): Js {
    Obj(map["candidates" := Arr([Obj(map["content" := Obj(map["parts" := Arr([Obj(map["text" := Str(text)])])])])])])
  }

  /** A 2xx Gemini reply with a single text part is returned as that text, by the Gemini call and by the Claude call's Gemini branch. */
  lemma GeminiReplyText(config: ProviderConfig, systemPrompt: string, userPrompt: string, status: int, text: string)
    requires config.apiKey != "" && Ok(status)
    ensures CallGemini(config, systemPrompt, userPrompt, Response(status, Json(GeminiReply(text)))).answer == Returned(Str(text))
    ensures config.apiUrl != AnthropicUrl ==>
              CallClaude(config, systemPrompt, userPrompt, Response(status, Json(GeminiReply(text)))).answer == Returned(Str(text))
  {
    var d := GeminiReply(text);
    var c := d.fields["candidates"];
    var p := c.items[0].fields["content"].fields["parts"];
    assert Path(p, [Index(0), Name("text")]) == Normal(Str(text));
    assert GeminiText(d) == Normal(Str(text));
  }

  /** Whatever the status and the body, every call that does not deliver a reply returns an `Error: ` text, and a missing key sends nothing. */
  lemma FailuresAreErrorTexts(config: ProviderConfig, stored: Option<StoredCustomModel>, systemPrompt: string, userPrompt: string,
                              transport: Transport)
    ensures config.apiKey == "" ==> IsError(CallGemini(config, systemPrompt, userPrompt, transport).answer)
    ensures !Delivered(transport, GeminiParts) ==> IsError(CallGemini(config, systemPrompt, userPrompt, transport).answer)
    ensures !Delivered(transport, ChatMessage) ==> IsError(CallOpenAI(config, systemPrompt, userPrompt, transport).answer)
    ensures !Delivered(transport, AnthropicContent) && !Delivered(transport, GeminiParts) ==>
              IsError(CallClaude(config, systemPrompt, userPrompt, transport).answer)
    ensures !Delivered(transport, CustomCascade) ==> IsError(CallCustom(config, stored, systemPrompt, userPrompt, transport).1.answer)
  {
  }

  /**
   * The order of the custom cascade: a Gemini-shaped `candidates` array wins
   * over every other field; without truthy `candidates` and `choices`, a
   * truthy `result` wins over the later fields and a truthy `response` over
   * `output` and `generated_text`, and a body with none of the fallback fields
   * truthy is returned whole.
   */
  lemma CascadeOrder(data: Js, text: string)
    requires data.Obj?
    ensures "candidates" in data.fields && data.fields["candidates"] == GeminiReply(text).fields["candidates"] ==>
              CustomText(data) == Normal(Returned(Str(text)))
    ensures !Truthy(Get(data, Name("candidates")).value) && !Truthy(Get(data, Name("choices")).value) ==>
              CustomText(data).Normal? &&
              (Truthy(Get(data, Name("result")).value) ==> CustomText(data).value == Returned(data.fields["result"])) &&
              (CustomText(data).value.StringifiedBody? <==> forall i :: 0 <= i < |FallbackFields| ==> !Truthy(Get(data, FallbackFields[i]).value))
    ensures !Truthy(Get(data, Name("candidates")).value) && !Truthy(Get(data, Name("choices")).value) &&
            !Truthy(Get(data, Name("result")).value) && Truthy(Get(data, Name("response")).value) ==>
              CustomText(data) == Normal(Returned(data.fields["response"]))
  {
    if "candidates" in data.fields && data.fields["candidates"] == GeminiReply(text).fields["candidates"] {
      var first := data.fields["candidates"].items[0];
      assert Get(first, Name("content")) == Normal(first.fields["content"]);
      var parts := first.fields["content"].fields["parts"];
      assert Path(parts, [Index(0), Name("text")]) == Normal(Str(text));
    }
    if !Truthy(Get(data, Name("candidates")).value) && !Truthy(Get(data, Name("choices")).value) {
      assert FallbackFields[0] == Name("result");
      assert FallbackFields[1] == Name("response");
    }
  }

  /** In the custom cascade, a first choice without `text` yields its message's `content`. */
  lemma ChoiceMessageFallback(data: Js, text: string)
    requires data.Obj? && !Truthy(Get(data, Name("candidates")).value)
    requires "choices" in data.fields && data.fields["choices"] == Arr([Obj(map["message" := Obj(map["content" := Str(text)])])])
    ensures CustomText(data) == Normal(Returned(Str(text)))
  {
    var first := data.fields["choices"].items[0];
    assert Get(first, Name("text")) == Normal(Undefined);
  }

  /**
   * A custom endpoint gets the same request as the dedicated call for its
   * dialect: the Gemini call's for a Google URL, the OpenAI call's with the
   * custom model name (or gpt-4o), and the Claude call's at the Anthropic
   * endpoint when no model name is set.
   */
  lemma CustomMatchesDedicatedCalls(config: ProviderConfig, systemPrompt: string, userPrompt: string, transport: Transport)
    requires config.apiKey != "" && config.apiUrl != ""
    ensures SelectDialect(config.apiUrl) == GeminiDialect ==>
              CallCustom(config, None, systemPrompt, userPrompt, transport).1.sent == CallGemini(config, systemPrompt, userPrompt, transport).sent
    ensures SelectDialect(config.apiUrl) == OpenAIDialect ==>
              CallCustom(config, None, systemPrompt, userPrompt, transport).1.sent
              == CallOpenAI(config.(model := OrDefault(config.modelName, DefaultCustomChatModel)), systemPrompt, userPrompt, transport).sent
    ensures config.apiUrl == AnthropicUrl && config.modelName == "" && SelectDialect(config.apiUrl) == AnthropicDialect ==>
              CallCustom(config, None, systemPrompt, userPrompt, transport).1.sent == CallClaude(config, systemPrompt, userPrompt, transport).sent
  {
  }
}
