# TypePilot core, modelled in Dafny

TypePilot is a browser extension. It watches the text fields of a page for a
trigger keyword (by default `help:`). Once the keyword is seen it captures
what the user types after it. When the end marker `...` appears, it sends the
captured command to an AI provider and writes the reply into the field. The
provider is Gemini, OpenAI, Claude (the Anthropic API or a Gemini endpoint)
or a user-configured custom endpoint. A background page holds the API keys
from a bundled `.env` file and the user's credits. The popup lets the user
choose the model and the keyword, and shows the credits.

This project models the logic of the three scripts that carry that
behaviour:

- the page script `content.js`: keyword normalisation, the capture state
  machine, the provider configuration and its updates, the key loader with
  its retry bound, plan-based key selection, and the four provider calls
  (request, status-code message tables, response extraction);
- the background page `background.js`: the `.env` parser, the key reply,
  the credit check and decrement, and the authentication and user-data
  messages;
- the popup `popup.js`: the model name/option mappings, the free-plan
  fallback from `gpt4`, the keyword save and display forms, and the daily
  and monthly credit resets with the credit count shown.

Modules:

| file | module | contents |
|---|---|---|
| `options.dfy` | `Options` | `Option<T>` |
| `js_strings.dfy` | `JsStrings` | the JavaScript string built-ins the scripts use (`indexOf`, `includes`, `slice`, `trim`, `split`, `join`, `toLowerCase`, number printing), with their characterisations |
| `js_values.dfy` | `JsValues` | parsed JSON values with JavaScript truthiness, `||`, property access that throws on `undefined`/`null`, and `join` |
| `keyword.dfy` | `Keyword` | the four keyword forms (page load, page update, popup save, popup display) |
| `capture.dfy` | `Capture` | `handleInput` as a pure step function and as the class `CaptureEngine` over a mutable `Element` |
| `providers.dfy` | `Providers` | the four provider calls as pure functions of the configuration, the prompts and one abstract transport outcome |
| `dispatcher.dfy` | `Dispatcher` | the class `AiConfig` (the `AI_CONFIG` object and the key-loader globals) and `callAIAPI` |
| `background.dfy` | `Background` | the `.env` fold, the key reply, and the class `BackgroundPage` over the stored values |
| `popup.dfy` | `Popup` | the selector mappings, the opening selection, and the class `PopupStorage` with the credit resets |

Storage, messages and network calls are inputs and outputs of the modelled
operations. A provider call is a function of an abstract `Transport`:
either a thrown network error, or an HTTP status with a body that parses as
JSON or does not. The system prompt is a parameter.

Where the code differs from what one might expect, the model follows the
code:

- The status tables are not uniform. The Gemini table and the Claude-over-Gemini
  table send 401 to the generic branch. The custom table has no 400 or 429
  branch but has a 404 branch.
- A 2xx reply whose body lacks the expected fields does not always give a
  "malformed response" message. The Gemini path surfaces the TypeError of
  the failed property read. The custom path returns the body as JSON text.
- Thrown errors surface as `Error: ` followed by the raw message.
- `indexOf` finds the first occurrence of the keyword and of the marker.
  When the marker comes before the keyword, the `slice` is empty and an empty
  command is sent (`Capture.MarkerBeforeKeyword`).
- A `.env` line `K=V=W` gives the value `V`. The value is cut at the second `=`
  (`Background.SecondEqualsCutsValue`).
- The `updateModel` message copies the custom key and endpoint but not the
  custom model name. Only the page load and the lazy reload copy the model name.
- The popup compares the plan with `"free"` exactly. The page script
  lower-cases it and treats a missing plan as free (`Popup.PlanReadingsDiffer`).
- The page script keeps a stored bare `:` as the keyword at load. Its update
  listener replaces it with `help:` (`Keyword.BareColonDivergence`).

## Model

| member | source | states |
|---|---|---|
| JsStrings.IndexOfFirst | content.js:793 | `indexOf` returns the first position where the pattern occurs, or -1 exactly when it does not occur |
| JsStrings.TrimSegment | background.js:195 | `trim` returns a contiguous slice of its input with no leading or trailing whitespace, dropping only whitespace |
| JsStrings.SplitJoin | background.js:192 | splitting on a separator and joining back gives the original text |
| JsStrings.SplitAt | background.js:198 | splitting text whose first part has no separator yields that part first |
| JsStrings.IntToStringInjective | content.js:521-537 | different statuses print as different decimal texts |
| Keyword.LoadedKeyword | content.js:15-32 | the loaded keyword always ends with `:` and is trimmed; missing or blank storage gives `help:`; otherwise it is the trimmed text with at most one `:` appended |
| Keyword.UpdatedKeyword | content.js:44-69 | as at load, but a bare or whitespace-led colon also gives `help:`; the result has at least two characters |
| Keyword.BlankThenColonOnTrimmed | content.js:64 | on trimmed text the pattern `/^\s*:$/` matches only `:` |
| Keyword.UpdatedKeywordIdempotent | content.js:44-69 | sending an updated keyword again leaves it unchanged |
| Keyword.LoadAfterUpdate | content.js:15-32 | what the update listener stores is adopted unchanged at the next page load |
| Keyword.BareColonDivergence | content.js:15-21 | a stored `:` survives the load but not the update listener |
| Keyword.SavedKeyword | popup.js:491-500 | the popup saves `help:` for blank input, otherwise the untrimmed text ending in exactly one added `:` when missing |
| Keyword.DisplayKeyword | popup.js:570-573 | the display form drops exactly one trailing `:` and nothing else |
| Keyword.SaveThenDisplay | popup.js:190-193 | text typed without a colon comes back as typed after save and display |
| Keyword.DisplayThenSave | popup.js:491-500 | saving the display form restores the keyword exactly when that form is non-blank and has no trailing colon |
| Capture.InputElementsAreWritable | content.js:754-777 | an element is treated as an input field exactly when the update routine can write to it |
| Capture.Element.Update | content.js:765-777 | `input`/`textarea` get `value`, contenteditable and `role=textbox` elements get `textContent`, others are untouched |
| Capture.Start | content.js:789-797 | capture starts exactly when not capturing and the text contains the keyword; the captured text follows the first keyword |
| Capture.ReplyText | content.js:830-835 | a reply is written as is; a thrown error as `Error: ` and its message |
| Capture.DispatchRule | content.js:807-830 | an event sends a command exactly when its text holds both keyword and marker; the command is the trimmed text between them and capture resets |
| Capture.NoDispatchKeepsCapture | content.js:789-807 | without a send, capturing becomes true exactly when it was or the keyword appears, and an active capture is unchanged |
| Capture.CutAvoidsMarker | content.js:815-818 | the text cut before the first marker contains no marker |
| Capture.CommandHasNoMarker | content.js:815-824 | the command sent contains no marker and is trimmed |
| Capture.MarkerBeforeKeyword | content.js:815-818 | a marker before the keyword makes the command empty |
| Capture.SingleEventCommand | content.js:780-838 | one event `help:Summarize this...` from idle sends `Summarize this` and ends idle |
| Capture.NoMarkerNoCommand | content.js:807 | a run of events without the marker sends nothing and keeps an active capture |
| Capture.CaptureEngine.constructor | content.js:3-4 | the engine starts idle with keyword `help:` |
| Capture.CaptureEngine.LoadKeyword | content.js:9-32 | the keyword becomes the load form; the default is written back exactly when storage is missing or blank |
| Capture.CaptureEngine.UpdateKeyword | content.js:40-90 | the keyword becomes the update form, which is also what is stored and echoed |
| Capture.CaptureEngine.StartCapture | content.js:789-797 | the capture state advances as `Start` says; the keyword still ends with `:` |
| Capture.CaptureEngine.FinishCapture | content.js:807-836 | a command is sent exactly as `Command` says; the field shows `...` then the reply; capture resets; otherwise nothing changes; the keyword still ends with `:` |
| Capture.CaptureEngine.SendCut | content.js:815-829 | the command sent is the trimmed cut; the field shows `...` then the reply; the capture is reset and the keyword kept |
| Capture.CaptureEngine.Respond | content.js:819-829 | the field is written twice, placeholder then reply, and ends showing the reply |
| Capture.CaptureEngine.HandleInput | content.js:780-838 | non-input elements are ignored; otherwise the command sent and the writes are those of the step function; the keyword still ends with `:` |
| Capture.CaptureEngine.OnKeypress | content.js:844-853 | keypresses are handled only on contenteditable elements; the keyword still ends with `:` |
| Providers.Failure | content.js:546 | every failure answer is an `Error: ` text |
| Providers.ClassifyUnlisted | content.js:519-540 | a status reaches a table's generic branch exactly when it is below 500 and not listed, and keeps its value |
| Providers.UnauthorizedStatus | content.js:579-600 | 401 shares 403's branch for OpenAI, Anthropic and custom, but falls through for Gemini and Claude-over-Gemini |
| Providers.EmbeddedStatusDiffers | content.js:535-537 | equal messages embedding a status embed the same status |
| Providers.UnlistedMessagesDiffer | content.js:535-537 | two generic-branch statuses give different messages |
| Providers.FallThroughTail | content.js:535-537 | a generic-branch message ends with the table's fixed tail |
| Providers.TextFacts | content.js:524-534 | the lengths and closing characters of the fixed status texts |
| Providers.GeminiFingerprint | content.js:519-540 | each Gemini status message ends with its branch's character, and fixed ones have their branch's length |
| Providers.OpenAIFingerprint | content.js:579-600 | the same for the OpenAI table |
| Providers.AnthropicFingerprint | content.js:645-663 | the same for the Anthropic table |
| Providers.ClaudeViaGeminiFingerprint | content.js:700-718 | the same for the Claude-over-Gemini table |
| Providers.CustomFingerprint | content.js:438-452 | the same for the custom table |
| Providers.MessageFingerprint | content.js:438-452 | the fingerprint facts for any table |
| Providers.FingerprintsDistinct | content.js:519-540 | two branches of one table, not both generic, differ in closing character or fixed length |
| Providers.FixedBranchesDistinct | content.js:579-600 | two branches of one table, not both generic, give different messages |
| Providers.BranchesDistinct | content.js:519-540 | in every table, statuses in different branches give different messages |
| Providers.ChatContent | content.js:602-608 | a body passing the `choices`, `choices[0]`, `message` check yields `message.content`; any other non-null body fails with the OpenAI format error; a null body throws |
| Providers.PartTexts | content.js:673 | mapping parts to `text` succeeds exactly when no part is null or undefined, and reads each part's text |
| Providers.AnthropicText | content.js:665-676 | the joined part texts are returned exactly when `content` is a non-empty array of non-null parts; without such an array the Claude format error is thrown |
| Providers.FirstTruthy | content.js:464-483 | the first truthy field in cascade order is returned, or the whole body when none is truthy |
| Providers.CustomText | content.js:454-484 | a non-empty `candidates` gives the first part's text (empty without `content.parts`); else a non-empty `choices` gives `text` or else `message?.content`; else the first truthy of `result`, `response`, `output`, `generated_text`, or the whole body; throws only on a null body or while reading the first two fields |
| Providers.Receive | content.js:519-543 | a delivered reply yields the extracted value; a non-ok status yields its table's message; any other outcome is an error text |
| Providers.CallGemini | content.js:491-548 | no request without a key (key-missing error); the key goes in the URL; the request has only the JSON content type and one text, the system prompt then `User query: ` and the query, with the configured temperature; a non-2xx status gives the Gemini table's message; a delivered body gives its first part's text; anything else an error |
| Providers.CallOpenAI | content.js:551-613 | no request without a key; the request goes to the configured URL with a bearer token for the key, the configured model and temperature, and a system message with the system prompt followed by a user message with the query; a non-2xx status gives the OpenAI table's message; a 2xx body passing the check gives `choices[0].message.content`, any other non-null body the format error |
| Providers.CallClaude | content.js:616-727 | no request without a key; the Anthropic request (the key in `x-api-key`, version `2023-06-01`, the default Claude model, 1024 tokens, one user message with the system prompt then the query) is sent exactly when the URL is the Anthropic one, and otherwise a Gemini request with the key in the URL; each branch has its own status table and its own extraction (joined `content` texts, or the first Gemini part) |
| Providers.SelectDialect | content.js:344-437 | the custom dialect is Gemini iff the URL names Google's host, else OpenAI iff it names OpenAI's, else Anthropic iff it names Anthropic's |
| Providers.ReloadedCustom | content.js:321-332 | a custom configuration with key and URL is kept; otherwise a stored custom model replaces key, URL and model name, and without one nothing changes |
| Providers.CallCustom | content.js:318-489 | the reloaded configuration is kept; no request without key and URL; the request is the dialect's: the Gemini one with the key in the URL, the OpenAI one with the custom model name or `gpt-4o`, the Anthropic one with the custom model name or the default Claude model, or else a bearer-token request with the combined prompt, the temperature and the model name when set; a non-2xx status gives the custom table's message; a delivered body gives the cascade's answer; anything else an error |
| Providers.GeminiReplyText | content.js:542-543 | a well-formed Gemini reply yields its text, also for Claude over Gemini |
| Providers.FailuresAreErrorTexts | content.js:487-546 | every failed call of every provider answers with an `Error: ` text |
| Providers.CascadeOrder | content.js:459-483 | a Gemini-shaped body takes the Gemini branch; a body with neither `candidates` nor `choices` goes through `result`, `response` and the rest in order, and is returned whole when none is truthy |
| Providers.ChoiceMessageFallback | content.js:464-466 | a first choice without `text` gives its message's `content` |
| Providers.CustomMatchesDedicatedCalls | content.js:343-437 | a custom endpoint on a known host sends the same request shape as the dedicated call for that provider |
| Dispatcher.Lookup | content.js:289-294 | the provider names find their configurations; `activeModel` and inherited object properties are found but are not providers |
| Dispatcher.LookupFindsProviders | content.js:289-308 | each provider is found under its name; nothing is found exactly when the name is neither a provider nor another property |
| Dispatcher.ErrorsEndWaiting | content.js:215-228 | after runtime errors the retry count stays within 3; keys count as loaded exactly once the retries are used up |
| Dispatcher.EffectivePlan | content.js:922-925 | a missing or empty plan is `free`; otherwise the plan lower-cased, with no capitals left; the result is `free` exactly when the plan is missing, empty or `free` in any case |
| Dispatcher.PlanIgnoresCase | content.js:922-925 | `FREE`, `Free`, a missing and an empty plan all read as free |
| Dispatcher.PlanCredentials | content.js:927-944 | a free plan takes only the user's stored keys and the Anthropic URL; any other plan keeps the keys and points Claude at the Gemini endpoint |
| Dispatcher.PlanSelectsClaudeApi | content.js:927-944 | the Anthropic body is sent exactly on the free plan; a free user without a stored Claude key sends nothing |
| Dispatcher.AiConfig.constructor | content.js:92-126 | the initial model, URLs, OpenAI model and temperatures |
| Dispatcher.AiConfig.LoadPreferences | content.js:129-141 | a truthy stored model is adopted; a stored custom model sets key, endpoint and model name |
| Dispatcher.AiConfig.OnUpdateModel | content.js:144-176 | the model is set; for `custom` with stored settings, key and endpoint are copied |
| Dispatcher.AiConfig.OnUserLoggedOut | content.js:179-198 | the model returns to `gemini`, nothing else changes |
| Dispatcher.AiConfig.OnKeysReply | content.js:213-253 | a key reply sets each non-empty key and resolves the plan; an error retries while under 3, else stops waiting |
| Dispatcher.AiConfig.ApplyPlan | content.js:910-947 | the model and the credentials become those `PlanCredentials` gives |
| Dispatcher.AiConfig.CallProvider | content.js:298-305 | each provider is called with its own configuration; only the custom call changes the custom configuration |
| Dispatcher.AiConfig.CallAI | content.js:265-315 | no keys in time gives the loading error; an unknown or non-provider name gives its error; otherwise the active provider's call; nothing sent means an error text |
| Background.LineEntry | background.js:193-201 | a line defines an entry exactly when it is not blank, not a `#` comment, and has non-empty trimmed text before the first `=` and between the first and second; the entry is that trimmed pair |
| Background.PlainLineEntry | background.js:193-201 | a plain `K=V` line with non-blank `K` and `V` defines the trimmed `K` and `V` |
| Background.EnvMembership | background.js:186-202 | a key is defined after parsing exactly when it was before or some line defines it |
| Background.EnvLastDefinition | background.js:193-201 | a key's value is the one from the last line that defines it |
| Background.SecondEqualsCutsValue | background.js:198 | in `K=V=W` the value is `V` |
| Background.KeysReply | background.js:210-218 | the key reply carries each of the three keys' values from the environment, and the empty string for an unset key |
| Background.ReplyCarriesLastDefinition | background.js:193-218 | the reply carries the value of the last `.env` line that defines a key |
| Background.ReplyCarriesDefinedKeys | background.js:210-218 | the reply carries each defined `.env` key and the empty string otherwise |
| Background.EntriesNonEmpty | background.js:199-200 | no entry has an empty value |
| Background.EnvValuesNonEmpty | background.js:199-200 | parsing never stores an empty value |
| Background.Merge | background.js:387 | the merge has every incoming field, keeps stored fields the update lacks, and adds nothing else |
| Background.MergeKeepsIdentity | background.js:385-387 | a merge with the same uid keeps the uid and takes each field from the update when present |
| Background.BackgroundPage.constructor | background.js:11-186 | all stored values are absent, the `userCredits` global starts at 0 and the environment is empty |
| Background.BackgroundPage.LoadEnv | background.js:188-203 | the environment becomes the fold of the file's lines; nothing else changes |
| Background.BackgroundPage.CheckUserCredits | background.js:238-272 | a logged-in user with non-zero credits gets them and the free credits are left alone; otherwise free credits, 10 when unset and then stored |
| Background.BackgroundPage.DecrementCredits | background.js:275-323 | a uid with positive credits decrements and stores them; no uid uses the free credits (10 when unset) while positive; otherwise refusal; credits never go negative |
| Background.BackgroundPage.OnAuthStateChanged | background.js:359-380 | a user is stored with `isLoggedIn`; no user removes both |
| Background.BackgroundPage.OnUserDataUpdate | background.js:383-405 | a stored user with the same uid is merged with the update; a stored user with a different uid gets the mismatch error and is left unchanged |
| Popup.ModelName | popup.js:527-541 | every selector option maps to a model name the page script finds |
| Popup.ModelValue | popup.js:544-557 | every model name maps to a selector option naming a provider |
| Popup.ModelNameRoundTrip | popup.js:527-557 | each model name survives option and back; unknown options read as Gemini |
| Popup.StoredModelValue | popup.js:270 | the option shown always names a provider: a stored provider name shows as itself, anything else as Gemini |
| Popup.PopupPlan | popup.js:264-265 | the plan is the user's when logged in, else `free` |
| Popup.InitialSelection | popup.js:253-301 | `gpt4` on the free plan shows `gemini-pro` and saves `gemini`; and the logged-out selector shows `gemini`; otherwise both selectors show the stored model's option (`gemini` for anything that is not a provider name) and nothing is saved |
| Popup.PlanReadingsDiffer | popup.js:264-279 | a logged-in `Free` or plan-less user keeps `gpt4` in the popup while the page script treats them as free |
| Popup.UidOnlyOnObjects | popup.js:594 | only an object can have a truthy `uid` |
| Popup.DailyReset | popup.js:613-625 | on a new day the free credits become 5 and the day is recorded; on the same day nothing changes |
| Popup.DailyResetIdempotent | popup.js:613-625 | a second reset on the same day changes nothing |
| Popup.WithMonthlyCredits | popup.js:636 | setting the credits to 10 leaves every other field of the user |
| Popup.MonthlyReset | popup.js:628-646 | a uid user on a missing or free plan gets 10 credits once per month; anyone else is untouched |
| Popup.MonthlyResetIdempotent | popup.js:628-646 | a second reset in the same month changes nothing |
| Popup.DisplayedCredits | popup.js:590-600 | a user with a uid sees their `credits` (0 when unset); otherwise the free credits, 5 when unset |
| Popup.CreditsAfterResets | popup.js:590-646 | after both resets a logged-out user on a new day sees 5, a free-plan user in a new month sees 10, a paid user's display is unchanged |
| Popup.PopupStorage.constructor | popup.js:613-616 | the storage holds the given values |
| Popup.PopupStorage.ResetFreeCreditsIfNeeded | popup.js:613-625 | the stored values become the daily reset of the old ones |
| Popup.PopupStorage.ResetLoggedInFreeCreditsIfNeeded | popup.js:628-646 | the stored values become the monthly reset of the old ones |
| Popup.PopupStorage.UpdateCreditsDisplay | popup.js:590-609 | both resets are applied, then the count `DisplayedCredits` gives is returned |

## Left out

- Network I/O is not modelled. `fetch` to the providers is one abstract `Transport` value. The Supabase session, sign-in, sign-up, sign-out and user fetch calls in background.js are not part of this model.
- `chrome.storage`, runtime and tab messages, and their `lastError` paths are not modelled. Stored values and messages are parameters, results or class fields.
- Timers and asynchronous interleavings are left out: the 100 ms polling, the 5-second `Promise.race`, the one-second retry delay and the two 5-second model-polling intervals. Keys arriving in time is a boolean, and the retry counter is bounded by `MAX_API_KEY_RETRIES`.
- Events racing with an `await` in `handleInput` are left out. The model handles one event at a time.
- Temperatures are floating point in the source. They are stored as hundredths and never computed with.
- The system prompt's text is a parameter. `JSON.stringify` of a reply body is represented by the body itself (`StringifiedBody`).
- Strings are sequences of characters; UTF-16 code units are not modelled. `toLowerCase` is modelled on ASCII letters only.
- TypeError messages use V8's wording as a stand-in. Other engines word them differently.
- JSON numbers are integers. A `length` or `credits` that is not an integer is not modelled.
- JsValues.LengthPositive: a numeric-string `length` (which `> 0` would coerce) counts as not positive.
- `===` between objects compares by identity in the source. The model compares by value, which differs only for two distinct objects with equal contents.
- Background.Merge: spreading a value that is not an object (a string spreads its characters) is modelled as spreading nothing.
- Background.BackgroundPage.DecrementCredits: a stored credit count that is not a number is refused. JavaScript would coerce a numeric string in `> 0` and `- 1`.
- The capture engine takes the provider's reply as a string. A reply field that holds some other JSON value, which the page would write as its text, is not carried into the capture model.
- `popup-state.js` is not part of this model. It only shows and hides elements.
- The popup's `updateModelOptions`, modals, buttons and other DOM wiring are not modelled.
- The popup's dates (`toISOString().slice(0, 10)` and `getFullYear() + "-" + (getMonth() + 1)`) are parameters.
