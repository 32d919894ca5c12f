# Shop chat agent: LLM streaming and settings, in Dafny

This project models the part of Shopify's shop chat agent that talks to a
language-model vendor. Two vendor adapters, Groq and Gemini, turn a vendor's
streamed chunks into three callbacks:
- `onText` for each text delta;
- `onToolUse` for each complete tool call;
- `onMessage` for the final assistant message.

Each adapter also resolves the system prompt from the prompt table. The model
also covers:
- the service factory, which picks a provider from the environment;
- the configuration constants;
- the merchant's LLM settings page (loader, action, and the page's state);
- the onboarding guide, whose two setup steps and `localStorage` flags change with user actions.

Modules, one per source file plus three shared ones (`Wrappers`, `Conversation`, `Prompts`):

| module | file | models |
|---|---|---|
| `Wrappers` | wrappers.dfy | `Option` and `Result` |
| `Conversation` | conversation.dfy | request, handler events, final message, errors |
| `Config` | config.dfy | `app/services/config.server.js` |
| `Prompts` | prompts.dfy | `getSystemPrompt`, identical in both adapters |
| `LlmFactory` | llm_factory.dfy | `app/services/llm.server.js` |
| `Groq` | groq.dfy | `app/services/providers/groq.server.js` |
| `Gemini` | gemini.dfy | `app/services/providers/gemini.server.js` |
| `Settings` | settings.dfy | `app/routes/app.settings.jsx` |
| `Onboarding` | onboarding.dfy | `app/components/Onboarding.jsx` |

How the model represents things:
- **Adapters.** Each adapter is a `method` with loops over a finite `seq<Chunk>`.
  - Which handlers exist is a `Handlers` value of presence flags.
  - Every handler call the adapter makes is recorded, in order, in the `trace` of the returned `Invocation`.
  - The `Invocation` also records the vendor request sent, if any, and how the call settles: a `Result` for resolve or reject.
  - Each method is proved equal to a specification function (`StreamOutcome`). The properties the code promises are lemmas about that function.
- **The Groq tool-call buffer** is specified declaratively. For each fragment index, it holds:
  - the concatenation of that index's `arguments`;
  - the last non-empty `id`;
  - the last non-empty `name`.
  
  The loops are proved to build exactly that.
- **`JSON.parse`** is the parameter `parse`. None means it threw.
- **Storage and state.** The settings page and the onboarding guide are
  classes whose fields are the component's `useState` variables. For the
  guide, `localStorage` is a `map` field. Each handler is a method whose
  updaters are pure functions on the item list.

## Model

| member | source | states |
|---|---|---|
| Conversation.EndTurn | app/services/providers/groq.server.js:91 | reference definition: `{role: 'assistant', content, stop_reason: 'end_turn'}`, the final message both adapters build (`gemini.server.js:78` too) |
| Config.FromName | app/services/config.server.js:12-28 | a name maps to a provider exactly when it is that provider's key; every other name maps to none |
| Config.ModelOf | app/services/config.server.js:12-28 | every provider has an entry in the providers table, and the model is that entry's |
| Config.NameRoundTrip | app/services/config.server.js:12-28 | each provider's key maps back to that provider |
| Config.NameInjective | app/services/config.server.js:12-28 | distinct providers have distinct keys |
| Config.ProvidersAreTheKnownNames | app/services/config.server.js:12-28 | the providers table holds exactly the five known names |
| Config.DefaultProviderIsConfigured | app/services/config.server.js:9-28 | the default provider `claude` is a known provider and has a table entry |
| Config.ConstantValues | app/services/config.server.js:10-46 | token cap 2000, default prompt type `standardAssistant`, product-search tool name, three products displayed |
| Prompts.HasContent | app/services/providers/groq.server.js:105 | reference definition: the requested entry exists and its content is non-empty, the truthiness test of `systemPrompts[promptType]?.content` |
| Prompts.PromptTypeOf | app/services/providers/groq.server.js:32 | reference definition: the request's prompt type, or `AppConfig.api.defaultPromptType` when it is omitted, as in `gemini.server.js:32` too |
| Prompts.GetSystemPrompt | app/services/providers/groq.server.js:104-107 | a usable requested entry wins; otherwise the default entry is returned whatever its content; resolution fails exactly when the requested entry has no usable content and the default entry is missing, and the failure is the missing-default error |
| Prompts.FallbackIsDefault | app/services/providers/gemini.server.js:91-94 | every prompt type without usable content resolves to what the default prompt type resolves to |
| Prompts.DefaultEntryPreventsFailure | app/services/providers/groq.server.js:104-107 | with a default entry present, resolution never fails, and it returns the requested content or the default's |
| Prompts.OmittedPromptTypeIsDefault | app/services/providers/groq.server.js:30-35 | a request without a prompt type resolves the default prompt type |
| LlmFactory.ResolveProvider | app/services/llm.server.js:18 | a non-empty `LLM_PROVIDER` is used; otherwise the configured default is used |
| LlmFactory.Construct | app/services/llm.server.js:22-30 | reference definition: a constructor called with no arguments builds that provider's service, recording the empty argument list |
| LlmFactory.CreateLlmService | app/services/llm.server.js:17-34 | a service is built exactly when the resolved name is in the providers table; it is that provider's service, built with no constructor arguments, so the adapter reads its key from the environment; any other name gives `Unsupported LLM provider: <name>` |
| LlmFactory.DistinctProvidersDistinctServices | app/services/llm.server.js:20-33 | distinct supported names build services of distinct providers |
| LlmFactory.EveryProviderReachable | app/services/llm.server.js:20-33 | naming any provider in the environment builds that provider's service |
| LlmFactory.DefaultIsClaude | app/services/llm.server.js:18-21 | with `LLM_PROVIDER` unset, the claude service is built |
| Groq.WrapTools | app/services/providers/groq.server.js:41 | each tool, in order, is wrapped as `{type: 'function', function: tool}` |
| Groq.HistoryMessages | app/services/providers/groq.server.js:40 | the history is passed on unchanged, in order |
| Groq.BuildRequest | app/services/providers/groq.server.js:37-43 | Groq model, token cap, streaming; the system message comes first, then the history; tools are absent exactly when none or an empty list were given, otherwise each tool is wrapped in order |
| Groq.SortedKeys | app/services/providers/groq.server.js:79 | the buffered indices, each once, in strictly ascending order (how `for…in` visits integer keys) |
| Groq.DeltaOf | app/services/providers/groq.server.js:49 | reference definition: the first choice's delta, absent when there is no choice or no delta |
| Groq.TextEvents | app/services/providers/groq.server.js:49-56 | reference definition: one `onText` call per chunk with non-empty text, in order, only when the handler exists |
| Groq.FullText | app/services/providers/groq.server.js:49-56 | reference definition: the concatenation of every chunk's text in arrival order |
| Groq.Fragments | app/services/providers/groq.server.js:58-59 | reference definition: every chunk's `delta.tool_calls` fragments, in arrival order, forgetting chunk boundaries |
| Groq.Buffered | app/services/providers/groq.server.js:58-75 | reference definition: one entry per index any fragment names, holding its last non-empty id and name and its arguments concatenated in order |
| Groq.Deliver | app/services/providers/groq.server.js:78-89 | reference definition: the flush over given keys, parsing each key's arguments in turn and stopping with the arguments error at the first that does not parse |
| Groq.Flushed | app/services/providers/groq.server.js:78-89 | reference definition: the flush over every buffered index in ascending order |
| Groq.StreamOutcome | app/services/providers/groq.server.js:30-97 | no request is sent exactly when the prompt does not resolve, and then nothing is traced and the call rejects with the missing-default error |
| Groq.Settled | app/services/providers/groq.server.js:30-97 | once the stream ended, the sent request is recorded, the `onText` calls come first in the trace, and the call rejects exactly when the flush failed |
| Groq.SettledWith | app/services/providers/groq.server.js:78-96 | the trace starts with the text deltas and the flush's tool calls; the call rejects exactly when the flush failed, and otherwise settles with the end-turn message of the text |
| Groq.StreamConversation | app/services/providers/groq.server.js:30-97 | the adapter's whole behaviour equals `StreamOutcome`: the prompt is resolved, the request is sent, the stream is absorbed, the tool calls are flushed, and the call settles |
| Groq.AbsorbChunk | app/services/providers/groq.server.js:49-75 | one chunk adds its text to the accumulated text and to the `onText` calls, and its fragments to the buffer |
| Groq.AbsorbToolCalls | app/services/providers/groq.server.js:58-75 | the per-fragment loop leaves the buffer equal to the declarative buffer of every fragment seen so far |
| Groq.FlushToolCalls | app/services/providers/groq.server.js:78-89 | the flush loop over the given keys delivers the parsed calls in key order, and stops with the arguments error at the first unparsable call |
| Groq.Settle | app/services/providers/groq.server.js:78-96 | after the flush: a parse failure rejects without `onMessage`; otherwise the end-turn message is delivered if the handler exists, and returned |
| Groq.FailureStops | app/services/providers/groq.server.js:79-88 | once a `JSON.parse` failed, no later key changes the flush |
| Groq.BufferedStep | app/services/providers/groq.server.js:59-73 | a fragment without an index changes nothing. A fragment with an index creates the empty entry if needed, replaces id and name only by non-empty values, and appends its arguments; other indices are untouched |
| Groq.UnseenIndexIsEmpty | app/services/providers/groq.server.js:61-63 | an index never seen has empty id, name and arguments, which are the values a new entry starts with |
| Groq.SplitArgumentsInvisible | app/services/providers/groq.server.js:70-72 | splitting one fragment's arguments over two consecutive fragments of the same index, anywhere in the stream, leaves the buffer unchanged |
| Groq.SameCallsExtend | app/services/providers/groq.server.js:58-75 | two fragment streams with the same buffer contents still agree after the same further fragments |
| Groq.RefragmentedStreamSameOutcome | app/services/providers/groq.server.js:45-96 | two streams with the same text and the same calls per index lead to identical invocations, however the fragments were cut |
| Groq.RechunkedFragmentsSame | app/services/providers/groq.server.js:58-59 | moving a chunk boundary between fragments does not change the fragment stream |
| Groq.TextEventsSpellFullText | app/services/providers/groq.server.js:51-56 | the `onText` calls carry non-empty strings, at most one per chunk, whose concatenation is the full text |
| Groq.NoTextEventsWithoutHandler | app/services/providers/groq.server.js:52-54 | without `onText`, no text event happens |
| Groq.DeliverEvents | app/services/providers/groq.server.js:79-88 | a completed flush has one `onToolUse` per key, in key order, with the parsed arguments; the flush fails exactly when some key's arguments do not parse |
| Groq.NoDeliveryWithoutHandler | app/services/providers/groq.server.js:81-87 | without `onToolUse`, nothing is parsed or delivered |
| Groq.FlushedDelivers | app/services/providers/groq.server.js:78-89 | a completed flush calls `onToolUse` once per distinct index, in ascending order, with the index's last id and name and its parsed concatenated arguments |
| Groq.DeliverFailsIff | app/services/providers/groq.server.js:79-88 | with the handler, the flush fails exactly when some buffered index holds unparsable arguments |
| Groq.FlushedFailure | app/services/providers/groq.server.js:78-89 | the flush fails, always with the arguments error, exactly when `onToolUse` exists and some index's arguments do not parse |
| Groq.FlushedCalls | app/services/providers/groq.server.js:78-89 | all of the flush, at once: what happens without the handler, what a completed flush delivers, when it fails and how, and that only tool calls occur |
| Groq.GroqTraceShape | app/services/providers/groq.server.js:45-96 | once the prompt resolves, the trace is the text deltas, then the tool calls, then `onMessage` if the flush succeeded; the result is the end-turn message or the parse error |
| Groq.GroqRequestSent | app/services/providers/groq.server.js:35-43 | once the prompt resolves, the built request is sent, whatever the stream holds |
| Groq.GroqMessageOnce | app/services/providers/groq.server.js:91-94 | a successful call invokes `onMessage` exactly once, last, when it is supplied, and never otherwise |
| Groq.GroqFinalText | app/services/providers/groq.server.js:45-56 | the final content is the full text, and equals what `onText` received; omitting `onText` does not change the result |
| Groq.SettledTraceSpellsText | app/services/providers/groq.server.js:51-96 | in a settled trace, tool calls and `onMessage` add no text, so the text deltas spell the full text |
| Groq.GroqFinalMessage | app/services/providers/groq.server.js:91-96 | a success settles with `{role: 'assistant', content, stop_reason: 'end_turn'}`; the content is what `onText` received, and `onMessage` is called once and last |
| Groq.GroqInvalidArgumentsReject | app/services/providers/groq.server.js:85 | with `onToolUse`, one unparsable index makes the call reject with the arguments error, and `onMessage` is never called |
| Groq.GroqWithoutToolHandlerSucceeds | app/services/providers/groq.server.js:81 | without `onToolUse`, the call always succeeds and no tool call is delivered |
| Groq.GroqMissingPromptRejectsEarly | app/services/providers/groq.server.js:35 | a missing default prompt rejects before any request or handler call |
| Gemini.BuildRequest | app/services/providers/gemini.server.js:35-47 | an empty history rejects. Otherwise the chat history is every turn but the last, and the last turn's content is sent. The request uses the Gemini model and the system prompt; tools are absent exactly when none are given, else one declaration group |
| Gemini.CandidateParts | app/services/providers/gemini.server.js:53-55 | reference definition: the parts of the first candidate's content, none when any step of that path is missing |
| Gemini.StreamParts | app/services/providers/gemini.server.js:52-56 | reference definition: the first candidate's parts of every chunk, in stream order |
| Gemini.PartsText | app/services/providers/gemini.server.js:57-62 | reference definition: `fullResponseText`, the concatenation of the parts' texts in order |
| Gemini.PartEvents | app/services/providers/gemini.server.js:57-72 | reference definition: a part's non-empty text to `onText`, then its function call to `onToolUse` as `{id: name, name, input: args}`, each only when the handler exists |
| Gemini.PartsEvents | app/services/providers/gemini.server.js:57-72 | reference definition: each part's handler calls, part after part |
| Gemini.StreamOutcome | app/services/providers/gemini.server.js:30-84 | the call rejects exactly when no request is sent, and then nothing is traced; a missing default prompt gives the missing-default error; a sent request's trace starts with the parts' handler calls, and a success settles with the end-turn message of the parts' text |
| Gemini.StreamConversation | app/services/providers/gemini.server.js:30-84 | the adapter's whole behaviour equals `StreamOutcome` |
| Gemini.WalkChunk | app/services/providers/gemini.server.js:53-75 | a chunk adds the parts of its first candidate; a chunk missing candidates, content or parts adds nothing |
| Gemini.WalkParts | app/services/providers/gemini.server.js:56-73 | the parts loop adds each part's text and handler calls, in order |
| Gemini.WalkPart | app/services/providers/gemini.server.js:57-72 | one part: a truthy text goes to `onText` and onto the text, then a function call goes to `onToolUse` |
| Gemini.StreamOrder | app/services/providers/gemini.server.js:52-76 | handler calls and text follow stream order: what earlier chunks cause precedes what later ones cause |
| Gemini.PartTextBeforeCall | app/services/providers/gemini.server.js:57-72 | within one part, `onText` precedes `onToolUse`; the call is `{id: name, name, input: args}` |
| Gemini.OnlyFirstCandidate | app/services/providers/gemini.server.js:53-54 | candidates after the first are never read |
| Gemini.SkippedChunkInvisible | app/services/providers/gemini.server.js:53-55 | a chunk with no candidates, content or parts changes nothing, wherever it arrives |
| Gemini.TextEventsSpellText | app/services/providers/gemini.server.js:57-62 | the `onText` calls concatenate to the accumulated text |
| Gemini.NoMessagesInParts | app/services/providers/gemini.server.js:56-73 | the parts loop never calls `onMessage` |
| Gemini.GeminiTraceShape | app/services/providers/gemini.server.js:52-83 | a success's trace is the parts' handler calls followed by `onMessage` if supplied |
| Gemini.GeminiFinalMessage | app/services/providers/gemini.server.js:78-83 | a success settles with the end-turn message of the concatenated texts, which equals what `onText` received; `onMessage` is called once and last |
| Gemini.SettledTraceFacts | app/services/providers/gemini.server.js:57-83 | in the parts' trace followed by the final `onMessage`, the text deltas spell the parts' text, and `onMessage` occurs exactly once and last when supplied |
| Gemini.GeminiEmptyHistoryRejects | app/services/providers/gemini.server.js:46-47 | an empty history rejects before anything is sent or any handler runs |
| Settings.Loader | app/routes/app.settings.jsx:8-21 | the provider is the stored one, else `LLM_PROVIDER`, else `claude`; each flag is true exactly when that provider's stored key is non-empty |
| Settings.FormValue | app/routes/app.settings.jsx:26-31 | reference definition: `formData.get(name)`, absent for a name not in the form |
| Settings.KeyField | app/routes/app.settings.jsx:35-39 | reference definition: the form field of each provider's key, as the action reads it and `getApiKeyInfo` (lines 80-95) names it |
| Settings.SpreadEntered | app/routes/app.settings.jsx:35-39 | each listed field is added exactly when its submitted value is non-empty, with that value |
| Settings.BuildSettings | app/routes/app.settings.jsx:33-40 | the update carries the submitted provider; a key field is present exactly when submitted non-empty, with the submitted value |
| Settings.Action | app/routes/app.settings.jsx:33-48 | the update is saved; success answers `{success: true}`, failure answers `Failed to save settings.` with status 500 |
| Settings.GetApiKeyInfo | app/routes/app.settings.jsx:80-95 | a known provider gives its key field and its loader flag; any other name gives `{name: '', isSet: false}` |
| Settings.ProviderOptionsAreTheProviders | app/routes/app.settings.jsx:72-78 | the select lists the five known providers in table order |
| Settings.KeyFieldNaming | app/routes/app.settings.jsx:80-95 | each key field is the provider name plus `ApiKey`; distinct providers have distinct fields, and these are exactly the action's key fields |
| Settings.PageForm | app/routes/app.settings.jsx:106-124 | the posted form always carries the selected provider; any other field it carries is one of the five key fields and holds the entered key |
| Settings.PageFormOfProvider | app/routes/app.settings.jsx:108-118 | for a known provider, the page posts the provider and the entered key under that provider's field |
| Settings.EnteredKeyKept | app/routes/app.settings.jsx:35-39 | a non-empty key field is the only key in the update |
| Settings.BlankKeyDropped | app/routes/app.settings.jsx:35-39 | a blank key field puts no key in the update, so the stored key is kept |
| Settings.OneKeyForm | app/routes/app.settings.jsx:33-40 | a form with the provider and one key field updates that key alone, and only when it is non-empty |
| Settings.PostedKeyReachesItsField | app/routes/app.settings.jsx:97-123 | posting the page for a known provider updates that provider's key and no other, only when one was entered; the flag shown is the loader's |
| Settings.SettingsPage.constructor | app/routes/app.settings.jsx:52-57 | initial state: the loader's provider, an empty key, no banner |
| Settings.SettingsPage.HandleLlmProviderChange | app/routes/app.settings.jsx:67-70 | switching provider clears the entered key, so submitting right after updates no keys |
| Settings.SettingsPage.SetApiKey | app/routes/app.settings.jsx:119 | the key field's change sets only the entered key |
| Settings.SettingsPage.OnActionData | app/routes/app.settings.jsx:59-61 | a successful save shows the banner; nothing else changes |
| Settings.SettingsPage.HideBanner | app/routes/app.settings.jsx:62 | the timer or the dismiss button hides the banner |
| Onboarding.StoredTrue | app/components/Onboarding.jsx:19-22 | reference definition: `localStorage.getItem(key) === "true"`, false for a missing key |
| Onboarding.BaseItems | app/components/Onboarding.jsx:26-43 | two positional steps, none loading; the app step is complete, the theme step is complete exactly when its stored flag was read as true |
| Onboarding.InitialItems | app/components/Onboarding.jsx:26-55 | reference definition: the mount-time items, the two steps with the first incomplete one expanded |
| Onboarding.FindIndexById | app/components/Onboarding.jsx:90 | the first position whose id matches, or -1 exactly when none matches |
| Onboarding.FirstIncomplete | app/components/Onboarding.jsx:46-47 | the first incomplete position, or -1 exactly when all are complete |
| Onboarding.ExpandFirstIncomplete | app/components/Onboarding.jsx:45-53 | only `expanded` changes; an item is expanded exactly when it is incomplete and every earlier item is complete |
| Onboarding.ToggleComplete | app/components/Onboarding.jsx:65-72 | items with the step's id flip `complete`; all other items are unchanged |
| Onboarding.DismissItems | app/components/Onboarding.jsx:92-100 | the dismissed item becomes complete; exactly the item whose id is `currentIndex + 1` is expanded |
| Onboarding.CompleteStepItems | app/components/Onboarding.jsx:107-113 | the target stops loading; exactly the item whose id is `currentIndex + 1` is expanded; completion is kept |
| Onboarding.SetExpandedItems | app/components/Onboarding.jsx:143-145 | exactly the items with that id are expanded; nothing else changes |
| Onboarding.SubmitLoadingItems | app/components/Onboarding.jsx:120-122 | exactly the items with that id are loading; nothing else changes |
| Onboarding.MarkStep | app/components/Onboarding.jsx:59-63 | step 0 stores the onboarding-completed flag, step 1 stores the theme-block flag, any other step writes nothing |
| Onboarding.AtMostOneExpanded | app/components/Onboarding.jsx:45-53 | after the mount-time expansion, at most one step is expanded |
| Onboarding.InitialItemsShape | app/components/Onboarding.jsx:26-53 | the app step is complete and closed; the theme step is complete iff its stored flag is `"true"`, and is the one expanded step otherwise |
| Onboarding.ToggleTwiceRestores | app/components/Onboarding.jsx:65-72 | forcing the same step twice restores the list |
| Onboarding.DismissIdempotent | app/components/Onboarding.jsx:92-100 | dismissing the same step twice equals dismissing it once |
| Onboarding.DismissAdvances | app/components/Onboarding.jsx:90-100 | over positional steps, dismissing step k opens step k+1, and opens none after the last |
| Onboarding.SetExpandedExclusive | app/components/Onboarding.jsx:142-146 | at most one step is expanded, and an existing id's step is |
| Onboarding.CompleteStepOnCompletedStepReopens | app/components/Onboarding.jsx:103-114 | `completeStep` toggles through `onForceComplete`, so on an already complete step it marks it incomplete |
| Onboarding.CompleteStepAdvances | app/components/Onboarding.jsx:103-114 | on an incomplete positional step, `completeStep` marks it done, stops its spinner and opens exactly the next step |
| Onboarding.OnboardingGuide.constructor | app/components/Onboarding.jsx:15-16 | no items, guide shown, over the browser's storage |
| Onboarding.OnboardingGuide.Initialize | app/components/Onboarding.jsx:18-56 | the guide is shown unless the completed flag is `"true"`; the items are the initial steps for the stored theme-block flag; storage is untouched |
| Onboarding.OnboardingGuide.OnForceComplete | app/components/Onboarding.jsx:58-73 | the step's flag is stored as `"true"` and the step's completion flips |
| Onboarding.OnboardingGuide.HandleDismiss | app/components/Onboarding.jsx:75-101 | a falsy id (absent or 0) hides the guide and stores completion; any other id stores its flag and dismisses that step against the pre-update positions |
| Onboarding.OnboardingGuide.CompleteStep | app/components/Onboarding.jsx:103-114 | force-completes, then stops the spinner and opens the item after the position looked up before either update |
| Onboarding.OnboardingGuide.HandleSubmit | app/components/Onboarding.jsx:116-140 | the spinner moves to the submitted step. For steps 0 and 1, `completeStep` flips the step's `complete` through `onForceComplete`, clears the spinner and expands the next step; storage gains that step's flag (step 0's written both directly and by `onForceComplete`); any other id changes nothing more |
| Onboarding.OnboardingGuide.SetExpanded | app/components/Onboarding.jsx:142-146 | the items become `SetExpandedItems` of the previous items; storage and visibility are kept |

## Left out

- Vendor SDKs and the network: the request is returned as a value and the stream is a finite `seq` of chunks. Errors thrown by the SDK, or mid-stream, are not modelled.
- Asynchrony: awaiting `onToolUse`, concurrent invocations and cancellation are not modelled. Every handler is taken to return normally; a handler that throws is not modelled.
- `JSON.parse` is the parameter `parse`. The model never parses JSON text itself.
- `prompts/prompts.json` is the parameter `PromptTable`. Its real contents are not part of this model.
- The claude, openai and openrouter adapters: the factory records only which provider it constructed, and their source is not part of this model.
- Adapter construction (`new Groq({apiKey})`, `new GoogleGenerativeAI(apiKey)`): only the key's source is recorded.
- Absent versus empty strings: JavaScript's `undefined`, `null` and `""` all become `""` for optional strings, because the code only tests them for truthiness. The Groq fragment `index` stays an `Option`, since 0 is a valid index.
- Groq.SortedKeys: models `for…in` order only for non-negative integer keys, the only keys the buffer holds. Keys beyond the array-index range (2^32 - 2) would be enumerated in insertion order, which the model does not capture.
- Prompts.GetSystemPrompt: the code returns the default entry's content even when that content is missing or empty, and the model does the same. A stricter adapter could reject a missing default content instead; this model does not.
- Config: the `errorMessages` table of `app/services/config.server.js` is not modelled; none of the modelled operations reads it.
- LlmFactory.CreateLlmService: reads only `LLM_PROVIDER`, as the code does. It does not consult the shop's stored settings and raises no configuration error for a missing API key; keys are read by the adapters' default parameters.
- `settings.server.js` (encryption and persistence of settings), the database, sessions and webhooks: `updateShopSettings` succeeding or failing is the `saved` parameter of `Settings.Action`.
- Authentication (`authenticate.admin`) and `json(...)` response building are not modelled, and neither is the rendering of the settings page and the guide: labels, placeholders, the progress bar and `SetupGuide`.
- Settings.SettingsPage.OnActionData: `clearTimeout` on unmount and the 3000 ms timer are not modelled; the timer's expiry is the separate `HideBanner` call.
- React state updates: each `setItems` updater is applied in the order the handler calls it, and the items the handler reads are the ones from before the handler ran. Render scheduling itself is left out.
- Onboarding.OnboardingGuide.HandleSubmit: the `window.open` of the theme-editor URL and the URL's construction are left out, and so are `console.log` and the empty `catch`, since nothing in the modelled path throws.
- Onboarding.OnboardingGuide.HandleDismiss: modelled as written. `if (!id)` treats step 0 like a missing id, so step 0's own branch is never reached. The guide's own dismiss actions (`app/components/SetupGuide/index.jsx:57` and `:153`) call `handleDismiss()` without an id; the guide also passes it to `SetupItem` (`app/components/SetupGuide/index.jsx:136`), which is not part of this model, so calls with an id are modelled too.
- `app/utils/localStorage.js` is not used by the onboarding component and is not part of this model.
