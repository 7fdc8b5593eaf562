# Voice-chat widget: a verified model

This project models the decision logic of a small browser voice-chat widget for a marketing
site. It has four parts:

- **The conversation engine**, `VoiceAgent` in js/voice-agent.js (module `Agent`, file
  `voice_agent.dfy`). It captures speech and sends each final transcript, with the whole
  conversation history and a system context built from five knowledge documents, to a chat
  endpoint. It speaks the reply it gets back and reports status changes, transcripts, replies
  and errors to the UI.
- **The chat proxy**, the serverless `handler` in api/chat.js (module `ChatProxy`, file
  `chat_proxy.dfy`). It checks the HTTP method, the server-held key and the request body, then
  forwards `system` and `messages` upstream with a fixed model and token budget. It relays the
  answer, or the error.
- **The UI controller**, `VoiceAgentUI` in js/voice-agent-ui.js (module `AgentUI`, file
  `voice_agent_ui.dfy`). It covers the panel, the mic and reset buttons, the status display,
  the conversation area (which never holds more than one interim transcript, as long as no
  message text carries markup of its own) and the error line.
- **The blog category filter**, js/blog-filter.js (module `BlogFilter`, file `blog_filter.dfy`).
  `FilterPage` holds the `active` flags of the buttons and the `shown` flags of the cards as
  arrays, and updates them in place.

Two more modules support these:

- `JsValues` (file `js_values.dfy`) models JavaScript values: parsed JSON, `undefined`,
  truthiness, `||`, optional chaining, `String(v)` and `JSON.stringify`.
- `Widget` (file `widget.dfy`) relates the engine to the proxy.

Every browser capability is an input. This covers whether a recognizer exists, the
recognizer's and synthesizer's events (methods of the class), the voices on offer, and the
outcome of each `fetch`. The engine's four UI callbacks, its calls into the recognizer and
the synthesizer, and its chat post are appended, in order, to one `trace` of signals. The
knowledge-document fetches are not in the trace: their outcomes are the input of
`LoadSystemContext`. The UI receives the callbacks through `VoiceAgentUI.Deliver`, one
signal at a time.

## Model

| member | source | states |
|---|---|---|
| JsValues.Lookup | api/chat.js:23 | a property read finds a value exactly when the object has a field of that name, and the value is that of the last field of that name, as JSON.parse keeps it (no later field has the name) |
| JsValues.Stringify | api/chat.js:51 | `JSON.stringify` of a defined value is never the empty string (so it is truthy) |
| ChatProxy.Handle | api/chat.js:6-65 | guard order: a non-POST gets 405; a missing or empty key gets 500 with the configuration message; an undefined or null body gets 500 with the internal-error message and no call; any other body without a `messages` array gets 400. An upstream call is made exactly when all three guards pass, and it carries the body's `system` and `messages`, the server key, model claude-3-5-sonnet-20241022 and 1024 tokens. An ok upstream body is returned with 200, unchanged. A non-ok status is passed through with `error` and `details`. A throw, an unparseable body or a null error body gives 500 with the internal-error message |
| ChatProxy.UpstreamErrorField | api/chat.js:51 | the relayed `error` follows the truthiness chain: `error.message`, else `message`, else `JSON.stringify(error)` when `error` is present, else "API request failed" |
| ChatProxy.StringifyDefined | api/chat.js:51 | `JSON.stringify(x)` is undefined exactly for undefined, and otherwise a truthy string |
| ChatProxy.HasMessages | api/chat.js:23-28 | the body is a non-null value whose `messages` is an array; `Handle`'s contract states that exactly these bodies, with the method and key guards passed, are forwarded |
| ChatProxy.RelayError | api/chat.js:50-53 | the relayed body: `error` as `UpstreamErrorField` chooses it, then `details` holding the upstream body; stated through `FallbackText` and `Widget.ProxyFailuresShowFixedText` |
| ChatProxy.StatusesAnswered | api/chat.js:6-65 | the handler answers 200, 400, 405 or 500, or else passes through a non-ok upstream status |
| ChatProxy.FallbackText | api/chat.js:50-53 | an upstream error body with neither `error` nor `message` is relayed as "API request failed", with the whole body as `details` |
| Agent.EndpointFor | js/voice-agent.js:13-15 | the direct Anthropic URL exactly when the key is non-empty, `/api/chat` exactly when it is empty |
| Agent.RequestFor | js/voice-agent.js:200-219 | the intended request: the body carries `system` and `messages` unchanged. Only with a key do the `x-api-key` and `anthropic-version` headers, model claude-3-opus-20240229 and 1024 tokens appear |
| Agent.ModeIsConsistent | js/voice-agent.js:13-15 | for the key the engine was built with, the direct URL goes with the direct-mode fields, and the proxy path goes with none of them |
| Agent.SentRequest | js/voice-agent.js:200-219 | the request as written: the body is serialised before the direct-mode fields are added, so it never carries a model or a token budget. The headers are those of the intended request |
| Agent.DirectRequestOmitsModel | js/voice-agent.js:210-218 | with any non-empty key, the request as written goes to the Anthropic URL with the key but without model and max_tokens, so it differs from the intended request |
| Agent.Transcript | js/voice-agent.js:64-66 | the first alternatives of the results, joined with no separator, in order; `TranscriptAppend` states how it splits |
| Agent.TranscriptAppend | js/voice-agent.js:64-66 | the transcript of concatenated result lists is the concatenation of their transcripts |
| Agent.RecognitionErrorMessage | js/voice-agent.js:80-85 | "no-speech" and "not-allowed" map to their messages, and every other code to "Speech recognition error" (each an if-and-only-if) |
| Agent.FirstWhere | js/voice-agent.js:262-265 | `find`: the index returned is the least one whose voice satisfies the predicate, and None means no voice does |
| Agent.ChooseVoice | js/voice-agent.js:260-269 | the voice `speak` assigns; its selection rule is stated by `ChooseVoiceRule` |
| Agent.ChooseVoiceRule | js/voice-agent.js:260-269 | a voice is chosen exactly when an English voice exists. The choice is the first preferred English voice (Natural, Premium or Enhanced); failing that, the first English voice |
| Agent.FailureMessage | js/voice-agent.js:224-227 | a thrown error reports its own message. A rejected body reports `String(error.message)` when that is truthy, and "API request failed" otherwise |
| Agent.BrowserSupport | js/voice-agent.js:319-329 | the support record of the two capabilities; `AgentUI.VoiceAgentUI.constructor` states of it that the browser counts as unsupported exactly when recognition or synthesis is missing |
| Agent.LoadedBodies | js/voice-agent.js:117-127 | the loaded bodies are no more than the documents, and each comes from a document that loaded |
| Agent.LoadedBodiesAppend | js/voice-agent.js:117-127 | collecting the bodies commutes with splitting the document list |
| Agent.LoadedBodiesExtremes | js/voice-agent.js:117-127 | when every document fails the context has no company information; when every document loads, all bodies appear in file order |
| Agent.ContextFrom | js/voice-agent.js:129-142 | the fixed preamble, the loaded bodies joined by the `---` separator, and the fixed closing line; `LoadSystemContext` is proved equal to it |
| Agent.LastStatusAppend | js/voice-agent.js:302-307 | the last reported status of a longer trace is that of the appended part if it reports one, and that of the prefix otherwise |
| Agent.SpeakSignals | js/voice-agent.js:251-287 | a cancel, then one utterance of the text with `ChooseVoice`'s voice; `Speak` is proved to append exactly these |
| Agent.ExchangeSignals | js/voice-agent.js:189-246 | the signals of one exchange; stated by `ExchangeOutcome` |
| Agent.ExchangeHistory | js/voice-agent.js:189-246 | the history after one exchange; stated by `ExchangeOutcome` |
| Agent.ExchangeOutcome | js/voice-agent.js:189-246 | `thinking` is reported before the post. The request is the one the code sends: the history with the user's turn appended, without model or token budget. A reply adds exactly one assistant turn and is shown, then spoken. A failure keeps the user's turn, reports the prefixed error and leaves `idle` as the last status |
| Agent.VoiceAgent.constructor | js/voice-agent.js:7-50 | the endpoint is fixed by the key; the engine is idle with empty history and context. An unsupported recognizer is reported |
| Agent.VoiceAgent.OnRecognitionStart | js/voice-agent.js:58-61 | listening, and `listening` reported |
| Agent.VoiceAgent.OnRecognitionResult | js/voice-agent.js:63-74 | the joined transcript is always shown. Only a final first result sends it as the user's turn, with the exchange's history and signals and the request as `SentRequest` gives it |
| Agent.VoiceAgent.OnRecognitionError | js/voice-agent.js:76-88 | not listening; `idle` is reported, then the mapped message |
| Agent.VoiceAgent.OnRecognitionEnd | js/voice-agent.js:90-97 | not listening; `speaking` is reported while an utterance plays, `idle` otherwise |
| Agent.VoiceAgent.LoadSystemContext | js/voice-agent.js:103-149 | the context is the preamble, the loaded bodies in file order joined by the separator, and the closing line |
| Agent.VoiceAgent.StartListening | js/voice-agent.js:154-175 | no recognizer: only the error. Already listening: nothing. Otherwise playback is cancelled if any, the recognizer is started, and a start failure is reported with its prefix |
| Agent.VoiceAgent.StopListening | js/voice-agent.js:180-184 | the recognizer is asked to stop only when it exists and is listening |
| Agent.VoiceAgent.ProcessUserInput | js/voice-agent.js:189-246 | the history and trace after one exchange are those that `ExchangeHistory` and `ExchangeSignals` define for the outcome, with the posted request the one `SentRequest` gives; nothing else changes |
| Agent.VoiceAgent.Speak | js/voice-agent.js:251-288 | cancels playback, then queues the text with the voice the selection rule picks |
| Agent.VoiceAgent.OnUtteranceStart | js/voice-agent.js:271-274 | speaking, and `speaking` reported |
| Agent.VoiceAgent.OnUtteranceEnd | js/voice-agent.js:276-279 | not speaking, and `idle` reported |
| Agent.VoiceAgent.OnUtteranceError | js/voice-agent.js:281-285 | not speaking; `idle` is reported, then the prefixed synthesis error |
| Agent.VoiceAgent.StopSpeaking | js/voice-agent.js:293-297 | cancels playback; not speaking, and `idle` reported |
| Agent.VoiceAgent.ResetConversation | js/voice-agent.js:302-307 | the history is empty and nothing plays. The last reported status is `idle`. The context is kept |
| Agent.VoiceAgent.SetApiKey | js/voice-agent.js:312-314 | only the key changes; the endpoint stays |
| Widget.StringErrorFieldShowsFixedText | js/voice-agent.js:226 | an error body whose `error` is a string reaches the user as "API request failed" |
| Widget.ProxyFailuresShowFixedText | api/chat.js:50-63 | every error the proxy writes with its own text, and every relayed upstream error flattened to a string, is shown to the user of the proxy-mode engine as "API request failed" |
| BlogFilter.Split | js/blog-filter.js:19 | `split(' ')` always yields at least one piece |
| BlogFilter.SplitPiecesHaveNoSpace | js/blog-filter.js:19 | no piece contains a space |
| BlogFilter.JoinSplit | js/blog-filter.js:19 | joining the pieces with single spaces restores the attribute |
| BlogFilter.SplitJoin | js/blog-filter.js:19 | space-free names joined by single spaces split back into exactly those names |
| BlogFilter.SplitNoSpace | js/blog-filter.js:19 | a space-free attribute is one piece |
| BlogFilter.SplitPrefix | js/blog-filter.js:19 | a space-free word, a space and more text split into the word followed by the rest's pieces |
| BlogFilter.Matches | js/blog-filter.js:21 | `all`, or one of the card's space-separated pieces; `WholeCategoryMatch` and `PartialCategoryDoesNotMatch` state what it accepts |
| BlogFilter.WholeCategoryMatch | js/blog-filter.js:19-21 | for a category other than `all`, a card matches exactly when the category is one of its whole names |
| BlogFilter.PartialCategoryDoesNotMatch | js/blog-filter.js:19-21 | a category that only begins one of the card's names does not match, though the card's text starts with it |
| BlogFilter.Visibility | js/blog-filter.js:18-27 | one flag per card, each telling whether the card matches |
| BlogFilter.VisibleCount | js/blog-filter.js:16-27 | the number of matching cards; bounded by `VisibleCountBounds` and returned by `Click` |
| BlogFilter.VisibleCountBounds | js/blog-filter.js:16-34 | the count is at most the number of cards, and zero exactly when no card matches. `all` shows every card |
| BlogFilter.OnlyActive | js/blog-filter.js:12-13 | exactly the clicked button is active |
| BlogFilter.IsActivationKey | js/blog-filter.js:39 | Enter or Space; `KeyDown` states its effect |
| BlogFilter.FilterPage.constructor | js/blog-filter.js:3-5 | the elements the handler finds: the button and card categories, with their initial `active`, display and message state taken as the markup gives them |
| BlogFilter.FilterPage.Click | js/blog-filter.js:8-35 | only the clicked button is active. Each card is shown exactly when it matches. The returned count is the number of matching cards, and the "no posts" message shows exactly when it is zero |
| BlogFilter.FilterPage.KeyDown | js/blog-filter.js:38-43 | Enter or Space has the effect of a click; any other key changes nothing |
| AgentUI.DisplayFor | js/voice-agent-ui.js:226-267 | `listening` and `speaking` make the button active with the stop icon, and `thinking` shows the mic icon with the button inactive. Each of the three sets its indicator class and text. Anything else shows "Ready to chat" with no class |
| AgentUI.EngineStatusDisplays | js/voice-agent-ui.js:226-267 | of the engine's statuses, only `idle` falls to the default display, and the button is active exactly while listening or speaking |
| AgentUI.Label | js/voice-agent-ui.js:306 | "You" exactly for the user role, "Assistant" for every other role |
| AgentUI.RemoveFirstInterim | js/voice-agent-ui.js:274-277 | the conversation without its first interim entry; stated by `RemoveFirstInterimEffect` |
| AgentUI.RemoveFirstInterimEffect | js/voice-agent-ui.js:274-277 | removing the existing interim entry removes one interim entry if there is one, changes nothing if there is none, and keeps every other entry in order |
| AgentUI.CountInterimAppend | js/voice-agent-ui.js:284-287 | appending entries adds their interim count |
| AgentUI.MicDispatch | js/voice-agent-ui.js:196-205 | stop listening exactly when listening; stop speaking exactly when speaking and not listening; start otherwise |
| AgentUI.VoiceAgentUI.constructor | js/voice-agent-ui.js:7-29 | closed panel, the welcome entry, the idle display. The support check of js/voice-agent.js:319-329 (`BrowserSupport`) is applied to the two capabilities, and the error line shows the unsupported-browser message exactly when recognition or synthesis is missing |
| AgentUI.VoiceAgentUI.Open | js/voice-agent-ui.js:174-178 | the panel is open |
| AgentUI.VoiceAgentUI.Close | js/voice-agent-ui.js:183-191 | the panel is closed, capture is asked to stop and playback is cancelled, with `idle` reported. The history is untouched |
| AgentUI.VoiceAgentUI.Toggle | js/voice-agent-ui.js:163-169 | flips the panel; only closing touches the engine |
| AgentUI.VoiceAgentUI.HandleMicClick | js/voice-agent-ui.js:196-205 | one engine action per click, in priority order stop-listening, stop-speaking, start. Only the start clears the error line |
| AgentUI.VoiceAgentUI.HandleReset | js/voice-agent-ui.js:210-221 | the engine history is empty; its trace gains the conditional stop, the cancel and two `idle` reports, so its last status is `idle`; its listening flag, key and context are kept. The conversation is the reset welcome alone, and the error line is hidden |
| AgentUI.VoiceAgentUI.UpdateStatus | js/voice-agent-ui.js:226-267 | the display is the one `DisplayFor` gives the status |
| AgentUI.VoiceAgentUI.HandleTranscript | js/voice-agent-ui.js:272-290 | the old interim entry is removed. A final transcript becomes the user's message, leaving no interim entry; any other becomes the one interim entry |
| AgentUI.VoiceAgentUI.HandleResponse | js/voice-agent-ui.js:295-297 | the reply is appended as the assistant's message |
| AgentUI.VoiceAgentUI.AddMessage | js/voice-agent-ui.js:302-314 | one message with its role and label is appended, and the interim count is unchanged |
| AgentUI.VoiceAgentUI.ShowError | js/voice-agent-ui.js:326-329 | the error line shows the message |
| AgentUI.VoiceAgentUI.HideError | js/voice-agent-ui.js:334-336 | the error line is hidden |
| AgentUI.VoiceAgentUI.Deliver | js/voice-agent-ui.js:154-157 | each engine callback reaches its handler: status to the display, transcript, reply and error to theirs. Nothing else changes, and browser-API signals change nothing |

## Left out

- `fetch`, the Web Speech API, `window`, `process.env` and the DOM are not modelled. Their results are inputs: `FetchOutcome`, `DocumentFetch`, `Upstream`, the recognizer's presence and start error, the voice list, and the two capability flags of the support check.
- Asynchrony and interleaving are not modelled. `processUserInput` runs atomically, with the fetch's outcome given. A reply that arrives after a reset, and is applied then, is not modelled.
- `loadSystemContext` is a separate method. The constructor leaves the context empty until it runs, because the source starts it without awaiting it.
- The fallback context of the outer `catch` is not modelled. Every per-document failure is caught inside the loop, so that `catch` is never reached, and a load in which every document fails yields the preamble with no company information.
- The reply's `content[0].text` extraction is folded into `FetchOutcome`. A reply whose `content` is missing or empty throws, and is a `Threw` outcome with the runtime's message. A first block without `text` yields `undefined`, which the source appends to the history and passes to `onResponse` and `speak` without error; `Replied` carries a string, so that case is not modelled.
- JsValues.Stringify: renders an object's fields in the order the model holds them and keeps duplicate names. `JSON.stringify` of a parsed object lists integer-like keys first, in ascending order, and holds one value per key (the last), so the relayed `details` text can differ in field order and duplicates.
- JSON numbers are integers only, and they are rendered exactly at any size. Floating-point values are not modelled, nor is how `String` and `JSON.stringify` render non-integral numbers, numbers of 1e21 and above (exponent form) and integers beyond 2^53 (which JavaScript cannot hold exactly).
- Agent.FailureMessage: `String(error.message)` of a parsed object is always "[object Object]" in the model. In JavaScript, `new Error(x)` (js/voice-agent.js:226) looks up `toString` on the object itself, so an object with its own non-callable `toString` field (as in the body `{"error":{"message":{"toString":1}}}`, or such an object inside an array) makes the conversion throw a `TypeError`, and the catch at lines 242-244 reports that error's message instead. This case is not modelled.
- Agent.NullBodyTypeError: the message for a JSON `null` error body is the wording of one JavaScript engine (V8); others word the `TypeError` differently.
- The engine assumes `window.speechSynthesis` exists. Without it, `speak`, `stopSpeaking` and `startListening` while speaking throw a `TypeError`. `resetConversation` then throws after clearing the history and reports no `idle`, and the UI's `close` throws too. None of these failures is modelled; the synthesizer's absence only enters the UI's support check.
- Agent.VoiceAgent.ProcessUserInput posts the request as the code builds it (`SentRequest`), without a model and token budget in direct mode. The intended request (`RequestFor`) is modelled beside it, but the engine does not use it.
- Agent.VoiceAgent.SetApiKey: the endpoint is fixed at construction, so a later key changes the headers but not the URL. The model keeps the endpoint fixed, as the source does.
- The rate, pitch and volume settings of the utterance are not modelled, nor are `lang = 'en-US'`, `continuous` and `interimResults`, since no decision depends on them.
- The DOM building of the widget, CSS classes, icons' SVG, scrolling (`scrollToBottom`), `console` logging and `preventDefault` are not modelled. The welcome markup is reduced to its greeting line without the emoji. An interim entry holds the raw text, which is rendered with a trailing ellipsis.
- js/voice-agent-init.js (page wiring that builds the engine and the UI) is not part of this model.
- The UI's callbacks are not invoked synchronously inside the engine's methods. The engine records them in its trace, and `Deliver` applies them afterwards in the same order. Signals recorded before the UI is built reach no UI handler: the UI installs its callbacks only in its own constructor (js/voice-agent-ui.js:154-157), so the engine constructor's unsupported-recognizer `ErrorShown` goes to the default no-op `onError` (js/voice-agent.js:33).
- AgentUI.VoiceAgentUI.HandleTranscript: transcript and reply text are modelled as plain text, while the source inserts them as HTML (js/voice-agent-ui.js:286 and 307-310) and finds the interim entry with `querySelector('.message-interim')` over the whole conversation area (line 274), nested markup included. Text carrying an element with the `message-interim` class therefore defeats the one-interim property (`Valid`) that the model proves; the same holds for `AgentUI.VoiceAgentUI.AddMessage`.
- Blog filter: a card without `data-category` (a null dereference at line 19) and a missing "no posts" element (a null dereference at lines 31 and 33) are not modelled. A button without `data-category` is not modelled either: its category would be null, so every card would be hidden and the message shown. The page is assumed to carry these attributes and elements.

## Findings

| source | as written | input that shows it | evidently intended | confidence | as-written member | corrected member |
|---|---|---|---|---|---|---|
| js/voice-agent.js:200-219 | `body: JSON.stringify(requestBody)` is evaluated when `requestOptions` is built (line 210), and `model` and `max_tokens` are added to `requestBody` only afterwards (lines 217-218), so the sent body never contains them | any non-empty `apiKey`: the request goes to the Anthropic URL with the key headers but with no model and no token budget | in direct mode the body carries model claude-3-opus-20240229 and max_tokens 1024 | high; not executed | Agent.SentRequest, Agent.DirectRequestOmitsModel | Agent.RequestFor, Agent.ModeIsConsistent |
