# Springwell client orchestration, in Dafny

Springwell is a groundwater assistant for India. Its browser client lets a user ask a
question from the landing page or from the dashboard. It sends the question to a remote
language model and expects back one JSON *action descriptor*. That descriptor drives the
dashboard: it selects a tab, shows a layer or a highlight on the map, adds a chart or adds a
map marker. The descriptor's `responseText` is appended to the chat's transcript; a reply
that leaves the chat tab unmounts the chat before that text is shown.

This project models that orchestration and proves what it promises:

- `Text` covers the JavaScript string operations the client depends on: `trim`, ASCII
  `toLowerCase`, `includes`, and prefix and suffix tests.
- `Gemini` covers the reply descriptor as the client sees it. It has the fence clean-up,
  the fallback reply and `getAiResponse`. The remote call and `JSON.parse` are parameters
  (oracles).
- `Dashboard` covers the action dispatcher `handleAiAction`, as a function `Dispatch` on the
  dashboard state. It also has the page object that commits `Dispatch`'s result, the
  initial-prompt navigation effect and the global send.
- `ChatInterface` covers the chat controller:
  - the language choice and its greeting;
  - session creation and its failure;
  - `handleSend`, split at its single `await` into `BeginSend` and `CompleteSend`, so that
    the `isLoading` guard means something;
  - the prompt-once effect.
- `InteractiveMap` covers the map view's local copy of the map state: the search box and the
  layer buttons.
- `IndiaStateMap` covers the per-state fill colour and the highlight outline.
- `Speech` covers the prompt box with its voice button, which the landing page and the
  dashboard both have.
- `Index` covers the landing page's send guard.
- `Scenarios` states, for seven end-to-end sequences across the landing page, the dashboard
  and the chat, the state the dashboard and the chat controller end up in.

Where the code is an object whose state changes (the dashboard page, the chat, the map view,
the prompt box), the model is a class with those fields. Where the code computes a value
(the dispatcher, the clean-up, the greeting, the style), the model is a function with
lemmas.

In a few places the code behaves in ways a reader might not expect; the model follows the
code:

- A failed session creation *appends* the initialisation error after the greeting. It does
  not replace the transcript.
- The reply is cast to the descriptor type, not validated. An action, tab or layer outside
  the schema reaches the dispatcher unchanged (`UncheckedTabIsApplied`).
- A reply that parses to JSON `null` makes the dispatcher throw. That is the only path to
  the chat's own "Sorry, I encountered an error trying to get a response" message. Every
  failure of the call or of the parse instead yields the client's fallback apology
  (`FailedReplyShowsFallback`).

## Model

| member | source | states |
|---|---|---|
| Text.TrimStart | frontend/pages/Dashboard/_components/ChatInterface.tsx:96 | the result is a suffix of the input, it does not start with white space, and everything cut off is white space |
| Text.TrimEnd | frontend/pages/Dashboard/_components/ChatInterface.tsx:96 | the result is a prefix of the input, it does not end with white space, and everything cut off is white space |
| Text.Trim | frontend/pages/Dashboard/_components/ChatInterface.tsx:96 | the result occurs in the input with only white space before and after it, and neither of its ends is white space |
| Text.TrimWitness | frontend/pages/Dashboard/_components/ChatInterface.tsx:96 | cutting white space off the start and then the end leaves a slice with only white space cut off on either side |
| Text.IsBlank | frontend/pages/Dashboard/_components/ChatInterface.tsx:96 | `!s.trim()`, tested character by character: every character is white space (equal to trimming to nothing by `BlankIffTrimsToEmpty`) |
| Text.BlankIffAllWhitespace | frontend/pages/Dashboard/_components/ChatInterface.tsx:96 | the character-by-character blank test holds exactly when every character is white space |
| Text.BlankIffTrimsToEmpty | frontend/pages/Index.tsx:102 | the blank test holds exactly when trimming leaves nothing, so it is the source's `!s.trim()` |
| Text.VisibleStartIsNotBlank | frontend/pages/Index.tsx:102 | a string whose first character is visible is not blank |
| Text.ToLower | frontend/pages/Dashboard/_components/IndiaStateMap.tsx:123 | the same length, with each character ASCII lower-cased |
| Text.Includes | frontend/pages/Dashboard/_components/IndiaStateMap.tsx:123 | `includes`: the haystack starts with the needle at some position, scanned from the left (characterised by `IncludesIffOccurs`) |
| Text.IncludesIffOccurs | frontend/pages/Dashboard/_components/IndiaStateMap.tsx:123 | `includes` holds exactly when the needle occurs at some position of the haystack |
| Text.IncludesSelfAndEmpty | frontend/pages/Dashboard/_components/IndiaStateMap.tsx:123 | every string includes itself and the empty string |
| Gemini.Present | frontend/pages/Dashboard.tsx:66 | JavaScript truthiness of an optional string: present and not empty |
| Gemini.NonZero | frontend/pages/Dashboard.tsx:78 | JavaScript truthiness of an optional number: present and not zero |
| Gemini.ConformsToSchema | frontend/services/geminiService.ts:37-59 | the response schema: an action and a text are present, and action, tab, layer and chart type lie in their enumerations |
| Gemini.Plain | frontend/services/geminiService.ts:75-86 | a descriptor with the given action and text and every other field absent; with a schema action it conforms to the schema |
| Gemini.Fallback | frontend/services/geminiService.ts:102-109 | the fallback is a `text_only` descriptor with the fixed apology, and it conforms to the schema |
| Gemini.StripOpen | frontend/services/geminiService.ts:98 | removes a leading "```json" line exactly when the text starts with one, otherwise returns the text unchanged |
| Gemini.StripClose | frontend/services/geminiService.ts:98 | removes a trailing "```" line exactly when the text ends with one, otherwise returns the text unchanged |
| Gemini.Clean | frontend/services/geminiService.ts:98 | the text is the result with at most one opening fence before it and at most one closing fence after it, the opening fence is cut exactly when the text starts with it, and the closing fence exactly when what follows the cut opening ends with it |
| Gemini.CleanFenced | frontend/services/geminiService.ts:98 | wrapping JSON in the fences and cleaning gives back the JSON |
| Gemini.CleanUnfenced | frontend/services/geminiService.ts:98 | a text with neither fence is left unchanged |
| Gemini.CleanKeepsUnfencedStart | frontend/services/geminiService.ts:98 | without an opening fence, the cleaned text is a prefix of the text |
| Gemini.CleanKeepsUnfencedEnd | frontend/services/geminiService.ts:98 | without a closing fence, the cleaned text is a suffix of the text |
| Gemini.CleanStripsOneOpenFence | frontend/services/geminiService.ts:98 | a doubled opening JSON code fence loses only its first copy (the first, anchored replace) |
| Gemini.CleanStripsOneCloseFence | frontend/services/geminiService.ts:98 | a doubled closing fence loses only its last copy |
| Gemini.GetAiResponse | frontend/services/geminiService.ts:89-110 | a failed call or a failed parse of the cleaned text yields the fallback; otherwise the parsed value, unchecked |
| Gemini.GetAiResponseOfFenced | frontend/services/geminiService.ts:96-100 | a fenced reply yields what its inner JSON parses to |
| Gemini.FailureYieldsTextOnly | frontend/services/geminiService.ts:102-109 | every failure yields a schema-conforming `text_only` value |
| InteractiveMap.InitialMapState | frontend/pages/Dashboard.tsx:49 | the dashboard starts with the layer "none", no highlight and no markers |
| InteractiveMap.MapView.constructor | frontend/pages/Dashboard/_components/InteractiveMap.tsx:30-39 | the local copy starts as the prop, and the search box holds its highlight when that is truthy, otherwise nothing |
| InteractiveMap.MapView.Sync | frontend/pages/Dashboard/_components/InteractiveMap.tsx:34-39 | a new prop replaces the local copy entirely; the search box takes a truthy highlight and is otherwise kept |
| InteractiveMap.MapView.SetSearchQuery | frontend/pages/Dashboard/_components/InteractiveMap.tsx:30 | typing changes only the search box |
| InteractiveMap.MapView.HandleSearch | frontend/pages/Dashboard/_components/InteractiveMap.tsx:41-47 | a blank query clears the highlight, any other query becomes it untrimmed; layer, markers and query are kept |
| InteractiveMap.MapView.SetActiveLayer | frontend/pages/Dashboard/_components/InteractiveMap.tsx:49-51 | only the active layer changes |
| IndiaStateMap.Level | frontend/pages/Dashboard/_components/IndiaStateMap.tsx:108-113 | the scale position is one of three |
| IndiaStateMap.GetColor | frontend/pages/Dashboard/_components/IndiaStateMap.tsx:108-113 | the colour of the value's level in the layer's three-colour scale, or slate for a layer without one; always a palette colour |
| IndiaStateMap.StateName | frontend/pages/Dashboard/_components/IndiaStateMap.tsx:116 | `NAME_1` when it is a non-empty string, otherwise `name` |
| IndiaStateMap.DataKey | frontend/pages/Dashboard/_components/IndiaStateMap.tsx:117 | the state name as the lookup key, and "undefined" when there is no name |
| IndiaStateMap.LayerValue | frontend/pages/Dashboard/_components/IndiaStateMap.tsx:120 | a value exactly for the three layers that have a colour scale, absent for any other layer |
| IndiaStateMap.IsHighlighted | frontend/pages/Dashboard/_components/IndiaStateMap.tsx:123 | a truthy highlight and a truthy name, the lower-cased name including the lower-cased highlight |
| IndiaStateMap.Style | frontend/pages/Dashboard/_components/IndiaStateMap.tsx:115-131 | slate without a layer or without data; otherwise the layer colour of the state's datum; weight 4 and cyan exactly when highlighted, otherwise weight 2 and gray; opacity 1, fill opacity 0.7 |
| IndiaStateMap.ToLowerSlice | frontend/pages/Dashboard/_components/IndiaStateMap.tsx:123 | lower-casing commutes with slicing |
| IndiaStateMap.HighlightsContainingState | frontend/pages/Dashboard/_components/IndiaStateMap.tsx:123-126 | a non-empty highlight that occurs in the state name gives the thick outline |
| IndiaStateMap.HighlightIgnoresCase | frontend/pages/Dashboard/_components/IndiaStateMap.tsx:123 | a highlight equal to the name up to ASCII case highlights it |
| IndiaStateMap.NoHighlightWithoutLocation | frontend/pages/Dashboard/_components/IndiaStateMap.tsx:123-126 | without a truthy highlight no state gets the thick outline |
| Speech.PromptBox.constructor | frontend/pages/Dashboard.tsx:43-46 | an empty input, not listening, and the recognizer present exactly when the browser has one |
| Speech.PromptBox.SetInput | frontend/pages/Dashboard.tsx:335 | typing changes only the text |
| Speech.PromptBox.HandleListen | frontend/pages/Dashboard.tsx:117-122 | starts a capture, exactly once, only with a recognizer and when none is in progress; the flag is never raised without a recognizer |
| Speech.PromptBox.OnResult | frontend/pages/Dashboard.tsx:101-105 | the transcript replaces the input and listening stops |
| Speech.PromptBox.OnError | frontend/pages/Dashboard.tsx:106-109 | listening stops and the input is kept |
| Speech.PromptBox.OnEnd | frontend/pages/Dashboard.tsx:110-112 | listening stops and the input is kept |
| Dashboard.IsCompleteChart | frontend/pages/Dashboard.tsx:66 | a `create_chart` reply with a truthy title, chart type and location |
| Dashboard.IsCompleteMarker | frontend/pages/Dashboard.tsx:78 | an `add_marker` reply with truthy coordinates and popup text |
| Dashboard.Dispatch | frontend/pages/Dashboard.tsx:52-91 | per action: navigate sets a truthy tab only; show_on_map sets the layer (default stress) and the highlight (default none), keeps markers and shows the map; create_chart appends one chart exactly when title, type and location are truthy and shows analytics; add_marker appends one marker exactly when both coordinates and the popup are truthy and shows the map; anything else changes nothing |
| Dashboard.FallbackIsInert | frontend/services/geminiService.ts:105-108 | the fallback reply leaves the dashboard as it was |
| Dashboard.RunIsAppendOnly | frontend/pages/Dashboard.tsx:73-81 | over any run of replies applied one after the other, charts and markers keep their earlier entries and grow by exactly the number of complete requests |
| Dashboard.RepeatedChartIsNotDeduplicated | frontend/pages/Dashboard.tsx:65-76 | one complete chart request twice gives two charts |
| Dashboard.SchemaRepliesKeepVocabulary | frontend/services/geminiService.ts:37-59 | schema-conforming replies keep the tab among the three tabs and the layer among the four layers |
| Dashboard.UncheckedTabIsApplied | frontend/services/geminiService.ts:99 | a cast reply naming an unknown tab is applied as it is |
| Dashboard.UiRepliesLeaveChat | frontend/pages/Dashboard.tsx:57-85 | a `show_on_map`, `create_chart` or `add_marker` reply always moves away from the chat tab |
| Dashboard.ZeroCoordinateMarkerIsDropped | frontend/pages/Dashboard.tsx:77-85 | a marker at coordinate zero is falsy and dropped, but the map is still shown |
| Dashboard.Dashboard.constructor | frontend/pages/Dashboard.tsx:42-50 | the chat tab, no charts, the initial map state, the clock as chat key, and an idle prompt box (empty, not listening, no capture started) |
| Dashboard.Dashboard.HandleAiAction | frontend/pages/Dashboard.tsx:52-91 | the page state becomes the dispatcher's result, and the chat key is kept |
| Dashboard.Dashboard.ApplyInitialPrompt | frontend/pages/Dashboard.tsx:124-133 | a truthy navigation prompt fills the prompt box, renews the chat key and shows the chat; anything else changes nothing; charts, map, the listening flag and the recognizer's start count are always kept |
| Dashboard.Dashboard.SelectTab | frontend/pages/Dashboard.tsx:244-262 | a sidebar button shows its tab; charts, map, chat key and prompt text are kept |
| Dashboard.Dashboard.HandleGlobalSend | frontend/pages/Dashboard.tsx:189-193 | renews the chat key and shows the chat; charts and map are kept |
| ChatInterface.SelectableIffSupported | frontend/pages/Dashboard/_components/ChatInterface.tsx:28-39 | a code is one of the selector's ten exactly when the language list holds it |
| ChatInterface.UnknownCodeGreetsInEnglish | frontend/pages/Dashboard/_components/ChatInterface.tsx:90 | a code the selector does not offer falls back to the English greeting |
| ChatInterface.InitialLanguage | frontend/pages/Dashboard/_components/ChatInterface.tsx:56-58 | the stored language when it is a non-empty string, otherwise English |
| ChatInterface.Greeting | frontend/pages/Dashboard/_components/ChatInterface.tsx:41-52 | the greeting of the language's table entry, and the English one for every code without an entry (stated by `UnknownCodeGreetsInEnglish`) |
| ChatInterface.ReplyMessage | frontend/pages/Dashboard/_components/ChatInterface.tsx:127-141 | a bot message with the given id: the reply's text (nothing when it has none), or the chat's own error text when dispatching a `null` reply threw |
| ChatInterface.ShownText | frontend/pages/Dashboard/_components/ChatInterface.tsx:129 | the reply's text, or nothing when it has none |
| ChatInterface.FailedReplyShowsFallback | frontend/pages/Dashboard/_components/ChatInterface.tsx:122-132 | a failed call or parse shows the fallback apology |
| ChatInterface.ChatController.constructor | frontend/pages/Dashboard/_components/ChatInterface.tsx:56-93 | the stored or English language, its greeting first, then the initialisation error when the session cannot be created |
| ChatInterface.ChatController.InitChat | frontend/pages/Dashboard/_components/ChatInterface.tsx:75-86 | a created session replaces the reference; a failure keeps it and appends the initialisation error |
| ChatInterface.ChatController.SetLanguage | frontend/pages/Dashboard/_components/ChatInterface.tsx:88-93 | the same language changes nothing; another one is stored, resets the transcript to its greeting and re-creates the session |
| ChatInterface.ChatController.SetInput | frontend/pages/Dashboard/_components/ChatInterface.tsx:218 | typing changes only the input |
| ChatInterface.ChatController.BeginSend | frontend/pages/Dashboard/_components/ChatInterface.tsx:95-121 | a blank text or a request in flight changes nothing; otherwise the untrimmed user message is appended, the input cleared and a missing session retried; without one the two error messages follow and loading stops, with one a request goes out and loading is on |
| ChatInterface.ChatController.CompleteSend | frontend/pages/Dashboard/_components/ChatInterface.tsx:122-144 | the reply is dispatched to the dashboard once and its text appended; a `null` reply leaves the dashboard alone and appends the error text; loading stops either way |
| ChatInterface.ChatController.HandleSend | frontend/pages/Dashboard/_components/ChatInterface.tsx:95-145 | within one mount of the chat: a blank text or a request in flight changes nothing; otherwise the input is cleared and a missing session retried; a send that goes out adds exactly the user's message and the reply's and applies the reply to the dashboard, one without a session adds the two error messages and leaves the dashboard alone; language, stored language, processed prompt and the dashboard's chat key are kept, the transcript only grows and loading ends off |
| ChatInterface.ChatController.OnInitialPrompt | frontend/pages/Dashboard/_components/ChatInterface.tsx:147-152 | within one mount of the chat: a truthy prompt different from the last processed one is remembered and handed to the send, which drops it (no request, input and session kept) when it is blank or a request is in flight; the same prompt is not sent twice by the same mount |
| Index.Landing.constructor | frontend/pages/Index.tsx:33-62 | an idle prompt box (empty, not listening, no capture started) with or without a recognizer |
| Index.Landing.HandleSend | frontend/pages/Index.tsx:101-105 | navigates to the dashboard exactly when the input is not blank, carrying the untrimmed input as the initial prompt |

## Left out

- The remote model call, its system instruction, the model name and the API-key check are
  not modelled. A call's outcome is a parameter: the reply text, or `None` when the call
  throws. Session creation is an `Option<Session>` parameter.
- `JSON.parse` is an oracle from the cleaned text to `Option<Parsed>`. Non-string values in
  string fields, and non-number values in `lat` or `lng`, are not modelled. The descriptor
  fields are strings and numbers or absent, and JSON `null` in a field counts as absent.
- The Web Speech API is not modelled. Only the recognizer's presence and the number of
  `start()` calls are modelled; its three callbacks are methods. The same code in
  `frontend/pages/Index.tsx:40-69` is modelled by the same class.
- The data and GeoJSON fetches, Leaflet rendering, `DataCharts`, the UI components, and the
  About, Auth and App pages are not part of this model. The style takes the fetched state
  data as a map parameter whose records have all three fields as numbers.
- React scheduling is not modelled except for the one suspension point of `handleSend`.
  State updates are applied at once. An effect whose dependency is set to an equal value
  does not re-run, which is why `SetLanguage` to the current language changes nothing.
- `Date.now()` ids and chat keys are parameters; nothing is assumed about their uniqueness.
- `localStorage` is one stored value, `storedLanguage`. Scrolling, `replaceState` and the
  chat placeholder text are not modelled.
- `ChatInterface.Greeting`: the ten greetings are copied as written. No lemma states that
  each of the nine non-English codes gets a greeting different from the English one;
  comparing the long literals is beyond the solver budget. Only the fallback to English for
  other codes is proved.
- `OnInitialPrompt`, `HandleSend` and `Dashboard.RunIsAppendOnly` hold within one mount of
  the chat. The dashboard renders the chat only while the chat tab is active
  (`frontend/pages/Dashboard.tsx:321`) and never clears the prompt box it hands down as the
  initial prompt. Each return to the chat tab mounts a new chat with nothing processed and
  a fresh transcript, so the same prompt is sent again (`Scenarios.RemountResendsScenario`).
  A chat unmounted while its request is in flight lets a new mount start a second request.
  `show_on_map` then builds its markers from the render's `mapState`
  (`frontend/pages/Dashboard.tsx:61`), while `add_marker` reads the latest state
  (`frontend/pages/Dashboard.tsx:79`), so a marker added in between can be lost. The model
  applies replies one after the other to the current state and has neither the unmounting
  nor the stale closure.
- `ChatController.CompleteSend` and `HandleSend` append the reply's message to the controller's
  transcript after dispatching it. A reply that moves to the map or the charts
  (`Dashboard.UiRepliesLeaveChat`, and `navigate` to another tab) unmounts the chat in the
  same update (`frontend/pages/Dashboard.tsx:321`), so that text is never displayed. The model
  keeps the transcript of the unmounted controller and does not model the rendering.
- `Text.ToLower`: ASCII lower-casing only, not Unicode case mapping.
- `IndiaStateMap.DataKey`: an absent state name looks up the key "undefined". A `null` name
  (which would look up "null") is not distinguished from an absent one.
- `ChatInterface.ShownText`: an absent `responseText` is shown as the empty text. The code
  renders `undefined`, which displays as nothing.
- `InteractiveMap.MapView.Sync`: the effect re-runs when the prop is a new object. The model
  calls `Sync` for each new prop, equal in value or not.
- Coordinates and data values are Dafny reals, not IEEE doubles; only comparisons with 0
  and 1 are made on them.
