# SpeakEasy detection core in Dafny

SpeakEasy is a Snap Spectacles lens. On a tap, key press or spoken request it
saves a depth frame and sends the camera image to a vision model. When the
answer comes back it announces the detected labels and anchors a world label
wherever depth is known. The labels then become a grid of word buttons, each
with a short conversational prompt. A tapped button speaks its prompt.

This project models the sequential core of that lens and proves its contracts:

- `text.dfy`: the string primitives the scripts use (`toLowerCase`,
  `toUpperCase`, `includes`, `trim`, `\s`). White space is the full
  ECMAScript set that `trim` and `\s` share. That set is the white space
  characters, including the Unicode space separators, plus the line
  terminators. Also the `Option` datatype that stands for `null` and
  `undefined`.
- `groq_api.dfy` (`GroqApi`): the offline phrase generator. It covers the
  lookup table keyed by lower-cased name, the generic templates, the
  `"🤖 AI-like: "` wrapper, the blank-name error and the API-key check.
  `Math.random()` is a parameter in [0, 1).
- `object_labels.dfy` (`ObjectLabels`): the label fan-out. It covers
  case-insensitive de-duplication that keeps first-seen casing and order, one
  entry per unique label with consecutive ids, the prompt-prefix strip, the
  `nextId` counter, and the queries.
- `detection.dfy` (`Detection`): the detection orchestrator.
  - The single-flight `isRequestRunning` guard.
  - One depth frame per accepted trigger.
  - The completion callback: it restores the UI, announces the labels once,
    places world labels only where depth is known, and disposes the frame
    exactly once.
  - The collaborators whose code is not part of this model are seen only
    through the calls made to them, kept in a ghost trace. The depth cache is a
    map from frame id to liveness plus a fixed pixel-to-world lookup.
- `text_to_speech.dfy` (`Speech`): the guarded initialisation that publishes
  `global.getTTSResults`, the voice options, synthesis requests and playback.
- `word_buttons.dfy` (`WordButtons`): a word button's tap. It speaks the prompt
  first, then notifies the grid.

Three points about the code's order and failure paths:

- The vision request registers only a success callback
  (Assets/Scripts/SceneController.ts:101). So the model has no failure
  continuation. If no answer arrives, `isRequestRunning` stays set and the
  frame stays live.
- The labels event is emitted once, before the point loop starts
  (SceneController.ts:112-123). `Detection.CompletionLabelsOnce` proves that
  order.
- As written, one configuration skips the disposal at SceneController.ts:146;
  see Findings.

## Model

| member | source | states |
|---|---|---|
| Text.IsWhitespace | Assets/Scripts/GroqAPI.ts:149 | defines what `trim` removes and `\s` matches: tab, line feed, vertical tab, form feed, carriage return, space, no-break space, the Ogham space mark, U+2000 to U+200A, the line and paragraph separators, U+202F, U+205F, the ideographic space and the byte-order mark |
| Text.IsBlank | Assets/Scripts/GroqAPI.ts:149 | defines the blank test `!s`, or `s.trim() === ""`: the string is empty or every character is white space; `GroqApi.UnicodeSpaceGetsError` and `ObjectLabels.DropLeadingWhitespace` use it |
| Text.Lower | Assets/Scripts/GroqAPI.ts:117 | defines `toLowerCase` on ASCII: the same length, each letter A to Z lowered and every other character kept |
| Text.Includes | Assets/Scripts/ObjectLabelHandler.ts:126-128 | `s.includes(t)` holds iff `t` occurs in `s` at some position |
| GroqApi.RandomIndex | Assets/Scripts/GroqAPI.ts:119 | `Math.floor(Math.random() * n)` is always a valid index of a non-empty list |
| GroqApi.ContextualResponsesWellFormed | Assets/Scripts/GroqAPI.ts:37-115 | every table key has exactly five phrases, none empty and none starting with white space |
| GroqApi.GenericResponsesNameIt | Assets/Scripts/GroqAPI.ts:124-132 | there are seven generic templates, and each quotes the object name verbatim |
| GroqApi.GenerateAILikePrompt | Assets/Scripts/GroqAPI.ts:35-136 | (corrected; see Findings: the lookup is into the table's own keys) a name whose lower-case form is a table key yields one of that key's phrases; any other name yields a generic template containing the name; the phrase never starts with white space |
| GroqApi.GenerateConversationalPrompt | Assets/Scripts/GroqAPI.ts:147-159 | (corrected; see Findings: GroqAPI.ts:117-121) a blank or empty name yields exactly "Error: No object detected"; otherwise the result is "🤖 AI-like: " followed by exactly the phrase `GenerateAILikePrompt` draws for that name, so by its contract one of its key's phrases or a template that quotes the name |
| GroqApi.UnicodeSpaceGetsError | Assets/Scripts/GroqAPI.ts:149-152 | a name made only of Unicode space separators (the ideographic space; an em space followed by the Ogham space mark) is blank for `trim` and yields exactly "Error: No object detected" |
| GroqApi.LookupIgnoresCase | Assets/Scripts/GroqAPI.ts:117 | two names equal up to case get the same phrase, drawn from their key's list |
| GroqApi.BookInAnyCase | Assets/Scripts/GroqAPI.ts:117 | "Book", "BOOK" and "book" draw the same phrase from the "book" list |
| GroqApi.ShouldUseMockResponse | Assets/Scripts/GroqAPI.ts:138-145 | the mock generator is always used |
| GroqApi.GroqApiComponent.constructor | Assets/Scripts/GroqAPI.ts:5-7 | the key starts empty |
| GroqApi.GroqApiComponent.LoadApiKey | Assets/Scripts/GroqAPI.ts:20-28 | the key is the configured key, or "" if there is none; it counts as configured iff it is non-empty and not the placeholder "your-groq-api-key-here" |
| GroqApi.LoadedKey | Assets/Scripts/GroqAPI.ts:22 | defines the key lookup with its `""` fallback: the configured key, or the empty string when none is set; `LoadApiKey` states the result |
| GroqApi.KeyConfigured | Assets/Scripts/GroqAPI.ts:23-28 | defines the test behind the two log branches: the key is non-empty and is not "your-groq-api-key-here" |
| GroqApi.GenerateAILikePromptAsWritten | Assets/Scripts/GroqAPI.ts:117-121 | the object-literal lookup agrees with the table except on the inherited names "constructor" and "__proto__" |
| GroqApi.ConstructorAsWritten | Assets/Scripts/GroqAPI.ts:117-121 | as written, a detected "Constructor" gets the phrase "undefined": not a template, and not naming the object |
| GroqApi.ConstructorCorrected | Assets/Scripts/GroqAPI.ts:123-135 | with the lookup limited to the table's own keys, "Constructor" gets a generic template that names it |
| ObjectLabels.FirstIndex | Assets/Scripts/ObjectLabelHandler.ts:58 | the first position of a value in a list: it holds the value, and nothing before it does |
| ObjectLabels.DistinctMembers | Assets/Scripts/ObjectLabelHandler.ts:55 | building a `Set` from a list and reading it back loses no value and invents none |
| ObjectLabels.DistinctSpec | Assets/Scripts/ObjectLabelHandler.ts:55 | the values read back from a `Set` have no repeats, are exactly the list's values, and come in order of first insertion |
| ObjectLabels.DistinctLength | Assets/Scripts/ObjectLabelHandler.ts:55 | a `Set` holds no more values than were inserted |
| ObjectLabels.Find | Assets/Scripts/ObjectLabelHandler.ts:58 | `find` returns the first label whose lower-case form is the key, or nothing if no label has that form |
| ObjectLabels.UniqueLabels | Assets/Scripts/ObjectLabelHandler.ts:55-59 | defines the de-duplication: the distinct lower-cased labels in order of first occurrence, each mapped back by `find` to the first label with that form, or to the key when that label is empty; `UniqueLabelsSpec` proves its properties |
| ObjectLabels.UniqueLabelsSpec | Assets/Scripts/ObjectLabelHandler.ts:55-59 | the unique labels are no more than the input; no two are equal ignoring case; every input label has one equal to it ignoring case; each is the first input label with its lower-case form; they come in order of first occurrence |
| ObjectLabels.Capitalize | Assets/Scripts/ObjectLabelHandler.ts:118-120 | only the first character is upper-cased, the rest is unchanged, the length is kept, the empty label stays empty, and the lower-case form is unchanged |
| ObjectLabels.FirstColon | Assets/Scripts/ObjectLabelHandler.ts:71 | finds the position of the first colon, or reports that there is none |
| ObjectLabels.DropLeadingWhitespace | Assets/Scripts/ObjectLabelHandler.ts:71 | `\s*` removes a prefix made only of white space, and what remains does not start with white space |
| ObjectLabels.StripPrefix | Assets/Scripts/ObjectLabelHandler.ts:71 | `replace(/^[^:]+:\s*/, '')` leaves a suffix of the text; a text with no colon, or one starting with a colon, is unchanged |
| ObjectLabels.StripAfterColon | Assets/Scripts/ObjectLabelHandler.ts:71 | a non-empty, colon-free head and its colon are removed, along with the white space after them |
| ObjectLabels.StripAILikePrefix | Assets/Scripts/ObjectLabelHandler.ts:71 | stripping "🤖 AI-like: " plus a phrase gives back the phrase without its leading white space |
| ObjectLabels.StripNoObjectError | Assets/Scripts/ObjectLabelHandler.ts:71 | "Error: No object detected" is stored as "No object detected" |
| ObjectLabels.PromptFor | Assets/Scripts/ObjectLabelHandler.ts:66-85 | (corrected; see Findings: GroqAPI.ts:117-121) with the phrase generator, a non-blank label's stored prompt is exactly the generated phrase, and a blank one's is "No object detected"; without it, the prompt is exactly "I see a <label>. What would you like to know about it?" |
| ObjectLabels.Entries | Assets/Scripts/ObjectLabelHandler.ts:64-87 | (corrected; see Findings: GroqAPI.ts:117-121) defines the entries one detection builds: for unique label i, id `firstId + i`, the capitalised label, and `PromptFor` of the label with the i-th random draw; `EntriesSpec` and `EntriesMatchLabels` prove its properties, `BuildEntries` is proved equal to it |
| ObjectLabels.EntriesSpec | Assets/Scripts/ObjectLabelHandler.ts:64-87 | one entry per unique label; entry i has id `firstId + i` and label i as its word up to case; the ids used are exactly [firstId, firstId + count) |
| ObjectLabels.EntriesSnoc | Assets/Scripts/ObjectLabelHandler.ts:73 | pushing the entry for label i extends the entries of the labels before it |
| ObjectLabels.SomeIncludes | Assets/Scripts/ObjectLabelHandler.ts:126-128 | `some(l => l.toLowerCase().includes(n))` holds iff some label, lower-cased, contains `n` |
| ObjectLabels.FilterTargets | Assets/Scripts/ObjectLabelHandler.ts:122-136 | a target is reported iff some label contains it ignoring case, and reports follow the targets' order |
| ObjectLabels.SpecificObjectsFound | Assets/Scripts/ObjectLabelHandler.ts:122-136 | each of book, poster, pizza, phone and laptop is reported iff some raw label contains it ignoring case, in that fixed order |
| ObjectLabels.EntriesMatchLabels | Assets/Scripts/ObjectLabelHandler.ts:163-167 | after a detection, a name matches some entry's word iff it matches some raw label: capitalising and de-duplicating hide nothing from a case-insensitive substring test |
| ObjectLabels.ObjectLabelHandler.constructor | Assets/Scripts/ObjectLabelHandler.ts:21-23 | no entries and no stored labels; the first id is 13 |
| ObjectLabels.ObjectLabelHandler.HandleDetectedObjects | Assets/Scripts/ObjectLabelHandler.ts:47-99 | (corrected; see Findings: GroqAPI.ts:117-121) keeps a copy of the raw labels and replaces the entries with one per unique label, in order, with ids from the old `nextId`. Advances `nextId` by the count. The new ids were never issued before. Reports the specific objects and then refreshes the grid, only if it has `refreshGrid`; the refresh sees the new entries and the advanced `nextId` |
| ObjectLabels.ObjectLabelHandler.BuildEntries | Assets/Scripts/ObjectLabelHandler.ts:64-87 | (corrected; see Findings: GroqAPI.ts:117-121) the `forEach` pushes one entry per unique label, in order, with ids counting up from `nextId`; only the entries change |
| ObjectLabels.ObjectLabelHandler.PushEntry | Assets/Scripts/ObjectLabelHandler.ts:66-85 | (corrected; see Findings: GroqAPI.ts:117-121) the callback for label i appends that label's entry: id `nextId + i`, the capitalised label and its prompt. The entries then are those of the first i + 1 labels |
| ObjectLabels.ObjectLabelHandler.NotifyDetection | Assets/Scripts/ObjectLabelHandler.ts:90-98 | the specific objects are reported first; then the grid is refreshed, only if it has `refreshGrid`, and it sees the entries and `nextId` as they are after the ids were logged |
| ObjectLabels.ObjectLabelHandler.LogDetectedObjects | Assets/Scripts/ObjectLabelHandler.ts:101-116 | `nextId` grows by the number of entries, and their ids count as issued |
| ObjectLabels.ObjectLabelHandler.HasObject | Assets/Scripts/ObjectLabelHandler.ts:163-167 | true iff some entry's lower-cased word contains the lower-cased name |
| ObjectLabels.ObjectLabelHandler.GetObjectCount | Assets/Scripts/ObjectLabelHandler.ts:169-171 | the entry count, which is the number of case-insensitively distinct labels of the last detection |
| ObjectLabels.ObjectLabelHandler.GetDetectedObjects | Assets/Scripts/ObjectLabelHandler.ts:154-157 | returns the entries without changing state; their ids rise by one and end just below `nextId`; no two words are equal ignoring case |
| ObjectLabels.IdsIncreaseAcrossDetections | Assets/Scripts/ObjectLabelHandler.ts:115 | every id of a later detection is above every id of an earlier one, so no id is reused |
| Detection.Labels | Assets/Scripts/SceneController.ts:113-116 | the announced list has one label per point, in point order, duplicates kept |
| Detection.RestoreEffects | Assets/Scripts/SceneController.ts:102-110 | the callback's first calls only re-enable the speech button, hide the loader and open the bubble |
| Detection.AcceptEffectsOrder | Assets/Scripts/SceneController.ts:78-93 | an accepted trigger shows the loader and clears labels and bubble before saving exactly one frame. Then it fetches that frame's image and sends that image with the text |
| Detection.PointEffectsKinds | Assets/Scripts/SceneController.ts:123-145 | the point loop only draws debug points, looks up depth in the request's own frame, and places world labels |
| Detection.PointEffectsWorldLabels | Assets/Scripts/SceneController.ts:123-145 | the loop's world labels are exactly the points with a known position, in order, when the response UI is assigned |
| Detection.PointStepWorldLabels | Assets/Scripts/SceneController.ts:135-144 | one point places a world label iff its lookup found a position and the response UI is assigned |
| Detection.CompletionEffects | Assets/Scripts/SceneController.ts:101-146 | (corrected; see Findings: SceneController.ts:125-130) defines every call of the completion callback in order: the UI restore and labels event, then one step per point, then the frame's disposal; `CompletionLabelsOnce`, `CompletionWorldLabels` and `CompletionDisposesOnce` prove its properties |
| Detection.CompletionLabelsOnce | Assets/Scripts/SceneController.ts:112-123 | the labels event fires exactly once per answer, carries every point's label in order, and comes before any world label |
| Detection.CompletionWorldLabels | Assets/Scripts/SceneController.ts:123-145 | `loadWorldLabel` is called, in point order, exactly for the points whose lookup is non-null; a null skips only that point |
| Detection.CompletionDisposesOnce | Assets/Scripts/SceneController.ts:131-146 | the frame is disposed exactly once, as the last call, even for an empty answer; every lookup before it uses that frame |
| Detection.ResolutionSkipNotAbort | Assets/Scripts/SceneController.ts:131-145 | of three points, only the second lacking depth: two world labels are placed and all three labels are announced |
| Detection.BookAndPhoneExample | Assets/Scripts/SceneController.ts:101-146 | with "book" at a known position and "phone" without one: the bubble shows the message, ["book", "phone"] is announced, only "book" is placed, and the frame is disposed last |
| Detection.PointLoopAsWritten | Assets/Scripts/SceneController.ts:123-145 | defines the point loop as written: with debug visuals on and no visualizer, the first point throws and the loop stops; otherwise one step per point. Returns the calls made and whether it threw |
| Detection.CompletionAsWritten | Assets/Scripts/SceneController.ts:101-146 | defines the callback as written: the UI restore and labels event, the as-written loop, and the disposal only when the loop did not throw |
| Detection.PointLoopAsWrittenThrows | Assets/Scripts/SceneController.ts:125-130 | as written, with debug visuals on and no visualizer, the loop throws at the first point, having made no call |
| Detection.PointLoopAsWrittenAgrees | Assets/Scripts/SceneController.ts:123-145 | in every other configuration, the loop as written makes the corrected loop's calls |
| Detection.FrameLeakAsWritten | Assets/Scripts/SceneController.ts:123-146 | as written, debug visuals on with no visualizer and a non-empty answer: the frame is never disposed and no world label is placed |
| Detection.AsWrittenAgreesWhenWired | Assets/Scripts/SceneController.ts:123-146 | where the as-written guard cannot throw, the whole callback as written makes the corrected callback's calls |
| Detection.DepthCache.constructor | Assets/Scripts/SceneController.ts:36-38 | the cache the controller is given starts with no saved frame, and its pixel-to-world lookup is the one supplied |
| Detection.DepthCache.SaveDepthFrame | Assets/Scripts/SceneController.ts:87 | returns a frame id never issued before; that frame is now live |
| Detection.DepthCache.GetCamImageWithID | Assets/Scripts/SceneController.ts:88 | the image of a live frame is that frame's camera image |
| Detection.DepthCache.GetWorldPositionWithID | Assets/Scripts/SceneController.ts:131-134 | a pixel of a live frame resolves to the cache's world position, if any |
| Detection.DepthCache.DisposeDepthFrame | Assets/Scripts/SceneController.ts:146 | a live frame becomes disposed; nothing else changes |
| Detection.SceneController.constructor | Assets/Scripts/SceneController.ts:43 | the controller starts idle, with no live frame |
| Detection.SceneController.OnObjectDetectionTriggered | Assets/Scripts/SceneController.ts:65-68 | a key or tap trigger is a trigger with the prompt "What do you see? Show me all the objects you can identify." |
| Detection.SceneController.OnSpeechReceived | Assets/Scripts/SceneController.ts:70-94 | the speech button goes off first, even on a rejected call. While a request runs, nothing else happens: no frame, no request, no UI change, and the flag stays set. Otherwise the flag is set and one new frame is saved, which becomes the only live frame; the request carries its image and the text |
| Detection.SceneController.EnterBusy | Assets/Scripts/SceneController.ts:79-85 | sets the flag, shows the loader, and clears labels and bubble when the response UI is assigned |
| Detection.SceneController.CaptureAndSend | Assets/Scripts/SceneController.ts:86-93 | saves one new frame and fetches its image. Sends that image with the text. Shows it on the debug visualizer only when debug visuals are on and the visualizer is assigned |
| Detection.SceneController.SendToGemini | Assets/Scripts/SceneController.ts:96-101 | the request is sent, and its callback holds the image, the text and the frame id |
| Detection.SceneController.OnGeminiResponse | Assets/Scripts/SceneController.ts:101-147 | (corrected; see Findings: the debug visual is guarded by the visualizer being assigned) clears the flag and makes exactly the calls of the completion sequence, ending with the disposal of the request's frame. Afterwards no frame is live |
| Detection.SceneController.RestoreIdle | Assets/Scripts/SceneController.ts:102-110 | the flag is cleared, the speech button re-enabled, the loader hidden, and the bubble opened with the answer's message |
| Detection.SceneController.CollectLabels | Assets/Scripts/SceneController.ts:113-116 | the push loop builds the points' labels in order |
| Detection.SceneController.PlaceWorldLabels | Assets/Scripts/SceneController.ts:123-145 | (corrected; see Findings: the debug visual is guarded by the visualizer being assigned) the point loop makes, point by point, the debug visual when debug visuals are on and the visualizer is assigned, the lookup in the request's frame, and the world label when a position is found |
| Detection.SceneController.ResolvePoint | Assets/Scripts/SceneController.ts:124-144 | (corrected; see Findings: line 125 tests `showDebugVisuals` alone) for one point: its debug visual if debug visuals are on and the visualizer is assigned, then the lookup in the request's frame, then a world label iff a position was found and the response UI is assigned |
| Speech.GetOptions | Assets/Scripts/TextToSpeechController.ts:162-178 | the voice name passes through unchanged |
| Speech.GetOptionsStyle | Assets/Scripts/TextToSpeechController.ts:166-173 | the style is `Auto` iff automatic selection is on, whatever the name. Otherwise "Sasha" selects Sasha's style and every other name Sam's |
| Speech.GetOptionsPace | Assets/Scripts/TextToSpeechController.ts:176 | the pace is the input pace scaled by 100, so it divides back to the input pace. The defaults send "Sasha", `Auto`, 100 |
| Speech.TextToSpeechController.constructor | Assets/Scripts/TextToSpeechController.ts:59-93 | the inputs: whether `tts` and `audio` are assigned and the voice settings as given; no track set, nothing synthesized and nothing played yet |
| Speech.TextToSpeechController.Initialize | Assets/Scripts/TextToSpeechController.ts:101-131 | without `tts` or without `audio`, nothing is registered and nothing is synthesized. Otherwise the global function calls this controller, and a preview is synthesized iff previews are on and the preview text is non-empty |
| Speech.TextToSpeechController.GetTTSResults | Assets/Scripts/TextToSpeechController.ts:180-189 | exactly one synthesis of the given text, with the current options and the playing handler |
| Speech.TextToSpeechController.PlayTTSAudio | Assets/Scripts/TextToSpeechController.ts:157-160 | the audio component's track becomes the asset, and it is played once |
| Speech.TextToSpeechController.OnTTSCompleteHandler | Assets/Scripts/TextToSpeechController.ts:133-141 | on completion the returned asset is set and played once |
| Speech.TextToSpeechController.PreviewTTSCompleteHandler | Assets/Scripts/TextToSpeechController.ts:147-151 | on preview completion the asset is set and played once |
| Speech.TextToSpeechController.OnTTSErrorHandler | Assets/Scripts/TextToSpeechController.ts:143-145 | on error nothing is played and the track is unchanged |
| WordButtons.WordGrid.OnWordButtonTapped | Assets/Scripts/WordButtonHandler.ts:47 | the grid receives the tapped button's data |
| WordButtons.TapOutputs | Assets/Scripts/WordButtonHandler.ts:31-49 | defines what a tap produces: nothing without data; with data, the spoken prompt (or no controller found), then the grid notification when the grid listens; `TapOutputsOrder` proves its properties and `OnButtonTapped` is proved to produce it |
| WordButtons.TapOutputsOrder | Assets/Scripts/WordButtonHandler.ts:31-49 | a tap without data does nothing. With data, exactly the prompt is spoken first, or no controller is found; the grid is told afterwards iff it listens, even when nothing could be spoken |
| WordButtons.WordButtonHandler.constructor | Assets/Scripts/WordButtonHandler.ts:14-15 | data and grid both start as null |
| WordButtons.WordButtonHandler.SetButtonData | Assets/Scripts/WordButtonHandler.ts:51-54 | replaces only the button data |
| WordButtons.WordButtonHandler.SetGridComponent | Assets/Scripts/WordButtonHandler.ts:56-58 | replaces only the grid |
| WordButtons.WordButtonHandler.TriggerSpeechOutput | Assets/Scripts/WordButtonHandler.ts:60-70 | a registered controller synthesizes exactly the prompt; with none registered, nothing is spoken |
| WordButtons.WordButtonHandler.OnButtonTapped | Assets/Scripts/WordButtonHandler.ts:31-49 | without data: no speech and no grid call. With data: the prompt is spoken, then the grid receives the data iff it is set and has `onWordButtonTapped` |

## Left out

- Engine wiring is not modelled: the `onAwake`/`onStart` subscriptions, `createEvent`, tap events and the `Event` class (SceneController.ts:45-63, ObjectLabelHandler.ts:25-45, WordButtonHandler.ts:17-29). The model calls the handlers directly. A key press is a call to `OnObjectDetectionTriggered`.
- `print` logging, `JSON.stringify` output (`logDetectedObjects`, `getDetectedObjectsAsJson`) and the word-timing log of `onTTSCompleteHandler` are not modelled. `onSpecificObjectFound` only logs, so the model records a `SpecificObjectFound` event per report.
- ObjectLabels.ObjectLabelHandler.HandleDetectedObjects: the `Promise.all(...).then` continuation runs in a later microtask. The model runs it at the end of the same call, because the phrase callbacks are synchronous and nothing that reads or writes the handler's state runs in between. The rest of the detection callback in SceneController.ts (lines 123-146) does run first, but it does not touch the handler.
- ObjectLabels.ObjectLabelHandler.HandleDetectedObjects: ids are unbounded integers. The JavaScript number loses integer precision beyond 2^53, far out of reach of a session.
- GroqApi.GenerateConversationalPrompt: the `catch` branch (GroqAPI.ts:156-158) is not modelled. Nothing in the `try` block throws for a string argument.
- GroqApi.GroqApiComponent.LoadApiKey: the `catch` for a missing configuration module is not modelled; the configuration is a parameter.
- `Math.random()` is a parameter in [0, 1) (a function of the label's position for a detection). Nothing about its distribution is modelled.
- `toLowerCase`/`toUpperCase` are modelled on ASCII letters only. Unicode case mapping is not modelled.
- The HTTP path of GroqAPI (URL, `internetModule`) is not modelled. `shouldUseMockResponse` always selects the mock.
- GeminiAPI, DepthCache, ResponseUI, SpeechUI, Loading and DebugVisualizer are not part of this model. Only the calls made to them are recorded.
  - The depth cache is a map from frame id to liveness. Its methods require a live frame, because its behaviour on a disposed frame is not visible.
  - The world position of a pixel is a fixed function of frame and pixel.
- A vision failure path is not modelled; the source registers none.
- The speech synthesis module and audio playback are recorded calls. Voice pace is a `real`; IEEE rounding is not modelled.
- Not modelled, as scene-graph and engine glue outside this core: TapUI.ts (transform animation), KeyboardController.ts, config.example.ts (only its placeholder key is used), the gamepad/menu `SceneController` under "Keyboard Parent", and the grid instantiation scripts.

## Findings

| source | as written | input that shows it | evidently intended | confidence | as-written member | corrected member |
|---|---|---|---|---|---|---|
| Assets/Scripts/SceneController.ts:125-130 | the debug point is drawn under `showDebugVisuals` alone, though `debugVisualizer` may be unassigned | `showDebugVisuals` on, no debug visualizer, an answer with one point: `visualizeLocalPoint` on `undefined` throws, so no world label is placed and `disposeDepthFrame` is never called | guard on the visualizer being assigned, as line 91 does, so the frame is always disposed | not executed | Detection.FrameLeakAsWritten | Detection.CompletionDisposesOnce |
| Assets/Scripts/GroqAPI.ts:117-121 | the phrase table is a plain object literal indexed by the lower-cased name, so inherited members are found too | a detected label "Constructor": `contextualResponses["constructor"]` is the `Object` function, index 0 of it is `undefined`, and the stored prompt is "undefined" | look up only the table's own keys, so the name falls through to a generic template that quotes it | not executed | GroqApi.ConstructorAsWritten | GroqApi.ConstructorCorrected |
