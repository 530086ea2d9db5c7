# Photomonix: enhancement prompt, client fallback and home page session

This project models the core of Photomonix, a single-page photo enhancer.

- **Enhancement client.** `enhanceImageWithHuggingFace` turns an options record into a text prompt. It contacts an optional segmentation endpoint and then a generation endpoint, and returns either the generated image or, when anything inside its `try` block fails, the original file read back as a data URL (null if that read fails).
- **Home page.** The page keeps the chosen file, its preview, the result, a loading flag, the elapsed time and the options record. It changes them through a handful of handlers. Each handler can only fire while the page renders the control behind it.

The model is split into five modules:

- `Common` (common.dfy): files and image handles. An object URL stands for `URL.createObjectURL`, and a data URL is what `FileReader` yields for a file.
- `EnhancementOptions` (enhancement_options.dfy): the options record, its defaults, the preset ids and the pure `{...prev, key: value}` updates. The controls of the settings panel are an event type. Each event has a predicate saying when the page shows it.
- `Prompt` (prompt.dfy):
  - `PromptOf`, the prompt as a function of the options;
  - `BuildPrompt`, the step-by-step `+=` construction, proved equal to `PromptOf`;
  - `DecodePrompt`, a left-to-right reader that recovers what the prompt says.

  The round trip `DecodePrompt(PromptOf(o)) == Some(ContentOf(o))` is the precise form of "a clause appears exactly when its switch is on, in the fixed order". A substring test would not do, because the reference notes are free text and may repeat any clause.
- `HuggingFaceApi` (huggingface_api.dfy): the client as a method. The network is replaced by the outcome each remote call would have. The `try`/`catch` is a `thrown` flag that sends every failure to the fallback.
- `Home` (home.dfy): the page state as a class. Each handler is a method whose `requires` is the render condition of its control. `Valid()` is the invariant that every handler keeps.

Background types stay strings. The `switch` has no default, so an unknown type adds no fragment.

A consequence the model proves: the custom background upload can never be used from the page. Its control is rendered only while `backgroundType` is `"custom"` (Home.jsx:214). The only code that sets `"custom"` is that control's own handler (Home.jsx:69-80), and the preset cards offer only studio, outdoor, blur, beach, office and none (Home.jsx:32-39). So every reachable state has a preset type and no custom background. The "custom" prompt fragment is built correctly, but the page never asks for it.

Three further facts about the code:

- A missing token is not an error the page ever sees. The client throws inside its own `try`, so the page gets the fallback image like any other failure (HuggingFaceAPI.jsx:5-7, 104-116). No endpoint is contacted in that case.
- Nothing in the updates ties "custom" to backgroundChange: unticking the checkbox keeps the selected type. "Custom implies backgroundChange" holds in every reachable state only because "custom" is never reached (above). The prompt ignores the type whenever replacement is off (`NoBackgroundClauseWhenOff`).
- The fallback read can fail. `onloadend` fires after a failed read too, and resolves with the reader's null result (HuggingFaceAPI.jsx:108-116). The page then stores that null as the result and records the elapsed time (Home.jsx:56-59), so the settings panel comes back with no result shown. The model keeps this outcome.

## Model

| member | source | states |
|---|---|---|
| EnhancementOptions.Toggle | src/pages/Home.jsx:139-142 | clicking a card inverts exactly that switch; the other three switches and every background and notes field are unchanged |
| EnhancementOptions.ToggleTwice | src/pages/Home.jsx:139-142 | clicking the same card twice gives back the original options |
| EnhancementOptions.ToggleCommutes | src/pages/Home.jsx:139-142 | the order in which two cards are clicked does not matter |
| EnhancementOptions.SetBackgroundChange | src/pages/Home.jsx:171-174 | the checkbox sets backgroundChange to its checked state and changes nothing else |
| EnhancementOptions.SelectPreset | src/pages/Home.jsx:201-204 | a preset card sets the type to that preset's id, which is never "custom", and changes nothing else |
| EnhancementOptions.WithCustomBackground | src/pages/Home.jsx:73-78 | an upload sets the custom background to the new URL, turns replacement on and selects "custom"; the other fields are unchanged |
| EnhancementOptions.SetIntensity | src/pages/Home.jsx:257-260 | the slider sets the blend intensity and nothing else |
| EnhancementOptions.SetNotes | src/pages/Home.jsx:280-283 | the text area sets the reference notes and nothing else |
| EnhancementOptions.Apply | src/pages/Home.jsx:69-80 | of all the panel's controls, only a preset card and a custom upload with a picked file change the background type, and only that upload changes the custom background; a custom upload with no file picked leaves the options unchanged, and one with a file picked applies WithCustomBackground |
| EnhancementOptions.ShownKeepsPreset | src/pages/Home.jsx:189-214 | a control the page shows, applied to options with a preset type, leaves a preset type and the same custom background |
| EnhancementOptions.NeverCustom | src/pages/Home.jsx:189-245 | from a preset type, no run of shown controls ever selects "custom" or sets a custom background |
| Prompt.BackgroundFragment | src/api/HuggingFaceAPI.jsx:19-40 | a fragment exists exactly for studio, outdoor, blur, beach, office and custom |
| Prompt.BackgroundFragmentsDistinct | src/api/HuggingFaceAPI.jsx:20-39 | different background types never share a fragment |
| Prompt.BuildPrompt | src/api/HuggingFaceAPI.jsx:10-47 | the prompt built by successive appends equals PromptOf: preamble, each enabled switch clause in the order lighting, composition, colors, sharpness, the fragment of the selected type when replacement is on and the type is not "none", the quality clause, then the labelled notes when they are non-empty |
| Prompt.PromptRoundTrip | src/api/HuggingFaceAPI.jsx:10-47 | reading the prompt back from left to right recovers every switch, the background type whose fragment was added (none when replacement is off or the type is "none") and the notes |
| Prompt.PromptDeterminedByContent | src/api/HuggingFaceAPI.jsx:10-47 | two option records give the same prompt if and only if they agree on the switches, the background actually requested and the notes; intensity and the custom background URL never reach the prompt |
| Prompt.PromptFrame | src/api/HuggingFaceAPI.jsx:10-47 | every prompt starts with the preamble; it ends with the quality clause when the notes are empty, and otherwise with the quality clause, the label and the notes verbatim |
| Prompt.NoBackgroundClauseWhenOff | src/api/HuggingFaceAPI.jsx:19 | with replacement off or "none" selected, no fragment is added, even for "custom", and the prompt is the same as with replacement off |
| HuggingFaceApi.EnhanceImage | src/api/HuggingFaceAPI.jsx:1-118 | with no token nothing is sent and the fallback is returned; otherwise the generation endpoint gets PromptOf(options), the segmentation endpoint is contacted exactly when a background is wanted, and, whatever the segmentation outcome, the result is the generated image when generation succeeds and the fallback when it fails; the fallback is the file's data URL, or null when the read fails, and the result is null exactly when the fallback was taken and its read failed |
| Home.Session.constructor | src/pages/Home.jsx:8-30 | the page starts with no file, preview, result or time, not loading, with the default options |
| Home.Session.HandleSelect | src/pages/Home.jsx:41-46 | picking an image sets the file and its preview and clears the result and the time, keeping the options |
| Home.Session.StartEnhance | src/pages/Home.jsx:48-55 | starting a run sets loading and captures the file, the options and the start time that the client is called with |
| Home.Session.FinishEnhance | src/pages/Home.jsx:55-66 | a resolved call stores the value it resolved with (possibly null) as the result and records end minus start; a rejected one keeps result and time, so the settings panel comes back; loading ends either way |
| Home.Session.HandleEnhance | src/pages/Home.jsx:48-67 | with this client behind the await, a run ends with the generated image, or else the fallback of the chosen file; a result is shown unless the fallback read failed, in which case the settings panel comes back; the elapsed time is recorded either way, and file, preview and options are unchanged |
| Home.Session.ChangeOptions | src/pages/Home.jsx:120-283 | a control on the settings panel applies its update to the options and nothing else; the custom upload never becomes visible |
| Home.Session.StartNew | src/pages/Home.jsx:366-371 | "Start New" clears file, preview, result and time, returns to the uploader and keeps the options |
| Home.NothingShownWhileLoading | src/pages/Home.jsx:93-312 | while a run is pending the uploader, the settings panel and the result section are all hidden |
| Home.CustomUploadNeverShown | src/pages/Home.jsx:214 | in every reachable state the custom background upload is hidden |
| Home.ResultExcludesOtherPanels | src/pages/Home.jsx:120-312 | a shown result belongs to a chosen file, no run is pending, and the uploader and the settings panel are hidden |

## Left out

- Network, `fetch`, `FileReader`, `URL.createObjectURL`, `Date.now` and the environment token. These are I/O. Each remote call is replaced by its outcome, each created URL by a handle, each clock reading by a time parameter, and the token by an optional string.
- The generation request parameters and the negative prompt (HuggingFaceAPI.jsx:83-90). They are a fixed JSON body and are not modelled.
- The segmentation response. The source only logs it, so the model records just whether that endpoint was contacted.
- `fileToBase64` (HuggingFaceAPI.jsx:121-128). It is never called.
- Console logging and the failure `alert`. These are output only.
- The early return `if (!file) return` (Home.jsx:49). It is unreachable, because the generate button is rendered only when a file is chosen (Home.jsx:120).
- The `disabled={loading}` attribute (Home.jsx:293). It is subsumed by the same render condition.
- Concurrency between runs. A pending run is a single suspended request, and no handler can fire while it is pending.
- Home.Session.ChangeOptions: the slider's `parseInt` of the range input's value is modelled as any integer. The browser keeps it within 0 to 100, which the model does not bound.
- Revoking object URLs. The source never does it.
- The markup, `ImageUploader` (including its image type check), `ImagePreview`, `Loader` and `App`. These are presentation and are not part of this model.
- Home.jsx:334 hides a recorded time of zero. This is display only.
