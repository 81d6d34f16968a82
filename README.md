# Imagine: request/result state of an image-generation front end

Imagine is a single-page app. A user types a prompt, optionally attaches
images, and asks a hosted image-generation API for a batch of images. The app
prepends one placeholder per requested image to its results grid. When the
call settles, the app fills those placeholders with the returned images, or
removes them and shows an error. Going home abandons a generation in flight,
and the app must then ignore that generation's result.

This project models that core in Dafny:

- `Grid.dfy`: the results grid. It is an ordered list of items, each an id
  and an optional image source. The module has the list updates a generation
  applies when it starts, succeeds and fails. Its lemmas say which items
  survive, in what order and with what content.
- `App.dfy`: the root component's state as a class, `ImagineApp`.
  `handleGenerate` is split at its single `await`. `Generate` is the part
  before it, and `Resolve` runs once the call has settled. Going home,
  attaching and removing prompt images, the detail view, loading settings and
  the model switch are methods too. The cancellation object is a class of its
  own, `GenerationController`. Scenario methods at the end chain these calls
  the way the UI does.
- `PromptImages.dfy`: the prompt-image list updaters (add without
  duplicates, remove by position, remove by value).
- `Settings.dfy`: the settings record, the per-model image limit (4 for
  `imagen-4.0-generate-001`, 6 otherwise), the clamps applied on load and in
  the settings panel, the single-field update and the automatic model switch.
- `GeminiService.dfy`: the API client. It covers key resolution, the
  `data:<mime>;base64,<data>` parser and its round trip, the flattening of
  content-model responses into image URIs (imperative, three nested loops),
  the image-model result mapping, and the two generation entry points with
  their error prefixes. The remote API is a pair of function parameters. Each
  returns a response or an error message.
- `Wrappers.dfy`: `Option`, `Result` and a prefix test.

Four behaviours of the code that the model follows as written:

- The cancellation flag is not per batch. It sits on one shared object (see
  Findings).
- A loaded record is applied only when its `model` is truthy and its
  `numberOfImages` is defined. Its model may be any string, and every model
  other than Imagen gets the limit 6.
- Removing a prompt image at an out-of-range position leaves the list as it
  is.
- Closing the detail view removes every copy of the viewed image from the
  prompt. This happens even when the image was attached before it was viewed
  (`PromptImages.ViewThenClose`).

## Model

| member | source | states |
|---|---|---|
| `Grid.Placeholders` | App.tsx:273-274 | one placeholder without a source per id, in id order |
| `Grid.WithoutBatch` | App.tsx:302 | the failure filter keeps exactly the items whose id is not in the batch |
| `Grid.DropUnfilled` | App.tsx:295 | the success filter keeps an item unless it is in the batch and has no truthy source |
| `Grid.Reconciled` | App.tsx:284-296 | after success no batch item without a source remains |
| `Grid.Fill` | App.tsx:288-293 | the pass over the copied list keeps its length, so positions line up with the loop's index |
| `Grid.FillPointwise` | App.tsx:288-293 | position by position, the pass keeps every id, leaves items outside the batch as they were, and gives an item it changes one of the sources |
| `Grid.FillWithoutSources` | App.tsx:288 | once the sources run out, the pass changes nothing more |
| `Grid.FillOutsideBatch` | App.tsx:289 | a list with no batch item is left exactly as it was |
| `Grid.FillKeepsOthers` | App.tsx:288-293 | the filling pass leaves the non-batch items unchanged and in their order |
| `Grid.FillBatch` | App.tsx:288-293 | the j-th batch item in list order receives the j-th source while sources remain; later batch items keep their content |
| `Grid.DropUnfilledKeepsOthers` | App.tsx:295 | the final filter leaves the non-batch items unchanged and in their order |
| `Grid.DropUnfilledBatch` | App.tsx:295 | of the batch items, the final filter keeps exactly those with a source, in order |
| `Grid.ReconciledKeepsOthers` | App.tsx:284-296 | on success, items outside the batch are unchanged and keep their relative order |
| `Grid.ReconciledBatch` | App.tsx:284-296 | on success, with N placeholder batch items and k non-empty sources, exactly min(N, k) batch items remain, the j-th carrying the j-th source |
| `Grid.ReconciledFreshBatch` | App.tsx:273-296 | right after the prepend, success turns the grid into the first min(N, k) placeholders, each with the source of the same rank, followed by the earlier items exactly |
| `Grid.WithoutFreshBatch` | App.tsx:299-302 | right after the prepend, failure restores the grid to exactly what it was before the generation |
| `Grid.ReconcileSuccess` | App.tsx:284-296 | the index-and-counter loop over a copy of the list, followed by the filter, computes exactly `Reconciled` |
| `PromptImages.WithImage` | App.tsx:310-315 | the image ends up in the list; an image already present leaves the list unchanged; otherwise it is appended at the end and nothing else changes |
| `PromptImages.WithImageNoDuplicates` | App.tsx:310-315 | adding keeps a duplicate-free list duplicate-free |
| `PromptImages.WithoutPosition` | App.tsx:334 | an index-based filter drops exactly the element at the given position, or nothing when the position is outside the list |
| `PromptImages.WithoutIndex` | App.tsx:333-335 | removing index i deletes only position i and shortens the list by one; an out-of-range index leaves it unchanged |
| `PromptImages.WithoutImage` | App.tsx:324 | every copy of the image goes and every other image stays, each with as many copies as before |
| `PromptImages.WithoutImageConcat` | App.tsx:324 | the filter acts element by element: on a concatenation it filters each part and keeps the parts in order, so the surviving images keep their order |
| `PromptImages.ViewThenClose` | App.tsx:317-327 | viewing and then closing an image that was not attached restores the prompt list; for one that was attached, it removes every copy |
| `Settings.MaxImages` | components/SettingsModal.tsx:190 | the limit is 4 exactly for `imagen-4.0-generate-001` and 6 for every other model |
| `Settings.ClampImageCount` | components/SettingsModal.tsx:194-195 | the result never exceeds the limit; a count at or below the limit is kept; a count above it becomes the limit |
| `Settings.SliderRange` | components/SettingsModal.tsx:207-209 | the values lo, lo+1, ..., hi in order, and none when lo > hi |
| `Settings.SliderValues` | components/SettingsModal.tsx:206-209 | the slider offers 1..max in steps of 1 |
| `Settings.ClampedCountIsSelectable` | components/SettingsModal.tsx:193-209 | every positive count, once clamped, is a value the slider offers |
| `Settings.WithSetting` | components/SettingsModal.tsx:41-43 | the named field takes the new value and every other field keeps its value |
| `Settings.SettingChangeLaws` | components/SettingsModal.tsx:41-43 | writing a field's current value changes nothing, and a second write to the same field overrides the first |
| `Settings.PanelClamped` | components/SettingsModal.tsx:188-197 | the panel's effect leaves the count within the model's limit and changes only the count; a valid record is left as it is |
| `Settings.LoadedSettings` | App.tsx:62-72 | a record lacking a truthy model or a count is not applied; otherwise its fields are taken, with the count clamped to its model's limit |
| `Settings.SaveLoadRoundTrip` | App.tsx:59-86 | settings within their limit survive a save followed by a load |
| `Settings.LoadIdempotent` | App.tsx:65-71 | loading what a load produced gives the same settings again |
| `Settings.AutoSwitched` | App.tsx:88-96 | with prompt images the model becomes the editing model and nothing else changes; without them, or when already on it, nothing changes; the count stays within the limit |
| `GeminiService.GetClient` | services/geminiService.ts:5-11 | the given key when truthy, otherwise the environment key when truthy, otherwise the missing-key error |
| `GeminiService.ParseBase64` | services/geminiService.ts:84-90 | a success means the input is `data:` + mime + `;base64,` + data, with mime matching `image/[a-z]+` and data free of line terminators; a failure carries "Invalid base64 image string" |
| `GeminiService.LowerRun` | services/geminiService.ts:85 | the length of the maximal leading run of lower-case letters |
| `GeminiService.ParseBase64Complete` | services/geminiService.ts:84-90 | every string the pattern matches is accepted, and its two groups are returned |
| `GeminiService.ParseFormatRoundTrip` | services/geminiService.ts:85-89 | parsing a formatted data URI with a valid mime and data yields that mime and data |
| `GeminiService.FormatParseRoundTrip` | services/geminiService.ts:85-89 | a string that parses is the formatting of its parsed mime and data |
| `GeminiService.FormatDataUri` | services/geminiService.ts:27 | `data:`, then the mime type, then `;base64,`, then the data, each at its position |
| `GeminiService.AllImages` | services/geminiService.ts:20-33 | empty exactly when no part of any candidate of any response carries inline data; every entry is a `data:` URI |
| `GeminiService.FlattenEmpty` | services/geminiService.ts:21-33 | the nested collection is empty exactly when every inner collection is |
| `GeminiService.AllImagesEmpty` | services/geminiService.ts:20-35 | the responses yield no image exactly when no part carries inline data |
| `GeminiService.ProcessedImages` | services/geminiService.ts:19-40 | the error "Failed to generate any images from the model's response." exactly when no part carries inline data; otherwise every collected image, never none |
| `GeminiService.ProcessImageResponses` | services/geminiService.ts:19-40 | the three nested push loops return exactly one URI per inline part (responses, then candidates, then parts, skipping missing levels), or the error when there are none |
| `GeminiService.AllImagesAreDataUris` | services/geminiService.ts:26-27 | every image taken from responses is a `data:` URI |
| `GeminiService.AllImagesParse` | services/geminiService.ts:25-28 | images taken from well-formed parts parse back, so they can be attached as prompt images |
| `GeminiService.CallCount` | services/geminiService.ts:64 | `Array.from({ length: n })` makes n calls, and none for a negative n |
| `GeminiService.AllResponses` | services/geminiService.ts:104-114 | the awaited-together calls succeed iff every call succeeds, with the responses in call order; a failure is the error of one of the calls |
| `GeminiService.ImagenImages` | services/geminiService.ts:56-60 | an absent or empty image list fails with "The API did not return any images."; otherwise one URI per image |
| `GeminiService.ImagenImagesDecode` | services/geminiService.ts:60 | the i-th URI decodes to mime `image/jpeg` and exactly the i-th image's bytes |
| `GeminiService.Prefixed` | services/geminiService.ts:77-80 | a failure is re-raised as the prefix followed by the original message; a success passes through |
| `GeminiService.ImagenOutcome` | services/geminiService.ts:47-60 | the image model's error as raised, or `ImagenImages` of its response; a success is a non-empty list of data URIs |
| `GeminiService.ContentOutcome` | services/geminiService.ts:64-75 | the error of a failing call among the n awaited together, or `ProcessedImages` of all n responses; a success is a non-empty list of data URIs |
| `GeminiService.GenerateImages` | services/geminiService.ts:42-82 | with no usable key, "Could not generate images: " + the missing-key message; for the Imagen model, the prefixed outcome of one Imagen request with the prompt, the count and `image/jpeg`; otherwise the prefixed outcome of `CallCount(n)` content calls with the prompt as the only part and the text-to-image instruction; a success is a non-empty list of data URIs and every failure is the prefix + the inner message |
| `GeminiService.ImageParts` | services/geminiService.ts:96-99 | succeeds iff every image parses, giving one inline part per image in input order |
| `GeminiService.EditingParts` | services/geminiService.ts:96-102 | all image parts in input order, then the single text part; any unparsable image fails with the invalid-image message |
| `GeminiService.GenerateWithImages` | services/geminiService.ts:92-122 | with no usable key, the prefixed missing-key message; with an unparsable image, the prefixed invalid-image message and no call; otherwise the prefixed outcome of `CallCount(n)` content calls whose parts are `EditingParts(prompt, images)`, without instruction; a success is a non-empty list of data URIs and every failure starts with "Could not generate images with context: " |
| `App.DecimalNumeral` | App.tsx:252 | a non-empty string of decimal digits, with no leading zero from 10 on, that denotes exactly n |
| `App.SearchLabel` | App.tsx:252 | the prompt when it is non-empty; otherwise exactly "Remixing n image", with an `s` added exactly when n > 1 |
| `App.EffectiveApiKey` | App.tsx:265 | no key (use the environment's) exactly when the default key is selected, otherwise the typed key |
| `App.EffectiveKeyResolution` | App.tsx:265 | the default-key switch, or an empty typed key, leads to the environment key; otherwise the typed key is used |
| `App.RequestFor` | App.tsx:258-280 | the editing call exactly when images are attached, carrying exactly those images, with the snapshot of the prompt and settings |
| `App.GenerationOutcome` | App.tsx:277-280 | a text request settles to exactly what `generateImages` returns and an editing request to exactly what `generateWithImages` returns; a success is non-empty sources, and an error carries the client's prefix |
| `App.GenerationController.constructor` | App.tsx:55 | a new controller is not cancelled |
| `App.ImagineApp.constructor` | App.tsx:38-55 | the initial state: empty prompt, grid and images, not loading, no error, default settings |
| `App.ImagineApp.CanGenerate` | App.tsx:245 | never while loading; when not loading, whenever there is prompt text or an attached image; and a request it lets through carries a non-empty prompt or at least one image |
| `App.ImagineApp.Generate` | App.tsx:244-275 | rejected with no change while loading or with neither prompt nor images; otherwise it resets the shared flag, clears the prompt, images and error, sets the label and loading, and prepends the placeholders to the grid |
| `App.ImagineApp.GenerateScoped` | App.tsx:244-275 | as `Generate`, but the generation gets a fresh controller of its own |
| `App.ImagineApp.Start` | App.tsx:248-275 | the shared start of a generation: the state after the start, and the captured request and controller |
| `App.ImagineApp.Resolve` | App.tsx:277-307 | a cancelled generation changes nothing; success reconciles the grid; failure removes the batch and sets "Failed to generate images. " + message; loading ends |
| `App.ImagineApp.GoHome` | App.tsx:337-348 | cancels the flag if loading and clears the grid, label, error, prompt, detail view and images, keeping the settings |
| `App.ImagineApp.SetPrompt` | App.tsx:38 | only the prompt changes |
| `App.ImagineApp.AddImageToPrompt` | App.tsx:310-315 | only the prompt images change, by `WithImage` |
| `App.ImagineApp.ViewImage` | App.tsx:317-320 | opens the detail view on the image and attaches it |
| `App.ImagineApp.CloseDetailView` | App.tsx:322-327 | closes the view and, when an image was viewed, removes it from the prompt images |
| `App.ImagineApp.RemovePromptImage` | App.tsx:333-335 | only the prompt images change, by `WithoutIndex` |
| `App.ImagineApp.ClearError` | App.tsx:350-352 | only the error is cleared |
| `App.ImagineApp.LoadSettings` | App.tsx:59-77 | the settings become `LoadedSettings` of the parsed record, clamped in place; nothing else changes |
| `App.ImagineApp.ChangeSetting` | components/SettingsModal.tsx:41-43 | only the settings change, by a single-field update |
| `App.ImagineApp.ClampImageCountInPanel` | components/SettingsModal.tsx:193-197 | only the settings change, by `PanelClamped` |
| `App.ImagineApp.SyncEditingModel` | App.tsx:88-96 | only the settings change, by `AutoSwitched` on the number of attached images |
| `App.GenerateUninterrupted` | App.tsx:244-308 | an uninterrupted generation with the client's real behaviour: success yields the first min(N, k) placeholders filled in order, ahead of the earlier grid; failure restores the grid and shows the client's message |
| `App.GenerateThenGoHome` | App.tsx:282-348 | going home during a generation leaves the home screen untouched by the call's later success or failure |
| `App.StaleFailureAfterRestart` | App.tsx:247-248 | as written: an abandoned generation that fails after a new one has started still shows its error and ends loading |
| `App.StaleFailureAfterRestartScoped` | App.tsx:247-248 | with a controller per generation, the abandoned generation's outcome changes nothing, and the new generation stays loading with its placeholders |

## Left out

- Particle animation, canvas drawing and the skeleton loader's `Math.sin` pseudo-random numbers: floating point and rendering only.
- `localStorage` reads and writes and JSON parsing: `LoadSettings` takes an already-parsed record. A record with `apiKey` or `useDefaultApiKey` missing, or with values of unexpected JSON types, is not modelled.
- The `GoogleGenAI` client and its network calls: the two API functions are parameters. `Promise.all` concurrency is not modelled. When several calls fail, `AllResponses` reports the lowest-numbered failing call; the source reports whichever rejects first in time.
- `GeminiService.AllResponses`: states only that a failure is the error of some failing call, because which call rejects first depends on timing.
- Placeholder ids from `Date.now()` and `Math.random()`: the caller supplies them. Lemmas that need it require them disjoint from the ids already in the grid.
- Rejections that are not `Error` objects ("An unknown error occurred."): the client always throws `Error`, so the model carries every failure as a message string.
- `console.log` and `console.error`, React rendering, modals, timers, the prompt input's paste handling (clipboard and `FileReader`), `EditPromptInput` and `ImageGrid`: UI only.
- `GeminiService.ImagenImages` and `GeminiService.PartImages`: treat the optional fields of the SDK's responses as always present. A generated image without `image` makes the source throw a TypeError, which is re-raised with the "Could not generate images: " prefix. A missing `imageBytes`, `mimeType` or `data` puts the text "undefined" into the data URI. The model produces neither result.
- `Grid.ReconcileSuccess`: copies the list into a sequence, not a JavaScript array. The in-place write to the shared item objects, which React's earlier state also sees, is not modelled.
- `App.ImagineApp`: React batches state updates and re-renders; the model applies each handler's updates in order, at once.

## Findings

| source | as written | input that shows it | evidently intended | confidence | as-written member | corrected member |
|---|---|---|---|---|---|---|
| App.tsx:247-248 | every generation resets and captures the one shared controller, so going home cancels a generation only until the next one starts | start A, go home, type a prompt and start B, then A fails: A's error is shown and loading ends while B is still in flight | a generation abandoned by going home never touches the screen again, whatever starts afterwards | high, not executed | `App.StaleFailureAfterRestart` | `App.StaleFailureAfterRestartScoped` (using `App.ImagineApp.GenerateScoped`) |
