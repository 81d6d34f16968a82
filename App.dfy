/** The app's request/result state: a class holding the state the root
    component keeps (prompt, attached images, results grid, loading flag,
    error, detail view, settings) and the cancellation object a generation in
    flight checks. A generation is split at its single await: `Generate` is
    everything before it, `Resolve` everything after it, and whatever runs
    in between (going home, another generation) runs between the two calls. */
module App {
  import opened Wrappers
  import opened Settings
  import opened Grid
  import opened PromptImages
  import GeminiService

  const FailurePrefix: string := "Failed to generate images. "

  function Digit(d: nat): (c: char)
    requires d < 10
    ensures '0' <= c <= '9'
  {
    ('0' as int + d) as char
  }

  /** The number a string of decimal digits denotes, most significant digit first. */
  function NumeralValue(s: string): int {
    if s == [] then 0 else NumeralValue(s[..|s| - 1]) * 10 + (s[|s| - 1] as int - '0' as int)
  }

  /** The decimal numeral of `n`, as a template literal renders it. */
  function DecimalNumeral(n: nat): (r: string)
    ensures |r| >= 1
    ensures forall i :: 0 <= i < |r| ==> '0' <= r[i] <= '9'
    ensures n >= 10 ==> r[0] != '0'
    ensures NumeralValue(r) == n
  {
    if n < 10 then
      var r := [Digit(n)];
      assert r[..0] == [];
      r
    else
      var r := DecimalNumeral(n / 10) + [Digit(n % 10)];
      assert r[..|r| - 1] == DecimalNumeral(n / 10);
      r
  }

  /** The label shown above the grid for a generation: the prompt, or when
      there is none a "Remixing" line naming the number of attached images,
      with a plural above one. */
  function SearchLabel(prompt: string, imageCount: nat): (text: string)
    ensures prompt != "" ==> text == prompt
    ensures prompt == "" ==> StartsWith(text, "Remixing " + DecimalNumeral(imageCount) + " image")
    ensures prompt == "" ==> (text[|text| - 1] == 's' <==> imageCount > 1)
    ensures prompt == "" ==>
      |text| == |"Remixing " + DecimalNumeral(imageCount) + " image"| + (if imageCount > 1 then 1 else 0)
  {
    if prompt != "" then prompt
    else "Remixing " + DecimalNumeral(imageCount) + " image" + (if imageCount > 1 then "s" else "")
  }

  /** The key sent to the client: none (use the environment's) when the
      default key is selected, otherwise the typed key. */
  function EffectiveApiKey(s: AppSettings): (k: Option<string>)
    ensures k.None? <==> s.useDefaultApiKey
    ensures !s.useDefaultApiKey ==> k == Some(s.apiKey)
  {
    if s.useDefaultApiKey then None else Some(s.apiKey)
  }

  /** The default-key switch overrides any typed key, and an empty typed key
      falls back to the environment's. */
  lemma EffectiveKeyResolution(s: AppSettings, envKey: Option<string>)
    ensures s.useDefaultApiKey || s.apiKey == "" ==>
      GeminiService.GetClient(EffectiveApiKey(s), envKey) == GeminiService.GetClient(None, envKey)
    ensures !s.useDefaultApiKey && s.apiKey != "" ==>
      GeminiService.GetClient(EffectiveApiKey(s), envKey) == Ok(s.apiKey)
  {
  }

  function GenerationSettingsOf(s: AppSettings): GeminiService.GenerationSettings {
    GeminiService.GenerationSettings(EffectiveApiKey(s), s.numberOfImages, s.model)
  }

  /** The call a generation makes: with attached images the editing call, otherwise the text call. */
  datatype GenerationRequest =
    | TextRequest(prompt: string, settings: GeminiService.GenerationSettings)
    | EditRequest(prompt: string, images: seq<string>, settings: GeminiService.GenerationSettings)

  function RequestFor(prompt: string, images: seq<string>, s: AppSettings): (r: GenerationRequest)
    ensures r.EditRequest? <==> images != []
    ensures r.EditRequest? ==> r.images == images
    ensures r.prompt == prompt && r.settings == GenerationSettingsOf(s)
  {
    if |images| > 0 then EditRequest(prompt, images, GenerationSettingsOf(s))
    else TextRequest(prompt, GenerationSettingsOf(s))
  }

  /** What the awaited call settles to, given the remote API. Success always
      carries non-empty sources; failure carries the client's prefixed message. */
  function GenerationOutcome(req: GenerationRequest, envKey: Option<string>,
                             imagen: GeminiService.ImagenApi, content: GeminiService.ContentApi)
    : (r: Result<seq<string>, string>)
    ensures r.Ok? ==> r.value != [] && AllTruthy(r.value)
    ensures r.Err? ==> StartsWith(r.error, "Could not generate images")
    ensures req.TextRequest? ==> r == GeminiService.GenerateImages(req.prompt, req.settings, envKey, imagen, content)
    ensures req.EditRequest? ==> r == GeminiService.GenerateWithImages(req.prompt, req.images, req.settings, envKey, content)
  {
    if req.TextRequest? then
      var r := GeminiService.GenerateImages(req.prompt, req.settings, envKey, imagen, content);
      SettledCall(r, GeminiService.GenerateErrorPrefix);
      r
    else
      var r := GeminiService.GenerateWithImages(req.prompt, req.images, req.settings, envKey, content);
      SettledCall(r, GeminiService.GenerateWithContextErrorPrefix);
      r
  }

  /** What either client call settles to meets the outcome's contract: a data
      URI is never empty, and both error prefixes extend the common one. */
  lemma SettledCall(r: Result<seq<string>, string>, prefix: string)
    requires StartsWith(prefix, "Could not generate images")
    requires r.Err? ==> StartsWith(r.error, prefix)
    requires r.Ok? ==> r.value != [] && forall y :: y in r.value ==> GeminiService.IsDataUri(y)
    ensures r.Ok? ==> AllTruthy(r.value)
    ensures r.Err? ==> StartsWith(r.error, "Could not generate images")
  {
    if r.Ok? {
      forall j | 0 <= j < |r.value|
        ensures r.value[j] != ""
      {
        assert r.value[j] in r.value;
      }
    } else {
      var p := "Could not generate images";
      assert r.error[..|p|] == r.error[..|prefix|][..|p|] == prefix[..|p|];
    }
  }

  /** `generationControllerRef.current`. */
  class GenerationController {
    var isCancelled: bool

    constructor()
      ensures !isCancelled
    {
      isCancelled := false;
    }
  }

  /** What a generation holds on to across its await: its placeholder ids,
      the request, and the controller it captured. */
  datatype PendingGeneration = PendingGeneration(
    placeholderIds: seq<string>,
    request: GenerationRequest,
    controller: GenerationController)

  /** A snapshot of the app's state variables. */
  datatype AppView = AppView(
    prompt: string,
    currentSearch: string,
    gridItems: seq<GridItem>,
    isLoading: bool,
    error: Option<string>,
    detailViewImage: Option<string>,
    promptImages: seq<string>,
    settings: AppSettings,
    controller: GenerationController)

  class ImagineApp {
    var prompt: string
    var currentSearch: string
    var gridItems: seq<GridItem>
    var isLoading: bool
    var error: Option<string>
    var detailViewImage: Option<string>
    var promptImages: seq<string>
    var settings: AppSettings
    var controller: GenerationController

    function View(): AppView
      reads this
    {
      AppView(prompt, currentSearch, gridItems, isLoading, error, detailViewImage, promptImages, settings, controller)
    }

    constructor()
      ensures View() == AppView("", "", [], false, None, None, [], DefaultSettings, controller)
      ensures fresh(controller) && !controller.isCancelled
    {
      prompt, currentSearch, gridItems := "", "", [];
      isLoading, error, detailViewImage := false, None, None;
      promptImages, settings := [], DefaultSettings;
      controller := new GenerationController();
    }

    /** Whether `handleGenerate` goes ahead: not while loading, and not with
        neither prompt text nor attached images. */
    predicate CanGenerate(): (r: bool)
      reads this
      ensures r ==> !isLoading
      ensures r ==> var req := RequestFor(prompt, promptImages, settings);
        req.prompt != "" || (req.EditRequest? && req.images != [])
      ensures !isLoading && (prompt != "" || promptImages != []) ==> r
    {
      !isLoading && (prompt != "" || promptImages != [])
    }

    /** `handleGenerate` up to its await. `freshIds` are the placeholder ids
        the environment supplies, one per requested image. The cancellation
        flag is reset on the one shared controller, which the generation
        captures. */
    method Generate(freshIds: seq<string>) returns (pending: Option<PendingGeneration>)
      requires |freshIds| == GeminiService.CallCount(settings.numberOfImages)
      modifies this, controller
      ensures controller == old(controller)
      ensures !old(CanGenerate()) ==>
        pending.None? && View() == old(View()) && controller.isCancelled == old(controller.isCancelled)
      ensures old(CanGenerate()) ==>
        && pending == Some(PendingGeneration(freshIds, RequestFor(old(prompt), old(promptImages), old(settings)), controller))
        && !controller.isCancelled
        && View() == old(StartedView(freshIds))
    {
      if isLoading || (prompt == "" && |promptImages| == 0) {
        return None;
      }
      controller.isCancelled := false;
      var started := Start(freshIds);
      pending := Some(started);
    }

    /** A variant of `Generate` in which every generation gets a controller of
        its own, so that cancelling one generation cannot be undone by the
        next. */
    method GenerateScoped(freshIds: seq<string>) returns (pending: Option<PendingGeneration>)
      requires |freshIds| == GeminiService.CallCount(settings.numberOfImages)
      modifies this
      ensures !old(CanGenerate()) ==> pending.None? && View() == old(View())
      ensures old(CanGenerate()) ==>
        && fresh(controller) && !controller.isCancelled
        && pending == Some(PendingGeneration(freshIds, RequestFor(old(prompt), old(promptImages), old(settings)), controller))
        && View() == old(StartedView(freshIds)).(controller := controller)
    {
      if isLoading || (prompt == "" && |promptImages| == 0) {
        return None;
      }
      controller := new GenerationController();
      var started := Start(freshIds);
      pending := Some(started);
    }

    /** The state right after a generation with the given placeholder ids started. */
    function StartedView(freshIds: seq<string>): AppView
      reads this
    {
      View().(
        prompt := "", promptImages := [],
        detailViewImage := if Truthy(detailViewImage) then None else detailViewImage,
        isLoading := true, error := None,
        currentSearch := SearchLabel(prompt, |promptImages|),
        gridItems := Placeholders(freshIds) + gridItems)
    }

    /** The part of `handleGenerate` before its await that both variants share. */
    method Start(freshIds: seq<string>) returns (pending: PendingGeneration)
      modifies this
      ensures controller == old(controller)
      ensures pending == PendingGeneration(freshIds, RequestFor(old(prompt), old(promptImages), old(settings)), controller)
      ensures View() == old(StartedView(freshIds))
    {
      var currentController := controller;
      isLoading := true;
      error := None;
      currentSearch := SearchLabel(prompt, |promptImages|);
      if Truthy(detailViewImage) {
        detailViewImage := None;
      }
      var request := RequestFor(prompt, promptImages, settings);
      prompt := "";
      promptImages := [];
      gridItems := Placeholders(freshIds) + gridItems;
      pending := PendingGeneration(freshIds, request, currentController);
    }

    /** `handleGenerate` after its await, once the call settled to `outcome`.
        A cancelled generation touches nothing; otherwise success fills the
        batch's placeholders, failure removes them and sets the prefixed
        error, and loading ends. */
    method Resolve(pending: PendingGeneration, outcome: Result<seq<string>, string>)
      modifies this
      ensures pending.controller.isCancelled ==> View() == old(View())
      ensures !pending.controller.isCancelled && outcome.Ok? ==>
        View() == old(View()).(
          isLoading := false,
          gridItems := Reconciled(old(gridItems), pending.placeholderIds, outcome.value))
      ensures !pending.controller.isCancelled && outcome.Err? ==>
        View() == old(View()).(
          isLoading := false,
          error := Some(FailurePrefix + outcome.error),
          gridItems := WithoutBatch(old(gridItems), pending.placeholderIds))
      ensures controller == old(controller)
    {
      var currentController := pending.controller;
      match outcome {
      case Ok(generatedSrcs) =>
        if currentController.isCancelled {
          return;
        }
        var reconciled := ReconcileSuccess(gridItems, pending.placeholderIds, generatedSrcs);
        gridItems := reconciled;
      case Err(message) =>
        if currentController.isCancelled {
          return;
        }
        error := Some(FailurePrefix + message);
        gridItems := WithoutBatch(gridItems, pending.placeholderIds);
      }
      // finally
      if currentController.isCancelled {
        return;
      }
      isLoading := false;
    }

    /** `handleGoHome`: cancels a generation in flight and clears the screen. */
    method GoHome()
      modifies this, controller
      ensures controller == old(controller)
      ensures controller.isCancelled == (old(controller.isCancelled) || old(isLoading))
      ensures View() == AppView("", "", [], false, None, None, [], old(settings), old(controller))
    {
      if isLoading {
        controller.isCancelled := true;
        isLoading := false;
      }
      gridItems := [];
      currentSearch := "";
      error := None;
      prompt := "";
      detailViewImage := None;
      promptImages := [];
    }

    method SetPrompt(text: string)
      modifies this
      ensures View() == old(View()).(prompt := text)
    {
      prompt := text;
    }

    /** `handleAddImageToPrompt` (also what a pasted image does). */
    method AddImageToPrompt(image: string)
      modifies this
      ensures View() == old(View()).(promptImages := WithImage(old(promptImages), image))
    {
      if image in promptImages {
        return;
      }
      promptImages := promptImages + [image];
    }

    /** `handleViewImage`: opens the detail view and attaches the image. */
    method ViewImage(image: string)
      modifies this
      ensures View() == old(View()).(detailViewImage := Some(image), promptImages := WithImage(old(promptImages), image))
    {
      detailViewImage := Some(image);
      AddImageToPrompt(image);
    }

    /** `handleCloseDetailView`: detaches the viewed image and closes the view. */
    method CloseDetailView()
      modifies this
      ensures var viewed := old(detailViewImage);
        View() == old(View()).(
          detailViewImage := None,
          promptImages := if Truthy(viewed) then WithoutImage(old(promptImages), viewed.value)
                          else old(promptImages))
    {
      if Truthy(detailViewImage) {
        promptImages := WithoutImage(promptImages, detailViewImage.value);
      }
      detailViewImage := None;
    }

    /** `handleRemovePromptImage`. */
    method RemovePromptImage(indexToRemove: int)
      modifies this
      ensures View() == old(View()).(promptImages := WithoutIndex(old(promptImages), indexToRemove))
    {
      promptImages := WithoutIndex(promptImages, indexToRemove);
    }

    /** `handleClearError`. */
    method ClearError()
      modifies this
      ensures View() == old(View()).(error := None)
    {
      error := None;
    }

    /** The load effect, applied to a record already read and parsed: an
        applicable record replaces the settings after its count is clamped
        in place. */
    method LoadSettings(parsed: StoredSettings)
      modifies this
      ensures View() == old(View()).(settings := LoadedSettings(old(settings), parsed))
      ensures settings.numberOfImages <= MaxImages(settings.model) || settings == old(settings)
    {
      if Truthy(parsed.model) && parsed.numberOfImages.Some? {
        var record := parsed;
        var maxImages := if record.model.value == ImagenModel then 4 else 6;
        if record.numberOfImages.value > maxImages {
          record := record.(numberOfImages := Some(maxImages));
        }
        settings := AppSettings(record.apiKey, record.useDefaultApiKey, record.model.value, record.numberOfImages.value);
      }
    }

    /** `handleSettingChange` of the settings panel. */
    method ChangeSetting(v: SettingValue)
      modifies this
      ensures View() == old(View()).(settings := WithSetting(old(settings), v))
    {
      settings := WithSetting(settings, v);
    }

    /** The panel's effect that brings a too-large count down to the model's maximum. */
    method ClampImageCountInPanel()
      modifies this
      ensures View() == old(View()).(settings := PanelClamped(old(settings)))
    {
      var maxImages := MaxImages(settings.model);
      if settings.numberOfImages > maxImages {
        ChangeSetting(NumberOfImagesValue(maxImages));
      }
    }

    /** The effect that switches to the editing model while images are attached. */
    method SyncEditingModel()
      modifies this
      ensures View() == old(View()).(settings := AutoSwitched(old(settings), |old(promptImages)|))
    {
      if |promptImages| > 0 && settings.model != FlashImageModel {
        settings := settings.(model := FlashImageModel);
      }
    }
  }

  /** A generation that nothing interrupts, with the client's own behaviour
      standing for the awaited call. On success the grid becomes the first
      min(N, k) placeholders, in order, each with the source of the same rank,
      followed by the earlier items unchanged; on failure the grid is what it
      was before and the error carries the client's message. */
  method GenerateUninterrupted(app: ImagineApp, freshIds: seq<string>, envKey: Option<string>,
                               imagen: GeminiService.ImagenApi, content: GeminiService.ContentApi)
    returns (outcome: Result<seq<string>, string>)
    requires app.CanGenerate()
    requires |freshIds| == GeminiService.CallCount(app.settings.numberOfImages)
    requires Disjoint(app.gridItems, freshIds)
    modifies app, app.controller
    ensures !app.isLoading && app.prompt == "" && app.promptImages == []
    ensures app.currentSearch == SearchLabel(old(app.prompt), |old(app.promptImages)|)
    ensures outcome == GenerationOutcome(RequestFor(old(app.prompt), old(app.promptImages), old(app.settings)),
                                         envKey, imagen, content)
    ensures outcome.Ok? ==> app.gridItems == Fulfilled(freshIds, outcome.value) + old(app.gridItems) && app.error.None?
    ensures outcome.Err? ==> app.gridItems == old(app.gridItems) && app.error == Some(FailurePrefix + outcome.error)
  {
    var pending := app.Generate(freshIds);
    outcome := GenerationOutcome(pending.value.request, envKey, imagen, content);
    app.Resolve(pending.value, outcome);
    if outcome.Ok? {
      ReconciledFreshBatch(freshIds, freshIds, old(app.gridItems), outcome.value);
    } else {
      WithoutFreshBatch(freshIds, old(app.gridItems));
    }
  }

  /** Going home while a generation is in flight: whatever the call settles
      to, the screen stays as going home left it. */
  method GenerateThenGoHome(app: ImagineApp, freshIds: seq<string>, outcome: Result<seq<string>, string>)
    requires app.CanGenerate()
    requires |freshIds| == GeminiService.CallCount(app.settings.numberOfImages)
    modifies app, app.controller
    ensures app.View() == AppView("", "", [], false, None, None, [], old(app.settings), old(app.controller))
  {
    var pending := app.Generate(freshIds);
    app.GoHome();
    app.Resolve(pending.value, outcome);
  }

  /** As written: generation A is abandoned by going home, generation B is
      started, then A fails. Because both share one controller whose flag B
      reset, A's failure is not discarded: the error is shown and loading
      ends while B is still in flight. */
  method StaleFailureAfterRestart(app: ImagineApp, idsA: seq<string>, nextPrompt: string, idsB: seq<string>,
                                  failure: string)
    returns (pendingB: Option<PendingGeneration>)
    requires app.CanGenerate() && nextPrompt != ""
    requires |idsA| == |idsB| == GeminiService.CallCount(app.settings.numberOfImages)
    modifies app, app.controller
    ensures pendingB.Some?
    ensures app.error == Some(FailurePrefix + failure) && !app.isLoading
  {
    var pendingA := app.Generate(idsA);
    app.GoHome();
    app.SetPrompt(nextPrompt);
    pendingB := app.Generate(idsB);
    app.Resolve(pendingA.value, Err(failure));
  }

  /** The same sequence with a controller per generation: A's settling
      changes nothing, and B's placeholders, loading state and empty error
      stay as B's start left them. */
  method StaleFailureAfterRestartScoped(app: ImagineApp, idsA: seq<string>, nextPrompt: string, idsB: seq<string>,
                                        outcomeA: Result<seq<string>, string>)
    returns (pendingB: Option<PendingGeneration>)
    requires app.CanGenerate() && nextPrompt != ""
    requires |idsA| == |idsB| == GeminiService.CallCount(app.settings.numberOfImages)
    modifies app, app.controller
    ensures pendingB.Some? && !pendingB.value.controller.isCancelled
    ensures app.error.None? && app.isLoading && app.gridItems == Placeholders(idsB)
    ensures app.currentSearch == nextPrompt
  {
    var pendingA := app.GenerateScoped(idsA);
    app.GoHome();
    app.SetPrompt(nextPrompt);
    pendingB := app.GenerateScoped(idsB);
    app.Resolve(pendingA.value, outcomeA);
  }
}
