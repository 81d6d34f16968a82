/** The generation settings record of the app, the per-model limit on the
    number of images, and the three places that keep the image count within
    that limit: loading saved settings, the settings panel, and the automatic
    switch to the image-editing model. */
module Settings {
  import opened Wrappers

  const ImagenModel: string := "imagen-4.0-generate-001"
  const FlashImageModel: string := "gemini-2.5-flash-image-preview"

  /** `AppSettings`. The model is kept as the string the app stores, since a
      loaded record may carry any model name. */
  datatype AppSettings = AppSettings(
    apiKey: string,
    useDefaultApiKey: bool,
    model: string,
    numberOfImages: int)

  /** The settings the app starts with. */
  const DefaultSettings: AppSettings := AppSettings("", true, ImagenModel, 4)

  /** The largest image count the given model accepts. */
  function MaxImages(model: string): (m: int)
    ensures model == ImagenModel <==> m == 4
    ensures model != ImagenModel <==> m == 6
  {
    if model == ImagenModel then 4 else 6
  }

  /** The image count after the "too many for this model" correction. */
  function ClampImageCount(model: string, n: int): (r: int)
    ensures r <= MaxImages(model)
    ensures n <= MaxImages(model) ==> r == n
    ensures n > MaxImages(model) ==> r == MaxImages(model)
  {
    if n > MaxImages(model) then MaxImages(model) else n
  }

  /** The values the image-count slider offers: `lo`, `lo + 1`, ..., `hi`. */
  function SliderRange(lo: int, hi: int): (r: seq<int>)
    decreases hi - lo
    ensures |r| == if lo <= hi then hi - lo + 1 else 0
    ensures forall i :: 0 <= i < |r| ==> r[i] == lo + i
  {
    if lo > hi then [] else [lo] + SliderRange(lo + 1, hi)
  }

  /** The slider of the settings panel: from 1 to the model's maximum in steps of 1. */
  function SliderValues(model: string): (r: seq<int>)
    ensures |r| == MaxImages(model)
    ensures forall i :: 0 <= i < |r| ==> r[i] == i + 1
  {
    SliderRange(1, MaxImages(model))
  }

  /** Every positive count, once clamped, is a value the slider offers. */
  lemma ClampedCountIsSelectable(model: string, n: int)
    requires 1 <= n
    ensures ClampImageCount(model, n) in SliderValues(model)
  {
    var r := SliderValues(model);
    assert r[ClampImageCount(model, n) - 1] == ClampImageCount(model, n);
  }

  /** The field names of `AppSettings`. */
  datatype SettingKey = ApiKeyKey | UseDefaultApiKeyKey | ModelKey | NumberOfImagesKey

  /** A field name together with a value of that field's type, as
      `handleSettingChange(key, value)` receives them. */
  datatype SettingValue =
    | ApiKeyValue(apiKey: string)
    | UseDefaultApiKeyValue(useDefaultApiKey: bool)
    | ModelValue(model: string)
    | NumberOfImagesValue(numberOfImages: int)
  {
    function Key(): SettingKey {
      match this
      case ApiKeyValue(_) => ApiKeyKey
      case UseDefaultApiKeyValue(_) => UseDefaultApiKeyKey
      case ModelValue(_) => ModelKey
      case NumberOfImagesValue(_) => NumberOfImagesKey
    }
  }

  /** Reads one field of a settings record. */
  function Get(s: AppSettings, k: SettingKey): (v: SettingValue)
    ensures v.Key() == k
  {
    match k
    case ApiKeyKey => ApiKeyValue(s.apiKey)
    case UseDefaultApiKeyKey => UseDefaultApiKeyValue(s.useDefaultApiKey)
    case ModelKey => ModelValue(s.model)
    case NumberOfImagesKey => NumberOfImagesValue(s.numberOfImages)
  }

  /** `{ ...prev, [key]: value }`: the field named by `v` takes `v`'s value and
      every other field keeps its value. */
  function WithSetting(s: AppSettings, v: SettingValue): (r: AppSettings)
    ensures Get(r, v.Key()) == v
    ensures forall k :: k != v.Key() ==> Get(r, k) == Get(s, k)
  {
    match v
    case ApiKeyValue(x) => s.(apiKey := x)
    case UseDefaultApiKeyValue(x) => s.(useDefaultApiKey := x)
    case ModelValue(x) => s.(model := x)
    case NumberOfImagesValue(x) => s.(numberOfImages := x)
  }

  /** Two records that agree on every field are the same record. */
  lemma SettingsExtensional(s: AppSettings, t: AppSettings)
    requires forall k :: Get(s, k) == Get(t, k)
    ensures s == t
  {
    assert Get(s, ApiKeyKey) == Get(t, ApiKeyKey);
    assert Get(s, UseDefaultApiKeyKey) == Get(t, UseDefaultApiKeyKey);
    assert Get(s, ModelKey) == Get(t, ModelKey);
    assert Get(s, NumberOfImagesKey) == Get(t, NumberOfImagesKey);
  }

  /** Setting a field to the value it already has changes nothing, and a
      second change of the same field overrides the first. */
  lemma {:induction false} SettingChangeLaws(s: AppSettings, v: SettingValue, w: SettingValue)
    requires v.Key() == w.Key()
    ensures WithSetting(s, Get(s, v.Key())) == s
    ensures WithSetting(WithSetting(s, v), w) == WithSetting(s, w)
  {
    SettingsExtensional(WithSetting(s, Get(s, v.Key())), s);
    SettingsExtensional(WithSetting(WithSetting(s, v), w), WithSetting(s, w));
  }

  /** The correction the settings panel applies while it is shown: a count above
      the model's maximum is replaced by the maximum through the ordinary
      single-field change. */
  function PanelClamped(s: AppSettings): (r: AppSettings)
    ensures r.numberOfImages <= MaxImages(r.model)
    ensures r.numberOfImages == ClampImageCount(s.model, s.numberOfImages)
    ensures forall k :: k != NumberOfImagesKey ==> Get(r, k) == Get(s, k)
    ensures s.numberOfImages <= MaxImages(s.model) ==> r == s
  {
    if s.numberOfImages > MaxImages(s.model)
    then WithSetting(s, NumberOfImagesValue(MaxImages(s.model)))
    else s
  }

  /** A settings record as read back from storage. `model` and
      `numberOfImages` may be absent (`None`); an empty model string is falsy. */
  datatype StoredSettings = StoredSettings(
    apiKey: string,
    useDefaultApiKey: bool,
    model: Option<string>,
    numberOfImages: Option<int>)

  /** The record the app writes to storage for the given settings. */
  function Stored(s: AppSettings): StoredSettings {
    StoredSettings(s.apiKey, s.useDefaultApiKey, Some(s.model), Some(s.numberOfImages))
  }

  /** A stored record is applied only when it names a (non-empty) model and an image count. */
  predicate IsApplicable(rec: StoredSettings) {
    Truthy(rec.model) && rec.numberOfImages.Some?
  }

  /** The settings after loading `rec` over `current`: an applicable record
      replaces the settings, its count clamped to its model's maximum; any
      other record leaves the settings as they are. */
  function LoadedSettings(current: AppSettings, rec: StoredSettings): (r: AppSettings)
    ensures !IsApplicable(rec) ==> r == current
    ensures IsApplicable(rec) ==>
      && r.apiKey == rec.apiKey
      && r.useDefaultApiKey == rec.useDefaultApiKey
      && r.model == rec.model.value
      && r.numberOfImages == ClampImageCount(rec.model.value, rec.numberOfImages.value)
  {
    if IsApplicable(rec) then
      var model := rec.model.value;
      var n := rec.numberOfImages.value;
      AppSettings(rec.apiKey, rec.useDefaultApiKey, model, ClampImageCount(model, n))
    else current
  }

  /** Settings within their limit survive a save followed by a load unchanged,
      whatever the settings were before the load. */
  lemma SaveLoadRoundTrip(current: AppSettings, s: AppSettings)
    requires s.model != "" && s.numberOfImages <= MaxImages(s.model)
    ensures LoadedSettings(current, Stored(s)) == s
  {
  }

  /** Loading is idempotent: saving what was loaded and loading it again gives the same settings. */
  lemma LoadIdempotent(current: AppSettings, rec: StoredSettings)
    requires IsApplicable(rec)
    ensures LoadedSettings(current, Stored(LoadedSettings(current, rec))) == LoadedSettings(current, rec)
  {
    SaveLoadRoundTrip(current, LoadedSettings(current, rec));
  }

  /** The automatic switch made when prompt images are present: the model
      becomes the image-editing model and nothing else changes. */
  function AutoSwitched(s: AppSettings, promptImageCount: nat): (r: AppSettings)
    ensures promptImageCount > 0 ==> r.model == FlashImageModel
    ensures promptImageCount == 0 || s.model == FlashImageModel ==> r == s
    ensures forall k :: k != ModelKey ==> Get(r, k) == Get(s, k)
    ensures s.numberOfImages <= MaxImages(s.model) ==> r.numberOfImages <= MaxImages(r.model)
  {
    if promptImageCount > 0 && s.model != FlashImageModel
    then WithSetting(s, ModelValue(FlashImageModel))
    else s
  }
}
