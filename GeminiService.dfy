/** The client of the hosted image-generation API: API key resolution, the
    `data:<mime>;base64,<data>` image encoding in both directions, the
    flattening of model responses into image URIs, and the two generation
    entry points with their error wrapping. The remote API itself is a
    parameter: a function from a request to a response or an error message. */
module GeminiService {
  import opened Wrappers
  import Settings

  const MissingKeyMessage: string :=
    "API key is missing. Please configure it in the settings or as an environment variable."
  const NoImagesInResponsesMessage: string := "Failed to generate any images from the model's response."
  const NoGeneratedImagesMessage: string := "The API did not return any images."
  const InvalidImageMessage: string := "Invalid base64 image string"
  const GenerateErrorPrefix: string := "Could not generate images: "
  const GenerateWithContextErrorPrefix: string := "Could not generate images with context: "
  const TextToImageInstruction: string :=
    "You are an image generation model. Given a prompt, you must generate an image. Do not respond with text, only with an image."

  /** `getClient`: the key the client is built with, the given key when it is
      truthy, otherwise the environment's key when that is truthy; otherwise
      the missing-key error. */
  function GetClient(apiKey: Option<string>, envKey: Option<string>): (r: Result<string, string>)
    ensures Truthy(apiKey) ==> r == Ok(apiKey.value)
    ensures !Truthy(apiKey) && Truthy(envKey) ==> r == Ok(envKey.value)
    ensures !Truthy(apiKey) && !Truthy(envKey) ==> r == Err(MissingKeyMessage)
  {
    var keyToUse := if Truthy(apiKey) then apiKey else envKey;
    if !Truthy(keyToUse) then Err(MissingKeyMessage) else Ok(keyToUse.value)
  }

  // ---------------------------------------------------------------------
  // Data URIs
  // ---------------------------------------------------------------------

  /** `{ mimeType, data }`, the pair carried by an inline image part. */
  datatype InlineData = InlineData(mimeType: string, data: string)

  /** The text form of an inline image: `data:`, the mime type, the
      `;base64,` marker, then the data. */
  function FormatDataUri(mimeType: string, data: string): (s: string)
    ensures |s| == 5 + |mimeType| + 8 + |data|
    ensures s[..5] == "data:" && s[5..5 + |mimeType|] == mimeType
    ensures s[5 + |mimeType|..13 + |mimeType|] == ";base64," && s[13 + |mimeType|..] == data
  {
    "data:" + mimeType + ";base64," + data
  }

  predicate IsLowerAscii(c: char) {
    'a' <= c <= 'z'
  }

  /** `image/[a-z]+` */
  predicate IsImageMime(m: string) {
    |m| > 6 && m[..6] == "image/" && forall i :: 6 <= i < |m| ==> IsLowerAscii(m[i])
  }

  /** The characters a JavaScript `.` does not match. */
  predicate IsLineTerminator(c: char) {
    c == '\n' || c == '\r' || c == '\U{2028}' || c == '\U{2029}'
  }

  predicate NoLineTerminator(s: string) {
    forall i :: 0 <= i < |s| ==> !IsLineTerminator(s[i])
  }

  /** `s` matches `^data:(image\/[a-z]+);base64,(.*)$` with `mime` and `data` as the two groups. */
  predicate MatchesDataUri(s: string, mime: string, data: string) {
    s == FormatDataUri(mime, data) && IsImageMime(mime) && NoLineTerminator(data)
  }

  /** The length of the run of lower-case letters `s` starts with. */
  function LowerRun(s: string): (n: nat)
    ensures n <= |s|
    ensures forall i :: 0 <= i < n ==> IsLowerAscii(s[i])
    ensures n < |s| ==> !IsLowerAscii(s[n])
  {
    if s == [] || !IsLowerAscii(s[0]) then 0 else 1 + LowerRun(s[1..])
  }

  /** A data URI laid out as the parser reads it: a run of lower-case
      letters after `data:image/`, then the marker and the data. */
  lemma DataUriLayout(letters: string, data: string)
    requires letters != [] && forall i :: 0 <= i < |letters| ==> IsLowerAscii(letters[i])
    ensures "data:image/" + (letters + (";base64," + data)) == FormatDataUri("image/" + letters, data)
    ensures IsImageMime("image/" + letters)
  {
    var mime := "image/" + letters;
    assert mime[..6] == "image/";
    assert forall i :: 6 <= i < |mime| ==> mime[i] == letters[i - 6];
  }

  /** `parseBase64`: the mime type and data of a data URI, or the invalid-image error. */
  function ParseBase64(s: string): (r: Result<InlineData, string>)
    ensures r.Ok? ==> MatchesDataUri(s, r.value.mimeType, r.value.data)
    ensures r.Err? ==> r.error == InvalidImageMessage
  {
    var head := "data:image/";
    var marker := ";base64,";
    if !StartsWith(s, head) then Err(InvalidImageMessage)
    else
      var rest := s[|head|..];
      var n := LowerRun(rest);
      var tail := rest[n..];
      if n == 0 || !StartsWith(tail, marker) || !NoLineTerminator(tail[|marker|..]) then
        Err(InvalidImageMessage)
      else
        var r := InlineData("image/" + rest[..n], tail[|marker|..]);
        assert s == head + rest;
        assert rest == rest[..n] + tail;
        assert tail == marker + r.data;
        DataUriLayout(rest[..n], r.data);
        Ok(r)
  }

  /** A run of lower-case letters followed by a character that is not one is measured exactly. */
  lemma {:induction false} LowerRunOfLetters(letters: string, tail: string)
    requires forall i :: 0 <= i < |letters| ==> IsLowerAscii(letters[i])
    requires tail != [] && !IsLowerAscii(tail[0])
    ensures LowerRun(letters + tail) == |letters|
  {
    if letters != [] {
      assert (letters + tail)[1..] == letters[1..] + tail;
      LowerRunOfLetters(letters[1..], tail);
    }
  }

  /** `parseBase64` accepts every string the pattern matches, and returns its two groups. */
  lemma ParseBase64Complete(s: string, mime: string, data: string)
    requires MatchesDataUri(s, mime, data)
    ensures ParseBase64(s) == Ok(InlineData(mime, data))
  {
    var head := "data:image/";
    var marker := ";base64,";
    var letters := mime[6..];
    assert mime == "image/" + letters;
    var tail := marker + data;
    var rest := letters + tail;
    assert s == head + rest;
    assert StartsWith(s, head) && s[|head|..] == rest;
    assert tail[0] == ';';
    LowerRunOfLetters(letters, tail);
    assert rest[|letters|..] == tail && rest[..|letters|] == letters;
    assert StartsWith(tail, marker) && tail[|marker|..] == data;
  }

  /** Round trip: parsing a formatted data URI gives back its mime type and data. */
  lemma ParseFormatRoundTrip(mime: string, data: string)
    requires IsImageMime(mime) && NoLineTerminator(data)
    ensures ParseBase64(FormatDataUri(mime, data)) == Ok(InlineData(mime, data))
  {
    ParseBase64Complete(FormatDataUri(mime, data), mime, data);
  }

  /** Round trip the other way: a string that parses is the formatting of what it parsed to. */
  lemma FormatParseRoundTrip(s: string)
    requires ParseBase64(s).Ok?
    ensures FormatDataUri(ParseBase64(s).value.mimeType, ParseBase64(s).value.data) == s
  {
  }

  /** Every formatted URI begins with `data:`, so it is never empty (never falsy). */
  predicate IsDataUri(s: string) {
    StartsWith(s, "data:")
  }

  // ---------------------------------------------------------------------
  // Responses of the content model
  // ---------------------------------------------------------------------

  /** A part of a request or of a response: inline image data or text. */
  datatype ContentPart = InlinePart(inlineData: InlineData) | TextPart(text: string)

  datatype Content = Content(parts: Option<seq<ContentPart>>)
  datatype Candidate = Candidate(content: Option<Content>)
  datatype Response = Response(candidates: Option<seq<Candidate>>)

  /** Concatenation of `f(x)` over `s`, in order. Recursing on the last element
      keeps it in step with a loop that appends. */
  function Flatten<T>(s: seq<T>, f: T -> seq<string>): seq<string> {
    if s == [] then [] else Flatten(s[..|s| - 1], f) + f(s[|s| - 1])
  }

  /** Every entry of a flattening comes from one of the flattened lists. */
  lemma {:induction false} FlattenAll<T>(s: seq<T>, f: T -> seq<string>, p: string -> bool)
    requires forall x, y :: x in s && y in f(x) ==> p(y)
    ensures forall y :: y in Flatten(s, f) ==> p(y)
  {
    if s != [] {
      FlattenAll(s[..|s| - 1], f, p);
    }
  }

  function PartImages(p: ContentPart): seq<string> {
    match p
    case InlinePart(d) => [FormatDataUri(d.mimeType, d.data)]
    case TextPart(_) => []
  }

  function CandidateImages(c: Candidate): seq<string> {
    if c.content.Some? && c.content.value.parts.Some? then Flatten(c.content.value.parts.value, PartImages) else []
  }

  function ResponseImages(r: Response): seq<string> {
    if r.candidates.Some? then Flatten(r.candidates.value, CandidateImages) else []
  }

  /** One data URI per inline part, responses then candidates then parts in
      order, skipping absent candidate lists, contents and part lists. */
  function AllImages(responses: seq<Response>): (r: seq<string>)
    ensures r == [] <==> !SomeInlinePart(responses)
    ensures forall y :: y in r ==> IsDataUri(y)
  {
    AllImagesEmpty(responses);
    AllImagesAreDataUris(responses);
    Flatten(responses, ResponseImages)
  }

  /** A candidate whose content holds at least one part with inline data. */
  predicate CandidateHasInline(c: Candidate) {
    c.content.Some? && c.content.value.parts.Some? && exists p :: p in c.content.value.parts.value && p.InlinePart?
  }

  predicate ResponseHasInline(r: Response) {
    r.candidates.Some? && exists c :: c in r.candidates.value && CandidateHasInline(c)
  }

  /** Some part of some candidate of some response carries inline data. */
  predicate SomeInlinePart(responses: seq<Response>) {
    exists r :: r in responses && ResponseHasInline(r)
  }

  /** A flattening is empty exactly when every flattened list is. */
  lemma {:induction false} FlattenEmpty<T>(s: seq<T>, f: T -> seq<string>)
    ensures Flatten(s, f) == [] <==> forall x :: x in s ==> f(x) == []
  {
    if s != [] {
      var init, last := s[..|s| - 1], s[|s| - 1];
      FlattenEmpty(init, f);
      assert s == init + [last];
      assert forall x :: x in s <==> x in init || x == last;
    }
  }

  /** The responses yield no image exactly when no part carries inline data. */
  lemma AllImagesEmpty(responses: seq<Response>)
    ensures Flatten(responses, ResponseImages) == [] <==> !SomeInlinePart(responses)
  {
    FlattenEmpty(responses, ResponseImages);
    forall r | r in responses
      ensures ResponseImages(r) == [] <==> !ResponseHasInline(r)
    {
      if r.candidates.Some? {
        FlattenEmpty(r.candidates.value, CandidateImages);
        forall c | c in r.candidates.value
          ensures CandidateImages(c) == [] <==> !CandidateHasInline(c)
        {
          if c.content.Some? && c.content.value.parts.Some? {
            FlattenEmpty(c.content.value.parts.value, PartImages);
          }
        }
      }
    }
  }

  /** What `processImageResponses` returns: every image of the responses, or
      the error exactly when no part carries inline data. */
  function ProcessedImages(responses: seq<Response>): (r: Result<seq<string>, string>)
    ensures r.Err? <==> !SomeInlinePart(responses)
    ensures r.Err? ==> r.error == NoImagesInResponsesMessage
    ensures r.Ok? ==> r.value == AllImages(responses) && r.value != []
  {
    var images := AllImages(responses);
    if images == [] then Err(NoImagesInResponsesMessage) else Ok(images)
  }

  /** Every image taken from the responses is a data URI. */
  lemma AllImagesAreDataUris(responses: seq<Response>)
    ensures forall y :: y in Flatten(responses, ResponseImages) ==> IsDataUri(y)
  {
    var isUri := (y: string) => IsDataUri(y);
    forall r | r in responses
      ensures forall y :: y in ResponseImages(r) ==> IsDataUri(y)
    {
      if r.candidates.Some? {
        forall c | c in r.candidates.value
          ensures forall y :: y in CandidateImages(c) ==> IsDataUri(y)
        {
          if c.content.Some? && c.content.value.parts.Some? {
            FlattenAll(c.content.value.parts.value, PartImages, isUri);
          }
        }
        FlattenAll(r.candidates.value, CandidateImages, isUri);
      }
    }
    FlattenAll(responses, ResponseImages, isUri);
  }

  /** An inline part whose mime type and data the pattern of `parseBase64` accepts. */
  predicate WellFormedPart(p: ContentPart) {
    p.InlinePart? ==> IsImageMime(p.inlineData.mimeType) && NoLineTerminator(p.inlineData.data)
  }

  predicate WellFormedCandidate(c: Candidate) {
    c.content.Some? && c.content.value.parts.Some? ==>
      forall p :: p in c.content.value.parts.value ==> WellFormedPart(p)
  }

  predicate WellFormedResponse(r: Response) {
    r.candidates.Some? ==> forall c :: c in r.candidates.value ==> WellFormedCandidate(c)
  }

  /** Images taken from well-formed responses can be given back to
      `generateWithImages` as prompt images: each of them parses. */
  lemma AllImagesParse(responses: seq<Response>)
    requires forall r :: r in responses ==> WellFormedResponse(r)
    ensures forall y :: y in AllImages(responses) ==> ParseBase64(y).Ok?
  {
    var parses := (y: string) => ParseBase64(y).Ok?;
    forall r | r in responses
      ensures forall y :: y in ResponseImages(r) ==> ParseBase64(y).Ok?
    {
      if r.candidates.Some? {
        forall c | c in r.candidates.value
          ensures forall y :: y in CandidateImages(c) ==> ParseBase64(y).Ok?
        {
          if c.content.Some? && c.content.value.parts.Some? {
            forall p | p in c.content.value.parts.value
              ensures forall y :: y in PartImages(p) ==> ParseBase64(y).Ok?
            {
              if p.InlinePart? {
                ParseFormatRoundTrip(p.inlineData.mimeType, p.inlineData.data);
              }
            }
            FlattenAll(c.content.value.parts.value, PartImages, parses);
          }
        }
        FlattenAll(r.candidates.value, CandidateImages, parses);
      }
    }
    FlattenAll(responses, ResponseImages, parses);
  }

  /** Flattening one more element of a prefix appends that element's list. */
  lemma FlattenStep<T>(s: seq<T>, f: T -> seq<string>, k: nat)
    requires k < |s|
    ensures Flatten(s[..k + 1], f) == Flatten(s[..k], f) + f(s[k])
  {
    assert s[..k + 1][..k] == s[..k];
  }

  /** The same step behind the entries collected before. */
  lemma FlattenStepAfter<T>(collected: seq<string>, s: seq<T>, f: T -> seq<string>, k: nat)
    requires k < |s|
    ensures collected + Flatten(s[..k + 1], f) == collected + Flatten(s[..k], f) + f(s[k])
  {
    FlattenStep(s, f, k);
  }

  /** `processImageResponses`: pushes one URI per inline part inside three
      nested loops, then fails if it pushed none. */
  method ProcessImageResponses(responses: seq<Response>) returns (r: Result<seq<string>, string>)
    ensures r == ProcessedImages(responses)
  {
    var images: seq<string> := [];
    var i := 0;
    while i < |responses|
      invariant 0 <= i <= |responses|
      invariant images == Flatten(responses[..i], ResponseImages)
    {
      var response := responses[i];
      ghost var before := images;
      if response.candidates.Some? {
        var candidates := response.candidates.value;
        var j := 0;
        while j < |candidates|
          invariant 0 <= j <= |candidates|
          invariant images == before + Flatten(candidates[..j], CandidateImages)
        {
          var candidate := candidates[j];
          ghost var beforeCandidate := images;
          if candidate.content.Some? && candidate.content.value.parts.Some? {
            var parts := candidate.content.value.parts.value;
            var k := 0;
            while k < |parts|
              invariant 0 <= k <= |parts|
              invariant images == beforeCandidate + Flatten(parts[..k], PartImages)
            {
              ghost var beforePart := images;
              if parts[k].InlinePart? {
                images := images + [FormatDataUri(parts[k].inlineData.mimeType, parts[k].inlineData.data)];
              }
              assert images == beforePart + PartImages(parts[k]);
              assert images == beforeCandidate + Flatten(parts[..k + 1], PartImages) by {
                FlattenStepAfter(beforeCandidate, parts, PartImages, k);
              }
              k := k + 1;
            }
            assert parts[..k] == parts;
          }
          assert images == beforeCandidate + CandidateImages(candidate);
          assert images == before + Flatten(candidates[..j + 1], CandidateImages) by {
            FlattenStepAfter(before, candidates, CandidateImages, j);
          }
          j := j + 1;
        }
        assert candidates[..j] == candidates;
      }
      assert images == before + ResponseImages(response);
      FlattenStep(responses, ResponseImages, i);
      i := i + 1;
    }
    assert responses[..i] == responses;
    if |images| == 0 {
      r := Err(NoImagesInResponsesMessage);
    } else {
      r := Ok(images);
    }
  }

  // ---------------------------------------------------------------------
  // Requests and the two generation entry points
  // ---------------------------------------------------------------------

  /** `GenerationSettings`: a null key means "use the environment's key". */
  datatype GenerationSettings = GenerationSettings(apiKey: Option<string>, numberOfImages: int, model: string)

  /** What one content-model call is asked for. */
  datatype ContentRequest = ContentRequest(
    apiKey: string,
    model: string,
    parts: seq<ContentPart>,
    systemInstruction: Option<string>)

  /** What the image model is asked for. */
  datatype ImagenRequest = ImagenRequest(apiKey: string, prompt: string, numberOfImages: int, outputMimeType: string)

  datatype GeneratedImage = GeneratedImage(imageBytes: string)
  datatype ImagenResponse = ImagenResponse(generatedImages: Option<seq<GeneratedImage>>)

  /** The remote image model: a response or the message of the error it raised. */
  type ImagenApi = ImagenRequest -> Result<ImagenResponse, string>

  /** The remote content model; the number is the index of the call among the
      concurrent calls of one generation. */
  type ContentApi = (ContentRequest, nat) -> Result<Response, string>

  /** `Array.from({ length: n })` has no elements for a negative `n`. */
  function CallCount(n: int): (c: nat)
    ensures n >= 0 ==> c == n
    ensures n < 0 ==> c == 0
  {
    if n < 0 then 0 else n
  }

  /** The results of `n` concurrent calls awaited together: all responses in
      call order, or an error when some call failed (the first failing call's). */
  function AllResponses(api: ContentApi, req: ContentRequest, n: nat): (r: Result<seq<Response>, string>)
    ensures r.Ok? <==> forall i :: 0 <= i < n ==> api(req, i).Ok?
    ensures r.Ok? ==> |r.value| == n && forall i :: 0 <= i < n ==> api(req, i) == Ok(r.value[i])
    ensures r.Err? ==> exists i :: 0 <= i < n && api(req, i) == Err(r.error)
  {
    if n == 0 then Ok([])
    else
      match AllResponses(api, req, n - 1)
      case Err(e) => Err(e)
      case Ok(earlier) =>
        match api(req, n - 1)
        case Err(e) => Err(e)
        case Ok(last) => Ok(earlier + [last])
  }

  /** The image model's result as URIs: one JPEG data URI per generated image,
      in order, or an error when there are none. */
  function ImagenImages(resp: ImagenResponse): (r: Result<seq<string>, string>)
    ensures r.Err? <==> resp.generatedImages.None? || resp.generatedImages.value == []
    ensures r.Err? ==> r.error == NoGeneratedImagesMessage
    ensures r.Ok? ==> |r.value| == |resp.generatedImages.value|
  {
    if resp.generatedImages.None? || |resp.generatedImages.value| == 0 then Err(NoGeneratedImagesMessage)
    else
      var images := resp.generatedImages.value;
      Ok(seq(|images|, i requires 0 <= i < |images| => FormatDataUri("image/jpeg", images[i].imageBytes)))
  }

  /** Each URI of the image model's result decodes to a JPEG carrying exactly
      the corresponding image's bytes. */
  lemma ImagenImagesDecode(resp: ImagenResponse, i: nat)
    requires ImagenImages(resp).Ok? && i < |ImagenImages(resp).value|
    requires NoLineTerminator(resp.generatedImages.value[i].imageBytes)
    ensures ParseBase64(ImagenImages(resp).value[i]) == Ok(InlineData("image/jpeg", resp.generatedImages.value[i].imageBytes))
  {
    ParseFormatRoundTrip("image/jpeg", resp.generatedImages.value[i].imageBytes);
  }

  /** An error re-raised with a prefix. */
  function Prefixed<T>(prefix: string, r: Result<T, string>): (p: Result<T, string>)
    ensures p.Ok? <==> r.Ok?
    ensures r.Ok? ==> p.value == r.value
    ensures r.Err? ==> p.error == prefix + r.error
  {
    match r
    case Ok(v) => Ok(v)
    case Err(e) => Err(prefix + e)
  }

  /** The image model's call and the mapping of its response: the call's
      error as raised, or `ImagenImages` of the response. */
  function ImagenOutcome(api: ImagenApi, req: ImagenRequest): (r: Result<seq<string>, string>)
    ensures api(req).Err? ==> r == Err(api(req).error)
    ensures api(req).Ok? ==> r == ImagenImages(api(req).value)
    ensures r.Ok? ==> r.value != [] && forall y :: y in r.value ==> IsDataUri(y)
  {
    match api(req)
    case Err(e) => Err(e)
    case Ok(resp) => ImagenImages(resp)
  }

  /** `n` content-model calls awaited together and their responses processed:
      the error of a failing call, or `ProcessedImages` of all responses. */
  function ContentOutcome(api: ContentApi, req: ContentRequest, n: nat): (r: Result<seq<string>, string>)
    ensures AllResponses(api, req, n).Err? ==> r == Err(AllResponses(api, req, n).error)
    ensures AllResponses(api, req, n).Ok? ==> r == ProcessedImages(AllResponses(api, req, n).value)
    ensures r.Ok? ==> r.value != [] && forall y :: y in r.value ==> IsDataUri(y)
  {
    match AllResponses(api, req, n)
    case Err(e) => Err(e)
    case Ok(responses) => ProcessedImages(responses)
  }

  /** The request of a text-to-image call to the content model: the prompt as
      the only part, with the instruction to answer with an image. */
  function TextToImageRequest(key: string, prompt: string): ContentRequest {
    ContentRequest(key, Settings.FlashImageModel, [TextPart(prompt)], Some(TextToImageInstruction))
  }

  /** `generateImages`: with a key, the Imagen call for the Imagen model and
      otherwise `n` text-to-image calls to the content model, each failure
      re-raised behind the generation prefix. A success is a non-empty list of
      data URIs. Without a key no remote call is made. */
  function GenerateImages(prompt: string, settings: GenerationSettings, envKey: Option<string>,
                          imagen: ImagenApi, content: ContentApi): (r: Result<seq<string>, string>)
    ensures r.Err? ==> StartsWith(r.error, GenerateErrorPrefix)
    ensures r.Ok? ==> r.value != [] && forall y :: y in r.value ==> IsDataUri(y)
    ensures GetClient(settings.apiKey, envKey).Err? ==> r == Err(GenerateErrorPrefix + MissingKeyMessage)
    ensures GetClient(settings.apiKey, envKey).Ok? && settings.model == Settings.ImagenModel ==>
      var req := ImagenRequest(GetClient(settings.apiKey, envKey).value, prompt, settings.numberOfImages, "image/jpeg");
      r == Prefixed(GenerateErrorPrefix, ImagenOutcome(imagen, req))
    ensures GetClient(settings.apiKey, envKey).Ok? && settings.model != Settings.ImagenModel ==>
      var req := TextToImageRequest(GetClient(settings.apiKey, envKey).value, prompt);
      r == Prefixed(GenerateErrorPrefix, ContentOutcome(content, req, CallCount(settings.numberOfImages)))
  {
    match GetClient(settings.apiKey, envKey)
    case Err(e) => Err(GenerateErrorPrefix + e)
    case Ok(key) =>
      if settings.model == Settings.ImagenModel then
        Prefixed(GenerateErrorPrefix, ImagenOutcome(imagen, ImagenRequest(key, prompt, settings.numberOfImages, "image/jpeg")))
      else
        Prefixed(GenerateErrorPrefix, ContentOutcome(content, TextToImageRequest(key, prompt), CallCount(settings.numberOfImages)))
  }

  /** The parts of an editing request: every image part, in input order. */
  function ImageParts(images: seq<string>): (r: Result<seq<ContentPart>, string>)
    ensures r.Ok? <==> forall i :: 0 <= i < |images| ==> ParseBase64(images[i]).Ok?
    ensures r.Ok? ==> (|r.value| == |images|
      && forall i :: 0 <= i < |images| ==> r.value[i] == InlinePart(ParseBase64(images[i]).value))
    ensures r.Err? ==> r.error == InvalidImageMessage
  {
    if images == [] then Ok([])
    else
      var first := ParseBase64(images[0]);
      var rest := ImageParts(images[1..]);
      if first.Err? then Err(first.error)
      else if rest.Err? then Err(rest.error)
      else Ok([InlinePart(first.value)] + rest.value)
  }

  /** `allParts`: the image parts in input order followed by the single text part. */
  function EditingParts(prompt: string, images: seq<string>): (r: Result<seq<ContentPart>, string>)
    ensures r.Ok? <==> forall i :: 0 <= i < |images| ==> ParseBase64(images[i]).Ok?
    ensures r.Ok? ==> (|r.value| == |images| + 1 && r.value[|images|] == TextPart(prompt)
      && forall i :: 0 <= i < |images| ==> r.value[i] == InlinePart(ParseBase64(images[i]).value))
    ensures r.Err? ==> r.error == InvalidImageMessage
  {
    match ImageParts(images)
    case Err(e) => Err(e)
    case Ok(parts) => Ok(parts + [TextPart(prompt)])
  }

  /** `generateWithImages`: with a key and images that all parse, `n` calls
      to the content model with the image parts and the prompt, each failure
      re-raised behind the editing prefix. A success is a non-empty list of
      data URIs; an image that does not parse fails the whole call before any
      remote call. */
  function GenerateWithImages(prompt: string, images: seq<string>, settings: GenerationSettings,
                              envKey: Option<string>, content: ContentApi): (r: Result<seq<string>, string>)
    ensures r.Err? ==> StartsWith(r.error, GenerateWithContextErrorPrefix)
    ensures r.Ok? ==> r.value != [] && forall y :: y in r.value ==> IsDataUri(y)
    ensures GetClient(settings.apiKey, envKey).Err? ==> r == Err(GenerateWithContextErrorPrefix + MissingKeyMessage)
    ensures GetClient(settings.apiKey, envKey).Ok? && (exists i :: 0 <= i < |images| && ParseBase64(images[i]).Err?)
      ==> r == Err(GenerateWithContextErrorPrefix + InvalidImageMessage)
    ensures GetClient(settings.apiKey, envKey).Ok? && EditingParts(prompt, images).Ok? ==>
      var req := ContentRequest(GetClient(settings.apiKey, envKey).value, Settings.FlashImageModel,
                                EditingParts(prompt, images).value, None);
      r == Prefixed(GenerateWithContextErrorPrefix, ContentOutcome(content, req, CallCount(settings.numberOfImages)))
  {
    match GetClient(settings.apiKey, envKey)
    case Err(e) => Err(GenerateWithContextErrorPrefix + e)
    case Ok(key) =>
      match EditingParts(prompt, images)
      case Err(e) => Err(GenerateWithContextErrorPrefix + e)
      case Ok(parts) =>
        var req := ContentRequest(key, Settings.FlashImageModel, parts, None);
        Prefixed(GenerateWithContextErrorPrefix, ContentOutcome(content, req, CallCount(settings.numberOfImages)))
  }
}
