/** The Gemini image service: one provider call per requested sample, the
    request each call sends, how an image is read out of a reply, and the
    download of an input image. The provider and the HTTP client are oracles:
    the model is given what each call returns or throws. */
module Gemini {
  import opened Runtime

  const Model := "gemini-2.5-flash-image"
  const DefaultResultMimeType := "image/png"
  const DefaultDownloadMimeType := "image/jpeg"
  const NoImagesMessage := "No images generated. Model may have rejected the prompt."

  /** The aspect ratios Gemini 2.5 Flash Image accepts. */
  datatype AspectRatio =
    | Square | Portrait2x3 | Landscape3x2 | Portrait3x4 | Landscape4x3
    | Portrait4x5 | Landscape5x4 | Portrait9x16 | Landscape16x9 | Wide21x9

  function AspectRatioName(a: AspectRatio): string
  {
    match a
    case Square => "1:1"
    case Portrait2x3 => "2:3"
    case Landscape3x2 => "3:2"
    case Portrait3x4 => "3:4"
    case Landscape4x3 => "4:3"
    case Portrait4x5 => "4:5"
    case Landscape5x4 => "5:4"
    case Portrait9x16 => "9:16"
    case Landscape16x9 => "16:9"
    case Wide21x9 => "21:9"
  }

  /** An image as base64 text and its MIME type: both the service's input image
      and each image it returns. */
  datatype InlineImage = InlineImage(base64Data: string, mimeType: string)

  datatype GenerateImageOptions = GenerateImageOptions(
    prompt: string,
    sampleCount: Option<int>,
    inputImage: Option<InlineImage>,
    aspectRatio: Option<AspectRatio>)

  // ----- the request sent to the provider -----

  datatype RequestPart = InlineDataPart(mimeType: string, data: string) | TextPart(text: string)

  datatype Modality = TEXT | IMAGE

  datatype GenerationConfig = GenerationConfig(responseModalities: seq<Modality>, imageConfig: Option<AspectRatio>)

  datatype ContentRequest = ContentRequest(model: string, role: string, parts: seq<RequestPart>, config: GenerationConfig)

  /** The request every attempt sends: the input image first when there is
      one, the prompt always last, and an image configuration exactly when an
      aspect ratio is given. */
  function RequestFor(prompt: string, inputImage: Option<InlineImage>, aspectRatio: Option<AspectRatio>): (req: ContentRequest)
    ensures req.model == Model && req.role == "user"
    ensures 1 <= |req.parts| <= 2 && req.parts[|req.parts| - 1] == TextPart(prompt)
    ensures |req.parts| == 2 <==> inputImage.Some?
    ensures inputImage.Some? ==>
      req.parts[0] == InlineDataPart(inputImage.value.mimeType, inputImage.value.base64Data)
    ensures req.config.responseModalities == [TEXT, IMAGE]
    ensures req.config.imageConfig.Some? <==> aspectRatio.Some?
    ensures req.config.imageConfig.Some? ==> req.config.imageConfig == aspectRatio
  {
    var image := if inputImage.Some?
      then [InlineDataPart(inputImage.value.mimeType, inputImage.value.base64Data)] else [];
    ContentRequest(Model, "user", image + [TextPart(prompt)], GenerationConfig([TEXT, IMAGE], aspectRatio))
  }

  // ----- the provider's reply -----

  datatype InlineData = InlineData(data: Option<string>, mimeType: Option<string>)

  datatype ResponsePart = ResponsePart(text: Option<string>, inlineData: Option<InlineData>)

  datatype Content = Content(parts: Option<seq<ResponsePart>>)

  datatype Candidate = Candidate(content: Option<Content>)

  datatype GenerateContentResponse = GenerateContentResponse(candidates: Option<seq<Candidate>>)

  /** What one `generateContent` call does: reply, or throw. */
  datatype Reply = Responded(response: GenerateContentResponse) | CallFailed(error: Error)

  /** An inline-data part as an image: missing data reads as "", a missing MIME type as PNG. */
  function Shaped(d: InlineData): InlineImage
  {
    InlineImage(Or(d.data, ""), Or(d.mimeType, DefaultResultMimeType))
  }

  /** The first part that carries inline data, as an image; text parts are skipped. */
  function FirstInlineImage(parts: seq<ResponsePart>): Option<InlineImage>
  {
    if |parts| == 0 then None
    else if parts[0].inlineData.Some? then Some(Shaped(parts[0].inlineData.value))
    else FirstInlineImage(parts[1..])
  }

  /** No image is found exactly when no part carries inline data. */
  lemma {:induction false} FirstInlineImageNone(parts: seq<ResponsePart>)
    ensures FirstInlineImage(parts).None? <==> forall k :: 0 <= k < |parts| ==> parts[k].inlineData.None?
  {
    if |parts| > 0 {
      FirstInlineImageNone(parts[1..]);
      assert forall k :: 1 <= k < |parts| ==> parts[k] == parts[1..][k - 1];
    }
  }

  /** When part `k` is the first with inline data, its data is the image. */
  lemma {:induction false} FirstInlineImageAt(parts: seq<ResponsePart>, k: nat)
    requires k < |parts| && parts[k].inlineData.Some?
    requires forall j :: 0 <= j < k ==> parts[j].inlineData.None?
    ensures FirstInlineImage(parts) == Some(Shaped(parts[k].inlineData.value))
  {
    if k > 0 {
      assert parts[1..][k - 1] == parts[k];
      FirstInlineImageAt(parts[1..], k - 1);
    }
  }

  /** The parts of the first candidate, when the reply has them. */
  function FirstCandidateParts(response: GenerateContentResponse): Option<seq<ResponsePart>>
  {
    if response.candidates.Some? && |response.candidates.value| > 0
       && response.candidates.value[0].content.Some?
       && response.candidates.value[0].content.value.parts.Some?
    then response.candidates.value[0].content.value.parts
    else None
  }

  /** The image `generateSingleImage` reads out of a reply (None stands for `null`). */
  function ExtractImage(response: GenerateContentResponse): Option<InlineImage>
  {
    match FirstCandidateParts(response)
    case None => None
    case Some(parts) => FirstInlineImage(parts)
  }

  /** Only the first candidate is read: the others never change the image. */
  lemma OnlyFirstCandidateCounts(first: Candidate, rest: seq<Candidate>, other: seq<Candidate>)
    ensures ExtractImage(GenerateContentResponse(Some([first] + rest)))
         == ExtractImage(GenerateContentResponse(Some([first] + other)))
  {
    assert ([first] + rest)[0] == first == ([first] + other)[0];
  }

  /** What one attempt yields: an image or null, or the error the call threw. */
  function SingleImageOutcome(reply: Reply): Outcome<Option<InlineImage>>
  {
    match reply
    case CallFailed(e) => Throw(e)
    case Responded(response) => Ok(ExtractImage(response))
  }

  /** `generateSingleImage`: builds the parts and the configuration, makes the
      call, and scans the first candidate's parts for inline data. */
  method GenerateSingleImage(prompt: string, inputImage: Option<InlineImage>, aspectRatio: Option<AspectRatio>,
                             reply: Reply) returns (out: Outcome<Option<InlineImage>>, request: ContentRequest)
    ensures request == RequestFor(prompt, inputImage, aspectRatio)
    ensures out.Throw? <==> reply.CallFailed?
    ensures out.Throw? ==> out.error == reply.error
    ensures out.Ok? && out.value.None? ==>
      FirstCandidateParts(reply.response).None? ||
      forall k :: 0 <= k < |FirstCandidateParts(reply.response).value| ==>
        FirstCandidateParts(reply.response).value[k].inlineData.None?
    ensures out.Ok? && out.value.Some? ==>
      FirstCandidateParts(reply.response).Some? &&
      exists k :: 0 <= k < |FirstCandidateParts(reply.response).value| &&
        FirstCandidateParts(reply.response).value[k].inlineData.Some? &&
        out.value.value == Shaped(FirstCandidateParts(reply.response).value[k].inlineData.value) &&
        forall j :: 0 <= j < k ==> FirstCandidateParts(reply.response).value[j].inlineData.None?
    ensures out == SingleImageOutcome(reply)
  {
    var parts: seq<RequestPart> := [];
    if inputImage.Some? {
      parts := parts + [InlineDataPart(inputImage.value.mimeType, inputImage.value.base64Data)];
    }
    parts := parts + [TextPart(prompt)];
    var config := GenerationConfig([TEXT, IMAGE], None);
    if aspectRatio.Some? {
      config := config.(imageConfig := aspectRatio);
    }
    request := ContentRequest(Model, "user", parts, config);

    if reply.CallFailed? {
      return Throw(reply.error), request;
    }
    var response := reply.response;
    if response.candidates.Some? && |response.candidates.value| > 0 {
      var candidate := response.candidates.value[0];
      if candidate.content.Some? && candidate.content.value.parts.Some? {
        var candidateParts := candidate.content.value.parts.value;
        var i := 0;
        while i < |candidateParts|
          invariant 0 <= i <= |candidateParts|
          invariant forall j :: 0 <= j < i ==> candidateParts[j].inlineData.None?
        {
          if candidateParts[i].inlineData.Some? {
            FirstInlineImageAt(candidateParts, i);
            return Ok(Some(Shaped(candidateParts[i].inlineData.value))), request;
          }
          i := i + 1;
        }
        FirstInlineImageNone(candidateParts);
      }
    }
    out := Ok(None);
  }

  // ----- the attempt loop -----

  /** How many times `for (let i = 0; i < sampleCount; i++)` runs. */
  function LoopCount(sampleCount: int): nat
  {
    if sampleCount < 0 then 0 else sampleCount
  }

  /** `sampleCount = 1` in the destructuring: only an absent count defaults. */
  function SampleCountOf(options: GenerateImageOptions): int
  {
    if options.sampleCount.Some? then options.sampleCount.value else 1
  }

  /** The image (or null) of each reply; a failed call has none. */
  function ImageOf(reply: Reply): Option<InlineImage>
  {
    if reply.Responded? then ExtractImage(reply.response) else None
  }

  /** The present values of a sequence of optional values, in order. */
  function Somes<T>(s: seq<Option<T>>): (r: seq<T>)
    ensures |r| <= |s|
  {
    if |s| == 0 then []
    else if s[|s| - 1].Some? then Somes(s[..|s| - 1]) + [s[|s| - 1].value]
    else Somes(s[..|s| - 1])
  }

  /** The first `n` attempts' images or nulls. */
  function AttemptImages(replies: nat -> Reply, n: nat): (r: seq<Option<InlineImage>>)
    ensures |r| == n
    ensures forall i :: 0 <= i < n ==> r[i] == ImageOf(replies(i))
  {
    seq(n, i requires 0 <= i => ImageOf(replies(i)))
  }

  /** Attempts 0..n-1 in order, stopping at the first call that throws;
      the images of the attempts that produced one are kept. */
  function Attempts(replies: nat -> Reply, n: nat): (r: Outcome<seq<InlineImage>>)
    ensures r.Ok? <==> forall i :: 0 <= i < n ==> replies(i).Responded?
    ensures r.Ok? ==> |r.value| <= n
    ensures r.Throw? ==>
      exists k :: 0 <= k < n && replies(k).CallFailed? && r.error == replies(k).error &&
        forall j :: 0 <= j < k ==> replies(j).Responded?
  {
    if n == 0 then Ok([])
    else
      match Attempts(replies, n - 1)
      case Throw(e) => Throw(e)
      case Ok(results) =>
        match SingleImageOutcome(replies(n - 1))
        case Throw(e) => Throw(e)
        case Ok(None) => Ok(results)
        case Ok(Some(image)) => Ok(results + [image])
  }

  /** When no call throws, the results are exactly the non-null images, in attempt order. */
  lemma {:induction false} AttemptsKeepNonNullInOrder(replies: nat -> Reply, n: nat)
    requires forall i :: 0 <= i < n ==> replies(i).Responded?
    ensures Attempts(replies, n) == Ok(Somes(AttemptImages(replies, n)))
  {
    if n > 0 {
      AttemptsKeepNonNullInOrder(replies, n - 1);
      assert AttemptImages(replies, n)[..n - 1] == AttemptImages(replies, n - 1);
    }
  }

  /** How many provider calls the first `n` attempts make: all `n`, unless one throws. */
  function CallsMade(replies: nat -> Reply, n: nat): (c: nat)
    ensures c <= n
    ensures Attempts(replies, n).Ok? ==> c == n
    ensures Attempts(replies, n).Throw? ==>
      1 <= c && replies(c - 1).CallFailed? && Attempts(replies, n).error == replies(c - 1).error &&
      forall j :: 0 <= j < c - 1 ==> replies(j).Responded?
  {
    if n == 0 then 0
    else if Attempts(replies, n - 1).Throw? then CallsMade(replies, n - 1)
    else n
  }

  /** Once an attempt has thrown, later attempts are never made. */
  lemma {:induction false} AttemptsStop(replies: nat -> Reply, m: nat, n: nat)
    requires m <= n && Attempts(replies, m).Throw?
    ensures Attempts(replies, n) == Attempts(replies, m)
    decreases n
  {
    if n > m {
      AttemptsStop(replies, m, n - 1);
    }
  }

  lemma {:induction false} CallsMadeStops(replies: nat -> Reply, m: nat, n: nat)
    requires m <= n && Attempts(replies, m).Throw?
    ensures CallsMade(replies, n) == CallsMade(replies, m)
    decreases n
  {
    if n > m {
      CallsMadeStops(replies, m, n - 1);
      AttemptsStop(replies, m, n - 1);
    }
  }

  /** The catch block of `generateImages`: an `HttpsError` is rethrown, any
      other error becomes an internal one prefixed "Gemini API Error: ". */
  function WrapGeminiError(e: Error): (r: Error)
    ensures r.HttpsError?
    ensures e.HttpsError? ==> r == e
    ensures e.PlainError? ==> r == HttpsError(Internal, "Gemini API Error: " + Interpolate(e.text))
  {
    if e.HttpsError? then e else HttpsError(Internal, "Gemini API Error: " + Interpolate(MessageOf(e)))
  }

  /** What `generateImages` returns or throws. */
  function GenerateImagesResult(options: GenerateImageOptions, apiKey: string, replies: nat -> Reply): (r: Outcome<seq<InlineImage>>)
    ensures apiKey == "" ==> r == Throw(HttpsError(FailedPrecondition, "Gemini API key not configured"))
    ensures r.Ok? ==> 1 <= |r.value| <= LoopCount(SampleCountOf(options))
    ensures r.Throw? ==> r.error.HttpsError?
  {
    if apiKey == "" then Throw(HttpsError(FailedPrecondition, "Gemini API key not configured"))
    else
      var tried :=
        match Attempts(replies, LoopCount(SampleCountOf(options)))
        case Throw(e) => Throw(e)
        case Ok(results) => if |results| == 0 then Throw(HttpsError(Internal, NoImagesMessage)) else Ok(results);
      match tried
      case Ok(results) => Ok(results)
      case Throw(e) => Throw(WrapGeminiError(e))
  }

  /** How many provider calls `generateImages` makes: none without an API key. */
  function ProviderCalls(options: GenerateImageOptions, apiKey: string, replies: nat -> Reply): (c: nat)
    ensures apiKey == "" ==> c == 0
    ensures c <= LoopCount(SampleCountOf(options))
  {
    if apiKey == "" then 0 else CallsMade(replies, LoopCount(SampleCountOf(options)))
  }

  /** If every attempt replies without an image, the service throws the
      internal "No images generated" error, unchanged by its own catch. */
  lemma AllNullRepliesThrowNoImages(options: GenerateImageOptions, apiKey: string, replies: nat -> Reply)
    requires apiKey != ""
    requires forall i :: 0 <= i < LoopCount(SampleCountOf(options)) ==>
      replies(i).Responded? && ExtractImage(replies(i).response).None?
    ensures GenerateImagesResult(options, apiKey, replies) == Throw(HttpsError(Internal, NoImagesMessage))
  {
    var n := LoopCount(SampleCountOf(options));
    AttemptsKeepNonNullInOrder(replies, n);
    SomesOfNones(AttemptImages(replies, n));
  }

  /** When attempt `k` is the first call to throw, the service makes calls
      0..k and no more, and throws that error as its catch wraps it. */
  lemma FirstFailureEndsAttempts(options: GenerateImageOptions, apiKey: string, replies: nat -> Reply, k: nat)
    requires apiKey != ""
    requires k < LoopCount(SampleCountOf(options))
    requires forall j :: 0 <= j < k ==> replies(j).Responded?
    requires replies(k).CallFailed?
    ensures GenerateImagesResult(options, apiKey, replies) == Throw(WrapGeminiError(replies(k).error))
    ensures ProviderCalls(options, apiKey, replies) == k + 1
  {
    var n := LoopCount(SampleCountOf(options));
    assert Attempts(replies, k).Ok?;
    assert Attempts(replies, k + 1) == Throw(replies(k).error);
    assert CallsMade(replies, k + 1) == k + 1;
    AttemptsStop(replies, k + 1, n);
    CallsMadeStops(replies, k + 1, n);
  }

  lemma {:induction false} SomesOfNones<T>(s: seq<Option<T>>)
    requires forall i :: 0 <= i < |s| ==> s[i].None?
    ensures Somes(s) == []
  {
    if |s| > 0 {
      SomesOfNones(s[..|s| - 1]);
    }
  }

  /** `generateImages`: refuses without an API key, makes exactly `sampleCount`
      attempts (1 when absent), keeps the non-null images in order, and throws
      when none was produced. `sent` lists the requests it sent. */
  method GenerateImages(options: GenerateImageOptions, apiKey: string, replies: nat -> Reply)
    returns (out: Outcome<seq<InlineImage>>, sent: seq<ContentRequest>)
    ensures out == GenerateImagesResult(options, apiKey, replies)
    ensures sent == Repeat(RequestFor(options.prompt, options.inputImage, options.aspectRatio),
                           ProviderCalls(options, apiKey, replies))
  {
    var sampleCount := SampleCountOf(options);
    sent := [];
    if apiKey == "" {
      return Throw(HttpsError(FailedPrecondition, "Gemini API key not configured")), sent;
    }
    var results: seq<InlineImage> := [];
    var i := 0;
    while i < sampleCount
      invariant 0 <= i <= LoopCount(sampleCount)
      invariant Attempts(replies, i) == Ok(results)
      invariant sent == Repeat(RequestFor(options.prompt, options.inputImage, options.aspectRatio), i)
    {
      var result, request := GenerateSingleImage(options.prompt, options.inputImage, options.aspectRatio, replies(i));
      assert result == SingleImageOutcome(replies(i));
      sent := sent + [request];
      if result.Throw? {
        assert Attempts(replies, i + 1) == Throw(result.error);
        assert CallsMade(replies, i + 1) == i + 1;
        CallsMadeStops(replies, i + 1, LoopCount(sampleCount));
        AttemptsStop(replies, i + 1, LoopCount(sampleCount));
        return Throw(WrapGeminiError(result.error)), sent;
      }
      if result.value.Some? {
        results := results + [result.value.value];
      }
      i := i + 1;
    }
    if |results| == 0 {
      return Throw(HttpsError(Internal, NoImagesMessage)), sent;
    }
    out := Ok(results);
  }

  // ----- downloading an input image -----

  /** What the HTTP GET of the image URL does: a body (already base64-encoded
      here) with an optional content type, or a thrown error. */
  datatype Download = Downloaded(base64Body: string, contentType: Option<string>) | DownloadFailed(error: Error)

  /** `downloadImageAsBase64`: the body with the response's content type
      (JPEG when absent); any failure becomes "Failed to download image: …". */
  function DownloadImageAsBase64(fetched: Download): Outcome<InlineImage>
  {
    match fetched
    case Downloaded(body, contentType) => Ok(InlineImage(body, Or(contentType, DefaultDownloadMimeType)))
    case DownloadFailed(e) => Throw(HttpsError(Internal, "Failed to download image: " + Interpolate(MessageOf(e))))
  }
}
