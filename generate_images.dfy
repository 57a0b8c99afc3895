/** The `generateImage` callable: validation, normalisation, the input image,
    the provider call, the ordered uploads, the two Firestore writes, the
    response, and the error policy at its boundary.

    `HandlerRun` states what one request does, as a function of the request,
    the caller, what every external call returns or throws (`Environment`),
    and the stored state before it (`World`); the method `GenerateImage` does it
    step by step on the bucket and the database and is proved to agree. */
module Handler {
  import opened Runtime
  import opened Gemini
  import opened Storage

  datatype AuthData = AuthData(uid: string)

  /** The callable's `data`; absent fields are None. */
  datatype ImageGenerationRequest = ImageGenerationRequest(
    prompt: Option<string>,
    originalUrl: Option<string>,
    inputImageUrl: Option<string>,
    inputImageBase64: Option<string>,
    inputImageMimeType: Option<string>,
    sampleCount: Option<int>,
    aspectRatio: Option<AspectRatio>,
    generationId: Option<string>)

  /** `{success: true, images, imageUrls, generationId}` or `{success: false, error}`. */
  datatype ImageGenerationResponse =
    | Completed(images: seq<string>, imageUrls: seq<string>, generationId: string)
    | SoftFailure(error: string)
  {
    predicate Success() { Completed? }
  }

  /** A Firestore field value; `TimestampValue` is a resolved server timestamp. */
  datatype Value = TimestampValue(millis: nat) | TextValue(text: string)

  type UserDoc = map<string, Value>

  /** The document written at `users/{uid}/generations/{generationId}`; None is null. */
  datatype GenerationRecord = GenerationRecord(
    prompt: string,
    originalUrl: Option<string>,
    inputImageUrl: Option<string>,
    hasInputImage: bool,
    aspectRatio: Option<AspectRatio>,
    generatedImages: seq<string>,
    count: nat,
    status: string,
    createdAt: nat)

  /** What every external call of one request returns or throws, and the
      values of the clock, the random source and the server timestamp. */
  datatype Environment = Environment(
    apiKey: string,                // GEMINI_API_KEY
    nowMillis: nat,                // Date.now()
    randomSuffix: string,          // Math.random().toString(36).substr(2, 9)
    download: Download,            // GET of inputImageUrl
    replies: nat -> Reply,         // the provider's answer to attempt i
    uploadFaults: nat -> Fault,    // what the bucket does with upload i
    userWriteFault: Option<Error>, // the merge into users/{uid}
    recordWriteFault: Option<Error>, // the write of the generation record
    serverTime: nat)               // FieldValue.serverTimestamp() once resolved

  /** The stored state the handler changes: the bucket's objects, the user
      documents, and the generation records keyed by (uid, generationId). */
  datatype World = World(
    objects: map<string, StoredObject>,
    users: map<string, UserDoc>,
    generations: map<(string, string), GenerationRecord>)

  /** The external calls of one request, in the order they are made. */
  datatype ExternalCall =
    | FetchImage(url: string)
    | GenerateContent(request: ContentRequest)
    | UploadImage(path: string)
    | MergeUser(uid: string)
    | SetGeneration(uid: string, generationId: string)

  datatype Run = Run(response: Outcome<ImageGenerationResponse>, world: World, calls: seq<ExternalCall>)

  const PromptRequired := HttpsError(InvalidArgument, "Prompt is required")
  const NotAuthenticated := HttpsError(Unauthenticated, "User must be authenticated")
  const DefaultFailureMessage := "Failed to generate image"
  const DefaultInputMimeType := "image/jpeg"
  /** The TypeError the runtime throws for `data.prompt` when `data` is null. */
  const NullDataError := PlainError(Some("Cannot read properties of null (reading 'prompt')"))

  function UidOf(auth: Option<AuthData>): Option<string>
  {
    if auth.Some? then Some(auth.value.uid) else None
  }

  /** `Math.min(Math.max(data.sampleCount || 4, 1), 4)`. */
  function NormalizeSampleCount(sampleCount: Option<int>): (n: int)
    ensures 1 <= n <= 4
    ensures sampleCount.None? ==> n == 4
    ensures sampleCount.Some? ==>
      var v := sampleCount.value;
      (v == 0 ==> n == 4) && (v < 0 ==> n == 1) && (v > 4 ==> n == 4) && (1 <= v <= 4 ==> n == v)
  {
    Min(Max(NumberOr(sampleCount, 4), 1), 4)
  }

  /** The caller's generation id when it is non-empty, else `{Date.now()}_{random}`. */
  function ResolveGenerationId(given: Option<string>, nowMillis: nat, randomSuffix: string): (id: string)
    ensures id != ""
    ensures Truthy(given) ==> id == given.value
    ensures !Truthy(given) ==> id == NatToString(nowMillis) + "_" + randomSuffix
  {
    Or(given, NatToString(nowMillis) + "_" + randomSuffix)
  }

  /** The input image: a downloaded URL wins over inline base64, which comes
      with its MIME type or JPEG; otherwise there is none. */
  function ResolveInputImage(data: ImageGenerationRequest, download: Download): (r: Outcome<Option<InlineImage>>)
    ensures Truthy(data.inputImageUrl) && download.Downloaded? ==>
      r == Ok(Some(InlineImage(download.base64Body, Or(download.contentType, DefaultDownloadMimeType))))
    ensures Truthy(data.inputImageUrl) && download.DownloadFailed? ==>
      r == Throw(HttpsError(Internal, "Failed to download image: " + Interpolate(MessageOf(download.error))))
    ensures !Truthy(data.inputImageUrl) && Truthy(data.inputImageBase64) ==>
      r == Ok(Some(InlineImage(data.inputImageBase64.value, Or(data.inputImageMimeType, DefaultInputMimeType))))
    ensures !Truthy(data.inputImageUrl) && !Truthy(data.inputImageBase64) ==> r == Ok(None)
  {
    if Truthy(data.inputImageUrl) then
      match DownloadImageAsBase64(download)
      case Ok(image) => Ok(Some(image))
      case Throw(e) => Throw(e)
    else if Truthy(data.inputImageBase64) then
      Ok(Some(InlineImage(data.inputImageBase64.value, Or(data.inputImageMimeType, DefaultInputMimeType))))
    else Ok(None)
  }

  /** `results.map(r => r.base64Data)`, the `images` the loop collects. */
  function Payloads(results: seq<InlineImage>): seq<string>
  {
    seq(|results|, i requires 0 <= i < |results| => results[i].base64Data)
  }

  /** The merge of `{lastActive, createdAt}` into the user document: other
      fields are kept, both timestamps are overwritten. */
  function MergedUsers(users: map<string, UserDoc>, uid: string, time: nat): (r: map<string, UserDoc>)
    ensures uid in r && "lastActive" in r[uid] && "createdAt" in r[uid]
    ensures r[uid]["lastActive"] == TimestampValue(time) && r[uid]["createdAt"] == TimestampValue(time)
    ensures forall f :: f in r[uid] && f != "lastActive" && f != "createdAt" ==> uid in users && f in users[uid] && r[uid][f] == users[uid][f]
    ensures forall u :: u != uid ==> (u in r <==> u in users) && (u in r ==> r[u] == users[u])
  {
    var before := if uid in users then users[uid] else map[];
    users[uid := before + map["lastActive" := TimestampValue(time), "createdAt" := TimestampValue(time)]]
  }

  function GenerationRecordFor(data: ImageGenerationRequest, prompt: string, inputImage: Option<InlineImage>,
                               imageUrls: seq<string>, count: nat, time: nat): (r: GenerationRecord)
  {
    GenerationRecord(prompt, OrNull(data.originalUrl), OrNull(data.inputImageUrl), inputImage.Some?,
                     data.aspectRatio, imageUrls, count, "completed", time)
  }

  /** The uploads of the loop `for (let i = 0; i < results.length; i++)`, first `n`
      indices: what they return, the bucket afterwards, and how many were made. */
  datatype Uploads = Uploads(result: Outcome<seq<string>>, objects: map<string, StoredObject>, made: nat)

  function UploadAll(objects: map<string, StoredObject>, bucketName: string, uid: string, generationId: string,
                     images: seq<string>, faults: nat -> Fault, n: nat): (u: Uploads)
    requires n <= |images|
    ensures u.made <= n
    ensures u.result.Ok? ==> u.made == n && |u.result.value| == n
  {
    if n == 0 then Uploads(Ok([]), objects, 0)
    else
      var prev := UploadAll(objects, bucketName, uid, generationId, images, faults, n - 1);
      match prev.result
      case Throw(e) => prev
      case Ok(urls) =>
        var objects' := AfterUpload(prev.objects, uid, generationId, n - 1, images[n - 1], faults(n - 1));
        match UploadResult(bucketName, uid, generationId, n - 1, faults(n - 1))
        case Throw(e) => Uploads(Throw(e), objects', n)
        case Ok(url) => Uploads(Ok(urls + [url]), objects', n)
  }

  /** The uploads succeed exactly when no bucket call throws; then URL `i` is
      the URL of index `i` and the object at path `i` is image `i`, as a public JPEG. */
  lemma {:induction false} UploadAllSucceeds(objects: map<string, StoredObject>, bucketName: string, uid: string,
                                             generationId: string, images: seq<string>, faults: nat -> Fault, n: nat)
    requires n <= |images|
    ensures var u := UploadAll(objects, bucketName, uid, generationId, images, faults, n);
      (u.result.Ok? <==> forall i :: 0 <= i < n ==> faults(i).NoFault?) &&
      (u.result.Ok? ==>
        forall i :: 0 <= i < n ==>
          u.result.value[i] == UploadedUrl(bucketName, uid, generationId, i) &&
          FilePath(uid, generationId, i) in u.objects &&
          u.objects[FilePath(uid, generationId, i)] == StoredObject(DecodedBase64(images[i]), UploadContentType, true))
  {
    if n > 0 {
      UploadAllSucceeds(objects, bucketName, uid, generationId, images, faults, n - 1);
      UploadedPathsDistinct(uid, generationId, n - 1);
    }
  }

  /** On a failure, the upload that threw is the last one made and every one before it succeeded. */
  lemma {:induction false} UploadAllStopsAtFirstFault(objects: map<string, StoredObject>, bucketName: string, uid: string,
                                                      generationId: string, images: seq<string>, faults: nat -> Fault, n: nat)
    requires n <= |images|
    ensures var u := UploadAll(objects, bucketName, uid, generationId, images, faults, n);
      u.result.Throw? ==>
        1 <= u.made && !faults(u.made - 1).NoFault? && u.result.error == faults(u.made - 1).error &&
        forall i :: 0 <= i < u.made - 1 ==> faults(i).NoFault?
  {
    if n > 0 {
      UploadAllStopsAtFirstFault(objects, bucketName, uid, generationId, images, faults, n - 1);
      UploadAllSucceeds(objects, bucketName, uid, generationId, images, faults, n - 1);
    }
  }

  /** No object outside the paths of the uploads made is touched. */
  lemma {:induction false} UploadAllFrame(objects: map<string, StoredObject>, bucketName: string, uid: string,
                                          generationId: string, images: seq<string>, faults: nat -> Fault, n: nat, p: string)
    requires n <= |images|
    requires forall i :: 0 <= i < UploadAll(objects, bucketName, uid, generationId, images, faults, n).made ==>
      p != FilePath(uid, generationId, i)
    ensures var u := UploadAll(objects, bucketName, uid, generationId, images, faults, n);
      (p in u.objects <==> p in objects) && (p in u.objects ==> u.objects[p] == objects[p])
  {
    if n > 0 {
      UploadAllFrame(objects, bucketName, uid, generationId, images, faults, n - 1, p);
    }
  }

  /** After an upload has thrown, no later index is uploaded. */
  lemma {:induction false} UploadAllStops(objects: map<string, StoredObject>, bucketName: string, uid: string,
                                          generationId: string, images: seq<string>, faults: nat -> Fault, m: nat, n: nat)
    requires m <= n <= |images|
    requires UploadAll(objects, bucketName, uid, generationId, images, faults, m).result.Throw?
    ensures UploadAll(objects, bucketName, uid, generationId, images, faults, n)
         == UploadAll(objects, bucketName, uid, generationId, images, faults, m)
    decreases n
  {
    if n > m {
      UploadAllStops(objects, bucketName, uid, generationId, images, faults, m, n - 1);
    }
  }

  lemma UploadedPathsDistinct(uid: string, generationId: string, k: nat)
    ensures forall i :: 0 <= i < k ==> FilePath(uid, generationId, i) != FilePath(uid, generationId, k)
  {
    forall i | 0 <= i < k
      ensures FilePath(uid, generationId, i) != FilePath(uid, generationId, k)
    {
      FilePathInjective(uid, generationId, i, k);
    }
  }

  /** The upload calls of the first `n` indices, in increasing index order. */
  function UploadCalls(uid: string, generationId: string, n: nat): seq<ExternalCall>
  {
    seq(n, i requires 0 <= i => UploadImage(FilePath(uid, generationId, i)))
  }

  /** The body of the `try` block. */
  function TryBlockRun(data: ImageGenerationRequest, auth: Option<AuthData>, env: Environment,
                       bucketName: string, w: World): Run
  {
    if !Truthy(data.prompt) then Run(Throw(PromptRequired), w, [])
    else if !Truthy(UidOf(auth)) then Run(Throw(NotAuthenticated), w, [])
    else GenerationRun(data, env, bucketName, w, data.prompt.value, UidOf(auth).value)
  }

  /** The options the handler passes to `generateImages`. */
  function OptionsFor(data: ImageGenerationRequest, prompt: string, inputImage: Option<InlineImage>): GenerateImageOptions
  {
    GenerateImageOptions(prompt, Some(NormalizeSampleCount(data.sampleCount)), inputImage, data.aspectRatio)
  }

  /** The `try` block once the request is valid: the sample count, the
      generation id, the input image, the provider, then `PersistRun`. */
  function GenerationRun(data: ImageGenerationRequest, env: Environment, bucketName: string, w: World,
                         prompt: string, uid: string): Run
  {
    var generationId := ResolveGenerationId(data.generationId, env.nowMillis, env.randomSuffix);
    var fetches := if Truthy(data.inputImageUrl) then [FetchImage(data.inputImageUrl.value)] else [];
    match ResolveInputImage(data, env.download)
    case Throw(e) => Run(Throw(e), w, fetches)
    case Ok(inputImage) =>
      var options := OptionsFor(data, prompt, inputImage);
      var generations := Repeat(GenerateContent(RequestFor(prompt, inputImage, data.aspectRatio)),
                                ProviderCalls(options, env.apiKey, env.replies));
      match GenerateImagesResult(options, env.apiKey, env.replies)
      case Throw(e) => Run(Throw(e), w, fetches + generations)
      case Ok(results) =>
        PersistRun(data, env, bucketName, w, prompt, uid, generationId, inputImage, results,
                   fetches + generations)
  }

  /** The rest of the `try` block once the images exist: the uploads in index
      order, the merge into the user document, the generation record, the response. */
  function PersistRun(data: ImageGenerationRequest, env: Environment, bucketName: string, w: World,
                      prompt: string, uid: string, generationId: string, inputImage: Option<InlineImage>,
                      results: seq<InlineImage>, calls: seq<ExternalCall>): Run
  {
    var images := Payloads(results);
    var uploads := UploadAll(w.objects, bucketName, uid, generationId, images, env.uploadFaults, |images|);
    var calls := calls + UploadCalls(uid, generationId, uploads.made);
    var w1 := w.(objects := uploads.objects);
    match uploads.result
    case Throw(e) => Run(Throw(e), w1, calls)
    case Ok(imageUrls) =>
      if env.userWriteFault.Some? then Run(Throw(env.userWriteFault.value), w1, calls + [MergeUser(uid)])
      else
        var w2 := w1.(users := MergedUsers(w1.users, uid, env.serverTime));
        var calls := calls + [MergeUser(uid), SetGeneration(uid, generationId)];
        if env.recordWriteFault.Some? then Run(Throw(env.recordWriteFault.value), w2, calls)
        else
          var record := GenerationRecordFor(data, prompt, inputImage, imageUrls, |images|, env.serverTime);
          Run(Ok(Completed(images, imageUrls, generationId)),
              w2.(generations := w2.generations[(uid, generationId) := record]), calls)
  }

  /** The `catch` block: an `HttpsError` is rethrown; any other error becomes
      `{success: false, error: message || "Failed to generate image"}`. */
  function CatchAtBoundary(e: Error): (r: Outcome<ImageGenerationResponse>)
    ensures e.HttpsError? ==> r == Throw(e)
    ensures e.PlainError? ==> r.Ok? && r.value.SoftFailure? && r.value.error != ""
    ensures e.PlainError? && Truthy(e.text) ==> r == Ok(SoftFailure(e.text.value))
    ensures e.PlainError? && !Truthy(e.text) ==> r == Ok(SoftFailure(DefaultFailureMessage))
  {
    if e.HttpsError? then Throw(e) else Ok(SoftFailure(Or(MessageOf(e), DefaultFailureMessage)))
  }

  /** One request end to end. */
  function HandlerRun(data: ImageGenerationRequest, auth: Option<AuthData>, env: Environment,
                      bucketName: string, w: World): Run
  {
    var tried := TryBlockRun(data, auth, env, bucketName, w);
    if tried.response.Throw? then tried.(response := CatchAtBoundary(tried.response.error)) else tried
  }

  /** One call of the callable, whose `data` may be null: reading `data.prompt`
      then throws a TypeError, which the `catch` turns into a soft failure. */
  function CallableRun(data: Option<ImageGenerationRequest>, auth: Option<AuthData>, env: Environment,
                       bucketName: string, w: World): Run
  {
    match data
    case None => Run(CatchAtBoundary(NullDataError), w, [])
    case Some(d) => HandlerRun(d, auth, env, bucketName, w)
  }

  // ----- the handler, step by step -----

  /** The Firestore documents the handler writes. */
  class Database {
    var users: map<string, UserDoc>
    var generations: map<(string, string), GenerationRecord>

    constructor (users: map<string, UserDoc>, generations: map<(string, string), GenerationRecord>)
      ensures this.users == users && this.generations == generations
    {
      this.users := users;
      this.generations := generations;
    }

    /** `set(fields, {merge: true})` on `users/{uid}`; `fault` is what the write throws, if anything. */
    method MergeUserFields(uid: string, fields: UserDoc, fault: Option<Error>) returns (error: Option<Error>)
      modifies this
      ensures error == fault && generations == old(generations)
      ensures fault.Some? ==> users == old(users)
      ensures fault.None? ==>
        users == old(users)[uid := (if uid in old(users) then old(users)[uid] else map[]) + fields]
    {
      error := fault;
      if fault.None? {
        var before := if uid in users then users[uid] else map[];
        users := users[uid := before + fields];
      }
    }

    /** `set(record)` on `users/{uid}/generations/{generationId}`: replaces the document. */
    method SetGeneration(uid: string, generationId: string, record: GenerationRecord, fault: Option<Error>)
      returns (error: Option<Error>)
      modifies this
      ensures error == fault && users == old(users)
      ensures fault.Some? ==> generations == old(generations)
      ensures fault.None? ==> generations == old(generations)[(uid, generationId) := record]
    {
      error := fault;
      if fault.None? {
        generations := generations[(uid, generationId) := record];
      }
    }
  }

  /** The `try` block of `generateImage`. */
  method TryBlock(data: ImageGenerationRequest, auth: Option<AuthData>, env: Environment,
                  storage: StorageService, db: Database)
    returns (out: Outcome<ImageGenerationResponse>, ghost calls: seq<ExternalCall>)
    modifies storage.bucket, db
    ensures var run := TryBlockRun(data, auth, env, storage.bucket.name,
                                   old(World(storage.bucket.objects, db.users, db.generations)));
      out == run.response && calls == run.calls &&
      storage.bucket.objects == run.world.objects &&
      db.users == run.world.users && db.generations == run.world.generations
  {
    ghost var w := World(storage.bucket.objects, db.users, db.generations);
    calls := [];
    if !Truthy(data.prompt) {
      return Throw(PromptRequired), calls;
    }
    var uid := UidOf(auth);
    if !Truthy(uid) {
      return Throw(NotAuthenticated), calls;
    }
    out, calls := Generate(data, env, storage, db, data.prompt.value, uid.value);
  }

  /** The `try` block after validation. */
  method Generate(data: ImageGenerationRequest, env: Environment, storage: StorageService, db: Database,
                  prompt: string, uid: string)
    returns (out: Outcome<ImageGenerationResponse>, ghost calls: seq<ExternalCall>)
    modifies storage.bucket, db
    ensures var run := GenerationRun(data, env, storage.bucket.name,
                                     old(World(storage.bucket.objects, db.users, db.generations)), prompt, uid);
      out == run.response && calls == run.calls &&
      storage.bucket.objects == run.world.objects &&
      db.users == run.world.users && db.generations == run.world.generations
  {
    calls := [];
    var sampleCount := NormalizeSampleCount(data.sampleCount);
    var generationId := ResolveGenerationId(data.generationId, env.nowMillis, env.randomSuffix);

    var inputImage: Option<InlineImage> := None;
    if Truthy(data.inputImageUrl) {
      calls := [FetchImage(data.inputImageUrl.value)];
      var downloaded := DownloadImageAsBase64(env.download);
      if downloaded.Throw? {
        return Throw(downloaded.error), calls;
      }
      inputImage := Some(downloaded.value);
    } else if Truthy(data.inputImageBase64) {
      inputImage := Some(InlineImage(data.inputImageBase64.value, Or(data.inputImageMimeType, DefaultInputMimeType)));
    }
    assert ResolveInputImage(data, env.download) == Ok(inputImage);

    var options := GenerateImageOptions(prompt, Some(sampleCount), inputImage, data.aspectRatio);
    assert options == OptionsFor(data, prompt, inputImage);
    var results, sent := GenerateImages(options, env.apiKey, env.replies);
    assert |sent| == ProviderCalls(options, env.apiKey, env.replies);
    calls := calls + Repeat(GenerateContent(RequestFor(prompt, inputImage, data.aspectRatio)), |sent|);
    if results.Throw? {
      return Throw(results.error), calls;
    }

    out, calls := Persist(data, env, storage, db, prompt, uid, generationId, inputImage, results.value, calls);
  }

  /** The upload loop: image `i` goes to index `i`, in increasing order; the
      first upload that throws ends it. */
  method UploadImages(storage: StorageService, uid: string, generationId: string, results: seq<InlineImage>,
                      faults: nat -> Fault)
    returns (uploaded: Outcome<seq<string>>, images: seq<string>, ghost made: nat)
    modifies storage.bucket
    ensures UploadAll(old(storage.bucket.objects), storage.bucket.name, uid, generationId, Payloads(results),
                      faults, |results|) == Uploads(uploaded, storage.bucket.objects, made)
    ensures uploaded.Ok? ==> images == Payloads(results)
  {
    ghost var objects := storage.bucket.objects;
    ghost var payloads := Payloads(results);
    var imageUrls: seq<string> := [];
    images := [];
    var i := 0;
    while i < |results|
      invariant 0 <= i <= |results|
      invariant UploadAll(objects, storage.bucket.name, uid, generationId, payloads, faults, i)
             == Uploads(Ok(imageUrls), storage.bucket.objects, i)
      invariant images == payloads[..i]
    {
      var url := storage.UploadGeneratedImage(uid, generationId, i, results[i].base64Data, faults(i));
      if url.Throw? {
        UploadAllStops(objects, storage.bucket.name, uid, generationId, payloads, faults, i + 1, |payloads|);
        return Throw(url.error), images, i + 1;
      }
      imageUrls := imageUrls + [url.value];
      images := images + [results[i].base64Data];
      i := i + 1;
    }
    assert images == payloads;
    uploaded, made := Ok(imageUrls), i;
  }

  /** The uploads and the two Firestore writes of the `try` block. */
  method Persist(data: ImageGenerationRequest, env: Environment, storage: StorageService, db: Database,
                 prompt: string, uid: string, generationId: string, inputImage: Option<InlineImage>,
                 results: seq<InlineImage>, ghost callsBefore: seq<ExternalCall>)
    returns (out: Outcome<ImageGenerationResponse>, ghost calls: seq<ExternalCall>)
    modifies storage.bucket, db
    ensures var run := PersistRun(data, env, storage.bucket.name,
                                  old(World(storage.bucket.objects, db.users, db.generations)),
                                  prompt, uid, generationId, inputImage, results, callsBefore);
      out == run.response && calls == run.calls &&
      storage.bucket.objects == run.world.objects &&
      db.users == run.world.users && db.generations == run.world.generations
  {
    var uploaded, images, made := UploadImages(storage, uid, generationId, results, env.uploadFaults);
    calls := callsBefore + UploadCalls(uid, generationId, made);
    if uploaded.Throw? {
      return Throw(uploaded.error), calls;
    }
    var imageUrls := uploaded.value;

    calls := calls + [MergeUser(uid)];
    var userError := db.MergeUserFields(uid, map["lastActive" := TimestampValue(env.serverTime),
                                                 "createdAt" := TimestampValue(env.serverTime)],
                                        env.userWriteFault);
    if userError.Some? {
      return Throw(userError.value), calls;
    }
    calls := calls + [SetGeneration(uid, generationId)];
    var record := GenerationRecord(prompt, OrNull(data.originalUrl), OrNull(data.inputImageUrl), inputImage.Some?,
                                   data.aspectRatio, imageUrls, |images|, "completed", env.serverTime);
    var recordError := db.SetGeneration(uid, generationId, record, env.recordWriteFault);
    if recordError.Some? {
      return Throw(recordError.value), calls;
    }
    out := Ok(Completed(images, imageUrls, generationId));
  }

  /** `generateImage`: the `try` block, then the `catch` policy at the boundary. */
  method GenerateImage(data: Option<ImageGenerationRequest>, auth: Option<AuthData>, env: Environment,
                       storage: StorageService, db: Database)
    returns (response: Outcome<ImageGenerationResponse>, ghost calls: seq<ExternalCall>)
    modifies storage.bucket, db
    ensures var run := CallableRun(data, auth, env, storage.bucket.name,
                                   old(World(storage.bucket.objects, db.users, db.generations)));
      response == run.response && calls == run.calls &&
      storage.bucket.objects == run.world.objects &&
      db.users == run.world.users && db.generations == run.world.generations
  {
    var attempt;
    if data.None? {
      attempt, calls := Throw(NullDataError), [];
    } else {
      attempt, calls := TryBlock(data.value, auth, env, storage, db);
    }
    if attempt.Throw? {
      if attempt.error.HttpsError? {
        response := attempt;
      } else {
        response := Ok(SoftFailure(Or(MessageOf(attempt.error), DefaultFailureMessage)));
      }
    } else {
      response := attempt;
    }
  }

  // ----- what one request guarantees -----

  /** A missing prompt is reported first, whoever the caller is, before any
      external call and without touching the stored state. */
  lemma MissingPromptRejectedFirst(data: ImageGenerationRequest, auth: Option<AuthData>, env: Environment,
                                   bucketName: string, w: World)
    requires !Truthy(data.prompt)
    ensures HandlerRun(data, auth, env, bucketName, w) == Run(Throw(PromptRequired), w, [])
  {
  }

  /** With a prompt but no caller id, the request is rejected as unauthenticated, equally early. */
  lemma MissingUidRejected(data: ImageGenerationRequest, auth: Option<AuthData>, env: Environment,
                           bucketName: string, w: World)
    requires Truthy(data.prompt) && !Truthy(UidOf(auth))
    ensures HandlerRun(data, auth, env, bucketName, w) == Run(Throw(NotAuthenticated), w, [])
  {
  }

  /** Only an `HttpsError` leaves the handler as an error; every other error
      becomes a soft failure with a non-empty message. */
  lemma OnlyHttpsErrorsEscape(data: ImageGenerationRequest, auth: Option<AuthData>, env: Environment,
                              bucketName: string, w: World)
    ensures var r := HandlerRun(data, auth, env, bucketName, w).response;
      (r.Throw? ==> r.error.HttpsError?) && (r.Ok? && r.value.SoftFailure? ==> r.value.error != "")
  {
  }

  /** The download and the provider only throw `HttpsError`s, so their
      failures are rethrown: a soft failure means the images were generated and
      an upload or a database write threw afterwards. */
  lemma SoftFailureOnlyAfterGeneration(data: ImageGenerationRequest, auth: Option<AuthData>, env: Environment,
                                       bucketName: string, w: World)
    requires HandlerRun(data, auth, env, bucketName, w).response.Ok?
    requires HandlerRun(data, auth, env, bucketName, w).response.value.SoftFailure?
    ensures Truthy(data.prompt) && Truthy(UidOf(auth)) && ResolveInputImage(data, env.download).Ok?
    ensures var input := ResolveInputImage(data, env.download).value;
      var results := GenerateImagesResult(OptionsFor(data, data.prompt.value, input), env.apiKey, env.replies);
      results.Ok? &&
      ((exists i :: 0 <= i < |results.value| && !env.uploadFaults(i).NoFault?) ||
       env.userWriteFault.Some? || env.recordWriteFault.Some?)
  {
    var input := ResolveInputImage(data, env.download).value;
    var results := GenerateImagesResult(OptionsFor(data, data.prompt.value, input), env.apiKey, env.replies);
    var uid := UidOf(auth).value;
    var generationId := ResolveGenerationId(data.generationId, env.nowMillis, env.randomSuffix);
    UploadAllSucceeds(w.objects, bucketName, uid, generationId, Payloads(results.value), env.uploadFaults,
                      |results.value|);
  }

  /** A completed request answers with the generated images in order, URL `i`
      for image `i`, and the generation id; each image is stored as a public
      JPEG at its index's path. */
  lemma CompletedResponse(data: ImageGenerationRequest, auth: Option<AuthData>, env: Environment,
                          bucketName: string, w: World)
    requires HandlerRun(data, auth, env, bucketName, w).response.Ok?
    requires HandlerRun(data, auth, env, bucketName, w).response.value.Completed?
    ensures Truthy(data.prompt) && Truthy(UidOf(auth)) && ResolveInputImage(data, env.download).Ok?
    ensures var run := HandlerRun(data, auth, env, bucketName, w);
      var response := run.response.value;
      var uid := UidOf(auth).value;
      var input := ResolveInputImage(data, env.download).value;
      var results := GenerateImagesResult(OptionsFor(data, data.prompt.value, input), env.apiKey, env.replies);
      results.Ok? &&
      response.generationId == ResolveGenerationId(data.generationId, env.nowMillis, env.randomSuffix) &&
      |response.images| == |response.imageUrls| == |results.value| &&
      1 <= |response.images| <= NormalizeSampleCount(data.sampleCount) &&
      forall i :: 0 <= i < |response.images| ==>
        response.images[i] == results.value[i].base64Data &&
        response.imageUrls[i] == UploadedUrl(bucketName, uid, response.generationId, i) &&
        FilePath(uid, response.generationId, i) in run.world.objects &&
        run.world.objects[FilePath(uid, response.generationId, i)]
          == StoredObject(DecodedBase64(response.images[i]), UploadContentType, true)
  {
    var input := ResolveInputImage(data, env.download).value;
    var results := GenerateImagesResult(OptionsFor(data, data.prompt.value, input), env.apiKey, env.replies);
    var uid := UidOf(auth).value;
    var generationId := ResolveGenerationId(data.generationId, env.nowMillis, env.randomSuffix);
    var fetches := if Truthy(data.inputImageUrl) then [FetchImage(data.inputImageUrl.value)] else [];
    var generations := Repeat(GenerateContent(RequestFor(data.prompt.value, input, data.aspectRatio)),
                              ProviderCalls(OptionsFor(data, data.prompt.value, input), env.apiKey, env.replies));
    assert HandlerRun(data, auth, env, bucketName, w)
        == PersistRun(data, env, bucketName, w, data.prompt.value, uid, generationId, input, results.value,
                      fetches + generations);
    PersistCompleted(data, env, bucketName, w, data.prompt.value, uid, generationId, input, results.value,
                     fetches + generations);
  }

  /** The images, URLs and stored objects of a `PersistRun` that completes. */
  lemma PersistCompleted(data: ImageGenerationRequest, env: Environment, bucketName: string, w: World,
                         prompt: string, uid: string, generationId: string, inputImage: Option<InlineImage>,
                         results: seq<InlineImage>, calls: seq<ExternalCall>)
    requires PersistRun(data, env, bucketName, w, prompt, uid, generationId, inputImage, results, calls).response.Ok?
    requires PersistRun(data, env, bucketName, w, prompt, uid, generationId, inputImage, results, calls)
               .response.value.Completed?
    ensures var run := PersistRun(data, env, bucketName, w, prompt, uid, generationId, inputImage, results, calls);
      var response := run.response.value;
      response.generationId == generationId &&
      |response.images| == |response.imageUrls| == |results| &&
      forall i :: 0 <= i < |response.images| ==>
        response.images[i] == results[i].base64Data &&
        response.imageUrls[i] == UploadedUrl(bucketName, uid, generationId, i) &&
        FilePath(uid, generationId, i) in run.world.objects &&
        run.world.objects[FilePath(uid, generationId, i)]
          == StoredObject(DecodedBase64(response.images[i]), UploadContentType, true)
  {
    var images := Payloads(results);
    UploadAllSucceeds(w.objects, bucketName, uid, generationId, images, env.uploadFaults, |images|);
  }

  /** A completed request writes one generation record: the prompt, null for
      each absent optional field, whether an input image was used, the URLs,
      their count, status "completed"; and it merges both timestamps into the
      user document, keeping its other fields. */
  lemma CompletedRecord(data: ImageGenerationRequest, auth: Option<AuthData>, env: Environment,
                        bucketName: string, w: World)
    requires HandlerRun(data, auth, env, bucketName, w).response.Ok?
    requires HandlerRun(data, auth, env, bucketName, w).response.value.Completed?
    ensures Truthy(data.prompt) && Truthy(UidOf(auth)) && ResolveInputImage(data, env.download).Ok?
    ensures var run := HandlerRun(data, auth, env, bucketName, w);
      var response := run.response.value;
      var uid := UidOf(auth).value;
      var key := (uid, response.generationId);
      key in run.world.generations &&
      run.world.generations[key] == GenerationRecord(
        data.prompt.value, OrNull(data.originalUrl), OrNull(data.inputImageUrl),
        ResolveInputImage(data, env.download).value.Some?, data.aspectRatio,
        response.imageUrls, |response.images|, "completed", env.serverTime) &&
      (forall k :: k != key ==>
         (k in run.world.generations <==> k in w.generations) &&
         (k in w.generations ==> run.world.generations[k] == w.generations[k])) &&
      run.world.users == MergedUsers(w.users, uid, env.serverTime)
  {
  }

  /** The external calls of a completed request, in order: the download when an
      image URL is given, exactly `sampleCount` provider calls with the same
      request, the uploads of indices 0, 1, …, K-1, the user merge, the record. */
  lemma CompletedCallOrder(data: ImageGenerationRequest, auth: Option<AuthData>, env: Environment,
                           bucketName: string, w: World)
    requires HandlerRun(data, auth, env, bucketName, w).response.Ok?
    requires HandlerRun(data, auth, env, bucketName, w).response.value.Completed?
    ensures Truthy(data.prompt) && Truthy(UidOf(auth)) && ResolveInputImage(data, env.download).Ok?
    ensures var run := HandlerRun(data, auth, env, bucketName, w);
      var response := run.response.value;
      var uid := UidOf(auth).value;
      var input := ResolveInputImage(data, env.download).value;
      run.calls ==
        (if Truthy(data.inputImageUrl) then [FetchImage(data.inputImageUrl.value)] else []) +
        Repeat(GenerateContent(RequestFor(data.prompt.value, input, data.aspectRatio)),
               NormalizeSampleCount(data.sampleCount)) +
        UploadCalls(uid, response.generationId, |response.images|) +
        [MergeUser(uid), SetGeneration(uid, response.generationId)]
  {
    var input := ResolveInputImage(data, env.download).value;
    var options := OptionsFor(data, data.prompt.value, input);
    assert Attempts(env.replies, LoopCount(SampleCountOf(options))).Ok?;
  }

  /** When every attempt replies without an image, the handler rethrows the
      service's internal "No images generated" error: nothing is uploaded or written. */
  lemma NoImagesIsRethrown(data: ImageGenerationRequest, auth: Option<AuthData>, env: Environment,
                           bucketName: string, w: World)
    requires Truthy(data.prompt) && Truthy(UidOf(auth)) && ResolveInputImage(data, env.download).Ok?
    requires env.apiKey != ""
    requires forall i :: 0 <= i < NormalizeSampleCount(data.sampleCount) ==>
      env.replies(i).Responded? && ExtractImage(env.replies(i).response).None?
    ensures HandlerRun(data, auth, env, bucketName, w).response == Throw(HttpsError(Internal, NoImagesMessage))
    ensures HandlerRun(data, auth, env, bucketName, w).world == w
    ensures forall c :: c in HandlerRun(data, auth, env, bucketName, w).calls ==>
      c.FetchImage? || c.GenerateContent?
  {
    var input := ResolveInputImage(data, env.download).value;
    AllNullRepliesThrowNoImages(OptionsFor(data, data.prompt.value, input), env.apiKey, env.replies);
  }

  /** Without an API key the service refuses before any provider call; the
      handler rethrows that and writes nothing. */
  lemma MissingApiKeyMakesNoAttempt(data: ImageGenerationRequest, auth: Option<AuthData>, env: Environment,
                                    bucketName: string, w: World)
    requires Truthy(data.prompt) && Truthy(UidOf(auth)) && ResolveInputImage(data, env.download).Ok?
    requires env.apiKey == ""
    ensures HandlerRun(data, auth, env, bucketName, w).response
         == Throw(HttpsError(FailedPrecondition, "Gemini API key not configured"))
    ensures HandlerRun(data, auth, env, bucketName, w).world == w
    ensures forall c :: c in HandlerRun(data, auth, env, bucketName, w).calls ==> c.FetchImage?
  {
  }

  /** A call without `data` ends in `success: false` with the runtime's
      TypeError message, before any validation or outside call. */
  lemma NullDataIsSoftFailure(auth: Option<AuthData>, env: Environment, bucketName: string, w: World)
    ensures CallableRun(None, auth, env, bucketName, w)
         == Run(Ok(SoftFailure("Cannot read properties of null (reading 'prompt')")), w, [])
  {
  }

  /** A failed download of the input image reaches the caller as the service's
      internal "Failed to download image" error, after the fetch and nothing else. */
  lemma DownloadFailureIsRethrown(data: ImageGenerationRequest, auth: Option<AuthData>, env: Environment,
                                  bucketName: string, w: World)
    requires Truthy(data.prompt) && Truthy(UidOf(auth)) && Truthy(data.inputImageUrl)
    requires env.download.DownloadFailed?
    ensures HandlerRun(data, auth, env, bucketName, w)
         == Run(Throw(HttpsError(Internal, "Failed to download image: " + Interpolate(MessageOf(env.download.error)))),
                w, [FetchImage(data.inputImageUrl.value)])
  {
  }

  /** When attempt `k` is the first provider call to throw, with an error that is
      not an `HttpsError`, the caller gets internal "Gemini API Error: …"; no
      attempt after `k` is made and nothing is uploaded or written. */
  lemma ProviderFailureIsWrapped(data: ImageGenerationRequest, auth: Option<AuthData>, env: Environment,
                                 bucketName: string, w: World, k: nat)
    requires Truthy(data.prompt) && Truthy(UidOf(auth)) && ResolveInputImage(data, env.download).Ok?
    requires env.apiKey != ""
    requires k < NormalizeSampleCount(data.sampleCount)
    requires forall j :: 0 <= j < k ==> env.replies(j).Responded?
    requires env.replies(k).CallFailed? && env.replies(k).error.PlainError?
    ensures var input := ResolveInputImage(data, env.download).value;
      HandlerRun(data, auth, env, bucketName, w)
      == Run(Throw(HttpsError(Internal, "Gemini API Error: " + Interpolate(env.replies(k).error.text))), w,
             (if Truthy(data.inputImageUrl) then [FetchImage(data.inputImageUrl.value)] else []) +
             Repeat(GenerateContent(RequestFor(data.prompt.value, input, data.aspectRatio)), k + 1))
  {
    var input := ResolveInputImage(data, env.download).value;
    FirstFailureEndsAttempts(OptionsFor(data, data.prompt.value, input), env.apiKey, env.replies, k);
  }

  /** The request the example below sends: prompt "a cat", two samples, no
      input image, no aspect ratio, no generation id. */
  predicate IsTwoCatsRequest(data: ImageGenerationRequest)
  {
    data.prompt == Some("a cat") && data.sampleCount == Some(2) &&
    !Truthy(data.inputImageUrl) && !Truthy(data.inputImageBase64) &&
    data.aspectRatio.None? && !Truthy(data.generationId)
  }

  /** Caller "u1" sends `IsTwoCatsRequest` and the provider answers both
      attempts with an image: two provider calls whose only part is the
      prompt, uploads of indices 0 then 1, and a record of two completed images. */
  lemma TwoCatsExample(data: ImageGenerationRequest, env: Environment, bucketName: string, w: World)
    requires IsTwoCatsRequest(data)
    requires env.apiKey != ""
    requires env.replies(0).Responded? && ExtractImage(env.replies(0).response).Some?
    requires env.replies(1).Responded? && ExtractImage(env.replies(1).response).Some?
    requires env.uploadFaults(0).NoFault? && env.uploadFaults(1).NoFault?
    requires env.userWriteFault.None? && env.recordWriteFault.None?
    ensures var run := HandlerRun(data, Some(AuthData("u1")), env, bucketName, w);
      var generationId := NatToString(env.nowMillis) + "_" + env.randomSuffix;
      var request := ContentRequest(Model, "user", [TextPart("a cat")], GenerationConfig([TEXT, IMAGE], None));
      run.response.Ok? && run.response.value.Completed? &&
      run.response.value.generationId == generationId &&
      run.calls == [GenerateContent(request), GenerateContent(request),
                    UploadImage(FilePath("u1", generationId, 0)), UploadImage(FilePath("u1", generationId, 1)),
                    MergeUser("u1"), SetGeneration("u1", generationId)] &&
      ("u1", generationId) in run.world.generations &&
      run.world.generations[("u1", generationId)].count == 2 &&
      run.world.generations[("u1", generationId)].status == "completed"
  {
    var auth := Some(AuthData("u1"));
    var results := TwoCatsGenerates(env);
    TwoCatsCompletes(data, env, bucketName, w, results);
    CompletedCallOrder(data, auth, env, bucketName, w);
    CompletedRecord(data, auth, env, bucketName, w);
    assert ResolveInputImage(data, env.download) == Ok(None);
    TwoCatsCallList(NatToString(env.nowMillis) + "_" + env.randomSuffix);
  }

  /** The call list `CompletedCallOrder` gives for the request above, written out. */
  lemma TwoCatsCallList(generationId: string)
    ensures var request := ContentRequest(Model, "user", [TextPart("a cat")], GenerationConfig([TEXT, IMAGE], None));
      [] + Repeat(GenerateContent(RequestFor("a cat", None, None)), NormalizeSampleCount(Some(2))) +
      UploadCalls("u1", generationId, 2) + [MergeUser("u1"), SetGeneration("u1", generationId)]
      == [GenerateContent(request), GenerateContent(request),
          UploadImage(FilePath("u1", generationId, 0)), UploadImage(FilePath("u1", generationId, 1)),
          MergeUser("u1"), SetGeneration("u1", generationId)]
  {
    var request := ContentRequest(Model, "user", [TextPart("a cat")], GenerationConfig([TEXT, IMAGE], None));
    assert RequestFor("a cat", None, None) == request by {
      assert [] + [TextPart("a cat")] == [TextPart("a cat")];
    }
    assert NormalizeSampleCount(Some(2)) == 2;
    assert Repeat(GenerateContent(request), 2) == [GenerateContent(request), GenerateContent(request)] by {
      assert Repeat(GenerateContent(request), 1) == [GenerateContent(request)];
    }
    var uploads := UploadCalls("u1", generationId, 2);
    assert uploads == [UploadImage(FilePath("u1", generationId, 0)), UploadImage(FilePath("u1", generationId, 1))];
  }

  lemma TwoCatsGenerates(env: Environment) returns (results: seq<InlineImage>)
    requires env.apiKey != ""
    requires env.replies(0).Responded? && ExtractImage(env.replies(0).response).Some?
    requires env.replies(1).Responded? && ExtractImage(env.replies(1).response).Some?
    ensures GenerateImagesResult(GenerateImageOptions("a cat", Some(2), None, None), env.apiKey, env.replies)
         == Ok(results)
    ensures |results| == 2
  {
    var first := ExtractImage(env.replies(0).response).value;
    var second := ExtractImage(env.replies(1).response).value;
    assert Attempts(env.replies, 0) == Ok([]);
    assert [] + [first] == [first];
    assert Attempts(env.replies, 1) == Ok([first]);
    results := [first, second];
    assert [first] + [second] == results;
    assert Attempts(env.replies, 2) == Ok(results);
  }

  lemma TwoCatsCompletes(data: ImageGenerationRequest, env: Environment, bucketName: string, w: World,
                         results: seq<InlineImage>)
    requires IsTwoCatsRequest(data)
    requires GenerateImagesResult(GenerateImageOptions("a cat", Some(2), None, None), env.apiKey, env.replies)
          == Ok(results)
    requires |results| == 2
    requires env.uploadFaults(0).NoFault? && env.uploadFaults(1).NoFault?
    requires env.userWriteFault.None? && env.recordWriteFault.None?
    ensures var run := HandlerRun(data, Some(AuthData("u1")), env, bucketName, w);
      run.response.Ok? && run.response.value.Completed? && |run.response.value.images| == 2 &&
      run.response.value.generationId == NatToString(env.nowMillis) + "_" + env.randomSuffix
  {
    var generationId := NatToString(env.nowMillis) + "_" + env.randomSuffix;
    assert NormalizeSampleCount(Some(2)) == 2;
    assert ResolveInputImage(data, env.download) == Ok(None);
    assert OptionsFor(data, "a cat", None) == GenerateImageOptions("a cat", Some(2), None, None);
    UploadAllSucceeds(w.objects, bucketName, "u1", generationId, Payloads(results), env.uploadFaults, 2);
  }
}
