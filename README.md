# photo_ai `generateImage` — a Dafny model

This project models the core of the photo_ai image backend. That core has three parts:

- **`generateImage`**, the Firebase callable. It validates the request, normalises the sample count, and picks the generation id. It resolves the input image, asks the Gemini image service for images, and uploads each image to the storage bucket in index order. It then merges two timestamps into the user's Firestore document and writes the generation record. Finally it returns `{success, images, imageUrls, generationId}` or applies its error policy.
- **`GeminiImageService`**:
  - `generateImages` runs one single-image attempt per requested sample and keeps the non-null images in order.
  - `generateSingleImage` builds the request parts and the configuration, and reads the first inline image of the first candidate.
  - `downloadImageAsBase64` gives the result its shape and its defaults.
- **`StorageService.uploadGeneratedImage`** writes the image at a deterministic path, makes it public and returns its public URL.

## How the model is built

Modules and their source files:

| module | file | source |
|---|---|---|
| `Runtime` | `runtime.dfy` | JavaScript value semantics: optional values, truthiness, `||` defaults, decimal rendering of numbers in templates, `HttpsError` next to plain errors |
| `Storage` | `storage_service.dfy` | `storage_service.ts` |
| `Gemini` | `gemini_service.dfy` | `gemini_service.ts` |
| `Handler` | `generate_images.dfy` | `generateImages.ts` |

Outside calls are oracles. The model is given what each one returns or throws:

- **Gemini**: reply `i` to attempt `i`.
- **Image URL**: the HTTP download of the image.
- **Bucket**: whether `file.save` or `file.makePublic` throws for upload `i`.
- **Firestore**: whether either write throws.

These, together with `Date.now()`, the random id suffix and the resolved server timestamp, make up `Handler.Environment`.

Each operation exists in two forms:

- **Specification functions.** `Gemini.Attempts`, `Gemini.GenerateImagesResult`, `Handler.UploadAll` and `Handler.HandlerRun` state what an operation returns, which stored state results, and which outside calls it makes, in what order.
- **Imperative methods.** `Gemini.GenerateSingleImage` (the early-return scan of the parts), `Gemini.GenerateImages` (the attempt loop), `Storage.StorageService.UploadGeneratedImage` (a class over the bucket's path→object map), `Handler.UploadImages` (the upload loop) and `Handler.GenerateImage` (the handler over the bucket and a `Database` class) follow the source step by step. Each is proved equal to its specification function.

The lemmas then state the promised properties about the specification functions.

Where the code and its description disagree, the model follows the code:

- **Sample count 0.** `data.sampleCount || 4` turns a sample count of 0 into **4** attempts, not 1.
- **The service's own default** is 1 attempt. It applies only when the count is absent. A count of 0 or below makes no attempt at all. The handler always passes a count in [1, 4].
- **"No images generated"** is thrown as an `HttpsError`. The handler therefore **rethrows** it instead of returning `{success: false}`. The same holds for the download errors and the missing-API-key error. For a non-null `data`, a soft failure can only come from an upload or a Firestore write (`Handler.SoftFailureOnlyAfterGeneration`). A call with null `data` fails on `data.prompt` with a TypeError and gets a soft failure before validation (`Handler.NullDataIsSoftFailure`).
- **`createdAt` on the user document** is written with `merge: true` on every request, so it is overwritten each time. It is not set once.

## Model

| member | source | states |
|---|---|---|
| Runtime.NatToStringInjective | functions/src/services/storage_service.ts:24 | the decimal rendering of `${index}` is injective (via the parse-back round trip `ParseNatToString`) |
| Runtime.ParseNatToString | functions/src/services/storage_service.ts:24 | reading the rendered decimal digits back gives the number |
| Storage.FilePathInjective | functions/src/services/storage_service.ts:24 | for a fixed uid and generation id, two indices give the same path iff they are equal |
| Storage.UploadedUrlInjective | functions/src/services/storage_service.ts:24-33 | ... and the same public URL iff they are equal |
| Storage.AfterUpload | functions/src/services/storage_service.ts:25-32 | the object at the path is the decoded data as `image/jpeg`, public iff `makePublic` succeeded; a throwing `save` is taken to store nothing (see Left out); no other path changes |
| Storage.SecondUploadReplacesFirst | functions/src/services/storage_service.ts:24-30 | uploading to the same (uid, generationId, index) twice leaves exactly the state of the second upload alone |
| Storage.StorageService.UploadGeneratedImage | functions/src/services/storage_service.ts:18-34 | the bucket afterwards is `AfterUpload` of the bucket before; the result (`UploadResult`) is the URL `https://storage.googleapis.com/{bucket}/{path}` when neither bucket call throws, else the thrown error, and it depends on bucket, uid, generation id and index only, never on the image data |
| Gemini.RequestFor | functions/src/services/gemini_service.ts:108-135 | model and role fixed; 1 or 2 parts, the input image first iff given, the prompt always last; modalities [TEXT, IMAGE]; an image configuration iff an aspect ratio is given, carrying it |
| Gemini.FirstInlineImageNone | functions/src/services/gemini_service.ts:141-152 | no image is found iff no part carries inline data |
| Gemini.FirstInlineImageAt | functions/src/services/gemini_service.ts:141-147 | when part `k` is the first with inline data, the image is that part, shaped |
| Gemini.OnlyFirstCandidateCounts | functions/src/services/gemini_service.ts:138-139 | candidates after the first never change the extracted image |
| Gemini.GenerateSingleImage | functions/src/services/gemini_service.ts:101-153 | sends `RequestFor`; null means no inline-data part in the first candidate; an image is the shaped data of the first part with inline data |
| Gemini.Attempts | functions/src/services/gemini_service.ts:64-71 | succeeds iff none of the `n` calls throws, with at most `n` images; a failure carries the error of the first call that threw |
| Gemini.AttemptsKeepNonNullInOrder | functions/src/services/gemini_service.ts:64-71 | without a throw, the results are exactly the non-null images of attempts 0..n-1, in attempt order |
| Gemini.CallsMade | functions/src/services/gemini_service.ts:64-67 | all `n` calls are made unless one throws; then the calls end with the one that threw |
| Gemini.AttemptsStop | functions/src/services/gemini_service.ts:64-71 | once an attempt has thrown, later attempts change nothing |
| Gemini.CallsMadeStops | functions/src/services/gemini_service.ts:64-71 | once an attempt has thrown, no later call is made |
| Gemini.WrapGeminiError | functions/src/services/gemini_service.ts:82-90 | an `HttpsError` passes unchanged; any other error becomes `internal` "Gemini API Error: {message}" |
| Gemini.GenerateImagesResult | functions/src/services/gemini_service.ts:45-91 | no API key gives `failed-precondition`; a success holds between 1 and `sampleCount` images; every failure is an `HttpsError` |
| Gemini.ProviderCalls | functions/src/services/gemini_service.ts:50-71 | no provider call without an API key, never more than `sampleCount` |
| Gemini.FirstFailureEndsAttempts | functions/src/services/gemini_service.ts:64-90 | when attempt `k` is the first call to throw, exactly calls 0..k are made and the service throws that error as its catch wraps it |
| Gemini.AllNullRepliesThrowNoImages | functions/src/services/gemini_service.ts:73-78 | when every attempt replies without an image, the service throws `internal` "No images generated…" |
| Gemini.GenerateImages | functions/src/services/gemini_service.ts:45-91 | returns `GenerateImagesResult` and sends the same request once per call made, `ProviderCalls` times |
| Handler.NormalizeSampleCount | functions/src/ai/generateImages.ts:75 | always in [1, 4]; absent or 0 gives 4, negative gives 1, above 4 gives 4, 1..4 stays |
| Handler.ResolveGenerationId | functions/src/ai/generateImages.ts:76-77 | never empty; the caller's id when non-empty, else `{Date.now()}_{suffix}` |
| Handler.ResolveInputImage | functions/src/ai/generateImages.ts:80-91 | a URL wins: its downloaded body with the response's content type or `image/jpeg`, or `internal` "Failed to download image: {message}" (gemini_service.ts:160-178); else inline base64 with its MIME type or `image/jpeg`; else none |
| Handler.MergedUsers | functions/src/ai/generateImages.ts:117-122 | `lastActive` and `createdAt` both become the server time; other fields and other users are kept |
| Handler.UploadAll | functions/src/ai/generateImages.ts:105-114 | at most `n` uploads; on success exactly `n`, with `n` URLs |
| Handler.UploadAllSucceeds | functions/src/ai/generateImages.ts:105-114 | the loop succeeds iff no upload throws; then URL `i` is the URL of index `i` and path `i` holds image `i` as a public JPEG |
| Handler.UploadAllStopsAtFirstFault | functions/src/ai/generateImages.ts:105-114 | on failure the last upload made is the one that threw, with its error, and every earlier one succeeded |
| Handler.UploadAllFrame | functions/src/ai/generateImages.ts:105-111 | no object outside the paths of the uploads made changes |
| Handler.UploadAllStops | functions/src/ai/generateImages.ts:105-111 | once an upload has thrown, no later index is uploaded |
| Handler.CatchAtBoundary | functions/src/ai/generateImages.ts:143-154 | an `HttpsError` is rethrown unchanged; any other error gives `success: false` with its message or "Failed to generate image" |
| Handler.Database.MergeUserFields | functions/src/ai/generateImages.ts:119-122 | a merge write keeps other fields of the document and other documents; a failed write changes nothing |
| Handler.Database.SetGeneration | functions/src/ai/generateImages.ts:124-134 | the record replaces the document at (uid, generationId); a failed write changes nothing |
| Handler.UploadImages | functions/src/ai/generateImages.ts:102-114 | the loop's URLs, bucket and number of uploads are those of `UploadAll`; on success `images` is `Payloads(results)` |
| Handler.Persist | functions/src/ai/generateImages.ts:102-141 | the uploads and the two Firestore writes produce the response, bucket, documents and calls of `PersistRun` |
| Handler.Generate | functions/src/ai/generateImages.ts:75-141 | the `try` block after validation produces exactly the run `GenerationRun` describes |
| Handler.TryBlock | functions/src/ai/generateImages.ts:58-141 | the `try` block produces exactly the run `TryBlockRun` describes |
| Handler.GenerateImage | functions/src/ai/generateImages.ts:51-156 | the handler's response, bucket, user documents, generation records and outside calls are those of `CallableRun` (a null `data`, else `HandlerRun`) |
| Handler.NullDataIsSoftFailure | functions/src/ai/generateImages.ts:55-60 | a call with null `data` fails on `data.prompt` with a TypeError, so it returns `success: false` with that message, before any outside call |
| Handler.MissingPromptRejectedFirst | functions/src/ai/generateImages.ts:60-65 | a falsy prompt throws `invalid-argument` whoever the caller is (even with no uid), with no outside call and no state change |
| Handler.MissingUidRejected | functions/src/ai/generateImages.ts:67-73 | with a prompt but no uid, `unauthenticated` is thrown, equally early |
| Handler.OnlyHttpsErrorsEscape | functions/src/ai/generateImages.ts:143-154 | the handler only throws `HttpsError`s; a soft failure always carries a non-empty message |
| Handler.SoftFailureOnlyAfterGeneration | functions/src/ai/generateImages.ts:82-154 | for a non-null `data`, `success: false` means the images were generated and then an upload or a Firestore write threw |
| Handler.CompletedResponse | functions/src/ai/generateImages.ts:94-141 | on success: the resolved id, `images[i] = results[i].base64Data`, URL `i` is index `i`'s URL, path `i` holds image `i`, and 1 ≤ count ≤ `sampleCount` |
| Handler.CompletedRecord | functions/src/ai/generateImages.ts:117-134 | on success the record holds the prompt, null for falsy optional fields, whether an input image was used, the URLs, their count and "completed"; no other record changes; the user merge took place |
| Handler.CompletedCallOrder | functions/src/ai/generateImages.ts:82-134 | on success the calls are: the download if a URL was given, exactly `sampleCount` identical provider calls, uploads 0..K-1, the merge, the record |
| Handler.NoImagesIsRethrown | functions/src/ai/generateImages.ts:94-148 | when every attempt replies without an image, the handler rethrows "No images generated…" and changes no stored state |
| Handler.DownloadFailureIsRethrown | functions/src/ai/generateImages.ts:82-85 | a failed download of `inputImageUrl` reaches the caller as `internal` "Failed to download image: {message}" after the fetch alone, with no state change |
| Handler.ProviderFailureIsWrapped | functions/src/ai/generateImages.ts:94-99 | when attempt `k` is the first provider call to throw a non-`HttpsError`, the caller gets `internal` "Gemini API Error: {message}" after exactly k+1 provider calls, with no upload, write or state change |
| Handler.MissingApiKeyMakesNoAttempt | functions/src/ai/generateImages.ts:94-99 | without an API key, `failed-precondition` reaches the caller with no provider call and no state change |
| Handler.TwoCatsExample | functions/src/ai/generateImages.ts:51-156 | a two-sample text-only request with both attempts answered: two identical single-part provider calls, uploads of indices 0 and 1, the merge, a record of 2 completed images |

## Left out

- Firebase Admin initialisation, the Firestore `databaseId` setting, the service singletons and `functions/src/index.ts`. These are bootstrapping and deployment configuration.
- The real outside calls: `generateContent`, the `axios.get` download with its 30-second timeout, `file.save`, `file.makePublic` and both Firestore `set` calls. Each is an oracle value in `Environment`. A Firestore write that throws is modelled as writing nothing.
- Base64 encoding and decoding by `Buffer`. A download's body is taken as already encoded. A stored object is labelled `DecodedBase64(text)` by the base64 text it came from, so two texts that decode to the same bytes (padding, whitespace) give different labels here; no property proved depends on that.
- `Date.now()`, `Math.random().toString(36).substr(2, 9)` and the server timestamps. These are parameters. One resolved server time stands for every `serverTimestamp()` of a request.
- async/await, `console.error` logging and concurrent requests. The steps of one request are sequential in the model.
- Gemini.GenerateImages: `sampleCount` is an integer. A fractional or NaN count (JavaScript number semantics in `i < sampleCount`) is not modelled.
- Handler.NormalizeSampleCount: the request's `sampleCount` is an integer. A fractional count such as 2.5 passes the clamp unchanged and the loop then makes 3 attempts; so the "exactly `sampleCount`" of `Handler.CompletedCallOrder` and the bound of `Handler.CompletedResponse` hold for integer counts only.
- The request's `aspectRatio` ranges over the ten values of the type. A value outside them is not modelled, nor is a non-string `prompt`.
- Gemini.GenerateImages: the construction of the `GoogleGenAI` client is assumed not to throw.
- Storage.AfterUpload: a `file.save` that throws is modelled as storing nothing. The storage client gives no such guarantee; a write that completed but whose reply was lost would leave the object in place.
- Handler.NullDataIsSoftFailure: the message is the text V8 gives this TypeError. A `data` that is undefined rather than null, or of another type, is not modelled.
- The API-key parameter lookup is the `apiKey` string of `Environment`.
