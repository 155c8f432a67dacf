# current-emotion camera: annotation display and request building

A Dafny model of the pure part of the camera view in `src/camera/camera.js` of
current-emotion. The app takes a photo from the camera and sends it to Google
Cloud Vision's `images:annotate` endpoint. It then shows which emotions the
service found on the first face. The model covers four pieces:

- **Likelihood phrasing** (`Likelihood`). The six-value likelihood scale of a
  face annotation has an enum, its wire spelling, and the phrase table
  `likelyMap`. `likelyMap` is held literally as a map keyed by the raw string.
- **Presence and emoji selection** (`Emotions`). This covers `assess`, `has`,
  the `foundEmotions` filter over the fixed list anger, headwear, joy, sorrow
  and surprise, and the emoji list with its single "none" fallback.
- **Request building and reply reading** (`VisionRequest`, `VisionResponse`).
  The content is cut out of the data URL at the first comma. It follows
  JavaScript's `indexOf` result of -1 and the clamping of `substring`, with
  positions counted in characters rather than UTF-16 code units. The body asks for one request with one
  `FACE_DETECTION` feature and `maxResults: 1`. `responses[0].faceAnnotations[0]`
  is evaluated under JavaScript's rules: indexing `undefined` throws, and
  indexing past the end gives `undefined`. The `catch` of `sendPhoto` then turns
  every failure into "no annotation".
- **Stream teardown** (`Media`). `stopCamera` acts on a page. The page holds an
  optional video element, whose `srcObject` is null or a stream, and a registry
  of media tracks by identity, each with a kind and a ready state.

Modules: `Wrappers` (Option, Result, the JavaScript errors), `Likelihood`,
`Emotions`, `VisionRequest`, `VisionResponse`, `Media`.

Effects are parameters of the model:
- The network call (`fetch` followed by `res.json()`) is the parameter
  `server: HttpRequest -> FetchOutcome` of `SendPhoto`.
- The bearer token, which the source imports from a secret file, is the
  parameter `authToken`.
- The `window.Cypress` test-runner guard is the parameter `cypress` of
  `StopCamera`.

Facts about `camera.js` that the model records:
- `sendPhoto` never reads the HTTP status (`VisionResponse.StatusIgnored`). An
  error reply's body has no `responses`, so `obj.responses[0]` throws a
  TypeError and the result is no annotation
  (`VisionResponse.ErrorBodyGivesNoAnnotation`).
- `sendPhoto` does not refresh its token and does not retry after a 401.
- `camera.js` has no level or percent mapping of likelihoods.
- `onPlay` keeps no generation counter; its loop is never cancelled.

## Model

| member | source | states |
|---|---|---|
| `Likelihood.LookupPhrase` | src/camera/camera.js:14-21 | looking a raw string up in `likelyMap` gives a phrase exactly when the string is one of the six wire names, and that phrase is the one the table gives that value |
| `Likelihood.LikelyMapTotalAndInjective` | src/camera/camera.js:14-21 | `likelyMap` has exactly the six wire names as keys, maps each to its value's phrase, and two values share a phrase only if they are equal |
| `Likelihood.ParseName` | src/camera/camera.js:15-20 | the six wire spellings and the enum are in one-to-one correspondence: parsing a name gives its value, and a string parses to a value only if it is that value's name |
| `Likelihood.PresentIsTopOfScale` | src/camera/camera.js:156 | "present" (LIKELY or VERY_LIKELY) means exactly "at least LIKELY" on the ordered scale |
| `Emotions.Assess` | src/camera/camera.js:152 | `assess(mood)` gives a phrase exactly when the annotation's `<mood>Likelihood` field holds a recognised likelihood, and then it is that likelihood's phrase |
| `Emotions.Has` | src/camera/camera.js:154-157 | `has(mood)` holds iff there is an annotation whose `<mood>Likelihood` field parses to LIKELY or VERY_LIKELY; it is false with no annotation, an absent field, an unrecognised value, or any of the other four values |
| `Emotions.FilterPresent` | src/camera/camera.js:201 | `filter(has)` keeps the present moods in their order (an order-preserving subsequence) and holds every present mood of its input and nothing else |
| `Emotions.FilterPresentCounts` | src/camera/camera.js:201 | `filter(has)` keeps each present mood exactly as many times as its input lists it, and each absent mood zero times |
| `Emotions.FoundEmotions` | src/camera/camera.js:201 | `foundEmotions` is a subsequence of the emotion list of line 10, holds exactly the present emotions, and has at most five entries |
| `Emotions.FoundEmotionsUnique` | src/camera/camera.js:201 | every subsequence of the emotion list that holds exactly the present emotions equals `foundEmotions` |
| `Emotions.SubsequenceDeterminedByMembers` | src/camera/camera.js:201 | over a list without repetitions, two subsequences with the same members are equal, so an order-preserving filter is fixed by what it keeps |
| `Emotions.Emojis` | src/camera/camera.js:202-206 | the emoji list is never empty; it holds the "none" image iff no emotion is present, and then that image alone; otherwise its i-th image is the `images/<m>.svg` image of the i-th found emotion, so every present emotion gets exactly its image, once, in list order (at most five) |
| `Emotions.PresenceExample` | src/camera/camera.js:201 | with joy LIKELY, surprise UNLIKELY and headwear VERY_LIKELY, the found emotions are headwear then joy, and surprise is excluded |
| `Emotions.PresenceEmojiExample` | src/camera/camera.js:202-204 | for that annotation the emojis are the headwear image then the joy image |
| `Emotions.NoAnnotationShowsNone` | src/camera/camera.js:205-206 | with no annotation nothing is found and the emoji list is the single "none" image |
| `VisionRequest.IndexOf` | src/camera/camera.js:55 | `indexOf(',')` is -1 iff the string has no comma; otherwise it is a position holding a comma with no comma before it |
| `VisionRequest.SubstringFrom` | src/camera/camera.js:56 | `substring(start)` clamps the start: below 0 gives the whole string, past the end gives the empty string, otherwise the string is the prefix followed by the result |
| `VisionRequest.ExtractContent` | src/camera/camera.js:55-56 | the content is the whole photo data when it has no comma; otherwise the data is a comma-free prefix, a comma, then the content |
| `VisionRequest.ContentAfterHeader` | src/camera/camera.js:55-56 | for any comma-free header and any payload, cutting `header,payload` at the first comma gives back the payload |
| `VisionRequest.ContentOfDataUrl` | src/camera/camera.js:55-56 | for a data URL `data:<type>;base64,<payload>` with a comma-free media type, the extracted content is the payload |
| `VisionRequest.ContentIsSuffix` | src/camera/camera.js:56 | the content is a suffix of the photo data |
| `VisionRequest.BuildRequest` | src/camera/camera.js:50-64 | the request is a POST to the annotate URL with bearer and JSON headers; its body has exactly one request, with exactly the one feature `{maxResults: 1, type: FACE_DETECTION}` and image content equal to the extracted content |
| `VisionRequest.RequestCarriesPayload` | src/camera/camera.js:55-64 | the request for a canvas data URL carries exactly its base64 payload |
| `VisionResponse.Index` | src/camera/camera.js:69 | JavaScript indexing: `undefined[i]` throws a TypeError; otherwise the result is present iff `i` is in range, and it is then the element at `i` |
| `VisionResponse.Lookup` | src/camera/camera.js:67-69 | `obj.responses[0].faceAnnotations[0]` returns a face iff every step of the path exists, and then it is the first face of the first response; it returns undefined without throwing iff the first response lists no faces; a rejected fetch or unparsable body fails |
| `VisionResponse.SendPhoto` | src/camera/camera.js:49-74 | `sendPhoto` returns an annotation iff the reply to the built request has a first face in its first response, and then it is that face; every other outcome, including every thrown error, is "no annotation" |
| `VisionResponse.StatusIgnored` | src/camera/camera.js:67-69 | the lookup depends only on the reply body, never on the HTTP status |
| `VisionResponse.ErrorBodyGivesNoAnnotation` | src/camera/camera.js:69-73 | a reply of any status whose body has no `responses` throws a TypeError in the lookup, and `sendPhoto` yields no annotation |
| `VisionResponse.OnlyFirstFace` | src/camera/camera.js:69 | whenever the first response lists one or more faces, only the first is returned, whatever the status and the later responses |
| `VisionResponse.PossibleJoyExample` | src/camera/camera.js:66-69 | a 200 reply whose first face has joy POSSIBLE yields that face; joy is assessed "maybe" and is not present |
| `Media.VideoTracks` | src/camera/camera.js:118 | `getVideoTracks()` holds exactly the stream's tracks of video kind |
| `Media.StopAll` | src/camera/camera.js:119 | `forEach(track => track.stop())` ends every listed track, keeps its kind, and leaves every other track and the set of tracks unchanged |
| `Media.StopCamera` | src/camera/camera.js:113-121 | under Cypress nothing changes; with no video element it throws; with no stream nothing changes; otherwise the source becomes null, every video track of the old stream is ended, and its audio tracks and all other tracks are untouched |
| `Media.StopCameraIdempotent` | src/camera/camera.js:113-121 | a second `stopCamera()` after a successful one changes nothing |
| `Media.NoLiveVideoTrackRemains` | src/camera/camera.js:117-120 | after `stopCamera()` with a stream attached, no video track of that stream is still live |

## Left out

- The `onPlay` scan loop (lines 23-35). It reschedules itself on a one-second timer, and its detection body is commented out. What it shows is timer concurrency, not logic.
- `startCamera` and the `getUserMedia` callbacks (lines 76-110). They are browser I/O.
- `takePhoto`, face-api detection and `outlineFaces` (lines 37-47, 124-145). They are an external model plus canvas drawing.
- The React state and JSX of `Camera`. This includes `cameraOn`, `loadModel`, `sendToGoogle` and `snapPhoto`. It also includes the annotation panel text, whose lines show `assess` results and show "undefined" for a missing phrase.
- `alert` and `console.error` in the `catch` of `sendPhoto`. They are side effects.
- The `fetch` call itself. The network is the `server` parameter.
- `VisionRequest.IndexOf`: positions count Unicode characters, not the UTF-16 code units of a JavaScript string, so a character outside the Basic Multilingual Plane before the comma shifts the JavaScript index by one, and lone surrogates cannot be written at all. The content cut at the first comma is the same text either way, and a canvas data URL is plain ASCII.
- `VisionRequest.BuildRequest`: the body is kept as a structured value, not as the text `JSON.stringify` produces.
- `Emotions.Has`: an annotation holds only the string-valued fields of the face object. A field with a non-string JSON value is treated as absent. For `has` this gives the same result in the source, because `===` against a string fails.
- `Emotions.Assess`: a field with a non-string JSON value is treated as absent, so `Assess` gives no phrase. The source converts a property key to a string first, so an array value such as `["LIKELY"]` does find the phrase `probably` in `likelyMap`. The service never sends such values.
- `Emotions.Assess`: the prototype-chain keys of a plain JavaScript object (`constructor`, `toString`, …) are not modelled. A field with such a value is treated as unrecognised.
- `VisionResponse.Lookup`: `responses` and `faceAnnotations` are either arrays of objects or absent. A null element or a non-array value is not modelled. A reply body that is not an object counts as one without `responses`, which gives the same result in the source.
- A distinct error result for each HTTP status, token refresh with one retry after a 401, likelihood level and percent buckets, and generation-counter loop cancellation. None of these appear in this code, so nothing models them.
- `src/image-util.js`, `src/gcp-util.js`, `src/bar/bar.js` and the `server/` files. They are FileReader, canvas, OAuth and Express plumbing, and they are not part of this model. `VisionRequest.DataUrl` is only the string shape that `canvas.toDataURL` produces.
