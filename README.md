# AI image generator: request pipeline and component state

This project is a Dafny model of the two parts of the "generating-AI-Images" React application that hold its logic. Everything in it is proved by the Dafny verifier.

- **`src/services/imageService.js`** is the image-request pipeline.
  - `generateImage` is the entry point. It rejects a prompt that is missing or that trims to nothing.
  - It then calls the primary provider: the Google-AI-enhanced Pollinations path when `REACT_APP_GOOGLE_AI_API_KEY` is set, plain Pollinations otherwise.
  - If the primary provider rejects, it falls back to DeepAI and then to Stable Diffusion. When all three reject, it rejects with one fixed message.
  - The Pollinations path:
    - appends a quality suffix to the prompt and percent-encodes it with `encodeURIComponent`;
    - derives a seed from the prompt's UTF-16 code units and the current second;
    - fills the full-size URL template;
    - verifies the image with a race between the image's `load` event, its `error` event (which switches to a simpler URL) and a 20-second timer. A shared `hasResolved` flag guards the race.
- **`src/components/ImageGenerator.js`** is the component.
  - It has six pieces of state.
  - Its handlers are `handleGenerate`, `handleImageLoad`, `handleImageError`, `handleDownload` and `handleKeyPress` (Ctrl+Enter).
  - The button is disabled, its label changes, and the spinner, error, image, success note and download button appear under fixed conditions.

## How the pieces fit

| file | module | role |
|---|---|---|
| `wrappers.dfy` | `Wrappers` | `Option` and `Result` |
| `utf16.dfy` | `Utf16` | JavaScript strings as UTF-16 code units, a lone surrogate, and `String.prototype.trim`'s whitespace set. |
| `uri.dfy` | `Uri` | `encodeURIComponent` as the ECMA-262 sections "encodeURIComponent" and "Encode" define it: the unreserved set, `CodePointAt`, UTF-8 and `%XX` escapes, and the `URIError` on a lone surrogate. A percent-decoder serves as its inverse. |
| `url.dfy` | `Url` | The decimal text of an integer (`Number.prototype.toString` for integers), query strings `name=value&…`, and a parser that reads a URL back into its path and parameters. |
| `image_service.dfy` | `ImageService` | The pipeline. |
| `image_generator.dfy` | `ImageGeneratorUi` | The component. |

### The pipeline

The image service is a module of pure functions.

- The outside world enters as parameters:
  - the clock reading `nowMs`;
  - whether the Google key is set;
  - for each Pollinations call, an `Attempt`: the clock reading plus the order in which the verification image and timer fire their events. A sequence with no event describes the moment before any event has fired. The 20-second timer always fires in the end, so every complete sequence contains `Timeout`, and then the call has settled (`TimerSettlesPollinations`, `TimerSettlesGenerateImage`);
  - the DeepAI and Stable Diffusion endpoints, as functions from the request each is sent to the reply it gives.
- A provider call settles as `Settlement`: `Resolved(url)` or `Rejected(message)`. `Pending` marks a call that has not settled yet, because no event has fired.
- `GenerateImage` returns the settlement together with the list of providers it actually called, in order.

The verification race appears in two forms:

- the function `RaceOutcome`, where the first event decides;
- the class `VerificationImage`. It keeps the `hasResolved` flag and the values passed to `resolve` as fields. Its three handlers are methods that update them.

The method `Verify` dispatches a sequence of events to a fresh `VerificationImage` in a loop. It is proved to settle as `RaceOutcome` says.

The two URL templates are built from lists of parameters:

- main URL: `https://image.pollinations.ai/prompt/<encoded>?width=1024&height=1024&seed=<seed>&nologo=true&private=false&enhance=true&model=flux`;
- simple URL: `…?width=512&height=512&seed=<seed>&enhance=true`.

The text is the same as the template literals. The point of building them this way is the proof of each: parsing the URL back gives exactly the prompt and the parameters the source writes.

### The component

The component's state appears twice:

- the datatype `View`, with one function per handler (`Submit`, `Complete`, `ImageLoad`, `ImageError`, …);
- the class `ImageGenerator`, whose six fields the handler methods update in place. Each method is proved to produce the state its function gives.

`handleGenerate` is asynchronous, so it is split at its `await`:

- `HandleGenerate` is the part before it, and returns the prompt it hands to the service;
- `HandleGenerateSettled` is the part after the service has settled.

The invariant kept between them is `Consistent`, and every handler preserves it:

- the image is never loading and loaded at once;
- it can be loading only if there is one;
- during a request there is no image and no image flag is set.

Some facts about the application fall out of the proofs:

- **The Google retry never rescues anything** (`GoogleRetryFutile`). The only way the Pollinations path rejects is `encodeURIComponent` throwing on a lone surrogate, and the Google suffix does not change whether the prompt has one. So the retry with the raw prompt runs only when it is certain to fail in the same way.
- **Pollinations monopolises the chain.** For a valid, well-formed prompt Pollinations never rejects, so the fallbacks are never reached (`WellFormedPromptStaysPrimary`). The call resolves as soon as the first verification event fires, and it is unsettled only before then (`PendingIff`).
- **The component's own fallback text never appears** (`ErrorAfterRequest`, `GenerateAndSettle`). After a request the component itself submits, the error field holds either nothing or the service's terminal message. The service's validation message cannot appear either, because the component checks `trim` first.
- **The invariant depends on event order.** It holds only because the page mounts the image element after the request has finished. A load event arriving during a request would break it (`LoadDuringRequestBreaksConsistency`).

`generateImage` repeats the component's trim check itself. It rejects a missing or blank prompt with "Please provide a valid prompt" (`src/services/imageService.js:146-148`); see `GenerateImage` and `ValidationGuard`.

## Model

| member | source | states |
|---|---|---|
| Utf16.Trim | src/services/imageService.js:146 | `String.prototype.trim`, both ends. Defined by `TrimStart` and `TrimEnd` and characterised by `TrimSlice` and `TrimEmptyIff`. |
| Utf16.TrimStart | src/services/imageService.js:146 | Removes exactly the leading run of whitespace and line terminators. The result is a suffix of the input, every unit dropped is trimmable, and the result does not start with a trimmable unit. |
| Utf16.TrimEnd | src/services/imageService.js:146 | Removes exactly the trailing run of whitespace and line terminators. The result is a prefix of the input, every unit dropped is trimmable, and the result does not end with a trimmable unit. |
| Utf16.TrimEmptyIff | src/services/imageService.js:146 | `prompt.trim()` is empty exactly when every code unit of the prompt is whitespace or a line terminator. |
| Utf16.TrimSlice | src/components/ImageGenerator.js:205 | `trim` returns the slice between the first and the last non-whitespace unit; everything outside it is whitespace. |
| Utf16.AppendUnitsIsConcat | src/services/imageService.js:72 | The template literal `${prompt}<suffix>` consists of the prompt's code units followed by the suffix's. |
| Utf16.WellFormedAppend | src/services/imageService.js:72 | Appending text that does not start with a low surrogate gives well-formed text exactly when both parts are well-formed. |
| Utf16.OfWellFormed | src/services/imageService.js:72 | A string literal, as UTF-16, has no lone surrogate and does not start with a low surrogate. |
| Uri.EncodeURIComponent | src/services/imageService.js:73 | `encodeURIComponent`: unreserved units copied, every other code point written as the `%XX` escapes of its UTF-8 octets, and `URIError` on a lone surrogate. Characterised by `EncodeOkIffWellFormed`, `EncodedAlphabet`, `RoundTrip` and `EncodeInjective`. |
| Uri.CodePointAt | src/services/imageService.js:73 | Reads one code point at a position: 1 or 2 units; a scalar value, unless it is an unpaired surrogate; that scalar's UTF-16 encoding is exactly the units consumed. |
| Uri.Utf8 | src/services/imageService.js:73 | The UTF-8 octets of a scalar value: 1 to 4, each below 256. |
| Uri.EncodeOkIffWellFormed | src/services/imageService.js:73 | `encodeURIComponent` succeeds exactly on text without a lone surrogate, and throws `URIError` otherwise. |
| Uri.EncodedAlphabet | src/services/imageService.js:79 | The encoding consists only of unreserved characters and `%`, so it cannot contain the `?` `&` `=` that structure the URL. |
| Uri.RoundTrip | src/services/imageService.js:73 | Percent-decoding the encoding of well-formed text gives the text back. |
| Uri.EncodeInjective | src/services/imageService.js:107 | Two prompts with the same encoding are the same prompt. |
| Uri.DecodeSequenceOfUtf8 | src/services/imageService.js:73 | The decoder reads the escapes of a code point's UTF-8 octets back as that code point, consuming exactly those octets. |
| Url.NatToString | src/services/imageService.js:79 | The decimal digits of a natural number: at least one character, all of them digits. |
| Url.NumberToString | src/services/imageService.js:79 | The `${seed}` conversion of the templates at lines 79 and 107: an optional `-` and the digits of the magnitude. Characterised by `NumberToStringAlphabet` and `NumberRoundTrip`. |
| Url.NumberToStringAlphabet | src/services/imageService.js:79 | The decimal text of the seed consists only of digits and `-`. |
| Url.NatRoundTrip | src/services/imageService.js:79 | Parsing the decimal text of a natural number gives the number back. |
| Url.NumberRoundTrip | src/services/imageService.js:79 | Parsing the decimal text of any integer (negative ones too) gives the integer back. |
| Url.QueryRoundTrip | src/services/imageService.js:79 | A non-empty list of parameters is parsed back from its `name=value&…` text, names and values unchanged, provided no name holds `=` or `&` and no value holds `&`. |
| Url.AddressRoundTrip | src/services/imageService.js:79 | `path?query` is parsed back into the path and parameters it was built from, provided the path has no `?`. |
| ImageService.WithSuffix | src/services/imageService.js:72 | The template literal `${prompt}<suffix>` is the prompt's code units followed by the suffix's, so the prompt stays a proper prefix. The result is well-formed exactly when the prompt is. |
| ImageService.PollinationsPrompt | src/services/imageService.js:72 | The Pollinations prompt is the prompt followed by ", photorealistic, ultra detailed, …, hyperrealistic". It is well-formed exactly when the prompt is. |
| ImageService.GooglePrompt | src/services/imageService.js:135 | The Google prompt is the prompt followed by ", ultra photorealistic, …, crisp focus". It is well-formed exactly when the prompt is. |
| ImageService.CodeUnitSum | src/services/imageService.js:76 | The left fold adding `charCodeAt` over the prompt. Characterised by `CodeUnitSumNonNegative` and `CodeUnitSumAppend`. |
| ImageService.Seed | src/services/imageService.js:76 | `Math.abs` of the code-unit sum plus `Math.floor(Date.now() / 1000)`. Characterised by `SeedIsSumPlusSeconds`, `SeedSameSecond` and `SeedIgnoresOrder`. |
| ImageService.CodeUnitSumNonNegative | src/services/imageService.js:76 | The sum of the `charCodeAt` values is non-negative, so `Math.abs` leaves it unchanged. The sum is at least each code unit. |
| ImageService.CodeUnitSumAppend | src/services/imageService.js:76 | The code-unit sum of a concatenation is the sum of the parts' sums. |
| ImageService.SeedIsSumPlusSeconds | src/services/imageService.js:76 | The seed minus the code-unit sum is `Math.floor(Date.now()/1000)`: the whole second that contains the clock reading. |
| ImageService.SeedSameSecond | src/services/imageService.js:76 | One prompt gets the same seed at two clock readings exactly when they fall in the same second. |
| ImageService.SeedIgnoresOrder | src/services/imageService.js:76 | Swapping two halves of a prompt does not change its seed. |
| ImageService.MainUrl | src/services/imageService.js:79 | The full-size template: base, encoded prompt, and the seven parameters. Characterised by `MainUrlReadsBack`. |
| ImageService.SimpleUrl | src/services/imageService.js:107 | The simple template: base, encoded raw prompt, and the four parameters. Characterised by `SimpleUrlReadsBack`. |
| ImageService.MainParamsPlain | src/services/imageService.js:79 | None of the main template's seven parameters holds a separator that would make the query ambiguous. |
| ImageService.SimpleParamsPlain | src/services/imageService.js:107 | None of the simple template's four parameters holds a separator that would make the query ambiguous. |
| ImageService.MainUrlReadsBack | src/services/imageService.js:79 | The main URL built from an encoded prompt parses back to that prompt with width 1024, height 1024, the seed, nologo true, private false, enhance true and model flux, in that order. |
| ImageService.SimpleUrlReadsBack | src/services/imageService.js:107 | The simple URL parses back to its prompt with width 512, height 512, the seed and enhance true. |
| ImageService.MainUrlOfPrompt | src/services/imageService.js:72-79 | For a well-formed prompt, encoding the suffixed prompt succeeds, and the main URL asks for the suffixed prompt. |
| ImageService.RaceOutcome | src/services/imageService.js:92-119 | The value the verification promise settles on after a sequence of events: the first event decides. Characterised by `RaceSettlesOnce` and `RaceSettlesIffEvent`, and matched by `Verify`. |
| ImageService.RaceSettlesOnce | src/services/imageService.js:92-119 | `hasResolved` in action: once an event has fired, later events do not change the value the promise settles on. |
| ImageService.RaceSettlesIffEvent | src/services/imageService.js:88-122 | With a well-formed prompt the race settles exactly when some event has fired. It settles on the simple URL after a load error, and on the main URL after a load or timeout. |
| ImageService.VerificationImage.constructor | src/services/imageService.js:92 | A new race starts with `hasResolved` false and no resolution. |
| ImageService.VerificationImage.OnLoad | src/services/imageService.js:94-100 | `onload` resolves with the main URL and sets the flag, unless the flag was already set. |
| ImageService.VerificationImage.OnError | src/services/imageService.js:102-110 | `onerror` sets the flag either way. When the flag was not yet set, it resolves with the simple URL built from the raw prompt, or records nothing when encoding throws. |
| ImageService.VerificationImage.OnTimeout | src/services/imageService.js:113-119 | The timer resolves with the main URL and sets the flag, unless the flag was already set. |
| ImageService.Verify | src/services/imageService.js:88-122 | Delivering a sequence of events to the handlers settles the promise exactly as `RaceOutcome` says: at most one resolution, decided by the first event. |
| ImageService.GenerateWithPollinations | src/services/imageService.js:69-127 | The call rejects exactly when the prompt has a lone surrogate, with the `URIError` message. It is still unsettled exactly when the prompt is well-formed and no event has fired yet. |
| ImageService.PollinationsUrlReadsBack | src/services/imageService.js:72-117 | A resolved URL asks for one of two things, both with the call's seed: the suffixed prompt at 1024×1024 with the main parameters, or, after a load error, the raw prompt at 512×512. |
| ImageService.GenerateWithGoogleAI | src/services/imageService.js:130-142 | Pollinations with the Google prompt, then a second Pollinations call with the raw prompt if the first rejects. Characterised by `GoogleRetryFutile` and `GoogleUrlReadsBack`. |
| ImageService.GoogleRetryFutile | src/services/imageService.js:130-142 | The Google path always settles as its first Pollinations call does. It rejects exactly when the prompt has a lone surrogate. |
| ImageService.GoogleUrlReadsBack | src/services/imageService.js:130-137 | A resolved Google-path URL asks for the Google-suffixed prompt, seeded from the Google-suffixed text. On the main URL the Pollinations suffix is appended too. |
| ImageService.DeepAIRequestFor | src/services/imageService.js:44-47 | The request goes to the text2img endpoint, and its `text` field is the prompt followed by ", photorealistic, high quality, detailed". |
| ImageService.GenerateWithDeepAI | src/services/imageService.js:42-66 | DeepAI always settles. It resolves exactly when the reply is `ok` and `output_url` is a non-empty string, and then resolves with that URL. Otherwise it rejects, with the thrown message or "DeepAI API failed". |
| ImageService.StableDiffusionRequestFor | src/services/imageService.js:7-27 | The request goes to the stable-diffusion-v1-5 endpoint. Its `inputs` is the prompt followed by ", highly detailed, photorealistic, 8k, professional photography", with the fixed negative prompt, 50 inference steps, guidance scale 7.5 and 512×512. |
| ImageService.GenerateWithStableDiffusion | src/services/imageService.js:4-39 | Stable Diffusion always settles. It resolves exactly when the response is `ok`, with the object URL of its body. Otherwise it rejects, with the thrown message or "Stable Diffusion API failed". |
| ImageService.ValidPrompt | src/services/imageService.js:146 | The negation of the guard at line 146: the prompt is present (not `null` or `undefined`) and does not trim to nothing. |
| ImageService.Call | src/services/imageService.js:152-176 | Each provider's call, with that provider's part of the environment. |
| ImageService.PrimaryProvider | src/services/imageService.js:154-161 | The `if (process.env.REACT_APP_GOOGLE_AI_API_KEY)` branch: Google AI when the key is set, Pollinations otherwise. Characterised by `FirstProvider`. |
| ImageService.Chain | src/services/imageService.js:154-176 | Three distinct providers are tried in a fixed order. |
| ImageService.Fallback | src/services/imageService.js:163-181 | The nested `try`/`catch` over three settlements. Characterised by `FallbackTries` and `FallbackPending`. |
| ImageService.FallbackTries | src/services/imageService.js:163-181 | The nested `try`/`catch`: the providers called are a non-empty prefix of the chain, all but the last of them rejected, and the last one's settlement is the result. If the last also rejected, all three were called and the result is the terminal message. |
| ImageService.GenerateImage | src/services/imageService.js:145-183 | The providers called are a prefix of the chain. None are called exactly when the prompt fails the guard. |
| ImageService.ValidationGuard | src/services/imageService.js:146-148 | A missing or blank prompt is rejected with "Please provide a valid prompt" before any provider is called. A valid one always reaches a provider. |
| ImageService.FirstProvider | src/services/imageService.js:154-161 | The first provider called is Google AI exactly when the key is set, and Pollinations exactly when it is not. |
| ImageService.FallbackOrder | src/services/imageService.js:163-181 | For a valid prompt, every provider called before the last one rejected. The result is the last one's settlement, or the terminal message after all three rejected. |
| ImageService.RejectionMessages | src/services/imageService.js:145-183 | Every rejection carries one of two fixed, non-empty messages: the validation message with nothing called, or the terminal message with the whole chain called. |
| ImageService.PrimaryPending | src/services/imageService.js:130-161 | The primary provider is unsettled exactly when the prompt is well-formed and no event has fired yet. It rejects exactly when the prompt has a lone surrogate. |
| ImageService.FallbacksSettle | src/services/imageService.js:166-177 | DeepAI and Stable Diffusion always settle. |
| ImageService.PendingIff | src/services/imageService.js:145-183 | `generateImage` is unsettled exactly when the prompt is valid and well-formed and no verification event has fired yet. |
| ImageService.FallbackPending | src/services/imageService.js:163-181 | When the fallbacks always settle, the chain is unsettled exactly when its first provider is. |
| ImageService.TimerSettlesPollinations | src/services/imageService.js:113-119 | Once the 20-second timer has fired, the Pollinations call has settled: the race never hangs. |
| ImageService.TimerSettlesGenerateImage | src/services/imageService.js:113-119 | Once the primary call's timer has fired, `generateImage` has settled. |
| ImageService.WellFormedPromptStaysPrimary | src/services/imageService.js:152-161 | For a valid, well-formed prompt only the primary provider is ever called. |
| ImageGeneratorUi.Consistent | src/components/ImageGenerator.js:197-236 | The invariant: the image is never loading and loaded at once, it can be loading only if there is one, and during a request there is no image and no image flag is set. The constructor establishes it and `HandlersKeepConsistent` shows every handler keeps it. |
| ImageGeneratorUi.ChangePrompt | src/components/ImageGenerator.js:262 | The `onChange` handler: only the prompt changes. |
| ImageGeneratorUi.Submit | src/components/ImageGenerator.js:204-214 | `handleGenerate` up to its `await`. Characterised by `SubmitStartsIff`. |
| ImageGeneratorUi.Submitted | src/components/ImageGenerator.js:205-217 | The prompt `handleGenerate` hands to `generateImage`, if it hands one. Characterised by `SubmitStartsIff` and `SubmittedPassesServiceGuard`. |
| ImageGeneratorUi.Complete | src/components/ImageGenerator.js:216-224 | `handleGenerate` after its `await`: the `try`, the `catch` with `err.message ||` fallback, and the `finally`. Characterised by `ErrorAfterRequest` and `ResolvedRequestShowsLoading`. |
| ImageGeneratorUi.ImageLoad | src/components/ImageGenerator.js:227-230 | `handleImageLoad`. Characterised by `ImageEventsRender`. |
| ImageGeneratorUi.ImageError | src/components/ImageGenerator.js:232-236 | `handleImageError`. Characterised by `ImageEventsRender`. |
| ImageGeneratorUi.DownloadTarget | src/components/ImageGenerator.js:238-241 | The URL `handleDownload` would download: the generated image when it is truthy. Characterised by `DownloadButtonWorks`. |
| ImageGeneratorUi.IsGenerateShortcut | src/components/ImageGenerator.js:250 | The key test `e.key === 'Enter' && e.ctrlKey`. |
| ImageGeneratorUi.GenerateDisabled | src/components/ImageGenerator.js:280 | The button's `disabled` condition. Characterised by `ButtonState` and `SubmitStartsIff`. |
| ImageGeneratorUi.ButtonLabel | src/components/ImageGenerator.js:282 | The button's label. Characterised by `ButtonState`. |
| ImageGeneratorUi.HasImage | src/components/ImageGenerator.js:239 | JavaScript truthiness of `generatedImage`: set and not the empty string, as tested by the guard at line 239 and the mount condition at line 295. Characterised by `RenderExclusive` and `DownloadButtonWorks`. |
| ImageGeneratorUi.ShowsSpinner | src/components/ImageGenerator.js:286-291 | The request spinner shows while `isLoading`. |
| ImageGeneratorUi.ShowsError | src/components/ImageGenerator.js:293 | The error message shows when `error` is non-empty. |
| ImageGeneratorUi.ShowsResult | src/components/ImageGenerator.js:295 | The result block and the image element are mounted when the image is truthy and no request is in flight. |
| ImageGeneratorUi.ShowsImageLoading | src/components/ImageGenerator.js:297-302 | The image-loading spinner shows inside the result block while `imageLoading`. |
| ImageGeneratorUi.ShowsSuccess | src/components/ImageGenerator.js:304-306 | The success note shows inside the result block when the image is loaded and not loading. |
| ImageGeneratorUi.ShowsDownload | src/components/ImageGenerator.js:323-327 | The download button shows under the same condition as the success note. Characterised by `RenderExclusive`. |
| ImageGeneratorUi.Initial | src/components/ImageGenerator.js:197-202 | The initial state satisfies the invariant. |
| ImageGeneratorUi.HandlersKeepConsistent | src/components/ImageGenerator.js:204-236 | Each handler keeps the invariant (never loading and loaded at once), given the states it can run in: a settlement arrives only during a request, and image events only while the image is mounted. |
| ImageGeneratorUi.LoadDuringRequestBreaksConsistency | src/components/ImageGenerator.js:218-230 | A load event during a request, followed by a resolved request, would leave the image loading and loaded at once. |
| ImageGeneratorUi.SubmitStartsIff | src/components/ImageGenerator.js:204-214 | A request starts exactly when the prompt does not trim to nothing, and it sends the untrimmed prompt. Otherwise only the validation error is set. An enabled button always starts one. |
| ImageGeneratorUi.ButtonState | src/components/ImageGenerator.js:280-282 | The label reads "Generating..." exactly while a request is in flight. The button is disabled exactly during a request or when a click would start nothing. |
| ImageGeneratorUi.SubmittedPassesServiceGuard | src/components/ImageGenerator.js:205-217 | Every prompt the component sends passes the service's own validation. |
| ImageGeneratorUi.RequestResult | src/components/ImageGenerator.js:217 | A submitted request is rejected, if at all, only with the terminal message. |
| ImageGeneratorUi.MessagesDiffer | src/services/imageService.js:179 | The terminal message is non-empty, and differs from the component's fallback text and from the validation message. |
| ImageGeneratorUi.ErrorAfterRequest | src/components/ImageGenerator.js:216-224 | After a request, the error shown is empty or the terminal message, and never the fallback text or the validation message. |
| ImageGeneratorUi.ResolvedRequestShowsLoading | src/components/ImageGenerator.js:218-219 | A request that resolves with a non-empty URL shows the image as loading, without the success note or the download button. |
| ImageGeneratorUi.RenderExclusive | src/components/ImageGenerator.js:286-327 | In any consistent state, the image-loading spinner and the success note never show together, the request spinner and the result never show together, and the success note shows exactly when the download button does. |
| ImageGeneratorUi.DownloadButtonWorks | src/components/ImageGenerator.js:238-247 | Whenever the download button shows, clicking it downloads the generated image URL. |
| ImageGeneratorUi.ImageEventsRender | src/components/ImageGenerator.js:227-236 | After a load event the success note and the download button show. After an error event neither shows, and the image error message does. |
| ImageGeneratorUi.ImageGenerator.constructor | src/components/ImageGenerator.js:197-202 | The six fields start as `''`, false, null, `''`, false, false. |
| ImageGeneratorUi.ImageGenerator.ChangePromptText | src/components/ImageGenerator.js:259-266 | Typing changes the prompt and nothing else. It is only possible outside a request, because the text area is disabled while `isLoading`. |
| ImageGeneratorUi.ImageGenerator.HandleGenerate | src/components/ImageGenerator.js:204-214 | Sets the state `Submit` gives, keeps the invariant, and returns the prompt handed to the service, if it hands one. |
| ImageGeneratorUi.ImageGenerator.HandleGenerateSettled | src/components/ImageGenerator.js:216-224 | When the service settles: a URL becomes the loading image; a rejection shows its message, or the fallback text for an empty one; the request ends. A pending service changes nothing. |
| ImageGeneratorUi.ImageGenerator.HandleImageLoad | src/components/ImageGenerator.js:227-230 | Marks the image loaded and no longer loading, and keeps the invariant. |
| ImageGeneratorUi.ImageGenerator.HandleImageError | src/components/ImageGenerator.js:232-236 | Clears both image flags and shows the image error message. |
| ImageGeneratorUi.ImageGenerator.HandleDownload | src/components/ImageGenerator.js:238-247 | Downloads the generated URL exactly when there is a non-empty one, and changes no state. |
| ImageGeneratorUi.ImageGenerator.HandleKeyPress | src/components/ImageGenerator.js:249-253 | Ctrl+Enter runs `handleGenerate`. Any other key changes nothing and sends nothing. Key presses reach it only outside a request, because the text area is disabled while `isLoading` (line 265). |
| ImageGeneratorUi.GenerateAndSettle | src/components/ImageGenerator.js:204-225 | One click that the service answers ends in the state Submit-then-Complete gives, with no error or the terminal message. |

## Left out

- The network calls, `fetch`, `FormData`, `response.json()`, `response.blob()` and `URL.createObjectURL` are not modelled. Each endpoint is a function from the request it is sent to an abstract reply: thrown, or a status flag with its payload.
- A fetch that never answers is not modelled. The endpoint functions always reply, so DeepAI and Stable Diffusion always settle.
- A non-string `output_url` is not modelled. It is represented as missing or as a string, and truthiness is a non-empty string.
- HTTP headers, the demo and quickstart credentials and the HTTP methods are not modelled.
- The 4-second delay before the race and the 20-second timer duration are not modelled. The race is modelled by the order in which its events fire; a sequence without `Timeout` describes a moment before the timer has fired, not a race that hangs.
- `Image().crossOrigin` and the DOM are not modelled.
- `Date.now()` and `process.env.REACT_APP_GOOGLE_AI_API_KEY` are parameters (`nowMs`, `googleKeySet`), and each Pollinations call receives its own clock reading.
- `console.log` and `console.error` are not modelled, because they do not affect any result.
- The `message` of the `URIError` that `encodeURIComponent` throws is the engine's wording ("URI malformed" in V8). It is modelled as that constant.
- A prompt that is not a string is not modelled beyond `null`/`undefined`, which the model represents as `None`.
- `Number.prototype.toString` is modelled for integers only. The seed is always a safe integer: its magnitude is far below 10^21, where JavaScript switches to exponent notation.
- Concurrency is not modelled. Overlapping `generateImage` calls each run to completion on their own, and React's batching of state updates and re-render timing are not modelled.
- The styled components, the CSS, the tips text and the spinner markup are not modelled.
- In `handleDownload`, the anchor element, its `click()` and the filename `ai-generated-<timestamp>.jpg` are not modelled. The model returns the URL that would be downloaded.
- `Header.js`, `Footer.js` and `App.js` are not part of this model.
