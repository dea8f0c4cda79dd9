# Formula E selfie workflow: a Dafny model

This project models the selfie workflow of the Formula E photo booth. A visitor
takes a selfie with the browser camera, picks a Formula E prompt from the
catalogue, has the backend generate an image, and can then refine it with
free-text edits. One revision can also animate the image into a video. The
other picks prompts by id, sends the prompt's reference image and shows a QR
code of the result. Nothing was executed: every statement below is a proof
about the model.

Modules:

- `Common`: `Option`, `Result`, JavaScript truthiness of an optional string
  (`null`, `undefined` and `""` are falsy), and string prefixes.
- `Prompts`: the prompt catalogue as both pages use it. It covers the rotating
  edit suggestion, the four-prompt "See More" slice and the lookup by id.
- `VideoSelfie`: the page with a video step (src/app/selfie/page.tsx).
  `Next` is the controller as a transition function on a `Session` value. The
  class `VideoSelfiePage` holds one field per piece of React state and one
  method per handler. Each method is proved to change its fields exactly as
  `Next` says.
- `PromptSelfie`: the page that selects prompts by id and forwards a
  reference image id (app/selfie/page.tsx). It is built the same way, plus the
  "Try Another Style" action and the QR payload.
- `CameraCapture`: the camera component (src/components/camera-capture.tsx).
  It covers error classification, the 3-2-1 countdown and the mirrored still.
  The class `Camera` is one mount of the component, with its stream, timers
  and reported errors.
- `JsonGateway`: the JSON backend gateway (src/app/actions.ts).
- `FormGateway`: the multipart backend gateway (app/actions.ts). It covers
  reference-image resolution and the generate and edit actions, which build a
  form by successive appends.
- `ReferenceFinding` and `ReplyShapeFinding`: how each page meets the gateway
  it imports. Each has a mismatch, described under Findings.

Every awaited call is split into two events:

1. the click, which checks the guard, sets the busy step or flag and yields
   the request;
2. the settlement, which takes the call's outcome (`Ok(reply)` or `Failed`)
   as an input.

`Offered(s, e)` lists the events the rendered page can deliver in state `s`,
from the buttons it shows and their `disabled` guards. `OfferedTrace`
extends this to sequences of events.

Where the specification and the code disagree, the model follows the code:

- `reset` and `retake` clear only the selfie, the prompt, the image, its code
  (and, with the video step, the video and its code) and set the step to
  `capture`. The prompt list, the edit box, `isEditing`, "See More" and the
  suggestion index survive. `ResetForgetsJourney` states exactly this.
- No response is gated by a session or request id. An edit that settles after
  "Start Over" still writes its image (`LateEditLandsAfterStartOver`).
- The `editing` step is declared but never entered (`Consistent` proves
  `step != Editing`).
- The edit action of app/actions.ts posts to `/generate`, like the generate
  action, with `image.jpg` as the upload name.

## Model

| member | source | states |
|---|---|---|
| Prompts.NextSuggestion | src/app/selfie/page.tsx:88-94 | the next suggestion index is always one of the seven suggestions, wrapping from the last to the first and otherwise advancing by one |
| Prompts.SuggestionCycles | src/app/selfie/page.tsx:88-94 | after n ticks from the first suggestion the index is n mod 7, so the placeholder cycles through every suggestion |
| Prompts.Displayed | src/app/selfie/page.tsx:213 | the displayed prompts are a prefix of the catalogue: all of it after "See More", otherwise the first min(4, n) |
| Prompts.SeeMoreIffHidden | src/app/selfie/page.tsx:292 | the "See More" button is offered exactly when some prompt is hidden |
| Prompts.FindById | app/selfie/page.tsx:96 | a found prompt is in the catalogue and has the id; nothing is found exactly when no prompt has the id |
| Prompts.FindByIdIsFirst | app/selfie/page.tsx:96 | the lookup returns the first prompt with the id, like `Array.prototype.find` |
| VideoSelfie.GenerateButtonMatchesHandler | src/app/selfie/page.tsx:303 | in every consistent `preview` state the "Generate" button is enabled exactly when `handleGenerate` gets past its guard |
| VideoSelfie.GenerateEnabled | src/app/selfie/page.tsx:303 | a disabled "Generate" button means `handleGenerate` would return early; an enabled one, with a selfie, means it sends a request |
| VideoSelfie.ApplyEnabled | src/app/selfie/page.tsx:392 | the "Apply" button is never enabled while an edit is in flight; enabled, with an image shown, it means `handleEdit` sends a request |
| VideoSelfie.Next | src/app/selfie/page.tsx:69-193 | each piece of state is changed only by the handlers that set it (prompts by the catalogue load, the selfie by capture, start-over and retake, the image by the image calls and resets, and so on), and the busy steps are entered only through their buttons |
| VideoSelfie.Offered | src/app/selfie/page.tsx:195-471 | the spinner steps offer nothing but background updates and the settlement of the call in flight; a settlement arrives only while its call is in flight; the catalogue loads once |
| VideoSelfie.InitialConsistent | src/app/selfie/page.tsx:54-66 | the initial state is consistent: step `capture`, no selfie, no video |
| VideoSelfie.NextKeepsConsistent | src/app/selfie/page.tsx:96-193 | every event the page offers keeps the step consistent with the fields (selfie outside `capture`/`error`, an image in `result` and after, a video exactly in `video-result`, a prompt while `generating`) |
| VideoSelfie.TraceKeepsConsistent | src/app/selfie/page.tsx:96-193 | the invariant holds after any sequence of offered events |
| VideoSelfie.VideoResultHasImageAndVideo | src/app/selfie/page.tsx:413 | every reachable `video-result` state has both an image and a video |
| VideoSelfie.CaptureHasNoSelfie | src/app/selfie/page.tsx:175-193 | every reachable `capture` state has no selfie and no video |
| VideoSelfie.PromptsLoadedEitherWay | src/app/selfie/page.tsx:69-86 | the catalogue is installed and loading ends whether the suggestion call resolves or throws |
| VideoSelfie.CaptureStoresSelfie | src/app/selfie/page.tsx:96-99 | a capture stores the image, moves to `preview` and changes nothing else |
| VideoSelfie.CameraErrorKeepsFields | src/app/selfie/page.tsx:101-108 | a camera error moves to `error` and changes nothing else |
| VideoSelfie.GenerateGuard | src/app/selfie/page.tsx:110-112 | without a selfie or a prompt, "Generate" sends nothing and changes nothing; with both it sends exactly those and enters `generating` |
| VideoSelfie.GenerateSettles | src/app/selfie/page.tsx:113-128 | success shows the returned image and code in `result`; failure returns to `preview` and changes nothing else |
| VideoSelfie.EditBracketsCall | src/app/selfie/page.tsx:131-152 | with no image or instruction an edit does nothing; otherwise `isEditing` is set during the call and cleared after on both paths, the step never changes, success replaces image and code and clears the instruction, failure changes nothing else |
| VideoSelfie.VideoSettles | src/app/selfie/page.tsx:154-173 | without an image nothing is sent; otherwise the image is sent, success shows the video in `video-result`, failure returns to `result`, and the image is kept |
| VideoSelfie.ResetIsRetake | src/app/selfie/page.tsx:175-193 | "Start Over" and "Retake" reach the same state: selfie, prompt, image, video and codes cleared, step `capture` |
| VideoSelfie.ResetIdempotent | src/app/selfie/page.tsx:175-193 | starting over (or retaking) twice is the same as once |
| VideoSelfie.ResetForgetsJourney | src/app/selfie/page.tsx:175-183 | two sessions that differ only in step and journey fields start over into the same state |
| VideoSelfie.LateEditLandsAfterStartOver | src/app/selfie/page.tsx:131-152 | an edit started in `result` and settled after "Start Over" still writes its image into the fresh session |
| VideoSelfie.VideoSelfiePage.constructor | src/app/selfie/page.tsx:54-66 | the page starts in the initial session |
| VideoSelfie.VideoSelfiePage.FetchPromptsSettled | src/app/selfie/page.tsx:69-86 | the prompt-loading effect moves the fields as the transition function says |
| VideoSelfie.VideoSelfiePage.TickSuggestion | src/app/selfie/page.tsx:88-94 | one interval tick advances the suggestion index as the transition function says |
| VideoSelfie.VideoSelfiePage.HandleCapture | src/app/selfie/page.tsx:96-99 | `handleCapture` moves the fields as the transition function says |
| VideoSelfie.VideoSelfiePage.HandleCameraError | src/app/selfie/page.tsx:101-108 | `handleCameraError` moves the fields as the transition function says |
| VideoSelfie.VideoSelfiePage.PickPrompt | src/app/selfie/page.tsx:258 | picking a prompt stores its description |
| VideoSelfie.VideoSelfiePage.ShowAllPrompts | src/app/selfie/page.tsx:292-294 | "See More" shows every prompt |
| VideoSelfie.VideoSelfiePage.BeginGenerate | src/app/selfie/page.tsx:110-112 | the click half of `handleGenerate`: returns the request the transition function prescribes and moves the fields accordingly |
| VideoSelfie.VideoSelfiePage.CompleteGenerate | src/app/selfie/page.tsx:113-128 | the settlement half of `handleGenerate` moves the fields as the transition function says |
| VideoSelfie.VideoSelfiePage.TypeEditPrompt | src/app/selfie/page.tsx:388 | typing replaces the edit instruction |
| VideoSelfie.VideoSelfiePage.BeginEdit | src/app/selfie/page.tsx:131-135 | the click half of `handleEdit`: returns the prescribed request and sets `isEditing` when one is sent |
| VideoSelfie.VideoSelfiePage.CompleteEdit | src/app/selfie/page.tsx:136-152 | the settlement half of `handleEdit` moves the fields as the transition function says |
| VideoSelfie.VideoSelfiePage.BeginGenerateVideo | src/app/selfie/page.tsx:154-156 | the click half of `handleGenerateVideo`: returns the prescribed request and enters `generating-video` when one is sent |
| VideoSelfie.VideoSelfiePage.CompleteGenerateVideo | src/app/selfie/page.tsx:157-173 | the settlement half of `handleGenerateVideo` moves the fields as the transition function says |
| VideoSelfie.VideoSelfiePage.Reset | src/app/selfie/page.tsx:175-183 | `reset` moves the fields as the transition function says |
| VideoSelfie.VideoSelfiePage.Retake | src/app/selfie/page.tsx:185-193 | `retake` moves the fields as the transition function says |
| PromptSelfie.QrPayload | app/selfie/page.tsx:113 | the stored QR code is always a PNG data URI |
| PromptSelfie.QrPayloadRoundTrip | app/selfie/page.tsx:113 | the backend's code is recovered from the stored payload, so distinct codes give distinct payloads |
| PromptSelfie.GenerateButtonMatchesHandler | app/selfie/page.tsx:283 | in every consistent `preview` state the "Generate" button is enabled exactly when `handleGenerate` gets past its first guard |
| PromptSelfie.GenerateEnabled | app/selfie/page.tsx:283 | a disabled "Generate" button means `handleGenerate` does nothing; an enabled one, with a selfie, means it gets past its first guard |
| PromptSelfie.ApplyEnabled | app/selfie/page.tsx:372 | the "Apply" button is never enabled while an edit is in flight; enabled, with an image shown, it means `handleEdit` sends a request |
| PromptSelfie.SelectedOption | app/selfie/page.tsx:96 | the option found belongs to the catalogue and carries the selected id; there is none exactly when no id is selected or no option carries it |
| PromptSelfie.Next | app/selfie/page.tsx:66-171 | each piece of state is changed only by the handlers that set it ("Choose New Prompt" clears the selection and the image), the busy step is entered only through its button, and every new QR value is a PNG data URL |
| PromptSelfie.Offered | app/selfie/page.tsx:173-395 | the spinner step offers nothing but background updates and the settlement of the call in flight; a settlement arrives only while its call is in flight; the catalogue loads once |
| PromptSelfie.InitialConsistent | app/selfie/page.tsx:53-63 | the initial state is consistent |
| PromptSelfie.NextKeepsConsistent | app/selfie/page.tsx:79-171 | every offered event keeps the step consistent with the fields, with image and QR payload set and cleared together |
| PromptSelfie.TraceKeepsConsistent | app/selfie/page.tsx:79-171 | the invariant holds after any sequence of offered events |
| PromptSelfie.ResultHasImageAndQr | app/selfie/page.tsx:300 | every reachable `result` state has an image and a PNG data-URI QR code |
| PromptSelfie.GenerateGuard | app/selfie/page.tsx:94 | without a selfie or a prompt id, "Generate" sends nothing and changes nothing |
| PromptSelfie.GenerateRefusesMissingPrompt | app/selfie/page.tsx:96-104 | an id missing from the catalogue sends nothing and leaves the state unchanged |
| PromptSelfie.GenerateSendsFoundPrompt | app/selfie/page.tsx:96-112 | the first prompt with the id is sent by its description and reference image id, and the step becomes `generating` |
| PromptSelfie.GenerateSettles | app/selfie/page.tsx:107-124 | success shows the image and the prefixed code in `result`; failure returns to `preview` and changes nothing else |
| PromptSelfie.EditBracketsCall | app/selfie/page.tsx:126-148 | an edit forwards the selected prompt's reference id (none when the lookup fails); `isEditing` brackets the call; failure changes nothing else |
| PromptSelfie.ChooseNewPromptKeepsSelfie | app/selfie/page.tsx:166-171 | "Try Another Style" keeps the selfie, clears image, code and prompt id, returns to `preview`, and changes nothing else |
| PromptSelfie.ResetIsRetake | app/selfie/page.tsx:150-164 | "Start Over" and "Retake" reach the same state: selfie, prompt id, image and code cleared, step `capture` |
| PromptSelfie.ResetIdempotent | app/selfie/page.tsx:150-164 | starting over (or retaking) twice is the same as once |
| PromptSelfie.PromptSelfiePage.constructor | app/selfie/page.tsx:53-63 | the page starts in the initial session |
| PromptSelfie.PromptSelfiePage.LoadPrompts | app/selfie/page.tsx:66-69 | the loading effect installs the catalogue and ends loading |
| PromptSelfie.PromptSelfiePage.TickSuggestion | app/selfie/page.tsx:71-77 | one interval tick advances the suggestion index |
| PromptSelfie.PromptSelfiePage.HandleCapture | app/selfie/page.tsx:79-82 | `handleCapture` moves the fields as the transition function says |
| PromptSelfie.PromptSelfiePage.HandleCameraError | app/selfie/page.tsx:84-91 | `handleCameraError` moves the fields as the transition function says |
| PromptSelfie.PromptSelfiePage.PickPrompt | app/selfie/page.tsx:238 | picking a prompt stores its id |
| PromptSelfie.PromptSelfiePage.ShowAllPrompts | app/selfie/page.tsx:272-274 | "See More" shows every prompt |
| PromptSelfie.PromptSelfiePage.BeginGenerate | app/selfie/page.tsx:93-106 | the click half of `handleGenerate`: returns the prescribed dispatch (nothing, prompt not found, or the request) and moves the fields accordingly |
| PromptSelfie.PromptSelfiePage.CompleteGenerate | app/selfie/page.tsx:107-124 | the settlement half of `handleGenerate` moves the fields as the transition function says |
| PromptSelfie.PromptSelfiePage.TypeEditPrompt | app/selfie/page.tsx:368 | typing replaces the edit instruction |
| PromptSelfie.PromptSelfiePage.BeginEdit | app/selfie/page.tsx:126-135 | the click half of `handleEdit`: returns the prescribed request and sets `isEditing` when one is sent |
| PromptSelfie.PromptSelfiePage.CompleteEdit | app/selfie/page.tsx:136-148 | the settlement half of `handleEdit` moves the fields as the transition function says |
| PromptSelfie.PromptSelfiePage.ChooseNewPrompt | app/selfie/page.tsx:166-171 | `chooseNewPrompt` moves the fields as the transition function says |
| PromptSelfie.PromptSelfiePage.Reset | app/selfie/page.tsx:150-156 | `reset` moves the fields as the transition function says |
| PromptSelfie.PromptSelfiePage.Retake | app/selfie/page.tsx:158-164 | `retake` moves the fields as the transition function says |
| CameraCapture.Classify | src/components/camera-capture.tsx:43-51 | each fault arises exactly from its two `DOMException` names; any other rejection is an unknown fault |
| CameraCapture.MessagesDistinguishFaults | src/components/camera-capture.tsx:43-51 | two faults give the same message exactly when they are the same fault |
| CameraCapture.Message | src/components/camera-capture.tsx:43-51 | every fault has a non-empty message, and the generic text is shown only for an unrecognised fault |
| CameraCapture.CountdownCapturesOnTick | src/components/camera-capture.tsx:69-81 | from k the timer shows k, k-1, ..., 1; the k-th tick captures exactly once, clears the countdown and stops the timer |
| CameraCapture.CountdownTick | src/components/camera-capture.tsx:72-79 | one tick captures exactly when it clears the countdown; otherwise the countdown steps down by one and stays at least 1 |
| CameraCapture.FlippedColumn | src/components/camera-capture.tsx:90-93 | the flip transform maps canvas column x to source column width-1-x |
| CameraCapture.Mirror | src/components/camera-capture.tsx:83-99 | the still has the video's size, with every row reversed |
| CameraCapture.MirrorInvolution | src/components/camera-capture.tsx:90-93 | mirroring twice gives back the frame, so the flip loses nothing |
| CameraCapture.Camera.constructor | src/components/camera-capture.tsx:18-24 | a mount starts with no stream, not ready, no error and no countdown |
| CameraCapture.Camera.Acquired | src/components/camera-capture.tsx:26-40 | a stream that resolves is attached while the video element exists, and stopped otherwise |
| CameraCapture.Camera.AcquireFailed | src/components/camera-capture.tsx:41-55 | a rejection shows and reports the classified message once while mounted, after which only the alert remains and no capture is possible; nothing happens after unmount |
| CameraCapture.Camera.MetadataLoaded | src/components/camera-capture.tsx:34-36 | the metadata callback of an attached stream makes the camera ready |
| CameraCapture.Camera.Unmount | src/components/camera-capture.tsx:61-66 | cleanup marks the component unmounted and stops the stream if one was acquired |
| CameraCapture.Camera.StartCountdown | src/components/camera-capture.tsx:69-71 | a click shows 3 and starts one more interval |
| CameraCapture.Camera.CaptureImage | src/components/camera-capture.tsx:83-99 | with a video element and a 2D context, the mirrored frame is emitted; otherwise nothing |
| CameraCapture.Camera.Tick | src/components/camera-capture.tsx:71-80 | one interval firing applies the countdown updater, and on its last step clears its timer and captures |
| CameraCapture.StreamReleasedEitherOrder | src/components/camera-capture.tsx:26-66 | whether cleanup runs before or after the stream resolves, the stream ends up stopped |
| CameraCapture.ErrorReportedOnlyWhileMounted | src/components/camera-capture.tsx:41-55 | a failed acquisition is reported once if still mounted, and not at all after unmount |
| CameraCapture.CaptureOnThirdTick | src/components/camera-capture.tsx:69-99 | on a ready camera one click emits nothing for two ticks and the mirrored frame on the third |
| CameraCapture.GuardedClicksCaptureOnce | src/components/camera-capture.tsx:133 | any number of clicks on the guarded button, with the timers run out, captures exactly once |
| CameraCapture.GuardedScheduleKeepsOneCountdown | src/components/camera-capture.tsx:133 | under any interleaving of clicks on the guarded button and timer ticks, at most one interval timer runs at a time, and every countdown started has either captured once or is still running |
| CameraCapture.UnguardedDoubleClickCapturesTwice | src/components/camera-capture.tsx:69-81 | two countdowns started together capture twice, which is what the button's guard prevents |
| JsonGateway.BackendRequest | src/app/actions.ts:10-25 | an unset or empty backend URL throws before any request; otherwise the URL is exactly backend URL plus endpoint, and a body is sent exactly when it is truthy |
| JsonGateway.MakeBackendRequest | src/app/actions.ts:10-40 | a parsed reply only from an OK response; network errors rethrown unchanged; a non-OK response fails with its status text |
| JsonGateway.Property | src/app/actions.ts:45 | reading a field of `null` throws; only an object's own field is returned; other values give `undefined` |
| JsonGateway.SuggestPrompts | src/app/actions.ts:42-57 | any failure, and a `null` body, gives the fallback list, never an error; any other body gives its `prompts` field |
| JsonGateway.FallbackIsFivePrompts | src/app/actions.ts:49-55 | the fallback is five non-empty prompts |
| JsonGateway.RunAction | src/app/actions.ts:59-72 | an action fails exactly when the request fails or the reply is `null`, and otherwise returns its own reply field |
| JsonGateway.ActionRequestShape | src/app/actions.ts:59-72 | each action POSTs its input object to its own endpoint under the backend URL |
| JsonGateway.ActionProjectsItsField | src/app/actions.ts:59-72 | each action returns the image, edited image or video field of the reply |
| FormGateway.RouteOf | app/actions.ts:11-37 | empty URLs have no reference, `http` URLs are remote, `/` paths are local, and the order of the tests decides overlaps |
| FormGateway.Basename | app/actions.ts:30 | the base name is the longest slash-free suffix of the path |
| FormGateway.BasenameIgnoresPrefix | app/actions.ts:26-30 | directories in front of a path that has a `/` do not change its base name |
| FormGateway.GetReferenceImageBlob | app/actions.ts:10-38 | remote references are fetched and named `reference.jpg`; non-OK fetches are skipped and network errors propagate; local references are read under `public` and named by the URL's last segment; failed reads and other URLs are skipped |
| FormGateway.ReferenceFor | app/actions.ts:56-57 | no reference is resolved unless `referenceImageUrl` is truthy |
| FormGateway.ExpectedForm | app/actions.ts:52-61 | the form is the image with its upload name, then the prompt, then the reference only when one was found with a non-empty name |
| FormGateway.ReplyResult | app/actions.ts:68-80 | success exactly when the reply is OK and carries a truthy image, returned with its QR code; a non-OK reply fails with status text and body; a missing image fails with the action's own message |
| FormGateway.PostImageForm | app/actions.ts:41-85 | an unconfigured backend throws before any request; a request is sent exactly when the image and the reference resolve; it is POSTed to backend URL plus `/generate` with the expected form, and the result is what the reply says |
| FormGateway.ReferenceAttachedIff | app/actions.ts:56-61 | the reference travels with the form exactly when a URL is given and it is fetched OK, or read locally and names a file |
| FormGateway.LocalReferenceKeepsItsName | app/actions.ts:24-30 | a local reference is uploaded under its URL's last segment, whatever the working directory |
| ReferenceFinding.ReferenceDroppedAsWritten | app/actions.ts:56 | as written, no request from the page ever carries a reference image |
| ReferenceFinding.ReferenceDroppedExample | app/selfie/page.tsx:108-112 | a prompt with a remote reference that fetches fine: dropped as written, attached once corrected |
| ReferenceFinding.ReferenceSentWhenResolved | app/actions.ts:56-60 | corrected, a local reference that resolves is sent under its own file name |
| ReferenceFinding.EditReferenceSentWhenResolved | app/actions.ts:102-106 | corrected, an edit sends the selection's remote reference as `reference.jpg` |
| ReplyShapeFinding.UrlUndefinedAsWritten | src/app/selfie/page.tsx:114-117 | as written, whenever the backend returns a URI the page reads both `imageUrl` (or `videoUrl`) and `qrCode` as undefined |
| ReplyShapeFinding.GeneratedImageShown | src/app/selfie/page.tsx:113-120 | corrected, the image the backend returned is the one shown in `result` |
| ReplyShapeFinding.GeneratedVideoShown | src/app/selfie/page.tsx:154-163 | corrected, the video the backend returned plays in `video-result` next to its source image |
| ReplyShapeFinding.ImageReplyFromAction | src/app/selfie/page.tsx:114-117 | corrected, an image action's settlement is a success exactly when the backend returned a non-empty URI in the action's result field, and the image shown is that URI |
| ReplyShapeFinding.VideoReplyFromAction | src/app/selfie/page.tsx:158-160 | corrected, the video action's settlement is a success exactly when the backend returned a non-empty `videoDataUri`, and the video shown is that URI |

## Left out

- Rendering, toasts, the `Suspense`/lazy loading of the camera, dialogs, navigation links and styling are not modelled. Only the buttons' presence and `disabled` guards enter, through `Offered`.
- Console logging is left out everywhere.
- React scheduling is not modelled: batching, StrictMode's double-invoked effects and updaters, and re-renders. One run of each effect is modelled.
- `onCapture` is delivered through `setTimeout(..., 0)`. The model treats the emitted still as delivered; the delay is not modelled.
- The src page's `handleCameraError` is not memoised, so its camera effect re-runs on every render. The app page wraps it in `useCallback`. The camera model covers one mount and one effect run.
- Timers are events, not clocks: the 2.5-second suggestion interval and the one-second countdown interval.
- There is no long-running job, no polling and no cancellation in the code, so none is modelled.
- Real bytes are inputs or opaque values: camera frames, `getUserMedia`, `fetch`, `response.json()`, the file system, `process.cwd()` and the `FORMULA_E_BACKEND_URL` environment variable.
- JPEG and PNG encoding are not modelled, nor canvas sizes beyond the frame. A still is the mirrored frame itself.
- `response.text()` and `response.blob()` are assumed not to throw. Their failures would propagate like the other errors.
- The exact texts of errors thrown by the platform (JSON syntax errors, `TypeError`s on `null`) are placeholders. Only which errors propagate is modelled.
- FormGateway.Basename: takes the segment after the last `/`. `path.basename` also strips trailing separators, and `path.join` normalises `..` and repeated separators; neither is modelled. A local path ending in `/` names a directory, whose read fails anyway.
- JsonGateway.Property: reads only an object's own fields. Properties of other values (a string's `length`, prototype members) are not modelled; the actions read none of them.
- VideoSelfie: the page is modelled against the `{imageUrl, qrCode}` and `{videoUrl, qrCode}` records it destructures. What its gateway actually returns is shown under Findings.
- Toasts inside the handlers are not modelled. Their only effect is a message, and the state changes around them are modelled.
- The catalogue (`PlaceHolderImages`) is an input of `PromptsLoaded`. Its contents are not part of this model.

## Findings

| source | as written | input that shows it | evidently intended | confidence | as-written member | corrected member |
|---|---|---|---|---|---|---|
| app/selfie/page.tsx:108-112 with app/actions.ts:56 | the page passes the prompt's reference as `referenceImageId`; the action it imports reads `input.referenceImageUrl`, which is never set, so no reference image is ever attached | a prompt whose reference is `https://r/x.jpg` and fetches with status OK: the posted form has only `image` and `prompt` | the action reads the value the page sends, so a resolvable reference is uploaded with the form | medium, not executed | ReferenceFinding.GenerateInputAsWritten (shown by ReferenceFinding.ReferenceDroppedExample and ReferenceFinding.ReferenceDroppedAsWritten) | ReferenceFinding.GenerateInput (proved by ReferenceFinding.ReferenceSentWhenResolved and ReferenceFinding.EditReferenceSentWhenResolved) |
| src/app/selfie/page.tsx:114-117 with src/app/actions.ts:59-62 | the action resolves to the bare data URI string; the page destructures `{ imageUrl, qrCode }` from it, so both are `undefined` and the page enters `result` with no image (likewise `videoUrl` at lines 158-161) | a backend reply `{"generatedImageDataUri": "data:image/png;base64,AA"}` to a generate request | the returned URI is the image shown | high, not executed | ReplyShapeFinding.DestructureAsWritten (shown by ReplyShapeFinding.UrlUndefinedAsWritten) | ReplyShapeFinding.ImageReplyOf (proved by ReplyShapeFinding.ImageReplyFromAction, ReplyShapeFinding.VideoReplyFromAction, ReplyShapeFinding.GeneratedImageShown and ReplyShapeFinding.GeneratedVideoShown) |
