# Precision Lens camera page — a Dafny model

This project models the camera page of the Precision Lens creation (`app.js`,
the `cameraModule` object): a small camera-session state machine driven by the
device's PTT button, scroll wheel and three on-screen buttons.

- **Session** (`session.dfy`): the held stream (present or absent), the facing
  mode and the digital zoom, with the transitions `launchCamera` (a toggle),
  `stopCamera`, `toggleFacingMode` and the clamped scroll handlers as pure
  functions, and lemmas over whole sequences of events (zoom stays in
  [1.0, 3.0]; repeated scroll-up saturates at 3.0; without a stream wheel
  events do nothing; a session becomes active only through a successful
  acquisition; requests in flight are kept, each resolving to the facing it
  asked for, so the facing never leaves `environment`).
- **Capture** (`capture.dfy`): the digital-zoom crop, `W / zoom` by
  `H / zoom`, centred in the frame, inside it for zoom >= 1, the whole frame at
  zoom 1 and shrinking as zoom grows.
- **Analysis** (`analysis.dfy`): the status `handleMessage` picks for a bridge
  response: `Analysis Complete.`, `Analysis: <title or Unknown Object>`, or
  `LLM Text: <first 30 characters>...`.
- **Host** (`host.dfy`): the media-stream tracks that `stopCamera` stops one
  by one, and the plain key-value storage.
- **CameraPage** (`camera.dfy`): the `CameraModule` class, whose fields are the
  stream, facing, zoom, stream requests in flight, status text, review image
  and the log of requests
  posted to the analysis bridge. Each method's contract ties the new session
  state to the pure transition of `session.dfy` and states every other field it
  changes; the single `last_capture` slot is written by capture and read back
  by review.

Zoom is held in integer tenths (10, 12, …, 30 for 1.0, 1.2, …, 3.0). The page
computes with JavaScript floats, which only approximate these values (1.0 + 0.2
is not exactly 1.2); the model abstracts that rounding away, and the
`toFixed(1)` status text is exact in tenths. The crop is computed over reals.

Acquiring a stream is asynchronous: `LaunchCamera` returns the request it
makes (the facing asked for, or none), and the host later calls `OnAcquired`
or `OnAcquireFailed`. `JSON.parse` is a parameter of `HandleMessage`, giving
`None` where it throws. The canvas output (data URL and its base64 part), the
frame's native size and whether the storage write completes are parameters of
the capture methods.

Two behaviours of the code are worth knowing:

- Switching facing on an active session only stops the camera. The comment in
  `toggleFacingMode` (app.js:142) says "Stop and restart camera with new
  mode", but `toggleFacingMode` calls `launchCamera(newMode)`, and
  `launchCamera` stops a held stream and returns before requesting anything
  (app.js:99-102). So no new stream is requested and the facing is not
  switched (`Session.ToggleFacing`, `Session.SwitchNeverSwitches`). As every
  request the page makes asks for the facing it already has, the camera
  always faces the environment (`Session.AlwaysEnvironment`).
- Review treats an empty stored string as "no photo": the code tests the value
  for truthiness, not for presence (app.js:242).
- A second launch before the first request resolves makes a second request,
  since `launchCamera` checks only for a held stream (app.js:99). When both
  resolve, the second stream overwrites the first (app.js:112) without
  stopping it, so the first stream's tracks stay live and a later stop
  releases only the second (`CameraPage.DoubleLaunchLeaksFirstStream`).

## Model

| member | source | states |
|---|---|---|
| Session.Opposite | app.js:143 | the facing asked for on a switch differs from the current one: environment and user swap |
| Session.ZoomIn | app.js:148-152 | `min(MAX_ZOOM, zoom + ZOOM_STEP)` stays in [1.0, 3.0] on the 0.2 grid, never decreases, steps by exactly 0.2 below 3.0 and stays at 3.0 at the top |
| Session.ZoomOut | app.js:154-158 | `max(MIN_ZOOM, zoom - ZOOM_STEP)` stays in range, never increases, steps by exactly 0.2 above 1.0 and stays at 1.0 at the bottom |
| Session.ZoomInThenOut | app.js:148-158 | zooming in then out restores the zoom unless it was at 3.0 |
| Session.ZoomOutThenIn | app.js:148-158 | zooming out then in restores the zoom unless it was at 1.0 |
| Session.Stop | app.js:129-138 | after stopping no stream is held; facing, zoom and requests in flight are kept; on a stopped session it changes nothing |
| Session.Launch | app.js:98-127 | with a stream it only stops and requests nothing; without one it requests the given facing, which joins the requests in flight, and changes nothing else; facing and zoom are unchanged either way |
| Session.Acquire | app.js:108-122 | a resolved request holds a stream with the facing that request asked for, keeps the zoom and leaves the other requests in flight |
| Session.Reject | app.js:123-126 | a rejected request leaves flight and nothing else changes |
| Session.ToggleFacing | app.js:140-145 | never requests a stream and never changes facing or zoom; without a stream it is a no-op, with one it is exactly a stop |
| Session.ScrollUp | app.js:148-152 | keeps zoom valid; a no-op on every field without a stream; with one only the zoom changes, by `ZoomIn` |
| Session.ScrollDown | app.js:154-158 | keeps zoom valid; a no-op on every field without a stream; with one only the zoom changes, by `ZoomOut` |
| Session.ScrollUpThenDown | app.js:148-158 | scroll up then down is the identity on the session below zoom 3.0, with or without a stream |
| Session.Step | app.js:11-278 | every event reaching the session (scroll listeners app.js:32-42, button listeners app.js:276-278, acquisition completions app.js:108-126) keeps the zoom in [1.0, 3.0] on the step grid |
| Session.RunValid | app.js:72-78 | from a valid state, any sequence of events keeps the zoom in [1.0, 3.0] on the step grid |
| Session.WheelUpSaturates | app.js:150 | `n` scroll-ups with a stream give `min(3.0, zoom + n * 0.2)` and change nothing else; at 3.0 they leave 3.0 |
| Session.InactiveIgnoresWheel | app.js:149 | without a stream any sequence of scroll events leaves the whole session unchanged |
| Session.ActivationNeedsAcquire | app.js:112 | a stopped session stays stopped through any events that contain no successful acquisition |
| Session.StepKeepsFacing | app.js:98-145 | when every request in flight asks for the current facing, any event keeps the facing and keeps the requests agreeing with it |
| Session.RunKeepsFacing | app.js:98-145 | from such a state, no sequence of events changes the facing |
| Session.AlwaysEnvironment | app.js:98-145 | from the initial state, after any sequence of events the camera faces the environment |
| Session.SwitchNeverSwitches | app.js:140-145 | pressing the switch button any number of times never changes the facing |
| Capture.ZoomFactor | app.js:195-196 | a zoom between 10 and 30 tenths is a magnification between 1.0 and 3.0 |
| Capture.CropFor | app.js:194-198 | the crop times the zoom is the frame (`srcWidth = W / zoom`, `srcHeight = H / zoom`) and it is centred: `srcX + srcWidth + srcX = W`, likewise for Y |
| Capture.CropInsideFrame | app.js:195-198 | for zoom >= 1 the crop has non-negative size and lies within the frame on both axes |
| Capture.CropAtUnitZoom | app.js:195-198 | at zoom 1 the crop is the whole frame |
| Capture.CropShrinksWithZoom | app.js:195-198 | a larger zoom gives a smaller crop nested inside the crop of the smaller zoom |
| Analysis.TitleStatus | app.js:261 | a truthy title is shown after `Analysis: `, as the text it renders to; a missing or falsy one gives `Analysis: Unknown Object` |
| Analysis.RawStatus | app.js:263 | the fallback status starts with `LLM Text: ` |
| Analysis.AnalysisStatus | app.js:255-267 | absent, falsy or empty `data` gives `Analysis Complete.`; a structured value gives its title status |
| Analysis.ParsedTitleShown | app.js:259-261 | text that parses to a value with a truthy title gives `Analysis: <title>` |
| Analysis.ParsedWithoutTitle | app.js:261 | text that parses to a value without a title gives `Analysis: Unknown Object` |
| Analysis.UnparsedTextTruncated | app.js:262-264 | text that does not parse, or parses to null, gives `LLM Text: `, then exactly its first min(30, length) characters, then `...` |
| Analysis.StatusKindOf | app.js:257-265 | each of the three kinds of status is produced exactly for its kind of response, and the kinds are told apart by the text alone |
| CameraPage.ZoomTextReadsBack | app.js:121 | every reachable zoom prints as `d.d` with one decimal, and those digits read back as the zoom |
| CameraPage.PageCropInsideFrame | app.js:195-198 | at every zoom the page can reach the capture crop lies inside the video frame |
| CameraPage.StoredPhoto | app.js:238-242 | review finds a photo exactly when `last_capture` holds a non-empty string, and it is that string |
| CameraPage.StoreCapture | app.js:208 | a capture write makes review find exactly that image, adds only the `last_capture` key and leaves every other key alone |
| CameraPage.LaterCaptureWins | app.js:208 | two writes to the slot leave the same storage as the second one alone: no history is kept |
| CameraPage.CameraModule.constructor | app.js:61-78 | the page starts with no stream, environment facing, zoom 1.0, nothing requested, status `Not Active`, no review image and nothing sent |
| CameraPage.CameraModule.LaunchCamera | app.js:98-107 | follows `Session.Launch`: with a stream, all its tracks are stopped, status `Camera stopped.`, no request; without one, the requested facing (default: current) is returned as the request and joins the requests in flight |
| CameraPage.CameraModule.OnAcquired | app.js:108-122 | holds the stream with the facing its request asked for, keeps zoom, hides the review image and shows facing and zoom |
| CameraPage.CameraModule.OnAcquireFailed | app.js:123-126 | the rejected request leaves flight and the status becomes the camera error text with the error's name |
| CameraPage.CameraModule.StopCamera | app.js:129-138 | follows `Session.Stop`: with a stream every one of its tracks is stopped, the stream dropped and status `Camera stopped.`; without one nothing changes |
| CameraPage.CameraModule.ToggleFacingMode | app.js:140-145 | follows `Session.ToggleFacing`: without a stream nothing changes; with one the camera stops and nothing is requested |
| CameraPage.CameraModule.HandleScrollUp | app.js:148-152 | follows `Session.ScrollUp` and shows the new zoom; without a stream nothing changes |
| CameraPage.CameraModule.HandleScrollDown | app.js:154-158 | follows `Session.ScrollDown` and shows the new zoom; without a stream nothing changes |
| CameraPage.CameraModule.ApplyZoom | app.js:160-170 | the status shows the current facing and zoom |
| CameraPage.CameraModule.HandleSingleClick | app.js:173-179 | without a stream the status is `Launch camera first!` and nothing is drawn, stored or sent; with one it captures |
| CameraPage.CameraModule.CaptureStoreAndAnalyze | app.js:181-217 | draws the centred crop at the current zoom onto the 240 x 282 canvas, replaces the `last_capture` slot when storage exists and the write completes, posts the base64 image when the bridge exists; without a stream only `Camera not ready.` |
| CameraPage.CameraModule.SendToLlm | app.js:219-232 | with the bridge, appends one request with the fixed instruction and the image; without it, only the status `Plugin API not available for LLM.` |
| CameraPage.CameraModule.ReviewLastPhoto | app.js:235-252 | without storage only a status, the same stream held and its tracks untouched; with a stored photo every track of the held stream is stopped, the stream dropped and exactly that photo shown; with none only `No photo found in storage.`, the same stream held and its tracks untouched |
| CameraPage.CameraModule.HandleMessage | app.js:255-267 | the status becomes the one `Analysis.AnalysisStatus` selects; nothing else changes |
| CameraPage.CaptureThenReview | app.js:206-243 | capturing then reviewing shows exactly the captured image and leaves the camera stopped |
| CameraPage.TwoCapturesThenReview | app.js:206-243 | after two captures review shows the second; the storage equals one write of the second |
| CameraPage.DoubleLaunchLeaksFirstStream | app.js:98-138 | two launches before either resolves give two requests; once both resolve the second stream is held, and stopping releases it while the first stream's track stays live |
| Host.Track.Stop | app.js:131 | a stopped track is no longer live |
| Host.PlainStorage.SetItem | app.js:208 | the value replaces whatever the key held |
| Host.PlainStorage.GetItem | app.js:238 | returns the stored value exactly when the key is present |

## Left out

- Page markup and element styling (`innerHTML`, preview and review visibility, button labels and enabled states, the preview's CSS `scale` transform): presentation only. The review surface is kept as `reviewImage`; `ApplyZoom` keeps only the status text.
- Event routing through `pageModules` and `currentPage`, and the `longPressStart` listener, which only logs: host wiring. `Session.Event` lists the events that reach the session.
- `navigator.mediaDevices.getUserMedia` itself: a foreign asynchronous API, replaced by the returned request and the `OnAcquired` / `OnAcquireFailed` completions. Several requests in flight, resolving in any order, are modelled; each completion runs to the end before the next event, so no interleaving inside one handler is.
- Interleaving at the `await` points of capture and review: each method runs to completion in the model.
- Capture feedback (`toggleCaptureFeedback`, the shutter sound, the `setTimeout` that ends it): side effects with no bearing on state.
- Canvas resampling, JPEG encoding and `split(',')`: library calls. Their output is the `Snapshot` parameter; only the crop arithmetic and the 240 x 282 canvas size are modelled.
- Storage errors: the caught exception of `setItem` is the `storeSucceeds` parameter, and a failed write leaves the slot as it was. Console logging is not modelled.
- A rejected `getItem` in `reviewLastPhoto` (app.js:238): the method then ends with the status unchanged and the camera running. `ReviewLastPhoto` models a `getItem` that always answers.
- `Session.Step` ignores a completion event whose index names no request in flight; the host only completes requests that were made, and `OnAcquired` / `OnAcquireFailed` require that.
- `JSON.parse` and `JSON.stringify`: library calls. Parsing is the `parse` parameter; the posted payload is kept as a record, not as its JSON text.
- Analysis titles that are not strings are held as the text they render to; `substring` counts UTF-16 code units, while the model counts characters.
- Floating point: zoom is exact in tenths and the crop is exact over reals, where the page rounds.
