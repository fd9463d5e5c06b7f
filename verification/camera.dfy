/**
 * The camera page module (`cameraModule`): one object whose methods change
 * the held stream, the facing mode, the zoom level and the status text in
 * place, capture a zoom-adjusted crop into the single `last_capture` storage
 * slot, hand it to the analysis bridge, and show analysis results.
 *
 * Asynchronous steps are split at their await points: `LaunchCamera` returns
 * the stream request it would make, and the host later calls `OnAcquired` or
 * `OnAcquireFailed`. The analysis bridge is the `sent` log of posted requests.
 */
module CameraPage {
  import opened Wrappers
  import opened Session
  import opened Capture
  import opened Analysis
  import opened Host

  // Status texts the page shows.
  const NOT_ACTIVE: string := "Not Active"
  const CAMERA_STOPPED: string := "Camera stopped."
  const LAUNCH_FIRST: string := "Launch camera first!"
  const NOT_READY: string := "Camera not ready."
  const CAPTURED: string := "Captured. Storing and Sending to LLM..."
  const PLUGIN_UNAVAILABLE: string := "Plugin API not available for LLM."
  const STORAGE_UNAVAILABLE: string := "Storage API not available."
  const REVIEWING: string := "Reviewing Last Captured Photo."
  const NO_PHOTO: string := "No photo found in storage."

  /** The one storage key captures are kept under. */
  const LAST_CAPTURE_KEY: string := "last_capture"

  /** The fixed instruction sent with every captured image. */
  const ANALYSIS_PROMPT: string :=
    "Analyze this image and provide a concise description, a potential use, and respond ONLY with valid JSON in this format: {\"title\":\"...\",\"use\":\"...\",\"description\":\"...\"}"

  /** The facing mode as the media API spells it. */
  function FacingName(f: Facing): string {
    match f
    case Environment => "environment"
    case User => "user"
  }

  function Digit(d: nat): char
    requires d < 10
  {
    ('0' as int + d) as char
  }

  /** The decimal digits of `n`. */
  function DecimalText(n: nat): string
    decreases n
  {
    if n < 10 then [Digit(n)] else DecimalText(n / 10) + [Digit(n % 10)]
  }

  /** `zoomLevel.toFixed(1)` for a zoom held in tenths. */
  function ZoomText(tenths: nat): string {
    DecimalText(tenths / 10) + "." + [Digit(tenths % 10)]
  }

  /** Every reachable zoom prints as "d.d", and the two digits read back as the zoom. */
  lemma ZoomTextReadsBack(tenths: int)
    requires ZoomValid(tenths)
    ensures var text := ZoomText(tenths);
      && |text| == 3 && text[1] == '.'
      && (text[0] as int - '0' as int) * 10 + (text[2] as int - '0' as int) == tenths
  {
    assert tenths / 10 < 10;
    assert DecimalText(tenths / 10) == [Digit(tenths / 10)];
  }

  /** At every zoom the page can reach, the capture crop lies inside the video frame. */
  lemma PageCropInsideFrame(videoWidth: nat, videoHeight: nat, tenths: int)
    requires ZoomValid(tenths)
    ensures var r := CropFor(videoWidth, videoHeight, ZoomFactor(tenths));
      && 0.0 <= r.x && r.x + r.width <= videoWidth as real
      && 0.0 <= r.y && r.y + r.height <= videoHeight as real
  {
    CropInsideFrame(videoWidth, videoHeight, ZoomFactor(tenths));
  }

  /** `Facing: ${currentFacingMode} / Zoom: ${zoomLevel.toFixed(1)}x` */
  function FacingStatus(f: Facing, tenths: nat): string {
    "Facing: " + FacingName(f) + " / Zoom: " + ZoomText(tenths) + "x"
  }

  /** `Camera Error: ${e.name}. Tap Start to try again.` */
  function CameraErrorStatus(errorName: string): string {
    "Camera Error: " + errorName + ". Tap Start to try again."
  }

  /** What the canvas produced: the JPEG data URL and its base64 part after the comma. */
  datatype Snapshot = Snapshot(dataUrl: string, base64: string)

  /** The payload posted to the analysis bridge. */
  datatype AnalysisRequest = AnalysisRequest(message: string, useLlm: bool, imageBase64: string)

  /**
   * The photo review shows from storage: the `last_capture` value when it is
   * truthy, that is present and not the empty string.
   */
  function StoredPhoto(items: map<string, string>): (photo: Option<string>)
    ensures photo.Some? <==> LAST_CAPTURE_KEY in items && items[LAST_CAPTURE_KEY] != ""
    ensures photo.Some? ==> photo.value == items[LAST_CAPTURE_KEY]
  {
    if LAST_CAPTURE_KEY in items && items[LAST_CAPTURE_KEY] != "" then Some(items[LAST_CAPTURE_KEY]) else None
  }

  /** Storing a capture replaces the slot and leaves every other key alone. */
  function StoreCapture(items: map<string, string>, dataUrl: string): (stored: map<string, string>)
    ensures dataUrl != "" ==> StoredPhoto(stored) == Some(dataUrl)
    ensures stored.Keys == items.Keys + {LAST_CAPTURE_KEY}
    ensures forall k :: k in items && k != LAST_CAPTURE_KEY ==> stored[k] == items[k]
  {
    items[LAST_CAPTURE_KEY := dataUrl]
  }

  /** A later capture hides the earlier one completely: only the last write is kept. */
  lemma LaterCaptureWins(items: map<string, string>, first: string, second: string)
    ensures StoreCapture(StoreCapture(items, first), second) == StoreCapture(items, second)
  {
  }

  class CameraModule {
    /** The held media stream, or null. */
    var cameraStream: MediaStream?
    var currentFacingMode: Facing
    /** The digital zoom in tenths (10 is 1.0x). */
    var zoomLevel: int
    /** The text of the status line. */
    var status: string
    /** The image the review surface shows in place of the preview, if any. */
    var reviewImage: Option<string>
    /**
     * The facings of the stream requests in flight, oldest first: what each
     * pending `getUserMedia(...).then` continuation will set the facing to.
     */
    var pending: seq<Facing>
    /** Every request posted to the analysis bridge, oldest first. */
    var sent: seq<AnalysisRequest>
    /** Plain storage, or null when the host offers none. */
    const storage: PlainStorage?
    /** Whether the host offers the analysis bridge. */
    const pluginAvailable: bool

    predicate Valid()
      reads this
    {
      ZoomValid(zoomLevel)
    }

    /** The session part of the state. */
    function State(): SessionState
      reads this
    {
      SessionState(cameraStream != null, currentFacingMode, zoomLevel, pending)
    }

    /** The tracks `stopCamera` may stop. */
    function Tracks(): seq<Track>
      reads this
    {
      if cameraStream == null then [] else cameraStream.tracks
    }

    constructor (storage: PlainStorage?, pluginAvailable: bool)
      ensures Valid() && State() == Initial
      ensures status == NOT_ACTIVE && reviewImage == None && sent == []
      ensures this.storage == storage && this.pluginAvailable == pluginAvailable
    {
      cameraStream := null;
      currentFacingMode := Environment;
      zoomLevel := MIN_ZOOM;
      pending := [];
      status := NOT_ACTIVE;
      reviewImage := None;
      sent := [];
      this.storage := storage;
      this.pluginAvailable := pluginAvailable;
    }

    /**
     * Toggles: a held stream is stopped and nothing is requested; otherwise a
     * stream with `newFacingMode` (default: the current facing) is requested
     * and waits in `pending` until it resolves.
     */
    method LaunchCamera(newFacingMode: Option<Facing>) returns (request: Option<Facing>)
      requires Valid()
      modifies this, Tracks()
      ensures Valid()
      ensures Launched(State(), request) == Launch(old(State()), newFacingMode.GetOr(old(currentFacingMode)))
      ensures old(cameraStream) != null ==> old(cameraStream).Released() && status == CAMERA_STOPPED
      ensures old(cameraStream) == null ==> status == old(status)
      ensures reviewImage == old(reviewImage) && sent == old(sent)
    {
      if cameraStream != null {
        StopCamera();
        request := None;
        return;
      }
      request := Some(newFacingMode.GetOr(currentFacingMode));
      pending := pending + [request.value];
    }

    /**
     * The request at index `request` in flight resolved with `stream`: hold
     * it, take the facing that request asked for, show the preview.
     */
    method OnAcquired(stream: MediaStream, request: nat)
      requires Valid() && request < |pending|
      modifies this
      ensures Valid()
      ensures State() == Acquire(old(State()), request) && cameraStream == stream
      ensures currentFacingMode == old(pending[request])
      ensures reviewImage == None
      ensures status == FacingStatus(currentFacingMode, zoomLevel)
      ensures sent == old(sent)
    {
      cameraStream := stream;
      currentFacingMode := pending[request];
      pending := Without(pending, request);
      reviewImage := None;
      status := FacingStatus(currentFacingMode, zoomLevel);
      ApplyZoom();
    }

    /**
     * The request at index `request` in flight was rejected with error
     * `errorName`: it is no longer in flight and the status reports the error.
     */
    method OnAcquireFailed(errorName: string, request: nat)
      requires Valid() && request < |pending|
      modifies this`status, this`pending
      ensures Valid()
      ensures State() == Reject(old(State()), request)
      ensures status == CameraErrorStatus(errorName)
    {
      pending := Without(pending, request);
      status := CameraErrorStatus(errorName);
    }

    /** Stops every track of the held stream and drops it; nothing without a stream. */
    method StopCamera()
      requires Valid()
      modifies this, Tracks()
      ensures Valid()
      ensures State() == Stop(old(State()))
      ensures old(cameraStream) != null ==> old(cameraStream).Released() && status == CAMERA_STOPPED
      ensures old(cameraStream) == null ==> status == old(status)
      ensures reviewImage == old(reviewImage) && sent == old(sent)
    {
      if cameraStream != null {
        var tracks := cameraStream.tracks;
        var i := 0;
        while i < |tracks|
          invariant 0 <= i <= |tracks|
          invariant forall j :: 0 <= j < i ==> !tracks[j].live
          invariant unchanged(this)
        {
          tracks[i].Stop();
          i := i + 1;
        }
        cameraStream := null;
        status := CAMERA_STOPPED;
      }
    }

    /**
     * Nothing without a stream; with one, `launchCamera(opposite facing)`,
     * which stops the stream and requests nothing.
     */
    method ToggleFacingMode() returns (request: Option<Facing>)
      requires Valid()
      modifies this, Tracks()
      ensures Valid()
      ensures Launched(State(), request) == ToggleFacing(old(State()))
      ensures old(cameraStream) != null ==> old(cameraStream).Released() && status == CAMERA_STOPPED
      ensures old(cameraStream) == null ==> status == old(status)
      ensures reviewImage == old(reviewImage) && sent == old(sent)
    {
      if cameraStream == null {
        request := None;
        return;
      }
      var newMode := Opposite(currentFacingMode);
      request := LaunchCamera(Some(newMode));
    }

    /** Scroll up: one clamped zoom step while a stream is held. */
    method HandleScrollUp()
      requires Valid()
      modifies this`zoomLevel, this`status
      ensures Valid()
      ensures State() == ScrollUp(old(State()))
      ensures old(cameraStream) != null ==> status == FacingStatus(currentFacingMode, zoomLevel)
      ensures old(cameraStream) == null ==> status == old(status)
    {
      if cameraStream == null {
        return;
      }
      zoomLevel := Min(MAX_ZOOM, zoomLevel + ZOOM_STEP);
      ApplyZoom();
    }

    /** Scroll down: one clamped zoom step while a stream is held. */
    method HandleScrollDown()
      requires Valid()
      modifies this`zoomLevel, this`status
      ensures Valid()
      ensures State() == ScrollDown(old(State()))
      ensures old(cameraStream) != null ==> status == FacingStatus(currentFacingMode, zoomLevel)
      ensures old(cameraStream) == null ==> status == old(status)
    {
      if cameraStream == null {
        return;
      }
      zoomLevel := Max(MIN_ZOOM, zoomLevel - ZOOM_STEP);
      ApplyZoom();
    }

    /** Shows the facing and zoom; the preview's CSS scale is not modelled. */
    method ApplyZoom()
      requires Valid()
      modifies this`status
      ensures status == FacingStatus(currentFacingMode, zoomLevel)
    {
      status := FacingStatus(currentFacingMode, zoomLevel);
    }

    /**
     * The capture button: without a stream only the status changes; with one,
     * capture, store and analyse. `videoWidth` and `videoHeight` are the
     * frame's native size, `snapshot` what the canvas encodes, and
     * `storeSucceeds` whether the storage write completes.
     */
    method HandleSingleClick(videoWidth: nat, videoHeight: nat, snapshot: Snapshot, storeSucceeds: bool)
      returns (draw: Option<DrawCall>)
      requires Valid()
      modifies this`status, this`sent, storage
      ensures Valid()
      ensures old(cameraStream) == null ==>
        && status == LAUNCH_FIRST && draw == None && sent == old(sent)
        && (storage != null ==> storage.items == old(storage.items))
      ensures old(cameraStream) != null ==> Captured(videoWidth, videoHeight, snapshot, storeSucceeds, draw)
    {
      if cameraStream == null {
        status := LAUNCH_FIRST;
        draw := None;
        return;
      }
      draw := CaptureStoreAndAnalyze(videoWidth, videoHeight, snapshot, storeSucceeds);
    }

    /**
     * The outcome of a capture with a stream held: the centred crop at the
     * current zoom is drawn onto the 240 x 282 canvas, the data URL replaces the
     * `last_capture` slot when storage exists and the write completes, the
     * base64 part is posted when the bridge exists, and the status says which.
     */
    twostate predicate Captured(videoWidth: nat, videoHeight: nat, snapshot: Snapshot, storeSucceeds: bool,
                                new draw: Option<DrawCall>)
      requires Valid()
      reads this, storage
    {
      && draw == Some(DrawCall(CropFor(videoWidth, videoHeight, ZoomFactor(zoomLevel)), CANVAS_WIDTH, CANVAS_HEIGHT))
      && (storage != null ==>
            storage.items == if storeSucceeds then StoreCapture(old(storage.items), snapshot.dataUrl)
                             else old(storage.items))
      && sent == old(sent) + (if pluginAvailable then [AnalysisRequest(ANALYSIS_PROMPT, true, snapshot.base64)] else [])
      && status == (if pluginAvailable then CAPTURED else PLUGIN_UNAVAILABLE)
    }

    /** Capture, store in the single slot, and send for analysis. */
    method CaptureStoreAndAnalyze(videoWidth: nat, videoHeight: nat, snapshot: Snapshot, storeSucceeds: bool)
      returns (draw: Option<DrawCall>)
      requires Valid()
      modifies this`status, this`sent, storage
      ensures Valid()
      ensures old(cameraStream) == null ==>
        && status == NOT_READY && draw == None && sent == old(sent)
        && (storage != null ==> storage.items == old(storage.items))
      ensures old(cameraStream) != null ==> Captured(videoWidth, videoHeight, snapshot, storeSucceeds, draw)
    {
      if cameraStream == null {
        status := NOT_READY;
        draw := None;
        return;
      }
      draw := Some(DrawCall(CropFor(videoWidth, videoHeight, ZoomFactor(zoomLevel)), CANVAS_WIDTH, CANVAS_HEIGHT));
      status := CAPTURED;
      if storage != null && storeSucceeds {
        storage.SetItem(LAST_CAPTURE_KEY, snapshot.dataUrl);
      }
      SendToLlm(snapshot.base64);
    }

    /** Posts the image with the fixed instruction, or reports that the bridge is missing. */
    method SendToLlm(base64: string)
      modifies this`status, this`sent
      ensures pluginAvailable ==> sent == old(sent) + [AnalysisRequest(ANALYSIS_PROMPT, true, base64)] && status == old(status)
      ensures !pluginAvailable ==> sent == old(sent) && status == PLUGIN_UNAVAILABLE
    {
      if pluginAvailable {
        sent := sent + [AnalysisRequest(ANALYSIS_PROMPT, true, base64)];
      } else {
        status := PLUGIN_UNAVAILABLE;
      }
    }

    /**
     * Shows the stored capture in place of the preview, stopping the camera;
     * or says that storage or a photo is missing.
     */
    method ReviewLastPhoto()
      requires Valid()
      modifies this, Tracks()
      ensures Valid()
      ensures sent == old(sent)
      ensures storage == null ==>
        && State() == old(State()) && cameraStream == old(cameraStream)
        && status == STORAGE_UNAVAILABLE && reviewImage == old(reviewImage)
        && unchanged(old(Tracks()))
      ensures storage != null && StoredPhoto(storage.items).Some? ==>
        && State() == Stop(old(State()))
        && (old(cameraStream) != null ==> old(cameraStream).Released())
        && reviewImage == StoredPhoto(storage.items)
        && status == REVIEWING
      ensures storage != null && StoredPhoto(storage.items).None? ==>
        && State() == old(State()) && cameraStream == old(cameraStream)
        && status == NO_PHOTO && reviewImage == old(reviewImage)
        && unchanged(old(Tracks()))
    {
      if storage == null {
        status := STORAGE_UNAVAILABLE;
        return;
      }
      var photo := storage.GetItem(LAST_CAPTURE_KEY);
      if photo.Some? && photo.value != "" {
        StopCamera();
        reviewImage := photo;
        status := REVIEWING;
      } else {
        status := NO_PHOTO;
      }
    }

    /** An analysis response arrived: show the status it selects. */
    method HandleMessage(data: Option<Data>, parse: string -> Option<Json>)
      modifies this`status
      ensures status == AnalysisStatus(data, parse)
    {
      status := AnalysisStatus(data, parse);
    }
  }

  /** A capture followed by a review shows exactly the captured image, with the camera stopped. */
  method CaptureThenReview(m: CameraModule, videoWidth: nat, videoHeight: nat, snapshot: Snapshot)
    requires m.Valid() && m.cameraStream != null && m.storage != null && snapshot.dataUrl != ""
    modifies m, m.storage, m.Tracks()
    ensures m.Valid()
    ensures m.reviewImage == Some(snapshot.dataUrl) && !m.State().active
    ensures m.status == REVIEWING
  {
    var _ := m.HandleSingleClick(videoWidth, videoHeight, snapshot, true);
    m.ReviewLastPhoto();
  }

  /** Of two captures only the second can be reviewed: the slot keeps no history. */
  method TwoCapturesThenReview(m: CameraModule, videoWidth: nat, videoHeight: nat, first: Snapshot, second: Snapshot)
    requires m.Valid() && m.cameraStream != null && m.storage != null && second.dataUrl != ""
    modifies m, m.storage, m.Tracks()
    ensures m.Valid()
    ensures m.reviewImage == Some(second.dataUrl)
    ensures m.storage.items == StoreCapture(old(m.storage.items), second.dataUrl)
  {
    var _ := m.HandleSingleClick(videoWidth, videoHeight, first, true);
    var _ := m.HandleSingleClick(videoWidth, videoHeight, second, true);
    LaterCaptureWins(old(m.storage.items), first.dataUrl, second.dataUrl);
    m.ReviewLastPhoto();
  }

  /**
   * Two launches before either request resolves: both requests are in
   * flight, both resolve, and the second stream replaces the first without
   * stopping it. A later stop releases only the second stream; the first
   * stream's tracks stay live.
   */
  method DoubleLaunchLeaksFirstStream(m: CameraModule, first: MediaStream, second: MediaStream)
    requires m.Valid() && m.cameraStream == null && m.pending == []
    requires first.tracks != [] && first.tracks[0].live && first.tracks[0] !in second.tracks
    modifies m, second.tracks
    ensures m.Valid() && !m.State().active && m.pending == []
    ensures second.Released()
    ensures first.tracks[0].live
  {
    var _ := m.LaunchCamera(None);
    var _ := m.LaunchCamera(None);
    assert |m.pending| == 2;
    m.OnAcquired(first, 0);
    m.OnAcquired(second, 0);
    assert m.cameraStream == second && m.Tracks() == second.tracks;
    m.StopCamera();
  }
}
