/**
 * The camera session of the Precision Lens camera page as pure transitions.
 *
 * A session is whether a stream is held, the facing mode and the digital zoom.
 * Zoom is kept in integer tenths: the page's 1.0, 3.0 and 0.2 are 10, 30 and 2
 * here. The page computes with JavaScript floats, which only approximate these
 * values; the model abstracts that rounding away.
 */
module Session {
  import opened Wrappers

  datatype Facing = Environment | User

  /** The facing mode `toggleFacingMode` asks for. */
  function Opposite(f: Facing): (g: Facing)
    ensures g != f
    ensures f == Environment <==> g == User
  {
    if f == Environment then User else Environment
  }

  const MIN_ZOOM: int := 10   // 1.0
  const MAX_ZOOM: int := 30   // 3.0
  const ZOOM_STEP: int := 2   // 0.2

  /** Zoom levels the page can reach: within the bounds and on the step grid. */
  predicate ZoomValid(z: int) {
    MIN_ZOOM <= z <= MAX_ZOOM && (z - MIN_ZOOM) % ZOOM_STEP == 0
  }

  function Min(a: int, b: int): int { if a <= b then a else b }
  function Max(a: int, b: int): int { if a >= b then a else b }

  /** One scroll-up step: `Math.min(MAX_ZOOM, zoomLevel + ZOOM_STEP)`. */
  function ZoomIn(z: int): (r: int)
    requires ZoomValid(z)
    ensures ZoomValid(r) && z <= r
    ensures z < MAX_ZOOM ==> r == z + ZOOM_STEP
    ensures z == MAX_ZOOM ==> r == MAX_ZOOM
  {
    Min(MAX_ZOOM, z + ZOOM_STEP)
  }

  /** One scroll-down step: `Math.max(MIN_ZOOM, zoomLevel - ZOOM_STEP)`. */
  function ZoomOut(z: int): (r: int)
    requires ZoomValid(z)
    ensures ZoomValid(r) && r <= z
    ensures z > MIN_ZOOM ==> r == z - ZOOM_STEP
    ensures z == MIN_ZOOM ==> r == MIN_ZOOM
  {
    Max(MIN_ZOOM, z - ZOOM_STEP)
  }

  /** Scrolling up then down returns to the start unless zoom was at the top. */
  lemma ZoomInThenOut(z: int)
    requires ZoomValid(z) && z < MAX_ZOOM
    ensures ZoomOut(ZoomIn(z)) == z
  {
  }

  /** Scrolling down then up returns to the start unless zoom was at the bottom. */
  lemma ZoomOutThenIn(z: int)
    requires ZoomValid(z) && z > MIN_ZOOM
    ensures ZoomIn(ZoomOut(z)) == z
  {
  }

  /**
   * `pending` lists the facings of the stream requests still in flight, in
   * the order they were made: each `.then` of `getUserMedia` keeps the facing
   * its `launchCamera` call asked for.
   */
  datatype SessionState = SessionState(active: bool, facing: Facing, zoom: int, pending: seq<Facing>)

  predicate Valid(s: SessionState) {
    ZoomValid(s.zoom)
  }

  /** The state the page starts in: no stream, environment camera, zoom 1.0, nothing requested. */
  const Initial: SessionState := SessionState(false, Environment, MIN_ZOOM, [])

  /** `pending` without its `i`-th request. */
  function Without(pending: seq<Facing>, i: nat): (r: seq<Facing>)
    requires i < |pending|
    ensures |r| == |pending| - 1
    ensures forall j :: 0 <= j < i ==> r[j] == pending[j]
    ensures forall j :: i <= j < |r| ==> r[j] == pending[j + 1]
  {
    pending[..i] + pending[i + 1..]
  }

  /** A transition that may also ask the host for a stream with some facing. */
  datatype Launched = Launched(next: SessionState, request: Option<Facing>)

  /** `stopCamera`: releases the stream if there is one; keeps facing, zoom and requests. */
  function Stop(s: SessionState): (t: SessionState)
    ensures !t.active
    ensures t.facing == s.facing && t.zoom == s.zoom && t.pending == s.pending
    ensures !s.active ==> t == s
  {
    if s.active then s.(active := false) else s
  }

  /**
   * `launchCamera(requested)`: a held stream is stopped and nothing is
   * requested; otherwise a stream with the requested facing is asked for and
   * joins the requests in flight, and nothing else changes.
   */
  function Launch(s: SessionState, requested: Facing): (l: Launched)
    ensures s.active ==> l.next == Stop(s) && l.request == None
    ensures !s.active ==> l.next == s.(pending := s.pending + [requested]) && l.request == Some(requested)
    ensures l.next.facing == s.facing && l.next.zoom == s.zoom && !l.next.active
  {
    if s.active then Launched(Stop(s), None)
    else Launched(s.(pending := s.pending + [requested]), Some(requested))
  }

  /**
   * Request `i` in flight resolved: the stream is held and the facing becomes
   * the one that request asked for (`this.currentFacingMode = newFacingMode`).
   */
  function Acquire(s: SessionState, i: nat): (t: SessionState)
    requires i < |s.pending|
    ensures t.active && t.facing == s.pending[i] && t.zoom == s.zoom
    ensures t.pending == Without(s.pending, i)
  {
    SessionState(true, s.pending[i], s.zoom, Without(s.pending, i))
  }

  /** Request `i` in flight was rejected: it is no longer in flight, nothing else changes. */
  function Reject(s: SessionState, i: nat): (t: SessionState)
    requires i < |s.pending|
    ensures t.active == s.active && t.facing == s.facing && t.zoom == s.zoom
    ensures t.pending == Without(s.pending, i)
  {
    s.(pending := Without(s.pending, i))
  }

  /**
   * `toggleFacingMode`: nothing without a stream; with one it calls
   * `launchCamera(opposite)`, which only stops the held stream. So facing
   * never changes here and no stream is requested.
   */
  function ToggleFacing(s: SessionState): (l: Launched)
    ensures l.request == None
    ensures l.next.facing == s.facing && l.next.zoom == s.zoom
    ensures l.next == Stop(s)
  {
    if !s.active then Launched(s, None) else Launch(s, Opposite(s.facing))
  }

  /** `handleScrollUp`: ignored without a stream, else one clamped step up. */
  function ScrollUp(s: SessionState): (t: SessionState)
    requires Valid(s)
    ensures Valid(t)
    ensures !s.active ==> t == s
    ensures s.active ==> t == s.(zoom := ZoomIn(s.zoom))
  {
    if !s.active then s else s.(zoom := ZoomIn(s.zoom))
  }

  /** `handleScrollDown`: ignored without a stream, else one clamped step down. */
  function ScrollDown(s: SessionState): (t: SessionState)
    requires Valid(s)
    ensures Valid(t)
    ensures !s.active ==> t == s
    ensures s.active ==> t == s.(zoom := ZoomOut(s.zoom))
  {
    if !s.active then s else s.(zoom := ZoomOut(s.zoom))
  }

  /** With a stream, scroll up then down is the identity below the top zoom. */
  lemma ScrollUpThenDown(s: SessionState)
    requires Valid(s) && s.zoom < MAX_ZOOM
    ensures ScrollDown(ScrollUp(s)) == s
  {
    if s.active {
      ZoomInThenOut(s.zoom);
    }
  }

  /** Events that reach the session, in arrival order. */
  datatype Event =
    | LaunchButton                // launch button: launchCamera() with the current facing
    | SwitchButton                // switch button: toggleFacingMode()
    | WheelUp                     // scroll wheel up: handleScrollUp()
    | WheelDown                   // scroll wheel down: handleScrollDown()
    | AcquireSucceeded(request: nat)  // getUserMedia resolved the request at this index in flight
    | AcquireFailed(request: nat)     // getUserMedia rejected the request at this index in flight
    | ReviewWithPhoto             // reviewLastPhoto found a stored photo and stops the camera

  function Step(s: SessionState, e: Event): (t: SessionState)
    requires Valid(s)
    ensures Valid(t)
  {
    match e
    case LaunchButton => Launch(s, s.facing).next
    case SwitchButton => ToggleFacing(s).next
    case WheelUp => ScrollUp(s)
    case WheelDown => ScrollDown(s)
    case AcquireSucceeded(i) => if i < |s.pending| then Acquire(s, i) else s
    case AcquireFailed(i) => if i < |s.pending| then Reject(s, i) else s
    case ReviewWithPhoto => Stop(s)
  }

  /** The session after processing `evs` one at a time from `s`. */
  function Run(s: SessionState, evs: seq<Event>): SessionState
    requires Valid(s)
    decreases |evs|
  {
    if evs == [] then s else Run(Step(s, evs[0]), evs[1..])
  }

  /** `n` copies of one event. */
  function Repeat(e: Event, n: nat): (r: seq<Event>)
    ensures |r| == n
  {
    if n == 0 then [] else [e] + Repeat(e, n - 1)
  }

  /** Whatever happens, zoom stays within [1.0, 3.0] on the step grid. */
  lemma {:induction false} RunValid(s: SessionState, evs: seq<Event>)
    requires Valid(s)
    ensures Valid(Run(s, evs))
    decreases |evs|
  {
    if evs != [] {
      RunValid(Step(s, evs[0]), evs[1..]);
    }
  }

  /** `n` scroll-ups with a stream give min(3.0, zoom + n * 0.2); at 3.0 they change nothing. */
  lemma {:induction false} WheelUpSaturates(s: SessionState, n: nat)
    requires Valid(s) && s.active
    ensures Run(s, Repeat(WheelUp, n)) == s.(zoom := Min(MAX_ZOOM, s.zoom + n * ZOOM_STEP))
    decreases n
  {
    if n > 0 {
      var t := ScrollUp(s);
      assert Repeat(WheelUp, n)[0] == WheelUp;
      assert Repeat(WheelUp, n)[1..] == Repeat(WheelUp, n - 1);
      WheelUpSaturates(t, n - 1);
      if s.zoom < MAX_ZOOM {
        assert t.zoom == s.zoom + ZOOM_STEP;
      } else {
        assert t == s;
      }
    }
  }

  /** Without a stream, any sequence of wheel events leaves the session as it is. */
  lemma {:induction false} InactiveIgnoresWheel(s: SessionState, evs: seq<Event>)
    requires Valid(s) && !s.active
    requires forall i :: 0 <= i < |evs| ==> evs[i] == WheelUp || evs[i] == WheelDown
    ensures Run(s, evs) == s
    decreases |evs|
  {
    if evs != [] {
      assert Step(s, evs[0]) == s;
      InactiveIgnoresWheel(s, evs[1..]);
    }
  }

  /** A stopped session becomes active only through a successful acquisition. */
  lemma {:induction false} ActivationNeedsAcquire(s: SessionState, evs: seq<Event>)
    requires Valid(s) && !s.active
    requires forall i :: 0 <= i < |evs| ==> !evs[i].AcquireSucceeded?
    ensures !Run(s, evs).active
    decreases |evs|
  {
    if evs != [] {
      ActivationNeedsAcquire(Step(s, evs[0]), evs[1..]);
    }
  }

  /** Every request in flight asks for the facing the session already has. */
  predicate RequestsKeepFacing(s: SessionState) {
    forall i :: 0 <= i < |s.pending| ==> s.pending[i] == s.facing
  }

  /**
   * The page only ever requests the facing it has: the launch button asks for
   * the current facing, and the switch button reaches `launchCamera` only with
   * a stream held, where it stops instead of requesting. So one step keeps
   * the facing and the requests in flight agreeing with it.
   */
  lemma StepKeepsFacing(s: SessionState, e: Event)
    requires Valid(s) && RequestsKeepFacing(s)
    ensures Step(s, e).facing == s.facing && RequestsKeepFacing(Step(s, e))
  {
    match e
    case AcquireSucceeded(i) =>
      if i < |s.pending| {
        var t := Acquire(s, i);
        forall j | 0 <= j < |t.pending| ensures t.pending[j] == t.facing {
          if j < i { assert t.pending[j] == s.pending[j]; } else { assert t.pending[j] == s.pending[j + 1]; }
        }
      }
    case AcquireFailed(i) =>
      if i < |s.pending| {
        var t := Reject(s, i);
        forall j | 0 <= j < |t.pending| ensures t.pending[j] == t.facing {
          if j < i { assert t.pending[j] == s.pending[j]; } else { assert t.pending[j] == s.pending[j + 1]; }
        }
      }
    case _ =>
  }

  /** Along any run the facing never changes, once requests agree with it. */
  lemma {:induction false} RunKeepsFacing(s: SessionState, evs: seq<Event>)
    requires Valid(s) && RequestsKeepFacing(s)
    ensures Run(s, evs).facing == s.facing
    decreases |evs|
  {
    if evs != [] {
      StepKeepsFacing(s, evs[0]);
      RunKeepsFacing(Step(s, evs[0]), evs[1..]);
    }
  }

  /** Whatever the user does, the page's camera faces the environment. */
  lemma AlwaysEnvironment(evs: seq<Event>)
    ensures Run(Initial, evs).facing == Environment
  {
    RunKeepsFacing(Initial, evs);
  }

  /** Pressing the switch button any number of times never changes the facing. */
  lemma {:induction false} SwitchNeverSwitches(s: SessionState, n: nat)
    requires Valid(s)
    ensures Run(s, Repeat(SwitchButton, n)).facing == s.facing
    decreases n
  {
    if n > 0 {
      assert Repeat(SwitchButton, n)[0] == SwitchButton;
      assert Repeat(SwitchButton, n)[1..] == Repeat(SwitchButton, n - 1);
      SwitchNeverSwitches(ToggleFacing(s).next, n - 1);
    }
  }
}
