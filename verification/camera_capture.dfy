/**
 * The camera capture component (src/components/camera-capture.tsx): the
 * classification of camera errors, the 3-2-1 countdown, the mirrored still,
 * and the discipline that stops every acquired camera stream.
 *
 * `getUserMedia`, the `loadedmetadata` callback, the interval's ticks and
 * the cleanup are events; the stream is a number, a video frame a grid of
 * pixel values, and JPEG encoding is left out (the emitted still is the
 * mirrored frame itself).
 */
module CameraCapture {
  import opened Common

  /** What `getUserMedia` can reject with: a `DOMException` with a name, or anything else. */
  datatype CameraException = DomException(name: string) | OtherException

  datatype CameraFault = AccessDenied | NoCamera | CameraBusy | UnknownFault

  /** The `err.name` tests of the catch arm. */
  function Classify(e: CameraException): (r: CameraFault)
    ensures r == AccessDenied <==>
      e.DomException? && (e.name == "NotAllowedError" || e.name == "PermissionDeniedError")
    ensures r == NoCamera <==>
      e.DomException? && (e.name == "NotFoundError" || e.name == "DevicesNotFoundError")
    ensures r == CameraBusy <==>
      e.DomException? && (e.name == "NotReadableError" || e.name == "TrackStartError")
    ensures e.OtherException? ==> r == UnknownFault
  {
    match e
    case OtherException => UnknownFault
    case DomException(name) =>
      if name == "NotAllowedError" || name == "PermissionDeniedError" then AccessDenied
      else if name == "NotFoundError" || name == "DevicesNotFoundError" then NoCamera
      else if name == "NotReadableError" || name == "TrackStartError" then CameraBusy
      else UnknownFault
  }

  const DeniedText: string :=
    "Camera access was denied. Please allow camera access in your browser settings to continue."
  const NoCameraText: string := "No camera was found on your device. Please connect a camera to continue."
  const BusyText: string := "The camera is currently in use by another application."
  const UnknownText: string := "An unknown camera error occurred."

  /** The user-facing text for each fault. */
  function Message(f: CameraFault): (r: string)
    ensures r != ""
    ensures r == UnknownText <==> f == UnknownFault
  {
    assert |DeniedText| == 90 && |NoCameraText| == 72 && |BusyText| == 54 && |UnknownText| == 33;
    match f
    case AccessDenied => DeniedText
    case NoCamera => NoCameraText
    case CameraBusy => BusyText
    case UnknownFault => UnknownText
  }

  /** The four faults read differently, so the message tells the user which one happened. */
  lemma MessagesDistinguishFaults(f: CameraFault, g: CameraFault)
    ensures Message(f) == Message(g) <==> f == g
  {
    assert |DeniedText| == 90 && |NoCameraText| == 72 && |BusyText| == 54 && |UnknownText| == 33;
  }

  // ---------------------------------------------------------------- countdown

  const CountdownStart: int := 3

  /** What one tick's state updater returns, and whether it cleared the timer and captured. */
  datatype TickEffect = TickEffect(next: Option<int>, fire: bool)

  /** The updater passed to `setCountdown` on each interval tick. */
  function CountdownTick(prev: Option<int>): (r: TickEffect)
    ensures r.fire <==> r.next.None?
    ensures r.next.Some? ==> prev.Some? && r.next.value == prev.value - 1 && r.next.value >= 1
  {
    if prev.None? || prev.value <= 1 then TickEffect(None, true) else TickEffect(Some(prev.value - 1), false)
  }

  /** One timer's run: `n` interval firings from `c`, stopping once it fired; yields the countdown, the captures and whether it still runs. */
  function RunTimer(c: Option<int>, n: nat): (Option<int>, nat, bool)
    decreases n
  {
    if n == 0 then (c, 0, true)
    else
      var eff := CountdownTick(c);
      if eff.fire then (eff.next, 1, false) else RunTimer(eff.next, n - 1)
  }

  /**
   * From `k` the timer shows `k`, `k-1`, ..., `1`; the `k`-th tick captures
   * once, clears the countdown and stops the timer. From 3, the capture is
   * on the third tick.
   */
  lemma {:induction false} CountdownCapturesOnTick(k: int, n: nat)
    requires k >= 1
    ensures n < k ==> RunTimer(Some(k), n) == (Some(k - n), 0, true)
    ensures n >= k ==> RunTimer(Some(k), n) == (None, 1, false)
  {
    if n > 0 && k > 1 {
      CountdownCapturesOnTick(k - 1, n - 1);
    }
  }

  // ---------------------------------------------------------------- mirrored still

  /** A video frame, `rows[y][x]`. */
  datatype Frame = Frame(width: nat, height: nat, rows: seq<seq<int>>)

  predicate WellFormed(f: Frame)
  {
    |f.rows| == f.height && forall y :: 0 <= y < |f.rows| ==> |f.rows[y]| == f.width
  }

  /**
   * The source column drawn at column `x` of a canvas `width` wide after
   * `translate(width, 0)` and `scale(-1, 1)`: the transform maps the centre
   * of a pixel, `x + 1/2` (here in half-pixel units), to `width - (x + 1/2)`.
   */
  function FlippedColumn(width: nat, x: nat): (r: nat)
    requires x < width
    ensures r < width && r == width - 1 - x
  {
    var centre := 2 * x + 1;
    var mapped := 2 * width - centre;
    (mapped - 1) / 2
  }

  /** The still drawn onto a canvas of the video's size under the flip. */
  function Mirror(f: Frame): (r: Frame)
    requires WellFormed(f)
    ensures WellFormed(r) && r.width == f.width && r.height == f.height
    ensures forall y, x :: 0 <= y < f.height && 0 <= x < f.width ==> r.rows[y][x] == f.rows[y][f.width - 1 - x]
  {
    Frame(f.width, f.height,
          seq(f.height, y requires 0 <= y < f.height =>
            seq(f.width, x requires 0 <= x < f.width => f.rows[y][FlippedColumn(f.width, x)])))
  }

  /** Mirroring the still again gives back the camera frame: the flip loses nothing. */
  lemma MirrorInvolution(f: Frame)
    requires WellFormed(f)
    ensures Mirror(Mirror(f)) == f
  {
    var m := Mirror(Mirror(f));
    forall y | 0 <= y < f.height
      ensures m.rows[y] == f.rows[y]
    {
      forall x | 0 <= x < f.width
        ensures m.rows[y][x] == f.rows[y][x]
      {
        assert m.rows[y][x] == Mirror(f).rows[y][f.width - 1 - x];
      }
    }
  }

  // ---------------------------------------------------------------- the component

  /**
   * One mount of the component: `mounted` and `stream` are the effect's
   * locals, `stopped` the streams whose tracks were stopped, `attached` that
   * the stream was given to the video element and its `loadedmetadata`
   * callback registered, `reported` the messages passed to `onCameraError`,
   * `timers` the running countdown intervals and `emitted` the stills handed
   * to `onCapture`.
   */
  class Camera {
    var mounted: bool
    var settled: bool
    var stream: Option<nat>
    var stopped: set<nat>
    var attached: bool
    var isCameraReady: bool
    var error: Option<string>
    var reported: seq<string>
    var countdown: Option<int>
    var timers: nat
    var emitted: seq<Frame>

    /**
     * Readiness only follows an attached stream; an error only follows a
     * failed acquisition and was reported once; a stream that was not
     * attached, or whose component is gone, has been stopped.
     */
    ghost predicate Valid()
      reads this
    {
      && (attached ==> stream.Some?)
      && (isCameraReady ==> attached)
      && (stream.Some? || error.Some? ==> settled)
      && (error.Some? ==> stream.None? && reported == [error.value])
      && (error.None? ==> reported == [])
      && (stream.Some? && (!attached || !mounted) ==> stream.value in stopped)
    }

    /** The `<video>` element exists: the component is mounted and shows no alert. */
    predicate HasVideo()
      reads this
    {
      mounted && error.None?
    }

    /**
     * The "Take Selfie" button is rendered (no alert) and enabled:
     * `disabled={!isCameraReady || countdown !== null}`.
     */
    predicate CaptureEnabled()
      reads this
    {
      error.None? && isCameraReady && countdown.None?
    }

    /**
     * At most one countdown interval runs, and it runs exactly while a
     * countdown value between 1 and 3 is shown.
     */
    predicate OneCountdown()
      reads this
    {
      && timers <= 1
      && (timers == 1 <==> countdown.Some?)
      && (countdown.Some? ==> 1 <= countdown.value <= CountdownStart)
    }

    /** Mounting runs the effect: `isMounted = true`, `stream = null`, `getUserMedia` pending. */
    constructor ()
      ensures Valid() && mounted && !settled && stream.None? && stopped == {}
      ensures !attached && !isCameraReady && error.None? && reported == []
      ensures countdown.None? && timers == 0 && emitted == []
    {
      mounted, settled, stream, stopped := true, false, None, {};
      attached, isCameraReady, error, reported := false, false, None, [];
      countdown, timers, emitted := None, 0, [];
    }

    /** `getUserMedia` resolved with stream `id`: attach it, or stop it if the component is gone. */
    method Acquired(id: nat)
      requires Valid() && !settled
      modifies this`settled, this`stream, this`stopped, this`attached
      ensures Valid() && settled && stream == Some(id)
      ensures attached == old(HasVideo())
      ensures stopped == if old(HasVideo()) then old(stopped) else old(stopped) + {id}
    {
      settled := true;
      stream := Some(id);
      if mounted && HasVideo() {
        attached := true;
      } else {
        stopped := stopped + {id};
      }
    }

    /** `getUserMedia` rejected: while mounted, show and report the classified message. */
    method AcquireFailed(e: CameraException)
      requires Valid() && !settled
      modifies this`settled, this`error, this`reported
      ensures Valid() && settled
      ensures old(mounted) ==> error == Some(Message(Classify(e))) && reported == [Message(Classify(e))]
      ensures !old(mounted) ==> error == old(error) && reported == old(reported)
      ensures old(mounted) ==> !HasVideo() && !CaptureEnabled()
    {
      settled := true;
      if mounted {
        var message := Message(Classify(e));
        error := Some(message);
        reported := reported + [message];
      }
    }

    /** The `loadedmetadata` callback, which exists only on an attached stream. */
    method MetadataLoaded()
      requires Valid() && attached
      modifies this`isCameraReady
      ensures Valid() && isCameraReady
    {
      isCameraReady := true;
    }

    /** The effect's cleanup: `isMounted = false` and stop the stream if there is one. */
    method Unmount()
      requires Valid()
      modifies this`mounted, this`stopped
      ensures Valid() && !mounted
      ensures stopped == if stream.Some? then old(stopped) + {stream.value} else old(stopped)
    {
      mounted := false;
      if stream.Some? {
        stopped := stopped + {stream.value};
      }
    }

    /** `startCountdown`: show 3 and start one more interval. */
    method StartCountdown()
      requires Valid()
      modifies this`countdown, this`timers
      ensures Valid() && countdown == Some(CountdownStart) && timers == old(timers) + 1
    {
      countdown := Some(CountdownStart);
      timers := timers + 1;
    }

    /** `captureImage`: with a video element and a 2D context, emit the mirrored frame. */
    method CaptureImage(frame: Frame, hasContext: bool)
      requires WellFormed(frame)
      modifies this`emitted
      ensures emitted == if HasVideo() && hasContext then old(emitted) + [Mirror(frame)] else old(emitted)
    {
      if HasVideo() && hasContext {
        emitted := emitted + [Mirror(frame)];
      }
    }

    /** One firing of a running interval, with the video's current frame. */
    method Tick(frame: Frame, hasContext: bool)
      requires Valid() && timers > 0 && WellFormed(frame)
      modifies this`countdown, this`timers, this`emitted
      ensures Valid()
      ensures countdown == CountdownTick(old(countdown)).next
      ensures timers == if CountdownTick(old(countdown)).fire then old(timers) - 1 else old(timers)
      ensures emitted == if CountdownTick(old(countdown)).fire && HasVideo() && hasContext
                         then old(emitted) + [Mirror(frame)] else old(emitted)
    {
      var effect := CountdownTick(countdown);
      if effect.fire {
        timers := timers - 1;
        CaptureImage(frame, hasContext);
      }
      countdown := effect.next;
    }
  }

  /** Whether cleanup runs before or after `getUserMedia` resolves, the stream ends up stopped. */
  method StreamReleasedEitherOrder(id: nat, unmountFirst: bool) returns (released: bool)
    ensures released
  {
    var camera := new Camera();
    if unmountFirst {
      camera.Unmount();
      camera.Acquired(id);
    } else {
      camera.Acquired(id);
      camera.Unmount();
    }
    released := id in camera.stopped;
  }

  /** A failed acquisition is reported only when the component is still mounted. */
  method ErrorReportedOnlyWhileMounted(e: CameraException, unmountFirst: bool) returns (reports: seq<string>)
    ensures reports == if unmountFirst then [] else [Message(Classify(e))]
  {
    var camera := new Camera();
    if unmountFirst {
      camera.Unmount();
    }
    camera.AcquireFailed(e);
    reports := camera.reported;
  }

  /** Ready camera, one click: nothing after two ticks, the mirrored frame after the third. */
  method CaptureOnThirdTick(id: nat, frame: Frame) returns (afterTwo: seq<Frame>, afterThree: seq<Frame>)
    requires WellFormed(frame)
    ensures afterTwo == [] && afterThree == [Mirror(frame)]
  {
    var camera := new Camera();
    camera.Acquired(id);
    camera.MetadataLoaded();
    camera.StartCountdown();
    camera.Tick(frame, true);
    camera.Tick(frame, true);
    afterTwo := camera.emitted;
    camera.Tick(frame, true);
    afterThree := camera.emitted;
  }

  /**
   * Clicking the button whenever it is enabled, then letting the timers run
   * out, captures exactly once: the disabled button keeps a second
   * countdown from starting.
   */
  method GuardedClicksCaptureOnce(id: nat, frame: Frame, clicks: nat) returns (captures: nat)
    requires WellFormed(frame) && clicks >= 1
    ensures captures == 1
  {
    var camera := new Camera();
    camera.Acquired(id);
    camera.MetadataLoaded();
    var i := 0;
    while i < clicks
      invariant 0 <= i <= clicks
      invariant camera.Valid() && camera.HasVideo() && camera.isCameraReady
      invariant camera.emitted == []
      invariant i == 0 ==> camera.countdown.None? && camera.timers == 0
      invariant i > 0 ==> camera.countdown == Some(CountdownStart) && camera.timers == 1
    {
      if camera.CaptureEnabled() {
        camera.StartCountdown();
      }
      i := i + 1;
    }
    while camera.timers > 0
      invariant camera.Valid() && camera.HasVideo()
      invariant camera.timers <= 1
      invariant camera.timers == 1 ==> camera.emitted == [] && camera.countdown.Some? &&
                                       1 <= camera.countdown.value <= CountdownStart
      invariant camera.timers == 0 ==> |camera.emitted| == 1
      decreases camera.timers, if camera.countdown.Some? then camera.countdown.value else 0
    {
      camera.Tick(frame, true);
    }
    captures := |camera.emitted|;
  }

  /**
   * A ready camera under any interleaving of clicks on the guarded button
   * (`true`) and interval firings (`false`): never more than one countdown
   * runs, and every countdown started either has captured exactly once or
   * is still running at the end.
   */
  method GuardedScheduleKeepsOneCountdown(id: nat, frame: Frame, schedule: seq<bool>)
    returns (peakTimers: nat, starts: nat, captures: nat, running: bool)
    requires WellFormed(frame)
    ensures peakTimers <= 1
    ensures captures + (if running then 1 else 0) == starts
  {
    var camera := new Camera();
    camera.Acquired(id);
    camera.MetadataLoaded();
    peakTimers, starts := 0, 0;
    var i := 0;
    while i < |schedule|
      invariant 0 <= i <= |schedule|
      invariant camera.Valid() && camera.HasVideo() && camera.isCameraReady
      invariant camera.OneCountdown()
      invariant peakTimers <= 1
      invariant |camera.emitted| + camera.timers == starts
    {
      if schedule[i] {
        if camera.CaptureEnabled() {
          camera.StartCountdown();
          starts := starts + 1;
        }
      } else if camera.timers > 0 {
        camera.Tick(frame, true);
      }
      if camera.timers > peakTimers {
        peakTimers := camera.timers;
      }
      i := i + 1;
    }
    captures := |camera.emitted|;
    running := camera.timers == 1;
  }

  /** Without the button's guard, two clicks start two intervals and capture twice. */
  method UnguardedDoubleClickCapturesTwice(id: nat, frame: Frame) returns (captures: nat)
    requires WellFormed(frame)
    ensures captures == 2
  {
    var camera := new Camera();
    camera.Acquired(id);
    camera.MetadataLoaded();
    camera.StartCountdown();
    camera.StartCountdown();
    camera.Tick(frame, true);
    camera.Tick(frame, true);
    camera.Tick(frame, true);
    camera.Tick(frame, true);
    captures := |camera.emitted|;
  }
}
