/** The confidence-ramp hand input handler (`ARHandInputHandler_og`): per
    inference result it updates a hand-visibility counter, decodes and smooths
    the 21 landmarks, mirrors right hands, compensates for the device
    orientation, and runs a pinch detector whose confidence ramps up and down
    around a dead-zone band, driving the line drawer on pinch edges. */
module LegacyHandInput {
  import opened Vectors
  import opened PinchEvents
  import LineDrawing

  const LandmarkCount: nat := 21
  /** 21 landmarks times 3 coordinates. */
  const TensorLength: nat := 63
  const ThumbTip: nat := 4
  const IndexTip: nat := 8

  const PinchThreshold: real := 0.15
  const PinchHysteresis: real := 0.03
  /** Confidence gained or lost per second. */
  const RampRate: real := 5.0
  /** A pinch is on while the confidence is above this. */
  const PinchOn: real := 0.5

  const HandVisibleFrameThreshold: int := 15
  const HandScoreThreshold: real := 0.35

  /** Weight of the new sample in the temporal landmark filter. */
  const LandmarkSmoothing: real := 0.15
  /** Depth a low-confidence landmark is pulled towards. */
  const TargetDepth: real := 0.3
  /** Viewport depth of the pinch point handed to the line drawer. */
  const PinchViewportDepth: real := 0.5

  datatype DeviceOrientation =
    Unknown | Portrait | PortraitUpsideDown | LandscapeLeft | LandscapeRight | FaceUp | FaceDown

  function Min(a: real, b: real): real { if a <= b then a else b }
  function Max(a: real, b: real): real { if a >= b then a else b }

  // ----- Landmark decoding and smoothing (ExtractLandmarks) -----

  /** `tensor[0, 0, c, i]` of the (1, 1, 3, 21) landmark tensor, read from its flat data. */
  function TensorAt(t: seq<real>, c: nat, i: nat): real
    requires |t| == TensorLength && c < 3 && i < LandmarkCount
  {
    t[c * LandmarkCount + i]
  }

  /** Landmark `i` as decoded, with the Y axis flipped. */
  function RawLandmark(t: seq<real>, i: nat): Vec3
    requires |t| == TensorLength && i < LandmarkCount
  {
    Vec3(TensorAt(t, 0, i), 1.0 - TensorAt(t, 1, i), TensorAt(t, 2, i))
  }

  /** One step of the temporal filter: lerp from the previous landmark towards the new sample. */
  function SmoothLandmark(previous: Vec3, sample: Vec3): Vec3
  {
    Lerp3(previous, sample, LandmarkSmoothing)
  }

  /** The pose returned for a tensor of the wrong length. */
  function DefaultPose(): (f: seq<Vec3>)
    ensures |f| == LandmarkCount
  {
    seq(LandmarkCount, _ => Vec3(0.5, 0.5, 0.0))
  }

  /** The 21 landmarks `ExtractLandmarks` returns. */
  function ExtractedFrame(t: seq<real>, hasPrevious: bool, previous: seq<Vec3>): (f: seq<Vec3>)
    requires |previous| == LandmarkCount
    ensures |f| == LandmarkCount
  {
    if |t| != TensorLength then DefaultPose()
    else if hasPrevious then
      seq(LandmarkCount, i requires 0 <= i < LandmarkCount => SmoothLandmark(previous[i], RawLandmark(t, i)))
    else
      seq(LandmarkCount, i requires 0 <= i < LandmarkCount => RawLandmark(t, i))
  }

  /** The filter keeps 85% of the previous error: the squared distance to the
      new sample shrinks by 0.85², so a constant input stream is a fixed point
      and is approached geometrically. */
  lemma SmoothingContracts(previous: Vec3, sample: Vec3)
    ensures SqrDist3(SmoothLandmark(previous, sample), sample) == 0.7225 * SqrDist3(previous, sample)
    ensures previous == sample ==> SmoothLandmark(previous, sample) == sample
  {
    var s := SmoothLandmark(previous, sample);
    LerpBetween(previous.x, sample.x, LandmarkSmoothing);
    LerpBetween(previous.y, sample.y, LandmarkSmoothing);
    LerpBetween(previous.z, sample.z, LandmarkSmoothing);
    var dx, dy, dz := previous.x - sample.x, previous.y - sample.y, previous.z - sample.z;
    assert s.x - sample.x == dx * 0.85;
    assert s.y - sample.y == dy * 0.85;
    assert s.z - sample.z == dz * 0.85;
    assert (dx * 0.85) * (dx * 0.85) == 0.7225 * (dx * dx);
    assert (dy * 0.85) * (dy * 0.85) == 0.7225 * (dy * dy);
    assert (dz * 0.85) * (dz * 0.85) == 0.7225 * (dz * dz);
  }

  // ----- Handedness and device orientation -----

  function MirrorX(p: Vec3): Vec3
  {
    Vec3(1.0 - p.x, p.y, p.z)
  }

  /** `AdjustForHandType` on one landmark: a right hand (handType > 0.5) is mirrored in x. */
  function Handed(p: Vec3, handType: real): Vec3
  {
    if handType > 0.5 then MirrorX(p) else p
  }

  /** Mirroring keeps y and z, maps x to 1 - x, and undoes itself. */
  lemma HandednessMirrorInvolution(p: Vec3, handType: real)
    ensures Handed(p, handType).y == p.y && Handed(p, handType).z == p.z
    ensures handType > 0.5 ==> Handed(p, handType).x == 1.0 - p.x
    ensures handType <= 0.5 ==> Handed(p, handType) == p
    ensures Handed(Handed(p, handType), handType) == p
  {
  }

  /** `CompensateForDeviceOrientation` on one landmark. */
  function Reorient(p: Vec3, o: DeviceOrientation): Vec3
  {
    match o
    case LandscapeLeft => Vec3(1.0 - p.y, p.x, p.z)
    case LandscapeRight => Vec3(p.y, 1.0 - p.x, p.z)
    case PortraitUpsideDown => Vec3(1.0 - p.x, 1.0 - p.y, p.z)
    case _ => p
  }

  predicate InUnitSquare(p: Vec3)
  {
    0.0 <= p.x <= 1.0 && 0.0 <= p.y <= 1.0
  }

  /** Depth is never touched; portrait and the flat/unknown orientations are
      the identity; upside-down undoes itself; the two landscape remaps undo
      each other; and every remap maps the unit square onto itself. */
  lemma ReorientProperties(p: Vec3, o: DeviceOrientation)
    ensures Reorient(p, o).z == p.z
    ensures !(o.LandscapeLeft? || o.LandscapeRight? || o.PortraitUpsideDown?) ==> Reorient(p, o) == p
    ensures Reorient(Reorient(p, PortraitUpsideDown), PortraitUpsideDown) == p
    ensures Reorient(Reorient(p, LandscapeLeft), LandscapeRight) == p
    ensures Reorient(Reorient(p, LandscapeRight), LandscapeLeft) == p
    ensures InUnitSquare(p) ==> InUnitSquare(Reorient(p, o))
  {
  }

  /** A whole frame after `AdjustForHandType` and `CompensateForDeviceOrientation`. */
  function AdjustedFrame(f: seq<Vec3>, handType: real, o: DeviceOrientation): (g: seq<Vec3>)
    ensures |g| == |f|
  {
    seq(|f|, i requires 0 <= i < |f| => Reorient(Handed(f[i], handType), o))
  }

  // ----- Depth stabilisation -----

  /** `StabilizeDepth`: x and y pass through; the depth is blended from the
      target depth towards the raw depth by half the confidence, clamped. */
  function StabilizeDepth(p: Vec3, confidence: real): (r: Vec3)
    ensures r.x == p.x && r.y == p.y
    ensures TargetDepth <= p.z ==> TargetDepth <= r.z <= p.z
    ensures p.z <= TargetDepth ==> p.z <= r.z <= TargetDepth
    ensures confidence <= 0.0 ==> r.z == TargetDepth
    ensures confidence >= 2.0 ==> r.z == p.z
  {
    var stability := Clamp01(confidence * 0.5);
    LerpBetween(TargetDepth, p.z, stability);
    Vec3(p.x, p.y, Lerp(TargetDepth, p.z, stability))
  }

  // ----- Visibility counter -----

  /** The hand-visibility counter after one inference result with score `score`. */
  function NextVisibleCount(count: int, score: real): int
  {
    if score > HandScoreThreshold then HandVisibleFrameThreshold
    else if count - 1 >= 0 then count - 1 else 0
  }

  /** The counter stays in [0, 15]; a high score refills it, a low one drains
      it by one without going negative; the hand counts as visible after a
      low score exactly when the counter had more than one frame left. */
  lemma VisibleCountBounds(count: int, score: real)
    requires 0 <= count <= HandVisibleFrameThreshold
    ensures 0 <= NextVisibleCount(count, score) <= HandVisibleFrameThreshold
    ensures score > HandScoreThreshold ==> NextVisibleCount(count, score) == HandVisibleFrameThreshold
    ensures score <= HandScoreThreshold ==> NextVisibleCount(count, score) == if count >= 1 then count - 1 else 0
    ensures NextVisibleCount(count, score) > 0 <==> score > HandScoreThreshold || count > 1
  {
  }

  /** The counter after a run of scores, oldest first. */
  function CountAfter(count: int, scores: seq<real>): int
    decreases |scores|
  {
    if scores == [] then count else CountAfter(NextVisibleCount(count, scores[0]), scores[1..])
  }

  /** After a confident frame, the hand stays visible through exactly 14
      further low-score frames: `k` low scores leave max(0, 15 - k). */
  lemma {:induction false} VisibilityOutlastsDropouts(count: int, scores: seq<real>)
    requires 0 <= count
    requires forall i :: 0 <= i < |scores| ==> scores[i] <= HandScoreThreshold
    ensures CountAfter(count, scores) == if count - |scores| >= 0 then count - |scores| else 0
    decreases |scores|
  {
    if scores != [] {
      VisibilityOutlastsDropouts(NextVisibleCount(count, scores[0]), scores[1..]);
    }
  }

  // ----- Pinch confidence -----

  /** The pinch confidence after one frame whose thumb-index squared distance is `sq`. */
  function NextConfidence(confidence: real, sq: real, dt: real): real
  {
    if DistLess(sq, PinchThreshold) then Min(1.0, confidence + dt * RampRate)
    else if DistGreater(sq, PinchThreshold + PinchHysteresis) then Max(0.0, confidence - dt * RampRate)
    else confidence
  }

  /** The confidence never leaves [0, 1]: below the threshold it rises by
      dt·5 (capped at 1), beyond threshold + hysteresis it falls by dt·5
      (floored at 0), and in the band between it is exactly unchanged. */
  lemma ConfidenceStaysInUnitInterval(confidence: real, sq: real, dt: real)
    requires 0.0 <= confidence <= 1.0 && dt >= 0.0
    ensures 0.0 <= NextConfidence(confidence, sq, dt) <= 1.0
    ensures DistLess(sq, PinchThreshold) ==>
      NextConfidence(confidence, sq, dt) == Min(1.0, confidence + dt * RampRate) >= confidence
    ensures DistGreater(sq, PinchThreshold + PinchHysteresis) ==>
      NextConfidence(confidence, sq, dt) == Max(0.0, confidence - dt * RampRate) <= confidence
    ensures !DistLess(sq, PinchThreshold) && !DistGreater(sq, PinchThreshold + PinchHysteresis) ==>
      NextConfidence(confidence, sq, dt) == confidence
  {
  }

  /** One frame of the detector: its squared fingertip distance and `Time.deltaTime`. */
  datatype Sample = Sample(sq: real, dt: real)

  function ConfidenceAfter(confidence: real, samples: seq<Sample>): real
    decreases |samples|
  {
    if samples == [] then confidence
    else ConfidenceAfter(NextConfidence(confidence, samples[0].sq, samples[0].dt), samples[1..])
  }

  /** The summed `Time.deltaTime` of the frames that ran the detector. While an
      image is being processed `Update` skips whole frames, so this sum is
      shorter than the wall-clock time the frames span. */
  function TotalTime(samples: seq<Sample>): real
    decreases |samples|
  {
    if samples == [] then 0.0 else samples[0].dt + TotalTime(samples[1..])
  }

  predicate Timed(samples: seq<Sample>)
  {
    forall i :: 0 <= i < |samples| ==> samples[i].dt >= 0.0
  }

  /** Holding a pinch ramps the confidence linearly in the summed frame
      deltas of the detecting frames, capped at 1. */
  lemma {:induction false} HeldPinchRampsUp(confidence: real, samples: seq<Sample>)
    requires 0.0 <= confidence <= 1.0
    requires Timed(samples)
    requires forall i :: 0 <= i < |samples| ==> DistLess(samples[i].sq, PinchThreshold)
    ensures ConfidenceAfter(confidence, samples) == Min(1.0, confidence + RampRate * TotalTime(samples))
    decreases |samples|
  {
    if samples != [] {
      var next := NextConfidence(confidence, samples[0].sq, samples[0].dt);
      assert next == Min(1.0, confidence + samples[0].dt * RampRate);
      HeldPinchRampsUp(next, samples[1..]);
      assert ConfidenceAfter(confidence, samples) == ConfidenceAfter(next, samples[1..]);
      TotalTimeNonNegative(samples[1..]);
      var a, b := samples[0].dt * RampRate, RampRate * TotalTime(samples[1..]);
      assert a >= 0.0 && b >= 0.0 by { assert samples[0].dt >= 0.0; }
      assert RampRate * TotalTime(samples) == a + b;
      assert Min(1.0, Min(1.0, confidence + a) + b) == Min(1.0, confidence + a + b);
    }
  }

  /** Opening the hand ramps the confidence down linearly in the summed frame
      deltas of the detecting frames, floored at 0. */
  lemma {:induction false} ReleasedPinchRampsDown(confidence: real, samples: seq<Sample>)
    requires 0.0 <= confidence <= 1.0
    requires Timed(samples)
    requires forall i :: 0 <= i < |samples| ==> DistGreater(samples[i].sq, PinchThreshold + PinchHysteresis)
    ensures ConfidenceAfter(confidence, samples) == Max(0.0, confidence - RampRate * TotalTime(samples))
    decreases |samples|
  {
    if samples != [] {
      var next := NextConfidence(confidence, samples[0].sq, samples[0].dt);
      assert next == Max(0.0, confidence - samples[0].dt * RampRate);
      ReleasedPinchRampsDown(next, samples[1..]);
      assert ConfidenceAfter(confidence, samples) == ConfidenceAfter(next, samples[1..]);
      TotalTimeNonNegative(samples[1..]);
      var a, b := samples[0].dt * RampRate, RampRate * TotalTime(samples[1..]);
      assert a >= 0.0 && b >= 0.0 by { assert samples[0].dt >= 0.0; }
      assert RampRate * TotalTime(samples) == a + b;
      assert Max(0.0, Max(0.0, confidence - a) - b) == Max(0.0, confidence - a - b);
    }
  }

  /** However long the fingertips hover in the dead band, the confidence — and
      so the pinch state — does not move: there is no chatter at the boundary. */
  lemma {:induction false} DeadBandHoldsConfidence(confidence: real, samples: seq<Sample>)
    requires forall i :: 0 <= i < |samples| ==>
      !DistLess(samples[i].sq, PinchThreshold) && !DistGreater(samples[i].sq, PinchThreshold + PinchHysteresis)
    ensures ConfidenceAfter(confidence, samples) == confidence
    decreases |samples|
  {
    if samples != [] {
      DeadBandHoldsConfidence(confidence, samples[1..]);
    }
  }

  lemma {:induction false} TotalTimeNonNegative(samples: seq<Sample>)
    requires Timed(samples)
    ensures TotalTime(samples) >= 0.0
    decreases |samples|
  {
    if samples != [] {
      TotalTimeNonNegative(samples[1..]);
    }
  }

  /** From a released detector (confidence 0), a held pinch turns on exactly
      once the summed frame deltas of the detecting frames exceed 0.1. */
  lemma PinchStartsAfterATenthOfASecond(samples: seq<Sample>)
    requires Timed(samples)
    requires forall i :: 0 <= i < |samples| ==> DistLess(samples[i].sq, PinchThreshold)
    ensures ConfidenceAfter(0.0, samples) > PinchOn <==> TotalTime(samples) > 0.1
  {
    HeldPinchRampsUp(0.0, samples);
  }

  /** `GetWorldPinchPosition`: the pinch point projected at viewport depth 0.5. */
  function WorldPinchPosition(pinch: Vec3, viewportToWorld: Vec3 -> Vec3): Vec3
  {
    viewportToWorld(Vec3(pinch.x, pinch.y, PinchViewportDepth))
  }

  // ----- ReshapeAndExtractLandmarks -----

  /** The landmarks `ReshapeAndExtractLandmarks` reads from a flat tensor of any length. */
  function ReshapedFrame(t: seq<real>): (f: seq<Vec3>)
    ensures |f| == LandmarkCount
  {
    if |t| == 63 then
      seq(LandmarkCount, i requires 0 <= i < LandmarkCount => Vec3(t[i * 3], t[i * 3 + 1], t[i * 3 + 2]))
    else if |t| == 42 then
      seq(LandmarkCount, i requires 0 <= i < LandmarkCount => Vec3(t[i * 2], t[i * 2 + 1], 0.0))
    else if 21 <= |t| < 63 then
      seq(LandmarkCount, i requires 0 <= i < LandmarkCount => Vec3(t[i] / 224.0, 0.5, 0.0))
    else
      seq(LandmarkCount, _ => Zero3)
  }

  function Coordinate(p: Vec3, c: nat): real
    requires c < 3
  {
    if c == 0 then p.x else if c == 1 then p.y else p.z
  }

  /** Landmarks written back out point by point, `width` coordinates each. */
  function Flattened(f: seq<Vec3>, width: nat): (t: seq<real>)
    requires 0 < width <= 3
    ensures |t| == width * |f|
  {
    seq(width * |f|, k requires 0 <= k < width * |f| => Coordinate(f[k / width], k % width))
  }

  /** The two point-by-point layouts are read without loss: flattening the
      reshaped frame gives the tensor back, and the x,y layout gets depth 0. */
  lemma ReshapeLosesNothing(t: seq<real>)
    ensures |t| == 63 ==> Flattened(ReshapedFrame(t), 3) == t
    ensures |t| == 42 ==> Flattened(ReshapedFrame(t), 2) == t
    ensures |t| == 42 ==> forall i :: 0 <= i < LandmarkCount ==> ReshapedFrame(t)[i].z == 0.0
  {
    var f := ReshapedFrame(t);
    if |t| == 63 {
      forall k | 0 <= k < 63
        ensures Flattened(f, 3)[k] == t[k]
      {
        var i, c := k / 3, k % 3;
        assert k == i * 3 + c;
        assert f[i] == Vec3(t[i * 3], t[i * 3 + 1], t[i * 3 + 2]);
      }
    } else if |t| == 42 {
      forall k | 0 <= k < 42
        ensures Flattened(f, 2)[k] == t[k]
      {
        var i, c := k / 2, k % 2;
        assert k == i * 2 + c;
        assert f[i] == Vec3(t[i * 2], t[i * 2 + 1], 0.0);
      }
    }
  }

  class ARHandInputHandlerOg {
    const drawingController: LineDrawing.ArDrawLine?
    var isPinching: bool
    var pinchPosition: Vec3
    var handVisibleFrameCount: int
    var previousLandmarks: seq<Vec3>
    var hasPreviousLandmarks: bool
    var currentHandScore: real
    var pinchConfidence: real

    /** The pinch state is the confidence seen through its 0.5 threshold, and
        a pinch only stands open on a drawer that holds a line. */
    ghost predicate Valid()
      reads this, drawingController
    {
      |previousLandmarks| == LandmarkCount &&
      0.0 <= pinchConfidence <= 1.0 &&
      isPinching == (pinchConfidence > PinchOn) &&
      0 <= handVisibleFrameCount <= HandVisibleFrameThreshold &&
      (drawingController != null ==>
        drawingController.Valid() && (isPinching ==> drawingController.hasRenderer))
    }

    /** The field initialisers. */
    constructor (drawer: LineDrawing.ArDrawLine?)
      requires drawer != null ==> drawer.Valid()
      ensures Valid() && drawingController == drawer
      ensures !isPinching && pinchConfidence == 0.0 && handVisibleFrameCount == 0
      ensures !hasPreviousLandmarks && previousLandmarks == seq(LandmarkCount, _ => Zero3)
    {
      drawingController := drawer;
      isPinching := false;
      pinchPosition := Zero3;
      handVisibleFrameCount := 0;
      previousLandmarks := seq(LandmarkCount, _ => Zero3);
      hasPreviousLandmarks := false;
      currentHandScore := 0.0;
      pinchConfidence := 0.0;
    }

    /** `ExtractLandmarks`: decode, flip and smooth a 63-value tensor and
        remember the result; any other length yields the default pose and
        leaves the smoothing history alone. */
    method ExtractLandmarks(tensor: seq<real>) returns (landmarks: array<Vec3>)
      requires Valid()
      modifies this
      ensures Valid() && fresh(landmarks)
      ensures landmarks[..] == ExtractedFrame(tensor, old(hasPreviousLandmarks), old(previousLandmarks))
      ensures |tensor| == TensorLength ==> previousLandmarks == landmarks[..] && hasPreviousLandmarks
      ensures |tensor| != TensorLength ==>
        previousLandmarks == old(previousLandmarks) && hasPreviousLandmarks == old(hasPreviousLandmarks)
      ensures isPinching == old(isPinching) && pinchConfidence == old(pinchConfidence)
      ensures pinchPosition == old(pinchPosition) && handVisibleFrameCount == old(handVisibleFrameCount)
      ensures currentHandScore == old(currentHandScore)
    {
      landmarks := new Vec3[LandmarkCount](_ => Zero3);
      if |tensor| == TensorLength {
        var i := 0;
        while i < LandmarkCount
          invariant 0 <= i <= LandmarkCount
          invariant forall k :: 0 <= k < i ==> landmarks[k] == RawLandmark(tensor, k)
          modifies landmarks
        {
          var x, y, z := tensor[i], tensor[LandmarkCount + i], tensor[2 * LandmarkCount + i];
          landmarks[i] := Vec3(x, 1.0 - y, z);
          i := i + 1;
        }
        if hasPreviousLandmarks {
          i := 0;
          while i < LandmarkCount
            invariant 0 <= i <= LandmarkCount
            invariant forall k :: 0 <= k < i ==> landmarks[k] == SmoothLandmark(previousLandmarks[k], RawLandmark(tensor, k))
            invariant forall k :: i <= k < LandmarkCount ==> landmarks[k] == RawLandmark(tensor, k)
            modifies landmarks
          {
            landmarks[i] := Lerp3(previousLandmarks[i], landmarks[i], LandmarkSmoothing);
            i := i + 1;
          }
        }
        previousLandmarks := landmarks[..];
        hasPreviousLandmarks := true;
      } else {
        var i := 0;
        while i < LandmarkCount
          invariant 0 <= i <= LandmarkCount
          invariant forall k :: 0 <= k < i ==> landmarks[k] == Vec3(0.5, 0.5, 0.0)
          modifies landmarks
        {
          landmarks[i] := Vec3(0.5, 0.5, 0.0);
          i := i + 1;
        }
      }
    }

    /** `AdjustForHandType`, in place. */
    method AdjustForHandType(landmarks: array<Vec3>, handType: real)
      modifies landmarks
      ensures landmarks[..] == seq(landmarks.Length, i requires 0 <= i < landmarks.Length => Handed(old(landmarks[i]), handType))
    {
      if handType > 0.5 {
        var i := 0;
        while i < landmarks.Length
          invariant 0 <= i <= landmarks.Length
          invariant forall k :: 0 <= k < i ==> landmarks[k] == MirrorX(old(landmarks[k]))
          invariant forall k :: i <= k < landmarks.Length ==> landmarks[k] == old(landmarks[k])
        {
          landmarks[i] := Vec3(1.0 - landmarks[i].x, landmarks[i].y, landmarks[i].z);
          i := i + 1;
        }
      }
    }

    /** `CompensateForDeviceOrientation`, in place. */
    method CompensateForDeviceOrientation(landmarks: array<Vec3>, orientation: DeviceOrientation)
      modifies landmarks
      ensures landmarks[..] == seq(landmarks.Length, i requires 0 <= i < landmarks.Length => Reorient(old(landmarks[i]), orientation))
    {
      if orientation.LandscapeLeft? || orientation.LandscapeRight? || orientation.PortraitUpsideDown? {
        var i := 0;
        while i < landmarks.Length
          invariant 0 <= i <= landmarks.Length
          invariant forall k :: 0 <= k < i ==> landmarks[k] == Reorient(old(landmarks[k]), orientation)
          invariant forall k :: i <= k < landmarks.Length ==> landmarks[k] == old(landmarks[k])
        {
          landmarks[i] := Reorient(landmarks[i], orientation);
          i := i + 1;
        }
      }
    }

    /** `DetectGesture`: ramp the confidence from the thumb-index distance,
        read the pinch state through the 0.5 threshold, and on a rising edge
        start, while held update, and on a falling edge stop the drawer's line
        (only when there is a drawer). */
    method DetectGesture(landmarks: array<Vec3>, dt: real, viewportToWorld: Vec3 -> Vec3, lineCam: CameraPose)
      returns (call: PinchCall)
      requires Valid() && landmarks.Length > IndexTip && dt >= 0.0
      modifies this, drawingController
      ensures Valid()
      ensures pinchConfidence == NextConfidence(old(pinchConfidence), SqrDist3(landmarks[ThumbTip], landmarks[IndexTip]), dt)
      ensures isPinching == (pinchConfidence > PinchOn)
      ensures call == if drawingController == null then NoCall
        else Dispatch(old(isPinching), isPinching,
          WorldPinchPosition(Midpoint3(landmarks[ThumbTip], landmarks[IndexTip]), viewportToWorld))
      ensures drawingController != null ==> StepAgrees(old(isPinching), isPinching, call)
      ensures pinchPosition ==
        if call.StartCall? || call.UpdateCall? then Midpoint3(landmarks[ThumbTip], landmarks[IndexTip]) else old(pinchPosition)
      ensures drawingController != null && (call.StartCall? || call.UpdateCall?) ==> drawingController.spawnPos == call.at
      ensures drawingController != null && call.StartCall? ==>
        drawingController.list == [LineDrawing.SpawnPosition(call.at, lineCam)] && drawingController.CentreConsistent() &&
        drawingController.linesCreated == old(drawingController.linesCreated) + 1 &&
        drawingController.draw == old(drawingController.draw) && drawingController.drawModeText == old(drawingController.drawModeText)
      ensures drawingController != null && call.UpdateCall? ==>
        drawingController.list == LineDrawing.CentreExtend(old(drawingController.list), LineDrawing.SpawnPosition(call.at, lineCam)) &&
        (old(drawingController.list == [] || drawingController.CentreConsistent()) ==> drawingController.CentreConsistent()) &&
        drawingController.linesCreated == old(drawingController.linesCreated) &&
        drawingController.draw == old(drawingController.draw) && drawingController.drawModeText == old(drawingController.drawModeText)
      ensures drawingController != null && (call.StopCall? || call.NoCall?) ==> unchanged(drawingController)
      ensures previousLandmarks == old(previousLandmarks) && hasPreviousLandmarks == old(hasPreviousLandmarks)
      ensures handVisibleFrameCount == old(handVisibleFrameCount) && currentHandScore == old(currentHandScore)
    {
      var thumbTip := landmarks[ThumbTip];
      var indexTip := landmarks[IndexTip];
      var pinchDist := SqrDist3(thumbTip, indexTip);
      ConfidenceStaysInUnitInterval(pinchConfidence, pinchDist, dt);
      if DistLess(pinchDist, PinchThreshold) {
        pinchConfidence := Min(1.0, pinchConfidence + dt * RampRate);
      } else if DistGreater(pinchDist, PinchThreshold + PinchHysteresis) {
        pinchConfidence := Max(0.0, pinchConfidence - dt * RampRate);
      }
      var currentPinch := pinchConfidence > PinchOn;
      var at := WorldPinchPosition(Midpoint3(thumbTip, indexTip), viewportToWorld);
      call := NoCall;
      if currentPinch && !isPinching {
        if drawingController != null {
          pinchPosition := Midpoint3(thumbTip, indexTip);
          drawingController.StartPinchDrawing(WorldPinchPosition(pinchPosition, viewportToWorld), lineCam);
          call := StartCall(at);
        }
      } else if currentPinch && isPinching {
        if drawingController != null {
          pinchPosition := Midpoint3(thumbTip, indexTip);
          drawingController.UpdatePinchDrawing(WorldPinchPosition(pinchPosition, viewportToWorld), lineCam);
          call := UpdateCall(at);
        }
      } else if !currentPinch && isPinching {
        if drawingController != null {
          drawingController.StopPinchDrawing();
          call := StopCall;
        }
      }
      isPinching := currentPinch;
    }

    /** The visible-hand branch of `ProcessCameraImage`: extract, mirror and
        reorient the landmarks, then run the gesture detector on them. */
    method TrackVisibleHand(tensor: seq<real>, handType: real, orientation: DeviceOrientation, dt: real,
                            viewportToWorld: Vec3 -> Vec3, lineCam: CameraPose)
      returns (call: PinchCall)
      requires Valid() && dt >= 0.0
      modifies this, drawingController
      ensures Valid()
      ensures var f := AdjustedFrame(ExtractedFrame(tensor, old(hasPreviousLandmarks), old(previousLandmarks)), handType, orientation);
        pinchConfidence == NextConfidence(old(pinchConfidence), SqrDist3(f[ThumbTip], f[IndexTip]), dt) &&
        call == (if drawingController == null then NoCall
          else Dispatch(old(isPinching), isPinching,
            WorldPinchPosition(Midpoint3(f[ThumbTip], f[IndexTip]), viewportToWorld))) &&
        pinchPosition == (if call.StartCall? || call.UpdateCall? then Midpoint3(f[ThumbTip], f[IndexTip]) else old(pinchPosition))
      // the next frame smooths against the extracted (not the mirrored or reoriented) landmarks
      ensures |tensor| == TensorLength ==>
        previousLandmarks == ExtractedFrame(tensor, old(hasPreviousLandmarks), old(previousLandmarks)) && hasPreviousLandmarks
      ensures |tensor| != TensorLength ==>
        previousLandmarks == old(previousLandmarks) && hasPreviousLandmarks == old(hasPreviousLandmarks)
      ensures drawingController != null && (call.StartCall? || call.UpdateCall?) ==> drawingController.spawnPos == call.at
      ensures drawingController != null && call.StartCall? ==>
        drawingController.list == [LineDrawing.SpawnPosition(call.at, lineCam)] && drawingController.CentreConsistent() &&
        drawingController.linesCreated == old(drawingController.linesCreated) + 1 &&
        drawingController.draw == old(drawingController.draw) && drawingController.drawModeText == old(drawingController.drawModeText)
      ensures drawingController != null && call.UpdateCall? ==>
        drawingController.list == LineDrawing.CentreExtend(old(drawingController.list), LineDrawing.SpawnPosition(call.at, lineCam)) &&
        (old(drawingController.list == [] || drawingController.CentreConsistent()) ==> drawingController.CentreConsistent()) &&
        drawingController.linesCreated == old(drawingController.linesCreated) &&
        drawingController.draw == old(drawingController.draw) && drawingController.drawModeText == old(drawingController.drawModeText)
      ensures drawingController != null && (call.StopCall? || call.NoCall?) ==> unchanged(drawingController)
      ensures handVisibleFrameCount == old(handVisibleFrameCount) && currentHandScore == old(currentHandScore)
    {
      var landmarks := ExtractLandmarks(tensor);
      ghost var extracted := landmarks[..];
      AdjustForHandType(landmarks, handType);
      ghost var handed := landmarks[..];
      CompensateForDeviceOrientation(landmarks, orientation);
      assert landmarks[..] == AdjustedFrame(extracted, handType, orientation) by {
        forall i | 0 <= i < LandmarkCount
          ensures landmarks[..][i] == AdjustedFrame(extracted, handType, orientation)[i]
        {
          assert handed[i] == Handed(extracted[i], handType);
        }
      }
      call := DetectGesture(landmarks, dt, viewportToWorld, lineCam);
    }

    /** The part of `ProcessCameraImage` after inference: the visibility counter,
        then, only while the hand counts as visible, the landmark pipeline and
        the gesture detector. While the hand is not visible nothing else moves:
        an open pinch stays open. */
    method ProcessInference(normalizedScore: real, tensor: seq<real>, handType: real,
                            orientation: DeviceOrientation, dt: real,
                            viewportToWorld: Vec3 -> Vec3, lineCam: CameraPose)
      returns (handVisible: bool, call: PinchCall)
      requires Valid() && dt >= 0.0
      modifies this, drawingController
      ensures Valid()
      ensures currentHandScore == normalizedScore
      ensures handVisibleFrameCount == NextVisibleCount(old(handVisibleFrameCount), normalizedScore)
      ensures handVisible == (handVisibleFrameCount > 0)
      ensures !handVisible ==>
        call == NoCall && isPinching == old(isPinching) && pinchConfidence == old(pinchConfidence) &&
        previousLandmarks == old(previousLandmarks) && hasPreviousLandmarks == old(hasPreviousLandmarks) &&
        (drawingController != null ==> unchanged(drawingController))
      ensures handVisible ==>
        var f := AdjustedFrame(ExtractedFrame(tensor, old(hasPreviousLandmarks), old(previousLandmarks)), handType, orientation);
        pinchConfidence == NextConfidence(old(pinchConfidence), SqrDist3(f[ThumbTip], f[IndexTip]), dt) &&
        call == (if drawingController == null then NoCall
          else Dispatch(old(isPinching), isPinching,
            WorldPinchPosition(Midpoint3(f[ThumbTip], f[IndexTip]), viewportToWorld))) &&
        pinchPosition == (if call.StartCall? || call.UpdateCall? then Midpoint3(f[ThumbTip], f[IndexTip]) else old(pinchPosition))
      ensures !handVisible ==> pinchPosition == old(pinchPosition)
      ensures handVisible && |tensor| == TensorLength ==>
        previousLandmarks == ExtractedFrame(tensor, old(hasPreviousLandmarks), old(previousLandmarks)) && hasPreviousLandmarks
      ensures handVisible && |tensor| != TensorLength ==>
        previousLandmarks == old(previousLandmarks) && hasPreviousLandmarks == old(hasPreviousLandmarks)
      ensures handVisible && drawingController != null && (call.StartCall? || call.UpdateCall?) ==> drawingController.spawnPos == call.at
      ensures handVisible && drawingController != null && call.StartCall? ==>
        drawingController.list == [LineDrawing.SpawnPosition(call.at, lineCam)] && drawingController.CentreConsistent() &&
        drawingController.linesCreated == old(drawingController.linesCreated) + 1 &&
        drawingController.draw == old(drawingController.draw) && drawingController.drawModeText == old(drawingController.drawModeText)
      ensures handVisible && drawingController != null && call.UpdateCall? ==>
        drawingController.list == LineDrawing.CentreExtend(old(drawingController.list), LineDrawing.SpawnPosition(call.at, lineCam)) &&
        (old(drawingController.list == [] || drawingController.CentreConsistent()) ==> drawingController.CentreConsistent()) &&
        drawingController.linesCreated == old(drawingController.linesCreated) &&
        drawingController.draw == old(drawingController.draw) && drawingController.drawModeText == old(drawingController.drawModeText)
      ensures handVisible && drawingController != null && (call.StopCall? || call.NoCall?) ==> unchanged(drawingController)
    {
      currentHandScore := normalizedScore;
      if normalizedScore > HandScoreThreshold {
        handVisibleFrameCount := HandVisibleFrameThreshold;
      } else {
        handVisibleFrameCount := if handVisibleFrameCount - 1 >= 0 then handVisibleFrameCount - 1 else 0;
      }
      handVisible := handVisibleFrameCount > 0;
      call := NoCall;
      if handVisible {
        call := TrackVisibleHand(tensor, handType, orientation, dt, viewportToWorld, lineCam);
      }
    }

    /** `ReshapeAndExtractLandmarks`: read landmarks from a flat tensor laid out
        landmark by landmark, whatever its length. */
    method ReshapeAndExtractLandmarks(tensor: seq<real>) returns (landmarks: array<Vec3>)
      ensures fresh(landmarks) && landmarks.Length == LandmarkCount
      ensures landmarks[..] == ReshapedFrame(tensor)
    {
      landmarks := new Vec3[LandmarkCount](_ => Zero3);
      if |tensor| == 63 {
        for i := 0 to LandmarkCount
          invariant forall k :: 0 <= k < i ==> landmarks[k] == ReshapedFrame(tensor)[k]
          invariant forall k :: i <= k < LandmarkCount ==> landmarks[k] == Zero3
        {
          landmarks[i] := Vec3(tensor[i * 3], tensor[i * 3 + 1], tensor[i * 3 + 2]);
        }
      } else if |tensor| == 42 {
        for i := 0 to LandmarkCount
          invariant forall k :: 0 <= k < i ==> landmarks[k] == ReshapedFrame(tensor)[k]
          invariant forall k :: i <= k < LandmarkCount ==> landmarks[k] == Zero3
        {
          landmarks[i] := Vec3(tensor[i * 2], tensor[i * 2 + 1], 0.0);
        }
      } else if |tensor| >= 21 && |tensor| < 63 {
        for i := 0 to LandmarkCount
          invariant forall k :: 0 <= k < i ==> landmarks[k] == ReshapedFrame(tensor)[k]
          invariant forall k :: i <= k < LandmarkCount ==> landmarks[k] == Zero3
        {
          landmarks[i] := Vec3(tensor[i] / 224.0, 0.5, 0.0);
        }
      }
    }
  }
}
