/** The standalone screen drawer (`StandaloneMediaPipeDrawing`): a pinch of
    the first tracked hand, while drawing mode is on, draws a stroke of
    smoothed screen positions; the release threshold widens while drawing. */
module MediaPipeDrawing {
  import opened Vectors
  import opened PinchEvents
  import opened ScreenStrokes

  const LandmarkCount: nat := 21
  const ThumbTip: nat := 4
  const IndexTip: nat := 8

  /** `ConvertToScreenSpace`: normalised image coordinates to pixels, y flipped. */
  function ConvertToScreenSpace(p: Vec3, width: real, height: real): Vec2
  {
    Vec2(p.x * width, (1.0 - p.y) * height)
  }

  /** Pixels back to normalised image coordinates. */
  function NormalisedFromScreen(s: Vec2, width: real, height: real): Vec2
    requires width != 0.0 && height != 0.0
  {
    Vec2(s.x / width, 1.0 - s.y / height)
  }

  /** On a non-degenerate screen the conversion loses only depth, and it maps
      the unit square of normalised coordinates onto the screen rectangle. */
  lemma ScreenSpaceRoundTrip(p: Vec3, width: real, height: real)
    requires width > 0.0 && height > 0.0
    ensures NormalisedFromScreen(ConvertToScreenSpace(p, width, height), width, height) == Vec2(p.x, p.y)
    ensures 0.0 <= p.x <= 1.0 && 0.0 <= p.y <= 1.0 ==>
      0.0 <= ConvertToScreenSpace(p, width, height).x <= width &&
      0.0 <= ConvertToScreenSpace(p, width, height).y <= height
  {
    var s := ConvertToScreenSpace(p, width, height);
    assert s.x / width == p.x;
    var q := 1.0 - p.y;
    assert s.y == q * height;
    assert (q * height) / height == q;
    if 0.0 <= p.x <= 1.0 && 0.0 <= p.y <= 1.0 {
      MulNonNeg(p.x, width);
      MulNonNeg(1.0 - p.x, width);
      MulNonNeg(1.0 - p.y, height);
      MulNonNeg(p.y, height);
    }
  }

  /** The smoothed screen position: a zero position (the reset value) takes
      the sample as it is, otherwise it moves toward the sample by
      `1 - smoothing`. */
  function SmoothScreen(previous: Vec2, sample: Vec2, smoothing: real): Vec2
  {
    if ApproxZero2(previous) then sample else Lerp2(previous, sample, 1.0 - smoothing)
  }

  /** With `smoothing` in [0,1], smoothing keeps the fraction `smoothing` of
      the gap to the sample; in particular a stale non-zero position left by a
      lost hand drags the first point of the next stroke away from the sample. */
  lemma SmoothScreenKeepsFraction(previous: Vec2, sample: Vec2, smoothing: real)
    requires 0.0 <= smoothing <= 1.0
    ensures ApproxZero2(previous) ==> SmoothScreen(previous, sample, smoothing) == sample
    ensures !ApproxZero2(previous) ==>
      SmoothScreen(previous, sample, smoothing).x - sample.x == (previous.x - sample.x) * smoothing &&
      SmoothScreen(previous, sample, smoothing).y - sample.y == (previous.y - sample.y) * smoothing
    ensures !ApproxZero2(previous) && smoothing > 0.0 && previous != sample ==>
      SmoothScreen(previous, sample, smoothing) != sample
  {
    if !ApproxZero2(previous) {
      Lerp2Residual(previous, sample, smoothing);
      if smoothing > 0.0 && previous != sample {
        if previous.x != sample.x {
          assert (previous.x - sample.x) * smoothing != 0.0;
        } else {
          assert (previous.y - sample.y) * smoothing != 0.0;
        }
      }
    }
  }

  /** The first hand holds all 21 landmarks. */
  predicate HandPresent(hands: Option<seq<seq<Vec3>>>)
  {
    hands.Some? && |hands.value| > 0 && |hands.value[0]| >= LandmarkCount
  }

  class StandaloneMediaPipeDrawing {
    const pinchThreshold: real
    const pinchHysteresis: real
    const positionSmoothing: real
    const minPointDistance: real
    const depthOffset: real
    /** Whether `linePrefab` carries a LineRenderer. */
    const prefabHasRenderer: bool

    /** `currentLine != null` */
    var hasLine: bool
    /** The positions of `currentLine`; its `positionCount` is their number. */
    var positions: seq<Vec3>
    var points: seq<Vec2>
    var isDrawing: bool
    var drawingEnabled: bool
    var handVisible: bool
    var hasPreviousPinch: bool
    var pinchPosition: Vec3
    var smoothedScreenPosition: Vec2
    /** The instantiated line objects, by the number they were spawned under. */
    var createdLines: seq<nat>
    var linesSpawned: nat

    /** The current renderer shows one position per point. */
    ghost predicate RendererInStep()
      reads this
    {
      hasLine ==> |positions| == |points|
    }

    /** A stroke only stands open on a renderer, in drawing mode, after a pinch. */
    ghost predicate Valid()
      reads this
    {
      RendererInStep() && (isDrawing ==> hasLine && drawingEnabled && hasPreviousPinch)
    }

    /** The field initialisers followed by `Start` (drawing disabled). */
    constructor (pinchThreshold: real, pinchHysteresis: real, positionSmoothing: real,
                 minPointDistance: real, depthOffset: real, prefabHasRenderer: bool)
      ensures Valid()
      ensures this.pinchThreshold == pinchThreshold && this.pinchHysteresis == pinchHysteresis
      ensures this.positionSmoothing == positionSmoothing && this.minPointDistance == minPointDistance
      ensures this.depthOffset == depthOffset && this.prefabHasRenderer == prefabHasRenderer
      ensures !hasLine && points == [] && createdLines == [] && linesSpawned == 0
      ensures !isDrawing && !drawingEnabled && !handVisible && !hasPreviousPinch
      ensures smoothedScreenPosition == Zero2
    {
      this.pinchThreshold := pinchThreshold;
      this.pinchHysteresis := pinchHysteresis;
      this.positionSmoothing := positionSmoothing;
      this.minPointDistance := minPointDistance;
      this.depthOffset := depthOffset;
      this.prefabHasRenderer := prefabHasRenderer;
      hasLine := false;
      positions := [];
      points := [];
      isDrawing := false;
      drawingEnabled := false;
      handVisible := false;
      hasPreviousPinch := false;
      pinchPosition := Zero3;
      smoothedScreenPosition := Zero2;
      createdLines := [];
      linesSpawned := 0;
    }

    /** `ToggleDrawingMode`: flips drawing mode; switching it off mid-stroke
        ends the stroke and resets the pinch history and the smoothing. */
    method ToggleDrawingMode()
      requires Valid()
      modifies this
      ensures Valid()
      ensures drawingEnabled == !old(drawingEnabled)
      ensures old(isDrawing) ==> !isDrawing && !hasPreviousPinch && smoothedScreenPosition == Zero2
      ensures !old(isDrawing) ==>
        !isDrawing && hasPreviousPinch == old(hasPreviousPinch) && smoothedScreenPosition == old(smoothedScreenPosition)
      ensures points == old(points) && positions == old(positions) && hasLine == old(hasLine)
      ensures createdLines == old(createdLines) && linesSpawned == old(linesSpawned)
      ensures handVisible == old(handVisible) && pinchPosition == old(pinchPosition)
    {
      drawingEnabled := !drawingEnabled;
      if !drawingEnabled && isDrawing {
        StopLine();
        isDrawing := false;
        hasPreviousPinch := false;
        smoothedScreenPosition := Zero2;
      }
    }

    /** `StopLine` only ends the stroke; its points and renderer stay. */
    method StopLine()
      modifies this
      ensures !isDrawing
      ensures points == old(points) && positions == old(positions) && hasLine == old(hasLine)
      ensures drawingEnabled == old(drawingEnabled) && handVisible == old(handVisible)
      ensures hasPreviousPinch == old(hasPreviousPinch) && smoothedScreenPosition == old(smoothedScreenPosition)
      ensures pinchPosition == old(pinchPosition)
      ensures createdLines == old(createdLines) && linesSpawned == old(linesSpawned)
    {
      isDrawing := false;
    }

    /** `AddPoint`: append the point, then rewrite every renderer position from
        the points, unprojected by the current camera at near plane + offset. */
    method AddPoint(screenPosition: Vec2, screenToWorld: Vec3 -> Vec3, nearClip: real)
      requires hasLine
      modifies this
      ensures points == old(points) + [screenPosition]
      ensures positions == Unprojected(points, screenToWorld, nearClip + depthOffset)
      ensures hasLine && isDrawing == old(isDrawing) && drawingEnabled == old(drawingEnabled)
      ensures handVisible == old(handVisible) && hasPreviousPinch == old(hasPreviousPinch)
      ensures smoothedScreenPosition == old(smoothedScreenPosition) && pinchPosition == old(pinchPosition)
      ensures createdLines == old(createdLines) && linesSpawned == old(linesSpawned)
    {
      points := points + [screenPosition];
      var depth := nearClip + depthOffset;
      var ps := Resized(positions, |points|);
      for i := 0 to |points|
        invariant |ps| == |points|
        invariant forall j :: 0 <= j < i ==> ps[j] == screenToWorld(Vec3(points[j].x, points[j].y, depth))
      {
        ps := ps[i := screenToWorld(Vec3(points[i].x, points[i].y, depth))];
      }
      forall j | 0 <= j < |points|
        ensures ps[j] == Unprojected(points, screenToWorld, depth)[j]
      {
        UnprojectedAt(points, screenToWorld, depth, j);
      }
      positions := ps;
    }

    /** `StartLine`: spawn a line object and record it; with a renderer, start
        a fresh stroke holding just this point. Without one the method gives
        up before clearing the points or entering the drawing state. */
    method StartLine(screenPosition: Vec2, screenToWorld: Vec3 -> Vec3, nearClip: real)
      requires RendererInStep()
      modifies this
      ensures RendererInStep()
      ensures createdLines == old(createdLines) + [old(linesSpawned)] && linesSpawned == old(linesSpawned) + 1
      ensures hasLine == prefabHasRenderer
      ensures prefabHasRenderer ==>
        isDrawing && points == [screenPosition] &&
        positions == Unprojected(points, screenToWorld, nearClip + depthOffset)
      ensures !prefabHasRenderer ==> isDrawing == old(isDrawing) && points == old(points) && positions == old(positions)
      ensures drawingEnabled == old(drawingEnabled) && handVisible == old(handVisible)
      ensures hasPreviousPinch == old(hasPreviousPinch) && smoothedScreenPosition == old(smoothedScreenPosition)
      ensures pinchPosition == old(pinchPosition)
    {
      createdLines := createdLines + [linesSpawned];
      linesSpawned := linesSpawned + 1;
      hasLine := prefabHasRenderer;
      if !hasLine {
        return;
      }
      positions := [];
      points := [];
      AddPoint(screenPosition, screenToWorld, nearClip);
      isDrawing := true;
    }

    /** `UpdateLine`: extend the stroke when the point is far enough from its end. */
    method UpdateLine(screenPosition: Vec2, screenToWorld: Vec3 -> Vec3, nearClip: real)
      requires hasLine && RendererInStep()
      modifies this
      ensures RendererInStep() && hasLine
      ensures points == AppendIfFar(old(points), screenPosition, minPointDistance)
      ensures positions ==
        if |points| > |old(points)| then Unprojected(points, screenToWorld, nearClip + depthOffset) else old(positions)
      ensures isDrawing == old(isDrawing) && drawingEnabled == old(drawingEnabled)
      ensures handVisible == old(handVisible) && hasPreviousPinch == old(hasPreviousPinch)
      ensures smoothedScreenPosition == old(smoothedScreenPosition) && pinchPosition == old(pinchPosition)
      ensures createdLines == old(createdLines) && linesSpawned == old(linesSpawned)
    {
      if |points| == 0 || DistGreater(SqrDist2(points[|points| - 1], screenPosition), minPointDistance) {
        AddPoint(screenPosition, screenToWorld, nearClip);
      }
    }

    /** `DetectPinchGesture`, one frame. `hands` is the tracker's result (`None`
        for no result), `width`/`height` the screen size, `screenToWorld` and
        `nearClip` the main camera's projection and near plane. */
    method DetectPinchGesture(hands: Option<seq<seq<Vec3>>>, width: real, height: real,
                              screenToWorld: Vec3 -> Vec3, nearClip: real)
      requires Valid()
      modifies this
      ensures Valid()
      ensures drawingEnabled == old(drawingEnabled)
      // No usable hand: the stroke ends, nothing is drawn, and the pinch
      // history and smoothed position are left as they were.
      ensures !HandPresent(hands) ==>
        !isDrawing && !handVisible &&
        points == old(points) && positions == old(positions) && hasLine == old(hasLine) &&
        createdLines == old(createdLines) && linesSpawned == old(linesSpawned) &&
        pinchPosition == old(pinchPosition) &&
        hasPreviousPinch == old(hasPreviousPinch) && smoothedScreenPosition == old(smoothedScreenPosition)
      ensures HandPresent(hands) ==> handVisible
      ensures HandPresent(hands) ==>
        var l := hands.value[0];
        var mid := Midpoint3(l[ThumbTip], l[IndexTip]);
        var pinching := PinchHeld(old(isDrawing), SqrDist3(l[ThumbTip], l[IndexTip]), pinchThreshold, pinchHysteresis);
        var sample := SmoothScreen(old(smoothedScreenPosition), ConvertToScreenSpace(mid, width, height), positionSmoothing);
        if pinching && drawingEnabled then
          pinchPosition == mid && smoothedScreenPosition == sample && hasPreviousPinch &&
          if !old(isDrawing) then
            // a new stroke starts at the smoothed sample
            createdLines == old(createdLines) + [old(linesSpawned)] && linesSpawned == old(linesSpawned) + 1 &&
            hasLine == prefabHasRenderer &&
            (prefabHasRenderer ==>
              isDrawing && points == [sample] && positions == Unprojected(points, screenToWorld, nearClip + depthOffset)) &&
            // without a renderer the line object is spawned but no stroke opens
            (!prefabHasRenderer ==> !isDrawing && points == old(points) && positions == old(positions))
          else
            // the open stroke is extended
            isDrawing && hasLine == old(hasLine) && createdLines == old(createdLines) && linesSpawned == old(linesSpawned) &&
            points == AppendIfFar(old(points), sample, minPointDistance) &&
            positions == if |points| > |old(points)| then Unprojected(points, screenToWorld, nearClip + depthOffset)
              else old(positions)
        else
          !isDrawing && points == old(points) && positions == old(positions) && hasLine == old(hasLine) &&
          createdLines == old(createdLines) && linesSpawned == old(linesSpawned) &&
          pinchPosition == old(pinchPosition) &&
          if old(isDrawing) then !hasPreviousPinch && smoothedScreenPosition == Zero2
          else hasPreviousPinch == old(hasPreviousPinch) && smoothedScreenPosition == old(smoothedScreenPosition)
    {
      if hands.None? || |hands.value| == 0 || |hands.value[0]| < LandmarkCount {
        if isDrawing {
          StopLine();
        }
        handVisible := false;
        return;
      }
      handVisible := true;
      var landmarks := hands.value[0];
      var thumbPosition := landmarks[ThumbTip];
      var indexPosition := landmarks[IndexTip];
      var pinchDistance := SqrDist3(thumbPosition, indexPosition);
      var isPinching := PinchHeld(isDrawing, pinchDistance, pinchThreshold, pinchHysteresis);
      if isPinching && drawingEnabled {
        var midpoint := Midpoint3(thumbPosition, indexPosition);
        pinchPosition := midpoint;
        var screenPosition := ConvertToScreenSpace(pinchPosition, width, height);
        if ApproxZero2(smoothedScreenPosition) {
          smoothedScreenPosition := screenPosition;
        } else {
          smoothedScreenPosition := Lerp2(smoothedScreenPosition, screenPosition, 1.0 - positionSmoothing);
        }
        if !isDrawing {
          StartLine(smoothedScreenPosition, screenToWorld, nearClip);
        } else {
          UpdateLine(smoothedScreenPosition, screenToWorld, nearClip);
        }
        hasPreviousPinch := true;
      } else if isDrawing && hasPreviousPinch {
        StopLine();
        hasPreviousPinch := false;
        smoothedScreenPosition := Zero2;
      }
    }

    /** `ClearAllDrawings`: end any stroke (resetting the pinch history and
        smoothing) and forget every line object spawned so far. */
    method ClearAllDrawings()
      requires Valid()
      modifies this
      ensures Valid()
      ensures !isDrawing && createdLines == []
      ensures old(isDrawing) ==> !hasPreviousPinch && smoothedScreenPosition == Zero2
      ensures !old(isDrawing) ==>
        hasPreviousPinch == old(hasPreviousPinch) && smoothedScreenPosition == old(smoothedScreenPosition)
      ensures points == old(points) && positions == old(positions) && hasLine == old(hasLine)
      ensures drawingEnabled == old(drawingEnabled) && linesSpawned == old(linesSpawned)
    {
      if isDrawing {
        StopLine();
        isDrawing := false;
        hasPreviousPinch := false;
        smoothedScreenPosition := Zero2;
      }
      createdLines := [];
    }
  }
}
