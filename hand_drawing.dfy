/** The hand drawing controller (`HandDrawingController`): a pinch of the
    first tracked hand, placed in the world relative to the AR camera and
    smoothed, drives the centre path of the world line drawer. */
module HandDrawing {
  import opened Vectors
  import opened PinchEvents
  import LineDrawing

  const LandmarkCount: nat := 21
  const ThumbTip: nat := 4
  const IndexTip: nat := 8
  /** Normalised hand units to metres. */
  const HandScale: real := 0.5

  /** `TransformHandPositionToWorld`: the hand position, scaled by one half
      with its depth turned toward the camera, laid out along the camera's
      right, up and forward axes from the camera position. */
  function TransformHandPositionToWorld(h: Vec3, cam: CameraPose): Vec3
  {
    var u := Vec3(h.x * HandScale, h.y * HandScale, -h.z * HandScale);
    Add3(Add3(Add3(cam.position, Scale3(cam.right, u.x)), Scale3(cam.up, u.y)), Scale3(cam.forward, u.z))
  }

  /** The camera's basis is orthonormal. */
  predicate Orthonormal(cam: CameraPose)
  {
    Dot3(cam.right, cam.right) == 1.0 && Dot3(cam.up, cam.up) == 1.0 && Dot3(cam.forward, cam.forward) == 1.0 &&
    Dot3(cam.right, cam.up) == 0.0 && Dot3(cam.right, cam.forward) == 0.0 && Dot3(cam.up, cam.forward) == 0.0
  }

  /** The hand position a world point came from, read off the camera's axes. */
  function HandFromWorld(w: Vec3, cam: CameraPose): Vec3
  {
    var d := Sub3(w, cam.position);
    Vec3(Dot3(d, cam.right) / HandScale, Dot3(d, cam.up) / HandScale, -Dot3(d, cam.forward) / HandScale)
  }

  /** The weighted mean `x·l + y·(1 - l)` of two numbers. */
  function Mix(x: real, y: real, l: real): real
  {
    x * l + y * (1.0 - l)
  }

  /** The weighted combination `a·l + b·(1 - l)` of two positions. */
  function Combination(a: Vec3, b: Vec3, l: real): Vec3
  {
    Vec3(Mix(a.x, b.x, l), Mix(a.y, b.y, l), Mix(a.z, b.z, l))
  }

  lemma ScaledMix(v: real, x: real, y: real, l: real)
    ensures v * (Mix(x, y, l) * HandScale) == Mix(v * (x * HandScale), v * (y * HandScale), l)
    ensures v * (-Mix(x, y, l) * HandScale) == Mix(v * (-x * HandScale), v * (-y * HandScale), l)
  {
  }

  lemma SumOfMixes(p: real, q: real, r: real, s: real, pr: real, qs: real, l: real)
    requires pr == p + r && qs == q + s
    ensures Mix(p, q, l) + Mix(r, s, l) == Mix(pr, qs, l)
  {
  }

  // The three axis terms of the transform, each applied to a combination.

  lemma RightOfCombination(v: Vec3, a: Vec3, b: Vec3, l: real)
    ensures Scale3(v, Combination(a, b, l).x * HandScale) ==
      Combination(Scale3(v, a.x * HandScale), Scale3(v, b.x * HandScale), l)
  {
    ScaledMix(v.x, a.x, b.x, l);
    ScaledMix(v.y, a.x, b.x, l);
    ScaledMix(v.z, a.x, b.x, l);
  }

  lemma UpOfCombination(v: Vec3, a: Vec3, b: Vec3, l: real)
    ensures Scale3(v, Combination(a, b, l).y * HandScale) ==
      Combination(Scale3(v, a.y * HandScale), Scale3(v, b.y * HandScale), l)
  {
    ScaledMix(v.x, a.y, b.y, l);
    ScaledMix(v.y, a.y, b.y, l);
    ScaledMix(v.z, a.y, b.y, l);
  }

  lemma ForwardOfCombination(v: Vec3, a: Vec3, b: Vec3, l: real)
    ensures Scale3(v, -Combination(a, b, l).z * HandScale) ==
      Combination(Scale3(v, -a.z * HandScale), Scale3(v, -b.z * HandScale), l)
  {
    ScaledMix(v.x, a.z, b.z, l);
    ScaledMix(v.y, a.z, b.z, l);
    ScaledMix(v.z, a.z, b.z, l);
  }

  lemma SumOfCombinations(a: Vec3, b: Vec3, c: Vec3, d: Vec3, l: real)
    ensures Add3(Combination(a, b, l), Combination(c, d, l)) == Combination(Add3(a, c), Add3(b, d), l)
  {
    SumOfMixes(a.x, b.x, c.x, d.x, Add3(a, c).x, Add3(b, d).x, l);
    SumOfMixes(a.y, b.y, c.y, d.y, Add3(a, c).y, Add3(b, d).y, l);
    SumOfMixes(a.z, b.z, c.z, d.z, Add3(a, c).z, Add3(b, d).z, l);
  }

  lemma TransformOfCombination(a: Vec3, b: Vec3, l: real, cam: CameraPose)
    ensures TransformHandPositionToWorld(Combination(a, b, l), cam) ==
      Combination(TransformHandPositionToWorld(a, cam), TransformHandPositionToWorld(b, cam), l)
  {
    var P, R, U, F := cam.position, cam.right, cam.up, cam.forward;
    var ra, rb := Scale3(R, a.x * HandScale), Scale3(R, b.x * HandScale);
    var ua, ub := Scale3(U, a.y * HandScale), Scale3(U, b.y * HandScale);
    RightOfCombination(R, a, b, l);
    UpOfCombination(U, a, b, l);
    ForwardOfCombination(F, a, b, l);
    assert Combination(P, P, l) == P;
    SumOfCombinations(P, P, ra, rb, l);
    SumOfCombinations(Add3(P, ra), Add3(P, rb), ua, ub, l);
    SumOfCombinations(Add3(Add3(P, ra), ua), Add3(Add3(P, rb), ub), Scale3(F, -a.z * HandScale), Scale3(F, -b.z * HandScale), l);
  }

  lemma MidpointIsCombination(a: Vec3, b: Vec3)
    ensures Midpoint3(a, b) == Combination(a, b, 0.5)
  {
  }

  lemma TransformOfOrigin(cam: CameraPose)
    ensures TransformHandPositionToWorld(Zero3, cam) == cam.position
  {
  }

  /** The transform is affine: it maps every weighted combination of two hand
      positions (weights `l` and `1 - l`) to the same combination of their
      world positions. In particular the hand origin lands on the camera and
      the pinch point (the midpoint of two fingertips) lands on the midpoint
      of the fingertips' world positions. */
  lemma TransformIsAffine(a: Vec3, b: Vec3, l: real, cam: CameraPose)
    ensures TransformHandPositionToWorld(Combination(a, b, l), cam) ==
      Combination(TransformHandPositionToWorld(a, cam), TransformHandPositionToWorld(b, cam), l)
    ensures TransformHandPositionToWorld(Zero3, cam) == cam.position
    ensures TransformHandPositionToWorld(Midpoint3(a, b), cam) ==
      Midpoint3(TransformHandPositionToWorld(a, cam), TransformHandPositionToWorld(b, cam))
  {
    TransformOfCombination(a, b, l, cam);
    TransformOfCombination(a, b, 0.5, cam);
    MidpointIsCombination(a, b);
    MidpointIsCombination(TransformHandPositionToWorld(a, cam), TransformHandPositionToWorld(b, cam));
    TransformOfOrigin(cam);
  }

  lemma DotOfCombination(r: Vec3, u: Vec3, f: Vec3, a: real, b: real, c: real, v: Vec3)
    ensures Dot3(Add3(Add3(Scale3(r, a), Scale3(u, b)), Scale3(f, c)), v) ==
      a * Dot3(r, v) + b * Dot3(u, v) + c * Dot3(f, v)
  {
  }

  /** For an orthonormal camera the transform loses nothing: reading the
      world point back off the camera's axes restores the hand position. */
  lemma TransformRoundTrip(h: Vec3, cam: CameraPose)
    requires Orthonormal(cam)
    ensures HandFromWorld(TransformHandPositionToWorld(h, cam), cam) == h
  {
    var a, b, c := h.x * HandScale, h.y * HandScale, -h.z * HandScale;
    var d := Sub3(TransformHandPositionToWorld(h, cam), cam.position);
    assert d == Add3(Add3(Scale3(cam.right, a), Scale3(cam.up, b)), Scale3(cam.forward, c));
    DotOfCombination(cam.right, cam.up, cam.forward, a, b, c, cam.right);
    DotOfCombination(cam.right, cam.up, cam.forward, a, b, c, cam.up);
    DotOfCombination(cam.right, cam.up, cam.forward, a, b, c, cam.forward);
    assert Dot3(cam.up, cam.right) == 0.0 && Dot3(cam.forward, cam.right) == 0.0 && Dot3(cam.forward, cam.up) == 0.0;
    assert Dot3(d, cam.right) == a && Dot3(d, cam.up) == b && Dot3(d, cam.forward) == c;
  }

  /** The smoothed pinch position: the first sample of a stroke is taken as
      it is, later ones move the position toward the sample by `1 - factor`. */
  function SmoothWorld(hasPrevious: bool, previous: Vec3, sample: Vec3, factor: real): Vec3
  {
    if !hasPrevious then sample else Lerp3(previous, sample, 1.0 - factor)
  }

  /** With `factor` in [0,1] smoothing keeps the fraction `factor` of the gap
      to the sample, and a sample equal to the previous position stays put. */
  lemma SmoothWorldKeepsFraction(hasPrevious: bool, previous: Vec3, sample: Vec3, factor: real)
    requires 0.0 <= factor <= 1.0
    ensures !hasPrevious ==> SmoothWorld(hasPrevious, previous, sample, factor) == sample
    ensures hasPrevious ==>
      Sub3(SmoothWorld(hasPrevious, previous, sample, factor), sample) == Scale3(Sub3(previous, sample), factor)
    ensures previous == sample ==> SmoothWorld(hasPrevious, previous, sample, factor) == sample
  {
    if hasPrevious {
      Lerp3Residual(previous, sample, factor);
    }
  }

  /** The first hand holds all 21 landmarks. */
  predicate HandPresent(hands: Option<seq<seq<Vec3>>>)
  {
    hands.Some? && |hands.value| > 0 && |hands.value[0]| >= LandmarkCount
  }

  class HandDrawingController {
    const drawingController: LineDrawing.ArDrawLine
    const pinchThreshold: real
    const pinchHysteresis: real
    const smoothingFactor: real

    var isDrawing: bool
    var drawPosition: Vec3
    var smoothedPosition: Vec3
    var hasPreviousPosition: bool

    /** A smoothing history exists exactly during a stroke, and a stroke only
        stands open on a drawer that holds a line. */
    ghost predicate Valid()
      reads this, drawingController
    {
      drawingController.Valid() &&
      hasPreviousPosition == isDrawing && (isDrawing ==> drawingController.hasRenderer)
    }

    constructor (drawer: LineDrawing.ArDrawLine, pinchThreshold: real, pinchHysteresis: real, smoothingFactor: real)
      requires drawer.Valid()
      ensures Valid() && drawingController == drawer
      ensures this.pinchThreshold == pinchThreshold && this.pinchHysteresis == pinchHysteresis
      ensures this.smoothingFactor == smoothingFactor
      ensures !isDrawing && !hasPreviousPosition
    {
      drawingController := drawer;
      this.pinchThreshold := pinchThreshold;
      this.pinchHysteresis := pinchHysteresis;
      this.smoothingFactor := smoothingFactor;
      isDrawing := false;
      drawPosition := Zero3;
      smoothedPosition := Zero3;
      hasPreviousPosition := false;
    }

    /** `StartDrawing`: enter the drawing state and start a centre line at
        `drawPosition`; `lineCam` is the drawer's camera. */
    method StartDrawing(lineCam: CameraPose)
      requires drawingController.Valid()
      modifies this, drawingController
      ensures isDrawing && drawingController.Valid() && drawingController.hasRenderer
      ensures drawingController.spawnPos == drawPosition
      ensures drawingController.list == [LineDrawing.SpawnPosition(drawPosition, lineCam)]
      ensures drawingController.CentreConsistent()
      ensures drawingController.linesCreated == old(drawingController.linesCreated) + 1 &&
      drawingController.draw == old(drawingController.draw) && drawingController.drawModeText == old(drawingController.drawModeText)
      ensures drawPosition == old(drawPosition) && smoothedPosition == old(smoothedPosition)
      ensures hasPreviousPosition == old(hasPreviousPosition)
    {
      isDrawing := true;
      drawingController.spawnPos := drawPosition;
      drawingController.CreateLineCenter(lineCam);
    }

    /** `UpdateDrawing`: while drawing, extend the centre line toward
        `drawPosition`; otherwise nothing changes. */
    method UpdateDrawing(lineCam: CameraPose)
      requires drawingController.Valid() && (isDrawing ==> drawingController.hasRenderer)
      modifies drawingController
      ensures drawingController.Valid() && (isDrawing ==> drawingController.hasRenderer)
      ensures !isDrawing ==> unchanged(drawingController)
      ensures isDrawing ==>
        drawingController.spawnPos == drawPosition &&
        drawingController.list ==
          LineDrawing.CentreExtend(old(drawingController.list), LineDrawing.SpawnPosition(drawPosition, lineCam)) &&
        (old(drawingController.list == [] || drawingController.CentreConsistent()) ==> drawingController.CentreConsistent()) &&
        drawingController.linesCreated == old(drawingController.linesCreated) &&
        drawingController.draw == old(drawingController.draw) && drawingController.drawModeText == old(drawingController.drawModeText)
    {
      if isDrawing {
        drawingController.spawnPos := drawPosition;
        drawingController.UpdateLineCenter(lineCam);
      }
    }

    /** `StopDrawing`: leave the drawing state and forget the smoothing history. */
    method StopDrawing()
      modifies this
      ensures !isDrawing && !hasPreviousPosition
      ensures drawPosition == old(drawPosition) && smoothedPosition == old(smoothedPosition)
    {
      isDrawing := false;
      hasPreviousPosition := false;
    }

    /** `DetectPinchGesture`, one frame. `hands` is the tracker's result (`None`
        for no result); `arCam` places the hand in the world, `lineCam` is the
        drawer's camera. */
    method DetectPinchGesture(hands: Option<seq<seq<Vec3>>>, arCam: CameraPose, lineCam: CameraPose)
      requires Valid()
      modifies this, drawingController
      ensures Valid()
      // Missing or incomplete hand: a stroke in progress stops, and nothing is drawn.
      ensures !HandPresent(hands) ==>
        !isDrawing && unchanged(drawingController) &&
        drawPosition == old(drawPosition) && smoothedPosition == old(smoothedPosition)
      ensures HandPresent(hands) ==>
        var l := hands.value[0];
        var world := TransformHandPositionToWorld(Midpoint3(l[ThumbTip], l[IndexTip]), arCam);
        if PinchHeld(old(isDrawing), SqrDist3(l[ThumbTip], l[IndexTip]), pinchThreshold, pinchHysteresis) then
          isDrawing &&
          smoothedPosition == SmoothWorld(old(hasPreviousPosition), old(smoothedPosition), world, smoothingFactor) &&
          drawPosition == smoothedPosition &&
          drawingController.spawnPos == drawPosition &&
          drawingController.draw == old(drawingController.draw) &&
          drawingController.drawModeText == old(drawingController.drawModeText) &&
          if !old(isDrawing) then
            // a new centre line starts at the (unsmoothed) first sample
            drawPosition == world &&
            drawingController.list == [LineDrawing.SpawnPosition(drawPosition, lineCam)] &&
            drawingController.CentreConsistent() &&
            drawingController.linesCreated == old(drawingController.linesCreated) + 1
          else
            drawingController.list ==
              LineDrawing.CentreExtend(old(drawingController.list), LineDrawing.SpawnPosition(drawPosition, lineCam)) &&
            (old(drawingController.list == [] || drawingController.CentreConsistent()) ==> drawingController.CentreConsistent()) &&
            drawingController.linesCreated == old(drawingController.linesCreated)
        else
          !isDrawing && unchanged(drawingController) &&
          drawPosition == old(drawPosition) && smoothedPosition == old(smoothedPosition)
    {
      if hands.None? || |hands.value| == 0 {
        if isDrawing {
          StopDrawing();
        }
        return;
      }
      if |hands.value[0]| < LandmarkCount {
        if isDrawing {
          StopDrawing();
        }
        return;
      }
      var landmarks := hands.value[0];
      var thumbPosition := landmarks[ThumbTip];
      var indexPosition := landmarks[IndexTip];
      var pinchDistance := SqrDist3(thumbPosition, indexPosition);
      var isPinching := PinchHeld(isDrawing, pinchDistance, pinchThreshold, pinchHysteresis);
      if isPinching {
        var midpoint := Midpoint3(thumbPosition, indexPosition);
        var worldPosition := TransformHandPositionToWorld(midpoint, arCam);
        if !hasPreviousPosition {
          smoothedPosition := worldPosition;
          hasPreviousPosition := true;
        } else {
          smoothedPosition := Lerp3(smoothedPosition, worldPosition, 1.0 - smoothingFactor);
        }
        drawPosition := smoothedPosition;
        if !isDrawing {
          StartDrawing(lineCam);
        } else {
          UpdateDrawing(lineCam);
        }
      } else if isDrawing {
        StopDrawing();
      }
    }
  }
}
