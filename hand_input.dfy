/** The fixed-threshold hand input handler (`ARHandInputHandler`): a pinch is
    on while thumb and index tips are closer than 0.02, and its edges start,
    update and stop the line drawer. Input too short to hold both fingertips
    is ignored rather than treated as a release. */
module HandInput {
  import opened Vectors
  import opened PinchEvents
  import LineDrawing

  const PinchDistance: real := 0.02
  const ThumbTip: nat := 4
  const IndexTip: nat := 8

  /** The landmarks hold both fingertips. */
  predicate Usable(landmarks: Option<seq<Vec3>>)
  {
    landmarks.Some? && |landmarks.value| > IndexTip
  }

  /** The pinch point: halfway between thumb tip and index tip. */
  function PinchPoint(landmarks: seq<Vec3>): Vec3
    requires |landmarks| > IndexTip
  {
    Midpoint3(landmarks[ThumbTip], landmarks[IndexTip])
  }

  /** The pinch state and the call issued by one `DetectGesture` frame. */
  function GestureStep(pinching: bool, landmarks: Option<seq<Vec3>>): (bool, PinchCall)
  {
    if !Usable(landmarks) then (pinching, NoCall)
    else
      var l := landmarks.value;
      if DistLess(SqrDist3(l[ThumbTip], l[IndexTip]), PinchDistance) then
        (true, if !pinching then StartCall(PinchPoint(l)) else UpdateCall(PinchPoint(l)))
      else if pinching then (false, StopCall)
      else (false, NoCall)
  }

  /** Unusable input changes nothing; a close pair starts (when released) or
      updates (when pinching) at the fingertips' midpoint and leaves the
      handler pinching; a distant pair stops exactly when pinching and leaves
      it released. So every frame agrees with its state change. */
  lemma GestureStepCases(pinching: bool, landmarks: Option<seq<Vec3>>)
    ensures !Usable(landmarks) ==> GestureStep(pinching, landmarks) == (pinching, NoCall)
    ensures Usable(landmarks) && DistLess(SqrDist3(landmarks.value[ThumbTip], landmarks.value[IndexTip]), PinchDistance) ==>
      GestureStep(pinching, landmarks).0 &&
      GestureStep(pinching, landmarks).1 == Dispatch(pinching, true, PinchPoint(landmarks.value))
    ensures Usable(landmarks) && !DistLess(SqrDist3(landmarks.value[ThumbTip], landmarks.value[IndexTip]), PinchDistance) ==>
      !GestureStep(pinching, landmarks).0 &&
      GestureStep(pinching, landmarks).1 == (if pinching then StopCall else NoCall)
    ensures StepAgrees(pinching, GestureStep(pinching, landmarks).0, GestureStep(pinching, landmarks).1)
  {
  }

  /** The pinch states a run of frames goes through, starting from `pinching`. */
  function States(pinching: bool, frames: seq<Option<seq<Vec3>>>): (s: seq<bool>)
    ensures |s| == |frames| + 1 && s[0] == pinching
    decreases |frames|
  {
    if frames == [] then [pinching]
    else [pinching] + States(GestureStep(pinching, frames[0]).0, frames[1..])
  }

  /** The calls a run of frames issues, starting from `pinching`. */
  function Calls(pinching: bool, frames: seq<Option<seq<Vec3>>>): (c: seq<PinchCall>)
    ensures |c| == |frames|
    decreases |frames|
  {
    if frames == [] then []
    else [GestureStep(pinching, frames[0]).1] + Calls(GestureStep(pinching, frames[0]).0, frames[1..])
  }

  lemma {:induction false} RunIsTrace(pinching: bool, frames: seq<Option<seq<Vec3>>>)
    ensures Trace(States(pinching, frames), Calls(pinching, frames))
    decreases |frames|
  {
    if frames != [] {
      var next := GestureStep(pinching, frames[0]);
      RunIsTrace(next.0, frames[1..]);
      GestureStepCases(pinching, frames[0]);
      var s, c := States(pinching, frames), Calls(pinching, frames);
      var s', c' := States(next.0, frames[1..]), Calls(next.0, frames[1..]);
      assert s == [pinching] + s' && c == [next.1] + c';
      forall i | 0 <= i < |c|
        ensures StepAgrees(s[i], s[i + 1], c[i])
      {
        if i > 0 {
          assert s[i] == s'[i - 1] && s[i + 1] == s'[i] && c[i] == c'[i - 1];
        }
      }
    }
  }

  /** Over any run of frames from a released handler, each start is closed by
      at most one stop, and a start is open exactly when the handler ends pinching. */
  lemma EachStartStoppedAtMostOnce(frames: seq<Option<seq<Vec3>>>)
    ensures Stops(Calls(false, frames)) <= Starts(Calls(false, frames)) <= Stops(Calls(false, frames)) + 1
    ensures Starts(Calls(false, frames)) == Stops(Calls(false, frames)) + 1 <==>
      States(false, frames)[|frames|]
  {
    RunIsTrace(false, frames);
    EveryStartClosedAtMostOnce(States(false, frames), Calls(false, frames));
  }

  class ARHandInputHandler {
    const drawingController: LineDrawing.ArDrawLine
    var isPinching: bool
    var pinchPosition: Vec3

    /** A pinch only stands open on a drawer that holds a line. */
    ghost predicate Valid()
      reads this, drawingController
    {
      drawingController.Valid() && (isPinching ==> drawingController.hasRenderer)
    }

    constructor (drawer: LineDrawing.ArDrawLine)
      requires drawer.Valid()
      ensures Valid() && drawingController == drawer && !isPinching
    {
      drawingController := drawer;
      isPinching := false;
      pinchPosition := Zero3;
    }

    /** `DetectGesture`; `lineCam` is the drawer's camera, used when the pinch point is zero. */
    method DetectGesture(landmarks: array?<Vec3>, lineCam: CameraPose) returns (call: PinchCall)
      requires Valid()
      modifies this, drawingController
      ensures Valid()
      ensures (isPinching, call) ==
        GestureStep(old(isPinching), if landmarks == null then None else Some(landmarks[..]))
      ensures pinchPosition == if call.StartCall? || call.UpdateCall? then call.at else old(pinchPosition)
      ensures call.StartCall? || call.UpdateCall? ==> drawingController.spawnPos == call.at
      ensures call.StartCall? ==>
        drawingController.list == [LineDrawing.SpawnPosition(call.at, lineCam)] && drawingController.CentreConsistent() &&
        drawingController.linesCreated == old(drawingController.linesCreated) + 1 &&
        drawingController.draw == old(drawingController.draw) && drawingController.drawModeText == old(drawingController.drawModeText)
      ensures call.UpdateCall? ==>
        drawingController.list == LineDrawing.CentreExtend(old(drawingController.list), LineDrawing.SpawnPosition(call.at, lineCam)) &&
        (old(drawingController.list == [] || drawingController.CentreConsistent()) ==> drawingController.CentreConsistent()) &&
        drawingController.linesCreated == old(drawingController.linesCreated) &&
        drawingController.draw == old(drawingController.draw) && drawingController.drawModeText == old(drawingController.drawModeText)
      ensures call.StopCall? || call.NoCall? ==> unchanged(drawingController)
    {
      call := NoCall;
      if landmarks == null || landmarks.Length < 9 {
        return;
      }
      var thumbTip := landmarks[ThumbTip];
      var indexTip := landmarks[IndexTip];
      var pinchDist := SqrDist3(thumbTip, indexTip);
      if DistLess(pinchDist, PinchDistance) {
        if !isPinching {
          isPinching := true;
          pinchPosition := Midpoint3(thumbTip, indexTip);
          drawingController.StartPinchDrawing(pinchPosition, lineCam);
          call := StartCall(pinchPosition);
        } else {
          pinchPosition := Midpoint3(thumbTip, indexTip);
          drawingController.UpdatePinchDrawing(pinchPosition, lineCam);
          call := UpdateCall(pinchPosition);
        }
      } else if isPinching {
        isPinching := false;
        drawingController.StopPinchDrawing();
        call := StopCall;
      }
    }
  }
}
