/** The world-space line drawer (`ardrawline`): a point list kept beside one
    LineRenderer, driven either by hand tracking (the centre path, through
    `spawnPos`) or by the mouse, plus the "Draw"/"View" mode toggle. */
module LineDrawing {
  import opened Vectors

  /** Minimum distance between consecutive points of a stroke (`> 0.01f`). */
  const MinPointDistance: real := 0.01
  /** Distance in front of the camera used when no spawn position was set. */
  const SpawnDistance: real := 1.0

  /** The mouse state of one frame, in the priority order of the source's
      `GetMouseButtonDown` / `GetMouseButton` / `GetMouseButtonUp` tests. */
  datatype MouseButton = Pressed | Held | Released | Idle

  /** `getSpawnPos`: an explicitly set (non-zero) spawn position wins; otherwise
      the point one unit along the camera's forward axis. */
  function SpawnPosition(spawn: Vec3, cam: CameraPose): (p: Vec3)
    ensures !ApproxZero3(spawn) ==> p == spawn
    ensures ApproxZero3(spawn) ==> p == Add3(cam.position, cam.forward)
  {
    if !ApproxZero3(spawn) then spawn
    else Add3(cam.position, Scale3(cam.forward, SpawnDistance))
  }

  /** A pinch is drawn where it is unless it lies within 1e-5 of the world
      origin: such a pinch counts as "no spawn position set" and is drawn one
      unit in front of the camera instead. */
  lemma SpawnPositionFollowsPinch(pinch: Vec3, cam: CameraPose)
    ensures SpawnPosition(pinch, cam) == pinch <==> !ApproxZero3(pinch) || Add3(cam.position, cam.forward) == pinch
    ensures ApproxZero3(pinch) ==> SqrDist3(SpawnPosition(pinch, cam), cam.position) == SqrDist3(cam.forward, Zero3)
  {
  }

  /** The last point of a non-empty stroke. */
  function Last(s: seq<Vec3>): Vec3
    requires s != []
  {
    s[|s| - 1]
  }

  /** `p` is far enough from the end of `s` to be appended. */
  predicate FarFromLast(s: seq<Vec3>, p: Vec3)
    requires s != []
  {
    DistGreater(SqrDist3(p, Last(s)), MinPointDistance)
  }

  /** The point list after `updateLineCenter` at `p`. */
  function CentreExtend(list: seq<Vec3>, p: Vec3): seq<Vec3>
  {
    if list == [] then [p]
    else if FarFromLast(list, p) then list + [p]
    else list
  }

  /** The point list after a held mouse button at `p` (`updateLine`); on an
      empty list the source's `list[list.Count - 1]` throws and the frame is lost. */
  function MouseExtend(list: seq<Vec3>, p: Vec3): seq<Vec3>
  {
    if list == [] then list
    else if FarFromLast(list, p) then list + [p]
    else list
  }

  /** Consecutive points are more than `MinPointDistance` apart. */
  predicate Decimated(s: seq<Vec3>)
  {
    forall i :: 0 < i < |s| ==> DistGreater(SqrDist3(s[i], s[i - 1]), MinPointDistance)
  }

  /** `updateLine` never rewrites a point either: on an empty list it does
      nothing (the source throws), and otherwise it appends `p` exactly when
      it is far enough from the last point; so decimation is preserved. */
  lemma MouseExtendAppendsOnlyFarPoints(list: seq<Vec3>, p: Vec3)
    ensures list == [] ==> MouseExtend(list, p) == []
    ensures list != [] ==> (MouseExtend(list, p) == list + [p] <==> FarFromLast(list, p))
    ensures list != [] && !FarFromLast(list, p) ==> MouseExtend(list, p) == list
    ensures list <= MouseExtend(list, p) && |MouseExtend(list, p)| <= |list| + 1
    ensures Decimated(list) ==> Decimated(MouseExtend(list, p))
  {
  }

  /** `updateLineCenter` never rewrites a point: it restarts an empty list at
      `p`, or appends `p` exactly when it is far enough from the last point,
      and otherwise leaves the list alone; so decimation is preserved. */
  lemma CentreExtendAppendsOnlyFarPoints(list: seq<Vec3>, p: Vec3)
    ensures list == [] ==> CentreExtend(list, p) == [p]
    ensures list != [] ==> (CentreExtend(list, p) == list + [p] <==> FarFromLast(list, p))
    ensures list != [] && !FarFromLast(list, p) ==> CentreExtend(list, p) == list
    ensures list <= CentreExtend(list, p) && |CentreExtend(list, p)| <= |list| + 1
    ensures Decimated(list) ==> Decimated(CentreExtend(list, p))
  {
    if list != [] && FarFromLast(list, p) && Decimated(list) {
      var r := list + [p];
      forall i | 0 < i < |r|
        ensures DistGreater(SqrDist3(r[i], r[i - 1]), MinPointDistance)
      {
        if i == |list| {
          assert r[i] == p && r[i - 1] == Last(list);
        } else {
          assert r[i] == list[i] && r[i - 1] == list[i - 1];
        }
      }
    }
  }

  /** The "Draw"/"View" toggle of `handleDrawing`: the label shows the action
      the button will take next. */
  function ToggleMode(draw: bool, text: string): (bool, string)
  {
    if text == "View" then (false, "Draw")
    else if text == "Draw" then (true, "View")
    else (draw, text)
  }

  /** A label other than "Draw"/"View" leaves the mode alone; from a consistent
      state (drawing exactly when the label offers "View") the toggle flips
      the mode, stays consistent, and toggling twice restores the state. */
  lemma ToggleModeInvolution(draw: bool, text: string)
    ensures text != "View" && text != "Draw" ==> ToggleMode(draw, text) == (draw, text)
    ensures (text == "View" || text == "Draw") && draw == (text == "View") ==>
      ToggleMode(draw, text).0 == !draw &&
      ToggleMode(draw, text).0 == (ToggleMode(draw, text).1 == "View") &&
      ToggleMode(ToggleMode(draw, text).0, ToggleMode(draw, text).1) == (draw, text)
  {
  }

  class ArDrawLine {
    /** `list`: the stroke's points. */
    var list: seq<Vec3>
    /** The positions of `lineRenderer`; its `positionCount` is their number. */
    var positions: seq<Vec3>
    /** `lineRenderer != null` */
    var hasRenderer: bool
    /** How many line objects have been instantiated (`currentLine` is the last). */
    var linesCreated: nat
    var draw: bool
    /** `drawMode.text` */
    var drawModeText: string
    var spawnPos: Vec3

    /** Points and renderer positions only exist once a renderer does. */
    ghost predicate Valid()
      reads this
    {
      (|list| > 0 ==> hasRenderer) && (|positions| > 0 ==> hasRenderer)
    }

    /** On the centre path the renderer shows the point list behind the initial
        duplicate vertex, so `positionCount == list.Count + 1`. */
    ghost predicate CentreConsistent()
      reads this
    {
      |list| > 0 && positions == [list[0]] + list
    }

    /** The field initialisers followed by `Start`. */
    constructor ()
      ensures Valid()
      ensures list == [] && positions == [] && !hasRenderer && linesCreated == 0
      ensures !draw && drawModeText == "Draw" && spawnPos == Zero3
    {
      list := [];
      positions := [];
      hasRenderer := false;
      linesCreated := 0;
      draw := false;
      drawModeText := "Draw";
      spawnPos := Zero3;
    }

    /** `createLineCenter`: a new line whose renderer holds two copies of the
        spawn point and whose list holds it once. */
    method CreateLineCenter(cam: CameraPose)
      requires Valid()
      modifies this
      ensures Valid() && CentreConsistent()
      ensures list == [SpawnPosition(spawnPos, cam)]
      ensures positions == [SpawnPosition(spawnPos, cam), SpawnPosition(spawnPos, cam)]
      ensures hasRenderer && linesCreated == old(linesCreated) + 1
      ensures draw == old(draw) && drawModeText == old(drawModeText) && spawnPos == old(spawnPos)
    {
      var p := SpawnPosition(spawnPos, cam);
      list := [];
      linesCreated := linesCreated + 1;
      hasRenderer := true;
      positions := [p, p];
      list := list + [p];
    }

    /** `updateLineCenter`: reinitialise an emptied list, or append a point far
        enough from the last one to both the list and the renderer. */
    method UpdateLineCenter(cam: CameraPose)
      requires Valid() && hasRenderer
      modifies this
      ensures Valid()
      ensures list == CentreExtend(old(list), SpawnPosition(spawnPos, cam))
      ensures old(list) == [] ==> positions == [SpawnPosition(spawnPos, cam), SpawnPosition(spawnPos, cam)]
      ensures old(list) != [] ==>
        positions == (if |list| > |old(list)| then old(positions) + [SpawnPosition(spawnPos, cam)] else old(positions))
      ensures old(list == [] || CentreConsistent()) ==> CentreConsistent()
      ensures hasRenderer && linesCreated == old(linesCreated)
      ensures draw == old(draw) && drawModeText == old(drawModeText) && spawnPos == old(spawnPos)
    {
      var p := SpawnPosition(spawnPos, cam);
      if |list| == 0 {
        positions := [p, p];
        list := list + [p];
        return;
      }
      if DistGreater(SqrDist3(p, list[|list| - 1]), MinPointDistance) {
        positions := positions + [p];
        list := list + [p];
      }
    }

    /** `handleDrawing` */
    method HandleDrawing()
      modifies this
      ensures (draw, drawModeText) == ToggleMode(old(draw), old(drawModeText))
      ensures list == old(list) && positions == old(positions) && hasRenderer == old(hasRenderer)
      ensures linesCreated == old(linesCreated) && spawnPos == old(spawnPos)
    {
      if drawModeText == "View" {
        draw := false;
        drawModeText := "Draw";
      } else if drawModeText == "Draw" {
        draw := true;
        drawModeText := "View";
      }
    }

    /** `StartPinchDrawing`: record the position, then start a centre line. */
    method StartPinchDrawing(position: Vec3, cam: CameraPose)
      requires Valid()
      modifies this
      ensures Valid() && CentreConsistent() && spawnPos == position
      ensures list == [SpawnPosition(position, cam)]
      ensures !ApproxZero3(position) ==> list == [position] && positions == [position, position]
      ensures ApproxZero3(position) ==> list == [Add3(cam.position, cam.forward)]
      ensures positions == [SpawnPosition(position, cam), SpawnPosition(position, cam)]
      ensures hasRenderer && linesCreated == old(linesCreated) + 1
      ensures draw == old(draw) && drawModeText == old(drawModeText)
    {
      spawnPos := position;
      CreateLineCenter(cam);
    }

    /** `UpdatePinchDrawing`: record the position, then extend the centre line. */
    method UpdatePinchDrawing(position: Vec3, cam: CameraPose)
      requires Valid() && hasRenderer
      modifies this
      ensures Valid() && spawnPos == position
      ensures list == CentreExtend(old(list), SpawnPosition(position, cam))
      ensures old(list) == [] ==> positions == [SpawnPosition(position, cam), SpawnPosition(position, cam)]
      ensures old(list) != [] ==>
        positions == (if |list| > |old(list)| then old(positions) + [SpawnPosition(position, cam)] else old(positions))
      ensures old(list == [] || CentreConsistent()) ==> CentreConsistent()
      ensures hasRenderer && linesCreated == old(linesCreated)
      ensures draw == old(draw) && drawModeText == old(drawModeText)
    {
      spawnPos := position;
      UpdateLineCenter(cam);
    }

    /** `StopPinchDrawing` does nothing. */
    method StopPinchDrawing()
      ensures unchanged(this)
    {
    }

    /** `Update` on the mouse path: a press starts a line at the mouse ray's
        point, holding extends it, releasing clears the point list; nothing
        happens while not in draw mode. `mouseWorld` is the point one unit along
        the camera ray through the mouse position. */
    method Update(button: MouseButton, mouseWorld: Vec3)
      requires Valid()
      modifies this
      ensures Valid()
      ensures !old(draw) || button == Idle ==> unchanged(this)
      ensures old(draw) && button == Pressed ==>
        list == old(list) + [mouseWorld, mouseWorld] && positions == [mouseWorld, mouseWorld] &&
        hasRenderer && linesCreated == old(linesCreated) + 1
      ensures old(draw) && button == Held ==>
        list == MouseExtend(old(list), mouseWorld) &&
        positions == (if |list| > |old(list)| then old(positions) + [mouseWorld] else old(positions)) &&
        linesCreated == old(linesCreated)
      ensures old(draw) && button == Released ==>
        list == [] && positions == old(positions) && linesCreated == old(linesCreated)
      ensures button != Pressed ==> hasRenderer == old(hasRenderer)
      ensures draw == old(draw) && drawModeText == old(drawModeText) && spawnPos == old(spawnPos)
    {
      if draw {
        match button
        case Pressed =>
          CreateLine(mouseWorld);
        case Held =>
          if |list| > 0 {
            UpdateLine(mouseWorld);
          }
        case Released =>
          list := [];
        case Idle =>
      }
    }

    /** `createLine`: a fresh line whose two default renderer positions are
        both set to the mouse point, which is appended twice to the list (the
        list is not cleared first). */
    method CreateLine(pos: Vec3)
      requires Valid()
      modifies this
      ensures Valid()
      ensures list == old(list) + [pos, pos] && positions == [pos, pos]
      ensures hasRenderer && linesCreated == old(linesCreated) + 1
      ensures draw == old(draw) && drawModeText == old(drawModeText) && spawnPos == old(spawnPos)
    {
      linesCreated := linesCreated + 1;
      hasRenderer := true;
      positions := [pos, pos];
      list := list + [pos];
      list := list + [pos];
    }

    /** `updateLine`: append the mouse point when it is far enough from the last one. */
    method UpdateLine(pos: Vec3)
      requires Valid() && list != []
      modifies this
      ensures Valid()
      ensures list == MouseExtend(old(list), pos)
      ensures positions == (if |list| > |old(list)| then old(positions) + [pos] else old(positions))
      ensures hasRenderer == old(hasRenderer) && linesCreated == old(linesCreated)
      ensures draw == old(draw) && drawModeText == old(drawModeText) && spawnPos == old(spawnPos)
    {
      if DistGreater(SqrDist3(pos, list[|list| - 1]), MinPointDistance) {
        positions := positions + [pos];
        list := list + [pos];
      }
    }
  }
}
