/** The 2D screen drawer (`ScreenDrawingWithGestures`): it follows the hand
    drawing controller's public `isDrawing` / `drawPosition`, projecting the
    draw position to the screen and drawing a stroke of pixel positions there. */
module ScreenDrawing {
  import opened Vectors
  import opened ScreenStrokes
  import HandDrawing

  /** Minimum pixel distance between consecutive points (`> 10f`). */
  const MinPixelDistance: real := 10.0

  /** `(Vector2)WorldToScreenPoint(p)`: the screen point with its depth dropped. */
  function ScreenPoint(p: Vec3, worldToScreen: Vec3 -> Vec3): Vec2
  {
    var s := worldToScreen(p);
    Vec2(s.x, s.y)
  }

  class ScreenDrawingWithGestures {
    const handDrawingController: HandDrawing.HandDrawingController
    /** Whether `linePrefab` carries a LineRenderer. */
    const prefabHasRenderer: bool

    /** `currentLine != null` */
    var hasLine: bool
    var points: seq<Vec2>
    /** The positions of `currentLine`; its `positionCount` is their number. */
    var positions: seq<Vec3>
    /** How many line objects have been instantiated. */
    var linesCreated: nat

    /** A current line shows one position per point and is never empty. */
    ghost predicate Valid()
      reads this
    {
      hasLine ==> |positions| == |points| && points != []
    }

    constructor (hand: HandDrawing.HandDrawingController, prefabHasRenderer: bool)
      ensures Valid() && handDrawingController == hand && this.prefabHasRenderer == prefabHasRenderer
      ensures !hasLine && points == [] && positions == [] && linesCreated == 0
    {
      handDrawingController := hand;
      this.prefabHasRenderer := prefabHasRenderer;
      hasLine := false;
      points := [];
      positions := [];
      linesCreated := 0;
    }

    /** `Update`, one frame: while the hand controller draws, start a line when
        there is none and extend it otherwise; when it stops, let go of the
        line so that the next stroke starts a new one. `worldToScreen`,
        `screenToWorld` and `nearClip` are the main camera's. */
    method Update(worldToScreen: Vec3 -> Vec3, screenToWorld: Vec3 -> Vec3, nearClip: real)
      requires Valid()
      modifies this
      ensures Valid()
      ensures handDrawingController.isDrawing && !old(hasLine) ==>
        var p := ScreenPoint(handDrawingController.drawPosition, worldToScreen);
        linesCreated == old(linesCreated) + 1 && hasLine == prefabHasRenderer &&
        (prefabHasRenderer ==> points == [p] && positions == Unprojected(points, screenToWorld, nearClip)) &&
        (!prefabHasRenderer ==> points == old(points) && positions == old(positions))
      ensures handDrawingController.isDrawing && old(hasLine) ==>
        var p := ScreenPoint(handDrawingController.drawPosition, worldToScreen);
        hasLine && linesCreated == old(linesCreated) &&
        points == AppendIfFar(old(points), p, MinPixelDistance) &&
        positions == if |points| > |old(points)| then Unprojected(points, screenToWorld, nearClip) else old(positions)
      ensures !handDrawingController.isDrawing ==>
        !hasLine && points == old(points) && positions == old(positions) && linesCreated == old(linesCreated)
    {
      if handDrawingController.isDrawing {
        var handPosition := handDrawingController.drawPosition;
        var screenPosition := ScreenPoint(handPosition, worldToScreen);
        if !hasLine {
          StartLine(screenPosition, screenToWorld, nearClip);
        } else {
          UpdateLine(screenPosition, screenToWorld, nearClip);
        }
      } else {
        if hasLine {
          StopLine();
        }
      }
    }

    /** `StartLine`: spawn a line object; with a renderer, start a fresh stroke
        holding just this point. */
    method StartLine(screenPosition: Vec2, screenToWorld: Vec3 -> Vec3, nearClip: real)
      requires Valid()
      modifies this
      ensures Valid()
      ensures linesCreated == old(linesCreated) + 1 && hasLine == prefabHasRenderer
      ensures prefabHasRenderer ==>
        points == [screenPosition] && positions == Unprojected(points, screenToWorld, nearClip)
      ensures !prefabHasRenderer ==> points == old(points) && positions == old(positions)
    {
      linesCreated := linesCreated + 1;
      hasLine := prefabHasRenderer;
      if !hasLine {
        return;
      }
      positions := [];
      points := [];
      AddPoint(screenPosition, screenToWorld, nearClip);
    }

    /** `UpdateLine`: extend the stroke when the point is more than ten pixels
        from its end. */
    method UpdateLine(screenPosition: Vec2, screenToWorld: Vec3 -> Vec3, nearClip: real)
      requires Valid() && hasLine
      modifies this
      ensures Valid() && hasLine && linesCreated == old(linesCreated)
      ensures points == AppendIfFar(old(points), screenPosition, MinPixelDistance)
      ensures positions ==
        if |points| > |old(points)| then Unprojected(points, screenToWorld, nearClip) else old(positions)
    {
      if |points| == 0 || DistGreater(SqrDist2(points[|points| - 1], screenPosition), MinPixelDistance) {
        AddPoint(screenPosition, screenToWorld, nearClip);
      }
    }

    /** `StopLine`: forget the current line; its points stay until the next start. */
    method StopLine()
      modifies this
      ensures !hasLine
      ensures points == old(points) && positions == old(positions) && linesCreated == old(linesCreated)
    {
      hasLine := false;
    }

    /** `AddPoint`: append the point, then rewrite every renderer position from
        the points, unprojected by the current camera at the near plane. */
    method AddPoint(screenPosition: Vec2, screenToWorld: Vec3 -> Vec3, nearClip: real)
      requires hasLine
      modifies this
      ensures points == old(points) + [screenPosition]
      ensures positions == Unprojected(points, screenToWorld, nearClip)
      ensures hasLine && linesCreated == old(linesCreated)
    {
      points := points + [screenPosition];
      var ps := Resized(positions, |points|);
      for i := 0 to |points|
        invariant |ps| == |points|
        invariant forall j :: 0 <= j < i ==> ps[j] == screenToWorld(Vec3(points[j].x, points[j].y, nearClip))
      {
        ps := ps[i := screenToWorld(Vec3(points[i].x, points[i].y, nearClip))];
      }
      forall j | 0 <= j < |points|
        ensures ps[j] == Unprojected(points, screenToWorld, nearClip)[j]
      {
        UnprojectedAt(points, screenToWorld, nearClip, j);
      }
      positions := ps;
    }
  }
}
