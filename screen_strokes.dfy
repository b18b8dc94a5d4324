/** Screen-space strokes: a list of pixel positions with minimum-distance
    decimation, shown by a LineRenderer whose positions are the points
    unprojected into the world at a fixed depth. Both screen drawers
    (`StandaloneMediaPipeDrawing` and `ScreenDrawingWithGestures`) build their
    strokes this way, with their own minimum distance and depth. */
module ScreenStrokes {
  import opened Vectors

  function LastPoint(s: seq<Vec2>): Vec2
    requires s != []
  {
    s[|s| - 1]
  }

  /** `UpdateLine`: append `p` to an empty stroke, or when it is more than
      `minDist` pixels from the last point. */
  function AppendIfFar(points: seq<Vec2>, p: Vec2, minDist: real): seq<Vec2>
  {
    if points == [] || DistGreater(SqrDist2(LastPoint(points), p), minDist) then points + [p]
    else points
  }

  /** Consecutive points are more than `minDist` apart. */
  predicate SpacedBy(points: seq<Vec2>, minDist: real)
  {
    forall i :: 0 < i < |points| ==> DistGreater(SqrDist2(points[i - 1], points[i]), minDist)
  }

  /** Points are only ever appended, one at a time and exactly when they are
      far enough from the stroke's end, so the spacing of a stroke is kept. */
  lemma AppendIfFarKeepsSpacing(points: seq<Vec2>, p: Vec2, minDist: real)
    ensures points <= AppendIfFar(points, p, minDist)
    ensures |AppendIfFar(points, p, minDist)| <= |points| + 1
    ensures AppendIfFar(points, p, minDist) == points + [p] <==>
      points == [] || DistGreater(SqrDist2(LastPoint(points), p), minDist)
    ensures AppendIfFar(points, p, minDist) != points + [p] ==> AppendIfFar(points, p, minDist) == points
    ensures SpacedBy(points, minDist) ==> SpacedBy(AppendIfFar(points, p, minDist), minDist)
  {
    var r := AppendIfFar(points, p, minDist);
    if r == points + [p] && SpacedBy(points, minDist) {
      forall i | 0 < i < |r|
        ensures DistGreater(SqrDist2(r[i - 1], r[i]), minDist)
      {
        if i == |points| {
          assert r[i - 1] == LastPoint(points) && r[i] == p;
        } else {
          assert r[i - 1] == points[i - 1] && r[i] == points[i];
        }
      }
    }
  }

  /** The renderer positions `AddPoint` writes: every screen point, in order,
      unprojected at `depth` (`ScreenToWorldPoint(new Vector3(x, y, depth))`). */
  function Unprojected(points: seq<Vec2>, screenToWorld: Vec3 -> Vec3, depth: real): (r: seq<Vec3>)
    ensures |r| == |points|
    decreases |points|
  {
    if points == [] then []
    else
      var last := LastPoint(points);
      Unprojected(points[..|points| - 1], screenToWorld, depth) + [screenToWorld(Vec3(last.x, last.y, depth))]
  }

  /** Position `i` of the renderer is point `i` unprojected, so earlier points
      keep their place and order when the stroke grows. */
  lemma {:induction false} UnprojectedAt(points: seq<Vec2>, screenToWorld: Vec3 -> Vec3, depth: real, i: nat)
    requires i < |points|
    ensures Unprojected(points, screenToWorld, depth)[i] == screenToWorld(Vec3(points[i].x, points[i].y, depth))
    decreases |points|
  {
    if i < |points| - 1 {
      UnprojectedAt(points[..|points| - 1], screenToWorld, depth, i);
    }
  }

  /** Positions newly exposed by raising `positionCount`; the loop after the
      resize overwrites every one of them, so their initial value is immaterial. */
  function Resized(positions: seq<Vec3>, n: nat): (r: seq<Vec3>)
    ensures |r| == n
  {
    if n <= |positions| then positions[..n] else positions + seq(n - |positions|, _ => Zero3)
  }
}
