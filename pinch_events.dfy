/** The calls a pinch detector issues on the line drawer (`StartPinchDrawing`,
    `UpdatePinchDrawing`, `StopPinchDrawing`) and the bracketing they obey over
    any run of frames: every start is closed by at most one stop. */
module PinchEvents {
  import opened Vectors

  /** The call a detector issued in one frame, with the position it passed. */
  datatype PinchCall = NoCall | StartCall(at: Vec3) | UpdateCall(at: Vec3) | StopCall

  /** The three-way dispatch on the previous and the current pinch state:
      start on a rising edge, update while held, stop on a falling edge. */
  function Dispatch(was: bool, now: bool, at: Vec3): (c: PinchCall)
    ensures c.StartCall? <==> !was && now
    ensures c.UpdateCall? <==> was && now
    ensures c.StopCall? <==> was && !now
    ensures c.StartCall? || c.UpdateCall? ==> c.at == at
  {
    if now && !was then StartCall(at)
    else if now && was then UpdateCall(at)
    else if !now && was then StopCall
    else NoCall
  }

  /** One frame of a detector agrees with its pinch state: a change of state
      emits the matching start or stop, and a start or stop is only ever
      emitted on that change. */
  predicate StepAgrees(was: bool, now: bool, c: PinchCall)
  {
    (c.StartCall? ==> !was && now) &&
    (c.StopCall? ==> was && !now) &&
    (!was && now ==> c.StartCall?) &&
    (was && !now ==> c.StopCall?)
  }

  lemma DispatchAgrees(was: bool, now: bool, at: Vec3)
    ensures StepAgrees(was, now, Dispatch(was, now, at))
  {
  }

  function Indicator(b: bool): int { if b then 1 else 0 }

  function Starts(calls: seq<PinchCall>): nat
  {
    if calls == [] then 0
    else Starts(calls[..|calls| - 1]) + (if calls[|calls| - 1].StartCall? then 1 else 0)
  }

  function Stops(calls: seq<PinchCall>): nat
  {
    if calls == [] then 0
    else Stops(calls[..|calls| - 1]) + (if calls[|calls| - 1].StopCall? then 1 else 0)
  }

  /** `calls` is what a detector emitted while its pinch state went through `states`. */
  predicate Trace(states: seq<bool>, calls: seq<PinchCall>)
  {
    |states| == |calls| + 1 &&
    forall i :: 0 <= i < |calls| ==> StepAgrees(states[i], states[i + 1], calls[i])
  }

  /** Over any run, starts minus stops is the net change of the pinch state. */
  lemma {:induction false} StartsMinusStops(states: seq<bool>, calls: seq<PinchCall>)
    requires Trace(states, calls)
    ensures Starts(calls) - Stops(calls) == Indicator(states[|states| - 1]) - Indicator(states[0])
  {
    if calls != [] {
      var n := |calls|;
      assert Trace(states[..n], calls[..n - 1]) by {
        forall i | 0 <= i < n - 1
          ensures StepAgrees(states[..n][i], states[..n][i + 1], calls[..n - 1][i])
        {
          assert StepAgrees(states[i], states[i + 1], calls[i]);
        }
      }
      StartsMinusStops(states[..n], calls[..n - 1]);
      assert StepAgrees(states[n - 1], states[n], calls[n - 1]);
    }
  }

  /** A detector that starts released never stops more often than it started,
      and never has more than one unclosed start: it is pinching exactly when
      one start is open. */
  lemma EveryStartClosedAtMostOnce(states: seq<bool>, calls: seq<PinchCall>)
    requires Trace(states, calls) && !states[0]
    ensures Stops(calls) <= Starts(calls) <= Stops(calls) + 1
    ensures Starts(calls) == Stops(calls) + 1 <==> states[|states| - 1]
  {
    StartsMinusStops(states, calls);
  }

  /** The pinch test of the detectors that widen the release threshold while a
      stroke is being drawn: `distance < threshold + hysteresis` while drawing,
      `distance < threshold` otherwise, stated on the squared distance. */
  predicate PinchHeld(drawing: bool, sq: real, threshold: real, hysteresis: real)
  {
    DistLess(sq, if drawing then threshold + hysteresis else threshold)
  }

  /** With a non-negative hysteresis a pinch that would start a stroke also
      holds one: the drawing test only ever accepts more; and a positive
      hysteresis keeps a stroke alive in the band just past the threshold. */
  lemma HysteresisWidensRelease(sq: real, threshold: real, hysteresis: real)
    requires hysteresis >= 0.0
    ensures PinchHeld(false, sq, threshold, hysteresis) ==> PinchHeld(true, sq, threshold, hysteresis)
    ensures threshold >= 0.0 && hysteresis > 0.0 && threshold * threshold <= sq < (threshold + hysteresis) * (threshold + hysteresis) ==>
      PinchHeld(true, sq, threshold, hysteresis) && !PinchHeld(false, sq, threshold, hysteresis)
  {
    if PinchHeld(false, sq, threshold, hysteresis) && hysteresis > 0.0 {
      SquareMonotone(threshold, threshold + hysteresis);
    }
  }

  /** On a true distance `dist` (with `dist * dist == sq`) the test is exactly
      `dist < threshold (+ hysteresis while drawing)`. */
  lemma PinchHeldIsDistanceTest(drawing: bool, dist: real, sq: real, threshold: real, hysteresis: real)
    requires dist >= 0.0 && dist * dist == sq
    ensures PinchHeld(drawing, sq, threshold, hysteresis) <==>
      dist < (if drawing then threshold + hysteresis else threshold)
  {
    SquaredComparisonsExact(dist, sq, if drawing then threshold + hysteresis else threshold);
  }
}
