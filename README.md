# AirDrawXR gesture-to-stroke core, in Dafny

AirDrawXR draws in the air with a pinch of thumb and index finger. A hand
tracker reports 21 landmarks per hand. A pinch detector turns the distance
between landmark 4 (thumb tip) and landmark 8 (index tip) into start, update
and stop events. Stroke builders turn those events into point lists kept in
step with a LineRenderer. The repository holds several parallel copies of
this logic. Each copy is modelled as written, with its own thresholds and
quirks:

| file | module | what it is |
|---|---|---|
| `vectors.dfy` | `Vectors` | Unity vector arithmetic over exact reals: clamped lerp, squared distances, the approximate `== zero` test |
| `pinch_events.dfy` | `PinchEvents` | the start/update/stop dispatch, the hysteresis pinch test, and the bracketing of starts by stops over any run |
| `line_drawing.dfy` | `LineDrawing` | `ardrawline`: the centre path (`createLineCenter` / `updateLineCenter`), the mouse path, and the "Draw"/"View" toggle |
| `legacy_hand_input.dfy` | `LegacyHandInput` | `ARHandInputHandler_og`: the visibility counter, landmark decoding and smoothing, mirroring, orientation, and the confidence-ramp pinch detector |
| `hand_input.dfy` | `HandInput` | `ARHandInputHandler`: the fixed-threshold pinch detector |
| `screen_strokes.dfy` | `ScreenStrokes` | the screen-space stroke shared by the two screen drawers: append-if-far decimation and the unprojected renderer positions |
| `mediapipe_drawing.dfy` | `MediaPipeDrawing` | `StandaloneMediaPipeDrawing`: pinch-to-draw on the screen with a drawing-mode toggle |
| `hand_drawing.dfy` | `HandDrawing` | `HandDrawingController`: a pinch placed in the world relative to the AR camera, driving `ardrawline` |
| `screen_drawing.dfy` | `ScreenDrawing` | `ScreenDrawingWithGestures`: follows `HandDrawingController` and draws on the screen |
| `mode_switching.dfy` | `ModeSwitching` | `DrawingModeSwitcher`: 3D/2D manager activation |

## Modelling choices

- **Numbers.**
  - Coordinates are `real`.
  - `Vector3.Distance(a, b) < d` is written `DistLess(SqrDist3(a, b), d)`, which is `d > 0 && |a-b|² < d²`.
  - `Distance > d` is written `DistGreater`, which is `d < 0 || |a-b|² > d²`.
  - `Vectors.SquaredComparisonsExact` proves these agree with the comparisons on the true distance.
- **Unity semantics.**
  - Unity's `v == Vector3.zero` is approximate: the squared magnitude is below 1e-10. It is modelled by `ApproxZero2` / `ApproxZero3`.
  - `Mathf.Lerp` / `Vector3.Lerp` clamp the parameter to [0,1].
- **Per-frame inputs are parameters.** These are:
  - `Time.deltaTime`;
  - the screen size;
  - the device orientation;
  - the camera poses;
  - the tracker's landmark lists, where `None` stands for a null result.
- **Engine projections are function-valued parameters.**
  - `ViewportToWorldPoint`, `ScreenToWorldPoint` and `WorldToScreenPoint` are `Vec3 -> Vec3` parameters.
  - The camera's `nearClipPlane` is a parameter.
  - The mouse ray point (`computeScreenToWorld`) is a parameter.
- **A LineRenderer** is the sequence of its positions. `positionCount` is the length of that sequence.
- **Whether a prefab carries a LineRenderer.**
  - For the screen drawers it is a constant, `prefabHasRenderer`, and both branches are modelled.
  - For `ardrawline` the prefab is taken to carry one.
- **Classes and state.** Components that mutate their fields are classes with `modifies` clauses. A component that holds a reference to another keeps it as a `const` field and modifies that object too, as `HandDrawingController` does with `ardrawline`.
- **Pinch events.** `ARHandInputHandler.DetectGesture`, and `ARHandInputHandler_og.DetectGesture` when it has a drawer, return the call they made on the drawer as a `PinchCall`, and each of their steps agrees with `PinchEvents.StepAgrees`. `PinchEvents.EveryStartClosedAtMostOnce` then bounds starts against stops over any run of them. `HandDrawingController` and `StandaloneMediaPipeDrawing` return no call; their contracts state the drawer's or the stroke's new state directly. Without a drawer, `ARHandInputHandler_og.DetectGesture` returns `NoCall` even when `isPinching` changes.
- **Landmark tensor layout.** `ExtractLandmarks` reads `tensor[0, 0, c, i]` of a (1, 1, 3, 21) tensor. That is flat offset `c * 21 + i`.

## Model

| member | source | states |
|---|---|---|
| Vectors.Midpoint3 | Assets/Scripts/ARHandInputHandler.cs:25 | the pinch point `(a + b) * 0.5` is equidistant from both fingertips: the two offsets cancel |
| Vectors.Clamp01 | Assets/Scripts/ARHandInputHandler_og.cs:499 | `Mathf.Clamp01` lies in [0,1], is the identity on [0,1], and saturates below 0 and above 1 |
| Vectors.SquaredComparisonsExact | Assets/Scripts/ardrawline.cs:79 | for a non-negative distance whose square is `sq`, the squared tests are exactly `Distance < d` and `Distance > d` |
| Vectors.LerpBetween | Assets/Scripts/ARHandInputHandler_og.cs:503 | a clamped lerp stays between its ends, and its remaining gap to `b` is `(a - b)(1 - t)` |
| Vectors.Lerp3Residual | Assets/Scripts/HandDrawingController.cs:162 | lerping with weight `1 - s` leaves exactly the fraction `s` of the gap to the target, per component |
| PinchEvents.Dispatch | Assets/Scripts/ARHandInputHandler_og.cs:443-473 | start exactly on a false-to-true change, update exactly on true-to-true, stop exactly on true-to-false; start and update carry the given position |
| PinchEvents.DispatchAgrees | Assets/Scripts/ARHandInputHandler_og.cs:443-473 | the dispatch satisfies the per-frame agreement between state change and call |
| PinchEvents.StartsMinusStops | Assets/Scripts/ARHandInputHandler_og.cs:443-473 | over any run that agrees step by step, starts minus stops equals the net change of the pinch state |
| PinchEvents.EveryStartClosedAtMostOnce | Assets/Scripts/ARHandInputHandler.cs:20-38 | from a released state, stops ≤ starts ≤ stops + 1, and one start is open exactly when the detector ends pinching |
| PinchEvents.HysteresisWidensRelease | Assets/Scripts/StandaloneMediaPipeDrawing.cs:176-178 | with hysteresis ≥ 0, a distance that starts a pinch also holds one; a distance in [t, t+h) holds a stroke but does not start one |
| PinchEvents.PinchHeldIsDistanceTest | Assets/Scripts/HandDrawingController.cs:138-140 | the squared pinch test is exactly `distance < threshold + hysteresis` while drawing and `distance < threshold` otherwise |
| LineDrawing.SpawnPositionFollowsPinch | Assets/Scripts/ardrawline.cs:120-135 | the spawn point is the pinch itself exactly when the pinch is not within 1e-5 of the world origin (or happens to equal camera + forward); a pinch at the origin is drawn at camera position + forward, whose squared distance from the camera is that of `forward` |
| LineDrawing.CentreExtendAppendsOnlyFarPoints | Assets/Scripts/ardrawline.cs:63-90 | an empty list restarts at `[p]`; otherwise `p` is appended iff it is more than 0.01 from the last point, else nothing changes; the list only grows by at most one and stays decimated |
| LineDrawing.MouseExtendAppendsOnlyFarPoints | Assets/Scripts/ardrawline.cs:176-185 | an empty list is left alone (the source throws); otherwise `p` is appended iff it is more than 0.01 from the last point, else nothing changes; the list grows by at most one and decimation is kept |
| LineDrawing.ToggleModeInvolution | Assets/Scripts/ardrawline.cs:194-206 | "View" turns drawing off and shows "Draw", "Draw" turns it on and shows "View", other text changes nothing; toggling twice restores the state |
| LineDrawing.ArDrawLine.constructor | Assets/Scripts/ardrawline.cs:11-34 | an empty list, no renderer, drawing off, label "Draw" |
| LineDrawing.ArDrawLine.CreateLineCenter | Assets/Scripts/ardrawline.cs:92-118 | the list becomes `[p]` and the renderer `[p, p]`, so `positionCount == list.Count + 1`; one more line object exists |
| LineDrawing.ArDrawLine.UpdateLineCenter | Assets/Scripts/ardrawline.cs:63-90 | the list follows `CentreExtend`; an empty list resets the renderer to `[p, p]`; otherwise the renderer grows by `p` exactly when the list does; `positionCount == list.Count + 1` is preserved |
| LineDrawing.ArDrawLine.HandleDrawing | Assets/Scripts/ardrawline.cs:194-206 | mode and label follow `ToggleMode`; the stroke is untouched |
| LineDrawing.ArDrawLine.StartPinchDrawing | Assets/Scripts/ardrawline.cs:214-218 | `spawnPos` becomes the position and a centre line starts: a pinch away from the origin gives list `[position]` and renderer `[position, position]`, a pinch within 1e-5 of the origin starts the line at camera + forward |
| LineDrawing.ArDrawLine.UpdatePinchDrawing | Assets/Scripts/ardrawline.cs:220-224 | `spawnPos` becomes the position, then the centre line is extended toward it |
| LineDrawing.ArDrawLine.StopPinchDrawing | Assets/Scripts/ardrawline.cs:226-229 | no state changes |
| LineDrawing.ArDrawLine.Update | Assets/Scripts/ardrawline.cs:37-59 | out of draw mode nothing changes; a press creates a line, holding extends it, releasing clears the list, and only a press touches the renderer flag; a hold on an empty list (where the source throws before changing anything) leaves the state as it was |
| LineDrawing.ArDrawLine.CreateLine | Assets/Scripts/ardrawline.cs:139-174 | a new line whose two renderer positions are the mouse point; the point is appended twice to the uncleared list |
| LineDrawing.ArDrawLine.UpdateLine | Assets/Scripts/ardrawline.cs:176-185 | the mouse point is appended to the list and the renderer exactly when it is more than 0.01 from the last point |
| LegacyHandInput.ExtractedFrame | Assets/Scripts/ARHandInputHandler_og.cs:338-387 | the extracted frame always has 21 landmarks |
| LegacyHandInput.SmoothingContracts | Assets/Scripts/ARHandInputHandler_og.cs:362-369 | one smoothing step shrinks the squared distance to the new sample by exactly 0.85², and a repeated sample is a fixed point |
| LegacyHandInput.HandednessMirrorInvolution | Assets/Scripts/ARHandInputHandler_og.cs:390-408 | handType > 0.5 maps x to 1 - x and keeps y and z; otherwise the identity; applying it twice restores the landmark |
| LegacyHandInput.ReorientProperties | Assets/Scripts/ARHandInputHandler_og.cs:509-533 | z is preserved; portrait and other orientations are the identity; upside-down is an involution; the landscape remaps invert each other; the unit square maps into itself |
| LegacyHandInput.AdjustedFrame | Assets/Scripts/ARHandInputHandler_og.cs:167-170 | mirroring and reorienting keep the number of landmarks |
| LegacyHandInput.StabilizeDepth | Assets/Scripts/ARHandInputHandler_og.cs:496-506 | x and y pass through; the depth lies between 0.3 and the raw depth; it is 0.3 at confidence ≤ 0 and the raw depth at confidence ≥ 2 |
| LegacyHandInput.VisibleCountBounds | Assets/Scripts/ARHandInputHandler_og.cs:152-160 | the counter stays in [0,15]; a score above 0.35 resets it to 15, otherwise it drops by one with a floor of 0; it is positive after the frame iff the score was high or it held more than one |
| LegacyHandInput.VisibilityOutlastsDropouts | Assets/Scripts/ARHandInputHandler_og.cs:152-160 | k low-score frames leave max(0, count - k), so the hand stays visible for 14 dropouts after a confident frame |
| LegacyHandInput.ConfidenceStaysInUnitInterval | Assets/Scripts/ARHandInputHandler_og.cs:437-440 | the confidence stays in [0,1]; below the threshold it rises by dt·5 (capped); beyond threshold + hysteresis it falls by dt·5 (floored); in the band it is exactly unchanged |
| LegacyHandInput.HeldPinchRampsUp | Assets/Scripts/ARHandInputHandler_og.cs:437-438 | over any run of pinched detecting frames the confidence is min(1, c + 5 · the summed `Time.deltaTime` of those frames) |
| LegacyHandInput.ReleasedPinchRampsDown | Assets/Scripts/ARHandInputHandler_og.cs:439-440 | over any run of open detecting frames the confidence is max(0, c - 5 · the summed `Time.deltaTime` of those frames) |
| LegacyHandInput.DeadBandHoldsConfidence | Assets/Scripts/ARHandInputHandler_og.cs:436-443 | over any run of frames inside the hysteresis band the confidence, and so the pinch state, never moves |
| LegacyHandInput.PinchStartsAfterATenthOfASecond | Assets/Scripts/ARHandInputHandler_og.cs:437-443 | from confidence 0, a held pinch is on exactly when the summed `Time.deltaTime` of the detecting frames exceeds 0.1 (frames skipped while an image is processed do not count) |
| LegacyHandInput.ReshapedFrame | Assets/Scripts/ARHandInputHandler_og.cs:535-575 | whatever the tensor length, 21 landmarks come out |
| LegacyHandInput.ReshapeLosesNothing | Assets/Scripts/ARHandInputHandler_og.cs:540-560 | for 63 values, flattening the reshaped landmarks gives back the tensor; for 42 values the same holds for x,y, and depth is 0 |
| LegacyHandInput.ARHandInputHandlerOg.constructor | Assets/Scripts/ARHandInputHandler_og.cs:24-43 | not pinching, confidence 0, counter 0, no smoothing history |
| LegacyHandInput.ARHandInputHandlerOg.ExtractLandmarks | Assets/Scripts/ARHandInputHandler_og.cs:338-387 | the array holds (x, 1 - y, z), lerped from the previous frame by 0.15 once a history exists, and becomes the history; any other length gives 21 × (0.5, 0.5, 0) and keeps the history |
| LegacyHandInput.ARHandInputHandlerOg.AdjustForHandType | Assets/Scripts/ARHandInputHandler_og.cs:390-408 | every array element becomes its handed (mirrored for a right hand) value |
| LegacyHandInput.ARHandInputHandlerOg.CompensateForDeviceOrientation | Assets/Scripts/ARHandInputHandler_og.cs:509-533 | every array element becomes its reoriented value |
| LegacyHandInput.ARHandInputHandlerOg.DetectGesture | Assets/Scripts/ARHandInputHandler_og.cs:429-474 | the confidence takes one ramp step, `isPinching == confidence > 0.5`, and the drawer receives the dispatch of the old and new state at the projected midpoint of landmarks 4 and 8 (nothing without a drawer), whose `spawnPos` becomes that point on a start or an update, so with a drawer the step agrees with `StepAgrees`; a start opens a consistent centre line and counts one more line, an extend keeps a consistent line consistent and the line count, and neither touches the draw mode or its label; invariants are kept |
| LegacyHandInput.ARHandInputHandlerOg.TrackVisibleHand | Assets/Scripts/ARHandInputHandler_og.cs:167-174 | the detector runs on the extracted, mirrored and reoriented frame: one ramp step, the dispatched call, `pinchPosition` set to the frame's pinch midpoint on start and update, the drawer's new list, `spawnPos` (the call's point on a start or an update), line count and kept draw mode (untouched on stop or no call); a 63-value tensor makes the extracted, unmirrored frame the new smoothing history, any other length keeps the history |
| LegacyHandInput.ARHandInputHandlerOg.ProcessInference | Assets/Scripts/ARHandInputHandler_og.cs:149-174 | the counter takes one step; while the hand is not visible no call is made and the pinch state, pinch position, history and drawer are kept; while visible the confidence, call, pinch position, smoothing history and drawer state (list, `spawnPos`, line count, draw mode) are those of the visible-hand pipeline |
| LegacyHandInput.ARHandInputHandlerOg.ReshapeAndExtractLandmarks | Assets/Scripts/ARHandInputHandler_og.cs:535-575 | a fresh array equal to `ReshapedFrame`: xyz triples for 63 values, xy pairs for 42, x/224 for 21 to 62, zeros otherwise |
| HandInput.GestureStepCases | Assets/Scripts/ARHandInputHandler.cs:11-39 | null or short input changes nothing and calls nothing; a distance < 0.02 starts when released and updates when pinching, at the midpoint; otherwise it stops only when pinching; every frame agrees with its state change |
| HandInput.RunIsTrace | Assets/Scripts/ARHandInputHandler.cs:11-39 | any run of frames yields a state sequence and call sequence that agree step by step |
| HandInput.EachStartStoppedAtMostOnce | Assets/Scripts/ARHandInputHandler.cs:20-38 | over any run from a released handler, each start is matched by at most one stop, and one start is open exactly when the handler ends pinching |
| HandInput.ARHandInputHandler.constructor | Assets/Scripts/ARHandInputHandler.cs:6-9 | not pinching, bound to the given drawer |
| HandInput.ARHandInputHandler.DetectGesture | Assets/Scripts/ARHandInputHandler.cs:11-39 | state and call follow `GestureStep`; the drawer's `spawnPos` becomes the midpoint on a start or an update, and the drawer starts a consistent centre line there (one more line created) or extends it (a consistent line stays consistent, the line count is kept); the draw mode and its label are kept, and the drawer is untouched on stop or no call |
| ScreenStrokes.AppendIfFarKeepsSpacing | Assets/Scripts/StandaloneMediaPipeDrawing.cs:265-272 | points are only appended, one at a time, exactly to an empty stroke or beyond the minimum distance from its end; spacing is preserved |
| ScreenStrokes.Unprojected | Assets/Scripts/StandaloneMediaPipeDrawing.cs:286-292 | there is one renderer position per point |
| ScreenStrokes.UnprojectedAt | Assets/Scripts/ScreenDrawingWithGestures.cs:106-110 | renderer position i is point i unprojected, so earlier points keep their place and order |
| MediaPipeDrawing.ScreenSpaceRoundTrip | Assets/Scripts/StandaloneMediaPipeDrawing.cs:214-224 | (x·W, (1 - y)·H) is inverted by the pixel-to-normalised map on a positive screen, and the unit square maps into the screen |
| MediaPipeDrawing.SmoothScreenKeepsFraction | Assets/Scripts/StandaloneMediaPipeDrawing.cs:191-194 | a zero smoothed position takes the sample; otherwise the fraction `positionSmoothing` of the gap remains, so a stale non-zero position moves the next point off the sample |
| MediaPipeDrawing.StandaloneMediaPipeDrawing.constructor | Assets/Scripts/StandaloneMediaPipeDrawing.cs:43-89 | the given settings, no line, no points, drawing disabled |
| MediaPipeDrawing.StandaloneMediaPipeDrawing.ToggleDrawingMode | Assets/Scripts/StandaloneMediaPipeDrawing.cs:107-118 | `drawingEnabled` is negated; switching off mid-stroke ends it and resets the pinch history and smoothed position |
| MediaPipeDrawing.StandaloneMediaPipeDrawing.StopLine | Assets/Scripts/StandaloneMediaPipeDrawing.cs:274-278 | only `isDrawing` changes, to false |
| MediaPipeDrawing.StandaloneMediaPipeDrawing.AddPoint | Assets/Scripts/StandaloneMediaPipeDrawing.cs:280-293 | the point is appended and every renderer position is rewritten as its point unprojected at near plane + depth offset |
| MediaPipeDrawing.StandaloneMediaPipeDrawing.StartLine | Assets/Scripts/StandaloneMediaPipeDrawing.cs:227-263 | a new line is recorded; with a renderer the stroke is exactly this point and drawing starts; without one, points and drawing state stay |
| MediaPipeDrawing.StandaloneMediaPipeDrawing.UpdateLine | Assets/Scripts/StandaloneMediaPipeDrawing.cs:265-272 | points follow `AppendIfFar` with `minPointDistance`, and the renderer is rewritten only when a point was added |
| MediaPipeDrawing.StandaloneMediaPipeDrawing.DetectPinchGesture | Assets/Scripts/StandaloneMediaPipeDrawing.cs:141-212 | without 21 landmarks the stroke stops, the hand is not visible, and nothing else changes (points, renderer, spawned lines, pinch position, smoothing); a hysteresis pinch in drawing mode smooths the screen midpoint and starts the stroke, spawning one line whose line flag is `prefabHasRenderer` (with a renderer: exactly that point; without one nothing opens and the stroke stays) or extends it (points by `AppendIfFar`, renderer rewritten only on an append); otherwise an open stroke stops and resets the smoothing, and the points, spawned lines and pinch position are kept |
| MediaPipeDrawing.StandaloneMediaPipeDrawing.ClearAllDrawings | Assets/Scripts/StandaloneMediaPipeDrawing.cs:313-338 | not drawing and no recorded lines afterwards; a stroke in progress resets the pinch history and smoothing |
| HandDrawing.TransformIsAffine | Assets/Scripts/HandDrawingController.cs:183-209 | every combination `a·l + b·(1 - l)` of hand positions maps to the same combination of their world positions; so the hand origin maps to the camera position and midpoints map to midpoints |
| HandDrawing.TransformRoundTrip | Assets/Scripts/HandDrawingController.cs:183-209 | for an orthonormal camera basis, reading the world point back off the axes restores the hand position |
| HandDrawing.SmoothWorldKeepsFraction | Assets/Scripts/HandDrawingController.cs:155-163 | the first sample is taken verbatim; later samples leave the fraction `smoothingFactor` of the gap |
| HandDrawing.HandDrawingController.constructor | Assets/Scripts/HandDrawingController.cs:28-42 | the given settings, not drawing, no smoothing history |
| HandDrawing.HandDrawingController.StartDrawing | Assets/Scripts/HandDrawingController.cs:211-217 | drawing starts and the drawer begins a consistent centre line at `drawPosition`, one more line created, draw mode and label kept |
| HandDrawing.HandDrawingController.UpdateDrawing | Assets/Scripts/HandDrawingController.cs:272-291 | while drawing, the drawer's centre line is extended toward `drawPosition`, a consistent line stays consistent, and its line count, draw mode and label are kept; otherwise nothing changes |
| HandDrawing.HandDrawingController.StopDrawing | Assets/Scripts/HandDrawingController.cs:293-304 | `isDrawing` and `hasPreviousPosition` become false |
| HandDrawing.HandDrawingController.DetectPinchGesture | Assets/Scripts/HandDrawingController.cs:89-181 | a missing or incomplete hand stops the stroke and draws nothing; a hysteresis pinch smooths the world midpoint into `drawPosition` and starts a consistent line (one more line created) or extends the line (a consistent line stays consistent, the count is kept), keeping the draw mode and label; otherwise the stroke stops; `hasPreviousPosition == isDrawing` is kept |
| ScreenDrawing.ScreenDrawingWithGestures.constructor | Assets/Scripts/ScreenDrawingWithGestures.cs:10-14 | no line, no points |
| ScreenDrawing.ScreenDrawingWithGestures.Update | Assets/Scripts/ScreenDrawingWithGestures.cs:34-61 | while the hand draws, a missing line is started at the projected draw position (without a renderer the points and renderer are kept) and an existing one is extended; otherwise the line is let go |
| ScreenDrawing.ScreenDrawingWithGestures.StartLine | Assets/Scripts/ScreenDrawingWithGestures.cs:63-83 | a new line object; with a renderer the stroke is exactly this point |
| ScreenDrawing.ScreenDrawingWithGestures.UpdateLine | Assets/Scripts/ScreenDrawingWithGestures.cs:85-92 | points follow `AppendIfFar` with 10 px, and the renderer is rewritten only when a point was added |
| ScreenDrawing.ScreenDrawingWithGestures.StopLine | Assets/Scripts/ScreenDrawingWithGestures.cs:94-98 | the current line is forgotten, so the next drawing frame starts a new one |
| ScreenDrawing.ScreenDrawingWithGestures.AddPoint | Assets/Scripts/ScreenDrawingWithGestures.cs:100-113 | the point is appended and every renderer position is rewritten as its point unprojected at the near plane |
| ModeSwitching.ActiveFlags | Assets/Scripts/DrawingModeSwitcher.cs:14-26 | exactly one manager is active in each mode, the 3D one in 3D mode |
| ModeSwitching.DrawingModeSwitcher.Start | Assets/Scripts/DrawingModeSwitcher.cs:8-12 | the switcher starts in 3D mode |
| ModeSwitching.DrawingModeSwitcher.Set3DDrawingMode | Assets/Scripts/DrawingModeSwitcher.cs:14-19 | the screen manager is inactive and, for two distinct managers, the 3D one is active, whatever the previous state (idempotent, last call wins) |
| ModeSwitching.DrawingModeSwitcher.Set2DDrawingMode | Assets/Scripts/DrawingModeSwitcher.cs:21-26 | the screen manager is active and, for two distinct managers, the 3D one is inactive, whatever the previous state |

## Left out

- Neural-network inference, camera-image conversion, coroutines and the sigmoid score normalisation of `ARHandInputHandler_og` are not modelled. The normalised score and the landmark tensor are inputs.
- `ShowLandmarks` / `HideLandmarks`, UI text, buttons and `Debug.Log` only display state.
- Materials, widths, colours and shader tweaks are left out. This includes the renderer checks in `HandDrawingController.StartDrawing`.
- `Destroy` in `ClearAllDrawings` is not modelled: the model only clears the list of line objects. Destroyed objects are not modelled.
- `HandLandmarkManager.cs` is entirely commented out.
- `MediaPipeExtensions.cs` is reflection over a tracker field. The landmark lists it returns are inputs here.
- `CustomGpuManager.cs` is GPU resource setup.
- `Start` methods that disable a component on a missing reference are left out. Every reference is assumed assigned, and each handler takes a non-null drawer. The exception is `ARHandInputHandler_og`, which checks its drawer and whose drawer may be null.
- `ardrawline` prefabs are assumed to carry a LineRenderer. The null-renderer branches of `createLineCenter` and `createLine` are not modelled.
- `ardrawline`'s `camRotation`, `camPos` and `camDirection` caches are left out. They only orient the spawned object.
- In `GetWorldPinchPosition`, the zero result for a missing AR camera is left out. The projection is a parameter.
- IEEE float rounding is not modelled: coordinates are exact reals.
- LegacyHandInput.ARHandInputHandlerOg.DetectGesture: requires `dt >= 0`, as `Time.deltaTime` always is.
- LineDrawing.ArDrawLine.Update: a held button with an empty list throws in the source (`list[list.Count - 1]`); the model leaves the state unchanged, which is what the exception leaves behind.
- LineDrawing.ArDrawLine.CreateLine: assumes the prefab's LineRenderer has `positionCount` 2. `createLine` never sets the count, unlike `createLineCenter`.
- LineDrawing.ArDrawLine.UpdateLineCenter: requires a renderer. The source would throw without one, and the callers only extend a line they started.
- `StabilizeDepth` is modelled as a function. Its only caller is `ShowLandmarks`, which places the landmark markers and is left out.

## Behaviour worth knowing

The model follows the code in each of these cases:

- A lost hand does not release an open pinch in `ARHandInputHandler_og`. While the visibility counter is zero, neither the detector nor `StopPinchDrawing` runs, and an open pinch stays open (`ProcessInference`).
- `ARHandInputHandler` ignores input with fewer than 9 landmarks. It neither releases the pinch nor calls the drawer (`GestureStepCases`).
- `DrawingModeSwitcher` only toggles the two managers' active flags. A stroke in progress is not ended (`Set3DDrawingMode`, `Set2DDrawingMode`).
- `StandaloneMediaPipeDrawing` stops the stroke when the hand is lost, but keeps `hasPreviousPinch` and the smoothed screen position. The first point of the next stroke is therefore pulled toward where the last one ended (`SmoothScreenKeepsFraction`).
- `ardrawline` treats a pinch within 1e-5 of the world origin as "no spawn position set" and draws it one unit in front of the camera (`SpawnPositionFollowsPinch`).
