# sledenje-objektom-2 — a Dafny model of the tracker core

This model covers the core of an ArUco tag tracker. The tracker detects tags in camera frames, turns each tag's four corners into a centre and a heading point, and keeps one Kalman tracker per tag id. From frame to frame it creates, refreshes, times out and coasts those trackers. Once per frame it publishes a snapshot of id → (x, y, direction) together with the named playing fields. The fields are calibrated in a separate setup tool, where the user marks four corners per field with the mouse.

The model has these modules:

- **`Filter`**: the constant-acceleration Kalman step of both tracker classes. The state vectors are exact over `real`, and the matrix algebra is written out. The covariance inverse and `atan2` are uninterpreted parameters (`Numerics`).
- **`ObjectTracker`**: sledilnik/ObjectTracker.py. The class is `ObjectTracker.ObjectTracker`; its methods are proved against the value functions `Initial`, `Update`, `Filtered` and `Emit`.
- **`ClassesObjectTracker`**: sledilnik/classes/ObjectTracker.py and its `to_json`. It is proved to agree, step by step, with the first tracker.
- **`Markers`**: `getMassCenter` and `isValidPos`, from both Tracker/TrackerUtils.py and sledilnik/TrackerGame.py. The radial correction and the origin change are parameters.
- **`TrackManager`**: `track`, from both Tracker/TrackerUtils.py and sledilnik/TrackerGame.py. A class holds `map<int, ObjectTracker>` and runs three phases, each proved against a value-level specification (`ObserveAll`, `Prune`, `CoastAll`, composed as `TrackStep`). Lemmas state what one call of `track` does to each id.
- **`MapConfig`**: the calibration map and `parseFields`.
- **`Calibration`**: the click, key and end-of-edit transitions, on values, shared by both setup tools. The key code, the mouse event and the perspective transform are inputs.
- **`SetupUtils`**: Tracker/TrackerSetupUtils.py, driving the `Calibration` transitions through a map object and the shared `ResGUIText` object.
- **`TrackerSetup`**: sledilnik/TrackerSetup.py, plus its setup loop as a state machine over mouse events and frames.
- **`Resources`**: sledilnik/Resources.py. It covers the guide text, `ResGUIText`, `MovableObject` and `GameLiveData`.
- **`GameLiveData`**: sledilnik/classes/GameLiveData.py and sledilnik/classes/MovableObject.py.
- **`Json`**: the JSON values the serialisers produce, and Python's `str` of an integer with its inverse.

## Model

| member | source | states |
|---|---|---|
| `Filter.ProcessNoise` | sledilnik/ObjectTracker.py:34-39 | `Ex`, the table of the white-noise-acceleration model scaled by accNoiseMag²/3. Its properties are stated by `Filter.ProcessNoiseShape`, `Filter.ProcessNoiseEntries` and `Filter.ProcessNoiseDiagonal`. |
| `Filter.Predict` | sledilnik/ObjectTracker.py:56-57 | `Q ← A·Q` written out row by row. `Filter.PredictIsTransition` proves it equals the matrix product with A, and `Filter.PredictAtRest` that a state at rest is its fixed point. |
| `Filter.Correct` | sledilnik/ObjectTracker.py:65-69 | `Q ← Q + K·(z − C·Q)` written out row by row. A measurement equal to the predicted (x, y) leaves the state unchanged. `Filter.CorrectIsGainUpdate` proves the matrix form. |
| `Filter.Step` | sledilnik/ObjectTracker.py:55-71 | Without a measurement, both state vectors are only predicted. With one, each predicted vector is corrected by its own gain toward its half of the box: `q` toward (x, y) with the gain of `P`, `q2` toward the top point with the gain of `P2`. Both covariances are predicted and then reduced by the gain on every path. |
| `Filter.Emitted` | sledilnik/ObjectTracker.py:73-76 | A supplied measurement is emitted verbatim. Otherwise the emitted box is the predicted (x, y) of both filters. |
| `Filter.PredictIsTransition` | sledilnik/ObjectTracker.py:42-57 | The scalar prediction equals the matrix product `A·Q` with the constant-acceleration matrix `A`. |
| `Filter.TransitionRow` | sledilnik/ObjectTracker.py:42-43 | The position rows of `A·Q` give x + dt·vx + dt²/2·ax (and the same for y). |
| `Filter.TransitionVelocityRow` | sledilnik/ObjectTracker.py:44-45 | The velocity rows give v + dt·a. |
| `Filter.TransitionAccelerationRow` | sledilnik/ObjectTracker.py:46-47 | The acceleration rows keep a. |
| `Filter.CorrectIsGainUpdate` | sledilnik/ObjectTracker.py:66-69 | The correction is exactly `Q + K·(z − C·Q)`. |
| `Filter.MeasureColumn` | sledilnik/ObjectTracker.py:52-53 | `C·Q` picks out the position (x, y). |
| `Filter.PredictAtRest` | sledilnik/ObjectTracker.py:56-57 | A state with zero velocity and acceleration is a fixed point of prediction. |
| `Filter.ProcessNoiseShape` | sledilnik/ObjectTracker.py:34-41 | `Ex`, and so the initial `P` and `P2`, is a symmetric 6×6 matrix whose entries pairing an x component with a y component are zero. |
| `Filter.ProcessNoiseDiagonal` | sledilnik/ObjectTracker.py:34-39 | For a non-negative `dt`, every variance on the diagonal of `Ex` is non-negative. |
| `Filter.ProcessNoiseEntries` | sledilnik/ObjectTracker.py:34-39 | Every entry of `Ex` is the table's entry times accNoiseMag²/3. The first is dt⁵/20·accNoiseMag²/3 and the last is dt·accNoiseMag²/3. |
| `Filter.NoiseShapeEntries` | sledilnik/ObjectTracker.py:34-39 | The table of `Ex` is symmetric and 6×6, and is zero wherever x meets y. Its corners are dt⁵/20 and dt, and its diagonal is non-negative for a non-negative `dt`. |
| `ObjectTracker.Initial` | sledilnik/ObjectTracker.py:13-41 | The new tracker is detected and enabled, with `last_seen` and `lost_frames` at 0. `Q` is built from position[0:2], velocity[0:2] and accel[0:2]; `Q2` from indices 2..3. Both estimates equal their state vectors, and both covariances equal `Ex`. The id, position and velocity are the arguments, and the direction is the heading of the position. |
| `ObjectTracker.Filtered` | sledilnik/ObjectTracker.py:56-71 | The filter half of `updateState` is one `Filter.Step` and changes nothing else. |
| `ObjectTracker.Emit` | sledilnik/ObjectTracker.py:72-77 | The position is the measurement when one is given, and otherwise the predicted centre and top point. The filters are untouched. |
| `ObjectTracker.Update` | sledilnik/ObjectTracker.py:55-77 | `updateState` keeps `id`, `detected`, `enabled`, `last_seen` and `lost_frames`. Without a measurement the estimates are only predicted. With one, `qEstimate` is corrected toward (x, y) by the gain of `P`, and `qEstimate2` toward the top point by the gain of `P2`. Both covariances are predicted and reduced by their gains. It emits the measurement, or the `A`-predicted estimates. The velocity becomes the estimate's (vx, vy), and the direction is the heading of the new position. |
| `ObjectTracker.CoastWhileResting` | sledilnik/ObjectTracker.py:73-74 | A resting tracker coasted without a measurement stays at rest and emits the position it rests at. |
| `ObjectTracker.CoastedFromRestKeepsPosition` | sledilnik/ObjectTracker.py:19-22 | A tracker created with zero velocity and acceleration, then coasted any number of times, keeps its constructor position. |
| `ObjectTracker.CoastIsTransition` | sledilnik/ObjectTracker.py:56-57 | A prediction-only update multiplies both estimates by `A`. |
| `ObjectTracker.UpdateKeepsBookkeeping` | sledilnik/ObjectTracker.py:65-76 | `updateState` never changes the bookkeeping fields. With a measurement the position's centre is the measured centre; without one it is the predicted centre. |
| `ObjectTracker.ObjectTracker.constructor` | sledilnik/ObjectTracker.py:13-53 | The object's state is `Initial` of the arguments. |
| `ObjectTracker.ObjectTracker.UpdateState` | sledilnik/ObjectTracker.py:55-77 | The new state is `Update` of the old state. |
| `ObjectTracker.ObjectTracker.StepFilters` | sledilnik/ObjectTracker.py:56-71 | The filter assignments leave the state at `Filtered` of the old state. |
| `ObjectTracker.ObjectTracker.EmitPosition` | sledilnik/ObjectTracker.py:72-77 | The velocity, position and direction assignments leave the state at `Emit` of the old state. |
| `ClassesObjectTracker.Initial` | sledilnik/classes/ObjectTracker.py:15-52 | The position is `Point(position[0], position[1])` and `bounding_box` is the full tuple. The flags are set and the counters are 0. `q` and `q2` come from the two halves of the box, and `p` and `pw` equal `ex`. The id and velocity are the arguments, and the direction is the heading of the box. |
| `ClassesObjectTracker.Filtered` | sledilnik/classes/ObjectTracker.py:80-97 | The filter half of `update_state` is one `Filter.Step` (prediction only without a measurement, covariances always updated). It changes nothing but `q`, `q2`, `p` and `pw`. |
| `ClassesObjectTracker.Emit` | sledilnik/classes/ObjectTracker.py:98-106 | `bounding_box` is the measurement when given, and otherwise the predicted (x, y) of `q` and `q2`. The position is its first two coordinates, the velocity is (q[2], q[3]), the direction is the box's heading, and the filters are untouched. |
| `ClassesObjectTracker.Update` | sledilnik/classes/ObjectTracker.py:79-106 | Without a measurement `q` and `q2` are only predicted. With one, `q` is corrected toward (x, y) by the gain of `p`, and `q2` toward the top point by the gain of `pw`. Both covariances are predicted and reduced by their gains. The bounding box is the measurement when given, and otherwise `(q[0], q[1], q2[0], q2[1])` after prediction. The bookkeeping is unchanged, the velocity is (q[2], q[3]), and the direction is the heading of the new box. |
| `ClassesObjectTracker.ToJson` | sledilnik/classes/ObjectTracker.py:108-113 | The output has exactly `id`, `position` and `dir`. `id` is the tracker's id as an integer. The position is the box's first two coordinates, and `dir` converts back to the direction through ·π/180. |
| `ClassesObjectTracker.InitialAgrees` | sledilnik/classes/ObjectTracker.py:15-31 | Built from the same arguments, this constructor and the one of sledilnik/ObjectTracker.py give agreeing trackers. |
| `ClassesObjectTracker.UpdateAgrees` | sledilnik/classes/ObjectTracker.py:79-106 | `update_state` keeps two agreeing trackers agreeing. |
| `ClassesObjectTracker.CoastAtRest` | sledilnik/classes/ObjectTracker.py:80-81 | A tracker at rest, coasted, keeps `q` and `q2` and reports their positions. |
| `ClassesObjectTracker.ObjectTracker.constructor` | sledilnik/classes/ObjectTracker.py:15-77 | The object's state is `Initial` of the arguments. |
| `ClassesObjectTracker.ObjectTracker.UpdateState` | sledilnik/classes/ObjectTracker.py:79-106 | The new state is `Update` of the old state. |
| `ClassesObjectTracker.ObjectTracker.StepFilters` | sledilnik/classes/ObjectTracker.py:80-97 | The filter assignments leave `Filtered` of the old state. |
| `ClassesObjectTracker.ObjectTracker.EmitPosition` | sledilnik/classes/ObjectTracker.py:98-106 | The box, velocity, position and direction assignments leave `Emit` of the old state. |
| `Markers.MarkerBox` | Tracker/TrackerUtils.py:170-171 | The centre is the corrected mean of the four corners. The top point is the corrected mean of corners 0 and 1. |
| `Markers.GetMassCenter` | Tracker/TrackerUtils.py:144-174 | There is one entry per corner set, in input order. Entry i carries `ids[i][0]` and the `MarkerBox` of set i. sledilnik/TrackerGame.py:103-133 is the same loop. |
| `Markers.IsValidPos` | Tracker/TrackerUtils.py:177-181 | Both coordinates lie within their limits, ends included. Its properties are stated by `Markers.IsValidPosInclusive` and `Markers.DefaultLimitsCorners`. |
| `Markers.IsValidPosInclusive` | Tracker/TrackerUtils.py:177-181 | `isValidPos` accepts both ends of both ranges and rejects everything outside them. sledilnik/TrackerGame.py:135-140 is the same test. |
| `Markers.DefaultLimitsCorners` | sledilnik/Resources.py:137-141 | With `ResObjects`' limits, the four corners of the rectangle are valid and points one unit outside are not. |
| `Markers.CentroidRotationInvariant` | Tracker/TrackerUtils.py:170 | The centre depends neither on which corner the detector lists first nor on the direction in which it lists them. |
| `Markers.CentroidBalances` | Tracker/TrackerUtils.py:171 | The centre balances the four corners, and the top point is the midpoint of corners 0 and 1. |
| `Markers.UncorrectedBox` | sledilnik/TrackerGame.py:129-130 | With identity correction, the box is exactly the raw centre and top point. |
| `Json.NatToString` | sledilnik/classes/GameLiveData.py:19 | `str` of a natural number is a non-empty digit string, with no leading zero unless the number is 0. |
| `Json.IntToString` | sledilnik/classes/GameLiveData.py:18-19 | `str` of an integer is non-empty. |
| `Json.NatRoundTrip` | sledilnik/classes/GameLiveData.py:17-20 | Parsing the decimal string of a natural number gives the number back. |
| `Json.IntRoundTrip` | sledilnik/classes/GameLiveData.py:16-19 | Parsing `str(i)` gives `i` back, for negative `i` too. |
| `Json.IntToStringInjective` | sledilnik/classes/GameLiveData.py:16-20 | Distinct ids have distinct keys. |
| `TrackManager.KalmanSound` | sledilnik/ObjectTracker.py:28-31 | The Kalman trackers keep the bookkeeping fields on update and start at the observation with flags set and counters 0. These are the only facts about trackers the `track` lemmas use. |
| `TrackManager.NewTrack` | Tracker/TrackerUtils.py:204-205 | Unstamped, as written, a new tracker is exactly the constructor's (`last_seen` 0). Stamped, as corrected, its `last_seen` is the current frame. |
| `TrackManager.Observe` | Tracker/TrackerUtils.py:185-205 | Observing one tag adds exactly its id to the keys. |
| `TrackManager.ObserveAll` | sledilnik/TrackerGame.py:40-49 | After the first loop, the keys are the old keys plus the observed ids. |
| `TrackManager.ObserveAllEntries` | Tracker/TrackerUtils.py:188-192 | Unobserved entries are untouched, and every observed id ends detected. |
| `TrackManager.ObserveAllLastSeen` | Tracker/TrackerUtils.py:186-205 | An observed id's `last_seen` is the frame when it was known before, was observed twice, or is stamped. Otherwise it is 0. |
| `TrackManager.ObserveAllPosition` | sledilnik/TrackerGame.py:43-49 | An id observed for the last time at index i holds exactly that observation's position. |
| `TrackManager.Stale` | Tracker/TrackerUtils.py:209 | The deletion test of the second loop: past the timeout since `last_seen`, or outside the valid rectangle. |
| `TrackManager.Prune` | Tracker/TrackerUtils.py:207-211 | The second loop keeps exactly the entries that are not stale, each unchanged. |
| `TrackManager.Coast` | Tracker/TrackerUtils.py:214-219 | After one iteration of the third loop the tracker is undetected. A tracker detected in this call only has its flag cleared. `TrackManager.TrackStepCoasts` states the undetected case. |
| `TrackManager.CoastAll` | Tracker/TrackerUtils.py:213-219 | The third loop keeps every key and leaves no tracker marked detected. |
| `TrackManager.TrackStep` | Tracker/TrackerUtils.py:184-219 | One call of `track` ends with keys among the old keys and the observed ids, and with no tracker marked detected. `TrackManager.TrackStepKeys`, `TrackManager.TrackStepSurvivors` and `TrackManager.TrackStepCoasts` state the rest. |
| `TrackManager.TrackStepKeys` | Tracker/TrackerUtils.py:207-210 | A key survives `track` exactly when it was known or observed and is neither timed out nor outside the valid rectangle. The final keys are a subset of the old keys plus the observed ids. |
| `TrackManager.TrackStepSurvivors` | Tracker/TrackerUtils.py:208-211 | Every survivor has `frame − last_seen ≤ timeout` and a valid position. |
| `TrackManager.TrackStepCoasts` | Tracker/TrackerUtils.py:213-219 | Every survivor ends undetected. A detected one is otherwise unchanged. An undetected one gets `lost_frames + 1` and exactly one prediction-only update, and keeps `last_seen`. |
| `TrackManager.KnownObservedRemovedOnlyByBounds` | Tracker/TrackerUtils.py:188-210 | A known id observed this frame gets `last_seen = frame`, and survives exactly when its observed centre is valid. |
| `TrackManager.NewTagDropped` | Tracker/TrackerUtils.py:204-210 | As written, a tag seen once for the first time after frame `timeout` is deleted in the same call. |
| `TrackManager.FirstSeenAtFrame51Dropped` | sledilnik/TrackerGame.py:48-55 | Concretely: tag 7 first seen at frame 51 with timeout 50 leaves no tracker at all. |
| `TrackManager.StampedTagSurvives` | sledilnik/ObjectTracker.py:30 | With `last_seen` stamped at creation, an observed tag survives exactly when its centre is valid. |
| `TrackManager.NewTagNotCoasted` | sledilnik/TrackerGame.py:48-63 | A tag created in this call is not coasted: it keeps its observed state, ends undetected, and has `lost_frames` 0. |
| `TrackManager.NewTrackAfterObserveAll` | sledilnik/TrackerGame.py:49 | A newly created entry has `lost_frames` 0 after the first loop. |
| `TrackManager.UnobservedCoasts` | sledilnik/TrackerGame.py:59-64 | A surviving unobserved entry keeps id, `enabled` and `last_seen`. It gets `lost_frames + 1` and one prediction-only update, and ends undetected. |
| `TrackManager.UnobservedTimeout` | sledilnik/TrackerGame.py:52-55 | With no observations and a valid position, an entry survives exactly when `frame − last_seen ≤ timeout`. |
| `TrackManager.DuplicateInOneFrame` | sledilnik/TrackerGame.py:40-49 | A new id observed twice in one frame is created by the first observation and updated by the second. |
| `TrackManager.ObserveAllKeyed` | sledilnik/TrackerGame.py:43-49 | If every tracker is stored under its own id before the first loop, that holds after it. |
| `TrackManager.TrackStepKeyed` | sledilnik/TrackerGame.py:39-64 | `track` keeps every tracker stored under its own id. |
| `TrackManager.Refresh` | Tracker/TrackerUtils.py:189-192 | `updateState(position)` with `detected`, `enabled` and `last_seen` set, as one tracker-level step. |
| `TrackManager.CoastTracker` | Tracker/TrackerUtils.py:215-219 | `lost_frames + 1`, one prediction-only update, and `detected` cleared. |
| `TrackManager.TrackManager.constructor` | sledilnik/TrackerGame.py:180 | The dictionary of trackers starts empty. |
| `TrackManager.TrackManager.ObserveOne` | Tracker/TrackerUtils.py:185-205 | One observation changes the dictionary as `Observe`. |
| `TrackManager.TrackManager.RefreshKnown` | Tracker/TrackerUtils.py:188-192 | A known id's tracker is refreshed in place. No other entry changes. |
| `TrackManager.TrackManager.AddNew` | Tracker/TrackerUtils.py:204-205 | A fresh tracker is inserted under the new id. |
| `TrackManager.TrackManager.ObserveFrame` | sledilnik/TrackerGame.py:40-49 | The first loop leaves `ObserveAll` of the old dictionary. |
| `TrackManager.TrackManager.RemoveStale` | Tracker/TrackerUtils.py:207-211 | The second loop leaves `Prune` of the dictionary and keeps the survivors' tracker objects. |
| `TrackManager.TrackManager.Survivors` | sledilnik/TrackerGame.py:52-55 | It keeps exactly the non-stale entries, with the same objects. |
| `TrackManager.TrackManager.CoastUndetected` | sledilnik/TrackerGame.py:58-64 | The third loop leaves `CoastAll` of the dictionary. |
| `TrackManager.TrackManager.Track` | Tracker/TrackerUtils.py:184-219 | One call of `track` leaves `TrackStep` of the old dictionary, so every `TrackStep` lemma holds of it. sledilnik/TrackerGame.py:39-64 is the same method. |
| `MapConfig.Parsed` | sledilnik/configs/MapConfig.py:12-15 | After `parseFields`, the keys are the old keys plus the listed names. |
| `MapConfig.LastIndex` | sledilnik/configs/MapConfig.py:13 | The last position of a name in the list. |
| `MapConfig.ParsedAt` | sledilnik/configs/MapConfig.py:13-32 | A listed name holds the field of its last position, so a later duplicate wins. Any other name keeps its old entry. |
| `MapConfig.ParsedIdempotent` | sledilnik/configs/MapConfig.py:12-32 | Calling `parseFields` twice with the same input gives the same `fields`. |
| `MapConfig.ParsedField` | sledilnik/configs/MapConfig.py:14-31 | Field i is corners 4i..4i+3 under `topLeft`, `topRight`, `bottomLeft` and `bottomRight`. |
| `MapConfig.FieldJsonReadsBack` | sledilnik/configs/MapConfig.py:16-31 | The dictionary stored for a field, in either shape, determines the four corners. |
| `MapConfig.MapConfig.constructor` | sledilnik/configs/MapConfig.py:4-10 | No corners, no fields, zero image size, `fieldCornersVirtual = [[0,200],[300,200],[300,0],[0,0]]`, and no transform. |
| `MapConfig.MapConfig.ParseFields` | sledilnik/configs/MapConfig.py:12-32 | The loop leaves `fields` at `Parsed` with corner dictionaries. `fieldCorners` is not touched. |
| `Calibration.Click` | Tracker/TrackerSetupUtils.py:47-58 | The corners only grow, at most by one, and the counter advances with them. The fields and the virtual corners are untouched. The transform changes only when the corner count reaches `numOfCorners`. sledilnik/TrackerSetup.py:88-99 is the same handler. `Calibration.ClickCounts` and `Calibration.ClicksFromEmpty` state the rest. |
| `Calibration.Key` | Tracker/TrackerSetupUtils.py:95-112 | `quit` is never reset, and the transform and the virtual corners are untouched. The counter changes only on entering edit mode, where it becomes 0. The map changes only by entering edit mode, which empties the corners and the fields. `Calibration.KeyEffects` states the rest. |
| `Calibration.Finish` | sledilnik/TrackerSetup.py:158-166 | Ending a session keeps the corners and the transform. While edit mode stays on, nothing changes. The map changes only in edit mode at `numOfCorners` corners, which also leaves edit mode. |
| `Calibration.KeyCode` | Tracker/TrackerSetupUtils.py:97 | `& 0xFF` gives a code in 0..255 congruent to the raw code. |
| `Calibration.ClickCounts` | Tracker/TrackerSetupUtils.py:48-51 | A left click appends exactly the clicked corner and advances the counter by one. Any other event changes nothing. Only the corners and the transform ever change. |
| `Calibration.ClicksAppend` | Tracker/TrackerSetupUtils.py:47-51 | A run of left clicks appends its points in order and advances the counter by their number. |
| `Calibration.ClicksFromEmpty` | Tracker/TrackerSetupUtils.py:53-58 | From no corners, the transform is unchanged before the corner count reaches `numOfCorners`. At that count it is computed from the first four corners only. |
| `Calibration.KeyEffects` | Tracker/TrackerSetupUtils.py:95-112 | The quit key sets `quit`, and `quit` is never reset. The edit key toggles edit mode. Entering edit mode clears the corners and fields and resets the counter; leaving it clears nothing. |
| `Calibration.OtherKeysIgnored` | Tracker/TrackerSetupUtils.py:99-110 | Any other key code leaves everything unchanged, and codes 256 apart act alike. |
| `Calibration.FinishEffects` | sledilnik/TrackerSetup.py:158-166 | A session ends exactly in edit mode at `numOfCorners` corners. Ending it parses the fields and keeps the corners. |
| `SetupUtils.GetClickPoint` | Tracker/TrackerSetupUtils.py:36-58 | The click handler changes the map and the shared counter as `Click`. |
| `SetupUtils.ProcessKeys` | Tracker/TrackerSetupUtils.py:95-112 | `processKeys` changes the map, the flags and the shared counter as `Key`. |
| `SetupUtils.ParseFields` | Tracker/TrackerSetupUtils.py:115-123 | The loop leaves `fields` at `Parsed` with raw [x, y] pairs, for the field names of `ResGUIText`. |
| `TrackerSetup.TrackerSetup.constructor` | sledilnik/TrackerSetup.py:18-30 | The guide is built from the fields, the counter is 0, and `numOfCorners = 4·len(fields)`. |
| `TrackerSetup.EndEdit` | sledilnik/TrackerSetup.py:158-167 | Leaving edit mode happens exactly in edit mode at 4·len(fields) corners, and it unregisters the click handler. Otherwise the session is unchanged. The corners, `quit` and both counters are always kept. |
| `TrackerSetup.Step` | sledilnik/TrackerSetup.py:101-112 | One event of the setup loop. `quit` is never reset, and once it is set no event, frame or mouse click, changes anything. A mouse event changes neither edit mode, `quit`, the handler nor ResGUIText's counter, and changes nothing at all without a registered handler. |
| `TrackerSetup.TrackerSetup.GetClickPoint` | sledilnik/TrackerSetup.py:77-99 | A click changes the map and this object's counter as `Click`. |
| `TrackerSetup.TrackerSetup.ProcessKeys` | sledilnik/TrackerSetup.py:101-118 | The map and the counter of `ResGUIText` change as `Key`. This object's own counter is left unchanged. |
| `TrackerSetup.TrackerSetup.FinishEdit` | sledilnik/TrackerSetup.py:158-166 | The end-of-session step changes the map and edit mode as `Finish`. |
| `TrackerSetup.AsWrittenCounterOnlyGrows` | sledilnik/TrackerSetup.py:89-111 | As written, no key or frame resets the counter the clicks advance. Each left click the handler receives before `quit` adds one. |
| `TrackerSetup.AsWrittenRunCounterOnlyGrows` | sledilnik/TrackerSetup.py:92 | Over any run, that counter never decreases. |
| `TrackerSetup.AsWrittenCounterCountsClicks` | sledilnik/TrackerSetup.py:88-92 | Over any run, it equals its start value plus the left clicks the handler received before `quit`. |
| `TrackerSetup.AsWrittenGuideInRangeForFirstClicks` | sledilnik/TrackerSetup.py:63-65 | While at most 4·len(fields) clicks have been received since the loop started, the guide line the overlay reads exists. |
| `TrackerSetup.SecondSessionOverrunsGuide` | sledilnik/TrackerSetup.py:106-111 | With one field, a second session's first click makes the overlay read line 5 of a 5-line guide. With the counter reset corrected, it reads "Mark A Field Top Right Corner". |
| `TrackerSetup.CorrectedStepCountsCorners` | Tracker/TrackerSetupUtils.py:100-106 | Resetting the counter the clicks advance keeps that counter equal to the number of corners whenever edit mode is on or the handler is registered. |
| `TrackerSetup.CorrectedRunCountsCorners` | Tracker/TrackerSetupUtils.py:48-51 | The same holds over any run of events. |
| `TrackerSetup.CorrectedOverlayShowsNextCorner` | Tracker/TrackerSetupUtils.py:80-82 | In edit mode, the overlay then shows the guide line for the next corner to mark: corner n mod 4 of field n div 4. |
| `TrackerSetup.ParsedLabelsSwapBottom` | sledilnik/configs/MapConfig.py:24-31 | As written, the third corner the guide asks for (bottom right) is stored as `bottomLeft`, and the fourth as `bottomRight`. The parse order does not walk round the field. |
| `TrackerSetup.GuidedSquareMirrored` | Tracker/TrackerSetupUtils.py:118-123 | For a square marked as guided, the parsed `bottomLeft` lies to the right of `bottomRight`; the outline field's does not. |
| `TrackerSetup.OutlineField` | sledilnik/TrackerSetup.py:120-125 | Corrected labels: every corner is stored under the name the guide asked for it by. |
| `Resources.CreateText` | sledilnik/Resources.py:18-22 | Four lines: 'Mark ' + name followed by top left, top right, bottom right and bottom left, in that order. sledilnik/TrackerSetup.py:120-125 is the same function. |
| `Resources.Texts` | sledilnik/Resources.py:32-33 | The lines of all fields number 4·len(fields). |
| `Resources.Guide` | sledilnik/Resources.py:31-34 | The guide has 4·len(fields)+1 lines, and its last line equals its first. |
| `Resources.BuildGuide` | sledilnik/TrackerSetup.py:24-27 | The `extend` loop builds exactly `Guide`. |
| `Resources.TextsAt` | sledilnik/Resources.py:32-33 | Line 4i+k asks for corner k (in guide order) of field i. |
| `Resources.GuideAt` | sledilnik/Resources.py:31-35 | Every guide line below 4·len(fields) names its field and corner. The extra last line asks for field 0's top left corner again. |
| `Resources.GuideWalksOutline` | sledilnik/Resources.py:19-22 | The guide order walks round a rectangle: each step goes to an adjacent corner, and all four corners are visited. |
| `Resources.GuiText.constructor` | sledilnik/Resources.py:25-35 | `ResGUIText` holds the guide of its fields, `numOfCorners = 4·len(fields)` and a zero counter. |
| `Resources.MovableJson` | sledilnik/Resources.py:110-111 | `reprJSON` has exactly `id`, `x`, `y` and `dir`. |
| `Resources.Snapshot` | sledilnik/Resources.py:121-122 | One entry per tracker key. The entry under a key holds that key as its id, the first two coordinates of the tracker's position and its direction. |
| `Resources.GameLiveData.constructor` | sledilnik/Resources.py:115-117 | The live data shares the map's fields and starts with no entries. |
| `Resources.GameLiveData.Write` | sledilnik/Resources.py:119-122 | `write` discards the old entries. It leaves exactly `MovableObject(id, position[0], position[1], direction)` per tracker, so its result depends only on the trackers. |
| `Resources.GameLiveData.ReprJson` | sledilnik/Resources.py:124-125 | `reprJSON`: the map's own fields and the entries. |
| `Resources.MovableJsonReadsBack` | sledilnik/Resources.py:103-111 | Two entries have equal `reprJSON` exactly when they are equal. |
| `Resources.FrameSnapshot` | sledilnik/Resources.py:120-122 | After `track` then `write`, the snapshot lists only ids that were tracked before or observed. A surviving tag observed this frame is reported at its observed centre. |
| `GameLiveData.MovableJson` | sledilnik/classes/MovableObject.py:7-12 | `reprJSON` has exactly `x`, `y` and `dir`. |
| `GameLiveData.Snapshot` | sledilnik/classes/GameLiveData.py:13-14 | One entry per tracker key, carrying position[0], position[1] and the direction. |
| `GameLiveData.ObjectsJson` | sledilnik/classes/GameLiveData.py:19 | Every id appears under `str(id)` with its entry's JSON, and every key is some id's `str`. |
| `GameLiveData.LiveJson` | sledilnik/classes/GameLiveData.py:16-20 | The JSON has exactly the members `fields` and `objects`, and `fields` is the dictionary as it is. |
| `GameLiveData.GameLiveData.constructor` | sledilnik/classes/GameLiveData.py:7-9 | The live data shares the map's fields and starts with no entries. |
| `GameLiveData.GameLiveData.Write` | sledilnik/classes/GameLiveData.py:11-14 | The old entries are discarded and the result is `Snapshot` of the trackers, so writing twice changes nothing. |
| `GameLiveData.GameLiveData.ReprJson` | sledilnik/classes/GameLiveData.py:16-20 | `reprJSON` of the map's shared fields and the current entries, as `GameLiveData.LiveJson`. |
| `GameLiveData.MovableJsonReadsBack` | sledilnik/classes/MovableObject.py:1-12 | Two entries have equal `reprJSON` exactly when they are equal. |
| `GameLiveData.LiveJsonReadsBack` | sledilnik/classes/GameLiveData.py:16-20 | `reprJSON` has exactly `fields` and `objects`, and passes `fields` through unchanged. |
| `GameLiveData.ObjectKeysReadBack` | sledilnik/classes/GameLiveData.py:18-20 | Every key of `objects` parses back to an id of the snapshot and holds that entry's JSON. |

## Left out

- **Radial correction and origin change.** `correct`, `reverseCorrect` and `moveOrigin` use floating-point `sqrt`, `round` and `cv2.perspectiveTransform`. They are the two functions of a `Markers.Correction` parameter.
- **Covariance inverse and heading.** The inverse in the gain and `atan2` are the two functions of a `Filter.Numerics` parameter. Floating-point arithmetic is modelled as exact `real` arithmetic.
- **Geometry and platform calls.** `cv2.getPerspectiveTransform` is the parameter `Calibration.Transform`. `cv2.waitKey` is replaced by its raw return code. `setMouseCallback` is reduced to the flag `TrackerSetup.Session.listening`.
- **Video, drawing and I/O.** Not modelled:
  - video capture, `undistort` and ArUco detection;
  - the image size the setup loop copies from each frame;
  - all drawing except the guide-line index the overlay reads;
  - the FPS display;
  - pickle and JSON file I/O;
  - the multiprocessing queue;
  - the server mocks and the command-line `main`s.
- **Files not in this model.** Tracker/Resources.py and Tracker/ObjectTracker.py are not part of this model. Tracker/TrackerUtils.py's `track` is modelled against the trackers of sledilnik/ObjectTracker.py, whose constructor has the same signature. Tracker/TrackerSetupUtils.py's `ResGUIText` is modelled by `Resources.GuiText`.
- **Call-site inconsistencies.** sledilnik/TrackerGame.py calls `updateState` and `.position[0:2]` on trackers that define `update_state` and a `Point` position, and calls `write` on a class without one. The model runs `track` and both `write`s on the trackers of sledilnik/ObjectTracker.py.
- **Serialisation of the Resources snapshot.** sledilnik/Resources.py's `GameLiveData.reprJSON` returns the `MovableObject` instances themselves; `Resources.GameLiveData.ReprJson` returns them as values. How ujson would serialise them is not modelled.
- **Lost frames.** `lost_frames` counts every undetected frame and is never reset. Descriptions of the system call it a count of consecutive lost frames; the model follows the code.
- **The timeout scenario.** A tag first observed at frame 1 and then never again is deleted at frame 51, not 52, because its `last_seen` stays 0 (`TrackManager.UnobservedTimeout`, `TrackManager.NewTrack`). Descriptions of the system expect it to remain through frame 51; the model follows the code.
- **Heading units in the snapshot.** The snapshot's `dir` is the tracker's direction in radians as `atan2` returns it. Only `to_json` of sledilnik/classes/ObjectTracker.py converts to degrees; the model follows the code.
- **MapConfig image height.** The constructor of sledilnik/configs/MapConfig.py sets `imageHeighth`, while the loops set `imageHeight`. The model has one field, `imageHeight`.
- **Quit.** After the quit key, the setup loop ends: no later frame or mouse click changes anything. The `sys.exit` that follows is not modelled.
- ClassesObjectTracker.PointJson: stands for `Point.reprJSON`. sledilnik/classes/ObjectTracker.py:111 calls `to_json` on a `Point`, but sledilnik/classes/Point.py defines only `reprJSON` and `reprTuple`, so as written `to_json` of this tracker raises an AttributeError. The model serialises the point as `reprJSON` would.
- Resources.Guide, Resources.BuildGuide, Resources.GuiText.constructor, TrackerSetup.TrackerSetup.constructor: require at least one field. With no fields, the source raises an IndexError when it appends the guide's first line (sledilnik/Resources.py:34, sledilnik/TrackerSetup.py:27). That error path is not modelled.
- TrackerSetup.CorrectedOverlayShowsNextCorner: assumes there are no more corners than 4·len(fields). The source does not enforce this: more clicks can arrive before the next frame ends the session, in both setup tools.
- TrackManager.TrackManager.Track: uses the tracker constructor as written (`last_seen` 0). The corrected stamping is proved only on the value level (`TrackManager.StampedTagSurvives`), since the code is modelled as it is.

## Findings

| source | as written | input that shows it | evidently intended | confidence | as-written member | corrected member |
|---|---|---|---|---|---|---|
| Tracker/TrackerUtils.py:204-205 | A new tracker keeps the constructor's `last_seen = 0`, and the timeout test runs in the same call. | Tag 7 first observed at frame 51 with timeout 50: it is created and deleted in the same call, and is never tracked. | Stamp `last_seen = frame_counter` on creation, as the commented-out branches at lines 194-203 do. | medium; not executed | `TrackManager.FirstSeenAtFrame51Dropped` | `TrackManager.StampedTagSurvives` |
| sledilnik/configs/MapConfig.py:24-31 | Corner 4i+2 is stored as `bottomLeft` and corner 4i+3 as `bottomRight`. The guide asks for the third corner as bottom right and the fourth as bottom left. | The square (0,0), (10,0), (10,10), (0,10) marked as guided: `bottomLeft` = (10,10) lies right of `bottomRight` = (0,10). | Store corner 4i+2 as `bottomRight` and 4i+3 as `bottomLeft`, the order the guide and `fieldCornersVirtual` use. | medium; not executed | `TrackerSetup.GuidedSquareMirrored` | `TrackerSetup.OutlineField` |
| sledilnik/TrackerSetup.py:111 | Entering edit mode resets `ResGUIText.fieldDefineGuideId`, but the clicks advance and the overlay reads `self.fieldDefineGuideId`. | One field: `e`, four clicks, a frame ending the session, `e`, one click. The next overlay reads line 5 of a 5-line guide, which raises an IndexError. | Reset the counter the clicks advance, as Tracker/TrackerSetupUtils.py:105 does with its single counter. | high; not executed | `TrackerSetup.SecondSessionOverrunsGuide` | `TrackerSetup.CorrectedOverlayShowsNextCorner` |
