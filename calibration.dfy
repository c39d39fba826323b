/**
  The corner-marking state machine shared by Tracker/TrackerSetupUtils.py and
  sledilnik/TrackerSetup.py, on values: a mouse event in the click handler
  (`getClickPoint`), a key code in `processKeys`, and the end of an editing
  session in the setup loop. The mouse callback registration, `waitKey` and
  `cv2.getPerspectiveTransform` are outside: the event, the raw key code and
  the transform are inputs.
 */
module Calibration {
  import opened Json
  import opened Filter
  import opened MapConfig

  /** `cv2.EVENT_LBUTTONDOWN`. */
  const LeftButtonDown := 1
  /** `ord('e')`, the edit-map key. */
  const EditMapKey := 101
  /** `ord('q')`, the quit key. */
  const QuitKey := 113

  /** `cv2.getPerspectiveTransform` from four source corners to four
      destination corners, left uninterpreted. */
  type Transform = (seq<Corner>, seq<Corner>) -> Mat

  /** `waitKey(1) & 0xFF`: the low byte of the raw code. Python's `&` with
      0xFF on a negative integer agrees with Euclidean `% 256`, so the -1 that
      `waitKey` returns when no key was pressed becomes 255. */
  function KeyCode(raw: int): (k: int)
    ensures 0 <= k < 256
    ensures (raw - k) % 256 == 0
  {
    raw % 256
  }

  // ------------------------------------------------------------------ clicks

  /** The map and the guide counter after one mouse event: a left click
      appends the corner and advances the counter, and once the number of
      corners reaches `numOfCorners` the transform is computed from the first
      four. `numOfCorners` is four per field, so reaching it means there are at
      least four corners. */
  function Click(ms: MapState, guideId: int, numOfCorners: int, perspective: Transform,
                 event: int, x: int, y: int): (r: (MapState, int))
    requires numOfCorners % 4 == 0
    ensures ms.fieldCorners <= r.0.fieldCorners
    ensures r.1 - guideId == |r.0.fieldCorners| - |ms.fieldCorners| <= 1
    ensures r.0.fields == ms.fields && r.0.fieldCornersVirtual == ms.fieldCornersVirtual
    ensures r.0.m != ms.m ==> |r.0.fieldCorners| == numOfCorners
  {
    if event != LeftButtonDown then (ms, guideId)
    else
      var corners := ms.fieldCorners + [Corner(x, y)];
      var m := if |corners| == numOfCorners then perspective(corners[..4], ms.fieldCornersVirtual) else ms.m;
      (ms.(fieldCorners := corners, m := m), guideId + 1)
  }

  /** A run of left clicks at the given points. */
  function Clicks(ms: MapState, guideId: int, numOfCorners: int, perspective: Transform,
                  points: seq<Corner>): (MapState, int)
    requires numOfCorners % 4 == 0
    decreases |points|
  {
    if |points| == 0 then (ms, guideId)
    else
      var prev := Clicks(ms, guideId, numOfCorners, perspective, points[..|points| - 1]);
      var p := points[|points| - 1];
      Click(prev.0, prev.1, numOfCorners, perspective, LeftButtonDown, p.x, p.y)
  }

  // -------------------------------------------------------------------- keys

  /** What `processKeys` hands back, plus the guide counter it may reset. */
  datatype KeyResult = KeyResult(ms: MapState, editMode: bool, quit: bool, guideId: int)

  /** One call of `processKeys` with the raw key code: the edit key toggles
      edit mode, and entering it clears the corners and fields and resets the
      counter; the quit key sets `quit`; any other code changes nothing. */
  function Key(ms: MapState, editMode: bool, quit: bool, guideId: int, raw: int): (r: KeyResult)
    ensures quit ==> r.quit
    ensures r.ms.m == ms.m && r.ms.fieldCornersVirtual == ms.fieldCornersVirtual
    ensures r.guideId == guideId || (r.guideId == 0 && r.editMode && !editMode)
    ensures r.ms != ms ==> r.editMode && r.ms.fieldCorners == [] && r.ms.fields == map[]
  {
    var k := KeyCode(raw);
    if k == EditMapKey then
      if !editMode then KeyResult(ms.(fieldCorners := [], fields := map[]), true, quit, 0)
      else KeyResult(ms, false, quit, guideId)
    else if k == QuitKey then KeyResult(ms, editMode, true, guideId)
    else KeyResult(ms, editMode, quit, guideId)
  }

  // ------------------------------------------------------------- end of edit

  /** The step of the setup loop that ends an editing session: in edit mode,
      once the corner count equals `numOfCorners`, the fields are parsed and
      edit mode is left. */
  function Finish(ms: MapState, editMode: bool, names: seq<string>, numOfCorners: int): (r: (MapState, bool))
    requires numOfCorners == 4 * |names|
    ensures r.0.fieldCorners == ms.fieldCorners && r.0.m == ms.m
    ensures r.1 ==> r.0 == ms
    ensures r.0 != ms ==> editMode && !r.1 && |ms.fieldCorners| == numOfCorners
  {
    if editMode && |ms.fieldCorners| == numOfCorners then
      (ms.(fields := Parsed(FieldJson, ms.fields, ms.fieldCorners, names)), false)
    else (ms, editMode)
  }

  // ------------------------------------------------------------------ lemmas

  /** Every mouse event keeps the counter and the corner count in step, and
      touches nothing but the corners and the transform; a left click adds
      exactly the clicked corner at the end. */
  lemma ClickCounts(ms: MapState, guideId: int, numOfCorners: int, perspective: Transform,
                    event: int, x: int, y: int)
    requires numOfCorners % 4 == 0
    ensures var r := Click(ms, guideId, numOfCorners, perspective, event, x, y);
      r.1 - |r.0.fieldCorners| == guideId - |ms.fieldCorners| &&
      r.0 == ms.(fieldCorners := r.0.fieldCorners, m := r.0.m) &&
      (event == LeftButtonDown <==> r.0.fieldCorners == ms.fieldCorners + [Corner(x, y)]) &&
      (event != LeftButtonDown ==> r == (ms, guideId))
  {
  }

  /** A run of left clicks appends the points to the corners, advances the
      counter by their number, and changes nothing but the corners and the
      transform. */
  lemma {:induction false} ClicksAppend(ms: MapState, guideId: int, numOfCorners: int,
                                        perspective: Transform, points: seq<Corner>)
    requires numOfCorners % 4 == 0
    ensures Clicks(ms, guideId, numOfCorners, perspective, points).0.fieldCorners == ms.fieldCorners + points
    ensures Clicks(ms, guideId, numOfCorners, perspective, points).1 == guideId + |points|
    ensures Clicks(ms, guideId, numOfCorners, perspective, points).0 ==
            ms.(fieldCorners := ms.fieldCorners + points,
                m := Clicks(ms, guideId, numOfCorners, perspective, points).0.m)
    decreases |points|
  {
    if |points| > 0 {
      var prefix, p := points[..|points| - 1], points[|points| - 1];
      ClicksAppend(ms, guideId, numOfCorners, perspective, prefix);
      var prev := Clicks(ms, guideId, numOfCorners, perspective, prefix);
      assert prev.0.fieldCorners + [Corner(p.x, p.y)] == ms.fieldCorners + points;
      ClickAppends(prev.0, prev.1, numOfCorners, perspective, p);
    }
  }

  /** Clicking the points of a session from no corners, with at least one
      field to mark, leaves the transform alone before the last corner and
      computes it, from the first four points only, at exactly `numOfCorners`
      points. */
  lemma {:induction false} ClicksFromEmpty(ms: MapState, guideId: int, numOfCorners: int,
                                           perspective: Transform, points: seq<Corner>)
    requires numOfCorners % 4 == 0
    requires numOfCorners > 0 && ms.fieldCorners == [] && |points| <= numOfCorners
    ensures |points| < numOfCorners ==> Clicks(ms, guideId, numOfCorners, perspective, points).0.m == ms.m
    ensures |points| == numOfCorners ==>
            Clicks(ms, guideId, numOfCorners, perspective, points).0.m == perspective(points[..4], ms.fieldCornersVirtual)
    decreases |points|
  {
    if |points| > 0 {
      var prefix, p := points[..|points| - 1], points[|points| - 1];
      ClicksFromEmpty(ms, guideId, numOfCorners, perspective, prefix);
      ClicksAppend(ms, guideId, numOfCorners, perspective, prefix);
      var prev := Clicks(ms, guideId, numOfCorners, perspective, prefix);
      assert prev.0.fieldCorners + [Corner(p.x, p.y)] == points;
      ClickAppends(prev.0, prev.1, numOfCorners, perspective, p);
    }
  }

  /** One left click, spelled out. */
  lemma ClickAppends(ms: MapState, guideId: int, numOfCorners: int, perspective: Transform, p: Corner)
    requires numOfCorners % 4 == 0
    ensures var corners := ms.fieldCorners + [Corner(p.x, p.y)];
      |corners| == numOfCorners ==>
        |corners| >= 4 &&
        Click(ms, guideId, numOfCorners, perspective, LeftButtonDown, p.x, p.y) ==
        (ms.(fieldCorners := corners, m := perspective(corners[..4], ms.fieldCornersVirtual)), guideId + 1)
    ensures var corners := ms.fieldCorners + [Corner(p.x, p.y)];
      |corners| != numOfCorners ==>
        Click(ms, guideId, numOfCorners, perspective, LeftButtonDown, p.x, p.y) ==
        (ms.(fieldCorners := corners), guideId + 1)
  {
  }

  /** `processKeys` in words: `quit` becomes true exactly on the quit key and
      is never reset; edit mode flips exactly on the edit key; the map and the
      counter change only on entering edit mode, which empties the corners and
      the fields and zeroes the counter. */
  lemma KeyEffects(ms: MapState, editMode: bool, quit: bool, guideId: int, raw: int)
    ensures var r := Key(ms, editMode, quit, guideId, raw);
      (r.quit <==> quit || KeyCode(raw) == QuitKey) &&
      (r.editMode <==> (editMode != (KeyCode(raw) == EditMapKey))) &&
      (KeyCode(raw) == EditMapKey && !editMode ==>
         r.ms == ms.(fieldCorners := [], fields := map[]) && r.guideId == 0) &&
      (KeyCode(raw) != EditMapKey || editMode ==> r.ms == ms && r.guideId == guideId)
  {
  }

  /** A raw code that is not one of the two keys modulo 256 leaves every part
      of the state as it was; codes 256 apart act alike. */
  lemma OtherKeysIgnored(ms: MapState, editMode: bool, quit: bool, guideId: int, raw: int)
    requires raw % 256 != EditMapKey && raw % 256 != QuitKey
    ensures Key(ms, editMode, quit, guideId, raw) == KeyResult(ms, editMode, quit, guideId)
    ensures Key(ms, editMode, quit, guideId, raw + 256) == Key(ms, editMode, quit, guideId, raw)
  {
    assert KeyCode(raw + 256) == KeyCode(raw);
  }

  /** Ending a session parses the fields from the corners without changing the
      corners, and happens exactly in edit mode at `numOfCorners` corners. */
  lemma FinishEffects(ms: MapState, editMode: bool, names: seq<string>, numOfCorners: int)
    requires numOfCorners == 4 * |names|
    ensures var r := Finish(ms, editMode, names, numOfCorners);
      r.0.fieldCorners == ms.fieldCorners &&
      (r.1 != editMode <==> editMode && |ms.fieldCorners| == numOfCorners) &&
      (r.1 != editMode ==> r.0.fields.Keys == ms.fields.Keys + NameSet(names)) &&
      (r.1 == editMode ==> r.0 == ms)
  {
  }
}
