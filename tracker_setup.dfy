/**
  The corner-marking tool of sledilnik/TrackerSetup.py: the class with its own
  guide and guide counter, its click handler, `processKeys` and the step of
  the setup loop that ends an editing session; then the loop itself as a
  state machine over mouse events and frames.

  The class keeps its own counter `fieldDefineGuideId`, which the click
  handler advances and the overlay reads, but `processKeys` resets the
  counter of the shared `ResGUIText` instead. The state machine keeps both
  counters; `resetOwn` selects the as-written reset (false) or the reset of
  the counter the clicks advance (true), which is what
  Tracker/TrackerSetupUtils.py does with its single counter.
 */
module TrackerSetup {
  import opened Json
  import opened MapConfig
  import opened Calibration
  import opened Resources

  class TrackerSetup {
    /** The field names read from the fields file. */
    var fields: seq<string>
    var sFieldDefineGuide: seq<string>
    var fieldDefineGuideId: int
    var numOfCorners: int

    /** At least one field, four corners per field, and the guide built from
        the fields. */
    predicate Valid()
      reads this
    {
      |fields| > 0 && numOfCorners == 4 * |fields| && sFieldDefineGuide == Guide(fields)
    }

    /** The guide lines of every field followed by the first line again, a
        zero counter, and four corners per field. */
    constructor (fields: seq<string>)
      requires |fields| > 0
      ensures Valid() && this.fields == fields && fieldDefineGuideId == 0
    {
      this.fields := fields;
      var guide := BuildGuide(fields);
      sFieldDefineGuide := guide;
      fieldDefineGuideId := 0;
      numOfCorners := |fields| * 4;
    }

    /** `getClickPoint`: a left click appends the corner and advances this
        object's guide counter; the corner that completes the count sets the
        transform from the first four corners. */
    method GetClickPoint(event: int, x: int, y: int, configMap: MapConfig, perspective: Transform)
      requires Valid()
      modifies this`fieldDefineGuideId, configMap`fieldCorners, configMap`m
      ensures (configMap.State(), fieldDefineGuideId) ==
              Click(old(configMap.State()), old(fieldDefineGuideId), numOfCorners, perspective, event, x, y)
    {
      if event == LeftButtonDown {
        configMap.fieldCorners := configMap.fieldCorners + [Corner(x, y)];
        fieldDefineGuideId := fieldDefineGuideId + 1;
        if |configMap.fieldCorners| == numOfCorners {
          var c := configMap.fieldCorners;
          assert c[..4] == [c[0], c[1], c[2], c[3]];
          configMap.m := perspective([c[0], c[1], c[2], c[3]], configMap.fieldCornersVirtual);
        }
      }
    }

    /** `processKeys`: as in `Key`, except that the counter entering edit
        mode resets is the one of `ResGUIText`, passed as `gui`; this object's
        own counter is left as it was. */
    method ProcessKeys(configMap: MapConfig, gui: GuiText, fieldEditMode: bool, quit: bool, raw: int)
      returns (editMode: bool, quitNow: bool)
      modifies configMap`fieldCorners, configMap`fields, gui`fieldDefineGuideId
      ensures KeyResult(configMap.State(), editMode, quitNow, gui.fieldDefineGuideId) ==
              Key(old(configMap.State()), fieldEditMode, quit, old(gui.fieldDefineGuideId), raw)
      ensures fieldDefineGuideId == old(fieldDefineGuideId)
    {
      var keypressed := raw % 256;
      editMode, quitNow := fieldEditMode, quit;
      if keypressed == EditMapKey {
        editMode := !editMode;
        if editMode {
          configMap.fieldCorners := [];
          configMap.fields := map[];
          gui.fieldDefineGuideId := 0;
        }
      } else if keypressed == QuitKey {
        quitNow := true;
      }
    }

    /** The step of `start` that ends an editing session: in edit mode with
        every corner marked, parse the fields and leave edit mode. */
    method FinishEdit(configMap: MapConfig, fieldEditMode: bool) returns (editMode: bool)
      requires Valid()
      modifies configMap`fields
      ensures (configMap.State(), editMode) ==
              Finish(old(configMap.State()), fieldEditMode, fields, numOfCorners)
    {
      editMode := fieldEditMode;
      if fieldEditMode && |configMap.fieldCorners| == numOfCorners {
        configMap.ParseFields(fields);
        editMode := !editMode;
      }
    }
  }

  // ----------------------------------------------------------- the setup loop

  /** The state of the setup loop: the map, the two flags, the object's own
      guide counter, the shared counter of `ResGUIText`, and whether the click
      handler is registered. */
  datatype Session = Session(ms: MapState, editMode: bool, quit: bool,
                             ownId: int, sharedId: int, listening: bool)

  /** What reaches the loop: a mouse event delivered to the click handler
      while it is registered, or a frame, with the raw code `waitKey` returns
      during it. */
  datatype Event = Mouse(event: int, x: int, y: int) | Frame(raw: int)

  /** The loop before the first frame, with the map loaded or created. */
  function Start(ms: MapState): Session
  {
    Session(ms, false, false, 0, 0, false)
  }

  /** Lines 158-167 of the loop: ending a session also replaces the click
      handler by one that does nothing. */
  function EndEdit(s: Session, names: seq<string>): (r: Session)
    ensures r.ms.fieldCorners == s.ms.fieldCorners
    ensures r.quit == s.quit && r.ownId == s.ownId && r.sharedId == s.sharedId
    ensures r.editMode != s.editMode <==> s.editMode && |s.ms.fieldCorners| == 4 * |names|
    ensures r.editMode != s.editMode ==> !r.editMode && !r.listening
    ensures r.editMode == s.editMode ==> r == s
  {
    var f := Finish(s.ms, s.editMode, names, 4 * |names|);
    s.(ms := f.0, editMode := f.1, listening := s.listening && f.1 == s.editMode)
  }

  /** One event. A frame ends a finished session, draws the overlay and
      processes the key; entering edit mode registers the click handler,
      leaving it by the key does not unregister it. Once `quit` is set the
      loop has ended and no event changes anything. */
  function Step(s: Session, names: seq<string>, perspective: Transform, resetOwn: bool, e: Event): (r: Session)
    ensures s.quit ==> r.quit
    ensures e.Mouse? ==>
      r.editMode == s.editMode && r.quit == s.quit && r.listening == s.listening && r.sharedId == s.sharedId
    ensures e.Mouse? && !s.listening ==> r == s
    ensures s.quit ==> r == s
  {
    match e
    case Mouse(event, x, y) =>
      if s.quit || !s.listening then s
      else
        var r := Click(s.ms, s.ownId, 4 * |names|, perspective, event, x, y);
        s.(ms := r.0, ownId := r.1)
    case Frame(raw) =>
      if s.quit then s
      else
        var f := EndEdit(s, names);
        var k := Key(f.ms, f.editMode, f.quit, if resetOwn then f.ownId else f.sharedId, raw);
        Session(k.ms, k.editMode, k.quit,
                if resetOwn then k.guideId else f.ownId,
                if resetOwn then f.sharedId else k.guideId,
                f.listening || (k.editMode && !f.editMode))
  }

  /** A run of events. */
  function Run(s: Session, names: seq<string>, perspective: Transform, resetOwn: bool,
               events: seq<Event>): Session
    decreases |events|
  {
    if |events| == 0 then s
    else Run(Step(s, names, perspective, resetOwn, events[0]), names, perspective, resetOwn, events[1..])
  }

  /** The guide line the overlay draws in edit mode exists. */
  predicate GuideIndexOk(s: Session, names: seq<string>)
    requires |names| > 0
  {
    s.editMode ==> 0 <= s.ownId < |Guide(names)|
  }

  /** While the handler is registered or edit mode is on, the counter the
      overlay reads equals the number of marked corners. */
  predicate CountsCorners(s: Session)
  {
    s.editMode || s.listening ==> s.ownId == |s.ms.fieldCorners|
  }

  // ---------------------------------------------------- the counter as written

  /** As written, no key and no frame ever resets the counter the clicks
      advance: it only grows, by one per left click the handler receives. */
  lemma AsWrittenCounterOnlyGrows(s: Session, names: seq<string>, perspective: Transform, e: Event)
    ensures Step(s, names, perspective, false, e).ownId >= s.ownId
    ensures e.Frame? ==> Step(s, names, perspective, false, e).ownId == s.ownId
    ensures Step(s, names, perspective, false, e).ownId ==
            s.ownId + (if e.Mouse? && s.listening && !s.quit && e.event == LeftButtonDown then 1 else 0)
  {
  }

  /** The same over any run of events. */
  lemma {:induction false} AsWrittenRunCounterOnlyGrows(s: Session, names: seq<string>,
                                                        perspective: Transform, events: seq<Event>)
    ensures Run(s, names, perspective, false, events).ownId >= s.ownId
    decreases |events|
  {
    if |events| > 0 {
      AsWrittenCounterOnlyGrows(s, names, perspective, events[0]);
      AsWrittenRunCounterOnlyGrows(Step(s, names, perspective, false, events[0]), names, perspective, events[1..]);
    }
  }

  /** The number of left clicks the click handler receives during a run,
      which ends with the loop once `quit` is set. */
  function Accepted(s: Session, names: seq<string>, perspective: Transform, resetOwn: bool,
                    events: seq<Event>): nat
    decreases |events|
  {
    if |events| == 0 then 0
    else
      (if events[0].Mouse? && s.listening && !s.quit && events[0].event == LeftButtonDown then 1 else 0) +
      Accepted(Step(s, names, perspective, resetOwn, events[0]), names, perspective, resetOwn, events[1..])
  }

  /** As written, the counter the overlay reads is the number of left clicks
      received since the loop started, whatever keys were pressed. */
  lemma {:induction false} AsWrittenCounterCountsClicks(s: Session, names: seq<string>,
                                                        perspective: Transform, events: seq<Event>)
    ensures Run(s, names, perspective, false, events).ownId == s.ownId + Accepted(s, names, perspective, false, events)
    decreases |events|
  {
    if |events| > 0 {
      AsWrittenCounterOnlyGrows(s, names, perspective, events[0]);
      AsWrittenCounterCountsClicks(Step(s, names, perspective, false, events[0]), names, perspective, events[1..]);
    }
  }

  /** So the guide line drawn as written exists as long as at most
      4 * |names| clicks have been received since the loop started. */
  lemma AsWrittenGuideInRangeForFirstClicks(ms: MapState, names: seq<string>, perspective: Transform,
                                            events: seq<Event>)
    requires |names| > 0
    requires Accepted(Start(ms), names, perspective, false, events) <= 4 * |names|
    ensures GuideIndexOk(EndEdit(Run(Start(ms), names, perspective, false, events), names), names)
  {
    AsWrittenCounterCountsClicks(Start(ms), names, perspective, events);
  }

  /** One field named "A": enter edit mode, mark its four corners, let a
      frame end the session, enter edit mode again and mark one corner. At
      the next frame the overlay reads guide line 5 of a five-line guide,
      which Python rejects with an IndexError; with the reset of the counter
      the clicks advance, it reads line 1, "Mark A Field Top Right Corner",
      the corner to mark next. */
  lemma SecondSessionOverrunsGuide()
    ensures var names := ["A"];
      var perspective: Transform := (src, dst) => [];
      var events := [Frame(EditMapKey), Mouse(LeftButtonDown, 0, 0), Mouse(LeftButtonDown, 0, 10),
                     Mouse(LeftButtonDown, 10, 10), Mouse(LeftButtonDown, 10, 0), Frame(-1),
                     Frame(EditMapKey), Mouse(LeftButtonDown, 5, 5)];
      var s0 := Start(MapState([], map[], 0, 0, VirtualCorners, []));
      var asWritten := EndEdit(Run(s0, names, perspective, false, events), names);
      var corrected := EndEdit(Run(s0, names, perspective, true, events), names);
      asWritten.editMode && asWritten.ownId == |Guide(names)| && !GuideIndexOk(asWritten, names) &&
      corrected.editMode && corrected.ownId == 1 && GuideIndexOk(corrected, names) &&
      Guide(names)[corrected.ownId] == GuideText("A", TopRight)
  {
    var names := ["A"];
    var perspective: Transform := (src, dst) => [];
    var events := [Frame(EditMapKey), Mouse(LeftButtonDown, 0, 0), Mouse(LeftButtonDown, 0, 10),
                   Mouse(LeftButtonDown, 10, 10), Mouse(LeftButtonDown, 10, 0), Frame(-1),
                   Frame(EditMapKey), Mouse(LeftButtonDown, 5, 5)];
    var s0 := Start(MapState([], map[], 0, 0, VirtualCorners, []));
    CountedRun(s0, names, perspective, events);
    GuideAt(names, 1);
  }

  /** The run of `SecondSessionOverrunsGuide`, for both counter policies. */
  lemma CountedRun(s0: Session, names: seq<string>, perspective: Transform, events: seq<Event>)
    requires names == ["A"] && s0 == Start(MapState([], map[], 0, 0, VirtualCorners, []))
    requires events == [Frame(EditMapKey), Mouse(LeftButtonDown, 0, 0), Mouse(LeftButtonDown, 0, 10),
                        Mouse(LeftButtonDown, 10, 10), Mouse(LeftButtonDown, 10, 0), Frame(-1),
                        Frame(EditMapKey), Mouse(LeftButtonDown, 5, 5)]
    ensures var w := EndEdit(Run(s0, names, perspective, false, events), names);
      w.editMode && w.ownId == 5 && w.ms.fieldCorners == [Corner(5, 5)]
    ensures var c := EndEdit(Run(s0, names, perspective, true, events), names);
      c.editMode && c.ownId == 1 && c.ms.fieldCorners == [Corner(5, 5)]
  {
    CountedRunWith(s0, names, perspective, false, events);
    CountedRunWith(s0, names, perspective, true, events);
  }

  /** The run of `SecondSessionOverrunsGuide` under one counter policy, event by event. */
  lemma CountedRunWith(s0: Session, names: seq<string>, perspective: Transform, resetOwn: bool,
                       events: seq<Event>)
    requires names == ["A"] && s0 == Start(MapState([], map[], 0, 0, VirtualCorners, []))
    requires events == [Frame(EditMapKey), Mouse(LeftButtonDown, 0, 0), Mouse(LeftButtonDown, 0, 10),
                        Mouse(LeftButtonDown, 10, 10), Mouse(LeftButtonDown, 10, 0), Frame(-1),
                        Frame(EditMapKey), Mouse(LeftButtonDown, 5, 5)]
    ensures var r := Run(s0, names, perspective, resetOwn, events);
      r.editMode && r.ownId == (if resetOwn then 1 else 5) && r.ms.fieldCorners == [Corner(5, 5)]
  {
    var s1 := Step(s0, names, perspective, resetOwn, events[0]);
    SessionStarts(s0, names, perspective, resetOwn);
    var s2 := Step(s1, names, perspective, resetOwn, events[1]);
    ListeningClick(s1, names, perspective, resetOwn, 0, 0);
    var s3 := Step(s2, names, perspective, resetOwn, events[2]);
    ListeningClick(s2, names, perspective, resetOwn, 0, 10);
    var s4 := Step(s3, names, perspective, resetOwn, events[3]);
    ListeningClick(s3, names, perspective, resetOwn, 10, 10);
    var s5 := Step(s4, names, perspective, resetOwn, events[4]);
    ListeningClick(s4, names, perspective, resetOwn, 10, 0);
    var s6 := Step(s5, names, perspective, resetOwn, events[5]);
    SessionEnds(s5, names, perspective, resetOwn);
    var s7 := Step(s6, names, perspective, resetOwn, events[6]);
    SessionStarts(s6, names, perspective, resetOwn);
    var s8 := Step(s7, names, perspective, resetOwn, events[7]);
    ListeningClick(s7, names, perspective, resetOwn, 5, 5);
    RunUnrolled(s0, names, perspective, resetOwn, events, [s1, s2, s3, s4, s5, s6, s7, s8]);
  }


  /** A left click while the handler is registered adds the corner and
      advances the counter the clicks drive; nothing else changes. */
  lemma ListeningClick(s: Session, names: seq<string>, perspective: Transform, resetOwn: bool, x: int, y: int)
    requires s.listening && !s.quit
    ensures var r := Step(s, names, perspective, resetOwn, Mouse(LeftButtonDown, x, y));
      r.ownId == s.ownId + 1 && r.ms.fieldCorners == s.ms.fieldCorners + [Corner(x, y)] &&
      r.editMode == s.editMode && r.quit == s.quit && r.listening
  {
  }

  /** A frame after the last corner of the only field ends the session and
      unregisters the click handler. */
  lemma SessionEnds(s: Session, names: seq<string>, perspective: Transform, resetOwn: bool)
    requires |names| == 1 && s.editMode && !s.quit && s.listening && |s.ms.fieldCorners| == 4
    ensures var r := Step(s, names, perspective, resetOwn, Frame(-1));
      !r.editMode && !r.listening && !r.quit && r.ownId == s.ownId
  {
    var f := EndEdit(s, names);
    assert !f.editMode && !f.listening;
    assert KeyCode(-1) == 255;
  }

  /** The edit key outside edit mode starts a session: no corners, the click
      handler registered, and the counter the overlay reads reset only when
      `resetOwn` holds. */
  lemma SessionStarts(s: Session, names: seq<string>, perspective: Transform, resetOwn: bool)
    requires |names| > 0 && !s.editMode && !s.quit
    ensures var r := Step(s, names, perspective, resetOwn, Frame(EditMapKey));
      r.editMode && r.listening && !r.quit && r.ms.fieldCorners == [] &&
      r.ownId == (if resetOwn then 0 else s.ownId)
  {
    var f := EndEdit(s, names);
    assert f == s;
    assert KeyCode(EditMapKey) == EditMapKey;
  }

  /** A run is the last of the states each event leads to. */
  lemma {:induction false} RunUnrolled(s: Session, names: seq<string>, perspective: Transform, resetOwn: bool,
                                       events: seq<Event>, states: seq<Session>)
    requires |states| == |events| > 0
    requires states[0] == Step(s, names, perspective, resetOwn, events[0])
    requires forall i :: 0 < i < |events| ==> states[i] == Step(states[i - 1], names, perspective, resetOwn, events[i])
    ensures Run(s, names, perspective, resetOwn, events) == states[|states| - 1]
    decreases |events|
  {
    if |events| > 1 {
      RunUnrolled(states[0], names, perspective, resetOwn, events[1..], states[1..]);
    }
  }

  // ------------------------------------------------------ the counter corrected

  /** With the reset of the counter the clicks advance, every event keeps the
      counter equal to the number of marked corners while it matters. */
  lemma CorrectedStepCountsCorners(s: Session, names: seq<string>, perspective: Transform, e: Event)
    requires CountsCorners(s)
    ensures CountsCorners(Step(s, names, perspective, true, e))
  {
    if e.Mouse? && s.listening && !s.quit {
      ClickCounts(s.ms, s.ownId, 4 * |names|, perspective, e.event, e.x, e.y);
    }
  }

  /** The same over any run of events from the start of the loop. */
  lemma {:induction false} CorrectedRunCountsCorners(s: Session, names: seq<string>, perspective: Transform,
                                                     events: seq<Event>)
    requires CountsCorners(s)
    ensures CountsCorners(Run(s, names, perspective, true, events))
    decreases |events|
  {
    if |events| > 0 {
      CorrectedStepCountsCorners(s, names, perspective, events[0]);
      CorrectedRunCountsCorners(Step(s, names, perspective, true, events[0]), names, perspective, events[1..]);
    }
  }

  /** When the counter counts the corners and there are no more corners than
      the fields have, the overlay drawn at a frame shows the guide line for
      the next corner to mark: corner |c| mod 4 of field |c| div 4. */
  lemma CorrectedOverlayShowsNextCorner(s: Session, names: seq<string>)
    requires |names| > 0 && CountsCorners(s) && |s.ms.fieldCorners| <= 4 * |names|
    ensures var f := EndEdit(s, names); var n := |f.ms.fieldCorners|;
      GuideIndexOk(f, names) &&
      (f.editMode ==> n < 4 * |names| && Guide(names)[f.ownId] == GuideText(names[n / 4], GuideSide(n % 4)))
  {
    var f := EndEdit(s, names);
    if f.editMode {
      GuideAt(names, |f.ms.fieldCorners|);
    }
  }

  // -------------------------------------------------------- the corner labels

  /** As written, `parseFields` stores the third corner the guide asks for
      (bottom right) under "bottomLeft" and the fourth (bottom left) under
      "bottomRight"; its order top left, top right, bottom left, bottom right
      does not go round the field. */
  lemma ParsedLabelsSwapBottom(corners: seq<Corner>, i: nat)
    requires 4 * i + 3 < |corners|
    ensures Slot(FieldAt(corners, i), GuideSide(2)) == corners[4 * i + 3]
    ensures Slot(FieldAt(corners, i), GuideSide(3)) == corners[4 * i + 2]
    ensures !Adjacent(ParsedSide(1), ParsedSide(2))
  {
  }

  /** A square marked as the guide asks, in image coordinates: the parsed
      field has its bottom left corner to the right of its bottom right one,
      while the outline field does not. */
  lemma GuidedSquareMirrored()
    ensures var c := [Corner(0, 0), Corner(10, 0), Corner(10, 10), Corner(0, 10)];
      FieldAt(c, 0).bottomLeft.x > FieldAt(c, 0).bottomRight.x &&
      OutlineField(c, 0).bottomLeft.x < OutlineField(c, 0).bottomRight.x
  {
  }

  /** Field i of the clicked corners named in the order the guide asks for
      them: top left, top right, bottom right, bottom left. */
  function OutlineField(corners: seq<Corner>, i: nat): (f: FieldCorners)
    requires 4 * i + 3 < |corners|
    ensures forall k :: 0 <= k < 4 ==> Slot(f, GuideSide(k)) == corners[4 * i + k]
  {
    FieldCorners(corners[4 * i], corners[4 * i + 1], corners[4 * i + 3], corners[4 * i + 2])
  }
}
