/**
  The corner-marking helpers of Tracker/TrackerSetupUtils.py. They work on a
  map configuration object and on the global guide state `ResGUIText`, which
  here is a `GuiText` object passed in. Both the click handler and
  `processKeys` use the guide counter of that one object.
 */
module SetupUtils {
  import opened Json
  import opened MapConfig
  import opened Calibration
  import opened Resources

  /** `getClickPoint`: a left click appends the corner and advances the guide
      counter, and the corner that completes the count sets the transform from
      the first four corners. Any other event changes nothing. */
  method GetClickPoint(event: int, x: int, y: int, configMap: MapConfig, gui: GuiText,
                       perspective: Transform)
    requires gui.Valid()
    modifies configMap`fieldCorners, configMap`m, gui`fieldDefineGuideId
    ensures (configMap.State(), gui.fieldDefineGuideId) ==
            Click(old(configMap.State()), old(gui.fieldDefineGuideId), gui.numOfCorners, perspective, event, x, y)
  {
    if event == LeftButtonDown {
      configMap.fieldCorners := configMap.fieldCorners + [Corner(x, y)];
      gui.fieldDefineGuideId := gui.fieldDefineGuideId + 1;
      if |configMap.fieldCorners| == gui.numOfCorners {
        var c := configMap.fieldCorners;
        assert c[..4] == [c[0], c[1], c[2], c[3]];
        configMap.m := perspective([c[0], c[1], c[2], c[3]], configMap.fieldCornersVirtual);
      }
    }
  }

  /** `processKeys` with the raw code `waitKey` returned: the edit key toggles
      edit mode, entering it clears the corners and the fields and resets the
      guide counter; the quit key sets `quit`. */
  method ProcessKeys(configMap: MapConfig, gui: GuiText, fieldEditMode: bool, quit: bool, raw: int)
    returns (editMode: bool, quitNow: bool)
    modifies configMap`fieldCorners, configMap`fields, gui`fieldDefineGuideId
    ensures KeyResult(configMap.State(), editMode, quitNow, gui.fieldDefineGuideId) ==
            Key(old(configMap.State()), fieldEditMode, quit, old(gui.fieldDefineGuideId), raw)
  {
    var keypressed := raw % 256;
    editMode, quitNow := fieldEditMode, quit;
    if keypressed == EditMapKey {
      editMode := !editMode;
      if editMode {
        configMap.fieldCorners := [];
        configMap.fields := map[];
        gui.fieldDefineGuideId := 0;
      }
    } else if keypressed == QuitKey {
      quitNow := true;
    }
  }

  /** `parseFields`: for each field name in order, the four corners 4i to
      4i+3 stored as raw pairs under top left, top right, bottom left and
      bottom right. */
  method ParseFields(configMap: MapConfig, gui: GuiText)
    requires 4 * |gui.fields| <= |configMap.fieldCorners|
    modifies configMap`fields
    ensures configMap.fields == Parsed(RawFieldJson, old(configMap.fields), configMap.fieldCorners, gui.fields)
  {
    var names := gui.fields;
    for i := 0 to |names|
      invariant configMap.fields == Parsed(RawFieldJson, old(configMap.fields), configMap.fieldCorners, names[..i])
    {
      configMap.fields := configMap.fields[names[i] := RawFieldJson(FieldAt(configMap.fieldCorners, i))];
      assert names[..i + 1][..i] == names[..i];
    }
    assert names[..|names|] == names;
  }
}
