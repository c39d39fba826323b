/**
  The pieces of sledilnik/Resources.py that carry logic: the corner-marking
  guide (`createText` and the guide list of `ResGUIText`), and the live-data
  snapshot (`MovableObject`, `GameLiveData`) rebuilt from the trackers after
  every frame. The guide is also built, the same way, by the constructor of
  sledilnik/TrackerSetup.py, which uses `BuildGuide` below.
 */
module Resources {
  import Wrappers
  import opened Geometry
  import opened Json
  import opened MapConfig
  import opened Markers
  import OT = ObjectTracker
  import TM = TrackManager

  // ------------------------------------------------------------------- guide

  /** The text after the field's name in the guide line for a corner. */
  function Label(s: Side): string
  {
    match s
    case TopLeft => " Top Left Corner"
    case TopRight => " Field Top Right Corner"
    case BottomRight => " Field Bottom Right Corner"
    case BottomLeft => " Field Bottom Left Corner"
  }

  /** The guide line asking for corner `s` of field `name`. */
  function GuideText(name: string, s: Side): string
  {
    "Mark " + name + Label(s)
  }

  /** The corner the k-th guide line of a field asks for. */
  function GuideSide(k: nat): Side
    requires k < 4
  {
    [TopLeft, TopRight, BottomRight, BottomLeft][k]
  }

  /** `createText`: four guide lines for one field, asking for its corners
      in the order top left, top right, bottom right, bottom left. */
  function CreateText(name: string): (r: seq<string>)
    ensures |r| == 4
    ensures forall k :: 0 <= k < 4 ==> r[k] == GuideText(name, GuideSide(k))
  {
    ["Mark " + name + " Top Left Corner",
     "Mark " + name + " Field Top Right Corner",
     "Mark " + name + " Field Bottom Right Corner",
     "Mark " + name + " Field Bottom Left Corner"]
  }

  /** The guide lines of all fields, in order. */
  function Texts(names: seq<string>): (r: seq<string>)
    ensures |r| == 4 * |names|
    decreases |names|
  {
    if |names| == 0 then [] else Texts(names[..|names| - 1]) + CreateText(names[|names| - 1])
  }

  /** `sFieldDefineGuide`: the guide lines of all fields, then the first line
      again, shown once every corner is marked. The source indexes element 0,
      so there must be at least one field. */
  function Guide(names: seq<string>): (g: seq<string>)
    requires |names| > 0
    ensures |g| == 4 * |names| + 1 && g[|g| - 1] == g[0]
  {
    var t := Texts(names);
    t + [t[0]]
  }

  /** Builds the guide with the extending loop of the source. */
  method BuildGuide(names: seq<string>) returns (guide: seq<string>)
    requires |names| > 0
    ensures guide == Guide(names)
  {
    guide := [];
    for i := 0 to |names|
      invariant guide == Texts(names[..i])
    {
      guide := guide + CreateText(names[i]);
      assert names[..i + 1][..i] == names[..i];
    }
    assert names[..|names|] == names;
    guide := guide + [guide[0]];
  }

  /** Two corners share a side of the rectangle. */
  predicate Adjacent(a: Side, b: Side)
  {
    (IsTop(a) == IsTop(b)) != (IsLeft(a) == IsLeft(b))
  }

  // ------------------------------------------------------------ guide lemmas

  /** Guide line 4i+k asks for corner GuideSide(k) of field i. */
  lemma {:induction false} TextsAt(names: seq<string>, i: nat, k: nat)
    requires i < |names| && k < 4
    ensures Texts(names)[4 * i + k] == GuideText(names[i], GuideSide(k))
    decreases |names|
  {
    var prefix := names[..|names| - 1];
    if i < |names| - 1 {
      TextsAt(prefix, i, k);
      assert Texts(names)[4 * i + k] == Texts(prefix)[4 * i + k];
    } else {
      assert Texts(names)[4 * i + k] == CreateText(names[i])[k];
    }
  }

  /** The guide asks for every corner of every field exactly once, in the
      order of the fields, and then repeats its first line. */
  lemma GuideAt(names: seq<string>, j: nat)
    requires |names| > 0 && j <= 4 * |names|
    ensures j < 4 * |names| ==> Guide(names)[j] == GuideText(names[j / 4], GuideSide(j % 4))
    ensures j == 4 * |names| ==> Guide(names)[j] == GuideText(names[0], TopLeft)
  {
    if j < 4 * |names| {
      TextsAt(names, j / 4, j % 4);
    } else {
      TextsAt(names, 0, 0);
    }
  }

  /** The guide walks round each field: every step, including the one back
      to the start, goes to a corner on a shared side, and all four corners
      are visited. */
  lemma GuideWalksOutline()
    ensures Adjacent(GuideSide(0), GuideSide(1)) && Adjacent(GuideSide(1), GuideSide(2))
    ensures Adjacent(GuideSide(2), GuideSide(3)) && Adjacent(GuideSide(3), GuideSide(0))
    ensures {GuideSide(0), GuideSide(1), GuideSide(2), GuideSide(3)} == {TopLeft, TopRight, BottomRight, BottomLeft}
  {
  }

  // --------------------------------------------------------------- ResGUIText

  /** `ResGUIText`: the guide and the counter the click handler advances. The
      field names are what the source reads from the fields file. */
  class GuiText {
    var fields: seq<string>
    var numOfCorners: int
    var sFieldDefineGuide: seq<string>
    var fieldDefineGuideId: int

    /** Four corners per field, and the guide built from the fields. */
    predicate Valid()
      reads this
    {
      |fields| > 0 && numOfCorners == 4 * |fields| && sFieldDefineGuide == Guide(fields)
    }

    constructor (fields: seq<string>)
      requires |fields| > 0
      ensures Valid() && this.fields == fields && fieldDefineGuideId == 0
    {
      this.fields := fields;
      this.numOfCorners := |fields| * 4;
      var guide := BuildGuide(fields);
      this.sFieldDefineGuide := guide;
      this.fieldDefineGuideId := 0;
    }
  }

  // ---------------------------------------------------------------- snapshot

  /** `MovableObject`: one entry of the live snapshot. */
  datatype MovableObject = MovableObject(id: int, x: real, y: real, direction: real)

  /** `MovableObject.reprJSON`: exactly its id, coordinates and direction. */
  function MovableJson(o: MovableObject): (j: Json)
    ensures j.JObject? && j.members.Keys == {"id", "x", "y", "dir"}
  {
    JObject(map["id" := JInt(o.id), "x" := JReal(o.x), "y" := JReal(o.y), "dir" := JReal(o.direction)])
  }

  /** The snapshot entry of the tracker stored under `id`: its centre and
      heading. */
  function Movable(id: int, s: OT.TrackState): MovableObject
  {
    MovableObject(id, s.position.x, s.position.y, s.direction)
  }

  /** What `write` builds from the trackers' states: one entry per key, holding
      that tracker's id, the corner of its position and its heading. */
  function Snapshot(tracks: map<int, OT.TrackState>): (r: map<int, MovableObject>)
    ensures r.Keys == tracks.Keys
    ensures forall k :: k in r ==>
      r[k] == MovableObject(k, tracks[k].position.x, tracks[k].position.y, tracks[k].direction)
  {
    map k | k in tracks :: Movable(k, tracks[k])
  }

  /** The states of a dictionary of trackers. */
  function StatesOf(trackers: map<int, OT.ObjectTracker>): map<int, OT.TrackState>
    reads trackers.Values
  {
    map k | k in trackers :: trackers[k].State()
  }

  /** What `reprJSON` returns: the fields and the snapshot entries. */
  datatype LiveRepr = LiveRepr(fields: map<string, Json>, objects: map<int, MovableObject>)

  /** The live data of one frame. `fields` is the map configuration's own
      dictionary, shared rather than copied, so it is read through `configMap`. */
  class GameLiveData {
    const configMap: MapConfig
    var objects: map<int, MovableObject>

    constructor (configMap: MapConfig)
      ensures this.configMap == configMap && objects == map[]
    {
      this.configMap := configMap;
      objects := map[];
    }

    /** `write`: clear the snapshot and refill it from the trackers. The result
        depends only on the trackers, so writing twice changes nothing, and the
        map configuration is not touched. */
    method Write(trackers: map<int, OT.ObjectTracker>)
      modifies this`objects
      ensures objects == Snapshot(StatesOf(trackers))
    {
      objects := map[];
      var keys := trackers.Keys;
      while keys != {}
        invariant keys <= trackers.Keys
        invariant objects.Keys == trackers.Keys - keys
        invariant forall k :: k in objects ==> objects[k] == Movable(k, trackers[k].State())
        decreases keys
      {
        Wrappers.NonEmptyHasElement(keys);
        var k :| k in keys;
        var t := trackers[k];
        objects := objects[k := MovableObject(k, t.position.x, t.position.y, t.direction)];
        keys := keys - {k};
      }
      assert objects == Snapshot(StatesOf(trackers));
    }

    /** `reprJSON`. */
    function ReprJson(): LiveRepr
      reads this, configMap
    {
      LiveRepr(configMap.fields, objects)
    }
  }

  // --------------------------------------------------------- snapshot lemmas

  /** `reprJSON` of an entry gives the entry back: nothing is lost or added. */
  lemma MovableJsonReadsBack(a: MovableObject, b: MovableObject)
    ensures MovableJson(a) == MovableJson(b) <==> a == b
  {
    if MovableJson(a) == MovableJson(b) {
      assert MovableJson(a).members["id"] == MovableJson(b).members["id"];
      assert MovableJson(a).members["x"] == MovableJson(b).members["x"];
      assert MovableJson(a).members["y"] == MovableJson(b).members["y"];
      assert MovableJson(a).members["dir"] == MovableJson(b).members["dir"];
    }
  }

  /** The snapshot after one call of `track` lists only ids that were tracked
      before or observed in the frame, and a tag observed in the frame that
      survives it is reported exactly at the centre it was last observed at,
      with no filter lag. */
  lemma FrameSnapshot(tr: TM.Trackers, oc: TM.ObjectsConfig, stamp: bool, m: TM.Tracks,
                      obs: seq<Observation>, frame: int, i: int)
    requires TM.Sound(tr)
    requires 0 <= i < |obs|
    requires forall j :: i < j < |obs| ==> obs[j].id != obs[i].id
    requires obs[i].id in TM.TrackStep(tr, oc, stamp, m, obs, frame)
    ensures Snapshot(TM.TrackStep(tr, oc, stamp, m, obs, frame)).Keys <= m.Keys + TM.Ids(obs)
    ensures var snap := Snapshot(TM.TrackStep(tr, oc, stamp, m, obs, frame));
      obs[i].id in snap && snap[obs[i].id].id == obs[i].id &&
      snap[obs[i].id].x == obs[i].position.x && snap[obs[i].id].y == obs[i].position.y
  {
    var k := obs[i].id;
    TM.TrackStepKeys(tr, oc, stamp, m, obs, frame, k);
    TM.ObserveAllPosition(tr, stamp, m, obs, frame, i);
    TM.InIds(obs, i);
    TM.ObserveAllEntries(tr, stamp, m, obs, frame);
    TM.TrackStepCoasts(tr, oc, stamp, m, obs, frame, k);
  }
}
