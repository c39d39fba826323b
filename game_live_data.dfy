/**
  The live-data snapshot of sledilnik/classes/GameLiveData.py and
  sledilnik/classes/MovableObject.py: like the one in sledilnik/Resources.py,
  but its entries carry no id, and `reprJSON` keys them by the decimal string
  of the tracker id.
 */
module GameLiveData {
  import opened Wrappers
  import opened Json
  import opened MapConfig
  import OT = ObjectTracker
  import R = Resources
  import TM = TrackManager

  /** `MovableObject`: a centre and a heading. */
  datatype MovableObject = MovableObject(x: real, y: real, direction: real)

  /** `MovableObject.reprJSON`: exactly the coordinates and the heading. */
  function MovableJson(o: MovableObject): (j: Json)
    ensures j.JObject? && j.members.Keys == {"x", "y", "dir"}
  {
    JObject(map["x" := JReal(o.x), "y" := JReal(o.y), "dir" := JReal(o.direction)])
  }

  /** What `write` builds from the trackers' states: one entry per key, from
      the first two coordinates of the position and the heading. */
  function Snapshot(tracks: map<int, OT.TrackState>): (r: map<int, MovableObject>)
    ensures r.Keys == tracks.Keys
    ensures forall k :: k in r ==>
      r[k].x == tracks[k].position.x && r[k].y == tracks[k].position.y && r[k].direction == tracks[k].direction
  {
    map k | k in tracks :: Entry(tracks[k])
  }

  /** The entry of one tracker state. */
  function Entry(s: OT.TrackState): MovableObject
  {
    MovableObject(s.position.x, s.position.y, s.direction)
  }

  /** The "objects" member of `reprJSON`: `str(id)` to the entry's JSON. */
  function ObjectsJson(objects: map<int, MovableObject>): (r: map<string, Json>)
    ensures forall id :: id in objects ==> IntToString(id) in r && r[IntToString(id)] == MovableJson(objects[id])
    ensures forall key :: key in r ==> exists id :: id in objects && IntToString(id) == key
  {
    assert forall i, j :: IntToString(i) == IntToString(j) ==> i == j by {
      forall i, j ensures IntToString(i) == IntToString(j) ==> i == j {
        IntToStringInjective(i, j);
      }
    }
    map k | k in objects :: IntToString(k) := MovableJson(objects[k])
  }

  /** `reprJSON`: the fields as they are and the keyed entries. */
  function LiveJson(fields: map<string, Json>, objects: map<int, MovableObject>): (j: Json)
    ensures j.JObject? && j.members.Keys == {"fields", "objects"}
    ensures j.members["fields"] == JObject(fields)
  {
    JObject(map["fields" := JObject(fields), "objects" := JObject(ObjectsJson(objects))])
  }

  class GameLiveData {
    /** `fields` is the map configuration's own dictionary, shared rather
        than copied, so it is read through `configMap`. */
    const configMap: MapConfig
    var objects: map<int, MovableObject>

    constructor (configMap: MapConfig)
      ensures this.configMap == configMap && objects == map[]
    {
      this.configMap := configMap;
      objects := map[];
    }

    /** `write`: clear the entries and refill them from the trackers, so the
        result depends only on the trackers and the map configuration is not
        touched. */
    method Write(trackers: map<int, OT.ObjectTracker>)
      modifies this`objects
      ensures objects == Snapshot(R.StatesOf(trackers))
    {
      objects := map[];
      var keys := trackers.Keys;
      while keys != {}
        invariant keys <= trackers.Keys
        invariant objects.Keys == trackers.Keys - keys
        invariant forall k :: k in objects ==>
          objects[k] == Entry(trackers[k].State())
        decreases keys
      {
        NonEmptyHasElement(keys);
        var k :| k in keys;
        var t := trackers[k];
        objects := objects[k := MovableObject(t.position.x, t.position.y, t.direction)];
        keys := keys - {k};
      }
      var states := R.StatesOf(trackers);
      assert states.Keys == objects.Keys;
      forall k | k in objects
        ensures objects[k] == Snapshot(states)[k]
      {
        assert states[k] == trackers[k].State();
      }
    }

    /** `reprJSON`. */
    function ReprJson(): Json
      reads this, configMap
    {
      LiveJson(configMap.fields, objects)
    }
  }

  // ------------------------------------------------------------------ lemmas

  /** An entry's JSON gives the entry back. */
  lemma MovableJsonReadsBack(a: MovableObject, b: MovableObject)
    ensures MovableJson(a) == MovableJson(b) <==> a == b
  {
    if MovableJson(a) == MovableJson(b) {
      assert MovableJson(a).members["x"] == MovableJson(b).members["x"];
      assert MovableJson(a).members["y"] == MovableJson(b).members["y"];
      assert MovableJson(a).members["dir"] == MovableJson(b).members["dir"];
    }
  }

  /** The snapshot's JSON has exactly the members "fields" and "objects",
      and the fields pass through unchanged. */
  lemma LiveJsonReadsBack(fields: map<string, Json>, objects: map<int, MovableObject>)
    ensures LiveJson(fields, objects).members.Keys == {"fields", "objects"}
    ensures LiveJson(fields, objects).members["fields"] == JObject(fields)
    ensures LiveJson(fields, objects).members["objects"] == JObject(ObjectsJson(objects))
  {
  }

  /** Every key of the "objects" member reads back, as a decimal integer, to
      an id of the snapshot, and holds that entry's JSON. */
  lemma ObjectKeysReadBack(objects: map<int, MovableObject>, key: string)
    requires key in ObjectsJson(objects)
    ensures ParseInt(key).Some? && ParseInt(key).value in objects
    ensures ObjectsJson(objects)[key] == MovableJson(objects[ParseInt(key).value])
  {
    var id :| id in objects && IntToString(id) == key;
    IntRoundTrip(id);
  }
}
