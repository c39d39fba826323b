/**
  The calibration map of sledilnik/configs/MapConfig.py: the corners the user
  clicked, the named fields built from them by `parseFields`, the image size
  and the perspective transform computed from the first four corners.

  `fields` holds the dictionaries `parseFields` writes, as JSON values, so the
  two shapes the sources write (corner dictionaries with "x" and "y" here,
  raw [x, y] pairs in Tracker/TrackerSetupUtils.py) are both kept as written.
 */
module MapConfig {
  import opened Json
  import opened Filter

  /** A clicked point, in integer pixel coordinates. */
  datatype Corner = Corner(x: int, y: int)

  /** The four corners of one named field, under the names `parseFields`
      gives them. */
  datatype FieldCorners = FieldCorners(topLeft: Corner, topRight: Corner,
                                       bottomLeft: Corner, bottomRight: Corner)

  /** A corner of a rectangle, by name. */
  datatype Side = TopLeft | TopRight | BottomRight | BottomLeft

  function IsTop(s: Side): bool { s == TopLeft || s == TopRight }

  function IsLeft(s: Side): bool { s == TopLeft || s == BottomLeft }

  /** The corner of a field stored under the name `s`. */
  function Slot(f: FieldCorners, s: Side): Corner
  {
    match s
    case TopLeft => f.topLeft
    case TopRight => f.topRight
    case BottomRight => f.bottomRight
    case BottomLeft => f.bottomLeft
  }

  /** `fieldCornersVirtual`: the field-space corners the first four clicked
      corners are mapped onto. */
  const VirtualCorners: seq<Corner> := [Corner(0, 200), Corner(300, 200), Corner(300, 0), Corner(0, 0)]

  /** Field i of the clicked corners, as `parseFields` reads them: corners
      4i, 4i+1, 4i+2 and 4i+3. */
  function FieldAt(corners: seq<Corner>, i: nat): FieldCorners
    requires 4 * i + 3 < |corners|
  {
    FieldCorners(corners[4 * i], corners[4 * i + 1], corners[4 * i + 2], corners[4 * i + 3])
  }

  /** The name `parseFields` gives to corner k (0 to 3) of a field. */
  function ParsedSide(k: nat): Side
    requires k < 4
  {
    [TopLeft, TopRight, BottomLeft, BottomRight][k]
  }

  // --------------------------------------------------------- JSON shapes

  /** {"x": x, "y": y}. */
  function CornerJson(c: Corner): Json
  {
    JObject(map["x" := JInt(c.x), "y" := JInt(c.y)])
  }

  /** The dictionary `MapConfig.parseFields` stores for one field. */
  function FieldJson(f: FieldCorners): Json
  {
    JObject(map["topLeft" := CornerJson(f.topLeft), "topRight" := CornerJson(f.topRight),
                "bottomLeft" := CornerJson(f.bottomLeft), "bottomRight" := CornerJson(f.bottomRight)])
  }

  /** [x, y], a clicked corner as the click handler stored it. */
  function CornerPair(c: Corner): Json
  {
    JArray([JInt(c.x), JInt(c.y)])
  }

  /** The dictionary Tracker/TrackerSetupUtils.py's `parseFields` stores. */
  function RawFieldJson(f: FieldCorners): Json
  {
    JObject(map["topLeft" := CornerPair(f.topLeft), "topRight" := CornerPair(f.topRight),
                "bottomLeft" := CornerPair(f.bottomLeft), "bottomRight" := CornerPair(f.bottomRight)])
  }

  // ------------------------------------------------------------ parseFields

  /** The names occurring in a list. */
  function NameSet(names: seq<string>): set<string>
  {
    set i | 0 <= i < |names| :: names[i]
  }

  /** `fields` after the loop of `parseFields` has run over `names`, each
      field rendered by `render`: every name gets an entry, and the entries of
      other names are kept. */
  function Parsed(render: FieldCorners -> Json, fields: map<string, Json>,
                  corners: seq<Corner>, names: seq<string>): (r: map<string, Json>)
    requires 4 * |names| <= |corners|
    ensures r.Keys == fields.Keys + NameSet(names)
    decreases |names|
  {
    if |names| == 0 then fields
    else
      var prefix := names[..|names| - 1];
      assert NameSet(names) == NameSet(prefix) + {names[|names| - 1]} by {
        assert forall i :: 0 <= i < |prefix| ==> prefix[i] == names[i];
      }
      Parsed(render, fields, corners, prefix)[names[|names| - 1] := render(FieldAt(corners, |names| - 1))]
  }

  /** The position of the last occurrence of `k` in `names`. */
  function LastIndex(names: seq<string>, k: string): (i: nat)
    requires k in names
    ensures i < |names| && names[i] == k
    ensures forall j :: i < j < |names| ==> names[j] != k
    decreases |names|
  {
    if names[|names| - 1] == k then |names| - 1
    else
      var prefix := names[..|names| - 1];
      assert k in prefix by {
        var j :| 0 <= j < |names| && names[j] == k;
        assert j < |names| - 1 && prefix[j] == k;
      }
      LastIndex(prefix, k)
  }

  /** Class state as a value. */
  datatype MapState = MapState(fieldCorners: seq<Corner>, fields: map<string, Json>,
                               imageWidth: int, imageHeight: int,
                               fieldCornersVirtual: seq<Corner>, m: Mat)

  // ------------------------------------------------------------------ lemmas

  /** After `parseFields` a listed name holds the field of its LAST position in
      the list (a later duplicate overwrites an earlier one), and any other
      name keeps its old entry. */
  lemma {:induction false} ParsedAt(render: FieldCorners -> Json, fields: map<string, Json>,
                                    corners: seq<Corner>, names: seq<string>, k: string)
    requires 4 * |names| <= |corners|
    requires k in fields || k in names
    ensures k in Parsed(render, fields, corners, names)
    ensures Parsed(render, fields, corners, names)[k] ==
            if k in names then render(FieldAt(corners, LastIndex(names, k))) else fields[k]
    decreases |names|
  {
    if |names| > 0 && names[|names| - 1] != k {
      var prefix := names[..|names| - 1];
      assert k in names <==> k in prefix by {
        if k in names {
          var j :| 0 <= j < |names| && names[j] == k;
          assert prefix[j] == k;
        }
      }
      ParsedAt(render, fields, corners, prefix, k);
    }
  }

  /** Running `parseFields` a second time on the same corners and names
      changes nothing. */
  lemma ParsedIdempotent(render: FieldCorners -> Json, fields: map<string, Json>,
                         corners: seq<Corner>, names: seq<string>)
    requires 4 * |names| <= |corners|
    ensures Parsed(render, Parsed(render, fields, corners, names), corners, names) ==
            Parsed(render, fields, corners, names)
  {
    var once := Parsed(render, fields, corners, names);
    var twice := Parsed(render, once, corners, names);
    forall k | k in twice
      ensures k in once && twice[k] == once[k]
    {
      ParsedAt(render, once, corners, names, k);
      if k in names {
        ParsedAt(render, fields, corners, names, k);
      }
    }
  }

  /** Field i of the list, when its name does not occur again later, is
      corners 4i to 4i+3 under the names top left, top right, bottom left,
      bottom right. */
  lemma ParsedField(render: FieldCorners -> Json, fields: map<string, Json>,
                    corners: seq<Corner>, names: seq<string>, i: nat)
    requires 4 * |names| <= |corners|
    requires i < |names|
    requires forall j :: i < j < |names| ==> names[j] != names[i]
    ensures Parsed(render, fields, corners, names)[names[i]] == render(FieldAt(corners, i))
    ensures forall k :: 0 <= k < 4 ==> Slot(FieldAt(corners, i), ParsedSide(k)) == corners[4 * i + k]
  {
    ParsedAt(render, fields, corners, names, names[i]);
  }

  /** The dictionary written for a field gives back the four corners under
      their names. */
  lemma FieldJsonReadsBack(f: FieldCorners)
    ensures FieldJson(f).members["bottomLeft"] == CornerJson(f.bottomLeft)
    ensures FieldJson(f).members["bottomRight"] == CornerJson(f.bottomRight)
    ensures forall g :: FieldJson(g) == FieldJson(f) ==> g == f
    ensures forall g :: RawFieldJson(g) == RawFieldJson(f) ==> g == f
  {
    forall g | FieldJson(g) == FieldJson(f) ensures g == f {
      assert FieldJson(g).members["topLeft"] == FieldJson(f).members["topLeft"];
      assert FieldJson(g).members["topRight"] == FieldJson(f).members["topRight"];
      assert FieldJson(g).members["bottomLeft"] == FieldJson(f).members["bottomLeft"];
      assert FieldJson(g).members["bottomRight"] == FieldJson(f).members["bottomRight"];
      CornerJsonInjective(g.topLeft, f.topLeft);
      CornerJsonInjective(g.topRight, f.topRight);
      CornerJsonInjective(g.bottomLeft, f.bottomLeft);
      CornerJsonInjective(g.bottomRight, f.bottomRight);
    }
    forall g | RawFieldJson(g) == RawFieldJson(f) ensures g == f {
      assert RawFieldJson(g).members["topLeft"] == RawFieldJson(f).members["topLeft"];
      assert RawFieldJson(g).members["topRight"] == RawFieldJson(f).members["topRight"];
      assert RawFieldJson(g).members["bottomLeft"] == RawFieldJson(f).members["bottomLeft"];
      assert RawFieldJson(g).members["bottomRight"] == RawFieldJson(f).members["bottomRight"];
    }
  }

  lemma CornerJsonInjective(a: Corner, b: Corner)
    ensures CornerJson(a) == CornerJson(b) ==> a == b
  {
    if CornerJson(a) == CornerJson(b) {
      assert CornerJson(a).members["x"] == CornerJson(b).members["x"];
      assert CornerJson(a).members["y"] == CornerJson(b).members["y"];
    }
  }

  // ------------------------------------------------------------------- class

  class MapConfig {
    var fieldCorners: seq<Corner>
    var fields: map<string, Json>
    var imageWidth: int
    /** Spelt `imageHeighth` by the constructor and `imageHeight` by the loop
        that sets it from the frame size. */
    var imageHeight: int
    var fieldCornersVirtual: seq<Corner>
    /** `M`, the perspective transform; the empty list until computed. */
    var m: Mat

    function State(): MapState
      reads this
    {
      MapState(fieldCorners, fields, imageWidth, imageHeight, fieldCornersVirtual, m)
    }

    /** No corners, no fields, a zero image size and no transform. */
    constructor ()
      ensures State() == MapState([], map[], 0, 0, VirtualCorners, [])
    {
      fieldCorners := [];
      fields := map[];
      imageWidth := 0;
      imageHeight := 0;
      fieldCornersVirtual := VirtualCorners;
      m := [];
    }

    /** `parseFields`: one field per name from four consecutive corners,
        written into `fields` without clearing it; the corners are not
        touched. There must be four corners per name. */
    method ParseFields(names: seq<string>)
      requires 4 * |names| <= |fieldCorners|
      modifies this`fields
      ensures fields == Parsed(FieldJson, old(fields), fieldCorners, names)
    {
      for i := 0 to |names|
        invariant fields == Parsed(FieldJson, old(fields), fieldCorners, names[..i])
      {
        fields := fields[names[i] := FieldJson(FieldAt(fieldCorners, i))];
        assert names[..i + 1][..i] == names[..i];
      }
      assert names[..|names|] == names;
    }
  }
}
