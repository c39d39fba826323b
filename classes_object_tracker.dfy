/**
  The second tracker, sledilnik/classes/ObjectTracker.py. It runs the same two
  filters as the first one, keeps the emitted 4-tuple as `boundingBox`, exposes
  its centre as a `Point`, and serialises itself with `to_json`.
 */
module ClassesObjectTracker {
  import opened Wrappers
  import opened Geometry
  import opened Filter
  import opened Json
  import OT = ObjectTracker

  /** All fields of one tracker of this kind. */
  datatype BoxTrack = BoxTrack(
    id: int,
    position: Point,
    boundingBox: Box,
    velocity: seq<real>,
    direction: real,
    q: State6,
    q2: State6,
    p: Mat,
    pw: Mat,
    detected: bool,
    enabled: bool,
    lastSeen: int,
    lostFrames: nat)

  /** `position` is always the centre of `boundingBox`. */
  predicate Consistent(s: BoxTrack)
  {
    s.position == Point(s.boundingBox.x, s.boundingBox.y)
  }

  function Initial(cfg: KalmanConfig, num: Numerics, id: int, position: Box,
                   velocity: seq<real>, accel: seq<real>): (s: BoxTrack)
    requires |velocity| >= 4 && |accel| >= 4
    ensures Consistent(s) && s.boundingBox == position
    ensures s.detected && s.enabled && s.lastSeen == 0 && s.lostFrames == 0
    ensures s.q == State6(position.x, position.y, velocity[0], velocity[1], accel[0], accel[1])
    ensures s.q2 == State6(position.xTop, position.yTop, velocity[2], velocity[3], accel[2], accel[3])
    ensures s.p == ProcessNoise(cfg) && s.pw == ProcessNoise(cfg)
    ensures s.id == id && s.velocity == velocity && s.direction == Heading(num, position)
  {
    BoxTrack(id, Point(position.x, position.y), position, velocity, Heading(num, position),
             State6(position.x, position.y, velocity[0], velocity[1], accel[0], accel[1]),
             State6(position.xTop, position.yTop, velocity[2], velocity[3], accel[2], accel[3]),
             ProcessNoise(cfg), ProcessNoise(cfg), true, true, 0, 0)
  }

  function Filters(s: BoxTrack): Estimate
  {
    Estimate(s.q, s.q2, s.p, s.pw)
  }

  /** The filter half of `update_state`. */
  function Filtered(cfg: KalmanConfig, num: Numerics, s: BoxTrack, z: Option<Box>): (r: BoxTrack)
    ensures Filters(r) == Step(cfg, num, Filters(s), z)
    ensures r == s.(q := r.q, q2 := r.q2, p := r.p, pw := r.pw)
  {
    var e := Step(cfg, num, Filters(s), z);
    s.(q := e.q, q2 := e.q2, p := e.p, pw := e.p2)
  }

  /** The emission half of `update_state`. */
  function Emit(num: Numerics, s: BoxTrack, z: Option<Box>): (r: BoxTrack)
    ensures Filters(r) == Filters(s) && Consistent(r)
    ensures z.Some? ==> r.boundingBox == z.value
    ensures z.None? ==> r.boundingBox == Box(s.q.x, s.q.y, s.q2.x, s.q2.y)
    ensures r.velocity == [s.q.vx, s.q.vy] && r.direction == Heading(num, r.boundingBox)
  {
    var bb := Emitted(z, s.q, s.q2);
    s.(velocity := [s.q.vx, s.q.vy], boundingBox := bb, position := Point(bb.x, bb.y),
       direction := Heading(num, bb))
  }

  /** What `update_state` does, given a measurement or none. */
  function Update(cfg: KalmanConfig, num: Numerics, s: BoxTrack, z: Option<Box>): (r: BoxTrack)
    ensures Consistent(r)
    ensures r.id == s.id && r.detected == s.detected && r.enabled == s.enabled
    ensures r.lastSeen == s.lastSeen && r.lostFrames == s.lostFrames
    ensures z.Some? ==> r.boundingBox == z.value
    ensures z.None? ==> r.boundingBox == Box(r.q.x, r.q.y, r.q2.x, r.q2.y)
    ensures z.None? ==> r.q == Predict(cfg.dt, s.q) && r.q2 == Predict(cfg.dt, s.q2)
    ensures z.Some? ==>
      r.q == Correct(Predict(cfg.dt, s.q), Gain(cfg, num, PredictCovariance(cfg, s.p)), z.value.x, z.value.y)
    ensures z.Some? ==>
      r.q2 == Correct(Predict(cfg.dt, s.q2), Gain(cfg, num, PredictCovariance(cfg, s.pw)), z.value.xTop, z.value.yTop)
    ensures r.p == PosteriorCovariance(Gain(cfg, num, PredictCovariance(cfg, s.p)), PredictCovariance(cfg, s.p))
    ensures r.pw == PosteriorCovariance(Gain(cfg, num, PredictCovariance(cfg, s.pw)), PredictCovariance(cfg, s.pw))
    ensures r.velocity == [r.q.vx, r.q.vy]
    ensures r.direction == Heading(num, r.boundingBox)
  {
    Emit(num, Filtered(cfg, num, s, z), z)
  }

  /** `Point.reprJSON`: exactly the two coordinates. */
  function PointJson(p: Point): Json
  {
    JObject(map["x" := JReal(p.x), "y" := JReal(p.y)])
  }

  /** `to_json`: the id, the centre of the bounding box, and the heading in
      degrees; `pi` is the floating-point constant the source divides by. */
  function ToJson(s: BoxTrack, pi: real): (j: Json)
    requires pi != 0.0
    ensures j.JObject? && j.members.Keys == {"id", "position", "dir"}
    ensures j.members["id"] == JInt(s.id)
    ensures Consistent(s) ==> j.members["position"] == PointJson(s.position)
    ensures j.members["dir"].JReal? && j.members["dir"].r * pi / 180.0 == s.direction
  {
    JObject(map["id" := JInt(s.id),
                "position" := PointJson(Point(s.boundingBox.x, s.boundingBox.y)),
                "dir" := JReal(s.direction * 180.0 / pi)])
  }

  // ------------------------------------------------------------------ lemmas

  /** The two trackers agree on every field they share. */
  predicate Agree(b: BoxTrack, t: OT.TrackState)
  {
    b.boundingBox == t.position && b.velocity == t.velocity && b.direction == t.direction &&
    b.q == t.qEstimate && b.q2 == t.qEstimate2 && b.p == t.p && b.pw == t.p2 &&
    b.id == t.id && b.detected == t.detected && b.enabled == t.enabled &&
    b.lastSeen == t.lastSeen && b.lostFrames == t.lostFrames
  }

  /** Both constructors build agreeing trackers from the same arguments. */
  lemma InitialAgrees(cfg: KalmanConfig, num: Numerics, id: int, position: Box,
                      velocity: seq<real>, accel: seq<real>)
    requires |velocity| >= 4 && |accel| >= 4
    ensures Agree(Initial(cfg, num, id, position, velocity, accel),
                  OT.Initial(cfg, num, id, position, velocity, accel))
  {
  }

  /** Agreeing trackers still agree after the same update. */
  lemma {:induction false} UpdateAgrees(cfg: KalmanConfig, num: Numerics, b: BoxTrack, t: OT.TrackState,
                                        z: Option<Box>)
    requires Agree(b, t)
    ensures Agree(Update(cfg, num, b, z), OT.Update(cfg, num, t, z))
  {
    assert Filters(b) == OT.Filters(t);
  }

  /** Zero velocity and acceleration make prediction a fixed point here too. */
  lemma CoastAtRest(cfg: KalmanConfig, num: Numerics, s: BoxTrack)
    requires AtRest(s.q) && AtRest(s.q2)
    ensures Update(cfg, num, s, None).q == s.q && Update(cfg, num, s, None).q2 == s.q2
    ensures Update(cfg, num, s, None).boundingBox == Box(s.q.x, s.q.y, s.q2.x, s.q2.y)
  {
    PredictAtRest(cfg.dt, s.q);
    PredictAtRest(cfg.dt, s.q2);
  }

  // ------------------------------------------------------------------- class

  class ObjectTracker {
    const cfg: KalmanConfig
    const num: Numerics
    const ez: Mat
    const ex: Mat
    const a: Mat
    const c: Mat
    var id: int
    var position: Point
    var boundingBox: Box
    var velocity: seq<real>
    var direction: real
    var q: State6
    var q2: State6
    var p: Mat
    var pw: Mat
    var detected: bool
    var enabled: bool
    var lastSeen: int
    var lostFrames: nat

    predicate Valid()
    {
      ez == MeasurementNoise(cfg) && ex == ProcessNoise(cfg) &&
      a == Transition(cfg.dt) && c == Measurement()
    }

    function State(): BoxTrack
      reads this
    {
      BoxTrack(id, position, boundingBox, velocity, direction, q, q2, p, pw,
               detected, enabled, lastSeen, lostFrames)
    }

    /** The configuration dictionary of the source becomes `cfg`. */
    constructor (objectId: int, position: Box, velocity: seq<real>, cfg: KalmanConfig,
                 num: Numerics, accel: seq<real>)
      requires |velocity| >= 4 && |accel| >= 4
      ensures Valid() && this.cfg == cfg && this.num == num
      ensures State() == Initial(cfg, num, objectId, position, velocity, accel)
    {
      var ex0 := ProcessNoise(cfg);
      this.cfg := cfg;
      this.num := num;
      this.id := objectId;
      this.position := Point(position.x, position.y);
      this.boundingBox := position;
      this.velocity := velocity;
      this.direction := Heading(num, position);
      this.q := State6(position.x, position.y, velocity[0], velocity[1], accel[0], accel[1]);
      this.q2 := State6(position.xTop, position.yTop, velocity[2], velocity[3], accel[2], accel[3]);
      this.detected := true;
      this.enabled := true;
      this.lastSeen := 0;
      this.lostFrames := 0;
      this.ez := MeasurementNoise(cfg);
      this.ex := ex0;
      this.p := ex0;
      this.pw := ex0;
      this.a := Transition(cfg.dt);
      this.c := Measurement();
    }

    /** `update_state`: the filter step, then the emission. */
    method UpdateState(z: Option<Box>)
      requires Valid()
      modifies this
      ensures State() == Update(cfg, num, old(State()), z)
    {
      StepFilters(z);
      EmitPosition(z);
    }

    method StepFilters(z: Option<Box>)
      requires Valid()
      modifies this
      ensures State() == Filtered(cfg, num, old(State()), z)
    {
      var qe := Predict(cfg.dt, q);
      var qe2 := Predict(cfg.dt, q2);
      var pw1 := Add(Mul(Mul(a, pw), Transpose(a)), ex);
      var p1 := Add(Mul(Mul(a, p), Transpose(a)), ex);
      var k := Mul(Mul(p1, Transpose(c)), Inverse(num, Add(Mul(Mul(c, p1), Transpose(c)), ez)));
      var k2 := Mul(Mul(pw1, Transpose(c)), Inverse(num, Add(Mul(Mul(c, pw1), Transpose(c)), ez)));
      if z.Some? {
        qe := Correct(qe, k, z.value.x, z.value.y);
        qe2 := Correct(qe2, k2, z.value.xTop, z.value.yTop);
      }
      p1 := Mul(Sub(Identity(6), Mul(k, c)), p1);
      pw1 := Mul(Sub(Identity(6), Mul(k2, c)), pw1);
      q, q2, p, pw := qe, qe2, p1, pw1;
    }

    method EmitPosition(z: Option<Box>)
      modifies this
      ensures State() == Emit(num, old(State()), z)
    {
      velocity := [q.vx, q.vy];
      if z.None? {
        boundingBox := Box(q.x, q.y, q2.x, q2.y);
      } else {
        boundingBox := z.value;
      }
      position := Point(boundingBox.x, boundingBox.y);
      direction := Heading(num, boundingBox);
    }
  }
}
