/**
  The per-object tracker of sledilnik/ObjectTracker.py: two constant-acceleration
  Kalman filters, one for a marker's centre and one for its leading-edge
  midpoint, plus the bookkeeping flags the track manager reads and writes.

  `TrackState` is the value of every field of one tracker; `Initial` and
  `Update` say what the constructor and `updateState` compute, and the class
  `ObjectTracker` is proved to follow them.
 */
module ObjectTracker {
  import opened Wrappers
  import opened Geometry
  import opened Filter

  /** All fields of one tracker that change or that callers read. */
  datatype TrackState = TrackState(
    id: int,
    position: Box,
    velocity: seq<real>,
    direction: real,
    q: State6,            // the initial state of the centre filter
    q2: State6,           // the initial state of the top-point filter
    qEstimate: State6,
    qEstimate2: State6,
    p: Mat,
    p2: Mat,
    detected: bool,
    enabled: bool,
    lastSeen: int,
    lostFrames: nat)

  /** What the constructor builds from a position, a velocity and an
      acceleration (each given as four numbers, centre pair then top pair). */
  function Initial(cfg: KalmanConfig, num: Numerics, id: int, position: Box,
                   velocity: seq<real>, accel: seq<real>): (s: TrackState)
    requires |velocity| >= 4 && |accel| >= 4
    ensures s.detected && s.enabled && s.lastSeen == 0 && s.lostFrames == 0
    ensures s.q == State6(position.x, position.y, velocity[0], velocity[1], accel[0], accel[1])
    ensures s.q2 == State6(position.xTop, position.yTop, velocity[2], velocity[3], accel[2], accel[3])
    ensures s.qEstimate == s.q && s.qEstimate2 == s.q2
    ensures s.p == ProcessNoise(cfg) && s.p2 == ProcessNoise(cfg)
    ensures s.id == id && s.position == position && s.velocity == velocity
    ensures s.direction == Heading(num, position)
  {
    var q := State6(position.x, position.y, velocity[0], velocity[1], accel[0], accel[1]);
    var q2 := State6(position.xTop, position.yTop, velocity[2], velocity[3], accel[2], accel[3]);
    TrackState(id, position, velocity, Heading(num, position), q, q2, q, q2,
               ProcessNoise(cfg), ProcessNoise(cfg), true, true, 0, 0)
  }

  /** The two filters of a tracker. */
  function Filters(s: TrackState): Estimate
  {
    Estimate(s.qEstimate, s.qEstimate2, s.p, s.p2)
  }

  /** The first half of `updateState`: both filters advanced by one step. */
  function Filtered(cfg: KalmanConfig, num: Numerics, s: TrackState, z: Option<Box>): (r: TrackState)
    ensures Filters(r) == Step(cfg, num, Filters(s), z)
    ensures r == s.(qEstimate := r.qEstimate, qEstimate2 := r.qEstimate2, p := r.p, p2 := r.p2)
  {
    var e := Step(cfg, num, Filters(s), z);
    s.(qEstimate := e.q, qEstimate2 := e.q2, p := e.p, p2 := e.p2)
  }

  /** The second half of `updateState`: velocity, position and heading read
      off the filters, or the position taken from the measurement. */
  function Emit(num: Numerics, s: TrackState, z: Option<Box>): (r: TrackState)
    ensures Filters(r) == Filters(s)
    ensures z.Some? ==> r.position == z.value
    ensures z.None? ==> r.position == Box(s.qEstimate.x, s.qEstimate.y, s.qEstimate2.x, s.qEstimate2.y)
  {
    var pos := Emitted(z, s.qEstimate, s.qEstimate2);
    s.(velocity := [s.qEstimate.vx, s.qEstimate.vy], position := pos, direction := Heading(num, pos))
  }

  /** What `updateState` does to a tracker, given a measurement or none. */
  function Update(cfg: KalmanConfig, num: Numerics, s: TrackState, z: Option<Box>): (r: TrackState)
    ensures r.id == s.id && r.detected == s.detected && r.enabled == s.enabled
    ensures r.lastSeen == s.lastSeen && r.lostFrames == s.lostFrames
    ensures r.q == s.q && r.q2 == s.q2
    ensures z.Some? ==> r.position == z.value
    ensures z.None? ==> r.qEstimate == Predict(cfg.dt, s.qEstimate) && r.qEstimate2 == Predict(cfg.dt, s.qEstimate2)
    ensures z.Some? ==>
      r.qEstimate == Correct(Predict(cfg.dt, s.qEstimate), Gain(cfg, num, PredictCovariance(cfg, s.p)), z.value.x, z.value.y)
    ensures z.Some? ==>
      r.qEstimate2 == Correct(Predict(cfg.dt, s.qEstimate2), Gain(cfg, num, PredictCovariance(cfg, s.p2)), z.value.xTop, z.value.yTop)
    ensures r.p == PosteriorCovariance(Gain(cfg, num, PredictCovariance(cfg, s.p)), PredictCovariance(cfg, s.p))
    ensures r.p2 == PosteriorCovariance(Gain(cfg, num, PredictCovariance(cfg, s.p2)), PredictCovariance(cfg, s.p2))
    ensures z.None? ==> r.position == Box(r.qEstimate.x, r.qEstimate.y, r.qEstimate2.x, r.qEstimate2.y)
    ensures r.velocity == [r.qEstimate.vx, r.qEstimate.vy]
    ensures r.direction == Heading(num, r.position)
  {
    Emit(num, Filtered(cfg, num, s, z), z)
  }

  /** `n` prediction-only updates in a row. */
  function Coasted(cfg: KalmanConfig, num: Numerics, s: TrackState, n: nat): TrackState
    decreases n
  {
    if n == 0 then s else Update(cfg, num, Coasted(cfg, num, s, n - 1), None)
  }

  /** Both filters at rest, sitting at the coordinates of `b`. */
  predicate RestingAt(s: TrackState, b: Box)
  {
    AtRest(s.qEstimate) && AtRest(s.qEstimate2) &&
    s.qEstimate.x == b.x && s.qEstimate.y == b.y &&
    s.qEstimate2.x == b.xTop && s.qEstimate2.y == b.yTop
  }

  // ------------------------------------------------------------------ lemmas

  /** A prediction-only update of a resting tracker leaves it resting and emits
      the position it rests at. */
  lemma CoastWhileResting(cfg: KalmanConfig, num: Numerics, s: TrackState, b: Box)
    requires RestingAt(s, b)
    ensures RestingAt(Update(cfg, num, s, None), b)
    ensures Update(cfg, num, s, None).position == b
  {
    PredictAtRest(cfg.dt, s.qEstimate);
    PredictAtRest(cfg.dt, s.qEstimate2);
  }

  /** A tracker created with zero velocity and acceleration and from then on
      only coasted keeps emitting the position it was created at. */
  lemma {:induction false} CoastedFromRestKeepsPosition(cfg: KalmanConfig, num: Numerics, id: int,
                                                        position: Box, n: nat)
    ensures Coasted(cfg, num, Initial(cfg, num, id, position, [0.0, 0.0, 0.0, 0.0], [0.0, 0.0, 0.0, 0.0]), n).position
            == position
    ensures RestingAt(Coasted(cfg, num, Initial(cfg, num, id, position, [0.0, 0.0, 0.0, 0.0], [0.0, 0.0, 0.0, 0.0]), n),
                      position)
    decreases n
  {
    var s0 := Initial(cfg, num, id, position, [0.0, 0.0, 0.0, 0.0], [0.0, 0.0, 0.0, 0.0]);
    if n > 0 {
      CoastedFromRestKeepsPosition(cfg, num, id, position, n - 1);
      CoastWhileResting(cfg, num, Coasted(cfg, num, s0, n - 1), position);
    }
  }

  /** Coasting applies the transition matrix A to both state vectors. */
  lemma CoastIsTransition(cfg: KalmanConfig, num: Numerics, s: TrackState)
    ensures Column(Update(cfg, num, s, None).qEstimate) == Mul(Transition(cfg.dt), Column(s.qEstimate))
    ensures Column(Update(cfg, num, s, None).qEstimate2) == Mul(Transition(cfg.dt), Column(s.qEstimate2))
  {
    PredictIsTransition(cfg.dt, s.qEstimate);
    PredictIsTransition(cfg.dt, s.qEstimate2);
  }

  /** An update never touches the bookkeeping the manager owns, and the
      emitted centre is the measured one or the predicted one. */
  lemma UpdateKeepsBookkeeping(cfg: KalmanConfig, num: Numerics, s: TrackState, z: Option<Box>)
    ensures var r := Update(cfg, num, s, z);
      (r.id, r.detected, r.enabled, r.lastSeen, r.lostFrames) ==
      (s.id, s.detected, s.enabled, s.lastSeen, s.lostFrames)
    ensures var r := Update(cfg, num, s, z);
      z.Some? ==> r.position.x == z.value.x && r.position.y == z.value.y
    ensures var r := Update(cfg, num, s, z);
      z.None? ==> r.position.x == Predict(cfg.dt, s.qEstimate).x && r.position.y == Predict(cfg.dt, s.qEstimate).y
  {
  }

  // ------------------------------------------------------------------- class

  /** One tracked marker. The filter matrices are fixed at construction. */
  class ObjectTracker {
    const cfg: KalmanConfig
    const num: Numerics
    const q: State6
    const q2: State6
    const ez: Mat
    const ex: Mat
    const a: Mat
    const c: Mat
    var id: int
    var position: Box
    var velocity: seq<real>
    var direction: real
    var qEstimate: State6
    var qEstimate2: State6
    var p: Mat
    var p2: Mat
    var detected: bool
    var enabled: bool
    var lastSeen: int
    var lostFrames: nat

    /** The matrices are the ones the configuration determines. */
    predicate Valid()
    {
      ez == MeasurementNoise(cfg) && ex == ProcessNoise(cfg) &&
      a == Transition(cfg.dt) && c == Measurement()
    }

    function State(): TrackState
      reads this
    {
      TrackState(id, position, velocity, direction, q, q2, qEstimate, qEstimate2, p, p2,
                 detected, enabled, lastSeen, lostFrames)
    }

    constructor (id: int, position: Box, velocity: seq<real>, accel: seq<real>,
                 cfg: KalmanConfig, num: Numerics)
      requires |velocity| >= 4 && |accel| >= 4
      ensures Valid() && this.cfg == cfg && this.num == num
      ensures State() == Initial(cfg, num, id, position, velocity, accel)
    {
      var q0 := State6(position.x, position.y, velocity[0], velocity[1], accel[0], accel[1]);
      var q20 := State6(position.xTop, position.yTop, velocity[2], velocity[3], accel[2], accel[3]);
      var ex0 := ProcessNoise(cfg);
      this.cfg := cfg;
      this.num := num;
      this.id := id;
      this.position := position;
      this.velocity := velocity;
      this.direction := Heading(num, position);
      this.q := q0;
      this.q2 := q20;
      this.qEstimate := q0;
      this.qEstimate2 := q20;
      this.detected := true;
      this.enabled := true;
      this.lastSeen := 0;
      this.lostFrames := 0;
      this.ez := MeasurementNoise(cfg);
      this.ex := ex0;
      this.p := ex0;
      this.p2 := ex0;
      this.a := Transition(cfg.dt);
      this.c := Measurement();
    }

    /** One call of `updateState`: the filter step, then the emission. */
    method UpdateState(z: Option<Box>)
      requires Valid()
      modifies this
      ensures State() == Update(cfg, num, old(State()), z)
    {
      StepFilters(z);
      EmitPosition(z);
    }

    /** Predict both filters, correct them when a measurement is given, and
        update both covariances. */
    method StepFilters(z: Option<Box>)
      requires Valid()
      modifies this
      ensures State() == Filtered(cfg, num, old(State()), z)
    {
      // Predict is A·q written out (see Filter.PredictIsTransition).
      var qe := Predict(cfg.dt, qEstimate);
      var qe2 := Predict(cfg.dt, qEstimate2);
      var pp2 := Add(Mul(Mul(a, p2), Transpose(a)), ex);
      var pp := Add(Mul(Mul(a, p), Transpose(a)), ex);
      var k := Mul(Mul(pp, Transpose(c)), Inverse(num, Add(Mul(Mul(c, pp), Transpose(c)), ez)));
      var k2 := Mul(Mul(pp2, Transpose(c)), Inverse(num, Add(Mul(Mul(c, pp2), Transpose(c)), ez)));
      if z.Some? {
        qe := Correct(qe, k, z.value.x, z.value.y);
        qe2 := Correct(qe2, k2, z.value.xTop, z.value.yTop);
      }
      pp := Mul(Sub(Identity(6), Mul(k, c)), pp);
      pp2 := Mul(Sub(Identity(6), Mul(k2, c)), pp2);
      qEstimate, qEstimate2, p, p2 := qe, qe2, pp, pp2;
    }

    /** Emit velocity and position, and recompute the heading. */
    method EmitPosition(z: Option<Box>)
      modifies this
      ensures State() == Emit(num, old(State()), z)
    {
      velocity := [qEstimate.vx, qEstimate.vy];
      if z.None? {
        position := Box(qEstimate.x, qEstimate.y, qEstimate2.x, qEstimate2.y);
      } else {
        position := z.value;
      }
      direction := Heading(num, position);
    }
  }
}
