/**
  The constant-acceleration Kalman filter shared by both object trackers.

  The state vector and its transition are modelled exactly over `real`; the
  covariance algebra (A·P·Aᵗ + Ex, P·Cᵗ·(C·P·Cᵗ + Ez)⁻¹, (I − K·C)·P) is written
  out with exact matrix operations, and only the matrix inverse and `atan2`
  are left uninterpreted, as the fields of a `Numerics` record.
 */
module Filter {
  import opened Wrappers
  import opened Geometry

  /** The state vector [x, y, vx, vy, ax, ay] of one filter. */
  datatype State6 = State6(x: real, y: real, vx: real, vy: real, ax: real, ay: real)

  /** A dense row-major matrix; reading outside its rows and columns gives 0. */
  type Mat = seq<seq<real>>

  /** The filter constants (sampling step, plant noise, measurement noise). */
  datatype KalmanConfig = KalmanConfig(dt: real, accNoiseMag: real,
                                       measurementNoiseX: real, measurementNoiseY: real)

  /** Floating-point numerics the model does not interpret. */
  datatype Numerics = Numerics(inverse: Mat -> Mat, atan2: (real, real) -> real)

  // ---------------------------------------------------------------- matrices

  function Entry(m: Mat, i: int, j: int): real
  {
    if 0 <= i < |m| && 0 <= j < |m[i]| then m[i][j] else 0.0
  }

  function Width(m: Mat): nat
  {
    if |m| == 0 then 0 else |m[0]|
  }

  /** Sum over k < n of a[i][k] * b[k][j]. */
  function DotUpTo(a: Mat, b: Mat, i: int, j: int, n: nat): real
    decreases n
  {
    if n == 0 then 0.0 else DotUpTo(a, b, i, j, n - 1) + Entry(a, i, n - 1) * Entry(b, n - 1, j)
  }

  function Mul(a: Mat, b: Mat): Mat
  {
    seq(|a|, i => seq(Width(b), j => DotUpTo(a, b, i, j, Width(a))))
  }

  function Add(a: Mat, b: Mat): Mat
  {
    seq(|a|, i => seq(Width(a), j => Entry(a, i, j) + Entry(b, i, j)))
  }

  function Sub(a: Mat, b: Mat): Mat
  {
    seq(|a|, i => seq(Width(a), j => Entry(a, i, j) - Entry(b, i, j)))
  }

  function Transpose(m: Mat): Mat
  {
    seq(Width(m), i => seq(|m|, j => Entry(m, j, i)))
  }

  function Scale(m: Mat, c: real): Mat
  {
    seq(|m|, i => seq(Width(m), j => Entry(m, i, j) * c))
  }

  function Identity(n: nat): Mat
  {
    seq(n, i => seq(n, j => if i == j then 1.0 else 0.0))
  }

  function Pow(x: real, n: nat): real
  {
    if n == 0 then 1.0 else x * Pow(x, n - 1)
  }

  /** The state vector as a 6×1 column. */
  function Column(q: State6): Mat
  {
    [[q.x], [q.y], [q.vx], [q.vy], [q.ax], [q.ay]]
  }

  // ----------------------------------------------------- the filter matrices

  /** A: position integrates velocity and half the acceleration, velocity
      integrates acceleration, acceleration is kept. */
  function Transition(dt: real): Mat
  {
    [[1.0, 0.0, dt, 0.0, dt * dt / 2.0, 0.0],
     [0.0, 1.0, 0.0, dt, 0.0, dt * dt / 2.0],
     [0.0, 0.0, 1.0, 0.0, dt, 0.0],
     [0.0, 0.0, 0.0, 1.0, 0.0, dt],
     [0.0, 0.0, 0.0, 0.0, 1.0, 0.0],
     [0.0, 0.0, 0.0, 0.0, 0.0, 1.0]]
  }

  /**
   * One block of Ex before scaling: the covariance between derivative `a` and
   * derivative `b` of a coordinate (0 position, 1 velocity, 2 acceleration),
   * from dt⁵/20 for two positions down to dt for two accelerations.
   */
  function NoiseBlock(dt: real, a: int, b: int): real
  {
    if a + b == 0 then Pow(dt, 5) / 20.0
    else if a + b == 1 then Pow(dt, 4) / 8.0
    else if a + b == 2 && a == 1 then Pow(dt, 3) / 3.0
    else if a + b == 2 then Pow(dt, 3) / 6.0
    else if a + b == 3 then Pow(dt, 2) / 2.0
    else dt
  }

  /**
   * The table of Ex before scaling, rows and columns ordered x, y, vx, vy, ax, ay:
   * entries pairing x with y are zero, the others are the block of their derivatives.
   */
  function NoiseShape(dt: real): Mat
  {
    seq(6, i => seq(6, j => if i % 2 == j % 2 then NoiseBlock(dt, i / 2, j / 2) else 0.0))
  }

  /** Ex: the white-noise-acceleration process noise, scaled by accNoiseMag² / 3. */
  function ProcessNoise(cfg: KalmanConfig): Mat
  {
    Scale(NoiseShape(cfg.dt), cfg.accNoiseMag * cfg.accNoiseMag / 3.0)
  }

  /** C: the measurement extracts [x, y] from the state. */
  function Measurement(): Mat
  {
    [[1.0, 0.0, 0.0, 0.0, 0.0, 0.0],
     [0.0, 1.0, 0.0, 0.0, 0.0, 0.0]]
  }

  /** Ez = diag(measurementNoiseX, measurementNoiseY). */
  function MeasurementNoise(cfg: KalmanConfig): Mat
  {
    [[cfg.measurementNoiseX, 0.0], [0.0, cfg.measurementNoiseY]]
  }

  // ------------------------------------------------------------ filter steps

  /** q ← A·q, written out row by row. */
  function Predict(dt: real, q: State6): State6
  {
    State6(q.x + dt * q.vx + dt * dt / 2.0 * q.ax,
           q.y + dt * q.vy + dt * dt / 2.0 * q.ay,
           q.vx + dt * q.ax,
           q.vy + dt * q.ay,
           q.ax,
           q.ay)
  }

  /** P ← A·P·Aᵗ + Ex. */
  function PredictCovariance(cfg: KalmanConfig, p: Mat): Mat
  {
    Add(Mul(Mul(Transition(cfg.dt), p), Transpose(Transition(cfg.dt))), ProcessNoise(cfg))
  }

  /** K = P·Cᵗ·(C·P·Cᵗ + Ez)⁻¹, the inverse being uninterpreted. */
  function Gain(cfg: KalmanConfig, num: Numerics, p: Mat): Mat
  {
    var c := Measurement();
    Mul(Mul(p, Transpose(c)), Inverse(num, Add(Mul(Mul(c, p), Transpose(c)), MeasurementNoise(cfg))))
  }

  /** The uninterpreted matrix inverse. */
  function Inverse(num: Numerics, m: Mat): Mat
  {
    num.inverse(m)
  }

  /** P ← (I − K·C)·P. */
  function PosteriorCovariance(k: Mat, p: Mat): Mat
  {
    Mul(Sub(Identity(6), Mul(k, Measurement())), p)
  }

  /** Row i of a 6×2 gain applied to the position error (ex, ey). */
  function GainRow(k: Mat, i: int, ex: real, ey: real): real
  {
    Entry(k, i, 0) * ex + Entry(k, i, 1) * ey
  }

  /** q ← q + K·(z − C·q) for a 6×2 gain K and a measurement z = (zx, zy). */
  function Correct(q: State6, k: Mat, zx: real, zy: real): (r: State6)
    ensures zx == q.x && zy == q.y ==> r == q
  {
    var ex, ey := zx - q.x, zy - q.y;
    State6(q.x + GainRow(k, 0, ex, ey), q.y + GainRow(k, 1, ex, ey),
           q.vx + GainRow(k, 2, ex, ey), q.vy + GainRow(k, 3, ex, ey),
           q.ax + GainRow(k, 4, ex, ey), q.ay + GainRow(k, 5, ex, ey))
  }

  /** The two filters of one tracker: centre (q, p) and top point (q2, p2). */
  datatype Estimate = Estimate(q: State6, q2: State6, p: Mat, p2: Mat)

  /** One update of both filters: predict, compute the gains, correct only when
      a measurement is supplied, and update the covariances on both paths. */
  function Step(cfg: KalmanConfig, num: Numerics, e: Estimate, z: Option<Box>): (r: Estimate)
    ensures z.None? ==> r.q == Predict(cfg.dt, e.q) && r.q2 == Predict(cfg.dt, e.q2)
    ensures z.Some? ==>
      r.q == Correct(Predict(cfg.dt, e.q), Gain(cfg, num, PredictCovariance(cfg, e.p)), z.value.x, z.value.y)
    ensures z.Some? ==>
      r.q2 == Correct(Predict(cfg.dt, e.q2), Gain(cfg, num, PredictCovariance(cfg, e.p2)), z.value.xTop, z.value.yTop)
    ensures r.p == PosteriorCovariance(Gain(cfg, num, PredictCovariance(cfg, e.p)), PredictCovariance(cfg, e.p))
    ensures r.p2 == PosteriorCovariance(Gain(cfg, num, PredictCovariance(cfg, e.p2)), PredictCovariance(cfg, e.p2))
  {
    var q, q2 := Predict(cfg.dt, e.q), Predict(cfg.dt, e.q2);
    var p2 := PredictCovariance(cfg, e.p2);
    var p := PredictCovariance(cfg, e.p);
    var k, k2 := Gain(cfg, num, p), Gain(cfg, num, p2);
    match z
    case Some(b) =>
      Estimate(Correct(q, k, b.x, b.y), Correct(q2, k2, b.xTop, b.yTop),
               PosteriorCovariance(k, p), PosteriorCovariance(k2, p2))
    case None =>
      Estimate(q, q2, PosteriorCovariance(k, p), PosteriorCovariance(k2, p2))
  }

  /** The position a tracker emits after an update: the measurement verbatim
      when one is supplied, otherwise the two predicted positions. */
  function Emitted(z: Option<Box>, q: State6, q2: State6): (b: Box)
    ensures z.Some? ==> b == z.value
    ensures z.None? ==> b.x == q.x && b.y == q.y && b.xTop == q2.x && b.yTop == q2.y
  {
    match z
    case Some(m) => m
    case None => Box(q.x, q.y, q2.x, q2.y)
  }

  /** Heading from the centre to the top point. */
  function Heading(num: Numerics, b: Box): real
  {
    num.atan2(b.yTop - b.y, b.xTop - b.x)
  }

  /** A state that neither moves nor accelerates. */
  predicate AtRest(q: State6)
  {
    q.vx == 0.0 && q.vy == 0.0 && q.ax == 0.0 && q.ay == 0.0
  }

  // ------------------------------------------------------------------ lemmas

  /** `Predict` is the matrix product A·q of the transition matrix. */
  lemma PredictIsTransition(dt: real, q: State6)
    ensures Mul(Transition(dt), Column(q)) == Column(Predict(dt, q))
  {
    TransitionShape(dt);
    MulColumn(Transition(dt), Column(q));
    TransitionRow(dt, q, 0, q.x, q.vx, q.ax);
    TransitionRow(dt, q, 1, q.y, q.vy, q.ay);
    TransitionVelocityRow(dt, q, 2, q.vx, q.ax);
    TransitionVelocityRow(dt, q, 3, q.vy, q.ay);
    TransitionAccelerationRow(dt, q, 4, q.ax);
    TransitionAccelerationRow(dt, q, 5, q.ay);
    var a, c, p := Transition(dt), Column(q), Predict(dt, q);
    assert Mul(a, c) == [[DotUpTo(a, c, 0, 0, 6)], [DotUpTo(a, c, 1, 0, 6)], [DotUpTo(a, c, 2, 0, 6)],
                          [DotUpTo(a, c, 3, 0, 6)], [DotUpTo(a, c, 4, 0, 6)], [DotUpTo(a, c, 5, 0, 6)]];
    assert DotUpTo(a, c, 0, 0, 6) == p.x && DotUpTo(a, c, 1, 0, 6) == p.y;
    assert DotUpTo(a, c, 2, 0, 6) == p.vx && DotUpTo(a, c, 3, 0, 6) == p.vy;
    assert DotUpTo(a, c, 4, 0, 6) == p.ax && DotUpTo(a, c, 5, 0, 6) == p.ay;
    assert Mul(a, c) == [[p.x], [p.y], [p.vx], [p.vy], [p.ax], [p.ay]];
  }

  lemma TransitionShape(dt: real)
    ensures |Transition(dt)| == 6 && Width(Transition(dt)) == 6
  {
  }

  /** A position row of A·q: position + dt·velocity + dt²/2·acceleration. */
  lemma TransitionRow(dt: real, q: State6, i: int, pos: real, vel: real, acc: real)
    requires (i == 0 && pos == q.x && vel == q.vx && acc == q.ax) ||
             (i == 1 && pos == q.y && vel == q.vy && acc == q.ay)
    ensures DotUpTo(Transition(dt), Column(q), i, 0, 6) == pos + dt * vel + dt * dt / 2.0 * acc
  {
    DotRow(Transition(dt), Column(q), i);
  }

  /** A velocity row of A·q: velocity + dt·acceleration. */
  lemma TransitionVelocityRow(dt: real, q: State6, i: int, vel: real, acc: real)
    requires (i == 2 && vel == q.vx && acc == q.ax) || (i == 3 && vel == q.vy && acc == q.ay)
    ensures DotUpTo(Transition(dt), Column(q), i, 0, 6) == vel + dt * acc
  {
    DotRow(Transition(dt), Column(q), i);
  }

  /** An acceleration row of A·q keeps the acceleration. */
  lemma TransitionAccelerationRow(dt: real, q: State6, i: int, acc: real)
    requires (i == 4 && acc == q.ax) || (i == 5 && acc == q.ay)
    ensures DotUpTo(Transition(dt), Column(q), i, 0, 6) == acc
  {
    DotRow(Transition(dt), Column(q), i);
  }

  /** A 6-row matrix times a column, entry by entry. */
  lemma MulColumn(a: Mat, c: Mat)
    requires |a| == 6 && Width(a) == 6 && Width(c) == 1
    ensures Mul(a, c) == [[DotUpTo(a, c, 0, 0, 6)], [DotUpTo(a, c, 1, 0, 6)], [DotUpTo(a, c, 2, 0, 6)],
                          [DotUpTo(a, c, 3, 0, 6)], [DotUpTo(a, c, 4, 0, 6)], [DotUpTo(a, c, 5, 0, 6)]]
  {
    var m := Mul(a, c);
    forall i | 0 <= i < 6
      ensures m[i] == [DotUpTo(a, c, i, 0, 6)]
    {
    }
  }

  /** One entry of a matrix times a column, unrolled over six columns. */
  lemma DotRow(a: Mat, c: Mat, i: int)
    ensures DotUpTo(a, c, i, 0, 6) ==
      Entry(a, i, 0) * Entry(c, 0, 0) + Entry(a, i, 1) * Entry(c, 1, 0) + Entry(a, i, 2) * Entry(c, 2, 0) +
      Entry(a, i, 3) * Entry(c, 3, 0) + Entry(a, i, 4) * Entry(c, 4, 0) + Entry(a, i, 5) * Entry(c, 5, 0)
  {
    var t0, t1, t2 := Entry(a, i, 0) * Entry(c, 0, 0), Entry(a, i, 1) * Entry(c, 1, 0), Entry(a, i, 2) * Entry(c, 2, 0);
    var t3, t4, t5 := Entry(a, i, 3) * Entry(c, 3, 0), Entry(a, i, 4) * Entry(c, 4, 0), Entry(a, i, 5) * Entry(c, 5, 0);
    assert DotUpTo(a, c, i, 0, 1) == t0;
    assert DotUpTo(a, c, i, 0, 2) == t0 + t1;
    assert DotUpTo(a, c, i, 0, 3) == t0 + t1 + t2;
    assert DotUpTo(a, c, i, 0, 4) == t0 + t1 + t2 + t3;
    assert DotUpTo(a, c, i, 0, 5) == t0 + t1 + t2 + t3 + t4;
  }

  /** `Correct` is q + K·(z − C·q) in matrix form, for a 6×2 gain. */
  lemma CorrectIsGainUpdate(q: State6, k: Mat, zx: real, zy: real)
    requires |k| == 6 && forall i :: 0 <= i < 6 ==> |k[i]| == 2
    ensures Column(Correct(q, k, zx, zy)) ==
            Add(Column(q), Mul(k, Sub([[zx], [zy]], Mul(Measurement(), Column(q)))))
  {
    var c := Column(q);
    var innov := Sub([[zx], [zy]], Mul(Measurement(), c));
    Innovation(q, zx, zy);
    assert Width(k) == 2 by { assert |k[0]| == 2; }
    var corr := Mul(k, innov);
    MulTwoColumn(k, innov);
    AddColumn(c, corr);
    CorrectByEntries(q, k, zx, zy, corr);
  }

  /** The innovation z − C·q is the 2×1 column of position errors. */
  lemma Innovation(q: State6, zx: real, zy: real)
    ensures var innov := Sub([[zx], [zy]], Mul(Measurement(), Column(q)));
      |innov| == 2 && Width(innov) == 1 && Entry(innov, 0, 0) == zx - q.x && Entry(innov, 1, 0) == zy - q.y
  {
    MeasureColumn(q);
  }

  /** `Correct` adds, to each component, the matching entry of K·(z − C·q). */
  lemma CorrectByEntries(q: State6, k: Mat, zx: real, zy: real, corr: Mat)
    requires forall i :: 0 <= i < 6 ==> Entry(corr, i, 0) == GainRow(k, i, zx - q.x, zy - q.y)
    ensures Column(Correct(q, k, zx, zy)) ==
            [[q.x + Entry(corr, 0, 0)], [q.y + Entry(corr, 1, 0)], [q.vx + Entry(corr, 2, 0)],
             [q.vy + Entry(corr, 3, 0)], [q.ax + Entry(corr, 4, 0)], [q.ay + Entry(corr, 5, 0)]]
  {
    assert Entry(corr, 0, 0) == GainRow(k, 0, zx - q.x, zy - q.y);
    assert Entry(corr, 1, 0) == GainRow(k, 1, zx - q.x, zy - q.y);
    assert Entry(corr, 2, 0) == GainRow(k, 2, zx - q.x, zy - q.y);
    assert Entry(corr, 3, 0) == GainRow(k, 3, zx - q.x, zy - q.y);
    assert Entry(corr, 4, 0) == GainRow(k, 4, zx - q.x, zy - q.y);
    assert Entry(corr, 5, 0) == GainRow(k, 5, zx - q.x, zy - q.y);
  }

  /** A 6×2 matrix times a 2×1 column, entry by entry. */
  lemma MulTwoColumn(k: Mat, v: Mat)
    requires |k| == 6 && Width(k) == 2 && Width(v) == 1
    ensures |Mul(k, v)| == 6
    ensures forall i :: 0 <= i < 6 ==> Entry(Mul(k, v), i, 0) == GainRow(k, i, Entry(v, 0, 0), Entry(v, 1, 0))
  {
    forall i | 0 <= i < 6
      ensures Entry(Mul(k, v), i, 0) == GainRow(k, i, Entry(v, 0, 0), Entry(v, 1, 0))
    {
      assert Mul(k, v)[i] == [DotUpTo(k, v, i, 0, 2)];
      assert DotUpTo(k, v, i, 0, 1) == DotUpTo(k, v, i, 0, 0) + Entry(k, i, 0) * Entry(v, 0, 0);
      assert DotUpTo(k, v, i, 0, 2) == DotUpTo(k, v, i, 0, 1) + Entry(k, i, 1) * Entry(v, 1, 0);
    }
  }

  /** A 6×1 column plus another matrix, entry by entry. */
  lemma AddColumn(a: Mat, b: Mat)
    requires |a| == 6 && forall i :: 0 <= i < 6 ==> |a[i]| == 1
    ensures Add(a, b) == [[a[0][0] + Entry(b, 0, 0)], [a[1][0] + Entry(b, 1, 0)], [a[2][0] + Entry(b, 2, 0)],
                          [a[3][0] + Entry(b, 3, 0)], [a[4][0] + Entry(b, 4, 0)], [a[5][0] + Entry(b, 5, 0)]]
  {
    var r := Add(a, b);
    assert Width(a) == 1;
    forall i | 0 <= i < 6
      ensures r[i] == [a[i][0] + Entry(b, i, 0)]
    {
      assert |r[i]| == 1 && r[i][0] == Entry(a, i, 0) + Entry(b, i, 0);
    }
  }

  /** C·q picks the position out of the state. */
  lemma MeasureColumn(q: State6)
    ensures Mul(Measurement(), Column(q)) == [[q.x], [q.y]]
  {
    var m, c := Measurement(), Column(q);
    assert Width(m) == 6 && Width(c) == 1;
    DotRow(m, c, 0);
    DotRow(m, c, 1);
    var r := Mul(m, c);
    assert r[0] == [DotUpTo(m, c, 0, 0, 6)];
    assert r[1] == [DotUpTo(m, c, 1, 0, 6)];
    assert DotUpTo(m, c, 0, 0, 6) == q.x && DotUpTo(m, c, 1, 0, 6) == q.y;
  }

  /** A state at rest is a fixed point of prediction. */
  lemma PredictAtRest(dt: real, q: State6)
    requires AtRest(q)
    ensures Predict(dt, q) == q
  {
  }

  /** A power of a non-negative real is non-negative. */
  lemma {:induction false} PowNonNegative(x: real, n: nat)
    requires 0.0 <= x
    ensures 0.0 <= Pow(x, n)
  {
    if n > 0 {
      PowNonNegative(x, n - 1);
    }
  }

  /** Scaling a 6×6 matrix keeps its shape and multiplies every entry. */
  lemma ScaleEntries(m: Mat, c: real)
    requires |m| == 6 && forall i :: 0 <= i < 6 ==> |m[i]| == 6
    ensures |Scale(m, c)| == 6 && forall i :: 0 <= i < 6 ==> |Scale(m, c)[i]| == 6
    ensures forall i, j :: 0 <= i < 6 && 0 <= j < 6 ==> Scale(m, c)[i][j] == m[i][j] * c
  {
  }

  /** Scaling keeps a 6×6 matrix symmetric and keeps its zeros. */
  lemma ScaleSymmetric(m: Mat, c: real)
    requires |m| == 6 && forall i :: 0 <= i < 6 ==> |m[i]| == 6
    requires forall i, j :: 0 <= i < 6 && 0 <= j < 6 ==> m[i][j] == m[j][i]
    requires forall i, j :: 0 <= i < 6 && 0 <= j < 6 && (i + j) % 2 == 1 ==> m[i][j] == 0.0
    ensures |Scale(m, c)| == 6 && forall i :: 0 <= i < 6 ==> |Scale(m, c)[i]| == 6
    ensures forall i, j :: 0 <= i < 6 && 0 <= j < 6 ==> Scale(m, c)[i][j] == Scale(m, c)[j][i]
    ensures forall i, j :: 0 <= i < 6 && 0 <= j < 6 && (i + j) % 2 == 1 ==> Scale(m, c)[i][j] == 0.0
  {
    ScaleEntries(m, c);
  }

  /** The unscaled table is symmetric, 6×6, and zero wherever x meets y. */
  lemma NoiseShapeEntries(dt: real)
    ensures |NoiseShape(dt)| == 6 && Width(NoiseShape(dt)) == 6
    ensures forall i :: 0 <= i < 6 ==> |NoiseShape(dt)[i]| == 6
    ensures forall i, j :: 0 <= i < 6 && 0 <= j < 6 ==> NoiseShape(dt)[i][j] == NoiseShape(dt)[j][i]
    ensures forall i, j :: 0 <= i < 6 && 0 <= j < 6 && (i + j) % 2 == 1 ==> NoiseShape(dt)[i][j] == 0.0
    ensures 0.0 <= dt ==> forall i :: 0 <= i < 6 ==> 0.0 <= NoiseShape(dt)[i][i]
    ensures NoiseShape(dt)[0][0] == Pow(dt, 5) / 20.0 && NoiseShape(dt)[5][5] == dt
  {
    if 0.0 <= dt {
      PowNonNegative(dt, 5);
      PowNonNegative(dt, 3);
    }
  }

  /**
   * Ex (and so both initial covariances) is a symmetric 6×6 matrix that never
   * couples x with y.
   */
  lemma ProcessNoiseShape(cfg: KalmanConfig)
    ensures |ProcessNoise(cfg)| == 6 && forall i :: 0 <= i < 6 ==> |ProcessNoise(cfg)[i]| == 6
    ensures forall i, j :: 0 <= i < 6 && 0 <= j < 6 ==> ProcessNoise(cfg)[i][j] == ProcessNoise(cfg)[j][i]
    ensures forall i, j :: 0 <= i < 6 && 0 <= j < 6 && (i + j) % 2 == 1 ==> ProcessNoise(cfg)[i][j] == 0.0
  {
    var c := cfg.accNoiseMag * cfg.accNoiseMag / 3.0;
    NoiseShapeEntries(cfg.dt);
    ScaleSymmetric(NoiseShape(cfg.dt), c);
  }

  /** For a non-negative dt every variance on the diagonal of Ex is non-negative. */
  lemma ProcessNoiseDiagonal(cfg: KalmanConfig)
    requires 0.0 <= cfg.dt
    ensures |ProcessNoise(cfg)| == 6 && forall i :: 0 <= i < 6 ==> |ProcessNoise(cfg)[i]| == 6
    ensures forall i :: 0 <= i < 6 ==> 0.0 <= ProcessNoise(cfg)[i][i]
  {
    var c := cfg.accNoiseMag * cfg.accNoiseMag / 3.0;
    var m := NoiseShape(cfg.dt);
    NoiseShapeEntries(cfg.dt);
    ScaleEntries(m, c);
    assert 0.0 <= c;
    forall i | 0 <= i < 6
      ensures 0.0 <= ProcessNoise(cfg)[i][i]
    {
      assert 0.0 <= m[i][i];
    }
  }

  /** Every entry of Ex is the table's entry scaled by accNoiseMag² / 3: dt⁵/20 for
      the variance of a position, dt for that of an acceleration. */
  lemma ProcessNoiseEntries(cfg: KalmanConfig)
    ensures forall i, j :: 0 <= i < 6 && 0 <= j < 6 ==>
      ProcessNoise(cfg)[i][j] == NoiseShape(cfg.dt)[i][j] * (cfg.accNoiseMag * cfg.accNoiseMag / 3.0)
    ensures ProcessNoise(cfg)[0][0] == Pow(cfg.dt, 5) / 20.0 * (cfg.accNoiseMag * cfg.accNoiseMag / 3.0)
    ensures ProcessNoise(cfg)[5][5] == cfg.dt * (cfg.accNoiseMag * cfg.accNoiseMag / 3.0)
  {
    var c := cfg.accNoiseMag * cfg.accNoiseMag / 3.0;
    ScaleEntries(NoiseShape(cfg.dt), c);
  }
}
