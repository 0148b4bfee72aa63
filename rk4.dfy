/**
 * One fixed step of the classical fourth-order Runge-Kutta method on the
 * harmonic oscillator, and what it does to the phase plane. Over the reals
 * the step is a linear map of (x, v) given by a 2x2 matrix; it fixes the
 * rest state, commutes with scaling and sums of states, and multiplies the
 * total energy by a factor that depends only on q = omega^2 dt^2.
 */
module Rk4 {
  import opened HarmonicField

  /**
   * The slopes (f_x, f_v) evaluated at the trial point
   * (x + c kx dt, v + c kv dt) of one Runge-Kutta stage.
   */
  function Stage(omega: real, x: real, v: real, kx: real, kv: real, c: real, dt: real): Phase
  {
    Phase(FX(x + c * kx * dt, v + c * kv * dt), FV(omega, x + c * kx * dt, v + c * kv * dt))
  }

  /** The RK4 update y + dt/6 (k1 + 2 k2 + 2 k3 + k4) of one coordinate. */
  function Increment(y: real, dt: real, k1: real, k2: real, k3: real, k4: real): real
  {
    y + (dt / 6.0) * (k1 + 2.0 * k2 + 2.0 * k3 + k4)
  }

  /**
   * One RK4 step of size `dt` from (x, v). The second and third stages
   * sample the field half a step ahead, the fourth a full step ahead.
   */
  function Rk4Step(omega: real, x: real, v: real, dt: real): Phase
  {
    var k1x := FX(x, v);
    var k1v := FV(omega, x, v);
    var k2 := Stage(omega, x, v, k1x, k1v, 0.5, dt);
    var k3 := Stage(omega, x, v, k2.x, k2.v, 0.5, dt);
    var k4 := Stage(omega, x, v, k3.x, k3.v, 1.0, dt);
    Phase(Increment(x, dt, k1x, k2.x, k3.x, k4.x), Increment(v, dt, k1v, k2.v, k3.v, k4.v))
  }

  // ---------------------------------------------------------------------
  // The closed form: every stage slope is a linear form a x + b v.
  // ---------------------------------------------------------------------

  /** The coefficients (a, b) of a linear form a x + b v on the phase plane. */
  datatype Form = Form(a: real, b: real)

  /** The value a x + b v. */
  function Lin(a: real, b: real, x: real, v: real): real
  {
    a * x + b * v
  }

  /** The value of the form `f` at (x, v). */
  function Apply(f: Form, x: real, v: real): real
  {
    Lin(f.a, f.b, x, v)
  }

  /** q = omega^2 dt^2, the only combination of frequency and step the energy factor depends on. */
  function StepNumber(omega: real, dt: real): (q: real)
    ensures q >= 0.0
  {
    SquareSign(omega);
    SquareSign(dt);
    ProductSign(omega * omega, dt * dt);
    (omega * omega) * (dt * dt)
  }

  /** The diagonal entry of the step matrix: the degree-4 Taylor polynomial of cos(omega dt). */
  function Diagonal(omega: real, dt: real): real
  {
    1.0 - omega * omega * dt * dt / 2.0 + omega * omega * omega * omega * dt * dt * dt * dt / 24.0
  }

  /** The upper off-diagonal entry: the degree-3 Taylor polynomial of sin(omega dt) / omega. */
  function OffDiagonal(omega: real, dt: real): real
  {
    dt - omega * omega * dt * dt * dt / 6.0
  }

  /** The first row of the step matrix: new x as a form in the old (x, v). */
  function TopRow(omega: real, dt: real): Form
  {
    Form(Diagonal(omega, dt), OffDiagonal(omega, dt))
  }

  /** The second row of the step matrix: new v as a form in the old (x, v). */
  function BottomRow(omega: real, dt: real): Form
  {
    Form(-omega * omega * OffDiagonal(omega, dt), Diagonal(omega, dt))
  }

  /**
   * The reference definition of one step as a matrix applied to (x, v):
   *   [ c           s ]
   *   [ -omega^2 s  c ]
   * with c = Diagonal and s = OffDiagonal.
   */
  function MatrixStep(omega: real, dt: real, p: Phase): Phase
  {
    Phase(Apply(TopRow(omega, dt), p.x, p.v), Apply(BottomRow(omega, dt), p.x, p.v))
  }

  /** The x-slope of a stage whose incoming v-slope is the form `kv`. */
  function NextX(kv: Form, c: real, dt: real): Form
  {
    Form(c * dt * kv.a, 1.0 + c * dt * kv.b)
  }

  /** The v-slope of a stage whose incoming x-slope is the form `kx`. */
  function NextV(omega: real, kx: Form, c: real, dt: real): Form
  {
    Form(-omega * omega - omega * omega * c * dt * kx.a, -omega * omega * c * dt * kx.b)
  }

  /** The coefficients of y + dt/6 (k1 + 2 k2 + 2 k3 + k4) when y and every k are forms. */
  function Combine(y: Form, dt: real, k1: Form, k2: Form, k3: Form, k4: Form): Form
  {
    Form(y.a + dt / 6.0 * (k1.a + 2.0 * k2.a + 2.0 * k3.a + k4.a),
         y.b + dt / 6.0 * (k1.b + 2.0 * k2.b + 2.0 * k3.b + k4.b))
  }

  lemma StageX(omega: real, x: real, v: real, kx: Form, kv: Form, c: real, dt: real)
    ensures Stage(omega, x, v, Apply(kx, x, v), Apply(kv, x, v), c, dt).x == Apply(NextX(kv, c, dt), x, v)
  {
  }

  lemma StageV(omega: real, x: real, v: real, kx: Form, kv: Form, c: real, dt: real)
    ensures Stage(omega, x, v, Apply(kx, x, v), Apply(kv, x, v), c, dt).v == Apply(NextV(omega, kx, c, dt), x, v)
  {
  }

  /** A stage fed with linear slopes produces linear slopes. */
  lemma StageOfLinear(omega: real, x: real, v: real, kx: Form, kv: Form, c: real, dt: real)
    ensures Stage(omega, x, v, Apply(kx, x, v), Apply(kv, x, v), c, dt)
         == Phase(Apply(NextX(kv, c, dt), x, v), Apply(NextV(omega, kx, c, dt), x, v))
  {
    StageX(omega, x, v, kx, kv, c, dt);
    StageV(omega, x, v, kx, kv, c, dt);
  }

  lemma IncrementExplicit(y0: real, y1: real, dt: real, x: real, v: real, a1: real, b1: real, a2: real, b2: real,
                          a3: real, b3: real, a4: real, b4: real)
    ensures Increment(Lin(y0, y1, x, v), dt, Lin(a1, b1, x, v), Lin(a2, b2, x, v), Lin(a3, b3, x, v), Lin(a4, b4, x, v))
         == Lin(y0 + dt / 6.0 * (a1 + 2.0 * a2 + 2.0 * a3 + a4), y1 + dt / 6.0 * (b1 + 2.0 * b2 + 2.0 * b3 + b4), x, v)
  {
  }

  /** The weighted update of linear forms is the linear form of the combined coefficients. */
  lemma IncrementOfLinear(y: Form, dt: real, x: real, v: real, k1: Form, k2: Form, k3: Form, k4: Form)
    ensures Increment(Apply(y, x, v), dt, Apply(k1, x, v), Apply(k2, x, v), Apply(k3, x, v), Apply(k4, x, v))
         == Apply(Combine(y, dt, k1, k2, k3, k4), x, v)
  {
    IncrementExplicit(y.a, y.b, dt, x, v, k1.a, k1.b, k2.a, k2.b, k3.a, k3.b, k4.a, k4.b);
  }

  /** Second stage: the slopes after half a step along k1. */
  lemma SecondStageForms(omega: real, dt: real)
    ensures NextX(Form(-omega * omega, 0.0), 0.5, dt) == Form(-0.5 * omega * omega * dt, 1.0)
    ensures NextV(omega, Form(0.0, 1.0), 0.5, dt) == Form(-omega * omega, -0.5 * omega * omega * dt)
  {
  }

  /** Third stage: the slopes after half a step along k2. */
  lemma ThirdStageForms(omega: real, dt: real)
    ensures NextX(Form(-omega * omega, -0.5 * omega * omega * dt), 0.5, dt)
         == Form(-0.5 * omega * omega * dt, 1.0 - 0.25 * omega * omega * dt * dt)
    ensures NextV(omega, Form(-0.5 * omega * omega * dt, 1.0), 0.5, dt)
         == Form(-omega * omega + 0.25 * omega * omega * omega * omega * dt * dt, -0.5 * omega * omega * dt)
  {
  }

  /** Fourth stage: the slopes after a full step along k3. */
  lemma FourthStageForms(omega: real, dt: real)
    ensures NextX(Form(-omega * omega + 0.25 * omega * omega * omega * omega * dt * dt, -0.5 * omega * omega * dt), 1.0, dt)
         == Form(-omega * omega * dt + 0.25 * omega * omega * omega * omega * dt * dt * dt, 1.0 - 0.5 * omega * omega * dt * dt)
    ensures NextV(omega, Form(-0.5 * omega * omega * dt, 1.0 - 0.25 * omega * omega * dt * dt), 1.0, dt)
         == Form(-omega * omega + 0.5 * omega * omega * omega * omega * dt * dt,
                 -omega * omega * dt + 0.25 * omega * omega * omega * omega * dt * dt * dt)
  {
  }

  /** The weighted x-slopes give the top row of the step matrix. */
  lemma TopRowForms(omega: real, dt: real)
    ensures Combine(Form(1.0, 0.0), dt, Form(0.0, 1.0), Form(-0.5 * omega * omega * dt, 1.0),
                    Form(-0.5 * omega * omega * dt, 1.0 - 0.25 * omega * omega * dt * dt),
                    Form(-omega * omega * dt + 0.25 * omega * omega * omega * omega * dt * dt * dt, 1.0 - 0.5 * omega * omega * dt * dt))
         == TopRow(omega, dt)
  {
  }

  /** The weighted v-slopes give the bottom row of the step matrix. */
  lemma BottomRowForms(omega: real, dt: real)
    ensures Combine(Form(0.0, 1.0), dt, Form(-omega * omega, 0.0), Form(-omega * omega, -0.5 * omega * omega * dt),
                    Form(-omega * omega + 0.25 * omega * omega * omega * omega * dt * dt, -0.5 * omega * omega * dt),
                    Form(-omega * omega + 0.5 * omega * omega * omega * omega * dt * dt,
                         -omega * omega * dt + 0.25 * omega * omega * omega * omega * dt * dt * dt))
         == BottomRow(omega, dt)
  {
  }

  /** The stage coefficients, combined with the RK4 weights, give the rows of the step matrix. */
  lemma Coefficients(omega: real, dt: real)
    ensures var k1x := Form(0.0, 1.0);
            var k1v := Form(-omega * omega, 0.0);
            var k2x := NextX(k1v, 0.5, dt);
            var k2v := NextV(omega, k1x, 0.5, dt);
            var k3x := NextX(k2v, 0.5, dt);
            var k3v := NextV(omega, k2x, 0.5, dt);
            var k4x := NextX(k3v, 1.0, dt);
            var k4v := NextV(omega, k3x, 1.0, dt);
            Combine(Form(1.0, 0.0), dt, k1x, k2x, k3x, k4x) == TopRow(omega, dt)
            && Combine(Form(0.0, 1.0), dt, k1v, k2v, k3v, k4v) == BottomRow(omega, dt)
  {
    SecondStageForms(omega, dt);
    ThirdStageForms(omega, dt);
    FourthStageForms(omega, dt);
    TopRowForms(omega, dt);
    BottomRowForms(omega, dt);
  }

  /** The four-stage computation equals the closed-form matrix step. */
  lemma Rk4IsMatrixStep(omega: real, x: real, v: real, dt: real)
    ensures Rk4Step(omega, x, v, dt) == MatrixStep(omega, dt, Phase(x, v))
  {
    var k1x := Form(0.0, 1.0);
    var k1v := Form(-omega * omega, 0.0);
    assert FX(x, v) == Apply(k1x, x, v);
    assert FV(omega, x, v) == Apply(k1v, x, v);
    var k2x := NextX(k1v, 0.5, dt);
    var k2v := NextV(omega, k1x, 0.5, dt);
    StageOfLinear(omega, x, v, k1x, k1v, 0.5, dt);
    var k3x := NextX(k2v, 0.5, dt);
    var k3v := NextV(omega, k2x, 0.5, dt);
    StageOfLinear(omega, x, v, k2x, k2v, 0.5, dt);
    var k4x := NextX(k3v, 1.0, dt);
    var k4v := NextV(omega, k3x, 1.0, dt);
    StageOfLinear(omega, x, v, k3x, k3v, 1.0, dt);
    assert x == Apply(Form(1.0, 0.0), x, v);
    assert v == Apply(Form(0.0, 1.0), x, v);
    IncrementOfLinear(Form(1.0, 0.0), dt, x, v, k1x, k2x, k3x, k4x);
    IncrementOfLinear(Form(0.0, 1.0), dt, x, v, k1v, k2v, k3v, k4v);
    Coefficients(omega, dt);
  }

  // ---------------------------------------------------------------------
  // Consequences of the closed form.
  // ---------------------------------------------------------------------

  /** A step of size zero leaves the state unchanged. */
  lemma ZeroStepIsIdentity(omega: real, x: real, v: real)
    ensures Rk4Step(omega, x, v, 0.0) == Phase(x, v)
  {
    Rk4IsMatrixStep(omega, x, v, 0.0);
    assert TopRow(omega, 0.0) == Form(1.0, 0.0);
    assert BottomRow(omega, 0.0) == Form(0.0, 1.0);
  }

  /** The rest state is a fixed point of every step. */
  lemma RestIsFixedPoint(omega: real, dt: real)
    ensures Rk4Step(omega, 0.0, 0.0, dt) == Phase(0.0, 0.0)
  {
    Rk4IsMatrixStep(omega, 0.0, 0.0, dt);
  }

  /**
   * The linear combination a p + q. It is kept behind a function so that the
   * linearity lemmas close by congruence, without the solver's nonlinear
   * arithmetic having to match the products.
   */
  function Combo(a: real, p: real, q: real): real
  {
    a * p + q
  }

  /** A linear form commutes with scaling and sums of its arguments. */
  lemma ApplyIsLinear(f: Form, a: real, x1: real, v1: real, x2: real, v2: real)
    ensures Apply(f, a * x1 + x2, a * v1 + v2) == Combo(a, Apply(f, x1, v1), Apply(f, x2, v2))
  {
    assert f.a * (a * x1 + x2) + f.b * (a * v1 + v2) == a * (f.a * x1 + f.b * v1) + (f.a * x2 + f.b * v2);
  }

  /** The x-component of the step is linear in the state. */
  lemma StepXIsLinear(omega: real, dt: real, a: real, x1: real, v1: real, x2: real, v2: real)
    ensures Rk4Step(omega, a * x1 + x2, a * v1 + v2, dt).x
         == Combo(a, Rk4Step(omega, x1, v1, dt).x, Rk4Step(omega, x2, v2, dt).x)
  {
    Rk4IsMatrixStep(omega, a * x1 + x2, a * v1 + v2, dt);
    Rk4IsMatrixStep(omega, x1, v1, dt);
    Rk4IsMatrixStep(omega, x2, v2, dt);
    ApplyIsLinear(TopRow(omega, dt), a, x1, v1, x2, v2);
  }

  /** The v-component of the step is linear in the state. */
  lemma StepVIsLinear(omega: real, dt: real, a: real, x1: real, v1: real, x2: real, v2: real)
    ensures Rk4Step(omega, a * x1 + x2, a * v1 + v2, dt).v
         == Combo(a, Rk4Step(omega, x1, v1, dt).v, Rk4Step(omega, x2, v2, dt).v)
  {
    Rk4IsMatrixStep(omega, a * x1 + x2, a * v1 + v2, dt);
    Rk4IsMatrixStep(omega, x1, v1, dt);
    Rk4IsMatrixStep(omega, x2, v2, dt);
    ApplyIsLinear(BottomRow(omega, dt), a, x1, v1, x2, v2);
  }

  /** The step is linear: stepping a * s1 + s2 gives a * step(s1) + step(s2). */
  lemma StepIsLinear(omega: real, dt: real, a: real, x1: real, v1: real, x2: real, v2: real)
    ensures Rk4Step(omega, a * x1 + x2, a * v1 + v2, dt)
         == Phase(a * Rk4Step(omega, x1, v1, dt).x + Rk4Step(omega, x2, v2, dt).x,
                  a * Rk4Step(omega, x1, v1, dt).v + Rk4Step(omega, x2, v2, dt).v)
  {
    StepXIsLinear(omega, dt, a, x1, v1, x2, v2);
    StepVIsLinear(omega, dt, a, x1, v1, x2, v2);
  }

  /** Scaling the state by `a` scales the stepped state by `a`. */
  lemma StepCommutesWithScaling(omega: real, dt: real, a: real, x: real, v: real)
    ensures Rk4Step(omega, a * x, a * v, dt)
         == Phase(a * Rk4Step(omega, x, v, dt).x, a * Rk4Step(omega, x, v, dt).v)
  {
    StepIsLinear(omega, dt, a, x, v, 0.0, 0.0);
    RestIsFixedPoint(omega, dt);
  }

  // ---------------------------------------------------------------------
  // Energy.
  // ---------------------------------------------------------------------

  /** A non-negative quantity scaled by a factor in [1/4, 1] lies between a quarter of it and itself. */
  lemma ScaledBounds(after: real, g: real, before: real)
    requires after == g * before
    requires 0.25 <= g <= 1.0 && before >= 0.0
    ensures 0.25 * before <= after <= before
  {
    ProductSign(1.0 - g, before);
    ProductSign(g - 0.25, before);
  }

  lemma ProductSign(a: real, b: real)
    requires a >= 0.0 && b >= 0.0
    ensures a * b >= 0.0
  {
  }

  lemma SquareSign(a: real)
    ensures a * a >= 0.0
  {
    if a < 0.0 {
      assert a * a == (-a) * (-a);
    }
  }

  /**
   * The factor by which one step multiplies the total energy, as a function
   * of q = omega^2 dt^2: 1 - q^3/72 + q^4/576.
   */
  function EnergyFactor(q: real): real
  {
    1.0 - q * q * q / 72.0 + q * q * q * q / 576.0
  }

  /** The total energy written out: 0.5 omega^2 x^2 + 0.5 v^2. */
  lemma EnergyExplicit(omega: real, x: real, v: real)
    ensures Energy(omega, Phase(x, v)) == 0.5 * (omega * omega) * x * x + 0.5 * v * v
  {
  }

  /** The determinant c^2 + omega^2 s^2 of the matrix [c, s; -omega^2 s, c]. */
  function Determinant(omega: real, c: real, s: real): real
  {
    c * c + omega * omega * s * s
  }

  lemma RowsPolynomial(w: real, c: real, s: real, x: real, v: real)
    ensures 0.5 * (w * w) * Lin(c, s, x, v) * Lin(c, s, x, v) + 0.5 * Lin(-w * w * s, c, x, v) * Lin(-w * w * s, c, x, v)
         == Determinant(w, c, s) * (0.5 * (w * w) * x * x + 0.5 * v * v)
  {
    assert Lin(c, s, x, v) == c * x + s * v;
    assert Lin(-w * w * s, c, x, v) == -w * w * s * x + c * v;
    assert 0.5 * (w * w) * (c * x + s * v) * (c * x + s * v) + 0.5 * (-w * w * s * x + c * v) * (-w * w * s * x + c * v)
        == (c * c + w * w * s * s) * (0.5 * (w * w) * x * x + 0.5 * v * v);
  }

  /** A matrix of the step's shape multiplies the energy by its determinant. */
  lemma EnergyOfRows(omega: real, c: real, s: real, x: real, v: real)
    ensures Energy(omega, Phase(Lin(c, s, x, v), Lin(-omega * omega * s, c, x, v)))
         == Determinant(omega, c, s) * Energy(omega, Phase(x, v))
  {
    EnergyExplicit(omega, Lin(c, s, x, v), Lin(-omega * omega * s, c, x, v));
    EnergyExplicit(omega, x, v);
    RowsPolynomial(omega, c, s, x, v);
  }

  lemma FactorPolynomial(q: real)
    ensures (1.0 - q / 2.0 + q * q / 24.0) * (1.0 - q / 2.0 + q * q / 24.0) + q * (1.0 - q / 6.0) * (1.0 - q / 6.0)
         == 1.0 - q * q * q / 72.0 + q * q * q * q / 576.0
  {
  }

  /** The determinant of the step matrix is the energy factor of q. */
  lemma DeterminantIsEnergyFactor(omega: real, dt: real)
    ensures Determinant(omega, Diagonal(omega, dt), OffDiagonal(omega, dt)) == EnergyFactor(StepNumber(omega, dt))
  {
    var q := omega * omega * dt * dt;
    assert StepNumber(omega, dt) == q;
    assert Diagonal(omega, dt) == 1.0 - q / 2.0 + q * q / 24.0;
    var r := 1.0 - q / 6.0;
    assert OffDiagonal(omega, dt) == dt * r;
    assert omega * omega * (dt * r) * (dt * r) == q * r * r;
    FactorPolynomial(q);
  }

  /** One RK4 step multiplies the total energy by EnergyFactor(omega^2 dt^2). */
  lemma StepScalesEnergy(omega: real, dt: real, x: real, v: real)
    ensures Energy(omega, Rk4Step(omega, x, v, dt)) == EnergyFactor(StepNumber(omega, dt)) * Energy(omega, Phase(x, v))
  {
    Rk4IsMatrixStep(omega, x, v, dt);
    var c, s := Diagonal(omega, dt), OffDiagonal(omega, dt);
    assert MatrixStep(omega, dt, Phase(x, v)) == Phase(Lin(c, s, x, v), Lin(-omega * omega * s, c, x, v));
    EnergyOfRows(omega, c, s, x, v);
    DeterminantIsEnergyFactor(omega, dt);
  }

  /** The energy factor is at least 1/4 for every q. */
  lemma FactorAtLeastQuarter(q: real)
    ensures EnergyFactor(q) >= 0.25
  {
    var a := q - 6.0;
    var b := (q + 2.0) * (q + 2.0) + 8.0;
    SquareSign(a);
    SquareSign(q + 2.0);
    ProductSign(a * a, b);
    assert 576.0 * EnergyFactor(q) - 144.0 == a * a * b;
  }

  /** For 0 <= q <= 8 the energy factor is at most 1: the step never gains energy. */
  lemma FactorAtMostOne(q: real)
    requires 0.0 <= q <= 8.0
    ensures EnergyFactor(q) <= 1.0
  {
    ProductSign(q, q);
    ProductSign(q * q, q);
    ProductSign(q * q * q, 8.0 - q);
    assert 576.0 * (1.0 - EnergyFactor(q)) == q * q * q * (8.0 - q);
  }

  /**
   * The range of FactorAtMostOne is tight: G is exactly 1 at q = 0 and q = 8,
   * and above 1 for every q > 8, where each step gains energy.
   */
  lemma FactorIsOneAtEnds(q: real)
    ensures EnergyFactor(0.0) == 1.0 && EnergyFactor(8.0) == 1.0
    ensures q > 8.0 ==> EnergyFactor(q) > 1.0
  {
    if q > 8.0 {
      assert q * q > 64.0;
      assert q * q * q > 512.0;
      assert 576.0 * (EnergyFactor(q) - 1.0) == q * q * q * (q - 8.0);
      assert q * q * q * (q - 8.0) > 0.0;
    }
  }

  /**
   * With omega^2 dt^2 <= 8 a step never increases the energy, and it never
   * loses more than three quarters of it.
   */
  lemma StepEnergyBounds(omega: real, dt: real, x: real, v: real)
    requires StepNumber(omega, dt) <= 8.0
    ensures Energy(omega, Rk4Step(omega, x, v, dt)) <= Energy(omega, Phase(x, v))
    ensures Energy(omega, Rk4Step(omega, x, v, dt)) >= 0.25 * Energy(omega, Phase(x, v))
  {
    StepScalesEnergy(omega, dt, x, v);
    FactorAtMostOne(StepNumber(omega, dt));
    FactorAtLeastQuarter(StepNumber(omega, dt));
    ScaledBounds(Energy(omega, Rk4Step(omega, x, v, dt)), EnergyFactor(StepNumber(omega, dt)), Energy(omega, Phase(x, v)));
  }

  // ---------------------------------------------------------------------
  // Repeated steps.
  // ---------------------------------------------------------------------

  /** The state after `n` steps of size `dt` from `p`. */
  function Iterate(omega: real, dt: real, p: Phase, n: nat): Phase
  {
    if n == 0 then p
    else
      var q := Iterate(omega, dt, p, n - 1);
      Rk4Step(omega, q.x, q.v, dt)
  }

  /** b^n. */
  function Power(b: real, n: nat): real
  {
    if n == 0 then 1.0 else b * Power(b, n - 1)
  }

  /** The n-th step multiplies the energy reached after n - 1 steps by the energy factor. */
  lemma IterateStepScalesEnergy(omega: real, dt: real, p: Phase, n: nat)
    requires n > 0
    ensures Energy(omega, Iterate(omega, dt, p, n))
         == EnergyFactor(StepNumber(omega, dt)) * Energy(omega, Iterate(omega, dt, p, n - 1))
  {
    var q := Iterate(omega, dt, p, n - 1);
    StepScalesEnergy(omega, dt, q.x, q.v);
    assert q == Phase(q.x, q.v);
  }

  /** The energy predicted after n steps: EnergyFactor(q)^n times the initial energy. */
  function PredictedEnergy(omega: real, dt: real, p: Phase, n: nat): real
  {
    Power(EnergyFactor(StepNumber(omega, dt)), n) * Energy(omega, p)
  }

  /** Each further step multiplies the prediction by the energy factor. */
  lemma PredictedEnergyStep(omega: real, dt: real, p: Phase, n: nat)
    requires n > 0
    ensures PredictedEnergy(omega, dt, p, n) == EnergyFactor(StepNumber(omega, dt)) * PredictedEnergy(omega, dt, p, n - 1)
  {
    var g := EnergyFactor(StepNumber(omega, dt));
    assert Power(g, n) == g * Power(g, n - 1);
    assert g * Power(g, n - 1) * Energy(omega, p) == g * (Power(g, n - 1) * Energy(omega, p));
  }

  /** After n steps the energy is EnergyFactor(q)^n times the initial energy. */
  lemma {:induction false} IterateScalesEnergy(omega: real, dt: real, p: Phase, n: nat)
    ensures Energy(omega, Iterate(omega, dt, p, n)) == PredictedEnergy(omega, dt, p, n)
  {
    if n > 0 {
      IterateScalesEnergy(omega, dt, p, n - 1);
      IterateStepScalesEnergy(omega, dt, p, n);
      PredictedEnergyStep(omega, dt, p, n);
    }
  }

  /** With omega^2 dt^2 <= 8 the energy never exceeds its initial value. */
  lemma {:induction false} IterateEnergyBounded(omega: real, dt: real, p: Phase, n: nat)
    requires StepNumber(omega, dt) <= 8.0
    ensures Energy(omega, Iterate(omega, dt, p, n)) <= Energy(omega, p)
  {
    if n > 0 {
      var q := Iterate(omega, dt, p, n - 1);
      IterateEnergyBounded(omega, dt, p, n - 1);
      StepEnergyBounds(omega, dt, q.x, q.v);
      assert q == Phase(q.x, q.v);
    }
  }

  /** Starting at rest, every iterate is at rest. */
  lemma {:induction false} IterateFromRest(omega: real, dt: real, n: nat)
    ensures Iterate(omega, dt, Phase(0.0, 0.0), n) == Phase(0.0, 0.0)
  {
    if n > 0 {
      IterateFromRest(omega, dt, n - 1);
      RestIsFixedPoint(omega, dt);
    }
  }

  /** Bernoulli's inequality for a factor in [0, 1]: g^n >= 1 - n (1 - g). */
  lemma {:induction false} Bernoulli(g: real, n: nat)
    requires 0.0 <= g <= 1.0
    ensures Power(g, n) >= 1.0 - n as real * (1.0 - g)
  {
    if n > 0 {
      Bernoulli(g, n - 1);
      BernoulliStep(Power(g, n - 1), g, (n - 1) as real);
    }
  }

  /** The induction step of Bernoulli's inequality: if p >= 1 - m (1 - g), then g p >= 1 - (m + 1)(1 - g). */
  lemma BernoulliStep(p: real, g: real, m: real)
    requires 0.0 <= g <= 1.0 && m >= 0.0
    requires p >= 1.0 - m * (1.0 - g)
    ensures g * p >= 1.0 - (m + 1.0) * (1.0 - g)
  {
    ProductSign(g, p - (1.0 - m * (1.0 - g)));
    ProductSign(1.0 - g, m * (1.0 - g));
    ProductSign(m, 1.0 - g);
    assert g * (1.0 - m * (1.0 - g)) == 1.0 - (m + 1.0) * (1.0 - g) + (1.0 - g) * (m * (1.0 - g));
  }

  /** A non-negative quantity scaled by a factor of at least lo is at least lo times itself. */
  lemma ScaledBelow(after: real, g: real, before: real, lo: real)
    requires after == g * before
    requires g >= lo && before >= 0.0
    ensures after >= lo * before
  {
    ProductSign(g - lo, before);
  }
}
