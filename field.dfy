/**
 * The vector field of the simple harmonic oscillator, dx/dt = v and
 * dv/dt = -omega^2 x, and the energy readouts shown beside the simulation
 * (mass fixed at 1, spring constant k = m omega^2).
 *
 * All arithmetic is over `real`; IEEE-754 rounding is not modelled.
 */
module HarmonicField {

  /** A point of the phase plane: position and velocity. */
  datatype Phase = Phase(x: real, v: real)

  /** dx/dt: the velocity. The position argument is unused, as in the source. */
  function FX(x: real, v: real): real
  {
    v
  }

  /**
   * dv/dt: the restoring acceleration. The source reads the angular
   * frequency from a global; here it is the parameter `omega`.
   */
  function FV(omega: real, x: real, v: real): real
  {
    -omega * omega * x
  }

  /** The field is linear in the state: it commutes with scaling and with sums of states. */
  lemma FieldIsLinear(omega: real, a: real, x1: real, v1: real, x2: real, v2: real)
    ensures FX(a * x1 + x2, a * v1 + v2) == a * FX(x1, v1) + FX(x2, v2)
    ensures FV(omega, a * x1 + x2, a * v1 + v2) == a * FV(omega, x1, v1) + FV(omega, x2, v2)
  {
  }

  /** The origin of the phase plane is an equilibrium of the field. */
  lemma OriginIsEquilibrium(omega: real)
    ensures FX(0.0, 0.0) == 0.0 && FV(omega, 0.0, 0.0) == 0.0
  {
  }

  /**
   * The field is tangent to the level sets of the total energy: the rate of
   * change of 0.5 v^2 + 0.5 omega^2 x^2 along the field is zero, so the exact
   * flow conserves energy.
   */
  lemma FieldConservesEnergy(omega: real, x: real, v: real)
    ensures omega * omega * x * FX(x, v) + v * FV(omega, x, v) == 0.0
  {
  }

  /** 0.5 k y^2 is never negative when k is not, and vanishes with either factor. */
  lemma HalfSquareSign(k: real, y: real)
    requires k >= 0.0
    ensures 0.5 * k * y * y >= 0.0
    ensures k == 0.0 || y == 0.0 ==> 0.5 * k * y * y == 0.0
  {
    if y < 0.0 {
      assert y * y == (-y) * (-y);
    }
    assert 0.5 * k * y * y == 0.5 * (k * (y * y));
  }

  /**
   * Potential energy 0.5 k x^2 with k = m omega^2 and m = 1: never negative,
   * and zero when the spring is slack or the frequency is zero.
   */
  function PotentialEnergy(omega: real, x: real): (e: real)
    ensures e >= 0.0
    ensures omega == 0.0 || x == 0.0 ==> e == 0.0
  {
    var m := 1.0;
    var k := m * omega * omega;
    HalfSquareSign(1.0, omega);
    assert k == omega * omega;
    HalfSquareSign(k, x);
    0.5 * k * x * x
  }

  /** Kinetic energy 0.5 m v^2 with m = 1: never negative, zero at rest. */
  function KineticEnergy(v: real): (e: real)
    ensures e >= 0.0
    ensures v == 0.0 ==> e == 0.0
  {
    var m := 1.0;
    HalfSquareSign(m, v);
    0.5 * m * v * v
  }

  /** The total mechanical energy of a phase point: the sum of the two readouts. */
  function Energy(omega: real, p: Phase): (e: real)
    ensures e >= 0.0
    ensures p.v == 0.0 && (omega == 0.0 || p.x == 0.0) ==> e == 0.0
  {
    PotentialEnergy(omega, p.x) + KineticEnergy(p.v)
  }
}
