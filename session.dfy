/**
 * The simulation session: the global state of the oscillator page (time,
 * position, velocity, angular frequency, the run flag) and the four
 * append-only series recorded for the plots (times, positions, velocities,
 * phase-plane trajectory).
 *
 * `Sim` is the value of that state and `Reset`, `Step` and `Toggle` are the
 * transitions as functions of it; `Session` is the state updated in place,
 * whose methods are proved to perform exactly those transitions.
 */
module Simulation {
  import opened HarmonicField
  import opened Rk4

  /** The integration step, fixed in the source. */
  const Dt: real := 0.01

  /** The simulated duration: no step is taken once the clock reaches it. */
  const TTotal: real := 10.0

  /** The largest index a recorded series can reach: TTotal / Dt. */
  const LastFrame: nat := 1000

  /** A snapshot of the session's globals and recorded series. */
  datatype Sim = Sim(t: real, x: real, v: real, omega: real, running: bool,
                     timeData: seq<real>, xData: seq<real>, vData: seq<real>,
                     trajectory: seq<Phase>)

  /** The time of the k-th recorded sample. */
  function SampleTime(k: nat): real
  {
    k as real * Dt
  }

  /**
   * The invariant of every reachable state: the four series have one entry
   * per recorded sample, the k-th sample is taken at time k dt and is the k-th
   * RK4 iterate of the first, the globals hold the last sample, and the clock
   * is less than one step past the end of the run. The run flag plays no part.
   */
  ghost predicate SeriesInvariant(omega: real, t: real, x: real, v: real,
                                  timeData: seq<real>, xData: seq<real>, vData: seq<real>, trajectory: seq<Phase>)
  {
    && |timeData| >= 1
    && |xData| == |timeData| && |vData| == |timeData| && |trajectory| == |timeData|
    && (forall k :: 0 <= k < |timeData| ==> timeData[k] == SampleTime(k))
    && (forall k :: 0 <= k < |trajectory| ==> xData[k] == trajectory[k].x && vData[k] == trajectory[k].v)
    && (forall k :: 0 <= k < |trajectory| ==> trajectory[k] == Iterate(omega, Dt, trajectory[0], k))
    && t == timeData[|timeData| - 1]
    && x == xData[|xData| - 1]
    && v == vData[|vData| - 1]
    && t < TTotal + Dt
  }

  /**
   * The invariant of a snapshot. It is stated over the fields, through
   * SeriesInvariant, so that states differing only in the run flag (a state
   * and its Toggle) share one invariant term and the proofs stay cheap.
   */
  ghost predicate Consistent(s: Sim)
  {
    SeriesInvariant(s.omega, s.t, s.x, s.v, s.timeData, s.xData, s.vData, s.trajectory)
  }

  /**
   * setParameters: the new initial conditions and frequency are installed,
   * the clock restarts at zero, every series holds the one initial sample,
   * and the run flag is left as it was.
   */
  function Reset(s: Sim, x0: real, v0: real, omega0: real): (r: Sim)
    ensures Consistent(r)
    ensures r.t == 0.0 && r.x == x0 && r.v == v0 && r.omega == omega0 && r.running == s.running
    ensures r.timeData == [0.0] && r.xData == [x0] && r.vData == [v0] && r.trajectory == [Phase(x0, v0)]
  {
    Sim(0.0, x0, v0, omega0, s.running, [0.0], [x0], [v0], [Phase(x0, v0)])
  }

  /**
   * The state after the page's initialisation: a reset to the entered values,
   * followed by setting the run flag, which is declared only after that reset.
   */
  function Initial(x0: real, v0: real, omega0: real): (r: Sim)
    ensures Consistent(r) && r.running
    ensures r == Reset(r, x0, v0, omega0)
  {
    Sim(0.0, x0, v0, omega0, true, [0.0], [x0], [v0], [Phase(x0, v0)])
  }

  /**
   * One animation frame of `simulate`: while the run flag is set and the
   * clock is below TTotal, advance by one RK4 step of size dt and record the
   * new sample in every series; otherwise change nothing.
   */
  function Step(s: Sim): Sim
  {
    if s.running && s.t < TTotal then
      var p := Rk4Step(s.omega, s.x, s.v, Dt);
      s.(t := s.t + Dt, x := p.x, v := p.v,
         timeData := s.timeData + [s.t + Dt], xData := s.xData + [p.x], vData := s.vData + [p.v],
         trajectory := s.trajectory + [Phase(p.x, p.v)])
    else
      s
  }

  /** toggleSim: flip the run flag. */
  function Toggle(s: Sim): Sim
  {
    s.(running := !s.running)
  }

  /** `k` successive animation frames. */
  function Run(s: Sim, k: nat): Sim
  {
    if k == 0 then s else Step(Run(s, k - 1))
  }

  // ---------------------------------------------------------------------
  // Properties of the transitions.
  // ---------------------------------------------------------------------

  /** The clock of a consistent snapshot is the time of its last sample. */
  lemma ClockIsLastSample(s: Sim)
    requires Consistent(s)
    ensures s.t == SampleTime(|s.timeData| - 1)
  {
  }

  /** An active frame appends exactly the next RK4 iterate and keeps every earlier sample. */
  lemma StepPreservesConsistent(s: Sim)
    requires Consistent(s)
    ensures Consistent(Step(s))
  {
    if s.running && s.t < TTotal {
      var n := |s.trajectory| - 1;
      var r := Step(s);
      assert s.trajectory[n] == Iterate(s.omega, Dt, s.trajectory[0], n);
      assert Phase(s.x, s.v) == s.trajectory[n];
      assert r.trajectory[n + 1] == Iterate(s.omega, Dt, s.trajectory[0], n + 1);
      assert r.trajectory[0] == s.trajectory[0];
      forall k | 0 <= k < |r.trajectory|
        ensures r.trajectory[k] == Iterate(r.omega, Dt, r.trajectory[0], k)
      {
        if k <= n {
          assert r.trajectory[k] == s.trajectory[k];
        }
      }
      forall k | 0 <= k < |r.timeData|
        ensures r.timeData[k] == SampleTime(k)
      {
        if k <= n {
          assert r.timeData[k] == s.timeData[k];
        }
      }
    }
  }

  /**
   * A frame changes the snapshot exactly when the run flag is set and the
   * clock is below TTotal; an active frame records one new sample in each
   * series and leaves the earlier ones in place.
   */
  lemma StepAppendsOneSample(s: Sim)
    requires Consistent(s)
    ensures Step(s) != s <==> s.running && s.t < TTotal
    ensures s.running && s.t < TTotal ==>
              && |Step(s).timeData| == |s.timeData| + 1
              && Step(s).timeData[..|s.timeData|] == s.timeData
              && Step(s).xData[..|s.xData|] == s.xData
              && Step(s).vData[..|s.vData|] == s.vData
              && Step(s).trajectory[..|s.trajectory|] == s.trajectory
              && Step(s).trajectory[|s.trajectory|] == Rk4Step(s.omega, s.x, s.v, Dt)
              && Step(s).t == s.t + Dt
  {
    if s.running && s.t < TTotal {
      assert |Step(s).timeData| != |s.timeData|;
    }
  }

  /** An inactive frame changes nothing, so repeating it changes nothing either. */
  lemma IdleStepIsIdempotent(s: Sim)
    requires !s.running || s.t >= TTotal
    ensures Step(s) == s && Step(Step(s)) == Step(s)
  {
  }

  /** Toggling flips only the run flag, and toggling twice restores the snapshot. */
  lemma ToggleFlipsOnlyTheFlag(s: Sim)
    ensures Toggle(s).running == !s.running
    ensures Toggle(s).(running := s.running) == s
    ensures Toggle(Toggle(s)) == s
  {
  }

  /** The invariant does not mention the run flag, so toggling keeps it. */
  lemma ToggleKeepsConsistent(s: Sim)
    requires Consistent(s)
    ensures Consistent(Toggle(s))
  {
  }

  /** A paused session stays where it is, frame after frame. */
  lemma {:induction false} PausedRunIsFrozen(s: Sim, k: nat)
    requires !s.running
    ensures Run(s, k) == s
  {
    if k > 0 {
      PausedRunIsFrozen(s, k - 1);
    }
  }

  /** Sample times strictly increase along the time series. */
  lemma TimesStrictlyIncrease(s: Sim)
    requires Consistent(s)
    ensures forall i, j :: 0 <= i < j < |s.timeData| ==> s.timeData[i] < s.timeData[j]
  {
    forall i, j | 0 <= i < j < |s.timeData|
      ensures s.timeData[i] < s.timeData[j]
    {
      assert s.timeData[i] == SampleTime(i) && s.timeData[j] == SampleTime(j);
    }
  }

  /** The clock stays below TTotal + dt, so no series outgrows LastFrame + 1 samples. */
  lemma SeriesAreBounded(s: Sim)
    requires Consistent(s)
    ensures |s.timeData| <= LastFrame + 1
  {
    ClockIsLastSample(s);
  }

  /**
   * A frame is idle exactly when the run is paused or the series already
   * holds its LastFrame + 1 samples.
   */
  lemma StepIsIdleIff(s: Sim)
    requires Consistent(s)
    ensures Step(s) == s <==> !s.running || |s.timeData| == LastFrame + 1
  {
    ClockIsLastSample(s);
    SeriesAreBounded(s);
    StepAppendsOneSample(s);
  }

  /**
   * Running from a consistent, running snapshot, each frame records one more
   * sample until the series hold LastFrame + 1 of them, and then nothing more.
   */
  lemma {:induction false} RunLength(s: Sim, k: nat)
    requires Consistent(s) && s.running
    ensures Consistent(Run(s, k)) && Run(s, k).running
    ensures |Run(s, k).timeData| == (if |s.timeData| - 1 + k <= LastFrame then |s.timeData| + k else LastFrame + 1)
  {
    SeriesAreBounded(s);
    if k > 0 {
      var r := Run(s, k - 1);
      RunLength(s, k - 1);
      StepPreservesConsistent(r);
      StepIsIdleIff(r);
      if |r.timeData| < LastFrame + 1 {
        StepAppendsOneSample(r);
      }
    }
  }

  /** Every recorded sample's energy is EnergyFactor(q)^k times the initial energy. */
  lemma RecordedEnergy(s: Sim, k: nat)
    requires Consistent(s) && k < |s.trajectory|
    ensures Energy(s.omega, s.trajectory[k]) == PredictedEnergy(s.omega, Dt, s.trajectory[0], k)
  {
    IterateScalesEnergy(s.omega, Dt, s.trajectory[0], k);
  }

  /** With omega^2 dt^2 <= 8 no recorded sample has more energy than the first. */
  lemma RecordedEnergyNeverGrows(s: Sim, k: nat)
    requires Consistent(s) && k < |s.trajectory|
    requires StepNumber(s.omega, Dt) <= 8.0
    ensures Energy(s.omega, s.trajectory[k]) <= Energy(s.omega, s.trajectory[0])
  {
    IterateEnergyBounded(s.omega, Dt, s.trajectory[0], k);
  }

  /**
   * At the page's default frequency omega = 2 the energy is nearly conserved:
   * no recorded sample has lost more than a 1e-4 fraction of the first
   * sample's energy, over the whole run of at most 1000 steps.
   */
  lemma NearlyConserved(s: Sim, k: nat)
    requires Consistent(s) && k < |s.trajectory|
    requires s.omega == 2.0
    ensures Energy(s.omega, s.trajectory[k]) >= 0.9999 * Energy(s.omega, s.trajectory[0])
    ensures Energy(s.omega, s.trajectory[k]) <= Energy(s.omega, s.trajectory[0])
  {
    SeriesAreBounded(s);
    assert StepNumber(2.0, Dt) == 0.0004;
    FactorAtMostOne(StepNumber(2.0, Dt));
    Bernoulli(EnergyFactor(StepNumber(2.0, Dt)), k);
    RecordedEnergy(s, k);
    RecordedEnergyNeverGrows(s, k);
    ScaledBelow(Energy(s.omega, s.trajectory[k]), Power(EnergyFactor(StepNumber(2.0, Dt)), k),
                Energy(s.omega, s.trajectory[0]), 0.9999);
  }

  // ---------------------------------------------------------------------
  // The session, updated in place.
  // ---------------------------------------------------------------------

  class Session {
    var t: real
    var x: real
    var v: real
    var omega: real
    var isRunning: bool
    var timeData: seq<real>
    var xData: seq<real>
    var vData: seq<real>
    var trajectoryPhase: seq<Phase>

    /** The current globals and series as a value. */
    function Snapshot(): Sim
      reads this
    {
      Sim(t, x, v, omega, isRunning, timeData, xData, vData, trajectoryPhase)
    }

    ghost predicate Valid()
      reads this
    {
      Consistent(Snapshot())
    }

    /** The page's initialisation: setParameters with the entered values, then start running. */
    constructor (x0: real, v0: real, omega0: real)
      ensures Valid()
      ensures Snapshot() == Initial(x0, v0, omega0)
    {
      t, x, v, omega := 0.0, x0, v0, omega0;
      timeData, xData, vData, trajectoryPhase := [t], [x], [v], [Phase(x, v)];
      isRunning := true;
    }

    /** setParameters: restart from the given values, keeping the run flag. */
    method SetParameters(x0: real, v0: real, omega0: real)
      modifies this
      ensures Valid()
      ensures Snapshot() == Reset(old(Snapshot()), x0, v0, omega0)
    {
      ghost var target := Reset(Snapshot(), x0, v0, omega0);
      x := x0;
      v := v0;
      omega := omega0;
      t := 0.0;
      timeData, xData, vData, trajectoryPhase := [], [], [], [];
      timeData := timeData + [t];
      xData := xData + [x];
      vData := vData + [v];
      trajectoryPhase := trajectoryPhase + [Phase(x, v)];
      assert Snapshot() == target;
    }

    /** toggleSim: flip the run flag and nothing else. */
    method ToggleSim()
      requires Valid()
      modifies this`isRunning
      ensures Valid()
      ensures Snapshot() == Toggle(old(Snapshot()))
    {
      ToggleKeepsConsistent(Snapshot());
      isRunning := !isRunning;
    }

    /** The guarded advance of one animation frame of `simulate`. */
    method Advance()
      requires Valid()
      modifies this
      ensures Valid()
      ensures Snapshot() == Step(old(Snapshot()))
    {
      StepPreservesConsistent(Snapshot());
      ghost var target := Step(Snapshot());
      if isRunning && t < TTotal {
        var result := Rk4Step(omega, x, v, Dt);
        x := result.x;
        v := result.v;
        t := t + Dt;
        timeData := timeData + [t];
        xData := xData + [x];
        vData := vData + [v];
        trajectoryPhase := trajectoryPhase + [Phase(x, v)];
      }
      assert Snapshot() == target;
    }

    /**
     * updateCalculator: the displayed position, velocity, potential energy
     * 0.5 k x^2 (k = m omega^2, m = 1) and kinetic energy 0.5 m v^2. Both
     * energies are non-negative, their sum is the predicted energy of the
     * current sample, and with omega^2 dt^2 <= 8 it never exceeds the energy
     * of the first sample.
     */
    method UpdateCalculator() returns (shownX: real, shownV: real, potential: real, kinetic: real)
      requires Valid()
      ensures shownX == x && shownV == v
      ensures potential == PotentialEnergy(omega, x) && kinetic == KineticEnergy(v)
      ensures potential >= 0.0 && kinetic >= 0.0
      ensures potential + kinetic == Energy(omega, Phase(x, v))
      ensures potential + kinetic == PredictedEnergy(omega, Dt, trajectoryPhase[0], |trajectoryPhase| - 1)
      ensures StepNumber(omega, Dt) <= 8.0 ==> potential + kinetic <= Energy(omega, trajectoryPhase[0])
    {
      shownX, shownV := x, v;
      potential := PotentialEnergy(omega, x);
      kinetic := KineticEnergy(v);
      var last := |trajectoryPhase| - 1;
      assert Phase(x, v) == trajectoryPhase[last];
      RecordedEnergy(Snapshot(), last);
      if StepNumber(omega, Dt) <= 8.0 {
        RecordedEnergyNeverGrows(Snapshot(), last);
      }
    }
  }
}
