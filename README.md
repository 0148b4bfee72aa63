# Harmonic oscillator RK4 simulator: verified model of the numerical core

The page in `index.js` simulates the undamped simple harmonic oscillator
x'' + omega^2 x = 0. It integrates the first-order system dx/dt = v,
dv/dt = -omega^2 x with one fixed step of the classical fourth-order
Runge-Kutta method per animation frame. The step is dt = 0.01 and the run
lasts T_total = 10 seconds. The page records every sample in four
append-only series: times, positions, velocities and the phase-plane
trajectory. It displays the potential and kinetic energy of the current
state. A button pauses and resumes the run. Entering new initial
conditions restarts it.

This project models that core in Dafny over the reals:

- `field.dfy` (module `HarmonicField`) holds the vector field `f_x`, `f_v`
  and the two energy readouts of `updateCalculator` (mass 1, k = m omega^2).
- `rk4.dfy` (module `Rk4`) holds `rk4Step`, written stage by stage as in the
  source, with its algebra:
  - Over the reals the step is the linear map
    x' = c x + s v, v' = -omega^2 s x + c v, where
    c = 1 - q/2 + q^2/24, s = dt - omega^2 dt^3 / 6 and q = omega^2 dt^2.
  - Consequences: dt = 0 is the identity; the rest state is fixed; the step
    commutes with scaling and with sums of states.
  - Each step multiplies the total energy by exactly
    G(q) = 1 - q^3/72 + q^4/576. G(q) is at least 1/4 for every q. It is at
    most 1 for 0 <= q <= 8, so there the scheme never gains energy, and
    above 1 for q > 8.
  - The same holds after n steps, with factor G(q)^n. At the page's default
    omega = 2 the whole run of 1000 steps loses at most a 1e-4 fraction of
    the initial energy.
- `session.dfy` (module `Simulation`) holds the page's globals and series.
  - `Sim` is that state as a value.
  - `Reset` (`setParameters`), `Step` (one frame of `simulate`) and `Toggle`
    (`toggleSim`) are the transitions as functions.
  - `Consistent` is the invariant every reachable state keeps. The series
    have equal lengths. The k-th time is k dt. The k-th phase point is the
    k-th RK4 iterate of the first. The globals hold the last sample. The
    clock is below T_total + dt, so the series never exceed 1001 samples.
  - The class `Session` holds the same globals and series as fields. Its
    methods (`SetParameters`, `ToggleSim`, `Advance`, `UpdateCalculator` and
    the constructor, which is the page's initialisation) are proved to make
    exactly these transitions and to keep the invariant.

The source performs no validation of the entered values (`setParameters`
reads them with `parseFloat` and installs them as they are). The model
follows the code. It has no configuration error, and `Reset` accepts any
real initial conditions and frequency. dt and T_total are the constants of
the source, not parameters.

## Model

| member | source | states |
|---|---|---|
| HarmonicField.FX | index.js:23-25 | f_x: dx/dt is the velocity v; the position argument is unused (properties in FieldIsLinear, OriginIsEquilibrium, FieldConservesEnergy) |
| HarmonicField.FV | index.js:26-28 | f_v: dv/dt is -omega^2 x, with omega a parameter instead of the global the source reads (properties in the same three lemmas) |
| HarmonicField.FieldIsLinear | index.js:23-28 | f_x and f_v commute with scaling and with sums of states |
| HarmonicField.OriginIsEquilibrium | index.js:23-28 | the field vanishes at the origin for every omega |
| HarmonicField.FieldConservesEnergy | index.js:23-28 | along the field, the rate of change of omega^2 x^2/2 + v^2/2 is zero |
| HarmonicField.PotentialEnergy | index.js:228-233 | 0.5 k x^2 with k = m omega^2 is never negative, and is zero when omega or x is zero |
| HarmonicField.KineticEnergy | index.js:228-234 | 0.5 m v^2 is never negative, and is zero at rest |
| HarmonicField.Energy | index.js:228-235 | the sum of the two readouts is never negative, and is zero at the rest state |
| Rk4.Stage | index.js:35-42 | one stage: both slopes f_x and f_v evaluated at the trial point (x + c kx dt, v + c kv dt), with c = 1/2 for k2 and k3 and c = 1 for k4 |
| Rk4.Increment | index.js:44-45 | the update y + (dt/6)(k1 + 2 k2 + 2 k3 + k4) of one coordinate |
| Rk4.Rk4Step | index.js:31-47 | rk4Step: k1 at (x, v), then k2, k3, k4 through Stage, then newX and newV through Increment (closed form in Rk4IsMatrixStep, energy in StepScalesEnergy) |
| Rk4.StageOfLinear | index.js:35-42 | a stage whose incoming slopes are linear forms in (x, v) gives linear slopes, with the stated coefficients |
| Rk4.IncrementOfLinear | index.js:44-45 | the weighted update y + dt/6 (k1 + 2 k2 + 2 k3 + k4) of linear forms is the linear form of the combined coefficients |
| Rk4.Coefficients | index.js:31-47 | the four stages combined with the RK4 weights give the rows [c, s] and [-omega^2 s, c] |
| Rk4.Rk4IsMatrixStep | index.js:31-47 | the four-stage step equals the closed-form matrix step, for all x, v, omega, dt |
| Rk4.StepNumber | index.js:31-47 | q = omega^2 dt^2 is never negative |
| Rk4.ZeroStepIsIdentity | index.js:31-47 | a step of size zero returns the state unchanged |
| Rk4.RestIsFixedPoint | index.js:31-47 | the rest state (0, 0) is fixed by every step |
| Rk4.StepIsLinear | index.js:31-47 | stepping a s1 + s2 gives a step(s1) + step(s2) |
| Rk4.StepCommutesWithScaling | index.js:31-47 | stepping a s gives a step(s) |
| Rk4.DeterminantIsEnergyFactor | index.js:31-47 | the determinant c^2 + omega^2 s^2 of the step matrix is G(q) = 1 - q^3/72 + q^4/576 |
| Rk4.StepScalesEnergy | index.js:31-47 | one step multiplies the total energy by exactly G(omega^2 dt^2) |
| Rk4.FactorAtLeastQuarter | index.js:31-47 | G(q) >= 1/4 for every q |
| Rk4.FactorAtMostOne | index.js:31-47 | G(q) <= 1 for 0 <= q <= 8 |
| Rk4.FactorIsOneAtEnds | index.js:31-47 | G(0) = G(8) = 1 and G(q) > 1 for every q > 8, so the range of FactorAtMostOne is tight (q = 8 is |omega| about 283 at dt = 0.01) |
| Rk4.StepEnergyBounds | index.js:31-47 | with q <= 8, one step keeps the energy between a quarter of its value and its value |
| Rk4.IterateScalesEnergy | index.js:271-275 | after n steps the energy is G(q)^n times the initial energy |
| Rk4.IterateEnergyBounded | index.js:271-275 | with q <= 8, no iterate has more energy than the starting state |
| Rk4.IterateFromRest | index.js:271-275 | from rest, every iterate is at rest |
| Rk4.Bernoulli | index.js:271-275 | for a per-step factor g in [0, 1], g^n >= 1 - n (1 - g), bounding the energy lost over n steps |
| Simulation.Reset | index.js:238-254 | setParameters gives a consistent state: clock 0, x = x0, v = v0, the new frequency, the one sample 0, x0, v0, (x0, v0) in the four series, and the run flag unchanged |
| Simulation.Initial | index.js:260-262 | initialisation is a reset to the entered values followed by setting the run flag; the state is consistent and running |
| Simulation.Step | index.js:271-280 | one frame of simulate: if running and t < T_total, rk4Step from (x, v) with dt, t += dt, and one push to each of the four series; otherwise the state is returned unchanged (properties in StepPreservesConsistent, StepAppendsOneSample, StepIsIdleIff) |
| Simulation.Toggle | index.js:264-266 | toggleSim: isRunning := !isRunning, every other field kept (properties in ToggleFlipsOnlyTheFlag, ToggleKeepsConsistent) |
| Simulation.Run | index.js:270-287 | k successive frames of simulate, the requestAnimationFrame loop cut to a finite number of calls (properties in RunLength, PausedRunIsFrozen) |
| Simulation.ClockIsLastSample | index.js:271-276 | in a consistent state the clock is (number of samples - 1) dt |
| Simulation.StepPreservesConsistent | index.js:270-280 | a frame keeps the invariant, including that the new phase point is the next RK4 iterate |
| Simulation.StepAppendsOneSample | index.js:271-280 | a frame changes the state exactly when the flag is set and t < T_total; it then appends one sample to each series, keeps the earlier samples, records rk4Step of the last sample and adds dt to the clock |
| Simulation.IdleStepIsIdempotent | index.js:271 | a paused or finished frame changes nothing, so repeating it changes nothing |
| Simulation.StepIsIdleIff | index.js:271 | in a consistent state, a frame is idle exactly when paused or when the series already hold 1001 samples |
| Simulation.ToggleFlipsOnlyTheFlag | index.js:264-266 | toggleSim negates the run flag, changes nothing else, and toggling twice restores the state |
| Simulation.ToggleKeepsConsistent | index.js:264-266 | toggling keeps the invariant |
| Simulation.PausedRunIsFrozen | index.js:270-287 | while paused, any number of frames leaves the state unchanged |
| Simulation.TimesStrictlyIncrease | index.js:271-276 | recorded sample times strictly increase |
| Simulation.SeriesAreBounded | index.js:271-276 | no series holds more than T_total/dt + 1 = 1001 samples |
| Simulation.RunLength | index.js:270-287 | running for k frames keeps the invariant and the flag; each frame adds one sample until there are 1001, then nothing more |
| Simulation.RecordedEnergy | index.js:271-279 | the energy of the k-th recorded sample is G(q)^k times the energy of the first |
| Simulation.RecordedEnergyNeverGrows | index.js:271-279 | with q <= 8, no recorded sample has more energy than the first |
| Simulation.NearlyConserved | index.js:271-279 | at the default omega = 2 every recorded sample keeps between 0.9999 and 1 times the first sample's energy, over the whole run |
| Simulation.Session.constructor | index.js:260-262 | the page's initialisation yields the valid state Initial(x0, v0, omega0) |
| Simulation.Session.SetParameters | index.js:238-257 | the new state is Reset of the old one, and is valid |
| Simulation.Session.ToggleSim | index.js:264-267 | only the run flag changes (frame `isRunning`); the new state is Toggle of the old one, and is valid |
| Simulation.Session.Advance | index.js:270-280 | the new state is Step of the old one, and is valid |
| Simulation.Session.UpdateCalculator | index.js:228-235 | shows x and v, the potential energy 0.5 k x^2 with k = m omega^2 and the kinetic energy 0.5 m v^2 (m = 1); both are non-negative; their sum is G(q)^n times the first sample's energy; with q <= 8 it is at most that energy |

## Left out

- Drawing: the canvas code (`phaseToPixelX`, `phaseToPixelY`, `drawVectorField`, `drawPhaseTrajectory`, `drawTimeSeries`) only renders the state, and has no effect on it.
- DOM input and output: the text formatting with `toFixed(2)`, the pause button's label, and reading the inputs. `parseFloat` becomes the real parameters of `Reset` and the constructor, so NaN and non-numeric input are not modelled.
- The period display `2 pi / omega` in `setParameters`: it is output only, and needs pi and a division that is undefined at omega = 0.
- `requestAnimationFrame` scheduling: the endless frame loop is modelled as `Run`, any finite number of calls to `Step`.
- `cargarVTVT` (index.js:292) is not part of this model; it is outside the numerical core.
- IEEE-754 rounding: all arithmetic is over the reals. In floating point the clock after 1000 additions of 0.01 need not equal 10 exactly, so the source may record one sample more than the 1001 stated.
- Simulation.SeriesAreBounded: the bound holds in exact arithmetic only, for the reason above.
- Simulation.RunLength: the exact count holds in exact arithmetic only, for the same reason.
- Accuracy against the exact solution (cosine and sine) and fourth-order convergence are not stated, because the model has no transcendental functions. What is proved is the exact closed form of one step and its energy factor.
- HarmonicField.PotentialEnergy: states non-negativity and the zero cases, not that the energy is strictly positive when omega and x are both non-zero.
- HarmonicField.KineticEnergy: states non-negativity and the zero case, not that the energy is strictly positive when v is non-zero.
