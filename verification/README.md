# quantum-simulator core in Dafny

This project models the numerical core of quantum-simulator, a C++ program that solves the
two-dimensional time-dependent Schrödinger equation. It uses the split-step Fourier method on
a periodic grid. The model covers:

- **Field** (`field.dfy`): the complex wavefunction grid `Wavefunction`. It is an `nx` by `ny`
  grid stored row-major, with cell `(i, j)` at index `i * ny + j`. The module also holds the
  per-cell probability density |ψ|² and the integrated probability Σ|ψ|²·dx·dy.
- **Potentials** (`potentials.dfy`): the three potentials and the factory that builds one
  from a type name and a parameter list. The potentials are free space, the square barrier
  or well, and the harmonic oscillator. Their behaviour follows the potential unit tests.
- **WaveNumbers** (`wave_numbers.dfy`): the discrete wave-number array of one axis, as the
  engine fills it.
- **Solver** (`solver.dfy`): the simulation engine. This covers its fields, and a step as a
  half potential phase, a full kinetic phase in momentum space and a second half potential
  phase. It also covers time keeping, reset, construction, reconfiguration, swapping the
  potential, and the density and total-probability queries.
- **Controls** (`ui_control.dfy`): the pure parts of the control panel. These are the
  run-state machine driven by buttons, keys and events, and the bounded log of recent events.
  They also include copying the panel's fields into a `PhysicsConfig`, the time-step clamp,
  the parameter defaults that a change of potential type restores, and what the two
  "Apply" buttons do to the engine.
- `complexes.dfy`, `config.dfy`, `results.dfy` and `primitives.dfy` hold supporting
  definitions:
  - complex numbers over exact reals;
  - the `PhysicsConfig` record;
  - `Option`/`Result`;
  - the numerical primitives the engine calls.

Some of what the engine uses is not visible code: exp(iθ), π, the FFTW transforms and the
Gaussian initialiser. These enter as a `Primitives.Numerics` value. Its `Valid()` predicate
lists the only facts the proofs use:

- |exp(iθ)| = 1 and exp(0) = 1;
- the transforms keep the grid size;
- Parseval's identity for the unnormalised transforms: the sum of |z|² is multiplied by `nx*ny`;
- backward(forward(s)) = nx·ny·s and forward(backward(g)) = nx·ny·g;
- the forward transform commutes with scaling by a real: forward(c·s) = c·forward(s);
- the Gaussian grid has `nx*ny` cells.

The potential classes' lower bounds on barrier width and oscillator frequency are not visible.
The edge convention of the barrier is not visible either. All three enter as a
`Potentials.Conventions` value. The failure of FFTW plan creation enters as a boolean. In the
control panel, two things are parameters:

- the capacity of the event log (`MAX_RECENT_EVENTS`, whose value is not visible);
- the string-to-number conversion of a "dt" configuration event (`std::stof`).

Notes on how the model reads the code:

- In `src/solver/SimulationEngine.cpp`, the comment at line 33 describes the wave numbers as
  running from -N/2 to N/2-1. The loops at lines 34-48 put the Nyquist sample of an even axis
  at +N/2 instead. The model follows the code: `WaveNumbers.FrequencyNyquist`.
- The factory's defaults for missing parameters are not visible code, and the tests pin them
  down only loosely. A barrier given only its height must have that height at the origin
  (`tests/unit/PotentialTests.cpp:111-114`). An oscillator given no parameters must be
  non-zero at (1, 1) (`tests/unit/PotentialTests.cpp:116-119`). The values the model uses
  are its own choice: frequency 1 for the oscillator, and width 0.5 and centre (0, 0) for the
  barrier. They are the values the control panel restores when a potential type is selected,
  and `Controls.SelectionDefaultsMatchFactory` connects the two. An unknown type name gives free space,
  as `tests/unit/PotentialTests.cpp:106-108` expects.
- The engine builds its grid from a value-initialised wavepacket
  (`src/solver/SimulationEngine.cpp:59-60`), not from the configured one. The model keeps this
  behaviour: `Solver.ConstructIgnoresWavepacket` and `Controls.WavepacketEditsDoNotReachEngine`
  state it.

## Model

| member | source | states |
|---|---|---|
| Field.New | src/core/Wavefunction.h:21-34 | a new grid has the requested dimensions, nx·ny cells, and every cell is 0 |
| Field.Get | src/core/Wavefunction.h:36-54 | both accessors read the one storage position whose quotient and remainder by ny are the row i and the column j |
| Field.IndexInRange | src/core/Wavefunction.h:42-44 | a cell (i, j) inside the grid maps to a position inside the row-major storage |
| Field.IndexDivMod | src/core/Wavefunction.h:42-44 | the row and column are recovered from the flat index by division and remainder by ny |
| Field.IndexInjective | src/core/Wavefunction.h:42-54 | distinct cells never share storage |
| Field.IndexSurjective | src/core/Wavefunction.h:42-54 | every storage position is the cell (k / ny, k % ny) |
| Field.Set | tests/unit/WavefunctionTests.cpp:19-21 | writing a cell keeps the grid valid and its dimensions unchanged |
| Field.GetSetSame | tests/unit/WavefunctionTests.cpp:19-21 | a value written to a cell is read back from it |
| Field.GetSetOther | src/core/Wavefunction.h:42-54 | writing one cell leaves every other cell unchanged |
| Field.Density | src/solver/SimulationEngine.h:76-80 | the density snapshot has one non-negative entry per cell |
| Field.DensityAt | src/solver/SimulationEngine.h:76-80 | the snapshot's entry for cell (i, j) is \|ψ(i, j)\|² |
| Field.TotalProbability | src/solver/SimulationEngine.h:70-74 | Σ\|ψ\|²·dx·dy with dx = Lx/nx and dy = Ly/ny is non-negative, and zero exactly when Σ\|ψ\|² is zero |
| Field.TotalProbabilityZero | src/solver/SimulationEngine.h:70-74 | the total probability is zero exactly when every cell of the grid is zero |
| Field.SumDensities | src/solver/SimulationEngine.h:70-80 | summing the density snapshot gives Σ\|ψ\|² over the grid |
| Complexes.UnitFactorKeepsNormSq | src/solver/SimulationEngine.cpp:120-123 | multiplying by a phase of modulus one keeps \|ψ\|² of the cell |
| Complexes.NormSqMul | src/solver/SimulationEngine.cpp:145-148 | \|a·b\|² = \|a\|²·\|b\|² for the complex product |
| Complexes.NormSqZero | src/solver/SimulationEngine.h:70-74 | \|z\|² is zero exactly for z = 0 |
| Complexes.TotalBoundsCell | src/solver/SimulationEngine.h:70-74 | no single cell's \|z\|² exceeds Σ\|ψ\|² |
| Complexes.TotalZero | src/solver/SimulationEngine.h:70-74 | Σ\|ψ\|² is zero exactly when every cell is zero |
| Complexes.TotalScaleAll | src/solver/SimulationEngine.cpp:155-161 | scaling every cell by c scales Σ\|ψ\|² by c² |
| Potentials.Kind | tests/unit/PotentialTests.cpp:6-76 | the type tag is "FreeSpace", "SquareBarrier" or "HarmonicOscillator", and it names exactly the potential's variant |
| Potentials.Evaluate | tests/unit/PotentialTests.cpp:6-45 | free space is 0 everywhere; a barrier is its height strictly inside its square and 0 strictly outside; an oscillator is never negative |
| Potentials.NewSquareBarrier | tests/unit/PotentialTests.cpp:48-54 | a barrier is built with a positive width; a width at or above the minimum is kept, a smaller one is raised; height and centre are kept |
| Potentials.NewHarmonicOscillator | tests/unit/PotentialTests.cpp:79-85 | an oscillator is built with a positive frequency; one at or above the minimum is kept |
| Potentials.BarrierCentre | tests/unit/PotentialTests.cpp:18-45 | a barrier (or a well, for a negative height) has its height at its own centre |
| Potentials.HarmonicShape | tests/unit/PotentialTests.cpp:57-85 | the oscillator is 0 at the origin, positive everywhere else, even in x and y, and symmetric under swapping x and y, even for an invalid frequency |
| Potentials.HarmonicFormula | tests/unit/PotentialTests.cpp:57-76 | an oscillator with an accepted frequency is 0.5·ω²·(x² + y²) |
| Potentials.HarmonicQuadratic | tests/unit/PotentialTests.cpp:65-72 | doubling the distance from the origin quadruples the oscillator potential |
| Potentials.Create | tests/unit/PotentialTests.cpp:88-108 | the factory returns a well-formed potential of the named kind, or free space for an unknown name |
| Potentials.CreateRoundTrip | tests/unit/PotentialTests.cpp:88-103 | building from a potential's own kind name and parameter list gives back that potential |
| Potentials.CreateDefaults | tests/unit/PotentialTests.cpp:110-119 | a barrier given only its height still has that height at the origin; an oscillator given no parameters has the default frequency and is positive away from the origin |
| WaveNumbers.Frequency | src/solver/SimulationEngine.cpp:34-48 | the frequency of sample m lies in [N/2+1-N, N/2] and is congruent to m modulo N |
| WaveNumbers.FrequencyUnique | src/solver/SimulationEngine.cpp:34-48 | no other integer of that window is congruent to m |
| WaveNumbers.FrequencyInjective | src/solver/SimulationEngine.cpp:34-48 | distinct samples have distinct frequencies |
| WaveNumbers.FrequencySurjective | src/solver/SimulationEngine.cpp:34-48 | every frequency of the window belongs to some sample |
| WaveNumbers.FrequencyZero | src/solver/SimulationEngine.cpp:34-40 | sample 0 is the zero frequency |
| WaveNumbers.FrequencyMirror | src/solver/SimulationEngine.cpp:34-48 | samples m and N-m have opposite frequencies, except the Nyquist sample |
| WaveNumbers.FrequencyNyquist | src/solver/SimulationEngine.cpp:33-40 | the Nyquist sample of an even axis is +N/2 |
| WaveNumbers.WaveNumberInjective | src/solver/SimulationEngine.cpp:34-48 | distinct samples have distinct wave numbers 2πf/L |
| WaveNumbers.WaveNumberMirror | src/solver/SimulationEngine.cpp:34-48 | mirrored samples have opposite wave numbers, and sample 0 has wave number 0 |
| WaveNumbers.FillGrid | src/solver/SimulationEngine.cpp:218-232 | filling the resized array in index order gives exactly the wave-number grid of the axis |
| WaveNumbers.Resize | src/solver/SimulationEngine.cpp:210-212 | resizing to N keeps the first entries and zero-fills any new ones |
| Solver.Multiply | src/solver/SimulationEngine.cpp:145-148 | cell-wise product of a grid with a factor array |
| Solver.MultiplyByUnits | src/solver/SimulationEngine.cpp:117-123 | multiplying by factors of modulus one keeps the density of every cell and Σ\|ψ\|² |
| Solver.MultiplyInPlace | src/solver/SimulationEngine.cpp:111-125 | the row-by-row, column-by-column loop computes the cell-wise product |
| Solver.MultiplyRow | src/solver/SimulationEngine.cpp:112-124 | one row of the loop multiplies exactly that row's cells and leaves later rows alone |
| Solver.CellPositions | src/solver/SimulationEngine.cpp:112-114 | the sample positions x = -L/2 + i·dx with dx = L/n lie in [-L/2, L/2), and for even n sample n/2 is the origin |
| Solver.PotentialFactors | src/solver/SimulationEngine.cpp:111-121 | cell (i, j) gets the phase exp(i·(-dt·V(x_i, y_j)/2)) with x_i = -Lx/2 + i·dx |
| Solver.ApplyPotential | src/solver/SimulationEngine.cpp:108-126 | the half potential step multiplies cell (i, j) by exp(i·(-dt·V(x_i, y_j)/2)) and changes nothing but the grid |
| Solver.PotentialKeepsDensity | src/solver/SimulationEngine.cpp:108-126 | the half potential step keeps the density of every cell |
| Solver.FreeSpacePotentialIsIdentity | src/solver/SimulationEngine.cpp:117-123 | in free space the half potential step leaves the engine unchanged |
| Solver.KineticEnergy | src/solver/SimulationEngine.cpp:138-142 | (kx² + ky²)/2 is non-negative, zero exactly at k = 0 and positive elsewhere |
| Solver.KineticFactors | src/solver/SimulationEngine.cpp:135-150 | momentum cell (i, j) gets the phase exp(i·(-dt·K(i, j))) |
| Solver.NormFactor | src/solver/SimulationEngine.cpp:155-156 | the normalisation factor is positive and is the inverse of nx·ny |
| Solver.ApplyKinetic | src/solver/SimulationEngine.cpp:129-162 | the kinetic step keeps the engine valid, changes nothing but the grid, and in momentum space it is the cell-wise multiplication by the kinetic phases: forward(result) = forward(ψ)·exp(i·(-dt·K)) |
| Solver.KineticSpectrum | src/solver/SimulationEngine.cpp:131-161 | forward transform, multiplication by f, backward transform and rescaling by 1/(nx·ny), seen through the forward transform, is the multiplication by f |
| Solver.TransformGain | src/solver/SimulationEngine.cpp:131-153 | forward transform, unit phases and backward transform multiply Σ\|ψ\|² by (nx·ny)² |
| Solver.KineticKeepsTotal | src/solver/SimulationEngine.cpp:129-162 | with the 1/(nx·ny) rescaling the kinetic step keeps Σ\|ψ\|² |
| Solver.TransformRoundTrip | src/solver/SimulationEngine.cpp:131-153 | with all phases 1, forward then backward returns the grid times nx·ny |
| Solver.UnscaleAll | src/solver/SimulationEngine.cpp:155-161 | rescaling by 1/n undoes a scaling by n |
| Solver.KineticIdentityAtZeroDt | src/solver/SimulationEngine.cpp:129-162 | with dt = 0 the kinetic step returns the grid unchanged |
| Solver.Step | src/solver/SimulationEngine.cpp:165-182 | a step advances the clock by dt, changes only the grid and the clock, and its grid is a half potential step, a kinetic step and another half potential step, in that order |
| Solver.StepConservesProbability | src/solver/SimulationEngine.cpp:165-182 | a step keeps Σ\|ψ\|² and the integrated probability |
| Solver.StepFreeSpaceZeroDt | src/solver/SimulationEngine.cpp:165-182 | in free space with dt = 0 a step changes nothing |
| Solver.Steps | src/solver/SimulationEngine.cpp:165-182 | n steps advance the clock by n·dt, keep Σ\|ψ\|² and change only the grid and the clock |
| Solver.InitialGrid | src/solver/SimulationEngine.cpp:57-70 | the initial grid is valid and has the engine's dimensions |
| Solver.Reset | src/solver/SimulationEngine.cpp:185-188 | reset sets the clock to 0, reinitialises the grid and changes nothing else |
| Solver.ResetIdempotent | src/solver/SimulationEngine.cpp:185-188 | resetting twice is the same as resetting once |
| Solver.Construct | src/solver/SimulationEngine.cpp:8-49 | the constructor with its grid initialised after planning (see "## Findings"): construction fails exactly when plan creation fails; otherwise it gives a 20-by-20 domain, dx = Lx/nx, clock 0, the configured dt, the factory's potential, the calibrated wave numbers and the initial grid |
| Solver.ConstructIgnoresWavepacket | src/solver/SimulationEngine.cpp:57-70 | the configured wavepacket has no effect on the constructed engine |
| Solver.UpdateConfig | src/solver/SimulationEngine.cpp:191-236 | reconfiguration takes the new size, dt and potential; if planning succeeds the wave numbers are recomputed, the clock reset and the grid reinitialised; if it fails the grid is left zeroed, the wave-number arrays are only resized and the clock is kept |
| Solver.UpdateConfigMatchesConstruct | src/solver/SimulationEngine.cpp:191-236 | a successful reconfiguration gives the same engine as constructing from that configuration, where construction initialises the grid after planning |
| Solver.ConstructAsWritten | src/solver/SimulationEngine.cpp:8-49 | the constructor as ordered in the code: the same engine as `Construct`, except that the grid holds whatever the measuring planner left in it |
| Solver.ConstructAsWrittenLosesWavepacket | src/solver/SimulationEngine.cpp:27-30 | unless the planner leaves exactly the Gaussian behind, the constructed grid is neither the initial wavepacket nor the grid a reconfiguration to the same settings gives |
| Solver.SetPotential | src/solver/SimulationEngine.cpp:239-241 | swapping the potential changes nothing else |
| Solver.SetFreeSpaceRemovesPotentialPhase | src/solver/SimulationEngine.cpp:239-241 | after switching to free space the potential half step does nothing |
| Solver.ProbabilityDensity | src/solver/SimulationEngine.h:76-80 | the snapshot has one non-negative entry per cell and its sum times dx·dy is the total probability |
| Solver.TotalProbabilityOf | src/solver/SimulationEngine.cpp:244-246 | the total probability is Σ\|ψ\|²·dx·dy and is non-negative |
| Controls.Record | src/ui/UIManager.cpp:427-430 | the new event is logged last; the oldest entry is dropped when the log is full; the log never exceeds its capacity |
| Controls.HandleEvent | src/ui/UIManager.cpp:425-486 | every event is logged; exactly the known ones are handled; start, pause and reset set the run state; a step event with a readable time sets the displayed time; a "dt" change whose value reads as a number sets the panel's dt; the run state, the displayed time and the panel's fields change only in those cases, and nothing else changes |
| Controls.IgnoredEventsOnlyLog | src/ui/UIManager.cpp:460-484 | unknown events, configuration events for other parameters, and "dt" values that do not read as a number only extend the log |
| Controls.Window | src/ui/UIManager.cpp:427-430 | the window of a log holds at most capacity entries |
| Controls.RecordAllWindow | src/ui/UIManager.cpp:427-430 | recording events one by one keeps exactly the last capacity events |
| Controls.HandleAll | src/ui/UIManager.cpp:425-430 | handling a sequence of events records them all and never touches the configuration |
| Controls.LogWindow | src/ui/UIManager.cpp:425-430 | after any sequence of events the log holds the most recent ones, newest last |
| Controls.Toggle | src/ui/UIManager.cpp:181-189 | the space key pauses a running simulation and runs any other |
| Controls.Fire | src/ui/UIManager.cpp:184-188 | a callback is called exactly when one is registered |
| Controls.ProcessInput | src/ui/UIManager.cpp:176-197 | keys do nothing while the interface captures the keyboard; space toggles the run state and calls the stop callback when pausing, the start callback otherwise; R stops the simulation and calls the reset callback, after space's callback when both are pressed; only registered callbacks are called and nothing but the run state changes |
| Controls.SpaceTwice | src/ui/UIManager.cpp:181-189 | pressing space twice restores a running or paused state |
| Controls.PressStartPause | src/ui/UIManager.cpp:236-246 | the start/pause button toggles the run state, calls the stop callback when pausing and the start callback otherwise, and changes nothing else |
| Controls.PressReset | src/ui/UIManager.cpp:249-252 | the reset button stops the simulation, calls the reset callback if registered and changes nothing else |
| Controls.KeysMatchButtons | src/ui/UIManager.cpp:176-197 | space and R have the same effect as the start/pause and reset buttons |
| Controls.UpdateConfig | src/ui/UIManager.cpp:136-174 | the configuration takes dt and the wavepacket from the panel; each potential type gets its name and parameter list, and the oscillator also sets omega; an unknown type leaves the potential alone; grid size and output are kept and the panel stores the result |
| Controls.UpdateConfigSelectsPotential | src/ui/UIManager.cpp:141-162 | the potential the factory builds from the written configuration is the one selected in the panel |
| Controls.FromConfig | src/ui/UIManager.cpp:37-46 | the panel starts in free space with the configuration's dt, omega and wavepacket; the barrier fields are not copied from the configuration |
| Controls.ConfigRoundTrip | src/ui/UIManager.cpp:38-46 | over exact reals, writing back a panel copied from a free-space configuration reproduces that configuration |
| Controls.DefaultConfigRoundTrip | src/ui/UIManager.cpp:16-46 | over exact reals, the default configuration survives the copy into the panel and back |
| Controls.ClampDt | src/ui/UIManager.cpp:266-270 | the entered time step ends in [0.00001, 0.01], unchanged if already inside, else at the nearer bound |
| Controls.ClampDtIdempotentMonotone | src/ui/UIManager.cpp:269 | clamping twice equals clamping once, and clamping keeps order |
| Controls.EnterDt | src/ui/UIManager.cpp:266-270 | entering a time step stores its clamped value and changes nothing else |
| Controls.EnterDtStable | src/ui/UIManager.cpp:266-270 | entering the same time step twice is entering it once, and re-entering an in-range stored step changes nothing |
| Controls.SelectPotentialType | src/ui/UIManager.cpp:282-294 | choosing the barrier restores height 1, width 0.5 and centre (0, 0); choosing the oscillator restores ω = 1; nothing else changes |
| Controls.SelectionDefaultsMatchFactory | src/ui/UIManager.cpp:284-293 | the restored defaults build the same potential as the factory's own defaults |
| Controls.ApplyPotentialChanges | src/ui/UIManager.cpp:312-329 | with no engine nothing changes, not even the stored configuration; otherwise the panel writes its configuration, the engine is reconfigured with it, and the new potential is installed only when reconfiguration did not throw |
| Controls.ApplyPotentialChangesIsReconfigure | src/ui/UIManager.cpp:314-323 | the engine after applying is the engine reconfigured with the written configuration |
| Controls.ApplyWavepacketChanges | src/ui/UIManager.cpp:350-373 | with no engine nothing changes; otherwise the panel writes its configuration and the engine becomes exactly `Solver.Reset` of itself: clock 0, the initial grid, everything else unchanged |
| Controls.WavepacketEditsDoNotReachEngine | src/ui/UIManager.cpp:350-358 | whatever the panel's fields hold, the engine after applying wavepacket changes is the same |

## Left out

- FFTW itself is left out: planning, plan execution, plan destruction and the FFTW-allocated buffers. The transforms are abstract functions with the properties listed above. What the measuring planner leaves in the arrays it plans on is not specified, so it is a parameter of `Solver.ConstructAsWritten` (see "## Findings").
- exp, sin, cos and π are abstract (`Numerics.cis`, `Numerics.pi`). Double-precision and single-precision rounding are not modelled. This includes the `float` fields of the panel and their casts to `double`: all quantities are exact reals.
- The `int` product `nx * ny` and the loop indices are unbounded integers, so overflow is not modelled. The engine is modelled for grids with `nx, ny > 0`.
- The Gaussian initialiser, the normalisation and `Wavefunction::getTotalProbability` are not part of this model. The total probability is modelled as Σ\|ψ\|²·dx·dy. That formula is the model's own choice: the body of `Wavefunction::getTotalProbability` is not visible, and the engine's header says only that the value should be close to 1.0 (`src/solver/SimulationEngine.h:70-74`). The body of `getProbabilityDensity` is not part of this model either; the density snapshot is modelled as \|ψ\|² per cell in storage order.
- Solver.UpdateConfigMatchesConstruct compares a reconfiguration with the corrected constructor, `Solver.Construct`, which initialises the grid after planning. Against the constructor as written the equality fails; `Solver.ConstructAsWrittenLosesWavepacket` shows it.
- Solver.Step requires `plansReady`. After a failed reconfiguration the plans are null (`src/solver/SimulationEngine.cpp:95-105` and `215`), and the control panel catches the exception (`src/ui/UIManager.cpp:319-326`), so a caller can still step. The first statement of the kinetic step then executes a null plan (`src/solver/SimulationEngine.cpp:131`). That behaviour is undefined, and the model does not give it a meaning.
- Solver.Steps requires `plansReady` for the same reason.
- Solver.Step: the accuracy claims (second order in dt, 1e-6 conservation) concern floating point and are not stated. Conservation is stated exactly, for exact arithmetic.
- Controls.HandleEvent requires a non-empty log when the log is full. Erasing the first element of an empty vector is undefined in C++. This condition holds whenever the capacity is positive.
- Controls.FromConfig: the constructor's initial values for the barrier fields are not visible code, so they are a parameter (`rest`).
- Controls.ConfigRoundTrip holds over exact reals only. The panel stores its values as `float` (`src/ui/UIManager.cpp:37-46`) and casts them back to `double` (`src/ui/UIManager.cpp:138` and `165-170`). A `double` such as 0.001 does not survive that round trip exactly.
- Controls.DefaultConfigRoundTrip holds over exact reals only, for the same reason. In the program the default dt 0.001 and the wavepacket widths 0.1 come back rounded through `float`.
- The panel's "Refresh" and "Clear" event buttons, the logarithmic dt slider (`powf`), all ImGui rendering, the event bus, event timestamps and subscription, and shutdown are presentation and plumbing. They are not modelled.
- Also not modelled: the configuration loader, `main.cpp`, the visualisation engine, the interfaces, and the unused `src/ui/UIManager.h`.
- A null potential pointer cannot occur in the model: `Potential` is a value.
- The queries `getWavefunction`, `getCurrentTime`, `getTotalProbability` and `getProbabilityDensity` are pure functions of the engine value, so they have no side effects by construction.

## Findings

| source | as written | input that shows it | evidently intended | confidence | as-written member | corrected member |
|---|---|---|---|---|---|---|
| src/solver/SimulationEngine.cpp:27-30 | the constructor fills the grid with the Gaussian (line 27) and then creates in-place plans on that grid with `FFTW_MEASURE` (line 30, lines 75-87); the FFTW 3 manual (section 4.3.2, "Planner Flags") says such planning overwrites the input array unless wisdom for the problem is already available | a first construction in a process with no saved wisdom, with any grid size: the planner leaves values other than the Gaussian in the grid | the grid starts as the Gaussian, as it does after `updateConfig`, which plans first (line 215) and initialises afterwards (line 235) | medium, not executed | Solver.ConstructAsWritten, Solver.ConstructAsWrittenLosesWavepacket | Solver.Construct, Solver.UpdateConfigMatchesConstruct |
