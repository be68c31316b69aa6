# sokol_simulation in Dafny

A model of the simulation harness in Qjs/sokol_simulation. It has five
parts:

- The **registry**. An X-macro list generates the simulation enum and a
  descriptor table. Each descriptor holds a display name and six operation
  references: init, destroy, update, params_ui, plot_ui and render.
  `simulations_get` looks up an id with a bounds check, and
  `simulations_draw_params` asks for one slider per parameter.
- The **host** in `main.c`. Startup selects `SIM_NONE` and calls its init. Each
  frame calls update, then the selector combo box, which destroys the
  outgoing simulation and initialises the incoming one, then params_ui,
  plot_ui and render. Cleanup calls destroy. The foreign callbacks are
  recorded as a trace of calls. Every run of the host respects the
  lifecycle: exactly one simulation is live while the program runs, init
  and destroy alternate, and nothing is live after cleanup.
- **Game of Life** (`gol.c`). A class over the grid, the swap buffer, the
  pixel buffer and two 600-slot histories. The generation loop is proved
  against a cell-wise rule on the torus, with the live count, the live
  ratio and the pixel colours.
- The **Ising model** (`ising.c`). The `mod` helper with C's truncating `%`,
  the random initial spins, and a Metropolis sweep of N*N single-spin steps
  driven by a sequence of draws. Also the bond energy and total spin sums,
  the stop-on-full history of time, energy per spin and magnetisation, and
  the red/blue pixels. The model proves:
  - the energy change of a flip is exactly the `deltaE` the code computes;
  - a step the acceptance test rejects never raises the energy;
  - the two plotted values stay within the plot's axis range.
- The **pendulum** (`pendulum.c`). The Euler step, the 200-slot rolling (time,
  angle) window, and the reset. For a constant dt the time stamps stay
  evenly spaced while the window fills and after it scrolls. Each stamp
  uses the current frame's dt, so with a varying frame time they need not
  increase (`Pendulum.VaryingStepStamps`).

Floats are modelled as `real`. `rand()`, the acceptance test
`r < expf(-deltaE / T)` and `sinf` are inputs of the operations that use
them.

The X-macro list in `simulations.h` holds only None, Pendulum and Monte
Carlo Pi, so the Ising and Game of Life modules are never reached through
the registry (`Registry.IsingAndLifeUnreachable`). The table macro in
`simulations.c` stores `NULL, 0` as every entry's parameter array and
count (`Registry.Entry`).

## Model

| member | source | states |
|---|---|---|
| Registry.EnumValue | src/simulations/simulations.h:24-29 | an enum constant's value is its first position in the constant list; None exactly when it is absent |
| Registry.XSimulations | src/simulations/simulations.h:18-21 | the X list as a definition: three lines, None, Pendulum and Monte Carlo Pi in that order; Registry.EnumFollowsList, Registry.TableNames and Registry.IsingAndLifeUnreachable state what it generates |
| Registry.EnumConstants | src/simulations/simulations.h:24-29 | the enum's constants as a definition: one per X line, in order, then SIM_COUNT; Registry.EnumFollowsList gives their values |
| Registry.Entry | src/simulations/simulations.c:23-24 | an X line becomes a descriptor with its display name, all six references to its own module, and no parameter array (NULL, 0) |
| Registry.Expand | src/simulations/simulations.c:25-27 | the table has one entry per X line, entry i being line i's expansion |
| Registry.Table | src/simulations/simulations.c:25-27 | g_simulations: the expansion of the X list, indexed by id; its properties are stated by Registry.Get, Registry.TableNames and Registry.IsingAndLifeUnreachable |
| Registry.Get | src/simulations/simulations.c:40-46 | a descriptor exactly for ids in [0, SIM_COUNT), and that id's entry; NULL otherwise |
| Registry.InitRegistry | src/simulations/simulations.c:32-34 | the startup hook's body is empty; with no `modifies` clause it changes no state |
| Registry.ShutdownRegistry | src/simulations/simulations.c:36-38 | the shutdown hook's body is empty; with no `modifies` clause it changes no state |
| Registry.EnumFollowsList | src/simulations/simulations.h:18-29 | SIM_NONE, SIM_PENDULUM and SIM_MCPI are 0, 1 and 2, and SIM_COUNT is 3 |
| Registry.TableNames | src/simulations/simulations.h:19-21 | the entries are named "None", "Pendulum" and "Monte Carlo Pi", and every valid id has a non-empty name |
| Registry.IsingAndLifeUnreachable | src/simulations/simulations.h:18-21 | every reference of every registered entry is non-NULL and belongs to the none, pendulum or Monte Carlo module |
| Registry.SliderFor | src/simulations/simulations.c:51-58 | a float parameter becomes a float slider with its float bounds, an int parameter an int slider with its int bounds, captioned with its name |
| Registry.DrawParams | src/simulations/simulations.c:48-60 | exactly one slider per parameter, for params[0 .. count-1] in order; none for a count of zero or less |
| Host.Invoke | src/main.c:52 | a dispatch makes one call exactly when both the descriptor and its reference are non-NULL, and that call is the referenced one |
| Host.InvokeRegistered | src/simulations/simulations.c:23-27 | dispatching any operation on a registered id calls that id's module once |
| Host.Label | src/main.c:64 | the name `simulations_get(id)->name` reads without a NULL check, defined only for registry ids; used for the current name and, at main.c:69, for each item |
| Host.Selector | src/main.c:66-78 | the selector loop as a definition over the clicked items; its behaviour is stated by Host.SkipUnclicked, Host.SelectorKeepsOneLive and Host.SwitchOrder |
| Host.SelectorOf | src/main.c:65 | the selector as a definition: its items are offered only while the combo box is open; Host.ClosedSelectorKeepsSimulation states the closed case |
| Host.FrameCalls | src/main.c:52-95 | the calls of one frame as a definition: update, the selector's calls, then the three panels; its shape and lifecycle are stated by Host.UpdateComesFirst, Host.PanelsComeLast and Host.FrameKeepsOneLive |
| Host.Panels | src/main.c:84-95 | params_ui, plot_ui and render on one simulation, as a definition; Host.PanelsStayLive and Host.PanelsComeLast state its effect |
| Host.RunCalls | src/main.c:22-113 | the frames' calls in order and then cleanup's destroy, as a definition; Host.RunEndsIdle states that it ends with nothing live |
| Host.ProgramCalls | src/main.c:22-113 | startup's init followed by RunCalls, as a definition; Host.Run computes it and Host.ProgramIsBalanced states its lifecycle |
| Host.SkipUnclicked | src/main.c:66-78 | items the selector passes without a click make no calls and leave the selection unchanged |
| Host.SelectorKeepsOneLive | src/main.c:66-78 | the selector's destroy/init pairs take the lifecycle from the current simulation live to the finally selected one live, and the selection stays a valid id |
| Host.FrameKeepsOneLive | src/main.c:49-95 | a frame breaks no lifecycle rule and leaves exactly the selected simulation live |
| Host.PanelsStayLive | src/main.c:84-95 | params_ui, plot_ui and render on the live simulation keep it live |
| Host.UpdateComesFirst | src/main.c:52 | the first call of every frame is update on the simulation current at the frame's start |
| Host.PanelsComeLast | src/main.c:84-95 | each frame ends with params_ui, plot_ui, render on the simulation selected after the selector |
| Host.SwitchOrder | src/main.c:52-94 | clicking item i makes exactly: update on the old one, its destroy, i's init, i's three panels; i is then current |
| Host.ReselectRestarts | src/main.c:67-75 | clicking the already selected item still destroys it and initialises it again |
| Host.ClosedSelectorKeepsSimulation | src/main.c:65-80 | with the combo closed a frame is update and the three panels on the same simulation |
| Host.RunEndsIdle | src/main.c:49-113 | from a live simulation, any sequence of frames and then cleanup breaks no rule and ends with nothing live |
| Host.ProgramIsBalanced | src/main.c:119-130 | a whole run (init, frames, cleanup) starts and ends idle and never has two simulations live |
| Host.App.Dispatch | src/main.c:52 | the trace grows by the call `Invoke` describes and nothing else changes |
| Host.App.constructor | src/main.c:22-47 | startup selects SIM_NONE with its descriptor and calls its init once; the lifecycle invariant holds |
| Host.App.Frame | src/main.c:49-104 | the calls of one frame are FrameCalls of the previous selection; the selection becomes the selector's; the lifecycle invariant is kept |
| Host.App.DrawPanels | src/main.c:84-95 | params_ui, plot_ui and render are called on the current simulation, in that order |
| Host.App.SelectorPanel | src/main.c:61-80 | the combo's loop makes exactly the selector's calls and leaves its selection current |
| Host.App.Offer | src/main.c:66-77 | one item: a click switches to it; without a click nothing changes; in either case the calls made, followed by the rest of the loop, are the loop's calls from this item |
| Host.App.Switch | src/main.c:72-75 | destroy on the outgoing descriptor, the switch of id and descriptor, then init on the incoming one |
| Host.App.Cleanup | src/main.c:106-113 | one destroy on the active simulation; nothing is live afterwards |
| Host.Run | src/main.c:119-130 | the calls of init, the frames in order and cleanup are exactly ProgramCalls |
| History.Record | src/simulations/ising.c:167-172 | below capacity the sample goes into slot count and every other slot is kept; at capacity nothing changes |
| History.Bump | src/simulations/gol.c:128-132 | the count grows by one below capacity and stays at capacity |
| History.RecordKeepsHeld | src/simulations/gol.c:128-132 | recording never overwrites a sample already held |
| History.Roll | src/simulations/pendulum.c:199-206 | every sample moves one slot forward and the new one takes the last slot |
| Pixels.Paint | src/simulations/ising.c:176-192 | bytes 4k to 4k+3 of the pixel buffer hold the colour of cell k, for every cell; the same loop is the Game of Life fill at gol.c:136-152 |
| Arith.CRem | src/simulations/ising.c:55 | C's `%`: the Euclidean remainder for a non-negative dividend, a value in (-b, 0] for a negative one |
| Arith.CRemCongruent | src/simulations/ising.c:55 | C's remainder differs from the dividend by a multiple of the divisor |
| Arith.Wrap | src/simulations/gol.c:105-106 | one step along a torus axis stays in [0, n), wrapping -1 to n-1 and n to 0 |
| Arith.Idx | src/simulations/ising.c:122 | the flat index y*n + x of a cell lies inside the n*n array |
| Arith.CellIndex | src/simulations/gol.c:99 | the flat index is in range and its quotient and remainder by n give back the row and the column |
| GameOfLife.WrapIsRemainder | src/simulations/gol.c:105-106 | C's `(c + d + N) % N` for a step d in {-1, 0, 1} is the torus neighbour coordinate |
| GameOfLife.NeighbourCountIsEight | src/simulations/gol.c:100-109 | the double loop skipping (0, 0) adds exactly the eight surrounding cells |
| GameOfLife.NeighbourCountBounds | src/simulations/gol.c:100-109 | on a 0/1 grid the neighbour count lies in [0, 8] |
| GameOfLife.CentreExcluded | src/simulations/gol.c:104 | on a grid of at least 2x2 the count does not depend on the cell itself |
| GameOfLife.NeighbourCount | src/simulations/gol.c:100-109 | the neighbour loops as a definition; NeighbourCountIsEight, NeighbourCountBounds and CentreExcluded state what it counts |
| GameOfLife.NextCell | src/simulations/gol.c:111-115 | the next state of one cell, Rule of the cell and its neighbour count, as a definition; GameOfLife.Rule states the rule and GameOfLife.NextGeneration the whole pass |
| GameOfLife.Rule | src/simulations/gol.c:111-115 | the next state is 0 or 1; alive exactly with 3 neighbours, or with 2 when alive now |
| GameOfLife.NextIsUnique | src/simulations/gol.c:97-120 | the next generation is determined by the current one |
| GameOfLife.NextIsBits | src/simulations/gol.c:111-115 | every next generation is a 0/1 grid |
| GameOfLife.LiveBelow | src/simulations/gol.c:116-118 | the number of live cells among the first m lies in [0, m] |
| GameOfLife.LiveBelowAgree | src/simulations/gol.c:116-118 | the live count depends only on the cells counted |
| GameOfLife.LiveBelowExtremes | src/simulations/gol.c:116-118 | the count is m exactly when all cells are alive and 0 exactly when none is |
| GameOfLife.CountNeighbours | src/simulations/gol.c:100-109 | the neighbour loops compute the torus neighbour count |
| GameOfLife.CountRow | src/simulations/gol.c:103-108 | the inner loop for one row offset sums that row's neighbours, skipping the cell itself |
| GameOfLife.NextGenExists | src/simulations/gol.c:97-120 | every grid has a next generation |
| GameOfLife.NextGenCells | src/simulations/gol.c:111-115 | a grid holding the rule's result in every cell is the next generation |
| GameOfLife.NextGeneration | src/simulations/gol.c:96-120 | the buffer receives the next generation and live_count is its number of live cells; the current grid is unchanged |
| GameOfLife.NextRowOf | src/simulations/gol.c:98-119 | one row's pass writes that row of the next generation and adds its live cells to the count |
| GameOfLife.ApplyRule | src/simulations/gol.c:111-115 | one cell of the buffer receives its next state and no other cell changes |
| GameOfLife.RatioInUnitRange | src/simulations/gol.c:130 | the live ratio recorded lies in [0, 1], the plot's y range |
| GameOfLife.Ratio | src/simulations/gol.c:130 | live_count / (N * N) as a definition; GameOfLife.RatioInUnitRange bounds it to [0, 1] and GameOfLife.Life.Update records it |
| GameOfLife.CellColour | src/simulations/gol.c:140-150 | white (255, 255, 255, 255) for a live cell and opaque black (0, 0, 0, 255) otherwise, as a definition; GameOfLife.Life.Update paints every pixel with it |
| GameOfLife.GolParams | src/simulations/gol.c:44-46 | the one int parameter "Grid Size" with bounds [16, 128], as a definition; GameOfLife.Life.ParamsUi draws it |
| GameOfLife.Life.constructor | src/simulations/gol.c:25-41 | grid sizes 64, no arrays, empty history, time 0 |
| GameOfLife.Life.Init | src/simulations/gol.c:49-83 | fresh arrays sized by gol_grid_size (not the slider's value), cell i = rand_i % 2, time and count 0, history arrays untouched |
| GameOfLife.Life.Destroy | src/simulations/gol.c:86-92 | all three arrays freed; sizes, time and count kept |
| GameOfLife.Life.Update | src/simulations/gol.c:95-160 | the buffer gets the next generation and the two are swapped; time += dt; one (time, live ratio) sample while the history has room; every pixel white for a live cell and opaque black otherwise |
| GameOfLife.Life.Reset | src/simulations/gol.c:166-173 | the slider's size is applied, then destroy and init |
| GameOfLife.Life.ParamsUi | src/simulations/gol.c:165-175 | the reset on a click, then the "Grid Size" slider [16, 128], whose value is written back |
| Ising.Mod | src/simulations/ising.c:54-56 | `(a % b + b) % b` lies in [0, b) |
| Ising.ModIsResidue | src/simulations/ising.c:54-56 | mod is the mathematical residue: congruent to a and equal to Euclidean a mod b, also for negative a |
| Ising.ModIsWrap | src/simulations/ising.c:126-129 | mod(c - 1, N) and mod(c + 1, N) are the torus neighbours of c |
| Ising.SumNeighbours | src/simulations/ising.c:126-130 | the four reads add up to the torus neighbour sum |
| Ising.DeltaEBounds | src/simulations/ising.c:130-133 | on a +1/-1 lattice the neighbour sum lies in [-4, 4] and deltaE in [-8, 8] |
| Ising.DeltaE | src/simulations/ising.c:133 | deltaE = 2 * spin * (up + down + left + right) as a definition; Ising.DeltaEBounds bounds it and Ising.FlipChangesEnergy shows it is the energy change of a flip |
| Ising.Step | src/simulations/ising.c:135-143 | the Metropolis rule as a definition: flip when deltaE <= 0 or the test accepts; Ising.StepChangesOnlySite and Ising.StepEnergy state its effect |
| Ising.StepChangesOnlySite | src/simulations/ising.c:133-143 | a step changes at most the chosen site; it flips when deltaE <= 0, otherwise exactly when accepted |
| Ising.StepKeepsSpins | src/simulations/ising.c:136-143 | a step keeps every site at +1 or -1 |
| Ising.SweepOf | src/simulations/ising.c:118-144 | a sweep keeps the lattice size |
| Ising.SweepKeepsSpins | src/simulations/ising.c:118-144 | a whole sweep keeps every site at +1 or -1 |
| Ising.MetropolisStep | src/simulations/ising.c:120-143 | one loop iteration performs the step at (rand_i % N, rand_j % N) |
| Ising.Sweep | src/simulations/ising.c:117-144 | the N*N iterations leave the lattice the draws' sweep produces |
| Ising.BondsAddUp | src/simulations/ising.c:132-133 | the changes of the bonds touching a site add up to deltaE = 2 * s * (up + down + left + right) |
| Ising.FlipChangesEnergy | src/simulations/ising.c:132-133 | on a lattice of at least 2x2, flipping a site changes the measured bond energy by exactly deltaE |
| Ising.StepEnergy | src/simulations/ising.c:135-143 | a step changes the energy by deltaE when it flips and by 0 otherwise; a rejected step never raises it |
| Ising.ColdSweepDescends | src/simulations/ising.c:135-143 | a sweep in which every acceptance test fails never raises the energy |
| Ising.SiteEnergyBounds | src/simulations/ising.c:156 | one site's -s * (right + down) lies in [-2, 2] |
| Ising.RowEnergyBounds | src/simulations/ising.c:151-158 | the bonds of x sites of a row lie in [-2x, 2x] |
| Ising.RowsEnergyBounds | src/simulations/ising.c:150-159 | the bonds of y rows lie in [-2yN, 2yN] |
| Ising.SpinBelowBounds | src/simulations/ising.c:157 | the total of m spins lies in [-m, m] |
| Ising.SiteTerms | src/simulations/ising.c:152-157 | one site contributes its bond energy and its spin |
| Ising.MeasureRow | src/simulations/ising.c:151-158 | one row's pass adds that row's bond energy and spins |
| Ising.Measure | src/simulations/ising.c:147-159 | energy is the lattice's bond energy and total_spin the sum of all spins |
| Ising.Energy | src/simulations/ising.c:147-159 | the measured bond energy, the sum of -s * (right + down) over all sites, as a definition; Ising.Measure computes it and Ising.FlipChangesEnergy relates it to deltaE |
| Ising.SiteEnergy | src/simulations/ising.c:153-156 | one site's -s * (right + down), as a definition; Ising.SiteEnergyBounds bounds it and Ising.SiteTerms computes it |
| Ising.PerSpinRanges | src/simulations/ising.c:160-163 | energy per spin lies in [-2, 2] and magnetisation in [-1, 1], inside the plot's fixed range [-2.5, 2.5] |
| Ising.PerSpin | src/simulations/ising.c:161-163 | a sum divided by N * N, as a definition; Ising.PerSpinRanges bounds both recorded values and Ising.Lattice.Update records them |
| Ising.SpinColour | src/simulations/ising.c:176-191 | red (255, 0, 0, 255) for spin +1 and blue (0, 0, 255, 255) otherwise, as a definition; Ising.Lattice.Update paints every pixel with it |
| Ising.IsingParams | src/simulations/ising.c:46-49 | "Grid Size" as an int parameter in [16, 128] and "Temperature" as a float parameter in [0.5, 5], as a definition; Ising.Lattice.ParamsUi draws them |
| Ising.RandomSpins | src/simulations/ising.c:70-72 | site i is +1 when the i-th random number is odd and -1 when it is even |
| Ising.ClearSeries | src/simulations/ising.c:77-81 | all 600 slots of the three histories become 0 |
| Ising.Lattice.constructor | src/simulations/ising.c:25-43 | sizes 64, temperature 2.5, no arrays, empty zeroed history, time 0 |
| Ising.Lattice.Init | src/simulations/ising.c:61-101 | the slider's size is applied; fresh lattice and pixels; random spins; time and count 0; the three histories zeroed |
| Ising.Lattice.Destroy | src/simulations/ising.c:106-111 | both arrays freed; sizes, temperature, time and count kept |
| Ising.Lattice.Update | src/simulations/ising.c:116-200 | the lattice is the draws' sweep; time += dt; one (time, energy per spin, magnetisation) sample while there is room; every pixel red for +1 and blue for -1 |
| Ising.Lattice.Reset | src/simulations/ising.c:206-213 | the slider's size is applied, then destroy and init |
| Ising.Lattice.ParamsUi | src/simulations/ising.c:205-215 | the reset on a click, then the "Grid Size" [16, 128] and "Temperature" [0.5, 5] sliders, whose values are written back |
| Pendulum.EulerRestores | src/simulations/pendulum.c:191-193 | the acceleration is restoring: velocity falls for positive sine and rises for negative sine; the angle moves by the new velocity times dt |
| Pendulum.Euler | src/simulations/pendulum.c:191-193 | the semi-implicit Euler step as a definition: velocity first, then the angle with the new velocity; Pendulum.EulerRestores states that the force is restoring |
| Pendulum.PendulumParams | src/simulations/pendulum.c:59-62 | "Gravity" in [1, 20] and "Length" in [0.5, 5], both float parameters, as a definition; Pendulum.Swing.ParamsUi draws them |
| Pendulum.Recorded | src/simulations/pendulum.c:195-206 | recording keeps the window two 200-slot arrays with at most 200 samples |
| Pendulum.RecordedWhileFilling | src/simulations/pendulum.c:195-198 | below capacity the sample (count * dt, angle) is appended after the held ones, which are kept |
| Pendulum.Stamp | src/simulations/pendulum.c:196 | the time stamp count * dt, as a definition; Pendulum.RecordedWhileFilling, Pendulum.StampsStayRegular and Pendulum.VaryingStepStamps state its use |
| Pendulum.RecordedWhenFull | src/simulations/pendulum.c:199-206 | at capacity every sample moves one slot forward, and the last slot gets the angle at the previous newest time + dt |
| Pendulum.StampsStayRegular | src/simulations/pendulum.c:195-206 | with a constant dt the stamps are 0, dt, 2dt, ... while filling and stay dt apart once scrolling |
| Pendulum.StampedIsSpaced | src/simulations/pendulum.c:196 | a full window stamped count * dt is evenly spaced |
| Pendulum.RollKeepsSpacing | src/simulations/pendulum.c:204 | scrolling with the newest + dt keeps an evenly spaced window evenly spaced |
| Pendulum.VaryingStepStamps | src/simulations/pendulum.c:196 | with a frame time that drops from 0.02 to 0.016 at count 100, the stamp after 2.0 is 1.616: stamps are only regular for a constant dt |
| Pendulum.ShiftLeft | src/simulations/pendulum.c:200-203 | slot i-1 takes slot i's value for i = 1..199 in both arrays; the last slot is unchanged |
| Pendulum.ClearHistory | src/simulations/pendulum.c:231-234 | all 200 slots of both arrays become 0 |
| Pendulum.Swing.constructor | src/simulations/pendulum.c:18-26 | gravity 9.81, length 1, angle 0.5, velocity 0, empty zeroed history |
| Pendulum.Swing.Init | src/simulations/pendulum.c:166-168 | angle 0.5 and velocity 0; parameters and history kept |
| Pendulum.Swing.Integrate | src/simulations/pendulum.c:191-193 | the motion after the step is the Euler step of the old motion with the sine of the old angle |
| Pendulum.Swing.RecordSample | src/simulations/pendulum.c:195-206 | the plot window afterwards is `Recorded` of the window before, with the current angle |
| Pendulum.Swing.Update | src/simulations/pendulum.c:190-206 | the Euler step, then the new angle recorded into the window |
| Pendulum.Swing.Reset | src/simulations/pendulum.c:227-235 | angle 0.5, velocity 0, count 0, every slot of both arrays 0 |
| Pendulum.Swing.ParamsUi | src/simulations/pendulum.c:225-238 | the reset on a click, then the "Gravity" [1, 20] and "Length" [0.5, 5] sliders, whose values are written back |

## Left out

- GPU resources, textures, samplers, render passes and the ImGui/ImPlot calls are foreign code. The plot_ui and render bodies only draw, and they are not modelled. The host records them as calls.
- The frame duration from `sapp_frame_duration` is the `dt` parameter of each update.
- Floating point: floats are `real`, so rounding is not modelled. The Ising energy is an integer sum below 2^24 in magnitude, which a float holds exactly.
- `rand()` and `srand(time(NULL))` are oracles. Init's spins take a function from site index to random number.
- Ising.Lattice.Update: the sweep takes one `Draw` per step: the i draw, the j draw and the outcome of `r < expf(-deltaE / T)`. These replace the `rand()` stream, so the model does not capture that the third `rand()` is drawn only when deltaE > 0. The temperature therefore enters only through the oracle and has no effect in the model.
- Pendulum.Swing.Integrate: `sinf` is the `sin` parameter, so no property of the sine itself is used.
- A failed `malloc` is not modelled; every allocation succeeds.
- The Monte Carlo Pi and none simulations (`mcpi.c`, `none.c`) are not part of this model. The host only calls them through the registry.
- Registry.InitRegistry and Registry.ShutdownRegistry have the same empty bodies as the source. Neither method has a `modifies` clause, so each may change no state, and that frame is their whole promise; they have no partner lemma.
- The `value_ptr` aliasing of the parameter arrays is not modelled. A slider's write-back is an input of each ParamsUi, within the slider's bounds.
- The pendulum's vertex data, uniforms and offscreen pass in init, update and destroy are GPU work and are left out. Only the lines that set the angle, the velocity and the history are modelled.
- The `event` callback, which forwards input to ImGui, is not modelled.
