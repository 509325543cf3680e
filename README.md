# Rocket ascent simulator: verified model of the simulation core

`script.js` animates a rocket climbing from the ground through fourteen
altitude bands, from "Surface" to the "Edge of Observable Universe". Behind
the DOM, audio and star rendering sits a small deterministic engine. This
project models that engine in Dafny and proves properties of the model.

The engine has these parts:

- the layer table and the lookup `getCurrentLayer`;
- the sky-transition state machine of `updateVisuals` and its fade-completion handler;
- the `gameLoop` tick: the time-step guards, keyboard thrust, the force terms, the
  semi-implicit Euler step with the ground clamp, the layer update and the win check;
- thrust control (`setThrustLevel`, `updateThrustFromSlider`) with its one-shot liftoff;
- the countdown (`startCountdown`, `countdownTick`);
- the unit selection of the distance and velocity read-outs.

The project has five modules:

- `Layers` (`layers.dfy`): the table over extended-real bounds. It proves that the
  table partitions the real line and that the lookup always lands in the band
  holding the altitude. The lookup is a function plus a loop method proved equal to it.
- `Transition` (`transition.dfy`): whether a layer change is instant or a smooth fade.
- `Physics` (`physics.dfy`): gravity, air-density exponent, drag, the light-speed
  multiplier, the integration step and the frame time step, all over exact reals.
- `Format` (`format.dfy`): which unit and scaled value `formatDistance` and
  `formatVelocity` pick, checked against an independent per-unit band table.
- `Simulation` (`simulation.dfy`): the mutable `state` object as the class
  `Simulator`. Most of its methods are proved to take the state to the value a
  specification function (`AfterTick`, `AfterWin`, …) computes from the old state;
  the simple setters state their new state as an update of the old one.
  Those functions carry the invariant `Inv` and the monotonicity relation
  `Progress`. The sounds the code plays are recorded as an event sequence, so
  the invariant can say that exactly one beep sounds per counted second and the
  liftoff and win sounds sound at most once.

Notable behaviour of the code, which the model keeps:

- The win check at script.js:600 reads the variable `currentLayer`. That
  variable is set once to `layers[0]` (script.js:96) and never updated, and
  `layers[0]` has no `final` field. So the loop never calls
  `reachWinCondition`. The model keeps this: `currentLayer` is a field that
  no operation changes, and `TickNeverWins` proves that no tick wins.
- `reachWinCondition` zeroes only the slider's displayed value. It leaves
  `state.thrustLevel` as it is, so `isThrusting` is re-derived from the old
  level.
- The table starts with "Surface" as `[-∞, 0)`. Altitude 0 is the
  Troposphere, and on or above the ground the lookup never returns "Surface".
- The lookup's fallbacks, including "above all bands, use the last layer", are
  unreachable over this table.

## Model

| member | source | states |
|---|---|---|
| `Layers.TableIsPartition` | script.js:80-95 | the table has 14 layers starting at -∞ and ending at +∞, each band ends where the next begins, every band is non-empty, and exactly the last layer is final |
| `Layers.BandsAscend` | script.js:80-95 | in a contiguous table of non-empty bands, a band ends no higher than any later band begins |
| `Layers.BandsDisjoint` | script.js:80-95 | no altitude lies in two different bands |
| `Layers.PartitionCovers` | script.js:80-95 | every real altitude lies in some band of a partition |
| `Layers.FirstBandFrom` | script.js:694-696 | the linear search returns the first index at or after `from` whose band holds the altitude, or reports that none does |
| `Layers.Resolve` | script.js:689-699 | the stored index is kept when its band holds the altitude; otherwise the first band holding it is chosen; only when none does are the last layer or 0 returned, by the last layer's lower bound |
| `Layers.GetCurrentLayer` | script.js:689-699 | the fast path, the search loop and the two fallbacks compute exactly `Resolve` |
| `Layers.ResolveInBand` | script.js:689-699 | over a partition the resolved band always holds the altitude and is the only one that does, so neither fallback is taken |
| `Layers.NonNegativeAltitudeAboveSurface` | script.js:81-82 | on or above altitude 0 the lookup over the table returns index 1 or higher, never "Surface" |
| `Layers.TableResolveInBand` | script.js:689-699 | over the table the resolved index is in range, its band holds the altitude, and it is at least 1 from altitude 0 up |
| `Layers.ThermosphereExample` | script.js:84-85 | at 500 km with the Mesosphere stored, the lookup moves to the Thermosphere |
| `Transition.Decide` | script.js:348-382 | no change exactly when the index is unchanged; otherwise instant exactly above 0.1c or during a fade, smooth exactly at or below 0.1c with no fade running |
| `Transition.FadingAfterDecision` | script.js:350-383 | after the update the fade flag is set exactly when the index is unchanged and a fade was running, or the index changed at or below 0.1c with no fade running |
| `Transition.CrossingDuringFadeIsInstant` | script.js:353-361 | a second crossing while a fade runs switches instantly and ends the fade |
| `Transition.FastCrossingIsInstant` | script.js:353 | at ±0.2c every crossing is instant |
| `Physics.Gravity` | script.js:561-562 | gravity equals `g0` at or below the ground and lies in `[0, g0]` for `g0 >= 0` |
| `Physics.GravityDecreasesWithAltitude` | script.js:561-562 | gravity never grows with altitude |
| `Physics.DensityExponent` | script.js:563 | the air-density exponent is never positive and is 0 at or below the ground |
| `Physics.Drag` | script.js:564-567 | drag is 0 at rest and always opposes the motion for non-negative factors |
| `Physics.ThrustMultiplier` | script.js:570-574 | the multiplier is 1 unless light-speed mode is on after the first second, and then exceeds 1 |
| `Physics.MultiplierNondecreasing` | script.js:570-574 | once the ramp runs, the multiplier never decreases with time |
| `Physics.MultiplierAtThreeSeconds` | script.js:571-573 | at 3 s the multiplier is `1 + 1.5^11` |
| `Physics.NetAcceleration` | script.js:569-578 | with no thrust a rocket at rest accelerates at exactly minus the gravity at its altitude |
| `Physics.CoastingUpwardDecelerates` | script.js:561-578 | with no thrust and non-negative gravity, drag factor and density, a rocket moving upward is never accelerated upward |
| `Physics.LaunchFromRestAccelerates` | script.js:561-578 | with the default constants of script.js lines 45-47, full thrust from rest at the ground accelerates upward at 45 - 9.81 |
| `Physics.Integrate` | script.js:581-588 | the step keeps a non-negative position non-negative, never leaves the rocket below ground moving down, zeroes both when the clamp fires, and is the plain Euler step otherwise |
| `Physics.RestingOnGroundStaysPut` | script.js:578-588 | with no thrust, a rocket at rest on the ground stays at rest there |
| `Physics.FrameDelta` | script.js:544-546 | the time step is the elapsed milliseconds in seconds, capped at 0.1 |
| `Format.FormatDistance` | script.js:246-258 | once won the fixed text is shown; otherwise negatives read as 0 and the reading is in the one unit whose band holds the distance, scaled by that unit |
| `Format.DistanceUnitUnique` | script.js:248-257 | the distance bands do not overlap |
| `Format.FormatVelocity` | script.js:259-269 | once won "-" is shown; below 0.01 m/s an unsigned 0; otherwise the sign is shown exactly for negative velocity and the magnitude is in the one unit whose band holds it |
| `Format.VelocityUnitUnique` | script.js:263-268 | the velocity bands do not overlap |
| `Simulation.InitialInv` | script.js:99-111 | the initial state satisfies the invariant |
| `Simulation.AfterStartCountdown` | script.js:460-463 | starting does nothing unless idle, and otherwise moves to counting from 10 and changes nothing else, keeping the invariant |
| `Simulation.AfterCountdownTick` | script.js:469-486 | while seconds remain, one beep and one second less; at zero the rocket launches, the run starts, the slider is enabled and the clock starts; in each case no other field changes |
| `Simulation.CountdownBeepsThenLaunches` | script.js:469-486 | from counting, the next firings each beep and count down until none are left, and the one after that launches the run |
| `Simulation.Clamp01` | script.js:497 | the requested level is clamped into [0, 1] |
| `Simulation.AfterUpdateThrust` | script.js:506-529 | `isThrusting` holds exactly above 1% thrust, and liftoff sounds once, the first time the launched rocket thrusts; nothing else changes |
| `Simulation.AfterSetThrust` | script.js:495-503 | the state changes exactly when the clamped level differs by more than 0.001, and then only through the new level and the thrust update |
| `Simulation.KeyboardThrustChange` | script.js:552-554 | the held keys ask for +0.02 or -0.02, and up and down cancel |
| `Simulation.AfterKeyboard` | script.js:551-556 | the keys act only in pc mode with the slider enabled and not cancelling, change nothing but the thrust fields, and the up key alone leaves the level or sets it to the clamped level + 0.02 (the down key alone, − 0.02) |
| `Simulation.KeyboardStep` | script.js:551-556 | one frame of keys moves the thrust by at most 0.02 and keeps it in [0, 1]; the up key alone never lowers it and the down key alone never raises it |
| `Simulation.SafeLayerIndex` | script.js:690 | an out-of-range stored index is reset to 0 |
| `Simulation.AfterLayerChange` | script.js:348-383 | the stored index becomes the resolved one; the fade flag is unchanged when the index is unchanged, and otherwise set exactly for a slow crossing with no fade running |
| `Simulation.AfterLayerUpdate` | script.js:343-383 | the stored index becomes the one band holding the altitude, never "Surface" on or above the ground, and the flag follows `AfterLayerChange` |
| `Simulation.AfterTransitionEnd` | script.js:389-404 | the completion handler clears the fade flag and changes nothing else |
| `Simulation.AfterWin` | script.js:450-456 | the run is won and stopped, the slider disabled, the thrust level kept, and the win sound appended after any liftoff sound |
| `Simulation.AfterPhysics` | script.js:558-589 | the rocket stays on or above the ground, time grows by `dt`, and nothing but position, velocity and time changes |
| `Simulation.AfterFrame` | script.js:551-602 | a frame keeps the invariant, advances time by `dt`, leaves the stored layer holding the new altitude, and wins exactly when the win check's layer is final and the universe radius is reached |
| `Simulation.AfterTick` | script.js:534-606 | every tick keeps the invariant and never moves the countdown back, unsets a flag, removes a sound or changes `currentLayer` |
| `Simulation.TickTime` | script.js:536-548 | a stopped or won run is untouched, the first frame and empty steps only record the timestamp, and otherwise time grows by exactly the capped step in (0, 0.1] |
| `Simulation.TickNeverWins` | script.js:600 | with `currentLayer` left at the first layer (set at script.js line 96), no tick ever sets `won` |
| `Simulation.Simulator.constructor` | script.js:99-111 | the new simulator is in the initial state and valid |
| `Simulation.Simulator.StartCountdown` | script.js:460-463 | takes the state to `AfterStartCountdown` |
| `Simulation.Simulator.CountdownTick` | script.js:469-486 | takes the state to `AfterCountdownTick` |
| `Simulation.Simulator.UpdateThrustFromSlider` | script.js:506-529 | takes the state to `AfterUpdateThrust` |
| `Simulation.Simulator.SetThrustLevel` | script.js:495-503 | takes the state to `AfterSetThrust` and keeps it valid |
| `Simulation.Simulator.ApplyKeyboardThrust` | script.js:551-556 | takes the state to `AfterKeyboard` |
| `Simulation.Simulator.Advance` | script.js:559-589 | the field-by-field physics update takes the state to `AfterPhysics` |
| `Simulation.Simulator.CurrentLayerFor` | script.js:689-699 | resets an out-of-range stored index and returns `Resolve` of the stored index |
| `Simulation.Simulator.ApplyLayerChange` | script.js:348-383 | the two branches take the state to `AfterLayerChange` |
| `Simulation.Simulator.UpdateVisuals` | script.js:343-383 | takes the state to `AfterLayerUpdate` |
| `Simulation.Simulator.CompleteTransition` | script.js:389-404 | takes the state to `AfterTransitionEnd` |
| `Simulation.Simulator.ReachWinCondition` | script.js:450-456 | takes the state to `AfterWin` |
| `Simulation.Simulator.Frame` | script.js:551-602 | takes the state to `AfterFrame` |
| `Simulation.Simulator.Tick` | script.js:534-606 | takes the state to `AfterTick` |
| `Simulation.Simulator.SetLightSpeedMode` | script.js:626-629 | changes only the light-speed flag |
| `Simulation.Simulator.SetConfig` | script.js:621-624 | changes only the tunable gravity, thrust and drag constants |
| `Simulation.Simulator.ResetDebugDefaults` | script.js:633-637 | restores the default constants and turns light-speed mode off |

## Left out

- DOM styling, element creation, CSS transitions, star population and wrapping, sky scroll and ground opacity: presentation only, driven by `Math.random`, `Math.tanh` and DOM geometry. This includes the star repopulation in both layer-change branches and in the completion handler.
- `state.frameCount`: it only paces the star wrap-around checks, which are not modelled.
- Audio (`initAudio`, `playSound`, the thrust loop sound): sound playback is I/O. The beep, liftoff and win sounds are recorded as events in `sounds`; the continuous thrust sound is not modelled.
- Scheduling (`requestAnimationFrame`, `setTimeout`): the driver calls `Tick`, `CountdownTick` and `CompleteTransition` explicitly. The 1.5 s delay before the first countdown tick and the 1 s between ticks are not modelled.
- Event-listener wiring, key-modifier filtering, the keys-pressed map and the mobile/pc mode toggle: the keys held in a frame and the mode are the per-tick input `Controls`.
- The slider's `input` event is the caller of `SetThrustLevel`. `parseFloat` of the slider and debug inputs is not modelled; the values are taken as reals.
- The slider's initial `disabled` attribute comes from the page markup, which is not part of this model. The model starts with the slider disabled.
- `count` is a local variable of `startCountdown` captured by `countdownTick`. Here it is a field of the simulator.
- `Math.exp`: `Tick` and `Frame` take the exponential function as a parameter `exp`. Only its argument, `DensityExponent`, is modelled.
- IEEE-754 rounding: all arithmetic is over exact reals. `toFixed` digit rendering is reduced to the chosen unit, the scaled value and the number of decimals.
- The layers' colour gradients: presentation only. Layer names are an enumeration rather than strings.
- `STAR_PARALLAX_FACTOR` and its debug input: presentation only.
