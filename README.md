# Electrostatics visualizer — Dafny model

This project models the core of an interactive 2D electrostatics visualizer. The user places point charges with the mouse and can place one dipole. Every frame, the program draws an equipotential map, traces field lines from a grid of seeds, and shows the force and torque on the dipole. The original is a single script, `main.py`. It does its drawing through a windowing library and its arithmetic in floating point.

The model has five modules:

- `Charges` (`charges.dfy`): the value types. These are the surface size, points, colours and the `Charge` record (position, signed magnitude, colour).
- `Field` (`field.dfy`): the field evaluator. `PotentialAt` and `FieldAt` are left-to-right sums over the charge store, with one term per charge. A charge whose distance from the query point is exactly 0 is skipped. `ComputePotential` and `ComputeField` are the source's accumulator loops, each proved equal to its sum.
- `Tracer` (`tracer.dfy`): the field-line tracer. `Traced` is the line from a seed as a function, whose properties are proved as lemmas, and `Trace` is the source's loop (at most 100 steps, with two early exits), proved equal to it. The conversion of each step to whole pixels truncates toward zero, and `Trunc` models it exactly.
- `Dipole` (`dipole.dfy`): the force/torque readout of a dipole. Like the original, it uses the simplified formulas: force = |E|·p and torque = p·|E|·sin(angle).
- `Controller` (`controller.dfy`): the scene state machine. `Scene` is the state as a value, and `OnClick`, `OnKey`, `OnEvent` and `OnEvents` are its transitions. The class `SceneState` holds the same state in fields that its methods update in place. Each method is proved to perform exactly the matching transition and to keep the invariant: sign ±1, charge value ≥ 1, moment ≥ 1, and every placed charge non-zero and coloured by its sign.

All coordinates in the original are whole pixels: mouse positions, grid samples, and the tracer's integer steps. Points are therefore `int`. The original's integers are arbitrary-precision, so `int` matches them exactly. The floating-point quantities are modelled over `real`. The non-algebraic functions are parameters of the operations that use them:

- `dist(dx, dy)`: the Euclidean length `sqrt(dx² + dy²)` of the displacement from a charge to the query point;
- `norm(ex, ey)`: the field magnitude `sqrt(ex² + ey²)`;
- `sinDeg(a)`: `sin(radians(a))`.

Lemmas that need a property of these functions say so in their `requires`, for example `dist(0, 0) == 0.0` or `norm(0.0, 0.0) == 0.0`.

In the original, the electrostatic constant K = 9e9 multiplies both the potential and the field terms. The model does the same.

## Model

| member | source | states |
|---|---|---|
| `Charges.ColorFor` | main.py:71 | a new charge is drawn in the positive colour exactly when the selected sign is positive, and in the negative colour otherwise |
| `Field.SumConcat` | main.py:27-31 | summing a store split in two parts gives the sum of the two partial sums |
| `Field.Superposition` | main.py:26-42 | the potential and the field of a concatenated store are the sums of those of its parts |
| `Field.EmptyStore` | main.py:26-42 | an empty store gives potential 0 and field (0, 0) at every point |
| `Field.AppendAddsOneTerm` | main.py:28-41 | appending one charge adds exactly that charge's term to the potential and to each field component |
| `Field.CoincidentChargeIgnored` | main.py:28-41 | a charge at distance 0 from the query point, wherever it is in the store, changes neither the potential nor the field: both equal the sums over the store without it |
| `Field.OppositeTerms` | main.py:29-31 | equal and opposite charges at equal distances contribute opposite potential terms |
| `Field.OppositeChargesCancel` | main.py:26-32 | two equal and opposite charges at the same distance from the query point give potential 0 (the midpoint scenario) |
| `Field.ComputePotential` | main.py:26-32 | the accumulator loop returns exactly the superposition sum, skipping charges at distance 0 |
| `Field.ComputeField` | main.py:35-42 | the accumulator loop returns both field components exactly as the superposition sums, with the same skip policy |
| `Tracer.Trunc` | main.py:111-112 | `int(...)` truncates toward zero: the result is the integer part of its argument, not above it for non-negative values and not below it for negative values |
| `Tracer.StepWithinFive` | main.py:108-112 | when the magnitude is at least the component, the truncated step moves at most 5 pixels along that axis |
| `Tracer.TracedStaysOnSurface` | main.py:105-116 | a field line has at most as many points as its step budget, every point lies in `[0, 800) × [0, 600)`, and it ends by the step limit exactly when it uses the whole budget |
| `Tracer.TracedFollowsField` | main.py:106-116 | each emitted point is one step from the previous one (the first from the seed). A line ends on a null field only where the magnitude is 0, and by leaving the surface only where the next step lands outside it, so it stops at the first such event |
| `Field.SilentStore` | main.py:28-41 | when every charge is at distance 0 from the query point, every term is skipped and each sum is 0 |
| `Tracer.NullSeedEmitsNothing` | main.py:107-110 | a seed placed exactly on the charges (every charge at the seed pixel, distance 0 there, zero magnitude for the zero field) ends its line at once with no point emitted |
| `Tracer.Trace` | main.py:105-116 | the tracer loop with its two `break`s yields exactly the line `Traced` describes for a budget of 100 steps |
| `Dipole.ForceAndMoment` | main.py:45-50 | the readout reports the field at the dipole's position. In a zero-magnitude field both the force and the torque are 0. At angle 0 (sine 0) the torque is 0, and where the sine is 1 the torque equals the force |
| `Dipole.NoChargesNoForce` | main.py:45-50 | with an empty store the field at the dipole is (0, 0) and both force and torque are 0, whatever the moment and angle |
| `Dipole.ForceProportionalToMoment` | main.py:48 | the force is the moment times the force on a unit-moment dipole |
| `Controller.PlacedCharge` | main.py:71-72 | the placed charge sits at the click position with magnitude sign·value, and is coloured positive iff the sign is positive. Under the invariant it is non-zero and coloured by its own sign |
| `Controller.OnClick` | main.py:66-72 | a shift-click sets the dipole position and changes nothing else. A plain click appends exactly one charge at the end, leaves earlier charges in place, and changes nothing else. Both keep the invariant |
| `Controller.OnKey` | main.py:75-91 | a key changes at most one setting and never the store or the dipole position. Only UP and DOWN write the sign (to 1 and -1). Only RIGHT raises the value and only LEFT above 1 lowers it, by 1. Likewise W and S for the moment. Only A and D move the angle, by exactly -5 and +5. The invariant is kept |
| `Controller.OnEvent` | main.py:61-91 | a quit request or any other event leaves the scene unchanged; no event removes or alters a placed charge; every event keeps the invariant |
| `Controller.OnEvents` | main.py:60-91 | any sequence of events keeps the invariant: sign ±1, value ≥ 1, moment ≥ 1 |
| `Controller.ReachableScenesKeepInvariant` | main.py:16-23 | every scene reachable from the start-up state satisfies the invariant |
| `Controller.AngleCountsTurns` | main.py:88-91 | after any events, the angle is the starting angle plus 5 per D press minus 5 per A press |
| `Controller.StoreIsAppendOnly` | main.py:66-72 | after any events, the earlier store is a prefix of the new one, and it has grown by exactly the number of plain clicks |
| `Controller.RightPressesAdd` | main.py:80-81 | n RIGHT presses raise the value by n and change nothing else |
| `Controller.LeftPressesFloorAtOne` | main.py:82-83 | n LEFT presses lower the value to max(1, value - n) and change nothing else |
| `Controller.TurnsAddUp` | main.py:90-91 | n D presses turn the dipole by 5·n degrees and change nothing else |
| `Controller.OnEventsConcat` | main.py:60-61 | handling events in two batches gives the same scene as handling them in one |
| `Controller.ChargeValueScenario` | main.py:80-83 | from start-up, five RIGHT presses give 6, then one LEFT gives 5, and further LEFT presses give max(1, 5 - n) |
| `Controller.DipoleReadout` | main.py:123-132 | a readout exists exactly when a dipole has been placed, and it reports the field at the dipole's position |
| `Controller.QuarterTurnScenario` | main.py:88-91 | a dipole at angle 0 has torque 0. Eighteen D presses bring it to 90 degrees, where its torque equals its force |
| `Controller.SceneState.constructor` | main.py:16-23 | the start-up state: no charges, sign 1, value 1, no dipole, moment 1, angle 0 |
| `Controller.SceneState.Click` | main.py:66-72 | the in-place click handler performs exactly `OnClick` and keeps the invariant |
| `Controller.SceneState.KeyDown` | main.py:75-91 | the in-place `elif` chain performs exactly `OnKey` and keeps the invariant |
| `Controller.SceneState.Handle` | main.py:61-91 | one event from the queue is handled exactly as `OnEvent` describes |
| `Controller.SceneState.HandleAll` | main.py:61-91 | draining a frame's events updates the fields exactly as `OnEvents` describes |

## Left out

- Window and library setup, event polling, frame pacing, screen clearing, drawing and presenting, and text rendering (main.py:52-56, 93, 119-120, 133-136, 138-139). These are I/O through a foreign library. Turning the library's events into `Event` values is not modelled, and neither are the modifier-key query at main.py:68 (it becomes the `shift` flag) or the mouse button (every button counts as a click).
- The `running` flag and the quit handling (main.py:59-63). A `Quit` event leaves the scene unchanged; ending the loop is not modelled.
- The exact floating-point values of `sqrt`, `sin`, `radians` and the products with K. Sums are over `real`, and `dist`, `norm` and `sinDeg` are parameters that nothing ties to the true square root or sine. Rounding, overflow and NaN are therefore not captured.
- The grey-level mapping of the potential (main.py:99) and the dipole drawing geometry (main.py:124-129). They only feed pixel colours and shapes.
- The seed-grid and potential-grid loops (main.py:96-97, 103-104). They only call `ComputePotential` and `Trace` for each grid pixel.
- Monotonic decrease of a single charge's potential with distance. It depends on the concrete square root, which the model does not fix.
- Tracer.NullSeedEmitsNothing: covers only a seed on which every charge sits. A seed placed exactly on one charge among others is skipped for that charge, but the other charges' field there is generally non-zero, so the line need not end at once.
- Tracer.StepWithinFive: assumes the magnitude is at least the field component, which holds for the true square root; the model's `norm` is not constrained to it.
