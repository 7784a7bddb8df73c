# MechJeb core: controller bookkeeping and rendezvous decisions

This project models two parts of MechJeb, the Kerbal Space Program autopilot, in Dafny.

- **`MechJebCore`** (core.dfy). The state the autopilot core keeps from tick to tick:
  - the change-detecting setters of the translation mode, attitude reference, attitude target and
    target, with their dirty flags;
  - the single-owner control token and the guard that refuses requests from other modules;
  - the landing switch;
  - the time-warp admission controller, over arrays of warp rates and altitude limits;
  - the PID resets of the update tick and the calibration key cycling;
  - the throttle selection and pilot-override masking of the control tick;
  - the per-vessel registry of cores.
- **`RendezvousAutopilot`** (rendezvous.dfy). The decision logic of the rendezvous module:
  - the `Mode` setter and the sync-mode cycling;
  - the re-validation of the selected vessel;
  - the nearest-rendezvous search over two 8-entry apsis tables;
  - the next and further target apsis times;
  - the auto-align throttle rule and the six-step auto-phaser;
  - the kill-relative-velocity and home-on-offset thrust rules.
- **`Common`** (common.dfy). The shared `Option` type, a real-valued 3-vector, and `Abs`, `Min`,
  `Max` and `Clamp`.

The C# classes become Dafny classes and the setters become methods over their fields. Each setter
is proved against a pure update function over a ghost view of the fields it guards, such as
`AssignTMode` over `TModeView()` and `AssignTarget` over `AttitudeView()`; the properties
the source promises are then proved about those functions. The search loop is proved equal to a
recursive scan, `ScanPrefix`. A lemma shows that scan finds the first minimum in the visiting
order, and that this first minimum is unique.

Doubles are modelled as `real`. Results of the geometry and the orbit library enter as
inputs: angles in degrees, error vectors, predicted speeds and times, and apsis tables.
Magnitude comparisons are done on squares: `|v| < 5` becomes `SquaredLength(v) < 25`.
A null reference becomes `None`. An exception that ends the callback becomes a `None` result or
a `fault` flag.

## Model

| member | source | states |
|---|---|---|
| MechJebCore.AssignTMode | Source/MechJebCore.cs:55-70 | the new mode is stored; assigning the current mode changes nothing; a different mode records the old one in prev and raises the flag |
| MechJebCore.Core.SetTMode | Source/MechJebCore.cs:55-70 | the mode latch fields become AssignTMode of their old values |
| MechJebCore.AssignTModeIdempotent | Source/MechJebCore.cs:61-69 | assigning the same mode twice is the same as assigning it once |
| MechJebCore.AssignReference | Source/MechJebCore.cs:149-164 | stores the reference; a new value remembers the old reference and raises attitudeChanged; same value changes nothing; targets untouched |
| MechJebCore.Core.SetAttitudeReference | Source/MechJebCore.cs:149-164 | the attitude fields become AssignReference of their old values |
| MechJebCore.AssignTarget | Source/MechJebCore.cs:169-185 | the target is always stored; only past 10 degrees from the last effective target are old/last target updated and the flag raised; otherwise they and the flag keep their values; references untouched |
| MechJebCore.Core.SetAttitudeTarget | Source/MechJebCore.cs:169-185 | the attitude fields become AssignTarget of their old values |
| MechJebCore.AssignTargetRepeatIsQuiet | Source/MechJebCore.cs:175-184 | re-sending the same target at zero angle after it took effect changes nothing |
| MechJebCore.Core.SetTargetType | Source/MechJebCore.cs:198-216 | the type is stored; targetChanged is raised exactly on a change; attitudeChanged only on a change while the reference is TARGET |
| MechJebCore.Core.SetTargetVessel | Source/MechJebCore.cs:219-240 | the vessel is stored; targetChanged is raised only on a change while the type is VESSEL; attitudeChanged only if the reference is also TARGET |
| MechJebCore.Core.SetTargetBody | Source/MechJebCore.cs:243-264 | the body is stored; targetChanged is raised only on a change while the type is BODY; attitudeChanged only if the reference is also TARGET |
| MechJebCore.Core.SetTargetToVessel | Source/MechJebCore.cs:500-504 | vessel and type VESSEL stored; the flags are raised exactly when type or vessel changed, attitudeChanged only under reference TARGET |
| MechJebCore.Core.SetTargetToBody | Source/MechJebCore.cs:506-510 | body and type BODY stored; the flags are raised exactly when type or body changed, attitudeChanged only under reference TARGET |
| MechJebCore.Core.AttitudeTo | Source/MechJebCore.cs:442-455 | refused (false, reference, target and flags unchanged) exactly when another non-null module holds control; otherwise reference then target are assigned, attitude active, roll matters |
| MechJebCore.Core.AttitudeToDirection | Source/MechJebCore.cs:457-479 | the same guard and assignments, with the roll left free on success |
| MechJebCore.Core.AttitudeDeactivate | Source/MechJebCore.cs:481-492 | refused under another owner; otherwise attitude inactive and attitudeChanged raised |
| MechJebCore.Core.LandActivate | Source/MechJebCore.cs:512-531 | refused under another owner; while landing only the touchdown speed changes; otherwise landing on, gears cleared, tmode assigned KEEP_VERTICAL |
| MechJebCore.Core.LandDeactivate | Source/MechJebCore.cs:533-548 | refused under another owner; a no-op returning true when not landing; otherwise landing off and tmode assigned OFF |
| MechJebCore.Core.ControlRelease | Source/MechJebCore.cs:384-398 | always true; afterwards no owner, attitude inactive, landing off, tmode assigned OFF |
| MechJebCore.Core.ControlClaim | Source/MechJebCore.cs:368-382 | always true and the claimant owns control; the current owner's claim changes nothing else; any other claim first releases |
| MechJebCore.Core.DropDisabledController | Source/MechJebCore.cs:646-656 | a disabled owner loses the token; otherwise it is kept |
| MechJebCore.BelowAltitudeFloorRefused | Source/MechJebCore.cs:567-575 | below the next rate's altitude floor and not landed, no increase is admitted |
| MechJebCore.InAtmosphereOnlyPhysicsRates | Source/MechJebCore.cs:567-575 | inside the atmosphere and not landed, an admitted next rate is a physics rate |
| MechJebCore.AdmittedIncreaseBounds | Source/MechJebCore.cs:567-575 | an admitted increase has a next rate, within maxRate, more than 2 s after the last attempt |
| MechJebCore.Core.WarpIncrease | Source/MechJebCore.cs:551-585 | true exactly when no other owner and all six admission conditions hold; then index + 1 and attempt time recorded; otherwise nothing changes |
| MechJebCore.Core.WarpDecrease | Source/MechJebCore.cs:587-596 | one index down unless refused or already at 0; never below 0 |
| MechJebCore.Core.WarpMinimum | Source/MechJebCore.cs:598-603 | index 0 unless refused |
| MechJebCore.Core.WarpPhysics | Source/MechJebCore.cs:605-619 | never raises the index; ends at 0 or at a rate at most MaxPhysicsRate, and every rate skipped is above it |
| MechJebCore.Core.WarpTo | Source/MechJebCore.cs:621-634 | decreases when time left is under the current lookahead or the rate is above the cap; tries an increase when the next lookahead fits; otherwise nothing changes |
| MechJebCore.Core.ResetControllers | Source/MechJebCore.cs:1116-1147 | a mode change zeroes only the translation integrator and error; an attitude change zeroes only the rotation integrator, error and action; both flags cleared; attitude and landing switched off only after a kill-h mode change to OFF |
| MechJebCore.NextCalibrationTarget | Source/MechJebCore.cs:1153-1159 | the next gain set, cycling 0, 1, 2 |
| MechJebCore.NextCalibrationDelta | Source/MechJebCore.cs:1184-1191 | the next step size, wrapping past the last to the first |
| MechJebCore.PrevCalibrationDelta | Source/MechJebCore.cs:1174-1181 | the previous step size, wrapping before the first to the last |
| MechJebCore.CalibrationDeltaStepsInverse | Source/MechJebCore.cs:1174-1191 | the minus and plus keys undo each other |
| MechJebCore.CalibrationTargetCycle | Source/MechJebCore.cs:1153-1159 | three presses of divide return to the same gain set |
| MechJebCore.Core.Calibrate | Source/MechJebCore.cs:1149-1192 | divide, minus and plus move the indices by those functions and keep them in range |
| MechJebCore.UserCommanding | Source/MechJebCore.cs:791 | bit 0, 1, 2 set exactly when pitch, yaw, roll is outside the 0.1 dead band |
| MechJebCore.ThrottleCommand | Source/MechJebCore.cs:763-786 | DIRECT maps the speed command to a throttle; other aligned modes give the PID-updated throttle when it lies in [0, 1], 1 above and 0 below; a misaligned KEEP_VERTICAL vessel gets 0.1 exactly when thrust torque is over ten times wheel torque, else 0 |
| MechJebCore.LandingMode | Source/MechJebCore.cs:667-677 | without landing the mode is kept; while landing it is OFF exactly on the ground and KEEP_VERTICAL exactly in flight |
| MechJebCore.Core.LandingStep | Source/MechJebCore.cs:667-718 | on the ground the landing ends with tmode OFF; in flight tmode KEEP_VERTICAL, kill-h on, legs below 1000 m, and below 200 m never slower than the touchdown speed |
| MechJebCore.Core.KillHorizontalStep | Source/MechJebCore.cs:728-753 | high and sliding sideways much faster than vertical switches to DIRECT with speed command 100; always points inertially with free roll |
| MechJebCore.Core.SpeedForMode | Source/MechJebCore.cs:720-754 | the measured speed of the mode (orbital, surface, vertical, else 0); under KEEP_VERTICAL with kill-h it points inertially with free roll, and switches to DIRECT with speed command 100 exactly when the high-and-sliding test holds; otherwise mode, speed command and attitude are unchanged |
| MechJebCore.Core.TranslationSetpoint | Source/MechJebCore.cs:667-754 | the landing switch then the mode switch: the mode is LandingMode of the old state, or DIRECT after a kill-h escalation; the measured speed is that of this mode; kill-h pointing exactly when the mode is KEEP_VERTICAL with kill-h or landing on; below 200 m in flight never slower than the touchdown speed |
| MechJebCore.Core.TranslationPid | Source/MechJebCore.cs:757-761 | the error normalised by acceleration, the integrator advanced by it, and the PID action |
| MechJebCore.Core.DriveTranslation | Source/MechJebCore.cs:663-787 | with tmode OFF or no thrust nothing changes (mode, landing, kill-h, gears, integrator, attitude); otherwise the final mode is that of TranslationSetpoint, the error is the speed command minus the measured speed of LandingMode's mode over the acceleration, the integrator is advanced by error times dt, the stored and returned throttle is ThrottleCommand of the PID action, in [0, 1] outside DIRECT; kill-h pointing only under KEEP_VERTICAL with kill-h, attitude untouched otherwise |
| MechJebCore.Core.AttitudePid | Source/MechJebCore.cs:809-812 | integrator advanced by error times dt, action the PID sum, previous error becomes the error |
| MechJebCore.Core.PilotRetarget | Source/MechJebCore.cs:814-830 | a pilot input under kill-rotation retargets inertially; a roll input with roll not mattering retargets with free roll; the attitude stays active |
| MechJebCore.Core.PilotAxes | Source/MechJebCore.cs:821-844 | each axis the pilot moves keeps the pilot value and has its integrator and error zeroed; every other axis gets the action added and clamped to [-1, 1], its integrator and error kept |
| MechJebCore.Core.DriveAttitude | Source/MechJebCore.cs:789-846 | inactive attitude leaves the pilot's controls; otherwise each axis the pilot moves keeps the pilot value and has its integrator and error cleared, other axes get the action added and clamped; kill-rotation and free-roll retargeting as the source does |
| MechJebCore.Core.Drive | Source/MechJebCore.cs:637-854 | nothing on a dead part; disabled owner dropped; nothing more above physics warp; axes the pilot moves are passed through untouched; with attitude active, the pitch and yaw commands (if the pilot moves neither) and the roll command (if the pilot does not move it) lie in [-1, 1]; the host's rotation damping (killRot) is switched off exactly when the attitude controller runs |
| MechJebCore.RemoveFirst | Source/MechJebCore.cs:1332 | removes one occurrence of a listed core and nothing else |
| MechJebCore.RemoveFirstFromDistinct | Source/MechJebCore.cs:1326-1333 | on a list without duplicates the core is gone afterwards, the others stay, no duplicates appear |
| MechJebCore.Enrolled | Source/MechJebCore.cs:1047-1056 | a new vessel gets a keeper controlled by this core; the core is appended once; an existing controller is never replaced |
| MechJebCore.Withdrawn | Source/MechJebCore.cs:1326-1333 | the core leaves the list and the vessel loses its controller if it was that core |
| MechJebCore.EnrolAll | Source/MechJebCore.cs:1101-1109 | enrolling several cores keeps the keeper valid and every core listed |
| MechJebCore.ControllerStaysNone | Source/MechJebCore.cs:1101-1109 | a vessel without a controller gets none from later enrolments |
| MechJebCore.ControllerNeverReassigned | Source/MechJebCore.cs:1326-1333 | once the controller withdraws, no later enrolment gives the vessel a controller again |
| MechJebCore.Registry.Register | Source/MechJebCore.cs:1101-1109 | the vessel's keeper becomes Enrolled of the old one; a first core on a vessel controls it |
| MechJebCore.Registry.Unregister | Source/MechJebCore.cs:1343-1350 | a listed core is withdrawn, otherwise nothing changes; afterwards it neither controls nor is listed |
| RendezvousAutopilot.RendezvousModule.SetMode | Source/MechJebModuleRendezvous.cs:43-54 | the mode is stored; the flag is raised by a new value and untouched by the current one |
| RendezvousAutopilot.NextSyncMode | Source/MechJebModuleRendezvous.cs:385-394 | the next of the four sync modes, wrapping after the last |
| RendezvousAutopilot.SyncModeCycle | Source/MechJebModuleRendezvous.cs:385-394 | four presses return to the same sync mode |
| RendezvousAutopilot.RendezvousModule.CycleSyncMode | Source/MechJebModuleRendezvous.cs:390-394 | the sync mode becomes NextSyncMode of the old one |
| RendezvousAutopilot.RendezvousModule.ToggleAutoAlign | Source/MechJebModuleRendezvous.cs:336-340 | auto-align flips and any triggered burn is forgotten |
| RendezvousAutopilot.RendezvousModule.ToggleAutoPhaser | Source/MechJebModuleRendezvous.cs:408-412 | the phaser flips and restarts at step 1 |
| RendezvousAutopilot.RendezvousModule.ToggleKillRelativeVelocity | Source/MechJebModuleRendezvous.cs:446-447 | the kill switch flips |
| RendezvousAutopilot.RendezvousModule.ToggleHomeOnRelativePosition | Source/MechJebModuleRendezvous.cs:449-450 | the homing switch flips |
| RendezvousAutopilot.IndexOf | Source/MechJebModuleRendezvous.cs:569-578 | None exactly when the ID is absent; otherwise the first position holding it |
| RendezvousAutopilot.RendezvousModule.CheckVessel | Source/MechJebModuleRendezvous.cs:557-582 | a stored index past the list fails; otherwise true exactly when the ID is listed; a stale index moves to the first position holding the ID |
| RendezvousAutopilot.ScanStep | Source/MechJebModuleRendezvous.cs:673-696 | visiting the pair of ship orbit i and target orbit j after the pairs before it replaces the running minimum by that pair exactly when its delta is strictly smaller |
| RendezvousAutopilot.ConsiderExtends | Source/MechJebModuleRendezvous.cs:681-694 | one strict-less step keeps the running minimum the first minimum of the pairs seen |
| RendezvousAutopilot.ScanFindsFirstMinimum | Source/MechJebModuleRendezvous.cs:667-696 | after n pairs the scan holds double.MaxValue and no pair when none is below it, otherwise the first pair with the least delta |
| RendezvousAutopilot.ClosestInGroupIsFirstMinimum | Source/MechJebModuleRendezvous.cs:667-696 | the full scan of a group is its first minimum over all 16 pairs |
| RendezvousAutopilot.FirstMinimumUnique | Source/MechJebModuleRendezvous.cs:673-696 | the first minimum is determined by the tables |
| RendezvousAutopilot.RendezvousModule.FindClosestPairs | Source/MechJebModuleRendezvous.cs:667-696 | the nested loops compute the scan of both groups |
| RendezvousAutopilot.GroupMinimaBound | Source/MechJebModuleRendezvous.cs:673-696 | the smaller group minimum is at most every delta of both groups |
| RendezvousAutopilot.GroupEmptyIffNoneBelowMax | Source/MechJebModuleRendezvous.cs:667-696 | a group finds no pair exactly when none of its deltas is below double.MaxValue |
| RendezvousAutopilot.GroupWitness | Source/MechJebModuleRendezvous.cs:681-694 | a non-empty group's reported pair attains its delta |
| RendezvousAutopilot.ApproachAsWritten | Source/MechJebModuleRendezvous.cs:698-707 | apo group only when strictly closer, ties to peri; ship time read at the target index; the -1 index is the failure |
| RendezvousAutopilot.ApproachAtShipOrbit | Source/MechJebModuleRendezvous.cs:698-707 | the same choice with the ship time read at the ship orbit of the winning pair |
| RendezvousAutopilot.NearestApproachIsNearest | Source/MechJebModuleRendezvous.cs:645-708 | None exactly when no delta is below double.MaxValue; otherwise the least delta over both groups, reported with the ship apsis of a pair attaining it, apo only when below every peri delta |
| RendezvousAutopilot.AsWrittenGapIsSmallest | Source/MechJebModuleRendezvous.cs:698-707 | as written the reported gap is still the least over both groups |
| RendezvousAutopilot.WitnessApoapsisGroup | Source/MechJebModuleRendezvous.cs:673-696 | on the witness tables the apo group's minimum is the zero gap of ship orbit 2, target orbit 0 |
| RendezvousAutopilot.WitnessPeriapsisGroup | Source/MechJebModuleRendezvous.cs:673-696 | on the witness tables the peri group's minimum is 500 s at ship orbit 1, target orbit 0 |
| RendezvousAutopilot.AsWrittenReportsWrongShipApsis | Source/MechJebModuleRendezvous.cs:698-707 | as written the witness reports 100 s, an apsis 2000 s from every target apsis; the corrected choice reports 2100 s |
| RendezvousAutopilot.RendezvousModule.NearestRendezvous | Source/MechJebModuleRendezvous.cs:645-708 | the search result equals NearestApproach of the tables |
| RendezvousAutopilot.RendezvousModule.NearestRendezvousAsWritten | Source/MechJebModuleRendezvous.cs:645-708 | the search as written equals NearestApproachAsWritten of the tables |
| RendezvousAutopilot.TimeTillNextTargetApsis | Source/MechJebModuleRendezvous.cs:710-721 | the sooner of the two apsis times |
| RendezvousAutopilot.TimeTillFurtherTargetApsis | Source/MechJebModuleRendezvous.cs:723-734 | the later of the two apsis times |
| RendezvousAutopilot.NextNotAfterFurther | Source/MechJebModuleRendezvous.cs:710-734 | next is never after further, and the two are the two apsides |
| RendezvousAutopilot.AlignPointing | Source/MechJebModuleRendezvous.cs:754-760 | normal exactly when the sign of the inclination matches the node, otherwise anti-normal |
| RendezvousAutopilot.AlignThrottle | Source/MechJebModuleRendezvous.cs:763-778 | for a given outcome of the aim test, positive exactly while burning (node near or triggered, aim test passed, inclination over 0.01); 1 above 0.1, else 0.25; 0 when not burning |
| RendezvousAutopilot.RendezvousModule.AutoAlignStep | Source/MechJebModuleRendezvous.cs:743-785 | fly by wire, pointing kept during a burn, throttle by AlignThrottle with the aim test passed (it always passes on an error in range), burn latched, the mode disengages below 0.02 |
| RendezvousAutopilot.PhaserStep | Source/MechJebModuleRendezvous.cs:787-900 | each tick stays put or moves to the next step; steps 1, 3 and 5 leave the throttle; step 2 gives full throttle exactly while the aim test passes, not yet burnt and 10 m/s or more from the goal, else 0, and advances only after the burn and more than 10 s to the next apsis; step 4 burns at 0.25 while the gap exceeds 5 s, else cuts to 0 and moves to step 5; step 6 stays active exactly above 5 m/s, at full or 0.2 throttle when the aim test passes, and ends at zero throttle; steps 4 and 5 fail without a rendezvous |
| RendezvousAutopilot.RendezvousModule.RendezvousPhaseStep | Source/MechJebModuleRendezvous.cs:849-874 | in steps 4 and 5 the search runs; a fault exactly when it finds nothing; otherwise state and throttle are those of PhaserStep with the corrected search |
| RendezvousAutopilot.RendezvousModule.AutoPhaserStep | Source/MechJebModuleRendezvous.cs:787-900 | the phaser fields, steering and throttle become PhaserStep of the old ones with the corrected search; the step index stays or advances by one; the phaser switches itself off only from step 6 at zero throttle |
| RendezvousAutopilot.KillThrust | Source/MechJebModuleRendezvous.cs:902-907 | each of x, y, z clamped to [-1, 1], opposing the relative velocity on the axis it drives (x from x, y from z, z from y), zero exactly when that velocity is zero, -8 times it up to 0.125 m/s and saturated at magnitude 1 from there |
| RendezvousAutopilot.VelocityGoalAsWritten | Source/MechJebModuleRendezvous.cs:920-929 | as written only 0.1 and 0.3 occur, 0.3 exactly beyond 2 m |
| RendezvousAutopilot.VelocityGoal | Source/MechJebModuleRendezvous.cs:920-929 | 0.1 up to 2 m, then 0.3, 0.5, 1 and 3 m/s past 10, 50 and 150 m |
| RendezvousAutopilot.VelocityGoalMonotone | Source/MechJebModuleRendezvous.cs:920-929 | the homing speed never drops as the distance grows |
| RendezvousAutopilot.VelocityGoalShadowed | Source/MechJebModuleRendezvous.cs:920-929 | at 200 m the chain as written gives 0.3 where the bands give 3 |
| RendezvousAutopilot.GoalVelocityComponent | Source/MechJebModuleRendezvous.cs:931-938 | zero within 1 cm, otherwise the homing speed against the offset |
| RendezvousAutopilot.HomeThrust | Source/MechJebModuleRendezvous.cs:940-942 | each of x, y, z clamped, zero exactly when the relative velocity matches the goal on the axis it drives, pushing towards the goal, 8 times the shortfall up to 0.125 m/s and saturated at magnitude 1 from there |
| RendezvousAutopilot.RendezvousModule.RelativeMotionStep | Source/MechJebModuleRendezvous.cs:902-943 | killing takes precedence and switches off below 0.1 m/s; otherwise homing towards the goal point with the corrected banded speed VelocityGoal, or the translation is left alone |
| RendezvousAutopilot.ScaledHeadingIsAimed | Source/MechJebModuleRendezvous.cs:951-954 | an error with each component in (-1, 1], as the PID computes it, is at most sqrt 3 long, so the magnitude-under-5 aim test always passes |
| RendezvousAutopilot.RendezvousModule.FlyByWireStep | Source/MechJebModuleRendezvous.cs:952-963 | the heading PID: error stored and kept in range, integrator advanced, pitch and roll plus and yaw minus the action, clamped |
| RendezvousAutopilot.RendezvousModule.DriveSelectedVessel | Source/MechJebModuleRendezvous.cs:741-964 | once the vessel has checked out: the stored heading error stays in range, so the aim test passes; the phaser never skips a step and ends only from step 6 at zero throttle; without fly-by-wire the pilot's rotation passes through |
| RendezvousAutopilot.RendezvousModule.DriveShip | Source/MechJebModuleRendezvous.cs:736-964 | nothing unless the vessel checks out; the stored heading error stays in range, so the aim test passes; the phaser never skips a step and ends only from step 6 at zero throttle; without fly-by-wire the pilot's rotation passes through |

## Left out

- GUI, windows and button layout: the buttons appear only as the toggle methods they trigger.
- Settings persistence and flight-state save and load: file I/O.
- Reference-frame geometry: rotations, `LookRotation`, Euler-angle error extraction and the target
  vectors of `UpdateVectors`. Their results are inputs: the angle to the last attitude target,
  the error vectors, and `Rotation` values that are stored but never computed with.
- Orbit-library calls (`GetTimeToTrue`, `TranslateAnomaly`, `getOrbitalVelocityAt`,
  `GetTimeToRelAN`/`DN`): foreign code. Their results are inputs, including the two 8-entry apsis
  tables. The source fills both target entries of an orbit with its time to true anomaly 0; the
  search is modelled for any tables, so it also covers tables of that shape.
- The square-root and `Lerp` landing profile: Dafny has no square root. The two profiles are
  inputs (`descentProfile`, `taperedProfile`), and only the `Min` with the touchdown speed is
  modelled.
- NaN checks, the `print` diagnostics and `stress`: floating-point and logging details.
- Host side effects: landing-leg deployment, `SetNeutralControls`, the fly-by-wire callbacks, the
  broadcasts to modules (`onControlLost`, `onAttitudeChange`, module `drive` calls) and the
  vessel-state update.
- The `instant` and `force` parameters of the warp and control methods: they only affect
  host-side settling.
- The gain adjustment keys (Source/MechJebCore.cs:1194-1299) and the calibration-mode switch.
  `MechJebCore.Core.Calibrate` takes the key presses as already gated by calibration mode.
- `PerformSyncPartLogic` and the sync-string display tables: display code.
- MechJebCore.Core.WarpTo: requires a lookahead table at least as long as the rate table, which
  the source assumes without checking.
- MechJebCore.Core.Drive: states the control-token, warp and pilot-override outcomes of the tick.
  The exact throttle and attitude results are stated by DriveTranslation and DriveAttitude, not
  repeated here.
- RendezvousAutopilot.RendezvousModule.DriveShip: states the vessel check, the phaser step
  discipline and the pilot pass-through. The branch results are stated by AutoAlignStep,
  AutoPhaserStep, RelativeMotionStep and FlyByWireStep.
- RendezvousAutopilot.RendezvousModule.DriveSelectedVessel: states the same facts as DriveShip
  once the vessel has checked out; the branch results are stated by the step methods it calls.
- RendezvousAutopilot.RendezvousModule.RelativeMotionStep: homes with the corrected `VelocityGoal`,
  not the shadowed chain the source runs; the as-written speed is `VelocityGoalAsWritten`.
- RendezvousAutopilot.RendezvousModule.RendezvousPhaseStep: runs the corrected search
  `NearestApproach`, not the as-written ship-apsis lookup; the as-written result is
  `NearestRendezvousAsWritten`.
- RendezvousAutopilot.RendezvousModule.AutoPhaserStep: steps 4 and 5 run the corrected search
  through `RendezvousPhaseStep`, not the as-written one.
- RendezvousAutopilot.AlignThrottle, RendezvousAutopilot.PhaserStep: take the outcome of the aim test
  as a parameter and state both outcomes. The source compares the 1/180-scaled heading error with 5,
  so the test always passes (ScaledHeadingIsAimed). AutoAlignStep, AutoPhaserStep and DriveShip
  therefore burn whatever the heading is, and the failing outcome is never reached from them.
- RendezvousAutopilot.RendezvousModule.DriveShip: the phaser and homing it drives use the corrected
  search and the corrected homing speed, not the as-written ones.

## Findings

| source | as written | input that shows it | evidently intended | confidence | as-written member | corrected member |
|---|---|---|---|---|---|---|
| Source/MechJebModuleRendezvous.cs:920-929 | the first test `> 2` shadows the later bands, so the homing speed is 0.3 m/s at any distance past 2 m | target distance 200 m gives 0.3 m/s | 0.3, 0.5, 1 and 3 m/s past 2, 10, 50 and 150 m | not executed | RendezvousAutopilot.VelocityGoalShadowed | RendezvousAutopilot.VelocityGoal |
| Source/MechJebModuleRendezvous.cs:685-707 | the winning index is built from the target loop variable `j` and then used to read the ship table | ship [100, 600, 1100, 1600, 2100, 2600, 3100, 3600], target [2100, 2100, 4100, 4100, 6100, 6100, 8100, 8100]: reports 100 s with a zero gap, although the zero gap belongs to the ship apsis at 2100 s | the ship table is read at the ship orbit `i` of the winning pair | not executed | RendezvousAutopilot.AsWrittenReportsWrongShipApsis | RendezvousAutopilot.NearestApproachIsNearest |

Both corrected definitions are used by the rest of the model:
- `RelativeMotionStep` homes with `VelocityGoal`;
- `RendezvousPhaseStep`, and through it `AutoPhaserStep`, `DriveSelectedVessel` and `DriveShip`,
  use `NearestRendezvous`, which computes `NearestApproach`.

The as-written forms are kept beside them as `VelocityGoalAsWritten`, `NearestApproachAsWritten`
and `NearestRendezvousAsWritten`.
