/**
 * The controller bookkeeping of the autopilot core: change-detecting setters with dirty flags,
 * the single-owner control token, the landing activation switch, the time-warp admission
 * controller, the PID resets of the update tick, the throttle selection and pilot-override
 * masking of the control tick, the calibration index cycling, and the per-vessel registry.
 *
 * Geometry (rotations between reference frames, Euler-angle extraction, vector magnitudes) is
 * not modelled: its results enter as inputs (angles in degrees, error vectors, speeds).
 */
module MechJebCore {
  import opened Common

  datatype AttitudeReference = Inertial | Orbit | OrbitHorizontal | SurfaceNorth | SurfaceVelocity | Target
  datatype TargetType = NoTarget | Vessel | Body
  datatype TMode = Off | KeepOrbital | KeepSurface | KeepVertical | Direct

  /** Identities of the objects the core refers to by reference. */
  type ModuleId = nat
  type VesselId = nat
  type BodyId = nat
  type CoreId = nat

  /** A rotation quaternion; the model stores and compares it but never computes with it. */
  datatype Rotation = Rotation(x: real, y: real, z: real, w: real)
  const IdentityRotation: Rotation := Rotation(0.0, 0.0, 0.0, 1.0)

  /** A new attitude target only counts as a change when it points more than this many degrees away. */
  const AttitudeDebounceDegrees: real := 10.0

  // ---------------------------------------------------------------------------------------------
  // Change-detecting setters, as pure updates of the values they guard
  // ---------------------------------------------------------------------------------------------

  /** The translation mode with its previous value and dirty flag. */
  datatype ModeLatch = ModeLatch(prev: TMode, mode: TMode, changed: bool)

  /** Assigning the current mode changes nothing; a different one remembers the old mode and raises the flag. */
  function AssignTMode(l: ModeLatch, v: TMode): (r: ModeLatch)
    ensures r.mode == v
    ensures l.mode == v ==> r == l
    ensures l.mode != v ==> r.prev == l.mode && r.changed
  {
    if l.mode != v then ModeLatch(l.mode, v, true) else l
  }

  /** The attitude reference and target with their remembered values and the shared dirty flag. */
  datatype AttitudeSetpoint = AttitudeSetpoint(
    oldReference: AttitudeReference, reference: AttitudeReference,
    oldTarget: Rotation, lastTarget: Rotation, target: Rotation,
    changed: bool)

  /** The reference setter: a new reference remembers the old one and raises the flag; the targets are untouched. */
  function AssignReference(a: AttitudeSetpoint, v: AttitudeReference): (r: AttitudeSetpoint)
    ensures r.reference == v
    ensures a.reference == v ==> r == a
    ensures a.reference != v ==> r.oldReference == a.reference && r.changed
    ensures r.oldTarget == a.oldTarget && r.lastTarget == a.lastTarget && r.target == a.target
  {
    if a.reference != v then a.(oldReference := a.reference, reference := v, changed := true) else a
  }

  /**
   * The target setter. `angle` is the angle in degrees between the forward vectors of the last
   * effective target and of `v`. The value is always stored; only past the debounce threshold
   * does it become the new effective target and raise the flag.
   */
  function AssignTarget(a: AttitudeSetpoint, v: Rotation, angle: real): (r: AttitudeSetpoint)
    ensures r.target == v
    ensures r.reference == a.reference && r.oldReference == a.oldReference
    ensures Abs(angle) > AttitudeDebounceDegrees ==> r.oldTarget == a.target && r.lastTarget == v && r.changed
    ensures Abs(angle) <= AttitudeDebounceDegrees ==> r.oldTarget == a.oldTarget && r.lastTarget == a.lastTarget && r.changed == a.changed
  {
    if Abs(angle) > AttitudeDebounceDegrees then a.(oldTarget := a.target, lastTarget := v, target := v, changed := true)
    else a.(target := v)
  }

  /** Assigning a mode twice has the effect of assigning it once. */
  lemma AssignTModeIdempotent(l: ModeLatch, v: TMode)
    ensures AssignTMode(AssignTMode(l, v), v) == AssignTMode(l, v)
  {
  }

  /** Re-assigning a target with no angle to the last effective target (a re-send of the same value) raises nothing. */
  lemma AssignTargetRepeatIsQuiet(a: AttitudeSetpoint, v: Rotation, angle: real)
    ensures AssignTarget(AssignTarget(a, v, angle), v, if Abs(angle) > AttitudeDebounceDegrees then 0.0 else angle)
            == AssignTarget(a, v, angle)
  {
  }

  // ---------------------------------------------------------------------------------------------
  // Pilot input and calibration indices
  // ---------------------------------------------------------------------------------------------

  /** Mathfx.Approx(v, 0, 0.1) is false: the pilot is moving this axis beyond the dead band. */
  predicate PilotCommands(v: real) {
    !(Abs(v) < 0.1)
  }

  /** The `userCommanding` bitmask: bit 0 pitch, bit 1 yaw, bit 2 roll. */
  function UserCommanding(pitch: real, yaw: real, roll: real): (m: bv8)
    ensures m < 8
    ensures (m & 1 != 0) <==> PilotCommands(pitch)
    ensures (m & 2 != 0) <==> PilotCommands(yaw)
    ensures (m & 4 != 0) <==> PilotCommands(roll)
    ensures (m & 3 != 0) <==> PilotCommands(pitch) || PilotCommands(yaw)
    ensures (m != 0) <==> PilotCommands(pitch) || PilotCommands(yaw) || PilotCommands(roll)
  {
    (if PilotCommands(pitch) then 1 else 0) + (if PilotCommands(yaw) then 2 else 0) + (if PilotCommands(roll) then 4 else 0)
  }

  /** The step sizes the calibration keys cycle through. */
  const CalibrationDeltas: seq<real> :=
    [0.00001, 0.00005, 0.0001, 0.0005, 0.001, 0.005, 0.01, 0.05, 0.1, 0.5, 1.0, 5.0, 10.0, 50.0, 100.0, 500.0]

  /** The gain set being calibrated: 0 attitude, 1 roll, 2 translation. */
  const CalibrationTargets: nat := 3

  function NextCalibrationTarget(t: nat): (r: nat)
    requires t < CalibrationTargets
    ensures r < CalibrationTargets
    ensures r == (t + 1) % CalibrationTargets
  {
    if t + 1 > 2 then 0 else t + 1
  }

  function NextCalibrationDelta(d: nat): (r: nat)
    requires d < |CalibrationDeltas|
    ensures r < |CalibrationDeltas|
    ensures r == (d + 1) % |CalibrationDeltas|
  {
    if d + 1 >= |CalibrationDeltas| then 0 else d + 1
  }

  function PrevCalibrationDelta(d: nat): (r: nat)
    requires d < |CalibrationDeltas|
    ensures r < |CalibrationDeltas|
    ensures (r + 1) % |CalibrationDeltas| == d
  {
    if d as int - 1 < 0 then |CalibrationDeltas| - 1 else d - 1
  }

  /** The minus and plus keys undo each other. */
  lemma CalibrationDeltaStepsInverse(d: nat)
    requires d < |CalibrationDeltas|
    ensures PrevCalibrationDelta(NextCalibrationDelta(d)) == d
    ensures NextCalibrationDelta(PrevCalibrationDelta(d)) == d
  {
  }

  /** Three presses of the divide key return to the same gain set. */
  lemma CalibrationTargetCycle(t: nat)
    requires t < CalibrationTargets
    ensures NextCalibrationTarget(NextCalibrationTarget(NextCalibrationTarget(t))) == t
  {
  }

  // ---------------------------------------------------------------------------------------------
  // Time-warp admission
  // ---------------------------------------------------------------------------------------------

  /** What the warp controller reads of the vessel in one call. */
  datatype FlightReadings = FlightReadings(
    altitudeASL: real,      // instantaneous altitude above sea level
    atmosphereTop: real,    // the body's maximum atmosphere altitude
    bodyRadius: real,
    landed: bool,
    time: real)

  /**
   * The six conditions for stepping up one warp rate from `index`: a next rate exists, the current
   * rate has settled, the next rate is within `maxRate`, the atmosphere does not forbid it, the
   * next rate's altitude floor is cleared, and the last attempt is more than 2 s old.
   */
  predicate IncreaseAllowed(rates: seq<real>, limits: seq<real>, index: nat, currentRate: real,
                            maxPhysicsRate: real, lastAttempt: real, maxRate: real, f: FlightReadings)
    requires |limits| == |rates| && index < |rates|
  {
    && index + 1 < |rates|
    && (currentRate == 0.0 || rates[index] == currentRate)
    && rates[index + 1] <= maxRate
    && (f.altitudeASL > f.atmosphereTop || rates[index + 1] <= maxPhysicsRate || f.landed)
    && (f.altitudeASL > limits[index + 1] * f.bodyRadius || f.landed)
    && f.time - lastAttempt > 2.0
  }

  /** Below the next rate's altitude floor and not landed, no increase is admitted. */
  lemma BelowAltitudeFloorRefused(rates: seq<real>, limits: seq<real>, index: nat, currentRate: real,
                                  maxPhysicsRate: real, lastAttempt: real, maxRate: real, f: FlightReadings)
    requires |limits| == |rates| && index + 1 < |rates|
    requires !f.landed && f.altitudeASL <= limits[index + 1] * f.bodyRadius
    ensures !IncreaseAllowed(rates, limits, index, currentRate, maxPhysicsRate, lastAttempt, maxRate, f)
  {
  }

  /** Inside the atmosphere and not landed, only physics rates are admitted. */
  lemma InAtmosphereOnlyPhysicsRates(rates: seq<real>, limits: seq<real>, index: nat, currentRate: real,
                                     maxPhysicsRate: real, lastAttempt: real, maxRate: real, f: FlightReadings)
    requires |limits| == |rates| && index < |rates|
    requires IncreaseAllowed(rates, limits, index, currentRate, maxPhysicsRate, lastAttempt, maxRate, f)
    requires !f.landed && f.altitudeASL <= f.atmosphereTop
    ensures rates[index + 1] <= maxPhysicsRate
  {
  }

  /** An admitted increase never exceeds the caller's cap and needs a 2 s pause since the last attempt. */
  lemma AdmittedIncreaseBounds(rates: seq<real>, limits: seq<real>, index: nat, currentRate: real,
                               maxPhysicsRate: real, lastAttempt: real, maxRate: real, f: FlightReadings)
    requires |limits| == |rates| && index < |rates|
    requires IncreaseAllowed(rates, limits, index, currentRate, maxPhysicsRate, lastAttempt, maxRate, f)
    ensures index + 1 < |rates| && rates[index + 1] <= maxRate && f.time > lastAttempt + 2.0
  {
  }

  // ---------------------------------------------------------------------------------------------
  // Control-tick arithmetic
  // ---------------------------------------------------------------------------------------------

  /** The PID law `Kp*err + Ki*integral + Kd*(err - prevErr)/dt`, with `integral` already updated. */
  function PidOutput(kp: real, ki: real, kd: real, err: real, integral: real, prevErr: real, dt: real): real
    requires dt > 0.0
  {
    kp * err + ki * integral + kd * ((err - prevErr) / dt)
  }

  /**
   * Whether the throttle may follow the translation PID: always except in KEEP_VERTICAL, where the
   * vessel must point within 2 degrees of its target, or within 90 degrees below 1000 m.
   */
  predicate ThrottleAligned(mode: TMode, attitudeError: real, minAltitude: real) {
    mode != KeepVertical || attitudeError < 2.0 || (minAltitude < 1000.0 && attitudeError < 90.0)
  }

  /**
   * The main throttle of the translation controller. DIRECT mode maps the speed command straight
   * to a throttle; other modes integrate the PID action into the previous throttle, clamped to
   * [0, 1]; a misaligned KEEP_VERTICAL vessel gets at most a 10% throttle, and only when engine
   * gimballing gives ten times the reaction-wheel torque.
   */
  function ThrottleCommand(mode: TMode, attitudeError: real, minAltitude: real, spdAct: real,
                           prevThrottle: real, tAct: real, torqueThrustPY: real, torquePY: real): (r: real)
    ensures ThrottleAligned(mode, attitudeError, minAltitude) && mode == Direct ==> r == spdAct / 100.0
    ensures ThrottleAligned(mode, attitudeError, minAltitude) && mode != Direct ==>
              && 0.0 <= r <= 1.0
              && (0.0 <= prevThrottle + tAct <= 1.0 ==> r == prevThrottle + tAct)
              && (prevThrottle + tAct > 1.0 ==> r == 1.0)
              && (prevThrottle + tAct < 0.0 ==> r == 0.0)
    ensures !ThrottleAligned(mode, attitudeError, minAltitude) ==>
              mode == KeepVertical && (r == 0.1 <==> torqueThrustPY > torquePY * 10.0) && (r == 0.0 || r == 0.1)
    ensures mode != Direct ==> 0.0 <= r <= 1.0
    ensures mode == KeepVertical && attitudeError >= 90.0 ==> r <= 0.1
    ensures mode == KeepVertical && attitudeError >= 2.0 && minAltitude >= 1000.0 ==> r <= 0.1
  {
    if ThrottleAligned(mode, attitudeError, minAltitude) then
      if mode == Direct then spdAct / 100.0 else Clamp(prevThrottle + tAct, 0.0, 1.0)
    else if attitudeError >= 2.0 && torqueThrustPY > torquePY * 10.0 then 0.1
    else 0.0
  }

  /** The host's time-warp object: rate tables, the physics-rate ceiling and the current rate. */
  class TimeWarp {
    const warpRates: array<real>
    const altitudeLimits: array<real>   // in body radii, per rate
    const maxPhysicsRate: real
    var currentRateIndex: nat
    /** The rate actually in effect; the host moves it towards warpRates[currentRateIndex]. */
    var currentRate: real

    ghost predicate Valid()
      reads this
    {
      warpRates.Length > 0 && altitudeLimits.Length == warpRates.Length && currentRateIndex < warpRates.Length
    }

    constructor (rates: array<real>, limits: array<real>, maxPhysicsRate: real, currentRate: real)
      requires rates.Length > 0 && limits.Length == rates.Length
      ensures Valid()
      ensures warpRates == rates && altitudeLimits == limits && this.maxPhysicsRate == maxPhysicsRate
      ensures currentRateIndex == 0 && this.currentRate == currentRate
    {
      warpRates, altitudeLimits, this.maxPhysicsRate := rates, limits, maxPhysicsRate;
      currentRateIndex, this.currentRate := 0, currentRate;
    }

    /** TimeWarp.SetRate: selects a rate index. */
    method SetRate(index: nat)
      requires Valid() && index < warpRates.Length
      modifies this`currentRateIndex
      ensures Valid() && currentRateIndex == index
    {
      currentRateIndex := index;
    }
  }

  // ---------------------------------------------------------------------------------------------
  // The core
  // ---------------------------------------------------------------------------------------------

  /** What the translation controller reads of the vessel in one control tick. */
  datatype TranslationReadings = TranslationReadings(
    thrustAvailable: real, maxThrustAccel: real, gravity: real, geeASL: real,
    altitudeASL: real, altitudeTrue: real, altitudeBottom: real, landedOrSplashed: bool,
    speedOrbital: real, speedSurface: real, speedVertical: real, horizontalSpeed: real,
    descentProfile: real,    // -sqrt(2 (maxThrustAccel - gravity) minAltitude) / 2
    taperedProfile: real,    // the same profile tapered linearly below 200 m
    killHTarget: Rotation,   // the attitude the horizontal-speed killer asks for this tick
    killHAngle: real,        // its angle to the last effective attitude target
    attitudeError: real,     // degrees between the attitude target and the vessel's heading
    torqueThrustPY: real, torquePY: real,
    fixedDeltaTime: real)

  /** The translation mode once an active landing has taken over: off on touchdown, keep-vertical in flight. */
  function LandingMode(transLand: bool, mode: TMode, landed: bool): (m: TMode)
    ensures !transLand ==> m == mode
    ensures transLand ==> (m == Off <==> landed) && (m == KeepVertical <==> !landed)
  {
    if !transLand then mode else if landed then Off else KeepVertical
  }

  /** The speed the translation PID holds at transSpdAct under mode `m`; none (0) in other modes. */
  function SelectedSpeed(m: TMode, r: TranslationReadings): real {
    match m
    case KeepOrbital => r.speedOrbital
    case KeepSurface => r.speedSurface
    case KeepVertical => r.speedVertical
    case _ => 0.0
  }

  /** High up with horizontal speed more than twice max(|vertical speed|, 100 g): the killer burns sideways. */
  predicate KillHEscalates(r: TranslationReadings) {
    Min(r.altitudeASL, r.altitudeTrue) > 5000.0 && r.horizontalSpeed > Max(Abs(r.speedVertical), 100.0 * r.geeASL) * 2.0
  }

  /** What the attitude controller reads in one control tick. */
  datatype AttitudeReadings = AttitudeReadings(
    err: Vec3,                 // per-axis error after decoupling and inertia scaling
    fixedDeltaTime: real,
    killRotTarget: Rotation,   // the current heading, adopted when the pilot takes over with kill-rotation on
    killRotAngle: real,
    rollFreeTarget: Rotation,  // the target with the vessel's current roll, adopted when the pilot rolls
    rollFreeAngle: real)

  /** The flight controls of one tick (FlightCtrlState); `killRot` is the host's own rotation damping. */
  datatype Controls = Controls(mainThrottle: real, pitch: real, yaw: real, roll: real, killRot: bool)

  class Core {
    const timeWarp: TimeWarp

    var prevTMode: TMode
    var tMode: TMode
    var tModeChanged: bool

    var controlModule: Option<ModuleId>

    var attitudeChanged: bool
    var attitudeActive: bool
    var oldAttitudeReference: AttitudeReference
    var attitudeReference: AttitudeReference
    var oldAttitudeTarget: Rotation
    var lastAttitudeTarget: Rotation
    var attitudeTarget: Rotation
    var attitudeRollMatters: bool
    var attitudeKillRot: bool

    var targetChanged: bool
    var targetType: TargetType
    var targetVessel: Option<VesselId>
    var targetBody: Option<BodyId>

    // rotation PID state and gains
    var integral: Vec3
    var prevErr: Vec3
    var act: Vec3
    var kp: real
    var ki: real
    var kd: real
    // translation PID state and gains
    var tIntegral: real
    var tPrevErr: real
    var tKp: real
    var tKi: real
    var tKd: real

    var transSpdAct: real
    var transPrevThrust: real
    var transKillH: bool
    var transLand: bool
    var transLandGears: bool
    var transLandTouchdownSpeed: real

    var warpIncreaseAttemptTime: real

    var calibrationTarget: nat
    var calibrationDelta: nat

    ghost predicate Valid()
      reads this, timeWarp
    {
      timeWarp.Valid() && calibrationTarget < CalibrationTargets && calibrationDelta < |CalibrationDeltas|
    }

    /** The translation mode latch. */
    ghost function TModeView(): ModeLatch
      reads this`prevTMode, this`tMode, this`tModeChanged
    {
      ModeLatch(prevTMode, tMode, tModeChanged)
    }

    /** The attitude setpoint and its dirty flag. */
    ghost function AttitudeView(): AttitudeSetpoint
      reads this`oldAttitudeReference, this`attitudeReference, this`oldAttitudeTarget, this`lastAttitudeTarget,
            this`attitudeTarget, this`attitudeChanged
    {
      AttitudeSetpoint(oldAttitudeReference, attitudeReference, oldAttitudeTarget, lastAttitudeTarget, attitudeTarget, attitudeChanged)
    }

    /** Another module holds the control token, and the caller is a module other than it. */
    predicate OwnedByOther(controller: Option<ModuleId>)
      reads this`controlModule
    {
      controlModule.Some? && controller.Some? && controlModule != controller
    }

    constructor (timeWarp: TimeWarp)
      requires timeWarp.Valid()
      ensures Valid() && this.timeWarp == timeWarp
      ensures TModeView() == ModeLatch(Off, Off, false) && controlModule == None
      ensures AttitudeView() == AttitudeSetpoint(Inertial, Inertial, IdentityRotation, IdentityRotation, IdentityRotation, false)
      ensures !attitudeActive && !attitudeRollMatters && !transLand && targetType == NoTarget
      ensures integral == ZeroVec && prevErr == ZeroVec && tIntegral == 0.0 && tPrevErr == 0.0
    {
      this.timeWarp := timeWarp;
      prevTMode, tMode, tModeChanged := Off, Off, false;
      controlModule := None;
      attitudeChanged, attitudeActive := false, false;
      oldAttitudeReference, attitudeReference := Inertial, Inertial;
      oldAttitudeTarget, lastAttitudeTarget, attitudeTarget := IdentityRotation, IdentityRotation, IdentityRotation;
      attitudeRollMatters, attitudeKillRot := false, false;
      targetChanged, targetType, targetVessel, targetBody := false, NoTarget, None, None;
      integral, prevErr, act := ZeroVec, ZeroVec, ZeroVec;
      kp, ki, kd := 10000.0, 0.0, 0.0;
      tIntegral, tPrevErr := 0.0, 0.0;
      tKp, tKi, tKd := 0.05, 0.000001, 0.05;
      transSpdAct, transPrevThrust := 0.0, 0.0;
      transKillH, transLand, transLandGears := false, false, false;
      transLandTouchdownSpeed := 0.5;
      warpIncreaseAttemptTime := 0.0;
      calibrationTarget, calibrationDelta := 0, 0;
    }

    // ------------------------------------------------------------------ setters

    /** The `tmode` property setter. */
    method SetTMode(v: TMode)
      modifies this`prevTMode, this`tMode, this`tModeChanged
      ensures TModeView() == AssignTMode(old(TModeView()), v)
    {
      if tMode != v {
        prevTMode := tMode;
        tMode := v;
        tModeChanged := true;
      }
    }

    /** The `attitudeReference` property setter. */
    method SetAttitudeReference(v: AttitudeReference)
      modifies this`oldAttitudeReference, this`attitudeReference, this`attitudeChanged
      ensures AttitudeView() == AssignReference(old(AttitudeView()), v)
    {
      if attitudeReference != v {
        oldAttitudeReference := attitudeReference;
        attitudeReference := v;
        attitudeChanged := true;
      }
    }

    /** The `attitudeTarget` property setter; `angle` is the angle to the last effective target. */
    method SetAttitudeTarget(v: Rotation, angle: real)
      modifies this`oldAttitudeTarget, this`lastAttitudeTarget, this`attitudeTarget, this`attitudeChanged
      ensures AttitudeView() == AssignTarget(old(AttitudeView()), v, angle)
    {
      if Abs(angle) > AttitudeDebounceDegrees {
        oldAttitudeTarget := attitudeTarget;
        lastAttitudeTarget := v;
        attitudeChanged := true;
      }
      attitudeTarget := v;
    }

    /** The `targetType` property setter. */
    method SetTargetType(v: TargetType)
      modifies this`targetType, this`targetChanged, this`attitudeChanged
      ensures targetType == v
      ensures targetChanged == (old(targetChanged) || old(targetType) != v)
      ensures attitudeChanged == (old(attitudeChanged) || (old(targetType) != v && attitudeReference == Target))
    {
      if targetType != v {
        targetType := v;
        targetChanged := true;
        if attitudeReference == Target {
          attitudeChanged := true;
        }
      }
    }

    /** The `targetVessel` property setter: a change only counts while the target type is a vessel. */
    method SetTargetVessel(v: Option<VesselId>)
      modifies this`targetVessel, this`targetChanged, this`attitudeChanged
      ensures targetVessel == v
      ensures targetChanged == (old(targetChanged) || (old(targetVessel) != v && targetType == Vessel))
      ensures attitudeChanged == (old(attitudeChanged) || (old(targetVessel) != v && targetType == Vessel && attitudeReference == Target))
    {
      if targetVessel != v {
        targetVessel := v;
        if targetType == Vessel {
          targetChanged := true;
          if attitudeReference == Target {
            attitudeChanged := true;
          }
        }
      }
    }

    /** The `targetBody` property setter: a change only counts while the target type is a body. */
    method SetTargetBody(v: Option<BodyId>)
      modifies this`targetBody, this`targetChanged, this`attitudeChanged
      ensures targetBody == v
      ensures targetChanged == (old(targetChanged) || (old(targetBody) != v && targetType == Body))
      ensures attitudeChanged == (old(attitudeChanged) || (old(targetBody) != v && targetType == Body && attitudeReference == Target))
    {
      if targetBody != v {
        targetBody := v;
        if targetType == Body {
          targetChanged := true;
          if attitudeReference == Target {
            attitudeChanged := true;
          }
        }
      }
    }

    /** `setTarget(Vessel)`: the vessel first, then the type. */
    method SetTargetToVessel(v: Option<VesselId>)
      modifies this`targetVessel, this`targetType, this`targetChanged, this`attitudeChanged
      ensures targetVessel == v && targetType == Vessel
      ensures targetChanged == (old(targetChanged) || old(targetType) != Vessel || old(targetVessel) != v)
      ensures attitudeChanged == (old(attitudeChanged) || (attitudeReference == Target && (old(targetType) != Vessel || old(targetVessel) != v)))
    {
      SetTargetVessel(v);
      SetTargetType(Vessel);
    }

    /** `setTarget(CelestialBody)`: the body first, then the type. */
    method SetTargetToBody(b: Option<BodyId>)
      modifies this`targetBody, this`targetType, this`targetChanged, this`attitudeChanged
      ensures targetBody == b && targetType == Body
      ensures targetChanged == (old(targetChanged) || old(targetType) != Body || old(targetBody) != b)
      ensures attitudeChanged == (old(attitudeChanged) || (attitudeReference == Target && (old(targetType) != Body || old(targetBody) != b)))
    {
      SetTargetBody(b);
      SetTargetType(Body);
    }

    // ------------------------------------------------------------------ attitude requests

    /** `attitudeTo(Quaternion, ...)`: refused while another module owns control. */
    method AttitudeTo(attitude: Rotation, angle: real, reference: AttitudeReference, controller: Option<ModuleId>)
      returns (ok: bool)
      modifies this`oldAttitudeReference, this`attitudeReference, this`oldAttitudeTarget, this`lastAttitudeTarget,
               this`attitudeTarget, this`attitudeChanged, this`attitudeActive, this`attitudeRollMatters
      ensures ok == !OwnedByOther(controller)
      ensures ok ==> AttitudeView() == AssignTarget(AssignReference(old(AttitudeView()), reference), attitude, angle)
      ensures ok ==> attitudeActive && attitudeRollMatters
      ensures !ok ==> AttitudeView() == old(AttitudeView()) && attitudeActive == old(attitudeActive)
                      && attitudeRollMatters == old(attitudeRollMatters)
    {
      if OwnedByOther(controller) {
        return false;
      }
      SetAttitudeReference(reference);
      SetAttitudeTarget(attitude, angle);
      attitudeActive := true;
      attitudeRollMatters := true;
      return true;
    }

    /**
     * `attitudeTo(Vector3d, ...)`: points the forward axis along a direction; `lookRotation` is the
     * rotation the geometry builds for that direction. On success the roll is left free.
     */
    method AttitudeToDirection(lookRotation: Rotation, angle: real, reference: AttitudeReference, controller: Option<ModuleId>)
      returns (ok: bool)
      modifies this`oldAttitudeReference, this`attitudeReference, this`oldAttitudeTarget, this`lastAttitudeTarget,
               this`attitudeTarget, this`attitudeChanged, this`attitudeActive, this`attitudeRollMatters
      ensures ok == !OwnedByOther(controller)
      ensures ok ==> AttitudeView() == AssignTarget(AssignReference(old(AttitudeView()), reference), lookRotation, angle)
      ensures ok ==> attitudeActive && !attitudeRollMatters
      ensures !ok ==> AttitudeView() == old(AttitudeView()) && attitudeActive == old(attitudeActive)
                      && attitudeRollMatters == old(attitudeRollMatters)
    {
      ok := AttitudeTo(lookRotation, angle, reference, controller);
      if ok {
        attitudeRollMatters := false;
      }
    }

    /** `attitudeDeactivate`: refused while another module owns control. */
    method AttitudeDeactivate(controller: Option<ModuleId>) returns (ok: bool)
      modifies this`attitudeActive, this`attitudeChanged
      ensures ok == !OwnedByOther(controller)
      ensures ok ==> !attitudeActive && attitudeChanged
      ensures !ok ==> attitudeActive == old(attitudeActive) && attitudeChanged == old(attitudeChanged)
    {
      if OwnedByOther(controller) {
        return false;
      }
      attitudeActive := false;
      attitudeChanged := true;
      return true;
    }

    // ------------------------------------------------------------------ landing switch

    /** `landActivate`: while already landing only the touchdown speed changes. */
    method LandActivate(controller: Option<ModuleId>, touchdownSpeed: real := 0.5) returns (ok: bool)
      modifies this`transLandTouchdownSpeed, this`transLand, this`transLandGears, this`prevTMode, this`tMode, this`tModeChanged
      ensures ok == !OwnedByOther(controller)
      ensures !ok ==> transLandTouchdownSpeed == old(transLandTouchdownSpeed) && transLand == old(transLand)
                      && transLandGears == old(transLandGears) && TModeView() == old(TModeView())
      ensures ok ==> transLandTouchdownSpeed == touchdownSpeed && transLand
      ensures ok && old(transLand) ==> transLandGears == old(transLandGears) && TModeView() == old(TModeView())
      ensures ok && !old(transLand) ==> !transLandGears && TModeView() == AssignTMode(old(TModeView()), KeepVertical)
    {
      if OwnedByOther(controller) {
        return false;
      }
      transLandTouchdownSpeed := touchdownSpeed;
      if transLand {
        return true;
      }
      transLand := true;
      transLandGears := false;
      SetTMode(KeepVertical);
      return true;
    }

    /** `landDeactivate`: when not landing it succeeds without changing anything. */
    method LandDeactivate(controller: Option<ModuleId>) returns (ok: bool)
      modifies this`transLand, this`prevTMode, this`tMode, this`tModeChanged
      ensures ok == !OwnedByOther(controller)
      ensures (!ok || !old(transLand)) ==> transLand == old(transLand) && TModeView() == old(TModeView())
      ensures ok && old(transLand) ==> !transLand && TModeView() == AssignTMode(old(TModeView()), Off)
    {
      if OwnedByOther(controller) {
        return false;
      }
      if !transLand {
        return true;
      }
      transLand := false;
      SetTMode(Off);
      return true;
    }

    // ------------------------------------------------------------------ control token

    /** `controlRelease`: drops the token and switches attitude, landing and translation off. */
    method ControlRelease(controller: Option<ModuleId>) returns (ok: bool)
      modifies this`controlModule, this`attitudeActive, this`attitudeChanged, this`transLand,
               this`prevTMode, this`tMode, this`tModeChanged
      ensures ok
      ensures controlModule == None && !attitudeActive && attitudeChanged && !transLand
      ensures TModeView() == AssignTMode(old(TModeView()), Off)
    {
      controlModule := None;
      var deactivated := AttitudeDeactivate(controller);
      var landed := LandDeactivate(controller);
      SetTMode(Off);
      return true;
    }

    /** `controlClaim`: the current owner keeps the token untouched; anyone else takes it after a release. */
    method ControlClaim(newController: Option<ModuleId>) returns (ok: bool)
      modifies this`controlModule, this`attitudeActive, this`attitudeChanged, this`transLand,
               this`prevTMode, this`tMode, this`tModeChanged
      ensures ok && controlModule == newController
      ensures old(controlModule) == newController ==>
                attitudeActive == old(attitudeActive) && attitudeChanged == old(attitudeChanged)
                && transLand == old(transLand) && TModeView() == old(TModeView())
      ensures old(controlModule) != newController ==>
                !attitudeActive && attitudeChanged && !transLand && TModeView() == AssignTMode(old(TModeView()), Off)
    {
      if controlModule == newController {
        return true;
      }
      var released := ControlRelease(newController);
      if !released {
        return false;
      }
      controlModule := newController;
      return true;
    }

    /** At the start of the control tick a disabled owner loses the token without any release. */
    method DropDisabledController(ownerEnabled: bool)
      modifies this`controlModule
      ensures controlModule == if old(controlModule).Some? && !ownerEnabled then None else old(controlModule)
    {
      if controlModule.Some? && !ownerEnabled {
        controlModule := None;
      }
    }

    // ------------------------------------------------------------------ time warp

    /** `warpIncrease`: steps up exactly one rate when all six admission conditions hold. */
    method WarpIncrease(controller: Option<ModuleId>, f: FlightReadings, maxRate: real := 10000.0) returns (ok: bool)
      requires Valid()
      modifies this`warpIncreaseAttemptTime, timeWarp`currentRateIndex
      ensures Valid()
      ensures ok == (!OwnedByOther(controller)
                     && IncreaseAllowed(timeWarp.warpRates[..], timeWarp.altitudeLimits[..], old(timeWarp.currentRateIndex),
                                        timeWarp.currentRate, timeWarp.maxPhysicsRate, old(warpIncreaseAttemptTime), maxRate, f))
      ensures ok ==> timeWarp.currentRateIndex == old(timeWarp.currentRateIndex) + 1 && warpIncreaseAttemptTime == f.time
      ensures !ok ==> timeWarp.currentRateIndex == old(timeWarp.currentRateIndex) && warpIncreaseAttemptTime == old(warpIncreaseAttemptTime)
    {
      if OwnedByOther(controller) {
        return false;
      }
      var i := timeWarp.currentRateIndex;
      if i + 1 < timeWarp.warpRates.Length
         && (timeWarp.currentRate == 0.0 || timeWarp.warpRates[i] == timeWarp.currentRate)
         && timeWarp.warpRates[i + 1] <= maxRate
         && (f.altitudeASL > f.atmosphereTop || timeWarp.warpRates[i + 1] <= timeWarp.maxPhysicsRate || f.landed)
         && (f.altitudeASL > timeWarp.altitudeLimits[i + 1] * f.bodyRadius || f.landed)
         && f.time - warpIncreaseAttemptTime > 2.0
      {
        warpIncreaseAttemptTime := f.time;
        timeWarp.SetRate(i + 1);
        return true;
      }
      return false;
    }

    /** `warpDecrease`: one rate down, never below the first. */
    method WarpDecrease(controller: Option<ModuleId>)
      requires Valid()
      modifies timeWarp`currentRateIndex
      ensures Valid()
      ensures timeWarp.currentRateIndex ==
                if !OwnedByOther(controller) && old(timeWarp.currentRateIndex) > 0
                then old(timeWarp.currentRateIndex) - 1 else old(timeWarp.currentRateIndex)
    {
      if OwnedByOther(controller) {
        return;
      }
      if timeWarp.currentRateIndex > 0 {
        timeWarp.SetRate(timeWarp.currentRateIndex - 1);
      }
    }

    /** `warpMinimum`: back to the first rate. */
    method WarpMinimum(controller: Option<ModuleId>)
      requires Valid()
      modifies timeWarp`currentRateIndex
      ensures Valid()
      ensures timeWarp.currentRateIndex == if OwnedByOther(controller) then old(timeWarp.currentRateIndex) else 0
    {
      if OwnedByOther(controller) {
        return;
      }
      timeWarp.SetRate(0);
    }

    /**
     * `warpPhysics`: walks down to the highest rate at or below the current one that is a physics
     * rate, or to the first rate if there is none.
     */
    method WarpPhysics(controller: Option<ModuleId>)
      requires Valid()
      modifies timeWarp`currentRateIndex
      ensures Valid()
      ensures OwnedByOther(controller) ==> timeWarp.currentRateIndex == old(timeWarp.currentRateIndex)
      ensures timeWarp.currentRateIndex <= old(timeWarp.currentRateIndex)
      ensures !OwnedByOther(controller) ==>
                timeWarp.currentRateIndex == 0 || timeWarp.warpRates[timeWarp.currentRateIndex] <= timeWarp.maxPhysicsRate
      ensures !OwnedByOther(controller) ==>
                forall k :: timeWarp.currentRateIndex < k <= old(timeWarp.currentRateIndex) ==> timeWarp.warpRates[k] > timeWarp.maxPhysicsRate
    {
      if OwnedByOther(controller) {
        return;
      }
      if timeWarp.warpRates[timeWarp.currentRateIndex] <= timeWarp.maxPhysicsRate {
        return;
      }
      var newIndex: nat := timeWarp.currentRateIndex;
      while newIndex > 0 && timeWarp.warpRates[newIndex] > timeWarp.maxPhysicsRate
        invariant timeWarp.Valid() && newIndex <= timeWarp.currentRateIndex
        invariant forall k :: newIndex < k <= timeWarp.currentRateIndex ==> timeWarp.warpRates[k] > timeWarp.maxPhysicsRate
      {
        newIndex := newIndex - 1;
      }
      timeWarp.SetRate(newIndex);
    }

    /**
     * `warpTo`: slows down when the time left is under the current rate's lookahead or the rate is
     * above the cap; otherwise tries a (non-instant) increase when the next rate's lookahead fits.
     */
    method WarpTo(controller: Option<ModuleId>, timeLeft: real, lookaheadTimes: array<real>, f: FlightReadings, maxRate: real := 10000.0)
      requires Valid() && lookaheadTimes.Length >= timeWarp.warpRates.Length
      modifies this`warpIncreaseAttemptTime, timeWarp`currentRateIndex
      ensures Valid()
      ensures var i := old(timeWarp.currentRateIndex);
              timeLeft < lookaheadTimes[i] || timeWarp.warpRates[i] > maxRate ==>
                warpIncreaseAttemptTime == old(warpIncreaseAttemptTime)
                && timeWarp.currentRateIndex == if !OwnedByOther(controller) && i > 0 then i - 1 else i
      ensures var i := old(timeWarp.currentRateIndex);
              var increase := !OwnedByOther(controller)
                && IncreaseAllowed(timeWarp.warpRates[..], timeWarp.altitudeLimits[..], i, timeWarp.currentRate,
                                   timeWarp.maxPhysicsRate, old(warpIncreaseAttemptTime), maxRate, f);
              !(timeLeft < lookaheadTimes[i] || timeWarp.warpRates[i] > maxRate)
              && i < timeWarp.warpRates.Length - 1 && lookaheadTimes[i + 1] < timeLeft && timeWarp.warpRates[i + 1] <= maxRate ==>
                (increase ==> timeWarp.currentRateIndex == i + 1 && warpIncreaseAttemptTime == f.time)
                && (!increase ==> timeWarp.currentRateIndex == i && warpIncreaseAttemptTime == old(warpIncreaseAttemptTime))
      ensures var i := old(timeWarp.currentRateIndex);
              !(timeLeft < lookaheadTimes[i] || timeWarp.warpRates[i] > maxRate)
              && !(i < timeWarp.warpRates.Length - 1 && lookaheadTimes[i + 1] < timeLeft && timeWarp.warpRates[i + 1] <= maxRate) ==>
                timeWarp.currentRateIndex == i && warpIncreaseAttemptTime == old(warpIncreaseAttemptTime)
    {
      var i := timeWarp.currentRateIndex;
      if timeLeft < lookaheadTimes[i] || timeWarp.warpRates[i] > maxRate {
        WarpDecrease(controller);
      } else if i < timeWarp.warpRates.Length - 1 && lookaheadTimes[i + 1] < timeLeft && timeWarp.warpRates[i + 1] <= maxRate {
        var increased := WarpIncrease(controller, f, maxRate);
      }
    }

    // ------------------------------------------------------------------ update tick

    /**
     * The reset block of `onPartUpdate`: a mode change clears the translation integrator (and, when
     * it leaves a horizontal-kill descent, switches attitude and landing off); an attitude change
     * clears the rotation integrator. Neither touches the other loop's state.
     */
    method ResetControllers()
      modifies this`attitudeActive, this`attitudeChanged, this`transLand, this`tIntegral, this`tPrevErr,
               this`tModeChanged, this`attitudeKillRot, this`integral, this`prevErr, this`act
      ensures !tModeChanged && !attitudeChanged
      ensures var killed := old(tModeChanged) && transKillH && tMode == Off;
              attitudeActive == (old(attitudeActive) && !killed) && transLand == (old(transLand) && !killed)
      ensures old(tModeChanged) ==> tIntegral == 0.0 && tPrevErr == 0.0
      ensures !old(tModeChanged) ==> tIntegral == old(tIntegral) && tPrevErr == old(tPrevErr)
      ensures var reset := old(attitudeChanged) || (old(tModeChanged) && transKillH && tMode == Off);
              (reset ==> integral == ZeroVec && prevErr == ZeroVec && act == ZeroVec
                         && attitudeKillRot == (old(attitudeKillRot) && attitudeReference == Inertial))
              && (!reset ==> integral == old(integral) && prevErr == old(prevErr) && act == old(act)
                             && attitudeKillRot == old(attitudeKillRot))
    {
      if tModeChanged {
        if transKillH && tMode == Off {
          attitudeActive := false;
          attitudeChanged := true;
          transLand := false;
        }
        tIntegral := 0.0;
        tPrevErr := 0.0;
        tModeChanged := false;
      }
      if attitudeChanged {
        if attitudeReference != Inertial {
          attitudeKillRot := false;
        }
        integral := ZeroVec;
        prevErr := ZeroVec;
        act := ZeroVec;
        attitudeChanged := false;
      }
    }

    /** The calibration keys of `onPartUpdate`: divide cycles the gain set, minus and plus the step size. */
    method Calibrate(dividePressed: bool, minusPressed: bool, plusPressed: bool)
      requires Valid()
      modifies this`calibrationTarget, this`calibrationDelta
      ensures Valid()
      ensures calibrationTarget == if dividePressed then NextCalibrationTarget(old(calibrationTarget)) else old(calibrationTarget)
      ensures var d1 := if minusPressed then PrevCalibrationDelta(old(calibrationDelta)) else old(calibrationDelta);
              calibrationDelta == if plusPressed then NextCalibrationDelta(d1) else d1
    {
      if dividePressed {
        calibrationTarget := calibrationTarget + 1;
        if calibrationTarget > 2 {
          calibrationTarget := 0;
        }
      }
      if minusPressed {
        if calibrationDelta == 0 {
          calibrationDelta := |CalibrationDeltas| - 1;
        } else {
          calibrationDelta := calibrationDelta - 1;
        }
      }
      if plusPressed {
        calibrationDelta := calibrationDelta + 1;
        if calibrationDelta >= |CalibrationDeltas| {
          calibrationDelta := 0;
        }
      }
    }

    // ------------------------------------------------------------------ control tick

    /**
     * The landing block of `drive`: on the ground it ends the landing; in flight it holds vertical
     * speed on the descent profile, deploys the legs below 1000 m and below 200 m never descends
     * slower than the touchdown speed.
     */
    method LandingStep(r: TranslationReadings)
      modifies this`prevTMode, this`tMode, this`tModeChanged, this`transLand, this`transKillH,
               this`transSpdAct, this`transLandGears
      ensures r.landedOrSplashed ==>
                TModeView() == AssignTMode(old(TModeView()), Off) && !transLand && transKillH == old(transKillH)
                && transSpdAct == old(transSpdAct) && transLandGears == old(transLandGears)
      ensures !r.landedOrSplashed ==>
                TModeView() == AssignTMode(old(TModeView()), KeepVertical) && transLand == old(transLand) && transKillH
                && transLandGears == (old(transLandGears) || Min(r.altitudeASL, r.altitudeTrue) < 1000.0)
      ensures !r.landedOrSplashed && Min(r.altitudeASL, r.altitudeTrue) < 200.0 ==>
                transSpdAct == Min(-transLandTouchdownSpeed, r.taperedProfile) && transSpdAct <= -transLandTouchdownSpeed
      ensures !r.landedOrSplashed && Min(r.altitudeASL, r.altitudeTrue) >= 200.0 ==>
                transSpdAct == if r.maxThrustAccel < r.gravity then 0.0 else r.descentProfile
    {
      if r.landedOrSplashed {
        SetTMode(Off);
        transLand := false;
      } else {
        SetTMode(KeepVertical);
        transKillH := true;
        var minAltitude := Min(r.altitudeASL, r.altitudeTrue);
        if r.maxThrustAccel < r.gravity {
          transSpdAct := 0.0;
        } else {
          transSpdAct := r.descentProfile;
        }
        if !transLandGears && minAltitude < 1000.0 {
          transLandGears := true;
        }
        if minAltitude < 200.0 {
          transSpdAct := Min(-transLandTouchdownSpeed, r.taperedProfile);
        }
      }
    }

    /**
     * The KEEP_VERTICAL case of `drive` with the horizontal-speed killer on: high up and sliding
     * sideways much faster than it climbs or sinks, the vessel switches to full-throttle DIRECT
     * mode; in every case it points where the killer wants, with the roll left free.
     */
    method KillHorizontalStep(r: TranslationReadings)
      requires transKillH
      modifies this`prevTMode, this`tMode, this`tModeChanged, this`transSpdAct,
               this`oldAttitudeReference, this`attitudeReference, this`oldAttitudeTarget, this`lastAttitudeTarget,
               this`attitudeTarget, this`attitudeChanged, this`attitudeActive, this`attitudeRollMatters
      ensures KillHEscalates(r) ==> TModeView() == AssignTMode(old(TModeView()), Direct) && transSpdAct == 100.0
      ensures !KillHEscalates(r) ==> TModeView() == old(TModeView()) && transSpdAct == old(transSpdAct)
      ensures AttitudeView() == AssignTarget(AssignReference(old(AttitudeView()), Inertial), r.killHTarget, r.killHAngle)
      ensures attitudeActive && !attitudeRollMatters
    {
      if KillHEscalates(r) {
        SetTMode(Direct);
        transSpdAct := 100.0;
      }
      var pointed := AttitudeToDirection(r.killHTarget, r.killHAngle, Inertial, None);
    }

    /**
     * The mode switch of the translation half: the speed the current mode holds, and in
     * keep-vertical with kill-horizontal on, one step of the horizontal-speed killer.
     */
    method SpeedForMode(r: TranslationReadings) returns (speed: real)
      modifies this`prevTMode, this`tMode, this`tModeChanged, this`transSpdAct,
               this`oldAttitudeReference, this`attitudeReference, this`oldAttitudeTarget, this`lastAttitudeTarget,
               this`attitudeTarget, this`attitudeChanged, this`attitudeActive, this`attitudeRollMatters
      ensures speed == SelectedSpeed(old(tMode), r)
      ensures var escalate := old(tMode) == KeepVertical && transKillH && KillHEscalates(r);
              && TModeView() == (if escalate then AssignTMode(old(TModeView()), Direct) else old(TModeView()))
              && transSpdAct == (if escalate then 100.0 else old(transSpdAct))
      ensures old(tMode) == KeepVertical && transKillH ==>
                AttitudeView() == AssignTarget(AssignReference(old(AttitudeView()), Inertial), r.killHTarget, r.killHAngle)
                && attitudeActive && !attitudeRollMatters
      ensures !(old(tMode) == KeepVertical && transKillH) ==>
                AttitudeView() == old(AttitudeView()) && attitudeActive == old(attitudeActive)
                && attitudeRollMatters == old(attitudeRollMatters)
    {
      speed := 0.0;
      match tMode {
        case KeepOrbital => speed := r.speedOrbital;
        case KeepSurface => speed := r.speedSurface;
        case KeepVertical =>
          speed := r.speedVertical;
          if transKillH {
            KillHorizontalStep(r);
          }
        case _ =>
      }
    }

    /**
     * The landing autopilot, when on, then the mode switch: this tick's mode, the speed it holds
     * at transSpdAct, and the horizontal-speed killer's attitude request in keep-vertical.
     */
    method TranslationSetpoint(r: TranslationReadings) returns (speed: real)
      modifies this`prevTMode, this`tMode, this`tModeChanged, this`transLand, this`transKillH,
               this`transSpdAct, this`transLandGears,
               this`oldAttitudeReference, this`attitudeReference, this`oldAttitudeTarget, this`lastAttitudeTarget,
               this`attitudeTarget, this`attitudeChanged, this`attitudeActive, this`attitudeRollMatters
      ensures var m := LandingMode(old(transLand), old(tMode), r.landedOrSplashed);
              var killH := m == KeepVertical && (old(transKillH) || old(transLand));
              && speed == SelectedSpeed(m, r)
              && transLand == (old(transLand) && !r.landedOrSplashed)
              && transKillH == (old(transKillH) || (old(transLand) && !r.landedOrSplashed))
              && tMode == (if killH && KillHEscalates(r) then Direct else m)
              && (killH && KillHEscalates(r) ==> transSpdAct == 100.0)
              && (killH ==> AttitudeView() == AssignTarget(AssignReference(old(AttitudeView()), Inertial), r.killHTarget, r.killHAngle)
                            && attitudeActive && !attitudeRollMatters)
              && (!killH ==> AttitudeView() == old(AttitudeView()) && attitudeActive == old(attitudeActive)
                             && attitudeRollMatters == old(attitudeRollMatters))
      ensures old(transLand) && !r.landedOrSplashed && Min(r.altitudeASL, r.altitudeTrue) < 200.0 ==>
                tMode == KeepVertical && transSpdAct <= -transLandTouchdownSpeed
    {
      if transLand {
        LandingStep(r);
      }
      speed := SpeedForMode(r);
    }

    /** The translation PID: the speed error is normalised by the available acceleration. */
    method TranslationPid(speed: real, maxThrustAccel: real, dt: real) returns (tAct: real)
      requires maxThrustAccel > 0.0 && dt > 0.0
      modifies this`tIntegral, this`tPrevErr
      ensures tPrevErr == (transSpdAct - speed) / maxThrustAccel
      ensures tIntegral == old(tIntegral) + tPrevErr * dt
      ensures tAct == PidOutput(tKp, tKi, tKd, tPrevErr, tIntegral, old(tPrevErr), dt)
    {
      var tErr := (transSpdAct - speed) / maxThrustAccel;
      tIntegral := tIntegral + tErr * dt;
      var tDeriv := (tErr - tPrevErr) / dt;
      tAct := tKp * tErr + tKi * tIntegral + tKd * tDeriv;
      tPrevErr := tErr;
    }

    /**
     * The translation half of `drive`, run when a translation mode is on and there is thrust.
     * Returns the main throttle it commands, or None when it leaves the throttle alone.
     */
    method DriveTranslation(r: TranslationReadings) returns (throttle: Option<real>)
      requires r.thrustAvailable > 0.0 ==> r.maxThrustAccel > 0.0 && r.fixedDeltaTime > 0.0
      modifies this`prevTMode, this`tMode, this`tModeChanged, this`transLand, this`transKillH,
               this`transSpdAct, this`transLandGears, this`tIntegral, this`tPrevErr, this`transPrevThrust,
               this`oldAttitudeReference, this`attitudeReference, this`oldAttitudeTarget, this`lastAttitudeTarget,
               this`attitudeTarget, this`attitudeChanged, this`attitudeActive, this`attitudeRollMatters
      ensures (old(tMode) == Off || r.thrustAvailable <= 0.0) ==>
                throttle == None && TModeView() == old(TModeView()) && AttitudeView() == old(AttitudeView())
                && tIntegral == old(tIntegral) && tPrevErr == old(tPrevErr) && transPrevThrust == old(transPrevThrust)
                && transSpdAct == old(transSpdAct) && transLand == old(transLand) && attitudeActive == old(attitudeActive)
                && transKillH == old(transKillH) && transLandGears == old(transLandGears)
                && attitudeRollMatters == old(attitudeRollMatters)
      ensures old(tMode) != Off && r.thrustAvailable > 0.0 ==>
                var m := LandingMode(old(transLand), old(tMode), r.landedOrSplashed);
                var killH := m == KeepVertical && (old(transKillH) || old(transLand));
                && transLand == (old(transLand) && !r.landedOrSplashed)
                && transKillH == (old(transKillH) || (old(transLand) && !r.landedOrSplashed))
                && tMode == (if killH && KillHEscalates(r) then Direct else m)
                && tPrevErr == (transSpdAct - SelectedSpeed(m, r)) / r.maxThrustAccel
                && tIntegral == old(tIntegral) + tPrevErr * r.fixedDeltaTime
                && (killH ==> AttitudeView() == AssignTarget(AssignReference(old(AttitudeView()), Inertial), r.killHTarget, r.killHAngle)
                              && attitudeActive && !attitudeRollMatters)
                && (!killH ==> AttitudeView() == old(AttitudeView()) && attitudeActive == old(attitudeActive)
                               && attitudeRollMatters == old(attitudeRollMatters))
      ensures old(tMode) != Off && r.thrustAvailable > 0.0 ==>
                throttle.Some? && throttle.value == transPrevThrust
                && throttle.value == ThrottleCommand(tMode, r.attitudeError, Min(r.altitudeASL, r.altitudeTrue), transSpdAct, old(transPrevThrust),
                                                     PidOutput(tKp, tKi, tKd, tPrevErr, tIntegral, old(tPrevErr), r.fixedDeltaTime),
                                                     r.torqueThrustPY, r.torquePY)
      ensures throttle.Some? && tMode != Direct ==> 0.0 <= throttle.value <= 1.0
      ensures throttle.Some? && tMode == KeepVertical && r.attitudeError >= 90.0 ==> throttle.value <= 0.1
      ensures old(transLand) && old(tMode) != Off && r.thrustAvailable > 0.0 && r.landedOrSplashed ==>
                !transLand && tMode == Off
      ensures old(transLand) && old(tMode) != Off && r.thrustAvailable > 0.0 && !r.landedOrSplashed
              && Min(r.altitudeASL, r.altitudeTrue) < 200.0 ==>
                tMode == KeepVertical && transSpdAct <= -transLandTouchdownSpeed
    {
      if tMode == Off || r.thrustAvailable <= 0.0 {
        return None;
      }
      var speed := TranslationSetpoint(r);
      var tAct := TranslationPid(speed, r.maxThrustAccel, r.fixedDeltaTime);
      var command := ThrottleCommand(tMode, r.attitudeError, Min(r.altitudeASL, r.altitudeTrue),
                                     transSpdAct, transPrevThrust, tAct, r.torqueThrustPY, r.torquePY);
      transPrevThrust := command;
      return Some(command);
    }


    /** The attitude setpoint after the pilot takes over with kill-rotation on, or unchanged. */
    ghost function KillRotRetarget(a: AttitudeSetpoint, pilotCommanding: bool, killRot: bool, target: Rotation, angle: real): AttitudeSetpoint
    {
      if pilotCommanding && killRot then AssignTarget(AssignReference(a, Inertial), target, angle) else a
    }

    /** The rotation PID on all three axes: integrate the error, differentiate it, remember it. */
    method AttitudePid(err: Vec3, dt: real)
      requires dt > 0.0
      modifies this`integral, this`prevErr, this`act
      ensures integral == Add(old(integral), Scale(dt, err))
      ensures act == Add(Add(Scale(kp, err), Scale(ki, integral)), Scale(kd, Scale(1.0 / dt, Sub(err, old(prevErr)))))
      ensures prevErr == err
    {
      integral := Add(integral, Scale(dt, err));
      var deriv := Scale(1.0 / dt, Sub(err, prevErr));
      act := Add(Add(Scale(kp, err), Scale(ki, integral)), Scale(kd, deriv));
      prevErr := err;
    }

    /**
     * The setpoint side of the pilot taking over, `m` being the userCommanding mask: with
     * kill-rotation on, any input retargets to the current heading; a roll input while roll is
     * free adopts the vessel's new roll as the target and leaves roll free.
     */
    method PilotRetarget(m: bv8, a: AttitudeReadings)
      requires attitudeActive
      modifies this`oldAttitudeReference, this`attitudeReference, this`oldAttitudeTarget, this`lastAttitudeTarget,
               this`attitudeTarget, this`attitudeChanged, this`attitudeActive, this`attitudeRollMatters
      ensures attitudeActive
      ensures var killed := m != 0 && attitudeKillRot;
              var a1 := KillRotRetarget(old(AttitudeView()), m != 0, attitudeKillRot, a.killRotTarget, a.killRotAngle);
              var freeRoll := m & 4 != 0 && !(old(attitudeRollMatters) || killed);
              && attitudeRollMatters == (old(attitudeRollMatters) || killed)
              && AttitudeView() == if freeRoll then AssignTarget(a1, a.rollFreeTarget, a.rollFreeAngle) else a1
    {
      if m != 0 && attitudeKillRot {
        var retargeted := AttitudeTo(a.killRotTarget, a.killRotAngle, Inertial, None);
      }
      if m & 4 != 0 && !attitudeRollMatters {
        var retargeted := AttitudeTo(a.rollFreeTarget, a.rollFreeAngle, attitudeReference, None);
        attitudeRollMatters := false;
      }
    }

    /**
     * The axis side of the pilot taking over, `m` being the userCommanding mask: an axis the pilot
     * moves keeps the pilot's value and has its PID memory cleared (pitch and yaw together); any
     * other axis gets the PID action added, clamped to [-1, 1].
     */
    method PilotAxes(m: bv8, pilot: Vec3) returns (out: Vec3)
      modifies this`integral, this`prevErr
      ensures var pitchYaw := m & 3 != 0;
              var roll := m & 4 != 0;
              && integral == Vec3(if pitchYaw then 0.0 else old(integral).x, if pitchYaw then 0.0 else old(integral).y,
                                  if roll then 0.0 else old(integral).z)
              && prevErr == Vec3(if pitchYaw then 0.0 else old(prevErr).x, if pitchYaw then 0.0 else old(prevErr).y,
                                 if roll then 0.0 else old(prevErr).z)
              && out == Vec3(if pitchYaw then pilot.x else Clamp(pilot.x + act.x, -1.0, 1.0),
                             if pitchYaw then pilot.y else Clamp(pilot.y + act.y, -1.0, 1.0),
                             if roll then pilot.z else Clamp(pilot.z + act.z, -1.0, 1.0))
    {
      out := pilot;
      if m & 4 != 0 {
        prevErr := prevErr.(z := 0.0);
        integral := integral.(z := 0.0);
      } else {
        out := out.(z := Clamp(pilot.z + act.z, -1.0, 1.0));
      }
      if m & 3 != 0 {
        prevErr := Vec3(0.0, 0.0, prevErr.z);
        integral := Vec3(0.0, 0.0, integral.z);
      } else {
        out := out.(x := Clamp(pilot.x + act.x, -1.0, 1.0), y := Clamp(pilot.y + act.y, -1.0, 1.0));
      }
    }

    /**
     * The attitude half of `drive`. `pilot` holds the pilot's pitch, yaw and roll. The rotation PID
     * runs on every axis, but an axis the pilot is moving keeps the pilot's value and has its
     * integrator and error memory cleared; the other axes get the PID action added and clamped
     * to [-1, 1]. When the pilot takes over, kill-rotation retargets to the current heading, and
     * a pilot roll with free roll adopts the vessel's new roll as the target.
     */
    method DriveAttitude(pilot: Vec3, a: AttitudeReadings) returns (out: Vec3)
      requires a.fixedDeltaTime > 0.0
      modifies this`integral, this`prevErr, this`act,
               this`oldAttitudeReference, this`attitudeReference, this`oldAttitudeTarget, this`lastAttitudeTarget,
               this`attitudeTarget, this`attitudeChanged, this`attitudeActive, this`attitudeRollMatters
      ensures !old(attitudeActive) ==>
                out == pilot && integral == old(integral) && prevErr == old(prevErr) && act == old(act)
                && AttitudeView() == old(AttitudeView()) && !attitudeActive && attitudeRollMatters == old(attitudeRollMatters)
      ensures old(attitudeActive) ==> attitudeActive
      ensures old(attitudeActive) ==>
                && (!PilotCommands(pilot.x) && !PilotCommands(pilot.y) ==> -1.0 <= out.x <= 1.0 && -1.0 <= out.y <= 1.0)
                && (!PilotCommands(pilot.z) ==> -1.0 <= out.z <= 1.0)
      ensures PilotCommands(pilot.z) ==> out.z == pilot.z
      ensures PilotCommands(pilot.x) || PilotCommands(pilot.y) ==> out.x == pilot.x && out.y == pilot.y
      ensures old(attitudeActive) ==>
                var m := UserCommanding(pilot.x, pilot.y, pilot.z);
                var pitchYaw := m & 3 != 0;
                var roll := m & 4 != 0;
                var i1 := Add(old(integral), Scale(a.fixedDeltaTime, a.err));
                && act == Add(Add(Scale(kp, a.err), Scale(ki, i1)), Scale(kd, Scale(1.0 / a.fixedDeltaTime, Sub(a.err, old(prevErr)))))
                && integral == Vec3(if pitchYaw then 0.0 else i1.x, if pitchYaw then 0.0 else i1.y, if roll then 0.0 else i1.z)
                && prevErr == Vec3(if pitchYaw then 0.0 else a.err.x, if pitchYaw then 0.0 else a.err.y, if roll then 0.0 else a.err.z)
                && out == Vec3(if pitchYaw then pilot.x else Clamp(pilot.x + act.x, -1.0, 1.0),
                               if pitchYaw then pilot.y else Clamp(pilot.y + act.y, -1.0, 1.0),
                               if roll then pilot.z else Clamp(pilot.z + act.z, -1.0, 1.0))
      ensures old(attitudeActive) ==>
                var m := UserCommanding(pilot.x, pilot.y, pilot.z);
                var killed := m != 0 && old(attitudeKillRot);
                var a1 := KillRotRetarget(old(AttitudeView()), m != 0, old(attitudeKillRot), a.killRotTarget, a.killRotAngle);
                var freeRoll := m & 4 != 0 && !(old(attitudeRollMatters) || killed);
                && attitudeRollMatters == (old(attitudeRollMatters) || killed)
                && AttitudeView() == if freeRoll then AssignTarget(a1, a.rollFreeTarget, a.rollFreeAngle) else a1
    {
      if !attitudeActive {
        return pilot;
      }
      var m := UserCommanding(pilot.x, pilot.y, pilot.z);
      AttitudePid(a.err, a.fixedDeltaTime);
      PilotRetarget(m, a);
      out := PilotAxes(m, pilot);
    }

    /**
     * `drive`, one control tick: nothing on a dead part; then the owner module's own `drive` while
     * it is enabled, or the token dropped when it is not; nothing more above physics warp; then
     * translation and attitude, and with the attitude controller active the host's rotation
     * damping switched off. The owner's `drive` is module code outside this model: `controls` are
     * the flight controls as it leaves them.
     */
    method Drive(partDead: bool, ownerEnabled: bool, tr: TranslationReadings, ar: AttitudeReadings, controls: Controls)
      returns (out: Controls)
      requires tr.thrustAvailable > 0.0 ==> tr.maxThrustAccel > 0.0 && tr.fixedDeltaTime > 0.0
      requires ar.fixedDeltaTime > 0.0
      modifies this
      ensures partDead ==> out == controls && unchanged(this)
      ensures !partDead ==> controlModule == if old(controlModule).Some? && !ownerEnabled then None else old(controlModule)
      ensures !partDead && timeWarp.currentRate > timeWarp.maxPhysicsRate ==>
                out == controls && TModeView() == old(TModeView()) && AttitudeView() == old(AttitudeView())
                && integral == old(integral) && tIntegral == old(tIntegral) && attitudeActive == old(attitudeActive)
      ensures (old(tMode) == Off || tr.thrustAvailable <= 0.0) ==> out.mainThrottle == controls.mainThrottle
      ensures (old(tMode) == Off || tr.thrustAvailable <= 0.0) && !old(attitudeActive) ==> out == controls
      ensures PilotCommands(controls.roll) ==> out.roll == controls.roll
      ensures PilotCommands(controls.pitch) || PilotCommands(controls.yaw) ==> out.pitch == controls.pitch && out.yaw == controls.yaw
      ensures !partDead && timeWarp.currentRate <= timeWarp.maxPhysicsRate && old(attitudeActive) ==>
                && (!PilotCommands(controls.pitch) && !PilotCommands(controls.yaw) ==>
                      -1.0 <= out.pitch <= 1.0 && -1.0 <= out.yaw <= 1.0)
                && (!PilotCommands(controls.roll) ==> -1.0 <= out.roll <= 1.0)
      ensures !partDead && timeWarp.currentRate <= timeWarp.maxPhysicsRate ==>
                out.killRot == (controls.killRot && !attitudeActive)
    {
      if partDead {
        return controls;
      }
      DropDisabledController(ownerEnabled);
      if timeWarp.currentRate > timeWarp.maxPhysicsRate {
        return controls;
      }
      out := controls;
      var throttle := DriveTranslation(tr);
      if throttle.Some? {
        out := out.(mainThrottle := throttle.value);
      }
      out := out.(killRot := out.killRot && !attitudeActive);
      var axes := DriveAttitude(Vec3(out.pitch, out.yaw, out.roll), ar);
      out := out.(pitch := axes.x, yaw := axes.y, roll := axes.z);
    }

  }

  // ---------------------------------------------------------------------------------------------
  // The per-vessel registry of cores
  // ---------------------------------------------------------------------------------------------

  predicate NoDuplicates(s: seq<CoreId>) {
    forall i, j :: 0 <= i < j < |s| ==> s[i] != s[j]
  }

  /** The cores on one vessel and the one that drives it (VesselStateKeeper). */
  datatype Keeper = Keeper(jebs: seq<CoreId>, controller: Option<CoreId>)

  /** Every core is listed once and the controller, if any, is one of them. */
  predicate KeeperValid(k: Keeper) {
    NoDuplicates(k.jebs) && (k.controller.Some? ==> k.controller.value in k.jebs)
  }

  /** List.Remove: drops the first occurrence of `x`, if any. */
  function RemoveFirst(s: seq<CoreId>, x: CoreId): (r: seq<CoreId>)
    ensures x in s ==> |r| == |s| - 1 && multiset(r) == multiset(s) - multiset{x}
    ensures x !in s ==> r == s
  {
    if |s| == 0 then s
    else
      assert s == [s[0]] + s[1..];
      if s[0] == x then s[1..] else [s[0]] + RemoveFirst(s[1..], x)
  }

  /** Removing from a list without duplicates removes the element altogether and keeps the rest. */
  lemma {:induction false} RemoveFirstFromDistinct(s: seq<CoreId>, x: CoreId)
    requires NoDuplicates(s)
    ensures NoDuplicates(RemoveFirst(s, x)) && x !in RemoveFirst(s, x)
    ensures forall y :: y in s && y != x <==> y in RemoveFirst(s, x)
  {
    if |s| > 0 {
      RemoveFirstFromDistinct(s[1..], x);
      if s[0] != x {
        var rest := RemoveFirst(s[1..], x);
        assert RemoveFirst(s, x) == [s[0]] + rest;
        assert s[0] !in s[1..] by {
          forall i | 1 <= i < |s| ensures s[i] != s[0] { }
        }
      }
    }
  }

  /**
   * Enrolling a core on a vessel: a vessel seen for the first time gets a keeper controlled by
   * this core; the core is appended unless it is already listed. An existing keeper's controller
   * is never replaced, even when it has none.
   */
  function Enrolled(k: Option<Keeper>, core: CoreId): (r: Keeper)
    requires k.Some? ==> KeeperValid(k.value)
    ensures KeeperValid(r) && core in r.jebs
    ensures k.None? ==> r == Keeper([core], Some(core))
    ensures k.Some? ==> r.controller == k.value.controller
    ensures k.Some? && core in k.value.jebs ==> r == k.value
    ensures k.Some? && core !in k.value.jebs ==> r.jebs == k.value.jebs + [core]
  {
    var keeper := if k.None? then Keeper([], Some(core)) else k.value;
    if core in keeper.jebs then keeper else keeper.(jebs := keeper.jebs + [core])
  }

  /** Withdrawing a listed core: it leaves the list, and the vessel loses its controller if it was that core. */
  function Withdrawn(k: Keeper, core: CoreId): (r: Keeper)
    requires KeeperValid(k) && core in k.jebs
    ensures KeeperValid(r) && core !in r.jebs
    ensures multiset(r.jebs) == multiset(k.jebs) - multiset{core}
    ensures r.controller == if k.controller == Some(core) then None else k.controller
  {
    RemoveFirstFromDistinct(k.jebs, core);
    Keeper(RemoveFirst(k.jebs, core), if k.controller == Some(core) then None else k.controller)
  }

  /** Once a vessel's controller has withdrawn, no later enrolment gives it one again. */
  lemma {:induction false} ControllerNeverReassigned(k: Keeper, core: CoreId, later: seq<CoreId>)
    requires KeeperValid(k) && k.controller == Some(core)
    ensures EnrolAll(Withdrawn(k, core), later).controller == None
    decreases |later|
  {
    if |later| > 0 {
      ControllerStaysNone(Enrolled(Some(Withdrawn(k, core)), later[0]), later[1..]);
    }
  }

  /** Enrols each core of `later` in turn. */
  function EnrolAll(k: Keeper, later: seq<CoreId>): (r: Keeper)
    requires KeeperValid(k)
    ensures KeeperValid(r)
    ensures forall c :: c in k.jebs ==> c in r.jebs
    ensures forall c :: c in later ==> c in r.jebs
    decreases |later|
  {
    if |later| == 0 then k else EnrolAll(Enrolled(Some(k), later[0]), later[1..])
  }

  lemma {:induction false} ControllerStaysNone(k: Keeper, later: seq<CoreId>)
    requires KeeperValid(k) && k.controller == None
    ensures EnrolAll(k, later).controller == None
    decreases |later|
  {
    if |later| > 0 {
      ControllerStaysNone(Enrolled(Some(k), later[0]), later[1..]);
    }
  }

  /** The static `allJebs` dictionary. */
  class Registry {
    var keepers: map<VesselId, Keeper>

    ghost predicate Valid()
      reads this
    {
      forall v :: v in keepers ==> KeeperValid(keepers[v])
    }

    constructor ()
      ensures Valid() && keepers == map[]
    {
      keepers := map[];
    }

    /** Whether `core` drives `vessel`; only that core updates the vessel state and flies it. */
    predicate IsController(vessel: VesselId, core: CoreId)
      reads this
    {
      vessel in keepers && keepers[vessel].controller == Some(core)
    }

    /** The enrolment at the start of `onPartFixedUpdate` and `onPartUpdate`. */
    method Register(vessel: VesselId, core: CoreId)
      requires Valid()
      modifies this
      ensures Valid()
      ensures keepers == old(keepers)[vessel := Enrolled(if vessel in old(keepers) then Some(old(keepers)[vessel]) else None, core)]
      ensures vessel !in old(keepers) ==> IsController(vessel, core)
    {
      if vessel !in keepers {
        keepers := keepers[vessel := Keeper([], Some(core))];
      }
      if core !in keepers[vessel].jebs {
        keepers := keepers[vessel := keepers[vessel].(jebs := keepers[vessel].jebs + [core])];
      }
    }

    /** The withdrawal in `onDisconnect` and `onPartDestroy`. */
    method Unregister(vessel: VesselId, core: CoreId)
      requires Valid()
      modifies this
      ensures Valid()
      ensures vessel in old(keepers) && core in old(keepers)[vessel].jebs ==>
                keepers == old(keepers)[vessel := Withdrawn(old(keepers)[vessel], core)]
      ensures !(vessel in old(keepers) && core in old(keepers)[vessel].jebs) ==> keepers == old(keepers)
      ensures !IsController(vessel, core)
      ensures vessel in keepers ==> core !in keepers[vessel].jebs
    {
      if vessel in keepers && core in keepers[vessel].jebs {
        var k := keepers[vessel];
        if k.controller == Some(core) {
          k := k.(controller := None);
        }
        RemoveFirstFromDistinct(k.jebs, core);
        keepers := keepers[vessel := k.(jebs := RemoveFirst(k.jebs, core))];
      }
    }
  }
}
