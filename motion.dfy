/**
 * The per-frame rules of the player controller (GameManager) as functions on a snapshot of its
 * fields: the vertical-motion state machine, the ground and water checks, the horizontal speed
 * update and the camera pitch, together with a run over a sequence of engine events.
 */
module Motion {
  import Angles
  import Easing

  /** `_terminalVelocity`: gravity is only applied while the vertical velocity is below it. */
  const TerminalVelocity: real := 53.0
  /** Downward velocity a grounded player is held at. */
  const GroundedPin: real := -2.0
  /** `speedOffset`: half-width of the band inside which the speed snaps to the target. */
  const SpeedOffset: real := 0.1
  /** `_threshold`: smallest squared look-input length that turns the camera. */
  const LookThreshold: real := 0.01
  /** Tag of the trigger volumes that switch the player into swimming. */
  const WaterTag: string := "Water"
  /** JumpHeight and Gravity restored on leaving the water. */
  const SurfaceJumpHeight: real := 1.2
  const SurfaceGravity: real := -15.0

  /** Inspector settings that the controller reads and never writes. */
  datatype Config = Config(
    moveSpeed: real,
    sprintSpeed: real,
    rotationSpeed: real,
    speedChangeRate: real,
    jumpTimeout: real,
    fallTimeout: real,
    topClamp: real,
    bottomClamp: real)

  /** The C# field initialisers. */
  const DefaultConfig: Config :=
    Config(4.0, 6.0, 1.0, 10.0, 0.1, 0.15, 90.0, -90.0)

  /**
   * The fields the controller carries from frame to frame. `jump` is the latched jump flag of
   * the input component, which the controller clears while airborne. `_speed` is not here: Move
   * overwrites it every frame from that frame's inputs alone (NextSpeed), and nothing else
   * reads it.
   */
  datatype State = State(
    inWater: bool,
    grounded: bool,
    gravity: real,
    jumpHeight: real,
    verticalVelocity: real,
    jumpTimeoutDelta: real,
    fallTimeoutDelta: real,
    jump: bool,
    pitch: real,
    rotationVelocity: real)

  /** The fields before Start runs: the C# initialisers and zero for the private ones. */
  const InitialState: State :=
    State(false, true, SurfaceGravity, SurfaceJumpHeight, 0.0, 0.0, 0.0, false, 0.0, 0.0)

  /** What the input component and the engine report for one call of Move. */
  datatype MoveInput = MoveInput(
    sprint: bool,
    moveIsZero: bool,
    analogMovement: bool,
    moveMagnitude: real,
    currentHorizontalSpeed: real)

  /** What the engine supplies to one Update: the frame time, the value Mathf.Sqrt returned for
      the jump, the ground probe's answer and the movement input. */
  datatype FrameInput = FrameInput(dt: real, launch: real, groundHit: bool, move: MoveInput)

  /** The look input read by LateUpdate. */
  datatype LookInput = LookInput(x: real, y: real)

  /** Everything the engine can do to the controller between two observations. */
  datatype Event =
    | Frame(input: FrameInput)
    | Late(look: LookInput)
    | JumpInput(pressed: bool)
    | TriggerEnter(tag: string)
    | TriggerExit(tag: string)

  /** `v` is the value Mathf.Sqrt returns for `x`. */
  predicate IsSqrtOf(v: real, x: real) {
    0.0 <= v && v * v == x
  }

  /** The argument the jump passes to Mathf.Sqrt: JumpHeight * -2 * Gravity. */
  function JumpEnergy(s: State): real {
    s.jumpHeight * -2.0 * s.gravity
  }

  /** The three conditions under which a frame launches a jump. */
  predicate JumpFires(s: State) {
    !s.inWater && s.grounded && s.jump && s.jumpTimeoutDelta <= 0.0
  }

  /** Only the vertical-motion fields differ between `s` and `r`. */
  predicate OnlyVerticalChanged(s: State, r: State) {
    r == s.(verticalVelocity := r.verticalVelocity, jumpTimeoutDelta := r.jumpTimeoutDelta,
            fallTimeoutDelta := r.fallTimeoutDelta, jump := r.jump)
  }

  // ---------------------------------------------------------------- Start

  /** Start: both timers begin at their configured lengths. */
  function Start(s: State, cfg: Config): (r: State)
    ensures r.jumpTimeoutDelta == cfg.jumpTimeout && r.fallTimeoutDelta == cfg.fallTimeout
    ensures OnlyVerticalChanged(s, r) && r.verticalVelocity == s.verticalVelocity && r.jump == s.jump
  {
    s.(jumpTimeoutDelta := cfg.jumpTimeout, fallTimeoutDelta := cfg.fallTimeout)
  }

  // ---------------------------------------------------------------- JumpAndGravity

  /** The grounded half of the land branch: reset the fall timer, pin a falling velocity, jump
      when the cooldown is over, and run the jump cooldown down while it is not negative. */
  function GroundedPhase(s: State, cfg: Config, dt: real, launch: real): State {
    var pinned := if s.verticalVelocity < 0.0 then GroundedPin else s.verticalVelocity;
    var launched := if s.jump && s.jumpTimeoutDelta <= 0.0 then launch else pinned;
    var cooldown := if s.jumpTimeoutDelta >= 0.0 then s.jumpTimeoutDelta - dt else s.jumpTimeoutDelta;
    s.(fallTimeoutDelta := cfg.fallTimeout, verticalVelocity := launched, jumpTimeoutDelta := cooldown)
  }

  /** The airborne half of the land branch: restart the jump cooldown, run the fall timer down
      while it is not negative, and drop the jump request. */
  function AirbornePhase(s: State, cfg: Config, dt: real): State {
    var fall := if s.fallTimeoutDelta >= 0.0 then s.fallTimeoutDelta - dt else s.fallTimeoutDelta;
    s.(jumpTimeoutDelta := cfg.jumpTimeout, fallTimeoutDelta := fall, jump := false)
  }

  /** Gravity for one frame, unless the velocity has reached the terminal velocity. */
  function ApplyGravity(s: State, dt: real): State {
    if s.verticalVelocity < TerminalVelocity
    then s.(verticalVelocity := s.verticalVelocity + s.gravity * dt)
    else s
  }

  /** The water branch: rise at MoveSpeed while jump is held, otherwise hover. */
  function Swim(s: State, cfg: Config): State {
    s.(verticalVelocity := if s.jump then cfg.moveSpeed else 0.0)
  }

  /** Reference description of the land-branch velocity just before the gravity line:
      the launch velocity when a jump fires, -2 for a grounded player moving down, and the
      current velocity otherwise. */
  function VelocityBeforeGravity(s: State, launch: real): real {
    if JumpFires(s) then launch
    else if s.grounded && s.verticalVelocity < 0.0 then GroundedPin
    else s.verticalVelocity
  }

  /** JumpAndGravity: one frame of the vertical-motion state machine. */
  function JumpAndGravity(s: State, cfg: Config, dt: real, launch: real): (r: State)
    ensures OnlyVerticalChanged(s, r)
    // in water: velocity is MoveSpeed or 0 according to the jump flag, nothing else moves
    ensures s.inWater ==>
      r == s.(verticalVelocity := if s.jump then cfg.moveSpeed else 0.0)
    // on land and grounded: fall timer reset, jump cooldown runs down only while not negative
    ensures !s.inWater && s.grounded ==>
      r.fallTimeoutDelta == cfg.fallTimeout && r.jump == s.jump &&
      r.jumpTimeoutDelta == (if s.jumpTimeoutDelta >= 0.0 then s.jumpTimeoutDelta - dt else s.jumpTimeoutDelta)
    // on land and airborne: jump cooldown restarted, jump request dropped, fall timer runs down
    ensures !s.inWater && !s.grounded ==>
      r.jumpTimeoutDelta == cfg.jumpTimeout && !r.jump &&
      r.fallTimeoutDelta == (if s.fallTimeoutDelta >= 0.0 then s.fallTimeoutDelta - dt else s.fallTimeoutDelta)
    // on land: gravity is added exactly when the velocity before that line is below terminal
    ensures !s.inWater ==>
      var v := VelocityBeforeGravity(s, launch);
      r.verticalVelocity == (if v < TerminalVelocity then v + s.gravity * dt else v)
  {
    if s.inWater then Swim(s, cfg)
    else if s.grounded then ApplyGravity(GroundedPhase(s, cfg, dt, launch), dt)
    else ApplyGravity(AirbornePhase(s, cfg, dt), dt)
  }

  // ---------------------------------------------------------------- GroundedCheck

  /** GroundedCheck with the sphere probe's answer as `hit`: only refreshed out of water. */
  function GroundedCheck(s: State, hit: bool): (r: State)
    ensures s.inWater ==> r == s
    ensures !s.inWater ==> r.grounded == hit && r == s.(grounded := hit)
  {
    if !s.inWater then s.(grounded := hit) else s
  }

  // ---------------------------------------------------------------- Move

  /** Sprint or walk speed, and zero without movement input. */
  function TargetSpeed(cfg: Config, m: MoveInput): (r: real)
    ensures m.moveIsZero ==> r == 0.0
    ensures !m.moveIsZero && m.sprint ==> r == cfg.sprintSpeed
    ensures !m.moveIsZero && !m.sprint ==> r == cfg.moveSpeed
  {
    var target := if m.sprint then cfg.sprintSpeed else cfg.moveSpeed;
    if m.moveIsZero then 0.0 else target
  }

  /** The current speed is within SpeedOffset of the target. */
  predicate WithinBand(current: real, target: real) {
    target - SpeedOffset <= current <= target + SpeedOffset
  }

  /** `_analogMovement` scales the target by the stick deflection. */
  function InputMagnitude(m: MoveInput): real {
    if m.analogMovement then m.moveMagnitude else 1.0
  }

  /** The speed Lerp eases toward: the target scaled by the input magnitude. */
  function EaseGoal(cfg: Config, m: MoveInput): real {
    TargetSpeed(cfg, m) * InputMagnitude(m)
  }

  /** The fraction of the way Lerp moves per frame: Time.deltaTime * SpeedChangeRate. */
  function LerpFraction(cfg: Config, dt: real): real {
    dt * cfg.speedChangeRate
  }

  /** Move's `_speed`: snap to the target inside the band; outside it, Lerp from the current speed
      toward the scaled target by the frame's fraction and round to three decimal places. The
      eased value lies between the current speed and that goal, up to the rounding, and reaches
      the goal (up to rounding) once the fraction is at least 1. */
  function NextSpeed(cfg: Config, dt: real, m: MoveInput): (r: real)
    ensures WithinBand(m.currentHorizontalSpeed, TargetSpeed(cfg, m)) ==> r == TargetSpeed(cfg, m)
    ensures !WithinBand(m.currentHorizontalSpeed, TargetSpeed(cfg, m)) ==>
      Easing.Min(m.currentHorizontalSpeed, EaseGoal(cfg, m)) - 0.0005 <= r <=
      Easing.Max(m.currentHorizontalSpeed, EaseGoal(cfg, m)) + 0.0005
    ensures !WithinBand(m.currentHorizontalSpeed, TargetSpeed(cfg, m)) && LerpFraction(cfg, dt) >= 1.0 ==>
      EaseGoal(cfg, m) - 0.0005 <= r <= EaseGoal(cfg, m) + 0.0005
  {
    var targetSpeed := TargetSpeed(cfg, m);
    var current := m.currentHorizontalSpeed;
    if current < targetSpeed - SpeedOffset || current > targetSpeed + SpeedOffset then
      Easing.RoundedLerpBounds(current, EaseGoal(cfg, m), LerpFraction(cfg, dt));
      Easing.RoundToThousandths(Easing.Lerp(current, EaseGoal(cfg, m), LerpFraction(cfg, dt)))
    else
      targetSpeed
  }

  /** The speed computed as the source writes it, from its own locals for the current speed, the
      target, the input magnitude, the goal they give, the change rate and the Lerp fraction, is
      NextSpeed: the rounded Lerp outside the band, the target inside it. */
  lemma NextSpeedAsWritten(cfg: Config, dt: real, m: MoveInput, current: real, target: real, magnitude: real,
                           goal: real, rate: real, t: real)
    requires current == m.currentHorizontalSpeed && target == TargetSpeed(cfg, m)
    requires magnitude == InputMagnitude(m) && goal == target * magnitude
    requires rate == cfg.speedChangeRate && t == dt * rate
    ensures !WithinBand(current, target) ==>
      NextSpeed(cfg, dt, m) == Easing.RoundToThousandths(Easing.Lerp(current, goal, t))
    ensures WithinBand(current, target) ==> NextSpeed(cfg, dt, m) == target
  {
    EaseGoalOf(cfg, m, target, magnitude, goal);
    LerpFractionOf(cfg, dt, rate, t);
  }

  /** The source's goal, its target times its input magnitude, is EaseGoal. */
  lemma EaseGoalOf(cfg: Config, m: MoveInput, target: real, magnitude: real, goal: real)
    requires target == TargetSpeed(cfg, m) && magnitude == InputMagnitude(m) && goal == target * magnitude
    ensures goal == EaseGoal(cfg, m)
  {
  }

  /** The source's fraction, the frame time times its change rate, is LerpFraction. */
  lemma LerpFractionOf(cfg: Config, dt: real, rate: real, t: real)
    requires rate == cfg.speedChangeRate && t == dt * rate
    ensures t == LerpFraction(cfg, dt)
  {
  }

  /** The signed distance along the unit input direction of the horizontal part of the
      displacement handed to CharacterController.Move: none without input, otherwise speed * dt. */
  function HorizontalDistance(speed: real, dt: real, m: MoveInput): real {
    if m.moveIsZero then 0.0 else speed * dt
  }

  /** The vertical part of the displacement handed to CharacterController.Move. */
  function VerticalDistance(s: State, dt: real): real {
    s.verticalVelocity * dt
  }

  // ---------------------------------------------------------------- CameraRotation

  /** Squared length of the look input, compared with the threshold. */
  function LookSqrMagnitude(look: LookInput): real {
    look.x * look.x + look.y * look.y
  }

  /** The pitch and yaw-rate part of CameraRotation: below the look threshold nothing happens;
      otherwise the pitch accumulates the vertical look input and is clamped. The source's
      deltaTimeMultiplier is 1 for every input device, so it is left out of the products. */
  function CameraRotation(s: State, cfg: Config, look: LookInput): (r: State)
    ensures LookSqrMagnitude(look) < LookThreshold ==> r == s
    ensures r == s.(pitch := r.pitch, rotationVelocity := r.rotationVelocity)
    ensures LookSqrMagnitude(look) >= LookThreshold ==>
      r.rotationVelocity == look.x * cfg.rotationSpeed &&
      r.pitch == Angles.ClampAngle(s.pitch + look.y * cfg.rotationSpeed, cfg.bottomClamp, cfg.topClamp) &&
      (cfg.bottomClamp <= cfg.topClamp ==> cfg.bottomClamp <= r.pitch <= cfg.topClamp)
  {
    if LookSqrMagnitude(look) >= LookThreshold then
      s.(pitch := Angles.ClampAngle(s.pitch + look.y * cfg.rotationSpeed, cfg.bottomClamp, cfg.topClamp),
         rotationVelocity := look.x * cfg.rotationSpeed)
    else
      s
  }

  /** At or above the threshold, a pitch and yaw rate computed as the source writes them, with its
      deltaTimeMultiplier of 1, are the ones CameraRotation gives. */
  lemma CameraRotationTurns(s: State, cfg: Config, look: LookInput, accumulated: real, pitch: real, yaw: real)
    requires LookSqrMagnitude(look) >= LookThreshold
    requires accumulated == s.pitch + look.y * cfg.rotationSpeed * 1.0
    requires pitch == Angles.ClampAngle(accumulated, cfg.bottomClamp, cfg.topClamp)
    requires yaw == look.x * cfg.rotationSpeed * 1.0
    ensures CameraRotation(s, cfg, look) == s.(pitch := pitch, rotationVelocity := yaw)
  {
  }

  // ---------------------------------------------------------------- water triggers

  /** OnTriggerEnter: a Water volume switches to swimming and turns gravity off. */
  function TriggerEnterWater(s: State, tag: string): (r: State)
    ensures tag == WaterTag ==> r.inWater && r.gravity == 0.0 && r == s.(inWater := true, gravity := 0.0)
    ensures tag != WaterTag ==> r == s
  {
    if tag == WaterTag then s.(inWater := true, gravity := 0.0) else s
  }

  /** OnTriggerExit: leaving a Water volume restores the surface jump height and gravity. */
  function TriggerExitWater(s: State, tag: string): (r: State)
    ensures tag == WaterTag ==>
      !r.inWater && r.jumpHeight == SurfaceJumpHeight && r.gravity == SurfaceGravity &&
      r == s.(inWater := false, jumpHeight := SurfaceJumpHeight, gravity := SurfaceGravity)
    ensures tag != WaterTag ==> r == s
  {
    if tag == WaterTag then s.(inWater := false, jumpHeight := SurfaceJumpHeight, gravity := SurfaceGravity) else s
  }

  // ---------------------------------------------------------------- frames and runs

  /** Update: JumpAndGravity, then GroundedCheck, then Move, in that order. Move only rewrites
      `_speed` (NextSpeed) and hands the displacement to the engine, so the carried-over state
      is that of the first two. */
  function Update(s: State, cfg: Config, f: FrameInput): (r: State)
    ensures r.grounded == (if s.inWater then s.grounded else f.groundHit)
    ensures r.inWater == s.inWater && r.gravity == s.gravity && r.jumpHeight == s.jumpHeight
  {
    GroundedCheck(JumpAndGravity(s, cfg, f.dt, f.launch), f.groundHit)
  }

  /** The effect of one engine event. A jump input event stands for the input system writing the
      latched jump flag. */
  function Step(s: State, cfg: Config, e: Event): State {
    match e
    case Frame(f) => Update(s, cfg, f)
    case Late(look) => CameraRotation(s, cfg, look)
    case JumpInput(pressed) => s.(jump := pressed)
    case TriggerEnter(tag) => TriggerEnterWater(s, tag)
    case TriggerExit(tag) => TriggerExitWater(s, tag)
  }

  /** The state after the events, in order. */
  function Run(s: State, cfg: Config, es: seq<Event>): State
    decreases |es|
  {
    if es == [] then s else Run(Step(s, cfg, es[0]), cfg, es[1..])
  }

  /** The frame time an event advances the clock by: Time.deltaTime for an Update, 0 otherwise. */
  function FrameTime(e: Event): real {
    if e.Frame? then e.input.dt else 0.0
  }

  /** Frame time summed over the Update events. */
  function Elapsed(es: seq<Event>): real
    decreases |es|
  {
    if es == [] then 0.0 else FrameTime(es[0]) + Elapsed(es[1..])
  }

  /** No trigger event occurs. */
  predicate NoTriggers(es: seq<Event>) {
    forall i :: 0 <= i < |es| ==> !es[i].TriggerEnter? && !es[i].TriggerExit?
  }

  /** The number of Update events. */
  function Updates(es: seq<Event>): nat
    decreases |es|
  {
    if es == [] then 0 else (if es[0].Frame? then 1 else 0) + Updates(es[1..])
  }

  /** An Update whose ground probe misses, with a non-negative frame time. */
  predicate MissedFrame(e: Event) {
    e.Frame? && !e.input.groundHit && e.input.dt >= 0.0
  }

  /** An Update whose ground probe hits, with a non-negative frame time. */
  predicate HitFrame(e: Event) {
    e.Frame? && e.input.groundHit && e.input.dt >= 0.0
  }

  /** The engine's frames while falling: Updates whose probe misses, and the LateUpdate camera
      passes that follow them. */
  predicate FreeFallFrames(es: seq<Event>) {
    forall i :: 0 <= i < |es| ==> MissedFrame(es[i]) || es[i].Late?
  }

  /** A fall as above, with jump presses between the frames as well. */
  predicate FreeFallEvents(es: seq<Event>) {
    forall i :: 0 <= i < |es| ==> MissedFrame(es[i]) || es[i].Late? || es[i].JumpInput?
  }

  /** The engine's frames while standing: Updates whose probe hits, and the LateUpdate camera
      passes that follow them. */
  predicate StandingFrames(es: seq<Event>) {
    forall i :: 0 <= i < |es| ==> HitFrame(es[i]) || es[i].Late?
  }
}
