/**
 * The player controller component itself: its fields and the engine callbacks that update them
 * in place, each proved to do what the corresponding function of Motion describes.
 */
module Controller {
  import Easing
  import Angles
  import Motion

  class GameManager {
    // inspector settings: the controller reads them and never writes them
    const moveSpeed: real
    const sprintSpeed: real
    const rotationSpeed: real
    const speedChangeRate: real
    const jumpTimeout: real
    const fallTimeout: real
    const topClamp: real
    const bottomClamp: real

    // public state switched by the triggers and the ground probe
    var jumpHeight: real
    var gravity: real
    var grounded: bool
    var inWater: bool

    // private state
    var cinemachineTargetPitch: real
    var speed: real
    var rotationVelocity: real
    var verticalVelocity: real
    const terminalVelocity: real := Motion.TerminalVelocity
    var jumpTimeoutDelta: real
    var fallTimeoutDelta: real

    /** The jump flag of the input component; the input system sets it and JumpAndGravity clears it. */
    var jump: bool

    function Settings(): Motion.Config
    {
      Motion.Config(moveSpeed, sprintSpeed, rotationSpeed, speedChangeRate,
                    jumpTimeout, fallTimeout, topClamp, bottomClamp)
    }

    function Snapshot(): Motion.State
      reads this
    {
      Motion.State(inWater, grounded, gravity, jumpHeight, verticalVelocity,
                   jumpTimeoutDelta, fallTimeoutDelta, jump, cinemachineTargetPitch, rotationVelocity)
    }

    /** The component as the scene creates it: the C# field initialisers, zero elsewhere. */
    constructor ()
      ensures Settings() == Motion.DefaultConfig
      ensures Snapshot() == Motion.InitialState && speed == 0.0
    {
      moveSpeed, sprintSpeed, rotationSpeed, speedChangeRate := 4.0, 6.0, 1.0, 10.0;
      jumpHeight, gravity := 1.2, -15.0;
      jumpTimeout, fallTimeout := 0.1, 0.15;
      grounded, inWater := true, false;
      topClamp, bottomClamp := 90.0, -90.0;
      cinemachineTargetPitch, speed, rotationVelocity, verticalVelocity := 0.0, 0.0, 0.0, 0.0;
      jumpTimeoutDelta, fallTimeoutDelta := 0.0, 0.0;
      jump := false;
    }

    /** The component with the inspector settings of a scene: the given settings, JumpHeight and
        Gravity, the remaining field initialisers as in the default constructor. */
    constructor Configured(cfg: Motion.Config, startJumpHeight: real, startGravity: real)
      ensures Settings() == cfg
      ensures Snapshot() == Motion.InitialState.(jumpHeight := startJumpHeight, gravity := startGravity)
      ensures speed == 0.0
    {
      moveSpeed, sprintSpeed, rotationSpeed, speedChangeRate := cfg.moveSpeed, cfg.sprintSpeed, cfg.rotationSpeed, cfg.speedChangeRate;
      jumpHeight, gravity := startJumpHeight, startGravity;
      jumpTimeout, fallTimeout := cfg.jumpTimeout, cfg.fallTimeout;
      grounded, inWater := true, false;
      topClamp, bottomClamp := cfg.topClamp, cfg.bottomClamp;
      cinemachineTargetPitch, speed, rotationVelocity, verticalVelocity := 0.0, 0.0, 0.0, 0.0;
      jumpTimeoutDelta, fallTimeoutDelta := 0.0, 0.0;
      jump := false;
    }

    /** Start: arm both timers. */
    method Start()
      modifies this
      ensures speed == old(speed)
      ensures Snapshot() == Motion.Start(old(Snapshot()), Settings())
    {
      jumpTimeoutDelta := jumpTimeout;
      fallTimeoutDelta := fallTimeout;
    }

    /** The input system reporting the jump button (pressed or released). */
    method OnJumpInput(pressed: bool)
      modifies this
      ensures speed == old(speed)
      ensures Snapshot() == old(Snapshot()).(jump := pressed)
    {
      jump := pressed;
    }

    /** JumpAndGravity. `launch` is what Mathf.Sqrt returns for JumpHeight * -2 * Gravity; it is
        only determined when that argument is not negative. */
    method JumpAndGravity(dt: real, launch: real)
      requires Motion.JumpEnergy(Snapshot()) >= 0.0 ==> Motion.IsSqrtOf(launch, Motion.JumpEnergy(Snapshot()))
      modifies this
      ensures speed == old(speed)
      ensures Snapshot() == Motion.JumpAndGravity(old(Snapshot()), Settings(), dt, launch)
    {
      if !inWater {
        if grounded {
          fallTimeoutDelta := fallTimeout;
          if verticalVelocity < 0.0 {
            verticalVelocity := Motion.GroundedPin;
          }
          if jump && jumpTimeoutDelta <= 0.0 {
            verticalVelocity := launch;
          }
          if jumpTimeoutDelta >= 0.0 {
            jumpTimeoutDelta := jumpTimeoutDelta - dt;
          }
        } else {
          jumpTimeoutDelta := jumpTimeout;
          if fallTimeoutDelta >= 0.0 {
            fallTimeoutDelta := fallTimeoutDelta - dt;
          }
          jump := false;
        }
        if verticalVelocity < terminalVelocity {
          verticalVelocity := verticalVelocity + gravity * dt;
        }
      } else {
        if jump {
          verticalVelocity := moveSpeed;
        } else {
          verticalVelocity := 0.0;
        }
      }
    }

    /** GroundedCheck, with the answer of the sphere probe as `hit`. */
    method GroundedCheck(hit: bool)
      modifies this
      ensures speed == old(speed)
      ensures Snapshot() == Motion.GroundedCheck(old(Snapshot()), hit)
    {
      if !inWater {
        grounded := hit;
      }
    }

    /** Move: set `_speed` (SetSpeed), then return the horizontal distance and the vertical
        displacement handed to CharacterController.Move. */
    method Move(dt: real, m: Motion.MoveInput) returns (horizontal: real, vertical: real)
      modifies this
      ensures Snapshot() == old(Snapshot())
      ensures speed == Motion.NextSpeed(Settings(), dt, m)
      ensures Motion.WithinBand(m.currentHorizontalSpeed, Motion.TargetSpeed(Settings(), m)) ==>
        speed == Motion.TargetSpeed(Settings(), m)
      ensures horizontal == Motion.HorizontalDistance(speed, dt, m)
      ensures vertical == Motion.VerticalDistance(Snapshot(), dt)
    {
      SetSpeed(dt, m);
      horizontal := if m.moveIsZero then 0.0 else speed * dt;
      vertical := verticalVelocity * dt;
    }

    /** The speed part of Move: pick sprint, walk or zero speed, snap to it inside the band,
        otherwise ease toward the scaled target and round to three decimals. */
    method SetSpeed(dt: real, m: Motion.MoveInput)
      modifies this
      ensures Snapshot() == old(Snapshot())
      ensures speed == Motion.NextSpeed(Settings(), dt, m)
    {
      var targetSpeed := if m.sprint then sprintSpeed else moveSpeed;
      if m.moveIsZero {
        targetSpeed := 0.0;
      }
      var currentHorizontalSpeed := m.currentHorizontalSpeed;
      var speedOffset := Motion.SpeedOffset;
      var inputMagnitude := if m.analogMovement then m.moveMagnitude else 1.0;
      var goal := targetSpeed * inputMagnitude;
      var t := dt * speedChangeRate;
      Motion.NextSpeedAsWritten(Settings(), dt, m, currentHorizontalSpeed, targetSpeed, inputMagnitude,
                                goal, speedChangeRate, t);
      if currentHorizontalSpeed < targetSpeed - speedOffset || currentHorizontalSpeed > targetSpeed + speedOffset {
        speed := Easing.RoundToThousandths(Easing.Lerp(currentHorizontalSpeed, goal, t));
      } else {
        speed := targetSpeed;
      }
    }

    /** CameraRotation: accumulate and clamp the pitch, and set the yaw rate, when the look input
        reaches the threshold. */
    method CameraRotation(look: Motion.LookInput)
      modifies this
      ensures speed == old(speed)
      ensures Snapshot() == Motion.CameraRotation(old(Snapshot()), Settings(), look)
    {
      ghost var before := Snapshot();
      if Motion.LookSqrMagnitude(look) >= Motion.LookThreshold {
        var deltaTimeMultiplier := 1.0;
        cinemachineTargetPitch := cinemachineTargetPitch + look.y * rotationSpeed * deltaTimeMultiplier;
        rotationVelocity := look.x * rotationSpeed * deltaTimeMultiplier;
        ghost var accumulated := cinemachineTargetPitch;
        cinemachineTargetPitch := Angles.ClampAngle(cinemachineTargetPitch, bottomClamp, topClamp);
        Motion.CameraRotationTurns(before, Settings(), look, accumulated, cinemachineTargetPitch, rotationVelocity);
      }
    }

    /** OnTriggerEnter, with the other collider's tag. */
    method OnTriggerEnter(tag: string)
      modifies this
      ensures speed == old(speed)
      ensures Snapshot() == Motion.TriggerEnterWater(old(Snapshot()), tag)
    {
      if tag == Motion.WaterTag {
        inWater := true;
        gravity := 0.0;
      }
    }

    /** OnTriggerExit, with the other collider's tag. */
    method OnTriggerExit(tag: string)
      modifies this
      ensures speed == old(speed)
      ensures Snapshot() == Motion.TriggerExitWater(old(Snapshot()), tag)
    {
      if tag == Motion.WaterTag {
        inWater := false;
        jumpHeight := Motion.SurfaceJumpHeight;
        gravity := Motion.SurfaceGravity;
      }
    }

    /** Update: JumpAndGravity, then GroundedCheck (so the jump logic sees last frame's
        grounded value), then Move; returns what Move hands to CharacterController.Move. */
    method Update(f: Motion.FrameInput) returns (horizontal: real, vertical: real)
      requires Motion.JumpEnergy(Snapshot()) >= 0.0 ==> Motion.IsSqrtOf(f.launch, Motion.JumpEnergy(Snapshot()))
      modifies this
      ensures Snapshot() == Motion.Update(old(Snapshot()), Settings(), f)
      ensures speed == Motion.NextSpeed(Settings(), f.dt, f.move)
      ensures horizontal == Motion.HorizontalDistance(speed, f.dt, f.move)
      ensures vertical == Motion.VerticalDistance(Snapshot(), f.dt)
    {
      JumpAndGravity(f.dt, f.launch);
      GroundedCheck(f.groundHit);
      horizontal, vertical := Move(f.dt, f.move);
    }

    /** LateUpdate: the camera. */
    method LateUpdate(look: Motion.LookInput)
      modifies this
      ensures speed == old(speed)
      ensures Snapshot() == Motion.CameraRotation(old(Snapshot()), Settings(), look)
    {
      CameraRotation(look);
    }
  }
}
