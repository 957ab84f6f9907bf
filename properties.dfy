/** Properties of the controller rules: single frames, and runs over many engine events. */
module Properties {
  import opened Motion

  // ---------------------------------------------------------------- jumping

  /** A jump that fires leaves the ground at the Mathf.Sqrt velocity and then takes one frame
      of gravity. */
  lemma JumpLaunches(s: State, cfg: Config, dt: real, launch: real)
    requires JumpFires(s)
    requires IsSqrtOf(launch, JumpEnergy(s))
    requires launch < TerminalVelocity
    ensures JumpAndGravity(s, cfg, dt, launch).verticalVelocity == launch + s.gravity * dt
    ensures var v := JumpAndGravity(s, cfg, dt, launch).verticalVelocity - s.gravity * dt;
      0.0 <= v && v * v == s.jumpHeight * -2.0 * s.gravity
  {
  }

  /** Without the three jump conditions the frame does not depend on the square root at all:
      no jump happens, in particular never while airborne or in water. */
  lemma NoJumpUnlessReady(s: State, cfg: Config, dt: real, launch1: real, launch2: real)
    requires !JumpFires(s)
    ensures JumpAndGravity(s, cfg, dt, launch1) == JumpAndGravity(s, cfg, dt, launch2)
  {
  }

  /** When the jump conditions hold and gravity pulls down, the launch value does reach the
      state: different square roots give different velocities. */
  lemma JumpUsesLaunch(s: State, cfg: Config, dt: real, launch1: real, launch2: real)
    requires JumpFires(s)
    requires s.gravity * dt <= 0.0
    requires launch1 != launch2
    ensures JumpAndGravity(s, cfg, dt, launch1).verticalVelocity != JumpAndGravity(s, cfg, dt, launch2).verticalVelocity
  {
  }

  /** The terminal velocity only stops upward motion: a falling player on land keeps gaining
      speed downward whatever the current speed. */
  lemma FallSpeedIsUncapped(s: State, cfg: Config, dt: real, launch: real)
    requires !s.inWater && !s.grounded
    requires s.verticalVelocity < 0.0 && s.gravity < 0.0 && dt > 0.0
    ensures JumpAndGravity(s, cfg, dt, launch).verticalVelocity == s.verticalVelocity + s.gravity * dt
    ensures JumpAndGravity(s, cfg, dt, launch).verticalVelocity < s.verticalVelocity
  {
  }

  // ---------------------------------------------------------------- frame order

  /** Update runs JumpAndGravity before GroundedCheck, so this frame's ground probe affects only
      `grounded`; velocity, timers and the jump flag come from last frame's grounded value. */
  lemma UpdateUsesPreviousGrounded(s: State, cfg: Config, f: FrameInput, hit: bool)
    ensures var a, b := Update(s, cfg, f), Update(s, cfg, f.(groundHit := hit));
      a.(grounded := b.grounded) == b
  {
  }

  // ---------------------------------------------------------------- water triggers

  /** Entering and then leaving a Water volume gives back a surface state unchanged. */
  lemma WaterRoundTrip(s: State)
    requires !s.inWater && s.gravity == SurfaceGravity && s.jumpHeight == SurfaceJumpHeight
    ensures TriggerExitWater(TriggerEnterWater(s, WaterTag), WaterTag) == s
  {
  }

  /** The physics the two triggers maintain: gravity off in water, the surface values on land. */
  predicate SurfacePhysics(s: State) {
    (s.inWater ==> s.gravity == 0.0) &&
    (!s.inWater ==> s.gravity == SurfaceGravity && s.jumpHeight == SurfaceJumpHeight)
  }

  /** With the surface physics the only square root a jump can use is 6. */
  lemma SurfaceLaunchSpeed(s: State, launch: real)
    requires SurfacePhysics(s) && !s.inWater
    requires IsSqrtOf(launch, JumpEnergy(s))
    ensures launch == 6.0
  {
    assert JumpEnergy(s) == 36.0;
    assert (launch - 6.0) * (launch + 6.0) == launch * launch - 36.0;
    assert launch + 6.0 > 0.0;
  }

  /** Every engine event keeps the surface physics. */
  lemma StepKeepsSurfacePhysics(s: State, cfg: Config, e: Event)
    requires SurfacePhysics(s)
    ensures SurfacePhysics(Step(s, cfg, e))
  {
  }

  /** From any state with the surface physics, any run of events keeps it. */
  lemma {:induction false} RunKeepsSurfacePhysics(s: State, cfg: Config, es: seq<Event>)
    requires SurfacePhysics(s)
    ensures SurfacePhysics(Run(s, cfg, es))
    decreases |es|
  {
    if es != [] {
      StepKeepsSurfacePhysics(s, cfg, es[0]);
      RunKeepsSurfacePhysics(Step(s, cfg, es[0]), cfg, es[1..]);
    }
  }

  // ---------------------------------------------------------------- swimming

  /** While no trigger fires, a swimming player stays swimming, keeps `grounded`, both timers,
      gravity and jump height, and its vertical velocity is MoveSpeed, 0 or what it was. */
  lemma {:induction false} SwimmingRun(s: State, cfg: Config, es: seq<Event>)
    requires s.inWater && NoTriggers(es)
    ensures var r := Run(s, cfg, es);
      r.inWater && r.grounded == s.grounded &&
      r.jumpTimeoutDelta == s.jumpTimeoutDelta && r.fallTimeoutDelta == s.fallTimeoutDelta &&
      r.gravity == s.gravity && r.jumpHeight == s.jumpHeight &&
      (r.verticalVelocity == s.verticalVelocity || r.verticalVelocity == cfg.moveSpeed || r.verticalVelocity == 0.0)
    decreases |es|
  {
    if es != [] {
      var t := Step(s, cfg, es[0]);
      assert NoTriggers(es[1..]) by {
        forall i | 0 <= i < |es[1..]| ensures !es[1..][i].TriggerEnter? && !es[1..][i].TriggerExit? {
          assert es[1..][i] == es[i + 1];
        }
      }
      assert !es[0].TriggerEnter? && !es[0].TriggerExit?;
      SwimmingRun(t, cfg, es[1..]);
    }
  }

  // ---------------------------------------------------------------- falling

  /** A LateUpdate camera pass or a jump press between frames leaves the motion fields alone:
      only the pitch, the yaw rate or the jump flag can change, and a camera pass keeps the jump
      flag too. */
  lemma BetweenFrames(s: State, cfg: Config, e: Event)
    requires e.Late? || e.JumpInput?
    ensures var t := Step(s, cfg, e);
      t == s.(pitch := t.pitch, rotationVelocity := t.rotationVelocity, jump := t.jump) &&
      (e.Late? ==> t.jump == s.jump)
  {
  }

  /** The velocity after falling for `time` under `gravity` from `velocity`. */
  function Fallen(velocity: real, gravity: real, time: real): real {
    velocity + gravity * time
  }

  /** A player on land whose ground probe keeps missing falls freely: no frame clears the
      velocity or launches a jump, and neither the camera passes nor jump presses between the
      frames touch it, so the velocity is the start velocity plus gravity times the elapsed
      time. */
  lemma {:induction false} FreeFallVelocity(s: State, cfg: Config, es: seq<Event>)
    requires !s.inWater && !s.grounded && FreeFallEvents(es)
    requires s.verticalVelocity < TerminalVelocity && s.gravity <= 0.0
    ensures Run(s, cfg, es).verticalVelocity == Fallen(s.verticalVelocity, s.gravity, Elapsed(es))
    decreases |es|
  {
    if es != [] {
      var t := Step(s, cfg, es[0]);
      assert Run(s, cfg, es) == Run(t, cfg, es[1..]);
      FreeFallEventsTail(es);
      FallStep(s, cfg, es[0]);
      FreeFallVelocity(t, cfg, es[1..]);
      FallenOverSum(s.verticalVelocity, s.gravity, FrameTime(es[0]), Elapsed(es[1..]), Elapsed(es));
    }
  }

  /** One event of a fall with jump presses: the player stays airborne on land with the same
      gravity, below the terminal velocity, and the velocity gains gravity times the event's
      frame time. */
  lemma FallStep(s: State, cfg: Config, e: Event)
    requires !s.inWater && !s.grounded && (MissedFrame(e) || e.Late? || e.JumpInput?)
    requires s.verticalVelocity < TerminalVelocity && s.gravity <= 0.0
    ensures var t := Step(s, cfg, e);
      !t.inWater && !t.grounded && t.gravity == s.gravity && t.verticalVelocity < TerminalVelocity &&
      t.verticalVelocity == Fallen(s.verticalVelocity, s.gravity, FrameTime(e))
  {
    if e.Frame? {
      FallingFrame(s, cfg, e.input);
    } else {
      BetweenFrames(s, cfg, e);
    }
  }

  /** Falling for `first` and then for `rest` is falling for their sum. */
  lemma FallenOverSum(v: real, g: real, first: real, rest: real, total: real)
    requires total == first + rest
    ensures Fallen(Fallen(v, g, first), g, rest) == Fallen(v, g, total)
  {
  }

  /** While the probe keeps missing, at any velocity and gravity, the player stays airborne on
      land. Once an Update has run, the jump
      request is gone and the jump cooldown is at its full length; before that both are as they
      were. The fall timer only ever decreases, stops once negative, and while it is not negative
      it has run down by exactly the elapsed time. */
  lemma {:induction false} FreeFallTimers(s: State, cfg: Config, es: seq<Event>)
    requires !s.inWater && !s.grounded && FreeFallFrames(es)
    ensures var r := Run(s, cfg, es);
      !r.inWater && !r.grounded &&
      (Updates(es) == 0 ==> r.jump == s.jump && r.jumpTimeoutDelta == s.jumpTimeoutDelta) &&
      (Updates(es) > 0 ==> !r.jump && r.jumpTimeoutDelta == cfg.jumpTimeout) &&
      r.fallTimeoutDelta <= s.fallTimeoutDelta &&
      (s.fallTimeoutDelta < 0.0 ==> r.fallTimeoutDelta == s.fallTimeoutDelta) &&
      (r.fallTimeoutDelta >= 0.0 ==> r.fallTimeoutDelta == s.fallTimeoutDelta - Elapsed(es))
    decreases |es|
  {
    if es != [] {
      var t := Step(s, cfg, es[0]);
      assert Run(s, cfg, es) == Run(t, cfg, es[1..]);
      FreeFallFramesTail(es);
      if es[0].Frame? {
        var f := es[0].input;
        AirborneFrame(s, cfg, f);
        FreeFallTimers(t, cfg, es[1..]);
        assert Elapsed(es) == f.dt + Elapsed(es[1..]);
      } else {
        BetweenFrames(s, cfg, es[0]);
        FreeFallTimers(t, cfg, es[1..]);
        assert Elapsed(es) == Elapsed(es[1..]);
      }
    }
  }

  /** The events after the first of a fall are a fall. */
  lemma FreeFallFramesTail(es: seq<Event>)
    requires es != [] && FreeFallFrames(es)
    ensures MissedFrame(es[0]) || es[0].Late?
    ensures FreeFallFrames(es[1..])
  {
    forall i | 0 <= i < |es[1..]| ensures MissedFrame(es[1..][i]) || es[1..][i].Late? {
      assert es[1..][i] == es[i + 1];
    }
  }

  /** The events after the first of a fall with jump presses are such a fall. */
  lemma FreeFallEventsTail(es: seq<Event>)
    requires es != [] && FreeFallEvents(es)
    ensures MissedFrame(es[0]) || es[0].Late? || es[0].JumpInput?
    ensures FreeFallEvents(es[1..])
  {
    forall i | 0 <= i < |es[1..]| ensures MissedFrame(es[1..][i]) || es[1..][i].Late? || es[1..][i].JumpInput? {
      assert es[1..][i] == es[i + 1];
    }
  }

  /** The timers and mode of one Update on land whose probe misses, whatever the velocity. */
  lemma AirborneFrame(s: State, cfg: Config, f: FrameInput)
    requires !s.inWater && !s.grounded && !f.groundHit && f.dt >= 0.0
    ensures var t := Update(s, cfg, f);
      !t.inWater && !t.grounded && !t.jump && t.jumpTimeoutDelta == cfg.jumpTimeout &&
      t.fallTimeoutDelta == (if s.fallTimeoutDelta >= 0.0 then s.fallTimeoutDelta - f.dt else s.fallTimeoutDelta)
  {
  }

  /** One frame of free fall. */
  lemma FallingFrame(s: State, cfg: Config, f: FrameInput)
    requires !s.inWater && !s.grounded && !f.groundHit && f.dt >= 0.0
    requires s.verticalVelocity < TerminalVelocity && s.gravity <= 0.0
    ensures var t := Update(s, cfg, f);
      !t.inWater && !t.grounded && t.gravity == s.gravity &&
      t.verticalVelocity == s.verticalVelocity + s.gravity * f.dt &&
      t.verticalVelocity < TerminalVelocity &&
      !t.jump && t.jumpTimeoutDelta == cfg.jumpTimeout &&
      t.fallTimeoutDelta == (if s.fallTimeoutDelta >= 0.0 then s.fallTimeoutDelta - f.dt else s.fallTimeoutDelta)
  {
    assert s.gravity * f.dt <= 0.0;
  }

  // ---------------------------------------------------------------- standing

  /** A player on land whose ground probe keeps hitting stays grounded with the jump flag as the
      input left it. Once an Update has run the fall timer sits at FallTimeout, and before that it
      is as it was. The jump cooldown only decreases, stops once negative, and while it is not
      negative it has run down by exactly the elapsed time. */
  lemma {:induction false} StandingCountdown(s: State, cfg: Config, es: seq<Event>)
    requires !s.inWater && s.grounded && StandingFrames(es)
    ensures var r := Run(s, cfg, es);
      !r.inWater && r.grounded && r.jump == s.jump &&
      (Updates(es) == 0 ==> r.fallTimeoutDelta == s.fallTimeoutDelta) &&
      (Updates(es) > 0 ==> r.fallTimeoutDelta == cfg.fallTimeout) &&
      r.jumpTimeoutDelta <= s.jumpTimeoutDelta &&
      (s.jumpTimeoutDelta < 0.0 ==> r.jumpTimeoutDelta == s.jumpTimeoutDelta) &&
      (r.jumpTimeoutDelta >= 0.0 ==> r.jumpTimeoutDelta == s.jumpTimeoutDelta - Elapsed(es))
    decreases |es|
  {
    if es != [] {
      var t := Step(s, cfg, es[0]);
      assert Run(s, cfg, es) == Run(t, cfg, es[1..]);
      assert HitFrame(es[0]) || es[0].Late?;
      assert StandingFrames(es[1..]) by {
        forall i | 0 <= i < |es[1..]| ensures HitFrame(es[1..][i]) || es[1..][i].Late? {
          assert es[1..][i] == es[i + 1];
        }
      }
      if es[0].Frame? {
        StandingCountdown(t, cfg, es[1..]);
        assert Elapsed(es) == es[0].input.dt + Elapsed(es[1..]);
      } else {
        BetweenFrames(s, cfg, es[0]);
        StandingCountdown(t, cfg, es[1..]);
        assert Elapsed(es) == Elapsed(es[1..]);
      }
    }
  }

  // ---------------------------------------------------------------- camera

  /** With BottomClamp <= TopClamp, a pitch inside the limits stays inside them for any run. */
  lemma {:induction false} PitchStaysClamped(s: State, cfg: Config, es: seq<Event>)
    requires cfg.bottomClamp <= cfg.topClamp
    requires cfg.bottomClamp <= s.pitch <= cfg.topClamp
    ensures cfg.bottomClamp <= Run(s, cfg, es).pitch <= cfg.topClamp
    decreases |es|
  {
    if es != [] {
      PitchStaysClamped(Step(s, cfg, es[0]), cfg, es[1..]);
    }
  }

  // ---------------------------------------------------------------- start

  /** With the default settings Start arms a 0.1 s jump cooldown and a 0.15 s fall timer, and
      the initial fields have the surface physics. */
  lemma DefaultStart()
    ensures Start(InitialState, DefaultConfig).jumpTimeoutDelta == 0.1
    ensures Start(InitialState, DefaultConfig).fallTimeoutDelta == 0.15
    ensures SurfacePhysics(Start(InitialState, DefaultConfig))
  {
  }
}
