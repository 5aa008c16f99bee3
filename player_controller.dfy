/**
 * The movement script of a player: a jump counter capped by a real-valued
 * `maxJumps` and reset on ground contact, horizontal velocity from the A and
 * D keys, and a timed phasing mode that lets the player pass through
 * platforms with the collider disabled and the sprite alpha at 0.5.
 *
 * Ground and head probes, key presses and the frame time are inputs of a
 * frame; the rigidbody's velocity is a field that the physics engine also
 * writes between frames.
 */
module Locomotion {
  import opened Common

  /** Sprite alpha while phasing. */
  const PhasingAlpha: real := 0.5

  /** The settings and components of the script, which no operation changes. */
  datatype Config = Config(
    movespeed: real,
    maxJumps: real,
    phaseDuration: real,
    minPhaseVelocity: real,
    hasRigidbody: bool,
    hasCollider: bool,
    hasSprite: bool,
    originalAlpha: real)

  /** The phasing fields: the mode, its countdown, the collider's enabled flag and the sprite's alpha. */
  datatype PhaseState = PhaseState(isPhasing: bool, phaseTimer: real, colliderEnabled: bool, alpha: real)

  /** A snapshot of the script's fields. */
  datatype ControllerState = ControllerState(
    config: Config,
    isGrounded: bool,
    isHeadGrounded: bool,
    phase: PhaseState,
    currentJumps: int,
    velocity: Vec2)

  /** What one frame brings: probe hits, key states and `Time.deltaTime`. */
  datatype Frame = Frame(
    dt: real,
    groundHit: bool,
    headHit: bool,
    phaseKeyDown: bool,
    leftHeld: bool,
    rightHeld: bool,
    jumpKeyDown: bool)

  /** The horizontal axis from the A (left) and D (right) keys; A wins when both are held. */
  function HorizontalInput(leftHeld: bool, rightHeld: bool): (h: real)
    ensures h == -1.0 || h == 0.0 || h == 1.0
    ensures h < 0.0 <==> leftHeld
    ensures h > 0.0 <==> !leftHeld && rightHeld
  {
    if leftHeld then -1.0 else if rightHeld then 1.0 else 0.0
  }

  /** The horizontal speed the script sets: `horizontalInput * movespeed`. */
  function HorizontalSpeed(leftHeld: bool, rightHeld: bool, movespeed: real): (vx: real)
    ensures leftHeld ==> vx == -movespeed
    ensures !leftHeld && rightHeld ==> vx == movespeed
    ensures !leftHeld && !rightHeld ==> vx == 0.0
  {
    HorizontalInput(leftHeld, rightHeld) * movespeed
  }

  // ---------------------------------------------------------------------
  // Jumping
  // ---------------------------------------------------------------------

  /** Whether Jump may add a jump: the count, compared as a float, is below the cap, and there is a rigidbody. */
  predicate CanJump(c: Config, jumps: int) {
    (jumps as real) < c.maxJumps && c.hasRigidbody
  }

  /** Jump: clear the vertical velocity and count the jump, or change nothing. */
  function AfterJump(s: ControllerState): (r: ControllerState)
    ensures r.currentJumps == s.currentJumps + (if CanJump(s.config, s.currentJumps) then 1 else 0)
    ensures CanJump(s.config, s.currentJumps) ==> r.velocity == Vec2(s.velocity.x, 0.0)
    ensures !CanJump(s.config, s.currentJumps) ==> r == s
    ensures r.config == s.config && r.phase == s.phase
    ensures r.isGrounded == s.isGrounded && r.isHeadGrounded == s.isHeadGrounded
  {
    if (s.currentJumps as real) < s.config.maxJumps && s.config.hasRigidbody then
      s.(velocity := Vec2(s.velocity.x, 0.0), currentJumps := s.currentJumps + 1)
    else s
  }

  /**
   * The jump bound: every jump counted since the last reset was allowed when
   * it was made, so the count is 0 or at most one above the largest integer
   * below `maxJumps`, that is at most max(0, ⌈`maxJumps`⌉).
   */
  ghost predicate JumpBound(s: ControllerState) {
    0 <= s.currentJumps && (s.currentJumps == 0 || ((s.currentJumps - 1) as real) < s.config.maxJumps)
  }

  // ---------------------------------------------------------------------
  // Phasing
  // ---------------------------------------------------------------------

  /** StartPhasing: phase for `phaseDuration`, collider off, sprite alpha 0.5. */
  function AfterStartPhasing(c: Config, p: PhaseState): (r: PhaseState)
    ensures r.isPhasing && r.phaseTimer == c.phaseDuration
    ensures c.hasCollider ==> !r.colliderEnabled
    ensures !c.hasCollider ==> r.colliderEnabled == p.colliderEnabled
    ensures c.hasSprite ==> r.alpha == PhasingAlpha
    ensures !c.hasSprite ==> r.alpha == p.alpha
  {
    PhaseState(true, c.phaseDuration,
               if c.hasCollider then false else p.colliderEnabled,
               if c.hasSprite then PhasingAlpha else p.alpha)
  }

  /** StopPhasing: timer cleared, collider on, sprite back to its original alpha. */
  function AfterStopPhasing(c: Config, p: PhaseState): (r: PhaseState)
    ensures !r.isPhasing && r.phaseTimer == 0.0
    ensures c.hasCollider ==> r.colliderEnabled
    ensures !c.hasCollider ==> r.colliderEnabled == p.colliderEnabled
    ensures c.hasSprite ==> r.alpha == c.originalAlpha
    ensures !c.hasSprite ==> r.alpha == p.alpha
  {
    PhaseState(false, 0.0,
               if c.hasCollider then true else p.colliderEnabled,
               if c.hasSprite then c.originalAlpha else p.alpha)
  }

  /**
   * The phasing invariant: the collider is enabled exactly when not phasing,
   * the alpha follows the phasing state, and an idle timer is zero.
   */
  ghost predicate PhaseConsistent(c: Config, p: PhaseState) {
    && (c.hasCollider ==> (p.colliderEnabled <==> !p.isPhasing))
    && (c.hasSprite ==> p.alpha == (if p.isPhasing then PhasingAlpha else c.originalAlpha))
    && (!p.isPhasing ==> p.phaseTimer == 0.0)
  }

  /** The phase countdown of Update: count down while phasing, and stop once the timer is used up. */
  function PhaseCountdown(c: Config, p: PhaseState, dt: real): (r: PhaseState)
    ensures p.isPhasing && p.phaseTimer - dt > 0.0 ==> r == p.(phaseTimer := p.phaseTimer - dt)
    ensures p.isPhasing && p.phaseTimer - dt <= 0.0 ==> r == AfterStopPhasing(c, p)
    ensures !p.isPhasing ==> r == p
  {
    if p.isPhasing then
      var timer := p.phaseTimer - dt;
      if timer <= 0.0 then AfterStopPhasing(c, p.(phaseTimer := timer)) else p.(phaseTimer := timer)
    else p
  }

  /** Whether phasing survives a frame's countdown. */
  predicate KeepsPhasing(p: PhaseState, dt: real) {
    p.isPhasing && p.phaseTimer - dt > 0.0
  }

  /** The manual trigger: S pressed while grounded and not phasing. */
  predicate ManualPhase(p: PhaseState, f: Frame) {
    f.phaseKeyDown && f.groundHit && !KeepsPhasing(p, f.dt)
  }

  /** The automatic trigger: a head hit while not phasing and moving up faster than `minPhaseVelocity`. */
  predicate AutoPhase(c: Config, p: PhaseState, f: Frame, vy: real) {
    f.headHit && !KeepsPhasing(p, f.dt) && !ManualPhase(p, f)
    && c.hasRigidbody && vy > c.minPhaseVelocity
  }

  /** The phasing part of Update: countdown, then the manual trigger, then the automatic one. */
  function PhaseAfterFrame(c: Config, p: PhaseState, f: Frame, vy: real): (r: PhaseState)
    ensures r.isPhasing <==> KeepsPhasing(p, f.dt) || ManualPhase(p, f) || AutoPhase(c, p, f, vy)
    ensures KeepsPhasing(p, f.dt) ==> r.phaseTimer == p.phaseTimer - f.dt
    ensures ManualPhase(p, f) || AutoPhase(c, p, f, vy) ==> r.phaseTimer == c.phaseDuration
    ensures !r.isPhasing ==> r.phaseTimer == (if p.isPhasing then 0.0 else p.phaseTimer)
    ensures PhaseConsistent(c, p) ==> PhaseConsistent(c, r)
  {
    var counted := PhaseCountdown(c, p, f.dt);
    var manual := if f.phaseKeyDown && f.groundHit && !counted.isPhasing
                  then AfterStartPhasing(c, counted) else counted;
    if f.headHit && !manual.isPhasing && c.hasRigidbody && vy > c.minPhaseVelocity
    then AfterStartPhasing(c, manual) else manual
  }

  // ---------------------------------------------------------------------
  // A frame
  // ---------------------------------------------------------------------

  /** The counter after the ground reset of a frame, before any jump. */
  function JumpsAfterReset(s: ControllerState, f: Frame, phasing: bool): int {
    if f.groundHit && !phasing then 0 else s.currentJumps
  }

  /** The velocity after the horizontal input of a frame, before any jump. */
  function MovedVelocity(s: ControllerState, f: Frame): Vec2 {
    if s.config.hasRigidbody
    then Vec2(HorizontalSpeed(f.leftHeld, f.rightHeld, s.config.movespeed), s.velocity.y)
    else s.velocity
  }

  /** The state after the movement part of Update, before the jump key is handled. */
  function BeforeJump(s: ControllerState, f: Frame): ControllerState {
    var p := PhaseAfterFrame(s.config, s.phase, f, s.velocity.y);
    ControllerState(s.config, f.groundHit, f.headHit, p, JumpsAfterReset(s, f, p.isPhasing), MovedVelocity(s, f))
  }

  /**
   * Update: probes, phasing, ground reset of the jump counter, horizontal
   * velocity, then the jump key.
   */
  function AfterUpdate(s: ControllerState, f: Frame): (r: ControllerState)
    ensures r.config == s.config
    ensures r.isGrounded == f.groundHit && r.isHeadGrounded == f.headHit
    ensures r.phase == PhaseAfterFrame(s.config, s.phase, f, s.velocity.y)
    ensures var base := JumpsAfterReset(s, f, r.phase.isPhasing);
            var jumped := f.jumpKeyDown && CanJump(s.config, base);
            && r.currentJumps == base + (if jumped then 1 else 0)
            && r.velocity == (var v := MovedVelocity(s, f); if jumped then Vec2(v.x, 0.0) else v)
  {
    var moved := BeforeJump(s, f);
    if f.jumpKeyDown then AfterJump(moved) else moved
  }

  /** After a grounded frame that leaves the player solid, the counter is 0, or 1 if the jump key was pressed. */
  lemma GroundContactResetsJumps(s: ControllerState, f: Frame)
    requires f.groundHit && !AfterUpdate(s, f).phase.isPhasing
    ensures AfterUpdate(s, f).currentJumps == (if f.jumpKeyDown && CanJump(s.config, 0) then 1 else 0)
  {
  }

  /** While phasing, or in the air, the counter is not reset. */
  lemma NoResetWithoutGround(s: ControllerState, f: Frame)
    requires !f.groundHit || AfterUpdate(s, f).phase.isPhasing
    ensures AfterUpdate(s, f).currentJumps
            == s.currentJumps + (if f.jumpKeyDown && CanJump(s.config, s.currentJumps) then 1 else 0)
  {
  }

  /** A frame keeps every counted jump justified. */
  lemma UpdateKeepsJumpBound(s: ControllerState, f: Frame)
    requires JumpBound(s)
    ensures JumpBound(AfterUpdate(s, f))
  {
  }

  // ---------------------------------------------------------------------
  // Runs of frames
  // ---------------------------------------------------------------------

  /** A frame, or the physics engine replacing the rigidbody's velocity between frames. */
  datatype Step = Tick(frame: Frame) | Physics(velocity: Vec2)

  function Apply(s: ControllerState, step: Step): (r: ControllerState)
    ensures r.config == s.config
  {
    match step
    case Tick(f) => AfterUpdate(s, f)
    case Physics(v) => if s.config.hasRigidbody then s.(velocity := v) else s
  }

  function Run(s: ControllerState, steps: seq<Step>): ControllerState
    decreases |steps|
  {
    if steps == [] then s else Run(Apply(s, steps[0]), steps[1..])
  }

  /** Over any run the phasing invariant holds: the collider is enabled exactly when not phasing. */
  lemma {:induction false} PhaseConsistentRun(s: ControllerState, steps: seq<Step>)
    requires PhaseConsistent(s.config, s.phase)
    ensures Run(s, steps).config == s.config
    ensures PhaseConsistent(s.config, Run(s, steps).phase)
    decreases |steps|
  {
    if steps != [] {
      PhaseConsistentRun(Apply(s, steps[0]), steps[1..]);
    }
  }

  lemma {:induction false} JumpBoundRun(s: ControllerState, steps: seq<Step>)
    requires JumpBound(s)
    ensures JumpBound(Run(s, steps)) && Run(s, steps).config == s.config
    decreases |steps|
  {
    if steps != [] {
      if steps[0].Tick? {
        UpdateKeepsJumpBound(s, steps[0].frame);
      }
      JumpBoundRun(Apply(s, steps[0]), steps[1..]);
    }
  }

  /**
   * With the default cap of 0.5 a player gets one jump between resets: the
   * count never exceeds 1, a jump is allowed exactly when none was made.
   */
  lemma DefaultCapAllowsOneJump(s: ControllerState, steps: seq<Step>)
    requires s.config.maxJumps == 0.5 && JumpBound(s)
    ensures Run(s, steps).currentJumps <= 1
    ensures var t := Run(s, steps);
            t.config.hasRigidbody ==> (CanJump(t.config, t.currentJumps) <==> t.currentJumps == 0)
  {
    JumpBoundRun(s, steps);
  }

  /** The sum of the frame times of a run of frames. */
  function Elapsed(frames: seq<Frame>): real {
    if frames == [] then 0.0 else frames[0].dt + Elapsed(frames[1..])
  }

  function Ticks(frames: seq<Frame>): (steps: seq<Step>)
    ensures |steps| == |frames|
    ensures forall i :: 0 <= i < |frames| ==> steps[i] == Tick(frames[i])
  {
    if frames == [] then [] else [Tick(frames[0])] + Ticks(frames[1..])
  }

  /** A frame that can start no phasing: S is not pressed, the head probe does not hit, time does not run back. */
  predicate Quiet(f: Frame) {
    !f.phaseKeyDown && !f.headHit && f.dt >= 0.0
  }

  lemma {:induction false} ElapsedNonNegative(frames: seq<Frame>)
    requires forall i :: 0 <= i < |frames| ==> Quiet(frames[i])
    ensures Elapsed(frames) >= 0.0
    decreases |frames|
  {
    if frames != [] {
      ElapsedNonNegative(frames[1..]);
    }
  }

  /**
   * Phasing lasts exactly the time left on its timer: over quiet frames the
   * player is still phasing at the end iff less time has elapsed than was
   * left, and once it has ended the collider is back on.
   */
  lemma {:induction false} PhaseEndsAfterTimer(s: ControllerState, frames: seq<Frame>)
    requires PhaseConsistent(s.config, s.phase)
    requires 0 < |frames| && forall i :: 0 <= i < |frames| ==> Quiet(frames[i])
    ensures var t := Run(s, Ticks(frames));
            && (t.phase.isPhasing <==> s.phase.isPhasing && s.phase.phaseTimer - Elapsed(frames) > 0.0)
            && (!t.phase.isPhasing && s.config.hasCollider ==> t.phase.colliderEnabled)
    decreases |frames|
  {
    PhaseConsistentRun(s, Ticks(frames));
    {
      var f := frames[0];
      var rest := frames[1..];
      assert Quiet(f);
      assert Ticks(frames)[1..] == Ticks(rest);
      var s' := AfterUpdate(s, f);
      assert Run(s, Ticks(frames)) == Run(s', Ticks(rest));
      assert Elapsed(frames) == f.dt + Elapsed(rest);
      assert !ManualPhase(s.phase, f) && !AutoPhase(s.config, s.phase, f, s.velocity.y);
      assert s'.phase.isPhasing <==> KeepsPhasing(s.phase, f.dt);
      assert s'.config == s.config && PhaseConsistent(s.config, s'.phase);
      assert forall i :: 0 <= i < |rest| ==> Quiet(rest[i]) by {
        forall i | 0 <= i < |rest| ensures Quiet(rest[i]) {
          assert rest[i] == frames[i + 1];
        }
      }
      if rest == [] {
        assert Run(s', Ticks(rest)) == s';
      } else {
        PhaseEndsAfterTimer(s', rest);
      }
      ElapsedNonNegative(rest);
      if KeepsPhasing(s.phase, f.dt) {
        assert s'.phase.phaseTimer == s.phase.phaseTimer - f.dt;
      }
    }
  }

  // ---------------------------------------------------------------------
  // The script
  // ---------------------------------------------------------------------

  class PlayerController {
    var movespeed: real
    var maxJumps: real
    var currentJumps: int
    var isGrounded: bool
    var isHeadGrounded: bool
    var phaseDuration: real
    var minPhaseVelocity: real
    var isPhasing: bool
    var phaseTimer: real
    /** Whether Start found a Rigidbody2D, and that body's velocity. */
    var hasRigidbody: bool
    var velocity: Vec2
    /** Whether Start found a Collider2D, and whether it is enabled. */
    var hasCollider: bool
    var colliderEnabled: bool
    /** Whether Start found a SpriteRenderer; its alpha at Start and now. */
    var hasSprite: bool
    var originalAlpha: real
    var alpha: real

    ghost function Settings(): Config
      reads this
    {
      Config(movespeed, maxJumps, phaseDuration, minPhaseVelocity, hasRigidbody, hasCollider,
             hasSprite, originalAlpha)
    }

    ghost function Phase(): PhaseState
      reads this
    {
      PhaseState(isPhasing, phaseTimer, colliderEnabled, alpha)
    }

    ghost function State(): ControllerState
      reads this
    {
      ControllerState(Settings(), isGrounded, isHeadGrounded, Phase(), currentJumps, velocity)
    }

    /**
     * The script after Start: the components found on the object, the sprite's
     * alpha remembered as the original, an enabled collider, not phasing and
     * no jumps.
     */
    constructor (movespeed: real, maxJumps: real, phaseDuration: real, minPhaseVelocity: real,
                 hasRigidbody: bool, velocity: Vec2, hasCollider: bool, hasSprite: bool, spriteAlpha: real)
      ensures State().config == Config(movespeed, maxJumps, phaseDuration, minPhaseVelocity, hasRigidbody,
                                       hasCollider, hasSprite, if hasSprite then spriteAlpha else 0.0)
      ensures State().velocity == velocity && State().currentJumps == 0
      ensures !State().phase.isPhasing && State().phase.colliderEnabled
      ensures PhaseConsistent(State().config, State().phase) && JumpBound(State())
    {
      this.movespeed := movespeed;
      this.maxJumps := maxJumps;
      currentJumps := 0;
      isGrounded := false;
      isHeadGrounded := false;
      this.phaseDuration := phaseDuration;
      this.minPhaseVelocity := minPhaseVelocity;
      isPhasing := false;
      phaseTimer := 0.0;
      this.hasRigidbody := hasRigidbody;
      this.velocity := velocity;
      this.hasCollider := hasCollider;
      colliderEnabled := true;
      this.hasSprite := hasSprite;
      originalAlpha := if hasSprite then spriteAlpha else 0.0;
      alpha := spriteAlpha;
    }

    /**
     * Update: store the probe results, run the phasing logic, reset the jump
     * counter on solid ground contact, set the horizontal velocity, then
     * handle the jump key.
     */
    method Update(f: Frame)
      modifies this
      ensures State() == AfterUpdate(old(State()), f)
    {
      ghost var s0 := State();
      Move(f);
      assert State() == BeforeJump(s0, f);
      if f.jumpKeyDown {
        Jump();
      }
    }

    /** Update up to the jump key, field group by field group. */
    method Move(f: Frame)
      modifies this`isGrounded, this`isHeadGrounded, this`currentJumps, this`velocity
      modifies this`isPhasing, this`phaseTimer, this`colliderEnabled, this`alpha
      ensures isGrounded == f.groundHit && isHeadGrounded == f.headHit
      ensures Phase() == PhaseAfterFrame(Settings(), old(Phase()), f, old(velocity).y)
      ensures currentJumps == if f.groundHit && !isPhasing then 0 else old(currentJumps)
      ensures velocity == if hasRigidbody then Vec2(HorizontalSpeed(f.leftHeld, f.rightHeld, movespeed), old(velocity).y)
                          else old(velocity)
    {
      isGrounded := f.groundHit;
      isHeadGrounded := f.headHit;
      UpdatePhasing(f);
      if isGrounded && !isPhasing {
        currentJumps := 0;
      }
      MoveHorizontally(f);
    }

    /** The phasing part of Update, once the probe results are stored. */
    method UpdatePhasing(f: Frame)
      requires isGrounded == f.groundHit && isHeadGrounded == f.headHit
      modifies this`isPhasing, this`phaseTimer, this`colliderEnabled, this`alpha
      ensures Phase() == PhaseAfterFrame(Settings(), old(Phase()), f, velocity.y)
    {
      if isPhasing {
        phaseTimer := phaseTimer - f.dt;
        if phaseTimer <= 0.0 {
          StopPhasing();
        }
      }
      if f.phaseKeyDown {
        if isGrounded && !isPhasing {
          StartPhasing();
        }
      }
      if isHeadGrounded && !isPhasing && hasRigidbody && velocity.y > minPhaseVelocity {
        StartPhasing();
      }
    }

    /** The horizontal part of Update: A or D sets the x velocity, the y velocity is kept. */
    method MoveHorizontally(f: Frame)
      modifies this`velocity
      ensures velocity == if hasRigidbody then Vec2(HorizontalSpeed(f.leftHeld, f.rightHeld, movespeed), old(velocity).y)
                          else old(velocity)
    {
      var horizontalInput := 0.0;
      if f.leftHeld {
        horizontalInput := -1.0;
      } else if f.rightHeld {
        horizontalInput := 1.0;
      }
      assert horizontalInput == HorizontalInput(f.leftHeld, f.rightHeld);
      if hasRigidbody {
        velocity := Vec2(horizontalInput * movespeed, velocity.y);
      }
    }

    method Jump()
      modifies this`velocity, this`currentJumps
      ensures State() == AfterJump(old(State()))
    {
      if (currentJumps as real) < maxJumps {
        if hasRigidbody {
          velocity := Vec2(velocity.x, 0.0);
          currentJumps := currentJumps + 1;
        }
      }
    }

    method StartPhasing()
      modifies this`isPhasing, this`phaseTimer, this`colliderEnabled, this`alpha
      ensures Phase() == AfterStartPhasing(Settings(), old(Phase()))
    {
      isPhasing := true;
      phaseTimer := phaseDuration;
      if hasCollider {
        colliderEnabled := false;
      }
      if hasSprite {
        alpha := PhasingAlpha;
      }
    }

    method StopPhasing()
      modifies this`isPhasing, this`phaseTimer, this`colliderEnabled, this`alpha
      ensures Phase() == AfterStopPhasing(Settings(), old(Phase()))
    {
      isPhasing := false;
      phaseTimer := 0.0;
      if hasCollider {
        colliderEnabled := true;
      }
      if hasSprite {
        alpha := originalAlpha;
      }
    }
  }
}
