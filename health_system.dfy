/**
 * The health script of a player: integer health with damage and heal clamping,
 * a short invincibility window after each accepted hit, death by damage or by
 * falling below the level, and a full reset on respawn.
 *
 * Each operation is a pure step function on `HealthState`; the class
 * `HealthSystem` holds the script's fields and its methods are proved to
 * perform exactly those steps.
 */
module Health {
  import opened Common

  /** A player whose y coordinate is below this dies. */
  const FallDeathY: real := -10.0

  /** The notifications the script broadcasts, in order: OnHealthChanged, OnDamaged, OnDeath, OnRespawn. */
  datatype Event = HealthChanged(health: int) | Damaged | Death | Respawned

  /** A snapshot of the script's fields together with the log of notifications broadcast so far. */
  datatype HealthState = HealthState(
    maxHealth: Int32,
    currentHealth: Int32,
    invincibilityDuration: real,
    isInvincible: bool,
    invincibilityTimer: real,
    isDead: bool,
    position: Vec3,
    respawnPosition: Vec3,
    hasController: bool,
    controllerEnabled: bool,
    events: seq<Event>)

  /** The number of death notifications in a log. */
  function DeathCount(es: seq<Event>): nat {
    if es == [] then 0 else DeathCount(es[..|es| - 1]) + (if es[|es| - 1] == Death then 1 else 0)
  }

  lemma {:induction false} DeathCountAppend(a: seq<Event>, b: seq<Event>)
    ensures DeathCount(a + b) == DeathCount(a) + DeathCount(b)
    decreases |b|
  {
    if b == [] {
      assert a + b == a;
    } else {
      var b' := b[..|b| - 1];
      assert (a + b)[..|a + b| - 1] == a + b';
      DeathCountAppend(a, b');
    }
  }

  /** The state a freshly placed script has: the flags and the timer hold their field initialisers. */
  function Placed(maxHealth: Int32, currentHealth: Int32, invincibilityDuration: real, position: Vec3,
                  respawnPosition: Vec3, hasController: bool, controllerEnabled: bool): HealthState
  {
    HealthState(maxHealth, currentHealth, invincibilityDuration, false, 0.0, false,
                position, respawnPosition, hasController, controllerEnabled, [])
  }

  /**
   * A player in a well-formed state: positive maximum, health within bounds,
   * and dead exactly when health is zero.
   */
  ghost predicate Consistent(s: HealthState) {
    && 0 < s.maxHealth
    && 0 <= s.currentHealth <= s.maxHealth
    && (s.isDead <==> s.currentHealth == 0)
  }

  /** Start: full health, a respawn point that defaults to the spawn position, one health notification. */
  function AfterStart(s: HealthState): (r: HealthState)
    ensures r.currentHealth == s.maxHealth
    ensures s.respawnPosition != Zero3 ==> r.respawnPosition == s.respawnPosition
    ensures s.respawnPosition == Zero3 ==> r.respawnPosition == s.position
    ensures r.events == s.events + [HealthChanged(s.maxHealth)]
    ensures r.isDead == s.isDead && r.isInvincible == s.isInvincible && r.maxHealth == s.maxHealth
    ensures 0 < s.maxHealth && !s.isDead ==> Consistent(r)
  {
    var spawn := if s.respawnPosition == Zero3 then s.position else s.respawnPosition;
    s.(currentHealth := s.maxHealth, respawnPosition := spawn,
       events := s.events + [HealthChanged(s.maxHealth)])
  }

  /** StartInvincibility: open a window of `invincibilityDuration`. */
  function AfterStartInvincibility(s: HealthState): (r: HealthState)
    ensures r.isInvincible && r.invincibilityTimer == s.invincibilityDuration
  {
    s.(isInvincible := true, invincibilityTimer := s.invincibilityDuration)
  }

  /** Die: idempotent; the death notification is broadcast only on the first call. */
  function AfterDie(s: HealthState): (r: HealthState)
    ensures r.isDead
    ensures s.isDead ==> r == s
    ensures !s.isDead ==> r.events == s.events + [Death]
    ensures DeathCount(r.events) == DeathCount(s.events) + (if s.isDead then 0 else 1)
    ensures r.currentHealth == s.currentHealth && r.maxHealth == s.maxHealth
    ensures r.isInvincible == s.isInvincible && r.invincibilityTimer == s.invincibilityTimer
  {
    if s.isDead then s
    else
      DeathCountAppend(s.events, [Death]);
      s.(isDead := true, events := s.events + [Death])
  }

  /** Whether TakeDamage lets a hit through: neither dead nor inside the invincibility window. */
  predicate Accepts(s: HealthState) {
    !s.isDead && !s.isInvincible
  }

  /**
   * TakeDamage: ignored when dead or invincible; otherwise health drops by the
   * damage (never below zero), a window of invincibility opens, and the player
   * dies if health reached zero.
   */
  function AfterTakeDamage(s: HealthState, damage: Int32): (r: HealthState)
    ensures !Accepts(s) ==> r == s
    ensures Accepts(s) ==> r.isInvincible && r.invincibilityTimer == s.invincibilityDuration
    ensures Accepts(s) ==> 0 <= r.currentHealth
    ensures Accepts(s) && 0 <= damage && 0 <= s.currentHealth ==>
              r.currentHealth == Max(s.currentHealth - damage, 0) && r.currentHealth <= s.currentHealth
    ensures Accepts(s) ==> (r.isDead <==> r.currentHealth == 0)
    ensures Accepts(s) ==>
              r.events == s.events + [HealthChanged(r.currentHealth), Damaged]
                          + (if r.currentHealth == 0 then [Death] else [])
    ensures r.maxHealth == s.maxHealth && r.invincibilityDuration == s.invincibilityDuration
    ensures r.position == s.position && r.respawnPosition == s.respawnPosition
    ensures r.hasController == s.hasController && r.controllerEnabled == s.controllerEnabled
  {
    if s.isDead || s.isInvincible then s
    else
      var actualDamage := Min(damage, s.currentHealth);
      var health := Max(Wrap32(s.currentHealth - actualDamage), 0);
      var hit := AfterStartInvincibility(
        s.(currentHealth := health, events := s.events + [HealthChanged(health), Damaged]));
      if health <= 0 then AfterDie(hit) else hit
  }

  /**
   * Heal: ignored when dead; otherwise health rises by the amount, capped at
   * the maximum. Healing never kills and never touches invincibility.
   */
  function AfterHeal(s: HealthState, healAmount: Int32): (r: HealthState)
    ensures s.isDead ==> r == s
    ensures !s.isDead && 0 <= healAmount && 0 <= s.currentHealth <= s.maxHealth ==>
              r.currentHealth == Min(s.currentHealth + healAmount, s.maxHealth)
              && s.currentHealth <= r.currentHealth <= s.maxHealth
    ensures !s.isDead ==> r.events == s.events + [HealthChanged(r.currentHealth)]
    ensures r.isDead == s.isDead && r.maxHealth == s.maxHealth
    ensures r.isInvincible == s.isInvincible && r.invincibilityTimer == s.invincibilityTimer
    ensures r.position == s.position && r.respawnPosition == s.respawnPosition
    ensures r.hasController == s.hasController && r.controllerEnabled == s.controllerEnabled
  {
    if s.isDead then s
    else
      var actualHeal := Min(healAmount, Wrap32(s.maxHealth - s.currentHealth));
      var health := Wrap32(s.currentHealth + actualHeal);
      s.(currentHealth := health, events := s.events + [HealthChanged(health)])
  }

  /** The invincibility part of Update: count the timer down and close the window once it is used up. */
  function InvincibilityStep(s: HealthState, dt: real): HealthState {
    if s.isInvincible then
      var timer := s.invincibilityTimer - dt;
      s.(invincibilityTimer := timer, isInvincible := !(timer <= 0.0))
    else s
  }

  /** Whether Update kills a player by falling. */
  predicate FallsToDeath(s: HealthState) {
    s.position.y < FallDeathY && !s.isDead
  }

  /**
   * Update: the invincibility countdown, then the fall-death check, which
   * applies even inside the invincibility window.
   */
  function AfterUpdate(s: HealthState, dt: real): (r: HealthState)
    ensures s.isInvincible ==> r.invincibilityTimer == s.invincibilityTimer - dt
    ensures s.isInvincible ==> (r.isInvincible <==> s.invincibilityTimer - dt > 0.0)
    ensures !s.isInvincible ==> !r.isInvincible && r.invincibilityTimer == s.invincibilityTimer
    ensures FallsToDeath(s) ==> r.currentHealth == 0 && r.isDead
    ensures FallsToDeath(s) ==> r.events == s.events + [HealthChanged(0), Death]
    ensures !FallsToDeath(s) ==>
              r.currentHealth == s.currentHealth && r.isDead == s.isDead && r.events == s.events
    ensures r.maxHealth == s.maxHealth && r.invincibilityDuration == s.invincibilityDuration
    ensures r.position == s.position && r.respawnPosition == s.respawnPosition
    ensures r.hasController == s.hasController && r.controllerEnabled == s.controllerEnabled
  {
    var t := InvincibilityStep(s, dt);
    if t.position.y < FallDeathY && !t.isDead then
      AfterDie(t.(currentHealth := 0, events := t.events + [HealthChanged(0)]))
    else t
  }

  /**
   * Respawn: alive, full health, no invincibility, back at the respawn point,
   * controls re-enabled, and a health and a respawn notification.
   */
  function AfterRespawn(s: HealthState): (r: HealthState)
    ensures !r.isDead && r.currentHealth == s.maxHealth
    ensures !r.isInvincible && r.invincibilityTimer == 0.0
    ensures r.position == s.respawnPosition && r.respawnPosition == s.respawnPosition
    ensures r.hasController == s.hasController && (r.hasController ==> r.controllerEnabled)
    ensures !r.hasController ==> r.controllerEnabled == s.controllerEnabled
    ensures r.events == s.events + [HealthChanged(s.maxHealth), Respawned]
    ensures 0 < s.maxHealth ==> Consistent(r)
  {
    s.(isDead := false, currentHealth := s.maxHealth, isInvincible := false,
       invincibilityTimer := 0.0, position := s.respawnPosition,
       controllerEnabled := s.hasController || s.controllerEnabled,
       events := s.events + [HealthChanged(s.maxHealth), Respawned])
  }

  /** SetRespawnPoint: only the respawn point changes. */
  function AfterSetRespawnPoint(s: HealthState, p: Vec3): (r: HealthState)
    ensures r.respawnPosition == p
    ensures r.(respawnPosition := s.respawnPosition) == s
  {
    s.(respawnPosition := p)
  }

  /** A later respawn lands on the point set last. */
  lemma RespawnUsesLatestPoint(s: HealthState, p: Vec3, q: Vec3)
    ensures AfterRespawn(AfterSetRespawnPoint(AfterSetRespawnPoint(s, q), p)).position == p
  {
  }

  // ---------------------------------------------------------------------
  // Runs of operations
  // ---------------------------------------------------------------------

  /** What can happen to a player: the public operations, a frame, or the engine moving the transform. */
  datatype Op =
    | UpdateOp(dt: real)
    | DamageOp(damage: Int32)
    | HealOp(amount: Int32)
    | SetRespawnOp(point: Vec3)
    | RespawnOp
    | MoveOp(to: Vec3)

  function Apply(s: HealthState, op: Op): HealthState {
    match op
    case UpdateOp(dt) => AfterUpdate(s, dt)
    case DamageOp(d) => AfterTakeDamage(s, d)
    case HealOp(a) => AfterHeal(s, a)
    case SetRespawnOp(p) => AfterSetRespawnPoint(s, p)
    case RespawnOp => AfterRespawn(s)
    case MoveOp(p) => s.(position := p)
  }

  function Run(s: HealthState, ops: seq<Op>): HealthState
    decreases |ops|
  {
    if ops == [] then s else Run(Apply(s, ops[0]), ops[1..])
  }

  /** An operation with a non-negative amount, as the game's callers use them. */
  predicate NonNegative(op: Op) {
    match op
    case DamageOp(d) => 0 <= d
    case HealOp(a) => 0 <= a
    case _ => true
  }

  /** A frame broadcasts the death notification exactly when it kills the player by falling. */
  lemma UpdateDeathCount(s: HealthState, dt: real)
    ensures DeathCount(AfterUpdate(s, dt).events) == DeathCount(s.events) + (if FallsToDeath(s) then 1 else 0)
  {
    if FallsToDeath(s) {
      DeathCountAppend(s.events, [HealthChanged(0), Death]);
      assert DeathCount([HealthChanged(0), Death]) == 1 by {
        assert [HealthChanged(0), Death][..1] == [HealthChanged(0)];
      }
    }
  }

  /** A hit broadcasts the death notification exactly when it kills the player. */
  lemma DamageDeathCount(s: HealthState, damage: Int32)
    ensures var r := AfterTakeDamage(s, damage);
            DeathCount(r.events) == DeathCount(s.events) + (if !s.isDead && r.isDead then 1 else 0)
  {
    var r := AfterTakeDamage(s, damage);
    if Accepts(s) {
      var head := [HealthChanged(r.currentHealth), Damaged];
      var tail := if r.currentHealth == 0 then [Death] else [];
      assert r.events == s.events + (head + tail);
      DeathCountAppend(s.events, head + tail);
      DeathCountAppend(head, tail);
      assert DeathCount(head) == 0 by {
        assert head[..1] == [HealthChanged(r.currentHealth)];
      }
    }
  }

  /** Without a respawn, death is never undone, and the death notification accompanies the one transition. */
  lemma ApplyDeathStep(s: HealthState, op: Op)
    requires !op.RespawnOp?
    ensures s.isDead ==> Apply(s, op).isDead
    ensures DeathCount(Apply(s, op).events)
            == DeathCount(s.events) + (if !s.isDead && Apply(s, op).isDead then 1 else 0)
    ensures Apply(s, op).maxHealth == s.maxHealth
  {
    match op
    case UpdateOp(dt) => UpdateDeathCount(s, dt);
    case DamageOp(d) => DamageDeathCount(s, d);
    case HealOp(a) => DeathCountAppend(s.events, [HealthChanged(AfterHeal(s, a).currentHealth)]);
    case SetRespawnOp(p) =>
    case MoveOp(p) =>
  }

  /**
   * Death is entered at most once: over any run without a respawn, the death
   * notification is broadcast once if the player died during the run and
   * never otherwise, and a dead player stays dead.
   */
  lemma {:induction false} DeathFiresAtMostOnce(s: HealthState, ops: seq<Op>)
    requires forall i :: 0 <= i < |ops| ==> !ops[i].RespawnOp?
    ensures s.isDead ==> Run(s, ops).isDead
    ensures DeathCount(Run(s, ops).events)
            == DeathCount(s.events) + (if !s.isDead && Run(s, ops).isDead then 1 else 0)
    decreases |ops|
  {
    if ops != [] {
      ApplyDeathStep(s, ops[0]);
      DeathFiresAtMostOnce(Apply(s, ops[0]), ops[1..]);
    }
  }

  /** One operation keeps a dead player at zero health: nothing but a respawn touches a dead player's health. */
  lemma ApplyKeepsDeadAtZero(s: HealthState, op: Op)
    requires s.isDead ==> s.currentHealth == 0
    ensures Apply(s, op).isDead ==> Apply(s, op).currentHealth == 0
  {
  }

  /** Over any run, with any amounts, a dead player has zero health. */
  lemma {:induction false} DeadMeansZeroHealth(s: HealthState, ops: seq<Op>)
    requires s.isDead ==> s.currentHealth == 0
    ensures Run(s, ops).isDead ==> Run(s, ops).currentHealth == 0
    decreases |ops|
  {
    if ops != [] {
      ApplyKeepsDeadAtZero(s, ops[0]);
      DeadMeansZeroHealth(Apply(s, ops[0]), ops[1..]);
    }
  }

  /** One operation with a non-negative amount keeps a player consistent. */
  lemma ApplyPreservesConsistent(s: HealthState, op: Op)
    requires Consistent(s) && NonNegative(op)
    ensures Consistent(Apply(s, op)) && Apply(s, op).maxHealth == s.maxHealth
  {
  }

  /**
   * With non-negative amounts, health stays within 0..maxHealth and a player
   * is dead exactly when health is zero, whatever the order of operations.
   */
  lemma {:induction false} ConsistentRun(s: HealthState, ops: seq<Op>)
    requires Consistent(s)
    requires forall i :: 0 <= i < |ops| ==> NonNegative(ops[i])
    ensures Consistent(Run(s, ops)) && Run(s, ops).maxHealth == s.maxHealth
    decreases |ops|
  {
    if ops != [] {
      ApplyPreservesConsistent(s, ops[0]);
      ConsistentRun(Apply(s, ops[0]), ops[1..]);
    }
  }

  /** A hit that does not kill, followed by a heal of the maximum, restores full health. */
  lemma HealToFullAfterDamage(s: HealthState, damage: Int32)
    requires Consistent(s) && 0 <= damage
    ensures var t := AfterTakeDamage(s, damage);
            !t.isDead ==> AfterHeal(t, s.maxHealth).currentHealth == s.maxHealth
  {
  }

  /**
   * Four hits of 25 on a player with 100 health, each after the invincibility
   * window has run out: 75, 50, 25, then death with a single death notification.
   */
  lemma FourHitsKill(s: HealthState, dt: real)
    requires s.maxHealth == 100 && s.currentHealth == 100 && Accepts(s)
    requires s.position.y >= FallDeathY && dt >= s.invincibilityDuration
    ensures var s1 := AfterTakeDamage(s, 25);
            var s2 := AfterTakeDamage(AfterUpdate(s1, dt), 25);
            var s3 := AfterTakeDamage(AfterUpdate(s2, dt), 25);
            var s4 := AfterTakeDamage(AfterUpdate(s3, dt), 25);
            && s3.currentHealth == 25 && !s3.isDead
            && s4.currentHealth == 0 && s4.isDead
            && DeathCount(s4.events) == DeathCount(s.events) + 1
  {
    var s1 := AfterTakeDamage(s, 25);
    var s2 := AfterTakeDamage(AfterUpdate(s1, dt), 25);
    var s3 := AfterTakeDamage(AfterUpdate(s2, dt), 25);
    var s4 := AfterTakeDamage(AfterUpdate(s3, dt), 25);
    assert s1.currentHealth == 75;
    assert s2.currentHealth == 50;
    assert s3.currentHealth == 25;
    DeathFiresAtMostOnce(s, [DamageOp(25), UpdateOp(dt), DamageOp(25), UpdateOp(dt),
                             DamageOp(25), UpdateOp(dt), DamageOp(25)]);
    ghost var ops := [DamageOp(25), UpdateOp(dt), DamageOp(25), UpdateOp(dt),
                      DamageOp(25), UpdateOp(dt), DamageOp(25)];
    assert Run(s, ops) == Run(s1, ops[1..]);
    assert Run(s1, ops[1..]) == Run(AfterUpdate(s1, dt), ops[2..]);
    assert Run(AfterUpdate(s1, dt), ops[2..]) == Run(s2, ops[3..]);
    assert Run(s2, ops[3..]) == Run(AfterUpdate(s2, dt), ops[4..]);
    assert Run(AfterUpdate(s2, dt), ops[4..]) == Run(s3, ops[5..]);
    assert Run(s3, ops[5..]) == Run(AfterUpdate(s3, dt), ops[6..]);
    assert Run(AfterUpdate(s3, dt), ops[6..]) == Run(s4, ops[7..]);
  }

  // ---------------------------------------------------------------------
  // The script
  // ---------------------------------------------------------------------

  class HealthSystem {
    var maxHealth: Int32
    var currentHealth: Int32
    var invincibilityDuration: real
    var isInvincible: bool
    var invincibilityTimer: real
    var isDead: bool
    /** transform.position, which the physics engine moves between frames. */
    var position: Vec3
    var respawnPosition: Vec3
    /** Whether a PlayerController sits on the same object, and whether it is enabled. */
    var hasController: bool
    var controllerEnabled: bool
    /** The notifications broadcast so far. */
    var events: seq<Event>

    ghost function State(): HealthState
      reads this
    {
      HealthState(maxHealth, currentHealth, invincibilityDuration, isInvincible, invincibilityTimer,
                  isDead, position, respawnPosition, hasController, controllerEnabled, events)
    }

    /** The script as placed in the scene, before Start runs. */
    constructor (maxHealth: Int32, currentHealth: Int32, invincibilityDuration: real, position: Vec3,
                 respawnPosition: Vec3, hasController: bool, controllerEnabled: bool)
      ensures State() == Placed(maxHealth, currentHealth, invincibilityDuration, position,
                                respawnPosition, hasController, controllerEnabled)
    {
      this.maxHealth := maxHealth;
      this.currentHealth := currentHealth;
      this.invincibilityDuration := invincibilityDuration;
      isInvincible := false;
      invincibilityTimer := 0.0;
      isDead := false;
      this.position := position;
      this.respawnPosition := respawnPosition;
      this.hasController := hasController;
      this.controllerEnabled := controllerEnabled;
      events := [];
    }

    method Start()
      modifies this
      ensures State() == AfterStart(old(State()))
    {
      currentHealth := maxHealth;
      if respawnPosition == Zero3 {
        respawnPosition := position;
      }
      events := events + [HealthChanged(currentHealth)];
    }

    method Update(dt: real)
      modifies this
      ensures State() == AfterUpdate(old(State()), dt)
    {
      if isInvincible {
        invincibilityTimer := invincibilityTimer - dt;
        if invincibilityTimer <= 0.0 {
          isInvincible := false;
        }
      }
      ghost var t := InvincibilityStep(old(State()), dt);
      assert State() == t;
      if position.y < FallDeathY && !isDead {
        currentHealth := 0;
        events := events + [HealthChanged(currentHealth)];
        assert State() == t.(currentHealth := 0, events := t.events + [HealthChanged(0)]);
        Die();
      }
    }

    method TakeDamage(damage: Int32)
      modifies this
      ensures State() == AfterTakeDamage(old(State()), damage)
    {
      if isDead || isInvincible {
        return;
      }
      var actualDamage := Min(damage, currentHealth);
      currentHealth := Wrap32(currentHealth - actualDamage);
      currentHealth := Max(currentHealth, 0);
      events := events + [HealthChanged(currentHealth), Damaged];
      StartInvincibility();
      if currentHealth <= 0 {
        Die();
      }
    }

    method Heal(healAmount: Int32)
      modifies this
      ensures State() == AfterHeal(old(State()), healAmount)
    {
      if isDead {
        return;
      }
      var actualHeal := Min(healAmount, Wrap32(maxHealth - currentHealth));
      currentHealth := Wrap32(currentHealth + actualHeal);
      events := events + [HealthChanged(currentHealth)];
    }

    method StartInvincibility()
      modifies this`isInvincible, this`invincibilityTimer
      ensures State() == AfterStartInvincibility(old(State()))
    {
      isInvincible := true;
      invincibilityTimer := invincibilityDuration;
    }

    method Die()
      modifies this`isDead, this`events
      ensures State() == AfterDie(old(State()))
    {
      if isDead {
        return;
      }
      isDead := true;
      events := events + [Death];
    }

    method Respawn()
      modifies this
      ensures State() == AfterRespawn(old(State()))
    {
      isDead := false;
      currentHealth := maxHealth;
      isInvincible := false;
      invincibilityTimer := 0.0;
      position := respawnPosition;
      if hasController {
        controllerEnabled := true;
      }
      events := events + [HealthChanged(currentHealth), Respawned];
    }

    method SetRespawnPoint(newRespawnPosition: Vec3)
      modifies this
      ensures State() == AfterSetRespawnPoint(old(State()), newRespawnPosition)
    {
      respawnPosition := newRespawnPosition;
    }

    method IsDead() returns (dead: bool)
      ensures dead <==> State().isDead
    {
      dead := isDead;
    }

    method IsInvincible() returns (invincible: bool)
      ensures invincible <==> State().isInvincible
    {
      invincible := isInvincible;
    }
  }
}
