# Players, bullets and the game-over latch of a Unity 2D shooter, in Dafny

This project models the gameplay scripts of a two-player 2D platform
shooter built in Unity, and proves properties of that model:

- **Health** (`health_system.dfy`): the health script of a player. It covers
  integer health with clamped damage and healing, a short invincibility window
  after every accepted hit, and death by damage or by falling below y = -10.
  Death is entered at most once, and `Respawn` resets health, death,
  invincibility and position. The notifications the script broadcasts
  (OnHealthChanged, OnDamaged, OnDeath, OnRespawn) are kept as an append-only
  log, so "fires at most once" is a statement about that log.
- **Locomotion** (`player_controller.dfy`): the movement script. It has a jump
  counter capped by the real-valued `maxJumps` (0.5 by default) and reset on
  solid ground contact. Horizontal velocity comes from the A and D keys. A
  timed phasing mode disables the collider and sets the sprite's alpha to 0.5.
- **BulletRouting** (`bullet_collision.dfy`): what a bullet's contact does. A
  contact with its shooter is ignored. A contact with a Player- or Wall-tagged
  object destroys the bullet. Anything else leaves it flying. The trigger and
  collision handlers are proved to agree.
- **MatchEnd** (`game_over.dfy`): the one-way game-over latch. When either
  tracked player's health is at or below zero, it freezes the time scale and
  shows the game-over screen.
- **Shooting** (`player2_bullet.dfy`): player 2's gun. It covers the fire-rate
  cooldown, the facing toggle, the null guards of a shot, the shooter mark on
  a spawned bullet, and the sign of its direction.
- **Common** (`common.dfy`): optional references, Unity vectors (float
  components as `real`), and C#'s 32-bit `int` with its unchecked wrap-around.

Each script that changes fields in place is a `class` with the script's
fields. Its methods are proved to perform a pure step function (`AfterX`) on a
snapshot datatype. The properties of the scripts are proved about these step
functions and about runs of them (`Run` over a sequence of operations or
frames). Engine inputs are parameters of the per-frame methods: raycast hits,
key presses, `Time.deltaTime`, `Time.time`, and the rigidbody's velocity,
which the physics engine also rewrites between frames (the `Physics` step).

Two behaviours of the code are easy to misread; the model follows the code:

- **Jump cap.** The counter is compared as a float (`currentJumps < maxJumps`)
  and then incremented. A cap of 0.5 therefore allows one jump, and in general
  the count stays at most max(0, ⌈`maxJumps`⌉): for a positive cap that is the
  smallest integer not below `maxJumps`, and a cap of 0 or below
  allows no jump (`Locomotion.JumpBound`, `Locomotion.DefaultCapAllowsOneJump`).
- **Bullet damage.** A bullet hitting a player destroys the bullet and applies
  no damage; the damage is an unwritten TODO in the code.

## Model

| member | source | states |
|---|---|---|
| `Common.Wrap32` | Assets/Script/player/HealthSystem.cs:92 | C#'s unchecked int arithmetic: the result is the Int32 congruent to the exact value modulo 2^32, and the exact value itself when in range |
| `Health.DeathCountAppend` | Assets/Script/player/HealthSystem.cs:196-197 | death notifications of a concatenated log add up |
| `Health.AfterStart` | Assets/Script/player/HealthSystem.cs:35-56 | Start sets full health; the respawn point defaults to the current position only when it is the zero vector; one health notification; a player with positive maximum who is alive is then consistent |
| `Health.AfterStartInvincibility` | Assets/Script/player/HealthSystem.cs:134-139 | invincible, with the timer at `invincibilityDuration` |
| `Health.AfterDie` | Assets/Script/player/HealthSystem.cs:186-201 | Die is idempotent: a dead player is unchanged; otherwise dead with exactly one more death notification; health and invincibility untouched |
| `Health.AfterTakeDamage` | Assets/Script/player/HealthSystem.cs:82-114 | no change at all when dead or invincible; otherwise invincible with a full timer, health never negative, equal to max(health - damage, 0) for non-negative damage and health, dead exactly at zero health, notifications HealthChanged, Damaged, then Death only when health reached zero; settings and position untouched |
| `Health.AfterHeal` | Assets/Script/player/HealthSystem.cs:117-131 | no change when dead; otherwise min(health + amount, max) for a non-negative amount and in-bounds health, between old health and the maximum; one health notification; never kills, never touches invincibility |
| `Health.AfterUpdate` | Assets/Script/player/HealthSystem.cs:58-79 | the invincibility timer drops by dt while invincible and the window stays open exactly while time is left; fall death below y = -10 gives zero health, dead, and notifications HealthChanged(0), Death, even inside the window; otherwise health, death and log unchanged (the countdown is the helper `InvincibilityStep`) |
| `Health.AfterRespawn` | Assets/Script/player/HealthSystem.cs:214-243 | alive at full health, not invincible, timer 0, at the respawn point, controller re-enabled when present, health and respawn notifications; consistent when the maximum is positive |
| `Health.AfterSetRespawnPoint` | Assets/Script/player/HealthSystem.cs:246-250 | only the respawn point changes |
| `Health.RespawnUsesLatestPoint` | Assets/Script/player/HealthSystem.cs:225 | a respawn lands on the point set last |
| `Health.UpdateDeathCount` | Assets/Script/player/HealthSystem.cs:72-78 | a frame adds a death notification exactly when the player falls to death |
| `Health.DamageDeathCount` | Assets/Script/player/HealthSystem.cs:100-113 | a hit adds a death notification exactly when it kills |
| `Health.ApplyDeathStep` | Assets/Script/player/HealthSystem.cs:186-197 | any operation but a respawn keeps a dead player dead and adds a death notification exactly on the alive-to-dead transition |
| `Health.DeathFiresAtMostOnce` | Assets/Script/player/HealthSystem.cs:188-197 | over any run without a respawn, the death notification is broadcast once if the player died during the run and never otherwise, and death is never undone |
| `Health.ApplyKeepsDeadAtZero` | Assets/Script/player/HealthSystem.cs:85-88 | no operation leaves a dead player with non-zero health |
| `Health.DeadMeansZeroHealth` | Assets/Script/player/HealthSystem.cs:72-125 | over any run with any amounts, a dead player has zero health |
| `Health.ApplyPreservesConsistent` | Assets/Script/player/HealthSystem.cs:91-125 | an operation with a non-negative amount keeps 0 <= health <= max and dead exactly at zero |
| `Health.ConsistentRun` | Assets/Script/player/HealthSystem.cs:58-243 | the same bounds and the dead-iff-zero invariant hold over any run of non-negative operations, respawns and falls included |
| `Health.HealToFullAfterDamage` | Assets/Script/player/HealthSystem.cs:91-125 | a hit that does not kill, followed by a heal of the maximum, restores full health |
| `Health.FourHitsKill` | Assets/Script/player/HealthSystem.cs:82-114 | from 100 health, four hits of 25 spaced past the invincibility window leave 75, 50, 25, then death with one death notification |
| `Health.HealthSystem.constructor` | Assets/Script/player/HealthSystem.cs:9-33 | the placed script: not dead, not invincible, timer 0, empty log |
| `Health.HealthSystem.Start` | Assets/Script/player/HealthSystem.cs:35-56 | performs `AfterStart` |
| `Health.HealthSystem.Update` | Assets/Script/player/HealthSystem.cs:58-79 | performs `AfterUpdate` |
| `Health.HealthSystem.TakeDamage` | Assets/Script/player/HealthSystem.cs:82-114 | performs `AfterTakeDamage` |
| `Health.HealthSystem.Heal` | Assets/Script/player/HealthSystem.cs:117-131 | performs `AfterHeal` |
| `Health.HealthSystem.StartInvincibility` | Assets/Script/player/HealthSystem.cs:134-139 | performs `AfterStartInvincibility`, changing only the two invincibility fields |
| `Health.HealthSystem.Die` | Assets/Script/player/HealthSystem.cs:186-201 | performs `AfterDie`, changing only the death flag and the log |
| `Health.HealthSystem.Respawn` | Assets/Script/player/HealthSystem.cs:214-243 | performs `AfterRespawn` |
| `Health.HealthSystem.SetRespawnPoint` | Assets/Script/player/HealthSystem.cs:246-250 | performs `AfterSetRespawnPoint` |
| `Health.HealthSystem.IsDead` | Assets/Script/player/HealthSystem.cs:259-262 | returns exactly the death flag |
| `Health.HealthSystem.IsInvincible` | Assets/Script/player/HealthSystem.cs:265-268 | returns exactly the invincibility flag |
| `Locomotion.HorizontalInput` | Assets/Script/player/PlayerController.cs:97-106 | the axis is -1, 0 or 1; negative exactly when A is held; positive exactly when D is held without A, so A wins |
| `Locomotion.HorizontalSpeed` | Assets/Script/player/PlayerController.cs:108-111 | the x velocity is -movespeed with A, +movespeed with D alone, 0 with neither |
| `Locomotion.AfterJump` | Assets/Script/player/PlayerController.cs:120-132 | the counter rises by exactly 1, with the vertical velocity cleared, iff the count is below `maxJumps` as a float and a rigidbody exists; otherwise nothing changes |
| `Locomotion.AfterStartPhasing` | Assets/Script/player/PlayerController.cs:134-155 | phasing with the timer at `phaseDuration`; collider disabled and alpha 0.5 when those components exist |
| `Locomotion.AfterStopPhasing` | Assets/Script/player/PlayerController.cs:157-176 | not phasing, timer 0; collider enabled and original alpha restored when those components exist |
| `Locomotion.PhaseCountdown` | Assets/Script/player/PlayerController.cs:62-70 | while phasing the timer drops by dt, and StopPhasing runs once it is at or below 0 |
| `Locomotion.PhaseAfterFrame` | Assets/Script/player/PlayerController.cs:62-85 | phasing after a frame iff the countdown kept it, or S was pressed grounded and not phasing, or the head probe hit while not phasing with a rigidbody and vertical velocity above `minPhaseVelocity`; timers accordingly; preserves the collider-iff-not-phasing invariant |
| `Locomotion.AfterUpdate` | Assets/Script/player/PlayerController.cs:51-118 | a frame: probes stored, settings unchanged, phasing by `PhaseAfterFrame`, the counter reset on ground contact when not phasing, horizontal velocity set with vertical preserved, then the jump rule applied to the reset counter (the state before the jump key is the helper `BeforeJump`, built from `JumpsAfterReset` and `MovedVelocity`) |
| `Locomotion.GroundContactResetsJumps` | Assets/Script/player/PlayerController.cs:91-95 | after a grounded frame that leaves the player solid, the counter is 0, or 1 when the jump key was pressed and a jump is allowed |
| `Locomotion.NoResetWithoutGround` | Assets/Script/player/PlayerController.cs:91-95 | in the air or while phasing the counter is not reset; only the jump rule changes it |
| `Locomotion.UpdateKeepsJumpBound` | Assets/Script/player/PlayerController.cs:120-129 | a frame keeps every counted jump justified by the cap |
| `Locomotion.Apply` | Assets/Script/player/PlayerController.cs:51-118 | neither frames nor the physics engine change the settings |
| `Locomotion.PhaseConsistentRun` | Assets/Script/player/PlayerController.cs:134-176 | over any run, the collider is enabled exactly when not phasing, the alpha follows the phasing state under the movement script's own writes, and an idle timer is 0 |
| `Locomotion.JumpBoundRun` | Assets/Script/player/PlayerController.cs:120-132 | over any run, the jump count stays at most max(0, ⌈`maxJumps`⌉) |
| `Locomotion.DefaultCapAllowsOneJump` | Assets/Script/player/PlayerController.cs:13-14 | with the default cap 0.5 the count never exceeds 1, and a jump is allowed exactly when none has been made |
| `Locomotion.PhaseEndsAfterTimer` | Assets/Script/player/PlayerController.cs:62-70 | over frames that start no new phasing, the player is still phasing at the end iff less time has elapsed than was left on the timer, and afterwards the collider is back on |
| `Locomotion.PlayerController.constructor` | Assets/Script/player/PlayerController.cs:38-49 | after Start: the components found, the original alpha remembered, collider enabled, not phasing, no jumps, and both invariants hold |
| `Locomotion.PlayerController.Update` | Assets/Script/player/PlayerController.cs:51-118 | performs `AfterUpdate` |
| `Locomotion.PlayerController.Move` | Assets/Script/player/PlayerController.cs:54-111 | the frame up to the jump key: probes, phasing, counter reset (`JumpsAfterReset`), horizontal velocity (`MovedVelocity`) |
| `Locomotion.PlayerController.UpdatePhasing` | Assets/Script/player/PlayerController.cs:62-85 | performs `PhaseAfterFrame` on the phasing fields only |
| `Locomotion.PlayerController.MoveHorizontally` | Assets/Script/player/PlayerController.cs:97-111 | sets the x velocity from the keys and keeps the y velocity, when a rigidbody exists |
| `Locomotion.PlayerController.Jump` | Assets/Script/player/PlayerController.cs:120-132 | performs `AfterJump`, changing only the velocity and the counter |
| `Locomotion.PlayerController.StartPhasing` | Assets/Script/player/PlayerController.cs:134-155 | performs `AfterStartPhasing` on the phasing fields only |
| `Locomotion.PlayerController.StopPhasing` | Assets/Script/player/PlayerController.cs:157-176 | performs `AfterStopPhasing` on the phasing fields only |
| `BulletRouting.DestroyCalls` | Assets/Script/bullet/BulletCollision.cs:17-33 | the two independent tag checks destroy the bullet at most once, and exactly once for a Player or Wall tag |
| `BulletRouting.OnTriggerEnter2D` | Assets/Script/bullet/BulletCollision.cs:7-34 | Ignore iff the other object is the recorded shooter; DestroyBullet iff not the shooter and tagged Player or Wall; NoEffect iff not the shooter and any other tag (the tag checks are the helper `AfterTagChecks`) |
| `BulletRouting.OnCollisionEnter2D` | Assets/Script/bullet/BulletCollision.cs:37-66 | on the collision's collider, the same outcome as the trigger handler for every input |
| `BulletRouting.ShooterCheckPrecedesTags` | Assets/Script/bullet/BulletCollision.cs:10-17 | the shooter never destroys its own bullet, whatever its tag, Player included, in both handlers |
| `BulletRouting.UnmarkedBulletHitsAnyPlayer` | Assets/Script/bullet/BulletCollision.cs:5-26 | with no shooter recorded, every Player contact destroys the bullet |
| `BulletRouting.FirstDestroying` | Assets/Script/bullet/BulletCollision.cs:7-34 | over a bullet's contacts, the first that destroys it; none exactly when no contact is a non-shooter Player or Wall |
| `BulletRouting.SurvivesHarmlessContacts` | Assets/Script/bullet/BulletCollision.cs:7-34 | shooter contacts and other tags never destroy a bullet |
| `MatchEnd.AfterStart` | Assets/Script/player/GameOver.cs:11-17 | the screen is inactive after Start when there is one; nothing else changes |
| `MatchEnd.AfterCheck` | Assets/Script/player/GameOver.cs:27-36 | if some player's health is at most 0: latched, time scale 0, screen active when present; otherwise nothing changes |
| `MatchEnd.AfterUpdate` | Assets/Script/player/GameOver.cs:18-25 | Update's guard as written (the helper `CallsCheck`) holds iff the latch is open and some player is down; a closed latch makes Update a no-op; latched afterwards iff latched before or some player down; any change freezes time |
| `MatchEnd.LatchFiresOnce` | Assets/Script/player/GameOver.cs:18-36 | over any readings: a closed latch never reopens and calls nothing; from an open latch the check is called at most once, exactly when some reading has a player down, and the game then ends with time frozen |
| `MatchEnd.BothDownOnSameFrame` | Assets/Script/player/GameOver.cs:20-31 | both players down on one frame: exactly one check call and the game ends |
| `MatchEnd.DeathEndsMatch` | Assets/Script/player/GameOver.cs:20-23 | a consistent dead player, on either side, ends the game on the next Update |
| `MatchEnd.GameOver.constructor` | Assets/Script/player/GameOver.cs:7-10 | the latch is open and time runs at normal speed |
| `MatchEnd.GameOver.Start` | Assets/Script/player/GameOver.cs:11-17 | performs `AfterStart`, touching only the screen |
| `MatchEnd.GameOver.Update` | Assets/Script/player/GameOver.cs:18-25 | performs `AfterUpdate` on the players' current health; reports a fault iff it calls the check with no screen assigned |
| `MatchEnd.GameOver.GameOverCheck` | Assets/Script/player/GameOver.cs:27-36 | performs `AfterCheck`; reports a null-reference fault iff a player is down and no screen is assigned |
| `Shooting.Direction` | Assets/Script/bullet/Player2Bullet.cs:103 | the fire point's right axis when facing right, its negation otherwise |
| `Shooting.SpawnedBullet` | Assets/Script/bullet/Player2Bullet.cs:74-133 | the bullet sits at the fire point; a routing component records the gun's object, and a bullet without one gets none; a 2D body gets the planar direction times `bullspeed`, and a 3D body the full direction; the lifetime is `lifeTime` |
| `Shooting.Shot` | Assets/Script/bullet/Player2Bullet.cs:59-139 | stops at a missing prefab, then at a missing fire point; spawns exactly when both are present |
| `Shooting.AfterShoot` | Assets/Script/bullet/Player2Bullet.cs:59-139 | one bullet is appended exactly when the shot spawns; earlier bullets, the cooldown and the facing are untouched |
| `Shooting.Facing` | Assets/Script/bullet/Player2Bullet.cs:46-56 | the right arrow sets facing right and wins over the left arrow, the left arrow alone sets facing left, and with neither key the facing is kept |
| `Shooting.AfterUpdate` | Assets/Script/bullet/Player2Bullet.cs:37-57 | a shot is attempted iff fire is pressed and the time has reached `nextFireTime`; an attempt restarts the cooldown at time + fireRate even when the shot stopped early; the shot uses the facing from before the frame's arrow keys |
| `Shooting.ShotsAreSpaced` | Assets/Script/bullet/Player2Bullet.cs:40-43 | with a non-negative fire rate, every attempt is no earlier than the first cooldown end, and any two attempts are at least `fireRate` apart, for any sequence of clock readings |
| `Shooting.MissingReferenceSpawnsNothing` | Assets/Script/bullet/Player2Bullet.cs:62-72 | with no prefab or no fire point, no run spawns anything |
| `Shooting.EveryAttemptSpawns` | Assets/Script/bullet/Player2Bullet.cs:40-43 | with both references present, a run spawns exactly one bullet per attempt |
| `Shooting.OwnBulletIgnoresShooter` | Assets/Script/bullet/Player2Bullet.cs:85-91 | a spawned bullet with a routing component ignores every contact with its own gun's object, in both handlers |
| `Shooting.TurnAppliesAfterShot` | Assets/Script/bullet/Player2Bullet.cs:37-57 | turning left and firing on one frame sends the bullet right, and the gun then faces left |
| `Shooting.Player2Bullet.constructor` | Assets/Script/bullet/Player2Bullet.cs:8-14 | the cooldown is over at time 0, the gun faces right, nothing has been spawned |
| `Shooting.Player2Bullet.Update` | Assets/Script/bullet/Player2Bullet.cs:37-57 | performs `AfterUpdate` |
| `Shooting.Player2Bullet.Shoot` | Assets/Script/bullet/Player2Bullet.cs:59-139 | returns `Shot` for the gun's facing and performs `AfterShoot` |

## Left out

- Unity physics is not modelled: the two raycasts, the jump impulse `AddForce(up * 5)` and the drag and gravity settings of the bullet's body. Probe hits are inputs of a frame, and the velocity the engine produces becomes a `Physics` step of the run.
- Rendering: sprite colours, the damage flash coroutine and `Debug.DrawRay`. Only the collider-enabled flag and the sprite's alpha are kept, as fields.
- Engine object lifecycle: `Instantiate` is modelled by the bullet it produces: its position is kept, and the fire point's rotation it also copies is dropped, since nothing in the scripts reads it; the null check of its result is left out because it never returns null. `Destroy(bullet, lifeTime)` is left out beyond the recorded lifetime, as are `GetComponent`, `AddComponent` (a bullet without a 2D body gets a 3D one either way), and `SetActive` beyond the screen's active flag.
- Die's `Destroy(gameObject)`: the engine removes a dead player's object at the end of the frame, so no later operation reaches it. The model keeps the state and lets any operation follow, which covers more runs than the game can produce; the respawn reset is modelled because `Respawn` is public.
- `Debug.Log` and `Debug.LogError` messages, and therefore `CheckComponents`, which only logs.
- The `try`/`catch` around spawning: it only turns engine exceptions into a log line.
- `GetHealthPercentage`: float division with no state change.
- `RespawnCoroutine`: nothing starts it, and its delay is coroutine timing.
- The `damageSource` parameter of `TakeDamage`, which is never used.
- The unused networking import of the movement script.
- Floats are modelled as exact reals: rounding, NaN and infinities are not captured. Unity's approximate `Vector3 ==` in Start's zero-vector test is modelled as exact equality.
- The movement script's jump counter is an unbounded integer. For any cap below 2^31 its 32-bit overflow is unreachable, because the cap stops it first; with a larger cap, more than 2^31 jumps in the air would wrap the C# counter, which the model does not capture.
- The two players tracked by the game-over script, and the ground and head probe transforms of the movement script (`groundCheck`, `headCheck`, PlayerController.cs:55, 59), are assumed assigned; a missing prefab or fire point in the gun script is modelled. A missing player reference would raise a null-reference fault that is not modelled. The missing game-over screen is modelled, as a reported fault.
- The collider is assumed enabled when the movement script starts.
- `Time.timeScale` is a single engine-wide value; here it is a field of the game-over script, starting at Unity's default of 1.
- Concurrency and frame order between scripts: each script's methods run one at a time, and cross-script interaction appears only through the values passed in (the health values the game-over script reads, the bullet's recorded shooter), with the one exception of the shared sprite below.
- Locomotion.PhaseConsistentRun: the alpha part of the invariant covers only the movement script's own writes. The health script sits on the same object and writes the same sprite: its damage flash sets the colour to red (alpha 1) and then back to its own original colour, and `Respawn` restores that colour too. So a hit taken while phasing leaves a phasing player opaque. The model keeps one alpha field per script and does not capture this shared write.
