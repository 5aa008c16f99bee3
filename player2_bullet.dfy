/**
 * Player 2's gun: the left mouse button fires when the cooldown has run out,
 * the arrow keys turn the gun, and a shot checks its references, marks the
 * bullet with its shooter and sends it along the fire point's right axis or
 * against it.
 *
 * Instantiation is modelled by the bullet it produces: its position, its
 * routing component, its body, its velocity and its lifetime. `Time.time`
 * and the key presses are inputs of a frame.
 */
module Shooting {
  import opened Common
  import BulletRouting

  /** The bullet's BulletCollision component, if the prefab has one, with the shooter it records. */
  datatype Router = NoRouter | Router(shooter: Option<ObjectId>)

  /** The bullet prefab: its routing component, and whether it has a Rigidbody2D. */
  datatype Prefab = Prefab(router: Router, has2DBody: bool)

  /** The fire point transform: its position and its right axis. */
  datatype FirePoint = FirePoint(position: Vec3, right: Vec3)

  /** The physics body that carries the bullet: the prefab's Rigidbody2D, or a 3D Rigidbody. */
  datatype Body = Body2D | Body3D

  /** A bullet the gun has spawned. */
  datatype Bullet = Bullet(position: Vec3, router: Router, body: Body, velocity: Vec3, lifeTime: real)

  /** What Shoot does: stop at a missing reference, or spawn a bullet. */
  datatype ShotResult = MissingPrefab | MissingFirePoint | Spawned(bullet: Bullet)

  /** The settings and references of the gun, which no operation changes. */
  datatype Gun = Gun(
    self: ObjectId,
    bulletPrefab: Option<Prefab>,
    firePoint: Option<FirePoint>,
    bullspeed: real,
    lifeTime: real,
    fireRate: real)

  /** A snapshot of the gun: its settings, the cooldown, the facing and the bullets spawned so far. */
  datatype GunState = GunState(gun: Gun, nextFireTime: real, facingRight: bool, spawned: seq<Bullet>)

  /** The key presses of one frame. */
  datatype Keys = Keys(fireDown: bool, leftDown: bool, rightDown: bool)

  /** The shot direction: the fire point's right axis when facing right, its negation otherwise. */
  function Direction(facingRight: bool, right: Vec3): (d: Vec3)
    ensures facingRight ==> d == right
    ensures !facingRight ==> d == Neg(right) && Neg(d) == right
  {
    if facingRight then right else Neg(right)
  }

  /** The conversion of a Vector3 to a Vector2 and back: the z component is dropped. */
  function Planar(v: Vec3): Vec3 {
    Vec3(v.x, v.y, 0.0)
  }

  /** The bullet Shoot spawns once both references are present. */
  function SpawnedBullet(g: Gun, prefab: Prefab, fp: FirePoint, facingRight: bool): (b: Bullet)
    ensures b.position == fp.position && b.lifeTime == g.lifeTime
    ensures prefab.router.Router? <==> b.router == Router(Some(g.self))
    ensures prefab.router.NoRouter? ==> b.router == NoRouter
    ensures b.body == (if prefab.has2DBody then Body2D else Body3D)
    ensures var v := Scale(Direction(facingRight, fp.right), g.bullspeed);
            b.velocity == (if prefab.has2DBody then Planar(v) else v)
  {
    var router := if prefab.router.Router? then Router(Some(g.self)) else NoRouter;
    var direction := Direction(facingRight, fp.right);
    if prefab.has2DBody then
      Bullet(fp.position, router, Body2D, Planar(Scale(direction, g.bullspeed)), g.lifeTime)
    else
      Bullet(fp.position, router, Body3D, Scale(direction, g.bullspeed), g.lifeTime)
  }

  /** Shoot: the prefab check, then the fire point check, then the spawn. */
  function Shot(g: Gun, facingRight: bool): (r: ShotResult)
    ensures r == MissingPrefab <==> g.bulletPrefab.None?
    ensures r == MissingFirePoint <==> g.bulletPrefab.Some? && g.firePoint.None?
    ensures r.Spawned? <==> g.bulletPrefab.Some? && g.firePoint.Some?
    ensures r.Spawned? ==> r.bullet.position == g.firePoint.value.position
  {
    match (g.bulletPrefab, g.firePoint)
    case (None, _) => MissingPrefab
    case (Some(_), None) => MissingFirePoint
    case (Some(prefab), Some(fp)) => Spawned(SpawnedBullet(g, prefab, fp, facingRight))
  }

  /** The bullets after a shot: one more when it spawned, the same otherwise. */
  function AfterShoot(s: GunState): (r: GunState)
    ensures r.gun == s.gun && r.nextFireTime == s.nextFireTime && r.facingRight == s.facingRight
    ensures |r.spawned| == |s.spawned| + (if Shot(s.gun, s.facingRight).Spawned? then 1 else 0)
    ensures r.spawned[..|s.spawned|] == s.spawned
    ensures Shot(s.gun, s.facingRight).Spawned? ==> r.spawned[|s.spawned|] == Shot(s.gun, s.facingRight).bullet
  {
    match Shot(s.gun, s.facingRight)
    case Spawned(b) => s.(spawned := s.spawned + [b])
    case _ => s
  }

  /** Whether a frame attempts a shot: fire pressed with the cooldown over. */
  predicate Attempts(s: GunState, keys: Keys, time: real) {
    keys.fireDown && time >= s.nextFireTime
  }

  /** The facing after a frame's arrow keys: the right arrow is tested last and wins. */
  function Facing(facingRight: bool, keys: Keys): (r: bool)
    ensures keys.rightDown ==> r
    ensures keys.leftDown && !keys.rightDown ==> !r
    ensures !keys.leftDown && !keys.rightDown ==> r == facingRight
  {
    var afterLeft := if keys.leftDown then false else facingRight;
    if keys.rightDown then true else afterLeft
  }

  /**
   * Update: an attempted shot, with the cooldown restarted whether or not it
   * spawned, then the turn keys. The shot uses the facing from before the
   * frame's keys.
   */
  function AfterUpdate(s: GunState, keys: Keys, time: real): (r: GunState)
    ensures r.gun == s.gun
    ensures r.nextFireTime == (if Attempts(s, keys, time) then time + s.gun.fireRate else s.nextFireTime)
    ensures r.facingRight == Facing(s.facingRight, keys)
    ensures r.spawned == s.spawned + (if Attempts(s, keys, time) && Shot(s.gun, s.facingRight).Spawned?
                                      then [Shot(s.gun, s.facingRight).bullet] else [])
  {
    var shot := if Attempts(s, keys, time) then AfterShoot(s).(nextFireTime := time + s.gun.fireRate) else s;
    shot.(facingRight := Facing(s.facingRight, keys))
  }

  /** A frame: its key presses and `Time.time`. */
  datatype Tick = Tick(keys: Keys, time: real)

  function Run(s: GunState, ticks: seq<Tick>): GunState
    decreases |ticks|
  {
    if ticks == [] then s else Run(AfterUpdate(s, ticks[0].keys, ticks[0].time), ticks[1..])
  }

  /** The times of the frames that attempt a shot. */
  function AttemptTimes(s: GunState, ticks: seq<Tick>): seq<real>
    decreases |ticks|
  {
    if ticks == [] then []
    else (if Attempts(s, ticks[0].keys, ticks[0].time) then [ticks[0].time] else [])
         + AttemptTimes(AfterUpdate(s, ticks[0].keys, ticks[0].time), ticks[1..])
  }

  /**
   * The cooldown spaces the shots: with a non-negative fire rate, every
   * attempt comes no earlier than the cooldown's end at the start, and each
   * one at least `fireRate` after every earlier one, however the clock is fed.
   */
  lemma {:induction false} ShotsAreSpaced(s: GunState, ticks: seq<Tick>)
    requires s.gun.fireRate >= 0.0
    ensures Run(s, ticks).nextFireTime >= s.nextFireTime
    ensures forall i :: 0 <= i < |AttemptTimes(s, ticks)| ==> AttemptTimes(s, ticks)[i] >= s.nextFireTime
    ensures forall i :: 0 <= i < |AttemptTimes(s, ticks)| ==> Run(s, ticks).nextFireTime >= AttemptTimes(s, ticks)[i] + s.gun.fireRate
    ensures forall i, j :: 0 <= i < j < |AttemptTimes(s, ticks)| ==>
              AttemptTimes(s, ticks)[j] >= AttemptTimes(s, ticks)[i] + s.gun.fireRate
    decreases |ticks|
  {
    if ticks != [] {
      var t := ticks[0];
      var s' := AfterUpdate(s, t.keys, t.time);
      ShotsAreSpaced(s', ticks[1..]);
      var rest := AttemptTimes(s', ticks[1..]);
      var head := if Attempts(s, t.keys, t.time) then [t.time] else [];
      assert AttemptTimes(s, ticks) == head + rest;
      assert s'.nextFireTime >= s.nextFireTime;
      if Attempts(s, t.keys, t.time) {
        assert forall j :: 0 <= j < |rest| ==> rest[j] >= t.time + s.gun.fireRate;
      }
    }
  }

  /** With a reference missing, no frame spawns anything. */
  lemma {:induction false} MissingReferenceSpawnsNothing(s: GunState, ticks: seq<Tick>)
    requires s.gun.bulletPrefab.None? || s.gun.firePoint.None?
    ensures Run(s, ticks).spawned == s.spawned
    ensures Run(s, ticks).gun == s.gun
    decreases |ticks|
  {
    if ticks != [] {
      MissingReferenceSpawnsNothing(AfterUpdate(s, ticks[0].keys, ticks[0].time), ticks[1..]);
    }
  }

  /** With both references present, every attempt spawns exactly one bullet. */
  lemma {:induction false} EveryAttemptSpawns(s: GunState, ticks: seq<Tick>)
    requires s.gun.bulletPrefab.Some? && s.gun.firePoint.Some?
    ensures |Run(s, ticks).spawned| == |s.spawned| + |AttemptTimes(s, ticks)|
    ensures Run(s, ticks).gun == s.gun
    decreases |ticks|
  {
    if ticks != [] {
      EveryAttemptSpawns(AfterUpdate(s, ticks[0].keys, ticks[0].time), ticks[1..]);
    }
  }

  /**
   * A bullet spawned with a routing component ignores every contact with
   * its own gun's object, whatever that object's tag, in both handlers.
   */
  lemma OwnBulletIgnoresShooter(s: GunState, keys: Keys, time: real, tag: string)
    requires Attempts(s, keys, time) && Shot(s.gun, s.facingRight).Spawned?
    requires s.gun.bulletPrefab.value.router.Router?
    ensures var b := AfterUpdate(s, keys, time).spawned[|s.spawned|];
            && b.router.Router?
            && BulletRouting.OnTriggerEnter2D(b.router.shooter, BulletRouting.Collider(s.gun.self, tag))
               == BulletRouting.Ignore
            && BulletRouting.OnCollisionEnter2D(b.router.shooter,
                 BulletRouting.Collision(BulletRouting.Collider(s.gun.self, tag))) == BulletRouting.Ignore
  {
  }

  /** Turning and shooting on the same frame: the shot leaves in the old direction. */
  lemma TurnAppliesAfterShot(s: GunState, time: real)
    requires s.facingRight && s.gun.bulletPrefab.Some? && s.gun.firePoint.Some?
    requires !s.gun.bulletPrefab.value.has2DBody && time >= s.nextFireTime
    ensures var r := AfterUpdate(s, Keys(true, true, false), time);
            && !r.facingRight
            && r.spawned[|s.spawned|].velocity == Scale(s.gun.firePoint.value.right, s.gun.bullspeed)
  {
  }

  class Player2Bullet {
    /** The object the script sits on. */
    var self: ObjectId
    var bulletPrefab: Option<Prefab>
    var firePoint: Option<FirePoint>
    var bullspeed: real
    var lifeTime: real
    var fireRate: real
    var nextFireTime: real
    var facingRight: bool
    /** The bullets instantiated so far. */
    var spawned: seq<Bullet>

    ghost function State(): GunState
      reads this
    {
      GunState(Gun(self, bulletPrefab, firePoint, bullspeed, lifeTime, fireRate), nextFireTime, facingRight, spawned)
    }

    /** The script as the scene loads it: cooldown over at time zero, facing right, nothing spawned. */
    constructor (self: ObjectId, bulletPrefab: Option<Prefab>, firePoint: Option<FirePoint>,
                 bullspeed: real, lifeTime: real, fireRate: real)
      ensures State() == GunState(Gun(self, bulletPrefab, firePoint, bullspeed, lifeTime, fireRate), 0.0, true, [])
    {
      this.self := self;
      this.bulletPrefab := bulletPrefab;
      this.firePoint := firePoint;
      this.bullspeed := bullspeed;
      this.lifeTime := lifeTime;
      this.fireRate := fireRate;
      nextFireTime := 0.0;
      facingRight := true;
      spawned := [];
    }

    method Update(keys: Keys, time: real)
      modifies this`nextFireTime, this`facingRight, this`spawned
      ensures State() == AfterUpdate(old(State()), keys, time)
    {
      if keys.fireDown && time >= nextFireTime {
        var _ := Shoot();
        nextFireTime := time + fireRate;
      }
      if keys.leftDown {
        facingRight := false;
      }
      if keys.rightDown {
        facingRight := true;
      }
    }

    method Shoot() returns (r: ShotResult)
      modifies this`spawned
      ensures r == Shot(old(State()).gun, facingRight)
      ensures State() == AfterShoot(old(State()))
    {
      if bulletPrefab.None? {
        return MissingPrefab;
      }
      if firePoint.None? {
        return MissingFirePoint;
      }
      var prefab := bulletPrefab.value;
      var fp := firePoint.value;
      var router := NoRouter;
      if prefab.router.Router? {
        router := Router(Some(self));
      }
      var direction := if facingRight then fp.right else Neg(fp.right);
      var bullet;
      if prefab.has2DBody {
        bullet := Bullet(fp.position, router, Body2D, Planar(Scale(direction, bullspeed)), lifeTime);
      } else {
        bullet := Bullet(fp.position, router, Body3D, Scale(direction, bullspeed), lifeTime);
      }
      spawned := spawned + [bullet];
      return Spawned(bullet);
    }
  }
}
