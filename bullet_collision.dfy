/**
 * The contact routing of a bullet: a contact with the object that fired it
 * is ignored, a contact with a Player- or Wall-tagged object destroys the
 * bullet, and any other contact leaves it flying. The Player branch applies
 * no damage.
 *
 * The trigger handler and the collision handler are written out separately,
 * branch for branch, and proved to agree.
 */
module BulletRouting {
  import opened Common

  const PlayerTag: string := "Player"
  const WallTag: string := "Wall"

  /** The collider that was touched: the object it belongs to and that object's tag. */
  datatype Collider = Collider(owner: ObjectId, tag: string)

  /** Unity's Collision2D, reduced to the other object's collider. */
  datatype Collision = Collision(collider: Collider)

  /** What a contact does to the bullet. */
  datatype Outcome = Ignore | DestroyBullet | NoEffect

  /** `other.gameObject == shooter`: false while no shooter is recorded, since a collider always has an object. */
  predicate IsShooter(shooter: Option<ObjectId>, other: Collider) {
    shooter.Some? && shooter.value == other.owner
  }

  /** The number of `Destroy(gameObject)` calls the two independent tag checks make. */
  function DestroyCalls(tag: string): (n: nat)
    ensures n <= 1
    ensures n == 1 <==> tag == PlayerTag || tag == WallTag
  {
    (if tag == PlayerTag then 1 else 0) + (if tag == WallTag then 1 else 0)
  }

  /** The outcome once the shooter check has passed. */
  function AfterTagChecks(tag: string): Outcome {
    if DestroyCalls(tag) > 0 then DestroyBullet else NoEffect
  }

  /** OnTriggerEnter2D: shooter check first, then the Player check, then the Wall check. */
  function OnTriggerEnter2D(shooter: Option<ObjectId>, other: Collider): (r: Outcome)
    ensures r == Ignore <==> IsShooter(shooter, other)
    ensures r == DestroyBullet <==> !IsShooter(shooter, other) && (other.tag == PlayerTag || other.tag == WallTag)
    ensures r == NoEffect <==> !IsShooter(shooter, other) && other.tag != PlayerTag && other.tag != WallTag
  {
    if IsShooter(shooter, other) then Ignore
    else AfterTagChecks(other.tag)
  }

  /** OnCollisionEnter2D: the same checks on the collision's collider; it agrees with the trigger handler. */
  function OnCollisionEnter2D(shooter: Option<ObjectId>, collision: Collision): (r: Outcome)
    ensures r == OnTriggerEnter2D(shooter, collision.collider)
  {
    var other := collision.collider;
    if shooter.Some? && shooter.value == other.owner then Ignore
    else if other.tag == PlayerTag || other.tag == WallTag then DestroyBullet
    else NoEffect
  }

  /** A Player-tagged shooter never destroys its own bullet: the shooter check comes before the tag checks. */
  lemma ShooterCheckPrecedesTags(id: ObjectId, tag: string)
    ensures OnTriggerEnter2D(Some(id), Collider(id, tag)) == Ignore
    ensures OnCollisionEnter2D(Some(id), Collision(Collider(id, tag))) == Ignore
  {
  }

  /** A bullet without a recorded shooter is destroyed by every Player contact, its firer's included. */
  lemma UnmarkedBulletHitsAnyPlayer(id: ObjectId)
    ensures OnTriggerEnter2D(None, Collider(id, PlayerTag)) == DestroyBullet
  {
  }

  /**
   * The contacts of one bullet in order: the index of the first one that
   * destroys it, if any.
   */
  function FirstDestroying(shooter: Option<ObjectId>, contacts: seq<Collider>): (r: Option<nat>)
    ensures r.Some? ==> r.value < |contacts| && OnTriggerEnter2D(shooter, contacts[r.value]) == DestroyBullet
    ensures r.Some? ==> forall i :: 0 <= i < r.value ==> OnTriggerEnter2D(shooter, contacts[i]) != DestroyBullet
    ensures r.None? <==> forall i :: 0 <= i < |contacts| ==> OnTriggerEnter2D(shooter, contacts[i]) != DestroyBullet
  {
    if contacts == [] then None
    else if OnTriggerEnter2D(shooter, contacts[0]) == DestroyBullet then Some(0)
    else match FirstDestroying(shooter, contacts[1..])
      case None => None
      case Some(k) => Some(k + 1)
  }

  /**
   * A bullet survives every contact with its shooter and with untagged
   * scenery: it is destroyed only by a Player or Wall object other than the
   * one that fired it.
   */
  lemma SurvivesHarmlessContacts(shooter: Option<ObjectId>, contacts: seq<Collider>)
    requires forall i :: 0 <= i < |contacts| ==>
               IsShooter(shooter, contacts[i]) || (contacts[i].tag != PlayerTag && contacts[i].tag != WallTag)
    ensures FirstDestroying(shooter, contacts) == None
  {
  }
}
