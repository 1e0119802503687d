/** BugFollowPlayer (the version in BugManager.cs): an ally bug that each
    physics tick picks the nearest Enemy (or else the player), attacks it in
    range or moves toward it, and otherwise follows the player with a
    stop/resume hysteresis band; its health is clamped to [0, maxHealth]. */
module Bugs {
  import opened Scene
  import Targeting

  /** What one FixedUpdate call did. */
  datatype BugTick =
    | Skipped                        // disabled, or rigidbody / current target missing
    | Faulted                        // no enemy and no player: the tag test dereferences null
    | Attacked(strike: Option<Strike>)
    | Approached                     // moved toward the enemy target
    | Followed(moving: bool)         // FollowPlayer, and whether it moved this tick

  /** Seconds Die waits before destroying the game object. */
  const DestroyDelay: real := 1.0

  /** The tag a target answers CompareTag with. */
  function TagOf(t: Target): string {
    match t
    case PlayerTarget => PlayerTag
    case UnitTarget(h) => h.collider.tag
  }

  /** UpdateTarget: the nearest Enemy strictly inside the detection radius,
      otherwise the player (null when the bug has no player). */
  function ChooseTarget(hits: seq<Hit>, detectionRadius: real, hasPlayer: bool): (t: Option<Target>)
    ensures t.Some? && t.value.UnitTarget? <==> !Targeting.NoneInRange(hits, EnemyTag, detectionRadius)
    ensures t.Some? && t.value.UnitTarget? ==>
              exists k: nat :: Targeting.IsNearest(hits, EnemyTag, detectionRadius, k) && t.value.hit == hits[k]
    ensures t == Some(PlayerTarget) <==> Targeting.NoneInRange(hits, EnemyTag, detectionRadius) && hasPlayer
    ensures t.Some? ==> (TagOf(t.value) == EnemyTag <==> t.value.UnitTarget?)
  {
    Targeting.NearestSpec(hits, EnemyTag, detectionRadius);
    Targeting.NoneInRangeExact(hits, EnemyTag, detectionRadius);
    match Targeting.Nearest(hits, EnemyTag, detectionRadius)
    case Some(k) => Some(UnitTarget(hits[k]))
    case None => if hasPlayer then Some(PlayerTarget) else None
  }

  /** The follow flag after FollowPlayer: set beyond stop + buffer, cleared
      within stop, and kept in the band between. */
  function Following(wasFollowing: bool, distance: real, stopDistance: real, bufferDistance: real): (r: bool)
    ensures distance > stopDistance + bufferDistance ==> r
    ensures distance <= stopDistance + bufferDistance && distance <= stopDistance ==> !r
    ensures stopDistance < distance <= stopDistance + bufferDistance ==> r == wasFollowing
  {
    if distance > stopDistance + bufferDistance then true
    else if distance <= stopDistance then false
    else wasFollowing
  }

  /** The follow flag after FollowPlayer has seen each distance in turn. */
  function FollowRun(wasFollowing: bool, distances: seq<real>, stopDistance: real, bufferDistance: real): bool
    decreases |distances|
  {
    if distances == [] then wasFollowing
    else FollowRun(Following(wasFollowing, distances[0], stopDistance, bufferDistance), distances[1..], stopDistance, bufferDistance)
  }

  /** No jitter at the boundary: a stopped bug stays stopped until the player
      is beyond stop + buffer ... */
  lemma {:induction false} StoppedUntilBeyondBand(distances: seq<real>, stopDistance: real, bufferDistance: real)
    requires forall i :: 0 <= i < |distances| ==> distances[i] <= stopDistance + bufferDistance
    ensures !FollowRun(false, distances, stopDistance, bufferDistance)
    decreases |distances|
  {
    if distances != [] {
      assert !Following(false, distances[0], stopDistance, bufferDistance);
      StoppedUntilBeyondBand(distances[1..], stopDistance, bufferDistance);
    }
  }

  /** ... and a following bug keeps following until the player is within stop. */
  lemma {:induction false} FollowingUntilWithinStop(distances: seq<real>, stopDistance: real, bufferDistance: real)
    requires forall i :: 0 <= i < |distances| ==> distances[i] > stopDistance
    ensures FollowRun(true, distances, stopDistance, bufferDistance)
    decreases |distances|
  {
    if distances != [] {
      assert Following(true, distances[0], stopDistance, bufferDistance);
      FollowingUntilWithinStop(distances[1..], stopDistance, bufferDistance);
    }
  }

  /** The sprite flip after a move in direction x: right faces flipped, left
      unflipped, straight up or down keeps the flip. */
  function Flip(flipX: bool, directionX: real): (r: bool)
    ensures directionX > 0.0 ==> r
    ensures directionX < 0.0 ==> !r
    ensures directionX == 0.0 ==> r == flipX
  {
    if directionX > 0.0 then true else if directionX < 0.0 then false else flipX
  }

  /** The damage call AttackEnemy makes once the cooldown has passed: only on
      a target that carries an EnemyUnit. */
  function StrikeFor(t: Target, damageAmount: int): (s: Option<Strike>)
    ensures s.Some? <==> t.UnitTarget? && t.hit.collider.script == EnemyScript
    ensures s.Some? ==> s.value == Strike(EnemyVictim(t.hit.collider.id), damageAmount)
  {
    if t.UnitTarget? && t.hit.collider.script == EnemyScript
    then Some(Strike(EnemyVictim(t.hit.collider.id), damageAmount))
    else None
  }

  class BugFollowPlayer {
    const followSpeed: real
    const stopDistance: real
    const bufferDistance: real
    const maxHealth: int
    const detectionRadius: real
    const attackRange: real
    const damageAmount: int
    const attackCooldown: real
    /** rb != null */
    const hasBody: bool

    /** The player transform it follows, by identity; None is null. */
    var player: Option<nat>
    var isFollowing: bool
    var currentTarget: Option<Target>
    var currentHealth: int
    var lastAttackTime: real
    var velocity: Vec
    var flipX: bool
    var enabled: bool
    var colliderEnabled: bool
    /** Animator triggers set, in order. */
    var triggers: seq<string>
    /** The delay of the Destroy call Die requested, if any. */
    var destroyDelay: Option<real>

    /** Health stays within [0, maxHealth]. */
    ghost predicate Valid()
      reads this
    {
      0 <= maxHealth ==> 0 <= currentHealth <= maxHealth
    }

    /** The inspector values, then Start: full health, the player as target. */
    constructor (followSpeed: real, stopDistance: real, bufferDistance: real, maxHealth: int,
                 detectionRadius: real, attackRange: real, damageAmount: int, attackCooldown: real,
                 hasBody: bool, player: Option<nat>)
      ensures Valid()
      ensures this.followSpeed == followSpeed && this.stopDistance == stopDistance
      ensures this.bufferDistance == bufferDistance && this.maxHealth == maxHealth
      ensures this.detectionRadius == detectionRadius && this.attackRange == attackRange
      ensures this.damageAmount == damageAmount && this.attackCooldown == attackCooldown
      ensures this.hasBody == hasBody && this.player == player
      ensures currentHealth == maxHealth && !isFollowing && lastAttackTime == 0.0
      ensures currentTarget == (if player.Some? then Some(PlayerTarget) else None)
      ensures velocity == Zero && !flipX && enabled && colliderEnabled
      ensures triggers == [] && destroyDelay == None
    {
      this.followSpeed := followSpeed;
      this.stopDistance := stopDistance;
      this.bufferDistance := bufferDistance;
      this.maxHealth := maxHealth;
      this.detectionRadius := detectionRadius;
      this.attackRange := attackRange;
      this.damageAmount := damageAmount;
      this.attackCooldown := attackCooldown;
      this.hasBody := hasBody;
      this.player := player;
      isFollowing := false;
      currentHealth := maxHealth;
      currentTarget := if player.Some? then Some(PlayerTarget) else None;
      lastAttackTime := 0.0;
      velocity := Zero;
      flipX := false;
      enabled := true;
      colliderEnabled := true;
      triggers := [];
      destroyDelay := None;
    }

    /** One physics tick. `hits` is the overlap query around the bug,
        `playerDistance` the distance to the player, `direction` the unit
        vector toward the target chosen this tick, `now` is Time.time. */
    method FixedUpdate(hits: seq<Hit>, playerDistance: real, direction: Vec, now: real)
      returns (outcome: BugTick)
      requires Valid()
      modifies this
      ensures Valid()
      ensures !(old(enabled) && hasBody && old(currentTarget).Some?) ==> outcome == Skipped && unchanged(this)
      ensures old(enabled) && hasBody && old(currentTarget).Some? ==>
        var target := ChooseTarget(hits, detectionRadius, player.Some?);
        && currentTarget == target
        && (target == None ==> outcome == Faulted && unchanged(this`velocity, this`flipX, this`isFollowing, this`lastAttackTime, this`triggers))
        && (target.Some? && target.value.UnitTarget? && target.value.hit.distance <= attackRange ==>
              && outcome == Attacked(if now - old(lastAttackTime) >= attackCooldown
                                     then StrikeFor(target.value, damageAmount) else None)
              && lastAttackTime == (if outcome.strike.Some? then now else old(lastAttackTime))
              && triggers == old(triggers) + ["Attack"]
              && velocity == old(velocity) && flipX == old(flipX) && isFollowing == old(isFollowing))
        && (target.Some? && target.value.UnitTarget? && target.value.hit.distance > attackRange ==>
              outcome == Approached && velocity == Scale(direction, followSpeed)
              && flipX == Flip(old(flipX), direction.x) && isFollowing == old(isFollowing)
              && lastAttackTime == old(lastAttackTime) && triggers == old(triggers))
        && (target == Some(PlayerTarget) ==>
              var following := Following(old(isFollowing), playerDistance, stopDistance, bufferDistance);
              && outcome == Followed(following)
              && isFollowing == following
              && velocity == (if following then Scale(direction, followSpeed)
                              else if playerDistance <= stopDistance then Zero
                              else old(velocity))
              && flipX == (if following then Flip(old(flipX), direction.x) else old(flipX))
              && lastAttackTime == old(lastAttackTime) && triggers == old(triggers))
      ensures player == old(player) && currentHealth == old(currentHealth) && enabled == old(enabled)
      ensures colliderEnabled == old(colliderEnabled) && destroyDelay == old(destroyDelay)
    {
      if !enabled || !hasBody || currentTarget.None? {
        return Skipped;
      }
      UpdateTarget(hits);
      if currentTarget.None? {
        return Faulted;
      }
      if TagOf(currentTarget.value) == EnemyTag {
        var distanceToEnemy := currentTarget.value.hit.distance;
        if distanceToEnemy <= attackRange {
          var strike := AttackEnemy(now);
          outcome := Attacked(strike);
        } else {
          MoveTowardsTarget(direction);
          outcome := Approached;
        }
      } else {
        FollowPlayer(playerDistance, direction);
        outcome := Followed(isFollowing);
      }
    }

    /** UpdateTarget: the nearest Enemy of the overlap query, else the player. */
    method UpdateTarget(hits: seq<Hit>)
      modifies this`currentTarget
      ensures currentTarget == ChooseTarget(hits, detectionRadius, player.Some?)
    {
      var nearestEnemy := Targeting.FindNearest(hits, EnemyTag, detectionRadius);
      currentTarget := if nearestEnemy.Some? then Some(UnitTarget(hits[nearestEnemy.value]))
                       else if player.Some? then Some(PlayerTarget) else None;
    }

    /** FollowPlayer: the hysteresis band, stopping dead within stopDistance,
        and moving only while following. */
    method FollowPlayer(playerDistance: real, direction: Vec)
      modifies this`isFollowing, this`velocity, this`flipX
      ensures isFollowing == Following(old(isFollowing), playerDistance, stopDistance, bufferDistance)
      ensures velocity == (if isFollowing then Scale(direction, followSpeed)
                           else if playerDistance <= stopDistance then Zero
                           else old(velocity))
      ensures flipX == (if isFollowing then Flip(old(flipX), direction.x) else old(flipX))
    {
      if playerDistance > stopDistance + bufferDistance {
        isFollowing := true;
      } else if playerDistance <= stopDistance {
        isFollowing := false;
        velocity := Zero;
      }
      if isFollowing {
        MoveTowardsTarget(direction);
      }
    }

    /** MoveTowardsTarget: velocity toward the target at follow speed, and the
        sprite flipped by the sign of the direction's x. */
    method MoveTowardsTarget(direction: Vec)
      modifies this`velocity, this`flipX
      ensures velocity == Scale(direction, followSpeed)
      ensures flipX == Flip(old(flipX), direction.x)
    {
      velocity := Scale(direction, followSpeed);
      if direction.x > 0.0 {
        flipX := true;
      } else if direction.x < 0.0 {
        flipX := false;
      }
    }

    /** AttackEnemy: the Attack animation always; damage, and a restarted
        cooldown, only when the cooldown has elapsed and the target is an
        EnemyUnit. */
    method AttackEnemy(now: real) returns (strike: Option<Strike>)
      requires currentTarget.Some?
      modifies this`triggers, this`lastAttackTime
      ensures triggers == old(triggers) + ["Attack"]
      ensures now - old(lastAttackTime) >= attackCooldown ==> strike == StrikeFor(currentTarget.value, damageAmount)
      ensures now - old(lastAttackTime) < attackCooldown ==> strike == None
      ensures lastAttackTime == (if strike.Some? then now else old(lastAttackTime))
    {
      triggers := triggers + ["Attack"];
      strike := None;
      if now - lastAttackTime >= attackCooldown {
        var target := currentTarget.value;
        if target.UnitTarget? && target.hit.collider.script == EnemyScript {
          strike := Some(Strike(EnemyVictim(target.hit.collider.id), damageAmount));
          lastAttackTime := now;
        }
      }
    }

    /** TakeDamage: the damage subtracted in C#'s wrapping `int` arithmetic,
        then clamped to [0, maxHealth]; Die when it reaches 0 (again on every
        further call while it stays there). */
    method TakeDamage(damage: int)
      requires Valid()
      modifies this
      ensures Valid()
      ensures currentHealth == ClampInt(Wrap32(old(currentHealth) - damage), 0, maxHealth)
      ensures currentHealth <= 0 ==>
        !enabled && !colliderEnabled && triggers == old(triggers) + ["Die"] && destroyDelay == Some(DestroyDelay)
      ensures currentHealth > 0 ==>
        enabled == old(enabled) && colliderEnabled == old(colliderEnabled)
        && triggers == old(triggers) && destroyDelay == old(destroyDelay)
      ensures player == old(player) && isFollowing == old(isFollowing) && currentTarget == old(currentTarget)
      ensures lastAttackTime == old(lastAttackTime) && velocity == old(velocity) && flipX == old(flipX)
    {
      currentHealth := Wrap32(currentHealth - damage);
      currentHealth := ClampInt(currentHealth, 0, maxHealth);
      if currentHealth <= 0 {
        Die();
      }
    }

    /** Die: the Die animation, collider and component disabled, and the
        object's destruction requested. */
    method Die()
      modifies this`triggers, this`colliderEnabled, this`enabled, this`destroyDelay
      ensures !enabled && !colliderEnabled
      ensures triggers == old(triggers) + ["Die"] && destroyDelay == Some(DestroyDelay)
    {
      triggers := triggers + ["Die"];
      colliderEnabled := false;
      enabled := false;
      destroyDelay := Some(DestroyDelay);
    }
  }
}
