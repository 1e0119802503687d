/** EnemyUnit: a hostile agent that each physics tick picks the nearest Ally
    (or else the player), then patrols, chases or attacks depending on the
    distance; it takes unclamped damage and dies at zero health or below. */
module Enemies {
  import opened Scene
  import Targeting

  /** The branch FixedUpdate takes. */
  datatype Mode = Patrolling | Chasing | Attacking

  /** What one FixedUpdate call did. */
  datatype EnemyTick =
    | Skipped                       // disabled, or player / rigidbody missing
    | Patrolled
    | Chased
    | Struck(strike: Option<Strike>) // the cooldown passed; the damage call made, if any
    | CoolingDown                   // in attack range, but the cooldown has not elapsed

  /** Seconds Die waits before destroying the game object. */
  const DestroyDelay: real := 0.45

  /** Within this distance of its patrol point the enemy moves on to the next one. */
  const ArrivalDistance: real := 0.1

  /** UpdateTarget: the nearest Ally strictly inside the detection radius,
      otherwise the player. */
  function ChooseTarget(hits: seq<Hit>, detectionRadius: real): (t: Target)
    ensures t.UnitTarget? <==> !Targeting.NoneInRange(hits, AllyTag, detectionRadius)
    ensures t.UnitTarget? ==> exists k: nat :: Targeting.IsNearest(hits, AllyTag, detectionRadius, k) && t.hit == hits[k]
    ensures t.UnitTarget? ==> t.hit.collider.tag == AllyTag && t.hit.distance < detectionRadius
  {
    Targeting.NearestSpec(hits, AllyTag, detectionRadius);
    Targeting.NoneInRangeExact(hits, AllyTag, detectionRadius);
    match Targeting.Nearest(hits, AllyTag, detectionRadius)
    case Some(k) => UnitTarget(hits[k])
    case None => PlayerTarget
  }

  /** The distance to a target: a hit's own, or the one measured to the player. */
  function DistanceTo(t: Target, playerDistance: real): real {
    match t
    case PlayerTarget => playerDistance
    case UnitTarget(h) => h.distance
  }

  /** The FixedUpdate decision from the distance to the current target. */
  function Decide(distance: real, detectionRadius: real, stopDistance: real): (m: Mode)
    ensures m == Patrolling <==> distance > detectionRadius
    ensures m == Chasing <==> stopDistance < distance <= detectionRadius
    ensures m == Attacking <==> distance <= stopDistance && distance <= detectionRadius
  {
    var chasingPlayer := distance <= detectionRadius;
    if chasingPlayer && distance > stopDistance then Chasing
    else if chasingPlayer && distance <= stopDistance then Attacking
    else Patrolling
  }

  /** The patrol index after a Patrol call: unchanged with no points, and
      otherwise advanced by one, wrapping, when within the arrival distance. */
  function NextPatrolIndex(index: nat, count: nat, pointDistance: real): (r: nat)
    ensures count == 0 ==> r == index
    ensures index < count ==> r < count
    ensures r != index ==> pointDistance < ArrivalDistance && count > 0
    ensures 0 < count && pointDistance < ArrivalDistance && index < count ==> r == (if index + 1 == count then 0 else index + 1)
  {
    if count == 0 then index
    else if pointDistance < ArrivalDistance then (index + 1) % count
    else index
  }

  /** The damage call AttackTarget makes on its target once the cooldown has
      passed: on an Ally's bug script, or on the player's movement script. */
  function StrikeFor(t: Target, damageAmount: int, playerScripted: bool): (s: Option<Strike>)
    ensures s.Some? ==> s.value.amount == damageAmount
    ensures s.Some? && s.value.victim == PlayerVictim <==> t == PlayerTarget && playerScripted
    ensures s.Some? && s.value.victim.BugVictim? <==>
              t.UnitTarget? && t.hit.collider.tag == AllyTag && t.hit.collider.script == BugScript
    ensures s.Some? && s.value.victim.BugVictim? ==> s.value.victim.bug == t.hit.collider.id
    ensures s.Some? ==> !s.value.victim.EnemyVictim?
  {
    match t
    case UnitTarget(h) =>
      if h.collider.tag == AllyTag && h.collider.script == BugScript
      then Some(Strike(BugVictim(h.collider.id), damageAmount))
      else None
    case PlayerTarget =>
      if playerScripted then Some(Strike(PlayerVictim, damageAmount)) else None
  }

  class EnemyUnit {
    const detectionRadius: real
    const stopDistance: real
    const damageAmount: int
    const attackCooldown: real
    const maxHealth: int
    /** patrolPoints.Length */
    const patrolCount: nat
    /** player != null */
    const hasPlayer: bool
    /** rb != null */
    const hasBody: bool
    /** The player carries the PlayerMovement script that takes damage. */
    const playerScripted: bool

    var currentHealth: int
    var currentPointIndex: nat
    var chasingPlayer: bool
    /** null until the first tick that reaches UpdateTarget. */
    var currentTarget: Option<Target>
    var lastAttackTime: real
    /** The component's `enabled` flag: the engine ticks it only while set. */
    var enabled: bool
    var colliderEnabled: bool
    /** Animator triggers set, in order. */
    var triggers: seq<string>
    /** The delay of the Destroy call Die requested, if any. */
    var destroyDelay: Option<real>

    /** The patrol index always names a patrol point (or is 0 when there are none). */
    ghost predicate Valid()
      reads this
    {
      currentPointIndex < patrolCount || currentPointIndex == 0
    }

    /** The inspector values, then Start. */
    constructor (detectionRadius: real, stopDistance: real, damageAmount: int, attackCooldown: real,
                 maxHealth: int, patrolCount: nat, hasPlayer: bool, hasBody: bool, playerScripted: bool)
      ensures Valid()
      ensures this.detectionRadius == detectionRadius && this.stopDistance == stopDistance
      ensures this.damageAmount == damageAmount && this.attackCooldown == attackCooldown
      ensures this.maxHealth == maxHealth && this.patrolCount == patrolCount
      ensures this.hasPlayer == hasPlayer && this.hasBody == hasBody && this.playerScripted == playerScripted
      ensures currentHealth == maxHealth && currentPointIndex == 0 && !chasingPlayer
      ensures currentTarget == None && lastAttackTime == 0.0
      ensures enabled && colliderEnabled && triggers == [] && destroyDelay == None
    {
      this.detectionRadius := detectionRadius;
      this.stopDistance := stopDistance;
      this.damageAmount := damageAmount;
      this.attackCooldown := attackCooldown;
      this.maxHealth := maxHealth;
      this.patrolCount := patrolCount;
      this.hasPlayer := hasPlayer;
      this.hasBody := hasBody;
      this.playerScripted := playerScripted;
      currentHealth := maxHealth;
      currentPointIndex := 0;
      chasingPlayer := false;
      currentTarget := None;
      lastAttackTime := 0.0;
      enabled := true;
      colliderEnabled := true;
      triggers := [];
      destroyDelay := None;
    }

    /** One physics tick. `hits` is the overlap query around the enemy,
        `playerDistance` the distance to the player and `pointDistance` the
        distance to the current patrol point; `now` is Time.time. */
    method FixedUpdate(hits: seq<Hit>, playerDistance: real, pointDistance: real, now: real)
      returns (outcome: EnemyTick)
      requires Valid()
      modifies this
      ensures Valid()
      ensures !(old(enabled) && hasPlayer && hasBody) ==> outcome == Skipped && unchanged(this)
      ensures old(enabled) && hasPlayer && hasBody ==>
        var target := ChooseTarget(hits, detectionRadius);
        var distance := DistanceTo(target, playerDistance);
        var mode := Decide(distance, detectionRadius, stopDistance);
        && currentTarget == Some(target)
        && chasingPlayer == (distance <= detectionRadius)
        && currentPointIndex == (if mode == Patrolling then NextPatrolIndex(old(currentPointIndex), patrolCount, pointDistance)
                                 else old(currentPointIndex))
        && (mode == Patrolling ==> outcome == Patrolled && lastAttackTime == old(lastAttackTime))
        && (mode == Chasing ==> outcome == Chased && lastAttackTime == old(lastAttackTime))
        && (mode == Attacking && now - old(lastAttackTime) >= attackCooldown ==>
              outcome == Struck(StrikeFor(target, damageAmount, playerScripted)) && lastAttackTime == now)
        && (mode == Attacking && now - old(lastAttackTime) < attackCooldown ==>
              outcome == CoolingDown && lastAttackTime == old(lastAttackTime))
      ensures currentHealth == old(currentHealth) && enabled == old(enabled)
      ensures colliderEnabled == old(colliderEnabled) && triggers == old(triggers) && destroyDelay == old(destroyDelay)
    {
      if !enabled || !hasPlayer || !hasBody {
        return Skipped;
      }
      UpdateTarget(hits);
      var target := currentTarget.value;
      var distanceToTarget := DistanceTo(target, playerDistance);
      chasingPlayer := distanceToTarget <= detectionRadius;
      if chasingPlayer && distanceToTarget > stopDistance {
        outcome := Chased;
      } else if chasingPlayer && distanceToTarget <= stopDistance {
        outcome := AttackTarget(now);
      } else {
        Patrol(pointDistance);
        outcome := Patrolled;
      }
    }

    /** UpdateTarget: the nearest Ally of the overlap query, else the player. */
    method UpdateTarget(hits: seq<Hit>)
      modifies this`currentTarget
      ensures currentTarget == Some(ChooseTarget(hits, detectionRadius))
    {
      var nearestBug := Targeting.FindNearest(hits, AllyTag, detectionRadius);
      currentTarget := if nearestBug.Some? then Some(UnitTarget(hits[nearestBug.value])) else Some(PlayerTarget);
    }

    /** AttackTarget: once the cooldown has elapsed, damage an Ally's bug
        script or the player's script, and restart the cooldown whatever the
        target turned out to be. */
    method AttackTarget(now: real) returns (outcome: EnemyTick)
      requires currentTarget.Some?
      modifies this`lastAttackTime
      ensures now - old(lastAttackTime) >= attackCooldown ==>
                outcome == Struck(StrikeFor(currentTarget.value, damageAmount, playerScripted)) && lastAttackTime == now
      ensures now - old(lastAttackTime) < attackCooldown ==>
                outcome == CoolingDown && lastAttackTime == old(lastAttackTime)
    {
      if now - lastAttackTime >= attackCooldown {
        var target := currentTarget.value;
        var strike := None;
        if target.UnitTarget? && target.hit.collider.tag == AllyTag {
          if target.hit.collider.script == BugScript {
            strike := Some(Strike(BugVictim(target.hit.collider.id), damageAmount));
          }
        } else if target == PlayerTarget {
          if playerScripted {
            strike := Some(Strike(PlayerVictim, damageAmount));
          }
        }
        lastAttackTime := now;
        outcome := Struck(strike);
      } else {
        outcome := CoolingDown;
      }
    }

    /** Patrol: with no points, nothing; otherwise move on to the next point
        once within the arrival distance of the current one. */
    method Patrol(pointDistance: real)
      requires Valid()
      modifies this`currentPointIndex
      ensures Valid()
      ensures currentPointIndex == NextPatrolIndex(old(currentPointIndex), patrolCount, pointDistance)
    {
      if patrolCount == 0 {
        return;
      }
      if pointDistance < ArrivalDistance {
        currentPointIndex := (currentPointIndex + 1) % patrolCount;
      }
    }

    /** TakeDamage: subtract the damage in C#'s wrapping `int` arithmetic,
        unclamped; at zero or below, Die, whether or not the enemy has died
        before. */
    method TakeDamage(damage: int)
      requires Valid()
      modifies this
      ensures Valid()
      ensures currentHealth == Wrap32(old(currentHealth) - damage)
      ensures currentHealth <= 0 ==>
        !enabled && !colliderEnabled && triggers == old(triggers) + ["Die"] && destroyDelay == Some(DestroyDelay)
      ensures currentHealth > 0 ==>
        enabled == old(enabled) && colliderEnabled == old(colliderEnabled)
        && triggers == old(triggers) && destroyDelay == old(destroyDelay)
      ensures currentPointIndex == old(currentPointIndex) && chasingPlayer == old(chasingPlayer)
      ensures currentTarget == old(currentTarget) && lastAttackTime == old(lastAttackTime)
    {
      currentHealth := Wrap32(currentHealth - damage);
      if currentHealth <= 0 {
        Die();
      }
    }

    /** Die: the Die animation, collider and component disabled, and the
        object's destruction requested. */
    method Die()
      modifies this`triggers, this`colliderEnabled, this`enabled, this`destroyDelay
      ensures !enabled && !colliderEnabled
      ensures triggers == old(triggers) + ["Die"] && destroyDelay == Some(DestroyDelay)
    {
      triggers := triggers + ["Die"];
      colliderEnabled := false;
      enabled := false;
      destroyDelay := Some(DestroyDelay);
    }
  }

  /** Once a TakeDamage has left the enemy dead, no later tick changes it. */
  method DeadEnemyStaysInert(e: EnemyUnit, damage: int, hits: seq<Hit>, playerDistance: real, pointDistance: real, now: real)
    returns (outcome: EnemyTick)
    requires e.Valid()
    modifies e
    ensures e.currentHealth <= 0 ==> outcome == Skipped
  {
    e.TakeDamage(damage);
    outcome := e.FixedUpdate(hits, playerDistance, pointDistance, now);
  }
}
